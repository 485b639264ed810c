/**
 * The filtering loop shape shared by the city layout and the window grid:
 * walk n cells in order, spend one draw per cell, and skip (`continue`)
 * the cell when its draw fails a fixed test. `Kept` lists the surviving
 * cells, numbered 0 .. n - 1 in visiting order.
 */
module Filter {
  import opened Utils

  /** Cell i survives when the draw it spends, d(k + i), passes the test. */
  predicate Passes(d: Stream, k: nat, keep: real -> bool, i: nat) {
    keep(d(k + i))
  }

  /** The surviving cells among the first n, in visiting order. */
  function Kept(d: Stream, k: nat, n: nat, keep: real -> bool): (cells: seq<nat>)
    ensures |cells| <= n
    ensures forall j :: 0 <= j < |cells| ==> cells[j] < n
  {
    if n == 0 then []
    else Kept(d, k, n - 1, keep) + (if Passes(d, k, keep, n - 1) then [n - 1] else [])
  }

  /** The number of cells among the first n that are skipped. */
  function Skipped(d: Stream, k: nat, n: nat, keep: real -> bool): nat {
    if n == 0 then 0
    else Skipped(d, k, n - 1, keep) + (if Passes(d, k, keep, n - 1) then 0 else 1)
  }

  /** Every cell is either kept or skipped. */
  lemma {:induction false} KeptCount(d: Stream, k: nat, n: nat, keep: real -> bool)
    ensures |Kept(d, k, n, keep)| + Skipped(d, k, n, keep) == n
  {
    if n > 0 {
      KeptCount(d, k, n - 1, keep);
    }
  }

  /** Survivors appear in visiting order, each at most once. */
  lemma {:induction false} KeptIncreasing(d: Stream, k: nat, n: nat, keep: real -> bool)
    ensures forall i, j :: 0 <= i < j < |Kept(d, k, n, keep)| ==>
              Kept(d, k, n, keep)[i] < Kept(d, k, n, keep)[j]
  {
    if n > 0 {
      KeptIncreasing(d, k, n - 1, keep);
    }
  }

  /** A cell survives exactly when its own draw passes the test. */
  lemma {:induction false} KeptMember(d: Stream, k: nat, n: nat, keep: real -> bool, c: nat)
    requires c < n
    ensures c in Kept(d, k, n, keep) <==> Passes(d, k, keep, c)
  {
    if c < n - 1 {
      KeptMember(d, k, n - 1, keep, c);
    }
  }

  /** When no draw fails, nothing is skipped. */
  lemma {:induction false} NoneSkipped(d: Stream, k: nat, n: nat, keep: real -> bool)
    requires forall i: nat :: i < n ==> Passes(d, k, keep, i)
    ensures Skipped(d, k, n, keep) == 0
    ensures |Kept(d, k, n, keep)| == n
  {
    if n > 0 {
      NoneSkipped(d, k, n - 1, keep);
    }
    KeptCount(d, k, n, keep);
  }

  /** When every draw fails, nothing survives. */
  lemma {:induction false} AllSkipped(d: Stream, k: nat, n: nat, keep: real -> bool)
    requires forall i: nat :: i < n ==> !Passes(d, k, keep, i)
    ensures Kept(d, k, n, keep) == []
  {
    if n > 0 {
      AllSkipped(d, k, n - 1, keep);
    }
  }
}

/**
 * The block layout of `City` (src/components/City.jsx): an 11 x 11 grid of
 * lots visited column by column (gx outer, gz inner); each lot spends one
 * draw and becomes a plaza gap when that draw is below 0.1, otherwise it
 * yields a block record with key "gx-gz" and a centre on the grid.
 */
module City {
  import opened Utils
  import opened Filter
  import Building

  /** A placed block: the record `{ key, cx, cz }` the layout pushes. */
  datatype Block = Block(key: string, cx: real, cz: real)

  /** Number of lots the layout visits. */
  const CELLS: nat := GRID_COUNT * GRID_COUNT

  // ---------------------------------------------------------------------
  // Grid coordinates
  // ---------------------------------------------------------------------

  /** World coordinate of grid column (or row) g: `g * CELL - CITY_OFFSET`. */
  function GridCoord(g: int): (x: real)
    ensures 0 <= g < GRID_COUNT ==> -CITY_OFFSET <= x <= CITY_OFFSET
  {
    g as real * CELL - CITY_OFFSET
  }

  /** The grid runs symmetrically about the origin, one CELL between neighbours. */
  lemma GridSymmetric(g: int, h: int)
    ensures GridCoord(g) == -GridCoord(GRID_COUNT - 1 - g)
    ensures GridCoord(h) - GridCoord(g) == (h - g) as real * 23.0
  {
  }

  /** Distinct grid lines are at least one CELL apart, in the same order as their indices. */
  lemma GridApart(g: int, h: int)
    requires g < h
    ensures GridCoord(g) + CELL <= GridCoord(h)
  {
    GridSymmetric(g, h);
  }

  // ---------------------------------------------------------------------
  // Block keys: the template string `${gx}-${gz}`
  // ---------------------------------------------------------------------

  /** The character of decimal digit n. */
  function Digit(n: nat): (c: char)
    requires n < 10
    ensures '0' <= c <= '9'
  {
    ('0' as int + n) as char
  }

  /** The value of a decimal digit character. */
  function DigitValue(c: char): int {
    c as int - '0' as int
  }

  /** How a template literal renders a natural number: its decimal digits, no leading zeros. */
  function DecimalString(n: nat): (s: string)
    ensures |s| >= 1
    ensures forall i :: 0 <= i < |s| ==> '0' <= s[i] <= '9'
  {
    if n < 10 then [Digit(n)] else DecimalString(n / 10) + [Digit(n % 10)]
  }

  /** Reads a string of decimal digits back as a number. */
  function ParseDecimal(s: string): int {
    if s == [] then 0 else ParseDecimal(s[..|s| - 1]) * 10 + DigitValue(s[|s| - 1])
  }

  /** Rendering a number in decimal loses nothing: parsing gives it back. */
  lemma {:induction false} DecimalRoundTrip(n: nat)
    ensures ParseDecimal(DecimalString(n)) == n
  {
    var s := DecimalString(n);
    if n >= 10 {
      DecimalRoundTrip(n / 10);
      assert s[..|s| - 1] == DecimalString(n / 10);
    }
  }

  /** The React key of block (gx, gz): decimal digits with a single dash, which
      follows the digits of gx. */
  function Key(gx: nat, gz: nat): (s: string)
    ensures |s| == |DecimalString(gx)| + 1 + |DecimalString(gz)| >= 3
    ensures s[|DecimalString(gx)|] == '-'
    ensures forall j :: 0 <= j < |s| && j != |DecimalString(gx)| ==> '0' <= s[j] <= '9'
  {
    DecimalString(gx) + "-" + DecimalString(gz)
  }

  /** The position of the first '-' in s, or |s| when there is none. */
  function DashAt(s: string): (i: nat)
    ensures i <= |s|
    ensures i < |s| ==> s[i] == '-'
    ensures forall j :: 0 <= j < i ==> s[j] != '-'
  {
    if s == [] then 0 else if s[0] == '-' then 0 else 1 + DashAt(s[1..])
  }

  /** Splits a key at its dash and reads both halves back as grid indices. */
  function ParseKey(s: string): (int, int) {
    var i := DashAt(s);
    if i < |s| then (ParseDecimal(s[..i]), ParseDecimal(s[i + 1..])) else (ParseDecimal(s), 0)
  }

  /** Every key parses back to the grid indices it was made from. */
  lemma KeyRoundTrip(gx: nat, gz: nat)
    ensures ParseKey(Key(gx, gz)) == (gx as int, gz as int)
  {
    var a, b := DecimalString(gx), DecimalString(gz);
    var s := Key(gx, gz);
    assert s[|a|] == '-';
    assert forall j :: 0 <= j < |a| ==> s[j] == a[j] && s[j] != '-';
    assert DashAt(s) == |a|;
    assert s[..|a|] == a;
    assert s[|a| + 1..] == b;
    DecimalRoundTrip(gx);
    DecimalRoundTrip(gz);
  }

  /** Distinct lots get distinct keys. */
  lemma KeyInjective(gx: nat, gz: nat, hx: nat, hz: nat)
    ensures Key(gx, gz) == Key(hx, hz) ==> gx == hx && gz == hz
  {
    KeyRoundTrip(gx, gz);
    KeyRoundTrip(hx, hz);
  }

  // ---------------------------------------------------------------------
  // The layout
  // ---------------------------------------------------------------------

  /** The block record of lot (gx, gz). */
  function BlockAt(gx: nat, gz: nat): (b: Block)
    ensures gx < GRID_COUNT && gz < GRID_COUNT ==>
              -CITY_OFFSET <= b.cx <= CITY_OFFSET && -CITY_OFFSET <= b.cz <= CITY_OFFSET
  {
    Block(Key(gx, gz), GridCoord(gx), GridCoord(gz))
  }

  /** The lot the layout visits c-th: column c / 11, row c % 11. */
  function CellBlock(c: nat): Block {
    BlockAt(c / GRID_COUNT, c % GRID_COUNT)
  }

  /** A lot is built on unless its draw is below 0.1 (a plaza gap). */
  predicate NotPlaza(u: real) {
    !(u < 0.1)
  }

  /** The blocks for a list of visited lots, in the same order. */
  function BlocksOf(cells: seq<nat>): (blocks: seq<Block>)
    ensures |blocks| == |cells|
  {
    seq(|cells|, i requires 0 <= i < |cells| => CellBlock(cells[i]))
  }

  /** The block list the layout produces from draws d(k), d(k + 1), ... */
  function Blocks(d: Stream, k: nat): (blocks: seq<Block>)
    ensures |blocks| <= CELLS
  {
    BlocksOf(Kept(d, k, CELLS, NotPlaza))
  }

  /** Visit number gx * 11 + gz is lot (gx, gz). */
  lemma CellSplit(gx: nat, gz: nat)
    requires gz < GRID_COUNT
    ensures (gx * GRID_COUNT + gz) / GRID_COUNT == gx
    ensures (gx * GRID_COUNT + gz) % GRID_COUNT == gz
  {
  }

  /** One visit of the inner loop: lot (gx, gz) is visit gx * 11 + gz, and the blocks after it
      are the blocks before it plus, unless its draw makes a plaza, the block on that lot. */
  lemma LotStep(d: Stream, k: nat, gx: nat, gz: nat)
    requires gz < GRID_COUNT
    ensures BlocksOf(Kept(d, k, gx * GRID_COUNT + gz + 1, NotPlaza)) ==
            BlocksOf(Kept(d, k, gx * GRID_COUNT + gz, NotPlaza)) +
            (if NotPlaza(d(k + gx * GRID_COUNT + gz)) then [BlockAt(gx, gz)] else [])
  {
    var c := gx * GRID_COUNT + gz;
    var before := Kept(d, k, c, NotPlaza);
    if NotPlaza(d(k + c)) {
      CellSplit(gx, gz);
      assert Kept(d, k, c + 1, NotPlaza) == before + [c];
      assert BlocksOf(before + [c]) == BlocksOf(before) + [CellBlock(c)];
    }
  }

  /** The loop of `City`: one draw per lot, gx-major; a plaza draw skips the lot. */
  method Layout(d: Stream, k: nat) returns (blocks: seq<Block>, next: nat)
    ensures next == k + CELLS
    ensures blocks == Blocks(d, k)
  {
    blocks := [];
    next := k;
    for gx := 0 to GRID_COUNT
      invariant next == k + gx * GRID_COUNT
      invariant blocks == BlocksOf(Kept(d, k, gx * GRID_COUNT, NotPlaza))
    {
      for gz := 0 to GRID_COUNT
        invariant next == k + gx * GRID_COUNT + gz
        invariant blocks == BlocksOf(Kept(d, k, gx * GRID_COUNT + gz, NotPlaza))
      {
        LotStep(d, k, gx, gz);
        var u := d(next);
        next := next + 1;
        if u < 0.1 {
          continue;
        }
        blocks := blocks + [Block(Key(gx, gz), GridCoord(gx), GridCoord(gz))];
      }
    }
  }

  // ---------------------------------------------------------------------
  // What the layout promises
  // ---------------------------------------------------------------------

  /** At most 121 blocks: exactly 121 less the plaza gaps, and all 121 when no draw is below 0.1. */
  lemma LayoutSize(d: Stream, k: nat)
    ensures |Blocks(d, k)| + Skipped(d, k, CELLS, NotPlaza) == CELLS
    ensures |Blocks(d, k)| <= 121
    ensures (forall i: nat :: i < CELLS ==> Passes(d, k, NotPlaza, i)) ==> |Blocks(d, k)| == 121
  {
    KeptCount(d, k, CELLS, NotPlaza);
    if forall i: nat :: i < CELLS ==> Passes(d, k, NotPlaza, i) {
      NoneSkipped(d, k, CELLS, NotPlaza);
    }
  }

  /** Lot (gx, gz) gets a block exactly when its draw, the (gx * 11 + gz)-th, is not below 0.1. */
  lemma LayoutMember(d: Stream, k: nat, gx: nat, gz: nat)
    requires gx < GRID_COUNT && gz < GRID_COUNT
    ensures BlockAt(gx, gz) in Blocks(d, k) <==> !(d(k + gx * GRID_COUNT + gz) < 0.1)
  {
    var cells := Kept(d, k, CELLS, NotPlaza);
    var c := gx * GRID_COUNT + gz;
    CellSplit(gx, gz);
    KeptMember(d, k, CELLS, NotPlaza, c);
    if BlockAt(gx, gz) in Blocks(d, k) {
      var i :| 0 <= i < |cells| && Blocks(d, k)[i] == BlockAt(gx, gz);
      var e := cells[i];
      KeyInjective(e / GRID_COUNT, e % GRID_COUNT, gx, gz);
      assert e == c;
    }
    if Passes(d, k, NotPlaza, c) {
      var i :| 0 <= i < |cells| && cells[i] == c;
      assert Blocks(d, k)[i] == BlockAt(gx, gz);
    }
  }

  /** Blocks come gx-major, gz-minor: centres strictly increase in (cx, cz) order. */
  lemma LayoutOrder(d: Stream, k: nat)
    ensures forall i, j :: 0 <= i < j < |Blocks(d, k)| ==>
              Blocks(d, k)[i].cx < Blocks(d, k)[j].cx ||
              (Blocks(d, k)[i].cx == Blocks(d, k)[j].cx && Blocks(d, k)[i].cz < Blocks(d, k)[j].cz)
  {
    var cells := Kept(d, k, CELLS, NotPlaza);
    KeptIncreasing(d, k, CELLS, NotPlaza);
    forall i, j | 0 <= i < j < |cells|
      ensures Blocks(d, k)[i].cx < Blocks(d, k)[j].cx ||
              (Blocks(d, k)[i].cx == Blocks(d, k)[j].cx && Blocks(d, k)[i].cz < Blocks(d, k)[j].cz)
    {
      var a, b := cells[i], cells[j];
      assert a < b;
      if a / GRID_COUNT < b / GRID_COUNT {
        GridApart(a / GRID_COUNT, b / GRID_COUNT);
      } else {
        assert a / GRID_COUNT == b / GRID_COUNT;
        GridApart(a % GRID_COUNT, b % GRID_COUNT);
      }
    }
  }

  /** No two blocks share a key. */
  lemma LayoutKeysDistinct(d: Stream, k: nat)
    ensures forall i, j :: 0 <= i < j < |Blocks(d, k)| ==> Blocks(d, k)[i].key != Blocks(d, k)[j].key
  {
    var cells := Kept(d, k, CELLS, NotPlaza);
    KeptIncreasing(d, k, CELLS, NotPlaza);
    forall i, j | 0 <= i < j < |cells|
      ensures Blocks(d, k)[i].key != Blocks(d, k)[j].key
    {
      var a, b := cells[i], cells[j];
      assert a < b;
      KeyInjective(a / GRID_COUNT, a % GRID_COUNT, b / GRID_COUNT, b % GRID_COUNT);
    }
  }

  /** Every block centre is a grid point inside [-115, 115] on both axes. */
  lemma LayoutInsideCity(d: Stream, k: nat)
    ensures forall b :: b in Blocks(d, k) ==>
              -115.0 <= b.cx <= 115.0 && -115.0 <= b.cz <= 115.0
  {
    var cells := Kept(d, k, CELLS, NotPlaza);
    var blocks := Blocks(d, k);
    forall i | 0 <= i < |blocks|
      ensures -115.0 <= blocks[i].cx <= 115.0 && -115.0 <= blocks[i].cz <= 115.0
    {
      var c := cells[i];
      assert c / GRID_COUNT < GRID_COUNT;
      assert blocks[i] == BlockAt(c / GRID_COUNT, c % GRID_COUNT);
    }
  }

  // ---------------------------------------------------------------------
  // Buildings of different blocks
  // ---------------------------------------------------------------------

  function Abs(x: real): real {
    if x < 0.0 then -x else x
  }

  /** The ground rectangles of building s1 in block b1 and building s2 in block b2 intersect. */
  predicate Overlap(b1: Block, s1: Building.Spec, b2: Block, s2: Building.Spec) {
    && Abs((b1.cx + s1.ox) - (b2.cx + s2.ox)) < (s1.bw + s2.bw) / 2.0
    && Abs((b1.cz + s1.oz) - (b2.cz + s2.oz)) < (s1.bd + s2.bd) / 2.0
  }

  /** Buildings standing on two different lots never intersect: each keeps within 8.55 of
      its block centre, and neighbouring centres are 23 apart. */
  lemma LotsApart(gx: nat, gz: nat, hx: nat, hz: nat,
                  s1: Building.Spec, n1: nat, s2: Building.Spec, n2: nat)
    requires (gx, gz) != (hx, hz)
    requires Building.WellFormed(s1, n1) && Building.WellFormed(s2, n2)
    ensures !Overlap(BlockAt(gx, gz), s1, BlockAt(hx, hz), s2)
  {
    Building.WithinLot(s1, n1);
    Building.WithinLot(s2, n2);
    if gx < hx {
      GridApart(gx, hx);
    } else if hx < gx {
      GridApart(hx, gx);
    } else if gz < hz {
      GridApart(gz, hz);
    } else {
      GridApart(hz, gz);
    }
  }

  /** Any buildings sampled for two different blocks of one layout never intersect. */
  lemma LayoutNoOverlap(d: Stream, k: nat, i: nat, j: nat,
                        s1: Building.Spec, n1: nat, s2: Building.Spec, n2: nat)
    requires i < |Blocks(d, k)| && j < |Blocks(d, k)| && i != j
    requires Building.WellFormed(s1, n1) && Building.WellFormed(s2, n2)
    ensures !Overlap(Blocks(d, k)[i], s1, Blocks(d, k)[j], s2)
  {
    var cells := Kept(d, k, CELLS, NotPlaza);
    KeptIncreasing(d, k, CELLS, NotPlaza);
    var a, b := cells[i], cells[j];
    assert a != b;
    assert (a / GRID_COUNT, a % GRID_COUNT) != (b / GRID_COUNT, b % GRID_COUNT);
    LotsApart(a / GRID_COUNT, a % GRID_COUNT, b / GRID_COUNT, b % GRID_COUNT, s1, n1, s2, n2);
  }
}

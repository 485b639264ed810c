/**
 * The window layout of `WindowGrid` (src/components/City.jsx): a face of
 * width faceW and height faceH is cut into `floor(faceW / 1.8)` columns and
 * `floor(faceH / 2.2)` rows; the cells are visited column by column, each
 * spends one draw and lights a window at its centre, raised by a tenth of a
 * row, unless the draw exceeds 0.45.
 */
module Windows {
  import opened Utils
  import opened Filter

  /** `Math.floor(faceW / 1.8)`: the greatest integer not above faceW / 1.8. */
  function Cols(faceW: real): (n: int)
    ensures n as real <= faceW / 1.8 < n as real + 1.0
  {
    (faceW / 1.8).Floor
  }

  /** `Math.floor(faceH / 2.2)`: the greatest integer not above faceH / 2.2. */
  function Rows(faceH: real): (n: int)
    ensures n as real <= faceH / 2.2 < n as real + 1.0
  {
    (faceH / 2.2).Floor
  }

  /** The number of cells the loops visit, which is also the number of draws they spend:
      none at all unless both counts are positive. */
  function GridCells(faceW: real, faceH: real): (n: nat)
    ensures n > 0 <==> Cols(faceW) > 0 && Rows(faceH) > 0
  {
    if Cols(faceW) > 0 && Rows(faceH) > 0 then Cols(faceW) * Rows(faceH) else 0
  }

  /** A cell lights a window unless its draw exceeds 0.45. */
  predicate Lit(u: real) {
    !(u > 0.45)
  }

  /** Cell i of `count` equal slots along a length `len` starting at 0: its centre, raised by
      `lift` slots, stays strictly inside the length for a lift of at most a tenth. */
  lemma SlotInside(i: int, count: int, len: real, lift: real)
    requires 0 <= i < count
    requires 0.0 < len
    requires 0.0 <= lift <= 0.1
    ensures 0.0 < (i as real + 0.5) * (len / count as real)
    ensures (i as real + 0.5) * (len / count as real) + len / count as real * lift < len
  {
    var w := len / count as real;
    assert w * count as real == len;
    MulPositive(w, 0.5);
    MulNonNegative(i as real, w);
    assert (i as real + 0.5) * w == i as real * w + 0.5 * w;
    MulNonNegative(w, lift);
    MulNonNegative(w, 0.1 - lift);
    MulNonNegative((count - 1 - i) as real, w);
    assert count as real * w == (count - 1 - i) as real * w + i as real * w + w;
  }

  /** Visit number c * rows + r is column c, row r. */
  lemma CellOf(c: int, r: int, rows: int)
    requires 0 <= c && 0 <= r < rows
    ensures (c * rows + r) / rows == c && (c * rows + r) % rows == r
  {
    var n := c * rows + r;
    var q, m := n / rows, n % rows;
    assert q * rows + m == c * rows + r;
    assert (q - c) * rows == r - m;
    if q > c {
      MulAtLeast(q - c, rows);
    } else if q < c {
      MulAtLeast(c - q, rows);
    }
  }

  /** A positive multiple of a positive number is at least that number. */
  lemma MulAtLeast(a: int, b: int)
    requires 1 <= a && 0 < b
    ensures b <= a * b
  {
    assert a * b - b == (a - 1) * b;
  }

  /** A cell of a cols x rows grid lies in column c < cols. */
  lemma ColumnInGrid(n: nat, cols: int, rows: int)
    requires 0 < rows && n < cols * rows
    ensures n / rows < cols
  {
    var q := n / rows;
    assert q * rows <= n;
    MulMonotone(cols, q, rows);
  }

  /** Multiplying by a non-negative number keeps order. */
  lemma MulMonotone(a: int, b: int, m: int)
    requires 0 <= m
    ensures a <= b ==> a * m <= b * m
  {
    if a <= b {
      assert b * m - a * m == (b - a) * m;
    }
  }

  /** The centre the code pushes for column c, row r of the grid on a face: the middle of
      the cell, raised by a tenth of a row, and strictly inside the face. */
  function Point(faceW: real, faceH: real, c: int, r: int): (p: (real, real))
    requires 0 <= c < Cols(faceW) && 0 <= r < Rows(faceH)
    ensures -faceW / 2.0 < p.0 < faceW / 2.0
    ensures -faceH / 2.0 < p.1 < faceH / 2.0
  {
    SlotInside(c, Cols(faceW), faceW, 0.0);
    SlotInside(r, Rows(faceH), faceH, 0.1);
    (-faceW / 2.0 + (c as real + 0.5) * (faceW / Cols(faceW) as real),
     -faceH / 2.0 + (r as real + 0.5) * (faceH / Rows(faceH) as real) + faceH / Rows(faceH) as real * 0.1)
  }

  /** The centre of visit n of the grid on a face: column n / rows, row n % rows. */
  function Centre(faceW: real, faceH: real, n: nat): (p: (real, real))
    requires n < GridCells(faceW, faceH)
    ensures -faceW / 2.0 < p.0 < faceW / 2.0
    ensures -faceH / 2.0 < p.1 < faceH / 2.0
  {
    var cols, rows := Cols(faceW), Rows(faceH);
    var c, r := n / rows, n % rows;
    ColumnInGrid(n, cols, rows);
    Point(faceW, faceH, c, r)
  }

  /** Visit c * rows + r has its window at column c, row r. */
  lemma CentreAt(faceW: real, faceH: real, c: nat, r: nat)
    requires c < Cols(faceW) && r < Rows(faceH)
    ensures c * Rows(faceH) + r < GridCells(faceW, faceH)
    ensures Centre(faceW, faceH, c * Rows(faceH) + r) == Point(faceW, faceH, c, r)
  {
    var rows := Rows(faceH);
    CellOf(c, r, rows);
    MulAtLeast(Cols(faceW) - c, rows);
    assert (Cols(faceW) - c) * rows + c * rows == Cols(faceW) * rows;
  }

  /** The window centres of a list of cells of the grid on a face, in the same order. */
  function CentresOf(faceW: real, faceH: real, cells: seq<nat>): (ps: seq<(real, real)>)
    requires forall j :: 0 <= j < |cells| ==> cells[j] < GridCells(faceW, faceH)
    ensures |ps| == |cells|
  {
    seq(|cells|, j requires 0 <= j < |cells| => Centre(faceW, faceH, cells[j]))
  }

  /** The windows lit by the first n visits of the loops, one draw per visit. */
  function Lights(faceW: real, faceH: real, d: Stream, k: nat, n: nat): (ps: seq<(real, real)>)
    requires n <= GridCells(faceW, faceH)
    ensures |ps| <= n
  {
    if n == 0 then []
    else Lights(faceW, faceH, d, k, n - 1) +
         (if Lit(d(k + n - 1)) then [Centre(faceW, faceH, n - 1)] else [])
  }

  /** The windows of one face from draws d(k), d(k + 1), ... */
  function Windows(faceW: real, faceH: real, d: Stream, k: nat): (ws: seq<(real, real)>)
    ensures |ws| <= GridCells(faceW, faceH)
  {
    Lights(faceW, faceH, d, k, GridCells(faceW, faceH))
  }

  /** The windows lit by the first n visits are the centres of the cells the filter keeps,
      in visiting order. */
  lemma {:induction false} LightsAreCentres(faceW: real, faceH: real, d: Stream, k: nat, n: nat)
    requires n <= GridCells(faceW, faceH)
    ensures Lights(faceW, faceH, d, k, n) == CentresOf(faceW, faceH, Kept(d, k, n, Lit))
  {
    if n > 0 {
      LightsAreCentres(faceW, faceH, d, k, n - 1);
      var before := Kept(d, k, n - 1, Lit);
      if Lit(d(k + n - 1)) {
        assert Kept(d, k, n, Lit) == before + [n - 1];
        assert CentresOf(faceW, faceH, before + [n - 1]) ==
               CentresOf(faceW, faceH, before) + [Centre(faceW, faceH, n - 1)];
      }
    }
  }

  /** Visit (c, r) of the loops in terms of the grid's own cells. */
  lemma Visit(faceW: real, faceH: real, d: Stream, k: nat, c: nat, r: nat)
    requires c < Cols(faceW) && r < Rows(faceH)
    ensures c * Rows(faceH) + r < GridCells(faceW, faceH)
    ensures Lights(faceW, faceH, d, k, c * Rows(faceH) + r + 1) ==
            Lights(faceW, faceH, d, k, c * Rows(faceH) + r) +
            (if Lit(d(k + c * Rows(faceH) + r)) then [Point(faceW, faceH, c, r)] else [])
  {
    CentreAt(faceW, faceH, c, r);
  }

  /** The loops of `WindowGrid`: one draw per cell, column by column; a draw above 0.45
      leaves the cell dark. No division is reached unless both counts are positive. */
  method WindowGrid(faceW: real, faceH: real, d: Stream, k: nat) returns (wins: seq<(real, real)>, next: nat)
    ensures next == k + GridCells(faceW, faceH)
    ensures wins == Windows(faceW, faceH, d, k)
    ensures |wins| <= GridCells(faceW, faceH)
    ensures Cols(faceW) <= 0 || Rows(faceH) <= 0 ==> wins == []
    ensures forall w :: w in wins ==>
              -faceW / 2.0 < w.0 < faceW / 2.0 && -faceH / 2.0 < w.1 < faceH / 2.0
  {
    var cols := (faceW / 1.8).Floor;
    var rows := (faceH / 2.2).Floor;
    // the draws spent by the columns visited so far
    ghost var m := if rows > 0 then rows else 0;
    ghost var spent := 0;
    wins := [];
    next := k;
    var c := 0;
    while c < cols
      invariant 0 <= c && (0 < cols ==> c <= cols) && (cols <= 0 ==> c == 0)
      invariant spent == c * m <= GridCells(faceW, faceH)
      invariant next == k + spent
      invariant wins == Lights(faceW, faceH, d, k, spent)
    {
      assert (c + 1) * m == c * m + m;
      MulMonotone(c + 1, cols, m);
      var r := 0;
      while r < rows
        invariant 0 <= r <= m
        invariant spent + r <= spent + m <= GridCells(faceW, faceH)
        invariant next == k + spent + r
        invariant wins == Lights(faceW, faceH, d, k, spent + r)
      {
        Visit(faceW, faceH, d, k, c, r);
        var u := d(next);
        next := next + 1;
        if !(u > 0.45) {
          wins := wins + [Point(faceW, faceH, c, r)];
        }
        r := r + 1;
      }
      spent := spent + m;
      c := c + 1;
    }
    WindowsInside(faceW, faceH, d, k);
  }

  /** Every window of a face lies strictly inside it. */
  lemma WindowsInside(faceW: real, faceH: real, d: Stream, k: nat)
    ensures forall w :: w in Windows(faceW, faceH, d, k) ==>
              -faceW / 2.0 < w.0 < faceW / 2.0 && -faceH / 2.0 < w.1 < faceH / 2.0
  {
    var cells := Kept(d, k, GridCells(faceW, faceH), Lit);
    LightsAreCentres(faceW, faceH, d, k, GridCells(faceW, faceH));
    forall w | w in Windows(faceW, faceH, d, k)
      ensures -faceW / 2.0 < w.0 < faceW / 2.0 && -faceH / 2.0 < w.1 < faceH / 2.0
    {
      var j :| 0 <= j < |cells| && w == Centre(faceW, faceH, cells[j]);
    }
  }

  /** Exactly the cells whose draw is at most 0.45 light a window: the window count is the
      number of cells less the dark ones, and no window is lit when every draw exceeds 0.45. */
  lemma WindowCount(faceW: real, faceH: real, d: Stream, k: nat)
    ensures |Windows(faceW, faceH, d, k)| + Skipped(d, k, GridCells(faceW, faceH), Lit)
            == GridCells(faceW, faceH)
    ensures (forall i: nat :: i < GridCells(faceW, faceH) ==> !Passes(d, k, Lit, i)) ==>
              Windows(faceW, faceH, d, k) == []
  {
    var n := GridCells(faceW, faceH);
    KeptCount(d, k, n, Lit);
    LightsAreCentres(faceW, faceH, d, k, n);
    if forall i: nat :: i < n ==> !Passes(d, k, Lit, i) {
      AllSkipped(d, k, n, Lit);
    }
  }

  /** Cell (c, r) of the grid lights a window exactly when its draw, the (c * rows + r)-th,
      is at most 0.45; the window sits at that cell's centre. */
  lemma WindowAtCell(faceW: real, faceH: real, d: Stream, k: nat, c: nat, r: nat)
    requires c < Cols(faceW) && r < Rows(faceH)
    ensures c * Rows(faceH) + r < GridCells(faceW, faceH)
    ensures (c * Rows(faceH) + r) in Kept(d, k, GridCells(faceW, faceH), Lit)
            <==> d(k + c * Rows(faceH) + r) <= 0.45
    ensures Centre(faceW, faceH, c * Rows(faceH) + r) == Point(faceW, faceH, c, r)
  {
    CentreAt(faceW, faceH, c, r);
    KeptMember(d, k, GridCells(faceW, faceH), Lit, c * Rows(faceH) + r);
  }
}

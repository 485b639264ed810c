/**
 * Shared random helpers and city grid constants (src/utils.js).
 *
 * `Math.random` is replaced by an injected, unbounded stream of draws: the
 * i-th call returns `d(i)`. Every generator takes the index of its first
 * draw and reports the index of the first draw it left unused, so the order
 * in which the code consumes randomness is part of the model.
 */
module Utils {

  /** The draws `Math.random` would return, in call order. */
  type Stream = nat -> real

  /** A value `Math.random` can return. */
  predicate IsDraw(u: real) {
    0.0 <= u < 1.0
  }

  /** Every draw of the stream lies in [0, 1). */
  ghost predicate Uniform(d: Stream) {
    forall i: nat :: IsDraw(d(i))
  }

  /** A sampled value together with the index of the next unused draw. */
  datatype Drawn<T> = Drawn(value: T, next: nat)

  // ---------------------------------------------------------------------
  // rand, randI, pick
  // ---------------------------------------------------------------------

  /** A draw times a width, as in `Math.random() * w`. */
  function Scaled(u: real, w: real): real {
    u * w
  }

  /** A scaled draw lies between 0 and the width, strictly short of the width when the
      width is not 0. */
  lemma ScaleBounds(u: real, w: real)
    requires IsDraw(u)
    ensures 0.0 <= w ==> 0.0 <= Scaled(u, w) <= w
    ensures w <= 0.0 ==> w <= Scaled(u, w) <= 0.0
    ensures 0.0 < w ==> Scaled(u, w) < w
    ensures w < 0.0 ==> w < Scaled(u, w)
  {
    if 0.0 <= w {
      ScaleNonNegative(u, w);
    } else {
      ScaleNegative(u, w);
    }
  }

  lemma ScaleNonNegative(u: real, w: real)
    requires IsDraw(u) && 0.0 <= w
    ensures 0.0 <= Scaled(u, w) <= w
    ensures 0.0 < w ==> Scaled(u, w) < w
  {
    ProductBounds(u, w);
  }

  lemma ScaleNegative(u: real, w: real)
    requires IsDraw(u) && w < 0.0
    ensures w < Scaled(u, w) <= 0.0
  {
    ScaleNonNegative(u, -w);
    ScaleFlip(u, w);
  }

  /** Scaling by a negated width negates the result. */
  lemma ScaleFlip(u: real, w: real)
    ensures Scaled(u, w) == -Scaled(u, -w)
  {
  }

  /** A draw times a non-negative width lies in [0, w], below w when w is positive. */
  lemma ProductBounds(u: real, w: real)
    requires IsDraw(u) && 0.0 <= w
    ensures 0.0 <= u * w <= w
    ensures 0.0 < w ==> u * w < w
  {
    assert w - u * w == (1.0 - u) * w;
  }

  /** The product of two non-negative reals is non-negative. */
  lemma MulNonNegative(x: real, y: real)
    requires 0.0 <= x && 0.0 <= y
    ensures 0.0 <= x * y
  {
  }

  /** The product of two positive reals is positive. */
  lemma MulPositive(x: real, y: real)
    requires 0.0 < x && 0.0 < y
    ensures 0.0 < x * y
  {
  }

  /** The draw that scales a positive width w to a target t of [0, w): t / w. */
  lemma DrawFor(t: real, w: real) returns (u: real)
    requires 0.0 <= t < w
    ensures IsDraw(u) && Scaled(u, w) == t
  {
    u := t / w;
    RatioIsDraw(t, w);
    RatioScales(t, w);
    assert Scaled(u, w) == u * w;
  }

  lemma RatioIsDraw(t: real, w: real)
    requires 0.0 <= t < w
    ensures 0.0 <= t / w < 1.0
  {
  }

  lemma RatioScales(t: real, w: real)
    requires 0.0 < w
    ensures (t / w) * w == t
  {
  }

  /** `rand(a, b)`: one draw scaled onto the half-open interval from a to b. */
  function Rand(a: real, b: real, u: real): (r: real)
    requires IsDraw(u)
    ensures a < b ==> a <= r < b
    ensures a == b ==> r == a
    ensures b < a ==> b < r <= a
  {
    ScaleBounds(u, b - a);
    a + Scaled(u, b - a)
  }

  /** `rand(a, b)` reaches every value of [a, b): the draw (t - a) / (b - a) yields t. */
  lemma RandOnto(a: real, b: real, t: real)
    requires a <= t < b
    ensures exists u :: IsDraw(u) && Rand(a, b, u) == t
  {
    var u := DrawFor(t - a, b - a);
    assert Rand(a, b, u) == t;
  }

  /** `randI(a, b)`: the floor of `rand(a, b + 1)`, an integer of [a, b] when a <= b. */
  function RandI(a: int, b: int, u: real): (r: int)
    requires IsDraw(u)
    ensures a <= b ==> a <= r <= b
  {
    Rand(a as real, (b + 1) as real, u).Floor
  }

  /** `randI(a, b)` reaches every integer of [a, b]. */
  lemma RandIOnto(a: int, b: int, k: int)
    requires a <= k <= b
    ensures exists u :: IsDraw(u) && RandI(a, b, u) == k
  {
    var u := DrawFor(k as real - a as real, (b + 1) as real - a as real);
    assert Rand(a as real, (b + 1) as real, u) == k as real;
    assert RandI(a, b, u) == k;
  }

  /** The index `pick` reads: `Math.floor(Math.random() * arr.length)`. */
  function PickIndex(n: nat, u: real): (i: int)
    requires IsDraw(u)
    ensures n > 0 ==> 0 <= i < n
    ensures n == 0 ==> i == 0
  {
    ScaleBounds(u, n as real);
    Scaled(u, n as real).Floor
  }

  /** `pick(arr)`: the element at a uniformly drawn index. */
  function Pick<T>(arr: seq<T>, u: real): (x: T)
    requires IsDraw(u)
    requires |arr| > 0
    ensures x in arr
  {
    arr[PickIndex(|arr|, u)]
  }

  /** Every index of a non-empty array can be picked: the draw j / n yields j. */
  lemma PickIndexOnto(n: nat, j: nat)
    requires j < n
    ensures exists u :: IsDraw(u) && PickIndex(n, u) == j
  {
    var u := DrawFor(j as real, n as real);
    assert PickIndex(n, u) == j;
  }

  // ---------------------------------------------------------------------
  // City constants
  // ---------------------------------------------------------------------

  /** Blocks per side of the square city grid. */
  const GRID_COUNT: nat := 11
  /** Side of one block's square lot. */
  const BLOCK_SIZE: real := 18.0
  /** Street width between neighbouring lots. */
  const GAP_SIZE: real := 5.0
  /** Distance between neighbouring block centres. */
  const CELL: real := BLOCK_SIZE + GAP_SIZE
  /** Shift that centres the grid on the origin. */
  const CITY_OFFSET: real := ((GRID_COUNT - 1) as real / 2.0) * CELL

  /** Neon tones for edges, roofs and beacons. */
  const EDGE_COLORS: seq<int> := [0x00ffe7, 0xff00cc, 0xff6600, 0x3399ff, 0xffee00, 0x00ff88]

  /** Dark tones for building bodies. */
  const BUILDING_COLORS: seq<int> := [0x0d1a2a, 0x111820, 0x0a1510, 0x1a1020, 0x0c0c18]

  /** The derived grid constants, and the palettes every `pick` draws from are non-empty. */
  lemma GridConstants()
    ensures CELL == 23.0 && CITY_OFFSET == 115.0
    ensures |EDGE_COLORS| == 6 && |BUILDING_COLORS| == 5
  {
  }
}

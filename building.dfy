/**
 * Attribute sampling of `Building`, the strip height of `NeonStrip` and the
 * scalar draws of `Antenna` (src/components/City.jsx). Every draw comes from
 * the stream in the order the code makes its `Math.random` calls.
 */
module Building {
  import opened Utils

  /** Window tints, the literal palette `Building` picks from. */
  const WINDOW_COLORS: seq<int> := [0x88ccff, 0xffdd88, 0x00ffe7, 0xff88cc, 0xaaffaa]

  /** One building of a block: the record the attribute sampler returns. */
  datatype Spec = Spec(
    bw: real, bd: real, bh: real,
    ox: real, oz: real,
    color: int, edgeColor: int, winColor: int,
    antCount: nat,
    hasNeon: bool, hasNeon2: bool, hasRoof: bool,
    roofColor: int)

  /** The bounds every sampled building keeps, for a block holding buildCount buildings. */
  predicate WellFormed(s: Spec, buildCount: nat) {
    && 5.4 <= s.bw < (if buildCount == 1 then 15.84 else 9.9)
    && 5.4 <= s.bd < (if buildCount == 1 then 15.84 else 9.9)
    && 4.0 <= s.bh < 80.0
    && (buildCount > 1 ==> -3.6 <= s.ox < 3.6 && -3.6 <= s.oz < 3.6)
    && (buildCount <= 1 ==> s.ox == 0.0 && s.oz == 0.0)
    && s.color in BUILDING_COLORS
    && s.edgeColor in EDGE_COLORS
    && s.winColor in WINDOW_COLORS
    && s.antCount <= 3
    && (s.hasNeon ==> s.bh > 15.0)
    && (s.hasNeon2 ==> s.bh > 30.0)
    && s.roofColor in EDGE_COLORS
  }

  /** `buildCount`: 1, or `randI(2, 3)` when the first draw exceeds 0.7. */
  function SampleBuildCount(d: Stream, k: nat): (r: Drawn<nat>)
    requires Uniform(d)
    ensures 1 <= r.value <= 3
    ensures r.value == 1 <==> d(k) <= 0.7
    ensures r.next == k + 1 || r.next == k + 2
  {
    if d(k) > 0.7 then Drawn(RandI(2, 3, d(k + 1)), k + 2) else Drawn(1, k + 1)
  }

  /** The number of draws one building's attributes take: 10 fixed, 2 more for the offsets
      of a multi-building block, one more for each neon test that `bh` lets run. */
  function SpecDraws(buildCount: nat, bh: real): nat {
    10 + (if buildCount > 1 then 2 else 0) + (if bh > 15.0 then 1 else 0) + (if bh > 30.0 then 1 else 0)
  }

  /** The body of the `Array.from` callback: one building's attributes. */
  function SampleSpec(d: Stream, k: nat, buildCount: nat): (r: Drawn<Spec>)
    requires Uniform(d)
    ensures WellFormed(r.value, buildCount)
    ensures r.next == k + SpecDraws(buildCount, r.value.bh)
    ensures r.value.hasRoof <==> d(r.next - 2) > 0.5
  {
    var hi := BLOCK_SIZE * (if buildCount == 1 then 0.88 else 0.55);
    var bw := Rand(BLOCK_SIZE * 0.3, hi, d(k));
    var bd := Rand(BLOCK_SIZE * 0.3, hi, d(k + 1));
    var bh := Rand(4.0, 80.0, d(k + 2));
    var ox := if buildCount > 1 then Rand(-BLOCK_SIZE * 0.2, BLOCK_SIZE * 0.2, d(k + 3)) else 0.0;
    var oz := if buildCount > 1 then Rand(-BLOCK_SIZE * 0.2, BLOCK_SIZE * 0.2, d(k + 4)) else 0.0;
    var i := if buildCount > 1 then k + 5 else k + 3;
    var color := Pick(BUILDING_COLORS, d(i));
    var edgeColor := Pick(EDGE_COLORS, d(i + 1));
    var winColor := Pick(WINDOW_COLORS, d(i + 2));
    var antCount := if d(i + 3) > 0.6 then RandI(1, 3, d(i + 4)) else if d(i + 4) > 0.5 then 1 else 0;
    var j := i + 5;
    var hasNeon := bh > 15.0 && d(j) > 0.35;
    var j2 := if bh > 15.0 then j + 1 else j;
    var hasNeon2 := bh > 30.0 && d(j2) > 0.5;
    var j3 := if bh > 30.0 then j2 + 1 else j2;
    var hasRoof := d(j3) > 0.5;
    var roofColor := Pick(EDGE_COLORS, d(j3 + 1));
    Drawn(Spec(bw, bd, bh, ox, oz, color, edgeColor, winColor, antCount,
               hasNeon, hasNeon2, hasRoof, roofColor),
          j3 + 2)
  }

  /** `Array.from({ length: n }, ...)`: n buildings sampled one after another. */
  function SampleSpecs(d: Stream, k: nat, buildCount: nat, n: nat): (r: Drawn<seq<Spec>>)
    requires Uniform(d)
    ensures |r.value| == n
    ensures forall s :: s in r.value ==> WellFormed(s, buildCount)
    ensures k + 10 * n <= r.next <= k + 14 * n
    decreases n
  {
    if n == 0 then Drawn([], k)
    else
      var first := SampleSpec(d, k, buildCount);
      var rest := SampleSpecs(d, first.next, buildCount, n - 1);
      Drawn([first.value] + rest.value, rest.next)
  }

  /** The buildings of one block: the count, then that many attribute records. */
  function SampleBlock(d: Stream, k: nat): (r: Drawn<seq<Spec>>)
    requires Uniform(d)
    ensures 1 <= |r.value| <= 3
    ensures forall s :: s in r.value ==> WellFormed(s, |r.value|)
    ensures k + 11 <= r.next <= k + 44
  {
    var count := SampleBuildCount(d, k);
    SampleSpecs(d, count.next, count.value, count.value)
  }

  /** A single-building block samples its one building with the wide bounds and no offset. */
  lemma SingleBuildingBlock(d: Stream, k: nat)
    requires Uniform(d)
    requires d(k) <= 0.7
    ensures |SampleBlock(d, k).value| == 1
    ensures SampleBlock(d, k).value[0] == SampleSpec(d, k + 1, 1).value
  {
  }

  /** Every building stays on its 18 x 18 lot: its footprint keeps within 8.55 of the block
      centre on both axes, short of BLOCK_SIZE / 2 = 9. */
  lemma WithinLot(s: Spec, buildCount: nat)
    requires WellFormed(s, buildCount)
    ensures -8.55 < s.ox - s.bw / 2.0 && s.ox + s.bw / 2.0 < 8.55
    ensures -8.55 < s.oz - s.bd / 2.0 && s.oz + s.bd / 2.0 < 8.55
    ensures 8.55 < BLOCK_SIZE / 2.0
  {
  }

  // ---------------------------------------------------------------------
  // Window faces
  // ---------------------------------------------------------------------

  /** One face that gets a window grid: its width and height. */
  datatype Face = Face(width: real, height: real)

  /** The four window faces, front, back, right, left, rendered only for buildings taller than 8. */
  function WindowFaces(s: Spec): (faces: seq<Face>)
    ensures |faces| == (if s.bh > 8.0 then 4 else 0)
    ensures forall f :: f in faces ==> f.height == s.bh && (f.width == s.bw || f.width == s.bd)
  {
    if s.bh > 8.0 then [Face(s.bw, s.bh), Face(s.bw, s.bh), Face(s.bd, s.bh), Face(s.bd, s.bh)]
    else []
  }

  /** Every emitted face of a sampled building has room for at least 3 x 3 windows. */
  lemma FacesHaveRoom(s: Spec, buildCount: nat, f: Face)
    requires WellFormed(s, buildCount)
    requires f in WindowFaces(s)
    ensures (f.width / 1.8).Floor >= 3 && (f.height / 2.2).Floor >= 3
  {
    assert f.width / 1.8 >= 3.0;
    assert f.height / 2.2 >= 3.0;
  }

  // ---------------------------------------------------------------------
  // Neon strips
  // ---------------------------------------------------------------------

  /** `NeonStrip`'s offset from the middle of a body of height bh: `bh * yFrac - bh / 2`. */
  function StripY(bh: real, yFrac: real): (y: real)
    requires 0.0 <= bh && IsDraw(yFrac)
    ensures -bh / 2.0 <= y <= bh / 2.0
    ensures 0.0 < bh ==> y < bh / 2.0
  {
    StripBounds(bh, yFrac);
    bh * yFrac - bh / 2.0
  }

  lemma StripBounds(bh: real, yFrac: real)
    requires 0.0 <= bh && IsDraw(yFrac)
    ensures 0.0 <= bh * yFrac <= bh
    ensures 0.0 < bh ==> bh * yFrac < bh
  {
    assert bh - bh * yFrac == bh * (1.0 - yFrac);
    MulNonNegative(bh, yFrac);
    MulNonNegative(bh, 1.0 - yFrac);
    if 0.0 < bh {
      MulPositive(bh, 1.0 - yFrac);
    }
  }

  /** Height above ground of the upper strip: the body's middle, plus the strip's offset
      for `yFrac = rand(0.6, 0.95)`. */
  function UpperStripHeight(bh: real, u: real): (h: real)
    requires 0.0 <= bh && IsDraw(u)
    ensures 0.6 * bh <= h <= 0.95 * bh
  {
    var yFrac := Rand(0.6, 0.95, u);
    MulNonNegative(yFrac - 0.6, bh);
    MulNonNegative(0.95 - yFrac, bh);
    bh / 2.0 + StripY(bh, yFrac)
  }

  /** Height above ground of the lower strip: a body of height `bh * 0.2` centred in its group
      at `bh * 0.1`, with `yFrac = 0.5`. */
  function LowerStripHeight(bh: real): (h: real)
    requires 0.0 <= bh
    ensures h == 0.1 * bh
  {
    bh * 0.1 + StripY(bh * 0.2, 0.5)
  }

  /** On a building with both strips the upper one is well above the lower one. */
  lemma StripsApart(s: Spec, buildCount: nat, u: real)
    requires WellFormed(s, buildCount) && s.hasNeon && s.hasNeon2 && IsDraw(u)
    ensures UpperStripHeight(s.bh, u) - LowerStripHeight(s.bh) >= 15.0
  {
  }

  // ---------------------------------------------------------------------
  // Antennas
  // ---------------------------------------------------------------------

  /** The scalars an `Antenna` draws once: beacon phase (as a fraction of a full turn of
      2 pi), pulse speed, beacon colour, mast height and radius, and whether it has a beacon. */
  datatype Antenna = Antenna(phaseTurns: real, speed: real, color: int,
                             height: real, radius: real, hasBeacon: bool)

  /** The six `useMemo` draws of `Antenna`, in source order. */
  function SampleAntenna(d: Stream, k: nat): (r: Drawn<Antenna>)
    requires Uniform(d)
    ensures 0.0 <= r.value.phaseTurns < 1.0
    ensures 0.8 <= r.value.speed < 2.5
    ensures r.value.color in EDGE_COLORS
    ensures 3.0 <= r.value.height < 10.0
    ensures 0.04 <= r.value.radius < 0.12
    ensures r.value.hasBeacon <==> d(k + 5) > 0.4
    ensures r.next == k + 6
  {
    Drawn(Antenna(d(k), Rand(0.8, 2.5, d(k + 1)), Pick(EDGE_COLORS, d(k + 2)),
                  Rand(3.0, 10.0, d(k + 3)), Rand(0.04, 0.12, d(k + 4)), d(k + 5) > 0.4),
          k + 6)
  }

  /** Where an antenna stands on the roof: `rand(-bw * 0.35, bw * 0.35)` across and
      `rand(-bd * 0.35, bd * 0.35)` deep, always strictly inside the roof. */
  function AntennaSpot(s: Spec, u: real, v: real): (p: (real, real))
    requires IsDraw(u) && IsDraw(v)
    requires s.bw > 0.0 && s.bd > 0.0
    ensures -s.bw / 2.0 < p.0 < s.bw / 2.0
    ensures -s.bd / 2.0 < p.1 < s.bd / 2.0
  {
    (Rand(-s.bw * 0.35, s.bw * 0.35, u), Rand(-s.bd * 0.35, s.bd * 0.35, v))
  }
}

/**
 * The rising particle cloud of `Particles` (src/components/Particles.jsx):
 * 800 points with a position buffer (x, y, z per point), a colour buffer
 * (r, g, b per point) and one upward speed per point. Each frame lifts every
 * point by 0.4 of its speed and drops it back to the ground once it passes 80.
 *
 * The placement on the ring, `cos(a) * r` and `sin(a) * r` for the angle
 * a = 2 * pi * u of a draw u and the radius r, is injected as `polar`, which
 * maps (u, r) to (x, z).
 */
module Particles {
  import opened Utils

  /** Number of particles. */
  const COUNT: nat := 800

  /** The four particle tints (r, g, b). */
  const P_COLORS: seq<(real, real, real)> :=
    [(0.0, 1.0, 0.9), (1.0, 0.0, 0.8), (0.2, 0.6, 1.0), (1.0, 0.4, 0.0)]

  /** Height above which a particle wraps back to the ground. */
  const CEILING: real := 80.0

  /** Everything the initial loop samples for one particle. */
  datatype Sample = Sample(x: real, y: real, z: real, v: real, color: (real, real, real))

  /** The five draws of particle number i, starting at draw k: radius, angle, height,
      speed, tint. The radius is drawn in [10, 90); the point starts at a height in
      [0, 70), with a speed in [0.02, 0.09) and one of the four tints. */
  function SampleAt(d: Stream, k: nat, polar: (real, real) -> (real, real)): (s: Sample)
    requires forall j: nat :: k <= j < k + 5 ==> IsDraw(d(j))
    ensures 0.0 <= s.y < 70.0
    ensures 0.02 <= s.v < 0.09
    ensures s.color in P_COLORS
  {
    var r := Rand(10.0, 90.0, d(k));
    var p := polar(d(k + 1), r);
    Sample(p.0, Rand(0.0, 70.0, d(k + 2)), p.1, Rand(0.02, 0.09, d(k + 3)), Pick(P_COLORS, d(k + 4)))
  }

  /** One frame for one height: rise by 0.4 of the speed, and restart at 0 above 80. */
  function Lift(y: real, v: real): (y': real)
    ensures y' == y + v * 0.4 <==> y + v * 0.4 <= CEILING
    ensures y' != y + v * 0.4 ==> y' == 0.0
    ensures 0.0 <= y <= CEILING && 0.0 <= v ==> 0.0 <= y' <= CEILING
  {
    var y1 := y + v * 0.4;
    if y1 > CEILING then 0.0 else y1
  }

  /** The y slots of a position buffer. */
  predicate IsY(j: int) {
    j % 3 == 1
  }

  /** One frame over a whole position buffer p with speeds v: the y slot of particle
      i is lifted by v[i], the x and z slots are left alone. */
  function Drift(p: seq<real>, v: seq<real>): (q: seq<real>)
    requires |p| == 3 * |v|
    ensures |q| == |p|
  {
    seq(|p|, j requires 0 <= j < |p| => if IsY(j) then Lift(p[j], v[j / 3]) else p[j])
  }

  /** n frames. */
  function DriftN(p: seq<real>, v: seq<real>, n: nat): (q: seq<real>)
    requires |p| == 3 * |v|
    ensures |q| == |p|
  {
    if n == 0 then p else Drift(DriftN(p, v, n - 1), v)
  }

  /** Every height of a buffer lies in [0, 80]. */
  predicate HeightsInRange(p: seq<real>) {
    forall j :: 0 <= j < |p| && IsY(j) ==> 0.0 <= p[j] <= CEILING
  }

  /** Every speed is non-negative. */
  predicate Rising(v: seq<real>) {
    forall i :: 0 <= i < |v| ==> 0.0 <= v[i]
  }

  /** A frame keeps every height in [0, 80] and changes no x or z slot. */
  lemma DriftKeepsRange(p: seq<real>, v: seq<real>)
    requires |p| == 3 * |v|
    requires HeightsInRange(p) && Rising(v)
    ensures HeightsInRange(Drift(p, v))
    ensures forall j :: 0 <= j < |p| && !IsY(j) ==> Drift(p, v)[j] == p[j]
  {
    forall j | 0 <= j < |p| && IsY(j)
      ensures 0.0 <= Drift(p, v)[j] <= CEILING
    {
      assert j / 3 < |v|;
    }
  }

  /** Any number of frames keeps every height in [0, 80] and the x and z slots as they were. */
  lemma {:induction false} DriftNKeepsRange(p: seq<real>, v: seq<real>, n: nat)
    requires |p| == 3 * |v|
    requires HeightsInRange(p) && Rising(v)
    ensures HeightsInRange(DriftN(p, v, n))
    ensures forall j :: 0 <= j < |p| && !IsY(j) ==> DriftN(p, v, n)[j] == p[j]
  {
    if n > 0 {
      DriftNKeepsRange(p, v, n - 1);
      DriftKeepsRange(DriftN(p, v, n - 1), v);
    }
  }

  /** n strides of w are n - 1 strides and one more. */
  lemma OneMoreStride(n: nat, w: real)
    requires n > 0
    ensures n as real * w == (n - 1) as real * w + w
  {
  }

  /** n rises of w, one after another. */
  function Strides(n: nat, w: real): real {
    if n == 0 then 0.0 else Strides(n - 1, w) + w
  }

  /** n rises of w add up to n * w. */
  lemma {:induction false} StridesProduct(n: nat, w: real)
    ensures Strides(n, w) == n as real * w
  {
    if n > 0 {
      StridesProduct(n - 1, w);
      OneMoreStride(n, w);
    }
  }

  /** Until it would pass 80, frame after frame a particle rises by 0.4 of its speed. */
  lemma {:induction false} RiseBy(p: seq<real>, v: seq<real>, n: nat, j: nat)
    requires |p| == 3 * |v|
    requires j < |p| && IsY(j) && 0.0 <= v[j / 3]
    requires p[j] + Strides(n, v[j / 3] * 0.4) <= CEILING
    ensures DriftN(p, v, n)[j] == p[j] + Strides(n, v[j / 3] * 0.4)
  {
    if n > 0 {
      var w := v[j / 3] * 0.4;
      var q := DriftN(p, v, n - 1);
      RiseBy(p, v, n - 1, j);
      assert DriftN(p, v, n) == Drift(q, v);
    }
  }

  /** Until it would pass 80, a particle rises by exactly 0.4 of its speed per frame:
      after n frames it stands n * 0.4 * v higher. */
  lemma SteadyRise(p: seq<real>, v: seq<real>, n: nat, j: nat)
    requires |p| == 3 * |v|
    requires j < |p| && IsY(j) && 0.0 <= v[j / 3]
    requires p[j] + n as real * (v[j / 3] * 0.4) <= CEILING
    ensures DriftN(p, v, n)[j] == p[j] + n as real * (v[j / 3] * 0.4)
  {
    var w := v[j / 3] * 0.4;
    var rise := Strides(n, w);
    StridesProduct(n, w);
    assert rise == n as real * w;
    RiseBy(p, v, n, j);
    assert DriftN(p, v, n)[j] == p[j] + rise;
  }

  // ---------------------------------------------------------------------
  // The buffers the initial loop fills
  // ---------------------------------------------------------------------

  /** The first n particles, particle i drawn from d(k + 5 * i) .. d(k + 5 * i + 4). */
  function Samples(d: Stream, k: nat, polar: (real, real) -> (real, real), n: nat): (ss: seq<Sample>)
    requires Uniform(d)
    ensures |ss| == n
  {
    if n == 0 then [] else Samples(d, k, polar, n - 1) + [SampleAt(d, k + 5 * (n - 1), polar)]
  }

  /** Particle i of the first n is the one drawn from d(k + 5 * i) onwards. */
  lemma {:induction false} SamplesAt(d: Stream, k: nat, polar: (real, real) -> (real, real), n: nat)
    requires Uniform(d)
    ensures forall i :: 0 <= i < n ==> Samples(d, k, polar, n)[i] == SampleAt(d, k + 5 * i, polar)
  {
    if n > 0 {
      SamplesAt(d, k, polar, n - 1);
    }
  }

  /** A position buffer: x, y, z of each particle in turn. */
  function Coords(ss: seq<Sample>): (p: seq<real>)
    ensures |p| == 3 * |ss|
  {
    if ss == [] then []
    else Coords(ss[..|ss| - 1]) + [ss[|ss| - 1].x, ss[|ss| - 1].y, ss[|ss| - 1].z]
  }

  /** A colour buffer: r, g, b of each particle in turn. */
  function Tints(ss: seq<Sample>): (c: seq<real>)
    ensures |c| == 3 * |ss|
  {
    if ss == [] then []
    else Tints(ss[..|ss| - 1]) + [ss[|ss| - 1].color.0, ss[|ss| - 1].color.1, ss[|ss| - 1].color.2]
  }

  /** A velocity buffer: the speed of each particle in turn. */
  function Speeds(ss: seq<Sample>): (v: seq<real>)
    ensures |v| == |ss|
  {
    if ss == [] then [] else Speeds(ss[..|ss| - 1]) + [ss[|ss| - 1].v]
  }

  /** Appending a particle appends its coordinates, channels and speed. */
  lemma Snoc(ss: seq<Sample>, s: Sample)
    ensures Coords(ss + [s]) == Coords(ss) + [s.x, s.y, s.z]
    ensures Tints(ss + [s]) == Tints(ss) + [s.color.0, s.color.1, s.color.2]
    ensures Speeds(ss + [s]) == Speeds(ss) + [s.v]
  {
    assert (ss + [s])[..|ss|] == ss;
  }

  /** Slots 3i, 3i + 1, 3i + 2 of the position and colour buffers and slot i of the
      velocity buffer hold particle i. */
  lemma {:induction false} SlotsOf(ss: seq<Sample>, i: nat)
    requires i < |ss|
    ensures Coords(ss)[3 * i] == ss[i].x && Coords(ss)[3 * i + 1] == ss[i].y
    ensures Coords(ss)[3 * i + 2] == ss[i].z
    ensures (Tints(ss)[3 * i], Tints(ss)[3 * i + 1], Tints(ss)[3 * i + 2]) == ss[i].color
    ensures Speeds(ss)[i] == ss[i].v
  {
    var init := ss[..|ss| - 1];
    if i < |ss| - 1 {
      SlotsOf(init, i);
      assert init[i] == ss[i];
    }
  }

  /** What every sampled particle satisfies: a height in [0, 70), a speed in
      [0.02, 0.09) and a tint from the palette. */
  predicate WellSampled(s: Sample) {
    0.0 <= s.y < 70.0 && 0.02 <= s.v < 0.09 && s.color in P_COLORS
  }

  /** Every particle of the first n is well sampled. */
  lemma {:induction false} SamplesWell(d: Stream, k: nat, polar: (real, real) -> (real, real), n: nat)
    requires Uniform(d)
    ensures forall i :: 0 <= i < n ==> WellSampled(Samples(d, k, polar, n)[i])
  {
    if n > 0 {
      SamplesWell(d, k, polar, n - 1);
      var s := SampleAt(d, k + 5 * (n - 1), polar);
      assert WellSampled(s);
    }
  }

  /** The tint stored at slots 3i, 3i + 1, 3i + 2 of a colour buffer. */
  function TintAt(c: seq<real>, i: nat): (real, real, real)
    requires 3 * i + 2 < |c|
  {
    (c[3 * i], c[3 * i + 1], c[3 * i + 2])
  }

  /** Particle i as stored in a position, velocity and colour buffer. */
  function Particle(p: seq<real>, v: seq<real>, c: seq<real>, i: nat): Sample
    requires i < |v| && |p| == 3 * |v| && |c| == 3 * |v|
  {
    Sample(p[3 * i], p[3 * i + 1], p[3 * i + 2], v[i], TintAt(c, i))
  }

  /** Buffers for all particles, with every height in [0, 80], every speed in
      [0.02, 0.09) and every tint from the palette. */
  predicate Stocked(p: seq<real>, v: seq<real>, c: seq<real>) {
    && |p| == 3 * COUNT && |c| == 3 * COUNT && |v| == COUNT
    && HeightsInRange(p)
    && (forall i :: 0 <= i < |v| ==> 0.02 <= v[i] < 0.09)
    && (forall i: nat :: i < COUNT ==> TintAt(c, i) in P_COLORS)
  }

  /** The buffers of the sampled particles: particle i of them is the one drawn from
      d(k + 5 * i) onwards, and together they are stocked. */
  lemma SampledBuffers(d: Stream, k: nat, polar: (real, real) -> (real, real))
    requires Uniform(d)
    ensures var ss := Samples(d, k, polar, COUNT);
      && Stocked(Coords(ss), Speeds(ss), Tints(ss))
      && forall i :: 0 <= i < COUNT ==>
           Particle(Coords(ss), Speeds(ss), Tints(ss), i) == SampleAt(d, k + 5 * i, polar)
  {
    var ss := Samples(d, k, polar, COUNT);
    SamplesWell(d, k, polar, COUNT);
    SamplesAt(d, k, polar, COUNT);
    forall j | 0 <= j < 3 * COUNT && IsY(j)
      ensures 0.0 <= Coords(ss)[j] < 70.0
    {
      var i := j / 3;
      assert j == 3 * i + 1;
      SlotsOf(ss, i);
      assert WellSampled(ss[i]);
    }
    forall i | 0 <= i < COUNT
      ensures Particle(Coords(ss), Speeds(ss), Tints(ss), i) == ss[i]
    {
      SlotsOf(ss, i);
    }
    forall i | 0 <= i < COUNT
      ensures 0.02 <= Speeds(ss)[i] < 0.09
      ensures TintAt(Tints(ss), i) in P_COLORS
    {
      SlotsOf(ss, i);
      assert WellSampled(ss[i]);
    }
  }

  /** Writes a triple into slots j, j + 1, j + 2 of a buffer, after the first j slots. */
  method SetTriple(a: array<real>, j: nat, t: (real, real, real))
    requires j + 3 <= a.Length
    modifies a
    ensures a[..j + 3] == old(a[..j]) + [t.0, t.1, t.2]
    ensures a[j + 3..] == old(a[j + 3..])
  {
    a[j] := t.0;
    a[j + 1] := t.1;
    a[j + 2] := t.2;
  }

  /** The particle buffers: positions and colours hold three numbers per particle,
      velocities one. */
  class ParticleField {
    const positions: array<real>
    const colors: array<real>
    const velocities: array<real>

    /** Particle i as stored in the buffers. */
    function At(i: nat): Sample
      requires i < COUNT
      requires positions.Length == 3 * COUNT && colors.Length == 3 * COUNT
      requires velocities.Length == COUNT
      reads positions, colors, velocities
    {
      Particle(positions[..], velocities[..], colors[..], i)
    }

    /** Three separate buffers, stocked for all particles. */
    predicate Valid()
      reads this, positions, colors, velocities
    {
      && positions != colors && positions != velocities && colors != velocities
      && Stocked(positions[..], velocities[..], colors[..])
    }

    /** The initial loop: particle i spends draws k + 5 * i .. k + 5 * i + 4, in the order
        radius, angle, height, speed, tint. */
    constructor (d: Stream, k: nat, polar: (real, real) -> (real, real))
      requires Uniform(d)
      ensures Valid()
      ensures fresh(positions) && fresh(colors) && fresh(velocities)
      ensures positions[..] == Coords(Samples(d, k, polar, COUNT))
      ensures velocities[..] == Speeds(Samples(d, k, polar, COUNT))
      ensures colors[..] == Tints(Samples(d, k, polar, COUNT))
      ensures forall i :: 0 <= i < COUNT ==> At(i) == SampleAt(d, k + 5 * i, polar)
    {
      positions := new real[COUNT * 3];
      colors := new real[COUNT * 3];
      velocities := new real[COUNT];
      new;
      // the particles placed so far
      ghost var placed: seq<Sample> := [];
      for i := 0 to COUNT
        invariant placed == Samples(d, k, polar, i)
        invariant Filled(placed)
      {
        placed := PlaceParticle(d, k, polar, i, placed);
      }
      assert positions[..] == positions[..3 * COUNT];
      assert velocities[..] == velocities[..COUNT];
      assert colors[..] == colors[..3 * COUNT];
      SampledBuffers(d, k, polar);
    }

    /** The first |placed| particles are in the buffers. */
    predicate Filled(placed: seq<Sample>)
      requires positions.Length == 3 * COUNT && colors.Length == 3 * COUNT
      requires velocities.Length == COUNT && |placed| <= COUNT
      reads positions, colors, velocities
    {
      && positions[..3 * |placed|] == Coords(placed)
      && velocities[..|placed|] == Speeds(placed)
      && colors[..3 * |placed|] == Tints(placed)
    }

    /** The loop body for particle i: five draws from d(k + 5 * i) onwards, in the order
        radius, angle, height, speed, tint, written to slots 3i .. 3i + 2, i and 3i .. 3i + 2. */
    method PlaceParticle(d: Stream, k: nat, polar: (real, real) -> (real, real), i: nat,
                         ghost placed: seq<Sample>) returns (ghost placed': seq<Sample>)
      requires Uniform(d) && i < COUNT
      requires positions.Length == 3 * COUNT && colors.Length == 3 * COUNT
      requires velocities.Length == COUNT
      requires positions != colors && positions != velocities && colors != velocities
      requires placed == Samples(d, k, polar, i) && Filled(placed)
      modifies positions, colors, velocities
      ensures placed' == Samples(d, k, polar, i + 1) && Filled(placed')
      ensures positions[3 * i + 3..] == old(positions[3 * i + 3..])
      ensures velocities[i + 1..] == old(velocities[i + 1..])
      ensures colors[3 * i + 3..] == old(colors[3 * i + 3..])
    {
      var s := SampleAt(d, k + 5 * i, polar);
      Store(i, s);
      Snoc(placed, s);
      placed' := placed + [s];
    }

    /** The writes of one iteration: particle i goes to slots 3i .. 3i + 2 of the position
        and colour buffers and slot i of the velocity buffer; every other slot keeps its value. */
    method Store(i: nat, s: Sample)
      requires i < COUNT
      requires positions.Length == 3 * COUNT && colors.Length == 3 * COUNT
      requires velocities.Length == COUNT
      requires positions != colors && positions != velocities && colors != velocities
      modifies positions, colors, velocities
      ensures positions[..3 * i + 3] == old(positions[..3 * i]) + [s.x, s.y, s.z]
      ensures velocities[..i + 1] == old(velocities[..i]) + [s.v]
      ensures colors[..3 * i + 3] == old(colors[..3 * i]) + [s.color.0, s.color.1, s.color.2]
      ensures positions[3 * i + 3..] == old(positions[3 * i + 3..])
      ensures velocities[i + 1..] == old(velocities[i + 1..])
      ensures colors[3 * i + 3..] == old(colors[3 * i + 3..])
    {
      SetTriple(positions, i * 3, (s.x, s.y, s.z));
      velocities[i] := s.v;
      assert velocities[..i + 1] == old(velocities[..i]) + [s.v];
      SetTriple(colors, i * 3, s.color);
    }

    /** One frame: every height rises by 0.4 of its speed and wraps to 0 above 80;
        x, z, colours and speeds stay as they were. */
    method Step()
      requires Valid()
      modifies positions
      ensures Valid()
      ensures positions[..] == Drift(old(positions[..]), velocities[..])
      ensures unchanged(colors) && unchanged(velocities)
    {
      ghost var p := positions[..];
      for i := 0 to COUNT
        invariant forall j :: 0 <= j < positions.Length ==>
                    positions[j] == if j < 3 * i && IsY(j) then Lift(p[j], velocities[j / 3]) else p[j]
      {
        var y := positions[i * 3 + 1] + velocities[i] * 0.4;
        positions[i * 3 + 1] := if y > 80.0 then 0.0 else y;
      }
      assert positions[..] == Drift(p, velocities[..]);
      DriftKeepsRange(p, velocities[..]);
    }
  }
}

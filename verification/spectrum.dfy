/** The particle field: a lattice of rest-anchored particles that a spring
    pulls back towards rest positions lifted by the audio spectrum, that hand
    pointers attract or repel, and whose pointers' mean height drives the audio
    engine's expressive filter. Square roots and the direction of an impulse
    (cos and sin of atan2) are parameters; drawing is not modelled. */
module Spectrum {
  import opened Types
  import Audio

  /** A particle of the field: current position, rest position, velocity and
      its fixed random size and hue offset. */
  datatype Particle = Particle(
    x: real,
    y: real,
    baseX: real,
    baseY: real,
    vx: real,
    vy: real,
    size: real,
    hueOffset: real)

  /** A tracked fingertip in canvas pixels; id is the hand's position in the
      tracker's result list. */
  datatype Pointer = Pointer(x: real, y: real, id: nat)

  datatype PhysicsMode = Attract | Repel

  /** The user controls: velocity damping, force gain, video opacity, mode. */
  datatype Controls = Controls(damping: real, force: real, videoOpacity: real, mode: PhysicsMode)

  const DefaultControls: Controls := Controls(0.95, 1.0, 0.6, Attract)

  /** The analyser buffer holds 1024 frequency bins. */
  const SpectrumSize: nat := 1024

  /** A zeroed analyser buffer. */
  const Silence: seq<Byte> := seq(SpectrumSize, _ => 0 as Byte)

  /** The bass level is the mean of the lowest 20 bins. */
  const BassBins: nat := 20

  /** The restoring spring constant. */
  const Spring: real := 0.08

  // ---------------------------------------------------------------------------
  // The lattice.
  // ---------------------------------------------------------------------------

  /** Lattice columns: 50 on narrow canvases, 100 otherwise. */
  function LatticeCols(w: nat): nat
  {
    if w < 768 then 50 else 100
  }

  /** Lattice rows: 30 on narrow canvases, 60 otherwise. */
  function LatticeRows(w: nat): nat
  {
    if w < 768 then 30 else 60
  }

  /** The centre of slot i when an extent is split into n equal slots:
      i · spacing + spacing / 2 with spacing = extent / n. */
  function Centre(i: nat, n: nat, extent: real): real
    requires n > 0
  {
    var spacing := extent / n as real;
    i as real * spacing + spacing / 2.0
  }

  /** Slot centres lie strictly inside a positive extent. */
  lemma CentreInside(i: nat, n: nat, extent: real)
    requires i < n && extent > 0.0
    ensures 0.0 < Centre(i, n, extent) < extent
  {
    DivMul(extent, n as real);
    CentreBounds(i as real, n as real, extent / n as real, extent);
  }

  lemma DivMul(e: real, n: real)
    requires e > 0.0 && n > 0.0
    ensures e / n > 0.0 && n * (e / n) == e
  {
  }

  lemma CentreBounds(i: real, n: real, s: real, e: real)
    requires 0.0 <= i && i + 1.0 <= n && s > 0.0 && n * s == e
    ensures 0.0 < i * s + s / 2.0
    ensures i * s + s / 2.0 < e
  {
    ScaleLe(i + 1.0, n, s);
    ScaleLe(0.0, i, s);
  }

  lemma ScaleLe(a: real, b: real, s: real)
    requires a <= b && s > 0.0
    ensures a * s <= b * s
  {
  }

  /** The particle of lattice slot (i, j) on a w × h canvas, at rest on its
      slot centre; rnd(i, j) gives the two uniform draws that fix its size
      and hue offset. */
  function RestParticle(i: nat, j: nat, w: nat, h: nat, rnd: (nat, nat) -> (real, real)): Particle
  {
    var cx := Centre(i, LatticeCols(w), w as real);
    var cy := Centre(j, LatticeRows(w), h as real);
    var draws := rnd(i, j);
    Particle(cx, cy, cx, cy, 0.0, 0.0, draws.0 * 1.5 + 0.5, draws.1 * 60.0 - 30.0)
  }

  /** A particle at rest on its rest position, strictly inside the canvas. */
  predicate Settled(p: Particle, w: nat, h: nat)
  {
    && p.x == p.baseX && p.y == p.baseY
    && p.vx == 0.0 && p.vy == 0.0
    && 0.0 < p.baseX < w as real
    && 0.0 < p.baseY < h as real
  }

  lemma RestParticleSettled(i: nat, j: nat, w: nat, h: nat, rnd: (nat, nat) -> (real, real))
    requires i < LatticeCols(w) && j < LatticeRows(w) && w > 0 && h > 0
    ensures Settled(RestParticle(i, j, w, h, rnd), w, h)
  {
    CentreInside(i, LatticeCols(w), w as real);
    CentreInside(j, LatticeRows(w), h as real);
  }

  /** Uniform draws in [0, 1) give a size in [0.5, 2) and a hue offset in [−30, 30). */
  lemma RestParticleLooks(i: nat, j: nat, w: nat, h: nat, rnd: (nat, nat) -> (real, real))
    requires 0.0 <= rnd(i, j).0 < 1.0 && 0.0 <= rnd(i, j).1 < 1.0
    ensures 0.5 <= RestParticle(i, j, w, h, rnd).size < 2.0
    ensures -30.0 <= RestParticle(i, j, w, h, rnd).hueOffset < 30.0
  {
  }

  /** The first n particles of lattice column i, top to bottom. */
  function Column(i: nat, n: nat, w: nat, h: nat, rnd: (nat, nat) -> (real, real)): seq<Particle>
  {
    if n == 0 then [] else Column(i, n - 1, w, h, rnd) + [RestParticle(i, n - 1, w, h, rnd)]
  }

  /** The first m columns of the lattice, left to right. */
  function Lattice(m: nat, w: nat, h: nat, rnd: (nat, nat) -> (real, real)): seq<Particle>
  {
    if m == 0 then [] else Lattice(m - 1, w, h, rnd) + Column(m - 1, LatticeRows(w), w, h, rnd)
  }

  lemma {:induction false} ColumnAt(i: nat, n: nat, w: nat, h: nat, rnd: (nat, nat) -> (real, real), j: nat)
    requires j < n
    ensures |Column(i, n, w, h, rnd)| == n
    ensures Column(i, n, w, h, rnd)[j] == RestParticle(i, j, w, h, rnd)
  {
    if j < n - 1 {
      ColumnAt(i, n - 1, w, h, rnd, j);
    } else if n > 1 {
      ColumnAt(i, n - 1, w, h, rnd, 0);
    }
  }

  lemma {:induction false} LatticeSize(m: nat, w: nat, h: nat, rnd: (nat, nat) -> (real, real))
    ensures |Lattice(m, w, h, rnd)| == m * LatticeRows(w)
  {
    if m > 0 {
      var rows := LatticeRows(w);
      LatticeSize(m - 1, w, h, rnd);
      ColumnAt(m - 1, rows, w, h, rnd, 0);
      MulSucc(m - 1, rows);
    }
  }

  /** Particles are laid out column by column: slot (i, j) sits at position
      i · rows + j. */
  lemma {:induction false} LatticeAt(m: nat, w: nat, h: nat, rnd: (nat, nat) -> (real, real), i: nat, j: nat)
    requires i < m && j < LatticeRows(w)
    ensures i * LatticeRows(w) + j < |Lattice(m, w, h, rnd)|
    ensures Lattice(m, w, h, rnd)[i * LatticeRows(w) + j] == RestParticle(i, j, w, h, rnd)
  {
    var rows := LatticeRows(w);
    var front := Lattice(m - 1, w, h, rnd);
    var column := Column(m - 1, rows, w, h, rnd);
    LatticeSize(m - 1, w, h, rnd);
    ColumnAt(m - 1, rows, w, h, rnd, j);
    var k := i * rows + j;
    if i < m - 1 {
      LatticeAt(m - 1, w, h, rnd, i, j);
      assert (front + column)[k] == front[k];
    } else {
      assert k == |front| + j;
      assert (front + column)[k] == column[j];
    }
  }

  /** Every particle of ps is settled. */
  ghost predicate AllSettled(ps: seq<Particle>, w: nat, h: nat)
  {
    forall k :: 0 <= k < |ps| ==> Settled(ps[k], w, h)
  }

  lemma AllSettledConcat(a: seq<Particle>, b: seq<Particle>, w: nat, h: nat)
    requires AllSettled(a, w, h) && AllSettled(b, w, h)
    ensures AllSettled(a + b, w, h)
  {
    var ab := a + b;
    forall k | 0 <= k < |ab|
      ensures Settled(ab[k], w, h)
    {
      if k < |a| {
        assert ab[k] == a[k];
      } else {
        assert ab[k] == b[k - |a|];
      }
    }
  }

  lemma {:induction false} ColumnSettled(i: nat, n: nat, w: nat, h: nat, rnd: (nat, nat) -> (real, real))
    requires i < LatticeCols(w) && n <= LatticeRows(w) && w > 0 && h > 0
    ensures AllSettled(Column(i, n, w, h, rnd), w, h)
  {
    if n > 0 {
      ColumnSettled(i, n - 1, w, h, rnd);
      RestParticleSettled(i, n - 1, w, h, rnd);
      AllSettledConcat(Column(i, n - 1, w, h, rnd), [RestParticle(i, n - 1, w, h, rnd)], w, h);
    }
  }

  /** On a canvas of positive size every new particle is at rest on its rest
      position, strictly inside the canvas. */
  lemma {:induction false} LatticeSettled(m: nat, w: nat, h: nat, rnd: (nat, nat) -> (real, real))
    requires m <= LatticeCols(w) && w > 0 && h > 0
    ensures AllSettled(Lattice(m, w, h, rnd), w, h)
  {
    if m > 0 {
      LatticeSettled(m - 1, w, h, rnd);
      ColumnSettled(m - 1, LatticeRows(w), w, h, rnd);
      AllSettledConcat(Lattice(m - 1, w, h, rnd), Column(m - 1, LatticeRows(w), w, h, rnd), w, h);
    }
  }

  /** A full lattice holds 50 × 30 particles on narrow canvases and 100 × 60
      otherwise. */
  lemma LatticeCount(w: nat, h: nat, rnd: (nat, nat) -> (real, real))
    ensures |Lattice(LatticeCols(w), w, h, rnd)| == if w < 768 then 1500 else 6000
  {
    LatticeSize(LatticeCols(w), w, h, rnd);
  }

  /** The lattice a w × h canvas starts from: every earlier particle is
      discarded and the slots are filled column by column. */
  method InitParticles(w: nat, h: nat, rnd: (nat, nat) -> (real, real)) returns (ps: seq<Particle>)
    ensures ps == Lattice(LatticeCols(w), w, h, rnd)
  {
    ps := [];
    var cols, rows := LatticeCols(w), LatticeRows(w);
    var i := 0;
    while i < cols
      invariant 0 <= i <= cols
      invariant ps == Lattice(i, w, h, rnd)
    {
      var before := ps;
      var j := 0;
      while j < rows
        invariant 0 <= j <= rows
        invariant ps == before + Column(i, j, w, h, rnd)
      {
        ps := ps + [RestParticle(i, j, w, h, rnd)];
        j := j + 1;
      }
      i := i + 1;
    }
  }

  // ---------------------------------------------------------------------------
  // Audio-derived levels.
  // ---------------------------------------------------------------------------

  /** The sum of a run of bytes. */
  function Total(s: seq<Byte>): int
  {
    if |s| == 0 then 0 else Total(s[..|s| - 1]) + s[|s| - 1] as int
  }

  /** The bass level: the mean of the lowest bins, a value in [0, 255]. */
  method BassEnergy(data: seq<Byte>) returns (bass: real)
    requires |data| == SpectrumSize
    ensures bass == Total(data[..BassBins]) as real / BassBins as real
    ensures 0.0 <= bass <= 255.0
  {
    var sum := 0;
    var i := 0;
    while i < BassBins
      invariant 0 <= i <= BassBins
      invariant sum == Total(data[..i])
      invariant 0 <= sum <= 255 * i
    {
      assert data[..i + 1][..i] == data[..i];
      sum := sum + data[i] as int;
      i := i + 1;
    }
    assert data[..BassBins] == data[..i];
    bass := sum as real / BassBins as real;
  }

  /** The sum of the pointers' heights. */
  function SumY(ps: seq<Pointer>): real
  {
    if |ps| == 0 then 0.0 else SumY(ps[..|ps| - 1]) + ps[|ps| - 1].y
  }

  /** The mean height of a non-empty pointer list. */
  method MeanY(ps: seq<Pointer>) returns (avg: real)
    requires |ps| > 0
    ensures avg == SumY(ps) / |ps| as real
  {
    var sum := 0.0;
    var i := 0;
    while i < |ps|
      invariant 0 <= i <= |ps|
      invariant sum == SumY(ps[..i])
    {
      assert ps[..i + 1][..i] == ps[..i];
      sum := sum + ps[i].y;
      i := i + 1;
    }
    assert ps[..i] == ps;
    avg := sum / |ps| as real;
  }

  /** max(0, min(1, v)). */
  function Clamp01(v: real): (c: real)
    ensures 0.0 <= c <= 1.0
    ensures c == v <==> 0.0 <= v <= 1.0
  {
    if v > 1.0 then 1.0 else if v < 0.0 then 0.0 else v
  }

  /** The filter input for a mean pointer height avgY on a canvas of height h:
      1 − clamp(avgY / h, 0, 1). On a zero-height canvas the quotient is an
      infinity of avgY's sign, which the clamp turns into 1 or 0, or NaN
      (None here) when avgY is 0. */
  function FilterFromMean(avgY: real, h: nat): (r: Option<real>)
    ensures r.Some? ==> 0.0 <= r.value <= 1.0
    ensures r.None? <==> h == 0 && avgY == 0.0
  {
    if h > 0 then Some(1.0 - Clamp01(avgY / h as real))
    else if avgY > 0.0 then Some(0.0)
    else if avgY < 0.0 then Some(1.0)
    else None
  }

  /** A higher hand (smaller y) never closes the filter: the input falls as
      the mean height grows, is 1 at or above the top edge and 0 at or below
      the bottom edge. */
  lemma FilterMonotone(a1: real, a2: real, h: nat)
    requires h > 0 && a1 <= a2
    ensures FilterFromMean(a1, h).value >= FilterFromMean(a2, h).value
    ensures a1 <= 0.0 ==> FilterFromMean(a1, h).value == 1.0
    ensures a2 >= h as real ==> FilterFromMean(a2, h).value == 0.0
  {
    var hr := h as real;
    DivMonotone(a1, a2, hr);
    if a1 <= 0.0 {
      DivMonotone(a1, 0.0, hr);
    }
    if a2 >= hr {
      DivMonotone(hr, a2, hr);
    }
  }

  lemma DivMonotone(a: real, b: real, d: real)
    requires d > 0.0 && a <= b
    ensures a / d <= b / d
    ensures a == d ==> a / d == 1.0
    ensures b == 0.0 ==> b / d == 0.0
  {
  }

  /** The filter input of a frame: 0.8 without pointers, otherwise the input
      for the pointers' mean height. */
  function FilterInput(ps: seq<Pointer>, h: nat): (r: Option<real>)
    ensures |ps| == 0 ==> r == Some(0.8)
    ensures r.Some? ==> 0.0 <= r.value <= 1.0
    ensures r.None? <==> |ps| > 0 && h == 0 && SumY(ps) == 0.0
  {
    if |ps| == 0 then Some(0.8) else FilterFromMean(SumY(ps) / |ps| as real, h)
  }

  // ---------------------------------------------------------------------------
  // One particle's step.
  // ---------------------------------------------------------------------------

  /** The spectrum bin particle `index` of `count` reads:
      floor(index / count · 1024 · 0.4), always within [0, 409]. */
  function BinIndex(index: nat, count: nat): (k: int)
    requires index < count
    ensures 0 <= k <= 409
  {
    var ratio := index as real / count as real;
    assert ratio < 1.0;
    (ratio * SpectrumSize as real * 0.4).Floor
  }

  /** Later particles never read lower bins. */
  lemma BinMonotone(i1: nat, i2: nat, count: nat)
    requires i1 <= i2 < count
    ensures BinIndex(i1, count) <= BinIndex(i2, count)
  {
    var c := count as real;
    assert i1 as real / c <= i2 as real / c;
    assert (i1 as real / c) * SpectrumSize as real * 0.4 <= (i2 as real / c) * SpectrumSize as real * 0.4;
  }

  /** The largest lift: 10 px on narrow canvases, 30 px otherwise. */
  function Amplitude(w: nat): real
  {
    if w < 768 then 10.0 else 30.0
  }

  /** How far a bin level lifts a particle's rest position: level / 255 of the
      amplitude. */
  function Displacement(level: Byte, w: nat): (d: real)
    ensures 0.0 <= d <= Amplitude(w)
    ensures d == Amplitude(w) <==> level == 255
    ensures d == 0.0 <==> level == 0
  {
    level as real / 255.0 * Amplitude(w)
  }

  /** Squared distance from a particle to a pointer. */
  function DistSq(p: Particle, q: Pointer): real
  {
    (p.x - q.x) * (p.x - q.x) + (p.y - q.y) * (p.y - q.y)
  }

  /** The nearest of the first n pointers, scanning in order and replacing the
      candidate only on a strictly smaller squared distance. */
  function ClosestIn(ps: seq<Pointer>, p: Particle, n: nat): (c: Option<nat>)
    requires n <= |ps|
    ensures c.Some? <==> n > 0
    ensures c.Some? ==> c.value < n
  {
    if n == 0 then None
    else
      var c := ClosestIn(ps, p, n - 1);
      if c.None? || DistSq(p, ps[n - 1]) < DistSq(p, ps[c.value]) then Some(n - 1) else c
  }

  /** k is the first index among the first n pointers at minimum squared
      distance from p. */
  ghost predicate FirstNearest(ps: seq<Pointer>, p: Particle, n: nat, k: nat)
    requires n <= |ps|
  {
    && k < n
    && (forall j :: 0 <= j < n ==> DistSq(p, ps[k]) <= DistSq(p, ps[j]))
    && (forall j :: 0 <= j < k ==> DistSq(p, ps[k]) < DistSq(p, ps[j]))
  }

  /** The scan finds a nearest pointer, the first one on ties. */
  lemma {:induction false} ClosestMeaning(ps: seq<Pointer>, p: Particle, n: nat)
    requires 0 < n <= |ps|
    ensures FirstNearest(ps, p, n, ClosestIn(ps, p, n).value)
  {
    if n > 1 {
      ClosestMeaning(ps, p, n - 1);
    }
  }

  /** There is only one first nearest pointer. */
  lemma FirstNearestUnique(ps: seq<Pointer>, p: Particle, n: nat, k1: nat, k2: nat)
    requires n <= |ps| && FirstNearest(ps, p, n, k1) && FirstNearest(ps, p, n, k2)
    ensures k1 == k2
  {
    assert DistSq(p, ps[k1]) <= DistSq(p, ps[k2]) && DistSq(p, ps[k2]) <= DistSq(p, ps[k1]);
  }

  /** The pointer scan of one particle: the nearest pointer and its squared
      distance, or None when there are no pointers. */
  method Nearest(ps: seq<Pointer>, p: Particle) returns (c: Option<nat>, best: real)
    ensures c == ClosestIn(ps, p, |ps|)
    ensures c.Some? ==> best == DistSq(p, ps[c.value])
  {
    c, best := None, 0.0;
    var i := 0;
    while i < |ps|
      invariant 0 <= i <= |ps|
      invariant c == ClosestIn(ps, p, i)
      invariant c.Some? ==> best == DistSq(p, ps[c.value])
    {
      var d := DistSq(p, ps[i]);
      if c.None? || d < best {
        c, best := Some(i), d;
      }
      i := i + 1;
    }
  }

  /** The reach of a pointer: 200 px on narrow canvases, 300 px otherwise. */
  function Radius(w: nat): (r: real)
    ensures r > 0.0
  {
    if w < 768 then 200.0 else 300.0
  }

  /** The force factor at distance dist within a radius. */
  function Falloff(radius: real, dist: real): real
    requires radius > 0.0
  {
    (radius - dist) / radius
  }

  /** Inside the reach the force factor lies in (0, 1], and it is 1 exactly on
      the pointer. */
  lemma FalloffRange(radius: real, dSq: real, dist: real)
    requires radius > 0.0 && 0.0 <= dSq < radius * radius
    requires dist >= 0.0 && dist * dist == dSq
    ensures 0.0 < Falloff(radius, dist) <= 1.0
    ensures Falloff(radius, dist) == 1.0 <==> dSq == 0.0
  {
    assert dist < radius;
    if dist > 0.0 {
      assert dist * dist > 0.0;
    } else {
      assert dist == 0.0;
    }
  }

  /** The signed impulse gain: 20 × force, negative when attracting. */
  function Gain(c: Controls): real
  {
    20.0 * c.force * (if c.mode == Attract then -1.0 else 1.0)
  }

  /** The kick a particle gets from pointer q: its velocity gains
      heading · falloff · gain / 2, where `root` is the square root and
      `heading(dx, dy)` gives (cos, sin) of the angle of (dx, dy). */
  function Kick(p: Particle, q: Pointer, w: nat, c: Controls,
                root: real -> real, heading: (real, real) -> (real, real)): (r: Particle)
    ensures r.x == p.x && r.y == p.y && r.baseX == p.baseX && r.baseY == p.baseY
    ensures r.size == p.size && r.hueOffset == p.hueOffset
  {
    var force := Falloff(Radius(w), root(DistSq(p, q)));
    var dir := heading(p.x - q.x, p.y - q.y);
    p.(vx := p.vx + dir.0 * force * Gain(c) * 0.5,
       vy := p.vy + dir.1 * force * Gain(c) * 0.5)
  }

  /** The pointer impulse on a particle: the kick from the nearest pointer,
      given only when that pointer is strictly within reach. */
  function Impulse(p: Particle, ps: seq<Pointer>, w: nat, c: Controls,
                   root: real -> real, heading: (real, real) -> (real, real)): (r: Particle)
    ensures r.(vx := p.vx, vy := p.vy) == p
    ensures ps == [] ==> r == p
  {
    var k := ClosestIn(ps, p, |ps|);
    var radius := Radius(w);
    if k.Some? && DistSq(p, ps[k.value]) < radius * radius then Kick(p, ps[k.value], w, c, root, heading)
    else p
  }

  /** Without a pointer strictly within reach, the impulse changes nothing. */
  lemma ImpulseGate(p: Particle, ps: seq<Pointer>, w: nat, c: Controls,
                    root: real -> real, heading: (real, real) -> (real, real))
    requires forall j :: 0 <= j < |ps| ==> DistSq(p, ps[j]) >= Radius(w) * Radius(w)
    ensures Impulse(p, ps, w, c, root, heading) == p
  {
    if |ps| > 0 {
      ClosestMeaning(ps, p, |ps|);
    }
  }

  lemma SignedProduct(a: real, b: real)
    requires a > 0.0
    ensures b > 0.0 ==> b * a > 0.0
    ensures b < 0.0 ==> b * a < 0.0
  {
  }

  /** A positive force gives a negative gain when attracting and a positive
      one when repelling. */
  lemma GainSign(c: Controls)
    requires c.force > 0.0
    ensures c.mode == Attract ==> Gain(c) < 0.0
    ensures c.mode == Repel ==> Gain(c) > 0.0
  {
    var k := 20.0 * c.force;
    assert k > 0.0;
  }

  /** An impulse (a·s·f·g/2, b·s·f·g/2) along a positive multiple s of a
      non-zero offset (a, b), with a positive falloff f, has the sign of g
      along that offset. */
  lemma PushSign(a: real, b: real, n: real, da: real, db: real, s: real, f: real, g: real)
    requires s > 0.0 && f > 0.0 && n == a * a + b * b && n > 0.0
    requires da == a * s * f * g * 0.5 && db == b * s * f * g * 0.5
    ensures g < 0.0 ==> da * a + db * b < 0.0
    ensures g > 0.0 ==> da * a + db * b > 0.0
  {
    var k := s * f * 0.5;
    assert k > 0.0;
    assert da * a + db * b == (k * g) * n;
    SignedProduct(n, k * g);
    SignedProduct(k, g);
  }

  lemma KickDelta(p: Particle, q: Pointer, w: nat, c: Controls,
                  root: real -> real, heading: (real, real) -> (real, real), scale: real)
    requires heading(p.x - q.x, p.y - q.y) == ((p.x - q.x) * scale, (p.y - q.y) * scale)
    ensures var f := Falloff(Radius(w), root(DistSq(p, q)));
      var r := Kick(p, q, w, c, root, heading);
      && r.vx - p.vx == (p.x - q.x) * scale * f * Gain(c) * 0.5
      && r.vy - p.vy == (p.y - q.y) * scale * f * Gain(c) * 0.5
  {
  }

  /** A velocity change of offset · scale · falloff · gain / 2 with a positive
      scale, taken strictly within reach, has the sign of the gain along the
      offset from the pointer to the particle. */
  lemma DeltaPushSign(p: Particle, q: Pointer, w: nat, c: Controls,
                      root: real -> real, scale: real, dvx: real, dvy: real)
    requires c.force > 0.0 && scale > 0.0
    requires 0.0 < DistSq(p, q) < Radius(w) * Radius(w)
    requires root(DistSq(p, q)) >= 0.0 && root(DistSq(p, q)) * root(DistSq(p, q)) == DistSq(p, q)
    requires dvx == (p.x - q.x) * scale * Falloff(Radius(w), root(DistSq(p, q))) * Gain(c) * 0.5
    requires dvy == (p.y - q.y) * scale * Falloff(Radius(w), root(DistSq(p, q))) * Gain(c) * 0.5
    ensures c.mode == Attract ==> dvx * (p.x - q.x) + dvy * (p.y - q.y) < 0.0
    ensures c.mode == Repel ==> dvx * (p.x - q.x) + dvy * (p.y - q.y) > 0.0
  {
    var dist := root(DistSq(p, q));
    FalloffRange(Radius(w), DistSq(p, q), dist);
    GainSign(c);
    PushSign(p.x - q.x, p.y - q.y, DistSq(p, q), dvx, dvy, scale, Falloff(Radius(w), dist), Gain(c));
  }

  /** When the heading points from the pointer to the particle (a positive
      multiple of the offset), attraction kicks the velocity towards the
      pointer and repulsion away from it. */
  lemma KickDirection(p: Particle, q: Pointer, w: nat, c: Controls,
                      root: real -> real, heading: (real, real) -> (real, real), scale: real)
    requires c.force > 0.0 && scale > 0.0
    requires 0.0 < DistSq(p, q) < Radius(w) * Radius(w)
    requires root(DistSq(p, q)) >= 0.0 && root(DistSq(p, q)) * root(DistSq(p, q)) == DistSq(p, q)
    requires heading(p.x - q.x, p.y - q.y) == ((p.x - q.x) * scale, (p.y - q.y) * scale)
    ensures var r := Kick(p, q, w, c, root, heading);
      var push := (r.vx - p.vx) * (p.x - q.x) + (r.vy - p.vy) * (p.y - q.y);
      (c.mode == Attract ==> push < 0.0) && (c.mode == Repel ==> push > 0.0)
  {
    KickDelta(p, q, w, c, root, heading, scale);
    DeltaPushSign(p, q, w, c, root, scale,
                  Kick(p, q, w, c, root, heading).vx - p.vx, Kick(p, q, w, c, root, heading).vy - p.vy);
  }

  /** The spring step: the spring pulls the velocity towards the rest
      position lifted by the displacement, the velocity is damped, and the
      position moves by the new velocity. */
  function SpringStep(p: Particle, displacement: real, damping: real): (r: Particle)
    ensures r.baseX == p.baseX && r.baseY == p.baseY
    ensures r.size == p.size && r.hueOffset == p.hueOffset
    ensures r.x - p.x == r.vx && r.y - p.y == r.vy
  {
    var targetY := p.baseY - displacement;
    var vx := (p.vx + (p.baseX - p.x) * Spring) * damping;
    var vy := (p.vy + (targetY - p.y) * Spring) * damping;
    p.(x := p.x + vx, y := p.y + vy, vx := vx, vy := vy)
  }

  /** For a non-zero damping the spring step leaves a particle unchanged
      exactly when it rests at its lifted rest position. */
  lemma SpringFixedPoint(p: Particle, displacement: real, damping: real)
    requires damping != 0.0
    ensures SpringStep(p, displacement, damping) == p <==>
      p.vx == 0.0 && p.vy == 0.0 && p.x == p.baseX && p.y == p.baseY - displacement
  {
    var r := SpringStep(p, displacement, damping);
    if r == p {
      assert r.vx == 0.0 && r.vy == 0.0;
      var sx := p.vx + (p.baseX - p.x) * Spring;
      var sy := p.vy + (p.baseY - displacement - p.y) * Spring;
      assert sx * damping == 0.0 && sy * damping == 0.0;
      assert sx == 0.0 && sy == 0.0;
    }
  }

  /** From rest, with a damping in (0, 1], one step moves a particle towards
      its lifted rest position without overshooting it. */
  lemma SpringTowardsRest(p: Particle, displacement: real, damping: real)
    requires p.vx == 0.0 && p.vy == 0.0 && 0.0 < damping <= 1.0
    ensures var r := SpringStep(p, displacement, damping);
      && (p.x <= p.baseX ==> p.x <= r.x <= p.baseX)
      && (p.x >= p.baseX ==> p.baseX <= r.x <= p.x)
      && (p.y <= p.baseY - displacement ==> p.y <= r.y <= p.baseY - displacement)
      && (p.y >= p.baseY - displacement ==> p.baseY - displacement <= r.y <= p.y)
  {
    var k := Spring * damping;
    assert 0.0 < k < 1.0;
    var ox, oy := p.baseX - p.x, p.baseY - displacement - p.y;
    var r := SpringStep(p, displacement, damping);
    assert r.x == p.x + ox * k;
    assert r.y == p.y + oy * k;
    if ox >= 0.0 {
      assert 0.0 <= ox * k <= ox;
    } else {
      assert ox <= ox * k <= 0.0;
    }
    if oy >= 0.0 {
      assert 0.0 <= oy * k <= oy;
    } else {
      assert oy <= oy * k <= 0.0;
    }
  }

  /** Particle `index` of `count` after one frame: the pointer impulse, then
      the spring step towards its rest position lifted by its bin's level. */
  function StepParticle(p: Particle, index: nat, count: nat, data: seq<Byte>, w: nat, ps: seq<Pointer>,
                        c: Controls, root: real -> real, heading: (real, real) -> (real, real)): (r: Particle)
    requires index < count && |data| == SpectrumSize
    ensures r.baseX == p.baseX && r.baseY == p.baseY && r.size == p.size && r.hueOffset == p.hueOffset
    ensures r.x - p.x == r.vx && r.y - p.y == r.vy
  {
    var lift := Displacement(data[BinIndex(index, count)], w);
    SpringStep(Impulse(p, ps, w, c, root, heading), lift, c.damping)
  }

  /** With no pointers and a silent bin, a particle at rest on its rest
      position stays there: a settled lattice is a fixed point of a quiet frame. */
  lemma QuietFrameKeepsRest(p: Particle, index: nat, count: nat, data: seq<Byte>, w: nat,
                            c: Controls, root: real -> real, heading: (real, real) -> (real, real))
    requires index < count && |data| == SpectrumSize && data[BinIndex(index, count)] == 0
    requires p.vx == 0.0 && p.vy == 0.0 && p.x == p.baseX && p.y == p.baseY
    ensures StepParticle(p, index, count, data, w, [], c, root, heading) == p
  {
    assert Impulse(p, [], w, c, root, heading) == p;
  }

  /** With no pointers and a non-zero damping, a frame leaves a particle
      unchanged exactly when it rests, with zero velocity, at its rest position
      lifted by its bin's displacement. */
  lemma PointerlessFixedPoint(p: Particle, index: nat, count: nat, data: seq<Byte>, w: nat,
                              c: Controls, root: real -> real, heading: (real, real) -> (real, real))
    requires index < count && |data| == SpectrumSize && c.damping != 0.0
    ensures var lift := Displacement(data[BinIndex(index, count)], w);
      StepParticle(p, index, count, data, w, [], c, root, heading) == p <==>
      p.vx == 0.0 && p.vy == 0.0 && p.x == p.baseX && p.y == p.baseY - lift
  {
    assert Impulse(p, [], w, c, root, heading) == p;
    SpringFixedPoint(p, Displacement(data[BinIndex(index, count)], w), c.damping);
  }

  /** One particle's step as the frame loop performs it. */
  method StepOne(p: Particle, index: nat, count: nat, data: seq<Byte>, w: nat, ps: seq<Pointer>,
                 c: Controls, root: real -> real, heading: (real, real) -> (real, real))
    returns (r: Particle)
    requires index < count && |data| == SpectrumSize
    ensures r == StepParticle(p, index, count, data, w, ps, c, root, heading)
  {
    var lift := Displacement(data[BinIndex(index, count)], w);
    var v := p;
    if |ps| > 0 {
      var k, best := Nearest(ps, p);
      var radius := Radius(w);
      if k.Some? && best < radius * radius {
        v := Kick(p, ps[k.value], w, c, root, heading);
      }
    }
    assert v == Impulse(p, ps, w, c, root, heading);
    r := SpringStep(v, lift, c.damping);
  }

  /** The pointers a tracker result yields: the index fingertip of each hand
      in normalised coordinates, mirrored horizontally and scaled to the
      canvas, numbered in result order. */
  function ToPointers(tips: seq<Point>, w: nat, h: nat): (ps: seq<Pointer>)
    ensures |ps| == |tips|
  {
    if |tips| == 0 then []
    else
      var n := |tips| - 1;
      ToPointers(tips[..n], w, h) + [TipPointer(tips[n], w, h, n)]
  }

  /** The pointer of fingertip number id on a w × h canvas. */
  function TipPointer(tip: Point, w: nat, h: nat, id: nat): Pointer
  {
    Pointer((1.0 - tip.x) * w as real, tip.y * h as real, id)
  }

  /** Pointer k is fingertip k's pointer. */
  lemma {:induction false} ToPointersAt(tips: seq<Point>, w: nat, h: nat, k: nat)
    requires k < |tips|
    ensures ToPointers(tips, w, h)[k] == TipPointer(tips[k], w, h, k)
  {
    var n := |tips| - 1;
    if k < n {
      ToPointersAt(tips[..n], w, h, k);
      assert ToPointers(tips, w, h)[k] == ToPointers(tips[..n], w, h)[k];
    }
  }

  /** A fraction p = u·m of a non-negative extent m, with u in [0, 1], lies in [0, m]. */
  lemma UnitScale(u: real, m: real, p: real)
    requires 0.0 <= u <= 1.0 && m >= 0.0 && p == u * m
    ensures 0.0 <= p <= m
  {
  }

  /** A fingertip inside the camera frame gives a pointer inside the canvas,
      mirrored: the left edge of the camera image maps to the right edge. */
  lemma TipPointerInside(tip: Point, w: nat, h: nat, id: nat)
    requires 0.0 <= tip.x <= 1.0 && 0.0 <= tip.y <= 1.0
    ensures var q := TipPointer(tip, w, h, id);
      && q.id == id
      && 0.0 <= q.x <= w as real && 0.0 <= q.y <= h as real
      && q.x == w as real - tip.x * w as real
  {
    var q := TipPointer(tip, w, h, id);
    UnitScale(1.0 - tip.x, w as real, q.x);
    UnitScale(tip.y, h as real, q.y);
  }

  // ---------------------------------------------------------------------------
  // The chamber.
  // ---------------------------------------------------------------------------

  /** The field's state: the controls, the canvas size, the particles, the
      tracked pointers and the spectrum buffer read each frame. A change of
      controls restarts the animation effect, which rebuilds the lattice and
      a zeroed spectrum buffer; the pointer list outlives it. */
  class ParticleField {
    var controls: Controls
    var width: nat
    var height: nat
    var particles: seq<Particle>
    var pointers: seq<Pointer>
    var spectrum: seq<Byte>

    ghost predicate Valid()
      reads this
    {
      |spectrum| == SpectrumSize
    }

    /** A fresh field on a w × h canvas (a new canvas element is 300 × 150). */
    constructor (w: nat, h: nat, rnd: (nat, nat) -> (real, real))
      ensures Valid()
      ensures controls == DefaultControls && width == w && height == h
      ensures particles == Lattice(LatticeCols(w), w, h, rnd)
      ensures pointers == [] && spectrum == Silence
    {
      var ps := InitParticles(w, h, rnd);
      controls := DefaultControls;
      width, height := w, h;
      pointers := [];
      spectrum := Silence;
      particles := ps;
    }

    /** New controls: the effect restarts on the current canvas. */
    method SetControls(c: Controls, rnd: (nat, nat) -> (real, real))
      modifies this
      ensures Valid()
      ensures controls == c && width == old(width) && height == old(height)
      ensures particles == Lattice(LatticeCols(width), width, height, rnd)
      ensures pointers == old(pointers) && spectrum == Silence
    {
      controls := c;
      spectrum := Silence;
      particles := InitParticles(width, height, rnd);
    }

    /** A tracker result replaces the pointer list. */
    method OnResults(tips: seq<Point>)
      modifies this`pointers
      ensures pointers == ToPointers(tips, width, height)
    {
      var ps: seq<Pointer> := [];
      var i := 0;
      while i < |tips|
        invariant 0 <= i <= |tips|
        invariant ps == ToPointers(tips[..i], width, height)
      {
        assert tips[..i + 1][..i] == tips[..i] && tips[..i + 1][i] == tips[i];
        ps := ps + [TipPointer(tips[i], width, height, i)];
        i := i + 1;
      }
      assert tips[..i] == tips;
      pointers := ps;
    }

    /** One animation frame on a winW × winH window. A size change resizes
        the canvas and rebuilds the lattice. When the engine has an analyser,
        `reading` (its frequency bins) replaces the spectrum buffer. The
        filter input goes to the engine, every particle takes one step, and
        the bass level (which tints the hues) is returned. */
    method Frame(winW: nat, winH: nat, reading: seq<Byte>, engine: Audio.AudioEngine,
                 rnd: (nat, nat) -> (real, real), root: real -> real, heading: (real, real) -> (real, real))
      returns (bass: real)
      requires Valid() && engine.Valid() && |reading| == SpectrumSize
      requires !engine.ctx || FilterInput(pointers, winH).Some?
      modifies this`width, this`height, this`particles, this`spectrum, engine`filterSetting
      ensures Valid() && width == winW && height == winH
      ensures spectrum == if engine.analyser then reading else old(spectrum)
      ensures 0.0 <= bass <= 255.0 && bass == Total(spectrum[..BassBins]) as real / BassBins as real
      ensures var f := FilterInput(pointers, winH);
        && (engine.ctx && f.Some? ==> engine.filterSetting == Some(f.value))
        && (!engine.ctx || f.None? ==> engine.filterSetting == old(engine.filterSetting))
      ensures var start := if old(width) == winW && old(height) == winH then old(particles)
                           else Lattice(LatticeCols(winW), winW, winH, rnd);
        && |particles| == |start|
        && forall k :: 0 <= k < |start| ==>
             particles[k] == StepParticle(start[k], k, |start|, spectrum, winW, pointers, controls, root, heading)
    {
      if width != winW || height != winH {
        width, height := winW, winH;
        particles := InitParticles(winW, winH, rnd);
      }
      if engine.analyser {
        spectrum := reading;
      }
      bass := BassEnergy(spectrum);
      FeedFilter(pointers, winH, engine);
      var start := particles;
      var next := StepAll(start, spectrum, winW, pointers, controls, root, heading);
      particles := next;
    }
  }

  /** The frame's filter update: the mean pointer height sets the engine's
      expressive filter, 0.8 without pointers. Handing NaN to a live filter
      throws, so a live engine needs a numeric input. */
  method FeedFilter(ps: seq<Pointer>, h: nat, engine: Audio.AudioEngine)
    requires engine.Valid()
    requires !engine.ctx || FilterInput(ps, h).Some?
    modifies engine`filterSetting
    ensures var f := FilterInput(ps, h);
      && (engine.ctx && f.Some? ==> engine.filterSetting == Some(f.value))
      && (!engine.ctx || f.None? ==> engine.filterSetting == old(engine.filterSetting))
  {
    if |ps| > 0 {
      var avg := MeanY(ps);
      var level := FilterFromMean(avg, h);
      if level.Some? {
        engine.SetExpressiveFilter(level.value);
      }
    } else {
      engine.SetExpressiveFilter(0.8);
    }
  }

  /** Every particle's step, in list order; each reads its own bin and the
      same pointers, so the order of the updates does not matter. */
  method StepAll(start: seq<Particle>, data: seq<Byte>, w: nat, ps: seq<Pointer>, c: Controls,
                 root: real -> real, heading: (real, real) -> (real, real))
    returns (next: seq<Particle>)
    requires |data| == SpectrumSize
    ensures |next| == |start|
    ensures forall k :: 0 <= k < |start| ==> next[k] == StepParticle(start[k], k, |start|, data, w, ps, c, root, heading)
  {
    next := start;
    var i := 0;
    while i < |start|
      invariant 0 <= i <= |start| && |next| == |start|
      invariant forall k :: 0 <= k < i ==> next[k] == StepParticle(start[k], k, |start|, data, w, ps, c, root, heading)
    {
      var r := StepOne(start[i], i, |start|, data, w, ps, c, root, heading);
      next := next[i := r];
      i := i + 1;
    }
  }
}

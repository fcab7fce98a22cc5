/** The ink chamber: pointers tracked by id in an insertion-ordered map, the
    "harp" that quantises a pointer's height into one of ten lanes and plays a
    tone whenever a pointer changes lane, and the particle buffer that is
    appended to, aged, spliced and capped every frame. */
module Ink {
  import opened Types

  /** Ratios of the ten harp lanes, bottom lane first. */
  const Intervals: seq<real> := [1.0, 1.125, 1.25, 1.5, 1.66, 2.0, 2.25, 2.5, 3.0, 3.33]

  /** Number of lanes the canvas height is divided into. */
  const LaneCount: int := 10

  /** Root frequency of the harp. */
  const HarpRoot: real := 130.81

  /** Longest trail a particle keeps. */
  const TrailLength: int := 8

  /** Most particles kept after a frame. */
  const ParticleCap: int := 1500

  // ---------------------------------------------------------------------------
  // Lanes and tones.
  // ---------------------------------------------------------------------------

  /** floor((height − y) / (height / 10)): the lane a canvas height y falls in
      before clamping, counted from the bottom edge. */
  function RawLane(height: real, y: real): int
    requires height > 0.0
  {
    ((height - y) / (height / 10.0)).Floor
  }

  /** The clamped lane of a pointer at canvas height y. */
  function Lane(height: real, y: real): (k: int)
    requires height > 0.0
    ensures 0 <= k < LaneCount
    ensures 0 <= RawLane(height, y) < LaneCount ==> k == RawLane(height, y)
  {
    var raw := RawLane(height, y);
    if raw > LaneCount - 1 then LaneCount - 1 else if raw < 0 then 0 else raw
  }

  lemma DivideByPositive(a: real, b: real, c: real)
    requires a <= b && c > 0.0
    ensures a / c <= b / c
  {
  }

  lemma MultiplyByPositive(x: real, y: real, n: real)
    requires x <= y && n > 0.0
    ensures x * n <= y * n
  {
  }

  /** A quotient by a positive divisor lies between the bounds its dividend does, scaled. */
  lemma QuotientBetween(a: real, n: real, c: real)
    requires n > 0.0 && c * n <= a < (c + 1.0) * n
    ensures c <= a / n < c + 1.0
  {
    var q := a / n;
    assert q * n == a;
    if q >= c + 1.0 {
      MultiplyByPositive(c + 1.0, q, n);
    }
    if q < c {
      MultiplyByPositive(q, c, n);
    }
  }

  /** A pointer lower on the canvas is never in a higher lane. */
  lemma LaneMonotone(height: real, y1: real, y2: real)
    requires height > 0.0 && y1 <= y2
    ensures RawLane(height, y2) <= RawLane(height, y1)
    ensures Lane(height, y2) <= Lane(height, y1)
  {
    DivideByPositive(height - y2, height - y1, height / 10.0);
  }

  /** Lane k is the horizontal band of canvas heights in
      (height − (k+1)·height/10, height − k·height/10]. */
  lemma LaneBand(height: real, y: real, k: int)
    requires height > 0.0 && 0 <= k < LaneCount
    requires height - (k + 1) as real * (height / 10.0) < y <= height - k as real * (height / 10.0)
    ensures Lane(height, y) == k
  {
    QuotientBetween(height - y, height / 10.0, k as real);
  }

  /** The tone of a lane: the harp root times the lane's ratio. */
  function ToneFrequency(lane: int): (f: real)
    requires 0 <= lane < LaneCount
    ensures HarpRoot <= f < 4.0 * HarpRoot
  {
    HarpRoot * Intervals[lane]
  }

  /** A higher lane always sounds a higher tone. */
  lemma ToneFrequencyIncreasing(i: int, j: int)
    requires 0 <= i < j < LaneCount
    ensures ToneFrequency(i) < ToneFrequency(j)
  {
    assert forall a, b :: 0 <= a < b < LaneCount ==> Intervals[a] < Intervals[b];
  }

  /** The hue a pointer's lane paints with. */
  function Hue(lane: int): (hue: real)
    requires 0 <= lane < LaneCount
    ensures 0.0 <= hue <= 252.0
  {
    (lane as real / LaneCount as real) * 280.0
  }

  // ---------------------------------------------------------------------------
  // The pointer map: a JavaScript Map, which keeps keys in insertion order.
  // ---------------------------------------------------------------------------

  /** A tracked pointer: canvas position, velocity since the last sample, and
      the lane it was last heard in. */
  datatype Pointer = Pointer(x: real, y: real, vx: real, vy: real, lastNoteIndex: int)

  datatype Entry = Entry(id: int, ptr: Pointer)

  predicate DistinctIds(m: seq<Entry>)
  {
    forall i, j :: 0 <= i < j < |m| ==> m[i].id != m[j].id
  }

  /** The position of key `id`, or -1 when it is absent. */
  function Find(m: seq<Entry>, id: int): (k: int)
    ensures -1 <= k < |m|
    ensures k >= 0 ==> m[k].id == id
    decreases |m|
  {
    if m == [] then -1
    else if m[0].id == id then 0
    else
      var k := Find(m[1..], id);
      if k == -1 then -1 else k + 1
  }

  /** The search fails exactly when no entry carries the key, and otherwise
      stops at the first entry that does. */
  lemma {:induction false} FindMeaning(m: seq<Entry>, id: int)
    ensures Find(m, id) == -1 <==> forall i :: 0 <= i < |m| ==> m[i].id != id
    ensures forall i :: 0 <= i < Find(m, id) ==> m[i].id != id
    decreases |m|
  {
    if m != [] && m[0].id != id {
      FindMeaning(m[1..], id);
      assert forall i :: 1 <= i < |m| ==> m[i] == m[1..][i - 1];
    }
  }

  lemma FindUnique(m: seq<Entry>, id: int, i: int)
    requires DistinctIds(m) && 0 <= i < |m| && m[i].id == id
    ensures Find(m, id) == i
  {
    FindMeaning(m, id);
  }

  /** Map.get. */
  function Get(m: seq<Entry>, id: int): (r: Option<Pointer>)
    ensures r.Some? ==> exists i :: 0 <= i < |m| && m[i] == Entry(id, r.value)
  {
    var k := Find(m, id);
    if k < 0 then None else Some(m[k].ptr)
  }

  /** A key is absent exactly when no entry carries it, and a present key
      reads the pointer of an entry that carries it. */
  lemma GetMeaning(m: seq<Entry>, id: int)
    ensures Get(m, id).None? <==> forall i :: 0 <= i < |m| ==> m[i].id != id
    ensures Get(m, id).Some? ==> exists i :: 0 <= i < |m| && m[i] == Entry(id, Get(m, id).value)
  {
    FindMeaning(m, id);
  }

  /** Map.set: an existing key keeps its place, a new key goes last. */
  function Put(m: seq<Entry>, id: int, p: Pointer): (r: seq<Entry>)
    ensures Find(m, id) >= 0 ==> |r| == |m|
    ensures Find(m, id) < 0 ==> r == m + [Entry(id, p)]
    ensures forall i :: 0 <= i < |m| && m[i].id != id ==> r[i] == m[i]
  {
    var k := Find(m, id);
    if k < 0 then m + [Entry(id, p)] else m[k := Entry(id, p)]
  }

  /** Map.delete: the key goes, the others keep their order. */
  function Delete(m: seq<Entry>, id: int): (r: seq<Entry>)
    ensures Find(m, id) < 0 ==> r == m
    ensures Find(m, id) >= 0 ==> |r| == |m| - 1
  {
    var k := Find(m, id);
    if k < 0 then m else m[..k] + m[k + 1..]
  }

  /** After a set, the key reads back the new value, the other keys read what
      they read before, and the keys stay distinct. */
  lemma PutThenGet(m: seq<Entry>, id: int, p: Pointer, other: int)
    requires DistinctIds(m)
    ensures DistinctIds(Put(m, id, p))
    ensures Get(Put(m, id, p), id) == Some(p)
    ensures other != id ==> Get(Put(m, id, p), other) == Get(m, other)
  {
    var r := Put(m, id, p);
    var k := Find(m, id);
    FindMeaning(m, id);
    FindMeaning(m, other);
    FindMeaning(r, other);
    if k < 0 {
      assert r[|m|].id == id;
      FindUnique(r, id, |m|);
    } else {
      assert r[k].id == id;
      FindUnique(r, id, k);
    }
    var j := Find(m, other);
    if other != id && j >= 0 {
      assert r[j] == m[j];
      FindUnique(r, other, j);
    }
  }

  /** Deleting a present key shifts every later entry down by one. */
  lemma DeleteShifts(m: seq<Entry>, id: int, i: int)
    requires Find(m, id) >= 0 && 0 <= i < |Delete(m, id)|
    ensures Delete(m, id)[i] == if i < Find(m, id) then m[i] else m[i + 1]
  {
    var k := Find(m, id);
    var front, back := m[..k], m[k + 1..];
    assert Delete(m, id) == front + back;
    if i < k {
      assert (front + back)[i] == front[i];
    } else {
      assert (front + back)[i] == back[i - k];
    }
  }

  lemma DeleteKeepsDistinct(m: seq<Entry>, id: int)
    requires DistinctIds(m)
    ensures DistinctIds(Delete(m, id))
  {
    var r := Delete(m, id);
    if Find(m, id) >= 0 {
      forall i, j | 0 <= i < j < |r|
        ensures r[i].id != r[j].id
      {
        DeleteShifts(m, id, i);
        DeleteShifts(m, id, j);
      }
    }
  }

  lemma DeleteRemovesKey(m: seq<Entry>, id: int)
    requires DistinctIds(m)
    ensures Get(Delete(m, id), id) == None
  {
    var r := Delete(m, id);
    var k := Find(m, id);
    FindMeaning(m, id);
    FindMeaning(r, id);
    if k >= 0 {
      forall i | 0 <= i < |r|
        ensures r[i].id != id
      {
        DeleteShifts(m, id, i);
      }
    }
  }

  lemma DeleteKeepsOthers(m: seq<Entry>, id: int, other: int)
    requires DistinctIds(m) && other != id
    ensures Get(Delete(m, id), other) == Get(m, other)
  {
    var r := Delete(m, id);
    var k := Find(m, id);
    if k >= 0 {
      var j := Find(m, other);
      FindMeaning(m, other);
      FindMeaning(r, other);
      DeleteKeepsDistinct(m, id);
      if j >= 0 {
        var jr := if j < k then j else j - 1;
        DeleteShifts(m, id, jr);
        FindUnique(r, other, jr);
      } else {
        forall i | 0 <= i < |r|
          ensures r[i].id != other
        {
          DeleteShifts(m, id, i);
        }
      }
    }
  }

  /** After a delete the key is absent, the other keys read what they read
      before, and the keys stay distinct. */
  lemma DeleteThenGet(m: seq<Entry>, id: int, other: int)
    requires DistinctIds(m)
    ensures DistinctIds(Delete(m, id))
    ensures Get(Delete(m, id), id) == None
    ensures other != id ==> Get(Delete(m, id), other) == Get(m, other)
  {
    DeleteKeepsDistinct(m, id);
    DeleteRemovesKey(m, id);
    if other != id {
      DeleteKeepsOthers(m, id, other);
    }
  }

  // ---------------------------------------------------------------------------
  // Pointer updates from the hand tracker and from touches.
  // ---------------------------------------------------------------------------

  /** One tracked index finger at canvas (x, y): a new id starts at rest and
      already armed in its current lane; a known id gets the displacement since
      its last sample as velocity and keeps the lane it was last heard in. */
  function HandUpsert(m: seq<Entry>, id: int, x: real, y: real, height: real): (r: seq<Entry>)
    requires height > 0.0
    ensures Get(m, id).None? ==> r == Put(m, id, Pointer(x, y, 0.0, 0.0, Lane(height, y)))
    ensures Get(m, id).Some? ==>
      var prev := Get(m, id).value;
      r == Put(m, id, Pointer(x, y, x - prev.x, y - prev.y, prev.lastNoteIndex))
  {
    var prev := Get(m, id);
    var vx := if prev.Some? then x - prev.value.x else 0.0;
    var vy := if prev.Some? then y - prev.value.y else 0.0;
    var last := if prev.Some? then prev.value.lastNoteIndex else Lane(height, y);
    Put(m, id, Pointer(x, y, vx, vy, last))
  }

  /** The canvas positions of normalised index-finger landmarks: the camera
      image is mirrored horizontally. */
  function HandPositions(hands: seq<Point>, width: real, height: real): (ps: seq<Point>)
    ensures |ps| == |hands|
    ensures forall i :: 0 <= i < |hands| ==> ps[i] == Point((1.0 - hands[i].x) * width, hands[i].y * height)
  {
    seq(|hands|, i requires 0 <= i < |hands| => Point((1.0 - hands[i].x) * width, hands[i].y * height))
  }

  /** The map after the fingers at canvas positions `ps`, in hand order; hand i
      is pointer i. */
  function HandsApplied(m: seq<Entry>, ps: seq<Point>, height: real): (r: seq<Entry>)
    requires height > 0.0
    ensures |m| <= |r| <= |m| + |ps|
    decreases |ps|
  {
    if ps == [] then m
    else
      var n := |ps| - 1;
      HandUpsert(HandsApplied(m, ps[..n], height), n, ps[n].x, ps[n].y, height)
  }

  /** The hand pass: each finger, in hand order, upserts pointer i. */
  method ApplyHands(m0: seq<Entry>, ps: seq<Point>, height: real) returns (m: seq<Entry>)
    requires height > 0.0
    ensures m == HandsApplied(m0, ps, height)
  {
    m := m0;
    var i := 0;
    while i < |ps|
      invariant 0 <= i <= |ps|
      invariant m == HandsApplied(m0, ps[..i], height)
    {
      var x, y := ps[i].x, ps[i].y;
      var prev := Get(m, i);
      var vx := if prev.Some? then x - prev.value.x else 0.0;
      var vy := if prev.Some? then y - prev.value.y else 0.0;
      var last := if prev.Some? then prev.value.lastNoteIndex else Lane(height, y);
      assert ps[..i + 1][..i] == ps[..i] && ps[..i + 1][i] == ps[i];
      m := Put(m, i, Pointer(x, y, vx, vy, last));
      i := i + 1;
    }
    assert ps[..i] == ps;
  }

  lemma {:induction false} HandsAppliedDistinct(m: seq<Entry>, ps: seq<Point>, height: real)
    requires height > 0.0 && DistinctIds(m)
    ensures DistinctIds(HandsApplied(m, ps, height))
    decreases |ps|
  {
    if ps != [] {
      var n := |ps| - 1;
      HandsAppliedDistinct(m, ps[..n], height);
      var before := HandsApplied(m, ps[..n], height);
      var prev := Get(before, n);
      var vx := if prev.Some? then ps[n].x - prev.value.x else 0.0;
      var vy := if prev.Some? then ps[n].y - prev.value.y else 0.0;
      var last := if prev.Some? then prev.value.lastNoteIndex else Lane(height, ps[n].y);
      PutThenGet(before, n, Pointer(ps[n].x, ps[n].y, vx, vy, last), n);
    }
  }

  /** The lane index of a touch, computed without the clamp the other paths use. */
  function TouchIndex(height: real, y: real): int
    requires height > 0.0
  {
    RawLane(height, y)
  }

  /** One touch point at canvas (x, y) with id 100 + i: a touch pointer never
      has a velocity; a new one is armed at its unclamped touch index, a known
      one keeps the lane it was last heard in. */
  function TouchUpsert(m: seq<Entry>, id: int, x: real, y: real, height: real): (r: seq<Entry>)
    requires height > 0.0
    ensures Get(m, id).None? ==> r == Put(m, id, Pointer(x, y, 0.0, 0.0, TouchIndex(height, y)))
    ensures Get(m, id).Some? ==> r == Put(m, id, Pointer(x, y, 0.0, 0.0, Get(m, id).value.lastNoteIndex))
  {
    var prev := Get(m, id);
    if prev.None? then Put(m, id, Pointer(x, y, 0.0, 0.0, TouchIndex(height, y)))
    else Put(m, id, Pointer(x, y, 0.0, 0.0, prev.value.lastNoteIndex))
  }

  /** The map after the touches of a touch-move event, in touch order; touch i
      is pointer 100 + i. */
  function TouchesApplied(m: seq<Entry>, touches: seq<Point>, height: real): (r: seq<Entry>)
    requires height > 0.0
    ensures |m| <= |r| <= |m| + |touches|
    decreases |touches|
  {
    if touches == [] then m
    else
      var n := |touches| - 1;
      TouchUpsert(TouchesApplied(m, touches[..n], height), 100 + n, touches[n].x, touches[n].y, height)
  }

  lemma {:induction false} TouchesAppliedDistinct(m: seq<Entry>, touches: seq<Point>, height: real)
    requires height > 0.0 && DistinctIds(m)
    ensures DistinctIds(TouchesApplied(m, touches, height))
    decreases |touches|
  {
    if touches != [] {
      var n := |touches| - 1;
      TouchesAppliedDistinct(m, touches[..n], height);
      var before := TouchesApplied(m, touches[..n], height);
      var prev := Get(before, 100 + n);
      var last := if prev.None? then TouchIndex(height, touches[n].y) else prev.value.lastNoteIndex;
      PutThenGet(before, 100 + n, Pointer(touches[n].x, touches[n].y, 0.0, 0.0, last), 100 + n);
    }
  }

  /** The map after the first `n` ended touches delete ids 100 … 100+n−1. */
  function TouchesEnded(m: seq<Entry>, n: nat): (r: seq<Entry>)
    ensures |m| - n <= |r| <= |m|
  {
    if n == 0 then m else Delete(TouchesEnded(m, n - 1), 100 + n - 1)
  }

  /** Ending touches keeps the ids distinct. */
  lemma {:induction false} TouchesEndedDistinct(m: seq<Entry>, n: nat)
    requires DistinctIds(m)
    ensures DistinctIds(TouchesEnded(m, n))
  {
    if n > 0 {
      TouchesEndedDistinct(m, n - 1);
      DeleteThenGet(TouchesEnded(m, n - 1), 100 + n - 1, 0);
    }
  }

  /** One more delete extends the range of removed ids by one key. */
  lemma DeleteExtendsRange(prev: seq<Entry>, lo: int, key: int, id: int, g: Option<Pointer>)
    requires DistinctIds(prev)
    requires lo <= key && Get(prev, id) == if lo <= id < key then None else g
    ensures Get(Delete(prev, key), id) == if lo <= id < key + 1 then None else g
  {
    DeleteThenGet(prev, key, id);
  }

  /** Ending n touches removes exactly the ids 100 … 100+n−1. */
  lemma {:induction false} TouchesEndedGet(m: seq<Entry>, n: nat, id: int)
    requires DistinctIds(m)
    ensures Get(TouchesEnded(m, n), id) == if 100 <= id < 100 + n then None else Get(m, id)
  {
    if n > 0 {
      TouchesEndedGet(m, n - 1, id);
      TouchesEndedDistinct(m, n - 1);
      TouchEndedStep(m, n, id);
    }
  }

  /** Ending touch n−1 after the first n−1 extends the removed range by one id. */
  lemma TouchEndedStep(m: seq<Entry>, n: nat, id: int)
    requires n > 0 && DistinctIds(TouchesEnded(m, n - 1))
    requires Get(TouchesEnded(m, n - 1), id) == if 100 <= id < 100 + (n - 1) then None else Get(m, id)
    ensures Get(TouchesEnded(m, n), id) == if 100 <= id < 100 + n then None else Get(m, id)
  {
    DeleteExtendsRange(TouchesEnded(m, n - 1), 100, 100 + n - 1, id, Get(m, id));
  }

  // ---------------------------------------------------------------------------
  // The harp: one tone per lane change.
  // ---------------------------------------------------------------------------

  /** The horizontal position of a pointer as a fraction of the canvas width. */
  function PanPosition(x: real, width: real): real
    requires width > 0.0
  {
    x / width
  }

  /** The tone a pointer plays this frame, if any: only when its lane differs
      from the lane it was last heard in, and only with sound enabled. The pan
      position is x / width. */
  function Tone(p: Pointer, width: real, height: real, sound: bool): (t: Option<Ping>)
    requires width > 0.0 && height > 0.0
    ensures t.Some? <==> p.lastNoteIndex != Lane(height, p.y) && sound
    ensures t.Some? ==> t.value == Ping(ToneFrequency(Lane(height, p.y)), PanPosition(p.x, width), Sine)
  {
    var lane := Lane(height, p.y);
    if p.lastNoteIndex != lane && sound then Some(Ping(ToneFrequency(lane), PanPosition(p.x, width), Sine))
    else None
  }

  /** The pointer after the crossing check: it is armed at its current lane,
      whether or not sound is enabled. */
  function Strum(p: Pointer, height: real): (q: Pointer)
    requires height > 0.0
    ensures q.lastNoteIndex == Lane(height, p.y)
    ensures q.x == p.x && q.y == p.y && q.vx == p.vx && q.vy == p.vy
  {
    var lane := Lane(height, p.y);
    if p.lastNoteIndex != lane then p.(lastNoteIndex := lane) else p
  }

  function Strummed(m: seq<Entry>, height: real): (r: seq<Entry>)
    requires height > 0.0
    ensures |r| == |m|
    ensures forall i :: 0 <= i < |m| ==> r[i].id == m[i].id && r[i].ptr == Strum(m[i].ptr, height)
  {
    seq(|m|, i requires 0 <= i < |m| => Entry(m[i].id, Strum(m[i].ptr, height)))
  }

  /** The tones of a frame, in the map's insertion order. */
  function Tones(m: seq<Entry>, width: real, height: real, sound: bool): (ts: seq<Ping>)
    requires width > 0.0 && height > 0.0
    ensures |ts| <= |m|
    decreases |m|
  {
    if m == [] then []
    else
      var n := |m| - 1;
      var t := Tone(m[n].ptr, width, height, sound);
      Tones(m[..n], width, height, sound) + (if t.Some? then [t.value] else [])
  }

  /** Pointers that have not moved since the last frame play nothing, whether
      or not sound was enabled on that frame: the harp fires once per crossing. */
  lemma {:induction false} NoToneWithoutCrossing(m: seq<Entry>, width: real, height: real, sound: bool)
    requires width > 0.0 && height > 0.0
    ensures Tones(Strummed(m, height), width, height, sound) == []
    decreases |m|
  {
    if m != [] {
      var n := |m| - 1;
      assert Strummed(m, height)[..n] == Strummed(m[..n], height);
      NoToneWithoutCrossing(m[..n], width, height, sound);
    }
  }

  /** A hand seen for the first time plays nothing on its first frame. */
  lemma NewHandIsSilent(m: seq<Entry>, id: int, x: real, y: real, width: real, height: real, sound: bool)
    requires width > 0.0 && height > 0.0 && DistinctIds(m) && Get(m, id).None?
    ensures Get(HandUpsert(m, id, x, y, height), id).Some?
    ensures Tone(Get(HandUpsert(m, id, x, y, height), id).value, width, height, sound).None?
  {
    PutThenGet(m, id, Pointer(x, y, 0.0, 0.0, Lane(height, y)), id);
  }

  /** A touch seen for the first time at the very top edge is armed at index
      10, one past the top lane, so it plays the top lane's tone on its first
      frame although it has not crossed a line. */
  lemma NewTouchAtTopSounds(m: seq<Entry>, id: int, x: real, width: real, height: real)
    requires width > 0.0 && height > 0.0 && DistinctIds(m) && Get(m, id).None?
    ensures Get(TouchUpsert(m, id, x, 0.0, height), id).Some?
    ensures Tone(Get(TouchUpsert(m, id, x, 0.0, height), id).value, width, height, true)
            == Some(Ping(ToneFrequency(9), PanPosition(x, width), Sine))
  {
    assert (height - 0.0) / (height / 10.0) == 10.0;
    PutThenGet(m, id, Pointer(x, 0.0, 0.0, 0.0, TouchIndex(height, 0.0)), id);
  }

  // ---------------------------------------------------------------------------
  // Particles.
  // ---------------------------------------------------------------------------

  datatype Intensity = Light | Medium | Heavy

  /** Particles spawned per fast pointer per frame. */
  function SpawnRate(intensity: Intensity): (n: nat)
    ensures n == 1 || n == 3 || n == 6
    ensures intensity == Light ==> n == 1
    ensures intensity == Medium ==> n == 3
    ensures intensity == Heavy ==> n == 6
  {
    match intensity
    case Light => 1
    case Medium => 3
    case Heavy => 6
  }

  /** The six uniform draws in [0,1) one spawned particle takes. */
  datatype Jitter = Jitter(dx: real, dy: real, dvx: real, dvy: real, dhue: real, dsize: real)

  /** A particle spawned from pointer p: jittered position within ±5 pixels,
      a twentieth of the pointer's velocity plus jitter, full life, no trail. */
  function Spawn(p: Pointer, hue: real, speed: real, j: Jitter): (q: InkParticle)
    ensures q.life == 1.0 && q.history == []
    ensures 0.0 <= j.dx < 1.0 ==> p.x - 5.0 <= q.x < p.x + 5.0
    ensures 0.0 <= j.dy < 1.0 ==> p.y - 5.0 <= q.y < p.y + 5.0
    ensures 0.0 <= j.dhue < 1.0 ==> hue - 10.0 <= q.hue < hue + 10.0
  {
    InkParticle(
      p.x + (j.dx - 0.5) * 10.0,
      p.y + (j.dy - 0.5) * 10.0,
      p.vx * 0.05 + (j.dvx - 0.5),
      p.vy * 0.05 + (j.dvy - 0.5),
      1.0,
      [],
      hue + (j.dhue * 20.0 - 10.0),
      j.dsize * 3.0 + speed * 0.1)
  }

  /** A pointer is fast when its speed exceeds 2 pixels per frame; the speed is
      a square root, so this is its squared speed exceeding 4. */
  predicate Fast(p: Pointer)
  {
    SquaredSpeed(p) > 4.0
  }

  function SquaredSpeed(p: Pointer): (s: real)
    ensures s >= 0.0
  {
    p.vx * p.vx + p.vy * p.vy
  }

  /** The particles pointer number `pos` spawns: `rate` of them when fast, none
      otherwise. `noise(pos, k)` gives the draws of its k-th particle and
      `speed` its speed. */
  function Burst(p: Pointer, pos: nat, height: real, rate: nat, speed: real,
                 noise: (nat, nat) -> Jitter): (qs: seq<InkParticle>)
    requires height > 0.0
    ensures |qs| == if Fast(p) then rate else 0
  {
    if Fast(p) then Sprays(p, pos, Hue(Lane(height, p.y)), speed, noise, rate) else []
  }

  /** The first `count` particles of pointer number `pos`'s burst. */
  function Sprays(p: Pointer, pos: nat, hue: real, speed: real, noise: (nat, nat) -> Jitter, count: nat)
    : (qs: seq<InkParticle>)
    ensures |qs| == count
    ensures forall k :: 0 <= k < count ==> qs[k].life == 1.0 && qs[k].history == []
    decreases count
  {
    if count == 0 then []
    else Sprays(p, pos, hue, speed, noise, count - 1) + [Spawn(p, hue, speed, noise(pos, count - 1))]
  }

  /** All particles a frame spawns, pointer by pointer in the map's order. */
  function Spawned(m: seq<Entry>, height: real, rate: nat, speedOf: real -> real,
                   noise: (nat, nat) -> Jitter): (qs: seq<InkParticle>)
    requires height > 0.0
    ensures |qs| <= |m| * rate
    decreases |m|
  {
    if m == [] then []
    else
      var n := |m| - 1;
      MulSucc(n, rate);
      var p := m[n].ptr;
      Spawned(m[..n], height, rate, speedOf, noise)
      + Burst(p, n, height, rate, speedOf(SquaredSpeed(p)), noise)
  }

  /** Particles as spawned: full life and an empty trail. */
  predicate AllFresh(qs: seq<InkParticle>)
  {
    forall k :: 0 <= k < |qs| ==> qs[k].life == 1.0 && qs[k].history == []
  }

  /** Every spawned particle starts with full life and an empty trail. */
  lemma {:induction false} SpawnedFresh(m: seq<Entry>, height: real, rate: nat, speedOf: real -> real,
                                        noise: (nat, nat) -> Jitter)
    requires height > 0.0
    ensures AllFresh(Spawned(m, height, rate, speedOf, noise))
    decreases |m|
  {
    if m != [] {
      var n := |m| - 1;
      var p := m[n].ptr;
      var burst := Burst(p, n, height, rate, speedOf(SquaredSpeed(p)), noise);
      var front := Spawned(m[..n], height, rate, speedOf, noise);
      SpawnedFresh(m[..n], height, rate, speedOf, noise);
      assert AllFresh(front) && AllFresh(burst);
      assert Spawned(m, height, rate, speedOf, noise) == front + burst;
    }
  }

  /** Pointers placed by touches never move fast enough to spawn particles. */
  lemma {:induction false} TouchesNeverSpawn(m: seq<Entry>, height: real, rate: nat, speedOf: real -> real,
                                             noise: (nat, nat) -> Jitter)
    requires height > 0.0
    requires forall i :: 0 <= i < |m| ==> m[i].ptr.vx == 0.0 && m[i].ptr.vy == 0.0
    ensures Spawned(m, height, rate, speedOf, noise) == []
    decreases |m|
  {
    if m != [] {
      var n := |m| - 1;
      var p := m[n].ptr;
      assert forall i :: 0 <= i < n ==> m[..n][i] == m[i];
      TouchesNeverSpawn(m[..n], height, rate, speedOf, noise);
      StillNeverSpawns(p, n, height, rate, speedOf(SquaredSpeed(p)), noise);
    }
  }

  /** A pointer at rest spawns nothing. */
  lemma StillNeverSpawns(p: Pointer, pos: nat, height: real, rate: nat, speed: real, noise: (nat, nat) -> Jitter)
    requires height > 0.0 && p.vx == 0.0 && p.vy == 0.0
    ensures Burst(p, pos, height, rate, speed, noise) == []
  {
    assert SquaredSpeed(p) == 0.0;
  }

  /** A particle after one frame: the pre-move position joins its trail (the
      oldest point dropped beyond eight), it moves by its velocity, and its life
      falls by 0.01. */
  function Age(q: InkParticle): (r: InkParticle)
    ensures |q.history| <= TrailLength ==> |r.history| <= TrailLength
    ensures |r.history| > 0 && r.history[|r.history| - 1] == Point(q.x, q.y)
    ensures r.life == q.life - 0.01
    ensures |q.history| < TrailLength ==> r.history == q.history + [Point(q.x, q.y)]
    ensures |q.history| == TrailLength ==> r.history == q.history[1..] + [Point(q.x, q.y)]
    ensures r.x == q.x + q.vx && r.y == q.y + q.vy && r.vx == q.vx && r.vy == q.vy
    ensures r.hue == q.hue && r.size == q.size
  {
    var pushed := q.history + [Point(q.x, q.y)];
    var trail := if |pushed| > TrailLength then pushed[1..] else pushed;
    q.(history := trail, x := q.x + q.vx, y := q.y + q.vy, life := q.life - 0.01)
  }

  predicate Alive(q: InkParticle)
  {
    q.life > 0.0
  }

  /** The particles that live through a frame, aged, in their original order. */
  function Survivors(qs: seq<InkParticle>): (rs: seq<InkParticle>)
    ensures |rs| <= |qs|
    decreases |qs|
  {
    if qs == [] then []
    else (if Alive(Age(qs[0])) then [Age(qs[0])] else []) + Survivors(qs[1..])
  }

  /** The survivors of a concatenation are the survivors of each part, in order:
      aging and removal never reorder particles. */
  lemma {:induction false} SurvivorsAppend(a: seq<InkParticle>, b: seq<InkParticle>)
    ensures Survivors(a + b) == Survivors(a) + Survivors(b)
    decreases |a|
  {
    if a == [] {
      assert a + b == b;
    } else {
      assert (a + b)[0] == a[0] && (a + b)[1..] == a[1..] + b;
      SurvivorsAppend(a[1..], b);
      var head := if Alive(Age(a[0])) then [Age(a[0])] else [];
      assert Survivors(a + b) == head + Survivors(a[1..] + b);
      assert Survivors(a) == head + Survivors(a[1..]);
      ConcatAssoc(head, Survivors(a[1..]), Survivors(b));
    }
  }

  lemma SurvivorsFrom(qs: seq<InkParticle>, i: nat)
    requires i < |qs|
    ensures Survivors(qs[i..]) == (if Alive(Age(qs[i])) then [Age(qs[i])] else []) + Survivors(qs[i + 1..])
  {
    assert qs[i..][0] == qs[i] && qs[i..][1..] == qs[i + 1..];
  }

  lemma ConcatAssoc<T>(x: seq<T>, y: seq<T>, z: seq<T>)
    ensures x + (y + z) == (x + y) + z
  {
  }

  /** Removing or replacing the element between a prefix and a suffix. */
  lemma SpliceAt<T>(pre: seq<T>, x: T, rest: seq<T>, y: T)
    ensures (pre + [x] + rest)[|pre|] == x
    ensures (pre + [x] + rest)[..|pre|] + (pre + [x] + rest)[|pre| + 1..] == pre + rest
    ensures (pre + [x] + rest)[|pre| := y] == pre + ([y] + rest)
  {
    var s := pre + [x] + rest;
    assert s[..|pre|] == pre && s[|pre| + 1..] == rest;
    assert s[|pre| := y] == pre + ([y] + rest);
  }

  /** One step of the backward pass: with particles i+1.. already processed,
      processing particle i (splice it out, or replace it by its aged self)
      leaves particles i.. processed. */
  lemma AgeStep(all: seq<InkParticle>, i: nat, qs: seq<InkParticle>)
    requires i < |all| && qs == all[..i + 1] + Survivors(all[i + 1..])
    ensures qs[i] == all[i]
    ensures !Alive(Age(all[i])) ==> qs[..i] + qs[i + 1..] == all[..i] + Survivors(all[i..])
    ensures Alive(Age(all[i])) ==> qs[i := Age(all[i])] == all[..i] + Survivors(all[i..])
  {
    var pre, x, rest := all[..i], all[i], Survivors(all[i + 1..]);
    assert all[..i + 1] == pre + [x];
    SurvivorsFrom(all, i);
    SpliceAt(pre, x, rest, Age(x));
    if Alive(Age(x)) {
      assert Survivors(all[i..]) == [Age(x)] + rest;
    } else {
      assert Survivors(all[i..]) == [] + rest == rest;
    }
  }

  /** Every survivor is alive: particles whose life has run out are removed. */
  lemma {:induction false} SurvivorsAlive(qs: seq<InkParticle>)
    ensures forall k :: 0 <= k < |Survivors(qs)| ==> Alive(Survivors(qs)[k])
    decreases |qs|
  {
    if qs != [] {
      SurvivorsAlive(qs[1..]);
    }
  }

  /** A well-formed buffered particle: alive, at most full life, short trail. */
  predicate WellFormed(q: InkParticle)
  {
    0.0 < q.life <= 1.0 && |q.history| <= TrailLength
  }

  /** Aging keeps every survivor well formed. */
  lemma {:induction false} SurvivorsWellFormed(qs: seq<InkParticle>)
    requires forall k :: 0 <= k < |qs| ==> WellFormed(qs[k])
    ensures forall k :: 0 <= k < |Survivors(qs)| ==> WellFormed(Survivors(qs)[k])
    decreases |qs|
  {
    if qs != [] {
      SurvivorsWellFormed(qs[1..]);
    }
  }

  /** The newest 1500 particles, in their original order. */
  function Cap(qs: seq<InkParticle>): (rs: seq<InkParticle>)
    ensures |rs| == if |qs| > ParticleCap then ParticleCap else |qs|
    ensures rs == qs[|qs| - |rs|..]
  {
    if |qs| > ParticleCap then qs[|qs| - ParticleCap..] else qs
  }

  /** The crossing check for one pointer: when its lane differs from the lane
      it was last heard in, it plays that lane's tone (with sound enabled) and
      is re-armed at the new lane. */
  method CrossLane(p0: Pointer, width: real, height: real, sound: bool) returns (p: Pointer, tone: Option<Ping>)
    requires width > 0.0 && height > 0.0
    ensures p == Strum(p0, height)
    ensures tone == Tone(p0, width, height, sound)
  {
    p, tone := p0, None;
    var lane := Lane(height, p0.y);
    if p0.lastNoteIndex != lane {
      if sound {
        tone := Some(Ping(HarpRoot * Intervals[lane], PanPosition(p0.x, width), Sine));
      }
      p := p0.(lastNoteIndex := lane);
    }
  }

  lemma StrummedKeepsIds(m: seq<Entry>, height: real)
    requires height > 0.0 && DistinctIds(m)
    ensures DistinctIds(Strummed(m, height))
  {
  }

  /** Pushes the burst of pointer number `pos` onto the particle list, one
      particle at a time. */
  method SpawnBurst(qs: seq<InkParticle>, p: Pointer, pos: nat, height: real, rate: nat, speed: real,
                    noise: (nat, nat) -> Jitter) returns (rs: seq<InkParticle>)
    requires height > 0.0
    ensures rs == qs + Burst(p, pos, height, rate, speed, noise)
  {
    rs := qs;
    if !(p.vx * p.vx + p.vy * p.vy > 4.0) {
      return;
    }
    var hue := Hue(Lane(height, p.y));
    var k := 0;
    while k < rate
      invariant 0 <= k <= rate
      invariant rs == qs + Sprays(p, pos, hue, speed, noise, k)
    {
      ConcatAssoc(qs, Sprays(p, pos, hue, speed, noise, k), [Spawn(p, hue, speed, noise(pos, k))]);
      rs := rs + [Spawn(p, hue, speed, noise(pos, k))];
      k := k + 1;
    }
  }

  /** One step of a frame's pointer pass: pointer number i plays its tone,
      is re-armed and spawns its burst; the pass's accumulators grow by that
      pointer's share. */
  method PlayPointer(ps: seq<Entry>, i: nat, m: seq<Entry>, tones: seq<Ping>, qs: seq<InkParticle>,
                     ghost qs0: seq<InkParticle>, width: real, height: real, sound: bool, rate: nat,
                     speedOf: real -> real, noise: (nat, nat) -> Jitter)
    returns (m': seq<Entry>, tones': seq<Ping>, qs': seq<InkParticle>)
    requires width > 0.0 && height > 0.0 && i < |ps| == |m|
    requires forall j :: 0 <= j < i ==> m[j] == Entry(ps[j].id, Strum(ps[j].ptr, height))
    requires forall j :: i <= j < |m| ==> m[j] == ps[j]
    requires tones == Tones(ps[..i], width, height, sound)
    requires qs == qs0 + Spawned(ps[..i], height, rate, speedOf, noise)
    ensures |m'| == |ps|
    ensures forall j :: 0 <= j <= i ==> m'[j] == Entry(ps[j].id, Strum(ps[j].ptr, height))
    ensures forall j :: i < j < |m'| ==> m'[j] == ps[j]
    ensures tones' == Tones(ps[..i + 1], width, height, sound)
    ensures qs' == qs0 + Spawned(ps[..i + 1], height, rate, speedOf, noise)
  {
    var p0 := ps[i].ptr;
    var p, tone := CrossLane(p0, width, height, sound);
    tones' := if tone.Some? then tones + [tone.value] else tones;
    PrefixStep(ps, i, width, height, sound, rate, speedOf, noise);
    var speed := speedOf(SquaredSpeed(p0));
    ConcatAssoc(qs0, Spawned(ps[..i], height, rate, speedOf, noise), Burst(p0, i, height, rate, speed, noise));
    qs' := SpawnBurst(qs, p0, i, height, rate, speed, noise);
    m' := m[i := Entry(ps[i].id, p)];
  }

  /** The pointer pass over the map ps, in its order: returns the re-armed
      map, the tones played and the particle list qs0 grown by every
      pointer's burst. */
  method PlayAll(ps: seq<Entry>, qs0: seq<InkParticle>, width: real, height: real, sound: bool, rate: nat,
                 speedOf: real -> real, noise: (nat, nat) -> Jitter)
    returns (m: seq<Entry>, tones: seq<Ping>, qs: seq<InkParticle>)
    requires width > 0.0 && height > 0.0
    ensures m == Strummed(ps, height)
    ensures tones == Tones(ps, width, height, sound)
    ensures qs == qs0 + Spawned(ps, height, rate, speedOf, noise)
  {
    m, qs := ps, qs0;
    tones := [];
    var i := 0;
    while i < |ps|
      invariant 0 <= i <= |ps| == |m|
      invariant forall j :: 0 <= j < i ==> m[j] == Entry(ps[j].id, Strum(ps[j].ptr, height))
      invariant forall j :: i <= j < |m| ==> m[j] == ps[j]
      invariant tones == Tones(ps[..i], width, height, sound)
      invariant qs == qs0 + Spawned(ps[..i], height, rate, speedOf, noise)
    {
      m, tones, qs := PlayPointer(ps, i, m, tones, qs, qs0, width, height, sound, rate, speedOf, noise);
      i := i + 1;
    }
    assert ps[..i] == ps;
  }

  /** Tones and spawned particles of a prefix grow by the next pointer's share. */
  lemma PrefixStep(m: seq<Entry>, i: nat, width: real, height: real, sound: bool, rate: nat,
                   speedOf: real -> real, noise: (nat, nat) -> Jitter)
    requires i < |m| && width > 0.0 && height > 0.0
    ensures var t := Tone(m[i].ptr, width, height, sound);
      Tones(m[..i + 1], width, height, sound) == Tones(m[..i], width, height, sound) + (if t.Some? then [t.value] else [])
    ensures var p := m[i].ptr;
      Spawned(m[..i + 1], height, rate, speedOf, noise)
      == Spawned(m[..i], height, rate, speedOf, noise) + Burst(p, i, height, rate, speedOf(SquaredSpeed(p)), noise)
  {
    assert m[..i + 1][..i] == m[..i] && m[..i + 1][i] == m[i];
  }

  /** Spawned particles are well formed. */
  lemma SpawnedWellFormed(before: seq<InkParticle>, m: seq<Entry>, height: real, rate: nat,
                           speedOf: real -> real, noise: (nat, nat) -> Jitter)
    requires height > 0.0
    requires forall k :: 0 <= k < |before| ==> WellFormed(before[k])
    ensures var qs := before + Spawned(m, height, rate, speedOf, noise);
      forall k :: 0 <= k < |qs| ==> WellFormed(qs[k])
  {
    SpawnedFresh(m, height, rate, speedOf, noise);
  }

  /** The chamber's mutable state. The pointer map lives as long as the render
      effect, which restarts (with an empty map) whenever the intensity or the
      sound switch changes; the particle buffer outlives it. */
  class InkChamber {
    var pointers: seq<Entry>
    var particles: seq<InkParticle>
    var intensity: Intensity
    var soundEnabled: bool

    ghost predicate Valid()
      reads this
    {
      && DistinctIds(pointers)
      && forall k :: 0 <= k < |particles| ==> WellFormed(particles[k])
    }

    constructor ()
      ensures Valid() && pointers == [] && particles == []
      ensures intensity == Medium && soundEnabled
    {
      pointers, particles := [], [];
      intensity, soundEnabled := Medium, true;
    }

    /** Choosing the controls: a value that differs from the current one
        restarts the render effect with a fresh pointer map; re-choosing the
        current values is no state change, so the effect and its map are kept. */
    method Configure(newIntensity: Intensity, sound: bool)
      requires Valid()
      modifies this
      ensures Valid() && intensity == newIntensity && soundEnabled == sound
      ensures pointers == if newIntensity == old(intensity) && sound == old(soundEnabled) then old(pointers) else []
      ensures particles == old(particles)
    {
      if newIntensity != intensity || sound != soundEnabled {
        pointers := [];
      }
      intensity, soundEnabled := newIntensity, sound;
    }

    method ClearCanvas()
      requires Valid()
      modifies this`particles
      ensures Valid() && particles == []
    {
      particles := [];
    }

    /** One result of the hand tracker: `hands` holds each hand's index-finger
        landmark, normalised. With no hand, the map is cleared when the draw
        `rnd` exceeds 0.9. */
    method OnResults(hands: seq<Point>, width: real, height: real, rnd: real)
      requires Valid() && height > 0.0
      modifies this`pointers
      ensures Valid()
      ensures |hands| > 0 ==> pointers == HandsApplied(old(pointers), HandPositions(hands, width, height), height)
      ensures |hands| == 0 ==> pointers == if rnd > 0.9 then [] else old(pointers)
    {
      if |hands| > 0 {
        var ps := HandPositions(hands, width, height);
        var m := ApplyHands(pointers, ps, height);
        HandsAppliedDistinct(pointers, ps, height);
        pointers := m;
      } else if rnd > 0.9 {
        pointers := [];
      }
    }

    /** touchstart / touchmove: touch i is pointer 100 + i. */
    method TouchMove(touches: seq<Point>, height: real)
      requires Valid() && height > 0.0
      modifies this`pointers
      ensures Valid()
      ensures pointers == TouchesApplied(old(pointers), touches, height)
    {
      var m := pointers;
      var i := 0;
      while i < |touches|
        invariant 0 <= i <= |touches|
        invariant m == TouchesApplied(old(pointers), touches[..i], height)
      {
        var t := touches[i];
        var curIdx := TouchIndex(height, t.y);
        var p;
        if Get(m, 100 + i).None? {
          p := Pointer(t.x, t.y, 0.0, 0.0, curIdx);
        } else {
          p := Pointer(t.x, t.y, 0.0, 0.0, Get(m, 100 + i).value.lastNoteIndex);
        }
        m := Put(m, 100 + i, p);
        assert touches[..i + 1][..i] == touches[..i] && touches[..i + 1][i] == t;
        i := i + 1;
      }
      assert touches[..i] == touches;
      TouchesAppliedDistinct(old(pointers), touches, height);
      pointers := m;
    }

    /** touchend with `ended` changed touches: deletes ids 100 … 100+ended−1. */
    method TouchEnd(ended: nat)
      requires Valid()
      modifies this`pointers
      ensures Valid()
      ensures pointers == TouchesEnded(old(pointers), ended)
    {
      var m := pointers;
      var i := 0;
      while i < ended
        invariant 0 <= i <= ended
        invariant m == TouchesEnded(old(pointers), i)
      {
        m := Delete(m, 100 + i);
        i := i + 1;
      }
      TouchesEndedDistinct(old(pointers), ended);
      pointers := m;
    }

    /** The pointer pass of a frame: every pointer, in the map's order, plays
        its tone if it crossed a lane, is re-armed at its lane, and spawns its
        burst of particles. Returns the tones played. */
    method PlayPointers(width: real, height: real, speedOf: real -> real,
                        noise: (nat, nat) -> Jitter) returns (tones: seq<Ping>)
      requires Valid() && width > 0.0 && height > 0.0
      modifies this`pointers, this`particles
      ensures Valid()
      ensures pointers == Strummed(old(pointers), height)
      ensures tones == Tones(old(pointers), width, height, soundEnabled)
      ensures particles == old(particles) + Spawned(old(pointers), height, SpawnRate(intensity), speedOf, noise)
    {
      var m, qs;
      m, tones, qs := PlayAll(pointers, particles, width, height, soundEnabled, SpawnRate(intensity), speedOf, noise);
      StrummedKeepsIds(pointers, height);
      SpawnedWellFormed(particles, pointers, height, SpawnRate(intensity), speedOf, noise);
      pointers := m;
      particles := qs;
    }

    /** The backward aging pass: each particle, from last to first, is aged and
        spliced out when its life has run out. */
    method StepParticles()
      requires Valid()
      modifies this`particles
      ensures Valid()
      ensures particles == Survivors(old(particles))
    {
      ghost var all := particles;
      var qs := particles;
      var i := |qs|;
      while i > 0
        invariant 0 <= i <= |all|
        invariant qs == all[..i] + Survivors(all[i..])
      {
        i := i - 1;
        AgeStep(all, i, qs);
        var q := Age(qs[i]);
        if q.life <= 0.0 {
          qs := qs[..i] + qs[i + 1..];
        } else {
          qs := qs[i := q];
        }
      }
      SurvivorsWellFormed(all);
      particles := qs;
    }

    /** Keeps the newest 1500 particles. */
    method CapParticles()
      requires Valid()
      modifies this`particles
      ensures Valid()
      ensures particles == Cap(old(particles))
    {
      if |particles| > ParticleCap {
        particles := particles[|particles| - ParticleCap..];
      }
    }

    /** The logic of one animation frame: the pointer pass, the aging pass and
        the cap, in that order. */
    method Frame(width: real, height: real, speedOf: real -> real,
                 noise: (nat, nat) -> Jitter) returns (tones: seq<Ping>)
      requires Valid() && width > 0.0 && height > 0.0
      modifies this`pointers, this`particles
      ensures Valid()
      ensures pointers == Strummed(old(pointers), height)
      ensures tones == Tones(old(pointers), width, height, soundEnabled)
      ensures particles == Cap(Survivors(old(particles) + Spawned(old(pointers), height, SpawnRate(intensity), speedOf, noise)))
      ensures |particles| <= ParticleCap
    {
      tones := PlayPointers(width, height, speedOf, noise);
      StepParticles();
      CapParticles();
    }
  }
}

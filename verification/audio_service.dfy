/** The audio engine: the pitch quantiser, the pan clamp, the effect-send routing
    of a voice, and the guard that builds the audio graph only once.
    Audio nodes themselves are represented by presence flags; the ramps, the
    oscillator and the impulse response are not part of this model. */
module Audio {
  import opened Types

  /** Interval ratios of the three five-note scales, lowest first. */
  function Ratios(scale: AudioScale): (r: seq<real>)
    ensures |r| == 5
  {
    match scale
    case Pentatonic => [1.0, 1.125, 1.25, 1.5, 1.66]
    case Phrygian => [1.0, 1.06, 1.25, 1.33, 1.5]
    case Chromatic => [1.0, 1.059, 1.122, 1.189, 1.26]
  }

  /** Every table starts at the root, rises strictly, and stays below the octave. */
  lemma RatiosAscending(scale: AudioScale)
    ensures Ratios(scale)[0] == 1.0 && Ratios(scale)[4] < 2.0
    ensures forall i, j :: 0 <= i < j < 5 ==> Ratios(scale)[i] < Ratios(scale)[j]
  {
  }

  /** 2 raised to an integer power, as a real. */
  function Pow2(k: int): real
    decreases if k < 0 then -k else k
  {
    if k == 0 then 1.0
    else if k > 0 then 2.0 * Pow2(k - 1)
    else Pow2(k + 1) / 2.0
  }

  lemma {:induction false} Pow2Positive(k: int)
    ensures Pow2(k) > 0.0
    decreases if k < 0 then -k else k
  {
    if k > 0 {
      Pow2Positive(k - 1);
    } else if k < 0 {
      Pow2Positive(k + 1);
    }
  }

  lemma Pow2Succ(k: int)
    ensures Pow2(k + 1) == 2.0 * Pow2(k)
  {
  }

  /** The remainder of JavaScript's `%` operator on integers: it truncates
      toward zero, so its sign follows the dividend. */
  function JsRem(a: int, n: int): (r: int)
    requires n > 0
    ensures a >= 0 ==> r == a % n
    ensures a < 0 ==> -n < r <= 0
  {
    if a >= 0 then a % n else -((-a) % n)
  }

  /** The random detune factor drawn from a uniform value rnd in [0,1). */
  function Detune(rnd: real): (d: real)
    ensures 0.0 <= rnd < 1.0 ==> 0.995 <= d < 1.005
    ensures rnd == 0.5 ==> d == 1.0
  {
    1.0 + (rnd * 0.01 - 0.005)
  }

  /** The deterministic part of the quantiser: root × ratio × 2^octave. */
  function Pitch(index: nat, scale: AudioScale, root: real): real
  {
    root * Ratios(scale)[index % 5] * Pow2(index / 5)
  }

  /** The quantiser below the root: for a negative index JavaScript's remainder
      is at most zero. A negative slot looks up a missing table entry and
      yields NaN, which is None here; slot 0 yields root × 2^octave × detune. */
  function BelowRoot(index: int, scale: AudioScale, root: real, rnd: real): (r: Option<real>)
    requires index < 0
    ensures r.Some? <==> index % 5 == 0
    ensures r.Some? ==> r.value == root * Pow2(index / 5) * Detune(rnd)
  {
    var step := JsRem(index, 5);
    if step < 0 then None
    else Some(root * Ratios(scale)[step] * Pow2(index / 5) * Detune(rnd))
  }

  /** The quantiser: root × ratio × 2^octave × detune, where the octave is the
      floored quotient of the index by the table length and the slot is
      JavaScript's remainder. For a non-negative index that remainder is the
      mathematical one, so the result is the step's pitch, detuned. */
  function NoteFrequency(index: int, scale: AudioScale, root: real, rnd: real): (r: Option<real>)
    ensures r.Some? <==> (index >= 0 || index % 5 == 0)
  {
    if index >= 0 then Some(Pitch(index, scale, root) * Detune(rnd))
    else BelowRoot(index, scale, root, rnd)
  }

  /** A non-negative index yields its pitch detuned; a negative multiple of
      five yields the root shifted down by whole octaves, detuned. */
  lemma NoteFrequencyValue(index: int, scale: AudioScale, root: real, rnd: real)
    ensures index >= 0 ==>
      NoteFrequency(index, scale, root, rnd).value == Pitch(index, scale, root) * Detune(rnd)
    ensures index < 0 && index % 5 == 0 ==>
      NoteFrequency(index, scale, root, rnd).value == root * 1.0 * Pow2(index / 5) * Detune(rnd)
  {
  }

  /** The first five steps are the table's ratios of the root. */
  lemma PitchBaseOctave(index: nat, scale: AudioScale, root: real)
    requires index < 5
    ensures Pitch(index, scale, root) == root * Ratios(scale)[index]
  {
  }

  /** Five steps up is one octave up: the frequency doubles. */
  lemma OctaveDoubling(index: nat, scale: AudioScale, root: real)
    ensures Pitch(index + 5, scale, root) == 2.0 * Pitch(index, scale, root)
  {
    assert (index + 5) % 5 == index % 5;
    assert (index + 5) / 5 == index / 5 + 1;
    Pow2Succ(index / 5);
  }

  /** Every fifth step is the root shifted up by whole octaves. */
  lemma {:induction false} PitchRootOctaves(k: nat, scale: AudioScale, root: real)
    ensures Pitch(5 * k, scale, root) == root * Pow2(k)
  {
    if k == 0 {
      RatiosAscending(scale);
    } else {
      PitchRootOctaves(k - 1, scale, root);
      OctaveDoubling(5 * (k - 1), scale, root);
      assert 5 * (k - 1) + 5 == 5 * k;
      Pow2Succ(k - 1);
    }
  }

  lemma PitchPositive(index: nat, scale: AudioScale, root: real)
    requires root > 0.0
    ensures Pitch(index, scale, root) > 0.0
  {
    Pow2Positive(index / 5);
    RatiosAscending(scale);
    var ratio := Ratios(scale)[index % 5];
    assert ratio >= 1.0;
    assert root * ratio > 0.0;
  }

  /** One step up always raises the pitch, including across an octave boundary. */
  lemma PitchStep(index: nat, scale: AudioScale, root: real)
    requires root > 0.0
    ensures Pitch(index, scale, root) < Pitch(index + 1, scale, root)
  {
    RatiosAscending(scale);
    var p := Pow2(index / 5);
    Pow2Positive(index / 5);
    var ratios := Ratios(scale);
    if index % 5 < 4 {
      assert (index + 1) / 5 == index / 5 && (index + 1) % 5 == index % 5 + 1;
      var a, b := ratios[index % 5], ratios[index % 5 + 1];
      assert a < b;
      assert root * a < root * b;
      assert (root * a) * p < (root * b) * p;
    } else {
      assert (index + 1) / 5 == index / 5 + 1 && (index + 1) % 5 == 0;
      Pow2Succ(index / 5);
      assert Pitch(index + 1, scale, root) == (root * 1.0) * (2.0 * p);
      assert ratios[4] < 2.0;
      assert root * ratios[4] < root * 2.0;
      assert (root * ratios[4]) * p < (root * 2.0) * p;
    }
  }

  /** For a positive root the quantiser is strictly increasing in the step index. */
  lemma {:induction false} PitchIncreasing(i: nat, j: nat, scale: AudioScale, root: real)
    requires root > 0.0 && i < j
    ensures Pitch(i, scale, root) < Pitch(j, scale, root)
    decreases j - i
  {
    PitchStep(i, scale, root);
    if i + 1 < j {
      PitchIncreasing(i + 1, j, scale, root);
    }
  }

  /** The stereo position of a voice: 2·panX − 1 clamped to [−1, 1]. */
  function Pan(panX: real): (p: real)
    ensures -1.0 <= p <= 1.0
    ensures p == 2.0 * panX - 1.0 <==> 0.0 <= panX <= 1.0
  {
    var raw := panX * 2.0 - 1.0;
    if raw > 1.0 then 1.0 else if raw < -1.0 then -1.0 else raw
  }

  /** A voice scheduled by a ping, with the effect sends it is connected to. */
  datatype Voice = Voice(freq: real, pan: real, wave: Waveform, reverbSend: bool, delaySend: bool)

  /** The frequency above which a voice also feeds the delay line. */
  const DelayThreshold: real := 400.0

  /** The voice a ping produces when the reverb and delay nodes are (or are not)
      present: always the reverb send when it exists, the delay send only for
      frequencies above the threshold. */
  function Route(freq: real, panX: real, wave: Waveform, hasReverb: bool, hasDelay: bool): (v: Voice)
    ensures v.freq == freq && v.wave == wave && v.pan == Pan(panX)
    ensures v.reverbSend <==> hasReverb
    ensures v.delaySend <==> hasDelay && freq > DelayThreshold
  {
    Voice(freq, Pan(panX), wave, hasReverb, hasDelay && freq > DelayThreshold)
  }

  /** The engine singleton. Each flag says whether the corresponding audio node
      exists; `voices` lists the voices scheduled so far and `filterSetting` the
      last value given to the expressive filter (None: the filter is still at
      its open default). */
  class AudioEngine {
    var ctx: bool
    var masterGain: bool
    var masterFilter: bool
    var analyser: bool
    var reverbNode: bool
    var delayNode: bool
    var voices: seq<Voice>
    var filterSetting: Option<real>

    /** The graph is either entirely absent or entirely built. */
    ghost predicate Valid()
      reads this
    {
      && (masterGain <==> ctx)
      && (masterFilter <==> ctx)
      && (analyser <==> ctx)
      && (reverbNode <==> ctx)
      && (delayNode <==> ctx)
    }

    constructor ()
      ensures Valid() && !ctx
      ensures voices == [] && filterSetting == None
    {
      ctx, masterGain, masterFilter, analyser, reverbNode, delayNode := false, false, false, false, false, false;
      voices := [];
      filterSetting := None;
    }

    /** Builds the graph on the first call; every later call returns at once. */
    method Init()
      requires Valid()
      modifies this
      ensures Valid() && ctx
      ensures old(ctx) ==> unchanged(this)
      ensures voices == old(voices) && filterSetting == old(filterSetting)
    {
      if ctx {
        return;
      }
      ctx := true;
      masterGain := true;
      masterFilter := true;
      analyser := true;
      reverbNode := true;
      delayNode := true;
    }

    /** Schedules one voice; before the graph exists nothing happens. */
    method PlayPing(freq: real, panX: real, wave: Waveform)
      requires Valid()
      modifies this`voices
      ensures !ctx ==> voices == old(voices)
      ensures ctx ==> voices == old(voices) + [Route(freq, panX, wave, reverbNode, delayNode)]
      ensures ctx ==> voices[|voices| - 1].reverbSend
      ensures ctx ==> (voices[|voices| - 1].delaySend <==> freq > DelayThreshold)
    {
      if !ctx || !masterGain {
        return;
      }
      voices := voices + [Route(freq, panX, wave, reverbNode, delayNode)];
    }

    /** Retargets the expressive filter; before the graph exists nothing happens. */
    method SetExpressiveFilter(value: real)
      requires Valid()
      modifies this`filterSetting
      ensures !ctx ==> filterSetting == old(filterSetting)
      ensures ctx ==> filterSetting == Some(value)
    {
      if !masterFilter || !ctx {
        return;
      }
      filterSetting := Some(value);
    }
  }
}

/** The radar sequencer: the unified add-or-remove tap, preset save and load,
    and the per-frame scan-line sweep that triggers nodes on a rising edge. */
module Console {
  import opened Types
  import opened Audio

  /** Math.PI, written as the shortest decimal that rounds to the double Math.PI. */
  const Pi: real := 3.141592653589793
  const TwoPi: real := 2.0 * Pi

  /** Number of pitch steps the canvas height is divided into. */
  const Steps: int := 15

  function Abs(r: real): real
  {
    if r < 0.0 then -r else r
  }

  /** The default configuration the chamber starts with. */
  const DefaultConfig: ConsoleConfig := ConsoleConfig(Pentatonic, Sine, 1.0)

  // ---------------------------------------------------------------------------
  // Tap: remove the first node hit, or append one new node.
  // ---------------------------------------------------------------------------

  /** The hit radius in normalised units: 30 pixels of a canvas `width` wide. */
  function HitThreshold(width: real): real
    requires width > 0.0
  {
    30.0 / width
  }

  /** A node is hit when its distance to the tap is below the threshold. The
      distances are compared squared: for a positive threshold,
      sqrt(d) < t exactly when d < t·t. */
  predicate Hits(node: AudioNodeData, x: real, y: real, threshold: real)
  {
    var dx := node.x - x;
    var dy := node.y - y;
    dx * dx + dy * dy < threshold * threshold
  }

  /** Array findIndex with the hit predicate: the first node hit, or -1. */
  function FindHit(nodes: seq<AudioNodeData>, x: real, y: real, threshold: real): (k: int)
    ensures -1 <= k < |nodes|
    decreases |nodes|
  {
    if nodes == [] then -1
    else if Hits(nodes[0], x, y, threshold) then 0
    else
      var k := FindHit(nodes[1..], x, y, threshold);
      if k == -1 then -1 else k + 1
  }

  /** The search fails exactly when no node is hit, and otherwise returns the
      first node hit. */
  lemma {:induction false} FindHitMeaning(nodes: seq<AudioNodeData>, x: real, y: real, threshold: real)
    ensures var k := FindHit(nodes, x, y, threshold);
      && (k == -1 <==> forall i :: 0 <= i < |nodes| ==> !Hits(nodes[i], x, y, threshold))
      && (k >= 0 ==> Hits(nodes[k], x, y, threshold))
      && (k >= 0 ==> forall i :: 0 <= i < k ==> !Hits(nodes[i], x, y, threshold))
    decreases |nodes|
  {
    if nodes != [] && !Hits(nodes[0], x, y, threshold) {
      FindHitMeaning(nodes[1..], x, y, threshold);
      assert forall i :: 1 <= i < |nodes| ==> nodes[i] == nodes[1..][i - 1];
    }
  }

  /** The pitch step of a tap at normalised height y (0 is the top edge). */
  function StepIndex(y: real): (k: int)
    ensures 0.0 <= y <= 1.0 ==> 0 <= k <= Steps
    ensures y == 0.0 ==> k == Steps
    ensures y == 1.0 ==> k == 0
  {
    ((1.0 - y) * Steps as real).Floor
  }

  /** A tap lower on the canvas never gets a higher step. */
  lemma StepIndexMonotone(y1: real, y2: real)
    requires y1 <= y2
    ensures StepIndex(y2) <= StepIndex(y1)
  {
    assert (1.0 - y2) * 15.0 <= (1.0 - y1) * 15.0;
  }

  /** The root frequency the tap handler uses for a scale. */
  function RootFor(scale: AudioScale): real
  {
    if scale == Phrygian then 80.0 else 110.0
  }

  /** The frequency given to a node created by a tap at height y. */
  function TapFrequency(y: real, config: ConsoleConfig, rnd: real): real
    requires 0.0 <= y <= 1.0
  {
    NoteFrequency(StepIndex(y), config.scale, RootFor(config.scale), rnd).value
  }

  /** The frequency of a tapped node is the deterministic pitch of its step
      times the detune factor. */
  lemma TapFrequencyIsPitch(y: real, config: ConsoleConfig, rnd: real)
    requires 0.0 <= y <= 1.0
    ensures TapFrequency(y, config, rnd) == Pitch(StepIndex(y), config.scale, RootFor(config.scale)) * Detune(rnd)
  {
  }

  /** Detuning by the same positive factor keeps the order of two steps' pitches. */
  lemma ScaledStepsOrder(k1: nat, k2: nat, scale: AudioScale, d: real, f1: real, f2: real)
    requires d > 0.0 && k2 <= k1
    requires f1 == Pitch(k1, scale, RootFor(scale)) * d
    requires f2 == Pitch(k2, scale, RootFor(scale)) * d
    ensures f2 <= f1
    ensures k2 < k1 ==> f2 < f1
  {
    if k2 < k1 {
      var root := RootFor(scale);
      PitchIncreasing(k2, k1, scale, root);
      ScaleByPositive(Pitch(k2, scale, root), Pitch(k1, scale, root), d);
    } else {
      assert k1 == k2;
      assert f1 == f2;
    }
  }

  lemma ScaleByPositive(a: real, b: real, d: real)
    requires a < b && d > 0.0
    ensures a * d < b * d
  {
  }

  /** Two steps' pitches detuned by the same random draw keep the steps' order. */
  lemma StepsToFrequencies(k1: nat, k2: nat, scale: AudioScale, rnd: real, f1: real, f2: real)
    requires 0.0 <= rnd < 1.0 && k2 <= k1
    requires f1 == Pitch(k1, scale, RootFor(scale)) * Detune(rnd)
    requires f2 == Pitch(k2, scale, RootFor(scale)) * Detune(rnd)
    ensures f2 <= f1
    ensures k2 < k1 ==> f2 < f1
  {
    ScaledStepsOrder(k1, k2, scale, Detune(rnd), f1, f2);
  }

  /** The quantiser's detuned frequencies of two steps keep the steps' order. */
  lemma QuantisedStepsOrder(k1: nat, k2: nat, scale: AudioScale, rnd: real, f1: real, f2: real)
    requires 0.0 <= rnd < 1.0 && k2 <= k1
    requires f1 == NoteFrequency(k1, scale, RootFor(scale), rnd).value
    requires f2 == NoteFrequency(k2, scale, RootFor(scale), rnd).value
    ensures f2 <= f1
    ensures k2 < k1 ==> f2 < f1
  {
    QuantisedIsPitch(k1, scale, rnd, f1);
    QuantisedIsPitch(k2, scale, rnd, f2);
    StepsToFrequencies(k1, k2, scale, rnd, f1, f2);
  }

  /** For a step index the quantiser always yields a number: the step's pitch detuned. */
  lemma QuantisedIsPitch(k: nat, scale: AudioScale, rnd: real, f: real)
    requires f == NoteFrequency(k, scale, RootFor(scale), rnd).value
    ensures f == Pitch(k, scale, RootFor(scale)) * Detune(rnd)
  {
    NoteFrequencyValue(k, scale, RootFor(scale), rnd);
  }

  /** Same random draw, higher tap: never a lower pitch, and a strictly higher
      one whenever the taps fall in different steps. */
  lemma TapPitchMonotone(y1: real, y2: real, config: ConsoleConfig, rnd: real)
    requires 0.0 <= y1 <= y2 <= 1.0 && 0.0 <= rnd < 1.0
    ensures TapFrequency(y2, config, rnd) <= TapFrequency(y1, config, rnd)
    ensures StepIndex(y2) < StepIndex(y1) ==> TapFrequency(y2, config, rnd) < TapFrequency(y1, config, rnd)
  {
    StepIndexMonotone(y1, y2);
    QuantisedStepsOrder(StepIndex(y1), StepIndex(y2), config.scale, rnd,
                        TapFrequency(y1, config, rnd), TapFrequency(y2, config, rnd));
  }

  /** The outcome of a tap: the new node list and the ping it plays, if any. */
  datatype TapResult = TapResult(nodes: seq<AudioNodeData>, ping: Option<Ping>)

  /** The unified tap handler at normalised (x, y). `rnd` is the random draw of
      the detune and `id` the random identifier a new node gets. */
  function HandleTap(nodes: seq<AudioNodeData>, x: real, y: real, width: real,
                     config: ConsoleConfig, rnd: real, id: string): (t: TapResult)
    requires width > 0.0 && 0.0 <= y <= 1.0
    ensures t.ping.None? <==> exists i :: 0 <= i < |nodes| && Hits(nodes[i], x, y, HitThreshold(width))
    ensures t.ping.None? ==> |t.nodes| == |nodes| - 1
    ensures t.ping.Some? ==>
      && |t.nodes| == |nodes| + 1 && t.nodes[..|nodes|] == nodes
      && t.ping.value == Ping(t.nodes[|nodes|].frequency, x, config.waveform)
  {
    FindHitMeaning(nodes, x, y, HitThreshold(width));
    var hitIndex := FindHit(nodes, x, y, HitThreshold(width));
    if hitIndex != -1 then
      TapResult(nodes[..hitIndex] + nodes[hitIndex + 1..], None)
    else
      var freq := TapFrequency(y, config, rnd);
      TapResult(nodes + [AudioNodeData(id, x, y, false, freq, 0.0)], Some(Ping(freq, x, config.waveform)))
  }

  /** A tap near some node removes exactly the first node hit: one node fewer,
      nothing added, the others in their original order. */
  lemma TapRemovesFirstHit(nodes: seq<AudioNodeData>, x: real, y: real, width: real,
                                              config: ConsoleConfig, rnd: real, id: string, k: int)
    requires width > 0.0 && 0.0 <= y <= 1.0
    requires 0 <= k < |nodes| && Hits(nodes[k], x, y, HitThreshold(width))
    requires forall i :: 0 <= i < k ==> !Hits(nodes[i], x, y, HitThreshold(width))
    ensures HandleTap(nodes, x, y, width, config, rnd, id).nodes == nodes[..k] + nodes[k + 1..]
    ensures |HandleTap(nodes, x, y, width, config, rnd, id).nodes| == |nodes| - 1
    ensures HandleTap(nodes, x, y, width, config, rnd, id).ping == None
  {
    FindHitMeaning(nodes, x, y, HitThreshold(width));
  }

  /** A tap away from every node appends exactly one inactive node whose pitch
      comes from the tap height, and keeps every existing node. */
  lemma TapAppendsOne(nodes: seq<AudioNodeData>, x: real, y: real, width: real,
                      config: ConsoleConfig, rnd: real, id: string)
    requires width > 0.0 && 0.0 <= y <= 1.0
    requires forall i :: 0 <= i < |nodes| ==> !Hits(nodes[i], x, y, HitThreshold(width))
    ensures var t := HandleTap(nodes, x, y, width, config, rnd, id);
      && |t.nodes| == |nodes| + 1
      && t.nodes[..|nodes|] == nodes
      && !t.nodes[|nodes|].active && t.nodes[|nodes|].life == 0.0
      && t.nodes[|nodes|].x == x && t.nodes[|nodes|].y == y
      && t.nodes[|nodes|].frequency == TapFrequency(y, config, rnd)
      && t.ping == Some(Ping(TapFrequency(y, config, rnd), x, config.waveform))
  {
    FindHitMeaning(nodes, x, y, HitThreshold(width));
  }

  // ---------------------------------------------------------------------------
  // Presets.
  // ---------------------------------------------------------------------------

  /** A saved preset document. */
  datatype PresetDoc = PresetDoc(version: int, timestamp: int, config: ConsoleConfig, nodes: seq<AudioNodeData>)

  /** A node with its transient runtime fields neutralised. */
  function Neutral(n: AudioNodeData): AudioNodeData
  {
    n.(active := false, life := 0.0)
  }

  /** Snapshot of the configuration and the node list at time `now`. */
  function SavePreset(config: ConsoleConfig, nodes: seq<AudioNodeData>, now: int): (doc: PresetDoc)
    ensures doc.version == 1 && doc.timestamp == now && doc.config == config
    ensures |doc.nodes| == |nodes|
    ensures forall i :: 0 <= i < |nodes| ==>
      && doc.nodes[i].id == nodes[i].id && doc.nodes[i].x == nodes[i].x
      && doc.nodes[i].y == nodes[i].y && doc.nodes[i].frequency == nodes[i].frequency
      && !doc.nodes[i].active && doc.nodes[i].life == 0.0
  {
    PresetDoc(1, now, config, seq(|nodes|, i requires 0 <= i < |nodes| => Neutral(nodes[i])))
  }

  /** What a preset file reads as: either text that does not parse, or a
      document whose `nodes` field is an array (Some) or missing / not an
      array (None), and whose `config` field is present (Some) or absent (None). */
  datatype PresetFile =
    | Unparsable
    | Parsed(nodes: Option<seq<AudioNodeData>>, config: Option<ConsoleConfig>)

  /** A saved document written out and read back. */
  function Reread(doc: PresetDoc): PresetFile
  {
    Parsed(Some(doc.nodes), Some(doc.config))
  }

  /** The chamber state after a load, and whether the user was told the file is invalid. */
  datatype Loaded = Loaded(nodes: seq<AudioNodeData>, config: ConsoleConfig, invalid: bool)

  function LoadPreset(file: PresetFile, nodes: seq<AudioNodeData>, config: ConsoleConfig): (l: Loaded)
    ensures l.nodes == nodes || (file.Parsed? && file.nodes == Some(l.nodes))
    ensures l.config == config || (file.Parsed? && file.config == Some(l.config))
  {
    match file
    case Unparsable => Loaded(nodes, config, true)
    case Parsed(ns, cfg) =>
      Loaded(if ns.Some? then ns.value else nodes, if cfg.Some? then cfg.value else config, false)
  }

  /** Loading replaces each part only when the file supplies it, and a file
      that does not parse leaves both parts unchanged. */
  lemma LoadReplacesOnlyPresentParts(file: PresetFile, nodes: seq<AudioNodeData>, config: ConsoleConfig)
    ensures var l := LoadPreset(file, nodes, config);
      && (l.invalid <==> file.Unparsable?)
      && (file.Unparsable? ==> l.nodes == nodes && l.config == config)
      && (file.Parsed? && file.nodes.Some? ==> l.nodes == file.nodes.value)
      && (file.Parsed? && file.nodes.None? ==> l.nodes == nodes)
      && (file.Parsed? && file.config.Some? ==> l.config == file.config.value)
      && (file.Parsed? && file.config.None? ==> l.config == config)
  {
  }

  /** Saving then loading restores the configuration and every node's id,
      position and frequency, with the transient fields reset, whatever the
      current state was. */
  lemma PresetRoundTrip(config: ConsoleConfig, nodes: seq<AudioNodeData>, now: int,
                        current: seq<AudioNodeData>, currentConfig: ConsoleConfig)
    ensures var l := LoadPreset(Reread(SavePreset(config, nodes, now)), current, currentConfig);
      && !l.invalid && l.config == config && |l.nodes| == |nodes|
      && forall i :: 0 <= i < |nodes| ==> l.nodes[i] == Neutral(nodes[i])
  {
  }

  /** Saving what a saved preset loads gives the same nodes again. */
  lemma {:induction false} SaveIsIdempotent(config: ConsoleConfig, nodes: seq<AudioNodeData>, t1: int, t2: int)
    ensures var once := SavePreset(config, nodes, t1);
      SavePreset(config, LoadPreset(Reread(once), [], config).nodes, t2).nodes == once.nodes
  {
    var once := SavePreset(config, nodes, t1);
    var twice := SavePreset(config, LoadPreset(Reread(once), [], config).nodes, t2);
    assert |twice.nodes| == |once.nodes|;
    forall i | 0 <= i < |once.nodes|
      ensures twice.nodes[i] == once.nodes[i]
    {
    }
  }

  // ---------------------------------------------------------------------------
  // Scan lines and the per-node trigger state machine.
  // ---------------------------------------------------------------------------

  /** One frame's advance of a scan angle, wrapped once past a full turn. */
  function Advance(angle: real, inc: real): (a: real)
    ensures 0.0 <= angle <= TwoPi && 0.0 <= inc <= TwoPi ==> 0.0 <= a <= TwoPi
    ensures a == angle + inc || a == angle + inc - TwoPi
  {
    var next := angle + inc;
    if next > TwoPi then next - TwoPi else next
  }

  /** A node after one frame, and whether it triggered during that frame. */
  datatype NodeTick = NodeTick(node: AudioNodeData, triggered: bool)

  /** The per-node update as written: the angular differences are plain
      absolute differences (not circular), a trigger needs an inactive node
      within 0.05 of either scan line, `active` clears only when both lines are
      more than 0.2 away, and life decays by 0.05 while positive. */
  function NodeUpdate(node: AudioNodeData, angle1: real, angle2: real, theta: real): (r: NodeTick)
    ensures r.triggered <==> !node.active && (Abs(angle1 - theta) < 0.05 || Abs(angle2 - theta) < 0.05)
    ensures r.triggered ==> r.node.active && r.node.life == 0.95
    ensures !r.triggered ==> (r.node.active <==> node.active && !(Abs(angle1 - theta) > 0.2 && Abs(angle2 - theta) > 0.2))
    ensures !r.triggered ==> r.node.life == (if node.life > 0.0 then node.life - 0.05 else node.life)
    ensures r.node.id == node.id && r.node.x == node.x && r.node.y == node.y
    ensures r.node.frequency == node.frequency
  {
    var triggered := (Abs(angle1 - theta) < 0.05 && !node.active) || (Abs(angle2 - theta) < 0.05 && !node.active);
    var cleared := if Abs(angle1 - theta) > 0.2 && Abs(angle2 - theta) > 0.2 then node.(active := false) else node;
    var fired := if triggered then cleared.(active := true, life := 1.0) else cleared;
    var decayed := if fired.life > 0.0 then fired.(life := fired.life - 0.05) else fired;
    NodeTick(decayed, triggered)
  }

  /** An active node never re-triggers, however close a scan line is. */
  lemma ActiveNeverRetriggers(node: AudioNodeData, angle1: real, angle2: real, theta: real)
    requires node.active
    ensures !NodeUpdate(node, angle1, angle2, theta).triggered
  {
  }

  /** A node that stays within 0.2 of a scan line keeps the rising edge armed:
      it stays active and does not trigger again on the next frame. */
  lemma {:induction false} EdgeHeldWhileNear(node: AudioNodeData, a1: real, a2: real, b1: real, b2: real, theta: real)
    requires NodeUpdate(node, a1, a2, theta).triggered
    requires Abs(b1 - theta) <= 0.2 || Abs(b2 - theta) <= 0.2
    ensures NodeUpdate(NodeUpdate(node, a1, a2, theta).node, b1, b2, theta).node.active
    ensures !NodeUpdate(NodeUpdate(node, a1, a2, theta).node, b1, b2, theta).triggered
  {
    var first := NodeUpdate(node, a1, a2, theta);
    assert first.node.active;
    var second := NodeUpdate(first.node, b1, b2, theta);
    assert !second.triggered;
  }

  /** The edge re-arms: an active node with both scan lines more than 0.2 away
      becomes inactive, and it then triggers again, with life 0.95, on a later
      frame that brings a scan line back within 0.05. */
  lemma {:induction false} ReArmThenRetrigger(node: AudioNodeData, a1: real, a2: real, b1: real, b2: real, theta: real)
    requires node.active
    requires Abs(a1 - theta) > 0.2 && Abs(a2 - theta) > 0.2
    requires Abs(b1 - theta) < 0.05 || Abs(b2 - theta) < 0.05
    ensures !NodeUpdate(node, a1, a2, theta).node.active
    ensures NodeUpdate(NodeUpdate(node, a1, a2, theta).node, b1, b2, theta).triggered
    ensures NodeUpdate(NodeUpdate(node, a1, a2, theta).node, b1, b2, theta).node.life == 0.95
  {
    var first := NodeUpdate(node, a1, a2, theta);
    ActiveNeverRetriggers(node, a1, a2, theta);
    assert !first.node.active;
    var second := NodeUpdate(first.node, b1, b2, theta);
    assert second.triggered;
  }

  /** The pings the triggered nodes of a frame play, in node order. */
  function FramePings(nodes: seq<AudioNodeData>, thetas: seq<real>, angle1: real, angle2: real, wave: Waveform): (ps: seq<Ping>)
    requires |thetas| == |nodes|
    ensures |ps| <= |nodes|
    decreases |nodes|
  {
    if nodes == [] then []
    else
      var n := |nodes| - 1;
      FramePings(nodes[..n], thetas[..n], angle1, angle2, wave)
      + (if NodeUpdate(nodes[n], angle1, angle2, thetas[n]).triggered then [Ping(nodes[n].frequency, nodes[n].x, wave)] else [])
  }

  /** One node of a frame's sweep: node i is updated in place and, when it
      triggers, its ping joins the frame's pings. */
  method ScanNode(ns0: seq<AudioNodeData>, thetas: seq<real>, i: nat, ns: seq<AudioNodeData>, pings: seq<Ping>,
                  a1: real, a2: real, wave: Waveform)
    returns (ns': seq<AudioNodeData>, pings': seq<Ping>)
    requires i < |ns| == |ns0| == |thetas|
    requires forall j :: 0 <= j < i ==> ns[j] == NodeUpdate(ns0[j], a1, a2, thetas[j]).node
    requires forall j :: i <= j < |ns| ==> ns[j] == ns0[j]
    requires pings == FramePings(ns0[..i], thetas[..i], a1, a2, wave)
    ensures |ns'| == |ns0|
    ensures forall j :: 0 <= j <= i ==> ns'[j] == NodeUpdate(ns0[j], a1, a2, thetas[j]).node
    ensures forall j :: i < j < |ns'| ==> ns'[j] == ns0[j]
    ensures pings' == FramePings(ns0[..i + 1], thetas[..i + 1], a1, a2, wave)
  {
    var tick := NodeUpdate(ns[i], a1, a2, thetas[i]);
    pings' := if tick.triggered then pings + [Ping(ns[i].frequency, ns[i].x, wave)] else pings;
    assert ns0[..i + 1][..i] == ns0[..i] && thetas[..i + 1][..i] == thetas[..i];
    ns' := ns[i := tick.node];
  }

  /** A frame in which every node is already active plays nothing. */
  lemma {:induction false} AllActiveSilent(nodes: seq<AudioNodeData>, thetas: seq<real>, angle1: real, angle2: real, wave: Waveform)
    requires |thetas| == |nodes|
    requires forall i :: 0 <= i < |nodes| ==> nodes[i].active
    ensures FramePings(nodes, thetas, angle1, angle2, wave) == []
    decreases |nodes|
  {
    if nodes != [] {
      var n := |nodes| - 1;
      AllActiveSilent(nodes[..n], thetas[..n], angle1, angle2, wave);
      ActiveNeverRetriggers(nodes[n], angle1, angle2, thetas[n]);
    }
  }

  /** The sequencer's state: the node list, the configuration, and the two
      scan angles of the running animation. The animation restarts with the
      angles at 0 and π whenever the node list or the configuration is
      replaced, because the render effect depends on both. */
  class Radar {
    var nodes: seq<AudioNodeData>
    var config: ConsoleConfig
    var angle1: real
    var angle2: real

    ghost predicate AnglesInTurn()
      reads this
    {
      0.0 <= angle1 <= TwoPi && 0.0 <= angle2 <= TwoPi
    }

    constructor ()
      ensures nodes == [] && config == DefaultConfig
      ensures angle1 == 0.0 && angle2 == Pi && AnglesInTurn()
    {
      nodes := [];
      config := DefaultConfig;
      angle1, angle2 := 0.0, Pi;
    }

    /** A tap at normalised (x, y) on a canvas `width` pixels wide. */
    method Tap(x: real, y: real, width: real, rnd: real, id: string) returns (ping: Option<Ping>)
      requires width > 0.0 && 0.0 <= y <= 1.0
      modifies this
      ensures TapResult(nodes, ping) == HandleTap(old(nodes), x, y, width, config, rnd, id)
      ensures config == old(config)
      ensures angle1 == 0.0 && angle2 == Pi && AnglesInTurn()
    {
      var t := HandleTap(nodes, x, y, width, config, rnd, id);
      nodes := t.nodes;
      ping := t.ping;
      angle1, angle2 := 0.0, Pi;
    }

    /** Empties the node list. */
    method ClearNodes()
      modifies this
      ensures nodes == [] && config == old(config)
      ensures angle1 == 0.0 && angle2 == Pi && AnglesInTurn()
    {
      nodes := [];
      angle1, angle2 := 0.0, Pi;
    }

    /** Loads a preset file; returns whether the user is told the file is invalid. */
    method Load(file: PresetFile) returns (invalid: bool)
      modifies this
      ensures nodes == LoadPreset(file, old(nodes), old(config)).nodes
      ensures config == LoadPreset(file, old(nodes), old(config)).config
      ensures invalid == LoadPreset(file, old(nodes), old(config)).invalid
      ensures file.Parsed? && (file.nodes.Some? || file.config.Some?) ==> angle1 == 0.0 && angle2 == Pi
      ensures !(file.Parsed? && (file.nodes.Some? || file.config.Some?)) ==> angle1 == old(angle1) && angle2 == old(angle2)
    {
      var l := LoadPreset(file, nodes, config);
      invalid := l.invalid;
      if file.Parsed? && (file.nodes.Some? || file.config.Some?) {
        nodes, config := l.nodes, l.config;
        angle1, angle2 := 0.0, Pi;
      }
    }

    /** One animation frame: both scan angles advance, then every node runs its
      trigger update in list order. `thetas[i]` is node i's angle from the
      canvas centre, in [0, 2π). Returns the pings of the triggered nodes. */
    method Frame(thetas: seq<real>) returns (pings: seq<Ping>)
      requires |thetas| == |nodes|
      modifies this`nodes, this`angle1, this`angle2
      ensures angle1 == Advance(old(angle1), 0.02 * config.tempo)
      ensures angle2 == Advance(old(angle2), 0.03 * config.tempo)
      ensures old(AnglesInTurn()) && 0.0 <= 0.03 * config.tempo <= TwoPi ==> AnglesInTurn()
      ensures config == old(config) && |nodes| == |old(nodes)|
      ensures forall i :: 0 <= i < |nodes| ==> nodes[i] == NodeUpdate(old(nodes)[i], angle1, angle2, thetas[i]).node
      ensures pings == FramePings(old(nodes), thetas, angle1, angle2, config.waveform)
    {
      var a1 := Advance(angle1, 0.02 * config.tempo);
      var a2 := Advance(angle2, 0.03 * config.tempo);
      var wave := config.waveform;
      var ns0 := nodes;
      var ns := ns0;
      pings := [];
      var i := 0;
      while i < |ns|
        invariant 0 <= i <= |ns| == |ns0|
        invariant forall j :: 0 <= j < i ==> ns[j] == NodeUpdate(ns0[j], a1, a2, thetas[j]).node
        invariant forall j :: i <= j < |ns| ==> ns[j] == ns0[j]
        invariant pings == FramePings(ns0[..i], thetas[..i], a1, a2, wave)
      {
        ns, pings := ScanNode(ns0, thetas, i, ns, pings, a1, a2, wave);
        i := i + 1;
      }
      angle1, angle2, nodes := a1, a2, ns;
      assert ns0[..i] == ns0 && thetas[..i] == thetas;
    }
  }
}

# Sensorium chambers: a Dafny model

This project models the decision logic of an interactive canvas and Web Audio
installation. It has an audio engine and four "chambers" that turn touches,
tracked hands, camera frames and the audio spectrum into sound and pictures.
The model keeps the logic that can be stated and checked. Drawing calls and
browser plumbing are not part of it.

- `types.dfy` (`Types`): the record shapes shared by the chambers (a node of the
  sequencer, its configuration, an ink particle, a ping), plus `Option` and an
  8-bit `Byte`.
- `audio_service.dfy` (`Audio`): the pitch quantiser `root × ratio × 2^octave × detune`
  over three five-note scale tables, including JavaScript's truncating `%` and
  the NaN that a negative step produces. It also has the pan clamp, the
  effect-send routing of a voice, and the engine object (`AudioEngine`). That
  object builds its graph only once and ignores pings and filter changes until
  then.
- `console.dfy` (`Console`): the radar sequencer. A tap removes the first node
  it hits or appends a new node whose pitch comes from the tap height. Presets
  are saved with the transient fields blanked and loaded part by part. Two scan
  lines advance and wrap each frame, and every node runs an edge-triggered
  `active`/`life` state machine against them (`Radar`).
- `tattoo_ink.dfy` (`Ink`): the ink harp.
  - Pointers live in an insertion-ordered map (a JavaScript `Map`, modelled as
    a sequence of entries). The hand path and the touch path insert and update
    pointers under different rules.
  - A pointer's height is quantised into ten lanes, and a pointer that changes
    lane plays one tone.
  - The particle buffer is appended to, aged in a backward splice loop, and
    capped at the newest 1500 (`InkChamber`).
- `bio_mesh.dfy` (`BioMesh`): the ASCII digitiser.
  - The glyph size and grid come from the density and the canvas width.
  - The camera frame is shrunk to one pixel per cell and read mirrored from a
    row-major RGBA buffer.
  - A cell brighter than 20 is drawn as a glyph from a ten-step ramp, coloured
    by the palette. The render pass is a nested loop (`Digitiser`).
- `spectrum.dfy` (`Spectrum`): the particle field.
  - A 50×30 or 100×60 lattice of particles is anchored at slot centres.
  - Each frame finds the nearest hand pointer (the first one on ties) and
    kicks a particle when that pointer is within reach. A spring-damper then
    pulls the particle back towards its rest position, lifted by the level of
    its spectrum bin.
  - The bass level is the mean of the lowest 20 bins. The pointers' mean
    height sets the engine's expressive filter (`ParticleField`).

Random draws, square roots and the direction of an impulse (cos and sin of an
atan2) are parameters of the operations that use them. Distances are compared
squared. Numbers are exact reals: no claim here depends on double-precision
rounding.

Points of the code's behaviour that the model keeps as written:
- A sequencer tap at normalised height y gets step `floor((1 − y) · 15)`. The
  top edge (y = 0) is step 15 and the bottom edge is step 0, which gives sixteen
  steps.
- The particle spring pulls towards `(baseX, baseY − displacement)`, where the
  displacement comes from the particle's spectrum bin.
- A touch pointer seen for the first time is armed at the unclamped lane index.
  At the very top edge that index is 10, one past the top lane, so the pointer
  plays the top lane's tone on its first frame without crossing a line
  (`Ink.NewTouchAtTopSounds`). The hand path clamps the index, so a new hand
  stays silent (`Ink.NewHandIsSilent`).
- With no hand in view, the ink chamber clears its pointer map only when a
  random draw exceeds 0.9.

## Model

| member | source | states |
|---|---|---|
| Audio.Ratios | services/audioService.ts:105-109 | every scale table has exactly five ratios |
| Audio.RatiosAscending | services/audioService.ts:105-109 | each table starts at 1, rises strictly, and its last ratio is below 2 |
| Audio.JsRem | services/audioService.ts:113 | JavaScript `%` equals the mathematical remainder for a non-negative index and lies in (−5, 0] for a negative one |
| Audio.Detune | services/audioService.ts:115 | a uniform draw in [0,1) gives a detune factor in [0.995, 1.005), and a draw of 0.5 gives exactly 1 |
| Audio.NoteFrequency | services/audioService.ts:104-118 | the quantiser yields a number exactly when the index is non-negative or a multiple of 5; otherwise (the negative-index branch, `Audio.BelowRoot`) the ratio lookup misses and the result is NaN |
| Audio.BelowRoot | services/audioService.ts:112-117 | for a negative index the quantiser yields a number exactly when the index is a multiple of 5, and then it is the root shifted down by whole octaves (floored quotient), detuned; any other negative index misses the ratio table |
| Audio.NoteFrequencyValue | services/audioService.ts:111-117 | a non-negative index yields root × ratio[index mod 5] × 2^(index div 5) × detune; a negative multiple of 5 yields the root shifted down by whole octaves |
| Audio.PitchBaseOctave | services/audioService.ts:112-117 | with detune removed, steps 0 to 4 are the root times the scale table's ratios |
| Audio.PitchRootOctaves | services/audioService.ts:112-117 | with detune removed, step 5k is the root times 2^k |
| Audio.OctaveDoubling | services/audioService.ts:111-117 | with detune removed, five steps up doubles the frequency |
| Audio.PitchPositive | services/audioService.ts:117 | with detune removed, a positive root gives a positive frequency |
| Audio.PitchIncreasing | services/audioService.ts:105-117 | with detune removed and a positive root, the frequency strictly increases with the step index, including across octave boundaries |
| Audio.Pan | services/audioService.ts:135 | the pan always lies in [−1, 1], and equals 2·panX − 1 exactly when panX lies in [0, 1] |
| Audio.Route | services/audioService.ts:135-144 | a voice keeps its frequency and waveform, gets the clamped pan, feeds the reverb exactly when the reverb exists, and feeds the delay exactly when the delay exists and freq > 400 |
| Audio.AudioEngine.constructor | services/audioService.ts:4-9 | a new engine has no graph, no voices and an untouched filter |
| Audio.AudioEngine.Init | services/audioService.ts:11-25 | after init the whole graph exists; once the context exists, a further call changes no field |
| Audio.AudioEngine.PlayPing | services/audioService.ts:120-144 | before init nothing is scheduled; afterwards exactly one routed voice is appended, always sent to the reverb and sent to the delay exactly when freq > 400 |
| Audio.AudioEngine.SetExpressiveFilter | services/audioService.ts:84-92 | before init the filter is left alone; afterwards it is set to the given value |
| Console.FindHit | components/chambers/Console.tsx:78-82 | the search returns −1 or an index of the list |
| Console.FindHitMeaning | components/chambers/Console.tsx:78-82 | the search returns −1 exactly when no node is within the threshold; otherwise it returns a node that is hit, and no earlier node is hit |
| Console.StepIndex | components/chambers/Console.tsx:91-92 | for y in [0,1] the step lies in [0, 15]; it is 15 at the top edge and 0 at the bottom edge |
| Console.StepIndexMonotone | components/chambers/Console.tsx:91-92 | a lower tap never gets a higher step |
| Console.TapFrequencyIsPitch | components/chambers/Console.tsx:91-95 | a tap's frequency is its step's deterministic pitch at root 80 (phrygian) or 110 (others), times the detune |
| Console.QuantisedStepsOrder | components/chambers/Console.tsx:94-95 | with the same random draw, the quantiser never gives a lower step a higher frequency, and gives a strictly lower step a strictly lower frequency |
| Console.StepsToFrequencies | services/audioService.ts:111-117 | two steps' pitches multiplied by the same detune factor keep the steps' order, strictly for distinct steps |
| Console.TapPitchMonotone | components/chambers/Console.tsx:91-95 | with the same random draw, a higher tap never sounds lower, and sounds strictly higher when it lands on a different step |
| Console.HandleTap | components/chambers/Console.tsx:66-109 | a tap plays nothing exactly when it hits some node, and then the list shrinks by one; otherwise one node is appended after the unchanged list and the ping plays that node's frequency at the tap's x with the configured waveform |
| Console.TapRemovesFirstHit | components/chambers/Console.tsx:76-88 | when some node is hit, the first node hit is removed, the rest keep their order, the list shrinks by one and nothing plays |
| Console.TapAppendsOne | components/chambers/Console.tsx:89-107 | when no node is hit, the old list is kept and exactly one inactive node with life 0 is appended at (x, y), with the quantised frequency of its height; that frequency is played at x |
| Console.SavePreset | components/chambers/Console.tsx:22-28 | a preset has version 1, the save time and the configuration, and the same nodes in the same order with id, position and frequency kept, active false and life 0 |
| Console.LoadPreset | components/chambers/Console.tsx:41-58 | after a load the nodes are either the old nodes or the file's node array, and the configuration either the old one or the file's |
| Console.LoadReplacesOnlyPresentParts | components/chambers/Console.tsx:46-58 | a load replaces the nodes only when the file has a node array and the configuration only when it has one; an unparsable file changes nothing and is reported |
| Console.PresetRoundTrip | components/chambers/Console.tsx:22-58 | loading a saved preset restores its configuration and every node with the transient fields reset, whatever the state before |
| Console.SaveIsIdempotent | components/chambers/Console.tsx:22-28 | saving the nodes that a saved preset loads gives the same nodes again |
| Console.Advance | components/chambers/Console.tsx:171-174 | a scan angle advances by the increment and wraps once past 2π; it stays in [0, 2π] when it starts there and the increment lies in [0, 2π] |
| Console.NodeUpdate | components/chambers/Console.tsx:188-205 | a node triggers exactly when it is inactive and a scan line is within 0.05 of it; a trigger leaves it active with life 0.95; without a trigger it is active afterwards exactly when it was active and not both lines are more than 0.2 away; otherwise life falls by 0.05 while positive; id, position and frequency are kept |
| Console.ActiveNeverRetriggers | components/chambers/Console.tsx:188-193 | an active node never triggers |
| Console.EdgeHeldWhileNear | components/chambers/Console.tsx:188-197 | a node that triggered and still has a scan line within 0.2 on the next frame stays active and does not trigger again |
| Console.ReArmThenRetrigger | components/chambers/Console.tsx:188-205 | an active node with both scan lines more than 0.2 away becomes inactive, and a later frame with a line back within 0.05 triggers it again with life 0.95 |
| Console.FramePings | components/chambers/Console.tsx:179-203 | a frame plays at most one ping per node; `Console.ScanNode` and `Console.Radar.Frame` tie it to the updated nodes, in node order |
| Console.ScanNode | components/chambers/Console.tsx:179-205 | one step of the node loop updates node i in place and appends its ping when it triggers |
| Console.AllActiveSilent | components/chambers/Console.tsx:188-203 | a frame in which every node is active plays nothing |
| Console.Radar.constructor | components/chambers/Console.tsx:9-17 | the sequencer starts with no nodes, the default configuration, and scan angles 0 and π |
| Console.Radar.Tap | components/chambers/Console.tsx:66-109 | the node list and ping are those of the tap rule, the configuration is kept, and the animation restarts at angles 0 and π |
| Console.Radar.ClearNodes | components/chambers/Console.tsx:111 | the node list becomes empty and the configuration is kept |
| Console.Radar.Load | components/chambers/Console.tsx:41-58 | the nodes, configuration and invalid flag are those of the load rule; the animation restarts only when the file replaced something |
| Console.Radar.Frame | components/chambers/Console.tsx:171-205 | both angles advance by 0.02·tempo and 0.03·tempo, wrapping past 2π, and stay in [0, 2π] for tempos up to 2π/0.03; every node is updated in list order against the new angles; the triggered nodes' pings are returned in node order |
| Ink.Lane | components/chambers/TattooInk.tsx:71-72 | the clamped lane always lies in [0, 9] and equals the raw lane whenever that is in range |
| Ink.LaneMonotone | components/chambers/TattooInk.tsx:71-72 | a pointer lower on the canvas is never in a higher lane, before or after clamping |
| Ink.LaneBand | components/chambers/TattooInk.tsx:57-72 | lane k is exactly the band of heights in (h − (k+1)·h/10, h − k·h/10] |
| Ink.ToneFrequency | components/chambers/TattooInk.tsx:195-196 | a lane's tone is 130.81 × its ratio, between the root and four times the root |
| Ink.ToneFrequencyIncreasing | components/chambers/TattooInk.tsx:195-196 | a higher lane always sounds a strictly higher tone |
| Ink.Hue | components/chambers/TattooInk.tsx:205 | the lane hue lies in [0, 252] |
| Ink.Find | components/chambers/TattooInk.tsx:66 | a map lookup returns −1 or the position of an entry carrying the key |
| Ink.FindMeaning | components/chambers/TattooInk.tsx:66 | the lookup fails exactly when no entry carries the key, and otherwise stops at the first entry that does |
| Ink.FindUnique | components/chambers/TattooInk.tsx:66 | with distinct keys, the lookup finds the one entry carrying the key |
| Ink.Get | components/chambers/TattooInk.tsx:66 | a value read by `get` is the pointer of an entry that carries the key |
| Ink.GetMeaning | components/chambers/TattooInk.tsx:66 | `get` is undefined exactly when no entry carries the key, and otherwise reads an entry that does |
| Ink.Put | components/chambers/TattooInk.tsx:77 | `set` keeps an existing key in place and appends a new key last, and leaves every other entry alone |
| Ink.Delete | components/chambers/TattooInk.tsx:290 | `delete` of an absent key changes nothing, and of a present key removes one entry |
| Ink.PutThenGet | components/chambers/TattooInk.tsx:77 | after `set`, the key reads back the new value, other keys read what they read before, and keys stay distinct |
| Ink.DeleteThenGet | components/chambers/TattooInk.tsx:290 | after `delete`, the key is absent, other keys read what they read before, and keys stay distinct |
| Ink.HandUpsert | components/chambers/TattooInk.tsx:65-77 | a new hand id starts with zero velocity, armed at its current lane; a known id gets the displacement since its last sample as velocity and keeps the lane it was last heard in |
| Ink.HandPositions | components/chambers/TattooInk.tsx:61-63 | a landmark at normalised (x, y) maps to the mirrored canvas point ((1 − x)·width, y·height) |
| Ink.HandsApplied | components/chambers/TattooInk.tsx:59-78 | the hand pass never removes an entry and adds at most one per hand; its content, hand i upserting pointer i in hand order, is the loop of `Ink.ApplyHands` |
| Ink.HandsAppliedDistinct | components/chambers/TattooInk.tsx:59-78 | applying a tracker result keeps the map's keys distinct |
| Ink.TouchUpsert | components/chambers/TattooInk.tsx:276-285 | a touch pointer always has zero velocity; a new one is armed at its unclamped touch index, and a known one keeps its last lane |
| Ink.TouchesApplied | components/chambers/TattooInk.tsx:272-287 | a touch move never removes an entry and adds at most one per touch; its content, touch i upserting pointer 100 + i in order, is the loop of `Ink.InkChamber.TouchMove` |
| Ink.TouchesAppliedDistinct | components/chambers/TattooInk.tsx:272-287 | a touch move keeps the map's keys distinct |
| Ink.TouchesEnded | components/chambers/TattooInk.tsx:290 | ending n touches never adds an entry and removes at most n; `Ink.TouchesEndedGet` states its content: exactly ids 100 … 100+n−1 become absent and other keys are unchanged |
| Ink.TouchesEndedDistinct | components/chambers/TattooInk.tsx:290 | ending touches keeps the map's keys distinct |
| Ink.TouchesEndedGet | components/chambers/TattooInk.tsx:289-291 | ending n touches removes exactly the ids 100 … 100+n−1 and leaves every other key's value unchanged |
| Ink.Tone | components/chambers/TattooInk.tsx:192-198 | a pointer plays exactly when its lane differs from the lane it was last heard in and sound is on; the tone is that lane's frequency, panned at x/width |
| Ink.Strum | components/chambers/TattooInk.tsx:192-202 | after the check the pointer is armed at its current lane, whether or not sound is on; its position and velocity are kept |
| Ink.Strummed | components/chambers/TattooInk.tsx:185-202 | the crossing check re-arms every pointer of the map and keeps its key and order |
| Ink.Tones | components/chambers/TattooInk.tsx:185-198 | a frame plays at most one tone per pointer; `Ink.PlayAll` ties them to the pointer pass, in the map's order |
| Ink.NoToneWithoutCrossing | components/chambers/TattooInk.tsx:192-202 | once checked, pointers that have not moved play nothing on the next frame, even if sound was off the first time: one tone per crossing |
| Ink.NewHandIsSilent | components/chambers/TattooInk.tsx:72-77 | a hand seen for the first time plays nothing on its first frame |
| Ink.NewTouchAtTopSounds | components/chambers/TattooInk.tsx:276-280 | a touch seen for the first time at the top edge plays the top lane's tone on its first frame |
| Ink.SpawnRate | components/chambers/TattooInk.tsx:183 | light, medium and heavy spawn 1, 3 and 6 particles |
| Ink.Spawn | components/chambers/TattooInk.tsx:216-225 | a spawned particle has full life and no trail; with draws in [0,1) it lies within 5 px of the pointer and its hue within 10 of the lane hue |
| Ink.SquaredSpeed | components/chambers/TattooInk.tsx:186 | the squared speed is never negative |
| Ink.Burst | components/chambers/TattooInk.tsx:214-227 | a pointer faster than 2 px per frame spawns exactly the spawn rate's count, and a slower one spawns none |
| Ink.Sprays | components/chambers/TattooInk.tsx:215-226 | a burst of count particles has count particles, each with full life and no trail |
| Ink.Spawned | components/chambers/TattooInk.tsx:214-227 | a frame spawns at most the spawn rate's count per pointer; `Ink.PlayAll` ties it to the bursts appended in the map's order, and `Ink.SpawnedFresh` makes every one fresh |
| Ink.SpawnedFresh | components/chambers/TattooInk.tsx:214-227 | every particle a frame spawns starts with full life and an empty trail |
| Ink.TouchesNeverSpawn | components/chambers/TattooInk.tsx:214 | pointers with zero velocity, which is all touch pointers, never spawn particles |
| Ink.Age | components/chambers/TattooInk.tsx:236-241 | aging appends the pre-move position to the trail; a trail already holding 8 points drops its oldest point from the front, so the trail stays within 8; the particle moves by (vx, vy) with velocity, hue and size kept, and life falls by 0.01 |
| Ink.Survivors | components/chambers/TattooInk.tsx:233-246 | the aging pass never grows the buffer |
| Ink.SurvivorsAppend | components/chambers/TattooInk.tsx:233-246 | the survivors of a concatenation are the survivors of each part in order, so aging and removal never reorder particles |
| Ink.SurvivorsAlive | components/chambers/TattooInk.tsx:243-246 | every survivor has positive life |
| Ink.SurvivorsWellFormed | components/chambers/TattooInk.tsx:236-246 | survivors of well-formed particles are well formed: life in (0, 1] and a trail of at most 8 points |
| Ink.Cap | components/chambers/TattooInk.tsx:260-262 | the cap keeps the newest min(n, 1500) particles, in their original order |
| Ink.CrossLane | components/chambers/TattooInk.tsx:188-202 | the imperative crossing check computes the re-armed pointer and the tone of the rule |
| Ink.SpawnBurst | components/chambers/TattooInk.tsx:214-227 | the push loop appends exactly the pointer's burst |
| Ink.PlayPointer | components/chambers/TattooInk.tsx:185-228 | one step of the pointer pass re-arms pointer i in place and appends its tone and its burst |
| Ink.SpawnedWellFormed | components/chambers/TattooInk.tsx:214-226 | appending a frame's spawned particles keeps the buffer well formed |
| Ink.InkChamber.constructor | components/chambers/TattooInk.tsx:14-18 | the chamber starts with no pointers, no particles, medium intensity and sound on |
| Ink.InkChamber.Configure | components/chambers/TattooInk.tsx:316 | choosing a control value that differs from the current one restarts the effect with an empty pointer map; re-choosing the current values keeps the map; the particles are always kept |
| Ink.InkChamber.ClearCanvas | components/chambers/TattooInk.tsx:20-22 | clearing empties the particle buffer |
| Ink.InkChamber.OnResults | components/chambers/TattooInk.tsx:51-82 | a result with hands applies each hand's upsert in order; a result without hands clears the map only when the draw exceeds 0.9 |
| Ink.ApplyHands | components/chambers/TattooInk.tsx:59-78 | the hand loop leaves the map equal to the hands' upserts applied in hand order |
| Ink.InkChamber.TouchMove | components/chambers/TattooInk.tsx:270-288 | touch i upserts pointer 100 + i, in touch order |
| Ink.InkChamber.TouchEnd | components/chambers/TattooInk.tsx:289-291 | n ended touches delete pointers 100 … 100+n−1 |
| Ink.InkChamber.PlayPointers | components/chambers/TattooInk.tsx:183-228 | every pointer, in the map's order, plays its tone, is re-armed, and appends its burst to the buffer |
| Ink.PlayAll | components/chambers/TattooInk.tsx:183-228 | the pointer loop yields the re-armed map, the tones of the crossings and the buffer grown by every burst, all in the map's order |
| Ink.InkChamber.StepParticles | components/chambers/TattooInk.tsx:233-258 | the backward splice loop leaves exactly the aged survivors, in their original order |
| Ink.InkChamber.CapParticles | components/chambers/TattooInk.tsx:260-262 | the buffer keeps its newest 1500 particles |
| Ink.InkChamber.Frame | components/chambers/TattooInk.tsx:183-262 | a frame re-arms the pointers and plays their tones; the buffer becomes the newest 1500 survivors of the old particles followed by the spawned ones, so it never exceeds 1500 |
| BioMesh.FontSize | components/chambers/BioMesh.tsx:76-80 | the glyph size is never below 4, and is the rounded-down base size unless that is below 4 |
| BioMesh.DensityOrder | components/chambers/BioMesh.tsx:76-80 | the sizes are 6/10/15 px on narrow canvases and 8/14/21 px otherwise, so high ≤ medium ≤ low |
| BioMesh.CeilDiv | components/chambers/BioMesh.tsx:81-82 | the ceiling quotient is the least count of cells that covers the extent |
| BioMesh.GridLayout | components/chambers/BioMesh.tsx:76-82 | the grid covers the canvas with less than one glyph to spare in each direction |
| BioMesh.PixelIndex | components/chambers/BioMesh.tsx:104-107 | the red, green and blue reads of any grid cell lie inside the cols × rows RGBA buffer |
| BioMesh.MirrorColumn | components/chambers/BioMesh.tsx:90-93 | grid column x reads source column cols − 1 − x |
| BioMesh.Brightness | components/chambers/BioMesh.tsx:108 | the brightness of three bytes lies in [0, 255] |
| BioMesh.GlyphIndex | components/chambers/BioMesh.tsx:112-113 | the glyph index always lies inside the ten-glyph ramp |
| BioMesh.GlyphMonotone | components/chambers/BioMesh.tsx:112 | a brighter cell never gets a darker glyph |
| BioMesh.GlyphExtremes | components/chambers/BioMesh.tsx:112-113 | '@' is used exactly at brightness 255, and the blank glyph exactly below 255/9 |
| BioMesh.CellColour | components/chambers/BioMesh.tsx:116-123 | true-colour mode uses the cell's own channels; the palettes use alpha brightness/255, which lies in (20/255, 1] for a drawn cell |
| BioMesh.CellDraw | components/chambers/BioMesh.tsx:104-125 | a drawn cell in a palette mode has an alpha above 20/255 and at most 1 |
| BioMesh.CellDrawMeaning | components/chambers/BioMesh.tsx:104-125 | a cell is drawn exactly when the brightness of its mirrored pixel exceeds 20, with that brightness's glyph and the palette's colour |
| BioMesh.DigitiseRow | components/chambers/BioMesh.tsx:103-127 | the inner loop yields the draws of one row, left to right |
| BioMesh.Digitise | components/chambers/BioMesh.tsx:102-128 | the nested loops yield the draws of every row, top to bottom |
| BioMesh.CentreInside | components/chambers/BioMesh.tsx:125 | a cell centre lies strictly inside the grid area |
| BioMesh.CellLegible | components/chambers/BioMesh.tsx:111-125 | every draw is a ramp glyph centred inside the grid area, with an alpha above the threshold's in the palette modes |
| BioMesh.RowCount | components/chambers/BioMesh.tsx:103-127 | a row yields at most one draw per column |
| BioMesh.RowLegible | components/chambers/BioMesh.tsx:103-127 | every draw of a row is legible |
| BioMesh.RowStepLegible | components/chambers/BioMesh.tsx:103-127 | appending the next cell's draw keeps a legible row prefix legible |
| BioMesh.GridCount | components/chambers/BioMesh.tsx:102-128 | a frame yields at most one draw per cell |
| BioMesh.GridLegible | components/chambers/BioMesh.tsx:102-128 | every draw of a frame is legible |
| BioMesh.Digitiser.constructor | components/chambers/BioMesh.tsx:7-8 | the digitiser starts at medium density in the matrix palette, with a fresh 300 × 150 scratch canvas |
| BioMesh.Digitiser.SetDensity | components/chambers/BioMesh.tsx:136 | a new density keeps the palette and restarts the effect with a fresh scratch canvas; re-choosing the current density keeps the scratch canvas |
| BioMesh.Digitiser.SetColorMode | components/chambers/BioMesh.tsx:136 | a new palette keeps the density and restarts the effect with a fresh scratch canvas; re-choosing the current palette keeps the scratch canvas |
| BioMesh.Digitiser.Render | components/chambers/BioMesh.tsx:50-129 | on a canvas of positive size (an empty one throws): without a frame only the no-signal notice is drawn; otherwise the scratch canvas takes the grid size and the screen holds every bright cell's draw |
| Spectrum.CentreInside | components/chambers/Spectrum.tsx:118-127 | a slot centre i·s + s/2 with s = extent/n lies strictly inside a positive extent |
| Spectrum.RestParticleSettled | components/chambers/Spectrum.tsx:121-132 | a new particle rests on its slot centre with zero velocity, strictly inside a canvas of positive size |
| Spectrum.RestParticleLooks | components/chambers/Spectrum.tsx:130-131 | draws in [0,1) give a size in [0.5, 2) and a hue offset in [−30, 30) |
| Spectrum.LatticeSize | components/chambers/Spectrum.tsx:121-134 | m lattice columns hold m × rows particles |
| Spectrum.LatticeAt | components/chambers/Spectrum.tsx:121-133 | slot (i, j) is particle i·rows + j: the lattice is filled column by column |
| Spectrum.LatticeSettled | components/chambers/Spectrum.tsx:113-134 | on a canvas of positive size every new particle is settled |
| Spectrum.LatticeCount | components/chambers/Spectrum.tsx:115-117 | a full lattice holds 1500 particles on narrow canvases and 6000 otherwise |
| Spectrum.InitParticles | components/chambers/Spectrum.tsx:113-135 | the nested loops discard the old particles and produce exactly the lattice |
| Spectrum.BassEnergy | components/chambers/Spectrum.tsx:181-183 | the bass level is the mean of the lowest 20 bins and lies in [0, 255] |
| Spectrum.MeanY | components/chambers/Spectrum.tsx:186-188 | the averaging loop yields the pointers' mean height |
| Spectrum.Clamp01 | components/chambers/Spectrum.tsx:190 | the clamp lies in [0, 1] and is the identity exactly on [0, 1] |
| Spectrum.FilterFromMean | components/chambers/Spectrum.tsx:189-190 | the filter input lies in [0, 1]; it is NaN exactly on a zero-height canvas with mean height 0 |
| Spectrum.FilterMonotone | components/chambers/Spectrum.tsx:189-190 | a higher hand never gives a lower input; the input is 1 at or above the top edge and 0 at or below the bottom edge |
| Spectrum.FilterInput | components/chambers/Spectrum.tsx:185-193 | the input is exactly 0.8 without pointers and otherwise lies in [0, 1], except the NaN case |
| Spectrum.FeedFilter | components/chambers/Spectrum.tsx:185-193 | once the engine has a context, the frame's input must be a number (NaN throws) and the filter is set to it; without a context the filter is left as it was |
| Spectrum.BinIndex | components/chambers/Spectrum.tsx:196 | a particle's bin lies in [0, 409], inside the 1024-byte buffer |
| Spectrum.BinMonotone | components/chambers/Spectrum.tsx:196 | later particles never read lower bins |
| Spectrum.Displacement | components/chambers/Spectrum.tsx:197-198 | the lift lies in [0, amplitude] (amplitude 10 or 30), is the full amplitude exactly at level 255, and is 0 exactly at level 0 |
| Spectrum.ClosestIn | components/chambers/Spectrum.tsx:202-213 | the scan finds a candidate exactly when there is a pointer, and the candidate is one of them |
| Spectrum.ClosestMeaning | components/chambers/Spectrum.tsx:202-213 | the candidate has the minimum squared distance, and no earlier pointer is as close: the first nearest on ties |
| Spectrum.FirstNearestUnique | components/chambers/Spectrum.tsx:202-213 | the first nearest pointer is unique |
| Spectrum.Nearest | components/chambers/Spectrum.tsx:202-213 | the running-minimum loop computes the scan's candidate and its squared distance |
| Spectrum.Radius | components/chambers/Spectrum.tsx:215 | the reach within which a pointer kicks a particle is always positive |
| Spectrum.FalloffRange | components/chambers/Spectrum.tsx:217-219 | within reach the force factor lies in (0, 1], and it is 1 exactly on the pointer |
| Spectrum.Kick | components/chambers/Spectrum.tsx:218-228 | a kick changes only the velocity |
| Spectrum.Impulse | components/chambers/Spectrum.tsx:200-229 | the impulse changes only the velocity, and with no pointers it changes nothing |
| Spectrum.ImpulseGate | components/chambers/Spectrum.tsx:215-217 | without a pointer strictly within reach, the impulse changes nothing |
| Spectrum.GainSign | components/chambers/Spectrum.tsx:224-225 | with a positive force the gain is negative when attracting and positive when repelling |
| Spectrum.KickDirection | components/chambers/Spectrum.tsx:220-228 | when the heading points from the pointer to the particle, attraction kicks the velocity towards the pointer and repulsion away from it |
| Spectrum.DeltaPushSign | components/chambers/Spectrum.tsx:220-228 | a velocity change along the offset, scaled by the positive falloff and the signed gain, points along the offset for repulsion and against it for attraction |
| Spectrum.SpringStep | components/chambers/Spectrum.tsx:232-239 | the spring step keeps the rest position, size and hue, and moves the particle by its new velocity |
| Spectrum.SpringFixedPoint | components/chambers/Spectrum.tsx:232-239 | with a non-zero damping, the step leaves a particle unchanged exactly when it rests with zero velocity at (baseX, baseY − displacement) |
| Spectrum.SpringTowardsRest | components/chambers/Spectrum.tsx:232-239 | from zero velocity with a damping in (0, 1], one step moves the particle towards its lifted rest position without overshooting it |
| Spectrum.QuietFrameKeepsRest | components/chambers/Spectrum.tsx:195-239 | with no pointers and a silent bin, a particle at rest on its rest position stays there |
| Spectrum.PointerlessFixedPoint | components/chambers/Spectrum.tsx:195-239 | with no pointers and a non-zero damping, a frame leaves a particle unchanged exactly when it rests with zero velocity at its lifted rest position |
| Spectrum.StepParticle | components/chambers/Spectrum.tsx:195-239 | a frame keeps a particle's rest position, size and hue offset, and moves it by exactly its new velocity |
| Spectrum.StepOne | components/chambers/Spectrum.tsx:195-239 | one particle's imperative update is the impulse from the nearest pointer within reach, then the spring step |
| Spectrum.StepAll | components/chambers/Spectrum.tsx:195-249 | every particle takes its own step, and the list keeps its length |
| Spectrum.ToPointers | components/chambers/Spectrum.tsx:73-86 | a tracker result yields one pointer per hand |
| Spectrum.ToPointersAt | components/chambers/Spectrum.tsx:78-82 | pointer k is hand k's mirrored and scaled fingertip, numbered k |
| Spectrum.TipPointerInside | components/chambers/Spectrum.tsx:79-81 | a fingertip inside the camera frame gives a pointer inside the canvas, mirrored so that x becomes w − x·w |
| Spectrum.ParticleField.constructor | components/chambers/Spectrum.tsx:113-137 | the field starts with the default controls, the lattice of its canvas, no pointers and a zeroed spectrum buffer |
| Spectrum.ParticleField.SetControls | components/chambers/Spectrum.tsx:284 | new controls restart the effect: the lattice is rebuilt on the current canvas and the spectrum buffer is zeroed, while the pointers are kept |
| Spectrum.ParticleField.OnResults | components/chambers/Spectrum.tsx:73-86 | a tracker result replaces the pointer list with one pointer per hand |
| Spectrum.ParticleField.Frame | components/chambers/Spectrum.tsx:140-249 | a size change rebuilds the lattice; the buffer takes the analyser's reading when there is one; the bass level is returned; the filter gets the frame's input once the engine exists; every particle takes one step |

## Left out

- Drawing is not modelled: canvas fills, paths, gradients, shadows, text,
  transforms, the video background, the reticles, hues and lightness. Only the
  index arithmetic behind the drawing is modelled.
- The Web Audio graph is not modelled. Nodes are presence flags on
  `Audio.AudioEngine`. The gain ramps, oscillator start and stop, the
  disconnect timer, `resume`, the analyser read itself, and the impulse-response
  noise buffer are left out.
- Audio.AudioEngine.SetExpressiveFilter: records the value it is given. The
  exponential 200 Hz–15 kHz mapping (a real-exponent power) and the smoothed
  ramp are not modelled.
- Randomness becomes parameters, because it has no deterministic value. This
  covers the detune draw, node ids, particle jitter, size and hue draws, and
  the 0.9 draw that clears the ink map.
- Square roots and the impulse direction (cos and sin of atan2) are parameters,
  and the node angles from the canvas centre are inputs, because they have no
  exact counterpart over the reals.
- Spectrum.KickDirection: proves the push direction only for a heading that is
  a positive multiple of the offset, because cos and sin of atan2 are
  parameters.
- Numbers are exact reals, not doubles. Claims that depend on rounding (for
  example, after how many frames life reaches 0) are not made.
- Spectrum.SpringTowardsRest: states one step from rest. Convergence over many
  frames with constant input is not proved.
- MediaPipe, the camera, `getUserMedia`, animation-frame scheduling, polling
  intervals and event-listener registration are not modelled. They are foreign
  libraries and concurrency. Tracker results and touch lists are inputs of the
  methods that handle them.
- Preset file I/O is not modelled: file reading, JSON text, blobs, download
  links, and the snapshot's image encoding. A preset file is modelled by what
  it parses to.
- React state is modelled as one field per state. The stale `nodes` closure of
  the tap handler is not modelled.
- Console.HandleTap: taps are taken inside the canvas (0 ≤ y ≤ 1) on a canvas
  of positive width. A tap outside it could give a negative step, whose
  frequency is NaN (`Audio.NoteFrequency` models that case).
- The ink chamber requires a canvas of positive width and height
  (`Ink.InkChamber` methods require it). On a zero-size canvas the lane
  arithmetic divides by zero.
- Spectrum.ParticleField.Frame: on a zero-height canvas with pointers whose
  mean height is 0, the filter input is NaN. Once the audio context exists, the
  source hands it to `setTargetAtTime`, which throws: that frame's particles do
  not move and no further frame is scheduled. The model requires a numeric
  input whenever the context exists (`Spectrum.FeedFilter` too). Without a
  context the filter is not called, and the frame goes on.
- BioMesh.Digitiser.Render: with a camera frame on a zero-width or zero-height
  canvas the grid has no columns or rows, and reading the scratch canvas's
  pixels throws, which ends the render loop. The model requires a canvas of
  positive size whenever there is a frame.
- BioMesh.Digitiser.Render: the camera frame scaled to the grid (`drawImage`
  downsampling) is a parameter. The mirroring transform is modelled as reading
  column cols − 1 − x of the unmirrored frame.
- Spectrum.ParticleField.constructor: the canvas size is a parameter. A new
  canvas element is 300 × 150 until the first frame resizes it.
- The kaleidoscope chamber, the application shell, navigation, the intro and
  the help overlay are not part of this model. They are drawing and UI only.

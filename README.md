# Oscicrate and Oxidize, modelled in Dafny

This project models two audio plugins from the `rust_vsts` repository.

- **Oscicrate** (`rs_synth`) is a four-voice polyphonic synthesizer. Each voice has two oscillators, and each oscillator owns an ADSR envelope.
  - The oscillators have four waveforms: saw, pulse, sine and triangle. Their pitch can be modulated by one shared pitch LFO.
  - A Note On takes the voice under a round-robin cursor, so the fifth note steals the oldest voice.
  - A Note Off releases every voice whose stored note matches.
  - Twenty host parameters (values in [0, 1]) configure the oscillators, envelopes, filters and LFO. Slot 6, the volume, is read only by the audio loop, which scales every oscillator sample by it (rs_synth/src/lib.rs:308-309).
- **Oxidize** (`rs_distortion`) is a distortion effect with four parameters: drive coefficient, curve type, level and dry/wet.
  - The curve is tanh, "Arctan" or the third Chebyshev polynomial.
  - The shaped signal is cross-faded with the dry signal and then scaled by the level.

## How the model is built

There is one Dafny module per source file:

| module | file | source |
|---|---|---|
| `Adsr` | `adsr.dfy` | `rs_synth/src/adsr.rs` |
| `Oscillators` | `oscillator.dfy` | `rs_synth/src/oscillator.rs` |
| `SynthPlugin` | `synth.dfy` | `rs_synth/src/lib.rs` |
| `DistortionPlugin` | `distortion.dfy` | `rs_distortion/src/lib.rs` |
| `RealArith` | `real_arith.dfy` | one shared fact about real products |

**Stateful structs.** Each Rust struct whose methods mutate it is modelled the same way:
- A Dafny `class` has the struct's fields: `Adsr.ADSR`, `Oscillators.Oscillator`, `Oscillators.LFO`, `SynthPlugin.Synth`, `SynthPlugin.SynthParameters`, `DistortionPlugin.DistortionParameters`.
- `Value()` returns a datatype snapshot of those fields.
- A pure transition function gives the new snapshot for each operation (`OnProcess`, `OnNoteOn`, `OnSynthNoteOff`, …).
- Every method is proved to change its fields exactly as its transition function says.
- Properties that span several calls are lemmas over the transition functions: bounds, reachability, round-robin allocation and what the host display agrees with.

**The synth's components.** The synth owns its oscillators, filters and LFO by value in Rust vectors. The model holds them as sequences of snapshots, so the per-voice loops of `note_off` and `set_sample_rate` work on those sequences.

**Arithmetic.** `f32` is modelled as `real`.
- `exp`, `ln`, `exp2`, `sin`, `tanh` and `atanh` are function parameters.
- A lemma states, as a `ghost predicate` in its `requires`, the only laws it needs, e.g. `ExpLnLaws` or `TanhBounded`.
- `note as i8 - 69` is written out in two steps, as the source does it. For notes 128 to 196 the cast gives a negative `i8` and the subtraction overflows. A debug build panics there. A release build wraps, which gives back `note - 69`; the model follows the release build. For notes 197 to 255 the subtraction does not overflow, but because of the cast the result is `note - 69 - 256`. MIDI notes (0 to 127) are never affected.
- `calculate_coefficient` with a rate of 0 samples divides by zero, which gives `-inf` and a coefficient of `exp(-inf) = 0`; the model has this as an explicit branch.

**Behaviour kept as written.** The model follows the code in these cases:
- The "+2" octave setting multiplies by 3, not 4.
- The pitch LFO *multiplies* the frequency. At the default depth of 0 it returns 0, so `process_with_pitch_mod` then holds the phase still (`ZeroPitchModHoldsPhase`).
- A Note On with velocity 0 starts a note.
- The pitch LFO multiplies the frequency, so while its value is below zero (any depth above 0, half of every LFO period) the phase increment is negative (`NegativePitchModStepsBack`).
  - The wrap only ever lowers the phase, so during that half period the phase falls below its floor. A run of negative increments lowers it by exactly their sum (`NegativeIncrementDrifts`).
  - The saw and triangle outputs then leave [-1, 1] (`TriangleBelowRange`). How far they go grows with frequency × depth / LFO rate.
  - Once the LFO turns positive, the phase climbs back. The phase is not proved to stay bounded over a whole LFO period: the range lemmas assume increments of at least 0.
- `Default::default()` for the ADSR aims the decay base at 1.0 rather than at the 0.8 sustain, and computes its coefficients from times in seconds rather than in samples.
- The distortion's "Arctan" curve calls `atanh`.
- The Chebyshev curve applies only at exactly 1.0. A type value above 1.0 is silent on the wet path, has the empty name, and rounds to type 0.

## Model

| member | source | states |
|---|---|---|
| `Adsr.Coefficient` | rs_synth/src/adsr.rs:3-6 | the coefficient lies in [0, 1) for any non-negative rate, given exp maps negatives into (0, 1) and ln is positive above 1; a rate of 0 samples gives exactly 0 |
| `Adsr.DefaultEnvelope` | rs_synth/src/adsr.rs:32-55 | the default envelope is idle and silent, and satisfies the output-in-range invariant `Bounded` |
| `Adsr.OnStartNote` | rs_synth/src/adsr.rs:59-61 | start_note moves to Attack from any stage and changes nothing else, the level included |
| `Adsr.OnEndNote` | rs_synth/src/adsr.rs:63-67 | end_note gives Idle exactly when the envelope was idle, and Release otherwise; nothing else changes |
| `Adsr.OnReset` | rs_synth/src/adsr.rs:69-72 | reset gives Idle with output 0; nothing else changes |
| `Adsr.OnProcess` | rs_synth/src/adsr.rs:89-115 | Idle and Sustain are fixed points; in Attack, Decay and Release the new output is `base + output * coeff` clamped at 1, at the sustain level and at 0, and the stage moves to Decay, Sustain and Idle exactly when the clamp applies; only stage and output change |
| `Adsr.OnCalculateAttack` | rs_synth/src/adsr.rs:117-121 | stores the time, a coefficient in [0, 1) and the base `(1 + ratio)(1 - coeff)`; nothing else changes |
| `Adsr.OnCalculateDecay` | rs_synth/src/adsr.rs:123-127 | stores the time, a coefficient in [0, 1) and the base aimed at the current sustain; nothing else changes |
| `Adsr.OnCalculateSustain` | rs_synth/src/adsr.rs:129-132 | stores the sustain and re-aims the decay base at it with the existing decay coefficient |
| `Adsr.OnCalculateRelease` | rs_synth/src/adsr.rs:134-138 | stores the time, a coefficient in [0, 1) and the base `-ratio (1 - coeff)`; nothing else changes |
| `Adsr.OnSetParams` | rs_synth/src/adsr.rs:78-83 | set_params leaves the stage, level, sample rate and target ratios alone |
| `Adsr.CalculationsInOrder` | rs_synth/src/adsr.rs:78-83 | the four calculate calls, in source order and on times in samples, give exactly `OnSetParams`; the decay step aims at the OLD sustain and the sustain step corrects it |
| `Adsr.SetParamsEffect` | rs_synth/src/adsr.rs:78-83 | set_params stores times in samples (seconds × sample rate), the sustain, each segment's coefficient for its time, and bases that follow the new coefficients and the new sustain |
| `Adsr.CalculateAttackBounded` | rs_synth/src/adsr.rs:117-121 | calculate_attack with a non-negative time preserves `Bounded` |
| `Adsr.CalculateDecayBounded` | rs_synth/src/adsr.rs:123-127 | calculate_decay with a non-negative time preserves `Bounded` |
| `Adsr.CalculateSustainBounded` | rs_synth/src/adsr.rs:129-132 | calculate_sustain with a level in [0, 1] preserves `Bounded` |
| `Adsr.CalculateReleaseBounded` | rs_synth/src/adsr.rs:134-138 | calculate_release with a non-negative time preserves `Bounded` |
| `Adsr.SetParamsBounded` | rs_synth/src/adsr.rs:78-83 | set_params with non-negative times and a sustain in [0, 1] preserves `Bounded` |
| `Adsr.OnSetAttackTargetRatio` | rs_synth/src/adsr.rs:140-146 | the ratio is floored at 1e-9, and the attack base is recomputed from it with the existing coefficient |
| `Adsr.OnSetDrTargetRatio` | rs_synth/src/adsr.rs:148-155 | the ratio is floored at 1e-9, and the decay and release bases are recomputed from it |
| `Adsr.SetAttackTargetRatioBounded` | rs_synth/src/adsr.rs:140-146 | setting the attack target ratio keeps a bounded envelope bounded |
| `Adsr.SetDrTargetRatioBounded` | rs_synth/src/adsr.rs:148-155 | setting the decay/release target ratio keeps a bounded envelope bounded |
| `Adsr.ProcessBounded` | rs_synth/src/adsr.rs:89-115 | one process step preserves `Bounded`, so the output stays in [0, 1] |
| `Adsr.AttackStepBounded` | rs_synth/src/adsr.rs:92-98 | the attack step preserves `Bounded` |
| `Adsr.DecayStepBounded` | rs_synth/src/adsr.rs:99-105 | the decay step preserves `Bounded` |
| `Adsr.ReleaseStepBounded` | rs_synth/src/adsr.rs:107-113 | the release step preserves `Bounded` |
| `Adsr.RunBounded` | rs_synth/src/adsr.rs:59-115 | over any sequence of start_note, end_note, reset and process calls the output stays in [0, 1] |
| `Adsr.ProcessNAtRest` | rs_synth/src/adsr.rs:89-115 | an idle or sustaining envelope is unchanged by any number of process calls |
| `Adsr.ProcessNAfterPeak` | rs_synth/src/adsr.rs:99-106 | once in Decay or Sustain, process alone never leaves those two stages |
| `Adsr.ReleaseStep` | rs_synth/src/adsr.rs:107-113 | each release step that stays in Release lowers the output by at least `ratio (1 - coeff)` |
| `Adsr.ReleaseReachesIdle` | rs_synth/src/adsr.rs:107-113 | n release steps with `n · ratio (1 - coeff) ≥ output` reach Idle with output 0 |
| `Adsr.AttackReachesPeak` | rs_synth/src/adsr.rs:92-98 | n attack steps with `n · ratio (1 - coeff) ≥ 1 - output` reach the peak and leave Attack |
| `Adsr.DecayReachesSustain` | rs_synth/src/adsr.rs:99-105 | n decay steps with `n · ratio (1 - coeff) ≥ output - sustain` reach Sustain exactly at the sustain level |
| `Adsr.DecayStep` | rs_synth/src/adsr.rs:99-105 | each decay step that stays in Decay brings the output closer to the sustain by at least `ratio (1 - coeff)` |
| `Adsr.DecayAboveSustain` | rs_synth/src/adsr.rs:99-105 | a decay step that stays in Decay started at or above the sustain level |
| `Adsr.ADSR.constructor` | rs_synth/src/adsr.rs:32-55 | builds exactly `DefaultEnvelope` |
| `Adsr.ADSR.StartNote` | rs_synth/src/adsr.rs:59-61 | the fields become `OnStartNote` of the old ones |
| `Adsr.ADSR.EndNote` | rs_synth/src/adsr.rs:63-67 | the fields become `OnEndNote` of the old ones |
| `Adsr.ADSR.Reset` | rs_synth/src/adsr.rs:69-72 | the fields become `OnReset` of the old ones |
| `Adsr.ADSR.GetOutput` | rs_synth/src/adsr.rs:74-76 | returns the current level |
| `Adsr.ADSR.SetSampleRate` | rs_synth/src/adsr.rs:85-87 | only the sample rate changes |
| `Adsr.ADSR.Process` | rs_synth/src/adsr.rs:89-115 | the fields become `OnProcess` of the old ones |
| `Adsr.ADSR.SetParams` | rs_synth/src/adsr.rs:78-83 | the four calculate calls in order give `OnSetParams` of the old fields |
| `Adsr.ADSR.CalculateAttack` | rs_synth/src/adsr.rs:117-121 | the fields become `OnCalculateAttack` of the old ones |
| `Adsr.ADSR.CalculateDecay` | rs_synth/src/adsr.rs:123-127 | the fields become `OnCalculateDecay` of the old ones |
| `Adsr.ADSR.CalculateSustain` | rs_synth/src/adsr.rs:129-132 | the fields become `OnCalculateSustain` of the old ones |
| `Adsr.ADSR.CalculateRelease` | rs_synth/src/adsr.rs:134-138 | the fields become `OnCalculateRelease` of the old ones |
| `Adsr.ADSR.SetAttackTargetRatio` | rs_synth/src/adsr.rs:140-146 | the fields become `OnSetAttackTargetRatio` of the old ones; the ratio floor is kept |
| `Adsr.ADSR.SetDrTargetRatio` | rs_synth/src/adsr.rs:148-155 | the fields become `OnSetDrTargetRatio` of the old ones; the ratio floor is kept |
| `Oscillators.SemitonesFromA4` | rs_synth/src/oscillator.rs:5-9 | the i8 result always fits in an i8; it is the plain difference `note - 69` for notes up to 196 (including the overflowing 128 to 196, by the release-build wrap), and 256 less for 197 to 255 |
| `Oscillators.Mtof` | rs_synth/src/oscillator.rs:5-9 | note 69 (A4) is 440 Hz |
| `Oscillators.MtofOctave` | rs_synth/src/oscillator.rs:5-9 | twelve semitones up doubles the frequency |
| `Oscillators.OctaveMultiplier` | rs_synth/src/oscillator.rs:73-79 | the multiplier is one of 0.25, 0.5, 1, 2, 3; below 0.2 it is 0.25, and from 0.8 up it is 3 |
| `Oscillators.OctaveMultiplierMonotone` | rs_synth/src/oscillator.rs:73-79 | a larger octave setting never gives a smaller multiplier |
| `Oscillators.TriangleShape` | rs_synth/src/oscillator.rs:124-129 | the triangle is `1 - 4·|phase - 0.5|` and stays in [-1, 1] for phases in [0, 1] |
| `Oscillators.Advanced` | rs_synth/src/oscillator.rs:94-97 | the phase wraps by its span only at or above 1.0, then advances |
| `Oscillators.AdvanceInRange` | rs_synth/src/oscillator.rs:88-133 | one wrap-and-advance keeps the phase in [floor, 1 + bound) for an increment in [0, bound] |
| `Oscillators.PhaseStaysInRange` | rs_synth/src/oscillator.rs:88-133 | any run of such increments keeps the phase in range |
| `Oscillators.NegativeIncrementDrifts` | rs_synth/src/oscillator.rs:139-175 | for any run of n equal negative increments -s the wrap never fires, and the phase ends exactly n·s lower |
| `Oscillators.TriangleBelowRange` | rs_synth/src/oscillator.rs:166-176 | a triangle phase below 0 gives an output below -1 |
| `Oscillators.SawPhaseBounded` | rs_synth/src/oscillator.rs:92-99 | a saw from phase 0 at a constant increment s in [0, 2] stays in [-1, 1 + s) |
| `Oscillators.UnitPhaseBounded` | rs_synth/src/oscillator.rs:100-131 | pulse, sine and triangle from phase 0 at a constant increment s in [0, 1] stay in [0, 1 + s) |
| `Oscillators.DefaultOsc` | rs_synth/src/oscillator.rs:36-51 | the default oscillator is a saw at phase 0 with an idle envelope |
| `Oscillators.OnNoteOn` | rs_synth/src/oscillator.rs:54-59 | stores the note, its mtof frequency and velocity/127 (in [0, 1] for MIDI velocities), and starts the envelope; nothing else changes |
| `Oscillators.OnNoteOff` | rs_synth/src/oscillator.rs:61-63 | only the envelope changes, by end_note |
| `Oscillators.OnSetParams` | rs_synth/src/oscillator.rs:69-80 | stores waveform and pulse width, and an octave multiplier from the five buckets |
| `Oscillators.OnSetSampleRate` | rs_synth/src/oscillator.rs:82-85 | the oscillator and its envelope take the new rate; nothing else changes |
| `Oscillators.Waveform` | rs_synth/src/oscillator.rs:90-132 | per waveform: the saw outputs the old phase, the sine outputs sin(2π·old phase), the triangle shapes the new phase, and the pulse keeps its output field; every phase wraps then advances by freq/sr (twice that for the saw); the sample is output × envelope × velocity, and for the pulse ±envelope × velocity, + exactly when the new phase is below the pulse width |
| `Oscillators.Render` | rs_synth/src/oscillator.rs:88-133 | the envelope steps once by `OnProcess`, then the phase wraps and advances; the saw outputs the old phase, the sine sin(2π·old phase), the triangle the shaped new phase, and the pulse keeps its output field; the sample is that output × the stepped envelope × velocity, and for the pulse ± the stepped envelope × velocity, + exactly when the new phase is below the pulse width; nothing else changes |
| `Oscillators.ModulatedFrequency` | rs_synth/src/oscillator.rs:135-137 | a pitch modulation of 1 gives the plain frequency, and of 0 gives frequency 0 |
| `Oscillators.ZeroPitchModHoldsPhase` | rs_synth/src/oscillator.rs:135-180 | with pitch modulation 0 the phase only wraps and never advances |
| `Oscillators.PulseIsBipolar` | rs_synth/src/oscillator.rs:100-110 | a pulse sample is plus or minus envelope × velocity: plus exactly when the new phase is below the pulse width |
| `Oscillators.SineSampleBounded` | rs_synth/src/oscillator.rs:111-118 | with a bounded sine, a bounded envelope and velocity in [0, 1], a sine sample stays in [-1, 1] |
| `Oscillators.UnitProduct` | rs_synth/src/oscillator.rs:117 | a value in [-1, 1] times one in [0, 1] stays in [-1, 1] |
| `Oscillators.NegativePitchModStepsBack` | rs_synth/src/oscillator.rs:135-144 | a negative pitch modulation makes the modulated increment negative, so one sample lowers the phase |
| `Oscillators.RenderKeepsPhaseInRange` | rs_synth/src/oscillator.rs:88-133 | one rendered sample keeps the phase in range |
| `Oscillators.OnLfoSetParams` | rs_synth/src/oscillator.rs:196-199 | only depth and frequency change |
| `Oscillators.LfoRender` | rs_synth/src/oscillator.rs:201-208 | the value is sin(2π·phase) × depth, 0 at depth 0; the phase wraps then advances by frequency/sr |
| `Oscillators.LfoValueBounded` | rs_synth/src/oscillator.rs:201-208 | the LFO value never exceeds its depth in magnitude |
| `Oscillators.Oscillator.constructor` | rs_synth/src/oscillator.rs:36-51 | builds exactly `DefaultOsc`, with a fresh envelope |
| `Oscillators.Oscillator.NoteOn` | rs_synth/src/oscillator.rs:54-59 | the fields become `OnNoteOn` of the old ones |
| `Oscillators.Oscillator.NoteOff` | rs_synth/src/oscillator.rs:61-63 | the fields become `OnNoteOff` of the old ones |
| `Oscillators.Oscillator.GetCurrentNote` | rs_synth/src/oscillator.rs:65-67 | returns the stored note |
| `Oscillators.Oscillator.SetParams` | rs_synth/src/oscillator.rs:69-80 | the fields become `OnSetParams` of the old ones |
| `Oscillators.Oscillator.SetSampleRate` | rs_synth/src/oscillator.rs:82-85 | the fields become `OnSetSampleRate` of the old ones |
| `Oscillators.Oscillator.Process` | rs_synth/src/oscillator.rs:88-133 | the new fields and the sample are `Render` at frequency × octave multiplier |
| `Oscillators.Oscillator.ProcessWithPitchMod` | rs_synth/src/oscillator.rs:135-180 | the new fields and the sample are `Render` at frequency × pitchMod × octave multiplier |
| `Oscillators.Oscillator.Tick` | rs_synth/src/oscillator.rs:91-132 | the waveform match changes the fields and returns the sample as `Waveform` says |
| `Oscillators.LFO.constructor` | rs_synth/src/oscillator.rs:183-193 | builds the default LFO: 5 Hz, depth 0, phase 0, 44100 Hz |
| `Oscillators.LFO.SetParams` | rs_synth/src/oscillator.rs:196-199 | the fields become `OnLfoSetParams` of the old ones |
| `Oscillators.LFO.Process` | rs_synth/src/oscillator.rs:201-208 | the new fields and the value are `LfoRender` of the old ones |
| `SynthPlugin.ParameterAt` | rs_synth/src/lib.rs:163-187 | slot `index` for indices 0 to 19, and 0.0 for any other |
| `SynthPlugin.WithParameter` | rs_synth/src/lib.rs:189-213 | a write is read back from its slot, leaves every other slot alone, and is ignored outside 0 to 19 |
| `SynthPlugin.ParameterLabel` | rs_synth/src/lib.rs:215-228 | "s" exactly for the six time slots, "Hz" exactly for cutoff and LFO rate, "%" exactly for LFO depth, and "" for every other index, inside or outside 0 to 19 |
| `SynthPlugin.SynthParameters.constructor` | rs_synth/src/lib.rs:61-86 | stores the twenty default values |
| `SynthPlugin.SynthParameters.GetParameter` | rs_synth/src/lib.rs:163-187 | returns the slot, or 0.0 outside 0 to 19 |
| `SynthPlugin.SynthParameters.SetParameter` | rs_synth/src/lib.rs:189-213 | the values become `WithParameter` of the old ones |
| `SynthPlugin.OscillatorTypeFor` | rs_synth/src/lib.rs:260-265 | below 0.25 selects the saw, and from 0.75 up the sine |
| `SynthPlugin.TypeTextMatchesSelection` | rs_synth/src/lib.rs:91-96 | the type text shown names the waveform the oscillators are set to |
| `SynthPlugin.OctaveTextMatchesMultiplier` | rs_synth/src/lib.rs:98-104 | each octave text matches exactly one multiplier: "-2" ↔ 0.25, "-1" ↔ 0.5, "0" ↔ 1, "+1" ↔ 2, "+2" ↔ 3 |
| `SynthPlugin.EnvelopeSeconds` | rs_synth/src/lib.rs:267-272 | an envelope time is v² × 10 s: non-negative, 0 to 10 s on [0, 1], 0 at 0 and 10 at 1 |
| `SynthPlugin.EnvelopeSecondsMonotone` | rs_synth/src/lib.rs:267-272 | on [0, 1] a larger setting never gives a shorter time |
| `SynthPlugin.LfoRate` | rs_synth/src/lib.rs:299 | the LFO rate lies in [0.1, 20] Hz on [0, 1] |
| `SynthPlugin.LfoDepth` | rs_synth/src/lib.rs:299 | the LFO depth is non-negative, and at most 1 on [0, 1] |
| `SynthPlugin.DefaultSynth` | rs_synth/src/lib.rs:232-242 | the new synth has four idle voices in each of the two banks, the cursor on voice 0, and every component ready to run |
| `SynthPlugin.OnSynthNoteOn` | rs_synth/src/lib.rs:357-362 | the voice under the cursor starts the note in both banks and its filter gets start_note; the cursor moves on modulo 4; every other voice, filter and the LFO are unchanged |
| `SynthPlugin.OnSynthNoteOff` | rs_synth/src/lib.rs:364-374 | each voice whose stored note matches, in either bank, becomes exactly `OnNoteOff` of itself (released unless idle), and a bank-one match ends its filter's note; non-matching voices, the cursor and the LFO are unchanged |
| `SynthPlugin.OnMidiEvent` | rs_synth/src/lib.rs:349-355 | status 128 is note_off(data[1]), status 144 is note_on(data[1], data[2]), and anything else changes nothing |
| `SynthPlugin.ZeroVelocityNoteOnStartsNote` | rs_synth/src/lib.rs:349-355 | a Note On with velocity 0 starts a note at velocity 0 and moves the cursor |
| `SynthPlugin.OtherChannelsIgnored` | rs_synth/src/lib.rs:349-355 | Note On and Note Off on MIDI channels 2 to 16 change nothing |
| `SynthPlugin.NoteOnThenOffReleases` | rs_synth/src/lib.rs:357-374 | a note started and then ended leaves its voice released in both banks, and its filter saw start then end |
| `SynthPlugin.CursorAfterSeries` | rs_synth/src/lib.rs:361 | after k note_on calls the cursor has moved k voices, modulo 4 |
| `SynthPlugin.SeriesLeavesOtherVoices` | rs_synth/src/lib.rs:357-362 | a voice the cursor never reaches keeps its oscillators through a series of note_on calls |
| `SynthPlugin.SeriesLandsRoundRobin` | rs_synth/src/lib.rs:357-362 | in up to four note_on calls, the j-th note sounds (attack, both banks) on the voice j steps after the cursor |
| `SynthPlugin.FirstOfSeriesLands` | rs_synth/src/lib.rs:357-362 | the first of up to four notes is still sounding on the starting voice at the end |
| `SynthPlugin.FifthNoteStealsFirstVoice` | rs_synth/src/lib.rs:357-362 | of five notes from voice 0, the fifth replaces the first on voice 0, voices 1 to 3 keep notes two to four, and the cursor is on voice 1 |
| `SynthPlugin.ConfigureOscillator` | rs_synth/src/lib.rs:259-286 | configuring an oscillator keeps it ready to run (positive sample rate, ratio floors) |
| `SynthPlugin.ConfigureOscillatorSettings` | rs_synth/src/lib.rs:259-286 | the oscillator gets the selected waveform, the pulse width, the octave multiplier, and envelope times of v² × 10 s in samples with the sustain as given; note, phase, frequency, velocity and envelope stage and level are kept |
| `SynthPlugin.OnApplyParameters` | rs_synth/src/lib.rs:259-299 | every voice's two oscillators are configured from slots 0-2 and 3-5, every filter gets its settings, and the LFO gets depth v² and rate 19.9v + 0.1; the cursor is kept |
| `SynthPlugin.EnvelopeMatchesDisplay` | rs_synth/src/lib.rs:120-123 | the envelope times a voice gets are the numbers shown for attack, decay and release (converted to samples); the sustain is the number shown for sustain |
| `SynthPlugin.LfoMatchesDisplay` | rs_synth/src/lib.rs:131-132 | the LFO rate set is the number shown for the rate slot, and the depth set is the shown percentage over 100 |
| `SynthPlugin.OnSynthSetSampleRate` | rs_synth/src/lib.rs:329-336 | every oscillator becomes exactly `OnSetSampleRate` of itself (it and its envelope take the rate), every filter records the rate; the LFO and the cursor are kept |
| `SynthPlugin.Synth.constructor` | rs_synth/src/lib.rs:232-242 | builds exactly `DefaultSynth`, with default parameter values |
| `SynthPlugin.Synth.NoteOn` | rs_synth/src/lib.rs:357-362 | the fields become `OnSynthNoteOn` of the old ones |
| `SynthPlugin.Synth.NoteOff` | rs_synth/src/lib.rs:364-374 | the four-voice loop leaves the fields at `OnSynthNoteOff` of the old ones |
| `SynthPlugin.Synth.ProcessMidiEvent` | rs_synth/src/lib.rs:349-355 | the fields become `OnMidiEvent` of the old ones |
| `SynthPlugin.Synth.ApplyParameters` | rs_synth/src/lib.rs:259-299 | the four-voice loop and the LFO call leave the fields at `OnApplyParameters` of the shared parameter values |
| `SynthPlugin.Synth.SetSampleRate` | rs_synth/src/lib.rs:329-336 | the four-voice loop leaves the fields at `OnSynthSetSampleRate` of the old ones |
| `DistortionPlugin.WithParameter` | rs_distortion/src/lib.rs:90-98 | a write is read back from its slot, leaves the other slots alone, and is ignored outside 0 to 3 |
| `DistortionPlugin.LastWriteWins` | rs_distortion/src/lib.rs:90-98 | after any run of writes each slot holds the last value written to it, or its old value if none was |
| `DistortionPlugin.DistortionParameters.constructor` | rs_distortion/src/lib.rs:48-57 | coefficient 0.5, type 0, level 0.5, dry/wet 0.5 |
| `DistortionPlugin.DistortionParameters.GetParameter` | rs_distortion/src/lib.rs:80-88 | returns the slot, or 0.0 outside 0 to 3 |
| `DistortionPlugin.DistortionParameters.SetParameter` | rs_distortion/src/lib.rs:90-98 | the fields become `WithParameter` of the old ones |
| `DistortionPlugin.DistortionParameters.GetDistortionName` | rs_distortion/src/lib.rs:29-36 | returns `DistortionName` of the stored type |
| `DistortionPlugin.DistortionParameters.GetDistortionTypeRounded` | rs_distortion/src/lib.rs:38-45 | returns `TypeRounded` of the stored type |
| `DistortionPlugin.TypeRounded` | rs_distortion/src/lib.rs:38-45 | 0 exactly below 0.5 or above 1.0; 1 exactly on [0.5, 1); 2 exactly at 1.0 |
| `DistortionPlugin.DistortionName` | rs_distortion/src/lib.rs:29-36 | "Tanh" exactly below 0.5, "Arctan" exactly on [0.5, 1), "Chebyshev 3rd Order" exactly at 1.0, "" exactly above 1.0 |
| `DistortionPlugin.NameMatchesRoundedType` | rs_distortion/src/lib.rs:29-45 | up to 1.0 the name is that of the rounded type; above 1.0 the name is empty while the rounded type is 0 |
| `DistortionPlugin.Drive` | rs_distortion/src/lib.rs:103 | the drive is 1 to 10 on [0, 1]: 1 at 0 and 10 at 1 |
| `DistortionPlugin.DriveMonotone` | rs_distortion/src/lib.rs:103 | more coefficient never gives less drive |
| `DistortionPlugin.ChebyshevBounded` | rs_distortion/src/lib.rs:107 | 4x³ - 3x stays in [-1, 1] for x in [-1, 1] |
| `DistortionPlugin.ProcessSample` | rs_distortion/src/lib.rs:102-111 | dry/wet 0 gives the sample times the level, dry/wet 1 the shaped signal times the level, and a type above 1 only the dry part |
| `DistortionPlugin.ChebyshevUsesShownDrive` | rs_distortion/src/lib.rs:102-107 | the drive the Chebyshev curve applies is the number shown for slot 0 |
| `DistortionPlugin.CurveMatchesName` | rs_distortion/src/lib.rs:104-109 | the curve applied is the one the shown name says; the nameless setting is silent |
| `DistortionPlugin.ChebyshevDriven` | rs_distortion/src/lib.rs:107 | the driven Chebyshev curve stays within ± drive on [-1, 1] |
| `DistortionPlugin.ShapedWithin` | rs_distortion/src/lib.rs:104-109 | for bounded tanh, the tanh, Chebyshev and silent settings stay within ± drive for x in [-1, 1] |
| `DistortionPlugin.ProcessedWithinDrive` | rs_distortion/src/lib.rs:103-109 | the shaped signal stays within ± drive for the host's coefficient range |
| `DistortionPlugin.MixBounded` | rs_distortion/src/lib.rs:110 | cross-fading a sample in [-1, 1] with a signal in [-b, b] (b ≥ 1), then scaling by a level in [0, 1], stays in [-b, b] |
| `DistortionPlugin.OutputWithinDrive` | rs_distortion/src/lib.rs:102-111 | with parameters in [0, 1] and a sample in [-1, 1], the output of the tanh, Chebyshev and silent settings stays within ± drive |

## Left out

- Host glue is not modelled: `plugin_main!`, `get_info`, `can_do`, `get_parameter_object`, and the `process_events` iteration. Each MIDI event is modelled by `ProcessMidiEvent`.
- Sharing the parameter objects through `Arc` with `AtomicFloat` slots, and any concurrency between the host and the audio thread, is not modelled. The parameter stores are plain classes.
- The audio loop of `Synth::process` (rs_synth/src/lib.rs:300-315) is not modelled. It sums filtered oscillator samples into the host's buffers. Only its `set_params` half (lines 259-299) is modelled.
- The buffer loop of `Distortion::process` (rs_distortion/src/lib.rs:135-141) is not modelled. It applies `process_sample` to each sample of the host's buffers, which is host I/O.
- rs_synth/src/filter.rs is not part of this model. A filter is represented only by the calls the synth makes on it (`start_note`, `end_note`, `set_params`, `set_sample_rate`). Its audio output is not modelled.
- The `get_parameter_name` tables of both plugins are not modelled.
- The "Lowpass", "Bandpass" and "Highpass" text of the synth's filter-type slot is not modelled.
- `format!("{:.2}")` rounding is not modelled. A displayed number is the value before formatting (`DisplayedNumber`, `ParameterText`).
- `f32` rounding, NaN and infinities are not modelled. Numbers are reals.
  - `exp`, `ln`, `exp2`, `sin`, `tanh` and `atanh` are uninterpreted function parameters. A lemma depends only on the laws it states.
  - `atanh` at ±1 or beyond, which is infinite or NaN in `f32`, is not modelled. `DistortionPlugin.OutputWithinDrive` therefore excludes the "Arctan" setting.
  - The only IEEE special case written out is the coefficient for a time of 0 samples, which is 0.
- The phase increment `1 / (sample_rate / freq)` is modelled as `freq / sample_rate`. This needs a positive sample rate.
  - `Oscillators.Oscillator.SetSampleRate` requires a positive rate, a precondition the source does not state. With a rate of 0 the source's `process` would divide by zero.
  - `SynthPlugin.Synth.SetSampleRate` requires a positive rate, for the same reason.
- `SynthPlugin.Synth` holds the two oscillator banks and the filters as sequences of value snapshots, not as vectors of `Oscillator` objects. An update replaces an element. Per-element aliasing is not modelled.
- `Adsr.OnSetParams`: its own contract states only what set_params leaves unchanged. The new times, coefficients and bases are stated by `Adsr.SetParamsEffect` and `Adsr.CalculationsInOrder`.

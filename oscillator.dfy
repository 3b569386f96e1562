/**
  Oscillators and the pitch LFO of the polyphonic synth (rs_synth/src/oscillator.rs).

  A phase accumulator per oscillator, wrapped by 2 for the saw (whose phase
  ramps over [-1, 1)) and by 1 for the other waveforms (phase over [0, 1)),
  and advanced once per sample by `freq / sample_rate` (twice that for the
  saw). The source writes the increment as `1 / (sample_rate / freq)`; for a
  positive sample rate that is `freq / sample_rate`, and in f32 it is also 0
  when freq is 0. `exp2` and `sin` are parameters about which nothing is
  known beyond the laws a lemma states.
*/
module Oscillators {
  import Adsr
  import RealArith

  /** A Rust u8. */
  type Byte = x: int | 0 <= x < 256

  /** The f32 value of std::f32::consts::PI * 2.0. */
  const TwoPi: real := 6.283185482025146484375

  datatype OscillatorType = Saw | Pulse | Sin | Triangle

  // ---------------------------------------------------------------------------
  // Note to frequency
  // ---------------------------------------------------------------------------

  /** What mtof needs of exp2: 2^0 = 1 and one more octave doubles. */
  ghost predicate Exp2Laws(exp2: real -> real)
  {
    && exp2(0.0) == 1.0
    && (forall x: real, y: real :: y == x + 1.0 ==> exp2(y) == 2.0 * exp2(x))
  }

  /** The two's-complement reading of a byte, as `note as i8`. */
  function AsI8(b: Byte): int
  {
    if b < 128 then b else b - 256
  }

  /** i8 subtraction wraps modulo 256 (release-build arithmetic). */
  function WrapI8(x: int): int
  {
    (x + 128) % 256 - 128
  }

  /**
    `note as i8 - 69`, the distance in semitones from A4. For every note up
    to 196, which includes the whole MIDI range 0..127, it is the plain
    difference: for 128..196 the subtraction overflows i8 and the wrap
    brings it back. From 197 up the cast reads the byte as negative and the
    result is 256 below the plain difference.
  */
  function SemitonesFromA4(note: Byte): (k: int)
    ensures -128 <= k < 128
    ensures note <= 196 ==> k == note - 69
    ensures note > 196 ==> k == note - 69 - 256
  {
    WrapI8(AsI8(note) - 69)
  }

  /** mtof: twelve-tone equal temperament anchored at A4 = 440 Hz. */
  function Mtof(exp2: real -> real, note: Byte): (f: real)
    ensures Exp2Laws(exp2) && note == 69 ==> f == 440.0
  {
    exp2((SemitonesFromA4(note) as real) / 12.0) * 440.0
  }

  /** Twelve semitones up doubles the frequency. */
  lemma MtofOctave(exp2: real -> real, note: Byte)
    requires Exp2Laws(exp2)
    requires note + 12 <= 196
    ensures Mtof(exp2, note + 12) == 2.0 * Mtof(exp2, note)
  {
    var x := ((note - 69) as real) / 12.0;
    assert ((note + 12 - 69) as real) / 12.0 == x + 1.0;
  }

  // ---------------------------------------------------------------------------
  // Octave multiplier and waveform shapes
  // ---------------------------------------------------------------------------

  /** The octave parameter in [0, 1] in five buckets of width 0.2. */
  function OctaveMultiplier(octave: real): (m: real)
    ensures m in {0.25, 0.5, 1.0, 2.0, 3.0}
    ensures octave < 0.2 ==> m == 0.25
    ensures 0.8 <= octave ==> m == 3.0
  {
    if octave < 0.2 then 0.25
    else if octave < 0.4 then 0.5
    else if octave < 0.6 then 1.0
    else if octave < 0.8 then 2.0
    else 3.0
  }

  /** A larger octave setting never gives a smaller multiplier. */
  lemma OctaveMultiplierMonotone(a: real, b: real)
    requires a <= b
    ensures OctaveMultiplier(a) <= OctaveMultiplier(b)
  {
  }

  /**
    The triangle output for a phase: a tent peaking at 1 for phase 0.5,
    that is 1 - 4 |phase - 0.5|, within [-1, 1] over one period.
  */
  function TriangleShape(phase: real): (t: real)
    ensures t == 1.0 - 4.0 * (if phase >= 0.5 then phase - 0.5 else 0.5 - phase)
    ensures 0.0 <= phase <= 1.0 ==> -1.0 <= t <= 1.0
  {
    if phase <= 0.5 then (phase - 0.25) * 4.0 else ((1.0 - phase) - 0.25) * 4.0
  }

  // ---------------------------------------------------------------------------
  // Phase accumulators
  // ---------------------------------------------------------------------------

  /** How far the wrap moves a phase that has reached 1.0: 2 for the saw, 1 for the rest. */
  function Span(t: OscillatorType): real
  {
    if t == Saw then 2.0 else 1.0
  }

  /** The lower end of the waveform's phase domain. */
  function PhaseFloor(t: OscillatorType): real
  {
    if t == Saw then -1.0 else 0.0
  }

  /** The per-sample phase increment at frequency freq: twice as large for the saw. */
  function Increment(t: OscillatorType, freq: real, sampleRate: real): real
    requires sampleRate > 0.0
  {
    if t == Saw then (freq / sampleRate) * 2.0 else freq / sampleRate
  }

  /** Wrap first (only a phase at or above 1.0), then advance. */
  function Advanced(phase: real, span: real, step: real): (p: real)
    ensures phase < 1.0 ==> p == phase + step
    ensures phase >= 1.0 ==> p == phase - span + step
  {
    (if phase >= 1.0 then phase - span else phase) + step
  }

  /** The phase stays in [floor, 1 + bound), where bound is the largest increment it sees. */
  predicate PhaseInRange(t: OscillatorType, phase: real, bound: real)
  {
    PhaseFloor(t) <= phase < 1.0 + bound
  }

  /** One wrap-and-advance keeps the phase in range when the increment is in [0, bound] and at most the span. */
  lemma AdvanceInRange(t: OscillatorType, phase: real, bound: real, step: real)
    requires PhaseInRange(t, phase, bound)
    requires 0.0 <= step <= bound && step <= Span(t)
    ensures PhaseInRange(t, Advanced(phase, Span(t), step), bound)
  {
  }

  /** The phase after a run of samples whose increments are `steps`. */
  function PhaseAfter(t: OscillatorType, phase: real, steps: seq<real>): real
    decreases |steps|
  {
    if steps == [] then phase else PhaseAfter(t, Advanced(phase, Span(t), steps[0]), steps[1..])
  }

  /**
    After any number of samples the phase is still in [floor, 1 + bound),
    as long as every increment is in [0, bound] and at most the span (2 for
    the saw, 1 otherwise). A negative increment is not covered: the wrap
    only ever lowers the phase, so a run of negative increments takes the
    phase below its floor (NegativeIncrementDrifts).
  */
  lemma {:induction false} PhaseStaysInRange(t: OscillatorType, phase: real, bound: real, steps: seq<real>)
    requires PhaseInRange(t, phase, bound)
    requires forall i :: 0 <= i < |steps| ==> 0.0 <= steps[i] <= bound && steps[i] <= Span(t)
    ensures PhaseInRange(t, PhaseAfter(t, phase, steps), bound)
    decreases |steps|
  {
    if steps != [] {
      AdvanceInRange(t, phase, bound, steps[0]);
      PhaseStaysInRange(t, Advanced(phase, Span(t), steps[0]), bound, steps[1..]);
    }
  }

  /** The saw from phase 0 at a constant increment s in [0, 2] stays in [-1, 1 + s). */
  lemma SawPhaseBounded(s: real, n: nat)
    requires 0.0 <= s <= 2.0
    ensures -1.0 <= PhaseAfter(Saw, 0.0, seq(n, _ => s)) < 1.0 + s
  {
    PhaseStaysInRange(Saw, 0.0, s, seq(n, _ => s));
  }

  /** The other waveforms from phase 0 at a constant increment s in [0, 1] stay in [0, 1 + s). */
  lemma UnitPhaseBounded(t: OscillatorType, s: real, n: nat)
    requires t != Saw
    requires 0.0 <= s <= 1.0
    ensures 0.0 <= PhaseAfter(t, 0.0, seq(n, _ => s)) < 1.0 + s
  {
    PhaseStaysInRange(t, 0.0, s, seq(n, _ => s));
  }

  /**
    Any run of equal negative increments walks the phase down by exactly n
    times the step: the wrap never fires on the way down. This is a fact
    about such runs, not a claim that the synth's phase drifts without
    bound. The pitch LFO is a sine, so its negative stretches end after half
    a period, and the phase climbs back once the LFO turns positive.
  */
  lemma {:induction false} NegativeIncrementDrifts(t: OscillatorType, phase: real, s: real, n: nat)
    requires phase < 1.0 && s >= 0.0
    ensures PhaseAfter(t, phase, seq(n, _ => -s)) == phase - (n as real) * s
    decreases n
  {
    if n > 0 {
      var steps := seq(n, _ => -s);
      assert steps[0] == -s;
      assert steps[1..] == seq(n - 1, _ => -s);
      NegativeIncrementDrifts(t, phase - s, s, n - 1);
      Adsr.PredecessorTimes(n, s);
    }
  }

  /** Below phase 0 the triangle leaves [-1, 1]. */
  lemma TriangleBelowRange(phase: real)
    requires phase < 0.0
    ensures TriangleShape(phase) < -1.0
  {
  }

  // ---------------------------------------------------------------------------
  // One oscillator sample
  // ---------------------------------------------------------------------------

  /** Every field of the source's Oscillator struct, with the envelope it embeds. */
  datatype OscState = OscState(
    frequency: real,
    velocity: real,
    note: Byte,
    phase: real,
    output: real,
    pulsewidth: real,
    sampleRate: real,
    octaveMod: real,
    oscType: OscillatorType,
    envelope: Adsr.Envelope)

  datatype Rendered = Rendered(osc: OscState, sample: real)

  /** The state Default::default() builds. */
  function DefaultOsc(exp: real -> real, ln: real -> real): (o: OscState)
    ensures o.phase == 0.0 && o.oscType == Saw && o.envelope.stage == Adsr.Idle
  {
    OscState(261.63, 0.0, 60, 0.0, 0.0, 0.5, 44100.0, 1.0, Saw, Adsr.DefaultEnvelope(exp, ln))
  }

  /** note_on: velocity scaled to vel / 127, frequency from the note, note kept, envelope to Attack. */
  function OnNoteOn(o: OscState, exp2: real -> real, note: Byte, vel: Byte): (r: OscState)
    ensures r.note == note && r.frequency == Mtof(exp2, note)
    ensures r.velocity == (vel as real) / 127.0 && 0.0 <= r.velocity
    ensures vel <= 127 ==> r.velocity <= 1.0
    ensures r.envelope == Adsr.OnStartNote(o.envelope)
    ensures r == o.(note := r.note, frequency := r.frequency, velocity := r.velocity, envelope := r.envelope)
  {
    o.(velocity := (vel as real) / 127.0, frequency := Mtof(exp2, note), note := note,
       envelope := Adsr.OnStartNote(o.envelope))
  }

  /** note_off: only the envelope changes, by end_note. */
  function OnNoteOff(o: OscState): (r: OscState)
    ensures r.envelope == Adsr.OnEndNote(o.envelope)
    ensures r == o.(envelope := r.envelope)
  {
    o.(envelope := Adsr.OnEndNote(o.envelope))
  }

  /** set_params: waveform and pulse width stored as given, octave bucketed to a multiplier. */
  function OnSetParams(o: OscState, oscType: OscillatorType, pw: real, octave: real): (r: OscState)
    ensures r.octaveMod in {0.25, 0.5, 1.0, 2.0, 3.0}
    ensures r == o.(oscType := oscType, pulsewidth := pw, octaveMod := r.octaveMod)
  {
    o.(oscType := oscType, pulsewidth := pw, octaveMod := OctaveMultiplier(octave))
  }

  /** set_sample_rate: the oscillator's rate and its envelope's rate. */
  function OnSetSampleRate(o: OscState, sr: real): (r: OscState)
    ensures r.sampleRate == sr && r.envelope.sampleRate == sr
    ensures r == o.(sampleRate := sr, envelope := o.envelope.(sampleRate := sr))
  {
    o.(sampleRate := sr, envelope := o.envelope.(sampleRate := sr))
  }

  /**
    The waveform part of one sample, once the envelope has stepped: the
    phase wraps and advances; the saw returns the phase from before the
    step, pulse and triangle read the advanced phase; every waveform is
    scaled by the envelope output and the velocity.
  */
  function Waveform(o: OscState, freq: real, sin: real -> real): (r: Rendered)
    requires o.sampleRate > 0.0
    ensures r.osc.phase == Advanced(o.phase, Span(o.oscType), Increment(o.oscType, freq, o.sampleRate))
    ensures r.osc == o.(phase := r.osc.phase, output := r.osc.output)
    ensures o.oscType == Saw ==> r.osc.output == o.phase
    ensures o.oscType == Pulse ==> r.osc.output == o.output
    ensures o.oscType == Sin ==> r.osc.output == sin(o.phase * TwoPi)
    ensures o.oscType == Triangle ==> r.osc.output == TriangleShape(r.osc.phase)
    ensures o.oscType != Pulse ==> r.sample == r.osc.output * o.envelope.output * o.velocity
    ensures o.oscType == Pulse ==>
      r.sample == (if r.osc.phase < o.pulsewidth then 1.0 else -1.0) * o.envelope.output * o.velocity
  {
    var step := Increment(o.oscType, freq, o.sampleRate);
    match o.oscType
    case Saw =>
      Rendered(o.(output := o.phase, phase := Advanced(o.phase, 2.0, step)), Gain(o.phase, o.envelope.output, o.velocity))
    case Pulse =>
      var p := Advanced(o.phase, 1.0, step);
      Rendered(o.(phase := p), Gain(if p < o.pulsewidth then 1.0 else -1.0, o.envelope.output, o.velocity))
    case Sin =>
      var s := sin(o.phase * TwoPi);
      Rendered(o.(output := s, phase := Advanced(o.phase, 1.0, step)), Gain(s, o.envelope.output, o.velocity))
    case Triangle =>
      var p := Advanced(o.phase, 1.0, step);
      var t := TriangleShape(p);
      Rendered(o.(output := t, phase := p), Gain(t, o.envelope.output, o.velocity))
  }

  /** A waveform value scaled by the envelope output and the velocity. */
  function Gain(x: real, env: real, velocity: real): real
  {
    x * env * velocity
  }

  /** One sample at frequency `freq`: the envelope steps once, then the waveform. */
  function Render(o: OscState, freq: real, sin: real -> real): (r: Rendered)
    requires o.sampleRate > 0.0
    ensures r.osc.envelope == Adsr.OnProcess(o.envelope)
    ensures r.osc.phase == Advanced(o.phase, Span(o.oscType), Increment(o.oscType, freq, o.sampleRate))
    ensures r.osc == o.(envelope := r.osc.envelope, phase := r.osc.phase, output := r.osc.output)
    ensures o.oscType == Saw ==> r.osc.output == o.phase
    ensures o.oscType == Pulse ==> r.osc.output == o.output
    ensures o.oscType == Sin ==> r.osc.output == sin(o.phase * TwoPi)
    ensures o.oscType == Triangle ==> r.osc.output == TriangleShape(r.osc.phase)
    ensures o.oscType != Pulse ==> r.sample == r.osc.output * r.osc.envelope.output * o.velocity
    ensures o.oscType == Pulse ==>
      r.sample == (if r.osc.phase < o.pulsewidth then 1.0 else -1.0) * r.osc.envelope.output * o.velocity
  {
    Waveform(o.(envelope := Adsr.OnProcess(o.envelope)), freq, sin)
  }

  /** The frequency process uses: the note's frequency times the octave multiplier. */
  function PlainFrequency(o: OscState): real
  {
    o.frequency * o.octaveMod
  }

  /**
    The frequency process_with_pitch_mod uses: the pitch modulation
    MULTIPLIES the note's frequency, so a modulation of 0 gives 0 Hz and a
    negative one a negative frequency.
  */
  function ModulatedFrequency(o: OscState, pitchMod: real): (f: real)
    ensures pitchMod == 0.0 ==> f == 0.0
    ensures pitchMod == 1.0 ==> f == PlainFrequency(o)
  {
    (o.frequency * pitchMod) * o.octaveMod
  }

  /**
    With a pitch modulation of 0 (a pitch LFO of depth 0) the phase only
    wraps: it never advances, so the oscillator holds its phase.
  */
  lemma {:induction false} ZeroPitchModHoldsPhase(o: OscState, sin: real -> real)
    requires o.sampleRate > 0.0
    ensures Render(o, ModulatedFrequency(o, 0.0), sin).osc.phase
         == (if o.phase >= 1.0 then o.phase - Span(o.oscType) else o.phase)
  {
    assert Increment(o.oscType, 0.0, o.sampleRate) == 0.0;
  }

  /**
    A pulse sample is plus or minus the envelope-and-velocity gain: plus
    exactly while the advanced phase is below the pulse width.
  */
  lemma {:induction false} PulseIsBipolar(o: OscState, freq: real, sin: real -> real)
    requires o.sampleRate > 0.0 && o.oscType == Pulse
    ensures var r := Render(o, freq, sin);
            var gain := r.osc.envelope.output * o.velocity;
            r.sample == if r.osc.phase < o.pulsewidth then gain else -gain
  {
    var r := Render(o, freq, sin);
    assert (-1.0) * r.osc.envelope.output * o.velocity == -(r.osc.envelope.output * o.velocity);
  }

  /**
    An oscillator rendered while its phase is in range stays in range, for
    any non-negative frequency small enough that the increment is at most
    the bound and the span.
  */
  lemma RenderKeepsPhaseInRange(o: OscState, freq: real, sin: real -> real, bound: real)
    requires o.sampleRate > 0.0
    requires PhaseInRange(o.oscType, o.phase, bound)
    requires 0.0 <= Increment(o.oscType, freq, o.sampleRate) <= bound
    requires Increment(o.oscType, freq, o.sampleRate) <= Span(o.oscType)
    ensures PhaseInRange(o.oscType, Render(o, freq, sin).osc.phase, bound)
  {
    AdvanceInRange(o.oscType, o.phase, bound, Increment(o.oscType, freq, o.sampleRate));
  }

  // ---------------------------------------------------------------------------
  // The pitch LFO
  // ---------------------------------------------------------------------------

  datatype LfoState = LfoState(frequency: real, phase: real, output: real, depth: real, sampleRate: real)

  datatype LfoRendered = LfoRendered(lfo: LfoState, value: real)

  /** The state Default::default() builds: 5 Hz, depth 0. */
  function DefaultLfo(): LfoState
  {
    LfoState(5.0, 0.0, 0.0, 0.0, 44100.0)
  }

  /** set_params: depth and frequency stored as given, nothing else touched. */
  function OnLfoSetParams(l: LfoState, depth: real, frequency: real): (r: LfoState)
    ensures r == l.(depth := depth, frequency := frequency)
  {
    l.(frequency := frequency, depth := depth)
  }

  /**
    process: sin(2 pi phase) of the phase from before the step, times the
    depth; the phase wraps by 1 and advances by frequency / sample_rate.
  */
  function LfoRender(l: LfoState, sin: real -> real): (r: LfoRendered)
    requires l.sampleRate > 0.0
    ensures r.value == sin(l.phase * TwoPi) * l.depth
    ensures l.depth == 0.0 ==> r.value == 0.0
    ensures r.lfo.phase == Advanced(l.phase, 1.0, l.frequency / l.sampleRate)
    ensures r.lfo == l.(phase := r.lfo.phase, output := sin(l.phase * TwoPi))
  {
    var s := sin(l.phase * TwoPi);
    LfoRendered(l.(output := s, phase := Advanced(l.phase, 1.0, l.frequency / l.sampleRate)), s * l.depth)
  }

  /** What a lemma may need of sin: its values lie in [-1, 1]. */
  ghost predicate SinBounded(sin: real -> real)
  {
    forall x: real :: -1.0 <= sin(x) <= 1.0
  }

  /** The LFO's value never exceeds its depth in magnitude. */
  lemma LfoValueBounded(l: LfoState, sin: real -> real)
    requires l.sampleRate > 0.0 && 0.0 <= l.depth
    requires SinBounded(sin)
    ensures -l.depth <= LfoRender(l, sin).value <= l.depth
  {
    var s := sin(l.phase * TwoPi);
    assert -1.0 <= s <= 1.0;
    assert LfoRender(l, sin).value == s * l.depth;
    if s >= 0.0 {
      assert s * l.depth <= 1.0 * l.depth;
    } else {
      assert (-s) * l.depth <= 1.0 * l.depth;
    }
  }

  /** A product of a value in [-1, 1] and one in [0, 1] stays in [-1, 1]. */
  lemma UnitProduct(a: real, b: real)
    requires -1.0 <= a <= 1.0 && 0.0 <= b <= 1.0
    ensures -1.0 <= a * b <= 1.0
  {
    RealArith.NonNegativeProduct(1.0 - a, b);
    assert (1.0 - a) * b == b - a * b;
    RealArith.NonNegativeProduct(a + 1.0, b);
    assert (a + 1.0) * b == a * b + b;
  }

  /** A sine sample from an envelope within [0, 1] and a MIDI velocity stays in [-1, 1]. */
  lemma SineSampleBounded(o: OscState, freq: real, sin: real -> real)
    requires o.sampleRate > 0.0 && o.oscType == Sin && SinBounded(sin)
    requires Adsr.Bounded(o.envelope) && 0.0 <= o.velocity <= 1.0
    ensures -1.0 <= Render(o, freq, sin).sample <= 1.0
  {
    var r := Render(o, freq, sin);
    Adsr.ProcessBounded(o.envelope);
    var s := sin(o.phase * TwoPi);
    assert r.osc.output == s;
    UnitProduct(s, r.osc.envelope.output);
    UnitProduct(s * r.osc.envelope.output, o.velocity);
  }

  /**
    A negative pitch modulation (the pitch LFO below zero) moves the phase of
    an unwrapped oscillator backwards.
  */
  lemma NegativePitchModStepsBack(o: OscState, sin: real -> real, pitchMod: real)
    requires o.sampleRate > 0.0 && o.phase < 1.0
    requires o.frequency > 0.0 && o.octaveMod > 0.0 && pitchMod < 0.0
    ensures Render(o, ModulatedFrequency(o, pitchMod), sin).osc.phase < o.phase
  {
    var f := ModulatedFrequency(o, pitchMod);
    RealArith.NonNegativeProduct(o.frequency, -pitchMod);
    assert o.frequency * pitchMod < 0.0;
    assert f < 0.0;
    assert f / o.sampleRate < 0.0;
  }

  // ---------------------------------------------------------------------------
  // The structs as the source keeps them, updated in place
  // ---------------------------------------------------------------------------

  class Oscillator {
    var frequency: real
    var velocity: real
    var note: Byte
    var phase: real
    var output: real
    var pulsewidth: real
    var sampleRate: real
    var octaveMod: real
    var oscType: OscillatorType
    /** The embedded envelope, owned by this oscillator alone. */
    const envelope: Adsr.ADSR

    ghost predicate Valid()
      reads this, envelope
    {
      sampleRate > 0.0 && envelope.Valid()
    }

    function Value(): OscState
      reads this, envelope
    {
      OscState(frequency, velocity, note, phase, output, pulsewidth, sampleRate, octaveMod, oscType,
               envelope.Value())
    }

    /** Default::default() */
    constructor (exp: real -> real, ln: real -> real)
      ensures Valid() && fresh(envelope)
      ensures Value() == DefaultOsc(exp, ln)
    {
      frequency := 261.63;
      velocity := 0.0;
      note := 60;
      phase := 0.0;
      output := 0.0;
      pulsewidth := 0.5;
      sampleRate := 44100.0;
      octaveMod := 1.0;
      oscType := Saw;
      envelope := new Adsr.ADSR(exp, ln);
    }

    method NoteOn(exp2: real -> real, note: Byte, vel: Byte)
      requires Valid()
      modifies this, envelope
      ensures Valid()
      ensures Value() == OnNoteOn(old(Value()), exp2, note, vel)
    {
      velocity := (vel as real) / 127.0;
      frequency := Mtof(exp2, note);
      this.note := note;
      envelope.StartNote();
    }

    method NoteOff()
      requires Valid()
      modifies envelope
      ensures Valid()
      ensures Value() == OnNoteOff(old(Value()))
    {
      envelope.EndNote();
    }

    method GetCurrentNote() returns (n: Byte)
      ensures n == Value().note
    {
      n := note;
    }

    method SetParams(oscType: OscillatorType, pw: real, octave: real)
      requires Valid()
      modifies this
      ensures Valid()
      ensures Value() == OnSetParams(old(Value()), oscType, pw, octave)
    {
      this.oscType := oscType;
      pulsewidth := pw;
      if octave < 0.2 {
        octaveMod := 0.25;
      } else if octave < 0.4 {
        octaveMod := 0.5;
      } else if octave < 0.6 {
        octaveMod := 1.0;
      } else if octave < 0.8 {
        octaveMod := 2.0;
      } else {
        octaveMod := 3.0;
      }
    }

    method SetSampleRate(sr: real)
      requires Valid() && sr > 0.0
      modifies this, envelope
      ensures Valid()
      ensures Value() == OnSetSampleRate(old(Value()), sr)
    {
      sampleRate := sr;
      envelope.SetSampleRate(sampleRate);
    }

    /** process: one sample at the note's frequency times the octave multiplier. */
    method Process(sin: real -> real) returns (sample: real)
      requires Valid()
      modifies this, envelope
      ensures Valid()
      ensures Value() == Render(old(Value()), PlainFrequency(old(Value())), sin).osc
      ensures sample == Render(old(Value()), PlainFrequency(old(Value())), sin).sample
    {
      ghost var before := Value();
      envelope.Process();
      assert Value() == before.(envelope := Adsr.OnProcess(before.envelope));
      var freq := frequency * octaveMod;
      assert freq == PlainFrequency(before);
      sample := Tick(freq, sin);
    }

    /** process_with_pitch_mod: one sample at the note's frequency times pitchMod times the octave multiplier. */
    method ProcessWithPitchMod(sin: real -> real, pitchMod: real) returns (sample: real)
      requires Valid()
      modifies this, envelope
      ensures Valid()
      ensures Value() == Render(old(Value()), ModulatedFrequency(old(Value()), pitchMod), sin).osc
      ensures sample == Render(old(Value()), ModulatedFrequency(old(Value()), pitchMod), sin).sample
      ensures pitchMod == 0.0 ==> phase == if old(phase) >= 1.0 then old(phase) - Span(oscType) else old(phase)
    {
      ghost var before := Value();
      envelope.Process();
      assert Value() == before.(envelope := Adsr.OnProcess(before.envelope));
      var freq := (frequency * pitchMod) * octaveMod;
      assert freq == ModulatedFrequency(before, pitchMod);
      sample := Tick(freq, sin);
      assert pitchMod == 0.0 ==> Increment(oscType, freq, sampleRate) == 0.0;
    }

    /** The waveform match shared by both process methods, run after the envelope has stepped. */
    method Tick(freq: real, sin: real -> real) returns (sample: real)
      requires Valid()
      modifies this
      ensures Valid()
      ensures Value() == Waveform(old(Value()), freq, sin).osc
      ensures sample == Waveform(old(Value()), freq, sin).sample
    {
      ghost var o := Value();
      var env := envelope.output;
      match oscType
      case Saw =>
        output := phase;
        if phase >= 1.0 {
          phase := phase - 2.0;
        }
        phase := phase + (freq / sampleRate) * 2.0;
        sample := Gain(output, env, velocity);
        assert sample == Waveform(o, freq, sin).sample;
        assert Value() == o.(output := o.phase, phase := Advanced(o.phase, 2.0, Increment(Saw, freq, o.sampleRate)));
      case Pulse =>
        if phase >= 1.0 {
          phase := phase - 1.0;
        }
        phase := phase + freq / sampleRate;
        var sign := if phase < pulsewidth then 1.0 else -1.0;
        sample := Gain(sign, env, velocity);
        assert sample == Waveform(o, freq, sin).sample;
        assert Value() == o.(phase := Advanced(o.phase, 1.0, Increment(Pulse, freq, o.sampleRate)));
      case Sin =>
        output := sin(phase * TwoPi);
        if phase >= 1.0 {
          phase := phase - 1.0;
        }
        phase := phase + freq / sampleRate;
        sample := Gain(output, env, velocity);
        assert sample == Waveform(o, freq, sin).sample;
        assert Value() == o.(output := sin(o.phase * TwoPi), phase := Advanced(o.phase, 1.0, Increment(Sin, freq, o.sampleRate)));
      case Triangle =>
        if phase >= 1.0 {
          phase := phase - 1.0;
        }
        phase := phase + freq / sampleRate;
        if phase <= 0.5 {
          output := (phase - 0.25) * 4.0;
        } else {
          output := ((1.0 - phase) - 0.25) * 4.0;
        }
        sample := Gain(output, env, velocity);
        assert sample == Waveform(o, freq, sin).sample;
        assert Value() == o.(output := TriangleShape(phase), phase := Advanced(o.phase, 1.0, Increment(Triangle, freq, o.sampleRate)));
    }
  }
  class LFO {
    var frequency: real
    var phase: real
    var output: real
    var depth: real
    /** Never changed after construction: the LFO has no set_sample_rate. */
    var sampleRate: real

    ghost predicate Valid()
      reads this
    {
      sampleRate > 0.0
    }

    function Value(): LfoState
      reads this
    {
      LfoState(frequency, phase, output, depth, sampleRate)
    }

    /** Default::default() */
    constructor ()
      ensures Valid()
      ensures Value() == DefaultLfo()
    {
      frequency := 5.0;
      phase := 0.0;
      output := 0.0;
      depth := 0.0;
      sampleRate := 44100.0;
    }

    method SetParams(depth: real, frequency: real)
      requires Valid()
      modifies this
      ensures Valid()
      ensures Value() == OnLfoSetParams(old(Value()), depth, frequency)
    {
      this.frequency := frequency;
      this.depth := depth;
    }

    method Process(sin: real -> real) returns (value: real)
      requires Valid()
      modifies this
      ensures Valid()
      ensures Value() == LfoRender(old(Value()), sin).lfo
      ensures value == LfoRender(old(Value()), sin).value
    {
      output := sin(phase * TwoPi);
      if phase >= 1.0 {
        phase := phase - 1.0;
      }
      phase := phase + frequency / sampleRate;
      value := output * depth;
    }
  }
}

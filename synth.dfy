/**
  The four-voice polyphonic synth plugin (rs_synth/src/lib.rs): voice
  allocation, MIDI decoding, the 20-slot parameter store and the mapping
  from normalised parameter values to what the oscillators, envelopes,
  filters and pitch LFO are configured with.

  The synth owns its oscillators, filters and LFO by value (Rust vectors of
  structs), so they are sequences of the snapshots the Oscillators module
  defines, updated with the same transition functions the Oscillator and
  LFO classes are proved against. A filter is seen only through the calls
  the synth makes on it; rs_synth/src/filter.rs is not part of this model.
*/
module SynthPlugin {
  import Adsr
  import Oscillators

  type Byte = Oscillators.Byte

  /** The size of the voice pool, fixed in the source. */
  const Voices: nat := 4

  /** The number of automatable parameters. */
  const ParameterCount: nat := 20

  // ---------------------------------------------------------------------------
  // The parameter store
  // ---------------------------------------------------------------------------

  /** The values SynthParameters::default() stores, slot by slot. */
  const DefaultParameters: seq<real> :=
    [0.0, 0.5, 0.5, 0.0, 0.5, 0.5, 0.5, 0.0, 0.0, 1.0,
     0.0, 0.0, 1.0, 0.07, 0.0, 0.0, 1.0, 0.0, 0.0, 0.25]

  /** get_parameter: the value in slot `index`, 0.0 for an index outside 0..19. */
  function ParameterAt(values: seq<real>, index: int): (v: real)
    requires |values| == ParameterCount
    ensures 0 <= index < ParameterCount ==> v == values[index]
    ensures !(0 <= index < ParameterCount) ==> v == 0.0
  {
    if 0 <= index < ParameterCount then values[index] else 0.0
  }

  /**
    set_parameter: a later get of the same slot returns the value, every
    other slot keeps its value, and an index outside 0..19 changes nothing.
  */
  function WithParameter(values: seq<real>, index: int, value: real): (r: seq<real>)
    requires |values| == ParameterCount
    ensures |r| == ParameterCount
    ensures 0 <= index < ParameterCount ==> ParameterAt(r, index) == value
    ensures forall j :: j != index ==> ParameterAt(r, j) == ParameterAt(values, j)
    ensures !(0 <= index < ParameterCount) ==> r == values
  {
    if 0 <= index < ParameterCount then values[index := value] else values
  }

  /** get_parameter_label: the unit shown beside each parameter. */
  function ParameterLabel(index: int): (shown: string)
    ensures shown == "s" <==> index in {7, 8, 10, 14, 15, 17}
    ensures shown == "Hz" <==> index in {12, 19}
    ensures shown == "%" <==> index == 18
    ensures !(index in {7, 8, 10, 12, 14, 15, 17, 18, 19}) ==> shown == ""
  {
    if index == 7 || index == 8 || index == 10 || index == 14 || index == 15 || index == 17 then "s"
    else if index == 12 || index == 19 then "Hz"
    else if index == 18 then "%"
    else ""
  }

  /** The shared parameter object the host writes into. */
  class SynthParameters {
    var values: seq<real>

    ghost predicate Valid()
      reads this
    {
      |values| == ParameterCount
    }

    /** SynthParameters::default() */
    constructor ()
      ensures Valid() && values == DefaultParameters
    {
      values := DefaultParameters;
    }

    method GetParameter(index: int) returns (v: real)
      requires Valid()
      ensures 0 <= index < ParameterCount ==> v == values[index]
      ensures !(0 <= index < ParameterCount) ==> v == 0.0
    {
      if 0 <= index < ParameterCount {
        v := values[index];
      } else {
        v := 0.0;
      }
    }

    method SetParameter(index: int, value: real)
      requires Valid()
      modifies this
      ensures Valid()
      ensures values == WithParameter(old(values), index, value)
    {
      if 0 <= index < ParameterCount {
        values := values[index := value];
      }
    }
  }

  // ---------------------------------------------------------------------------
  // From normalised values to what the voices are configured with
  // ---------------------------------------------------------------------------

  /** The oscillator type a normalised value selects, in four buckets of width 0.25. */
  function OscillatorTypeFor(t: real): (k: Oscillators.OscillatorType)
    ensures t < 0.25 ==> k == Oscillators.Saw
    ensures 0.75 <= t ==> k == Oscillators.Sin
  {
    if t < 0.25 then Oscillators.Saw
    else if t < 0.5 then Oscillators.Pulse
    else if t < 0.75 then Oscillators.Triangle
    else Oscillators.Sin
  }

  /** The text shown for an oscillator type parameter. */
  function TypeText(t: real): string
  {
    if t < 0.25 then "Saw"
    else if t < 0.5 then "Pulse"
    else if t < 0.75 then "Tri"
    else "Sine"
  }

  /** The name a waveform is shown under. */
  function TypeName(k: Oscillators.OscillatorType): string
  {
    match k
    case Saw => "Saw"
    case Pulse => "Pulse"
    case Triangle => "Tri"
    case Sin => "Sine"
  }

  /** The displayed type always names the waveform the oscillators are set to. */
  lemma TypeTextMatchesSelection(t: real)
    ensures TypeText(t) == TypeName(OscillatorTypeFor(t))
  {
  }

  /** The text shown for an octave parameter. */
  function OctaveText(o: real): string
  {
    if o < 0.2 then "-2"
    else if o < 0.4 then "-1"
    else if o < 0.6 then "0"
    else if o < 0.8 then "+1"
    else "+2"
  }

  /**
    The displayed octave against the multiplier the oscillator uses: the
    lower four agree with 2 to the power of the displayed shift, but "+2"
    gives a multiplier of 3, not 4.
  */
  lemma OctaveTextMatchesMultiplier(o: real)
    ensures OctaveText(o) == "-2" <==> Oscillators.OctaveMultiplier(o) == 0.25
    ensures OctaveText(o) == "-1" <==> Oscillators.OctaveMultiplier(o) == 0.5
    ensures OctaveText(o) == "0" <==> Oscillators.OctaveMultiplier(o) == 1.0
    ensures OctaveText(o) == "+1" <==> Oscillators.OctaveMultiplier(o) == 2.0
    ensures OctaveText(o) == "+2" <==> Oscillators.OctaveMultiplier(o) == 3.0
  {
  }

  /** An envelope time in seconds from its normalised value: v squared times 10. */
  function EnvelopeSeconds(v: real): (seconds: real)
    ensures seconds >= 0.0
    ensures 0.0 <= v <= 1.0 ==> seconds <= 10.0
    ensures v == 0.0 ==> seconds == 0.0
    ensures v == 1.0 ==> seconds == 10.0
  {
    SquareBounds(v);
    v * v * 10.0
  }

  lemma SquareBounds(v: real)
    ensures v * v >= 0.0
    ensures 0.0 <= v <= 1.0 ==> v * v <= 1.0
  {
    if v < 0.0 {
      assert v * v == (-v) * (-v);
    }
    if 0.0 <= v <= 1.0 {
      assert v * v <= v * 1.0;
    }
  }

  /** On [0, 1] a longer setting never gives a shorter time. */
  lemma EnvelopeSecondsMonotone(a: real, b: real)
    requires 0.0 <= a <= b
    ensures EnvelopeSeconds(a) <= EnvelopeSeconds(b)
  {
    assert a * a <= a * b;
    assert a * b <= b * b;
    assert a * a * 10.0 <= b * b * 10.0;
  }

  /**
    The number get_parameter_text formats for a slot, before it is rounded
    to two decimals; the type, octave and filter type slots show names
    instead, and are 0.0 here.
  */
  function DisplayedNumber(index: int, v: real): real
  {
    if index in {1, 4, 6, 9, 16} then v
    else if index in {7, 8, 10, 14, 15, 17} then v * v * 10.0
    else if index == 12 then v * v * v * 19980.0 + 20.0
    else if index == 13 then v * 9.9 + 0.1
    else if index == 18 then v * v * 100.0
    else if index == 19 then v * 19.9 + 0.1
    else 0.0
  }

  /** The LFO rate in Hz from its normalised value, 0.1 to 20. */
  function LfoRate(v: real): (hz: real)
    ensures 0.0 <= v <= 1.0 ==> 0.1 <= hz <= 20.0
  {
    v * 19.9 + 0.1
  }

  /** The LFO depth from its normalised value: v squared, shown as a percentage. */
  function LfoDepth(v: real): (depth: real)
    ensures depth >= 0.0
    ensures 0.0 <= v <= 1.0 ==> depth <= 1.0
  {
    SquareBounds(v);
    v * v
  }

  // ---------------------------------------------------------------------------
  // Filters, seen through the calls made on them
  // ---------------------------------------------------------------------------

  datatype FilterCall =
    | StartNote
    | EndNote
    | Configure(cutoff: real, resonance: real, filterType: real,
                attack: real, decay: real, sustain: real, release: real)
    | SetSampleRate(rate: real)

  datatype Filter = Filter(calls: seq<FilterCall>)

  function Record(f: Filter, c: FilterCall): (r: Filter)
    ensures |r.calls| == |f.calls| + 1 && r.calls[|f.calls|] == c
    ensures r.calls[..|f.calls|] == f.calls
  {
    Filter(f.calls + [c])
  }

  // ---------------------------------------------------------------------------
  // The synth's state and its operations
  // ---------------------------------------------------------------------------

  datatype SynthState = SynthState(
    oscillatorsOne: seq<Oscillators.OscState>,
    oscillatorsTwo: seq<Oscillators.OscState>,
    pitchLfo: Oscillators.LfoState,
    lastPlayedOscIndex: int,
    filters: seq<Filter>,
    sampleRate: real)

  /** Four voices in each bank, four filters, and a cursor on a voice. */
  predicate WellFormed(s: SynthState)
  {
    && |s.oscillatorsOne| == Voices
    && |s.oscillatorsTwo| == Voices
    && |s.filters| == Voices
    && 0 <= s.lastPlayedOscIndex < Voices
  }

  /** An oscillator that can be stepped and reconfigured. */
  predicate OscReady(o: Oscillators.OscState)
  {
    && o.sampleRate > 0.0
    && o.envelope.attackRatio >= Adsr.MinTargetRatio
    && o.envelope.drRatio >= Adsr.MinTargetRatio
  }

  predicate Ready(s: SynthState)
  {
    && WellFormed(s)
    && s.pitchLfo.sampleRate > 0.0
    && (forall i :: 0 <= i < Voices ==> OscReady(s.oscillatorsOne[i]))
    && (forall i :: 0 <= i < Voices ==> OscReady(s.oscillatorsTwo[i]))
  }

  /** What Synth::new builds: default oscillators, filters and LFO, cursor on voice 0. */
  function DefaultSynth(exp: real -> real, ln: real -> real): (s: SynthState)
    ensures Ready(s)
    ensures s.lastPlayedOscIndex == 0
    ensures forall i :: 0 <= i < Voices ==>
      s.oscillatorsOne[i].envelope.stage == Adsr.Idle && s.oscillatorsTwo[i].envelope.stage == Adsr.Idle
  {
    var o := Oscillators.DefaultOsc(exp, ln);
    SynthState([o, o, o, o], [o, o, o, o], Oscillators.DefaultLfo(), 0,
               [Filter([]), Filter([]), Filter([]), Filter([])], 44100.0)
  }

  /**
    note_on: the voice under the cursor plays the note in both banks and its
    filter is told a note started; the cursor moves round-robin to the next
    voice. No voice is looked for: the oldest note is stolen.
  */
  function OnSynthNoteOn(s: SynthState, exp2: real -> real, note: Byte, vel: Byte): (r: SynthState)
    requires WellFormed(s)
    ensures WellFormed(r)
    ensures r.lastPlayedOscIndex == (s.lastPlayedOscIndex + 1) % Voices
    ensures var c := s.lastPlayedOscIndex;
      && r.oscillatorsOne[c] == Oscillators.OnNoteOn(s.oscillatorsOne[c], exp2, note, vel)
      && r.oscillatorsTwo[c] == Oscillators.OnNoteOn(s.oscillatorsTwo[c], exp2, note, vel)
      && r.filters[c] == Record(s.filters[c], StartNote)
    ensures forall i :: 0 <= i < Voices && i != s.lastPlayedOscIndex ==>
      && r.oscillatorsOne[i] == s.oscillatorsOne[i]
      && r.oscillatorsTwo[i] == s.oscillatorsTwo[i]
      && r.filters[i] == s.filters[i]
    ensures r.pitchLfo == s.pitchLfo && r.sampleRate == s.sampleRate
  {
    var c := s.lastPlayedOscIndex;
    s.(oscillatorsOne := s.oscillatorsOne[c := Oscillators.OnNoteOn(s.oscillatorsOne[c], exp2, note, vel)],
       oscillatorsTwo := s.oscillatorsTwo[c := Oscillators.OnNoteOn(s.oscillatorsTwo[c], exp2, note, vel)],
       filters := s.filters[c := Record(s.filters[c], StartNote)],
       lastPlayedOscIndex := (c + 1) % Voices)
  }

  /** A voice playing `note` has its envelope released; any other is left alone. */
  function ReleaseIfPlaying(o: Oscillators.OscState, note: Byte): Oscillators.OscState
  {
    if o.note == note then Oscillators.OnNoteOff(o) else o
  }

  /** A filter is told a note ended when the bank-one voice it belongs to plays that note. */
  function EndIfPlaying(f: Filter, o: Oscillators.OscState, note: Byte): Filter
  {
    if o.note == note then Record(f, EndNote) else f
  }

  /**
    note_off: every voice of bank one whose stored note is `note` is
    released and its filter told; bank two is matched on its own stored
    notes. Voices playing other notes, the cursor and the LFO are unchanged.
  */
  function OnSynthNoteOff(s: SynthState, note: Byte): (r: SynthState)
    requires WellFormed(s)
    ensures WellFormed(r)
    ensures forall i :: 0 <= i < Voices ==>
      && r.oscillatorsOne[i].note == s.oscillatorsOne[i].note
      && r.oscillatorsOne[i].envelope.output == s.oscillatorsOne[i].envelope.output
      && (s.oscillatorsOne[i].note == note && s.oscillatorsOne[i].envelope.stage != Adsr.Idle ==>
            r.oscillatorsOne[i].envelope.stage == Adsr.Release)
      && (s.oscillatorsOne[i].note == note ==> r.oscillatorsOne[i] == Oscillators.OnNoteOff(s.oscillatorsOne[i]))
      && (s.oscillatorsOne[i].note != note ==> r.oscillatorsOne[i] == s.oscillatorsOne[i])
      && (s.oscillatorsOne[i].note == note ==> r.filters[i] == Record(s.filters[i], EndNote))
      && (s.oscillatorsOne[i].note != note ==> r.filters[i] == s.filters[i])
    ensures forall i :: 0 <= i < Voices ==>
      && r.oscillatorsTwo[i].note == s.oscillatorsTwo[i].note
      && (s.oscillatorsTwo[i].note == note && s.oscillatorsTwo[i].envelope.stage != Adsr.Idle ==>
            r.oscillatorsTwo[i].envelope.stage == Adsr.Release)
      && (s.oscillatorsTwo[i].note == note ==> r.oscillatorsTwo[i] == Oscillators.OnNoteOff(s.oscillatorsTwo[i]))
      && (s.oscillatorsTwo[i].note != note ==> r.oscillatorsTwo[i] == s.oscillatorsTwo[i])
    ensures r.lastPlayedOscIndex == s.lastPlayedOscIndex
    ensures r.pitchLfo == s.pitchLfo && r.sampleRate == s.sampleRate
  {
    s.(oscillatorsOne := seq(Voices, i requires 0 <= i < Voices => ReleaseIfPlaying(s.oscillatorsOne[i], note)),
       oscillatorsTwo := seq(Voices, i requires 0 <= i < Voices => ReleaseIfPlaying(s.oscillatorsTwo[i], note)),
       filters := seq(Voices, i requires 0 <= i < Voices => EndIfPlaying(s.filters[i], s.oscillatorsOne[i], note)))
  }

  /** The status byte of a Note Off message on MIDI channel 1 (MIDI 1.0, Channel Voice Messages). */
  const NoteOffStatus: Byte := 128

  /** The status byte of a Note On message on MIDI channel 1. */
  const NoteOnStatus: Byte := 144

  /**
    process_midi_event: a three-byte message; Note Off on channel 1 releases
    the note in data[1], Note On on channel 1 starts the note in data[1] at
    velocity data[2], and every other message is ignored.
  */
  function OnMidiEvent(s: SynthState, exp2: real -> real, data: seq<Byte>): (r: SynthState)
    requires WellFormed(s) && |data| == 3
    ensures WellFormed(r)
    ensures data[0] == NoteOffStatus ==> r == OnSynthNoteOff(s, data[1])
    ensures data[0] == NoteOnStatus ==> r == OnSynthNoteOn(s, exp2, data[1], data[2])
    ensures data[0] != NoteOffStatus && data[0] != NoteOnStatus ==> r == s
  {
    if data[0] == NoteOffStatus then OnSynthNoteOff(s, data[1])
    else if data[0] == NoteOnStatus then OnSynthNoteOn(s, exp2, data[1], data[2])
    else s
  }

  /**
    A Note On with velocity 0, which MIDI 1.0 allows as a Note Off, still
    starts a note here: the voice under the cursor goes to Attack with
    velocity 0 and the cursor moves on.
  */
  lemma ZeroVelocityNoteOnStartsNote(s: SynthState, exp2: real -> real, note: Byte)
    requires WellFormed(s)
    ensures var r := OnMidiEvent(s, exp2, [NoteOnStatus, note, 0]);
      && r.oscillatorsOne[s.lastPlayedOscIndex].envelope.stage == Adsr.Attack
      && r.oscillatorsOne[s.lastPlayedOscIndex].velocity == 0.0
      && r.lastPlayedOscIndex == (s.lastPlayedOscIndex + 1) % Voices
  {
    var data: seq<Byte> := [NoteOnStatus, note, 0];
    assert data[0] == NoteOnStatus;
  }

  /** Note Off and Note On messages on MIDI channels 2 to 16 change nothing. */
  lemma OtherChannelsIgnored(s: SynthState, exp2: real -> real, channel: int, d1: Byte, d2: Byte)
    requires WellFormed(s) && 1 <= channel < 16
    ensures OnMidiEvent(s, exp2, [NoteOffStatus + channel, d1, d2]) == s
    ensures OnMidiEvent(s, exp2, [NoteOnStatus + channel, d1, d2]) == s
  {
    var off: seq<Byte> := [NoteOffStatus + channel, d1, d2];
    var on: seq<Byte> := [NoteOnStatus + channel, d1, d2];
    assert off[0] != NoteOffStatus && off[0] != NoteOnStatus;
    assert on[0] != NoteOffStatus && on[0] != NoteOnStatus;
  }

  /** A note started and then ended leaves the voice it took released in both banks. */
  lemma NoteOnThenOffReleases(s: SynthState, exp2: real -> real, note: Byte, vel: Byte)
    requires WellFormed(s)
    ensures var c := s.lastPlayedOscIndex;
      var r := OnSynthNoteOff(OnSynthNoteOn(s, exp2, note, vel), note);
      && r.oscillatorsOne[c].envelope.stage == Adsr.Release
      && r.oscillatorsTwo[c].envelope.stage == Adsr.Release
      && r.filters[c].calls == s.filters[c].calls + [StartNote, EndNote]
  {
    var c := s.lastPlayedOscIndex;
    var m := OnSynthNoteOn(s, exp2, note, vel);
    assert m.oscillatorsOne[c].note == note && m.oscillatorsOne[c].envelope.stage == Adsr.Attack;
    assert m.oscillatorsTwo[c].note == note && m.oscillatorsTwo[c].envelope.stage == Adsr.Attack;
    assert s.filters[c].calls + [StartNote] + [EndNote] == s.filters[c].calls + [StartNote, EndNote];
  }

  // ---------------------------------------------------------------------------
  // Round-robin voice allocation
  // ---------------------------------------------------------------------------

  /** A run of note_on calls, each (note, velocity). */
  function NoteOnSeries(s: SynthState, exp2: real -> real, notes: seq<(Byte, Byte)>): (r: SynthState)
    requires WellFormed(s)
    ensures WellFormed(r)
    decreases |notes|
  {
    if notes == [] then s
    else NoteOnSeries(OnSynthNoteOn(s, exp2, notes[0].0, notes[0].1), exp2, notes[1..])
  }

  /** The voice the cursor reaches j steps after voice c. */
  function Slot(c: int, j: int): (v: int)
    ensures 0 <= v < Voices
  {
    (c + j) % Voices
  }

  /** Moving the cursor one voice and then j more is moving it j + 1. */
  lemma SlotStep(c: int, j: int)
    ensures Slot((c + 1) % Voices, j) == Slot(c, j + 1)
  {
    var q := (c + 1) / Voices;
    assert c + 1 == Voices * q + (c + 1) % Voices;
    assert (c + 1) % Voices + j == (c + 1 + j) - Voices * q;
  }

  /** A step of one to three voices from voice c lands on another voice. */
  lemma SlotMoves(c: int, t: int)
    requires 0 <= c < Voices && 0 < t < Voices
    ensures Slot(c, t) != c
  {
    if c + t < Voices {
      assert Slot(c, t) == c + t;
    } else {
      assert Slot(c, t) == c + t - Voices;
    }
  }

  /** Voice v of both banks is playing `note`, both its envelopes in their attack. */
  predicate Sounding(s: SynthState, v: int, note: Byte)
    requires WellFormed(s) && 0 <= v < Voices
  {
    && s.oscillatorsOne[v].note == note
    && s.oscillatorsTwo[v].note == note
    && s.oscillatorsOne[v].envelope.stage == Adsr.Attack
    && s.oscillatorsTwo[v].envelope.stage == Adsr.Attack
  }

  /** After k note_on calls the cursor has moved k voices on, modulo 4. */
  lemma {:induction false} CursorAfterSeries(s: SynthState, exp2: real -> real, notes: seq<(Byte, Byte)>)
    requires WellFormed(s)
    ensures NoteOnSeries(s, exp2, notes).lastPlayedOscIndex == Slot(s.lastPlayedOscIndex, |notes|)
    decreases |notes|
  {
    if notes != [] {
      var m := OnSynthNoteOn(s, exp2, notes[0].0, notes[0].1);
      CursorAfterSeries(m, exp2, notes[1..]);
      SlotStep(s.lastPlayedOscIndex, |notes| - 1);
    } else {
      assert Slot(s.lastPlayedOscIndex, 0) == s.lastPlayedOscIndex;
    }
  }

  /** A voice the series never reaches keeps its oscillators. */
  lemma {:induction false} SeriesLeavesOtherVoices(s: SynthState, exp2: real -> real, notes: seq<(Byte, Byte)>, v: int)
    requires WellFormed(s) && 0 <= v < Voices
    requires forall j :: 0 <= j < |notes| ==> Slot(s.lastPlayedOscIndex, j) != v
    ensures NoteOnSeries(s, exp2, notes).oscillatorsOne[v] == s.oscillatorsOne[v]
    ensures NoteOnSeries(s, exp2, notes).oscillatorsTwo[v] == s.oscillatorsTwo[v]
    decreases |notes|
  {
    if notes != [] {
      var m := OnSynthNoteOn(s, exp2, notes[0].0, notes[0].1);
      assert Slot(s.lastPlayedOscIndex, 0) != v;
      assert Slot(s.lastPlayedOscIndex, 0) == s.lastPlayedOscIndex;
      forall j | 0 <= j < |notes[1..]|
        ensures Slot(m.lastPlayedOscIndex, j) != v
      {
        SlotStep(s.lastPlayedOscIndex, j);
        assert Slot(s.lastPlayedOscIndex, j + 1) != v;
      }
      SeriesLeavesOtherVoices(m, exp2, notes[1..], v);
    }
  }

  /**
    In a run of at most four note_on calls the j-th note is played by voice
    (cursor + j) mod 4 of both banks: no voice is taken twice.
  */
  lemma {:induction false} SeriesLandsRoundRobin(s: SynthState, exp2: real -> real, notes: seq<(Byte, Byte)>, j: int)
    requires WellFormed(s) && |notes| <= Voices && 0 <= j < |notes|
    ensures Sounding(NoteOnSeries(s, exp2, notes), Slot(s.lastPlayedOscIndex, j), notes[j].0)
    decreases |notes|
  {
    if j == 0 {
      FirstOfSeriesLands(s, exp2, notes);
    } else {
      SlotStep(s.lastPlayedOscIndex, j - 1);
      var m := OnSynthNoteOn(s, exp2, notes[0].0, notes[0].1);
      assert NoteOnSeries(s, exp2, notes) == NoteOnSeries(m, exp2, notes[1..]);
      assert notes[1..][j - 1] == notes[j];
      SeriesLandsRoundRobin(m, exp2, notes[1..], j - 1);
      assert Slot(m.lastPlayedOscIndex, j - 1) == Slot(s.lastPlayedOscIndex, j);
    }
  }

  /** The first of at most four note_on calls keeps the voice under the cursor to the end. */
  lemma FirstOfSeriesLands(s: SynthState, exp2: real -> real, notes: seq<(Byte, Byte)>)
    requires WellFormed(s) && 0 < |notes| <= Voices
    ensures Sounding(NoteOnSeries(s, exp2, notes), s.lastPlayedOscIndex, notes[0].0)
  {
    var c := s.lastPlayedOscIndex;
    var next := (c + 1) % Voices;
    forall k | 0 <= k < |notes| - 1
      ensures Slot(next, k) != c
    {
      SlotStep(c, k);
      SlotMoves(c, k + 1);
    }
    var m := OnSynthNoteOn(s, exp2, notes[0].0, notes[0].1);
    SeriesLeavesOtherVoices(m, exp2, notes[1..], c);
  }

  /**
    Five note_on calls from the first voice: the fifth steals voice 0 from
    the first note, and voices 1, 2 and 3 still play notes two to four.
  */
  lemma FifthNoteStealsFirstVoice(s: SynthState, exp2: real -> real, notes: seq<(Byte, Byte)>)
    requires WellFormed(s) && s.lastPlayedOscIndex == 0 && |notes| == 5
    ensures var r := NoteOnSeries(s, exp2, notes);
      && r.oscillatorsOne[0].note == notes[4].0
      && r.oscillatorsOne[1].note == notes[1].0
      && r.oscillatorsOne[2].note == notes[2].0
      && r.oscillatorsOne[3].note == notes[3].0
      && r.lastPlayedOscIndex == 1
  {
    var first := OnSynthNoteOn(s, exp2, notes[0].0, notes[0].1);
    var rest := notes[1..];
    assert NoteOnSeries(s, exp2, notes) == NoteOnSeries(first, exp2, rest);
    assert first.lastPlayedOscIndex == 1;
    assert rest[0] == notes[1] && rest[1] == notes[2] && rest[2] == notes[3] && rest[3] == notes[4];
    assert Slot(1, 0) == 1 && Slot(1, 1) == 2 && Slot(1, 2) == 3 && Slot(1, 3) == 0 && Slot(1, 4) == 1;
    SeriesLandsRoundRobin(first, exp2, rest, 0);
    SeriesLandsRoundRobin(first, exp2, rest, 1);
    SeriesLandsRoundRobin(first, exp2, rest, 2);
    SeriesLandsRoundRobin(first, exp2, rest, 3);
    CursorAfterSeries(first, exp2, rest);
  }

  // ---------------------------------------------------------------------------
  // Configuration: the set_params half of process, and set_sample_rate
  // ---------------------------------------------------------------------------

  /** One oscillator of bank one or two set from the parameter values, envelope included. */
  function ConfigureOscillator(o: Oscillators.OscState, exp: real -> real, ln: real -> real,
                               p: seq<real>, typeSlot: nat): (r: Oscillators.OscState)
    requires |p| == ParameterCount && typeSlot + 2 < ParameterCount
    requires OscReady(o)
    ensures OscReady(r)
  {
    var withType := Oscillators.OnSetParams(o, OscillatorTypeFor(p[typeSlot]), p[typeSlot + 1], p[typeSlot + 2]);
    withType.(envelope := Adsr.OnSetParams(withType.envelope, exp, ln,
                                           EnvelopeSeconds(p[7]), EnvelopeSeconds(p[8]), p[9], EnvelopeSeconds(p[10])))
  }

  /**
    What a voice's oscillator is set to: the waveform its type parameter
    selects, the pulse width as given, the octave multiplier, and envelope
    times of v squared times 10 seconds in samples with the sustain as
    given; the note, phase and the envelope's stage and level are kept.
  */
  lemma ConfigureOscillatorSettings(o: Oscillators.OscState, exp: real -> real, ln: real -> real,
                                    p: seq<real>, typeSlot: nat)
    requires |p| == ParameterCount && typeSlot + 2 < ParameterCount
    requires OscReady(o)
    ensures var r := ConfigureOscillator(o, exp, ln, p, typeSlot);
      && r.oscType == OscillatorTypeFor(p[typeSlot]) && r.pulsewidth == p[typeSlot + 1]
      && r.octaveMod == Oscillators.OctaveMultiplier(p[typeSlot + 2])
      && r.envelope.attack == EnvelopeSeconds(p[7]) * o.envelope.sampleRate
      && r.envelope.decay == EnvelopeSeconds(p[8]) * o.envelope.sampleRate
      && r.envelope.sustain == p[9]
      && r.envelope.release == EnvelopeSeconds(p[10]) * o.envelope.sampleRate
      && r.envelope.decayBase == (p[9] - o.envelope.drRatio) * (1.0 - r.envelope.decayCoeff)
      && r.envelope.stage == o.envelope.stage && r.envelope.output == o.envelope.output
      && r.phase == o.phase && r.note == o.note && r.frequency == o.frequency && r.velocity == o.velocity
  {
  }

  /** The set_params call a filter receives. */
  function FilterSettings(p: seq<real>): FilterCall
    requires |p| == ParameterCount
  {
    Configure(p[12] * p[12] * p[12], p[13], p[11],
              EnvelopeSeconds(p[14]), EnvelopeSeconds(p[15]), p[16], EnvelopeSeconds(p[17]))
  }

  /**
    The set_params half of process: every voice's two oscillators, their
    envelopes and its filter are set from the parameter values, and the
    pitch LFO gets its depth and rate. Notes, phases, envelope stages and
    levels, and the cursor are untouched.
  */
  function OnApplyParameters(s: SynthState, exp: real -> real, ln: real -> real, p: seq<real>): (r: SynthState)
    requires Ready(s) && |p| == ParameterCount
    ensures Ready(r)
    ensures forall i :: 0 <= i < Voices ==>
      && r.oscillatorsOne[i] == ConfigureOscillator(s.oscillatorsOne[i], exp, ln, p, 0)
      && r.oscillatorsTwo[i] == ConfigureOscillator(s.oscillatorsTwo[i], exp, ln, p, 3)
      && r.filters[i] == Record(s.filters[i], FilterSettings(p))
    ensures r.pitchLfo == Oscillators.OnLfoSetParams(s.pitchLfo, LfoDepth(p[18]), LfoRate(p[19]))
    ensures r.lastPlayedOscIndex == s.lastPlayedOscIndex && r.sampleRate == s.sampleRate
  {
    s.(oscillatorsOne := seq(Voices, i requires 0 <= i < Voices => ConfigureOscillator(s.oscillatorsOne[i], exp, ln, p, 0)),
       oscillatorsTwo := seq(Voices, i requires 0 <= i < Voices => ConfigureOscillator(s.oscillatorsTwo[i], exp, ln, p, 3)),
       filters := seq(Voices, i requires 0 <= i < Voices => Record(s.filters[i], FilterSettings(p))),
       pitchLfo := Oscillators.OnLfoSetParams(s.pitchLfo, LfoDepth(p[18]), LfoRate(p[19])))
  }

  /**
    The envelope times a voice is given are the values the host shows for
    the attack, decay and release parameters, converted to samples, and the
    sustain is the value shown for the sustain parameter.
  */
  lemma EnvelopeMatchesDisplay(o: Oscillators.OscState, exp: real -> real, ln: real -> real, p: seq<real>, typeSlot: nat)
    requires OscReady(o) && |p| == ParameterCount && typeSlot + 2 < ParameterCount
    ensures var e := ConfigureOscillator(o, exp, ln, p, typeSlot).envelope;
      && e.attack == DisplayedNumber(7, p[7]) * o.envelope.sampleRate
      && e.decay == DisplayedNumber(8, p[8]) * o.envelope.sampleRate
      && e.sustain == DisplayedNumber(9, p[9])
      && e.release == DisplayedNumber(10, p[10]) * o.envelope.sampleRate
  {
    ConfigureOscillatorSettings(o, exp, ln, p, typeSlot);
    assert DisplayedNumber(7, p[7]) == EnvelopeSeconds(p[7]);
    assert DisplayedNumber(8, p[8]) == EnvelopeSeconds(p[8]);
    assert DisplayedNumber(10, p[10]) == EnvelopeSeconds(p[10]);
  }

  /** The LFO rate set is the value shown for the rate parameter, and its depth the shown percentage over 100. */
  lemma LfoMatchesDisplay(s: SynthState, exp: real -> real, ln: real -> real, p: seq<real>)
    requires Ready(s) && |p| == ParameterCount
    ensures var lfo := OnApplyParameters(s, exp, ln, p).pitchLfo;
      && lfo.frequency == DisplayedNumber(19, p[19])
      && lfo.depth * 100.0 == DisplayedNumber(18, p[18])
  {
  }

  /** set_sample_rate: every oscillator (with its envelope) and every filter gets the rate; the LFO keeps its own. */
  function OnSynthSetSampleRate(s: SynthState, rate: real): (r: SynthState)
    requires Ready(s) && rate > 0.0
    ensures Ready(r)
    ensures forall i :: 0 <= i < Voices ==>
      && r.oscillatorsOne[i].sampleRate == rate && r.oscillatorsOne[i].envelope.sampleRate == rate
      && r.oscillatorsTwo[i].sampleRate == rate && r.oscillatorsTwo[i].envelope.sampleRate == rate
      && r.filters[i] == Record(s.filters[i], SetSampleRate(rate))
    ensures forall i :: 0 <= i < Voices ==>
      && r.oscillatorsOne[i] == Oscillators.OnSetSampleRate(s.oscillatorsOne[i], rate)
      && r.oscillatorsTwo[i] == Oscillators.OnSetSampleRate(s.oscillatorsTwo[i], rate)
    ensures r.pitchLfo == s.pitchLfo && r.sampleRate == rate
    ensures r.lastPlayedOscIndex == s.lastPlayedOscIndex
  {
    s.(sampleRate := rate,
       oscillatorsOne := seq(Voices, i requires 0 <= i < Voices => Oscillators.OnSetSampleRate(s.oscillatorsOne[i], rate)),
       oscillatorsTwo := seq(Voices, i requires 0 <= i < Voices => Oscillators.OnSetSampleRate(s.oscillatorsTwo[i], rate)),
       filters := seq(Voices, i requires 0 <= i < Voices => Record(s.filters[i], SetSampleRate(rate))))
  }

  // ---------------------------------------------------------------------------
  // The plugin struct as the source keeps it, updated in place
  // ---------------------------------------------------------------------------

  class Synth {
    var oscillatorsOne: seq<Oscillators.OscState>
    var oscillatorsTwo: seq<Oscillators.OscState>
    var pitchLfo: Oscillators.LfoState
    /** Shared with the host, which writes parameter values into it. */
    const params: SynthParameters
    var lastPlayedOscIndex: int
    var filters: seq<Filter>
    var sampleRate: real

    ghost predicate Valid()
      reads this, params
    {
      Ready(Value()) && params.Valid()
    }

    function Value(): SynthState
      reads this
    {
      SynthState(oscillatorsOne, oscillatorsTwo, pitchLfo, lastPlayedOscIndex, filters, sampleRate)
    }

    /** Plugin::new */
    constructor (exp: real -> real, ln: real -> real)
      ensures Valid() && fresh(params)
      ensures Value() == DefaultSynth(exp, ln)
      ensures params.values == DefaultParameters
    {
      var o := Oscillators.DefaultOsc(exp, ln);
      oscillatorsOne := [o, o, o, o];
      oscillatorsTwo := [o, o, o, o];
      pitchLfo := Oscillators.DefaultLfo();
      params := new SynthParameters();
      lastPlayedOscIndex := 0;
      filters := [Filter([]), Filter([]), Filter([]), Filter([])];
      sampleRate := 44100.0;
    }

    method NoteOn(exp2: real -> real, note: Byte, vel: Byte)
      requires Valid()
      modifies this
      ensures Valid()
      ensures Value() == OnSynthNoteOn(old(Value()), exp2, note, vel)
    {
      var c := lastPlayedOscIndex;
      oscillatorsOne := oscillatorsOne[c := Oscillators.OnNoteOn(oscillatorsOne[c], exp2, note, vel)];
      oscillatorsTwo := oscillatorsTwo[c := Oscillators.OnNoteOn(oscillatorsTwo[c], exp2, note, vel)];
      filters := filters[c := Record(filters[c], StartNote)];
      lastPlayedOscIndex := (lastPlayedOscIndex + 1) % Voices;
    }

    method NoteOff(note: Byte)
      requires Valid()
      modifies this
      ensures Valid()
      ensures Value() == OnSynthNoteOff(old(Value()), note)
    {
      var one, two, fs := oscillatorsOne, oscillatorsTwo, filters;
      for i := 0 to Voices
        invariant |one| == Voices && |two| == Voices && |fs| == Voices
        invariant forall k :: 0 <= k < i ==> one[k] == ReleaseIfPlaying(oscillatorsOne[k], note)
        invariant forall k :: 0 <= k < i ==> two[k] == ReleaseIfPlaying(oscillatorsTwo[k], note)
        invariant forall k :: 0 <= k < i ==> fs[k] == EndIfPlaying(filters[k], oscillatorsOne[k], note)
        invariant forall k :: i <= k < Voices ==> one[k] == oscillatorsOne[k]
        invariant forall k :: i <= k < Voices ==> two[k] == oscillatorsTwo[k]
        invariant forall k :: i <= k < Voices ==> fs[k] == filters[k]
      {
        if one[i].note == note {
          one := one[i := Oscillators.OnNoteOff(one[i])];
          fs := fs[i := Record(fs[i], EndNote)];
        }
        if two[i].note == note {
          two := two[i := Oscillators.OnNoteOff(two[i])];
        }
      }
      oscillatorsOne, oscillatorsTwo, filters := one, two, fs;
    }

    method ProcessMidiEvent(exp2: real -> real, data: seq<Byte>)
      requires Valid() && |data| == 3
      modifies this
      ensures Valid()
      ensures Value() == OnMidiEvent(old(Value()), exp2, data)
    {
      if data[0] == NoteOffStatus {
        NoteOff(data[1]);
      } else if data[0] == NoteOnStatus {
        NoteOn(exp2, data[1], data[2]);
      }
    }

    /** The set_params half of process, reading the shared parameter values. */
    method ApplyParameters(exp: real -> real, ln: real -> real)
      requires Valid()
      modifies this
      ensures Valid()
      ensures Value() == OnApplyParameters(old(Value()), exp, ln, params.values)
    {
      var p := params.values;
      var one, two, fs := oscillatorsOne, oscillatorsTwo, filters;
      for i := 0 to Voices
        invariant |one| == Voices && |two| == Voices && |fs| == Voices
        invariant forall k :: 0 <= k < i ==> one[k] == ConfigureOscillator(oscillatorsOne[k], exp, ln, p, 0)
        invariant forall k :: 0 <= k < i ==> two[k] == ConfigureOscillator(oscillatorsTwo[k], exp, ln, p, 3)
        invariant forall k :: 0 <= k < i ==> fs[k] == Record(filters[k], FilterSettings(p))
        invariant forall k :: i <= k < Voices ==> one[k] == oscillatorsOne[k]
        invariant forall k :: i <= k < Voices ==> two[k] == oscillatorsTwo[k]
        invariant forall k :: i <= k < Voices ==> fs[k] == filters[k]
      {
        one := one[i := ConfigureOscillator(one[i], exp, ln, p, 0)];
        two := two[i := ConfigureOscillator(two[i], exp, ln, p, 3)];
        fs := fs[i := Record(fs[i], FilterSettings(p))];
      }
      oscillatorsOne, oscillatorsTwo, filters := one, two, fs;
      pitchLfo := Oscillators.OnLfoSetParams(pitchLfo, LfoDepth(p[18]), LfoRate(p[19]));
    }

    method SetSampleRate(rate: real)
      requires Valid() && rate > 0.0
      modifies this
      ensures Valid()
      ensures Value() == OnSynthSetSampleRate(old(Value()), rate)
    {
      sampleRate := rate;
      var one, two, fs := oscillatorsOne, oscillatorsTwo, filters;
      for i := 0 to Voices
        invariant |one| == Voices && |two| == Voices && |fs| == Voices
        invariant forall k :: 0 <= k < i ==> one[k] == Oscillators.OnSetSampleRate(oscillatorsOne[k], rate)
        invariant forall k :: 0 <= k < i ==> two[k] == Oscillators.OnSetSampleRate(oscillatorsTwo[k], rate)
        invariant forall k :: 0 <= k < i ==> fs[k] == Record(filters[k], FilterCall.SetSampleRate(rate))
        invariant forall k :: i <= k < Voices ==> one[k] == oscillatorsOne[k]
        invariant forall k :: i <= k < Voices ==> two[k] == oscillatorsTwo[k]
        invariant forall k :: i <= k < Voices ==> fs[k] == filters[k]
      {
        one := one[i := Oscillators.OnSetSampleRate(one[i], sampleRate)];
        two := two[i := Oscillators.OnSetSampleRate(two[i], sampleRate)];
        fs := fs[i := Record(fs[i], FilterCall.SetSampleRate(sampleRate))];
      }
      oscillatorsOne, oscillatorsTwo, filters := one, two, fs;
    }
  }
}

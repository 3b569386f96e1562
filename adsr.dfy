/**
  The ADSR envelope of the polyphonic synth (rs_synth/src/adsr.rs).

  An envelope is a five-state machine whose per-sample step applies the
  one-pole recurrence `output := base + output * coeff` of the current
  segment and clamps at the segment's end. `f32` is modelled as `real`;
  `exp` and `ln`, used only to compute segment coefficients, are
  parameters about which nothing is known beyond `ExpLnLaws`.
*/
module Adsr {
  import RealArith

  datatype Stage = Idle | Attack | Decay | Sustain | Release

  /** Every field of the source's ADSR struct. Times are in samples once set_params has run. */
  datatype Envelope = Envelope(
    stage: Stage,
    output: real,
    attack: real,
    decay: real,
    sustain: real,
    release: real,
    attackCoeff: real,
    decayCoeff: real,
    releaseCoeff: real,
    attackRatio: real,
    drRatio: real,
    attackBase: real,
    decayBase: real,
    releaseBase: real,
    sampleRate: real)

  /** The floor that set_attack_target_ratio and set_dr_target_ratio impose on a target ratio. */
  const MinTargetRatio: real := 0.000000001

  /** What the envelope needs of `exp` and `ln`: exp maps negatives into (0, 1), ln is positive above 1. */
  ghost predicate ExpLnLaws(exp: real -> real, ln: real -> real)
  {
    && (forall x: real :: x < 0.0 ==> 0.0 < exp(x) < 1.0)
    && (forall y: real :: y > 1.0 ==> ln(y) > 0.0)
  }

  /**
    calculate_coefficient: exp(-ln((1 + ratio) / ratio) / rate). A rate of
    zero samples divides a negative number by zero, giving -inf in f32 and
    a coefficient of exactly 0; that case is written out.
  */
  function Coefficient(exp: real -> real, ln: real -> real, rate: real, ratio: real): (c: real)
    requires ratio > 0.0
    ensures ExpLnLaws(exp, ln) && rate >= 0.0 ==> 0.0 <= c < 1.0
    ensures rate == 0.0 ==> c == 0.0
  {
    if rate == 0.0 then 0.0
    else
      var l := ln((1.0 + ratio) / ratio);
      assert ExpLnLaws(exp, ln) && rate > 0.0 ==> -l / rate < 0.0 by {
        if ExpLnLaws(exp, ln) && rate > 0.0 {
          assert (1.0 + ratio) / ratio > 1.0;
        }
      }
      exp(-l / rate)
  }

  /** The state Default::default() builds: coefficients from 0.2 s, 0.2 s and 0.5 s, decay aimed at 1.0. */
  function DefaultEnvelope(exp: real -> real, ln: real -> real): (e: Envelope)
    ensures e.stage == Idle && e.output == 0.0
    ensures ExpLnLaws(exp, ln) ==> Bounded(e)
  {
    var ac := Coefficient(exp, ln, 0.2, 0.3);
    var dc := Coefficient(exp, ln, 0.2, 0.0001);
    var rc := Coefficient(exp, ln, 0.5, 0.0001);
    Envelope(Idle, 0.0, 0.2, 0.1, 0.8, 0.5, ac, dc, rc, 0.3, 0.0001,
             (1.0 + 0.3) * (1.0 - ac), (1.0 - 0.0001) * (1.0 - dc), -0.0001 * (1.0 - rc), 44100.0)
  }

  /**
    The invariant under which every step keeps the output in [0, 1]:
    coefficients and sustain in [0, 1], segment bases that cannot push the
    output out of range, and an idle envelope that is silent.
  */
  predicate Bounded(e: Envelope)
  {
    && 0.0 <= e.output <= 1.0
    && 0.0 <= e.sustain <= 1.0
    && 0.0 <= e.attackCoeff <= 1.0
    && 0.0 <= e.decayCoeff <= 1.0
    && 0.0 <= e.releaseCoeff <= 1.0
    && 0.0 <= e.attackBase
    && e.decayBase <= 1.0 - e.decayCoeff
    && e.releaseBase <= 0.0
    && (e.stage == Idle ==> e.output == 0.0)
  }

  // ---------------------------------------------------------------------------
  // The transitions of the state machine
  // ---------------------------------------------------------------------------

  /** start_note: always to Attack, output kept so that a retrigger resumes from the current level. */
  function OnStartNote(e: Envelope): (r: Envelope)
    ensures r.stage == Attack
    ensures r == e.(stage := r.stage)
  {
    e.(stage := Attack)
  }

  /** end_note: Idle stays Idle, every other state goes to Release; output kept. */
  function OnEndNote(e: Envelope): (r: Envelope)
    ensures r.stage == Idle <==> e.stage == Idle
    ensures e.stage != Idle ==> r.stage == Release
    ensures r == e.(stage := r.stage)
  {
    if e.stage != Idle then e.(stage := Release) else e
  }

  /** reset: Idle with a silent output. */
  function OnReset(e: Envelope): (r: Envelope)
    ensures r.stage == Idle && r.output == 0.0
    ensures r == e.(stage := r.stage, output := r.output)
  {
    e.(stage := Idle, output := 0.0)
  }

  /** One sample of a segment's one-pole recurrence. */
  function Step(base: real, x: real, coeff: real): real
  {
    base + x * coeff
  }

  /**
    process: one sample of the current segment. A moving segment applies its
    one-pole recurrence and clamps at the segment's end, moving on to the
    next stage there.
  */
  function OnProcess(e: Envelope): (r: Envelope)
    ensures e.stage == Idle || e.stage == Sustain ==> r == e
    ensures e.stage == Attack ==>
      var out := Step(e.attackBase, e.output, e.attackCoeff);
      r.output == (if out >= 1.0 then 1.0 else out) && (r.stage == Decay <==> out >= 1.0)
    ensures e.stage == Decay ==>
      var out := Step(e.decayBase, e.output, e.decayCoeff);
      r.output == (if out <= e.sustain then e.sustain else out) && (r.stage == Sustain <==> out <= e.sustain)
    ensures e.stage == Release ==>
      var out := Step(e.releaseBase, e.output, e.releaseCoeff);
      r.output == (if out <= 0.0 then 0.0 else out) && (r.stage == Idle <==> out <= 0.0)
    ensures e.stage == Attack ==>
      (r.stage == Decay && r.output == 1.0) || (r.stage == Attack && r.output < 1.0)
    ensures e.stage == Decay ==>
      (r.stage == Sustain && r.output == e.sustain) || (r.stage == Decay && r.output > e.sustain)
    ensures e.stage == Release ==>
      (r.stage == Idle && r.output == 0.0) || (r.stage == Release && r.output > 0.0)
    ensures r == e.(stage := r.stage, output := r.output)
  {
    match e.stage
    case Idle => e
    case Attack =>
      var out := Step(e.attackBase, e.output, e.attackCoeff);
      if out >= 1.0 then e.(output := 1.0, stage := Decay) else e.(output := out)
    case Decay =>
      var out := Step(e.decayBase, e.output, e.decayCoeff);
      if out <= e.sustain then e.(output := e.sustain, stage := Sustain) else e.(output := out)
    case Sustain => e
    case Release =>
      var out := Step(e.releaseBase, e.output, e.releaseCoeff);
      if out <= 0.0 then e.(output := 0.0, stage := Idle) else e.(output := out)
  }

  // ---------------------------------------------------------------------------
  // Parameters
  // ---------------------------------------------------------------------------

  /** calculate_attack: the attack time in samples and the attack segment's coefficient and base. */
  function OnCalculateAttack(e: Envelope, exp: real -> real, ln: real -> real, attack: real): (r: Envelope)
    requires e.attackRatio > 0.0
    ensures r.attack == attack
    ensures r.attackBase == (1.0 + e.attackRatio) * (1.0 - r.attackCoeff)
    ensures ExpLnLaws(exp, ln) && attack >= 0.0 ==> 0.0 <= r.attackCoeff < 1.0
    ensures r == e.(attack := r.attack, attackCoeff := r.attackCoeff, attackBase := r.attackBase)
  {
    var c := Coefficient(exp, ln, attack, e.attackRatio);
    e.(attack := attack, attackCoeff := c, attackBase := (1.0 + e.attackRatio) * (1.0 - c))
  }

  /** calculate_decay: the decay segment, aimed at the sustain level held at the time of the call. */
  function OnCalculateDecay(e: Envelope, exp: real -> real, ln: real -> real, decay: real): (r: Envelope)
    requires e.drRatio > 0.0
    ensures r.decay == decay
    ensures r.decayBase == (e.sustain - e.drRatio) * (1.0 - r.decayCoeff)
    ensures ExpLnLaws(exp, ln) && decay >= 0.0 ==> 0.0 <= r.decayCoeff < 1.0
    ensures r == e.(decay := r.decay, decayCoeff := r.decayCoeff, decayBase := r.decayBase)
  {
    var c := Coefficient(exp, ln, decay, e.drRatio);
    e.(decay := decay, decayCoeff := c, decayBase := (e.sustain - e.drRatio) * (1.0 - c))
  }

  /** calculate_sustain: the new level, and the decay base re-aimed at it. */
  function OnCalculateSustain(e: Envelope, sustain: real): (r: Envelope)
    ensures r.sustain == sustain
    ensures r.decayBase == (sustain - e.drRatio) * (1.0 - e.decayCoeff)
    ensures r == e.(sustain := r.sustain, decayBase := r.decayBase)
  {
    e.(sustain := sustain, decayBase := (sustain - e.drRatio) * (1.0 - e.decayCoeff))
  }

  /** calculate_release: the release segment, aimed just below zero. */
  function OnCalculateRelease(e: Envelope, exp: real -> real, ln: real -> real, release: real): (r: Envelope)
    requires e.drRatio > 0.0
    ensures r.release == release
    ensures r.releaseBase == -e.drRatio * (1.0 - r.releaseCoeff)
    ensures ExpLnLaws(exp, ln) && release >= 0.0 ==> 0.0 <= r.releaseCoeff < 1.0
    ensures r == e.(release := r.release, releaseCoeff := r.releaseCoeff, releaseBase := r.releaseBase)
  {
    var c := Coefficient(exp, ln, release, e.drRatio);
    e.(release := release, releaseCoeff := c, releaseBase := -e.drRatio * (1.0 - c))
  }

  /**
    set_params, as the four calculate_* calls leave the envelope: times
    given in seconds stored in samples, each segment's coefficient and base
    recomputed, and the decay base aimed at the NEW sustain level.
  */
  function OnSetParams(e: Envelope, exp: real -> real, ln: real -> real,
                       attack: real, decay: real, sustain: real, release: real): (r: Envelope)
    requires e.attackRatio > 0.0 && e.drRatio > 0.0
    ensures r.stage == e.stage && r.output == e.output && r.sampleRate == e.sampleRate
    ensures r.attackRatio == e.attackRatio && r.drRatio == e.drRatio
  {
    var ac := Coefficient(exp, ln, attack * e.sampleRate, e.attackRatio);
    var dc := Coefficient(exp, ln, decay * e.sampleRate, e.drRatio);
    var rc := Coefficient(exp, ln, release * e.sampleRate, e.drRatio);
    e.(attack := attack * e.sampleRate, attackCoeff := ac, attackBase := (1.0 + e.attackRatio) * (1.0 - ac),
       decay := decay * e.sampleRate, decayCoeff := dc,
       sustain := sustain, decayBase := (sustain - e.drRatio) * (1.0 - dc),
       release := release * e.sampleRate, releaseCoeff := rc, releaseBase := -e.drRatio * (1.0 - rc))
  }

  /**
    set_params runs calculate_attack, calculate_decay, calculate_sustain and
    calculate_release in that order, on the times in samples; because the
    sustain step comes after the decay step, it re-aims the decay base that
    calculate_decay computed for the OLD sustain level at the new one.
  */
  lemma CalculationsInOrder(e: Envelope, exp: real -> real, ln: real -> real,
                            attack: real, decay: real, sustain: real, release: real)
    requires e.attackRatio > 0.0 && e.drRatio > 0.0
    ensures var a := OnCalculateAttack(e, exp, ln, attack * e.sampleRate);
      var d := OnCalculateDecay(a, exp, ln, decay * e.sampleRate);
      var s := OnCalculateSustain(d, sustain);
      && d.decayBase == (e.sustain - e.drRatio) * (1.0 - d.decayCoeff)
      && OnCalculateRelease(s, exp, ln, release * e.sampleRate) == OnSetParams(e, exp, ln, attack, decay, sustain, release)
  {
    var a := OnCalculateAttack(e, exp, ln, attack * e.sampleRate);
    var d := OnCalculateDecay(a, exp, ln, decay * e.sampleRate);
    var s := OnCalculateSustain(d, sustain);
    var r := OnCalculateRelease(s, exp, ln, release * e.sampleRate);
    var f := OnSetParams(e, exp, ln, attack, decay, sustain, release);
    assert r.attack == f.attack && r.attackCoeff == f.attackCoeff && r.attackBase == f.attackBase;
    assert r.decay == f.decay && r.decayCoeff == f.decayCoeff;
    assert r.sustain == f.sustain && r.decayBase == f.decayBase;
    assert r.release == f.release && r.releaseCoeff == f.releaseCoeff && r.releaseBase == f.releaseBase;
  }

  /**
    What set_params stores: the times converted from seconds to samples,
    the sustain level as given, each segment's coefficient for its time in
    samples, and bases that follow those coefficients, the decay base aimed
    at the NEW sustain level.
  */
  lemma SetParamsEffect(e: Envelope, exp: real -> real, ln: real -> real,
                        attack: real, decay: real, sustain: real, release: real)
    requires e.attackRatio > 0.0 && e.drRatio > 0.0
    ensures var r := OnSetParams(e, exp, ln, attack, decay, sustain, release);
      && r.attack == attack * e.sampleRate
      && r.decay == decay * e.sampleRate
      && r.release == release * e.sampleRate
      && r.sustain == sustain
      && r.attackCoeff == Coefficient(exp, ln, attack * e.sampleRate, e.attackRatio)
      && r.decayCoeff == Coefficient(exp, ln, decay * e.sampleRate, e.drRatio)
      && r.releaseCoeff == Coefficient(exp, ln, release * e.sampleRate, e.drRatio)
      && r.attackBase == (1.0 + e.attackRatio) * (1.0 - r.attackCoeff)
      && r.decayBase == (sustain - e.drRatio) * (1.0 - r.decayCoeff)
      && r.releaseBase == -e.drRatio * (1.0 - r.releaseCoeff)
  {
  }

  /** calculate_attack keeps a Bounded envelope Bounded for a non-negative time. */
  lemma CalculateAttackBounded(e: Envelope, exp: real -> real, ln: real -> real, attack: real)
    requires e.attackRatio > 0.0 && ExpLnLaws(exp, ln) && Bounded(e) && attack >= 0.0
    ensures Bounded(OnCalculateAttack(e, exp, ln, attack))
  {
    var r := OnCalculateAttack(e, exp, ln, attack);
    RealArith.NonNegativeProduct(1.0 + e.attackRatio, 1.0 - r.attackCoeff);
  }

  /** calculate_decay keeps a Bounded envelope Bounded for a non-negative time. */
  lemma CalculateDecayBounded(e: Envelope, exp: real -> real, ln: real -> real, decay: real)
    requires e.drRatio > 0.0 && ExpLnLaws(exp, ln) && Bounded(e) && decay >= 0.0
    ensures Bounded(OnCalculateDecay(e, exp, ln, decay))
  {
    var r := OnCalculateDecay(e, exp, ln, decay);
    ScaleBelow(e.sustain - e.drRatio, 1.0 - r.decayCoeff);
  }

  /** calculate_sustain keeps a Bounded envelope Bounded for a level in [0, 1]. */
  lemma CalculateSustainBounded(e: Envelope, sustain: real)
    requires e.drRatio > 0.0 && Bounded(e) && 0.0 <= sustain <= 1.0
    ensures Bounded(OnCalculateSustain(e, sustain))
  {
    ScaleBelow(sustain - e.drRatio, 1.0 - e.decayCoeff);
  }

  /** calculate_release keeps a Bounded envelope Bounded for a non-negative time. */
  lemma CalculateReleaseBounded(e: Envelope, exp: real -> real, ln: real -> real, release: real)
    requires e.drRatio > 0.0 && ExpLnLaws(exp, ln) && Bounded(e) && release >= 0.0
    ensures Bounded(OnCalculateRelease(e, exp, ln, release))
  {
    var r := OnCalculateRelease(e, exp, ln, release);
    RealArith.NonNegativeProduct(e.drRatio, 1.0 - r.releaseCoeff);
  }

  /**
    With non-negative times, a positive sample rate and a sustain level in
    [0, 1], set_params leaves a Bounded envelope Bounded.
  */
  lemma SetParamsBounded(e: Envelope, exp: real -> real, ln: real -> real,
                         attack: real, decay: real, sustain: real, release: real)
    requires e.attackRatio > 0.0 && e.drRatio > 0.0
    requires ExpLnLaws(exp, ln) && Bounded(e) && e.sampleRate > 0.0
    requires attack >= 0.0 && decay >= 0.0 && release >= 0.0 && 0.0 <= sustain <= 1.0
    ensures Bounded(OnSetParams(e, exp, ln, attack, decay, sustain, release))
  {
    RealArith.NonNegativeProduct(attack, e.sampleRate);
    RealArith.NonNegativeProduct(decay, e.sampleRate);
    RealArith.NonNegativeProduct(release, e.sampleRate);
    var a := OnCalculateAttack(e, exp, ln, attack * e.sampleRate);
    CalculateAttackBounded(e, exp, ln, attack * e.sampleRate);
    var d := OnCalculateDecay(a, exp, ln, decay * e.sampleRate);
    CalculateDecayBounded(a, exp, ln, decay * e.sampleRate);
    var s := OnCalculateSustain(d, sustain);
    CalculateSustainBounded(d, sustain);
    CalculateReleaseBounded(s, exp, ln, release * e.sampleRate);
    CalculationsInOrder(e, exp, ln, attack, decay, sustain, release);
  }


  /** set_attack_target_ratio: the ratio is floored at MinTargetRatio and the attack base follows it. */
  function OnSetAttackTargetRatio(e: Envelope, ratio: real): (r: Envelope)
    ensures r.attackRatio >= MinTargetRatio
    ensures r.attackRatio == if ratio < MinTargetRatio then MinTargetRatio else ratio
    ensures r.attackBase == (1.0 + r.attackRatio) * (1.0 - e.attackCoeff)
    ensures r == e.(attackRatio := r.attackRatio, attackBase := r.attackBase)
  {
    var ratio' := if ratio < MinTargetRatio then MinTargetRatio else ratio;
    e.(attackRatio := ratio', attackBase := (1.0 + ratio') * (1.0 - e.attackCoeff))
  }

  /** set_dr_target_ratio: the floored ratio is shared by the decay and the release bases. */
  function OnSetDrTargetRatio(e: Envelope, ratio: real): (r: Envelope)
    ensures r.drRatio >= MinTargetRatio
    ensures r.drRatio == if ratio < MinTargetRatio then MinTargetRatio else ratio
    ensures r.decayBase == (e.sustain - r.drRatio) * (1.0 - e.decayCoeff)
    ensures r.releaseBase == -r.drRatio * (1.0 - e.releaseCoeff)
    ensures r == e.(drRatio := r.drRatio, decayBase := r.decayBase, releaseBase := r.releaseBase)
  {
    var ratio' := if ratio < MinTargetRatio then MinTargetRatio else ratio;
    e.(drRatio := ratio',
       decayBase := (e.sustain - ratio') * (1.0 - e.decayCoeff),
       releaseBase := -ratio' * (1.0 - e.releaseCoeff))
  }

  /** set_attack_target_ratio keeps a Bounded envelope Bounded. */
  lemma SetAttackTargetRatioBounded(e: Envelope, ratio: real)
    requires Bounded(e)
    ensures Bounded(OnSetAttackTargetRatio(e, ratio))
  {
    var r := OnSetAttackTargetRatio(e, ratio);
    RealArith.NonNegativeProduct(1.0 + r.attackRatio, 1.0 - e.attackCoeff);
  }

  /** set_dr_target_ratio keeps a Bounded envelope Bounded. */
  lemma SetDrTargetRatioBounded(e: Envelope, ratio: real)
    requires Bounded(e)
    ensures Bounded(OnSetDrTargetRatio(e, ratio))
  {
    var r := OnSetDrTargetRatio(e, ratio);
    var k := 1.0 - e.decayCoeff;
    RealArith.NonNegativeProduct(1.0 - (e.sustain - r.drRatio), k);
    assert (1.0 - (e.sustain - r.drRatio)) * k == k - (e.sustain - r.drRatio) * k;
    RealArith.NonNegativeProduct(r.drRatio, 1.0 - e.releaseCoeff);
  }

  // ---------------------------------------------------------------------------
  // Properties of the state machine
  // ---------------------------------------------------------------------------

  /** x * c stays between 0 and both factors when both are in [0, 1]. */
  lemma ProductInUnit(x: real, c: real)
    requires 0.0 <= x <= 1.0 && 0.0 <= c <= 1.0
    ensures 0.0 <= x * c <= x && x * c <= c
  {
    assert x * c <= x * 1.0;
    assert x * c <= 1.0 * c;
  }

  /** t * k is at most k when t <= 1 and k >= 0. */
  lemma ScaleBelow(t: real, k: real)
    requires t <= 1.0 && k >= 0.0
    ensures t * k <= k
  {
    assert (1.0 - t) * k >= 0.0;
  }

  /** One process step keeps the envelope Bounded, so its output stays in [0, 1]. */
  lemma ProcessBounded(e: Envelope)
    requires Bounded(e)
    ensures Bounded(OnProcess(e))
  {
    match e.stage
    case Idle =>
    case Sustain =>
    case Attack => AttackStepBounded(e);
    case Decay => DecayStepBounded(e);
    case Release => ReleaseStepBounded(e);
  }

  lemma AttackStepBounded(e: Envelope)
    requires Bounded(e) && e.stage == Attack
    ensures Bounded(OnProcess(e))
  {
    var out := Step(e.attackBase, e.output, e.attackCoeff);
    StepBounds(out, e.attackBase, e.output, e.attackCoeff);
    assert OnProcess(e) == if out >= 1.0 then e.(output := 1.0, stage := Decay) else e.(output := out);
  }

  lemma DecayStepBounded(e: Envelope)
    requires Bounded(e) && e.stage == Decay
    ensures Bounded(OnProcess(e))
  {
    var out := Step(e.decayBase, e.output, e.decayCoeff);
    StepBounds(out, e.decayBase, e.output, e.decayCoeff);
    assert OnProcess(e) == if out <= e.sustain then e.(output := e.sustain, stage := Sustain) else e.(output := out);
  }

  lemma ReleaseStepBounded(e: Envelope)
    requires Bounded(e) && e.stage == Release
    ensures Bounded(OnProcess(e))
  {
    var out := Step(e.releaseBase, e.output, e.releaseCoeff);
    StepBounds(out, e.releaseBase, e.output, e.releaseCoeff);
    assert OnProcess(e) == if out <= 0.0 then e.(output := 0.0, stage := Idle) else e.(output := out);
  }

  /** One step of a recurrence base + o * c, with o and c in [0, 1], lands in [base, base + min(o, c)]. */
  lemma StepBounds(out: real, base: real, o: real, c: real)
    requires 0.0 <= o <= 1.0 && 0.0 <= c <= 1.0
    requires out == base + o * c
    ensures base <= out <= base + c && out <= base + o
  {
    ProductInUnit(o, c);
  }

  /** The calls that drive an envelope between two parameter changes. */
  datatype Event = StartNote | EndNote | Reset | Process

  function Apply(e: Envelope, ev: Event): Envelope
  {
    match ev
    case StartNote => OnStartNote(e)
    case EndNote => OnEndNote(e)
    case Reset => OnReset(e)
    case Process => OnProcess(e)
  }

  /** The envelope after a sequence of calls, the first applied first. */
  function Run(e: Envelope, events: seq<Event>): Envelope
    decreases |events|
  {
    if events == [] then e else Run(Apply(e, events[0]), events[1..])
  }

  /** Output stays in [0, 1] over any sequence of process/start_note/end_note/reset calls. */
  lemma {:induction false} RunBounded(e: Envelope, events: seq<Event>)
    requires Bounded(e)
    ensures Bounded(Run(e, events))
    ensures 0.0 <= Run(e, events).output <= 1.0
    decreases |events|
  {
    if events != [] {
      if events[0] == Process {
        ProcessBounded(e);
      }
      RunBounded(Apply(e, events[0]), events[1..]);
    }
  }

  /** The envelope after n process calls. */
  function ProcessN(e: Envelope, n: nat): Envelope
    decreases n
  {
    if n == 0 then e else ProcessN(OnProcess(e), n - 1)
  }

  /** Idle and Sustain are fixed points of process, however often it runs. */
  lemma {:induction false} ProcessNAtRest(e: Envelope, n: nat)
    requires e.stage == Idle || e.stage == Sustain
    ensures ProcessN(e, n) == e
    decreases n
  {
    if n > 0 {
      ProcessNAtRest(OnProcess(e), n - 1);
    }
  }

  /** Once in Decay or Sustain, process only ever leaves the envelope in Decay or Sustain. */
  lemma {:induction false} ProcessNAfterPeak(e: Envelope, n: nat)
    requires e.stage == Decay || e.stage == Sustain
    ensures ProcessN(e, n).stage == Decay || ProcessN(e, n).stage == Sustain
    decreases n
  {
    if n > 0 {
      ProcessNAfterPeak(OnProcess(e), n - 1);
    }
  }

  /** k * a >= k * b when k >= 0 and a >= b. */
  lemma ScaleMonotone(k: real, a: real, b: real)
    requires k >= 0.0 && a >= b
    ensures k * a >= k * b
  {
    RealArith.NonNegativeProduct(k, a - b);
  }

  /** An attack step from o gains at least a * (1 - c) while below the peak. */
  lemma AttackGain(o: real, c: real, a: real)
    requires 0.0 <= o <= 1.0 && 0.0 <= c < 1.0 && a > 0.0
    ensures (1.0 + a) * (1.0 - c) + o * c >= o + a * (1.0 - c)
  {
    assert (1.0 + a) * (1.0 - c) + o * c - o == (1.0 - c) * (1.0 + a - o);
    ScaleMonotone(1.0 - c, 1.0 + a - o, a);
    assert (1.0 - c) * a == a * (1.0 - c);
  }

  /** A release step that does not reach zero lowers the output by at least drRatio * (1 - releaseCoeff). */
  lemma ReleaseStep(e: Envelope)
    requires Bounded(e) && e.stage == Release
    requires e.releaseBase == -e.drRatio * (1.0 - e.releaseCoeff)
    requires OnProcess(e).stage == Release
    ensures OnProcess(e).output <= e.output - e.drRatio * (1.0 - e.releaseCoeff)
  {
    assert OnProcess(e).output == Step(e.releaseBase, e.output, e.releaseCoeff);
    LinearRelease(OnProcess(e).output, e.releaseBase, e.output, e.releaseCoeff, e.drRatio);
  }

  /** The release recurrence from o, with base -d * (1 - c), lands at least d * (1 - c) lower. */
  lemma LinearRelease(out: real, base: real, o: real, c: real, d: real)
    requires 0.0 <= o <= 1.0 && 0.0 <= c <= 1.0
    requires base == -d * (1.0 - c)
    requires out == base + o * c
    ensures out <= o - d * (1.0 - c)
  {
    ProductInUnit(o, c);
  }

  /** A decay step from o above s closes the gap to s by at least d * (1 - c). */
  lemma DecayDrop(o: real, c: real, d: real, s: real)
    requires o >= s && 0.0 <= c <= 1.0
    ensures (s - d) * (1.0 - c) + o * c - s <= (o - s) - d * (1.0 - c)
  {
    assert (s - d) * (1.0 - c) + o * c - s == c * (o - s) - d * (1.0 - c);
    ScaleMonotone(1.0 - c, o - s, 0.0);
    assert c * (o - s) == (o - s) - (1.0 - c) * (o - s);
  }

  /** (n - 1) * d == n * d - d, for the step from n to n - 1. */
  lemma PredecessorTimes(n: nat, d: real)
    requires n >= 1
    ensures ((n - 1) as real) * d == (n as real) * d - d
  {
  }

  /**
    Release reaches Idle: each release step lowers the output by at least
    drRatio * (1 - releaseCoeff), so n steps with n times that amount
    covering the current output end in Idle, with output 0.
  */
  lemma {:induction false} ReleaseReachesIdle(e: Envelope, n: nat)
    requires Bounded(e) && e.stage == Release
    requires e.drRatio > 0.0 && e.releaseCoeff < 1.0
    requires e.releaseBase == -e.drRatio * (1.0 - e.releaseCoeff)
    requires n >= 1 && (n as real) * (e.drRatio * (1.0 - e.releaseCoeff)) >= e.output
    ensures ProcessN(e, n).stage == Idle && ProcessN(e, n).output == 0.0
    decreases n
  {
    var delta := e.drRatio * (1.0 - e.releaseCoeff);
    var next := OnProcess(e);
    ProcessBounded(e);
    if next.stage == Idle {
      ProcessNAtRest(next, n - 1);
    } else {
      ReleaseStep(e);
      PredecessorTimes(n, delta);
      ReleaseReachesIdle(next, n - 1);
    }
  }

  /**
    Attack reaches its peak: each attack step raises the output by at least
    attackRatio * (1 - attackCoeff), so after n such steps covering the gap
    to 1.0 the envelope has clamped at 1.0 and moved on to Decay or Sustain.
  */
  lemma {:induction false} AttackReachesPeak(e: Envelope, n: nat)
    requires Bounded(e) && e.stage == Attack
    requires e.attackRatio > 0.0 && e.attackCoeff < 1.0
    requires e.attackBase == (1.0 + e.attackRatio) * (1.0 - e.attackCoeff)
    requires n >= 1 && (n as real) * (e.attackRatio * (1.0 - e.attackCoeff)) >= 1.0 - e.output
    ensures ProcessN(e, n).stage == Decay || ProcessN(e, n).stage == Sustain
    decreases n
  {
    var delta := e.attackRatio * (1.0 - e.attackCoeff);
    var next := OnProcess(e);
    ProcessBounded(e);
    if next.stage == Decay {
      ProcessNAfterPeak(next, n - 1);
    } else {
      assert next.output == (1.0 + e.attackRatio) * (1.0 - e.attackCoeff) + e.output * e.attackCoeff;
      AttackGain(e.output, e.attackCoeff, e.attackRatio);
      assert next.output >= e.output + delta;
      PredecessorTimes(n, delta);
      AttackReachesPeak(next, n - 1);
    }
  }

  /**
    Decay reaches Sustain: while above the sustain level each decay step
    closes the gap by at least drRatio * (1 - decayCoeff), so n such steps
    covering the gap end in Sustain, holding the sustain level.
  */
  lemma {:induction false} DecayReachesSustain(e: Envelope, n: nat)
    requires Bounded(e) && e.stage == Decay
    requires e.drRatio > 0.0 && e.decayCoeff < 1.0
    requires e.decayBase == (e.sustain - e.drRatio) * (1.0 - e.decayCoeff)
    requires n >= 1 && (n as real) * (e.drRatio * (1.0 - e.decayCoeff)) >= e.output - e.sustain
    ensures ProcessN(e, n).stage == Sustain && ProcessN(e, n).output == e.sustain
    decreases n
  {
    var delta := e.drRatio * (1.0 - e.decayCoeff);
    var next := OnProcess(e);
    ProcessBounded(e);
    if next.stage == Sustain {
      ProcessNAtRest(next, n - 1);
    } else {
      DecayStep(e);
      PredecessorTimes(n, delta);
      DecayReachesSustain(next, n - 1);
    }
  }

  /** A decay step that does not reach the sustain level closes the gap by at least drRatio * (1 - decayCoeff). */
  lemma DecayStep(e: Envelope)
    requires Bounded(e) && e.stage == Decay
    requires e.drRatio > 0.0 && e.decayCoeff < 1.0
    requires e.decayBase == (e.sustain - e.drRatio) * (1.0 - e.decayCoeff)
    requires OnProcess(e).stage == Decay
    ensures OnProcess(e).output - e.sustain <= (e.output - e.sustain) - e.drRatio * (1.0 - e.decayCoeff)
  {
    var next := OnProcess(e);
    assert next.output == (e.sustain - e.drRatio) * (1.0 - e.decayCoeff) + e.output * e.decayCoeff;
    DecayAboveSustain(e);
    DecayDrop(e.output, e.decayCoeff, e.drRatio, e.sustain);
  }

  /** A Bounded envelope in Decay is never below its sustain level (the step that crosses it clamps). */
  lemma DecayAboveSustain(e: Envelope)
    requires Bounded(e) && e.stage == Decay
    requires e.drRatio > 0.0 && e.decayCoeff < 1.0
    requires e.decayBase == (e.sustain - e.drRatio) * (1.0 - e.decayCoeff)
    requires OnProcess(e).stage == Decay
    ensures e.output >= e.sustain
  {
    if e.output < e.sustain {
      var out := Step(e.decayBase, e.output, e.decayCoeff);
      assert OnProcess(e) == if out <= e.sustain then e.(output := e.sustain, stage := Sustain) else e.(output := out);
      DecayFromBelowClamps(out, e.output, e.decayCoeff, e.drRatio, e.sustain);
      assert false;
    }
  }

  /** From below the sustain level, a decay step lands at or below it. */
  lemma DecayFromBelowClamps(out: real, o: real, c: real, d: real, s: real)
    requires 0.0 <= c <= 1.0 && d > 0.0 && o < s
    requires out == (s - d) * (1.0 - c) + o * c
    ensures out <= s
  {
    assert out == s - d * (1.0 - c) - c * (s - o);
    RealArith.NonNegativeProduct(d, 1.0 - c);
    RealArith.NonNegativeProduct(c, s - o);
  }

  // ---------------------------------------------------------------------------
  // The envelope as the source keeps it: a struct updated in place
  // ---------------------------------------------------------------------------

  class ADSR {
    var attack: real
    var decay: real
    var sustain: real
    var release: real
    var attackCoeff: real
    var decayCoeff: real
    var releaseCoeff: real
    var attackTargetRatio: real
    var drTargetRatio: real
    var attackBase: real
    var decayBase: real
    var releaseBase: real
    var state: Stage
    var sampleRate: real
    var output: real

    /** The target ratios never fall below the floor, which keeps every coefficient well defined. */
    ghost predicate Valid()
      reads this
    {
      attackTargetRatio >= MinTargetRatio && drTargetRatio >= MinTargetRatio
    }

    function Value(): Envelope
      reads this
    {
      Envelope(state, output, attack, decay, sustain, release, attackCoeff, decayCoeff, releaseCoeff,
               attackTargetRatio, drTargetRatio, attackBase, decayBase, releaseBase, sampleRate)
    }

    /** Default::default() */
    constructor (exp: real -> real, ln: real -> real)
      ensures Valid()
      ensures Value() == DefaultEnvelope(exp, ln)
    {
      var ac := Coefficient(exp, ln, 0.2, 0.3);
      var dc := Coefficient(exp, ln, 0.2, 0.0001);
      var rc := Coefficient(exp, ln, 0.5, 0.0001);
      attack, decay, sustain, release := 0.2, 0.1, 0.8, 0.5;
      attackCoeff, decayCoeff, releaseCoeff := ac, dc, rc;
      attackTargetRatio, drTargetRatio := 0.3, 0.0001;
      attackBase := (1.0 + 0.3) * (1.0 - ac);
      decayBase := (1.0 - 0.0001) * (1.0 - dc);
      releaseBase := -0.0001 * (1.0 - rc);
      state := Idle;
      sampleRate := 44100.0;
      output := 0.0;
    }

    method StartNote()
      modifies this
      ensures Valid() == old(Valid())
      ensures Value() == OnStartNote(old(Value()))
    {
      state := Attack;
    }

    method EndNote()
      modifies this
      ensures Valid() == old(Valid())
      ensures Value() == OnEndNote(old(Value()))
    {
      if state != Idle {
        state := Release;
      }
    }

    method Reset()
      modifies this
      ensures Valid() == old(Valid())
      ensures Value() == OnReset(old(Value()))
    {
      state := Idle;
      output := 0.0;
    }

    method GetOutput() returns (out: real)
      ensures out == Value().output
    {
      out := output;
    }

    method SetSampleRate(sr: real)
      modifies this
      ensures Valid() == old(Valid())
      ensures Value() == old(Value()).(sampleRate := sr)
    {
      sampleRate := sr;
    }

    method Process()
      modifies this
      ensures Valid() == old(Valid())
      ensures Value() == OnProcess(old(Value()))
    {
      match state
      case Idle =>
      case Attack =>
        var out := Step(attackBase, output, attackCoeff);
        if out >= 1.0 {
          output, state := 1.0, Decay;
        } else {
          output := out;
        }
      case Decay =>
        var out := Step(decayBase, output, decayCoeff);
        if out <= sustain {
          output, state := sustain, Sustain;
        } else {
          output := out;
        }
      case Sustain =>
      case Release =>
        var out := Step(releaseBase, output, releaseCoeff);
        if out <= 0.0 {
          output, state := 0.0, Idle;
        } else {
          output := out;
        }
    }

    method SetParams(exp: real -> real, ln: real -> real, attack: real, decay: real, sustain: real, release: real)
      requires Valid()
      modifies this
      ensures Valid()
      ensures Value() == OnSetParams(old(Value()), exp, ln, attack, decay, sustain, release)
    {
      ghost var e := Value();
      var attackSamples, decaySamples, releaseSamples := attack * sampleRate, decay * sampleRate, release * sampleRate;
      assert attackSamples == attack * e.sampleRate && decaySamples == decay * e.sampleRate;
      assert releaseSamples == release * e.sampleRate;
      CalculateAttack(exp, ln, attackSamples);
      CalculateDecay(exp, ln, decaySamples);
      CalculateSustain(sustain);
      CalculateRelease(exp, ln, releaseSamples);
      CalculationsInOrder(e, exp, ln, attack, decay, sustain, release);
    }

    method CalculateAttack(exp: real -> real, ln: real -> real, attack: real)
      requires Valid()
      modifies this
      ensures Valid()
      ensures Value() == OnCalculateAttack(old(Value()), exp, ln, attack)
    {
      ghost var before := Value();
      var c := Coefficient(exp, ln, attack, attackTargetRatio);
      var base := (1.0 + attackTargetRatio) * (1.0 - c);
      this.attack := attack;
      attackCoeff := c;
      attackBase := base;
      assert Value() == before.(attack := attack, attackCoeff := c, attackBase := base);
    }

    method CalculateDecay(exp: real -> real, ln: real -> real, decay: real)
      requires Valid()
      modifies this
      ensures Valid()
      ensures Value() == OnCalculateDecay(old(Value()), exp, ln, decay)
    {
      ghost var before := Value();
      var c := Coefficient(exp, ln, decay, drTargetRatio);
      var base := (sustain - drTargetRatio) * (1.0 - c);
      this.decay := decay;
      decayCoeff := c;
      decayBase := base;
      assert Value() == before.(decay := decay, decayCoeff := c, decayBase := base);
    }

    method CalculateSustain(sustain: real)
      modifies this
      ensures Valid() == old(Valid())
      ensures Value() == OnCalculateSustain(old(Value()), sustain)
    {
      this.sustain := sustain;
      decayBase := (this.sustain - drTargetRatio) * (1.0 - decayCoeff);
    }

    method CalculateRelease(exp: real -> real, ln: real -> real, release: real)
      requires Valid()
      modifies this
      ensures Valid()
      ensures Value() == OnCalculateRelease(old(Value()), exp, ln, release)
    {
      ghost var before := Value();
      var c := Coefficient(exp, ln, release, drTargetRatio);
      var base := -drTargetRatio * (1.0 - c);
      this.release := release;
      releaseCoeff := c;
      releaseBase := base;
      assert Value() == before.(release := release, releaseCoeff := c, releaseBase := base);
    }

    method SetAttackTargetRatio(ratio: real)
      modifies this
      ensures old(Valid()) ==> Valid()
      ensures Value() == OnSetAttackTargetRatio(old(Value()), ratio)
    {
      var r := ratio;
      if r < MinTargetRatio {
        r := MinTargetRatio;
      }
      attackTargetRatio := r;
      attackBase := (1.0 + r) * (1.0 - attackCoeff);
    }

    method SetDrTargetRatio(ratio: real)
      modifies this
      ensures old(Valid()) ==> Valid()
      ensures Value() == OnSetDrTargetRatio(old(Value()), ratio)
    {
      var r := ratio;
      if r < MinTargetRatio {
        r := MinTargetRatio;
      }
      drTargetRatio := r;
      decayBase := (sustain - r) * (1.0 - decayCoeff);
      releaseBase := -r * (1.0 - releaseCoeff);
    }
  }
}

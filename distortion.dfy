/**
  The Oxidize distortion effect: a four-slot parameter store (drive
  coefficient, distortion type, output level, dry/wet), the bucketing of the
  type value into a shaping curve and its name, and the per-sample shaping
  and mixing. The transcendental curves tanh and atanh are parameters.
*/
module DistortionPlugin {
  import RealArith

  /** std::f32::consts::PI / 2.0, as the f32 value it rounds to. */
  const HalfPi: real := 1.5707963705062866

  /** The number of parameter slots the effect reports to its host. */
  const ParameterCount: int := 4

  // ---------------------------------------------------------------------------
  // The parameter store
  // ---------------------------------------------------------------------------

  /** A snapshot of DistortionParameters. */
  datatype Params = Params(coefficient: real, distortionType: real, level: real, dryWet: real)

  /** DistortionParameters::default() */
  function DefaultParams(): Params
  {
    Params(0.5, 0.0, 0.5, 0.5)
  }

  /** get_parameter: slot 0 to 3 in declaration order, 0.0 for any other index. */
  function ParameterAt(p: Params, index: int): real
  {
    if index == 0 then p.coefficient
    else if index == 1 then p.distortionType
    else if index == 2 then p.level
    else if index == 3 then p.dryWet
    else 0.0
  }

  /** set_parameter: writes one slot; any other index is ignored. */
  function WithParameter(p: Params, index: int, value: real): (r: Params)
    ensures 0 <= index < ParameterCount ==> ParameterAt(r, index) == value
    ensures forall j :: j != index ==> ParameterAt(r, j) == ParameterAt(p, j)
    ensures !(0 <= index < ParameterCount) ==> r == p
  {
    if index == 0 then p.(coefficient := value)
    else if index == 1 then p.(distortionType := value)
    else if index == 2 then p.(level := value)
    else if index == 3 then p.(dryWet := value)
    else p
  }

  /** A run of set_parameter calls, each (index, value). */
  function Written(p: Params, writes: seq<(int, real)>): Params
    decreases |writes|
  {
    if writes == [] then p else Written(WithParameter(p, writes[0].0, writes[0].1), writes[1..])
  }

  /** After a run of writes, a slot holds the last value written to it, or its old value if none was. */
  lemma {:induction false} LastWriteWins(p: Params, writes: seq<(int, real)>, index: int)
    ensures ParameterAt(Written(p, writes), index) == LastWritten(p, writes, index)
    decreases |writes|
  {
    if writes != [] {
      var q := WithParameter(p, writes[0].0, writes[0].1);
      LastWriteWins(q, writes[1..], index);
      LastWrittenStep(p, writes, index);
    }
  }

  /** The value a slot ends with: the last write to it, scanning from the end. */
  function LastWritten(p: Params, writes: seq<(int, real)>, index: int): real
    decreases |writes|
  {
    if writes == [] then ParameterAt(p, index)
    else if writes[|writes| - 1].0 == index && 0 <= index < ParameterCount then writes[|writes| - 1].1
    else LastWritten(p, writes[..|writes| - 1], index)
  }

  /** Scanning from the end agrees with applying the first write and scanning the rest. */
  lemma {:induction false} LastWrittenStep(p: Params, writes: seq<(int, real)>, index: int)
    requires writes != []
    ensures LastWritten(p, writes, index)
         == LastWritten(WithParameter(p, writes[0].0, writes[0].1), writes[1..], index)
    decreases |writes|
  {
    var q := WithParameter(p, writes[0].0, writes[0].1);
    if |writes| == 1 {
      assert writes[1..] == [];
      assert writes[..0] == [];
    } else {
      var n := |writes| - 1;
      assert writes[1..][..n - 1] == writes[..n][1..];
      assert writes[1..][n - 1] == writes[n];
      if !(writes[n].0 == index && 0 <= index < ParameterCount) {
        LastWrittenStep(p, writes[..n], index);
      }
    }
  }

  /** DistortionParameters, whose four AtomicFloat slots set_parameter writes in place. */
  class DistortionParameters {
    var coefficient: real
    var distortionType: real
    var level: real
    var dryWet: real

    function Value(): Params
      reads this
    {
      Params(coefficient, distortionType, level, dryWet)
    }

    /** DistortionParameters::default() */
    constructor ()
      ensures Value() == DefaultParams()
    {
      coefficient := 0.5;
      distortionType := 0.0;
      level := 0.5;
      dryWet := 0.5;
    }

    method GetParameter(index: int) returns (v: real)
      ensures v == ParameterAt(Value(), index)
    {
      if index == 0 {
        v := coefficient;
      } else if index == 1 {
        v := distortionType;
      } else if index == 2 {
        v := level;
      } else if index == 3 {
        v := dryWet;
      } else {
        v := 0.0;
      }
    }

    method SetParameter(index: int, value: real)
      modifies this
      ensures Value() == WithParameter(old(Value()), index, value)
    {
      if index == 0 {
        coefficient := value;
      } else if index == 1 {
        distortionType := value;
      } else if index == 2 {
        level := value;
      } else if index == 3 {
        dryWet := value;
      }
    }

    method GetDistortionName() returns (name: string)
      ensures name == DistortionName(distortionType)
    {
      var t := distortionType;
      if t < 0.5 {
        name := "Tanh";
      } else if t < 1.0 {
        name := "Arctan";
      } else if t == 1.0 {
        name := "Chebyshev 3rd Order";
      } else {
        name := "";
      }
    }

    method GetDistortionTypeRounded() returns (k: int)
      ensures k == TypeRounded(distortionType)
    {
      var t := distortionType;
      if t < 0.5 {
        k := 0;
      } else if t < 1.0 {
        k := 1;
      } else if t == 1.0 {
        k := 2;
      } else {
        k := 0;
      }
    }
  }

  // ---------------------------------------------------------------------------
  // The distortion type
  // ---------------------------------------------------------------------------

  /**
    get_distortion_type_rounded: below 0.5 is 0, [0.5, 1) is 1, exactly 1.0
    is 2, and anything above 1.0 falls back to 0.
  */
  function TypeRounded(t: real): (k: int)
    ensures 0 <= k <= 2
    ensures k == 0 <==> t < 0.5 || t > 1.0
    ensures k == 1 <==> 0.5 <= t < 1.0
    ensures k == 2 <==> t == 1.0
  {
    if t < 0.5 then 0 else if t < 1.0 then 1 else if t == 1.0 then 2 else 0
  }

  /** The shaping curve names, by rounded type. */
  function TypeName(k: int): string
  {
    if k == 0 then "Tanh" else if k == 1 then "Arctan" else if k == 2 then "Chebyshev 3rd Order" else ""
  }

  /** get_distortion_name: the same buckets, but a value above 1.0 has no name. */
  function DistortionName(t: real): (name: string)
    ensures name == "Tanh" <==> t < 0.5
    ensures name == "Arctan" <==> 0.5 <= t < 1.0
    ensures name == "Chebyshev 3rd Order" <==> t == 1.0
    ensures name == "" <==> t > 1.0
  {
    if t < 0.5 then "Tanh" else if t < 1.0 then "Arctan" else if t == 1.0 then "Chebyshev 3rd Order" else ""
  }

  /**
    On the host's range [0, 1] the displayed name is the name of the rounded
    type; above it the name is empty while the rounded type says Tanh.
  */
  lemma NameMatchesRoundedType(t: real)
    ensures t <= 1.0 ==> DistortionName(t) == TypeName(TypeRounded(t))
    ensures t > 1.0 ==> DistortionName(t) == "" && TypeRounded(t) == 0
  {
  }

  // ---------------------------------------------------------------------------
  // Shaping and mixing one sample
  // ---------------------------------------------------------------------------

  /** The drive factor from the coefficient slot: coeff * 9 + 1, 1 to 10 on [0, 1]. */
  function Drive(coefficient: real): (d: real)
    ensures 0.0 <= coefficient <= 1.0 ==> 1.0 <= d <= 10.0
    ensures coefficient == 0.0 ==> d == 1.0
    ensures coefficient == 1.0 ==> d == 10.0
  {
    coefficient * 9.0 + 1.0
  }

  /** A larger coefficient never gives less drive. */
  lemma DriveMonotone(a: real, b: real)
    requires a <= b
    ensures Drive(a) <= Drive(b)
  {
  }

  /** What get_parameter_text shows: a number (before it is rounded to two decimals) or a name. */
  datatype Shown = Number(value: real) | Name(text: string)

  /** get_parameter_text: the drive for slot 0, the type's name for slot 1, the raw level and dry/wet. */
  function ParameterText(p: Params, index: int): Shown
  {
    if index == 0 then Number(Drive(p.coefficient))
    else if index == 1 then Name(DistortionName(p.distortionType))
    else if index == 2 then Number(p.level)
    else if index == 3 then Number(p.dryWet)
    else Name("")
  }

  /** The third Chebyshev polynomial, 4x³ − 3x, as sample.powi(3) writes the cube. */
  function Chebyshev3(x: real): real
  {
    4.0 * (x * x * x) - 3.0 * x
  }

  /** On [-1, 1] the Chebyshev curve stays in [-1, 1]. */
  lemma ChebyshevBounded(x: real)
    requires -1.0 <= x <= 1.0
    ensures -1.0 <= Chebyshev3(x) <= 1.0
  {
    assert 1.0 - Chebyshev3(x) == (1.0 - x) * ((2.0 * x + 1.0) * (2.0 * x + 1.0));
    assert Chebyshev3(x) + 1.0 == (x + 1.0) * ((2.0 * x - 1.0) * (2.0 * x - 1.0));
    Square(2.0 * x + 1.0);
    Square(2.0 * x - 1.0);
    RealArith.NonNegativeProduct(1.0 - x, (2.0 * x + 1.0) * (2.0 * x + 1.0));
    RealArith.NonNegativeProduct(x + 1.0, (2.0 * x - 1.0) * (2.0 * x - 1.0));
  }

  lemma Square(a: real)
    ensures a * a >= 0.0
  {
    if a < 0.0 {
      RealArith.NonNegativeProduct(-a, -a);
    } else {
      RealArith.NonNegativeProduct(a, a);
    }
  }


  /** The curve selected by type t, scaled by the drive. */
  function Shaped(drive: real, t: real, tanh: real -> real, atanh: real -> real, x: real): real
  {
    if t < 0.5 then drive * tanh(x)
    else if t < 1.0 then drive * atanh(x) * HalfPi
    else if t == 1.0 then drive * Chebyshev3(x)
    else 0.0
  }

  /** The wet signal process_sample computes before mixing: the drive times the selected curve. */
  function Processed(p: Params, tanh: real -> real, atanh: real -> real, x: real): real
  {
    Shaped(Drive(p.coefficient), p.distortionType, tanh, atanh, x)
  }

  /** The dry/wet crossfade, scaled by the output level. */
  function Mix(x: real, processed: real, dryWet: real, level: real): real
  {
    ((x * (1.0 - dryWet)) + (processed * dryWet)) * level
  }

  /** process_sample */
  function ProcessSample(p: Params, tanh: real -> real, atanh: real -> real, x: real): (y: real)
    ensures p.dryWet == 0.0 ==> y == x * p.level
    ensures p.dryWet == 1.0 ==> y == Processed(p, tanh, atanh, x) * p.level
    ensures p.distortionType > 1.0 ==> y == x * (1.0 - p.dryWet) * p.level
  {
    Mix(x, Processed(p, tanh, atanh, x), p.dryWet, p.level)
  }

  /** The drive the Chebyshev setting applies is the number shown for slot 0. */
  lemma ChebyshevUsesShownDrive(p: Params, tanh: real -> real, atanh: real -> real, x: real)
    requires p.distortionType == 1.0
    ensures ParameterText(p, 0).Number? && Processed(p, tanh, atanh, x) == ParameterText(p, 0).value * Chebyshev3(x)
  {
  }

  /** The curve the type selects agrees with the name shown for it. */
  lemma CurveMatchesName(p: Params, tanh: real -> real, atanh: real -> real, x: real)
    ensures DistortionName(p.distortionType) == "Tanh" ==> Processed(p, tanh, atanh, x) == Drive(p.coefficient) * tanh(x)
    ensures DistortionName(p.distortionType) == "Arctan" ==> Processed(p, tanh, atanh, x) == Drive(p.coefficient) * atanh(x) * HalfPi
    ensures DistortionName(p.distortionType) == "Chebyshev 3rd Order" ==> Processed(p, tanh, atanh, x) == Drive(p.coefficient) * Chebyshev3(x)
    ensures DistortionName(p.distortionType) == "" ==> Processed(p, tanh, atanh, x) == 0.0
  {
  }

  /** What tanh promises here: it stays in [-1, 1]. */
  ghost predicate TanhBounded(tanh: real -> real)
  {
    forall x :: -1.0 <= tanh(x) <= 1.0
  }

  /**
    With dry/wet and level in [0, 1] and a dry signal in [-1, 1], the mix is
    no louder than a bound that covers both the dry and the wet signal.
  */
  lemma MixBounded(x: real, processed: real, dryWet: real, level: real, bound: real)
    requires -1.0 <= x <= 1.0 && 1.0 <= bound
    requires -bound <= processed <= bound
    requires 0.0 <= dryWet <= 1.0 && 0.0 <= level <= 1.0
    ensures -bound <= Mix(x, processed, dryWet, level) <= bound
  {
    var m := (x * (1.0 - dryWet)) + (processed * dryWet);
    CrossfadeBounded(x, processed, dryWet, bound);
    ScaleWithin(m, bound, level);
    RealArith.NonNegativeProduct(bound, 1.0 - level);
  }

  /** A crossfade between two signals within [-b, b] stays within [-b, b]. */
  lemma CrossfadeBounded(a: real, c: real, t: real, b: real)
    requires -b <= a <= b && -b <= c <= b && 0.0 <= t <= 1.0
    ensures -b <= (a * (1.0 - t)) + (c * t) <= b
  {
    WeightedWithin(a, c, 1.0 - t, t, b);
  }

  /** Weights s and t that sum to 1 keep a weighted sum of two signals within their common bound. */
  lemma WeightedWithin(a: real, c: real, s: real, t: real, b: real)
    requires -b <= a <= b && -b <= c <= b && s >= 0.0 && t >= 0.0 && s + t == 1.0
    ensures -b <= a * s + c * t <= b
  {
    ScaleWithin(a, b, s);
    ScaleWithin(c, b, t);
    SumWithin(a * s, c * t, b * s, b * t);
    assert b * s + b * t == b * (s + t);
  }

  lemma SumWithin(p: real, q: real, u: real, w: real)
    requires -u <= p <= u && -w <= q <= w
    ensures -(u + w) <= p + q <= u + w
  {
  }

  /** A curve value in [-1, 1] times a non-negative drive d lies in [-d, d]. */
  lemma DriveWithin(d: real, y: real)
    requires d >= 0.0 && -1.0 <= y <= 1.0
    ensures -d <= d * y <= d
  {
    RealArith.NonNegativeProduct(d, 1.0 - y);
    assert d * (1.0 - y) == d - d * y;
    RealArith.NonNegativeProduct(d, y + 1.0);
    assert d * (y + 1.0) == d * y + d;
  }

  /** The Chebyshev curve on [-1, 1] times a non-negative drive d lies in [-d, d]. */
  lemma ChebyshevDriven(d: real, x: real)
    requires d >= 0.0 && -1.0 <= x <= 1.0
    ensures -d <= d * Chebyshev3(x) <= d
  {
    var c := Chebyshev3(x);
    ChebyshevBounded(x);
    DriveWithin(d, c);
  }

  /** |v| <= b and k in [0, 1] give |v * k| <= b * k. */
  lemma ScaleWithin(v: real, b: real, k: real)
    requires -b <= v <= b && k >= 0.0
    ensures -(b * k) <= v * k <= b * k
  {
    RealArith.NonNegativeProduct(b - v, k);
    RealArith.NonNegativeProduct(v + b, k);
  }

  /**
    For a sample in [-1, 1] and a coefficient in [0, 1], the tanh and
    Chebyshev curves (and the silent setting above 1) stay within the drive.
  */
  lemma ProcessedWithinDrive(p: Params, tanh: real -> real, atanh: real -> real, x: real)
    requires -1.0 <= x <= 1.0 && 0.0 <= p.coefficient <= 1.0
    requires p.distortionType < 0.5 ==> TanhBounded(tanh)
    requires !(0.5 <= p.distortionType < 1.0)
    ensures -Drive(p.coefficient) <= Processed(p, tanh, atanh, x) <= Drive(p.coefficient)
  {
    ShapedWithin(Drive(p.coefficient), p.distortionType, tanh, atanh, x);
  }

  /** The same bound for any non-negative drive. */
  lemma ShapedWithin(drive: real, t: real, tanh: real -> real, atanh: real -> real, x: real)
    requires -1.0 <= x <= 1.0 && 0.0 <= drive
    requires t < 0.5 ==> TanhBounded(tanh)
    requires !(0.5 <= t < 1.0)
    ensures -drive <= Shaped(drive, t, tanh, atanh, x) <= drive
  {
    if t < 0.5 {
      var y := tanh(x);
      assert -1.0 <= y <= 1.0;
      DriveWithin(drive, y);
      assert Shaped(drive, t, tanh, atanh, x) == drive * y;
    } else if t == 1.0 {
      var c := Chebyshev3(x);
      ChebyshevDriven(drive, x);
      assert Shaped(drive, t, tanh, atanh, x) == drive * c;
    }
  }

  /**
    On the host's parameter range and for a sample in [-1, 1], the tanh and
    Chebyshev settings never exceed the drive: the output stays within
    [-drive, drive].
  */
  lemma OutputWithinDrive(p: Params, tanh: real -> real, atanh: real -> real, x: real)
    requires -1.0 <= x <= 1.0
    requires 0.0 <= p.coefficient <= 1.0 && 0.0 <= p.dryWet <= 1.0 && 0.0 <= p.level <= 1.0
    requires p.distortionType < 0.5 ==> TanhBounded(tanh)
    requires !(0.5 <= p.distortionType < 1.0)
    ensures -Drive(p.coefficient) <= ProcessSample(p, tanh, atanh, x) <= Drive(p.coefficient)
  {
    ProcessedWithinDrive(p, tanh, atanh, x);
    MixBounded(x, Processed(p, tanh, atanh, x), p.dryWet, p.level, Drive(p.coefficient));
  }
}

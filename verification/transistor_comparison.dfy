/**
 * The comparison of an original transistor with its candidate replacements:
 * the initial selection and its score, the score bands of the assessment and
 * badges, the ratio verdicts of the comparison table, and the replacement
 * warnings.
 */
module TransistorComparison {
  import opened Wrappers
  import opened Seqs
  import opened ComponentTypes
  import opened TransistorEquivalence

  /** An entry of the equivalents list: a candidate and the score it was listed with. */
  datatype Scored = Scored(component: TransistorComponent, score: int)

  /** The selection when the comparison opens: the first equivalent, or none. */
  function InitialSelection(equivalents: seq<Scored>): (r: Option<TransistorComponent>)
    ensures r.None? <==> equivalents == []
    ensures r.Some? ==> r.value == equivalents[0].component
  {
    if |equivalents| > 0 then Some(equivalents[0].component) else None
  }

  /** The score shown for the selection: the engine's score of the selection against the original, or 0 with none. */
  function SelectedScore(original: TransistorComponent, selected: Option<TransistorComponent>): (score: int)
    ensures 0 <= score <= 95
    ensures selected.None? ==> score == 0
    ensures selected.Some? ==>
      score == CompatibilityScore(ExtractTransistorParams(original.component), ExtractTransistorParams(selected.value.component))
  {
    if selected.Some? then
      CompatibilityScore(ExtractTransistorParams(original.component), ExtractTransistorParams(selected.value.component))
    else 0
  }

  /** The wording of the compatibility assessment. */
  datatype Assessment = Excellent | Good | Possible

  /** The badge variant shown next to a score. */
  datatype Badge = DefaultBadge | SecondaryBadge | OutlineBadge

  function AssessmentOf(score: int): Assessment {
    if score >= 90 then Excellent else if score >= 70 then Good else Possible
  }

  function BadgeOf(score: int): Badge {
    if score >= 90 then DefaultBadge else if score >= 70 then SecondaryBadge else OutlineBadge
  }

  /** The badge and the assessment follow the same thresholds: 90 and above, 70 to 89, below 70. */
  lemma BadgeFollowsAssessment(score: int)
    ensures (BadgeOf(score) == DefaultBadge <==> score >= 90) && (AssessmentOf(score) == Excellent <==> score >= 90)
    ensures (BadgeOf(score) == SecondaryBadge <==> 70 <= score < 90) && (AssessmentOf(score) == Good <==> 70 <= score < 90)
    ensures (BadgeOf(score) == OutlineBadge <==> score < 70) && (AssessmentOf(score) == Possible <==> score < 70)
  {
  }

  /** A higher score never gets a weaker assessment. */
  lemma AssessmentIsMonotone(s1: int, s2: int)
    requires s1 <= s2
    ensures AssessmentOf(s1) == Excellent ==> AssessmentOf(s2) == Excellent
    ensures AssessmentOf(s2) == Possible ==> AssessmentOf(s1) == Possible
  {
  }

  /** The result of a division of numbers: finite, or one of the values a division by zero gives. */
  datatype Quotient = Finite(value: real) | PlusInfinity | MinusInfinity | NotANumber

  /** `a / b`: dividing a non-zero number by zero gives an infinity of its sign, zero by zero gives NaN. */
  function Divide(a: real, b: real): (q: Quotient)
    ensures b != 0.0 ==> q == Finite(a / b)
  {
    if b != 0.0 then Finite(a / b)
    else if a > 0.0 then PlusInfinity
    else if a < 0.0 then MinusInfinity
    else NotANumber
  }

  /** `q >= k`; every comparison with NaN is false. */
  predicate AtLeast(q: Quotient, k: real) {
    match q
    case Finite(v) => v >= k
    case PlusInfinity => true
    case MinusInfinity => false
    case NotANumber => false
  }

  /** `q <= k`. */
  predicate AtMost(q: Quotient, k: real) {
    match q
    case Finite(v) => v <= k
    case PlusInfinity => false
    case MinusInfinity => true
    case NotANumber => false
  }

  /** `q > k`. */
  predicate Above(q: Quotient, k: real) {
    match q
    case Finite(v) => v > k
    case PlusInfinity => true
    case MinusInfinity => false
    case NotANumber => false
  }

  /** The verdict of `compareValues`: unknown, the green gain, or the red loss. */
  datatype ValueVerdict = ValueUnknown | NotLower | Lower

  /** `compareValues`: unknown when either value is missing, else green when the ratio is at least 1. */
  function CompareValues(replacement: Option<real>, original: Option<real>): ValueVerdict {
    if replacement.None? || original.None? then ValueUnknown
    else if AtLeast(Divide(replacement.value, original.value), 1.0) then NotLower
    else Lower
  }

  /**
   * For a positive original value the green case is exactly a replacement
   * at least as large; for a zero original, exactly a positive replacement.
   */
  lemma CompareValuesMeaning(replacement: real, original: real)
    ensures original > 0.0 ==> (CompareValues(Some(replacement), Some(original)) == NotLower <==> replacement >= original)
    ensures original == 0.0 ==> (CompareValues(Some(replacement), Some(original)) == NotLower <==> replacement > 0.0)
  {
    if original > 0.0 {
      RatioAtLeast(replacement, original, 1.0);
    }
  }

  /** For a positive divisor, comparing the ratio with `k` is comparing `a` with `k * b`. */
  lemma RatioAtLeast(a: real, b: real, k: real)
    requires b > 0.0
    ensures a / b >= k <==> a >= k * b
    ensures a / b <= k <==> a <= k * b
    ensures a / b > k <==> a > k * b
  {
    assert a == (a / b) * b;
    if a / b >= k {
      MulMonotone(k, a / b, b);
    }
    if a / b <= k {
      MulMonotone(a / b, k, b);
    }
    if a >= k * b {
      assert a / b >= k by {
        if a / b < k {
          MulStrict(a / b, k, b);
        }
      }
    }
    if a <= k * b {
      assert a / b <= k by {
        if a / b > k {
          MulStrict(k, a / b, b);
        }
      }
    }
  }

  lemma MulMonotone(x: real, y: real, b: real)
    requires x <= y && b > 0.0
    ensures x * b <= y * b
  {
  }

  lemma MulStrict(x: real, y: real, b: real)
    requires x < y && b > 0.0
    ensures x * b < y * b
  {
  }

  /** The verdict of `compareHFE`. */
  datatype GainVerdict = GainUnknown | GoodMatch | HigherGain | LowerGain

  /** `compareHFE`: a ratio within [0.8, 1.2] is a good match, above it higher gain, otherwise lower gain. */
  function CompareHFE(replacement: Option<real>, original: Option<real>): GainVerdict {
    if replacement.None? || original.None? then GainUnknown
    else
      var ratio := Divide(replacement.value, original.value);
      if AtLeast(ratio, 0.8) && AtMost(ratio, 1.2) then GoodMatch
      else if Above(ratio, 1.2) then HigherGain
      else LowerGain
  }

  /** For a positive original gain the three verdicts split the replacement's gain at 0.8 and 1.2 times it. */
  lemma CompareHFEMeaning(replacement: real, original: real)
    requires original > 0.0
    ensures CompareHFE(Some(replacement), Some(original)) == GoodMatch <==> 0.8 * original <= replacement <= 1.2 * original
    ensures CompareHFE(Some(replacement), Some(original)) == HigherGain <==> replacement > 1.2 * original
    ensures CompareHFE(Some(replacement), Some(original)) == LowerGain <==> replacement < 0.8 * original
  {
    RatioAtLeast(replacement, original, 0.8);
    RatioAtLeast(replacement, original, 1.2);
  }

  /** The replacement considerations, in the order they are listed. */
  datatype Warning = DifferentPolarity | DifferentPackage | LowerCurrent | LowerVoltage | LowerPower | DifferentGain

  /** The numeric warnings: both values present and not zero, and the replacement's beyond the limit. */
  predicate Below(replacement: Option<real>, original: Option<real>, factor: real) {
    Truthy(replacement) && Truthy(original) && replacement.value < original.value * factor
  }

  predicate GainDiffers(replacement: Option<real>, original: Option<real>) {
    Truthy(replacement) && Truthy(original)
    && (replacement.value < original.value * 0.7 || replacement.value > original.value * 1.3)
  }

  /** Whether the condition of warning `w` holds for the selected replacement of the original. */
  predicate Raised(original: TransistorComponent, selected: TransistorComponent, w: Warning) {
    var o := original.ratings;
    var s := selected.ratings;
    match w
    case DifferentPolarity => original.component.polarity != selected.component.polarity
    case DifferentPackage => original.component.package != selected.component.package
    case LowerCurrent => Below(s.maxCollectorCurrent, o.maxCollectorCurrent, 1.0)
    case LowerVoltage => Below(s.maxCollectorEmitterVoltage, o.maxCollectorEmitterVoltage, 1.0)
    case LowerPower => Below(s.maxPowerDissipation, o.maxPowerDissipation, 0.8)
    case DifferentGain => GainDiffers(s.hFE, o.hFE)
  }

  /** Every warning, in the listed order. */
  const AllWarnings := [DifferentPolarity, DifferentPackage, LowerCurrent, LowerVoltage, LowerPower, DifferentGain]

  /** The warnings shown: those whose condition holds, in the listed order. */
  function Warnings(original: TransistorComponent, selected: TransistorComponent): seq<Warning> {
    Filter(AllWarnings, (w: Warning) => Raised(original, selected, w))
  }

  /** Each warning is listed exactly when its condition holds, and at most once. */
  lemma WarningsMeaning(original: TransistorComponent, selected: TransistorComponent)
    ensures DifferentPolarity in Warnings(original, selected) <==> original.component.polarity != selected.component.polarity
    ensures DifferentPackage in Warnings(original, selected) <==> original.component.package != selected.component.package
    ensures LowerCurrent in Warnings(original, selected) <==>
      Below(selected.ratings.maxCollectorCurrent, original.ratings.maxCollectorCurrent, 1.0)
    ensures LowerVoltage in Warnings(original, selected) <==>
      Below(selected.ratings.maxCollectorEmitterVoltage, original.ratings.maxCollectorEmitterVoltage, 1.0)
    ensures LowerPower in Warnings(original, selected) <==>
      Below(selected.ratings.maxPowerDissipation, original.ratings.maxPowerDissipation, 0.8)
    ensures DifferentGain in Warnings(original, selected) <==> GainDiffers(selected.ratings.hFE, original.ratings.hFE)
    ensures |Warnings(original, selected)| <= |AllWarnings|
  {
    Listed(original, selected, DifferentPolarity);
    Listed(original, selected, DifferentPackage);
    Listed(original, selected, LowerCurrent);
    Listed(original, selected, LowerVoltage);
    Listed(original, selected, LowerPower);
    Listed(original, selected, DifferentGain);
  }

  /** A warning is listed exactly when it is raised. */
  lemma Listed(original: TransistorComponent, selected: TransistorComponent, w: Warning)
    ensures w in Warnings(original, selected) <==> Raised(original, selected, w)
    ensures |Warnings(original, selected)| <= |AllWarnings|
  {
    FilterMembers(AllWarnings, (w: Warning) => Raised(original, selected, w));
    assert w in AllWarnings by {
      match w
      case DifferentPolarity => assert AllWarnings[0] == w;
      case DifferentPackage => assert AllWarnings[1] == w;
      case LowerCurrent => assert AllWarnings[2] == w;
      case LowerVoltage => assert AllWarnings[3] == w;
      case LowerPower => assert AllWarnings[4] == w;
      case DifferentGain => assert AllWarnings[5] == w;
    }
  }

  /** The ratings a datasheet can give: none negative. */
  predicate NonNegative(r: Ratings) {
    (r.maxCollectorCurrent.Some? ==> r.maxCollectorCurrent.value >= 0.0)
    && (r.maxCollectorEmitterVoltage.Some? ==> r.maxCollectorEmitterVoltage.value >= 0.0)
    && (r.maxPowerDissipation.Some? ==> r.maxPowerDissipation.value >= 0.0)
    && (r.hFE.Some? ==> r.hFE.value >= 0.0)
  }

  /** A transistor compared with itself raises no warning. */
  lemma NoWarningAgainstItself(t: TransistorComponent)
    requires NonNegative(t.ratings)
    ensures Warnings(t, t) == []
  {
    assert !GainDiffers(t.ratings.hFE, t.ratings.hFE) by {
      if Truthy(t.ratings.hFE) {
        var h := t.ratings.hFE.value;
        assert h > 0.0;
        assert h * 0.7 < h < h * 1.3;
      }
    }
    var raised := (w: Warning) => Raised(t, t, w);
    assert forall i | 0 <= i < |AllWarnings| :: !raised(AllWarnings[i]);
    FilterNone(AllWarnings, raised);
  }

  /**
   * The warnings agree with the comparison table: a lower current or voltage
   * warning shows a red verdict, and a gain warning never comes with a good
   * gain match.
   */
  lemma WarningsAgreeWithVerdicts(original: Ratings, selected: Ratings)
    requires NonNegative(original) && NonNegative(selected)
    ensures Below(selected.maxCollectorCurrent, original.maxCollectorCurrent, 1.0) ==>
      CompareValues(selected.maxCollectorCurrent, original.maxCollectorCurrent) == Lower
    ensures Below(selected.maxCollectorEmitterVoltage, original.maxCollectorEmitterVoltage, 1.0) ==>
      CompareValues(selected.maxCollectorEmitterVoltage, original.maxCollectorEmitterVoltage) == Lower
    ensures GainDiffers(selected.hFE, original.hFE) ==> CompareHFE(selected.hFE, original.hFE) != GoodMatch
  {
    if Truthy(original.maxCollectorCurrent) && selected.maxCollectorCurrent.Some? {
      CompareValuesMeaning(selected.maxCollectorCurrent.value, original.maxCollectorCurrent.value);
    }
    if Truthy(original.maxCollectorEmitterVoltage) && selected.maxCollectorEmitterVoltage.Some? {
      CompareValuesMeaning(selected.maxCollectorEmitterVoltage.value, original.maxCollectorEmitterVoltage.value);
    }
    if Truthy(original.hFE) && selected.hFE.Some? {
      CompareHFEMeaning(selected.hFE.value, original.hFE.value);
    }
  }
}

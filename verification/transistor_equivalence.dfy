/**
 * The transistor equivalence engine: parameters extracted from a component's
 * specification strings, the compatibility score of a replacement against an
 * original, and the ranking of candidate replacements.
 */
module TransistorEquivalence {
  import opened Wrappers
  import opened Text
  import opened Numbers
  import opened ComponentTypes
  import opened Sorting

  /** The parameters compared by the engine; `kind` is the polarity (the source's `type`). */
  datatype TransistorParams = TransistorParams(
    kind: string,
    package: string,
    maxCollectorCurrent: Option<real>,
    maxCollectorEmitterVoltage: Option<real>,
    maxCollectorBaseVoltage: Option<real>,
    hFE: Option<real>,
    maxPowerDissipation: Option<real>,
    maxJunctionTemp: Option<real>,
    boundaryFrequency: Option<real>,
    collectorCapacitance: Option<real>,
    application: string)

  /**
   * `specs[k1] || specs[k2] || ...`: the first non-empty value among the keys.
   * A missing key and the empty text both read as the empty text, which the
   * numeric parser treats exactly like `undefined`.
   */
  function SpecLookup(specs: map<string, string>, keys: seq<string>): (v: string)
    ensures v == "" <==> forall i | 0 <= i < |keys| :: keys[i] !in specs || specs[keys[i]] == ""
    ensures v != "" ==> exists i | 0 <= i < |keys| :: keys[i] in specs && specs[keys[i]] == v
  {
    if keys == [] then ""
    else if keys[0] in specs && specs[keys[0]] != "" then specs[keys[0]]
    else
      var v := SpecLookup(specs, keys[1..]);
      assert forall i | 1 <= i < |keys| :: keys[1..][i - 1] == keys[i];
      v
  }

  /** The polarity named in a type text, checked case-insensitively in the order NPN, PNP, N-Channel, P-Channel. */
  function ExtractPolarityFromType(kind: string): (r: Option<string>)
    ensures r == Some("NPN") <==> Contains(ToLower(kind), "npn")
    ensures r == Some("PNP") <==> !Contains(ToLower(kind), "npn") && Contains(ToLower(kind), "pnp")
    ensures r == Some("N-Channel") <==>
      !Contains(ToLower(kind), "npn") && !Contains(ToLower(kind), "pnp") && Contains(ToLower(kind), "n-channel")
    ensures r == None <==>
      !Contains(ToLower(kind), "npn") && !Contains(ToLower(kind), "pnp")
      && !Contains(ToLower(kind), "n-channel") && !Contains(ToLower(kind), "p-channel")
  {
    var lower := ToLower(kind);
    if Contains(lower, "npn") then Some("NPN")
    else if Contains(lower, "pnp") then Some("PNP")
    else if Contains(lower, "n-channel") then Some("N-Channel")
    else if Contains(lower, "p-channel") then Some("P-Channel")
    else None
  }

  /** `component.polarity || extractPolarityFromType(component.type) || "Unknown"`. */
  function PolarityOf(c: Component): (kind: string)
    ensures kind != ""
    ensures TruthyText(c.polarity) ==> kind == c.polarity.value
    ensures !TruthyText(c.polarity) ==>
      kind in {"NPN", "PNP", "N-Channel", "P-Channel", "Unknown"}
      && (kind == "Unknown" <==> ExtractPolarityFromType(c.kind).None?)
  {
    if TruthyText(c.polarity) then c.polarity.value
    else match ExtractPolarityFromType(c.kind)
      case Some(p) => p
      case None => "Unknown"
  }

  /**
   * The likely application from the description, checked in priority order:
   * switching, amplification, high frequency (above 100 MHz), power (above 5 W).
   */
  function DetermineApplication(description: string, specs: map<string, string>): (app: string)
    ensures var desc := ToLower(description);
      && (app == "switching" <==> Contains(desc, "switch") || Contains(desc, "digital"))
      && (app == "amplification" <==>
            (!(Contains(desc, "switch") || Contains(desc, "digital"))
             && (Contains(desc, "amplif") || Contains(desc, "audio") || Contains(desc, "linear"))))
    ensures app in {"switching", "amplification", "high-frequency", "power", "general"}
    ensures var desc := ToLower(description);
      var keyword := Contains(desc, "switch") || Contains(desc, "digital")
                     || Contains(desc, "amplif") || Contains(desc, "audio") || Contains(desc, "linear");
      var ft := ExtractNumericValue(SpecLookup(specs, ["Transition Frequency", "ft"]));
      var power := ExtractNumericValue(SpecLookup(specs, ["Power Dissipation", "Max Power"]));
      var highFrequency := Truthy(ft) && ft.value > 100000000.0;
      var highPower := Truthy(power) && power.value > 5.0;
      && (app == "high-frequency" <==> !keyword && highFrequency)
      && (app == "power" <==> !keyword && !highFrequency && highPower)
      && (app == "general" <==> !keyword && !highFrequency && !highPower)
  {
    var desc := ToLower(description);
    if Contains(desc, "switch") || Contains(desc, "digital") then "switching"
    else if Contains(desc, "amplif") || Contains(desc, "audio") || Contains(desc, "linear") then "amplification"
    else
      var ft := ExtractNumericValue(SpecLookup(specs, ["Transition Frequency", "ft"]));
      if Truthy(ft) && ft.value > 100000000.0 then "high-frequency"
      else
        var power := ExtractNumericValue(SpecLookup(specs, ["Power Dissipation", "Max Power"]));
        if Truthy(power) && power.value > 5.0 then "power"
        else "general"
  }

  /** The engine's view of a component; an absent `specs` counts as empty. */
  function ExtractTransistorParams(c: Component): (p: TransistorParams)
    ensures p.kind == PolarityOf(c)
    ensures p.package == TextOr(c.package, "Unknown")
    ensures p.maxCollectorCurrent.Some? ==> p.maxCollectorCurrent.value >= 0.0
    ensures p.maxCollectorEmitterVoltage.Some? ==> p.maxCollectorEmitterVoltage.value >= 0.0
    ensures p.hFE.Some? ==> p.hFE.value >= 0.0
    ensures p.maxPowerDissipation.Some? ==> p.maxPowerDissipation.value >= 0.0
    ensures p.boundaryFrequency.Some? ==> p.boundaryFrequency.value >= 0.0
    ensures p.collectorCapacitance.Some? ==> p.collectorCapacitance.value >= 0.0
    ensures c.specs.None? ==>
      p.maxCollectorCurrent.None? && p.maxCollectorEmitterVoltage.None? && p.maxCollectorBaseVoltage.None?
      && p.hFE.None? && p.maxPowerDissipation.None? && p.maxJunctionTemp.None?
      && p.boundaryFrequency.None? && p.collectorCapacitance.None?
  {
    var specs := c.specs.GetOr(map[]);
    TransistorParams(
      PolarityOf(c),
      TextOr(c.package, "Unknown"),
      ExtractNumericValue(SpecLookup(specs, ["Collector Current", "Max Collector Current"])),
      ExtractNumericValue(SpecLookup(specs, ["Collector-Emitter Voltage", "Vce"])),
      ExtractNumericValue(SpecLookup(specs, ["Collector-Base Voltage", "Vcb"])),
      ExtractNumericValue(SpecLookup(specs, ["hFE", "Current Gain", "DC Current Gain"])),
      ExtractNumericValue(SpecLookup(specs, ["Power Dissipation", "Max Power"])),
      ExtractNumericValue(SpecLookup(specs, ["Junction Temperature", "Max Temperature"])),
      ExtractNumericValue(SpecLookup(specs, ["Transition Frequency", "ft"])),
      ExtractNumericValue(SpecLookup(specs, ["Collector Capacitance", "Cc"])),
      DetermineApplication(c.description, specs))
  }

  /** Two parts that state no polarity anywhere both read as "Unknown", so they count as the same type. */
  lemma UnknownPolaritiesMatch(a: Component, b: Component)
    requires !TruthyText(a.polarity) && ExtractPolarityFromType(a.kind).None?
    requires !TruthyText(b.polarity) && ExtractPolarityFromType(b.kind).None?
    ensures ExtractTransistorParams(a).kind == ExtractTransistorParams(b).kind == "Unknown"
  {
  }

  // Packages

  /** The physically interchangeable package families, keyed by the upper-case package name. */
  const PackageFamilies: map<string, seq<string>> := map[
    "TO-92" := ["TO-92", "TO-226"],
    "TO-220" := ["TO-220", "TO-220F", "TO-220AB"],
    "TO-3" := ["TO-3", "TO-204AA"],
    "TO-126" := ["TO-126", "TO-225", "SOT-32"],
    "SOT-23" := ["SOT-23", "SOT-323"],
    "SOT-223" := ["SOT-223"],
    "DPAK" := ["DPAK", "TO-252"],
    "D2PAK" := ["D2PAK", "TO-263"]
  ]

  /** The packages compatible with `packageType` after upper-casing and trimming; empty when unknown. */
  function GetCompatiblePackages(packageType: string): seq<string> {
    var key := ToUpper(Trim(packageType));
    if key in PackageFamilies then PackageFamilies[key] else []
  }

  /** No family is found exactly when the normalised name is not a known package. */
  lemma UnknownPackageHasNoFamily(packageType: string)
    ensures ToUpper(Trim(packageType)) !in PackageFamilies <==> GetCompatiblePackages(packageType) == []
  {
    var key := ToUpper(Trim(packageType));
    if key in PackageFamilies {
      FamilyStartsWithItself(key);
      assert GetCompatiblePackages(packageType) == PackageFamilies[key];
    }
  }

  /** Each family lists its own package first. */
  lemma FamilyStartsWithItself(key: string)
    requires key in PackageFamilies
    ensures PackageFamilies[key] != [] && PackageFamilies[key][0] == key
  {
    if key == "TO-92" {
      assert PackageFamilies[key] == ["TO-92", "TO-226"];
    } else if key == "TO-220" {
      assert PackageFamilies[key] == ["TO-220", "TO-220F", "TO-220AB"];
    } else if key == "TO-3" {
      assert PackageFamilies[key] == ["TO-3", "TO-204AA"];
    } else if key == "TO-126" {
      assert PackageFamilies[key] == ["TO-126", "TO-225", "SOT-32"];
    } else if key == "SOT-23" {
      assert PackageFamilies[key] == ["SOT-23", "SOT-323"];
    } else if key == "SOT-223" {
      assert PackageFamilies[key] == ["SOT-223"];
    } else if key == "DPAK" {
      assert PackageFamilies[key] == ["DPAK", "TO-252"];
    } else {
      assert key == "D2PAK";
      assert PackageFamilies[key] == ["D2PAK", "TO-263"];
    }
  }

  /** A known package is compatible with itself: its family, found through `getCompatiblePackages`, contains it. */
  lemma KnownPackageIsCompatibleWithItself(packageType: string)
    requires ToUpper(Trim(packageType)) in PackageFamilies
    ensures GetCompatiblePackages(packageType) != []
    ensures GetCompatiblePackages(packageType)[0] == ToUpper(Trim(packageType))
  {
    var key := ToUpper(Trim(packageType));
    FamilyStartsWithItself(key);
    assert GetCompatiblePackages(packageType) == PackageFamilies[key];
  }

  /** Whitespace around the package name does not change its family. */
  lemma CompatiblePackagesIgnorePadding(w1: string, packageType: string, w2: string)
    requires AllWhitespace(w1) && AllWhitespace(w2)
    ensures GetCompatiblePackages(w1 + packageType + w2) == GetCompatiblePackages(packageType)
  {
    TrimIgnoresPadding(w1, packageType, w2);
  }

  // Score components

  /** The `a && b` guard: both ratings are present and not zero. */
  predicate BothGiven(o: Option<real>, r: Option<real>) {
    Truthy(o) && Truthy(r)
  }

  /** Points for the package: 15 when identical, 10 when in the original's family, else 0. */
  function PackagePoints(original: string, replacement: string): (pts: int)
    ensures pts == 15 <==> original == replacement
    ensures pts == 10 <==> original != replacement && replacement in GetCompatiblePackages(original)
    ensures pts == 0 <==> original != replacement && replacement !in GetCompatiblePackages(original)
  {
    if original == replacement then 15
    else if replacement in GetCompatiblePackages(original) then 10
    else 0
  }

  /** A current or voltage rating strictly below the original's vetoes the replacement. */
  predicate RatingTooLow(original: Option<real>, replacement: Option<real>) {
    BothGiven(original, replacement) && replacement.value < original.value
  }

  /** Points for a current or voltage rating: 15 when it meets the original, 5 more when at most twice it. */
  function RatingPoints(original: Option<real>, replacement: Option<real>): (pts: int)
    ensures pts == 0 || pts == 15 || pts == 20
    ensures pts > 0 <==> BothGiven(original, replacement) && replacement.value >= original.value
    ensures pts == 20 <==>
      BothGiven(original, replacement) && original.value <= replacement.value <= original.value * 2.0
  {
    if BothGiven(original, replacement) && replacement.value >= original.value then
      if replacement.value <= original.value * 2.0 then 20 else 15
    else 0
  }

  /**
   * Points for the current gain: a switching original wants at least its own
   * gain (15, else 5); otherwise the ratio decides: within 20% 15, within 50% 10, else 5.
   */
  function GainPoints(original: TransistorParams, replacement: TransistorParams): (pts: int)
    ensures pts == 0 <==> !BothGiven(original.hFE, replacement.hFE)
    ensures pts in {0, 5, 10, 15}
    ensures original.application == "switching" && pts != 0 ==>
      (pts == 15 <==> replacement.hFE.value >= original.hFE.value)
    ensures original.application != "switching" && pts != 0 ==>
      var ratio := replacement.hFE.value / original.hFE.value;
      && (pts == 15 <==> 0.8 <= ratio <= 1.2)
      && (pts == 10 <==> !(0.8 <= ratio <= 1.2) && 0.5 <= ratio <= 1.5)
  {
    if !BothGiven(original.hFE, replacement.hFE) then 0
    else if original.application == "switching" then
      if replacement.hFE.value >= original.hFE.value then 15 else 5
    else
      var ratio := replacement.hFE.value / original.hFE.value;
      if 0.8 <= ratio <= 1.2 then 15
      else if 0.5 <= ratio <= 1.5 then 10
      else 5
  }

  /** Points for power dissipation and transition frequency: 10 when it meets the original, 5 when within 80%. */
  function HeadroomPoints(original: Option<real>, replacement: Option<real>): (pts: int)
    ensures pts == 0 || pts == 5 || pts == 10
    ensures pts == 10 <==> BothGiven(original, replacement) && replacement.value >= original.value
    ensures pts == 5 <==>
      (BothGiven(original, replacement) && original.value * 0.8 <= replacement.value < original.value)
  {
    if !BothGiven(original, replacement) then 0
    else if replacement.value >= original.value then 10
    else if replacement.value >= original.value * 0.8 then 5
    else 0
  }

  /** Points for collector capacitance: 5 when the replacement's is not higher. */
  function CapacitancePoints(original: Option<real>, replacement: Option<real>): (pts: int)
    ensures pts == 0 || pts == 5
    ensures pts == 5 <==> BothGiven(original, replacement) && replacement.value <= original.value
  {
    if BothGiven(original, replacement) && replacement.value <= original.value then 5 else 0
  }

  /** The veto rules: a different polarity, or a current or voltage rating below the original's. */
  predicate Vetoed(original: TransistorParams, replacement: TransistorParams) {
    || original.kind != replacement.kind
    || RatingTooLow(original.maxCollectorCurrent, replacement.maxCollectorCurrent)
    || RatingTooLow(original.maxCollectorEmitterVoltage, replacement.maxCollectorEmitterVoltage)
  }

  /**
   * The compatibility score: 0 when vetoed, otherwise the sum of the points
   * for package, current, voltage, gain, power, frequency and capacitance.
   */
  function CompatibilityScore(original: TransistorParams, replacement: TransistorParams): (score: int)
    ensures 0 <= score <= 95
    ensures Vetoed(original, replacement) ==> score == 0
  {
    if Vetoed(original, replacement) then 0
    else
      PackagePoints(original.package, replacement.package)
      + RatingPoints(original.maxCollectorCurrent, replacement.maxCollectorCurrent)
      + RatingPoints(original.maxCollectorEmitterVoltage, replacement.maxCollectorEmitterVoltage)
      + GainPoints(original, replacement)
      + HeadroomPoints(original.maxPowerDissipation, replacement.maxPowerDissipation)
      + HeadroomPoints(original.boundaryFrequency, replacement.boundaryFrequency)
      + CapacitancePoints(original.collectorCapacitance, replacement.collectorCapacitance)
  }

  /**
   * `calculateCompatibilityScore`: accumulates points rule by rule and returns
   * early on a veto; the final `Math.min(score, 100)` never changes the total.
   */
  method CalculateCompatibilityScore(original: TransistorParams, replacement: TransistorParams) returns (score: int)
    ensures score == CompatibilityScore(original, replacement)
    ensures 0 <= score <= 95
  {
    score := 0;
    var maxScore := 100;
    if original.kind != replacement.kind {
      return 0;
    }

    if original.package == replacement.package {
      score := score + 15;
    } else {
      var compatiblePackages := GetCompatiblePackages(original.package);
      if replacement.package in compatiblePackages {
        score := score + 10;
      }
    }
    assert score == PackagePoints(original.package, replacement.package);

    var oi, ri := original.maxCollectorCurrent, replacement.maxCollectorCurrent;
    if Truthy(oi) && Truthy(ri) {
      if ri.value >= oi.value {
        score := score + 15;
        if ri.value <= oi.value * 2.0 {
          score := score + 5;
        }
      } else {
        return 0;
      }
    }
    assert score == PackagePoints(original.package, replacement.package) + RatingPoints(oi, ri);

    var ov, rv := original.maxCollectorEmitterVoltage, replacement.maxCollectorEmitterVoltage;
    if Truthy(ov) && Truthy(rv) {
      if rv.value >= ov.value {
        score := score + 15;
        if rv.value <= ov.value * 2.0 {
          score := score + 5;
        }
      } else {
        return 0;
      }
    }
    assert !Vetoed(original, replacement);
    ghost var base := PackagePoints(original.package, replacement.package) + RatingPoints(oi, ri) + RatingPoints(ov, rv);
    assert score == base;

    var oh, rh := original.hFE, replacement.hFE;
    if Truthy(oh) && Truthy(rh) {
      if original.application == "switching" {
        if rh.value >= oh.value {
          score := score + 15;
        } else {
          score := score + 5;
        }
      } else {
        var ratio := rh.value / oh.value;
        if ratio >= 0.8 && ratio <= 1.2 {
          score := score + 15;
        } else if ratio >= 0.5 && ratio <= 1.5 {
          score := score + 10;
        } else {
          score := score + 5;
        }
      }
    }

    assert score == base + GainPoints(original, replacement);

    var op, rp := original.maxPowerDissipation, replacement.maxPowerDissipation;
    if Truthy(op) && Truthy(rp) {
      if rp.value >= op.value {
        score := score + 10;
      } else if rp.value >= op.value * 0.8 {
        score := score + 5;
      }
    }

    assert score == base + GainPoints(original, replacement) + HeadroomPoints(op, rp);

    var of, rf := original.boundaryFrequency, replacement.boundaryFrequency;
    if Truthy(of) && Truthy(rf) {
      if rf.value >= of.value {
        score := score + 10;
      } else if rf.value >= of.value * 0.8 {
        score := score + 5;
      }
    }

    assert score == base + GainPoints(original, replacement) + HeadroomPoints(op, rp) + HeadroomPoints(of, rf);

    var oc, rc := original.collectorCapacitance, replacement.collectorCapacitance;
    if Truthy(oc) && Truthy(rc) {
      if rc.value <= oc.value {
        score := score + 5;
      }
    }
    assert score == CompatibilityScore(original, replacement) by {
      assert score == base + GainPoints(original, replacement) + HeadroomPoints(op, rp) + HeadroomPoints(of, rf)
        + CapacitancePoints(oc, rc);
    }

    score := if score < maxScore then score else maxScore;
  }

  /**
   * A rating the original lacks (absent or zero) neither vetoes nor scores:
   * whatever the replacement states for it, the score is the same.
   */
  lemma AbsentRatingIsNeutral(original: TransistorParams, replacement: TransistorParams, v: Option<real>)
    ensures !Truthy(original.maxCollectorCurrent) ==>
      CompatibilityScore(original, replacement.(maxCollectorCurrent := v)) == CompatibilityScore(original, replacement)
    ensures !Truthy(original.maxCollectorEmitterVoltage) ==>
      CompatibilityScore(original, replacement.(maxCollectorEmitterVoltage := v)) == CompatibilityScore(original, replacement)
    ensures !Truthy(original.hFE) ==>
      CompatibilityScore(original, replacement.(hFE := v)) == CompatibilityScore(original, replacement)
    ensures !Truthy(original.maxPowerDissipation) ==>
      CompatibilityScore(original, replacement.(maxPowerDissipation := v)) == CompatibilityScore(original, replacement)
    ensures !Truthy(original.boundaryFrequency) ==>
      CompatibilityScore(original, replacement.(boundaryFrequency := v)) == CompatibilityScore(original, replacement)
    ensures !Truthy(original.collectorCapacitance) ==>
      CompatibilityScore(original, replacement.(collectorCapacitance := v)) == CompatibilityScore(original, replacement)
  {
    var o, r := original, replacement;
    if !Truthy(o.maxCollectorCurrent) {
      assert CompatibilityScore(o, r.(maxCollectorCurrent := v)) == CompatibilityScore(o, r) by {
        var r2 := r.(maxCollectorCurrent := v);
        assert Vetoed(o, r2) == Vetoed(o, r);
        assert RatingPoints(o.maxCollectorCurrent, r2.maxCollectorCurrent) == 0;
      }
    }
    if !Truthy(o.maxCollectorEmitterVoltage) {
      assert CompatibilityScore(o, r.(maxCollectorEmitterVoltage := v)) == CompatibilityScore(o, r) by {
        var r2 := r.(maxCollectorEmitterVoltage := v);
        assert Vetoed(o, r2) == Vetoed(o, r);
        assert RatingPoints(o.maxCollectorEmitterVoltage, r2.maxCollectorEmitterVoltage) == 0;
      }
    }
    if !Truthy(o.hFE) {
      assert CompatibilityScore(o, r.(hFE := v)) == CompatibilityScore(o, r) by {
        var r2 := r.(hFE := v);
        assert Vetoed(o, r2) == Vetoed(o, r);
        assert GainPoints(o, r2) == 0 == GainPoints(o, r);
      }
    }
    if !Truthy(o.maxPowerDissipation) {
      assert CompatibilityScore(o, r.(maxPowerDissipation := v)) == CompatibilityScore(o, r) by {
        var r2 := r.(maxPowerDissipation := v);
        assert Vetoed(o, r2) == Vetoed(o, r);
        assert HeadroomPoints(o.maxPowerDissipation, r2.maxPowerDissipation) == 0;
      }
    }
    if !Truthy(o.boundaryFrequency) {
      assert CompatibilityScore(o, r.(boundaryFrequency := v)) == CompatibilityScore(o, r) by {
        var r2 := r.(boundaryFrequency := v);
        assert Vetoed(o, r2) == Vetoed(o, r);
        assert HeadroomPoints(o.boundaryFrequency, r2.boundaryFrequency) == 0;
      }
    }
    if !Truthy(o.collectorCapacitance) {
      assert CompatibilityScore(o, r.(collectorCapacitance := v)) == CompatibilityScore(o, r) by {
        var r2 := r.(collectorCapacitance := v);
        assert Vetoed(o, r2) == Vetoed(o, r);
        assert CapacitancePoints(o.collectorCapacitance, r2.collectorCapacitance) == 0;
      }
    }
  }

  /** A part compared with itself is never vetoed and scores at least the identical-package 15 points. */
  lemma SelfCompatible(p: TransistorParams)
    ensures CompatibilityScore(p, p) >= 15
  {
  }

  // Ranking

  /** A candidate together with its compatibility score. */
  datatype ScoredCandidate = ScoredCandidate(component: Component, score: int)

  /** The score of `candidate` as a replacement for `original`. */
  function ScoreAgainst(original: Component, candidate: Component): int {
    CompatibilityScore(ExtractTransistorParams(original), ExtractTransistorParams(candidate))
  }

  /** The filter, map and filter of `findEquivalentTransistors` for a given scoring, in candidate order. */
  function QualifyingCandidates(originalId: string, candidates: seq<Component>, minScore: real, score: Component -> int)
    : (r: seq<ScoredCandidate>)
    ensures |r| <= |candidates|
    ensures forall k | 0 <= k < |r| ::
      && r[k].component in candidates
      && r[k].component.id != originalId
      && r[k].score == score(r[k].component)
      && r[k].score as real >= minScore
    ensures forall c | c in candidates && c.id != originalId && score(c) as real >= minScore ::
      ScoredCandidate(c, score(c)) in r
  {
    if candidates == [] then []
    else
      var rest := QualifyingCandidates(originalId, candidates[1..], minScore, score);
      var c := candidates[0];
      assert forall x | x in candidates :: x == c || x in candidates[1..];
      if c.id != originalId && score(c) as real >= minScore then [ScoredCandidate(c, score(c))] + rest
      else rest
  }

  /** The comparator `(a, b) => b.score - a.score`. */
  function ByScoreDescending(a: ScoredCandidate, b: ScoredCandidate): real {
    (b.score - a.score) as real
  }

  function ScoreKey(a: ScoredCandidate): real {
    a.score as real
  }

  /**
   * `findEquivalentTransistors`: the candidates other than the original whose
   * score reaches `minScore` (70 by default), best first.
   */
  function FindEquivalentTransistors(original: Component, candidates: seq<Component>, minScore: real): (r: seq<ScoredCandidate>)
    ensures forall k | 0 <= k < |r| ::
      && r[k].component in candidates
      && r[k].component.id != original.id
      && r[k].score == ScoreAgainst(original, r[k].component)
      && r[k].score as real >= minScore
    ensures forall c | c in candidates && c.id != original.id && ScoreAgainst(original, c) as real >= minScore ::
      ScoredCandidate(c, ScoreAgainst(original, c)) in r
    ensures multiset(r) == multiset(QualifyingCandidates(original.id, candidates, minScore, c => ScoreAgainst(original, c)))
    ensures NonIncreasing(r, ScoreKey)
  {
    RankCandidates(original.id, candidates, minScore, c => ScoreAgainst(original, c))
  }

  /** The qualifying candidates under any scoring, sorted best first. */
  function RankCandidates(originalId: string, candidates: seq<Component>, minScore: real, score: Component -> int)
    : (r: seq<ScoredCandidate>)
    ensures forall k | 0 <= k < |r| ::
      && r[k].component in candidates
      && r[k].component.id != originalId
      && r[k].score == score(r[k].component)
      && r[k].score as real >= minScore
    ensures forall c | c in candidates && c.id != originalId && score(c) as real >= minScore ::
      ScoredCandidate(c, score(c)) in r
    ensures multiset(r) == multiset(QualifyingCandidates(originalId, candidates, minScore, score))
    ensures NonIncreasing(r, ScoreKey)
  {
    var q := QualifyingCandidates(originalId, candidates, minScore, score);
    var r := SortBy(q, ByScoreDescending);
    SortByNonIncreasing(q, ByScoreDescending, ScoreKey);
    forall k | 0 <= k < |r|
      ensures r[k].component in candidates && r[k].component.id != originalId
        && r[k].score == score(r[k].component) && r[k].score as real >= minScore
    {
      SortedElementFromInput(q, ByScoreDescending, k);
    }
    forall c | c in candidates && c.id != originalId && score(c) as real >= minScore
      ensures ScoredCandidate(c, score(c)) in r
    {
      assert ScoredCandidate(c, score(c)) in multiset(q);
    }
    r
  }

  /** The default threshold of `findEquivalentTransistors`. */
  const DefaultMinScore: real := 70.0
}

/**
 * The compatibility analysis shown beside an equivalent: the level and bar
 * colour of a score, and the differences between the original's and the
 * replacement's key specifications.
 */
module EquivalenceInfo {
  import opened Wrappers
  import opened Text
  import opened Seqs
  import opened Numbers

  /** The compatibility level of a score. */
  datatype Level = Excellent | Good | Acceptable | Poor

  /** The colour of the score bar. */
  datatype BarColour = DarkGreen | Green | Yellow | Red

  /** `getCompatibilityLevel`: bands at 90, 80 and 70. */
  function LevelOf(score: real): Level {
    if score >= 90.0 then Excellent
    else if score >= 80.0 then Good
    else if score >= 70.0 then Acceptable
    else Poor
  }

  /** The bar colour, chosen by its own chain of comparisons. */
  function BarOf(score: real): BarColour {
    if score >= 90.0 then DarkGreen
    else if score >= 80.0 then Green
    else if score >= 70.0 then Yellow
    else Red
  }

  /** The levels partition the scores into the bands [90, ∞), [80, 90), [70, 80) and below 70. */
  lemma LevelBands(score: real)
    ensures LevelOf(score) == Excellent <==> score >= 90.0
    ensures LevelOf(score) == Good <==> 80.0 <= score < 90.0
    ensures LevelOf(score) == Acceptable <==> 70.0 <= score < 80.0
    ensures LevelOf(score) == Poor <==> score < 70.0
  {
  }

  /** The bar colour changes exactly where the level does. */
  lemma BarFollowsLevel(s1: real, s2: real)
    ensures BarOf(s1) == BarOf(s2) <==> LevelOf(s1) == LevelOf(s2)
  {
  }

  /** The one parameter for which a lower value is better. */
  const Capacitance := "Collector Capacitance"

  /**
   * `isReplacementBetter`: compares the first numbers of the two texts;
   * higher is better except for capacitance. Both texts must hold a digit,
   * or the source's non-null assertion on the match fails.
   */
  function IsReplacementBetter(param: string, original: string, replacement: string): bool
    requires HasDigit(original) && HasDigit(replacement)
  {
    var o := ExtractNumericValue(original).value;
    var r := ExtractNumericValue(replacement).value;
    if param == Capacitance then r < o else r > o
  }

  /** A replacement is better than the original exactly when its number is strictly higher (lower for capacitance). */
  lemma BetterMeaning(param: string, original: string, replacement: string)
    requires HasDigit(original) && HasDigit(replacement)
    ensures param != Capacitance ==> (IsReplacementBetter(param, original, replacement) <==>
      ExtractNumericValue(replacement).value > ExtractNumericValue(original).value)
    ensures param == Capacitance ==> (IsReplacementBetter(param, original, replacement) <==>
      ExtractNumericValue(replacement).value < ExtractNumericValue(original).value)
  {
  }

  /** Of two parts, at most one is better than the other, and neither when their numbers agree. */
  lemma BetterIsStrict(param: string, a: string, b: string)
    requires HasDigit(a) && HasDigit(b)
    ensures !(IsReplacementBetter(param, a, b) && IsReplacementBetter(param, b, a))
    ensures ExtractNumericValue(a) == ExtractNumericValue(b) ==> !IsReplacementBetter(param, a, b)
  {
  }

  /** The parameters compared, in their listed order. */
  const KeyParams := ["Collector Current", "Collector-Emitter Voltage", "hFE", "Power Dissipation", "Transition Frequency"]

  /** One listed difference. */
  datatype Difference = Difference(param: string, original: string, replacement: string, better: bool)

  /** Both values are present, non-empty and unequal. */
  predicate Differs(o: map<string, string>, r: map<string, string>, param: string) {
    param in o && param in r && o[param] != "" && r[param] != "" && o[param] != r[param]
  }

  /** `Differs` as a test on parameters. */
  function DiffersIn(o: map<string, string>, r: map<string, string>): string -> bool {
    param => Differs(o, r, param)
  }

  /** Every differing parameter among `params` has a number in both texts. */
  predicate Comparable(o: map<string, string>, r: map<string, string>, params: seq<string>) {
    forall param | param in params :: Differs(o, r, param) ==> HasDigit(o[param]) && HasDigit(r[param])
  }

  /** The differences for `params`, in their order. */
  function Differences(o: map<string, string>, r: map<string, string>, params: seq<string>): seq<Difference>
    requires Comparable(o, r, params)
  {
    if params == [] then []
    else
      var param := params[|params| - 1];
      assert Comparable(o, r, params[..|params| - 1]);
      Differences(o, r, params[..|params| - 1])
      + (if Differs(o, r, param) then [Difference(param, o[param], r[param], IsReplacementBetter(param, o[param], r[param]))]
         else [])
  }

  function ParamOf(d: Difference): string {
    d.param
  }

  /** The listed differences after one more parameter. */
  lemma DifferencesPush(o: map<string, string>, r: map<string, string>, params: seq<string>)
    requires params != [] && Comparable(o, r, params)
    ensures Comparable(o, r, params[..|params| - 1])
    ensures var param := params[|params| - 1];
      Differences(o, r, params) == Differences(o, r, params[..|params| - 1])
        + (if Differs(o, r, param) then [Difference(param, o[param], r[param], IsReplacementBetter(param, o[param], r[param]))] else [])
  {
  }

  /** The parameters of the listed differences are, in order, those whose values differ. */
  lemma {:induction false} DifferencesParams(o: map<string, string>, r: map<string, string>, params: seq<string>)
    requires Comparable(o, r, params)
    ensures Map(Differences(o, r, params), ParamOf) == Filter(params, DiffersIn(o, r))
  {
    if params != [] {
      var init := params[..|params| - 1];
      var param := params[|params| - 1];
      DifferencesPush(o, r, params);
      DifferencesParams(o, r, init);
      assert params == init + [param];
      FilterPush(init, param, DiffersIn(o, r));
      var tail := if Differs(o, r, param) then [Difference(param, o[param], r[param], IsReplacementBetter(param, o[param], r[param]))] else [];
      MapAppendOne(Differences(o, r, init), tail, ParamOf);
    }
  }

  /** Each listed difference carries both texts of a differing parameter and the verdict on them. */
  lemma {:induction false} DifferencesEntries(o: map<string, string>, r: map<string, string>, params: seq<string>)
    requires Comparable(o, r, params)
    ensures forall d | d in Differences(o, r, params) ::
      && d.param in params && Differs(o, r, d.param)
      && d.original == o[d.param] && d.replacement == r[d.param]
      && d.better == IsReplacementBetter(d.param, d.original, d.replacement)
  {
    if params != [] {
      var init := params[..|params| - 1];
      DifferencesPush(o, r, params);
      DifferencesEntries(o, r, init);
      assert forall p | p in init :: p in params;
    }
  }

  /**
   * A difference is listed exactly for each parameter, in order, whose two
   * values are present and unequal; it carries both texts and the verdict.
   */
  lemma DifferencesMeaning(o: map<string, string>, r: map<string, string>, params: seq<string>)
    requires Comparable(o, r, params)
    ensures Map(Differences(o, r, params), ParamOf) == Filter(params, DiffersIn(o, r))
    ensures forall d | d in Differences(o, r, params) ::
      && d.param in params && Differs(o, r, d.param)
      && d.original == o[d.param] && d.replacement == r[d.param]
      && d.better == IsReplacementBetter(d.param, d.original, d.replacement)
  {
    DifferencesParams(o, r, params);
    DifferencesEntries(o, r, params);
  }

  lemma CapacitanceNotKey()
    ensures Capacitance !in KeyParams
  {
    assert Capacitance[0] == 'C' && Capacitance[8] != '-' && |Capacitance| != |KeyParams[0]|;
  }

  /** Capacitance is not a key parameter, so no listed difference uses the lower-is-better rule. */
  lemma CapacitanceNeverCompared(o: map<string, string>, r: map<string, string>)
    requires Comparable(o, r, KeyParams)
    ensures forall d | d in Differences(o, r, KeyParams) ::
      && HasDigit(d.original) && HasDigit(d.replacement)
      && (d.better <==> ExtractNumericValue(d.replacement).value > ExtractNumericValue(d.original).value)
  {
    DifferencesMeaning(o, r, KeyParams);
    forall d | d in Differences(o, r, KeyParams)
      ensures && HasDigit(d.original) && HasDigit(d.replacement)
        && (d.better <==> ExtractNumericValue(d.replacement).value > ExtractNumericValue(d.original).value)
    {
      CapacitanceNotKey();
      BetterMeaning(d.param, d.original, d.replacement);
    }
  }

  /** What holds for all parameters holds for the first `k`. */
  lemma ComparablePrefix(o: map<string, string>, r: map<string, string>, params: seq<string>, k: nat)
    requires k <= |params| && Comparable(o, r, params)
    ensures Comparable(o, r, params[..k])
  {
    assert forall p | p in params[..k] :: p in params;
  }

  /**
   * `getDifferences`: nothing when either specification map is missing,
   * otherwise one difference per differing key parameter, in order.
   */
  method GetDifferences(originalSpecs: Option<map<string, string>>, replacementSpecs: Option<map<string, string>>)
    returns (differences: seq<Difference>)
    requires originalSpecs.Some? && replacementSpecs.Some? ==>
      Comparable(originalSpecs.value, replacementSpecs.value, KeyParams)
    ensures originalSpecs.None? || replacementSpecs.None? ==> differences == []
    ensures originalSpecs.Some? && replacementSpecs.Some? ==>
      differences == Differences(originalSpecs.value, replacementSpecs.value, KeyParams)
  {
    if originalSpecs.None? || replacementSpecs.None? {
      return [];
    }
    var o, r := originalSpecs.value, replacementSpecs.value;
    differences := [];
    for i := 0 to |KeyParams|
      invariant Comparable(o, r, KeyParams[..i])
      invariant differences == Differences(o, r, KeyParams[..i])
    {
      var param := KeyParams[i];
      ComparablePrefix(o, r, KeyParams, i + 1);
      DifferencesPush(o, r, KeyParams[..i + 1]);
      assert KeyParams[..i + 1][..i] == KeyParams[..i];
      if param in o && param in r && o[param] != "" && r[param] != "" && o[param] != r[param] {
        differences := differences + [Difference(param, o[param], r[param], IsReplacementBetter(param, o[param], r[param]))];
      }
    }
    assert KeyParams[..|KeyParams|] == KeyParams;
  }
}

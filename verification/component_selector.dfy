/**
 * The component selector: the requirement record, the rules that pick a
 * recommended transistor, and the premium gate in front of the tool.
 */
module ComponentSelector {
  import opened Wrappers
  import opened Sessions

  /** A requirement value: a slider range `[low, high]` or a chosen level. */
  datatype Requirement = Range(low: real, high: real) | Level(level: string)

  /** The requirements by name. */
  type Requirements = map<string, Requirement>

  /** The requirements the page starts with. */
  const InitialRequirements: Requirements := map[
    "voltage" := Range(0.0, 50.0),
    "current" := Range(0.0, 1.0),
    "frequency" := Range(0.0, 10.0),
    "gain" := Range(0.0, 100.0),
    "noiseLevel" := Level("any"),
    "powerDissipation" := Range(0.0, 1.0)]

  /** `handleRequirementChange`: the record with `key` set to `value`. */
  function HandleRequirementChange(requirements: Requirements, key: string, value: Requirement): (r: Requirements)
    ensures r.Keys == requirements.Keys + {key}
    ensures r[key] == value
    ensures forall k | k in requirements && k != key :: r[k] == requirements[k]
  {
    requirements[key := value]
  }

  /** Changing one requirement never changes another, and changing it twice keeps only the second value. */
  lemma RequirementChangesCommute(requirements: Requirements, k1: string, v1: Requirement, k2: string, v2: Requirement)
    ensures k1 != k2 ==>
      HandleRequirementChange(HandleRequirementChange(requirements, k1, v1), k2, v2) ==
      HandleRequirementChange(HandleRequirementChange(requirements, k2, v2), k1, v1)
    ensures HandleRequirementChange(HandleRequirementChange(requirements, k1, v1), k1, v2) ==
      HandleRequirementChange(requirements, k1, v2)
  {
  }

  /** `requirements[key][1] > bound`: false when the requirement is missing or not a range. */
  predicate UpperAbove(requirements: Requirements, key: string, bound: real) {
    key in requirements && requirements[key].Range? && requirements[key].high > bound
  }

  /** `requirements.noiseLevel === "low"`. */
  predicate LowNoise(requirements: Requirements) {
    "noiseLevel" in requirements && requirements["noiseLevel"] == Level("low")
  }

  /** An alternative part and its score. */
  datatype Alternative = Alternative(name: string, score: int)

  /** A recommended part. */
  datatype Pick = Pick(name: string, description: string, reasons: seq<string>, alternatives: seq<Alternative>)

  /** The page's recommendation record. */
  datatype Recommendations = Recommendations(primary: Pick)

  const GeneralPurpose := Pick(
    "2N3904", "General purpose NPN transistor",
    ["Matches your voltage requirements",
     "Suitable for your current needs",
     "Good gain characteristics for this application"],
    [Alternative("2N2222", 95), Alternative("BC547", 92), Alternative("PN2222A", 88)])

  const LowNoiseAudio := Pick(
    "BC550C", "Low noise NPN transistor for audio applications",
    ["Extremely low noise figure (ideal for audio)",
     "Good gain linearity for audio amplification",
     "Matches your voltage and current requirements"],
    [Alternative("2N5087", 94), Alternative("BC560C", 91), Alternative("MPSA18", 87)])

  const MediumPower := Pick(
    "TIP31C", "Medium power NPN transistor",
    ["High power handling capability",
     "Suitable for your voltage requirements",
     "Good thermal characteristics"],
    [Alternative("2N3055", 96), Alternative("BD139", 90), Alternative("TIP41C", 89)])

  const HighFrequency := Pick(
    "2N3866", "RF NPN transistor for high frequency applications",
    ["High transition frequency (fT)",
     "Low capacitance for RF applications",
     "Good gain at your target frequencies"],
    [Alternative("2N5109", 93), Alternative("BFR96", 91), Alternative("2SC1971", 88)])

  /** The rule that decides the recommendation. */
  datatype Rule = DefaultRule | AudioRule | PowerRule | RfRule

  /** The rules in their order: the first whose condition holds decides. */
  function RuleFor(application: string, requirements: Requirements): Rule {
    if application == "audio" && LowNoise(requirements) then AudioRule
    else if application == "power" && UpperAbove(requirements, "powerDissipation", 0.5) then PowerRule
    else if application == "rf" && UpperAbove(requirements, "frequency", 5.0) then RfRule
    else DefaultRule
  }

  function PickOf(rule: Rule): Pick {
    match rule
    case DefaultRule => GeneralPurpose
    case AudioRule => LowNoiseAudio
    case PowerRule => MediumPower
    case RfRule => HighFrequency
  }

  /** Three reasons and three alternatives, the alternatives in strictly decreasing score order. */
  predicate WellFormed(p: Pick) {
    && |p.reasons| == 3
    && |p.alternatives| == 3
    && forall i, j | 0 <= i < j < |p.alternatives| :: p.alternatives[i].score > p.alternatives[j].score
  }

  /** Every pick the rules can give is well formed. */
  lemma PicksWellFormed(rule: Rule)
    ensures WellFormed(PickOf(rule))
    ensures forall a | a in PickOf(rule).alternatives :: 0 <= a.score <= 100 && a.name != PickOf(rule).name
  {
  }

  /**
   * `handleSubmit`: the general-purpose pick, replaced by the pick of the
   * first rule whose condition holds.
   */
  method HandleSubmit(application: string, requirements: Requirements) returns (recommendations: Recommendations)
    ensures recommendations.primary == PickOf(RuleFor(application, requirements))
    ensures WellFormed(recommendations.primary)
  {
    recommendations := Recommendations(GeneralPurpose);
    if application == "audio" && "noiseLevel" in requirements && requirements["noiseLevel"] == Level("low") {
      recommendations := recommendations.(primary := LowNoiseAudio);
    } else if application == "power" && "powerDissipation" in requirements
      && requirements["powerDissipation"].Range? && requirements["powerDissipation"].high > 0.5 {
      recommendations := recommendations.(primary := MediumPower);
    } else if application == "rf" && "frequency" in requirements
      && requirements["frequency"].Range? && requirements["frequency"].high > 5.0 {
      recommendations := recommendations.(primary := HighFrequency);
    }
    PicksWellFormed(RuleFor(application, requirements));
  }

  /**
   * Each rule applies exactly under its own condition, and the general pick
   * exactly when none holds; only the level "low" selects the audio pick,
   * so "very-low" falls back to the general pick.
   */
  lemma RuleConditions(application: string, requirements: Requirements)
    ensures (RuleFor(application, requirements) == AudioRule) <==> application == "audio" && LowNoise(requirements)
    ensures (RuleFor(application, requirements) == PowerRule) <==>
      application == "power" && UpperAbove(requirements, "powerDissipation", 0.5)
    ensures (RuleFor(application, requirements) == RfRule) <==>
      application == "rf" && UpperAbove(requirements, "frequency", 5.0)
    ensures "noiseLevel" in requirements && requirements["noiseLevel"] == Level("very-low") ==>
      RuleFor(application, requirements) != AudioRule
  {
  }

  /** With the starting requirements, power and RF already get their own picks, while audio needs "low" noise. */
  lemma InitialRequirementsRules()
    ensures RuleFor("power", InitialRequirements) == PowerRule
    ensures RuleFor("rf", InitialRequirements) == RfRule
    ensures RuleFor("audio", InitialRequirements) == DefaultRule
    ensures RuleFor("audio", HandleRequirementChange(InitialRequirements, "noiseLevel", Level("low"))) == AudioRule
  {
  }

  /** What the selector's `PremiumCheck` renders. */
  datatype Gate = LoadingView | SignInView | UpgradeView | Content

  /** `PremiumCheck`: loading first, then sign-in, then the upgrade notice for any tier but premium. */
  function PremiumCheck(status: Status, session: Option<Session>): Gate {
    if status == Loading then LoadingView
    else if session.None? then SignInView
    else if !IsPremium(session) then UpgradeView
    else Content
  }

  /** The tool is shown exactly to a premium session once loading is over. */
  lemma ToolNeedsPremium(status: Status, session: Option<Session>)
    ensures (PremiumCheck(status, session) == Content) <==>
      status != Loading && session.Some? && session.value.user.Some?
      && session.value.user.value.subscriptionTier == Some("premium")
    ensures (PremiumCheck(status, session) == SignInView) <==> status != Loading && session.None?
  {
  }
}

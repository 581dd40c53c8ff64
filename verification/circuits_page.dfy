/**
 * The circuit templates page: the premium gate around it, the templates
 * listed per category, and which of them are locked or shown as premium.
 */
module CircuitsPage {
  import opened Wrappers
  import opened Seqs
  import opened Sessions

  datatype Difficulty = Beginner | Intermediate | Advanced

  /** A template as the catalogue declares it. */
  datatype Template = Template(id: string, difficulty: Difficulty, isPremium: bool)

  /** The free templates and the premium templates, each by category. */
  datatype Catalogue = Catalogue(free: map<string, seq<Template>>, premium: map<string, seq<Template>>)

  /** A template as listed, with the `locked` flag `getTemplates` may add (absent counts as false). */
  datatype Listed = Listed(template: Template, locked: bool)

  function Entry(id: string, difficulty: Difficulty, isPremium: bool): Template {
    Template(id, difficulty, isPremium)
  }

  /** The page's two catalogues. */
  const Circuits := Catalogue(
    map[
      "basic" := [
        Entry("led-simple", Beginner, false),
        Entry("led-series", Beginner, false),
        Entry("led-parallel", Beginner, false),
        Entry("led-flasher", Intermediate, false)],
      "amplifiers" := [
        Entry("common-emitter", Beginner, false),
        Entry("darlington-pair", Intermediate, false),
        Entry("differential-amplifier", Advanced, true)],
      "oscillators" := [
        Entry("astable-multivibrator", Intermediate, false),
        Entry("wien-bridge", Advanced, true)],
      "power" := [
        Entry("voltage-regulator", Beginner, false),
        Entry("buck-converter", Advanced, true)],
      "sensors" := [
        Entry("ldr-circuit", Beginner, false),
        Entry("temperature-sensor", Intermediate, true)]],
    map[
      "amplifiers" := [
        Entry("class-a-amplifier", Intermediate, true),
        Entry("class-b-amplifier", Advanced, true),
        Entry("class-ab-amplifier", Advanced, true),
        Entry("cascode-amplifier", Advanced, true),
        Entry("jfet-amplifier", Intermediate, true),
        Entry("mosfet-amplifier", Advanced, true),
        Entry("instrumentation-amplifier", Advanced, true),
        Entry("audio-preamp", Intermediate, true)],
      "oscillators" := [
        Entry("colpitts-oscillator", Advanced, true),
        Entry("hartley-oscillator", Advanced, true),
        Entry("crystal-oscillator", Intermediate, true),
        Entry("phase-shift-oscillator", Intermediate, true),
        Entry("relaxation-oscillator", Intermediate, true),
        Entry("vco-circuit", Advanced, true)],
      "power" := [
        Entry("boost-converter", Advanced, true),
        Entry("flyback-converter", Advanced, true),
        Entry("lm317-regulator", Beginner, true),
        Entry("current-limiter", Intermediate, true),
        Entry("crowbar-circuit", Intermediate, true),
        Entry("solar-charger", Intermediate, true)],
      "digital" := [
        Entry("rs-flip-flop", Beginner, true),
        Entry("jk-flip-flop", Intermediate, true),
        Entry("binary-counter", Intermediate, true),
        Entry("decade-counter", Advanced, true),
        Entry("logic-probe", Beginner, true)],
      "sensors" := [
        Entry("pir-sensor", Intermediate, true),
        Entry("ultrasonic-sensor", Advanced, true),
        Entry("humidity-sensor", Intermediate, true),
        Entry("gas-sensor", Intermediate, true),
        Entry("touch-sensor", Beginner, true)],
      "audio" := [
        Entry("audio-mixer", Intermediate, true),
        Entry("tone-control", Intermediate, true),
        Entry("guitar-preamp", Intermediate, true),
        Entry("intercom", Intermediate, true),
        Entry("white-noise", Intermediate, true)]])

  /** `catalogue[category] || []`. */
  function ListOf(m: map<string, seq<Template>>, category: string): seq<Template> {
    if category in m then m[category] else []
  }

  /** A template listed as it is. */
  function AsIs(t: Template): Listed {
    Listed(t, false)
  }

  /** `{ ...template, locked: true }`. */
  function Lock(t: Template): Listed {
    Listed(t, true)
  }

  /**
   * `getTemplates`: the category's free templates, then its premium ones,
   * the latter locked unless the user is premium.
   */
  function GetTemplates(c: Catalogue, category: string, isPremium: bool): (r: seq<Listed>)
    ensures |r| == |ListOf(c.free, category)| + |ListOf(c.premium, category)|
  {
    var free := ListOf(c.free, category);
    var premium := ListOf(c.premium, category);
    MapAt(free, AsIs);
    MapAt(premium, AsIs);
    MapAt(premium, Lock);
    Map(free, AsIs) + Map(premium, if isPremium then AsIs else Lock)
  }

  /**
   * The free templates come first, in order and never locked; the premium
   * templates follow in order, locked exactly when the user is not premium;
   * an unknown category lists nothing.
   */
  lemma GetTemplatesMeaning(c: Catalogue, category: string, isPremium: bool)
    ensures var r := GetTemplates(c, category, isPremium);
      var free := ListOf(c.free, category);
      var premium := ListOf(c.premium, category);
      && (forall i | 0 <= i < |free| :: r[i] == Listed(free[i], false))
      && (forall j | 0 <= j < |premium| :: r[|free| + j] == Listed(premium[j], !isPremium))
      && (category !in c.free && category !in c.premium ==> r == [])
  {
    var free := ListOf(c.free, category);
    var premium := ListOf(c.premium, category);
    MapAt(free, AsIs);
    MapAt(premium, AsIs);
    MapAt(premium, Lock);
  }

  /** For a premium user nothing is locked; for anyone else exactly the premium-list templates are. */
  lemma LockedExactlyForOthers(c: Catalogue, category: string, isPremium: bool)
    ensures var r := GetTemplates(c, category, isPremium);
      forall i | 0 <= i < |r| :: r[i].locked <==> !isPremium && i >= |ListOf(c.free, category)|
  {
    var r := GetTemplates(c, category, isPremium);
    var free := ListOf(c.free, category);
    GetTemplatesMeaning(c, category, isPremium);
    forall i | |free| <= i < |r|
      ensures r[i].locked <==> !isPremium
    {
      var j := i - |free|;
      assert r[|free| + j] == r[i];
      assert r[|free| + j] == Listed(ListOf(c.premium, category)[j], !isPremium);
    }
  }

  /**
   * The image overlay and the upgrade button: shown for a template flagged
   * premium when the user is not premium, whether or not it is locked.
   */
  predicate ShownAsPremium(t: Listed, isPremium: bool) {
    t.template.isPremium && !isPremium
  }

  /** Every template of the premium lists is flagged premium. */
  predicate PremiumListsFlagged(c: Catalogue) {
    forall k, i | k in c.premium && 0 <= i < |c.premium[k]| :: c.premium[k][i].isPremium
  }

  /** When the premium lists are flagged, every locked template is also shown as premium. */
  lemma LockedIsShownAsPremium(c: Catalogue, category: string)
    requires PremiumListsFlagged(c)
    ensures var r := GetTemplates(c, category, false);
      forall i | 0 <= i < |r| && r[i].locked :: ShownAsPremium(r[i], false)
  {
    var r := GetTemplates(c, category, false);
    var free := ListOf(c.free, category);
    var premium := ListOf(c.premium, category);
    GetTemplatesMeaning(c, category, false);
    LockedExactlyForOthers(c, category, false);
    forall i | 0 <= i < |r| && r[i].locked
      ensures ShownAsPremium(r[i], false)
    {
      var j := i - |free|;
      assert r[|free| + j] == r[i];
      assert premium[j] == c.premium[category][j];
    }
  }

  /** The page's premium lists are all flagged premium. */
  lemma CircuitsPremiumListsFlagged()
    ensures PremiumListsFlagged(Circuits)
  {
  }

  /**
   * The overlay follows the flag, not the lock: the free differential
   * amplifier is flagged premium, so a user who is not premium sees it as
   * premium although it is not locked.
   */
  lemma FreeTemplateShownAsPremium()
    ensures var r := GetTemplates(Circuits, "amplifiers", false);
      && |ListOf(Circuits.free, "amplifiers")| == 3
      && r[2].template.id == "differential-amplifier"
      && !r[2].locked && ShownAsPremium(r[2], false)
  {
    GetTemplatesMeaning(Circuits, "amplifiers", false);
  }

  /** What `PremiumCheck` renders. */
  datatype Gate = LoadingView | SignInView | UpgradeView | Content

  /** `PremiumCheck`: loading first, then sign-in, then the upgrade notice when free content is not allowed. */
  function PremiumCheck(status: Status, session: Option<Session>, showFreeContent: bool): Gate {
    if status == Loading then LoadingView
    else if session.None? then SignInView
    else if !IsPremium(session) && !showFreeContent then UpgradeView
    else Content
  }

  /**
   * Each view is shown exactly under its own condition, every earlier
   * condition failing: loading wins over everything, a missing session over
   * the tier, and the content needs a session and either the premium tier
   * or free content allowed.
   */
  lemma PremiumCheckOrder(status: Status, session: Option<Session>, showFreeContent: bool)
    ensures (PremiumCheck(status, session, showFreeContent) == LoadingView) <==> status == Loading
    ensures (PremiumCheck(status, session, showFreeContent) == SignInView) <==> status != Loading && session.None?
    ensures (PremiumCheck(status, session, showFreeContent) == UpgradeView) <==>
      status != Loading && session.Some? && !IsPremium(session) && !showFreeContent
    ensures (PremiumCheck(status, session, showFreeContent) == Content) <==>
      status != Loading && session.Some? && (IsPremium(session) || showFreeContent)
  {
  }

  /** The templates page allows free content, so any signed-in user who is not loading sees it. */
  lemma TemplatesPageNeverAsksToUpgrade(status: Status, session: Option<Session>)
    ensures PremiumCheck(status, session, true) != UpgradeView
    ensures status != Loading && session.Some? ==> PremiumCheck(status, session, true) == Content
  {
  }
}

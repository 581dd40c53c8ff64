/**
 * The transistor finder's search: a query built from the chosen polarity,
 * package and application, a catalogue search for it, and a filter of the
 * first page of results by type, rating ranges and the choices.
 */
module TransistorFinder {
  import opened Wrappers
  import opened Text
  import opened Seqs
  import opened ComponentTypes
  import opened ComponentData
  import opened TransistorUtils

  /** The finder's form; an empty text means "any". */
  datatype SearchParams = SearchParams(
    polarity: string,
    minVoltage: real, maxVoltage: real,
    minCurrent: real, maxCurrent: real,
    minPower: real, maxPower: real,
    package: string,
    application: string)

  /** The form as first shown. */
  const DefaultParams := SearchParams("", 0.0, 300.0, 0.0, 20.0, 0.0, 200.0, "", "")

  /** The size of the one page of search results the finder filters. */
  const FinderPageSize := 20

  /** A choice's contribution to the query: a space and the choice, or nothing when it is empty. */
  function Part(choice: string): string {
    if choice != "" then " " + choice else ""
  }

  /** The query: "transistor" and then each chosen polarity, package and application in that order. */
  function QueryText(p: SearchParams): string {
    "transistor" + Part(p.polarity) + Part(p.package) + Part(p.application)
  }

  /** The query-building steps of `handleSearch`. */
  method BuildQuery(p: SearchParams) returns (query: string)
    ensures query == QueryText(p)
  {
    query := "transistor";
    if p.polarity != "" {
      query := query + " " + p.polarity;
    }
    assert query == "transistor" + Part(p.polarity);
    if p.package != "" {
      query := query + " " + p.package;
    }
    assert query == "transistor" + Part(p.polarity) + Part(p.package);
    if p.application != "" {
      query := query + " " + p.application;
    }
  }

  /** The query starts with "transistor"; with nothing chosen it is exactly that, and each choice appears in it. */
  lemma QueryMentionsChoices(p: SearchParams)
    ensures StartsWith(QueryText(p), "transistor")
    ensures p.polarity == "" && p.package == "" && p.application == "" ==> QueryText(p) == "transistor"
    ensures Contains(QueryText(p), p.polarity) && Contains(QueryText(p), p.package) && Contains(QueryText(p), p.application)
  {
    var pol, pkg, app := Part(p.polarity), Part(p.package), Part(p.application);
    var q := QueryText(p);
    assert q == "transistor" + (pol + (pkg + app)) == "transistor" + pol + (pkg + app);
    PrefixOfConcat("transistor", pol + (pkg + app));
    ChoiceOccurs("transistor", p.polarity, pkg + app);
    ChoiceOccurs("transistor" + pol, p.package, app);
    assert q == "transistor" + pol + pkg + app + "";
    ChoiceOccurs("transistor" + pol + pkg, p.application, "");
  }

  /** A choice placed in a text is contained in it. */
  lemma ChoiceOccurs(before: string, choice: string, after: string)
    ensures Contains(before + Part(choice) + after, choice)
  {
    var s := before + Part(choice) + after;
    if choice == "" {
      Found(s, choice, 0);
    } else {
      assert s == before + " " + choice + after;
      assert s[|before| + 1..|before| + 1 + |choice|] == choice;
      Found(s, choice, |before| + 1);
    }
  }

  /** An occurrence at a known position makes the text contain `sub`. */
  lemma Found(s: string, sub: string, i: int)
    requires 0 <= i <= |s| - |sub| && s[i..i + |sub|] == sub
    ensures Contains(s, sub)
  {
    assert OccursAt(s, sub, i);
  }

  /** A rating bound applies only when the rating is present and not zero; it is then inclusive. */
  predicate InRange(x: Option<real>, lo: real, hi: real) {
    Truthy(x) ==> lo <= x.value <= hi
  }

  /** The application texts of a list of tags, as `determineTransistorApplication` returns them. */
  function Names(tags: seq<Tag>): (names: seq<string>)
    ensures |names| == |tags|
    ensures forall i | 0 <= i < |tags| :: names[i] == tags[i].Name()
  {
    seq(|tags|, i requires 0 <= i < |tags| => tags[i].Name())
  }

  /** The finder's result filter: the tests of `handleSearch`, each of which may reject the component. */
  predicate Keeps(p: SearchParams, t: TransistorComponent) {
    var c := t.component;
    var r := t.ratings;
    Contains(ToLower(c.kind), "transistor")
    && InRange(r.maxCollectorEmitterVoltage, p.minVoltage, p.maxVoltage)
    && InRange(r.maxCollectorCurrent, p.minCurrent, p.maxCurrent)
    && InRange(r.maxPowerDissipation, p.minPower, p.maxPower)
    && (p.polarity != "" && TruthyText(c.polarity) ==> ContainsIgnoringCase(c.polarity.value, p.polarity))
    && (p.package != "" && TruthyText(c.package) ==> ContainsIgnoringCase(c.package.value, p.package))
    && (p.application != "" ==> ToLower(p.application) in Names(Applications(r)))
  }

  /** A kept component has a transistor type and every present, non-zero rating inside its range. */
  lemma KeptWithinBounds(p: SearchParams, t: TransistorComponent)
    requires Keeps(p, t)
    ensures Contains(ToLower(t.component.kind), "transistor")
    ensures Truthy(t.ratings.maxCollectorEmitterVoltage) ==>
      p.minVoltage <= t.ratings.maxCollectorEmitterVoltage.value <= p.maxVoltage
    ensures Truthy(t.ratings.maxCollectorCurrent) ==>
      p.minCurrent <= t.ratings.maxCollectorCurrent.value <= p.maxCurrent
    ensures Truthy(t.ratings.maxPowerDissipation) ==>
      p.minPower <= t.ratings.maxPowerDissipation.value <= p.maxPower
  {
  }

  /**
   * A rating that is absent or zero never rejects: forgetting it changes
   * nothing, whatever the bounds.
   */
  lemma AbsentRatingsImposeNoBound(p: SearchParams, t: TransistorComponent)
    requires !Truthy(t.ratings.maxCollectorEmitterVoltage) && !Truthy(t.ratings.maxCollectorCurrent)
      && !Truthy(t.ratings.maxPowerDissipation)
    ensures Keeps(p, t) == Keeps(p.(minVoltage := 1.0, maxVoltage := 0.0, minCurrent := 1.0, maxCurrent := 0.0,
      minPower := 1.0, maxPower := 0.0), t)
  {
  }

  /** With nothing chosen, a transistor within the default ranges is kept whatever its polarity and package. */
  lemma DefaultsKeepTransistors(t: TransistorComponent)
    requires Contains(ToLower(t.component.kind), "transistor")
    requires InRange(t.ratings.maxCollectorEmitterVoltage, 0.0, 300.0)
    requires InRange(t.ratings.maxCollectorCurrent, 0.0, 20.0)
    requires InRange(t.ratings.maxPowerDissipation, 0.0, 200.0)
    ensures Keeps(DefaultParams, t)
  {
  }

  /**
   * The application choices "switching" and "amplification" are never
   * among the tags `determineTransistorApplication` gives, so choosing
   * either keeps nothing.
   */
  lemma UnproducedChoicesKeepNothing(p: SearchParams, t: TransistorComponent)
    requires ToLower(p.application) == "switching" || ToLower(p.application) == "amplification"
    ensures !Keeps(p, t)
  {
    var names := Names(Applications(t.ratings));
    forall i | 0 <= i < |names|
      ensures names[i] != "switching" && names[i] != "amplification"
    {
      var tag := Applications(t.ratings)[i];
      match tag
      case Power =>
      case HighFrequency =>
      case Rf =>
      case HighVoltage =>
      case HighCurrent =>
      case Audio =>
      case LowNoise =>
      case General =>
    }
    assert p.application != "";
  }

  /** The cast of a search result to a transistor: the component with the ratings its record carries. */
  function AsTransistors(cs: seq<Component>, ratingsOf: Component -> Ratings): (ts: seq<TransistorComponent>)
    ensures |ts| == |cs|
    ensures forall i | 0 <= i < |cs| :: ts[i] == TransistorComponent(cs[i], ratingsOf(cs[i]))
  {
    seq(|cs|, i requires 0 <= i < |cs| => TransistorComponent(cs[i], ratingsOf(cs[i])))
  }

  /** The first page of the catalogue search for the query. */
  function FirstPage(p: SearchParams, chunks: Chunks): seq<Component> {
    Slice(SearchResults(chunks, QueryText(p), SearchChunks), 0, FinderPageSize)
  }

  /**
   * `handleSearch`: search the catalogue for the query and keep, in order,
   * the transistors of the first page that pass the filter. `ratingsOf`
   * reads a result's ratings, which the source obtains by a type cast.
   */
  method HandleSearch(p: SearchParams, chunks: Chunks, ratingsOf: Component -> Ratings)
    returns (found: seq<TransistorComponent>)
    ensures found == Filter(AsTransistors(FirstPage(p, chunks), ratingsOf), t => Keeps(p, t))
  {
    var query := BuildQuery(p);
    var results := SearchComponents(query, 1, FinderPageSize, chunks);
    found := Filter(AsTransistors(results.data, ratingsOf), t => Keeps(p, t));
  }

  /**
   * The finder shows at most one page of results, and a result is shown
   * exactly when it is a transistor of that page that passes the filter.
   */
  lemma FinderResultsMeaning(p: SearchParams, chunks: Chunks, ratingsOf: Component -> Ratings)
    ensures var found := Filter(AsTransistors(FirstPage(p, chunks), ratingsOf), t => Keeps(p, t));
      |found| <= FinderPageSize
      && forall t :: t in found <==> t.component in FirstPage(p, chunks) && t.ratings == ratingsOf(t.component) && Keeps(p, t)
  {
    var page := FirstPage(p, chunks);
    var ts := AsTransistors(page, ratingsOf);
    SliceWidth(SearchResults(chunks, QueryText(p), SearchChunks), 0, FinderPageSize);
    FilterMembers(ts, t => Keeps(p, t));
    forall t ensures t in ts <==> t.component in page && t.ratings == ratingsOf(t.component) {
      if t.component in page && t.ratings == ratingsOf(t.component) {
        var i :| 0 <= i < |page| && page[i] == t.component;
        assert ts[i] == t;
      }
    }
  }
}

/**
 * The list of a component's equivalents: a sorted copy by compatibility
 * score, the empty state, and which entries get a compatibility analysis.
 */
module EquivalentComponents {
  import opened Wrappers
  import opened Sorting

  /** An equivalent as the list receives it. */
  datatype Equivalent = Equivalent(
    id: string,
    name: string,
    kind: string,
    description: string,
    manufacturer: string,
    href: string,
    compatibilityScore: Option<real>,
    specs: Option<map<string, string>>)

  /** A score that is present and not zero. */
  predicate Scored(e: Equivalent) {
    e.compatibilityScore.Some? && e.compatibilityScore.value != 0.0
  }

  /** The comparator: by decreasing score when both are scored, otherwise a tie. */
  function ByScore(a: Equivalent, b: Equivalent): real {
    if Scored(a) && Scored(b) then b.compatibilityScore.value - a.compatibilityScore.value else 0.0
  }

  /** The score as a sort key, 0 when absent. */
  function ScoreOf(e: Equivalent): real {
    if e.compatibilityScore.Some? then e.compatibilityScore.value else 0.0
  }

  /** The sorted copy of the list. */
  function SortedEquivalents(equivalents: seq<Equivalent>): (sorted: seq<Equivalent>)
    ensures multiset(sorted) == multiset(equivalents)
    ensures |sorted| == |equivalents|
  {
    var sorted := SortBy(equivalents, ByScore);
    assert |sorted| == |multiset(sorted)| == |multiset(equivalents)|;
    sorted
  }

  /** When every entry is scored, the copy is in non-increasing score order. */
  lemma ScoredEntriesDescend(equivalents: seq<Equivalent>)
    requires forall i | 0 <= i < |equivalents| :: Scored(equivalents[i])
    ensures NonIncreasing(SortedEquivalents(equivalents), ScoreOf)
  {
    SortByNonIncreasing(equivalents, ByScore, ScoreOf);
  }

  /** When no entry is scored, every comparison is a tie and the order is kept. */
  lemma UnscoredKeepOrder(equivalents: seq<Equivalent>)
    requires forall e | e in equivalents :: !Scored(e)
    ensures SortedEquivalents(equivalents) == equivalents
  {
    SortByAllTies(equivalents, ByScore);
  }

  /** A scored and an unscored entry always tie, so the comparator promises no order between them. */
  lemma MixedEntriesTie(a: Equivalent, b: Equivalent)
    requires Scored(a) && !Scored(b)
    ensures ByScore(a, b) == 0.0 && ByScore(b, a) == 0.0
  {
  }

  /** An entry as shown: the equivalent and, when it is scored, the score its analysis is given. */
  datatype Shown = Shown(equivalent: Equivalent, analysis: Option<real>)

  /** The list view: the empty-state message, or the entries in sorted order. */
  datatype View = EmptyState | Listing(entries: seq<Shown>)

  function ShownOf(e: Equivalent): Shown {
    Shown(e, if Scored(e) then Some(e.compatibilityScore.value) else None)
  }

  /** What the list renders. */
  function Render(equivalents: seq<Equivalent>): (v: View)
    ensures v.EmptyState? <==> equivalents == []
    ensures v.Listing? ==> |v.entries| == |equivalents|
    ensures v.Listing? ==> forall k | 0 <= k < |v.entries| ::
      && v.entries[k].equivalent == SortedEquivalents(equivalents)[k]
      && (v.entries[k].analysis.Some? <==> Scored(v.entries[k].equivalent))
  {
    if equivalents == [] then EmptyState
    else
      var sorted := SortedEquivalents(equivalents);
      Listing(seq(|sorted|, k requires 0 <= k < |sorted| => ShownOf(sorted[k])))
  }

  /** Every listed entry is an input entry, and an analysis is shown only with a non-zero score. */
  lemma RenderedEntriesFromInput(equivalents: seq<Equivalent>)
    ensures Render(equivalents).Listing? ==> forall k | 0 <= k < |Render(equivalents).entries| ::
      && Render(equivalents).entries[k].equivalent in equivalents
      && (Render(equivalents).entries[k].analysis.Some? ==> Render(equivalents).entries[k].analysis.value != 0.0)
  {
    var v := Render(equivalents);
    if v.Listing? {
      forall k | 0 <= k < |v.entries|
        ensures v.entries[k].equivalent in equivalents
        ensures v.entries[k].analysis.Some? ==> v.entries[k].analysis.value != 0.0
      {
        var sorted := SortedEquivalents(equivalents);
        assert sorted[k] in multiset(sorted);
      }
    }
  }
}

/**
 * The comparison drawer of the equivalents page: the union of the selected
 * parts' specification names and, for each, whether the parts disagree.
 */
module ComparisonDrawer {
  import opened Wrappers
  import opened Seqs
  import opened Sorting
  import opened EquivalentsPage

  /** The value listed for `spec` in a part's entries, the first one when the name repeats. */
  function Lookup(entries: seq<(string, string)>, spec: string): (r: Option<string>)
    ensures r.Some? ==> (spec, r.value) in entries
    ensures r.None? <==> forall i | 0 <= i < |entries| :: entries[i].0 != spec
  {
    if entries == [] then None
    else if entries[0].0 == spec then Some(entries[0].1)
    else Lookup(entries[1..], spec)
  }

  /** `comp.keySpecs?.[spec] || "-"`: a missing or empty value shows as a dash. */
  function ValueOf(p: Part, spec: string): (v: string)
    ensures v != ""
  {
    if p.keySpecs.None? then "-"
    else
      var found := Lookup(p.keySpecs.value, spec);
      if found.Some? && found.value != "" then found.value else "-"
  }

  function NameOf(entry: (string, string)): string {
    entry.0
  }

  /** `Object.keys(comp.keySpecs || {})`. */
  function SpecNamesOf(p: Part): seq<string> {
    if p.keySpecs.None? then [] else Map(p.keySpecs.value, NameOf)
  }

  /** The specification names of the selected parts, part after part: the `flatMap`. */
  function AllNames(selected: seq<Part>): seq<string> {
    if selected == [] then [] else AllNames(selected[..|selected| - 1]) + SpecNamesOf(selected[|selected| - 1])
  }

  /** Some selected part lists `spec`. */
  predicate Listed(selected: seq<Part>, spec: string) {
    exists i | 0 <= i < |selected| :: spec in SpecNamesOf(selected[i])
  }

  /** A name occurs in the `flatMap` exactly when some selected part lists it. */
  lemma {:induction false} AllNamesMember(selected: seq<Part>, spec: string)
    ensures spec in AllNames(selected) <==> Listed(selected, spec)
  {
    if selected != [] {
      var init := selected[..|selected| - 1];
      var last := selected[|selected| - 1];
      AllNamesMember(init, spec);
      assert AllNames(selected) == AllNames(init) + SpecNamesOf(last);
      ListedPush(init, last, spec);
      assert selected == init + [last];
    }
  }

  /** A name is listed by the parts and one more exactly when the parts or the new one list it. */
  lemma ListedPush(init: seq<Part>, last: Part, spec: string)
    ensures Listed(init + [last], spec) <==> Listed(init, spec) || spec in SpecNamesOf(last)
  {
    var selected := init + [last];
    if Listed(init, spec) {
      var i :| 0 <= i < |init| && spec in SpecNamesOf(init[i]);
      assert selected[i] == init[i];
    }
    if Listed(selected, spec) {
      var i :| 0 <= i < |selected| && spec in SpecNamesOf(selected[i]);
      if i < |init| {
        assert selected[i] == init[i];
      }
    }
    if spec in SpecNamesOf(last) {
      assert selected[|init|] == last;
    }
  }

  /** `Array.from(new Set(s))`: each element once, where it is first seen. */
  function Dedup<T(==)>(s: seq<T>): seq<T> {
    if s == [] then []
    else
      var d := Dedup(s[..|s| - 1]);
      if s[|s| - 1] in d then d else d + [s[|s| - 1]]
  }

  /** The deduplicated sequence holds each element of `s` exactly once, and the elements of the prefixes come first. */
  lemma {:induction false} DedupMeaning<T>(s: seq<T>)
    ensures Distinct(Dedup(s))
    ensures forall x :: x in Dedup(s) <==> x in s
    ensures forall k | 0 <= k <= |s| :: Dedup(s[..k]) <= Dedup(s)
  {
    if s != [] {
      var init := s[..|s| - 1];
      DedupMeaning(init);
      assert s == init + [s[|s| - 1]];
      forall k | 0 <= k <= |s|
        ensures Dedup(s[..k]) <= Dedup(s)
      {
        if k < |s| {
          assert s[..k] == init[..k];
        } else {
          assert s[..k] == s;
        }
      }
    }
  }

  /** `allSpecs`: the names of all selected parts, each once, in first-seen order. */
  function AllSpecs(selected: seq<Part>): seq<string> {
    Dedup(AllNames(selected))
  }

  /** The values the selected parts show for `spec`. */
  function ValueSet(selected: seq<Part>, spec: string): set<string> {
    set i | 0 <= i < |selected| :: ValueOf(selected[i], spec)
  }

  /** `new Set(values).size > 1`. */
  predicate SpecDiffers(selected: seq<Part>, spec: string) {
    |ValueSet(selected, spec)| > 1
  }

  /** A specification differs exactly when two selected parts show different values for it. */
  lemma SpecDiffersMeaning(selected: seq<Part>, spec: string)
    ensures SpecDiffers(selected, spec) <==>
      exists i, j | 0 <= i < |selected| && 0 <= j < |selected| :: ValueOf(selected[i], spec) != ValueOf(selected[j], spec)
  {
    if exists i, j | 0 <= i < |selected| && 0 <= j < |selected| :: ValueOf(selected[i], spec) != ValueOf(selected[j], spec) {
      var i, j :| 0 <= i < |selected| && 0 <= j < |selected| && ValueOf(selected[i], spec) != ValueOf(selected[j], spec);
      TwoValuesDiffer(selected, spec, i, j);
    }
    if SpecDiffers(selected, spec) {
      DifferingValues(selected, spec);
    }
  }

  /** Two parts showing different values make the set of values larger than one. */
  lemma TwoValuesDiffer(selected: seq<Part>, spec: string, i: nat, j: nat)
    requires i < |selected| && j < |selected| && ValueOf(selected[i], spec) != ValueOf(selected[j], spec)
    ensures SpecDiffers(selected, spec)
  {
    var pair := {ValueOf(selected[i], spec), ValueOf(selected[j], spec)};
    assert pair <= ValueSet(selected, spec);
    assert |pair| == 2;
    SubsetCard(pair, ValueSet(selected, spec));
  }

  /** More than one value means two parts show different values. */
  lemma DifferingValues(selected: seq<Part>, spec: string)
    requires SpecDiffers(selected, spec)
    ensures exists i, j | 0 <= i < |selected| && 0 <= j < |selected| :: ValueOf(selected[i], spec) != ValueOf(selected[j], spec)
  {
    var values := ValueSet(selected, spec);
    var a :| a in values;
    assert |values - {a}| == |values| - 1;
    var b :| b in values - {a};
    var i :| 0 <= i < |selected| && ValueOf(selected[i], spec) == a;
    var j :| 0 <= j < |selected| && ValueOf(selected[j], spec) == b;
  }

  lemma SubsetCard<T>(a: set<T>, b: set<T>)
    requires a <= b
    ensures |a| <= |b|
  {
    assert b == a + (b - a);
  }

  /** With a single part selected, no specification differs. */
  lemma SingleSelectionNoDiffs(p: Part, spec: string)
    ensures !SpecDiffers([p], spec)
  {
    var values := ValueSet([p], spec);
    assert forall x | x in values :: x == ValueOf(p, spec);
    assert ValueOf([p][0], spec) in values;
    assert values == {ValueOf(p, spec)};
  }

  /** `getSpecDifferences`: one entry per specification name. */
  method GetSpecDifferences(selected: seq<Part>, allSpecs: seq<string>) returns (diffs: map<string, bool>)
    ensures diffs.Keys == set spec | spec in allSpecs
    ensures forall spec | spec in diffs :: diffs[spec] == SpecDiffers(selected, spec)
  {
    diffs := map[];
    for k := 0 to |allSpecs|
      invariant diffs.Keys == set spec | spec in allSpecs[..k]
      invariant forall spec | spec in diffs :: diffs[spec] == SpecDiffers(selected, spec)
    {
      var spec := allSpecs[k];
      assert allSpecs[..k + 1] == allSpecs[..k] + [spec];
      var values := SelectedValues(selected, spec);
      diffs := diffs[spec := |values| > 1];
    }
    assert allSpecs[..|allSpecs|] == allSpecs;
  }

  /** `selected.map(comp => comp.keySpecs?.[spec] || "-")`, gathered into a set. */
  method SelectedValues(selected: seq<Part>, spec: string) returns (values: set<string>)
    ensures values == ValueSet(selected, spec)
  {
    values := {};
    for i := 0 to |selected|
      invariant values == set m | 0 <= m < i :: ValueOf(selected[m], spec)
    {
      values := values + {ValueOf(selected[i], spec)};
    }
  }

  /** What the drawer shows: nothing for an empty selection, otherwise the names and their verdicts. */
  datatype DrawerView = DrawerView(allSpecs: seq<string>, diffs: map<string, bool>)

  method Open(selected: seq<Part>) returns (view: Option<DrawerView>)
    ensures view.None? <==> selected == []
    ensures view.Some? ==> view.value.allSpecs == AllSpecs(selected)
    ensures view.Some? ==> view.value.diffs.Keys == set spec | spec in AllSpecs(selected)
    ensures view.Some? ==> forall spec | spec in view.value.diffs :: view.value.diffs[spec] == SpecDiffers(selected, spec)
  {
    if |selected| == 0 {
      return None;
    }
    var allSpecs := AllSpecs(selected);
    var diffs := GetSpecDifferences(selected, allSpecs);
    view := Some(DrawerView(allSpecs, diffs));
  }

  /**
   * The drawer's columns: every name some selected part lists, once each,
   * in the order the parts first list them, and each with a verdict.
   */
  lemma AllSpecsMeaning(selected: seq<Part>)
    ensures Distinct(AllSpecs(selected))
    ensures forall spec :: spec in AllSpecs(selected) <==> Listed(selected, spec)
    ensures forall k | 0 <= k <= |selected| :: AllSpecs(selected[..k]) <= AllSpecs(selected)
  {
    DedupMeaning(AllNames(selected));
    forall spec
      ensures spec in AllSpecs(selected) <==> Listed(selected, spec)
    {
      AllNamesMember(selected, spec);
    }
    forall k | 0 <= k <= |selected|
      ensures AllSpecs(selected[..k]) <= AllSpecs(selected)
    {
      AllNamesPrefix(selected, k);
    }
  }

  /** The names of the first `k` parts are a prefix of all the names. */
  lemma {:induction false} AllNamesPrefix(selected: seq<Part>, k: nat)
    requires k <= |selected|
    ensures |AllNames(selected[..k])| <= |AllNames(selected)|
    ensures AllNames(selected[..k]) == AllNames(selected)[..|AllNames(selected[..k])|]
  {
    if k < |selected| {
      var init := selected[..|selected| - 1];
      AllNamesPrefix(init, k);
      assert init[..k] == selected[..k];
    } else {
      assert selected[..k] == selected;
    }
  }
}

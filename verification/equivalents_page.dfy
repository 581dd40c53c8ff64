/**
 * The equivalent-component finder page: the name or part-number filter and
 * the grouping of the filtered parts into the five category tables.
 */
module EquivalentsPage {
  import opened Wrappers
  import opened Text
  import opened Seqs

  /** A part of the combined catalogue; `keySpecs` keeps its entries in their listed order. */
  datatype Part = Part(
    id: string,
    name: string,
    partNumber: string,
    description: string,
    category: Option<string>,
    keySpecs: Option<seq<(string, string)>>)

  /** The category keys, in the order their tables appear. */
  const CategoryKeys := ["bjt", "mosfet", "igbt", "scr", "ic"]

  /** The page's filter: the name or the part number contains the query, ignoring case. */
  predicate MatchesQuery(query: string, p: Part) {
    ContainsIgnoringCase(p.name, query) || ContainsIgnoringCase(p.partNumber, query)
  }

  function QueryTest(query: string): Part -> bool {
    p => MatchesQuery(query, p)
  }

  /** The parts shown: all of them for an empty query, otherwise those matching it. */
  function Filtered(parts: seq<Part>, query: string): seq<Part> {
    if query == "" then parts else Filter(parts, QueryTest(query))
  }

  /** An empty query keeps everything; otherwise a part is kept exactly when it matches, in the original order. */
  lemma FilteredMeaning(parts: seq<Part>, query: string)
    ensures query == "" ==> Filtered(parts, query) == parts
    ensures query != "" ==> forall p :: p in Filtered(parts, query) <==> p in parts && MatchesQuery(query, p)
    ensures |Filtered(parts, query)| <= |parts|
  {
    FilterMembers(parts, QueryTest(query));
  }

  /** A part belongs to the group `key` when its category, lowercased, is `key`. */
  predicate InCategory(key: string, p: Part) {
    p.category.Some? && ToLower(p.category.value) == key
  }

  function CategoryTest(key: string): Part -> bool {
    p => InCategory(key, p)
  }

  /** The grouping: each category key maps to its parts in input order. */
  predicate GroupedAs(grouped: map<string, seq<Part>>, parts: seq<Part>) {
    && grouped.Keys == set k | k in CategoryKeys
    && forall k | k in grouped :: grouped[k] == Filter(parts, CategoryTest(k))
  }

  /** `groupByCategory`: an empty list per key, then each part pushed onto its category's list. */
  method GroupByCategory(parts: seq<Part>) returns (grouped: map<string, seq<Part>>)
    ensures GroupedAs(grouped, parts)
  {
    grouped := map[];
    for j := 0 to |CategoryKeys|
      invariant grouped.Keys == set k | k in CategoryKeys[..j]
      invariant forall k | k in grouped :: grouped[k] == []
    {
      assert CategoryKeys[..j + 1] == CategoryKeys[..j] + [CategoryKeys[j]];
      grouped := grouped[CategoryKeys[j] := []];
    }
    assert CategoryKeys[..|CategoryKeys|] == CategoryKeys;
    assert GroupedAs(grouped, parts[..0]);
    for i := 0 to |parts|
      invariant GroupedAs(grouped, parts[..i])
    {
      var p := parts[i];
      PlaceStep(grouped, parts, i);
      if p.category.Some? && ToLower(p.category.value) in grouped {
        var key := ToLower(p.category.value);
        grouped := grouped[key := grouped[key] + [p]];
      }
    }
    assert parts[..|parts|] == parts;
  }

  /** The grouping after one more part is pushed onto the list of its category, if it has one. */
  function Placed(grouped: map<string, seq<Part>>, p: Part): map<string, seq<Part>> {
    if p.category.Some? && ToLower(p.category.value) in grouped then
      var key := ToLower(p.category.value);
      grouped[key := grouped[key] + [p]]
    else grouped
  }

  /** Placing part `i` extends the grouping of the first `i` parts to the first `i + 1`. */
  lemma PlaceStep(grouped: map<string, seq<Part>>, parts: seq<Part>, i: nat)
    requires i < |parts| && GroupedAs(grouped, parts[..i])
    ensures GroupedAs(Placed(grouped, parts[i]), parts[..i + 1])
  {
    var p := parts[i];
    assert parts[..i + 1] == parts[..i] + [p];
    forall k | k in grouped
      ensures Placed(grouped, p)[k] == Filter(parts[..i + 1], CategoryTest(k))
    {
      FilterAppend(parts[..i], [p], CategoryTest(k));
    }
  }

  /**
   * A part is in a group exactly when its lowercased category is that key,
   * so it lands in at most one group; parts with a missing or other category
   * are in none.
   */
  lemma GroupMembership(grouped: map<string, seq<Part>>, parts: seq<Part>)
    requires GroupedAs(grouped, parts)
    ensures forall k, p | k in grouped :: p in grouped[k] <==> p in parts && InCategory(k, p)
    ensures forall k1, k2, p | k1 in grouped && k2 in grouped && p in grouped[k1] && p in grouped[k2] :: k1 == k2
    ensures forall p | p in parts && (p.category.None? || ToLower(p.category.value) !in CategoryKeys) ::
      forall k | k in grouped :: p !in grouped[k]
  {
    forall k | k in grouped
      ensures forall p :: p in grouped[k] <==> p in parts && InCategory(k, p)
    {
      FilterMembers(parts, CategoryTest(k));
    }
  }

  /** "No results" shows exactly when no shown part has one of the five categories. */
  lemma NoResultsMeaning(grouped: map<string, seq<Part>>, parts: seq<Part>)
    requires GroupedAs(grouped, parts)
    ensures (exists k | k in grouped :: grouped[k] != []) <==>
      exists p | p in parts :: p.category.Some? && ToLower(p.category.value) in CategoryKeys
  {
    if exists p | p in parts :: p.category.Some? && ToLower(p.category.value) in CategoryKeys {
      var p :| p in parts && p.category.Some? && ToLower(p.category.value) in CategoryKeys;
      var k := ToLower(p.category.value);
      FilterMembers(parts, CategoryTest(k));
      assert p in grouped[k];
    }
    if exists k | k in grouped :: grouped[k] != [] {
      var k :| k in grouped && grouped[k] != [];
      FilterMembers(parts, CategoryTest(k));
      var p := grouped[k][0];
      assert p in grouped[k];
      assert k in CategoryKeys;
    }
  }
}

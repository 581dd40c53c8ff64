/**
 * Paged access to the component catalogue, which is split into numbered
 * chunk files. Loading a chunk is the parameter `chunks`: chunk number to
 * its components, or `None` when the chunk cannot be loaded.
 */
module ComponentData {
  import opened Wrappers
  import opened Text
  import opened Seqs
  import opened ComponentTypes

  type Chunks = int -> Option<seq<Component>>

  /** The pages one chunk covers. */
  const PagesPerChunk := 5
  /** The chunks `getComponentById` scans. */
  const LookupChunks := 20
  /** The chunks `searchComponents` scans. */
  const SearchChunks := 5

  datatype PaginatedResult<T> = PaginatedResult(data: seq<T>, total: int, page: int, pageSize: int, totalPages: int)

  /** The result of a failed load: nothing, echoing the requested page and page size. */
  function NoResult<T>(page: int, pageSize: int): (r: PaginatedResult<T>)
    ensures r.data == [] && r.total == 0 && r.totalPages == 0 && r.page == page && r.pageSize == pageSize
  {
    PaginatedResult([], 0, page, pageSize, 0)
  }

  /** The filters `loadComponents` understands; each applies only when it is a non-empty text. */
  datatype Filters = Filters(kind: Option<string>, name: Option<string>, manufacturer: Option<string>)

  /** The component satisfies every filter that is set. */
  predicate PassesFilters(f: Filters, c: Component) {
    (TruthyText(f.kind) ==> ContainsIgnoringCase(c.kind, f.kind.value))
    && (TruthyText(f.name) ==> ContainsIgnoringCase(c.name, f.name.value))
    && (TruthyText(f.manufacturer) ==> ContainsIgnoringCase(c.manufacturer, f.manufacturer.value))
  }

  /** The test of the type filter: the component's type contains the filter text, ignoring case. */
  function KindTest(f: Filters): Component -> bool {
    (c: Component) => f.kind.Some? && ContainsIgnoringCase(c.kind, f.kind.value)
  }

  /** The test of the name filter. */
  function NameTest(f: Filters): Component -> bool {
    (c: Component) => f.name.Some? && ContainsIgnoringCase(c.name, f.name.value)
  }

  /** The test of the manufacturer filter. */
  function MakerTest(f: Filters): Component -> bool {
    (c: Component) => f.manufacturer.Some? && ContainsIgnoringCase(c.manufacturer, f.manufacturer.value)
  }

  /** The filter chain of `loadComponents`: type, then name, then manufacturer, each only when set. */
  function ApplyFilters(cs: seq<Component>, f: Filters): seq<Component> {
    var byKind := if TruthyText(f.kind) then Filter(cs, KindTest(f)) else cs;
    var byName := if TruthyText(f.name) then Filter(byKind, NameTest(f)) else byKind;
    if TruthyText(f.manufacturer) then Filter(byName, MakerTest(f)) else byName
  }

  /** Filtering by `p` and then by `q` is filtering by a test that asks both. */
  lemma {:induction false} FilterTwice<T>(s: seq<T>, p: T -> bool, q: T -> bool, both: T -> bool)
    requires forall x :: both(x) == (p(x) && q(x))
    ensures Filter(Filter(s, p), q) == Filter(s, both)
  {
    if s != [] {
      FilterTwice(s[1..], p, q, both);
      assert both(s[0]) == (p(s[0]) && q(s[0]));
      var tail := Filter(s[1..], p);
      if p(s[0]) {
        assert Filter(s, p) == [s[0]] + tail;
        assert ([s[0]] + tail)[0] == s[0] && ([s[0]] + tail)[1..] == tail;
        assert Filter(Filter(s, p), q) == (if q(s[0]) then [s[0]] else []) + Filter(tail, q);
      } else {
        assert Filter(s, p) == tail;
      }
    }
  }

  /** Two tests that agree on every element filter alike. */
  lemma {:induction false} FilterSame<T>(s: seq<T>, p: T -> bool, q: T -> bool)
    requires forall x :: p(x) == q(x)
    ensures Filter(s, p) == Filter(s, q)
  {
    if s != [] {
      FilterSame(s[1..], p, q);
    }
  }

  /** A stage that filters only when `active` is filtering by a test that lets everything through when inactive. */
  lemma FilterStage<T>(s: seq<T>, active: bool, test: T -> bool, gate: T -> bool)
    requires forall x :: gate(x) == (!active || test(x))
    ensures Filter(s, gate) == if active then Filter(s, test) else s
  {
    if active {
      FilterSame(s, gate, test);
    } else {
      FilterAll(s, gate);
    }
  }

  /** A set filter's test, and the test that always passes for a filter that is not set. */
  function KindGate(f: Filters): Component -> bool {
    (c: Component) => !TruthyText(f.kind) || KindTest(f)(c)
  }

  function NameGate(f: Filters): Component -> bool {
    (c: Component) => !TruthyText(f.name) || NameTest(f)(c)
  }

  function MakerGate(f: Filters): Component -> bool {
    (c: Component) => !TruthyText(f.manufacturer) || MakerTest(f)(c)
  }

  /** Passing every set filter is passing the three gates. */
  lemma GatesMeaning(f: Filters)
    ensures forall c :: PassesFilters(f, c) == ((KindGate(f)(c) && NameGate(f)(c)) && MakerGate(f)(c))
  {
    forall c
      ensures PassesFilters(f, c) == ((KindGate(f)(c) && NameGate(f)(c)) && MakerGate(f)(c))
    {
      assert KindGate(f)(c) == (!TruthyText(f.kind) || KindTest(f)(c));
      assert NameGate(f)(c) == (!TruthyText(f.name) || NameTest(f)(c));
      assert MakerGate(f)(c) == (!TruthyText(f.manufacturer) || MakerTest(f)(c));
    }
  }

  /**
   * The filter chain keeps exactly the components that pass every set
   * filter, in chunk order; with no filter set it keeps the whole chunk.
   */
  lemma ApplyFiltersMeaning(cs: seq<Component>, f: Filters)
    ensures ApplyFilters(cs, f) == Filter(cs, (c: Component) => PassesFilters(f, c))
  {
    var byKind := if TruthyText(f.kind) then Filter(cs, KindTest(f)) else cs;
    var byName := if TruthyText(f.name) then Filter(byKind, NameTest(f)) else byKind;
    FilterStage(cs, TruthyText(f.kind), KindTest(f), KindGate(f));
    FilterStage(byKind, TruthyText(f.name), NameTest(f), NameGate(f));
    FilterStage(byName, TruthyText(f.manufacturer), MakerTest(f), MakerGate(f));
    var both := (c: Component) => KindGate(f)(c) && NameGate(f)(c);
    FilterTwice(cs, KindGate(f), NameGate(f), both);
    GatesMeaning(f);
    FilterTwice(cs, both, MakerGate(f), (c: Component) => PassesFilters(f, c));
  }

  /** The chunk holding `page`: `Math.ceil(page / 5)`. */
  function ChunkNumber(page: int): int {
    CeilDiv(page, PagesPerChunk)
  }

  /** Where `page` starts inside its chunk: `((page - 1) * pageSize) % (5 * pageSize)`. */
  function ChunkOffset(page: int, pageSize: int): (r: int)
    requires pageSize > 0
    ensures page >= 1 ==> 0 <= r < PagesPerChunk * pageSize
  {
    TruncRem((page - 1) * pageSize, PagesPerChunk * pageSize)
  }

  /**
   * `loadComponents`: the page's window of the filtered chunk, with the
   * filtered chunk's size as the total; the empty result when the chunk
   * cannot be loaded.
   */
  function LoadComponents(page: int, pageSize: int, filters: Filters, chunks: Chunks): (r: PaginatedResult<Component>)
    requires pageSize > 0
    ensures r.page == page && r.pageSize == pageSize
    ensures |r.data| <= pageSize
    ensures chunks(ChunkNumber(page)).None? ==> r == NoResult(page, pageSize)
    ensures chunks(ChunkNumber(page)).Some? ==>
      r.total == |ApplyFilters(chunks(ChunkNumber(page)).value, filters)|
      && pageSize * (r.totalPages - 1) < r.total <= pageSize * r.totalPages
  {
    match chunks(ChunkNumber(page))
    case None => NoResult(page, pageSize)
    case Some(chunk) =>
      var filteredData := ApplyFilters(chunk, filters);
      var startIndex := ChunkOffset(page, pageSize);
      SliceWidth(filteredData, startIndex, pageSize);
      PaginatedResult(
        Slice(filteredData, startIndex, startIndex + pageSize),
        |filteredData|, page, pageSize, CeilDiv(|filteredData|, pageSize))
  }

  /**
   * For pages from 1 on, the data is the window of `pageSize` filtered
   * components that starts at the page's offset within its chunk.
   */
  lemma LoadComponentsWindow(page: int, pageSize: int, filters: Filters, chunks: Chunks)
    requires pageSize > 0 && page >= 1 && chunks(ChunkNumber(page)).Some?
    ensures var filtered := ApplyFilters(chunks(ChunkNumber(page)).value, filters);
      var start := ((page - 1) % PagesPerChunk) * pageSize;
      LoadComponents(page, pageSize, filters, chunks).data
        == if start <= |filtered| then filtered[start..Min(start + pageSize, |filtered|)] else []
  {
    var filtered := ApplyFilters(chunks(ChunkNumber(page)).value, filters);
    var start := ((page - 1) % PagesPerChunk) * pageSize;
    OffsetIsPageInChunk(page, pageSize);
    SliceFrom(filtered, start, pageSize);
  }

  /** The offset of a page within its chunk is `pageSize` times the page's position among the chunk's five pages. */
  lemma OffsetIsPageInChunk(page: int, pageSize: int)
    requires pageSize > 0 && page >= 1
    ensures ChunkOffset(page, pageSize) == ((page - 1) % PagesPerChunk) * pageSize
  {
    var q := (page - 1) / PagesPerChunk;
    var m := (page - 1) % PagesPerChunk;
    assert page - 1 == PagesPerChunk * q + m;
    MulDistributes(PagesPerChunk * q, m, pageSize);
    assert (PagesPerChunk * q) * pageSize == (PagesPerChunk * pageSize) * q;
    MulBelow(m, PagesPerChunk, pageSize);
    ModUnique((page - 1) * pageSize, PagesPerChunk * pageSize, q, m * pageSize);
  }

  lemma MulDistributes(x: int, y: int, z: int)
    ensures (x + y) * z == x * z + y * z
  {
  }

  lemma MulBelow(m: int, k: int, z: int)
    requires 0 <= m < k && z > 0
    ensures 0 <= m * z < k * z
  {
  }

  /** A remainder is the only `r` in `[0, b)` with `a == b * q + r`. */
  lemma ModUnique(a: int, b: int, q: int, r: int)
    requires b > 0 && 0 <= r < b && a == b * q + r
    ensures a % b == r
  {
    var d := a / b;
    var k := q - d;
    assert a == b * d + a % b;
    MulSubtracts(b, q, d);
    assert b * k == a % b - r;
    if k >= 1 {
      MulAtLeast(b, k);
    } else if k <= -1 {
      MulAtLeast(b, -k);
    }
  }

  lemma MulSubtracts(b: int, q: int, d: int)
    ensures b * (q - d) == b * q - b * d
  {
  }

  lemma MulAtLeast(b: int, k: int)
    requires b > 0 && k >= 1
    ensures b * k >= b
  {
  }

  /** Pages 5k+1 to 5k+5 all come from chunk k+1. */
  lemma ChunkOfPage(k: nat, i: int)
    requires 1 <= i <= PagesPerChunk
    ensures ChunkNumber(PagesPerChunk * k + i) == k + 1
  {
  }

  /** The first component of `cs` whose id is `id`. */
  function FindById(cs: seq<Component>, id: string): (r: Option<Component>)
    ensures r.Some? ==> r.value in cs && r.value.id == id
    ensures r.None? <==> forall i | 0 <= i < |cs| :: cs[i].id != id
  {
    if cs == [] then None else if cs[0].id == id then Some(cs[0]) else FindById(cs[1..], id)
  }

  /** The component `getComponentById` finds scanning chunks `from` to `LookupChunks`; missing chunks are skipped. */
  function FindInChunks(chunks: Chunks, id: string, from: int): Option<Component>
    decreases LookupChunks + 1 - from
  {
    if from > LookupChunks then None
    else
      var found := if chunks(from).Some? then FindById(chunks(from).value, id) else None;
      if found.Some? then found else FindInChunks(chunks, id, from + 1)
  }

  /** Chunk `n` cannot be loaded or does not hold the id. */
  predicate Misses(chunks: Chunks, id: string, n: int) {
    chunks(n).None? || FindById(chunks(n).value, id).None?
  }

  /**
   * A found component comes from the first loadable chunk among
   * `from`..`LookupChunks` that holds the id.
   */
  lemma {:induction false} FoundInFirstChunk(chunks: Chunks, id: string, from: int)
    requires from >= 1 && FindInChunks(chunks, id, from).Some?
    decreases LookupChunks + 1 - from
    ensures exists n | from <= n <= LookupChunks ::
      chunks(n).Some? && FindInChunks(chunks, id, from) == FindById(chunks(n).value, id)
      && forall m | from <= m < n :: Misses(chunks, id, m)
  {
    if Misses(chunks, id, from) {
      FoundInFirstChunk(chunks, id, from + 1);
      var n :| from + 1 <= n <= LookupChunks && chunks(n).Some?
        && FindInChunks(chunks, id, from + 1) == FindById(chunks(n).value, id)
        && forall m | from + 1 <= m < n :: Misses(chunks, id, m);
      assert forall m | from <= m < n :: Misses(chunks, id, m);
    } else {
      assert from <= from <= LookupChunks;
    }
  }

  /** Nothing is found exactly when no chunk among `from`..`LookupChunks` can be loaded and holds the id. */
  lemma {:induction false} NotFoundAnywhere(chunks: Chunks, id: string, from: int)
    decreases LookupChunks + 1 - from
    ensures FindInChunks(chunks, id, from).None? <==> forall n | from <= n <= LookupChunks :: Misses(chunks, id, n)
  {
    if from <= LookupChunks {
      NotFoundAnywhere(chunks, id, from + 1);
      assert FindInChunks(chunks, id, from).None? <==> Misses(chunks, id, from) && FindInChunks(chunks, id, from + 1).None?;
      assert (forall n | from <= n <= LookupChunks :: Misses(chunks, id, n))
        <==> Misses(chunks, id, from) && forall n | from + 1 <= n <= LookupChunks :: Misses(chunks, id, n);
    }
  }

  /** `getComponentById`: scans chunks 1 to 20, returning from the first chunk with a match. */
  method GetComponentById(id: string, chunks: Chunks) returns (r: Option<Component>)
    ensures r == FindInChunks(chunks, id, 1)
  {
    for i := 1 to LookupChunks + 1
      invariant FindInChunks(chunks, id, 1) == FindInChunks(chunks, id, i)
    {
      var chunk := chunks(i);
      if chunk.Some? {
        var component := FindById(chunk.value, id);
        if component.Some? {
          return component;
        }
      }
    }
    return None;
  }

  /** A component matches a search when the query occurs, ignoring case, in its name, description, type or manufacturer. */
  predicate MatchesQuery(query: string, c: Component) {
    ContainsIgnoringCase(c.name, query) || ContainsIgnoringCase(c.description, query)
    || ContainsIgnoringCase(c.kind, query) || ContainsIgnoringCase(c.manufacturer, query)
  }

  /** The matches within one chunk. */
  function ChunkMatches(cs: seq<Component>, query: string): seq<Component> {
    Filter(cs, (c: Component) => MatchesQuery(query, c))
  }

  /** The matches of chunks 1 to `n` in chunk order, skipping chunks that cannot be loaded. */
  function SearchResults(chunks: Chunks, query: string, n: int): seq<Component>
    decreases n
  {
    if n < 1 then []
    else SearchResults(chunks, query, n - 1) + (if chunks(n).Some? then ChunkMatches(chunks(n).value, query) else [])
  }

  /**
   * The search results are exactly the matching components of the loadable
   * chunks 1..`n`.
   */
  lemma {:induction false} SearchResultsMembers(chunks: Chunks, query: string, n: int, c: Component)
    ensures c in SearchResults(chunks, query, n) <==>
      MatchesQuery(query, c) && exists k | 1 <= k <= n :: chunks(k).Some? && c in chunks(k).value
  {
    if n >= 1 {
      SearchResultsMembers(chunks, query, n - 1, c);
      if chunks(n).Some? {
        FilterMembers(chunks(n).value, x => MatchesQuery(query, x));
      }
    }
  }

  /**
   * `searchComponents`: gathers the matches of chunks 1 to 5, then returns
   * the page's window of them, with all matches counted in the total.
   */
  method SearchComponents(query: string, page: int, pageSize: int, chunks: Chunks) returns (r: PaginatedResult<Component>)
    requires pageSize > 0
    ensures r.page == page && r.pageSize == pageSize
    ensures r.total == |SearchResults(chunks, query, SearchChunks)|
    ensures r.data == Slice(SearchResults(chunks, query, SearchChunks), (page - 1) * pageSize, (page - 1) * pageSize + pageSize)
    ensures |r.data| <= pageSize
    ensures r.totalPages == CeilDiv(r.total, pageSize)
  {
    var searchResults: seq<Component> := [];
    for i := 1 to SearchChunks + 1
      invariant searchResults == SearchResults(chunks, query, i - 1)
    {
      var chunk := chunks(i);
      if chunk.Some? {
        var matches := ChunkMatches(chunk.value, query);
        searchResults := searchResults + matches;
      }
    }
    var startIndex := (page - 1) * pageSize;
    SliceWidth(searchResults, startIndex, pageSize);
    r := PaginatedResult(
      Slice(searchResults, startIndex, startIndex + pageSize),
      |searchResults|, page, pageSize, CeilDiv(|searchResults|, pageSize));
  }

  /** Consecutive windows of `n` continue where the previous one stopped, as `searchComponents` pages do. */
  lemma ConsecutiveWindows(results: seq<Component>, start: nat, n: nat)
    requires start + n <= |results|
    ensures Slice(results, start, start + n) + Slice(results, start + n, start + n + n)
      == results[start..Min(start + n + n, |results|)]
  {
    SliceFrom(results, start, n);
    SliceFrom(results, start + n, n);
  }
}

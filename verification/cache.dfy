/**
 * The in-memory response cache of the assistant API: entries with an expiry
 * time, a size bound enforced by evicting the entries that expire first, and
 * the key derived from a normalised question by a 32-bit string hash.
 * `Date.now()` is the parameter `now`, in milliseconds.
 */
module Cache {
  import opened Wrappers
  import opened Text
  import opened Sorting

  datatype Entry<V> = Entry(value: V, expiry: int)

  const MaxCacheSize := 1000
  /** `Math.floor(maxCacheSize * 0.2)`. */
  const EntriesToRemove := 200
  const DefaultExpirySeconds := 3600

  /** The expiry of `k`, or 0 when it has no entry. */
  function ExpiryIn<V>(entries: map<string, Entry<V>>, k: string): int {
    if k in entries then entries[k].expiry else 0
  }

  /** The keys in the order the cleanup visits them: sorted by expiry, ties in key order. */
  function ByExpiry<V>(entries: map<string, Entry<V>>, order: seq<string>): seq<string> {
    SortBy(order, (a: string, b: string) => (ExpiryIn(entries, a) - ExpiryIn(entries, b)) as real)
  }

  /** The keys listed in `s`. */
  function KeysOf(s: seq<string>): set<string> {
    set k | k in s
  }

  /** The keys the cleanup deletes: the first `EntriesToRemove` of `ByExpiry`. */
  function Oldest<V>(entries: map<string, Entry<V>>, order: seq<string>): set<string> {
    var sorted := ByExpiry(entries, order);
    KeysOf(sorted[..if |sorted| < EntriesToRemove then |sorted| else EntriesToRemove])
  }

  /** `order` without the keys in `gone`: the key order once they are deleted. */
  function Without(order: seq<string>, gone: set<string>): (r: seq<string>)
    ensures |r| <= |order|
  {
    if order == [] then []
    else (if order[0] in gone then [] else [order[0]]) + Without(order[1..], gone)
  }

  /** `Without` keeps exactly the keys not in `gone`. */
  lemma {:induction false} WithoutMembers(order: seq<string>, gone: set<string>)
    ensures forall k :: k in Without(order, gone) <==> k in order && k !in gone
  {
    if order != [] {
      WithoutMembers(order[1..], gone);
      assert order == [order[0]] + order[1..];
    }
  }

  lemma {:induction false} WithoutDistinct(order: seq<string>, gone: set<string>)
    requires Distinct(order)
    ensures Distinct(Without(order, gone))
  {
    if order != [] {
      WithoutDistinct(order[1..], gone);
      WithoutMembers(order[1..], gone);
      assert order[0] !in order[1..];
    }
  }

  lemma {:induction false} WithoutNothing(order: seq<string>)
    ensures Without(order, {}) == order
  {
    if order != [] {
      WithoutNothing(order[1..]);
      assert order == [order[0]] + order[1..];
    }
  }

  lemma {:induction false} WithoutWithout(order: seq<string>, gone: set<string>, k: string)
    ensures Without(Without(order, gone), {k}) == Without(order, gone + {k})
  {
    if order != [] {
      WithoutWithout(order[1..], gone, k);
      var head := if order[0] in gone then [] else [order[0]];
      assert Without(order, gone) == head + Without(order[1..], gone);
      WithoutAppend(head, Without(order[1..], gone), {k});
    }
  }

  lemma {:induction false} WithoutAppend(a: seq<string>, b: seq<string>, gone: set<string>)
    ensures Without(a + b, gone) == Without(a, gone) + Without(b, gone)
  {
    if a != [] {
      WithoutAppend(a[1..], b, gone);
      assert (a + b)[1..] == a[1..] + b;
    } else {
      assert a + b == b;
    }
  }

  /** A sequence without repetitions has as many distinct elements as positions. */
  lemma {:induction false} DistinctCard(s: seq<string>)
    requires Distinct(s)
    ensures |KeysOf(s)| == |s|
  {
    if s != [] {
      DistinctCard(s[1..]);
      assert KeysOf(s) == KeysOf(s[1..]) + {s[0]};
      assert s[0] !in s[1..];
    }
  }

  /**
   * The cleanup deletes exactly `EntriesToRemove` keys of the cache, and none
   * of them expires later than any key it keeps.
   */
  lemma OldestAreOldest<V>(entries: map<string, Entry<V>>, order: seq<string>)
    requires Distinct(order) && forall k :: k in entries <==> k in order
    requires |order| >= EntriesToRemove
    ensures Oldest(entries, order) <= entries.Keys
    ensures |Oldest(entries, order)| == EntriesToRemove
    ensures forall r, k | r in Oldest(entries, order) && k in entries && k !in Oldest(entries, order) ::
      entries[r].expiry <= entries[k].expiry
  {
    var cmp := (a: string, b: string) => (ExpiryIn(entries, a) - ExpiryIn(entries, b)) as real;
    var key := (k: string) => -(ExpiryIn(entries, k) as real);
    var sorted := ByExpiry(entries, order);
    SortedLength(entries, order);
    assert DescendingComparator(order, cmp, key);
    SortByNonIncreasing(order, cmp, key);
    SortByDistinct(order, cmp);
    var first := sorted[..EntriesToRemove];
    assert Distinct(first);
    DistinctCard(first);
    assert Oldest(entries, order) == KeysOf(first);
    SortedKeys(entries, order);
    assert Oldest(entries, order) <= entries.Keys by {
      forall r | r in first ensures r in sorted {
      }
    }
    forall r, k | r in Oldest(entries, order) && k in entries && k !in Oldest(entries, order)
      ensures entries[r].expiry <= entries[k].expiry
    {
      PrefixBeforeRest(sorted, key, EntriesToRemove, r, k);
      assert key(r) >= key(k);
    }
  }

  /** Sorting keeps the same keys. */
  lemma SortedKeys<V>(entries: map<string, Entry<V>>, order: seq<string>)
    ensures forall k :: k in ByExpiry(entries, order) <==> k in order
  {
    forall k ensures k in ByExpiry(entries, order) <==> k in order {
      assert k in ByExpiry(entries, order) <==> k in multiset(ByExpiry(entries, order));
      assert k in order <==> k in multiset(order);
    }
  }

  /** In a list sorted by non-increasing key, a key in the first `n` does not rank below one after them. */
  lemma PrefixBeforeRest(sorted: seq<string>, key: string -> real, n: nat, r: string, k: string)
    requires NonIncreasing(sorted, key) && n <= |sorted|
    requires r in KeysOf(sorted[..n]) && k in sorted && k !in KeysOf(sorted[..n])
    ensures key(r) >= key(k)
  {
    var first := sorted[..n];
    assert forall m | 0 <= m < n :: sorted[m] in KeysOf(first) by {
      forall m | 0 <= m < n ensures sorted[m] in KeysOf(first) {
        assert first[m] == sorted[m];
      }
    }
    var i :| 0 <= i < n && first[i] == r;
    var j :| 0 <= j < |sorted| && sorted[j] == k;
    assert sorted[i] == r;
  }

  lemma MapMinusCard<V>(m: map<string, Entry<V>>, gone: set<string>)
    requires gone <= m.Keys
    ensures |m - gone| == |m| - |gone|
  {
    assert (m - gone).Keys == m.Keys - gone;
    assert m.Keys == (m.Keys - gone) + gone;
  }

  /** `order` lists every key of `entries` once. */
  ghost predicate Listed<V>(entries: map<string, Entry<V>>, order: seq<string>) {
    Distinct(order) && forall k :: k in entries <==> k in order
  }

  /** The cache once `getCachedValue(key)` has run at time `now`. */
  function AfterGet<V>(entries: map<string, Entry<V>>, order: seq<string>, key: string, now: int)
    : (r: (map<string, Entry<V>>, seq<string>))
    ensures forall k | k != key :: (k in r.0 <==> k in entries) && (k in r.0 ==> r.0[k] == entries[k])
    ensures key in r.0 <==> key in entries && entries[key].expiry > now
  {
    if key in entries && entries[key].expiry <= now then (entries - {key}, Without(order, {key}))
    else (entries, order)
  }

  /** The cache once `setCachedValue` has stored `e` under `key`. */
  function AfterSet<V>(entries: map<string, Entry<V>>, order: seq<string>, key: string, e: Entry<V>)
    : (map<string, Entry<V>>, seq<string>)
  {
    var stored := entries[key := e];
    var storedOrder := if key in entries then order else order + [key];
    if |stored| > MaxCacheSize then
      (stored - Oldest(stored, storedOrder), Without(storedOrder, Oldest(stored, storedOrder)))
    else
      (stored, storedOrder)
  }

  /** Storing keeps the key order exact and the size within `MaxCacheSize`, starting from any such cache. */
  lemma AfterSetKeepsBound<V>(entries: map<string, Entry<V>>, order: seq<string>, key: string, e: Entry<V>)
    requires Listed(entries, order) && |entries| <= MaxCacheSize
    ensures Listed(AfterSet(entries, order, key, e).0, AfterSet(entries, order, key, e).1)
    ensures |AfterSet(entries, order, key, e).0| <= MaxCacheSize
  {
    var stored := entries[key := e];
    var storedOrder := if key in entries then order else order + [key];
    StoreKeepsListed(entries, order, key, e);
    if |stored| > MaxCacheSize {
      var oldest := Oldest(stored, storedOrder);
      assert AfterSet(entries, order, key, e) == (stored - oldest, Without(storedOrder, oldest));
      EvictionKeepsValid(stored, storedOrder);
    } else {
      assert AfterSet(entries, order, key, e) == (stored, storedOrder);
    }
  }

  /** Storing a key lists it once, at the end when it is new, and adds at most one entry. */
  lemma StoreKeepsListed<V>(entries: map<string, Entry<V>>, order: seq<string>, key: string, e: Entry<V>)
    requires Listed(entries, order)
    ensures Listed(entries[key := e], if key in entries then order else order + [key])
    ensures |entries[key := e]| <= |entries| + 1
  {
    assert entries[key := e].Keys == entries.Keys + {key};
  }

  /**
   * A stored value overwrites the previous entry for its key and leaves the
   * others alone; unless the cache was full, nothing is evicted.
   */
  lemma AfterSetStores<V>(entries: map<string, Entry<V>>, order: seq<string>, key: string, e: Entry<V>)
    requires Listed(entries, order) && |entries| <= MaxCacheSize
    ensures key in AfterSet(entries, order, key, e).0 ==> AfterSet(entries, order, key, e).0[key] == e
    ensures forall k | k != key && k in AfterSet(entries, order, key, e).0 :: k in entries && AfterSet(entries, order, key, e).0[k] == entries[k]
    ensures |entries| < MaxCacheSize || key in entries ==> AfterSet(entries, order, key, e).0 == entries[key := e]
  {
    var stored := entries[key := e];
    assert stored.Keys == entries.Keys + {key};
  }

  /**
   * When a new key arrives at a full cache, exactly `EntriesToRemove` entries
   * are evicted, and none of them expires later than an entry that stays.
   */
  lemma AfterSetEvictsOldest<V>(entries: map<string, Entry<V>>, order: seq<string>, key: string, e: Entry<V>)
    requires Listed(entries, order) && |entries| == MaxCacheSize && key !in entries
    ensures AfterSet(entries, order, key, e).0.Keys <= entries.Keys + {key}
    ensures |AfterSet(entries, order, key, e).0| == MaxCacheSize + 1 - EntriesToRemove
    ensures forall r, k | r in entries[key := e] && r !in AfterSet(entries, order, key, e).0 && k in AfterSet(entries, order, key, e).0 ::
      entries[key := e][r].expiry <= entries[key := e][k].expiry
  {
    var stored := entries[key := e];
    var storedOrder := order + [key];
    assert stored.Keys == entries.Keys + {key};
    assert Listed(stored, storedOrder);
    DistinctCard(storedOrder);
    assert KeysOf(storedOrder) == stored.Keys;
    OldestAreOldest(stored, storedOrder);
    MapMinusCard(stored, Oldest(stored, storedOrder));
  }

  /** The cache: `memoryCache` and, as `order`, the order `Object.keys` lists its keys in. */
  class MemoryCache<V> {
    var entries: map<string, Entry<V>>
    var order: seq<string>

    /** The key order lists every key once, and the cache never holds more than `MaxCacheSize` entries. */
    ghost predicate Valid()
      reads this
    {
      Listed(entries, order) && |entries| <= MaxCacheSize
    }

    constructor()
      ensures Valid() && entries == map[] && order == []
    {
      entries := map[];
      order := [];
    }

    /**
     * `getCachedValue`: the value when the entry expires after `now`;
     * otherwise `None`, and an expired entry is deleted.
     */
    method Get(key: string, now: int) returns (r: Option<V>)
      requires Valid()
      modifies this
      ensures Valid()
      ensures r.Some? <==> key in old(entries) && old(entries)[key].expiry > now
      ensures r.Some? ==> r.value == old(entries)[key].value
      ensures (entries, order) == AfterGet(old(entries), old(order), key, now)
    {
      if key in entries && entries[key].expiry > now {
        return Some(entries[key].value);
      }
      if key in entries {
        entries := entries - {key};
        WithoutDistinct(order, {key});
        WithoutMembers(order, {key});
        order := Without(order, {key});
      }
      return None;
    }

    /**
     * `setCachedValue`: stores the value to expire `expirySeconds` after
     * `now`; when the cache then holds more than `MaxCacheSize` entries, the
     * `EntriesToRemove` entries that expire first are deleted.
     */
    method Set(key: string, value: V, expirySeconds: int, now: int)
      requires Valid()
      modifies this
      ensures Valid()
      ensures (entries, order) == AfterSet(old(entries), old(order), key, Entry(value, now + expirySeconds * 1000))
    {
      if key !in entries {
        order := order + [key];
      }
      entries := entries[key := Entry(value, now + expirySeconds * 1000)];
      if |entries| > MaxCacheSize {
        EvictOldest();
      }
    }

    /** The cleanup loop: deletes the keys in the first `EntriesToRemove` positions of `ByExpiry`. */
    method EvictOldest()
      requires Distinct(order) && (forall k :: k in entries <==> k in order)
      requires |entries| == MaxCacheSize + 1
      modifies this
      ensures Valid()
      ensures entries == old(entries) - Oldest(old(entries), old(order))
      ensures order == Without(old(order), Oldest(old(entries), old(order)))
    {
      var sorted := ByExpiry(entries, order);
      SortedLength(entries, order);
      DistinctCard(order);
      assert KeysOf(order) == entries.Keys;
      var e, o := DeleteFirst(entries, order, sorted, EntriesToRemove);
      EvictionKeepsValid(entries, order);
      entries, order := e, o;
    }
  }

  /** Deletes the keys at the first `n` positions of `sorted` from the cache and from its key order. */
  method DeleteFirst<V>(entries: map<string, Entry<V>>, order: seq<string>, sorted: seq<string>, n: nat)
    returns (e: map<string, Entry<V>>, o: seq<string>)
    requires n <= |sorted|
    ensures e == entries - KeysOf(sorted[..n])
    ensures o == Without(order, KeysOf(sorted[..n]))
  {
    e, o := entries, order;
    assert KeysOf(sorted[..0]) == {};
    WithoutNothing(order);
    var i := 0;
    while i < n
      invariant 0 <= i <= n
      invariant e == entries - KeysOf(sorted[..i])
      invariant o == Without(order, KeysOf(sorted[..i]))
    {
      EvictionStep(entries, order, sorted, i);
      e := e - {sorted[i]};
      o := Without(o, {sorted[i]});
      i := i + 1;
    }
  }

  /** After the cleanup the key order still lists every key once, and at most `MaxCacheSize` remain. */
  lemma EvictionKeepsValid<V>(entries: map<string, Entry<V>>, order: seq<string>)
    requires Distinct(order) && (forall k :: k in entries <==> k in order)
    requires |entries| == MaxCacheSize + 1
    ensures Distinct(Without(order, Oldest(entries, order)))
    ensures forall k :: k in entries - Oldest(entries, order) <==> k in Without(order, Oldest(entries, order))
    ensures |entries - Oldest(entries, order)| <= MaxCacheSize
  {
    DistinctCard(order);
    assert KeysOf(order) == entries.Keys;
    OldestAreOldest(entries, order);
    WithoutDistinct(order, Oldest(entries, order));
    WithoutMembers(order, Oldest(entries, order));
    MapMinusCard(entries, Oldest(entries, order));
  }

  /** The sorted key list is as long as the key list. */
  lemma SortedLength<V>(entries: map<string, Entry<V>>, order: seq<string>)
    ensures |ByExpiry(entries, order)| == |order|
  {
    assert |multiset(ByExpiry(entries, order))| == |multiset(order)|;
  }

  /** One turn of the cleanup loop deletes one more key of the sorted list. */
  lemma EvictionStep<V>(entries: map<string, Entry<V>>, order: seq<string>, sorted: seq<string>, i: nat)
    requires i < |sorted|
    ensures entries - KeysOf(sorted[..i]) - {sorted[i]} == entries - KeysOf(sorted[..i + 1])
    ensures Without(Without(order, KeysOf(sorted[..i])), {sorted[i]}) == Without(order, KeysOf(sorted[..i + 1]))
  {
    assert KeysOf(sorted[..i + 1]) == KeysOf(sorted[..i]) + {sorted[i]} by {
      assert sorted[..i + 1] == sorted[..i] + [sorted[i]];
    }
    WithoutWithout(order, KeysOf(sorted[..i]), sorted[i]);
  }

  // generateCacheKey

  const Two31 := 0x8000_0000
  const Two32 := 0x1_0000_0000

  /** ECMAScript ToInt32: the 32-bit two's-complement integer congruent to `x`. */
  function ToInt32(x: int): (r: int)
    ensures -Two31 <= r < Two31
  {
    (x + Two31) % Two32 - Two31
  }

  /** ToInt32 changes its argument by a multiple of 2^32. */
  lemma ToInt32IsCongruent(x: int)
    ensures (ToInt32(x) - x) % Two32 == 0
  {
  }

  /** ToInt32 only depends on its argument modulo 2^32. */
  lemma ToInt32Congruent(x: int, y: int)
    requires (x - y) % Two32 == 0
    ensures ToInt32(x) == ToInt32(y)
  {
    var k := (x - y) / Two32;
    assert x == y + k * Two32;
    ToInt32Shift(y, k);
  }

  lemma ToInt32Shift(y: int, k: int)
    ensures ToInt32(y + k * Two32) == ToInt32(y)
  {
    var a := y + Two31;
    var q := a / Two32;
    var r := a % Two32;
    assert a == q * Two32 + r && 0 <= r < Two32;
    assert a + k * Two32 == (q + k) * Two32 + r;
  }

  /** The hash of a text: h = 0, then h = ToInt32(31 * h + code) for each character in turn. */
  function Hash(s: string): (h: int)
    ensures -Two31 <= h < Two31
  {
    HashOfPrefix(s, |s|)
  }

  /** The hash of the first `n` characters of `s`. */
  function HashOfPrefix(s: string, n: nat): (h: int)
    requires n <= |s|
    ensures -Two31 <= h < Two31
  {
    if n == 0 then 0 else ToInt32(31 * HashOfPrefix(s, n - 1) + s[n - 1] as int)
  }

  /** One step of the loop: `((h << 5) - h + code) & ...` is `31 * h + code` wrapped to 32 bits. */
  lemma ShiftStepIsTimes31(h: int, c: int)
    requires -Two31 <= h < Two31
    ensures ToInt32(ToInt32(h * 32) - h + c) == ToInt32(31 * h + c)
  {
    ToInt32IsCongruent(h * 32);
    assert (ToInt32(h * 32) - h + c) - (31 * h + c) == ToInt32(h * 32) - h * 32;
    ToInt32Congruent(ToInt32(h * 32) - h + c, 31 * h + c);
  }

  /** `(h << 5) - h + c`: the shift is ToInt32 of `h * 32`, the rest is unbounded arithmetic. */
  function ShiftSubtractAdd(h: int, c: int): int {
    ToInt32(h * 32) - h + c
  }

  /** The hash of one more character, as the loop computes it. */
  lemma HashStep(s: string, i: nat)
    requires i < |s|
    ensures HashOfPrefix(s, i + 1) == ToInt32(ShiftSubtractAdd(HashOfPrefix(s, i), s[i] as int))
  {
    ShiftStepIsTimes31(HashOfPrefix(s, i), s[i] as int);
  }

  /** The normalised question: trimmed and lowercased. */
  function Normalize(message: string): string {
    ToLower(Trim(message))
  }

  /** The cache key of a question. */
  function CacheKey(message: string): string {
    "ai_response_" + IntToString(Hash(Normalize(message)))
  }

  /**
   * `generateCacheKey`: the hash loop over the normalised message, with the
   * shift, subtraction and `hash & hash` of the source.
   */
  method GenerateCacheKey(message: string) returns (key: string)
    ensures key == CacheKey(message)
  {
    var normalized := ToLower(Trim(message));
    var hash := 0;
    for i := 0 to |normalized|
      invariant hash == HashOfPrefix(normalized, i)
    {
      var code := normalized[i] as int;
      HashStep(normalized, i);
      hash := ShiftSubtractAdd(hash, code);
      hash := ToInt32(hash);
    }
    key := "ai_response_" + IntToString(hash);
  }

  /** Two questions share a key exactly when their normalised texts hash alike. */
  lemma CacheKeyMeansSameHash(m1: string, m2: string)
    ensures CacheKey(m1) == CacheKey(m2) <==> Hash(Normalize(m1)) == Hash(Normalize(m2))
  {
    var p := "ai_response_";
    if CacheKey(m1) == CacheKey(m2) {
      assert (p + IntToString(Hash(Normalize(m1))))[|p|..] == IntToString(Hash(Normalize(m1)));
      assert (p + IntToString(Hash(Normalize(m2))))[|p|..] == IntToString(Hash(Normalize(m2)));
      IntToStringInjective(Hash(Normalize(m1)), Hash(Normalize(m2)));
    }
  }

  /** Questions that differ only in letter case, or in surrounding whitespace, get the same key. */
  lemma CacheKeyIgnoresCaseAndPadding(w1: string, m: string, w2: string, other: string)
    requires AllWhitespace(w1) && AllWhitespace(w2)
    requires ToLower(m) == ToLower(other)
    ensures CacheKey(w1 + m + w2) == CacheKey(other)
  {
    TrimIgnoresPadding(w1, m, w2);
    TrimToLower(m);
    TrimToLower(other);
  }
}

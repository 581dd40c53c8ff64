/**
 * The assistant API route: a fixed-window request limit per client address,
 * then validation, the response cache and the upstream model service, in
 * that order. The three readings of `Date.now()` are parameters: `now` for
 * the request limit, `lookupTime` for the cache read and `replyTime` for the
 * cache write after the upstream has answered. The request body, the
 * configured API key and the upstream reply are parameters too.
 */
module AssistantRoute {
  import opened Wrappers
  import opened ComponentTypes
  import opened Cache

  /** `RATE_LIMIT_WINDOW`, in milliseconds. */
  const RateLimitWindow := 60 * 1000
  const MaxRequestsPerWindow := 10
  /** The cache lifetime of an answer: 24 hours, in seconds. */
  const AnswerExpirySeconds := 24 * 60 * 60

  /** The per-client record of `rateLimitStore`. */
  datatype RateLimit = RateLimit(count: int, resetAt: int)

  /** The `x-forwarded-for` header, or the shared "unknown" bucket when it is missing or empty. */
  function ClientIp(forwardedFor: Option<string>): (ip: string)
    ensures TruthyText(forwardedFor) ==> ip == forwardedFor.value
    ensures !TruthyText(forwardedFor) ==> ip == "unknown"
  {
    TextOr(forwardedFor, "unknown")
  }

  /**
   * The names a plain object such as `rateLimitStore` inherits from
   * `Object.prototype`. Looking one of them up finds the inherited member,
   * whose `count` and `resetAt` are undefined: `resetAt < now` and
   * `count >= 10` are both false, the count written back is NaN, and the
   * client is never limited.
   */
  const InheritedNames: set<string> := {
    "constructor", "__proto__", "__defineGetter__", "__defineSetter__", "__lookupGetter__", "__lookupSetter__",
    "hasOwnProperty", "isPrototypeOf", "propertyIsEnumerable", "toLocaleString", "toString", "valueOf"
  }

  /**
   * The record the check looks at for a client that is not an inherited name: the stored one, or a fresh one for a new
   * client, reset to a new window once the stored window has ended.
   */
  function Window(store: map<string, RateLimit>, ip: string, now: int): (w: RateLimit)
    ensures w.resetAt >= now
    ensures ip in store && store[ip].resetAt >= now ==> w == store[ip]
    ensures ip !in store || store[ip].resetAt < now ==> w == RateLimit(0, now + RateLimitWindow)
  {
    var w := if ip in store then store[ip] else RateLimit(0, now + RateLimitWindow);
    if w.resetAt < now then RateLimit(0, now + RateLimitWindow) else w
  }

  /** Whether a request from `ip` at `now` is admitted: always for an inherited name. */
  predicate Admitted(store: map<string, RateLimit>, ip: string, now: int) {
    ip in InheritedNames || Window(store, ip, now).count < MaxRequestsPerWindow
  }

  /** Every stored count lies between 1 and `MaxRequestsPerWindow`. */
  ghost predicate CountsBounded(store: map<string, RateLimit>) {
    forall ip | ip in store :: 1 <= store[ip].count <= MaxRequestsPerWindow
  }

  /**
   * The store after one request from `ip`: an admitted request stores its
   * window with the count raised by one; a rejected one changes nothing, and
   * neither does one from an inherited name, which no record limits.
   */
  function AfterRequest(store: map<string, RateLimit>, ip: string, now: int): (r: map<string, RateLimit>)
    ensures forall other | other != ip :: (other in r <==> other in store) && (other in r ==> r[other] == store[other])
    ensures !Admitted(store, ip, now) || ip in InheritedNames ==> r == store
    ensures Admitted(store, ip, now) && ip !in InheritedNames ==> ip in r && r[ip].count == Window(store, ip, now).count + 1
    ensures ip in r ==> r[ip].resetAt == Window(store, ip, now).resetAt || r == store
  {
    var w := Window(store, ip, now);
    if ip in InheritedNames || w.count >= MaxRequestsPerWindow then store
    else store[ip := RateLimit(w.count + 1, w.resetAt)]
  }

  /** A request never takes a count outside 1..`MaxRequestsPerWindow`. */
  lemma AfterRequestKeepsBound(store: map<string, RateLimit>, ip: string, now: int)
    requires CountsBounded(store)
    ensures CountsBounded(AfterRequest(store, ip, now))
  {
  }

  /** Once its window has ended, a client is admitted again whatever its count was. */
  lemma ExpiredWindowAdmits(store: map<string, RateLimit>, ip: string, now: int)
    requires ip in store && store[ip].resetAt < now && ip !in InheritedNames
    ensures Admitted(store, ip, now)
    ensures AfterRequest(store, ip, now)[ip] == RateLimit(1, now + RateLimitWindow)
  {
  }

  /** How many of the requests from `ip`, at the given times in turn, are admitted. */
  function AdmittedCount(store: map<string, RateLimit>, ip: string, times: seq<int>): nat
    decreases |times|
  {
    if times == [] then 0
    else
      (if Admitted(store, ip, times[0]) then 1 else 0)
      + AdmittedCount(AfterRequest(store, ip, times[0]), ip, times[1..])
  }

  /**
   * Within one window (no request later than its `resetAt`), a client with
   * `count` admitted requests gets at most `MaxRequestsPerWindow - count`
   * more, unless it is an inherited name.
   */
  lemma {:induction false} AtMostMaxWithinWindow(store: map<string, RateLimit>, ip: string, times: seq<int>)
    requires CountsBounded(store) && ip in store && ip !in InheritedNames
    requires forall i | 0 <= i < |times| :: times[i] <= store[ip].resetAt
    ensures AdmittedCount(store, ip, times) <= MaxRequestsPerWindow - store[ip].count
  {
    if times != [] {
      var next := AfterRequest(store, ip, times[0]);
      AfterRequestKeepsBound(store, ip, times[0]);
      assert next[ip].resetAt == store[ip].resetAt;
      AtMostMaxWithinWindow(next, ip, times[1..]);
    }
  }

  /**
   * A new client, not an inherited name, whose requests all come within
   * `RateLimitWindow` of its first one gets at most `MaxRequestsPerWindow`
   * of them admitted.
   */
  lemma AtMostMaxForNewClient(store: map<string, RateLimit>, ip: string, times: seq<int>)
    requires CountsBounded(store) && ip !in store && ip !in InheritedNames && times != []
    requires forall i | 0 <= i < |times| :: times[i] <= times[0] + RateLimitWindow
    ensures AdmittedCount(store, ip, times) <= MaxRequestsPerWindow
  {
    var next := AfterRequest(store, ip, times[0]);
    AfterRequestKeepsBound(store, ip, times[0]);
    assert next[ip] == RateLimit(1, times[0] + RateLimitWindow);
    AtMostMaxWithinWindow(next, ip, times[1..]);
  }

  /** A client named after an inherited member has every request admitted, however many it sends. */
  lemma {:induction false} InheritedNamesUnlimited(store: map<string, RateLimit>, ip: string, times: seq<int>)
    requires ip in InheritedNames
    ensures AdmittedCount(store, ip, times) == |times|
  {
    if times != [] {
      assert AfterRequest(store, ip, times[0]) == store;
      InheritedNamesUnlimited(store, ip, times[1..]);
    }
  }

  /** `rateLimitStore`, whose records the route updates in place. */
  class RateLimiter {
    var store: map<string, RateLimit>

    ghost predicate Valid()
      reads this
    {
      CountsBounded(store)
    }

    constructor()
      ensures Valid() && store == map[]
    {
      store := map[];
    }

    /**
     * The check and update of the route: reset an ended window, reject at
     * `MaxRequestsPerWindow`, otherwise count the request and store its record.
     * An inherited name finds the inherited member, which never limits.
     */
    method Check(ip: string, now: int) returns (allowed: bool)
      requires Valid()
      modifies this
      ensures Valid()
      ensures allowed <==> Admitted(old(store), ip, now)
      ensures store == AfterRequest(old(store), ip, now)
    {
      if ip in InheritedNames {
        return true;
      }
      var rateLimit := if ip in store then store[ip] else RateLimit(0, now + RateLimitWindow);
      if rateLimit.resetAt < now {
        rateLimit := rateLimit.(count := 0);
        rateLimit := rateLimit.(resetAt := now + RateLimitWindow);
      }
      if rateLimit.count >= MaxRequestsPerWindow {
        return false;
      }
      rateLimit := rateLimit.(count := rateLimit.count + 1);
      store := store[ip := rateLimit];
      AfterRequestKeepsBound(old(store), ip, now);
      return true;
    }
  }

  /**
   * The parsed request body: unreadable JSON, with the parser's error text,
   * or the `message` field when it is a string.
   */
  datatype RequestBody = Unreadable(reason: string) | Body(message: Option<string>)

  /**
   * The upstream reply: a successful answer, the failing status with its
   * error body, or an exception (the `fetch` or the parse of a successful
   * reply throws) with its error text.
   */
  datatype Upstream<D> = Answered(data: D) | Failed(status: int, details: D) | Threw(reason: string)

  datatype Response<D> =
    | ErrorResponse(status: int, error: string)
    | UpstreamError(status: int, error: string, details: D)
    | ProcessingError(reason: string)    // the outer `catch`: status 500, error `FailureMessage`, the reason as details
    | Answer(data: D)

  const RateLimitMessage := "Rate limit exceeded. Please try again later."
  const InvalidMessage := "Invalid request. Message is required."
  const MissingKeyMessage := "DeepSeek API key is not configured"
  const UpstreamMessage := "Failed to get response from AI assistant"
  const FailureMessage := "Failed to process request"

  /**
   * `POST`: the quota is taken first, whatever the body; then an unreadable
   * body gets the outer `catch`'s 500 and a missing, empty or non-text
   * message gets 400; a valid message is answered by `Respond`.
   */
  method Post<D>(limiter: RateLimiter, cache: MemoryCache<D>, forwardedFor: Option<string>, body: RequestBody,
                 apiKey: Option<string>, upstream: Upstream<D>, now: int, lookupTime: int, replyTime: int)
    returns (response: Response<D>)
    requires limiter.Valid() && cache.Valid()
    modifies limiter, cache
    ensures limiter.Valid() && cache.Valid()
    ensures limiter.store == AfterRequest(old(limiter.store), ClientIp(forwardedFor), now)
    ensures !Admitted(old(limiter.store), ClientIp(forwardedFor), now) ==>
      response == ErrorResponse(429, RateLimitMessage) && unchanged(cache)
    ensures Admitted(old(limiter.store), ClientIp(forwardedFor), now) && body.Unreadable? ==>
      response == ProcessingError(body.reason) && unchanged(cache)
    ensures Admitted(old(limiter.store), ClientIp(forwardedFor), now) && body.Body? && !TruthyText(body.message) ==>
      response == ErrorResponse(400, InvalidMessage) && unchanged(cache)
    ensures Admitted(old(limiter.store), ClientIp(forwardedFor), now) && body.Body? && TruthyText(body.message) ==>
      response == Outcome(old(cache.entries), CacheKey(body.message.value), apiKey, upstream, lookupTime)
      && (cache.entries, cache.order)
         == CacheAfter(old(cache.entries), old(cache.order), CacheKey(body.message.value), apiKey, upstream, lookupTime, replyTime)
  {
    var ip := ClientIp(forwardedFor);
    var allowed := limiter.Check(ip, now);
    if !allowed {
      return ErrorResponse(429, RateLimitMessage);
    }
    if body.Unreadable? {
      return ProcessingError(body.reason);
    }
    if !TruthyText(body.message) {
      return ErrorResponse(400, InvalidMessage);
    }
    response := Respond(cache, body.message.value, apiKey, upstream, lookupTime, replyTime);
  }

  /** Whether the cache holds an unexpired answer under `key`. */
  predicate CacheHit<D>(entries: map<string, Entry<D>>, key: string, now: int) {
    key in entries && entries[key].expiry > now
  }

  /**
   * The response without a cache hit: 500 without an API key, else the
   * upstream failure, the outer `catch`'s 500 for an exception, or the answer.
   */
  function Reply<D>(apiKey: Option<string>, upstream: Upstream<D>): (r: Response<D>)
    ensures !TruthyText(apiKey) ==> r == ErrorResponse(500, MissingKeyMessage)
    ensures TruthyText(apiKey) && upstream.Failed? ==> r == UpstreamError(upstream.status, UpstreamMessage, upstream.details)
    ensures TruthyText(apiKey) && upstream.Threw? ==> r == ProcessingError(upstream.reason)
    ensures TruthyText(apiKey) && upstream.Answered? ==> r == Answer(upstream.data)
  {
    if !TruthyText(apiKey) then ErrorResponse(500, MissingKeyMessage)
    else match upstream
      case Failed(status, details) => UpstreamError(status, UpstreamMessage, details)
      case Threw(reason) => ProcessingError(reason)
      case Answered(data) => Answer(data)
  }

  /** The response to a valid message whose cache key is `key`: the cached answer, else the reply. */
  function Outcome<D>(entries: map<string, Entry<D>>, key: string, apiKey: Option<string>, upstream: Upstream<D>,
                     lookupTime: int)
    : (r: Response<D>)
    ensures CacheHit(entries, key, lookupTime) ==> r == Answer(entries[key].value)
    ensures !CacheHit(entries, key, lookupTime) ==> r == Reply(apiKey, upstream)
  {
    if CacheHit(entries, key, lookupTime) then Answer(entries[key].value) else Reply(apiKey, upstream)
  }

  /**
   * The cache after the reply: the answer stored only when upstream answered,
   * for a day counted from `replyTime`, the clock reading of the write.
   */
  function Stored<D>(cached: (map<string, Entry<D>>, seq<string>), key: string, apiKey: Option<string>,
                     upstream: Upstream<D>, replyTime: int)
    : (map<string, Entry<D>>, seq<string>)
  {
    if TruthyText(apiKey) && upstream.Answered? then
      AfterSet(cached.0, cached.1, key, Entry(upstream.data, replyTime + AnswerExpirySeconds * 1000))
    else cached
  }

  /**
   * A stored answer expires a day after the write's own clock reading, not
   * the request's: the day is counted from `replyTime`.
   */
  lemma AnswerExpiresADayAfterReply<D>(cached: (map<string, Entry<D>>, seq<string>), key: string, apiKey: Option<string>,
                                       upstream: Upstream<D>, replyTime: int)
    requires Listed(cached.0, cached.1) && |cached.0| <= MaxCacheSize
    requires TruthyText(apiKey) && upstream.Answered?
    ensures key in Stored(cached, key, apiKey, upstream, replyTime).0 ==>
      Stored(cached, key, apiKey, upstream, replyTime).0[key] == Entry(upstream.data, replyTime + AnswerExpirySeconds * 1000)
    ensures |cached.0| < MaxCacheSize || key in cached.0 ==>
      Stored(cached, key, apiKey, upstream, replyTime).0 == cached.0[key := Entry(upstream.data, replyTime + AnswerExpirySeconds * 1000)]
  {
    AfterSetStores(cached.0, cached.1, key, Entry(upstream.data, replyTime + AnswerExpirySeconds * 1000));
  }

  /**
   * The cache after a valid message: the lookup's effect at `lookupTime`, then
   * on a miss the answer, if any, stored at `replyTime`.
   */
  function CacheAfter<D>(entries: map<string, Entry<D>>, order: seq<string>, key: string, apiKey: Option<string>,
                         upstream: Upstream<D>, lookupTime: int, replyTime: int)
    : (map<string, Entry<D>>, seq<string>)
  {
    var looked := AfterGet(entries, order, key, lookupTime);
    if CacheHit(entries, key, lookupTime) then looked else Stored(looked, key, apiKey, upstream, replyTime)
  }

  /** Only an upstream answer adds to the cache; every other outcome at most drops the expired entry for `key`. */
  lemma OnlyAnswersAreCached<D>(entries: map<string, Entry<D>>, order: seq<string>, key: string, apiKey: Option<string>,
                                upstream: Upstream<D>, lookupTime: int, replyTime: int)
    requires !Outcome(entries, key, apiKey, upstream, lookupTime).Answer? || CacheHit(entries, key, lookupTime)
    ensures CacheAfter(entries, order, key, apiKey, upstream, lookupTime, replyTime).0.Keys <= entries.Keys
    ensures forall k | k in CacheAfter(entries, order, key, apiKey, upstream, lookupTime, replyTime).0 ::
      CacheAfter(entries, order, key, apiKey, upstream, lookupTime, replyTime).0[k] == entries[k]
  {
  }

  /** A cache hit is answered without the upstream reply having any effect. */
  lemma CacheHitIgnoresUpstream<D>(entries: map<string, Entry<D>>, key: string, apiKey: Option<string>,
                                   u1: Upstream<D>, u2: Upstream<D>, now: int)
    requires CacheHit(entries, key, now)
    ensures Outcome(entries, key, apiKey, u1, now) == Outcome(entries, key, None, u2, now)
  {
  }

  /** The cache lookup of a valid message, and on a miss the reply. */
  method Respond<D>(cache: MemoryCache<D>, message: string, apiKey: Option<string>, upstream: Upstream<D>,
                    lookupTime: int, replyTime: int)
    returns (response: Response<D>)
    requires cache.Valid()
    modifies cache
    ensures cache.Valid()
    ensures response == Outcome(old(cache.entries), CacheKey(message), apiKey, upstream, lookupTime)
    ensures (cache.entries, cache.order)
            == CacheAfter(old(cache.entries), old(cache.order), CacheKey(message), apiKey, upstream, lookupTime, replyTime)
  {
    var cacheKey := GenerateCacheKey(message);
    var cached := cache.Get(cacheKey, lookupTime);
    if cached.Some? {
      response := Answer(cached.value);
    } else {
      response := AskUpstream(cache, cacheKey, apiKey, upstream, replyTime);
    }
  }

  /** The API key check and the upstream call; only an answer is stored. */
  method AskUpstream<D>(cache: MemoryCache<D>, cacheKey: string, apiKey: Option<string>, upstream: Upstream<D>,
                        replyTime: int)
    returns (response: Response<D>)
    requires cache.Valid()
    modifies cache
    ensures cache.Valid()
    ensures response == Reply(apiKey, upstream)
    ensures (cache.entries, cache.order) == Stored(old((cache.entries, cache.order)), cacheKey, apiKey, upstream, replyTime)
  {
    if !TruthyText(apiKey) {
      return ErrorResponse(500, MissingKeyMessage);
    }
    match upstream
    case Failed(status, details) =>
      response := UpstreamError(status, UpstreamMessage, details);
    case Threw(reason) =>
      response := ProcessingError(reason);
    case Answered(data) =>
      cache.Set(cacheKey, data, AnswerExpirySeconds, replyTime);
      response := Answer(data);
  }
}

/** `get_page`: a page fetcher that counts every access to a URL and keeps
    each fetched page in Redis for a fixed number of seconds. */
module Web {
  import opened Wrappers
  import opened Encoding
  import opened Redis

  /** The key of the access counter of `url`. */
  function CountKey(url: string): string { "count:" + url }

  /** The key of the cached page of `url`. */
  function CacheKey(url: string): string { "cache:" + url }

  /** The two prefixes differ, so no counter key is ever a cache key, and
      each kind of key names exactly one URL. */
  lemma KeysDistinct(u: string, v: string)
    ensures CountKey(u) != CacheKey(v)
    ensures CountKey(u) == CountKey(v) <==> u == v
    ensures CacheKey(u) == CacheKey(v) <==> u == v
  {
    assert CountKey(u)[1] == 'o' && CacheKey(v)[1] == 'a';
    if CountKey(u) == CountKey(v) {
      assert u == CountKey(u)[6..] && v == CountKey(v)[6..];
    }
    if CacheKey(u) == CacheKey(v) {
      assert u == CacheKey(u)[6..] && v == CacheKey(v)[6..];
    }
  }

  /** The lifetime `get_page` gives a cached page, in seconds; it is also the
      default of `cache_page`. */
  const Expiration: int := 10

  /** One decorated call: the new database, the reply, and whether the page
      was fetched from the origin. */
  datatype PageRun = PageRun(db: DB, out: Result<string>, fetched: bool)

  /** `cache_page(expiration)` around a fetcher `page`: a live cached page is
      decoded and returned; otherwise the page is fetched once, stored under
      the cache key until `now + expiration`, and returned. When SETEX
      refuses the ttl, the call fails after the fetch with nothing stored. */
  function CachePage(expiration: int, page: (string, nat) -> Result<string>, db: DB, url: string, now: nat): (r: PageRun)
    ensures r.fetched <==> db.Get(CacheKey(url), now) == Ok(None)
    ensures !r.fetched ==> r.db == db
    ensures db.Get(CacheKey(url), now).Err? ==> r.out == Err(WrongType)
    ensures db.Get(CacheKey(url), now).Ok? && db.Get(CacheKey(url), now).value.Some? ==>
      var b := db.Get(CacheKey(url), now).value.value;
      && (r.out.Ok? <==> Utf8Decode(b).Some?)
      && (r.out.Ok? ==> Utf8Encode(r.out.value) == b)
      && (r.out.Err? ==> r.out.error == UnicodeDecodeError)
    ensures r.fetched ==> (r.out.Ok? <==> page(url, now).Ok? && ExpireFits(expiration, now))
    ensures r.fetched && page(url, now).Err? ==> r.out == page(url, now) && r.db == db
    ensures r.fetched && page(url, now).Ok? && !ExpireFits(expiration, now) ==>
      && r.out == Err(if MinInt64 <= expiration <= MaxInt64 then InvalidExpireTime else NotAnInteger)
      && r.db == db
    ensures r.fetched && r.out.Ok? ==>
      && r.out == page(url, now)
      && forall t: nat :: r.db.Lookup(CacheKey(url), t)
           == if t < now + expiration then Some(Str(Utf8Encode(r.out.value))) else None
    ensures forall k, t: nat :: k != CacheKey(url) ==> r.db.Lookup(k, t) == db.Lookup(k, t)
  {
    match db.Get(CacheKey(url), now)
    case Err(e) => PageRun(db, Err(e), false)
    case Ok(Some(b)) =>
      (match Utf8Decode(b)
       case None => PageRun(db, Err(UnicodeDecodeError), false)
       case Some(s) => Utf8Canonical(b); PageRun(db, Ok(s), false))
    case Ok(None) =>
      match page(url, now)
      case Err(e) => PageRun(db, Err(e), true)
      case Ok(content) =>
        match db.SetEx(CacheKey(url), expiration, Utf8Encode(content), now)
        case Err(e) => PageRun(db, Err(e), true)
        case Ok(stored) => PageRun(stored, Ok(content), true)
  }

  /** `url_count` around `inner`: INCR of the URL's counter, then the wrapped
      call; an error from INCR stops the call before it starts. */
  function UrlCount(url: string, now: nat, inner: DB -> PageRun, db: DB): PageRun {
    var counted := db.Incr(CountKey(url), now);
    if counted.out.Err? then PageRun(counted.db, Err(counted.out.error), false)
    else inner(counted.db)
  }

  /** `get_page`: `url_count` outside `cache_page(10)` outside the fetch. */
  function GetPage(page: (string, nat) -> Result<string>, db: DB, url: string, now: nat): PageRun {
    UrlCount(url, now, (d: DB) => CachePage(Expiration, page, d, url, now), db)
  }

  /** Every call counts itself before looking at the cache: when the
      counter can grow it goes up by exactly one, whether the page was cached
      or not, and the counters of other URLs stay as they were. When it
      cannot, the call fails without reading the cache or fetching. No key
      but the URL's counter and cache entry ever changes. */
  lemma GetPageCounts(page: (string, nat) -> Result<string>, db: DB, url: string, now: nat)
    ensures var r := GetPage(page, db, url, now);
      var n := db.Counter(CountKey(url), now);
      && (n.Some? && n.value < MaxInt64 ==> r.db.Counter(CountKey(url), now) == Some(n.value + 1))
      && (!(n.Some? && n.value < MaxInt64) ==> r.out.Err? && !r.fetched && r.db == db)
      && (forall u: string, t: nat :: u != url ==> r.db.Counter(CountKey(u), t) == db.Counter(CountKey(u), t))
      && forall k: string, t: nat :: k != CountKey(url) && k != CacheKey(url) ==> r.db.Lookup(k, t) == db.Lookup(k, t)
  {
    var counted := db.Incr(CountKey(url), now);
    forall k: string, t: nat | k != CountKey(url) && k != CacheKey(url)
      ensures GetPage(page, db, url, now).db.Lookup(k, t) == db.Lookup(k, t)
    {
    }
    forall u: string, t: nat | u != url
      ensures GetPage(page, db, url, now).db.Counter(CountKey(u), t) == db.Counter(CountKey(u), t)
    {
      KeysDistinct(u, url);
    }
    KeysDistinct(url, url);
    assert GetPage(page, db, url, now).db.Lookup(CountKey(url), now) == counted.db.Lookup(CountKey(url), now);
  }

  /** A hit: when the cache holds the page's text, the call returns that text
      and does not fetch, and the cached entry is left as it was. */
  lemma GetPageHit(page: (string, nat) -> Result<string>, db: DB, url: string, now: nat, s: string)
    requires db.Counter(CountKey(url), now).Some? && db.Counter(CountKey(url), now).value < MaxInt64
    requires db.Lookup(CacheKey(url), now) == Some(Str(Utf8Encode(s)))
    ensures var r := GetPage(page, db, url, now);
      && r.out == Ok(s)
      && !r.fetched
      && forall t: nat :: r.db.Lookup(CacheKey(url), t) == db.Lookup(CacheKey(url), t)
  {
    KeysDistinct(url, url);
    var counted := db.Incr(CountKey(url), now);
    assert counted.db.Lookup(CacheKey(url), now) == db.Lookup(CacheKey(url), now);
    Utf8RoundTrip(s);
  }

  /** A miss: when nothing live is cached, the page is fetched once. A
      fetched page is stored for `Expiration` seconds from now and returned,
      unless that deadline overflows the server's clock; a failed fetch is
      passed on. Whenever the call fails, the cache entry stays. */
  lemma GetPageMiss(page: (string, nat) -> Result<string>, db: DB, url: string, now: nat)
    requires db.Counter(CountKey(url), now).Some? && db.Counter(CountKey(url), now).value < MaxInt64
    requires db.Lookup(CacheKey(url), now).None?
    ensures var r := GetPage(page, db, url, now);
      && r.fetched
      && (r.out.Ok? <==> page(url, now).Ok? && ExpireFits(Expiration, now))
      && (page(url, now).Err? || ExpireFits(Expiration, now) ==> r.out == page(url, now))
      && (page(url, now).Ok? && !ExpireFits(Expiration, now) ==> r.out == Err(InvalidExpireTime))
      && (r.out.Ok? ==>
            forall t: nat :: r.db.Lookup(CacheKey(url), t)
              == if t < now + Expiration then Some(Str(Utf8Encode(r.out.value))) else None)
      && (r.out.Err? ==>
            forall t: nat :: r.db.Lookup(CacheKey(url), t) == db.Lookup(CacheKey(url), t))
  {
    KeysDistinct(url, url);
    var counted := db.Incr(CountKey(url), now);
    assert counted.db.Lookup(CacheKey(url), now) == db.Lookup(CacheKey(url), now);
  }

  // ---------------------------------------------------- runs of calls

  /** The cached entry of one URL: the page's text and the instant it stops
      being served, or nothing ever cached. */
  type Cached = Option<(string, nat)>

  /** The cache key of `url` holds exactly `entry`, at every instant. */
  ghost predicate CacheHolds(db: DB, url: string, entry: Cached) {
    forall t: nat :: db.Lookup(CacheKey(url), t)
      == if entry.Some? && t < entry.value.1 then Some(Str(Utf8Encode(entry.value.0))) else None
  }

  /** The counter of `url` holds `n` and has no deadline. */
  predicate CountHolds(db: DB, url: string, n: int) {
    CountKey(url) !in db.expiry && db.Counter(CountKey(url), 0) == Some(n)
  }

  /** Reference behaviour of one call at `t`, written without the database:
      a hit while the entry lives, otherwise a fetch, whose page is kept
      unless the server refuses its deadline. */
  predicate Hit(entry: Cached, t: nat) { entry.Some? && t < entry.value.1 }

  function Reply(page: (string, nat) -> Result<string>, url: string, entry: Cached, t: nat): Result<string> {
    if Hit(entry, t) then Ok(entry.value.0)
    else if page(url, t).Ok? && !ExpireFits(Expiration, t) then Err(InvalidExpireTime)
    else page(url, t)
  }

  function NextEntry(page: (string, nat) -> Result<string>, url: string, entry: Cached, t: nat): Cached {
    if Hit(entry, t) || page(url, t).Err? || !ExpireFits(Expiration, t) then entry
    else Some((page(url, t).value, t + Expiration))
  }

  /** One call, measured against the reference: it counts itself, replies
      as the reference does, fetches exactly on a reference miss, and leaves
      the entry the reference predicts. */
  lemma OneCall(page: (string, nat) -> Result<string>, db: DB, url: string, t: nat, n: int, entry: Cached)
    requires CountHolds(db, url, n) && n < MaxInt64
    requires CacheHolds(db, url, entry)
    ensures var r := GetPage(page, db, url, t);
      && r.out == Reply(page, url, entry, t)
      && (r.fetched <==> !Hit(entry, t))
      && CountHolds(r.db, url, n + 1)
      && CacheHolds(r.db, url, NextEntry(page, url, entry, t))
  {
    KeysDistinct(url, url);
    var count, cache := CountKey(url), CacheKey(url);
    PersistentKey(db, count, 0, t);
    var counted := db.Incr(count, t);
    assert count !in counted.db.expiry;
    PersistentKey(counted.db, count, 0, t);
    assert forall s: nat :: counted.db.Lookup(cache, s) == db.Lookup(cache, s);
    var r := CachePage(Expiration, page, counted.db, url, t);
    assert r.db.Lookup(count, 0) == counted.db.Lookup(count, 0);
    if Hit(entry, t) {
      Utf8RoundTrip(entry.value.0);
    } else if page(url, t).Ok? && ExpireFits(Expiration, t) {
      assert r.db.expiry == counted.db.expiry[cache := t + Expiration];
    }
  }

  /** What a run of calls for one URL does: the database after it, each
      call's reply, and the instants at which the origin was asked. */
  datatype Served = Served(db: DB, outs: seq<Result<string>>, fetches: seq<nat>)

  /** Calls made at each instant of `times` in turn, each on the database the
      one before left; `call` is one call. */
  function Serve(call: (DB, nat) -> PageRun, db: DB, times: seq<nat>): Served
    decreases |times|
  {
    if times == [] then Served(db, [], [])
    else
      var r := call(db, times[0]);
      var rest := Serve(call, r.db, times[1..]);
      Served(rest.db, [r.out] + rest.outs, (if r.fetched then [times[0]] else []) + rest.fetches)
  }

  /** One `get_page(url)` call, as a function of the database and the instant. */
  function GetPageOf(page: (string, nat) -> Result<string>, url: string): (DB, nat) -> PageRun {
    (d: DB, t: nat) => GetPage(page, d, url, t)
  }

  /** `get_page(url)` called at each instant of `times` in turn. */
  function ServeAll(page: (string, nat) -> Result<string>, db: DB, url: string, times: seq<nat>): Served {
    Serve(GetPageOf(page, url), db, times)
  }

  /** The reference run: replies, fetch instants and the final entry, from
      the entry alone. */
  datatype Expect = Expect(outs: seq<Result<string>>, fetches: seq<nat>, entry: Cached)

  function Expected(page: (string, nat) -> Result<string>, url: string, times: seq<nat>, entry: Cached): Expect
    decreases |times|
  {
    if times == [] then Expect([], [], entry)
    else
      var t := times[0];
      var rest := Expected(page, url, times[1..], NextEntry(page, url, entry, t));
      Expect([Reply(page, url, entry, t)] + rest.outs, (if Hit(entry, t) then [] else [t]) + rest.fetches, rest.entry)
  }

  /** One call of `call` at `t`, on a database whose counter holds `n` and
      whose cache holds `entry`, behaves as the reference does. */
  ghost predicate Behaves(page: (string, nat) -> Result<string>, url: string, call: (DB, nat) -> PageRun,
                          d: DB, t: nat, n: int, entry: Cached) {
    var r := call(d, t);
    && r.out == Reply(page, url, entry, t)
    && (r.fetched <==> !Hit(entry, t))
    && CountHolds(r.db, url, n + 1)
    && CacheHolds(r.db, url, NextEntry(page, url, entry, t))
  }

  /** A run of calls each of which behaves as the reference behaves as the
      reference as a whole: the same replies, fetches at exactly the
      reference's misses, the counter up by the number of calls, and the
      entry the reference ends with. */
  lemma {:induction false} ServeAsExpected(page: (string, nat) -> Result<string>, url: string,
                                           call: (DB, nat) -> PageRun, db: DB, times: seq<nat>, n: int, entry: Cached)
    requires forall d: DB, t: nat, m: int, e: Cached {:trigger Behaves(page, url, call, d, t, m, e)}
      | CountHolds(d, url, m) && m < MaxInt64 && CacheHolds(d, url, e) :: Behaves(page, url, call, d, t, m, e)
    requires CountHolds(db, url, n) && n + |times| <= MaxInt64
    requires CacheHolds(db, url, entry)
    ensures var run, ref := Serve(call, db, times), Expected(page, url, times, entry);
      && run.outs == ref.outs
      && run.fetches == ref.fetches
      && CountHolds(run.db, url, n + |times|)
      && CacheHolds(run.db, url, ref.entry)
    decreases |times|
  {
    if times != [] {
      var t := times[0];
      assert Behaves(page, url, call, db, t, n, entry);
      var r := call(db, t);
      var next := NextEntry(page, url, entry, t);
      ServeAsExpected(page, url, call, r.db, times[1..], n + 1, next);
      var rest, ref := Serve(call, r.db, times[1..]), Expected(page, url, times[1..], next);
      assert Serve(call, db, times)
        == Served(rest.db, [r.out] + rest.outs, (if r.fetched then [t] else []) + rest.fetches);
      assert Expected(page, url, times, entry)
        == Expect([Reply(page, url, entry, t)] + ref.outs, (if Hit(entry, t) then [] else [t]) + ref.fetches, ref.entry);
      assert n + 1 + |times[1..]| == n + |times|;
    }
  }

  /** Any run of `get_page` calls for one URL behaves as the reference. */
  lemma ServeAllAsExpected(page: (string, nat) -> Result<string>, db: DB, url: string,
                           times: seq<nat>, n: int, entry: Cached)
    requires CountHolds(db, url, n) && n + |times| <= MaxInt64
    requires CacheHolds(db, url, entry)
    ensures var run, ref := ServeAll(page, db, url, times), Expected(page, url, times, entry);
      && run.outs == ref.outs
      && run.fetches == ref.fetches
      && CountHolds(run.db, url, n + |times|)
      && CacheHolds(run.db, url, ref.entry)
  {
    var call := GetPageOf(page, url);
    forall d: DB, t: nat, m: int, e: Cached | CountHolds(d, url, m) && m < MaxInt64 && CacheHolds(d, url, e)
      ensures Behaves(page, url, call, d, t, m, e)
    {
      OneCall(page, d, url, t, m, e);
    }
    ServeAsExpected(page, url, call, db, times, n, entry);
  }

  /** A fresh database holds no counter and no cached page. */
  lemma EmptyServes(url: string)
    ensures CountHolds(Empty, url, 0) && CacheHolds(Empty, url, None)
  {
    EmptyHasNothing(CountKey(url), 0);
    forall t: nat ensures Empty.Lookup(CacheKey(url), t) == None {
      EmptyHasNothing(CacheKey(url), t);
    }
  }

  /** Two calls for the same URL less than `Expiration` seconds apart, on a
      fresh database whose origin answers the first at an instant whose
      deadline the server accepts: one fetch, the same text twice, and the
      counter at 2. */
  lemma TwoCallsFetchOnce(page: (string, nat) -> Result<string>, url: string, t1: nat, t2: nat)
    requires t1 <= t2 < t1 + Expiration
    requires page(url, t1).Ok? && ExpireFits(Expiration, t1)
    ensures var run := ServeAll(page, Empty, url, [t1, t2]);
      && run.fetches == [t1]
      && run.outs == [page(url, t1), page(url, t1)]
      && run.db.Counter(CountKey(url), t2) == Some(2)
  {
    EmptyServes(url);
    ServeAllAsExpected(page, Empty, url, [t1, t2], 0, None);
    var run := ServeAll(page, Empty, url, [t1, t2]);
    PersistentKey(run.db, CountKey(url), 0, t2);
    var cached := NextEntry(page, url, None, t1);
    assert cached == Some((page(url, t1).value, t1 + Expiration));
    assert [t1, t2][1..] == [t2];
    assert Hit(cached, t2) && [t2][1..] == [];
    assert Reply(page, url, cached, t2) == page(url, t1);
    assert Expected(page, url, [], NextEntry(page, url, cached, t2)).outs == [];
    var second := Expected(page, url, [t2], cached);
    assert second.outs == [page(url, t1)] && second.fetches == [];
  }

  /** A call at or after the cached entry's deadline misses and fetches
      again, whatever was cached. */
  lemma ExpiredRefetches(page: (string, nat) -> Result<string>, db: DB, url: string, n: int,
                         s: string, deadline: nat, t: nat)
    requires CountHolds(db, url, n) && n < MaxInt64
    requires CacheHolds(db, url, Some((s, deadline)))
    requires deadline <= t
    ensures GetPage(page, db, url, t).fetched
    ensures ExpireFits(Expiration, t) ==> GetPage(page, db, url, t).out == page(url, t)
  {
    OneCall(page, db, url, t, n, Some((s, deadline)));
  }

  // ------------------------------------------------ the imperative code

  /** The web server `requests.get` reaches: `page` says what a GET of a URL
      at an instant returns, and `fetches` logs every request made. */
  class Origin {
    const page: (string, nat) -> Result<string>
    var fetches: seq<(string, nat)>

    constructor (page: (string, nat) -> Result<string>)
      ensures this.page == page && fetches == []
    {
      this.page := page;
      fetches := [];
    }

    /** `requests.get(url).text`. */
    method Get(url: string, now: nat) returns (r: Result<string>)
      modifies this
      ensures r == page(url, now)
      ensures fetches == old(fetches) + [(url, now)]
    {
      fetches := fetches + [(url, now)];
      r := page(url, now);
    }
  }

  /** The wrapper `cache_page(expiration)` builds, around `origin.Get`. */
  method CachePageCall(expiration: int, redis: RedisStore, origin: Origin, url: string, now: nat)
    returns (res: Result<string>)
    modifies redis, origin
    ensures var spec := CachePage(expiration, origin.page, old(redis.State()), url, now);
      && res == spec.out
      && redis.State() == spec.db
      && origin.fetches == old(origin.fetches) + if spec.fetched then [(url, now)] else []
  {
    var cached := redis.State().Get(CacheKey(url), now);
    if cached.Err? {
      return Err(cached.error);
    }
    if cached.value.Some? {
      var text := Utf8Decode(cached.value.value);
      if text.None? {
        return Err(UnicodeDecodeError);
      }
      return Ok(text.value);
    }
    var content := origin.Get(url, now);
    if content.Err? {
      return Err(content.error);
    }
    var stored := redis.SetEx(CacheKey(url), expiration, Utf8Encode(content.value), now);
    if stored.Err? {
      return Err(stored.error);
    }
    res := Ok(content.value);
  }

  /** `get_page(url)` against the server `redis` and the web server `origin`. */
  method GetPageCall(redis: RedisStore, origin: Origin, url: string, now: nat) returns (res: Result<string>)
    modifies redis, origin
    ensures var spec := GetPage(origin.page, old(redis.State()), url, now);
      && res == spec.out
      && redis.State() == spec.db
      && origin.fetches == old(origin.fetches) + if spec.fetched then [(url, now)] else []
  {
    var counted := redis.Incr(CountKey(url), now);
    if counted.Err? {
      return Err(counted.error);
    }
    res := CachePageCall(Expiration, redis, origin, url, now);
  }
}

/** The part of a Redis server the two programs talk to: one keyspace of
    byte strings and lists, optional deadlines on an abstract clock, and the
    commands GET, SET, SETEX, INCR, RPUSH, LRANGE and FLUSHDB.

    A key whose deadline has come is treated as absent by every command; it is
    hidden rather than deleted, which no command can tell apart from the
    server's own lazy deletion. */
module Redis {
  import opened Wrappers
  import opened Encoding

  /** What a key holds: a byte string (counters are byte strings holding
      decimal text) or a list of byte strings. */
  datatype Entry = Str(bytes: Bytes) | List(items: seq<Bytes>)

  /** A command's new database and its reply. */
  datatype Step<T> = Step(db: DB, out: Result<T>)

  /** Redis's LRANGE indexing: negative indices count from the end, and the
      range is clipped to the list. */
  function Range(items: seq<Bytes>, start: int, stop: int): (r: seq<Bytes>)
    ensures |r| <= |items|
    ensures start == 0 && stop == -1 ==> r == items
    ensures 0 <= start <= stop < |items| ==> r == items[start..stop + 1]
    ensures forall i :: 0 <= i < |r| ==> r[i] in items
  {
    var len := |items|;
    var s := if start < 0 then len + start else start;
    var e := if stop < 0 then len + stop else stop;
    var s := if s < 0 then 0 else s;
    if s > e || s >= len then []
    else items[s..if e >= len then len else e + 1]
  }

  /** SETEX accepts a ttl of `ttl` seconds at `now`: it is positive, and
      the deadline in milliseconds, `(now + ttl) * 1000`, fits a signed
      64-bit integer. */
  predicate ExpireFits(ttl: int, now: nat) {
    0 < ttl && (now + ttl) * 1000 <= MaxInt64
  }

  /** The whole server state: each key's value and, for some keys, the
      instant from which the key no longer exists. */
  datatype DB = DB(data: map<string, Entry>, expiry: map<string, nat>)
  {
    predicate Live(key: string, now: nat) {
      key in data && (key !in expiry || now < expiry[key])
    }

    /** What a client sees under `key` at time `now`. */
    function Lookup(key: string, now: nat): Option<Entry> {
      if Live(key, now) then Some(data[key]) else None
    }

    /** The value of a counter: 0 for an absent key, the number a string
        holds when the server's integer parser accepts it, None otherwise. */
    function Counter(key: string, now: nat): Option<int> {
      match Lookup(key, now)
      case None => Some(0)
      case Some(Str(b)) => RedisInt(b)
      case Some(List(_)) => None
    }

    /** The items of a list: empty for an absent key, None for a string. */
    function ListAt(key: string, now: nat): Option<seq<Bytes>> {
      match Lookup(key, now)
      case None => Some([])
      case Some(List(items)) => Some(items)
      case Some(Str(_)) => None
    }

    /** GET: the bytes under `key`, None for a missing or expired key, an
        error for a list. */
    function Get(key: string, now: nat): (r: Result<Option<Bytes>>)
      ensures r == Ok(None) <==> !Live(key, now)
      ensures r.Err? <==> Lookup(key, now).Some? && Lookup(key, now).value.List?
      ensures r.Err? ==> r.error == WrongType
      ensures r.Ok? && r.value.Some? ==> Lookup(key, now) == Some(Str(r.value.value))
    {
      match Lookup(key, now)
      case None => Ok(None)
      case Some(Str(b)) => Ok(Some(b))
      case Some(List(_)) => Err(WrongType)
    }

    /** SET: stores `v` under `key` for good, dropping any deadline. */
    function Set(key: string, v: Bytes): (r: DB)
      ensures forall t: nat :: r.Lookup(key, t) == Some(Str(v))
      ensures forall k, t: nat :: k != key ==> r.Lookup(k, t) == Lookup(k, t)
    {
      DB(data[key := Str(v)], expiry - {key})
    }

    /** SETEX: stores `v` under `key` until `now + ttl`. The server reads
        the ttl as a 64-bit integer, then refuses one that is not positive
        or whose deadline in milliseconds would not fit 64 bits. */
    function SetEx(key: string, ttl: int, v: Bytes, now: nat): (r: Result<DB>)
      ensures r.Ok? <==> ExpireFits(ttl, now)
      ensures r.Err? && MinInt64 <= ttl <= MaxInt64 ==> r.error == InvalidExpireTime
      ensures r.Err? && !(MinInt64 <= ttl <= MaxInt64) ==> r.error == NotAnInteger
      ensures r.Ok? ==> forall t: nat :: r.value.Lookup(key, t) == if t < now + ttl then Some(Str(v)) else None
      ensures r.Ok? ==> forall k, t: nat :: k != key ==> r.value.Lookup(k, t) == Lookup(k, t)
      ensures r.Ok? ==> r.value.expiry == expiry[key := now + ttl]
    {
      if ttl < MinInt64 || MaxInt64 < ttl then Err(NotAnInteger)
      else if ttl <= 0 || MaxInt64 / 1000 < ttl then Err(InvalidExpireTime)
      else if MaxInt64 < ttl * 1000 + now * 1000 then Err(InvalidExpireTime)
      else Ok(DB(data[key := Str(v)], expiry[key := now + ttl]))
    }

    /** INCR: adds one to a counter, creating it at 0 when absent. A key
        that keeps living keeps its deadline; one created afresh has none. */
    function Incr(key: string, now: nat): (r: Step<int>)
      ensures r.out.Ok? <==> Counter(key, now).Some? && Counter(key, now).value < MaxInt64
      ensures r.out.Ok? ==> r.out.value == Counter(key, now).value + 1
      ensures r.out.Ok? ==> r.db.Counter(key, now) == Some(r.out.value)
      ensures r.out.Ok? ==> key in r.db.data && r.db.data[key].Str?
      ensures r.out.Ok? ==> r.db.expiry == if Live(key, now) then expiry else expiry - {key}
      ensures r.out.Err? ==> r.db == this
      ensures Lookup(key, now).Some? && Lookup(key, now).value.List? ==> r.out == Err(WrongType)
      ensures forall k, t: nat :: k != key ==> r.db.Lookup(k, t) == Lookup(k, t)
    {
      match Lookup(key, now)
      case None =>
        RedisIntIff(DecimalEncode(1), 1);
        Step(DB(data[key := Str(DecimalEncode(1))], expiry - {key}), Ok(1))
      case Some(List(_)) => Step(this, Err(WrongType))
      case Some(Str(b)) =>
        match RedisInt(b)
        case None => Step(this, Err(NotAnInteger))
        case Some(n) =>
          if n == MaxInt64 then Step(this, Err(IncrOverflow))
          else
            RedisIntIff(DecimalEncode(n + 1), n + 1);
            Step(DB(data[key := Str(DecimalEncode(n + 1))], expiry), Ok(n + 1))
    }

    /** RPUSH: appends `v` to the list under `key`, creating the list when
        absent, and replies with the new length. */
    function RPush(key: string, v: Bytes, now: nat): (r: Step<nat>)
      ensures r.out.Ok? <==> ListAt(key, now).Some?
      ensures r.out.Ok? ==> r.db.ListAt(key, now) == Some(ListAt(key, now).value + [v])
      ensures r.out.Ok? ==> r.out.value == |ListAt(key, now).value| + 1
      ensures r.out.Ok? ==> key in r.db.data && r.db.data[key].List?
      ensures r.out.Ok? ==> r.db.expiry == if Live(key, now) then expiry else expiry - {key}
      ensures r.out.Err? ==> r.db == this && r.out.error == WrongType
      ensures forall k, t: nat :: k != key ==> r.db.Lookup(k, t) == Lookup(k, t)
    {
      match Lookup(key, now)
      case None =>
        assert [] + [v] == [v];
        Step(DB(data[key := List([v])], expiry - {key}), Ok(1))
      case Some(List(items)) => Step(DB(data[key := List(items + [v])], expiry), Ok(|items| + 1))
      case Some(Str(_)) => Step(this, Err(WrongType))
    }

    /** LRANGE: the items of the list under `key` from `start` to `stop`. */
    function LRange(key: string, start: int, stop: int, now: nat): (r: Result<seq<Bytes>>)
      ensures r.Err? <==> ListAt(key, now).None?
      ensures r.Err? ==> r.error == WrongType
      ensures r.Ok? && start == 0 && stop == -1 ==> r.value == ListAt(key, now).value
    {
      match Lookup(key, now)
      case None => Ok([])
      case Some(List(items)) => Ok(Range(items, start, stop))
      case Some(Str(_)) => Err(WrongType)
    }
  }

  /** FLUSHDB: the empty database. */
  const Empty: DB := DB(map[], map[])

  lemma EmptyHasNothing(k: string, t: nat)
    ensures Empty.Lookup(k, t) == None
    ensures Empty.Counter(k, t) == Some(0) && Empty.ListAt(k, t) == Some([])
  {
  }

  /** A key without a deadline looks the same at every instant. */
  lemma PersistentKey(db: DB, k: string, t1: nat, t2: nat)
    requires k !in db.expiry
    ensures db.Lookup(k, t1) == db.Lookup(k, t2)
    ensures db.Counter(k, t1) == db.Counter(k, t2) && db.ListAt(k, t1) == db.ListAt(k, t2)
  {
  }

  /** A connection to the server: the keyspace lives in this object and every
      command is a call that updates it. */
  class RedisStore {
    var data: map<string, Entry>
    var expiry: map<string, nat>

    function State(): DB
      reads this
    {
      DB(data, expiry)
    }

    constructor ()
      ensures State() == Empty
    {
      data, expiry := map[], map[];
    }

    method FlushDb()
      modifies this
      ensures State() == Empty
    {
      data, expiry := map[], map[];
    }

    method Set(key: string, v: Bytes)
      modifies this
      ensures State() == old(State()).Set(key, v)
    {
      data := data[key := Str(v)];
      expiry := expiry - {key};
    }

    method SetEx(key: string, ttl: int, v: Bytes, now: nat) returns (r: Result<()>)
      modifies this
      ensures old(State()).SetEx(key, ttl, v, now).Ok? <==> r.Ok?
      ensures r.Ok? ==> State() == old(State()).SetEx(key, ttl, v, now).value
      ensures r.Err? ==> State() == old(State()) && r == Err(old(State()).SetEx(key, ttl, v, now).error)
    {
      if ttl < MinInt64 || MaxInt64 < ttl {
        return Err(NotAnInteger);
      }
      if ttl <= 0 || MaxInt64 / 1000 < ttl || MaxInt64 < ttl * 1000 + now * 1000 {
        return Err(InvalidExpireTime);
      }
      data := data[key := Str(v)];
      expiry := expiry[key := now + ttl];
      r := Ok(());
    }

    method Incr(key: string, now: nat) returns (r: Result<int>)
      modifies this
      ensures State() == old(State()).Incr(key, now).db
      ensures r == old(State()).Incr(key, now).out
    {
      var step := State().Incr(key, now);
      data, expiry := step.db.data, step.db.expiry;
      r := step.out;
    }

    method RPush(key: string, v: Bytes, now: nat) returns (r: Result<nat>)
      modifies this
      ensures State() == old(State()).RPush(key, v, now).db
      ensures r == old(State()).RPush(key, v, now).out
    {
      var step := State().RPush(key, v, now);
      data, expiry := step.db.data, step.db.expiry;
      r := step.out;
    }
  }
}

/** The instrumented cache of exercise.py: `Cache.store` puts a value under a
    fresh key, wrapped by `call_history` (outer) and `count_calls` (inner),
    which keep a call counter and the lists of inputs and outputs in the
    same Redis database; `get`, `get_str` and `get_int` read values back and
    `replay` reads the history. */
module Exercise {
  import opened Wrappers
  import opened Encoding
  import opened Redis

  // ------------------------------------------------------------ values

  /** The values `store` accepts and `get` can hand back. A float is carried
      as the text Python's `repr` gives it. A `bool` passes the type hint of
      `store`, since Python's `bool` is an `int`. */
  datatype PyValue = Text(s: string) | Raw(b: Bytes) | Int(n: int) | Float(repr: string) | Bool(flag: bool)

  /** The Redis client encodes every value but a `bool`, which it refuses
      with a DataError. */
  predicate Encodable(v: PyValue) { !v.Bool? }

  /** How the Redis client turns a value into the bytes it sends: bytes as
      they are, text as UTF-8, numbers as the text of their `repr`. */
  function EncodeValue(v: PyValue): (r: Bytes)
    requires Encodable(v)
    ensures v.Raw? ==> r == v.b
    ensures v.Text? ==> Utf8Decode(r) == Some(v.s)
    ensures v.Int? ==> ParseDecimal(r) == Some(v.n) && |r| > 0
  {
    match v
    case Raw(b) => b
    case Text(s) => Utf8RoundTrip(s); Utf8Encode(s)
    case Int(n) => DecimalRoundTrip(n); DecimalEncode(n)
    case Float(text) => Utf8Encode(text)
  }

  /** `str(args)` for the one-element tuple of arguments `store` receives,
      given the `repr` of that argument. */
  function TupleRepr(itemRepr: string): string {
    "(" + itemRepr + ",)"
  }

  // ------------------------------------------------------------ keys

  /** `Cache.store.__qualname__`, the name both decorators file their data under. */
  const StoreName: string := "Cache.store"

  function InputsKey(name: string): string { name + ":inputs" }

  function OutputsKey(name: string): string { name + ":outputs" }

  predicate IsHexDigit(c: char) { '0' <= c <= '9' || 'a' <= c <= 'f' }

  /** The text of `uuid.uuid4()`: 32 lower-case hex digits in groups of
      8-4-4-4-12 separated by dashes. */
  predicate UuidShaped(k: string) {
    |k| == 36 &&
    forall i :: 0 <= i < |k| ==> if i in {8, 13, 18, 23} then k[i] == '-' else IsHexDigit(k[i])
  }

  /** The counter and the two history lists of `store`. */
  predicate IsBookkeeping(k: string) {
    k == StoreName || k == InputsKey(StoreName) || k == OutputsKey(StoreName)
  }

  /** A generated key can never land on the bookkeeping of `store`: those
      start with a capital letter, which a UUID never holds. */
  lemma UuidIsNotBookkeeping(k: string)
    requires UuidShaped(k)
    ensures !IsBookkeeping(k)
  {
    assert IsHexDigit(k[0]);
    assert StoreName[0] == 'C' && InputsKey(StoreName)[0] == 'C' && OutputsKey(StoreName)[0] == 'C';
  }

  // ------------------------------------------------------------ decorators

  /** `count_calls`: INCR the counter under `name`, then run the wrapped
      operation on what that left. An error from INCR stops the call. */
  function CountCalls<T>(name: string, now: nat, body: DB -> Step<T>, db: DB): Step<T> {
    var counted := db.Incr(name, now);
    if counted.out.Err? then Step(counted.db, Err(counted.out.error))
    else body(counted.db)
  }

  /** `call_history`: RPUSH the arguments' text to `name:inputs`, run the
      wrapped operation, RPUSH the text of its result to `name:outputs` and
      return that result. An error at any step stops the call, leaving what
      the earlier steps did. */
  function CallHistory<T>(name: string, args: string, show: T -> string, now: nat,
                          body: DB -> Step<T>, db: DB): Step<T>
  {
    var pushed := db.RPush(InputsKey(name), Utf8Encode(args), now);
    if pushed.out.Err? then Step(pushed.db, Err(pushed.out.error))
    else
      var ran := body(pushed.db);
      if ran.out.Err? then ran
      else
        var recorded := ran.db.RPush(OutputsKey(name), Utf8Encode(show(ran.out.value)), now);
        if recorded.out.Err? then Step(recorded.db, Err(recorded.out.error))
        else Step(recorded.db, ran.out)
  }

  /** The counter goes up by exactly one and the wrapped operation's result
      comes back unchanged, provided the operation leaves the counter alone. */
  lemma CountCallsCounts<T>(name: string, now: nat, body: DB -> Step<T>, db: DB)
    requires db.Counter(name, now).Some? && db.Counter(name, now).value < MaxInt64
    requires forall d: DB :: body(d).db.Lookup(name, now) == d.Lookup(name, now)
    ensures CountCalls(name, now, body, db).db.Counter(name, now) == Some(db.Counter(name, now).value + 1)
    ensures CountCalls(name, now, body, db).out == body(db.Incr(name, now).db).out
  {
    var counted := db.Incr(name, now);
    assert counted.db.Lookup(name, now) == body(counted.db).db.Lookup(name, now);
  }

  /** One input is recorded before the wrapped operation runs, whatever it
      then does; when it succeeds, one output is recorded after it and its
      result is returned unchanged. */
  lemma CallHistoryRecords<T>(name: string, args: string, show: T -> string, now: nat,
                              body: DB -> Step<T>, db: DB)
    requires db.ListAt(InputsKey(name), now).Some? && db.ListAt(OutputsKey(name), now).Some?
    requires forall d: DB :: body(d).db.Lookup(InputsKey(name), now) == d.Lookup(InputsKey(name), now)
    requires forall d: DB :: body(d).db.Lookup(OutputsKey(name), now) == d.Lookup(OutputsKey(name), now)
    ensures var r := CallHistory(name, args, show, now, body, db);
      r.db.ListAt(InputsKey(name), now) == Some(db.ListAt(InputsKey(name), now).value + [Utf8Encode(args)])
    ensures var r := CallHistory(name, args, show, now, body, db);
      var ran := body(db.RPush(InputsKey(name), Utf8Encode(args), now).db);
      && r.out == ran.out
      && (ran.out.Ok? ==>
            r.db.ListAt(OutputsKey(name), now)
              == Some(db.ListAt(OutputsKey(name), now).value + [Utf8Encode(show(ran.out.value))]))
  {
    var pushed := db.RPush(InputsKey(name), Utf8Encode(args), now);
    var ran := body(pushed.db);
    assert pushed.db.Lookup(InputsKey(name), now) == ran.db.Lookup(InputsKey(name), now);
    assert pushed.db.Lookup(OutputsKey(name), now) == ran.db.Lookup(OutputsKey(name), now);
  }

  // ------------------------------------------------------------ store

  /** The body of `store`: SET the value under the generated key and return
      the key. A value the client cannot encode fails before reaching the
      server. */
  function StoreBody(key: string, data: PyValue, db: DB): Step<string> {
    if !Encodable(data) then Step(db, Err(DataError))
    else Step(db.Set(key, EncodeValue(data)), Ok(key))
  }

  /** `store` as decorated: `call_history` around `count_calls` around the
      body. `str()` of the returned key is the key itself. */
  function StoreSpec(db: DB, now: nat, args: string, data: PyValue, key: string): Step<string> {
    CallHistory(StoreName, args, KeyText(), now, CountedStore(now, key, data), db)
  }

  /** `str()` of the key `store` returns. */
  function KeyText(): string -> string { (k: string) => k }

  /** The undecorated `store`, as an operation on the database. */
  function StoreBodyOf(key: string, data: PyValue): DB -> Step<string> {
    (d: DB) => StoreBody(key, data, d)
  }

  /** `count_calls(store)`, as an operation on the database. */
  function CountedStore(now: nat, key: string, data: PyValue): DB -> Step<string> {
    (d: DB) => CountCalls(StoreName, now, StoreBodyOf(key, data), d)
  }

  /** The four commands of one `store` call, in the order they reach the
      server; an error stops the sequence where it occurs. */
  function StoreSteps(db: DB, now: nat, args: string, data: PyValue, key: string): Step<string> {
    var pushed := db.RPush(InputsKey(StoreName), Utf8Encode(args), now);
    if pushed.out.Err? then Step(pushed.db, Err(pushed.out.error))
    else
      var counted := pushed.db.Incr(StoreName, now);
      if counted.out.Err? then Step(counted.db, Err(counted.out.error))
      else if !Encodable(data) then Step(counted.db, Err(DataError))
      else
        var stored := counted.db.Set(key, EncodeValue(data));
        var recorded := stored.RPush(OutputsKey(StoreName), Utf8Encode(key), now);
        if recorded.out.Err? then Step(recorded.db, Err(recorded.out.error))
        else Step(recorded.db, Ok(key))
  }

  /** The decorator order fixes the order of the side effects: RPUSH of the
      arguments, INCR of the counter, SET of the value, RPUSH of the key. */
  lemma DecoratorOrder(db: DB, now: nat, args: string, data: PyValue, key: string)
    ensures StoreSpec(db, now, args, data, key) == StoreSteps(db, now, args, data, key)
  {
  }

  /** The bookkeeping of `store` is consistent: the counter and both lists
      carry no deadline, and all three have grown together. */
  predicate Lockstep(db: DB) {
    && StoreName !in db.expiry
    && InputsKey(StoreName) !in db.expiry
    && OutputsKey(StoreName) !in db.expiry
    && db.ListAt(InputsKey(StoreName), 0).Some?
    && db.ListAt(OutputsKey(StoreName), 0).Some?
    && |db.ListAt(InputsKey(StoreName), 0).value| == |db.ListAt(OutputsKey(StoreName), 0).value|
    && db.Counter(StoreName, 0) == Some(|db.ListAt(InputsKey(StoreName), 0).value|)
  }

  /** A flushed database is consistent, with nothing recorded. */
  lemma EmptyIsLockstep()
    ensures Lockstep(Empty) && Empty.Counter(StoreName, 0) == Some(0)
  {
    EmptyHasNothing(StoreName, 0);
    EmptyHasNothing(InputsKey(StoreName), 0);
    EmptyHasNothing(OutputsKey(StoreName), 0);
  }

  /** On a consistent database the RPUSH of the arguments and the INCR of
      the counter succeed, and leave the deadlines and the outputs list as
      they were. */
  lemma PushAndCountSucceed(db: DB, now: nat, args: string)
    requires Lockstep(db) && db.Counter(StoreName, 0).value < MaxInt64
    ensures var pushed := db.RPush(InputsKey(StoreName), Utf8Encode(args), now);
      var counted := pushed.db.Incr(StoreName, now);
      && pushed.out.Ok? && counted.out.Ok?
      && counted.db.expiry == db.expiry
      && counted.db.Lookup(OutputsKey(StoreName), now) == db.Lookup(OutputsKey(StoreName), now)
  {
    var inputs := InputsKey(StoreName);
    PersistentKey(db, StoreName, 0, now);
    PersistentKey(db, inputs, 0, now);
    var pushed := db.RPush(inputs, Utf8Encode(args), now);
    assert pushed.db.Lookup(StoreName, now) == db.Lookup(StoreName, now);
  }

  /** On a consistent database none of the four commands fails, and the
      client encodes the value. */
  lemma StoreStepsSucceed(db: DB, now: nat, args: string, data: PyValue, key: string)
    requires UuidShaped(key) && Lockstep(db) && Encodable(data)
    requires db.Counter(StoreName, 0).value < MaxInt64
    ensures StoreSteps(db, now, args, data, key).out == Ok(key)
    ensures StoreSteps(db, now, args, data, key).db.expiry == db.expiry - {key}
  {
    UuidIsNotBookkeeping(key);
    PushAndCountSucceed(db, now, args);
    var outputs := OutputsKey(StoreName);
    PersistentKey(db, outputs, 0, now);
    var counted := db.RPush(InputsKey(StoreName), Utf8Encode(args), now).db.Incr(StoreName, now);
    var stored := counted.db.Set(key, EncodeValue(data));
    assert stored.Lookup(outputs, now) == db.Lookup(outputs, now);
  }

  /** What a successful `store` call leaves in the bookkeeping: one more
      count, the arguments' text after the earlier inputs, the key after the
      earlier outputs. */
  lemma StoreStepsRecord(db: DB, now: nat, args: string, data: PyValue, key: string)
    requires UuidShaped(key)
    requires StoreSteps(db, now, args, data, key).out == Ok(key)
    ensures var r := StoreSteps(db, now, args, data, key).db;
      && r.Counter(StoreName, now) == Some(db.Counter(StoreName, now).value + 1)
      && r.ListAt(InputsKey(StoreName), now)
           == Some(db.ListAt(InputsKey(StoreName), now).value + [Utf8Encode(args)])
      && r.ListAt(OutputsKey(StoreName), now)
           == Some(db.ListAt(OutputsKey(StoreName), now).value + [Utf8Encode(key)])
  {
    UuidIsNotBookkeeping(key);
    DecoratorOrder(db, now, args, data, key);
    var inputs, outputs := InputsKey(StoreName), OutputsKey(StoreName);
    var body, counting := StoreBodyOf(key, data), CountedStore(now, key, data);
    var pushed := db.RPush(inputs, Utf8Encode(args), now);
    var counted := pushed.db.Incr(StoreName, now);
    var stored := counted.db.Set(key, EncodeValue(data));
    assert stored.Lookup(outputs, now) == db.Lookup(outputs, now);
    // call_history: neither the count nor the body touches the history lists
    forall d: DB
      ensures counting(d).db.Lookup(inputs, now) == d.Lookup(inputs, now)
      ensures counting(d).db.Lookup(outputs, now) == d.Lookup(outputs, now)
    {
    }
    CallHistoryRecords(StoreName, args, KeyText(), now, counting, db);
    // count_calls: the body leaves the counter alone
    forall d: DB ensures body(d).db.Lookup(StoreName, now) == d.Lookup(StoreName, now) {
    }
    CountCallsCounts(StoreName, now, body, pushed.db);
    var ran := counting(pushed.db);
    var recorded := ran.db.RPush(outputs, Utf8Encode(key), now);
    assert recorded.db.Lookup(StoreName, now) == ran.db.Lookup(StoreName, now);
  }

  /** A successful `store` call leaves the value under the key for good and
      touches no key but that one and the bookkeeping. */
  lemma StoreStepsFrame(db: DB, now: nat, args: string, data: PyValue, key: string)
    requires UuidShaped(key) && Encodable(data)
    requires StoreSteps(db, now, args, data, key).out == Ok(key)
    ensures var r := StoreSteps(db, now, args, data, key).db;
      && (forall t: nat :: r.Lookup(key, t) == Some(Str(EncodeValue(data))))
      && (forall k, t: nat :: k != key && !IsBookkeeping(k) ==> r.Lookup(k, t) == db.Lookup(k, t))
  {
    UuidIsNotBookkeeping(key);
  }

  /** One call of `store` on a consistent database returns the key, adds
      one to the counter, appends the arguments' text and the key to the
      history, and leaves the bookkeeping consistent. */
  lemma StoreKeepsLockstep(db: DB, now: nat, args: string, data: PyValue, key: string)
    requires UuidShaped(key) && Lockstep(db) && Encodable(data)
    requires db.Counter(StoreName, 0).value < MaxInt64
    ensures var r := StoreSteps(db, now, args, data, key);
      && r.out == Ok(key)
      && r.db.Counter(StoreName, 0) == Some(db.Counter(StoreName, 0).value + 1)
      && r.db.ListAt(InputsKey(StoreName), 0)
           == Some(db.ListAt(InputsKey(StoreName), 0).value + [Utf8Encode(args)])
      && r.db.ListAt(OutputsKey(StoreName), 0)
           == Some(db.ListAt(OutputsKey(StoreName), 0).value + [Utf8Encode(key)])
      && Lockstep(r.db)
  {
    UuidIsNotBookkeeping(key);
    StoreStepsSucceed(db, now, args, data, key);
    StoreStepsRecord(db, now, args, data, key);
    var r := StoreSteps(db, now, args, data, key).db;
    var inputs, outputs := InputsKey(StoreName), OutputsKey(StoreName);
    PersistentKey(db, StoreName, 0, now);
    PersistentKey(db, inputs, 0, now);
    PersistentKey(db, outputs, 0, now);
    PersistentKey(r, StoreName, 0, now);
    PersistentKey(r, inputs, 0, now);
    PersistentKey(r, outputs, 0, now);
  }

  /** A value the client cannot encode fails `store` at the SET, after
      `call_history` recorded the arguments and `count_calls` counted the
      call, but before any output is recorded: the counter and the inputs
      run one ahead of the outputs, and the bookkeeping is no longer
      consistent. */
  lemma UnencodableBreaksLockstep(db: DB, now: nat, args: string, data: PyValue, key: string)
    requires Lockstep(db) && !Encodable(data)
    requires db.Counter(StoreName, 0).value < MaxInt64
    ensures var r := StoreSteps(db, now, args, data, key);
      && r.out == Err(DataError)
      && r.db.Counter(StoreName, 0) == Some(db.Counter(StoreName, 0).value + 1)
      && r.db.ListAt(InputsKey(StoreName), 0)
           == Some(db.ListAt(InputsKey(StoreName), 0).value + [Utf8Encode(args)])
      && r.db.ListAt(OutputsKey(StoreName), 0) == db.ListAt(OutputsKey(StoreName), 0)
      && !Lockstep(r.db)
      && forall k, t: nat :: !IsBookkeeping(k) ==> r.db.Lookup(k, t) == db.Lookup(k, t)
  {
    var inputs, outputs := InputsKey(StoreName), OutputsKey(StoreName);
    PersistentKey(db, StoreName, 0, now);
    PersistentKey(db, inputs, 0, now);
    PersistentKey(db, outputs, 0, now);
    var pushed := db.RPush(inputs, Utf8Encode(args), now);
    assert pushed.db.Lookup(StoreName, now) == db.Lookup(StoreName, now);
    var counted := pushed.db.Incr(StoreName, now);
    assert counted.db.Lookup(inputs, now) == pushed.db.Lookup(inputs, now);
    PersistentKey(counted.db, StoreName, 0, now);
    PersistentKey(counted.db, inputs, 0, now);
    PersistentKey(counted.db, outputs, 0, now);
  }

  /** Besides the bookkeeping, one call of `store` on a consistent database
      changes exactly one key: the value is stored under it for good. */
  lemma StoreEffect(db: DB, now: nat, args: string, data: PyValue, key: string)
    requires UuidShaped(key) && Lockstep(db) && Encodable(data)
    requires db.Counter(StoreName, 0).value < MaxInt64
    ensures var r := StoreSteps(db, now, args, data, key);
      && r.out == Ok(key)
      && (forall t: nat :: r.db.Lookup(key, t) == Some(Str(EncodeValue(data))))
      && (forall k, t: nat :: k != key && !IsBookkeeping(k) ==> r.db.Lookup(k, t) == db.Lookup(k, t))
  {
    StoreStepsSucceed(db, now, args, data, key);
    StoreStepsFrame(db, now, args, data, key);
  }

  /** One call to `store`: when it happens, what is stored, and under which key. */
  datatype StoreCall = StoreCall(now: nat, data: PyValue, key: string)

  /** One call of `store`, as a function of the database it runs on. */
  function StoreOne(repr: PyValue -> string): (DB, StoreCall) -> Step<string> {
    (d: DB, c: StoreCall) => StoreSteps(d, c.now, TupleRepr(repr(c.data)), c.data, c.key)
  }

  /** A run of calls in order, each applied by `step` to the database the
      previous one left; the first error stops the run. */
  function Run(db: DB, step: (DB, StoreCall) -> Step<string>, calls: seq<StoreCall>): Step<seq<string>>
    decreases |calls|
  {
    if calls == [] then Step(db, Ok([]))
    else
      var first := step(db, calls[0]);
      if first.out.Err? then Step(first.db, Err(first.out.error))
      else
        var rest := Run(first.db, step, calls[1..]);
        if rest.out.Err? then rest else Step(rest.db, Ok([first.out.value] + rest.out.value))
  }

  /** A run of `store` calls. */
  function StoreAll(db: DB, repr: PyValue -> string, calls: seq<StoreCall>): Step<seq<string>> {
    Run(db, StoreOne(repr), calls)
  }

  /** What the inputs list gains from a run of calls. */
  function ArgsRecords(repr: PyValue -> string, calls: seq<StoreCall>): (r: seq<Bytes>)
    ensures |r| == |calls|
    ensures forall i :: 0 <= i < |calls| ==> r[i] == Utf8Encode(TupleRepr(repr(calls[i].data)))
  {
    if calls == [] then [] else [Utf8Encode(TupleRepr(repr(calls[0].data)))] + ArgsRecords(repr, calls[1..])
  }

  /** The keys of a run of calls. */
  function KeysOf(calls: seq<StoreCall>): (r: seq<string>)
    ensures |r| == |calls|
    ensures forall i :: 0 <= i < |calls| ==> r[i] == calls[i].key
  {
    if calls == [] then [] else [calls[0].key] + KeysOf(calls[1..])
  }

  /** What the outputs list gains from a run of calls. */
  function KeyRecords(calls: seq<StoreCall>): (r: seq<Bytes>)
    ensures |r| == |calls|
    ensures forall i :: 0 <= i < |calls| ==> r[i] == Utf8Encode(calls[i].key)
  {
    if calls == [] then [] else [Utf8Encode(calls[0].key)] + KeyRecords(calls[1..])
  }

  /** `next` is what one call `c`, whose arguments read `arg`, makes of the
      consistent database `d` when it records itself as `store` does. */
  predicate Records(d: DB, next: Step<string>, c: StoreCall, arg: Bytes)
    requires Lockstep(d)
  {
    && next.out == Ok(c.key)
    && Lockstep(next.db)
    && next.db.Counter(StoreName, 0) == Some(d.Counter(StoreName, 0).value + 1)
    && next.db.ListAt(InputsKey(StoreName), 0) == Some(d.ListAt(InputsKey(StoreName), 0).value + [arg])
    && next.db.ListAt(OutputsKey(StoreName), 0) == Some(d.ListAt(OutputsKey(StoreName), 0).value + [Utf8Encode(c.key)])
  }

  /** The calls a run is made of: a UUID-shaped key and a value the client
      encodes. */
  predicate WellFormed(c: StoreCall) { UuidShaped(c.key) && Encodable(c.data) }

  /** Every well-formed call of `store` on a consistent database whose
      counter can still grow records itself. */
  lemma StoreOneRecords(repr: PyValue -> string)
    ensures forall d: DB, c: StoreCall {:trigger Records(d, StoreOne(repr)(d, c), c, Utf8Encode(TupleRepr(repr(c.data))))}
      | Lockstep(d) && WellFormed(c) && d.Counter(StoreName, 0).value < MaxInt64 ::
      Records(d, StoreOne(repr)(d, c), c, Utf8Encode(TupleRepr(repr(c.data))))
  {
    forall d: DB, c: StoreCall | Lockstep(d) && WellFormed(c) && d.Counter(StoreName, 0).value < MaxInt64
      ensures Records(d, StoreOne(repr)(d, c), c, Utf8Encode(TupleRepr(repr(c.data))))
    {
      StoreKeepsLockstep(d, c.now, TupleRepr(repr(c.data)), c.data, c.key);
    }
  }

  /** A run of calls each of which records itself: every call returned its
      own key, in call order; the counter went up by the number of calls;
      the inputs list gained each call's arguments and the outputs list each
      returned key, in call order. */
  lemma {:induction false} RunRecords(db: DB, step: (DB, StoreCall) -> Step<string>,
                                      repr: PyValue -> string, calls: seq<StoreCall>)
    requires forall d: DB, c: StoreCall {:trigger Records(d, step(d, c), c, Utf8Encode(TupleRepr(repr(c.data))))}
      | Lockstep(d) && WellFormed(c) && d.Counter(StoreName, 0).value < MaxInt64 ::
      Records(d, step(d, c), c, Utf8Encode(TupleRepr(repr(c.data))))
    requires Lockstep(db)
    requires db.Counter(StoreName, 0).value + |calls| <= MaxInt64
    requires forall i :: 0 <= i < |calls| ==> WellFormed(calls[i])
    ensures var run := Run(db, step, calls);
      && run.out == Ok(KeysOf(calls))
      && Lockstep(run.db)
      && run.db.ListAt(InputsKey(StoreName), 0)
           == Some(db.ListAt(InputsKey(StoreName), 0).value + ArgsRecords(repr, calls))
      && run.db.ListAt(OutputsKey(StoreName), 0)
           == Some(db.ListAt(OutputsKey(StoreName), 0).value + KeyRecords(calls))
    decreases |calls|
  {
    var ins := db.ListAt(InputsKey(StoreName), 0).value;
    var outs := db.ListAt(OutputsKey(StoreName), 0).value;
    if calls == [] {
      assert ins + ArgsRecords(repr, calls) == ins;
      assert outs + KeyRecords(calls) == outs;
    } else {
      var c := calls[0];
      var arg := Utf8Encode(TupleRepr(repr(c.data)));
      var first := step(db, c);
      assert Records(db, first, c, arg);
      assert forall i :: 0 <= i < |calls[1..]| ==> WellFormed(calls[1..][i]) by {
        forall i | 0 <= i < |calls[1..]| ensures WellFormed(calls[1..][i]) {
          assert calls[1..][i] == calls[i + 1];
        }
      }
      RunRecords(first.db, step, repr, calls[1..]);
      var rest := Run(first.db, step, calls[1..]);
      assert Run(db, step, calls) == Step(rest.db, Ok([c.key] + rest.out.value));
      assert KeysOf(calls) == [c.key] + KeysOf(calls[1..]);
      assert ArgsRecords(repr, calls) == [arg] + ArgsRecords(repr, calls[1..]);
      assert KeyRecords(calls) == [Utf8Encode(c.key)] + KeyRecords(calls[1..]);
      AppendAssoc(ins, [arg], ArgsRecords(repr, calls[1..]));
      AppendAssoc(outs, [Utf8Encode(c.key)], KeyRecords(calls[1..]));
    }
  }

  /** Over such a run the counter grows by the number of calls. */
  lemma RunCounts(db: DB, step: (DB, StoreCall) -> Step<string>, repr: PyValue -> string, calls: seq<StoreCall>)
    requires forall d: DB, c: StoreCall {:trigger Records(d, step(d, c), c, Utf8Encode(TupleRepr(repr(c.data))))}
      | Lockstep(d) && WellFormed(c) && d.Counter(StoreName, 0).value < MaxInt64 ::
      Records(d, step(d, c), c, Utf8Encode(TupleRepr(repr(c.data))))
    requires Lockstep(db)
    requires db.Counter(StoreName, 0).value + |calls| <= MaxInt64
    requires forall i :: 0 <= i < |calls| ==> WellFormed(calls[i])
    ensures Run(db, step, calls).db.Counter(StoreName, 0) == Some(db.Counter(StoreName, 0).value + |calls|)
  {
    RunRecords(db, step, repr, calls);
    LockstepCount(db, Run(db, step, calls).db, ArgsRecords(repr, calls), |calls|);
  }

  lemma AppendAssoc<T>(a: seq<T>, b: seq<T>, c: seq<T>)
    ensures a + b + c == a + (b + c)
  {
  }

  /** After any run of `store` calls on a consistent database: the calls'
      keys come back in order, the counter and both lists have grown by one
      entry per call, and the bookkeeping is still consistent. */
  lemma StoreAllRecords(db: DB, repr: PyValue -> string, calls: seq<StoreCall>)
    requires Lockstep(db)
    requires db.Counter(StoreName, 0).value + |calls| <= MaxInt64
    requires forall i :: 0 <= i < |calls| ==> WellFormed(calls[i])
    ensures var run := StoreAll(db, repr, calls);
      && run.out == Ok(KeysOf(calls))
      && Lockstep(run.db)
      && run.db.Counter(StoreName, 0) == Some(db.Counter(StoreName, 0).value + |calls|)
      && run.db.ListAt(InputsKey(StoreName), 0)
           == Some(db.ListAt(InputsKey(StoreName), 0).value + ArgsRecords(repr, calls))
      && run.db.ListAt(OutputsKey(StoreName), 0)
           == Some(db.ListAt(OutputsKey(StoreName), 0).value + KeyRecords(calls))
  {
    StoreOneRecords(repr);
    RunRecords(db, StoreOne(repr), repr, calls);
    RunCounts(db, StoreOne(repr), repr, calls);
  }

  /** On consistent bookkeeping the counter is the number of recorded
      inputs, so it grows with them. */
  lemma LockstepCount(before: DB, after: DB, added: seq<Bytes>, n: nat)
    requires Lockstep(before) && Lockstep(after) && |added| == n
    requires after.ListAt(InputsKey(StoreName), 0) == Some(before.ListAt(InputsKey(StoreName), 0).value + added)
    ensures after.Counter(StoreName, 0) == Some(before.Counter(StoreName, 0).value + n)
  {
  }

  // ------------------------------------------------------------ the Cache

  /** `Cache.get`'s conversion of found bytes: the converter's result, or
      the raw bytes when there is no converter. */
  function Convert(b: Bytes, fn: Option<Bytes -> Result<PyValue>>): Result<Option<PyValue>> {
    match fn
    case None => Ok(Some(Raw(b)))
    case Some(f) =>
      match f(b)
      case Ok(v) => Ok(Some(v))
      case Err(e) => Err(e)
  }

  /** The converter of `get_str`: `lambda d: d.decode("utf-8")`. */
  function DecodeText(b: Bytes): (r: Result<PyValue>)
    ensures r.Ok? <==> Utf8Decode(b).Some?
    ensures r.Ok? ==> r.value.Text? && Utf8Encode(r.value.s) == b
    ensures r.Err? ==> r.error == UnicodeDecodeError
  {
    match Utf8Decode(b)
    case None => Err(UnicodeDecodeError)
    case Some(s) => Utf8Canonical(b); Ok(Text(s))
  }

  /** The converter of `get_int`: `int`. */
  function ParseInt(b: Bytes): (r: Result<PyValue>)
    ensures r.Ok? <==> ParseDecimal(b).Some?
    ensures r.Ok? ==> r == Ok(Int(ParseDecimal(b).value))
    ensures r.Err? ==> r.error == IntValueError
  {
    match ParseDecimal(b)
    case None => Err(IntValueError)
    case Some(n) => Ok(Int(n))
  }

  class Cache {
    /** The connection `__init__` opens. */
    const redis: RedisStore
    /** Python's `repr` of a stored value, which `str(args)` is built from. */
    const repr: PyValue -> string

    /** `__init__`: flushes the database, so the cache starts empty. */
    constructor (redis: RedisStore, repr: PyValue -> string)
      modifies redis
      ensures this.redis == redis && this.repr == repr
      ensures redis.State() == Empty
    {
      this.redis := redis;
      this.repr := repr;
      new;
      redis.FlushDb();
    }

    /** `store`, with `key` standing for the `uuid.uuid4()` text it draws.
        The steps run in the order the decorators give them. */
    method Store(data: PyValue, key: string, now: nat) returns (r: Result<string>)
      requires UuidShaped(key)
      modifies redis
      ensures redis.State() == StoreSpec(old(redis.State()), now, TupleRepr(repr(data)), data, key).db
      ensures r == StoreSpec(old(redis.State()), now, TupleRepr(repr(data)), data, key).out
      ensures Encodable(data) && old(Lockstep(redis.State())) && old(redis.State().Counter(StoreName, 0).value) < MaxInt64 ==>
        && r == Ok(key)
        && Lockstep(redis.State())
        && redis.State().Get(key, now) == Ok(Some(EncodeValue(data)))
        && forall k, t: nat :: k != key && !IsBookkeeping(k) ==> redis.State().Lookup(k, t) == old(redis.State()).Lookup(k, t)
      ensures !Encodable(data) && old(Lockstep(redis.State())) && old(redis.State().Counter(StoreName, 0).value) < MaxInt64 ==>
        r == Err(DataError) && !Lockstep(redis.State())
    {
      ghost var before := redis.State();
      DecoratorOrder(before, now, TupleRepr(repr(data)), data, key);
      if Lockstep(before) && before.Counter(StoreName, 0).value < MaxInt64 {
        PushAndCountSucceed(before, now, TupleRepr(repr(data)));
        if Encodable(data) {
          StoreKeepsLockstep(before, now, TupleRepr(repr(data)), data, key);
          StoreEffect(before, now, TupleRepr(repr(data)), data, key);
        } else {
          UnencodableBreaksLockstep(before, now, TupleRepr(repr(data)), data, key);
        }
      }
      // call_history: record the arguments
      var pushed := redis.RPush(InputsKey(StoreName), Utf8Encode(TupleRepr(repr(data))), now);
      if pushed.Err? {
        return Err(pushed.error);
      }
      // count_calls: count the call
      var counted := redis.Incr(StoreName, now);
      if counted.Err? {
        return Err(counted.error);
      }
      // the method itself
      if !Encodable(data) {
        return Err(DataError);
      }
      redis.Set(key, EncodeValue(data));
      var output := key;
      // call_history: record the result
      var recorded := redis.RPush(OutputsKey(StoreName), Utf8Encode(output), now);
      if recorded.Err? {
        return Err(recorded.error);
      }
      r := Ok(output);
    }

    /** `get`: None exactly when the key is missing; otherwise the
        converter's result, or the stored bytes when there is no converter. */
    function Get(key: string, now: nat, fn: Option<Bytes -> Result<PyValue>>): (r: Result<Option<PyValue>>)
      reads redis
      ensures r == Ok(None) <==> !redis.State().Live(key, now)
      ensures redis.State().Lookup(key, now).Some? && redis.State().Lookup(key, now).value.List?
        ==> r == Err(WrongType)
      ensures fn.None? && r.Ok? && r.value.Some? ==>
        r.value.value.Raw? && redis.State().Lookup(key, now) == Some(Str(r.value.value.b))
      ensures redis.State().Lookup(key, now).Some? && redis.State().Lookup(key, now).value.Str? ==>
        var b := redis.State().Lookup(key, now).value.bytes;
        && (fn.None? ==> r == Ok(Some(Raw(b))))
        && (fn.Some? && fn.value(b).Ok? ==> r == Ok(Some(fn.value(b).value)))
        && (fn.Some? && fn.value(b).Err? ==> r == Err(fn.value(b).error))
    {
      match redis.State().Get(key, now)
      case Err(e) => Err(e)
      case Ok(None) => Ok(None)
      case Ok(Some(data)) => Convert(data, fn)
    }

    /** `get_str`: `get` with UTF-8 decoding; what it returns is the text
        whose encoding is stored. Bytes that are not UTF-8 raise
        UnicodeDecodeError. */
    function GetStr(key: string, now: nat): (r: Result<Option<PyValue>>)
      reads redis
      ensures r == Ok(None) <==> !redis.State().Live(key, now)
      ensures r.Ok? && r.value.Some? ==>
        r.value.value.Text? && redis.State().Lookup(key, now) == Some(Str(Utf8Encode(r.value.value.s)))
      ensures redis.State().Lookup(key, now).Some? && redis.State().Lookup(key, now).value.Str? ==>
        var b := redis.State().Lookup(key, now).value.bytes;
        && (r.Ok? <==> Utf8Decode(b).Some?)
        && (r.Ok? ==> r == Ok(Some(Text(Utf8Decode(b).value))))
        && (r.Err? ==> r.error == UnicodeDecodeError)
      ensures redis.State().Lookup(key, now).Some? && redis.State().Lookup(key, now).value.List? ==>
        r == Err(WrongType)
    {
      Get(key, now, Some(DecodeText))
    }

    /** `get_int`: `get` with `int`; what it returns is the number the
        stored bytes spell. Bytes that spell no integer raise ValueError. */
    function GetInt(key: string, now: nat): (r: Result<Option<PyValue>>)
      reads redis
      ensures r == Ok(None) <==> !redis.State().Live(key, now)
      ensures r.Ok? && r.value.Some? ==>
        r.value.value.Int? && exists b :: redis.State().Lookup(key, now) == Some(Str(b)) && ParseDecimal(b) == Some(r.value.value.n)
      ensures redis.State().Lookup(key, now).Some? && redis.State().Lookup(key, now).value.Str? ==>
        var b := redis.State().Lookup(key, now).value.bytes;
        && (r.Ok? <==> ParseDecimal(b).Some?)
        && (r.Ok? ==> r == Ok(Some(Int(ParseDecimal(b).value))))
        && (r.Err? ==> r.error == IntValueError)
      ensures redis.State().Lookup(key, now).Some? && redis.State().Lookup(key, now).value.List? ==>
        r == Err(WrongType)
    {
      Get(key, now, Some(ParseInt))
    }
  }

  /** What `store` put away comes back: bytes through `get`, text through
      `get_str`, integers through `get_int`. */
  lemma StoredValueReadsBack(c: Cache, key: string, now: nat, data: PyValue)
    requires Encodable(data)
    requires c.redis.State().Lookup(key, now) == Some(Str(EncodeValue(data)))
    ensures c.Get(key, now, None) == Ok(Some(Raw(EncodeValue(data))))
    ensures data.Raw? ==> c.Get(key, now, None) == Ok(Some(data))
    ensures data.Text? ==> c.GetStr(key, now) == Ok(Some(data))
    ensures data.Int? ==> c.GetInt(key, now) == Ok(Some(data))
  {
  }

  /** Storing then reading back, as one sequence of calls on a fresh cache:
      `store(42)` then `get_int` gives 42, `store("Hello")` then `get_str`
      gives "Hello". */
  method StoreThenRead(c: Cache, k1: string, k2: string, now: nat)
    requires UuidShaped(k1) && UuidShaped(k2) && k1 != k2
    requires c.redis.State() == Empty
    modifies c.redis
    ensures c.GetInt(k1, now) == Ok(Some(Int(42)))
    ensures c.GetStr(k2, now) == Ok(Some(Text("Hello")))
  {
    EmptyIsLockstep();
    var r1 := c.Store(Int(42), k1, now);
    assert r1 == Ok(k1);
    var r2 := c.Store(Text("Hello"), k2, now);
    assert r2 == Ok(k2);
    UuidIsNotBookkeeping(k1);
    StoredValueReadsBack(c, k1, now, Int(42));
    StoredValueReadsBack(c, k2, now, Text("Hello"));
  }

  // ------------------------------------------------------------ replay

  /** What `replay` prints: the number of calls and, for each recorded
      call, the text of its arguments and of its result. */
  datatype Report = Report(count: int, calls: seq<(string, string)>)

  function Min(a: int, b: int): int { if a < b then a else b }

  /** `int(value or 0)`: a missing or empty value counts as 0. */
  function CountOf(value: Option<Bytes>): (r: Result<int>)
    ensures value.None? || value == Some([]) ==> r == Ok(0)
    ensures value.Some? && value.value != [] ==> r.Ok? == ParseDecimal(value.value).Some?
    ensures r.Err? ==> r.error == IntValueError
    ensures r.Ok? && value.Some? && value.value != [] ==> r.value == ParseDecimal(value.value).value
  {
    match value
    case None => Ok(0)
    case Some(b) =>
      if b == [] then Ok(0)
      else match ParseDecimal(b)
        case None => Err(IntValueError)
        case Some(n) => Ok(n)
  }

  /** `zip(inputs, outputs)` with both sides decoded as UTF-8: pairs up to
      the shorter list, failing if any of those bytes do not decode. */
  function DecodePairs(ins: seq<Bytes>, outs: seq<Bytes>): (r: Result<seq<(string, string)>>)
    ensures r.Ok? <==> forall i :: 0 <= i < Min(|ins|, |outs|) ==>
      Utf8Decode(ins[i]).Some? && Utf8Decode(outs[i]).Some?
    ensures r.Ok? ==> |r.value| == Min(|ins|, |outs|)
    ensures r.Ok? ==> forall i :: 0 <= i < |r.value| ==>
      Utf8Decode(ins[i]) == Some(r.value[i].0) && Utf8Decode(outs[i]) == Some(r.value[i].1)
    ensures r.Err? ==> r.error == UnicodeDecodeError
  {
    if ins == [] || outs == [] then Ok([])
    else
      match (Utf8Decode(ins[0]), Utf8Decode(outs[0]))
      case (Some(i), Some(o)) =>
        (match DecodePairs(ins[1..], outs[1..])
         case Ok(rest) => Ok([(i, o)] + rest)
         case Err(e) => Err(e))
      case _ => Err(UnicodeDecodeError)
  }

  /** `replay` of the operation named `name`, reading what it reads in the
      order it reads it. */
  function ReplaySpec(db: DB, name: string, now: nat): (r: Result<Report>)
    ensures db.Lookup(name, now).None? && r.Ok? ==> r.value.count == 0
    ensures r.Ok? ==> db.ListAt(InputsKey(name), now).Some? && db.ListAt(OutputsKey(name), now).Some?
    ensures r.Ok? ==>
      var ins, outs := db.ListAt(InputsKey(name), now).value, db.ListAt(OutputsKey(name), now).value;
      && |r.value.calls| == Min(|ins|, |outs|)
      && forall i :: 0 <= i < |r.value.calls| ==>
           Utf8Decode(ins[i]) == Some(r.value.calls[i].0) && Utf8Decode(outs[i]) == Some(r.value.calls[i].1)
    ensures r.Ok? ==> db.Get(name, now).Ok? && CountOf(db.Get(name, now).value) == Ok(r.value.count)
    ensures db.Get(name, now).Ok? && CountOf(db.Get(name, now).value).Ok?
      && db.ListAt(InputsKey(name), now).Some? && db.ListAt(OutputsKey(name), now).Some?
      && DecodePairs(db.ListAt(InputsKey(name), now).value, db.ListAt(OutputsKey(name), now).value).Ok?
      ==> r.Ok?
  {
    match db.Get(name, now)
    case Err(e) => Err(e)
    case Ok(raw) =>
      match CountOf(raw)
      case Err(e) => Err(e)
      case Ok(count) =>
        match db.LRange(InputsKey(name), 0, -1, now)
        case Err(e) => Err(e)
        case Ok(ins) =>
          match db.LRange(OutputsKey(name), 0, -1, now)
          case Err(e) => Err(e)
          case Ok(outs) =>
            match DecodePairs(ins, outs)
            case Err(e) => Err(e)
            case Ok(calls) => Ok(Report(count, calls))
  }

  /** The loop of `replay`: walks the two lists in step, decoding each pair. */
  method DecodeHistory(ins: seq<Bytes>, outs: seq<Bytes>) returns (res: Result<seq<(string, string)>>)
    ensures res == DecodePairs(ins, outs)
  {
    var n := Min(|ins|, |outs|);
    var calls: seq<(string, string)> := [];
    var i := 0;
    while i < n
      invariant 0 <= i <= n
      invariant |calls| == i
      invariant forall j :: 0 <= j < i ==>
        Utf8Decode(ins[j]) == Some(calls[j].0) && Utf8Decode(outs[j]) == Some(calls[j].1)
    {
      var input := Utf8Decode(ins[i]);
      var output := Utf8Decode(outs[i]);
      if input.None? || output.None? {
        assert DecodePairs(ins, outs).Err?;
        return Err(UnicodeDecodeError);
      }
      calls := calls + [(input.value, output.value)];
      i := i + 1;
    }
    ghost var expected := DecodePairs(ins, outs);
    assert expected.Ok?;
    assert forall j :: 0 <= j < n ==> expected.value[j] == calls[j];
    assert expected.value == calls;
    res := Ok(calls);
  }

  /** `replay`, reading one snapshot of the database behind `r` in the
      order of its GET and its two LRANGEs; nothing writes in between. */
  method Replay(r: RedisStore, name: string, now: nat) returns (res: Result<Report>)
    ensures res == ReplaySpec(r.State(), name, now)
  {
    var db := r.State();
    var raw := db.Get(name, now);
    if raw.Err? {
      return Err(raw.error);
    }
    var count := CountOf(raw.value);
    if count.Err? {
      return Err(count.error);
    }
    var ins := db.LRange(InputsKey(name), 0, -1, now);
    if ins.Err? {
      return Err(ins.error);
    }
    var outs := db.LRange(OutputsKey(name), 0, -1, now);
    if outs.Err? {
      return Err(outs.error);
    }
    var calls := DecodeHistory(ins.value, outs.value);
    if calls.Err? {
      return Err(calls.error);
    }
    res := Ok(Report(count.value, calls.value));
  }

  /** A counter INCR maintains reads back through GET and `int()` as the
      number it holds. */
  lemma CountOfCounter(db: DB, key: string, t: nat, n: int)
    requires db.Counter(key, t) == Some(n)
    ensures db.Get(key, t).Ok? && CountOf(db.Get(key, t).value) == Ok(n)
  {
    if db.Lookup(key, t).Some? {
      DecimalRoundTrip(n);
    }
  }

  /** On a fresh cache, after any run of `store` calls, `replay` reports as
      many calls as were made and, for the i-th, the text of its arguments
      and the key it returned. */
  lemma ReplayAfterStores(repr: PyValue -> string, calls: seq<StoreCall>, t: nat)
    requires |calls| <= MaxInt64
    requires forall i :: 0 <= i < |calls| ==> WellFormed(calls[i])
    ensures var run := StoreAll(Empty, repr, calls);
      var report := ReplaySpec(run.db, StoreName, t);
      && run.out == Ok(KeysOf(calls))
      && report.Ok?
      && report.value.count == |calls|
      && |report.value.calls| == |calls|
      && forall i :: 0 <= i < |calls| ==>
           report.value.calls[i] == (TupleRepr(repr(calls[i].data)), calls[i].key)
  {
    EmptyIsLockstep();
    EmptyHasNothing(InputsKey(StoreName), 0);
    EmptyHasNothing(OutputsKey(StoreName), 0);
    StoreAllRecords(Empty, repr, calls);
    var db := StoreAll(Empty, repr, calls).db;
    var inputs, outputs := InputsKey(StoreName), OutputsKey(StoreName);
    PersistentKey(db, StoreName, 0, t);
    PersistentKey(db, inputs, 0, t);
    PersistentKey(db, outputs, 0, t);
    CountOfCounter(db, StoreName, t, |calls|);
    DecodeRecords(repr, calls);
    var ins, outs := ArgsRecords(repr, calls), KeyRecords(calls);
    assert [] + ins == ins && [] + outs == outs;
    ReplayReads(db, StoreName, t, |calls|, ins, outs);
  }

  /** `replay` reports the counter and the decoded history it finds. */
  lemma ReplayReads(db: DB, name: string, now: nat, n: int, ins: seq<Bytes>, outs: seq<Bytes>)
    requires db.Get(name, now).Ok? && CountOf(db.Get(name, now).value) == Ok(n)
    requires db.ListAt(InputsKey(name), now) == Some(ins)
    requires db.ListAt(OutputsKey(name), now) == Some(outs)
    requires DecodePairs(ins, outs).Ok?
    ensures ReplaySpec(db, name, now) == Ok(Report(n, DecodePairs(ins, outs).value))
  {
  }

  /** The history `store` writes decodes back to the arguments' text and
      the keys, pair by pair. */
  lemma DecodeRecords(repr: PyValue -> string, calls: seq<StoreCall>)
    ensures var r := DecodePairs(ArgsRecords(repr, calls), KeyRecords(calls));
      && r.Ok?
      && |r.value| == |calls|
      && forall i :: 0 <= i < |calls| ==> r.value[i] == (TupleRepr(repr(calls[i].data)), calls[i].key)
  {
    var ins, outs := ArgsRecords(repr, calls), KeyRecords(calls);
    forall i | 0 <= i < |calls|
      ensures Utf8Decode(ins[i]) == Some(TupleRepr(repr(calls[i].data)))
      ensures Utf8Decode(outs[i]) == Some(calls[i].key)
    {
      Utf8RoundTrip(TupleRepr(repr(calls[i].data)));
      Utf8RoundTrip(calls[i].key);
    }
  }
}

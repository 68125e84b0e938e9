# redis_basic: the instrumented cache and the expiring page cache

This project models the two Redis clients of `0x02-redis_basic` and proves
what they promise.

- `exercise.py` holds `Cache`. `store` puts a value under a freshly drawn
  UUID key. It is wrapped by `call_history` (outer) and `count_calls`
  (inner). Those two keep a call counter under `Cache.store` and two lists,
  `Cache.store:inputs` and `Cache.store:outputs`, in the same database.
  `get`, `get_str` and `get_int` read values back. `replay` reads the
  counter and pairs the two lists.
- `web.py` holds `get_page`. It is wrapped by `url_count` (outer), which
  INCRs `count:{url}` on every call, and `cache_page(10)` (inner). On a live
  `cache:{url}` entry, `cache_page` returns the cached text. Otherwise it
  fetches the page once and SETEXes it for 10 seconds.

The Redis server is modelled in `redis.dfy`. It has one keyspace whose keys
hold byte strings or lists of byte strings, plus optional deadlines on an
abstract clock of whole seconds. The commands the two programs use (GET,
SET, SETEX, INCR, RPUSH, LRANGE, FLUSHDB) are pure functions on the value
`DB`. The class `RedisStore` holds that state and applies them in place.
A key whose deadline has come reads as absent to every command.
`encoding.dfy` models what turns values into bytes and back:
`str.encode('utf-8')`, strict `bytes.decode('utf-8')`, Python's `int()` on
bytes, and the server's own integer parser behind INCR.

Files:

| file | module | models |
|---|---|---|
| wrappers.dfy | Wrappers | `Option`, `Result` and the errors the programs can raise |
| encoding.dfy | Encoding | UTF-8, decimal text, Redis's integer parser |
| redis.dfy | Redis | the server state and its commands |
| exercise.dfy | Exercise | `count_calls`, `call_history`, `Cache`, `replay` |
| web.dfy | Web | `url_count`, `cache_page`, `get_page`, the web server behind `requests.get` |

How each program is modelled:

- The decorators are pure functions. `CountCalls`, `CallHistory` and
  `UrlCount` take the wrapped operation as a function on the database, which
  returns the new database and the reply (for `UrlCount`, also whether the
  page was fetched). `CachePage` takes the fetch as a function of the URL
  and the instant, since `requests.get` never touches the database.
- The code that changes the server step by step is a set of methods:
  `Cache.Store`, `CachePageCall` and `GetPageCall`. `Replay` is a method that
  changes nothing. It takes one snapshot of the server's state and reads it
  in `replay`'s order: GET of the counter, LRANGE of the inputs, LRANGE of
  the outputs. That is the same as three separate reads, because nothing
  writes in between. Each of the four is proved equal to its functional specification.
- A Redis error reply, the client's refusal of a value (`DataError`), a
  `UnicodeDecodeError`, a `ValueError` from `int()` and a failed request are
  all `Err` results. In Python they are exceptions. An error stops the call
  where it happens, and the earlier commands keep their effect, as in Python.

Facts about the code that shape the model:

- `call_history` is the outer decorator of `store` and `count_calls` the
  inner one (`exercise.py:113-114`). One call therefore runs RPUSH of the
  inputs, then INCR, then SET, then RPUSH of the output. `DecoratorOrder`
  proves that order.
- `__init__` calls `flushdb` (`exercise.py:111`), so the model has FLUSHDB.
- `store` draws `uuid.uuid4()` (`exercise.py:125`) and never checks that the
  key is unused. The model only asks that the key has the shape of a UUID,
  so it is never one of the bookkeeping keys. SET on a used key overwrites
  it, as Redis does.
- The type hint of `store` lets a `bool` through, and the client refuses to
  encode one. That refusal comes at the SET, after the RPUSH of the inputs
  and the INCR, so the call fails with the counter and the inputs one step
  ahead of the outputs. `UnencodableBreaksLockstep` proves it.
- SETEX in `cache_page` comes after the fetch. When the server refuses the
  ttl, the call fails with the page fetched but not stored.

## Model

| member | source | states |
|---|---|---|
| Encoding.Utf8Encode | 0x02-redis_basic/exercise.py:61 | no contract of its own; `str.encode('utf-8')`, which `Utf8RoundTrip`, `Utf8Canonical` and `Utf8DecodeIff` tie to decoding |
| Encoding.Utf8Decode | 0x02-redis_basic/exercise.py:94-95 | no contract of its own; strict `bytes.decode('utf-8')`: `Utf8RoundTrip` and `Utf8Canonical` state that it reads back exactly the encodings of text, and `DecodeText` that it fails with UnicodeDecodeError on anything else |
| Encoding.Utf8RoundTrip | 0x02-redis_basic/exercise.py:159 | decoding the UTF-8 encoding of any text gives the text back |
| Encoding.Utf8Canonical | 0x02-redis_basic/web.py:69 | bytes that decode are exactly the encoding of what they decode to |
| Encoding.Utf8DecodeIff | 0x02-redis_basic/web.py:69 | `b` decodes to `s` if and only if `b` is the encoding of `s` |
| Encoding.DecimalEncode | 0x02-redis_basic/exercise.py:126 | the decimal text of an integer is non-empty and starts with '-' exactly for negatives |
| Encoding.DecimalRoundTrip | 0x02-redis_basic/exercise.py:172 | `int()` of the decimal text of `n` is `n` |
| Encoding.ParseDecimal | 0x02-redis_basic/exercise.py:172 | no contract of its own; `int()` on bytes, without its whitespace, underscores and digit limit (see "## Left out"): `DecimalRoundTrip` states that it reads every integer's decimal text back, and `ParseInt` and `CountOf` give its failure as ValueError |
| Encoding.RedisInt | 0x02-redis_basic/exercise.py:33 | a counter value the server accepts is a 64-bit integer whose canonical text is the stored bytes |
| Encoding.RedisIntIff | 0x02-redis_basic/web.py:36 | the server reads `b` as `n` if and only if `n` fits 64 bits and `b` is its canonical text |
| Redis.Range | 0x02-redis_basic/exercise.py:89-90 | LRANGE 0 -1 is the whole list; an in-bounds range is that slice; the result is no longer than the list |
| Redis.DB.Get | 0x02-redis_basic/exercise.py:143 | GET is nil exactly for a missing or expired key, a WRONGTYPE error exactly on a list, else the stored bytes |
| Redis.DB.Set | 0x02-redis_basic/exercise.py:126 | after SET the key holds the value at every instant, and no other key changes |
| Redis.DB.SetEx | 0x02-redis_basic/web.py:73 | SETEX succeeds exactly when the ttl is positive and the deadline in milliseconds, `(now + ttl) * 1000`, fits 64 bits; it fails with "invalid expire time", or "not an integer" for a ttl outside 64 bits; on success the key holds the value until `now + ttl` and no other key changes |
| Redis.DB.Incr | 0x02-redis_basic/exercise.py:33 | INCR succeeds exactly on an absent key or an integer below the 64-bit maximum; it replies old + 1, leaves that in the key, fails on a list with WRONGTYPE, changes nothing on error and no other key ever |
| Redis.DB.RPush | 0x02-redis_basic/exercise.py:61 | RPUSH fails exactly on a string key; it appends the value, replies the new length, changes nothing on error and no other key |
| Redis.DB.LRange | 0x02-redis_basic/exercise.py:89-90 | LRANGE fails exactly on a string key; with 0, -1 it replies the whole list |
| Redis.EmptyHasNothing | 0x02-redis_basic/exercise.py:111 | after FLUSHDB every key is absent, reads as counter 0 and as the empty list |
| Redis.PersistentKey | 0x02-redis_basic/exercise.py:33 | a key without a deadline reads the same at every instant |
| Redis.RedisStore.constructor | 0x02-redis_basic/exercise.py:110 | a new connection sees an empty database |
| Redis.RedisStore.FlushDb | 0x02-redis_basic/exercise.py:111 | FLUSHDB leaves the empty database |
| Redis.RedisStore.Set | 0x02-redis_basic/exercise.py:126 | the new state is SET applied to the old one |
| Redis.RedisStore.SetEx | 0x02-redis_basic/web.py:73 | succeeds exactly when SETEX does, with SETEX's new state; on error it replies SETEX's error and nothing changes |
| Redis.RedisStore.Incr | 0x02-redis_basic/web.py:36 | the new state and reply are INCR's |
| Redis.RedisStore.RPush | 0x02-redis_basic/exercise.py:61 | the new state and reply are RPUSH's |
| Exercise.CountCalls | 0x02-redis_basic/exercise.py:25-34 | no contract of its own; `count_calls`: INCR of the name, then the wrapped call; `CountCallsCounts` and `DecoratorOrder` state it |
| Exercise.CallHistory | 0x02-redis_basic/exercise.py:49-67 | no contract of its own; `call_history`: RPUSH of the arguments' text, the wrapped call, RPUSH of the output's text on success; `CallHistoryRecords` and `DecoratorOrder` state it |
| Exercise.StoreBody | 0x02-redis_basic/exercise.py:125-127 | no contract of its own; the body of `store`: SET of the encoded value under the key, or DataError for a value the client does not encode; `StoreStepsFrame` and `UnencodableBreaksLockstep` state it |
| Exercise.StoreSpec | 0x02-redis_basic/exercise.py:113-127 | no contract of its own; `store` as written, `call_history(count_calls(store))`; `DecoratorOrder` proves it equal to `StoreSteps` |
| Exercise.StoreSteps | 0x02-redis_basic/exercise.py:113-127 | no contract of its own; the decorated `store` as its four commands in order; `StoreStepsSucceed`, `StoreStepsRecord`, `StoreStepsFrame` and `UnencodableBreaksLockstep` state what it does |
| Exercise.EncodeValue | 0x02-redis_basic/exercise.py:126 | bytes are sent as they are, text decodes back to itself, an integer parses back to itself |
| Exercise.UuidIsNotBookkeeping | 0x02-redis_basic/exercise.py:125 | a UUID key is never the counter or a history list |
| Exercise.CountCallsCounts | 0x02-redis_basic/exercise.py:32-34 | the counter under the name goes up by exactly 1 and the wrapped result comes back unchanged |
| Exercise.CallHistoryRecords | 0x02-redis_basic/exercise.py:57-67 | one input entry is appended before the call whatever happens; on success one output entry is appended and the result comes back unchanged |
| Exercise.PushAndCountSucceed | 0x02-redis_basic/exercise.py:113-114 | on consistent bookkeeping whose counter can grow, the RPUSH of the inputs and the INCR succeed and change no deadline and not the outputs list |
| Exercise.DecoratorOrder | 0x02-redis_basic/exercise.py:113-127 | `call_history(count_calls(store))` is the sequence RPUSH inputs, INCR, SET, RPUSH outputs, stopping at the first error |
| Exercise.EmptyIsLockstep | 0x02-redis_basic/exercise.py:110-111 | a flushed database has consistent bookkeeping with counter 0 |
| Exercise.StoreStepsSucceed | 0x02-redis_basic/exercise.py:113-127 | on consistent bookkeeping whose counter can grow and for a value the client encodes, `store` returns its key and drops only that key's deadline |
| Exercise.StoreStepsRecord | 0x02-redis_basic/exercise.py:113-127 | a successful `store` adds 1 to the counter, the arguments' text to the inputs and the key to the outputs; proved from what each decorator does alone |
| Exercise.StoreStepsFrame | 0x02-redis_basic/exercise.py:125-127 | after `store` the value is under the key for good, and no key but that one and the bookkeeping changes |
| Exercise.UnencodableBreaksLockstep | 0x02-redis_basic/exercise.py:113-127 | on consistent bookkeeping, storing a `bool` fails with DataError after the counter and the inputs grew and the outputs did not, so the bookkeeping is no longer consistent; no other key changes |
| Exercise.StoreKeepsLockstep | 0x02-redis_basic/exercise.py:113-127 | one call keeps the counter and both lists growing together and leaves the bookkeeping consistent |
| Exercise.StoreEffect | 0x02-redis_basic/exercise.py:125-127 | on consistent bookkeeping, `store` returns its key, the value is there for good, and nothing else outside the bookkeeping changes |
| Exercise.StoreOneRecords | 0x02-redis_basic/exercise.py:113-127 | every `store` call with a UUID key on consistent bookkeeping records itself |
| Exercise.RunRecords | 0x02-redis_basic/exercise.py:57-67 | after any run of self-recording calls, each returned its own key in order, and the inputs and outputs lists gained one entry per call in call order |
| Exercise.LockstepCount | 0x02-redis_basic/exercise.py:32-34 | between two consistent states, the counter grew by exactly as many entries as the inputs list gained |
| Exercise.RunCounts | 0x02-redis_basic/exercise.py:32-34 | after any run of self-recording calls the counter went up by the number of calls |
| Exercise.StoreAllRecords | 0x02-redis_basic/exercise.py:113-127 | after n calls of `store` the counter went up by n and `outputs[i]` is the key of the i-th call |
| Exercise.DecodeText | 0x02-redis_basic/exercise.py:159 | decoding succeeds exactly on valid UTF-8, and gives the text whose encoding is stored |
| Exercise.ParseInt | 0x02-redis_basic/exercise.py:172 | `int()` succeeds exactly on an optional sign followed by digits, else ValueError |
| Exercise.Convert | 0x02-redis_basic/exercise.py:146 | no contract of its own; `fn(data) if fn else data`; the `Cache.Get` contract states it case by case |
| Exercise.Cache.constructor | 0x02-redis_basic/exercise.py:105-111 | a new cache leaves the database empty |
| Exercise.Cache.Store | 0x02-redis_basic/exercise.py:113-127 | the new state and reply are the decorated `store`'s; on consistent bookkeeping it returns the key, keeps the bookkeeping consistent, the key reads back the value, and no other key changes; a `bool` fails with DataError and leaves the bookkeeping inconsistent |
| Exercise.Cache.Get | 0x02-redis_basic/exercise.py:143-146 | None exactly for a missing or expired key; WRONGTYPE on a list; on stored bytes, the bytes themselves without a converter, else the converter's value or its error |
| Exercise.Cache.GetStr | 0x02-redis_basic/exercise.py:159 | None exactly for a missing key; on stored bytes, the text they decode to exactly when they are UTF-8, else UnicodeDecodeError; WRONGTYPE on a list |
| Exercise.Cache.GetInt | 0x02-redis_basic/exercise.py:172 | None exactly for a missing key; on stored bytes, the integer they spell exactly when `int()` accepts them, else ValueError; WRONGTYPE on a list |
| Exercise.StoredValueReadsBack | 0x02-redis_basic/exercise.py:143-172 | bytes come back through `get`, text through `get_str`, integers through `get_int` |
| Exercise.StoreThenRead | 0x02-redis_basic/exercise.py:113-172 | on a fresh cache, `store(42)` then `store("Hello")` reads back 42 through `get_int` and "Hello" through `get_str` |
| Exercise.CountOf | 0x02-redis_basic/exercise.py:83 | a missing counter and empty bytes count as 0, because `or 0` replaces them; other bytes give the integer `int()` reads, or ValueError where it reads none |
| Exercise.DecodePairs | 0x02-redis_basic/exercise.py:93-95 | succeeds exactly when the first min(len) items of both lists decode; one pair per position, each the decoded items |
| Exercise.ReplaySpec | 0x02-redis_basic/exercise.py:79-96 | count 0 for an absent counter; count is `int()` of the counter; one pair per position up to the shorter list; succeeds whenever every read and decode does |
| Exercise.DecodeHistory | 0x02-redis_basic/exercise.py:93-96 | the loop over the zipped lists gives exactly the decoded pairs, or the decode error |
| Exercise.Replay | 0x02-redis_basic/exercise.py:71-96 | what `replay` reads through the connection is its specification |
| Exercise.CountOfCounter | 0x02-redis_basic/exercise.py:83 | a counter INCR keeps reads back through GET and `int()` as the number it holds |
| Exercise.ReplayReads | 0x02-redis_basic/exercise.py:83-95 | `replay` reports the counter and the decoded history it finds |
| Exercise.DecodeRecords | 0x02-redis_basic/exercise.py:94-95 | the history `store` writes decodes back to the arguments' text and the keys |
| Exercise.ReplayAfterStores | 0x02-redis_basic/exercise.py:83-96 | on a fresh cache after n calls of `store`, `replay` reports n and the i-th call's arguments and key |
| Web.KeysDistinct | 0x02-redis_basic/web.py:35 | no counter key is a cache key, and each key names one URL |
| Web.UrlCount | 0x02-redis_basic/web.py:24-37 | no contract of its own; `url_count`: INCR of `count:{url}`, then the wrapped call, which an INCR error stops; `GetPageCounts` states it |
| Web.GetPage | 0x02-redis_basic/web.py:79-97 | no contract of its own; `get_page` as `url_count` around `cache_page(10)` around the fetch; `GetPageCounts`, `GetPageHit`, `GetPageMiss` and `OneCall` state it |
| Web.CachePage | 0x02-redis_basic/web.py:63-74 | fetches exactly on a miss; a hit returns the cached text unchanged and writes nothing; a fetched page is stored until `now + expiration` and returned; a fetch error is passed on and a ttl SETEX refuses gives its error, both with nothing stored; no other key changes |
| Web.GetPageCounts | 0x02-redis_basic/web.py:34-37 | every call adds exactly 1 to its URL's counter, hit or miss; a counter that cannot grow fails the call before any lookup or fetch; other URLs' counters stay, and no key but the URL's counter and cache entry changes |
| Web.GetPageHit | 0x02-redis_basic/web.py:67-69 | on a live entry the cached text is returned, nothing is fetched, and the entry stays |
| Web.GetPageMiss | 0x02-redis_basic/web.py:72-74 | on a miss the page is fetched once; a page whose deadline SETEX accepts is cached until `now + 10` and returned; a failed fetch is passed on and a refused deadline gives "invalid expire time", with the entry unchanged |
| Web.OneCall | 0x02-redis_basic/web.py:79-80 | one call counts itself, replies and fetches as the reference predicts, and leaves the entry the reference predicts |
| Web.ServeAsExpected | 0x02-redis_basic/web.py:79-80 | a run of calls each of which behaves as the reference gives the reference's replies, fetch instants and final entry, with the counter up by the number of calls |
| Web.ServeAllAsExpected | 0x02-redis_basic/web.py:79-97 | any run of timed `get_page` calls for one URL gives the reference's replies, fetch instants and final entry, and the counter ends up by the number of calls |
| Web.EmptyServes | 0x02-redis_basic/web.py:34-35 | a fresh database has counter 0 and nothing cached |
| Web.TwoCallsFetchOnce | 0x02-redis_basic/web.py:80 | two calls under 10 seconds apart, the first fetching a page whose deadline SETEX accepts, fetch once, reply the same text twice and leave the counter at 2 |
| Web.ExpiredRefetches | 0x02-redis_basic/web.py:67-73 | a call at or after the entry's deadline fetches again and, when SETEX accepts the new deadline, returns the fresh page |
| Web.Origin.constructor | 0x02-redis_basic/web.py:96 | no request has been made yet |
| Web.Origin.Get | 0x02-redis_basic/web.py:96 | the reply is the page at that instant, and the request is logged |
| Web.CachePageCall | 0x02-redis_basic/web.py:53-74 | the reply and the new state are `cache_page`'s, and the origin is asked exactly when the specification fetches |
| Web.GetPageCall | 0x02-redis_basic/web.py:79-97 | the reply and the new state are `get_page`'s, and the origin is asked exactly when the specification fetches |

## Left out

- Networking: `redis.Redis()` (`exercise.py:110`, `web.py:34`, `web.py:63`) is the `RedisStore` passed in. An unreachable server and connection errors are not modelled.
- `requests.get(url).text` is the oracle `Origin.page`. It says what a request for a URL returns at an instant. How `requests` guesses the charset of `.text` is not modelled.
- `uuid.uuid4()` is randomness. The key is a parameter of `Cache.Store`, required to have the shape of a UUID.
- Python's `repr` of a stored value is the oracle `Cache.repr`. `str(args)` is built from it as `"(" + repr + ",)"`. A float is carried as its `repr` text, which is also what the client sends.
- `Encoding.ParseDecimal` (and so `Exercise.ParseInt` and `Exercise.CountOf`): Python's `int()` also accepts surrounding whitespace and underscores between digits. The model accepts only an optional sign followed by ASCII digits, so `get_int` on bytes like `b" 7"`, `b"\t-3\n"` or `b"1_000"` is an error here.
- `Encoding.ParseDecimal` (and so `Exercise.ParseInt` and `Exercise.CountOf`): Python 3.11 and later refuse to convert text of more than 4300 digits with `int()`. The model has no such limit, so `get_int` on such bytes returns the integer here.
- `Exercise.ParseInt`: it is `int()` as `Encoding.ParseDecimal` models it, with the same two gaps.
- `Exercise.CountOf`: it uses the same `int()` as `ParseInt`, with the same gaps.
- `Exercise.Cache.Store`: `str(args)` of an integer past 4300 digits raises in Python 3.11 and later, before the first RPUSH. The model stores such integers as it does any other.
- `Exercise.EncodeValue`: a `str` holding a lone surrogate is not representable, because a Dafny `char` is a Unicode scalar value. The client would refuse to encode it at the SET, after the RPUSH of the inputs and the INCR, and break the bookkeeping as a `bool` does.
- `Redis.DB.SetEx`: the server checks the deadline against its own clock in milliseconds. The model takes that clock to be `now * 1000`, so a deadline within a second of the 64-bit limit may be judged differently. The checks themselves follow Redis 7: a ttl outside 64 bits is "not an integer", and a ttl that is not positive or whose deadline overflows is "invalid expire time".
- `replay`'s `print` output is not produced. `Replay` returns the count and the decoded (input, output) pairs the lines are built from.
- `Exercise.Cache.Get`: `get`'s converter is any Python callable. Here it is an optional function from bytes to a value or an error. A value here is never None, so a converter that returns None, which `get` passes on as None, is not modelled. That is why `Cache.Get` returns None exactly for a missing or expired key.
- Redis keeps deadlines in milliseconds and deletes expired keys lazily or in the background. Here the clock counts whole seconds. A key written at `now` with ttl `n` is served up to `now + n - 1`. Expired keys are hidden, not deleted, and no command can tell the two apart.
- Each call happens at one instant `now`. The time a fetch takes is not modelled.
- Concurrency between clients is not modelled. Calls run one after another.
- `count_calls` and `call_history` are modelled for positional arguments only, as `store` uses them. Keyword arguments do not appear in `str(args)`.


# Cache-aside client and Redis ID worker, modelled in Dafny

This project models the two pieces of real logic in the hm-dianping backend's `utils` package.

- **`CacheClient`** puts a Redis string store in front of a caller-supplied loader (the
  database fallback) and offers three read strategies:
  - *pass-through*: an empty-string sentinel with a short TTL caches "no such record";
  - *logical expiry*: the payload sits in an envelope `{data, expireTime}`; a stale read
    returns the stale value, and the caller that wins a set-if-absent lock submits a
    background rebuild;
  - *mutex rebuild*: only the caller holding the set-if-absent lock calls the loader; the
    others sleep and start over.
- **`RedisIdWorker.nextId`** builds a 64-bit ID as `(nowSecond - 1640995200) << 32 | count`.
  `count` comes from `INCR icr:<prefix>:<yyyy:MM:dd>`.

Files:

- `Wrappers.dfy`: `Option`, standing in for Java's `null`.
- `KeyValue.dfy`: the Redis store.
  - The store is a `map<string, Entry>`; an entry is a value plus an optional absolute
    expiry time, in milliseconds on an abstract clock.
  - An entry whose expiry has passed reads as absent.
  - The pure functions `Lookup`, `Stored`, `StoredPersistent`, `Removed` and `TestAndSet`
    define GET, SET PX, SET, DEL and SET NX PX.
  - The class `RedisStore` performs the same operations in place.
- `CacheAside.dfy`: the cache client.
  - Each strategy is a function from the store before the call:
    - `PassThrough` and `Mutex` give an `Outcome`: the reply, the store after the call and
      the number of loader calls;
    - `LogicExpire` gives a `Served`: the value returned, the store after the call and
      whether a rebuild was scheduled. It never calls the loader;
    - `Rebuilt`, the background rebuild, gives a `Refresh`: whether the loader returned
      normally, and the store after.
  - `Mutex` is recursive, as the Java method is, with an explicit budget of restarts.
  - The class `CacheClient<R>` holds the store, the two JSON codecs, `CACHE_NULL_TTL` and
    the queue of submitted rebuilds.
  - Its methods do the store operations in the source's order. Each is proved to end in
    exactly the reply and store that its function gives.
  - The exception is `QueryWithMutex`, a `while` loop with a retry budget. In the source, every
    frame that got past the first read runs `unlock` in its `finally`. After k restarts
    that is k + 1 frames when the last attempt takes the lock or gives up, and k when the
    last attempt is a cache hit. The loop issues a single DEL after it ends instead, for
    any number of those frames. This leaves the same store because DEL is idempotent.
    The method is proved equal to the recursive `Mutex`, which releases once in each
    frame that got past the first read.
  - Lemmas about the functions state what the strategies promise. This covers hits,
    sentinels, misses, penetration and stampede defence, and lock release on every path.
- `IdGen.dfy`: the ID worker.
  - Java `long` arithmetic is written out: subtraction and shift wrap modulo 2^64, and `|`
    is a bit-by-bit OR.
  - Lemmas cover the packing round trip, injectivity, ordering, the counter key and the
    worked example.
  - The class `CounterStore` holds the store's counters and performs INCR in place.
  - The class `RedisIdWorker` keeps the `CounterStore` it is given, as the Java worker keeps
    its Redis template. Workers built over one store share its counters, and a store may
    already hold counts from earlier workers.

Modelling choices:

- **Loader.** The loader is a function `string -> Load<R>` with three results:
  - `Found(r)`: a record;
  - `NotFound`: Java `null`;
  - `Raises`: an exception.
- **Reply.** A query ends in one of three ways:
  - `Returned(Option<R>)`: a value, or `null` as `None`;
  - `Threw`: the loader's exception propagates;
  - `GaveUp`: the mutex retry budget is spent, which has no counterpart in the source.
- **JSON.** `Codec<T>` is a pair of functions, `encode` and `decode`. The lemmas that need
  the round trip assume `Lawful(codec)`: `decode(encode(v)) == v`, and `encode(v)` is never
  blank.
- **Time.** Time is an integer number of milliseconds passed in as `now`.
  - The caller's TTL is given in seconds.
  - `CACHE_NULL_TTL` is given in minutes.
  - The lock lease is 10 000 ms.
  - `Thread.sleep(50)` advances the clock of the next attempt by 50 ms.
- **Rebuild pool.** Submitting to the pool appends the query to `pending`.
  `RunRebuild(i, now)` stands for a worker that runs task `i`, in any order, at a later
  time `now`.
- **Entity type.** The entity type `R` is fixed per client instance. The queue of pending
  rebuilds needs one type.
- **Identifiers.** An identifier is taken in its string form, as it appears in the key.

Facts about keys and IDs:

- **Key disjointness.** Data keys and lock keys are disjoint exactly when the data prefix and
  `lock:` are incomparable, that is, neither is a prefix of the other. `DataKeyNeverLockKey`
  proves one direction and `PrefixCollides` the other. For example,
  `ShortPrefixCollides` shows `DataKey("", "lock:1") == LockKey("", "1")`.
- **A worked ID.** 1704067200 (2024-01-01T00:00:00Z) is 730 days after `BEGIN_TIMESTAMP`.
  The timestamp part is 63072000 seconds, and the first ID of that day is
  270892177293312001 (`FirstIdOfDay`).

The mutex strategy's `finally` also runs on the lock-busy path, so a caller that never held
the lock deletes it. This is kept as written. `MutexGivesUpUnderForeignLock` and
`MutexDeletesForeignLock` state it.

## Model

| member | source | states |
|---|---|---|
| `KeyValue.RedisStore.Get` | src/main/java/com/hmdp/utils/CacheClient.java:50 | GET returns a value exactly when the key holds a live (unexpired) entry, and then returns that entry's value |
| `KeyValue.RedisStore.Set` | src/main/java/com/hmdp/utils/CacheClient.java:31 | SET with a TTL replaces the key's entry with the value, expiring ttl later; no other key changes |
| `KeyValue.RedisStore.SetPersistent` | src/main/java/com/hmdp/utils/CacheClient.java:42 | SET without a TTL stores the value with no expiry, clearing any earlier TTL |
| `KeyValue.RedisStore.SetIfAbsent` | src/main/java/com/hmdp/utils/CacheClient.java:201 | set-if-absent is one atomic test-and-set: it writes and returns true exactly when the key holds no live value |
| `KeyValue.RedisStore.Delete` | src/main/java/com/hmdp/utils/CacheClient.java:206 | DEL removes the key and nothing else |
| `KeyValue.TestAndSetSpec` | src/main/java/com/hmdp/utils/CacheClient.java:200-203 | set-if-absent wins iff the key is free; a win leaves the key holding the value for the whole lease; a loss changes nothing; other keys are untouched |
| `KeyValue.TestAndSetExclusive` | src/main/java/com/hmdp/utils/CacheClient.java:200-203 | after a won set-if-absent, every further attempt on that key fails until the lease lapses |
| `KeyValue.TestAndSetAfterRelease` | src/main/java/com/hmdp/utils/CacheClient.java:205-207 | after DEL, or once the lease has lapsed, set-if-absent wins again |
| `CacheAside.CacheClient.constructor` | src/main/java/com/hmdp/utils/CacheClient.java:24-28 | the client keeps the store it is given; no rebuild is pending |
| `CacheAside.CacheClient.Set` | src/main/java/com/hmdp/utils/CacheClient.java:30-32 | set stores the JSON of the value under the key with the caller's TTL |
| `CacheAside.CacheClient.SetWithLogicExpire` | src/main/java/com/hmdp/utils/CacheClient.java:35-43 | setWithLogicExpire stores the envelope {data: value, expireTime: now + ttl} under the key with no store TTL |
| `CacheAside.CacheClient.TryLock` | src/main/java/com/hmdp/utils/CacheClient.java:200-203 | tryLock is SET key "1" NX with a 10-second lease and returns whether it wrote |
| `CacheAside.CacheClient.Unlock` | src/main/java/com/hmdp/utils/CacheClient.java:205-207 | unlock deletes the key without any holder check |
| `CacheAside.CacheClient.LoadAndWrite` | src/main/java/com/hmdp/utils/CacheClient.java:65-80 | the miss path calls the loader; null caches "" for CACHE_NULL_TTL minutes and returns null; a record is cached under the caller's TTL and returned; an exception propagates with the store unchanged |
| `CacheAside.CacheClient.QueryWithPassThrough` | src/main/java/com/hmdp/utils/CacheClient.java:46-81 | the reply and the new store are exactly those of the pass-through strategy |
| `CacheAside.CacheClient.QueryWithLogicExpire` | src/main/java/com/hmdp/utils/CacheClient.java:85-138 | the reply and the new store are those of the logical-expiry strategy; the query joins the rebuild queue exactly when that strategy schedules a rebuild; nothing else is queued |
| `CacheAside.CacheClient.RunRebuild` | src/main/java/com/hmdp/utils/CacheClient.java:116-133 | running a submitted rebuild removes it from the queue and leaves the store and the completion flag that the rebuild task gives |
| `CacheAside.CacheClient.QueryWithMutex` | src/main/java/com/hmdp/utils/CacheClient.java:140-198 | the loop with a retry budget ends in exactly the reply and store of the recursive mutex strategy with that many restarts |
| `CacheAside.LockKeyIsNotDataKey` | src/main/java/com/hmdp/utils/CacheClient.java:160 | a query's lock key "lock:" + prefix + id never equals its data key prefix + id |
| `CacheAside.DataKeyNeverLockKey` | src/main/java/com/hmdp/utils/CacheClient.java:47 | a data key whose prefix is neither a prefix of "lock:" nor begins with "lock:" equals no lock key at all |
| `CacheAside.PrefixCollides` | src/main/java/com/hmdp/utils/CacheClient.java:160 | conversely, a data prefix that is a prefix of "lock:" or begins with "lock:" has some data key that is also a lock key |
| `CacheAside.ShortPrefixCollides` | src/main/java/com/hmdp/utils/CacheClient.java:141 | with an empty prefix, the data key of id "lock:1" is the lock key of id "1" |
| `CacheAside.PassThroughHit` | src/main/java/com/hmdp/utils/CacheClient.java:50-56 | a non-blank cached string is decoded and returned, the store is unchanged, no load happens, and any loader gives the same outcome |
| `CacheAside.PassThroughSentinel` | src/main/java/com/hmdp/utils/CacheClient.java:59-62 | a present but blank string answers null with no load, no write, and the same outcome for any loader |
| `CacheAside.PassThroughMiss` | src/main/java/com/hmdp/utils/CacheClient.java:65-80 | on a true miss the loader is called once; null writes "" with the null TTL whatever the caller's TTL; a record writes its JSON with the caller's TTL and is returned; an exception leaves the store; no other key changes |
| `CacheAside.PassThroughThenHit` | src/main/java/com/hmdp/utils/CacheClient.java:46-80 | after a miss caches a record, the same query before the TTL ends returns that record with no load and no write, whatever the loader |
| `CacheAside.PassThroughPenetrationDefence` | src/main/java/com/hmdp/utils/CacheClient.java:68-73 | after the loader reports no record, the same query within the null TTL answers null with no load and no write |
| `CacheAside.MutexHitAsPassThrough` | src/main/java/com/hmdp/utils/CacheClient.java:144-156 | hits and sentinels under the mutex strategy give exactly the pass-through outcome and leave the store (and the lock) untouched |
| `CacheAside.MutexWinnerAsPassThrough` | src/main/java/com/hmdp/utils/CacheClient.java:163-194 | a miss with the lock free loads once and replies as pass-through does; its store is pass-through's with the lock key deleted |
| `CacheAside.MutexReleasesLock` | src/main/java/com/hmdp/utils/CacheClient.java:191-194 | every exit past the first read, the lock-busy retry and give-up paths included, leaves the lock key absent |
| `CacheAside.MutexLoadsAtMostOnce` | src/main/java/com/hmdp/utils/CacheClient.java:163-173 | one query calls the loader at most once, however often it starts over |
| `CacheAside.MutexFrame` | src/main/java/com/hmdp/utils/CacheClient.java:140-198 | the query changes no key other than its data key and its lock key |
| `CacheAside.MutexGivesUpUnderForeignLock` | src/main/java/com/hmdp/utils/CacheClient.java:166-169 | while another holder's lease outlasts the retry budget and the data key is absent, the query gives up without loading and its finally deletes that holder's lock |
| `CacheAside.MutexDeletesForeignLock` | src/main/java/com/hmdp/utils/CacheClient.java:191-194 | concretely: a live lock held by someone else is gone after a busy query with no retries left |
| `CacheAside.MutexThenHit` | src/main/java/com/hmdp/utils/CacheClient.java:173-188 | after the lock winner caches a record, the next query within its TTL is a hit on that record with no load, whatever its loader and budget |
| `CacheAside.LogicExpireNoRebuild` | src/main/java/com/hmdp/utils/CacheClient.java:89-106 | an absent or blank entry answers null and a fresh envelope answers its payload; neither touches the lock, the store or the queue |
| `CacheAside.LogicExpireStale` | src/main/java/com/hmdp/utils/CacheClient.java:108-137 | a stale envelope's payload is always returned; a rebuild is scheduled iff the lock was free, and then the lock is the only change to the store |
| `CacheAside.LogicExpireSingleRebuild` | src/main/java/com/hmdp/utils/CacheClient.java:111-114 | a second reader of the same stale entry within the lease gets the same stale payload and schedules no second rebuild |
| `CacheAside.RebuildWrites` | src/main/java/com/hmdp/utils/CacheClient.java:116-133 | a rebuild deletes the lock on every path; when the loader returns normally it writes {data: loaded value or null, expireTime: now + ttl} with no TTL; when it throws, the lock deletion is the only change |
| `CacheAside.RebuildThenFresh` | src/main/java/com/hmdp/utils/CacheClient.java:35-43 | after a completed rebuild, logical-expiry reads within the new TTL return the reloaded value and change nothing |
| `IdGen.Timestamp` | src/main/java/com/hmdp/utils/RedisIdWorker.java:28 | the timestamp is nowSecond - BEGIN_TIMESTAMP as a Java long, exact whenever that difference fits a long |
| `IdGen.Pack` | src/main/java/com/hmdp/utils/RedisIdWorker.java:39 | (timestamp << 32) OR count on Java longs is always a long |
| `IdGen.Pow2CountBits` | src/main/java/com/hmdp/utils/RedisIdWorker.java:16 | COUNT_BITS = 32 makes the counter field 2^32 values wide |
| `IdGen.BitOrDisjoint` | src/main/java/com/hmdp/utils/RedisIdWorker.java:39 | OR-ing a number below 2^k into a multiple of 2^k is addition |
| `IdGen.PackIsArithmetic` | src/main/java/com/hmdp/utils/RedisIdWorker.java:39 | with 0 <= timestamp < 2^31 and 0 <= count < 2^32 the ID is timestamp * 2^32 + count and a non-negative long |
| `IdGen.UnpackRoundTrip` | src/main/java/com/hmdp/utils/RedisIdWorker.java:39 | in range, id / 2^32 gives the timestamp back and id % 2^32 the count |
| `IdGen.PackInjective` | src/main/java/com/hmdp/utils/RedisIdWorker.java:39 | in range, distinct (timestamp, count) pairs give distinct IDs |
| `IdGen.PackOrderedByCount` | src/main/java/com/hmdp/utils/RedisIdWorker.java:39 | for one timestamp a strictly larger count gives a strictly larger ID |
| `IdGen.PackOrderedByTimestamp` | src/main/java/com/hmdp/utils/RedisIdWorker.java:39 | a strictly larger timestamp gives a strictly larger ID whatever the two in-range counts |
| `IdGen.CountOverflowCollides` | src/main/java/com/hmdp/utils/RedisIdWorker.java:34-39 | a count beyond 32 bits spills into the timestamp: (0, 2^32 + 1) and (1, 1) pack to the same ID |
| `IdGen.CounterKeyInjective` | src/main/java/com/hmdp/utils/RedisIdWorker.java:32-34 | with dates of equal length, equal counter keys mean the same prefix and the same date |
| `IdGen.DayCountersDistinct` | src/main/java/com/hmdp/utils/RedisIdWorker.java:32-34 | for yyyy:MM:dd dates, a different prefix or a different day names a different counter |
| `IdGen.NextIdTouchesOneCounter` | src/main/java/com/hmdp/utils/RedisIdWorker.java:34 | a call increments its own counter by one (an absent counter becomes 1) and leaves every other counter as it was |
| `IdGen.NextIdIncreasingSameDay` | src/main/java/com/hmdp/utils/RedisIdWorker.java:24-40 | two successive calls for one prefix and day, at the same or a later second, give strictly increasing IDs |
| `IdGen.NextIdIncreasingAcrossDays` | src/main/java/com/hmdp/utils/RedisIdWorker.java:24-40 | a call at a later second gives a larger ID even on a new day's counter |
| `IdGen.FirstIdOfDay` | src/main/java/com/hmdp/utils/RedisIdWorker.java:14-39 | at nowSecond 1704067200 the timestamp is 63072000 and the first ID of the day is 63072000 * 2^32 + 1 = 270892177293312001 |
| `IdGen.RedisIdWorker.constructor` | src/main/java/com/hmdp/utils/RedisIdWorker.java:18-22 | the worker keeps the counter store it is given, so the counts it sees are that store's, shared with every other worker on it |
| `IdGen.RedisIdWorker.NextId` | src/main/java/com/hmdp/utils/RedisIdWorker.java:24-40 | nextId increments exactly the store's counter icr:prefix:date and returns Pack(Timestamp(nowSecond), new count) |
| `IdGen.CounterStore.Increment` | src/main/java/com/hmdp/utils/RedisIdWorker.java:34 | INCR returns the old count plus one (1 for an absent counter) and stores it |

## Left out

- Concurrency and the thread pool:
  - Callers are modelled as successive calls; each store operation is one atomic step.
  - The pool (`Executors.newFixedThreadPool(10)`) is a queue `pending` whose tasks
    `RunRebuild` runs one at a time, in any order.
  - The limit of ten worker threads is not modelled.
- `Thread.sleep(50)` only advances the next attempt's clock by 50 ms. Its
  `InterruptedException`, which the source rethrows, is not modelled.
- `CacheAside.CacheClient.QueryWithMutex`: the source restarts without limit. The model
  restarts at most `retries` times and then replies `GaveUp`. This is the only way to prove
  termination, and it leaves unbounded waiting unmodelled.
- JSON serialisation is abstract. The round trip and non-blank output are assumed (`Lawful`)
  only where a lemma needs them. A failed cast of the envelope's `data` is not modelled.
- Wall clock and calendar: `now` (ms), `nowSecond` and the `yyyy:MM:dd` date string are
  inputs. `nowSecond` is the local wall-clock time read as UTC seconds, which is the
  source's `LocalDateTime.now().toEpochSecond(ZoneOffset.UTC)`. It equals Unix time only
  when the JVM's default zone is UTC. The UTC conversion and the formatter are not
  modelled.
- `TimeUnit`: TTLs are given in whole seconds, so the truncation in `unit.toSeconds(time)`
  does not arise.
- `CACHE_NULL_TTL` comes from `RedisConstants`, which is not part of this model. It is the
  client's `nullTtlMinutes` parameter.
- Redis behaviour beyond lazy expiry on read is not modelled:
  - eviction;
  - server errors, such as a rejected non-positive TTL (here such an entry just reads as
    expired) or `INCR` past 2^63 - 1;
  - connection failures.
- The counters are a `CounterStore` of their own rather than integer-valued entries of the
  string store `RedisStore`. The `icr:` keys are never cache keys, and counters never
  expire.
- `CacheAside.IsBlankChar`: it follows hutool's list of blank characters, which is not part
  of this model. Dafny characters are Unicode scalar values, where Java's are UTF-16 code
  units.
- The login and token interceptors and `ShopTypeServiceImpl` are not modelled. They are
  request handling and a database query with no cache or ID logic.

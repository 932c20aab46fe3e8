/** The cache-aside facade: three read strategies in front of a caller-supplied loader that
    queries the source of truth.
    - pass-through: a miss calls the loader and caches either its value or, for "no such
      record", an empty-string sentinel with a short TTL;
    - logical expiry: the cached payload sits in an envelope with its own expiry time; a
      stale read returns the stale value and, if it wins the rebuild lock, queues a
      background rebuild;
    - mutex: a miss calls the loader only under a set-if-absent lock; a caller that finds
      the lock taken waits and starts over.
    Every strategy is given as a function from the store before the call to the reply and
    the store after it; the methods of CacheClient perform the same steps one store
    operation at a time and are proved to agree with those functions. */
module CacheAside {
  import opened Wrappers
  import opened KeyValue

  const LOCK_PREFIX: string := "lock:"
  const LOCK_VALUE: string := "1"
  /** The lock is a 10-second lease. */
  const LOCK_TTL_MS: nat := 10 * 1000
  /** The mutex strategy sleeps 50 ms before it starts over. */
  const RETRY_DELAY_MS: nat := 50
  const MS_PER_SECOND: nat := 1000
  const MS_PER_MINUTE: nat := 60 * 1000

  function DataKey(keyPrefix: string, id: string): string
  {
    keyPrefix + id
  }

  function LockKey(keyPrefix: string, id: string): string
  {
    LOCK_PREFIX + keyPrefix + id
  }

  /** hutool's blank characters: Java whitespace and space characters, plus U+FEFF, U+202A,
      U+0000, U+3164, U+2800 and U+180E. */
  predicate IsBlankChar(c: char)
  {
    var n := c as int;
    (0x09 <= n <= 0x0D) || (0x1C <= n <= 0x20) || n == 0xA0 || n == 0x1680 ||
    (0x2000 <= n <= 0x200A) || n == 0x2028 || n == 0x2029 || n == 0x202F || n == 0x205F ||
    n == 0x3000 || n == 0xFEFF || n == 0x202A || n == 0x00 || n == 0x3164 || n == 0x2800 ||
    n == 0x180E
  }

  /** StrUtil.isBlank on a non-null string: empty or made only of blank characters. */
  predicate IsBlank(s: string)
  {
    forall i :: 0 <= i < |s| ==> IsBlankChar(s[i])
  }

  /** JSON serialisation of one Java type, taken as a pair of functions. */
  datatype Codec<!T> = Codec(encode: T -> string, decode: string -> T)

  /** What is assumed of JSON: decoding undoes encoding, and an encoded value is never blank
      (it is at least "{}"). */
  ghost predicate Lawful<T(!new)>(c: Codec<T>)
  {
    forall v :: c.decode(c.encode(v)) == v && !IsBlank(c.encode(v))
  }

  /** What the loader does: returns a record, returns null, or throws. */
  datatype Load<R> = Found(row: R) | NotFound | Raises

  /** The loaded value, with Java's null as None. */
  function Fetched<R>(l: Load<R>): Option<R>
    requires !l.Raises?
  {
    if l.Found? then Some(l.row) else None
  }

  /** How a query ends: with a value (None for Java's null), with the loader's exception, or,
      for the mutex strategy, with its retry budget spent. */
  datatype Reply<R> = Returned(value: Option<R>) | Threw | GaveUp

  /** The arguments of one query: key prefix, identifier (in its string form, as it appears in
      the key), loader and the caller's TTL in seconds. */
  datatype Query<R> = Query(keyPrefix: string, id: string, load: string -> Load<R>, ttlSeconds: nat)

  /** A query's reply, the store after it, and how many times it called the loader. */
  datatype Outcome<R> = Outcome(reply: Reply<R>, db: Db, loads: nat)

  /** The logical-expiry envelope: the payload (possibly null) and its absolute expiry. */
  datatype RedisData<R> = RedisData(data: Option<R>, expireTime: int)

  /** A logical-expiry read: the value returned, the store after, and whether a rebuild was
      handed to the worker pool. */
  datatype Served<R> = Served(value: Option<R>, db: Db, scheduled: bool)

  /** A background rebuild: whether its loader returned normally, and the store after. */
  datatype Refresh = Refresh(completed: bool, db: Db)

  /** The first read of both the pass-through and the mutex strategy: a non-blank string is a
      hit, a blank one is the null sentinel, absence is a true miss (None). */
  function CachedReply<R>(json: Option<string>, codec: Codec<R>): Option<Reply<R>>
  {
    match json
    case None => None
    case Some(s) => Some(if IsBlank(s) then Returned(None) else Returned(Some(codec.decode(s))))
  }

  /** Calling the loader and caching what it says: the value under the caller's TTL, or the
      empty sentinel under the fixed null TTL. An exception leaves the store alone. */
  function LoadAndCache<R>(db: Db, key: string, q: Query<R>, codec: Codec<R>, nullTtlMinutes: nat, now: int): Outcome<R>
  {
    match q.load(q.id)
    case Raises => Outcome(Threw, db, 1)
    case NotFound => Outcome(Returned(None), Stored(db, key, "", nullTtlMinutes * MS_PER_MINUTE, now), 1)
    case Found(r) => Outcome(Returned(Some(r)), Stored(db, key, codec.encode(r), q.ttlSeconds * MS_PER_SECOND, now), 1)
  }

  /** queryWithPassThrough. */
  function PassThrough<R>(db: Db, q: Query<R>, codec: Codec<R>, nullTtlMinutes: nat, now: int): Outcome<R>
  {
    var key := DataKey(q.keyPrefix, q.id);
    match CachedReply(Lookup(db, key, now), codec)
    case Some(reply) => Outcome(reply, db, 0)
    case None => LoadAndCache(db, key, q, codec, nullTtlMinutes, now)
  }

  /** The `finally { unlock(lockKey); }` of one frame of the mutex strategy. */
  function Release<R>(o: Outcome<R>, lockKey: string): Outcome<R>
  {
    o.(db := Removed(o.db, lockKey))
  }

  /** queryWithMutex, recursive as in the source, with at most `retries` restarts: each
      restart happens 50 ms later, and every frame that got past the first read releases the
      lock when it returns, whether or not it took the lock. */
  function Mutex<R>(db: Db, q: Query<R>, codec: Codec<R>, nullTtlMinutes: nat, now: int, retries: nat): Outcome<R>
    decreases retries
  {
    var key := DataKey(q.keyPrefix, q.id);
    var lockKey := LockKey(q.keyPrefix, q.id);
    match CachedReply(Lookup(db, key, now), codec)
    case Some(reply) => Outcome(reply, db, 0)
    case None =>
      var attempt := TestAndSet(db, lockKey, LOCK_VALUE, LOCK_TTL_MS, now);
      if attempt.won then Release(LoadAndCache(attempt.db, key, q, codec, nullTtlMinutes, now), lockKey)
      else if retries == 0 then Release(Outcome(GaveUp, db, 0), lockKey)
      else Release(Mutex(db, q, codec, nullTtlMinutes, now + RETRY_DELAY_MS, retries - 1), lockKey)
  }

  /** queryWithLogicExpire. It never calls the loader itself. */
  function LogicExpire<R>(db: Db, keyPrefix: string, id: string, envelopeCodec: Codec<RedisData<R>>, now: int): Served<R>
  {
    match Lookup(db, DataKey(keyPrefix, id), now)
    case None => Served(None, db, false)
    case Some(s) =>
      if IsBlank(s) then Served(None, db, false)
      else
        var envelope := envelopeCodec.decode(s);
        if envelope.expireTime > now then Served(envelope.data, db, false)
        else
          var attempt := TestAndSet(db, LockKey(keyPrefix, id), LOCK_VALUE, LOCK_TTL_MS, now);
          Served(envelope.data, attempt.db, attempt.won)
  }

  /** setWithLogicExpire: the envelope is stored without a TTL. */
  function WithLogicExpire<R>(db: Db, key: string, value: Option<R>, ttlSeconds: nat, envelopeCodec: Codec<RedisData<R>>, now: int): Db
  {
    StoredPersistent(db, key, envelopeCodec.encode(RedisData(value, now + ttlSeconds * MS_PER_SECOND)))
  }

  /** The task submitted to the rebuild pool, run at time `now`: load, write a fresh envelope,
      and release the lock in `finally`; a loader exception is caught and only ends the task. */
  function Rebuilt<R>(db: Db, q: Query<R>, envelopeCodec: Codec<RedisData<R>>, now: int): Refresh
  {
    var lockKey := LockKey(q.keyPrefix, q.id);
    var l := q.load(q.id);
    if l.Raises? then Refresh(false, Removed(db, lockKey))
    else Refresh(true, Removed(WithLogicExpire(db, DataKey(q.keyPrefix, q.id), Fetched(l), q.ttlSeconds, envelopeCodec, now), lockKey))
  }

  /** The facade. The Java class serves every entity type through generic methods; the model
      fixes the entity type R per instance so that the queue of pending rebuilds is typed. */
  class CacheClient<R> {
    const store: RedisStore
    /** JSON for the entity type, and for its logical-expiry envelope. */
    const codec: Codec<R>
    const envelopeCodec: Codec<RedisData<R>>
    /** CACHE_NULL_TTL, in minutes. */
    const nullTtlMinutes: nat
    /** Rebuilds submitted to the worker pool and not yet run. */
    var pending: seq<Query<R>>

    constructor (store: RedisStore, codec: Codec<R>, envelopeCodec: Codec<RedisData<R>>, nullTtlMinutes: nat)
      ensures this.store == store && this.codec == codec && this.envelopeCodec == envelopeCodec
      ensures this.nullTtlMinutes == nullTtlMinutes && pending == []
    {
      this.store := store;
      this.codec := codec;
      this.envelopeCodec := envelopeCodec;
      this.nullTtlMinutes := nullTtlMinutes;
      pending := [];
    }

    /** set: store the JSON of `value` under the caller's TTL. */
    method Set(key: string, value: R, ttlSeconds: nat, now: int)
      modifies store
      ensures store.data == Stored(old(store.data), key, codec.encode(value), ttlSeconds * MS_PER_SECOND, now)
    {
      store.Set(key, codec.encode(value), ttlSeconds * MS_PER_SECOND, now);
    }

    /** setWithLogicExpire. */
    method SetWithLogicExpire(key: string, value: Option<R>, ttlSeconds: nat, now: int)
      modifies store
      ensures store.data == WithLogicExpire(old(store.data), key, value, ttlSeconds, envelopeCodec, now)
    {
      var redisData := RedisData(value, now + ttlSeconds * MS_PER_SECOND);
      store.SetPersistent(key, envelopeCodec.encode(redisData));
    }

    /** tryLock: SET key "1" NX with a 10-second lease. */
    method TryLock(key: string, now: int) returns (won: bool)
      modifies store
      ensures Attempt(won, store.data) == TestAndSet(old(store.data), key, LOCK_VALUE, LOCK_TTL_MS, now)
    {
      won := store.SetIfAbsent(key, LOCK_VALUE, LOCK_TTL_MS, now);
    }

    /** unlock: DEL key, without checking who holds it. */
    method Unlock(key: string)
      modifies store
      ensures store.data == Removed(old(store.data), key)
    {
      store.Delete(key);
    }

    /** The load-and-write step shared by pass-through and the mutex lock winner. */
    method LoadAndWrite(key: string, q: Query<R>, now: int) returns (r: Reply<R>)
      modifies store
      ensures var o := LoadAndCache(old(store.data), key, q, codec, nullTtlMinutes, now);
              r == o.reply && store.data == o.db
    {
      var l := q.load(q.id);
      match l
      case Raises =>
        r := Threw;
      case NotFound =>
        store.Set(key, "", nullTtlMinutes * MS_PER_MINUTE, now);
        r := Returned(None);
      case Found(row) =>
        Set(key, row, q.ttlSeconds, now);
        r := Returned(Some(row));
    }

    method QueryWithPassThrough(q: Query<R>, now: int) returns (r: Reply<R>)
      modifies store
      ensures var o := PassThrough(old(store.data), q, codec, nullTtlMinutes, now);
              r == o.reply && store.data == o.db
    {
      var key := q.keyPrefix + q.id;
      var json := store.Get(key, now);
      if json.Some? && !IsBlank(json.value) {
        return Returned(Some(codec.decode(json.value)));
      }
      if json.Some? {
        return Returned(None);
      }
      r := LoadAndWrite(key, q, now);
    }

    method QueryWithLogicExpire(q: Query<R>, now: int) returns (r: Option<R>)
      modifies this, store
      ensures var s := LogicExpire(old(store.data), q.keyPrefix, q.id, envelopeCodec, now);
              r == s.value && store.data == s.db &&
              pending == old(pending) + (if s.scheduled then [q] else [])
    {
      var key := q.keyPrefix + q.id;
      var json := store.Get(key, now);
      if json.None? || IsBlank(json.value) {
        return None;
      }
      var redisData := envelopeCodec.decode(json.value);
      r := redisData.data;
      if redisData.expireTime > now {
        return;
      }
      var lockKey := LOCK_PREFIX + q.keyPrefix + q.id;
      var isLock := TryLock(lockKey, now);
      if isLock {
        pending := pending + [q];
      }
    }

    /** One worker of the pool runs the submitted rebuild at index i (the pool does not run
        them in submission order). */
    method RunRebuild(i: nat, now: int) returns (completed: bool)
      requires i < |pending|
      modifies this, store
      ensures pending == old(pending[..i] + pending[i + 1..])
      ensures Refresh(completed, store.data) == Rebuilt(old(store.data), old(pending[i]), envelopeCodec, now)
    {
      var q := pending[i];
      pending := pending[..i] + pending[i + 1..];
      var key := q.keyPrefix + q.id;
      var lockKey := LOCK_PREFIX + q.keyPrefix + q.id;
      var l := q.load(q.id);
      completed := !l.Raises?;
      if completed {
        SetWithLogicExpire(key, Fetched(l), q.ttlSeconds, now);
      }
      Unlock(lockKey);
    }

    /** queryWithMutex with its self-call turned into a loop that starts over at most
        `retries` times. The unlock after the loop is the `finally` of every frame that got
        past the first read, the lock winner's included: those deletes all run after the
        innermost frame returns, and one DEL has the effect of several. */
    method QueryWithMutex(q: Query<R>, now: int, retries: nat) returns (r: Reply<R>)
      modifies store
      ensures var o := Mutex(old(store.data), q, codec, nullTtlMinutes, now, retries);
              r == o.reply && store.data == o.db
    {
      var key := q.keyPrefix + q.id;
      var lockKey := LOCK_PREFIX + q.keyPrefix + q.id;
      ghost var db0 := store.data;
      ghost var spec := Mutex(db0, q, codec, nullTtlMinutes, now, retries);
      ghost var result: Outcome<R> := Outcome(GaveUp, db0, 0);
      var t: int, left: nat := now, retries;
      var entered, done := false, false;
      r := GaveUp;
      while !done
        invariant left <= retries
        invariant !done ==> store.data == db0 && spec == Finish(Mutex(db0, q, codec, nullTtlMinutes, t, left), lockKey, entered)
        invariant done ==> r == result.reply && store.data == result.db && spec == Finish(result, lockKey, entered)
        decreases !done, left
      {
        var json := store.Get(key, t);
        if json.Some? {
          r := if IsBlank(json.value) then Returned(None) else Returned(Some(codec.decode(json.value)));
          result := Outcome(r, db0, 0);
          done := true;
        } else {
          ReleaseIdempotent(Mutex(db0, q, codec, nullTtlMinutes, t, left), lockKey);
          var isLock := TryLock(lockKey, t);
          entered := true;
          if isLock {
            r := LoadAndWrite(key, q, t);
            result := LoadAndCache(TestAndSet(db0, lockKey, LOCK_VALUE, LOCK_TTL_MS, t).db, key, q, codec, nullTtlMinutes, t);
            done := true;
          } else if left == 0 {
            r := GaveUp;
            result := Outcome(GaveUp, db0, 0);
            done := true;
          } else {
            // Thread.sleep(50), then start over
            ReleaseIdempotent(Mutex(db0, q, codec, nullTtlMinutes, t + RETRY_DELAY_MS, left - 1), lockKey);
            t, left := t + RETRY_DELAY_MS, left - 1;
          }
        }
      }
      if entered {
        Unlock(lockKey);
      }
    }
  }

  /** The outer frames' releases still pending when the innermost frame returns. */
  function Finish<R>(o: Outcome<R>, lockKey: string, entered: bool): Outcome<R>
  {
    if entered then Release(o, lockKey) else o
  }

  lemma ReleaseIdempotent<R>(o: Outcome<R>, lockKey: string)
    ensures Release(Release(o, lockKey), lockKey) == Release(o, lockKey)
  {
  }

  // ---------------------------------------------------------------------------------------
  // Keys

  /** A query's lock key is never its data key. */
  lemma LockKeyIsNotDataKey(keyPrefix: string, id: string)
    ensures DataKey(keyPrefix, id) != LockKey(keyPrefix, id)
  {
  }

  /** Data keys and lock keys live in disjoint namespaces exactly when the data prefix and
      "lock:" are incomparable: neither is a prefix of the other. */
  lemma {:induction false} DataKeyNeverLockKey(keyPrefix: string, id: string, lockPrefix: string, lockId: string)
    requires !(keyPrefix <= LOCK_PREFIX) && !(LOCK_PREFIX <= keyPrefix)
    ensures DataKey(keyPrefix, id) != LockKey(lockPrefix, lockId)
  {
    var d, l := DataKey(keyPrefix, id), LockKey(lockPrefix, lockId);
    assert l == LOCK_PREFIX + (lockPrefix + lockId);
    if |keyPrefix| >= |LOCK_PREFIX| {
      assert d[..|LOCK_PREFIX|] == keyPrefix[..|LOCK_PREFIX|] != LOCK_PREFIX == l[..|LOCK_PREFIX|];
    } else {
      assert d[..|keyPrefix|] == keyPrefix != LOCK_PREFIX[..|keyPrefix|] == l[..|keyPrefix|];
    }
  }

  /** The converse: a data prefix comparable with "lock:" shares some key with the lock
      namespace. */
  lemma PrefixCollides(keyPrefix: string)
    requires keyPrefix <= LOCK_PREFIX || LOCK_PREFIX <= keyPrefix
    ensures exists id, lockPrefix, lockId :: DataKey(keyPrefix, id) == LockKey(lockPrefix, lockId)
  {
    if keyPrefix <= LOCK_PREFIX {
      var id := LOCK_PREFIX[|keyPrefix|..];
      assert DataKey(keyPrefix, id) == LockKey("", "");
    } else {
      var rest := keyPrefix[|LOCK_PREFIX|..];
      assert DataKey(keyPrefix, "") == LockKey(rest, "");
    }
  }

  /** A concrete collision: with the empty prefix, the data key of id "lock:1" is the lock key
      of id "1". */
  lemma ShortPrefixCollides()
    ensures DataKey("", "lock:1") == LockKey("", "1")
  {
  }

  // ---------------------------------------------------------------------------------------
  // Pass-through

  /** A non-blank cached string is decoded and returned; the loader is not consulted (any
      loader gives the same outcome) and the store is unchanged. */
  lemma PassThroughHit<R>(db: Db, q: Query<R>, codec: Codec<R>, nullTtlMinutes: nat, now: int, otherLoad: string -> Load<R>)
    requires Lookup(db, DataKey(q.keyPrefix, q.id), now).Some?
    requires !IsBlank(Lookup(db, DataKey(q.keyPrefix, q.id), now).value)
    ensures PassThrough(db, q, codec, nullTtlMinutes, now) ==
            Outcome(Returned(Some(codec.decode(Lookup(db, DataKey(q.keyPrefix, q.id), now).value))), db, 0)
    ensures PassThrough(db, q.(load := otherLoad), codec, nullTtlMinutes, now) == PassThrough(db, q, codec, nullTtlMinutes, now)
  {
  }

  /** A blank cached string (the null sentinel) answers null without a load and without a
      write. */
  lemma PassThroughSentinel<R>(db: Db, q: Query<R>, codec: Codec<R>, nullTtlMinutes: nat, now: int, otherLoad: string -> Load<R>)
    requires Lookup(db, DataKey(q.keyPrefix, q.id), now).Some?
    requires IsBlank(Lookup(db, DataKey(q.keyPrefix, q.id), now).value)
    ensures PassThrough(db, q, codec, nullTtlMinutes, now) == Outcome(Returned(None), db, 0)
    ensures PassThrough(db, q.(load := otherLoad), codec, nullTtlMinutes, now) == PassThrough(db, q, codec, nullTtlMinutes, now)
  {
  }

  /** On a true miss the loader is called once: null caches "" for CACHE_NULL_TTL minutes,
      whatever the caller's TTL; a record is cached as JSON under the caller's TTL and
      returned; an exception propagates with the store unchanged. No other key changes. */
  lemma PassThroughMiss<R>(db: Db, q: Query<R>, codec: Codec<R>, nullTtlMinutes: nat, now: int)
    requires Lookup(db, DataKey(q.keyPrefix, q.id), now).None?
    ensures var o := PassThrough(db, q, codec, nullTtlMinutes, now);
            var key := DataKey(q.keyPrefix, q.id);
            o.loads == 1 &&
            (q.load(q.id).NotFound? ==> o.reply == Returned(None) && o.db == db[key := Entry("", Some(now + nullTtlMinutes * MS_PER_MINUTE))]) &&
            (q.load(q.id).Found? ==> o.reply == Returned(Some(q.load(q.id).row)) &&
                                     o.db == db[key := Entry(codec.encode(q.load(q.id).row), Some(now + q.ttlSeconds * MS_PER_SECOND))]) &&
            (q.load(q.id).Raises? ==> o.reply == Threw && o.db == db)
  {
  }

  /** Idempotent hit: once a miss has cached a record, repeating the query before the TTL
      runs out returns the same record, with no load (whatever the loader now says) and no
      write. */
  lemma PassThroughThenHit<R(!new)>(db: Db, q: Query<R>, codec: Codec<R>, nullTtlMinutes: nat, now: int, later: int, again: Query<R>)
    requires Lawful(codec)
    requires Lookup(db, DataKey(q.keyPrefix, q.id), now).None? && q.load(q.id).Found?
    requires again.keyPrefix == q.keyPrefix && again.id == q.id
    requires now <= later < now + q.ttlSeconds * MS_PER_SECOND
    ensures var first := PassThrough(db, q, codec, nullTtlMinutes, now);
            first.reply == Returned(Some(q.load(q.id).row)) &&
            PassThrough(first.db, again, codec, nullTtlMinutes, later) == Outcome(first.reply, first.db, 0)
  {
    var row := q.load(q.id).row;
    assert !IsBlank(codec.encode(row)) && codec.decode(codec.encode(row)) == row;
  }

  /** Penetration defence: once the loader has said "no such record", the same query within
      the null TTL answers null without calling the loader again. */
  lemma PassThroughPenetrationDefence<R>(db: Db, q: Query<R>, codec: Codec<R>, nullTtlMinutes: nat, now: int, later: int, again: Query<R>)
    requires Lookup(db, DataKey(q.keyPrefix, q.id), now).None? && q.load(q.id).NotFound?
    requires again.keyPrefix == q.keyPrefix && again.id == q.id
    requires now <= later < now + nullTtlMinutes * MS_PER_MINUTE
    ensures var first := PassThrough(db, q, codec, nullTtlMinutes, now);
            first.reply == Returned(None) &&
            PassThrough(first.db, again, codec, nullTtlMinutes, later) == Outcome(Returned(None), first.db, 0)
  {
    var first := PassThrough(db, q, codec, nullTtlMinutes, now);
    assert Lookup(first.db, DataKey(q.keyPrefix, q.id), later) == Some("");
  }

  // ---------------------------------------------------------------------------------------
  // Mutex

  /** Hits and sentinels are answered exactly as by pass-through, whatever the lock. */
  lemma MutexHitAsPassThrough<R>(db: Db, q: Query<R>, codec: Codec<R>, nullTtlMinutes: nat, now: int, retries: nat)
    requires Lookup(db, DataKey(q.keyPrefix, q.id), now).Some?
    ensures Mutex(db, q, codec, nullTtlMinutes, now, retries) == PassThrough(db, q, codec, nullTtlMinutes, now)
    ensures Mutex(db, q, codec, nullTtlMinutes, now, retries).db == db
  {
  }

  /** A miss that wins the lock loads and writes as pass-through does; the lock is gone
      afterwards. */
  lemma MutexWinnerAsPassThrough<R>(db: Db, q: Query<R>, codec: Codec<R>, nullTtlMinutes: nat, now: int, retries: nat)
    requires Lookup(db, DataKey(q.keyPrefix, q.id), now).None?
    requires Lookup(db, LockKey(q.keyPrefix, q.id), now).None?
    ensures var m := Mutex(db, q, codec, nullTtlMinutes, now, retries);
            var p := PassThrough(db, q, codec, nullTtlMinutes, now);
            m.reply == p.reply && m.loads == p.loads == 1 &&
            m.db == Removed(p.db, LockKey(q.keyPrefix, q.id))
  {
    var key, lockKey := DataKey(q.keyPrefix, q.id), LockKey(q.keyPrefix, q.id);
    LockKeyIsNotDataKey(q.keyPrefix, q.id);
    var locked := Stored(db, lockKey, LOCK_VALUE, LOCK_TTL_MS, now);
    match q.load(q.id)
    case Raises =>
      assert Removed(locked, lockKey) == Removed(db, lockKey);
    case NotFound =>
      var e := Entry("", Some(now + nullTtlMinutes * MS_PER_MINUTE));
      assert Removed(locked[key := e], lockKey) == Removed(db[key := e], lockKey);
    case Found(r) =>
      var e := Entry(codec.encode(r), Some(now + q.ttlSeconds * MS_PER_SECOND));
      assert Removed(locked[key := e], lockKey) == Removed(db[key := e], lockKey);
  }

  /** Every exit past the first read, the busy and give-up paths included, leaves the lock
      key deleted. */
  lemma MutexReleasesLock<R>(db: Db, q: Query<R>, codec: Codec<R>, nullTtlMinutes: nat, now: int, retries: nat)
    requires Lookup(db, DataKey(q.keyPrefix, q.id), now).None?
    ensures LockKey(q.keyPrefix, q.id) !in Mutex(db, q, codec, nullTtlMinutes, now, retries).db
  {
  }

  /** At most one load per query, however many times it starts over. */
  lemma {:induction false} MutexLoadsAtMostOnce<R>(db: Db, q: Query<R>, codec: Codec<R>, nullTtlMinutes: nat, now: int, retries: nat)
    ensures Mutex(db, q, codec, nullTtlMinutes, now, retries).loads <= 1
    decreases retries
  {
    if retries > 0 {
      MutexLoadsAtMostOnce(db, q, codec, nullTtlMinutes, now + RETRY_DELAY_MS, retries - 1);
    }
  }

  /** The query touches only its data key and its lock key. */
  lemma {:induction false} MutexFrame<R>(db: Db, q: Query<R>, codec: Codec<R>, nullTtlMinutes: nat, now: int, retries: nat, k: string)
    requires k != DataKey(q.keyPrefix, q.id) && k != LockKey(q.keyPrefix, q.id)
    ensures var after := Mutex(db, q, codec, nullTtlMinutes, now, retries).db;
            (k in after <==> k in db) && (k in db ==> after[k] == db[k])
    decreases retries
  {
    if retries > 0 {
      MutexFrame(db, q, codec, nullTtlMinutes, now + RETRY_DELAY_MS, retries - 1, k);
    }
  }

  /** While another holder's lease outlasts the whole retry budget and the data key stays
      absent, the query gives up without loading, and its `finally` still deletes the lock
      it never held. */
  lemma {:induction false} MutexGivesUpUnderForeignLock<R>(db: Db, q: Query<R>, codec: Codec<R>, nullTtlMinutes: nat, now: int, retries: nat)
    requires DataKey(q.keyPrefix, q.id) !in db
    requires LockKey(q.keyPrefix, q.id) in db
    requires Live(db[LockKey(q.keyPrefix, q.id)], now + retries * RETRY_DELAY_MS)
    ensures var o := Mutex(db, q, codec, nullTtlMinutes, now, retries);
            o.reply == GaveUp && o.loads == 0 && LockKey(q.keyPrefix, q.id) !in o.db
    decreases retries
  {
    var lockKey := LockKey(q.keyPrefix, q.id);
    assert Live(db[lockKey], now);
    if retries > 0 {
      MutexGivesUpUnderForeignLock(db, q, codec, nullTtlMinutes, now + RETRY_DELAY_MS, retries - 1);
    }
  }

  /** A concrete case of the above: a lock taken by someone else at time 0, and a query at
      time 0 with no retries left, ends with that holder's lock deleted. */
  lemma MutexDeletesForeignLock<R>(q: Query<R>, codec: Codec<R>, nullTtlMinutes: nat)
    ensures var db := map[LockKey(q.keyPrefix, q.id) := Entry(LOCK_VALUE, Some(LOCK_TTL_MS))];
            var o := Mutex(db, q, codec, nullTtlMinutes, 0, 0);
            Lookup(db, LockKey(q.keyPrefix, q.id), 0) == Some(LOCK_VALUE) &&
            o.reply == GaveUp && Lookup(o.db, LockKey(q.keyPrefix, q.id), 0).None?
  {
    LockKeyIsNotDataKey(q.keyPrefix, q.id);
  }

  /** Stampede defence: after the lock winner has cached a record, the next query for that key
      within the TTL is a hit with the same record and no load, whatever its loader and
      retry budget. */
  lemma MutexThenHit<R(!new)>(db: Db, q: Query<R>, codec: Codec<R>, nullTtlMinutes: nat, now: int, retries: nat, later: int, again: Query<R>, retries2: nat)
    requires Lawful(codec)
    requires Lookup(db, DataKey(q.keyPrefix, q.id), now).None?
    requires Lookup(db, LockKey(q.keyPrefix, q.id), now).None?
    requires q.load(q.id).Found?
    requires again.keyPrefix == q.keyPrefix && again.id == q.id
    requires now <= later < now + q.ttlSeconds * MS_PER_SECOND
    ensures var first := Mutex(db, q, codec, nullTtlMinutes, now, retries);
            first.reply == Returned(Some(q.load(q.id).row)) &&
            Mutex(first.db, again, codec, nullTtlMinutes, later, retries2) == Outcome(first.reply, first.db, 0)
  {
    var key, lockKey := DataKey(q.keyPrefix, q.id), LockKey(q.keyPrefix, q.id);
    LockKeyIsNotDataKey(q.keyPrefix, q.id);
    var row := q.load(q.id).row;
    assert !IsBlank(codec.encode(row)) && codec.decode(codec.encode(row)) == row;
    var first := Mutex(db, q, codec, nullTtlMinutes, now, retries);
    assert first.db[key] == Entry(codec.encode(row), Some(now + q.ttlSeconds * MS_PER_SECOND));
  }

  // ---------------------------------------------------------------------------------------
  // Logical expiry

  /** An absent or blank entry answers null and changes nothing; a fresh envelope answers its
      payload without touching the lock. */
  lemma LogicExpireNoRebuild<R>(db: Db, keyPrefix: string, id: string, envelopeCodec: Codec<RedisData<R>>, now: int)
    requires var json := Lookup(db, DataKey(keyPrefix, id), now);
             json.None? || IsBlank(json.value) || envelopeCodec.decode(json.value).expireTime > now
    ensures var s := LogicExpire(db, keyPrefix, id, envelopeCodec, now);
            var json := Lookup(db, DataKey(keyPrefix, id), now);
            s.db == db && !s.scheduled &&
            s.value == (if json.None? || IsBlank(json.value) then None else envelopeCodec.decode(json.value).data)
  {
  }

  /** A stale envelope is returned as it is; a rebuild is scheduled exactly when the lock was
      free, and then the only change to the store is the lock. */
  lemma LogicExpireStale<R>(db: Db, keyPrefix: string, id: string, envelopeCodec: Codec<RedisData<R>>, now: int)
    requires Lookup(db, DataKey(keyPrefix, id), now).Some?
    requires var s := Lookup(db, DataKey(keyPrefix, id), now).value;
             !IsBlank(s) && envelopeCodec.decode(s).expireTime <= now
    ensures var s := LogicExpire(db, keyPrefix, id, envelopeCodec, now);
            var stale := envelopeCodec.decode(Lookup(db, DataKey(keyPrefix, id), now).value);
            s.value == stale.data &&
            (s.scheduled <==> Lookup(db, LockKey(keyPrefix, id), now).None?) &&
            s.db == (if s.scheduled then Stored(db, LockKey(keyPrefix, id), LOCK_VALUE, LOCK_TTL_MS, now) else db)
  {
  }

  /** Stampede defence: a second reader of the same stale entry within the lease gets the same
      stale payload and schedules no second rebuild. */
  lemma LogicExpireSingleRebuild<R>(db: Db, keyPrefix: string, id: string, envelopeCodec: Codec<RedisData<R>>, now: int, later: int)
    requires now <= later < now + LOCK_TTL_MS
    requires Lookup(db, DataKey(keyPrefix, id), later) == Lookup(db, DataKey(keyPrefix, id), now)
    requires LogicExpire(db, keyPrefix, id, envelopeCodec, now).scheduled
    ensures var first := LogicExpire(db, keyPrefix, id, envelopeCodec, now);
            var second := LogicExpire(first.db, keyPrefix, id, envelopeCodec, later);
            second.value == first.value && !second.scheduled && second.db == first.db
  {
    LockKeyIsNotDataKey(keyPrefix, id);
  }

  /** A completed rebuild writes the loaded value (possibly null) in an envelope expiring
      ttlSeconds later, with no store TTL, and deletes the lock; a failed one only deletes the
      lock. */
  lemma RebuildWrites<R>(db: Db, q: Query<R>, envelopeCodec: Codec<RedisData<R>>, now: int)
    ensures var f := Rebuilt(db, q, envelopeCodec, now);
            var key, lockKey := DataKey(q.keyPrefix, q.id), LockKey(q.keyPrefix, q.id);
            lockKey !in f.db &&
            (f.completed <==> !q.load(q.id).Raises?) &&
            (f.completed ==> key in f.db &&
                             f.db[key] == Entry(envelopeCodec.encode(RedisData(Fetched(q.load(q.id)), now + q.ttlSeconds * MS_PER_SECOND)), None)) &&
            (!f.completed ==> f.db == Removed(db, lockKey))
  {
    LockKeyIsNotDataKey(q.keyPrefix, q.id);
  }

  /** After a completed rebuild, reads within the new logical TTL are fresh: they return the
      reloaded value and change nothing. */
  lemma RebuildThenFresh<R(!new)>(db: Db, q: Query<R>, envelopeCodec: Codec<RedisData<R>>, now: int, later: int)
    requires Lawful(envelopeCodec)
    requires !q.load(q.id).Raises?
    requires now <= later < now + q.ttlSeconds * MS_PER_SECOND
    ensures var f := Rebuilt(db, q, envelopeCodec, now);
            LogicExpire(f.db, q.keyPrefix, q.id, envelopeCodec, later) == Served(Fetched(q.load(q.id)), f.db, false)
  {
    LockKeyIsNotDataKey(q.keyPrefix, q.id);
    var envelope := RedisData(Fetched(q.load(q.id)), now + q.ttlSeconds * MS_PER_SECOND);
    assert !IsBlank(envelopeCodec.encode(envelope)) && envelopeCodec.decode(envelopeCodec.encode(envelope)) == envelope;
    var f := Rebuilt(db, q, envelopeCodec, now);
    assert Lookup(f.db, DataKey(q.keyPrefix, q.id), later) == Some(envelopeCodec.encode(envelope));
  }
}

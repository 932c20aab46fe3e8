/** The string key-value store behind the cache: GET, SET with a TTL, SET without a TTL,
    SET-if-absent with a TTL and DEL, over a map whose entries may carry an absolute expiry
    time on the store's clock (milliseconds). An entry whose expiry has passed reads as
    absent, which is all that is modelled of the server's expiry mechanics. */
module KeyValue {
  import opened Wrappers

  /** A stored value and the instant at which it lapses; None means no TTL. */
  datatype Entry = Entry(value: string, expiresAt: Option<int>)

  type Db = map<string, Entry>

  predicate Live(e: Entry, now: int)
  {
    e.expiresAt.None? || now < e.expiresAt.value
  }

  /** GET key at time `now`. */
  function Lookup(db: Db, key: string, now: int): Option<string>
  {
    if key in db && Live(db[key], now) then Some(db[key].value) else None
  }

  /** SET key value PX ttlMs at time `now`. */
  function Stored(db: Db, key: string, value: string, ttlMs: nat, now: int): Db
  {
    db[key := Entry(value, Some(now + ttlMs))]
  }

  /** SET key value, which also clears any TTL the key had. */
  function StoredPersistent(db: Db, key: string, value: string): Db
  {
    db[key := Entry(value, None)]
  }

  /** DEL key. */
  function Removed(db: Db, key: string): Db
  {
    db - {key}
  }

  /** The outcome of SET key value NX PX ttlMs: whether it wrote, and the store after. */
  datatype Attempt = Attempt(won: bool, db: Db)

  function TestAndSet(db: Db, key: string, value: string, ttlMs: nat, now: int): Attempt
  {
    if Lookup(db, key, now).None? then Attempt(true, Stored(db, key, value, ttlMs, now))
    else Attempt(false, db)
  }

  /** SET-if-absent succeeds exactly when the key holds no live value, and then the key
      holds `value` until the lease lapses; otherwise nothing changes. */
  lemma TestAndSetSpec(db: Db, key: string, value: string, ttlMs: nat, now: int, later: int)
    requires now <= later < now + ttlMs
    ensures var a := TestAndSet(db, key, value, ttlMs, now);
            (a.won <==> Lookup(db, key, now).None?) &&
            (a.won ==> Lookup(a.db, key, later) == Some(value)) &&
            (!a.won ==> a.db == db) &&
            (forall k :: k != key ==> Lookup(a.db, k, now) == Lookup(db, k, now))
  {
  }

  /** Lock exclusivity: once SET-if-absent has won, every further SET-if-absent on that key
      fails until the lease lapses. */
  lemma TestAndSetExclusive(db: Db, key: string, v1: string, ttl1: nat, t1: int, v2: string, ttl2: nat, t2: int)
    requires TestAndSet(db, key, v1, ttl1, t1).won
    requires t1 <= t2 < t1 + ttl1
    ensures !TestAndSet(TestAndSet(db, key, v1, ttl1, t1).db, key, v2, ttl2, t2).won
  {
  }

  /** After DEL, or once the lease has lapsed, SET-if-absent wins again. */
  lemma TestAndSetAfterRelease(db: Db, key: string, v1: string, ttl1: nat, t1: int, v2: string, ttl2: nat, t2: int)
    requires TestAndSet(db, key, v1, ttl1, t1).won
    ensures TestAndSet(Removed(TestAndSet(db, key, v1, ttl1, t1).db, key), key, v2, ttl2, t2).won
    ensures t2 >= t1 + ttl1 ==> TestAndSet(TestAndSet(db, key, v1, ttl1, t1).db, key, v2, ttl2, t2).won
  {
  }

  /** The store object through which every strategy reads and writes. */
  class RedisStore {
    var data: Db

    constructor ()
      ensures data == map[]
    {
      data := map[];
    }

    method Get(key: string, now: int) returns (v: Option<string>)
      ensures v.Some? <==> key in data && Live(data[key], now)
      ensures v.Some? ==> v.value == data[key].value
    {
      if key in data && Live(data[key], now) {
        v := Some(data[key].value);
      } else {
        v := None;
      }
    }

    method Set(key: string, value: string, ttlMs: nat, now: int)
      modifies this
      ensures data == Stored(old(data), key, value, ttlMs, now)
    {
      data := data[key := Entry(value, Some(now + ttlMs))];
    }

    method SetPersistent(key: string, value: string)
      modifies this
      ensures data == StoredPersistent(old(data), key, value)
    {
      data := data[key := Entry(value, None)];
    }

    /** Atomic test-and-set: one step, so no other caller can interleave. */
    method SetIfAbsent(key: string, value: string, ttlMs: nat, now: int) returns (won: bool)
      modifies this
      ensures Attempt(won, data) == TestAndSet(old(data), key, value, ttlMs, now)
    {
      var current := Get(key, now);
      won := current.None?;
      if won {
        data := data[key := Entry(value, Some(now + ttlMs))];
      }
    }

    method Delete(key: string)
      modifies this
      ensures data == Removed(old(data), key)
    {
      data := data - {key};
    }
  }
}

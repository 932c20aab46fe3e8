/** The distributed ID generator: a 64-bit identifier made of the seconds elapsed since an
    agreed epoch, shifted left by 32 bits, OR'd with a per-prefix, per-day counter kept in
    the shared store. Java `long` arithmetic is modelled explicitly: values wrap modulo 2^64
    and `|` is bitwise OR on the two's-complement bit patterns. */
module IdGen {

  /** 2022-01-01T00:00:00Z in seconds since the Unix epoch. */
  const BEGIN_TIMESTAMP: int := 1640995200

  /** Width of the counter field. */
  const COUNT_BITS: nat := 32

  const TWO_32: int := 0x1_0000_0000
  const TWO_63: int := 0x8000_0000_0000_0000
  const TWO_64: int := 0x1_0000_0000_0000_0000

  predicate IsLong(x: int) { -TWO_63 <= x < TWO_63 }

  function Pow2(k: nat): (p: nat)
    ensures p > 0
  {
    if k == 0 then 1 else 2 * Pow2(k - 1)
  }

  /** Java's narrowing of an exact integer result to a `long` (wrap-around modulo 2^64). */
  function ToLong(x: int): (r: int)
    ensures IsLong(r)
    ensures (r - x) % TWO_64 == 0
    ensures IsLong(x) ==> r == x
  {
    var u := x % TWO_64;
    if u >= TWO_63 then u - TWO_64 else u
  }

  /** The 64-bit pattern of a `long`, read as an unsigned number. */
  function Bits(x: int): (u: nat)
    ensures u < TWO_64
  {
    x % TWO_64
  }

  /** Bitwise OR of two non-negative numbers, one bit at a time from the lowest. */
  function BitOr(a: nat, b: nat): nat
    decreases a + b
  {
    if a == 0 then b
    else if b == 0 then a
    else 2 * BitOr(a / 2, b / 2) + (if a % 2 == 1 || b % 2 == 1 then 1 else 0)
  }

  /** `timestamp << COUNT_BITS | count` on Java longs. */
  function Pack(timestamp: int, count: int): (id: int)
    ensures IsLong(id)
  {
    var shifted := (Bits(timestamp) * Pow2(COUNT_BITS)) % TWO_64;
    ToLong(BitOr(shifted, Bits(count)))
  }

  /** `nowSecond - BEGIN_TIMESTAMP` on Java longs. */
  function Timestamp(nowSecond: int): (ts: int)
    ensures IsLong(ts)
    ensures IsLong(nowSecond - BEGIN_TIMESTAMP) ==> ts == nowSecond - BEGIN_TIMESTAMP
  {
    ToLong(nowSecond - BEGIN_TIMESTAMP)
  }

  /** The key of the day's counter: "icr:" + keyPrefix + ":" + date, with `date` already
      rendered as yyyy:MM:dd. */
  function CounterKey(keyPrefix: string, date: string): string
  {
    "icr:" + keyPrefix + ":" + date
  }

  /** A date rendered by the pattern yyyy:MM:dd for a four-digit year. */
  predicate IsDayStamp(date: string)
  {
    |date| == 10 && date[4] == ':' && date[7] == ':' &&
    forall i :: 0 <= i < 10 && i != 4 && i != 7 ==> '0' <= date[i] <= '9'
  }

  lemma {:induction false} Pow2Add(a: nat, b: nat)
    ensures Pow2(a + b) == Pow2(a) * Pow2(b)
  {
    if a > 0 {
      Pow2Add(a - 1, b);
    }
  }

  /** The counter field spans 2^32 values. */
  lemma Pow2CountBits()
    ensures Pow2(COUNT_BITS) == TWO_32
  {
    assert Pow2(4) == 16;
    Pow2Add(4, 4);
    Pow2Add(8, 8);
    Pow2Add(16, 16);
  }

  /** OR-ing a value into bits that the shifted part leaves clear is addition. */
  lemma {:induction false} BitOrDisjoint(hi: nat, lo: nat, k: nat)
    requires lo < Pow2(k)
    ensures BitOr(hi * Pow2(k), lo) == hi * Pow2(k) + lo
  {
    var x := hi * Pow2(k);
    if k == 0 {
      assert lo == 0;
    } else if x == 0 || lo == 0 {
    } else {
      var p := Pow2(k - 1);
      assert x == 2 * (hi * p);
      assert x / 2 == hi * p && x % 2 == 0;
      assert lo / 2 < p;
      BitOrDisjoint(hi, lo / 2, k - 1);
      assert BitOr(x, lo) == 2 * BitOr(hi * p, lo / 2) + lo % 2;
    }
  }

  /** Within the ranges the generator is meant for, the packed ID is exactly
      timestamp * 2^32 + count, and it is a non-negative long. */
  lemma PackIsArithmetic(timestamp: int, count: int)
    requires 0 <= timestamp < 0x8000_0000
    requires 0 <= count < TWO_32
    ensures Pack(timestamp, count) == timestamp * TWO_32 + count
    ensures 0 <= Pack(timestamp, count)
  {
    Pow2CountBits();
    var p := Pow2(COUNT_BITS);
    assert Bits(timestamp) == timestamp && Bits(count) == count;
    assert timestamp * p < TWO_63;
    assert (Bits(timestamp) * p) % TWO_64 == timestamp * p;
    BitOrDisjoint(timestamp, count, COUNT_BITS);
  }

  /** Unpacking: the high part gives the timestamp back and the low 32 bits the count. */
  lemma UnpackRoundTrip(timestamp: int, count: int)
    requires 0 <= timestamp < 0x8000_0000
    requires 0 <= count < TWO_32
    ensures Pack(timestamp, count) / TWO_32 == timestamp
    ensures Pack(timestamp, count) % TWO_32 == count
  {
    PackIsArithmetic(timestamp, count);
  }

  /** Distinct (timestamp, count) pairs in range give distinct IDs. */
  lemma PackInjective(t1: int, c1: int, t2: int, c2: int)
    requires 0 <= t1 < 0x8000_0000 && 0 <= c1 < TWO_32
    requires 0 <= t2 < 0x8000_0000 && 0 <= c2 < TWO_32
    requires Pack(t1, c1) == Pack(t2, c2)
    ensures t1 == t2 && c1 == c2
  {
    UnpackRoundTrip(t1, c1);
    UnpackRoundTrip(t2, c2);
  }

  /** Within one second, a larger count gives a larger ID. */
  lemma PackOrderedByCount(timestamp: int, c1: int, c2: int)
    requires 0 <= timestamp < 0x8000_0000
    requires 0 <= c1 < c2 < TWO_32
    ensures Pack(timestamp, c1) < Pack(timestamp, c2)
  {
    PackIsArithmetic(timestamp, c1);
    PackIsArithmetic(timestamp, c2);
  }

  /** A later second gives a larger ID whatever the two counts are. */
  lemma PackOrderedByTimestamp(t1: int, c1: int, t2: int, c2: int)
    requires 0 <= t1 < t2 < 0x8000_0000
    requires 0 <= c1 < TWO_32 && 0 <= c2 < TWO_32
    ensures Pack(t1, c1) < Pack(t2, c2)
  {
    PackIsArithmetic(t1, c1);
    PackIsArithmetic(t2, c2);
    assert t1 * TWO_32 + TWO_32 <= t2 * TWO_32;
  }

  /** A count that no longer fits in 32 bits spills into the timestamp field: the
      4294967296th ID of second 0 collides with the first ID of second 1. */
  lemma CountOverflowCollides()
    ensures Pack(0, TWO_32 + 1) == Pack(1, 1)
  {
    PackIsArithmetic(1, 1);
    Pow2CountBits();
    var p := Pow2(COUNT_BITS);
    assert Bits(0) == 0 && Bits(TWO_32 + 1) == TWO_32 + 1;
    assert (Bits(0) * p) % TWO_64 == 0;
  }

  /** Counter keys name one counter per prefix and day: with dates of the same length (as
      yyyy:MM:dd renderings are), equal keys mean the same prefix and the same day. */
  lemma {:induction false} CounterKeyInjective(p1: string, d1: string, p2: string, d2: string)
    requires |d1| == |d2|
    requires CounterKey(p1, d1) == CounterKey(p2, d2)
    ensures p1 == p2 && d1 == d2
  {
    var k := CounterKey(p1, d1);
    assert |p1| == |p2|;
    assert k[4..4 + |p1|] == p1 by { assert k == "icr:" + p1 + (":" + d1); }
    assert k[4..4 + |p2|] == p2 by { assert k == "icr:" + p2 + (":" + d2); }
    assert k[5 + |p1|..] == d1 by { assert k == ("icr:" + p1 + ":") + d1; }
    assert k[5 + |p2|..] == d2 by { assert k == ("icr:" + p2 + ":") + d2; }
  }

  /** Two day stamps always have the same length, so the counter is per prefix and per day. */
  lemma DayCountersDistinct(p1: string, d1: string, p2: string, d2: string)
    requires IsDayStamp(d1) && IsDayStamp(d2)
    requires p1 != p2 || d1 != d2
    ensures CounterKey(p1, d1) != CounterKey(p2, d2)
  {
    if CounterKey(p1, d1) == CounterKey(p2, d2) {
      CounterKeyInjective(p1, d1, p2, d2);
    }
  }

  /** Redis INCR: an absent counter counts from 0, so its first increment yields 1. */
  function Incremented(counters: map<string, int>, key: string): int
  {
    (if key in counters then counters[key] else 0) + 1
  }

  /** What one call of nextId returns and how it leaves the counters. */
  datatype Issued = Issued(id: int, counters: map<string, int>)

  function NextIdSpec(counters: map<string, int>, keyPrefix: string, nowSecond: int, date: string): Issued
  {
    var key := CounterKey(keyPrefix, date);
    var count := Incremented(counters, key);
    Issued(Pack(Timestamp(nowSecond), count), counters[key := count])
  }

  /** One nextId call bumps exactly its day's counter by one and leaves every other counter
      alone. */
  lemma NextIdTouchesOneCounter(counters: map<string, int>, keyPrefix: string, nowSecond: int, date: string, other: string)
    requires other != CounterKey(keyPrefix, date)
    ensures var after := NextIdSpec(counters, keyPrefix, nowSecond, date).counters;
            CounterKey(keyPrefix, date) in after &&
            after[CounterKey(keyPrefix, date)] == Incremented(counters, CounterKey(keyPrefix, date)) &&
            (other in after <==> other in counters) &&
            (other in counters ==> after[other] == counters[other])
  {
  }

  /** Successive calls for the same prefix and day, at the same or a later second, return
      strictly increasing IDs while the ranges hold. */
  lemma {:induction false} NextIdIncreasingSameDay(counters: map<string, int>, keyPrefix: string, s1: int, s2: int, date: string)
    requires BEGIN_TIMESTAMP <= s1 <= s2 < BEGIN_TIMESTAMP + 0x8000_0000
    requires var key := CounterKey(keyPrefix, date);
             key in counters ==> 0 <= counters[key] && counters[key] + 2 < TWO_32
    ensures var first := NextIdSpec(counters, keyPrefix, s1, date);
            var second := NextIdSpec(first.counters, keyPrefix, s2, date);
            first.id < second.id
  {
    var key := CounterKey(keyPrefix, date);
    var first := NextIdSpec(counters, keyPrefix, s1, date);
    var c1 := Incremented(counters, key);
    assert Incremented(first.counters, key) == c1 + 1;
    var t1, t2 := Timestamp(s1), Timestamp(s2);
    if t1 == t2 {
      PackOrderedByCount(t1, c1, c1 + 1);
    } else {
      PackOrderedByTimestamp(t1, c1, t2, c1 + 1);
    }
  }

  /** Across a day boundary (a later second, a fresh counter) the timestamp dominates. */
  lemma NextIdIncreasingAcrossDays(counters: map<string, int>, keyPrefix: string, s1: int, d1: string, s2: int, d2: string)
    requires BEGIN_TIMESTAMP <= s1 < s2 < BEGIN_TIMESTAMP + 0x8000_0000
    requires var k1 := CounterKey(keyPrefix, d1); k1 in counters ==> 0 <= counters[k1] && counters[k1] + 1 < TWO_32
    requires var k2 := CounterKey(keyPrefix, d2); k2 in counters ==> 0 <= counters[k2] && counters[k2] + 2 < TWO_32
    ensures var first := NextIdSpec(counters, keyPrefix, s1, d1);
            var second := NextIdSpec(first.counters, keyPrefix, s2, d2);
            first.id < second.id
  {
    var k1, k2 := CounterKey(keyPrefix, d1), CounterKey(keyPrefix, d2);
    var first := NextIdSpec(counters, keyPrefix, s1, d1);
    var c1 := Incremented(counters, k1);
    var c2 := Incremented(first.counters, k2);
    assert 0 <= c2 < TWO_32;
    PackOrderedByTimestamp(Timestamp(s1), c1, Timestamp(s2), c2);
  }

  /** At 2024-01-01T00:00:00Z (730 days after the epoch) the first ID of the day for
      prefix "order" is 63072000 * 2^32 + 1. */
  lemma FirstIdOfDay()
    ensures Timestamp(1704067200) == 63072000
    ensures NextIdSpec(map[], "order", 1704067200, "2024:01:01").id == 63072000 * TWO_32 + 1
    ensures NextIdSpec(map[], "order", 1704067200, "2024:01:01").id == 270892177293312001
  {
    PackIsArithmetic(63072000, 1);
  }

  /** The counters of the shared store that INCR updates. They outlive any one worker, and
      every worker built over the same store increments the same counters. */
  class CounterStore {
    var counters: map<string, int>

    /** A store that already holds `initial`, for instance counters left by earlier workers. */
    constructor (initial: map<string, int>)
      ensures counters == initial
    {
      counters := initial;
    }

    /** Redis INCR on one counter. */
    method Increment(key: string) returns (count: int)
      modifies this
      ensures count == Incremented(old(counters), key)
      ensures counters == old(counters)[key := count]
    {
      count := (if key in counters then counters[key] else 0) + 1;
      counters := counters[key := count];
    }
  }

  /** The worker keeps the store it is given; the counters it increments are the store's. */
  class RedisIdWorker {
    const store: CounterStore

    constructor (store: CounterStore)
      ensures this.store == store
    {
      this.store := store;
    }

    /** nextId: the wall clock enters as `nowSecond` (the local wall-clock time read as
        UTC seconds, a Java long) and `date`, its yyyy:MM:dd rendering. */
    method NextId(keyPrefix: string, nowSecond: int, date: string) returns (id: int)
      requires IsLong(nowSecond)
      modifies store
      ensures var key := CounterKey(keyPrefix, date);
              store.counters == old(store.counters)[key := Incremented(old(store.counters), key)] &&
              id == Pack(Timestamp(nowSecond), store.counters[key])
      ensures Issued(id, store.counters) == NextIdSpec(old(store.counters), keyPrefix, nowSecond, date)
    {
      var timestamp := ToLong(nowSecond - BEGIN_TIMESTAMP);
      var key := "icr:" + keyPrefix + ":" + date;
      var count := store.Increment(key);
      var shifted := (Bits(timestamp) * Pow2(COUNT_BITS)) % TWO_64;
      id := ToLong(BitOr(shifted, Bits(count)));
    }
  }
}

/**
 * The bounded rate limiter (apps/api/src/common/http/rate-limiter.ts) against an unbounded
 * fixed-window counter, key by key.
 */
module RateLimiting {
  import opened Basics
  import opened Tables

  datatype Bucket = Bucket(startedAt: Time, count: nat)

  /** An entry of the Map, which iterates in the order of insertion. */
  datatype Entry = Entry(key: Id, bucket: Bucket)

  predicate Elapsed(b: Bucket, now: Time, window: nat) {
    now - b.startedAt >= window
  }

  // ---- The specification of one check

  /** The entries that are not expired, in order. */
  function Live(entries: seq<Entry>, now: Time, window: nat): seq<Entry> {
    if entries == [] then []
    else if Elapsed(entries[0].bucket, now, window) then Live(entries[1..], now, window)
    else [entries[0]] + Live(entries[1..], now, window)
  }

  /** Where the key is, or the length. */
  function IndexOf(entries: seq<Entry>, key: Id): (i: nat)
    ensures i <= |entries|
    ensures i < |entries| ==> entries[i].key == key
    ensures forall k | 0 <= k < i :: entries[k].key != key
  {
    if entries == [] || entries[0].key == key then 0 else 1 + IndexOf(entries[1..], key)
  }

  predicate Has(entries: seq<Entry>, key: Id) {
    IndexOf(entries, key) < |entries|
  }

  /** The key whose bucket a check of `key` drops for want of room. */
  function Evicted(entries: seq<Entry>, key: Id, now: Time, window: nat, maxBuckets: nat): Option<Id> {
    var live := Live(entries, now, window);
    if !Has(live, key) && |live| >= maxBuckets && live != [] then Some(live[0].key) else None
  }

  /** The entries after a check. */
  function Checked(entries: seq<Entry>, key: Id, now: Time, window: nat, maxBuckets: nat): seq<Entry> {
    var live := Live(entries, now, window);
    var i := IndexOf(live, key);
    if i < |live| then live[i := Entry(key, Bucket(live[i].bucket.startedAt, live[i].bucket.count + 1))]
    else (if |live| >= maxBuckets && live != [] then live[1..] else live) + [Entry(key, Bucket(now, 1))]
  }

  /** The key's bucket after a check. */
  function BucketAfter(entries: seq<Entry>, key: Id, now: Time, window: nat): Bucket {
    var live := Live(entries, now, window);
    var i := IndexOf(live, key);
    if i < |live| then Bucket(live[i].bucket.startedAt, live[i].bucket.count + 1) else Bucket(now, 1)
  }

  /** Math.max(1, Math.ceil(left / 1000)); `/` rounds down for a positive divisor. */
  function RetryAfter(b: Bucket, now: Time, window: nat): (seconds: nat)
    ensures seconds >= 1 && now + 1000 * seconds - b.startedAt >= window
    ensures seconds > 1 ==> now + 1000 * (seconds - 1) - b.startedAt < window
  {
    Max(1, (b.startedAt + window - now + 999) / 1000)
  }

  /** Keys differ, no bucket starts before an earlier entry's or after the clock, and there is room. */
  ghost predicate Tidy(entries: seq<Entry>, now: Time, maxBuckets: nat) {
    && |entries| <= maxBuckets
    && (forall i, k | 0 <= i < k < |entries| ::
          entries[i].key != entries[k].key && entries[i].bucket.startedAt <= entries[k].bucket.startedAt)
    && (forall i | 0 <= i < |entries| :: entries[i].bucket.startedAt <= now && entries[i].bucket.count >= 1)
  }

  lemma LiveNothing(now: Time, window: nat)
    ensures Live([], now, window) == []
  {
  }

  lemma {:induction false} LiveFrom(entries: seq<Entry>, i: nat, now: Time, window: nat)
    requires i < |entries|
    ensures Live(entries[i..], now, window) ==
            (if Elapsed(entries[i].bucket, now, window) then [] else [entries[i]]) + Live(entries[i + 1..], now, window)
  {
    assert entries[i..][0] == entries[i] && entries[i..][1..] == entries[i + 1..];
  }

  lemma {:induction false} LiveAt(entries: seq<Entry>, now: Time, window: nat, i: nat)
    requires i < |Live(entries, now, window)|
    ensures !Elapsed(Live(entries, now, window)[i].bucket, now, window)
  {
    if Elapsed(entries[0].bucket, now, window) {
      LiveAt(entries[1..], now, window, i);
    } else if i > 0 {
      LiveAt(entries[1..], now, window, i - 1);
    }
  }

  /** The expired entries form a prefix: what is live is a suffix of the Map. */
  lemma {:induction false} ExpiredIsPrefix(entries: seq<Entry>, now: Time, window: nat, maxBuckets: nat) returns (k: nat)
    requires Tidy(entries, now, maxBuckets)
    ensures k <= |entries| && Live(entries, now, window) == entries[k..]
    ensures forall i | 0 <= i < |entries| :: Elapsed(entries[i].bucket, now, window) <==> i < k
    decreases |entries|
  {
    k := 0;
    if entries != [] {
      var rest := entries[1..];
      var n := ExpiredIsPrefix(rest, now, window, maxBuckets);
      assert forall i | 0 < i < |entries| :: entries[i] == rest[i - 1];
      assert entries == [entries[0]] + rest;
      if Elapsed(entries[0].bucket, now, window) {
        k := n + 1;
        assert entries[k..] == rest[n..];
      } else {
        assert rest[0..] == rest;
      }
    }
  }

  lemma CountedTidy(live: seq<Entry>, i: nat, now: Time, maxBuckets: nat)
    requires Tidy(live, now, maxBuckets) && i < |live|
    ensures Tidy(live[i := Entry(live[i].key, Bucket(live[i].bucket.startedAt, live[i].bucket.count + 1))], now, maxBuckets)
  {
  }

  lemma AppendedTidy(live: seq<Entry>, key: Id, now: Time, maxBuckets: nat)
    requires Tidy(live, now, maxBuckets) && |live| < maxBuckets && forall i | 0 <= i < |live| :: live[i].key != key
    ensures Tidy(live + [Entry(key, Bucket(now, 1))], now, maxBuckets)
  {
  }

  lemma SuffixTidy(entries: seq<Entry>, k: nat, before: Time, now: Time, maxBuckets: nat)
    requires Tidy(entries, before, maxBuckets) && k <= |entries| && before <= now
    ensures Tidy(entries[k..], now, maxBuckets)
  {
  }

  /** A check keeps the Map tidy, and what it evicts is its oldest window. */
  lemma CheckedTidy(entries: seq<Entry>, key: Id, before: Time, now: Time, window: nat, maxBuckets: nat)
    requires Tidy(entries, before, maxBuckets) && before <= now && maxBuckets > 0 && window > 0
    ensures Tidy(Checked(entries, key, now, window, maxBuckets), now, maxBuckets)
    ensures var live := Live(entries, now, window);
            Evicted(entries, key, now, window, maxBuckets).Some? ==>
              forall i | 0 <= i < |live| :: live[0].bucket.startedAt <= live[i].bucket.startedAt
  {
    SuffixTidy(entries, 0, before, now, maxBuckets);
    assert entries[0..] == entries;
    var k := ExpiredIsPrefix(entries, now, window, maxBuckets);
    SuffixTidy(entries, k, before, now, maxBuckets);
    var live := Live(entries, now, window);
    var i := IndexOf(live, key);
    hide Tidy, Live;
    if i < |live| {
      CountedTidy(live, i, now, maxBuckets);
    } else if |live| >= maxBuckets && live != [] {
      SuffixTidy(live, 1, now, now, maxBuckets);
      AppendedTidy(live[1..], key, now, maxBuckets);
    } else {
      AppendedTidy(live, key, now, maxBuckets);
    }
    OldestFirst(live, now, maxBuckets);
  }

  lemma OldestFirst(live: seq<Entry>, now: Time, maxBuckets: nat)
    requires Tidy(live, now, maxBuckets)
    ensures forall i | 0 <= i < |live| :: live[0].bucket.startedAt <= live[i].bucket.startedAt
  {
  }

  // ---- The limiter

  class InMemoryRateLimiter {
    const limit: nat
    const window: nat
    const maxBuckets: nat
    var buckets: seq<Entry>

    constructor (limit: nat, window: nat, maxBuckets: nat)
      requires limit > 0 && window > 0 && maxBuckets > 0
      ensures this.limit == limit && this.window == window && this.maxBuckets == maxBuckets && buckets == []
    {
      this.limit, this.window, this.maxBuckets, buckets := limit, window, maxBuckets, [];
    }

    /** Deletes while iterating: each entry is met once, in order. */
    method ReclaimExpiredBuckets(now: Time)
      modifies this
      ensures buckets == Live(old(buckets), now, window)
    {
      hide Elapsed, Live;
      ghost var before := buckets;
      var i := 0;
      assert buckets[0..] == buckets && buckets[..0] == [];
      while i < |buckets|
        invariant 0 <= i <= |buckets|
        invariant buckets[..i] + Live(buckets[i..], now, window) == Live(before, now, window)
        decreases |buckets| - i
      {
        LiveFrom(buckets, i, now, window);
        if Elapsed(buckets[i].bucket, now, window) {
          ghost var kept, rest := buckets[..i], buckets[i + 1..];
          buckets := buckets[..i] + buckets[i + 1..];
          assert buckets[i..] == rest && buckets[..i] == kept;
        } else {
          assert buckets[..i + 1] == buckets[..i] + [buckets[i]];
          i := i + 1;
        }
      }
      LiveNothing(now, window);
      assert buckets[i..] == [] && buckets[..i] == buckets;
    }

    /** check; the answer is whether the call is allowed, how many remain and when to retry. */
    method Check(key: Id, now: Time) returns (allowed: bool, remaining: nat, retryAfterSeconds: nat)
      modifies this
      ensures buckets == Checked(old(buckets), key, now, window, maxBuckets)
      ensures var b := BucketAfter(old(buckets), key, now, window);
              && allowed == (b.count <= limit) && remaining == Max(0, limit - b.count)
              && retryAfterSeconds == RetryAfter(b, now, window)
    {
      hide Live, RetryAfter;
      ReclaimExpiredBuckets(now);
      var i := IndexOf(buckets, key);
      var existing := i < |buckets|;
      if existing { LiveAt(old(buckets), now, window, i); }
      var bucket := if !existing || Elapsed(buckets[i].bucket, now, window) then Bucket(now, 0) else buckets[i].bucket;
      bucket := bucket.(count := bucket.count + 1);
      if !existing {
        if |buckets| >= maxBuckets && buckets != [] { buckets := buckets[1..]; }
        buckets := buckets + [Entry(key, bucket)];
      } else {
        buckets := buckets[i := Entry(key, bucket)];
      }
      allowed := bucket.count <= limit;
      remaining := Max(0, limit - bucket.count);
      retryAfterSeconds := RetryAfter(bucket, now, window);
    }
  }

  // ---- One key on its own

  /** The unbounded counter of one key: its bucket, if it ever had one. */
  function Counted(b: Option<Bucket>, now: Time, window: nat): Bucket {
    if b.None? || Elapsed(b.value, now, window) then Bucket(now, 1) else Bucket(b.value.startedAt, b.value.count + 1)
  }

  /** The answers of the unbounded counter at the given times. */
  function Reference(b: Option<Bucket>, times: seq<Time>, limit: nat, window: nat): seq<bool>
    decreases |times|
  {
    if times == [] then [] else
    var b' := Counted(b, times[0], window);
    [b'.count <= limit] + Reference(Some(b'), times[1..], limit, window)
  }

  datatype Call = Call(key: Id, now: Time)

  /** The limiter's answers to the calls of one key, in a run of calls of any keys. */
  function Answers(entries: seq<Entry>, calls: seq<Call>, key: Id, limit: nat, window: nat, maxBuckets: nat): seq<bool>
    decreases |calls|
  {
    if calls == [] then [] else
    var c := calls[0];
    var rest := Answers(Checked(entries, c.key, c.now, window, maxBuckets), calls[1..], key, limit, window, maxBuckets);
    if c.key == key then [BucketAfter(entries, key, c.now, window).count <= limit] + rest else rest
  }

  function TimesOf(calls: seq<Call>, key: Id): seq<Time> {
    if calls == [] then [] else (if calls[0].key == key then [calls[0].now] else []) + TimesOf(calls[1..], key)
  }

  /** The clock never goes back. */
  ghost predicate Clocked(start: Time, calls: seq<Call>) {
    (forall i | 0 <= i < |calls| :: start <= calls[i].now) && forall i, k | 0 <= i < k < |calls| :: calls[i].now <= calls[k].now
  }

  /** No call of the run evicts the key. */
  ghost predicate NeverEvicted(entries: seq<Entry>, calls: seq<Call>, key: Id, window: nat, maxBuckets: nat)
    decreases |calls|
  {
    calls != [] ==>
      && Evicted(entries, calls[0].key, calls[0].now, window, maxBuckets) != Some(key)
      && NeverEvicted(Checked(entries, calls[0].key, calls[0].now, window, maxBuckets), calls[1..], key, window, maxBuckets)
  }

  /** The key's bucket in the Map. */
  function Get(entries: seq<Entry>, key: Id): Option<Bucket> {
    var i := IndexOf(entries, key);
    if i < |entries| then Some(entries[i].bucket) else None
  }

  /** From `now` on, the limiter and the unbounded counter see the same bucket of the key. */
  ghost predicate Agree(entries: seq<Entry>, key: Id, b: Option<Bucket>, now: Time, window: nat) {
    Get(entries, key) == b || (Get(entries, key).None? && Elapsed(b.value, now, window))
  }

  lemma {:induction false} GetFound(entries: seq<Entry>, key: Id, i: nat)
    requires i < |entries| && entries[i].key == key
    requires forall k | 0 <= k < i :: entries[k].key != key
    ensures Get(entries, key) == Some(entries[i].bucket)
  {
  }

  lemma {:induction false} GetAppended(entries: seq<Entry>, e: Entry, key: Id)
    ensures Get(entries + [e], key) ==
            if Has(entries, key) then Get(entries, key) else if e.key == key then Some(e.bucket) else None
  {
    var i, after := IndexOf(entries, key), entries + [e];
    assert forall k | 0 <= k < |entries| :: after[k] == entries[k];
    if i < |entries| {
      GetFound(after, key, i);
    } else if e.key == key {
      GetFound(after, key, |entries|);
    }
  }

  lemma {:induction false} GetCounted(entries: seq<Entry>, i: nat, bucket: Bucket, key: Id)
    requires i < |entries| && i == IndexOf(entries, entries[i].key)
    ensures Get(entries[i := Entry(entries[i].key, bucket)], key) ==
            if entries[i].key == key then Some(bucket) else Get(entries, key)
  {
    var k, after := IndexOf(entries, key), entries[i := Entry(entries[i].key, bucket)];
    assert forall n | 0 <= n < |entries| :: after[n].key == entries[n].key;
    if k < |entries| {
      GetFound(after, key, k);
    }
  }

  lemma {:induction false} GetDropped(entries: seq<Entry>, key: Id)
    requires entries != [] && entries[0].key != key
    ensures Get(entries[1..], key) == Get(entries, key) && Has(entries[1..], key) == Has(entries, key)
  {
  }

  lemma KeysDiffer(entries: seq<Entry>, i: nat, now: Time, maxBuckets: nat)
    requires Tidy(entries, now, maxBuckets) && i < |entries|
    ensures forall k | 0 <= k < |entries| && k != i :: entries[k].key != entries[i].key
  {
  }

  lemma {:induction false} GetLive(entries: seq<Entry>, key: Id, now: Time, window: nat, maxBuckets: nat)
    requires Tidy(entries, now, maxBuckets)
    ensures var g := Get(entries, key);
            Get(Live(entries, now, window), key) == if g.Some? && !Elapsed(g.value, now, window) then g else None
  {
    hide Elapsed, Live, Tidy;
    var k := ExpiredIsPrefix(entries, now, window, maxBuckets);
    var live, i := Live(entries, now, window), IndexOf(entries, key);
    assert forall n | 0 <= n < |live| :: live[n] == entries[k + n];
    if i < |entries| { KeysDiffer(entries, i, now, maxBuckets); }
    if i < |entries| && !Elapsed(entries[i].bucket, now, window) {
      GetFound(live, key, i - k);
    }
  }

  /** Agreement with the map is agreement with its live part. */
  lemma LiveAgrees(
      entries: seq<Entry>, key: Id, b: Option<Bucket>, before: Time, now: Time, window: nat, maxBuckets: nat)
    requires Tidy(entries, before, maxBuckets) && before <= now && Agree(entries, key, b, before, window)
    ensures var g := Get(Live(entries, now, window), key);
            g == if b.Some? && !Elapsed(b.value, now, window) then b else None
  {
    SuffixTidy(entries, 0, before, now, maxBuckets);
    assert entries[0..] == entries;
    GetLive(entries, key, now, window, maxBuckets);
  }

  lemma CheckAgrees(entries: seq<Entry>, key: Id, b: Option<Bucket>, before: Time, now: Time, window: nat, maxBuckets: nat)
    requires Tidy(entries, before, maxBuckets) && before <= now && Agree(entries, key, b, before, window)
    requires window > 0 && maxBuckets > 0
    ensures BucketAfter(entries, key, now, window) == Counted(b, now, window)
    ensures Agree(Checked(entries, key, now, window, maxBuckets), key, Some(Counted(b, now, window)), now, window)
  {
    hide Tidy, Live;
    LiveAgrees(entries, key, b, before, now, window, maxBuckets);
    var live := Live(entries, now, window);
    var i := IndexOf(live, key);
    if i < |live| {
      GetCounted(live, i, Bucket(live[i].bucket.startedAt, live[i].bucket.count + 1), key);
    } else {
      var kept := if |live| >= maxBuckets && live != [] then live[1..] else live;
      assert forall k | 0 <= k < |live| :: live[k].key != key;
      GetAppended(kept, Entry(key, Bucket(now, 1)), key);
    }
  }

  lemma OtherAgrees(
      entries: seq<Entry>, other: Id, key: Id, b: Option<Bucket>, before: Time, now: Time, window: nat, maxBuckets: nat)
    requires Tidy(entries, before, maxBuckets) && before <= now && Agree(entries, key, b, before, window)
    requires other != key && Evicted(entries, other, now, window, maxBuckets) != Some(key)
    ensures Agree(Checked(entries, other, now, window, maxBuckets), key, b, now, window)
  {
    hide Tidy, Live;
    LiveAgrees(entries, key, b, before, now, window, maxBuckets);
    var live := Live(entries, now, window);
    var o := IndexOf(live, other);
    if o < |live| {
      GetCounted(live, o, Bucket(live[o].bucket.startedAt, live[o].bucket.count + 1), key);
    } else if |live| >= maxBuckets && live != [] {
      GetDropped(live, key);
      GetAppended(live[1..], Entry(other, Bucket(now, 1)), key);
    } else {
      GetAppended(live, Entry(other, Bucket(now, 1)), key);
    }
  }

  /**
   * A key that is never evicted gets exactly the answers of an unbounded counter of its own, whatever
   * the other keys do.
   */
  lemma {:induction false} RefinesUnbounded(
      entries: seq<Entry>, calls: seq<Call>, key: Id, b: Option<Bucket>, before: Time, limit: nat, window: nat,
      maxBuckets: nat)
    requires Tidy(entries, before, maxBuckets) && Clocked(before, calls) && Agree(entries, key, b, before, window)
    requires window > 0 && maxBuckets > 0 && NeverEvicted(entries, calls, key, window, maxBuckets)
    ensures Answers(entries, calls, key, limit, window, maxBuckets) == Reference(b, TimesOf(calls, key), limit, window)
    decreases |calls|
  {
    hide Tidy, Live, Agree, Checked, BucketAfter, Counted, Evicted;
    if calls != [] {
      var c, rest := calls[0], calls[1..];
      var entries' := Checked(entries, c.key, c.now, window, maxBuckets);
      CheckedTidy(entries, c.key, before, c.now, window, maxBuckets);
      if c.key == key {
        CheckAgrees(entries, key, b, before, c.now, window, maxBuckets);
        RefinesUnbounded(entries', rest, key, Some(Counted(b, c.now, window)), c.now, limit, window, maxBuckets);
        assert TimesOf(calls, key)[0] == c.now && TimesOf(calls, key)[1..] == TimesOf(rest, key);
      } else {
        OtherAgrees(entries, c.key, key, b, before, c.now, window, maxBuckets);
        RefinesUnbounded(entries', rest, key, b, c.now, limit, window, maxBuckets);
        assert TimesOf(calls, key) == TimesOf(rest, key);
      }
    }
  }

  // ---- Room for the live keys

  /** The unbounded counter of one key after calls at the given times. */
  function Standing(b: Option<Bucket>, times: seq<Time>, window: nat): Option<Bucket>
    decreases |times|
  {
    if times == [] then b else Standing(Some(Counted(b, times[0], window)), times[1..], window)
  }

  /** The keys whose window in their own unbounded counter is open at `now`, after the given calls. */
  function OpenKeys(calls: seq<Call>, now: Time, window: nat): set<Id> {
    set c | c in calls && IsOpen(calls, c.key, now, window) :: c.key
  }

  predicate IsOpen(calls: seq<Call>, key: Id, now: Time, window: nat) {
    var b := Standing(None, TimesOf(calls, key), window);
    b.Some? && !Elapsed(b.value, now, window)
  }

  /** At no call do the keys with an open window and the caller's outnumber the buckets; the Map does not matter. */
  predicate LiveKeysFit(calls: seq<Call>, window: nat, maxBuckets: nat) {
    forall i | 0 <= i < |calls| :: FitsAt(calls, i, window, maxBuckets)
  }

  predicate FitsAt(calls: seq<Call>, i: nat, window: nat, maxBuckets: nat)
    requires i < |calls|
  {
    |OpenKeys(calls[..i], calls[i].now, window) + {calls[i].key}| <= maxBuckets
  }

  lemma {:induction false} StandingThen(b: Option<Bucket>, times: seq<Time>, t: Time, window: nat)
    ensures Standing(b, times + [t], window) == Some(Counted(Standing(b, times, window), t, window))
    decreases |times|
  {
    if times == [] {
      assert ([] + [t])[0] == t && ([] + [t])[1..] == [];
      assert times + [t] == [t];
    } else {
      assert (times + [t])[0] == times[0] && (times + [t])[1..] == times[1..] + [t];
      StandingThen(Some(Counted(b, times[0], window)), times[1..], t, window);
    }
  }

  lemma {:induction false} TimesThen(calls: seq<Call>, c: Call, key: Id)
    ensures TimesOf(calls + [c], key) == TimesOf(calls, key) + if c.key == key then [c.now] else []
  {
    if calls == [] {
      assert calls + [c] == [c];
      TimesHead([c], key);
      assert [c][1..] == [];
    } else {
      assert (calls + [c])[1..] == calls[1..] + [c];
      TimesHead(calls, key);
      TimesHead(calls + [c], key);
      TimesThen(calls[1..], c, key);
      hide TimesOf;
    }
  }

  lemma {:induction false} TimesHead(calls: seq<Call>, key: Id)
    requires calls != []
    ensures TimesOf(calls, key) == (if calls[0].key == key then [calls[0].now] else []) + TimesOf(calls[1..], key)
  {
  }

  lemma {:induction false} CalledBefore(calls: seq<Call>, key: Id)
    requires TimesOf(calls, key) != []
    ensures exists c :: c in calls && c.key == key
  {
    if calls[0].key != key { CalledBefore(calls[1..], key); }
  }

  /** The Map holds, of every key, what its own unbounded counter holds. */
  ghost predicate AgreeAll(entries: seq<Entry>, calls: seq<Call>, now: Time, window: nat) {
    forall key {:trigger Get(entries, key)} {:trigger TimesOf(calls, key)} ::
      Agree(entries, key, Standing(None, TimesOf(calls, key), window), now, window)
  }

  /** A live key of the Map is one whose counter's window is open. */
  lemma LiveIsOpen(entries: seq<Entry>, calls: seq<Call>, i: nat, before: Time, now: Time, window: nat, maxBuckets: nat)
    requires Tidy(entries, before, maxBuckets) && before <= now && AgreeAll(entries, calls, before, window)
    requires i < |Live(entries, now, window)|
    ensures Live(entries, now, window)[i].key in OpenKeys(calls, now, window)
  {
    hide Tidy, Live, Standing;
    var key := Live(entries, now, window)[i].key;
    assert Get(Live(entries, now, window), key).Some?;
    assert Agree(entries, key, Standing(None, TimesOf(calls, key), window), before, window);
    LiveAgrees(entries, key, Standing(None, TimesOf(calls, key), window), before, now, window, maxBuckets);
    NeverCalled(window);
    CalledBefore(calls, key);
    var c :| c in calls && c.key == key;
  }

  lemma NeverCalled(window: nat)
    ensures Standing(None, [], window) == None
  {
  }

  /** So the Map has room whenever a new key comes. */
  lemma LiveFits(entries: seq<Entry>, calls: seq<Call>, c: Call, before: Time, window: nat, maxBuckets: nat)
    requires Tidy(entries, before, maxBuckets) && before <= c.now && AgreeAll(entries, calls, before, window)
    requires |OpenKeys(calls, c.now, window) + {c.key}| <= maxBuckets
    ensures Evicted(entries, c.key, c.now, window, maxBuckets).None?
  {
    hide AgreeAll, OpenKeys, Live;
    var live, open := Live(entries, c.now, window), OpenKeys(calls, c.now, window);
    LiveTidy(entries, before, c.now, window, maxBuckets);
    forall i | 0 <= i < |live| ensures live[i].key in open { LiveIsOpen(entries, calls, i, before, c.now, window, maxBuckets); }
    var keys := set e | e in live :: e.key;
    KeysCount(live, keys);
    if !Has(live, c.key) {
      assert c.key !in keys;
      SubsetSize(keys + {c.key}, open + {c.key});
    }
  }

  lemma LiveTidy(entries: seq<Entry>, before: Time, now: Time, window: nat, maxBuckets: nat)
    requires Tidy(entries, before, maxBuckets) && before <= now
    ensures Tidy(Live(entries, now, window), now, maxBuckets)
  {
    SuffixTidy(entries, 0, before, now, maxBuckets);
    assert entries[0..] == entries;
    var k := ExpiredIsPrefix(entries, now, window, maxBuckets);
    SuffixTidy(entries, k, before, now, maxBuckets);
  }

  /** As many keys as entries. */
  lemma {:induction false} KeysCount(live: seq<Entry>, keys: set<Id>)
    requires keys == set e | e in live :: e.key
    requires forall i, k | 0 <= i < k < |live| :: live[i].key != live[k].key
    ensures |keys| == |live|
    decreases |live|
  {
    if live != [] {
      var rest := live[1..];
      var others := set e | e in rest :: e.key;
      assert forall i | 0 <= i < |rest| :: rest[i] == live[i + 1];
      assert live == [live[0]] + rest;
      assert keys == others + {live[0].key} && live[0].key !in others;
      KeysCount(rest, others);
    }
  }

  lemma {:induction false} SubsetSize(a: set<Id>, b: set<Id>)
    requires a <= b
    ensures |a| <= |b|
    decreases b
  {
    if a != {} {
      var x :| x in a;
      SubsetSize(a - {x}, b - {x});
    }
  }

  /** A check keeps every key in agreement when it evicts none. */
  lemma CheckAgreesAll(entries: seq<Entry>, calls: seq<Call>, c: Call, before: Time, window: nat, maxBuckets: nat)
    requires Tidy(entries, before, maxBuckets) && before <= c.now && AgreeAll(entries, calls, before, window)
    requires window > 0 && maxBuckets > 0 && Evicted(entries, c.key, c.now, window, maxBuckets).None?
    ensures AgreeAll(Checked(entries, c.key, c.now, window, maxBuckets), calls + [c], c.now, window)
  {
    hide Tidy, Checked, Agree, Standing, Evicted, Counted;
    var after := Checked(entries, c.key, c.now, window, maxBuckets);
    forall key ensures Agree(after, key, Standing(None, TimesOf(calls + [c], key), window), c.now, window) {
      var b := Standing(None, TimesOf(calls, key), window);
      assert Agree(entries, key, b, before, window);
      TimesThen(calls, c, key);
      if c.key == key {
        StandingThen(None, TimesOf(calls, key), c.now, window);
        CheckAgrees(entries, key, b, before, c.now, window, maxBuckets);
      } else {
        assert TimesOf(calls, key) + [] == TimesOf(calls, key);
        OtherAgrees(entries, c.key, key, b, before, c.now, window, maxBuckets);
      }
    }
  }

  lemma ClockedRest(start: Time, calls: seq<Call>)
    requires Clocked(start, calls) && calls != []
    ensures start <= calls[0].now && Clocked(calls[0].now, calls[1..])
  {
  }

  lemma {:induction false} FitsNeverEvicts(
      entries: seq<Entry>, past: seq<Call>, calls: seq<Call>, key: Id, before: Time, window: nat, maxBuckets: nat)
    requires Tidy(entries, before, maxBuckets) && AgreeAll(entries, past, before, window)
    requires Clocked(before, calls) && LiveKeysFit(past + calls, window, maxBuckets) && window > 0 && maxBuckets > 0
    ensures NeverEvicted(entries, calls, key, window, maxBuckets)
    decreases |calls|
  {
    if calls != [] {
      hide Tidy, AgreeAll, OpenKeys, Checked, Evicted, LiveKeysFit, NeverEvicted, Clocked;
      var c, all := calls[0], past + calls;
      assert all[..|past|] == past && all[|past|] == c && (past + [c]) + calls[1..] == all;
      ClockedRest(before, calls);
      FitsHere(all, |past|, window, maxBuckets);
      LiveFits(entries, past, c, before, window, maxBuckets);
      CheckAgreesAll(entries, past, c, before, window, maxBuckets);
      CheckedTidy(entries, c.key, before, c.now, window, maxBuckets);
      FitsNeverEvicts(Checked(entries, c.key, c.now, window, maxBuckets), past + [c], calls[1..], key, c.now, window, maxBuckets);
      NeverEvictedFrom(entries, calls, key, window, maxBuckets);
    }
  }

  lemma FitsHere(calls: seq<Call>, i: nat, window: nat, maxBuckets: nat)
    requires i < |calls| && LiveKeysFit(calls, window, maxBuckets)
    ensures |OpenKeys(calls[..i], calls[i].now, window) + {calls[i].key}| <= maxBuckets
  {
    hide OpenKeys;
    assert FitsAt(calls, i, window, maxBuckets);
  }

  lemma NeverEvictedFrom(entries: seq<Entry>, calls: seq<Call>, key: Id, window: nat, maxBuckets: nat)
    requires calls != [] && Evicted(entries, calls[0].key, calls[0].now, window, maxBuckets).None?
    requires NeverEvicted(Checked(entries, calls[0].key, calls[0].now, window, maxBuckets), calls[1..], key, window, maxBuckets)
    ensures NeverEvicted(entries, calls, key, window, maxBuckets)
  {
    hide Evicted, Checked;
  }

  /**
   * While the keys with an open window fit the capacity, the limiter gives every key the answers of an
   * unbounded counter of its own.
   */
  lemma FitsIsUnbounded(calls: seq<Call>, key: Id, start: Time, limit: nat, window: nat, maxBuckets: nat)
    requires Clocked(start, calls) && LiveKeysFit(calls, window, maxBuckets) && window > 0 && maxBuckets > 0
    ensures Answers([], calls, key, limit, window, maxBuckets) == Reference(None, TimesOf(calls, key), limit, window)
  {
    hide LiveKeysFit;
    assert [] + calls == calls;
    FitsNeverEvicts([], [], calls, key, start, window, maxBuckets);
    RefinesUnbounded([], calls, key, None, start, limit, window, maxBuckets);
  }

  lemma OpenIsLive(entries: seq<Entry>, calls: seq<Call>, before: Time, now: Time, window: nat, maxBuckets: nat)
    requires Tidy(entries, before, maxBuckets) && before <= now && AgreeAll(entries, calls, before, window)
    ensures forall key | key in OpenKeys(calls, now, window) :: Has(Live(entries, now, window), key)
  {
    hide Tidy, Live, Standing;
    forall key | key in OpenKeys(calls, now, window) ensures Has(Live(entries, now, window), key) {
      var b := Standing(None, TimesOf(calls, key), window);
      assert Agree(entries, key, b, before, window);
      LiveAgrees(entries, key, b, before, now, window, maxBuckets);
    }
  }

  /** When nothing is evicted, the keys that are open and the caller's are in the Map, so they fit. */
  lemma UnevictedFits(entries: seq<Entry>, calls: seq<Call>, c: Call, before: Time, window: nat, maxBuckets: nat)
    requires Tidy(entries, before, maxBuckets) && before <= c.now && AgreeAll(entries, calls, before, window)
    requires window > 0 && maxBuckets > 0 && Evicted(entries, c.key, c.now, window, maxBuckets).None?
    ensures |OpenKeys(calls, c.now, window) + {c.key}| <= maxBuckets
  {
    hide AgreeAll, OpenKeys, Live;
    var live, open := Live(entries, c.now, window), OpenKeys(calls, c.now, window);
    LiveTidy(entries, before, c.now, window, maxBuckets);
    OpenIsLive(entries, calls, before, c.now, window, maxBuckets);
    var keys := set e | e in live :: e.key;
    forall key | key in open + {c.key} && key != c.key ensures key in keys {
      assert live[IndexOf(live, key)] in live;
    }
    KeysCount(live, keys);
    if Has(live, c.key) {
      assert live[IndexOf(live, c.key)] in live;
      SubsetSize(open + {c.key}, keys);
    } else {
      SubsetSize(open + {c.key}, keys + {c.key});
    }
  }

  lemma FirstUnevicted(entries: seq<Entry>, calls: seq<Call>, window: nat, maxBuckets: nat)
    requires calls != [] && forall key :: NeverEvicted(entries, calls, key, window, maxBuckets)
    ensures Evicted(entries, calls[0].key, calls[0].now, window, maxBuckets).None?
    ensures var after := Checked(entries, calls[0].key, calls[0].now, window, maxBuckets);
            forall key :: NeverEvicted(after, calls[1..], key, window, maxBuckets)
  {
    hide Evicted, Checked;
    var after, rest := Checked(entries, calls[0].key, calls[0].now, window, maxBuckets), calls[1..];
    forall key ensures NeverEvicted(after, rest, key, window, maxBuckets) {
      assert NeverEvicted(entries, calls, key, window, maxBuckets);
    }
    if Evicted(entries, calls[0].key, calls[0].now, window, maxBuckets).Some? {
      assert !NeverEvicted(entries, calls, Evicted(entries, calls[0].key, calls[0].now, window, maxBuckets).value, window, maxBuckets);
      assert false;
    }
  }

  lemma {:induction false} NeverEvictsFits(
      entries: seq<Entry>, past: seq<Call>, calls: seq<Call>, before: Time, window: nat, maxBuckets: nat, k: nat)
    requires Tidy(entries, before, maxBuckets) && AgreeAll(entries, past, before, window)
    requires Clocked(before, calls) && window > 0 && maxBuckets > 0
    requires forall key :: NeverEvicted(entries, calls, key, window, maxBuckets)
    requires |past| <= k < |past + calls|
    ensures FitsAt(past + calls, k, window, maxBuckets)
    decreases |calls|
  {
    hide Tidy, AgreeAll, OpenKeys, Checked, Evicted, NeverEvicted, Clocked;
    var c, all := calls[0], past + calls;
    assert all[..|past|] == past && all[|past|] == c && (past + [c]) + calls[1..] == all;
    ClockedRest(before, calls);
    FirstUnevicted(entries, calls, window, maxBuckets);
    if k == |past| {
      UnevictedFits(entries, past, c, before, window, maxBuckets);
    } else {
      CheckAgreesAll(entries, past, c, before, window, maxBuckets);
      CheckedTidy(entries, c.key, before, c.now, window, maxBuckets);
      NeverEvictsFits(Checked(entries, c.key, c.now, window, maxBuckets), past + [c], calls[1..], c.now, window, maxBuckets, k);
    }
  }

  ghost predicate EvictsNone(calls: seq<Call>, window: nat, maxBuckets: nat) {
    forall key :: NeverEvicted([], calls, key, window, maxBuckets)
  }

  /** A new limiter never evicts a key exactly when the keys with an open window fit at every call. */
  lemma EvictsNoneIff(calls: seq<Call>, start: Time, window: nat, maxBuckets: nat)
    requires Clocked(start, calls) && window > 0 && maxBuckets > 0
    ensures EvictsNone(calls, window, maxBuckets) <==> LiveKeysFit(calls, window, maxBuckets)
  {
    hide FitsAt, NeverEvicted;
    assert [] + calls == calls;
    if LiveKeysFit(calls, window, maxBuckets) {
      forall key ensures NeverEvicted([], calls, key, window, maxBuckets) {
        FitsNeverEvicts([], [], calls, key, start, window, maxBuckets);
      }
    }
    if EvictsNone(calls, window, maxBuckets) {
      forall k | 0 <= k < |calls| ensures FitsAt(calls, k, window, maxBuckets) {
        NeverEvictsFits([], [], calls, start, window, maxBuckets, k);
      }
    }
  }

  // ---- How much one key may be allowed

  function Allowances(answers: seq<bool>): nat {
    if answers == [] then 0 else (if answers[0] then 1 else 0) + Allowances(answers[1..])
  }

  ghost predicate Ascend(times: seq<Time>) {
    forall i, k | 0 <= i < k < |times| :: times[i] <= times[k]
  }

  /** What is left of a window. */
  function Left(b: Bucket, limit: nat): nat {
    if b.count >= limit then 0 else limit - b.count
  }

  lemma {:induction false} WithinWindow(b: Bucket, times: seq<Time>, limit: nat, window: nat)
    requires forall i | 0 <= i < |times| :: !Elapsed(b, times[i], window)
    ensures Allowances(Reference(Some(b), times, limit, window)) <= Left(b, limit)
    decreases |times|
  {
    if times != [] {
      var b' := Counted(Some(b), times[0], window);
      WithinWindow(b', times[1..], limit, window);
      var r := Reference(Some(b), times, limit, window);
      assert r[1..] == Reference(Some(b'), times[1..], limit, window);
    }
  }

  /** Calls that span less than a window meet the rest of one window and at most one more. */
  lemma {:induction false} TwoWindows(b: Option<Bucket>, times: seq<Time>, limit: nat, window: nat)
    requires Ascend(times) && (times != [] ==> Last(times) - times[0] < window) && limit > 0
    ensures Allowances(Reference(b, times, limit, window)) <= (if b.Some? then Left(b.value, limit) else 0) + limit
    decreases |times|
  {
    if times != [] {
      var b', rest := Counted(b, times[0], window), times[1..];
      var r := Reference(b, times, limit, window);
      assert r[1..] == Reference(Some(b'), rest, limit, window);
      if b.None? || Elapsed(b.value, times[0], window) {
        WithinWindow(b', rest, limit, window);
      } else {
        TwoWindows(Some(b'), rest, limit, window);
      }
    }
  }

  lemma {:induction false} TimesAscend(calls: seq<Call>, key: Id, start: Time)
    requires Clocked(start, calls)
    ensures Ascend(TimesOf(calls, key)) && forall i | 0 <= i < |TimesOf(calls, key)| :: TimesOf(calls, key)[i] >= start
  {
    if calls != [] {
      assert Clocked(calls[0].now, calls[1..]);
      TimesAscend(calls[1..], key, calls[0].now);
    }
  }

  /** In any stretch shorter than one window the limiter allows a key that it never evicts at most twice the limit. */
  lemma AtMostTwice(
      calls: seq<Call>, key: Id, start: Time, from: nat, to: nat, limit: nat, window: nat, maxBuckets: nat)
    requires Clocked(start, calls) && limit > 0 && window > 0 && maxBuckets > 0
    requires NeverEvicted([], calls, key, window, maxBuckets)
    requires var times := TimesOf(calls, key); from < to <= |times| && times[to - 1] - times[from] < window
    ensures var answers := Answers([], calls, key, limit, window, maxBuckets);
            |answers| == |TimesOf(calls, key)| && Allowances(answers[from..to]) <= 2 * limit
  {
    hide Answers, Reference, Allowances, TimesOf, NeverEvicted, Ascend;
    var times := TimesOf(calls, key);
    EmptyAgrees(calls, key, start, limit, window, maxBuckets);
    TimesAscend(calls, key, start);
    StretchAtMostTwice(times, from, to, limit, window);
  }

  lemma EmptyAgrees(calls: seq<Call>, key: Id, start: Time, limit: nat, window: nat, maxBuckets: nat)
    requires Clocked(start, calls) && window > 0 && maxBuckets > 0 && NeverEvicted([], calls, key, window, maxBuckets)
    ensures Answers([], calls, key, limit, window, maxBuckets) == Reference(None, TimesOf(calls, key), limit, window)
  {
    RefinesUnbounded([], calls, key, None, start, limit, window, maxBuckets);
  }

  lemma StretchAtMostTwice(times: seq<Time>, from: nat, to: nat, limit: nat, window: nat)
    requires Ascend(times) && limit > 0 && from < to <= |times| && times[to - 1] - times[from] < window
    ensures |Reference(None, times, limit, window)| == |times|
    ensures Allowances(Reference(None, times, limit, window)[from..to]) <= 2 * limit
  {
    hide Reference, Allowances;
    var b := Split(None, times, from, to, limit, window);
    assert Ascend(times[from..to]);
    TwoWindows(b, times[from..to], limit, window);
  }

  lemma {:induction false} QuotaLeft(b: Bucket, times: seq<Time>, limit: nat, window: nat, i: nat)
    requires i < |times| && forall k | 0 <= k < |times| :: times[k] - b.startedAt < window
    ensures |Reference(Some(b), times, limit, window)| == |times|
    ensures Reference(Some(b), times, limit, window)[i] <==> b.count + i + 1 <= limit
    decreases |times|
  {
    var b1 := Counted(Some(b), times[0], window);
    Shape(Some(b), times, limit, window);
    Shape(Some(b1), times[1..], limit, window);
    if i > 0 {
      QuotaLeft(b1, times[1..], limit, window, i - 1);
      assert Reference(Some(b), times, limit, window)[1..] == Reference(Some(b1), times[1..], limit, window);
    }
  }

  lemma {:induction false} Shape(b: Option<Bucket>, times: seq<Time>, limit: nat, window: nat)
    ensures |Reference(b, times, limit, window)| == |times|
    decreases |times|
  {
    if times != [] { Shape(Some(Counted(b, times[0], window)), times[1..], limit, window); }
  }

  /**
   * From a call that finds no window, or one that began at least a window before, exactly the first
   * `limit` calls are allowed until a window has passed since that call.
   */
  lemma ExactlyTheLimit(b: Option<Bucket>, times: seq<Time>, limit: nat, window: nat, i: nat)
    requires times != [] && (b.None? || times[0] - b.value.startedAt >= window) && window > 0
    requires i < |times| && forall k | 0 <= k < |times| :: times[k] - times[0] < window
    ensures |Reference(b, times, limit, window)| == |times|
    ensures Reference(b, times, limit, window)[i] <==> i < limit
  {
    var b1 := Bucket(times[0], 1);
    Shape(b, times, limit, window);
    assert Reference(b, times, limit, window)[1..] == Reference(Some(b1), times[1..], limit, window);
    if i > 0 { QuotaLeft(b1, times[1..], limit, window, i - 1); }
  }

  lemma TailSlice<T>(s: seq<T>, from: nat, to: nat)
    requires 0 < from <= to <= |s|
    ensures s[from..to] == s[1..][from - 1..to - 1]
  {
    var x, y := s[from..to], s[1..][from - 1..to - 1];
    assert |x| == |y|;
    forall i | 0 <= i < |x| ensures x[i] == y[i] { assert y[i] == s[1..][from - 1 + i]; }
  }

  lemma HeadSlice<T>(s: seq<T>, n: nat)
    requires 0 < n <= |s|
    ensures s[..n] == [s[0]] + s[1..][..n - 1] && s[..n][1..] == s[1..][..n - 1]
  {
  }

  /** The answers of a stretch are those of the counter as it then stands. */
  lemma {:induction false} Split(b: Option<Bucket>, times: seq<Time>, from: nat, to: nat, limit: nat, window: nat)
    returns (b': Option<Bucket>)
    requires from <= to <= |times|
    ensures |Reference(b, times, limit, window)| == |times|
    ensures Reference(b, times, limit, window)[from..to] == Reference(b', times[from..to], limit, window)
    decreases |times|
  {
    if times == [] {
      b' := b;
    } else {
      var b1 := Counted(b, times[0], window);
      var r := Reference(b, times, limit, window);
      if from > 0 {
        b' := Split(Some(b1), times[1..], from - 1, to - 1, limit, window);
        TailSlice(r, from, to);
        TailSlice(times, from, to);
      } else if to > 0 {
        b' := b;
        var b2 := Split(Some(b1), times[1..], 0, to - 1, limit, window);
        Prefix(Some(b1), times[1..], to - 1, limit, window);
        HeadSlice(r, to);
        HeadSlice(times, to);
      } else {
        b' := b;
        var b2 := Split(Some(b1), times[1..], 0, 0, limit, window);
      }
    }
  }

  lemma {:induction false} Prefix(b: Option<Bucket>, times: seq<Time>, n: nat, limit: nat, window: nat)
    requires n <= |times| == |Reference(b, times, limit, window)|
    ensures Reference(b, times, limit, window)[..n] == Reference(b, times[..n], limit, window)
    decreases n
  {
    if n > 0 {
      var b1, r := Counted(b, times[0], window), Reference(b, times, limit, window);
      assert r[1..] == Reference(Some(b1), times[1..], limit, window);
      Prefix(Some(b1), times[1..], n - 1, limit, window);
      HeadSlice(times, n);
      HeadSlice(r, n);
    }
  }
}

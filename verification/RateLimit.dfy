/** Token-bucket rate limiting with lazy refill and pruning of idle buckets. */
module RateLimit {
  import opened Core

  /** What a bucket is kept for: an owner key, or a masked source subnet. */
  type Key = Bytes

  /** Tokens held, and the second at which they were last brought up to date. */
  datatype Bucket = Bucket(tokens: real, last: real)

  type Buckets = map<Key, Bucket>

  datatype Limits = Limits(rate: real, burst: real) {
    ghost predicate Valid() { rate > 0.0 && burst >= 1.0 }
  }

  /** Seconds a full bucket may lie idle, and between two prunings. */
  const IDLE := 600.0

  // ---------------------------------------------------------------- one bucket

  /** Tokens that accrue over a length of time. */
  function Worth(lim: Limits, seconds: real): real {
    seconds * lim.rate
  }

  function Accrued(lim: Limits, b: Bucket, now: real): real {
    b.tokens + Worth(lim, now - b.last)
  }

  function Refilled(lim: Limits, b: Bucket, now: real): Bucket {
    if now - b.last > 0.0
    then Bucket(if Accrued(lim, b, now) > lim.burst then lim.burst else Accrued(lim, b, now), now)
    else b
  }

  /** A bucket after a request, and whether it is granted; a key without one starts full. */
  function Spend(lim: Limits, b: Option<Bucket>, now: real): (Bucket, bool) {
    if b.None? then (Bucket(lim.burst - 1.0, now), true)
    else
      var full := Refilled(lim, b.value, now);
      if full.tokens >= 1.0 then (full.(tokens := full.tokens - 1.0), true) else (full, false)
  }

  datatype Answer = Answer(buckets: Buckets, ok: bool)

  function BucketOf(buckets: Buckets, key: Key): Option<Bucket> {
    if key in buckets then Some(buckets[key]) else None
  }

  /** A request as a limiter that never prunes answers it. */
  function Charge(lim: Limits, buckets: Buckets, key: Key, now: real): Answer {
    var (b, ok) := Spend(lim, BucketOf(buckets, key), now);
    Answer(buckets[key := b], ok)
  }

  /** A bucket worth dropping: idle long enough to have refilled. */
  predicate Stale(lim: Limits, b: Bucket, now: real) {
    now - b.last >= IDLE && Accrued(lim, b, now) >= lim.burst
  }

  function Pruned(lim: Limits, buckets: Buckets, now: real): Buckets {
    map key | key in buckets && !Stale(lim, buckets[key], now) :: buckets[key]
  }

  ghost predicate BucketsOk(lim: Limits, buckets: Buckets) {
    forall key :: key in buckets ==> 0.0 <= buckets[key].tokens <= lim.burst
  }

  lemma WorthGrows(lim: Limits, seconds: real)
    requires lim.Valid() && seconds >= 0.0
    ensures Worth(lim, seconds) >= 0.0
  {
  }

  lemma WorthAdds(lim: Limits, a: real, b: real)
    ensures Worth(lim, a + b) == Worth(lim, a) + Worth(lim, b)
  {
    assert (a + b) * lim.rate == a * lim.rate + b * lim.rate;
  }

  /** What accrues over a longer wait is what accrued before and the rest of the wait's worth. */
  lemma AccruesLinearly(lim: Limits, b: Bucket, clock: real, now: real)
    ensures Accrued(lim, b, now) == Accrued(lim, b, clock) + Worth(lim, now - clock)
  {
    WorthAdds(lim, clock - b.last, now - clock);
    assert clock - b.last + (now - clock) == now - b.last;
  }

  lemma ChargeKeeps(lim: Limits, buckets: Buckets, key: Key, now: real)
    requires lim.Valid() && BucketsOk(lim, buckets)
    ensures BucketsOk(lim, Charge(lim, buckets, key, now).buckets)
  {
    if key in buckets && now > buckets[key].last { WorthGrows(lim, now - buckets[key].last); }
  }

  // ---------------------------------------------------------------- the limiter

  /** A limiter's memory: its buckets and when it last pruned. */
  datatype Memory = Memory(buckets: Buckets, lastPrune: Option<real>)

  function AfterPrune(lim: Limits, m: Memory, now: real): Memory {
    if m.lastPrune.Some? && now - m.lastPrune.value < IDLE then m
    else Memory(Pruned(lim, m.buckets, now), Some(now))
  }

  class Limiter {
    const lim: Limits
    var buckets: Buckets
    var lastPrune: Option<real>

    /** A burst below one is raised to one. A rate of zero or less makes no limiter at all: see NewLimiter. */
    constructor (rate: real, burst: real)
      requires rate > 0.0
      ensures lim.Valid() && lim == Limits(rate, if burst < 1.0 then 1.0 else burst)
      ensures buckets == map[] && lastPrune == None
    {
      lim := Limits(rate, if burst < 1.0 then 1.0 else burst);
      buckets, lastPrune := map[], None;
    }

    ghost function State(): Memory reads this { Memory(buckets, lastPrune) }

    method Prune(now: real)
      modifies this
      ensures State() == AfterPrune(lim, old(State()), now)
    {
      if lastPrune.Some? && now - lastPrune.value < IDLE {
        return;
      }
      lastPrune := Some(now);
      var rest := buckets.Keys;
      while rest != {}
        invariant rest <= old(buckets).Keys && lastPrune == Some(now)
        invariant buckets == map key | key in old(buckets) && (key in rest || !Stale(lim, old(buckets)[key], now)) :: old(buckets)[key]
        decreases rest
      {
        var key :| key in rest;
        rest := rest - {key};
        if now - buckets[key].last >= IDLE {
          if Accrued(lim, buckets[key], now) >= lim.burst {
            buckets := buckets - {key};
          }
        }
      }
      assert State() == Memory(Pruned(lim, old(buckets), now), Some(now));
    }
  }

  /** No limiter is made for a disabled rate. */
  method NewLimiter(rate: real, burst: real) returns (l: Limiter?)
    ensures l == null <==> rate <= 0.0
    ensures l != null ==>
              && fresh(l) && l.lim.Valid() && l.State() == Memory(map[], None)
              && l.lim == Limits(rate, if burst < 1.0 then 1.0 else burst)
  {
    if rate <= 0.0 { return null; }
    l := new Limiter(rate, burst);
  }

  /** With no limiter, or nothing to key a bucket on, every request is allowed and nothing is charged. */
  method Allow(l: Limiter?, key: Option<Key>, now: real) returns (ok: bool)
    modifies l
    ensures l == null || key.None? ==> ok && (l != null ==> l.State() == old(l.State()))
    ensures l != null && key.Some? ==>
              var m := AfterPrune(l.lim, old(l.State()), now);
              var a := Charge(l.lim, m.buckets, key.value, now);
              ok == a.ok && l.State() == m.(buckets := a.buckets)
  {
    if l == null || key.None? { return true; }
    l.Prune(now);
    var k := key.value;
    if k !in l.buckets {
      l.buckets := l.buckets[k := Bucket(l.lim.burst - 1.0, now)];
      return true;
    }
    var b := l.buckets[k];
    var elapsed := now - b.last;
    if elapsed > 0.0 {
      b := b.(tokens := b.tokens + Worth(l.lim, elapsed));
      if b.tokens > l.lim.burst {
        b := b.(tokens := l.lim.burst);
      }
      b := b.(last := now);
    }
    ok := b.tokens >= 1.0;
    if ok {
      b := b.(tokens := b.tokens - 1.0);
    }
    l.buckets := l.buckets[k := b];
  }

  // ---------------------------------------------------------------- runs

  datatype Call = Call(key: Key, now: real)

  ghost predicate Forward(calls: seq<Call>) {
    forall i, j :: 0 <= i <= j < |calls| ==> calls[i].now <= calls[j].now
  }

  /** The buckets of a limiter that never prunes, after the first k calls. */
  ghost function Plain(lim: Limits, calls: seq<Call>, k: nat): Buckets
    requires k <= |calls|
  {
    if k == 0 then map[] else Charge(lim, Plain(lim, calls, k - 1), calls[k - 1].key, calls[k - 1].now).buckets
  }

  ghost function PlainOk(lim: Limits, calls: seq<Call>, k: nat): bool
    requires k < |calls|
  {
    Charge(lim, Plain(lim, calls, k), calls[k].key, calls[k].now).ok
  }

  /** The memory of the limiter that prunes, after the first k calls. */
  ghost function Remembered(lim: Limits, calls: seq<Call>, k: nat): Memory
    requires k <= |calls|
  {
    if k == 0 then Memory(map[], None)
    else
      var m := AfterPrune(lim, Remembered(lim, calls, k - 1), calls[k - 1].now);
      m.(buckets := Charge(lim, m.buckets, calls[k - 1].key, calls[k - 1].now).buckets)
  }

  ghost function AllowOk(lim: Limits, calls: seq<Call>, k: nat): bool
    requires k < |calls|
  {
    Charge(lim, AfterPrune(lim, Remembered(lim, calls, k), calls[k].now).buckets, calls[k].key, calls[k].now).ok
  }

  /** A limiter driven through a whole sequence of calls gives the answers above. */
  method Serve(l: Limiter, calls: seq<Call>) returns (answers: seq<bool>)
    requires l.State() == Memory(map[], None)
    modifies l
    ensures |answers| == |calls| && forall k :: 0 <= k < |calls| ==> answers[k] == AllowOk(l.lim, calls, k)
  {
    hide Charge, AfterPrune;
    answers := [];
    for k := 0 to |calls|
      invariant |answers| == k && l.State() == Remembered(l.lim, calls, k)
      invariant forall i :: 0 <= i < k ==> answers[i] == AllowOk(l.lim, calls, i)
    {
      var ok := Allow(l, Some(calls[k].key), calls[k].now);
      answers := answers + [ok];
    }
  }

  // ---------------------------------------------------------------- clocks that go back

  /** The latest time a key was called at in the first k calls. */
  ghost function Latest(calls: seq<Call>, k: nat, key: Key): Option<real>
    requires k <= |calls|
  {
    if k == 0 then None
    else
      var before := Latest(calls, k - 1, key);
      if calls[k - 1].key != key || (before.Some? && before.value > calls[k - 1].now) then before else Some(calls[k - 1].now)
  }

  /** At call j the key of call k had lain idle long enough to be dropped, and it is not called between the two. */
  ghost predicate IdleSince(calls: seq<Call>, j: nat, k: nat)
    requires j <= k < |calls|
  {
    var last := Latest(calls, j, calls[k].key);
    last.Some? && calls[j].now - last.value >= IDLE && forall i :: j <= i < k ==> calls[i].key != calls[k].key
  }

  /** When buckets were last pruned, before call k. */
  ghost function LastPrune(calls: seq<Call>, k: nat): Option<real>
    requires k <= |calls|
    decreases k, 0
  {
    if k == 0 then None
    else if Prunes(calls, k - 1) then Some(calls[k - 1].now)
    else LastPrune(calls, k - 1)
  }

  /** Call k finds the last pruning long enough ago to prune again. */
  ghost predicate Prunes(calls: seq<Call>, k: nat)
    requires k < |calls|
    decreases k, 1
  {
    LastPrune(calls, k).None? || calls[k].now - LastPrune(calls, k).value >= IDLE
  }

  /** No key that had lain idle at a call that prunes comes back next with an earlier time than that call's. */
  ghost predicate NoneBackdated(calls: seq<Call>) {
    forall j, k :: 0 <= j < k < |calls| && Prunes(calls, j) && IdleSince(calls, j, k) ==> calls[j].now <= calls[k].now
  }

  lemma ForwardNotBackdated(calls: seq<Call>)
    requires Forward(calls)
    ensures NoneBackdated(calls)
  {
  }

  /** Every key called has a bucket, brought up to date at its latest call. */
  ghost predicate UpToDate(calls: seq<Call>, k: nat, all: Buckets)
    requires k <= |calls|
  {
    forall key :: Latest(calls, k, key) == if key in all then Some(all[key].last) else None
  }

  lemma {:induction false} PlainKeeps(lim: Limits, calls: seq<Call>, k: nat)
    requires lim.Valid() && k <= |calls|
    ensures BucketsOk(lim, Plain(lim, calls, k)) && UpToDate(calls, k, Plain(lim, calls, k))
  {
    if k > 0 {
      PlainKeeps(lim, calls, k - 1);
      ChargeKeeps(lim, Plain(lim, calls, k - 1), calls[k - 1].key, calls[k - 1].now);
      hide BucketsOk, Worth;
    }
  }

  // ---------------------------------------------------------------- what pruning changes

  /** The bucket b of a key was idle and full at call j, and the key has not been called since. */
  ghost predicate DroppedAt(lim: Limits, calls: seq<Call>, j: nat, k: nat, key: Key, b: Bucket)
    requires k <= |calls|
  {
    && j <= k && j < |calls| && Prunes(calls, j) && Latest(calls, j, key) == Some(b.last) && calls[j].now - b.last >= IDLE
    && Accrued(lim, b, calls[j].now) >= lim.burst
    && forall i :: j <= i < k ==> calls[i].key != key
  }

  ghost predicate WasDropped(lim: Limits, calls: seq<Call>, k: nat, key: Key, b: Bucket)
    requires k <= |calls|
  {
    exists j: nat :: DroppedAt(lim, calls, j, k, key, b)
  }

  /** The pruning limiter holds some of the same buckets; those it lacks were dropped full. */
  ghost predicate Simulates(lim: Limits, calls: seq<Call>, k: nat, small: Buckets, all: Buckets)
    requires k <= |calls|
  {
    && small.Keys <= all.Keys
    && forall key :: key in all ==>
         if key in small then small[key] == all[key] else WasDropped(lim, calls, k, key, all[key])
  }

  lemma PruneSimulates(lim: Limits, calls: seq<Call>, k: nat, m: Memory, all: Buckets)
    requires k < |calls| && Simulates(lim, calls, k, m.buckets, all) && UpToDate(calls, k, all) && m.lastPrune == LastPrune(calls, k)
    ensures Simulates(lim, calls, k, AfterPrune(lim, m, calls[k].now).buckets, all)
  {
    hide Accrued, Latest;
    var small := AfterPrune(lim, m, calls[k].now).buckets;
    forall key | key in all && key !in small ensures WasDropped(lim, calls, k, key, all[key]) {
      if key in m.buckets { assert DroppedAt(lim, calls, k, k, key, all[key]); }
    }
  }

  /** A dropped bucket has refilled by the time its key is called again. */
  lemma DroppedIsFull(lim: Limits, calls: seq<Call>, k: nat, b: Bucket)
    requires lim.Valid() && NoneBackdated(calls) && k < |calls|
    requires WasDropped(lim, calls, k, calls[k].key, b)
    ensures Refilled(lim, b, calls[k].now) == Bucket(lim.burst, calls[k].now)
  {
    hide Worth, Latest;
    var j: nat :| DroppedAt(lim, calls, j, k, calls[k].key, b);
    assert j < k ==> IdleSince(calls, j, k);
    AccruesLinearly(lim, b, calls[j].now, calls[k].now);
    WorthGrows(lim, calls[k].now - calls[j].now);
  }

  /** It answers as the full bucket it stood for, and leaves the same bucket. */
  lemma ChargeSimulates(lim: Limits, calls: seq<Call>, k: nat, small: Buckets, all: Buckets)
    requires lim.Valid() && NoneBackdated(calls) && k < |calls| && Simulates(lim, calls, k, small, all)
    ensures Charge(lim, small, calls[k].key, calls[k].now).ok == Charge(lim, all, calls[k].key, calls[k].now).ok
    ensures Simulates(lim, calls, k + 1, Charge(lim, small, calls[k].key, calls[k].now).buckets,
                      Charge(lim, all, calls[k].key, calls[k].now).buckets)
  {
    var c := calls[k];
    SpendsAlike(lim, calls, k, small, all);
    hide Spend, WasDropped, NoneBackdated;
    forall key | key in all && key !in small && key != c.key ensures WasDropped(lim, calls, k + 1, key, all[key]) {
      StaysDropped(lim, calls, k, key, all[key]);
    }
  }

  lemma SpendsAlike(lim: Limits, calls: seq<Call>, k: nat, small: Buckets, all: Buckets)
    requires lim.Valid() && NoneBackdated(calls) && k < |calls| && Simulates(lim, calls, k, small, all)
    ensures var c := calls[k]; Spend(lim, BucketOf(small, c.key), c.now) == Spend(lim, BucketOf(all, c.key), c.now)
  {
    var c := calls[k];
    hide NoneBackdated, WasDropped, Refilled, Spend;
    if c.key in all && c.key !in small {
      DroppedIsFull(lim, calls, k, all[c.key]);
      FullSpends(lim, all[c.key], c.now);
    }
  }

  lemma FullSpends(lim: Limits, b: Bucket, now: real)
    requires lim.Valid() && Refilled(lim, b, now) == Bucket(lim.burst, now)
    ensures Spend(lim, Some(b), now) == Spend(lim, None, now)
  {
    hide Refilled;
  }

  lemma StaysDropped(lim: Limits, calls: seq<Call>, k: nat, key: Key, b: Bucket)
    requires k < |calls| && WasDropped(lim, calls, k, key, b) && calls[k].key != key
    ensures WasDropped(lim, calls, k + 1, key, b)
  {
    hide Accrued, Latest;
    var j: nat :| DroppedAt(lim, calls, j, k, key, b);
    assert DroppedAt(lim, calls, j, k + 1, key, b);
  }

  lemma {:induction false} PrunedWhen(lim: Limits, calls: seq<Call>, k: nat)
    requires k <= |calls|
    ensures Remembered(lim, calls, k).lastPrune == LastPrune(calls, k)
  {
    hide Charge, Pruned;
    if k > 0 { PrunedWhen(lim, calls, k - 1); }
  }

  lemma {:induction false} RunSimulates(lim: Limits, calls: seq<Call>, k: nat)
    requires lim.Valid() && NoneBackdated(calls) && k <= |calls|
    ensures Simulates(lim, calls, k, Remembered(lim, calls, k).buckets, Plain(lim, calls, k))
  {
    hide Charge, AfterPrune, Simulates, NoneBackdated, UpToDate;
    if k == 0 {
      EmptySimulates(lim, calls);
    } else {
      RunSimulates(lim, calls, k - 1);
      PlainKeeps(lim, calls, k - 1);
      var m, all := Remembered(lim, calls, k - 1), Plain(lim, calls, k - 1);
      PrunedWhen(lim, calls, k - 1);
      PruneSimulates(lim, calls, k - 1, m, all);
      ChargeSimulates(lim, calls, k - 1, AfterPrune(lim, m, calls[k - 1].now).buckets, all);
    }
  }

  lemma EmptySimulates(lim: Limits, calls: seq<Call>)
    ensures Simulates(lim, calls, 0, map[], map[])
  {
  }

  /** Pruning never changes an answer, over any sequence of calls in which no key pruned comes back with an earlier time. */
  lemma PruningChangesNothing(lim: Limits, calls: seq<Call>, k: nat)
    requires lim.Valid() && NoneBackdated(calls) && k < |calls|
    ensures AllowOk(lim, calls, k) == PlainOk(lim, calls, k)
  {
    hide Charge, AfterPrune, Simulates, NoneBackdated, UpToDate;
    RunSimulates(lim, calls, k);
    PlainKeeps(lim, calls, k);
    var m, all := Remembered(lim, calls, k), Plain(lim, calls, k);
    PrunedWhen(lim, calls, k);
    PruneSimulates(lim, calls, k, m, all);
    ChargeSimulates(lim, calls, k, AfterPrune(lim, m, calls[k].now).buckets, all);
  }

  // ---------------------------------------------------------------- the rate held to

  /** Call k, for its key, falls in the window by the latest time the key has been called at. */
  ghost predicate Within(calls: seq<Call>, k: nat, from: real, to: real)
    requires k < |calls|
  {
    var latest := Latest(calls, k + 1, calls[k].key);
    latest.Some? && from <= latest.value <= to
  }

  /** How many of the first k calls were for the key, within the window by its latest time, and allowed. */
  ghost function Admitted(lim: Limits, calls: seq<Call>, k: nat, key: Key, from: real, to: real): (n: nat)
    requires k <= |calls|
  {
    if k == 0 then 0
    else
      Admitted(lim, calls, k - 1, key, from, to)
      + if calls[k - 1].key == key && Within(calls, k - 1, from, to) && AllowOk(lim, calls, k - 1) then 1 else 0
  }

  /** The same, by the time each call is dated. */
  ghost function AdmittedDated(lim: Limits, calls: seq<Call>, k: nat, key: Key, from: real, to: real): (n: nat)
    requires k <= |calls|
  {
    if k == 0 then 0
    else
      AdmittedDated(lim, calls, k - 1, key, from, to)
      + if calls[k - 1].key == key && from <= calls[k - 1].now <= to && AllowOk(lim, calls, k - 1) then 1 else 0
  }

  /** Admissions in the window and the tokens still held never exceed the burst and what has accrued. */
  ghost predicate Held(lim: Limits, b: Option<Bucket>, n: nat, from: real, to: real) {
    && (b.None? || b.value.last < from ==> n == 0)
    && (b.Some? && from <= b.value.last <= to ==> n as real + b.value.tokens <= lim.burst + Worth(lim, b.value.last - from))
    && n as real <= lim.burst + Worth(lim, to - from)
  }

  lemma NoneHeld(lim: Limits, from: real, to: real)
    requires lim.Valid() && from <= to
    ensures Held(lim, None, 0, from, to)
  {
    WorthGrows(lim, to - from);
  }

  lemma SpendHeld(lim: Limits, b: Option<Bucket>, now: real, n: nat, from: real, to: real)
    requires lim.Valid() && from <= to && Held(lim, b, n, from, to) && (b.Some? ==> 0.0 <= b.value.tokens <= lim.burst)
    ensures var (b', ok) := Spend(lim, b, now); Held(lim, Some(b'), n + if ok && from <= b'.last <= to then 1 else 0, from, to)
  {
    var (b', ok) := Spend(lim, b, now);
    hide Worth;
    if from <= b'.last <= to {
      WorthGrows(lim, b'.last - from);
      WorthGrows(lim, to - b'.last);
      WorthAdds(lim, b'.last - from, to - b'.last);
      assert b'.last - from + (to - b'.last) == to - from;
      if b.Some? {
        WorthAdds(lim, b'.last - b.value.last, b.value.last - from);
        assert b'.last - b.value.last + (b.value.last - from) == b'.last - from;
      }
    }
  }

  lemma {:induction false} WindowHolds(lim: Limits, calls: seq<Call>, k: nat, key: Key, from: real, to: real)
    requires lim.Valid() && NoneBackdated(calls) && k <= |calls| && from <= to
    ensures Held(lim, BucketOf(Plain(lim, calls, k), key), Admitted(lim, calls, k, key, from, to), from, to)
  {
    hide Spend, Worth, AllowOk, NoneBackdated, Held, Remembered, Latest;
    if k == 0 {
      NoneHeld(lim, from, to);
    } else {
      WindowHolds(lim, calls, k - 1, key, from, to);
      if calls[k - 1].key == key {
        PlainKeeps(lim, calls, k - 1);
        PlainKeeps(lim, calls, k);
        PruningChangesNothing(lim, calls, k - 1);
        SpendHeld(lim, BucketOf(Plain(lim, calls, k - 1), key), calls[k - 1].now, Admitted(lim, calls, k - 1, key, from, to), from, to);
      }
    }
  }

  /**
   * In any window a key is admitted at most the burst plus the rate times the window's length, each call counted at
   * the latest time its key has been called at.
   */
  lemma RateIsHeld(lim: Limits, calls: seq<Call>, key: Key, from: real, to: real)
    requires lim.Valid() && NoneBackdated(calls) && from <= to
    ensures Admitted(lim, calls, |calls|, key, from, to) as real <= lim.burst + (to - from) * lim.rate
  {
    hide NoneBackdated, Admitted, Plain;
    WindowHolds(lim, calls, |calls|, key, from, to);
  }

  /** With a clock that never goes back, that is the time of the call. */
  lemma RateIsHeldForward(lim: Limits, calls: seq<Call>, key: Key, from: real, to: real)
    requires lim.Valid() && Forward(calls) && from <= to
    ensures AdmittedDated(lim, calls, |calls|, key, from, to) as real <= lim.burst + (to - from) * lim.rate
  {
    ForwardNotBackdated(calls);
    DatedIsLatest(lim, calls, |calls|, key, from, to);
    hide *;
    RateIsHeld(lim, calls, key, from, to);
  }

  lemma {:induction false} DatedIsLatest(lim: Limits, calls: seq<Call>, k: nat, key: Key, from: real, to: real)
    requires Forward(calls) && k <= |calls|
    ensures AdmittedDated(lim, calls, k, key, from, to) == Admitted(lim, calls, k, key, from, to)
  {
    hide AllowOk;
    if k > 0 {
      DatedIsLatest(lim, calls, k - 1, key, from, to);
      LatestNow(calls, k - 1);
    }
  }

  lemma LatestNow(calls: seq<Call>, k: nat)
    requires Forward(calls) && k < |calls|
    ensures Latest(calls, k + 1, calls[k].key) == Some(calls[k].now)
  {
    LatestCalled(calls, k, calls[k].key);
  }

  lemma {:induction false} LatestCalled(calls: seq<Call>, k: nat, key: Key)
    requires k <= |calls|
    ensures var last := Latest(calls, k, key); last.Some? ==> exists i :: 0 <= i < k && calls[i].now == last.value
  {
    if k > 0 {
      LatestCalled(calls, k - 1, key);
      assert calls[k - 1].now == calls[k - 1].now;
    }
  }

  // ---------------------------------------------------------------- and used up

  /** Only calls up to the key's latest time count. */
  lemma {:induction false} CountedUpTo(lim: Limits, calls: seq<Call>, k: nat, key: Key, from: real, to: real)
    requires k <= |calls|
    ensures var last, n := Latest(calls, k, key), Admitted(lim, calls, k, key, from, to);
            && (last.None? || last.value < from ==> n == 0)
            && (last.Some? && last.value <= to ==> n == Admitted(lim, calls, k, key, from, last.value))
  {
    hide AllowOk;
    if k > 0 {
      CountedUpTo(lim, calls, k - 1, key, from, to);
      if Latest(calls, k, key).Some? { CountedUpTo(lim, calls, k - 1, key, from, Latest(calls, k, key).value); }
    }
  }

  /** Since it was last full, a bucket's admissions and its tokens make up the burst and what has accrued. */
  ghost predicate UsedUp(lim: Limits, b: Bucket, n: nat, from: real) {
    from <= b.last && n as real + b.tokens == lim.burst + Worth(lim, b.last - from)
  }

  lemma {:induction false} LastFull(lim: Limits, calls: seq<Call>, k: nat, key: Key) returns (from: real)
    requires lim.Valid() && NoneBackdated(calls) && k <= |calls| && key in Plain(lim, calls, k)
    ensures UsedUp(lim, Plain(lim, calls, k)[key], Admitted(lim, calls, k, key, from, Plain(lim, calls, k)[key].last), from)
  {
    hide NoneBackdated, UsedUp, AllowOk, Spend, Latest, Worth;
    var c, all := calls[k - 1], Plain(lim, calls, k - 1);
    if c.key != key {
      from := LastFull(lim, calls, k - 1, key);
    } else {
      PlainKeeps(lim, calls, k - 1);
      PlainKeeps(lim, calls, k);
      PruningChangesNothing(lim, calls, k - 1);
      var (b, ok) := Spend(lim, BucketOf(all, key), c.now);
      if key !in all || (c.now > all[key].last && Accrued(lim, all[key], c.now) > lim.burst) {
        from := c.now;
        CountedUpTo(lim, calls, k - 1, key, from, b.last);
        FullAgain(lim, BucketOf(all, key), c.now);
      } else {
        from := LastFull(lim, calls, k - 1, key);
        CountedUpTo(lim, calls, k - 1, key, from, b.last);
        FillsOn(lim, all[key], c.now, Admitted(lim, calls, k - 1, key, from, all[key].last), from);
      }
    }
  }

  lemma FullAgain(lim: Limits, b: Option<Bucket>, now: real)
    requires lim.Valid() && (b.None? || (now > b.value.last && Accrued(lim, b.value, now) > lim.burst))
    ensures var (b', ok) := Spend(lim, b, now); b'.last == now && ok && UsedUp(lim, b', 1, now)
  {
  }

  lemma FillsOn(lim: Limits, b: Bucket, now: real, n: nat, from: real)
    requires lim.Valid() && UsedUp(lim, b, n, from) && (now > b.last ==> Accrued(lim, b, now) <= lim.burst)
    ensures var (b', ok) := Spend(lim, Some(b), now);
            b'.last == (if now > b.last then now else b.last) && from <= b'.last && UsedUp(lim, b', n + if ok then 1 else 0, from)
  {
    WorthAdds(lim, now - b.last, b.last - from);
    assert now - b.last + (b.last - from) == now - from;
    hide Worth;
  }

  /** A call is refused only where one more admission would pass the bound: in some window ending with it. */
  lemma RefusedOnlyAtTheBound(lim: Limits, calls: seq<Call>, k: nat) returns (from: real)
    requires lim.Valid() && NoneBackdated(calls) && k < |calls| && !AllowOk(lim, calls, k)
    ensures var last := Latest(calls, k + 1, calls[k].key);
            && last.Some? && from <= last.value
            && Admitted(lim, calls, k, calls[k].key, from, last.value) as real + 1.0 > lim.burst + Worth(lim, last.value - from)
  {
    var key := calls[k].key;
    hide NoneBackdated, Latest, Worth, Spend, AllowOk, UsedUp;
    PlainKeeps(lim, calls, k + 1);
    PruningChangesNothing(lim, calls, k);
    var b := Plain(lim, calls, k + 1)[key];
    from := LastFull(lim, calls, k + 1, key);
    RefusedLow(lim, BucketOf(Plain(lim, calls, k), key), calls[k].now);
    hide Plain;
    OneMoreTooMany(lim, b, Admitted(lim, calls, k, key, from, b.last), from);
  }

  lemma RefusedLow(lim: Limits, b: Option<Bucket>, now: real)
    ensures var (b', ok) := Spend(lim, b, now); !ok ==> b'.tokens < 1.0
  {
  }

  lemma OneMoreTooMany(lim: Limits, b: Bucket, n: nat, from: real)
    requires UsedUp(lim, b, n, from) && b.tokens < 1.0
    ensures from <= b.last && n as real + 1.0 > lim.burst + Worth(lim, b.last - from)
  {
  }

  // ---------------------------------------------------------------- where it is not

  /** Calls of one key whose clock goes back and forth. */
  function BackAndForth(): seq<Call> {
    [Call([], 100.0), Call([], 50.0), Call([], 102.0), Call([], 50.0), Call([], 104.0), Call([], 50.0)]
  }

  /** With a burst of two and one token a second, three are admitted at the fiftieth second. */
  lemma OneSecondOverfull()
    ensures NoneBackdated(BackAndForth())
    ensures AdmittedDated(Limits(1.0, 2.0), BackAndForth(), 6, [], 50.0, 50.0) > 2
  {
    NeverIdle(BackAndForth());
    hide NoneBackdated, AdmittedDated;
    ThreeGranted(BackAndForth());
  }

  lemma ThreeGranted(calls: seq<Call>)
    requires |calls| == 6 && NoneBackdated(calls) && forall i :: 0 <= i < 6 ==> calls[i].key == []
    requires calls[0].now == 100.0 && calls[2].now == 102.0 && calls[4].now == 104.0
    requires calls[1].now == calls[3].now == calls[5].now == 50.0
    ensures AdmittedDated(Limits(1.0, 2.0), calls, 6, [], 50.0, 50.0) == 3
  {
    var lim := Limits(1.0, 2.0);
    hide NoneBackdated, AllowOk, Plain, AdmittedDated, Spend, BucketOf;
    Filling(0.0, 100.0);
    Granted(lim, calls, 0, None, Bucket(1.0, 100.0));
    Granted(lim, calls, 1, Some(Bucket(1.0, 100.0)), Bucket(0.0, 100.0));
    Filling(100.0, 102.0);
    Granted(lim, calls, 2, Some(Bucket(0.0, 100.0)), Bucket(1.0, 102.0));
    Granted(lim, calls, 3, Some(Bucket(1.0, 102.0)), Bucket(0.0, 102.0));
    Filling(102.0, 104.0);
    Granted(lim, calls, 4, Some(Bucket(0.0, 102.0)), Bucket(1.0, 104.0));
    Granted(lim, calls, 5, Some(Bucket(1.0, 104.0)), Bucket(0.0, 104.0));
  }

  lemma Filling(last: real, now: real)
    requires 50.0 <= now && now - last >= 2.0
    ensures var lim := Limits(1.0, 2.0);
            && Spend(lim, None, now) == (Bucket(1.0, now), true)
            && Spend(lim, Some(Bucket(0.0, last)), now) == (Bucket(1.0, now), true)
            && Spend(lim, Some(Bucket(1.0, now)), 50.0) == (Bucket(0.0, now), true)
  {
  }

  lemma Granted(lim: Limits, calls: seq<Call>, k: nat, b: Option<Bucket>, b': Bucket)
    requires lim.Valid() && NoneBackdated(calls) && k < |calls| && calls[k].key == []
    requires (if k == 0 then None else BucketOf(Plain(lim, calls, k), [])) == b && Spend(lim, b, calls[k].now) == (b', true)
    ensures BucketOf(Plain(lim, calls, k + 1), []) == Some(b')
    ensures AdmittedDated(lim, calls, k + 1, [], 50.0, 50.0) ==
            (if k == 0 then 0 else AdmittedDated(lim, calls, k, [], 50.0, 50.0)) + if calls[k].now == 50.0 then 1 else 0
  {
    PruningChangesNothing(lim, calls, k);
    hide Spend, AllowOk, NoneBackdated;
  }

  lemma NeverIdle(calls: seq<Call>)
    requires forall i :: 0 <= i < |calls| ==> 0.0 <= calls[i].now < IDLE
    ensures NoneBackdated(calls)
  {
    forall j, k | 0 <= j < k < |calls| ensures !IdleSince(calls, j, k) {
      LatestCalled(calls, j, calls[k].key);
      hide Latest;
    }
  }
}

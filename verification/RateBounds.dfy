/** Clocks that go back: exactly when pruning keeps the limiter's answers and its rate. */
module RateBounds {
  import opened Core
  import opened RateLimit

  // ---------------------------------------------------------------- prunings move on

  lemma {:induction false} PrunedSince(calls: seq<Call>, i: nat, k: nat)
    requires i < k <= |calls| && Prunes(calls, i)
    ensures LastPrune(calls, k).Some? && LastPrune(calls, k).value >= calls[i].now
  {
    if i < k - 1 { PrunedSince(calls, i, k - 1); }
  }

  /** A later pruning has a later time. */
  lemma PruningsAdvance(calls: seq<Call>, i: nat, j: nat)
    requires i < j < |calls| && Prunes(calls, i) && Prunes(calls, j)
    ensures calls[i].now < calls[j].now
  {
    PrunedSince(calls, i, j);
  }

  lemma {:induction false} LatestGrows(calls: seq<Call>, i: nat, k: nat, key: Key)
    requires i <= k <= |calls| && Latest(calls, i, key).Some?
    ensures Latest(calls, k, key).Some? && Latest(calls, i, key).value <= Latest(calls, k, key).value
  {
    if i < k { LatestGrows(calls, i, k - 1, key); }
  }

  lemma {:induction false} FirstCall(calls: seq<Call>, k: nat, key: Key) returns (i: nat)
    requires k <= |calls| && Latest(calls, k, key).Some?
    ensures i < k && calls[i].key == key && Latest(calls, i, key).None?
  {
    if Latest(calls, k - 1, key).Some? {
      i := FirstCall(calls, k - 1, key);
    } else {
      i := k - 1;
    }
  }

  // ---------------------------------------------------------------- a key pruned and called again in its past

  /** The key of call k is first called at i, is pruned at j and comes back at k with an earlier time. */
  ghost predicate Backdated(calls: seq<Call>, i: nat, j: nat, k: nat) {
    && i < j < k < |calls| && calls[i].key == calls[k].key && Latest(calls, i, calls[k].key).None?
    && Prunes(calls, j) && IdleSince(calls, j, k) && calls[k].now < calls[j].now
  }

  /** One token, which takes all the time from the key's first call to the pruning to come back. */
  ghost function Slow(calls: seq<Call>, i: nat, j: nat): Limits
    requires i < |calls| && j < |calls| && calls[i].now < calls[j].now
  {
    Limits(1.0 / (calls[j].now - calls[i].now), 1.0)
  }

  lemma SlowWorth(calls: seq<Call>, i: nat, j: nat, seconds: real)
    requires i < |calls| && j < |calls| && calls[i].now < calls[j].now
    ensures var lim := Slow(calls, i, j); lim.Valid() && lim.burst == 1.0 && (Worth(lim, seconds) >= 1.0 <==> seconds >= calls[j].now - calls[i].now)
  {
    var d := calls[j].now - calls[i].now;
    var rate := 1.0 / d;
    assert d * rate == 1.0;
    if seconds >= d { assert (seconds - d) * rate >= 0.0; } else { assert (d - seconds) * rate > 0.0; }
  }

  lemma SpanIsLong(calls: seq<Call>, i: nat, j: nat, k: nat)
    requires Backdated(calls, i, j, k)
    ensures calls[i].now < calls[j].now && calls[i].key == calls[k].key && Latest(calls, i + 1, calls[k].key) == Some(calls[i].now)
    ensures var last := Latest(calls, j, calls[k].key); last.Some? && calls[i].now <= last.value <= calls[j].now - IDLE
  {
    LatestGrows(calls, i + 1, j, calls[k].key);
  }

  /** What the bucket holds: what its key has earned since its first call, and that is not a token. */
  ghost predicate Owing(lim: Limits, calls: seq<Call>, i: nat, n: nat, key: Key, buckets: Buckets)
    requires i < n <= |calls|
  {
    var last := Latest(calls, n, key);
    last.Some? && key in buckets && buckets[key] == Bucket(Worth(lim, last.value - calls[i].now), last.value)
  }

  /** An owing bucket has the worth of all the time since the first call. */
  lemma OwingAccrues(lim: Limits, calls: seq<Call>, i: nat, n: nat, key: Key, buckets: Buckets, now: real)
    requires i < n <= |calls| && Owing(lim, calls, i, n, key, buckets)
    ensures Accrued(lim, buckets[key], now) == Worth(lim, now - calls[i].now)
  {
    var last := Latest(calls, n, key).value;
    hide Latest, Worth;
    WorthAdds(lim, last - calls[i].now, now - last);
    assert last - calls[i].now + (now - last) == now - calls[i].now;
  }

  /** A call before the pruning finds no token and leaves the bucket owing. */
  lemma StaysOwing(calls: seq<Call>, i: nat, j: nat, k: nat, n: nat, buckets: Buckets)
    requires Backdated(calls, i, j, k) && i < n < j && calls[i].now < calls[j].now
    requires Owing(Slow(calls, i, j), calls, i, n, calls[k].key, buckets)
    ensures Owing(Slow(calls, i, j), calls, i, n + 1, calls[k].key, Charge(Slow(calls, i, j), buckets, calls[n].key, calls[n].now).buckets)
  {
    var lim, key, c := Slow(calls, i, j), calls[k].key, calls[n];
    if c.key == key {
      SpanIsLong(calls, i, j, k);
      LatestGrows(calls, n + 1, j, key);
      OwingAccrues(lim, calls, i, n, key, buckets, c.now);
      SlowWorth(calls, i, j, c.now - calls[i].now);
      SlowWorth(calls, i, j, Latest(calls, n, key).value - calls[i].now);
      hide Worth, Accrued, Slow, Backdated;
    } else {
      hide Spend, Worth, Slow, Backdated;
    }
  }

  lemma NotPrunedYet(calls: seq<Call>, i: nat, j: nat, k: nat, n: nat, m: Memory)
    requires Backdated(calls, i, j, k) && i < n < j && calls[i].now < calls[j].now && m.lastPrune == LastPrune(calls, n)
    requires Owing(Slow(calls, i, j), calls, i, n, calls[k].key, m.buckets)
    ensures Owing(Slow(calls, i, j), calls, i, n, calls[k].key, AfterPrune(Slow(calls, i, j), m, calls[n].now).buckets)
  {
    var lim, key := Slow(calls, i, j), calls[k].key;
    if Prunes(calls, n) {
      PruningsAdvance(calls, n, j);
      OwingAccrues(lim, calls, i, n, key, m.buckets, calls[n].now);
      SlowWorth(calls, i, j, calls[n].now - calls[i].now);
    }
    hide Worth, Accrued, Slow, Backdated, Latest, LastPrune;
  }

  /** Both limiters keep the same owing bucket until the pruning. */
  lemma {:induction false} OwingUntil(calls: seq<Call>, i: nat, j: nat, k: nat, n: nat)
    requires Backdated(calls, i, j, k) && i < n <= j && calls[i].now < calls[j].now
    ensures var lim, key := Slow(calls, i, j), calls[k].key;
            Owing(lim, calls, i, n, key, Plain(lim, calls, n)) && Owing(lim, calls, i, n, key, Remembered(lim, calls, n).buckets)
  {
    var lim := Slow(calls, i, j);
    SpanIsLong(calls, i, j, k);
    if n == i + 1 {
      FirstOwes(calls, i, j, k);
    } else {
      OwingUntil(calls, i, j, k, n - 1);
      PrunedWhen(lim, calls, n - 1);
      var m := Remembered(lim, calls, n - 1);
      NotPrunedYet(calls, i, j, k, n - 1, m);
      StaysOwing(calls, i, j, k, n - 1, Plain(lim, calls, n - 1));
      StaysOwing(calls, i, j, k, n - 1, AfterPrune(lim, m, calls[n - 1].now).buckets);
      hide Owing, Slow, Backdated, Charge, AfterPrune;
    }
  }

  lemma FirstOwes(calls: seq<Call>, i: nat, j: nat, k: nat)
    requires Backdated(calls, i, j, k) && calls[i].now < calls[j].now
    ensures var lim, key := Slow(calls, i, j), calls[k].key;
            && Owing(lim, calls, i, i + 1, key, Plain(lim, calls, i + 1)) && Owing(lim, calls, i, i + 1, key, Remembered(lim, calls, i + 1).buckets)
            && AllowOk(lim, calls, i)
  {
    var lim, key := Slow(calls, i, j), calls[k].key;
    SlowWorth(calls, i, j, 0.0);
    PlainKeeps(lim, calls, i);
    KeptAreKnown(lim, calls, i, key);
    hide Backdated, BucketsOk;
  }

  /** A limiter that prunes has no bucket for a key never called. */
  lemma {:induction false} KeptAreKnown(lim: Limits, calls: seq<Call>, n: nat, key: Key)
    requires n <= |calls| && Latest(calls, n, key).None?
    ensures key !in Remembered(lim, calls, n).buckets
  {
    if n > 0 {
      KeptAreKnown(lim, calls, n - 1, key);
      hide Stale, Spend;
    }
  }

  /** From the pruning until the key comes back it has no bucket; the limiter that never prunes keeps it, owing. */
  lemma {:induction false} GoneUntil(calls: seq<Call>, i: nat, j: nat, k: nat, n: nat)
    requires Backdated(calls, i, j, k) && j < n <= k && calls[i].now < calls[j].now
    ensures var lim, key := Slow(calls, i, j), calls[k].key;
            && key !in Remembered(lim, calls, n).buckets
            && BucketOf(Plain(lim, calls, n), key) == BucketOf(Plain(lim, calls, j), key)
  {
    var lim, key := Slow(calls, i, j), calls[k].key;
    if n == j + 1 {
      OwingUntil(calls, i, j, k, j);
      DroppedThen(calls, i, j, k);
    } else {
      GoneUntil(calls, i, j, k, n - 1);
    }
    hide Slow, Spend, Stale, Owing;
  }

  lemma DroppedThen(calls: seq<Call>, i: nat, j: nat, k: nat)
    requires Backdated(calls, i, j, k) && calls[i].now < calls[j].now
    requires Owing(Slow(calls, i, j), calls, i, j, calls[k].key, Remembered(Slow(calls, i, j), calls, j).buckets)
    ensures calls[k].key !in AfterPrune(Slow(calls, i, j), Remembered(Slow(calls, i, j), calls, j), calls[j].now).buckets
  {
    var lim, key := Slow(calls, i, j), calls[k].key;
    PrunedWhen(lim, calls, j);
    OwingAccrues(lim, calls, i, j, key, Remembered(lim, calls, j).buckets, calls[j].now);
    SlowWorth(calls, i, j, calls[j].now - calls[i].now);
    hide Worth, Accrued, Slow, Remembered, LastPrune, Latest;
  }

  /** The limiter that prunes admits the call the other refuses. */
  lemma AdmittedAgain(calls: seq<Call>, i: nat, j: nat, k: nat)
    requires Backdated(calls, i, j, k) && calls[i].now < calls[j].now
    ensures AllowOk(Slow(calls, i, j), calls, k) && !PlainOk(Slow(calls, i, j), calls, k)
  {
    var lim, key := Slow(calls, i, j), calls[k].key;
    SpanIsLong(calls, i, j, k);
    GoneUntil(calls, i, j, k, k);
    OwingUntil(calls, i, j, k, j);
    var all := Plain(lim, calls, j);
    OwingAccrues(lim, calls, i, j, key, all, calls[k].now);
    SlowWorth(calls, i, j, calls[k].now - calls[i].now);
    SlowWorth(calls, i, j, all[key].last - calls[i].now);
    hide Worth, Accrued, Slow, Remembered, LastPrune, Latest, Plain, Backdated;
  }

  lemma WhichBackdated(calls: seq<Call>) returns (i: nat, j: nat, k: nat)
    requires !NoneBackdated(calls)
    ensures Backdated(calls, i, j, k) && calls[i].now < calls[j].now
  {
    j, k :| 0 <= j < k < |calls| && Prunes(calls, j) && IdleSince(calls, j, k) && calls[k].now < calls[j].now;
    i := FirstCall(calls, j, calls[k].key);
    SpanIsLong(calls, i, j, k);
  }

  ghost predicate PruningLossless(calls: seq<Call>) {
    forall lim: Limits, k: nat :: lim.Valid() && k < |calls| ==> AllowOk(lim, calls, k) == PlainOk(lim, calls, k)
  }

  /** Pruning changes no answer, at any rate and burst, exactly when no pruned key comes back with an earlier time. */
  lemma PruningLosslessIff(calls: seq<Call>)
    ensures PruningLossless(calls) <==> NoneBackdated(calls)
  {
    if NoneBackdated(calls) {
      forall lim: Limits, k: nat | lim.Valid() && k < |calls| ensures AllowOk(lim, calls, k) == PlainOk(lim, calls, k) {
        PruningChangesNothing(lim, calls, k);
      }
    } else {
      var i, j, k := WhichBackdated(calls);
      AdmittedAgain(calls, i, j, k);
      SlowWorth(calls, i, j, 0.0);
    }
  }

  // ---------------------------------------------------------------- and the rate with it

  ghost predicate BoundHolds(lim: Limits, calls: seq<Call>, key: Key, from: real, to: real) {
    Admitted(lim, calls, |calls|, key, from, to) as real <= lim.burst + Worth(lim, to - from)
  }

  ghost predicate RateHolds(calls: seq<Call>) {
    forall lim: Limits, key, from, to :: lim.Valid() && from <= to ==> BoundHolds(lim, calls, key, from, to)
  }

  lemma {:induction false} AdmittedGrows(lim: Limits, calls: seq<Call>, i: nat, k: nat, key: Key, from: real, to: real)
    requires i <= k <= |calls|
    ensures Admitted(lim, calls, i, key, from, to) <= Admitted(lim, calls, k, key, from, to)
  {
    if i < k { AdmittedGrows(lim, calls, i, k - 1, key, from, to); }
  }

  /** Two tokens go in less time than one takes to come back. */
  lemma TwiceTooSoon(calls: seq<Call>, i: nat, j: nat, k: nat)
    requires Backdated(calls, i, j, k) && calls[i].now < calls[j].now
    ensures var last := Latest(calls, k + 1, calls[k].key);
            last.Some? && calls[i].now <= last.value && !BoundHolds(Slow(calls, i, j), calls, calls[k].key, calls[i].now, last.value)
  {
    hide Slow, Worth, Latest, LastPrune, Prunes, IdleSince, AllowOk, PlainOk, Admitted, Owing, Within, Plain, Remembered, BoundHolds;
    var key := calls[k].key;
    FirstOwes(calls, i, j, k);
    AdmittedAgain(calls, i, j, k);
    ShortWindow(calls, i, j, k);
    var lim, from, to := Slow(calls, i, j), calls[i].now, Latest(calls, k + 1, key).value;
    SlowWorth(calls, i, j, to - from);
    TwoAdmitted(lim, calls, i, k, from, to);
    TooMany(lim, calls, key, from, to);
  }

  lemma TooMany(lim: Limits, calls: seq<Call>, key: Key, from: real, to: real)
    requires lim.burst == 1.0 && Worth(lim, to - from) < 1.0 && Admitted(lim, calls, |calls|, key, from, to) >= 2
    ensures !BoundHolds(lim, calls, key, from, to)
  {
    hide Worth, Admitted;
  }

  lemma ShortWindow(calls: seq<Call>, i: nat, j: nat, k: nat)
    requires Backdated(calls, i, j, k) && calls[i].now < calls[j].now
    ensures var last := Latest(calls, k + 1, calls[k].key);
            && last.Some? && calls[i].now <= last.value && Worth(Slow(calls, i, j), last.value - calls[i].now) < 1.0
            && Within(calls, i, calls[i].now, last.value) && Within(calls, k, calls[i].now, last.value)
  {
    SpanIsLong(calls, i, j, k);
    LatestGrows(calls, i + 1, k + 1, calls[k].key);
    BackBefore(calls, i, j, k);
    SlowWorth(calls, i, j, Latest(calls, k + 1, calls[k].key).value - calls[i].now);
    hide Slow, Worth, Latest, IdleSince, Prunes;
  }

  lemma TwoAdmitted(lim: Limits, calls: seq<Call>, i: nat, k: nat, from: real, to: real)
    requires i < k < |calls| && calls[i].key == calls[k].key && AllowOk(lim, calls, i) && AllowOk(lim, calls, k)
    requires Within(calls, i, from, to) && Within(calls, k, from, to)
    ensures Admitted(lim, calls, |calls|, calls[k].key, from, to) >= 2
  {
    hide AllowOk, Within;
    AdmittedGrows(lim, calls, i + 1, k, calls[k].key, from, to);
    AdmittedGrows(lim, calls, k + 1, |calls|, calls[k].key, from, to);
  }

  lemma BackBefore(calls: seq<Call>, i: nat, j: nat, k: nat)
    requires Backdated(calls, i, j, k)
    ensures Latest(calls, k + 1, calls[k].key).Some? && Latest(calls, k + 1, calls[k].key).value < calls[j].now
  {
    SpanIsLong(calls, i, j, k);
    LatestStands(calls, j, k, calls[k].key);
  }

  lemma {:induction false} LatestStands(calls: seq<Call>, j: nat, n: nat, key: Key)
    requires j <= n <= |calls| && forall i :: j <= i < n ==> calls[i].key != key
    ensures Latest(calls, n, key) == Latest(calls, j, key)
  {
    if j < n { LatestStands(calls, j, n - 1, key); }
  }

  /** The rate holds, at any rate and burst, for every key and window, exactly when no pruned key comes back with an earlier time. */
  lemma RateIsHeldIff(calls: seq<Call>)
    ensures RateHolds(calls) <==> NoneBackdated(calls)
  {
    if NoneBackdated(calls) {
      forall lim: Limits, key, from: real, to: real | lim.Valid() && from <= to ensures BoundHolds(lim, calls, key, from, to) {
        RateIsHeld(lim, calls, key, from, to);
      }
    } else {
      var i, j, k := WhichBackdated(calls);
      hide Backdated, BoundHolds, NoneBackdated;
      TwiceTooSoon(calls, i, j, k);
      SlowWorth(calls, i, j, 0.0);
    }
  }

  /** A key called, idle while another's call prunes its bucket, and called again with an earlier time. */
  function PassedOver(): seq<Call> {
    [Call([], 0.0), Call([1], 1000.0), Call([], 1.0)]
  }

  /** It is admitted again at once, where a bucket kept would have refused, and oftener than the bound on its own clock. */
  lemma BackdatedOveradmits()
    ensures var lim := Limits(0.001, 1.0);
            AllowOk(lim, PassedOver(), 2) && !PlainOk(lim, PassedOver(), 2) && !BoundHolds(lim, PassedOver(), [], 0.0, 1.0)
  {
    var calls := PassedOver();
    PassedOverBackdated();
    assert Slow(calls, 0, 1) == Limits(0.001, 1.0);
    assert calls[2].key == [] && calls[0].now == 0.0 && calls[0].now < calls[1].now && |calls| == 3;
    hide *;
    AdmittedAgain(calls, 0, 1, 2);
    TwiceTooSoon(calls, 0, 1, 2);
  }

  lemma PassedOverBackdated()
    ensures Backdated(PassedOver(), 0, 1, 2) && Latest(PassedOver(), 3, []) == Some(1.0)
  {
    var calls := PassedOver();
    var first, second: Key := [], [1];
    assert |first| != |second|;
    assert Latest(calls, 0, first) == None && Latest(calls, 1, first) == Some(0.0) && Latest(calls, 2, first) == Some(0.0);
    assert LastPrune(calls, 0) == None && LastPrune(calls, 1) == Some(0.0);
  }
}

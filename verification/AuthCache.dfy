/** Write tokens: the time window they verify in and the cache that refuses a second use. */
module AuthCache {
  import opened Core

  type Signature = Bytes

  /** Nanoseconds a token's stamp may be from the node's clock. */
  const SKEW := 300_000_000_000

  const GC_INTERVAL := 60_000_000_000

  /** The second a signature vouches for: a signature covers its token's stamp. */
  type StampOf = Signature -> int

  /** The token's stamp is within the skew of the clock. */
  predicate Verifies(stamp: int, now: int) {
    -SKEW <= now - stamp * SECOND <= SKEW
  }

  type Entries = map<Signature, int>

  /** Remembered signatures with their expiry, and when they were last swept. */
  datatype Cache = Cache(entries: Entries, lastGC: Option<int>)

  function Swept(c: Cache, now: int): Cache {
    if c.lastGC.Some? && now - c.lastGC.value < GC_INTERVAL then c
    else Cache(map sig | sig in c.entries && now <= c.entries[sig] :: c.entries[sig], Some(now))
  }

  predicate IsReplay(c: Cache, sig: Signature, now: int) {
    sig in c.entries && now < c.entries[sig]
  }

  function Noted(c: Cache, sig: Signature, now: int): Cache {
    var s := Swept(c, now);
    if IsReplay(s, sig, now) then s else s.(entries := s.entries[sig := now + 2 * SKEW])
  }

  class TokenCache {
    var entries: Entries
    var lastGC: Option<int>

    constructor ()
      ensures State() == Cache(map[], None)
    {
      entries, lastGC := map[], None;
    }

    ghost function State(): Cache reads this { Cache(entries, lastGC) }

    /** Record a signature; true if it was already in force. */
    method Seen(sig: Signature, now: int) returns (replay: bool)
      modifies this
      ensures State() == Noted(old(State()), sig, now)
      ensures replay == IsReplay(Swept(old(State()), now), sig, now)
    {
      if lastGC.None? || now - lastGC.value >= GC_INTERVAL {
        var rest := entries.Keys;
        while rest != {}
          invariant rest <= old(entries).Keys && lastGC == old(lastGC)
          invariant entries == map s | s in old(entries) && (s in rest || now <= old(entries)[s]) :: old(entries)[s]
          decreases rest
        {
          var s :| s in rest;
          rest := rest - {s};
          if now > entries[s] {
            entries := entries - {s};
          }
        }
        lastGC := Some(now);
      }
      assert State() == Swept(old(State()), now);
      replay := sig in entries && now < entries[sig];
      if !replay {
        entries := entries[sig := now + 2 * SKEW];
      }
    }

    /** A write is let in when its token verifies and has not been used. */
    method Admit(sig: Signature, stamp: int, now: int) returns (ok: bool)
      modifies this
      ensures ok <==> Verifies(stamp, now) && !IsReplay(Swept(old(State()), now), sig, now)
      ensures State() == if Verifies(stamp, now) then Noted(old(State()), sig, now) else old(State())
    {
      var d := now - stamp * SECOND;
      if d < -SKEW || d > SKEW { return false; }
      var replay := Seen(sig, now);
      return !replay;
    }
  }

  // ---------------------------------------------------------------- runs

  datatype Use = Use(sig: Signature, now: int)

  ghost predicate Forward(uses: seq<Use>) {
    forall i, j :: 0 <= i <= j < |uses| ==> uses[i].now <= uses[j].now
  }

  ghost function After(stamp: StampOf, uses: seq<Use>, k: nat): Cache
    requires k <= |uses|
  {
    if k == 0 then Cache(map[], None)
    else
      var c, u := After(stamp, uses, k - 1), uses[k - 1];
      if Verifies(stamp(u.sig), u.now) then Noted(c, u.sig, u.now) else c
  }

  ghost predicate Accepted(stamp: StampOf, uses: seq<Use>, k: nat)
    requires k < |uses|
  {
    && Verifies(stamp(uses[k].sig), uses[k].now)
    && !IsReplay(Swept(After(stamp, uses, k), uses[k].now), uses[k].sig, uses[k].now)
  }

  /** The cache, asked for a whole run of uses, answers as the run functions say: a token passes twice only at the edge. */
  method Serve(c: TokenCache, stamp: StampOf, uses: seq<Use>) returns (answers: seq<bool>)
    requires c.State() == Cache(map[], None)
    modifies c
    ensures |answers| == |uses| && c.State() == After(stamp, uses, |uses|)
    ensures forall k :: 0 <= k < |uses| ==> answers[k] == Accepted(stamp, uses, k)
    ensures Forward(uses) ==>
              forall i, j :: 0 <= i < j < |uses| && uses[i].sig == uses[j].sig && answers[i] && answers[j] ==>
                uses[j].now == uses[i].now + 2 * SKEW
  {
    hide Noted, Swept, Verifies, IsReplay;
    answers := [];
    for k := 0 to |uses|
      invariant |answers| == k && c.State() == After(stamp, uses, k)
      invariant forall i :: 0 <= i < k ==> answers[i] == Accepted(stamp, uses, i)
    {
      var ok := c.Admit(uses[k].sig, stamp(uses[k].sig), uses[k].now);
      answers := answers + [ok];
    }
    if Forward(uses) {
      forall i, j | 0 <= i < j < |uses| && uses[i].sig == uses[j].sig && answers[i] && answers[j]
        ensures uses[j].now == uses[i].now + 2 * SKEW
      {
        AcceptedAgainOnlyAtTheEdge(stamp, uses, i, j);
      }
    }
  }

  /** When a signature was last accepted among the first k uses. */
  ghost function LastAccepted(stamp: StampOf, uses: seq<Use>, k: nat, sig: Signature): Option<int>
    requires k <= |uses|
  {
    if k == 0 then None
    else if uses[k - 1].sig == sig && Accepted(stamp, uses, k - 1) then Some(uses[k - 1].now)
    else LastAccepted(stamp, uses, k - 1, sig)
  }

  /** A signature is remembered from its acceptance until its token can no longer verify. */
  ghost predicate Remembers(c: Cache, last: Option<int>, sig: Signature, stamp: int, clock: int) {
    if last.None? then sig !in c.entries
    else
      && Verifies(stamp, last.value) && last.value <= clock
      && if sig in c.entries then c.entries[sig] == last.value + 2 * SKEW else clock > last.value + 2 * SKEW
  }

  ghost function ClockOf(uses: seq<Use>, k: nat): int
    requires k <= |uses| && uses != []
  {
    if k == 0 then uses[0].now else uses[k - 1].now
  }

  lemma {:induction false} RunRemembers(stamp: StampOf, uses: seq<Use>, k: nat, sig: Signature)
    requires uses != [] && Forward(uses) && k <= |uses|
    ensures Remembers(After(stamp, uses, k), LastAccepted(stamp, uses, k, sig), sig, stamp(sig), ClockOf(uses, k))
  {
    if k > 0 {
      RunRemembers(stamp, uses, k - 1, sig);
      assert ClockOf(uses, k - 1) <= uses[k - 1].now;
    }
  }

  /**
   * A token accepted once is accepted again only at the last nanosecond it verifies, twice the skew later,
   * and only when its stamp was a full skew ahead of the clock the first time.
   */
  lemma AcceptedAgainOnlyAtTheEdge(stamp: StampOf, uses: seq<Use>, i: nat, j: nat)
    requires Forward(uses) && i < j < |uses| && uses[i].sig == uses[j].sig
    requires Accepted(stamp, uses, i) && Accepted(stamp, uses, j)
    ensures uses[j].now == uses[i].now + 2 * SKEW && stamp(uses[i].sig) * SECOND == uses[i].now + SKEW
  {
    LastAtLeast(stamp, uses, i, j);
    RunRemembers(stamp, uses, j, uses[j].sig);
    var c, u := After(stamp, uses, j), uses[j];
    assert ClockOf(uses, j) <= u.now;
  }

  /** Between an acceptance and a later use of the same token the last acceptance is no earlier. */
  lemma {:induction false} LastAtLeast(stamp: StampOf, uses: seq<Use>, i: nat, j: nat)
    requires Forward(uses) && i < j <= |uses| && Accepted(stamp, uses, i)
    ensures var last := LastAccepted(stamp, uses, j, uses[i].sig);
            last.Some? && uses[i].now <= last.value && exists k :: i <= k < j && uses[k].now == last.value
  {
    if j > i + 1 { LastAtLeast(stamp, uses, i, j - 1); }
  }

  /** The edge is real: there, a token not accepted in between is let in again. */
  lemma EdgeIsAccepted(stamp: StampOf, uses: seq<Use>, i: nat, j: nat)
    requires Forward(uses) && i < j < |uses| && uses[i].sig == uses[j].sig && Accepted(stamp, uses, i)
    requires uses[j].now == uses[i].now + 2 * SKEW && stamp(uses[i].sig) * SECOND == uses[i].now + SKEW
    requires forall k :: i < k < j && uses[k].sig == uses[i].sig ==> !Accepted(stamp, uses, k)
    ensures Accepted(stamp, uses, j)
  {
    LastIs(stamp, uses, i, j);
    RunRemembers(stamp, uses, j, uses[j].sig);
  }

  lemma {:induction false} LastIs(stamp: StampOf, uses: seq<Use>, i: nat, j: nat)
    requires i < j <= |uses| && Accepted(stamp, uses, i)
    requires forall k :: i < k < j && uses[k].sig == uses[i].sig ==> !Accepted(stamp, uses, k)
    ensures LastAccepted(stamp, uses, j, uses[i].sig) == Some(uses[i].now)
  {
    if j > i + 1 { LastIs(stamp, uses, i, j - 1); }
  }

  /** Within any span shorter than twice the skew a token is accepted at most once. */
  lemma OncePerSpan(stamp: StampOf, uses: seq<Use>, i: nat, j: nat)
    requires Forward(uses) && i < j < |uses| && uses[i].sig == uses[j].sig
    requires uses[j].now - uses[i].now < 2 * SKEW
    ensures !(Accepted(stamp, uses, i) && Accepted(stamp, uses, j))
  {
    if Accepted(stamp, uses, i) && Accepted(stamp, uses, j) { AcceptedAgainOnlyAtTheEdge(stamp, uses, i, j); }
  }

  /** No token is ever accepted three times. */
  lemma NeverThrice(stamp: StampOf, uses: seq<Use>, i: nat, j: nat, k: nat)
    requires Forward(uses) && i < j < k < |uses| && uses[i].sig == uses[j].sig == uses[k].sig
    ensures !(Accepted(stamp, uses, i) && Accepted(stamp, uses, j) && Accepted(stamp, uses, k))
  {
    if Accepted(stamp, uses, i) && Accepted(stamp, uses, j) && Accepted(stamp, uses, k) {
      AcceptedAgainOnlyAtTheEdge(stamp, uses, i, j);
      AcceptedAgainOnlyAtTheEdge(stamp, uses, j, k);
    }
  }

  /** Twice the skew after any moment at which it verified, a token no longer does. */
  lemma VerifiesNoLonger(stamp: int, now: int, later: int)
    requires Verifies(stamp, now) && later > now + 2 * SKEW
    ensures !Verifies(stamp, later)
  {
  }

  /** A sweep drops an accepted signature only when its token will never verify again. */
  lemma SweepIsSafe(stamp: StampOf, uses: seq<Use>, k: nat, sig: Signature, now: int, later: int)
    requires uses != [] && Forward(uses) && k <= |uses| && ClockOf(uses, k) <= now <= later
    requires LastAccepted(stamp, uses, k, sig).Some? && sig !in Swept(After(stamp, uses, k), now).entries
    ensures !Verifies(stamp(sig), later)
  {
    RunRemembers(stamp, uses, k, sig);
  }

  /** Presented ten minutes apart with a stamp five minutes ahead, one token is accepted twice. */
  lemma TwiceAtTheEdge(sig: Signature)
    ensures var uses := [Use(sig, 0), Use(sig, 2 * SKEW)];
            Forward(uses) && Accepted(_ => 300, uses, 0) && Accepted(_ => 300, uses, 1)
  {
    var uses := [Use(sig, 0), Use(sig, 2 * SKEW)];
    var stamp: StampOf := _ => 300;
    assert Accepted(stamp, uses, 0);
    EdgeIsAccepted(stamp, uses, 0, 1);
  }
}

/** A storage node: its blobs and its ledger kept in step through PUT, DELETE and garbage collection. */
module Node {
  import opened Core
  import opened Ledger
  import opened LedgerRuns
  import opened LedgerCode

  /** Shards with a claim but no bytes. */
  ghost function UnbackedIn(t: Tables, blobs: set<ShardID>): set<ShardID> {
    set c | c in t.owners && c.0 !in blobs :: c.0
  }

  lemma UnbackedMeans(t: Tables, blobs: set<ShardID>)
    ensures UnbackedIn(t, blobs) == {} <==> forall c :: c in t.owners ==> c.0 in blobs
  {
    forall c | c in t.owners && c.0 !in blobs ensures c.0 in UnbackedIn(t, blobs) {}
  }

  /** Claims only lost, blobs lost only where no claim is left: nothing becomes unbacked. */
  lemma LosingClaims(t: Tables, blobs: set<ShardID>, t': Tables, blobs': set<ShardID>)
    requires t'.owners.Keys <= t.owners.Keys
    requires forall c :: c in t'.owners && c.0 in blobs ==> c.0 in blobs'
    ensures UnbackedIn(t', blobs') <= UnbackedIn(t, blobs)
  {
  }

  /** A record dropped by the collector, and the snapshot it was dropped under. */
  datatype Drop = Drop(id: ShardID, cycle: nat)

  ghost predicate TwiceSeen(drops: seq<Drop>, snapshots: seq<set<ShardID>>) {
    forall d :: d in drops ==> 1 <= d.cycle < |snapshots| && d.id in snapshots[d.cycle - 1] && d.id in snapshots[d.cycle]
  }

  datatype Request =
    | Put(id: ShardID, bytes: nat, owner: Owner, stripe: Option<StripeRow>, now: int)
    | Delete(id: ShardID, owner: Owner)
    | Collect(listed: bool, now: int, later: ShardID -> int, expireLeases: bool)

  datatype Reply =
    | PutReply(put: Option<Result<bool, LedgerError>>)
    | DeleteReply(deleted: Option<Result<nat, LedgerError>>)
    | CollectReply(completed: bool)

  /** What a node has: its ledger, its blobs, and what its last cycle saw collectible. */
  datatype State = State(t: Tables, blobs: set<ShardID>, prev: set<ShardID>)

  /** A request, how many of its steps happen, and whether the node restarts after it. */
  datatype Call = Call(request: Request, steps: nat, restart: bool)

  class StorageNode {
    const db: LedgerDB
    var blobs: set<ShardID>
    /** What the last cycle saw collectible; lost in a crash. */
    var prev: set<ShardID>
    /** Every successful snapshot so far, and every record the collector dropped. */
    ghost var snapshots: seq<set<ShardID>>
    ghost var drops: seq<Drop>

    /** Every dropped record was collectible in two successive snapshots. */
    ghost predicate Graceful() reads this {
      && (prev == {} || (snapshots != [] && prev <= snapshots[|snapshots| - 1]))
      && TwiceSeen(drops, snapshots)
    }

    ghost predicate Valid() reads this, db {
      db.Valid() && Graceful()
    }

    ghost function Now(): State reads this, db {
      State(db.Now(), blobs, prev)
    }

    ghost function Unbacked(): set<ShardID> reads this, db {
      UnbackedIn(db.Now(), blobs)
    }

    constructor (db: LedgerDB)
      requires db.Valid() && db.Now().owners == map[]
      ensures Valid() && this.db == db && Unbacked() == {} && blobs == {} && drops == []
    {
      this.db := db;
      blobs, prev := {}, {};
      snapshots, drops := [], [];
    }

    /** Losing power: what is on disk stays, the collector's memory goes. */
    method Restart()
      requires Valid()
      modifies this`prev
      ensures Valid() && prev == {}
    {
      prev := {};
    }

    /**
     * Store the bytes, claim them, note the stripe; `steps` of these happen before the power goes. The claim is taken
     * as the ledger stands, and the stripe of a new one is noted.
     */
    method Put(id: ShardID, bytes: nat, owner: Owner, stripe: Option<StripeRow>, now: int, steps: nat)
      returns (r: Option<Result<bool, LedgerError>>)
      requires Valid() && bytes == db.size(id)
      modifies this`blobs, db
      ensures Valid() && Unbacked() <= old(Unbacked())
      ensures PutDone(db.opts, old(Now()), id, bytes, owner, stripe, now, steps, r, Now())
      ensures r == Some(Ok(true)) || r == Some(Ok(false)) ==> (id, owner) in db.owners && id !in Unbacked()
    {
      hide Booked, ClaimTaken;
      if steps == 0 { return None; }
      blobs := blobs + {id};
      if steps == 1 { return None; }
      ghost var before := db.Now();
      var added := db.AddOwner(id, owner, bytes, now);
      ghost var claimed := db.Now();
      ClaimBacked(db.opts, db.size, before, id, owner, now, added, claimed, blobs);
      r := Some(added);
      if added == Ok(true) && stripe.Some? && steps > 2 {
        var _ := db.PutStripe(id, stripe.value);
      }
      ClaimMade(db.opts, db.size, before, id, owner, now, added, claimed, db.Now());
    }

    /** Drop the caller's claim; the last one to leave takes the bytes and then the record. */
    method Delete(id: ShardID, owner: Owner, steps: nat) returns (r: Option<Result<nat, LedgerError>>)
      requires Valid()
      modifies this`blobs, db
      ensures Valid() && Unbacked() <= old(Unbacked())
      ensures DeleteDone(old(Now()), id, owner, steps, r, Now())
    {
      if steps == 0 { return None; }
      ghost var before := db.Now();
      assert (id, owner) in before.owners ==> id in before.shards;
      hide Booked, Debited, DebitedAll;
      var left := db.RemoveOwner(id, owner);
      ghost var after := db.Now();
      r := Some(left);
      if left == Ok(0) && steps > 1 {
        NoClaimants(after, id);
        blobs := blobs - {id};
        if steps > 2 {
          var _ := db.DropRecord(id);
          NoClaimsDropped(after, id);
        }
      }
      LosingClaims(before, old(blobs), db.Now(), blobs);
      ClaimLeft(before, id, owner, left, after);
    }

    /**
     * One collector cycle: snapshot, drop what was collectible twice running, realign with the disk. What is lost was
     * due and is logged; a cycle that completes frees exactly what was due.
     */
    method RunGC(listed: bool, now: int, later: ShardID -> int, expireLeases: bool, steps: nat) returns (completed: bool)
      requires Valid()
      modifies this, db
      ensures Valid() && Unbacked() <= old(Unbacked())
      ensures CollectDone(old(Now()), listed, now, later, expireLeases, steps, completed, Now())
      ensures LoggedLoss(old(Now()), Now(), drops, |old(snapshots)|)
      ensures completed ==> Unbacked() == {}
    {
      hide Booked, UnbackedIn, Live, CollectDone, LoggedLoss, TwiceSeen;
      if !listed {
        NotListed(Now(), now, later, expireLeases, steps, drops, |snapshots|);
        return false;
      }
      var ids := db.Collectible(now, expireLeases);
      MoreSeen(drops, snapshots, ids);
      snapshots := snapshots + [ids];
      completed := Cycle(ids, now, later, expireLeases, steps);
    }

    /** The rest of a cycle, from its snapshot on. */
    method Cycle(ids: set<ShardID>, ghost now: int, later: ShardID -> int, expireLeases: bool, steps: nat) returns (completed: bool)
      requires db.Valid() && snapshots != [] && snapshots[|snapshots| - 1] == ids && TwiceSeen(drops, snapshots)
      requires forall id :: id in ids <==> id in db.shards && !Live(db.Now(), id, now, expireLeases)
      requires prev == {} || (|snapshots| > 1 && prev <= snapshots[|snapshots| - 2])
      modifies this`blobs, this`drops, this`prev, db
      ensures Valid() && Unbacked() <= old(Unbacked()) && (completed ==> Unbacked() == {})
      ensures CollectDone(old(Now()), true, now, later, expireLeases, steps, completed, Now())
      ensures LoggedLoss(old(Now()), Now(), drops, |snapshots| - 1)
    {
      hide Booked, OnlyFreed, UnbackedIn, Swept, Logged, Live, LostOnlyLapsed, Due, CollectDone, LoggedLoss, Kept, TwiceSeen, Spent;
      ghost var s0 := Now();
      var left := Sweep(ids, now, later, expireLeases, steps);
      ghost var swept := db.Now();
      completed := Realign(later, expireLeases, s0.blobs, s0.prev, s0.t, left);
      prev := if completed then ids else {};
      CycleDone(s0, ids, now, later, expireLeases, steps, left, swept, drops, |snapshots| - 1, completed, Now());
    }

    /** Collect the records of `ids` that the last cycle saw too, deleting each dropped shard's bytes. */
    method Sweep(ids: set<ShardID>, ghost now: int, later: ShardID -> int, expireLeases: bool, steps: nat) returns (left: nat)
      requires db.Valid() && snapshots != [] && snapshots[|snapshots| - 1] == ids
      requires forall id :: id in ids <==> id in db.shards && !Live(db.Now(), id, now, expireLeases)
      requires prev == {} || (|snapshots| > 1 && prev <= snapshots[|snapshots| - 2])
      requires TwiceSeen(drops, snapshots)
      modifies this`blobs, this`drops, db
      ensures db.Valid() && Unbacked() <= old(Unbacked())
      ensures TwiceSeen(drops, snapshots)
      ensures LostOnlyLapsed(old(db.Now()), old(blobs), prev, later, expireLeases, db.Now())
      ensures OnlyFreed(old(blobs), blobs, prev, db.Now())
      ensures Swept(old(db.Now()), old(blobs), Due(old(db.Now()), prev, now, later, expireLeases), db.Now(), blobs, left > 0)
      ensures Logged(old(db.Now()), db.Now(), drops, |snapshots| - 1) && Spent(prev, steps, left)
    {
      hide Booked, LostOnlyLapsed, OnlyFreed, Due, Live, Dropped, UnbackedIn, Swept, Logged, TwiceSeen, CollectStep;
      left := steps;
      var rest := ids;
      ghost var seen: set<ShardID> := {};
      ghost var start, due, cycle := db.Now(), Due(db.Now(), prev, now, later, expireLeases), |snapshots| - 1;
      NothingLost(start, blobs, prev, later, expireLeases);
      SweepStart(start, blobs, ids, prev, now, later, expireLeases, drops, cycle, left > 0);
      while rest != {} && left > 0
        invariant rest <= ids && db.Valid() && Unbacked() <= old(Unbacked())
        invariant TwiceSeen(drops, snapshots) && Logged(start, db.Now(), drops, cycle)
        invariant LostOnlyLapsed(start, old(blobs), prev, later, expireLeases, db.Now())
        invariant OnlyFreed(old(blobs), blobs, prev, db.Now())
        invariant Swept(start, old(blobs), due - rest, db.Now(), blobs, left > 0)
        invariant seen <= prev && seen !! rest && steps <= left + 2 * |seen|
        decreases rest
      {
        var id :| id in rest;
        ghost var before, held, log, todo := db.Now(), blobs, drops, rest;
        rest := rest - {id};
        if id in prev {
          var dropped := db.CollectRecord(id, later(id), expireLeases);
          ghost var after := db.Now();
          left := left - 1;
          seen := seen + {id};
          if dropped {
            drops := drops + [Drop(id, |snapshots| - 1)];
            if left > 0 {
              blobs := blobs - {id};
              left := left - 1;
            }
          }
          Collected(start, old(blobs), prev, later, expireLeases, before, held, id, dropped, after, blobs);
          SweepStep(start, old(blobs), ids, prev, now, later, expireLeases, todo, before, held, id, dropped, after, blobs, left > 0);
          LogStep(start, log, snapshots, before, id, later(id), expireLeases, dropped, after, drops);
        } else {
          SweepSkip(start, ids, prev, now, later, expireLeases, todo, id);
        }
      }
      SweepEnd(start, old(blobs), due, rest, db.Now(), blobs, left > 0);
      NoMore(prev, seen);
    }

    /**
     * Drop the records whose bytes are gone, one at a time, and rebuild the accounts; `steps` of these happen.
     * Once all have, nothing claimed is without bytes.
     */
    method Realign(ghost later: ShardID -> int, ghost expireLeases: bool,
                   ghost was: set<ShardID>, ghost seen: set<ShardID>, ghost start: Tables, steps: nat) returns (completed: bool)
      requires db.Valid()
      requires LostOnlyLapsed(start, was, seen, later, expireLeases, db.Now()) && OnlyFreed(was, blobs, seen, db.Now())
      modifies db
      ensures db.Valid() && Unbacked() <= old(Unbacked()) && (completed ==> Unbacked() == {})
      ensures LostOnlyLapsed(start, was, seen, later, expireLeases, db.Now())
      ensures Kept(old(db.Now()), blobs, db.Now(), steps, completed)
    {
      ghost var before := db.Now();
      assert forall c :: c in before.owners ==> c.0 in before.shards;
      hide Booked, Regrouped, Traced, LostOnlyLapsed, OnlyFreed, UnbackedIn, Restricted, ReconcileStep, Kept;
      var done, orphans, dropped, gone, states, events := db.Reconcile(blobs, steps, 0);
      RestrictedBacked(before, gone, blobs, db.Now());
      if done { Realigned(before, blobs, db.Now()); }
      StillOnlyLapsed(start, was, seen, later, expireLeases, before, gone, blobs, db.Now());
      KeysLeft(before, gone, blobs, db.Now(), steps, done);
      completed := done;
    }

    /** The release that ends a rebalance move: bytes first, then the record. */
    method Release(id: ShardID, steps: nat)
      requires Valid()
      modifies this`blobs, db
      ensures Valid() && Unbacked() <= old(Unbacked()) + {id}
      ensures steps > 1 ==> Unbacked() <= old(Unbacked())
      ensures prev == old(prev) && blobs == if steps == 0 then old(blobs) else old(blobs) - {id}
      ensures if steps < 2 then db.Now() == old(db.Now())
              else db.shards == old(db.shards) - {id} && db.stripes == old(db.stripes) - {id} && db.owners == old(db.owners) - (set c | c in old(db.owners) && c.0 == id)
    {
      hide Booked, DebitedAll;
      if steps > 0 {
        blobs := blobs - {id};
        ghost var before := db.Now();
        if steps > 1 {
          var _ := db.DropRecord(id);
          Released(db.size, before, old(blobs), id);
        }
      }
    }

    /** A whole life of the node: requests served one at a time, each cut by a crash after any number of steps. */
    method Run(script: seq<Call>) returns (replies: seq<Reply>, ghost states: seq<State>)
      requires Valid() && forall c :: c in db.owners ==> c.0 in blobs
      requires forall i :: 0 <= i < |script| && script[i].request.Put? ==> script[i].request.bytes == db.size(script[i].request.id)
      modifies this, db
      ensures Valid() && forall c :: c in db.owners ==> c.0 in blobs
      ensures |replies| == |script| && |states| == |script| + 1 && states[0] == old(Now()) && states[|script|] == Now()
      ensures forall i :: 0 <= i < |script| ==> Answered(db.opts, script[i], states[i], replies[i], states[i + 1])
      ensures forall i, c :: 0 <= i <= |script| && c in states[i].t.owners ==> c.0 in states[i].blobs
    {
      hide Booked, UnbackedIn, PutDone, DeleteDone, CollectDone;
      UnbackedMeans(db.Now(), blobs);
      replies, states := [], [Now()];
      for i := 0 to |script|
        invariant Valid() && Unbacked() == {} && |replies| == i && |states| == i + 1 && states[0] == old(Now()) && states[i] == Now()
        invariant forall k :: 0 <= k < i ==> Answered(db.opts, script[k], states[k], replies[k], states[k + 1])
        invariant forall k :: 0 <= k <= i ==> UnbackedIn(states[k].t, states[k].blobs) == {}
      {
        var reply := Serve(script[i]);
        replies, states := replies + [reply], states + [Now()];
      }
      forall i | 0 <= i <= |script| ensures forall c :: c in states[i].t.owners ==> c.0 in states[i].blobs {
        UnbackedMeans(states[i].t, states[i].blobs);
      }
    }

    /** One call, and the restart that may follow it. */
    method Serve(call: Call) returns (reply: Reply)
      requires Valid() && (call.request.Put? ==> call.request.bytes == db.size(call.request.id))
      modifies this, db
      ensures Valid() && Unbacked() <= old(Unbacked()) && Answered(db.opts, call, old(Now()), reply, Now())
    {
      hide Booked, UnbackedIn, PutDone, DeleteDone, CollectDone;
      match call.request {
        case Put(id, bytes, owner, stripe, now) =>
          var r := Put(id, bytes, owner, stripe, now, call.steps);
          reply := PutReply(r);
        case Delete(id, owner) =>
          var r := Delete(id, owner, call.steps);
          reply := DeleteReply(r);
        case Collect(listed, now, later, expireLeases) =>
          var r := RunGC(listed, now, later, expireLeases, call.steps);
          reply := CollectReply(r);
      }
      ghost var done := Now();
      assert Done(db.opts, call, old(Now()), reply, done);
      if call.restart { Restart(); }
    }
  }

  // ---------------------------------------------------------------- what a request does

  /** A PUT stores, then claims, then notes the stripe of a new claim that has a grant. */
  ghost predicate PutDone(opts: Options, s: State, id: ShardID, bytes: nat, owner: Owner, stripe: Option<StripeRow>, now: int, steps: nat,
                          r: Option<Result<bool, LedgerError>>, s': State) {
    && s'.prev == s.prev && s'.blobs == (if steps == 0 then s.blobs else s.blobs + {id})
    && (r == None <==> steps < 2) && (r == None ==> s'.t == s.t)
    && (r.Some? ==> ClaimTaken(opts, s.t, id, owner, bytes, now, r.value, s'.t))
    && s'.t.stripes == if steps > 2 && r == Some(Ok(true)) && stripe.Some? && stripe.value.grant != [] then s.t.stripes[id := stripe.value]
                       else s.t.stripes
  }

  /** A DELETE drops the caller's claim and charge, says how many claims are left, and with the last one frees bytes and record. */
  ghost predicate DeleteDone(s: State, id: ShardID, owner: Owner, steps: nat, r: Option<Result<nat, LedgerError>>, s': State) {
    var held, others := (id, owner) in s.t.owners, |set c | c in s.t.owners && c.0 == id && c.1 != owner|;
    var last := held && others == 0;
    && s'.prev == s.prev && (r == None <==> steps == 0) && (r == None ==> s' == s)
    && (r.Some? ==>
          && r.value == (if held then Ok(others) else Err(Unauthorized))
          && s'.t.owners == s.t.owners - {(id, owner)}
          && s'.t.accounts == (if held && id in s.t.shards then Debited(s.t.accounts, owner, s.t.shards[id].size) else s.t.accounts)
          && s'.blobs == (if last && steps > 1 then s.blobs - {id} else s.blobs)
          && s'.t.shards == (if last && steps > 2 then s.t.shards - {id} else s.t.shards)
          && s'.t.stripes == (if last && steps > 2 then s.t.stripes - {id} else s.t.stripes))
  }

  /**
   * A cycle loses only what was due. One that completes frees all of it, keeps a record exactly where there are bytes
   * and remembers what it saw; with enough steps it completes. One that is cut forgets.
   */
  ghost predicate CollectDone(s: State, listed: bool, now: int, later: ShardID -> int, expireLeases: bool, steps: nat, completed: bool, s': State) {
    var due := Due(s.t, s.prev, now, later, expireLeases);
    && LostOnlyLapsed(s.t, s.blobs, s.prev, later, expireLeases, s'.t)
    && s.blobs - due <= s'.blobs <= s.blobs && s'.t.shards.Keys <= s.t.shards.Keys
    && (forall id :: id in s.t.shards && id in s.blobs && id !in s'.t.shards ==> id in due)
    && (!listed ==> !completed && s' == s)
    && (listed && steps > 2 * |s.prev| + |s.t.shards.Keys| ==> completed)
    && (listed && !completed ==> s'.prev == {})
    && (completed ==>
          && s'.blobs == s.blobs - due && s'.t.shards.Keys == s.t.shards.Keys * s'.blobs
          && forall id :: id in s'.prev <==> id in s.t.shards && Lapsed(s.t, id, now, expireLeases))
  }

  /** A lost record that had its bytes is logged under this cycle. */
  ghost predicate LoggedLoss(s: State, s': State, drops: seq<Drop>, cycle: nat) {
    forall id :: id in s.t.shards && id in s.blobs && id !in s'.t.shards ==> Drop(id, cycle) in drops
  }

  /** Records with bytes stay; all the others go if there are steps enough. */
  ghost predicate Kept(t: Tables, disk: set<ShardID>, t': Tables, steps: nat, completed: bool) {
    && t.shards.Keys * disk <= t'.shards.Keys <= t.shards.Keys && (completed ==> t'.shards.Keys == t.shards.Keys * disk)
    && (completed <==> |t.shards.Keys - disk| < steps)
  }

  /** No more than two steps were spent on each of these. */
  ghost predicate Spent(ids: set<ShardID>, steps: nat, left: nat) {
    steps <= left + 2 * |ids|
  }

  lemma MoreSeen(drops: seq<Drop>, snapshots: seq<set<ShardID>>, ids: set<ShardID>)
    requires TwiceSeen(drops, snapshots)
    ensures TwiceSeen(drops, snapshots + [ids])
  {
  }

  lemma NotListed(s: State, now: int, later: ShardID -> int, expireLeases: bool, steps: nat, drops: seq<Drop>, cycle: nat)
    ensures CollectDone(s, false, now, later, expireLeases, steps, false, s) && LoggedLoss(s, s, drops, cycle)
  {
    hide Live;
    NothingLost(s.t, s.blobs, s.prev, later, expireLeases);
  }

  lemma CycleDone(s: State, ids: set<ShardID>, now: int, later: ShardID -> int, expireLeases: bool, steps: nat, left: nat, swept: Tables,
                  drops: seq<Drop>, cycle: nat, completed: bool, s': State)
    requires forall id :: id in ids <==> id in s.t.shards && !Live(s.t, id, now, expireLeases)
    requires LostOnlyLapsed(s.t, s.blobs, s.prev, later, expireLeases, s'.t) && s'.prev == (if completed then ids else {})
    requires Swept(s.t, s.blobs, Due(s.t, s.prev, now, later, expireLeases), swept, s'.blobs, left > 0) && OnlyFreed(s.blobs, s'.blobs, s.prev, swept)
    requires Logged(s.t, swept, drops, cycle) && Spent(s.prev, steps, left) && Kept(swept, s'.blobs, s'.t, left, completed)
    ensures CollectDone(s, true, now, later, expireLeases, steps, completed, s') && LoggedLoss(s, s', drops, cycle)
  {
    hide Live, Lapsed, LostOnlyLapsed, Due, Kept, Swept, OnlyFreed, Logged;
    SeenLapsed(s.t, ids, now, expireLeases);
    var due := Due(s.t, s.prev, now, later, expireLeases);
    CycleLost(s.t, s.blobs, s.prev, due, swept, s'.blobs, drops, cycle, s'.t, left, completed);
    EnoughSteps(s.t.shards.Keys, swept, s'.blobs, s'.t, left, completed);
  }

  lemma SeenLapsed(t: Tables, ids: set<ShardID>, now: int, expireLeases: bool)
    requires forall id :: id in ids <==> id in t.shards && !Live(t, id, now, expireLeases)
    ensures forall id :: id in ids <==> id in t.shards && Lapsed(t, id, now, expireLeases)
  {
    hide Live, Lapsed;
    forall id ensures id in ids <==> id in t.shards && Lapsed(t, id, now, expireLeases) { LapsedIffNotLive(t, id, now, expireLeases); }
  }

  lemma EnoughSteps(all: set<ShardID>, t: Tables, disk: set<ShardID>, t': Tables, left: nat, completed: bool)
    requires Kept(t, disk, t', left, completed) && t.shards.Keys <= all
    ensures left > |all| ==> completed
  {
    NoMore(all, t.shards.Keys - disk);
  }

  ghost predicate Done(opts: Options, call: Call, s: State, reply: Reply, s': State) {
    match call.request
    case Put(id, bytes, owner, stripe, now) => reply.PutReply? && PutDone(opts, s, id, bytes, owner, stripe, now, call.steps, reply.put, s')
    case Delete(id, owner) => reply.DeleteReply? && DeleteDone(s, id, owner, call.steps, reply.deleted, s')
    case Collect(listed, now, later, expireLeases) =>
      reply.CollectReply? && CollectDone(s, listed, now, later, expireLeases, call.steps, reply.completed, s')
  }

  /** The call was carried out; a restart forgets what the last cycle saw. */
  ghost predicate Answered(opts: Options, call: Call, s: State, reply: Reply, s': State) {
    exists done :: Done(opts, call, s, reply, done) && s' == if call.restart then done.(prev := {}) else done
  }

  lemma ClaimLeft(t: Tables, id: ShardID, owner: Owner, r: Result<nat, LedgerError>, t': Tables)
    requires RemoveOwnerStep(t, id, owner, r, t') && ((id, owner) in t.owners ==> id in t.shards)
    ensures r == if (id, owner) in t.owners then Ok(|set c | c in t.owners && c.0 == id && c.1 != owner|) else Err(Unauthorized)
  {
    hide Debited;
    if (id, owner) in t.owners { assert Claimants(t', id) == set c | c in t.owners && c.0 == id && c.1 != owner; }
  }

  lemma NoClaimsDropped(t: Tables, id: ShardID)
    requires id in t.shards && forall c :: c in t.owners ==> c.0 != id
    ensures Dropped(t, id) == Tables(t.shards - {id}, t.owners, t.accounts, t.stripes - {id})
  {
    assert Claimants(t, id) == {};
    assert OwnersOf(Claimants(t, id)) == {};
    assert t.owners - Claimants(t, id) == t.owners;
  }

  lemma NoMore(all: set<ShardID>, some: set<ShardID>)
    requires some <= all
    ensures |some| <= |all|
  {
    assert all == some + (all - some);
  }

  // ---------------------------------------------------------------- what is lost

  /**
   * A claim whose shard had bytes is gone only if leases expire, its shard was collectible in the cycle
   * before, and its own lease had run out when the record was dropped.
   */
  ghost predicate LostOnlyLapsed(t: Tables, blobs: set<ShardID>, prev: set<ShardID>, later: ShardID -> int,
                                 expireLeases: bool, t': Tables) {
    && (forall c :: c in t'.owners ==> c in t.owners && t'.owners[c] == t.owners[c])
    && (forall c :: c in t.owners && c !in t'.owners && c.0 in blobs ==>
          expireLeases && c.0 in prev && t.owners[c].expiry != 0 && t.owners[c].expiry < Unix(later(c.0)))
  }

  /** Bytes are freed only of shards seen the cycle before, and only once their record and every claim is gone. */
  ghost predicate OnlyFreed(was: set<ShardID>, blobs: set<ShardID>, prev: set<ShardID>, t: Tables) {
    blobs <= was && forall id :: id in was && id !in blobs ==> id in prev && id !in t.shards && forall c :: c in t.owners ==> c.0 != id
  }

  /** Every claim on the shard had run out by then; without leases, or with a claim that never runs out, only no claim will do. */
  ghost predicate Lapsed(t: Tables, id: ShardID, at: int, expireLeases: bool) {
    forall c :: c in t.owners && c.0 == id ==> expireLeases && t.owners[c].expiry != 0 && t.owners[c].expiry < Unix(at)
  }

  lemma LapsedIffNotLive(t: Tables, id: ShardID, at: int, expireLeases: bool)
    ensures Lapsed(t, id, at, expireLeases) <==> !Live(t, id, at, expireLeases)
  {
  }

  /** Recorded, collectible in the cycle before and in this one, and still without a live owner when its turn comes. */
  ghost function Due(t: Tables, prev: set<ShardID>, now: int, later: ShardID -> int, expireLeases: bool): set<ShardID> {
    set id | id in prev && id in t.shards && Lapsed(t, id, now, expireLeases) && Lapsed(t, id, later(id), expireLeases)
  }

  /** What still has its record has all its claims, as they were. */
  ghost predicate ClaimsKept(t: Tables, t': Tables) {
    && (forall c :: c in t.owners && c.0 in t'.shards ==> c in t'.owners)
    && (forall c :: c in t'.owners ==> c in t.owners && t'.owners[c] == t.owners[c])
  }

  lemma DueWithin(t: Tables, ids: set<ShardID>, prev: set<ShardID>, now: int, later: ShardID -> int, expireLeases: bool)
    requires forall id :: id in ids <==> id in t.shards && !Live(t, id, now, expireLeases)
    ensures var due := Due(t, prev, now, later, expireLeases);
            due <= ids * prev && forall id :: id in ids && id in prev ==> (id in due <==> !Live(t, id, later(id), expireLeases))
  {
    forall id, at ensures Lapsed(t, id, at, expireLeases) <==> !Live(t, id, at, expireLeases) { LapsedIffNotLive(t, id, at, expireLeases); }
    hide Live, Lapsed;
  }

  /** What a sweep that is done with some of the due records has dropped and freed; all of them, if it is not cut. */
  ghost predicate Swept(start: Tables, was: set<ShardID>, done: set<ShardID>, t: Tables, blobs: set<ShardID>, whole: bool) {
    && was - done <= blobs <= was
    && start.shards.Keys - done <= t.shards.Keys <= start.shards.Keys && ClaimsKept(start, t)
    && (whole ==> blobs == was - done && t.shards.Keys == start.shards.Keys - done)
  }

  ghost predicate Logged(start: Tables, t: Tables, drops: seq<Drop>, cycle: nat) {
    forall id :: id in start.shards && id !in t.shards ==> Drop(id, cycle) in drops
  }

  lemma SweepStart(t: Tables, blobs: set<ShardID>, ids: set<ShardID>, prev: set<ShardID>, now: int, later: ShardID -> int,
                   expireLeases: bool, drops: seq<Drop>, cycle: nat, whole: bool)
    requires forall id :: id in ids <==> id in t.shards && !Live(t, id, now, expireLeases)
    ensures Swept(t, blobs, Due(t, prev, now, later, expireLeases) - ids, t, blobs, whole) && Logged(t, t, drops, cycle)
  {
    DueWithin(t, ids, prev, now, later, expireLeases);
    hide Live, Due;
    assert Due(t, prev, now, later, expireLeases) - ids == {};
  }

  /** A record falls in its turn exactly when it is due, and its bytes with it unless the power goes between. */
  lemma SweepStep(start: Tables, was: set<ShardID>, ids: set<ShardID>, prev: set<ShardID>, now: int, later: ShardID -> int,
                  expireLeases: bool, rest: set<ShardID>, before: Tables, held: set<ShardID>, id: ShardID, dropped: bool,
                  after: Tables, blobs: set<ShardID>, whole: bool)
    requires forall id :: id in ids <==> id in start.shards && !Live(start, id, now, expireLeases)
    requires id in rest && rest <= ids && id in prev
    requires Swept(start, was, Due(start, prev, now, later, expireLeases) - rest, before, held, true)
    requires CollectStep(before, id, later(id), expireLeases, dropped, after)
    requires blobs == held || (dropped && blobs == held - {id})
    requires whole && dropped ==> blobs == held - {id}
    ensures Swept(start, was, Due(start, prev, now, later, expireLeases) - (rest - {id}), after, blobs, whole)
  {
    var due := Due(start, prev, now, later, expireLeases);
    DueWithin(start, ids, prev, now, later, expireLeases);
    FallsWhenDue(start, before, id, later(id), expireLeases, dropped, after);
    hide Live, Lapsed, Due, CollectStep, ClaimsKept;
    assert due - (rest - {id}) == if dropped then due - rest + {id} else due - rest;
    OneFreed(start.shards.Keys, was, due - rest, id, dropped, blobs, whole);
  }

  lemma OneFreed(keys: set<ShardID>, was: set<ShardID>, done: set<ShardID>, id: ShardID, dropped: bool, blobs: set<ShardID>, whole: bool)
    requires blobs == was - done || (dropped && blobs == was - done - {id})
    requires whole && dropped ==> blobs == was - done - {id}
    ensures var done' := if dropped then done + {id} else done;
            && was - done' <= blobs <= was && (whole ==> blobs == was - done')
            && keys - done' == if dropped then keys - done - {id} else keys - done
  {
  }

  lemma FallsWhenDue(start: Tables, before: Tables, id: ShardID, at: int, expireLeases: bool, dropped: bool, after: Tables)
    requires ClaimsKept(start, before) && id in before.shards && CollectStep(before, id, at, expireLeases, dropped, after)
    ensures dropped <==> !Live(start, id, at, expireLeases)
    ensures ClaimsKept(start, after) && after.shards.Keys == if dropped then before.shards.Keys - {id} else before.shards.Keys
  {
    hide DebitedAll;
    assert Live(before, id, at, expireLeases) <==> Live(start, id, at, expireLeases);
    hide Live;
  }

  lemma SweepSkip(start: Tables, ids: set<ShardID>, prev: set<ShardID>, now: int, later: ShardID -> int, expireLeases: bool,
                  rest: set<ShardID>, id: ShardID)
    requires id !in prev
    ensures var due := Due(start, prev, now, later, expireLeases); due - (rest - {id}) == due - rest
  {
    hide Live;
  }

  lemma SweepEnd(start: Tables, was: set<ShardID>, due: set<ShardID>, rest: set<ShardID>, t: Tables, blobs: set<ShardID>, whole: bool)
    requires Swept(start, was, due - rest, t, blobs, whole) && (whole ==> rest == {})
    ensures Swept(start, was, due, t, blobs, whole)
  {
    if whole { assert due - rest == due; }
  }

  lemma LogStep(start: Tables, log: seq<Drop>, snapshots: seq<set<ShardID>>, before: Tables, id: ShardID, at: int, expireLeases: bool,
                dropped: bool, after: Tables, drops: seq<Drop>)
    requires |snapshots| > 1 && id in snapshots[|snapshots| - 1] && id in snapshots[|snapshots| - 2]
    requires TwiceSeen(log, snapshots) && Logged(start, before, log, |snapshots| - 1)
    requires CollectStep(before, id, at, expireLeases, dropped, after)
    requires drops == if dropped then log + [Drop(id, |snapshots| - 1)] else log
    ensures TwiceSeen(drops, snapshots) && Logged(start, after, drops, |snapshots| - 1)
  {
    hide Live, DebitedAll;
  }

  /** What is gone at the end and had its bytes went in the sweep. */
  lemma CycleLost(start: Tables, was: set<ShardID>, prev: set<ShardID>, due: set<ShardID>, swept: Tables, blobs: set<ShardID>,
                  drops: seq<Drop>, cycle: nat, t: Tables, left: nat, completed: bool)
    requires OnlyFreed(was, blobs, prev, swept) && Kept(swept, blobs, t, left, completed)
    requires Swept(start, was, due, swept, blobs, left > 0) && Logged(start, swept, drops, cycle)
    ensures was - due <= blobs <= was && t.shards.Keys <= start.shards.Keys && swept.shards.Keys <= start.shards.Keys
    ensures forall id :: id in start.shards && id in was && id !in t.shards ==> id in due && Drop(id, cycle) in drops
    ensures completed ==> blobs == was - due && t.shards.Keys == start.shards.Keys * blobs
  {
    hide ClaimsKept;
  }

  lemma NothingLost(t: Tables, blobs: set<ShardID>, prev: set<ShardID>, later: ShardID -> int, expireLeases: bool)
    ensures LostOnlyLapsed(t, blobs, prev, later, expireLeases, t) && OnlyFreed(blobs, blobs, prev, t)
  {
  }

  lemma NoClaimants(t: Tables, id: ShardID)
    requires |Claimants(t, id)| == 0
    ensures forall c :: c in t.owners ==> c.0 != id
  {
    assert Claimants(t, id) == {};
    forall c | c in t.owners ensures c.0 != id {
      assert c.0 == id ==> c in Claimants(t, id);
    }
  }

  lemma Collected(start: Tables, was: set<ShardID>, prev: set<ShardID>, later: ShardID -> int, expireLeases: bool,
                  before: Tables, held: set<ShardID>, id: ShardID, dropped: bool, after: Tables, blobs: set<ShardID>)
    requires LostOnlyLapsed(start, was, prev, later, expireLeases, before) && OnlyFreed(was, held, prev, before)
    requires CollectStep(before, id, later(id), expireLeases, dropped, after) && id in prev
    requires blobs == held || (dropped && blobs == held - {id})
    ensures LostOnlyLapsed(start, was, prev, later, expireLeases, after) && OnlyFreed(was, blobs, prev, after)
    ensures UnbackedIn(after, blobs) <= UnbackedIn(before, held)
  {
    hide DebitedAll;
    if dropped {
      assert forall c :: c in after.owners ==> c in before.owners && c.0 != id;
      forall c | c in before.owners && c.0 == id
        ensures expireLeases && before.owners[c].expiry != 0 && before.owners[c].expiry < Unix(later(id))
      {
        assert !Live(before, id, later(id), expireLeases);
      }
      hide Live;
      LosingClaims(before, held, after, blobs);
    }
  }

  /** Records dropped for want of bytes leave no claim unbacked that was not. */
  lemma RestrictedBacked(t: Tables, gone: set<ShardID>, blobs: set<ShardID>, t': Tables)
    requires Restricted(t, gone, t')
    ensures UnbackedIn(t', blobs) <= UnbackedIn(t, blobs)
  {
  }

  lemma Realigned(t: Tables, disk: set<ShardID>, t': Tables)
    requires ReconcileStep(t, disk, t') && forall c :: c in t.owners ==> c.0 in t.shards
    ensures UnbackedIn(t', disk) == {}
  {
    hide Regrouped;
    UnbackedMeans(t', disk);
  }

  lemma KeysLeft(t: Tables, gone: set<ShardID>, disk: set<ShardID>, t': Tables, steps: nat, done: bool)
    requires Restricted(t, gone, t') && gone <= t.shards.Keys - disk && (done ==> ReconcileStep(t, disk, t'))
    requires done <==> |t.shards.Keys - disk| < steps
    ensures Kept(t, disk, t', steps, done)
  {
    hide Regrouped;
  }

  lemma StillOnlyLapsed(start: Tables, was: set<ShardID>, prev: set<ShardID>, later: ShardID -> int, expireLeases: bool,
                        t: Tables, gone: set<ShardID>, blobs: set<ShardID>, t': Tables)
    requires LostOnlyLapsed(start, was, prev, later, expireLeases, t) && OnlyFreed(was, blobs, prev, t)
    requires Restricted(t, gone, t') && gone !! blobs
    ensures LostOnlyLapsed(start, was, prev, later, expireLeases, t')
  {
    forall c | c in start.owners && c !in t'.owners && c.0 in was
      ensures c !in t.owners
    {
      assert c in t.owners ==> c.0 !in blobs;
    }
  }

  lemma Released(size: SizeOf, t: Tables, blobs: set<ShardID>, id: ShardID)
    requires Booked(t, size)
    ensures UnbackedIn(Dropped(t, id), blobs - {id}) <= UnbackedIn(t, blobs)
    ensures var t' := Dropped(t, id);
            t'.shards == t.shards - {id} && t'.stripes == t.stripes - {id} && t'.owners == t.owners - (set c | c in t.owners && c.0 == id)
  {
    hide Tallied, DebitedAll;
    var t' := Dropped(t, id);
    assert forall c :: c in t'.owners ==> c in t.owners && c.0 != id;
    LosingClaims(t, blobs, t', blobs - {id});
  }

  /**
   * How a claim is taken. One that stands is redated. A new one is refused when its owner has bytes and these would
   * pass its cap, and is otherwise entered, with its shard and its owner's charge.
   */
  ghost predicate ClaimTaken(opts: Options, t: Tables, id: ShardID, owner: Owner, bytes: nat, now: int,
                             r: Result<bool, LedgerError>, t': Tables) {
    var row := OwnerRow(Unix(now), if opts.leaseTTL > 0 then Unix(now + opts.leaseTTL) else 0);
    var known := owner in t.accounts;
    && (r == Ok(false) <==> (id, owner) in t.owners)
    && (r == Err(QuotaExceeded) <==>
          && (id, owner) !in t.owners && opts.quota > 0 && known && t.accounts[owner].bytes > 0
          && t.accounts[owner].bytes + bytes > EffectiveQuota(opts, t.accounts[owner].firstSeen, now))
    && (r.Err? ==> r.error == QuotaExceeded)
    && t'.owners == (if r.Ok? then t.owners[(id, owner) := row] else t.owners)
    && t'.shards == (if r == Ok(true) && id !in t.shards then t.shards[id := ShardRow(bytes, Unix(now))] else t.shards)
    && t'.accounts ==
       if r != Ok(true) then t.accounts
       else t.accounts[owner := if known then Account(t.accounts[owner].bytes + bytes, t.accounts[owner].count + 1, t.accounts[owner].firstSeen)
                                else Account(bytes, 1, Unix(now))]
  }

  lemma ClaimMade(opts: Options, size: SizeOf, t: Tables, id: ShardID, owner: Owner, now: int,
                  r: Result<bool, LedgerError>, t1: Tables, t': Tables)
    requires AddOwnerStep(opts, size, t, id, owner, now, r, t1) && t' == t1.(stripes := t'.stripes)
    ensures ClaimTaken(opts, t, id, owner, size(id), now, r, t')
  {
    hide EffectiveQuota;
  }

  lemma ClaimBacked(opts: Options, size: SizeOf, t: Tables, id: ShardID, owner: Owner, now: int,
                    r: Result<bool, LedgerError>, t': Tables, blobs: set<ShardID>)
    requires AddOwnerStep(opts, size, t, id, owner, now, r, t') && id in blobs
    ensures UnbackedIn(t', blobs) <= UnbackedIn(t, blobs)
    ensures r.Ok? ==> (id, owner) in t'.owners
  {
  }
}

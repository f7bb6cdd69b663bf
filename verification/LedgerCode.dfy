/** The ledger's transactions, keeping running account totals as they go. */
module LedgerCode {
  import opened Core
  import opened Ledger
  import opened LedgerRuns

  /** What is asked of the ledger. A reconcile is several transactions, of which only the first `steps` may happen. */
  datatype Request =
    | AskAdd(id: ShardID, owner: Owner, bytes: nat)
    | AskRenew(id: ShardID, owner: Owner)
    | AskRemove(id: ShardID, owner: Owner)
    | AskDrop(id: ShardID)
    | AskCollect(id: ShardID, expireLeases: bool)
    | AskStripe(id: ShardID, row: StripeRow)
    | AskReconcile(disk: set<ShardID>, steps: nat)

  datatype Call = Call(request: Request, now: int)

  class LedgerDB {
    const opts: Options
    ghost const size: SizeOf
    var shards: map<ShardID, ShardRow>
    var owners: map<Claim, OwnerRow>
    var accounts: map<Owner, Account>
    var stripes: map<ShardID, StripeRow>

    ghost function Now(): Tables reads this { Tables(shards, owners, accounts, stripes) }

    ghost predicate Valid() reads this { Booked(Now(), size) }

    constructor (opts: Options, ghost size: SizeOf)
      ensures Valid() && this.opts == opts && this.size == size && Now() == EMPTY
    {
      this.opts, this.size := opts, size;
      shards, owners, accounts, stripes := map[], map[], map[], map[];
      new;
      EmptyInv(opts, size, 0);
    }

    method AddOwner(id: ShardID, owner: Owner, bytes: nat, now: int) returns (r: Result<bool, LedgerError>)
      requires bytes == size(id)
      modifies this
      ensures Step(opts, size, old(Now()), Event.AddOwner(id, owner, r), now, Now())
      ensures old(Valid()) ==> Valid()
    {
      hide Booked, EffectiveQuota;
      var row := OwnerRow(Unix(now), Expiry(opts, now));
      if (id, owner) in owners {
        owners := owners[(id, owner) := row];
        r := Ok(false);
      } else {
        var over := false;
        if opts.quota > 0 {
          var used, firstSeen := 0, Unix(now);
          if owner in accounts {
            used, firstSeen := accounts[owner].bytes, accounts[owner].firstSeen;
          }
          over := used > 0 && used + bytes > EffectiveQuota(opts, firstSeen, now);
        }
        if over {
          r := Err(QuotaExceeded);
        } else {
          if id !in shards {
            shards := shards[id := ShardRow(bytes, Unix(now))];
          }
          owners := owners[(id, owner) := row];
          accounts := Credited(accounts, owner, bytes, now);
          r := Ok(true);
        }
      }
      if old(Valid()) { StepBooked(opts, size, old(Now()), Event.AddOwner(id, owner, r), now, Now()); }
    }

    method RenewLease(id: ShardID, owner: Owner, now: int) returns (r: Result<(), LedgerError>)
      modifies this
      ensures Step(opts, size, old(Now()), Event.RenewLease(id, owner, r), now, Now())
      ensures old(Valid()) ==> Valid()
    {
      hide Booked;
      if opts.leaseTTL == 0 {
        r := Ok(());
      } else if (id, owner) !in owners {
        r := Err(Unauthorized);
      } else {
        owners := owners[(id, owner) := OwnerRow(Unix(now), Unix(now + opts.leaseTTL))];
        r := Ok(());
      }
      if old(Valid()) { StepBooked(opts, size, old(Now()), Event.RenewLease(id, owner, r), now, Now()); }
    }

    method RemoveOwner(id: ShardID, owner: Owner) returns (r: Result<nat, LedgerError>)
      modifies this
      ensures RemoveOwnerStep(old(Now()), id, owner, r, Now())
      ensures old(Valid()) ==> Valid()
    {
      hide Booked;
      if (id, owner) !in owners || id !in shards {
        r := Err(Unauthorized);
      } else {
        owners := owners - {(id, owner)};
        accounts := Debited(accounts, owner, shards[id].size);
        r := Ok(|Claimants(Tables(shards, owners, accounts, stripes), id)|);
      }
      if old(Valid()) { StepBooked(opts, size, old(Now()), Event.RemoveOwner(id, owner, r), 0, Now()); }
    }

    /** Remove every trace of a shard's record, crediting each owner back first. */
    method DropRecord(id: ShardID) returns (dropped: bool)
      modifies this
      ensures dropped == (id in old(shards)) && Now() == Dropped(old(Now()), id)
      ensures old(Valid()) ==> Valid()
    {
      hide Booked, DebitedAll;
      dropped := id in shards;
      if dropped {
        var all := Claimants(Tables(shards, owners, accounts, stripes), id);
        ChargeDownAll(id, all);
        owners := owners - all;
        shards := shards - {id};
        stripes := stripes - {id};
      }
      if old(Valid()) { DropBooked(old(Now()), size, id); }
    }

    /** Debit the owner of every listed claim on id, one by one. */
    method ChargeDownAll(id: ShardID, all: set<Claim>)
      requires id in shards && forall c :: c in all ==> c.0 == id
      modifies this`accounts
      ensures accounts == DebitedAll(old(accounts), OwnersOf(all), shards[id].size)
    {
      var n := shards[id].size;
      var rest := all;
      assert OwnersOf(all - rest) == {};
      assert accounts == DebitedAll(accounts, {}, n);
      hide DebitedAll;
      while rest != {}
        invariant rest <= all && accounts == DebitedAll(old(accounts), OwnersOf(all - rest), n)
        decreases rest
      {
        var c :| c in rest;
        OneMoreOwner(all, rest, c);
        DebitOneMore(old(accounts), OwnersOf(all - rest), n, c.1);
        accounts := Debited(accounts, c.1, n);
        rest := rest - {c};
      }
      assert all - rest == all;
    }

    method CollectRecord(id: ShardID, now: int, expireLeases: bool) returns (dropped: bool)
      modifies this
      ensures CollectStep(old(Now()), id, now, expireLeases, dropped, Now())
      ensures old(Valid()) ==> Valid()
    {
      hide Booked, Live, Dropped;
      if Live(Tables(shards, owners, accounts, stripes), id, now, expireLeases) {
        return false;
      }
      dropped := DropRecord(id);
      NothingToDrop(old(Now()), id);
    }

    /** Shards with no live owner. */
    method Collectible(now: int, expireLeases: bool) returns (ids: set<ShardID>)
      ensures forall id :: id in ids <==> id in shards && !Live(Now(), id, now, expireLeases)
    {
      var t := Tables(shards, owners, accounts, stripes);
      ids := set id | id in shards && !Live(t, id, now, expireLeases);
    }

    method PutStripe(id: ShardID, row: StripeRow) returns (r: Result<(), LedgerError>)
      modifies this
      ensures PutStripeStep(old(Now()), id, row, r, Now())
      ensures old(Valid()) ==> Valid()
    {
      hide Booked;
      if row.grant == [] || id !in shards {
        r := Err(BadStripe);
      } else {
        stripes := stripes[id := row];
        r := Ok(());
      }
      if old(Valid()) { StepBooked(opts, size, old(Now()), Event.PutStripe(id, row, r), 0, Now()); }
    }

    /** Rebuild the accounts from the claims, whatever they were before. */
    method RecomputeAccounts()
      modifies this`accounts
      ensures RecomputeStep(old(Now()), Now())
      ensures Linked(old(Now()), size) ==> Valid()
      ensures old(Valid()) ==>
                accounts.Keys == old(accounts).Keys &&
                forall o :: o in accounts ==> accounts[o].bytes == old(accounts)[o].bytes && accounts[o].count == old(accounts)[o].count
    {
      hide Booked, Linked, Grouped, GroupedSoFar, Regrouped;
      ghost var t := Now();
      ghost var order: seq<Claim> := [];
      accounts := map[];
      var rest := set c | c in owners && c.0 in shards;
      ghost var done: set<Claim> := {};
      GroupStart(t);
      while rest != {}
        invariant rest <= Joined(t) && done == Joined(t) - rest
        invariant GroupedSoFar(t, order, done, accounts)
        decreases rest
      {
        var c :| c in rest;
        var row := owners[c];
        GroupNext(t, order, done, accounts, c);
        accounts := Grouped(accounts, c.1, shards[c.0].size, row.putAt);
        order, done, rest := order + [c], done + {c}, rest - {c};
      }
      assert done == Joined(t);
      GroupEnd(t, order, Now());
      if Linked(t, size) { RecomputedBooks(t, size, Now()); }
      if old(Valid()) { RecomputedSame(t, size, Now()); }
    }

    /**
     * Align the ledger with the blobs on disk: one transaction for each record whose blob is gone, and one for
     * the accounts. Only the first `steps` of them happen; `gone` are the records dropped.
     */
    method Reconcile(disk: set<ShardID>, steps: nat, ghost now: int)
      returns (completed: bool, orphans: nat, dropped: nat, ghost gone: set<ShardID>, ghost states: seq<Tables>, ghost events: seq<Event>)
      modifies this
      ensures Traced(opts, size, old(Now()), states, events, now, Now())
      ensures gone <= old(shards).Keys - disk && Restricted(old(Now()), gone, Now())
      ensures |gone| == dropped && (completed <==> |old(shards).Keys - disk| < steps) && (!completed ==> dropped == steps)
      ensures completed ==> ReconcileStep(old(Now()), disk, Now())
      ensures Realigns(disk, steps, |old(shards).Keys - disk|, events)
      ensures orphans == |disk - old(shards).Keys| && (completed ==> dropped == |old(shards).Keys - disk|)
      ensures old(Valid()) ==> Valid()
    {
      hide Booked, Regrouped, Restricted, Traced;
      var ids := shards.Keys;
      dropped, gone, states, events := DropMissing(disk, steps, now);
      Missing(ids - disk, gone);
      orphans := |disk - ids|;
      completed := |ids - disk| < steps;
      if completed {
        ghost var before := Now();
        RecomputeAccounts();
        TraceOne(opts, size, old(Now()), states, events, now, before, Event.Recompute, Now());
        states, events := states + [Now()], events + [Event.Recompute];
        AccountsAside(old(Now()), gone, before, Now());
      }
      if old(Valid()) { TraceBooked(opts, size, old(Now()), states, events, now, Now(), |events|); }
    }

    /** Drop the records whose blob is not on disk, as many as happen. */
    method DropMissing(disk: set<ShardID>, steps: nat, ghost now: int)
      returns (dropped: nat, ghost gone: set<ShardID>, ghost states: seq<Tables>, ghost events: seq<Event>)
      modifies this
      ensures Traced(opts, size, old(Now()), states, events, now, Now())
      ensures gone <= old(shards).Keys - disk && Restricted(old(Now()), gone, Now())
      ensures |old(shards).Keys - disk| <= steps ==> gone == old(shards).Keys - disk
      ensures dropped == |gone| == |events| && (dropped == steps || gone == old(shards).Keys - disk) && dropped <= steps
      ensures OnlyDrops(disk, events)
    {
      hide Booked, Dropped, Dropping;
      var rest := shards.Keys - disk;
      ghost var all := rest;
      gone, states, events, dropped := {}, [Now()], [], 0;
      NoneDropped(opts, size, Now(), disk, now);
      while rest != {} && dropped < steps
        invariant rest <= all && gone == all - rest && dropped == |gone| == |events| <= steps
        invariant Dropping(opts, size, old(Now()), disk, gone, states, events, now, Now())
        decreases rest
      {
        var id :| id in rest;
        rest := rest - {id};
        ghost var before := Now();
        var _ := DropRecord(id);
        DropNext(opts, size, old(Now()), disk, gone, states, events, now, before, id, Now());
        states, events := states + [Now()], events + [Event.DropRecord(id)];
        gone := gone + {id};
        dropped := dropped + 1;
      }
      if |all| <= steps && rest != {} { Fewer(all, gone); }
      assert rest == {} ==> gone == all;
      WereDropped(opts, size, old(Now()), disk, gone, states, events, now, Now());
    }

    /** One request, and the transactions it made. */
    method Serve(call: Call) returns (ghost states: seq<Tables>, ghost events: seq<Event>)
      requires call.request.AskAdd? ==> call.request.bytes == size(call.request.id)
      modifies this
      ensures Traced(opts, size, old(Now()), states, events, call.now, Now())
      ensures Carries(call.request, old(Now()), events)
    {
      hide Traced, Booked, AddOwnerStep, RenewLeaseStep, RemoveOwnerStep, CollectStep, PutStripeStep, Dropped, Restricted, ReconcileStep;
      states, events := [], [];
      ghost var ev := Event.Recompute;
      match call.request {
        case AskAdd(id, owner, bytes) =>
          var r := AddOwner(id, owner, bytes, call.now);
          ev := Event.AddOwner(id, owner, r);
        case AskRenew(id, owner) =>
          var r := RenewLease(id, owner, call.now);
          ev := Event.RenewLease(id, owner, r);
        case AskRemove(id, owner) =>
          var r := RemoveOwner(id, owner);
          ev := Event.RemoveOwner(id, owner, r);
        case AskDrop(id) =>
          var _ := DropRecord(id);
          ev := Event.DropRecord(id);
        case AskCollect(id, expireLeases) =>
          var r := CollectRecord(id, call.now, expireLeases);
          ev := Event.CollectRecord(id, expireLeases, r);
        case AskStripe(id, row) =>
          var r := PutStripe(id, row);
          ev := Event.PutStripe(id, row, r);
        case AskReconcile(disk, steps) =>
          var completed, orphans, dropped, gone, ss, es := Reconcile(disk, steps, call.now);
          states, events := ss, es;
      }
      if !call.request.AskReconcile? {
        TraceSingle(opts, size, old(Now()), ev, call.now, Now());
        states, events := [old(Now()), Now()], [ev];
      }
    }

    /**
     * A whole life of the ledger, from empty tables: any requests at times that never go back, reconciles cut
     * anywhere. What happened is a run that carries out the requests one after another, and at its end the books
     * tally, dates are in order and quotas are kept.
     */
    method Run(script: seq<Call>) returns (ghost states: seq<Tables>, ghost events: seq<Event>, ghost times: seq<int>)
      requires Now() == EMPTY
      requires forall i :: 0 <= i < |script| && script[i].request.AskAdd? ==> script[i].request.bytes == size(script[i].request.id)
      requires forall i, j :: 0 <= i <= j < |script| ==> script[i].now <= script[j].now
      modifies this
      ensures IsRun(opts, size, states, events, times) && states[0] == EMPTY && states[|events|] == Now()
      ensures Follows(script, states, events, times)
      ensures Inv(opts, size, Now(), if script == [] then 0 else script[|script| - 1].now)
    {
      hide Step, Inv, Traced, Carries;
      states, events, times := [Now()], [], [];
      assert Follows(script[..0], states, events, times);
      hide Follows;
      EmptyInv(opts, size, 0);
      for i := 0 to |script|
        invariant IsRun(opts, size, states, events, times) && states[0] == EMPTY && states[|events|] == Now()
        invariant i > 0 ==> forall k :: 0 <= k < |times| ==> times[k] <= script[i - 1].now
        invariant i == 0 ==> times == []
        invariant Follows(script[..i], states, events, times)
        invariant Inv(opts, size, Now(), if i == 0 then 0 else script[i - 1].now)
      {
        ghost var before := Now();
        var ss, es := Serve(script[i]);
        TraceKeeps(opts, size, before, ss, es, script[i].now, Now(), if i == 0 then 0 else script[i - 1].now, i == 0);
        RunOn(opts, size, states, events, times, ss, es, script[i].now, Now());
        TraceEnds(opts, size, before, ss, es, script[i].now, Now());
        FollowsOn(script[..i], script[i], states, events, times, ss, es);
        assert script[..i + 1] == script[..i] + [script[i]];
        states, events, times := states + ss[1..], events + es, times + seq(|es|, _ => script[i].now);
      }
      assert script[..|script|] == script;
    }
  }

  // ---------------------------------------------------------------- requests and what they come to

  /** A reconcile's transactions: drops of records without a blob, and at the end of them the rebuilt accounts. */
  ghost predicate Realigns(disk: set<ShardID>, steps: nat, missing: nat, events: seq<Event>) {
    && |events| == (if missing < steps then missing + 1 else steps)
    && (forall i :: 0 <= i < |events| && i < missing ==> events[i].DropRecord? && events[i].id !in disk)
    && (missing < steps ==> events[missing] == Event.Recompute)
  }

  ghost predicate OnlyDrops(disk: set<ShardID>, events: seq<Event>) {
    forall i :: 0 <= i < |events| ==> events[i].DropRecord? && events[i].id !in disk
  }

  /** So far the records in `gone` were dropped, one transaction each. */
  ghost predicate Dropping(opts: Options, size: SizeOf, t: Tables, disk: set<ShardID>, gone: set<ShardID>,
                           states: seq<Tables>, events: seq<Event>, now: int, t': Tables) {
    Restricted(t, gone, t') && Traced(opts, size, t, states, events, now, t') && OnlyDrops(disk, events)
  }

  lemma NoneDropped(opts: Options, size: SizeOf, t: Tables, disk: set<ShardID>, now: int)
    ensures Dropping(opts, size, t, disk, {}, [t], [], now, t)
  {
    AllThere(t);
  }

  lemma DropNext(opts: Options, size: SizeOf, t: Tables, disk: set<ShardID>, gone: set<ShardID>, states: seq<Tables>, events: seq<Event>,
                 now: int, before: Tables, id: ShardID, after: Tables)
    requires Dropping(opts, size, t, disk, gone, states, events, now, before)
    requires id in t.shards && id !in gone && id !in disk && after == Dropped(before, id)
    ensures Dropping(opts, size, t, disk, gone + {id}, states + [after], events + [Event.DropRecord(id)], now, after)
  {
    hide Restricted, Traced, Dropped;
    StillListed(t, gone, before, id);
    DropRestricts(t, gone, id, before);
    TraceOne(opts, size, t, states, events, now, before, Event.DropRecord(id), after);
  }

  lemma WereDropped(opts: Options, size: SizeOf, t: Tables, disk: set<ShardID>, gone: set<ShardID>,
                    states: seq<Tables>, events: seq<Event>, now: int, t': Tables)
    requires Dropping(opts, size, t, disk, gone, states, events, now, t')
    ensures Restricted(t, gone, t') && Traced(opts, size, t, states, events, now, t') && OnlyDrops(disk, events)
  {
  }

  /** The transactions a request comes to, on these tables. */
  ghost predicate Carries(request: Request, t: Tables, events: seq<Event>) {
    match request
    case AskAdd(id, owner, _) => |events| == 1 && events[0].AddOwner? && events[0].id == id && events[0].owner == owner
    case AskRenew(id, owner) => |events| == 1 && events[0].RenewLease? && events[0].id == id && events[0].owner == owner
    case AskRemove(id, owner) => |events| == 1 && events[0].RemoveOwner? && events[0].id == id && events[0].owner == owner
    case AskDrop(id) => events == [Event.DropRecord(id)]
    case AskCollect(id, expire) => |events| == 1 && events[0].CollectRecord? && events[0].id == id && events[0].expireLeases == expire
    case AskStripe(id, row) => |events| == 1 && events[0].PutStripe? && events[0].id == id && events[0].row == row
    case AskReconcile(disk, steps) => Realigns(disk, steps, |t.shards.Keys - disk|, events)
  }

  /** The run is what the calls come to, one after another, each at its time. */
  ghost predicate Follows(script: seq<Call>, states: seq<Tables>, events: seq<Event>, times: seq<int>)
    decreases |script|, 1
  {
    if script == [] then |states| == 1 && events == [] && times == []
    else exists cut: nat :: FollowsFrom(script, states, events, times, cut)
  }

  /** The last call's transactions begin at the cut. */
  ghost predicate FollowsFrom(script: seq<Call>, states: seq<Tables>, events: seq<Event>, times: seq<int>, cut: nat)
    requires script != []
    decreases |script|, 0
  {
    var call := script[|script| - 1];
    && cut <= |events| == |times| && |states| == |events| + 1
    && Follows(script[..|script| - 1], states[..cut + 1], events[..cut], times[..cut])
    && Carries(call.request, states[cut], events[cut..])
    && forall k :: cut <= k < |times| ==> times[k] == call.now
  }

  lemma FollowsOn(script: seq<Call>, call: Call, states: seq<Tables>, events: seq<Event>, times: seq<int>, ss: seq<Tables>, es: seq<Event>)
    requires Follows(script, states, events, times) && |states| == |events| + 1 && |times| == |events|
    requires |ss| == |es| + 1 && ss[0] == states[|events|] && Carries(call.request, ss[0], es)
    ensures Follows(script + [call], states + ss[1..], events + es, times + seq(|es|, _ => call.now))
  {
    hide Carries;
    var script', states', events', times' := script + [call], states + ss[1..], events + es, times + seq(|es|, _ => call.now);
    var cut := |events|;
    assert script'[..|script|] == script && states'[..cut + 1] == states && events'[..cut] == events && times'[..cut] == times;
    assert events'[cut..] == es;
    assert FollowsFrom(script', states', events', times', cut);
  }

  lemma Missing(all: set<ShardID>, gone: set<ShardID>)
    requires gone <= all
    ensures |gone| <= |all| && (|gone| == |all| ==> gone == all)
  {
    if gone != all { Fewer(all, gone); }
  }

  // ---------------------------------------------------------------- traces

  /** Transactions made at one moment, from one state to another. */
  ghost predicate Traced(opts: Options, size: SizeOf, t: Tables, states: seq<Tables>, events: seq<Event>, now: int, t': Tables) {
    && |states| == |events| + 1 && states[0] == t && states[|events|] == t'
    && forall i :: 0 <= i < |events| ==> Step(opts, size, states[i], events[i], now, states[i + 1])
  }

  lemma TraceEnds(opts: Options, size: SizeOf, t: Tables, states: seq<Tables>, events: seq<Event>, now: int, t': Tables)
    requires Traced(opts, size, t, states, events, now, t')
    ensures |states| == |events| + 1 && states[0] == t
  {
    hide Step;
  }

  lemma TraceSingle(opts: Options, size: SizeOf, t: Tables, ev: Event, now: int, t': Tables)
    requires Step(opts, size, t, ev, now, t')
    ensures Traced(opts, size, t, [t, t'], [ev], now, t')
  {
    hide Step;
  }

  lemma TraceOne(opts: Options, size: SizeOf, t: Tables, states: seq<Tables>, events: seq<Event>, now: int,
                 mid: Tables, ev: Event, t': Tables)
    requires Traced(opts, size, t, states, events, now, mid) && Step(opts, size, mid, ev, now, t')
    ensures Traced(opts, size, t, states + [t'], events + [ev], now, t')
  {
    hide Step;
  }

  lemma {:induction false} TraceBooked(opts: Options, size: SizeOf, t: Tables, states: seq<Tables>, events: seq<Event>, now: int, t': Tables, k: nat)
    requires Traced(opts, size, t, states, events, now, t') && Booked(t, size) && k <= |events|
    ensures Booked(states[k], size) && (k == |events| ==> states[k] == t')
  {
    hide Step, Booked;
    if k > 0 {
      TraceBooked(opts, size, t, states, events, now, t', k - 1);
      StepBooked(opts, size, states[k - 1], events[k - 1], now, states[k]);
    }
  }

  lemma TraceKeeps(opts: Options, size: SizeOf, t: Tables, states: seq<Tables>, events: seq<Event>, now: int, t': Tables, clock: int, first: bool)
    requires Traced(opts, size, t, states, events, now, t') && Inv(opts, size, t, clock)
    requires if first then t == EMPTY else clock <= now
    ensures Inv(opts, size, t', now) && |states| == |events| + 1
  {
    hide Step, Inv;
    if first { EmptyInv(opts, size, now); } else { ClockMoves(opts, size, t, clock, now); }
    TraceInv(opts, size, t, states, events, now, t', |events|);
  }

  lemma {:induction false} TraceInv(opts: Options, size: SizeOf, t: Tables, states: seq<Tables>, events: seq<Event>, now: int, t': Tables, k: nat)
    requires Traced(opts, size, t, states, events, now, t') && Inv(opts, size, t, now) && k <= |events|
    ensures Inv(opts, size, states[k], now)
  {
    hide Step, Inv;
    if k > 0 {
      TraceInv(opts, size, t, states, events, now, t', k - 1);
      StepKeeps(opts, size, states[k - 1], events[k - 1], now, now, states[k]);
    }
  }

  /** A run goes on with transactions made at one later moment. */
  lemma RunOn(opts: Options, size: SizeOf, states: seq<Tables>, events: seq<Event>, times: seq<int>,
              ss: seq<Tables>, es: seq<Event>, now: int, t': Tables)
    requires IsRun(opts, size, states, events, times) && Traced(opts, size, states[|events|], ss, es, now, t')
    requires forall k :: 0 <= k < |times| ==> times[k] <= now
    ensures IsRun(opts, size, states + ss[1..], events + es, times + seq(|es|, _ => now))
    ensures (states + ss[1..])[|events + es|] == t'
  {
    hide Step;
    var states', events', times' := states + ss[1..], events + es, times + seq(|es|, _ => now);
    forall i | 0 <= i < |events'| ensures Step(opts, size, states'[i], events'[i], times'[i], states'[i + 1]) {
      if i >= |events| {
        var j := i - |events|;
        assert events'[i] == es[j] && states'[i] == ss[j] && states'[i + 1] == ss[j + 1];
      }
    }
  }

  // ---------------------------------------------------------------- small steps

  lemma OneMoreOwner(all: set<Claim>, rest: set<Claim>, c: Claim)
    requires rest <= all && c in rest && forall d :: d in all ==> d.0 == c.0
    ensures OwnersOf(all - (rest - {c})) == OwnersOf(all - rest) + {c.1} && c.1 !in OwnersOf(all - rest)
  {
    assert all - (rest - {c}) == all - rest + {c};
    forall d | d in all - rest ensures d.1 != c.1 {
      assert d != c && d == (d.0, d.1) && c == (c.0, c.1);
    }
  }

  lemma NothingToDrop(t: Tables, id: ShardID)
    ensures id !in t.shards ==> Dropped(t, id) == t
  {
  }

  /** Rows grouped so far, in the order they came. */
  ghost predicate GroupedSoFar(t: Tables, order: seq<Claim>, done: set<Claim>, accounts: map<Owner, Account>) {
    && done <= Joined(t) && InSomeOrder(order, done)
    && accounts == GroupedTo(t, order, |order|)
  }

  lemma GroupStart(t: Tables)
    ensures GroupedSoFar(t, [], {}, map[])
  {
  }

  lemma GroupNext(t: Tables, order: seq<Claim>, done: set<Claim>, accounts: map<Owner, Account>, c: Claim)
    requires GroupedSoFar(t, order, done, accounts) && c in Joined(t) && c !in done
    ensures GroupedSoFar(t, order + [c], done + {c}, Grouped(accounts, c.1, t.shards[c.0].size, t.owners[c].putAt))
  {
    hide Grouped;
    SamePrefix(t, order, order + [c], |order|);
  }

  lemma {:induction false} SamePrefix(t: Tables, a: seq<Claim>, b: seq<Claim>, k: nat)
    requires k <= |a| && a <= b
    requires (forall i :: 0 <= i < |a| ==> a[i] in Joined(t)) && (forall i :: 0 <= i < |b| ==> b[i] in Joined(t))
    ensures GroupedTo(t, a, k) == GroupedTo(t, b, k)
  {
    if k > 0 { SamePrefix(t, a, b, k - 1); }
  }

  lemma GroupEnd(t: Tables, order: seq<Claim>, t': Tables)
    requires t' == t.(accounts := t'.accounts) && GroupedSoFar(t, order, Joined(t), t'.accounts)
    ensures Regrouped(t')
  {
    SameGrouping(t, t', order, |order|);
  }

  lemma {:induction false} SameGrouping(t: Tables, t': Tables, order: seq<Claim>, k: nat)
    requires t' == t.(accounts := t'.accounts) && k <= |order| && forall i :: 0 <= i < |order| ==> order[i] in Joined(t)
    ensures Joined(t') == Joined(t) && GroupedTo(t', order, k) == GroupedTo(t, order, k)
  {
    if k > 0 { SameGrouping(t, t', order, k - 1); }
  }

  lemma RecomputedBooks(t: Tables, size: SizeOf, t': Tables)
    requires Linked(t, size) && RecomputeStep(t, t')
    ensures Booked(t', size)
  {
    RegroupedTallies(t', size);
  }

  lemma RecomputedSame(t: Tables, size: SizeOf, t': Tables)
    requires Booked(t, size) && RecomputeStep(t, t')
    ensures Booked(t', size) && t'.accounts.Keys == t.accounts.Keys
    ensures forall o :: o in t'.accounts ==> t'.accounts[o].bytes == t.accounts[o].bytes && t'.accounts[o].count == t.accounts[o].count
  {
    RegroupedTallies(t', size);
    TalliedUnique(t'.accounts, t.accounts, t.owners.Keys, size);
  }

  lemma AllThere(t: Tables)
    ensures Restricted(t, {}, t)
  {
  }

  lemma StillListed(t: Tables, gone: set<ShardID>, t': Tables, id: ShardID)
    requires Restricted(t, gone, t') && id in t.shards && id !in gone
    ensures id in t'.shards
  {
  }

  lemma DropRestricts(t: Tables, gone: set<ShardID>, id: ShardID, before: Tables)
    requires Restricted(t, gone, before) && id in before.shards
    ensures Restricted(t, gone + {id}, Dropped(before, id))
  {
    hide DebitedAll;
  }

  lemma AccountsAside(t: Tables, gone: set<ShardID>, before: Tables, after: Tables)
    requires Restricted(t, gone, before) && after == before.(accounts := after.accounts)
    ensures Restricted(t, gone, after)
  {
  }

  lemma Fewer(all: set<ShardID>, gone: set<ShardID>)
    requires gone < all
    ensures |gone| < |all|
  {
    assert all == gone + (all - gone) && |all| == |gone| + |all - gone|;
    assert all - gone != {};
  }
}

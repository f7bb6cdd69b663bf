/** What each ledger transaction does to the tables, and what every run of them keeps. */
module LedgerRuns {
  import opened Core
  import opened Ledger

  // ---------------------------------------------------------------- transactions as relations

  function Expiry(opts: Options, now: int): int {
    if opts.leaseTTL > 0 then Unix(now + opts.leaseTTL) else 0
  }

  /** Would this claim push an owner with something stored over its cap? */
  predicate OverQuota(opts: Options, t: Tables, owner: Owner, size: int, now: int) {
    && opts.quota > 0
    && owner in t.accounts && t.accounts[owner].bytes > 0
    && t.accounts[owner].bytes + size > EffectiveQuota(opts, t.accounts[owner].firstSeen, now)
  }

  ghost predicate AddOwnerStep(opts: Options, size: SizeOf, t: Tables, id: ShardID, owner: Owner, now: int,
                               r: Result<bool, LedgerError>, t': Tables) {
    var row := OwnerRow(Unix(now), Expiry(opts, now));
    if (id, owner) in t.owners then
      r == Ok(false) && t' == t.(owners := t.owners[(id, owner) := row])
    else if OverQuota(opts, t, owner, size(id), now) then
      r == Err(QuotaExceeded) && t' == t
    else
      && r == Ok(true)
      && t' == Tables(if id in t.shards then t.shards else t.shards[id := ShardRow(size(id), Unix(now))],
                      t.owners[(id, owner) := row],
                      Credited(t.accounts, owner, size(id), now),
                      t.stripes)
  }

  ghost predicate RenewLeaseStep(opts: Options, t: Tables, id: ShardID, owner: Owner, now: int,
                                 r: Result<(), LedgerError>, t': Tables) {
    if opts.leaseTTL == 0 then r == Ok(()) && t' == t
    else if (id, owner) !in t.owners then r == Err(Unauthorized) && t' == t
    else r == Ok(()) && t' == t.(owners := t.owners[(id, owner) := OwnerRow(Unix(now), Unix(now + opts.leaseTTL))])
  }

  function Claimants(t: Tables, id: ShardID): set<Claim> {
    set c | c in t.owners && c.0 == id
  }

  ghost predicate RemoveOwnerStep(t: Tables, id: ShardID, owner: Owner, r: Result<nat, LedgerError>, t': Tables) {
    if (id, owner) !in t.owners || id !in t.shards then r == Err(Unauthorized) && t' == t
    else
      && t' == t.(owners := t.owners - {(id, owner)}, accounts := Debited(t.accounts, owner, t.shards[id].size))
      && r == Ok(|Claimants(t', id)|)
  }

  function OwnersOf(claims: set<Claim>): set<Owner> {
    set c | c in claims :: c.1
  }

  /** The record of id is gone: its shard row, every claim on it, its stripe row, and each claim's charge. */
  function Dropped(t: Tables, id: ShardID): Tables {
    if id !in t.shards then t
    else
      var all := Claimants(t, id);
      Tables(t.shards - {id}, t.owners - all, DebitedAll(t.accounts, OwnersOf(all), t.shards[id].size), t.stripes - {id})
  }

  /** Some owner of id holds it still: its lease never expires, has not expired, or leases do not count. */
  predicate Live(t: Tables, id: ShardID, now: int, expireLeases: bool) {
    exists c | c in t.owners.Keys ::
      c.0 == id && (expireLeases ==> t.owners[c].expiry == 0 || t.owners[c].expiry >= Unix(now))
  }

  ghost predicate CollectStep(t: Tables, id: ShardID, now: int, expireLeases: bool, dropped: bool, t': Tables) {
    && dropped == (id in t.shards && !Live(t, id, now, expireLeases))
    && t' == if dropped then Dropped(t, id) else t
  }

  ghost predicate PutStripeStep(t: Tables, id: ShardID, row: StripeRow, r: Result<(), LedgerError>, t': Tables) {
    if row.grant == [] || id !in t.shards then r == Err(BadStripe) && t' == t
    else r == Ok(()) && t' == t.(stripes := t.stripes[id := row])
  }

  /** One more row of a group: add its size, count it, keep the earliest date. */
  function Grouped(accounts: map<Owner, Account>, o: Owner, n: int, putAt: int): map<Owner, Account> {
    accounts[o := if o in accounts
                  then Account(accounts[o].bytes + n, accounts[o].count + 1,
                               if putAt < accounts[o].firstSeen then putAt else accounts[o].firstSeen)
                  else Account(n, 1, putAt)]
  }

  /** Claims joined with a shard row. */
  function Joined(t: Tables): set<Claim> {
    set c | c in t.owners && c.0 in t.shards
  }

  /** The rows of a set of claims, each once, in some order. */
  ghost predicate InSomeOrder(order: seq<Claim>, claims: set<Claim>) {
    && (forall i :: 0 <= i < |order| ==> order[i] in claims)
    && (forall i, j :: 0 <= i < j < |order| ==> order[i] != order[j])
    && (forall c :: c in claims ==> c in order)
  }

  /** The accounts grouped from the first k rows. */
  ghost function GroupedTo(t: Tables, order: seq<Claim>, k: nat): map<Owner, Account>
    requires k <= |order| && forall i :: 0 <= i < |order| ==> order[i] in Joined(t)
  {
    if k == 0 then map[]
    else
      var c := order[k - 1];
      Grouped(GroupedTo(t, order, k - 1), c.1, t.shards[c.0].size, t.owners[c].putAt)
  }

  /** The accounts are those grouped from the claims. */
  ghost predicate Regrouped(t: Tables) {
    exists order :: InSomeOrder(order, Joined(t)) && t.accounts == GroupedTo(t, order, |order|)
  }

  ghost predicate RecomputeStep(t: Tables, t': Tables) {
    t' == t.(accounts := t'.accounts) && Regrouped(t')
  }

  /** Rebuilt accounts date an owner from its earliest claim. */
  lemma RegroupedEarliest(t: Tables, o: Owner)
    requires Regrouped(t) && o in t.accounts
    ensures forall c :: c in t.owners && c.0 in t.shards && c.1 == o ==> t.accounts[o].firstSeen <= t.owners[c].putAt
    ensures exists c :: c in t.owners && c.0 in t.shards && c.1 == o && t.accounts[o].firstSeen == t.owners[c].putAt
  {
    var order :| InSomeOrder(order, Joined(t)) && t.accounts == GroupedTo(t, order, |order|);
    EarliestTo(t, order, |order|, o);
    forall c | c in t.owners && c.0 in t.shards && c.1 == o ensures t.accounts[o].firstSeen <= t.owners[c].putAt {
      assert c in Joined(t);
      var i :| 0 <= i < |order| && order[i] == c;
    }
    hide GroupedTo;
  }

  lemma {:induction false} EarliestTo(t: Tables, order: seq<Claim>, k: nat, o: Owner)
    requires k <= |order| && forall i :: 0 <= i < |order| ==> order[i] in Joined(t)
    ensures var a := GroupedTo(t, order, k);
            && (forall i :: 0 <= i < k && order[i].1 == o ==> o in a && a[o].firstSeen <= t.owners[order[i]].putAt)
            && (o in a ==> exists i :: 0 <= i < k && order[i].1 == o && a[o].firstSeen == t.owners[order[i]].putAt)
  {
    if k > 0 { EarliestTo(t, order, k - 1, o); }
  }

  // ---------------------------------------------------------------- runs

  datatype Event =
    | AddOwner(id: ShardID, owner: Owner, added: Result<bool, LedgerError>)
    | RenewLease(id: ShardID, owner: Owner, renewed: Result<(), LedgerError>)
    | RemoveOwner(id: ShardID, owner: Owner, left: Result<nat, LedgerError>)
    | DropRecord(id: ShardID)
    | CollectRecord(id: ShardID, expireLeases: bool, dropped: bool)
    | PutStripe(id: ShardID, row: StripeRow, put: Result<(), LedgerError>)
    | Recompute

  /** One transaction, accounts updated as the code updates them. */
  ghost predicate Step(opts: Options, size: SizeOf, t: Tables, ev: Event, now: int, t': Tables) {
    match ev
    case AddOwner(id, owner, r) => AddOwnerStep(opts, size, t, id, owner, now, r, t')
    case RenewLease(id, owner, r) => RenewLeaseStep(opts, t, id, owner, now, r, t')
    case RemoveOwner(id, owner, r) => RemoveOwnerStep(t, id, owner, r, t')
    case DropRecord(id) => t' == Dropped(t, id)
    case CollectRecord(id, expire, dropped) => CollectStep(t, id, now, expire, dropped, t')
    case PutStripe(id, row, r) => PutStripeStep(t, id, row, r, t')
    case Recompute => RecomputeStep(t, t')
  }

  /** Claims are made no earlier than their owner was first seen, and nothing is dated after the clock. */
  ghost predicate Dated(t: Tables, clock: int) {
    forall c :: c in t.owners ==>
      c.1 in t.accounts && t.accounts[c.1].firstSeen <= t.owners[c].putAt <= Unix(clock)
  }

  /** With a quota and shards no larger than the wire allows, no owner is charged above both. */
  ghost predicate WithinQuota(opts: Options, size: SizeOf, t: Tables) {
    opts.quota > 0 && (forall id :: size(id) <= MAX_SHARD_SIZE) ==>
      forall o :: o in t.accounts ==> t.accounts[o].bytes <= Max(opts.quota, MAX_SHARD_SIZE)
  }

  ghost predicate Inv(opts: Options, size: SizeOf, t: Tables, clock: int) {
    Booked(t, size) && Dated(t, clock) && WithinQuota(opts, size, t)
  }

  /** A run: each event takes one state to the next, at times that never go back. */
  ghost predicate IsRun(opts: Options, size: SizeOf, states: seq<Tables>, events: seq<Event>, times: seq<int>) {
    && |states| == |events| + 1 && |times| == |events|
    && (forall i :: 0 <= i < |events| ==> Step(opts, size, states[i], events[i], times[i], states[i + 1]))
    && (forall i, j :: 0 <= i <= j < |times| ==> times[i] <= times[j])
  }

  const EMPTY := Tables(map[], map[], map[], map[])

  // ---------------------------------------------------------------- grouping keeps books

  ghost function Prefix(order: seq<Claim>, k: nat): set<Claim>
    requires k <= |order|
  {
    set i | 0 <= i < k :: order[i]
  }

  /** An account's first-seen second is that of its owner's earliest claim. */
  ghost predicate EarliestOf(accounts: map<Owner, Account>, owners: map<Claim, OwnerRow>, done: set<Claim>)
    requires done <= owners.Keys
  {
    forall o :: o in accounts ==>
      && (forall c :: c in done && c.1 == o ==> accounts[o].firstSeen <= owners[c].putAt)
      && (exists c :: c in done && c.1 == o && owners[c].putAt == accounts[o].firstSeen)
  }

  lemma NothingTallied(size: SizeOf)
    ensures Tallied(map[], {}, size)
  {
    forall o ensures TalliedAt(map[], {}, size, o) {
      assert Owned({}, o) == {};
    }
  }

  lemma SameTotals(a: map<Owner, Account>, b: map<Owner, Account>, claims: set<Claim>, size: SizeOf)
    requires Tallied(a, claims, size) && a.Keys == b.Keys
    requires forall o :: o in a ==> a[o].bytes == b[o].bytes && a[o].count == b[o].count
    ensures Tallied(b, claims, size)
  {
    forall o ensures TalliedAt(b, claims, size, o) {
      assert TalliedAt(a, claims, size, o);
    }
  }

  lemma GroupOne(accounts: map<Owner, Account>, owners: map<Claim, OwnerRow>, done: set<Claim>, size: SizeOf, c: Claim)
    requires done <= owners.Keys && c in owners && c !in done
    requires Tallied(accounts, done, size) && EarliestOf(accounts, owners, done)
    ensures var a' := Grouped(accounts, c.1, size(c.0), owners[c].putAt);
            Tallied(a', done + {c}, size) && EarliestOf(a', owners, done + {c})
  {
    var a' := Grouped(accounts, c.1, size(c.0), owners[c].putAt);
    CreditTallies(accounts, done, size, c, 0);
    SameTotals(Credited(accounts, c.1, size(c.0), 0), a', done + {c}, size);
    NoEarlier(accounts, owners, done, size, c);
  }

  lemma NoEarlier(accounts: map<Owner, Account>, owners: map<Claim, OwnerRow>, done: set<Claim>, size: SizeOf, c: Claim)
    requires done <= owners.Keys && c in owners
    requires Tallied(accounts, done, size) && EarliestOf(accounts, owners, done)
    ensures EarliestOf(Grouped(accounts, c.1, size(c.0), owners[c].putAt), owners, done + {c})
  {
    var a' := Grouped(accounts, c.1, size(c.0), owners[c].putAt);
    forall d | d in done ensures d.1 in accounts {
      OwnedSome(done, d);
      assert TalliedAt(accounts, done, size, d.1);
    }
    hide Tallied;
    forall o | o in a'
      ensures forall d :: d in done + {c} && d.1 == o ==> a'[o].firstSeen <= owners[d].putAt
      ensures exists d :: d in done + {c} && d.1 == o && owners[d].putAt == a'[o].firstSeen
    {
      if o in accounts {
        var d :| d in done && d.1 == o && owners[d].putAt == accounts[o].firstSeen;
        assert d in done + {c};
      }
      assert c in done + {c};
    }
  }

  lemma {:induction false} GroupingTallies(t: Tables, size: SizeOf, order: seq<Claim>, k: nat)
    requires Linked(t, size) && InSomeOrder(order, Joined(t)) && k <= |order|
    ensures Prefix(order, k) <= t.owners.Keys
    ensures Tallied(GroupedTo(t, order, k), Prefix(order, k), size)
    ensures EarliestOf(GroupedTo(t, order, k), t.owners, Prefix(order, k))
  {
    hide Tallied, EarliestOf, Grouped;
    if k == 0 {
      assert Prefix(order, 0) == {};
      NothingTallied(size);
      NothingEarliest(t.owners);
    } else {
      GroupingTallies(t, size, order, k - 1);
      assert Prefix(order, k) == Prefix(order, k - 1) + {order[k - 1]};
      GroupOne(GroupedTo(t, order, k - 1), t.owners, Prefix(order, k - 1), size, order[k - 1]);
    }
  }

  lemma NothingEarliest(owners: map<Claim, OwnerRow>)
    ensures EarliestOf(map[], owners, {})
  {
  }

  /** Accounts grouped from the claims tally, and are dated by the earliest claim. */
  lemma RegroupedTallies(t: Tables, size: SizeOf)
    requires Linked(t, size) && Regrouped(t)
    ensures Booked(t, size) && EarliestOf(t.accounts, t.owners, t.owners.Keys)
  {
    hide Tallied, EarliestOf, GroupedTo;
    var order :| InSomeOrder(order, Joined(t)) && t.accounts == GroupedTo(t, order, |order|);
    GroupingTallies(t, size, order, |order|);
    assert Prefix(order, |order|) == Joined(t) == t.owners.Keys;
  }

  // ---------------------------------------------------------------- every step keeps the books

  lemma DropBooked(t: Tables, size: SizeOf, id: ShardID)
    requires Booked(t, size)
    ensures Booked(Dropped(t, id), size)
  {
    hide Tallied;
    if id in t.shards {
      var all := Claimants(t, id);
      DropTallies(t.accounts, t.owners.Keys, size, id, OwnersOf(all), all);
      assert (t.owners - all).Keys == t.owners.Keys - all;
    }
  }

  lemma StepBooked(opts: Options, size: SizeOf, t: Tables, ev: Event, now: int, t': Tables)
    requires Booked(t, size) && Step(opts, size, t, ev, now, t')
    ensures Booked(t', size)
  {
    hide Tallied, OverQuota, Live, Regrouped, Credited, Debited, Dropped;
    if ev.DropRecord? || ev.CollectRecord? {
      DropBooked(t, size, ev.id);
    } else if ev.Recompute? {
      RegroupedTallies(t', size);
    } else if ev.RemoveOwner? && t' != t {
      DebitTallies(t.accounts, t.owners.Keys, size, (ev.id, ev.owner));
      assert t'.owners.Keys == t.owners.Keys - {(ev.id, ev.owner)};
    } else if ev.AddOwner? && ev.added == Ok(true) {
      CreditTallies(t.accounts, t.owners.Keys, size, (ev.id, ev.owner), now);
      assert t'.owners.Keys == t.owners.Keys + {(ev.id, ev.owner)};
    } else if t' != t {
      assert t'.owners.Keys == t.owners.Keys;
    }
  }

  // ---------------------------------------------------------------- dates and quota

  lemma {:induction false} TotalFewer(a: set<ShardID>, b: set<ShardID>, size: SizeOf)
    requires a <= b
    ensures Total(a, size) <= Total(b, size)
    decreases b
  {
    if b != {} {
      var x :| x in b;
      TotalSplit(b, size, x);
      if x in a {
        TotalSplit(a, size, x);
        TotalFewer(a - {x}, b - {x}, size);
      } else {
        TotalFewer(a, b - {x}, size);
      }
    }
  }

  lemma OwnedSome(claims: set<Claim>, c: Claim)
    requires c in claims
    ensures c.0 in Owned(claims, c.1)
  {
  }

  /** Fewer claims, no new account and no larger one. */
  lemma FewerClaims(size: SizeOf, a: map<Owner, Account>, b: map<Owner, Account>, claims: set<Claim>, fewer: set<Claim>)
    requires Tallied(a, claims, size) && Tallied(b, fewer, size) && fewer <= claims
    ensures b.Keys <= a.Keys && forall o :: o in b ==> b[o].bytes <= a[o].bytes
  {
    forall o | o in b ensures o in a && b[o].bytes <= a[o].bytes {
      assert TalliedAt(a, claims, size, o) && TalliedAt(b, fewer, size, o);
      assert Owned(fewer, o) <= Owned(claims, o);
      TotalFewer(Owned(fewer, o), Owned(claims, o), size);
    }
  }

  /** Claims are only lost, the others stay as they were, and accounts keep their first-seen second. */
  ghost predicate Loses(t: Tables, t': Tables) {
    && t'.owners.Keys <= t.owners.Keys && (forall c :: c in t'.owners ==> t'.owners[c] == t.owners[c])
    && (forall o :: o in t.accounts && o in t'.accounts ==> t'.accounts[o].firstSeen == t.accounts[o].firstSeen)
  }

  lemma LosingKeeps(opts: Options, size: SizeOf, t: Tables, t': Tables, now: int)
    requires Inv(opts, size, t, now) && Booked(t', size) && Loses(t, t')
    ensures Inv(opts, size, t', now)
  {
    FewerClaims(size, t.accounts, t'.accounts, t.owners.Keys, t'.owners.Keys);
    hide Total, Linked;
    forall c | c in t'.owners
      ensures c.1 in t'.accounts && t'.accounts[c.1].firstSeen <= t'.owners[c].putAt <= Unix(now)
    {
      OwnedSome(t'.owners.Keys, c);
      assert TalliedAt(t'.accounts, t'.owners.Keys, size, c.1);
      assert c in t.owners;
    }
  }

  lemma DropLoses(t: Tables, id: ShardID)
    ensures Loses(t, Dropped(t, id))
  {
  }

  lemma RecomputeKeeps(opts: Options, size: SizeOf, t: Tables, t': Tables, now: int)
    requires Inv(opts, size, t, now) && RecomputeStep(t, t')
    ensures Inv(opts, size, t', now)
  {
    RegroupedTallies(t', size);
    TalliedUnique(t'.accounts, t.accounts, t.owners.Keys, size);
    hide Regrouped, Booked;
    forall c | c in t'.owners
      ensures c.1 in t'.accounts && t'.accounts[c.1].firstSeen <= t'.owners[c].putAt <= Unix(now)
    {
      assert t.accounts[c.1].firstSeen <= t.owners[c].putAt;
    }
  }

  lemma RedatedKeeps(opts: Options, size: SizeOf, t: Tables, c: Claim, row: OwnerRow, now: int)
    requires Inv(opts, size, t, now) && c in t.owners && row.putAt == Unix(now)
    ensures Inv(opts, size, t.(owners := t.owners[c := row]), now)
  {
    assert t.owners[c := row].Keys == t.owners.Keys;
    hide Tallied;
    assert t.owners[c].putAt <= Unix(now);
  }

  lemma AddKeeps(opts: Options, size: SizeOf, t: Tables, id: ShardID, owner: Owner, now: int, t': Tables)
    requires Inv(opts, size, t, now) && Booked(t', size)
    requires (id, owner) !in t.owners && !OverQuota(opts, t, owner, size(id), now)
    requires AddOwnerStep(opts, size, t, id, owner, now, Ok(true), t')
    ensures Inv(opts, size, t', now)
  {
    hide OverQuota, Total, Linked;
    CreditWithin(opts, size, t, id, owner, now);
    if owner in t.accounts { SeenBefore(opts, size, t, owner, now); }
    hide Tallied, EffectiveQuota;
    forall d | d in t'.owners
      ensures d.1 in t'.accounts && t'.accounts[d.1].firstSeen <= t'.owners[d].putAt <= Unix(now)
    {
      assert d != (id, owner) ==> d in t.owners;
    }
  }

  lemma SeenBefore(opts: Options, size: SizeOf, t: Tables, o: Owner, clock: int)
    requires Inv(opts, size, t, clock) && o in t.accounts
    ensures t.accounts[o].firstSeen <= Unix(clock)
  {
    assert TalliedAt(t.accounts, t.owners.Keys, size, o);
    var id :| id in Owned(t.owners.Keys, o);
    var c :| c in t.owners.Keys && c.1 == o && c.0 == id;
    assert t.accounts[c.1].firstSeen <= t.owners[c].putAt;
  }

  lemma CreditWithin(opts: Options, size: SizeOf, t: Tables, id: ShardID, owner: Owner, now: int)
    requires WithinQuota(opts, size, t) && Tallied(t.accounts, t.owners.Keys, size)
    requires !OverQuota(opts, t, owner, size(id), now)
    ensures WithinQuota(opts, size, t.(accounts := Credited(t.accounts, owner, size(id), now)))
  {
    if opts.quota > 0 && owner in t.accounts {
      EffectiveQuotaGrows(opts, t.accounts[owner].firstSeen, now, t.accounts[owner].firstSeen, now);
      assert TalliedAt(t.accounts, t.owners.Keys, size, owner);
    }
  }

  lemma ClockMoves(opts: Options, size: SizeOf, t: Tables, clock: int, now: int)
    requires Inv(opts, size, t, clock) && clock <= now
    ensures Inv(opts, size, t, now)
  {
  }

  /** Every transaction keeps the books tallied, claims dated in order and owners within quota. */
  lemma StepKeeps(opts: Options, size: SizeOf, t: Tables, ev: Event, clock: int, now: int, t': Tables)
    requires Inv(opts, size, t, clock) && clock <= now && Step(opts, size, t, ev, now, t')
    ensures Inv(opts, size, t', now)
  {
    ClockMoves(opts, size, t, clock, now);
    StepBooked(opts, size, t, ev, now, t');
    hide Dated, WithinQuota, Booked, OverQuota, Live, Claimants, Dropped, Debited, Regrouped, Loses;
    if ev.DropRecord? || ev.CollectRecord? {
      DropLoses(t, ev.id);
      if t' != t { LosingKeeps(opts, size, t, t', now); }
    } else if ev.RemoveOwner? {
      if t' != t {
        RemoveLoses(t, ev.id, ev.owner, ev.left, t');
        LosingKeeps(opts, size, t, t', now);
      }
    } else if ev.Recompute? {
      RecomputeKeeps(opts, size, t, t', now);
    } else if ev.PutStripe? {
      if t' != t { StripeKeeps(opts, size, t, t', now); }
    } else {
      var c := (ev.id, ev.owner);
      if c in t.owners {
        if t' != t { RedatedKeeps(opts, size, t, c, t'.owners[c], now); }
      } else if ev.AddOwner? && !OverQuota(opts, t, ev.owner, size(ev.id), now) {
        AddKeeps(opts, size, t, ev.id, ev.owner, now, t');
      }
    }
  }

  lemma RemoveLoses(t: Tables, id: ShardID, owner: Owner, r: Result<nat, LedgerError>, t': Tables)
    requires RemoveOwnerStep(t, id, owner, r, t')
    ensures Loses(t, t')
  {
  }

  lemma StripeKeeps(opts: Options, size: SizeOf, t: Tables, t': Tables, now: int)
    requires Inv(opts, size, t, now) && Booked(t', size)
    requires t'.owners == t.owners && t'.accounts == t.accounts
    ensures Inv(opts, size, t', now)
  {
  }

  /** In every run from empty tables the books tally, claims are dated in order and quotas are kept. */
  lemma {:induction false} RunKeeps(opts: Options, size: SizeOf, states: seq<Tables>, events: seq<Event>, times: seq<int>, k: nat)
    requires IsRun(opts, size, states, events, times) && k <= |events| && states[0] == EMPTY
    ensures Inv(opts, size, states[k], if k == 0 then 0 else times[k - 1])
  {
    hide Step, Inv;
    EmptyInv(opts, size, 0);
    if k == 1 {
      EmptyInv(opts, size, times[0]);
      StepKeeps(opts, size, states[0], events[0], times[0], times[0], states[1]);
    } else if k > 1 {
      RunKeeps(opts, size, states, events, times, k - 1);
      StepKeeps(opts, size, states[k - 1], events[k - 1], times[k - 2], times[k - 1], states[k]);
    }
  }

  lemma EmptyInv(opts: Options, size: SizeOf, clock: int)
    ensures Inv(opts, size, EMPTY, clock)
  {
    NothingTallied(size);
  }

  // ---------------------------------------------------------------- reconciling

  /** The tables without the records of the given shards, accounts aside. */
  ghost predicate Restricted(t: Tables, gone: set<ShardID>, t': Tables) {
    && t'.shards == t.shards - gone
    && t'.owners == (map c | c in t.owners && c.0 !in gone :: t.owners[c])
    && t'.stripes == t.stripes - gone
  }

  /** Records whose blob is gone are dropped and the accounts rebuilt from the surviving claims. */
  ghost predicate ReconcileStep(t: Tables, disk: set<ShardID>, t': Tables) {
    Restricted(t, t.shards.Keys - disk, t') && Regrouped(t')
  }

  /** A reconcile never raises the cap of a surviving owner, now or later. */
  lemma ReconcileNeverRaises(opts: Options, size: SizeOf, t: Tables, disk: set<ShardID>, clock: int,
                             t': Tables, o: Owner, at: int)
    requires Inv(opts, size, t, clock) && ReconcileStep(t, disk, t') && opts.quota >= 1
    requires o in t'.accounts
    ensures o in t.accounts
    ensures EffectiveQuota(opts, t'.accounts[o].firstSeen, at) <= EffectiveQuota(opts, t.accounts[o].firstSeen, at)
  {
    hide Tallied;
    RegroupedTallies(t', size);
    FewerClaims(size, t.accounts, t'.accounts, t.owners.Keys, t'.owners.Keys);
    hide Booked, Regrouped, EffectiveQuota;
    var c :| c in t'.owners && c.1 == o && t'.owners[c].putAt == t'.accounts[o].firstSeen;
    assert c in t.owners && t.accounts[c.1].firstSeen <= t.owners[c].putAt;
    EffectiveQuotaGrows(opts, t'.accounts[o].firstSeen, at, t.accounts[o].firstSeen, at);
  }
}

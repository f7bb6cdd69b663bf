/** The node ledger: who owns which shard, what each owner is charged, and under what quota. */
module Ledger {
  import opened Core

  type Owner = Bytes

  /** Durations and instants are nanoseconds; a quota of zero or less means none. */
  datatype Options = Options(quota: int, leaseTTL: int, ramp: int, initialFraction: real)

  /** Whole seconds, rounded down. */
  function Unix(now: int): int {
    now / SECOND
  }

  lemma WholeSeconds(now: int)
    ensures Unix(now) * 1_000_000_000 <= now < (Unix(now) + 1) * 1_000_000_000
  {
  }

  /** No shard on the wire is larger. */
  const MAX_SHARD_SIZE := 67_108_864

  datatype ShardRow = ShardRow(size: nat, created: int)

  datatype OwnerRow = OwnerRow(putAt: int, expiry: int)

  datatype Account = Account(bytes: int, count: int, firstSeen: int)

  datatype StripeRow = StripeRow(k: int, m: int, siblings: seq<ShardID>, grant: Bytes)

  type Claim = (ShardID, Owner)

  datatype Tables = Tables(shards: map<ShardID, ShardRow>, owners: map<Claim, OwnerRow>,
                           accounts: map<Owner, Account>, stripes: map<ShardID, StripeRow>)

  datatype LedgerError = QuotaExceeded | Unauthorized | BadStripe

  // ---------------------------------------------------------------- totals

  /** The length of the bytes behind a content address. */
  type SizeOf = ShardID -> nat

  ghost function Total(ids: set<ShardID>, size: SizeOf): (n: nat)
  {
    if ids == {} then 0
    else
      var id :| id in ids;
      size(id) + Total(ids - {id}, size)
  }

  lemma {:induction false} TotalSplit(ids: set<ShardID>, size: SizeOf, x: ShardID)
    requires x in ids
    ensures Total(ids, size) == size(x) + Total(ids - {x}, size)
    decreases ids
  {
    var id :| id in ids && Total(ids, size) == size(id) + Total(ids - {id}, size);
    if id != x {
      TotalSplit(ids - {id}, size, x);
      TotalSplit(ids - {x}, size, id);
      assert ids - {id} - {x} == ids - {x} - {id};
    }
  }

  ghost function Owned(claims: set<Claim>, o: Owner): set<ShardID> {
    set c | c in claims && c.1 == o :: c.0
  }

  /** An account exists exactly for an owner of something, and holds what it owns. */
  ghost predicate TalliedAt(accounts: map<Owner, Account>, claims: set<Claim>, size: SizeOf, o: Owner) {
    var ids := Owned(claims, o);
    && (o in accounts <==> ids != {})
    && (o in accounts ==> accounts[o].bytes == Total(ids, size) && accounts[o].count == |ids|)
  }

  ghost predicate Tallied(accounts: map<Owner, Account>, claims: set<Claim>, size: SizeOf) {
    forall o :: TalliedAt(accounts, claims, size, o)
  }

  /** Claims and stripes point at shard rows, and a row's size is its content's. */
  ghost predicate Linked(t: Tables, size: SizeOf) {
    && (forall id :: id in t.shards ==> t.shards[id].size == size(id))
    && (forall c :: c in t.owners ==> c.0 in t.shards)
    && (forall id :: id in t.stripes ==> id in t.shards)
  }

  ghost predicate Booked(t: Tables, size: SizeOf) {
    Linked(t, size) && Tallied(t.accounts, t.owners.Keys, size)
  }

  // ---------------------------------------------------------------- the books under one claim

  /** The accounts after owner o gained a claim of n bytes. */
  function Credited(accounts: map<Owner, Account>, o: Owner, n: int, now: int): map<Owner, Account> {
    accounts[o := if o in accounts then Account(accounts[o].bytes + n, accounts[o].count + 1, accounts[o].firstSeen)
                  else Account(n, 1, Unix(now))]
  }

  /** The accounts after owner o lost a claim of n bytes; an account that reaches zero shards is removed. */
  function Debited(accounts: map<Owner, Account>, o: Owner, n: int): map<Owner, Account> {
    if o !in accounts then accounts
    else if accounts[o].count - 1 <= 0 then accounts - {o}
    else accounts[o := Account(accounts[o].bytes - n, accounts[o].count - 1, accounts[o].firstSeen)]
  }

  /** The accounts after each of these owners lost a claim of n bytes. */
  function DebitedAll(accounts: map<Owner, Account>, os: set<Owner>, n: int): map<Owner, Account> {
    map o | o in accounts && (o in os ==> accounts[o].count - 1 > 0) ::
      if o in os then Account(accounts[o].bytes - n, accounts[o].count - 1, accounts[o].firstSeen) else accounts[o]
  }

  lemma DebitOneMore(accounts: map<Owner, Account>, os: set<Owner>, n: int, o: Owner)
    requires o !in os
    ensures Debited(DebitedAll(accounts, os, n), o, n) == DebitedAll(accounts, os + {o}, n)
  {
  }

  lemma OwnedMore(claims: set<Claim>, c: Claim, o: Owner)
    ensures Owned(claims + {c}, o) == if o == c.1 then Owned(claims, o) + {c.0} else Owned(claims, o)
  {
  }

  lemma OwnedLess(claims: set<Claim>, c: Claim, o: Owner)
    ensures Owned(claims - {c}, o) == if o == c.1 then Owned(claims, o) - {c.0} else Owned(claims, o)
  {
  }

  lemma CreditTallies(accounts: map<Owner, Account>, claims: set<Claim>, size: SizeOf, c: Claim, now: int)
    requires Tallied(accounts, claims, size) && c !in claims
    ensures Tallied(Credited(accounts, c.1, size(c.0), now), claims + {c}, size)
  {
    assert c == (c.0, c.1);
    forall o ensures TalliedAt(Credited(accounts, c.1, size(c.0), now), claims + {c}, size, o) {
      OwnedMore(claims, c, o);
      assert TalliedAt(accounts, claims, size, o);
      if o == c.1 {
        var ids := Owned(claims, o);
        TotalSplit(ids + {c.0}, size, c.0);
        assert ids + {c.0} - {c.0} == ids;
      }
    }
  }

  lemma DebitTallies(accounts: map<Owner, Account>, claims: set<Claim>, size: SizeOf, c: Claim)
    requires Tallied(accounts, claims, size) && c in claims
    ensures Tallied(Debited(accounts, c.1, size(c.0)), claims - {c}, size)
  {
    assert c == (c.0, c.1);
    forall o ensures TalliedAt(Debited(accounts, c.1, size(c.0)), claims - {c}, size, o) {
      OwnedLess(claims, c, o);
      assert TalliedAt(accounts, claims, size, o);
      if o == c.1 {
        assert c.0 in Owned(claims, o);
        OneLess(Owned(claims, o), size, c.0);
      }
      hide Owned, Total;
    }
  }

  lemma OneLess(ids: set<ShardID>, size: SizeOf, id: ShardID)
    requires id in ids
    ensures |ids - {id}| == |ids| - 1 && Total(ids - {id}, size) == Total(ids, size) - size(id)
    ensures ids - {id} == {} <==> |ids| == 1
  {
    hide Total;
    TotalSplit(ids, size, id);
  }

  /** Debiting every owner of one shard keeps the books tallied once the shard's claims are gone. */
  lemma DropTallies(accounts: map<Owner, Account>, claims: set<Claim>, size: SizeOf, id: ShardID, os: set<Owner>, gone: set<Claim>)
    requires Tallied(accounts, claims, size) && gone == (set c | c in claims && c.0 == id) && os == (set c | c in gone :: c.1)
    ensures Tallied(DebitedAll(accounts, os, size(id)), claims - gone, size)
  {
    forall o ensures TalliedAt(DebitedAll(accounts, os, size(id)), claims - gone, size, o) {
      DropTalliesAt(accounts, claims, size, id, os, gone, o);
    }
  }

  lemma DropTalliesAt(accounts: map<Owner, Account>, claims: set<Claim>, size: SizeOf, id: ShardID,
                      os: set<Owner>, gone: set<Claim>, o: Owner)
    requires Tallied(accounts, claims, size) && gone == (set c | c in claims && c.0 == id) && os == (set c | c in gone :: c.1)
    ensures TalliedAt(DebitedAll(accounts, os, size(id)), claims - gone, size, o)
  {
    var ids := Owned(claims, o);
    assert TalliedAt(accounts, claims, size, o);
    assert Owned(claims - gone, o) == ids - {id};
    assert o in os <==> (id, o) in claims by {
      if o in os { var c :| c in gone && c.1 == o; assert c == (id, o); }
      if (id, o) in claims { assert (id, o) in gone && (id, o).1 == o; }
    }
    assert id in ids <==> (id, o) in claims;
    if id in ids {
      TotalSplit(ids, size, id);
      assert |ids - {id}| == |ids| - 1;
    } else {
      assert ids - {id} == ids;
    }
  }

  /** Two books that tally with the same claims hold the same totals. */
  lemma TalliedUnique(a: map<Owner, Account>, b: map<Owner, Account>, claims: set<Claim>, size: SizeOf)
    requires Tallied(a, claims, size) && Tallied(b, claims, size)
    ensures a.Keys == b.Keys
    ensures forall o :: o in a ==> a[o].bytes == b[o].bytes && a[o].count == b[o].count
  {
    forall o ensures TalliedAt(a, claims, size, o) && TalliedAt(b, claims, size, o) {}
    forall o ensures o in a.Keys <==> o in b.Keys {
      assert TalliedAt(a, claims, size, o) && TalliedAt(b, claims, size, o);
    }
    forall o | o in a ensures a[o].bytes == b[o].bytes && a[o].count == b[o].count {
      assert TalliedAt(a, claims, size, o) && TalliedAt(b, claims, size, o);
    }
  }

  // ---------------------------------------------------------------- quota

  function Max(a: int, b: int): int {
    if a < b then b else a
  }

  function Ratio(frac: real, age: int, ramp: int): real
    requires ramp > 0
  {
    frac + (1.0 - frac) * (age as real / ramp as real)
  }

  /** The cap in force for an owner first seen at the given second. */
  function EffectiveQuota(opts: Options, firstSeen: int, now: int): int {
    if opts.ramp <= 0 || opts.initialFraction <= 0.0 || opts.initialFraction >= 1.0 then opts.quota
    else
      var age := now - firstSeen * SECOND;
      if age >= opts.ramp then opts.quota
      else Max(Ramped(opts, Max(age, 0)), 1)
  }

  function Ramped(opts: Options, age: int): int
    requires opts.ramp > 0
  {
    (opts.quota as real * Ratio(opts.initialFraction, age, opts.ramp)).Floor
  }

  lemma Share(a: int, b: int, n: int)
    requires 0 <= a <= b && n > 0
    ensures a as real / n as real <= b as real / n as real
    ensures a as real / n as real >= 0.0
    ensures b < n ==> b as real / n as real < 1.0
  {
    var x, y, d := a as real, b as real, n as real;
    assert y / d - x / d == (y - x) / d;
    assert (y - x) / d >= 0.0;
  }

  lemma ScaleUp(k: real, x: real, y: real)
    requires 0.0 <= k && x <= y
    ensures k * x <= k * y
  {
  }

  lemma RatioGrows(frac: real, age: int, later: int, ramp: int)
    requires 0.0 < frac < 1.0 && 0 <= age <= later < ramp
    ensures 0.0 < Ratio(frac, age, ramp) <= Ratio(frac, later, ramp) < 1.0
  {
    Share(age, later, ramp);
    Blend(frac, age as real / ramp as real, later as real / ramp as real);
  }

  lemma Blend(frac: real, x: real, y: real)
    requires 0.0 < frac < 1.0 && 0.0 <= x <= y < 1.0
    ensures 0.0 < frac + (1.0 - frac) * x <= frac + (1.0 - frac) * y < 1.0
  {
    var k := 1.0 - frac;
    ScaleUp(k, x, y);
    assert k * x >= 0.0;
    var slack := k * (1.0 - y);
    assert slack > 0.0;
    assert frac + k * y == 1.0 - slack;
  }

  /** Later, or for an owner seen earlier, the cap is no smaller; it is never above the full quota nor below one. */
  lemma EffectiveQuotaGrows(opts: Options, firstSeen: int, now: int, earlier: int, later: int)
    requires opts.quota >= 1 && earlier <= firstSeen && now <= later
    ensures 1 <= EffectiveQuota(opts, firstSeen, now) <= EffectiveQuota(opts, earlier, later) <= opts.quota
  {
    hide Ramped;
    if opts.ramp > 0 && 0.0 < opts.initialFraction < 1.0 {
      var a, b := now - firstSeen * SECOND, later - earlier * SECOND;
      if a < opts.ramp {
        CapAt(opts, Max(a, 0), Max(a, 0));
        if b < opts.ramp { CapAt(opts, Max(a, 0), Max(b, 0)); }
      }
    }
  }

  lemma CapAt(opts: Options, age: int, later: int)
    requires opts.quota >= 1 && 0.0 < opts.initialFraction < 1.0 && 0 <= age <= later < opts.ramp
    ensures Ramped(opts, age) <= Ramped(opts, later) <= opts.quota
  {
    var q, x, y := opts.quota as real, Ratio(opts.initialFraction, age, opts.ramp), Ratio(opts.initialFraction, later, opts.ramp);
    RatioGrows(opts.initialFraction, age, later, opts.ramp);
    hide Ratio;
    ScaleUp(q, x, y);
    ScaleUp(q, y, 1.0);
  }

  /**
   * In between the cap is the whole part of a straight line, and at least one: the line leaves the initial fraction
   * of the quota when the owner is first seen and reaches the quota at the end of the ramp.
   */
  lemma EffectiveQuotaLine(opts: Options, firstSeen: int, now: int, line: real)
    requires opts.ramp > 0 && 0.0 < opts.initialFraction < 1.0 && 0 <= now - firstSeen * SECOND <= opts.ramp
    requires (line - opts.initialFraction * opts.quota as real) * opts.ramp as real
             == (opts.quota as real - opts.initialFraction * opts.quota as real) * (now - firstSeen * SECOND) as real
    ensures now - firstSeen * SECOND < opts.ramp ==> EffectiveQuota(opts, firstSeen, now) == Max(line.Floor, 1)
    ensures now - firstSeen * SECOND == opts.ramp ==> EffectiveQuota(opts, firstSeen, now) == opts.quota && line == opts.quota as real
    ensures now - firstSeen * SECOND == 0 ==> line == opts.initialFraction * opts.quota as real
  {
    var age, q, f, n := now - firstSeen * SECOND, opts.quota as real, opts.initialFraction, opts.ramp as real;
    OnTheLine(q, f, age as real, n, line);
  }

  lemma OnTheLine(q: real, f: real, age: real, n: real, line: real)
    requires n > 0.0 && (line - f * q) * n == (q - f * q) * age
    ensures line == q * (f + (1.0 - f) * (age / n))
    ensures age == n ==> line == q
    ensures age == 0.0 ==> line == f * q
  {
    var x := age / n;
    assert x * n == age;
    assert (q - f * q) * age == (q - f * q) * x * n;
    assert (line - f * q - (q - f * q) * x) * n == 0.0;
    assert line - f * q == (q - f * q) * x;
  }

  /** Before it is first seen an owner's cap is that of the first moment; without a ramp it is the quota throughout. */
  lemma EffectiveQuotaOutside(opts: Options, firstSeen: int, now: int)
    ensures opts.ramp <= 0 || opts.initialFraction <= 0.0 || opts.initialFraction >= 1.0 || now - firstSeen * SECOND >= opts.ramp ==>
              EffectiveQuota(opts, firstSeen, now) == opts.quota
    ensures now < firstSeen * SECOND ==> EffectiveQuota(opts, firstSeen, now) == EffectiveQuota(opts, firstSeen, firstSeen * SECOND)
  {
  }
}

/** Shedding shards to an emptier peer: how much, and the place-prove-release move. */
module Rebalance {
  import opened Core
  import opened Ledger

  // ---------------------------------------------------------------- how much

  /** Bytes stored out of a budget; no budget means the load is unknown. */
  datatype Load = Load(used: int, capacity: int) {
    function Frac(): (f: real)
      ensures 0.0 <= f <= 1.0
    {
      if capacity <= 0 then 0.0
      else
        var f := used as real / capacity as real;
        if f < 0.0 then 0.0 else if f > 1.0 then 1.0 else f
    }

    function Free(): (n: int)
      ensures 0 <= n && (used <= capacity ==> used + n == capacity)
    {
      if capacity - used > 0 then capacity - used else 0
    }
  }

  function Min(a: int, b: int): int {
    if a < b then a else b
  }

  /** Bytes that lower a node's fraction by half the gap. */
  function HalfGapBytes(gap: real, capacity: int): int {
    (gap / 2.0 * capacity as real).Floor
  }

  function OffloadBytes(self: Load, peer: Load, threshold: real): int {
    var band := if threshold < 0.0 then 0.0 else threshold;
    var gap := self.Frac() - peer.Frac();
    if gap <= band then 0
    else Max(Min(Min(HalfGapBytes(gap, self.capacity), peer.Free()), self.used), 0)
  }

  lemma HalfGap(gap: real, load: Load, n: int)
    requires 0 < load.capacity && load.used <= load.capacity && 0 <= n <= load.used && n <= HalfGapBytes(gap, load.capacity)
    ensures Load(load.used - n, load.capacity).Frac() >= load.Frac() - gap / 2.0
  {
    PlainFrac(load);
    PlainFrac(Load(load.used - n, load.capacity));
    Lowered(load.used as real, n as real, load.capacity as real, gap / 2.0);
  }

  lemma PlainFrac(load: Load)
    requires 0 < load.capacity && 0 <= load.used <= load.capacity
    ensures load.Frac() == load.used as real / load.capacity as real
  {
    Share(load.used, load.capacity, load.capacity);
  }

  lemma Lowered(used: real, n: real, capacity: real, drop: real)
    requires 0.0 < capacity && n <= drop * capacity
    ensures (used - n) / capacity >= used / capacity - drop
  {
    var x := n / capacity;
    assert x * capacity == n;
    assert x <= drop;
    assert (used - n) / capacity == used / capacity - x;
  }

  lemma KnownCapacity(load: Load)
    ensures load.Frac() > 0.0 ==> load.capacity > 0
  {
  }

  /**
   * Nothing is shed inside the dead band; what is shed is held and fits the peer, and leaves this node at
   * least half way above where it started over the peer.
   */
  lemma OffloadBounds(self: Load, peer: Load, threshold: real)
    ensures var n, gap := OffloadBytes(self, peer, threshold), self.Frac() - peer.Frac();
            && 0 <= n <= Max(self.used, 0) && n <= peer.Free()
            && (n > 0 ==> gap > 0.0 && gap > threshold && self.capacity > 0)
            && (n > 0 && self.used <= self.capacity ==> Load(self.used - n, self.capacity).Frac() >= self.Frac() - gap / 2.0)
            && (n > 0 && peer.used <= peer.capacity ==> peer.used + n <= peer.capacity)
  {
    hide HalfGapBytes, Load.Frac;
    KnownCapacity(self);
    var n, gap := OffloadBytes(self, peer, threshold), self.Frac() - peer.Frac();
    if n > 0 && self.used <= self.capacity { HalfGap(gap, self, n); }
  }

  /** Outside the dead band what is shed is the most that is held, fits the peer, and stays within half the gap. */
  lemma OffloadIsMost(self: Load, peer: Load, threshold: real, n: int)
    requires 0 < self.capacity && 0 <= self.used <= self.capacity
    requires self.Frac() - peer.Frac() > threshold && self.Frac() - peer.Frac() > 0.0
    requires OffloadBytes(self, peer, threshold) < n <= self.used && n <= peer.Free()
    ensures Load(self.used - n, self.capacity).Frac() < self.Frac() - (self.Frac() - peer.Frac()) / 2.0
  {
    var gap := self.Frac() - peer.Frac();
    assert n > HalfGapBytes(gap, self.capacity);
    PlainFrac(self);
    PlainFrac(Load(self.used - n, self.capacity));
    hide Load.Frac;
    LoweredMore(self.used as real, n as real, self.capacity as real, gap / 2.0);
  }

  lemma LoweredMore(used: real, n: real, capacity: real, drop: real)
    requires capacity > 0.0 && n > drop * capacity
    ensures (used - n) / capacity < used / capacity - drop
  {
    var x := n / capacity;
    assert x * capacity == n;
    assert x > drop;
    assert (used - n) / capacity == used / capacity - x;
  }

  // ---------------------------------------------------------------- the move

  type NodeID = string

  datatype ColdShard = ColdShard(id: ShardID, k: int, m: int, siblings: seq<ShardID>)

  datatype Placed = Accepted | QuotaFull | PlaceFailed

  /** How a peer and the path to it behave, shard by shard. A peer may accept and not store. */
  datatype Peer = Peer(load: Load, counts: ShardID -> bool, accepts: ShardID -> Placed, stores: ShardID -> bool, answers: ShardID -> bool)

  type Holdings = map<NodeID, set<ShardID>>

  ghost predicate Somewhere(held: Holdings, id: ShardID) {
    exists n :: n in held && id in held[n]
  }

  /** Every shard held anywhere before is held somewhere after. */
  ghost predicate NoneLost(before: Holdings, after: Holdings) {
    forall id :: Somewhere(before, id) ==> Somewhere(after, id)
  }

  /** How many of the positions of a stripe a node holds. */
  function StripeLoad(held: set<ShardID>, siblings: seq<ShardID>): (n: nat)
    ensures n <= |siblings|
  {
    if siblings == [] then 0
    else StripeLoad(held, siblings[..|siblings| - 1]) + if siblings[|siblings| - 1] in held then 1 else 0
  }

  ghost predicate Distinct(ids: seq<ShardID>) {
    forall i, j :: 0 <= i < j < |ids| ==> ids[i] != ids[j]
  }

  /** One more shard adds at most one position of a stripe with distinct shards. */
  lemma {:induction false} OneMore(held: set<ShardID>, siblings: seq<ShardID>, id: ShardID)
    requires Distinct(siblings)
    ensures StripeLoad(held + {id}, siblings) <= StripeLoad(held - {id}, siblings) + 1
    ensures id !in siblings ==> StripeLoad(held + {id}, siblings) == StripeLoad(held - {id}, siblings)
  {
    if siblings != [] {
      var front := siblings[..|siblings| - 1];
      OneMore(held, front, id);
      assert siblings[|siblings| - 1] == id ==> id !in front;
    }
  }

  lemma {:induction false} LoadIgnores(held: set<ShardID>, siblings: seq<ShardID>, i: nat)
    requires i < |siblings|
    ensures StripeLoad(held, siblings[..i]) <= StripeLoad(held, siblings[..i + 1]) <= StripeLoad(held, siblings)
    decreases |siblings| - i
  {
    assert siblings[..i + 1][..i] == siblings[..i];
    if i + 1 < |siblings| {
      LoadIgnores(held, siblings, i + 1);
    } else {
      assert siblings[..i + 1] == siblings;
    }
  }

  /** Before the limit is reached the peer has to be asked for a shard it does not answer for. */
  ghost predicate Unasked(held: set<ShardID>, counts: ShardID -> bool, siblings: seq<ShardID>, exclude: ShardID, limit: int) {
    exists i :: 0 <= i < |siblings| && siblings[i] != exclude && !counts(siblings[i]) && StripeLoad(held - {exclude}, siblings[..i]) < limit
  }

  lemma {:induction false} LoadOfFront(held: set<ShardID>, siblings: seq<ShardID>, i: nat, j: nat)
    requires i <= j <= |siblings|
    ensures StripeLoad(held, siblings[..i]) <= StripeLoad(held, siblings[..j])
    decreases j
  {
    if i < j {
      assert siblings[..j][..j - 1] == siblings[..j - 1];
      LoadOfFront(held, siblings, i, j - 1);
    }
  }

  /** Count the peer's other shards of a stripe, stopping at the limit; None if the peer cannot be asked. */
  method PeerStripeLoad(held: set<ShardID>, counts: ShardID -> bool, siblings: seq<ShardID>, exclude: ShardID, limit: int)
    returns (n: Option<nat>)
    requires limit > 0
    ensures n.Some? && n.value < limit ==> n.value == StripeLoad(held - {exclude}, siblings)
    ensures n.Some? && n.value >= limit ==> StripeLoad(held - {exclude}, siblings) >= limit
    ensures n.None? <==> Unasked(held, counts, siblings, exclude, limit)
  {
    var c := 0;
    for i := 0 to |siblings|
      invariant c == StripeLoad(held - {exclude}, siblings[..i]) && c < limit
      invariant forall j :: 0 <= j < i ==> siblings[j] == exclude || counts(siblings[j])
    {
      assert siblings[..i + 1][..i] == siblings[..i];
      var s := siblings[i];
      if s != exclude {
        if !counts(s) { return None; }
        if s in held {
          c := c + 1;
          if c >= limit {
            LoadIgnores(held - {exclude}, siblings, i);
            forall j | i < j <= |siblings| ensures StripeLoad(held - {exclude}, siblings[..j]) >= limit {
              LoadOfFront(held - {exclude}, siblings, i + 1, j);
            }
            return Some(c);
          }
        }
      }
    }
    assert siblings[..|siblings|] == siblings;
    return Some(c);
  }

  /** The peer can be counted and holds fewer than M of the stripe's other shards; without parity there is no cap. */
  ghost predicate SpreadKept(row: ColdShard, held: set<ShardID>, counts: ShardID -> bool) {
    row.m > 0 ==> !Unasked(held, counts, row.siblings, row.id, row.m) && StripeLoad(held - {row.id}, row.siblings) < row.m
  }

  /** May the peer take one more shard of this stripe? */
  method KeepsSpread(held: set<ShardID>, row: ColdShard, peer: Peer) returns (ok: bool)
    ensures ok && Distinct(row.siblings) && row.m > 0 ==> StripeLoad(held + {row.id}, row.siblings) <= row.m
    ensures ok <==> SpreadKept(row, held, peer.counts)
  {
    ok := true;
    if row.m > 0 {
      var load := PeerStripeLoad(held, peer.counts, row.siblings, row.id, row.m);
      ok := load.Some? && load.value < row.m;
      if Distinct(row.siblings) { OneMore(held, row.siblings, row.id); }
    }
  }

  /** The stripe cap of this row holds for these shards. */
  ghost predicate WithinCap(row: ColdShard, held: set<ShardID>) {
    Distinct(row.siblings) && row.m > 0 ==> StripeLoad(held, row.siblings) <= row.m
  }

  /** The target took nothing, or this shard under its stripe's cap, whatever became of the move. */
  ghost predicate Placement(row: ColdShard, before: set<ShardID>, after: set<ShardID>) {
    after == before || (after == before + {row.id} && WithinCap(row, after))
  }

  ghost predicate OthersKept(self: NodeID, target: NodeID, before: Holdings, after: Holdings) {
    && before.Keys == after.Keys
    && forall n :: n in before ==>
         && (n != self && n != target ==> after[n] == before[n])
         && (n == self ==> after[n] <= before[n])
         && (n == target ==> before[n] <= after[n])
  }

  /** The rows that belong to this stripe all record it so. */
  ghost predicate Agreed(rows: seq<ColdShard>, siblings: seq<ShardID>, m: int) {
    && Distinct(siblings) && m > 0
    && forall i :: 0 <= i < |rows| && rows[i].id in siblings ==> rows[i].siblings == siblings && rows[i].m == m
  }

  /** No stripe grew past its cap: after the round a node holds at most M of it, or no more than before. */
  ghost predicate CapsHold(rows: seq<ColdShard>, before: set<ShardID>, after: set<ShardID>) {
    forall siblings, m :: Agreed(rows, siblings, m) ==>
      StripeLoad(after, siblings) <= m || StripeLoad(after, siblings) <= StripeLoad(before, siblings)
  }

  lemma {:induction false} NotOfStripe(held: set<ShardID>, siblings: seq<ShardID>, id: ShardID)
    requires id !in siblings
    ensures StripeLoad(held + {id}, siblings) == StripeLoad(held, siblings)
  {
    if siblings != [] { NotOfStripe(held, siblings[..|siblings| - 1], id); }
  }

  lemma CapsKeep(rows: seq<ColdShard>, i: nat, start: set<ShardID>, before: set<ShardID>, after: set<ShardID>)
    requires i < |rows| && CapsHold(rows, start, before) && Placement(rows[i], before, after)
    ensures CapsHold(rows, start, after)
  {
    hide StripeLoad;
    forall siblings, m | Agreed(rows, siblings, m)
      ensures StripeLoad(after, siblings) <= m || StripeLoad(after, siblings) <= StripeLoad(start, siblings)
    {
      if after != before && rows[i].id !in siblings { NotOfStripe(before, siblings, rows[i].id); }
    }
  }

  /** The peer takes the shard, answers for it, and has it. */
  predicate Proves(peer: Peer, id: ShardID, held: set<ShardID>) {
    peer.accepts(id) == Accepted && peer.answers(id) && (peer.stores(id) || id in held)
  }

  /** The peer is full, or it took the shard, answers, and does not have it. */
  predicate Refuses(peer: Peer, id: ShardID, held: set<ShardID>, steps: nat) {
    || peer.accepts(id) == QuotaFull
    || (peer.accepts(id) == Accepted && steps > 0 && peer.answers(id) && !peer.stores(id) && id !in held)
  }

  datatype Outcome = Moved | Skipped | StopRound | Crashed

  ghost function BytesOf(ids: seq<ShardID>, size: SizeOf): nat {
    if ids == [] then 0 else BytesOf(ids[..|ids| - 1], size) + size(ids[|ids| - 1])
  }

  class Rebalancer {
    const self: NodeID
    const cooldown: int
    const threshold: real
    /** The length of the bytes behind a content address. */
    const size: SizeOf
    var held: Holdings
    /** When each shard was last moved away; entries older than the cooldown are pruned. */
    var moved: map<ShardID, int>
    ghost var lastMove: map<ShardID, int>

    /** Every move still inside its cooldown is remembered, and nothing but moves is. */
    ghost predicate Valid(clock: int) reads this {
      && self in held
      && (forall id :: id in moved ==> id in lastMove && moved[id] == lastMove[id])
      && forall id :: id in lastMove ==>
           lastMove[id] <= clock && (clock - lastMove[id] < cooldown ==> id in moved && moved[id] == lastMove[id])
    }

    constructor (self: NodeID, cooldown: int, threshold: real, size: SizeOf, held: Holdings)
      requires self in held
      ensures this.self == self && this.cooldown == cooldown && this.threshold == threshold && this.size == size
      ensures this.held == held && lastMove == map[] && forall clock :: Valid(clock)
    {
      this.self, this.cooldown, this.threshold, this.size := self, cooldown, threshold, size;
      this.held, moved, lastMove := held, map[], map[];
    }

    predicate InCooldown(id: ShardID, now: int) reads this {
      id in moved && now - moved[id] < cooldown
    }

    method PruneCooldown(now: int)
      requires Valid(now)
      modifies this`moved
      ensures Valid(now) && moved == map id | id in old(moved) && now - old(moved)[id] < cooldown :: old(moved)[id]
    {
      var rest := moved.Keys;
      while rest != {}
        invariant rest <= old(moved).Keys
        invariant moved == map id | id in old(moved) && (id in rest || now - old(moved)[id] < cooldown) :: old(moved)[id]
        decreases rest
      {
        var id :| id in rest;
        rest := rest - {id};
        if now - moved[id] >= cooldown {
          moved := moved - {id};
        }
      }
    }

    /** Offer one shard to the target and have it proved; None when it is there, otherwise how the attempt ended. */
    method Place(row: ColdShard, target: NodeID, peer: Peer, steps: nat) returns (end: Option<Outcome>, left: nat)
      requires self in held && target in held && target != self
      modifies this`held
      ensures target in held && held == old(held)[target := held[target]] && Placement(row, old(held)[target], held[target])
      ensures left <= steps <= left + 1 && end != Some(Moved) && (end.None? ==> left == steps - 1)
      ensures end.None? ==> row.id in held[target] && WithinCap(row, held[target])
      ensures var offered := SpreadKept(row, old(held)[target], peer.counts);
              && (end.None? <==> offered && Proves(peer, row.id, old(held)[target]) && steps > 0)
              && (end == Some(StopRound) <==> offered && Refuses(peer, row.id, old(held)[target], steps))
              && (end == Some(Crashed) <==> offered && peer.accepts(row.id) == Accepted && steps == 0)
              && held[target] == if offered && peer.accepts(row.id) == Accepted && steps > 0 && peer.stores(row.id)
                                 then old(held)[target] + {row.id} else old(held)[target]
    {
      left := steps;
      var fits := KeepsSpread(held[target], row, peer);
      assert fits ==> WithinCap(row, held[target] + {row.id});
      hide StripeLoad, Distinct, WithinCap, SpreadKept;
      if !fits { return Some(Skipped), left; }
      if peer.accepts(row.id) == QuotaFull { return Some(StopRound), left; }
      if peer.accepts(row.id) == PlaceFailed { return Some(Skipped), left; }
      if left == 0 { return Some(Crashed), left; }
      left := left - 1;
      if peer.stores(row.id) {
        held := held[target := held[target] + {row.id}];
      }
      if !peer.answers(row.id) { return Some(Skipped), left; }
      if row.id !in held[target] { return Some(StopRound), left; }
      assert held[target] == old(held)[target] + {row.id};
      return None, left;
    }

    /** Not moved for the length of the cooldown, held here, and open to the target. */
    ghost predicate Offered(row: ColdShard, target: NodeID, peer: Peer, now: int)
      requires self in held && target in held
      reads this
    {
      && (row.id in lastMove ==> now - lastMove[row.id] >= cooldown)
      && row.id in held[self] && SpreadKept(row, held[target], peer.counts)
    }

    /**
     * Place one shard on the target, have it proved, and only then let go of it; `steps` of the writes happen. It is
     * moved exactly when it is offered, taken and proved, and both writes happen.
     */
    method MoveOne(row: ColdShard, target: NodeID, peer: Peer, now: int, steps: nat) returns (o: Outcome, left: nat)
      requires Valid(now) && target in held && target != self
      modifies this
      ensures Valid(now) && held.Keys == old(held).Keys && NoneLost(old(held), held) && left <= steps <= left + 2
      ensures o == Moved <==> old(Offered(row, target, peer, now)) && Proves(peer, row.id, old(held)[target]) && steps > 1
      ensures o == StopRound <==> old(Offered(row, target, peer, now)) && Refuses(peer, row.id, old(held)[target], steps)
      ensures o == Crashed ==> steps < 2
      ensures o == Skipped <==>
                || !old(Offered(row, target, peer, now)) || peer.accepts(row.id) == PlaceFailed
                || (peer.accepts(row.id) == Accepted && steps > 0 && !peer.answers(row.id))
      ensures o == Moved ==>
                && row.id in old(held)[self] && row.id in held[target] && held[self] == old(held)[self] - {row.id}
                && (row.id in old(lastMove) ==> now - old(lastMove)[row.id] >= cooldown)
                && lastMove == old(lastMove)[row.id := now] && WithinCap(row, held[target])
      ensures o != Moved ==> lastMove == old(lastMove) && held[self] == old(held)[self]
      ensures Placement(row, old(held)[target], held[target]) && OthersKept(self, target, old(held), held)
    {
      hide StripeLoad, NoneLost, WithinCap, SpreadKept, OthersKept;
      left := steps;
      NothingLost(held);
      SameHoldings(self, target, held);
      if InCooldown(row.id, now) || row.id !in held[self] { return Skipped, left; }
      ghost var before := held;
      var end, rest := Place(row, target, peer, steps);
      left := rest;
      MoreHeld(before, target, held[target]);
      OthersKeptPlacing(self, target, before, held[target], row.id);
      if end.Some? { return end.value, left; }
      if left == 0 { return Crashed, left; }
      left := left - 1;
      ghost var placed := held;
      held := held[self := held[self] - {row.id}];
      LetGo(placed, self, target, row.id);
      LostTransitive(before, placed, held);
      moved := moved[row.id := now];
      lastMove := lastMove[row.id := now];
      return Moved, left;
    }

    /** A row's turn in a round. */
    method Turn(rows: seq<ColdShard>, i: nat, target: NodeID, peer: Peer, now: int, steps: nat,
                ghost held0: Holdings, ghost start: map<ShardID, int>, ghost moves: seq<ShardID>)
      returns (o: Outcome, left: nat)
      requires Valid(now) && target in held && target != self && i < |rows| && Logged(start, moves, now, lastMove)
      requires SoFar(self, target, held0, start, rows, i, peer, now, cooldown, moves, held)
      modifies this
      ensures Valid(now) && held.Keys == old(held).Keys && left <= steps <= left + 2
      ensures SoFar(self, target, held0, start, rows, if o == Moved || o == Skipped then i + 1 else i, peer, now, cooldown,
                    if o == Moved then moves + [rows[i].id] else moves, held)
      ensures o == Moved ==> rows[i].id in old(lastMove) ==> now - old(lastMove)[rows[i].id] >= cooldown
      ensures lastMove == if o == Moved then old(lastMove)[rows[i].id := now] else old(lastMove)
      ensures o == StopRound ==> target in held0 && Refuses(peer, rows[i].id, held0[target], 1)
      ensures o == Crashed ==> steps < 2
    {
      hide NoneLost, CapsHold, WithinCap, OthersKept, SpreadKept, SoFar, Refuses, Proves, Placement;
      ghost var before, log := held, lastMove;
      o, left := MoveOne(rows[i], target, peer, now, steps);
      Turned(self, target, held0, start, rows, i, peer, now, cooldown, moves, before, log, o, held);
      if o == StopRound { StoppedBy(self, target, held0, start, rows, i, peer, now, cooldown, moves, before, rows[i].id, steps); }
    }

    /**
     * One round: shed cold shards to the target until the budget is spent, every row has had its turn, the target
     * refuses, or the power goes. Of the rows that had their turn each is moved or had a reason to stay.
     */
    method RunOnce(selfLoad: Load, target: NodeID, peer: Peer, rows: seq<ColdShard>, now: int, steps: nat)
      returns (moves: seq<ShardID>, ghost tried: nat)
      requires Valid(now) && target in held && target != self
      modifies this
      ensures Valid(now) && held.Keys == old(held).Keys && NoneLost(old(held), held)
      ensures moves != [] ==>
                && selfLoad.capacity > 0
                && BytesOf(moves[..|moves| - 1], size) < OffloadBytes(selfLoad, peer.load, threshold)
      ensures Rested(old(lastMove), moves, now, cooldown) && Logged(old(lastMove), moves, now, lastMove)
      ensures cooldown > 0 ==> Distinct(moves)
      ensures CapsHold(rows, old(held)[target], held[target]) && OthersKept(self, target, old(held), held)
      ensures Shed(old(held)[self], old(held)[target], rows, moves, held[self], held[target])
      ensures tried <= |rows| && Settled(old(held)[self], old(lastMove), rows, tried, peer, now, cooldown, moves, held[target])
      ensures tried < |rows| ==>
                || BytesOf(moves, size) >= OffloadBytes(selfLoad, peer.load, threshold)
                || Refuses(peer, rows[tried].id, old(held)[target], 1)
                || steps < 2 * tried + 2
    {
      moves, tried := [], 0;
      NothingDone(self, target, held, lastMove, rows, peer, now, cooldown);
      SoFarMeans(self, target, held, lastMove, rows, 0, peer, now, cooldown, moves, held);
      NoBudget(selfLoad, peer.load, threshold);
      hide OffloadBytes, NoneLost, CapsHold, OthersKept, Shed, Settled, SoFar, Refuses, Proves, BytesOf;
      NothingMoved(lastMove, now, cooldown, size);
      if selfLoad.capacity <= 0 { return; }
      var budget := OffloadBytes(selfLoad, peer.load, threshold);
      if budget <= 0 { return; }
      PruneCooldown(now);
      moves, tried := ShedTo(target, peer, rows, now, steps, budget);
      SoFarMeans(self, target, old(held), old(lastMove), rows, tried, peer, now, cooldown, moves, held);
    }

    /** Offer the rows to the target in turn. */
    method ShedTo(target: NodeID, peer: Peer, rows: seq<ColdShard>, now: int, steps: nat, total: int)
      returns (moves: seq<ShardID>, ghost tried: nat)
      requires Valid(now) && target in held && target != self && total > 0
      modifies this
      ensures Valid(now) && held.Keys == old(held).Keys && tried <= |rows|
      ensures moves != [] ==> BytesOf(moves[..|moves| - 1], size) < total
      ensures Rested(old(lastMove), moves, now, cooldown) && Logged(old(lastMove), moves, now, lastMove) && (cooldown > 0 ==> Distinct(moves))
      ensures SoFar(self, target, old(held), old(lastMove), rows, tried, peer, now, cooldown, moves, held)
      ensures tried < |rows| ==>
                BytesOf(moves, size) >= total || Refuses(peer, rows[tried].id, old(held)[target], 1) || steps < 2 * tried + 2
    {
      hide Round, SoFar, Refuses, BytesOf, Logged, Rested, Distinct;
      moves, tried := [], 0;
      ghost var held0, start := held, lastMove;
      NothingDone(self, target, held, start, rows, peer, now, cooldown);
      RoundStart(lastMove, now, cooldown, size, total);
      var budget := total;
      var left: nat, going := steps, true;
      for i := 0 to |rows|
        invariant Valid(now) && held.Keys == held0.Keys && tried <= i && steps <= left + 2 * i
        invariant (going && budget > 0 ==> tried == i) && (!going ==> tried < i)
        invariant Round(start, moves, now, lastMove, cooldown, size, total, budget)
        invariant SoFar(self, target, held0, start, rows, tried, peer, now, cooldown, moves, held)
        invariant tried < i ==> budget <= 0 || Refuses(peer, rows[tried].id, held0[target], 1) || steps < 2 * tried + 2
      {
        if going && budget > 0 {
          ghost var log := lastMove;
          RoundLog(start, moves, now, log, cooldown, size, total, budget);
          var o, rest := Turn(rows, i, target, peer, now, left, held0, start, moves);
          if o == Moved {
            OneMoreMove(start, moves, now, log, rows[i].id, cooldown, size, total, budget);
            moves := moves + [rows[i].id];
            budget := budget - size(rows[i].id);
          }
          going := o == Moved || o == Skipped;
          if going { tried := i + 1; }
          left := rest;
        }
      }
      RoundEnd(start, moves, now, lastMove, cooldown, size, total, budget);
    }
  }

  // ---------------------------------------------------------------- nothing is lost

  lemma NothingLost(held: Holdings)
    ensures NoneLost(held, held)
  {
  }

  lemma LostTransitive(a: Holdings, b: Holdings, c: Holdings)
    requires NoneLost(a, b) && NoneLost(b, c)
    ensures NoneLost(a, c)
  {
  }

  lemma MoreHeld(held: Holdings, target: NodeID, more: set<ShardID>)
    requires target in held && held[target] <= more
    ensures NoneLost(held, held[target := more])
  {
    var held' := held[target := more];
    forall x | Somewhere(held, x) ensures Somewhere(held', x) {
      var n :| n in held && x in held[n];
      assert n in held' && x in held'[n];
    }
  }

  /** A copy held elsewhere may be let go of. */
  lemma LetGo(held: Holdings, self: NodeID, target: NodeID, id: ShardID)
    requires self in held && target in held && target != self && id in held[target]
    ensures NoneLost(held, held[self := held[self] - {id}])
  {
    var held' := held[self := held[self] - {id}];
    forall x | Somewhere(held, x) ensures Somewhere(held', x) {
      var n :| n in held && x in held[n];
      if x == id { assert target in held' && x in held'[target]; } else { assert n in held' && x in held'[n]; }
    }
  }

  lemma SameHoldings(self: NodeID, target: NodeID, held: Holdings)
    ensures OthersKept(self, target, held, held)
  {
  }

  lemma OthersKeptPlacing(self: NodeID, target: NodeID, held: Holdings, more: set<ShardID>, id: ShardID)
    requires self in held && target in held && target != self && held[target] <= more
    ensures var placed := held[target := more];
            OthersKept(self, target, held, placed) && OthersKept(self, target, held, placed[self := placed[self] - {id}])
  {
  }

  lemma OthersTransitive(self: NodeID, target: NodeID, a: Holdings, b: Holdings, c: Holdings)
    requires OthersKept(self, target, a, b) && OthersKept(self, target, b, c)
    ensures OthersKept(self, target, a, c)
  {
  }

  // ---------------------------------------------------------------- cooldown over a round

  /** The log after a round's moves: those shards at this moment, all others as before. */
  ghost predicate Logged(start: map<ShardID, int>, moves: seq<ShardID>, now: int, log: map<ShardID, int>) {
    && (forall id :: id in log ==> if id in moves then log[id] == now else id in start && log[id] == start[id])
    && (forall id :: id in start || id in moves ==> id in log)
  }

  ghost predicate Rested(start: map<ShardID, int>, moves: seq<ShardID>, now: int, cooldown: int) {
    forall i :: 0 <= i < |moves| && moves[i] in start ==> now - start[moves[i]] >= cooldown
  }

  /** A round so far: its log, its cooldowns, and its budget spent but for the last shard. */
  ghost predicate Round(start: map<ShardID, int>, moves: seq<ShardID>, now: int, log: map<ShardID, int>,
                        cooldown: int, size: SizeOf, total: int, budget: int) {
    && Logged(start, moves, now, log) && Rested(start, moves, now, cooldown)
    && budget == total - BytesOf(moves, size)
    && (moves != [] ==> BytesOf(moves[..|moves| - 1], size) < total)
    && (cooldown > 0 ==> Distinct(moves))
  }

  lemma RoundStart(start: map<ShardID, int>, now: int, cooldown: int, size: SizeOf, total: int)
    ensures Round(start, [], now, start, cooldown, size, total, total)
  {
  }

  lemma OneMoreMove(start: map<ShardID, int>, moves: seq<ShardID>, now: int, log: map<ShardID, int>, id: ShardID,
                    cooldown: int, size: SizeOf, total: int, budget: int)
    requires Round(start, moves, now, log, cooldown, size, total, budget) && budget > 0
    requires id in log ==> now - log[id] >= cooldown
    ensures Round(start, moves + [id], now, log[id := now], cooldown, size, total, budget - size(id))
  {
    assert (moves + [id])[..|moves|] == moves;
    if id in moves {
      var i :| 0 <= i < |moves| && moves[i] == id;
      assert moves[i] in start ==> now - start[moves[i]] >= cooldown;
    }
  }

  lemma RoundEnd(start: map<ShardID, int>, moves: seq<ShardID>, now: int, log: map<ShardID, int>,
                 cooldown: int, size: SizeOf, total: int, budget: int)
    requires Round(start, moves, now, log, cooldown, size, total, budget)
    ensures Logged(start, moves, now, log) && Rested(start, moves, now, cooldown)
    ensures (moves != [] ==> BytesOf(moves[..|moves| - 1], size) < total) && (cooldown > 0 ==> Distinct(moves))
    ensures budget <= 0 ==> BytesOf(moves, size) >= total
  {
  }

  lemma NothingMoved(start: map<ShardID, int>, now: int, cooldown: int, size: SizeOf)
    ensures Logged(start, [], now, start) && Rested(start, [], now, cooldown) && Distinct([]) && BytesOf([], size) == 0
  {
  }

  // ---------------------------------------------------------------- what a round achieves

  /** What was moved is gone from here and is with the target, which took nothing but shards of the rows. */
  ghost predicate Shed(self0: set<ShardID>, target0: set<ShardID>, rows: seq<ColdShard>, moves: seq<ShardID>, self: set<ShardID>, target: set<ShardID>) {
    && self == self0 - (set id | id in moves)
    && (forall id :: id in moves ==> id in self0 && id in target && exists i :: 0 <= i < |rows| && rows[i].id == id)
    && target0 <= target && forall id :: id in target && id !in target0 ==> exists i :: 0 <= i < |rows| && rows[i].id == id
  }

  /** A shard that stays has a reason to: not held here, moved lately, its stripe at the cap, or the peer not taking it. */
  ghost predicate Stays(row: ColdShard, self0: set<ShardID>, start: map<ShardID, int>, peer: Peer, now: int, cooldown: int, target: set<ShardID>) {
    || row.id !in self0
    || (row.id in start && now - start[row.id] < cooldown)
    || (row.m > 0 && StripeLoad(target - {row.id}, row.siblings) >= row.m)
    || (row.m > 0 && exists i :: 0 <= i < |row.siblings| && row.siblings[i] != row.id && !peer.counts(row.siblings[i]))
    || peer.accepts(row.id) == PlaceFailed
    || (peer.accepts(row.id) == Accepted && !peer.answers(row.id))
  }

  /** Each of the first n rows is moved or stays for a reason. */
  ghost predicate Settled(self0: set<ShardID>, start: map<ShardID, int>, rows: seq<ColdShard>, n: nat, peer: Peer, now: int, cooldown: int,
                          moves: seq<ShardID>, target: set<ShardID>)
    requires n <= |rows|
  {
    forall i :: 0 <= i < n ==> rows[i].id in moves || Stays(rows[i], self0, start, peer, now, cooldown, target)
  }

  /** A round so far, with the first n rows settled. */
  ghost predicate SoFar(self: NodeID, target: NodeID, held0: Holdings, start: map<ShardID, int>, rows: seq<ColdShard>, n: nat, peer: Peer,
                        now: int, cooldown: int, moves: seq<ShardID>, held: Holdings) {
    && n <= |rows| && self in held0 && target in held0 && held.Keys == held0.Keys
    && NoneLost(held0, held) && OthersKept(self, target, held0, held) && CapsHold(rows, held0[target], held[target])
    && Shed(held0[self], held0[target], rows, moves, held[self], held[target])
    && Settled(held0[self], start, rows, n, peer, now, cooldown, moves, held[target])
  }

  lemma SoFarMeans(self: NodeID, target: NodeID, held0: Holdings, start: map<ShardID, int>, rows: seq<ColdShard>, n: nat, peer: Peer,
                   now: int, cooldown: int, moves: seq<ShardID>, held: Holdings)
    requires SoFar(self, target, held0, start, rows, n, peer, now, cooldown, moves, held)
    ensures n <= |rows| && self in held && target in held && NoneLost(held0, held) && OthersKept(self, target, held0, held)
    ensures CapsHold(rows, held0[target], held[target]) && Shed(held0[self], held0[target], rows, moves, held[self], held[target])
    ensures Settled(held0[self], start, rows, n, peer, now, cooldown, moves, held[target])
  {
  }

  lemma NothingDone(self: NodeID, target: NodeID, held: Holdings, start: map<ShardID, int>, rows: seq<ColdShard>, peer: Peer, now: int, cooldown: int)
    requires self in held && target in held
    ensures SoFar(self, target, held, start, rows, 0, peer, now, cooldown, [], held)
  {
    hide StripeLoad;
    NothingLost(held);
    SameHoldings(self, target, held);
  }

  /** One row's turn: what has been achieved stays, and unless the round ends here the row is settled too. */
  lemma Turned(self: NodeID, target: NodeID, held0: Holdings, start: map<ShardID, int>, rows: seq<ColdShard>, i: nat, peer: Peer,
               now: int, cooldown: int, moves: seq<ShardID>, before: Holdings, log: map<ShardID, int>, o: Outcome, held: Holdings)
    requires i < |rows| && SoFar(self, target, held0, start, rows, i, peer, now, cooldown, moves, before) && Logged(start, moves, now, log)
    requires held.Keys == before.Keys && NoneLost(before, held) && OthersKept(self, target, before, held)
    requires Placement(rows[i], before[target], held[target])
    requires if o == Moved then rows[i].id in before[self] && rows[i].id in held[target] && held[self] == before[self] - {rows[i].id}
             else held[self] == before[self]
    requires o == Skipped ==>
               var row := rows[i];
               || !((row.id in log ==> now - log[row.id] >= cooldown) && row.id in before[self] && SpreadKept(row, before[target], peer.counts))
               || peer.accepts(row.id) == PlaceFailed || (peer.accepts(row.id) == Accepted && !peer.answers(row.id))
    ensures SoFar(self, target, held0, start, rows, if o == Moved || o == Skipped then i + 1 else i, peer, now, cooldown,
                  if o == Moved then moves + [rows[i].id] else moves, held)
  {
    hide StripeLoad, NoneLost, OthersKept, CapsHold, Shed, Settled, SpreadKept, WithinCap, Stays, Logged;
    LostTransitive(held0, before, held);
    OthersTransitive(self, target, held0, before, held);
    CapsKeep(rows, i, held0[target], before[target], held[target]);
    ShedOne(held0[self], held0[target], rows, i, moves, before[self], before[target], o == Moved, held[self], held[target]);
    if o == Skipped {
      Declined(held0[self], held0[target], start, rows, i, peer, now, cooldown, moves, before[self], before[target], log);
    }
    if o == Moved || o == Skipped {
      SettledMore(held0[self], start, rows, i, peer, now, cooldown, moves, before[target],
                  if o == Moved then moves + [rows[i].id] else moves, held[target]);
    } else {
      StillSettled(held0[self], start, rows, i, peer, now, cooldown, moves, before[target], held[target]);
    }
  }

  lemma NoBudget(self: Load, peer: Load, threshold: real)
    ensures self.capacity <= 0 ==> OffloadBytes(self, peer, threshold) <= 0
  {
  }

  lemma ShedOne(self0: set<ShardID>, target0: set<ShardID>, rows: seq<ColdShard>, i: nat, moves: seq<ShardID>, self: set<ShardID>, target: set<ShardID>,
                gone: bool, self': set<ShardID>, target': set<ShardID>)
    requires Shed(self0, target0, rows, moves, self, target) && i < |rows| && Placement(rows[i], target, target')
    requires if gone then rows[i].id in self && rows[i].id in target' && self' == self - {rows[i].id} else self' == self
    ensures Shed(self0, target0, rows, if gone then moves + [rows[i].id] else moves, self', target')
  {
    hide WithinCap;
    assert gone ==> (set id | id in moves + [rows[i].id]) == (set id | id in moves) + {rows[i].id};
  }

  lemma {:induction false} LoadGrows(held: set<ShardID>, more: set<ShardID>, siblings: seq<ShardID>)
    requires held <= more
    ensures StripeLoad(held, siblings) <= StripeLoad(more, siblings)
  {
    if siblings != [] { LoadGrows(held, more, siblings[..|siblings| - 1]); }
  }

  lemma StillSettled(self0: set<ShardID>, start: map<ShardID, int>, rows: seq<ColdShard>, n: nat, peer: Peer, now: int, cooldown: int,
                     moves: seq<ShardID>, target: set<ShardID>, target': set<ShardID>)
    requires n <= |rows| && Settled(self0, start, rows, n, peer, now, cooldown, moves, target) && target <= target'
    ensures Settled(self0, start, rows, n, peer, now, cooldown, moves, target')
  {
    forall i | 0 <= i < n ensures rows[i].id in moves || Stays(rows[i], self0, start, peer, now, cooldown, target') {
      LoadGrows(target - {rows[i].id}, target' - {rows[i].id}, rows[i].siblings);
    }
  }

  /** A row the target did not take in its turn had been moved in this round, or stays for a reason. */
  lemma Declined(self0: set<ShardID>, target0: set<ShardID>, start: map<ShardID, int>, rows: seq<ColdShard>, i: nat, peer: Peer, now: int, cooldown: int,
                 moves: seq<ShardID>, self: set<ShardID>, target: set<ShardID>, log: map<ShardID, int>)
    requires i < |rows| && Shed(self0, target0, rows, moves, self, target) && Logged(start, moves, now, log)
    requires var row := rows[i];
             || !((row.id in log ==> now - log[row.id] >= cooldown) && row.id in self && SpreadKept(row, target, peer.counts))
             || peer.accepts(row.id) == PlaceFailed || (peer.accepts(row.id) == Accepted && !peer.answers(row.id))
    ensures rows[i].id in moves || Stays(rows[i], self0, start, peer, now, cooldown, target)
  {
    hide StripeLoad;
  }

  lemma SettledMore(self0: set<ShardID>, start: map<ShardID, int>, rows: seq<ColdShard>, n: nat, peer: Peer, now: int, cooldown: int,
                    moves: seq<ShardID>, target: set<ShardID>, moves': seq<ShardID>, target': set<ShardID>)
    requires n < |rows| && Settled(self0, start, rows, n, peer, now, cooldown, moves, target) && target <= target'
    requires forall id :: id in moves ==> id in moves'
    requires rows[n].id in moves' || Stays(rows[n], self0, start, peer, now, cooldown, target)
    ensures Settled(self0, start, rows, n + 1, peer, now, cooldown, moves', target')
  {
    forall i | 0 <= i <= n ensures rows[i].id in moves' || Stays(rows[i], self0, start, peer, now, cooldown, target') {
      LoadGrows(target - {rows[i].id}, target' - {rows[i].id}, rows[i].siblings);
    }
  }

  lemma StoppedBy(self: NodeID, target: NodeID, held0: Holdings, start: map<ShardID, int>, rows: seq<ColdShard>, n: nat, peer: Peer,
                  now: int, cooldown: int, moves: seq<ShardID>, held: Holdings, id: ShardID, steps: nat)
    requires SoFar(self, target, held0, start, rows, n, peer, now, cooldown, moves, held)
    requires target in held && Refuses(peer, id, held[target], steps)
    ensures target in held0 && Refuses(peer, id, held0[target], 1)
  {
    hide StripeLoad, NoneLost, OthersKept, CapsHold, Settled;
  }

  lemma RoundLog(start: map<ShardID, int>, moves: seq<ShardID>, now: int, log: map<ShardID, int>,
                 cooldown: int, size: SizeOf, total: int, budget: int)
    requires Round(start, moves, now, log, cooldown, size, total, budget)
    ensures Logged(start, moves, now, log)
  {
  }

  /** The cooldown memory stays good as time passes. */
  lemma ClockForward(rb: Rebalancer, clock: int, now: int)
    requires rb.Valid(clock) && clock <= now
    ensures rb.Valid(now)
  {
  }
}

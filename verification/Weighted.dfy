/** Smooth weighted round-robin node selection. */
module Weighted {
  import opened Core

  type NodeID = string

  datatype Node = Node(id: NodeID, domain: string, free: int, rawWeight: int, down: bool) {
    function Weight(): (w: int)
      ensures 1 <= w
    {
      if rawWeight <= 0 then 1 else rawWeight
    }
  }

  // ---------------------------------------------------------------- sums

  function Sum(s: seq<int>): int {
    if s == [] then 0 else Sum(s[..|s| - 1]) + s[|s| - 1]
  }

  lemma {:induction false} SumUpdate(s: seq<int>, i: nat, d: int)
    requires i < |s|
    ensures Sum(s[i := s[i] + d]) == Sum(s) + d
  {
    var s' := s[i := s[i] + d];
    if i < |s| - 1 {
      assert s'[..|s| - 1] == s[..|s| - 1][i := s[i] + d];
      SumUpdate(s[..|s| - 1], i, d);
    } else {
      assert s'[..|s| - 1] == s[..|s| - 1];
    }
  }

  lemma {:induction false} SumAdd(a: seq<int>, b: seq<int>, c: seq<int>)
    requires |a| == |b| == |c| && forall i :: 0 <= i < |a| ==> c[i] == a[i] + b[i]
    ensures Sum(c) == Sum(a) + Sum(b)
  {
    if a != [] { SumAdd(a[..|a| - 1], b[..|b| - 1], c[..|c| - 1]); }
  }

  lemma {:induction false} SumPositive(s: seq<int>)
    requires Sum(s) > 0
    ensures exists i :: 0 <= i < |s| && s[i] > 0
  {
    if s[|s| - 1] <= 0 {
      SumPositive(s[..|s| - 1]);
      var i :| 0 <= i < |s| - 1 && s[..|s| - 1][i] > 0;
      assert s[i] > 0;
    }
  }

  lemma {:induction false} SumScale(s: seq<int>, k: int, t: seq<int>)
    requires |t| == |s| && forall i :: 0 <= i < |s| ==> t[i] == Times(k, s[i])
    ensures Sum(t) == Times(k, Sum(s))
  {
    if s != [] { SumScale(s[..|s| - 1], k, t[..|t| - 1]); }
  }

  lemma {:induction false} SumMonotone(a: seq<int>, b: seq<int>)
    requires |a| == |b| && forall i :: 0 <= i < |a| ==> a[i] <= b[i]
    ensures Sum(a) <= Sum(b)
    ensures Sum(a) == Sum(b) ==> a == b
  {
    if a != [] {
      SumMonotone(a[..|a| - 1], b[..|b| - 1]);
      assert a == a[..|a| - 1] + [a[|a| - 1]] && b == b[..|b| - 1] + [b[|b| - 1]];
    }
  }

  /** A product, kept folded where only the laws below are used. */
  function Times(a: int, b: int): int {
    a * b
  }

  lemma TimesNext(a: int, b: int)
    ensures Times(a + 1, b) == Times(a, b) + b && Times(b, a + 1) == Times(b, a) + b && Times(0, b) == Times(b, 0) == 0
  {
  }

  lemma TimesSwap(k: int, t: int, w: int, c: int)
    ensures Times(Times(k, t), w) - Times(t, c) == Times(t, Times(k, w) - c)
  {
    assert (k * t) * w == t * (k * w);
  }

  lemma TimesNonNegative(a: int, b: int)
    requires 0 <= a && 0 <= b
    ensures 0 <= Times(a, b)
  {
  }

  lemma TimesAbove(t: int, p: int)
    requires t > 0 && -t < Times(t, p)
    ensures 0 <= p
  {
    if p < 0 {
      assert Times(t, p + 1) == Times(t, p) + t;
      TimesNonPositive(t, p + 1);
    }
  }

  lemma {:induction false} TimesNonPositive(t: int, q: int)
    requires t > 0 && q <= 0
    ensures Times(t, q) <= 0
    decreases -q
  {
    if q < 0 {
      TimesNonPositive(t, q + 1);
      assert Times(t, q + 1) == Times(t, q) + t;
    }
  }

  // ---------------------------------------------------------------- the scan

  datatype Best = Best(value: int, at: int)

  /** The scan over the first k values, started at -1 as the program starts it. */
  function Scan(v: seq<int>, k: nat): (b: Best)
    requires k <= |v|
    ensures k > 0 ==> 0 <= b.at < k
  {
    if k == 0 then Best(-1, -1)
    else
      var b := Scan(v, k - 1);
      if b.value < 0 || v[k - 1] > b.value then Best(v[k - 1], k - 1) else b
  }

  ghost predicate IsMax(v: seq<int>, i: int) {
    0 <= i < |v| && forall j :: 0 <= j < |v| ==> v[j] <= v[i]
  }

  /** With a non-negative value among them the scan ends at the first maximum; otherwise at the last value. */
  lemma {:induction false} ScanMeans(v: seq<int>, k: nat)
    requires k <= |v|
    ensures var b := Scan(v, k);
            && (k > 0 ==> 0 <= b.at < k && v[b.at] == b.value)
            && ((exists j :: 0 <= j < k && v[j] >= 0) ==>
                  b.value >= 0 && (forall j :: 0 <= j < k ==> v[j] <= b.value) && (forall j :: 0 <= j < b.at ==> v[j] < b.value))
            && ((forall j :: 0 <= j < k ==> v[j] < 0) ==> b.value < 0 && b.at == k - 1)
  {
    if k > 0 { ScanMeans(v, k - 1); }
  }

  /** The scan finds a true maximum exactly when some value is non-negative or the last one is a maximum. */
  lemma ScanFindsMaxIff(v: seq<int>)
    requires v != []
    ensures IsMax(v, Scan(v, |v|).at) <==> (exists j :: 0 <= j < |v| && v[j] >= 0) || IsMax(v, |v| - 1)
  {
    ScanMeans(v, |v|);
    if forall j :: 0 <= j < |v| ==> v[j] < 0 {
      assert Scan(v, |v|).at == |v| - 1;
    }
  }

  // ---------------------------------------------------------------- one pick and many

  function Bump(cur: seq<int>, w: seq<int>): (v: seq<int>)
    requires |cur| == |w|
    ensures |v| == |cur| && forall i :: 0 <= i < |v| ==> v[i] == cur[i] + w[i]
  {
    seq(|cur|, i requires 0 <= i < |cur| => cur[i] + w[i])
  }

  /** Running weights and how often each node was chosen. */
  datatype Run = Run(cur: seq<int>, count: seq<int>)

  function Winner(cur: seq<int>, w: seq<int>): (i: int)
    requires |cur| == |w| > 0
    ensures 0 <= i < |w|
  {
    Scan(Bump(cur, w), |w|).at
  }

  function Step(r: Run, w: seq<int>): (s: Run)
    requires |r.cur| == |r.count| == |w| > 0
    ensures |s.cur| == |s.count| == |w|
  {
    var v, i := Bump(r.cur, w), Winner(r.cur, w);
    Run(v[i := v[i] - Sum(w)], r.count[i := r.count[i] + 1])
  }

  /** t picks from a fresh selector over nodes of weights w. */
  function Picks(w: seq<int>, t: nat): (r: Run)
    requires w != []
    ensures |r.cur| == |r.count| == |w|
  {
    if t == 0 then Run(Repeat(0, |w|), Repeat(0, |w|)) else Step(Picks(w, t - 1), w)
  }

  ghost predicate Weights(w: seq<int>) {
    w != [] && forall i :: 0 <= i < |w| ==> 1 <= w[i]
  }

  /** After t picks: weights balance, each is t times the node's weight less W per pick won, and above -W. */
  ghost predicate Balanced(w: seq<int>, t: nat, r: Run)
    requires |r.cur| == |r.count| == |w|
  {
    && Sum(r.cur) == 0 && Sum(r.count) == t
    && forall i :: 0 <= i < |w| ==> ShareAt(w, t, r, i)
  }

  ghost predicate ShareAt(w: seq<int>, t: nat, r: Run, i: nat)
    requires |r.cur| == |r.count| == |w| && i < |w|
  {
    r.cur[i] == Times(t, w[i]) - Times(Sum(w), r.count[i]) && -Sum(w) < r.cur[i]
  }

  lemma {:induction false} ZeroSum(n: nat)
    ensures Sum(Repeat(0, n)) == 0
  {
    if n > 0 {
      assert Repeat(0, n)[..n - 1] == Repeat(0, n - 1);
      ZeroSum(n - 1);
    }
  }

  lemma {:induction false} WeightsPositive(w: seq<int>)
    requires Weights(w)
    ensures Sum(w) >= |w| > 0
  {
    if |w| > 1 { WeightsPositive(w[..|w| - 1]); } else { assert Sum(w[..0]) == 0; }
  }

  /** Every pick takes a true maximum of the bumped weights, and that maximum is positive. */
  lemma PickIsMax(w: seq<int>, cur: seq<int>)
    requires Weights(w) && |cur| == |w| && Sum(cur) == 0
    ensures IsMax(Bump(cur, w), Winner(cur, w)) && Bump(cur, w)[Winner(cur, w)] > 0
    ensures Sum(Bump(cur, w)) == Sum(w)
  {
    var v := Bump(cur, w);
    WeightsPositive(w);
    SumAdd(cur, w, v);
    SumPositive(v);
    ScanMeans(v, |v|);
  }

  lemma {:induction false} PicksBalanced(w: seq<int>, t: nat)
    requires Weights(w)
    ensures Balanced(w, t, Picks(w, t))
  {
    hide Times, Step, Sum;
    WeightsPositive(w);
    if t == 0 {
      ZeroSum(|w|);
      forall i | 0 <= i < |w| ensures ShareAt(w, 0, Picks(w, 0), i) {
        TimesNext(0, w[i]);
        TimesNext(0, Sum(w));
      }
    } else {
      PicksBalanced(w, t - 1);
      StepBalanced(w, t - 1, Picks(w, t - 1));
    }
  }

  lemma StepBalanced(w: seq<int>, t: nat, r: Run)
    requires Weights(w) && |r.cur| == |r.count| == |w| && Balanced(w, t, r)
    ensures Balanced(w, t + 1, Step(r, w))
  {
    hide Times, Step, Sum;
    StepSums(w, t, r);
    var later, next := t + 1, Step(r, w);
    forall i | 0 <= i < |w| ensures ShareAt(w, later, next, i) { StepShare(w, t, r, i); }
  }

  lemma StepSums(w: seq<int>, t: nat, r: Run)
    requires Weights(w) && |r.cur| == |r.count| == |w| && Balanced(w, t, r)
    ensures Sum(Step(r, w).cur) == 0 && Sum(Step(r, w).count) == t + 1
  {
    hide Times, Bump, Scan, Sum, Winner;
    PickIsMax(w, r.cur);
    SumUpdate(Bump(r.cur, w), Winner(r.cur, w), -Sum(w));
    SumUpdate(r.count, Winner(r.cur, w), 1);
  }

  lemma StepShare(w: seq<int>, t: nat, r: Run, i: nat)
    requires Weights(w) && |r.cur| == |r.count| == |w| && i < |w| && Balanced(w, t, r)
    ensures ShareAt(w, t + 1, Step(r, w), i)
  {
    hide Times, Bump, Scan, Sum, Winner, IsMax;
    PickIsMax(w, r.cur);
    WeightsPositive(w);
    assert ShareAt(w, t, r, i);
    TimesNext(t, w[i]);
    TimesNext(r.count[i], Sum(w));
  }

  /** No node is ever a whole pick ahead of its share: count < t * weight / W + 1. */
  lemma NeverAhead(w: seq<int>, t: nat, i: nat)
    requires Weights(w) && i < |w|
    ensures Sum(w) * Picks(w, t).count[i] < t * w[i] + Sum(w)
  {
    PicksBalanced(w, t);
    assert ShareAt(w, t, Picks(w, t), i);
  }

  /** After every W picks each node was chosen exactly in proportion, and the selector is as fresh. */
  lemma ExactlyFair(w: seq<int>, k: nat)
    requires Weights(w)
    ensures 0 <= k * Sum(w)
    ensures var r := Picks(w, k * Sum(w));
            r.cur == Repeat(0, |w|) && forall i :: 0 <= i < |w| ==> r.count[i] == k * w[i]
  {
    WeightsPositive(w);
    TimesNonNegative(k, Sum(w));
    PicksBalanced(w, k * Sum(w));
    FairShares(w, k, Picks(w, k * Sum(w)));
  }

  function Shares(w: seq<int>, k: int): (s: seq<int>)
    ensures |s| == |w| && forall i :: 0 <= i < |w| ==> s[i] == Times(k, w[i])
  {
    seq(|w|, i requires 0 <= i < |w| => Times(k, w[i]))
  }

  lemma FairShares(w: seq<int>, k: nat, r: Run)
    requires Weights(w) && |r.cur| == |r.count| == |w|
    requires 0 <= Times(k, Sum(w)) && Balanced(w, Times(k, Sum(w)), r)
    ensures r.cur == Repeat(0, |w|) && forall i :: 0 <= i < |w| ==> r.count[i] == Times(k, w[i])
  {
    hide Times, Sum;
    var total := Sum(w);
    WeightsPositive(w);
    var share := Shares(w, k);
    SumScale(w, k, share);
    forall i | 0 <= i < |w| ensures r.cur[i] == Times(total, share[i] - r.count[i]) && r.count[i] <= share[i] {
      assert ShareAt(w, Times(k, total), r, i);
      TimesSwap(k, total, w[i], r.count[i]);
      TimesAbove(total, share[i] - r.count[i]);
    }
    SumMonotone(r.count, share);
    TimesNext(0, total);
    assert r.cur == Repeat(0, |w|);
  }

  // ---------------------------------------------------------------- the selector

  function Usable(candidates: seq<Node>): seq<Node> {
    if candidates == [] then []
    else
      var last := candidates[|candidates| - 1];
      Usable(candidates[..|candidates| - 1]) + if last.down then [] else [last]
  }

  function WeightsOf(nodes: seq<Node>): (w: seq<int>)
    ensures |w| == |nodes| && forall i :: 0 <= i < |w| ==> w[i] == nodes[i].Weight() == if nodes[i].rawWeight <= 0 then 1 else nodes[i].rawWeight
  {
    seq(|nodes|, i requires 0 <= i < |nodes| => nodes[i].Weight())
  }

  ghost predicate DistinctIDs(nodes: seq<Node>) {
    forall i, j :: 0 <= i < j < |nodes| ==> nodes[i].id != nodes[j].id
  }

  function Running(current: map<NodeID, int>, id: NodeID): int {
    if id in current then current[id] else 0
  }

  /** The running weights of the given nodes; a node not yet seen has 0. */
  function View(current: map<NodeID, int>, nodes: seq<Node>): (v: seq<int>)
    ensures |v| == |nodes| && forall i :: 0 <= i < |v| ==> v[i] == Running(current, nodes[i].id)
  {
    seq(|nodes|, i requires 0 <= i < |nodes| => Running(current, nodes[i].id))
  }

  function IDs(nodes: seq<Node>): set<NodeID> {
    if nodes == [] then {} else IDs(nodes[..|nodes| - 1]) + {nodes[|nodes| - 1].id}
  }

  lemma {:induction false} IDsHold(nodes: seq<Node>, i: nat)
    requires i < |nodes|
    ensures nodes[i].id in IDs(nodes)
  {
    if i < |nodes| - 1 { IDsHold(nodes[..|nodes| - 1], i); }
  }

  lemma {:induction false} IDsFrom(nodes: seq<Node>, id: NodeID)
    ensures id in IDs(nodes) <==> exists i :: 0 <= i < |nodes| && nodes[i].id == id
  {
    if nodes != [] { IDsFrom(nodes[..|nodes| - 1], id); }
  }

  /** Identifiers are distinct exactly when there are as many as nodes. */
  lemma {:induction false} DistinctCount(nodes: seq<Node>)
    ensures |IDs(nodes)| <= |nodes| && (DistinctIDs(nodes) <==> |IDs(nodes)| == |nodes|)
  {
    if nodes != [] {
      var front, last := nodes[..|nodes| - 1], nodes[|nodes| - 1];
      DistinctCount(front);
      IDsFrom(front, last.id);
      assert DistinctIDs(nodes) <==> DistinctIDs(front) && forall i :: 0 <= i < |front| ==> front[i].id != last.id;
      assert last.id in IDs(front) ==> IDs(nodes) == IDs(front);
    }
  }

  datatype PickError = NoCandidates

  class Selector {
    var current: map<NodeID, int>

    constructor ()
      ensures current == map[]
    {
      current := map[];
    }

    /** One pick: exactly one step of the model on the usable candidates, forgetting nodes that left. */
    method Pick(candidates: seq<Node>) returns (r: Result<NodeID, PickError>)
      modifies this
      ensures Usable(candidates) == [] ==> r == Err(NoCandidates) && current == old(current)
      ensures OnePick(Usable(candidates), old(current), r, current)
    {
      hide IDs, Sum, View, WeightsOf, OnePick, BumpedAll, Usable;
      var us := UsableNodes(candidates);
      if |us| == 0 {
        r := Err(NoCandidates);
        NoPick(us, current, r);
      } else {
        DropDeparted(us);
        SameView(old(current), current, us);
        var total, winner := BumpAll(us);
        FinishPick(us, old(current), current, winner);
        current := current[winner := current[winner] - total];
        r := Ok(winner);
      }
    }

    /** Forget the running weights of nodes that are no longer candidates. */
    method DropDeparted(us: seq<Node>)
      modifies this
      ensures current == map id | id in old(current) && id in IDs(us) :: old(current)[id]
    {
      var kept: map<NodeID, int> := map[];
      var keys := current.Keys;
      while keys != {}
        invariant keys <= current.Keys
        invariant kept == map id | id in current && id in IDs(us) && id !in keys :: current[id]
        decreases keys
      {
        var id :| id in keys;
        if id in IDs(us) {
          kept := kept[id := current[id]];
        }
        keys := keys - {id};
      }
      current := kept;
    }

    /** Raise every running weight by the node's weight, scanning for the highest on the way. */
    method BumpAll(us: seq<Node>) returns (total: int, winner: NodeID)
      requires us != [] && current.Keys <= IDs(us)
      modifies this
      ensures total == Sum(WeightsOf(us)) && current.Keys == IDs(us) && winner in current
      ensures BumpedAll(us, View(old(current), us), current, winner)
    {
      hide Bump, View, WeightsOf, BumpedTo, DistinctIDs, Sum, IDs, BumpedAll;
      ghost var cur, w := View(current, us), WeightsOf(us);
      ghost var v := Bump(cur, w);
      ViewStart(current, us, v);
      NoneYet();
      assert w[..0] == [] && us[..0] == [];
      var best := -1;
      total, winner := 0, "";
      for i := 0 to |us|
        invariant total == Sum(w[..i])
        invariant current.Keys == old(current).Keys + IDs(us[..i])
        invariant DistinctIDs(us) ==> BumpedTo(current, us, cur, v, i)
        invariant DistinctIDs(us) ==> best == Scan(v, i).value && (i > 0 ==> 0 <= Scan(v, i).at < i && winner == us[Scan(v, i).at].id)
        invariant if i == 0 then best == -1 else winner in current
      {
        OneMore(us, w, i);
        var wt := us[i].Weight();
        total := total + wt;
        var bumped := Running(current, us[i].id) + wt;
        if DistinctIDs(us) { BumpOne(current, us, cur, v, i); }
        current := current[us[i].id := bumped];
        if best < 0 || bumped > best {
          best, winner := bumped, us[i].id;
        }
      }
      assert w[..|us|] == w && us[..|us|] == us;
      AllBumped(us, cur, current, winner);
    }
  }

  lemma NoneYet()
    ensures Sum([]) == 0 && IDs([]) == {}
  {
  }

  lemma OneMore(us: seq<Node>, w: seq<int>, i: nat)
    requires i < |us| == |w|
    ensures Sum(w[..i + 1]) == Sum(w[..i]) + w[i] && IDs(us[..i + 1]) == IDs(us[..i]) + {us[i].id}
  {
    assert w[..i + 1][..i] == w[..i] && us[..i + 1][..i] == us[..i];
  }

  lemma AllBumped(us: seq<Node>, cur: seq<int>, current: map<NodeID, int>, winner: NodeID)
    requires |cur| == |us| > 0
    requires DistinctIDs(us) ==>
               var v := Bump(cur, WeightsOf(us));
               BumpedTo(current, us, cur, v, |us|) && winner == us[Scan(v, |us|).at].id
    ensures BumpedAll(us, cur, current, winner)
  {
  }

  /** Every running weight has been raised and the winner is the one the scan finds. */
  ghost predicate BumpedAll(us: seq<Node>, cur: seq<int>, current: map<NodeID, int>, winner: NodeID)
    requires |cur| == |us|
  {
    DistinctIDs(us) ==>
      var v := Bump(cur, WeightsOf(us));
      && BumpedTo(current, us, cur, v, |us|)
      && 0 <= Scan(v, |us|).at < |us| && winner == us[Scan(v, |us|).at].id
  }

  lemma SameView(was: map<NodeID, int>, kept: map<NodeID, int>, us: seq<Node>)
    requires kept == map id | id in was && id in IDs(us) :: was[id]
    ensures View(kept, us) == View(was, us)
  {
    hide IDs;
    forall i | 0 <= i < |us| ensures us[i].id in IDs(us) { IDsHold(us, i); }
  }

  /** The first i running weights have been raised, the others not yet. */
  ghost predicate BumpedTo(current: map<NodeID, int>, us: seq<Node>, cur: seq<int>, v: seq<int>, i: int)
    requires |cur| == |v| == |us|
  {
    forall j :: 0 <= j < |us| ==> Running(current, us[j].id) == if j < i then v[j] else cur[j]
  }

  lemma ViewStart(current: map<NodeID, int>, us: seq<Node>, v: seq<int>)
    requires |v| == |us|
    ensures BumpedTo(current, us, View(current, us), v, 0)
  {
  }

  lemma BumpOne(current: map<NodeID, int>, us: seq<Node>, cur: seq<int>, v: seq<int>, i: nat)
    requires |cur| == |v| == |us| && i < |us| && DistinctIDs(us) && BumpedTo(current, us, cur, v, i)
    requires v == Bump(cur, WeightsOf(us))
    ensures Running(current, us[i].id) + us[i].Weight() == v[i]
    ensures BumpedTo(current[us[i].id := v[i]], us, cur, v, i + 1)
  {
  }

  /** Exactly one step of the model on these nodes. */
  ghost predicate OnePick(us: seq<Node>, was: map<NodeID, int>, r: Result<NodeID, PickError>, now: map<NodeID, int>) {
    us != [] && DistinctIDs(us) ==>
      var w, cur := WeightsOf(us), View(was, us);
      && r == Ok(us[Winner(cur, w)].id)
      && View(now, us) == Step(Run(cur, Repeat(0, |us|)), w).cur
      && now.Keys == IDs(us)
  }

  lemma NoPick(us: seq<Node>, was: map<NodeID, int>, r: Result<NodeID, PickError>)
    requires us == []
    ensures OnePick(us, was, r, was)
  {
  }

  lemma FinishPick(us: seq<Node>, was: map<NodeID, int>, current: map<NodeID, int>, winner: NodeID)
    requires us != [] && winner in current && current.Keys == IDs(us)
    requires BumpedAll(us, View(was, us), current, winner)
    ensures OnePick(us, was, Ok(winner), current[winner := current[winner] - Sum(WeightsOf(us))])
  {
    hide IDs, Bump, View, WeightsOf, Repeat, Sum, Scan;
    if DistinctIDs(us) {
      var cur, w := View(was, us), WeightsOf(us);
      var v := Bump(cur, w);
      var k := Scan(v, |us|).at;
      var now := current[winner := current[winner] - Sum(w)];
      forall j | 0 <= j < |us| ensures View(now, us)[j] == v[k := v[k] - Sum(w)][j] {
        if j < k { assert us[j].id != us[k].id; }
        if k < j { assert us[k].id != us[j].id; }
      }
      assert View(now, us) == v[k := v[k] - Sum(w)];
    }
  }

  method UsableNodes(candidates: seq<Node>) returns (us: seq<Node>)
    ensures us == Usable(candidates)
  {
    us := [];
    for i := 0 to |candidates|
      invariant us == Usable(candidates[..i])
    {
      assert candidates[..i + 1][..i] == candidates[..i];
      if !candidates[i].down {
        us := us + [candidates[i]];
      }
    }
    assert candidates[..|candidates|] == candidates;
  }

  /** What t picks over the same usable nodes promise: the model's counts, hence each node's share. */
  ghost predicate FairPicks(us: seq<Node>, t: nat, current: map<NodeID, int>, picks: seq<NodeID>)
    requires us != []
  {
    var w := WeightsOf(us);
    && |picks| == t && View(current, us) == Picks(w, t).cur
    && Counted(us, picks, Picks(w, t).count)
    && (forall i :: 0 <= i < |us| ==> Sum(w) * multiset(picks)[us[i].id] < t * w[i] + Sum(w))
    && (0 < Sum(w) && t % Sum(w) == 0 ==>
          forall i :: 0 <= i < |us| ==> multiset(picks)[us[i].id] == t / Sum(w) * w[i])
  }

  ghost predicate Counted(us: seq<Node>, picks: seq<NodeID>, count: seq<int>)
    requires |count| == |us|
  {
    forall i :: 0 <= i < |us| ==> multiset(picks)[us[i].id] == count[i]
  }

  lemma CountOne(us: seq<Node>, picks: seq<NodeID>, count: seq<int>, k: nat)
    requires |count| == |us| && k < |us| && DistinctIDs(us) && Counted(us, picks, count)
    ensures Counted(us, picks + [us[k].id], count[k := count[k] + 1])
  {
    forall i | 0 <= i < |us| ensures multiset(picks + [us[k].id])[us[i].id] == count[k := count[k] + 1][i] {
      if i < k { assert us[i].id != us[k].id; }
      if k < i { assert us[k].id != us[i].id; }
    }
  }

  lemma StepCount(us: seq<Node>, was: map<NodeID, int>, id: NodeID, now: map<NodeID, int>, picks: seq<NodeID>, t: nat)
    requires us != [] && DistinctIDs(us) && OnePick(us, was, Ok(id), now)
    requires View(was, us) == Picks(WeightsOf(us), t).cur && Counted(us, picks, Picks(WeightsOf(us), t).count)
    ensures View(now, us) == Picks(WeightsOf(us), t + 1).cur
    ensures Counted(us, picks + [id], Picks(WeightsOf(us), t + 1).count)
  {
    hide View, WeightsOf, Winner, Bump, Sum, Repeat, IDs, Counted, DistinctIDs;
    var r := Picks(WeightsOf(us), t);
    CountOne(us, picks, r.count, Winner(r.cur, WeightsOf(us)));
  }

  lemma SharesHold(us: seq<Node>, t: nat, current: map<NodeID, int>, picks: seq<NodeID>)
    requires us != [] && |picks| == t
    requires View(current, us) == Picks(WeightsOf(us), t).cur && Counted(us, picks, Picks(WeightsOf(us), t).count)
    ensures FairPicks(us, t, current, picks)
  {
    hide Sum, Picks, View;
    var w := WeightsOf(us);
    forall i | 0 <= i < |us| ensures Sum(w) * multiset(picks)[us[i].id] < t * w[i] + Sum(w) {
      NeverAhead(w, t, i);
    }
    if 0 < Sum(w) && t % Sum(w) == 0 {
      ExactlyFair(w, t / Sum(w));
    }
  }

  /** t picks by a fresh selector from the same candidates. */
  method PickMany(s: Selector, candidates: seq<Node>, t: nat) returns (picks: seq<NodeID>)
    requires s.current == map[]
    modifies s
    ensures Usable(candidates) == [] ==> picks == []
    ensures Usable(candidates) != [] && DistinctIDs(Usable(candidates)) ==> FairPicks(Usable(candidates), t, s.current, picks)
  {
    hide OnePick, View, WeightsOf, Usable, DistinctIDs, Picks, FairPicks;
    ghost var us := Usable(candidates);
    picks := [];
    if us != [] { NothingPicked(us); }
    for k := 0 to t
      invariant us == [] ==> picks == []
      invariant us != [] && DistinctIDs(us) ==>
                  |picks| == k && View(s.current, us) == Picks(WeightsOf(us), k).cur && Counted(us, picks, Picks(WeightsOf(us), k).count)
    {
      label Before:
      var r := s.Pick(candidates);
      if us != [] && DistinctIDs(us) {
        Picked(us, old@Before(s.current), r, s.current);
        StepCount(us, old@Before(s.current), r.value, s.current, picks, k);
      }
      if r.Ok? { picks := picks + [r.value]; }
    }
    if us != [] && DistinctIDs(us) { SharesHold(us, t, s.current, picks); }
  }

  lemma NothingPicked(us: seq<Node>)
    requires us != []
    ensures View(map[], us) == Picks(WeightsOf(us), 0).cur && Counted(us, [], Picks(WeightsOf(us), 0).count)
  {
    assert View(map[], us) == Repeat(0, |us|);
  }

  lemma Picked(us: seq<Node>, was: map<NodeID, int>, r: Result<NodeID, PickError>, now: map<NodeID, int>)
    requires us != [] && DistinctIDs(us) && OnePick(us, was, r, now)
    ensures r.Ok?
  {
  }

  /** Weights from advertised free space, in whole units and never below one. */
  method WeightByFree(candidates: seq<Node>, unitBytes: int) returns (out: seq<Node>)
    ensures |out| == |candidates|
    ensures var unit := if unitBytes <= 0 then 1 else unitBytes;
            forall i :: 0 <= i < |out| ==>
              && out[i].(rawWeight := candidates[i].rawWeight) == candidates[i]
              && 1 <= out[i].rawWeight
              && (candidates[i].free < 2 * unit ==> out[i].rawWeight == 1)
              && (unit <= candidates[i].free ==>
                    unit * out[i].rawWeight <= candidates[i].free < unit * out[i].rawWeight + unit)
  {
    var unit := if unitBytes <= 0 then 1 else unitBytes;
    out := candidates;
    for i := 0 to |candidates|
      invariant |out| == |candidates|
      invariant forall j :: i <= j < |out| ==> out[j] == candidates[j]
      invariant forall j :: 0 <= j < i ==> out[j] == candidates[j].(rawWeight := UnitWeight(candidates[j].free, unit))
    {
      out := out[i := out[i].(rawWeight := UnitWeight(out[i].free, unit))];
    }
    forall i | 0 <= i < |out|
      ensures candidates[i].free < 2 * unit ==> out[i].rawWeight == 1
      ensures unit <= candidates[i].free ==> unit * out[i].rawWeight <= candidates[i].free < unit * out[i].rawWeight + unit
    {
      UnitWeightMeans(candidates[i].free, unit);
    }
  }

  /** Integer division truncates toward zero, so only non-negative space matters under the floor of one. */
  function UnitWeight(free: int, unit: int): (w: int)
    requires unit > 0
    ensures 1 <= w
  {
    if free < unit then 1 else free / unit
  }

  lemma UnitWeightMeans(free: int, unit: int)
    requires unit > 0
    ensures free < 2 * unit ==> UnitWeight(free, unit) == 1
    ensures unit <= free ==> unit * UnitWeight(free, unit) <= free < unit * UnitWeight(free, unit) + unit
  {
  }

  /**
   * When nodes leave, the remaining running weights need not balance, and the scan can pass over the
   * maximum. Four nodes of weights 4, 3, 3, 3: after two picks the last two leave, and the scan of the
   * first two (-1 and -4 after the bump) takes the second.
   */
  lemma ShrunkenSetMisses()
    ensures var w := [4, 3, 3, 3];
            var v := Bump(Picks(w, 2).cur[..2], w[..2]);
            Scan(v, 2).at == 1 && v[1] < v[0]
  {
    var w := [4, 3, 3, 3];
    TotalThirteen();
    hide Sum, Bump, Repeat, Scan, Winner;
    var z := Repeat(0, 4);
    Wins(z, w, 0);
    assert Picks(w, 1).cur == [-9, 3, 3, 3] by { assert Bump(z, w) == [4, 3, 3, 3]; }
    Wins([-9, 3, 3, 3], w, 1);
    assert Picks(w, 2).cur == [-5, -7, 6, 6] by { assert Bump([-9, 3, 3, 3], w) == [-5, 6, 6, 6]; }
    var v := Bump([-5, -7], [4, 3]);
    assert v == [-1, -4] && [-5, -7, 6, 6][..2] == [-5, -7] && w[..2] == [4, 3];
    ScanMeans(v, 2);
  }

  lemma TotalThirteen()
    ensures Sum([4, 3, 3, 3]) == 13
  {
    var w := [4, 3, 3, 3];
    assert w[..3] == [4, 3, 3] && w[..3][..2] == [4, 3] && w[..3][..2][..1] == [4] && w[..3][..2][..1][..0] == [];
    assert Sum([4]) == 4 && Sum([4, 3]) == 7 && Sum([4, 3, 3]) == 10;
  }

  lemma Wins(cur: seq<int>, w: seq<int>, i: nat)
    requires |cur| == |w| && i < |w| && 0 <= cur[i] + w[i]
    requires forall j :: 0 <= j < |w| ==> cur[j] + w[j] <= cur[i] + w[i] - if j < i then 1 else 0
    ensures Winner(cur, w) == i
  {
    FirstMax(Bump(cur, w), i);
  }

  lemma FirstMax(v: seq<int>, i: nat)
    requires i < |v| && 0 <= v[i] && (forall j :: 0 <= j < i ==> v[j] < v[i]) && (forall j :: 0 <= j < |v| ==> v[j] <= v[i])
    ensures Scan(v, |v|).at == i
  {
    ScanMeans(v, |v|);
    var b := Scan(v, |v|);
    hide Scan;
    assert v[b.at] == v[i];
  }
}

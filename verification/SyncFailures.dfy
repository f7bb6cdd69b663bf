/** Passes in which operations fail: when the agreement recorded afterwards is the truth. */
module SyncFailures {
  import opened Core
  import opened Reconcile
  import opened SyncTree
  import opened SyncLinks
  import opened SyncPass
  import opened SyncFixpoint

  /** A remote delete that went through takes p with it. */
  ghost predicate RemovedAbove(faults: Faults, policy: Policy, base: Base, local: LocalDisk, remote: RemoteStore, p: Path) {
    exists a :: RemovedAt(faults, policy, base, local, remote, a) && IsPrefix(a, p)
  }

  ghost predicate RemovedAt(faults: Faults, policy: Policy, base: Base, local: LocalDisk, remote: RemoteStore, a: Path) {
    Emits(policy, base, local, remote, a, DeleteRemote, DeleteRemote) && Whole(faults, a)
  }

  /**
   * What the failed operation at p left is no false agreement. A transfer that wrote nothing left two versions: they
   * were the same. A file cut short was all there, or it is gone from the store. A link cut short is gone, and
   * what failed late was done.
   */
  ghost predicate LeftTrue(faults: Faults, policy: Policy, base: Base, local: LocalDisk, remote: RemoteStore, p: Path) {
    var op := DecisionOf(policy, base, local, remote, p).op;
    p in faults && op.Some? && !faults[p].Late? ==>
      if op.value.kind == Download && faults[p].Midway? then
        p in remote && remote[p].item.LeafItem? && !remote[p].item.isSymlink ==>
          |remote[p].item.data| <= faults[p].bytes || RemovedAbove(faults, policy, base, local, remote, p)
      else p in local && p in remote ==> local[p].item == remote[p].item
  }

  ghost predicate FailuresTrue(faults: Faults, policy: Policy, base: Base, local: LocalDisk, remote: RemoteStore) {
    forall p :: LeftTrue(faults, policy, base, local, remote, p)
  }

  /** No operation that gets that far writes a file onto a link. */
  ghost predicate LinksLeft(faults: Faults, policy: Policy, base: Base, local: LocalDisk, remote: RemoteStore) {
    forall p :: Acts(faults, p) ==> !Overwrites(policy, base, local, remote, p)
  }

  // ---------------------------------------------------------------- where each path ends

  /** A download wrote at p; of a link cut short nothing is left. */
  ghost predicate Fetched(faults: Faults, policy: Policy, base: Base, local: LocalDisk, remote: RemoteStore, p: Path) {
    Emits(policy, base, local, remote, p, Download, Download) && Acts(faults, p)
  }

  ghost predicate LinkDropped(faults: Faults, policy: Policy, base: Base, local: LocalDisk, remote: RemoteStore, p: Path) {
    Fetched(faults, policy, base, local, remote, p) && !Whole(faults, p) && IsLink(RemoteTree(remote), p)
  }

  ghost predicate Stored(faults: Faults, policy: Policy, base: Base, local: LocalDisk, remote: RemoteStore, p: Path) {
    Emits(policy, base, local, remote, p, Upload, Upload) && Whole(faults, p)
  }

  ghost predicate LeafAt(l: Tree, r: Tree, p: Path) {
    (p in l || p in r) && (p in l ==> l[p] != DirItem) && (p in r ==> r[p] != DirItem)
  }

  lemma TotalHas(faults: Faults, ops: seq<Op>, r: Tree, i: nat)
    requires i < |ops| && forall j :: 0 <= j < |ops| ==> ops[j].path != []
    ensures var m, one := Total(faults, ops, |ops|, r), MovesBy(faults, ops[i], r);
            one.sent <= m.sent && one.sentBack <= m.sentBack && one.gone <= m.gone && one.goneBack <= m.goneBack
  {
    hide MovesBy;
  }

  lemma Origin(faults: Faults, ops: seq<Op>, r: Tree, x: Path)
    requires forall j :: 0 <= j < |ops| ==> ops[j].path != []
    ensures var m := Total(faults, ops, |ops|, r);
            && (x in m.sent ==> exists i :: 0 <= i < |ops| && x in MovesBy(faults, ops[i], r).sent)
            && (x in m.sentBack ==> exists i :: 0 <= i < |ops| && x in MovesBy(faults, ops[i], r).sentBack)
            && (x in m.gone ==> exists i :: 0 <= i < |ops| && x in MovesBy(faults, ops[i], r).gone)
            && (x in m.goneBack ==> exists i :: 0 <= i < |ops| && x in MovesBy(faults, ops[i], r).goneBack)
  {
    hide MovesBy;
  }

  /** Which leaves the pass has brought down, and which it has stored. */
  lemma LeafFetched(faults: Faults, policy: Policy, base: Base, local: LocalDisk, remote: RemoteStore, plan: Plan, p: Path)
    requires Planned(policy, base, local, remote, plan) && LeafAt(LocalTree(local), RemoteTree(remote), p)
    requires FittingPlan(plan.ops, LocalTree(local), RemoteTree(remote)) && forall i :: 0 <= i < |plan.ops| ==> plan.ops[i].path != []
    ensures p in Total(faults, plan.ops, |plan.ops|, RemoteTree(remote)).sent <==> Fetched(faults, policy, base, local, remote, p)
  {
    var r, ops := RemoteTree(remote), plan.ops;
    hide Planned, DecisionOf, FittingPlan, MovesBy, Total, LeafAt, LocalTree, RemoteTree;
    if p in Total(faults, ops, |ops|, r).sent {
      Origin(faults, ops, r, p);
      var i :| 0 <= i < |ops| && p in MovesBy(faults, ops[i], r).sent;
      LeafMoved(faults, ops, i, LocalTree(local), r, p);
      DecidedAt(policy, base, local, remote, plan, i);
    }
    if Fetched(faults, policy, base, local, remote, p) {
      var i := Scheduled(policy, base, local, remote, plan, p);
      TotalHas(faults, ops, r, i);
      OwnMoves(faults, ops[i], r);
    }
  }

  lemma LeafStored(faults: Faults, policy: Policy, base: Base, local: LocalDisk, remote: RemoteStore, plan: Plan, p: Path)
    requires Planned(policy, base, local, remote, plan) && LeafAt(LocalTree(local), RemoteTree(remote), p)
    requires FittingPlan(plan.ops, LocalTree(local), RemoteTree(remote)) && forall i :: 0 <= i < |plan.ops| ==> plan.ops[i].path != []
    ensures p in Total(faults, plan.ops, |plan.ops|, RemoteTree(remote)).sentBack <==> Stored(faults, policy, base, local, remote, p)
  {
    var r, ops := RemoteTree(remote), plan.ops;
    hide Planned, DecisionOf, FittingPlan, MovesBy, Total, LeafAt, LocalTree, RemoteTree;
    if p in Total(faults, ops, |ops|, r).sentBack {
      Origin(faults, ops, r, p);
      var i :| 0 <= i < |ops| && p in MovesBy(faults, ops[i], r).sentBack;
      LeafMoved(faults, ops, i, LocalTree(local), r, p);
      DecidedAt(policy, base, local, remote, plan, i);
    }
    if Stored(faults, policy, base, local, remote, p) {
      var i := Scheduled(policy, base, local, remote, plan, p);
      TotalHas(faults, ops, r, i);
      OwnMoves(faults, ops[i], r);
    }
  }

  lemma OwnMoves(faults: Faults, op: Op, r: Tree)
    requires op.path != []
    ensures var p, m := op.path, MovesBy(faults, op, r);
            && (op.kind == Download && Acts(faults, p) ==> p in m.sent)
            && (op.kind == Download && Acts(faults, p) && !Whole(faults, p) && IsLink(r, p) ==> p in m.gone)
            && (op.kind == Upload && Whole(faults, p) ==> p in m.sentBack)
            && m.goneBack == if op.kind == DeleteRemote && Whole(faults, p) then {p} else {}
  {
  }

  lemma LeafMoved(faults: Faults, ops: seq<Op>, i: nat, l: Tree, r: Tree, p: Path)
    requires FittingPlan(ops, l, r) && i < |ops| && ops[i].path != [] && LeafAt(l, r, p)
    ensures p in MovesBy(faults, ops[i], r).sent ==> ops[i].path == p && ops[i].kind == Download && Acts(faults, p)
    ensures p in MovesBy(faults, ops[i], r).sentBack ==> ops[i].path == p && ops[i].kind == Upload && Whole(faults, p)
  {
    hide Ordered, DistinctPaths, TreeShaped, SameKinds;
    assert Fits(ops[i], l, r);
    if p in Reached(faults, ops[i]) {
      if ops[i].path in r { ReachedIn(faults, ops[i], r, p); }
      if ops[i].path in l { ReachedIn(faults, ops[i], l, p); }
    }
  }

  /** Which removals take away a path the store held. */
  lemma GoneMoves(faults: Faults, policy: Policy, base: Base, local: LocalDisk, remote: RemoteStore, plan: Plan, p: Path)
    requires Planned(policy, base, local, remote, plan)
    requires FittingPlan(plan.ops, LocalTree(local), RemoteTree(remote)) && forall i :: 0 <= i < |plan.ops| ==> plan.ops[i].path != []
    requires p in remote && p != []
    ensures var m := Total(faults, plan.ops, |plan.ops|, RemoteTree(remote));
            && (Covers(m.gone, p) <==> LinkDropped(faults, policy, base, local, remote, p))
            && (Covers(m.goneBack, p) <==> RemovedAbove(faults, policy, base, local, remote, p))
            && (p in local ==> !Covers(m.goneBack, p))
  {
    hide *;
    GoneHere(faults, policy, base, local, remote, plan, p);
    GoneThere(faults, policy, base, local, remote, plan, p);
  }

  lemma GoneHere(faults: Faults, policy: Policy, base: Base, local: LocalDisk, remote: RemoteStore, plan: Plan, p: Path)
    requires Planned(policy, base, local, remote, plan)
    requires FittingPlan(plan.ops, LocalTree(local), RemoteTree(remote)) && forall i :: 0 <= i < |plan.ops| ==> plan.ops[i].path != []
    requires p in remote && p != []
    ensures Covers(Total(faults, plan.ops, |plan.ops|, RemoteTree(remote)).gone, p) <==> LinkDropped(faults, policy, base, local, remote, p)
  {
    var l, r, ops := LocalTree(local), RemoteTree(remote), plan.ops;
    var gone := Total(faults, ops, |ops|, r).gone;
    assert p in r;
    hide Planned, DecisionOf, FittingPlan, MovesBy, Total, IsPrefix, LocalTree, RemoteTree;
    if Covers(gone, p) {
      var x :| x in gone && IsPrefix(x, p);
      Origin(faults, ops, r, x);
      var i :| 0 <= i < |ops| && x in MovesBy(faults, ops[i], r).gone;
      GoneAt(faults, ops, i, l, r, x, p);
      DecidedAt(policy, base, local, remote, plan, i);
    }
    if LinkDropped(faults, policy, base, local, remote, p) {
      var i := Scheduled(policy, base, local, remote, plan, p);
      TotalHas(faults, ops, r, i);
      OwnMoves(faults, ops[i], r);
      PrefixSelf(p);
      assert p in gone;
    }
  }

  lemma GoneThere(faults: Faults, policy: Policy, base: Base, local: LocalDisk, remote: RemoteStore, plan: Plan, p: Path)
    requires Planned(policy, base, local, remote, plan)
    requires FittingPlan(plan.ops, LocalTree(local), RemoteTree(remote)) && forall i :: 0 <= i < |plan.ops| ==> plan.ops[i].path != []
    requires p in remote && p != []
    ensures var goneBack := Total(faults, plan.ops, |plan.ops|, RemoteTree(remote)).goneBack;
            && (Covers(goneBack, p) <==> RemovedAbove(faults, policy, base, local, remote, p))
            && (p in local ==> !Covers(goneBack, p))
  {
    var goneBack := Total(faults, plan.ops, |plan.ops|, RemoteTree(remote)).goneBack;
    hide Planned, DecisionOf, Total, IsPrefix;
    forall x ensures x in goneBack <==> RemovedAt(faults, policy, base, local, remote, x) {
      RemovedBack(faults, policy, base, local, remote, plan, x);
    }
    hide RemovedAt;
    if p in local {
      forall x | x in goneBack ensures !IsPrefix(x, p) {
        RemovedBack(faults, policy, base, local, remote, plan, x);
        NotUnder(plan.ops, LocalTree(local), RemoteTree(remote), x, p);
      }
    }
  }

  lemma NotUnder(ops: seq<Op>, l: Tree, r: Tree, x: Path, p: Path)
    requires FittingPlan(ops, l, r) && p in l && x !in l && x != []
    ensures !IsPrefix(x, p)
  {
    hide Ordered, DistinctPaths, SameKinds, Fits;
  }

  lemma RemovedBack(faults: Faults, policy: Policy, base: Base, local: LocalDisk, remote: RemoteStore, plan: Plan, x: Path)
    requires Planned(policy, base, local, remote, plan)
    requires FittingPlan(plan.ops, LocalTree(local), RemoteTree(remote)) && forall i :: 0 <= i < |plan.ops| ==> plan.ops[i].path != []
    ensures x in Total(faults, plan.ops, |plan.ops|, RemoteTree(remote)).goneBack <==> RemovedAt(faults, policy, base, local, remote, x)
    ensures RemovedAt(faults, policy, base, local, remote, x) ==> x !in LocalTree(local) && x != []
  {
    var r, ops := RemoteTree(remote), plan.ops;
    hide Planned, DecisionOf, FittingPlan, MovesBy, Total, LocalTree, RemoteTree;
    if x in Total(faults, ops, |ops|, r).goneBack {
      Origin(faults, ops, r, x);
      var i :| 0 <= i < |ops| && x in MovesBy(faults, ops[i], r).goneBack;
      OwnMoves(faults, ops[i], r);
      DecidedAt(policy, base, local, remote, plan, i);
    }
    if RemovedAt(faults, policy, base, local, remote, x) {
      var i := Scheduled(policy, base, local, remote, plan, x);
      TotalHas(faults, ops, r, i);
      OwnMoves(faults, ops[i], r);
      RemovedApart(ops, i, LocalTree(local), r);
    }
  }

  lemma RemovedApart(ops: seq<Op>, i: nat, l: Tree, r: Tree)
    requires FittingPlan(ops, l, r) && i < |ops| && ops[i].kind == DeleteRemote
    ensures ops[i].path !in l
  {
    hide Ordered, DistinctPaths, SameKinds, TreeShaped;
    assert Fits(ops[i], l, r);
  }

  lemma GoneAt(faults: Faults, ops: seq<Op>, i: nat, l: Tree, r: Tree, x: Path, p: Path)
    requires FittingPlan(ops, l, r) && i < |ops| && ops[i].path != [] && p in r && p != [] && IsPrefix(x, p)
    ensures x in MovesBy(faults, ops[i], r).gone ==>
              x == p == ops[i].path && ops[i].kind == Download && Acts(faults, p) && !Whole(faults, p) && IsLink(r, p)
  {
    hide Ordered, DistinctPaths, SameKinds, Reached;
    assert Fits(ops[i], l, r);
    var a := ops[i].path;
    assert IsPrefix(a, x) ==> IsPrefix(a, p);
    assert IsPrefix(a, p) && a != p ==> a in r && r[a] == DirItem;
  }

  /** Where a leaf ends on each side. */
  lemma LeafEnds(w: World, policy: Policy, base: Base, local: LocalDisk, remote: RemoteStore, plan: Plan, p: Path)
    requires Regular(policy, local, remote) && Planned(policy, base, local, remote, plan)
    requires LinksLeft(w.faults, policy, base, local, remote) && LeafAt(LocalTree(local), RemoteTree(remote), p) && p != []
    ensures forall i :: 0 <= i < |plan.ops| ==> plan.ops[i].path != []
    ensures var e := PassOf(w, plan, local, remote);
            var fetched, stored := Fetched(w.faults, policy, base, local, remote, p), Stored(w.faults, policy, base, local, remote, p);
            && (p in e.local ==> e.local[p] == if p in remote && fetched then Seen(w.faults, RemoteTree(remote))[p] else if p in local then local[p].item else DirItem)
            && (p in e.remote ==> e.remote[p] == if p in local && stored then local[p].item else if p in remote then remote[p].item else DirItem)
            && (p in remote ==>
                  && (p in e.local <==> (p in local || fetched) && !LinkDropped(w.faults, policy, base, local, remote, p))
                  && (p in e.remote <==> !RemovedAbove(w.faults, policy, base, local, remote, p))
                  && (p in local ==> p in e.remote))
            && (p !in remote && p in e.remote ==> stored)
            && (p !in remote ==> !fetched) && (p !in local ==> !stored)
  {
    var lt, rt, ops := LocalTree(local), RemoteTree(remote), plan.ops;
    PlanFits(policy, base, local, remote, plan);
    FittingPaths(ops, lt, rt);
    SparedMeans(policy, base, local, remote, plan, w.faults);
    DecisionShape(policy, base, local, remote, p);
    LeafFetched(w.faults, policy, base, local, remote, plan, p);
    LeafStored(w.faults, policy, base, local, remote, plan, p);
    if p in remote { GoneMoves(w.faults, policy, base, local, remote, plan, p); }
    hide LinkSafe, LinksLeft, Planned, DecisionOf, LinkDropped, RemovedAbove;
    PassFollows(w, ops, |ops|, lt, rt);
    SentKeys(w.faults, ops, lt, rt);
    hide Applied, FittingPlan, Regular, IsPrefix, Covers, Total, Seen, Fits, MovesBy;
    var m := Total(w.faults, ops, |ops|, rt);
    LeafAgrees(w.faults, policy, local, remote);
    if p in remote { LeafReached(Seen(w.faults, rt), m.sent, p); }
    if p in local { LeafReached(lt, m.sentBack, p); }
    hide TreeShaped, SameKinds, Agreeing;
    SideAt(lt, Seen(w.faults, rt), m.sent, m.gone, p);
    SideAt(rt, lt, m.sentBack, m.goneBack, p);
  }

  lemma SentKeys(faults: Faults, ops: seq<Op>, l: Tree, r: Tree)
    requires FittingPlan(ops, l, r) && forall i :: 0 <= i < |ops| ==> ops[i].path != []
    ensures var m := Total(faults, ops, |ops|, r); m.sent <= r.Keys && m.sentBack <= l.Keys
  {
    hide Ordered, DistinctPaths, TreeShaped, SameKinds, Reached;
    forall i | 0 <= i < |ops|
      ensures MovesBy(faults, ops[i], r).sent <= r.Keys && MovesBy(faults, ops[i], r).sentBack <= l.Keys
    {
      assert Fits(ops[i], l, r);
      if ops[i].path in r { forall x | x in Reached(faults, ops[i]) ensures x in r { ReachedIn(faults, ops[i], r, x); } }
      if ops[i].path in l { forall x | x in Reached(faults, ops[i]) ensures x in l { ReachedIn(faults, ops[i], l, x); } }
    }
    hide MovesBy;
  }

  lemma LeafAgrees(faults: Faults, policy: Policy, local: LocalDisk, remote: RemoteStore)
    requires Regular(policy, local, remote)
    ensures var l, r := LocalTree(local), RemoteTree(remote);
            && TreeShaped(l) && TreeShaped(Seen(faults, r)) && Seen(faults, r).Keys == r.Keys
            && forall p :: p in r ==> (r[p] == DirItem <==> Seen(faults, r)[p] == DirItem)
  {
    hide Seen, TreeShaped, SameKinds;
    SeenAgrees(faults, LocalTree(local), RemoteTree(remote));
  }

  lemma SideAt(own: Tree, other: Tree, sent: set<Path>, gone: set<Path>, p: Path)
    requires p in other ==> (Reaches(sent, p) ==> p in sent)
    ensures var t := Side(own, other, sent, gone);
            && (p in t <==> (p in own || (p in other && p in sent)) && !Covers(gone, p))
            && (p in t ==> t[p] == if p in own && p !in sent then own[p] else if p in other then other[p] else DirItem)
  {
    PrefixSelf(p);
  }

  /** A directory stays one wherever it is. */
  lemma DirEnds(w: World, policy: Policy, base: Base, local: LocalDisk, remote: RemoteStore, plan: Plan, p: Path)
    requires Regular(policy, local, remote) && Planned(policy, base, local, remote, plan)
    requires LinksLeft(w.faults, policy, base, local, remote) && !LeafAt(LocalTree(local), RemoteTree(remote), p)
    ensures forall i :: 0 <= i < |plan.ops| ==> plan.ops[i].path != []
    ensures var e := PassOf(w, plan, local, remote); p in e.local && p in e.remote ==> e.local[p] == e.remote[p]
  {
    var lt, rt, ops := LocalTree(local), RemoteTree(remote), plan.ops;
    PlanFits(policy, base, local, remote, plan);
    SparedMeans(policy, base, local, remote, plan, w.faults);
    hide LinkSafe, LinksLeft, Planned;
    PassFollows(w, ops, |ops|, lt, rt);
    LeafAgrees(w.faults, policy, local, remote);
    if p in lt && p in rt { SharedKind(lt, rt, p); }
    hide Applied, FittingPlan, TreeShaped, SameKinds, Regular, Covers, Reaches, Total, Seen;
  }

  /** A shared leaf whose items differ is recorded as agreed all the same. */
  lemma AgreedApart(prior: Base, local: LocalDisk, remote: RemoteStore, p: Path)
    requires p in local && p in remote && local[p].item.LeafItem? && remote[p].item.LeafItem? && local[p].item != remote[p].item
    ensures var base := RebuiltBase(prior, ScanLocal(local), ScanRemote(remote), {});
            !ChangesShow(base, local, remote) && forall policy :: DecisionOf(policy, base, local, remote, p).op.None?
  {
    var base := RebuiltBase(prior, ScanLocal(local), ScanRemote(remote), {});
    assert base[p] == Agree(local[p].State(), remote[p].State());
  }

  /**
   * The agreement recorded after a pass is the truth exactly when no file was written onto a link and no failed
   * operation left two versions of a path. Where it is not, the next plan does nothing.
   */
  lemma BaseTruthfulIff(w: World, policy: Policy, base: Base, local: LocalDisk, remote: RemoteStore, plan: Plan,
                        base': Base, local': LocalDisk, remote': RemoteStore)
    requires LawfulFollow(w.follow) && Regular(policy, local, remote) && ChangesShow(base, local, remote)
    requires IsPass(w, policy, base, local, remote, plan, base', local', remote')
    ensures ChangesShow(base', local', remote') <==>
            LinksLeft(w.faults, policy, base, local, remote) && FailuresTrue(w.faults, policy, base, local, remote)
    ensures !ChangesShow(base', local', remote') ==>
              exists p :: p in local' && p in remote' && local'[p].item != remote'[p].item
                && DecisionOf(policy, base', local', remote', p).op.None?
  {
    NothingSkipped(policy, base, local, remote, plan);
    hide Planned, Applied, RebuiltBase, LawfulFollow, ChangesShow, LinksLeft, FailuresTrue, DecisionOf, Regular;
    if !LinksLeft(w.faults, policy, base, local, remote) {
      var p := LinkLeftApart(w, policy, base, local, remote, plan, local', remote');
      AgreedApart(base, local', remote', p);
    } else if !FailuresTrue(w.faults, policy, base, local, remote) {
      var p := FailureLeftApart(w, policy, base, local, remote, plan, local', remote');
      AgreedApart(base, local', remote', p);
    } else {
      AllAgree(w, policy, base, local, remote, plan, local', remote');
      SameItemsShow(base', local', remote');
    }
  }

  lemma LinkLeftApart(w: World, policy: Policy, base: Base, local: LocalDisk, remote: RemoteStore, plan: Plan,
                      local': LocalDisk, remote': RemoteStore) returns (p: Path)
    requires LawfulFollow(w.follow) && Regular(policy, local, remote) && Planned(policy, base, local, remote, plan)
    requires !LinksLeft(w.faults, policy, base, local, remote) && forall i :: 0 <= i < |plan.ops| ==> plan.ops[i].path != []
    requires LocalTree(local') == PassOf(w, plan, local, remote).local && RemoteTree(remote') == PassOf(w, plan, local, remote).remote
    ensures p in local' && p in remote' && local'[p].item.LeafItem? && remote'[p].item.LeafItem? && local'[p].item != remote'[p].item
  {
    hide Planned, Applied, LawfulFollow, LinkSafe, TreeShaped, Overwrites;
    PlanFits(policy, base, local, remote, plan);
    SparedMeans(policy, base, local, remote, plan, w.faults);
    ClobberedStaysApart(w, plan.ops, LocalTree(local), RemoteTree(remote));
    p :| Apart(LocalTree(local'), RemoteTree(remote'), p);
    ApartDiffers(local', remote', p);
  }

  /** A path at which something was left to tell apart is a leaf, if any side holds it. */
  lemma FailedLeaf(faults: Faults, policy: Policy, base: Base, local: LocalDisk, remote: RemoteStore, p: Path)
    requires Regular(policy, local, remote) && !LeftTrue(faults, policy, base, local, remote, p)
    ensures LeafAt(LocalTree(local), RemoteTree(remote), p) && p in remote && p != [] && p in faults && !faults[p].Late?
    ensures var kind := DecisionOf(policy, base, local, remote, p).op.value.kind;
            && (kind == Download <==> Emits(policy, base, local, remote, p, Download, Download))
            && (kind == Upload <==> Emits(policy, base, local, remote, p, Upload, Upload))
    ensures p !in local ==> Emits(policy, base, local, remote, p, Download, Download) && faults[p].Midway?
  {
    DecisionShape(policy, base, local, remote, p);
    if p in local && p in remote { SharedKind(LocalTree(local), RemoteTree(remote), p); }
    hide DecisionOf, SameKinds, RemovedAbove;
  }

  lemma FailureLeftApart(w: World, policy: Policy, base: Base, local: LocalDisk, remote: RemoteStore, plan: Plan,
                         local': LocalDisk, remote': RemoteStore) returns (p: Path)
    requires Regular(policy, local, remote) && Planned(policy, base, local, remote, plan)
    requires LinksLeft(w.faults, policy, base, local, remote) && !FailuresTrue(w.faults, policy, base, local, remote)
    requires forall i :: 0 <= i < |plan.ops| ==> plan.ops[i].path != []
    requires LocalTree(local') == PassOf(w, plan, local, remote).local && RemoteTree(remote') == PassOf(w, plan, local, remote).remote
    ensures p in local' && p in remote' && local'[p].item.LeafItem? && remote'[p].item.LeafItem? && local'[p].item != remote'[p].item
  {
    p :| !LeftTrue(w.faults, policy, base, local, remote, p);
    FailedLeaf(w.faults, policy, base, local, remote, p);
    hide Planned, Applied, LinksLeft, FailuresTrue, DecisionOf, Regular, RemovedAbove;
    LeafEnds(w, policy, base, local, remote, plan, p);
    EntriesOf(local', remote', PassOf(w, plan, local, remote), p);
  }

  lemma EntriesOf(local: LocalDisk, remote: RemoteStore, e: Effect, p: Path)
    requires LocalTree(local) == e.local && RemoteTree(remote) == e.remote
    ensures (p in local <==> p in e.local) && (p in local ==> local[p].item == e.local[p])
    ensures (p in remote <==> p in e.remote) && (p in remote ==> remote[p].item == e.remote[p])
  {
    assert p in LocalTree(local) <==> p in local;
    assert p in RemoteTree(remote) <==> p in remote;
  }

  lemma AllAgree(w: World, policy: Policy, base: Base, local: LocalDisk, remote: RemoteStore, plan: Plan,
                 local': LocalDisk, remote': RemoteStore)
    requires Regular(policy, local, remote) && Planned(policy, base, local, remote, plan) && ChangesShow(base, local, remote)
    requires LinksLeft(w.faults, policy, base, local, remote) && FailuresTrue(w.faults, policy, base, local, remote)
    requires forall i :: 0 <= i < |plan.ops| ==> plan.ops[i].path != []
    requires LocalTree(local') == PassOf(w, plan, local, remote).local && RemoteTree(remote') == PassOf(w, plan, local, remote).remote
    ensures SameItems(local', remote')
  {
    hide Planned, Applied, LinksLeft, ChangesShow, Regular, DecisionOf, LeftTrue, LeafAt;
    forall p | p in local' && p in remote' ensures local'[p].item == remote'[p].item {
      EntriesOf(local', remote', PassOf(w, plan, local, remote), p);
      if LeafAt(LocalTree(local), RemoteTree(remote), p) {
        NotTop(policy, local, remote, p);
        assert LeftTrue(w.faults, policy, base, local, remote, p);
        LeafAgree(w, policy, base, local, remote, plan, p);
      } else {
        DirEnds(w, policy, base, local, remote, plan, p);
      }
    }
  }

  lemma NotTop(policy: Policy, local: LocalDisk, remote: RemoteStore, p: Path)
    requires Regular(policy, local, remote) && LeafAt(LocalTree(local), RemoteTree(remote), p)
    ensures p != []
  {
  }

  lemma LeafAgree(w: World, policy: Policy, base: Base, local: LocalDisk, remote: RemoteStore, plan: Plan, p: Path)
    requires Regular(policy, local, remote) && Planned(policy, base, local, remote, plan) && ChangesShow(base, local, remote)
    requires LinksLeft(w.faults, policy, base, local, remote) && LeftTrue(w.faults, policy, base, local, remote, p)
    requires LeafAt(LocalTree(local), RemoteTree(remote), p) && p != []
    ensures forall i :: 0 <= i < |plan.ops| ==> plan.ops[i].path != []
    ensures var e := PassOf(w, plan, local, remote); p in e.local && p in e.remote ==> e.local[p] == e.remote[p]
  {
    LeafEnds(w, policy, base, local, remote, plan, p);
    DecisionShape(policy, base, local, remote, p);
    hide Planned, Applied, LinksLeft, DecisionOf, TreeShaped, SameKinds, RemovedAbove;
  }

  // ---------------------------------------------------------------- downloads that fail

  /** A file the store changed and the working copy did not. */
  function StaleLocal(): LocalDisk {
    map[["p"] := LocalEntry(LeafItem(false, [7]), 1, 1)]
  }

  /** There a download that fails before it writes is recorded as done: the agreement passes over the difference. */
  lemma FailedDownloadForgotten(policy: Policy, follow: Follow, depth: nat, plan: Plan, base': Base, local': LocalDisk, remote': RemoteStore)
    requires policy != Skip && LawfulFollow(follow)
    requires IsPass(World(follow, map[["p"] := Early(depth)]), policy, LinkBase(), StaleLocal(), LinkRemote(), plan, base', local', remote')
    ensures !ChangesShow(base', local', remote')
  {
    StaleDiffers(policy, depth);
    hide *;
    BaseTruthfulIff(World(follow, map[["p"] := Early(depth)]), policy, LinkBase(), StaleLocal(), LinkRemote(), plan, base', local', remote');
  }

  lemma StaleDiffers(policy: Policy, depth: nat)
    requires policy != Skip
    ensures Regular(policy, StaleLocal(), LinkRemote()) && ChangesShow(LinkBase(), StaleLocal(), LinkRemote())
    ensures !FailuresTrue(map[["p"] := Early(depth)], policy, LinkBase(), StaleLocal(), LinkRemote())
  {
    var base, local, remote := LinkBase(), StaleLocal(), LinkRemote();
    OnePathShaped(LocalTree(local), ["p"]);
    OnePathShaped(RemoteTree(remote), ["p"]);
    var one: Bytes, two: Bytes := [1], [2];
    assert one[0] != two[0];
    assert !base[["p"]].RemoteMatches(remote[["p"]].State());
    var seven: Bytes, eight: Bytes := [7], [8];
    assert seven[0] != eight[0];
    assert !LeftTrue(map[["p"] := Early(depth)], policy, base, local, remote, ["p"]);
  }

  /** A new file of the store whose download stops before its only byte: the empty file is recorded as agreed. */
  lemma TruncatedDownloadForgotten(policy: Policy, follow: Follow, plan: Plan, base': Base, local': LocalDisk, remote': RemoteStore)
    requires policy != Skip && LawfulFollow(follow)
    requires IsPass(World(follow, map[["p"] := Midway(0, {})]), policy, map[], map[], LinkRemote(), plan, base', local', remote')
    ensures !ChangesShow(base', local', remote')
  {
    NewFileCut(policy);
    hide *;
    BaseTruthfulIff(World(follow, map[["p"] := Midway(0, {})]), policy, map[], map[], LinkRemote(), plan, base', local', remote');
  }

  lemma NewFileCut(policy: Policy)
    requires policy != Skip
    ensures Regular(policy, map[], LinkRemote()) && ChangesShow(map[], map[], LinkRemote())
    ensures !FailuresTrue(map[["p"] := Midway(0, {})], policy, map[], map[], LinkRemote())
  {
    var faults: Faults, remote := map[["p"] := Midway(0, {})], LinkRemote();
    assert LocalTree(map[]) == map[];
    OnePathShaped(RemoteTree(remote), ["p"]);
    forall a ensures !RemovedAt(faults, policy, map[], map[], remote, a) { }
    assert !LeftTrue(faults, policy, map[], map[], remote, ["p"]);
  }

  /** The same file, all of it written before restoring its attributes fails: the agreement is true. */
  lemma LateFailureAgrees(policy: Policy, follow: Follow, plan: Plan, base': Base, local': LocalDisk, remote': RemoteStore)
    requires policy != Skip && LawfulFollow(follow)
    requires IsPass(World(follow, map[["p"] := Late]), policy, LinkBase(), StaleLocal(), LinkRemote(), plan, base', local', remote')
    ensures ChangesShow(base', local', remote')
  {
    StaleDiffers(policy, 0);
    LateIsDone(policy);
    hide *;
    BaseTruthfulIff(World(follow, map[["p"] := Late]), policy, LinkBase(), StaleLocal(), LinkRemote(), plan, base', local', remote');
  }

  lemma LateIsDone(policy: Policy)
    ensures LinksLeft(map[["p"] := Late], policy, LinkBase(), StaleLocal(), LinkRemote())
    ensures FailuresTrue(map[["p"] := Late], policy, LinkBase(), StaleLocal(), LinkRemote())
  {
  }
}

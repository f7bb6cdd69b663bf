/** Whole sync passes: scan, plan, apply and the rebuilt agreement. */
module SyncPass {
  import opened Core
  import opened Reconcile
  import opened SyncTree
  import opened SyncLinks
  import opened Convergence

  /** A path on disk: what it is, and the size and time by which a scan tells a change. */
  datatype LocalEntry = LocalEntry(item: Item, size: int, mtime: int) {
    function State(): LocalState { LocalState(item.Kind(), item.LeafItem? && item.isSymlink, size, mtime) }
  }

  /** A stored path: what it is, and its version tokens. */
  datatype RemoteEntry = RemoteEntry(item: Item, content: Bytes, meta: Bytes) {
    function State(): RemoteState { RemoteState(item.Kind(), item.LeafItem? && item.isSymlink, content, meta) }
  }

  type LocalDisk = map<Path, LocalEntry>
  type RemoteStore = map<Path, RemoteEntry>

  function ScanLocal(local: LocalDisk): LocalSnapshot {
    map p | p in local :: local[p].State()
  }

  function ScanRemote(remote: RemoteStore): RemoteSnapshot {
    map p | p in remote :: remote[p].State()
  }

  function LocalTree(local: LocalDisk): Tree {
    map p | p in local :: local[p].item
  }

  function RemoteTree(remote: RemoteStore): Tree {
    map p | p in remote :: remote[p].item
  }

  ghost function DecisionOf(policy: Policy, base: Base, local: LocalDisk, remote: RemoteStore, p: Path): Decision {
    DecisionAt(policy, base, ScanLocal(local), ScanRemote(remote), p)
  }

  ghost predicate Deleted(policy: Policy, base: Base, local: LocalDisk, remote: RemoteStore, p: Path) {
    var op := DecisionOf(policy, base, local, remote, p).op;
    op.Some? && op.value.IsDelete()
  }

  /** Whatever lies below a path the pass deletes is deleted by the pass as well. */
  ghost predicate CleanDeletes(policy: Policy, base: Base, local: LocalDisk, remote: RemoteStore) {
    forall p, q :: Deleted(policy, base, local, remote, p) && (q in local || q in remote) && IsPrefix(p, q) ==>
      Deleted(policy, base, local, remote, q)
  }

  /** Both sides are trees, kinds agree on shared paths, and conflicts are resolved. */
  ghost predicate Regular(policy: Policy, local: LocalDisk, remote: RemoteStore) {
    && policy != Skip
    && TreeShaped(LocalTree(local)) && TreeShaped(RemoteTree(remote))
    && SameKinds(LocalTree(local), RemoteTree(remote))
  }

  /** Size, time and tokens tell changes: a file both sides left as agreed is the same on both. */
  ghost predicate ChangesShow(base: Base, local: LocalDisk, remote: RemoteStore) {
    forall p :: p in base && p in local && p in remote && local[p].item.LeafItem? && remote[p].item.LeafItem?
      && base[p].LocalMatches(local[p].State()) && base[p].RemoteMatches(remote[p].State())
      ==> local[p].item == remote[p].item
  }

  ghost predicate Planned(policy: Policy, base: Base, local: LocalDisk, remote: RemoteStore, plan: Plan) {
    IsPlan(policy, base, ScanLocal(local), ScanRemote(remote), plan)
  }

  // ---------------------------------------------------------------- from decisions to moves

  /** What the decision at one path can be, given agreeing kinds. */
  lemma DecisionShape(policy: Policy, base: Base, local: LocalDisk, remote: RemoteStore, p: Path)
    requires policy != Skip && SameKinds(LocalTree(local), RemoteTree(remote))
    ensures var op := DecisionOf(policy, base, local, remote, p).op;
            && (op.Some? ==> Fits(op.value, LocalTree(local), RemoteTree(remote)) && op.value.path == p)
            && (p in local && p !in remote ==> op.Some? && op.value.kind in {Upload, MkdirRemote, DeleteLocal})
            && (p !in local && p in remote ==> op.Some? && op.value.kind in {Download, MkdirLocal, DeleteRemote})
            && (p in local && p in remote ==>
                  && (op.Some? ==> op.value.kind in {Upload, Download})
                  && (op.None? && local[p].item.LeafItem? ==>
                        p in base && base[p].LocalMatches(local[p].State()) && base[p].RemoteMatches(remote[p].State())))
  {
    var lt, rt := LocalTree(local), RemoteTree(remote);
    if p in local && p in remote { assert lt[p].Kind() == rt[p].Kind(); }
  }

  ghost predicate Emits(policy: Policy, base: Base, local: LocalDisk, remote: RemoteStore, p: Path, a: OpKind, b: OpKind) {
    var op := DecisionOf(policy, base, local, remote, p).op;
    op.Some? && (op.value.kind == a || op.value.kind == b)
  }

  lemma InPathsOf(policy: Policy, base: Base, local: LocalDisk, remote: RemoteStore, plan: Plan, p: Path, a: OpKind, b: OpKind)
    requires Planned(policy, base, local, remote, plan)
    ensures p in PathsOf(plan.ops, |plan.ops|, a, b) <==> Emits(policy, base, local, remote, p, a, b)
  {
  }

  lemma InPathsAt(ops: seq<Op>, k: nat, i: nat, a: OpKind, b: OpKind)
    requires i < k <= |ops| && (ops[i].kind == a || ops[i].kind == b)
    ensures ops[i].path in PathsOf(ops, k, a, b)
  {
  }

  lemma DecidedAt(policy: Policy, base: Base, local: LocalDisk, remote: RemoteStore, plan: Plan, k: nat)
    requires Planned(policy, base, local, remote, plan) && k < |plan.ops|
    ensures DecisionOf(policy, base, local, remote, plan.ops[k].path).op == Some(plan.ops[k])
  {
  }

  lemma Scheduled(policy: Policy, base: Base, local: LocalDisk, remote: RemoteStore, plan: Plan, p: Path) returns (i: nat)
    requires Planned(policy, base, local, remote, plan) && DecisionOf(policy, base, local, remote, p).op.Some?
    ensures i < |plan.ops| && DecisionOf(policy, base, local, remote, p).op == Some(plan.ops[i]) && plan.ops[i].path == p
  {
    hide DecisionAt, Ordered, DistinctPaths;
    assert DecisionOf(policy, base, local, remote, p).op.value in plan.ops;
    i :| 0 <= i < |plan.ops| && plan.ops[i] == DecisionOf(policy, base, local, remote, p).op.value;
  }

  /** Where one path stands in the four sets of the plan. */
  lemma MovesAt(policy: Policy, base: Base, local: LocalDisk, remote: RemoteStore, plan: Plan, p: Path)
    requires policy != Skip && SameKinds(LocalTree(local), RemoteTree(remote))
    requires Planned(policy, base, local, remote, plan)
    ensures var m := PlainMoves(plan.ops, |plan.ops|);
            && SortsAt(LocalTree(local), RemoteTree(remote), m, p)
            && (p in m.gone + m.goneBack <==> Deleted(policy, base, local, remote, p))
            && (p in local && p in remote && p !in m.sent && p !in m.sentBack && local[p].item.LeafItem? ==>
                  p in base && base[p].LocalMatches(local[p].State()) && base[p].RemoteMatches(remote[p].State()))
  {
    DecisionShape(policy, base, local, remote, p);
    InPathsOf(policy, base, local, remote, plan, p, Download, MkdirLocal);
    InPathsOf(policy, base, local, remote, plan, p, Upload, MkdirRemote);
    InPathsOf(policy, base, local, remote, plan, p, DeleteLocal, DeleteLocal);
    InPathsOf(policy, base, local, remote, plan, p, DeleteRemote, DeleteRemote);
    hide PathsOf, DecisionOf, Planned, SameKinds;
  }

  lemma PlanFits(policy: Policy, base: Base, local: LocalDisk, remote: RemoteStore, plan: Plan)
    requires Regular(policy, local, remote) && Planned(policy, base, local, remote, plan)
    ensures FittingPlan(plan.ops, LocalTree(local), RemoteTree(remote))
  {
    hide DecisionAt, Ordered, DistinctPaths, TreeShaped, SameKinds, Fits;
    forall i | 0 <= i < |plan.ops| ensures Fits(plan.ops[i], LocalTree(local), RemoteTree(remote)) {
      DecisionShape(policy, base, local, remote, plan.ops[i].path);
    }
  }

  lemma PlanShaped(policy: Policy, base: Base, local: LocalDisk, remote: RemoteStore, plan: Plan)
    requires Regular(policy, local, remote) && Planned(policy, base, local, remote, plan)
    ensures var lt, rt, m := LocalTree(local), RemoteTree(remote), PlainMoves(plan.ops, |plan.ops|);
            && Shaped(lt, rt, m)
            && (Clean(lt, rt, m.gone + m.goneBack) <==> CleanDeletes(policy, base, local, remote))
            && (ChangesShow(base, local, remote) ==> Honest(lt, rt, m))
  {
    hide Planned, TreeShaped, SameKinds, PlainMoves, Sorts, Clean, CleanDeletes, ChangesShow, Honest, Deleted;
    var lt, rt, m := LocalTree(local), RemoteTree(remote), PlainMoves(plan.ops, |plan.ops|);
    PlanSorts(policy, base, local, remote, plan);
    CleanMeans(policy, base, local, remote, m.gone + m.goneBack);
    if ChangesShow(base, local, remote) { PlanHonest(policy, base, local, remote, plan); }
  }

  lemma PlanSorts(policy: Policy, base: Base, local: LocalDisk, remote: RemoteStore, plan: Plan)
    requires Regular(policy, local, remote) && Planned(policy, base, local, remote, plan)
    ensures Sorts(LocalTree(local), RemoteTree(remote), PlainMoves(plan.ops, |plan.ops|))
    ensures forall p :: p in PlainMoves(plan.ops, |plan.ops|).gone + PlainMoves(plan.ops, |plan.ops|).goneBack <==> Deleted(policy, base, local, remote, p)
  {
    hide Planned, TreeShaped, SameKinds, PlainMoves, Deleted;
    var lt, rt, m := LocalTree(local), RemoteTree(remote), PlainMoves(plan.ops, |plan.ops|);
    forall p ensures SortsAt(lt, rt, m, p) && (p in m.gone + m.goneBack <==> Deleted(policy, base, local, remote, p)) {
      MovesAt(policy, base, local, remote, plan, p);
    }
    SortsEverywhere(lt, rt, m);
  }

  ghost predicate SortsAt(own: Tree, other: Tree, m: Moves, p: Path) {
    && (p in m.sent ==> p in other) && (p in m.sentBack ==> p in own)
    && (p in m.gone ==> p in own && p !in other) && (p in m.goneBack ==> p in other && p !in own)
    && (p in own && p !in other ==> (p in m.gone) != (p in m.sentBack))
    && (p in other && p !in own ==> (p in m.goneBack) != (p in m.sent))
    && !(p in m.sent && p in m.sentBack)
  }

  lemma SortsEverywhere(own: Tree, other: Tree, m: Moves)
    requires forall p :: SortsAt(own, other, m, p)
    ensures Sorts(own, other, m)
  {
    forall p | p in m.sent ensures p in other.Keys && p !in m.sentBack && p !in m.goneBack { assert SortsAt(own, other, m, p); }
    forall p | p in m.sentBack ensures p in own.Keys && p !in m.gone { assert SortsAt(own, other, m, p); }
    forall p | p in m.gone ensures p in own.Keys - other.Keys { assert SortsAt(own, other, m, p); }
    forall p | p in m.goneBack ensures p in other.Keys - own.Keys { assert SortsAt(own, other, m, p); }
    forall p | p in own.Keys - other.Keys ensures p in m.gone + (m.sentBack - other.Keys) { assert SortsAt(own, other, m, p); }
    forall p | p in other.Keys - own.Keys ensures p in m.goneBack + (m.sent - own.Keys) { assert SortsAt(own, other, m, p); }
  }

  lemma PlanHonest(policy: Policy, base: Base, local: LocalDisk, remote: RemoteStore, plan: Plan)
    requires Regular(policy, local, remote) && Planned(policy, base, local, remote, plan) && ChangesShow(base, local, remote)
    ensures Honest(LocalTree(local), RemoteTree(remote), PlainMoves(plan.ops, |plan.ops|))
  {
    hide Planned, TreeShaped, SameKinds, PlainMoves, Deleted;
    var lt, rt, m := LocalTree(local), RemoteTree(remote), PlainMoves(plan.ops, |plan.ops|);
    forall p | p in lt && p in rt && p !in m.sent && p !in m.sentBack ensures lt[p] == rt[p] {
      MovesAt(policy, base, local, remote, plan, p);
      SharedKind(lt, rt, p);
    }
  }

  lemma CleanMeans(policy: Policy, base: Base, local: LocalDisk, remote: RemoteStore, gone: set<Path>)
    requires forall p :: p in gone <==> Deleted(policy, base, local, remote, p)
    ensures Clean(LocalTree(local), RemoteTree(remote), gone) <==> CleanDeletes(policy, base, local, remote)
  {
  }

  lemma SharedKind(l: Tree, r: Tree, p: Path)
    requires SameKinds(l, r) && p in l && p in r
    ensures l[p].Kind() == r[p].Kind()
  {
  }

  // ---------------------------------------------------------------- one pass

  /** Where a pass leaves the two trees, and whether every operation succeeded. */
  ghost function PassOf(w: World, plan: Plan, local: LocalDisk, remote: RemoteStore): Effect
    requires forall i :: 0 <= i < |plan.ops| ==> plan.ops[i].path != []
  {
    Applied(w, plan.ops, |plan.ops|, LocalTree(local), RemoteTree(remote))
  }

  /** The pass brings down a plain file where the working copy holds a link. */
  ghost predicate Overwrites(policy: Policy, base: Base, local: LocalDisk, remote: RemoteStore, p: Path) {
    var op := DecisionOf(policy, base, local, remote, p).op;
    op.Some? && Clobbers(op.value, LocalTree(local), RemoteTree(remote))
  }

  ghost predicate LinksSpared(policy: Policy, base: Base, local: LocalDisk, remote: RemoteStore) {
    forall p :: !Overwrites(policy, base, local, remote, p)
  }

  lemma SparedMeans(policy: Policy, base: Base, local: LocalDisk, remote: RemoteStore, plan: Plan, faults: Faults)
    requires Planned(policy, base, local, remote, plan)
    ensures LinkSafe(faults, plan.ops, LocalTree(local), RemoteTree(remote)) <==>
            forall p :: Acts(faults, p) ==> !Overwrites(policy, base, local, remote, p)
  {
    hide DecisionOf, Clobbers, Planned;
    var lt, rt := LocalTree(local), RemoteTree(remote);
    if forall p :: Acts(faults, p) ==> !Overwrites(policy, base, local, remote, p) {
      forall i | 0 <= i < |plan.ops| && Acts(faults, plan.ops[i].path) ensures !Clobbers(plan.ops[i], lt, rt) {
        DecidedAt(policy, base, local, remote, plan, i);
        assert !Overwrites(policy, base, local, remote, plan.ops[i].path);
      }
    }
    if LinkSafe(faults, plan.ops, lt, rt) {
      forall p | Acts(faults, p) ensures !Overwrites(policy, base, local, remote, p) {
        if DecisionOf(policy, base, local, remote, p).op.Some? {
          var i := Scheduled(policy, base, local, remote, plan, p);
        }
      }
    }
  }

  ghost predicate SharedSame(e: Effect) {
    forall p :: p in e.local && p in e.remote ==> e.local[p] == e.remote[p]
  }

  /**
   * One pass in which no operation fails for reasons of its own, conflicts resolved and kinds agreeing. Both sides
   * stay trees. When links are spared every operation succeeds, shared paths end of one kind, and the two sides
   * end with the same paths exactly when deletes are clean. When changes show, no operation fails and shared paths
   * end as the same item exactly when links are spared.
   */
  lemma OnePass(follow: Follow, policy: Policy, base: Base, local: LocalDisk, remote: RemoteStore, plan: Plan)
    requires LawfulFollow(follow) && Regular(policy, local, remote) && Planned(policy, base, local, remote, plan)
    ensures forall i :: 0 <= i < |plan.ops| ==> plan.ops[i].path != []
    ensures var e := PassOf(World(follow, map[]), plan, local, remote);
            && TreeShaped(e.local) && TreeShaped(e.remote)
            && (LinksSpared(policy, base, local, remote) ==>
                  && e.ok && SameKinds(e.local, e.remote)
                  && (e.local.Keys == e.remote.Keys <==> CleanDeletes(policy, base, local, remote)))
            && (ChangesShow(base, local, remote) ==> (e.ok && SharedSame(e) <==> LinksSpared(policy, base, local, remote)))
  {
    hide Applied, FittingPlan, TreeShaped, Planned, ChangesShow, CleanDeletes, LawfulFollow, LinkSafe, Overwrites;
    var w := World(follow, map[]);
    var lt, rt := LocalTree(local), RemoteTree(remote);
    PlanFits(policy, base, local, remote, plan);
    FittingPaths(plan.ops, lt, rt);
    AppliedShaped(w, plan.ops, |plan.ops|, lt, rt);
    SparedMeans(policy, base, local, remote, plan, map[]);
    if LinksSpared(policy, base, local, remote) {
      SparedPass(follow, policy, base, local, remote, plan);
    } else {
      ClobberedStaysApart(w, plan.ops, lt, rt);
    }
  }

  lemma SparedPass(follow: Follow, policy: Policy, base: Base, local: LocalDisk, remote: RemoteStore, plan: Plan)
    requires Regular(policy, local, remote) && Planned(policy, base, local, remote, plan)
    requires LinksSpared(policy, base, local, remote)
    ensures forall i :: 0 <= i < |plan.ops| ==> plan.ops[i].path != []
    ensures var e := PassOf(World(follow, map[]), plan, local, remote);
            && e.ok && SameKinds(e.local, e.remote)
            && (e.local.Keys == e.remote.Keys <==> CleanDeletes(policy, base, local, remote))
            && (ChangesShow(base, local, remote) ==> SharedSame(e))
  {
    var w := World(follow, map[]);
    var lt, rt, m := LocalTree(local), RemoteTree(remote), PlainMoves(plan.ops, |plan.ops|);
    PlanFits(policy, base, local, remote, plan);
    PlanShaped(policy, base, local, remote, plan);
    SparedMeans(policy, base, local, remote, plan, map[]);
    hide LinkSafe, LinksSpared;
    PassFollows(w, plan.ops, |plan.ops|, lt, rt);
    PlainAfter(plan.ops, |plan.ops|, lt, rt);
    hide Side, Applied, Shaped, FittingPlan, Regular, Planned, ChangesShow, CleanDeletes, Clean, Honest, TreeShaped;
    SameKeysIff(lt, rt, m);
    var e := PassOf(w, plan, local, remote);
    forall p | p in e.local && p in e.remote
      ensures e.local[p].Kind() == e.remote[p].Kind() && (Honest(lt, rt, m) ==> e.local[p] == e.remote[p])
    {
      SidesAgree(lt, rt, m, p);
    }
  }

  /** The item a kept path should end as: that of the side whose version the pass transfers. */
  ghost function WinningItem(policy: Policy, base: Base, local: LocalDisk, remote: RemoteStore, p: Path): Item
    requires p in local || p in remote
  {
    if p in remote && (p !in local || Emits(policy, base, local, remote, p, Download, MkdirLocal)) then remote[p].item
    else local[p].item
  }

  /** The kept version of a path is on at least one side after the pass, and nothing else is at its path. */
  ghost predicate KeptAt(policy: Policy, base: Base, local: LocalDisk, remote: RemoteStore, e: Effect, p: Path)
    requires p in local || p in remote
  {
    var item := WinningItem(policy, base, local, remote, p);
    && (p in e.local || p in e.remote)
    && (p in e.local ==> e.local[p] == item) && (p in e.remote ==> e.remote[p] == item)
  }

  lemma KeptWhenSpared(follow: Follow, policy: Policy, base: Base, local: LocalDisk, remote: RemoteStore, plan: Plan, p: Path)
    requires Regular(policy, local, remote) && Planned(policy, base, local, remote, plan)
    requires ChangesShow(base, local, remote) && LinksSpared(policy, base, local, remote)
    requires (p in local || p in remote) && !Deleted(policy, base, local, remote, p)
    ensures forall i :: 0 <= i < |plan.ops| ==> plan.ops[i].path != []
    ensures KeptAt(policy, base, local, remote, PassOf(World(follow, map[]), plan, local, remote), p)
  {
    var lt, rt, m := LocalTree(local), RemoteTree(remote), PlainMoves(plan.ops, |plan.ops|);
    PlanFits(policy, base, local, remote, plan);
    PlanShaped(policy, base, local, remote, plan);
    SparedMeans(policy, base, local, remote, plan, map[]);
    hide LinkSafe, LinksSpared;
    PassFollows(World(follow, map[]), plan.ops, |plan.ops|, lt, rt);
    PlainAfter(plan.ops, |plan.ops|, lt, rt);
    MovesAt(policy, base, local, remote, plan, p);
    InPathsOf(policy, base, local, remote, plan, p, Download, MkdirLocal);
    hide Applied, FittingPlan, Regular, Planned, ChangesShow, Deleted, PathsOf, Side, Emits, Shaped, Honest;
    KeptSomewhere(lt, rt, m, p);
  }

  /** A pass loses no version it decided to keep exactly when it writes no file onto a link. */
  lemma NoKeptVersionLost(follow: Follow, policy: Policy, base: Base, local: LocalDisk, remote: RemoteStore, plan: Plan)
    requires LawfulFollow(follow) && Regular(policy, local, remote) && Planned(policy, base, local, remote, plan)
    requires ChangesShow(base, local, remote)
    ensures forall i :: 0 <= i < |plan.ops| ==> plan.ops[i].path != []
    ensures (forall p :: (p in local || p in remote) && !Deleted(policy, base, local, remote, p) ==>
               KeptAt(policy, base, local, remote, PassOf(World(follow, map[]), plan, local, remote), p))
            <==> LinksSpared(policy, base, local, remote)
  {
    hide Applied, FittingPlan, TreeShaped, Planned, ChangesShow, LawfulFollow, LinkSafe, Overwrites, KeptAt, Deleted;
    var lt, rt := LocalTree(local), RemoteTree(remote);
    PlanFits(policy, base, local, remote, plan);
    FittingPaths(plan.ops, lt, rt);
    SparedMeans(policy, base, local, remote, plan, map[]);
    var e := PassOf(World(follow, map[]), plan, local, remote);
    if LinksSpared(policy, base, local, remote) {
      forall p | (p in local || p in remote) && !Deleted(policy, base, local, remote, p) ensures KeptAt(policy, base, local, remote, e, p) {
        KeptWhenSpared(follow, policy, base, local, remote, plan, p);
      }
    } else {
      ClobberedStaysApart(World(follow, map[]), plan.ops, lt, rt);
      var p :| Apart(lt, rt, p) && Apart(e.local, e.remote, p);
      ApartNotKept(policy, base, local, remote, e, p);
    }
  }

  /** A path both sides hold is never deleted, and cannot end as one item while a link and a file stand there. */
  lemma ApartNotKept(policy: Policy, base: Base, local: LocalDisk, remote: RemoteStore, e: Effect, p: Path)
    requires Regular(policy, local, remote) && Apart(LocalTree(local), RemoteTree(remote), p) && Apart(e.local, e.remote, p)
    ensures p in local && p in remote && !Deleted(policy, base, local, remote, p)
    ensures !KeptAt(policy, base, local, remote, e, p)
  {
    DecisionShape(policy, base, local, remote, p);
    hide DecisionOf, WinningItem, TreeShaped, SameKinds;
  }

  /** Before any path is created, its parent is there already, when deletes are clean and links are spared. */
  lemma ParentsFirst(follow: Follow, policy: Policy, base: Base, local: LocalDisk, remote: RemoteStore, plan: Plan, k: nat)
    requires Regular(policy, local, remote) && Planned(policy, base, local, remote, plan)
    requires CleanDeletes(policy, base, local, remote) && LinksSpared(policy, base, local, remote) && k < |plan.ops|
    ensures forall i :: 0 <= i < |plan.ops| ==> plan.ops[i].path != []
    ensures var op, e := plan.ops[k], Applied(World(follow, map[]), plan.ops, k, LocalTree(local), RemoteTree(remote));
            var t := if LocalWins(op) then e.remote else e.local;
            !op.IsDelete() && Parent(op.path) != [] ==> Parent(op.path) in t && t[Parent(op.path)] == DirItem
  {
    var lt, rt := LocalTree(local), RemoteTree(remote);
    PlanFits(policy, base, local, remote, plan);
    SparedMeans(policy, base, local, remote, plan, map[]);
    PassFollows(World(follow, map[]), plan.ops, k, lt, rt);
    var op := plan.ops[k];
    if !op.IsDelete() && Parent(op.path) != [] {
      PrefixOfParent(Parent(op.path), op.path);
      ParentHere(policy, base, local, remote, plan, k);
    }
  }

  lemma ParentHere(policy: Policy, base: Base, local: LocalDisk, remote: RemoteStore, plan: Plan, k: nat)
    requires Regular(policy, local, remote) && Planned(policy, base, local, remote, plan)
    requires FittingPlan(plan.ops, LocalTree(local), RemoteTree(remote))
    requires CleanDeletes(policy, base, local, remote) && k < |plan.ops| && !plan.ops[k].IsDelete()
    requires plan.ops[k].path != [] && Parent(plan.ops[k].path) != []
    ensures var q, lt, rt := Parent(plan.ops[k].path), LocalTree(local), RemoteTree(remote);
            var t := if LocalWins(plan.ops[k]) then RemoteAfter(map[], plan.ops, k, lt, rt) else LocalAfter(map[], plan.ops, k, lt, rt);
            q in t && t[q] == DirItem
  {
    hide DecisionAt, DecisionOf, CleanDeletes, Ordered, DistinctPaths, PathsOf, Applied, Side;
    var lt, rt, op := LocalTree(local), RemoteTree(remote), plan.ops[k];
    var q := Parent(op.path);
    assert Fits(op, lt, rt);
    PrefixOfParent(q, op.path);
    assert DecisionOf(policy, base, local, remote, op.path).op == Some(op) by { hide *; DecidedAt(policy, base, local, remote, plan, k); }
    NoneGone(plan.ops, k);
    PlainAfter(plan.ops, k, lt, rt);
    if LocalWins(op) {
      assert q in lt && lt[q] == DirItem;
      if q !in rt { Earlier(policy, base, local, remote, plan, k, q); }
      ParentOnSide(rt, lt, PathsOf(plan.ops, k, Upload, MkdirRemote), q);
    } else {
      assert q in rt && rt[q] == DirItem;
      if q !in lt { Earlier(policy, base, local, remote, plan, k, q); }
      ParentOnSide(lt, rt, PathsOf(plan.ops, k, Download, MkdirLocal), q);
    }
  }

  /** Before a path is created nothing is deleted. */
  lemma NoneGone(ops: seq<Op>, k: nat)
    requires k < |ops| && Ordered(ops) && !ops[k].IsDelete()
    ensures PathsOf(ops, k, DeleteLocal, DeleteLocal) == {} && PathsOf(ops, k, DeleteRemote, DeleteRemote) == {}
  {
  }

  lemma ParentOnSide(own: Tree, other: Tree, sent: set<Path>, q: Path)
    requires SameKinds(own, other) && q in other && other[q] == DirItem && (q in own || q in sent)
    ensures q in Side(own, other, sent, {}) && Side(own, other, sent, {})[q] == DirItem
  {
  }

  /** A one-sided directory above a transferred path is itself made, and made earlier. */
  lemma Earlier(policy: Policy, base: Base, local: LocalDisk, remote: RemoteStore, plan: Plan, k: nat, q: Path)
    requires Regular(policy, local, remote) && Planned(policy, base, local, remote, plan)
    requires CleanDeletes(policy, base, local, remote) && k < |plan.ops| && !plan.ops[k].IsDelete()
    requires plan.ops[k].path != [] && q == Parent(plan.ops[k].path)
    requires (q in local) != (q in remote)
    requires plan.ops[k].path in local || plan.ops[k].path in remote
    requires (if q in local then local[q].item else remote[q].item) == DirItem
    ensures q in local ==> q in PathsOf(plan.ops, k, Upload, MkdirRemote)
    ensures q in remote ==> q in PathsOf(plan.ops, k, Download, MkdirLocal)
  {
    var ops := plan.ops;
    DecidedAt(policy, base, local, remote, plan, k);
    DecisionShape(policy, base, local, remote, q);
    PrefixOfParent(q, ops[k].path);
    hide DecisionAt, PathsOf, TreeShaped, SameKinds;
    assert !Deleted(policy, base, local, remote, ops[k].path);
    assert !Deleted(policy, base, local, remote, q);
    hide CleanDeletes, Regular;
    var op := DecisionOf(policy, base, local, remote, q).op.value;
    var i := Scheduled(policy, base, local, remote, plan, q);
    hide DecisionOf, IsPlan;
    PlanOrdered(policy, base, local, remote, plan);
    ShallowFirst(ops, i, k);
    if q in local {
      InPathsAt(ops, k, i, Upload, MkdirRemote);
    } else {
      InPathsAt(ops, k, i, Download, MkdirLocal);
    }
  }

  lemma ShallowFirst(ops: seq<Op>, i: nat, k: nat)
    requires Ordered(ops) && i < |ops| && k < |ops|
    requires !ops[i].IsDelete() && !ops[k].IsDelete() && |ops[i].path| < |ops[k].path|
    ensures i < k
  {
  }

  lemma PlanOrdered(policy: Policy, base: Base, local: LocalDisk, remote: RemoteStore, plan: Plan)
    requires Planned(policy, base, local, remote, plan)
    ensures Ordered(plan.ops)
  {
  }
}

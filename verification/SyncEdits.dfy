/** What a whole pass does with an edit, told by sizes, times and version tokens. */
module SyncEdits {
  import opened Core
  import opened Reconcile
  import opened SyncTree
  import opened SyncPass
  import opened SyncFailures

  /** Both sides end with this item at p. */
  ghost predicate BothHold(e: Effect, p: Path, item: Item) {
    p in e.local && p in e.remote && e.local[p] == item && e.remote[p] == item
  }

  /** Something is left of p, and nothing but this item. */
  ghost predicate HeldSomewhere(e: Effect, p: Path, item: Item) {
    (p in e.local || p in e.remote) && (p in e.local ==> e.local[p] == item) && (p in e.remote ==> e.remote[p] == item)
  }

  /**
   * A file both sides had agreed on. Edited on one side it ends as that side's version on both, edited on both as the
   * version of the side preferred, and edited on neither it is left alone.
   */
  lemma EditReachesBoth(follow: Follow, policy: Policy, base: Base, local: LocalDisk, remote: RemoteStore, plan: Plan, p: Path,
                        ls0: LocalState, rs0: RemoteState)
    requires Regular(policy, local, remote) && Planned(policy, base, local, remote, plan) && LinksSpared(policy, base, local, remote)
    requires p in base && base[p] == Agree(ls0, rs0) && ls0.kind == rs0.kind == Leaf
    requires p in local && p in remote && local[p].item.LeafItem? && remote[p].item.LeafItem?
    ensures forall i :: 0 <= i < |plan.ops| ==> plan.ops[i].path != []
    ensures var e := PassOf(World(follow, map[]), plan, local, remote);
            var lSame := local[p].size == ls0.size && local[p].mtime == ls0.mtime;
            var rSame := remote[p].content == rs0.content && remote[p].meta == rs0.meta;
            && (!lSame && (rSame || policy == PreferLocal) ==> BothHold(e, p, local[p].item))
            && (!rSame && (lSame || policy == PreferRemote) ==> BothHold(e, p, remote[p].item))
            && (lSame && rSame ==> p in e.local && p in e.remote && e.local[p] == local[p].item && e.remote[p] == remote[p].item)
  {
    NotTop(policy, local, remote, p);
    DecidedAsSeen(policy, p, ls0, rs0, Some(local[p].State()), Some(remote[p].State()));
    assert DecisionOf(policy, base, local, remote, p) ==
           Decide(policy, p, Some(local[p].State()), Some(remote[p].State()), Some(base[p]));
    hide Regular, Planned, DecisionOf, Decide, Applied;
    LeafEnds(World(follow, map[]), policy, base, local, remote, plan, p);
  }

  /** A file edited on one side and gone from the other is kept if that side is preferred. */
  lemma EditOutlivesDeletion(follow: Follow, policy: Policy, base: Base, local: LocalDisk, remote: RemoteStore, plan: Plan, p: Path,
                             ls0: LocalState, rs0: RemoteState)
    requires Regular(policy, local, remote) && Planned(policy, base, local, remote, plan) && LinksSpared(policy, base, local, remote)
    requires ChangesShow(base, local, remote) && p in base && base[p] == Agree(ls0, rs0) && ls0.kind == rs0.kind == Leaf
    ensures forall i :: 0 <= i < |plan.ops| ==> plan.ops[i].path != []
    ensures var e := PassOf(World(follow, map[]), plan, local, remote);
            && (p in local && p !in remote && local[p].item.LeafItem? && policy == PreferLocal ==>
                  local[p].size != ls0.size || local[p].mtime != ls0.mtime ==> HeldSomewhere(e, p, local[p].item))
            && (p in remote && p !in local && remote[p].item.LeafItem? && policy == PreferRemote ==>
                  remote[p].content != rs0.content || remote[p].meta != rs0.meta ==> HeldSomewhere(e, p, remote[p].item))
  {
    PathsOfPlan(policy, base, local, remote, plan);
    var ls, rs := Get(ScanLocal(local), p), Get(ScanRemote(remote), p);
    DecidedAsSeen(policy, p, ls0, rs0, ls, rs);
    hide Regular, Planned, Applied, Decide, ChangesShow, LinksSpared;
    if (p in local || p in remote) && !Deleted(policy, base, local, remote, p) {
      KeptWhenSpared(follow, policy, base, local, remote, plan, p);
    }
  }

  lemma PathsOfPlan(policy: Policy, base: Base, local: LocalDisk, remote: RemoteStore, plan: Plan)
    requires Regular(policy, local, remote) && Planned(policy, base, local, remote, plan)
    ensures forall i :: 0 <= i < |plan.ops| ==> plan.ops[i].path != []
  {
    hide Planned;
    PlanFits(policy, base, local, remote, plan);
    FittingPaths(plan.ops, LocalTree(local), RemoteTree(remote));
  }
}

/** What repeated sync passes reach. */
module SyncFixpoint {
  import opened Core
  import opened Reconcile
  import opened SyncTree
  import opened SyncLinks
  import opened SyncPass

  /** The agreement after a pass: shared paths of one kind as they now are, and the old entry of a skipped conflict. */
  function RebuiltBase(prior: Base, local: LocalSnapshot, remote: RemoteSnapshot, skipped: set<Path>): Base {
    (map p | p in local && p in remote && local[p].kind == remote[p].kind && p !in skipped :: Agree(local[p], remote[p]))
    + (map p | p in skipped && p in prior :: prior[p])
  }

  /** One pass from one state of the world to the next. */
  ghost predicate IsPass(w: World, policy: Policy, base: Base, local: LocalDisk, remote: RemoteStore, plan: Plan,
                         base': Base, local': LocalDisk, remote': RemoteStore) {
    && Planned(policy, base, local, remote, plan)
    && (forall i :: 0 <= i < |plan.ops| ==> plan.ops[i].path != [])
    && LocalTree(local') == PassOf(w, plan, local, remote).local
    && RemoteTree(remote') == PassOf(w, plan, local, remote).remote
    && base' == RebuiltBase(base, ScanLocal(local'), ScanRemote(remote'), plan.skipped)
  }

  ghost predicate NothingToDo(policy: Policy, base: Base, local: LocalDisk, remote: RemoteStore) {
    forall p :: DecisionOf(policy, base, local, remote, p).op.None?
  }

  ghost predicate SameItems(local: LocalDisk, remote: RemoteStore) {
    forall p :: p in local && p in remote ==> local[p].item == remote[p].item
  }

  /** Right after an agreement is rebuilt nothing is deleted, and only one-sided paths still need work. */
  lemma Settled(policy: Policy, prior: Base, local: LocalDisk, remote: RemoteStore)
    requires SameKinds(LocalTree(local), RemoteTree(remote))
    ensures var base := RebuiltBase(prior, ScanLocal(local), ScanRemote(remote), {});
            && (NothingToDo(policy, base, local, remote) <==> local.Keys == remote.Keys)
            && (forall p :: !Deleted(policy, base, local, remote, p)) && LinksSpared(policy, base, local, remote)
            && (SameItems(local, remote) ==> ChangesShow(base, local, remote))
  {
    hide RebuiltBase, DecisionOf, Deleted, SameKinds, ChangesShow, Overwrites;
    var base := RebuiltBase(prior, ScanLocal(local), ScanRemote(remote), {});
    if SameItems(local, remote) { SameItemsShow(base, local, remote); }
    forall p
      ensures DecisionOf(policy, base, local, remote, p).op.None? <==> (p in local <==> p in remote)
      ensures !Deleted(policy, base, local, remote, p) && !Overwrites(policy, base, local, remote, p)
    {
      SettledAt(policy, prior, local, remote, p);
    }
    if NothingToDo(policy, base, local, remote) {
      forall p ensures p in local.Keys <==> p in remote.Keys {
        assert DecisionOf(policy, base, local, remote, p).op.None?;
      }
    }
  }

  lemma SameItemsShow(base: Base, local: LocalDisk, remote: RemoteStore)
    requires SameItems(local, remote)
    ensures ChangesShow(base, local, remote)
  {
  }

  lemma SettledAt(policy: Policy, prior: Base, local: LocalDisk, remote: RemoteStore, p: Path)
    requires SameKinds(LocalTree(local), RemoteTree(remote))
    ensures var base := RebuiltBase(prior, ScanLocal(local), ScanRemote(remote), {});
            && (DecisionOf(policy, base, local, remote, p).op.None? <==> (p in local <==> p in remote))
            && !Deleted(policy, base, local, remote, p) && !Overwrites(policy, base, local, remote, p)
  {
    if p in local && p in remote { SharedKind(LocalTree(local), RemoteTree(remote), p); }
  }

  lemma NothingSkipped(policy: Policy, base: Base, local: LocalDisk, remote: RemoteStore, plan: Plan)
    requires policy != Skip && Planned(policy, base, local, remote, plan)
    ensures plan.skipped == {}
  {
    forall p ensures p !in plan.skipped {
      assert p in plan.skipped <==> DecisionAt(policy, base, ScanLocal(local), ScanRemote(remote), p).skip;
    }
  }

  lemma TreesOf(local: LocalDisk, remote: RemoteStore, e: Effect)
    requires LocalTree(local) == e.local && RemoteTree(remote) == e.remote
    ensures local.Keys == e.local.Keys && remote.Keys == e.remote.Keys
    ensures SameItems(local, remote) <==> SharedSame(e)
  {
  }

  /**
   * A pass in which nothing fails for reasons of its own. When links are spared it keeps both sides regular, and
   * the next one has nothing to do exactly when its deletes were clean. When changes show, the sides then hold the
   * same items exactly when links were spared.
   */
  lemma FixedPointIff(follow: Follow, policy: Policy, base: Base, local: LocalDisk, remote: RemoteStore, plan: Plan,
                      base': Base, local': LocalDisk, remote': RemoteStore)
    requires LawfulFollow(follow) && Regular(policy, local, remote)
    requires IsPass(World(follow, map[]), policy, base, local, remote, plan, base', local', remote')
    ensures TreeShaped(LocalTree(local')) && TreeShaped(RemoteTree(remote'))
    ensures LinksSpared(policy, base, local, remote) ==>
              && PassOf(World(follow, map[]), plan, local, remote).ok && Regular(policy, local', remote')
              && (forall p :: !Deleted(policy, base', local', remote', p)) && LinksSpared(policy, base', local', remote')
              && (NothingToDo(policy, base', local', remote') <==> CleanDeletes(policy, base, local, remote))
              && (NothingToDo(policy, base', local', remote') <==> local'.Keys == remote'.Keys)
              && (ChangesShow(base, local, remote) ==> ChangesShow(base', local', remote'))
    ensures ChangesShow(base, local, remote) ==>
              (PassOf(World(follow, map[]), plan, local, remote).ok && SameItems(local', remote')
               <==> LinksSpared(policy, base, local, remote))
  {
    OnePass(follow, policy, base, local, remote, plan);
    NothingSkipped(policy, base, local, remote, plan);
    hide Planned, PassOf, RebuiltBase, CleanDeletes, ChangesShow, NothingToDo, TreeShaped, SameKinds, Deleted, SameItems, LocalTree, RemoteTree,
         LinksSpared, SharedSame;
    TreesOf(local', remote', PassOf(World(follow, map[]), plan, local, remote));
    if LinksSpared(policy, base, local, remote) { Settled(policy, base, local', remote'); }
  }

  /** A link and a file agreed upon by mistake stay apart through the next pass, which has nothing to do there. */
  lemma StaysApart(w: World, policy: Policy, prior: Base, local: LocalDisk, remote: RemoteStore, plan: Plan, p: Path)
    requires LawfulFollow(w.follow) && TreeShaped(LocalTree(local)) && TreeShaped(RemoteTree(remote))
    requires Planned(policy, RebuiltBase(prior, ScanLocal(local), ScanRemote(remote), {}), local, remote, plan)
    requires forall i :: 0 <= i < |plan.ops| ==> plan.ops[i].path != []
    requires Apart(LocalTree(local), RemoteTree(remote), p)
    ensures Apart(PassOf(w, plan, local, remote).local, PassOf(w, plan, local, remote).remote, p)
  {
    hide RebuiltBase, Planned, Applied, LawfulFollow, Apart;
    var base := RebuiltBase(prior, ScanLocal(local), ScanRemote(remote), {});
    forall i | 0 <= i < |plan.ops| ensures plan.ops[i].path != p && !IsPrefix(plan.ops[i].path, p) {
      DecidedAt(policy, base, local, remote, plan, i);
      NothingAtOrAbove(policy, prior, local, remote, p, plan.ops[i].path);
    }
    AppliedSpares(w, plan.ops, |plan.ops|, LocalTree(local), RemoteTree(remote), p);
  }

  lemma NothingAtOrAbove(policy: Policy, prior: Base, local: LocalDisk, remote: RemoteStore, p: Path, q: Path)
    requires TreeShaped(LocalTree(local)) && TreeShaped(RemoteTree(remote)) && q != []
    requires Apart(LocalTree(local), RemoteTree(remote), p)
    ensures IsPrefix(q, p) ==>
              DecisionOf(policy, RebuiltBase(prior, ScanLocal(local), ScanRemote(remote), {}), local, remote, q).op.None?
  {
    if IsPrefix(q, p) && q != p {
      assert LocalTree(local)[q] == DirItem && RemoteTree(remote)[q] == DirItem;
    }
  }

  /**
   * Two passes. When the first spares links, the sides then hold the same paths and nothing is left to do; when
   * changes show too, they hold the same items, and every version the first pass decided to keep is in place.
   * When changes show and it does not, the sides still differ after the second.
   */
  lemma TwoPasses(follow: Follow, policy: Policy, base: Base, local: LocalDisk, remote: RemoteStore, plan: Plan,
                  base1: Base, local1: LocalDisk, remote1: RemoteStore, plan1: Plan,
                  base2: Base, local2: LocalDisk, remote2: RemoteStore)
    requires LawfulFollow(follow) && Regular(policy, local, remote)
    requires IsPass(World(follow, map[]), policy, base, local, remote, plan, base1, local1, remote1)
    requires IsPass(World(follow, map[]), policy, base1, local1, remote1, plan1, base2, local2, remote2)
    ensures LinksSpared(policy, base, local, remote) ==>
              NothingToDo(policy, base2, local2, remote2) && local2.Keys == remote2.Keys
    ensures ChangesShow(base, local, remote) ==> (SameItems(local2, remote2) <==> LinksSpared(policy, base, local, remote))
    ensures ChangesShow(base, local, remote) && LinksSpared(policy, base, local, remote) ==>
              forall p :: (p in local || p in remote) && !Deleted(policy, base, local, remote, p) ==>
                p in local2 && local2[p].item == WinningItem(policy, base, local, remote, p)
  {
    FixedPointIff(follow, policy, base, local, remote, plan, base1, local1, remote1);
    if LinksSpared(policy, base, local, remote) {
      assert CleanDeletes(policy, base1, local1, remote1);
      FixedPointIff(follow, policy, base1, local1, remote1, plan1, base2, local2, remote2);
    } else {
      StillApart(follow, policy, base, local, remote, plan, base1, local1, remote1, plan1, base2, local2, remote2);
    }
    hide *;
    if ChangesShow(base, local, remote) && LinksSpared(policy, base, local, remote) {
      forall p | (p in local || p in remote) && !Deleted(policy, base, local, remote, p)
        ensures p in local2 && local2[p].item == WinningItem(policy, base, local, remote, p)
      {
        KeptThrough(follow, policy, base, local, remote, plan, base1, local1, remote1, p);
        KeptThrough(follow, policy, base1, local1, remote1, plan1, base2, local2, remote2, p);
        WinningIsThere(policy, base1, local1, remote1, p);
        assert p in local2.Keys <==> p in remote2.Keys;
        SameAt(local2, remote2, p);
      }
    }
  }

  lemma StillApart(follow: Follow, policy: Policy, base: Base, local: LocalDisk, remote: RemoteStore, plan: Plan,
                   base1: Base, local1: LocalDisk, remote1: RemoteStore, plan1: Plan,
                   base2: Base, local2: LocalDisk, remote2: RemoteStore)
    requires LawfulFollow(follow) && Regular(policy, local, remote)
    requires IsPass(World(follow, map[]), policy, base, local, remote, plan, base1, local1, remote1)
    requires IsPass(World(follow, map[]), policy, base1, local1, remote1, plan1, base2, local2, remote2)
    requires TreeShaped(LocalTree(local1)) && TreeShaped(RemoteTree(remote1)) && !LinksSpared(policy, base, local, remote)
    ensures !SameItems(local2, remote2)
  {
    hide RebuiltBase, Planned, Applied, LawfulFollow, LinkSafe, TreeShaped, Overwrites;
    var lt, rt := LocalTree(local), RemoteTree(remote);
    PlanFits(policy, base, local, remote, plan);
    SparedMeans(policy, base, local, remote, plan, map[]);
    NothingSkipped(policy, base, local, remote, plan);
    ClobberedStaysApart(World(follow, map[]), plan.ops, lt, rt);
    var p :| Apart(lt, rt, p) && Apart(LocalTree(local1), RemoteTree(remote1), p);
    StaysApart(World(follow, map[]), policy, base, local1, remote1, plan1, p);
    ApartDiffers(local2, remote2, p);
  }

  lemma ApartDiffers(local: LocalDisk, remote: RemoteStore, p: Path)
    requires Apart(LocalTree(local), RemoteTree(remote), p)
    ensures p in local && p in remote && local[p].item.LeafItem? && remote[p].item.LeafItem? && local[p].item != remote[p].item
  {
  }

  lemma SameAt(local: LocalDisk, remote: RemoteStore, p: Path)
    requires SameItems(local, remote)
    ensures p in local && p in remote ==> local[p].item == remote[p].item
  {
  }

  lemma WinningIsThere(policy: Policy, base: Base, local: LocalDisk, remote: RemoteStore, p: Path)
    requires p in local || p in remote
    ensures var item := WinningItem(policy, base, local, remote, p);
            (p in local && local[p].item == item) || (p in remote && remote[p].item == item)
  {
  }

  lemma KeptThrough(follow: Follow, policy: Policy, base: Base, local: LocalDisk, remote: RemoteStore, plan: Plan,
                    base': Base, local': LocalDisk, remote': RemoteStore, p: Path)
    requires Regular(policy, local, remote)
    requires IsPass(World(follow, map[]), policy, base, local, remote, plan, base', local', remote')
    requires ChangesShow(base, local, remote) && LinksSpared(policy, base, local, remote)
    requires (p in local || p in remote) && !Deleted(policy, base, local, remote, p)
    ensures p in local' || p in remote'
    ensures p in local' ==> local'[p].item == WinningItem(policy, base, local, remote, p)
    ensures p in remote' ==> remote'[p].item == WinningItem(policy, base, local, remote, p)
  {
    KeptWhenSpared(follow, policy, base, local, remote, plan, p);
    hide Regular, Planned, PassOf, Deleted, RebuiltBase, ChangesShow, WinningItem, LinksSpared;
    var e := PassOf(World(follow, map[]), plan, local, remote);
    if p in e.local { assert LocalTree(local')[p] == e.local[p]; }
    if p in e.remote { assert RemoteTree(remote')[p] == e.remote[p]; }
    assert p in LocalTree(local') <==> p in local';
    assert p in RemoteTree(remote') <==> p in remote';
  }

  /** A file made locally under a directory deleted remotely: the deletes are not clean, so one pass is not enough. */
  lemma NewFileUnderDeletedDirectory(policy: Policy)
    requires policy != Skip
    ensures var local := map[["d"] := LocalEntry(DirItem, 0, 0), ["d", "x"] := LocalEntry(LeafItem(false, [1]), 1, 1)];
            var base := map[["d"] := BaseEntry(true, 0, 0, [], [])];
            Regular(policy, local, map[]) && !CleanDeletes(policy, base, local, map[])
  {
    var local := map[["d"] := LocalEntry(DirItem, 0, 0), ["d", "x"] := LocalEntry(LeafItem(false, [1]), 1, 1)];
    var base := map[["d"] := BaseEntry(true, 0, 0, [], [])];
    var lt := LocalTree(local);
    assert ["d", "x"] != ["d"] by { assert |["d", "x"]| == 2; }
    forall p, q | p in lt && IsPrefix(q, p) && q != p && q != [] ensures q in lt && lt[q] == DirItem {
      assert p == ["d", "x"] && q == ["d"];
    }
    assert Deleted(policy, base, local, map[], ["d"]);
    assert !Deleted(policy, base, local, map[], ["d", "x"]);
    assert IsPrefix(["d"], ["d", "x"]);
  }

  /** A path that is a link in the working copy and in the agreement, and that the store turned into a file. */
  function LinkLocal(): LocalDisk {
    map[["p"] := LocalEntry(LeafItem(true, [7]), 1, 1)]
  }

  function LinkRemote(): RemoteStore {
    map[["p"] := RemoteEntry(LeafItem(false, [8]), [2], [])]
  }

  function LinkBase(): Base {
    map[["p"] := BaseEntry(false, 1, 1, [1], [])]
  }

  /** There a pass writes through the link: wherever it leads, some operation fails or the two sides stay different. */
  lemma FileOntoLink(policy: Policy, follow: Follow, plan: Plan)
    requires policy != Skip && LawfulFollow(follow) && Planned(policy, LinkBase(), LinkLocal(), LinkRemote(), plan)
    ensures Regular(policy, LinkLocal(), LinkRemote()) && forall i :: 0 <= i < |plan.ops| ==> plan.ops[i].path != []
    ensures var e := PassOf(World(follow, map[]), plan, LinkLocal(), LinkRemote()); !(e.ok && SharedSame(e))
  {
    LinkNotSpared(policy);
    hide *;
    OnePass(follow, policy, LinkBase(), LinkLocal(), LinkRemote(), plan);
  }

  lemma LinkNotSpared(policy: Policy)
    requires policy != Skip
    ensures Regular(policy, LinkLocal(), LinkRemote()) && ChangesShow(LinkBase(), LinkLocal(), LinkRemote())
    ensures !LinksSpared(policy, LinkBase(), LinkLocal(), LinkRemote())
  {
    var base, local, remote := LinkBase(), LinkLocal(), LinkRemote();
    OnePathShaped(LocalTree(local), ["p"]);
    OnePathShaped(RemoteTree(remote), ["p"]);
    var one: Bytes, two: Bytes := [1], [2];
    assert one[0] != two[0];
    assert !base[["p"]].RemoteMatches(remote[["p"]].State());
    assert Overwrites(policy, base, local, remote, ["p"]);
  }

  lemma OnePathShaped(t: Tree, p: Path)
    requires t.Keys == {p} && |p| == 1
    ensures TreeShaped(t)
  {
  }
}

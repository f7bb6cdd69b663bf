/** The reconciler's pass over a working copy and a stored namespace. */
module SyncCode {
  import opened Core
  import opened Reconcile
  import opened SyncTree
  import opened SyncLinks
  import opened SyncPass
  import opened SyncFixpoint

  // ---------------------------------------------------------------- the reconciler

  method AgreeAll(ls: LocalSnapshot, rs: RemoteSnapshot, skipped: set<Path>) returns (base: Base)
    ensures base == map p | p in ls && p in rs && ls[p].kind == rs[p].kind && p !in skipped :: Agree(ls[p], rs[p])
  {
    base := map[];
    hide Agree;
    var paths := ls.Keys;
    while paths != {}
      invariant paths <= ls.Keys
      invariant forall p :: p in base <==> p in ls && p !in paths && p in rs && ls[p].kind == rs[p].kind && p !in skipped
      invariant forall p :: p in base ==> base[p] == Agree(ls[p], rs[p])
      decreases paths
    {
      var p :| p in paths;
      if p in rs && ls[p].kind == rs[p].kind && p !in skipped {
        base := base[p := Agree(ls[p], rs[p])];
      }
      paths := paths - {p};
    }
  }

  method KeepSkipped(agreed: Base, prior: Base, skipped: set<Path>) returns (base: Base)
    ensures base == agreed + map p | p in skipped && p in prior :: prior[p]
  {
    base := agreed;
    var rest := skipped;
    while rest != {}
      invariant rest <= skipped
      invariant forall p :: p in base <==> p in agreed || (p in skipped && p !in rest && p in prior)
      invariant forall p :: p in base ==> base[p] == if p in skipped && p !in rest && p in prior then prior[p] else agreed[p]
      decreases rest
    {
      var p :| p in rest;
      if p in prior {
        base := base[p := prior[p]];
      }
      rest := rest - {p};
    }
  }

  predicate AtStart(stop: Option<Fault>) {
    stop.Some? && stop.value.Early?
  }

  predicate PartWay(stop: Option<Fault>) {
    stop.Some? && stop.value.Midway?
  }

  /** How far down the directories for p go: to `all`, or less far when something stops it. */
  function DirsFor(p: Path, all: Path, stop: Option<Fault>): Path
    requires p != []
  {
    if AtStart(stop) then DirPrefix(p, stop.value.depth) else if PartWay(stop) then Parent(p) else all
  }

  class Replicas {
    /** Where the working copy's links lead. */
    const follow: Follow
    var local: LocalDisk
    var remote: RemoteStore

    ghost predicate Valid() reads this {
      LawfulFollow(follow) && TreeShaped(LocalTree(local)) && TreeShaped(RemoteTree(remote))
    }

    constructor (follow: Follow, local: LocalDisk, remote: RemoteStore)
      requires LawfulFollow(follow) && TreeShaped(LocalTree(local)) && TreeShaped(RemoteTree(remote))
      ensures Valid() && this.follow == follow && this.local == local && this.remote == remote
    {
      this.follow, this.local, this.remote := follow, local, remote;
    }

    /** The stored tree becomes t; its versions may all change, a directory's with what is below it. */
    method PutRemote(t: Tree)
      modifies this`remote
      ensures RemoteTree(remote) == t
    {
      var content: Path -> Bytes := *;
      var meta: Path -> Bytes := *;
      remote := map p | p in t :: RemoteEntry(t[p], content(p), meta(p));
    }

    /** The working copy becomes t; what is rewritten may take any size and time. */
    method PutLocal(t: Tree)
      modifies this`local
      ensures LocalTree(local) == t
    {
      var size: Path -> int := *;
      var mtime: Path -> int := *;
      local := map p | p in t :: LocalEntry(t[p], size(p), mtime(p));
    }

    /** Make the stored directory p and any missing above it. */
    method RemoteDirID(p: Path) returns (ok: bool)
      requires Valid()
      modifies this`remote
      ensures Valid() && ok == Clear(old(RemoteTree(remote)), p)
      ensures RemoteTree(remote) == if ok then WithDirs(old(RemoteTree(remote)), p) else old(RemoteTree(remote))
      decreases |p|
    {
      if p == [] {
        RootClear(RemoteTree(remote));
        return true;
      }
      ghost var t := RemoteTree(remote);
      ok := RemoteDirID(Parent(p));
      hide TreeShaped, Clear, WithDirs, LawfulFollow;
      OneDown(t, p);
      if ok {
        if p in remote {
          ok := remote[p].item == DirItem;
        } else {
          PutRemote(RemoteTree(remote)[p := DirItem]);
        }
      }
      if ok { DirsShaped(t, p); }
    }

    /** The trees are those the model's operation gives, as far as it gets, and so is success. */
    twostate predicate Did(op: Op, stop: Option<Fault>, ok: bool)
      requires op.path != []
      reads this
    {
      Effect(LocalTree(local), RemoteTree(remote), ok) ==
      if stop.Some? then Interrupted(follow, op, stop.value, old(LocalTree(local)), old(RemoteTree(remote)))
      else DoOp(follow, op, old(LocalTree(local)), old(RemoteTree(remote)))
    }

    /** Write a leaf into the working copy: a link in place of what is there, a file through a link that is there. */
    method WriteLeaf(p: Path, item: Item) returns (ok: bool)
      requires item.LeafItem?
      modifies this`local
      ensures Written(LocalTree(local), ok) == PutLeaf(follow, old(LocalTree(local)), p, item)
    {
      var t := LocalTree(local);
      if item.isSymlink || !IsLink(t, p) {
        PutLocal(t[p := item]);
        ok := true;
      } else {
        var to := follow(t, p);
        ok := !to.Refused?;
        if to.Writes? { PutLocal(t[to.path := item]); }
      }
    }

    method MkdirRemote(op: Op, stop: Option<Fault>) returns (ok: bool)
      requires Valid() && op.kind == OpKind.MkdirRemote && op.path != []
      modifies this`remote
      ensures Did(op, stop, ok)
    {
      hide TreeShaped, Clear, WithDirs, LawfulFollow;
      ok := RemoteDirID(DirsFor(op.path, op.path, stop));
      ok := ok && stop == None;
    }

    method Upload(op: Op, stop: Option<Fault>) returns (ok: bool)
      requires Valid() && op.kind == OpKind.Upload && op.path != []
      modifies this`remote
      ensures Did(op, stop, ok)
    {
      hide TreeShaped, Clear, WithDirs, Without, LawfulFollow;
      var p := op.path;
      if p !in local { return false; }
      ok := RemoteDirID(DirsFor(p, Parent(p), stop));
      if !ok || AtStart(stop) { return false; }
      if p in remote && remote[p].item == DirItem {
        PutRemote(Without(RemoteTree(remote), p));
      }
      if local[p].item == DirItem || PartWay(stop) { return false; }
      PutRemote(RemoteTree(remote)[p := local[p].item]);
      ok := stop == None;
    }

    /** Write the stored item at p into a directory that is there: a file byte by byte, a link once what it replaces is gone. */
    method Fetch(p: Path, stop: Option<Fault>) returns (ok: bool)
      requires p in remote
      modifies this`local
      ensures var t, item := old(LocalTree(local)), remote[p].item;
              var free := if p in t && t[p] == DirItem then Without(t, p) else t;
              if item == DirItem then !ok && LocalTree(local) == PutLeaf(follow, free, p, LeafItem(false, [])).tree
              else if PartWay(stop) then
                !ok && LocalTree(local) == if item.isSymlink then free - {p} else PutLeaf(follow, free, p, Cut(item, stop.value.bytes)).tree
              else
                var put := PutLeaf(follow, free, p, item);
                LocalTree(local) == put.tree && ok == (put.ok && stop == None)
    {
      hide Without, PutLeaf;
      if p in local && local[p].item == DirItem {
        PutLocal(Without(LocalTree(local), p));
      }
      if remote[p].item == DirItem {
        var _ := WriteLeaf(p, LeafItem(false, []));
        return false;
      }
      if PartWay(stop) {
        if remote[p].item.isSymlink {
          PutLocal(LocalTree(local) - {p});
        } else {
          var _ := WriteLeaf(p, Cut(remote[p].item, stop.value.bytes));
        }
        return false;
      }
      ok := WriteLeaf(p, remote[p].item);
      ok := ok && stop == None;
    }

    method Download(op: Op, stop: Option<Fault>) returns (ok: bool)
      requires Valid() && op.kind == OpKind.Download && op.path != []
      modifies this
      ensures Did(op, stop, ok)
    {
      hide TreeShaped, Clear, WithDirs, Without, PutLeaf, Cut, LawfulFollow;
      var p := op.path;
      var q := DirsFor(p, Parent(p), stop);
      if AtStart(stop) && q == [] { return false; }
      ok := RemoteDirID(Parent(p));
      if !ok || p !in remote || !Clear(LocalTree(local), q) { return false; }
      PutLocal(WithDirs(LocalTree(local), q));
      if AtStart(stop) { return false; }
      ok := Fetch(p, stop);
    }

    method MkdirLocal(op: Op, stop: Option<Fault>) returns (ok: bool)
      requires Valid() && op.kind == OpKind.MkdirLocal && op.path != []
      modifies this
      ensures Did(op, stop, ok)
    {
      hide TreeShaped, Clear, WithDirs, LawfulFollow;
      var q := DirsFor(op.path, op.path, stop);
      if !Clear(LocalTree(local), q) { return false; }
      DirsShaped(LocalTree(local), q);
      PutLocal(WithDirs(LocalTree(local), q));
      if !AtStart(stop) && !PartWay(stop) {
        var _ := RemoteDirID(Parent(op.path));
      }
      ok := stop == None;
    }

    method DeleteRemote(op: Op, stop: Option<Fault>) returns (ok: bool)
      requires Valid() && op.kind == OpKind.DeleteRemote && op.path != []
      modifies this`remote
      ensures Did(op, stop, ok)
    {
      hide TreeShaped, Clear, WithDirs, LawfulFollow;
      if AtStart(stop) || PartWay(stop) { return false; }
      ok := RemoteDirID(Parent(op.path));
      if ok {
        if op.path in remote {
          PutRemote(Without(RemoteTree(remote), op.path));
        } else {
          NothingBelow(RemoteTree(remote), op.path);
        }
      }
      ok := ok && stop == None;
    }

    method DeleteLocal(op: Op, stop: Option<Fault>) returns (ok: bool)
      requires op.kind == OpKind.DeleteLocal && op.path != []
      modifies this`local
      ensures Did(op, stop, ok)
    {
      if AtStart(stop) { return false; }
      PutLocal(if PartWay(stop) then WithoutAll(LocalTree(local), Below(op.path, stop.value.gone)) else Without(LocalTree(local), op.path));
      ok := stop == None;
    }

    method Perform(op: Op, stop: Option<Fault>) returns (ok: bool)
      requires Valid() && op.path != []
      modifies this
      ensures Valid() && Did(op, stop, ok)
    {
      hide TreeShaped, Clear, WithDirs, Without, LawfulFollow, DoOp, Interrupted;
      ghost var l, r := LocalTree(local), RemoteTree(remote);
      DoOpShaped(follow, op, l, r);
      if stop.Some? { InterruptedShaped(follow, op, stop.value, l, r); }
      match op.kind
      case MkdirRemote => ok := MkdirRemote(op, stop);
      case MkdirLocal => ok := MkdirLocal(op, stop);
      case Upload => ok := Upload(op, stop);
      case Download => ok := Download(op, stop);
      case DeleteRemote => ok := DeleteRemote(op, stop);
      case DeleteLocal => ok := DeleteLocal(op, stop);
      case Conflict =>
        ok := stop == None;
        ConflictIdle(follow, op, stop, l, r);
    }

    /** Apply a plan in order; an operation that fails is recorded, leaves what it had done, and the rest still run. */
    method Apply(plan: Plan, faults: Faults) returns (errors: seq<Op>)
      requires Valid() && forall i :: 0 <= i < |plan.ops| ==> plan.ops[i].path != []
      modifies this
      ensures Valid()
      ensures var e := Applied(World(follow, faults), plan.ops, |plan.ops|, old(LocalTree(local)), old(RemoteTree(remote)));
              LocalTree(local) == e.local && RemoteTree(remote) == e.remote && (errors == [] <==> e.ok)
    {
      hide TreeShaped, DoOp, Interrupted, LawfulFollow;
      errors := [];
      for k := 0 to |plan.ops|
        invariant Valid()
        invariant var e := Applied(World(follow, faults), plan.ops, k, old(LocalTree(local)), old(RemoteTree(remote)));
                  LocalTree(local) == e.local && RemoteTree(remote) == e.remote && (errors == [] <==> e.ok)
      {
        var op := plan.ops[k];
        var ok := Perform(op, if op.path in faults then Some(faults[op.path]) else None);
        if !ok { errors := errors + [op]; }
      }
    }

    /** The new agreement, from fresh scans of both sides. */
    method RebuildBase(prior: Base, skipped: set<Path>) returns (base: Base)
      ensures base == RebuiltBase(prior, ScanLocal(local), ScanRemote(remote), skipped)
    {
      var ls, rs := ScanLocal(local), ScanRemote(remote);
      hide ScanLocal, ScanRemote;
      var agreed := AgreeAll(ls, rs, skipped);
      base := KeepSkipped(agreed, prior, skipped);
    }

    /** One pass: scan, plan, apply, rebuild the agreement. */
    method Reconcile(policy: Policy, base: Base, faults: Faults) returns (ghost plan: Plan, newBase: Base, errors: seq<Op>)
      requires Valid()
      modifies this
      ensures Valid()
      ensures IsPass(World(follow, faults), policy, base, old(local), old(remote), plan, newBase, local, remote)
      ensures errors == [] <==> PassOf(World(follow, faults), plan, old(local), old(remote)).ok
      ensures Regular(policy, old(local), old(remote)) && faults == map[] && LinksSpared(policy, base, old(local), old(remote)) ==>
                errors == [] && (NothingToDo(policy, newBase, local, remote) <==> CleanDeletes(policy, base, old(local), old(remote)))
    {
      hide Applied, TreeShaped, IsPlan, RebuiltBase, CleanDeletes, NothingToDo, Deleted, SameKinds, LawfulFollow, LinksSpared, ChangesShow;
      var made := MakePlan(policy, base, ScanLocal(local), ScanRemote(remote));
      plan := made;
      assert Planned(policy, base, local, remote, plan);
      PathsNonempty(policy, base, local, remote, plan);
      hide Planned;
      errors := Apply(made, faults);
      newBase := RebuildBase(base, made.skipped);
      if Regular(policy, old(local), old(remote)) && faults == map[] {
        FixedPointIff(follow, policy, base, old(local), old(remote), plan, newBase, local, remote);
      }
    }
  }

  lemma ConflictIdle(follow: Follow, op: Op, stop: Option<Fault>, l: Tree, r: Tree)
    requires op.kind == Conflict && op.path != []
    ensures Effect(l, r, stop == None) == if stop.Some? then Interrupted(follow, op, stop.value, l, r) else DoOp(follow, op, l, r)
  {
  }

  lemma NothingBelow(t: Tree, p: Path)
    requires TreeShaped(t) && p != [] && p !in t
    ensures Without(t, p) == t
  {
  }

  lemma PathsNonempty(policy: Policy, base: Base, local: LocalDisk, remote: RemoteStore, plan: Plan)
    requires Planned(policy, base, local, remote, plan)
    requires TreeShaped(LocalTree(local)) && TreeShaped(RemoteTree(remote))
    ensures forall i :: 0 <= i < |plan.ops| ==> plan.ops[i].path != []
  {
  }

  lemma RootClear(t: Tree)
    requires TreeShaped(t)
    ensures Clear(t, []) && WithDirs(t, []) == t
  {
  }

  /** Directories down to p are those down to its parent and then p itself. */
  lemma OneDown(t: Tree, p: Path)
    requires TreeShaped(t) && p != []
    ensures var made := WithDirs(t, Parent(p));
            && (Clear(t, p) <==> Clear(t, Parent(p)) && (p in made ==> made[p] == DirItem))
            && (p in made ==> WithDirs(t, p) == made && (made[p] != DirItem ==> made == t))
            && (p !in made ==> WithDirs(t, p) == made[p := DirItem])
  {
    hide TreeShaped, Clear, IsPrefix, Parent, Above;
    ClearDown(t, p);
    AboveDown(p);
    if p in t { AboveHeld(t, p); }
  }

  lemma AboveDown(p: Path)
    requires p != []
    ensures Above(p) == Above(Parent(p)) + {p} && p !in Above(Parent(p))
  {
    forall q ensures IsPrefix(q, Parent(p)) <==> IsPrefix(q, p) && q != p { PrefixOfParent(q, p); }
  }

  lemma AboveHeld(t: Tree, p: Path)
    requires TreeShaped(t) && p in t && p != []
    ensures Above(Parent(p)) <= t.Keys
  {
  }

  lemma ClearDown(t: Tree, p: Path)
    requires p != []
    ensures Clear(t, p) <==> Clear(t, Parent(p)) && (p in t ==> t[p] == DirItem)
  {
    forall q ensures IsPrefix(q, Parent(p)) <==> IsPrefix(q, p) && q != p { PrefixOfParent(q, p); }
  }
}

/** What every operation of a sync pass keeps, and why a file written onto a link leaves the two sides apart. */
module SyncLinks {
  import opened Core
  import opened Reconcile
  import opened SyncTree

  // ---------------------------------------------------------------- the trees stay trees

  lemma DirsShaped(t: Tree, p: Path)
    requires TreeShaped(t) && Clear(t, p)
    ensures TreeShaped(WithDirs(t, p))
  {
  }

  lemma WithoutShaped(t: Tree, p: Path)
    requires TreeShaped(t)
    ensures TreeShaped(Without(t, p))
  {
  }

  lemma FreedReady(t: Tree, p: Path)
    requires p != [] && TreeShaped(t) && Clear(t, Parent(p))
    ensures TreeShaped(Freed(t, p)) && Room(Freed(t, p), p)
  {
    var made, free := WithDirs(t, Parent(p)), Freed(t, p);
    DirsShaped(t, Parent(p));
    WithoutShaped(made, p);
    forall x | x != [] && IsPrefix(x, p) && x != p ensures x in free && free[x] == DirItem {
      PrefixOfParent(x, p);
      assert x in Above(Parent(p)) && made[x] == DirItem && !IsPrefix(p, x);
    }
    forall x | x in made && IsPrefix(p, x) && x != p ensures x !in free {
      assert p in made && made[p] == DirItem;
    }
  }

  lemma PutShaped(t: Tree, q: Path, item: Item)
    requires TreeShaped(t) && Room(t, q)
    ensures TreeShaped(t[q := item])
  {
  }

  lemma PutLeafShaped(follow: Follow, t: Tree, p: Path, item: Item)
    requires LawfulFollow(follow) && TreeShaped(t) && Room(t, p) && item.LeafItem?
    ensures TreeShaped(PutLeaf(follow, t, p, item).tree)
  {
    hide TreeShaped, Room;
    PutShaped(t, p, item);
    if follow(t, p).Writes? {
      assert Writable(t, follow(t, p).path);
      PutShaped(t, follow(t, p).path, item);
    }
  }

  /** Every operation, failing or not, leaves two trees. */
  lemma DoShaped(w: World, op: Op, l: Tree, r: Tree)
    requires LawfulFollow(w.follow) && op.path != [] && TreeShaped(l) && TreeShaped(r)
    ensures TreeShaped(Do(w, op, l, r).local) && TreeShaped(Do(w, op, l, r).remote)
  {
    hide TreeShaped, LawfulFollow, DoOp, Interrupted;
    DoOpShaped(w.follow, op, l, r);
    if op.path in w.faults { InterruptedShaped(w.follow, op, w.faults[op.path], l, r); }
  }

  lemma DoOpShaped(follow: Follow, op: Op, l: Tree, r: Tree)
    requires LawfulFollow(follow) && op.path != [] && TreeShaped(l) && TreeShaped(r)
    ensures TreeShaped(DoOp(follow, op, l, r).local) && TreeShaped(DoOp(follow, op, l, r).remote)
  {
    hide TreeShaped, Clear, WithDirs, Without, LawfulFollow, DoUpload, DoDownload;
    var p := op.path;
    if Clear(r, Parent(p)) {
      DirsShaped(r, Parent(p));
      WithoutShaped(WithDirs(r, Parent(p)), p);
    }
    if Clear(l, p) { DirsShaped(l, p); }
    if Clear(r, p) { DirsShaped(r, p); }
    WithoutShaped(l, p);
    UploadShaped(p, l, r);
    DownloadShaped(follow, p, l, r);
  }

  lemma InterruptedShaped(follow: Follow, op: Op, f: Fault, l: Tree, r: Tree)
    requires LawfulFollow(follow) && op.path != [] && TreeShaped(l) && TreeShaped(r)
    ensures TreeShaped(Interrupted(follow, op, f, l, r).local) && TreeShaped(Interrupted(follow, op, f, l, r).remote)
  {
    hide TreeShaped, Clear, LawfulFollow, DoOp, MadeDirs, CutDownload, Freed, WithoutAll, Room;
    DoOpShaped(follow, op, l, r);
    MadeDirsShaped(op, DirPrefix(op.path, if f.Early? then f.depth else 0), l, r);
    MadeDirsShaped(op, Parent(op.path), l, r);
    if f.Midway? {
      CutDownloadShaped(follow, op.path, f.bytes, l, r);
      WithoutAllShaped(l, Below(op.path, f.gone));
      if Clear(r, Parent(op.path)) { FreedReady(r, op.path); }
    }
  }

  lemma MadeDirsShaped(op: Op, q: Path, l: Tree, r: Tree)
    requires op.path != [] && TreeShaped(l) && TreeShaped(r)
    ensures TreeShaped(MadeDirs(op, q, l, r).local) && TreeShaped(MadeDirs(op, q, l, r).remote)
  {
    hide TreeShaped, Clear, WithDirs;
    if Clear(l, q) { DirsShaped(l, q); }
    if Clear(r, q) { DirsShaped(r, q); }
    if Clear(r, Parent(op.path)) { DirsShaped(r, Parent(op.path)); }
  }

  lemma WithoutAllShaped(t: Tree, gone: set<Path>)
    requires TreeShaped(t)
    ensures TreeShaped(WithoutAll(t, gone))
  {
  }

  lemma DropShaped(t: Tree, p: Path)
    requires TreeShaped(t) && Room(t, p)
    ensures TreeShaped(t - {p})
  {
  }

  lemma CutDownloadShaped(follow: Follow, p: Path, n: nat, l: Tree, r: Tree)
    requires LawfulFollow(follow) && p != [] && TreeShaped(l) && TreeShaped(r)
    ensures TreeShaped(CutDownload(follow, p, n, l, r).local) && TreeShaped(CutDownload(follow, p, n, l, r).remote)
  {
    hide TreeShaped, Clear, WithDirs, Freed, Room, PutLeaf, LawfulFollow;
    if Clear(r, Parent(p)) { DirsShaped(r, Parent(p)); }
    if Clear(l, Parent(p)) {
      FreedReady(l, p);
      DropShaped(Freed(l, p), p);
      PutLeafShaped(follow, Freed(l, p), p, LeafItem(false, []));
      var r' := WithDirs(r, Parent(p));
      if p in r' && r'[p].LeafItem? { PutLeafShaped(follow, Freed(l, p), p, Cut(r'[p], n)); }
    }
  }

  lemma UploadShaped(p: Path, l: Tree, r: Tree)
    requires p != [] && TreeShaped(l) && TreeShaped(r)
    ensures TreeShaped(DoUpload(p, l, r).local) && TreeShaped(DoUpload(p, l, r).remote)
  {
    hide TreeShaped, Clear, Freed, Room;
    if p in l && Clear(r, Parent(p)) {
      FreedReady(r, p);
      PutShaped(Freed(r, p), p, l[p]);
    }
  }

  lemma DownloadShaped(follow: Follow, p: Path, l: Tree, r: Tree)
    requires LawfulFollow(follow) && p != [] && TreeShaped(l) && TreeShaped(r)
    ensures TreeShaped(DoDownload(follow, p, l, r).local) && TreeShaped(DoDownload(follow, p, l, r).remote)
  {
    hide TreeShaped, Clear, WithDirs, Freed, Room, PutLeaf, LawfulFollow;
    if Clear(r, Parent(p)) { DirsShaped(r, Parent(p)); }
    if Clear(l, Parent(p)) {
      FreedReady(l, p);
      PutLeafShaped(follow, Freed(l, p), p, LeafItem(false, []));
      var r' := WithDirs(r, Parent(p));
      if p in r' && r'[p].LeafItem? { PutLeafShaped(follow, Freed(l, p), p, r'[p]); }
    }
  }

  lemma {:induction false} AppliedShaped(w: World, ops: seq<Op>, k: nat, l: Tree, r: Tree)
    requires LawfulFollow(w.follow) && TreeShaped(l) && TreeShaped(r)
    requires k <= |ops| && forall i :: 0 <= i < |ops| ==> ops[i].path != []
    ensures TreeShaped(Applied(w, ops, k, l, r).local) && TreeShaped(Applied(w, ops, k, l, r).remote)
  {
    hide Do, TreeShaped, LawfulFollow;
    if k > 0 {
      AppliedShaped(w, ops, k - 1, l, r);
      var e := Applied(w, ops, k - 1, l, r);
      DoShaped(w, ops[k - 1], e.local, e.remote);
    }
  }

  // ---------------------------------------------------------------- a file written onto a link

  /** A link here and a plain file there, at one path. */
  ghost predicate Apart(l: Tree, r: Tree, p: Path) {
    IsLink(l, p) && p in r && r[p].LeafItem? && !r[p].isSymlink
  }

  lemma DirsSpare(t: Tree, x: Path, p: Path)
    requires p in t
    ensures p in WithDirs(t, x) && WithDirs(t, x)[p] == t[p]
  {
  }

  lemma FreedSpares(t: Tree, x: Path, p: Path)
    requires p in t && x != [] && (IsPrefix(x, p) ==> x == p && t[p] != DirItem)
    ensures p in Freed(t, x) && Freed(t, x)[p] == t[p]
  {
  }

  /** Writing a file at the path itself goes through the link; writing elsewhere never reaches a link. */
  lemma PutSpares(follow: Follow, t: Tree, x: Path, item: Item, p: Path)
    requires LawfulFollow(follow) && item.LeafItem? && IsLink(t, p) && (x == p ==> !item.isSymlink)
    ensures IsLink(PutLeaf(follow, t, x, item).tree, p)
  {
    if follow(t, x).Writes? { assert Writable(t, follow(t, x).path); }
  }

  /** No operation brings the link and the file together, however far it gets, given that none is decided above the path. */
  lemma DoSpares(w: World, op: Op, l: Tree, r: Tree, p: Path)
    requires LawfulFollow(w.follow) && op.path != [] && Apart(l, r, p)
    requires if op.path == p then op.kind == Download else !IsPrefix(op.path, p)
    ensures Apart(Do(w, op, l, r).local, Do(w, op, l, r).remote, p)
  {
    hide LawfulFollow, Apart, DoOp, Interrupted, IsPrefix;
    DoOpSpares(w.follow, op, l, r, p);
    if op.path in w.faults { InterruptedSpares(w.follow, op, w.faults[op.path], l, r, p); }
  }

  lemma DoOpSpares(follow: Follow, op: Op, l: Tree, r: Tree, p: Path)
    requires LawfulFollow(follow) && op.path != [] && Apart(l, r, p)
    requires if op.path == p then op.kind == Download else !IsPrefix(op.path, p)
    ensures Apart(DoOp(follow, op, l, r).local, DoOp(follow, op, l, r).remote, p)
  {
    hide Clear, WithDirs, Freed, PutLeaf, LawfulFollow;
    var x := op.path;
    DirsSpare(r, x, p);
    DirsSpare(r, Parent(x), p);
    DirsSpare(l, x, p);
    FreedSpares(l, x, p);
    FreedSpares(r, x, p);
    PutSpares(follow, Freed(l, x), x, LeafItem(false, []), p);
    var r' := WithDirs(r, Parent(x));
    if x in r' && r'[x].LeafItem? { PutSpares(follow, Freed(l, x), x, r'[x], p); }
  }

  lemma InterruptedSpares(follow: Follow, op: Op, f: Fault, l: Tree, r: Tree, p: Path)
    requires LawfulFollow(follow) && op.path != [] && Apart(l, r, p)
    requires if op.path == p then op.kind == Download else !IsPrefix(op.path, p)
    ensures Apart(Interrupted(follow, op, f, l, r).local, Interrupted(follow, op, f, l, r).remote, p)
  {
    hide Clear, WithDirs, Freed, LawfulFollow, DoOp, MadeDirs, CutDownload;
    DoOpSpares(follow, op, l, r, p);
    MadeDirsSpares(op, DirPrefix(op.path, if f.Early? then f.depth else 0), l, r, p);
    MadeDirsSpares(op, Parent(op.path), l, r, p);
    FreedSpares(r, op.path, p);
    if f.Midway? && op.kind == Download { CutDownloadSpares(follow, op.path, f.bytes, l, r, p); }
  }

  lemma MadeDirsSpares(op: Op, q: Path, l: Tree, r: Tree, p: Path)
    requires op.path != [] && Apart(l, r, p)
    ensures Apart(MadeDirs(op, q, l, r).local, MadeDirs(op, q, l, r).remote, p)
  {
    hide Clear, WithDirs;
    DirsSpare(l, q, p);
    DirsSpare(r, q, p);
    DirsSpare(r, Parent(op.path), p);
  }

  lemma CutDownloadSpares(follow: Follow, x: Path, n: nat, l: Tree, r: Tree, p: Path)
    requires LawfulFollow(follow) && x != [] && Apart(l, r, p) && (x != p ==> !IsPrefix(x, p))
    ensures Apart(CutDownload(follow, x, n, l, r).local, CutDownload(follow, x, n, l, r).remote, p)
  {
    hide Clear, WithDirs, Freed, PutLeaf, LawfulFollow;
    DirsSpare(r, Parent(x), p);
    FreedSpares(l, x, p);
    PutSpares(follow, Freed(l, x), x, LeafItem(false, []), p);
    var r' := WithDirs(r, Parent(x));
    if x in r' && r'[x].LeafItem? { PutSpares(follow, Freed(l, x), x, Cut(r'[x], n), p); }
  }

  lemma {:induction false} AppliedSpares(w: World, ops: seq<Op>, k: nat, l: Tree, r: Tree, p: Path)
    requires LawfulFollow(w.follow) && Apart(l, r, p) && k <= |ops|
    requires forall i :: 0 <= i < |ops| ==> ops[i].path != []
    requires forall i :: 0 <= i < |ops| ==>
               if ops[i].path == p then ops[i].kind == Download else !IsPrefix(ops[i].path, p)
    ensures Apart(Applied(w, ops, k, l, r).local, Applied(w, ops, k, l, r).remote, p)
  {
    hide Do, Apart, LawfulFollow;
    if k > 0 {
      AppliedSpares(w, ops, k - 1, l, r, p);
      var e := Applied(w, ops, k - 1, l, r);
      DoSpares(w, ops[k - 1], e.local, e.remote, p);
    }
  }

  /** An operation that fits the trees is never above a leaf both sides hold. */
  lemma NothingAbove(op: Op, l: Tree, r: Tree, p: Path)
    requires TreeShaped(l) && TreeShaped(r) && Fits(op, l, r) && p in l && p in r && op.path != p
    ensures !IsPrefix(op.path, p)
  {
  }

  /** A pass that writes a file onto a link leaves the link on one side and the file on the other. */
  lemma ClobberedStaysApart(w: World, ops: seq<Op>, l: Tree, r: Tree)
    requires LawfulFollow(w.follow) && FittingPlan(ops, l, r) && !LinkSafe(w.faults, ops, l, r)
    ensures forall i :: 0 <= i < |ops| ==> ops[i].path != []
    ensures exists p :: Apart(l, r, p) && Apart(Applied(w, ops, |ops|, l, r).local, Applied(w, ops, |ops|, l, r).remote, p)
  {
    hide LawfulFollow, Ordered, Applied;
    FittingPaths(ops, l, r);
    var k :| 0 <= k < |ops| && Acts(w.faults, ops[k].path) && Clobbers(ops[k], l, r);
    var p := ops[k].path;
    assert Fits(ops[k], l, r);
    forall i | 0 <= i < |ops|
      ensures if ops[i].path == p then ops[i].kind == Download else !IsPrefix(ops[i].path, p)
    {
      assert Fits(ops[i], l, r);
      if ops[i].path == p {
        assert i == k;
      } else {
        NothingAbove(ops[i], l, r, p);
      }
    }
    AppliedSpares(w, ops, |ops|, l, r, p);
  }
}

/**
 * What the operations of a sync plan do to the two trees, and the closed form of a whole pass:
 * where both trees end is a function of the sets of paths transferred and deleted.
 */
module SyncTree {
  import opened Core
  import opened Reconcile

  datatype Item = DirItem | LeafItem(isSymlink: bool, data: Bytes) {
    function Kind(): NodeKind { if DirItem? then Dir else Leaf }
  }

  type Tree = map<Path, Item>

  function Parent(p: Path): Path
    requires p != []
  {
    p[..|p| - 1]
  }

  lemma PrefixOfParent(a: Path, p: Path)
    requires p != []
    ensures IsPrefix(a, Parent(p)) <==> IsPrefix(a, p) && a != p
  {
  }

  /** Every path is nonempty and everything above it is a directory of the tree. */
  ghost predicate TreeShaped(t: Tree) {
    && [] !in t
    && forall p, q :: p in t && IsPrefix(q, p) && q != p && q != [] ==> q in t && t[q] == DirItem
  }

  // ---------------------------------------------------------------- effects

  /** Nothing at or above p is a leaf, so directories can be made down to it. */
  predicate Clear(t: Tree, p: Path) {
    forall q | q in t.Keys :: IsPrefix(q, p) ==> t[q] == DirItem
  }

  function Above(p: Path): (s: set<Path>)
    ensures forall q :: q in s <==> q != [] && IsPrefix(q, p)
  {
    var s := set i | 1 <= i <= |p| :: p[..i];
    assert forall q :: q != [] && IsPrefix(q, p) ==> q == p[..|q|];
    s
  }

  /** p and everything above it made directories where missing. */
  function WithDirs(t: Tree, p: Path): Tree {
    t + (map q | q in Above(p) && q !in t :: DirItem)
  }

  /** p and its whole subtree gone. */
  function Without(t: Tree, p: Path): Tree {
    map q | q in t && !IsPrefix(p, q) :: t[q]
  }

  datatype Effect = Effect(local: Tree, remote: Tree, ok: bool)

  /** Where a write to a symbolic link goes: nowhere, outside the synced tree, or to a file inside it. */
  datatype Through = Refused | Elsewhere | Writes(path: Path)

  /** What following the link at a path leads to. */
  type Follow = (Tree, Path) -> Through

  /** A followed write lands on a plain file, or makes one where there was none, in an existing directory. */
  ghost predicate LawfulFollow(follow: Follow) {
    forall t, p :: follow(t, p).Writes? ==> Writable(t, follow(t, p).path)
  }

  ghost predicate Writable(t: Tree, q: Path) {
    (q in t ==> t[q].LeafItem? && !t[q].isSymlink) && Room(t, q)
  }

  /** Everything above q is a directory and nothing lies below it, so a leaf can stand there. */
  ghost predicate Room(t: Tree, q: Path) {
    && q != []
    && (forall x :: x != [] && IsPrefix(x, q) && x != q ==> x in t && t[x] == DirItem)
    && (forall x :: x in t && IsPrefix(q, x) ==> x == q)
  }

  predicate IsLink(t: Tree, p: Path) {
    p in t && t[p].LeafItem? && t[p].isSymlink
  }

  datatype Written = Written(tree: Tree, ok: bool)

  /** Put a leaf at p. A link is put in place of what is there; a file is written through a link that is there. */
  function PutLeaf(follow: Follow, t: Tree, p: Path, item: Item): Written
    requires item.LeafItem?
  {
    if item.isSymlink || !IsLink(t, p) then Written(t[p := item], true)
    else
      match follow(t, p)
      case Refused => Written(t, false)
      case Elsewhere => Written(t, true)
      case Writes(q) => Written(t[q := item], true)
  }

  /**
   * How far an operation got that fails for reasons of its own. Early: so many of the directories above the path
   * were made. Midway: all of them, and then of a download so many bytes, or of a link that what it replaces is gone,
   * and of a local delete some subtrees. Late: all of it, as when restoring attributes fails.
   */
  datatype Fault = Early(depth: nat) | Midway(bytes: nat, gone: set<Path>) | Late

  type Faults = map<Path, Fault>

  /** How the pass's environment behaves: where links lead, and which paths' operations fail, and how far on. */
  datatype World = World(follow: Follow, faults: Faults)

  /** Directories made down to p and a directory standing at p cleared away. */
  function Freed(t: Tree, p: Path): Tree
    requires p != []
  {
    var made := WithDirs(t, Parent(p));
    if p in made && made[p] == DirItem then Without(made, p) else made
  }

  function DoUpload(p: Path, l: Tree, r: Tree): Effect
    requires p != []
  {
    if p !in l || !Clear(r, Parent(p)) then Effect(l, r, false)
    else
      var free := Freed(r, p);
      if l[p] == DirItem then Effect(l, free, false) else Effect(l, free[p := l[p]], true)
  }

  /** Resolving the parent of a remote item makes missing directories on the way. */
  function DoDownload(follow: Follow, p: Path, l: Tree, r: Tree): Effect
    requires p != []
  {
    if !Clear(r, Parent(p)) then Effect(l, r, false)
    else
      var r' := WithDirs(r, Parent(p));
      if p !in r' || !Clear(l, Parent(p)) then Effect(l, r', false)
      else
        var free := Freed(l, p);
        if r'[p] == DirItem then Effect(PutLeaf(follow, free, p, LeafItem(false, [])).tree, r', false)
        else
          var put := PutLeaf(follow, free, p, r'[p]);
          Effect(put.tree, r', put.ok)
  }

  /** The first bytes of a file. */
  function Cut(item: Item, n: nat): Item
    requires item.LeafItem?
  {
    LeafItem(false, if n < |item.data| then item.data[..n] else item.data)
  }

  /** A download stopped in the middle: a file has its first n bytes, a link has only lost what it replaces. */
  function CutDownload(follow: Follow, p: Path, n: nat, l: Tree, r: Tree): Effect
    requires p != []
  {
    if !Clear(r, Parent(p)) then Effect(l, r, false)
    else
      var r' := WithDirs(r, Parent(p));
      if p !in r' || !Clear(l, Parent(p)) then Effect(l, r', false)
      else
        var free := Freed(l, p);
        if r'[p] == DirItem then Effect(PutLeaf(follow, free, p, LeafItem(false, [])).tree, r', false)
        else if r'[p].isSymlink then Effect(free - {p}, r', false)
        else Effect(PutLeaf(follow, free, p, Cut(r'[p], n)).tree, r', false)
  }

  /** The directories above p, as many as given. */
  function DirPrefix(p: Path, depth: nat): Path
    requires p != []
  {
    if depth < |p| then p[..depth] else Parent(p)
  }

  /** Only directories down to q were made, on the side the operation writes. */
  function MadeDirs(op: Op, q: Path, l: Tree, r: Tree): Effect
    requires op.path != []
  {
    match op.kind
    case MkdirRemote => Effect(l, if Clear(r, q) then WithDirs(r, q) else r, false)
    case Upload => Effect(l, if op.path in l && Clear(r, q) then WithDirs(r, q) else r, false)
    case MkdirLocal => Effect(if Clear(l, q) then WithDirs(l, q) else l, r, false)
    case Download =>
      if q == [] || !Clear(r, Parent(op.path)) then Effect(l, r, false)
      else
        var r' := WithDirs(r, Parent(op.path));
        Effect(if op.path in r' && Clear(l, q) then WithDirs(l, q) else l, r', false)
    case _ => Effect(l, r, false)
  }

  /** The subtrees at these paths gone. */
  function WithoutAll(t: Tree, gone: set<Path>): Tree {
    map q | q in t && (forall x | x in gone :: !IsPrefix(x, q)) :: t[q]
  }

  function Below(p: Path, paths: set<Path>): set<Path> {
    set x | x in paths && IsPrefix(p, x)
  }

  /** Directories may be made down to any one above p, and of a subtree any paths may be gone with all that is below them. */
  lemma StopsAnywhere(p: Path, i: nat, t: Tree, gone: set<Path>, q: Path)
    requires p != [] && i < |p|
    ensures DirPrefix(p, i) == p[..i]
    ensures q in WithoutAll(t, Below(p, gone)) <==> q in t && forall x :: x in gone && IsPrefix(p, x) ==> !IsPrefix(x, q)
  {
  }

  /** What an operation that fails leaves behind. */
  function Interrupted(follow: Follow, op: Op, f: Fault, l: Tree, r: Tree): Effect
    requires op.path != []
  {
    match f
    case Late => DoOp(follow, op, l, r).(ok := false)
    case Early(depth) => MadeDirs(op, DirPrefix(op.path, depth), l, r)
    case Midway(n, gone) =>
      if op.kind == Download then CutDownload(follow, op.path, n, l, r)
      else if op.kind == DeleteLocal then Effect(WithoutAll(l, Below(op.path, gone)), r, false)
      else if op.kind == Upload && op.path in l && Clear(r, Parent(op.path)) then Effect(l, Freed(r, op.path), false)
      else MadeDirs(op, Parent(op.path), l, r)
  }

  /** One operation, to its end or as far as it gets. */
  function Do(w: World, op: Op, l: Tree, r: Tree): Effect
    requires op.path != []
  {
    if op.path in w.faults then Interrupted(w.follow, op, w.faults[op.path], l, r) else DoOp(w.follow, op, l, r)
  }

  function DoOp(follow: Follow, op: Op, l: Tree, r: Tree): Effect
    requires op.path != []
  {
    var p := op.path;
    match op.kind
    case MkdirRemote => if Clear(r, p) then Effect(l, WithDirs(r, p), true) else Effect(l, r, false)
    case MkdirLocal =>
      if !Clear(l, p) then Effect(l, r, false)
      else Effect(WithDirs(l, p), if Clear(r, Parent(p)) then WithDirs(r, Parent(p)) else r, true)
    case Upload => DoUpload(p, l, r)
    case Download => DoDownload(follow, p, l, r)
    case DeleteRemote =>
      if Clear(r, Parent(p)) then Effect(l, Without(WithDirs(r, Parent(p)), p), true) else Effect(l, r, false)
    case DeleteLocal => Effect(Without(l, p), r, true)
    case Conflict => Effect(l, r, true)
  }

  /** The first k operations applied in order; ok when none failed. */
  function Applied(w: World, ops: seq<Op>, k: nat, l: Tree, r: Tree): Effect
    requires k <= |ops| && forall i :: 0 <= i < |ops| ==> ops[i].path != []
  {
    if k == 0 then Effect(l, r, true)
    else
      var before := Applied(w, ops, k - 1, l, r);
      var e := Do(w, ops[k - 1], before.local, before.remote);
      Effect(e.local, e.remote, before.ok && e.ok)
  }

  // ---------------------------------------------------------------- the closed form

  ghost predicate Reaches(sent: set<Path>, p: Path) {
    exists q :: q in sent && IsPrefix(p, q)
  }

  ghost predicate Covers(gone: set<Path>, p: Path) {
    exists x :: x in gone && IsPrefix(x, p)
  }

  /** One side after taking `sent` from the other and then losing the subtrees of `gone`. */
  ghost function Side(own: Tree, other: Tree, sent: set<Path>, gone: set<Path>): Tree {
    map p | p in own.Keys + other.Keys && (p in own || Reaches(sent, p)) && !Covers(gone, p) ::
      if p in own && p !in sent then own[p] else if p in other then other[p] else DirItem
  }

  /** No path is a directory on one side and a leaf on the other. */
  ghost predicate SameKinds(l: Tree, r: Tree) {
    forall p :: p in l && p in r ==> l[p].Kind() == r[p].Kind()
  }

  /** What a pass has done: paths sent to local and back to remote, and subtrees removed from local and from remote. */
  datatype Moves = Moves(sent: set<Path>, sentBack: set<Path>, gone: set<Path>, goneBack: set<Path>) {
    function Swap(): Moves { Moves(sentBack, sent, goneBack, gone) }
  }

  /** The operation gets as far as writing or removing something at its path. */
  predicate Acts(faults: Faults, p: Path) {
    p in faults ==> !faults[p].Early?
  }

  predicate Whole(faults: Faults, p: Path) {
    p in faults ==> faults[p].Late?
  }

  /** The deepest path a transfer reached: its own, or a directory above it. */
  ghost function Reached(faults: Faults, op: Op): (s: set<Path>)
    requires op.path != []
  {
    if Whole(faults, op.path) || (op.kind == Download && Acts(faults, op.path)) then {op.path}
    else
      var q := DirPrefix(op.path, if faults[op.path].Early? then faults[op.path].depth else |op.path|);
      if q == [] then {} else {q}
  }

  ghost function MovesBy(faults: Faults, op: Op, r: Tree): Moves
    requires op.path != []
  {
    var p := op.path;
    match op.kind
    case Download => Moves(Reached(faults, op), {}, if Acts(faults, p) && !Whole(faults, p) && IsLink(r, p) then {p} else {}, {})
    case MkdirLocal => Moves(Reached(faults, op), {}, {}, {})
    case Upload => Moves({}, Reached(faults, op), {}, {})
    case MkdirRemote => Moves({}, Reached(faults, op), {}, {})
    case DeleteLocal =>
      Moves({}, {}, if Whole(faults, p) then {p} else if Acts(faults, p) then Below(p, faults[p].gone) else {}, {})
    case DeleteRemote => Moves({}, {}, {}, if Whole(faults, p) then {p} else {})
    case Conflict => Moves({}, {}, {}, {})
  }

  /** The moves of the first k operations. */
  ghost function Total(faults: Faults, ops: seq<Op>, k: nat, r: Tree): Moves
    requires k <= |ops| && forall i :: 0 <= i < |ops| ==> ops[i].path != []
  {
    Moves(set i, x | 0 <= i < k && x in MovesBy(faults, ops[i], r).sent :: x,
          set i, x | 0 <= i < k && x in MovesBy(faults, ops[i], r).sentBack :: x,
          set i, x | 0 <= i < k && x in MovesBy(faults, ops[i], r).gone :: x,
          set i, x | 0 <= i < k && x in MovesBy(faults, ops[i], r).goneBack :: x)
  }

  /** The remote files as downloads bring them down: cut short where one stops in the middle. */
  ghost function Seen(faults: Faults, r: Tree): Tree {
    map p | p in r :: if p in faults && faults[p].Midway? && r[p].LeafItem? && !r[p].isSymlink then Cut(r[p], faults[p].bytes) else r[p]
  }

  ghost predicate NoneFails(faults: Faults, ops: seq<Op>, k: nat)
    requires k <= |ops|
  {
    forall i :: 0 <= i < k ==> ops[i].path !in faults
  }

  /** The operation writes a plain file where a link stands. */
  ghost predicate Clobbers(op: Op, l: Tree, r: Tree) {
    op.kind == Download && IsLink(l, op.path) && !IsLink(r, op.path)
  }

  ghost predicate LinkSafe(faults: Faults, ops: seq<Op>, l: Tree, r: Tree) {
    forall i :: 0 <= i < |ops| ==> Acts(faults, ops[i].path) ==> !Clobbers(ops[i], l, r)
  }

  ghost function LocalAfter(faults: Faults, ops: seq<Op>, k: nat, l: Tree, r: Tree): Tree
    requires k <= |ops| && forall i :: 0 <= i < |ops| ==> ops[i].path != []
  {
    var m := Total(faults, ops, k, r);
    Side(l, Seen(faults, r), m.sent, m.gone)
  }

  ghost function RemoteAfter(faults: Faults, ops: seq<Op>, k: nat, l: Tree, r: Tree): Tree
    requires k <= |ops| && forall i :: 0 <= i < |ops| ==> ops[i].path != []
  {
    var m := Total(faults, ops, k, r);
    Side(r, l, m.sentBack, m.goneBack)
  }

  /** An operation that fits the trees it was decided on, kinds agreeing and conflicts resolved. */
  ghost predicate Fits(op: Op, l: Tree, r: Tree) {
    var p := op.path;
    match op.kind
    case MkdirRemote => p in l && l[p] == DirItem && p !in r
    case MkdirLocal => p in r && r[p] == DirItem && p !in l
    case Upload => p in l && l[p] != DirItem
    case Download => p in r && r[p] != DirItem
    case DeleteRemote => p in r && p !in l
    case DeleteLocal => p in l && p !in r
    case Conflict => false
  }

  ghost predicate FittingPlan(ops: seq<Op>, l: Tree, r: Tree) {
    && TreeShaped(l) && TreeShaped(r) && SameKinds(l, r)
    && Ordered(ops) && DistinctPaths(ops)
    && forall i :: 0 <= i < |ops| ==> Fits(ops[i], l, r)
  }

  // ---------------------------------------------------------------- one operation

  ghost predicate Agreeing(own: Tree, other: Tree) {
    TreeShaped(own) && TreeShaped(other) && SameKinds(own, other)
  }

  /** Nothing at or above p is removed. */
  ghost predicate Spares(gone: set<Path>, p: Path) {
    forall x :: x in gone ==> !IsPrefix(x, p)
  }

  lemma NotCovered(gone: set<Path>, q: Path, p: Path)
    requires Spares(gone, p) && IsPrefix(q, p)
    ensures !Covers(gone, q)
  {
  }

  /** What is above a path of the other side is a directory here too. */
  lemma DirsAbove(own: Tree, other: Tree, sent: set<Path>, gone: set<Path>, p: Path)
    requires Agreeing(own, other) && p in other
    ensures Clear(Side(own, other, sent, gone), Parent(p))
  {
    var t := Side(own, other, sent, gone);
    forall q | q in t && IsPrefix(q, Parent(p)) ensures t[q] == DirItem {
      PrefixOfParent(q, p);
      assert q in other && other[q] == DirItem;
    }
  }

  lemma Receive(own: Tree, other: Tree, sent: set<Path>, gone: set<Path>, p: Path)
    requires Agreeing(own, other) && Spares(gone, p)
    requires p in other && other[p] != DirItem && sent <= other.Keys
    ensures var t := Side(own, other, sent, gone);
            && Clear(t, Parent(p))
            && (p in WithDirs(t, Parent(p)) ==> WithDirs(t, Parent(p))[p] != DirItem)
            && (p in WithDirs(t, Parent(p)) && p !in sent ==> p in own && WithDirs(t, Parent(p))[p] == own[p])
            && WithDirs(t, Parent(p))[p := other[p]] == Side(own, other, sent + {p}, gone)
  {
    hide Clear, Covers, IsPrefix, Reaches;
    var t, t' := Side(own, other, sent, gone), Side(own, other, sent + {p}, gone);
    DirsAbove(own, other, sent, gone, p);
    assert p in own ==> own[p].Kind() == other[p].Kind();
    PrefixOfParent(p, p);
    LeafReached(other, sent, p);
    var r := WithDirs(t, Parent(p))[p := other[p]];
    forall q ensures (q in r <==> q in t') && (q in r ==> r[q] == t'[q]) {
      ReceiveAt(own, other, sent, gone, p, q);
    }
  }

  /** Nothing below a leaf is sent. */
  lemma LeafReached(other: Tree, sent: set<Path>, p: Path)
    requires TreeShaped(other) && sent <= other.Keys && p in other && other[p] != DirItem
    ensures Reaches(sent, p) ==> p in sent
  {
  }

  lemma ReceiveAt(own: Tree, other: Tree, sent: set<Path>, gone: set<Path>, p: Path, q: Path)
    requires Agreeing(own, other) && Spares(gone, p) && p in other && sent <= other.Keys
    ensures var r, t' := WithDirs(Side(own, other, sent, gone), Parent(p))[p := other[p]], Side(own, other, sent + {p}, gone);
            (q in r <==> q in t') && (q in r ==> r[q] == t'[q])
  {
    hide Covers;
    if IsPrefix(q, p) { NotCovered(gone, q, p); }
    PrefixOfParent(q, p);
    ReachesMore(sent, p, q);
    if q in Above(Parent(p)) {
      assert q in other && other[q] == DirItem;
      assert q in own ==> own[q].Kind() == Dir;
    }
  }

  lemma ReachesMore(sent: set<Path>, p: Path, q: Path)
    ensures Reaches(sent + {p}, q) <==> Reaches(sent, q) || IsPrefix(q, p)
  {
  }

  /** Making the directories down to one the other side has. */
  lemma ReceiveDir(own: Tree, other: Tree, sent: set<Path>, gone: set<Path>, p: Path)
    requires Agreeing(own, other) && Spares(gone, p)
    requires p in other && other[p] == DirItem && sent <= other.Keys
    ensures var t := Side(own, other, sent, gone);
            Clear(t, p) && WithDirs(t, p) == Side(own, other, sent + {p}, gone)
  {
    hide Clear, Covers;
    var t, t' := Side(own, other, sent, gone), Side(own, other, sent + {p}, gone);
    ClearTo(own, other, sent, gone, p);
    var r := WithDirs(t, p);
    forall q ensures (q in r <==> q in t') && (q in r ==> r[q] == t'[q]) {
      ReachesMore(sent, p, q);
      if IsPrefix(q, p) { NotCovered(gone, q, p); }
      if q in Above(p) {
        assert q in other && other[q] == DirItem;
        assert q in own ==> own[q].Kind() == Dir;
      }
    }
  }

  lemma ClearTo(own: Tree, other: Tree, sent: set<Path>, gone: set<Path>, p: Path)
    requires Agreeing(own, other) && p in other && other[p] == DirItem
    ensures Clear(Side(own, other, sent, gone), p)
  {
    var t := Side(own, other, sent, gone);
    forall q | q in t && IsPrefix(q, p) ensures t[q] == DirItem {
      assert q in other && other[q] == DirItem;
      assert q in own ==> own[q].Kind() == Dir;
    }
  }

  /** Nothing at all is made when there is nothing above. */
  lemma NoDirs(t: Tree)
    requires [] !in t
    ensures Clear(t, []) && WithDirs(t, []) == t
  {
  }

  /** A path of this side whose ancestors are not removed needs no directory made above it. */
  lemma KeepsAbove(own: Tree, other: Tree, sent: set<Path>, gone: set<Path>, p: Path)
    requires Agreeing(own, other) && p in own && sent <= other.Keys && Spares(gone, p)
    ensures var t := Side(own, other, sent, gone);
            Clear(t, Parent(p)) && WithDirs(t, Parent(p)) == t
  {
    var t := Side(own, other, sent, gone);
    forall q | q != [] && IsPrefix(q, Parent(p)) ensures q in t && t[q] == DirItem {
      KeptAbove(own, other, sent, gone, p, q);
    }
    hide Side, IsPrefix;
    assert [] !in t;
    assert WithDirs(t, Parent(p)) == t;
  }

  lemma KeptAbove(own: Tree, other: Tree, sent: set<Path>, gone: set<Path>, p: Path, q: Path)
    requires Agreeing(own, other) && p in own && sent <= other.Keys && Spares(gone, p)
    requires q != [] && IsPrefix(q, Parent(p))
    ensures q in Side(own, other, sent, gone) && Side(own, other, sent, gone)[q] == DirItem
  {
    PrefixOfParent(q, p);
    NotCovered(gone, q, p);
    assert own[q] == DirItem && (q in other ==> other[q].Kind() == Dir);
  }

  lemma Lose(own: Tree, other: Tree, sent: set<Path>, gone: set<Path>, more: set<Path>)
    ensures WithoutAll(Side(own, other, sent, gone), more) == Side(own, other, sent, gone + more)
  {
  }

  lemma LoseOne(t: Tree, x: Path)
    ensures Without(t, x) == WithoutAll(t, {x})
  {
  }

  /** Nothing stands below a leaf. */
  lemma BelowLeaf(own: Tree, other: Tree, sent: set<Path>, gone: set<Path>, p: Path, q: Path)
    requires Agreeing(own, other) && p in other && other[p] != DirItem && q in Side(own, other, sent, gone) && q != p
    ensures !IsPrefix(p, q)
  {
    hide Covers, Reaches;
    assert [] !in other;
    assert p in own ==> own[p].Kind() == other[p].Kind();
  }

  /** Removing a leaf removes all there is below it. */
  lemma DropLeaf(own: Tree, other: Tree, sent: set<Path>, gone: set<Path>, p: Path)
    requires p != [] && Agreeing(own, other) && Spares(gone, p) && p in other && other[p] != DirItem && sent <= other.Keys
    ensures WithDirs(Side(own, other, sent, gone), Parent(p)) - {p} == Side(own, other, sent + {p}, gone + {p})
  {
    hide Side, WithDirs, Clear, Agreeing, Spares, IsPrefix;
    var made, t := WithDirs(Side(own, other, sent, gone), Parent(p)), Side(own, other, sent + {p}, gone);
    Receive(own, other, sent, gone, p);
    Lose(own, other, sent + {p}, gone, {p});
    assert made - {p} == t - {p};
    forall q | q in t && q != p ensures !IsPrefix(p, q) { BelowLeaf(own, other, sent + {p}, gone, p, q); }
    PrefixSelf(p);
    assert t - {p} == WithoutAll(t, {p});
  }

  lemma StillThere(own: Tree, other: Tree, sent: set<Path>, gone: set<Path>, p: Path)
    requires p in own && p !in sent && Spares(gone, p)
    ensures p in Side(own, other, sent, gone) && Side(own, other, sent, gone)[p] == own[p]
  {
    PrefixSelf(p);
    NotCovered(gone, p, p);
  }

  lemma PrefixSelf(p: Path)
    ensures IsPrefix(p, p)
  {
  }

  // ---------------------------------------------------------------- the whole pass

  function Plus(a: Moves, b: Moves): Moves {
    Moves(a.sent + b.sent, a.sentBack + b.sentBack, a.gone + b.gone, a.goneBack + b.goneBack)
  }

  lemma TotalNext(faults: Faults, ops: seq<Op>, k: nat, r: Tree)
    requires k < |ops| && forall i :: 0 <= i < |ops| ==> ops[i].path != []
    ensures Total(faults, ops, k + 1, r) == Plus(Total(faults, ops, k, r), MovesBy(faults, ops[k], r))
  {
    hide MovesBy;
  }

  lemma {:induction false} SeenAgrees(faults: Faults, l: Tree, r: Tree)
    requires Agreeing(l, r)
    ensures Agreeing(l, Seen(faults, r)) && Agreeing(r, l) && Seen(faults, r).Keys == r.Keys
    ensures forall p :: p in r ==> (r[p] == DirItem <==> Seen(faults, r)[p] == DirItem)
  {
    var t := Seen(faults, r);
    forall p | p in r ensures t[p].Kind() == r[p].Kind() { }
    forall p, q | p in t && IsPrefix(q, p) && q != p && q != [] ensures q in t && t[q] == DirItem {
      assert q in r && r[q] == DirItem;
    }
  }

  /** What a reached path is. */
  lemma ReachedIn(faults: Faults, op: Op, t: Tree, x: Path)
    requires op.path != [] && TreeShaped(t) && op.path in t && x in Reached(faults, op)
    ensures x in t && IsPrefix(x, op.path) && (x != op.path ==> t[x] == DirItem)
  {
  }

  /** What the first operations have done leaves the next one's path alone. */
  lemma Undisturbed(faults: Faults, ops: seq<Op>, k: nat, l: Tree, r: Tree)
    requires k < |ops| && FittingPlan(ops, l, r) && forall i :: 0 <= i < |ops| ==> ops[i].path != []
    ensures var m, p := Total(faults, ops, k, r), ops[k].path;
            && m.sent <= r.Keys && m.sentBack <= l.Keys
            && Spares(m.gone, p) && Spares(m.goneBack, p)
            && (ops[k].kind in {Upload, Download} ==> p !in m.sent && p !in m.sentBack)
  {
    hide Ordered, DistinctPaths, TreeShaped, SameKinds, Reached;
    var p := ops[k].path;
    assert Fits(ops[k], l, r);
    forall i | 0 <= i < k
      ensures var m := MovesBy(faults, ops[i], r);
              && m.sent <= r.Keys && m.sentBack <= l.Keys && Spares(m.gone, p) && Spares(m.goneBack, p)
              && (ops[k].kind in {Upload, Download} ==> p !in m.sent && p !in m.sentBack)
    {
      assert Fits(ops[i], l, r);
      OneApart(faults, ops, i, k, l, r);
    }
  }

  lemma OneApart(faults: Faults, ops: seq<Op>, i: nat, k: nat, l: Tree, r: Tree)
    requires i < k < |ops| && FittingPlan(ops, l, r) && ops[i].path != [] && ops[k].path != []
    ensures var m, p := MovesBy(faults, ops[i], r), ops[k].path;
            && m.sent <= r.Keys && m.sentBack <= l.Keys
            && Spares(m.gone, p) && Spares(m.goneBack, p)
            && (ops[k].kind in {Upload, Download} ==> p !in m.sent && p !in m.sentBack)
  {
    var a, p := ops[i].path, ops[k].path;
    assert Fits(ops[i], l, r) && Fits(ops[k], l, r) && a != p && !Before(ops[k], ops[i]);
    hide Ordered, DistinctPaths;
    if ops[i].IsDelete() {
      DeletesApart(ops[i], ops[k]);
    } else {
      LeavesApart(l, r, a, p);
      hide TreeShaped;
      if a in r { forall x | x in Reached(faults, ops[i]) ensures x in r && (x != a ==> r[x] == DirItem) { ReachedIn(faults, ops[i], r, x); } }
      if a in l { forall x | x in Reached(faults, ops[i]) ensures x in l && (x != a ==> l[x] == DirItem) { ReachedIn(faults, ops[i], l, x); } }
      if p in l && p in r { assert l[p].Kind() == r[p].Kind(); }
      hide Reached;
    }
  }

  /** Deletes go deepest first. */
  lemma DeletesApart(a: Op, b: Op)
    requires a.IsDelete() && a.path != b.path && !Before(b, a)
    ensures forall x :: IsPrefix(a.path, x) ==> !IsPrefix(x, b.path)
  {
  }

  /** A path that is a leaf on either side has nothing below it on either. */
  lemma LeavesApart(l: Tree, r: Tree, a: Path, p: Path)
    requires Agreeing(l, r) && a != [] && a != p && (p in l || p in r)
    ensures (a in l && l[a] != DirItem) || (a in r && r[a] != DirItem) ==> !IsPrefix(a, p)
  {
    if a in l && a in r { assert l[a].Kind() == r[a].Kind(); }
  }

  lemma NoRoot(own: Tree, other: Tree, sent: set<Path>, gone: set<Path>)
    requires Agreeing(own, other)
    ensures [] !in Side(own, other, sent, gone)
  {
  }

  /** Where both trees stand after k operations, and what the next one finds. */
  ghost predicate Ready(faults: Faults, ops: seq<Op>, k: nat, l: Tree, r: Tree)
    requires k < |ops| && forall i :: 0 <= i < |ops| ==> ops[i].path != []
  {
    var m, p := Total(faults, ops, k, r), ops[k].path;
    && Agreeing(l, r) && Agreeing(r, l) && Agreeing(l, Seen(faults, r)) && Seen(faults, r).Keys == r.Keys
    && m.sent <= r.Keys && m.sentBack <= l.Keys && Spares(m.gone, p) && Spares(m.goneBack, p)
    && (ops[k].kind in {Upload, Download} ==> p !in m.sent && p !in m.sentBack)
    && Fits(ops[k], l, r)
    && Total(faults, ops, k + 1, r) == Plus(m, MovesBy(faults, ops[k], r))
  }

  lemma GetReady(faults: Faults, ops: seq<Op>, k: nat, l: Tree, r: Tree)
    requires k < |ops| && FittingPlan(ops, l, r) && forall i :: 0 <= i < |ops| ==> ops[i].path != []
    ensures Ready(faults, ops, k, l, r)
  {
    hide Total, MovesBy, TreeShaped, SameKinds, Ordered, DistinctPaths, Seen, Spares, Agreeing;
    assert Agreeing(l, r) by { hide *; FittingAgrees(ops, l, r); }
    SeenAgrees(faults, l, r);
    Undisturbed(faults, ops, k, l, r);
    TotalNext(faults, ops, k, r);
  }

  lemma FittingAgrees(ops: seq<Op>, l: Tree, r: Tree)
    requires FittingPlan(ops, l, r)
    ensures Agreeing(l, r)
  {
  }

  /** One whole operation moves the trees along the closed form. */
  lemma StepWhole(w: World, ops: seq<Op>, k: nat, l: Tree, r: Tree)
    requires k < |ops| && (forall i :: 0 <= i < |ops| ==> ops[i].path != []) && Ready(w.faults, ops, k, l, r)
    requires Whole(w.faults, ops[k].path) && !Clobbers(ops[k], l, r)
    ensures DoOp(w.follow, ops[k], LocalAfter(w.faults, ops, k, l, r), RemoteAfter(w.faults, ops, k, l, r)) ==
            Effect(LocalAfter(w.faults, ops, k + 1, l, r), RemoteAfter(w.faults, ops, k + 1, l, r), true)
  {
    hide Total, Side, WithDirs, Clear, Agreeing, Without, WithoutAll, Spares, IsPrefix;
    var p, m, seen := ops[k].path, Total(w.faults, ops, k, r), Seen(w.faults, r);
    assert m.sent + {} == m.sent && m.sentBack + {} == m.sentBack && m.gone + {} == m.gone && m.goneBack + {} == m.goneBack;
    assert p in r ==> seen[p] == r[p];
    if ops[k].kind == Upload {
      StillThere(l, seen, m.sent, m.gone, p);
      Receive(r, l, m.sentBack, m.goneBack, p);
    } else if ops[k].kind == Download {
      StillThere(r, l, m.sentBack, m.goneBack, p);
      Receive(l, seen, m.sent, m.gone, p);
      KeepsAbove(r, l, m.sentBack, m.goneBack, p);
    } else if ops[k].kind == MkdirRemote {
      ReceiveDir(r, l, m.sentBack, m.goneBack, p);
    } else if ops[k].kind == MkdirLocal {
      ReceiveDir(l, seen, m.sent, m.gone, p);
      KeepsAbove(r, l, m.sentBack, m.goneBack, p);
    } else if ops[k].kind == DeleteLocal {
      LoseOne(LocalAfter(w.faults, ops, k, l, r), p);
      Lose(l, seen, m.sent, m.gone, {p});
    } else {
      KeepsAbove(r, l, m.sentBack, m.goneBack, p);
      LoseOne(RemoteAfter(w.faults, ops, k, l, r), p);
      Lose(r, l, m.sentBack, m.goneBack, {p});
    }
  }

  /** A directory above a path of the other side. */
  lemma AboveIn(t: Tree, p: Path, q: Path, gone: set<Path>)
    requires TreeShaped(t) && p in t && q != [] && IsPrefix(q, p) && q != p && Spares(gone, p)
    ensures q in t && t[q] == DirItem && Spares(gone, q)
  {
  }

  /** Directories made down to q, or none. */
  lemma DirsMade(own: Tree, other: Tree, sent: set<Path>, gone: set<Path>, p: Path, q: Path)
    requires Agreeing(own, other) && sent <= other.Keys && Spares(gone, p) && p in other && IsPrefix(q, p) && q != p
    ensures var t := Side(own, other, sent, gone);
            Clear(t, q) && WithDirs(t, q) == Side(own, other, sent + (if q == [] then {} else {q}), gone)
  {
    hide Side, WithDirs, Clear, IsPrefix, Spares, TreeShaped, SameKinds;
    if q == [] {
      NoRoot(own, other, sent, gone);
      NoDirs(Side(own, other, sent, gone));
      assert sent + {} == sent;
    } else {
      AboveIn(other, p, q, gone);
      ReceiveDir(own, other, sent, gone, q);
    }
  }

  lemma PrefixDir(p: Path, depth: nat)
    requires p != []
    ensures IsPrefix(DirPrefix(p, depth), p) && DirPrefix(p, depth) != p
  {
  }

  /** An operation that only made directories. */
  lemma StepDirs(w: World, ops: seq<Op>, k: nat, l: Tree, r: Tree, depth: nat)
    requires k < |ops| && (forall i :: 0 <= i < |ops| ==> ops[i].path != []) && Ready(w.faults, ops, k, l, r)
    requires ops[k].path in w.faults && !w.faults[ops[k].path].Late? && depth == (if w.faults[ops[k].path].Early? then w.faults[ops[k].path].depth else |ops[k].path|)
    requires w.faults[ops[k].path].Midway? ==> ops[k].kind in {MkdirLocal, MkdirRemote, Upload, DeleteRemote}
    ensures MadeDirs(ops[k], DirPrefix(ops[k].path, depth), LocalAfter(w.faults, ops, k, l, r), RemoteAfter(w.faults, ops, k, l, r)) ==
            Effect(LocalAfter(w.faults, ops, k + 1, l, r), RemoteAfter(w.faults, ops, k + 1, l, r), false)
  {
    hide Total, Side, WithDirs, Clear, Agreeing, Spares, IsPrefix, DirPrefix, Seen;
    var p, m, seen := ops[k].path, Total(w.faults, ops, k, r), Seen(w.faults, r);
    assert m.sent + {} == m.sent && m.sentBack + {} == m.sentBack && m.gone + {} == m.gone && m.goneBack + {} == m.goneBack;
    var q := DirPrefix(p, depth);
    PrefixDir(p, depth);
    if ops[k].kind == Upload {
      StillThere(l, seen, m.sent, m.gone, p);
      DirsMade(r, l, m.sentBack, m.goneBack, p, q);
    } else if ops[k].kind == MkdirRemote {
      DirsMade(r, l, m.sentBack, m.goneBack, p, q);
    } else if ops[k].kind == MkdirLocal {
      DirsMade(l, seen, m.sent, m.gone, p, q);
    } else if ops[k].kind == Download {
      StillThere(r, l, m.sentBack, m.goneBack, p);
      KeepsAbove(r, l, m.sentBack, m.goneBack, p);
      DirsMade(l, seen, m.sent, m.gone, p, q);
    }
  }

  /** A download stopped in the middle. */
  lemma StepCutDownload(w: World, ops: seq<Op>, k: nat, l: Tree, r: Tree)
    requires k < |ops| && (forall i :: 0 <= i < |ops| ==> ops[i].path != []) && Ready(w.faults, ops, k, l, r)
    requires ops[k].kind == Download && ops[k].path in w.faults && w.faults[ops[k].path].Midway? && !Clobbers(ops[k], l, r)
    ensures CutDownload(w.follow, ops[k].path, w.faults[ops[k].path].bytes, LocalAfter(w.faults, ops, k, l, r), RemoteAfter(w.faults, ops, k, l, r)) ==
            Effect(LocalAfter(w.faults, ops, k + 1, l, r), RemoteAfter(w.faults, ops, k + 1, l, r), false)
  {
    hide Total, Side, WithDirs, Clear, Agreeing, Without, Spares, IsPrefix;
    var p, m, seen := ops[k].path, Total(w.faults, ops, k, r), Seen(w.faults, r);
    assert m.sent + {} == m.sent && m.sentBack + {} == m.sentBack && m.gone + {} == m.gone && m.goneBack + {} == m.goneBack;
    StillThere(r, l, m.sentBack, m.goneBack, p);
    KeepsAbove(r, l, m.sentBack, m.goneBack, p);
    Receive(l, seen, m.sent, m.gone, p);
    if IsLink(r, p) { DropLeaf(l, seen, m.sent, m.gone, p); }
  }

  /** What an upload stopped in the middle leaves where no directory stands: the directories above. */
  lemma NothingFreed(own: Tree, other: Tree, sent: set<Path>, gone: set<Path>, p: Path)
    requires p != [] && Agreeing(own, other) && Spares(gone, p) && p in other && other[p] != DirItem && sent <= other.Keys
    ensures Freed(Side(own, other, sent, gone), p) == WithDirs(Side(own, other, sent, gone), Parent(p))
    ensures Clear(Side(own, other, sent, gone), Parent(p))
  {
    hide Side, WithDirs, Clear;
    Receive(own, other, sent, gone, p);
  }

  lemma StepInterrupted(w: World, ops: seq<Op>, k: nat, l: Tree, r: Tree)
    requires k < |ops| && (forall i :: 0 <= i < |ops| ==> ops[i].path != []) && Ready(w.faults, ops, k, l, r)
    requires ops[k].path in w.faults && (Acts(w.faults, ops[k].path) ==> !Clobbers(ops[k], l, r))
    ensures Interrupted(w.follow, ops[k], w.faults[ops[k].path], LocalAfter(w.faults, ops, k, l, r), RemoteAfter(w.faults, ops, k, l, r)) ==
            Effect(LocalAfter(w.faults, ops, k + 1, l, r), RemoteAfter(w.faults, ops, k + 1, l, r), false)
  {
    hide Total, Side, WithDirs, Clear, Agreeing, Without, WithoutAll, Spares, IsPrefix, Freed, DoOp, MadeDirs, CutDownload, Seen;
    var p, f, m := ops[k].path, w.faults[ops[k].path], Total(w.faults, ops, k, r);
    assert m.sent + {} == m.sent && m.sentBack + {} == m.sentBack && m.gone + {} == m.gone && m.goneBack + {} == m.goneBack;
    if f.Late? {
      StepWhole(w, ops, k, l, r);
    } else if f.Early? {
      StepDirs(w, ops, k, l, r, f.depth);
    } else if ops[k].kind == Download {
      StepCutDownload(w, ops, k, l, r);
    } else if ops[k].kind == DeleteLocal {
      Lose(l, Seen(w.faults, r), m.sent, m.gone, Below(p, f.gone));
    } else {
      StepDirs(w, ops, k, l, r, |p|);
      if ops[k].kind == Upload { UploadCut(w, ops, k, l, r); }
    }
  }

  lemma UploadCut(w: World, ops: seq<Op>, k: nat, l: Tree, r: Tree)
    requires k < |ops| && (forall i :: 0 <= i < |ops| ==> ops[i].path != []) && Ready(w.faults, ops, k, l, r) && ops[k].kind == Upload
    ensures var p, lt, rt := ops[k].path, LocalAfter(w.faults, ops, k, l, r), RemoteAfter(w.faults, ops, k, l, r);
            p in lt && Clear(rt, Parent(p)) && MadeDirs(ops[k], Parent(p), lt, rt) == Effect(lt, Freed(rt, p), false)
  {
    hide Total, Side, WithDirs, Clear, Agreeing, Spares, IsPrefix, Freed, Seen;
    var p, m := ops[k].path, Total(w.faults, ops, k, r);
    StillThere(l, Seen(w.faults, r), m.sent, m.gone, p);
    NothingFreed(r, l, m.sentBack, m.goneBack, p);
  }

  /**
   * Whichever operations of a fitting plan fail and however far they get, as long as none writes a file through a
   * link: all the others succeed, and the trees follow the closed form throughout.
   */
  lemma {:induction false} PassFollows(w: World, ops: seq<Op>, k: nat, l: Tree, r: Tree)
    requires k <= |ops| && FittingPlan(ops, l, r) && LinkSafe(w.faults, ops, l, r)
    ensures forall i :: 0 <= i < |ops| ==> ops[i].path != []
    ensures Applied(w, ops, k, l, r) ==
            Effect(LocalAfter(w.faults, ops, k, l, r), RemoteAfter(w.faults, ops, k, l, r), NoneFails(w.faults, ops, k))
  {
    hide DoOp, Interrupted, LocalAfter, RemoteAfter, FittingPlan, Clobbers, Ready, Acts, Whole;
    FittingPaths(ops, l, r);
    if k == 0 {
      FittingAgrees(ops, l, r);
      NothingDone(w.faults, ops, l, r);
    } else {
      PassFollows(w, ops, k - 1, l, r);
      GetReady(w.faults, ops, k - 1, l, r);
      if ops[k - 1].path in w.faults {
        StepInterrupted(w, ops, k - 1, l, r);
      } else {
        assert Whole(w.faults, ops[k - 1].path) && Acts(w.faults, ops[k - 1].path) by { NoFault(w.faults, ops[k - 1].path); }
        StepWhole(w, ops, k - 1, l, r);
      }
    }
  }

  lemma NoFault(faults: Faults, p: Path)
    requires p !in faults
    ensures Whole(faults, p) && Acts(faults, p)
  {
  }

  lemma FittingPaths(ops: seq<Op>, l: Tree, r: Tree)
    requires FittingPlan(ops, l, r)
    ensures forall i :: 0 <= i < |ops| ==> ops[i].path != []
  {
    hide Ordered, DistinctPaths;
    forall i | 0 <= i < |ops| ensures ops[i].path != [] { assert Fits(ops[i], l, r); }
  }

  lemma NothingDone(faults: Faults, ops: seq<Op>, l: Tree, r: Tree)
    requires Agreeing(l, r) && forall i :: 0 <= i < |ops| ==> ops[i].path != []
    ensures LocalAfter(faults, ops, 0, l, r) == l && RemoteAfter(faults, ops, 0, l, r) == r
  {
    hide Side, Seen, MovesBy;
    var m := Total(faults, ops, 0, r);
    assert m.sent == {} && m.sentBack == {} && m.gone == {} && m.goneBack == {};
    SideNothing(l, Seen(faults, r));
    SideNothing(r, l);
  }

  lemma SideNothing(own: Tree, other: Tree)
    ensures Side(own, other, {}, {}) == own
  {
  }

  // ---------------------------------------------------------------- passes in which nothing fails

  /** Paths of the given operations among the first k. */
  ghost function PathsOf(ops: seq<Op>, k: nat, a: OpKind, b: OpKind): set<Path>
    requires k <= |ops|
  {
    set i | 0 <= i < k && (ops[i].kind == a || ops[i].kind == b) :: ops[i].path
  }

  ghost function PlainMoves(ops: seq<Op>, k: nat): Moves
    requires k <= |ops|
  {
    Moves(PathsOf(ops, k, Download, MkdirLocal), PathsOf(ops, k, Upload, MkdirRemote),
          PathsOf(ops, k, DeleteLocal, DeleteLocal), PathsOf(ops, k, DeleteRemote, DeleteRemote))
  }

  lemma PlainAfter(ops: seq<Op>, k: nat, l: Tree, r: Tree)
    requires k <= |ops| && forall i :: 0 <= i < |ops| ==> ops[i].path != []
    ensures Total(map[], ops, k, r) == PlainMoves(ops, k)
    ensures var m := PlainMoves(ops, k);
            LocalAfter(map[], ops, k, l, r) == Side(l, r, m.sent, m.gone) && RemoteAfter(map[], ops, k, l, r) == Side(r, l, m.sentBack, m.goneBack)
  {
    hide Side;
    forall i | 0 <= i < k
      ensures MovesBy(map[], ops[i], r).sent == if ops[i].kind in {Download, MkdirLocal} then {ops[i].path} else {}
      ensures MovesBy(map[], ops[i], r).sentBack == if ops[i].kind in {Upload, MkdirRemote} then {ops[i].path} else {}
      ensures MovesBy(map[], ops[i], r).gone == if ops[i].kind == DeleteLocal then {ops[i].path} else {}
      ensures MovesBy(map[], ops[i], r).goneBack == if ops[i].kind == DeleteRemote then {ops[i].path} else {}
    {
    }
    hide MovesBy;
    assert Seen(map[], r) == r;
    TotalPlain(ops, k, r);
  }

  lemma TotalPlain(ops: seq<Op>, k: nat, r: Tree)
    requires k <= |ops| && forall i :: 0 <= i < |ops| ==> ops[i].path != []
    requires forall i :: 0 <= i < k ==>
               && MovesBy(map[], ops[i], r).sent == (if ops[i].kind in {Download, MkdirLocal} then {ops[i].path} else {})
               && MovesBy(map[], ops[i], r).sentBack == (if ops[i].kind in {Upload, MkdirRemote} then {ops[i].path} else {})
               && MovesBy(map[], ops[i], r).gone == (if ops[i].kind == DeleteLocal then {ops[i].path} else {})
               && MovesBy(map[], ops[i], r).goneBack == (if ops[i].kind == DeleteRemote then {ops[i].path} else {})
    ensures Total(map[], ops, k, r) == PlainMoves(ops, k)
  {
    hide MovesBy;
    var t, m := Total(map[], ops, k, r), PlainMoves(ops, k);
    assert t.sent == m.sent;
    assert t.sentBack == m.sentBack;
    assert t.gone == m.gone;
    assert t.goneBack == m.goneBack;
  }
}

/** Path update and removal on the copy-on-write tree, and the move built from them. */
module Graft {
  import opened Core
  import opened Directory
  import opened Blobs

  // ---------------------------------------------------------------- what an update means

  /** A directory on the way to the updated path: rewritten under a fresh cap, its attributes kept. */
  ghost predicate Rewritten(m: BlobMap, root: ReadCap, m': BlobMap, root': ReadCap, q: Path) {
    var now := Resolve(m', root', q);
    && now.Some? && IsDir(m', now.value) && now.value !in m
    && m'[now.value].dir.meta == OldMeta(m, root, q)
  }

  ghost function OldMeta(m: BlobMap, root: ReadCap, q: Path): Metadata {
    var was := Resolve(m, root, q);
    if was.Some? && IsDir(m, was.value) then m[was.value].dir.meta else NO_METADATA
  }

  /** Paths beside p keep their entry: cap and cached attributes alike. */
  ghost predicate SameBeside(m: BlobMap, root: ReadCap, m': BlobMap, root': ReadCap, p: Path) {
    forall q :: q != [] && Incomparable(p, q) ==> EntryAt(m', root', q) == EntryAt(m, root, q)
  }

  ghost predicate SpineRewritten(m: BlobMap, root: ReadCap, m': BlobMap, root': ReadCap, p: Path) {
    forall i :: 0 <= i < |p| ==> Rewritten(m, root, m', root', p[..i])
  }

  /** `root'` is `root` with `e` bound at p: at p, below p, beside p and above p. */
  ghost predicate Grafted(m: BlobMap, root: ReadCap, m': BlobMap, root': ReadCap, p: Path, e: Entry)
    requires p != []
  {
    && EntryAt(m', root', p) == Some(e)
    && (forall q :: Resolve(m', root', p + q) == Resolve(m', e.cap, q))
    && SameBeside(m, root, m', root', p)
    && SpineRewritten(m, root, m', root', p)
  }

  /** `root'` is `root` without p: nothing at or below p, the same beside p and above p. */
  ghost predicate Removed(m: BlobMap, root: ReadCap, m': BlobMap, root': ReadCap, p: Path) {
    && (forall q :: Resolve(m', root', p + q) == None)
    && SameBeside(m, root, m', root', p)
    && SpineRewritten(m, root, m', root', p)
  }

  /** The entry a graft of `child` records at p. */
  function GraftEntry(p: Path, child: ReadCap, stat: StatCache): Entry {
    Entry(if p == [] then "" else p[|p| - 1], child, stat.(kind := child.kind))
  }

  /** Some directory on the way to p exists but is not a loadable directory. */
  ghost predicate Blocked(m: BlobMap, root: ReadCap, p: Path) {
    exists i :: 0 <= i < |p| && BlockedAt(m, root, p[..i])
  }

  ghost predicate BlockedAt(m: BlobMap, root: ReadCap, q: Path) {
    Resolve(m, root, q).Some? && !IsDir(m, Resolve(m, root, q).value)
  }

  // ---------------------------------------------------------------- one rewritten level

  /** `root'` is a new directory with root's attributes and entries `es`, in a store that grew. */
  ghost predicate Level(m: BlobMap, n: nat, root: ReadCap, m': BlobMap, n': nat, root': ReadCap, es: map<string, Entry>) {
    && WellFormed(m, n) && Extends(m, n, m', n') && root.key < n
    && IsDir(m, root) && IsDir(m', root') && root' !in m
    && m'[root'].dir.meta == m[root].dir.meta
    && Entries(m', root') == es
  }

  /** Replacing one name of a directory leaves every path through another name alone. */
  lemma BesideLevel(m: BlobMap, n: nat, root: ReadCap, m': BlobMap, n': nat, root': ReadCap,
                    es: map<string, Entry>, name: string, q: Path)
    requires Level(m, n, root, m', n', root', es) && q != [] && q[0] != name
    requires es - {name} == Entries(m, root) - {name}
    ensures EntryAt(m', root', q) == EntryAt(m, root, q)
  {
    assert q[0] in es <==> q[0] in es - {name};
    assert q[0] in Entries(m, root) <==> q[0] in Entries(m, root) - {name};
    if q[0] in es {
      assert es[q[0]] == (es - {name})[q[0]] == (Entries(m, root) - {name})[q[0]];
      EntriesBelow(m, n, root);
      if |q| > 1 { EntryAtStable(m, n, m', n', es[q[0]].cap, q[1..]); }
    }
  }

  lemma {:induction false} EntryAtStable(m: BlobMap, n: nat, m': BlobMap, n': nat, c: ReadCap, p: Path)
    requires WellFormed(m, n) && Extends(m, n, m', n') && c.key < n && p != []
    ensures EntryAt(m', c, p) == EntryAt(m, c, p)
    decreases |p|
  {
    assert Entries(m', c) == Entries(m, c);
    if p[0] in Entries(m, c) && |p| > 1 {
      EntriesBelow(m, n, c);
      EntryAtStable(m, n, m', n', Entries(m, c)[p[0]].cap, p[1..]);
    }
  }

  lemma SpineLeaf(m: BlobMap, n: nat, root: ReadCap, m': BlobMap, n': nat, root': ReadCap,
                  es: map<string, Entry>, p: Path)
    requires Level(m, n, root, m', n', root', es) && |p| == 1
    requires es - {p[0]} == Entries(m, root) - {p[0]}
    ensures SpineRewritten(m, root, m', root', p) && SameBeside(m, root, m', root', p)
  {
    assert p[..0] == [];
    assert Rewritten(m, root, m', root', []);
    forall q | q != [] && Incomparable(p, q) ensures EntryAt(m', root', q) == EntryAt(m, root, q) {
      assert q[..1] == [q[0]] && p == [p[0]];
      BesideLevel(m, n, root, m', n', root', es, p[0], q);
    }
  }

  /** The child of a level as it stood before the update below it: root's own, or a new empty directory. */
  ghost predicate Child(m: BlobMap, n: nat, root: ReadCap, name: string, mc: BlobMap, nc: nat, sub: ReadCap) {
    && Extends(m, n, mc, nc)
    && if name in Entries(m, root) then sub == Entries(m, root)[name].cap
       else IsDir(mc, sub) && mc[sub].dir == DirManifest(NO_METADATA, [])
  }

  /** What held at and below the child is what held through the name. */
  lemma ChildPaths(m: BlobMap, n: nat, root: ReadCap, name: string, mc: BlobMap, nc: nat, sub: ReadCap, q: Path)
    requires WellFormed(m, n) && Child(m, n, root, name, mc, nc, sub)
    ensures OldMeta(mc, sub, q) == OldMeta(m, root, [name] + q)
    ensures q != [] ==> EntryAt(mc, sub, q) == EntryAt(m, root, [name] + q)
    ensures name in Entries(m, root) ==> Resolve(mc, sub, q) == Resolve(m, root, [name] + q)
  {
    assert ([name] + q)[1..] == q;
    EntriesBelow(m, n, root);
    if name in Entries(m, root) {
      ResolveStable(m, n, mc, nc, sub, q);
      if q != [] { EntryAtStable(m, n, mc, nc, sub, q); }
      ResolveKnown(m, n, sub, q);
    }
  }

  /** A level whose child was itself updated, from `sub` in `mc` to `newSub` in `m1`. */
  lemma SpineStep(m: BlobMap, n: nat, root: ReadCap, mc: BlobMap, nc: nat, sub: ReadCap,
                  m1: BlobMap, n1: nat, newSub: ReadCap, m': BlobMap, n': nat, root': ReadCap, p: Path)
    requires |p| > 1 && WellFormed(m1, n1) && newSub.key < n1
    requires Child(m, n, root, p[0], mc, nc, sub) && Extends(m1, n1, m', n')
    requires Level(m, n, root, m', n', root', Entries(m, root)[p[0] := Entry(p[0], newSub, DIR_STAT)])
    requires SameBeside(mc, sub, m1, newSub, p[1..]) && SpineRewritten(mc, sub, m1, newSub, p[1..])
    ensures SameBeside(m, root, m', root', p) && SpineRewritten(m, root, m', root', p)
  {
    hide WellFormed;
    var es := Entries(m, root)[p[0] := Entry(p[0], newSub, DIR_STAT)];
    forall q | q != [] && Incomparable(p, q) ensures EntryAt(m', root', q) == EntryAt(m, root, q) {
      if q[0] != p[0] {
        BesideLevel(m, n, root, m', n', root', es, p[0], q);
      } else {
        assert q == [p[0]] + q[1..] && p == [p[0]] + p[1..];
        assert Incomparable(p[1..], q[1..]);
        ChildPaths(m, n, root, p[0], mc, nc, sub, q[1..]);
        EntryAtStable(m1, n1, m', n', newSub, q[1..]);
      }
    }
    forall i | 0 <= i < |p| ensures Rewritten(m, root, m', root', p[..i]) {
      if i > 0 {
        var q := p[1..][..i - 1];
        assert p[..i] == [p[0]] + q && p[..i][1..] == q;
        assert Rewritten(mc, sub, m1, newSub, q);
        ChildPaths(m, n, root, p[0], mc, nc, sub, q);
        ResolveStable(m1, n1, m', n', newSub, q);
      }
    }
  }

  /** The binding itself, one level up. */
  lemma BindStep(m': BlobMap, root': ReadCap, p: Path, newSub: ReadCap, m1: BlobMap, n1: nat, n': nat)
    requires |p| > 1 && WellFormed(m1, n1) && Extends(m1, n1, m', n') && newSub.key < n1
    requires p[0] in Entries(m', root') && Entries(m', root')[p[0]].cap == newSub
    ensures EntryAt(m', root', p) == EntryAt(m1, newSub, p[1..])
    ensures forall q :: Resolve(m', root', p + q) == Resolve(m1, newSub, p[1..] + q)
  {
    hide WellFormed, Extends;
    EntryAtStable(m1, n1, m', n', newSub, p[1..]);
    forall q ensures Resolve(m', root', p + q) == Resolve(m1, newSub, p[1..] + q) {
      assert (p + q)[1..] == p[1..] + q;
      ResolveStable(m1, n1, m', n', newSub, p[1..] + q);
    }
  }

  /** A path is blocked at the top or below its first name. */
  lemma BlockedStep(m: BlobMap, n: nat, root: ReadCap, p: Path, mc: BlobMap, nc: nat, sub: ReadCap)
    requires p != [] && WellFormed(m, n) && WellFormed(mc, nc)
    requires IsDir(m, root) && Child(m, n, root, p[0], mc, nc, sub)
    ensures p[0] in Entries(m, root) ==> (Blocked(m, root, p) <==> Blocked(mc, sub, p[1..]))
    ensures p[0] !in Entries(m, root) ==> !Blocked(m, root, p) && !Blocked(mc, sub, p[1..])
  {
    if p[0] in Entries(m, root) {
      EntriesBelow(m, n, root);
      forall i | 0 <= i < |p| - 1
        ensures BlockedAt(m, root, p[..i + 1]) <==> BlockedAt(mc, sub, p[1..][..i])
      {
        assert p[..i + 1] == [p[0]] + p[1..][..i];
        ChildPaths(m, n, root, p[0], mc, nc, sub, p[1..][..i]);
        ResolveKnown(m, n, sub, p[1..][..i]);
        ResolveStable(m, n, mc, nc, sub, p[1..][..i]);
      }
      if Blocked(m, root, p) {
        var i :| 0 <= i < |p| && BlockedAt(m, root, p[..i]);
        assert i > 0 && BlockedAt(mc, sub, p[1..][..i - 1]);
      }
      if Blocked(mc, sub, p[1..]) {
        var i :| 0 <= i < |p[1..]| && BlockedAt(mc, sub, p[1..][..i]);
        assert BlockedAt(m, root, p[..i + 1]);
      }
    }
  }

  // ---------------------------------------------------------------- the code

  /** Store a new version of the directory at `root` whose entries are `d`'s. */
  method StoreLevel(s: BlobStore, cfg: Config, ghost m: BlobMap, ghost n: nat, root: ReadCap, d: DirManifest)
    returns (root': ReadCap)
    requires s.Valid() && cfg.params.Valid() && EntriesOk(d.entries, s.nextKey)
    requires WellFormed(m, n) && Extends(m, n, s.blobs, s.nextKey) && root.key < n
    requires IsDir(m, root) && d.meta == m[root].dir.meta
    modifies s
    ensures Grew(s) && NewDirCap(root', old(s.nextKey), s.nextKey)
    ensures Level(m, n, root, s.blobs, s.nextKey, root', EntryMap(d.entries))
  {
    root' := s.PutBlob(cfg, KindDir, DirBlob(d));
    assert root' in m ==> BlobOk(m, n, root');
  }

  /** Rewrite one level: the directory at `root` with one entry bound. */
  method Rebind(s: BlobStore, cfg: Config, ghost m: BlobMap, ghost n: nat, root: ReadCap, d: DirManifest, e: Entry)
    returns (root': ReadCap)
    requires s.Valid() && cfg.params.Valid() && e.cap.key < s.nextKey && Homed(e.cap)
    requires WellFormed(m, n) && Extends(m, n, s.blobs, s.nextKey) && root.key < n
    requires IsDir(m, root) && d == m[root].dir
    modifies s
    ensures Grew(s) && NewDirCap(root', old(s.nextKey), s.nextKey)
    ensures Level(m, n, root, s.blobs, s.nextKey, root', Entries(m, root)[e.name := e])
  {
    assert BlobOk(m, n, root);
    var d' := Upsert(d, e);
    UpsertedOk(d.entries, root.key, e, d'.entries, s.nextKey);
    root' := StoreLevel(s, cfg, m, n, root, d');
  }

  /** A graft fails exactly when the way is blocked, and then changes nothing. */
  ghost predicate GraftOutcome(m: BlobMap, n: nat, root: ReadCap, p: Path, e: Entry,
                               m': BlobMap, n': nat, r: Result<ReadCap, LoadError>) {
    match r
    case Err(_) => m' == m && (p == [] || Blocked(m, root, p))
    case Ok(root') => p != [] && !Blocked(m, root, p) && Grafted(m, root, m', root', p, e) && NewDirCap(root', n, n')
  }

  /** Bind `child` at p, rewriting the directories on the way and creating missing ones. */
  method Graft(s: BlobStore, cfg: Config, root: ReadCap, p: Path, child: ReadCap, stat: StatCache)
    returns (r: Result<ReadCap, LoadError>)
    requires s.Valid() && cfg.params.Valid() && root.key < s.nextKey
    requires child.key < s.nextKey && Homed(child)
    modifies s
    ensures Grew(s)
    ensures GraftOutcome(old(s.blobs), old(s.nextKey), root, p, GraftEntry(p, child, stat), s.blobs, s.nextKey, r)
  {
    if p == [] {
      return Err(RootPath);
    }
    r := GraftParts(s, cfg, root, p, child, stat);
  }

  method GraftParts(s: BlobStore, cfg: Config, root: ReadCap, p: Path, child: ReadCap, stat: StatCache)
    returns (r: Result<ReadCap, LoadError>)
    requires s.Valid() && cfg.params.Valid() && root.key < s.nextKey && p != []
    requires child.key < s.nextKey && Homed(child)
    modifies s
    ensures Grew(s)
    ensures GraftOutcome(old(s.blobs), old(s.nextKey), root, p, GraftEntry(p, child, stat), s.blobs, s.nextKey, r)
    decreases |p|
  {
    ghost var m, n := s.blobs, s.nextKey;
    var loaded := s.LoadDir(root);
    if loaded.Err? {
      assert BlockedAt(m, root, p[..0]);
      r := Err(loaded.error);
    } else if |p| == 1 {
      var root' := Rebind(s, cfg, m, n, root, loaded.value, Entry(p[0], child, stat.(kind := child.kind)));
      GraftLeaf(m, n, root, s.blobs, s.nextKey, root', p, Entry(p[0], child, stat.(kind := child.kind)));
      r := Ok(root');
    } else {
      r := GraftInner(s, cfg, root, loaded.value, p, child, stat);
    }
  }

  method GraftInner(s: BlobStore, cfg: Config, root: ReadCap, d: DirManifest, p: Path, child: ReadCap, stat: StatCache)
    returns (r: Result<ReadCap, LoadError>)
    requires s.Valid() && cfg.params.Valid() && root.key < s.nextKey && |p| > 1
    requires child.key < s.nextKey && Homed(child) && IsDir(s.blobs, root) && d == s.blobs[root].dir
    modifies s
    ensures Grew(s)
    ensures GraftOutcome(old(s.blobs), old(s.nextKey), root, p, GraftEntry(p, child, stat), s.blobs, s.nextKey, r)
    decreases |p|, 0
  {
    ghost var m, n := s.blobs, s.nextKey;
    r := OpenChild(s, cfg, root, d, p);
    if r.Ok? {
      ghost var mc, nc, sub := s.blobs, s.nextKey, r.value;
      r := GraftParts(s, cfg, r.value, p[1..], child, stat);
      if r.Ok? {
        ghost var m1, n1, sub' := s.blobs, s.nextKey, r.value;
        var root' := Rebind(s, cfg, m, n, root, d, Entry(p[0], r.value, DIR_STAT));
        GraftUp(m, n, root, mc, nc, sub, m1, n1, sub', s.blobs, s.nextKey, root', p, GraftEntry(p, child, stat));
        r := Ok(root');
      }
    }
  }

  /** The subdirectory to descend into: the one named, or a new empty one. */
  method OpenChild(s: BlobStore, cfg: Config, root: ReadCap, d: DirManifest, p: Path)
    returns (r: Result<ReadCap, LoadError>)
    requires s.Valid() && cfg.params.Valid() && |p| > 1
    requires IsDir(s.blobs, root) && d == s.blobs[root].dir
    modifies s
    ensures Grew(s)
    ensures r.Err? ==> Blocked(s.blobs, root, p) && s.blobs == old(s.blobs)
    ensures r.Ok? ==> r.value.key < s.nextKey && Child(old(s.blobs), old(s.nextKey), root, p[0], s.blobs, s.nextKey, r.value)
    ensures r.Ok? && p[0] in Entries(old(s.blobs), root) ==>
              s.blobs == old(s.blobs) && (Blocked(old(s.blobs), root, p) <==> Blocked(s.blobs, r.value, p[1..]))
    ensures r.Ok? && p[0] !in Entries(old(s.blobs), root) ==>
              !Blocked(old(s.blobs), root, p) && !Blocked(s.blobs, r.value, p[1..])
  {
    ghost var m, n := s.blobs, s.nextKey;
    assert BlobOk(m, n, root);
    EntriesBelow(m, n, root);
    var found := Lookup(d, p[0]);
    if found.Some? {
      if found.value.cap.kind != KindDir {
        assert p[..1][1..] == [];
        assert BlockedAt(m, root, p[..1]);
        return Err(NotADirectory);
      }
      r := Ok(found.value.cap);
    } else {
      var sub := s.PutBlob(cfg, KindDir, DirBlob(DirManifest(NO_METADATA, [])));
      r := Ok(sub);
    }
    BlockedStep(m, n, root, p, s.blobs, s.nextKey, r.value);
  }

  lemma GraftLeaf(m: BlobMap, n: nat, root: ReadCap, m': BlobMap, n': nat, root': ReadCap, p: Path, e: Entry)
    requires |p| == 1 && e.name == p[0] && Level(m, n, root, m', n', root', Entries(m, root)[p[0] := e])
    ensures Grafted(m, root, m', root', p, e) && !Blocked(m, root, p)
  {
    SpineLeaf(m, n, root, m', n', root', Entries(m, root)[p[0] := e], p);
    LeafBinding(m', root', p);
    assert forall i :: 0 <= i < |p| ==> p[..i] == [];
  }

  lemma GraftUp(m: BlobMap, n: nat, root: ReadCap, mc: BlobMap, nc: nat, sub: ReadCap,
                m1: BlobMap, n1: nat, newSub: ReadCap, m': BlobMap, n': nat, root': ReadCap, p: Path, e: Entry)
    requires |p| > 1 && WellFormed(m1, n1) && newSub.key < n1 && e.cap.key < n1
    requires Child(m, n, root, p[0], mc, nc, sub) && Extends(m1, n1, m', n')
    requires Level(m, n, root, m', n', root', Entries(m, root)[p[0] := Entry(p[0], newSub, DIR_STAT)])
    requires Grafted(mc, sub, m1, newSub, p[1..], e)
    ensures Grafted(m, root, m', root', p, e)
  {
    SpineStep(m, n, root, mc, nc, sub, m1, n1, newSub, m', n', root', p);
    BindStep(m', root', p, newSub, m1, n1, n');
    StableBelow(m1, n1, m', n', e.cap);
  }

  lemma LeafBinding(m': BlobMap, root': ReadCap, p: Path)
    requires |p| == 1 && p[0] in Entries(m', root')
    ensures EntryAt(m', root', p) == Some(Entries(m', root')[p[0]])
    ensures forall q :: Resolve(m', root', p + q) == Resolve(m', Entries(m', root')[p[0]].cap, q)
  {
  }

  lemma StableBelow(m: BlobMap, n: nat, m': BlobMap, n': nat, c: ReadCap)
    requires WellFormed(m, n) && Extends(m, n, m', n') && c.key < n
    ensures forall q :: Resolve(m', c, q) == Resolve(m, c, q)
  {
    forall q ensures Resolve(m', c, q) == Resolve(m, c, q) {
      ResolveStable(m, n, m', n', c, q);
    }
  }

  // ---------------------------------------------------------------- removal

  /** A removal succeeds exactly when the path leads somewhere, and otherwise changes nothing. */
  ghost predicate RemoveOutcome(m: BlobMap, n: nat, root: ReadCap, p: Path,
                                m': BlobMap, n': nat, r: Result<ReadCap, LoadError>) {
    match r
    case Err(_) => m' == m && (p == [] || Resolve(m, root, p).None?)
    case Ok(root') =>
      && p != [] && Resolve(m, root, p).Some? && Removed(m, root, m', root', p) && NewDirCap(root', n, n')
  }

  method GraftRemove(s: BlobStore, cfg: Config, root: ReadCap, p: Path) returns (r: Result<ReadCap, LoadError>)
    requires s.Valid() && cfg.params.Valid() && root.key < s.nextKey
    modifies s
    ensures Grew(s)
    ensures RemoveOutcome(old(s.blobs), old(s.nextKey), root, p, s.blobs, s.nextKey, r)
  {
    if p == [] {
      return Err(RootPath);
    }
    r := RemoveParts(s, cfg, root, p);
  }

  method RemoveParts(s: BlobStore, cfg: Config, root: ReadCap, p: Path) returns (r: Result<ReadCap, LoadError>)
    requires s.Valid() && cfg.params.Valid() && root.key < s.nextKey && p != []
    modifies s
    ensures Grew(s)
    ensures RemoveOutcome(old(s.blobs), old(s.nextKey), root, p, s.blobs, s.nextKey, r)
    decreases |p|
  {
    ghost var m, n := s.blobs, s.nextKey;
    var loaded := s.LoadDir(root);
    if loaded.Err? {
      r := Err(loaded.error);
    } else if |p| == 1 {
      r := Unbind(s, cfg, root, loaded.value, p);
    } else {
      var found := Lookup(loaded.value, p[0]);
      if found.None? {
        r := Err(NotFound);
      } else if found.value.cap.kind != KindDir {
        assert Entries(m, found.value.cap) == map[];
        r := Err(NotADirectory);
      } else {
        EntriesBelow(m, n, root);
        r := RemoveParts(s, cfg, found.value.cap, p[1..]);
        if r.Ok? {
          ghost var m1, n1, sub' := s.blobs, s.nextKey, r.value;
          var root' := Rebind(s, cfg, m, n, root, loaded.value, Entry(p[0], r.value, DIR_STAT));
          RemoveUp(m, n, root, found.value.cap, m1, n1, sub', s.blobs, s.nextKey, root', p);
          r := Ok(root');
        }
      }
    }
  }

  /** Rewrite one level without the name p, if it is there. */
  method Unbind(s: BlobStore, cfg: Config, root: ReadCap, d: DirManifest, p: Path) returns (r: Result<ReadCap, LoadError>)
    requires s.Valid() && cfg.params.Valid() && |p| == 1
    requires IsDir(s.blobs, root) && d == s.blobs[root].dir
    modifies s
    ensures Grew(s)
    ensures RemoveOutcome(old(s.blobs), old(s.nextKey), root, p, s.blobs, s.nextKey, r)
  {
    ghost var m, n := s.blobs, s.nextKey;
    assert BlobOk(m, n, root);
    var d', removed := Directory.Remove(d, p[0]);
    if !removed {
      r := Err(NotFound);
    } else {
      var root' := StoreLevel(s, cfg, m, n, root, d');
      SpineLeaf(m, n, root, s.blobs, s.nextKey, root', EntryMap(d'.entries), p);
      forall q ensures Resolve(s.blobs, root', p + q) == None {
        assert (p + q)[0] == p[0];
      }
      r := Ok(root');
    }
  }

  lemma RemoveUp(m: BlobMap, n: nat, root: ReadCap, sub: ReadCap, m1: BlobMap, n1: nat, newSub: ReadCap,
                 m': BlobMap, n': nat, root': ReadCap, p: Path)
    requires |p| > 1 && WellFormed(m1, n1) && newSub.key < n1
    requires p[0] in Entries(m, root) && sub == Entries(m, root)[p[0]].cap && Extends(m1, n1, m', n')
    requires Level(m, n, root, m', n', root', Entries(m, root)[p[0] := Entry(p[0], newSub, DIR_STAT)])
    requires Removed(m, sub, m1, newSub, p[1..])
    ensures Removed(m, root, m', root', p)
  {
    SpineStep(m, n, root, m, n, sub, m1, n1, newSub, m', n', root', p);
    BindStep(m', root', p, newSub, m1, n1, n');
  }

  // ---------------------------------------------------------------- move

  /** What a move promises: all of src is now at dst, src is gone, and everything beside both is untouched. */
  ghost predicate Moved(m: BlobMap, root: ReadCap, m': BlobMap, root': ReadCap, src: Path, dst: Path) {
    && (forall q :: Resolve(m', root', dst + q) == Resolve(m, root, src + q))
    && (forall q :: Resolve(m', root', src + q) == None)
    && (forall q :: q != [] && Incomparable(src, q) && Incomparable(dst, q) ==>
          EntryAt(m', root', q) == EntryAt(m, root, q))
  }

  lemma BelowBeside(p: Path, dst: Path, q: Path)
    requires Incomparable(p, dst)
    ensures Incomparable(p, dst + q)
  {
  }

  /** Grafting src's cap at dst and then removing src moves it, when neither path contains the other. */
  lemma GraftThenRemove(m: BlobMap, n: nat, root: ReadCap, m1: BlobMap, n1: nat, root1: ReadCap,
                        m2: BlobMap, n2: nat, root2: ReadCap, src: Path, dst: Path, e: Entry)
    requires WellFormed(m, n) && Extends(m, n, m1, n1) && src != [] && dst != [] && root.key < n
    requires Resolve(m, root, src) == Some(e.cap)
    requires Grafted(m, root, m1, root1, dst, e) && Removed(m1, root1, m2, root2, src)
    requires Incomparable(src, dst)
    ensures Moved(m, root, m2, root2, src, dst)
  {
    hide WellFormed, Extends, SpineRewritten;
    forall q ensures Resolve(m2, root2, dst + q) == Resolve(m, root, src + q) {
      BelowBeside(src, dst, q);
      EntryAtResolves(m2, root2, dst + q);
      EntryAtResolves(m1, root1, dst + q);
      BelowGrafted(m, n, root, m1, n1, src, e.cap, q);
    }
  }

  lemma BelowGrafted(m: BlobMap, n: nat, root: ReadCap, m1: BlobMap, n1: nat, src: Path, c: ReadCap, q: Path)
    requires WellFormed(m, n) && Extends(m, n, m1, n1) && root.key < n && Resolve(m, root, src) == Some(c)
    ensures Resolve(m1, c, q) == Resolve(m, root, src + q)
  {
    ResolveKnown(m, n, root, src);
    ResolveStable(m, n, m1, n1, c, q);
    ResolveConcat(m, root, src, q);
  }

  /**
   * When dst lies above src the graft has already replaced the directory that held src. If the second
   * step still finds something to remove, it removes part of what was just moved.
   */
  lemma MoveUpwardLoses(m: BlobMap, n: nat, root: ReadCap, m1: BlobMap, n1: nat, root1: ReadCap,
                        m2: BlobMap, n2: nat, root2: ReadCap, dst: Path, rest: Path, e: Entry)
    requires WellFormed(m, n) && Extends(m, n, m1, n1) && dst != [] && rest != [] && root.key < n
    requires Resolve(m, root, dst + rest) == Some(e.cap)
    requires Grafted(m, root, m1, root1, dst, e) && Removed(m1, root1, m2, root2, dst + rest)
    requires Resolve(m1, root1, dst + rest).Some?
    ensures !Moved(m, root, m2, root2, dst + rest, dst)
    ensures Resolve(m, root, dst + rest + rest).Some? && Resolve(m2, root2, dst + rest).None?
  {
    assert (dst + rest) + [] == dst + rest;
    ResolveKnown(m, n, root, dst + rest);
    ResolveStable(m, n, m1, n1, e.cap, rest);
    ResolveConcat(m, root, dst + rest, rest);
    assert Resolve(m2, root2, (dst + rest) + []) == None;
  }

  /** Every directory on the way to something that resolves is loadable. */
  lemma NotBlocked(m: BlobMap, root: ReadCap, p: Path)
    requires Resolve(m, root, p).Some?
    ensures !Blocked(m, root, p)
  {
    forall i | 0 <= i < |p| ensures !BlockedAt(m, root, p[..i]) {
      ThroughDirs(m, root, p, i);
    }
  }

  /** A graft above src leaves src resolving exactly when what was grafted continues the same way. */
  lemma AfterUpwardGraft(m: BlobMap, n: nat, root: ReadCap, m1: BlobMap, n1: nat, root1: ReadCap, src: Path, dst: Path, e: Entry)
    requires WellFormed(m, n) && Extends(m, n, m1, n1) && dst != [] && root.key < n
    requires Resolve(m, root, src) == Some(e.cap) && IsPrefix(dst, src) && Grafted(m, root, m1, root1, dst, e)
    ensures Resolve(m1, root1, src) == Resolve(m, root, src + src[|dst|..])
  {
    var rest := src[|dst|..];
    assert src == dst + rest;
    ResolveKnown(m, n, root, src);
    ResolveStable(m, n, m1, n1, e.cap, rest);
    ResolveConcat(m, root, src, rest);
  }

  lemma PrefixNotBlocked(m: BlobMap, root: ReadCap, src: Path, dst: Path)
    requires Resolve(m, root, src).Some? && IsPrefix(dst, src)
    ensures !Blocked(m, root, dst)
  {
    assert src == dst + src[|dst|..];
    ResolveConcat(m, root, dst, src[|dst|..]);
    NotBlocked(m, root, dst);
  }

  lemma StillThere(m: BlobMap, root: ReadCap, m1: BlobMap, root1: ReadCap, src: Path, dst: Path)
    requires src != [] && SameBeside(m, root, m1, root1, dst)
    ensures Incomparable(dst, src) ==> Resolve(m1, root1, src) == Resolve(m, root, src)
  {
    EntryAtResolves(m, root, src);
    EntryAtResolves(m1, root1, src);
  }

  lemma MoveExactness(m: BlobMap, n: nat, root: ReadCap, m1: BlobMap, n1: nat, root1: ReadCap,
                      m2: BlobMap, n2: nat, root2: ReadCap, src: Path, dst: Path, e: Entry)
    requires WellFormed(m, n) && Extends(m, n, m1, n1) && src != [] && dst != [] && root.key < n
    requires Resolve(m, root, src) == Some(e.cap) && !IsPrefix(src, dst)
    requires Grafted(m, root, m1, root1, dst, e) && Removed(m1, root1, m2, root2, src)
    requires Resolve(m1, root1, src).Some?
    ensures Moved(m, root, m2, root2, src, dst) <==> Incomparable(src, dst)
  {
    if Incomparable(src, dst) {
      GraftThenRemove(m, n, root, m1, n1, root1, m2, n2, root2, src, dst, e);
    } else {
      assert src == dst + src[|dst|..];
      MoveUpwardLoses(m, n, root, m1, n1, root1, m2, n2, root2, dst, src[|dst|..], e);
    }
  }

  /** Walk a path like Resolve, but report the parent's entry. */
  method ResolveEntry(s: BlobStore, root: ReadCap, p: Path) returns (r: Result<Entry, LoadError>)
    requires s.Valid()
    ensures p == [] ==> r == Ok(Entry("", root, DIR_STAT))
    ensures p != [] ==> (r.Ok? <==> EntryAt(s.blobs, root, p).Some?) && (r.Ok? ==> EntryAt(s.blobs, root, p) == Some(r.value))
    ensures r.Ok? <==> Resolve(s.blobs, root, p).Some?
    ensures r.Ok? ==> Resolve(s.blobs, root, p) == Some(r.value.cap)
    ensures r.Ok? && p != [] ==> Homed(r.value.cap)
  {
    if p == [] {
      return Ok(Entry("", root, DIR_STAT));
    }
    EntryAtResolves(s.blobs, root, p);
    var cur := root;
    for i := 0 to |p|
      invariant EntryAt(s.blobs, root, p) == if i < |p| then EntryAt(s.blobs, cur, p[i..]) else None
      invariant i < |p|
    {
      if cur.kind != KindDir {
        return Err(NotADirectory);
      }
      var d := s.LoadDir(cur);
      if d.Err? {
        return Err(d.error);
      }
      EntriesBelow(s.blobs, s.nextKey, cur);
      var e := Lookup(d.value, p[i]);
      if e.None? {
        return Err(NotFound);
      }
      if i == |p| - 1 {
        return Ok(e.value);
      }
      assert p[i..][1..] == p[i + 1..];
      cur := e.value.cap;
    }
    return Err(NotFound);
  }

  /** Walk a path from a root, one directory at a time. */
  method ResolvePath(s: BlobStore, root: ReadCap, p: Path) returns (r: Result<ReadCap, LoadError>)
    requires s.Valid()
    ensures r.Ok? <==> Resolve(s.blobs, root, p).Some?
    ensures r.Ok? ==> Resolve(s.blobs, root, p) == Some(r.value)
  {
    var cur := root;
    for i := 0 to |p|
      invariant Resolve(s.blobs, root, p) == Resolve(s.blobs, cur, p[i..])
    {
      if cur.kind != KindDir {
        return Err(NotADirectory);
      }
      var d := s.LoadDir(cur);
      if d.Err? {
        return Err(d.error);
      }
      var e := Lookup(d.value, p[i]);
      if e.None? {
        return Err(NotFound);
      }
      assert p[i..][1..] == p[i + 1..];
      cur := e.value.cap;
    }
    return Ok(cur);
  }
}

/** The recursive enumeration of the program, proved to report exactly what module Diff describes. */
module DiffCode {
  import opened Core
  import opened Directory
  import opened Blobs
  import opened Diff

  datatype Info = Info(kind: ChangeType, item: Option<Entry>)

  /** What one call is to report, path by path below its base. */
  datatype Job =
    | Walk(o: ReadCap, w: ReadCap)
    | Tree(e: Entry, kind: ChangeType)
    | Single(entry: Entry)
    | Nothing

  function Want(m: BlobMap, t: Job, p: Path): Option<Info> {
    match t
    case Nothing => None
    case Single(e) => if p == [] then Some(Info(Modified, Some(e))) else None
    case Tree(e, k) =>
      if Resolve(m, e.cap, p).None? then None
      else Some(Info(k, if k == Deleted then None else if p == [] then Some(e) else EntryAt(m, e.cap, p)))
    case Walk(o, w) =>
      var c := ChangeAt(m, o, w, p);
      if c.None? || p == [] then None
      else Some(Info(c.value, if c.value == Deleted then None else EntryAt(m, w, p)))
  }

  /** In scope: the base itself if `top`, and everything below the given names. */
  predicate Within(p: Path, top: bool, names: set<string>) {
    if p == [] then top else p[0] in names
  }

  ghost predicate HasPath(delta: seq<Change>, p: Path) {
    exists i :: 0 <= i < |delta| && delta[i].path == p
  }

  /** `delta` reports, under `base`, exactly what the job wants within the scope, each path once. */
  ghost predicate Enumerates(m: BlobMap, t: Job, base: Path, top: bool, names: set<string>, delta: seq<Change>) {
    && (forall i :: 0 <= i < |delta| ==> Wanted(m, t, base, top, names, delta[i]))
    && (forall p :: Within(p, top, names) && Want(m, t, p).Some? ==> HasPath(delta, base + p))
    && (forall i, j :: 0 <= i < j < |delta| ==> delta[i].path != delta[j].path)
  }

  ghost predicate Wanted(m: BlobMap, t: Job, base: Path, top: bool, names: set<string>, ch: Change) {
    && IsPrefix(base, ch.path)
    && var p := ch.path[|base|..];
       Within(p, top, names) && Want(m, t, p) == Some(Info(ch.kind, ch.item))
  }

  /** A job restricted to one name is another job below that name. */
  ghost predicate Restricts(m: BlobMap, t: Job, x: string, sub: Job) {
    forall p :: Want(m, t, [x] + p) == Want(m, sub, p)
  }

  /** Everything in the job, whatever the first name. */
  ghost predicate Complete(m: BlobMap, t: Job, base: Path, delta: seq<Change>) {
    && (forall i :: 0 <= i < |delta| ==> WantedAny(m, t, base, delta[i]))
    && (forall p :: Want(m, t, p).Some? ==> HasPath(delta, base + p))
    && (forall i, j :: 0 <= i < j < |delta| ==> delta[i].path != delta[j].path)
  }

  ghost predicate WantedAny(m: BlobMap, t: Job, base: Path, ch: Change) {
    IsPrefix(base, ch.path) && Want(m, t, ch.path[|base|..]) == Some(Info(ch.kind, ch.item))
  }

  /** Adding one more name to what has been reported. */
  lemma AddName(m: BlobMap, t: Job, base: Path, top: bool, names: set<string>, delta: seq<Change>,
                x: string, sub: Job, more: seq<Change>)
    requires Enumerates(m, t, base, top, names, delta) && x !in names
    requires Restricts(m, t, x, sub) && Complete(m, sub, base + [x], more)
    ensures Enumerates(m, t, base, top, names + {x}, delta + more)
  {
    hide Want;
    var all := delta + more;
    forall i | 0 <= i < |all| ensures Wanted(m, t, base, top, names + {x}, all[i]) {
      if i < |delta| {
        assert Wanted(m, t, base, top, names, delta[i]);
      } else {
        BelowName(m, t, base, top, names, x, sub, more[i - |delta|]);
      }
    }
    forall p | Within(p, top, names + {x}) && Want(m, t, p).Some? ensures HasPath(all, base + p) {
      CoveredNow(m, t, base, top, names, delta, x, sub, more, p);
    }
    forall i, j | 0 <= i < |delta| && 0 <= j < |more| ensures delta[i].path != more[j].path {
      assert Wanted(m, t, base, top, names, delta[i]);
      assert WantedAny(m, sub, base + [x], more[j]);
      FirstName(base, x, more[j].path);
    }
  }

  lemma CoveredNow(m: BlobMap, t: Job, base: Path, top: bool, names: set<string>, delta: seq<Change>,
                   x: string, sub: Job, more: seq<Change>, p: Path)
    requires Enumerates(m, t, base, top, names, delta) && Restricts(m, t, x, sub) && Complete(m, sub, base + [x], more)
    requires Within(p, top, names + {x}) && Want(m, t, p).Some?
    ensures HasPath(delta + more, base + p)
  {
    hide Want, Wanted, WantedAny;
    if Within(p, top, names) {
      var i :| 0 <= i < |delta| && delta[i].path == base + p;
      assert (delta + more)[i].path == base + p;
    } else {
      assert p == [x] + p[1..] && base + p == (base + [x]) + p[1..];
      assert HasPath(more, (base + [x]) + p[1..]);
      var i :| 0 <= i < |more| && more[i].path == (base + [x]) + p[1..];
      assert (delta + more)[|delta| + i].path == base + p;
    }
  }

  lemma FirstName(base: Path, x: string, q: Path)
    requires IsPrefix(base + [x], q)
    ensures IsPrefix(base, q) && q[|base|..] == [x] + q[|base| + 1..]
  {
  }

  lemma BelowName(m: BlobMap, t: Job, base: Path, top: bool, names: set<string>, x: string, sub: Job, ch: Change)
    requires Restricts(m, t, x, sub) && WantedAny(m, sub, base + [x], ch)
    ensures Wanted(m, t, base, top, names + {x}, ch)
  {
    hide Want;
    FirstName(base, x, ch.path);
    assert Want(m, t, [x] + ch.path[|base| + 1..]) == Want(m, sub, ch.path[|base| + 1..]);
  }

  /** All names reported: the job is complete. */
  lemma AllNames(m: BlobMap, t: Job, base: Path, top: bool, names: set<string>, delta: seq<Change>)
    requires Enumerates(m, t, base, top, names, delta)
    requires forall p :: Want(m, t, p).Some? ==> Within(p, top, names)
    ensures Complete(m, t, base, delta)
  {
  }

  // ---------------------------------------------------------------- how the jobs nest

  lemma TreeBelow(m: BlobMap, e: Entry, k: ChangeType, x: string)
    requires x in Entries(m, e.cap)
    ensures Restricts(m, Tree(e, k), x, Tree(Entries(m, e.cap)[x], k))
  {
  }

  /** What a walk wants below one name. */
  function NameJob(m: BlobMap, o: ReadCap, w: ReadCap, x: string): Job {
    var oe, we := Entries(m, o), Entries(m, w);
    if x in we && x !in oe then Tree(we[x], Added)
    else if x in oe && x !in we then Tree(oe[x], Deleted)
    else if x !in we || oe[x].cap == we[x].cap then Nothing
    else if oe[x].cap.kind == KindDir && we[x].cap.kind == KindDir then Walk(oe[x].cap, we[x].cap)
    else Single(we[x])
  }

  lemma WalkBelow(m: BlobMap, o: ReadCap, w: ReadCap, x: string)
    requires o != w
    ensures Restricts(m, Walk(o, w), x, NameJob(m, o, w, x))
  {
    forall p ensures Want(m, Walk(o, w), [x] + p) == Want(m, NameJob(m, o, w, x), p) {
      var q := [x] + p;
      assert q[1..] == p && q[0] == x && (|q| == 1 <==> p == []);
      assert x in Entries(m, w) ==> EntryAt(m, w, q) == if p == [] then Some(Entries(m, w)[x]) else EntryAt(m, Entries(m, w)[x].cap, p);
      match NameJob(m, o, w, x) {
        case Nothing => assert ChangeAt(m, o, w, q) == None;
        case Single(_) => assert ChangeAt(m, o, w, q) == if p == [] then Some(Modified) else None;
        case Tree(e, k) => assert ChangeAt(m, o, w, q) == if Resolve(m, e.cap, p).Some? then Some(k) else None;
        case Walk(oc, wc) => assert ChangeAt(m, o, w, q) == ChangeAt(m, oc, wc, p);
      }
    }
  }

  // ---------------------------------------------------------------- where the walk cannot go on

  /** The two roots differ at everything from the top to q, and where both have something below the top both have directories. */
  ghost predicate Opened(m: BlobMap, o: ReadCap, w: ReadCap, q: Path) {
    forall i :: 0 <= i <= |q| ==> OpenedAt(m, o, w, q[..i])
  }

  ghost predicate OpenedAt(m: BlobMap, o: ReadCap, w: ReadCap, q: Path) {
    var x, y := Resolve(m, o, q), Resolve(m, w, q);
    x != y && (q != [] && x.Some? && y.Some? ==> x.value.kind == KindDir && y.value.kind == KindDir)
  }

  /** The walk opens what stands at q, and a directory there cannot be loaded. */
  ghost predicate WalkStuckAt(m: BlobMap, o: ReadCap, w: ReadCap, q: Path) {
    Opened(m, o, w, q) && (LostAt(m, o, q, false) || LostAt(m, w, q, false))
  }

  ghost predicate WalkStuck(m: BlobMap, o: ReadCap, w: ReadCap) {
    exists q :: WalkStuckAt(m, o, w, q)
  }

  ghost predicate JobStuck(m: BlobMap, t: Job) {
    (t.Walk? && WalkStuck(m, t.o, t.w)) || (t.Tree? && Unloadable(m, t.e.cap, false))
  }

  ghost predicate JobStuckAt(m: BlobMap, t: Job, q: Path) {
    (t.Walk? && WalkStuckAt(m, t.o, t.w, q)) || (t.Tree? && LostAt(m, t.e.cap, q, false))
  }

  lemma ResolveDown(m: BlobMap, c: ReadCap, x: string, q: Path)
    ensures Resolve(m, c, [x] + q) == if x in Entries(m, c) then Resolve(m, Entries(m, c)[x].cap, q) else None
  {
    assert ([x] + q)[1..] == q;
  }

  lemma {:induction false} ResolvesAbove(m: BlobMap, c: ReadCap, q: Path, i: nat)
    requires i <= |q| && Resolve(m, c, q).Some?
    ensures Resolve(m, c, q[..i]).Some?
    decreases |q|
  {
    if i > 0 {
      ResolvesAbove(m, Entries(m, c)[q[0]].cap, q[1..], i - 1);
      assert q[..i][1..] == q[1..][..i - 1];
    }
  }

  /** Whether the walk opens a path below a name is decided there by the name's own job. */
  lemma StuckDown(m: BlobMap, o: ReadCap, w: ReadCap, x: string, q: Path)
    requires o != w
    ensures WalkStuckAt(m, o, w, [x] + q) <==> JobStuckAt(m, NameJob(m, o, w, x), q)
  {
    if x in Entries(m, o) && x in Entries(m, w) {
      StuckDownBoth(m, o, w, x, q);
    } else {
      StuckDownOne(m, o, w, x, q);
    }
  }

  /** One side has the name: all of it is opened. */
  lemma StuckDownOne(m: BlobMap, o: ReadCap, w: ReadCap, x: string, q: Path)
    requires o != w && !(x in Entries(m, o) && x in Entries(m, w))
    ensures WalkStuckAt(m, o, w, [x] + q) <==> JobStuckAt(m, NameJob(m, o, w, x), q)
  {
    var p := [x] + q;
    ResolveDown(m, o, x, q);
    ResolveDown(m, w, x, q);
    if Resolve(m, o, p).Some? || Resolve(m, w, p).Some? {
      forall i | 0 <= i <= |p| ensures OpenedAt(m, o, w, p[..i]) {
        if Resolve(m, o, p).Some? { ResolvesAbove(m, o, p, i); } else { ResolvesAbove(m, w, p, i); }
        if i > 0 {
          assert p[..i] == [x] + q[..i - 1];
          ResolveDown(m, o, x, q[..i - 1]);
          ResolveDown(m, w, x, q[..i - 1]);
        }
      }
    }
    hide Resolve, Entries, Opened;
  }

  /** Both have it: the walk goes on below two different directories. */
  lemma StuckDownBoth(m: BlobMap, o: ReadCap, w: ReadCap, x: string, q: Path)
    requires o != w && x in Entries(m, o) && x in Entries(m, w)
    ensures WalkStuckAt(m, o, w, [x] + q) <==> JobStuckAt(m, NameJob(m, o, w, x), q)
  {
    var oc, wc, p := Entries(m, o)[x].cap, Entries(m, w)[x].cap, [x] + q;
    ResolveDown(m, o, x, q);
    ResolveDown(m, w, x, q);
    assert p[..1] == [x] + [] && p[..0] == [] && q[..0] == [];
    ResolveDown(m, o, x, []);
    ResolveDown(m, w, x, []);
    assert Resolve(m, oc, []) == Some(oc) && Resolve(m, wc, []) == Some(wc) && OpenedAt(m, o, w, []);
    assert OpenedAt(m, o, w, p[..1]) <==> oc != wc && oc.kind == KindDir && wc.kind == KindDir;
    if oc != wc && oc.kind == KindDir && wc.kind == KindDir {
      forall i | 0 <= i <= |q| ensures OpenedAt(m, o, w, p[..i + 1]) <==> OpenedAt(m, oc, wc, q[..i]) {
        assert p[..i + 1] == [x] + q[..i];
        ResolveDown(m, o, x, q[..i]);
        ResolveDown(m, w, x, q[..i]);
      }
      hide Resolve, Entries, OpenedAt, LostAt;
      if Opened(m, oc, wc, q) {
        forall i | 0 <= i <= |p| ensures OpenedAt(m, o, w, p[..i]) {
          assert i > 0 ==> OpenedAt(m, oc, wc, q[..i - 1]);
        }
      }
      if Opened(m, o, w, p) {
        forall i | 0 <= i <= |q| ensures OpenedAt(m, oc, wc, q[..i]) { assert OpenedAt(m, o, w, p[..i + 1]); }
      }
      assert Opened(m, o, w, p) <==> Opened(m, oc, wc, q);
    }
  }

  /** A walk is stuck at its top or below one of its names. */
  lemma WalkStuckIff(m: BlobMap, o: ReadCap, w: ReadCap)
    requires o != w
    ensures WalkStuck(m, o, w) <==>
              || Lost(m, o, false) || Lost(m, w, false)
              || exists x :: (x in Entries(m, o) || x in Entries(m, w)) && JobStuck(m, NameJob(m, o, w, x))
  {
    var top: Path := [];
    assert WalkStuckAt(m, o, w, top) <==> Lost(m, o, false) || Lost(m, w, false) by { TopStuck(m, o, w); }
    hide Opened, Lost, LostAt, NameJob, Entries;
    if WalkStuck(m, o, w) {
      var p :| WalkStuckAt(m, o, w, p);
      if p != [] {
        assert p == [p[0]] + p[1..];
        StuckDown(m, o, w, p[0], p[1..]);
        NamedJob(m, o, w, p[0], p[1..]);
      }
    }
    forall x | (x in Entries(m, o) || x in Entries(m, w)) && JobStuck(m, NameJob(m, o, w, x)) ensures WalkStuck(m, o, w) {
      var q := WhereStuck(m, NameJob(m, o, w, x));
      StuckDown(m, o, w, x, q);
    }
  }

  lemma TopStuck(m: BlobMap, o: ReadCap, w: ReadCap)
    requires o != w
    ensures WalkStuckAt(m, o, w, []) <==> Lost(m, o, false) || Lost(m, w, false)
  {
    var top: Path := [];
    assert forall i :: 0 <= i <= |top| ==> top[..i] == [];
    assert OpenedAt(m, o, w, []);
  }

  lemma WhereStuck(m: BlobMap, t: Job) returns (q: Path)
    requires JobStuck(m, t)
    ensures JobStuckAt(m, t, q)
  {
    hide WalkStuckAt, LostAt;
    if t.Walk? { q :| WalkStuckAt(m, t.o, t.w, q); } else { q :| LostAt(m, t.e.cap, q, false); }
  }

  lemma NamedJob(m: BlobMap, o: ReadCap, w: ReadCap, x: string, q: Path)
    requires JobStuckAt(m, NameJob(m, o, w, x), q)
    ensures (x in Entries(m, o) || x in Entries(m, w)) && JobStuck(m, NameJob(m, o, w, x))
  {
  }

  // ---------------------------------------------------------------- the code

  /** A directory's entries by name; a cap that is not a directory's has none. */
  method DirEntries(s: BlobStore, c: ReadCap) returns (r: Result<map<string, Entry>, LoadError>)
    requires s.Valid()
    ensures r.Ok? ==> r.value == Entries(s.blobs, c)
    ensures r.Err? <==> Lost(s.blobs, c, false)
  {
    if c.kind != KindDir {
      return Ok(map[]);
    }
    var d := s.LoadDir(c);
    if d.Err? {
      return Err(d.error);
    }
    return Ok(EntryMap(d.value.entries));
  }

  /** Report one entry and everything below it as added or deleted. */
  method EmitSubtree(s: BlobStore, parentPath: Path, name: string, e: Entry, k: ChangeType) returns (r: Result<seq<Change>, LoadError>)
    requires s.Valid() && e.cap.key < s.nextKey && (k == Added || k == Deleted)
    ensures r.Ok? ==> Complete(s.blobs, Tree(e, k), parentPath + [name], r.value)
    ensures r.Err? <==> Unloadable(s.blobs, e.cap, false)
    decreases e.cap.key
  {
    hide Enumerates, Complete, Unloadable, WellFormed;
    var childPath := parentPath + [name];
    var out := [Change(k, childPath, if k == Deleted then None else Some(e))];
    TopOnly(s.blobs, e, k, childPath, out);
    if e.cap.kind != KindDir {
      LeafComplete(s.blobs, e, k, childPath, out);
      LeafLoads(s.blobs, e.cap);
      return Ok(out);
    }
    var entries := DirEntries(s, e.cap);
    if entries.Err? {
      UnloadableHere(s.blobs, e.cap, false);
      return Err(entries.error);
    }
    EntriesBelow(s.blobs, s.nextKey, e.cap);
    var todo := entries.value.Keys;
    ghost var done: set<string> := {};
    while todo != {}
      invariant done + todo == entries.value.Keys && done !! todo
      invariant Enumerates(s.blobs, Tree(e, k), childPath, true, done, out)
      invariant forall x :: x in done ==> !Unloadable(s.blobs, entries.value[x].cap, false)
      decreases todo
    {
      var cn :| cn in todo;
      var sub := EmitSubtree(s, childPath, cn, entries.value[cn], k);
      if sub.Err? {
        UnloadableBelow(s.blobs, e.cap, cn, false);
        return Err(sub.error);
      }
      TreeBelow(s.blobs, e, k, cn);
      AddName(s.blobs, Tree(e, k), childPath, true, done, out, cn, Tree(entries.value[cn], k), sub.value);
      out := out + sub.value;
      todo, done := todo - {cn}, done + {cn};
    }
    LoadableAll(s.blobs, e.cap, false);
    TreeNames(s.blobs, e, k);
    AllNames(s.blobs, Tree(e, k), childPath, true, done, out);
    return Ok(out);
  }

  lemma LeafLoads(m: BlobMap, c: ReadCap)
    requires c.kind != KindDir
    ensures !Unloadable(m, c, false)
  {
  }

  lemma TreeNames(m: BlobMap, e: Entry, k: ChangeType)
    ensures forall p :: Want(m, Tree(e, k), p).Some? ==> Within(p, true, Entries(m, e.cap).Keys)
  {
  }

  lemma TopOnly(m: BlobMap, e: Entry, k: ChangeType, base: Path, out: seq<Change>)
    requires out == [Change(k, base, if k == Deleted then None else Some(e))]
    ensures Enumerates(m, Tree(e, k), base, true, {}, out)
  {
    assert base[|base|..] == [] && base[..|base|] == base && base + [] == base;
    assert HasPath(out, base) by { assert out[0].path == base; }
    assert Wanted(m, Tree(e, k), base, true, {}, out[0]);
  }

  lemma LeafComplete(m: BlobMap, e: Entry, k: ChangeType, base: Path, out: seq<Change>)
    requires e.cap.kind != KindDir && Enumerates(m, Tree(e, k), base, true, {}, out)
    ensures Complete(m, Tree(e, k), base, out)
  {
  }

  /** The changes between two roots. */
  method DiffRoots(s: BlobStore, oldRoot: ReadCap, newRoot: ReadCap) returns (r: Result<seq<Change>, LoadError>)
    requires s.Valid() && oldRoot.key < s.nextKey && newRoot.key < s.nextKey
    ensures r.Ok? ==> Complete(s.blobs, Walk(oldRoot, newRoot), [], r.value)
    ensures r.Err? <==> WalkStuck(s.blobs, oldRoot, newRoot)
  {
    r := DiffDir(s, [], oldRoot, newRoot);
  }

  method DiffDir(s: BlobStore, path: Path, oldCap: ReadCap, newCap: ReadCap) returns (r: Result<seq<Change>, LoadError>)
    requires s.Valid() && oldCap.key < s.nextKey && newCap.key < s.nextKey
    ensures r.Ok? ==> Complete(s.blobs, Walk(oldCap, newCap), path, r.value)
    ensures r.Err? <==> WalkStuck(s.blobs, oldCap, newCap)
    decreases oldCap.key + newCap.key, 1
  {
    if oldCap == newCap {
      SameStuckNowhere(s.blobs, oldCap);
      return Ok([]);
    }
    hide WellFormed, Backed, Enumerates, Complete, WalkStuck, JobStuck, Lost, NameJob;
    WalkStuckIff(s.blobs, oldCap, newCap);
    var o := DirEntries(s, oldCap);
    if o.Err? {
      return Err(o.error);
    }
    var w := DirEntries(s, newCap);
    if w.Err? {
      return Err(w.error);
    }
    var out: seq<Change> := [];
    WalkStart(s.blobs, oldCap, newCap, path);
    var todo := w.value.Keys + (o.value.Keys - w.value.Keys);
    ghost var done: set<string> := {};
    while todo != {}
      invariant done + todo == w.value.Keys + o.value.Keys && done !! todo
      invariant Enumerates(s.blobs, Walk(oldCap, newCap), path, false, done, out)
      invariant forall x :: x in done ==> !JobStuck(s.blobs, NameJob(s.blobs, oldCap, newCap, x))
      decreases todo
    {
      var name :| name in todo;
      var sub := DiffName(s, path, name, oldCap, newCap, o.value, w.value);
      if sub.Err? {
        return Err(sub.error);
      }
      WalkBelow(s.blobs, oldCap, newCap, name);
      AddName(s.blobs, Walk(oldCap, newCap), path, false, done, out, name, NameJob(s.blobs, oldCap, newCap, name), sub.value);
      out := out + sub.value;
      todo, done := todo - {name}, done + {name};
    }
    WalkNames(s.blobs, oldCap, newCap);
    AllNames(s.blobs, Walk(oldCap, newCap), path, false, done, out);
    return Ok(out);
  }

  lemma SameStuckNowhere(m: BlobMap, c: ReadCap)
    ensures !WalkStuck(m, c, c)
  {
    forall q ensures !WalkStuckAt(m, c, c, q) { assert !OpenedAt(m, c, c, q[..0]); }
  }

  lemma WalkStart(m: BlobMap, o: ReadCap, w: ReadCap, path: Path)
    ensures Enumerates(m, Walk(o, w), path, false, {}, [])
  {
  }

  lemma WalkNames(m: BlobMap, o: ReadCap, w: ReadCap)
    ensures forall p :: Want(m, Walk(o, w), p).Some? ==> Within(p, false, Entries(m, w).Keys + Entries(m, o).Keys)
  {
  }

  /** The deltas for one name: a new or vanished subtree, a changed directory, or a modified leaf. */
  method DiffName(s: BlobStore, path: Path, name: string, ghost oldCap: ReadCap, ghost newCap: ReadCap,
                  o: map<string, Entry>, w: map<string, Entry>) returns (r: Result<seq<Change>, LoadError>)
    requires s.Valid() && oldCap.key < s.nextKey && newCap.key < s.nextKey
    requires o == Entries(s.blobs, oldCap) && w == Entries(s.blobs, newCap) && (name in o || name in w)
    ensures r.Ok? ==> Complete(s.blobs, NameJob(s.blobs, oldCap, newCap, name), path + [name], r.value)
    ensures r.Err? <==> JobStuck(s.blobs, NameJob(s.blobs, oldCap, newCap, name))
    decreases oldCap.key + newCap.key, 0
  {
    hide Complete, Unloadable, WellFormed, Backed, WalkStuck;
    EntriesBelow(s.blobs, s.nextKey, oldCap);
    EntriesBelow(s.blobs, s.nextKey, newCap);
    if name in w && name !in o {
      r := EmitSubtree(s, path, name, w[name], Added);
    } else if name !in w {
      r := EmitSubtree(s, path, name, o[name], Deleted);
    } else if o[name].cap == w[name].cap {
      NothingComplete(s.blobs, path + [name]);
      r := Ok([]);
    } else if o[name].cap.kind == KindDir && w[name].cap.kind == KindDir {
      r := DiffDir(s, path + [name], o[name].cap, w[name].cap);
    } else {
      r := Ok([Change(Modified, path + [name], Some(w[name]))]);
      SingleComplete(s.blobs, w[name], path + [name], r.value);
    }
  }

  lemma NothingComplete(m: BlobMap, base: Path)
    ensures Complete(m, Nothing, base, [])
  {
  }

  lemma SingleComplete(m: BlobMap, e: Entry, base: Path, out: seq<Change>)
    requires out == [Change(Modified, base, Some(e))]
    ensures Complete(m, Single(e), base, out)
  {
    assert base[|base|..] == [] && base[..|base|] == base && base + [] == base;
    assert HasPath(out, base) by { assert out[0].path == base; }
    assert WantedAny(m, Single(e), base, out[0]);
  }

  // ---------------------------------------------------------------- the report as a whole

  ghost predicate Reported(delta: seq<Change>, p: Path, k: ChangeType) {
    exists i :: 0 <= i < |delta| && delta[i].path == p && delta[i].kind == k
  }

  /** With nothing below a switched name, the list holds each path of the plain difference once, and no other. */
  lemma ReportIsPlainDifference(m: BlobMap, o: ReadCap, w: ReadCap, delta: seq<Change>, p: Path, k: ChangeType)
    requires Complete(m, Walk(o, w), [], delta) && !SomethingHidden(m, o, w) && p != []
    ensures Reported(delta, p, k) <==> PlainDiff(Resolve(m, o, p), Resolve(m, w, p)) == Some(k)
    ensures forall i, j :: 0 <= i < j < |delta| ==> delta[i].path != delta[j].path
  {
    hide Resolve, SomethingHidden, ChangeAt, PlainDiff;
    DiffExact(m, o, w);
    assert ExactAt(m, o, w, p);
    assert [] + p == p && p[0..] == p;
    if Reported(delta, p, k) {
      var i :| 0 <= i < |delta| && delta[i].path == p && delta[i].kind == k;
      assert WantedAny(m, Walk(o, w), [], delta[i]);
    }
    if PlainDiff(Resolve(m, o, p), Resolve(m, w, p)) == Some(k) {
      assert HasPath(delta, [] + p);
      var i :| 0 <= i < |delta| && delta[i].path == p;
      assert WantedAny(m, Walk(o, w), [], delta[i]);
    }
  }
}

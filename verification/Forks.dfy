/** The merges a commit folds in, one after another, and what becomes of everybody's edits. */
module Forks {
  import opened Core
  import opened Directory
  import opened Blobs
  import opened Merge
  import opened MergeKept
  import opened MergeCode

  /** One merge of a commit: the local tip and the remote root it read, in the store before and after. */
  datatype Fork = Fork(before: BlobMap, key: nat, local: ReadCap, remote: ReadCap, after: BlobMap, nextKey: nat, merged: ReadCap)

  ghost predicate Folds(relabel: Labeler, base: ReadCap, f: Fork) {
    && WellFormed(f.before, f.key) && WellFormed(f.after, f.nextKey) && Extends(f.before, f.key, f.after, f.nextKey)
    && f.local.key < f.key && f.remote.key < f.key && f.merged.key < f.nextKey
    && IsMerge(f.before, relabel, base, f.local, f.remote, f.after, f.merged)
  }

  /** Where a run of merges begins or has got to. */
  datatype Stage = Stage(blobs: BlobMap, key: nat, root: ReadCap)

  ghost predicate Sound(s: Stage) {
    WellFormed(s.blobs, s.key) && s.root.key < s.key
  }

  /** The second stage is the first with more stored. */
  ghost predicate Later(s: Stage, t: Stage) {
    t.root == s.root && Extends(s.blobs, s.key, t.blobs, t.key) && WellFormed(t.blobs, t.key)
  }

  /** Each merge takes the result of the one before for its local side; every merge has the same base. */
  ghost predicate Chain(relabel: Labeler, base: ReadCap, start: Stage, forks: seq<Fork>, end: Stage) {
    if forks == [] then Later(start, end)
    else
      var f := forks[|forks| - 1];
      && Chain(relabel, base, start, forks[..|forks| - 1], Stage(f.before, f.key, f.local))
      && Folds(relabel, base, f) && Later(Stage(f.after, f.nextKey, f.merged), end)
  }

  lemma NoForks(relabel: Labeler, base: ReadCap, start: Stage)
    requires Sound(start)
    ensures Chain(relabel, base, start, [], start)
  {
  }

  lemma LaterTransitive(s: Stage, t: Stage, u: Stage)
    requires Later(s, t) && Later(t, u)
    ensures Later(s, u)
  {
    ExtendsTransitive(s.blobs, s.key, t.blobs, t.key, u.blobs, u.key);
  }

  lemma ChainLater(relabel: Labeler, base: ReadCap, start: Stage, forks: seq<Fork>, end: Stage, later: Stage)
    requires Chain(relabel, base, start, forks, end) && Later(end, later)
    ensures Chain(relabel, base, start, forks, later)
  {
    hide Later, Folds;
    if forks == [] {
      LaterTransitive(start, end, later);
    } else {
      var f := forks[|forks| - 1];
      LaterTransitive(Stage(f.after, f.nextKey, f.merged), end, later);
    }
  }

  lemma OneMoreFork(relabel: Labeler, base: ReadCap, start: Stage, forks: seq<Fork>, f: Fork)
    requires Chain(relabel, base, start, forks, Stage(f.before, f.key, f.local)) && Folds(relabel, base, f)
    ensures Chain(relabel, base, start, forks + [f], Stage(f.after, f.nextKey, f.merged))
  {
    assert (forks + [f])[..|forks|] == forks;
  }

  lemma {:induction false} ChainGrows(relabel: Labeler, base: ReadCap, start: Stage, forks: seq<Fork>, end: Stage)
    requires Sound(start) && Chain(relabel, base, start, forks, end)
    ensures Extends(start.blobs, start.key, end.blobs, end.key) && Sound(end)
  {
    hide WellFormed, Extends, IsMerge;
    if forks != [] {
      var f := forks[|forks| - 1];
      ChainGrows(relabel, base, start, forks[..|forks| - 1], Stage(f.before, f.key, f.local));
      ExtendsTransitive(start.blobs, start.key, f.before, f.key, f.after, f.nextKey);
      ExtendsTransitive(start.blobs, start.key, f.after, f.nextKey, end.blobs, end.key);
      KeyGrows(f.after, f.nextKey, end.blobs, end.key);
    } else {
      KeyGrows(start.blobs, start.key, end.blobs, end.key);
    }
  }

  lemma KeyGrows(m: BlobMap, n: nat, m': BlobMap, n': nat)
    requires Extends(m, n, m', n')
    ensures n <= n'
  {
  }

  /** The stage after the first j merges. */
  ghost function After(start: Stage, forks: seq<Fork>, j: nat): Stage
    requires j <= |forks|
  {
    if j == 0 then start else Stage(forks[j - 1].after, forks[j - 1].nextKey, forks[j - 1].merged)
  }

  /** No merge from the j-th on buries v at p. */
  ghost predicate NeverBuried(relabel: Labeler, base: ReadCap, forks: seq<Fork>, j: nat, p: Path, v: ReadCap) {
    forall i :: j <= i < |forks| ==> LocalKept(forks[i].before, relabel, base, forks[i].local, forks[i].remote, p, v)
  }

  /** A leaf that base has not, once in the tip, stays there through every merge that does not bury it. */
  lemma {:induction false} Carried(relabel: Labeler, base: ReadCap, start: Stage, forks: seq<Fork>, end: Stage, j: nat, p: Path, v: ReadCap)
    requires Sound(start) && base.key < start.key && Chain(relabel, base, start, forks, end) && j <= |forks|
    requires Edit(After(start, forks, j).blobs, base, After(start, forks, j).root, p, v) && NeverBuried(relabel, base, forks, j, p, v)
    ensures Edit(end.blobs, base, end.root, p, v)
  {
    hide WellFormed, Extends, IsMerge, LocalKept, Edit, Chain;
    if forks == [] {
      ChainEnds(relabel, base, start, forks, end);
      StaysEdit(base, start, end, p, v);
    } else {
      var f := forks[|forks| - 1];
      var front, tip, made := forks[..|forks| - 1], Stage(f.before, f.key, f.local), Stage(f.after, f.nextKey, f.merged);
      ChainEnds(relabel, base, start, forks, end);
      ChainGrows(relabel, base, start, front, tip);
      KeyGrows(start.blobs, start.key, tip.blobs, tip.key);
      KeyGrows(tip.blobs, tip.key, made.blobs, made.key);
      if j < |forks| {
        assert After(start, forks, j) == After(start, front, j);
        forall i | j <= i < |front| ensures LocalKept(front[i].before, relabel, base, front[i].local, front[i].remote, p, v) {
          assert front[i] == forks[i];
        }
        Carried(relabel, base, start, front, tip, j, p, v);
        FoldKeeps(relabel, base, f, p, v);
      }
      StaysEdit(base, made, end, p, v);
    }
  }

  lemma ChainEnds(relabel: Labeler, base: ReadCap, start: Stage, forks: seq<Fork>, end: Stage)
    requires Chain(relabel, base, start, forks, end)
    ensures forks == [] ==> Later(start, end)
    ensures forks != [] ==>
              var f := forks[|forks| - 1];
              && Chain(relabel, base, start, forks[..|forks| - 1], Stage(f.before, f.key, f.local))
              && Folds(relabel, base, f) && Later(Stage(f.after, f.nextKey, f.merged), end)
  {
  }

  lemma StaysEdit(base: ReadCap, s: Stage, t: Stage, p: Path, v: ReadCap)
    requires Sound(s) && base.key < s.key && Later(s, t) && Edit(s.blobs, base, s.root, p, v)
    ensures Edit(t.blobs, base, t.root, p, v)
  {
    ResolveStable(s.blobs, s.key, t.blobs, t.key, s.root, p);
    ResolveStable(s.blobs, s.key, t.blobs, t.key, base, p);
  }

  lemma FoldKeeps(relabel: Labeler, base: ReadCap, f: Fork, p: Path, v: ReadCap)
    requires Folds(relabel, base, f) && base.key < f.key && Edit(f.before, base, f.local, p, v)
    requires LocalKept(f.before, relabel, base, f.local, f.remote, p, v)
    ensures Edit(f.after, base, f.merged, p, v)
  {
    LocalEditSurvivesIff(f.before, f.key, relabel, base, f.local, f.remote, f.after, f.nextKey, f.merged, p, v);
    ResolveStable(f.before, f.key, f.after, f.nextKey, base, p);
  }

  /** Every edit of the root the commit began with is in the root it ends with, at its path. */
  lemma LocalEditsCommitted(relabel: Labeler, base: ReadCap, start: Stage, forks: seq<Fork>, end: Stage, p: Path, v: ReadCap)
    requires Sound(start) && base.key < start.key && Chain(relabel, base, start, forks, end)
    requires Edit(start.blobs, base, start.root, p, v) && NeverBuried(relabel, base, forks, 0, p, v)
    ensures Resolve(end.blobs, end.root, p) == Some(v)
  {
    Carried(relabel, base, start, forks, end, 0, p, v);
  }

  /**
   * Every edit of a remote root read on the way is in the root the commit ends with, where that merge carried
   * it: at its own path or under one conflict label.
   */
  lemma RemoteEditsCommitted(relabel: Labeler, base: ReadCap, start: Stage, forks: seq<Fork>, end: Stage, j: nat, p: Path, v: ReadCap)
    requires Sound(start) && base.key < start.key && Chain(relabel, base, start, forks, end) && j < |forks|
    requires var f := forks[j]; Edit(f.before, base, f.remote, p, v) && RemoteKept(f.before, relabel, base, f.local, f.remote, p, v)
    requires var q := CarriedTo(forks[j].before, relabel, base, forks[j].local, forks[j].remote, p);
             Resolve(forks[j].before, base, q) != Some(v) && NeverBuried(relabel, base, forks, j + 1, q, v)
    ensures FoundAs(end.blobs, end.root, relabel, p, v)
  {
    hide WellFormed, Extends, IsMerge, LocalKept, RemoteKept, CarriedTo, NeverBuried, Chain, FoundAs;
    var f := forks[j];
    var q := CarriedTo(f.before, relabel, base, f.local, f.remote, p);
    FoldAt(relabel, base, start, forks, end, j);
    RemoteEditSurvivesIff(f.before, f.key, relabel, base, f.local, f.remote, f.after, f.nextKey, f.merged, p, v);
    ResolveStable(f.before, f.key, f.after, f.nextKey, base, q);
    Carried(relabel, base, start, forks, end, j + 1, q, v);
    CarriedIsFound(f.before, relabel, base, f.local, f.remote, end.blobs, end.root, p, v);
  }

  lemma {:induction false} FoldAt(relabel: Labeler, base: ReadCap, start: Stage, forks: seq<Fork>, end: Stage, j: nat)
    requires Sound(start) && base.key < start.key && Chain(relabel, base, start, forks, end) && j < |forks|
    ensures Folds(relabel, base, forks[j]) && base.key < forks[j].key
  {
    hide Folds, WellFormed, Extends;
    var f := forks[|forks| - 1];
    ChainGrows(relabel, base, start, forks[..|forks| - 1], Stage(f.before, f.key, f.local));
    KeyGrows(start.blobs, start.key, f.before, f.key);
    if j < |forks| - 1 {
      FoldAt(relabel, base, start, forks[..|forks| - 1], Stage(f.before, f.key, f.local), j);
    }
  }

  // ---------------------------------------------------------------- losses

  /** What a merged root cannot load, one of the two sides could not load either. */
  lemma {:induction false} MergedLoss(m: BlobMap, n: nat, relabel: Labeler, b: ReadCap, l: ReadCap, r: ReadCap,
                                      m': BlobMap, n': nat, c: ReadCap, q: Path)
    requires WellFormed(m, n) && Extends(m, n, m', n') && l.key < n && r.key < n
    requires IsMerge(m, relabel, b, l, r, m', c) && LostAt(m', c, q, false)
    ensures Unloadable(m, l, false) || Unloadable(m, r, false)
    decreases |q|
  {
    hide WellFormed, Extends, Unloadable, Slots;
    if !Diverged(b, l, r) {
      LossRebase(m, n, m', n', c, q);
    } else if q != [] {
      SlotLoss(m, n, relabel, b, l, r, m', n', c, q);
    }
  }

  lemma LossRebase(m: BlobMap, n: nat, m': BlobMap, n': nat, c: ReadCap, q: Path)
    requires WellFormed(m, n) && Extends(m, n, m', n') && c.key < n && LostAt(m', c, q, false)
    ensures Unloadable(m, c, false)
  {
    ResolveStable(m, n, m', n', c, q);
    ResolveKnown(m, n, c, q);
    assert LostAt(m, c, q, false);
  }

  lemma {:induction false} SlotLoss(m: BlobMap, n: nat, relabel: Labeler, b: ReadCap, l: ReadCap, r: ReadCap,
                                    m': BlobMap, n': nat, c: ReadCap, q: Path)
    requires WellFormed(m, n) && Extends(m, n, m', n') && l.key < n && r.key < n && q != []
    requires IsMerge(m, relabel, b, l, r, m', c) && Diverged(b, l, r) && LostAt(m', c, q, false)
    ensures Unloadable(m, l, false) || Unloadable(m, r, false)
    decreases |q|, 0
  {
    hide WellFormed, Extends, Unloadable, Slots, IsMerge, NameBindings;
    var t := ThreeOf(m, b, l, r);
    MergeStep(m, n, relabel, b, l, r, m', n', c, q);
    var slot := Slots(t, relabel, false)[q[0]];
    var x := SlotFrom(t, relabel, q[0]);
    EntriesBelow(m, n, l);
    EntriesBelow(m, n, r);
    if slot.Take? {
      TakenFrom(t, relabel, x, Binding(q[0], slot));
      assert LostAt(m', slot.entry.cap, q[1..], false);
      LossRebase(m, n, m', n', slot.entry.cap, q[1..]);
      if x in t.l && slot.entry.cap == t.l[x].cap { UnloadableBelow(m, l, x, false); } else { UnloadableBelow(m, r, x, false); }
    } else {
      SubFrom(t, relabel, x, Binding(q[0], slot));
      assert LostAt(m', Entries(m', c)[q[0]].cap, q[1..], false);
      MergedLoss(m, n, relabel, slot.bc, slot.lc, slot.rc, m', n', Entries(m', c)[q[0]].cap, q[1..]);
      if Unloadable(m, slot.lc, false) { UnloadableBelow(m, l, x, false); } else { UnloadableBelow(m, r, x, false); }
    }
  }

  lemma SlotFrom(t: Three, relabel: Labeler, z: string) returns (x: string)
    requires z in Slots(t, relabel, false)
    ensures Binding(z, Slots(t, relabel, false)[z]) in NameBindings(t, relabel, x, false)
  {
    var names := SortedNames(t.l.Keys + t.r.Keys);
    var bs := AllBindings(t, relabel, names, false);
    OverwriteNames(bs);
    BindingsFrom(t, relabel, names, false);
    var i :| 0 <= i < |names| && Binding(z, Overwrite(bs)[z]) in NameBindings(t, relabel, names[i], false);
    x := names[i];
  }

  // ---------------------------------------------------------------- the code

  /** Merge one remote root into the tip. */
  method Fold(s: BlobStore, cfg: Config, relabel: Labeler, base: ReadCap, tip: ReadCap, remote: ReadCap)
    returns (r: Result<ReadCap, LoadError>, ghost f: Fork)
    requires s.Valid() && cfg.params.Valid()
    requires base.key < s.nextKey && tip.key < s.nextKey && remote.key < s.nextKey
    modifies s
    ensures Grew(s)
    ensures r.Ok? ==>
              && f == Fork(old(s.blobs), old(s.nextKey), tip, remote, s.blobs, s.nextKey, r.value)
              && Folds(relabel, base, f)
    ensures r.Err? <==> MergeStuck(old(s.blobs), base, tip, remote)
    ensures r.Err? ==> Damaged(old(s.blobs), base) || Damaged(old(s.blobs), tip) || Damaged(old(s.blobs), remote)
  {
    hide WellFormed, Damaged, IsMerge, ReportsAll, StuckAt, Contested;
    ghost var m, n := s.blobs, s.nextKey;
    var merged := Merge3(s, cfg, base, tip, remote, relabel);
    if merged.Err? {
      ghost var q :| StuckAt(m, base, tip, remote, q);
      StuckDamaged(m, n, base, tip, remote, q);
    }
    r := if merged.Ok? then Ok(merged.value.cap) else Err(merged.error);
    f := Fork(m, n, tip, remote, s.blobs, s.nextKey, if r.Ok? then r.value else tip);
  }

  /** What another device stored since, and the root it published. */
  datatype Arrival = Arrival(blobs: seq<Blob>, root: ReadCap)

  /** A blob that names only what was stored before key n. */
  predicate Storable(blob: Blob, n: nat) {
    (blob.DirBlob? && EntriesOk(blob.dir.entries, n)) || (blob.FileBlob? && ChunksBelow(blob.file.chunks, n))
  }

  lemma StillStored(m: BlobMap, n: nat, m': BlobMap, n': nat, blobs: seq<Blob>, k: nat)
    requires k <= |blobs| && Extends(m, n, m', n')
    ensures forall i :: 0 <= i < k && blobs[i] in m.Values ==> blobs[i] in m'.Values
  {
    forall i | 0 <= i < k && blobs[i] in m.Values ensures blobs[i] in m'.Values {
      var c :| c in m && m[c] == blobs[i];
      assert m'[c] == blobs[i];
    }
  }

  lemma StorableLater(blob: Blob, n: nat, n': nat)
    requires Storable(blob, n) && n <= n'
    ensures Storable(blob, n')
  {
  }

  /** Another device stores a blob, if it names only what is there. */
  method OtherStores(s: BlobStore, cfg: Config, blob: Blob)
    requires s.Valid() && cfg.params.Valid()
    modifies s
    ensures Grew(s) && (Storable(blob, old(s.nextKey)) ==> blob in s.blobs.Values)
  {
    SelfExtends(s.blobs, s.nextKey);
    if Storable(blob, s.nextKey) {
      var c := s.PutBlob(cfg, if blob.DirBlob? then KindDir else KindFile, blob);
      assert s.blobs[c] == blob;
    }
  }

  /** Blobs that other devices store: all that name only what is there. */
  method OthersStore(s: BlobStore, cfg: Config, blobs: seq<Blob>)
    requires s.Valid() && cfg.params.Valid()
    modifies s
    ensures Grew(s)
    ensures forall i :: 0 <= i < |blobs| && Storable(blobs[i], old(s.nextKey)) ==> blobs[i] in s.blobs.Values
  {
    hide Storable, WellFormed, Backed, Extends;
    ghost var m, n := s.blobs, s.nextKey;
    SelfExtends(m, n);
    for i := 0 to |blobs|
      invariant s.Valid() && s.chunks == old(s.chunks) && old(s.live) <= s.live && Extends(m, n, s.blobs, s.nextKey)
      invariant forall j :: 0 <= j < i && Storable(blobs[j], n) ==> blobs[j] in s.blobs.Values
    {
      ghost var m1, n1 := s.blobs, s.nextKey;
      KeyGrows(m, n, m1, n1);
      if Storable(blobs[i], n) { StorableLater(blobs[i], n, n1); }
      OtherStores(s, cfg, blobs[i]);
      ExtendsTransitive(m, n, m1, n1, s.blobs, s.nextKey);
      StillStored(m1, n1, s.blobs, s.nextKey, blobs, i);
    }
  }

  /** The remote root read here is not in the store as it then is, or a directory of it is lost. */
  ghost predicate RemoteLost(m: BlobMap, n: nat, remotes: seq<Arrival>) {
    exists i, m1, n1 :: 0 <= i < |remotes| && LostWhenRead(m, n, m1, n1, remotes[i].root)
  }

  ghost predicate LostWhenRead(m: BlobMap, n: nat, m1: BlobMap, n1: nat, root: ReadCap) {
    Extends(m, n, m1, n1) && (n1 <= root.key || Unloadable(m1, root, false))
  }

  /** Something a run of merges reads is lost: of what it began with, or of a remote root. */
  ghost predicate SourceLost(m: BlobMap, n: nat, base: ReadCap, local: ReadCap, remotes: seq<Arrival>) {
    (remotes != [] && (Unloadable(m, base, false) || Unloadable(m, local, false))) || RemoteLost(m, n, remotes)
  }

  ghost predicate Reads(forks: seq<Fork>, remotes: seq<Arrival>) {
    |forks| == |remotes| && forall i :: 0 <= i < |forks| ==> forks[i].remote == remotes[i].root
  }

  /** Merge one remote root after another into the tip, other devices storing what they like in between. */
  method FoldAll(s: BlobStore, cfg: Config, relabel: Labeler, base: ReadCap, local: ReadCap, remotes: seq<Arrival>)
    returns (r: Result<ReadCap, LoadError>, ghost forks: seq<Fork>)
    requires s.Valid() && cfg.params.Valid() && base.key < s.nextKey && local.key < s.nextKey
    modifies s
    ensures Grew(s)
    ensures r.Ok? ==>
              && Chain(relabel, base, Stage(old(s.blobs), old(s.nextKey), local), forks, Stage(s.blobs, s.nextKey, r.value))
              && Reads(forks, remotes)
    ensures r.Err? ==> SourceLost(old(s.blobs), old(s.nextKey), base, local, remotes)
  {
    hide WellFormed, Extends, Unloadable, Damaged, Chain, IsMerge, RemoteLost;
    ghost var m, n := s.blobs, s.nextKey;
    ghost var start := Stage(m, n, local);
    forks := [];
    NoForks(relabel, base, start);
    SelfExtends(m, n);
    var tip := local;
    for i := 0 to |remotes|
      invariant s.Valid() && s.chunks == old(s.chunks) && old(s.live) <= s.live
      invariant Extends(m, n, s.blobs, s.nextKey) && n <= s.nextKey && tip.key < s.nextKey
      invariant Chain(relabel, base, start, forks, Stage(s.blobs, s.nextKey, tip)) && Reads(forks, remotes[..i])
      invariant Unloadable(s.blobs, tip, false) ==> Unloadable(m, local, false) || RemoteLost(m, n, remotes)
    {
      ghost var m0, n0 := s.blobs, s.nextKey;
      OthersStore(s, cfg, remotes[i].blobs);
      ghost var m1, n1, tip1 := s.blobs, s.nextKey, tip;
      ExtendsTransitive(m, n, m0, n0, m1, n1);
      KeyGrows(m0, n0, m1, n1);
      ChainLater(relabel, base, start, forks, Stage(m0, n0, tip), Stage(m1, n1, tip));
      WasLost(m0, n0, m1, n1, tip);
      SourceLosses(m, n, m1, n1, base, local, tip, remotes, i);
      if remotes[i].root.key >= s.nextKey {
        r := Err(Unreadable);
        return;
      }
      var folded, f := Fold(s, cfg, relabel, base, tip, remotes[i].root);
      ExtendsTransitive(m, n, m1, n1, s.blobs, s.nextKey);
      if folded.Err? {
        r := Err(folded.error);
        return;
      }
      tip := folded.value;
      OneMoreFork(relabel, base, start, forks, f);
      KeyGrows(m1, n1, s.blobs, s.nextKey);
      FoldLoss(relabel, base, f);
      forks := forks + [f];
    }
    assert remotes[..|remotes|] == remotes;
    r := Ok(tip);
  }

  lemma SelfExtends(m: BlobMap, n: nat)
    requires WellFormed(m, n)
    ensures Extends(m, n, m, n)
  {
  }

  lemma FoldLoss(relabel: Labeler, base: ReadCap, f: Fork)
    requires Folds(relabel, base, f)
    ensures Unloadable(f.after, f.merged, false) ==> Unloadable(f.before, f.local, false) || Unloadable(f.before, f.remote, false)
  {
    if Unloadable(f.after, f.merged, false) {
      var q :| LostAt(f.after, f.merged, q, false);
      MergedLoss(f.before, f.key, relabel, base, f.local, f.remote, f.after, f.nextKey, f.merged, q);
    }
  }

  lemma WasLost(m: BlobMap, n: nat, m1: BlobMap, n1: nat, c: ReadCap)
    requires WellFormed(m, n) && Extends(m, n, m1, n1) && c.key < n
    ensures Unloadable(m1, c, false) ==> Unloadable(m, c, false)
  {
    if Unloadable(m1, c, false) {
      var q :| LostAt(m1, c, q, false);
      LossRebase(m, n, m1, n1, c, q);
    }
  }

  lemma SourceLosses(m: BlobMap, n: nat, m1: BlobMap, n1: nat, base: ReadCap, local: ReadCap, tip: ReadCap, remotes: seq<Arrival>, i: nat)
    requires WellFormed(m, n) && Extends(m, n, m1, n1) && base.key < n && i < |remotes|
    requires Unloadable(m1, tip, false) ==> Unloadable(m, local, false) || RemoteLost(m, n, remotes)
    ensures Damaged(m1, base) || Damaged(m1, tip) || Damaged(m1, remotes[i].root) ==> SourceLost(m, n, base, local, remotes)
    ensures n1 <= remotes[i].root.key || Unloadable(m1, remotes[i].root, false) ==> RemoteLost(m, n, remotes)
  {
    hide Unloadable;
    WasLost(m, n, m1, n1, base);
    if n1 <= remotes[i].root.key || Unloadable(m1, remotes[i].root, false) {
      assert LostWhenRead(m, n, m1, n1, remotes[i].root);
    }
  }
}

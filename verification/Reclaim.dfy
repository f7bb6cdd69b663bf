/** Releasing the shards of a removed or re-encrypted subtree. */
module Reclaim {
  import opened Core
  import opened Directory
  import opened Blobs
  import Samples
  import opened Graft
  import opened Rekey
  import opened Merge
  import opened Forks

  // ---------------------------------------------------------------- what a subtree needs

  /** The shards of one node: its own blob's, and for a file those of its chunks. */
  function OwnShards(m: BlobMap, x: ReadCap): set<ShardID> {
    ShardSet(x.shards) + if IsFile(m, x) then ChunkShards(m[x].file.chunks) else {}
  }

  function ShardSet(shards: seq<ShardID>): set<ShardID> {
    set i | i in shards
  }

  function ChunkShards(refs: seq<ChunkRef>): set<ShardID> {
    if refs == [] then {} else ChunkShards(refs[..|refs| - 1]) + ShardSet(refs[|refs| - 1].shards)
  }

  lemma {:induction false} ChunkShardsHold(refs: seq<ChunkRef>, r: ChunkRef)
    requires r in refs
    ensures forall i :: 0 <= i < |r.shards| ==> r.shards[i] in ChunkShards(refs)
  {
    if r != refs[|refs| - 1] { ChunkShardsHold(refs[..|refs| - 1], r); }
  }

  /** Some path below c needs this shard. */
  ghost predicate Needed(m: BlobMap, c: ReadCap, i: ShardID) {
    exists p :: NeededAt(m, c, p, i)
  }

  ghost predicate NeededAt(m: BlobMap, c: ReadCap, p: Path, i: ShardID) {
    Resolve(m, c, p).Some? && i in OwnShards(m, Resolve(m, c, p).value)
  }

  /** A node needs its own shards and whatever its entries need. */
  lemma NeededStep(m: BlobMap, c: ReadCap, i: ShardID)
    ensures Needed(m, c, i) <==>
            i in OwnShards(m, c) || exists x :: x in Entries(m, c) && Needed(m, Entries(m, c)[x].cap, i)
  {
    if Needed(m, c, i) {
      var p :| NeededAt(m, c, p, i);
      if p != [] {
        assert NeededAt(m, Entries(m, c)[p[0]].cap, p[1..], i);
      }
    }
    if i in OwnShards(m, c) {
      assert NeededAt(m, c, [], i);
    }
    forall x | x in Entries(m, c) && Needed(m, Entries(m, c)[x].cap, i) ensures Needed(m, c, i) {
      var p :| NeededAt(m, Entries(m, c)[x].cap, p, i);
      assert ([x] + p)[1..] == p;
      assert NeededAt(m, c, [x] + p, i);
    }
  }

  // ---------------------------------------------------------------- safety of deletion

  /** The whole root loads as before. */
  ghost predicate LoadsTheSame(d: Disk, d': Disk, root: ReadCap) {
    forall p :: LoadsTheSameAt(d, d', root, p)
  }

  ghost predicate LoadsTheSameAt(d: Disk, d': Disk, root: ReadCap, p: Path) {
    && Resolve(d'.blobs, root, p) == Resolve(d.blobs, root, p)
    && (Resolve(d.blobs, root, p).Some? ==> SameNode(d, Resolve(d.blobs, root, p).value, d', Resolve(d.blobs, root, p).value))
  }

  lemma LoadsOn(d: Disk, d1: Disk, d2: Disk, root: ReadCap)
    requires LoadsTheSame(d, d1, root) && LoadsTheSame(d1, d2, root)
    ensures LoadsTheSame(d, d2, root)
  {
    hide Resolve;
    forall p ensures LoadsTheSameAt(d, d2, root, p) {
      assert LoadsTheSameAt(d, d1, root, p) && LoadsTheSameAt(d1, d2, root, p);
    }
  }

  /** Storing more changes nothing under a root that was there. */
  lemma GrownLoads(d: Disk, n: nat, d': Disk, n': nat, root: ReadCap)
    requires DiskGrew(d, n, d', n') && root.key < n
    ensures LoadsTheSame(d, d', root)
  {
    hide SameNode, Resolve;
    forall p ensures LoadsTheSameAt(d, d', root, p) {
      ResolveStable(d.blobs, n, d'.blobs, n', root, p);
      ResolveKnown(d.blobs, n, root, p);
      if Resolve(d.blobs, root, p).Some? { NodeRebase(d, n, d', n', Resolve(d.blobs, root, p).value); }
    }
  }

  /** What is left of the store when only these shards are. */
  function Remaining(d: Disk, live: set<ShardID>): Disk {
    Disk(KeptBlobs(d.blobs, live), KeptChunks(d.chunks, live))
  }

  /** This node keeps K shards of its blob, and a readable file keeps K of each chunk. */
  ghost predicate NodeBacked(d: Disk, x: ReadCap, live: set<ShardID>) {
    && (IsDir(d.blobs, x) || IsFile(d.blobs, x) ==> BlobRecoverable(x, live))
    && (IsFile(d.blobs, x) ==> FileBytes(d.chunks, d.blobs[x].file.chunks).None? || ChunksBacked(d.chunks, d.blobs[x].file.chunks, live))
  }

  ghost predicate ChunksBacked(ch: ChunkMap, refs: seq<ChunkRef>, live: set<ShardID>) {
    forall r :: r in refs && r in ch ==> ChunkRecoverable(r, ch[r].k, live)
  }

  /** Every node of the root keeps K shards. */
  ghost predicate StillBacked(d: Disk, root: ReadCap, live: set<ShardID>) {
    forall p :: StillBackedAt(d, root, live, p)
  }

  ghost predicate StillBackedAt(d: Disk, root: ReadCap, live: set<ShardID>, p: Path) {
    Resolve(d.blobs, root, p).Some? ==> NodeBacked(d, Resolve(d.blobs, root, p).value, live)
  }

  lemma {:induction false} BytesKept(ch: ChunkMap, live: set<ShardID>, refs: seq<ChunkRef>)
    ensures FileBytes(ch, refs).Some? ==> forall r :: r in refs ==> r in ch
    ensures FileBytes(KeptChunks(ch, live), refs).Some? ==> FileBytes(KeptChunks(ch, live), refs) == FileBytes(ch, refs)
    ensures FileBytes(KeptChunks(ch, live), refs) == FileBytes(ch, refs)
            <==> FileBytes(ch, refs).None? || ChunksBacked(ch, refs, live)
  {
    if refs != [] {
      var front, last := refs[..|refs| - 1], refs[|refs| - 1];
      assert forall r :: r in refs <==> r in front || r == last;
      BytesKept(ch, live, front);
    }
  }

  lemma NodeLoadsIff(d: Disk, x: ReadCap, live: set<ShardID>)
    ensures SameNode(d, x, Remaining(d, live), x) <==> NodeBacked(d, x, live)
  {
    if IsFile(d.blobs, x) { BytesKept(d.chunks, live, d.blobs[x].file.chunks); }
  }

  lemma {:induction false} BackedPath(d: Disk, root: ReadCap, live: set<ShardID>, p: Path)
    requires StillBacked(d, root, live)
    ensures Resolve(Remaining(d, live).blobs, root, p) == Resolve(d.blobs, root, p)
    decreases |p|
  {
    if p != [] {
      assert StillBackedAt(d, root, live, []);
      if p[0] in Entries(d.blobs, root) {
        var c := Entries(d.blobs, root)[p[0]].cap;
        forall q ensures StillBackedAt(d, c, live, q) {
          assert ([p[0]] + q)[1..] == q;
          assert StillBackedAt(d, root, live, [p[0]] + q);
        }
        BackedPath(d, c, live, p[1..]);
      }
    }
  }

  /** After a deletion a root loads the same exactly when every node of it keeps K shards. */
  lemma LoadsIff(d: Disk, root: ReadCap, live: set<ShardID>)
    ensures LoadsTheSame(d, Remaining(d, live), root) <==> StillBacked(d, root, live)
  {
    hide SameNode, NodeBacked, Resolve, Remaining;
    var d' := Remaining(d, live);
    if StillBacked(d, root, live) {
      forall p ensures LoadsTheSameAt(d, d', root, p) {
        BackedPath(d, root, live, p);
        assert StillBackedAt(d, root, live, p);
        if Resolve(d.blobs, root, p).Some? { NodeLoadsIff(d, Resolve(d.blobs, root, p).value, live); }
      }
    }
    if LoadsTheSame(d, d', root) {
      forall p ensures StillBackedAt(d, root, live, p) {
        assert LoadsTheSameAt(d, d', root, p);
        if Resolve(d.blobs, root, p).Some? { NodeLoadsIff(d, Resolve(d.blobs, root, p).value, live); }
      }
    }
  }

  ghost predicate Spared(m: BlobMap, root: ReadCap, live: set<ShardID>, live': set<ShardID>) {
    forall i :: i in live && i !in live' ==> !Needed(m, root, i)
  }

  /** Deleting shards that nothing under a root needs changes nothing under that root. */
  lemma SparedRoot(d: Disk, live: set<ShardID>, root: ReadCap, live': set<ShardID>)
    requires Backed(d.blobs, d.chunks, live) && live' <= live && Spared(d.blobs, root, live, live')
    ensures LoadsTheSame(d, Remaining(d, live'), root)
  {
    hide LoadsTheSame, NodeBacked, Backed;
    forall p ensures StillBackedAt(d, root, live', p) {
      if Resolve(d.blobs, root, p).Some? {
        var x := Resolve(d.blobs, root, p).value;
        forall i | i in OwnShards(d.blobs, x) ensures i in live <==> i in live' {
          assert NeededAt(d.blobs, root, p, i);
        }
        SparedNode(d, live, x, live');
      }
    }
    LoadsIff(d, root, live');
  }

  lemma SparedNode(d: Disk, live: set<ShardID>, x: ReadCap, live': set<ShardID>)
    requires Backed(d.blobs, d.chunks, live) && forall i :: i in OwnShards(d.blobs, x) ==> (i in live <==> i in live')
    ensures NodeBacked(d, x, live')
  {
    PresentDepends(x.shards, live, live');
    if IsFile(d.blobs, x) {
      var refs := d.blobs[x].file.chunks;
      forall r | r in refs && r in d.chunks ensures ChunkRecoverable(r, d.chunks[r].k, live') {
        ChunkShardsHold(refs, r);
        PresentDepends(r.shards, live, live');
      }
    }
  }

  lemma KeptTwice(d: Disk, live1: set<ShardID>, live2: set<ShardID>)
    requires live2 <= live1
    ensures KeptBlobs(KeptBlobs(d.blobs, live1), live2) == KeptBlobs(d.blobs, live2)
    ensures KeptChunks(KeptChunks(d.chunks, live1), live2) == KeptChunks(d.chunks, live2)
  {
    forall c | BlobRecoverable(c, live2) ensures BlobRecoverable(c, live1) { PresentGrows(c.shards, live2, live1); }
    forall r, k | ChunkRecoverable(r, k, live2) ensures ChunkRecoverable(r, k, live1) { PresentGrows(r.shards, live2, live1); }
  }

  // ---------------------------------------------------------------- the code

  /** `after` is `before` and everything the subtree needs. */
  ghost predicate Collected(m: BlobMap, c: ReadCap, before: set<ShardID>, after: set<ShardID>) {
    forall i :: i in after <==> i in before || Needed(m, c, i)
  }

  /** Walk the subtree and add every shard it references. */
  method CollectShards(s: BlobStore, c: ReadCap, out: set<ShardID>) returns (r: Result<set<ShardID>, LoadError>)
    requires s.Valid() && c.key < s.nextKey
    ensures r.Ok? ==> Collected(s.blobs, c, out, r.value)
    ensures r.Ok? <==> !Unloadable(s.blobs, c, true)
    decreases c.key, 1
  {
    hide WellFormed, Backed, Needed, Collected, Unloadable;
    var own := out + ShardSet(c.shards);
    match c.kind
    case KindDir =>
      var d := s.LoadDir(c);
      if d.Err? {
        UnloadableHere(s.blobs, c, true);
        r := Err(d.error);
      } else {
        r := CollectEntries(s, c, d.value, out, own);
      }
    case KindFile =>
      if c !in s.blobs {
        UnloadableHere(s.blobs, c, true);
        r := Err(Unreadable);
      } else {
        FileLoads(s, c);
        var all := own;
        var refs := s.blobs[c].file.chunks;
        for i := 0 to |refs|
          invariant all == own + ChunkShards(refs[..i])
        {
          assert refs[..i + 1][..i] == refs[..i];
          all := all + ShardSet(refs[i].shards);
        }
        assert refs[..|refs|] == refs;
        LeafCollected(s.blobs, c, out, all);
        LoadableAll(s.blobs, c, true);
        r := Ok(all);
      }
    case KindOther(_) =>
      LeafCollected(s.blobs, c, out, own);
      LoadableAll(s.blobs, c, true);
      r := Ok(own);
  }

  lemma FileLoads(s: BlobStore, c: ReadCap)
    requires s.Valid() && c in s.blobs && c.kind == KindFile
    ensures IsFile(s.blobs, c)
  {
  }

  lemma LeafCollected(m: BlobMap, c: ReadCap, before: set<ShardID>, after: set<ShardID>)
    requires c.kind != KindDir && after == before + OwnShards(m, c)
    ensures Collected(m, c, before, after)
  {
    forall i ensures i in after <==> i in before || Needed(m, c, i) {
      NeededStep(m, c, i);
    }
  }

  /** The entries done so far are exactly covered. */
  ghost predicate CollectedSoFar(m: BlobMap, es: seq<Entry>, k: nat, before: set<ShardID>, after: set<ShardID>)
    requires k <= |es|
  {
    forall i :: i in after <==> i in before || exists j :: 0 <= j < k && Needed(m, es[j].cap, i)
  }

  method CollectEntries(s: BlobStore, c: ReadCap, d: DirManifest, ghost out: set<ShardID>, own: set<ShardID>)
    returns (r: Result<set<ShardID>, LoadError>)
    requires s.Valid() && IsDir(s.blobs, c) && d == s.blobs[c].dir && own == out + ShardSet(c.shards)
    ensures r.Ok? ==> Collected(s.blobs, c, out, r.value)
    ensures r.Ok? <==> !Unloadable(s.blobs, c, true)
    decreases c.key, 0
  {
    hide WellFormed, Backed, Needed, Collected, Unloadable;
    var es := d.entries;
    var all := own;
    for k := 0 to |es|
      invariant CollectedSoFar(s.blobs, es, k, own, all)
      invariant forall j :: 0 <= j < k ==> !Unloadable(s.blobs, es[j].cap, true)
    {
      EntryKeys(DiskOf(s), s.nextKey, c, k);
      var next := CollectShards(s, es[k].cap, all);
      if next.Err? {
        UnloadableBelow(s.blobs, c, es[k].name, true);
        return Err(next.error);
      }
      CollectedNext(s.blobs, es, k, own, all, next.value);
      all := next.value;
    }
    DirCollected(s, c, out, all);
    AllEntries(s, c);
    LoadableAll(s.blobs, c, true);
    return Ok(all);
  }

  lemma CollectedNext(m: BlobMap, es: seq<Entry>, k: nat, before: set<ShardID>, mid: set<ShardID>, after: set<ShardID>)
    requires k < |es| && CollectedSoFar(m, es, k, before, mid) && Collected(m, es[k].cap, mid, after)
    ensures CollectedSoFar(m, es, k + 1, before, after)
  {
  }

  /** A directory's entries by name and by position are the same. */
  lemma AllEntries(s: BlobStore, c: ReadCap)
    requires s.Valid() && IsDir(s.blobs, c)
    ensures var es := s.blobs[c].dir.entries;
            && (forall j :: 0 <= j < |es| ==> es[j].name in Entries(s.blobs, c) && Entries(s.blobs, c)[es[j].name] == es[j])
            && forall x :: x in Entries(s.blobs, c) ==> exists j :: 0 <= j < |es| && es[j] == Entries(s.blobs, c)[x]
  {
    hide WellFormed;
    var m, es := s.blobs, s.blobs[c].dir.entries;
    DirSorted(DiskOf(s), s.nextKey, c);
    SortedLists(es);
    forall x | x in Entries(m, c) ensures exists j :: 0 <= j < |es| && es[j] == Entries(m, c)[x] {
      assert Holds(es, x);
    }
  }

  lemma DirCollected(s: BlobStore, c: ReadCap, out: set<ShardID>, all: set<ShardID>)
    requires s.Valid() && IsDir(s.blobs, c)
    requires var es := s.blobs[c].dir.entries; CollectedSoFar(s.blobs, es, |es|, out + ShardSet(c.shards), all)
    ensures Collected(s.blobs, c, out, all)
  {
    hide WellFormed, Needed;
    AllEntries(s, c);
    hide Entries;
    forall i ensures i in all <==> i in out || Needed(s.blobs, c, i) {
      NeededStep(s.blobs, c, i);
    }
  }

  /** Delete the old subtree's shards except those to keep and those whose delete fails; report the counts. */
  method ReleaseShards(s: BlobStore, shards: set<ShardID>, keep: set<ShardID>, failing: set<ShardID>)
    returns (deleted: nat, missing: nat, kept: nat, failed: nat)
    requires s.Valid()
    modifies s
    ensures s.Valid() && s.nextKey == old(s.nextKey) && s.live == old(s.live) - (shards - keep - failing)
    ensures s.blobs == KeptBlobs(old(s.blobs), s.live) && s.chunks == KeptChunks(old(s.chunks), s.live)
    ensures deleted + missing + kept + failed == |shards|
  {
    hide WellFormed, Present;
    ghost var d, live := DiskOf(s), s.live;
    var todo := shards;
    deleted, missing, kept, failed := 0, 0, 0, 0;
    KeptAll(s);
    while todo != {}
      invariant s.Valid() && s.nextKey == old(s.nextKey) && todo <= shards
      invariant s.live == live - ((shards - todo) - keep - failing)
      invariant s.blobs == KeptBlobs(d.blobs, s.live) && s.chunks == KeptChunks(d.chunks, s.live)
      invariant deleted + missing + kept + failed + |todo| == |shards|
      decreases todo
    {
      var id :| id in todo;
      todo := todo - {id};
      if id in keep {
        kept := kept + 1;
      } else if id in failing {
        failed := failed + 1;
      } else if id in s.live {
        ghost var live1 := s.live;
        s.DeleteShard(id);
        KeptTwice(d, live1, s.live);
        deleted := deleted + 1;
      } else {
        missing := missing + 1;
      }
    }
  }

  lemma KeptAll(s: BlobStore)
    requires s.Valid()
    ensures s.blobs == KeptBlobs(s.blobs, s.live) && s.chunks == KeptChunks(s.chunks, s.live)
  {
  }

  // ---------------------------------------------------------------- the commands

  /** The new root, the store and its next key when it was built, and the store and its shards when the reclaim begins. */
  datatype Steps = Steps(newRoot: ReadCap, built: Disk, key: nat, committed: Disk, live: set<ShardID>)

  /** What the commit publishes: the new root with the published roots of its forks folded in over the old one. */
  ghost predicate Published(m: BlobMap, n: nat, relabel: Labeler, oldRoot: ReadCap, newRoot: ReadCap, remotes: seq<Arrival>, m': BlobMap, root: ReadCap) {
    exists forks, n' ::
      Chain(relabel, oldRoot, Stage(m, n, newRoot), forks, Stage(m', n', root)) && Reads(forks, remotes)
  }

  /** Nothing is lost up to the reclaim. */
  ghost predicate Stored(d: Disk, live: set<ShardID>, st: Steps) {
    && live <= st.live
    && (forall c :: c in d.blobs ==> c in st.committed.blobs && st.committed.blobs[c] == d.blobs[c])
    && (forall r :: r in d.chunks ==> r in st.committed.chunks && st.committed.chunks[r] == d.chunks[r])
  }

  lemma StoredBefore(d: Disk, n: nat, d1: Disk, n1: nat, live: set<ShardID>, live1: set<ShardID>, st: Steps)
    requires DiskGrew(d, n, d1, n1) && live <= live1 && Stored(d1, live1, st)
    ensures Stored(d, live, st)
  {
  }

  lemma StoredNow(d: Disk, n: nat, d': Disk, n': nat, live: set<ShardID>, st: Steps)
    requires DiskGrew(d, n, d', n') && st.committed == d' && live <= st.live
    ensures Stored(d, live, st)
  {
  }

  /** The shards that outlast the release: all but those only the old subtree needs, and those whose delete fails. */
  ghost function LeftOver(m: BlobMap, sub: ReadCap, failing: set<ShardID>, st: Steps): set<ShardID> {
    set i | i in st.live && (i in failing || !Needed(m, sub, i) || Needed(st.committed.blobs, st.newRoot, i))
  }

  /**
   * The reclaim: the new root loads as it was built, whatever is shared with it; the published root does so
   * exactly when each node of it keeps K shards that are not only the old subtree's.
   */
  ghost predicate Reclaimed(m: BlobMap, sub: ReadCap, failing: set<ShardID>, st: Steps, d': Disk, live': set<ShardID>, root: ReadCap) {
    && live' == LeftOver(m, sub, failing, st) && d' == Remaining(st.committed, live')
    && LoadsTheSame(st.built, d', st.newRoot)
    && (LoadsTheSame(st.committed, d', root) <==> StillBacked(st.committed, root, LeftOver(m, sub, failing, st)))
  }

  /** Commit the new root, then release the old subtree's shards that it does not need. */
  method Finish(s: BlobStore, cfg: Config, relabel: Labeler, oldRoot: ReadCap, newRoot: ReadCap, remotes: seq<Arrival>,
                shards: set<ShardID>, failing: set<ShardID>, ghost m: BlobMap, ghost sub: ReadCap)
    returns (r: Result<ReadCap, LoadError>, ghost st: Steps)
    requires s.Valid() && cfg.params.Valid() && oldRoot.key < s.nextKey && newRoot.key < s.nextKey
    requires Collected(m, sub, {}, shards)
    modifies s
    ensures s.Valid()
    ensures r.Ok? ==>
              && st.newRoot == newRoot && st.built == old(DiskOf(s)) && st.key == old(s.nextKey) && !Unloadable(st.built.blobs, newRoot, true)
              && Published(st.built.blobs, st.key, relabel, oldRoot, newRoot, remotes, st.committed.blobs, r.value)
              && Stored(old(DiskOf(s)), old(s.live), st)
              && Reclaimed(m, sub, failing, st, DiskOf(s), s.live, r.value)
    ensures r.Err? ==> Unloadable(old(s.blobs), newRoot, true) || SourceLost(old(s.blobs), old(s.nextKey), oldRoot, newRoot, remotes)
    ensures r.Err? ==> Extends(old(s.blobs), old(s.nextKey), s.blobs, s.nextKey)
  {
    hide WellFormed, Backed, Needed, Collected, LoadsTheSame, StillBacked, Unloadable, SourceLost, Remaining, Extends, Chain, Reads;
    ghost var built, n := DiskOf(s), s.nextKey;
    ghost var forks;
    r, forks := FoldAll(s, cfg, relabel, oldRoot, newRoot, remotes);
    st := Steps(newRoot, built, n, DiskOf(s), s.live);
    GrewDisk(s);
    GrownLoads(built, n, DiskOf(s), s.nextKey, newRoot);
    SameLosses(built, DiskOf(s), newRoot);
    if r.Ok? {
      assert Published(built.blobs, n, relabel, oldRoot, newRoot, remotes, st.committed.blobs, r.value);
      hide Published;
      StoredNow(built, n, DiskOf(s), s.nextKey, old(s.live), st);
      hide Stored;
      KeyGrows(built.blobs, n, s.blobs, s.nextKey);
      var keep := CollectShards(s, newRoot, {});
      if keep.Err? {
        r := Err(keep.error);
      } else {
        var deleted, missing, kept, failed := ReleaseShards(s, shards, keep.value, failing);
        ReleasedExactly(m, sub, failing, st, shards, keep.value, s.live);
        ReleaseSafe(st.committed, st.live, newRoot, shards, keep.value, failing, s.live);
        LoadsOn(built, st.committed, Remaining(st.committed, s.live), newRoot);
        LoadsIff(st.committed, r.value, s.live);
        RemainingMeans(st.committed, s.live);
      }
    }
  }

  twostate lemma GrewDisk(s: BlobStore)
    requires old(s.Valid()) && Grew(s)
    ensures DiskGrew(old(DiskOf(s)), old(s.nextKey), DiskOf(s), s.nextKey)
  {
  }

  lemma RemainingMeans(d: Disk, live: set<ShardID>)
    ensures Remaining(d, live) == Disk(KeptBlobs(d.blobs, live), KeptChunks(d.chunks, live))
  {
  }

  /** A root that loads the same has the same losses. */
  lemma SameLosses(d: Disk, d': Disk, root: ReadCap)
    requires LoadsTheSame(d, d', root)
    ensures Unloadable(d'.blobs, root, true) <==> Unloadable(d.blobs, root, true)
  {
    hide Resolve;
    forall p ensures LostAt(d'.blobs, root, p, true) == LostAt(d.blobs, root, p, true) {
      assert LoadsTheSameAt(d, d', root, p);
    }
  }

  lemma ReleasedExactly(m: BlobMap, sub: ReadCap, failing: set<ShardID>, st: Steps, shards: set<ShardID>, keep: set<ShardID>, live': set<ShardID>)
    requires Collected(m, sub, {}, shards) && Collected(st.committed.blobs, st.newRoot, {}, keep)
    requires live' == st.live - (shards - keep - failing)
    ensures live' == LeftOver(m, sub, failing, st)
  {
    hide Needed;
  }

  /** A release that keeps everything the root needs leaves the root loading the same. */
  lemma ReleaseSafe(d: Disk, live: set<ShardID>, root: ReadCap, shards: set<ShardID>, keep: set<ShardID>, failing: set<ShardID>, live': set<ShardID>)
    requires Backed(d.blobs, d.chunks, live) && Collected(d.blobs, root, {}, keep) && live' == live - (shards - keep - failing)
    ensures LoadsTheSame(d, Remaining(d, live'), root)
  {
    hide Needed, Backed, LoadsTheSame;
    SparedRoot(d, live, root, live');
  }

  /** The path is not the root's, leads somewhere, and the whole old root can be loaded. */
  ghost predicate Removable(m: BlobMap, root: ReadCap, p: Path) {
    p != [] && Resolve(m, root, p).Some? && !Unloadable(m, root, true)
  }

  /** What a completed removal of p from the root promises. */
  ghost predicate RmDone(d: Disk, n: nat, live: set<ShardID>, relabel: Labeler, root: ReadCap, p: Path, remotes: seq<Arrival>, failing: set<ShardID>,
                         st: Steps, d': Disk, live': set<ShardID>, published: ReadCap) {
    && Removable(d.blobs, root, p)
    && Removed(d.blobs, root, st.built.blobs, st.newRoot, p) && st.built.chunks == d.chunks
    && Extends(d.blobs, n, st.built.blobs, st.key) && WellFormed(st.built.blobs, st.key) && NewDirCap(st.newRoot, n, st.key)
    && Published(st.built.blobs, st.key, relabel, root, st.newRoot, remotes, st.committed.blobs, published)
    && Stored(d, live, st)
    && Reclaimed(d.blobs, Resolve(d.blobs, root, p).value, failing, st, d', live', published)
  }

  /** Remove a path, commit, then release the shards only it used. */
  method Rm(s: BlobStore, cfg: Config, relabel: Labeler, root: ReadCap, p: Path, remotes: seq<Arrival>, failing: set<ShardID>)
    returns (r: Result<ReadCap, LoadError>, ghost st: Steps)
    requires s.Valid() && cfg.params.Valid() && root.key < s.nextKey
    modifies s
    ensures s.Valid()
    ensures r.Ok? ==>
              RmDone(old(DiskOf(s)), old(s.nextKey), old(s.live), relabel, root, p, remotes, failing, st, DiskOf(s), s.live, r.value)
    ensures r.Err? ==> !Removable(old(s.blobs), root, p) || RemoteLost(old(s.blobs), old(s.nextKey), remotes)
    ensures r.Err? ==> Extends(old(s.blobs), old(s.nextKey), s.blobs, s.nextKey)
  {
    hide WellFormed, Backed, Removed, Stored, DiskGrew, Needed, Collected, Reclaimed, Published, Unloadable, RemoteLost, Extends;
    ghost var d, n := DiskOf(s), s.nextKey;
    st := Steps(root, d, n, d, s.live);
    SelfExtends(d.blobs, n);
    var victim := ResolvePath(s, root, p);
    if victim.Err? {
      return Err(victim.error), st;
    }
    ResolveKnown(d.blobs, n, root, p);
    var shards := CollectShards(s, victim.value, {});
    if shards.Err? {
      UnloadableUnder(d.blobs, root, p);
      return Err(shards.error), st;
    }
    r := GraftRemove(s, cfg, root, p);
    st := Steps(root, DiskOf(s), s.nextKey, DiskOf(s), s.live);
    if r.Ok? {
      ghost var built, n1, live1 := DiskOf(s), s.nextKey, s.live;
      GrewDisk(s);
      var newRoot := r.value;
      RemovedLosses(d.blobs, n, root, p, built.blobs, n1, newRoot);
      KeyGrows(d.blobs, n, built.blobs, n1);
      r, st := Finish(s, cfg, relabel, root, newRoot, remotes, shards.value, failing, d.blobs, victim.value);
      if r.Err? {
        ForkLosses(d.blobs, n, built.blobs, n1, root, newRoot, remotes);
        ExtendsTransitive(d.blobs, n, built.blobs, n1, s.blobs, s.nextKey);
      } else {
        StoredBefore(d, n, built, n1, old(s.live), live1, st);
      }
    }
  }

  lemma UnloadableUnder(m: BlobMap, root: ReadCap, p: Path)
    requires Resolve(m, root, p).Some? && Unloadable(m, Resolve(m, root, p).value, true)
    ensures Unloadable(m, root, true)
  {
    var q :| LostAt(m, Resolve(m, root, p).value, q, true);
    ResolveConcat(m, root, p, q);
    assert LostAt(m, root, p + q, true);
  }

  lemma RemovedLossAt(m: BlobMap, n: nat, root: ReadCap, p: Path, m': BlobMap, n': nat, root': ReadCap, q: Path)
    requires WellFormed(m, n) && Extends(m, n, m', n') && root.key < n && p != []
    requires Resolve(m, root, p).Some? && !Unloadable(m, Resolve(m, root, p).value, true) && Removed(m, root, m', root', p)
    ensures LostAt(m', root', q, true) <==> LostAt(m, root, q, true)
  {
    hide WellFormed;
    if IsPrefix(p, q) {
      assert q == p + q[|p|..];
      ResolveConcat(m, root, p, q[|p|..]);
      assert !LostAt(m, Resolve(m, root, p).value, q[|p|..], true);
    } else if IsPrefix(q, p) {
      assert q == p[..|q|] && Rewritten(m, root, m', root', p[..|q|]);
      ThroughDirs(m, root, p, |q|);
    } else {
      EntryAtResolves(m, root, q);
      EntryAtResolves(m', root', q);
      ResolveKnown(m, n, root, q);
    }
  }

  /** With the removed subtree intact, the new root has the losses of the old one. */
  lemma RemovedLosses(m: BlobMap, n: nat, root: ReadCap, p: Path, m': BlobMap, n': nat, root': ReadCap)
    requires WellFormed(m, n) && Extends(m, n, m', n') && root.key < n && p != []
    requires Resolve(m, root, p).Some? && !Unloadable(m, Resolve(m, root, p).value, true) && Removed(m, root, m', root', p)
    ensures Unloadable(m', root', true) <==> Unloadable(m, root, true)
  {
    forall q ensures LostAt(m', root', q, true) <==> LostAt(m, root, q, true) {
      RemovedLossAt(m, n, root, p, m', n', root', q);
    }
    hide LostAt;
  }

  lemma MoreLost(m: BlobMap, c: ReadCap)
    requires Unloadable(m, c, false)
    ensures Unloadable(m, c, true)
  {
    var p :| LostAt(m, c, p, false);
    assert LostAt(m, c, p, true);
  }

  /** A failed commit: something of the old root, or of a remote one, was lost before. */
  lemma ForkLosses(m: BlobMap, n: nat, m1: BlobMap, n1: nat, root: ReadCap, newRoot: ReadCap, remotes: seq<Arrival>)
    requires WellFormed(m, n) && Extends(m, n, m1, n1) && root.key < n
    requires Unloadable(m1, newRoot, true) <==> Unloadable(m, root, true)
    requires Unloadable(m1, newRoot, true) || SourceLost(m1, n1, root, newRoot, remotes)
    ensures Unloadable(m, root, true) || RemoteLost(m, n, remotes)
  {
    hide Unloadable;
    WasLost(m, n, m1, n1, root);
    if Unloadable(m, root, false) { MoreLost(m, root); }
    if Unloadable(m1, newRoot, false) { MoreLost(m1, newRoot); }
    if RemoteLost(m1, n1, remotes) {
      var i, m2, n2 :| 0 <= i < |remotes| && LostWhenRead(m1, n1, m2, n2, remotes[i].root);
      ExtendsTransitive(m, n, m1, n1, m2, n2);
      assert LostWhenRead(m, n, m2, n2, remotes[i].root);
    }
  }

  /** The path leads somewhere, its subtree can be read and stored again, and the whole old root can be loaded. */
  ghost predicate Revocable(d: Disk, root: ReadCap, p: Path) {
    var sub := Resolve(d.blobs, root, p);
    sub.Some? && AllRekeyable(d, sub.value) && !Unloadable(d.blobs, root, true)
  }

  /** The node at q, or a chunk of the file there, is stored under this key. */
  ghost predicate HasKey(m: BlobMap, root: ReadCap, q: Path, key: nat) {
    var y := Resolve(m, root, q);
    y.Some? && (y.value.key == key || (IsFile(m, y.value) && exists c :: c in m[y.value].file.chunks && c.key == key))
  }

  /**
   * An old cap at or below p still loads only if what is stored under its key is also outside p in the new root;
   * if the cap itself is there, it does.
   */
  ghost predicate CutOff(m: BlobMap, sub: ReadCap, p: Path, st: Steps, m': BlobMap) {
    forall q :: CutOffAt(m, sub, p, st, m', q)
  }

  ghost predicate CutOffAt(m: BlobMap, sub: ReadCap, p: Path, st: Steps, m': BlobMap, q: Path) {
    var x := Resolve(m, sub, q);
    x.Some? && 0 < x.value.params.k ==>
      && (x.value in m' ==> exists q' :: !IsPrefix(p, q') && HasKey(st.committed.blobs, st.newRoot, q', x.value.key))
      && ((exists q' :: Resolve(st.committed.blobs, st.newRoot, q') == x) ==> x.value in m')
  }

  ghost predicate SharesShard(x: ReadCap, st: Steps) {
    exists i :: i in x.shards && Needed(st.committed.blobs, st.newRoot, i)
  }

  /** Re-encrypt the subtree at p, commit, then release the old subtree's shards. */
  method Revoke(s: BlobStore, cfg: Config, relabel: Labeler, root: ReadCap, p: Path, remotes: seq<Arrival>, failing: set<ShardID>)
    returns (r: Result<ReadCap, LoadError>, ghost st: Steps)
    requires s.Valid() && cfg.params.Valid() && root.key < s.nextKey
    modifies s
    ensures s.Valid()
    ensures r.Ok? ==>
              && Revocable(old(DiskOf(s)), root, p)
              && RootRekeyed(old(DiskOf(s)), old(s.nextKey), root, st.built, st.newRoot, p)
              && Published(st.built.blobs, st.key, relabel, root, st.newRoot, remotes, st.committed.blobs, r.value)
              && Stored(old(DiskOf(s)), old(s.live), st)
              && Reclaimed(old(s.blobs), Resolve(old(s.blobs), root, p).value, failing, st, DiskOf(s), s.live, r.value)
              && (failing == {} ==> CutOff(old(s.blobs), Resolve(old(s.blobs), root, p).value, p, st, s.blobs))
    ensures r.Err? ==> !Revocable(old(DiskOf(s)), root, p) || RemoteLost(old(s.blobs), old(s.nextKey), remotes)
    ensures r.Err? ==> Extends(old(s.blobs), old(s.nextKey), s.blobs, s.nextKey)
  {
    hide WellFormed, Backed, RootRekeyed, Stored, Needed, Collected, Reclaimed, Published, Unloadable, RemoteLost, Extends, DiskGrew, AllRekeyable, CutOff;
    ghost var d, n := DiskOf(s), s.nextKey;
    st := Steps(root, d, n, d, s.live);
    SelfExtends(d.blobs, n);
    var oldSub := ResolvePath(s, root, p);
    if oldSub.Err? {
      return Err(oldSub.error), st;
    }
    ResolveKnown(d.blobs, n, root, p);
    var oldShards := CollectShards(s, oldSub.value, {});
    if oldShards.Err? {
      UnloadableUnder(d.blobs, root, p);
      return Err(oldShards.error), st;
    }
    r := Rekey.Rekey(s, cfg, root, p);
    ghost var built, n1, live1 := DiskOf(s), s.nextKey, s.live;
    DiskExtends(d, n, built, n1);
    if r.Ok? {
      var newRoot := r.value;
      RekeyedLosses(d, n, root, p, built, newRoot);
      KeyGrows(d.blobs, n, built.blobs, n1);
      r, st := Finish(s, cfg, relabel, root, newRoot, remotes, oldShards.value, failing, d.blobs, oldSub.value);
      if r.Err? {
        ForkLosses(d.blobs, n, built.blobs, n1, root, newRoot, remotes);
        ExtendsTransitive(d.blobs, n, built.blobs, n1, s.blobs, s.nextKey);
      } else {
        StoredBefore(d, n, built, n1, old(s.live), live1, st);
        if failing == {} {
          ghost var n2 := PublishedGrows(built.blobs, n1, relabel, root, newRoot, remotes, st.committed.blobs, r.value);
          CutsOff(d, n, root, p, n2, st, DiskOf(s), s.live, r.value);
        }
      }
    }
  }

  lemma DiskExtends(d: Disk, n: nat, d': Disk, n': nat)
    requires DiskGrew(d, n, d', n')
    ensures Extends(d.blobs, n, d'.blobs, n')
  {
  }

  lemma RekeyedLosses(d: Disk, n: nat, root: ReadCap, p: Path, d': Disk, root': ReadCap)
    requires RootRekeyed(d, n, root, d', root', p)
    ensures Unloadable(d'.blobs, root', true) <==> Unloadable(d.blobs, root, true)
  {
    hide Resolve;
    forall q ensures LostAt(d'.blobs, root', q, true) <==> LostAt(d.blobs, root, q, true) {
      assert RootRekeyedAt(d, n, root, d', root', p, q);
    }
    hide LostAt;
  }

  lemma {:induction false} PresentNone(shards: seq<ShardID>, live: set<ShardID>)
    requires forall i :: i in shards ==> i !in live
    ensures Present(shards, live) == 0
  {
    if shards != [] { PresentNone(shards[..|shards| - 1], live); }
  }

  /** With no failing delete, an old cap that shares no shard with the new root is gone. */
  lemma OldCapLost(m: BlobMap, sub: ReadCap, st: Steps, d': Disk, live': set<ShardID>, root: ReadCap, q: Path)
    requires Reclaimed(m, sub, {}, st, d', live', root) && Resolve(m, sub, q).Some?
    requires var x := Resolve(m, sub, q).value; 0 < x.params.k && !SharesShard(x, st)
    ensures Resolve(m, sub, q).value !in d'.blobs
  {
    hide LoadsTheSame, StillBacked, Needed;
    var x := Resolve(m, sub, q).value;
    forall i | i in x.shards ensures i !in live' {
      NeedsOwn(m, sub, q, i);
    }
    PresentNone(x.shards, live');
  }

  lemma NeedsOwn(m: BlobMap, sub: ReadCap, q: Path, i: ShardID)
    requires Resolve(m, sub, q).Some? && i in Resolve(m, sub, q).value.shards
    ensures Needed(m, sub, i)
  {
    assert NeededAt(m, sub, q, i);
  }

  /** Everything a root leads to was minted by the store. */
  lemma {:induction false} ResolveHomed(m: BlobMap, n: nat, c: ReadCap, p: Path)
    requires WellFormed(m, n) && c in m && Resolve(m, c, p).Some?
    ensures Homed(Resolve(m, c, p).value)
    decreases |p|
  {
    assert BlobOk(m, n, c);
    EntriesBelow(m, n, c);
    if |p| == 1 {
      Samples.OneStep(m, c, p[0]);
      assert p == [p[0]];
    } else if p != [] {
      var d := Entries(m, c)[p[0]].cap;
      assert IsDir(m, d);
      ResolveHomed(m, n, d, p[1..]);
    }
  }

  /** A shard needed below a root is a shard of the node or chunk stored under its key. */
  lemma NeededHasKey(m: BlobMap, n: nat, root: ReadCap, q: Path, i: ShardID, key: nat)
    requires WellFormed(m, n) && root in m && NeededAt(m, root, q, i) && i / MAX_SHARDS == key
    ensures HasKey(m, root, q, key)
  {
    ResolveHomed(m, n, root, q);
    var y := Resolve(m, root, q).value;
    if i !in y.shards {
      assert BlobOk(m, n, y);
      var c := ChunkOf(m[y].file.chunks, i);
    }
  }

  lemma {:induction false} ChunkOf(refs: seq<ChunkRef>, i: ShardID) returns (c: ChunkRef)
    requires i in ChunkShards(refs)
    ensures c in refs && i in c.shards
  {
    c := refs[|refs| - 1];
    if i !in c.shards { c := ChunkOf(refs[..|refs| - 1], i); }
  }

  /** What was rekeyed is stored under new keys, so nothing at or below p has an old one. */
  lemma RekeyedKeys(d: Disk, n: nat, root: ReadCap, p: Path, d': Disk, root': ReadCap, q: Path, key: nat)
    requires RootRekeyed(d, n, root, d', root', p) && key < n && HasKey(d'.blobs, root', q, key)
    ensures !IsPrefix(p, q)
  {
    assert RootRekeyedAt(d, n, root, d', root', p, q);
  }

  lemma CutsOff(d: Disk, n: nat, root: ReadCap, p: Path, n2: nat, st: Steps, d': Disk, live': set<ShardID>, published: ReadCap)
    requires WellFormed(d.blobs, n) && root.key < n && Revocable(d, root, p)
    requires RootRekeyed(d, n, root, st.built, st.newRoot, p) && WellFormed(st.built.blobs, st.key) && st.newRoot.key < st.key
    requires Extends(d.blobs, n, st.built.blobs, st.key)
    requires Extends(st.built.blobs, st.key, st.committed.blobs, n2) && WellFormed(st.committed.blobs, n2)
    requires Reclaimed(d.blobs, Resolve(d.blobs, root, p).value, {}, st, d', live', published)
    ensures CutOff(d.blobs, Resolve(d.blobs, root, p).value, p, st, d'.blobs)
  {
    hide WellFormed, Extends, RootRekeyed, Reclaimed, Needed, Unloadable;
    var sub := Resolve(d.blobs, root, p).value;
    NewRootStored(d, n, root, p, st.built, st.newRoot);
    forall q ensures CutOffAt(d.blobs, sub, p, st, d'.blobs, q) {
      if Resolve(d.blobs, sub, q).Some? && 0 < Resolve(d.blobs, sub, q).value.params.k {
        CutsOffAt(d, n, root, p, n2, st, d', live', published, q);
      }
    }
  }

  lemma NewRootStored(d: Disk, n: nat, root: ReadCap, p: Path, d': Disk, root': ReadCap)
    requires Revocable(d, root, p) && RootRekeyed(d, n, root, d', root', p)
    ensures root' in d'.blobs
  {
    assert RootRekeyedAt(d, n, root, d', root', p, []);
    if p == [] {
      assert Resolve(d.blobs, root, []) == Some(root);
    } else {
      ThroughDirs(d.blobs, root, p, 0);
    }
  }

  lemma CutsOffAt(d: Disk, n: nat, root: ReadCap, p: Path, n2: nat, st: Steps, d': Disk, live': set<ShardID>, published: ReadCap, q: Path)
    requires WellFormed(d.blobs, n) && root.key < n && Revocable(d, root, p)
    requires RootRekeyed(d, n, root, st.built, st.newRoot, p) && WellFormed(st.built.blobs, st.key) && st.newRoot.key < st.key
    requires Extends(d.blobs, n, st.built.blobs, st.key) && st.newRoot in st.built.blobs
    requires Extends(st.built.blobs, st.key, st.committed.blobs, n2) && WellFormed(st.committed.blobs, n2)
    requires var sub := Resolve(d.blobs, root, p).value;
             && Reclaimed(d.blobs, sub, {}, st, d', live', published)
             && Resolve(d.blobs, sub, q).Some? && 0 < Resolve(d.blobs, sub, q).value.params.k
    ensures CutOffAt(d.blobs, Resolve(d.blobs, root, p).value, p, st, d'.blobs, q)
  {
    hide RootRekeyed, Unloadable, LeftOver, StillBacked;
    var sub := Resolve(d.blobs, root, p).value;
    var x := Resolve(d.blobs, sub, q).value;
    OldNode(d, n, root, p, q);
    if x in d'.blobs && !(exists q' :: !IsPrefix(p, q') && HasKey(st.committed.blobs, st.newRoot, q', x.key)) {
      hide WellFormed, Extends, LoadsTheSame;
      if SharesShard(x, st) {
        var i, q' := SharedAt(x, st);
        NeededHasKey(st.committed.blobs, n2, st.newRoot, q', i, x.key);
        SameKeyBefore(st, n2, q', x.key);
        RekeyedKeys(d, n, root, p, st.built, st.newRoot, q', x.key);
      }
      OldCapLost(d.blobs, sub, st, d', live', published, q);
    }
    forall q' | Resolve(st.committed.blobs, st.newRoot, q') == Some(x) ensures x in d'.blobs {
      ResolveStable(st.built.blobs, st.key, st.committed.blobs, n2, st.newRoot, q');
      assert LoadsTheSameAt(st.built, d', st.newRoot, q');
    }
  }

  lemma OldNode(d: Disk, n: nat, root: ReadCap, p: Path, q: Path)
    requires WellFormed(d.blobs, n) && root.key < n && Revocable(d, root, p) && Resolve(d.blobs, Resolve(d.blobs, root, p).value, q).Some?
    ensures var x := Resolve(d.blobs, Resolve(d.blobs, root, p).value, q).value;
            Homed(x) && x.key < n && (IsDir(d.blobs, x) || IsFile(d.blobs, x))
  {
    var sub := Resolve(d.blobs, root, p).value;
    var x := Resolve(d.blobs, sub, q).value;
    assert Rekeyable(d, x);
    assert BlobOk(d.blobs, n, x);
  }

  lemma SharedAt(x: ReadCap, st: Steps) returns (i: ShardID, q: Path)
    requires Homed(x) && SharesShard(x, st)
    ensures NeededAt(st.committed.blobs, st.newRoot, q, i) && i / MAX_SHARDS == x.key
  {
    i :| i in x.shards && Needed(st.committed.blobs, st.newRoot, i);
    q :| NeededAt(st.committed.blobs, st.newRoot, q, i);
  }

  lemma SameKeyBefore(st: Steps, n2: nat, q: Path, key: nat)
    requires WellFormed(st.built.blobs, st.key) && st.newRoot.key < st.key && Extends(st.built.blobs, st.key, st.committed.blobs, n2)
    requires HasKey(st.committed.blobs, st.newRoot, q, key)
    ensures HasKey(st.built.blobs, st.newRoot, q, key)
  {
    ResolveStable(st.built.blobs, st.key, st.committed.blobs, n2, st.newRoot, q);
    ResolveKnown(st.built.blobs, st.key, st.newRoot, q);
  }

  lemma PublishedGrows(m: BlobMap, n: nat, relabel: Labeler, oldRoot: ReadCap, newRoot: ReadCap, remotes: seq<Arrival>, m': BlobMap, root: ReadCap)
    returns (n': nat)
    requires WellFormed(m, n) && newRoot.key < n && Published(m, n, relabel, oldRoot, newRoot, remotes, m', root)
    ensures Extends(m, n, m', n') && WellFormed(m', n')
  {
    hide Chain;
    var forks, k :| Chain(relabel, oldRoot, Stage(m, n, newRoot), forks, Stage(m', k, root)) && Reads(forks, remotes);
    n' := k;
    ChainGrows(relabel, oldRoot, Stage(m, n, newRoot), forks, Stage(m', k, root));
  }

  // ---------------------------------------------------------------- a copy that is lost

  /**
   * The published root can lose data: another device's copy of a removed node, merged in by the commit, goes
   * with the node's shards unless the new root shares one.
   */
  lemma CopyElsewhereLost(m: BlobMap, sub: ReadCap, st: Steps, d': Disk, live': set<ShardID>, root: ReadCap, q: Path, copy: Path, x: ReadCap)
    requires Reclaimed(m, sub, {}, st, d', live', root) && Resolve(m, sub, q) == Some(x) && 0 < x.params.k && !SharesShard(x, st)
    requires Resolve(st.committed.blobs, root, copy) == Some(x) && (IsDir(st.committed.blobs, x) || IsFile(st.committed.blobs, x))
    ensures !LoadsTheSame(st.committed, d', root)
  {
    OldCapLost(m, sub, st, d', live', root, q);
    hide Resolve, Reclaimed, SharesShard;
    assert !LoadsTheSameAt(st.committed, d', root, copy);
  }
}

/** A run in which a removal takes another device's copy with it. */
module ReclaimLoss {
  import opened Core
  import opened Directory
  import opened Blobs
  import opened Samples
  import opened Graft
  import opened Rekey
  import opened Merge
  import opened MergeKept
  import opened Forks
  import opened Reclaim

  /** A file; a root with d bound to it; and another device's root that also binds e to it. */
  function CopyStore(): BlobMap {
    var x := Named("d", FileCap(1));
    Add(Add(map[FileCap(1) := EmptyFile()], 2, [x]), 3, [x, Named("e", FileCap(1))])
  }

  lemma CopyStoreOk()
    ensures WellFormed(CopyStore(), 4) && IsFile(CopyStore(), FileCap(1)) && IsDir(CopyStore(), DirCap(2)) && IsDir(CopyStore(), DirCap(3))
    ensures Entries(CopyStore(), DirCap(2)) == map["d" := Named("d", FileCap(1))]
    ensures Entries(CopyStore(), DirCap(3)) == map["d" := Named("d", FileCap(1)), "e" := Named("e", FileCap(1))]
  {
    var x, e := Named("d", FileCap(1)), Named("e", FileCap(1));
    var m := map[FileCap(1) := EmptyFile()];
    assert WellFormed(m, 2);
    hide WellFormed, Entries;
    AddedOne(m, 2, x);
    assert "d"[0] < "e"[0];
    AddedTwo(Add(m, 2, [x]), 3, x, e);
  }

  /** After removing its only entry a root leads nowhere. */
  lemma NothingLeft(m: BlobMap, root: ReadCap, m': BlobMap, root': ReadCap, x: string, q: Path)
    requires Entries(m, root).Keys == {x} && Removed(m, root, m', root', [x]) && q != []
    ensures Resolve(m', root', q) == None
  {
    if q[0] == x {
      assert q == [x] + q[1..];
    } else {
      assert Incomparable([x], q);
      EntryAtResolves(m', root', q);
    }
  }

  lemma NoEntriesLeft(m: BlobMap, root: ReadCap, m': BlobMap, root': ReadCap, x: string)
    requires Entries(m, root).Keys == {x} && Removed(m, root, m', root', [x])
    ensures Entries(m', root') == map[]
  {
    hide Removed;
    forall y ensures y !in Entries(m', root') {
      NothingLeft(m, root, m', root', x, [y]);
      OneStep(m', root', y);
    }
  }

  lemma OneFork(relabel: Labeler, base: ReadCap, start: Stage, forks: seq<Fork>, end: Stage, root: ReadCap) returns (f: Fork)
    requires Chain(relabel, base, start, forks, end) && Reads(forks, [Arrival([], root)])
    ensures f.remote == root && Folds(relabel, base, f)
    ensures Later(start, Stage(f.before, f.key, f.local)) && Later(Stage(f.after, f.nextKey, f.merged), end)
  {
    hide Later, Folds;
    f := forks[0];
    assert forks[..0] == [];
  }

  /** Merging an emptied root with one that gained e takes e over, under any labels. */
  lemma TakesOver(m: BlobMap, n: nat, relabel: Labeler, b: ReadCap, l: ReadCap, r: ReadCap, m': BlobMap, n': nat, c: ReadCap, x: ReadCap)
    requires WellFormed(m, n) && Extends(m, n, m', n') && l.key < n && r.key < n && Diverged(b, l, r)
    requires IsMerge(m, relabel, b, l, r, m', c) && x.kind != KindDir
    requires Entries(m, l) == map[] && "e" !in Entries(m, b) && "e" in Entries(m, r) && Entries(m, r)["e"].cap == x
    ensures Resolve(m', c, ["e"]) == Some(x)
  {
    hide WellFormed, Extends, IsMerge, Entries;
    OneStep(m, r, "e");
    OneStep(m, b, "e");
    var p: Path := ["e"];
    assert Edit(m, b, r, p, x);
    NoConflict(m, relabel, b, l, r);
    FreshKeepsRemote(m, n, relabel, b, l, r, p, x);
    RemoteEditSurvivesIff(m, n, relabel, b, l, r, m', n', c, p, x);
  }

  lemma NoConflict(m: BlobMap, relabel: Labeler, b: ReadCap, l: ReadCap, r: ReadCap)
    requires Entries(m, l) == map[] && Diverged(b, l, r)
    ensures FreshAlong(m, relabel, b, l, r, ["e"]) && CarriedTo(m, relabel, b, l, r, ["e"]) == ["e"]
  {
    var t := ThreeOf(m, b, l, r);
    assert forall x :: DecideName(t, x, false) != Both && DecideName(t, x, false) != Descend;
    assert ["e"] + ["e"][1..] == ["e"];
  }

  ghost predicate CopyRemoved(relabel: Labeler, chunks: ChunkMap, live: set<ShardID>, st: Steps, d': Disk, live': set<ShardID>, published: ReadCap) {
    RmDone(Disk(CopyStore(), chunks), 4, live, relabel, DirCap(2), ["d"], [Arrival([], DirCap(3))], {}, st, d', live', published)
  }

  lemma CopyPublished(relabel: Labeler, chunks: ChunkMap, live: set<ShardID>, st: Steps, d': Disk, live': set<ShardID>, published: ReadCap)
    requires CopyRemoved(relabel, chunks, live, st, d', live', published)
    ensures Resolve(st.committed.blobs, published, ["e"]) == Some(FileCap(1))
  {
    CopyStoreOk();
    hide Removable, Stored, Reclaimed, Chain, Folds, WellFormed, Extends, Entries, CopyStore, Removed;
    var m := CopyStore();
    NoEntriesLeft(m, DirCap(2), st.built.blobs, st.newRoot, "d");
    var forks, k :| Chain(relabel, DirCap(2), Stage(st.built.blobs, st.key, st.newRoot), forks, Stage(st.committed.blobs, k, published))
                    && Reads(forks, [Arrival([], DirCap(3))]);
    var f := OneFork(relabel, DirCap(2), Stage(st.built.blobs, st.key, st.newRoot), forks, Stage(st.committed.blobs, k, published), DirCap(3));
    ForkTakesOver(relabel, st, f);
    FoldsMeans(relabel, DirCap(2), f);
    ResolveStable(f.after, f.nextKey, st.committed.blobs, k, f.merged, ["e"]);
  }

  lemma FoldsMeans(relabel: Labeler, base: ReadCap, f: Fork)
    requires Folds(relabel, base, f)
    ensures WellFormed(f.before, f.key) && WellFormed(f.after, f.nextKey) && Extends(f.before, f.key, f.after, f.nextKey)
    ensures f.local.key < f.key && f.remote.key < f.key && f.merged.key < f.nextKey
    ensures IsMerge(f.before, relabel, base, f.local, f.remote, f.after, f.merged)
  {
  }

  lemma ForkTakesOver(relabel: Labeler, st: Steps, f: Fork)
    requires Extends(CopyStore(), 4, st.built.blobs, st.key) && WellFormed(st.built.blobs, st.key) && NewDirCap(st.newRoot, 4, st.key)
    requires Entries(st.built.blobs, st.newRoot) == map[]
    requires Later(Stage(st.built.blobs, st.key, st.newRoot), Stage(f.before, f.key, f.local))
    requires Folds(relabel, DirCap(2), f) && f.remote == DirCap(3)
    ensures Resolve(f.after, f.merged, ["e"]) == Some(FileCap(1))
  {
    CopyStoreOk();
    hide Folds, WellFormed, Entries, CopyStore;
    FoldsMeans(relabel, DirCap(2), f);
    SameEntries(CopyStore(), 4, st.built.blobs, st.key, DirCap(2));
    SameEntries(CopyStore(), 4, st.built.blobs, st.key, DirCap(3));
    SameEntries(st.built.blobs, st.key, f.before, f.key, DirCap(2));
    SameEntries(st.built.blobs, st.key, f.before, f.key, DirCap(3));
    SameEntries(st.built.blobs, st.key, f.before, f.key, st.newRoot);
    TakesOver(f.before, f.key, relabel, DirCap(2), st.newRoot, DirCap(3), f.after, f.nextKey, f.merged, FileCap(1));
  }

  lemma SameEntries(m: BlobMap, n: nat, m': BlobMap, n': nat, c: ReadCap)
    requires Extends(m, n, m', n') && c.key < n
    ensures Entries(m', c) == Entries(m, c)
  {
  }

  /** The new root is one blob with its own shards. */
  lemma CopyNotShared(relabel: Labeler, chunks: ChunkMap, live: set<ShardID>, st: Steps, d': Disk, live': set<ShardID>, published: ReadCap)
    requires CopyRemoved(relabel, chunks, live, st, d', live', published)
    ensures !SharesShard(FileCap(1), st) && IsFile(st.committed.blobs, FileCap(1))
  {
    CopyStoreOk();
    hide Removable, Reclaimed, Chain, WellFormed, CopyStore, Removed, Published, Needed, Entries;
    var n2 := PublishedGrows(st.built.blobs, st.key, relabel, DirCap(2), st.newRoot, [Arrival([], DirCap(3))], st.committed.blobs, published);
    forall i | i in FileCap(1).shards ensures !Needed(st.committed.blobs, st.newRoot, i) {
      forall q ensures !NeededAt(st.committed.blobs, st.newRoot, q, i) {
        ResolveStable(st.built.blobs, st.key, st.committed.blobs, n2, st.newRoot, q);
        if q != [] { NothingLeft(CopyStore(), DirCap(2), st.built.blobs, st.newRoot, "d", q); }
      }
      NeverNeeded(st.committed.blobs, st.newRoot, i);
    }
  }

  lemma NeverNeeded(m: BlobMap, root: ReadCap, i: ShardID)
    requires forall q :: !NeededAt(m, root, q, i)
    ensures !Needed(m, root, i)
  {
  }

  lemma CopyReclaimed(relabel: Labeler, chunks: ChunkMap, live: set<ShardID>, st: Steps, d': Disk, live': set<ShardID>, published: ReadCap)
    requires CopyRemoved(relabel, chunks, live, st, d', live', published)
    ensures Reclaimed(CopyStore(), FileCap(1), {}, st, d', live', published) && Resolve(CopyStore(), FileCap(1), []) == Some(FileCap(1))
  {
    CopyStoreOk();
    hide Removable, Reclaimed, Chain, WellFormed, CopyStore, Removed, Published, Entries;
    OneStep(CopyStore(), DirCap(2), "d");
  }

  /**
   * This device removes d while another has copied it to e. The merge that is published holds e, and whatever the
   * run, e no longer loads.
   */
  lemma RemovedCopyLost(relabel: Labeler, chunks: ChunkMap, live: set<ShardID>, st: Steps, d': Disk, live': set<ShardID>, published: ReadCap)
    requires RmDone(Disk(CopyStore(), chunks), 4, live, relabel, DirCap(2), ["d"], [Arrival([], DirCap(3))], {}, st, d', live', published)
    ensures Resolve(st.committed.blobs, published, ["e"]) == Some(FileCap(1)) && FileCap(1) !in d'.blobs
    ensures !LoadsTheSame(st.committed, d', published)
  {
    var x := FileCap(1);
    hide RmDone, CopyStore, Reclaimed, SharesShard, Resolve, LoadsTheSame;
    CopyPublished(relabel, chunks, live, st, d', live', published);
    CopyNotShared(relabel, chunks, live, st, d', live', published);
    CopyReclaimed(relabel, chunks, live, st, d', live', published);
    OldCapLost(CopyStore(), x, st, d', live', published, []);
    CopyElsewhereLost(CopyStore(), x, st, d', live', published, [], ["e"], x);
  }

  /** Such a removal does not fail: everything it reads is there. */
  lemma RemovalGoesThrough()
    ensures Removable(CopyStore(), DirCap(2), ["d"]) && !RemoteLost(CopyStore(), 4, [Arrival([], DirCap(3))])
  {
    CopyStoreOk();
    var m := CopyStore();
    hide WellFormed, CopyStore, Entries;
    OneStep(m, DirCap(2), "d");
    AllThere(m, 4, m, 4, DirCap(2), true);
    forall m1, n1 ensures !LostWhenRead(m, 4, m1, n1, DirCap(3)) {
      if Extends(m, 4, m1, n1) { AllThere(m, 4, m1, n1, DirCap(3), false); }
    }
  }

  /** A directory of the store with nothing but that file in it loads in every larger store. */
  lemma AllThere(m: BlobMap, n: nat, m1: BlobMap, n1: nat, c: ReadCap, files: bool)
    requires m == CopyStore() && Extends(m, n, m1, n1) && n == 4 && (c == DirCap(2) || c == DirCap(3)) && IsDir(m, c)
    requires forall y :: y in Entries(m, c) ==> Entries(m, c)[y].cap == FileCap(1)
    ensures !Unloadable(m1, c, files)
  {
    CopyStoreOk();
    SameEntries(m, n, m1, n1, c);
    hide CopyStore;
    LoadableAll(m1, FileCap(1), files);
    LoadableAll(m1, c, files);
  }
}

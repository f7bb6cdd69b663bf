/**
 * The blob store as the namespace layer sees it: immutable blobs addressed by caps, kept as erasure
 * shards that can be lost or deleted one by one. Random keys and the content addresses of freshly
 * sealed bytes are modelled by counters: all that is used of them is that they never occurred before.
 */
module Blobs {
  import opened Core
  import opened Directory

  datatype Blob = DirBlob(dir: DirManifest) | FileBlob(file: FileManifest)

  /** The blobs that can be loaded, by cap. */
  type BlobMap = map<ReadCap, Blob>

  datatype LoadError = WrongKind | Unreadable | NotADirectory | NotFound | RootPath | UnknownKind

  // ---------------------------------------------------------------- reading

  /** The entries below a cap; a cap that is not a loadable directory has none. */
  function Entries(m: BlobMap, c: ReadCap): map<string, Entry> {
    if IsDir(m, c) then EntryMap(m[c].dir.entries) else map[]
  }

  predicate IsDir(m: BlobMap, c: ReadCap) {
    c.kind == KindDir && c in m && m[c].DirBlob?
  }

  predicate IsFile(m: BlobMap, c: ReadCap) {
    c.kind == KindFile && c in m && m[c].FileBlob?
  }

  /** The cap a path leads to, if it leads anywhere. */
  function Resolve(m: BlobMap, c: ReadCap, p: Path): Option<ReadCap>
    decreases |p|
  {
    if p == [] then Some(c)
    else if p[0] in Entries(m, c) then Resolve(m, Entries(m, c)[p[0]].cap, p[1..])
    else None
  }

  /** The parent's entry for a path: its cap and the cached attributes. */
  function EntryAt(m: BlobMap, c: ReadCap, p: Path): Option<Entry>
    requires p != []
    decreases |p|
  {
    if p[0] !in Entries(m, c) then None
    else if |p| == 1 then Some(Entries(m, c)[p[0]])
    else EntryAt(m, Entries(m, c)[p[0]].cap, p[1..])
  }

  lemma {:induction false} EntryAtResolves(m: BlobMap, c: ReadCap, p: Path)
    requires p != []
    ensures Resolve(m, c, p) == match EntryAt(m, c, p) { case Some(e) => Some(e.cap) case None => None }
    decreases |p|
  {
    if p[0] in Entries(m, c) && |p| > 1 {
      EntryAtResolves(m, Entries(m, c)[p[0]].cap, p[1..]);
    }
  }

  /** Shards carry the key of what they are shards of: no two blobs or chunks share one. */
  predicate AtHome(key: nat, shards: seq<ShardID>) {
    forall s :: s in shards ==> s / MAX_SHARDS == key
  }

  /** A cap as minted: some shards, all of them its own. */
  predicate Homed(c: ReadCap) {
    c.shards != [] && AtHome(c.key, c.shards)
  }

  /**
   * What every store built by this code satisfies. Directories are sorted, each cap's kind is its
   * blob's, and a directory only names caps minted before its own.
   */
  ghost predicate WellFormed(m: BlobMap, next: nat) {
    forall c :: c in m ==> BlobOk(m, next, c)
  }

  ghost predicate BlobOk(m: BlobMap, next: nat, c: ReadCap) {
    && c in m
    && c.key < next && Homed(c)
    && (c.kind == KindDir <==> m[c].DirBlob?)
    && (c.kind == KindFile <==> m[c].FileBlob?)
    && (m[c].DirBlob? ==> EntriesOk(m[c].dir.entries, c.key))
    && (m[c].FileBlob? ==> ChunksBelow(m[c].file.chunks, c.key))
  }

  /** Every chunk was stored before the manifest that lists it. */
  predicate ChunksBelow(refs: seq<ChunkRef>, key: nat) {
    forall r :: r in refs ==> r.key < key && AtHome(r.key, r.shards)
  }

  predicate EntriesOk(es: seq<Entry>, key: nat) {
    && Sorted(es)
    && forall n :: n in EntryMap(es) ==>
         EntryMap(es)[n].name == n && EntryMap(es)[n].cap.key < key && Homed(EntryMap(es)[n].cap)
  }

  lemma UpsertedOk(es: seq<Entry>, key: nat, e: Entry, es': seq<Entry>, key': nat)
    requires EntriesOk(es, key) && key <= key' && Sorted(es') && EntryMap(es') == EntryMap(es)[e.name := e]
    requires e.cap.key < key' && Homed(e.cap)
    ensures EntriesOk(es', key')
  {
  }

  /** `m'` adds blobs to `m`, all of them minted from `next` on. */
  ghost predicate Extends(m: BlobMap, next: nat, m': BlobMap, next': nat) {
    && next <= next'
    && (forall c :: c in m ==> c in m' && m'[c] == m[c])
    && (forall c :: c in m' && c !in m ==> next <= c.key < next')
  }

  lemma ExtendsTransitive(m: BlobMap, n: nat, m1: BlobMap, n1: nat, m2: BlobMap, n2: nat)
    requires Extends(m, n, m1, n1) && Extends(m1, n1, m2, n2)
    ensures Extends(m, n, m2, n2)
  {
  }

  lemma EntriesBelow(m: BlobMap, next: nat, c: ReadCap)
    requires WellFormed(m, next)
    ensures forall n :: n in Entries(m, c) ==>
              Entries(m, c)[n].cap.key < c.key && Entries(m, c)[n].cap.key < next
              && Homed(Entries(m, c)[n].cap) && Entries(m, c)[n].name == n
  {
  }

  /** Writing more blobs changes no path of a cap that already existed. */
  lemma {:induction false} ResolveStable(m: BlobMap, next: nat, m': BlobMap, next': nat, c: ReadCap, p: Path)
    requires WellFormed(m, next) && Extends(m, next, m', next') && c.key < next
    ensures Resolve(m', c, p) == Resolve(m, c, p)
    decreases |p|
  {
    assert Entries(m', c) == Entries(m, c);
    if p != [] && p[0] in Entries(m, c) {
      EntriesBelow(m, next, c);
      ResolveStable(m, next, m', next', Entries(m, c)[p[0]].cap, p[1..]);
    }
  }

  /** Walking p and then q is walking p + q. */
  lemma {:induction false} ResolveConcat(m: BlobMap, c: ReadCap, p: Path, q: Path)
    ensures Resolve(m, c, p + q) ==
            if Resolve(m, c, p).Some? then Resolve(m, Resolve(m, c, p).value, q) else None
    decreases |p|
  {
    if p == [] {
      assert p + q == q;
    } else {
      assert (p + q)[1..] == p[1..] + q;
      if p[0] in Entries(m, c) {
        ResolveConcat(m, Entries(m, c)[p[0]].cap, p[1..], q);
      }
    }
  }

  /** A path that leads somewhere passes through directories. */
  lemma ThroughDirs(m: BlobMap, root: ReadCap, p: Path, i: nat)
    requires Resolve(m, root, p).Some? && i < |p|
    ensures Resolve(m, root, p[..i]).Some? && IsDir(m, Resolve(m, root, p[..i]).value)
  {
    assert p == p[..i] + p[i..];
    ResolveConcat(m, root, p[..i], p[i..]);
  }

  lemma {:induction false} ResolveKnown(m: BlobMap, next: nat, c: ReadCap, p: Path)
    requires WellFormed(m, next) && c.key < next
    ensures Resolve(m, c, p).Some? ==> Resolve(m, c, p).value.key < next && (p != [] ==> Resolve(m, c, p).value.key < c.key)
    decreases |p|
  {
    EntriesBelow(m, next, c);
    if p != [] && p[0] in Entries(m, c) {
      ResolveKnown(m, next, Entries(m, c)[p[0]].cap, p[1..]);
    }
  }

  // ---------------------------------------------------------------- what cannot be loaded

  predicate Lost(m: BlobMap, c: ReadCap, files: bool) {
    (c.kind == KindDir && !IsDir(m, c)) || (files && c.kind == KindFile && !IsFile(m, c))
  }

  ghost predicate LostAt(m: BlobMap, c: ReadCap, p: Path, files: bool) {
    Resolve(m, c, p).Some? && Lost(m, Resolve(m, c, p).value, files)
  }

  /** Some directory below a cap cannot be loaded, or with `files` some directory or file. */
  ghost predicate Unloadable(m: BlobMap, c: ReadCap, files: bool) {
    exists p :: LostAt(m, c, p, files)
  }

  lemma UnloadableHere(m: BlobMap, c: ReadCap, files: bool)
    requires Lost(m, c, files)
    ensures Unloadable(m, c, files)
  {
    assert LostAt(m, c, [], files);
  }

  lemma UnloadableBelow(m: BlobMap, c: ReadCap, x: string, files: bool)
    requires x in Entries(m, c) && Unloadable(m, Entries(m, c)[x].cap, files)
    ensures Unloadable(m, c, files)
  {
    var p :| LostAt(m, Entries(m, c)[x].cap, p, files);
    assert ([x] + p)[1..] == p;
    assert LostAt(m, c, [x] + p, files);
  }

  /** A cap whose blob loads and whose entries load all the way down. */
  lemma LoadableAll(m: BlobMap, c: ReadCap, files: bool)
    requires !Lost(m, c, files) && forall x :: x in Entries(m, c) ==> !Unloadable(m, Entries(m, c)[x].cap, files)
    ensures !Unloadable(m, c, files)
  {
    forall p ensures !LostAt(m, c, p, files) {
      if p != [] && p[0] in Entries(m, c) {
        assert !LostAt(m, Entries(m, c)[p[0]].cap, p[1..], files);
      }
    }
  }

  // ---------------------------------------------------------------- shards

  /** How many positions of a stripe are still in the store. */
  function Present(shards: seq<ShardID>, live: set<ShardID>): nat {
    if shards == [] then 0
    else Present(shards[..|shards| - 1], live) + if shards[|shards| - 1] in live then 1 else 0
  }

  lemma {:induction false} PresentDepends(shards: seq<ShardID>, live: set<ShardID>, live': set<ShardID>)
    requires forall i :: 0 <= i < |shards| ==> (shards[i] in live <==> shards[i] in live')
    ensures Present(shards, live) == Present(shards, live')
  {
    if shards != [] { PresentDepends(shards[..|shards| - 1], live, live'); }
  }

  lemma {:induction false} PresentGrows(shards: seq<ShardID>, live: set<ShardID>, live': set<ShardID>)
    requires live <= live'
    ensures Present(shards, live) <= Present(shards, live')
  {
    if shards != [] { PresentGrows(shards[..|shards| - 1], live, live'); }
  }

  lemma {:induction false} PresentAll(shards: seq<ShardID>, live: set<ShardID>)
    requires forall i :: 0 <= i < |shards| ==> shards[i] in live
    ensures Present(shards, live) == |shards|
  {
    if shards != [] { PresentAll(shards[..|shards| - 1], live); }
  }

  ghost function Positions(shards: seq<ShardID>, live: set<ShardID>): set<nat> {
    set i: nat | i < |shards| && shards[i] in live
  }

  lemma {:induction false} PresentCounts(shards: seq<ShardID>, live: set<ShardID>)
    ensures Present(shards, live) == |Positions(shards, live)|
  {
    if shards != [] {
      var n := |shards| - 1;
      PresentCounts(shards[..n], live);
      var front := Positions(shards[..n], live);
      assert n !in front && Positions(shards, live) == front + if shards[n] in live then {n} else {};
    }
  }

  /** A blob or a chunk can be read exactly when K or more of its positions have a shard. */
  lemma RecoverableIff(c: ReadCap, r: ChunkRef, k: int, live: set<ShardID>)
    ensures BlobRecoverable(c, live) <==> |Positions(c.shards, live)| >= c.params.k
    ensures ChunkRecoverable(r, k, live) <==> |Positions(r.shards, live)| >= k
  {
    PresentCounts(c.shards, live);
    PresentCounts(r.shards, live);
  }

  /** A data chunk: how many of its shards it needs, and what they decode to. */
  datatype Chunk = Chunk(k: int, plain: Bytes)

  type ChunkMap = map<ChunkRef, Chunk>

  predicate BlobRecoverable(c: ReadCap, live: set<ShardID>) {
    c.params.k <= Present(c.shards, live)
  }

  predicate ChunkRecoverable(r: ChunkRef, k: int, live: set<ShardID>) {
    k <= Present(r.shards, live)
  }

  /** Everything the store can load has at least K shards left. */
  ghost predicate Backed(m: BlobMap, chunks: ChunkMap, live: set<ShardID>) {
    && (forall c :: c in m ==> BlobRecoverable(c, live))
    && (forall r :: r in chunks ==> ChunkRecoverable(r, chunks[r].k, live))
  }

  /** What is still loadable from the given shards. */
  function KeptBlobs(m: BlobMap, live: set<ShardID>): BlobMap {
    map c | c in m && BlobRecoverable(c, live) :: m[c]
  }

  function KeptChunks(ch: ChunkMap, live: set<ShardID>): ChunkMap {
    map r | r in ch && ChunkRecoverable(r, ch[r].k, live) :: ch[r]
  }

  lemma KeptWellFormed(m: BlobMap, next: nat, live: set<ShardID>)
    requires WellFormed(m, next)
    ensures WellFormed(KeptBlobs(m, live), next)
  {
  }

  lemma BackedGrows(m: BlobMap, chunks: ChunkMap, live: set<ShardID>, live': set<ShardID>)
    requires Backed(m, chunks, live) && live <= live'
    ensures Backed(m, chunks, live')
  {
    forall c | c in m ensures BlobRecoverable(c, live') { PresentGrows(c.shards, live, live'); }
    forall r | r in chunks ensures ChunkRecoverable(r, chunks[r].k, live') { PresentGrows(r.shards, live, live'); }
  }

  class BlobStore {
    /** The blobs and chunks that can be loaded, and the shards that back them. */
    var blobs: BlobMap
    var chunks: ChunkMap
    var live: set<ShardID>
    var nextKey: nat

    ghost predicate Valid() reads this {
      && WellFormed(blobs, nextKey)
      && (forall r :: r in chunks ==> r.key < nextKey)
      && Backed(blobs, chunks, live)
    }

    constructor ()
      ensures Valid() && blobs == map[] && chunks == map[]
    {
      blobs, chunks, live := map[], map[], {};
      nextKey := 1;
    }

    /** Store the n shards of one freshly sealed stripe. */
    method PutShards(n: nat) returns (shards: seq<ShardID>)
      requires Valid() && n <= MAX_SHARDS
      modifies this`live
      ensures Valid() && |shards| == n && Present(shards, live) == n && old(live) <= live && AtHome(nextKey, shards)
    {
      var first := nextKey * MAX_SHARDS;
      shards := seq(n, i requires 0 <= i => first + i);
      live := live + set s | s in shards;
      PresentAll(shards, live);
      BackedGrows(blobs, chunks, old(live), live);
    }

    /** Seal and store one blob: one more loadable blob under a cap never seen before. */
    method PutBlob(cfg: Config, kind: Kind, blob: Blob) returns (c: ReadCap)
      requires Valid() && cfg.params.Valid()
      requires kind == KindDir <==> blob.DirBlob?
      requires kind == KindFile <==> blob.FileBlob?
      requires blob.DirBlob? ==> EntriesOk(blob.dir.entries, nextKey)
      requires blob.FileBlob? ==> ChunksBelow(blob.file.chunks, nextKey)
      modifies this
      ensures Valid() && nextKey == old(nextKey) + 1 && old(live) <= live
      ensures c.kind == kind && c.key == old(nextKey) && Homed(c) && c !in old(blobs)
      ensures blobs == old(blobs)[c := blob] && chunks == old(chunks)
    {
      var shards := PutShards(cfg.params.N());
      c := ReadCap(kind, nextKey, false, cfg.params, shards);
      assert c in blobs ==> BlobOk(blobs, nextKey, c);
      PutWellFormed(blobs, nextKey, c, blob);
      blobs := blobs[c := blob];
      nextKey := nextKey + 1;
    }

    /** Seal and store one data chunk under a fresh key. */
    method PutChunk(cfg: Config, plain: Bytes) returns (r: ChunkRef)
      requires Valid() && cfg.params.Valid()
      modifies this
      ensures Valid() && nextKey == old(nextKey) + 1 && old(live) <= live
      ensures r.key == old(nextKey) && AtHome(r.key, r.shards) && r !in old(chunks)
      ensures blobs == old(blobs) && chunks == old(chunks)[r := Chunk(cfg.params.k, plain)]
    {
      var shards := PutShards(cfg.params.N());
      r := ChunkRef(nextKey, false, shards);
      WellFormedLater(blobs, nextKey, nextKey + 1);
      chunks := chunks[r := Chunk(cfg.params.k, plain)];
      nextKey := nextKey + 1;
    }

    /** Delete one shard; what then has fewer than K shards can no longer be loaded. */
    method DeleteShard(id: ShardID)
      requires Valid()
      modifies this
      ensures Valid() && live == old(live) - {id} && nextKey == old(nextKey)
      ensures blobs == KeptBlobs(old(blobs), live) && chunks == KeptChunks(old(chunks), live)
    {
      live := live - {id};
      blobs, chunks := KeptBlobs(blobs, live), KeptChunks(chunks, live);
      KeptWellFormed(old(blobs), nextKey, live);
    }

    /** Load a directory blob: the cap must be a directory's and K of its shards must survive. */
    method LoadDir(c: ReadCap) returns (r: Result<DirManifest, LoadError>)
      requires Valid()
      ensures r.Ok? <==> IsDir(blobs, c)
      ensures r.Ok? ==> r.value == blobs[c].dir && EntriesOk(r.value.entries, c.key) && c.key < nextKey
    {
      if c.kind != KindDir {
        return Err(WrongKind);
      }
      if c !in blobs {
        return Err(Unreadable);
      }
      assert BlobOk(blobs, nextKey, c);
      return Ok(blobs[c].dir);
    }
  }

  lemma PutWellFormed(m: BlobMap, next: nat, c: ReadCap, blob: Blob)
    requires WellFormed(m, next) && c.key == next && Homed(c)
    requires c.kind == KindDir <==> blob.DirBlob?
    requires c.kind == KindFile <==> blob.FileBlob?
    requires blob.DirBlob? ==> EntriesOk(blob.dir.entries, next)
    requires blob.FileBlob? ==> ChunksBelow(blob.file.chunks, next)
    ensures WellFormed(m[c := blob], next + 1)
  {
  }

  lemma WellFormedLater(m: BlobMap, next: nat, next': nat)
    requires WellFormed(m, next) && next <= next'
    ensures WellFormed(m, next')
  {
  }

  /** The store only grew, by blobs. */
  twostate predicate Grew(s: BlobStore)
    reads s
  {
    s.Valid() && Extends(old(s.blobs), old(s.nextKey), s.blobs, s.nextKey) && s.chunks == old(s.chunks) && old(s.live) <= s.live
  }

  /** A directory cap minted in this span. */
  predicate NewDirCap(c: ReadCap, next: nat, next': nat) {
    c.kind == KindDir && next <= c.key < next' && Homed(c)
  }
}

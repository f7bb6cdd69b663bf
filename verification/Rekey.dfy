/** Re-encryption of a subtree under fresh keys. */
module Rekey {
  import opened Core
  import opened Directory
  import opened Blobs
  import opened Graft

  /** What can be loaded at one moment: blobs and data chunks. */
  datatype Disk = Disk(blobs: BlobMap, chunks: ChunkMap)

  // ---------------------------------------------------------------- meaning

  /** The plaintext a list of chunks decodes to, if all of them can be loaded. */
  function FileBytes(chunks: ChunkMap, refs: seq<ChunkRef>): Option<Bytes> {
    if refs == [] then Some([])
    else
      var front, last := FileBytes(chunks, refs[..|refs| - 1]), refs[|refs| - 1];
      if front.Some? && last in chunks then Some(front.value + chunks[last].plain) else None
  }

  /** A file's bytes are those of its chunks, one after another; without one of them there are none. */
  lemma {:induction false} FileBytesJoin(chunks: ChunkMap, a: seq<ChunkRef>, b: seq<ChunkRef>)
    ensures FileBytes(chunks, a + b) ==
            if FileBytes(chunks, a).Some? && FileBytes(chunks, b).Some? then Some(FileBytes(chunks, a).value + FileBytes(chunks, b).value) else None
  {
    if b == [] {
      assert a + b == a;
      if FileBytes(chunks, a).Some? { assert FileBytes(chunks, a).value + [] == FileBytes(chunks, a).value; }
    } else {
      var front := b[..|b| - 1];
      assert (a + b)[..|a + b| - 1] == a + front;
      FileBytesJoin(chunks, a, front);
      var x, y, last := FileBytes(chunks, a), FileBytes(chunks, front), b[|b| - 1];
      if x.Some? && y.Some? && last in chunks { assert x.value + y.value + chunks[last].plain == x.value + (y.value + chunks[last].plain); }
    }
  }

  lemma FileBytesOne(chunks: ChunkMap, r: ChunkRef)
    ensures FileBytes(chunks, [r]) == if r in chunks then Some(chunks[r].plain) else None
  {
    var one := [r];
    assert one[..|one| - 1] == [];
    if r in chunks { assert [] + chunks[r].plain == chunks[r].plain; }
  }

  /** The two caps mean the same: equal directory attributes, or equal file attributes and bytes. */
  ghost predicate SameNode(d: Disk, x: ReadCap, d': Disk, y: ReadCap) {
    && x.kind == y.kind
    && (IsDir(d.blobs, x) <==> IsDir(d'.blobs, y))
    && (IsDir(d.blobs, x) ==> d'.blobs[y].dir.meta == d.blobs[x].dir.meta)
    && (IsFile(d.blobs, x) <==> IsFile(d'.blobs, y))
    && (IsFile(d.blobs, x) ==>
          var f, g := d.blobs[x].file, d'.blobs[y].file;
          g.(chunks := f.chunks) == f && FileBytes(d'.chunks, g.chunks) == FileBytes(d.chunks, f.chunks))
  }

  /** Nothing of this node was stored before key n: not its blob, and for a file not its chunks. */
  ghost predicate FreshNode(d: Disk, y: ReadCap, n: nat) {
    && n <= y.key
    && (IsFile(d.blobs, y) ==> forall r :: r in d.blobs[y].file.chunks ==> n <= r.key)
  }

  ghost predicate RekeyedAt(d: Disk, n: nat, c: ReadCap, d': Disk, c': ReadCap, p: Path) {
    var x, y := Resolve(d.blobs, c, p), Resolve(d'.blobs, c', p);
    && (x.Some? <==> y.Some?)
    && (x.Some? ==> SameNode(d, x.value, d', y.value) && FreshNode(d', y.value, n))
    && (x.Some? && p != [] ==> SameStat(EntryAt(d.blobs, c, p), EntryAt(d'.blobs, c', p)))
  }

  ghost predicate SameStat(a: Option<Entry>, b: Option<Entry>) {
    a.Some? && b.Some? && a.value.name == b.value.name && a.value.stat == b.value.stat
  }

  /** The whole subtree: the same paths, each with the same meaning, all of it stored afresh. */
  ghost predicate Rekeyed(d: Disk, n: nat, c: ReadCap, d': Disk, c': ReadCap) {
    forall p :: RekeyedAt(d, n, c, d', c', p)
  }

  predicate Readable(d: Disk, x: ReadCap) {
    IsDir(d.blobs, x) || (IsFile(d.blobs, x) && FileBytes(d.chunks, d.blobs[x].file.chunks).Some?)
  }

  /** A node that can be read and stored again. */
  predicate Rekeyable(d: Disk, x: ReadCap) {
    && Readable(d, x)
    && (IsFile(d.blobs, x) ==> d.blobs[x].file.chunks == [] || d.blobs[x].file.params.params.Valid())
  }

  ghost predicate AllRekeyable(d: Disk, c: ReadCap) {
    forall p :: Resolve(d.blobs, c, p).Some? ==> Rekeyable(d, Resolve(d.blobs, c, p).value)
  }

  // ---------------------------------------------------------------- growing stores

  ghost predicate ChunksGrew(ch: ChunkMap, n: nat, ch': ChunkMap, n': nat) {
    && (forall r :: r in ch ==> r in ch' && ch'[r] == ch[r] && r.key < n)
    && (forall r :: r in ch' && r !in ch ==> n <= r.key < n')
  }

  ghost predicate DiskGrew(d: Disk, n: nat, d': Disk, n': nat) {
    WellFormed(d.blobs, n) && Extends(d.blobs, n, d'.blobs, n') && ChunksGrew(d.chunks, n, d'.chunks, n')
  }

  lemma {:induction false} BytesStable(ch: ChunkMap, n: nat, ch': ChunkMap, n': nat, refs: seq<ChunkRef>)
    requires ChunksGrew(ch, n, ch', n') && FileBytes(ch, refs).Some?
    ensures FileBytes(ch', refs) == FileBytes(ch, refs)
  {
    if refs != [] { BytesStable(ch, n, ch', n', refs[..|refs| - 1]); }
  }

  /** A file that can be read means the same in a grown store. */
  lemma NodeStable(d: Disk, n: nat, d': Disk, n': nat, x: ReadCap)
    requires DiskGrew(d, n, d', n') && Readable(d, x)
    ensures SameNode(d, x, d', x)
  {
    if IsFile(d.blobs, x) {
      BytesStable(d.chunks, n, d'.chunks, n', d.blobs[x].file.chunks);
    }
  }

  lemma SameNodeTransitive(d: Disk, x: ReadCap, d1: Disk, y: ReadCap, d2: Disk, z: ReadCap)
    requires SameNode(d, x, d1, y) && SameNode(d1, y, d2, z)
    ensures SameNode(d, x, d2, z)
  {
  }

  /** A rekeyed subtree stays one while the store grows. */
  lemma RekeyedStable(d: Disk, n: nat, c: ReadCap, d1: Disk, n1: nat, c': ReadCap, d2: Disk, n2: nat)
    requires Rekeyed(d, n, c, d1, c') && AllRekeyable(d, c) && DiskGrew(d1, n1, d2, n2) && c'.key < n1
    ensures Rekeyed(d, n, c, d2, c')
  {
    forall p ensures RekeyedAt(d, n, c, d2, c', p) {
      assert RekeyedAt(d, n, c, d1, c', p);
      ResolveStable(d1.blobs, n1, d2.blobs, n2, c', p);
      if p != [] { EntryAtStable(d1.blobs, n1, d2.blobs, n2, c', p); }
      var x, y := Resolve(d.blobs, c, p), Resolve(d1.blobs, c', p);
      if x.Some? {
        NodeStable(d1, n1, d2, n2, y.value);
        SameNodeTransitive(d, x.value, d1, y.value, d2, y.value);
      }
    }
  }

  /** A rekeyed subtree of an earlier store, seen from before that store had grown. */
  lemma RekeyedRebase(d: Disk, n: nat, c: ReadCap, d1: Disk, n1: nat, d2: Disk, c': ReadCap)
    requires DiskGrew(d, n, d1, n1) && c.key < n && Rekeyed(d1, n1, c, d2, c') && AllRekeyable(d, c)
    ensures Rekeyed(d, n, c, d2, c')
  {
    forall p ensures RekeyedAt(d, n, c, d2, c', p) {
      assert RekeyedAt(d1, n1, c, d2, c', p);
      ResolveStable(d.blobs, n, d1.blobs, n1, c, p);
      if p != [] { EntryAtStable(d.blobs, n, d1.blobs, n1, c, p); }
      var x := Resolve(d.blobs, c, p);
      if x.Some? {
        NodeStable(d, n, d1, n1, x.value);
        SameNodeTransitive(d, x.value, d1, x.value, d2, Resolve(d2.blobs, c', p).value);
      }
    }
  }

  // ---------------------------------------------------------------- one node

  /** A rewritten directory whose children are rekeyed is rekeyed. */
  lemma RekeyedDir(d: Disk, n: nat, c: ReadCap, d': Disk, c': ReadCap)
    requires IsDir(d.blobs, c) && IsDir(d'.blobs, c') && d'.blobs[c'].dir.meta == d.blobs[c].dir.meta && n <= c'.key
    requires Entries(d.blobs, c).Keys == Entries(d'.blobs, c').Keys
    requires forall x :: x in Entries(d.blobs, c) ==>
               ChildRekeyed(d, n, Entries(d.blobs, c)[x], d', Entries(d'.blobs, c')[x])
    ensures Rekeyed(d, n, c, d', c')
  {
    forall p ensures RekeyedAt(d, n, c, d', c', p) {
      if p != [] && p[0] in Entries(d.blobs, c) {
        assert ChildRekeyed(d, n, Entries(d.blobs, c)[p[0]], d', Entries(d'.blobs, c')[p[0]]);
        assert RekeyedAt(d, n, Entries(d.blobs, c)[p[0]].cap, d', Entries(d'.blobs, c')[p[0]].cap, p[1..]);
      }
    }
  }

  ghost predicate ChildRekeyed(d: Disk, n: nat, e: Entry, d': Disk, e': Entry) {
    e'.name == e.name && e'.stat == e.stat && Rekeyed(d, n, e.cap, d', e'.cap)
  }

  lemma RekeyedFile(d: Disk, n: nat, c: ReadCap, d': Disk, c': ReadCap)
    requires IsFile(d.blobs, c) && IsFile(d'.blobs, c') && SameNode(d, c, d', c') && FreshNode(d', c', n)
    ensures Rekeyed(d, n, c, d', c')
  {
  }

  lemma RekeyableDir(d: Disk, c: ReadCap)
    requires IsDir(d.blobs, c)
    ensures AllRekeyable(d, c) <==> forall x :: x in Entries(d.blobs, c) ==> AllRekeyable(d, Entries(d.blobs, c)[x].cap)
  {
    var es := Entries(d.blobs, c);
    if AllRekeyable(d, c) {
      forall x, p | x in es && Resolve(d.blobs, es[x].cap, p).Some?
        ensures Rekeyable(d, Resolve(d.blobs, es[x].cap, p).value)
      {
        assert ([x] + p)[1..] == p;
        assert Resolve(d.blobs, c, [x] + p).Some?;
      }
    }
    if forall x :: x in es ==> AllRekeyable(d, es[x].cap) {
      forall p | Resolve(d.blobs, c, p).Some? ensures Rekeyable(d, Resolve(d.blobs, c, p).value) {
        if p != [] { assert AllRekeyable(d, es[p[0]].cap); }
      }
    }
  }

  lemma RekeyableLeaf(d: Disk, c: ReadCap)
    requires !IsDir(d.blobs, c)
    ensures AllRekeyable(d, c) <==> Rekeyable(d, c)
  {
    assert Entries(d.blobs, c) == map[];
    if AllRekeyable(d, c) { assert Resolve(d.blobs, c, []).Some?; }
  }

  lemma {:induction false} BytesRebase(ch: ChunkMap, n: nat, ch': ChunkMap, n': nat, refs: seq<ChunkRef>)
    requires ChunksGrew(ch, n, ch', n') && ChunksBelow(refs, n)
    ensures FileBytes(ch', refs) == FileBytes(ch, refs)
  {
    if refs != [] {
      assert refs[|refs| - 1] in refs;
      BytesRebase(ch, n, ch', n', refs[..|refs| - 1]);
    }
  }

  /** Whether an old subtree can be rekeyed does not change as the store grows. */
  lemma RekeyableRebase(d: Disk, n: nat, d1: Disk, n1: nat, c: ReadCap)
    requires DiskGrew(d, n, d1, n1) && c.key < n
    ensures AllRekeyable(d1, c) <==> AllRekeyable(d, c)
  {
    forall p
      ensures Resolve(d1.blobs, c, p) == Resolve(d.blobs, c, p)
      ensures Resolve(d.blobs, c, p).Some? ==>
                (Rekeyable(d1, Resolve(d.blobs, c, p).value) <==> Rekeyable(d, Resolve(d.blobs, c, p).value))
    {
      ResolveStable(d.blobs, n, d1.blobs, n1, c, p);
      ResolveKnown(d.blobs, n, c, p);
      if Resolve(d.blobs, c, p).Some? {
        var x := Resolve(d.blobs, c, p).value;
        if IsFile(d.blobs, x) {
          assert BlobOk(d.blobs, n, x);
          BytesRebase(d.chunks, n, d1.chunks, n1, d.blobs[x].file.chunks);
        }
      }
    }
  }

  lemma DiskGrewTransitive(d: Disk, n: nat, d1: Disk, n1: nat, d2: Disk, n2: nat)
    requires DiskGrew(d, n, d1, n1) && DiskGrew(d1, n1, d2, n2)
    ensures DiskGrew(d, n, d2, n2)
  {
    hide WellFormed;
  }

  // ---------------------------------------------------------------- the code

  function DiskOf(s: BlobStore): Disk
    reads s
  {
    Disk(s.blobs, s.chunks)
  }

  /** A rekey fails exactly when something in the subtree cannot be read or stored again. */
  ghost predicate RekeyOutcome(d: Disk, n: nat, c: ReadCap, d': Disk, n': nat, r: Result<ReadCap, LoadError>) {
    match r
    case Err(_) => !AllRekeyable(d, c)
    case Ok(c') =>
      && AllRekeyable(d, c) && Rekeyed(d, n, c, d', c')
      && c'.kind == c.kind && n <= c'.key < n' && Homed(c')
  }

  /** Re-encrypt every chunk of a file: fresh chunks, the same bytes. */
  method ReencryptFile(s: BlobStore, f: FileManifest) returns (r: Result<FileManifest, LoadError>)
    requires s.Valid() && ChunksBelow(f.chunks, s.nextKey)
    modifies s
    ensures s.Valid() && s.blobs == old(s.blobs) && old(s.nextKey) <= s.nextKey && old(s.live) <= s.live
    ensures ChunksGrew(old(s.chunks), old(s.nextKey), s.chunks, s.nextKey)
    ensures r.Ok? <==> FileBytes(old(s.chunks), f.chunks).Some? && (f.chunks == [] || f.params.params.Valid())
    ensures r.Ok? ==> r.value.(chunks := f.chunks) == f && ChunksBelow(r.value.chunks, s.nextKey)
    ensures r.Ok? ==> FileBytes(s.chunks, r.value.chunks) == FileBytes(old(s.chunks), f.chunks)
    ensures r.Ok? ==> SamePlains(old(s.chunks), f.chunks, s.chunks, r.value.chunks)
    ensures r.Ok? ==> forall x :: x in r.value.chunks ==> old(s.nextKey) <= x.key
  {
    hide WellFormed, Backed, FileBytes, SamePlains;
    var out: seq<ChunkRef> := [];
    ghost var ch, n := s.chunks, s.nextKey;
    NoBytes(ch, f.chunks);
    assert SamePlains(ch, f.chunks[..0], ch, out) by { NoPlains(ch, f.chunks); }
    for i := 0 to |f.chunks|
      invariant s.Valid() && s.blobs == old(s.blobs) && old(s.live) <= s.live && n <= s.nextKey && ChunksGrew(ch, n, s.chunks, s.nextKey)
      invariant FileBytes(ch, f.chunks[..i]).Some? && (i > 0 ==> f.params.params.Valid())
      invariant FileBytes(s.chunks, out) == FileBytes(ch, f.chunks[..i]) && SamePlains(ch, f.chunks[..i], s.chunks, out)
      invariant forall x :: x in out ==> n <= x.key < s.nextKey && AtHome(x.key, x.shards)
    {
      var ref := f.chunks[i];
      assert ref in f.chunks;
      if ref !in s.chunks || !f.params.params.Valid() {
        MissingChunk(ch, f.chunks, i);
        return Err(Unreadable);
      }
      ghost var ch1, n1 := s.chunks, s.nextKey;
      var ref' := s.PutChunk(f.params, s.chunks[ref].plain);
      BytesStable(ch1, n1, s.chunks, s.nextKey, out);
      BytesNext(ch, f.chunks, i, s.chunks, out, ref');
      PlainsNext(ch, f.chunks, i, ch1, n1, s.chunks, s.nextKey, out, ref');
      out := out + [ref'];
    }
    assert f.chunks[..|f.chunks|] == f.chunks;
    return Ok(f.(chunks := out));
  }

  lemma NoPlains(ch: ChunkMap, refs: seq<ChunkRef>)
    ensures SamePlains(ch, refs[..0], ch, [])
  {
  }

  lemma NoBytes(ch: ChunkMap, refs: seq<ChunkRef>)
    ensures FileBytes(ch, []) == Some([]) && refs[..0] == []
  {
  }

  /** Chunk by chunk the same bytes. */
  ghost predicate SamePlains(ch: ChunkMap, refs: seq<ChunkRef>, ch': ChunkMap, refs': seq<ChunkRef>) {
    |refs'| == |refs| && forall i :: 0 <= i < |refs| ==> refs[i] in ch && refs'[i] in ch' && ch'[refs'[i]].plain == ch[refs[i]].plain
  }

  lemma PlainsNext(ch: ChunkMap, refs: seq<ChunkRef>, i: nat, ch1: ChunkMap, n1: nat, ch': ChunkMap, n': nat, out: seq<ChunkRef>, ref': ChunkRef)
    requires i < |refs| && refs[i] in ch && ref' in ch' && ch'[ref'].plain == ch[refs[i]].plain
    requires SamePlains(ch, refs[..i], ch1, out) && ChunksGrew(ch1, n1, ch', n')
    ensures SamePlains(ch, refs[..i + 1], ch', out + [ref'])
  {
  }

  /** One more chunk on both sides. */
  lemma BytesNext(ch: ChunkMap, refs: seq<ChunkRef>, i: nat, ch': ChunkMap, out: seq<ChunkRef>, ref': ChunkRef)
    requires i < |refs| && refs[i] in ch && ref' in ch' && ch'[ref'].plain == ch[refs[i]].plain
    requires FileBytes(ch, refs[..i]).Some? && FileBytes(ch', out) == FileBytes(ch, refs[..i])
    ensures FileBytes(ch, refs[..i + 1]).Some? && FileBytes(ch', out + [ref']) == FileBytes(ch, refs[..i + 1])
  {
    assert refs[..i + 1][..i] == refs[..i];
    assert (out + [ref'])[..|out|] == out;
  }

  lemma {:induction false} MissingChunk(ch: ChunkMap, refs: seq<ChunkRef>, i: nat)
    requires i < |refs|
    ensures refs[i] !in ch ==> FileBytes(ch, refs) == None
  {
    if i < |refs| - 1 { MissingChunk(ch, refs[..|refs| - 1], i); }
  }

  /** Re-encrypt a whole subtree. */
  method RekeyTree(s: BlobStore, cfg: Config, c: ReadCap) returns (r: Result<ReadCap, LoadError>)
    requires s.Valid() && cfg.params.Valid() && c.key < s.nextKey
    modifies s
    ensures s.Valid() && DiskGrew(old(DiskOf(s)), old(s.nextKey), DiskOf(s), s.nextKey) && old(s.live) <= s.live
    ensures RekeyOutcome(old(DiskOf(s)), old(s.nextKey), c, DiskOf(s), s.nextKey, r)
    decreases c.key, 1
  {
    hide Rekeyed, AllRekeyable, Backed;
    ghost var d, n := DiskOf(s), s.nextKey;
    assert c in d.blobs ==> BlobOk(d.blobs, n, c);
    match c.kind
    case KindFile =>
      RekeyableLeaf(d, c);
      r := RekeyFile(s, cfg, c);
    case KindDir =>
      var dir := s.LoadDir(c);
      if dir.Err? {
        RekeyableLeaf(d, c);
        r := Err(dir.error);
      } else {
        r := RekeyDir(s, cfg, c, dir.value);
      }
    case KindOther(_) =>
      RekeyableLeaf(d, c);
      r := Err(UnknownKind);
  }

  method RekeyFile(s: BlobStore, cfg: Config, c: ReadCap) returns (r: Result<ReadCap, LoadError>)
    requires s.Valid() && cfg.params.Valid() && c.key < s.nextKey && c.kind == KindFile
    modifies s
    ensures s.Valid() && DiskGrew(old(DiskOf(s)), old(s.nextKey), DiskOf(s), s.nextKey) && old(s.live) <= s.live
    ensures RekeyOutcome(old(DiskOf(s)), old(s.nextKey), c, DiskOf(s), s.nextKey, r)
  {
    hide Rekeyed, AllRekeyable, Backed, FileBytes, DiskGrew, WellFormed;
    ghost var d, n := DiskOf(s), s.nextKey;
    RekeyableLeaf(d, c);
    SelfGrew(s);
    if c !in s.blobs {
      r := Err(Unreadable);
    } else {
      BlobIsOk(d, n, c);
      var f := ReencryptFile(s, s.blobs[c].file);
      FileGrew(d, n, DiskOf(s), s.nextKey);
      if f.Err? {
        r := Err(f.error);
      } else {
        ghost var d1, n1 := DiskOf(s), s.nextKey;
        var c' := s.PutBlob(cfg, KindFile, FileBlob(f.value));
        BlobGrew(d, n, d1, n1, c', FileBlob(f.value));
        RekeyedFile(d, n, c, DiskOf(s), c');
        r := Ok(c');
      }
    }
  }

  lemma BlobIsOk(d: Disk, n: nat, c: ReadCap)
    requires WellFormed(d.blobs, n) && c in d.blobs
    ensures BlobOk(d.blobs, n, c)
  {
  }

  lemma FileGrew(d: Disk, n: nat, d': Disk, n': nat)
    requires WellFormed(d.blobs, n) && d'.blobs == d.blobs && n <= n' && ChunksGrew(d.chunks, n, d'.chunks, n')
    ensures DiskGrew(d, n, d', n')
  {
  }

  lemma BlobGrew(d: Disk, n: nat, d': Disk, n': nat, c: ReadCap, blob: Blob)
    requires DiskGrew(d, n, d', n') && c.key == n' && c !in d'.blobs
    ensures DiskGrew(d, n, Disk(d'.blobs[c := blob], d'.chunks), n' + 1)
  {
  }

  /** Re-encrypt the children in order, then store the directory that names the new ones. */
  method RekeyDir(s: BlobStore, cfg: Config, c: ReadCap, dir: DirManifest) returns (r: Result<ReadCap, LoadError>)
    requires s.Valid() && cfg.params.Valid() && IsDir(s.blobs, c) && dir == s.blobs[c].dir
    modifies s
    ensures s.Valid() && DiskGrew(old(DiskOf(s)), old(s.nextKey), DiskOf(s), s.nextKey) && old(s.live) <= s.live
    ensures RekeyOutcome(old(DiskOf(s)), old(s.nextKey), c, DiskOf(s), s.nextKey, r)
    decreases c.key, 0
  {
    hide Rekeyed, AllRekeyable, WellFormed, Backed, ChildrenDone, DiskGrew, EntriesOk;
    ghost var d, n := DiskOf(s), s.nextKey;
    var es := dir.entries;
    var out: seq<Entry> := [];
    DirStart(s, c);
    for i := 0 to |es|
      invariant s.Valid() && DiskGrew(d, n, DiskOf(s), s.nextKey) && old(s.live) <= s.live
      invariant ChildrenDone(d, n, es, i, DiskOf(s), s.nextKey, out)
    {
      ghost var d1, n1 := DiskOf(s), s.nextKey;
      EntryKeys(d, n, c, i);
      GrewKeys(d, n, d1, n1);
      var child := RekeyTree(s, cfg, es[i].cap);
      RekeyableRebase(d, n, d1, n1, es[i].cap);
      DiskGrewTransitive(d, n, d1, n1, DiskOf(s), s.nextKey);
      if child.Err? {
        ChildFails(d, n, c, i);
        return Err(child.error);
      }
      var e := Entry(es[i].name, child.value, es[i].stat);
      ChildrenStep(d, n, es, i, d1, n1, out, DiskOf(s), s.nextKey, e);
      out := out + [e];
    }
    ghost var d1, n1 := DiskOf(s), s.nextKey;
    ChildrenEntries(d, n, c, d1, n1, out);
    var c' := s.PutBlob(cfg, KindDir, DirBlob(DirManifest(dir.meta, out)));
    DirDone(d, n, c, d1, n1, out, DiskOf(s), s.nextKey, c');
    return Ok(c');
  }

  /** The first i children of a directory, rekeyed. */
  ghost predicate ChildrenDone(d: Disk, n: nat, es: seq<Entry>, i: nat, d': Disk, n': nat, out: seq<Entry>) {
    && |out| == i <= |es|
    && forall j :: 0 <= j < i ==> ChildDone(d, n, es[j], d', n', out[j])
  }

  ghost predicate ChildDone(d: Disk, n: nat, e: Entry, d': Disk, n': nat, e': Entry) {
    ChildRekeyed(d, n, e, d', e') && AllRekeyable(d, e.cap) && n <= e'.cap.key < n' && Homed(e'.cap)
  }

  lemma DirStart(s: BlobStore, c: ReadCap)
    requires s.Valid() && IsDir(s.blobs, c)
    ensures DiskGrew(DiskOf(s), s.nextKey, DiskOf(s), s.nextKey)
    ensures ChildrenDone(DiskOf(s), s.nextKey, s.blobs[c].dir.entries, 0, DiskOf(s), s.nextKey, [])
  {
  }

  lemma GrewKeys(d: Disk, n: nat, d1: Disk, n1: nat)
    requires DiskGrew(d, n, d1, n1)
    ensures n <= n1
  {
  }

  lemma EntryKeys(d: Disk, n: nat, c: ReadCap, i: nat)
    requires WellFormed(d.blobs, n) && IsDir(d.blobs, c) && i < |d.blobs[c].dir.entries|
    ensures var e := d.blobs[c].dir.entries[i]; e.cap.key < c.key < n && e.name in Entries(d.blobs, c) && Entries(d.blobs, c)[e.name] == e
  {
    assert BlobOk(d.blobs, n, c);
    SortedLists(d.blobs[c].dir.entries);
  }

  lemma ChildFails(d: Disk, n: nat, c: ReadCap, i: nat)
    requires WellFormed(d.blobs, n) && IsDir(d.blobs, c) && i < |d.blobs[c].dir.entries|
    requires !AllRekeyable(d, d.blobs[c].dir.entries[i].cap)
    ensures !AllRekeyable(d, c)
  {
    hide AllRekeyable, WellFormed;
    EntryKeys(d, n, c, i);
    RekeyableDir(d, c);
  }

  lemma ChildrenStep(d: Disk, n: nat, es: seq<Entry>, i: nat, d1: Disk, n1: nat, out: seq<Entry>, d2: Disk, n2: nat, e: Entry)
    requires ChildrenDone(d, n, es, i, d1, n1, out) && i < |es|
    requires DiskGrew(d, n, d1, n1) && DiskGrew(d1, n1, d2, n2) && es[i].cap.key < n
    requires e.name == es[i].name && e.stat == es[i].stat && n1 <= e.cap.key < n2 && Homed(e.cap)
    requires AllRekeyable(d, es[i].cap) && Rekeyed(d1, n1, es[i].cap, d2, e.cap)
    ensures ChildrenDone(d, n, es, i + 1, d2, n2, out + [e])
  {
    hide Rekeyed, AllRekeyable, DiskGrew;
    GrewKeys(d, n, d1, n1);
    GrewKeys(d1, n1, d2, n2);
    forall j | 0 <= j < i ensures ChildDone(d, n, es[j], d2, n2, out[j]) {
      assert ChildDone(d, n, es[j], d1, n1, out[j]);
      RekeyedStable(d, n, es[j].cap, d1, n1, out[j].cap, d2, n2);
    }
    RekeyedRebase(d, n, es[i].cap, d1, n1, d2, e.cap);
  }

  lemma ChildrenSorted(d: Disk, n: nat, es: seq<Entry>, d': Disk, n': nat, out: seq<Entry>)
    requires Sorted(es) && ChildrenDone(d, n, es, |es|, d', n', out)
    ensures |out| == |es| && Sorted(out)
    ensures forall j :: 0 <= j < |es| ==> ChildDone(d, n, es[j], d', n', out[j]) && es[j].name == out[j].name
  {
    hide Rekeyed, AllRekeyable, Less;
  }

  /** The new directory lists the same names in the same order. */
  lemma ChildrenEntries(d: Disk, n: nat, c: ReadCap, d': Disk, n': nat, out: seq<Entry>)
    requires WellFormed(d.blobs, n) && IsDir(d.blobs, c)
    requires var es := d.blobs[c].dir.entries; ChildrenDone(d, n, es, |es|, d', n', out)
    ensures EntriesOk(out, n')
    ensures EntryMap(out).Keys == Entries(d.blobs, c).Keys
    ensures forall x :: x in EntryMap(out) ==> ChildDone(d, n, Entries(d.blobs, c)[x], d', n', EntryMap(out)[x])
  {
    hide Rekeyed, AllRekeyable, WellFormed, Less;
    var es := d.blobs[c].dir.entries;
    DirSorted(d, n, c);
    ChildrenSorted(d, n, es, d', n', out);
    SortedLists(es);
    SortedLists(out);
    SameNamesListed(es, EntryMap(es), out, EntryMap(out));
    hide ChildDone, Sorted;
    forall x | x in EntryMap(out) ensures ChildDone(d, n, EntryMap(es)[x], d', n', EntryMap(out)[x]) {
      assert Holds(out, x);
      var j :| 0 <= j < |out| && out[j].name == x;
      assert es[j].name == x;
    }
  }

  lemma SameNamesListed(es: seq<Entry>, m: map<string, Entry>, out: seq<Entry>, m': map<string, Entry>)
    requires Lists(es, m) && Lists(out, m') && |es| == |out| && forall j :: 0 <= j < |es| ==> es[j].name == out[j].name
    ensures m.Keys == m'.Keys
  {
  }

  lemma DirSorted(d: Disk, n: nat, c: ReadCap)
    requires WellFormed(d.blobs, n) && IsDir(d.blobs, c)
    ensures Sorted(d.blobs[c].dir.entries)
  {
  }

  lemma DirDone(d: Disk, n: nat, c: ReadCap, d1: Disk, n1: nat, out: seq<Entry>, d2: Disk, n2: nat, c': ReadCap)
    requires DiskGrew(d, n, d1, n1) && WellFormed(d1.blobs, n1) && (forall r :: r in d1.chunks ==> r.key < n1) && IsDir(d.blobs, c)
    requires EntryMap(out).Keys == Entries(d.blobs, c).Keys
    requires forall x :: x in EntryMap(out) ==> ChildDone(d, n, Entries(d.blobs, c)[x], d1, n1, EntryMap(out)[x])
    requires c'.kind == KindDir && c'.key == n1 && Homed(c') && c' !in d1.blobs && n2 == n1 + 1
    requires d2 == Disk(d1.blobs[c' := DirBlob(DirManifest(d.blobs[c].dir.meta, out))], d1.chunks)
    ensures DiskGrew(d, n, d2, n2) && RekeyOutcome(d, n, c, d2, n2, Ok(c'))
  {
    hide Rekeyed, AllRekeyable, WellFormed;
    assert DiskGrew(d1, n1, d2, n2);
    DiskGrewTransitive(d, n, d1, n1, d2, n2);
    forall x | x in Entries(d.blobs, c)
      ensures ChildRekeyed(d, n, Entries(d.blobs, c)[x], d2, EntryMap(out)[x]) && AllRekeyable(d, Entries(d.blobs, c)[x].cap)
    {
      assert ChildDone(d, n, Entries(d.blobs, c)[x], d1, n1, EntryMap(out)[x]);
      RekeyedStable(d, n, Entries(d.blobs, c)[x].cap, d1, n1, EntryMap(out)[x].cap, d2, n2);
    }
    RekeyedDir(d, n, c, d2, c');
    RekeyableDir(d, c);
  }

  // ---------------------------------------------------------------- from the root

  /** What a rekey of the subtree at p means at path q of the namespace. */
  ghost predicate RootRekeyedAt(d: Disk, n: nat, root: ReadCap, d': Disk, root': ReadCap, p: Path, q: Path) {
    var x, y := Resolve(d.blobs, root, q), Resolve(d'.blobs, root', q);
    && (x.Some? <==> y.Some?)
    && (x.Some? ==>
          && SameNode(d, x.value, d', y.value)
          && (IsPrefix(p, q) ==> FreshNode(d', y.value, n))
          && (Incomparable(p, q) ==> y == x))
  }

  ghost predicate RootRekeyed(d: Disk, n: nat, root: ReadCap, d': Disk, root': ReadCap, p: Path) {
    forall q :: RootRekeyedAt(d, n, root, d', root', p, q)
  }

  lemma NodeRebase(d: Disk, n: nat, d': Disk, n': nat, x: ReadCap)
    requires DiskGrew(d, n, d', n') && x.key < n
    ensures SameNode(d, x, d', x)
  {
    if IsFile(d.blobs, x) {
      assert BlobOk(d.blobs, n, x);
      BytesRebase(d.chunks, n, d'.chunks, n', d.blobs[x].file.chunks);
    }
  }

  lemma BelowSubtree(d: Disk, n: nat, root: ReadCap, d': Disk, root': ReadCap, p: Path, sub: ReadCap, newSub: ReadCap, q: Path)
    requires Resolve(d.blobs, root, p) == Some(sub) && Rekeyed(d, n, sub, d', newSub) && IsPrefix(p, q)
    requires forall rest :: Resolve(d'.blobs, root', p + rest) == Resolve(d'.blobs, newSub, rest)
    ensures RootRekeyedAt(d, n, root, d', root', p, q)
  {
    var rest := q[|p|..];
    assert q == p + rest;
    ResolveConcat(d.blobs, root, p, rest);
    assert RekeyedAt(d, n, sub, d', newSub, rest);
  }

  lemma BesideSubtree(d: Disk, n: nat, root: ReadCap, d': Disk, n': nat, root': ReadCap, p: Path, q: Path)
    requires DiskGrew(d, n, d', n') && root.key < n && Incomparable(p, q) && SameBeside(d.blobs, root, d'.blobs, root', p)
    ensures RootRekeyedAt(d, n, root, d', root', p, q)
  {
    hide SameNode, DiskGrew;
    EntryAtResolves(d.blobs, root, q);
    EntryAtResolves(d'.blobs, root', q);
    DiskBlobs(d, n, d', n');
    ResolveKnown(d.blobs, n, root, q);
    if Resolve(d.blobs, root, q).Some? {
      NodeRebase(d, n, d', n', Resolve(d.blobs, root, q).value);
    }
  }

  lemma DiskBlobs(d: Disk, n: nat, d': Disk, n': nat)
    requires DiskGrew(d, n, d', n')
    ensures WellFormed(d.blobs, n) && Extends(d.blobs, n, d'.blobs, n')
  {
  }

  lemma AboveSubtree(d: Disk, n: nat, root: ReadCap, d': Disk, root': ReadCap, p: Path, i: nat)
    requires Resolve(d.blobs, root, p).Some? && i < |p| && SpineRewritten(d.blobs, root, d'.blobs, root', p)
    ensures RootRekeyedAt(d, n, root, d', root', p, p[..i])
  {
    assert Rewritten(d.blobs, root, d'.blobs, root', p[..i]);
    assert p == p[..i] + p[i..];
    ResolveConcat(d.blobs, root, p[..i], p[i..]);
  }

  /** Grafting a rekeyed subtree back in its place preserves the meaning of every path. */
  lemma RekeyGrafted(d: Disk, n: nat, root: ReadCap, d1: Disk, n1: nat, sub: ReadCap, newSub: ReadCap,
                     d': Disk, n': nat, root': ReadCap, p: Path, e: Entry)
    requires DiskGrew(d, n, d1, n1) && DiskGrew(d1, n1, d', n') && root.key < n && p != []
    requires Resolve(d.blobs, root, p) == Some(sub) && newSub.key < n1 && e.cap == newSub
    requires Rekeyed(d, n, sub, d1, newSub) && AllRekeyable(d, sub)
    requires Grafted(d1.blobs, root, d'.blobs, root', p, e)
    ensures RootRekeyed(d, n, root, d', root', p)
  {
    hide DiskGrew, Rekeyed, AllRekeyable, Rewritten;
    RekeyedStable(d, n, sub, d1, n1, newSub, d', n');
    DiskGrewTransitive(d, n, d1, n1, d', n');
    GraftedEarlier(d, n, root, d1, n1, d', root', p, e);
    forall q ensures RootRekeyedAt(d, n, root, d', root', p, q) {
      if IsPrefix(p, q) {
        BelowSubtree(d, n, root, d', root', p, sub, newSub, q);
      } else if IsPrefix(q, p) {
        AboveSubtree(d, n, root, d', root', p, |q|);
      } else {
        BesideSubtree(d, n, root, d', n', root', p, q);
      }
    }
  }

  /** A graft seen from before the store grew: the old root's paths are the same. */
  lemma GraftedEarlier(d: Disk, n: nat, root: ReadCap, d1: Disk, n1: nat, d': Disk, root': ReadCap, p: Path, e: Entry)
    requires DiskGrew(d, n, d1, n1) && root.key < n && p != [] && Grafted(d1.blobs, root, d'.blobs, root', p, e)
    ensures SameBeside(d.blobs, root, d'.blobs, root', p) && SpineRewritten(d.blobs, root, d'.blobs, root', p)
  {
    forall q | q != [] && Incomparable(p, q) ensures EntryAt(d'.blobs, root', q) == EntryAt(d.blobs, root, q) {
      EntryAtStable(d.blobs, n, d1.blobs, n1, root, q);
    }
    forall i | 0 <= i < |p| ensures Rewritten(d.blobs, root, d'.blobs, root', p[..i]) {
      assert Rewritten(d1.blobs, root, d'.blobs, root', p[..i]);
      ResolveStable(d.blobs, n, d1.blobs, n1, root, p[..i]);
      ResolveKnown(d.blobs, n, root, p[..i]);
    }
  }

  /** The parent's lookup of the last name gives the entry at the path. */
  lemma {:induction false} EntryAtParent(m: BlobMap, c: ReadCap, p: Path)
    requires p != [] && Resolve(m, c, p).Some?
    ensures Resolve(m, c, p[..|p| - 1]).Some?
    ensures var parent := Resolve(m, c, p[..|p| - 1]).value;
            p[|p| - 1] in Entries(m, parent) && EntryAt(m, c, p) == Some(Entries(m, parent)[p[|p| - 1]])
    decreases |p|
  {
    if |p| > 1 {
      EntryAtParent(m, Entries(m, c)[p[0]].cap, p[1..]);
      assert p[..|p| - 1][1..] == p[1..][..|p| - 2];
    }
  }

  /** Rekey fails exactly when the path leads nowhere or its subtree cannot be read and stored again. */
  ghost predicate RekeyRootOutcome(d: Disk, n: nat, root: ReadCap, p: Path, d': Disk, r: Result<ReadCap, LoadError>) {
    var sub := Resolve(d.blobs, root, p);
    && (r.Ok? <==> sub.Some? && AllRekeyable(d, sub.value))
    && (r.Ok? ==> RootRekeyed(d, n, root, d', r.value, p))
  }

  /** Re-encrypt the subtree at p and graft it back into a new root. */
  method Rekey(s: BlobStore, cfg: Config, root: ReadCap, p: Path) returns (r: Result<ReadCap, LoadError>)
    requires s.Valid() && cfg.params.Valid() && root.key < s.nextKey
    modifies s
    ensures s.Valid() && DiskGrew(old(DiskOf(s)), old(s.nextKey), DiskOf(s), s.nextKey) && old(s.live) <= s.live
    ensures RekeyRootOutcome(old(DiskOf(s)), old(s.nextKey), root, p, DiskOf(s), r)
    ensures r.Ok? ==> r.value.key < s.nextKey
  {
    hide AllRekeyable, Rekeyed, WellFormed, Backed, RootRekeyed, Grafted;
    ghost var d, n := DiskOf(s), s.nextKey;
    var sub := ResolvePath(s, root, p);
    if sub.Err? {
      SelfGrew(s);
      r := Err(sub.error);
    } else {
      ResolveKnown(d.blobs, n, root, p);
      r := RekeyTree(s, cfg, sub.value);
      if r.Ok? {
        if p == [] {
          WholeRekeyed(d, n, root, DiskOf(s), r.value);
        } else {
          r := GraftBack(s, cfg, root, p, sub.value, r.value, d, n);
        }
      }
    }
  }

  lemma SelfGrew(s: BlobStore)
    requires s.Valid()
    ensures DiskGrew(DiskOf(s), s.nextKey, DiskOf(s), s.nextKey)
  {
  }

  lemma WholeRekeyed(d: Disk, n: nat, root: ReadCap, d': Disk, root': ReadCap)
    requires Rekeyed(d, n, root, d', root')
    ensures RootRekeyed(d, n, root, d', root', [])
  {
    forall q ensures RootRekeyedAt(d, n, root, d', root', [], q) {
      assert RekeyedAt(d, n, root, d', root', q);
      assert IsPrefix([], q);
    }
  }

  method GraftBack(s: BlobStore, cfg: Config, root: ReadCap, p: Path, ghost sub: ReadCap, newSub: ReadCap, ghost d: Disk, ghost n: nat)
    returns (r: Result<ReadCap, LoadError>)
    requires s.Valid() && cfg.params.Valid() && root.key < n && p != []
    requires DiskGrew(d, n, DiskOf(s), s.nextKey) && Resolve(d.blobs, root, p) == Some(sub)
    requires Rekeyed(d, n, sub, DiskOf(s), newSub) && AllRekeyable(d, sub) && newSub.key < s.nextKey && Homed(newSub)
    modifies s
    ensures s.Valid() && DiskGrew(d, n, DiskOf(s), s.nextKey) && old(s.live) <= s.live
    ensures r.Ok? && RootRekeyed(d, n, root, DiskOf(s), r.value, p) && r.value.key < s.nextKey
  {
    hide AllRekeyable, Rekeyed, WellFormed, Backed, RootRekeyed, DiskGrew, Grafted, Blocked;
    ghost var d1, n1 := DiskOf(s), s.nextKey;
    DiskBlobs(d, n, d1, n1);
    GrewKeys(d, n, d1, n1);
    ResolveStable(d.blobs, n, d1.blobs, n1, root, p);
    EntryAtParent(d1.blobs, root, p);
    NotBlocked(d1.blobs, root, p);
    var parent := ResolvePath(s, root, p[..|p| - 1]);
    var dir := s.LoadDir(parent.value);
    var e := Lookup(dir.value, p[|p| - 1]);
    r := Graft.Graft(s, cfg, root, p, newSub, e.value.stat);
    GrewDisk(s, d1, n1);
    RekeyGrafted(d, n, root, d1, n1, sub, newSub, DiskOf(s), s.nextKey, r.value, p, GraftEntry(p, newSub, e.value.stat));
    DiskGrewTransitive(d, n, d1, n1, DiskOf(s), s.nextKey);
  }

  lemma GrewDisk(s: BlobStore, d1: Disk, n1: nat)
    requires s.Valid() && WellFormed(d1.blobs, n1) && Extends(d1.blobs, n1, s.blobs, s.nextKey) && s.chunks == d1.chunks
    requires forall r :: r in d1.chunks ==> r.key < n1
    ensures DiskGrew(d1, n1, DiskOf(s), s.nextKey)
  {
  }
}

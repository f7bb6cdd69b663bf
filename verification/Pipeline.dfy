/** Storing, loading and repairing files as encrypted, erasure-coded, content-addressed shards. */
module Pipeline {
  import opened Core
  import opened Erasure

  // ---------------------------------------------------------------- what is taken as given

  /** Hashing, sealing with a key and a nonce, compression, and the erasure code. */
  datatype Codecs = Codecs(hash: Bytes -> ShardID,
                           seal: (nat, nat, Bytes) -> Bytes, open: (nat, Bytes) -> Option<Bytes>,
                           compress: Bytes -> Bytes, decompress: Bytes -> Option<Bytes>,
                           code: Code)

  /** A sealed payload carries its nonce and its authentication tag. */
  const SEAL_OVERHEAD := 28

  /** Slices, and the integers that size them, stay below this. */
  const MAX_LENGTH := 0x8000_0000_0000_0000

  ghost predicate Lawful(c: Codecs) {
    && (forall a, b :: c.hash(a) == c.hash(b) ==> a == b)
    && (forall key: nat, nonce: nat, x :: c.open(key, c.seal(key, nonce, x)) == Some(x))
    && (forall key: nat, nonce: nat, x :: |c.seal(key, nonce, x)| == |x| + SEAL_OVERHEAD)
    && (forall x :: c.decompress(c.compress(x)) == Some(x))
    && LawfulCode(c.code)
  }

  // ---------------------------------------------------------------- chunking

  datatype PipelineError = BadChunkSize | Coding(error: ErasureError) | Unsealable | Unpackable

  /** Cut into pieces of the given size, the last one possibly shorter. */
  method Fixed(data: Bytes, size: int) returns (r: Result<seq<Bytes>, PipelineError>)
    ensures size <= 0 ==> r == Err(BadChunkSize)
    ensures size > 0 ==>
              && r.Ok? && Concat(r.value) == data
              && (forall i :: 0 <= i < |r.value| ==> 0 < |r.value[i]| <= size)
              && (forall i :: 0 <= i < |r.value| - 1 ==> |r.value[i]| == size)
  {
    if size <= 0 { return Err(BadChunkSize); }
    hide Concat;
    NoParts();
    var parts: seq<Bytes> := [];
    var rest := data;
    while rest != []
      invariant Concat(parts) + rest == data
      invariant forall i :: 0 <= i < |parts| ==> 0 < |parts[i]| <= size
      invariant forall i :: 0 <= i < |parts| ==> |parts[i]| == size || (rest == [] && i == |parts| - 1)
      decreases |rest|
    {
      var n := if |rest| < size then |rest| else size;
      ConcatMore(parts, rest[..n]);
      assert rest == rest[..n] + rest[n..];
      parts := parts + [rest[..n]];
      rest := rest[n..];
    }
    return Ok(parts);
  }

  lemma NoParts()
    ensures Concat([]) == []
  {
  }

  lemma {:induction false} ConcatMore(parts: seq<Bytes>, last: Bytes)
    ensures Concat(parts + [last]) == Concat(parts) + last
  {
    if parts == [] {
      assert parts + [last] == [last] && [last][1..] == [];
    } else {
      ConcatMore(parts[1..], last);
      assert (parts + [last])[1..] == parts[1..] + [last];
    }
  }

  // ---------------------------------------------------------------- the shard store

  type Blobs = map<ShardID, Bytes>

  /** The bytes read back under an address: none if missing, or if they no longer hash to it. */
  function Fetched(c: Codecs, blobs: Blobs, id: ShardID): Option<Bytes> {
    if id in blobs && c.hash(blobs[id]) == id then Some(blobs[id]) else None
  }

  /** An address holding bytes that are not its own. */
  predicate Corrupt(c: Codecs, blobs: Blobs, id: ShardID) {
    id in blobs && c.hash(blobs[id]) != id
  }

  ghost function Addresses(c: Codecs, shards: seq<Bytes>): (ids: seq<ShardID>)
    ensures |ids| == |shards| && forall i :: 0 <= i < |ids| ==> ids[i] == c.hash(shards[i])
  {
    seq(|shards|, i requires 0 <= i < |shards| => c.hash(shards[i]))
  }

  function Fetch(c: Codecs, blobs: Blobs, ids: seq<ShardID>): (s: seq<Option<Bytes>>)
    ensures |s| == |ids| && forall i :: 0 <= i < |ids| ==> s[i] == Fetched(c, blobs, ids[i])
  {
    seq(|ids|, i requires 0 <= i < |ids| => Fetched(c, blobs, ids[i]))
  }

  /** Shard positions that read back. */
  ghost function Alive(c: Codecs, blobs: Blobs, ids: seq<ShardID>): nat {
    Present(Fetch(c, blobs, ids))
  }

  /** What was put under a shard's address is that shard. */
  lemma FetchedIsShard(c: Codecs, blobs: Blobs, shards: seq<Bytes>)
    requires Lawful(c)
    ensures PartOf(Fetch(c, blobs, Addresses(c, shards)), shards)
  {
  }

  // ---------------------------------------------------------------- chunks

  /** The recipe's sealed bytes: they open to the payload, and the payload unpacks to the chunk. */
  ghost predicate Seals(c: Codecs, ref: ChunkRef, sealed: Bytes, plain: Bytes) {
    var payload := c.open(ref.key, sealed);
    && |sealed| < UINT64 && payload.Some?
    && if ref.compressed then c.decompress(payload.value) == Some(plain) else payload.value == plain
  }

  /** The recipe's addresses are those of the erasure-coded sealed bytes. */
  ghost predicate Codes(c: Codecs, p: Params, ref: ChunkRef, sealed: Bytes) {
    p.Valid() && ref.shards == Addresses(c, Encode(c.code, p, sealed).value)
  }

  ghost predicate Describes(c: Codecs, p: Params, ref: ChunkRef, plain: Bytes) {
    exists sealed :: Codes(c, p, ref, sealed) && Seals(c, ref, sealed, plain)
  }

  /** What loading a chunk yields, given which of its shards read back. */
  function Loaded(c: Codecs, blobs: Blobs, p: Params, ref: ChunkRef): Result<Bytes, PipelineError> {
    var sealed := Decode(c.code, p, Fetch(c, blobs, ref.shards));
    if sealed.Err? then Err(Coding(sealed.error))
    else
      var payload := c.open(ref.key, sealed.value);
      if payload.None? then Err(Unsealable)
      else if !ref.compressed then Ok(payload.value)
      else if c.decompress(payload.value).None? then Err(Unpackable)
      else Ok(c.decompress(payload.value).value)
  }

  lemma DecodesSealed(c: Codecs, blobs: Blobs, p: Params, ref: ChunkRef, sealed: Bytes)
    requires Lawful(c) && Codes(c, p, ref, sealed) && |sealed| < UINT64
    ensures Decode(c.code, p, Fetch(c, blobs, ref.shards)) ==
            if Alive(c, blobs, ref.shards) >= p.k then Ok(sealed) else Err(TooFew)
  {
    hide Decode, LawfulCode, Fetch, Addresses, DataShards;
    FetchedIsShard(c, blobs, Encode(c.code, p, sealed).value);
    AnyK(c.code, p, sealed, Fetch(c, blobs, ref.shards));
  }

  /** A chunk loads, and loads exactly, when at least K of its shards read back; otherwise it is refused. */
  lemma ChunkLoadsIff(c: Codecs, blobs: Blobs, p: Params, ref: ChunkRef, plain: Bytes)
    requires Lawful(c) && Describes(c, p, ref, plain)
    ensures Loaded(c, blobs, p, ref) == if Alive(c, blobs, ref.shards) >= p.k then Ok(plain) else Err(Coding(TooFew))
  {
    hide Codes, Decode, Alive, LawfulCode;
    var sealed :| Codes(c, p, ref, sealed) && Seals(c, ref, sealed, plain);
    assert Lawful(c) && p.Valid() by { CodesValid(c, p, ref, sealed); }
    DecodesSealed(c, blobs, p, ref, sealed);
  }

  lemma CodesValid(c: Codecs, p: Params, ref: ChunkRef, sealed: Bytes)
    requires Codes(c, p, ref, sealed)
    ensures p.Valid()
  {
  }

  // ---------------------------------------------------------------- files

  ghost predicate DescribesFile(c: Codecs, m: FileManifest, plains: seq<Bytes>) {
    |m.chunks| == |plains| && forall i :: 0 <= i < |plains| ==> Describes(c, m.params.params, m.chunks[i], plains[i])
  }

  /** The store only gained blobs, each under its own address. */
  ghost predicate Gained(c: Codecs, before: Blobs, after: Blobs) {
    && (forall id :: id in before ==> id in after && after[id] == before[id])
    && (forall id :: id in after && id !in before ==> c.hash(after[id]) == id)
  }

  lemma GainedTransitive(c: Codecs, x: Blobs, y: Blobs, z: Blobs)
    requires Gained(c, x, y) && Gained(c, y, z)
    ensures Gained(c, x, z)
  {
  }

  /** Compress only when asked and only when it helps. */
  method Pack(c: Codecs, cfg: Config, plain: Bytes) returns (payload: Bytes, compressed: bool)
    ensures payload == if compressed then c.compress(plain) else plain
    ensures |payload| <= |plain| && (compressed <==> cfg.compress && |c.compress(plain)| < |plain|)
  {
    payload, compressed := plain, false;
    if cfg.compress {
      var packed := c.compress(plain);
      if |packed| < |plain| {
        payload, compressed := packed, true;
      }
    }
  }

  lemma EncodeOk(code: Code, p: Params, data: Bytes)
    ensures Encode(code, p, data).Ok? <==> p.Valid()
  {
  }

  lemma Sealed(c: Codecs, p: Params, ref: ChunkRef, nonce: nat, payload: Bytes, plain: Bytes)
    requires Lawful(c) && p.Valid() && payload == (if ref.compressed then c.compress(plain) else plain)
    requires |payload| < MAX_LENGTH
    requires ref.shards == Addresses(c, Encode(c.code, p, c.seal(ref.key, nonce, payload)).value)
    ensures Describes(c, p, ref, plain)
  {
    hide LawfulCode, Addresses;
    var sealed := c.seal(ref.key, nonce, payload);
    assert c.open(ref.key, sealed) == Some(payload);
    assert Codes(c, p, ref, sealed) && Seals(c, ref, sealed, plain);
  }

  class ShardStore {
    const c: Codecs
    var blobs: Blobs

    constructor (c: Codecs)
      ensures this.c == c && blobs == map[]
    {
      this.c := c;
      blobs := map[];
    }

    /** Store bytes under their address; what is already there is left alone. */
    method Put(data: Bytes) returns (id: ShardID)
      modifies this
      ensures id == c.hash(data) && id in blobs
      ensures blobs == if id in old(blobs) then old(blobs) else old(blobs)[id := data]
      ensures Gained(c, old(blobs), blobs)
    {
      id := c.hash(data);
      if id !in blobs {
        blobs := blobs[id := data];
      }
    }

    method StoreChunk(cfg: Config, plain: Bytes) returns (r: Result<ChunkRef, PipelineError>)
      requires Lawful(c) && |plain| < MAX_LENGTH
      modifies this
      ensures r.Ok? <==> 1 <= cfg.params.k && 1 <= cfg.params.m && cfg.params.k + cfg.params.m <= 256
      ensures r.Ok? ==>
                && Describes(c, cfg.params, r.value, plain)
                && forall i :: 0 <= i < |r.value.shards| ==> r.value.shards[i] in blobs
      ensures Gained(c, old(blobs), blobs)
    {
      hide Lawful, Encode, Seals, Codes, Addresses;
      var payload, compressed := Pack(c, cfg, plain);
      var key: nat := *;
      var nonce: nat := *;
      var sealed := c.seal(key, nonce, payload);
      var shards := Encode(c.code, cfg.params, sealed);
      EncodeOk(c.code, cfg.params, sealed);
      if shards.Err? {
        r := Err(Coding(shards.error));
      } else {
        var ids := PutAll(shards.value);
        var ref := ChunkRef(key, compressed, ids);
        Sealed(c, cfg.params, ref, nonce, payload, plain);
        r := Ok(ref);
      }
    }

    method PutAll(shards: seq<Bytes>) returns (ids: seq<ShardID>)
      modifies this
      ensures ids == Addresses(c, shards) && (forall i :: 0 <= i < |ids| ==> ids[i] in blobs)
      ensures Gained(c, old(blobs), blobs)
    {
      ids := [];
      for i := 0 to |shards|
        invariant |ids| == i && (forall j :: 0 <= j < i ==> ids[j] == c.hash(shards[j]) && ids[j] in blobs)
        invariant Gained(c, old(blobs), blobs)
      {
        ghost var before := blobs;
        var id := Put(shards[i]);
        ids := ids + [id];
        GainedTransitive(c, old(blobs), before, blobs);
      }
    }

    /** Chunk, encrypt, code and store; the pieces the manifest describes make up the input. */
    method StoreFile(cfg: Config, data: Bytes) returns (r: Result<FileManifest, PipelineError>, ghost plains: seq<Bytes>)
      requires Lawful(c) && cfg.chunkSize < MAX_LENGTH
      modifies this
      ensures cfg.chunkSize <= 0 ==> r == Err(BadChunkSize)
      ensures cfg.chunkSize > 0 ==> (r.Ok? <==> cfg.params.Valid() || data == [])
      ensures r.Ok? ==>
                && r.value.params == cfg && r.value.size == |data|
                && DescribesFile(c, r.value, plains) && Concat(plains) == data
                && forall i, j :: 0 <= i < |plains| && 0 <= j < |r.value.chunks[i].shards| ==> r.value.chunks[i].shards[j] in blobs
      ensures Gained(c, old(blobs), blobs)
    {
      hide Lawful, Describes, Concat;
      var parts := Fixed(data, cfg.chunkSize);
      plains := [];
      if parts.Err? { return Err(parts.error), plains; }
      plains := parts.value;
      NoParts();
      var m := FileManifest("", cfg, 0, NO_METADATA, []);
      for i := 0 to |parts.value|
        invariant |m.chunks| == i && m.params == cfg && (i > 0 ==> cfg.params.Valid())
        invariant m.size == |Concat(plains[..i])|
        invariant forall k :: 0 <= k < i ==> Describes(c, cfg.params, m.chunks[k], plains[k])
        invariant forall k, j :: 0 <= k < i && 0 <= j < |m.chunks[k].shards| ==> m.chunks[k].shards[j] in blobs
        invariant Gained(c, old(blobs), blobs)
      {
        ghost var before := blobs;
        var ref := StoreChunk(cfg, parts.value[i]);
        GainedTransitive(c, old(blobs), before, blobs);
        ConcatMore(plains[..i], plains[i]);
        assert plains[..i + 1] == plains[..i] + [plains[i]];
        if ref.Err? {
          SomeData(plains);
          return Err(ref.error), plains;
        }
        m := m.(chunks := m.chunks + [ref.value], size := m.size + |parts.value[i]|);
      }
      assert plains[..|plains|] == plains;
      if data == [] || plains != [] { SomeData(plains); }
      return Ok(m), plains;
    }
  }

  /** Fetch what survives of a chunk; lost and corrupt shards are left out. */
  method FetchShards(s: ShardStore, ids: seq<ShardID>) returns (shards: seq<Option<Bytes>>, missing: seq<nat>)
    ensures shards == Fetch(s.c, s.blobs, ids)
    ensures forall k :: 0 <= k < |missing| ==> missing[k] < |ids| && shards[missing[k]].None?
    ensures forall i :: 0 <= i < |ids| && shards[i].None? ==> i in missing
    ensures |missing| + Present(shards) == |ids|
  {
    hide Fetched;
    shards, missing := [], [];
    for i := 0 to |ids|
      invariant |shards| == i && forall j :: 0 <= j < i ==> shards[j] == Fetched(s.c, s.blobs, ids[j])
      invariant forall k :: 0 <= k < |missing| ==> missing[k] < i && shards[missing[k]].None?
      invariant forall j :: 0 <= j < i && shards[j].None? ==> j in missing
      invariant |missing| + Present(shards) == i
    {
      var got := Fetched(s.c, s.blobs, ids[i]);
      assert (shards + [got])[..i] == shards;
      shards := shards + [got];
      if got.None? {
        missing := missing + [i];
      }
    }
  }

  method LoadChunk(s: ShardStore, p: Params, ref: ChunkRef) returns (r: Result<Bytes, PipelineError>)
    ensures r == Loaded(s.c, s.blobs, p, ref)
  {
    hide Decode;
    var shards, _ := FetchShards(s, ref.shards);
    var sealed := Decode(s.c.code, p, shards);
    if sealed.Err? { return Err(Coding(sealed.error)); }
    var payload := s.c.open(ref.key, sealed.value);
    if payload.None? { return Err(Unsealable); }
    if ref.compressed {
      var plain := s.c.decompress(payload.value);
      return if plain.Some? then Ok(plain.value) else Err(Unpackable);
    }
    return Ok(payload.value);
  }

  /** The file came back whole, or a chunk had too few live shards and only a prefix of it was written. */
  ghost predicate LoadOutcome(c: Codecs, blobs: Blobs, m: FileManifest, plains: seq<Bytes>, w: Bytes, ok: bool)
    requires |plains| == |m.chunks|
  {
    && (ok <==> forall i :: 0 <= i < |plains| ==> Alive(c, blobs, m.chunks[i].shards) >= m.params.params.k)
    && (ok ==> w == Concat(plains))
    && exists n :: 0 <= n <= |plains| && w == Concat(plains[..n])
  }

  /** Chunks loaded so far, each with enough live shards. */
  ghost predicate LoadedTo(c: Codecs, blobs: Blobs, m: FileManifest, plains: seq<Bytes>, w: Bytes, k: nat)
    requires k <= |plains| == |m.chunks|
  {
    w == Concat(plains[..k]) && forall i :: 0 <= i < k ==> Alive(c, blobs, m.chunks[i].shards) >= m.params.params.k
  }

  /**
   * Write out a file. Whatever became of the store since a file was stored, it comes back whole exactly when
   * every chunk still has K shards that read back.
   */
  method LoadFile(s: ShardStore, m: FileManifest, ghost plains: seq<Bytes>) returns (w: Bytes, ok: bool)
    requires Lawful(s.c)
    ensures DescribesFile(s.c, m, plains) ==> LoadOutcome(s.c, s.blobs, m, plains, w, ok)
  {
    hide Lawful, Describes, Loaded, Alive, LoadedTo, LoadOutcome;
    w, ok := [], true;
    ghost var known := DescribesFile(s.c, m, plains);
    if known { LoadStart(s.c, s.blobs, m, plains); }
    for i := 0 to |m.chunks|
      invariant ok && (known ==> LoadedTo(s.c, s.blobs, m, plains, w, i))
    {
      var plain := LoadChunk(s, m.params.params, m.chunks[i]);
      if known { LoadNext(s.c, s.blobs, m, plains, w, i, plain); }
      if plain.Err? { return w, false; }
      w := w + plain.value;
    }
    if known { LoadEnd(s.c, s.blobs, m, plains, w); }
  }

  lemma LoadStart(c: Codecs, blobs: Blobs, m: FileManifest, plains: seq<Bytes>)
    requires |plains| == |m.chunks|
    ensures LoadedTo(c, blobs, m, plains, [], 0)
  {
  }

  lemma LoadEnd(c: Codecs, blobs: Blobs, m: FileManifest, plains: seq<Bytes>, w: Bytes)
    requires |plains| == |m.chunks| && LoadedTo(c, blobs, m, plains, w, |plains|)
    ensures LoadOutcome(c, blobs, m, plains, w, true)
  {
    hide Alive, Concat;
    assert plains[..|plains|] == plains;
  }

  lemma LoadNext(c: Codecs, blobs: Blobs, m: FileManifest, plains: seq<Bytes>, w: Bytes, k: nat, r: Result<Bytes, PipelineError>)
    requires Lawful(c) && DescribesFile(c, m, plains) && k < |plains| && LoadedTo(c, blobs, m, plains, w, k)
    requires r == Loaded(c, blobs, m.params.params, m.chunks[k])
    ensures r.Ok? ==> LoadedTo(c, blobs, m, plains, w + r.value, k + 1)
    ensures r.Err? ==> LoadOutcome(c, blobs, m, plains, w, false)
  {
    hide Lawful, Describes, Loaded, Concat, Alive;
    ChunkLoadsIff(c, blobs, m.params.params, m.chunks[k], plains[k]);
    ConcatMore(plains[..k], plains[k]);
    assert plains[..k + 1] == plains[..k] + [plains[k]];
  }

  lemma SomeData(plains: seq<Bytes>)
    ensures plains != [] && |plains[0]| > 0 ==> Concat(plains) != []
    ensures plains == [] ==> Concat(plains) == []
  {
  }
}

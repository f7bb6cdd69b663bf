/** Shard availability and the regeneration of missing shards. */
module Repair {
  import opened Core
  import opened Erasure
  import opened Pipeline

  datatype ChunkStatus = ChunkStatus(index: nat, present: nat, total: nat, missing: seq<nat>) {
    predicate Healthy() { missing == [] }
  }

  predicate Healthy(report: seq<ChunkStatus>) {
    forall i :: 0 <= i < |report| ==> report[i].Healthy()
  }

  /** The status of one chunk: which positions have no blob at all. */
  ghost predicate StatusOf(blobs: Blobs, ids: seq<ShardID>, i: nat, st: ChunkStatus) {
    && st.index == i && st.total == |ids| && st.present + |st.missing| == |ids|
    && (forall k :: 0 <= k < |st.missing| ==> st.missing[k] < |ids| && ids[st.missing[k]] !in blobs)
    && (forall pos :: 0 <= pos < |ids| && ids[pos] !in blobs ==> pos in st.missing)
  }

  method CheckChunk(s: ShardStore, i: nat, ids: seq<ShardID>) returns (st: ChunkStatus)
    ensures StatusOf(s.blobs, ids, i, st)
  {
    var present: nat := 0;
    var missing: seq<nat> := [];
    for pos := 0 to |ids|
      invariant present + |missing| == pos
      invariant forall k :: 0 <= k < |missing| ==> missing[k] < pos && ids[missing[k]] !in s.blobs
      invariant forall j :: 0 <= j < pos && ids[j] !in s.blobs ==> j in missing
    {
      if ids[pos] in s.blobs {
        present := present + 1;
      } else {
        missing := missing + [pos];
      }
    }
    return ChunkStatus(i, present, |ids|, missing);
  }

  /** Probe every chunk; the report is healthy exactly when every shard has a blob. */
  method Check(s: ShardStore, m: FileManifest) returns (report: seq<ChunkStatus>)
    ensures |report| == |m.chunks|
    ensures forall i :: 0 <= i < |report| ==> StatusOf(s.blobs, m.chunks[i].shards, i, report[i])
    ensures Healthy(report) <==>
              forall i, j :: 0 <= i < |m.chunks| && 0 <= j < |m.chunks[i].shards| ==> m.chunks[i].shards[j] in s.blobs
  {
    hide StatusOf;
    report := [];
    for i := 0 to |m.chunks|
      invariant |report| == i && forall k :: 0 <= k < i ==> StatusOf(s.blobs, m.chunks[k].shards, k, report[k])
    {
      var st := CheckChunk(s, i, m.chunks[i].shards);
      report := report + [st];
    }
    forall i | 0 <= i < |report|
      ensures report[i].Healthy() <==> forall j :: 0 <= j < |m.chunks[i].shards| ==> m.chunks[i].shards[j] in s.blobs
    {
      HealthyMeans(s.blobs, m.chunks[i].shards, i, report[i]);
    }
  }

  lemma HealthyMeans(blobs: Blobs, ids: seq<ShardID>, i: nat, st: ChunkStatus)
    requires StatusOf(blobs, ids, i, st)
    ensures st.Healthy() <==> forall pos :: 0 <= pos < |ids| ==> ids[pos] in blobs
  {
    if st.missing != [] { assert ids[st.missing[0]] !in blobs; }
  }

  datatype RepairError = Unrecoverable | Undecodable(error: ErasureError) | WrongAddress

  /** The store after a chunk's repair: its missing addresses filled with their own bytes, all else as it was. */
  ghost predicate Refilled(c: Codecs, before: Blobs, ids: seq<ShardID>, after: Blobs) {
    && Gained(c, before, after)
    && forall id :: id in after <==> id in before || id in ids
  }

  /** What repairing a chunk does to a store, for a recipe that codes the sealed bytes. */
  ghost predicate RepairOutcome(c: Codecs, before: Blobs, p: Params, ref: ChunkRef, r: Result<(), RepairError>, after: Blobs) {
    && (r.Ok? <==> Alive(c, before, ref.shards) >= p.k)
    && if r.Ok? then Refilled(c, before, ref.shards, after) else r == Err(Unrecoverable) && after == before
  }

  method RepairChunk(s: ShardStore, p: Params, ref: ChunkRef, ghost sealed: Bytes) returns (r: Result<(), RepairError>)
    requires Lawful(s.c) && |sealed| < UINT64
    modifies s
    ensures Gained(s.c, old(s.blobs), s.blobs)
    ensures Codes(s.c, p, ref, sealed) ==> RepairOutcome(s.c, old(s.blobs), p, ref, r, s.blobs)
  {
    var c := s.c;
    hide Lawful, Decode, Encode, Codes, Fetch, Fetched, Addresses, Gained, Refilled;
    NothingGained(c, s.blobs);
    ghost var known := Codes(c, p, ref, sealed);
    var shards, missing := FetchShards(s, ref.shards);
    if known {
      DecodesSealed(c, s.blobs, p, ref, sealed);
      CodeShape(c, p, ref, sealed);
    }
    if |missing| == 0 {
      AllThere(c, s.blobs, ref.shards);
      return Ok(());
    }
    if |ref.shards| - |missing| < p.k { return Err(Unrecoverable); }
    var got := Decode(c.code, p, shards);
    if got.Err? { return Err(Undecodable(got.error)); }
    var regen := Encode(c.code, p, got.value);
    if regen.Err? { return Err(Undecodable(regen.error)); }
    var ok := PutMissing(s, ref, missing, regen.value);
    if known { FilledIn(c, old(s.blobs), ref.shards, missing, s.blobs); }
    return if ok then Ok(()) else Err(WrongAddress);
  }

  /** Put the regenerated shards of the missing positions back. */
  method PutMissing(s: ShardStore, ref: ChunkRef, missing: seq<nat>, regen: seq<Bytes>) returns (ok: bool)
    requires forall k :: 0 <= k < |missing| ==> missing[k] < |ref.shards|
    requires |regen| >= |ref.shards|
    modifies s
    ensures Gained(s.c, old(s.blobs), s.blobs)
    ensures ref.shards == Addresses(s.c, regen) ==>
              && ok && (forall k :: 0 <= k < |missing| ==> ref.shards[missing[k]] in s.blobs)
              && (forall id :: id in s.blobs && id !in old(s.blobs) ==> id in ref.shards)
  {
    hide Gained, Addresses;
    NothingGained(s.c, s.blobs);
    ok := true;
    for k := 0 to |missing|
      invariant ok && Gained(s.c, old(s.blobs), s.blobs)
      invariant forall j :: 0 <= j < k ==> ref.shards[missing[j]] in s.blobs
      invariant forall id :: id in s.blobs && id !in old(s.blobs) ==> id in ref.shards
    {
      ghost var before := s.blobs;
      var id := s.Put(regen[missing[k]]);
      GainedTransitive(s.c, old(s.blobs), before, s.blobs);
      if id != ref.shards[missing[k]] { return false; }
    }
  }

  lemma NothingGained(c: Codecs, blobs: Blobs)
    ensures Gained(c, blobs, blobs)
  {
  }

  lemma CodeShape(c: Codecs, p: Params, ref: ChunkRef, sealed: Bytes)
    requires Codes(c, p, ref, sealed) && Lawful(c)
    ensures p.Valid() && |ref.shards| == p.N() && Encode(c.code, p, sealed).Ok?
    ensures ref.shards == Addresses(c, Encode(c.code, p, sealed).value)
  {
    EncodedCount(c.code, p, sealed);
  }

  lemma AllThere(c: Codecs, blobs: Blobs, ids: seq<ShardID>)
    requires forall i :: 0 <= i < |ids| ==> Fetched(c, blobs, ids[i]).Some?
    ensures Refilled(c, blobs, ids, blobs)
  {
  }

  lemma FilledIn(c: Codecs, before: Blobs, ids: seq<ShardID>, missing: seq<nat>, after: Blobs)
    requires forall k :: 0 <= k < |missing| ==> missing[k] < |ids|
    requires forall i :: 0 <= i < |ids| && Fetched(c, before, ids[i]).None? ==> i in missing
    requires Gained(c, before, after) && (forall k :: 0 <= k < |missing| ==> ids[missing[k]] in after)
    requires forall id :: id in after && id !in before ==> id in ids
    ensures Refilled(c, before, ids, after)
  {
  }

  /** A gained blob never makes a shard read back that reads wrong, nor stops one that reads right. */
  lemma {:induction false} AliveGrows(c: Codecs, before: Blobs, after: Blobs, ids: seq<ShardID>)
    requires Gained(c, before, after)
    ensures Alive(c, before, ids) <= Alive(c, after, ids)
    decreases |ids|
  {
    var x, y := Fetch(c, before, ids), Fetch(c, after, ids);
    if ids != [] {
      var front := ids[..|ids| - 1];
      AliveGrows(c, before, after, front);
      assert x[..|ids| - 1] == Fetch(c, before, front) && y[..|ids| - 1] == Fetch(c, after, front);
    }
  }

  /** After a repair a shard of the chunk reads back exactly when it had not been corrupt. */
  lemma ReadsBackIff(c: Codecs, before: Blobs, ids: seq<ShardID>, after: Blobs, id: ShardID)
    requires Refilled(c, before, ids, after) && id in ids
    ensures Fetched(c, after, id).Some? <==> !Corrupt(c, before, id)
  {
  }

  ghost predicate CodesFile(c: Codecs, m: FileManifest, sealeds: seq<Bytes>) {
    && |sealeds| == |m.chunks|
    && forall i :: 0 <= i < |sealeds| ==> Codes(c, m.params.params, m.chunks[i], sealeds[i]) && |sealeds[i]| < UINT64
  }

  /** A stored file's chunks each code some sealed bytes. */
  lemma SealedOf(c: Codecs, m: FileManifest, plains: seq<Bytes>) returns (sealeds: seq<Bytes>)
    requires DescribesFile(c, m, plains)
    ensures CodesFile(c, m, sealeds)
  {
    hide Codes;
    sealeds := [];
    for i := 0 to |plains|
      invariant |sealeds| == i
      invariant forall k :: 0 <= k < i ==> Codes(c, m.params.params, m.chunks[k], sealeds[k]) && |sealeds[k]| < UINT64
    {
      assert Describes(c, m.params.params, m.chunks[i], plains[i]);
      var sealed :| Codes(c, m.params.params, m.chunks[i], sealed) && Seals(c, m.chunks[i], sealed, plains[i]);
      sealeds := sealeds + [sealed];
    }
  }

  /**
   * Repair a file chunk by chunk. Nothing stored changes; every chunk that had K live shards gets a blob under
   * each of its addresses, and each of them reads back unless a corrupt blob already stood there. If every
   * chunk had K live shards there is no error and the report is healthy.
   */
  method RepairFile(s: ShardStore, m: FileManifest, ghost sealeds: seq<Bytes>) returns (report: seq<ChunkStatus>, errors: seq<RepairError>)
    requires Lawful(s.c) && CodesFile(s.c, m, sealeds)
    modifies s
    ensures Gained(s.c, old(s.blobs), s.blobs)
    ensures forall i :: 0 <= i < |m.chunks| && Alive(s.c, old(s.blobs), m.chunks[i].shards) >= m.params.params.k ==>
              Restored(s.c, old(s.blobs), m.chunks[i].shards, s.blobs)
    ensures (forall i :: 0 <= i < |m.chunks| ==> Alive(s.c, old(s.blobs), m.chunks[i].shards) >= m.params.params.k) ==>
              errors == [] && Healthy(report)
    ensures |report| == |m.chunks| && forall i :: 0 <= i < |report| ==> StatusOf(s.blobs, m.chunks[i].shards, i, report[i])
    ensures errors == [] ==> Healthy(report)
  {
    hide Lawful, Codes, Alive, Gained, Restored, Healthy, StatusOf;
    errors := [];
    NothingGained(s.c, s.blobs);
    for i := 0 to |m.chunks|
      invariant Gained(s.c, old(s.blobs), s.blobs)
      invariant forall k :: 0 <= k < i && Alive(s.c, old(s.blobs), m.chunks[k].shards) >= m.params.params.k ==>
                  Restored(s.c, old(s.blobs), m.chunks[k].shards, s.blobs)
      invariant (forall k :: 0 <= k < i ==> Alive(s.c, old(s.blobs), m.chunks[k].shards) >= m.params.params.k) ==> errors == []
      invariant errors == [] ==> forall k, j :: 0 <= k < i && 0 <= j < |m.chunks[k].shards| ==> m.chunks[k].shards[j] in s.blobs
    {
      ghost var before := s.blobs;
      AliveGrows(s.c, old(s.blobs), before, m.chunks[i].shards);
      var r := RepairChunk(s, m.params.params, m.chunks[i], sealeds[i]);
      if r.Err? {
        errors := errors + [r.error];
      } else {
        RestoredNow(s.c, old(s.blobs), before, m.chunks[i].shards, s.blobs);
        forall k | 0 <= k < i && Alive(s.c, old(s.blobs), m.chunks[k].shards) >= m.params.params.k
          ensures Restored(s.c, old(s.blobs), m.chunks[k].shards, s.blobs)
        {
          StaysRestored(s.c, old(s.blobs), m.chunks[k].shards, before, s.blobs);
        }
      }
    }
    report := Check(s, m);
    if forall i :: 0 <= i < |m.chunks| ==> Alive(s.c, old(s.blobs), m.chunks[i].shards) >= m.params.params.k {
      forall i, j | 0 <= i < |m.chunks| && 0 <= j < |m.chunks[i].shards| ensures m.chunks[i].shards[j] in s.blobs {
        HasAll(s.c, old(s.blobs), m.chunks[i].shards, s.blobs, j);
      }
    }
  }

  /** Every address has a blob, and reads back unless it was corrupt from the start. */
  ghost predicate Restored(c: Codecs, start: Blobs, ids: seq<ShardID>, blobs: Blobs) {
    forall j :: 0 <= j < |ids| ==> ids[j] in blobs && (Fetched(c, blobs, ids[j]).Some? <==> !Corrupt(c, start, ids[j]))
  }

  lemma HasAll(c: Codecs, start: Blobs, ids: seq<ShardID>, blobs: Blobs, j: nat)
    requires Restored(c, start, ids, blobs) && j < |ids|
    ensures ids[j] in blobs
  {
  }

  lemma RestoredNow(c: Codecs, start: Blobs, before: Blobs, ids: seq<ShardID>, after: Blobs)
    requires Gained(c, start, before) && Refilled(c, before, ids, after)
    ensures Restored(c, start, ids, after) && Gained(c, start, after)
  {
  }

  lemma StaysRestored(c: Codecs, start: Blobs, ids: seq<ShardID>, before: Blobs, after: Blobs)
    requires Restored(c, start, ids, before) && Gained(c, before, after)
    ensures Restored(c, start, ids, after)
  {
  }

  /** In a store with no corrupt blob, a repaired chunk is whole again: every shard reads back. */
  lemma CleanStoreIsMadeWhole(c: Codecs, start: Blobs, ids: seq<ShardID>, blobs: Blobs, j: nat)
    requires Restored(c, start, ids, blobs) && (forall id :: id in start ==> c.hash(start[id]) == id) && j < |ids|
    ensures Fetched(c, blobs, ids[j]).Some?
  {
    assert ids[j] in blobs;
  }
}

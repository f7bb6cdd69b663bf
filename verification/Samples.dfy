/** Small stores for the concrete cases. */
module Samples {
  import opened Core
  import opened Directory
  import opened Blobs

  function DirCap(key: nat): ReadCap {
    ReadCap(KindDir, key, false, Params(1, 1), [key * MAX_SHARDS])
  }

  function FileCap(key: nat): ReadCap {
    ReadCap(KindFile, key, false, Params(1, 1), [key * MAX_SHARDS])
  }

  function Named(name: string, c: ReadCap): Entry {
    Entry(name, c, DIR_STAT)
  }

  function DirWith(entries: seq<Entry>): Blob {
    DirBlob(DirManifest(NO_METADATA, entries))
  }

  function EmptyFile(): Blob {
    FileBlob(FileManifest("", Config(1, Params(1, 1), false), 0, NO_METADATA, []))
  }

  lemma OneEntry(e: Entry)
    ensures EntryMap([e]) == map[e.name := e]
  {
    assert [e][..0] == [];
  }

  lemma TwoEntries(e: Entry, f: Entry)
    ensures EntryMap([e, f]) == map[e.name := e][f.name := f]
  {
    assert [e, f][..1] == [e];
    OneEntry(e);
  }

  lemma OneStep(m: BlobMap, c: ReadCap, x: string)
    ensures Resolve(m, c, [x]) == if x in Entries(m, c) then Some(Entries(m, c)[x].cap) else None
  {
    hide Entries;
    assert [x][1..] == [];
  }

  lemma NothingStored(key: nat)
    ensures WellFormed(map[], key)
  {
  }

  /** One more directory under the next key. */
  function Add(m: BlobMap, key: nat, entries: seq<Entry>): BlobMap {
    m[DirCap(key) := DirWith(entries)]
  }

  lemma Added(m: BlobMap, key: nat, entries: seq<Entry>)
    requires WellFormed(m, key) && EntriesOk(entries, key)
    ensures WellFormed(Add(m, key, entries), key + 1) && Entries(Add(m, key, entries), DirCap(key)) == EntryMap(entries)
    ensures forall c: ReadCap :: c.key < key ==> Entries(Add(m, key, entries), c) == Entries(m, c)
  {
    hide EntriesOk, EntryMap;
    PutWellFormed(m, key, DirCap(key), DirWith(entries));
  }

  lemma AddedOne(m: BlobMap, key: nat, e: Entry)
    requires WellFormed(m, key) && e.cap.key < key && Homed(e.cap)
    ensures WellFormed(Add(m, key, [e]), key + 1) && Entries(Add(m, key, [e]), DirCap(key)) == map[e.name := e]
    ensures forall c: ReadCap :: c.key < key ==> Entries(Add(m, key, [e]), c) == Entries(m, c)
  {
    hide WellFormed;
    OneEntry(e);
    Added(m, key, [e]);
  }

  lemma AddedTwo(m: BlobMap, key: nat, e: Entry, f: Entry)
    requires WellFormed(m, key) && Less(e.name, f.name)
    requires e.cap.key < key && Homed(e.cap) && f.cap.key < key && Homed(f.cap)
    ensures WellFormed(Add(m, key, [e, f]), key + 1) && Entries(Add(m, key, [e, f]), DirCap(key)) == map[e.name := e][f.name := f]
    ensures forall c: ReadCap :: c.key < key ==> Entries(Add(m, key, [e, f]), c) == Entries(m, c)
  {
    hide WellFormed, Less, EntryMap;
    TwoEntries(e, f);
    Added(m, key, [e, f]);
  }
}

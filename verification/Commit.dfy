/** Committing a new root: read, merge, publish, re-read, against other writers of the same register. */
module Commit {
  import opened Core
  import opened Directory
  import opened RootRegister
  import opened Blobs
  import opened Forks
  import opened MergeKept
  import MergeCode
  import Merge

  /** Signing and decoding of root records. */
  datatype Codec = Codec(decode: Decode, sign: (ReadCap, nat, int) -> Bytes)

  /** A signed record decodes to its number and key-stripped root; numbers are 64-bit. */
  ghost predicate Lawful(c: Codec) {
    && (forall root, n: nat, t :: n < UINT64 ==> c.decode(c.sign(root, n, t)) == Some(RootPointer(n, Stripped(root))))
    && (forall v :: c.decode(v).Some? ==> c.decode(v).value.seqNo < UINT64)
  }

  /** The verify projection of a cap: everything but its key. */
  function Stripped(c: ReadCap): ReadCap {
    c.(key := 0)
  }

  /** Two caps of the same blob, whatever their keys. */
  predicate SameVerify(a: ReadCap, b: ReadCap) {
    Stripped(a) == Stripped(b)
  }

  /** The durable local root. */
  datatype Saved = Saved(seqNo: nat, root: ReadCap)

  datatype CommitError = Sealed | Foreign | MergeFailed | GaveUp

  const MAX_ATTEMPTS := 5

  function Next(n: nat): nat {
    (n + 1) % UINT64
  }

  /** The number to publish at: above this device's and above the published one, in 64-bit arithmetic. */
  function NextSeq(prevSeq: nat, remote: Option<RootPointer>): nat {
    if remote.Some? && Next(remote.value.seqNo) > Next(prevSeq) then Next(remote.value.seqNo) else Next(prevSeq)
  }

  /** The new number is above both exactly when neither is the largest 64-bit number. */
  lemma NextSeqAbove(prevSeq: nat, remote: Option<RootPointer>)
    requires prevSeq < UINT64 && (remote.Some? ==> remote.value.seqNo < UINT64)
    ensures NextSeq(prevSeq, remote) < UINT64
    ensures NextSeq(prevSeq, remote) > prevSeq && (remote.Some? ==> NextSeq(prevSeq, remote) > remote.value.seqNo)
            <==> prevSeq + 1 < UINT64 && (remote.Some? ==> remote.value.seqNo + 1 < UINT64)
    ensures prevSeq + 1 < UINT64 && (remote.Some? ==> remote.value.seqNo + 1 < UINT64) ==>
              NextSeq(prevSeq, remote) == if remote.Some? && remote.value.seqNo > prevSeq then remote.value.seqNo + 1 else prevSeq + 1
  {
  }

  /** Numbers wrap: after the largest one comes zero, and a device behind the largest publishes below it. */
  lemma WrappedNumber(root: ReadCap)
    ensures NextSeq(UINT64 - 1, None) == 0 && NextSeq(0, Some(RootPointer(UINT64 - 1, root))) == 1
  {
  }

  type Opener = ReadCap -> Option<ReadCap>

  /** What the other devices do before an attempt's read: the blobs they store, and the companions that then open. */
  datatype Elsewhere = Elsewhere(stored: nat -> seq<Blob>, open: nat -> Opener)

  /** Nothing published, something older than this device's last root, or exactly that root: no fork. */
  predicate Forked(prev: Option<Saved>, remote: Option<RootPointer>) {
    && remote.Some?
    && !(prev.Some? && remote.value.seqNo < prev.value.seqNo)
    && !(prev.Some? && SameVerify(remote.value.root, prev.value.root))
  }

  /** The remote root to fold in: on a fork, if its companion opens. */
  function ToFold(prev: Option<Saved>, remote: Option<RootPointer>, open: Opener): Option<ReadCap> {
    if Forked(prev, remote) then open(remote.value.root) else None
  }

  /** The merge base: this device's last saved root, if any. */
  function BaseOf(prev: Option<Saved>): ReadCap {
    if prev.Some? then prev.value.root else NO_CAP
  }

  /** A successful commit: the tip and numbers of its last attempt, what it saved, and the winner it re-read. */
  datatype Report = Report(attempt: nat, tip: ReadCap, prevSeq: nat, remote: Option<RootPointer>, saved: Saved, winner: RootPointer)

  ghost function SeqIn(decode: Decode, v: Option<Bytes>): int {
    if v.Some? && decode(v.value).Some? then decode(v.value).value.seqNo else -1
  }

  lemma MovedUp(decode: Decode, a: Option<Bytes>, b: Option<Bytes>)
    requires Moved(decode, a, b)
    ensures SeqIn(decode, a) <= SeqIn(decode, b)
  {
  }

  /**
   * As long as no number seen is the largest, this device's number never falls below where it began. Whatever
   * it was raised to had been published.
   */
  ghost predicate Climbs(start: nat, prevSeq: nat, published: int) {
    start + 1 < UINT64 && published + 1 < UINT64 ==> start <= prevSeq && (prevSeq == start || prevSeq <= published)
  }

  // ---------------------------------------------------------------- attempts

  /** One attempt: where it started, the register as it read it, what it published, and the register as it re-read it. */
  datatype Try = Try(tip: ReadCap, prevSeq: nat, read: Option<Bytes>, seqNo: nat, root: ReadCap, reread: Option<Bytes>)

  ghost function Pointer(decode: Decode, v: Option<Bytes>): Option<RootPointer> {
    if v.Some? then decode(v.value) else None
  }

  /**
   * The root to fold in: what is published has a number not below that of the last root saved here, is not that
   * root whatever its key, and its companion opens.
   */
  ghost function NewerRoot(prev: Option<Saved>, remote: Option<RootPointer>, open: Opener): Option<ReadCap> {
    if remote.None? then None
    else if prev.Some? && (remote.value.seqNo < prev.value.seqNo || remote.value.root.(key := 0) == prev.value.root.(key := 0)) then None
    else open(remote.value.root)
  }

  lemma FoldsTheNewer(prev: Option<Saved>, remote: Option<RootPointer>, open: Opener)
    ensures ToFold(prev, remote, open) == NewerRoot(prev, remote, open)
  {
  }

  /** Another root holds the register at this number or above. */
  ghost predicate Beaten(decode: Decode, t: Try) {
    var cur := Pointer(decode, t.reread);
    cur.Some? && cur.value.seqNo >= t.seqNo && cur.value.root.(key := 0) != t.root.(key := 0)
  }

  /** The forks there were before an attempt that read this. */
  ghost function ForksBefore(newer: Option<ReadCap>, forks: seq<Fork>): seq<Fork> {
    if newer.None? || forks == [] then forks else forks[..|forks| - 1]
  }

  /** What an attempt publishes: its tip, or its tip merged with the newer root it read. */
  ghost predicate Prepared(tip: ReadCap, newer: Option<ReadCap>, forks: seq<Fork>, root: ReadCap) {
    if newer.None? then root == tip
    else
      forks != [] &&
      var f := forks[|forks| - 1];
      f.local == tip && f.remote == newer.value && f.merged == root
  }

  ghost predicate Attempted(decode: Decode, prev: Option<Saved>, open: Opener, t: Try, forks: seq<Fork>) {
    && t.seqNo == NextSeq(t.prevSeq, Pointer(decode, t.read)) < UINT64 && Moved(decode, t.read, t.reread)
    && t.reread.Some? && t.seqNo <= SeqIn(decode, t.reread)
    && Prepared(t.tip, NewerRoot(prev, Pointer(decode, t.read), open), forks, t.root)
  }

  /** What the next attempt starts from. */
  ghost function TipAfter(newRoot: ReadCap, tries: seq<Try>): ReadCap {
    if tries == [] then newRoot else tries[|tries| - 1].root
  }

  ghost function SeqAfter(decode: Decode, prev: Option<Saved>, tries: seq<Try>): int {
    if tries != [] then SeqIn(decode, tries[|tries| - 1].reread) else if prev.Some? then prev.value.seqNo else 0
  }

  ghost function ValueAfter(before: Option<Bytes>, tries: seq<Try>): Option<Bytes> {
    if tries == [] then before else tries[|tries| - 1].reread
  }

  /** Attempts one after another, each starting from what the one before published and folding in what it read. */
  ghost predicate Traced(decode: Decode, prev: Option<Saved>, others: Elsewhere, before: Option<Bytes>, newRoot: ReadCap,
                         tries: seq<Try>, forks: seq<Fork>) {
    if tries == [] then forks == []
    else
      var k := |tries| - 1;
      var t, front := tries[k], tries[..k];
      && t.tip == TipAfter(newRoot, front) && t.prevSeq == SeqAfter(decode, prev, front)
      && Moved(decode, ValueAfter(before, front), t.read)
      && Attempted(decode, prev, others.open(k), t, forks)
      && Traced(decode, prev, others, before, newRoot, front, ForksBefore(NewerRoot(prev, Pointer(decode, t.read), others.open(k)), forks))
  }

  ghost predicate AllBeaten(decode: Decode, tries: seq<Try>) {
    forall i :: 0 <= i < |tries| ==> Beaten(decode, tries[i])
  }

  /** The next attempt reads a newer root it cannot merge: not stored, or a directory the merge opens cannot be loaded. */
  ghost predicate CannotFold(decode: Decode, prev: Option<Saved>, others: Elsewhere, before: Option<Bytes>, newRoot: ReadCap,
                             tries: seq<Try>, m: BlobMap, n: nat) {
    exists read, m1, n1 ::
      Moved(decode, ValueAfter(before, tries), read) && Extends(m, n, m1, n1)
      && Unfoldable(m1, n1, prev, TipAfter(newRoot, tries), NewerRoot(prev, Pointer(decode, read), others.open(|tries|)))
  }

  ghost predicate Unfoldable(m: BlobMap, n: nat, prev: Option<Saved>, tip: ReadCap, newer: Option<ReadCap>) {
    newer.Some? && (n <= newer.value.key || MergeCode.MergeStuck(m, BaseOf(prev), tip, newer.value))
  }

  lemma OneMoreTry(decode: Decode, prev: Option<Saved>, others: Elsewhere, before: Option<Bytes>, newRoot: ReadCap,
                   tries: seq<Try>, forks: seq<Fork>, t: Try, forks': seq<Fork>)
    requires Traced(decode, prev, others, before, newRoot, tries, forks)
    requires t.tip == TipAfter(newRoot, tries) && t.prevSeq == SeqAfter(decode, prev, tries) && Moved(decode, ValueAfter(before, tries), t.read)
    requires Attempted(decode, prev, others.open(|tries|), t, forks')
    requires forks == ForksBefore(NewerRoot(prev, Pointer(decode, t.read), others.open(|tries|)), forks')
    ensures Traced(decode, prev, others, before, newRoot, tries + [t], forks')
  {
    assert (tries + [t])[..|tries|] == tries;
  }

  /**
   * The report of an attempt that was not beaten: the winner re-read is the root saved, under a number above all seen
   * as long as none is the largest.
   */
  ghost predicate Reports(decode: Decode, prev: Option<Saved>, t: Try, c: Report) {
    && c == Report(c.attempt, t.tip, t.prevSeq, Pointer(decode, t.read), Saved(t.seqNo, t.root), c.winner)
    && Pointer(decode, t.reread) == Some(c.winner)
    && c.winner.root.(key := 0) == c.saved.root.(key := 0) && c.winner.seqNo >= c.saved.seqNo
    && (c.saved.seqNo > c.prevSeq && (c.remote.Some? ==> c.saved.seqNo > c.remote.value.seqNo)
        <==> c.prevSeq + 1 < UINT64 && (c.remote.Some? ==> c.remote.value.seqNo + 1 < UINT64))
    && (c.winner.seqNo + 1 < UINT64 && (prev.Some? ==> prev.value.seqNo + 1 < UINT64) ==>
          && (prev.Some? ==> c.saved.seqNo > prev.value.seqNo)
          && (c.remote.Some? ==> c.saved.seqNo > c.remote.value.seqNo))
  }

  /** A commit that went through: its last attempt was not beaten and all before it were. */
  ghost predicate Committed(decode: Decode, prev: Option<Saved>, tries: seq<Try>, c: Report) {
    && tries != [] && AllBeaten(decode, tries[..|tries| - 1]) && c.attempt == |tries| - 1
    && !Beaten(decode, tries[|tries| - 1]) && Reports(decode, prev, tries[|tries| - 1], c)
  }

  /** After a commit the newer root it read last is merged into what it saved; with none read, the tip itself is saved. */
  lemma NewerRootSaved(decode: Decode, relabel: Merge.Labeler, prev: Option<Saved>, others: Elsewhere, before: Option<Bytes>,
                       start: Stage, tries: seq<Try>, forks: seq<Fork>, end: Stage, c: Report)
    requires Sound(start) && Chain(relabel, BaseOf(prev), start, forks, end) && BaseOf(prev).key < start.key
    requires Traced(decode, prev, others, before, start.root, tries, forks) && Committed(decode, prev, tries, c) && end.root == c.saved.root
    ensures c.remote.Some? && (prev.None? || (prev.value.seqNo <= c.remote.value.seqNo && c.remote.value.root.(key := 0) != prev.value.root.(key := 0)))
            && others.open(c.attempt)(c.remote.value.root).Some? ==>
              && forks != [] && forks[|forks| - 1].local == c.tip && forks[|forks| - 1].merged == c.saved.root
              && forks[|forks| - 1].remote == others.open(c.attempt)(c.remote.value.root).value
              && forall p, v :: NewerEdit(relabel, prev, forks, p, v) ==> Merge.FoundAs(end.blobs, c.saved.root, relabel, p, v)
    ensures c.remote.None? || others.open(c.attempt)(c.remote.value.root).None? ||
            (prev.Some? && (c.remote.value.seqNo < prev.value.seqNo || c.remote.value.root.(key := 0) == prev.value.root.(key := 0))) ==>
              c.saved.root == c.tip
  {
    hide Chain, Committed, Merge.FoundAs, AllBeaten, Beaten, Sound, NewerEdit;
    LastTry(decode, prev, others, before, start.root, tries, forks, c);
    if forks != [] {
      forall p, v | NewerEdit(relabel, prev, forks, p, v) && forks[|forks| - 1].merged == end.root
        ensures Merge.FoundAs(end.blobs, end.root, relabel, p, v)
      {
        NewerEditSaved(relabel, prev, start, forks, end, p, v);
      }
    }
  }

  /** An edit of the root folded in last, kept by that merge. */
  ghost predicate NewerEdit(relabel: Merge.Labeler, prev: Option<Saved>, forks: seq<Fork>, p: Path, v: ReadCap) {
    forks != [] &&
    var f := forks[|forks| - 1];
    Edit(f.before, BaseOf(prev), f.remote, p, v) && RemoteKept(f.before, relabel, BaseOf(prev), f.local, f.remote, p, v)
  }

  lemma NewerEditSaved(relabel: Merge.Labeler, prev: Option<Saved>, start: Stage, forks: seq<Fork>, end: Stage, p: Path, v: ReadCap)
    requires Sound(start) && Chain(relabel, BaseOf(prev), start, forks, end) && BaseOf(prev).key < start.key
    requires NewerEdit(relabel, prev, forks, p, v)
    ensures Merge.FoundAs(end.blobs, end.root, relabel, p, v)
  {
    hide WellFormed, Extends, Merge.IsMerge, RemoteKept, CarriedTo, Merge.FoundAs, Chain, Edit;
    var base, f := BaseOf(prev), forks[|forks| - 1];
    var q := CarriedTo(f.before, relabel, base, f.local, f.remote, p);
    FoldAt(relabel, base, start, forks, end, |forks| - 1);
    ChainEnds(relabel, base, start, forks, end);
    RemoteEditSurvivesIff(f.before, f.key, relabel, base, f.local, f.remote, f.after, f.nextKey, f.merged, p, v);
    ResolveStable(f.after, f.nextKey, end.blobs, end.key, f.merged, q);
    CarriedIsFound(f.before, relabel, base, f.local, f.remote, end.blobs, end.root, p, v);
  }

  lemma LastTry(decode: Decode, prev: Option<Saved>, others: Elsewhere, before: Option<Bytes>, newRoot: ReadCap,
                tries: seq<Try>, forks: seq<Fork>, c: Report)
    requires Traced(decode, prev, others, before, newRoot, tries, forks) && Committed(decode, prev, tries, c)
    ensures Prepared(c.tip, NewerRoot(prev, c.remote, others.open(c.attempt)), forks, c.saved.root)
  {
    hide AllBeaten, Beaten, Prepared, NewerRoot;
  }

  class Device {
    const codec: Codec
    const register: Register
    var file: Option<Saved>

    ghost predicate Valid() reads this, register {
      && Lawful(codec) && register.decode == codec.decode && register.Valid()
      && (file.Some? ==> file.value.seqNo < UINT64)
    }

    constructor (codec: Codec, register: Register, file: Option<Saved>)
      requires Lawful(codec) && register.decode == codec.decode && register.Valid()
      requires file.Some? ==> file.value.seqNo < UINT64
      ensures Valid() && this.codec == codec && this.register == register && this.file == file
    {
      this.codec, this.register, this.file := codec, register, file;
    }

    method GetRoot() returns (p: Option<RootPointer>)
      requires Valid()
      ensures p == if register.value.Some? then codec.decode(register.value.value) else None
      ensures p.Some? == register.value.Some? && (p.Some? ==> p.value.seqNo < UINT64)
    {
      p := if register.value.Some? then codec.decode(register.value.value) else None;
    }

    /** Fold in a newer root, in the store as the other devices left it. */
    method Prepare(s: BlobStore, cfg: Config, relabel: Merge.Labeler, tip: ReadCap, stored: seq<Blob>, remote: Option<ReadCap>,
                   ghost start: Stage, ghost forks: seq<Fork>)
      returns (r: Option<ReadCap>, ghost forks': seq<Fork>, ghost m1: BlobMap, ghost n1: nat)
      requires Valid() && s.Valid() && cfg.params.Valid() && tip.key < s.nextKey && BaseOf(file).key < s.nextKey
      requires Chain(relabel, BaseOf(file), start, forks, Stage(s.blobs, s.nextKey, tip))
      modifies s
      ensures Valid() && s.Valid() && Extends(old(s.blobs), old(s.nextKey), s.blobs, s.nextKey)
      ensures Extends(old(s.blobs), old(s.nextKey), m1, n1) && (r.None? <==> Unfoldable(m1, n1, file, tip, remote))
      ensures r.Some? ==>
                && r.value.key < s.nextKey && Prepared(tip, remote, forks', r.value) && forks == ForksBefore(remote, forks')
                && Chain(relabel, BaseOf(file), start, forks', Stage(s.blobs, s.nextKey, r.value))
    {
      hide Chain, Lawful, WellFormed, Backed, Merge.IsMerge, Extends, MergeCode.MergeStuck;
      ghost var m0, n0 := s.blobs, s.nextKey;
      OthersStore(s, cfg, stored);
      KeyGrows(m0, n0, s.blobs, s.nextKey);
      m1, n1 := s.blobs, s.nextKey;
      ChainLater(relabel, BaseOf(file), start, forks, Stage(m0, n0, tip), Stage(m1, n1, tip));
      forks', r := forks, Some(tip);
      if remote.Some? && remote.value.key >= s.nextKey {
        r := None;
      } else if remote.Some? {
        var folded, f := Fold(s, cfg, relabel, BaseOf(file), tip, remote.value);
        KeyGrows(m1, n1, s.blobs, s.nextKey);
        ExtendsTransitive(m0, n0, m1, n1, s.blobs, s.nextKey);
        if folded.Err? {
          r := None;
        } else {
          OneMoreFork(relabel, BaseOf(file), start, forks, f);
          assert (forks + [f])[..|forks|] == forks;
          forks', r := forks + [f], Some(folded.value);
        }
      }
    }

    /** One attempt: the report of a commit, or what to retry from. */
    method Attempt(s: BlobStore, cfg: Config, relabel: Merge.Labeler, attempt: nat, tip: ReadCap, prevSeq: nat, others: Elsewhere,
                   ghost start: nat, ghost from: Stage, ghost forks: seq<Fork>)
      returns (done: Option<Report>, failed: bool, nextTip: ReadCap, nextSeq: nat, ghost forks': seq<Fork>, ghost t: Try)
      requires Valid() && prevSeq < UINT64 && Climbs(start, prevSeq, SeqIn(codec.decode, register.value))
      requires start == if file.Some? then file.value.seqNo else 0
      requires s.Valid() && cfg.params.Valid() && tip.key < s.nextKey && BaseOf(file).key < s.nextKey
      requires Chain(relabel, BaseOf(file), from, forks, Stage(s.blobs, s.nextKey, tip))
      modifies register, s
      ensures Valid() && Moved(codec.decode, old(register.value), register.value) && nextSeq < UINT64
      ensures s.Valid() && Extends(old(s.blobs), old(s.nextKey), s.blobs, s.nextKey) && nextTip.key < s.nextKey
      ensures Moved(codec.decode, old(register.value), t.read)
      ensures failed ==>
                exists m1, n1 :: Extends(old(s.blobs), old(s.nextKey), m1, n1)
                  && Unfoldable(m1, n1, file, tip, NewerRoot(file, Pointer(codec.decode, t.read), others.open(attempt)))
      ensures !failed ==>
                && t.tip == tip && t.prevSeq == prevSeq && t.reread == register.value && t.root == nextTip
                && Attempted(codec.decode, file, others.open(attempt), t, forks')
                && forks == ForksBefore(NewerRoot(file, Pointer(codec.decode, t.read), others.open(attempt)), forks')
                && Chain(relabel, BaseOf(file), from, forks', Stage(s.blobs, s.nextKey, nextTip))
                && (done.None? <==> Beaten(codec.decode, t)) && (done.None? ==> nextSeq == SeqIn(codec.decode, t.reread))
      ensures done.Some? ==>
                && !failed && done.value.attempt == attempt && Reports(codec.decode, file, t, done.value)
                && done.value.saved == Saved(t.seqNo, t.root) && t.seqNo < UINT64
      ensures Climbs(start, nextSeq, SeqIn(codec.decode, register.value))
    {
      hide Moved, Prepared, Chain, WellFormed, Backed, Extends, Unfoldable, NewerRoot,
           ForksBefore, ToFold, Reports, NextSeq, Beaten, Attempted, SameVerify, Lawful, Stripped;
      var d := codec.decode;
      done, failed, nextTip, nextSeq := None, false, tip, prevSeq;
      register.Others();
      ghost var atRead := register.value;
      var remote := GetRoot();
      MovedUp(d, old(register.value), atRead);
      var newSeq := NextSeq(prevSeq, remote);
      NextSeqAbove(prevSeq, remote);
      FoldsTheNewer(file, remote, others.open(attempt));
      var resolved;
      ghost var m1, n1;
      ghost var m0, n0 := s.blobs, s.nextKey;
      resolved, forks', m1, n1 := Prepare(s, cfg, relabel, tip, others.stored(attempt), ToFold(file, remote, others.open(attempt)), from, forks);
      KeyGrows(m0, n0, s.blobs, s.nextKey);
      t := Try(tip, prevSeq, atRead, newSeq, tip, atRead);
      if resolved.None? {
        failed := true;
      } else {
        var merged := resolved.value;
        nextTip := merged;
        var stamp: int := *;
        var record := codec.sign(merged, newSeq, stamp);
        Signed(codec, merged, newSeq, stamp);
        Publish(record, atRead, old(register.value));
        var cur := GetRoot();
        assert SeqIn(d, Some(record)) == newSeq;
        t := Try(tip, prevSeq, atRead, newSeq, merged, register.value);
        TryMade(d, file, others.open(attempt), t, forks', remote, cur);
        if cur.Some? && cur.value.seqNo >= newSeq && !SameVerify(cur.value.root, merged) {
          nextSeq := cur.value.seqNo;
        } else {
          done := Some(Report(attempt, tip, prevSeq, remote, Saved(newSeq, merged), cur.value));
          Reported(d, file, t, done.value, start, SeqIn(d, atRead));
        }
      }
    }

    /** Publish among other writers. */
    method Publish(record: Bytes, ghost atRead: Option<Bytes>, ghost before: Option<Bytes>)
      requires Valid() && register.value == atRead && Moved(codec.decode, before, atRead) && Readable(codec.decode, record)
      modifies register
      ensures Valid() && Moved(codec.decode, before, register.value) && Moved(codec.decode, atRead, register.value)
      ensures register.value.Some?
      ensures SeqIn(codec.decode, Some(record)) <= SeqIn(codec.decode, register.value)
      ensures SeqIn(codec.decode, atRead) <= SeqIn(codec.decode, register.value)
    {
      hide Readable, Beats;
      var d := codec.decode;
      register.Others();
      ghost var a := register.value;
      register.Put(record);
      ghost var b := register.value;
      register.Others();
      ghost var c := register.value;
      MovedTransitive(d, atRead, a, b);
      MovedTransitive(d, atRead, b, c);
      MovedTransitive(d, before, atRead, c);
      MovedTransitive(d, Some(record), b, c);
      MovedUp(d, atRead, c);
      MovedUp(d, Some(record), c);
    }

    /**
     * Commit a new root. On success it is saved under a number above the last local one and the published one
     * it read, with every newer root read on the way folded in, and the published winner is this very root.
     * It fails only when told to, when a newer root cannot be merged, or when every attempt is beaten, and then
     * the saved root is left alone.
     */
    method CommitRoot(s: BlobStore, cfg: Config, relabel: Merge.Labeler, newRoot: ReadCap, isSealed: bool, foreign: bool, others: Elsewhere)
      returns (r: Result<Report, CommitError>, ghost tries: seq<Try>, ghost forks: seq<Fork>)
      requires Valid() && s.Valid() && cfg.params.Valid()
      requires newRoot.key < s.nextKey && BaseOf(file).key < s.nextKey
      modifies this, register, s
      ensures Valid() && s.Valid() && Moved(codec.decode, old(register.value), register.value)
      ensures Traced(codec.decode, old(file), others, old(register.value), newRoot, tries, forks) && |tries| <= MAX_ATTEMPTS
      ensures r.Err? ==> file == old(file) && AllBeaten(codec.decode, tries)
      ensures r == Err(Sealed) <==> isSealed
      ensures r == Err(Foreign) <==> !isSealed && foreign && old(file).Some?
      ensures r == Err(GaveUp) ==> |tries| == MAX_ATTEMPTS
      ensures r == Err(MergeFailed) ==>
                CannotFold(codec.decode, file, others, old(register.value), newRoot, tries, old(s.blobs), old(s.nextKey))
      ensures r.Ok? ==>
                && file == Some(r.value.saved) && Committed(codec.decode, old(file), tries, r.value)
                && register.value == tries[|tries| - 1].reread
                && Chain(relabel, if old(file).Some? then old(file).value.root else NO_CAP, Stage(old(s.blobs), old(s.nextKey), newRoot), forks,
                         Stage(s.blobs, s.nextKey, r.value.saved.root))
    {
      hide Moved, Committed, Climbs, Readable, Lawful, Chain, WellFormed, Backed, Traced, Attempted, Beaten, CannotFold, Extends, ForksBefore, Reports;
      var d := codec.decode;
      tries, forks := [], [];
      Unmoved(d, register.value);
      NoTries(d, file, others, register.value, newRoot);
      if isSealed { return Err(Sealed), tries, forks; }
      if file.Some? && foreign { return Err(Foreign), tries, forks; }
      var tip := newRoot;
      var prevSeq: nat := if file.Some? then file.value.seqNo else 0;
      ghost var start: nat := prevSeq;
      ghost var from, v0 := Stage(s.blobs, s.nextKey, newRoot), register.value;
      NoForks(relabel, BaseOf(file), from);
      SelfExtends(s.blobs, s.nextKey);
      AtStart(start, SeqIn(d, register.value));
      for attempt := 0 to MAX_ATTEMPTS
        invariant Valid() && file == old(file) && prevSeq < UINT64
        invariant s.Valid() && Extends(from.blobs, from.key, s.blobs, s.nextKey) && tip.key < s.nextKey && BaseOf(file).key < s.nextKey
        invariant Chain(relabel, BaseOf(file), from, forks, Stage(s.blobs, s.nextKey, tip))
        invariant Moved(d, v0, register.value) && Climbs(start, prevSeq, SeqIn(d, register.value))
        invariant |tries| == attempt && AllBeaten(d, tries) && Traced(d, file, others, v0, newRoot, tries, forks)
        invariant tip == TipAfter(newRoot, tries) && prevSeq == SeqAfter(d, file, tries) && register.value == ValueAfter(v0, tries)
      {
        ghost var before, m0, n0 := register.value, s.blobs, s.nextKey;
        var done, failed, nextTip, nextSeq;
        ghost var forks', t;
        done, failed, nextTip, nextSeq, forks', t := Attempt(s, cfg, relabel, attempt, tip, prevSeq, others, start, from, forks);
        MovedTransitive(d, v0, before, register.value);
        if failed {
          Stopped(d, file, others, v0, newRoot, tries, from.blobs, from.key, m0, n0, t.read);
          return Err(MergeFailed), tries, forks;
        }
        OneMoreTry(d, file, others, v0, newRoot, tries, forks, t, forks');
        ExtendsTransitive(from.blobs, from.key, m0, n0, s.blobs, s.nextKey);
        KeyGrows(m0, n0, s.blobs, s.nextKey);
        ghost var front := tries;
        tries, forks := tries + [t], forks';
        if done.Some? {
          CommittedBy(d, file, front, t, done.value);
          file := Some(done.value.saved);
          return Ok(done.value), tries, forks;
        }
        tip, prevSeq := nextTip, nextSeq;
      }
      return Err(GaveUp), tries, forks;
    }
  }

  lemma Unmoved(decode: Decode, v: Option<Bytes>)
    requires v.Some? ==> Readable(decode, v.value)
    ensures Moved(decode, v, v)
  {
  }

  lemma AtStart(start: nat, published: int)
    ensures Climbs(start, start, published)
  {
  }

  lemma NoTries(decode: Decode, prev: Option<Saved>, others: Elsewhere, before: Option<Bytes>, newRoot: ReadCap)
    ensures Traced(decode, prev, others, before, newRoot, [], [])
  {
  }

  lemma Stopped(decode: Decode, prev: Option<Saved>, others: Elsewhere, before: Option<Bytes>, newRoot: ReadCap, tries: seq<Try>,
                m: BlobMap, n: nat, m0: BlobMap, n0: nat, read: Option<Bytes>)
    requires Moved(decode, ValueAfter(before, tries), read) && Extends(m, n, m0, n0)
    requires exists m1, n1 :: Extends(m0, n0, m1, n1)
               && Unfoldable(m1, n1, prev, TipAfter(newRoot, tries), NewerRoot(prev, Pointer(decode, read), others.open(|tries|)))
    ensures CannotFold(decode, prev, others, before, newRoot, tries, m, n)
  {
    hide Moved, Extends, Unfoldable, NewerRoot;
    var m1, n1 :| Extends(m0, n0, m1, n1)
      && Unfoldable(m1, n1, prev, TipAfter(newRoot, tries), NewerRoot(prev, Pointer(decode, read), others.open(|tries|)));
    ExtendsTransitive(m, n, m0, n0, m1, n1);
  }

  lemma Signed(codec: Codec, root: ReadCap, n: nat, stamp: int)
    requires Lawful(codec) && n < UINT64
    ensures codec.decode(codec.sign(root, n, stamp)) == Some(RootPointer(n, Stripped(root)))
  {
  }

  lemma TryMade(decode: Decode, prev: Option<Saved>, open: Opener, t: Try, forks: seq<Fork>, remote: Option<RootPointer>, cur: Option<RootPointer>)
    requires remote == Pointer(decode, t.read) && t.seqNo == NextSeq(t.prevSeq, remote) < UINT64 && Moved(decode, t.read, t.reread)
    requires t.reread.Some? && t.seqNo <= SeqIn(decode, t.reread) && cur == Pointer(decode, t.reread)
    requires Prepared(t.tip, NewerRoot(prev, remote, open), forks, t.root)
    ensures Attempted(decode, prev, open, t, forks)
    ensures Beaten(decode, t) <==> cur.Some? && cur.value.seqNo >= t.seqNo && !SameVerify(cur.value.root, t.root)
  {
  }

  lemma Reported(decode: Decode, prev: Option<Saved>, t: Try, c: Report, start: nat, read: int)
    requires t.prevSeq < UINT64 && t.seqNo == NextSeq(t.prevSeq, Pointer(decode, t.read)) && SeqIn(decode, t.read) == read < UINT64
    requires c == Report(c.attempt, t.tip, t.prevSeq, Pointer(decode, t.read), Saved(t.seqNo, t.root), c.winner)
    requires Pointer(decode, t.reread) == Some(c.winner) && SameVerify(c.winner.root, t.root) && c.winner.seqNo >= t.seqNo
    requires start == (if prev.Some? then prev.value.seqNo else 0) && read <= c.winner.seqNo && Climbs(start, t.prevSeq, read)
    ensures Reports(decode, prev, t, c)
  {
    NextSeqAbove(t.prevSeq, Pointer(decode, t.read));
  }

  lemma CommittedBy(decode: Decode, prev: Option<Saved>, front: seq<Try>, t: Try, c: Report)
    requires AllBeaten(decode, front) && !Beaten(decode, t) && Reports(decode, prev, t, c) && c.attempt == |front|
    ensures Committed(decode, prev, front + [t], c)
  {
    assert (front + [t])[..|front|] == front;
  }
}

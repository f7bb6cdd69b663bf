/** The recursive merge of the program, proved to build what module Merge describes. */
module MergeCode {
  import opened Core
  import opened Directory
  import opened Blobs
  import opened Merge

  // ---------------------------------------------------------------- partly built directories

  /** The entries written so far carry out the slots selected so far. */
  ghost predicate AllFilled(m: BlobMap, relabel: Labeler, l: ReadCap, r: ReadCap, m': BlobMap,
                            es: map<string, Entry>, slots: map<string, Slot>) {
    es.Keys == slots.Keys && forall x :: x in slots ==> Filled(m, relabel, l, r, m', x, es[x], slots[x])
  }

  lemma FillOne(m: BlobMap, relabel: Labeler, l: ReadCap, r: ReadCap, m': BlobMap,
                es: map<string, Entry>, slots: map<string, Slot>, e: Entry, slot: Slot)
    requires AllFilled(m, relabel, l, r, m', es, slots) && Filled(m, relabel, l, r, m', e.name, e, slot)
    ensures AllFilled(m, relabel, l, r, m', es[e.name := e], slots[e.name := slot])
  {
  }

  /** A finished merge stays one while the store grows. */
  lemma {:induction false} MergeStable(m: BlobMap, relabel: Labeler, b: ReadCap, l: ReadCap, r: ReadCap,
                                       m1: BlobMap, c: ReadCap, m2: BlobMap)
    requires IsMerge(m, relabel, b, l, r, m1, c) && (forall x :: x in m1 ==> x in m2 && m2[x] == m1[x])
    ensures IsMerge(m, relabel, b, l, r, m2, c)
    decreases l.key + r.key, 1
  {
    if Diverged(b, l, r) {
      var slots := Slots(ThreeOf(m, b, l, r), relabel, false);
      assert Entries(m2, c) == Entries(m1, c);
      forall x | x in slots ensures Filled(m, relabel, l, r, m2, x, Entries(m2, c)[x], slots[x]) {
        FilledStable(m, relabel, l, r, m1, x, Entries(m1, c)[x], slots[x], m2);
      }
    }
  }

  lemma {:induction false} FilledStable(m: BlobMap, relabel: Labeler, l: ReadCap, r: ReadCap,
                                        m1: BlobMap, x: string, e: Entry, slot: Slot, m2: BlobMap)
    requires Filled(m, relabel, l, r, m1, x, e, slot) && (forall y :: y in m1 ==> y in m2 && m2[y] == m1[y])
    ensures Filled(m, relabel, l, r, m2, x, e, slot)
    decreases l.key + r.key, 0
  {
    if slot.Sub? {
      MergeStable(m, relabel, slot.bc, slot.lc, slot.rc, m1, e.cap, m2);
    }
  }

  lemma AllFilledStable(m: BlobMap, relabel: Labeler, l: ReadCap, r: ReadCap, m1: BlobMap,
                        es: map<string, Entry>, slots: map<string, Slot>, m2: BlobMap)
    requires AllFilled(m, relabel, l, r, m1, es, slots) && (forall y :: y in m1 ==> y in m2 && m2[y] == m1[y])
    ensures AllFilled(m, relabel, l, r, m2, es, slots)
  {
    hide Filled;
    forall x | x in slots ensures Filled(m, relabel, l, r, m2, x, es[x], slots[x]) {
      FilledStable(m, relabel, l, r, m1, x, es[x], slots[x], m2);
    }
  }

  /** Further writes on top of a partly built directory. */
  function Write(slots: map<string, Slot>, bs: seq<Binding>): map<string, Slot> {
    if bs == [] then slots
    else Write(slots, bs[..|bs| - 1])[bs[|bs| - 1].name := bs[|bs| - 1].slot]
  }

  lemma {:induction false} OverwriteAppend(a: seq<Binding>, b: seq<Binding>)
    ensures Overwrite(a + b) == Write(Overwrite(a), b)
  {
    if b == [] {
      assert a + b == a;
    } else {
      assert (a + b)[..|a + b| - 1] == a + b[..|b| - 1];
      OverwriteAppend(a, b[..|b| - 1]);
    }
  }

  // ---------------------------------------------------------------- reported conflicts

  /** The merge reports a conflict at this path. */
  predicate ConflictAt(m: BlobMap, b: ReadCap, l: ReadCap, r: ReadCap, p: Path)
    decreases |p|
  {
    Diverged(b, l, r) && p != [] &&
    var t := ThreeOf(m, b, l, r);
    var d := DecideName(t, p[0], false);
    if |p| == 1 then IsConflict(d)
    else d == Descend && ConflictAt(m, CapOf(Get(t.b, p[0])), CapOf(Get(t.l, p[0])), CapOf(Get(t.r, p[0])), p[1..])
  }

  // ---------------------------------------------------------------- conflicts by what stands where

  /** What a version has at a path; the zero cap if nothing. */
  ghost function CapAt(m: BlobMap, c: ReadCap, p: Path): ReadCap {
    if Resolve(m, c, p).Some? then Resolve(m, c, p).value else NO_CAP
  }

  /** The three versions have three different things at p. */
  ghost predicate AllDiffer(m: BlobMap, b: ReadCap, l: ReadCap, r: ReadCap, p: Path) {
    CapAt(m, l, p) != CapAt(m, r, p) && CapAt(m, l, p) != CapAt(m, b, p) && CapAt(m, r, p) != CapAt(m, b, p)
  }

  /** Local and remote both have a directory at p. */
  ghost predicate BothDirs(m: BlobMap, l: ReadCap, r: ReadCap, p: Path) {
    && Resolve(m, l, p).Some? && Resolve(m, l, p).value.kind == KindDir
    && Resolve(m, r, p).Some? && Resolve(m, r, p).value.kind == KindDir
  }

  /**
   * Base, local and remote have three different things at p and at everything above it, and local and remote have
   * directories at everything between the top and p but not both at p.
   */
  ghost predicate Contested(m: BlobMap, b: ReadCap, l: ReadCap, r: ReadCap, p: Path) {
    && p != [] && !BothDirs(m, l, r, p)
    && (forall i :: 0 <= i <= |p| ==> AllDiffer(m, b, l, r, p[..i]))
    && (forall i :: 0 < i < |p| ==> BothDirs(m, l, r, p[..i]))
  }

  /** A path below a name is a path in what the name is bound to. */
  lemma CapBelow(m: BlobMap, c: ReadCap, x: string, q: Path)
    ensures var sub := CapOf(Get(Entries(m, c), x));
            && CapAt(m, c, [x] + q) == CapAt(m, sub, q)
            && (Resolve(m, c, [x] + q).Some? && Resolve(m, c, [x] + q).value.kind == KindDir <==>
                Resolve(m, sub, q).Some? && Resolve(m, sub, q).value.kind == KindDir)
  {
    assert ([x] + q)[1..] == q;
  }

  lemma DiffersBelow(m: BlobMap, b: ReadCap, l: ReadCap, r: ReadCap, x: string, q: Path)
    ensures var t := ThreeOf(m, b, l, r);
            var bc, lc, rc := CapOf(Get(t.b, x)), CapOf(Get(t.l, x)), CapOf(Get(t.r, x));
            && (AllDiffer(m, b, l, r, [x] + q) <==> AllDiffer(m, bc, lc, rc, q))
            && (BothDirs(m, l, r, [x] + q) <==> BothDirs(m, lc, rc, q))
  {
    CapBelow(m, b, x, q);
    CapBelow(m, l, x, q);
    CapBelow(m, r, x, q);
    hide Resolve, CapAt, Entries;
  }

  /** What is asked of a path is what is asked of the top, and below it of the path's tail. */
  lemma ContestedDown(m: BlobMap, b: ReadCap, l: ReadCap, r: ReadCap, p: Path)
    requires p != []
    ensures var t := ThreeOf(m, b, l, r);
            var bc, lc, rc := CapOf(Get(t.b, p[0])), CapOf(Get(t.l, p[0])), CapOf(Get(t.r, p[0]));
            Contested(m, b, l, r, p) <==>
              && AllDiffer(m, b, l, r, [])
              && if |p| == 1 then AllDiffer(m, b, l, r, p) && !BothDirs(m, l, r, p)
                 else BothDirs(m, l, r, p[..1]) && Contested(m, bc, lc, rc, p[1..])
  {
    hide AllDiffer, BothDirs, ThreeOf;
    assert p[..0] == [] && p[..|p|] == p;
    if |p| > 1 {
      ContestedTail(m, b, l, r, p);
    } else {
      assert forall i :: 0 <= i <= |p| ==> p[..i] == [] || p[..i] == p;
    }
  }

  lemma ContestedTail(m: BlobMap, b: ReadCap, l: ReadCap, r: ReadCap, p: Path)
    requires |p| > 1
    ensures var t := ThreeOf(m, b, l, r);
            var bc, lc, rc := CapOf(Get(t.b, p[0])), CapOf(Get(t.l, p[0])), CapOf(Get(t.r, p[0]));
            Contested(m, b, l, r, p) <==>
            AllDiffer(m, b, l, r, []) && BothDirs(m, l, r, p[..1]) && Contested(m, bc, lc, rc, p[1..])
  {
    hide AllDiffer, BothDirs, ThreeOf;
    var t := ThreeOf(m, b, l, r);
    var bc, lc, rc := CapOf(Get(t.b, p[0])), CapOf(Get(t.l, p[0])), CapOf(Get(t.r, p[0]));
    var q := p[1..];
    forall i | 0 <= i <= |q|
      ensures AllDiffer(m, b, l, r, p[..i + 1]) <==> AllDiffer(m, bc, lc, rc, q[..i])
      ensures BothDirs(m, l, r, p[..i + 1]) <==> BothDirs(m, lc, rc, q[..i])
    {
      assert p[..i + 1] == [p[0]] + q[..i];
      DiffersBelow(m, b, l, r, p[0], q[..i]);
    }
    assert p[..0] == [] && p[..|q| + 1] == p && q[..|q|] == q;
    forall i | 0 < i <= |p| ensures AllDiffer(m, b, l, r, p[..i]) <==> AllDiffer(m, bc, lc, rc, q[..i - 1]) { }
    forall i | 0 < i <= |p| ensures BothDirs(m, l, r, p[..i]) <==> BothDirs(m, lc, rc, q[..i - 1]) { }
  }

  /** The merge reports exactly the contested paths. */
  lemma {:induction false} ConflictIffContested(m: BlobMap, b: ReadCap, l: ReadCap, r: ReadCap, p: Path)
    ensures ConflictAt(m, b, l, r, p) <==> Contested(m, b, l, r, p)
    decreases |p|
  {
    if p != [] {
      var t := ThreeOf(m, b, l, r);
      var bc, lc, rc := CapOf(Get(t.b, p[0])), CapOf(Get(t.l, p[0])), CapOf(Get(t.r, p[0]));
      ContestedDown(m, b, l, r, p);
      ConflictIffContested(m, bc, lc, rc, p[1..]);
      OneName(m, b, l, r, p[0]);
      assert p[..1] == [p[0]];
      hide Contested, DecideName, AllDiffer, BothDirs, IsConflict;
      TopDiffers(m, b, l, r);
      ContestedTop(m, b, l, r, p[0], p[1..]);
      assert |p| == 1 ==> p == [p[0]];
    }
  }

  lemma TopDiffers(m: BlobMap, b: ReadCap, l: ReadCap, r: ReadCap)
    ensures AllDiffer(m, b, l, r, []) <==> Diverged(b, l, r)
  {
  }

  lemma ContestedTop(m: BlobMap, b: ReadCap, l: ReadCap, r: ReadCap, x: string, q: Path)
    ensures var t := ThreeOf(m, b, l, r);
            Contested(m, CapOf(Get(t.b, x)), CapOf(Get(t.l, x)), CapOf(Get(t.r, x)), q) ==> AllDiffer(m, b, l, r, [x])
  {
    hide AllDiffer, BothDirs, ThreeOf;
    assert q[..0] == [] && [x] + [] == [x];
    DiffersBelow(m, b, l, r, x, []);
  }

  lemma OneName(m: BlobMap, b: ReadCap, l: ReadCap, r: ReadCap, x: string)
    ensures var d := DecideName(ThreeOf(m, b, l, r), x, false);
            && (IsConflict(d) <==> AllDiffer(m, b, l, r, [x]) && !BothDirs(m, l, r, [x]))
            && (d == Descend <==> AllDiffer(m, b, l, r, [x]) && BothDirs(m, l, r, [x]))
  {
    assert [x] + [] == [x];
    DiffersBelow(m, b, l, r, x, []);
  }

  /** `conflicts` lists, under `prefix`, exactly the conflict paths whose first name is in `names`. */
  ghost predicate Reports(m: BlobMap, b: ReadCap, l: ReadCap, r: ReadCap, prefix: Path, names: set<string>, conflicts: seq<Path>) {
    && (forall q :: q in conflicts ==>
          |prefix| < |q| && q[..|prefix|] == prefix && q[|prefix|] in names && ConflictAt(m, b, l, r, q[|prefix|..]))
    && (forall q :: q != [] && q[0] in names && ConflictAt(m, b, l, r, q) ==> prefix + q in conflicts)
    && NoneTwice(conflicts)
  }

  ghost predicate NoneTwice(conflicts: seq<Path>) {
    forall i, j :: 0 <= i < j < |conflicts| ==> conflicts[i] != conflicts[j]
  }

  lemma NoneTwiceJoined(a: seq<Path>, b: seq<Path>)
    requires NoneTwice(a) && NoneTwice(b) && forall q :: q in a ==> q !in b
    ensures NoneTwice(a + b)
  {
    forall i, j | 0 <= i < |a| <= j < |a + b| ensures (a + b)[i] != (a + b)[j] { assert a[i] in a && b[j - |a|] in b; }
  }

  ghost predicate ReportsAll(m: BlobMap, b: ReadCap, l: ReadCap, r: ReadCap, prefix: Path, conflicts: seq<Path>) {
    && (forall q :: q in conflicts ==>
          |prefix| < |q| && q[..|prefix|] == prefix && ConflictAt(m, b, l, r, q[|prefix|..]))
    && (forall q :: q != [] && ConflictAt(m, b, l, r, q) ==> prefix + q in conflicts)
    && NoneTwice(conflicts)
  }

  lemma ReportLeaf(m: BlobMap, b: ReadCap, l: ReadCap, r: ReadCap, prefix: Path, names: set<string>, conflicts: seq<Path>, x: string)
    requires Reports(m, b, l, r, prefix, names, conflicts) && Diverged(b, l, r) && x !in names
    requires DecideName(ThreeOf(m, b, l, r), x, false) != Descend
    ensures IsConflict(DecideName(ThreeOf(m, b, l, r), x, false)) ==> Reports(m, b, l, r, prefix, names + {x}, conflicts + [prefix + [x]])
    ensures !IsConflict(DecideName(ThreeOf(m, b, l, r), x, false)) ==> Reports(m, b, l, r, prefix, names + {x}, conflicts)
  {
    assert forall q: Path :: q != [] && q[0] == x && ConflictAt(m, b, l, r, q) ==> q == [x];
    assert (prefix + [x])[|prefix|..] == [x] && (prefix + [x])[|prefix|] == x;
    NoneTwiceJoined(conflicts, [prefix + [x]]);
  }

  ghost predicate ReportedBelow(m: BlobMap, b: ReadCap, l: ReadCap, r: ReadCap, prefix: Path, x: string, q: Path) {
    |prefix| < |q| && q[..|prefix|] == prefix && q[|prefix|] == x && ConflictAt(m, b, l, r, q[|prefix|..])
  }

  lemma BelowReported(m: BlobMap, b: ReadCap, l: ReadCap, r: ReadCap, prefix: Path, x: string, below: seq<Path>, q: Path)
    requires Diverged(b, l, r) && q in below
    requires var t := ThreeOf(m, b, l, r);
             && DecideName(t, x, false) == Descend
             && ReportsAll(m, CapOf(Get(t.b, x)), CapOf(Get(t.l, x)), CapOf(Get(t.r, x)), prefix + [x], below)
    ensures ReportedBelow(m, b, l, r, prefix, x, q)
  {
    hide DecideName;
    var p := q[|prefix|..];
    assert q[..|prefix| + 1][..|prefix|] == q[..|prefix|] == prefix;
    assert q[..|prefix| + 1][|prefix|] == x;
    assert p[1..] == q[|prefix| + 1..];
  }

  lemma ReportSub(m: BlobMap, b: ReadCap, l: ReadCap, r: ReadCap, prefix: Path, names: set<string>, conflicts: seq<Path>,
                  x: string, below: seq<Path>)
    requires Reports(m, b, l, r, prefix, names, conflicts) && Diverged(b, l, r) && x !in names
    requires var t := ThreeOf(m, b, l, r);
             && DecideName(t, x, false) == Descend
             && ReportsAll(m, CapOf(Get(t.b, x)), CapOf(Get(t.l, x)), CapOf(Get(t.r, x)), prefix + [x], below)
    ensures Reports(m, b, l, r, prefix, names + {x}, conflicts + below)
  {
    hide ConflictAt, ReportsAll, DecideName, Diverged, ThreeOf;
    forall q | q in below ensures ReportedBelow(m, b, l, r, prefix, x, q) { BelowReported(m, b, l, r, prefix, x, below, q); }
    forall q: Path | q != [] && q[0] == x && ConflictAt(m, b, l, r, q) ensures prefix + q in below {
      SubReported(m, b, l, r, prefix, x, below, q);
    }
    assert NoneTwice(below) by { OnceBelow(m, b, l, r, prefix, x, below); }
    hide NoneTwice;
    NoneTwiceJoined(conflicts, below);
  }

  lemma OnceBelow(m: BlobMap, b: ReadCap, l: ReadCap, r: ReadCap, prefix: Path, x: string, below: seq<Path>)
    requires var t := ThreeOf(m, b, l, r);
             ReportsAll(m, CapOf(Get(t.b, x)), CapOf(Get(t.l, x)), CapOf(Get(t.r, x)), prefix + [x], below)
    ensures NoneTwice(below)
  {
  }

  lemma SubReported(m: BlobMap, b: ReadCap, l: ReadCap, r: ReadCap, prefix: Path, x: string, below: seq<Path>, q: Path)
    requires Diverged(b, l, r) && q != [] && q[0] == x && ConflictAt(m, b, l, r, q)
    requires var t := ThreeOf(m, b, l, r);
             && DecideName(t, x, false) == Descend
             && ReportsAll(m, CapOf(Get(t.b, x)), CapOf(Get(t.l, x)), CapOf(Get(t.r, x)), prefix + [x], below)
    ensures prefix + q in below
  {
    hide DecideName, ThreeOf, Diverged;
    assert prefix + [x] + q[1..] == prefix + q;
  }

  // ---------------------------------------------------------------- the code

  /** Some directory below this cap cannot be loaded. The zero cap reads as an empty directory. */
  ghost predicate Damaged(m: BlobMap, c: ReadCap) {
    c.shards != [] && Unloadable(m, c, false)
  }

  lemma DamagedBelow(m: BlobMap, n: nat, c: ReadCap, x: string)
    requires WellFormed(m, n) && x in Entries(m, c) && Damaged(m, Entries(m, c)[x].cap)
    ensures Damaged(m, c)
  {
    assert BlobOk(m, n, c);
    UnloadableBelow(m, c, x, false);
  }

  /** A directory the merge has to open and cannot. */
  predicate Stuck(m: BlobMap, c: ReadCap) {
    c.shards != [] && c.kind == KindDir && !IsDir(m, c)
  }

  /** The merge opens the three versions at q, and one of them cannot be loaded. */
  ghost predicate StuckAt(m: BlobMap, b: ReadCap, l: ReadCap, r: ReadCap, q: Path)
    decreases |q|
  {
    && Diverged(b, l, r)
    && if q == [] then Stuck(m, b) || Stuck(m, l) || Stuck(m, r)
       else
         var t := ThreeOf(m, b, l, r);
         && DecideName(t, q[0], false) == Descend
         && StuckAt(m, CapOf(Get(t.b, q[0])), CapOf(Get(t.l, q[0])), CapOf(Get(t.r, q[0])), q[1..])
  }

  ghost predicate MergeStuck(m: BlobMap, b: ReadCap, l: ReadCap, r: ReadCap) {
    exists q :: StuckAt(m, b, l, r, q)
  }

  /** The merge goes below this name and gets stuck there. */
  ghost predicate SubStuck(m: BlobMap, b: ReadCap, l: ReadCap, r: ReadCap, x: string) {
    var t := ThreeOf(m, b, l, r);
    DecideName(t, x, false) == Descend && MergeStuck(m, CapOf(Get(t.b, x)), CapOf(Get(t.l, x)), CapOf(Get(t.r, x)))
  }

  lemma StuckStep(m: BlobMap, b: ReadCap, l: ReadCap, r: ReadCap)
    requires Diverged(b, l, r)
    ensures MergeStuck(m, b, l, r) <==> Stuck(m, b) || Stuck(m, l) || Stuck(m, r) || exists x :: SubStuck(m, b, l, r, x)
  {
    hide DecideName, ThreeOf, Stuck;
    if MergeStuck(m, b, l, r) {
      var q :| StuckAt(m, b, l, r, q);
      if q != [] {
        var t := ThreeOf(m, b, l, r);
        assert StuckAt(m, CapOf(Get(t.b, q[0])), CapOf(Get(t.l, q[0])), CapOf(Get(t.r, q[0])), q[1..]);
        assert SubStuck(m, b, l, r, q[0]);
      }
    }
    if Stuck(m, b) || Stuck(m, l) || Stuck(m, r) { assert StuckAt(m, b, l, r, []); }
    forall x | SubStuck(m, b, l, r, x) ensures MergeStuck(m, b, l, r) {
      var t := ThreeOf(m, b, l, r);
      var q :| StuckAt(m, CapOf(Get(t.b, x)), CapOf(Get(t.l, x)), CapOf(Get(t.r, x)), q);
      assert ([x] + q)[1..] == q;
      assert StuckAt(m, b, l, r, [x] + q);
    }
  }

  lemma {:induction false} StuckAtRebase(m: BlobMap, n: nat, m1: BlobMap, n1: nat, b: ReadCap, l: ReadCap, r: ReadCap, q: Path)
    requires WellFormed(m, n) && Extends(m, n, m1, n1) && b.key < n && l.key < n && r.key < n
    ensures StuckAt(m1, b, l, r, q) == StuckAt(m, b, l, r, q)
    decreases |q|
  {
    hide WellFormed, Extends;
    ThreeRebase(m, n, m1, n1, b, l, r);
    StuckRebase(m, n, m1, n1, b);
    StuckRebase(m, n, m1, n1, l);
    StuckRebase(m, n, m1, n1, r);
    if q != [] {
      NameFacts(m, n, b, l, r, m1, n1, q[0]);
      var t := ThreeOf(m, b, l, r);
      StuckAtRebase(m, n, m1, n1, CapOf(Get(t.b, q[0])), CapOf(Get(t.l, q[0])), CapOf(Get(t.r, q[0])), q[1..]);
    }
  }

  lemma StuckRebase(m: BlobMap, n: nat, m1: BlobMap, n1: nat, c: ReadCap)
    requires WellFormed(m, n) && Extends(m, n, m1, n1) && c.key < n
    ensures Stuck(m1, c) == Stuck(m, c)
  {
  }

  lemma MergeStuckRebase(m: BlobMap, n: nat, m1: BlobMap, n1: nat, b: ReadCap, l: ReadCap, r: ReadCap)
    requires WellFormed(m, n) && Extends(m, n, m1, n1) && b.key < n && l.key < n && r.key < n
    ensures MergeStuck(m1, b, l, r) == MergeStuck(m, b, l, r)
  {
    hide WellFormed, Extends;
    forall q ensures StuckAt(m1, b, l, r, q) == StuckAt(m, b, l, r, q) { StuckAtRebase(m, n, m1, n1, b, l, r, q); }
    hide StuckAt;
  }

  /** A merge that gets stuck was given a damaged version. */
  lemma {:induction false} StuckDamaged(m: BlobMap, n: nat, b: ReadCap, l: ReadCap, r: ReadCap, q: Path)
    requires WellFormed(m, n) && StuckAt(m, b, l, r, q)
    ensures Damaged(m, b) || Damaged(m, l) || Damaged(m, r)
    decreases |q|
  {
    hide WellFormed, Damaged;
    if q == [] {
      if Stuck(m, b) { StuckHere(m, b); } else if Stuck(m, l) { StuckHere(m, l); } else { StuckHere(m, r); }
    } else {
      var t := ThreeOf(m, b, l, r);
      StuckDamaged(m, n, CapOf(Get(t.b, q[0])), CapOf(Get(t.l, q[0])), CapOf(Get(t.r, q[0])), q[1..]);
      DamageAbove(m, n, b, l, r, q[0]);
    }
  }

  lemma StuckHere(m: BlobMap, c: ReadCap)
    requires Stuck(m, c)
    ensures Damaged(m, c)
  {
    UnloadableHere(m, c, false);
  }

  /** Load a directory, reading an absent or non-directory cap as an empty one. */
  method LoadDirOpt(s: BlobStore, c: ReadCap) returns (r: Result<DirManifest, LoadError>)
    requires s.Valid()
    ensures r.Ok? ==> EntryMap(r.value.entries) == Entries(s.blobs, c) && r.value.meta == MetaOf(s.blobs, c)
    ensures r.Err? <==> Stuck(s.blobs, c)
  {
    assert c in s.blobs ==> BlobOk(s.blobs, s.nextKey, c);
    if c.shards == [] || c.kind != KindDir {
      return Ok(DirManifest(NO_METADATA, []));
    }
    r := s.LoadDir(c);
  }

  /** The names of both sides, in order. */
  method UnionNames(a: map<string, Entry>, b: map<string, Entry>) returns (names: seq<string>)
    ensures names == SortedNames(a.Keys + b.Keys)
  {
    names := [];
    var todo := a.Keys + b.Keys;
    ghost var done: set<string> := {};
    while todo != {}
      invariant done + todo == a.Keys + b.Keys && done !! todo && IsListing(names, done)
      decreases todo
    {
      var x :| x in todo;
      names := InsertName(names, x, done);
      todo, done := todo - {x}, done + {x};
    }
    ListingUnique(names, SortedNames(a.Keys + b.Keys), a.Keys + b.Keys);
  }

  lemma ListedOnce(names: seq<string>, i: nat, s: set<string>)
    requires IsListing(names, s) && i < |names|
    ensures names[i] !in names[..i]
  {
    LessTrichotomy(names[i], names[i]);
  }

  datatype Merged = Merged(cap: ReadCap, conflicts: seq<Path>)

  /** What a run of the merge promises: the described tree and conflict list, or a directory it opens that cannot be loaded. */
  ghost predicate MergeOutcome(m: BlobMap, relabel: Labeler, prefix: Path, b: ReadCap, l: ReadCap, r: ReadCap,
                               m': BlobMap, n': nat, res: Result<Merged, LoadError>) {
    match res
    case Ok(x) =>
      && IsMerge(m, relabel, b, l, r, m', x.cap) && ReportsAll(m, b, l, r, prefix, x.conflicts)
      && x.cap.key < n' && (Homed(l) && Homed(r) ==> Homed(x.cap)) && !MergeStuck(m, b, l, r)
    case Err(_) => MergeStuck(m, b, l, r)
  }

  method Merge3(s: BlobStore, cfg: Config, base: ReadCap, local: ReadCap, remote: ReadCap, relabel: Labeler)
    returns (res: Result<Merged, LoadError>)
    requires s.Valid() && cfg.params.Valid()
    requires base.key < s.nextKey && local.key < s.nextKey && remote.key < s.nextKey
    modifies s
    ensures Grew(s)
    ensures MergeOutcome(old(s.blobs), relabel, [], base, local, remote, s.blobs, s.nextKey, res)
    ensures res.Ok? ==>
              && (forall p :: p in res.value.conflicts <==> Contested(old(s.blobs), base, local, remote, p))
              && NoneTwice(res.value.conflicts)
  {
    ghost var m := s.blobs;
    res := MergeDir(s, cfg, [], base, local, remote, relabel);
    if res.Ok? { ReportsContested(m, base, local, remote, res.value.conflicts); }
    hide MergeOutcome;
  }

  lemma ReportsContested(m: BlobMap, b: ReadCap, l: ReadCap, r: ReadCap, conflicts: seq<Path>)
    requires ReportsAll(m, b, l, r, [], conflicts)
    ensures forall p :: p in conflicts <==> Contested(m, b, l, r, p)
    ensures NoneTwice(conflicts)
  {
    hide ConflictAt, Contested, NoneTwice;
    assert Contested(m, b, l, r, []) ==> false by { NotAtTop(m, b, l, r); }
    forall p ensures p in conflicts <==> Contested(m, b, l, r, p) {
      ConflictIffContested(m, b, l, r, p);
      assert [] + p == p && p[0..] == p && p[..0] == [];
    }
  }

  lemma NotAtTop(m: BlobMap, b: ReadCap, l: ReadCap, r: ReadCap)
    ensures !Contested(m, b, l, r, [])
  {
  }

  method MergeDir(s: BlobStore, cfg: Config, prefix: Path, base: ReadCap, local: ReadCap, remote: ReadCap, relabel: Labeler)
    returns (res: Result<Merged, LoadError>)
    requires s.Valid() && cfg.params.Valid()
    requires base.key < s.nextKey && local.key < s.nextKey && remote.key < s.nextKey
    modifies s
    ensures Grew(s)
    ensures MergeOutcome(old(s.blobs), relabel, prefix, base, local, remote, s.blobs, s.nextKey, res)
    decreases local.key + remote.key, 2
  {
    if local == remote {
      res := Ok(Merged(local, []));
    } else if base == local {
      res := Ok(Merged(remote, []));
    } else if base == remote {
      res := Ok(Merged(local, []));
    } else {
      StuckStep(s.blobs, base, local, remote);
      var bD := LoadDirOpt(s, base);
      var lD := LoadDirOpt(s, local);
      var rD := LoadDirOpt(s, remote);
      if bD.Err? {
        res := Err(bD.error);
      } else if lD.Err? {
        res := Err(lD.error);
      } else if rD.Err? {
        res := Err(rD.error);
      } else {
        res := MergeEntries(s, cfg, prefix, base, local, remote, relabel, lD.value.meta,
                            EntryMap(bD.value.entries), EntryMap(lD.value.entries), EntryMap(rD.value.entries));
      }
    }
  }

  /** Merge entry by entry, in name order, and store the result. */
  method MergeEntries(s: BlobStore, cfg: Config, prefix: Path, ghost base: ReadCap, ghost local: ReadCap, ghost remote: ReadCap,
                      relabel: Labeler, meta: Metadata, bE: map<string, Entry>, lE: map<string, Entry>, rE: map<string, Entry>)
    returns (res: Result<Merged, LoadError>)
    requires s.Valid() && cfg.params.Valid()
    requires base.key < s.nextKey && local.key < s.nextKey && remote.key < s.nextKey
    requires Diverged(base, local, remote) && Three(bE, lE, rE) == ThreeOf(s.blobs, base, local, remote)
    requires meta == MetaOf(s.blobs, local) && !Stuck(s.blobs, base) && !Stuck(s.blobs, local) && !Stuck(s.blobs, remote)
    modifies s
    ensures Grew(s)
    ensures MergeOutcome(old(s.blobs), relabel, prefix, base, local, remote, s.blobs, s.nextKey, res)
    decreases local.key + remote.key, 1
  {
    hide Progress, WellFormed, Backed, EntriesOk, Extends, MergeOutcome, SortedNames, MetaOf, SubStuck, MergeStuck, Stuck;
    ghost var m, n := s.blobs, s.nextKey;
    StuckStep(m, base, local, remote);
    var names := UnionNames(lE, rE);
    var out := DirManifest(meta, []);
    var conflicts: seq<Path> := [];
    ProgressStart(m, n, relabel, prefix, base, local, remote);
    assert names[..0] == [];
    for i := 0 to |names|
      invariant s.Valid() && s.chunks == old(s.chunks) && old(s.live) <= s.live && out.meta == meta
      invariant Progress(m, n, relabel, prefix, base, local, remote, names[..i], s.blobs, s.nextKey, out.entries, conflicts)
      invariant forall j :: 0 <= j < i ==> !SubStuck(m, base, local, remote, names[j])
    {
      assert names[..i + 1] == names[..i] + [names[i]];
      ListedOnce(names, i, lE.Keys + rE.Keys);
      var step := MergeName(s, cfg, prefix, names[i], Get(bE, names[i]), Get(lE, names[i]), Get(rE, names[i]), relabel, out, conflicts,
                            m, n, base, local, remote, names[..i]);
      if step.Err? {
        MergeFailed(m, relabel, prefix, base, local, remote, s.blobs, s.nextKey, step.error);
        return Err(step.error);
      }
      out, conflicts := step.value.0, step.value.1;
    }
    assert names[..|names|] == names;
    NoneStuck(m, base, local, remote, names);
    ghost var m1, n1 := s.blobs, s.nextKey;
    ProgressEntries(m, n, relabel, prefix, base, local, remote, names, m1, n1, out.entries, conflicts);
    var cap := s.PutBlob(cfg, KindDir, DirBlob(out));
    ProgressDone(m, n, relabel, prefix, base, local, remote, m1, n1, out, conflicts, s.blobs, s.nextKey, cap);
    res := Ok(Merged(cap, conflicts));
  }

  /** The directory under construction after the names `done`, with the store as it is then. */
  ghost predicate Progress(m: BlobMap, n: nat, relabel: Labeler, prefix: Path, b: ReadCap, l: ReadCap, r: ReadCap,
                           done: seq<string>, m': BlobMap, n': nat, es: seq<Entry>, conflicts: seq<Path>) {
    && Extends(m, n, m', n') && EntriesOk(es, n')
    && AllFilled(m, relabel, l, r, m', EntryMap(es), Overwrite(AllBindings(ThreeOf(m, b, l, r), relabel, done, false)))
    && Reports(m, b, l, r, prefix, (set x | x in done), conflicts)
  }

  lemma ProgressEntries(m: BlobMap, n: nat, relabel: Labeler, prefix: Path, b: ReadCap, l: ReadCap, r: ReadCap,
                        done: seq<string>, m': BlobMap, n': nat, es: seq<Entry>, conflicts: seq<Path>)
    requires Progress(m, n, relabel, prefix, b, l, r, done, m', n', es, conflicts)
    ensures Extends(m, n, m', n') && EntriesOk(es, n')
  {
  }

  /** Only a name both sides have is gone below. */
  lemma NoneStuck(m: BlobMap, b: ReadCap, l: ReadCap, r: ReadCap, names: seq<string>)
    requires names == SortedNames(Entries(m, l).Keys + Entries(m, r).Keys)
    requires forall j :: 0 <= j < |names| ==> !SubStuck(m, b, l, r, names[j])
    ensures forall x :: !SubStuck(m, b, l, r, x)
  {
    hide SortedNames, MergeStuck;
    forall x ensures !SubStuck(m, b, l, r, x) {
      if x in Entries(m, l) || x in Entries(m, r) { assert x in names; }
    }
  }

  lemma MergeFailed(m: BlobMap, relabel: Labeler, prefix: Path, b: ReadCap, l: ReadCap, r: ReadCap, m': BlobMap, n': nat, e: LoadError)
    requires MergeStuck(m, b, l, r)
    ensures MergeOutcome(m, relabel, prefix, b, l, r, m', n', Err(e))
  {
  }

  lemma ProgressStart(m: BlobMap, n: nat, relabel: Labeler, prefix: Path, b: ReadCap, l: ReadCap, r: ReadCap)
    ensures Progress(m, n, relabel, prefix, b, l, r, [], m, n, [], [])
  {
  }

  /** The store grew while a subdirectory was merged. */
  lemma ProgressGrows(m: BlobMap, n: nat, relabel: Labeler, prefix: Path, b: ReadCap, l: ReadCap, r: ReadCap, done: seq<string>,
                      m1: BlobMap, n1: nat, es: seq<Entry>, conflicts: seq<Path>, m2: BlobMap, n2: nat)
    requires Progress(m, n, relabel, prefix, b, l, r, done, m1, n1, es, conflicts) && Extends(m1, n1, m2, n2)
    ensures Progress(m, n, relabel, prefix, b, l, r, done, m2, n2, es, conflicts)
  {
    hide Reports, Overwrite, AllBindings;
    AllFilledStable(m, relabel, l, r, m1, EntryMap(es), Overwrite(AllBindings(ThreeOf(m, b, l, r), relabel, done, false)), m2);
  }

  lemma WriteNext(t: Three, relabel: Labeler, done: seq<string>, x: string)
    ensures Overwrite(AllBindings(t, relabel, done + [x], false)) ==
            Write(Overwrite(AllBindings(t, relabel, done, false)), NameBindings(t, relabel, x, false))
  {
    hide NameBindings;
    assert (done + [x])[..|done|] == done;
    OverwriteAppend(AllBindings(t, relabel, done, false), NameBindings(t, relabel, x, false));
  }

  lemma ProgressDone(m: BlobMap, n: nat, relabel: Labeler, prefix: Path, b: ReadCap, l: ReadCap, r: ReadCap,
                     m1: BlobMap, n1: nat, out: DirManifest, conflicts: seq<Path>, m2: BlobMap, n2: nat, c: ReadCap)
    requires WellFormed(m, n) && Diverged(b, l, r) && out.meta == MetaOf(m, l)
    requires Progress(m, n, relabel, prefix, b, l, r, SortedNames(Entries(m, l).Keys + Entries(m, r).Keys), m1, n1, out.entries, conflicts)
    requires c.kind == KindDir && c.key == n1 && n2 == n1 + 1 && m2 == m1[c := DirBlob(out)] && c !in m1 && Homed(c)
    requires !MergeStuck(m, b, l, r)
    ensures Extends(m, n, m2, n2) && MergeOutcome(m, relabel, prefix, b, l, r, m2, n2, Ok(Merged(c, conflicts)))
  {
    hide Filled, Overwrite, AllBindings, IsMerge, Reports, ReportsAll, EntriesOk, WellFormed, MergeStuck;
    var t := ThreeOf(m, b, l, r);
    var names := SortedNames(t.l.Keys + t.r.Keys);
    NewInMerge(m, n, m1, n1, c);
    AllFilledStable(m, relabel, l, r, m1, EntryMap(out.entries), Slots(t, relabel, false), m2);
    BuiltMerge(m, relabel, b, l, r, m2, c);
    ReportedAll(m, b, l, r, prefix, (set x | x in names), conflicts);
  }

  lemma NewInMerge(m: BlobMap, n: nat, m1: BlobMap, n1: nat, c: ReadCap)
    requires WellFormed(m, n) && Extends(m, n, m1, n1) && c.key == n1
    ensures c !in m
  {
  }

  lemma BuiltMerge(m: BlobMap, relabel: Labeler, b: ReadCap, l: ReadCap, r: ReadCap, m2: BlobMap, c: ReadCap)
    requires Diverged(b, l, r) && IsDir(m2, c) && c !in m && m2[c].dir.meta == MetaOf(m, l)
    requires AllFilled(m, relabel, l, r, m2, Entries(m2, c), Slots(ThreeOf(m, b, l, r), relabel, false))
    ensures IsMerge(m, relabel, b, l, r, m2, c)
  {
  }

  lemma ReportedAll(m: BlobMap, b: ReadCap, l: ReadCap, r: ReadCap, prefix: Path, names: set<string>, conflicts: seq<Path>)
    requires Reports(m, b, l, r, prefix, names, conflicts)
    requires forall x :: x in Entries(m, l) || x in Entries(m, r) ==> x in names
    ensures ReportsAll(m, b, l, r, prefix, conflicts)
  {
  }

  lemma WriteOne(slots: map<string, Slot>, bd: Binding)
    ensures Write(slots, [bd]) == slots[bd.name := bd.slot]
  {
  }

  lemma WriteTwo(slots: map<string, Slot>, b1: Binding, b2: Binding)
    ensures Write(slots, [b1, b2]) == slots[b1.name := b1.slot][b2.name := b2.slot]
  {
    assert [b1, b2][..1] == [b1];
    WriteOne(slots, b1);
  }

  /** One entry written for x. */
  lemma ProgressOne(m: BlobMap, n: nat, relabel: Labeler, prefix: Path, b: ReadCap, l: ReadCap, r: ReadCap, done: seq<string>,
                    m': BlobMap, n': nat, es: seq<Entry>, conflicts: seq<Path>,
                    x: string, e: Entry, slot: Slot, es': seq<Entry>, conflicts': seq<Path>)
    requires Progress(m, n, relabel, prefix, b, l, r, done, m', n', es, conflicts)
    requires NameBindings(ThreeOf(m, b, l, r), relabel, x, false) == [Binding(x, slot)]
    requires Filled(m, relabel, l, r, m', x, e, slot) && e.name == x
    requires Sorted(es') && EntryMap(es') == EntryMap(es)[x := e] && e.cap.key < n' && Homed(e.cap)
    requires Reports(m, b, l, r, prefix, (set y | y in done) + {x}, conflicts')
    ensures Progress(m, n, relabel, prefix, b, l, r, done + [x], m', n', es', conflicts')
  {
    hide Extends, Reports, Overwrite, AllBindings, NameBindings, Filled, AllFilled, EntriesOk, Sorted;
    var t := ThreeOf(m, b, l, r);
    WriteNext(t, relabel, done, x);
    var slots := Overwrite(AllBindings(t, relabel, done, false));
    WriteOne(slots, Binding(x, slot));
    FillOne(m, relabel, l, r, m', EntryMap(es), slots, e, slot);
    UpsertedOk(es, n', e, es', n');
    assert (set y | y in done + [x]) == (set y | y in done) + {x};
  }

  lemma ProgressNone(m: BlobMap, n: nat, relabel: Labeler, prefix: Path, b: ReadCap, l: ReadCap, r: ReadCap, done: seq<string>,
                     m': BlobMap, n': nat, es: seq<Entry>, conflicts: seq<Path>, x: string)
    requires Progress(m, n, relabel, prefix, b, l, r, done, m', n', es, conflicts)
    requires NameBindings(ThreeOf(m, b, l, r), relabel, x, false) == []
    requires Reports(m, b, l, r, prefix, (set y | y in done) + {x}, conflicts)
    ensures Progress(m, n, relabel, prefix, b, l, r, done + [x], m', n', es, conflicts)
  {
    hide Extends, Reports, Overwrite, AllBindings, NameBindings, Filled;
    WriteNext(ThreeOf(m, b, l, r), relabel, done, x);
    assert (set y | y in done + [x]) == (set y | y in done) + {x};
  }

  /** Local's entry and the conflict copy of remote's. */
  lemma ProgressBoth(m: BlobMap, n: nat, relabel: Labeler, prefix: Path, b: ReadCap, l: ReadCap, r: ReadCap, done: seq<string>,
                     m': BlobMap, n': nat, es: seq<Entry>, conflicts: seq<Path>,
                     x: string, e: Entry, copy: Entry, es': seq<Entry>, conflicts': seq<Path>)
    requires Progress(m, n, relabel, prefix, b, l, r, done, m', n', es, conflicts)
    requires NameBindings(ThreeOf(m, b, l, r), relabel, x, false) == [Binding(x, Take(e)), Binding(relabel(x), Take(copy))]
    requires e.name == x && copy.name == relabel(x)
    requires Sorted(es') && EntryMap(es') == EntryMap(es)[x := e][relabel(x) := copy]
    requires e.cap.key < n' && Homed(e.cap) && copy.cap.key < n' && Homed(copy.cap)
    requires Reports(m, b, l, r, prefix, (set y | y in done) + {x}, conflicts')
    ensures Progress(m, n, relabel, prefix, b, l, r, done + [x], m', n', es', conflicts')
  {
    hide Extends, Reports, Overwrite, AllBindings, NameBindings, AllFilled, Sorted;
    var t := ThreeOf(m, b, l, r);
    WriteNext(t, relabel, done, x);
    var slots := Overwrite(AllBindings(t, relabel, done, false));
    WriteTwo(slots, Binding(x, Take(e)), Binding(relabel(x), Take(copy)));
    FillOne(m, relabel, l, r, m', EntryMap(es), slots, e, Take(e));
    FillOne(m, relabel, l, r, m', EntryMap(es)[x := e], slots[x := Take(e)], copy, Take(copy));
    assert (set y | y in done + [x]) == (set y | y in done) + {x};
  }

  /** One turn of the loop: decide one name and write its entries. */
  method MergeName(s: BlobStore, cfg: Config, prefix: Path, name: string, be: Option<Entry>, le: Option<Entry>, re: Option<Entry>,
                   relabel: Labeler, out: DirManifest, conflicts: seq<Path>,
                   ghost m: BlobMap, ghost n: nat, ghost b: ReadCap, ghost l: ReadCap, ghost r: ReadCap, ghost done: seq<string>)
    returns (res: Result<(DirManifest, seq<Path>), LoadError>)
    requires s.Valid() && cfg.params.Valid() && WellFormed(m, n)
    requires b.key < n && l.key < n && r.key < n && Diverged(b, l, r) && name !in done
    requires var t := ThreeOf(m, b, l, r); be == Get(t.b, name) && le == Get(t.l, name) && re == Get(t.r, name)
    requires Progress(m, n, relabel, prefix, b, l, r, done, s.blobs, s.nextKey, out.entries, conflicts)
    modifies s
    ensures s.Valid() && s.chunks == old(s.chunks) && old(s.live) <= s.live
    ensures (res.Err? <==> SubStuck(m, b, l, r, name)) && (res.Err? ==> Extends(m, n, s.blobs, s.nextKey))
    ensures res.Ok? ==> res.value.0.meta == out.meta
    ensures res.Ok? ==> Progress(m, n, relabel, prefix, b, l, r, done + [name], s.blobs, s.nextKey, res.value.0.entries, res.value.1)
    decreases l.key + r.key, 0
  {
    hide Progress, WellFormed, Backed, EntriesOk, Extends, Reports, Filled, NameBindings, DecideName, MergeStuck;
    ghost var t := ThreeOf(m, b, l, r);
    ghost var names := set y | y in done;
    ProgressEntries(m, n, relabel, prefix, b, l, r, done, s.blobs, s.nextKey, out.entries, conflicts);
    NameFacts(m, n, b, l, r, s.blobs, s.nextKey, name);
    ProgressReports(m, n, relabel, prefix, b, l, r, done, s.blobs, s.nextKey, out.entries, conflicts);
    var d := Decide(CapOf(be), le, re);
    DecisionBindings(t, relabel, name, d);
    if d == Descend {
      res := MergeSub(s, cfg, prefix, name, CapOf(be), le.value.cap, re.value.cap, relabel, out, conflicts, m, n, b, l, r, done);
    } else {
      ReportLeaf(m, b, l, r, prefix, names, conflicts, name);
      var conflicts' := if IsConflict(d) then conflicts + [prefix + [name]] else conflicts;
      if d == Drop {
        ProgressNone(m, n, relabel, prefix, b, l, r, done, s.blobs, s.nextKey, out.entries, conflicts, name);
        res := Ok((out, conflicts'));
      } else if d == Both {
        var copy := re.value.(name := relabel(name));
        var out1 := Upsert(out, le.value);
        var out2 := Upsert(out1, copy);
        ProgressBoth(m, n, relabel, prefix, b, l, r, done, s.blobs, s.nextKey, out.entries, conflicts, name, le.value, copy, out2.entries, conflicts');
        res := Ok((out2, conflicts'));
      } else {
        var e := if d == TakeRemote || d == KeepRemoteEdit then re.value else le.value;
        var out1 := Upsert(out, e);
        TakeFilled(m, relabel, l, r, s.blobs, name, e);
        ProgressOne(m, n, relabel, prefix, b, l, r, done, s.blobs, s.nextKey, out.entries, conflicts, name, e, Take(e), out1.entries, conflicts');
        res := Ok((out1, conflicts'));
      }
    }
  }

  lemma TakeFilled(m: BlobMap, relabel: Labeler, l: ReadCap, r: ReadCap, m': BlobMap, x: string, e: Entry)
    ensures Filled(m, relabel, l, r, m', x, e, Take(e))
  {
  }

  /** What is known of the entries under one name. */
  lemma NameFacts(m: BlobMap, n: nat, b: ReadCap, l: ReadCap, r: ReadCap, m': BlobMap, n': nat, x: string)
    requires WellFormed(m, n) && Extends(m, n, m', n') && b.key < n
    ensures var t := ThreeOf(m, b, l, r);
            && (x in t.l ==> t.l[x].name == x && t.l[x].cap.key < n && t.l[x].cap.key < l.key && Homed(t.l[x].cap))
            && (x in t.r ==> t.r[x].name == x && t.r[x].cap.key < n && t.r[x].cap.key < r.key && Homed(t.r[x].cap))
            && CapOf(Get(t.b, x)).key < n && n <= n' && 0 < n
  {
    EntriesBelow(m, n, b);
    EntriesBelow(m, n, l);
    EntriesBelow(m, n, r);
  }

  lemma DecisionBindings(t: Three, relabel: Labeler, x: string, d: Decision)
    requires d == Decide(CapOf(Get(t.b, x)), Get(t.l, x), Get(t.r, x))
    ensures d == DecideName(t, x, false)
    ensures d in {TakeLocal, KeepLocalEdit, Descend, Both} ==> x in t.l
    ensures d in {TakeRemote, KeepRemoteEdit, Descend, Both} ==> x in t.r
    ensures NameBindings(t, relabel, x, false) ==
            match d {
              case Drop => []
              case Descend => [Binding(x, Sub(CapOf(Get(t.b, x)), t.l[x].cap, t.r[x].cap))]
              case Both => [Binding(x, Take(t.l[x])), Binding(relabel(x), Take(t.r[x].(name := relabel(x))))]
              case TakeRemote => [Binding(x, Take(t.r[x]))]
              case KeepRemoteEdit => [Binding(x, Take(t.r[x]))]
              case TakeLocal => [Binding(x, Take(t.l[x]))]
              case KeepLocalEdit => [Binding(x, Take(t.l[x]))]
            }
  {
  }

  lemma ProgressReports(m: BlobMap, n: nat, relabel: Labeler, prefix: Path, b: ReadCap, l: ReadCap, r: ReadCap,
                        done: seq<string>, m': BlobMap, n': nat, es: seq<Entry>, conflicts: seq<Path>)
    requires Progress(m, n, relabel, prefix, b, l, r, done, m', n', es, conflicts)
    ensures Reports(m, b, l, r, prefix, (set x | x in done), conflicts) && Sorted(es)
  {
  }

  /** Both sides changed a subdirectory: merge it and enter the result under its name. */
  method MergeSub(s: BlobStore, cfg: Config, prefix: Path, name: string, bc: ReadCap, lc: ReadCap, rc: ReadCap,
                  relabel: Labeler, out: DirManifest, conflicts: seq<Path>,
                  ghost m: BlobMap, ghost n: nat, ghost b: ReadCap, ghost l: ReadCap, ghost r: ReadCap, ghost done: seq<string>)
    returns (res: Result<(DirManifest, seq<Path>), LoadError>)
    requires s.Valid() && cfg.params.Valid() && WellFormed(m, n) && Diverged(b, l, r) && name !in done
    requires var t := ThreeOf(m, b, l, r);
             && DecideName(t, name, false) == Descend && name in t.l && name in t.r
             && bc == CapOf(Get(t.b, name)) && lc == t.l[name].cap && rc == t.r[name].cap
             && NameBindings(t, relabel, name, false) == [Binding(name, Sub(bc, lc, rc))]
    requires bc.key < n && lc.key < n && rc.key < n && lc.key < l.key && rc.key < r.key && Homed(lc) && Homed(rc)
    requires Progress(m, n, relabel, prefix, b, l, r, done, s.blobs, s.nextKey, out.entries, conflicts)
    modifies s
    ensures s.Valid() && s.chunks == old(s.chunks) && old(s.live) <= s.live
    ensures (res.Err? <==> SubStuck(m, b, l, r, name)) && (res.Err? ==> Extends(m, n, s.blobs, s.nextKey))
    ensures res.Ok? ==> res.value.0.meta == out.meta
    ensures res.Ok? ==> Progress(m, n, relabel, prefix, b, l, r, done + [name], s.blobs, s.nextKey, res.value.0.entries, res.value.1)
    decreases lc.key + rc.key, 3
  {
    hide Progress, WellFormed, Backed, EntriesOk, Extends, Reports, ReportsAll, Filled, IsMerge, NameBindings, DecideName, MergeStuck;
    ghost var m1, n1 := s.blobs, s.nextKey;
    ProgressEntries(m, n, relabel, prefix, b, l, r, done, m1, n1, out.entries, conflicts);
    KeysLater(m, n, m1, n1);
    var sub := MergeDir(s, cfg, prefix + [name], bc, lc, rc, relabel);
    ExtendsTransitive(m, n, m1, n1, s.blobs, s.nextKey);
    MergeStuckRebase(m, n, m1, n1, bc, lc, rc);
    if sub.Err? {
      res := Err(sub.error);
    } else {
      var e := Entry(name, sub.value.cap, DIR_STAT);
      MergeRebase(m, n, m1, n1, relabel, bc, lc, rc, s.blobs, e.cap);
      ReportRebase(m, n, m1, n1, bc, lc, rc, prefix + [name], sub.value.conflicts);
      SubFilled(m, relabel, l, r, s.blobs, e, bc, lc, rc);
      ProgressGrows(m, n, relabel, prefix, b, l, r, done, m1, n1, out.entries, conflicts, s.blobs, s.nextKey);
      ProgressReports(m, n, relabel, prefix, b, l, r, done, s.blobs, s.nextKey, out.entries, conflicts);
      ReportSub(m, b, l, r, prefix, (set y | y in done), conflicts, name, sub.value.conflicts);
      var out' := Upsert(out, e);
      ProgressOne(m, n, relabel, prefix, b, l, r, done, s.blobs, s.nextKey, out.entries, conflicts, name, e, Sub(bc, lc, rc),
                  out'.entries, conflicts + sub.value.conflicts);
      res := Ok((out', conflicts + sub.value.conflicts));
    }
  }

  lemma KeysLater(m: BlobMap, n: nat, m1: BlobMap, n1: nat)
    requires Extends(m, n, m1, n1)
    ensures n <= n1
  {
  }

  lemma SubFilled(m: BlobMap, relabel: Labeler, l: ReadCap, r: ReadCap, m': BlobMap, e: Entry, bc: ReadCap, lc: ReadCap, rc: ReadCap)
    requires IsMerge(m, relabel, bc, lc, rc, m', e.cap) && lc.key < l.key && rc.key < r.key && e.stat == DIR_STAT
    ensures Filled(m, relabel, l, r, m', e.name, e, Sub(bc, lc, rc))
  {
  }

  // ---------------------------------------------------------------- reading through a grown store

  lemma ThreeRebase(m: BlobMap, n: nat, m1: BlobMap, n1: nat, b: ReadCap, l: ReadCap, r: ReadCap)
    requires WellFormed(m, n) && Extends(m, n, m1, n1) && b.key < n && l.key < n && r.key < n
    ensures ThreeOf(m1, b, l, r) == ThreeOf(m, b, l, r) && MetaOf(m1, l) == MetaOf(m, l)
  {
  }

  /** A merge of old caps is the same merge whether the store is read before or after it grew. */
  lemma {:induction false} MergeRebase(m: BlobMap, n: nat, m1: BlobMap, n1: nat, relabel: Labeler,
                                       b: ReadCap, l: ReadCap, r: ReadCap, m': BlobMap, c: ReadCap)
    requires WellFormed(m, n) && Extends(m, n, m1, n1) && b.key < n && l.key < n && r.key < n
    requires IsMerge(m1, relabel, b, l, r, m', c)
    ensures IsMerge(m, relabel, b, l, r, m', c)
    decreases l.key + r.key
  {
    if Diverged(b, l, r) {
      ThreeRebase(m, n, m1, n1, b, l, r);
      var t := ThreeOf(m, b, l, r);
      var slots := Slots(t, relabel, false);
      forall x | x in slots ensures Filled(m, relabel, l, r, m', x, Entries(m', c)[x], slots[x]) {
        assert Filled(m1, relabel, l, r, m', x, Entries(m', c)[x], slots[x]);
        if slots[x].Sub? {
          SubKeys(m, n, b, l, r, relabel, x);
          MergeRebase(m, n, m1, n1, relabel, slots[x].bc, slots[x].lc, slots[x].rc, m', Entries(m', c)[x].cap);
        }
      }
    }
  }

  lemma SubKeys(m: BlobMap, n: nat, b: ReadCap, l: ReadCap, r: ReadCap, relabel: Labeler, x: string)
    requires WellFormed(m, n) && b.key < n && l.key < n && r.key < n
    requires x in Slots(ThreeOf(m, b, l, r), relabel, false) && Slots(ThreeOf(m, b, l, r), relabel, false)[x].Sub?
    ensures var s := Slots(ThreeOf(m, b, l, r), relabel, false)[x]; s.bc.key < n && s.lc.key < n && s.rc.key < n
  {
    hide WellFormed;
    var t := ThreeOf(m, b, l, r);
    var names := SortedNames(t.l.Keys + t.r.Keys);
    var bs := AllBindings(t, relabel, names, false);
    OverwriteNames(bs);
    var bd := Binding(x, Overwrite(bs)[x]);
    BindingsFrom(t, relabel, names, false);
    var i :| 0 <= i < |names| && bd in NameBindings(t, relabel, names[i], false);
    NameFacts(m, n, b, l, r, m, n, names[i]);
    SubFrom(t, relabel, names[i], bd);
  }

  lemma {:induction false} ConflictRebase(m: BlobMap, n: nat, m1: BlobMap, n1: nat, b: ReadCap, l: ReadCap, r: ReadCap, p: Path)
    requires WellFormed(m, n) && Extends(m, n, m1, n1) && b.key < n && l.key < n && r.key < n
    ensures ConflictAt(m1, b, l, r, p) == ConflictAt(m, b, l, r, p)
    decreases |p|
  {
    hide WellFormed, Extends;
    ThreeRebase(m, n, m1, n1, b, l, r);
    if p != [] {
      NameFacts(m, n, b, l, r, m1, n1, p[0]);
      var t := ThreeOf(m, b, l, r);
      ConflictRebase(m, n, m1, n1, CapOf(Get(t.b, p[0])), CapOf(Get(t.l, p[0])), CapOf(Get(t.r, p[0])), p[1..]);
    }
  }

  lemma ReportRebase(m: BlobMap, n: nat, m1: BlobMap, n1: nat, b: ReadCap, l: ReadCap, r: ReadCap, prefix: Path, conflicts: seq<Path>)
    requires WellFormed(m, n) && Extends(m, n, m1, n1) && b.key < n && l.key < n && r.key < n
    requires ReportsAll(m1, b, l, r, prefix, conflicts)
    ensures ReportsAll(m, b, l, r, prefix, conflicts)
  {
    hide WellFormed, Extends;
    forall p ensures ConflictAt(m1, b, l, r, p) == ConflictAt(m, b, l, r, p) {
      ConflictRebase(m, n, m1, n1, b, l, r, p);
    }
    hide ConflictAt;
  }

  lemma DamageAbove(m: BlobMap, n: nat, b: ReadCap, l: ReadCap, r: ReadCap, x: string)
    requires WellFormed(m, n)
    requires var t := ThreeOf(m, b, l, r);
             Damaged(m, CapOf(Get(t.b, x))) || Damaged(m, CapOf(Get(t.l, x))) || Damaged(m, CapOf(Get(t.r, x)))
    ensures Damaged(m, b) || Damaged(m, l) || Damaged(m, r)
  {
    var t := ThreeOf(m, b, l, r);
    assert !Damaged(m, NO_CAP);
    if Damaged(m, CapOf(Get(t.b, x))) { DamagedBelow(m, n, b, x); }
    if Damaged(m, CapOf(Get(t.l, x))) { DamagedBelow(m, n, l, x); }
    if Damaged(m, CapOf(Get(t.r, x))) { DamagedBelow(m, n, r, x); }
  }
}

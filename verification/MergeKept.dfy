/** Exactly which edits a merge keeps, whatever the conflict labels: the last write to a name stands. */
module MergeKept {
  import opened Core
  import opened Directory
  import opened Blobs
  import opened Merge
  import opened Samples

  // ---------------------------------------------------------------- who writes a name

  /** Visiting y writes the merged name z: as y itself, or as the copy of y's conflict. */
  ghost predicate Writes(t: Three, relabel: Labeler, y: string, z: string) {
    (y == z && DecideName(t, y, false) != Drop) || CopiesTo(t, relabel, y, z)
  }

  ghost predicate CopiesTo(t: Three, relabel: Labeler, y: string, z: string) {
    Conflicted(t, y) && relabel(y) == z
  }

  /** What y writes there: remote's version for a conflict copy, otherwise what was decided for y. */
  ghost function Put(t: Three, relabel: Labeler, y: string, z: string): Slot
    requires Writes(t, relabel, y, z)
  {
    if CopiesTo(t, relabel, y, z) then Take(t.r[y].(name := z))
    else
      var d := DecideName(t, y, false);
      if d == Descend then Sub(CapOf(Get(t.b, y)), t.l[y].cap, t.r[y].cap)
      else if d in {TakeRemote, KeepRemoteEdit} then Take(t.r[y])
      else Take(t.l[y])
  }

  /** The last name in order that writes z. */
  ghost predicate LastWriter(t: Three, relabel: Labeler, z: string, y: string) {
    && Writes(t, relabel, y, z)
    && forall other :: Writes(t, relabel, other, z) && other != y ==> Less(other, y)
  }

  lemma OneLastWriter(t: Three, relabel: Labeler, z: string, x: string, y: string)
    requires LastWriter(t, relabel, z, x) && LastWriter(t, relabel, z, y)
    ensures x == y
  {
    LessTrichotomy(x, y);
  }

  /** A name that writes anything is one of the two sides'. */
  lemma WriterListed(t: Three, relabel: Labeler, y: string, z: string)
    requires Writes(t, relabel, y, z)
    ensures y in t.l.Keys + t.r.Keys
  {
  }

  lemma {:induction false} LastExists(t: Three, relabel: Labeler, names: seq<string>, z: string, x: string) returns (y: string)
    requires x in names && Writes(t, relabel, x, z)
    ensures y in names && Writes(t, relabel, y, z)
    ensures forall other :: other in names && Writes(t, relabel, other, z) && other != y ==> Less(other, y)
  {
    hide Writes, Less;
    var front, last := names[..|names| - 1], names[|names| - 1];
    assert forall other :: other in names <==> other in front || other == last;
    y := x;
    if exists other :: other in front && Writes(t, relabel, other, z) {
      var other :| other in front && Writes(t, relabel, other, z);
      y := LastExists(t, relabel, front, z, other);
      LessTrichotomy(y, last);
      if Writes(t, relabel, last, z) && Less(y, last) {
        forall other | other in names && Writes(t, relabel, other, z) && other != last ensures Less(other, last) {
          if other != y { LessTransitive(other, y, last); }
        }
        y := last;
      }
    }
  }

  lemma SomeLastWriter(t: Three, relabel: Labeler, z: string, x: string) returns (y: string)
    requires Writes(t, relabel, x, z)
    ensures LastWriter(t, relabel, z, y)
  {
    hide Writes;
    var names := SortedNames(t.l.Keys + t.r.Keys);
    WriterListed(t, relabel, x, z);
    y := LastExists(t, relabel, names, z, x);
    forall other | Writes(t, relabel, other, z) && other != y ensures Less(other, y) {
      WriterListed(t, relabel, other, z);
      assert other in names;
    }
  }

  // ---------------------------------------------------------------- what a name ends up holding

  lemma {:induction false} OverwriteJoin(a: seq<Binding>, b: seq<Binding>)
    ensures Overwrite(a + b) == Overwrite(a) + Overwrite(b)
  {
    if b == [] {
      assert a + b == a;
    } else {
      OverwriteJoin(a, b[..|b| - 1]);
      assert (a + b)[..|a + b| - 1] == a + b[..|b| - 1];
    }
  }

  /** The writes of one name are the ones described above. */
  lemma NameWrites(t: Three, relabel: Labeler, y: string, z: string)
    ensures var w := Overwrite(NameBindings(t, relabel, y, false));
            (z in w <==> Writes(t, relabel, y, z)) && (z in w ==> w[z] == Put(t, relabel, y, z))
  {
    var bs := NameBindings(t, relabel, y, false);
    if |bs| == 2 {
      assert bs[..1] == [bs[0]] && bs[..1][..0] == [];
      assert Overwrite(bs[..1]) == map[bs[0].name := bs[0].slot];
    } else if |bs| == 1 {
      assert bs[..0] == [];
    }
  }

  lemma {:induction false} HoldsLast(t: Three, relabel: Labeler, names: seq<string>, z: string, y: string)
    requires y in names && Writes(t, relabel, y, z) && forall i, j :: 0 <= i < j < |names| ==> Less(names[i], names[j])
    requires forall other :: other in names && Writes(t, relabel, other, z) && other != y ==> Less(other, y)
    ensures var w := Overwrite(AllBindings(t, relabel, names, false));
            z in w && w[z] == Put(t, relabel, y, z)
  {
    hide Writes, Put, NameBindings, Less, Overwrite;
    var front, last := names[..|names| - 1], names[|names| - 1];
    NameWrites(t, relabel, last, z);
    OverwriteJoin(AllBindings(t, relabel, front, false), NameBindings(t, relabel, last, false));
    if last != y {
      LessTrichotomy(y, last);
      var i :| 0 <= i < |names| && names[i] == y;
      assert front[i] == y && Less(names[i], last);
      HoldsLast(t, relabel, front, z, y);
    }
  }

  lemma {:induction false} HoldsNothing(t: Three, relabel: Labeler, names: seq<string>, z: string)
    requires forall y :: !Writes(t, relabel, y, z)
    ensures z !in Overwrite(AllBindings(t, relabel, names, false))
  {
    hide Writes, Put, NameBindings;
    if names != [] {
      var front, last := names[..|names| - 1], names[|names| - 1];
      HoldsNothing(t, relabel, front, z);
      NameWrites(t, relabel, last, z);
      OverwriteJoin(AllBindings(t, relabel, front, false), NameBindings(t, relabel, last, false));
    }
  }

  /** The merged directory holds under z what the last name to write z put there, and nothing if none did. */
  lemma SlotIsLastWrite(t: Three, relabel: Labeler, z: string)
    ensures z in Slots(t, relabel, false) <==> exists y :: Writes(t, relabel, y, z)
    ensures forall y :: LastWriter(t, relabel, z, y) ==>
              z in Slots(t, relabel, false) && Slots(t, relabel, false)[z] == Put(t, relabel, y, z)
  {
    hide Writes, Put;
    var names := SortedNames(t.l.Keys + t.r.Keys);
    if exists y :: Writes(t, relabel, y, z) {
      var x :| Writes(t, relabel, x, z);
      var y := SomeLastWriter(t, relabel, z, x);
      WriterListed(t, relabel, y, z);
      assert y in names;
      HoldsLast(t, relabel, names, z, y);
      forall other | LastWriter(t, relabel, z, other) ensures other == y { OneLastWriter(t, relabel, z, other, y); }
    } else {
      HoldsNothing(t, relabel, names, z);
    }
  }

  // ---------------------------------------------------------------- what the merged tree holds

  /** The merged tree has v at q, read off the three inputs: directory by directory, the last write to each name. */
  ghost predicate Holds(m: BlobMap, relabel: Labeler, b: ReadCap, l: ReadCap, r: ReadCap, q: Path, v: ReadCap)
    decreases |q|, 0
  {
    if !Diverged(b, l, r) then Resolve(m, Shortcut(b, l, r), q) == Some(v)
    else
      var t := ThreeOf(m, b, l, r);
      && q != []
      && (exists y :: Writes(t, relabel, y, q[0]))
      && forall y :: LastWriter(t, relabel, q[0], y) ==> SlotHolds(m, relabel, Put(t, relabel, y, q[0]), q[1..], v)
  }

  ghost predicate SlotHolds(m: BlobMap, relabel: Labeler, slot: Slot, q: Path, v: ReadCap)
    decreases |q|, 1
  {
    match slot
    case Take(e) => Resolve(m, e.cap, q) == Some(v)
    case Sub(bc, lc, rc) => Holds(m, relabel, bc, lc, rc, q, v)
  }

  lemma {:induction false} MergedHolds(m: BlobMap, n: nat, relabel: Labeler, b: ReadCap, l: ReadCap, r: ReadCap,
                                       m': BlobMap, n': nat, c: ReadCap, q: Path, v: ReadCap)
    requires WellFormed(m, n) && Extends(m, n, m', n') && l.key < n && r.key < n
    requires IsMerge(m, relabel, b, l, r, m', c) && v.kind != KindDir
    ensures Resolve(m', c, q) == Some(v) <==> Holds(m, relabel, b, l, r, q, v)
    decreases |q|
  {
    hide WellFormed, Extends, Writes, Put, Slots, LastWriter;
    if !Diverged(b, l, r) {
      ResolveStable(m, n, m', n', Shortcut(b, l, r), q);
    } else if q != [] {
      var t := ThreeOf(m, b, l, r);
      SlotIsLastWrite(t, relabel, q[0]);
      MergeStep(m, n, relabel, b, l, r, m', n', c, q);
      if exists y :: Writes(t, relabel, y, q[0]) {
        var x :| Writes(t, relabel, x, q[0]);
        var y := SomeLastWriter(t, relabel, q[0], x);
        forall other | LastWriter(t, relabel, q[0], other) ensures other == y { OneLastWriter(t, relabel, q[0], other, y); }
        SlotResolves(m, n, relabel, b, l, r, m', n', c, q, y, v);
      }
    }
  }

  lemma {:induction false} SlotResolves(m: BlobMap, n: nat, relabel: Labeler, b: ReadCap, l: ReadCap, r: ReadCap,
                     m': BlobMap, n': nat, c: ReadCap, q: Path, y: string, v: ReadCap)
    requires WellFormed(m, n) && Extends(m, n, m', n') && l.key < n && r.key < n && q != []
    requires IsMerge(m, relabel, b, l, r, m', c) && Diverged(b, l, r) && v.kind != KindDir
    requires LastWriter(ThreeOf(m, b, l, r), relabel, q[0], y)
    ensures Resolve(m', c, q) == Some(v) <==> SlotHolds(m, relabel, Put(ThreeOf(m, b, l, r), relabel, y, q[0]), q[1..], v)
    decreases |q|, 0
  {
    hide WellFormed, Extends, Slots, IsMerge, Resolve;
    var t := ThreeOf(m, b, l, r);
    SlotIsLastWrite(t, relabel, q[0]);
    MergeStep(m, n, relabel, b, l, r, m', n', c, q);
    EntriesBelow(m, n, l);
    EntriesBelow(m, n, r);
    var slot := Put(t, relabel, y, q[0]);
    if slot.Take? {
      ResolveStable(m, n, m', n', slot.entry.cap, q[1..]);
    } else {
      MergedHolds(m, n, relabel, slot.bc, slot.lc, slot.rc, m', n', Entries(m', c)[q[0]].cap, q[1..], v);
    }
  }

  // ---------------------------------------------------------------- edits

  /**
   * On the way to local's edit, the last write to each name is that name's own, or it is a conflict copy
   * that happens to hold the same cap below.
   */
  ghost predicate LocalKept(m: BlobMap, relabel: Labeler, b: ReadCap, l: ReadCap, r: ReadCap, p: Path, v: ReadCap)
    decreases |p|
  {
    Diverged(b, l, r) && p != [] ==>
      var t, x := ThreeOf(m, b, l, r), p[0];
      forall y :: LastWriter(t, relabel, x, y) ==>
        if CopiesTo(t, relabel, y, x) then Resolve(m, t.r[y].cap, p[1..]) == Some(v)
        else DecideName(t, x, false) == Descend ==>
          LocalKept(m, relabel, CapOf(Get(t.b, x)), CapOf(Get(t.l, x)), CapOf(Get(t.r, x)), p[1..], v)
  }

  /** The name that carries remote's side of x. */
  ghost function Carrier(t: Three, relabel: Labeler, x: string): string {
    if Conflicted(t, x) then relabel(x) else x
  }

  /** Where the merge puts what remote has at p: the first conflicted name on the way takes its label. */
  ghost function CarriedTo(m: BlobMap, relabel: Labeler, b: ReadCap, l: ReadCap, r: ReadCap, p: Path): (q: Path)
    ensures |q| == |p|
    decreases |p|
  {
    if p == [] || !Diverged(b, l, r) then p
    else
      var t, x := ThreeOf(m, b, l, r), p[0];
      [Carrier(t, relabel, x)] +
      if DecideName(t, x, false) != Descend then p[1..]
      else CarriedTo(m, relabel, CapOf(Get(t.b, x)), CapOf(Get(t.l, x)), CapOf(Get(t.r, x)), p[1..])
  }

  /**
   * On the way to remote's edit, the last write to each name that carries it is the one that carries it, or
   * what a later name put there happens to hold the same cap below.
   */
  ghost predicate RemoteKept(m: BlobMap, relabel: Labeler, b: ReadCap, l: ReadCap, r: ReadCap, p: Path, v: ReadCap)
    decreases |p|
  {
    Diverged(b, l, r) && p != [] ==>
      var t, x := ThreeOf(m, b, l, r), p[0];
      var z, sub := Carrier(t, relabel, x), DecideName(t, x, false) == Descend;
      forall y :: LastWriter(t, relabel, z, y) ==>
        if y != x then
          SlotHolds(m, relabel, Put(t, relabel, y, z), CarriedTo(m, relabel, b, l, r, p)[1..], v)
        else sub ==>
          RemoteKept(m, relabel, CapOf(Get(t.b, x)), CapOf(Get(t.l, x)), CapOf(Get(t.r, x)), p[1..], v)
  }

  /** A leaf one side has at p and base has not. */
  ghost predicate Edit(m: BlobMap, b: ReadCap, side: ReadCap, p: Path, v: ReadCap) {
    p != [] && v.kind != KindDir && Resolve(m, side, p) == Some(v) && Resolve(m, b, p) != Some(v)
  }

  lemma EditBelow(m: BlobMap, n: nat, b: ReadCap, side: ReadCap, p: Path, v: ReadCap)
    requires WellFormed(m, n) && Edit(m, b, side, p, v)
    ensures p[0] in Entries(m, side) && Entries(m, side)[p[0]].cap != NO_CAP
    ensures var bc, sc := CapOf(Get(Entries(m, b), p[0])), Entries(m, side)[p[0]].cap;
            && sc != bc && Resolve(m, sc, p[1..]) == Some(v)
            && (sc.kind == KindDir ==> Edit(m, bc, sc, p[1..], v))
  {
    EntriesBelow(m, n, side);
    if p[0] !in Entries(m, b) {
      assert Entries(m, NO_CAP) == map[];
    }
  }

  lemma HoldsVia(m: BlobMap, relabel: Labeler, b: ReadCap, l: ReadCap, r: ReadCap, q: Path, v: ReadCap, y: string)
    requires Diverged(b, l, r) && q != [] && LastWriter(ThreeOf(m, b, l, r), relabel, q[0], y)
    ensures Holds(m, relabel, b, l, r, q, v) <==> SlotHolds(m, relabel, Put(ThreeOf(m, b, l, r), relabel, y, q[0]), q[1..], v)
  {
    hide Resolve, SlotHolds, Writes, Put;
    var t := ThreeOf(m, b, l, r);
    forall other | LastWriter(t, relabel, q[0], other) ensures other == y { OneLastWriter(t, relabel, q[0], other, y); }
  }

  /** Local's changed entry is what its own name writes, unless both sides changed a directory. */
  lemma LocalPut(t: Three, relabel: Labeler, x: string)
    requires x in t.l && t.l[x].cap != NO_CAP && t.l[x].cap != CapOf(Get(t.b, x))
    ensures Writes(t, relabel, x, x)
    ensures forall y :: LastWriter(t, relabel, x, y) && !CopiesTo(t, relabel, y, x) ==>
              && y == x
              && (DecideName(t, x, false) != Descend ==> Put(t, relabel, x, x) == Take(t.l[x]))
  {
  }

  /** Remote's changed entry is what its name writes to the carrier, unless both sides changed a directory. */
  lemma RemotePut(t: Three, relabel: Labeler, x: string)
    requires x in t.r && t.r[x].cap != NO_CAP && t.r[x].cap != CapOf(Get(t.b, x))
    ensures var z := Carrier(t, relabel, x);
            && Writes(t, relabel, x, z)
            && (DecideName(t, x, false) != Descend ==> Put(t, relabel, x, z).Take? && Put(t, relabel, x, z).entry.cap == t.r[x].cap)
  {
  }

  lemma SubPut(t: Three, relabel: Labeler, x: string)
    requires DecideName(t, x, false) == Descend
    ensures Carrier(t, relabel, x) == x && Writes(t, relabel, x, x) && !CopiesTo(t, relabel, x, x)
    ensures Put(t, relabel, x, x) == Sub(CapOf(Get(t.b, x)), CapOf(Get(t.l, x)), CapOf(Get(t.r, x)))
    ensures CapOf(Get(t.l, x)).kind == KindDir && CapOf(Get(t.r, x)).kind == KindDir
  {
  }

  lemma {:induction false} LocalHolds(m: BlobMap, n: nat, relabel: Labeler, b: ReadCap, l: ReadCap, r: ReadCap, p: Path, v: ReadCap)
    requires WellFormed(m, n) && Edit(m, b, l, p, v)
    ensures Holds(m, relabel, b, l, r, p, v) <==> LocalKept(m, relabel, b, l, r, p, v)
    decreases |p|
  {
    hide WellFormed, Writes, LastWriter, CopiesTo, DecideName;
    if Diverged(b, l, r) {
      var t, x := ThreeOf(m, b, l, r), p[0];
      EditBelow(m, n, b, l, p, v);
      hide Resolve, Edit;
      LocalPut(t, relabel, x);
      var y := SomeLastWriter(t, relabel, x, x);
      forall other | LastWriter(t, relabel, x, other) ensures other == y { OneLastWriter(t, relabel, x, other, y); }
      HoldsVia(m, relabel, b, l, r, p, v, y);
      if DecideName(t, x, false) == Descend {
        SubPut(t, relabel, x);
        LocalHolds(m, n, relabel, CapOf(Get(t.b, x)), CapOf(Get(t.l, x)), CapOf(Get(t.r, x)), p[1..], v);
      }
    }
  }

  lemma {:induction false} RemoteHolds(m: BlobMap, n: nat, relabel: Labeler, b: ReadCap, l: ReadCap, r: ReadCap, p: Path, v: ReadCap)
    requires WellFormed(m, n) && Edit(m, b, r, p, v)
    ensures Holds(m, relabel, b, l, r, CarriedTo(m, relabel, b, l, r, p), v) <==> RemoteKept(m, relabel, b, l, r, p, v)
    decreases |p|
  {
    hide WellFormed, Writes, LastWriter, CopiesTo, DecideName, Carrier, Put, Holds;
    if Diverged(b, l, r) {
      var t, x := ThreeOf(m, b, l, r), p[0];
      EditBelow(m, n, b, r, p, v);
      hide Resolve, Edit;
      RemotePut(t, relabel, x);
      var z, q := Carrier(t, relabel, x), CarriedTo(m, relabel, b, l, r, p);
      var y := SomeLastWriter(t, relabel, z, x);
      forall other | LastWriter(t, relabel, z, other) ensures other == y { OneLastWriter(t, relabel, z, other, y); }
      HoldsVia(m, relabel, b, l, r, q, v, y);
      if DecideName(t, x, false) == Descend {
        SubPut(t, relabel, x);
        var bc, lc, rc := CapOf(Get(t.b, x)), CapOf(Get(t.l, x)), CapOf(Get(t.r, x));
        assert q[1..] == CarriedTo(m, relabel, bc, lc, rc, p[1..]);
        RemoteHolds(m, n, relabel, bc, lc, rc, p[1..], v);
      } else {
        assert q[1..] == p[1..];
      }
    } else {
      HoldsShortcut(m, relabel, b, l, r, p, v);
    }
  }

  lemma HoldsShortcut(m: BlobMap, relabel: Labeler, b: ReadCap, l: ReadCap, r: ReadCap, p: Path, v: ReadCap)
    requires !Diverged(b, l, r)
    ensures Holds(m, relabel, b, l, r, p, v) <==> Resolve(m, Shortcut(b, l, r), p) == Some(v)
  {
  }

  /** A leaf local added or changed survives at its path exactly when no later write buries it on the way. */
  lemma LocalEditSurvivesIff(m: BlobMap, n: nat, relabel: Labeler, b: ReadCap, l: ReadCap, r: ReadCap,
                             m': BlobMap, n': nat, c: ReadCap, p: Path, v: ReadCap)
    requires WellFormed(m, n) && Extends(m, n, m', n') && l.key < n && r.key < n
    requires IsMerge(m, relabel, b, l, r, m', c) && Edit(m, b, l, p, v)
    ensures Resolve(m', c, p) == Some(v) <==> LocalKept(m, relabel, b, l, r, p, v)
  {
    MergedHolds(m, n, relabel, b, l, r, m', n', c, p, v);
    LocalHolds(m, n, relabel, b, l, r, p, v);
  }

  /** A leaf remote added or changed survives where the merge carries it exactly when no later write buries it. */
  lemma RemoteEditSurvivesIff(m: BlobMap, n: nat, relabel: Labeler, b: ReadCap, l: ReadCap, r: ReadCap,
                              m': BlobMap, n': nat, c: ReadCap, p: Path, v: ReadCap)
    requires WellFormed(m, n) && Extends(m, n, m', n') && l.key < n && r.key < n
    requires IsMerge(m, relabel, b, l, r, m', c) && Edit(m, b, r, p, v)
    ensures Resolve(m', c, CarriedTo(m, relabel, b, l, r, p)) == Some(v) <==> RemoteKept(m, relabel, b, l, r, p, v)
  {
    MergedHolds(m, n, relabel, b, l, r, m', n', c, CarriedTo(m, relabel, b, l, r, p), v);
    RemoteHolds(m, n, relabel, b, l, r, p, v);
  }

  lemma {:induction false} CarriedOnce(m: BlobMap, relabel: Labeler, b: ReadCap, l: ReadCap, r: ReadCap, p: Path)
    ensures OneChanged(relabel, p, CarriedTo(m, relabel, b, l, r, p))
    decreases |p|
  {
    hide DecideName, OneChanged, ThreeOf, Diverged;
    if p != [] && Diverged(b, l, r) {
      var t, x, q := ThreeOf(m, b, l, r), p[0], CarriedTo(m, relabel, b, l, r, p);
      assert p == [x] + p[1..];
      if DecideName(t, x, false) == Descend {
        var bc, lc, rc := CapOf(Get(t.b, x)), CapOf(Get(t.l, x)), CapOf(Get(t.r, x));
        CarriedOnce(m, relabel, bc, lc, rc, p[1..]);
        SameFirst(relabel, x, p[1..], CarriedTo(m, relabel, bc, lc, rc, p[1..]));
      } else {
        NewFirst(relabel, x, p[1..]);
      }
    } else {
      Unchanged(relabel, p);
    }
  }

  ghost predicate OneChanged(relabel: Labeler, p: Path, q: Path) {
    q == p || exists i :: 0 <= i < |p| && q == p[i := relabel(p[i])]
  }

  lemma Unchanged(relabel: Labeler, p: Path)
    ensures OneChanged(relabel, p, p)
  {
  }

  lemma SameFirst(relabel: Labeler, x: string, p: Path, q: Path)
    requires OneChanged(relabel, p, q)
    ensures OneChanged(relabel, [x] + p, [x] + q)
  {
    if q != p {
      var i :| 0 <= i < |p| && q == p[i := relabel(p[i])];
      assert [x] + q == ([x] + p)[i + 1 := relabel(([x] + p)[i + 1])];
    }
  }

  lemma NewFirst(relabel: Labeler, x: string, p: Path)
    ensures OneChanged(relabel, [x] + p, [x] + p) && OneChanged(relabel, [x] + p, [relabel(x)] + p)
  {
    assert [relabel(x)] + p == ([x] + p)[0 := relabel(([x] + p)[0])];
  }

  /** An edit found where the merge carries it is at its path, or under one conflict label. */
  lemma CarriedIsFound(m: BlobMap, relabel: Labeler, b: ReadCap, l: ReadCap, r: ReadCap, m': BlobMap, c: ReadCap, p: Path, v: ReadCap)
    requires Resolve(m', c, CarriedTo(m, relabel, b, l, r, p)) == Some(v)
    ensures FoundAs(m', c, relabel, p, v)
  {
    hide Resolve;
    CarriedOnce(m, relabel, b, l, r, p);
  }

  // ---------------------------------------------------------------- fresh labels

  lemma FreshLocal(t: Three, relabel: Labeler, x: string, y: string)
    requires FreshLabels(t, relabel) && x in t.l && LastWriter(t, relabel, x, y)
    ensures !CopiesTo(t, relabel, y, x)
  {
  }

  lemma FreshRemote(t: Three, relabel: Labeler, x: string, y: string)
    requires FreshLabels(t, relabel) && x in t.r && LastWriter(t, relabel, Carrier(t, relabel, x), y)
    ensures y == x
  {
    WriterListed(t, relabel, y, Carrier(t, relabel, x));
  }

  /** Labels no one uses bury nothing. */
  lemma {:induction false} FreshKeepsLocal(m: BlobMap, n: nat, relabel: Labeler, b: ReadCap, l: ReadCap, r: ReadCap, p: Path, v: ReadCap)
    requires WellFormed(m, n) && Edit(m, b, l, p, v) && FreshAlong(m, relabel, b, l, r, p)
    ensures LocalKept(m, relabel, b, l, r, p, v)
    decreases |p|
  {
    hide WellFormed, LastWriter, CopiesTo, DecideName, FreshLabels, Resolve, Edit;
    if Diverged(b, l, r) && p != [] {
      var t, x := ThreeOf(m, b, l, r), p[0];
      EditBelow(m, n, b, l, p, v);
      forall y | LastWriter(t, relabel, x, y) ensures !CopiesTo(t, relabel, y, x) { FreshLocal(t, relabel, x, y); }
      if DecideName(t, x, false) == Descend {
        SubPut(t, relabel, x);
        FreshKeepsLocal(m, n, relabel, CapOf(Get(t.b, x)), CapOf(Get(t.l, x)), CapOf(Get(t.r, x)), p[1..], v);
      }
    }
  }

  lemma {:induction false} FreshKeepsRemote(m: BlobMap, n: nat, relabel: Labeler, b: ReadCap, l: ReadCap, r: ReadCap, p: Path, v: ReadCap)
    requires WellFormed(m, n) && Edit(m, b, r, p, v) && FreshAlong(m, relabel, b, l, r, p)
    ensures RemoteKept(m, relabel, b, l, r, p, v)
    decreases |p|
  {
    hide WellFormed, LastWriter, Carrier, DecideName, FreshLabels, Resolve, Edit, Put, SlotHolds, CarriedTo;
    if Diverged(b, l, r) && p != [] {
      var t, x := ThreeOf(m, b, l, r), p[0];
      EditBelow(m, n, b, r, p, v);
      forall y | LastWriter(t, relabel, Carrier(t, relabel, x), y) ensures y == x { FreshRemote(t, relabel, x, y); }
      if DecideName(t, x, false) == Descend {
        SubPut(t, relabel, x);
        FreshKeepsRemote(m, n, relabel, CapOf(Get(t.b, x)), CapOf(Get(t.l, x)), CapOf(Get(t.r, x)), p[1..], v);
      }
    }
  }

  /** Under fresh labels a leaf local added or changed since base keeps its cap at its own path. */
  lemma LocalEditKept(m: BlobMap, n: nat, relabel: Labeler, b: ReadCap, l: ReadCap, r: ReadCap,
                      m': BlobMap, n': nat, c: ReadCap, p: Path, v: ReadCap)
    requires WellFormed(m, n) && Extends(m, n, m', n') && l.key < n && r.key < n
    requires IsMerge(m, relabel, b, l, r, m', c) && FreshAlong(m, relabel, b, l, r, p) && Edit(m, b, l, p, v)
    ensures Resolve(m', c, p) == Some(v)
  {
    hide *;
    FreshKeepsLocal(m, n, relabel, b, l, r, p, v);
    LocalEditSurvivesIff(m, n, relabel, b, l, r, m', n', c, p, v);
  }

  /** Under fresh labels a leaf remote added or changed since base is at its path or under one conflict label. */
  lemma RemoteEditKept(m: BlobMap, n: nat, relabel: Labeler, b: ReadCap, l: ReadCap, r: ReadCap,
                       m': BlobMap, n': nat, c: ReadCap, p: Path, v: ReadCap)
    requires WellFormed(m, n) && Extends(m, n, m', n') && l.key < n && r.key < n
    requires IsMerge(m, relabel, b, l, r, m', c) && FreshAlong(m, relabel, b, l, r, p) && Edit(m, b, r, p, v)
    ensures FoundAs(m', c, relabel, p, v)
  {
    hide *;
    FreshKeepsRemote(m, n, relabel, b, l, r, p, v);
    RemoteEditSurvivesIff(m, n, relabel, b, l, r, m', n', c, p, v);
    CarriedIsFound(m, relabel, b, l, r, m', c, p, v);
  }

  // ---------------------------------------------------------------- an edit that is lost

  /** Base has "a"; both sides changed it, and local already has a file under the conflict label "a!". */
  function ClashStore(): BlobMap {
    Add(Add(Add(map[], 5, [Named("a", FileCap(1))]), 6, [Named("a", FileCap(2)), Named("a!", FileCap(4))]), 7, [Named("a", FileCap(3))])
  }

  /** The store after the merge: local's entries under a new cap. */
  function ClashMerge(): BlobMap {
    ClashStore()[DirCap(8) := ClashStore()[DirCap(6)]]
  }

  lemma ClashEntries()
    ensures var m, m', c := ClashStore(), ClashMerge(), DirCap(8);
            && WellFormed(m, 8) && ThreeOf(m, DirCap(5), DirCap(6), DirCap(7)) == ClashThree()
            && IsDir(m', c) && c !in m && m'[c].dir.meta == MetaOf(m, DirCap(6)) && Entries(m', c) == ClashThree().l
  {
    hide WellFormed, EntryMap;
    NothingStored(5);
    var m5 := Add(map[], 5, [Named("a", FileCap(1))]);
    AddedOne(map[], 5, Named("a", FileCap(1)));
    ClashNames();
    var m6 := Add(m5, 6, [Named("a", FileCap(2)), Named("a!", FileCap(4))]);
    AddedTwo(m5, 6, Named("a", FileCap(2)), Named("a!", FileCap(4)));
    AddedOne(m6, 7, Named("a", FileCap(3)));
  }

  function ClashThree(): Three {
    Three(map["a" := Named("a", FileCap(1))],
          map["a" := Named("a", FileCap(2)), "a!" := Named("a!", FileCap(4))],
          map["a" := Named("a", FileCap(3))])
  }

  lemma ClashSlots(relabel: Labeler)
    requires relabel("a") == "a!"
    ensures Slots(ClashThree(), relabel, false) == map["a" := Take(Named("a", FileCap(2))), "a!" := Take(Named("a!", FileCap(4)))]
  {
    var t := ClashThree();
    var mine, copy, other := Binding("a", Take(Named("a", FileCap(2)))), Binding("a!", Take(Named("a!", FileCap(3)))), Binding("a!", Take(Named("a!", FileCap(4))));
    assert t.l.Keys + t.r.Keys == {"a", "a!"};
    ConflictWrites(relabel);
    OtherWrites(relabel);
    hide NameBindings, SortedNames, Less, ClashThree, Named, FileCap, Overwrite, AllBindings;
    ClashNames();
    TwoNames(t, relabel, "a", "a!", [mine, copy], [other]);
    OverwriteThree(mine, copy, other);
  }

  lemma ConflictWrites(relabel: Labeler)
    requires relabel("a") == "a!"
    ensures NameBindings(ClashThree(), relabel, "a", false) ==
            [Binding("a", Take(Named("a", FileCap(2)))), Binding("a!", Take(Named("a!", FileCap(3))))]
  {
  }

  lemma OtherWrites(relabel: Labeler)
    ensures NameBindings(ClashThree(), relabel, "a!", false) == [Binding("a!", Take(Named("a!", FileCap(4))))]
  {
  }

  lemma ClashNames()
    ensures SortedNames({"a", "a!"}) == ["a", "a!"] && Less("a", "a!")
  {
    var names := ["a", "a!"];
    assert "a"[1..] == "" && "a!"[1..] == "!";
    assert Less("a", "a!");
    assert "a" == names[0] && "a!" == names[1];
    ListingUnique(names, SortedNames({"a", "a!"}), {"a", "a!"});
  }

  lemma OverwriteThree(x: Binding, y: Binding, z: Binding)
    ensures Overwrite([x, y] + [z]) == map[x.name := x.slot][y.name := y.slot][z.name := z.slot]
  {
    assert ([x, y] + [z])[..2] == [x, y] && [x, y][..1] == [x] && [x][..0] == [];
    assert Overwrite([x]) == map[x.name := x.slot];
    assert Overwrite([x, y]) == map[x.name := x.slot][y.name := y.slot];
  }

  lemma TwoNames(t: Three, relabel: Labeler, x: string, y: string, bsX: seq<Binding>, bsY: seq<Binding>)
    requires bsX == NameBindings(t, relabel, x, false) && bsY == NameBindings(t, relabel, y, false)
    ensures AllBindings(t, relabel, [x, y], false) == bsX + bsY
  {
    hide NameBindings;
    assert [x, y][..1] == [x] && [x][..0] == [];
    assert AllBindings(t, relabel, [x], false) == [] + bsX;
  }

  /**
   * An edit can be lost: writing local's file of that name replaces the copy of remote's edit, which then is
   * nowhere the merge could have put it.
   */
  lemma LabelClashLosesEdit(relabel: Labeler) returns (m: BlobMap, b: ReadCap, l: ReadCap, r: ReadCap, m': BlobMap, c: ReadCap, v: ReadCap)
    requires relabel("a") == "a!"
    ensures WellFormed(m, 8) && Extends(m, 8, m', 9) && l.key < 8 && r.key < 8
    ensures IsMerge(m, relabel, b, l, r, m', c) && Edit(m, b, r, ["a"], v) && !FoundAs(m', c, relabel, ["a"], v)
  {
    hide *;
    m, b, l, r, m', c := ClashStore(), DirCap(5), DirCap(6), DirCap(7), ClashMerge(), DirCap(8);
    v := Named("a", FileCap(3)).cap;
    ClashEntries();
    ClashExtends();
    ClashMerged(relabel);
    ClashLost(relabel);
  }

  lemma ClashExtends()
    ensures Extends(ClashStore(), 8, ClashMerge(), 9) && DirCap(6).key < 8 && DirCap(7).key < 8
  {
  }

  lemma ClashMerged(relabel: Labeler)
    requires relabel("a") == "a!"
    ensures IsMerge(ClashStore(), relabel, DirCap(5), DirCap(6), DirCap(7), ClashMerge(), DirCap(8))
  {
    hide ClashStore, ClashMerge, Slots, Entries, MetaOf, IsDir, Named, FileCap, ThreeOf;
    ClashEntries();
    ClashSlots(relabel);
  }

  lemma ClashLost(relabel: Labeler)
    requires relabel("a") == "a!"
    ensures Edit(ClashStore(), DirCap(5), DirCap(7), ["a"], Named("a", FileCap(3)).cap)
    ensures !FoundAs(ClashMerge(), DirCap(8), relabel, ["a"], Named("a", FileCap(3)).cap)
  {
    hide ClashStore, ClashMerge, Entries, Resolve;
    ClashEntries();
    OneStep(ClashStore(), DirCap(5), "a");
    OneStep(ClashStore(), DirCap(7), "a");
    OneStep(ClashMerge(), DirCap(8), "a");
    OneStep(ClashMerge(), DirCap(8), "a!");
    assert ["a"][0 := relabel("a")] == ["a!"];
  }
}

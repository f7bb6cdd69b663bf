/** Change enumeration between two roots, pruned by cap equality. */
module Diff {
  import opened Core
  import opened Directory
  import opened Blobs
  import opened Samples

  datatype ChangeType = Added | Modified | Deleted

  datatype Change = Change(kind: ChangeType, path: Path, item: Option<Entry>)

  // ---------------------------------------------------------------- what is reported

  /** The plain difference of two full listings at one path. */
  function PlainDiff(o: Option<ReadCap>, w: Option<ReadCap>): Option<ChangeType> {
    if o.None? && w.Some? then Some(Added)
    else if o.Some? && w.None? then Some(Deleted)
    else if o.Some? && w.Some? && o != w && !(o.value.kind == KindDir && w.value.kind == KindDir) then Some(Modified)
    else None
  }

  /** What the pruned walk reports at p below the directories `o` and `w`. */
  function ChangeAt(m: BlobMap, o: ReadCap, w: ReadCap, p: Path): Option<ChangeType>
    decreases |p|
  {
    if p == [] || o == w then None
    else
      var oe, we := Entries(m, o), Entries(m, w);
      if p[0] in we && p[0] !in oe then (if Resolve(m, we[p[0]].cap, p[1..]).Some? then Some(Added) else None)
      else if p[0] !in we && p[0] in oe then (if Resolve(m, oe[p[0]].cap, p[1..]).Some? then Some(Deleted) else None)
      else if p[0] !in we then None
      else
        var oc, wc := oe[p[0]].cap, we[p[0]].cap;
        if oc == wc then None
        else if oc.kind == KindDir && wc.kind == KindDir then ChangeAt(m, oc, wc, p[1..])
        else if |p| == 1 then Some(Modified)
        else None
  }

  /** At q the name is a directory on one side and not on the other. */
  predicate Switches(m: BlobMap, o: ReadCap, w: ReadCap, q: Path) {
    var x, y := Resolve(m, o, q), Resolve(m, w, q);
    x.Some? && y.Some? && (x.value.kind == KindDir) != (y.value.kind == KindDir)
  }

  /** A non-empty directory switched kind: something lies below a name that is a leaf on the other side. */
  ghost predicate HiddenBelow(m: BlobMap, o: ReadCap, w: ReadCap, q: Path, p: Path) {
    && Switches(m, o, w, q) && q != [] && IsPrefix(q, p) && q != p
    && (Resolve(m, o, p).Some? || Resolve(m, w, p).Some?)
  }

  /** Path by path: the pruned walk reports the plain difference unless the path is hidden below a kind switch. */
  lemma {:induction false} DiffExactAt(m: BlobMap, o: ReadCap, w: ReadCap, p: Path)
    requires p != []
    ensures ChangeAt(m, o, w, p) == PlainDiff(Resolve(m, o, p), Resolve(m, w, p))
            <==> forall q :: !HiddenBelow(m, o, w, q, p)
    decreases |p|
  {
    var oe, we := Entries(m, o), Entries(m, w);
    var x := p[0];
    if o != w && x in oe && x in we && oe[x].cap != we[x].cap {
      var oc, wc := oe[x].cap, we[x].cap;
      if oc.kind == KindDir && wc.kind == KindDir {
        if |p| > 1 {
          DiffExactAt(m, oc, wc, p[1..]);
          HiddenStep(m, o, w, p);
        } else {
          NothingHidden(m, o, w, p);
        }
      } else if |p| == 1 {
        NothingHidden(m, o, w, p);
      } else {
        SwitchedAtFirst(m, o, w, p);
      }
    } else {
      SameOrAbsent(m, o, w, p);
    }
  }

  lemma NothingHidden(m: BlobMap, o: ReadCap, w: ReadCap, p: Path)
    requires |p| == 1
    ensures forall q :: !HiddenBelow(m, o, w, q, p)
  {
  }

  lemma SameOrAbsent(m: BlobMap, o: ReadCap, w: ReadCap, p: Path)
    requires p != []
    requires var oe, we := Entries(m, o), Entries(m, w);
             o == w || p[0] !in oe || p[0] !in we || oe[p[0]].cap == we[p[0]].cap
    ensures ChangeAt(m, o, w, p) == PlainDiff(Resolve(m, o, p), Resolve(m, w, p))
    ensures forall q :: !HiddenBelow(m, o, w, q, p)
  {
  }

  /** Below the first name, hidden paths are the hidden paths of the two subdirectories. */
  lemma HiddenStep(m: BlobMap, o: ReadCap, w: ReadCap, p: Path)
    requires |p| > 1 && p[0] in Entries(m, o) && p[0] in Entries(m, w)
    requires Entries(m, o)[p[0]].cap.kind == KindDir && Entries(m, w)[p[0]].cap.kind == KindDir
    ensures var oc, wc := Entries(m, o)[p[0]].cap, Entries(m, w)[p[0]].cap;
            (forall q :: !HiddenBelow(m, o, w, q, p)) <==> (forall q :: !HiddenBelow(m, oc, wc, q, p[1..]))
  {
    var oc, wc := Entries(m, o)[p[0]].cap, Entries(m, w)[p[0]].cap;
    forall q | HiddenBelow(m, o, w, q, p) ensures HiddenBelow(m, oc, wc, q[1..], p[1..]) {
      assert q[0] == p[0];
      assert Resolve(m, o, q) == Resolve(m, oc, q[1..]) && Resolve(m, w, q) == Resolve(m, wc, q[1..]);
      TailPrefix(q, p);
    }
    forall q | HiddenBelow(m, oc, wc, q, p[1..]) ensures HiddenBelow(m, o, w, [p[0]] + q, p) {
      assert ([p[0]] + q)[1..] == q;
      TailPrefix([p[0]] + q, p);
    }
  }

  lemma TailPrefix(q: Path, p: Path)
    requires q != [] && p != [] && q[0] == p[0]
    ensures IsPrefix(q, p) <==> IsPrefix(q[1..], p[1..])
    ensures q == p <==> q[1..] == p[1..]
  {
  }

  lemma SwitchedAtFirst(m: BlobMap, o: ReadCap, w: ReadCap, p: Path)
    requires |p| > 1 && o != w && p[0] in Entries(m, o) && p[0] in Entries(m, w)
    requires Entries(m, o)[p[0]].cap != Entries(m, w)[p[0]].cap
    requires Entries(m, o)[p[0]].cap.kind != KindDir || Entries(m, w)[p[0]].cap.kind != KindDir
    ensures ChangeAt(m, o, w, p) == PlainDiff(Resolve(m, o, p), Resolve(m, w, p))
            <==> forall q :: !HiddenBelow(m, o, w, q, p)
  {
    var oc, wc := Entries(m, o)[p[0]].cap, Entries(m, w)[p[0]].cap;
    var q0 := [p[0]];
    assert q0[1..] == [] && p[..1] == q0;
    assert Resolve(m, oc, []) == Some(oc) && Resolve(m, wc, []) == Some(wc);
    assert Resolve(m, o, q0) == Resolve(m, oc, q0[1..]) && Resolve(m, w, q0) == Resolve(m, wc, q0[1..]);
    assert p[1..] != [];
    assert oc.kind != KindDir ==> Resolve(m, oc, p[1..]) == None;
    assert wc.kind != KindDir ==> Resolve(m, wc, p[1..]) == None;
    if Resolve(m, o, p).Some? || Resolve(m, w, p).Some? {
      assert HiddenBelow(m, o, w, q0, p);
    }
  }

  ghost predicate ReportsPlainDiff(m: BlobMap, o: ReadCap, w: ReadCap) {
    forall p :: p != [] ==> ExactAt(m, o, w, p)
  }

  ghost predicate ExactAt(m: BlobMap, o: ReadCap, w: ReadCap, p: Path) {
    ChangeAt(m, o, w, p) == PlainDiff(Resolve(m, o, p), Resolve(m, w, p))
  }

  ghost predicate SomethingHidden(m: BlobMap, o: ReadCap, w: ReadCap) {
    exists q, p :: HiddenBelow(m, o, w, q, p)
  }

  /** The report is the plain difference of the full listings exactly when nothing lies below a switched name. */
  lemma DiffExact(m: BlobMap, o: ReadCap, w: ReadCap)
    ensures ReportsPlainDiff(m, o, w) <==> !SomethingHidden(m, o, w)
  {
    if ReportsPlainDiff(m, o, w) {
      forall q, p ensures !HiddenBelow(m, o, w, q, p) {
        if p != [] {
          DiffExactAt(m, o, w, p);
          assert ExactAt(m, o, w, p);
        }
      }
    }
    if !SomethingHidden(m, o, w) {
      forall p | p != [] ensures ExactAt(m, o, w, p) {
        DiffExactAt(m, o, w, p);
      }
    }
  }

  /** A path can be hidden: a became a file, and the deletion of a/b is not reported. */
  lemma SwitchedNameHides() returns (m: BlobMap, o: ReadCap, w: ReadCap)
    ensures WellFormed(m, 6) && HiddenBelow(m, o, w, ["a"], ["a", "b"])
    ensures ChangeAt(m, o, w, ["a", "b"]) == None
    ensures PlainDiff(Resolve(m, o, ["a", "b"]), Resolve(m, w, ["a", "b"])) == Some(Deleted) && !ReportsPlainDiff(m, o, w)
  {
    hide Entries, WellFormed, ReportsPlainDiff;
    NothingStored(3);
    var m4 := Add(map[], 3, [Named("b", FileCap(1))]);
    AddedOne(map[], 3, Named("b", FileCap(1)));
    var m5 := Add(m4, 4, [Named("a", DirCap(3))]);
    AddedOne(m4, 4, Named("a", DirCap(3)));
    m, o, w := Add(m5, 5, [Named("a", FileCap(2))]), DirCap(4), DirCap(5);
    AddedOne(m5, 5, Named("a", FileCap(2)));
    NotADir(m, FileCap(2));
    var p: Path := ["a", "b"];
    assert p[1..] == ["b"] && p[..1] == ["a"];
    OneStep(m, DirCap(3), "b");
    OneStep(m, o, "a");
    OneStep(m, w, "a");
    assert HiddenBelow(m, o, w, ["a"], p);
    DiffExact(m, o, w);
  }

  lemma NotADir(m: BlobMap, c: ReadCap)
    requires c.kind != KindDir
    ensures Entries(m, c) == map[]
  {
  }
}

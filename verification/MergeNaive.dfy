/** The pruned merge selects the same tree as a merge that opens and compares everything. */
module MergeNaive {
  import opened Core
  import opened Directory
  import opened Blobs
  import opened Merge

  /** What is at a path, ignoring which blob a directory is stored in. */
  datatype Shape = Absent | Leaf(cap: ReadCap) | Dir

  function ShapeOf(c: Option<ReadCap>): Shape {
    if c.None? then Absent else if c.value.kind == KindDir then Dir else Leaf(c.value)
  }

  /** The naive merge at a path: no subtree is ever taken over unopened. */
  ghost function NaiveAt(m: BlobMap, relabel: Labeler, b: ReadCap, l: ReadCap, r: ReadCap, p: Path): Shape
    decreases |p|, 0
  {
    if p == [] then Dir
    else
      var slots := Slots(ThreeOf(m, b, l, r), relabel, true);
      if p[0] !in slots then Absent
      else SlotShape(m, relabel, slots[p[0]], p[1..])
  }

  ghost function SlotShape(m: BlobMap, relabel: Labeler, s: Slot, q: Path): Shape
    decreases |q|, 1
  {
    match s
    case Take(e) => ShapeOf(Resolve(m, e.cap, q))
    case Sub(bc, lc, rc) => NaiveAt(m, relabel, bc, lc, rc, q)
  }

  // ---------------------------------------------------------------- directories without conflicts

  /** No name of this directory needs a conflict copy. */
  ghost predicate Calm(t: Three) {
    forall x :: DecideName(t, x, true) != Both
  }

  lemma {:induction false} CalmBindings(t: Three, relabel: Labeler, names: seq<string>, s: set<string>)
    requires Calm(t) && IsListing(names, s)
    ensures forall bd :: bd in AllBindings(t, relabel, names, true) ==>
              bd.name in s && NameBindings(t, relabel, bd.name, true) == [bd]
    ensures forall x :: x in s ==> (forall bd :: bd in NameBindings(t, relabel, x, true) ==> bd in AllBindings(t, relabel, names, true))
  {
    BindingsFrom(t, relabel, names, true);
    forall bd | bd in AllBindings(t, relabel, names, true)
      ensures bd.name in s && NameBindings(t, relabel, bd.name, true) == [bd]
    {
      var i :| 0 <= i < |names| && bd in NameBindings(t, relabel, names[i], true);
      CalmName(t, relabel, names[i], bd);
    }
    forall x, bd | x in s && bd in NameBindings(t, relabel, x, true)
      ensures bd in AllBindings(t, relabel, names, true)
    {
      assert x in names;
    }
  }

  lemma CalmName(t: Three, relabel: Labeler, x: string, bd: Binding)
    requires Calm(t) && bd in NameBindings(t, relabel, x, true)
    ensures bd.name == x && NameBindings(t, relabel, x, true) == [bd]
  {
  }

  /** Each name's slot is its own single write, or it has none. */
  lemma CalmSlots(t: Three, relabel: Labeler, x: string)
    requires Calm(t)
    ensures x in Slots(t, relabel, true) <==> (x in t.l || x in t.r) && NameBindings(t, relabel, x, true) != []
    ensures x in Slots(t, relabel, true) ==> NameBindings(t, relabel, x, true) == [Binding(x, Slots(t, relabel, true)[x])]
  {
    var s := t.l.Keys + t.r.Keys;
    var names := SortedNames(s);
    var bs := AllBindings(t, relabel, names, true);
    CalmBindings(t, relabel, names, s);
    OverwriteNames(bs);
    if x in s && NameBindings(t, relabel, x, true) != [] {
      var bd := NameBindings(t, relabel, x, true)[0];
      CalmName(t, relabel, x, bd);
      assert bd in bs;
    }
    if x in Overwrite(bs) {
      assert Binding(x, Overwrite(bs)[x]) in bs;
    }
  }

  lemma CalmSame(t: Three)
    requires t.l == t.r
    ensures Calm(t)
  {
  }

  lemma BindingsSame(t: Three, relabel: Labeler, x: string)
    requires t.l == t.r
    ensures NameBindings(t, relabel, x, true) ==
            if x !in t.l then []
            else if t.l[x].cap.kind == KindDir then [Binding(x, Sub(CapOf(Get(t.b, x)), t.l[x].cap, t.l[x].cap))]
            else [Binding(x, Take(t.l[x]))]
  {
  }

  /** Naively merging a directory with itself gives that directory back. */
  lemma {:induction false} NaiveSame(m: BlobMap, n: nat, relabel: Labeler, b: ReadCap, l: ReadCap, p: Path)
    requires WellFormed(m, n) && l.kind == KindDir
    ensures NaiveAt(m, relabel, b, l, l, p) == ShapeOf(Resolve(m, l, p))
    decreases |p|
  {
    if p != [] {
      var t := ThreeOf(m, b, l, l);
      CalmSame(t);
      CalmSlots(t, relabel, p[0]);
      BindingsSame(t, relabel, p[0]);
      hide NameBindings, Slots, Calm;
      if p[0] in t.l && t.l[p[0]].cap.kind == KindDir {
        NaiveSame(m, n, relabel, CapOf(Get(t.b, p[0])), t.l[p[0]].cap, p[1..]);
      }
    }
  }

  predicate BothDirs(t: Three, x: string) {
    x in t.l && x in t.r && t.l[x].cap.kind == KindDir && t.r[x].cap.kind == KindDir
  }

  lemma BindingsAtLocalBase(t: Three, relabel: Labeler, x: string)
    requires t.b == t.l && (x in t.l ==> t.l[x].cap != NO_CAP) && (x in t.r ==> t.r[x].cap != NO_CAP)
    ensures var bs := NameBindings(t, relabel, x, true);
            if BothDirs(t, x) then bs == [Binding(x, Sub(t.l[x].cap, t.l[x].cap, t.r[x].cap))]
            else if x in t.r then
              bs == [Binding(x, Take(if x in t.l && t.l[x].cap == t.r[x].cap then t.l[x] else t.r[x]))]
            else bs == []
  {
  }

  /** Naively merging when local is still the base gives remote. */
  lemma {:induction false} NaiveRemote(m: BlobMap, n: nat, relabel: Labeler, l: ReadCap, r: ReadCap, p: Path)
    requires WellFormed(m, n) && r.kind == KindDir
    ensures NaiveAt(m, relabel, l, l, r, p) == ShapeOf(Resolve(m, r, p))
    decreases |p|
  {
    if p != [] {
      var t := ThreeOf(m, l, l, r);
      EntriesBelow(m, n, l);
      EntriesBelow(m, n, r);
      CalmAtBase(t);
      CalmSlots(t, relabel, p[0]);
      BindingsAtLocalBase(t, relabel, p[0]);
      if BothDirs(t, p[0]) {
        NaiveRemote(m, n, relabel, t.l[p[0]].cap, t.r[p[0]].cap, p[1..]);
      }
    }
  }

  lemma BindingsAtRemoteBase(t: Three, relabel: Labeler, x: string)
    requires t.b == t.r && (x in t.l ==> t.l[x].cap != NO_CAP) && (x in t.r ==> t.r[x].cap != NO_CAP)
    ensures NameBindings(t, relabel, x, true) ==
            if BothDirs(t, x) then [Binding(x, Sub(t.r[x].cap, t.l[x].cap, t.r[x].cap))]
            else if x in t.l then [Binding(x, Take(t.l[x]))]
            else []
  {
  }

  /** Naively merging when remote is still the base gives local. */
  lemma {:induction false} NaiveLocal(m: BlobMap, n: nat, relabel: Labeler, l: ReadCap, r: ReadCap, p: Path)
    requires WellFormed(m, n) && l.kind == KindDir
    ensures NaiveAt(m, relabel, r, l, r, p) == ShapeOf(Resolve(m, l, p))
    decreases |p|
  {
    if p != [] {
      var t := ThreeOf(m, r, l, r);
      EntriesBelow(m, n, l);
      EntriesBelow(m, n, r);
      CalmAtBase(t);
      CalmSlots(t, relabel, p[0]);
      BindingsAtRemoteBase(t, relabel, p[0]);
      if BothDirs(t, p[0]) {
        NaiveLocal(m, n, relabel, t.l[p[0]].cap, t.r[p[0]].cap, p[1..]);
      }
    }
  }

  // ---------------------------------------------------------------- directories in general

  /** A slot of the pruned merge and the naive one for the same name: equal, or a subtree taken unopened. */
  predicate SameSlot(s: Slot, ns: Slot) {
    || s == ns
    || (ns.Sub? && ns.lc.kind == KindDir && ns.rc.kind == KindDir
        && s.Take? && !Diverged(ns.bc, ns.lc, ns.rc) && s.entry.cap == Shortcut(ns.bc, ns.lc, ns.rc))
  }

  predicate SameBindings(a: seq<Binding>, b: seq<Binding>) {
    |a| == |b| && forall i :: 0 <= i < |a| ==> a[i].name == b[i].name && SameSlot(a[i].slot, b[i].slot)
  }

  lemma NameBindingsAgree(t: Three, relabel: Labeler, x: string)
    ensures SameBindings(NameBindings(t, relabel, x, false), NameBindings(t, relabel, x, true))
  {
  }

  lemma {:induction false} BindingsAgree(t: Three, relabel: Labeler, names: seq<string>)
    ensures SameBindings(AllBindings(t, relabel, names, false), AllBindings(t, relabel, names, true))
  {
    if names != [] {
      BindingsAgree(t, relabel, names[..|names| - 1]);
      NameBindingsAgree(t, relabel, names[|names| - 1]);
    }
  }

  lemma {:induction false} OverwritesAgree(a: seq<Binding>, b: seq<Binding>)
    requires SameBindings(a, b)
    ensures Overwrite(a).Keys == Overwrite(b).Keys
    ensures forall x :: x in Overwrite(a) ==> SameSlot(Overwrite(a)[x], Overwrite(b)[x])
  {
    if a != [] { OverwritesAgree(a[..|a| - 1], b[..|b| - 1]); }
  }

  /** The pruned merge has, at every path, what the naive merge has there. */
  lemma {:induction false} PruningPreservesTree(m: BlobMap, n: nat, relabel: Labeler, b: ReadCap, l: ReadCap, r: ReadCap,
                                                m': BlobMap, n': nat, c: ReadCap, p: Path)
    requires WellFormed(m, n) && Extends(m, n, m', n') && l.key < n && r.key < n
    requires l.kind == KindDir && r.kind == KindDir && IsMerge(m, relabel, b, l, r, m', c)
    ensures ShapeOf(Resolve(m', c, p)) == NaiveAt(m, relabel, b, l, r, p)
    decreases |p|
  {
    if !Diverged(b, l, r) {
      ResolveStable(m, n, m', n', c, p);
      ShortcutNaive(m, n, relabel, b, l, r, p);
    } else if p != [] {
      var t := ThreeOf(m, b, l, r);
      var names := SortedNames(t.l.Keys + t.r.Keys);
      BindingsAgree(t, relabel, names);
      OverwritesAgree(AllBindings(t, relabel, names, false), AllBindings(t, relabel, names, true));
      MergeStep(m, n, relabel, b, l, r, m', n', c, p);
      var slots, nslots := Slots(t, relabel, false), Slots(t, relabel, true);
      if p[0] in slots {
        SlotKeys(m, n, b, l, r, relabel, p[0]);
        if slots[p[0]].Take? {
          ResolveStable(m, n, m', n', slots[p[0]].entry.cap, p[1..]);
          if nslots[p[0]].Sub? {
            ShortcutNaive(m, n, relabel, nslots[p[0]].bc, nslots[p[0]].lc, nslots[p[0]].rc, p[1..]);
          }
        } else {
          var sub := slots[p[0]];
          PruningPreservesTree(m, n, relabel, sub.bc, sub.lc, sub.rc, m', n', Entries(m', c)[p[0]].cap, p[1..]);
        }
      }
    }
  }

  lemma ShortcutNaive(m: BlobMap, n: nat, relabel: Labeler, b: ReadCap, l: ReadCap, r: ReadCap, p: Path)
    requires WellFormed(m, n) && l.kind == KindDir && r.kind == KindDir && !Diverged(b, l, r)
    ensures NaiveAt(m, relabel, b, l, r, p) == ShapeOf(Resolve(m, Shortcut(b, l, r), p))
  {
    if l == r {
      NaiveSame(m, n, relabel, b, l, p);
    } else if b == l {
      NaiveRemote(m, n, relabel, l, r, p);
    } else {
      NaiveLocal(m, n, relabel, l, r, p);
    }
  }

  /** Whatever a slot holds came from the two directories' entries. */
  lemma SlotKeys(m: BlobMap, n: nat, b: ReadCap, l: ReadCap, r: ReadCap, relabel: Labeler, x: string)
    requires WellFormed(m, n) && l.key < n && r.key < n && x in Slots(ThreeOf(m, b, l, r), relabel, false)
    ensures var s := Slots(ThreeOf(m, b, l, r), relabel, false)[x];
            && (s.Take? ==> s.entry.cap.key < n)
            && (s.Sub? ==> s.lc.kind == KindDir && s.rc.kind == KindDir && s.lc.key < n && s.rc.key < n)
  {
    var t := ThreeOf(m, b, l, r);
    var names := SortedNames(t.l.Keys + t.r.Keys);
    var bs := AllBindings(t, relabel, names, false);
    OverwriteNames(bs);
    var bd := Binding(x, Overwrite(bs)[x]);
    BindingsFrom(t, relabel, names, false);
    var i :| 0 <= i < |names| && bd in NameBindings(t, relabel, names[i], false);
    EntriesBelow(m, n, l);
    EntriesBelow(m, n, r);
    if bd.slot.Take? {
      TakenFrom(t, relabel, names[i], bd);
    } else {
      SubFrom(t, relabel, names[i], bd);
    }
  }

  /** No conflict arises where one side is still the base. */
  lemma CalmAtBase(t: Three)
    requires t.b == t.l || t.b == t.r
    ensures Calm(t)
  {
  }
}

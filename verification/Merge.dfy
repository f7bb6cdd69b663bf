/** Three-way merge of divergent roots over the copy-on-write tree. */
module Merge {
  import opened Core
  import opened Directory
  import opened Blobs

  type Labeler = string -> string

  // ---------------------------------------------------------------- one name

  function CapOf(e: Option<Entry>): ReadCap {
    if e.Some? then e.value.cap else NO_CAP
  }

  function Get(es: map<string, Entry>, name: string): Option<Entry> {
    if name in es then Some(es[name]) else None
  }

  datatype Decision = Drop | TakeLocal | TakeRemote | KeepLocalEdit | KeepRemoteEdit | Descend | Both

  /** The three-way decision for one name, by cap equality. */
  function Decide(bc: ReadCap, l: Option<Entry>, r: Option<Entry>): Decision {
    var lc, rc := CapOf(l), CapOf(r);
    if lc == rc then (if l.Some? then TakeLocal else Drop)
    else if bc == lc then (if r.Some? then TakeRemote else Drop)
    else if bc == rc then (if l.Some? then TakeLocal else Drop)
    else if l.None? then KeepRemoteEdit
    else if r.None? then KeepLocalEdit
    else if lc.kind == KindDir && rc.kind == KindDir then Descend
    else Both
  }

  predicate IsConflict(d: Decision) {
    d in {KeepLocalEdit, KeepRemoteEdit, Both}
  }

  /** The naive decision: two directories are always opened and compared, whatever their caps. */
  function NaiveDecide(bc: ReadCap, l: Option<Entry>, r: Option<Entry>): Decision {
    if l.Some? && r.Some? && l.value.cap.kind == KindDir && r.value.cap.kind == KindDir then Descend
    else Decide(bc, l, r)
  }

  // ---------------------------------------------------------------- one directory

  /** The entries of the three versions of one directory. */
  datatype Three = Three(b: map<string, Entry>, l: map<string, Entry>, r: map<string, Entry>)

  function ThreeOf(m: BlobMap, b: ReadCap, l: ReadCap, r: ReadCap): Three {
    Three(Entries(m, b), Entries(m, l), Entries(m, r))
  }

  function DecideName(t: Three, name: string, naive: bool): Decision {
    var bc, l, r := CapOf(Get(t.b, name)), Get(t.l, name), Get(t.r, name);
    if naive then NaiveDecide(bc, l, r) else Decide(bc, l, r)
  }

  /** What a name of the merged directory is bound to: an entry taken over, or the merge of a subdirectory. */
  datatype Slot = Take(entry: Entry) | Sub(bc: ReadCap, lc: ReadCap, rc: ReadCap)

  datatype Binding = Binding(name: string, slot: Slot)

  /** The writes into the merged directory made for one name, in order. */
  function NameBindings(t: Three, relabel: Labeler, name: string, naive: bool): seq<Binding> {
    var le, re := Get(t.l, name), Get(t.r, name);
    match DecideName(t, name, naive)
    case Drop => []
    case TakeLocal => if le.Some? then [Binding(name, Take(le.value))] else []
    case KeepLocalEdit => if le.Some? then [Binding(name, Take(le.value))] else []
    case TakeRemote => if re.Some? then [Binding(name, Take(re.value))] else []
    case KeepRemoteEdit => if re.Some? then [Binding(name, Take(re.value))] else []
    case Descend => [Binding(name, Sub(CapOf(Get(t.b, name)), CapOf(le), CapOf(re)))]
    case Both =>
      if le.Some? && re.Some? then
        [Binding(name, Take(le.value)), Binding(relabel(name), Take(re.value.(name := relabel(name))))]
      else []
  }

  function AllBindings(t: Three, relabel: Labeler, names: seq<string>, naive: bool): seq<Binding> {
    if names == [] then []
    else AllBindings(t, relabel, names[..|names| - 1], naive) + NameBindings(t, relabel, names[|names| - 1], naive)
  }

  /** A later write to the same name replaces an earlier one. */
  function Overwrite(bs: seq<Binding>): map<string, Slot> {
    if bs == [] then map[]
    else Overwrite(bs[..|bs| - 1])[bs[|bs| - 1].name := bs[|bs| - 1].slot]
  }

  /** The merged directory: the union of local and remote names, visited in order. */
  ghost function Slots(t: Three, relabel: Labeler, naive: bool): map<string, Slot> {
    Overwrite(AllBindings(t, relabel, SortedNames(t.l.Keys + t.r.Keys), naive))
  }

  // ---------------------------------------------------------------- sorted names

  ghost predicate IsListing(names: seq<string>, s: set<string>) {
    && (forall i, j :: 0 <= i < j < |names| ==> Less(names[i], names[j]))
    && (forall i :: 0 <= i < |names| ==> names[i] in s)
    && (forall x :: x in s ==> x in names)
  }

  ghost function SortedNames(s: set<string>): (names: seq<string>)
    ensures IsListing(names, s)
  {
    if s == {} then []
    else
      var x :| x in s;
      InsertName(SortedNames(s - {x}), x, s - {x})
  }

  function InsertName(names: seq<string>, x: string, ghost s: set<string>): (r: seq<string>)
    requires IsListing(names, s) && x !in s
    ensures IsListing(r, s + {x})
    decreases |names|
  {
    if names == [] then [x]
    else
      var last := names[|names| - 1];
      LessTrichotomy(last, x);
      if Less(last, x) then
        assert forall i :: 0 <= i < |names| ==> Less(names[i], x) by {
          forall i | 0 <= i < |names| ensures Less(names[i], x) {
            if i < |names| - 1 { LessTransitive(names[i], last, x); }
          }
        }
        names + [x]
      else
        var front := names[..|names| - 1];
        FrontListing(names, s);
        var r := InsertName(front, x, s - {last}) + [last];
        InsertedListing(names, s, x, r);
        r
  }

  lemma FrontListing(names: seq<string>, s: set<string>)
    requires IsListing(names, s) && names != []
    ensures IsListing(names[..|names| - 1], s - {names[|names| - 1]})
  {
    var front, last := names[..|names| - 1], names[|names| - 1];
    forall i | 0 <= i < |front| ensures front[i] in s - {last} {
      LessTrichotomy(names[i], last);
    }
    forall x | x in s - {last} ensures x in front {
      assert x in names;
    }
  }

  lemma InsertedListing(names: seq<string>, s: set<string>, x: string, r: seq<string>)
    requires IsListing(names, s) && names != [] && r != [] && r[|r| - 1] == names[|names| - 1]
    requires IsListing(r[..|r| - 1], s - {names[|names| - 1]} + {x}) && Less(x, names[|names| - 1])
    ensures IsListing(r, s + {x})
  {
    var last := names[|names| - 1];
    var front := r[..|r| - 1];
    forall i | 0 <= i < |front| ensures Less(r[i], last) {
      assert front[i] in s - {last} + {x};
      if front[i] != x {
        assert front[i] in names;
      }
    }
    forall y | y in s + {x} ensures y in r {
      if y == last { assert r[|r| - 1] == y; } else { assert y in front; }
    }
  }

  lemma {:induction false} ListingUnique(a: seq<string>, b: seq<string>, s: set<string>)
    requires IsListing(a, s) && IsListing(b, s)
    ensures a == b
    decreases |a|
  {
    assert a != [] ==> a[0] in b;
    assert b != [] ==> b[0] in a;
    if a != [] {
      var x, y := a[|a| - 1], b[|b| - 1];
      assert x in b && y in a;
      LessTrichotomy(x, y);
      FrontListing(a, s);
      FrontListing(b, s);
      ListingUnique(a[..|a| - 1], b[..|b| - 1], s - {x});
      assert a == a[..|a| - 1] + [x] && b == b[..|b| - 1] + [y];
    }
  }

  // ---------------------------------------------------------------- when no write is lost

  /** Writes to one name all agree. */
  ghost predicate Consistent(bs: seq<Binding>) {
    forall x, y :: x in bs && y in bs && x.name == y.name ==> x.slot == y.slot
  }

  ghost predicate AllSurvive(bs: seq<Binding>) {
    forall x :: x in bs ==> x.name in Overwrite(bs) && Overwrite(bs)[x.name] == x.slot
  }

  lemma {:induction false} OverwriteNames(bs: seq<Binding>)
    ensures forall x :: x in Overwrite(bs) ==> Binding(x, Overwrite(bs)[x]) in bs
    ensures forall x :: x in bs ==> x.name in Overwrite(bs)
  {
    if bs != [] {
      OverwriteNames(bs[..|bs| - 1]);
      assert bs == bs[..|bs| - 1] + [bs[|bs| - 1]];
    }
  }

  /** Every write of a list stands exactly when no two of them disagree on a name. */
  lemma NoWriteLostIff(bs: seq<Binding>)
    ensures AllSurvive(bs) <==> Consistent(bs)
  {
    OverwriteNames(bs);
    if Consistent(bs) {
      forall x | x in bs ensures Overwrite(bs)[x.name] == x.slot {
        assert Binding(x.name, Overwrite(bs)[x.name]) in bs;
      }
    }
  }

  /** Conflict copies get names no one uses: not in the directory, and not twice. */
  ghost predicate FreshLabels(t: Three, relabel: Labeler) {
    && (forall x :: Conflicted(t, x) ==> relabel(x) !in t.l && relabel(x) !in t.r)
    && (forall x, y :: Conflicted(t, x) && Conflicted(t, y) && relabel(x) == relabel(y) ==> x == y)
  }

  ghost predicate Conflicted(t: Three, x: string) {
    DecideName(t, x, false) == Both
  }

  /** Every write comes from one of the names visited. */
  lemma {:induction false} BindingsFrom(t: Three, relabel: Labeler, names: seq<string>, naive: bool)
    ensures forall b :: b in AllBindings(t, relabel, names, naive) ==>
              exists i :: 0 <= i < |names| && b in NameBindings(t, relabel, names[i], naive)
    ensures forall i, b :: 0 <= i < |names| && b in NameBindings(t, relabel, names[i], naive) ==>
              b in AllBindings(t, relabel, names, naive)
  {
    if names != [] {
      var front, last := names[..|names| - 1], names[|names| - 1];
      BindingsFrom(t, relabel, front, naive);
      forall b | b in AllBindings(t, relabel, names, naive)
        ensures exists i :: 0 <= i < |names| && b in NameBindings(t, relabel, names[i], naive)
      {
        if b in AllBindings(t, relabel, front, naive) {
          var i :| 0 <= i < |front| && b in NameBindings(t, relabel, front[i], naive);
          assert names[i] == front[i];
        } else {
          assert b in NameBindings(t, relabel, names[|names| - 1], naive);
        }
      }
      forall i, b | 0 <= i < |names| && b in NameBindings(t, relabel, names[i], naive)
        ensures b in AllBindings(t, relabel, names, naive)
      {
        if i < |names| - 1 { assert names[i] == front[i]; }
      }
    }
  }

  /** A write goes to the name itself, or it is the conflict copy. */
  lemma BindingName(t: Three, relabel: Labeler, x: string, b: Binding)
    requires b in NameBindings(t, relabel, x, false)
    ensures b.name == x || (Conflicted(t, x) && b.name == relabel(x))
    ensures x in t.l || x in t.r
  {
  }

  lemma NoClash(t: Three, relabel: Labeler, x: string, a: Binding, y: string, b: Binding)
    requires FreshLabels(t, relabel) && a.name == b.name
    requires a in NameBindings(t, relabel, x, false) && b in NameBindings(t, relabel, y, false)
    ensures x == y && a == b
  {
    BindingName(t, relabel, x, a);
    BindingName(t, relabel, y, b);
    assert x == y;
  }

  lemma FreshConsistent(t: Three, relabel: Labeler, names: seq<string>)
    requires FreshLabels(t, relabel) && IsListing(names, t.l.Keys + t.r.Keys)
    ensures Consistent(AllBindings(t, relabel, names, false))
  {
    var bs := AllBindings(t, relabel, names, false);
    BindingsFrom(t, relabel, names, false);
    forall a, b | a in bs && b in bs && a.name == b.name ensures a.slot == b.slot {
      var i :| 0 <= i < |names| && a in NameBindings(t, relabel, names[i], false);
      var j :| 0 <= j < |names| && b in NameBindings(t, relabel, names[j], false);
      NoClash(t, relabel, names[i], a, names[j], b);
    }
  }

  /** With fresh labels the merged directory holds exactly what was selected for each name. */
  lemma FreshSlots(t: Three, relabel: Labeler)
    requires FreshLabels(t, relabel)
    ensures forall x, b :: (x in t.l || x in t.r) && b in NameBindings(t, relabel, x, false) ==>
              b.name in Slots(t, relabel, false) && Slots(t, relabel, false)[b.name] == b.slot
    ensures forall y :: y in Slots(t, relabel, false) ==>
              exists x :: (x in t.l || x in t.r) && Binding(y, Slots(t, relabel, false)[y]) in NameBindings(t, relabel, x, false)
  {
    var names := SortedNames(t.l.Keys + t.r.Keys);
    var bs := AllBindings(t, relabel, names, false);
    FreshConsistent(t, relabel, names);
    NoWriteLostIff(bs);
    BindingsFrom(t, relabel, names, false);
    OverwriteNames(bs);
    forall x, b | (x in t.l || x in t.r) && b in NameBindings(t, relabel, x, false)
      ensures b.name in Overwrite(bs) && Overwrite(bs)[b.name] == b.slot
    {
      assert x in names;
      assert b in bs;
    }
    forall y | y in Overwrite(bs)
      ensures exists x :: (x in t.l || x in t.r) && Binding(y, Overwrite(bs)[y]) in NameBindings(t, relabel, x, false)
    {
      var i :| 0 <= i < |names| && Binding(y, Overwrite(bs)[y]) in NameBindings(t, relabel, names[i], false);
    }
  }

  /** A name both sides know is bound by its own decision and by nothing else. */
  lemma OwnSlot(t: Three, relabel: Labeler, x: string)
    requires FreshLabels(t, relabel) && (x in t.l || x in t.r)
    ensures x in Slots(t, relabel, false) ==> Binding(x, Slots(t, relabel, false)[x]) in NameBindings(t, relabel, x, false)
    ensures forall b :: b in NameBindings(t, relabel, x, false) ==>
              b.name in Slots(t, relabel, false) && Slots(t, relabel, false)[b.name] == b.slot
  {
    FreshSlots(t, relabel);
    if x in Slots(t, relabel, false) {
      var y :| (y in t.l || y in t.r) && Binding(x, Slots(t, relabel, false)[x]) in NameBindings(t, relabel, y, false);
      BindingName(t, relabel, y, Binding(x, Slots(t, relabel, false)[x]));
    }
  }

  lemma SlotOfBinding(t: Three, relabel: Labeler, x: string, bd: Binding)
    requires FreshLabels(t, relabel) && bd in NameBindings(t, relabel, x, false)
    ensures bd.name in Slots(t, relabel, false) && Slots(t, relabel, false)[bd.name] == bd.slot
  {
    BindingName(t, relabel, x, bd);
    OwnSlot(t, relabel, x);
  }

  /** A taken entry is local's or remote's under that name. */
  lemma TakenFrom(t: Three, relabel: Labeler, x: string, bd: Binding)
    requires bd in NameBindings(t, relabel, x, false) && bd.slot.Take?
    ensures (x in t.l && bd.slot.entry.cap == t.l[x].cap) || (x in t.r && bd.slot.entry.cap == t.r[x].cap)
  {
  }

  /** Two directories to merge below are local's and remote's under that name. */
  lemma SubFrom(t: Three, relabel: Labeler, x: string, bd: Binding)
    requires bd in NameBindings(t, relabel, x, false) && bd.slot.Sub?
    ensures x in t.l && x in t.r && bd.slot == Sub(CapOf(Get(t.b, x)), t.l[x].cap, t.r[x].cap)
    ensures bd.slot.lc.kind == KindDir && bd.slot.rc.kind == KindDir
  {
  }

  // ---------------------------------------------------------------- the whole tree

  function MetaOf(m: BlobMap, c: ReadCap): Metadata {
    if IsDir(m, c) then m[c].dir.meta else NO_METADATA
  }

  /** No cap-equality shortcut applies: the three versions really diverge. */
  predicate Diverged(b: ReadCap, l: ReadCap, r: ReadCap) {
    l != r && b != l && b != r
  }

  /** The cap a shortcut returns. */
  function Shortcut(b: ReadCap, l: ReadCap, r: ReadCap): ReadCap {
    if l == r then l else if b == l then r else l
  }

  /**
   * `c` in `m'` is the merge of l and r over b as they stand in `m`: one of them where a shortcut
   * applies, otherwise a new directory with local's attributes holding exactly the selected slots.
   */
  ghost predicate IsMerge(m: BlobMap, relabel: Labeler, b: ReadCap, l: ReadCap, r: ReadCap, m': BlobMap, c: ReadCap)
    decreases l.key + r.key, 1
  {
    if !Diverged(b, l, r) then c == Shortcut(b, l, r)
    else
      var slots := Slots(ThreeOf(m, b, l, r), relabel, false);
      && IsDir(m', c) && c !in m && m'[c].dir.meta == MetaOf(m, l)
      && Entries(m', c).Keys == slots.Keys
      && forall x :: x in slots ==> Filled(m, relabel, l, r, m', x, Entries(m', c)[x], slots[x])
  }

  /** An entry of the merged directory carries out what was selected for its name. */
  ghost predicate Filled(m: BlobMap, relabel: Labeler, l: ReadCap, r: ReadCap, m': BlobMap, x: string, e: Entry, slot: Slot)
    decreases l.key + r.key, 0
  {
    match slot
    case Take(e') => e == e'
    case Sub(bc, lc, rc) =>
      && lc.key < l.key && rc.key < r.key && e.name == x && e.stat == DIR_STAT
      && IsMerge(m, relabel, bc, lc, rc, m', e.cap)
  }

  /** Through a directory the merge descended into, a path goes on in the slot of its first name. */
  lemma MergeStep(m: BlobMap, n: nat, relabel: Labeler, b: ReadCap, l: ReadCap, r: ReadCap,
                  m': BlobMap, n': nat, c: ReadCap, p: Path)
    requires WellFormed(m, n) && Extends(m, n, m', n') && l.key < n && r.key < n && p != []
    requires IsMerge(m, relabel, b, l, r, m', c) && Diverged(b, l, r)
    ensures var slots := Slots(ThreeOf(m, b, l, r), relabel, false);
            if p[0] !in slots then Resolve(m', c, p) == None
            else match slots[p[0]]
                 case Take(e) => Resolve(m', c, p) == Resolve(m', e.cap, p[1..])
                 case Sub(bc, lc, rc) =>
                   && lc.key < l.key && rc.key < r.key && p[0] in Entries(m', c)
                   && IsMerge(m, relabel, bc, lc, rc, m', Entries(m', c)[p[0]].cap)
                   && Resolve(m', c, p) == Resolve(m', Entries(m', c)[p[0]].cap, p[1..])
  {
    var slots := Slots(ThreeOf(m, b, l, r), relabel, false);
    if p[0] in slots {
      assert Filled(m, relabel, l, r, m', p[0], Entries(m', c)[p[0]], slots[p[0]]);
    }
  }

  /** Fresh labels in every directory the merge descends into on the way along p. */
  ghost predicate FreshAlong(m: BlobMap, relabel: Labeler, b: ReadCap, l: ReadCap, r: ReadCap, p: Path)
    decreases |p|
  {
    Diverged(b, l, r) && p != [] ==>
      var t := ThreeOf(m, b, l, r);
      && FreshLabels(t, relabel)
      && (DecideName(t, p[0], false) == Descend ==>
            FreshAlong(m, relabel, CapOf(Get(t.b, p[0])), CapOf(Get(t.l, p[0])), CapOf(Get(t.r, p[0])), p[1..]))
  }

  /** A path through a name goes on in what was selected for that name. */
  lemma MergedSlot(m: BlobMap, n: nat, relabel: Labeler, b: ReadCap, l: ReadCap, r: ReadCap,
                   m': BlobMap, n': nat, c: ReadCap, x: string, bd: Binding, rest: Path)
    requires WellFormed(m, n) && Extends(m, n, m', n') && l.key < n && r.key < n
    requires IsMerge(m, relabel, b, l, r, m', c) && Diverged(b, l, r)
    requires var t := ThreeOf(m, b, l, r); FreshLabels(t, relabel) && bd in NameBindings(t, relabel, x, false)
    ensures bd.slot.Take? ==> Resolve(m', c, [bd.name] + rest) == Resolve(m, bd.slot.entry.cap, rest)
    ensures bd.slot.Sub? ==>
              && bd.name in Entries(m', c)
              && IsMerge(m, relabel, bd.slot.bc, bd.slot.lc, bd.slot.rc, m', Entries(m', c)[bd.name].cap)
              && Resolve(m', c, [bd.name] + rest) == Resolve(m', Entries(m', c)[bd.name].cap, rest)
  {
    hide WellFormed, Extends;
    var t := ThreeOf(m, b, l, r);
    SlotOfBinding(t, relabel, x, bd);
    assert ([bd.name] + rest)[1..] == rest;
    MergeStep(m, n, relabel, b, l, r, m', n', c, [bd.name] + rest);
    if bd.slot.Take? {
      TakenFrom(t, relabel, x, bd);
      EntriesBelow(m, n, l);
      EntriesBelow(m, n, r);
      ResolveStable(m, n, m', n', bd.slot.entry.cap, rest);
    }
  }

  /** A name that was dropped leads nowhere. */
  lemma MergedNone(m: BlobMap, n: nat, relabel: Labeler, b: ReadCap, l: ReadCap, r: ReadCap,
                   m': BlobMap, n': nat, c: ReadCap, p: Path)
    requires WellFormed(m, n) && Extends(m, n, m', n') && l.key < n && r.key < n && p != []
    requires IsMerge(m, relabel, b, l, r, m', c) && Diverged(b, l, r)
    requires var t := ThreeOf(m, b, l, r);
             FreshLabels(t, relabel) && (p[0] in t.l || p[0] in t.r) && DecideName(t, p[0], false) == Drop
    ensures Resolve(m', c, p) == None
  {
    hide WellFormed, Extends;
    OwnSlot(ThreeOf(m, b, l, r), relabel, p[0]);
    MergeStep(m, n, relabel, b, l, r, m', n', c, p);
  }

  /** The merge of a subdirectory both sides changed sits under its own name. */
  lemma MergedSub(m: BlobMap, n: nat, relabel: Labeler, b: ReadCap, l: ReadCap, r: ReadCap,
                  m': BlobMap, n': nat, c: ReadCap, p: Path)
    returns (bc: ReadCap, lc: ReadCap, rc: ReadCap, c': ReadCap)
    requires WellFormed(m, n) && Extends(m, n, m', n') && l.key < n && r.key < n && p != []
    requires IsMerge(m, relabel, b, l, r, m', c) && Diverged(b, l, r) && FreshAlong(m, relabel, b, l, r, p)
    requires DecideName(ThreeOf(m, b, l, r), p[0], false) == Descend
    ensures var t := ThreeOf(m, b, l, r); bc == CapOf(Get(t.b, p[0])) && lc == CapOf(Get(t.l, p[0])) && rc == CapOf(Get(t.r, p[0]))
    ensures lc.key < n && rc.key < n && lc.kind == KindDir && rc.kind == KindDir
    ensures p[0] in Entries(m', c) && c' == Entries(m', c)[p[0]].cap
    ensures IsMerge(m, relabel, bc, lc, rc, m', c') && FreshAlong(m, relabel, bc, lc, rc, p[1..])
    ensures Resolve(m', c, p) == Resolve(m', c', p[1..])
  {
    hide WellFormed, Extends;
    var t := ThreeOf(m, b, l, r);
    bc, lc, rc := CapOf(Get(t.b, p[0])), CapOf(Get(t.l, p[0])), CapOf(Get(t.r, p[0]));
    var bd := Binding(p[0], Sub(bc, lc, rc));
    assert NameBindings(t, relabel, p[0], false) == [bd];
    hide NameBindings, IsMerge, Resolve, FreshLabels;
    MergedSlot(m, n, relabel, b, l, r, m', n', c, p[0], bd, p[1..]);
    assert p == [p[0]] + p[1..];
    c' := Entries(m', c)[p[0]].cap;
    EntriesBelow(m, n, l);
    EntriesBelow(m, n, r);
  }

  /** Where a remote leaf may be found: at its path, or with one component replaced by its conflict label. */
  ghost predicate FoundAs(m': BlobMap, c: ReadCap, relabel: Labeler, p: Path, x: ReadCap) {
    || Resolve(m', c, p) == Some(x)
    || exists i :: 0 <= i < |p| && Resolve(m', c, p[i := relabel(p[i])]) == Some(x)
  }
}

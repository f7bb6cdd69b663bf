/** When a deletion survives a merge. */
module MergeDeletes {
  import opened Core
  import opened Directory
  import opened Blobs
  import opened Merge
  import opened MergeCode

  /** Some directory above p is contested; with `gone`, one that local no longer has. */
  ghost predicate ContestedAbove(m: BlobMap, b: ReadCap, l: ReadCap, r: ReadCap, p: Path, gone: bool) {
    exists i :: 0 < i < |p| && Contested(m, b, l, r, p[..i]) && (gone ==> Resolve(m, l, p[..i]).None?)
  }

  /** The same, as the walk meets it. */
  ghost predicate ConflictAbove(m: BlobMap, b: ReadCap, l: ReadCap, r: ReadCap, p: Path, gone: bool) {
    exists i :: 0 < i < |p| && ConflictAt(m, b, l, r, p[..i]) && (gone ==> Resolve(m, l, p[..i]).None?)
  }

  lemma AboveIff(m: BlobMap, b: ReadCap, l: ReadCap, r: ReadCap, p: Path, gone: bool)
    ensures ContestedAbove(m, b, l, r, p, gone) <==> ConflictAbove(m, b, l, r, p, gone)
  {
    hide Contested, ConflictAt, Resolve;
    forall i | 0 < i < |p| ensures ConflictAt(m, b, l, r, p[..i]) <==> Contested(m, b, l, r, p[..i]) {
      ConflictIffContested(m, b, l, r, p[..i]);
    }
  }

  /** A conflict above a path is at its first name, or below that where the walk goes on. */
  lemma AboveDown(m: BlobMap, b: ReadCap, l: ReadCap, r: ReadCap, p: Path, gone: bool)
    requires |p| > 1 && Diverged(b, l, r)
    ensures var t := ThreeOf(m, b, l, r);
            var d := DecideName(t, p[0], false);
            ConflictAbove(m, b, l, r, p, gone) <==>
            || (IsConflict(d) && (gone ==> p[0] !in t.l))
            || (d == Descend && ConflictAbove(m, CapOf(Get(t.b, p[0])), CapOf(Get(t.l, p[0])), CapOf(Get(t.r, p[0])), p[1..], gone))
  {
    var t := ThreeOf(m, b, l, r);
    var x, d := p[0], DecideName(t, p[0], false);
    var bc, lc, rc := CapOf(Get(t.b, x)), CapOf(Get(t.l, x)), CapOf(Get(t.r, x));
    forall i | 0 < i < |p|
      ensures ConflictAt(m, b, l, r, p[..i]) <==> if i == 1 then IsConflict(d) else d == Descend && ConflictAt(m, bc, lc, rc, p[1..][..i - 1])
      ensures d == Descend || i == 1 ==>
                (Resolve(m, l, p[..i]).None? <==> if i == 1 then x !in t.l else Resolve(m, lc, p[1..][..i - 1]).None?)
    {
      assert p[..i][1..] == p[1..][..i - 1] && p[..i][0] == x;
    }
    hide ConflictAt, DecideName, Resolve, IsConflict, ThreeOf;
    if ConflictAbove(m, b, l, r, p, gone) {
      var i :| 0 < i < |p| && ConflictAt(m, b, l, r, p[..i]) && (gone ==> Resolve(m, l, p[..i]).None?);
      if i > 1 { assert 0 < i - 1 < |p[1..]| && ConflictAt(m, bc, lc, rc, p[1..][..i - 1]); }
    }
    if IsConflict(d) && (gone ==> x !in t.l) {
      assert ConflictAt(m, b, l, r, p[..1]);
    }
    if d == Descend && ConflictAbove(m, bc, lc, rc, p[1..], gone) {
      var j :| 0 < j < |p[1..]| && ConflictAt(m, bc, lc, rc, p[1..][..j]) && (gone ==> Resolve(m, lc, p[1..][..j]).None?);
      assert p[1..][..j + 1 - 1] == p[1..][..j];
      assert 0 < j + 1 < |p| && ConflictAt(m, b, l, r, p[..j + 1]);
    }
  }

  lemma Undiverged(m: BlobMap, b: ReadCap, l: ReadCap, r: ReadCap, p: Path, gone: bool)
    requires !Diverged(b, l, r)
    ensures !ConflictAbove(m, b, l, r, p, gone)
  {
  }

  /** One name of a walk on which a path was deleted on one side and left alone on the other. */
  datatype Turn = Dropped | Kept(cap: ReadCap) | Goes

  /** What becomes of the first name of a path that local deleted and remote left as it was. */
  lemma LocalTurn(m: BlobMap, n: nat, b: ReadCap, l: ReadCap, r: ReadCap, p: Path, v: ReadCap) returns (turn: Turn)
    requires WellFormed(m, n) && p != [] && Diverged(b, l, r)
    requires Resolve(m, b, p) == Some(v) && Resolve(m, r, p) == Some(v) && Resolve(m, l, p) == None
    ensures var t, x := ThreeOf(m, b, l, r), p[0];
            var d := DecideName(t, x, false);
            && x in t.b && x in t.r
            && (turn.Dropped? ==> d == Drop && !IsConflict(d))
            && (turn.Goes? ==> |p| > 1 && d == Descend && !IsConflict(d) && x in t.l)
            && (turn.Kept? ==>
                  && |p| > 1 && d != Descend && NameTakes(t, x, d, turn.cap)
                  && (IsConflict(d) && x !in t.l <==> Resolve(m, turn.cap, p[1..]) != None))
  {
    var t, x := ThreeOf(m, b, l, r), p[0];
    EntriesBelow(m, n, b);
    EntriesBelow(m, n, r);
    EntriesBelow(m, n, l);
    var d := DecideName(t, x, false);
    if d == Drop {
      turn := Dropped;
    } else if d == Descend {
      turn := Goes;
    } else if d == KeepRemoteEdit || d == TakeRemote {
      turn := Kept(t.r[x].cap);
    } else {
      turn := Kept(t.l[x].cap);
    }
  }

  /** The merge takes this cap over under the name. */
  ghost predicate NameTakes(t: Three, x: string, d: Decision, cap: ReadCap) {
    || (d in {TakeLocal, KeepLocalEdit, Both} && x in t.l && t.l[x].cap == cap)
    || (d in {TakeRemote, KeepRemoteEdit} && x in t.r && t.r[x].cap == cap)
  }

  lemma RemoteTurn(m: BlobMap, n: nat, b: ReadCap, l: ReadCap, r: ReadCap, p: Path, v: ReadCap) returns (turn: Turn)
    requires WellFormed(m, n) && p != [] && Diverged(b, l, r)
    requires Resolve(m, b, p) == Some(v) && Resolve(m, l, p) == Some(v) && Resolve(m, r, p) == None
    ensures var t, x := ThreeOf(m, b, l, r), p[0];
            var d := DecideName(t, x, false);
            && x in t.b && x in t.l
            && (turn.Dropped? ==> d == Drop && !IsConflict(d))
            && (turn.Goes? ==> |p| > 1 && d == Descend && !IsConflict(d) && x in t.r)
            && (turn.Kept? ==>
                  && |p| > 1 && d != Descend && NameTakes(t, x, d, turn.cap)
                  && (IsConflict(d) <==> Resolve(m, turn.cap, p[1..]) != None))
  {
    var t, x := ThreeOf(m, b, l, r), p[0];
    EntriesBelow(m, n, b);
    EntriesBelow(m, n, r);
    EntriesBelow(m, n, l);
    var d := DecideName(t, x, false);
    if d == Drop {
      turn := Dropped;
    } else if d == Descend {
      turn := Goes;
    } else if d == KeepRemoteEdit || d == TakeRemote {
      turn := Kept(t.r[x].cap);
    } else {
      turn := Kept(t.l[x].cap);
    }
  }

  /** What was taken over under a name is what a path through it leads into. */
  lemma Taken(m: BlobMap, n: nat, relabel: Labeler, b: ReadCap, l: ReadCap, r: ReadCap, m': BlobMap, n': nat, c: ReadCap, p: Path, cap: ReadCap)
    requires WellFormed(m, n) && Extends(m, n, m', n') && l.key < n && r.key < n && p != []
    requires IsMerge(m, relabel, b, l, r, m', c) && Diverged(b, l, r) && FreshLabels(ThreeOf(m, b, l, r), relabel)
    requires NameTakes(ThreeOf(m, b, l, r), p[0], DecideName(ThreeOf(m, b, l, r), p[0], false), cap)
    ensures Resolve(m', c, p) == Resolve(m, cap, p[1..])
  {
    hide *;
    var t, x := ThreeOf(m, b, l, r), p[0];
    var e := TakenEntry(t, relabel, x, cap);
    assert p == [x] + p[1..];
    MergedSlot(m, n, relabel, b, l, r, m', n', c, x, Binding(x, Take(e)), p[1..]);
  }

  lemma TakenEntry(t: Three, relabel: Labeler, x: string, cap: ReadCap) returns (e: Entry)
    requires NameTakes(t, x, DecideName(t, x, false), cap)
    ensures e.cap == cap && Binding(x, Take(e)) in NameBindings(t, relabel, x, false)
  {
    e := if DecideName(t, x, false) in {TakeRemote, KeepRemoteEdit} then t.r[x] else t.l[x];
    if DecideName(t, x, false) == Both {
      assert NameBindings(t, relabel, x, false)[0] == Binding(x, Take(e));
    }
  }

  /** A merge without divergence is one of its sides, the one on which the path is gone. */
  lemma SideTaken(m: BlobMap, n: nat, relabel: Labeler, b: ReadCap, l: ReadCap, r: ReadCap, m': BlobMap, n': nat, c: ReadCap, p: Path)
    requires WellFormed(m, n) && Extends(m, n, m', n') && l.key < n && r.key < n
    requires IsMerge(m, relabel, b, l, r, m', c) && !Diverged(b, l, r) && Resolve(m, b, p).Some?
    requires (Resolve(m, l, p).None? && Resolve(m, r, p) == Resolve(m, b, p)) || (Resolve(m, r, p).None? && Resolve(m, l, p) == Resolve(m, b, p))
    ensures Resolve(m', c, p) == None
  {
    ResolveStable(m, n, m', n', c, p);
  }

  /**
   * What one side deleted and the other left as it was is gone from the merge exactly when no directory above it is
   * contested: deleted or replaced by the one and edited by the other. A directory that local replaced by a file stays
   * replaced, so what local deleted returns only with a directory it no longer has.
   */
  lemma {:induction false} DeletionHoldsIff(m: BlobMap, n: nat, relabel: Labeler, b: ReadCap, l: ReadCap, r: ReadCap,
                                            m': BlobMap, n': nat, c: ReadCap, p: Path, v: ReadCap, local: bool)
    requires WellFormed(m, n) && Extends(m, n, m', n') && l.key < n && r.key < n && p != []
    requires IsMerge(m, relabel, b, l, r, m', c) && FreshAlong(m, relabel, b, l, r, p) && Resolve(m, b, p) == Some(v)
    requires if local then Resolve(m, l, p) == None && Resolve(m, r, p) == Some(v) else Resolve(m, r, p) == None && Resolve(m, l, p) == Some(v)
    ensures Resolve(m', c, p) == None <==> !ContestedAbove(m, b, l, r, p, local)
    decreases |p|
  {
    hide WellFormed, Extends, IsMerge, Contested, ContestedAbove, ConflictAbove, NameTakes, IsConflict, DecideName;
    AboveIff(m, b, l, r, p, local);
    if !Diverged(b, l, r) {
      hide Resolve, Diverged;
      Undiverged(m, b, l, r, p, local);
      SideTaken(m, n, relabel, b, l, r, m', n', c, p);
    } else {
      var t := ThreeOf(m, b, l, r);
      var turn;
      if local { turn := LocalTurn(m, n, b, l, r, p, v); } else { turn := RemoteTurn(m, n, b, l, r, p, v); }
      if |p| > 1 { AboveDown(m, b, l, r, p, local); } else { NoneAbove(m, b, l, r, p, local); }
      match turn
      case Dropped =>
        MergedNone(m, n, relabel, b, l, r, m', n', c, p);
      case Kept(cap) =>
        Taken(m, n, relabel, b, l, r, m', n', c, p, cap);
      case Goes =>
        var bc, lc, rc, c' := MergedSub(m, n, relabel, b, l, r, m', n', c, p);
        DeletionHoldsIff(m, n, relabel, bc, lc, rc, m', n', c', p[1..], v, local);
        AboveIff(m, bc, lc, rc, p[1..], local);
    }
  }

  lemma NoneAbove(m: BlobMap, b: ReadCap, l: ReadCap, r: ReadCap, p: Path, gone: bool)
    requires |p| <= 1
    ensures !ConflictAbove(m, b, l, r, p, gone)
  {
  }
}

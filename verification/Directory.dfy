/** Directory manifests: name-sorted entry lists and the operations on them. */
module Directory {
  import opened Core

  datatype Kind = KindFile | KindDir | KindOther(tag: nat)

  datatype ReadCap = ReadCap(kind: Kind, key: nat, compressed: bool, params: Params, shards: seq<ShardID>)

  /** The zero cap: the "absent" sentinel of merge and diff. */
  const NO_CAP := ReadCap(KindFile, 0, false, Params(0, 0), [])

  datatype StatCache =
    StatCache(kind: Kind, size: int, mode: nat, modTimeNS: int, contentVersion: Bytes, metaVersion: Bytes)

  /** What a rewritten intermediate directory's entry caches: its kind and nothing else. */
  const DIR_STAT := StatCache(KindDir, 0, 0, 0, [], [])

  datatype Entry = Entry(name: string, cap: ReadCap, stat: StatCache)

  datatype DirManifest = DirManifest(meta: Metadata, entries: seq<Entry>)

  // ---------------------------------------------------------------- name order

  /** Byte-wise string order. */
  predicate Less(a: string, b: string) {
    b != [] && (a == [] || a[0] < b[0] || (a[0] == b[0] && Less(a[1..], b[1..])))
  }

  /** Where two strings first differ: one ends there, or its character is the smaller. */
  ghost predicate FirstDiffers(a: string, b: string, k: nat) {
    && k <= |a| && k <= |b| && a[..k] == b[..k] && k < |b| && (k < |a| ==> a[k] < b[k])
  }

  lemma {:induction false} LessIsFirstDifference(a: string, b: string)
    ensures Less(a, b) <==> exists k: nat :: FirstDiffers(a, b, k)
  {
    if a != [] && b != [] {
      LessIsFirstDifference(a[1..], b[1..]);
      if a[0] == b[0] && Less(a[1..], b[1..]) {
        var k: nat :| FirstDiffers(a[1..], b[1..], k);
        assert a[..k + 1] == [a[0]] + a[1..][..k] && b[..k + 1] == [b[0]] + b[1..][..k];
        assert FirstDiffers(a, b, k + 1);
      } else if a[0] < b[0] {
        assert FirstDiffers(a, b, 0);
      }
      if k: nat :| FirstDiffers(a, b, k) && k > 0 {
        assert a[..k][0] == a[0] && b[..k][0] == b[0];
        assert a[1..][..k - 1] == a[..k][1..] && b[1..][..k - 1] == b[..k][1..];
        assert FirstDiffers(a[1..], b[1..], k - 1);
      }
    } else if b != [] {
      assert FirstDiffers(a, b, 0);
    }
  }

  lemma {:induction false} LessTransitive(a: string, b: string, c: string)
    requires Less(a, b) && Less(b, c)
    ensures Less(a, c)
  {
    if a != [] && a[0] == b[0] && b[0] == c[0] {
      LessTransitive(a[1..], b[1..], c[1..]);
    }
  }

  lemma {:induction false} LessTrichotomy(a: string, b: string)
    ensures Less(a, b) || Less(b, a) || a == b
    ensures !(Less(a, b) && Less(b, a)) && !(Less(a, b) && a == b)
  {
    if a != [] && b != [] && a[0] == b[0] {
      LessTrichotomy(a[1..], b[1..]);
      assert a == [a[0]] + a[1..] && b == [b[0]] + b[1..];
    }
  }

  /** Strictly increasing names: sorted, and no name twice. */
  predicate Sorted(es: seq<Entry>) {
    forall i, j :: 0 <= i < j < |es| ==> Less(es[i].name, es[j].name)
  }

  // ---------------------------------------------------------------- entry maps

  /** A directory's entries by name; a repeated name keeps its last entry. */
  function EntryMap(es: seq<Entry>): map<string, Entry> {
    if es == [] then map[]
    else EntryMap(es[..|es| - 1])[es[|es| - 1].name := es[|es| - 1]]
  }

  /** `es` is the sorted listing of `m`. */
  ghost predicate Lists(es: seq<Entry>, m: map<string, Entry>) {
    && Sorted(es)
    && (forall i :: 0 <= i < |es| ==> es[i].name in m && m[es[i].name] == es[i])
    && (forall n :: n in m ==> Holds(es, n))
  }

  ghost predicate Holds(es: seq<Entry>, n: string) {
    exists i :: 0 <= i < |es| && es[i].name == n
  }

  lemma {:induction false} SortedLists(es: seq<Entry>)
    requires Sorted(es)
    ensures Lists(es, EntryMap(es))
  {
    if es != [] {
      var front, last := es[..|es| - 1], es[|es| - 1];
      SortedLists(front);
      var m := EntryMap(es);
      forall i | 0 <= i < |es| ensures es[i].name in m && m[es[i].name] == es[i] {
        if i < |es| - 1 {
          assert front[i] == es[i];
          LessTrichotomy(es[i].name, last.name);
        }
      }
      forall n | n in m ensures Holds(es, n) {
        if n == last.name {
          assert es[|es| - 1].name == n;
        } else {
          assert Holds(front, n);
          var i :| 0 <= i < |front| && front[i].name == n;
          assert es[i].name == n;
        }
      }
    }
  }

  lemma ListsSame(es: seq<Entry>, m: map<string, Entry>, m': map<string, Entry>)
    requires Lists(es, m) && Lists(es, m')
    ensures m == m'
  {
  }

  /** The entry map of a listing is what it lists. */
  lemma ListsMap(es: seq<Entry>, m: map<string, Entry>)
    requires Lists(es, m)
    ensures EntryMap(es) == m
  {
    SortedLists(es);
    ListsSame(es, m, EntryMap(es));
  }

  // ---------------------------------------------------------------- operations

  /** Binary search agrees with the entry map: found exactly when bound, and then that entry. */
  method Lookup(d: DirManifest, name: string) returns (r: Option<Entry>)
    requires Sorted(d.entries)
    ensures r == if name in EntryMap(d.entries) then Some(EntryMap(d.entries)[name]) else None
  {
    var es := d.entries;
    var lo, hi := 0, |es|;
    while lo < hi
      invariant 0 <= lo <= hi <= |es|
      invariant forall i :: 0 <= i < lo ==> Less(es[i].name, name)
      invariant forall i :: hi <= i < |es| ==> !Less(es[i].name, name)
    {
      var mid := (lo + hi) / 2;
      if Less(es[mid].name, name) {
        forall i | 0 <= i < mid ensures Less(es[i].name, name) {
          LessTransitive(es[i].name, es[mid].name, name);
        }
        lo := mid + 1;
      } else {
        forall i | mid < i < |es| ensures !Less(es[i].name, name) {
          if Less(es[i].name, name) { LessTransitive(es[mid].name, es[i].name, name); }
        }
        hi := mid;
      }
    }
    SortedLists(es);
    if lo < |es| && es[lo].name == name {
      return Some(es[lo]);
    }
    forall i | 0 <= i < |es| ensures es[i].name != name {
      LessTrichotomy(es[i].name, name);
      if lo < i { LessTrichotomy(es[lo].name, name); }
    }
    assert !Holds(es, name);
    return None;
  }

  /** Insert or replace: the entry map changes at that one name, and the list stays sorted. */
  method Upsert(d: DirManifest, e: Entry) returns (out: DirManifest)
    requires Sorted(d.entries)
    ensures Sorted(out.entries) && out.meta == d.meta
    ensures EntryMap(out.entries) == EntryMap(d.entries)[e.name := e]
  {
    var es := d.entries;
    var acc: seq<Entry> := [];
    var replaced := false;
    for i := 0 to |es|
      invariant |acc| == i
      invariant forall j :: 0 <= j < i ==> acc[j] == if es[j].name == e.name then e else es[j]
      invariant replaced <==> Holds(es[..i], e.name)
    {
      if es[i].name == e.name {
        acc := acc + [e];
        replaced := true;
        assert es[..i + 1][i].name == e.name;
      } else {
        acc := acc + [es[i]];
        assert forall j :: 0 <= j < i ==> es[..i + 1][j] == es[..i][j];
      }
    }
    assert es[..|es|] == es;
    ghost var m := EntryMap(es);
    SortedLists(es);
    if !replaced {
      assert acc == es && !Holds(es, e.name);
      acc := InsertSorted(acc, e, m);
    } else {
      ReplacedLists(es, acc, m, e);
    }
    ListsMap(acc, m[e.name := e]);
    out := DirManifest(d.meta, acc);
  }

  lemma ReplacedLists(es: seq<Entry>, acc: seq<Entry>, m: map<string, Entry>, e: Entry)
    requires Lists(es, m) && Holds(es, e.name) && |acc| == |es|
    requires forall j :: 0 <= j < |es| ==> acc[j] == if es[j].name == e.name then e else es[j]
    ensures Lists(acc, m[e.name := e])
  {
    forall n | n in m[e.name := e] ensures Holds(acc, n) {
      assert Holds(es, n);
      var j :| 0 <= j < |es| && es[j].name == n;
      assert acc[j].name == n;
    }
  }

  /** Sorting a sorted list with one new name added puts that name in its place. */
  method InsertSorted(es: seq<Entry>, e: Entry, ghost m: map<string, Entry>) returns (r: seq<Entry>)
    requires Lists(es, m) && e.name !in m
    ensures Lists(r, m[e.name := e])
  {
    var k := |es|;
    while k > 0 && Less(e.name, es[k - 1].name)
      invariant 0 <= k <= |es|
      invariant forall i :: k <= i < |es| ==> Less(e.name, es[i].name)
    {
      k := k - 1;
    }
    forall i | 0 <= i < k ensures Less(es[i].name, e.name) {
      LessTrichotomy(es[k - 1].name, e.name);
      if i < k - 1 { LessTransitive(es[i].name, es[k - 1].name, e.name); }
    }
    r := es[..k] + [e] + es[k..];
    InsertedLists(es, k, e, m);
  }

  lemma InsertedLists(es: seq<Entry>, k: nat, e: Entry, m: map<string, Entry>)
    requires Lists(es, m) && e.name !in m && k <= |es|
    requires forall i :: 0 <= i < k ==> Less(es[i].name, e.name)
    requires forall i :: k <= i < |es| ==> Less(e.name, es[i].name)
    ensures Lists(es[..k] + [e] + es[k..], m[e.name := e])
  {
    var r := es[..k] + [e] + es[k..];
    forall n | n in m[e.name := e] ensures Holds(r, n) {
      if n == e.name {
        assert r[k].name == n;
      } else {
        assert Holds(es, n);
        var i :| 0 <= i < |es| && es[i].name == n;
        assert r[if i < k then i else i + 1].name == n;
      }
    }
  }

  /** Removal: the entry map loses exactly that name. */
  method Remove(d: DirManifest, name: string) returns (out: DirManifest, removed: bool)
    requires Sorted(d.entries)
    ensures Sorted(out.entries) && out.meta == d.meta
    ensures EntryMap(out.entries) == EntryMap(d.entries) - {name}
    ensures removed <==> name in EntryMap(d.entries)
  {
    hide Less, EntryMap;
    NoEntries();
    var es := d.entries;
    assert es[..0] == [];
    var acc: seq<Entry> := [];
    removed := false;
    for i := 0 to |es|
      invariant Sorted(acc) && forall e :: e in acc ==> e in es[..i]
      invariant EntryMap(acc) == EntryMap(es[..i]) - {name}
      invariant removed <==> name in EntryMap(es[..i])
    {
      EntryMapLast(es, i);
      if es[i].name == name {
        removed := true;
      } else {
        forall j | 0 <= j < |acc| ensures Less(acc[j].name, es[i].name) {
          assert acc[j] in es[..i];
        }
        EntryMapMore(acc, es[i]);
        acc := acc + [es[i]];
      }
    }
    assert es[..|es|] == es;
    out := DirManifest(d.meta, acc);
  }

  lemma NoEntries()
    ensures EntryMap([]) == map[]
  {
  }

  lemma EntryMapMore(es: seq<Entry>, e: Entry)
    ensures EntryMap(es + [e]) == EntryMap(es)[e.name := e]
  {
    assert (es + [e])[..|es|] == es;
  }

  lemma EntryMapLast(es: seq<Entry>, i: nat)
    requires i < |es|
    ensures EntryMap(es[..i + 1]) == EntryMap(es[..i])[es[i].name := es[i]]
  {
    assert es[..i + 1][..i] == es[..i];
  }
}

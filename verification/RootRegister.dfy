/** Published roots: which of several records a reader settles on, and the register this makes. */
module RootRegister {
  import opened Core
  import opened Directory

  /** What a readable record says: its sequence number and its root, stripped of the decryption key. */
  datatype RootPointer = RootPointer(seqNo: nat, root: ReadCap)

  /** Decoding includes the signature check: None for anything unreadable or unsigned. */
  type Decode = Bytes -> Option<RootPointer>

  // ---------------------------------------------------------------- byte order

  /** Bytes as a string, in which they are compared. */
  function Text(b: Bytes): (s: string)
    ensures |s| == |b| && forall i :: 0 <= i < |b| ==> s[i] == b[i] as char
  {
    seq(|b|, i requires 0 <= i < |b| => b[i] as char)
  }

  lemma TextInjective(a: Bytes, b: Bytes)
    requires Text(a) == Text(b)
    ensures a == b
  {
    forall i | 0 <= i < |a| ensures a[i] == b[i] {
      assert Text(a)[i] == Text(b)[i];
    }
  }

  // ---------------------------------------------------------------- selection

  predicate Readable(decode: Decode, v: Bytes) {
    decode(v).Some?
  }

  /** A record that wins over another: a higher sequence number, or the smaller bytes at the same one. */
  predicate Beats(decode: Decode, v: Bytes, w: Bytes)
    requires Readable(decode, v) && Readable(decode, w)
  {
    var a, b := decode(v).value.seqNo, decode(w).value.seqNo;
    a > b || (a == b && Less(Text(v), Text(w)))
  }

  lemma BeatsTransitive(decode: Decode, u: Bytes, v: Bytes, w: Bytes)
    requires Readable(decode, u) && Readable(decode, v) && Readable(decode, w)
    requires Beats(decode, u, v) && Beats(decode, v, w)
    ensures Beats(decode, u, w)
  {
    if Less(Text(u), Text(v)) && Less(Text(v), Text(w)) { LessTransitive(Text(u), Text(v), Text(w)); }
  }

  lemma BeatsTotal(decode: Decode, v: Bytes, w: Bytes)
    requires Readable(decode, v) && Readable(decode, w)
    ensures v == w || Beats(decode, v, w) || Beats(decode, w, v)
    ensures !(Beats(decode, v, w) && Beats(decode, w, v)) && !(v == w && Beats(decode, v, w))
  {
    LessTrichotomy(Text(v), Text(w));
    if Text(v) == Text(w) { TextInjective(v, w); }
  }

  /** The winner among a set of records: readable, and beating every other readable one. */
  ghost predicate Wins(decode: Decode, all: set<Bytes>, v: Bytes) {
    && v in all && Readable(decode, v)
    && forall w :: w in all && Readable(decode, w) && w != v ==> Beats(decode, v, w)
  }

  lemma OneWinner(decode: Decode, all: set<Bytes>, v: Bytes, w: Bytes)
    requires Wins(decode, all, v) && Wins(decode, all, w)
    ensures v == w
  {
    if v != w { BeatsTotal(decode, v, w); }
  }

  function SetOf(values: seq<Bytes>): set<Bytes> {
    set i | 0 <= i < |values| :: values[i]
  }

  datatype SelectError = NoValidRecord

  /** The index of the winner; unreadable records are passed over. */
  method Select(decode: Decode, values: seq<Bytes>) returns (r: Result<nat, SelectError>)
    ensures r.Err? <==> forall v :: v in SetOf(values) ==> !Readable(decode, v)
    ensures r.Ok? ==> r.value < |values| && Wins(decode, SetOf(values), values[r.value])
  {
    hide Beats;
    var best: Option<nat> := None;
    for i := 0 to |values|
      invariant best.None? ==> forall j :: 0 <= j < i ==> !Readable(decode, values[j])
      invariant best.Some? ==> best.value < i && BestOf(decode, values, i, best.value)
    {
      if Readable(decode, values[i]) {
        var take := best.None? || Beats(decode, values[i], values[best.value]);
        BestStep(decode, values, i, best);
        if take { best := Some(i); }
      }
    }
    if best.None? { return Err(NoValidRecord); }
    assert values[best.value] in SetOf(values);
    return Ok(best.value);
  }

  /** Among the first k records none beats the one at b. */
  ghost predicate BestOf(decode: Decode, values: seq<Bytes>, k: nat, b: nat)
    requires b < k <= |values|
  {
    && Readable(decode, values[b])
    && forall j :: 0 <= j < k && Readable(decode, values[j]) && values[j] != values[b] ==> Beats(decode, values[b], values[j])
  }

  lemma BestStep(decode: Decode, values: seq<Bytes>, i: nat, best: Option<nat>)
    requires i < |values| && Readable(decode, values[i])
    requires best.None? ==> forall j :: 0 <= j < i ==> !Readable(decode, values[j])
    requires best.Some? ==> best.value < i && BestOf(decode, values, i, best.value)
    ensures BestOf(decode, values, i + 1, if best.None? || Beats(decode, values[i], values[best.value]) then i else best.value)
  {
    hide Beats;
    if best.Some? {
      var b := best.value;
      BeatsTotal(decode, values[i], values[b]);
      if Beats(decode, values[i], values[b]) {
        forall j | 0 <= j < i && Readable(decode, values[j]) && values[j] != values[i]
          ensures Beats(decode, values[i], values[j])
        {
          if values[j] != values[b] { BeatsTransitive(decode, values[i], values[b], values[j]); }
        }
      }
    }
  }

  // ---------------------------------------------------------------- who wins

  /** The bytes of v are the smaller: at their first difference, or by ending there. */
  ghost predicate Smaller(v: Bytes, w: Bytes) {
    exists k: nat :: SmallerAt(v, w, k)
  }

  ghost predicate SmallerAt(v: Bytes, w: Bytes, k: nat) {
    k <= |v| && k < |w| && v[..k] == w[..k] && (k < |v| ==> v[k] < w[k])
  }

  lemma LessIsSmaller(v: Bytes, w: Bytes)
    ensures Less(Text(v), Text(w)) <==> Smaller(v, w)
  {
    LessIsFirstDifference(Text(v), Text(w));
    if k: nat :| FirstDiffers(Text(v), Text(w), k) {
      forall i | 0 <= i < k ensures v[i] == w[i] { assert Text(v)[..k][i] == Text(w)[..k][i]; }
      assert v[..k] == w[..k] && SmallerAt(v, w, k);
    }
    if k: nat :| SmallerAt(v, w, k) {
      forall i | 0 <= i < k ensures Text(v)[i] == Text(w)[i] { assert v[..k][i] == w[..k][i]; }
      assert Text(v)[..k] == Text(w)[..k] && FirstDiffers(Text(v), Text(w), k);
    }
  }

  /** The winner has the highest number, and of the records at that number the smallest bytes. */
  lemma WinnerIs(decode: Decode, all: set<Bytes>, v: Bytes)
    ensures Wins(decode, all, v) <==>
              && v in all && decode(v).Some?
              && forall w :: w in all && decode(w).Some? && w != v ==>
                   || decode(v).value.seqNo > decode(w).value.seqNo
                   || (decode(v).value.seqNo == decode(w).value.seqNo && Smaller(v, w))
  {
    forall w ensures Less(Text(v), Text(w)) <==> Smaller(v, w) { LessIsSmaller(v, w); }
    hide Smaller, Less;
  }

  // ---------------------------------------------------------------- laws of selection

  /** The same records in any order, any number of times, have the same winner. */
  lemma OrderDoesNotMatter(decode: Decode, a: seq<Bytes>, b: seq<Bytes>, i: nat, j: nat)
    requires SetOf(a) == SetOf(b) && i < |a| && j < |b|
    requires Wins(decode, SetOf(a), a[i]) && Wins(decode, SetOf(b), b[j])
    ensures a[i] == b[j]
  {
    OneWinner(decode, SetOf(a), a[i], b[j]);
  }

  /** Selecting in stages: the winner of a group's winner and the rest is the winner of them all. */
  lemma Staged(decode: Decode, group: set<Bytes>, rest: set<Bytes>, v: Bytes, w: Bytes)
    requires Wins(decode, group, v) && Wins(decode, rest + {v}, w)
    ensures Wins(decode, group + rest, w)
  {
    hide Beats;
    forall u | u in group + rest && Readable(decode, u) && u != w ensures Beats(decode, w, u) {
      if u in group && u !in rest + {v} {
        if v != w { BeatsTransitive(decode, w, v, u); }
      }
    }
  }

  /** A group with nothing readable adds nothing. */
  lemma StagedEmpty(decode: Decode, group: set<Bytes>, rest: set<Bytes>, w: Bytes)
    requires (forall u :: u in group ==> !Readable(decode, u)) && Wins(decode, rest, w)
    ensures Wins(decode, group + rest, w)
  {
  }

  // ---------------------------------------------------------------- the register

  /** A register moved only by selection: it holds the same record, or one that beats it. */
  ghost predicate Moved(decode: Decode, before: Option<Bytes>, after: Option<Bytes>) {
    && (before.Some? ==> Readable(decode, before.value))
    && (after.Some? ==> Readable(decode, after.value))
    && (before.Some? ==> after.Some? && (after == before || Beats(decode, after.value, before.value)))
  }

  lemma MovedTransitive(decode: Decode, a: Option<Bytes>, b: Option<Bytes>, c: Option<Bytes>)
    requires Moved(decode, a, b) && Moved(decode, b, c)
    ensures Moved(decode, a, c)
  {
    hide Beats;
    if a.Some? && a != b && b != c { BeatsTransitive(decode, c.value, b.value, a.value); }
  }

  class Register {
    const decode: Decode
    var value: Option<Bytes>

    ghost predicate Valid() reads this {
      value.Some? ==> Readable(decode, value.value)
    }

    constructor (decode: Decode)
      ensures Valid() && this.decode == decode && value == None
    {
      this.decode := decode;
      value := None;
    }

    /** Publish a record: the register keeps the winner of what it holds and what is offered. */
    method Put(v: Bytes)
      requires Valid()
      modifies this
      ensures Valid() && Moved(decode, old(value), value)
      ensures Readable(decode, v) ==> Moved(decode, Some(v), value)
      ensures value == old(value) || (value == Some(v) && Readable(decode, v))
    {
      hide Beats;
      var values := if value.Some? then [value.value, v] else [v];
      var r := Select(decode, values);
      assert values[|values| - 1] == v && v in SetOf(values);
      assert value.Some? ==> values[0] == value.value && values[0] in SetOf(values);
      if r.Ok? {
        value := Some(values[r.value]);
      }
    }

    /** Any number of other writers publish. */
    method Others()
      requires Valid()
      modifies this
      ensures Valid() && Moved(decode, old(value), value)
    {
      hide Beats;
      var offered: seq<Bytes> := *;
      for i := 0 to |offered|
        invariant Valid() && Moved(decode, old(value), value)
      {
        ghost var before := value;
        Put(offered[i]);
        MovedTransitive(decode, old(value), before, value);
      }
    }
  }
}

/** The laws asked of hashing, sealing, coding and signing can be met, and a case of each kind that rests on them. */
module Witness {
  import opened Core
  import opened Directory
  import opened Erasure
  import Pipeline
  import Repair
  import Commit
  import RootRegister

  // ---------------------------------------------------------------- hashing and sealing

  /** Bytes as digits 1 to 256 in base 257. */
  function Digest(b: Bytes): nat {
    if b == [] then 0 else Digest(b[..|b| - 1]) * 257 + b[|b| - 1] as nat + 1
  }

  lemma {:induction false} DigestInjective(a: Bytes, b: Bytes)
    requires Digest(a) == Digest(b)
    ensures a == b
  {
    if a != [] && b != [] {
      LastDigit(Digest(a[..|a| - 1]), a[|a| - 1] as nat + 1, Digest(b[..|b| - 1]), b[|b| - 1] as nat + 1);
      DigestInjective(a[..|a| - 1], b[..|b| - 1]);
      assert a == a[..|a| - 1] + [a[|a| - 1]] && b == b[..|b| - 1] + [b[|b| - 1]];
    }
  }

  lemma LastDigit(x: nat, i: nat, y: nat, j: nat)
    requires 1 <= i <= 256 && 1 <= j <= 256 && x * 257 + i == y * 257 + j
    ensures x == y && i == j
  {
  }

  function Seal(key: nat, nonce: nat, x: Bytes): Bytes {
    x + Repeat(0 as byte, Pipeline.SEAL_OVERHEAD)
  }

  function Open(key: nat, s: Bytes): Option<Bytes> {
    if |s| < Pipeline.SEAL_OVERHEAD then None else Some(s[..|s| - Pipeline.SEAL_OVERHEAD])
  }

  // ---------------------------------------------------------------- a code

  /** Every parity shard repeats all of the data. */
  ghost function Parity(p: Params, data: seq<Bytes>): seq<Bytes> {
    Repeat(Concat(data), if p.m < 0 then 0 else p.m)
  }

  /** These shards are a part of this data's word. */
  ghost predicate IsWord(p: Params, data: seq<Bytes>, shards: seq<Option<Bytes>>) {
    0 <= p.k && Level(data, p.k) && PartOf(shards, data + Parity(p, data))
  }

  ghost function Reconstruct(p: Params, shards: seq<Option<Bytes>>): Option<seq<Bytes>> {
    if exists data :: IsWord(p, data, shards) then
      var data :| IsWord(p, data, shards);
      Some(data + Parity(p, data))
    else None
  }

  lemma {:induction false} ConcatShorter(a: seq<Bytes>, b: seq<Bytes>)
    requires |a| == |b| > 0 && forall i :: 0 <= i < |a| ==> |a[i]| < |b[i]|
    ensures |Concat(a)| < |Concat(b)|
  {
    if |a| > 1 { ConcatShorter(a[1..], b[1..]); }
  }

  lemma {:induction false} ConcatSame(a: seq<Bytes>, b: seq<Bytes>)
    requires |a| == |b| && Concat(a) == Concat(b) && forall i :: 0 <= i < |a| ==> |a[i]| == |b[i]|
    ensures a == b
  {
    if a != [] {
      var x, y := a[0] + Concat(a[1..]), b[0] + Concat(b[1..]);
      assert a[0] == x[..|a[0]|] && b[0] == y[..|a[0]|];
      assert Concat(a[1..]) == x[|a[0]|..] && Concat(b[1..]) == y[|a[0]|..];
      ConcatSame(a[1..], b[1..]);
      assert a == [a[0]] + a[1..] && b == [b[0]] + b[1..];
    }
  }

  /** Equally long shards are determined by their concatenation. */
  lemma LevelSame(a: seq<Bytes>, b: seq<Bytes>, k: nat)
    requires 0 < k && Level(a, k) && Level(b, k) && Concat(a) == Concat(b)
    ensures a == b
  {
    assert forall i :: 0 <= i < k ==> |a[i]| == |a[0]| && |b[i]| == |b[0]|;
    if |a[0]| < |b[0]| { ConcatShorter(a, b); }
    if |b[0]| < |a[0]| { ConcatShorter(b, a); }
    ConcatSame(a, b);
  }

  /** With nothing past the first k and at least k present, the first k are all there. */
  lemma {:induction false} AllPresent(shards: seq<Option<Bytes>>, k: nat, i: nat)
    requires i < k <= |shards| && Present(shards) >= k && forall j :: k <= j < |shards| ==> shards[j].None?
    ensures shards[i].Some?
    decreases |shards|
  {
    var front := shards[..|shards| - 1];
    if |shards| > k {
      AllPresent(front, k, i);
    } else if i < |shards| - 1 {
      AllPresent(front, k - 1, i);
    }
  }

  lemma OneWord(p: Params, a: seq<Bytes>, b: seq<Bytes>, shards: seq<Option<Bytes>>)
    requires p.Valid() && IsWord(p, a, shards) && IsWord(p, b, shards) && Present(shards) >= p.k
    ensures a == b
  {
    hide Present, Concat;
    var x, y := a + Parity(p, a), b + Parity(p, b);
    if exists j :: p.k <= j < |shards| && shards[j].Some? {
      var j :| p.k <= j < |shards| && shards[j].Some?;
      assert x[j] == Concat(a) && y[j] == Concat(b);
      LevelSame(a, b, p.k);
    } else {
      forall i | 0 <= i < p.k ensures a[i] == b[i] {
        AllPresent(shards, p.k, i);
        assert x[i] == a[i] && y[i] == b[i];
      }
    }
  }

  ghost function SampleCode(): Code {
    Code((p, data) => Parity(p, data), (p, shards) => Reconstruct(p, shards))
  }

  lemma SampleCodeLawful()
    ensures LawfulCode(SampleCode())
  {
    hide Present, Concat;
    var c := SampleCode();
    forall p: Params, data, shards
      | p.Valid() && Level(data, p.k) && PartOf(shards, data + c.parity(p, data)) && Present(shards) >= p.k
      ensures c.reconstruct(p, shards) == Some(data + c.parity(p, data))
    {
      assert IsWord(p, data, shards);
      var other :| IsWord(p, other, shards) && Reconstruct(p, shards) == Some(other + Parity(p, other));
      OneWord(p, data, other, shards);
    }
  }

  ghost function SampleCodecs(): Pipeline.Codecs {
    Pipeline.Codecs(Digest, Seal, Open, (x: Bytes) => x, (x: Bytes) => Some(x), SampleCode())
  }

  /** The laws the pipeline is built on can be met. */
  lemma CodecsExist()
    ensures Pipeline.Lawful(SampleCodecs())
  {
    hide LawfulCode;
    SampleCodeLawful();
    var c := SampleCodecs();
    forall a, b | c.hash(a) == c.hash(b) ensures a == b { DigestInjective(a, b); }
  }

  // ---------------------------------------------------------------- a blob no repair mends

  lemma ThreeAddresses(c: Pipeline.Codecs, word: seq<Bytes>)
    requires |word| == 3
    ensures Pipeline.Addresses(c, word) == [c.hash(word[0]), c.hash(word[1]), c.hash(word[2])]
  {
  }

  lemma TwoOfThree(s: seq<Option<Bytes>>)
    requires |s| == 3 && s[0].Some? && s[1].Some?
    ensures Present(s) >= 2
  {
    assert s[..2][..1] == [s[0]] && [s[0]][..0] == [];
    assert Present(s[..2][..1]) == 1;
  }

  /** A chunk whose third address holds other bytes: every repair succeeds and that shard still does not read back. */
  lemma CorruptBlobStays(sealed: Bytes) returns (before: Pipeline.Blobs, ref: ChunkRef, id: ShardID)
    ensures var c, p := SampleCodecs(), Params(2, 1);
            && Pipeline.Codes(c, p, ref, sealed) && id in ref.shards && Pipeline.Corrupt(c, before, id)
            && forall r, after :: Repair.RepairOutcome(c, before, p, ref, r, after) ==>
                 r.Ok? && Pipeline.Fetched(c, after, id) == None
  {
    var c, p := SampleCodecs(), Params(2, 1);
    var d := DataShards(p, sealed);
    var word := d + Parity(p, d);
    ThreeAddresses(c, word);
    ref := ChunkRef(0, false, Pipeline.Addresses(c, word));
    id := c.hash(word[2]);
    WholeIsLonger(d);
    before := map[id := [], c.hash(d[0]) := d[0], c.hash(d[1]) := d[1]];
    if c.hash(d[0]) == id { DigestInjective(d[0], word[2]); }
    if c.hash(d[1]) == id { DigestInjective(d[1], word[2]); }
    if c.hash(d[0]) == c.hash(d[1]) { DigestInjective(d[0], d[1]); }
    TwoOfThree(Pipeline.Fetch(c, before, ref.shards));
    hide Present, Digest, DataShards;
    forall r, after | Repair.RepairOutcome(c, before, p, ref, r, after) ensures r.Ok? && Pipeline.Fetched(c, after, id) == None {
      Repair.ReadsBackIff(c, before, ref.shards, after, id);
    }
  }

  lemma WholeIsLonger(d: seq<Bytes>)
    requires |d| == 2
    ensures Concat(d) == d[0] + d[1]
  {
    assert d[1..] == [d[1]] && d[1..][1..] == [];
    assert Concat(d[1..]) == d[1] + Concat([]);
  }

  // ---------------------------------------------------------------- signed records

  /** A number as that many ones and a zero. */
  function Unary(n: nat): Bytes {
    Repeat(1 as byte, n) + [0 as byte]
  }

  lemma {:induction false} UnaryApart(a: nat, x: Bytes, b: nat, y: Bytes)
    requires Unary(a) + x == Unary(b) + y
    ensures a == b && x == y
  {
    var u, v := Unary(a) + x, Unary(b) + y;
    assert u[a] == 0 && v[b] == 0;
    assert forall i :: 0 <= i < a ==> u[i] == 1;
    assert forall i :: 0 <= i < b ==> v[i] == 1;
    assert x == u[a + 1..] && y == v[b + 1..];
  }

  function Folded(i: int): nat {
    if i < 0 then -2 * i - 1 else 2 * i
  }

  function KindCode(k: Kind): nat {
    match k
    case KindFile => 0
    case KindDir => 1
    case KindOther(tag) => tag + 2
  }

  function ShardCode(shards: seq<ShardID>): Bytes {
    if shards == [] then [] else Unary(shards[0]) + ShardCode(shards[1..])
  }

  function CapCode(c: ReadCap): Bytes {
    Unary(KindCode(c.kind)) + (Unary(if c.compressed then 1 else 0) +
    (Unary(Folded(c.params.k)) + (Unary(Folded(c.params.m)) + (Unary(|c.shards|) + ShardCode(c.shards)))))
  }

  lemma {:induction false} ShardsApart(a: seq<ShardID>, b: seq<ShardID>)
    requires |a| == |b| && ShardCode(a) == ShardCode(b)
    ensures a == b
  {
    if a != [] {
      UnaryApart(a[0], ShardCode(a[1..]), b[0], ShardCode(b[1..]));
      ShardsApart(a[1..], b[1..]);
      assert a == [a[0]] + a[1..] && b == [b[0]] + b[1..];
    }
  }

  lemma CapsApart(a: ReadCap, b: ReadCap)
    requires CapCode(a) == CapCode(b)
    ensures Commit.Stripped(a) == Commit.Stripped(b)
  {
    hide Unary, ShardCode;
    var a5, b5 := Unary(|a.shards|) + ShardCode(a.shards), Unary(|b.shards|) + ShardCode(b.shards);
    var a4, b4 := Unary(Folded(a.params.m)) + a5, Unary(Folded(b.params.m)) + b5;
    var a3, b3 := Unary(Folded(a.params.k)) + a4, Unary(Folded(b.params.k)) + b4;
    var a2, b2 := Unary(if a.compressed then 1 else 0) + a3, Unary(if b.compressed then 1 else 0) + b3;
    UnaryApart(KindCode(a.kind), a2, KindCode(b.kind), b2);
    UnaryApart(if a.compressed then 1 else 0, a3, if b.compressed then 1 else 0, b3);
    UnaryApart(Folded(a.params.k), a4, Folded(b.params.k), b4);
    UnaryApart(Folded(a.params.m), a5, Folded(b.params.m), b5);
    UnaryApart(|a.shards|, ShardCode(a.shards), |b.shards|, ShardCode(b.shards));
    ShardsApart(a.shards, b.shards);
  }

  function Sign(root: ReadCap, n: nat, stamp: int): Bytes {
    Unary(n) + CapCode(root)
  }

  ghost predicate Signs(v: Bytes, root: ReadCap, n: nat) {
    n < UINT64 && v == Sign(root, n, 0)
  }

  ghost function Verified(v: Bytes): Option<RootRegister.RootPointer> {
    if exists root, n :: Signs(v, root, n) then
      var root, n :| Signs(v, root, n);
      Some(RootRegister.RootPointer(n, Commit.Stripped(root)))
    else None
  }

  lemma SignedApart(v: Bytes, root: ReadCap, n: nat, root': ReadCap, n': nat)
    requires Signs(v, root, n) && Signs(v, root', n')
    ensures n == n' && Commit.Stripped(root) == Commit.Stripped(root')
  {
    hide Unary, CapCode;
    UnaryApart(n, CapCode(root), n', CapCode(root'));
    CapsApart(root, root');
  }

  lemma ReadsBack(root: ReadCap, n: nat, stamp: int)
    requires n < UINT64
    ensures Verified(Sign(root, n, stamp)) == Some(RootRegister.RootPointer(n, Commit.Stripped(root)))
  {
    var v := Sign(root, n, stamp);
    assert Signs(v, root, n);
    var root', n' :| Signs(v, root', n') && Verified(v) == Some(RootRegister.RootPointer(n', Commit.Stripped(root')));
    SignedApart(v, root, n, root', n');
  }

  ghost function SampleCodec(): Commit.Codec {
    Commit.Codec(v => Verified(v), Sign)
  }

  /** The laws of signed records can be met. */
  lemma CodecExists()
    ensures Commit.Lawful(SampleCodec())
  {
    hide Sign;
    forall root, n: nat, t | n < UINT64
      ensures SampleCodec().decode(SampleCodec().sign(root, n, t)) == Some(RootRegister.RootPointer(n, Commit.Stripped(root)))
    {
      ReadsBack(root, n, t);
    }
  }
}

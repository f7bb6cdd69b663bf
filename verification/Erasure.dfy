/** Framing of a blob for erasure coding, and recovery from any K of its N shards. */
module Erasure {
  import opened Core

  // ---------------------------------------------------------------- big-endian lengths

  const HEADER_SIZE := 8

  function Pow256(w: nat): (n: nat)
    ensures n > 0
  {
    if w == 0 then 1 else 256 * Pow256(w - 1)
  }

  function ToBytes(n: nat, w: nat): (b: Bytes)
    ensures |b| == w
  {
    if w == 0 then [] else ToBytes(n / 256, w - 1) + [(n % 256) as byte]
  }

  function FromBytes(b: Bytes): nat {
    if b == [] then 0 else FromBytes(b[..|b| - 1]) * 256 + b[|b| - 1] as nat
  }

  lemma {:induction false} LengthRoundTrip(n: nat, w: nat)
    requires n < Pow256(w)
    ensures FromBytes(ToBytes(n, w)) == n
  {
    if w > 0 {
      LengthRoundTrip(n / 256, w - 1);
      var b := ToBytes(n, w);
      assert b[..|b| - 1] == ToBytes(n / 256, w - 1);
    }
  }

  lemma EightBytes()
    ensures Pow256(HEADER_SIZE) == UINT64
  {
    assert Pow256(2) == 0x1_0000 && Pow256(4) == 256 * (256 * Pow256(2)) == 0x1_0000_0000;
    assert Pow256(6) == 256 * (256 * Pow256(4)) && Pow256(8) == 256 * (256 * Pow256(6));
  }

  // ---------------------------------------------------------------- splitting and joining

  function Concat(parts: seq<Bytes>): Bytes {
    if parts == [] then [] else parts[0] + Concat(parts[1..])
  }

  /** Bytes per shard when n bytes are spread over k shards. */
  function PerShard(n: nat, k: nat): nat
    requires k > 0
  {
    (n + k - 1) / k
  }

  function Pieces(data: Bytes, k: nat, size: nat): (parts: seq<Bytes>)
    requires |data| == k * size
    ensures |parts| == k && forall i :: 0 <= i < k ==> |parts[i]| == size
  {
    if k == 0 then []
    else
      assert k * size == (k - 1) * size + size;
      NotNegative(k - 1, size);
      [data[..size]] + Pieces(data[size..], k - 1, size)
  }

  lemma NotNegative(k: nat, size: nat)
    ensures k * size >= 0
  {
  }

  lemma {:induction false} PiecesJoin(data: Bytes, k: nat, size: nat)
    requires |data| == k * size
    ensures Concat(Pieces(data, k, size)) == data
  {
    if k > 0 {
      assert k * size == (k - 1) * size + size;
      NotNegative(k - 1, size);
      PiecesJoin(data[size..], k - 1, size);
      assert Pieces(data, k, size)[1..] == Pieces(data[size..], k - 1, size);
    }
  }

  lemma Fits(n: nat, k: nat)
    requires k > 0
    ensures n <= k * PerShard(n, k)
  {
  }

  /** The payload padded with zeros to a whole number of shards. */
  function Padded(payload: Bytes, k: nat): (d: Bytes)
    requires k > 0
    ensures |d| == k * PerShard(|payload|, k) && payload <= d
  {
    Fits(|payload|, k);
    payload + Repeat(0 as byte, k * PerShard(|payload|, k) - |payload|)
  }

  function Framed(data: Bytes): Bytes {
    ToBytes(|data|, HEADER_SIZE) + data
  }

  // ---------------------------------------------------------------- the code

  /** Parity of the data shards, and reconstruction of all shards from those present. */
  datatype Code = Code(parity: (Params, seq<Bytes>) -> seq<Bytes>,
                       reconstruct: (Params, seq<Option<Bytes>>) -> Option<seq<Bytes>>)

  function Present(shards: seq<Option<Bytes>>): (n: nat)
    ensures n <= |shards|
  {
    if shards == [] then 0
    else Present(shards[..|shards| - 1]) + if shards[|shards| - 1].Some? then 1 else 0
  }

  /** The shards given are those of the word, or missing. */
  ghost predicate PartOf(shards: seq<Option<Bytes>>, word: seq<Bytes>) {
    |shards| == |word| && forall i :: 0 <= i < |word| ==> shards[i].None? || shards[i] == Some(word[i])
  }

  ghost predicate Level(shards: seq<Bytes>, n: nat) {
    |shards| == n && forall i, j :: 0 <= i < j < n ==> |shards[i]| == |shards[j]|
  }

  /** Reed-Solomon: K data shards give M parity shards, and any K of the N give all of them back. */
  ghost predicate LawfulCode(c: Code) {
    && (forall p: Params, data :: p.Valid() && Level(data, p.k) ==> |c.parity(p, data)| == p.m)
    && (forall p: Params, data, shards ::
          p.Valid() && Level(data, p.k) && PartOf(shards, data + c.parity(p, data)) && Present(shards) >= p.k
          ==> c.reconstruct(p, shards) == Some(data + c.parity(p, data)))
  }

  datatype ErasureError = BadParams | WrongCount | TooFew | NotACodeword | BadHeader

  function DataShards(p: Params, data: Bytes): (d: seq<Bytes>)
    requires p.Valid()
    ensures |d| == p.k && Level(d, p.k)
  {
    Pieces(Padded(Framed(data), p.k), p.k, PerShard(|Framed(data)|, p.k))
  }

  function Encode(c: Code, p: Params, data: Bytes): Result<seq<Bytes>, ErasureError> {
    if !p.Valid() then Err(BadParams)
    else
      var d := DataShards(p, data);
      Ok(d + c.parity(p, d))
  }

  /** What the K data shards hold, less the header and the padding. */
  function Unframed(payload: Bytes): Result<Bytes, ErasureError> {
    if |payload| < HEADER_SIZE then Err(BadHeader)
    else
      var n := FromBytes(payload[..HEADER_SIZE]);
      if |payload| - HEADER_SIZE < n then Err(BadHeader)
      else Ok(payload[HEADER_SIZE..HEADER_SIZE + n])
  }

  function Decode(c: Code, p: Params, shards: seq<Option<Bytes>>): Result<Bytes, ErasureError> {
    if !p.Valid() then Err(BadParams)
    else if |shards| != p.N() then Err(WrongCount)
    else if Present(shards) < p.k then Err(TooFew)
    else
      var full := c.reconstruct(p, shards);
      if full.None? || |full.value| < p.k then Err(NotACodeword) else Unframed(Concat(full.value[..p.k]))
  }

  lemma UnframedPadded(data: Bytes, k: nat)
    requires k > 0 && |data| < UINT64
    ensures Unframed(Padded(Framed(data), k)) == Ok(data)
  {
    var d := Padded(Framed(data), k);
    EightBytes();
    LengthRoundTrip(|data|, HEADER_SIZE);
    hide Pow256, ToBytes, FromBytes;
    assert d[..HEADER_SIZE] == Framed(data)[..HEADER_SIZE] == ToBytes(|data|, HEADER_SIZE);
    assert d[HEADER_SIZE..HEADER_SIZE + |data|] == Framed(data)[HEADER_SIZE..HEADER_SIZE + |data|] == data;
  }

  /** Of the shards of an encoded blob, any K give the blob back, and fewer are refused. */
  lemma AnyK(c: Code, p: Params, data: Bytes, shards: seq<Option<Bytes>>)
    requires LawfulCode(c) && p.Valid() && |data| < UINT64
    requires PartOf(shards, Encode(c, p, data).value)
    ensures Decode(c, p, shards) == if Present(shards) >= p.k then Ok(data) else Err(TooFew)
  {
    hide Padded, Framed, Concat, Present, Unframed, Pieces, PerShard;
    var d := DataShards(p, data);
    assert |c.parity(p, d)| == p.m;
    if Present(shards) >= p.k {
      assert c.reconstruct(p, shards) == Some(d + c.parity(p, d));
      assert (d + c.parity(p, d))[..p.k] == d;
      PiecesJoin(Padded(Framed(data), p.k), p.k, PerShard(|Framed(data)|, p.k));
      UnframedPadded(data, p.k);
    }
  }

  /** Lengths are read most significant byte first. */
  lemma {:induction false} MostSignificantFirst(x: byte, b: Bytes)
    ensures FromBytes([x] + b) == x as nat * Pow256(|b|) + FromBytes(b)
  {
    if b != [] {
      var front, w := b[..|b| - 1], |b| - 1;
      MostSignificantFirst(x, front);
      assert ([x] + b)[..|b|] == [x] + front;
      Scaled(x as nat, Pow256(w));
    } else {
      assert [x] + b == [x] && [x][..0] == [];
    }
  }

  lemma Scaled(x: nat, p: nat)
    ensures x * p * 256 == x * (256 * p)
  {
  }

  /** The data shards are of one length, the least that holds them all: length, data and then fewer than K zeros. */
  lemma ShardLayout(p: Params, data: Bytes)
    requires p.Valid()
    ensures var d, framed := DataShards(p, data), ToBytes(|data|, 8) + data;
            var pad := |d[0]| * p.k - |framed|;
            && |d| == p.k && (forall i :: 0 <= i < p.k ==> |d[i]| == |d[0]|)
            && 0 <= pad < p.k && Concat(d) == framed + Repeat(0 as byte, pad)
  {
    var n := |Framed(data)|;
    PiecesJoin(Padded(Framed(data), p.k), p.k, PerShard(n, p.k));
    LeastMultiple(n, p.k);
  }

  lemma LeastMultiple(n: nat, k: nat)
    requires k > 0
    ensures 0 <= k * PerShard(n, k) - n < k
  {
    var x := n + k - 1;
    assert x == k * (x / k) + x % k;
  }

  lemma EncodedCount(c: Code, p: Params, data: Bytes)
    requires LawfulCode(c) && p.Valid()
    ensures |Encode(c, p, data).value| == p.N()
  {
  }
}

/** Types shared by every part of the model. */
module Core {

  datatype Option<+T> = None | Some(value: T)

  datatype Result<+T, +E> = Ok(value: T) | Err(error: E)

  newtype byte = i: int | 0 <= i < 256

  type Bytes = seq<byte>

  /** The same value n times. */
  function Repeat<T>(x: T, n: nat): (s: seq<T>)
    ensures |s| == n && forall i :: 0 <= i < n ==> s[i] == x
  {
    seq(n, _ => x)
  }

  /** Nanoseconds. */
  const SECOND := 1_000_000_000

  const UINT64 := 0x1_0000_0000_0000_0000

  /** The content address of a shard: a digest read as a number. */
  type ShardID = nat

  /** A slash path split into its components. */
  type Path = seq<string>

  predicate IsPrefix(p: Path, q: Path) {
    |p| <= |q| && p == q[..|p|]
  }

  /** Neither path is an ancestor of, or equal to, the other. */
  predicate Incomparable(p: Path, q: Path) {
    !IsPrefix(p, q) && !IsPrefix(q, p)
  }

  /** The erasure code works over bytes, so a stripe has at most this many shards. */
  const MAX_SHARDS := 256

  /** What erasure coding of one chunk needs. */
  datatype Params = Params(k: int, m: int) {
    function N(): int { k + m }
    predicate Valid() { 1 <= k && 1 <= m && N() <= MAX_SHARDS }
  }

  datatype Config = Config(chunkSize: int, params: Params, compress: bool)

  /** Filesystem attributes; opaque to everything modelled here. */
  datatype Metadata = Metadata(mode: nat, modTimeNS: int, uid: int, gid: int, linkTarget: string)

  const NO_METADATA := Metadata(0, 0, 0, 0, "")

  /** The recipe for one stored chunk. */
  datatype ChunkRef = ChunkRef(key: nat, compressed: bool, shards: seq<ShardID>)

  datatype FileManifest =
    FileManifest(name: string, params: Config, size: nat, meta: Metadata, chunks: seq<ChunkRef>)
}

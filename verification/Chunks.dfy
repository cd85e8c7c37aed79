/** Splitting a transfer into chunks, and what copying the chunks does to memory. */
module Chunks {
  import opened Codec
  import opened Numbers

  const CHUNK_SIZE: nat := 0x20_0000

  datatype Chunk = Chunk(src: nat, dst: nat, len: nat)

  // The ceiling as computed in uint32_t, where the sum can wrap around.
  function ChunkCount(len: nat): nat {
    (len + CHUNK_SIZE - 1) % U32 / CHUNK_SIZE
  }

  function ChunkAt(src: nat, dst: nat, len: nat, i: nat): Chunk
    requires i * CHUNK_SIZE <= len
  {
    var offset := i * CHUNK_SIZE;
    Chunk((src + offset) % U64, (dst + offset) % U64, if len - offset > CHUNK_SIZE then CHUNK_SIZE else len - offset)
  }

  // Every length is one of three kinds: split into its ceiling of chunks, up to seven of two MiB each,
  // rejected, or so close to 2^32 that the ceiling wraps to no chunk at all.
  lemma ChunkCountCases(len: nat)
    requires len < U32
    ensures 1 <= ChunkCount(len) <= MAX_CHUNK_NUM <==> 1 <= len <= 14 * 1024 * 1024
    ensures ChunkCount(len) == 0 <==> len == 0 || len > 4094 * 1024 * 1024
    ensures 2 <= ChunkCount(len) <= MAX_CHUNK_NUM <==> 2 * 1024 * 1024 < len <= 14 * 1024 * 1024
    ensures 1 <= len <= U32 - CHUNK_SIZE
            ==> (ChunkCount(len) - 1) * CHUNK_SIZE < len <= ChunkCount(len) * CHUNK_SIZE
  {}

  function Split(src: nat, dst: nat, len: nat): (chunks: seq<Chunk>)
    requires len < U32
    ensures |chunks| == ChunkCount(len)
    ensures forall i | 0 <= i < |chunks| :: i * CHUNK_SIZE <= len && chunks[i] == ChunkAt(src, dst, len, i)
  {
    ChunkCountCases(len);
    seq(ChunkCount(len), i requires 0 <= i < ChunkCount(len) => ChunkAt(src, dst, len, i))
  }

  // common_split_chunks
  method CommonSplitChunks(src: nat, dst: nat, len: nat) returns (chunks: array?<Chunk>)
    requires len < U32
    ensures chunks == null <==> ChunkCount(len) > MAX_CHUNK_NUM
    ensures chunks != null ==> fresh(chunks) && chunks[..] == Split(src, dst, len)
  {
    var chunksNum := (len + CHUNK_SIZE - 1) % U32 / CHUNK_SIZE;
    if chunksNum > MAX_CHUNK_NUM {
      return null;
    }
    ChunkCountCases(len);
    chunks := new Chunk[chunksNum](_ => Chunk(0, 0, 0));
    for i := 0 to chunksNum
      invariant forall k | 0 <= k < i :: k * CHUNK_SIZE <= len && chunks[k] == ChunkAt(src, dst, len, k)
    {
      var offset := i * CHUNK_SIZE;
      var size := if len - offset > CHUNK_SIZE then CHUNK_SIZE else len - offset;
      chunks[i] := Chunk((src + offset) % U64, (dst + offset) % U64, size);
    }
  }

  // A transfer of an accepted length whose buffers lie within their address spaces.
  predicate GoodBuffers(src: nat, dst: nat, len: nat) {
    1 <= len <= MAX_CHUNK_NUM * CHUNK_SIZE && src + len <= U64 && dst + len <= U64
  }

  // How much of the transfer the first k chunks cover.
  function Covered(len: nat, k: nat): nat {
    if k * CHUNK_SIZE < len then k * CHUNK_SIZE else len
  }

  lemma CoveredGrows(len: nat, i: nat, j: nat)
    requires i <= j
    ensures Covered(len, i) <= Covered(len, j) <= len
  {}

  lemma ChunkPlace(src: nat, dst: nat, len: nat, i: nat)
    requires GoodBuffers(src, dst, len) && i < |Split(src, dst, len)|
    ensures var c := Split(src, dst, len)[i];
            && c.src == src + Covered(len, i) && c.dst == dst + Covered(len, i) && c.len > 0
            && Covered(len, i) + c.len == Covered(len, i + 1) && Covered(len, i) == i * CHUNK_SIZE
  {
    ChunkCountCases(len);
    assert i * CHUNK_SIZE <= (|Split(src, dst, len)| - 1) * CHUNK_SIZE < len;
  }

  // Chunk after chunk, the transfer is covered without gap or overlap.
  predicate Tiles(chunks: seq<Chunk>, src: nat, dst: nat, len: nat) {
    && chunks != []
    && (forall i {:trigger chunks[i]} | 0 <= i < |chunks| ::
          && chunks[i].src == src + Covered(len, i) && chunks[i].dst == dst + Covered(len, i)
          && Covered(len, i) + chunks[i].len == Covered(len, i + 1) && chunks[i].len > 0)
    && Covered(len, 0) == 0 && Covered(len, |chunks|) == len
  }

  lemma SplitTiles(src: nat, dst: nat, len: nat)
    requires GoodBuffers(src, dst, len)
    ensures Tiles(Split(src, dst, len), src, dst, len) && |Split(src, dst, len)| <= MAX_CHUNK_NUM
  {
    var chunks := Split(src, dst, len);
    ChunkCountCases(len);
    forall i {:trigger chunks[i]} | 0 <= i < |chunks|
      ensures chunks[i].src == src + Covered(len, i) && chunks[i].dst == dst + Covered(len, i)
              && Covered(len, i) + chunks[i].len == Covered(len, i + 1) && chunks[i].len > 0
    {
      ChunkPlace(src, dst, len, i);
    }
  }

  // The chunks partition [0, len): each starts where the one before it ends, all but the last are
  // full, the last is not empty, and together they reach the end.
  lemma SplitPartitions(src: nat, dst: nat, len: nat, i: nat)
    requires GoodBuffers(src, dst, len) && i < |Split(src, dst, len)|
    ensures var c, n := Split(src, dst, len), |Split(src, dst, len)|;
            && 1 <= n <= 7 && c[0].src == src && c[0].dst == dst
            && (if i < n - 1 then c[i].len == 2 * 1024 * 1024
                                  && c[i + 1].src == c[i].src + c[i].len && c[i + 1].dst == c[i].dst + c[i].len
                else 0 < c[i].len <= CHUNK_SIZE
                     && c[i].src + c[i].len == src + len && c[i].dst + c[i].len == dst + len)
  {
    SplitTiles(src, dst, len);
    ChunkPlace(src, dst, len, i);
    if i < |Split(src, dst, len)| - 1 {
      ChunkPlace(src, dst, len, i + 1);
    }
  }

  // Memory, byte by byte, of every address space there is: the buffers of a transfer may belong to
  // different hosts or devices.
  datatype Addr = Addr(space: nat, at: int)
  type Memory = Addr -> bv8

  // Between which spaces a transfer goes.
  datatype Route = Route(from: nat, to: nat)

  // The buffers have no byte in common.
  predicate Separate(r: Route, src: nat, dst: nat, len: nat) {
    r.from != r.to || src + len <= dst || dst + len <= src
  }

  // One write: memcpy of one chunk.
  function Copy(mem: Memory, r: Route, c: Chunk): Memory {
    (x: Addr) =>
      if x.space == r.to && c.dst <= x.at < c.dst + c.len then mem(Addr(r.from, c.src + (x.at - c.dst))) else mem(x)
  }

  function CopyAll(mem: Memory, r: Route, chunks: seq<Chunk>): Memory {
    if chunks == [] then mem else Copy(CopyAll(mem, r, chunks[..|chunks| - 1]), r, chunks[|chunks| - 1])
  }

  // The byte at address x once the first n bytes are transferred.
  function ByteAfter(mem: Memory, r: Route, src: nat, dst: nat, n: nat, x: Addr): bv8 {
    if x.space == r.to && dst <= x.at < dst + n then mem(Addr(r.from, src + (x.at - dst))) else mem(x)
  }

  lemma CopyOneMore(mem: Memory, r: Route, chunks: seq<Chunk>, k: nat)
    requires k < |chunks|
    ensures CopyAll(mem, r, chunks[..k + 1]) == Copy(CopyAll(mem, r, chunks[..k]), r, chunks[k])
  {
    assert chunks[..k + 1][..k] == chunks[..k];
  }

  // Where the byte that a write puts at x comes from.
  function Origin(r: Route, c: Chunk, x: Addr): Addr {
    Addr(r.from, c.src + (x.at - c.dst))
  }

  // Copying the next c.len bytes extends the transfer by as many.
  lemma CopyExtends(mem: Memory, before: Memory, r: Route, src: nat, dst: nat, n: nat, c: Chunk, x: Addr)
    requires c.src == src + n && c.dst == dst + n && Separate(r, src, dst, n + c.len)
    requires before(x) == ByteAfter(mem, r, src, dst, n, x)
    requires before(Origin(r, c, x)) == ByteAfter(mem, r, src, dst, n, Origin(r, c, x))
    ensures Copy(before, r, c)(x) == ByteAfter(mem, r, src, dst, n + c.len, x)
  {}

  lemma {:induction false} TilesCopied(mem: Memory, r: Route, chunks: seq<Chunk>, src: nat, dst: nat, len: nat, k: nat,
                                       x: Addr)
    requires Tiles(chunks, src, dst, len) && Separate(r, src, dst, len) && k <= |chunks|
    ensures CopyAll(mem, r, chunks[..k])(x) == ByteAfter(mem, r, src, dst, Covered(len, k), x)
  {
    if k > 0 {
      var before, c := CopyAll(mem, r, chunks[..k - 1]), chunks[k - 1];
      CopyOneMore(mem, r, chunks, k - 1);
      TilesCopied(mem, r, chunks, src, dst, len, k - 1, x);
      TilesCopied(mem, r, chunks, src, dst, len, k - 1, Origin(r, c, x));
      CopyExtends(mem, before, r, src, dst, Covered(len, k - 1), c, x);
    }
  }

  // Copying the first k chunks moves exactly the bytes they cover and changes no other byte.
  lemma CopiesCovered(mem: Memory, r: Route, src: nat, dst: nat, len: nat, k: nat, x: Addr)
    requires GoodBuffers(src, dst, len) && Separate(r, src, dst, len) && k <= |Split(src, dst, len)|
    ensures CopyAll(mem, r, Split(src, dst, len)[..k])(x) == ByteAfter(mem, r, src, dst, Covered(len, k), x)
  {
    SplitTiles(src, dst, len);
    TilesCopied(mem, r, Split(src, dst, len), src, dst, len, k, x);
  }

  // In particular, each of these chunks is there.
  lemma ChunkCopied(mem: Memory, r: Route, src: nat, dst: nat, len: nat, k: nat, i: nat, x: Addr)
    requires GoodBuffers(src, dst, len) && Separate(r, src, dst, len) && i < k <= |Split(src, dst, len)|
    requires var c := Split(src, dst, len)[i]; x.space == r.to && c.dst <= x.at < c.dst + c.len
    ensures CopyAll(mem, r, Split(src, dst, len)[..k])(x) == mem(Addr(r.from, src + (x.at - dst)))
  {
    ChunkPlace(src, dst, len, i);
    CopiesCovered(mem, r, src, dst, len, k, x);
    CoveredGrows(len, i + 1, k);
  }

  // Copying all of them makes the destination equal to the source and changes nothing else.
  lemma WholeTransferCopied(mem: Memory, r: Route, src: nat, dst: nat, len: nat, x: Addr)
    requires GoodBuffers(src, dst, len) && Separate(r, src, dst, len)
    ensures CopyAll(mem, r, Split(src, dst, len))(x) == ByteAfter(mem, r, src, dst, len, x)
  {
    SplitTiles(src, dst, len);
    var chunks := Split(src, dst, len);
    assert chunks[..|chunks|] == chunks;
    TilesCopied(mem, r, chunks, src, dst, len, |chunks|, x);
  }
}

/** Request ids and the 64-bit user data word that travels with every completion.
    Bits 59..0 hold a request id, bit 60 the chunk type, bits 63..61 the chunk id. */
module Codec {
  // The arithmetic is C's on uint64_t; Word wraps the bits so that words can be compared and
  // used as keys.
  type u64 = bv64

  datatype Word = Word(bits: u64)

  const REQUEST_ID_MASK: u64 := (1 << 60) - 1
  const FIELD_MASK: u64 := (1 << 20) - 1
  const MAX_REQUEST_ID: u64 := (1 << 40) - 1
  const MIDDLE_CHUNK: u64 := 0
  const LAST_CHUNK: u64 := 1
  const MAX_CHUNK_NUM: nat := 7
  // The chunk id of a notify's local completion: the first id that no chunk can have.
  const SENTINEL: u64 := 7

  // The union os_transport_user_data_t, filled field by field; each field is truncated to its width.
  function UserData(requestId: u64, chunkId: u64, chunkType: u64): (w: u64)
    ensures requestId <= REQUEST_ID_MASK ==> RequestIdOf(w) == requestId
    ensures chunkType <= 1 ==> ChunkTypeOf(w) == chunkType
    ensures chunkId <= 7 ==> ChunkIdOf(w) == chunkId
  {
    (requestId & REQUEST_ID_MASK) | ((chunkType & 1) << 60) | ((chunkId & 7) << 61)
  }

  function RequestIdOf(w: u64): u64 {
    w & REQUEST_ID_MASK
  }

  function ChunkTypeOf(w: u64): u64 {
    (w >> 60) & 1
  }

  function ChunkIdOf(w: u64): u64 {
    (w >> 61) & 7
  }

  function WithRequestId(w: u64, requestId: u64): u64 {
    (w & !REQUEST_ID_MASK) | (requestId & REQUEST_ID_MASK)
  }

  function WithChunkId(w: u64, chunkId: u64): u64 {
    (w & ((1 << 61) - 1)) | ((chunkId & 7) << 61)
  }

  predicate ValidRequestId(requestId: u64) {
    requestId <= MAX_REQUEST_ID
  }

  // Bits 39..20 of the transport field carry nothing.
  predicate GapIsZero(encoded: u64) {
    (encoded >> 20) & FIELD_MASK == 0
  }

  function EncodeRequestId(raw: u64): (encoded: u64)
    ensures encoded <= REQUEST_ID_MASK && GapIsZero(encoded)
    ensures ValidRequestId(raw) ==> DecodeRequestId(encoded) == raw
  {
    (((raw >> 20) & FIELD_MASK) << 40) | (raw & FIELD_MASK)
  }

  function DecodeRequestId(encoded: u64): (raw: u64)
    ensures ValidRequestId(raw)
  {
    (((encoded >> 40) & FIELD_MASK) << 20) | (encoded & FIELD_MASK)
  }

  lemma EncodeIsInjective(a: u64, b: u64)
    requires ValidRequestId(a) && ValidRequestId(b)
    ensures EncodeRequestId(a) == EncodeRequestId(b) <==> a == b
  {
    assert DecodeRequestId(EncodeRequestId(a)) == a && DecodeRequestId(EncodeRequestId(b)) == b;
  }

  lemma ReencodeIsIdentityIffGapIsZero(encoded: u64)
    requires encoded <= REQUEST_ID_MASK
    ensures EncodeRequestId(DecodeRequestId(encoded)) == encoded <==> GapIsZero(encoded)
  {}

  // Every word is the packing of its own three fields, so the layout loses nothing.
  lemma UnpackThenPack(w: u64)
    ensures UserData(RequestIdOf(w), ChunkIdOf(w), ChunkTypeOf(w)) == w
  {}

  // The layouts in numbers: the type weighs 2^60 and the chunk id 2^61; the transport field moves the
  // upper half of a request id up by twenty bits.
  lemma WordInNumbers(requestId: u64, chunkId: u64, chunkType: u64)
    requires requestId <= 0x0FFF_FFFF_FFFF_FFFF && chunkId <= 7 && chunkType <= 1
    ensures UserData(requestId, chunkId, chunkType)
            == requestId + 0x1000_0000_0000_0000 * chunkType + 0x2000_0000_0000_0000 * chunkId
  {}

  lemma EncodedInNumbers(upper: u64, lower: u64)
    requires upper <= 0xF_FFFF && lower <= 0xF_FFFF
    ensures EncodeRequestId(0x10_0000 * upper + lower) == 0x100_0000_0000 * upper + lower
  {}

  // Replacing one field leaves the other two.
  lemma OtherRequestSameChunk(w: u64, requestId: u64)
    requires requestId <= REQUEST_ID_MASK
    ensures WithRequestId(w, requestId) == UserData(requestId, ChunkIdOf(w), ChunkTypeOf(w))
  {}

  lemma OtherChunkSameRequest(w: u64, chunkId: u64)
    requires chunkId <= 7
    ensures WithChunkId(w, chunkId) == UserData(RequestIdOf(w), chunkId, ChunkTypeOf(w))
  {}

  /** What a completion asks of the pool: nothing for a notify's local completion,
      otherwise to wake request `rid` with `data`. */
  datatype Wakeup = Ignored | WakeUp(rid: Word, data: Word)

  // A completion on the receiving side carries the peer's immediate.
  function OnReceive(imm: u64): Wakeup {
    var data := WithRequestId(imm, DecodeRequestId(RequestIdOf(imm)));
    WakeUp(Word(RequestIdOf(data)), Word(data))
  }

  // A completion on the sending side carries the user context it was posted with.
  function OnLocal(userCtx: u64): Wakeup {
    if ChunkIdOf(userCtx) >= SENTINEL then Ignored else WakeUp(Word(RequestIdOf(userCtx)), Word(userCtx))
  }

  lemma ReceiveRoundTrip(clientKey: u64, chunkId: u64, chunkType: u64)
    requires ValidRequestId(clientKey) && chunkId <= 7 && chunkType <= 1
    ensures OnReceive(UserData(EncodeRequestId(clientKey), chunkId, chunkType))
            == WakeUp(Word(clientKey), Word(UserData(clientKey, chunkId, chunkType)))
  {
    var imm := UserData(EncodeRequestId(clientKey), chunkId, chunkType);
    assert RequestIdOf(imm) == EncodeRequestId(clientKey);
    assert WithRequestId(imm, clientKey) == UserData(clientKey, chunkId, chunkType);
  }

  // Small numbers as words.
  function AsWord(i: nat): (w: u64)
    requires i < 8
    ensures w <= 7 && (i < MAX_CHUNK_NUM ==> w < SENTINEL)
  {
    if i == 0 then 0 else if i == 1 then 1 else if i == 2 then 2 else if i == 3 then 3
    else if i == 4 then 4 else if i == 5 then 5 else if i == 6 then 6 else 7
  }

  lemma AsWordIsInjective(i: nat, j: nat)
    requires i < 8 && j < 8
    ensures AsWord(i) == AsWord(j) <==> i == j
  {}

  lemma AsWordIsTheNumber(i: nat)
    requires i < 8
    ensures AsWord(i) as int == i
  {
    assert i == 0 || i == 1 || i == 2 || i == 3 || i == 4 || i == 5 || i == 6 || i == 7;
  }
}

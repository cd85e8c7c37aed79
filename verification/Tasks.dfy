/** The tasks that a send and a recv register, and what their bodies post. */
module Tasks {
  import opened Codec
  import opened Lists
  import opened PoolSpec

  function TypeOf(i: nat, n: nat): u64 {
    if i + 1 >= n then LAST_CHUNK else MIDDLE_CHUNK
  }

  // ----- Posting.

  // What a work request carries: the local user context, and either a chunk to write or the
  // immediate for the peer.
  datatype WorkRequest =
    | WriteChunk(userCtx: u64, chunk: nat)
    | SendImm(userCtx: u64, imm: u64)

  datatype Opcode = OpWrite | OpSendImm

  // urma_write_internal up to the post: None when a write has no chunk.
  method BuildWorkRequest(server: u64, client: u64, chunk: Option<nat>, op: Opcode) returns (wr: Option<WorkRequest>)
    ensures op.OpWrite? ==> wr == if chunk.None? then None else Some(WriteChunk(server, chunk.value))
    ensures op.OpSendImm? ==> wr == Some(NotifyRequest(server, client))
  {
    var userCtx := server;
    if op.OpWrite? {
      if chunk.None? {
        return None;
      }
      wr := Some(WriteChunk(userCtx, chunk.value));
    } else {
      var invalidChunkId := SENTINEL;
      userCtx := WithChunkId(userCtx, invalidChunkId);
      wr := Some(SendImm(userCtx, client));
    }
  }

  // A notify's own completion must not look like that of a write, so its chunk id is overwritten.
  function NotifyRequest(server: u64, client: u64): (wr: WorkRequest)
    ensures OnLocal(wr.userCtx) == Ignored
  {
    assert ChunkIdOf(WithChunkId(server, SENTINEL)) == SENTINEL;
    SendImm(WithChunkId(server, SENTINEL), client)
  }

  // The union's field view; Pack is its 64-bit view.
  datatype Fields = Fields(requestId: u64, chunkId: nat, chunkType: u64)

  function Pack(f: Fields): u64
    requires f.chunkId < 8
  {
    UserData(f.requestId, AsWord(f.chunkId), f.chunkType)
  }

  // A callback that takes the word apart finds the very numbers that were packed.
  lemma PackReadsBack(f: Fields)
    requires f.requestId <= REQUEST_ID_MASK && f.chunkId < 8 && f.chunkType <= 1
    ensures RequestIdOf(Pack(f)) == f.requestId && ChunkTypeOf(Pack(f)) == f.chunkType
    ensures ChunkIdOf(Pack(f)) as int == f.chunkId
  {
    AsWordIsTheNumber(f.chunkId);
    assert ChunkIdOf(Pack(f)) == AsWord(f.chunkId);
  }

  // Of n chunks exactly the last one is typed as the last.
  lemma ChunkReadsBack(n: nat, requestId: u64, i: nat)
    requires i < n <= MAX_CHUNK_NUM && requestId <= REQUEST_ID_MASK
    ensures var w := Pack(Fields(requestId, i, TypeOf(i, n)));
            && RequestIdOf(w) == requestId && ChunkIdOf(w) as int == i
            && (ChunkTypeOf(w) == 1 <==> i == n - 1) && (ChunkTypeOf(w) == 0 <==> i < n - 1)
  {
    PackReadsBack(Fields(requestId, i, TypeOf(i, n)));
  }

  // ----- Send.

  datatype SendArg = SendArg(chunk: Option<nat>, server: Fields, client: Fields)

  // Task i announces chunk i and then writes chunk i + 1; the last one only announces.
  function SendArgAt(n: nat, serverId: u64, clientId: u64, i: nat): SendArg {
    SendArg(if i + 1 < n then Some(i + 1) else None,
            Fields(serverId, i + 1, TypeOf(i + 1, n)),
            Fields(clientId, i, TypeOf(i, n)))
  }

  // The loops of register_send_tasks: fill every argument for its own chunk, then shift the
  // announcements by one. Fewer than two chunks are refused.
  method RegisterSendTasks(n: nat, serverId: u64, clientId: u64) returns (args: array?<SendArg>)
    ensures args == null <==> n < 2
    ensures args != null ==> fresh(args) && args.Length == n
                             && forall i | 0 <= i < n :: args[i] == SendArgAt(n, serverId, clientId, i)
  {
    if n < 2 {
      return null;
    }
    var base := Fields(clientId, 0, MIDDLE_CHUNK);
    args := new SendArg[n](_ => SendArg(None, base, base));
    var chunkIdx := 1;
    for i := 0 to n
      invariant chunkIdx == i + 1
      invariant forall k | 0 <= k < i ::
        args[k] == SendArgAt(n, serverId, clientId, k).(client := Fields(clientId, k + 1, TypeOf(k + 1, n)))
    {
      var chunkType := if chunkIdx >= n - 1 then LAST_CHUNK else MIDDLE_CHUNK;
      var chunk := if chunkIdx < n then Some(chunkIdx) else None;
      args[i] := SendArg(chunk, Fields(serverId, chunkIdx, chunkType), Fields(base.requestId, chunkIdx, chunkType));
      chunkIdx := chunkIdx + 1;
    }
    for i := n downto 1
      invariant forall k | 0 <= k < i ::
        args[k] == SendArgAt(n, serverId, clientId, k).(client := Fields(clientId, k + 1, TypeOf(k + 1, n)))
      invariant forall k | i <= k < n :: args[k] == SendArgAt(n, serverId, clientId, k)
    {
      args[i] := args[i].(client := args[i - 1].client);
    }
    args[0] := args[0].(client := base);
  }

  // The pool's view of a send: unkeyed tasks under the server key.
  function SendBatch(n: nat, serverKey: u64): (batch: seq<Task>)
    ensures |batch| == n && forall i | 0 <= i < n :: batch[i] == Task(Word(serverKey), i, None)
  {
    seq(n, i requires 0 <= i < n => Task(Word(serverKey), i, None))
  }

  datatype Posted = Posted(requests: seq<WorkRequest>, status: int)

  // do_send_chunk_for_worker, given how the two posts would end: announce, then write.
  function SendBody(arg: SendArg, notifyResult: int, writeResult: int): Posted
    requires arg.client.chunkId < 8 && arg.server.chunkId < 8
  {
    if notifyResult != 0 then Posted([], notifyResult)
    else
      var notify := NotifyRequest(Pack(arg.server), Pack(arg.client));
      if arg.chunk.None? then Posted([notify], 0)
      else if writeResult != 0 then Posted([notify], writeResult)
      else Posted([notify, WriteChunk(Pack(arg.server), arg.chunk.value)], 0)
  }

  // The completion of the write of any chunk wakes the sending request.
  lemma WriteCompletionWakes(n: nat, serverKey: u64, c: nat)
    requires c < n <= MAX_CHUNK_NUM && ValidRequestId(serverKey)
    ensures var ctx := Pack(Fields(serverKey, c, TypeOf(c, n)));
            OnLocal(ctx) == WakeUp(Word(serverKey), Word(ctx))
  {
    assert ChunkIdOf(Pack(Fields(serverKey, c, TypeOf(c, n)))) == AsWord(c) < SENTINEL;
  }

  // ----- Recv.

  function RecvKey(n: nat, clientKey: u64, i: nat): Word
    requires i < 8
  {
    Word(Pack(Fields(clientKey, i, TypeOf(i, n))))
  }

  datatype RecvArg = RecvArg(chunk: nat, expected: Fields)

  // The loop of register_recv_tasks: one task per chunk, each insisting on its own immediate.
  method RegisterRecvTasks(n: nat, clientKey: u64) returns (args: array<RecvArg>)
    ensures fresh(args) && args.Length == n
    ensures forall i | 0 <= i < n :: args[i] == RecvArg(i, Fields(clientKey, i, TypeOf(i, n)))
  {
    args := new RecvArg[n](_ => RecvArg(0, Fields(0, 0, 0)));
    for i := 0 to n
      invariant forall k | 0 <= k < i :: args[k] == RecvArg(k, Fields(clientKey, k, TypeOf(k, n)))
    {
      var chunkType := if i == n - 1 then LAST_CHUNK else MIDDLE_CHUNK;
      args[i] := RecvArg(i, Fields(clientKey, i, chunkType));
    }
  }

  // The pool's view of a recv: each task keyed with the packed immediate it insists on.
  function RecvBatch(n: nat, clientKey: u64): (batch: seq<Task>)
    requires n <= MAX_CHUNK_NUM
    ensures |batch| == n
    ensures forall i | 0 <= i < n :: batch[i] == Task(Word(clientKey), i, Some(RecvKey(n, clientKey, i)))
  {
    seq(n, i requires 0 <= i < n => Task(Word(clientKey), i, Some(RecvKey(n, clientKey, i))))
  }

  lemma RecvKeysDiffer(n: nat, clientKey: u64, i: nat, j: nat)
    requires i < 8 && j < 8
    ensures RecvKey(n, clientKey, i) == RecvKey(n, clientKey, j) <==> i == j
  {
    AsWordIsInjective(i, j);
    assert ChunkIdOf(RecvKey(n, clientKey, i).bits) == AsWord(i);
    assert ChunkIdOf(RecvKey(n, clientKey, j).bits) == AsWord(j);
  }

  lemma AnnouncementDecodes(n: nat, clientKey: u64, i: nat)
    requires i < 8 && ValidRequestId(clientKey)
    ensures OnReceive(Pack(Fields(EncodeRequestId(clientKey), i, TypeOf(i, n))))
            == WakeUp(Word(clientKey), RecvKey(n, clientKey, i))
  {
    ReceiveRoundTrip(clientKey, AsWord(i), TypeOf(i, n));
  }

  lemma OnlyTaskHasKey(n: nat, clientKey: u64, i: nat, j: nat)
    requires i < n <= MAX_CHUNK_NUM && j < n
    ensures RecvBatch(n, clientKey)[j].key == Some(RecvKey(n, clientKey, i)) <==> i == j
  {
    RecvKeysDiffer(n, clientKey, i, j);
  }

  // What task i of the sender announces is, once decoded, exactly what task i of the receiver
  // insists on, and no other task of the receiver does.
  lemma AnnouncementMatchesReceiver(n: nat, serverKey: u64, clientKey: u64, i: nat)
    requires i < n <= MAX_CHUNK_NUM && ValidRequestId(clientKey)
    ensures var wakeup := OnReceive(Pack(SendArgAt(n, serverKey, EncodeRequestId(clientKey), i).client));
            && wakeup.WakeUp? && wakeup.rid == Word(clientKey)
            && forall j | 0 <= j < n :: RecvBatch(n, clientKey)[j].key == Some(wakeup.data) <==> i == j
  {
    AnnouncementDecodes(n, clientKey, i);
    forall j | 0 <= j < n
      ensures RecvBatch(n, clientKey)[j].key == Some(RecvKey(n, clientKey, i)) <==> i == j
    {
      OnlyTaskHasKey(n, clientKey, i, j);
    }
  }

  // Whatever names a chunk names it as the last of its transfer if and only if it is: the announcement
  // that the sender registers for it, what the receiver decodes from that, what the recv task insists
  // on, and the context of the write that the task before it posts.
  lemma LastChunkIsTyped(n: nat, serverKey: u64, clientKey: u64, i: nat)
    requires i < n <= MAX_CHUNK_NUM && ValidRequestId(serverKey) && ValidRequestId(clientKey)
    ensures var imm := Pack(SendArgAt(n, serverKey, EncodeRequestId(clientKey), i).client);
            && (ChunkTypeOf(imm) == 1 <==> i == n - 1) && ChunkIdOf(imm) as int == i
            && OnReceive(imm).WakeUp?
            && (ChunkTypeOf(OnReceive(imm).data.bits) == 1 <==> i == n - 1)
    ensures var key := RecvKey(n, clientKey, i).bits;
            && (ChunkTypeOf(key) == 1 <==> i == n - 1) && ChunkIdOf(key) as int == i && RequestIdOf(key) == clientKey
    ensures i > 0 ==>
              var ctx := Pack(SendArgAt(n, serverKey, EncodeRequestId(clientKey), i - 1).server);
              && (ChunkTypeOf(ctx) == 1 <==> i == n - 1) && ChunkIdOf(ctx) as int == i && RequestIdOf(ctx) == serverKey
  {
    ChunkReadsBack(n, EncodeRequestId(clientKey), i);
    ChunkReadsBack(n, clientKey, i);
    ChunkReadsBack(n, serverKey, i);
    AnnouncementDecodes(n, clientKey, i);
  }
}

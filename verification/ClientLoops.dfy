/**
 The loops of the client's two threads and their posts, on buffers and descriptors, proved against what they move and to
 be runs of those threads' steps in the client's step system.
 */
module ClientLoops {
  import opened Streams
  import opened Forwarding
  import opened Client
  import opened ClientInvariant
  import opened ClientWitness
  import Runs

  // ---------------------------------------------------------------- sending

  /** The sending thread, not cancelled, having read `pos` bytes of `input` and written `written` to the socket. */
  predicate SendingFrom(s: State, input: seq<byte>, pos: nat, written: seq<byte>) {
    && !s.aborted && !s.cancelSend
    && s.input == input && s.pos == pos && s.sock.up.sent == written
  }

  lemma ReadIsSendStep(s0: State, s: State, input: seq<byte>, pos: nat, written: seq<byte>, k: nat) returns (s': State)
    requires Solo(s0, s) && SendingFrom(s, input, pos, written) && s.send == SReadEnter
    requires 1 <= k <= BUFFER_SIZE && pos + k <= |input|
    ensures Solo(s0, s') && SendingFrom(s', input, pos + k, written)
    ensures s'.send == SWriteEnter(input[pos..pos + k], 0)
  {
    s' := SendGoes(s0, s, EnterRead);
    s' := SendGoes(s0, s', ReadInput(k));
  }

  lemma WriteIsSendStep(s0: State, s: State, input: seq<byte>, pos: nat, written: seq<byte>, buffer: seq<byte>, n: nat,
                        k: nat) returns (s': State)
    requires Solo(s0, s) && SendingFrom(s, input, pos, written) && s.send == SWriteEnter(buffer, n)
    requires 1 <= k && n + k <= |buffer|
    ensures Solo(s0, s') && SendingFrom(s', input, pos, written + buffer[n..n + k])
    ensures s'.send == AfterWrite(buffer, n + k)
  {
    s' := SendGoes(s0, s, EnterWrite);
    s' := SendGoes(s0, s', Wrote(k));
  }

  /** The writes of one write_all, as steps of the sending thread. */
  lemma {:induction false} WritesAreSendSteps(
    s0: State, s: State, input: seq<byte>, pos: nat, written: seq<byte>, buffer: seq<byte>, sizes: seq<nat>)
    returns (s': State)
    requires Solo(s0, s) && SendingFrom(s, input, pos, written) && s.send == SWriteEnter(buffer, 0)
    requires Positive(sizes) && buffer != [] && Sum(sizes) <= |buffer|
    ensures Solo(s0, s') && SendingFrom(s', input, pos, written + buffer[..Sum(sizes)])
    ensures s'.send == AfterWrite(buffer, Sum(sizes))
  {
    if sizes == [] {
      s' := s;
      assert written + buffer[..0] == written;
    } else {
      var init, k := sizes[..|sizes| - 1], sizes[|sizes| - 1];
      var s1 := WritesAreSendSteps(s0, s, input, pos, written, buffer, init);
      s' := WriteIsSendStep(s0, s1, input, pos, written + buffer[..Sum(init)], buffer, Sum(init), k);
      assert written + buffer[..Sum(init)] + buffer[Sum(init)..Sum(sizes)] == written + buffer[..Sum(sizes)];
    }
  }

  lemma SendEndIsStep(s0: State, s: State, input: seq<byte>, pos: nat, written: seq<byte>, r: SendResult)
      returns (s': State)
    requires Solo(s0, s) && SendingFrom(s, input, pos, written)
    requires if r.func == ReadFunc then s.send == SReadEnter && (r.status == 0 ==> pos == |input|)
             else s.send.SWriteEnter? && r.status != 0
    ensures Solo(s0, s') && SendingFrom(s', input, pos, written) && s'.send == SLock(r)
  {
    if r.func == WriteFunc {
      s' := SendGoes(s0, s, EnterWrite);
      s' := SendGoes(s0, s', WriteFail(r.status));
    } else {
      s' := SendGoes(s0, s, EnterRead);
      s' := SendGoes(s0, s', if r.status == 0 then InputEof else InputFail(r.status));
    }
  }

  lemma ForwardIsSendSteps(s0: State, s: State, input: seq<byte>, pos: nat, written: seq<byte>, m: Move)
      returns (s': State)
    requires Solo(s0, s) && SendingFrom(s, input, pos, written) && s.send == SReadEnter
    requires Proper(m) && pos + m.read <= |input|
    ensures Solo(s0, s') && SendingFrom(s', input, pos + m.read, written + input[pos..pos + Sum(m.sizes)])
    ensures s'.send == AfterWrite(input[pos..pos + m.read], Sum(m.sizes))
  {
    s' := ReadIsSendStep(s0, s, input, pos, written, m.read);
    s' := WritesAreSendSteps(s0, s', input, pos + m.read, written, input[pos..pos + m.read], m.sizes);
    assert input[pos..pos + m.read][..Sum(m.sizes)] == input[pos..pos + Sum(m.sizes)];
  }

  lemma {:induction false} MovesAreSendSteps(s: State, input: seq<byte>, pos: nat, written: seq<byte>, moves: seq<Move>)
      returns (s': State)
    requires SendingFrom(s, input, pos, written) && s.send == SReadEnter
    requires Forwards(moves, false) && pos + Reads(moves) <= |input|
    ensures Solo(s, s') && s'.send == SReadEnter
    ensures SendingFrom(s', input, pos + Reads(moves), written + input[pos..pos + Reads(moves)])
  {
    if moves == [] {
      Runs.StartIsReachable(s, SoloStep);
      s' := s;
      assert written + input[pos..pos] == written;
    } else {
      var init, m := moves[..|moves| - 1], moves[|moves| - 1];
      var pos1 := pos + Reads(init);
      s' := MovesAreSendSteps(s, input, pos, written, init);
      s' := ForwardIsSendSteps(s, s', input, pos1, written + input[pos..pos1], m);
      Appended(written, input, pos, pos1, pos1 + m.read);
    }
  }

  lemma FailedWriteIsSendSteps(s: State, input: seq<byte>, pos: nat, written: seq<byte>, moves: seq<Move>, r: SendResult)
      returns (s': State)
    requires SendingFrom(s, input, pos, written) && s.send == SReadEnter
    requires Forwards(moves, true) && pos + Reads(moves) <= |input|
    requires r.func == WriteFunc && r.status != 0
    ensures Solo(s, s') && s'.send == SLock(r) && Writes(moves) <= Reads(moves)
    ensures SendingFrom(s', input, pos + Reads(moves), written + input[pos..pos + Writes(moves)])
  {
    var init, m := moves[..|moves| - 1], moves[|moves| - 1];
    LastFellShort(moves);
    var pos1 := pos + Reads(init);
    s' := MovesAreSendSteps(s, input, pos, written, init);
    s' := ForwardIsSendSteps(s, s', input, pos1, written + input[pos..pos1], m);
    Appended(written, input, pos, pos1, pos1 + Sum(m.sizes));
    s' := SendEndIsStep(s, s', input, pos1 + m.read, written + input[pos..pos1 + Sum(m.sizes)], r);
  }

  /** What the sending loop does, told by its moves and its result, is a run of the sending thread's steps. */
  lemma SendingIsRun(s: State, input: seq<byte>, pos: nat, written: seq<byte>, moves: seq<Move>, r: SendResult)
      returns (s': State)
    requires SendingFrom(s, input, pos, written) && s.send == SReadEnter
    requires Forwards(moves, r.func == WriteFunc) && pos + Reads(moves) <= |input|
    requires r.func == WriteFunc ==> r.status != 0
    requires r.status == 0 ==> pos + Reads(moves) == |input|
    ensures Solo(s, s') && s'.send == SLock(r) && Writes(moves) <= Reads(moves)
    ensures SendingFrom(s', input, pos + Reads(moves), written + input[pos..pos + Writes(moves)])
  {
    if r.func == WriteFunc {
      s' := FailedWriteIsSendSteps(s, input, pos, written, moves, r);
    } else {
      WritesAgainstReads(moves, false);
      s' := MovesAreSendSteps(s, input, pos, written, moves);
      s' := SendEndIsStep(s, s', input, pos + Reads(moves), written + input[pos..pos + Reads(moves)], r);
    }
  }

  /** The sending thread's loop. Its result has status 0 only if the whole input was written to the socket; otherwise a
      prefix was, short of what was read if a write failed. The result is the first call that failed, with its error. */
  method SendInput(input: Source, sock: Sink) returns (r: SendResult, ghost moves: seq<Move>)
    requires input.Valid() && input.ends
    modifies input, sock
    ensures input.Valid()
    ensures Forwarded(input.stream, old(input.pos), input.pos, old(sock.written), sock.written, moves, r.func == WriteFunc)
    ensures r.func == WriteFunc ==>
              r.status != 0 && sock.failures == old(sock.failures) + [r.status] && input.failures == old(input.failures)
    ensures r.func == ReadFunc ==>
              && sock.failures == old(sock.failures)
              && input.failures == old(input.failures) + if r.status == 0 then [] else [r.status]
    ensures r.status == 0 ==>
              input.pos == |input.stream| && sock.written == old(sock.written) + input.stream[old(input.pos)..]
  {
    var buffer := new byte[BUFFER_SIZE];
    moves := [];
    while true
      invariant input.Valid() && fresh(buffer)
      invariant input.failures == old(input.failures) && sock.failures == old(sock.failures)
      invariant Forwarded(input.stream, old(input.pos), input.pos, old(sock.written), sock.written, moves, false)
      decreases |input.stream| - input.pos
    {
      ghost var pos, after := input.pos, sock.written;
      var n, errno := input.Read(buffer);
      if n > 0 {
        var ok, errno, sizes := WriteAll(sock, buffer, n);
        ForwardedOn(input.stream, old(input.pos), pos, old(sock.written), after, moves, buffer[..], n, sizes);
        moves := moves + [Move(n, sizes)];
        if !ok {
          return SendResult(errno, WriteFunc), moves;
        }
        continue;
      }
      ForwardedAll(input.stream, old(input.pos), input.pos, old(sock.written), sock.written, moves);
      return SendResult(if n == 0 then 0 else errno, ReadFunc), moves;
    }
  }

  /** The sending loop beside the step system: whatever it does to the two descriptors, the sending thread can do in a run
      of its own. */
  method SendingInSystem(input: Source, sock: Sink, ghost s: State) returns (r: SendResult, ghost s': State)
    requires input.Valid() && input.ends
    requires SendingFrom(s, input.stream, input.pos, sock.written) && s.send == SReadEnter
    modifies input, sock
    ensures Solo(s, s') && s'.send == SLock(r) && SendingFrom(s', input.stream, input.pos, sock.written)
  {
    ghost var pos, written := input.pos, sock.written;
    ghost var moves;
    r, moves := SendInput(input, sock);
    s' := SendingIsRun(s, input.stream, pos, written, moves, r);
  }

  // ---------------------------------------------------------------- receiving

  function Concat(chunks: seq<seq<byte>>): seq<byte> {
    if chunks == [] then [] else Concat(chunks[..|chunks| - 1]) + chunks[|chunks| - 1]
  }

  datatype Reply = Decided(r: RecvResult) | Abort

  /** The receiving thread, not cancelled, on the direction `down` of the socket. */
  predicate ReceivingFrom(s: State, down: Pipe) {
    !s.aborted && !s.cancelRecv && s.sock.down == down
  }

  lemma GotIsRecvStep(s0: State, s: State, down: Pipe, k: nat) returns (s': State)
    requires Solo(s0, s) && ReceivingFrom(s, down) && s.recv == RReadEnter && down.CanTake(k, |REJECT_MESSAGE|)
    ensures Solo(s0, s') && ReceivingFrom(s', down.Take(k))
    ensures s'.recv == if down.Next(k) == REJECT_MESSAGE then RLock(FuckOff) else RReadEnter
  {
    s' := RecvGoes(s0, s, EnterRecv);
    s' := RecvGoes(s0, s', Got(k));
  }

  lemma RecvFailIsStep(s0: State, s: State, down: Pipe, errno: int) returns (s': State)
    requires Solo(s0, s) && ReceivingFrom(s, down) && s.recv == RReadEnter && errno != 0
    ensures Solo(s0, s') && ReceivingFrom(s', down) && s'.recv == RLock(ReadFailure(errno))
  {
    s' := RecvGoes(s0, s, EnterRecv);
    s' := RecvGoes(s0, s', RecvFail(errno));
  }

  lemma RecvEofIsStep(s0: State, s: State, down: Pipe) returns (s': State)
    requires Solo(s0, s) && ReceivingFrom(s, down) && s.recv == RReadEnter && down.AtEof()
    ensures Solo(s0, s') && s'.aborted && s'.sock.down == down
  {
    s' := RecvGoes(s0, s, EnterRecv);
    s' := RecvGoes(s0, s', GotEof);
  }

  /** What the reads of the receiving loop returned: one to eight bytes each. */
  ghost predicate Chunks(chunks: seq<seq<byte>>) {
    forall i :: 0 <= i < |chunks| ==> 1 <= |chunks[i]| <= |REJECT_MESSAGE|
  }

  /** All chunks but the last, and the last one behind them. */
  lemma LastChunk(down: Pipe, chunks: seq<seq<byte>>)
    requires chunks != []
    requires down.taken + |Concat(chunks)| <= |down.sent| && down.Next(|Concat(chunks)|) == Concat(chunks)
    ensures
      var init, chunk := chunks[..|chunks| - 1], chunks[|chunks| - 1];
      var k := |Concat(init)|;
      && |Concat(chunks)| == k + |chunk|
      && down.Next(k) == Concat(init)
      && down.Take(k).Next(|chunk|) == chunk
  {
    var init, chunk := chunks[..|chunks| - 1], chunks[|chunks| - 1];
    var k := |Concat(init)|;
    assert Concat(chunks) == Concat(init) + chunk;
    assert down.Next(k) == (Concat(init) + chunk)[..k];
    assert down.Take(k).Next(|chunk|) == (Concat(init) + chunk)[k..];
  }

  lemma {:induction false} ChunksAreRecvSteps(s: State, down: Pipe, chunks: seq<seq<byte>>) returns (s': State)
    requires ReceivingFrom(s, down) && s.recv == RReadEnter && Chunks(chunks) && REJECT_MESSAGE !in chunks
    requires down.taken + |Concat(chunks)| <= |down.sent| && down.Next(|Concat(chunks)|) == Concat(chunks)
    ensures Solo(s, s') && s'.recv == RReadEnter && ReceivingFrom(s', down.Take(|Concat(chunks)|))
  {
    if chunks == [] {
      Runs.StartIsReachable(s, SoloStep);
      s' := s;
    } else {
      var init, chunk := chunks[..|chunks| - 1], chunks[|chunks| - 1];
      LastChunk(down, chunks);
      s' := ChunksAreRecvSteps(s, down, init);
      s' := GotIsRecvStep(s, s', down.Take(|Concat(init)|), |chunk|);
    }
  }

  /** What the receiving loop does, told by what its reads returned and what it decided, is a run of that thread's steps. */
  lemma ReceivingIsRun(s: State, down: Pipe, chunks: seq<seq<byte>>, reply: Reply) returns (s': State)
    requires ReceivingFrom(s, down) && s.recv == RReadEnter && Chunks(chunks)
    requires down.taken + |Concat(chunks)| <= |down.sent| && down.Next(|Concat(chunks)|) == Concat(chunks)
    requires Decides(chunks, reply)
    requires reply == Abort ==> down.Take(|Concat(chunks)|).AtEof()
    ensures Solo(s, s') && if reply.Abort? then s'.aborted else s'.recv == RLock(reply.r)
    ensures s'.sock.down == down.Take(|Concat(chunks)|)
  {
    if reply == Decided(FuckOff) {
      var init := chunks[..|chunks| - 1];
      LastChunk(down, chunks);
      s' := ChunksAreRecvSteps(s, down, init);
      s' := GotIsRecvStep(s, s', down.Take(|Concat(init)|), 8);
    } else {
      s' := ChunksAreRecvSteps(s, down, chunks);
      if reply.Abort? {
        s' := RecvEofIsStep(s, s', down.Take(|Concat(chunks)|));
      } else {
        s' := RecvFailIsStep(s, s', down.Take(|Concat(chunks)|), reply.r.errno);
      }
    }
  }

  /** The loop stops at the first read that returned the whole message, and decides for a rejection only there. */
  ghost predicate Decides(chunks: seq<seq<byte>>, reply: Reply) {
    if reply == Decided(FuckOff)
    then chunks != [] && chunks[|chunks| - 1] == REJECT_MESSAGE && REJECT_MESSAGE !in chunks[..|chunks| - 1]
    else REJECT_MESSAGE !in chunks && (reply.Abort? || reply.r.errno != 0)
  }

  /** The reads returned `stream` from `from` to `pos`, in `chunks`. */
  ghost predicate Received(stream: seq<byte>, from: nat, pos: nat, chunks: seq<seq<byte>>) {
    && Chunks(chunks)
    && from <= pos == from + |Concat(chunks)| <= |stream|
    && Concat(chunks) == stream[from..pos]
  }

  lemma ReceivedOn(stream: seq<byte>, from: nat, pos: nat, chunks: seq<seq<byte>>, buffer: seq<byte>, n: nat)
    requires Received(stream, from, pos, chunks)
    requires 1 <= n <= |REJECT_MESSAGE| && n <= |buffer| && pos + n <= |stream| && buffer[..n] == stream[pos..pos + n]
    ensures Received(stream, from, pos + n, chunks + [buffer[..n]])
  {
    assert (chunks + [buffer[..n]])[..|chunks|] == chunks;
    Joined(stream, from, pos, pos + n);
  }

  /** The receiving thread's loop; `chunks` are what its reads returned. */
  method ReceiveReply(sock: Source) returns (reply: Reply, ghost chunks: seq<seq<byte>>)
    requires sock.Valid()
    modifies sock
    ensures sock.Valid() && Received(sock.stream, old(sock.pos), sock.pos, chunks) && Decides(chunks, reply)
    ensures reply == Abort ==> sock.AsPipe().AtEof()
    ensures sock.failures ==
            old(sock.failures) + if reply.Decided? && reply.r.ReadFailure? then [reply.r.errno] else []
  {
    var buffer := new byte[|REJECT_MESSAGE|];
    chunks := [];
    while true
      invariant sock.Valid() && fresh(buffer) && REJECT_MESSAGE !in chunks
      invariant Received(sock.stream, old(sock.pos), sock.pos, chunks) && sock.failures == old(sock.failures)
      decreases |sock.stream| - sock.pos
    {
      ghost var pos := sock.pos;
      var n, errno := sock.Read(buffer);
      if n > 0 {
        ReceivedOn(sock.stream, old(sock.pos), pos, chunks, buffer[..], n);
        chunks := chunks + [buffer[..n]];
      }
      if n == |REJECT_MESSAGE| && buffer[..] == REJECT_MESSAGE {
        return Decided(FuckOff), chunks;
      }
      if n == 0 {
        return Abort, chunks;
      }
      if n < 0 {
        return Decided(ReadFailure(errno)), chunks;
      }
    }
  }

  /** The receiving loop beside the step system. */
  method ReceivingInSystem(sock: Source, ghost s: State) returns (reply: Reply, ghost s': State)
    requires sock.Valid() && ReceivingFrom(s, sock.AsPipe()) && s.recv == RReadEnter
    modifies sock
    ensures Solo(s, s') && if reply.Abort? then s'.aborted else s'.recv == RLock(reply.r)
    ensures s'.sock.down == sock.AsPipe()
  {
    ghost var down := sock.AsPipe();
    ghost var chunks;
    reply, chunks := ReceiveReply(sock);
    assert down.Take(|Concat(chunks)|) == sock.AsPipe();
    s' := ReceivingIsRun(s, down, chunks, reply);
  }

  lemma {:induction false} ConcatLength(chunks: seq<seq<byte>>, i: nat)
    requires i < |chunks| && forall j :: 0 <= j < |chunks| ==> 1 <= |chunks[j]|
    ensures |Concat(chunks)| >= |chunks[i]| + |chunks| - 1
  {
    var init := chunks[..|chunks| - 1];
    if i < |chunks| - 1 {
      ConcatLength(init, i);
    } else if init != [] {
      ConcatLength(init, 0);
    }
  }

  /** Nothing else is ever sent, so the client recognises the rejection exactly when the message arrives in one piece: two
      reads that split it, and the client never learns that it was rejected. */
  lemma RecognisedInOnePieceOnly(chunks: seq<seq<byte>>)
    requires Concat(chunks) == REJECT_MESSAGE && forall j :: 0 <= j < |chunks| ==> 1 <= |chunks[j]|
    ensures REJECT_MESSAGE in chunks <==> |chunks| == 1
  {
    if REJECT_MESSAGE in chunks {
      var i :| 0 <= i < |chunks| && chunks[i] == REJECT_MESSAGE;
      ConcatLength(chunks, i);
    }
    if |chunks| == 1 {
      assert chunks[..|chunks| - 1] == [];
      assert chunks[0] == [] + chunks[0] == Concat(chunks);
      assert chunks[0] in chunks;
    }
  }

  // ---------------------------------------------------------------- posting

  /** usockit_client_threads_result_dest, as the thread that holds its mutex sees it. */
  class ResultDest {
    var locked: bool
    var result: Result
    var signals: nat

    constructor ()
      ensures !locked && result == NoResult && signals == 0
    {
      locked, result, signals := false, NoResult, 0;
    }

    /** usockit_client_threads_dispatch_result. */
    method Dispatch(r: SendResult)
      requires !locked
      modifies this
      ensures !locked && result == PostSending(old(result), r) && signals == old(signals) + 1
    {
      locked := true;
      if result.NoResult? {
        result := Sending(r);
      }
      locked := false;
      signals := signals + 1;
    }

    /** The receiving thread's post. */
    method PostReply(r: RecvResult)
      requires !locked
      modifies this
      ensures !locked && result == PostReceiving(old(result), r) && signals == old(signals) + 1
    {
      locked := true;
      if result.NoResult? ||
         (r.FuckOff? && result.Sending? && result.send.status == EPIPE && result.send.func == WriteFunc)
      {
        result := Receiving(r);
      }
      locked := false;
      signals := signals + 1;
    }
  }
}

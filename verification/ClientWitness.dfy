/** Concrete runs of the client, most of them runs in which a client that was sent the rejection does not report it. */
module ClientWitness {
  import opened Streams
  import opened Client
  import Runs

  lemma Goes(s0: State, s: State, e: Event) returns (s': State)
    requires Solo(s0, s) && Enabled(s, e) && !e.Peer?
    ensures Solo(s0, s') && s' == Apply(s, e)
  {
    s' := Apply(s, e);
    Runs.StepIsReachable(s0, SoloStep, s, e, s');
  }

  lemma MainGoes(s0: State, s: State, e: MainEvent) returns (s': State)
    requires Solo(s0, s) && !s.aborted && MainEnabled(s, e)
    ensures Solo(s0, s') && s' == MainApply(s, e)
  {
    s' := Goes(s0, s, OfMain(e));
  }

  lemma TeardownGoes(s0: State, s: State, e: TeardownEvent) returns (s': State)
    requires Solo(s0, s) && !s.aborted && TeardownEnabled(s, e)
    ensures Solo(s0, s') && s' == TeardownApply(s, e)
  {
    s' := Goes(s0, s, OfTeardown(e));
  }

  lemma SendGoes(s0: State, s: State, e: SendEvent) returns (s': State)
    requires Solo(s0, s) && !s.aborted && SendEnabled(s, e)
    ensures Solo(s0, s') && s' == SendApply(s, e)
  {
    s' := Goes(s0, s, OfSend(e));
  }

  lemma RecvGoes(s0: State, s: State, e: RecvEvent) returns (s': State)
    requires Solo(s0, s) && !s.aborted && RecvEnabled(s, e)
    ensures Solo(s0, s') && s' == RecvApply(s, e)
  {
    s' := Goes(s0, s, OfRecv(e));
  }

  const TOLD := Socket(Pipe([], 0, false), Pipe(REJECT_MESSAGE, 0, true))

  /** Both threads are created, the receiving thread is about to read. */
  lemma ThreadsStart(s0: State) returns (s: State)
    requires s0 == Init(s0.input).(sock := s0.sock)
    ensures Solo(s0, s)
    ensures s == s0.(main := MLock, send := SStart, recv := RReadEnter, argSend := LiveBlock, argRecv := FreedBlock)
  {
    Runs.StartIsReachable(s0, SoloStep);
    s := MainGoes(s0, s0, CreateRecv(Created));
    s := MainGoes(s0, s, CreateSend(Created));
    s := RecvGoes(s0, s, RecvFreeArg);
  }

  /** The sending thread posts its result, nobody else having done so. */
  lemma ResultIsPosted(s0: State, s: State) returns (s': State)
    requires Solo(s0, s) && !s.aborted && s.send.SLock? && s.dest == s0.dest == Init([]).dest
    ensures Solo(s0, s')
    ensures s' == s.(send := SExited, dest := s.dest.(slot := Sending(s.send.r)))
  {
    s' := SendGoes(s0, s, SendLock);
    s' := SendGoes(s0, s', SendPost);
    s' := SendGoes(s0, s', SendUnlock);
    s' := SendGoes(s0, s', SendSignal);
  }

  /** The sending thread reads one byte and is about to write it. */
  lemma ByteIsRead(s0: State, s: State) returns (s': State)
    requires Solo(s0, s) && !s.aborted && s.send == SStart && s.argSend == LiveBlock && !s.cancelSend
    requires s.input != [] && s.pos == 0
    ensures Solo(s0, s')
    ensures s' == s.(send := SWriteIn(s.input[0..1], 0), pos := 1, argSend := FreedBlock)
  {
    s' := SendGoes(s0, s, SendFreeArg);
    s' := SendGoes(s0, s', EnterRead);
    s' := SendGoes(s0, s', ReadInput(1));
    s' := SendGoes(s0, s', EnterWrite);
  }

  lemma MainTakesSnapshot(s0: State, s: State) returns (s': State)
    requires Solo(s0, s) && !s.aborted && s.main == MLock && s.dest.owner == None && s.dest.slot != NoResult
    requires s.dest.mutex && s.dest.memory
    ensures Solo(s0, s')
    ensures s' == s.(main := MJoinRecv, cancelRecv := true, cancelSend := true, snapshot := s.dest.slot)
  {
    s' := MainGoes(s0, s, MainLock);
    s' := MainGoes(s0, s', MainCheck);
    s' := MainGoes(s0, s', Snapshot);
    s' := MainGoes(s0, s', CancelRecv);
    s' := MainGoes(s0, s', CancelSend);
    s' := MainGoes(s0, s', MainUnlock);
  }

  lemma MainReturns(s0: State, s: State) returns (s': State)
    requires Solo(s0, s) && !s.aborted && s.main == MJoinRecv && RecvOver(s.recv) && SendOver(s.send)
    ensures Solo(s0, s') && s'.main == MReturned && s'.snapshot == s.snapshot && s'.dest.slot == s.dest.slot
    ensures !s'.aborted
    ensures s'.sock == s.sock.(up := s.sock.up.Shut()) && s'.input == s.input
  {
    s' := TeardownGoes(s0, s, JoinRecv);
    s' := TeardownGoes(s0, s', JoinSend);
    s' := TeardownGoes(s0, s', DestroyCond);
    s' := TeardownGoes(s0, s', DestroyMutex);
    s' := TeardownGoes(s0, s', FreeDest);
    s' := TeardownGoes(s0, s', CloseSocket);
  }

  /** The special case at receiving_thread.c:114-129 is there so that a rejected client reports the rejection and not the
      broken pipe. If main takes its snapshot between the two posts it reports the broken pipe all the same, although
      the message was read and the override stored. */
  lemma OverrideComesTooLate(input: seq<byte>) returns (s: State)
    requires input != []
    ensures Reachable(input, s) && s.main == MReturned
    ensures s.dest.slot == Receiving(FuckOff) && s.snapshot == BROKEN_PIPE && ReturnStatus(s.snapshot) == Unknown
  {
    var s0 := Init(input).(sock := TOLD);
    s := PipeBreaksFirst(s0);
    s := RejectionIsPosted(s0, s);
    s := MainReturns(s0, s);
    ToldThenSolo(input, s);
  }

  lemma ToldThenSolo(input: seq<byte>, s: State)
    requires Solo(Init(input).(sock := TOLD), s)
    ensures Reachable(input, s)
  {
    Runs.StartIsReachable(Init(input), Step);
    Runs.StepIsReachable(Init(input), Step, Init(input), Peer(TOLD), Init(input).(sock := TOLD));
    Runs.ReachOn(Init(input), Step, Init(input).(sock := TOLD), SoloStep, s);
  }

  /** Or the receiving thread is cancelled before it reads the rejection that lies there, and nothing is ever posted. */
  lemma RejectionIsNeverPosted(input: seq<byte>) returns (s: State)
    requires input != []
    ensures Reachable(input, s) && s.main == MReturned && !s.aborted && s.sock.down.sent == REJECT_MESSAGE
    ensures s.dest.slot == s.snapshot == BROKEN_PIPE && ReturnStatus(s.snapshot) == Unknown
  {
    var s0 := Init(input).(sock := TOLD);
    s := ThreadsStart(s0);
    s := ByteIsRead(s0, s);
    s := SendGoes(s0, s, WriteFail(EPIPE));
    s := ResultIsPosted(s0, s);
    s := MainTakesSnapshot(s0, s);
    s := RecvGoes(s0, s, RecvDies);
    s := MainReturns(s0, s);
    ToldThenSolo(input, s);
  }

  /** With nothing to send, a rejected client can even return success. */
  lemma RejectedSucceeds() returns (s: State)
    ensures Reachable([], s) && s.main == MReturned && !s.aborted && s.sock.down.sent == REJECT_MESSAGE
    ensures ReturnStatus(s.snapshot) == SuccessEof
  {
    var s0 := Init([]).(sock := TOLD);
    s := ThreadsStart(s0);
    s := SendGoes(s0, s, SendFreeArg);
    s := SendGoes(s0, s, EnterRead);
    s := SendGoes(s0, s, InputEof);
    s := ResultIsPosted(s0, s);
    s := MainTakesSnapshot(s0, s);
    s := RecvGoes(s0, s, RecvDies);
    s := MainReturns(s0, s);
    ToldThenSolo([], s);
  }

  /** Two reads that split the message: it is all taken, nothing is recognised, and the end-of-file behind it aborts the
      client. */
  lemma SplitRejectionAborts(input: seq<byte>) returns (s: State)
    ensures Reachable(input, s) && s.aborted && s.dest.slot == NoResult
    ensures s.sock.down.sent == REJECT_MESSAGE && s.sock.down.taken == |REJECT_MESSAGE|
  {
    var s0 := Init(input).(sock := TOLD);
    s := ThreadsStart(s0);
    s := RecvGoes(s0, s, EnterRecv);
    s := RecvGoes(s0, s, Got(4));
    s := RecvGoes(s0, s, EnterRecv);
    s := RecvGoes(s0, s, Got(4));
    s := RecvGoes(s0, s, EnterRecv);
    s := RecvGoes(s0, s, GotEof);
    ToldThenSolo(input, s);
  }

  lemma RejectionIsRecognised(s0: State) returns (s: State)
    requires s0 == Init(s0.input).(sock := TOLD)
    ensures Solo(s0, s)
    ensures s == s0.(main := MLock, send := SReadIn, recv := RLock(FuckOff), argSend := FreedBlock,
                     argRecv := FreedBlock, sock := TOLD.(down := TOLD.down.Take(8)))
  {
    s := ThreadsStart(s0);
    s := SendGoes(s0, s, SendFreeArg);
    s := SendGoes(s0, s, EnterRead);
    s := RecvGoes(s0, s, EnterRecv);
    s := RecvGoes(s0, s, Got(8));
  }

  /** A client that was sent the rejection, and reads and posts it before anything else is posted, reports it, although its
      sending thread is blocked reading a stdin on which nothing happens. */
  lemma RejectionIsReported(input: seq<byte>) returns (s: State)
    ensures Solo(Init(input).(sock := TOLD), s)
    ensures s.main == MReturned && ReturnStatus(s.snapshot) == SuccessFuckOff && s.input == input
  {
    var s0 := Init(input).(sock := TOLD);
    s := RejectionIsTaken(s0);
    s := SendGoes(s0, s, SendDies);
    s := MainReturns(s0, s);
  }

  lemma RejectionIsTaken(s0: State) returns (s: State)
    requires s0 == Init(s0.input).(sock := TOLD)
    ensures Solo(s0, s) && !s.aborted && s.main == MJoinRecv && s.recv == RExited && s.input == s0.input
    ensures s.send == SReadIn && s.cancelSend && s.snapshot == Receiving(FuckOff)
  {
    s := RejectionIsRecognised(s0);
    s := RejectionIsPosted(s0, s);
    s := MainTakesSnapshot(s0, s);
  }

  /** The rejection is read, but the broken pipe is posted and main takes its snapshot before it can be posted. */
  lemma PipeBreaksFirst(s0: State) returns (s: State)
    requires s0 == Init(s0.input).(sock := TOLD) && s0.input != []
    ensures Solo(s0, s) && !s.aborted && s.main == MJoinRecv && s.send == SExited && s.recv == RLock(FuckOff)
    ensures s.dest == s0.dest.(slot := BROKEN_PIPE) && s.snapshot == BROKEN_PIPE
  {
    s := ThreadsStart(s0);
    s := RecvGoes(s0, s, EnterRecv);
    s := RecvGoes(s0, s, Got(8));
    s := ByteIsRead(s0, s);
    s := SendGoes(s0, s, WriteFail(EPIPE));
    s := ResultIsPosted(s0, s);
    s := MainTakesSnapshot(s0, s);
  }

  lemma RejectionIsPosted(s0: State, s: State) returns (s': State)
    requires Solo(s0, s) && !s.aborted && s.recv == RLock(FuckOff) && s.dest.owner == None
    requires s.dest.slot == NoResult || s.dest.slot == BROKEN_PIPE
    requires s.dest.mutex && s.dest.memory && s.dest.cond && !s.dest.waiting
    ensures Solo(s0, s')
    ensures s' == s.(recv := RExited, dest := s.dest.(slot := Receiving(FuckOff)))
  {
    s' := RecvGoes(s0, s, RecvLock);
    s' := RecvGoes(s0, s', RecvPost);
    s' := RecvGoes(s0, s', RecvUnlock);
    s' := RecvGoes(s0, s', RecvSignal);
  }

  /** The only byte of the input is written, and then its end is found. */
  lemma ByteIsSent(s0: State, s: State) returns (s': State)
    requires Solo(s0, s) && !s.aborted && s.send == SStart && s.argSend == LiveBlock && !s.cancelSend
    requires |s.input| == 1 && s.pos == 0
    ensures Solo(s0, s')
    ensures s' == s.(send := SLock(SendResult(0, ReadFunc)), pos := 1, argSend := FreedBlock,
                     sock := s.sock.(up := s.sock.up.Push(s.input)))
  {
    s' := ByteIsRead(s0, s);
    s' := SendGoes(s0, s', Wrote(1));
    s' := SendGoes(s0, s', EnterRead);
    s' := SendGoes(s0, s', InputEof);
  }

  /** A client alone, with one byte to send, writes it to its socket and returns SUCCESS_EOF, although its receiving thread
      is blocked in a read that nothing ever ends. */
  lemma AloneItSucceeds(b: byte) returns (s: State)
    ensures Solo(Init([b]), s) && s.main == MReturned && ReturnStatus(s.snapshot) == SuccessEof
    ensures s.sock == Socket(Pipe([b], 0, true), Pipe([], 0, false)) && s.input == [b]
  {
    var s0 := Init([b]);
    s := ThreadsStart(s0);
    s := RecvGoes(s0, s, EnterRecv);
    s := ByteIsSent(s0, s);
    s := ResultIsPosted(s0, s);
    s := MainTakesSnapshot(s0, s);
    s := RecvGoes(s0, s, RecvDies);
    s := MainReturns(s0, s);
  }
}

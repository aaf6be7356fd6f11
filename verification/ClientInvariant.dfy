/** What every step of the client keeps. */
module ClientInvariant {
  import opened Streams
  import opened Client
  import Runs

  predicate MainOwns(main: MainPc) {
    || main == MCheck || main == MWait || main == MSnapshot
    || main == MCancelRecv || main == MCancelSend || main == MUnlock
  }

  predicate SendOwns(send: SendPc) {
    send.SPost? || send == SUnlock
  }

  predicate RecvOwns(recv: RecvPc) {
    recv.RPost? || recv == RUnlock
  }

  predicate MutexInv(main: MainPc, send: SendPc, recv: RecvPc, owner: Option<Thread>) {
    && (MainOwns(main) <==> owner == Some(MainThread))
    && (SendOwns(send) <==> owner == Some(SendThread))
    && (RecvOwns(recv) <==> owner == Some(RecvThread))
  }

  predicate SignalPending(send: SendPc, recv: RecvPc) {
    SendSignals(send) || RecvSignals(recv)
  }

  predicate SendSignals(send: SendPc) {
    send == SUnlock || send == SSignal
  }

  predicate RecvSignals(recv: RecvPc) {
    recv == RUnlock || recv == RSignal
  }

  /** What a worker may do to the slot and the sleeping main, given whether it owns the mutex and whether its signal is to
      come, before and after. */
  predicate SlotMoves(owns: bool, signals: bool, signals': bool, slot: Result, slot': Result, waiting: bool, waiting': bool) {
    && (waiting' ==> waiting)
    && (signals && waiting' ==> signals')
    && (slot' == slot || (owns && signals' && slot' != NoResult && (slot == NoResult || Overrides(slot, slot'))))
  }

  predicate Cancelling(main: MainPc) {
    main == MCancelRecv || main == MCancelSend || main == MUnlock
  }

  predicate Joining(main: MainPc) {
    main == MJoinRecv || main == MJoinSend
  }

  predicate Destroying(main: MainPc) {
    main == MDestroyCond || main == MDestroyMutex || main == MFree || main == MClose || main == MReturned
  }

  /** What a slot may have become since a snapshot of it was taken. */
  predicate Overrides(before: Result, after: Result) {
    after == before || (before == BROKEN_PIPE && after == Receiving(FuckOff))
  }

  /** The condition variable, the slot and the snapshot. */
  predicate SlotInv(main: MainPc, send: SendPc, recv: RecvPc, slot: Result, waiting: bool, snapshot: Result) {
    && (waiting ==> main == MBlocked)
    && (main == MWait ==> slot == NoResult)
    && (main == MSnapshot ==> slot != NoResult)
    && (waiting && slot != NoResult ==> SignalPending(send, recv))
    && (Cancelling(main) ==> slot == snapshot)
    && (Cancelling(main) || Joining(main) ==> snapshot != NoResult)
    && (snapshot != NoResult ==> (Cancelling(main) || Joining(main) || Destroying(main)) && Overrides(snapshot, slot))
  }

  predicate ArgFits(starting: bool, created: bool, arg: Block) {
    && (starting <==> arg == LiveBlock)
    && (created && !starting ==> arg == FreedBlock)
  }

  predicate ArgInv(send: SendPc, recv: RecvPc, argSend: Block, argRecv: Block) {
    ArgFits(send == SStart, send != SNone, argSend) && ArgFits(recv == RStart, recv != RNone, argRecv)
  }

  /** Threads and cancellation requests, against main's progress. */
  predicate LifeInv(main: MainPc, send: SendPc, recv: RecvPc, cancelSend: bool, cancelRecv: bool) {
    && (main == MCreateRecv ==> recv == RNone)
    && (main == MCreateRecv || main == MCreateSend || main == MFailCancel || main == MFailJoin ==> send == SNone)
    && (main == MJoinSend || Destroying(main) ==> RecvOver(recv))
    && (Destroying(main) ==> SendOver(send))
    && (main == MUnlock || Joining(main) ==> cancelSend)
    && (main == MCancelSend || main == MUnlock || Joining(main) || main == MFailJoin ==> cancelRecv)
  }

  /** The resources that main releases. */
  predicate ResourceInv(main: MainPc, cond: bool, mutex: bool, memory: bool, upShut: bool, aborted: bool) {
    && (cond <==> !Destroying(main) || main == MDestroyCond)
    && (mutex <==> !Destroying(main) || main == MDestroyCond || main == MDestroyMutex)
    && (memory <==> main != MClose && main != MReturned)
    && (upShut <==> main == MReturned || aborted)
  }

  predicate Whole(r: Result, input: seq<byte>, up: seq<byte>) {
    r.Sending? && r.send.status == 0 ==> up == input
  }

  /** What has been written to the socket, against what was read from the input. */
  predicate SendFits(send: SendPc, input: seq<byte>, pos: nat, up: seq<byte>) {
    && pos <= |input|
    && up <= input
    && match send
       case SWriteEnter(buffer, n) => n < |buffer| && up + buffer[n..] == input[..pos]
       case SWriteIn(buffer, n) => n < |buffer| && up + buffer[n..] == input[..pos]
       case SLock(r) => Whole(Sending(r), input, up)
       case SPost(r) => Whole(Sending(r), input, up)
       case SNone => up == input[..pos]
       case SStart => up == input[..pos]
       case SReadEnter => up == input[..pos]
       case SReadIn => up == input[..pos]
       case _ => true
  }

  predicate OccursAt(bytes: seq<byte>, message: seq<byte>, i: nat) {
    i + |message| <= |bytes| && bytes[i..i + |message|] == message
  }

  ghost predicate Contains(bytes: seq<byte>, message: seq<byte>) {
    exists i: nat :: OccursAt(bytes, message, i)
  }

  ghost predicate Heard(r: Result, down: seq<byte>) {
    r == Receiving(FuckOff) ==> Contains(down, REJECT_MESSAGE)
  }

  ghost predicate RecvFits(recv: RecvPc, down: seq<byte>) {
    match recv
    case RLock(r) => Heard(Receiving(r), down)
    case RPost(r) => Heard(Receiving(r), down)
    case _ => true
  }

  predicate Posted(send: SendPc) {
    send == SUnlock || send == SSignal || send == SExited
  }

  predicate UpInv(send: SendPc, input: seq<byte>, pos: nat, up: seq<byte>, slot: Result, snapshot: Result) {
    && SendFits(send, input, pos, up)
    && Whole(slot, input, up)
    && Whole(snapshot, input, up)
    && (slot.Sending? || snapshot.Sending? ==> Posted(send))
  }

  ghost predicate DownInv(recv: RecvPc, down: seq<byte>, slot: Result, snapshot: Result) {
    RecvFits(recv, down) && Heard(slot, down) && Heard(snapshot, down)
  }

  ghost predicate StreamsInv(s: State) {
    && UpInv(s.send, s.input, s.pos, s.sock.up.sent, s.dest.slot, s.snapshot)
    && DownInv(s.recv, s.sock.down.sent, s.dest.slot, s.snapshot)
  }

  predicate ThreadsInv(s: State) {
    && MutexInv(s.main, s.send, s.recv, s.dest.owner)
    && SlotInv(s.main, s.send, s.recv, s.dest.slot, s.dest.waiting, s.snapshot)
    && LifeInv(s.main, s.send, s.recv, s.cancelSend, s.cancelRecv)
    && ArgInv(s.send, s.recv, s.argSend, s.argRecv)
    && ResourceInv(s.main, s.dest.cond, s.dest.mutex, s.dest.memory, s.sock.up.shut, s.aborted)
    && !s.fault
  }

  ghost predicate ClientInv(s: State) {
    ThreadsInv(s) && StreamsInv(s)
  }

  // ---------------------------------------------------------------- threads

  lemma MainKeepsMutex(s: State, e: MainEvent)
    requires MutexInv(s.main, s.send, s.recv, s.dest.owner) && MainEnabled(s, e)
    requires s.main == MCreateRecv ==> s.recv == RNone
    requires s.main == MCreateSend ==> s.send == SNone
    ensures var s' := MainApply(s, e); MutexInv(s'.main, s'.send, s'.recv, s'.dest.owner)
  {
    match e
    case CreateRecv(_) | CreateSend(_) | MainLock | MainCheck | MainWait | MainWake | Snapshot | CancelRecv | CancelSend
       | MainUnlock =>
  }

  lemma MainKeepsSlot(s: State, e: MainEvent)
    requires SlotInv(s.main, s.send, s.recv, s.dest.slot, s.dest.waiting, s.snapshot) && MainEnabled(s, e)
    ensures var s' := MainApply(s, e); SlotInv(s'.main, s'.send, s'.recv, s'.dest.slot, s'.dest.waiting, s'.snapshot)
  {
    match e
    case CreateRecv(_) | CreateSend(_) | MainLock | MainCheck | MainWait | MainWake | Snapshot | CancelRecv | CancelSend
       | MainUnlock =>
  }

  lemma MainKeepsLife(s: State, e: MainEvent)
    requires LifeInv(s.main, s.send, s.recv, s.cancelSend, s.cancelRecv) && MainEnabled(s, e)
    ensures var s' := MainApply(s, e);
            LifeInv(s'.main, s'.send, s'.recv, s'.cancelSend, s'.cancelRecv)
  {
    match e
    case CreateRecv(_) | CreateSend(_) | MainLock | MainCheck | MainWait | MainWake | Snapshot | CancelRecv | CancelSend
       | MainUnlock =>
  }

  lemma MainKeepsArgs(s: State, e: MainEvent)
    requires ArgInv(s.send, s.recv, s.argSend, s.argRecv) && MainEnabled(s, e)
    requires (s.main == MCreateRecv ==> s.recv == RNone) && (s.main == MCreateSend ==> s.send == SNone)
    ensures var s' := MainApply(s, e); ArgInv(s'.send, s'.recv, s'.argSend, s'.argRecv)
  {
  }

  lemma MainKeepsResources(s: State, e: MainEvent)
    requires ResourceInv(s.main, s.dest.cond, s.dest.mutex, s.dest.memory, s.sock.up.shut, s.aborted) && MainEnabled(s, e)
    ensures var s' := MainApply(s, e);
            && ResourceInv(s'.main, s'.dest.cond, s'.dest.mutex, s'.dest.memory, s'.sock.up.shut, s'.aborted)
            && s'.fault == s.fault
  {
    match e
    case CreateRecv(_) | CreateSend(_) | MainLock | MainCheck | MainWait | MainWake | Snapshot | CancelRecv | CancelSend
       | MainUnlock =>
  }

  lemma MainKeepsThreads(s: State, e: MainEvent)
    requires ThreadsInv(s) && MainEnabled(s, e)
    ensures ThreadsInv(MainApply(s, e))
  {
    MainKeepsMutex(s, e);
    MainKeepsSlot(s, e);
    MainKeepsLife(s, e);
    MainKeepsArgs(s, e);
    MainKeepsResources(s, e);
  }

  lemma TeardownKeepsMutex(s: State, e: TeardownEvent)
    requires MutexInv(s.main, s.send, s.recv, s.dest.owner) && TeardownEnabled(s, e)
    ensures var s' := TeardownApply(s, e); MutexInv(s'.main, s'.send, s'.recv, s'.dest.owner)
  {
    match e
    case JoinRecv | JoinSend | DestroyCond | DestroyMutex | FreeDest | CloseSocket =>
  }

  lemma TeardownKeepsSlot(s: State, e: TeardownEvent)
    requires SlotInv(s.main, s.send, s.recv, s.dest.slot, s.dest.waiting, s.snapshot) && TeardownEnabled(s, e)
    ensures var s' := TeardownApply(s, e);
            SlotInv(s'.main, s'.send, s'.recv, s'.dest.slot, s'.dest.waiting, s'.snapshot)
  {
    match e
    case JoinRecv | JoinSend | DestroyCond | DestroyMutex | FreeDest | CloseSocket =>
  }

  lemma TeardownKeepsLife(s: State, e: TeardownEvent)
    requires LifeInv(s.main, s.send, s.recv, s.cancelSend, s.cancelRecv) && TeardownEnabled(s, e)
    ensures var s' := TeardownApply(s, e); LifeInv(s'.main, s'.send, s'.recv, s'.cancelSend, s'.cancelRecv)
  {
  }

  /** What main destroys is not in use: nobody owns the mutex, nobody waits, nothing is released twice. */
  lemma TeardownKeepsResources(s: State, e: TeardownEvent)
    requires ResourceInv(s.main, s.dest.cond, s.dest.mutex, s.dest.memory, s.sock.up.shut, s.aborted) && TeardownEnabled(s, e)
    requires s.main == MDestroyCond ==> !s.dest.waiting
    requires s.main == MDestroyMutex ==> s.dest.owner == None
    ensures var s' := TeardownApply(s, e);
            && ResourceInv(s'.main, s'.dest.cond, s'.dest.mutex, s'.dest.memory, s'.sock.up.shut, s'.aborted)
            && s'.fault == s.fault
  {
    match e
    case JoinRecv | JoinSend | DestroyCond | DestroyMutex | FreeDest | CloseSocket =>
  }

  lemma OwnerIsNobody(s: State)
    requires ThreadsInv(s) && Destroying(s.main)
    ensures s.dest.owner == None && !s.dest.waiting
  {
    if s.dest.owner.Some? {
      match s.dest.owner.value
      case MainThread => assert false;
      case SendThread => assert false;
      case RecvThread => assert false;
    }
  }

  lemma TeardownLeavesArgs(s: State, e: TeardownEvent)
    requires TeardownEnabled(s, e)
    ensures var s' := TeardownApply(s, e);
            s'.send == s.send && s'.recv == s.recv && s'.argSend == s.argSend && s'.argRecv == s.argRecv
  {
  }

  lemma TeardownKeepsThreads(s: State, e: TeardownEvent)
    requires ThreadsInv(s) && TeardownEnabled(s, e)
    ensures ThreadsInv(TeardownApply(s, e))
  {
    if Destroying(s.main) { OwnerIsNobody(s); }
    TeardownKeepsMutex(s, e);
    TeardownKeepsSlot(s, e);
    TeardownKeepsLife(s, e);
    TeardownKeepsResources(s, e);
    TeardownLeavesArgs(s, e);
  }

  lemma SendKeepsMutex(s: State, e: SendEvent)
    requires MutexInv(s.main, s.send, s.recv, s.dest.owner) && SendEnabled(s, e)
    ensures var s' := SendApply(s, e); MutexInv(s'.main, s'.send, s'.recv, s'.dest.owner)
  {
    match e
    case SendFreeArg | EnterRead | ReadInput(_) | InputEof | InputFail(_) | EnterWrite | Wrote(_) | WriteFail(_) | SendDies
       | SendLock | SendPost | SendUnlock | SendSignal =>
  }

  lemma SlotFollows(main: MainPc, send: SendPc, recv: RecvPc, slot: Result, waiting: bool, snapshot: Result, send': SendPc,
                    recv': RecvPc, slot': Result, waiting': bool)
    requires SlotInv(main, send, recv, slot, waiting, snapshot)
    requires SlotMoves(!MainOwns(main), SignalPending(send, recv), SignalPending(send', recv'), slot, slot', waiting, waiting')
    ensures SlotInv(main, send', recv', slot', waiting', snapshot)
  {
  }

  lemma SendMovesSlot(s: State, e: SendEvent)
    requires SendEnabled(s, e)
    ensures
      var s' := SendApply(s, e);
      && s'.main == s.main && s'.snapshot == s.snapshot && s'.recv == s.recv
      && SlotMoves(SendOwns(s.send), SendSignals(s.send), SendSignals(s'.send), s.dest.slot, s'.dest.slot, s.dest.waiting,
                   s'.dest.waiting)
  {
    match e
    case SendFreeArg | EnterRead | ReadInput(_) | InputEof | InputFail(_) | EnterWrite | Wrote(_) | WriteFail(_) | SendDies
       | SendLock | SendPost | SendUnlock | SendSignal =>
  }

  lemma SendKeepsSlot(s: State, e: SendEvent)
    requires MutexInv(s.main, s.send, s.recv, s.dest.owner)
    requires SlotInv(s.main, s.send, s.recv, s.dest.slot, s.dest.waiting, s.snapshot) && SendEnabled(s, e)
    ensures var s' := SendApply(s, e);
            SlotInv(s'.main, s'.send, s'.recv, s'.dest.slot, s'.dest.waiting, s'.snapshot)
  {
    var s' := SendApply(s, e);
    SendMovesSlot(s, e);
    SlotFollows(s.main, s.send, s.recv, s.dest.slot, s.dest.waiting, s.snapshot, s'.send, s'.recv, s'.dest.slot,
                s'.dest.waiting);
  }

  lemma SendKeepsLife(s: State, e: SendEvent)
    requires LifeInv(s.main, s.send, s.recv, s.cancelSend, s.cancelRecv) && SendEnabled(s, e)
    ensures var s' := SendApply(s, e); LifeInv(s'.main, s'.send, s'.recv, s'.cancelSend, s'.cancelRecv)
  {
    match e
    case SendFreeArg | EnterRead | ReadInput(_) | InputEof | InputFail(_) | EnterWrite | Wrote(_) | WriteFail(_) | SendDies
       | SendLock | SendPost | SendUnlock | SendSignal =>
  }

  lemma SendKeepsArgs(s: State, e: SendEvent)
    requires ArgInv(s.send, s.recv, s.argSend, s.argRecv) && SendEnabled(s, e)
    ensures var s' := SendApply(s, e); ArgInv(s'.send, s'.recv, s'.argSend, s'.argRecv)
  {
    match e
    case SendFreeArg | EnterRead | ReadInput(_) | InputEof | InputFail(_) | EnterWrite | Wrote(_) | WriteFail(_) | SendDies
       | SendLock | SendPost | SendUnlock | SendSignal =>
  }

  /** Nothing that the thread uses was released before. */
  lemma SendKeepsResources(s: State, e: SendEvent)
    requires ResourceInv(s.main, s.dest.cond, s.dest.mutex, s.dest.memory, s.sock.up.shut, s.aborted)
    requires ArgInv(s.send, s.recv, s.argSend, s.argRecv) && (Destroying(s.main) ==> SendOver(s.send)) && SendEnabled(s, e)
    ensures var s' := SendApply(s, e);
            && ResourceInv(s'.main, s'.dest.cond, s'.dest.mutex, s'.dest.memory, s'.sock.up.shut, s'.aborted)
            && s'.fault == s.fault
  {
    match e
    case SendFreeArg | EnterRead | ReadInput(_) | InputEof | InputFail(_) | EnterWrite | Wrote(_) | WriteFail(_) | SendDies
       | SendLock | SendPost | SendUnlock | SendSignal =>
  }

  lemma SendKeepsThreads(s: State, e: SendEvent)
    requires ThreadsInv(s) && SendEnabled(s, e)
    ensures ThreadsInv(SendApply(s, e))
  {
    SendKeepsMutex(s, e);
    SendKeepsSlot(s, e);
    SendKeepsLife(s, e);
    SendKeepsArgs(s, e);
    SendKeepsResources(s, e);
  }

  lemma RecvKeepsMutex(s: State, e: RecvEvent)
    requires MutexInv(s.main, s.send, s.recv, s.dest.owner) && RecvEnabled(s, e)
    ensures var s' := RecvApply(s, e); MutexInv(s'.main, s'.send, s'.recv, s'.dest.owner)
  {
    match e
    case RecvFreeArg | EnterRecv | Got(_) | GotEof | RecvFail(_) | RecvDies | RecvLock | RecvPost | RecvUnlock | RecvSignal =>
  }

  lemma RecvMovesSlot(s: State, e: RecvEvent)
    requires RecvEnabled(s, e)
    ensures
      var s' := RecvApply(s, e);
      && s'.main == s.main && s'.snapshot == s.snapshot && s'.send == s.send
      && SlotMoves(RecvOwns(s.recv), RecvSignals(s.recv), RecvSignals(s'.recv), s.dest.slot, s'.dest.slot, s.dest.waiting,
                   s'.dest.waiting)
  {
    match e
    case RecvFreeArg | EnterRecv | Got(_) | GotEof | RecvFail(_) | RecvDies | RecvLock | RecvPost | RecvUnlock | RecvSignal =>
  }

  lemma RecvKeepsSlot(s: State, e: RecvEvent)
    requires MutexInv(s.main, s.send, s.recv, s.dest.owner)
    requires SlotInv(s.main, s.send, s.recv, s.dest.slot, s.dest.waiting, s.snapshot) && RecvEnabled(s, e)
    ensures var s' := RecvApply(s, e);
            SlotInv(s'.main, s'.send, s'.recv, s'.dest.slot, s'.dest.waiting, s'.snapshot)
  {
    var s' := RecvApply(s, e);
    RecvMovesSlot(s, e);
    SlotFollows(s.main, s.send, s.recv, s.dest.slot, s.dest.waiting, s.snapshot, s'.send, s'.recv, s'.dest.slot,
                s'.dest.waiting);
  }

  lemma RecvKeepsLife(s: State, e: RecvEvent)
    requires LifeInv(s.main, s.send, s.recv, s.cancelSend, s.cancelRecv) && RecvEnabled(s, e)
    ensures var s' := RecvApply(s, e); LifeInv(s'.main, s'.send, s'.recv, s'.cancelSend, s'.cancelRecv)
  {
    match e
    case RecvFreeArg | EnterRecv | Got(_) | GotEof | RecvFail(_) | RecvDies | RecvLock | RecvPost | RecvUnlock | RecvSignal =>
  }

  lemma RecvKeepsArgs(s: State, e: RecvEvent)
    requires ArgInv(s.send, s.recv, s.argSend, s.argRecv) && RecvEnabled(s, e)
    ensures var s' := RecvApply(s, e); ArgInv(s'.send, s'.recv, s'.argSend, s'.argRecv)
  {
    match e
    case RecvFreeArg | EnterRecv | Got(_) | GotEof | RecvFail(_) | RecvDies | RecvLock | RecvPost | RecvUnlock | RecvSignal =>
  }

  /** Nothing that the thread uses was released before. */
  lemma RecvKeepsResources(s: State, e: RecvEvent)
    requires ResourceInv(s.main, s.dest.cond, s.dest.mutex, s.dest.memory, s.sock.up.shut, s.aborted)
    requires ArgInv(s.send, s.recv, s.argSend, s.argRecv) && (Destroying(s.main) ==> RecvOver(s.recv)) && RecvEnabled(s, e)
    ensures var s' := RecvApply(s, e);
            && ResourceInv(s'.main, s'.dest.cond, s'.dest.mutex, s'.dest.memory, s'.sock.up.shut, s'.aborted)
            && s'.fault == s.fault
  {
    match e
    case RecvFreeArg | EnterRecv | Got(_) | GotEof | RecvFail(_) | RecvDies | RecvLock | RecvPost | RecvUnlock | RecvSignal =>
  }

  lemma RecvKeepsThreads(s: State, e: RecvEvent)
    requires ThreadsInv(s) && RecvEnabled(s, e)
    ensures ThreadsInv(RecvApply(s, e))
  {
    RecvKeepsMutex(s, e);
    RecvKeepsSlot(s, e);
    RecvKeepsLife(s, e);
    RecvKeepsArgs(s, e);
    RecvKeepsResources(s, e);
  }

  // ---------------------------------------------------------------- streams

  lemma ContainsStays(bytes: seq<byte>, bytes': seq<byte>, message: seq<byte>)
    requires Contains(bytes, message) && bytes <= bytes'
    ensures Contains(bytes', message)
  {
    var i: nat :| OccursAt(bytes, message, i);
    assert bytes'[i..i + |message|] == bytes[i..i + |message|];
    assert OccursAt(bytes', message, i);
  }

  lemma MainLeavesStreams(s: State, e: MainEvent)
    requires MainEnabled(s, e)
    ensures
      var s' := MainApply(s, e);
      && s'.input == s.input && s'.pos == s.pos && s'.dest.slot == s.dest.slot
      && s'.sock.up.sent == s.sock.up.sent && s'.sock.down == s.sock.down
      && (s'.send == s.send || (s.main == MCreateSend && s'.send == SStart))
      && (s'.recv == s.recv || (s.main == MCreateRecv && s'.recv == RStart))
      && (s'.snapshot == s.snapshot || s'.snapshot == s.dest.slot)
  {
  }

  lemma MainKeepsStreams(s: State, e: MainEvent)
    requires StreamsInv(s) && MainEnabled(s, e) && (s.main == MCreateRecv ==> s.recv == RNone)
    requires s.main == MCreateSend ==> s.send == SNone
    ensures StreamsInv(MainApply(s, e))
  {
    MainLeavesStreams(s, e);
  }

  lemma PeerKeepsStreams(s: State, sock: Socket)
    requires StreamsInv(s) && ServerMoves(s.sock, sock)
    ensures StreamsInv(s.(sock := sock))
  {
    if Contains(s.sock.down.sent, REJECT_MESSAGE) {
      ContainsStays(s.sock.down.sent, sock.down.sent, REJECT_MESSAGE);
    }
  }

  function AfterWrite(buffer: seq<byte>, n: nat): SendPc {
    if n == |buffer| then SReadEnter else SWriteEnter(buffer, n)
  }

  lemma WroteFits(buffer: seq<byte>, n: nat, k: nat, input: seq<byte>, pos: nat, up: seq<byte>)
    requires SendFits(SWriteIn(buffer, n), input, pos, up) && 1 <= k && n + k <= |buffer|
    ensures SendFits(AfterWrite(buffer, n + k), input, pos, up + buffer[n..n + k])
  {
    assert buffer[n..] == buffer[n..n + k] + buffer[n + k..];
    assert up + buffer[n..] == (up + buffer[n..n + k]) + buffer[n + k..];
  }

  lemma WroteKeepsUp(s: State, e: SendEvent)
    requires UpInv(s.send, s.input, s.pos, s.sock.up.sent, s.dest.slot, s.snapshot) && SendEnabled(s, e) && e.Wrote?
    ensures var s' := SendApply(s, e);
            UpInv(s'.send, s'.input, s'.pos, s'.sock.up.sent, s'.dest.slot, s'.snapshot)
  {
    WroteFits(s.send.buffer, s.send.n, e.k, s.input, s.pos, s.sock.up.sent);
  }

  lemma ReadKeepsUp(s: State, e: SendEvent)
    requires UpInv(s.send, s.input, s.pos, s.sock.up.sent, s.dest.slot, s.snapshot) && SendEnabled(s, e)
    requires e.ReadInput?
    ensures var s' := SendApply(s, e);
            UpInv(s'.send, s'.input, s'.pos, s'.sock.up.sent, s'.dest.slot, s'.snapshot)
  {
    assert s.input[..s.pos] + s.input[s.pos..s.pos + e.k] == s.input[..s.pos + e.k];
  }

  lemma SendLeavesStreams(s: State, e: SendEvent)
    requires SendEnabled(s, e)
    ensures
      var s' := SendApply(s, e);
      && s'.recv == s.recv && s'.sock.down == s.sock.down && s'.input == s.input && s'.snapshot == s.snapshot
      && (s'.dest.slot == s.dest.slot || (s.dest.slot == NoResult && s.send.SPost? && s'.dest.slot == Sending(s.send.r)))
      && (!e.Wrote? && !e.ReadInput? && e != InputEof ==> s'.sock == s.sock && s'.pos == s.pos && Follows(s.send, s'.send))
      && (s'.dest.slot != s.dest.slot ==> s'.send == SUnlock && !e.Wrote? && !e.ReadInput?)
  {
  }

  /** The sending thread's steps other than reading from the input and writing to the socket. */
  predicate Follows(send: SendPc, send': SendPc) {
    match send'
    case SReadEnter => send == SStart
    case SReadIn => send == SReadEnter
    case SWriteIn(buffer, n) => send == SWriteEnter(buffer, n)
    case SLock(r) => r.status != 0
    case SPost(r) => send == SLock(r)
    case SUnlock => send.SPost?
    case SSignal => send == SUnlock
    case SExited => send == SSignal
    case SCancelled => !Posted(send)
    case _ => false
  }

  lemma RestKeepsUp(s: State, e: SendEvent)
    requires UpInv(s.send, s.input, s.pos, s.sock.up.sent, s.dest.slot, s.snapshot) && SendEnabled(s, e)
    requires !e.Wrote? && !e.ReadInput? && e != InputEof
    ensures var s' := SendApply(s, e);
            UpInv(s'.send, s'.input, s'.pos, s'.sock.up.sent, s'.dest.slot, s'.snapshot)
  {
    SendLeavesStreams(s, e);
  }

  lemma EofKeepsUp(s: State)
    requires UpInv(s.send, s.input, s.pos, s.sock.up.sent, s.dest.slot, s.snapshot) && SendEnabled(s, InputEof)
    ensures var s' := SendApply(s, InputEof);
            UpInv(s'.send, s'.input, s'.pos, s'.sock.up.sent, s'.dest.slot, s'.snapshot)
  {
  }

  lemma SendKeepsStreams(s: State, e: SendEvent)
    requires StreamsInv(s) && SendEnabled(s, e)
    ensures StreamsInv(SendApply(s, e))
  {
    SendLeavesStreams(s, e);
    if e.Wrote? {
      WroteKeepsUp(s, e);
    } else if e.ReadInput? {
      ReadKeepsUp(s, e);
    } else if e == InputEof {
      EofKeepsUp(s);
    } else {
      RestKeepsUp(s, e);
    }
  }

  lemma GotKeepsDown(s: State, e: RecvEvent)
    requires DownInv(s.recv, s.sock.down.sent, s.dest.slot, s.snapshot) && RecvEnabled(s, e) && e.Got?
    ensures var s' := RecvApply(s, e); DownInv(s'.recv, s'.sock.down.sent, s'.dest.slot, s'.snapshot)
  {
    var down := s.sock.down;
    if down.Next(e.k) == REJECT_MESSAGE {
      assert OccursAt(down.sent, REJECT_MESSAGE, down.taken);
    }
  }

  lemma RecvKeepsStreams(s: State, e: RecvEvent)
    requires StreamsInv(s) && RecvEnabled(s, e)
    ensures StreamsInv(RecvApply(s, e))
  {
    if e.Got? { GotKeepsDown(s, e); }
  }

  // ---------------------------------------------------------------- every step

  lemma StartIsClient(input: seq<byte>)
    ensures ClientInv(Init(input))
  {
    assert input[..0] == [];
  }

  lemma TeardownKeepsStreams(s: State, e: TeardownEvent)
    requires StreamsInv(s) && TeardownEnabled(s, e)
    ensures StreamsInv(TeardownApply(s, e))
  {
    TeardownLeavesArgs(s, e);
    TeardownLeavesStreams(s, e);
  }

  lemma TeardownLeavesStreams(s: State, e: TeardownEvent)
    requires TeardownEnabled(s, e)
    ensures
      var s' := TeardownApply(s, e);
      && s'.input == s.input && s'.pos == s.pos && s'.dest.slot == s.dest.slot && s'.snapshot == s.snapshot
      && s'.sock.up.sent == s.sock.up.sent && s'.sock.down == s.sock.down
  {
  }

  lemma PeerKeepsClient(s: State, sock: Socket)
    requires ClientInv(s) && ServerMoves(s.sock, sock)
    ensures ClientInv(s.(sock := sock))
  {
    PeerKeepsStreams(s, sock);
  }

  lemma DeathKeepsClient(s: State)
    requires ClientInv(s)
    ensures ClientInv(Dead(s))
  {
  }

  lemma StepKeepsClient(s: State, e: Event, s': State)
    requires ClientInv(s) && Step(s, e, s')
    ensures ClientInv(s')
  {
    match e
    case Peer(sock) => PeerKeepsClient(s, sock);
    case Spurious =>
    case Killed => DeathKeepsClient(s);
    case OfMain(main) => MainKeepsThreads(s, main); MainKeepsStreams(s, main);
    case OfTeardown(teardown) => TeardownKeepsThreads(s, teardown); TeardownKeepsStreams(s, teardown);
    case OfSend(send) => SendKeepsThreads(s, send); SendKeepsStreams(s, send);
    case OfRecv(recv) => RecvKeepsThreads(s, recv); RecvKeepsStreams(s, recv);
  }

  lemma ClientAlong(input: seq<byte>, ws: seq<State>, es: seq<Event>, i: nat)
    requires IsRun(input, ws, es) && i <= |es|
    ensures ClientInv(ws[i])
  {
    StartIsClient(input);
    forall s, e, s' | ClientInv(s) && Step(s, e, s') ensures ClientInv(s') {
      StepKeepsClient(s, e, s');
    }
    Runs.HoldsAlong(Init(input), Step, ClientInv, ws, es, i);
  }

  lemma ClientWhereReachable(input: seq<byte>, s: State)
    requires Reachable(input, s)
    ensures ClientInv(s)
  {
    var ws, es :| IsRun(input, ws, es) && ws[|es|] == s;
    ClientAlong(input, ws, es, |es|);
  }
}

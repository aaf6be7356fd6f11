/**
 The client as a step system, from a connected socket on. The main thread creates a receiving and a sending thread,
 waits until one of them posted a result, takes a snapshot of it, cancels both under the mutex, unlocks, joins, destroys
 and frees. Cancellation is deferred: a thread that was cancelled dies on entry to read(2) or write(2), or while blocked
 inside one of them, and nowhere else (POSIX.1-2017, System Interfaces, section 2.9.5.2).
 */
module Client {
  import opened Streams
  import Runs

  const EPIPE: int := 32

  // ---------------------------------------------------------------- results

  datatype Func = ReadFunc | WriteFunc

  datatype SendResult = SendResult(status: int, func: Func)

  datatype RecvResult = FuckOff | ReadFailure(errno: int)

  datatype Result = NoResult | Sending(send: SendResult) | Receiving(recv: RecvResult)

  datatype Status = SuccessEof | SuccessFuckOff | Unknown

  const BROKEN_PIPE := Sending(SendResult(EPIPE, WriteFunc))

  /** usockit_client_threads_dispatch_result: the first post wins. */
  function PostSending(slot: Result, r: SendResult): Result {
    if slot == NoResult then Sending(r) else slot
  }

  /** The receiving thread's post: the first wins, except that a rejection replaces a broken pipe. */
  function PostReceiving(slot: Result, r: RecvResult): Result {
    if slot == NoResult || (r == FuckOff && slot == BROKEN_PIPE) then Receiving(r) else slot
  }

  /** What usockit_client_connect returns for a snapshot; NoResult stands for a thread that could not be created. */
  function ReturnStatus(r: Result): Status {
    match r
    case NoResult => Unknown
    case Sending(send) => if send.status == 0 then SuccessEof else Unknown
    case Receiving(FuckOff) => SuccessFuckOff
    case Receiving(ReadFailure(_)) => Unknown
  }

  // ---------------------------------------------------------------- program counters

  datatype Thread = MainThread | SendThread | RecvThread

  datatype MainPc =
    | MCreateRecv
    | MCreateSend
    | MLock
    | MCheck
    | MWait
    | MBlocked
    | MSnapshot
    | MCancelRecv
    | MCancelSend
    | MUnlock
    | MJoinRecv
    | MJoinSend
    | MFailCancel   // the sending thread could not be created
    | MFailJoin
    | MDestroyCond
    | MDestroyMutex
    | MFree
    | MClose
    | MReturned

  datatype SendPc =
    | SNone
    | SStart
    | SReadEnter
    | SReadIn
    | SWriteEnter(buffer: seq<byte>, n: nat)
    | SWriteIn(buffer: seq<byte>, n: nat)
    | SLock(r: SendResult)
    | SPost(r: SendResult)
    | SUnlock
    | SSignal
    | SExited
    | SCancelled

  datatype RecvPc =
    | RNone
    | RStart
    | RReadEnter
    | RReadIn
    | RLock(r: RecvResult)
    | RPost(r: RecvResult)
    | RUnlock
    | RSignal
    | RExited
    | RCancelled

  // ---------------------------------------------------------------- state

  datatype Block = NoBlock | LiveBlock | FreedBlock

  /** The shared result destination: its three resources, the mutex owner, the slot, and whether main is in
      pthread_cond_wait with nothing having woken it. */
  datatype Dest = Dest(cond: bool, mutex: bool, memory: bool, owner: Option<Thread>, slot: Result, waiting: bool)

  datatype State = State(
    input: seq<byte>,  // everything on the client's stdin up to end-of-file
    pos: nat,          // how much of it was read
    sock: Socket,
    main: MainPc,
    send: SendPc,
    recv: RecvPc,
    dest: Dest,
    cancelSend: bool,
    cancelRecv: bool,
    snapshot: Result,
    argSend: Block,
    argRecv: Block,
    aborted: bool,
    fault: bool)       // the destination or an argument block was used or released after its release

  function Init(input: seq<byte>): State {
    State(input, 0, FRESH, MCreateRecv, SNone, RNone, Dest(true, true, true, None, NoResult, false),
          false, false, NoResult, NoBlock, NoBlock, false, false)
  }

  // ---------------------------------------------------------------- events

  datatype Creation = Created | NoMemory | NoThread

  datatype MainEvent =
    | CreateRecv(o: Creation)
    | CreateSend(o: Creation)
    | MainLock
    | MainCheck
    | MainWait
    | MainWake
    | Snapshot
    | CancelRecv
    | CancelSend
    | MainUnlock

  /** Main's steps once both threads are cancelled and the mutex is unlocked. */
  datatype TeardownEvent = JoinRecv | JoinSend | DestroyCond | DestroyMutex | FreeDest | CloseSocket

  datatype SendEvent =
    | SendFreeArg
    | EnterRead
    | ReadInput(k: nat)
    | InputEof
    | InputFail(errno: int)
    | EnterWrite
    | Wrote(k: nat)
    | WriteFail(errno: int)
    | SendDies
    | SendLock
    | SendPost
    | SendUnlock
    | SendSignal

  datatype RecvEvent =
    | RecvFreeArg
    | EnterRecv
    | Got(k: nat)
    | GotEof
    | RecvFail(errno: int)
    | RecvDies
    | RecvLock
    | RecvPost
    | RecvUnlock
    | RecvSignal

  datatype Event =
    | Peer(sock: Socket)
    | Spurious
    | Killed
    | OfMain(main: MainEvent)
    | OfTeardown(teardown: TeardownEvent)
    | OfSend(send: SendEvent)
    | OfRecv(recv: RecvEvent)

  // ---------------------------------------------------------------- main thread

  predicate SendOver(send: SendPc) {
    send == SNone || send == SExited || send == SCancelled
  }

  predicate RecvOver(recv: RecvPc) {
    recv == RNone || recv == RExited || recv == RCancelled
  }

  predicate MainEnabled(s: State, e: MainEvent) {
    match e
    case CreateRecv(_) => s.main == MCreateRecv
    case CreateSend(_) => s.main == MCreateSend
    case MainLock => s.main == MLock && s.dest.owner == None
    case MainCheck => s.main == MCheck
    case MainWait => s.main == MWait
    case MainWake => s.main == MBlocked && !s.dest.waiting && s.dest.owner == None
    case Snapshot => s.main == MSnapshot
    case CancelRecv => s.main == MCancelRecv || s.main == MFailCancel
    case CancelSend => s.main == MCancelSend
    case MainUnlock => s.main == MUnlock
  }

  /** A thread that could not be created leaves its argument block unallocated or freed. */
  function Uncreated(o: Creation): Block {
    if o == NoThread then FreedBlock else NoBlock
  }

  function MainApply(s: State, e: MainEvent): State
    requires MainEnabled(s, e)
  {
    match e
    case CreateRecv(o) =>
      if o == Created then s.(main := MCreateSend, recv := RStart, argRecv := LiveBlock)
      else s.(main := MDestroyCond, argRecv := Uncreated(o))
    case CreateSend(o) =>
      if o == Created then s.(main := MLock, send := SStart, argSend := LiveBlock)
      else s.(main := MFailCancel, argSend := Uncreated(o))
    case MainLock => s.(main := MCheck, dest := s.dest.(owner := Some(MainThread)), fault := s.fault || !s.dest.mutex)
    case MainCheck =>
      s.(main := if s.dest.slot == NoResult then MWait else MSnapshot, fault := s.fault || !s.dest.memory)
    case MainWait =>
      s.(main := MBlocked, dest := s.dest.(owner := None, waiting := true),
         fault := s.fault || !(s.dest.cond && s.dest.mutex))
    case MainWake => s.(main := MCheck, dest := s.dest.(owner := Some(MainThread)), fault := s.fault || !s.dest.mutex)
    case Snapshot => s.(main := MCancelRecv, snapshot := s.dest.slot, fault := s.fault || !s.dest.memory)
    case CancelRecv => s.(main := if s.main == MFailCancel then MFailJoin else MCancelSend, cancelRecv := true)
    case CancelSend => s.(main := MUnlock, cancelSend := true)
    case MainUnlock => s.(main := MJoinRecv, dest := s.dest.(owner := None), fault := s.fault || !s.dest.mutex)
  }

  predicate TeardownEnabled(s: State, e: TeardownEvent) {
    match e
    case JoinRecv => (s.main == MJoinRecv || s.main == MFailJoin) && RecvOver(s.recv)
    case JoinSend => s.main == MJoinSend && SendOver(s.send)
    case DestroyCond => s.main == MDestroyCond
    case DestroyMutex => s.main == MDestroyMutex
    case FreeDest => s.main == MFree
    case CloseSocket => s.main == MClose
  }

  function TeardownApply(s: State, e: TeardownEvent): State
    requires TeardownEnabled(s, e)
  {
    match e
    case JoinRecv => s.(main := if s.main == MFailJoin then MDestroyCond else MJoinSend)
    case JoinSend => s.(main := MDestroyCond)
    case DestroyCond =>
      s.(main := MDestroyMutex, dest := s.dest.(cond := false),
         fault := s.fault || !(s.dest.cond && !s.dest.waiting))
    case DestroyMutex =>
      s.(main := MFree, dest := s.dest.(mutex := false), fault := s.fault || !(s.dest.mutex && s.dest.owner == None))
    case FreeDest => s.(main := MClose, dest := s.dest.(memory := false), fault := s.fault || !s.dest.memory)
    case CloseSocket => s.(main := MReturned, sock := s.sock.(up := s.sock.up.Shut()))
  }

  // ---------------------------------------------------------------- sending thread

  predicate SendEnabled(s: State, e: SendEvent) {
    match e
    case SendFreeArg => s.send == SStart
    case EnterRead => s.send == SReadEnter && !s.cancelSend
    case ReadInput(k) => s.send == SReadIn && 1 <= k <= BUFFER_SIZE && s.pos + k <= |s.input|
    case InputEof => s.send == SReadIn && s.pos == |s.input|
    case InputFail(errno) => s.send == SReadIn && errno != 0
    case EnterWrite => s.send.SWriteEnter? && !s.cancelSend
    case Wrote(k) => s.send.SWriteIn? && 1 <= k && s.send.n + k <= |s.send.buffer|
    case WriteFail(errno) => s.send.SWriteIn? && errno != 0
    case SendDies =>
      s.cancelSend && (s.send == SReadEnter || s.send == SReadIn || s.send.SWriteEnter? || s.send.SWriteIn?)
    case SendLock => s.send.SLock? && s.dest.owner == None
    case SendPost => s.send.SPost?
    case SendUnlock => s.send == SUnlock
    case SendSignal => s.send == SSignal
  }

  function SendApply(s: State, e: SendEvent): State
    requires SendEnabled(s, e)
  {
    match e
    case SendFreeArg => s.(send := SReadEnter, argSend := FreedBlock, fault := s.fault || !(s.argSend == LiveBlock))
    case EnterRead => s.(send := SReadIn)
    case ReadInput(k) => s.(send := SWriteEnter(s.input[s.pos..s.pos + k], 0), pos := s.pos + k)
    case InputEof => s.(send := SLock(SendResult(0, ReadFunc)))
    case InputFail(errno) => s.(send := SLock(SendResult(errno, ReadFunc)))
    case EnterWrite => s.(send := SWriteIn(s.send.buffer, s.send.n))
    case Wrote(k) =>
      var SWriteIn(buffer, n) := s.send;
      s.(send := if n + k == |buffer| then SReadEnter else SWriteEnter(buffer, n + k),
         sock := s.sock.(up := s.sock.up.Push(buffer[n..n + k])))
    case WriteFail(errno) => s.(send := SLock(SendResult(errno, WriteFunc)))
    case SendDies => s.(send := SCancelled)
    case SendLock => s.(send := SPost(s.send.r), dest := s.dest.(owner := Some(SendThread)), fault := s.fault || !s.dest.mutex)
    case SendPost =>
      s.(send := SUnlock, dest := s.dest.(slot := PostSending(s.dest.slot, s.send.r)), fault := s.fault || !s.dest.memory)
    case SendUnlock => s.(send := SSignal, dest := s.dest.(owner := None), fault := s.fault || !s.dest.mutex)
    case SendSignal => s.(send := SExited, dest := s.dest.(waiting := false), fault := s.fault || !s.dest.cond)
  }

  // ---------------------------------------------------------------- receiving thread

  predicate RecvEnabled(s: State, e: RecvEvent) {
    match e
    case RecvFreeArg => s.recv == RStart
    case EnterRecv => s.recv == RReadEnter && !s.cancelRecv
    case Got(k) => s.recv == RReadIn && s.sock.down.CanTake(k, |REJECT_MESSAGE|)
    case GotEof => s.recv == RReadIn && s.sock.down.AtEof()
    case RecvFail(errno) => s.recv == RReadIn && errno != 0
    case RecvDies => s.cancelRecv && (s.recv == RReadEnter || s.recv == RReadIn)
    case RecvLock => s.recv.RLock? && s.dest.owner == None
    case RecvPost => s.recv.RPost?
    case RecvUnlock => s.recv == RUnlock
    case RecvSignal => s.recv == RSignal
  }

  /** abort(3), or any other death of the process: the kernel closes its descriptors. */
  function Dead(s: State): State {
    s.(aborted := true, sock := s.sock.(up := s.sock.up.Shut()))
  }

  function RecvApply(s: State, e: RecvEvent): State
    requires RecvEnabled(s, e)
  {
    match e
    case RecvFreeArg => s.(recv := RReadEnter, argRecv := FreedBlock, fault := s.fault || !(s.argRecv == LiveBlock))
    case EnterRecv => s.(recv := RReadIn)
    case Got(k) =>
      s.(recv := if s.sock.down.Next(k) == REJECT_MESSAGE then RLock(FuckOff) else RReadEnter,
         sock := s.sock.(down := s.sock.down.Take(k)))
    case GotEof => Dead(s)
    case RecvFail(errno) => s.(recv := RLock(ReadFailure(errno)))
    case RecvDies => s.(recv := RCancelled)
    case RecvLock => s.(recv := RPost(s.recv.r), dest := s.dest.(owner := Some(RecvThread)), fault := s.fault || !s.dest.mutex)
    case RecvPost =>
      s.(recv := RUnlock, dest := s.dest.(slot := PostReceiving(s.dest.slot, s.recv.r)), fault := s.fault || !s.dest.memory)
    case RecvUnlock => s.(recv := RSignal, dest := s.dest.(owner := None), fault := s.fault || !s.dest.mutex)
    case RecvSignal => s.(recv := RExited, dest := s.dest.(waiting := false), fault := s.fault || !s.dest.cond)
  }

  // ---------------------------------------------------------------- steps and runs

  ghost predicate Enabled(s: State, e: Event) {
    match e
    case Peer(sock) => ServerMoves(s.sock, sock)
    case Spurious => !s.aborted && s.dest.waiting
    case Killed => !s.aborted && s.main != MReturned
    case OfMain(main) => !s.aborted && MainEnabled(s, main)
    case OfTeardown(teardown) => !s.aborted && TeardownEnabled(s, teardown)
    case OfSend(send) => !s.aborted && SendEnabled(s, send)
    case OfRecv(recv) => !s.aborted && RecvEnabled(s, recv)
  }

  ghost function Apply(s: State, e: Event): State
    requires Enabled(s, e)
  {
    match e
    case Peer(sock) => s.(sock := sock)
    case Spurious => s.(dest := s.dest.(waiting := false))
    case Killed => Dead(s)
    case OfMain(main) => MainApply(s, main)
    case OfTeardown(teardown) => TeardownApply(s, teardown)
    case OfSend(send) => SendApply(s, send)
    case OfRecv(recv) => RecvApply(s, recv)
  }

  ghost predicate Step(s: State, e: Event, s': State) {
    Enabled(s, e) && s' == Apply(s, e)
  }

  ghost predicate IsRun(input: seq<byte>, ws: seq<State>, es: seq<Event>) {
    Runs.IsRun(Init(input), Step, ws, es)
  }

  ghost predicate Reachable(input: seq<byte>, s: State) {
    Runs.Reachable(Init(input), Step, s)
  }

  ghost predicate SoloStep(s: State, e: Event, s': State) {
    Step(s, e, s') && !e.Peer?
  }

  /** The client gets from `s` to `s'` with the server doing nothing to its socket. */
  ghost predicate Solo(s: State, s': State) {
    Runs.Reachable(s, SoloStep, s')
  }
}

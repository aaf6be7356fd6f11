/**
 The server as a step system. Four threads (main, accept, connection, child-wait) share a child-ready gate and a
 one-slot client mailbox, each a mutex with a condition variable. One event is one access to shared state or one
 system call; any event that is enabled may be the next one, so a run is an arbitrary schedule with arbitrary
 spurious wakeups, partial reads, partial writes and failing calls.

 A run stops when main begins to cancel the other threads.
 */
module Server {
  import opened Streams
  import Child
  import Runs

  type ClientId = nat

  datatype Thread = MainThread | AcceptThread | ConnThread | WaitThread

  // ---------------------------------------------------------------- program counters

  /** usockit_server_setup_child and usockit_server_parent. */
  datatype MainPc =
    | MFork
    | MStorePid(pid: nat, fd: nat)
    | MStoreStdin(fd: nat)
    | MReadReport
    | MLock
    | MSet
    | MUnlock
    | MBroadcast
    | MJoin
    | MCancelling  // joined with child-wait, about to cancel accept and return SUCCESS
    | MFailed      // returns UNKNOWN, the caller cancels every thread

  /** usockit_server_wait_for_child_ready. */
  datatype GatePc = GLock | GCheck | GWait | GBlocked | GUnlock

  datatype AcceptPc =
    | AGate(g: GatePc)
    | AAccept
    | ATry(c: ClientId)
    | AStore(c: ClientId)
    | AUnlock
    | ASignal
    | ARead(c: ClientId)
    | AReject(c: ClientId, n: nat)
    | AClose(c: ClientId)

  datatype SessionEnd = EndEof | EndReadFail | EndWriteFail

  datatype ConnPc =
    | CLock
    | CCheck
    | CWait
    | CBlocked
    | CRead
    | CWrite(buffer: seq<byte>, n: nat)
    | CClean(end: SessionEnd)
    | CUnlock(c: ClientId)
    | CClose(c: ClientId)

  datatype WaitPc = WGate(g: GatePc) | WWaitpid | WDone

  // ---------------------------------------------------------------- shared state

  /** usockit_server_child_ready_info. `waiting` holds the threads in pthread_cond_wait that nothing woke yet. */
  datatype Ready = Ready(owner: Option<Thread>, condition: bool, waiting: set<Thread>)

  /** client_ready_info; `slot` is client_fd, with None for -1. */
  datatype Mailbox = Mailbox(owner: Option<Thread>, slot: Option<ClientId>, waiting: set<Thread>)

  /** What fork(2) and pipe(2) made: the child's pid and the descriptor that the child's stdin is written through. */
  datatype Fork = Fork(pid: nat, fd: nat)

  datatype State = State(
    main: MainPc,
    accept: AcceptPc,
    conn: ConnPc,
    wait: WaitPc,
    ready: Ready,
    box: Mailbox,
    forked: Option<Fork>,       // known to the kernel; what the threads know they read through the pointers
    childPid: Option<nat>,      // *child_pid_ptr, None until main stores it
    childStdinFd: Option<nat>,  // *child_stdin_fd_ptr, None until main stores it
    child: Child.Process,
    childStdin: seq<byte>,
    backlog: seq<ClientId>,
    socks: map<ClientId, Socket>,
    fault: bool)                // a call was made with a pid or a descriptor that is not the one meant

  const INIT := State(
    MFork, AGate(GLock), CLock, WGate(GLock),
    Ready(None, false, {}), Mailbox(None, None, {}),
    None, None, None, Child.UNBORN, [], [], map[], false)

  // ---------------------------------------------------------------- events

  datatype EnvEvent =
    | Connect(c: ClientId)
    | Peer(c: ClientId, sock: Socket)
    | SpuriousReady(t: Thread)
    | SpuriousBox(t: Thread)
    | ChildGoes(e: Child.Event)

  datatype MainEvent =
    | ForkOk(pid: nat, fd: nat)
    | SetupFail
    | StorePid
    | StoreStdin
    | ReportEof
    | ReportError
    | ReportReadFail
    | LockReady
    | SetReady
    | UnlockReady
    | Broadcast
    | JoinWait

  datatype GateEvent = GateLock | GateCheck | GateWait | GateWake | GateUnlock

  datatype AcceptEvent =
    | AcceptOk
    | AcceptFail
    | TryLock
    | Store
    | UnlockBox
    | Signal
    | ReadSlot
    | RejectWrite(k: nat)
    | RejectFail
    | CloseClient

  datatype ConnEvent =
    | Lock
    | Check
    | Wait
    | Wake
    | Read(k: nat)
    | ReadEof
    | ReadFail
    | Write(k: nat)
    | WriteFail
    | Clear
    | Release
    | Close

  datatype Event =
    | OfEnv(env: EnvEvent)
    | OfMain(main: MainEvent)
    | OfGate(t: Thread, gate: GateEvent)
    | OfAccept(accept: AcceptEvent)
    | OfConn(conn: ConnEvent)
    | Waitpid

  // ---------------------------------------------------------------- environment

  ghost predicate EnvEnabled(s: State, e: EnvEvent) {
    match e
    case Connect(c) => c !in s.socks
    case Peer(c, sock) => c in s.socks && ClientMoves(s.socks[c], sock)
    case SpuriousReady(t) => t in s.ready.waiting
    case SpuriousBox(t) => t in s.box.waiting
    case ChildGoes(e) => Child.Enabled(s.child, e)
  }

  function EnvApply(s: State, e: EnvEvent): State
    requires e.ChildGoes? ==> Child.Enabled(s.child, e.e)
  {
    match e
    case Connect(c) => s.(backlog := s.backlog + [c], socks := s.socks[c := FRESH])
    case Peer(c, sock) => s.(socks := s.socks[c := sock])
    case SpuriousReady(t) => s.(ready := s.ready.(waiting := s.ready.waiting - {t}))
    case SpuriousBox(t) => s.(box := s.box.(waiting := s.box.waiting - {t}))
    case ChildGoes(e) => s.(child := Child.Apply(s.child, e))
  }

  // ---------------------------------------------------------------- main thread

  predicate MainEnabled(s: State, e: MainEvent) {
    match e
    case ForkOk(_, _) => s.main == MFork
    case SetupFail => s.main == MFork
    case StorePid => s.main.MStorePid?
    case StoreStdin => s.main.MStoreStdin?
    case ReportEof => s.main == MReadReport && s.child.report == [] && s.child.shut
    case ReportError => s.main == MReadReport && s.child.report != []
    case ReportReadFail => s.main == MReadReport
    case LockReady => s.main == MLock && s.ready.owner == None
    case SetReady => s.main == MSet
    case UnlockReady => s.main == MUnlock
    case Broadcast => s.main == MBroadcast
    case JoinWait => s.main == MJoin && s.wait == WDone
  }

  function MainApply(s: State, e: MainEvent): State
    requires MainEnabled(s, e)
  {
    match e
    case ForkOk(pid, fd) => s.(main := MStorePid(pid, fd), forked := Some(Fork(pid, fd)), child := s.child.(pc := Child.AtDup2))
    case SetupFail => s.(main := MFailed)
    case StorePid => s.(main := MStoreStdin(s.main.fd), childPid := Some(s.main.pid))
    case StoreStdin => s.(main := MReadReport, childStdinFd := Some(s.main.fd))
    case ReportEof => s.(main := MLock)
    case ReportError => s.(main := MFailed)
    case ReportReadFail => s.(main := MFailed)
    case LockReady => s.(main := MSet, ready := s.ready.(owner := Some(MainThread)))
    case SetReady => s.(main := MUnlock, ready := s.ready.(condition := true))
    case UnlockReady => s.(main := MBroadcast, ready := s.ready.(owner := None))
    case Broadcast => s.(main := MJoin, ready := s.ready.(waiting := {}))
    case JoinWait => s.(main := MCancelling)
  }

  // ---------------------------------------------------------------- the child-ready gate

  /** Where a thread stands in usockit_server_wait_for_child_ready, if it is still inside. */
  function Gate(s: State, t: Thread): Option<GatePc> {
    match t
    case AcceptThread => AcceptGate(s.accept)
    case WaitThread => WaitGate(s.wait)
    case _ => None
  }

  function AcceptGate(accept: AcceptPc): Option<GatePc> {
    if accept.AGate? then Some(accept.g) else None
  }

  function WaitGate(wait: WaitPc): Option<GatePc> {
    if wait.WGate? then Some(wait.g) else None
  }

  function SetGate(s: State, t: Thread, g: GatePc): State {
    match t
    case AcceptThread => s.(accept := AGate(g))
    case WaitThread => s.(wait := WGate(g))
    case _ => s
  }

  function PassGate(s: State, t: Thread): State {
    match t
    case AcceptThread => s.(accept := AAccept)
    case WaitThread => s.(wait := WWaitpid)
    case _ => s
  }

  predicate GateEnabled(s: State, t: Thread, e: GateEvent) {
    match e
    case GateLock => Gate(s, t) == Some(GLock) && s.ready.owner == None
    case GateCheck => Gate(s, t) == Some(GCheck)
    case GateWait => Gate(s, t) == Some(GWait)
    case GateWake => Gate(s, t) == Some(GBlocked) && t !in s.ready.waiting && s.ready.owner == None
    case GateUnlock => Gate(s, t) == Some(GUnlock)
  }

  function GateApply(s: State, t: Thread, e: GateEvent): State {
    match e
    case GateLock => SetGate(s.(ready := s.ready.(owner := Some(t))), t, GCheck)
    case GateCheck => SetGate(s, t, if s.ready.condition then GUnlock else GWait)
    case GateWait =>
      SetGate(s.(ready := s.ready.(owner := None, waiting := s.ready.waiting + {t})), t, GBlocked)
    case GateWake => SetGate(s.(ready := s.ready.(owner := Some(t))), t, GCheck)
    case GateUnlock => PassGate(s.(ready := s.ready.(owner := None)), t)
  }

  // ---------------------------------------------------------------- accept thread

  predicate AcceptEnabled(s: State, e: AcceptEvent) {
    match e
    case AcceptOk => s.accept == AAccept && s.backlog != []
    case AcceptFail => s.accept == AAccept
    case TryLock => s.accept.ATry?
    case Store => s.accept.AStore?
    case UnlockBox => s.accept == AUnlock
    case Signal => s.accept == ASignal
    case ReadSlot => s.accept.ARead?
    case RejectWrite(k) => s.accept.AReject? && 1 <= k && s.accept.n + k <= |REJECT_MESSAGE|
    case RejectFail => s.accept.AReject?
    case CloseClient => s.accept.AClose?
  }

  function AcceptApply(s: State, e: AcceptEvent): State
    requires AcceptEnabled(s, e)
  {
    match e
    case AcceptOk => s.(accept := ATry(s.backlog[0]), backlog := s.backlog[1..])
    case AcceptFail => s
    case TryLock =>
      if s.box.owner == None
      then s.(accept := AStore(s.accept.c), box := s.box.(owner := Some(AcceptThread)))
      else s.(accept := ARead(s.accept.c))
    case Store => s.(accept := AUnlock, box := s.box.(slot := Some(s.accept.c)))
    case UnlockBox => s.(accept := ASignal, box := s.box.(owner := None))
    case Signal => s.(accept := AAccept, box := s.box.(waiting := s.box.waiting - {ConnThread}))
    case ReadSlot => s.(accept := if s.box.slot == None then AClose(s.accept.c) else AReject(s.accept.c, 0))
    case RejectWrite(k) =>
      var AReject(c, n) := s.accept;
      s.(accept := if n + k == |REJECT_MESSAGE| then AClose(c) else AReject(c, n + k),
         socks := PushDown(s.socks, c, REJECT_MESSAGE[n..n + k]),
         fault := s.fault || c !in s.socks)
    case RejectFail => s.(accept := AClose(s.accept.c))
    case CloseClient =>
      s.(accept := AAccept, socks := ShutDown(s.socks, s.accept.c), fault := s.fault || s.accept.c !in s.socks)
  }

  // ---------------------------------------------------------------- connection thread

  /** The stored descriptor is the one that leads to the child's stdin. */
  predicate WritesToChild(s: State) {
    s.forked.Some? && s.childStdinFd == Some(s.forked.value.fd)
  }

  predicate ConnEnabled(s: State, e: ConnEvent) {
    match e
    case Lock => s.conn == CLock && s.box.owner == None
    case Check => s.conn == CCheck
    case Wait => s.conn == CWait
    case Wake => s.conn == CBlocked && ConnThread !in s.box.waiting && s.box.owner == None
    case Read(k) =>
      && s.conn == CRead
      && (s.box.slot.Some? && s.box.slot.value in s.socks ==> s.socks[s.box.slot.value].up.CanTake(k, BUFFER_SIZE))
    case ReadEof =>
      && s.conn == CRead
      && (s.box.slot.Some? && s.box.slot.value in s.socks ==> s.socks[s.box.slot.value].up.AtEof())
    case ReadFail => s.conn == CRead
    case Write(k) => s.conn.CWrite? && 1 <= k && s.conn.n + k <= |s.conn.buffer|
    case WriteFail => s.conn.CWrite?
    case Clear => s.conn.CClean?
    case Release => s.conn.CUnlock?
    case Close => s.conn.CClose?
  }

  function ConnApply(s: State, e: ConnEvent): State
    requires ConnEnabled(s, e)
  {
    match e
    case Lock => s.(conn := CCheck, box := s.box.(owner := Some(ConnThread)))
    case Check => s.(conn := if s.box.slot == None then CWait else CRead)
    case Wait =>
      s.(conn := CBlocked, box := s.box.(owner := None, waiting := s.box.waiting + {ConnThread}))
    case Wake => s.(conn := CCheck, box := s.box.(owner := Some(ConnThread)))
    case Read(k) =>
      if s.box.slot.Some? && s.box.slot.value in s.socks then
        var c := s.box.slot.value;
        var sock := s.socks[c];
        s.(conn := CWrite(sock.up.Next(k), 0), socks := s.socks[c := sock.(up := sock.up.Take(k))])
      else s.(fault := true)
    case ReadEof => s.(conn := CClean(EndEof))
    case ReadFail => s.(conn := CClean(EndReadFail))
    case Write(k) =>
      if !WritesToChild(s) then s.(fault := true) else
      var CWrite(buffer, n) := s.conn;
      s.(conn := if n + k == |buffer| then CRead else CWrite(buffer, n + k),
         childStdin := s.childStdin + buffer[n..n + k])
    case WriteFail => if !WritesToChild(s) then s.(fault := true) else s.(conn := CClean(EndWriteFail))
    case Clear =>
      if s.box.slot == None then s.(fault := true)
      else s.(conn := CUnlock(s.box.slot.value), box := s.box.(slot := None))
    case Release => s.(conn := CClose(s.conn.c), box := s.box.(owner := None))
    case Close =>
      s.(conn := CLock, socks := ShutDown(s.socks, s.conn.c), fault := s.fault || s.conn.c !in s.socks)
  }

  function PushDown(socks: map<ClientId, Socket>, c: ClientId, bytes: seq<byte>): map<ClientId, Socket> {
    if c in socks then socks[c := socks[c].(down := socks[c].down.Push(bytes))] else socks
  }

  function ShutDown(socks: map<ClientId, Socket>, c: ClientId): map<ClientId, Socket> {
    if c in socks then socks[c := socks[c].(down := socks[c].down.Shut())] else socks
  }

  // ---------------------------------------------------------------- steps and runs

  /** The stored pid is the child's. */
  predicate WaitsForChild(s: State) {
    s.forked.Some? && s.childPid == Some(s.forked.value.pid)
  }

  /** waitpid(2) returns once the child is gone; with any other pid there is no telling. */
  predicate WaitpidEnabled(s: State) {
    s.wait == WWaitpid && (!WaitsForChild(s) || s.child.pc == Child.Gone)
  }

  predicate Stopped(s: State) {
    s.main == MCancelling || s.main == MFailed
  }

  ghost predicate Enabled(s: State, e: Event) {
    match e
    case OfEnv(env) => EnvEnabled(s, env)
    case OfMain(main) => !Stopped(s) && MainEnabled(s, main)
    case OfGate(t, gate) => !Stopped(s) && GateEnabled(s, t, gate)
    case OfAccept(accept) => !Stopped(s) && AcceptEnabled(s, accept)
    case OfConn(conn) => !Stopped(s) && ConnEnabled(s, conn)
    case Waitpid => !Stopped(s) && WaitpidEnabled(s)
  }

  ghost function Apply(s: State, e: Event): State
    requires Enabled(s, e)
  {
    match e
    case OfEnv(env) => EnvApply(s, env)
    case OfMain(main) => MainApply(s, main)
    case OfGate(t, gate) => GateApply(s, t, gate)
    case OfAccept(accept) => AcceptApply(s, accept)
    case OfConn(conn) => ConnApply(s, conn)
    case Waitpid => if !WaitsForChild(s) then s.(fault := true) else s.(wait := WDone)
  }

  /** One session: the client picked up, the bytes written to the child meanwhile, and how it ended. */
  datatype Block = Block(client: ClientId, bytes: seq<byte>, end: Option<SessionEnd>)

  /** What held when the accept thread decided to send the rejection. */
  datatype Rejection = Rejection(client: ClientId, holder: ClientId, owner: Option<Thread>, conn: ConnPc)

  /** What an observer of the run writes down; the server does not see it. */
  datatype Log = Log(
    accepted: seq<ClientId>,
    displaced: seq<ClientId>,
    closed: seq<ClientId>,
    turnedAway: seq<ClientId>,
    rejections: seq<Rejection>,
    blocks: seq<Block>)

  const NO_LOG := Log([], [], [], [], [], [])

  function OnLast(blocks: seq<Block>, bytes: seq<byte>, end: Option<SessionEnd>): seq<Block> {
    if blocks == [] then blocks else
    var last := blocks[|blocks| - 1];
    blocks[|blocks| - 1 := last.(bytes := last.bytes + bytes, end := end)]
  }

  function ObserveAccept(l: Log, s: State, e: AcceptEvent): Log
    requires AcceptEnabled(s, e)
  {
    match e
    case AcceptOk => l.(accepted := l.accepted + [s.backlog[0]])
    case TryLock => if s.box.owner == None then l else l.(turnedAway := l.turnedAway + [s.accept.c])
    case Store => if s.box.slot == None then l else l.(displaced := l.displaced + [s.box.slot.value])
    case ReadSlot =>
      if s.box.slot == None then l
      else l.(rejections := l.rejections + [Rejection(s.accept.c, s.box.slot.value, s.box.owner, s.conn)])
    case CloseClient => l.(closed := l.closed + [s.accept.c])
    case _ => l
  }

  function ObserveConn(l: Log, s: State, e: ConnEvent): Log
    requires ConnEnabled(s, e)
  {
    match e
    case Check => if s.box.slot == None then l else l.(blocks := l.blocks + [Block(s.box.slot.value, [], None)])
    case Write(k) => l.(blocks := OnLast(l.blocks, s.conn.buffer[s.conn.n..s.conn.n + k], None))
    case ReadEof => l.(blocks := OnLast(l.blocks, [], Some(EndEof)))
    case ReadFail => l.(blocks := OnLast(l.blocks, [], Some(EndReadFail)))
    case WriteFail => l.(blocks := OnLast(l.blocks, [], Some(EndWriteFail)))
    case Close => l.(closed := l.closed + [s.conn.c])
    case _ => l
  }

  ghost function Observe(l: Log, s: State, e: Event): Log
    requires Enabled(s, e)
  {
    match e
    case OfAccept(accept) => ObserveAccept(l, s, accept)
    case OfConn(conn) => ObserveConn(l, s, conn)
    case _ => l
  }

  datatype World = World(s: State, log: Log)

  const START := World(INIT, NO_LOG)

  /** One step of the server and of its observer. */
  ghost predicate Step(w: World, e: Event, w': World) {
    Enabled(w.s, e) && w'.s == Apply(w.s, e) && w'.log == Observe(w.log, w.s, e)
  }

  ghost predicate Reachable(w: World) {
    Runs.Reachable(START, Step, w)
  }

  ghost predicate IsRun(ws: seq<World>, es: seq<Event>) {
    Runs.IsRun(START, Step, ws, es)
  }

  /** Steps that are a client's doing. */
  predicate AboutClients(e: Event) {
    e.OfEnv? && (e.env.Connect? || e.env.Peer?)
  }

  ghost predicate SoloStep(w: World, e: Event, w': World) {
    Step(w, e, w') && !AboutClients(e)
  }

  /** The server gets from `w` to `w'` with no client doing anything. */
  ghost predicate Solo(w: World, w': World) {
    Runs.Reachable(w, SoloStep, w')
  }
}

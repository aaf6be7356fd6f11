/** The client's results over whole runs, and why its teardown ends. */
module ClientTeardown {
  import opened Streams
  import opened Client
  import opened ClientInvariant
  import Runs

  // ---------------------------------------------------------------- arbitration

  lemma MainLeavesSlot(s: State, e: MainEvent)
    requires MainEnabled(s, e)
    ensures MainApply(s, e).dest.slot == s.dest.slot
  {
    match e
    case CreateRecv(_) | CreateSend(_) | MainLock | MainCheck | MainWait | MainWake | Snapshot | CancelRecv | CancelSend
       | MainUnlock =>
  }

  lemma TeardownLeavesSlot(s: State, e: TeardownEvent)
    requires TeardownEnabled(s, e)
    ensures TeardownApply(s, e).dest.slot == s.dest.slot
  {
    match e
    case JoinRecv | JoinSend | DestroyCond | DestroyMutex | FreeDest | CloseSocket =>
  }

  lemma SendOverrides(s: State, e: SendEvent)
    requires SendEnabled(s, e)
    ensures var s' := SendApply(s, e);
            && s'.main == s.main && (s'.dest.waiting ==> s.dest.waiting)
            && (s.dest.slot != NoResult ==> s'.dest.slot == s.dest.slot)
  {
  }

  lemma RecvOverrides(s: State, e: RecvEvent)
    requires RecvEnabled(s, e)
    ensures var s' := RecvApply(s, e);
            && s'.main == s.main && (s'.dest.waiting ==> s.dest.waiting)
            && (s.dest.slot != NoResult ==> Overrides(s.dest.slot, s'.dest.slot))
  {
  }

  lemma StepOverrides(s: State, e: Event, s': State)
    requires Step(s, e, s') && s.dest.slot != NoResult
    ensures Overrides(s.dest.slot, s'.dest.slot) && s'.dest.slot != NoResult
  {
    match e
    case OfMain(main) => MainLeavesSlot(s, main);
    case OfTeardown(teardown) => TeardownLeavesSlot(s, teardown);
    case OfSend(send) => SendOverrides(s, send);
    case OfRecv(recv) => RecvOverrides(s, recv);
    case _ =>
  }

  /** Once posted, the slot is never empty again; it keeps its value, except that a broken pipe may become a rejection. */
  lemma {:induction false} Arbitration(input: seq<byte>, ws: seq<State>, es: seq<Event>, i: nat, j: nat)
    requires IsRun(input, ws, es) && i <= j <= |es| && ws[i].dest.slot != NoResult
    ensures Overrides(ws[i].dest.slot, ws[j].dest.slot)
    decreases j - i
  {
    if i < j {
      assert Step(ws[i], es[i], ws[i + 1]);
      StepOverrides(ws[i], es[i], ws[i + 1]);
      Arbitration(input, ws, es, i + 1, j);
    }
  }

  predicate Stores(ws: seq<State>, i: nat) {
    i + 1 < |ws| && ws[i].dest.slot != ws[i + 1].dest.slot
  }

  /** In any run the slot changes at most twice. */
  lemma AtMostTwoStores(input: seq<byte>, ws: seq<State>, es: seq<Event>, i: nat, j: nat, k: nat)
    requires IsRun(input, ws, es) && i < j < k
    ensures !(Stores(ws, i) && Stores(ws, j) && Stores(ws, k))
  {
    if Stores(ws, i) && Stores(ws, j) && Stores(ws, k) {
      if ws[i].dest.slot != NoResult { Arbitration(input, ws, es, i, j); }
      if ws[i + 1].dest.slot != NoResult { Arbitration(input, ws, es, i + 1, j); }
      if ws[i].dest.slot == NoResult && ws[i + 1].dest.slot == NoResult { assert false; }
      assert ws[j].dest.slot != NoResult;
      Arbitration(input, ws, es, j, j + 1);
      Arbitration(input, ws, es, j + 1, k);
      Arbitration(input, ws, es, k, k + 1);
    }
  }

  /** Two posts into an empty slot: the order matters for every pair of results but one. */
  lemma OverrideIsOrderIndependent(a: SendResult, b: RecvResult)
    ensures
      var sendFirst := PostReceiving(PostSending(NoResult, a), b);
      var recvFirst := PostSending(PostReceiving(NoResult, b), a);
      if Sending(a) == BROKEN_PIPE && b == FuckOff
      then sendFirst == Receiving(FuckOff) && recvFirst == Receiving(FuckOff)
      else sendFirst == Sending(a) && recvFirst == Receiving(b)
  {
  }

  /** Main returns for the value that the slot held when it took the snapshot; an override that comes later is missed. */
  lemma SnapshotAgainstSlot(input: seq<byte>, s: State)
    requires Reachable(input, s) && s.snapshot != NoResult
    ensures Overrides(s.snapshot, s.dest.slot)
    ensures s.snapshot == s.dest.slot <==> ReturnStatus(s.snapshot) == ReturnStatus(s.dest.slot)
  {
    ClientWhereReachable(input, s);
  }

  /** The rejection is posted over the broken pipe when main has already taken its snapshot. */
  predicate TooLate(s: State, e: Event) {
    e == OfRecv(RecvPost) && s.recv == RPost(FuckOff) && s.dest.slot == BROKEN_PIPE && s.snapshot != NoResult
  }

  predicate Missed(s: State) {
    s.snapshot != NoResult && s.snapshot != s.dest.slot
  }

  lemma MainMissesNothing(s: State, e: MainEvent)
    requires SlotInv(s.main, s.send, s.recv, s.dest.slot, s.dest.waiting, s.snapshot) && MainEnabled(s, e)
    ensures Missed(MainApply(s, e)) <==> Missed(s)
  {
    match e
    case CreateRecv(_) | CreateSend(_) | MainLock | MainCheck | MainWait | MainWake | Snapshot | CancelRecv | CancelSend
       | MainUnlock =>
  }

  lemma RecvIsMissed(s: State, e: RecvEvent)
    requires SlotInv(s.main, s.send, s.recv, s.dest.slot, s.dest.waiting, s.snapshot) && RecvEnabled(s, e)
    ensures Missed(RecvApply(s, e)) <==> Missed(s) || TooLate(s, OfRecv(e))
  {
    match e
    case RecvFreeArg | EnterRecv | Got(_) | GotEof | RecvFail(_) | RecvDies | RecvLock | RecvPost | RecvUnlock | RecvSignal =>
  }

  lemma SendIsNotMissed(s: State, e: SendEvent)
    requires SlotInv(s.main, s.send, s.recv, s.dest.slot, s.dest.waiting, s.snapshot) && SendEnabled(s, e)
    ensures Missed(SendApply(s, e)) <==> Missed(s)
  {
    SendOverrides(s, e);
    SendLeavesSnapshot(s, e);
  }

  lemma SendLeavesSnapshot(s: State, e: SendEvent)
    requires SendEnabled(s, e)
    ensures SendApply(s, e).snapshot == s.snapshot
  {
  }

  lemma TeardownMissesNothing(s: State, e: TeardownEvent)
    requires TeardownEnabled(s, e)
    ensures Missed(TeardownApply(s, e)) <==> Missed(s)
  {
  }

  lemma MissedByLatePost(s: State, e: Event, s': State)
    requires SlotInv(s.main, s.send, s.recv, s.dest.slot, s.dest.waiting, s.snapshot) && Step(s, e, s')
    ensures Missed(s') <==> Missed(s) || TooLate(s, e)
  {
    match e
    case OfMain(main) => MainMissesNothing(s, main);
    case OfTeardown(teardown) => TeardownMissesNothing(s, teardown);
    case OfSend(send) => SendIsNotMissed(s, send);
    case OfRecv(recv) => RecvIsMissed(s, recv);
    case _ =>
  }

  /** In any run, main returns for something else than the slot finally holds exactly when a rejection was posted over a
      broken pipe after the snapshot. */
  lemma MissedIff(input: seq<byte>, ws: seq<State>, es: seq<Event>, n: nat)
    requires IsRun(input, ws, es) && n <= |es|
    ensures Missed(ws[n]) <==> exists i :: 0 <= i < n && TooLate(ws[i], es[i])
  {
    forall i | 0 <= i < n ensures Missed(ws[i + 1]) <==> Missed(ws[i]) || TooLate(ws[i], es[i]) {
      SlotAlong(input, ws, es, i);
      MissedByLatePost(ws[i], es[i], ws[i + 1]);
    }
    Runs.RaisedIff(Missed, TooLate, ws, es, n);
  }

  // ---------------------------------------------------------------- use after release

  /** Main destroys and frees the destination only when both threads are over and nobody owns the mutex; nothing is used
      or released after its release; when main returns each argument block that was allocated has been freed. */
  lemma NoUseAfterRelease(input: seq<byte>, s: State)
    requires Reachable(input, s)
    ensures !s.fault
    ensures !(s.dest.cond && s.dest.mutex && s.dest.memory) ==>
              SendOver(s.send) && RecvOver(s.recv) && s.dest.owner == None
    ensures s.main == MReturned ==>
              && s.argSend != LiveBlock && s.argRecv != LiveBlock
              && !s.dest.cond && !s.dest.mutex && !s.dest.memory
  {
    ClientWhereReachable(input, s);
    if Destroying(s.main) { OwnerIsNobody(s); }
  }

  /** Nobody dies owning the mutex, main does not join while it owns it, and a posted result that main sleeps through
      still has its signal to come. */
  lemma NoDeadlock(input: seq<byte>, s: State)
    requires Reachable(input, s)
    ensures SendOver(s.send) ==> s.dest.owner != Some(SendThread)
    ensures RecvOver(s.recv) ==> s.dest.owner != Some(RecvThread)
    ensures Joining(s.main) || s.main == MFailJoin ==> s.dest.owner != Some(MainThread)
    ensures s.dest.slot != NoResult && s.dest.waiting ==> SignalPending(s.send, s.recv)
  {
    ClientWhereReachable(input, s);
  }

  // ---------------------------------------------------------------- from a result to the cancellations

  predicate OfThread(e: Event) {
    e.OfMain? || e.OfTeardown? || e.OfSend? || e.OfRecv?
  }

  /** Main's own steps left until both cancellations are requested, once there is a result that it was woken for. */
  function CancelRank(main: MainPc): nat {
    match main
    case MLock => 5
    case MBlocked => 5
    case MCheck => 4
    case MSnapshot => 3
    case MCancelRecv => 2
    case MCancelSend => 1
    case _ => 0
  }

  predicate Decided(s: State) {
    s.dest.slot != NoResult && !s.dest.waiting && CancelRank(s.main) > 0
  }

  // From a posted result to main being awake.

  datatype Worker = Sender | Receiver

  /** A result is posted and main sleeps. */
  predicate Asleep(s: State) {
    s.dest.slot != NoResult && s.dest.waiting
  }

  /** The steps of a thread up to and with its signal, if that is still to come. */
  function SignalRank(s: State, t: Worker): nat {
    match t
    case Sender => if s.send == SUnlock then 2 else if s.send == SSignal then 1 else 0
    case Receiver => if s.recv == RUnlock then 2 else if s.recv == RSignal then 1 else 0
  }

  predicate OfWorker(e: Event, t: Worker) {
    match t
    case Sender => e.OfSend?
    case Receiver => e.OfRecv?
  }

  /** One step later: awake, or still asleep and no further from the signal. */
  predicate NearsWaking(s: State, t: Worker, own: bool, s': State) {
    Decided(s') ||
    (Asleep(s') && 0 < SignalRank(s', t) <= SignalRank(s, t) && (own ==> SignalRank(s', t) < SignalRank(s, t)))
  }

  lemma SendNearsWaking(s: State, e: SendEvent, t: Worker)
    requires SendEnabled(s, e) && Asleep(s) && s.main == MBlocked && SignalRank(s, t) > 0
    ensures NearsWaking(s, t, t.Sender?, SendApply(s, e))
  {
  }

  lemma RecvNearsWaking(s: State, e: RecvEvent, t: Worker)
    requires RecvEnabled(s, e) && Asleep(s) && s.main == MBlocked && SignalRank(s, t) > 0
    ensures NearsWaking(s, t, t.Receiver?, RecvApply(s, e))
  {
  }

  lemma AsleepUntilSignalled(s: State, e: Event, s': State, t: Worker)
    requires SlotInv(s.main, s.send, s.recv, s.dest.slot, s.dest.waiting, s.snapshot)
    requires Asleep(s) && SignalRank(s, t) > 0 && Step(s, e, s')
    ensures NearsWaking(s, t, OfWorker(e, t), s')
  {
    match e
    case OfMain(_) => assert false;
    case OfTeardown(_) => assert false;
    case OfSend(send) => SendNearsWaking(s, send, t);
    case OfRecv(recv) => RecvNearsWaking(s, recv, t);
    case _ =>
  }

  /** The number of steps of worker `t` among events i to j. */
  function WorkerSteps(es: seq<Event>, i: nat, j: nat, t: Worker): nat
    requires i <= j <= |es|
    decreases j - i
  {
    if i == j then 0 else (if OfWorker(es[i], t) then 1 else 0) + WorkerSteps(es, i + 1, j, t)
  }

  /** In any run, while main sleeps through a posted result some worker has its signal to come, and two steps of that worker
      at most wake main for the result. */
  lemma SleeperIsWoken(input: seq<byte>, ws: seq<State>, es: seq<Event>, i: nat)
    requires IsRun(input, ws, es) && i < |es| && Asleep(ws[i])
    ensures exists t :: 0 < SignalRank(ws[i], t) <= 2
    ensures forall t, j: nat :: i <= j <= |es| && 0 < SignalRank(ws[i], t) <= WorkerSteps(es, i, j, t) ==>
              exists k :: i < k <= j && Decided(ws[k])
  {
    SlotAlong(input, ws, es, i);
    assert SignalRank(ws[i], Sender) > 0 || SignalRank(ws[i], Receiver) > 0;
    forall t, j: nat | i <= j <= |es| && 0 < SignalRank(ws[i], t) <= WorkerSteps(es, i, j, t)
      ensures exists k :: i < k <= j && Decided(ws[k])
    {
      var k := WokenBy(input, ws, es, i, j, t);
    }
  }

  lemma {:induction false} WokenBy(input: seq<byte>, ws: seq<State>, es: seq<Event>, i: nat, j: nat, t: Worker)
      returns (k: nat)
    requires IsRun(input, ws, es) && i <= j <= |es| && Asleep(ws[i])
    requires 0 < SignalRank(ws[i], t) <= WorkerSteps(es, i, j, t)
    ensures i < k <= j && Decided(ws[k])
    decreases j - i
  {
    assert i < j;
    SlotAlong(input, ws, es, i);
    AsleepUntilSignalled(ws[i], es[i], ws[i + 1], t);
    if Decided(ws[i + 1]) {
      k := i + 1;
    } else {
      k := WokenBy(input, ws, es, i + 1, j, t);
    }
  }

  // From there to the cancellations.

  lemma MainNearsIssue(s: State, e: MainEvent)
    requires SlotInv(s.main, s.send, s.recv, s.dest.slot, s.dest.waiting, s.snapshot) && Decided(s) && MainEnabled(s, e)
    ensures var s' := MainApply(s, e); CancelRank(s'.main) < CancelRank(s.main) && (Decided(s') || s'.main == MUnlock)
  {
    match e
    case CreateRecv(_) | CreateSend(_) | MainLock | MainCheck | MainWait | MainWake | Snapshot | CancelRecv | CancelSend
       | MainUnlock =>
  }

  lemma DecidedUntilIssued(s: State, e: Event, s': State)
    requires SlotInv(s.main, s.send, s.recv, s.dest.slot, s.dest.waiting, s.snapshot) && Decided(s) && Step(s, e, s')
    ensures CancelRank(s'.main) <= CancelRank(s.main)
    ensures e.OfMain? ==> CancelRank(s'.main) < CancelRank(s.main)
    ensures Decided(s') || s'.main == MUnlock
  {
    match e
    case OfMain(main) => MainNearsIssue(s, main);
    case OfTeardown(_) => assert false;
    case OfSend(send) => SendOverrides(s, send);
    case OfRecv(recv) => RecvOverrides(s, recv);
    case _ =>
  }

  /** The number of main's steps among events i to j. */
  function MainSteps(es: seq<Event>, i: nat, j: nat): nat
    requires i <= j <= |es|
    decreases j - i
  {
    if i == j then 0 else (if es[i].OfMain? then 1 else 0) + MainSteps(es, i + 1, j)
  }

  /** In any run, once a result is posted and main was woken for it, five of main's own steps at most request both
      cancellations, whatever the two threads do meanwhile. */
  lemma {:induction false} ResultIsTaken(input: seq<byte>, ws: seq<State>, es: seq<Event>, i: nat, j: nat) returns (k: nat)
    requires IsRun(input, ws, es) && i <= j <= |es| && Decided(ws[i])
    requires MainSteps(es, i, j) >= CancelRank(ws[i].main)
    ensures i < k <= j && ws[k].main == MUnlock
    decreases j - i
  {
    assert i < j;
    SlotAlong(input, ws, es, i);
    DecidedUntilIssued(ws[i], es[i], ws[i + 1]);
    if ws[i + 1].main == MUnlock {
      k := i + 1;
    } else {
      k := ResultIsTaken(input, ws, es, i + 1, j);
    }
  }

  lemma SlotAlong(input: seq<byte>, ws: seq<State>, es: seq<Event>, i: nat)
    requires IsRun(input, ws, es) && i < |es|
    ensures SlotInv(ws[i].main, ws[i].send, ws[i].recv, ws[i].dest.slot, ws[i].dest.waiting, ws[i].snapshot)
    ensures Step(ws[i], es[i], ws[i + 1])
  {
    ClientAlong(input, ws, es, i);
  }

  /** Main can take that step, or a worker owns the mutex and nothing blocks its release. */
  lemma DecidedIsNotBlocked(s: State)
    requires MutexInv(s.main, s.send, s.recv, s.dest.owner) && Decided(s)
    ensures
      || MainEnabled(s, MainLock) || MainEnabled(s, MainWake) || MainEnabled(s, MainCheck)
      || MainEnabled(s, Snapshot) || MainEnabled(s, CancelRecv) || MainEnabled(s, CancelSend)
      || SendEnabled(s, SendPost) || SendEnabled(s, SendUnlock)
      || RecvEnabled(s, RecvPost) || RecvEnabled(s, RecvUnlock)
  {
    if s.dest.owner.Some? {
      match s.dest.owner.value
      case MainThread =>
      case SendThread =>
      case RecvThread =>
    }
  }

  // ---------------------------------------------------------------- from the cancellations to the return

  /** Both threads are cancelled, or over, or were never created. */
  predicate Issued(main: MainPc) {
    main == MUnlock || Joining(main) || main == MFailJoin || Destroying(main)
  }

  function MainRank(main: MainPc): nat {
    match main
    case MUnlock => 7
    case MJoinRecv => 6
    case MFailJoin => 6
    case MJoinSend => 5
    case MDestroyCond => 4
    case MDestroyMutex => 3
    case MFree => 2
    case MClose => 1
    case _ => 0
  }

  /** The steps a cancelled sending thread can still take: to its next read or write, or through its post. */
  function SendRank(send: SendPc): nat {
    match send
    case SStart => 2
    case SReadEnter => 1
    case SReadIn => 5
    case SWriteEnter(_, _) => 1
    case SWriteIn(_, _) => 5
    case SLock(_) => 4
    case SPost(_) => 3
    case SUnlock => 2
    case SSignal => 1
    case _ => 0
  }

  function RecvRank(recv: RecvPc): nat {
    match recv
    case RStart => 2
    case RReadEnter => 1
    case RReadIn => 5
    case RLock(_) => 4
    case RPost(_) => 3
    case RUnlock => 2
    case RSignal => 1
    case _ => 0
  }

  function Rank(s: State): nat {
    MainRank(s.main) + SendRank(s.send) + RecvRank(s.recv)
  }

  lemma SendFalls(s: State, e: SendEvent)
    requires SendEnabled(s, e) && s.cancelSend
    ensures var s' := SendApply(s, e);
            SendRank(s'.send) < SendRank(s.send) && s'.main == s.main && s'.recv == s.recv && s'.aborted == s.aborted
  {
  }

  lemma RecvFalls(s: State, e: RecvEvent)
    requires RecvEnabled(s, e) && s.cancelRecv
    ensures var s' := RecvApply(s, e);
            && RecvRank(s.recv) >= 1 && (s'.aborted || RecvRank(s'.recv) < RecvRank(s.recv))
            && s'.main == s.main && s'.send == s.send
  {
  }

  lemma TeardownFalls(s: State, e: TeardownEvent)
    requires TeardownEnabled(s, e)
    ensures var s' := TeardownApply(s, e);
            && MainRank(s'.main) < MainRank(s.main) && Issued(s'.main)
            && s'.send == s.send && s'.recv == s.recv && s'.aborted == s.aborted
  {
  }

  lemma RankFalls(s: State, e: Event, s': State)
    requires LifeInv(s.main, s.send, s.recv, s.cancelSend, s.cancelRecv) && Issued(s.main) && Step(s, e, s')
    ensures Issued(s'.main)
    ensures OfThread(e) ==> Rank(s) >= 1 && (s'.aborted || Rank(s') < Rank(s))
    ensures !OfThread(e) ==> Rank(s') == Rank(s)
  {
    match e
    case Peer(_) =>
    case Spurious =>
    case Killed =>
    case OfMain(main) => MainFalls(s, main);
    case OfTeardown(teardown) => TeardownFalls(s, teardown);
    case OfSend(send) => SendFalls(s, send);
    case OfRecv(recv) => RecvFalls(s, recv);
  }

  lemma MainFalls(s: State, e: MainEvent)
    requires MainEnabled(s, e) && Issued(s.main)
    ensures var s' := MainApply(s, e);
            && e == MainUnlock && MainRank(s'.main) < MainRank(s.main) && Issued(s'.main)
            && s'.send == s.send && s'.recv == s.recv && s'.aborted == s.aborted
  {
  }

  /** The steps that main and the threads take by themselves on the way out: none of them needs a call to fail or a byte to
      arrive. A thread that is cancelled while it is blocked in read(2) or write(2) dies there. */
  predicate OwnStep(e: Event) {
    match e
    case OfTeardown(_) => true
    case OfMain(main) => main == MainUnlock
    case OfSend(send) =>
      send == SendFreeArg || send == SendDies || send == SendLock || send == SendPost || send == SendUnlock || send == SendSignal
    case OfRecv(recv) =>
      recv == RecvFreeArg || recv == RecvDies || recv == RecvLock || recv == RecvPost || recv == RecvUnlock || recv == RecvSignal
    case _ => false
  }

  /** Unless main has returned, some thread can take a step of its own: a join that waits, waits for a thread that can. */
  lemma TeardownIsNotBlocked(s: State)
    requires LifeInv(s.main, s.send, s.recv, s.cancelSend, s.cancelRecv)
    requires MutexInv(s.main, s.send, s.recv, s.dest.owner)
    requires Issued(s.main) && s.main != MReturned && !s.aborted
    ensures exists e :: OwnStep(e) && Enabled(s, e)
  {
    if s.main == MUnlock {
      assert Enabled(s, OfMain(MainUnlock));
    } else if (s.main == MJoinRecv || s.main == MFailJoin) && !RecvOver(s.recv) {
      RecvCanMove(s);
    } else if s.main == MJoinSend && !SendOver(s.send) {
      SendCanMove(s);
    } else {
      MainCanTearDown(s);
    }
  }

  lemma MainCanTearDown(s: State)
    requires !s.aborted && (Joining(s.main) || s.main == MFailJoin || Destroying(s.main)) && s.main != MReturned
    requires s.main == MJoinRecv || s.main == MFailJoin ==> RecvOver(s.recv)
    requires s.main == MJoinSend ==> SendOver(s.send)
    ensures exists e :: OwnStep(e) && Enabled(s, e)
  {
    var e := match s.main
      case MJoinRecv => JoinRecv
      case MFailJoin => JoinRecv
      case MJoinSend => JoinSend
      case MDestroyCond => DestroyCond
      case MDestroyMutex => DestroyMutex
      case MFree => FreeDest
      case _ => CloseSocket;
    assert TeardownEnabled(s, e);
    assert Enabled(s, OfTeardown(e));
  }

  lemma SendCanMove(s: State)
    requires MutexInv(s.main, s.send, s.recv, s.dest.owner) && s.cancelSend && !SendOver(s.send) && !s.aborted
    requires !MainOwns(s.main)
    ensures exists e :: OwnStep(e) && Enabled(s, e)
  {
    var e := match s.send
      case SStart => SendFreeArg
      case SLock(_) => SendLock
      case SPost(_) => SendPost
      case SUnlock => SendUnlock
      case SSignal => SendSignal
      case _ => SendDies;
    if SendEnabled(s, e) {
      assert Enabled(s, OfSend(e));
    } else {
      assert s.dest.owner.Some? && s.dest.owner.value == RecvThread by {
        match s.dest.owner.value case MainThread => case SendThread => case RecvThread =>
      }
      assert Enabled(s, OfRecv(if s.recv.RPost? then RecvPost else RecvUnlock));
    }
  }

  lemma RecvCanMove(s: State)
    requires MutexInv(s.main, s.send, s.recv, s.dest.owner) && s.cancelRecv && !RecvOver(s.recv) && !s.aborted
    requires !MainOwns(s.main)
    ensures exists e :: OwnStep(e) && Enabled(s, e)
  {
    var e := match s.recv
      case RStart => RecvFreeArg
      case RLock(_) => RecvLock
      case RPost(_) => RecvPost
      case RUnlock => RecvUnlock
      case RSignal => RecvSignal
      case _ => RecvDies;
    if RecvEnabled(s, e) {
      assert Enabled(s, OfRecv(e));
    } else {
      assert s.dest.owner.Some? && s.dest.owner.value == SendThread by {
        match s.dest.owner.value case MainThread => case SendThread => case RecvThread =>
      }
      assert Enabled(s, OfSend(if s.send.SPost? then SendPost else SendUnlock));
    }
  }

  /** The number of thread steps among events i to j. */
  function ThreadSteps(es: seq<Event>, i: nat, j: nat): nat
    requires i <= j <= |es|
    decreases j - i
  {
    if i == j then 0 else (if OfThread(es[i]) then 1 else 0) + ThreadSteps(es, i + 1, j)
  }

  lemma LifeAlong(input: seq<byte>, ws: seq<State>, es: seq<Event>, i: nat)
    requires IsRun(input, ws, es) && i <= |es|
    ensures LifeInv(ws[i].main, ws[i].send, ws[i].recv, ws[i].cancelSend, ws[i].cancelRecv)
    ensures MutexInv(ws[i].main, ws[i].send, ws[i].recv, ws[i].dest.owner)
    ensures i < |es| ==> Step(ws[i], es[i], ws[i + 1])
  {
    ClientAlong(input, ws, es, i);
  }

  lemma AbortStays(s: State, e: Event, s': State)
    requires Step(s, e, s') && s.aborted
    ensures s'.aborted && !OfThread(e)
  {
  }

  lemma RankFallsAlong(input: seq<byte>, ws: seq<State>, es: seq<Event>, i: nat)
    requires IsRun(input, ws, es) && i < |es| && Issued(ws[i].main)
    ensures Issued(ws[i + 1].main)
    ensures OfThread(es[i]) ==> ws[i + 1].aborted || Rank(ws[i + 1]) < Rank(ws[i])
    ensures !OfThread(es[i]) ==> Rank(ws[i + 1]) == Rank(ws[i])
    ensures OfThread(es[i]) ==> Rank(ws[i]) >= 1
  {
    LifeAlong(input, ws, es, i);
    RankFalls(ws[i], es[i], ws[i + 1]);
  }

  lemma RankIsSmall(s: State)
    ensures Rank(s) <= 17
  {
  }

  /** In any run, once both cancellations are requested, at most 17 more steps of all threads together are possible. */
  lemma {:induction false} TeardownEnds(input: seq<byte>, ws: seq<State>, es: seq<Event>, i: nat, j: nat)
    requires IsRun(input, ws, es) && i <= j <= |es| && Issued(ws[i].main)
    ensures Issued(ws[j].main)
    ensures ThreadSteps(es, i, j) <= Rank(ws[i]) <= 17
    decreases j - i
  {
    RankIsSmall(ws[i]);
    if i < j {
      RankFallsAlong(input, ws, es, i);
      TeardownEnds(input, ws, es, i + 1, j);
      if ws[i + 1].aborted { AbortedIsOver(input, ws, es, i + 1, j); }
    }
  }

  /** And where no thread can take one of its own, whatever the kernel does with blocked calls, main has returned or the
      client aborted. */
  lemma TeardownReturns(input: seq<byte>, ws: seq<State>, es: seq<Event>, j: nat)
    requires IsRun(input, ws, es) && j <= |es| && Issued(ws[j].main)
    requires forall e :: OwnStep(e) ==> !Enabled(ws[j], e)
    ensures ws[j].main == MReturned || ws[j].aborted
  {
    LifeAlong(input, ws, es, j);
    if ws[j].main != MReturned && !ws[j].aborted { TeardownIsNotBlocked(ws[j]); }
  }

  lemma {:induction false} AbortedIsOver(input: seq<byte>, ws: seq<State>, es: seq<Event>, i: nat, j: nat)
    requires IsRun(input, ws, es) && i <= j <= |es| && ws[i].aborted
    ensures ThreadSteps(es, i, j) == 0
    decreases j - i
  {
    if i < j {
      assert Step(ws[i], es[i], ws[i + 1]);
      AbortStays(ws[i], es[i], ws[i + 1]);
      AbortedIsOver(input, ws, es, i + 1, j);
    }
  }
}

/** How the threads that wait for the child get through the gate, and how main gets to open it. */
module ServerGate {
  import opened Streams
  import opened Server
  import opened ServerControl
  import opened ServerSafety
  import Child
  import Runs

  // ---------------------------------------------------------------- the child-ready mutex is given back

  /** How many steps of its own the owner of the child-ready mutex is away from giving it back. */
  function GateHold(g: Option<GatePc>): nat {
    match g
    case Some(GCheck) => 2
    case Some(GWait) => 1
    case Some(GUnlock) => 1
    case _ => 0
  }

  function MainHold(main: MainPc): nat {
    match main
    case MSet => 2
    case MUnlock => 1
    case _ => 0
  }

  /** The next step of thread `t`, which owns the child-ready mutex. */
  function OwnersStep(s: State, t: Thread): Event {
    if t == MainThread then OfMain(if s.main == MSet then SetReady else UnlockReady)
    else OfGate(t, match Gate(s, t)
      case Some(GCheck) => GateCheck
      case Some(GWait) => GateWait
      case _ => GateUnlock)
  }

  /** Whoever owns the child-ready mutex can take its next step, which gives the mutex back or leaves it one step away from
      that. */
  lemma ReadyIsGivenBack(s: State)
    requires ControlInv(s) && !Stopped(s) && s.ready.owner.Some?
    ensures var t := s.ready.owner.value;
            Enabled(s, OwnersStep(s, t))
    ensures var t := s.ready.owner.value;
            var s' := Apply(s, OwnersStep(s, t));
            s'.ready.owner == None ||
            (s'.ready.owner == Some(t) && GateHold(Gate(s', t)) + MainHold(s'.main) < GateHold(Gate(s, t)) + MainHold(s.main))
  {
    match s.ready.owner.value
    case MainThread =>
    case AcceptThread =>
    case WaitThread =>
    case ConnThread => assert false;
  }

  // ---------------------------------------------------------------- through the gate

  /** The ready condition is set, and thread `t`, still inside the gate, is awake or was woken. */
  predicate Called(s: State, t: Thread) {
    Gate(s, t).Some? && s.ready.condition && t !in s.ready.waiting
  }

  function GateRank(g: Option<GatePc>): nat {
    match g
    case Some(GLock) => 3
    case Some(GBlocked) => 3
    case Some(GCheck) => 2
    case Some(GUnlock) => 1
    case Some(GWait) => 1
    case None => 0
  }

  predicate Passed(s: State, t: Thread) {
    if t == AcceptThread then s.accept == AAccept else s.wait == WWaitpid
  }

  /** One step later: through, or still called and no further from the way out. */
  predicate NearsPassage(s: State, t: Thread, own: bool, s': State) {
    if Called(s', t)
    then GateRank(Gate(s', t)) <= GateRank(Gate(s, t)) && (own ==> GateRank(Gate(s', t)) < GateRank(Gate(s, t)))
    else own && Passed(s', t)
  }

  lemma GateNearsPassage(s: State, u: Thread, e: GateEvent, t: Thread)
    requires ControlInv(s) && GateEnabled(s, u, e) && Called(s, t)
    ensures NearsPassage(s, t, u == t, GateApply(s, u, e))
  {
    match e
    case GateLock =>
    case GateCheck =>
    case GateWait =>
    case GateWake =>
    case GateUnlock =>
  }

  lemma OthersLeaveGate(w: World, e: Event, w': World, t: Thread)
    requires ControlInv(w.s) && Step(w, e, w') && !e.OfGate? && Called(w.s, t)
    ensures Gate(w'.s, t) == Gate(w.s, t) && Called(w'.s, t)
  {
    match e
    case OfEnv(env) =>
    case OfMain(main) => MainLeavesGate(w.s, main, t);
    case OfAccept(accept) => AcceptLeavesGate(w.s, accept, t);
    case OfConn(conn) => ConnLeavesGate(w.s, conn, t);
    case Waitpid =>
  }

  lemma MainLeavesGate(s: State, e: MainEvent, t: Thread)
    requires MainEnabled(s, e)
    ensures var s' := MainApply(s, e);
            && Gate(s', t) == Gate(s, t) && s'.ready.waiting <= s.ready.waiting
            && (s.ready.condition ==> s'.ready.condition)
  {
  }

  lemma AcceptLeavesGate(s: State, e: AcceptEvent, t: Thread)
    requires AcceptEnabled(s, e)
    ensures AcceptApply(s, e).ready == s.ready && Gate(AcceptApply(s, e), t) == Gate(s, t)
  {
  }

  lemma ConnLeavesGate(s: State, e: ConnEvent, t: Thread)
    requires ConnEnabled(s, e)
    ensures ConnApply(s, e).ready == s.ready && Gate(ConnApply(s, e), t) == Gate(s, t)
  {
  }

  lemma StepNearsPassage(w: World, e: Event, w': World, t: Thread)
    requires ControlInv(w.s) && Step(w, e, w') && Called(w.s, t)
    ensures NearsPassage(w.s, t, OfGateOf(e, t), w'.s)
  {
    match e
    case OfGate(u, gate) => GateNearsPassage(w.s, u, gate, t);
    case _ => OthersLeaveGate(w, e, w', t);
  }

  predicate OfGateOf(e: Event, t: Thread) {
    e.OfGate? && e.t == t
  }

  lemma ControlAlong(ws: seq<World>, es: seq<Event>, i: nat)
    requires IsRun(ws, es) && i <= |es|
    ensures ControlInv(ws[i].s)
    ensures i < |es| ==> Step(ws[i], es[i], ws[i + 1])
  {
    SafeAlong(ws, es, i);
  }

  lemma PassageAt(ws: seq<World>, es: seq<Event>, k: nat, t: Thread)
    requires IsRun(ws, es) && k < |es| && Called(ws[k].s, t)
    ensures NearsPassage(ws[k].s, t, OfGateOf(es[k], t), ws[k + 1].s)
    ensures GateRank(Gate(ws[k].s, t)) > 0
  {
    ControlAlong(ws, es, k);
    StepNearsPassage(ws[k], es[k], ws[k + 1], t);
  }

  /** In any run, once the ready condition is set and a thread is not asleep on it, three gate steps of that thread at most
      bring it through: the accept thread to accept(2), the child-wait thread to waitpid(2). */
  lemma CalledThreadPasses(ws: seq<World>, es: seq<Event>, i: nat, j: nat, t: Thread) returns (k: nat)
    requires IsRun(ws, es) && i <= j <= |es| && Called(ws[i].s, t)
    requires Runs.Count(es, (e: Event) => OfGateOf(e, t), i, j) >= 3
    ensures i <= k < j && OfGateOf(es[k], t) && Passed(ws[k + 1].s, t)
    ensures forall m :: i <= m <= k ==> Called(ws[m].s, t)
  {
    var on := (w: World) => Called(w.s, t);
    var rank := (w: World) => GateRank(Gate(w.s, t));
    var own := (e: Event) => OfGateOf(e, t);
    forall k | i <= k < j && on(ws[k]) && on(ws[k + 1])
      ensures rank(ws[k + 1]) <= rank(ws[k]) && (own(es[k]) ==> rank(ws[k + 1]) < rank(ws[k]))
    {
      PassageAt(ws, es, k, t);
    }
    k := Runs.Descends(ws, es, on, rank, own, i, j);
    PassageAt(ws, es, k, t);
  }

  /** And it can take the next of them, unless another thread owns the mutex (see ReadyIsGivenBack). */
  lemma PassageIsNotBlocked(s: State, t: Thread)
    requires ControlInv(s) && !Stopped(s) && Called(s, t)
    ensures s.ready.owner.Some? || Enabled(s, OfGate(t, GateLock)) || Enabled(s, OfGate(t, GateWake))
  {
    if s.ready.owner == None {
      match Gate(s, t)
      case Some(GLock) => assert GateEnabled(s, t, GateLock);
      case Some(GBlocked) => assert GateEnabled(s, t, GateWake);
      case Some(GCheck) => assert false;
      case Some(GWait) => assert false;
      case Some(GUnlock) => assert false;
    }
  }

  /** Past the gate, the child-wait thread is done as soon as the child is gone. */
  lemma WaitIsDone(s: State)
    requires ControlInv(s) && !Stopped(s) && s.wait == WWaitpid && s.child.pc == Child.Gone
    ensures Enabled(s, Waitpid) && Apply(s, Waitpid).wait == WDone
  {
  }

  // ---------------------------------------------------------------- main

  function MainRank(main: MainPc): nat {
    match main
    case MFork => 9
    case MStorePid(_, _) => 8
    case MStoreStdin(_) => 7
    case MReadReport => 6
    case MLock => 5
    case MSet => 4
    case MUnlock => 3
    case MBroadcast => 2
    case MJoin => 1
    case MCancelling => 0
    case MFailed => 0
  }

  lemma MainNearsItsEnd(s: State, e: MainEvent)
    requires MainEnabled(s, e)
    ensures MainRank(MainApply(s, e).main) < MainRank(s.main)
    ensures MainApply(s, e).main == MFailed <==> e == SetupFail || e == ReportError || e == ReportReadFail
  {
  }

  lemma OthersLeaveMain(w: World, e: Event, w': World)
    requires Step(w, e, w') && !e.OfMain?
    ensures w'.s.main == w.s.main
  {
    match e
    case OfEnv(env) =>
    case OfGate(t, gate) => GateLeavesMain(w.s, t, gate);
    case OfAccept(accept) => AcceptLeavesMain(w.s, accept);
    case OfConn(conn) => ConnLeavesMain(w.s, conn);
    case Waitpid =>
  }

  lemma GateLeavesMain(s: State, t: Thread, e: GateEvent)
    requires GateEnabled(s, t, e)
    ensures GateApply(s, t, e).main == s.main
  {
  }

  lemma AcceptLeavesMain(s: State, e: AcceptEvent)
    requires AcceptEnabled(s, e)
    ensures AcceptApply(s, e).main == s.main
  {
  }

  lemma ConnLeavesMain(s: State, e: ConnEvent)
    requires ConnEnabled(s, e)
    ensures ConnApply(s, e).main == s.main
  {
  }

  lemma MainRankAt(ws: seq<World>, es: seq<Event>, k: nat)
    requires IsRun(ws, es) && k < |es|
    ensures MainRank(ws[k + 1].s.main) <= MainRank(ws[k].s.main)
    ensures es[k].OfMain? ==> MainRank(ws[k + 1].s.main) < MainRank(ws[k].s.main)
    ensures !Stopped(ws[k].s) ==> MainRank(ws[k].s.main) > 0
    ensures !Stopped(ws[k].s) && Stopped(ws[k + 1].s) ==>
              && es[k].OfMain?
              && (ws[k + 1].s.main == MFailed <==>
                  es[k].main == SetupFail || es[k].main == ReportError || es[k].main == ReportReadFail)
  {
    ControlAlong(ws, es, k);
    if es[k].OfMain? {
      MainNearsItsEnd(ws[k].s, es[k].main);
    } else {
      OthersLeaveMain(ws[k], es[k], ws[k + 1]);
    }
  }

  /** In any run main takes nine steps at most: to SUCCESS, or to a failure exactly if one of its calls failed or the child
      reported one. */
  lemma MainComesToAnEnd(ws: seq<World>, es: seq<Event>, n: nat) returns (k: nat)
    requires IsRun(ws, es) && n <= |es| && Runs.Count(es, (e: Event) => e.OfMain?, 0, n) >= 9
    ensures k < n && es[k].OfMain? && Stopped(ws[k + 1].s)
    ensures ws[k + 1].s.main == MFailed <==>
              es[k].main == SetupFail || es[k].main == ReportError || es[k].main == ReportReadFail
  {
    var on, rank := (w: World) => !Stopped(w.s), (w: World) => MainRank(w.s.main);
    forall k | 0 <= k <= n && on(ws[k]) ensures rank(ws[k]) > 0 {
    }
    forall k | 0 <= k < n && on(ws[k]) && on(ws[k + 1])
      ensures rank(ws[k + 1]) <= rank(ws[k]) && (es[k].OfMain? ==> rank(ws[k + 1]) < rank(ws[k]))
    {
      MainRankAt(ws, es, k);
    }
    k := Runs.Descends(ws, es, on, rank, (e: Event) => e.OfMain?, 0, n);
    MainRankAt(ws, es, k);
  }

  /** Main can take its next step, without any call failing, unless it waits for the child to execute the program or to
      fail, for the mutex, or for the child-wait thread. */
  lemma MainIsNotBlocked(s: State)
    requires ControlInv(s) && !Stopped(s)
    ensures
      || (s.main == MReadReport && s.child.report == [] && !s.child.shut)
      || (s.main == MLock && s.ready.owner.Some?)
      || (s.main == MJoin && s.wait != WDone)
      || exists e :: e != SetupFail && e != ReportReadFail && Enabled(s, OfMain(e))
  {
    var e := match s.main
      case MFork => ForkOk(0, 0)
      case MStorePid(_, _) => StorePid
      case MStoreStdin(_) => StoreStdin
      case MReadReport => if s.child.report == [] then ReportEof else ReportError
      case MLock => LockReady
      case MSet => SetReady
      case MUnlock => UnlockReady
      case MBroadcast => Broadcast
      case _ => JoinWait;
    assert MainEnabled(s, e) ==> Enabled(s, OfMain(e));
  }
}

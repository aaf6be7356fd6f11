/** The rounds of the connection thread and of the accept thread: each ends where it began, with what it held given back. */
module ServerRounds {
  import opened Streams
  import opened Server
  import opened ServerControl
  import opened ServerPlaces
  import opened ServerSafety
  import opened ServerHandoff
  import Runs

  // ---------------------------------------------------------------- from the end of a session to the lock

  /** The session of client `c` is over, and its descriptor not closed yet. */
  predicate Ending(s: State, c: ClientId) {
    || (s.conn.CClean? && s.box.slot == Some(c))
    || s.conn == CUnlock(c)
    || s.conn == CClose(c)
  }

  function EndRank(conn: ConnPc): nat {
    match conn
    case CClean(_) => 3
    case CUnlock(_) => 2
    case CClose(_) => 1
    case _ => 0
  }

  /** The mutex is released, the slot is empty, the client closed. */
  predicate Left(s: State, l: Log, c: ClientId) {
    s.conn == CLock && c in l.closed && c in s.socks && s.socks[c].down.shut
  }

  predicate NearsLeaving(s: State, own: bool, s': State, l': Log, c: ClientId) {
    if Ending(s', c)
    then EndRank(s'.conn) <= EndRank(s.conn) && (own ==> EndRank(s'.conn) < EndRank(s.conn))
    else own && Left(s', l', c)
  }

  lemma ConnNearsLeaving(s: State, l: Log, e: ConnEvent, c: ClientId)
    requires BoxInv(s.accept, s.conn, s.box) && KnownInv(s.accept, s.conn, s.box.slot, s.backlog, s.socks)
    requires ConnEnabled(s, e) && Ending(s, c)
    ensures NearsLeaving(s, true, ConnApply(s, e), ObserveConn(l, s, e), c)
  {
    match e
    case Lock =>
    case Check =>
    case Wait =>
    case Wake =>
    case Read(k) =>
    case ReadEof =>
    case ReadFail =>
    case Write(k) =>
    case WriteFail =>
    case Clear =>
    case Release =>
    case Close =>
  }

  lemma AcceptLeavesEnding(s: State, e: AcceptEvent, c: ClientId)
    requires BoxInv(s.accept, s.conn, s.box) && AcceptEnabled(s, e) && Ending(s, c)
    ensures AcceptApply(s, e).conn == s.conn && Ending(AcceptApply(s, e), c)
  {
  }

  lemma StepNearsLeaving(w: World, e: Event, w': World, c: ClientId)
    requires Safe(w) && Step(w, e, w') && Ending(w.s, c)
    ensures NearsLeaving(w.s, e.OfConn?, w'.s, w'.log, c)
  {
    match e
    case OfConn(conn) => ConnNearsLeaving(w.s, w.log, conn, c);
    case OfAccept(accept) => AcceptLeavesEnding(w.s, accept, c);
    case _ => OthersLeaveHandoff(w, e, w');
  }

  lemma LeavingAt(ws: seq<World>, es: seq<Event>, k: nat, c: ClientId)
    requires IsRun(ws, es) && k < |es| && Ending(ws[k].s, c)
    ensures NearsLeaving(ws[k].s, es[k].OfConn?, ws[k + 1].s, ws[k + 1].log, c)
    ensures EndRank(ws[k].s.conn) > 0
  {
    SafeAlong(ws, es, k);
    assert Step(ws[k], es[k], ws[k + 1]);
    StepNearsLeaving(ws[k], es[k], ws[k + 1], c);
  }

  /** In any run, from the end of a session three steps of the connection thread at most empty the slot, release the mutex
      and close the client, in this order, and bring the thread back to its lock. */
  lemma SessionIsLeft(ws: seq<World>, es: seq<Event>, i: nat, j: nat, c: ClientId) returns (a: nat, b: nat, k: nat)
    requires IsRun(ws, es) && i <= j <= |es| && ws[i].s.conn.CClean? && ws[i].s.box.slot == Some(c)
    requires ConnSteps(es, i, j) >= 3
    ensures i <= a < b < k < j
    ensures es[a] == OfConn(Clear) && ws[a + 1].s.box.slot == None
    ensures es[b] == OfConn(Release) && ws[b].s.box.owner == Some(ConnThread) && ws[b + 1].s.box.owner == None
    ensures es[k] == OfConn(Close) && Left(ws[k + 1].s, ws[k + 1].log, c)
  {
    var on, rank := (w: World) => Ending(w.s, c), (w: World) => EndRank(w.s.conn);
    forall k | i <= k < j && on(ws[k]) && on(ws[k + 1])
      ensures rank(ws[k + 1]) <= rank(ws[k]) && (es[k].OfConn? ==> rank(ws[k + 1]) < rank(ws[k]))
    {
      LeavingAt(ws, es, k, c);
    }
    CountsConnSteps(es, i, j);
    k := Runs.Descends(ws, es, on, rank, (e: Event) => e.OfConn?, i, j);
    LeavingAt(ws, es, k, c);
    EndingAt(ws, es, k);
    b := Runs.Leaves(ws, (w: World) => w.s.conn.CClean? || w.s.conn.CUnlock?, i, k);
    LeavingAt(ws, es, b, c);
    EndingAt(ws, es, b);
    a := Runs.Leaves(ws, (w: World) => w.s.conn.CClean?, i, b);
    LeavingAt(ws, es, a, c);
    EndingAt(ws, es, a);
  }

  lemma {:induction false} CountsConnSteps(es: seq<Event>, i: nat, j: nat)
    requires i <= j <= |es|
    ensures Runs.Count(es, (e: Event) => e.OfConn?, i, j) == ConnSteps(es, i, j)
    decreases j - i
  {
    if i < j {
      CountsConnSteps(es, i + 1, j);
    }
  }

  /** Which step it is, told by where the thread stands. */
  lemma EndingEvent(s: State, e: ConnEvent)
    requires BoxInv(s.accept, s.conn, s.box) && ConnEnabled(s, e) && EndRank(s.conn) > 0
    ensures var s' := ConnApply(s, e);
            match s.conn
            case CClean(_) => e == Clear && s'.conn.CUnlock? && s'.box.slot == None
            case CUnlock(_) => e == Release && s'.conn.CClose? && s.box.owner == Some(ConnThread) && s'.box.owner == None
            case _ => e == Close && s'.conn == CLock
  {
    match s.conn
    case CClean(_) =>
    case CUnlock(_) =>
    case CClose(_) =>
    case _ => assert false;
  }

  lemma EndingAt(ws: seq<World>, es: seq<Event>, k: nat)
    requires IsRun(ws, es) && k < |es| && EndRank(ws[k].s.conn) > 0 && ws[k + 1].s.conn != ws[k].s.conn
    ensures match ws[k].s.conn
            case CClean(_) => es[k] == OfConn(Clear) && ws[k + 1].s.conn.CUnlock? && ws[k + 1].s.box.slot == None
            case CUnlock(_) =>
              && es[k] == OfConn(Release) && ws[k + 1].s.conn.CClose?
              && ws[k].s.box.owner == Some(ConnThread) && ws[k + 1].s.box.owner == None
            case _ => es[k] == OfConn(Close) && ws[k + 1].s.conn == CLock
  {
    BoxAlong(ws, es, k);
    if es[k].OfConn? {
      EndingEvent(ws[k].s, es[k].conn);
    } else {
      OthersLeaveConn(ws[k], es[k], ws[k + 1]);
    }
  }

  /** None of the three can be blocked. */
  lemma LeavingIsNotBlocked(s: State, c: ClientId)
    requires !Stopped(s) && Ending(s, c)
    ensures Enabled(s, OfConn(Clear)) || Enabled(s, OfConn(Release)) || Enabled(s, OfConn(Close))
  {
  }

  // ---------------------------------------------------------------- from the lock to the wait

  predicate Idle(conn: ConnPc) {
    conn == CLock || conn == CCheck || conn == CWait
  }

  function IdleRank(conn: ConnPc): nat {
    match conn
    case CLock => 3
    case CCheck => 2
    case CWait => 1
    case _ => 0
  }

  /** In session, or asleep with the mutex released. */
  predicate Settled(s: State) {
    || InSession(s.conn)
    || (s.conn == CBlocked && s.box.owner == None && ConnThread in s.box.waiting && s.box.slot == None)
  }

  lemma ConnSettles(s: State, e: ConnEvent)
    requires BoxInv(s.accept, s.conn, s.box) && ConnEnabled(s, e) && Idle(s.conn)
    ensures var s' := ConnApply(s, e); if Idle(s'.conn) then IdleRank(s'.conn) < IdleRank(s.conn) else Settled(s')
  {
    match e
    case Lock =>
    case Check =>
    case Wait =>
    case Wake =>
    case Read(k) =>
    case ReadEof =>
    case ReadFail =>
    case Write(k) =>
    case WriteFail =>
    case Clear =>
    case Release =>
    case Close =>
  }

  lemma OthersLeaveConn(w: World, e: Event, w': World)
    requires Step(w, e, w') && !e.OfConn?
    ensures w'.s.conn == w.s.conn
  {
    match e
    case OfAccept(accept) => AcceptLeavesConn(w.s, accept);
    case _ => OthersLeaveHandoff(w, e, w');
  }

  lemma AcceptLeavesConn(s: State, e: AcceptEvent)
    requires AcceptEnabled(s, e)
    ensures AcceptApply(s, e).conn == s.conn
  {
  }

  lemma SettlingAt(ws: seq<World>, es: seq<Event>, k: nat)
    requires IsRun(ws, es) && k < |es| && Idle(ws[k].s.conn)
    ensures if Idle(ws[k + 1].s.conn)
            then IdleRank(ws[k + 1].s.conn) <= IdleRank(ws[k].s.conn)
                 && (es[k].OfConn? ==> IdleRank(ws[k + 1].s.conn) < IdleRank(ws[k].s.conn))
            else es[k].OfConn? && Settled(ws[k + 1].s)
    ensures IdleRank(ws[k].s.conn) > 0
  {
    BoxAlong(ws, es, k);
    if es[k].OfConn? {
      ConnSettles(ws[k].s, es[k].conn);
    } else {
      OthersLeaveConn(ws[k], es[k], ws[k + 1]);
    }
  }

  /** In any run, from its lock three steps of the connection thread at most bring it into a session or to sleep, the mutex
      released and the slot empty. */
  lemma LockedThreadSettles(ws: seq<World>, es: seq<Event>, i: nat, j: nat) returns (k: nat)
    requires IsRun(ws, es) && i <= j <= |es| && Idle(ws[i].s.conn) && ConnSteps(es, i, j) >= 3
    ensures i <= k < j && es[k].OfConn? && Settled(ws[k + 1].s)
  {
    var on, rank := (w: World) => Idle(w.s.conn), (w: World) => IdleRank(w.s.conn);
    forall k | i <= k < j && on(ws[k]) && on(ws[k + 1])
      ensures rank(ws[k + 1]) <= rank(ws[k]) && (es[k].OfConn? ==> rank(ws[k + 1]) < rank(ws[k]))
    {
      SettlingAt(ws, es, k);
    }
    CountsConnSteps(es, i, j);
    k := Runs.Descends(ws, es, on, rank, (e: Event) => e.OfConn?, i, j);
    SettlingAt(ws, es, k);
  }

  /** It can take the next of them, unless the accept thread owns the mutex, which is about to give it back. */
  lemma SettlingIsNotBlocked(s: State)
    requires BoxInv(s.accept, s.conn, s.box) && !Stopped(s) && Idle(s.conn)
    ensures
      || Enabled(s, OfConn(Lock)) || Enabled(s, OfConn(Check)) || Enabled(s, OfConn(Wait))
      || Enabled(s, OfAccept(Store)) || Enabled(s, OfAccept(UnlockBox))
  {
  }

  // ---------------------------------------------------------------- from an accept to the next

  /** Client `c` is accepted, and neither handed over nor closed yet. */
  predicate Dealing(accept: AcceptPc, c: ClientId) {
    Hand(accept) == Some(c)
  }

  function HandRank(accept: AcceptPc): nat {
    match accept
    case ATry(_) => 11
    case ARead(_) => 10
    case AReject(_, n) => if n < 8 then 9 - n else 1
    case AStore(_) => 1
    case AClose(_) => 1
    case _ => 0
  }

  /** Stored in the slot, or closed. */
  predicate DealtWith(s: State, l: Log, c: ClientId) {
    || (s.accept == AUnlock && s.box.slot == Some(c))
    || (s.accept == AAccept && c in l.closed && c in s.socks && s.socks[c].down.shut)
  }

  predicate NearsDealing(s: State, own: bool, s': State, l': Log, c: ClientId) {
    if Dealing(s'.accept, c)
    then HandRank(s'.accept) <= HandRank(s.accept) && (own ==> HandRank(s'.accept) < HandRank(s.accept))
    else own && DealtWith(s', l', c)
  }

  lemma AcceptNearsDealing(s: State, l: Log, e: AcceptEvent, c: ClientId)
    requires BoxInv(s.accept, s.conn, s.box) && KnownInv(s.accept, s.conn, s.box.slot, s.backlog, s.socks)
    requires AcceptEnabled(s, e) && Dealing(s.accept, c)
    ensures NearsDealing(s, true, AcceptApply(s, e), ObserveAccept(l, s, e), c)
  {
    match e
    case AcceptOk =>
    case AcceptFail =>
    case TryLock =>
    case Store =>
    case UnlockBox =>
    case Signal =>
    case ReadSlot =>
    case RejectWrite(k) =>
    case RejectFail =>
    case CloseClient =>
  }

  lemma OthersLeaveHand(w: World, e: Event, w': World, c: ClientId)
    requires Step(w, e, w') && !e.OfAccept? && Dealing(w.s.accept, c)
    ensures w'.s.accept == w.s.accept
  {
    match e
    case OfEnv(env) =>
    case OfMain(main) =>
    case OfGate(t, gate) => GateLeavesHand(w.s, t, gate);
    case OfConn(conn) => ConnLeavesHand(w.s, conn);
    case Waitpid =>
  }

  lemma GateLeavesHand(s: State, t: Thread, e: GateEvent)
    requires GateEnabled(s, t, e) && Hand(s.accept).Some?
    ensures GateApply(s, t, e).accept == s.accept
  {
  }

  lemma ConnLeavesHand(s: State, e: ConnEvent)
    requires ConnEnabled(s, e)
    ensures ConnApply(s, e).accept == s.accept
  {
  }

  lemma DealingAt(ws: seq<World>, es: seq<Event>, k: nat, c: ClientId)
    requires IsRun(ws, es) && k < |es| && Dealing(ws[k].s.accept, c)
    ensures NearsDealing(ws[k].s, es[k].OfAccept?, ws[k + 1].s, ws[k + 1].log, c)
    ensures HandRank(ws[k].s.accept) > 0
  {
    SafeAlong(ws, es, k);
    assert Step(ws[k], es[k], ws[k + 1]);
    if es[k].OfAccept? {
      AcceptNearsDealing(ws[k].s, ws[k].log, es[k].accept, c);
    } else {
      OthersLeaveHand(ws[k], es[k], ws[k + 1], c);
    }
  }

  /** In any run, eleven steps of the accept thread at most deal with an accepted client: it is stored in the slot, or closed
      and the thread back at accept(2). */
  lemma AcceptedClientIsDealtWith(ws: seq<World>, es: seq<Event>, i: nat, j: nat, c: ClientId) returns (k: nat)
    requires IsRun(ws, es) && i <= j <= |es| && ws[i].s.accept == ATry(c)
    requires Runs.Count(es, (e: Event) => e.OfAccept?, i, j) >= 11
    ensures i <= k < j && es[k].OfAccept? && DealtWith(ws[k + 1].s, ws[k + 1].log, c)
  {
    var on, rank := (w: World) => Dealing(w.s.accept, c), (w: World) => HandRank(w.s.accept);
    forall k | i <= k < j && on(ws[k]) && on(ws[k + 1])
      ensures rank(ws[k + 1]) <= rank(ws[k]) && (es[k].OfAccept? ==> rank(ws[k + 1]) < rank(ws[k]))
    {
      DealingAt(ws, es, k, c);
    }
    k := Runs.Descends(ws, es, on, rank, (e: Event) => e.OfAccept?, i, j);
    DealingAt(ws, es, k, c);
  }

  /** And once it is stored, two more release the mutex and give the signal. */
  lemma StoreIsSignalled(s: State)
    requires BoxInv(s.accept, s.conn, s.box) && s.accept == AUnlock
    ensures AcceptEnabled(s, UnlockBox)
    ensures var s' := AcceptApply(s, UnlockBox);
            s'.box.owner == None && s'.box.slot == s.box.slot && s'.accept == ASignal && AcceptEnabled(s', Signal)
    ensures var s' := AcceptApply(AcceptApply(s, UnlockBox), Signal);
            s'.accept == AAccept && ConnThread !in s'.box.waiting
  {
  }

  /** The accept thread never waits for another thread, whatever that does with the mutex; what it waits for is a client to
      accept and a client to take the rejection. */
  lemma AcceptIsNotBlocked(s: State, c: ClientId)
    requires BoxInv(s.accept, s.conn, s.box) && !Stopped(s) && Dealing(s.accept, c)
    ensures exists e :: e != RejectFail && Enabled(s, OfAccept(e))
  {
    var e := match s.accept
      case ATry(_) => TryLock
      case AStore(_) => Store
      case ARead(_) => ReadSlot
      case AReject(_, n) => RejectWrite(1)
      case _ => CloseClient;
    assert AcceptEnabled(s, e);
    assert Enabled(s, OfAccept(e));
  }
}

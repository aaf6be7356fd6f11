/** The safety theorems of the server, for every reachable state of every run. */
module ServerSafety {
  import opened Streams
  import opened Server
  import opened ServerControl
  import opened ServerPlaces
  import opened ServerStreams
  import opened ServerReplies
  import Runs

  ghost predicate SafeState(s: State, l: Log) {
    && ControlInv(s)
    && ConserveInv(s, l)
    && StreamInv(s, l)
    && ReplyInv(s.accept, l, s.socks)
    && ApartInv(l)
  }

  ghost predicate ApartInv(l: Log) {
    forall c :: c in l.turnedAway ==> !Served(l.blocks, c)
  }

  /** A served client is in the slot, being closed, or closed. */
  lemma ServedPlace(s: State, l: Log, c: ClientId)
    requires StreamInv(s, l) && Served(l.blocks, c)
    ensures s.box.slot == Some(c) || Closing(s.conn) == Some(c) || c in l.closed
  {
    var i :| 0 <= i < |l.blocks| && l.blocks[i].client == c;
  }

  lemma HandIsUnserved(s: State, l: Log, c: ClientId)
    requires ConserveInv(s, l) && StreamInv(s, l) && Hand(s.accept) == Some(c)
    ensures !Served(l.blocks, c)
  {
    assert PlacesOf(s, l, c);
    CountPositive(l.closed, c);
    if Served(l.blocks, c) { ServedPlace(s, l, c); }
  }

  lemma AcceptKeepsApart(s: State, l: Log, e: AcceptEvent)
    requires ConserveInv(s, l) && StreamInv(s, l) && ApartInv(l) && AcceptEnabled(s, e)
    ensures ApartInv(ObserveAccept(l, s, e))
  {
    if e == TryLock { HandIsUnserved(s, l, s.accept.c); }
  }

  lemma PickupKeepsApart(s: State, l: Log)
    requires ConserveInv(s, l) && ReplyInv(s.accept, l, s.socks) && ApartInv(l) && ConnEnabled(s, Check)
    ensures ApartInv(ObserveConn(l, s, Check))
  {
    if s.box.slot.Some? {
      var d := s.box.slot.value;
      assert PlacesOf(s, l, d);
      CountPositive(l.closed, d);
      forall c | c in l.turnedAway ensures !Served(l.blocks + [Block(d, [], None)], c) {
        ServedGrows(l.blocks, Block(d, [], None), c);
      }
    }
  }

  lemma SameClients(blocks: seq<Block>, blocks': seq<Block>)
    requires |blocks| == |blocks'|
    requires forall i :: 0 <= i < |blocks| ==> blocks'[i].client == blocks[i].client
    ensures forall c :: Served(blocks', c) ==> Served(blocks, c)
  {
  }

  lemma ConnKeepsApart(s: State, l: Log, e: ConnEvent)
    requires ConserveInv(s, l) && ReplyInv(s.accept, l, s.socks) && ApartInv(l) && ConnEnabled(s, e)
    ensures ApartInv(ObserveConn(l, s, e))
  {
    if e == Check {
      PickupKeepsApart(s, l);
    } else {
      SameClients(l.blocks, ObserveConn(l, s, e).blocks);
    }
  }

  lemma EnvLeavesServer(s: State, e: EnvEvent)
    requires EnvEnabled(s, e)
    ensures
      var s' := EnvApply(s, e);
      && s'.accept == s.accept && s'.conn == s.conn && s'.childStdin == s.childStdin && s'.box.slot == s.box.slot
      && (forall c :: c in s.socks ==> c in s'.socks && ClientMoves(s.socks[c], s'.socks[c]))
      && (forall c :: c in s'.socks && c !in s.socks ==> s'.socks[c] == FRESH)
  {
  }

  lemma EnvKeepsSafe(s: State, l: Log, e: EnvEvent)
    requires SafeState(s, l) && EnvEnabled(s, e)
    ensures SafeState(EnvApply(s, e), l)
  {
    EnvLeavesServer(s, e);
    EnvKeepsControl(s, e);
    EnvKeepsConserve(s, l, e);
    EnvKeepsStream(s, l, e);
    EnvKeepsReplies(s, l, e);
  }

  lemma EnvKeepsStream(s: State, l: Log, e: EnvEvent)
    requires StreamInv(s, l) && EnvEnabled(s, e)
    ensures StreamInv(EnvApply(s, e), l)
  {
    EnvLeavesServer(s, e);
    FrameKeepsStream(s, l, EnvApply(s, e), l);
  }

  lemma EnvKeepsReplies(s: State, l: Log, e: EnvEvent)
    requires KnownInv(s.accept, s.conn, s.box.slot, s.backlog, s.socks) && ReplyInv(s.accept, l, s.socks)
    requires EnvEnabled(s, e)
    ensures ReplyInv(EnvApply(s, e).accept, l, EnvApply(s, e).socks)
  {
    EnvLeavesServer(s, e);
    FrameKeepsReplies(s.accept, s.accept, l, l, s.socks, EnvApply(s, e).socks);
  }

  lemma MainKeepsSafe(s: State, l: Log, e: MainEvent)
    requires SafeState(s, l) && MainEnabled(s, e)
    ensures SafeState(MainApply(s, e), l)
  {
    MainKeepsControl(s, e);
    MainKeepsConserve(s, l, e);
  }

  lemma GateKeepsSafe(s: State, l: Log, t: Thread, e: GateEvent)
    requires SafeState(s, l) && GateEnabled(s, t, e)
    ensures SafeState(GateApply(s, t, e), l)
  {
    GateKeepsControl(s, t, e);
    GateKeepsConserve(s, l, t, e);
    FrameKeepsReplies(s.accept, GateApply(s, t, e).accept, l, l, s.socks, s.socks);
  }

  lemma AcceptKeepsSafe(s: State, l: Log, e: AcceptEvent)
    requires SafeState(s, l) && AcceptEnabled(s, e)
    ensures SafeState(AcceptApply(s, e), ObserveAccept(l, s, e))
  {
    AcceptKeepsControl(s, e);
    AcceptKeepsConserve(s, l, e);
    AcceptKeepsReplies(s, l, e);
    AcceptKeepsApart(s, l, e);
    AcceptKeepsUp(s, l, e);
    FrameKeepsStream(s, l, AcceptApply(s, e), ObserveAccept(l, s, e));
  }

  lemma AcceptKeepsUp(s: State, l: Log, e: AcceptEvent)
    requires BoxInv(s.accept, s.conn, s.box) && AcceptEnabled(s, e)
    ensures
      var s', l' := AcceptApply(s, e), ObserveAccept(l, s, e);
      && s'.conn == s.conn && s'.childStdin == s.childStdin && l'.blocks == l.blocks && l.closed <= l'.closed
      && (InSession(s.conn) ==> s'.box.slot == s.box.slot)
      && s'.socks.Keys == s.socks.Keys
      && forall c :: c in s.socks ==> s'.socks[c].up == s.socks[c].up
  {
  }

  lemma ConnKeepsDown(s: State, l: Log, e: ConnEvent)
    requires ConnEnabled(s, e)
    ensures
      var s', l' := ConnApply(s, e), ObserveConn(l, s, e);
      && s'.accept == s.accept && l'.rejections == l.rejections && l'.turnedAway == l.turnedAway
      && l.closed <= l'.closed && s'.socks.Keys == s.socks.Keys
      && forall c :: c in s.socks ==> s'.socks[c].down.sent == s.socks[c].down.sent
  {
  }

  lemma ConnKeepsSafe(s: State, l: Log, e: ConnEvent)
    requires SafeState(s, l) && ConnEnabled(s, e)
    ensures SafeState(ConnApply(s, e), ObserveConn(l, s, e))
  {
    ConnKeepsControl(s, e);
    ConnKeepsConserve(s, l, e);
    ConnKeepsDown(s, l, e);
    ConnKeepsApart(s, l, e);
    if s.conn.CWrite? { WriterHasStdin(s); }
    ConnKeepsStream(s, l, e);
    FrameKeepsReplies(s.accept, s.accept, l, ObserveConn(l, s, e), s.socks, ConnApply(s, e).socks);
  }

  lemma WriterHasStdin(s: State)
    requires ControlInv(s) && s.conn.CWrite?
    ensures WritesToChild(s)
  {
  }

  ghost predicate Safe(w: World) {
    SafeState(w.s, w.log)
  }

  lemma StartIsSafe()
    ensures Safe(START)
  {
  }

  lemma StepKeepsSafe(w: World, e: Event, w': World)
    requires Safe(w) && Step(w, e, w')
    ensures Safe(w')
  {
    match e
    case OfEnv(env) => EnvKeepsSafe(w.s, w.log, env);
    case OfMain(main) => MainKeepsSafe(w.s, w.log, main);
    case OfGate(t, gate) => GateKeepsSafe(w.s, w.log, t, gate);
    case OfAccept(accept) => AcceptKeepsSafe(w.s, w.log, accept);
    case OfConn(conn) => ConnKeepsSafe(w.s, w.log, conn);
    case Waitpid => WaitpidKeepsSafe(w, w');
  }

  lemma WaitpidKeepsSafe(w: World, w': World)
    requires Safe(w) && Step(w, Waitpid, w')
    ensures Safe(w')
  {
    StepKeepsControl(w.s, Waitpid);
    forall c ensures PlacesOf(w'.s, w'.log, c) { assert PlacesOf(w.s, w.log, c); }
  }

  lemma SafeAlong(ws: seq<World>, es: seq<Event>, i: nat)
    requires IsRun(ws, es) && i <= |es|
    ensures Safe(ws[i])
  {
    StartIsSafe();
    forall w, e, w' | Safe(w) && Step(w, e, w') ensures Safe(w') {
      StepKeepsSafe(w, e, w');
    }
    Runs.HoldsAlong(START, Step, Safe, ws, es, i);
  }

  lemma SafeWhereReachable(w: World)
    requires Reachable(w)
    ensures Safe(w)
  {
    var ws, es :| IsRun(ws, es) && ws[|es|] == w;
    SafeAlong(ws, es, |es|);
  }

  // ---------------------------------------------------------------- theorems

  /** No interleaving: the child's stdin is one contiguous block per client that was picked up, in session order, each
      block a prefix of what that client wrote; clients turned away and clients displaced have no block. */
  lemma NoInterleaving(w: World)
    requires Reachable(w)
    ensures w.s.childStdin == Flatten(w.log.blocks)
    ensures Distinct(w.log.blocks)
    ensures forall i :: 0 <= i < |w.log.blocks| ==>
              var b := w.log.blocks[i];
              && b.client in w.s.socks && b.bytes <= w.s.socks[b.client].up.sent
              && (b.end == Some(EndEof) ==> b.bytes == w.s.socks[b.client].up.sent)
              && (b.end == Some(EndWriteFail) ==> b.bytes < w.s.socks[b.client].up.sent)
    ensures forall c :: c in w.log.turnedAway || c in w.log.displaced ==> !Served(w.log.blocks, c)
  {
    SafeWhereReachable(w);
    forall c | c in w.log.displaced ensures !Served(w.log.blocks, c) {
      DisplacedIsUnserved(w, c);
    }
  }

  lemma DisplacedIsUnserved(w: World, c: ClientId)
    requires Safe(w) && c in w.log.displaced
    ensures !Served(w.log.blocks, c)
  {
    assert PlacesOf(w.s, w.log, c);
    CountPositive(w.log.displaced, c);
    CountPositive(w.log.closed, c);
    if Served(w.log.blocks, c) { ServedPlace(w.s, w.log, c); }
  }

  /** Every accepted client has its descriptor in exactly one place, nobody else has one anywhere, and no descriptor is
      closed twice. */
  lemma OnePlaceEach(w: World)
    requires Reachable(w)
    ensures forall c ::
              Places(Hand(w.s.accept), w.s.box.slot, Closing(w.s.conn), w.log.closed, w.log.displaced, c)
              == if c in w.log.accepted then 1 else 0
    ensures forall i, j :: 0 <= i < j < |w.log.closed| ==> w.log.closed[i] != w.log.closed[j]
  {
    SafeWhereReachable(w);
    forall c
      ensures Places(Hand(w.s.accept), w.s.box.slot, Closing(w.s.conn), w.log.closed, w.log.displaced, c)
              == if c in w.log.accepted then 1 else 0
    {
      OnePlace(w.s, w.log, c);
    }
    ClosedOnce(w.s, w.log);
  }

  lemma OnePlace(s: State, l: Log, c: ClientId)
    requires ConserveInv(s, l)
    ensures Places(Hand(s.accept), s.box.slot, Closing(s.conn), l.closed, l.displaced, c)
            == if c in l.accepted then 1 else 0
  {
    assert PlacesOf(s, l, c);
    CountPositive(l.accepted, c);
  }

  lemma ClosedOnce(s: State, l: Log)
    requires ConserveInv(s, l)
    ensures forall i, j :: 0 <= i < j < |l.closed| ==> l.closed[i] != l.closed[j]
  {
    forall i, j | 0 <= i < j < |l.closed| ensures l.closed[i] != l.closed[j] {
      if l.closed[i] == l.closed[j] {
        RepeatedCounts(l.closed, i, j);
        OnePlace(s, l, l.closed[i]);
      }
    }
  }

  lemma RepeatedCounts(l: seq<ClientId>, i: nat, j: nat)
    requires i < j < |l| && l[i] == l[j]
    ensures Count(l, l[i]) >= 2
  {
    assert l == l[..j] + [l[j]] + l[j + 1..];
    assert l[..j] == l[..i] + [l[i]] + l[i + 1..j];
  }

  /** A client is sent bytes only if the server decided to reject it, and every such decision was taken while the
      connection thread owned the slot mutex with another client in the slot. */
  lemma RejectionIsJustified(w: World)
    requires Reachable(w)
    ensures forall i :: 0 <= i < |w.log.rejections| ==> Justified(w.log.rejections[i])
    ensures forall c :: c in w.s.socks && w.s.socks[c].down.sent != [] ==>
              Rejected(w.log.rejections, c) && w.s.socks[c].down.sent <= REJECT_MESSAGE && !Served(w.log.blocks, c)
  {
    SafeWhereReachable(w);
    forall c | Rejected(w.log.rejections, c) ensures !Served(w.log.blocks, c) {
      var i :| 0 <= i < |w.log.rejections| && w.log.rejections[i].client == c;
      assert c in w.log.turnedAway;
    }
  }

  /** No lost handoff wakeup, and no lost readiness wakeup. */
  lemma NoLostWakeup(w: World)
    requires Reachable(w)
    ensures ConnThread in w.s.box.waiting && w.s.box.slot.Some? ==> w.s.accept == AUnlock || w.s.accept == ASignal
    ensures w.s.main == MJoin || w.s.main == MCancelling ==> w.s.ready.condition && w.s.ready.waiting == {}
  {
    SafeWhereReachable(w);
  }

  /** No pointer is dereferenced before main stored through it, sessions write through the descriptor that leads to the
      child's stdin, the child-wait thread waits for the child, and no read is made on descriptor -1. */
  lemma NoFault(w: World)
    requires Reachable(w)
    ensures !w.s.fault
    ensures w.s.conn.CWrite? ==> WritesToChild(w.s)
    ensures w.s.wait == WWaitpid ==> WaitsForChild(w.s)
  {
    SafeWhereReachable(w);
  }
}

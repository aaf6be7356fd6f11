/** Concrete runs of the server, most of them runs in which it does not do what its own comments say. */
module ServerWitness {
  import opened Streams
  import opened Server
  import Child
  import Runs

  lemma Goes(w0: World, w: World, e: Event) returns (w': World)
    requires Solo(w0, w) && Enabled(w.s, e) && !AboutClients(e)
    ensures Solo(w0, w') && w' == World(Apply(w.s, e), Observe(w.log, w.s, e))
  {
    w' := World(Apply(w.s, e), Observe(w.log, w.s, e));
    Runs.StepIsReachable(w0, SoloStep, w, e, w');
  }

  lemma MainGoes(w0: World, w: World, e: MainEvent) returns (w': World)
    requires Solo(w0, w) && !Stopped(w.s) && MainEnabled(w.s, e)
    ensures Solo(w0, w') && w' == World(MainApply(w.s, e), w.log)
  {
    w' := Goes(w0, w, OfMain(e));
  }

  lemma EnvGoes(w0: World, w: World, e: EnvEvent) returns (w': World)
    requires Solo(w0, w) && EnvEnabled(w.s, e) && !e.Connect? && !e.Peer?
    ensures Solo(w0, w') && w' == World(EnvApply(w.s, e), w.log)
  {
    w' := Goes(w0, w, OfEnv(e));
  }

  lemma GateGoes(w0: World, w: World, t: Thread, e: GateEvent) returns (w': World)
    requires Solo(w0, w) && !Stopped(w.s) && GateEnabled(w.s, t, e)
    ensures Solo(w0, w') && w' == World(GateApply(w.s, t, e), w.log)
  {
    w' := Goes(w0, w, OfGate(t, e));
  }

  lemma AcceptGoes(w0: World, w: World, e: AcceptEvent) returns (w': World)
    requires Solo(w0, w) && !Stopped(w.s) && AcceptEnabled(w.s, e)
    ensures Solo(w0, w') && w' == World(AcceptApply(w.s, e), ObserveAccept(w.log, w.s, e))
  {
    w' := Goes(w0, w, OfAccept(e));
  }

  lemma ConnGoes(w0: World, w: World, e: ConnEvent) returns (w': World)
    requires Solo(w0, w) && !Stopped(w.s) && ConnEnabled(w.s, e)
    ensures Solo(w0, w') && w' == World(ConnApply(w.s, e), ObserveConn(w.log, w.s, e))
  {
    w' := Goes(w0, w, OfConn(e));
  }

  lemma Connects(w: World, c: ClientId) returns (w': World)
    requires Reachable(w) && c !in w.s.socks
    ensures Reachable(w') && w' == World(EnvApply(w.s, Connect(c)), w.log)
  {
    w' := World(EnvApply(w.s, Connect(c)), w.log);
    Runs.StepIsReachable(START, Step, w, OfEnv(Connect(c)), w');
  }

  lemma SoloIsReachable(w: World, w': World)
    requires Reachable(w) && Solo(w, w')
    ensures Reachable(w')
  {
    Runs.ReachOn(START, Step, w, SoloStep, w');
  }

  /** Main up to its join, the child running, the accept thread through the gate, nobody connected yet. */
  const OPEN := INIT.(
    main := MJoin, accept := AAccept, ready := Ready(None, true, {}),
    forked := Some(Fork(2, 4)), childPid := Some(2), childStdinFd := Some(4), child := Child.Process(Child.InProgram, 0, [], true))

  /** Main ready to read the reporting pipe. */
  lemma ForkedIsReachable() returns (w: World)
    ensures Solo(START, w) && w.log == NO_LOG
    ensures w.s == INIT.(main := MReadReport, forked := Some(Fork(2, 4)), childPid := Some(2), childStdinFd := Some(4),
                         child := Child.Process(Child.AtDup2, 0, [], false))
  {
    Runs.StartIsReachable(START, SoloStep);
    w := MainGoes(START, START, ForkOk(2, 4));
    w := MainGoes(START, w, StorePid);
    w := MainGoes(START, w, StoreStdin);
  }

  lemma ChildStep(w0: World, w: World, e: Child.Event) returns (w': World)
    requires Solo(w0, w) && Child.Enabled(w.s.child, e)
    ensures Solo(w0, w') && w' == w.(s := w.s.(child := Child.Apply(w.s.child, e)))
  {
    w' := EnvGoes(w0, w, ChildGoes(e));
  }

  lemma ChildExecutes(w0: World, w: World) returns (w': World)
    requires Solo(w0, w) && w.s.child == Child.Process(Child.AtDup2, 0, [], false)
    ensures Solo(w0, w') && w' == w.(s := w.s.(child := Child.Process(Child.InProgram, 0, [], true)))
  {
    w' := ChildStep(w0, w, Child.Dup2Ok);
    w' := ChildStep(w0, w', Child.CloseStdin(0));
    w' := ChildStep(w0, w', Child.ExecOk);
  }

  /** The child's execve fails, and so does the write of the record. */
  lemma ChildFailsSilently(w0: World, w: World, errno: int) returns (w': World)
    requires Solo(w0, w) && w.s.child == Child.Process(Child.AtDup2, 0, [], false) && errno != 0
    ensures Solo(w0, w') && w' == w.(s := w.s.(child := Child.Process(Child.AtExit, 5, [], true)))
  {
    w' := ChildStep(w0, w, Child.Dup2Ok);
    w' := ChildStep(w0, w', Child.CloseStdin(0));
    w' := ChildStep(w0, w', Child.ExecFails(errno));
    w' := ChildStep(w0, w', Child.FillRecord);
    w' := ChildStep(w0, w', Child.WriteFails(5));
    w' := ChildStep(w0, w', Child.CloseReport);
  }

  lemma MainOpensGate(w0: World, w: World) returns (w': World)
    requires Solo(w0, w) && w.s.main == MReadReport && w.s.child.report == [] && w.s.child.shut
    requires w.s.ready.owner == None
    ensures Solo(w0, w')
    ensures w' == w.(s := w.s.(main := MUnlock, ready := w.s.ready.(owner := Some(MainThread), condition := true)))
  {
    w' := MainGoes(w0, w, ReportEof);
    w' := MainGoes(w0, w', LockReady);
    w' := MainGoes(w0, w', SetReady);
  }

  lemma OpenIsReachable()
    ensures Solo(START, World(OPEN, NO_LOG))
  {
    var w := ForkedIsReachable();
    w := ChildExecutes(START, w);
    w := MainOpensGate(START, w);
    w := MainGoes(START, w, UnlockReady);
    w := MainGoes(START, w, Broadcast);
    w := GateGoes(START, w, AcceptThread, GateLock);
    w := GateGoes(START, w, AcceptThread, GateCheck);
    w := GateGoes(START, w, AcceptThread, GateUnlock);
    assert w.s == OPEN;
  }

  /** server.c:934-937 takes end-of-file for a successful execve. A child whose execve fails and whose record cannot be
      written gives the same end-of-file: the gate opens while the child, having executed nothing, is about to exit. */
  lemma GateOpensWithoutProgram() returns (w: World)
    ensures Reachable(w) && w.s.ready.condition && w.s.child.pc == Child.AtExit
  {
    w := ForkedIsReachable();
    w := ChildFailsSilently(START, w, 2);
    w := MainOpensGate(START, w);
    StartThenSolo(w);
  }

  lemma StartThenSolo(w: World)
    requires Solo(START, w)
    ensures Reachable(w)
  {
    Runs.StartIsReachable(START, Step);
    SoloIsReachable(START, w);
  }

  lemma HandedOver(w0: World, w: World, c: ClientId) returns (w': World)
    requires Solo(w0, w) && !Stopped(w.s) && w.s.accept == AAccept && w.s.backlog != [] && w.s.backlog[0] == c
    requires w.s.box.owner == None
    ensures Solo(w0, w')
    ensures w'.s == w.s.(accept := AAccept, backlog := w.s.backlog[1..],
                         box := Mailbox(None, Some(c), w.s.box.waiting - {ConnThread}))
    ensures w'.log == w.log.(accepted := w.log.accepted + [c],
                             displaced := if w.s.box.slot == None then w.log.displaced
                                          else w.log.displaced + [w.s.box.slot.value])
  {
    w' := AcceptGoes(w0, w, AcceptOk);
    w' := AcceptGoes(w0, w', TryLock);
    w' := AcceptGoes(w0, w', Store);
    w' := AcceptGoes(w0, w', UnlockBox);
    w' := AcceptGoes(w0, w', Signal);
  }

  /** server.c:803 takes a successful trylock to mean that the connection thread waits for a client. It may not have
      got that far: a client stored but not picked up is then overwritten by the next one. It is never served, told, or
      closed. */
  lemma StoredClientIsDisplaced() returns (w: World)
    ensures Reachable(w) && w.log.accepted == [1, 2] && w.log.displaced == [1] && w.s.box.slot == Some(2)
    ensures w.log.blocks == [] && w.log.closed == [] && w.s.socks == map[1 := FRESH, 2 := FRESH]
  {
    OpenIsReachable();
    StartThenSolo(World(OPEN, NO_LOG));
    w := Connects(World(OPEN, NO_LOG), 1);
    w := Connects(w, 2);
    var w2 := BothHandedOver(w);
    SoloIsReachable(w, w2);
    w := w2;
  }

  lemma BothHandedOver(w: World) returns (w': World)
    requires w.s == OPEN.(backlog := [1, 2], socks := w.s.socks) && w.log == NO_LOG
    ensures Solo(w, w') && w'.s == OPEN.(box := Mailbox(None, Some(2), {}), socks := w.s.socks)
    ensures w'.log == NO_LOG.(accepted := [1, 2], displaced := [1])
  {
    Runs.StartIsReachable(w, SoloStep);
    w' := HandedOver(w, w, 1);
    w' := HandedOver(w, w', 2);
  }

  /** server.c:820-822 says it tries again when the slot turns out empty. It does not: the client is closed with nothing
      sent to it, although no other client ever connected. */
  lemma LoneClientIsDropped() returns (w: World)
    ensures Reachable(w) && w.s.socks.Keys == {1} && w.log.accepted == [1] && w.log.closed == [1]
    ensures w.log.blocks == [] && w.log.rejections == [] && w.s.socks[1].down == Pipe([], 0, true)
  {
    OpenIsReachable();
    StartThenSolo(World(OPEN, NO_LOG));
    var w1 := Connects(World(OPEN, NO_LOG), 1);
    Runs.StartIsReachable(w1, SoloStep);
    w := ConnGoes(w1, w1, Lock);
    w := AcceptGoes(w1, w, AcceptOk);
    w := AcceptGoes(w1, w, TryLock);
    w := AcceptGoes(w1, w, ReadSlot);
    w := AcceptGoes(w1, w, CloseClient);
    SoloIsReachable(w1, w);
  }

  /** Client 1 is handed over and about to be picked up; client 2 is accepted meanwhile and to be rejected. */
  lemma RejectionIsDecided(w: World) returns (w': World)
    requires w.s == OPEN.(backlog := [1, 2], socks := w.s.socks) && w.log == NO_LOG && 1 in w.s.socks && 2 in w.s.socks
    ensures Solo(w, w')
    ensures w'.s == OPEN.(accept := AReject(2, 0), conn := CCheck, box := Mailbox(Some(ConnThread), Some(1), {}),
                          socks := w.s.socks)
    ensures w'.log == NO_LOG.(accepted := [1, 2], turnedAway := [2],
                              rejections := [Rejection(2, 1, Some(ConnThread), CCheck)])
  {
    Runs.StartIsReachable(w, SoloStep);
    w' := HandedOver(w, w, 1);
    w' := ConnGoes(w, w', Lock);
    w' := AcceptGoes(w, w', AcceptOk);
    w' := AcceptGoes(w, w', TryLock);
    w' := AcceptGoes(w, w', ReadSlot);
  }

  /** A client is sent the whole rejection and closed. */
  lemma RejectionIsSent(w: World) returns (w': World)
    requires w.s == OPEN.(backlog := [1, 2], socks := map[1 := FRESH, 2 := FRESH]) && w.log == NO_LOG
    ensures Solo(w, w') && w'.log.closed == [2]
    ensures w'.s.socks == map[1 := FRESH, 2 := FRESH.(down := Pipe(REJECT_MESSAGE, 0, true))]
  {
    w' := RejectionIsDecided(w);
    w' := AcceptGoes(w, w', RejectWrite(8));
    w' := AcceptGoes(w, w', CloseClient);
    assert [] + REJECT_MESSAGE[0..8] == REJECT_MESSAGE;
  }

  /** A rejection that is decided need not be sent: the first write of it fails, and the client is closed with nothing. */
  lemma RejectedClientIsDropped() returns (w: World)
    ensures Reachable(w) && w.log.closed == [2] && w.log.turnedAway == [2] && |w.log.rejections| == 1
    ensures 2 in w.s.socks && w.s.socks[2].down == Pipe([], 0, true)
  {
    OpenIsReachable();
    StartThenSolo(World(OPEN, NO_LOG));
    var w0 := Connects(World(OPEN, NO_LOG), 1);
    w0 := Connects(w0, 2);
    w := RejectionIsDecided(w0);
    w := AcceptGoes(w0, w, RejectFail);
    w := AcceptGoes(w0, w, CloseClient);
    SoloIsReachable(w0, w);
  }

  /** A client that wrote one byte and closed its end is served to the end of its stream. */
  lemma ByteIsServed(w: World, b: byte) returns (w': World)
    requires w.s == OPEN.(backlog := [1], socks := map[1 := Socket(Pipe([b], 0, true), Pipe([], 0, false))])
    requires w.log == NO_LOG
    ensures Solo(w, w') && w'.log.blocks == [Block(1, [b], Some(EndEof))] && w'.s.childStdin == [b]
    ensures w'.s.socks == map[1 := Socket(Pipe([b], 1, true), Pipe([], 0, false))]
  {
    w' := ByteIsTaken(w, b);
    w' := ConnGoes(w, w', Write(1));
    assert [] + [b][0..1] == [b];
    assert w'.log.blocks == [Block(1, [b], None)];
    w' := ConnGoes(w, w', ReadEof);
    assert [b] + [] == [b];
  }

  lemma ByteIsTaken(w: World, b: byte) returns (w': World)
    requires w.s == OPEN.(backlog := [1], socks := map[1 := Socket(Pipe([b], 0, true), Pipe([], 0, false))])
    requires w.log == NO_LOG
    ensures Solo(w, w') && !Stopped(w'.s) && w'.log.blocks == [Block(1, [], None)]
    ensures w'.s.conn == CWrite([b], 0) && w'.s.box.slot == Some(1) && w'.s.childStdin == [] && WritesToChild(w'.s)
    ensures w'.s.socks == map[1 := Socket(Pipe([b], 1, true), Pipe([], 0, false))]
  {
    Runs.StartIsReachable(w, SoloStep);
    w' := HandedOver(w, w, 1);
    w' := ConnGoes(w, w', Lock);
    w' := ConnGoes(w, w', Check);
    w' := ConnGoes(w, w', Read(1));
    assert [b][0..1] == [b];
  }

  /** The program ends and the server gets to return SUCCESS. */
  lemma ServerSucceeds() returns (w: World)
    ensures Reachable(w) && w.s.main == MCancelling && w.s.child.pc == Child.Gone
  {
    OpenIsReachable();
    w := GateGoes(START, World(OPEN, NO_LOG), WaitThread, GateLock);
    w := GateGoes(START, w, WaitThread, GateCheck);
    w := GateGoes(START, w, WaitThread, GateUnlock);
    w := ChildStep(START, w, Child.ProgramEnds);
    w := Goes(START, w, Waitpid);
    w := MainGoes(START, w, JoinWait);
    StartThenSolo(w);
  }
}

/** What every step of the server keeps: who owns which mutex, where each thread may be, and what has been stored. */
module ServerControl {
  import opened Streams
  import opened Server
  import Child

  predicate AcceptOwnsBox(accept: AcceptPc) {
    accept.AStore? || accept == AUnlock
  }

  predicate InSession(conn: ConnPc) {
    conn == CRead || conn.CWrite? || conn.CClean?
  }

  predicate ConnOwnsBox(conn: ConnPc) {
    conn == CCheck || conn == CWait || InSession(conn) || conn.CUnlock?
  }

  /** Mailbox mutex, slot and condition variable. */
  predicate BoxInv(accept: AcceptPc, conn: ConnPc, box: Mailbox) {
    && (AcceptOwnsBox(accept) <==> box.owner == Some(AcceptThread))
    && (ConnOwnsBox(conn) <==> box.owner == Some(ConnThread))
    && (box.owner == None || box.owner == Some(AcceptThread) || box.owner == Some(ConnThread))
    && box.waiting <= {ConnThread}
    && (ConnThread in box.waiting ==> conn == CBlocked)
    && (InSession(conn) ==> box.slot.Some?)
    && (conn == CWait || conn.CUnlock? ==> box.slot == None)
    // a connection thread that nothing woke, with a client stored, has its signal still to come
    && (ConnThread in box.waiting && box.slot.Some? ==> accept == AUnlock || accept == ASignal)
    // the slot read after a failed trylock
    && (accept.ARead? && box.slot.Some? ==> ConnOwnsBox(conn))
    && (accept == AUnlock ==> box.slot.Some?)
    && (box.slot.Some? ==> !accept.AGate?)
    && (conn.CWrite? ==> conn.n < |conn.buffer|)
    && (accept.AReject? ==> accept.n < |REJECT_MESSAGE|)
  }

  predicate MainHoldsReady(main: MainPc) {
    main == MSet || main == MUnlock
  }

  predicate PastEof(main: MainPc) {
    main == MLock || MainHoldsReady(main) || main == MBroadcast || main == MJoin || main == MCancelling
  }

  /** A thread that may still be inside the gate, against the mutex, the condition and the waiting set. */
  predicate GateInv(g: Option<GatePc>, t: Thread, ready: Ready) {
    && (g == Some(GCheck) || g == Some(GWait) || g == Some(GUnlock) <==> ready.owner == Some(t))
    && (t in ready.waiting ==> g == Some(GBlocked))
    && (g == Some(GWait) ==> !ready.condition)
    && (g == Some(GUnlock) ==> ready.condition)
    && (g == None ==> ready.condition)
  }

  /** Child-ready mutex, condition and condition variable. */
  predicate ReadyInv(main: MainPc, accept: Option<GatePc>, wait: Option<GatePc>, ready: Ready) {
    && GateInv(accept, AcceptThread, ready)
    && GateInv(wait, WaitThread, ready)
    && (MainHoldsReady(main) <==> ready.owner == Some(MainThread))
    && ready.owner != Some(ConnThread)
    && ready.waiting <= {AcceptThread, WaitThread}
    && (ready.condition <==> PastEof(main) && main != MLock && main != MSet)
    && (ready.condition && ready.waiting != {} ==> main == MUnlock || main == MBroadcast)
  }

  /** The stores that main makes before it reads the reporting pipe, and what end-of-file on that pipe means. */
  predicate SetupInv(main: MainPc, forked: Option<Fork>, childPid: Option<nat>, childStdinFd: Option<nat>,
                     child: Child.Process)
  {
    && (main == MFork ==> forked == None)
    && (main.MStorePid? ==> forked == Some(Fork(main.pid, main.fd)))
    && (main.MStoreStdin? ==> forked.Some? && forked.value.fd == main.fd)
    && (childPid.Some? ==> forked.Some? && childPid.value == forked.value.pid)
    && (childStdinFd.Some? ==> forked.Some? && childStdinFd.value == forked.value.fd)
    && (main.MStoreStdin? || main == MReadReport || PastEof(main) ==> childPid.Some?)
    && (main == MReadReport || PastEof(main) ==> childStdinFd.Some?)
    && (main == MFork ==> child == INIT.child)
    && (main != MFork && main != MFailed ==> child.pc != Child.NotForked)
    && Child.ShutInv(child)
    && (PastEof(main) ==> child.shut && child.report == [])
  }

  predicate WaitInv(main: MainPc, wait: WaitPc, pc: Child.Pc) {
    && (wait == WDone ==> pc == Child.Gone)
    && (main == MCancelling ==> wait == WDone)
  }

  /** Every client that the server has a descriptor for is connected. */
  ghost predicate KnownInv(accept: AcceptPc, conn: ConnPc, slot: Option<ClientId>, backlog: seq<ClientId>,
                           socks: map<ClientId, Socket>)
  {
    && (slot.Some? ==> slot.value in socks)
    && (conn.CUnlock? || conn.CClose? ==> conn.c in socks)
    && (accept.ATry? || accept.AStore? || accept.ARead? || accept.AReject? || accept.AClose? ==> accept.c in socks)
    && (forall c :: c in backlog ==> c in socks)
  }

  ghost predicate ControlInv(s: State) {
    && BoxInv(s.accept, s.conn, s.box)
    && ReadyInv(s.main, AcceptGate(s.accept), WaitGate(s.wait), s.ready)
    && SetupInv(s.main, s.forked, s.childPid, s.childStdinFd, s.child)
    && WaitInv(s.main, s.wait, s.child.pc)
    && KnownInv(s.accept, s.conn, s.box.slot, s.backlog, s.socks)
    && !s.fault
  }

  lemma EnvKeepsControl(s: State, e: EnvEvent)
    requires ControlInv(s) && EnvEnabled(s, e)
    ensures ControlInv(EnvApply(s, e))
  {
    match e
    case Connect(c) =>
    case Peer(c, sock) =>
    case SpuriousReady(t) =>
    case SpuriousBox(t) =>
    case ChildGoes(e) => ChildKeepsSetup(s.main, s.wait, s.forked, s.childPid, s.childStdinFd, s.child, e);
  }

  lemma ChildKeepsSetup(main: MainPc, wait: WaitPc, forked: Option<Fork>, childPid: Option<nat>, childStdinFd: Option<nat>,
                        child: Child.Process, e: Child.Event)
    requires SetupInv(main, forked, childPid, childStdinFd, child) && WaitInv(main, wait, child.pc) && Child.Enabled(child, e)
    ensures var child' := Child.Apply(child, e);
            SetupInv(main, forked, childPid, childStdinFd, child') && WaitInv(main, wait, child'.pc)
  {
  }

  lemma MainKeepsControl(s: State, e: MainEvent)
    requires ControlInv(s) && MainEnabled(s, e)
    ensures ControlInv(MainApply(s, e))
  {
  }

  lemma GateKeepsControl(s: State, t: Thread, e: GateEvent)
    requires ControlInv(s) && GateEnabled(s, t, e)
    ensures ControlInv(GateApply(s, t, e))
  {
  }

  lemma AcceptKeepsControl(s: State, e: AcceptEvent)
    requires ControlInv(s) && AcceptEnabled(s, e)
    ensures ControlInv(AcceptApply(s, e))
  {
  }

  lemma ConnKeepsBox(s: State, e: ConnEvent)
    requires BoxInv(s.accept, s.conn, s.box) && ConnEnabled(s, e)
    ensures var s' := ConnApply(s, e); BoxInv(s'.accept, s'.conn, s'.box)
  {
  }

  lemma ConnKeepsControl(s: State, e: ConnEvent)
    requires ControlInv(s) && ConnEnabled(s, e)
    ensures ControlInv(ConnApply(s, e))
  {
    ConnKeepsBox(s, e);
  }

  lemma StepKeepsControl(s: State, e: Event)
    requires ControlInv(s) && Enabled(s, e)
    ensures ControlInv(Apply(s, e))
  {
    match e
    case OfEnv(env) => EnvKeepsControl(s, env);
    case OfMain(main) => MainKeepsControl(s, main);
    case OfGate(t, gate) => GateKeepsControl(s, t, gate);
    case OfAccept(accept) => AcceptKeepsControl(s, accept);
    case OfConn(conn) => ConnKeepsControl(s, conn);
    case Waitpid =>
  }
}

/** In which order things happen in a run, across the two mutexes. */
module ServerOrder {
  import opened Streams
  import opened Server
  import opened ServerControl
  import opened ServerSafety
  import Child
  import Runs

  // What makes each of these true is one event only.

  lemma SessionNeedsCheck(w: World, e: Event, w': World)
    requires Step(w, e, w') && !InSession(w.s.conn) && InSession(w'.s.conn)
    ensures e == OfConn(Check) && w.s.box.slot.Some?
  {
    match e
    case OfEnv(env) =>
    case OfMain(main) =>
    case OfGate(t, gate) => GateLeavesConn(w.s, t, gate);
    case OfAccept(accept) => AcceptLeavesConn(w.s, accept);
    case OfConn(conn) => ConnNeedsCheck(w.s, conn);
    case Waitpid =>
  }

  lemma GateLeavesConn(s: State, t: Thread, e: GateEvent)
    requires GateEnabled(s, t, e)
    ensures GateApply(s, t, e).conn == s.conn
  {
  }

  lemma AcceptLeavesConn(s: State, e: AcceptEvent)
    requires AcceptEnabled(s, e)
    ensures AcceptApply(s, e).conn == s.conn
  {
  }

  lemma ConnNeedsCheck(s: State, e: ConnEvent)
    requires ConnEnabled(s, e) && !InSession(s.conn) && InSession(ConnApply(s, e).conn)
    ensures e == Check && s.box.slot.Some?
  {
  }

  lemma SlotNeedsStore(w: World, e: Event, w': World)
    requires Step(w, e, w') && w.s.box.slot == None && w'.s.box.slot.Some?
    ensures e == OfAccept(Store)
  {
  }

  lemma ConditionNeedsSet(w: World, e: Event, w': World)
    requires Step(w, e, w') && !w.s.ready.condition && w'.s.ready.condition
    ensures e == OfMain(SetReady)
  {
  }

  lemma StdinNeedsStore(w: World, e: Event, w': World)
    requires Step(w, e, w') && w.s.childStdinFd == None && w'.s.childStdinFd.Some?
    ensures e == OfMain(StoreStdin)
  {
  }

  lemma PidNeedsStore(w: World, e: Event, w': World)
    requires Step(w, e, w') && w.s.childPid == None && w'.s.childPid.Some?
    ensures e == OfMain(StorePid)
  {
  }

  lemma DoneNeedsWaitpid(w: World, e: Event, w': World)
    requires Step(w, e, w') && w.s.wait != WDone && w'.s.wait == WDone
    ensures e == Waitpid && w.s.wait == WWaitpid
  {
  }

  lemma PastGateNeedsUnlock(w: World, e: Event, w': World)
    requires Step(w, e, w') && w.s.wait.WGate? && !w'.s.wait.WGate?
    ensures e == OfGate(WaitThread, GateUnlock)
  {
    match e
    case OfEnv(env) =>
    case OfMain(main) =>
    case OfGate(t, gate) => GateNeedsUnlock(w.s, t, gate);
    case OfAccept(accept) => AcceptLeavesWait(w.s, accept);
    case OfConn(conn) => ConnLeavesWait(w.s, conn);
    case Waitpid =>
  }

  lemma GateNeedsUnlock(s: State, t: Thread, e: GateEvent)
    requires GateEnabled(s, t, e) && s.wait.WGate? && !GateApply(s, t, e).wait.WGate?
    ensures t == WaitThread && e == GateUnlock
  {
  }

  lemma AcceptLeavesWait(s: State, e: AcceptEvent)
    requires AcceptEnabled(s, e)
    ensures AcceptApply(s, e).wait == s.wait
  {
  }

  lemma ConnLeavesWait(s: State, e: ConnEvent)
    requires ConnEnabled(s, e)
    ensures ConnApply(s, e).wait == s.wait
  {
  }

  lemma ForkNeedsForkOk(w: World, e: Event, w': World)
    requires Step(w, e, w') && w.s.forked != w'.s.forked
    ensures e.OfMain? && e.main.ForkOk? && w'.s.forked == Some(Fork(e.main.pid, e.main.fd))
  {
    match e
    case OfEnv(env) =>
    case OfMain(main) =>
    case OfGate(t, gate) => GateLeavesFork(w.s, t, gate);
    case OfAccept(accept) => AcceptLeavesFork(w.s, accept);
    case OfConn(conn) => ConnLeavesFork(w.s, conn);
    case Waitpid =>
  }

  lemma GateLeavesFork(s: State, t: Thread, e: GateEvent)
    requires GateEnabled(s, t, e)
    ensures GateApply(s, t, e).forked == s.forked
  {
  }

  lemma AcceptLeavesFork(s: State, e: AcceptEvent)
    requires AcceptEnabled(s, e)
    ensures AcceptApply(s, e).forked == s.forked
  {
  }

  lemma ConnLeavesFork(s: State, e: ConnEvent)
    requires ConnEnabled(s, e)
    ensures ConnApply(s, e).forked == s.forked
  {
  }

  lemma ForkIsKnown(w: World)
    requires Safe(w)
    ensures w.s.childPid.Some? ==> w.s.forked.Some? && w.s.childPid == Some(w.s.forked.value.pid)
    ensures w.s.childStdinFd.Some? ==> w.s.forked.Some? && w.s.childStdinFd == Some(w.s.forked.value.fd)
  {
  }

  /** What main publishes is what fork(2) returned and the pipe it made, each through its own pointer. */
  lemma PublishedIsForked(ws: seq<World>, es: seq<Event>, n: nat) returns (z: nat)
    requires IsRun(ws, es) && n <= |es| && (ws[n].s.childPid.Some? || ws[n].s.childStdinFd.Some?)
    ensures z < n && es[z].OfMain? && es[z].main.ForkOk?
    ensures ws[n].s.childPid.Some? ==> ws[n].s.childPid == Some(es[z].main.pid)
    ensures ws[n].s.childStdinFd.Some? ==> ws[n].s.childStdinFd == Some(es[z].main.fd)
  {
    SafeAlong(ws, es, n);
    ForkIsKnown(ws[n]);
    var fork := ws[n].s.forked;
    z := Runs.MadeTrue(START, Step, (w: World) => w.s.forked == fork, ws, es, n);
    ForkNeedsForkOk(ws[z], es[z], ws[z + 1]);
  }

  /** The connection thread writes to the child only after a pickup, after a store into the slot, after the ready
      condition was set, after main stored the descriptor it writes to, which is the one that came with the fork. */
  lemma WriteIsOrdered(ws: seq<World>, es: seq<Event>, i: nat) returns (z: nat, a: nat, b: nat, c: nat, d: nat)
    requires IsRun(ws, es) && i < |es| && es[i].OfConn? && (es[i].conn.Write? || es[i].conn == WriteFail)
    ensures z < a < b < c < d < i
    ensures es[z].OfMain? && es[z].main.ForkOk? && ws[i].s.childStdinFd == Some(es[z].main.fd)
    ensures es[a] == OfMain(StoreStdin) && es[b] == OfMain(SetReady)
    ensures es[c] == OfAccept(Store) && es[d] == OfConn(Check)
  {
    assert Step(ws[i], es[i], ws[i + 1]);
    d := Runs.MadeTrue(START, Step, (w: World) => InSession(w.s.conn), ws, es, i);
    SessionNeedsCheck(ws[d], es[d], ws[d + 1]);
    c := Runs.MadeTrue(START, Step, (w: World) => w.s.box.slot.Some?, ws, es, d);
    SlotNeedsStore(ws[c], es[c], ws[c + 1]);
    SafeAlong(ws, es, c);
    b := Runs.MadeTrue(START, Step, (w: World) => w.s.ready.condition, ws, es, c);
    ConditionNeedsSet(ws[b], es[b], ws[b + 1]);
    SafeAlong(ws, es, b);
    a := Runs.MadeTrue(START, Step, (w: World) => w.s.childStdinFd.Some?, ws, es, b);
    StdinNeedsStore(ws[a], es[a], ws[a + 1]);
    SafeAlong(ws, es, a);
    WriterHasDescriptor(ws, es, i);
    z := PublishedIsForked(ws, es, i);
    ForkIsFirst(ws, es, z, a, i);
  }

  lemma WriterHasDescriptor(ws: seq<World>, es: seq<Event>, i: nat)
    requires IsRun(ws, es) && i < |es| && es[i].OfConn? && (es[i].conn.Write? || es[i].conn == WriteFail)
    ensures ws[i].s.childStdinFd.Some?
  {
    SafeAlong(ws, es, i);
    assert Step(ws[i], es[i], ws[i + 1]);
  }

  /** Main forks once, before it stores anything. */
  lemma ForkIsFirst(ws: seq<World>, es: seq<Event>, z: nat, a: nat, n: nat)
    requires IsRun(ws, es) && z < n <= |es| && a < n && es[z].OfMain? && es[z].main.ForkOk?
    requires es[a] == OfMain(StorePid) || es[a] == OfMain(StoreStdin)
    ensures z < a
  {
    assert Step(ws[z], es[z], ws[z + 1]) && Step(ws[a], es[a], ws[a + 1]);
    if a <= z {
      PastFork(ws, es, a, z);
    }
  }

  lemma {:induction false} PastFork(ws: seq<World>, es: seq<Event>, i: nat, j: nat)
    requires IsRun(ws, es) && i <= j <= |es| && ws[i].s.main != MFork
    ensures ws[j].s.main != MFork
    decreases j - i
  {
    if i < j {
      assert Step(ws[i], es[i], ws[i + 1]);
      ForkIsNotRepeated(ws[i], es[i], ws[i + 1]);
      PastFork(ws, es, i + 1, j);
    }
  }

  lemma ForkIsNotRepeated(w: World, e: Event, w': World)
    requires Step(w, e, w') && w.s.main != MFork
    ensures w'.s.main != MFork
  {
    match e
    case OfEnv(env) =>
    case OfMain(main) =>
    case OfGate(t, gate) => GateLeavesMain(w.s, t, gate);
    case OfAccept(accept) => AcceptLeavesMain(w.s, accept);
    case OfConn(conn) => ConnLeavesMain(w.s, conn);
    case Waitpid =>
  }

  lemma GateLeavesMain(s: State, t: Thread, e: GateEvent)
    requires GateEnabled(s, t, e)
    ensures GateApply(s, t, e).main == s.main
  {
  }

  lemma AcceptLeavesMain(s: State, e: AcceptEvent)
    requires AcceptEnabled(s, e)
    ensures AcceptApply(s, e).main == s.main
  {
  }

  lemma ConnLeavesMain(s: State, e: ConnEvent)
    requires ConnEnabled(s, e)
    ensures ConnApply(s, e).main == s.main
  {
  }

  /** The child-wait thread uses the stored pid, which is the one that fork(2) returned, only after main stored it and set
      the ready condition, and the server commits to SUCCESS only after that wait is over. */
  lemma WaitIsOrdered(ws: seq<World>, es: seq<Event>, i: nat) returns (z: nat, a: nat, b: nat, c: nat, d: nat)
    requires IsRun(ws, es) && i <= |es| && ws[i].s.main == MCancelling
    ensures z < a < b < c < d < i
    ensures es[z].OfMain? && es[z].main.ForkOk? && ws[d].s.childPid == Some(es[z].main.pid)
    ensures es[a] == OfMain(StorePid) && es[b] == OfMain(SetReady)
    ensures es[c] == OfGate(WaitThread, GateUnlock) && es[d] == Waitpid
    ensures ws[d].s.child.pc == ws[i].s.child.pc == Child.Gone
  {
    SafeAlong(ws, es, i);
    d := Runs.MadeTrue(START, Step, (w: World) => w.s.wait == WDone, ws, es, i);
    DoneNeedsWaitpid(ws[d], es[d], ws[d + 1]);
    c := Runs.MadeTrue(START, Step, (w: World) => !w.s.wait.WGate?, ws, es, d);
    PastGateNeedsUnlock(ws[c], es[c], ws[c + 1]);
    SafeAlong(ws, es, c);
    b := Runs.MadeTrue(START, Step, (w: World) => w.s.ready.condition, ws, es, c);
    ConditionNeedsSet(ws[b], es[b], ws[b + 1]);
    SafeAlong(ws, es, b);
    a := Runs.MadeTrue(START, Step, (w: World) => w.s.childPid.Some?, ws, es, b);
    PidNeedsStore(ws[a], es[a], ws[a + 1]);
    WaiterHasPid(ws, es, d);
    z := PublishedIsForked(ws, es, d);
    ForkIsFirst(ws, es, z, a, d);
  }

  lemma WaiterHasPid(ws: seq<World>, es: seq<Event>, d: nat)
    requires IsRun(ws, es) && d < |es| && es[d] == Waitpid
    ensures ws[d].s.childPid.Some? && ws[d].s.child.pc == Child.Gone
  {
    SafeAlong(ws, es, d);
    assert Step(ws[d], es[d], ws[d + 1]);
  }
}

/** What the client's threads come to while nothing is cancelled: the mutex is given back, a decision is posted, main sleeps
    until there is one, and a thread that cannot be created ends it all. */
module ClientProgress {
  import opened Streams
  import opened Client
  import opened ClientInvariant
  import opened ClientTeardown
  import Runs

  // ---------------------------------------------------------------- the mutex is given back

  /** How many steps of its own the owner of the mutex is away from giving it back. */
  function HoldRank(s: State): nat {
    match s.dest.owner
    case Some(MainThread) => MainHold(s.main)
    case Some(SendThread) => if s.send.SPost? then 2 else if s.send == SUnlock then 1 else 0
    case Some(RecvThread) => if s.recv.RPost? then 2 else if s.recv == RUnlock then 1 else 0
    case None => 0
  }

  function MainHold(main: MainPc): nat {
    match main
    case MCheck => 5
    case MSnapshot => 4
    case MCancelRecv => 3
    case MCancelSend => 2
    case MWait => 1
    case MUnlock => 1
    case _ => 0
  }

  function MainsStep(main: MainPc): MainEvent {
    match main
    case MCheck => MainCheck
    case MSnapshot => Snapshot
    case MCancelRecv => CancelRecv
    case MCancelSend => CancelSend
    case MWait => MainWait
    case _ => MainUnlock
  }

  /** The next step of the thread that owns the mutex. */
  function OwnersStep(s: State): Event {
    match s.dest.owner
    case Some(SendThread) => OfSend(if s.send.SPost? then SendPost else SendUnlock)
    case Some(RecvThread) => OfRecv(if s.recv.RPost? then RecvPost else RecvUnlock)
    case _ => OfMain(MainsStep(s.main))
  }

  lemma MainGivesBack(s: State, e: MainEvent)
    requires MainEnabled(s, e) && MainOwns(s.main) && s.dest.owner == Some(MainThread)
    ensures var s' := MainApply(s, e);
            s'.dest.owner == None || (s'.dest.owner == Some(MainThread) && MainHold(s'.main) < MainHold(s.main))
  {
    match e
    case CreateRecv(_) | CreateSend(_) | MainLock | MainCheck | MainWait | MainWake | Snapshot | CancelRecv | CancelSend
       | MainUnlock =>
  }

  lemma MainIsEnabled(s: State)
    requires MainOwns(s.main)
    ensures MainEnabled(s, MainsStep(s.main))
  {
  }

  lemma SendGivesBack(s: State)
    requires SendOwns(s.send) && s.dest.owner == Some(SendThread)
    ensures var e := if s.send.SPost? then SendPost else SendUnlock;
            && SendEnabled(s, e)
            && var s' := SendApply(s, e);
               s'.dest.owner == None || (s'.dest.owner == Some(SendThread) && s.send.SPost? && s'.send == SUnlock)
  {
  }

  lemma RecvGivesBack(s: State)
    requires RecvOwns(s.recv) && s.dest.owner == Some(RecvThread)
    ensures var e := if s.recv.RPost? then RecvPost else RecvUnlock;
            && RecvEnabled(s, e)
            && var s' := RecvApply(s, e);
               s'.dest.owner == None || (s'.dest.owner == Some(RecvThread) && s.recv.RPost? && s'.recv == RUnlock)
  {
  }

  /** Whoever owns the mutex can take its next step, and is then at least one step nearer to giving it back, if that was
      not it. */
  lemma MutexIsGivenBack(s: State)
    requires MutexInv(s.main, s.send, s.recv, s.dest.owner) && s.dest.owner.Some? && !s.aborted
    ensures Enabled(s, OwnersStep(s))
    ensures var s' := Apply(s, OwnersStep(s));
            s'.dest.owner == None || (s'.dest.owner == s.dest.owner && HoldRank(s') < HoldRank(s))
  {
    match s.dest.owner.value
    case MainThread => MainIsEnabled(s); MainGivesBack(s, MainsStep(s.main));
    case SendThread => SendGivesBack(s);
    case RecvThread => RecvGivesBack(s);
  }

  // ---------------------------------------------------------------- a decision is posted

  predicate Posting(send: SendPc) {
    send.SLock? || send.SPost? || SendSignals(send)
  }

  function PostRank(send: SendPc): nat {
    match send
    case SLock(_) => 4
    case SPost(_) => 3
    case SUnlock => 2
    case SSignal => 1
    case _ => 0
  }

  lemma SendNearsExit(s: State, e: SendEvent)
    requires SendEnabled(s, e) && Posting(s.send)
    ensures var s' := SendApply(s, e);
            if Posting(s'.send) then PostRank(s'.send) < PostRank(s.send) else s'.send == SExited && !s'.dest.waiting
  {
  }

  lemma OthersLeaveSend(s: State, e: Event, s': State)
    requires Step(s, e, s') && !e.OfSend? && s.send != SNone
    requires LifeInv(s.main, s.send, s.recv, s.cancelSend, s.cancelRecv)
    ensures s'.send == s.send
  {
    match e
    case Peer(_) =>
    case Spurious =>
    case Killed =>
    case OfMain(main) => MainLeavesSend(s, main);
    case OfTeardown(teardown) => TeardownLeavesArgs(s, teardown);
    case OfRecv(recv) => RecvLeavesSend(s, recv);
  }

  lemma MainLeavesSend(s: State, e: MainEvent)
    requires MainEnabled(s, e) && s.send != SNone && LifeInv(s.main, s.send, s.recv, s.cancelSend, s.cancelRecv)
    ensures MainApply(s, e).send == s.send
  {
  }

  lemma RecvLeavesSend(s: State, e: RecvEvent)
    requires RecvEnabled(s, e)
    ensures RecvApply(s, e).send == s.send
  {
  }

  lemma PostingAt(input: seq<byte>, ws: seq<State>, es: seq<Event>, k: nat)
    requires IsRun(input, ws, es) && k < |es| && Posting(ws[k].send)
    ensures PostRank(ws[k].send) > 0
    ensures if Posting(ws[k + 1].send)
            then PostRank(ws[k + 1].send) <= PostRank(ws[k].send)
                 && (es[k].OfSend? ==> PostRank(ws[k + 1].send) < PostRank(ws[k].send))
            else es[k].OfSend? && ws[k + 1].send == SExited && !ws[k + 1].dest.waiting
  {
    LifeAlong(input, ws, es, k);
    if es[k].OfSend? {
      SendNearsExit(ws[k], es[k].send);
    } else {
      OthersLeaveSend(ws[k], es[k], ws[k + 1]);
    }
  }

  /** In any run, once the sending thread has a result, four more of its steps at most post it, give the signal and end the
      thread. */
  lemma ResultIsPosted(input: seq<byte>, ws: seq<State>, es: seq<Event>, i: nat, j: nat) returns (k: nat)
    requires IsRun(input, ws, es) && i <= j <= |es| && ws[i].send.SLock?
    requires Runs.Count(es, (e: Event) => e.OfSend?, i, j) >= 4
    ensures i <= k < j && es[k].OfSend? && ws[k + 1].send == SExited && !ws[k + 1].dest.waiting
    ensures ws[k + 1].dest.slot != NoResult
  {
    k := PostingEnds(input, ws, es, i, j);
    var a := Runs.Leaves(ws, (s: State) => s.send.SLock? || s.send.SPost?, i, k + 1);
    SlotIsFilled(input, ws, es, a);
    Arbitration(input, ws, es, a + 1, k + 1);
  }

  lemma PostingEnds(input: seq<byte>, ws: seq<State>, es: seq<Event>, i: nat, j: nat) returns (k: nat)
    requires IsRun(input, ws, es) && i <= j <= |es| && Posting(ws[i].send)
    requires Runs.Count(es, (e: Event) => e.OfSend?, i, j) >= 4
    ensures i <= k < j && es[k].OfSend? && ws[k + 1].send == SExited && !ws[k + 1].dest.waiting
  {
    var on, rank := (s: State) => Posting(s.send), (s: State) => PostRank(s.send);
    forall k | i <= k < j && on(ws[k]) && on(ws[k + 1])
      ensures rank(ws[k + 1]) <= rank(ws[k]) && (es[k].OfSend? ==> rank(ws[k + 1]) < rank(ws[k]))
    {
      PostingAt(input, ws, es, k);
    }
    k := Runs.Descends(ws, es, on, rank, (e: Event) => e.OfSend?, i, j);
    PostingAt(input, ws, es, k);
  }

  lemma SlotIsFilled(input: seq<byte>, ws: seq<State>, es: seq<Event>, a: nat)
    requires IsRun(input, ws, es) && a < |es| && (ws[a].send.SLock? || ws[a].send.SPost?)
    requires !(ws[a + 1].send.SLock? || ws[a + 1].send.SPost?)
    ensures ws[a + 1].dest.slot != NoResult
  {
    LifeAlong(input, ws, es, a);
    if !es[a].OfSend? { OthersLeaveSend(ws[a], es[a], ws[a + 1]); }
  }

  /** It can take the next of them, unless another thread owns the mutex (see MutexIsGivenBack). */
  lemma PostingIsNotBlocked(s: State)
    requires Posting(s.send) && !s.aborted
    ensures
      || (s.send.SLock? && s.dest.owner.Some?)
      || Enabled(s, OfSend(SendLock)) || Enabled(s, OfSend(SendPost)) || Enabled(s, OfSend(SendUnlock))
      || Enabled(s, OfSend(SendSignal))
  {
  }

  // ---------------------------------------------------------------- main sleeps

  predicate Looking(main: MainPc) {
    main == MLock || main == MCheck || main == MWait
  }

  function LookRank(main: MainPc): nat {
    match main
    case MLock => 3
    case MCheck => 2
    case MWait => 1
    case _ => 0
  }

  /** Main has found a result, or sleeps with the mutex given back. */
  predicate Settled(s: State) {
    (s.main == MSnapshot && s.dest.slot != NoResult) || (s.main == MBlocked && s.dest.waiting && s.dest.owner == None)
  }

  lemma MainSettles(s: State, e: MainEvent)
    requires MainEnabled(s, e) && Looking(s.main)
    ensures var s' := MainApply(s, e); if Looking(s'.main) then LookRank(s'.main) < LookRank(s.main) else Settled(s')
  {
  }

  lemma OthersLeaveMain(s: State, e: Event, s': State)
    requires Step(s, e, s') && !e.OfMain? && !e.OfTeardown?
    ensures s'.main == s.main
  {
    match e
    case Peer(_) =>
    case Spurious =>
    case Killed =>
    case OfSend(send) => SendOverrides(s, send);
    case OfRecv(recv) => RecvOverrides(s, recv);
  }

  lemma LookingAt(input: seq<byte>, ws: seq<State>, es: seq<Event>, k: nat)
    requires IsRun(input, ws, es) && k < |es| && Looking(ws[k].main)
    ensures LookRank(ws[k].main) > 0
    ensures if Looking(ws[k + 1].main)
            then LookRank(ws[k + 1].main) <= LookRank(ws[k].main)
                 && (es[k].OfMain? ==> LookRank(ws[k + 1].main) < LookRank(ws[k].main))
            else es[k].OfMain? && Settled(ws[k + 1])
  {
    assert Step(ws[k], es[k], ws[k + 1]);
    match es[k]
    case OfMain(main) => MainSettles(ws[k], main);
    case OfTeardown(_) => assert false;
    case _ => OthersLeaveMain(ws[k], es[k], ws[k + 1]);
  }

  /** In any run, from its lock three steps of main at most find a result or put it to sleep with the mutex given back. */
  lemma MainSettlesDown(input: seq<byte>, ws: seq<State>, es: seq<Event>, i: nat, j: nat) returns (k: nat)
    requires IsRun(input, ws, es) && i <= j <= |es| && Looking(ws[i].main)
    requires Runs.Count(es, (e: Event) => e.OfMain?, i, j) >= 3
    ensures i <= k < j && es[k].OfMain? && Settled(ws[k + 1])
  {
    var on, rank := (s: State) => Looking(s.main), (s: State) => LookRank(s.main);
    forall k | i <= k < j && on(ws[k]) && on(ws[k + 1])
      ensures rank(ws[k + 1]) <= rank(ws[k]) && (es[k].OfMain? ==> rank(ws[k + 1]) < rank(ws[k]))
    {
      LookingAt(input, ws, es, k);
    }
    k := Runs.Descends(ws, es, on, rank, (e: Event) => e.OfMain?, i, j);
    LookingAt(input, ws, es, k);
  }

  /** It can take the next of them, unless another thread owns the mutex. */
  lemma LookingIsNotBlocked(s: State)
    requires Looking(s.main) && !s.aborted
    ensures
      || (s.main == MLock && s.dest.owner.Some?)
      || Enabled(s, OfMain(MainLock)) || Enabled(s, OfMain(MainCheck)) || Enabled(s, OfMain(MainWait))
  {
  }

  // ---------------------------------------------------------------- a thread that cannot be created

  predicate CreationFails(e: Event) {
    e.OfMain? && ((e.main.CreateRecv? && e.main.o != Created) || (e.main.CreateSend? && e.main.o != Created))
  }

  /** Main is on its way out without a result. */
  predicate GivingUp(s: State) {
    (s.main == MFailCancel || s.main == MFailJoin || Destroying(s.main)) && s.snapshot == NoResult && s.send == SNone
  }

  lemma CreationGivesUp(s: State, e: MainEvent)
    requires MainEnabled(s, e) && CreationFails(OfMain(e))
    requires SlotInv(s.main, s.send, s.recv, s.dest.slot, s.dest.waiting, s.snapshot)
    requires LifeInv(s.main, s.send, s.recv, s.cancelSend, s.cancelRecv)
    ensures GivingUp(MainApply(s, e)) && (e.CreateSend? <==> MainApply(s, e).main == MFailCancel)
  {
  }

  lemma MainKeepsGivingUp(s: State, e: MainEvent)
    requires MainEnabled(s, e) && GivingUp(s)
    ensures GivingUp(MainApply(s, e)) && MainApply(s, e).main == MFailJoin && MainApply(s, e).cancelRecv
  {
  }

  lemma TeardownKeepsGivingUp(s: State, e: TeardownEvent)
    requires TeardownEnabled(s, e) && GivingUp(s)
    ensures GivingUp(TeardownApply(s, e))
  {
  }

  lemma SendIsNotThere(s: State, e: SendEvent)
    requires SendEnabled(s, e)
    ensures s.send != SNone
  {
  }

  lemma RecvKeepsGivingUp(s: State, e: RecvEvent)
    requires RecvEnabled(s, e) && GivingUp(s)
    ensures GivingUp(RecvApply(s, e))
  {
  }

  lemma StepKeepsGivingUp(s: State, e: Event, s': State)
    requires Step(s, e, s') && GivingUp(s)
    ensures GivingUp(s') && (e.OfMain? ==> Issued(s'.main) && s'.cancelRecv)
  {
    match e
    case Peer(_) =>
    case Spurious =>
    case Killed =>
    case OfMain(main) => MainKeepsGivingUp(s, main);
    case OfTeardown(teardown) => TeardownKeepsGivingUp(s, teardown);
    case OfSend(send) => SendIsNotThere(s, send);
    case OfRecv(recv) => RecvKeepsGivingUp(s, recv);
  }

  lemma {:induction false} GivingUpStays(input: seq<byte>, ws: seq<State>, es: seq<Event>, i: nat, j: nat)
    requires IsRun(input, ws, es) && i <= j <= |es| && GivingUp(ws[i])
    ensures GivingUp(ws[j])
    decreases j - i
  {
    if i < j {
      assert Step(ws[i], es[i], ws[i + 1]);
      StepKeepsGivingUp(ws[i], es[i], ws[i + 1]);
      GivingUpStays(input, ws, es, i + 1, j);
    }
  }

  /** In any run, if a thread cannot be created main takes no result and returns UNKNOWN; one more step of main at most, which
      cancels the thread that was created, and the teardown begins. */
  lemma FailedCreationIsUnknown(input: seq<byte>, ws: seq<State>, es: seq<Event>, i: nat, n: nat)
    requires IsRun(input, ws, es) && i < n <= |es| && CreationFails(es[i])
    ensures ReturnStatus(ws[n].snapshot) == Unknown && GivingUp(ws[n])
    ensures ws[i + 1].main == MFailCancel || Issued(ws[i + 1].main)
    ensures forall k :: i < k < |es| && es[k].OfMain? ==> Issued(ws[k + 1].main) && ws[k + 1].cancelRecv
  {
    SlotAlong(input, ws, es, i);
    LifeAlong(input, ws, es, i);
    CreationGivesUp(ws[i], es[i].main);
    GivingUpStays(input, ws, es, i + 1, n);
    forall k | i < k < |es| && es[k].OfMain? ensures Issued(ws[k + 1].main) && ws[k + 1].cancelRecv {
      GivingUpStays(input, ws, es, i + 1, k);
      assert Step(ws[k], es[k], ws[k + 1]);
      StepKeepsGivingUp(ws[k], es[k], ws[k + 1]);
    }
  }
}

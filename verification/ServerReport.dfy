/**
 What the parent may conclude from the reporting pipe. The story of the child is told by the events of a run: which of its
 calls failed, whether it wrote its record, whether it executed the program, whether it was killed before it could.
 */
module ServerReport {
  import opened Streams
  import opened Server
  import opened ServerControl
  import opened ServerSafety
  import Child
  import Runs

  /** The child did `e` among the first `n` steps. */
  ghost predicate Did(es: seq<Event>, n: nat, e: Child.Event)
    requires n <= |es|
  {
    exists i :: 0 <= i < n && es[i] == OfEnv(ChildGoes(e))
  }

  /** The call that the record `r` is about failed, with its error number. */
  function Failing(r: Child.Record): Child.Event {
    match r.func
    case Dup2 => Child.Dup2Fails(r.errno)
    case Execve => Child.ExecFails(r.errno)
  }

  ghost predicate CallFailed(es: seq<Event>, n: nat)
    requires n <= |es|
  {
    exists r :: Did(es, n, Failing(r))
  }

  predicate DiesBeforeExec(w: World, e: Event) {
    e == OfEnv(ChildGoes(Child.Killed)) && Child.BeforeExec(w.s.child.pc)
  }

  /** The child was killed between fork(2) and execve(2), no call having failed. */
  ghost predicate DiedBeforeExec(ws: seq<World>, es: seq<Event>, n: nat)
    requires n <= |es| < |ws|
  {
    exists i :: 0 <= i < n && DiesBeforeExec(ws[i], es[i])
  }

  // ---------------------------------------------------------------- the child against its story

  /** A call failed, and the child is on its way to report it. */
  predicate Failed(pc: Child.Pc, errno: int, r: Child.Record) {
    match pc
    case AtPush => r == Child.Record(Child.Dup2, errno)
    case AtCloseFailed(saved) => r == Child.Record(Child.Dup2, saved)
    case AtPop(saved) => r == Child.Record(Child.Dup2, saved)
    case AtFill(func) => r == Child.Record(func, errno)
    case AtWrite(record) => r == record
    case _ => true
  }

  predicate Fits(p: Child.Process, executed: bool, failure: Option<Child.Record>, written: bool, died: bool) {
    && p.report == (if written && failure.Some? then [failure.value] else [])
    && (written ==> failure.Some? && (p.pc == Child.AtCloseReport || p.pc == Child.AtExit || p.pc == Child.Gone))
    && (failure.Some? ==> !executed && !died && !Child.BeforeExec(p.pc) && p.pc != Child.NotForked
                          && p.pc != Child.InProgram && Failed(p.pc, p.errno, failure.value))
    && (failure == None ==> Child.BeforeExec(p.pc) || p.pc == Child.NotForked || p.pc == Child.InProgram || p.pc == Child.Gone)
    && (executed ==> p.pc == Child.InProgram || p.pc == Child.Gone)
    && (p.pc == Child.InProgram ==> executed)
    && (died ==> p.pc == Child.Gone && !executed)
    && (p.pc == Child.Gone ==> executed || failure.Some? || died)
  }

  /** The child's story after one more of its steps. */
  lemma ChildFits(p: Child.Process, e: Child.Event, executed: bool, failure: Option<Child.Record>, written: bool,
                  died: bool) returns (failure': Option<Child.Record>)
    requires Child.Enabled(p, e) && Fits(p, executed, failure, written, died)
    ensures Fits(Child.Apply(p, e), executed || e == Child.ExecOk, failure', written || e == Child.WriteOk,
                 died || (e == Child.Killed && Child.BeforeExec(p.pc)))
    ensures forall r :: failure' == Some(r) <==> failure == Some(r) || e == Failing(r)
  {
    failure' := match e
      case Dup2Fails(errno) => Some(Child.Record(Child.Dup2, errno))
      case ExecFails(errno) => Some(Child.Record(Child.Execve, errno))
      case _ => failure;
    forall r ensures failure' == Some(r) <==> failure == Some(r) || e == Failing(r) {
      match r.func
      case Dup2 =>
      case Execve =>
    }
  }

  lemma DidMore(es: seq<Event>, n: nat, e: Child.Event)
    requires n < |es|
    ensures Did(es, n + 1, e) <==> Did(es, n, e) || es[n] == OfEnv(ChildGoes(e))
  {
  }

  lemma DiedMore(ws: seq<World>, es: seq<Event>, n: nat)
    requires n < |es| < |ws|
    ensures DiedBeforeExec(ws, es, n + 1) <==> DiedBeforeExec(ws, es, n) || DiesBeforeExec(ws[n], es[n])
  {
  }

  /** Nobody but main's fork(2) and the child itself moves the child. */
  lemma OthersLeaveChild(w: World, e: Event, w': World)
    requires Step(w, e, w') && !(e.OfEnv? && e.env.ChildGoes?)
    ensures w'.s.child == w.s.child ||
            (w.s.main == MFork && w'.s.child == w.s.child.(pc := Child.AtDup2))
  {
    match e
    case OfEnv(env) =>
    case OfMain(main) =>
    case OfGate(t, gate) => GateLeavesChild(w.s, t, gate);
    case OfAccept(accept) => AcceptLeavesChild(w.s, accept);
    case OfConn(conn) => ConnLeavesChild(w.s, conn);
    case Waitpid =>
  }

  lemma GateLeavesChild(s: State, t: Thread, e: GateEvent)
    requires GateEnabled(s, t, e)
    ensures GateApply(s, t, e).child == s.child
  {
  }

  lemma AcceptLeavesChild(s: State, e: AcceptEvent)
    requires AcceptEnabled(s, e)
    ensures AcceptApply(s, e).child == s.child
  {
  }

  lemma ConnLeavesChild(s: State, e: ConnEvent)
    requires ConnEnabled(s, e)
    ensures ConnApply(s, e).child == s.child
  {
  }

  lemma ForkFits(p: Child.Process, executed: bool, failure: Option<Child.Record>, written: bool, died: bool)
    requires p == Child.UNBORN && Fits(p, executed, failure, written, died)
    ensures Fits(p.(pc := Child.AtDup2), executed, failure, written, died)
  {
  }

  /** In any run the child is where its story says. */
  lemma {:induction false} StoryAlong(ws: seq<World>, es: seq<Event>, n: nat) returns (failure: Option<Child.Record>)
    requires IsRun(ws, es) && n <= |es|
    ensures Fits(ws[n].s.child, Did(es, n, Child.ExecOk), failure, Did(es, n, Child.WriteOk), DiedBeforeExec(ws, es, n))
    ensures forall r :: Did(es, n, Failing(r)) <==> failure == Some(r)
  {
    if n == 0 {
      failure := None;
    } else {
      failure := StoryAlong(ws, es, n - 1);
      failure := StoryGoesOn(ws, es, n - 1, failure);
    }
  }

  lemma StoryGoesOn(ws: seq<World>, es: seq<Event>, n: nat, failure: Option<Child.Record>)
      returns (failure': Option<Child.Record>)
    requires IsRun(ws, es) && n < |es|
    requires Fits(ws[n].s.child, Did(es, n, Child.ExecOk), failure, Did(es, n, Child.WriteOk), DiedBeforeExec(ws, es, n))
    requires forall r :: Did(es, n, Failing(r)) <==> failure == Some(r)
    ensures Fits(ws[n + 1].s.child, Did(es, n + 1, Child.ExecOk), failure', Did(es, n + 1, Child.WriteOk),
                 DiedBeforeExec(ws, es, n + 1))
    ensures forall r :: Did(es, n + 1, Failing(r)) <==> failure' == Some(r)
  {
    StepAt(ws, es, n);
    DidMore(es, n, Child.ExecOk);
    DidMore(es, n, Child.WriteOk);
    DiedMore(ws, es, n);
    forall r ensures Did(es, n + 1, Failing(r)) <==> Did(es, n, Failing(r)) || es[n] == OfEnv(ChildGoes(Failing(r))) {
      DidMore(es, n, Failing(r));
    }
    var executed, written, died := Did(es, n, Child.ExecOk), Did(es, n, Child.WriteOk), DiedBeforeExec(ws, es, n);
    if es[n].OfEnv? && es[n].env.ChildGoes? {
      failure' := ChildFits(ws[n].s.child, es[n].env.e, executed, failure, written, died);
    } else {
      failure' := failure;
      OthersLeaveChild(ws[n], es[n], ws[n + 1]);
      if ws[n].s.main == MFork { ForkFits(ws[n].s.child, executed, failure, written, died); }
    }
  }

  lemma StepAt(ws: seq<World>, es: seq<Event>, n: nat)
    requires IsRun(ws, es) && n < |es|
    ensures Step(ws[n], es[n], ws[n + 1])
    ensures ws[n].s.main == MFork ==> ws[n].s.child == Child.UNBORN
    ensures Child.ShutInv(ws[n].s.child)
  {
    SafeAlong(ws, es, n);
  }

  // ---------------------------------------------------------------- the child comes to an end

  function ChildRank(pc: Child.Pc): nat {
    match pc
    case AtDup2 => 9
    case AtPush => 8
    case AtCloseFailed(_) => 7
    case AtPop(_) => 6
    case AtClose => 8
    case AtExec => 7
    case AtFill(_) => 5
    case AtWrite(_) => 4
    case AtCloseReport => 3
    case AtExit => 2
    case InProgram => 1
    case Gone => 0
    case NotForked => 0
  }

  predicate Alive(pc: Child.Pc) {
    pc != Child.NotForked && pc != Child.Gone
  }

  lemma ChildFalls(p: Child.Process, e: Child.Event)
    requires Child.Enabled(p, e)
    ensures ChildRank(Child.Apply(p, e).pc) < ChildRank(p.pc)
    ensures Alive(p.pc) && (Alive(Child.Apply(p, e).pc) || Child.Apply(p, e).pc == Child.Gone)
  {
  }

  /** The child can take its next step, without any call failing and without being killed. */
  lemma ChildIsNotBlocked(p: Child.Process)
    requires Alive(p.pc)
    ensures exists e :: Child.Enabled(p, e) && !e.Killed? && !e.Dup2Fails? && !e.ExecFails? && !e.WriteFails?
  {
    var e := match p.pc
      case AtDup2 => Child.Dup2Ok
      case AtPush => Child.PushErrno
      case AtCloseFailed(_) => Child.CloseStdin(0)
      case AtPop(_) => Child.PopErrno
      case AtClose => Child.CloseStdin(0)
      case AtExec => Child.ExecOk
      case AtFill(_) => Child.FillRecord
      case AtWrite(_) => Child.WriteOk
      case AtCloseReport => Child.CloseReport
      case AtExit => Child.Exits
      case _ => Child.ProgramEnds;
    assert Child.Enabled(p, e);
  }

  lemma ChildRankAt(ws: seq<World>, es: seq<Event>, k: nat)
    requires IsRun(ws, es) && k < |es| && Alive(ws[k].s.child.pc)
    ensures ChildRank(ws[k].s.child.pc) > 0
    ensures ChildRank(ws[k + 1].s.child.pc) <= ChildRank(ws[k].s.child.pc)
    ensures es[k].OfEnv? && es[k].env.ChildGoes? ==> ChildRank(ws[k + 1].s.child.pc) < ChildRank(ws[k].s.child.pc)
    ensures Alive(ws[k + 1].s.child.pc) || ws[k + 1].s.child.pc == Child.Gone
  {
    StepAt(ws, es, k);
    if es[k].OfEnv? && es[k].env.ChildGoes? {
      ChildFalls(ws[k].s.child, es[k].env.e);
    } else {
      OthersLeaveChild(ws[k], es[k], ws[k + 1]);
    }
  }

  /** In any run nine steps of the child at most, from its fork, bring it to its end: it has run the program or reported. */
  lemma ChildComesToAnEnd(ws: seq<World>, es: seq<Event>, i: nat, j: nat) returns (k: nat)
    requires IsRun(ws, es) && i <= j <= |es| && Alive(ws[i].s.child.pc)
    requires Runs.Count(es, (e: Event) => e.OfEnv? && e.env.ChildGoes?, i, j) >= 9
    ensures i <= k < j && ws[k + 1].s.child.pc == Child.Gone
  {
    var on, rank := (w: World) => Alive(w.s.child.pc), (w: World) => ChildRank(w.s.child.pc);
    forall k | i <= k < j && on(ws[k]) && on(ws[k + 1])
      ensures rank(ws[k + 1]) <= rank(ws[k])
      ensures es[k].OfEnv? && es[k].env.ChildGoes? ==> rank(ws[k + 1]) < rank(ws[k])
    {
      ChildRankAt(ws, es, k);
    }
    k := Runs.Descends(ws, es, on, rank, (e: Event) => e.OfEnv? && e.env.ChildGoes?, i, j);
    ChildRankAt(ws, es, k);
  }

  // ---------------------------------------------------------------- theorems

  /** Past end-of-file on the reporting pipe, the program was not executed exactly if a call of the child failed (and its
      record was not written, by ReportIsNotMissed) or the child was killed between fork(2) and execve(2). */
  lemma NotExecutedIff(ws: seq<World>, es: seq<Event>, n: nat)
    requires IsRun(ws, es) && n <= |es| && PastEof(ws[n].s.main)
    ensures !Did(es, n, Child.ExecOk) <==> CallFailed(es, n) || DiedBeforeExec(ws, es, n)
  {
    SafeAlong(ws, es, n);
    var failure := StoryAlong(ws, es, n);
    if failure.Some? {
      assert Did(es, n, Failing(failure.value));
    }
  }

  /** A record that main reads is about the one call of the child that failed, and carries its error number. */
  lemma ReportIsTrue(ws: seq<World>, es: seq<Event>, n: nat) returns (r: Child.Record)
    requires IsRun(ws, es) && n < |es| && es[n] == OfMain(ReportError)
    ensures ws[n].s.child.report == [r] && Did(es, n, Child.WriteOk) && !Did(es, n, Child.ExecOk)
    ensures forall q :: Did(es, n, Failing(q)) <==> q == r
  {
    StepAt(ws, es, n);
    var failure := StoryAlong(ws, es, n);
    r := failure.value;
  }

  /** And one that was written is read: past end-of-file there was none. */
  lemma ReportIsNotMissed(ws: seq<World>, es: seq<Event>, n: nat)
    requires IsRun(ws, es) && n <= |es| && PastEof(ws[n].s.main)
    ensures !Did(es, n, Child.WriteOk)
  {
    SafeAlong(ws, es, n);
    var failure := StoryAlong(ws, es, n);
  }
}

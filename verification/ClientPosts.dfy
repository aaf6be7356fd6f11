/** Runs in which both threads post: each posts once, and what the slot holds afterwards. */
module ClientPosts {
  import opened Streams
  import opened Client
  import opened ClientInvariant
  import opened ClientTeardown
  import Runs

  predicate SendPosts(e: Event) {
    e == OfSend(SendPost)
  }

  predicate RecvPosts(e: Event) {
    e == OfRecv(RecvPost)
  }

  predicate RecvPosted(recv: RecvPc) {
    recv == RUnlock || recv == RSignal || recv == RExited
  }

  /** What a step means for posting: a thread that has posted stays so, and the slot changes with posts only. */
  predicate PostMoves(s: State, e: Event, s': State) {
    && (Posted(s.send) ==> Posted(s'.send))
    && (RecvPosted(s.recv) ==> RecvPosted(s'.recv))
    && (SendPosts(e) ==> s.send.SPost? && Posted(s'.send) && s'.dest.slot == PostSending(s.dest.slot, s.send.r))
    && (RecvPosts(e) ==> s.recv.RPost? && RecvPosted(s'.recv) && s'.dest.slot == PostReceiving(s.dest.slot, s.recv.r))
    && (!SendPosts(e) && !RecvPosts(e) ==> s'.dest.slot == s.dest.slot)
  }

  lemma MainMovesPosts(s: State, e: MainEvent)
    requires LifeInv(s.main, s.send, s.recv, s.cancelSend, s.cancelRecv) && MainEnabled(s, e)
    ensures PostMoves(s, OfMain(e), MainApply(s, e))
  {
    match e
    case CreateRecv(_) | CreateSend(_) | MainLock | MainCheck | MainWait | MainWake | Snapshot | CancelRecv | CancelSend
       | MainUnlock =>
  }

  lemma TeardownMovesPosts(s: State, e: TeardownEvent)
    requires TeardownEnabled(s, e)
    ensures PostMoves(s, OfTeardown(e), TeardownApply(s, e))
  {
    match e
    case JoinRecv | JoinSend | DestroyCond | DestroyMutex | FreeDest | CloseSocket =>
  }

  lemma SendMovesPosts(s: State, e: SendEvent)
    requires SendEnabled(s, e)
    ensures PostMoves(s, OfSend(e), SendApply(s, e))
  {
    match e
    case SendFreeArg | EnterRead | ReadInput(_) | InputEof | InputFail(_) | EnterWrite | Wrote(_) | WriteFail(_) | SendDies
       | SendLock | SendPost | SendUnlock | SendSignal =>
  }

  lemma RecvMovesPosts(s: State, e: RecvEvent)
    requires RecvEnabled(s, e)
    ensures PostMoves(s, OfRecv(e), RecvApply(s, e))
  {
    match e
    case RecvFreeArg | EnterRecv | Got(_) | GotEof | RecvFail(_) | RecvDies | RecvLock | RecvPost | RecvUnlock | RecvSignal =>
  }

  lemma StepMovesPosts(s: State, e: Event, s': State)
    requires LifeInv(s.main, s.send, s.recv, s.cancelSend, s.cancelRecv) && Step(s, e, s')
    ensures PostMoves(s, e, s')
  {
    match e
    case Peer(_) =>
    case Spurious =>
    case Killed =>
    case OfMain(main) => MainMovesPosts(s, main);
    case OfTeardown(teardown) => TeardownMovesPosts(s, teardown);
    case OfSend(send) => SendMovesPosts(s, send);
    case OfRecv(recv) => RecvMovesPosts(s, recv);
  }

  lemma PostsAt(input: seq<byte>, ws: seq<State>, es: seq<Event>, i: nat)
    requires IsRun(input, ws, es) && i < |es|
    ensures PostMoves(ws[i], es[i], ws[i + 1])
  {
    LifeAlong(input, ws, es, i);
    StepMovesPosts(ws[i], es[i], ws[i + 1]);
  }

  /** A thread that has posted stays so, and does not post again. */
  lemma {:induction false} PostedStays(input: seq<byte>, ws: seq<State>, es: seq<Event>, i: nat, j: nat)
    requires IsRun(input, ws, es) && i <= j <= |es|
    ensures Posted(ws[i].send) ==> Posted(ws[j].send) && (j < |es| ==> !SendPosts(es[j]))
    ensures RecvPosted(ws[i].recv) ==> RecvPosted(ws[j].recv) && (j < |es| ==> !RecvPosts(es[j]))
    decreases j - i
  {
    if i < j {
      PostsAt(input, ws, es, i);
      PostedStays(input, ws, es, i + 1, j);
    } else if j < |es| {
      PostsAt(input, ws, es, j);
    }
  }

  /** In any run each thread posts at most once. */
  lemma PostsOnce(input: seq<byte>, ws: seq<State>, es: seq<Event>, i: nat, j: nat)
    requires IsRun(input, ws, es) && i < j < |es|
    ensures !(SendPosts(es[i]) && SendPosts(es[j])) && !(RecvPosts(es[i]) && RecvPosts(es[j]))
  {
    PostsAt(input, ws, es, i);
    PostedStays(input, ws, es, i + 1, j);
  }

  /** Between two posts, and before the first and after the last, the slot keeps its value. */
  lemma {:induction false} SlotStays(input: seq<byte>, ws: seq<State>, es: seq<Event>, i: nat, j: nat)
    requires IsRun(input, ws, es) && i <= j <= |es|
    requires forall k :: i <= k < j ==> !SendPosts(es[k]) && !RecvPosts(es[k])
    ensures ws[j].dest.slot == ws[i].dest.slot
    decreases j - i
  {
    if i < j {
      PostsAt(input, ws, es, i);
      SlotStays(input, ws, es, i + 1, j);
    }
  }

  lemma OnlyTheseTwo(input: seq<byte>, ws: seq<State>, es: seq<Event>, i: nat, j: nat, k: nat)
    requires IsRun(input, ws, es) && i < |es| && j < |es| && k < |es| && SendPosts(es[i]) && RecvPosts(es[j])
    ensures k != i ==> !SendPosts(es[k])
    ensures k != j ==> !RecvPosts(es[k])
  {
    if k < i { PostsOnce(input, ws, es, k, i); }
    if i < k { PostsOnce(input, ws, es, i, k); }
    if k < j { PostsOnce(input, ws, es, k, j); }
    if j < k { PostsOnce(input, ws, es, j, k); }
  }

  /** The first post of a run finds the slot empty, whichever thread makes it. */
  lemma FirstPostFindsNothing(input: seq<byte>, ws: seq<State>, es: seq<Event>, i: nat)
    requires IsRun(input, ws, es) && i < |es|
    requires forall k :: 0 <= k < i ==> !SendPosts(es[k]) && !RecvPosts(es[k])
    ensures ws[i].dest.slot == NoResult
  {
    SlotStays(input, ws, es, 0, i);
  }

  /** In any run in which both threads post, whatever they post and whatever error numbers it carries: the slot ends as the
      rejection if a broken pipe and a rejection were posted, in either order, and as what was posted first otherwise. */
  lemma BothPost(input: seq<byte>, ws: seq<State>, es: seq<Event>, i: nat, j: nat, n: nat)
    requires IsRun(input, ws, es) && i < n <= |es| && j < n && SendPosts(es[i]) && RecvPosts(es[j])
    ensures i != j && ws[i].send.SPost? && ws[j].recv.RPost?
    ensures ws[n].dest.slot ==
            var a, b := ws[i].send.r, ws[j].recv.r;
            if Sending(a) == BROKEN_PIPE && b == FuckOff then Receiving(FuckOff)
            else if i < j then Sending(a)
            else Receiving(b)
  {
    var first, second := if i < j then i else j, if i < j then j else i;
    forall k | 0 <= k < n && k != i && k != j ensures !SendPosts(es[k]) && !RecvPosts(es[k]) {
      OnlyTheseTwo(input, ws, es, i, j, k);
    }
    FirstPostFindsNothing(input, ws, es, first);
    PostsAt(input, ws, es, first);
    SlotStays(input, ws, es, first + 1, second);
    PostsAt(input, ws, es, second);
    SlotStays(input, ws, es, second + 1, n);
    OverrideIsOrderIndependent(ws[i].send.r, ws[j].recv.r);
  }
}

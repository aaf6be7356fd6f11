/** When a client that was sent the rejection reports it: its receiving thread has to recognise it and to post it in time. */
module ClientRejection {
  import opened Streams
  import opened Client
  import opened ClientInvariant
  import opened ClientTeardown
  import Runs

  // ---------------------------------------------------------------- posted in time

  /** The rejection is posted into a slot that takes it, before main's snapshot. */
  predicate InTime(s: State, e: Event) {
    && e == OfRecv(RecvPost) && s.recv == RPost(FuckOff)
    && (s.dest.slot == NoResult || s.dest.slot == BROKEN_PIPE)
    && s.snapshot == NoResult
  }

  /** Main returns for a rejection, or will if it takes its snapshot now. */
  predicate ForRejection(slot: Result, snapshot: Result) {
    if snapshot == NoResult then slot == Receiving(FuckOff) else ReturnStatus(snapshot) == SuccessFuckOff
  }

  predicate RejectedIn(s: State) {
    ForRejection(s.dest.slot, s.snapshot)
  }

  lemma MainKeepsVerdict(s: State, e: MainEvent)
    requires SlotInv(s.main, s.send, s.recv, s.dest.slot, s.dest.waiting, s.snapshot) && MainEnabled(s, e)
    ensures RejectedIn(MainApply(s, e)) <==> RejectedIn(s)
  {
    match e
    case CreateRecv(_) | CreateSend(_) | MainLock | MainCheck | MainWait | MainWake | Snapshot | CancelRecv | CancelSend
       | MainUnlock =>
  }

  lemma TeardownKeepsVerdict(s: State, e: TeardownEvent)
    requires TeardownEnabled(s, e)
    ensures RejectedIn(TeardownApply(s, e)) <==> RejectedIn(s)
  {
  }

  lemma SendKeepsVerdict(s: State, e: SendEvent)
    requires SendEnabled(s, e)
    ensures RejectedIn(SendApply(s, e)) <==> RejectedIn(s)
  {
  }

  lemma RecvDecidesVerdict(s: State, e: RecvEvent)
    requires RecvEnabled(s, e)
    ensures RejectedIn(RecvApply(s, e)) <==> RejectedIn(s) || InTime(s, OfRecv(e))
  {
  }

  lemma VerdictByPost(s: State, e: Event, s': State)
    requires SlotInv(s.main, s.send, s.recv, s.dest.slot, s.dest.waiting, s.snapshot) && Step(s, e, s')
    ensures RejectedIn(s') <==> RejectedIn(s) || InTime(s, e)
  {
    match e
    case OfMain(main) => MainKeepsVerdict(s, main);
    case OfTeardown(teardown) => TeardownKeepsVerdict(s, teardown);
    case OfSend(send) => SendKeepsVerdict(s, send);
    case OfRecv(recv) => RecvDecidesVerdict(s, recv);
    case _ =>
  }

  /** In any run main's status is SUCCESS_FUCK_OFF exactly if it took a snapshot and the rejection was posted before it,
      into an empty slot or over a broken pipe. */
  lemma RejectionIsReturnedIff(input: seq<byte>, ws: seq<State>, es: seq<Event>, n: nat)
    requires IsRun(input, ws, es) && n <= |es|
    ensures ReturnStatus(ws[n].snapshot) == SuccessFuckOff <==>
            ws[n].snapshot != NoResult && exists i :: 0 <= i < n && InTime(ws[i], es[i])
  {
    forall i | 0 <= i < n ensures RejectedIn(ws[i + 1]) <==> RejectedIn(ws[i]) || InTime(ws[i], es[i]) {
      SlotAlong(input, ws, es, i);
      VerdictByPost(ws[i], es[i], ws[i + 1]);
    }
    Runs.RaisedIff(RejectedIn, InTime, ws, es, n);
  }

  // ---------------------------------------------------------------- recognised

  /** A read takes the whole message at once. */
  predicate TakesMessage(s: State, e: Event) {
    e == OfRecv(Got(8)) && s.sock.down.CanTake(8, 8) && s.sock.down.Next(8) == REJECT_MESSAGE
  }

  predicate Recognising(s: State) {
    s.recv == RLock(FuckOff)
  }

  ghost predicate Recognised(ws: seq<State>, n: nat)
    requires n < |ws|
  {
    exists i :: 0 <= i <= n && Recognising(ws[i])
  }

  lemma RecognisedByRead(s: State, e: RecvEvent)
    requires RecvEnabled(s, e) && !Recognising(s)
    ensures Recognising(RecvApply(s, e)) <==> TakesMessage(s, OfRecv(e))
  {
  }

  lemma StepRecognises(s: State, e: Event, s': State)
    requires Step(s, e, s')
    ensures TakesMessage(s, e) ==> Recognising(s')
    ensures !Recognising(s) && Recognising(s') ==> TakesMessage(s, e)
  {
    match e
    case OfRecv(recv) => if !Recognising(s) { RecognisedByRead(s, recv); }
    case OfMain(main) => MainLeavesRecv(s, main);
    case _ =>
  }

  lemma MainLeavesRecv(s: State, e: MainEvent)
    requires MainEnabled(s, e)
    ensures MainApply(s, e).recv == s.recv || MainApply(s, e).recv == RStart
  {
  }

  /** In any run the receiving thread decides for a rejection exactly if one of its reads took the whole message. */
  lemma RecognisedIff(input: seq<byte>, ws: seq<State>, es: seq<Event>, n: nat)
    requires IsRun(input, ws, es) && n <= |es|
    ensures Recognised(ws, n) <==> exists i :: 0 <= i < n && TakesMessage(ws[i], es[i])
  {
    if Recognised(ws, n) {
      var j: nat :| j <= n && Recognising(ws[j]);
      var i := Runs.MadeTrue(Init(input), Step, Recognising, ws, es, j);
      StepRecognises(ws[i], es[i], ws[i + 1]);
      assert TakesMessage(ws[i], es[i]);
    }
    if i: nat :| i < n && TakesMessage(ws[i], es[i]) {
      assert Step(ws[i], es[i], ws[i + 1]);
      StepRecognises(ws[i], es[i], ws[i + 1]);
      assert Recognising(ws[i + 1]);
    }
  }

  /** What the client's end of the server's direction goes through. */
  lemma DownGrows(s: State, e: Event, s': State)
    requires Step(s, e, s')
    ensures s.sock.down.taken <= s'.sock.down.taken && s.sock.down.sent <= s'.sock.down.sent
  {
    match e
    case Peer(_) =>
    case OfMain(main) => MainLeavesDown(s, main);
    case OfTeardown(teardown) => TeardownLeavesDown(s, teardown);
    case OfSend(send) => SendLeavesDown(s, send);
    case OfRecv(recv) => RecvTakes(s, recv);
    case _ =>
  }

  lemma MainLeavesDown(s: State, e: MainEvent)
    requires MainEnabled(s, e)
    ensures MainApply(s, e).sock == s.sock
  {
  }

  lemma TeardownLeavesDown(s: State, e: TeardownEvent)
    requires TeardownEnabled(s, e)
    ensures TeardownApply(s, e).sock.down == s.sock.down
  {
  }

  lemma SendLeavesDown(s: State, e: SendEvent)
    requires SendEnabled(s, e)
    ensures SendApply(s, e).sock.down == s.sock.down
  {
  }

  lemma RecvTakes(s: State, e: RecvEvent)
    requires RecvEnabled(s, e)
    ensures var down := RecvApply(s, e).sock.down;
            down.sent == s.sock.down.sent && down.taken == s.sock.down.taken + if e.Got? then e.k else 0
  {
  }

  lemma {:induction false} DownGrowsAlong(input: seq<byte>, ws: seq<State>, es: seq<Event>, i: nat, j: nat)
    requires IsRun(input, ws, es) && i <= j <= |es|
    ensures ws[i].sock.down.taken <= ws[j].sock.down.taken && ws[i].sock.down.sent <= ws[j].sock.down.sent
    decreases j - i
  {
    if i < j {
      assert Step(ws[i], es[i], ws[i + 1]);
      DownGrows(ws[i], es[i], ws[i + 1]);
      DownGrowsAlong(input, ws, es, i + 1, j);
    }
  }

  /** A run in which nothing but the rejection was sent: what the first read that returned anything returned decides. If it
      took all eight bytes the rejection is recognised; if it took fewer it never is. */
  lemma FirstReadDecides(input: seq<byte>, ws: seq<State>, es: seq<Event>, i: nat, n: nat)
    requires IsRun(input, ws, es) && i < n <= |es| && es[i].OfRecv? && es[i].recv.Got?
    requires ws[i].sock.down.taken == 0 && ws[n].sock.down.sent <= REJECT_MESSAGE
    ensures Recognised(ws, n) <==> es[i].recv.k == 8
  {
    assert Step(ws[i], es[i], ws[i + 1]);
    DownGrowsAlong(input, ws, es, i, n);
    RecognisedIff(input, ws, es, n);
    if es[i].recv.k == 8 {
      assert TakesMessage(ws[i], es[i]);
    } else {
      forall j: nat | j < n ensures !TakesMessage(ws[j], es[j]) {
        OnlyAtOnce(input, ws, es, i, n, j);
      }
    }
  }

  lemma OnlyAtOnce(input: seq<byte>, ws: seq<State>, es: seq<Event>, i: nat, n: nat, j: nat)
    requires IsRun(input, ws, es) && i < n <= |es| && es[i].OfRecv? && es[i].recv.Got? && es[i].recv.k != 8
    requires ws[n].sock.down.sent <= REJECT_MESSAGE && j < n
    ensures !TakesMessage(ws[j], es[j])
  {
    TakenAt(input, ws, es, i, n);
    if TakesMessage(ws[j], es[j]) {
      TakenAt(input, ws, es, j, n);
      if i < j {
        DownGrowsAlong(input, ws, es, i + 1, j);
      } else {
        DownGrowsAlong(input, ws, es, j + 1, i);
      }
    }
  }

  lemma TakenAt(input: seq<byte>, ws: seq<State>, es: seq<Event>, i: nat, n: nat)
    requires IsRun(input, ws, es) && i < n <= |es| && es[i].OfRecv? && es[i].recv.Got?
    requires ws[n].sock.down.sent <= REJECT_MESSAGE
    ensures es[i].recv.k >= 1
    ensures ws[i + 1].sock.down.taken == ws[i].sock.down.taken + es[i].recv.k <= 8
  {
    assert Step(ws[i], es[i], ws[i + 1]);
    RecvTakes(ws[i], es[i].recv);
    DownGrowsAlong(input, ws, es, i, n);
  }
}

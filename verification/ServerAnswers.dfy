/** What a client that was turned away has been sent by the time it is closed. */
module ServerAnswers {
  import opened Streams
  import opened Server
  import opened ServerControl
  import opened ServerPlaces
  import opened ServerReplies
  import opened ServerSafety
  import opened ServerHandoff
  import Runs

  /** The rejection of client `c` is given up after a write that failed. */
  predicate Cuts(s: State, e: Event, c: ClientId) {
    e == OfAccept(RejectFail) && s.accept.AReject? && s.accept.c == c
  }

  /** Client `c` is let go without a byte: no rejection is decided, or the first write of it fails. */
  predicate Silences(s: State, e: Event, c: ClientId) {
    Drops(s, e, c) || (Cuts(s, e, c) && s.accept.n == 0)
  }

  predicate Shortens(s: State, e: Event, c: ClientId) {
    Drops(s, e, c) || Cuts(s, e, c)
  }

  /** Turned away, and nothing more is sent. */
  predicate Answered(accept: AcceptPc, turnedAway: seq<ClientId>, c: ClientId) {
    && c in turnedAway
    && !(accept.ARead? && accept.c == c)
    && !(accept.AReject? && accept.c == c)
  }

  predicate Silent(accept: AcceptPc, turnedAway: seq<ClientId>, socks: map<ClientId, Socket>, c: ClientId) {
    Answered(accept, turnedAway, c) && c in socks && socks[c].down.sent == []
  }

  predicate Short(accept: AcceptPc, turnedAway: seq<ClientId>, socks: map<ClientId, Socket>, c: ClientId) {
    Answered(accept, turnedAway, c) && c in socks && socks[c].down.sent != REJECT_MESSAGE
  }

  predicate SilentIn(w: World, c: ClientId) {
    Silent(w.s.accept, w.log.turnedAway, w.s.socks, c)
  }

  predicate ShortIn(w: World, c: ClientId) {
    Short(w.s.accept, w.log.turnedAway, w.s.socks, c)
  }

  /** A client about to be read about, or about to get the first byte of its rejection, has been sent nothing. */
  lemma NothingSentYet(s: State, l: Log)
    requires ConserveInv(s, l) && ReplyInv(s.accept, l, s.socks)
    requires s.accept.ARead? && s.accept.c in s.socks
    ensures s.socks[s.accept.c].down.sent == []
  {
    HandIsNotClosed(s, l);
  }

  lemma TriedIsNotTurnedAway(s: State, l: Log)
    requires ConserveInv(s, l) && ReplyInv(s.accept, l, s.socks) && s.accept.ATry?
    ensures s.accept.c !in l.turnedAway
  {
    HandIsNotClosed(s, l);
  }

  lemma TurnedAwayIsKnown(s: State, l: Log, c: ClientId)
    requires ConserveInv(s, l) && ReplyInv(s.accept, l, s.socks) && c in l.turnedAway
    ensures c in s.socks
  {
    assert PlacesOf(s, l, c);
    CountPositive(l.closed, c);
  }

  lemma RejectionStopsShort(s: State, l: Log)
    requires BoxInv(s.accept, s.conn, s.box) && ReplyInv(s.accept, l, s.socks)
    requires s.accept.AReject? && s.accept.c in s.socks
    ensures s.socks[s.accept.c].down.sent == REJECT_MESSAGE[..s.accept.n] && s.accept.n < |REJECT_MESSAGE|
    ensures s.socks[s.accept.c].down.sent == [] <==> s.accept.n == 0
    ensures s.socks[s.accept.c].down.sent != REJECT_MESSAGE
  {
  }

  ghost predicate Answers(s: State, l: Log, e: AcceptEvent, c: ClientId)
    requires AcceptEnabled(s, e)
  {
    var s', l' := AcceptApply(s, e), ObserveAccept(l, s, e);
    && (Silent(s'.accept, l'.turnedAway, s'.socks, c)
        <==> Silent(s.accept, l.turnedAway, s.socks, c) || Silences(s, OfAccept(e), c))
    && (Short(s'.accept, l'.turnedAway, s'.socks, c)
        <==> Short(s.accept, l.turnedAway, s.socks, c) || Shortens(s, OfAccept(e), c))
  }

  lemma MessageAnswers(s: State, l: Log, e: AcceptEvent, c: ClientId)
    requires AcceptEnabled(s, e) && e.RejectWrite? && ReplyInv(s.accept, l, s.socks) && s.accept.c in s.socks
    ensures Answers(s, l, e, c)
  {
    var n, k := s.accept.n, e.k;
    assert REJECT_MESSAGE[..n] + REJECT_MESSAGE[n..n + k] == REJECT_MESSAGE[..n + k];
  }

  lemma DecisionAnswers(s: State, l: Log, c: ClientId)
    requires AcceptEnabled(s, ReadSlot) && ConserveInv(s, l) && ReplyInv(s.accept, l, s.socks) && s.accept.c in s.socks
    ensures Answers(s, l, ReadSlot, c)
  {
    NothingSentYet(s, l);
  }

  lemma CutAnswers(s: State, l: Log, c: ClientId)
    requires AcceptEnabled(s, RejectFail) && BoxInv(s.accept, s.conn, s.box) && ReplyInv(s.accept, l, s.socks)
    requires s.accept.c in s.socks
    ensures Answers(s, l, RejectFail, c)
  {
    RejectionStopsShort(s, l);
  }

  lemma TryAnswersNobody(s: State, l: Log, c: ClientId)
    requires AcceptEnabled(s, TryLock) && ConserveInv(s, l) && ReplyInv(s.accept, l, s.socks)
    ensures Answers(s, l, TryLock, c)
  {
    TriedIsNotTurnedAway(s, l);
  }

  lemma RestAnswersNobody(s: State, l: Log, e: AcceptEvent, c: ClientId)
    requires AcceptEnabled(s, e)
    requires e == AcceptOk || e == AcceptFail || e == Store || e == UnlockBox || e == Signal || e == CloseClient
    ensures Answers(s, l, e, c)
  {
  }

  lemma AcceptAnswers(s: State, l: Log, e: AcceptEvent, c: ClientId)
    requires AcceptEnabled(s, e) && ConserveInv(s, l) && ReplyInv(s.accept, l, s.socks)
    requires BoxInv(s.accept, s.conn, s.box) && KnownInv(s.accept, s.conn, s.box.slot, s.backlog, s.socks)
    ensures Answers(s, l, e, c)
  {
    match e
    case TryLock => TryAnswersNobody(s, l, c);
    case ReadSlot => DecisionAnswers(s, l, c);
    case RejectWrite(_) => MessageAnswers(s, l, e, c);
    case RejectFail => CutAnswers(s, l, c);
    case AcceptOk => RestAnswersNobody(s, l, e, c);
    case AcceptFail => RestAnswersNobody(s, l, e, c);
    case Store => RestAnswersNobody(s, l, e, c);
    case UnlockBox => RestAnswersNobody(s, l, e, c);
    case Signal => RestAnswersNobody(s, l, e, c);
    case CloseClient => RestAnswersNobody(s, l, e, c);
  }

  /** Steps that leave the accept thread's rejection branch and what was sent back alone. */
  lemma FrameAnswersNobody(s: State, l: Log, s': State, l': Log, c: ClientId)
    requires ConserveInv(s, l) && ReplyInv(s.accept, l, s.socks)
    requires s'.accept == s.accept || (Hand(s.accept) == None && Hand(s'.accept) == None)
    requires l'.turnedAway == l.turnedAway
    requires forall d :: d in s.socks ==> d in s'.socks && s'.socks[d].down.sent == s.socks[d].down.sent
    ensures Silent(s'.accept, l'.turnedAway, s'.socks, c) <==> Silent(s.accept, l.turnedAway, s.socks, c)
    ensures Short(s'.accept, l'.turnedAway, s'.socks, c) <==> Short(s.accept, l.turnedAway, s.socks, c)
  {
    if c in l.turnedAway { TurnedAwayIsKnown(s, l, c); }
  }

  lemma OthersLeaveReplies(w: World, e: Event, w': World)
    requires Step(w, e, w') && !e.OfAccept?
    ensures w'.s.accept == w.s.accept || (Hand(w.s.accept) == None && Hand(w'.s.accept) == None)
    ensures w'.log.turnedAway == w.log.turnedAway
    ensures forall d :: d in w.s.socks ==> d in w'.s.socks && w'.s.socks[d].down.sent == w.s.socks[d].down.sent
  {
    match e
    case OfEnv(env) => EnvLeavesServer(w.s, env);
    case OfGate(t, gate) => GateLeavesReplies(w.s, t, gate);
    case OfConn(conn) => ConnKeepsDown(w.s, w.log, conn);
    case _ =>
  }

  lemma GateLeavesReplies(s: State, t: Thread, e: GateEvent)
    requires GateEnabled(s, t, e)
    ensures var s' := GateApply(s, t, e);
            s'.socks == s.socks && (s'.accept == s.accept || (Hand(s.accept) == None && Hand(s'.accept) == None))
  {
  }

  lemma StepAnswers(w: World, e: Event, w': World, c: ClientId)
    requires Safe(w) && Step(w, e, w')
    ensures SilentIn(w', c) <==> SilentIn(w, c) || Silences(w.s, e, c)
    ensures ShortIn(w', c) <==> ShortIn(w, c) || Shortens(w.s, e, c)
  {
    if e.OfAccept? {
      AcceptAnswers(w.s, w.log, e.accept, c);
    } else {
      OthersLeaveReplies(w, e, w');
      FrameAnswersNobody(w.s, w.log, w'.s, w'.log, c);
    }
  }

  lemma AnswersAt(ws: seq<World>, es: seq<Event>, i: nat, c: ClientId)
    requires IsRun(ws, es) && i < |es|
    ensures SilentIn(ws[i + 1], c) <==> SilentIn(ws[i], c) || Silences(ws[i].s, es[i], c)
    ensures ShortIn(ws[i + 1], c) <==> ShortIn(ws[i], c) || Shortens(ws[i].s, es[i], c)
  {
    SafeAlong(ws, es, i);
    assert Step(ws[i], es[i], ws[i + 1]);
    StepAnswers(ws[i], es[i], ws[i + 1], c);
  }

  lemma SilentIff(ws: seq<World>, es: seq<Event>, n: nat, c: ClientId)
    requires IsRun(ws, es) && n <= |es|
    ensures SilentIn(ws[n], c) <==> exists i :: 0 <= i < n && Silences(ws[i].s, es[i], c)
  {
    forall i | 0 <= i < n ensures SilentIn(ws[i + 1], c) <==> SilentIn(ws[i], c) || Silences(ws[i].s, es[i], c) {
      AnswersAt(ws, es, i, c);
    }
    Runs.RaisedIff((w: World) => SilentIn(w, c), (w: World, e: Event) => Silences(w.s, e, c), ws, es, n);
  }

  lemma ShortIff(ws: seq<World>, es: seq<Event>, n: nat, c: ClientId)
    requires IsRun(ws, es) && n <= |es|
    ensures ShortIn(ws[n], c) <==> exists i :: 0 <= i < n && Shortens(ws[i].s, es[i], c)
  {
    forall i | 0 <= i < n ensures ShortIn(ws[i + 1], c) <==> ShortIn(ws[i], c) || Shortens(ws[i].s, es[i], c) {
      AnswersAt(ws, es, i, c);
    }
    Runs.RaisedIff((w: World) => ShortIn(w, c), (w: World, e: Event) => Shortens(w.s, e, c), ws, es, n);
  }

  lemma ClosedIsAnswered(w: World, c: ClientId)
    requires Safe(w) && c in w.log.turnedAway && c in w.log.closed
    ensures Answered(w.s.accept, w.log.turnedAway, c) && c in w.s.socks
  {
    TurnedAwayIsKnown(w.s, w.log, c);
    if Hand(w.s.accept) == Some(c) { HandIsNotClosed(w.s, w.log); }
  }

  /** A client that was turned away and closed has been sent nothing exactly if the slot was empty at the unlocked read or
      the first write of the rejection failed, and the whole rejection exactly if neither that read found the slot empty
      nor any write failed. */
  lemma AnswerIff(ws: seq<World>, es: seq<Event>, n: nat, c: ClientId)
    requires IsRun(ws, es) && n <= |es| && c in ws[n].log.turnedAway && c in ws[n].log.closed
    ensures c in ws[n].s.socks
    ensures ws[n].s.socks[c].down.sent == [] <==> exists i :: 0 <= i < n && Silences(ws[i].s, es[i], c)
    ensures ws[n].s.socks[c].down.sent == REJECT_MESSAGE <==> !exists i :: 0 <= i < n && Shortens(ws[i].s, es[i], c)
  {
    SafeAlong(ws, es, n);
    ClosedIsAnswered(ws[n], c);
    SilentIff(ws, es, n, c);
    ShortIff(ws, es, n, c);
  }
}

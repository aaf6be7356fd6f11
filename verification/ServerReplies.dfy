/** What the server sends back: to rejected clients a prefix of the rejection message, to everyone else nothing. */
module ServerReplies {
  import opened Streams
  import opened Server
  import opened ServerControl
  import opened ServerPlaces

  ghost predicate Rejected(rejections: seq<Rejection>, c: ClientId) {
    exists i :: 0 <= i < |rejections| && rejections[i].client == c
  }

  /** The decision was taken against another client, whose descriptor is in the slot while the connection thread owns
      the mutex: it is about to start that client's session, or in it. */
  predicate Justified(r: Rejection) {
    && r.holder != r.client
    && r.owner == Some(ConnThread)
    && (r.conn == CCheck || InSession(r.conn))
  }

  ghost predicate ReplyInv(accept: AcceptPc, l: Log, socks: map<ClientId, Socket>) {
    DecisionInv(accept, l) && MessageInv(accept, l.rejections, socks)
  }

  /** Who was turned away, and whom the server decided to reject. */
  ghost predicate DecisionInv(accept: AcceptPc, l: Log) {
    && (forall i :: 0 <= i < |l.rejections| ==> Justified(l.rejections[i]))
    && (forall i :: 0 <= i < |l.rejections| ==>
          var c := l.rejections[i].client;
          c in l.closed || (accept.AReject? && accept.c == c) || (accept.AClose? && accept.c == c))
    && (forall c :: c in l.turnedAway ==>
          c in l.closed || ((accept.ARead? || accept.AReject? || accept.AClose?) && accept.c == c))
    && (accept.ARead? || accept.AReject? || accept.AClose? ==> accept.c in l.turnedAway)
    && (forall i :: 0 <= i < |l.rejections| ==> l.rejections[i].client in l.turnedAway)
    && (accept.AReject? ==> Rejected(l.rejections, accept.c))
  }

  /** What they were sent. */
  ghost predicate MessageInv(accept: AcceptPc, rejections: seq<Rejection>, socks: map<ClientId, Socket>) {
    && (forall c :: c in socks ==> socks[c].down.sent <= REJECT_MESSAGE)
    && (forall c :: c in socks && !Rejected(rejections, c) ==> socks[c].down.sent == [])
    && (accept.AReject? && accept.c in socks ==>
          accept.n <= |REJECT_MESSAGE| && socks[accept.c].down.sent == REJECT_MESSAGE[..accept.n])
  }

  lemma RejectedGrows(rejections: seq<Rejection>, r: Rejection, c: ClientId)
    ensures Rejected(rejections + [r], c) <==> Rejected(rejections, c) || r.client == c
  {
    if Rejected(rejections, c) {
      var i :| 0 <= i < |rejections| && rejections[i].client == c;
      assert (rejections + [r])[i].client == c;
    }
    assert (rejections + [r])[|rejections|] == r;
  }

  lemma HandIsNotClosed(s: State, l: Log)
    requires ConserveInv(s, l) && Hand(s.accept).Some?
    ensures Hand(s.accept).value !in l.closed && s.box.slot != Hand(s.accept)
  {
    var c := Hand(s.accept).value;
    assert PlacesOf(s, l, c);
    CountPositive(l.closed, c);
  }

  lemma DecisionKeepsReplies(s: State, l: Log)
    requires BoxInv(s.accept, s.conn, s.box) && ConserveInv(s, l) && ReplyInv(s.accept, l, s.socks)
    requires s.accept.ARead? && s.accept.c in s.socks
    ensures ReplyInv(AcceptApply(s, ReadSlot).accept, ObserveAccept(l, s, ReadSlot), s.socks)
  {
    HandIsNotClosed(s, l);
    if s.box.slot.Some? {
      var r := Rejection(s.accept.c, s.box.slot.value, s.box.owner, s.conn);
      forall c ensures Rejected(l.rejections + [r], c) <==> Rejected(l.rejections, c) || r.client == c {
        RejectedGrows(l.rejections, r, c);
      }
    }
  }

  lemma RejectWriteKeepsReplies(c: ClientId, n: nat, k: nat, l: Log, socks: map<ClientId, Socket>)
    requires ReplyInv(AReject(c, n), l, socks) && c in socks && 1 <= k && n + k <= |REJECT_MESSAGE|
    ensures
      var socks' := socks[c := socks[c].(down := socks[c].down.Push(REJECT_MESSAGE[n..n + k]))];
      ReplyInv(if n + k == |REJECT_MESSAGE| then AClose(c) else AReject(c, n + k), l, socks')
  {
    assert REJECT_MESSAGE[..n] + REJECT_MESSAGE[n..n + k] == REJECT_MESSAGE[..n + k];
  }

  lemma MessageKeepsReplies(s: State, l: Log, e: AcceptEvent)
    requires ReplyInv(s.accept, l, s.socks) && AcceptEnabled(s, e) && e.RejectWrite? && s.accept.c in s.socks
    ensures var s' := AcceptApply(s, e); ReplyInv(s'.accept, ObserveAccept(l, s, e), s'.socks)
  {
    RejectWriteKeepsReplies(s.accept.c, s.accept.n, e.k, l, s.socks);
  }

  lemma CloseKeepsReplies(s: State, l: Log)
    requires ReplyInv(s.accept, l, s.socks) && s.accept.AClose?
    ensures var s' := AcceptApply(s, CloseClient); ReplyInv(s'.accept, ObserveAccept(l, s, CloseClient), s'.socks)
  {
  }

  lemma HandoffKeepsReplies(s: State, l: Log, e: AcceptEvent)
    requires ReplyInv(s.accept, l, s.socks) && AcceptEnabled(s, e)
    requires e != ReadSlot && !e.RejectWrite? && e != CloseClient
    ensures var s' := AcceptApply(s, e); ReplyInv(s'.accept, ObserveAccept(l, s, e), s'.socks)
  {
  }

  lemma AcceptKeepsReplies(s: State, l: Log, e: AcceptEvent)
    requires BoxInv(s.accept, s.conn, s.box) && KnownInv(s.accept, s.conn, s.box.slot, s.backlog, s.socks)
    requires ConserveInv(s, l) && ReplyInv(s.accept, l, s.socks) && AcceptEnabled(s, e)
    ensures var s' := AcceptApply(s, e); ReplyInv(s'.accept, ObserveAccept(l, s, e), s'.socks)
  {
    match e
    case ReadSlot => DecisionKeepsReplies(s, l);
    case RejectWrite(_) => MessageKeepsReplies(s, l, e);
    case CloseClient => CloseKeepsReplies(s, l);
    case _ => HandoffKeepsReplies(s, l, e);
  }

  /** Steps that leave the accept thread's rejection branch and what was sent back alone. */
  lemma FrameKeepsReplies(accept: AcceptPc, accept': AcceptPc, l: Log, l': Log, socks: map<ClientId, Socket>,
                          socks': map<ClientId, Socket>)
    requires ReplyInv(accept, l, socks)
    requires accept' == accept || (Hand(accept) == None && Hand(accept') == None)
    requires accept.AReject? ==> accept.c in socks
    requires l'.rejections == l.rejections && l'.turnedAway == l.turnedAway && l.closed <= l'.closed
    requires forall c :: c in socks ==> c in socks'
    requires forall c :: c in socks' ==> socks'[c].down.sent == if c in socks then socks[c].down.sent else []
    ensures ReplyInv(accept', l', socks')
  {
    FrameKeepsDecisions(accept, accept', l, l');
    FrameKeepsMessages(accept, accept', l.rejections, socks, socks');
  }

  lemma FrameKeepsDecisions(accept: AcceptPc, accept': AcceptPc, l: Log, l': Log)
    requires DecisionInv(accept, l)
    requires accept' == accept || (Hand(accept) == None && Hand(accept') == None)
    requires l'.rejections == l.rejections && l'.turnedAway == l.turnedAway && l.closed <= l'.closed
    ensures DecisionInv(accept', l')
  {
  }

  lemma FrameKeepsMessages(accept: AcceptPc, accept': AcceptPc, rejections: seq<Rejection>, socks: map<ClientId, Socket>,
                           socks': map<ClientId, Socket>)
    requires MessageInv(accept, rejections, socks)
    requires accept' == accept || (Hand(accept) == None && Hand(accept') == None)
    requires accept.AReject? ==> accept.c in socks
    requires forall c :: c in socks ==> c in socks'
    requires forall c :: c in socks' ==> socks'[c].down.sent == if c in socks then socks[c].down.sent else []
    ensures MessageInv(accept', rejections, socks')
  {
  }
}

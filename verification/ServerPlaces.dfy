/** Which place holds the descriptor of each client. */
module ServerPlaces {
  import opened Streams
  import opened Server
  import opened ServerControl

  /** The descriptor in the accept thread's hand: accepted, neither stored nor closed yet. */
  function Hand(accept: AcceptPc): Option<ClientId> {
    match accept
    case ATry(c) => Some(c)
    case AStore(c) => Some(c)
    case ARead(c) => Some(c)
    case AReject(c, _) => Some(c)
    case AClose(c) => Some(c)
    case _ => None
  }

  /** The descriptor that the connection thread took out of the slot to close it. */
  function Closing(conn: ConnPc): Option<ClientId> {
    if conn.CUnlock? || conn.CClose? then Some(conn.c) else None
  }

  function Is(place: Option<ClientId>, c: ClientId): nat {
    if place == Some(c) then 1 else 0
  }

  function Count(l: seq<ClientId>, c: ClientId): nat {
    multiset(l)[c]
  }

  /** How many places hold the descriptor of client `c`. */
  function Places(hand: Option<ClientId>, slot: Option<ClientId>, closing: Option<ClientId>, closed: seq<ClientId>,
                  displaced: seq<ClientId>, c: ClientId): nat
  {
    Is(hand, c) + Is(slot, c) + Is(closing, c) + Count(closed, c) + Count(displaced, c)
  }

  ghost predicate PlacesOf(s: State, l: Log, c: ClientId) {
    Count(l.accepted, c) == Places(Hand(s.accept), s.box.slot, Closing(s.conn), l.closed, l.displaced, c)
  }

  ghost predicate PlacesInv(s: State, l: Log) {
    forall c :: PlacesOf(s, l, c)
  }

  ghost predicate ArrivalInv(accepted: seq<ClientId>, backlog: seq<ClientId>, socks: map<ClientId, Socket>) {
    forall c :: Count(accepted, c) + Count(backlog, c) == if c in socks then 1 else 0
  }

  lemma CountAppend(l: seq<ClientId>, x: ClientId, c: ClientId)
    ensures Count(l + [x], c) == Count(l, c) + Is(Some(x), c)
  {
  }

  ghost predicate ShutInv(closed: seq<ClientId>, socks: map<ClientId, Socket>) {
    forall c :: c in socks ==> (socks[c].down.shut <==> c in closed)
  }

  ghost predicate ConserveInv(s: State, l: Log) {
    && PlacesInv(s, l)
    && ArrivalInv(l.accepted, s.backlog, s.socks)
    && ShutInv(l.closed, s.socks)
  }

  lemma CountPositive(l: seq<ClientId>, c: ClientId)
    ensures Count(l, c) > 0 <==> c in l
  {
  }

  lemma AcceptOkKeepsPlacesOf(s: State, l: Log, c: ClientId)
    requires AcceptEnabled(s, AcceptOk) && PlacesOf(s, l, c)
    ensures PlacesOf(AcceptApply(s, AcceptOk), ObserveAccept(l, s, AcceptOk), c)
  {
    CountAppend(l.accepted, s.backlog[0], c);
  }

  lemma StoreKeepsPlacesOf(s: State, l: Log, c: ClientId)
    requires AcceptEnabled(s, Store) && PlacesOf(s, l, c)
    ensures PlacesOf(AcceptApply(s, Store), ObserveAccept(l, s, Store), c)
  {
    if s.box.slot.Some? { CountAppend(l.displaced, s.box.slot.value, c); }
  }

  lemma CloseKeepsPlacesOf(s: State, l: Log, c: ClientId)
    requires AcceptEnabled(s, CloseClient) && PlacesOf(s, l, c)
    ensures PlacesOf(AcceptApply(s, CloseClient), ObserveAccept(l, s, CloseClient), c)
  {
    CountAppend(l.closed, s.accept.c, c);
  }

  lemma AcceptKeepsPlacesOf(s: State, l: Log, e: AcceptEvent, c: ClientId)
    requires AcceptEnabled(s, e) && PlacesOf(s, l, c)
    ensures PlacesOf(AcceptApply(s, e), ObserveAccept(l, s, e), c)
  {
    match e
    case AcceptOk => AcceptOkKeepsPlacesOf(s, l, c);
    case Store => StoreKeepsPlacesOf(s, l, c);
    case CloseClient => CloseKeepsPlacesOf(s, l, c);
    case AcceptFail =>
    case TryLock =>
    case UnlockBox =>
    case Signal =>
    case ReadSlot =>
    case RejectWrite(_) =>
    case RejectFail =>
  }

  lemma ConnKeepsPlacesOf(s: State, l: Log, e: ConnEvent, c: ClientId)
    requires ConnEnabled(s, e) && PlacesOf(s, l, c)
    ensures PlacesOf(ConnApply(s, e), ObserveConn(l, s, e), c)
  {
    if e == Close { CountAppend(l.closed, s.conn.c, c); }
  }

  lemma AcceptKeepsArrival(s: State, l: Log, e: AcceptEvent)
    requires AcceptEnabled(s, e) && ArrivalInv(l.accepted, s.backlog, s.socks)
    ensures var s' := AcceptApply(s, e); ArrivalInv(ObserveAccept(l, s, e).accepted, s'.backlog, s'.socks)
  {
    if e == AcceptOk {
      var b := s.backlog;
      assert b == [b[0]] + b[1..];
      forall c ensures Count(b, c) == Is(Some(b[0]), c) + Count(b[1..], c) {}
      forall c ensures Count(l.accepted + [b[0]], c) == Count(l.accepted, c) + Is(Some(b[0]), c) {}
    }
  }

  lemma AcceptKeepsShut(s: State, l: Log, e: AcceptEvent)
    requires AcceptEnabled(s, e) && ShutInv(l.closed, s.socks)
    requires KnownInv(s.accept, s.conn, s.box.slot, s.backlog, s.socks)
    ensures ShutInv(ObserveAccept(l, s, e).closed, AcceptApply(s, e).socks)
  {
  }

  lemma ConnKeepsShut(s: State, l: Log, e: ConnEvent)
    requires ConnEnabled(s, e) && ShutInv(l.closed, s.socks)
    requires KnownInv(s.accept, s.conn, s.box.slot, s.backlog, s.socks)
    ensures ShutInv(ObserveConn(l, s, e).closed, ConnApply(s, e).socks)
  {
  }

  lemma EnvKeepsArrival(s: State, l: Log, e: EnvEvent)
    requires EnvEnabled(s, e) && ArrivalInv(l.accepted, s.backlog, s.socks)
    ensures var s' := EnvApply(s, e); ArrivalInv(l.accepted, s'.backlog, s'.socks)
  {
    if e.Connect? {
      forall c ensures Count(s.backlog + [e.c], c) == Count(s.backlog, c) + Is(Some(e.c), c) {}
    }
  }

  lemma EnvKeepsConserve(s: State, l: Log, e: EnvEvent)
    requires ConserveInv(s, l) && EnvEnabled(s, e)
    ensures ConserveInv(EnvApply(s, e), l)
  {
    EnvKeepsArrival(s, l, e);
    forall c ensures PlacesOf(EnvApply(s, e), l, c) { assert PlacesOf(s, l, c); }
    assert e.Connect? ==> Count(l.accepted, e.c) == 0 && PlacesOf(s, l, e.c);
  }

  lemma AcceptKeepsConserve(s: State, l: Log, e: AcceptEvent)
    requires ControlInv(s) && ConserveInv(s, l) && AcceptEnabled(s, e)
    ensures ConserveInv(AcceptApply(s, e), ObserveAccept(l, s, e))
  {
    AcceptKeepsArrival(s, l, e);
    AcceptKeepsShut(s, l, e);
    forall c ensures PlacesOf(AcceptApply(s, e), ObserveAccept(l, s, e), c) {
      AcceptKeepsPlacesOf(s, l, e, c);
    }
  }

  lemma ConnKeepsConserve(s: State, l: Log, e: ConnEvent)
    requires ControlInv(s) && ConserveInv(s, l) && ConnEnabled(s, e)
    ensures ConserveInv(ConnApply(s, e), ObserveConn(l, s, e))
  {
    ConnKeepsShut(s, l, e);
    forall c ensures PlacesOf(ConnApply(s, e), ObserveConn(l, s, e), c) {
      ConnKeepsPlacesOf(s, l, e, c);
    }
  }

  lemma GateKeepsConserve(s: State, l: Log, t: Thread, e: GateEvent)
    requires ConserveInv(s, l) && GateEnabled(s, t, e)
    ensures ConserveInv(GateApply(s, t, e), l)
  {
    forall c ensures PlacesOf(GateApply(s, t, e), l, c) { assert PlacesOf(s, l, c); }
  }

  lemma MainKeepsConserve(s: State, l: Log, e: MainEvent)
    requires ConserveInv(s, l) && MainEnabled(s, e)
    ensures ConserveInv(MainApply(s, e), l)
  {
    forall c ensures PlacesOf(MainApply(s, e), l, c) { assert PlacesOf(s, l, c); }
  }
}

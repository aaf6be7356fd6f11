/** The handoff of a client from the accept thread to the connection thread: progress, displacement, silent drops. */
module ServerHandoff {
  import opened Streams
  import opened Server
  import opened ServerControl
  import opened ServerPlaces
  import opened ServerReplies
  import opened ServerSafety
  import Runs

  // ---------------------------------------------------------------- a stored client is picked up

  /** A client is stored, its signal has been given or was not needed, and no session has begun. */
  predicate Handed(s: State) {
    && s.box.slot.Some?
    && ConnThread !in s.box.waiting
    && (s.conn.CClose? || s.conn == CLock || s.conn == CBlocked || s.conn == CCheck)
  }

  /** Once the accept thread has signalled, a client in the slot is handed over or already served. */
  lemma SignalHandsOver(s: State)
    requires BoxInv(s.accept, s.conn, s.box) && AcceptEnabled(s, Signal)
    ensures var s' := AcceptApply(s, Signal);
            s'.box.slot == s.box.slot && (s'.box.slot.Some? ==> Handed(s') || InSession(s'.conn))
  {
  }

  /** How many steps of its own the connection thread is away from the pickup. */
  function PickupRank(conn: ConnPc): nat {
    match conn
    case CClose(_) => 3
    case CLock => 2
    case CBlocked => 2
    case CCheck => 1
    case _ => 0
  }

  predicate PicksUp(s: State, e: Event) {
    e == OfConn(Check) && s.box.slot.Some?
  }

  /** One step later: picked up, or still handed over and no further from it. Only a store changes the slot. */
  predicate NearsPickup(s: State, l: Log, ofConn: bool, s': State, l': Log) {
    && Handed(s')
    && PickupRank(s'.conn) <= PickupRank(s.conn)
    && (ofConn ==> PickupRank(s'.conn) < PickupRank(s.conn))
    && l.displaced <= l'.displaced
    && (s'.box.slot != s.box.slot ==> s.box.slot.Some? && s.box.slot.value in l'.displaced)
  }

  lemma ConnNearsPickup(s: State, l: Log, e: ConnEvent)
    requires BoxInv(s.accept, s.conn, s.box) && ConnEnabled(s, e) && Handed(s)
    ensures var s', l' := ConnApply(s, e), ObserveConn(l, s, e);
            if e == Check then InSession(s'.conn) && s'.box == s.box else NearsPickup(s, l, true, s', l')
  {
  }

  lemma AcceptNearsPickup(s: State, l: Log, e: AcceptEvent)
    requires BoxInv(s.accept, s.conn, s.box) && AcceptEnabled(s, e) && Handed(s)
    ensures NearsPickup(s, l, false, AcceptApply(s, e), ObserveAccept(l, s, e))
  {
  }

  predicate LeavesHandoff(s: State, s': State) {
    && s'.conn == s.conn && s'.box.slot == s.box.slot && s'.box.waiting <= s.box.waiting
    && s'.box.owner == s.box.owner
    && (s'.accept == s.accept || (s.accept.AGate? && !s'.accept.AStore?))
  }

  lemma EnvLeavesHandoff(s: State, e: EnvEvent)
    requires EnvEnabled(s, e)
    ensures LeavesHandoff(s, EnvApply(s, e))
  {
  }

  lemma GateLeavesHandoff(s: State, t: Thread, e: GateEvent)
    requires GateEnabled(s, t, e)
    ensures LeavesHandoff(s, GateApply(s, t, e))
  {
  }

  lemma OthersLeaveHandoff(w: World, e: Event, w': World)
    requires Step(w, e, w') && !e.OfAccept? && !e.OfConn?
    ensures LeavesHandoff(w.s, w'.s) && w'.log == w.log
  {
    match e
    case OfEnv(env) => EnvLeavesHandoff(w.s, env);
    case OfGate(t, gate) => GateLeavesHandoff(w.s, t, gate);
    case _ =>
  }

  lemma HandedUntilPickedUp(w: World, e: Event, w': World)
    requires BoxInv(w.s.accept, w.s.conn, w.s.box) && Step(w, e, w') && Handed(w.s)
    ensures if PicksUp(w.s, e) then InSession(w'.s.conn) else NearsPickup(w.s, w.log, e.OfConn?, w'.s, w'.log)
  {
    match e
    case OfConn(conn) => ConnNearsPickup(w.s, w.log, conn);
    case OfAccept(accept) => AcceptNearsPickup(w.s, w.log, accept);
    case _ => OthersLeaveHandoff(w, e, w');
  }

  /** How many steps the accept thread still holds the slot mutex. */
  function HoldRank(accept: AcceptPc): nat {
    match accept
    case AStore(_) => 2
    case AUnlock => 1
    case _ => 0
  }

  /** The pickup is never blocked: the connection thread can move, or the accept thread holds the mutex and its own
      next step, which nothing blocks, brings the release closer. */
  lemma PickupIsNotBlocked(s: State)
    requires ControlInv(s) && Handed(s)
    ensures
      || ConnEnabled(s, Close) || ConnEnabled(s, Lock) || ConnEnabled(s, Wake) || ConnEnabled(s, Check)
      || (AcceptEnabled(s, Store) && HoldRank(AcceptApply(s, Store).accept) < HoldRank(s.accept))
      || (AcceptEnabled(s, UnlockBox) && HoldRank(AcceptApply(s, UnlockBox).accept) < HoldRank(s.accept))
  {
  }

  /** The number of steps of the connection thread among events i to j. */
  function ConnSteps(es: seq<Event>, i: nat, j: nat): nat
    requires i <= j <= |es|
    decreases j - i
  {
    if i == j then 0 else (if es[i].OfConn? then 1 else 0) + ConnSteps(es, i + 1, j)
  }

  lemma BoxAlong(ws: seq<World>, es: seq<Event>, i: nat)
    requires IsRun(ws, es) && i <= |es|
    ensures BoxInv(ws[i].s.accept, ws[i].s.conn, ws[i].s.box)
    ensures i < |es| ==> Step(ws[i], es[i], ws[i + 1])
  {
    SafeAlong(ws, es, i);
  }

  /** In any run, once a client is handed over, three steps of the connection thread at most begin a session: with that
      client, or with one that displaced it. */
  lemma {:induction false} HandedClientIsPickedUp(ws: seq<World>, es: seq<Event>, i: nat, j: nat) returns (k: nat)
    requires IsRun(ws, es) && i <= j <= |es| && Handed(ws[i].s)
    requires ConnSteps(es, i, j) >= PickupRank(ws[i].s.conn)
    ensures i <= k < j && PicksUp(ws[k].s, es[k]) && InSession(ws[k + 1].s.conn)
    ensures ws[k].s.box.slot == ws[i].s.box.slot || ws[i].s.box.slot.value in ws[k].log.displaced
    ensures ws[i].log.displaced <= ws[k].log.displaced
    decreases j - i
  {
    BoxAlong(ws, es, i);
    assert i < j;
    HandedUntilPickedUp(ws[i], es[i], ws[i + 1]);
    if PicksUp(ws[i].s, es[i]) {
      k := i;
    } else {
      k := HandedClientIsPickedUp(ws, es, i + 1, j);
    }
  }

  // ---------------------------------------------------------------- displacement

  predicate LocksOver(s: State, e: Event, d: ClientId) {
    e == OfAccept(TryLock) && s.accept.ATry? && s.box.owner == None && s.box.slot == Some(d)
  }

  /** Displaced, or about to be: the accept thread holds the mutex to store over it. */
  predicate Doomed(accept: AcceptPc, slot: Option<ClientId>, displaced: seq<ClientId>, d: ClientId) {
    d in displaced || (accept.AStore? && slot == Some(d))
  }

  predicate DoomedIn(w: World, d: ClientId) {
    Doomed(w.s.accept, w.s.box.slot, w.log.displaced, d)
  }

  lemma AcceptDooms(s: State, l: Log, e: AcceptEvent, d: ClientId)
    requires AcceptEnabled(s, e)
    ensures var s', l' := AcceptApply(s, e), ObserveAccept(l, s, e);
            Doomed(s'.accept, s'.box.slot, l'.displaced, d)
            <==> Doomed(s.accept, s.box.slot, l.displaced, d) || LocksOver(s, OfAccept(e), d)
  {
  }

  lemma ConnDoomsNobody(s: State, l: Log, e: ConnEvent, d: ClientId)
    requires BoxInv(s.accept, s.conn, s.box) && ConnEnabled(s, e)
    ensures var s', l' := ConnApply(s, e), ObserveConn(l, s, e);
            Doomed(s'.accept, s'.box.slot, l'.displaced, d) <==> Doomed(s.accept, s.box.slot, l.displaced, d)
  {
  }

  lemma DoomedByLock(w: World, e: Event, w': World, d: ClientId)
    requires BoxInv(w.s.accept, w.s.conn, w.s.box) && Step(w, e, w')
    ensures DoomedIn(w', d) <==> DoomedIn(w, d) || LocksOver(w.s, e, d)
  {
    match e
    case OfAccept(accept) => AcceptDooms(w.s, w.log, accept, d);
    case OfConn(conn) => ConnDoomsNobody(w.s, w.log, conn, d);
    case _ => OthersLeaveHandoff(w, e, w');
  }

  lemma DoomedAt(ws: seq<World>, es: seq<Event>, i: nat, d: ClientId)
    requires IsRun(ws, es) && i < |es|
    ensures DoomedIn(ws[i + 1], d) <==> DoomedIn(ws[i], d) || LocksOver(ws[i].s, es[i], d)
  {
    BoxAlong(ws, es, i);
    DoomedByLock(ws[i], es[i], ws[i + 1], d);
  }

  /** A client is lost exactly when a later trylock succeeds while it is still in the slot. */
  lemma DisplacedIff(ws: seq<World>, es: seq<Event>, n: nat, d: ClientId)
    requires IsRun(ws, es) && n <= |es|
    ensures DoomedIn(ws[n], d) <==> exists i :: 0 <= i < n && LocksOver(ws[i].s, es[i], d)
  {
    forall i | 0 <= i < n ensures DoomedIn(ws[i + 1], d) <==> DoomedIn(ws[i], d) || LocksOver(ws[i].s, es[i], d) {
      DoomedAt(ws, es, i, d);
    }
    Runs.RaisedIff((w: World) => DoomedIn(w, d), (w: World, e: Event) => LocksOver(w.s, e, d), ws, es, n);
  }

  /** So if every trylock that succeeds finds the slot empty, no accepted client is lost. */
  lemma NobodyIsLost(ws: seq<World>, es: seq<Event>)
    requires IsRun(ws, es)
    requires forall i, d :: 0 <= i < |es| ==> !LocksOver(ws[i].s, es[i], d)
    ensures ws[|es|].log.displaced == []
  {
    var displaced := ws[|es|].log.displaced;
    if displaced != [] {
      DisplacedIff(ws, es, |es|, displaced[0]);
    }
  }

  // ---------------------------------------------------------------- silent drops

  predicate Drops(s: State, e: Event, c: ClientId) {
    e == OfAccept(ReadSlot) && s.accept == ARead(c) && s.box.slot == None
  }

  /** Turned away by the trylock, the slot already read, and no rejection decided. */
  ghost predicate Ignored(accept: AcceptPc, l: Log, c: ClientId) {
    c in l.turnedAway && accept != ARead(c) && !Rejected(l.rejections, c)
  }

  ghost predicate IgnoredIn(w: World, c: ClientId) {
    Ignored(w.s.accept, w.log, c)
  }

  lemma AcceptIgnores(s: State, l: Log, e: AcceptEvent, c: ClientId)
    requires AcceptEnabled(s, e) && ConserveInv(s, l) && ReplyInv(s.accept, l, s.socks)
    ensures Ignored(AcceptApply(s, e).accept, ObserveAccept(l, s, e), c)
            <==> Ignored(s.accept, l, c) || Drops(s, OfAccept(e), c)
  {
    if Hand(s.accept).Some? { HandIsNotClosed(s, l); }
    if e == ReadSlot && s.box.slot.Some? {
      RejectedGrows(l.rejections, Rejection(s.accept.c, s.box.slot.value, s.box.owner, s.conn), c);
    }
  }

  lemma ConnIgnoresNobody(s: State, l: Log, e: ConnEvent, c: ClientId)
    requires ConnEnabled(s, e)
    ensures Ignored(ConnApply(s, e).accept, ObserveConn(l, s, e), c) <==> Ignored(s.accept, l, c)
  {
  }

  lemma IgnoredByDrop(w: World, e: Event, w': World, c: ClientId)
    requires ConserveInv(w.s, w.log) && ReplyInv(w.s.accept, w.log, w.s.socks) && Step(w, e, w')
    ensures Ignored(w'.s.accept, w'.log, c) <==> Ignored(w.s.accept, w.log, c) || Drops(w.s, e, c)
  {
    match e
    case OfAccept(accept) => AcceptIgnores(w.s, w.log, accept, c);
    case OfConn(conn) => ConnIgnoresNobody(w.s, w.log, conn, c);
    case _ => OthersLeaveHandoff(w, e, w');
  }

  lemma IgnoredAt(ws: seq<World>, es: seq<Event>, i: nat, c: ClientId)
    requires IsRun(ws, es) && i < |es|
    ensures IgnoredIn(ws[i + 1], c) <==> IgnoredIn(ws[i], c) || Drops(ws[i].s, es[i], c)
  {
    SafeAlong(ws, es, i);
    assert Step(ws[i], es[i], ws[i + 1]);
    IgnoredByDrop(ws[i], es[i], ws[i + 1], c);
  }

  /** A client that was turned away gets no rejection exactly when the slot was empty at the unlocked read. */
  lemma IgnoredIff(ws: seq<World>, es: seq<Event>, n: nat, c: ClientId)
    requires IsRun(ws, es) && n <= |es|
    ensures IgnoredIn(ws[n], c) <==> exists i :: 0 <= i < n && Drops(ws[i].s, es[i], c)
  {
    forall i | 0 <= i < n ensures IgnoredIn(ws[i + 1], c) <==> IgnoredIn(ws[i], c) || Drops(ws[i].s, es[i], c) {
      IgnoredAt(ws, es, i, c);
    }
    Runs.RaisedIff((w: World) => IgnoredIn(w, c), (w: World, e: Event) => Drops(w.s, e, c), ws, es, n);
  }
}

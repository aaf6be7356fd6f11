/**
 One server and any number of clients over FIFO sockets. A client's step moves its socket, which the server sees as a
 move of its peer, and the other way round; the end-to-end theorems follow from the two step systems' invariants.
 */
module EndToEnd {
  import opened Streams
  import Server
  import Client
  import ServerControl
  import ServerPlaces
  import ServerStreams
  import ServerReplies
  import ServerSafety
  import ClientInvariant
  import Runs

  type ClientId = Server.ClientId

  datatype System = System(w: Server.World, clients: map<ClientId, Client.State>)

  const START := System(Server.START, map[])

  datatype Event =
    | Start(c: ClientId, input: seq<byte>)
    | ServerGoes(e: Server.Event)
    | ClientGoes(c: ClientId, move: Client.Event)

  /** The clients see what happened to their sockets. */
  ghost function Seen(clients: map<ClientId, Client.State>, socks: map<ClientId, Socket>): map<ClientId, Client.State> {
    map c | c in clients :: if c in socks then clients[c].(sock := socks[c]) else clients[c]
  }

  ghost predicate Step(y: System, e: Event, y': System) {
    match e
    case Start(c, input) =>
      && Server.Step(y.w, Server.OfEnv(Server.Connect(c)), y'.w)
      && y'.clients == y.clients[c := Client.Init(input)]
    case ServerGoes(e) =>
      && !Server.AboutClients(e)
      && Server.Step(y.w, e, y'.w)
      && y'.clients == Seen(y.clients, y'.w.s.socks)
    case ClientGoes(c, move) =>
      && c in y.clients && c in y'.clients && !move.Peer?
      && Client.Step(y.clients[c], move, y'.clients[c])
      && y'.clients == y.clients[c := y'.clients[c]]
      && Server.Step(y.w, Server.OfEnv(Server.Peer(c, y'.clients[c].sock)), y'.w)
  }

  ghost predicate Reachable(y: System) {
    Runs.Reachable(START, Step, y)
  }

  ghost predicate Agree(clients: map<ClientId, Client.State>, socks: map<ClientId, Socket>) {
    && clients.Keys == socks.Keys
    && forall c :: c in clients ==> clients[c].sock == socks[c] && ClientInvariant.ClientInv(clients[c])
  }

  ghost predicate SystemInv(y: System) {
    ServerSafety.Safe(y.w) && Agree(y.clients, y.w.s.socks)
  }

  // ---------------------------------------------------------------- each side moves its own end only

  lemma AcceptMovesSockets(s: Server.State, l: Server.Log, e: Server.AcceptEvent)
    requires Server.AcceptEnabled(s, e) && ServerPlaces.ConserveInv(s, l)
    ensures
      var s' := Server.AcceptApply(s, e);
      s'.socks.Keys == s.socks.Keys && forall c :: c in s.socks ==> ServerMoves(s.socks[c], s'.socks[c])
  {
    if ServerPlaces.Hand(s.accept).Some? { ServerReplies.HandIsNotClosed(s, l); }
  }

  lemma ClosingIsNotClosed(s: Server.State, l: Server.Log)
    requires ServerPlaces.ConserveInv(s, l) && s.conn.CClose?
    ensures s.conn.c !in l.closed
  {
    assert ServerPlaces.PlacesOf(s, l, s.conn.c);
    ServerPlaces.CountPositive(l.closed, s.conn.c);
  }

  lemma ConnMovesSockets(s: Server.State, l: Server.Log, e: Server.ConnEvent)
    requires Server.ConnEnabled(s, e) && ServerPlaces.ConserveInv(s, l)
    ensures
      var s' := Server.ConnApply(s, e);
      s'.socks.Keys == s.socks.Keys && forall c :: c in s.socks ==> ServerMoves(s.socks[c], s'.socks[c])
  {
    match e
    case Lock =>
    case Check =>
    case Wait =>
    case Wake =>
    case Read(k) =>
    case ReadEof =>
    case ReadFail =>
    case Write(k) =>
    case WriteFail =>
    case Clear =>
    case Release =>
    case Close => ClosingIsNotClosed(s, l);
  }

  lemma ServerMovesSockets(w: Server.World, e: Server.Event, w': Server.World)
    requires Server.Step(w, e, w') && !Server.AboutClients(e) && ServerPlaces.ConserveInv(w.s, w.log)
    ensures w'.s.socks.Keys == w.s.socks.Keys
    ensures forall c :: c in w.s.socks ==> ServerMoves(w.s.socks[c], w'.s.socks[c])
  {
    match e
    case OfAccept(accept) => AcceptMovesSockets(w.s, w.log, accept);
    case OfConn(conn) => ConnMovesSockets(w.s, w.log, conn);
    case _ =>
  }

  lemma ServerKeepsAgreement(clients: map<ClientId, Client.State>, socks: map<ClientId, Socket>,
                             socks': map<ClientId, Socket>)
    requires Agree(clients, socks) && socks'.Keys == socks.Keys
    requires forall c :: c in socks ==> ServerMoves(socks[c], socks'[c])
    ensures Agree(Seen(clients, socks'), socks')
  {
    forall c | c in clients ensures ClientInvariant.ClientInv(clients[c].(sock := socks'[c])) {
      ClientInvariant.PeerKeepsClient(clients[c], socks'[c]);
    }
  }

  lemma StartIsSystem()
    ensures SystemInv(START)
  {
    ServerSafety.StartIsSafe();
  }

  lemma ConnectionKeepsAgreement(clients: map<ClientId, Client.State>, socks: map<ClientId, Socket>, c: ClientId,
                                 input: seq<byte>)
    requires Agree(clients, socks)
    ensures Agree(clients[c := Client.Init(input)], socks[c := FRESH])
  {
    ClientInvariant.StartIsClient(input);
  }

  lemma ConnectKeepsSystem(y: System, c: ClientId, input: seq<byte>, y': System)
    requires SystemInv(y) && Step(y, Start(c, input), y')
    ensures SystemInv(y')
  {
    ServerSafety.StepKeepsSafe(y.w, Server.OfEnv(Server.Connect(c)), y'.w);
    ConnectionKeepsAgreement(y.clients, y.w.s.socks, c, input);
  }

  lemma ServerKeepsSystem(y: System, e: Server.Event, y': System)
    requires SystemInv(y) && Step(y, ServerGoes(e), y')
    ensures SystemInv(y')
  {
    ServerSafety.StepKeepsSafe(y.w, e, y'.w);
    ServerMovesSockets(y.w, e, y'.w);
    ServerKeepsAgreement(y.clients, y.w.s.socks, y'.w.s.socks);
  }

  lemma ClientKeepsAgreement(clients: map<ClientId, Client.State>, socks: map<ClientId, Socket>, c: ClientId,
                             client: Client.State)
    requires Agree(clients, socks) && c in clients && ClientInvariant.ClientInv(client)
    ensures Agree(clients[c := client], socks[c := client.sock])
  {
  }

  lemma ClientKeepsSystem(y: System, c: ClientId, move: Client.Event, y': System)
    requires SystemInv(y) && Step(y, ClientGoes(c, move), y')
    ensures SystemInv(y')
  {
    ServerSafety.StepKeepsSafe(y.w, Server.OfEnv(Server.Peer(c, y'.clients[c].sock)), y'.w);
    AgreedClient(y.clients, y.w.s.socks, c);
    ClientInvariant.StepKeepsClient(y.clients[c], move, y'.clients[c]);
    ClientKeepsAgreement(y.clients, y.w.s.socks, c, y'.clients[c]);
  }

  lemma AgreedClient(clients: map<ClientId, Client.State>, socks: map<ClientId, Socket>, c: ClientId)
    requires Agree(clients, socks) && c in clients
    ensures c in socks && clients[c].sock == socks[c] && ClientInvariant.ClientInv(clients[c])
  {
  }

  lemma StepKeepsSystem(y: System, e: Event, y': System)
    requires SystemInv(y) && Step(y, e, y')
    ensures SystemInv(y')
  {
    match e
    case Start(c, input) => ConnectKeepsSystem(y, c, input, y');
    case ServerGoes(e) => ServerKeepsSystem(y, e, y');
    case ClientGoes(c, move) => ClientKeepsSystem(y, c, move, y');
  }

  lemma SendMovesUp(s: Client.State, e: Client.SendEvent)
    requires Client.SendEnabled(s, e) && (s.send.SWriteIn? ==> !s.sock.up.shut)
    ensures ClientMoves(s.sock, Client.SendApply(s, e).sock)
  {
  }

  lemma ClientMovesItsEnd(s: Client.State, e: Client.Event, s': Client.State)
    requires Client.Step(s, e, s') && !e.Peer? && (s.send.SWriteIn? && !s.aborted ==> !s.sock.up.shut)
    ensures ClientMoves(s.sock, s'.sock)
  {
    match e
    case Spurious =>
    case Killed =>
    case OfMain(main) => MainLeavesSocket(s, main);
    case OfTeardown(teardown) => TeardownShutsUp(s, teardown);
    case OfSend(send) => SendMovesUp(s, send);
    case OfRecv(recv) => RecvMovesDown(s, recv);
  }

  lemma MainLeavesSocket(s: Client.State, e: Client.MainEvent)
    requires Client.MainEnabled(s, e)
    ensures Client.MainApply(s, e).sock == s.sock
  {
  }

  lemma TeardownShutsUp(s: Client.State, e: Client.TeardownEvent)
    requires Client.TeardownEnabled(s, e)
    ensures ClientMoves(s.sock, Client.TeardownApply(s, e).sock)
  {
  }

  lemma RecvMovesDown(s: Client.State, e: Client.RecvEvent)
    requires Client.RecvEnabled(s, e)
    ensures ClientMoves(s.sock, Client.RecvApply(s, e).sock)
  {
  }

  function WithSocket(w: Server.World, c: ClientId, sock: Socket): Server.World {
    Server.World(w.s.(socks := w.s.socks[c := sock]), w.log)
  }

  lemma PeerIsSeen(w: Server.World, c: ClientId, sock: Socket)
    requires c in w.s.socks && ClientMoves(w.s.socks[c], sock)
    ensures Server.Step(w, Server.OfEnv(Server.Peer(c, sock)), WithSocket(w, c, sock))
  {
  }

  /** The system after `y` in which nothing but client `c` has moved, to `s`. */
  function ClientMoved(y: System, c: ClientId, s: Client.State): System {
    System(WithSocket(y.w, c, s.sock), y.clients[c := s])
  }

  lemma ClientMovesIn(y: System, c: ClientId, move: Client.Event, s': Client.State)
    requires c in y.clients && c in y.w.s.socks && y.w.s.socks[c] == y.clients[c].sock && !move.Peer?
    requires Client.Step(y.clients[c], move, s') && ClientMoves(y.clients[c].sock, s'.sock)
    ensures Step(y, ClientGoes(c, move), ClientMoved(y, c, s'))
  {
    PeerIsSeen(y.w, c, s'.sock);
  }

  /** A client's step, in the system. */
  lemma ClientStepIsStep(y: System, c: ClientId, move: Client.Event, s': Client.State)
    requires SystemInv(y) && c in y.clients && !move.Peer? && Client.Step(y.clients[c], move, s')
    ensures Step(y, ClientGoes(c, move), ClientMoved(y, c, s'))
  {
    AgreedClient(y.clients, y.w.s.socks, c);
    WriterIsOpen(y.clients[c]);
    ClientMovesItsEnd(y.clients[c], move, s');
    ClientMovesIn(y, c, move, s');
  }

  /** The composition holds no client back: what a client can do alone, it can do in the system. */
  lemma ClientIsNotHeldBack(y: System, c: ClientId, move: Client.Event)
    requires SystemInv(y) && c in y.clients && !move.Peer? && Client.Enabled(y.clients[c], move)
    ensures exists y' :: Step(y, ClientGoes(c, move), y')
  {
    ClientStepIsStep(y, c, move, Client.Apply(y.clients[c], move));
  }

  lemma WriterIsOpen(s: Client.State)
    requires ClientInvariant.ClientInv(s)
    ensures s.send.SWriteIn? && !s.aborted ==> !s.sock.up.shut
  {
  }

  lemma SystemWhereReachable(y: System)
    requires Reachable(y)
    ensures SystemInv(y)
  {
    StartIsSystem();
    forall y, e, y' | SystemInv(y) && Step(y, e, y') ensures SystemInv(y') {
      StepKeepsSystem(y, e, y');
    }
    Runs.HoldsWhereReachable(START, Step, SystemInv, y);
  }

  // ---------------------------------------------------------------- theorems

  ghost predicate Returned(y: System, c: ClientId, status: Client.Status) {
    && c in y.clients && y.clients[c].main == Client.MReturned
    && Client.ReturnStatus(y.clients[c].snapshot) == status
  }

  /** The child's stdin is made of blocks of the clients' own inputs, one client each, nothing in between. */
  lemma ChildReadsWholeBlocks(y: System)
    requires Reachable(y)
    ensures y.w.s.childStdin == ServerStreams.Flatten(y.w.log.blocks) && ServerStreams.Distinct(y.w.log.blocks)
    ensures forall i :: 0 <= i < |y.w.log.blocks| ==>
              var b := y.w.log.blocks[i];
              b.client in y.clients && b.bytes <= y.clients[b.client].input
  {
    SystemWhereReachable(y);
    forall i | 0 <= i < |y.w.log.blocks|
      ensures var b := y.w.log.blocks[i]; b.client in y.clients && b.bytes <= y.clients[b.client].input
    {
      BlockIsInput(y, i);
    }
  }

  lemma BlockIsInput(y: System, i: nat)
    requires SystemInv(y) && i < |y.w.log.blocks|
    ensures
      var b := y.w.log.blocks[i];
      && b.client in y.clients && b.bytes <= y.clients[b.client].input
      && (b.end == Some(Server.EndEof) ==> b.bytes == y.clients[b.client].sock.up.sent)
  {
    var b := y.w.log.blocks[i];
    assert ServerStreams.BlockFits(b, y.w.s.socks[b.client].up);
    assert ClientInvariant.ClientInv(y.clients[b.client]);
  }

  /** End-to-end exactness: a client that returned SUCCESS_EOF and whose session ended at end-of-file had its whole
      input delivered, in one piece. */
  lemma DeliveredExactly(y: System, c: ClientId, i: nat)
    requires Reachable(y) && Returned(y, c, Client.SuccessEof)
    requires i < |y.w.log.blocks| && y.w.log.blocks[i].client == c && y.w.log.blocks[i].end == Some(Server.EndEof)
    ensures y.w.log.blocks[i].bytes == y.clients[c].input
  {
    SystemWhereReachable(y);
    DeliveredHere(y, c, i);
  }

  lemma DeliveredHere(y: System, c: ClientId, i: nat)
    requires SystemInv(y) && Returned(y, c, Client.SuccessEof)
    requires i < |y.w.log.blocks| && y.w.log.blocks[i].client == c && y.w.log.blocks[i].end == Some(Server.EndEof)
    ensures y.w.log.blocks[i].bytes == y.clients[c].input
  {
    BlockIsInput(y, i);
    AgreedClient(y.clients, y.w.s.socks, c);
    SuccessWroteAll(y.clients[c]);
  }

  /** Everything that client wrote has been read and passed on in the session that made this block: it ended at end-of-file,
      or nothing is left of the socket and the child took it all. */
  predicate PassedOn(conn: Server.ConnPc, end: Option<Server.SessionEnd>, up: Pipe) {
    match end
    case Some(EndEof) => true
    case Some(EndReadFail) => up.taken == |up.sent|
    case Some(EndWriteFail) => false
    case None => up.taken == |up.sent| && !conn.CWrite?
  }

  /** A client's input has reached the child, in one piece. */
  ghost predicate Delivered(y: System, c: ClientId)
    requires c in y.clients
  {
    exists i :: 0 <= i < |y.w.log.blocks| && y.w.log.blocks[i].client == c && y.w.log.blocks[i].bytes == y.clients[c].input
  }

  /** SUCCESS_EOF means delivered exactly if the client was picked up and what it wrote was passed on. */
  lemma DeliveredIff(y: System, c: ClientId)
    requires Reachable(y) && Returned(y, c, Client.SuccessEof)
    ensures c in y.w.s.socks
    ensures Delivered(y, c) <==>
            exists i :: 0 <= i < |y.w.log.blocks| && y.w.log.blocks[i].client == c
                        && PassedOn(y.w.s.conn, y.w.log.blocks[i].end, y.w.s.socks[c].up)
  {
    SystemWhereReachable(y);
    AgreedClient(y.clients, y.w.s.socks, c);
    forall i | 0 <= i < |y.w.log.blocks| && y.w.log.blocks[i].client == c
      ensures y.w.log.blocks[i].bytes == y.clients[c].input
              <==> PassedOn(y.w.s.conn, y.w.log.blocks[i].end, y.w.s.socks[c].up)
    {
      BlockIsWholeIff(y, c, i);
    }
  }

  lemma BlockIsWholeIff(y: System, c: ClientId, i: nat)
    requires SystemInv(y) && Returned(y, c, Client.SuccessEof) && c in y.w.s.socks
    requires i < |y.w.log.blocks| && y.w.log.blocks[i].client == c
    ensures y.w.log.blocks[i].bytes == y.clients[c].input
            <==> PassedOn(y.w.s.conn, y.w.log.blocks[i].end, y.w.s.socks[c].up)
  {
    AgreedClient(y.clients, y.w.s.socks, c);
    SuccessWroteAll(y.clients[c]);
    BlockAgainstSocket(y.w, c, i);
  }

  /** A block is all that its client wrote exactly if what it wrote was passed on. */
  lemma BlockAgainstSocket(w: Server.World, c: ClientId, i: nat)
    requires ServerSafety.Safe(w) && i < |w.log.blocks| && w.log.blocks[i].client == c && c in w.s.socks
    ensures w.log.blocks[i].bytes == w.s.socks[c].up.sent <==> PassedOn(w.s.conn, w.log.blocks[i].end, w.s.socks[c].up)
  {
    if w.log.blocks[i].end == None {
      RunningBlock(w, i);
      SessionBlock(w.s.conn, w.log.blocks[i], w.s.socks[c].up);
    } else {
      LoggedBlock(w, i);
      EndedBlock(w.s.conn, w.log.blocks[i], w.s.socks[c].up);
    }
  }

  lemma LoggedBlock(w: Server.World, i: nat)
    requires ServerSafety.Safe(w) && i < |w.log.blocks|
    ensures var b := w.log.blocks[i]; b.client in w.s.socks && ServerStreams.BlockFits(b, w.s.socks[b.client].up)
  {
  }

  lemma EndedBlock(conn: Server.ConnPc, b: Server.Block, up: Pipe)
    requires ServerStreams.BlockFits(b, up) && b.end.Some?
    ensures b.bytes == up.sent <==> PassedOn(conn, b.end, up)
  {
    match b.end.value
    case EndEof =>
    case EndReadFail => assert up.taken == |up.sent| ==> up.sent[..up.taken] == up.sent;
    case EndWriteFail =>
  }

  lemma RunningBlock(w: Server.World, i: nat)
    requires ServerSafety.Safe(w) && i < |w.log.blocks| && w.log.blocks[i].end == None
    ensures w.s.conn == Server.CRead || (w.s.conn.CWrite? && w.s.conn.n < |w.s.conn.buffer|)
    ensures var b := w.log.blocks[i];
            b.client in w.s.socks && ServerStreams.SessionFits(w.s.conn, b, w.s.socks[b.client].up)
  {
    assert i == |w.log.blocks| - 1 && ServerControl.InSession(w.s.conn);
  }

  lemma SessionBlock(conn: Server.ConnPc, b: Server.Block, up: Pipe)
    requires ServerStreams.SessionFits(conn, b, up) && b.end == None
    requires conn == Server.CRead || (conn.CWrite? && conn.n < |conn.buffer|)
    ensures b.bytes == up.sent <==> up.taken == |up.sent| && !conn.CWrite?
  {
    if conn.CWrite? {
      assert |b.bytes| + |conn.buffer[conn.n..]| == |up.sent[..up.taken]|;
    } else {
      assert b.bytes == up.sent[..up.taken];
      assert up.taken == |up.sent| ==> up.sent[..up.taken] == up.sent;
    }
  }

  lemma SuccessWroteAll(s: Client.State)
    requires ClientInvariant.ClientInv(s) && Client.ReturnStatus(s.snapshot) == Client.SuccessEof
    ensures s.sock.up.sent == s.input
  {
  }

  lemma WholeMessage(down: seq<byte>)
    requires ClientInvariant.Contains(down, REJECT_MESSAGE) && down <= REJECT_MESSAGE
    ensures down == REJECT_MESSAGE
  {
    var i: nat :| ClientInvariant.OccursAt(down, REJECT_MESSAGE, i);
  }

  /** End-to-end rejection soundness: a client that returned SUCCESS_FUCK_OFF was sent the whole message by the server,
      which had decided so while the connection thread owned the slot mutex for another client; none of its input
      reaches the child. */
  lemma RejectedTruly(y: System, c: ClientId)
    requires Reachable(y) && Returned(y, c, Client.SuccessFuckOff)
    ensures c in y.w.s.socks && y.w.s.socks[c].down.sent == REJECT_MESSAGE
    ensures exists i :: 0 <= i < |y.w.log.rejections| && y.w.log.rejections[i].client == c
                        && ServerReplies.Justified(y.w.log.rejections[i])
    ensures !ServerStreams.Served(y.w.log.blocks, c)
  {
    SystemWhereReachable(y);
    RejectedHere(y, c);
  }

  lemma RejectedHere(y: System, c: ClientId)
    requires SystemInv(y) && Returned(y, c, Client.SuccessFuckOff)
    ensures c in y.w.s.socks && y.w.s.socks[c].down.sent == REJECT_MESSAGE
    ensures exists i :: 0 <= i < |y.w.log.rejections| && y.w.log.rejections[i].client == c
                        && ServerReplies.Justified(y.w.log.rejections[i])
    ensures !ServerStreams.Served(y.w.log.blocks, c)
  {
    AgreedClient(y.clients, y.w.s.socks, c);
    RejectionWasHeard(y.clients[c]);
    WholeMessage(y.w.s.socks[c].down.sent);
    RejectionOnRecord(y.w, c);
  }

  lemma RejectionWasHeard(s: Client.State)
    requires ClientInvariant.ClientInv(s) && Client.ReturnStatus(s.snapshot) == Client.SuccessFuckOff
    ensures ClientInvariant.Contains(s.sock.down.sent, REJECT_MESSAGE)
  {
  }

  lemma RejectionOnRecord(w: Server.World, c: ClientId)
    requires ServerSafety.Safe(w) && c in w.s.socks && w.s.socks[c].down.sent != []
    ensures exists i :: 0 <= i < |w.log.rejections| && w.log.rejections[i].client == c
                        && ServerReplies.Justified(w.log.rejections[i])
    ensures !ServerStreams.Served(w.log.blocks, c)
  {
    assert ServerReplies.Rejected(w.log.rejections, c);
    var i :| 0 <= i < |w.log.rejections| && w.log.rejections[i].client == c;
    assert c in w.log.turnedAway;
  }
}

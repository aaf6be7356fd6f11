/** Concrete runs of the whole: a client that is served, one that is rejected, and one that succeeds for nothing. */
module EndToEndWitness {
  import opened Streams
  import opened EndToEnd
  import Server
  import Client
  import ServerWitness
  import ClientWitness
  import Runs

  // ---------------------------------------------------------------- one side alone, inside the system

  lemma ClientSteps(y: System, c: ClientId, move: Client.Event, s': Client.State)
    requires Reachable(y) && c in y.clients && Client.SoloStep(y.clients[c], move, s')
    ensures Reachable(ClientMoved(y, c, s'))
  {
    SystemWhereReachable(y);
    ClientStepIsStep(y, c, move, s');
    Runs.StepIsReachable(START, Step, y, ClientGoes(c, move), ClientMoved(y, c, s'));
  }

  lemma MovedTwice(y: System, c: ClientId, s: Client.State, s': Client.State)
    ensures ClientMoved(ClientMoved(y, c, s), c, s') == ClientMoved(y, c, s')
  {
    assert y.clients[c := s][c := s'] == y.clients[c := s'];
    assert y.w.s.socks[c := s.sock][c := s'.sock] == y.w.s.socks[c := s'.sock];
  }

  lemma NotMoved(y: System, c: ClientId)
    requires Reachable(y) && c in y.clients
    ensures ClientMoved(y, c, y.clients[c]) == y
  {
    SystemWhereReachable(y);
    OwnSocket(y.clients, y.w.s.socks, c);
  }

  lemma OwnSocket(clients: map<ClientId, Client.State>, socks: map<ClientId, Socket>, c: ClientId)
    requires Agree(clients, socks) && c in clients
    ensures socks[c := clients[c].sock] == socks && clients[c := clients[c]] == clients
  {
  }

  /** What a client can do alone it does in the system, and the server sees nothing but its socket. */
  lemma ClientAlone(y: System, c: ClientId, s: Client.State)
    requires Reachable(y) && c in y.clients && Client.Solo(y.clients[c], s)
    ensures Reachable(ClientMoved(y, c, s))
  {
    NotMoved(y, c);
    var holds := (a: Client.State) => Reachable(ClientMoved(y, c, a));
    forall a, e, b | holds(a) && Client.SoloStep(a, e, b) ensures holds(b) {
      ClientSteps(ClientMoved(y, c, a), c, e, b);
      MovedTwice(y, c, a, b);
    }
    Runs.HoldsWhereReachable(y.clients[c], Client.SoloStep, holds, s);
  }

  /** The system after `y` in which nothing but the server has moved, to `w`. */
  ghost function ServerMoved(y: System, w: Server.World): System {
    System(w, Seen(y.clients, w.s.socks))
  }

  lemma ServerKeepsClients(y: System, e: Server.Event, w': Server.World)
    requires Reachable(y) && Server.SoloStep(y.w, e, w')
    ensures w'.s.socks.Keys == y.clients.Keys
  {
    SystemWhereReachable(y);
    ServerMovesSockets(y.w, e, w');
  }

  lemma ServerSteps(y: System, e: Server.Event, w': Server.World)
    requires Reachable(y) && Server.SoloStep(y.w, e, w')
    ensures Reachable(ServerMoved(y, w')) && w'.s.socks.Keys == y.clients.Keys
  {
    ServerKeepsClients(y, e, w');
    assert Step(y, ServerGoes(e), ServerMoved(y, w'));
    Runs.StepIsReachable(START, Step, y, ServerGoes(e), ServerMoved(y, w'));
  }

  lemma SeenTwice(clients: map<ClientId, Client.State>, socks: map<ClientId, Socket>, socks': map<ClientId, Socket>)
    requires socks.Keys == socks'.Keys == clients.Keys
    ensures Seen(Seen(clients, socks), socks') == Seen(clients, socks')
  {
  }

  lemma NothingNewSeen(y: System)
    requires Reachable(y)
    ensures ServerMoved(y, y.w) == y && y.w.s.socks.Keys == y.clients.Keys
  {
    SystemWhereReachable(y);
    NothingNew(y.clients, y.w.s.socks);
  }

  lemma NothingNew(clients: map<ClientId, Client.State>, socks: map<ClientId, Socket>)
    requires Agree(clients, socks)
    ensures Seen(clients, socks) == clients
  {
  }

  /** What the server can do alone it does in the system. */
  lemma ServerAlone(y: System, w: Server.World)
    requires Reachable(y) && Server.Solo(y.w, w)
    ensures Reachable(ServerMoved(y, w)) && w.s.socks.Keys == y.clients.Keys
  {
    NothingNewSeen(y);
    var holds := (a: Server.World) => Reachable(ServerMoved(y, a)) && a.s.socks.Keys == y.clients.Keys;
    forall a, e, b | holds(a) && Server.SoloStep(a, e, b) ensures holds(b) {
      ServerSteps(ServerMoved(y, a), e, b);
      SeenTwice(y.clients, a.s.socks, b.s.socks);
    }
    Runs.HoldsWhereReachable(y.w, Server.SoloStep, holds, w);
  }

  // ---------------------------------------------------------------- the run

  lemma Connected(y: System, c: ClientId, input: seq<byte>) returns (y': System)
    requires Reachable(y) && c !in y.w.s.socks
    ensures Reachable(y') && y'.clients == y.clients[c := Client.Init(input)]
    ensures y'.w == Server.World(Server.EnvApply(y.w.s, Server.Connect(c)), y.w.log)
  {
    y' := System(Server.World(Server.EnvApply(y.w.s, Server.Connect(c)), y.w.log), y.clients[c := Client.Init(input)]);
    assert Step(y, Start(c, input), y');
    Runs.StepIsReachable(START, Step, y, Start(c, input), y');
  }

  /** SUCCESS_EOF does not mean delivered: client 1 writes its input, returns success and is then displaced. */
  lemma SuccessIsNotDelivery(b: byte) returns (y: System)
    ensures Reachable(y) && Returned(y, 1, Client.SuccessEof) && y.clients[1].input == [b]
    ensures y.w.log.displaced == [1] && y.w.s.childStdin == [] && y.w.log.rejections == []
  {
    var y1 := BothConnected([b], []);
    var s := ClientWitness.AloneItSucceeds(b);
    ClientAlone(y1, 1, s);
    var y2 := ClientMoved(y1, 1, s);
    var w := ServerWitness.BothHandedOver(y2.w);
    ServerAlone(y2, w);
    y := ServerMoved(y2, w);
  }

  lemma BothConnected(input1: seq<byte>, input2: seq<byte>) returns (y: System)
    ensures Reachable(y) && y.clients == map[1 := Client.Init(input1), 2 := Client.Init(input2)]
    ensures y.w.log == Server.NO_LOG
    ensures y.w.s == ServerWitness.OPEN.(backlog := [1, 2], socks := map[1 := FRESH, 2 := FRESH])
  {
    Runs.StartIsReachable(START, Step);
    ServerWitness.OpenIsReachable();
    ServerAlone(START, Server.World(ServerWitness.OPEN, Server.NO_LOG));
    y := ServerMoved(START, Server.World(ServerWitness.OPEN, Server.NO_LOG));
    y := Connected(y, 1, input1);
    y := Connected(y, 2, input2);
  }

  lemma OneConnected(input: seq<byte>) returns (y: System)
    ensures Reachable(y) && y.clients == map[1 := Client.Init(input)]
    ensures y.w.log == Server.NO_LOG
    ensures y.w.s == ServerWitness.OPEN.(backlog := [1], socks := map[1 := FRESH])
  {
    Runs.StartIsReachable(START, Step);
    ServerWitness.OpenIsReachable();
    ServerAlone(START, Server.World(ServerWitness.OPEN, Server.NO_LOG));
    y := ServerMoved(START, Server.World(ServerWitness.OPEN, Server.NO_LOG));
    y := Connected(y, 1, input);
  }

  /** A client that is picked up and served to the end of its stream: its success means delivered. */
  lemma SuccessIsDelivery(b: byte) returns (y: System)
    ensures Reachable(y) && Returned(y, 1, Client.SuccessEof) && y.clients[1].input == [b]
    ensures y.w.log.blocks == [Server.Block(1, [b], Some(Server.EndEof))] && y.w.s.childStdin == [b]
  {
    var y1 := OneConnected([b]);
    var s := ClientWitness.AloneItSucceeds(b);
    ClientAlone(y1, 1, s);
    var y2 := ClientMoved(y1, 1, s);
    var w := ServerWitness.ByteIsServed(y2.w, b);
    ServerAlone(y2, w);
    y := ServerMoved(y2, w);
  }

  /** A client that is told so returns SUCCESS_FUCK_OFF. */
  lemma RejectionIsReturned(input: seq<byte>) returns (y: System)
    ensures Reachable(y) && Returned(y, 2, Client.SuccessFuckOff) && y.clients[2].input == input
  {
    var y1 := BothConnected([], input);
    var w := ServerWitness.RejectionIsSent(y1.w);
    ServerAlone(y1, w);
    var y2 := ServerMoved(y1, w);
    assert y2.clients[2] == Client.Init(input).(sock := ClientWitness.TOLD);
    var s := ClientWitness.RejectionIsReported(input);
    ClientAlone(y2, 2, s);
    y := ClientMoved(y2, 2, s);
  }
}

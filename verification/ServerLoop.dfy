/**
 The session loop of the connection thread, on buffers and descriptors, proved against what it moves and to be a run of
 that thread's steps in the server's step system.
 */
module ServerLoop {
  import opened Streams
  import opened Forwarding
  import Runs
  import Server
  import ServerStreams
  import ServerWitness

  /** The connection thread in the session of client `c`, with `written` on the child's stdin. */
  ghost predicate InSessionOf(w: Server.World, c: Server.ClientId, up: Pipe, written: seq<byte>) {
    && !Server.Stopped(w.s) && Server.WritesToChild(w.s)
    && w.s.box.slot == Some(c) && c in w.s.socks && w.s.socks[c].up == up
    && w.s.childStdin == written
  }

  lemma ReadIsConnStep(w0: Server.World, w: Server.World, c: Server.ClientId, up: Pipe, written: seq<byte>, k: nat)
      returns (w': Server.World)
    requires Server.Solo(w0, w) && InSessionOf(w, c, up, written) && w.s.conn == Server.CRead
    requires up.CanTake(k, BUFFER_SIZE)
    ensures Server.Solo(w0, w') && InSessionOf(w', c, up.Take(k), written)
    ensures w'.s.conn == Server.CWrite(up.Next(k), 0)
  {
    w' := ServerWitness.ConnGoes(w0, w, Server.Read(k));
  }

  lemma WriteIsConnStep(w0: Server.World, w: Server.World, c: Server.ClientId, up: Pipe, written: seq<byte>,
                        buffer: seq<byte>, n: nat, k: nat) returns (w': Server.World)
    requires Server.Solo(w0, w) && InSessionOf(w, c, up, written) && w.s.conn == Server.CWrite(buffer, n)
    requires 1 <= k && n + k <= |buffer|
    ensures Server.Solo(w0, w') && InSessionOf(w', c, up, written + buffer[n..n + k])
    ensures w'.s.conn == ServerStreams.AfterWrite(buffer, n + k)
  {
    w' := ServerWitness.ConnGoes(w0, w, Server.Write(k));
  }

  /** The writes of one write_all, as steps of the connection thread. */
  lemma {:induction false} WritesAreConnSteps(
    w0: Server.World, w: Server.World, c: Server.ClientId, up: Pipe, written: seq<byte>, buffer: seq<byte>, sizes: seq<nat>)
    returns (w': Server.World)
    requires Server.Solo(w0, w) && InSessionOf(w, c, up, written) && w.s.conn == Server.CWrite(buffer, 0)
    requires Positive(sizes) && buffer != [] && Sum(sizes) <= |buffer|
    ensures Server.Solo(w0, w') && InSessionOf(w', c, up, written + buffer[..Sum(sizes)])
    ensures w'.s.conn == ServerStreams.AfterWrite(buffer, Sum(sizes))
  {
    if sizes == [] {
      w' := w;
      assert written + buffer[..0] == written;
    } else {
      var init, k := sizes[..|sizes| - 1], sizes[|sizes| - 1];
      var w1 := WritesAreConnSteps(w0, w, c, up, written, buffer, init);
      w' := WriteIsConnStep(w0, w1, c, up, written + buffer[..Sum(init)], buffer, Sum(init), k);
      assert written + buffer[..Sum(init)] + buffer[Sum(init)..Sum(sizes)] == written + buffer[..Sum(sizes)];
    }
  }

  /** One read and the writes that follow it. */
  lemma ForwardIsConnSteps(w0: Server.World, w: Server.World, c: Server.ClientId, up: Pipe, written: seq<byte>, k: nat,
                           sizes: seq<nat>) returns (w': Server.World)
    requires Server.Solo(w0, w) && InSessionOf(w, c, up, written) && w.s.conn == Server.CRead
    requires up.CanTake(k, BUFFER_SIZE) && Positive(sizes) && Sum(sizes) <= k
    ensures Server.Solo(w0, w') && InSessionOf(w', c, up.Take(k), written + up.Next(k)[..Sum(sizes)])
    ensures w'.s.conn == ServerStreams.AfterWrite(up.Next(k), Sum(sizes))
  {
    w' := ReadIsConnStep(w0, w, c, up, written, k);
    w' := WritesAreConnSteps(w0, w', c, up.Take(k), written, up.Next(k), sizes);
  }

  lemma SessionEndIsConnStep(w0: Server.World, w: Server.World, c: Server.ClientId, up: Pipe, written: seq<byte>,
                             end: Server.SessionEnd) returns (w': Server.World)
    requires Server.Solo(w0, w) && InSessionOf(w, c, up, written)
    requires end == Server.EndEof ==> w.s.conn == Server.CRead && up.AtEof()
    requires end == Server.EndReadFail ==> w.s.conn == Server.CRead
    requires end == Server.EndWriteFail ==> w.s.conn.CWrite?
    ensures Server.Solo(w0, w') && InSessionOf(w', c, up, written) && w'.s.conn == Server.CClean(end)
  {
    var e := match end
      case EndEof => Server.ReadEof
      case EndReadFail => Server.ReadFail
      case EndWriteFail => Server.WriteFail;
    w' := ServerWitness.ConnGoes(w0, w, e);
  }

  lemma {:induction false} MovesAreConnSteps(
    w: Server.World, c: Server.ClientId, up: Pipe, written: seq<byte>, moves: seq<Move>) returns (w': Server.World)
    requires InSessionOf(w, c, up, written) && w.s.conn == Server.CRead
    requires Forwards(moves, false) && up.taken + Reads(moves) <= |up.sent|
    ensures Server.Solo(w, w') && w'.s.conn == Server.CRead
    ensures InSessionOf(w', c, up.Take(Reads(moves)), written + up.Next(Reads(moves)))
  {
    if moves == [] {
      Runs.StartIsReachable(w, Server.SoloStep);
      w' := w;
      assert written + up.Next(0) == written;
    } else {
      var init, m := moves[..|moves| - 1], moves[|moves| - 1];
      var up1 := up.Take(Reads(init));
      w' := MovesAreConnSteps(w, c, up, written, init);
      w' := ForwardIsConnSteps(w, w', c, up1, written + up.Next(Reads(init)), m.read, m.sizes);
      NextPart(up, written, Reads(init), m.read, Sum(m.sizes));
    }
  }

  lemma NextPart(up: Pipe, written: seq<byte>, k: nat, n: nat, m: nat)
    requires up.taken + k + n <= |up.sent| && m <= n
    ensures written + up.Next(k) + up.Take(k).Next(n)[..m] == written + up.Next(k + m)
    ensures up.Take(k).Take(n) == up.Take(k + n)
  {
    Prefix(up.sent, up.taken + k, up.Take(k).Next(n), n, m);
    Appended(written, up.sent, up.taken, up.taken + k, up.taken + k + m);
  }

  lemma FailedWriteIsConnSteps(w: Server.World, c: Server.ClientId, up: Pipe, written: seq<byte>, moves: seq<Move>)
      returns (w': Server.World)
    requires InSessionOf(w, c, up, written) && w.s.conn == Server.CRead
    requires Forwards(moves, true) && up.taken + Reads(moves) <= |up.sent|
    ensures Server.Solo(w, w') && w'.s.conn == Server.CClean(Server.EndWriteFail)
    ensures Writes(moves) <= Reads(moves)
    ensures InSessionOf(w', c, up.Take(Reads(moves)), written + up.Next(Writes(moves)))
  {
    var init, m := moves[..|moves| - 1], moves[|moves| - 1];
    LastFellShort(moves);
    w' := MovesAreConnSteps(w, c, up, written, init);
    w' := ForwardIsConnSteps(w, w', c, up.Take(Reads(init)), written + up.Next(Reads(init)), m.read, m.sizes);
    NextPart(up, written, Reads(init), m.read, Sum(m.sizes));
    w' := SessionEndIsConnStep(w, w', c, up.Take(Reads(moves)), written + up.Next(Writes(moves)), Server.EndWriteFail);
  }

  /** What the session loop does, told by its moves and its end, is a run of the connection thread's steps. */
  lemma SessionIsRun(w: Server.World, c: Server.ClientId, up: Pipe, written: seq<byte>, moves: seq<Move>,
                     end: Server.SessionEnd) returns (w': Server.World)
    requires InSessionOf(w, c, up, written) && w.s.conn == Server.CRead
    requires Forwards(moves, end == Server.EndWriteFail) && up.taken + Reads(moves) <= |up.sent|
    requires end == Server.EndEof ==> up.Take(Reads(moves)).AtEof()
    ensures Server.Solo(w, w') && w'.s.conn == Server.CClean(end)
    ensures Writes(moves) <= Reads(moves)
    ensures InSessionOf(w', c, up.Take(Reads(moves)), written + up.Next(Writes(moves)))
  {
    if end == Server.EndWriteFail {
      w' := FailedWriteIsConnSteps(w, c, up, written, moves);
    } else {
      WritesAgainstReads(moves, false);
      w' := MovesAreConnSteps(w, c, up, written, moves);
      w' := SessionEndIsConnStep(w, w', c, up.Take(Reads(moves)), written + up.Next(Reads(moves)), end);
    }
  }

  /** The session loop of the connection thread. What it writes is a prefix of what it reads: everything, unless a write
      failed; and everything there is, if it ended at end-of-file. It ends with the first call that fails. */
  method ServeSession(client: Source, child: Sink) returns (end: Server.SessionEnd, ghost moves: seq<Move>)
    requires client.Valid()
    modifies client, child
    ensures client.Valid()
    ensures Forwarded(client.stream, old(client.pos), client.pos, old(child.written), child.written, moves,
                      end == Server.EndWriteFail)
    ensures match end
      case EndEof => client.failures == old(client.failures) && child.failures == old(child.failures)
      case EndReadFail => |client.failures| == |old(client.failures)| + 1 && child.failures == old(child.failures)
      case EndWriteFail => client.failures == old(client.failures) && |child.failures| == |old(child.failures)| + 1
    ensures end != Server.EndWriteFail ==> child.written == old(child.written) + client.stream[old(client.pos)..client.pos]
    ensures end == Server.EndEof ==> client.AsPipe().AtEof()
  {
    var buffer := new byte[BUFFER_SIZE];
    moves := [];
    while true
      invariant client.Valid() && fresh(buffer)
      invariant client.failures == old(client.failures) && child.failures == old(child.failures)
      invariant Forwarded(client.stream, old(client.pos), client.pos, old(child.written), child.written, moves, false)
      decreases |client.stream| - client.pos
    {
      ghost var pos, after := client.pos, child.written;
      var n, _ := client.Read(buffer);
      if n > 0 {
        var ok, _, sizes := WriteAll(child, buffer, n);
        ForwardedOn(client.stream, old(client.pos), pos, old(child.written), after, moves, buffer[..], n, sizes);
        moves := moves + [Move(n, sizes)];
        if !ok {
          return Server.EndWriteFail, moves;
        }
      }
      if n <= 0 {
        ForwardedAll(client.stream, old(client.pos), client.pos, old(child.written), child.written, moves);
      }
      if n == 0 {
        return Server.EndEof, moves;
      }
      if n < 0 {
        return Server.EndReadFail, moves;
      }
    }
  }

  /** The session loop beside the step system: whatever it does to the two descriptors, the connection thread can do to
      client `c` and the child in a run of its own. */
  method SessionInSystem(client: Source, child: Sink, ghost w: Server.World, ghost c: Server.ClientId)
      returns (end: Server.SessionEnd, ghost w': Server.World)
    requires client.Valid() && InSessionOf(w, c, client.AsPipe(), child.written) && w.s.conn == Server.CRead
    modifies client, child
    ensures Server.Solo(w, w') && w'.s.conn == Server.CClean(end)
    ensures InSessionOf(w', c, client.AsPipe(), child.written)
  {
    ghost var up, written := client.AsPipe(), child.written;
    ghost var moves;
    end, moves := ServeSession(client, child);
    w' := SessionIsRun(w, c, up, written, moves, end);
  }
}

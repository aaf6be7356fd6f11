/** Which bytes reach the child, and which bytes the server sends back. */
module ServerStreams {
  import opened Streams
  import opened Server
  import opened ServerControl
  import opened ServerPlaces

  // ---------------------------------------------------------------- sessions

  /** The blocks one after the other. */
  function Flatten(blocks: seq<Block>): seq<byte> {
    if blocks == [] then [] else Flatten(blocks[..|blocks| - 1]) + blocks[|blocks| - 1].bytes
  }

  ghost predicate Distinct(blocks: seq<Block>) {
    forall i, j :: 0 <= i < j < |blocks| ==> blocks[i].client != blocks[j].client
  }

  ghost predicate Served(blocks: seq<Block>, c: ClientId) {
    exists i :: 0 <= i < |blocks| && blocks[i].client == c
  }

  /** A block against what its client wrote: a prefix, everything if the session ended at end-of-file, what was read if a
      read failed, and less than that if the child could not be written to. */
  predicate BlockFits(b: Block, up: Pipe) {
    && b.bytes <= up.sent
    && up.taken <= |up.sent|
    && (b.end == Some(EndEof) ==> up.shut && b.bytes == up.sent)
    && (b.end == Some(EndReadFail) ==> b.bytes == up.sent[..up.taken])
    && (b.end == Some(EndWriteFail) ==> |b.bytes| < up.taken)
  }

  ghost predicate BlocksInv(blocks: seq<Block>, socks: map<ClientId, Socket>) {
    && (forall i :: 0 <= i < |blocks| ==>
          blocks[i].client in socks && BlockFits(blocks[i], socks[blocks[i].client].up))
    && (forall c :: c in socks && !Served(blocks, c) ==> socks[c].up.taken == 0)
  }

  /** The running session against the socket it reads from. */
  predicate SessionFits(conn: ConnPc, last: Block, up: Pipe) {
    match conn
    case CRead => last.end == None && up.taken <= |up.sent| && last.bytes == up.sent[..up.taken]
    case CWrite(buffer, n) =>
      && last.end == None && up.taken <= |up.sent| && n <= |buffer|
      && last.bytes + buffer[n..] == up.sent[..up.taken]
    case CClean(end) => last.end == Some(end)
    case _ => true
  }

  ghost predicate SessionInv(conn: ConnPc, slot: Option<ClientId>, blocks: seq<Block>, socks: map<ClientId, Socket>) {
    InSession(conn) ==>
      && slot.Some? && slot.value in socks && blocks != []
      && blocks[|blocks| - 1].client == slot.value
      && SessionFits(conn, blocks[|blocks| - 1], socks[slot.value].up)
  }

  /** Sessions are over for clients that are closed or being closed, and for them only. */
  ghost predicate EndedInv(conn: ConnPc, blocks: seq<Block>, closed: seq<ClientId>) {
    forall i :: 0 <= i < |blocks| && !(i == |blocks| - 1 && InSession(conn)) ==>
      blocks[i].end.Some? && (blocks[i].client in closed || Closing(conn) == Some(blocks[i].client))
  }

  ghost predicate StreamOf(conn: ConnPc, slot: Option<ClientId>, childStdin: seq<byte>, socks: map<ClientId, Socket>,
                           blocks: seq<Block>, closed: seq<ClientId>)
  {
    && childStdin == Flatten(blocks)
    && Distinct(blocks)
    && BlocksInv(blocks, socks)
    && SessionInv(conn, slot, blocks, socks)
    && EndedInv(conn, blocks, closed)
  }

  ghost predicate StreamInv(s: State, l: Log) {
    StreamOf(s.conn, s.box.slot, s.childStdin, s.socks, l.blocks, l.closed)
  }

  lemma FlattenAppend(blocks: seq<Block>, b: Block)
    ensures Flatten(blocks + [b]) == Flatten(blocks) + b.bytes
  {
    assert (blocks + [b])[..|blocks|] == blocks;
  }

  lemma FlattenOnLast(blocks: seq<Block>, bytes: seq<byte>, end: Option<SessionEnd>)
    requires blocks != []
    ensures Flatten(OnLast(blocks, bytes, end)) == Flatten(blocks) + bytes
  {
    var n := |blocks| - 1;
    assert OnLast(blocks, bytes, end)[..n] == blocks[..n];
    assert Flatten(blocks[..n]) + (blocks[n].bytes + bytes) == Flatten(blocks[..n]) + blocks[n].bytes + bytes;
  }

  /** The client that is about to be picked up has had no session and is not closed. */
  lemma SlotIsFresh(s: State, l: Log)
    requires ConserveInv(s, l) && StreamInv(s, l) && s.conn == CCheck && s.box.slot.Some? && s.box.slot.value in s.socks
    ensures s.box.slot.value !in l.closed && !Served(l.blocks, s.box.slot.value)
  {
    var c := s.box.slot.value;
    assert PlacesOf(s, l, c);
    CountPositive(l.closed, c);
  }

  // Lemmas about blocks and sockets alone.

  lemma ServedGrows(blocks: seq<Block>, b: Block, c: ClientId)
    ensures Served(blocks + [b], c) <==> Served(blocks, c) || b.client == c
  {
    if Served(blocks, c) {
      var i :| 0 <= i < |blocks| && blocks[i].client == c;
      assert (blocks + [b])[i].client == c;
    }
    assert (blocks + [b])[|blocks|] == b;
  }

  lemma NewBlockFits(blocks: seq<Block>, socks: map<ClientId, Socket>, c: ClientId)
    requires BlocksInv(blocks, socks) && Distinct(blocks) && !Served(blocks, c) && c in socks
    ensures var blocks' := blocks + [Block(c, [], None)]; BlocksInv(blocks', socks) && Distinct(blocks')
  {
    var b := Block(c, [], None);
    forall d | d in socks && !Served(blocks + [b], d) ensures socks[d].up.taken == 0 {
      ServedGrows(blocks, b, d);
    }
  }

  lemma ServedOnLast(blocks: seq<Block>, bytes: seq<byte>, end: Option<SessionEnd>, c: ClientId)
    ensures Served(OnLast(blocks, bytes, end), c) <==> Served(blocks, c)
  {
    if Served(blocks, c) {
      var i :| 0 <= i < |blocks| && blocks[i].client == c;
      assert OnLast(blocks, bytes, end)[i].client == c;
    }
  }

  lemma LastBlockFits(blocks: seq<Block>, socks: map<ClientId, Socket>, bytes: seq<byte>, end: Option<SessionEnd>)
    requires BlocksInv(blocks, socks) && Distinct(blocks) && blocks != []
    requires
      var b := blocks[|blocks| - 1];
      BlockFits(b.(bytes := b.bytes + bytes, end := end), socks[b.client].up)
    ensures var blocks' := OnLast(blocks, bytes, end); BlocksInv(blocks', socks) && Distinct(blocks')
  {
    forall c | c in socks && !Served(OnLast(blocks, bytes, end), c) ensures socks[c].up.taken == 0 {
      ServedOnLast(blocks, bytes, end, c);
    }
  }

  /** What anyone may do to the direction from client to server. */
  predicate UpMoves(p: Pipe, q: Pipe) {
    && p.sent <= q.sent
    && (p.taken == q.taken || p.taken <= q.taken <= |q.sent|)
    && (p.shut ==> q.shut && q.sent == p.sent)
  }

  lemma BlocksFollowSockets(blocks: seq<Block>, socks: map<ClientId, Socket>, socks': map<ClientId, Socket>)
    requires BlocksInv(blocks, socks)
    requires forall c :: c in socks ==> c in socks' && UpMoves(socks[c].up, socks'[c].up)
    requires forall c :: c in socks' && !Served(blocks, c) ==>
               socks'[c].up.taken == if c in socks then socks[c].up.taken else 0
    requires forall i :: 0 <= i < |blocks| && blocks[i].end.Some? ==>
               socks'[blocks[i].client].up.taken == socks[blocks[i].client].up.taken
    ensures BlocksInv(blocks, socks')
  {
    forall i | 0 <= i < |blocks| ensures BlockFits(blocks[i], socks'[blocks[i].client].up) {
      BlockFollows(blocks[i], socks[blocks[i].client].up, socks'[blocks[i].client].up);
    }
  }

  lemma BlockFollows(b: Block, p: Pipe, q: Pipe)
    requires BlockFits(b, p) && UpMoves(p, q) && (b.end.Some? ==> q.taken == p.taken)
    ensures BlockFits(b, q)
  {
    assert b.end.Some? ==> q.sent[..q.taken] == p.sent[..p.taken];
  }

  // ---------------------------------------------------------------- what each step keeps

  lemma PickupBegins(c: ClientId, childStdin: seq<byte>, socks: map<ClientId, Socket>, blocks: seq<Block>,
                     closed: seq<ClientId>)
    requires StreamOf(CCheck, Some(c), childStdin, socks, blocks, closed)
    requires c in socks && !Served(blocks, c)
    ensures StreamOf(CRead, Some(c), childStdin, socks, blocks + [Block(c, [], None)], closed)
  {
    NewBlockFits(blocks, socks, c);
    FlattenAppend(blocks, Block(c, [], None));
  }

  lemma PickupKeepsStream(s: State, l: Log)
    requires ConserveInv(s, l) && StreamInv(s, l) && ConnEnabled(s, Check)
    requires s.box.slot.Some? ==> s.box.slot.value in s.socks
    ensures StreamInv(ConnApply(s, Check), ObserveConn(l, s, Check))
  {
    if s.box.slot.Some? {
      SlotIsFresh(s, l);
      PickupBegins(s.box.slot.value, s.childStdin, s.socks, l.blocks, l.closed);
    }
  }

  lemma SessionReads(c: ClientId, childStdin: seq<byte>, socks: map<ClientId, Socket>, blocks: seq<Block>,
                     closed: seq<ClientId>, k: nat)
    requires StreamOf(CRead, Some(c), childStdin, socks, blocks, closed) && c in socks && socks[c].up.CanTake(k, BUFFER_SIZE)
    ensures
      var up := socks[c].up;
      StreamOf(CWrite(up.Next(k), 0), Some(c), childStdin, socks[c := socks[c].(up := up.Take(k))], blocks, closed)
  {
    var up := socks[c].up;
    var socks' := socks[c := socks[c].(up := up.Take(k))];
    assert blocks[|blocks| - 1].bytes + up.Next(k)[0..] == up.sent[..up.taken + k];
    assert Served(blocks, c);
    assert blocks[|blocks| - 1].end == None;
    BlocksFollowSockets(blocks, socks, socks');
  }

  lemma ReadKeepsStream(s: State, l: Log, k: nat)
    requires StreamInv(s, l) && ConnEnabled(s, Read(k))
    ensures StreamInv(ConnApply(s, Read(k)), ObserveConn(l, s, Read(k)))
  {
    SessionReads(s.box.slot.value, s.childStdin, s.socks, l.blocks, l.closed, k);
  }

  lemma WriteFits(buffer: seq<byte>, n: nat, k: nat, b: Block, up: Pipe)
    requires SessionFits(CWrite(buffer, n), b, up) && 1 <= k && n + k <= |buffer|
    ensures
      var b' := b.(bytes := b.bytes + buffer[n..n + k], end := None);
      BlockFits(b', up) && SessionFits(AfterWrite(buffer, n + k), b', up)
  {
    assert buffer[n..] == buffer[n..n + k] + buffer[n + k..];
    assert b.bytes + buffer[n..] == (b.bytes + buffer[n..n + k]) + buffer[n + k..];
  }

  function AfterWrite(buffer: seq<byte>, n: nat): ConnPc {
    if n == |buffer| then CRead else CWrite(buffer, n)
  }

  lemma SessionWrites(conn: ConnPc, k: nat, slot: Option<ClientId>, childStdin: seq<byte>, socks: map<ClientId, Socket>,
                      blocks: seq<Block>, closed: seq<ClientId>)
    requires StreamOf(conn, slot, childStdin, socks, blocks, closed)
    requires conn.CWrite? && 1 <= k && conn.n + k <= |conn.buffer|
    ensures
      var bytes := conn.buffer[conn.n..conn.n + k];
      StreamOf(AfterWrite(conn.buffer, conn.n + k), slot, childStdin + bytes, socks, OnLast(blocks, bytes, None), closed)
  {
    var CWrite(buffer, n) := conn;
    var b := blocks[|blocks| - 1];
    WriteFits(buffer, n, k, b, socks[b.client].up);
    FlattenOnLast(blocks, buffer[n..n + k], None);
    LastBlockFits(blocks, socks, buffer[n..n + k], None);
  }

  /** What a write changes, for the states and logs before and after. */
  predicate Writes(s: State, l: Log, k: nat, s': State, l': Log) {
    && s.conn.CWrite? && 1 <= k && s.conn.n + k <= |s.conn.buffer|
    && var bytes := s.conn.buffer[s.conn.n..s.conn.n + k];
    && s'.conn == AfterWrite(s.conn.buffer, s.conn.n + k) && s'.box.slot == s.box.slot && s'.socks == s.socks
    && s'.childStdin == s.childStdin + bytes
    && l'.blocks == OnLast(l.blocks, bytes, None) && l'.closed == l.closed
  }

  lemma WriteEffect(s: State, l: Log, k: nat)
    requires ConnEnabled(s, Write(k)) && WritesToChild(s)
    ensures Writes(s, l, k, ConnApply(s, Write(k)), ObserveConn(l, s, Write(k)))
  {
  }

  lemma WritesKeepStream(s: State, l: Log, k: nat, s': State, l': Log)
    requires StreamInv(s, l) && Writes(s, l, k, s', l')
    ensures StreamInv(s', l')
  {
    var bytes := s.conn.buffer[s.conn.n..s.conn.n + k];
    SessionWrites(s.conn, k, s.box.slot, s.childStdin, s.socks, l.blocks, l.closed);
    StreamIs(s', l', AfterWrite(s.conn.buffer, s.conn.n + k), s.box.slot, s.childStdin + bytes, s.socks,
             OnLast(l.blocks, bytes, None), l.closed);
  }

  lemma WriteKeepsStream(s: State, l: Log, k: nat)
    requires StreamInv(s, l) && ConnEnabled(s, Write(k)) && WritesToChild(s)
    ensures StreamInv(ConnApply(s, Write(k)), ObserveConn(l, s, Write(k)))
  {
    WriteEffect(s, l, k);
    WritesKeepStream(s, l, k, ConnApply(s, Write(k)), ObserveConn(l, s, Write(k)));
  }

  lemma StreamIs(s: State, l: Log, conn: ConnPc, slot: Option<ClientId>, childStdin: seq<byte>,
                 socks: map<ClientId, Socket>, blocks: seq<Block>, closed: seq<ClientId>)
    requires StreamOf(conn, slot, childStdin, socks, blocks, closed)
    requires s.conn == conn && s.box.slot == slot && s.childStdin == childStdin && s.socks == socks
    requires l.blocks == blocks && l.closed == closed
    ensures StreamInv(s, l)
  {
  }

  lemma SessionEnds(conn: ConnPc, end: SessionEnd, slot: Option<ClientId>, childStdin: seq<byte>,
                    socks: map<ClientId, Socket>, blocks: seq<Block>, closed: seq<ClientId>)
    requires StreamOf(conn, slot, childStdin, socks, blocks, closed) && slot.Some? && slot.value in socks
    requires if end == EndWriteFail then conn.CWrite? && conn.n < |conn.buffer| else conn == CRead
    requires end == EndEof ==> socks[slot.value].up.AtEof()
    ensures StreamOf(CClean(end), slot, childStdin, socks, OnLast(blocks, [], Some(end)), closed)
  {
    EndingFits(conn, end, blocks[|blocks| - 1], socks[slot.value].up);
    FlattenOnLast(blocks, [], Some(end));
    LastBlockFits(blocks, socks, [], Some(end));
  }

  lemma EndingFits(conn: ConnPc, end: SessionEnd, b: Block, up: Pipe)
    requires SessionFits(conn, b, up)
    requires if end == EndWriteFail then conn.CWrite? && conn.n < |conn.buffer| else conn == CRead
    requires end == EndEof ==> up.AtEof()
    ensures BlockFits(b.(bytes := b.bytes + [], end := Some(end)), up)
  {
    assert b.bytes + [] == b.bytes;
    if end == EndWriteFail {
      assert |b.bytes| + |conn.buffer[conn.n..]| == up.taken;
      assert b.bytes == up.sent[..|b.bytes|] by { assert b.bytes == up.sent[..up.taken][..|b.bytes|]; }
    }
  }

  lemma EndKeepsStream(s: State, l: Log, e: ConnEvent)
    requires StreamInv(s, l) && ConnEnabled(s, e) && (s.conn.CWrite? ==> s.conn.n < |s.conn.buffer|)
    requires e == ReadEof || e == ReadFail || (e == WriteFail && WritesToChild(s))
    ensures StreamInv(ConnApply(s, e), ObserveConn(l, s, e))
  {
    var end := if e == ReadEof then EndEof else if e == ReadFail then EndReadFail else EndWriteFail;
    SessionEnds(s.conn, end, s.box.slot, s.childStdin, s.socks, l.blocks, l.closed);
  }

  lemma CleanupKeepsStream(s: State, l: Log, e: ConnEvent)
    requires StreamInv(s, l) && ConnEnabled(s, e) && (e == Clear || e == Release)
    requires InSession(s.conn) ==> s.box.slot.Some?
    ensures StreamInv(ConnApply(s, e), ObserveConn(l, s, e))
  {
  }

  lemma SessionCloses(c: ClientId, slot: Option<ClientId>, childStdin: seq<byte>, socks: map<ClientId, Socket>,
                      blocks: seq<Block>, closed: seq<ClientId>)
    requires StreamOf(CClose(c), slot, childStdin, socks, blocks, closed) && c in socks
    ensures StreamOf(CLock, slot, childStdin, ShutDown(socks, c), blocks, closed + [c])
  {
    BlocksFollowSockets(blocks, socks, ShutDown(socks, c));
  }

  lemma CloseKeepsStream(s: State, l: Log)
    requires StreamInv(s, l) && ConnEnabled(s, Close) && s.conn.c in s.socks
    ensures StreamInv(ConnApply(s, Close), ObserveConn(l, s, Close))
  {
    assert s.conn == CClose(s.conn.c);
    SessionCloses(s.conn.c, s.box.slot, s.childStdin, s.socks, l.blocks, l.closed);
  }

  lemma ConnKeepsStream(s: State, l: Log, e: ConnEvent)
    requires ControlInv(s) && ConserveInv(s, l) && StreamInv(s, l) && ConnEnabled(s, e)
    requires s.conn.CWrite? ==> WritesToChild(s)
    ensures StreamInv(ConnApply(s, e), ObserveConn(l, s, e))
  {
    match e
    case Check => PickupKeepsStream(s, l);
    case Read(k) => ReadKeepsStream(s, l, k);
    case Write(k) => WriteKeepsStream(s, l, k);
    case ReadEof => EndKeepsStream(s, l, e);
    case ReadFail => EndKeepsStream(s, l, e);
    case WriteFail => EndKeepsStream(s, l, e);
    case Clear => CleanupKeepsStream(s, l, e);
    case Release => CleanupKeepsStream(s, l, e);
    case Close => CloseKeepsStream(s, l);
    case _ =>
  }

  /** Steps that leave the connection thread, its slot and the child's stdin alone. */
  lemma FrameKeepsStream(s: State, l: Log, s': State, l': Log)
    requires StreamInv(s, l)
    requires s'.conn == s.conn && s'.childStdin == s.childStdin && l'.blocks == l.blocks && l.closed <= l'.closed
    requires InSession(s.conn) ==> s'.box.slot == s.box.slot
    requires forall c :: c in s.socks ==>
               && c in s'.socks && s.socks[c].up.sent <= s'.socks[c].up.sent
               && s'.socks[c].up.taken == s.socks[c].up.taken
               && (s.socks[c].up.shut ==> s'.socks[c].up == s.socks[c].up)
    requires forall c :: c in s'.socks && c !in s.socks ==> s'.socks[c].up.taken == 0
    ensures StreamInv(s', l')
  {
    BlocksFollowSockets(l.blocks, s.socks, s'.socks);
  }
}

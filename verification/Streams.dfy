/** Byte streams: the two directions of a connected stream socket. */
module Streams {

  type byte = x: int | 0 <= x < 256

  datatype Option<+T> = None | Some(value: T)

  /** How much the server reads from a client at a time, and a client from its stdin. */
  const BUFFER_SIZE: nat := 1024

  /** The bytes of "fuck off", the only message a server ever sends. */
  const REJECT_MESSAGE: seq<byte> := [102, 117, 99, 107, 32, 111, 102, 102]

  /** One direction of a socket: everything written so far, how much of it the reader has taken, and whether
      the writing end is closed. */
  datatype Pipe = Pipe(sent: seq<byte>, taken: nat, shut: bool) {

    ghost predicate Valid() {
      taken <= |sent|
    }

    /** A read of at most `limit` bytes may return exactly `k` of them. */
    predicate CanTake(k: nat, limit: nat) {
      1 <= k <= limit && taken + k <= |sent|
    }

    function Next(k: nat): seq<byte>
      requires taken + k <= |sent|
    {
      sent[taken..taken + k]
    }

    function Take(k: nat): Pipe {
      this.(taken := taken + k)
    }

    /** A read returns 0. */
    predicate AtEof() {
      shut && taken == |sent|
    }

    function Push(bytes: seq<byte>): Pipe {
      this.(sent := sent + bytes)
    }

    function Shut(): Pipe {
      this.(shut := true)
    }
  }

  /** What the writing process may do to a pipe. */
  ghost predicate WriterMoves(p: Pipe, q: Pipe) {
    && q.taken == p.taken
    && p.sent <= q.sent
    && (p.shut ==> q == p)
  }

  /** What the reading process may do to a pipe. */
  ghost predicate ReaderMoves(p: Pipe, q: Pipe) {
    && q.sent == p.sent
    && q.shut == p.shut
    && (q.taken == p.taken || p.taken <= q.taken <= |q.sent|)
  }

  /** A connection: `up` carries client to server, `down` carries server to client. */
  datatype Socket = Socket(up: Pipe, down: Pipe)

  const FRESH := Socket(Pipe([], 0, false), Pipe([], 0, false))

  ghost predicate ClientMoves(a: Socket, b: Socket) {
    WriterMoves(a.up, b.up) && ReaderMoves(a.down, b.down)
  }

  ghost predicate ServerMoves(a: Socket, b: Socket) {
    ReaderMoves(a.up, b.up) && WriterMoves(a.down, b.down)
  }

  lemma Joined<T>(s: seq<T>, a: nat, b: nat, c: nat)
    requires a <= b <= c <= |s|
    ensures s[a..b] + s[b..c] == s[a..c]
  {
  }

  lemma Appended<T>(before: seq<T>, s: seq<T>, a: nat, b: nat, c: nat)
    requires a <= b <= c <= |s|
    ensures before + s[a..b] + s[b..c] == before + s[a..c]
  {
    Joined(s, a, b, c);
  }
}

/**
 Descriptors and write_all, on buffers. Reads and writes return whatever the kernel allows: any positive number of bytes
 up to what was asked for, or a failure.
 */
module Forwarding {
  import opened Streams

  /** Some error number; a call that fails sets one that is not 0. */
  method AnyErrno() returns (errno: int)
    ensures errno != 0
  {
    errno := *;
    if errno == 0 { errno := 5; }
  }

  /** A descriptor to write to. */
  class Sink {
    var written: seq<byte>
    ghost var failures: seq<int>  // the error numbers of the calls that failed

    constructor ()
      ensures written == [] && failures == []
    {
      written, failures := [], [];
    }

    /** write(2). */
    method Write(buffer: array<byte>, start: nat, count: nat) returns (n: int, errno: int)
      requires start + count <= buffer.Length
      modifies this
      ensures n < 0 ==> written == old(written) && errno != 0 && failures == old(failures) + [errno]
      ensures n >= 0 ==> n <= count && (count > 0 ==> n > 0) && written == old(written) + buffer[start..start + n]
      ensures n >= 0 ==> failures == old(failures)
    {
      if * {
        n := -1;
        errno := AnyErrno();
        failures := failures + [errno];
      } else {
        errno := 0;
        n :| 0 <= n <= count && (count > 0 ==> n > 0);
        written := written + buffer[start..start + n];
      }
    }
  }

  /** A descriptor to read from: everything it will ever carry, how much of it was read, and whether it ends there. A
      read that would block for good is represented by one that fails. */
  class Source {
    const stream: seq<byte>
    const ends: bool
    var pos: nat
    ghost var failures: seq<int>

    constructor (stream: seq<byte>, ends: bool)
      ensures this.stream == stream && this.ends == ends && pos == 0 && failures == []
    {
      this.stream, this.ends := stream, ends;
      pos, failures := 0, [];
    }

    ghost predicate Valid()
      reads this
    {
      pos <= |stream|
    }

    ghost function AsPipe(): Pipe
      reads this
    {
      Pipe(stream, pos, ends)
    }

    /** read(2) of at most `buffer.Length` bytes. */
    method Read(buffer: array<byte>) returns (n: int, errno: int)
      requires Valid() && buffer.Length > 0
      modifies this, buffer
      ensures Valid()
      ensures n < 0 ==> pos == old(pos) && errno != 0 && failures == old(failures) + [errno]
      ensures n >= 0 ==> failures == old(failures)
      ensures n == 0 ==> pos == old(pos) == |stream| && ends
      ensures n > 0 ==> n <= buffer.Length && pos == old(pos) + n && buffer[..n] == stream[old(pos)..pos]
    {
      errno := 0;
      var succeeds: bool := *;
      if succeeds && pos < |stream| {
        var k: nat :| 1 <= k <= buffer.Length && pos + k <= |stream|;
        var i := 0;
        while i < k
          invariant 0 <= i <= k && pos == old(pos) && failures == old(failures)
          invariant buffer[..i] == stream[pos..pos + i]
        {
          buffer[i] := stream[pos + i];
          i := i + 1;
        }
        n, pos := k, pos + k;
      } else if succeeds && ends {
        n := 0;
      } else {
        n := -1;
        errno := AnyErrno();
        failures := failures + [errno];
      }
    }
  }

  /** The sizes of the writes that succeeded. */
  function Sum(sizes: seq<nat>): nat {
    if sizes == [] then 0 else Sum(sizes[..|sizes| - 1]) + sizes[|sizes| - 1]
  }

  ghost predicate Positive(sizes: seq<nat>) {
    forall i :: 0 <= i < |sizes| ==> sizes[i] > 0
  }

  /** write_all: on success exactly the buffer is written; it fails with the first write that does, and then only a part of
      the buffer is written that stops short. */
  method WriteAll(fd: Sink, buffer: array<byte>, count: nat) returns (ok: bool, errno: int, ghost sizes: seq<nat>)
    requires count <= buffer.Length
    modifies fd
    ensures Sum(sizes) <= count && fd.written == old(fd.written) + buffer[..Sum(sizes)]
    ensures ok ==> Sum(sizes) == count && fd.failures == old(fd.failures)
    ensures !ok ==> errno != 0 && (count > 0 ==> Sum(sizes) < count) && fd.failures == old(fd.failures) + [errno]
    ensures count > 0 ==> Positive(sizes)
  {
    var total := 0;
    sizes := [];
    while true
      invariant 0 <= total <= count && (count > 0 ==> total < count)
      invariant fd.written == old(fd.written) + buffer[..total] && fd.failures == old(fd.failures)
      invariant total == Sum(sizes) && (count > 0 ==> Positive(sizes))
      decreases count - total
    {
      var n, e := fd.Write(buffer, total, count - total);
      if n < 0 {
        return false, e, sizes;
      }
      sizes := sizes + [n];
      assert sizes[..|sizes| - 1] + [n] == sizes;
      total := total + n;
      if total >= count {
        return true, 0, sizes;
      }
    }
  }

  // ---------------------------------------------------------------- what a forwarding loop did

  /** One read of a forwarding loop and the writes that passed it on. */
  datatype Move = Move(read: nat, sizes: seq<nat>)

  ghost predicate Proper(m: Move) {
    1 <= m.read <= BUFFER_SIZE && Positive(m.sizes) && Sum(m.sizes) <= m.read
  }

  /** Every read was passed on in full, but the last one if the loop fell short. */
  ghost predicate Forwards(moves: seq<Move>, short: bool) {
    && (short ==> moves != [])
    && forall i :: 0 <= i < |moves| ==>
         Proper(moves[i]) && (Sum(moves[i].sizes) < moves[i].read <==> short && i == |moves| - 1)
  }

  function Reads(moves: seq<Move>): nat {
    if moves == [] then 0 else Reads(moves[..|moves| - 1]) + moves[|moves| - 1].read
  }

  function Writes(moves: seq<Move>): nat {
    if moves == [] then 0 else Writes(moves[..|moves| - 1]) + Sum(moves[|moves| - 1].sizes)
  }

  lemma MovesAppend(moves: seq<Move>, m: Move)
    requires Forwards(moves, false) && Proper(m)
    ensures Forwards(moves + [m], Sum(m.sizes) < m.read)
    ensures Reads(moves + [m]) == Reads(moves) + m.read
    ensures Writes(moves + [m]) == Writes(moves) + Sum(m.sizes)
  {
    assert (moves + [m])[..|moves|] == moves;
  }

  /** Forwarding loses nothing unless it falls short. */
  lemma {:induction false} WritesAgainstReads(moves: seq<Move>, short: bool)
    requires Forwards(moves, short)
    ensures if short then Writes(moves) < Reads(moves) else Writes(moves) == Reads(moves)
  {
    if moves != [] {
      WritesAgainstReads(moves[..|moves| - 1], false);
    }
  }

  lemma LastFellShort(moves: seq<Move>)
    requires Forwards(moves, true)
    ensures
      var init, m := moves[..|moves| - 1], moves[|moves| - 1];
      && Forwards(init, false) && Proper(m)
      && Reads(moves) == Reads(init) + m.read
      && Writes(moves) == Reads(init) + Sum(m.sizes) < Reads(moves)
  {
    WritesAgainstReads(moves[..|moves| - 1], false);
  }

  /** `after` is `before` and the part of `stream` from `from` to `to`. */
  predicate Carried(stream: seq<byte>, from: nat, to: nat, before: seq<byte>, after: seq<byte>) {
    from <= to <= |stream| && after == before + stream[from..to]
  }

  /** What a forwarding loop has done after `moves`: read `stream` from `from` to `pos` and appended to `before`, as `after`,
      the part that its writes carried. */
  ghost predicate Forwarded(stream: seq<byte>, from: nat, pos: nat, before: seq<byte>, after: seq<byte>, moves: seq<Move>,
                            short: bool)
  {
    && Forwards(moves, short)
    && pos == from + Reads(moves) <= |stream|
    && Writes(moves) <= Reads(moves)
    && Carried(stream, from, from + Writes(moves), before, after)
  }

  lemma Prefix<T>(s: seq<T>, a: nat, t: seq<T>, n: nat, k: nat)
    requires k <= n <= |t| && a + n <= |s| && t[..n] == s[a..a + n]
    ensures t[..k] == s[a..a + k]
  {
    assert t[..k] == t[..n][..k];
  }

  lemma PassedOn(stream: seq<byte>, from: nat, pos: nat, before: seq<byte>, after: seq<byte>, buffer: seq<byte>, n: nat,
                 k: nat)
    requires k <= n <= |buffer| && pos + n <= |stream| && buffer[..n] == stream[pos..pos + n]
    requires Carried(stream, from, pos, before, after)
    ensures Carried(stream, from, pos + k, before, after + buffer[..k])
  {
    Prefix(stream, pos, buffer, n, k);
    Appended(before, stream, from, pos, pos + k);
  }

  /** What was read has all been passed on. */
  lemma ForwardedAll(stream: seq<byte>, from: nat, pos: nat, before: seq<byte>, after: seq<byte>, moves: seq<Move>)
    requires Forwarded(stream, from, pos, before, after, moves, false)
    ensures after == before + stream[from..pos]
    ensures pos == |stream| ==> after == before + stream[from..]
  {
    WritesAgainstReads(moves, false);
  }

  /** One more move: `n` bytes read, of which the writes carried Sum(sizes). */
  lemma ForwardedOn(stream: seq<byte>, from: nat, pos: nat, before: seq<byte>, after: seq<byte>, moves: seq<Move>,
                    buffer: seq<byte>, n: nat, sizes: seq<nat>)
    requires Forwarded(stream, from, pos, before, after, moves, false) && Proper(Move(n, sizes))
    requires n <= |buffer| && pos + n <= |stream| && buffer[..n] == stream[pos..pos + n]
    ensures Forwarded(stream, from, pos + n, before, after + buffer[..Sum(sizes)], moves + [Move(n, sizes)], Sum(sizes) < n)
  {
    WritesAgainstReads(moves, false);
    PassedOn(stream, from, pos, before, after, buffer, n, Sum(sizes));
    MovesAppend(moves, Move(n, sizes));
  }
}

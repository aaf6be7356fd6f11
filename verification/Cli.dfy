/**
 The command line as the program keeps it: a socket path and, after "--", a growing vector of the child program's
 arguments that is always terminated by a null pointer.
 */
module Cli {
  import opened Streams

  const INIT_CAPACITY: nat := 8

  /** The growth factor is 1.5. The product is computed in double and truncated, which is exact below 2^53. */
  function Grown(capacity: nat): nat {
    3 * capacity / 2
  }

  /** The capacity with which an append writes the argument and the null pointer behind it. */
  function AppendCapacity(size: nat, capacity: nat): nat {
    if size + 2 > capacity then Grown(capacity) else capacity
  }

  /** The two writes of an append are inside the block unless the vector was shrunk to fit while it was empty: that leaves
      room for the null pointer alone, and 1.5 times 1 truncates to 1. */
  lemma AppendFitsIff(size: nat, capacity: nat)
    requires size + 1 <= capacity
    ensures size + 2 <= AppendCapacity(size, capacity) <==> capacity != 1
  {
    if capacity >= 2 {
      assert Grown(capacity) >= capacity + 1;
    }
  }

  // ---------------------------------------------------------------- the heap

  type Cell = Option<string>  // a string, or None for a null pointer

  /** The allocator. Request number `n` fails if `fails(n)`; any pattern of failures is possible. */
  class Heap {
    const fails: nat -> bool
    var requests: nat
    var live: set<array<Cell>>
    var frees: nat
    var moved: nat  // elements that reallocations had to carry over

    constructor (fails: nat -> bool)
      ensures this.fails == fails && requests == 0 && live == {} && frees == 0 && moved == 0
    {
      this.fails := fails;
      requests, live, frees, moved := 0, {}, 0, 0;
    }

    method Malloc(n: nat) returns (block: array?<Cell>)
      modifies this
      ensures requests == old(requests) + 1 && frees == old(frees) && moved == old(moved)
      ensures block == null <==> fails(old(requests))
      ensures block == null ==> live == old(live)
      ensures block != null ==> fresh(block) && block.Length == n && live == old(live) + {block}
    {
      var failed := fails(requests);
      requests := requests + 1;
      if failed {
        return null;
      }
      block := new Cell[n];
      live := live + {block};
    }

    /** The block that was there stays in use exactly if the call fails. */
    method Realloc(block: array<Cell>, n: nat) returns (grown: array?<Cell>)
      requires block in live && n > 0
      modifies this
      ensures requests == old(requests) + 1 && frees == old(frees)
      ensures grown == null <==> fails(old(requests))
      ensures grown == null ==> live == old(live) && moved == old(moved)
      ensures grown != null ==>
                && fresh(grown) && grown.Length == n && live == old(live) - {block} + {grown}
                && (forall i :: 0 <= i < n && i < block.Length ==> grown[i] == block[i])
                && moved == old(moved) + block.Length
    {
      var failed := fails(requests);
      requests := requests + 1;
      if failed {
        return null;
      }
      var b := new Cell[n];
      forall i | 0 <= i < n && i < block.Length {
        b[i] := block[i];
      }
      live, moved := live - {block} + {b}, moved + block.Length;
      grown := b;
    }

    /** Only a block in use may be released, so none is released twice. */
    method Free(block: array<Cell>)
      requires block in live
      modifies this
      ensures live == old(live) - {block} && frees == old(frees) + 1
      ensures requests == old(requests) && moved == old(moved)
    {
      live, frees := live - {block}, frees + 1;
    }
  }

  // ---------------------------------------------------------------- the vector

  /** `block` holds `contents` and the null pointer that ends them. */
  ghost predicate Vector(block: seq<Cell>, contents: seq<string>) {
    && |contents| + 1 <= |block|
    && block[|contents|] == None
    && forall i :: 0 <= i < |contents| ==> block[i] == Some(contents[i])
  }

  /** The strings that pointers other than null point to. */
  function Strings(cells: seq<Cell>): seq<string>
    requires forall i :: 0 <= i < |cells| ==> cells[i].Some?
  {
    seq(|cells|, i requires 0 <= i < |cells| => cells[i].value)
  }

  /** How an append ends: with the argument stored, with a failed allocation, or behind the end of the block, after which
      nothing is known. */
  datatype Appended = Stored | NoMemory | Overrun

  /** struct usockit_cli. */
  class Cli {
    const heap: Heap
    var socketPathname: Option<string>
    var childProgram: bool
    var capacity: nat
    var size: nat
    var argv: array?<Cell>
    ghost var contents: seq<string>

    ghost predicate Valid()
      reads this, heap, argv
    {
      childProgram ==>
        && argv != null && argv in heap.live
        && argv.Length == capacity && size == |contents|
        && Vector(argv[..], contents)
    }

    /** Since the vector was set up it has only grown and no allocation has failed. */
    ghost predicate OnlyGrown()
      reads this, heap
    {
      && capacity == CapacityAfter(size)
      && heap.requests == 1 + GrowthsAfter(size)
      && heap.moved == MovedAfter(size)
    }

    lemma GrowthIsDue()
      requires OnlyGrown()
      ensures capacity >= INIT_CAPACITY
      ensures size + 2 > capacity && heap.fails(heap.requests) <==> GrowthFails(size, heap.fails)
    {
      CapacityIsTight(size);
    }

    /** usockit_cli_create. */
    constructor (heap: Heap)
      ensures Valid() && this.heap == heap && socketPathname == None && !childProgram && argv == null
    {
      this.heap := heap;
      socketPathname, childProgram := None, false;
      capacity, size, argv, contents := 0, 0, null, [];
    }

    /** usockit_cli_init_child_program_argv. */
    method InitChildProgramArgv() returns (ok: bool)
      requires Valid() && !childProgram
      modifies this, heap
      ensures Valid() && socketPathname == old(socketPathname)
      ensures ok == childProgram == !heap.fails(old(heap.requests))
      ensures ok ==> contents == [] && capacity == INIT_CAPACITY && fresh(argv) && heap.live == old(heap.live) + {argv}
      ensures !ok ==> heap.live == old(heap.live)
      ensures heap.requests == old(heap.requests) + 1 && heap.frees == old(heap.frees) && heap.moved == old(heap.moved)
      ensures ok && old(heap.requests) == old(heap.moved) == 0 ==> OnlyGrown()
    {
      var tmp := heap.Malloc(INIT_CAPACITY);
      if tmp == null {
        return false;
      }
      childProgram := true;
      capacity := INIT_CAPACITY;
      size := 0;
      argv := tmp;
      argv[0] := None;
      contents := [];
      return true;
    }

    /** usockit_cli_append_child_program_arg. */
    method AppendChildProgramArg(arg: string) returns (r: Appended)
      requires Valid() && childProgram
      modifies this, heap, argv
      ensures r == NoMemory <==> old(size) + 2 > old(capacity) && heap.fails(old(heap.requests))
      ensures r == Overrun <==> old(capacity) == 1 && r != NoMemory
      ensures r != Overrun ==> Valid() && childProgram && socketPathname == old(socketPathname)
      ensures r == Stored ==> contents == old(contents) + [arg] && capacity == AppendCapacity(old(size), old(capacity))
      ensures r == NoMemory ==> contents == old(contents) && capacity == old(capacity) && argv == old(argv)
      ensures argv == old(argv) || fresh(argv)
      ensures heap.live == old(heap.live) - {old(argv)} + {argv} && heap.frees == old(heap.frees)
      ensures r == Stored && old(OnlyGrown()) ==> OnlyGrown()
    {
      AppendFitsIff(size, capacity);
      if size + 2 > capacity {
        var newCapacity := Grown(capacity);
        var tmp := heap.Realloc(argv, newCapacity);
        if tmp == null {
          return NoMemory;
        }
        capacity := newCapacity;
        argv := tmp;
      }
      argv[size] := Some(arg);
      size := size + 1;
      if size >= capacity {
        return Overrun;
      }
      argv[size] := None;
      contents := contents + [arg];
      return Stored;
    }

    /** usockit_cli_shrink_to_fit_child_program_argv. */
    method ShrinkToFitChildProgramArgv() returns (ok: bool)
      requires Valid() && childProgram
      modifies this, heap
      ensures Valid() && childProgram && socketPathname == old(socketPathname) && contents == old(contents)
      ensures ok == !(old(size) + 1 != old(capacity) && heap.fails(old(heap.requests)))
      ensures ok ==> capacity == size + 1
      ensures !ok ==> capacity == old(capacity) && argv == old(argv)
      ensures argv == old(argv) || fresh(argv)
      ensures heap.live == old(heap.live) - {old(argv)} + {argv} && heap.frees == old(heap.frees)
    {
      var fittedCapacity := size + 1;
      if fittedCapacity == capacity {
        return true;
      }
      var tmp := heap.Realloc(argv, fittedCapacity);
      if tmp == null {
        return false;
      }
      capacity := fittedCapacity;
      argv := tmp;
      return true;
    }

    /** usockit_cli_destroy_definitely_init_child_program_argv. */
    method DestroyDefinitelyInit()
      requires Valid() && childProgram
      modifies heap
      ensures heap.live == old(heap.live) - {argv} && heap.frees == old(heap.frees) + 1
    {
      heap.Free(argv);
    }

    /** usockit_cli_destroy. */
    method Destroy()
      requires Valid()
      modifies heap
      ensures heap.live == if childProgram then old(heap.live) - {argv} else old(heap.live)
      ensures heap.frees == old(heap.frees) + if childProgram then 1 else 0
    {
      if childProgram {
        DestroyDefinitelyInit();
      }
    }
  }

  /** With memory to spare, an append to a vector that was shrunk to fit while empty runs over. */
  method ShrunkEmptyOverruns(heap: Heap) returns (r: Appended)
    requires forall n :: !heap.fails(n)
    modifies heap
    ensures r == Overrun
  {
    var cli := new Cli(heap);
    var ok := cli.InitChildProgramArgv();
    ok := cli.ShrinkToFitChildProgramArgv();
    r := cli.AppendChildProgramArg("true");
  }

  // ---------------------------------------------------------------- growth, amortised

  /** The append that follows `n` others has to grow the vector. */
  predicate GrowsAt(n: nat) {
    n + 2 > CapacityAfter(n)
  }

  /** It needs memory for that and does not get it. */
  predicate GrowthFails(n: nat, fails: nat -> bool) {
    GrowsAt(n) && fails(1 + GrowthsAfter(n))
  }

  /** The capacity after `n` appends to a new vector. */
  function CapacityAfter(n: nat): nat {
    if n == 0 then INIT_CAPACITY else AppendCapacity(n - 1, CapacityAfter(n - 1))
  }

  function GrowthsAfter(n: nat): nat {
    if n == 0 then 0 else GrowthsAfter(n - 1) + if GrowsAt(n - 1) then 1 else 0
  }

  /** How many elements the growths carried over: each carries a whole block. */
  function MovedAfter(n: nat): nat {
    if n == 0 then 0 else MovedAfter(n - 1) + if GrowsAt(n - 1) then CapacityAfter(n - 1) else 0
  }

  /** The vector always fits, is never more than half as large again as it needs to be once it has grown, grows only when
      it is full, and a growth adds at least four. */
  lemma {:induction false} CapacityIsTight(n: nat)
    ensures n + 1 <= CapacityAfter(n) && INIT_CAPACITY <= CapacityAfter(n)
    ensures CapacityAfter(n) == INIT_CAPACITY || 2 * CapacityAfter(n) <= 3 * n
    ensures GrowsAt(n) ==> CapacityAfter(n) == n + 1
    ensures 4 * GrowthsAfter(n) <= CapacityAfter(n) - INIT_CAPACITY
  {
    if n > 0 {
      CapacityIsTight(n - 1);
      AppendFitsIff(n - 1, CapacityAfter(n - 1));
    }
  }

  /** Elements moved, against the capacity reached and the number of growths. */
  lemma {:induction false} MovedAgainstCapacity(n: nat)
    ensures MovedAfter(n) <= 2 * (CapacityAfter(n) - INIT_CAPACITY) + GrowthsAfter(n)
  {
    if n > 0 {
      MovedAgainstCapacity(n - 1);
    }
  }

  /** The cost of n appends is linear: fewer than 3.375 elements moved for each. */
  lemma AppendsAreLinear(n: nat)
    ensures 8 * MovedAfter(n) <= 27 * n
  {
    CapacityIsTight(n);
    MovedAgainstCapacity(n);
  }

  function Pow(base: nat, exponent: nat): nat {
    if exponent == 0 then 1 else base * Pow(base, exponent - 1)
  }

  /** Capacity grows exponentially with the number of growths, by at least 11/8 each time. */
  lemma {:induction false} GrowthsAreFew(n: nat)
    ensures INIT_CAPACITY * Pow(11, GrowthsAfter(n)) <= Pow(8, GrowthsAfter(n)) * CapacityAfter(n)
  {
    if n > 0 {
      GrowthsAreFew(n - 1);
      CapacityIsTight(n - 1);
      if GrowsAt(n - 1) {
        GrowthStep(Pow(11, GrowthsAfter(n - 1)), Pow(8, GrowthsAfter(n - 1)), CapacityAfter(n - 1), CapacityAfter(n));
      }
    }
  }

  lemma GrowthStep(a: nat, p: nat, c: nat, d: nat)
    requires 8 * a <= p * c && 11 * c <= 8 * d
    ensures 8 * (11 * a) <= 8 * p * d
  {
    assert p * (11 * c) <= p * (8 * d);
  }
}

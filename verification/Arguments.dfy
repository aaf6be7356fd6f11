/**
 The command line: what each list of arguments means, argument by argument, and the loop of main() that finds it out while
 it builds the vector of the child program's arguments. `args` is argv without the program's own name.
 */
module Arguments {
  import opened Streams
  import opened Cli
  import Client

  /** What the program goes on to do. The runs of the server and of the client are not part of this module; what they
      return is a parameter. */
  datatype Outcome = Exit(code: nat) | RunServer(socket: string, argv: seq<string>) | RunClient(socket: string)

  /** enum usockit_server_ret_status. */
  datatype ServerStatus = ServerSuccess | ServerOutOfMemory | ServerUnknown

  /** main_client() maps every status. */
  function ClientCode(client: Client.Status): nat {
    match client
    case SuccessEof => 0
    case SuccessFuckOff => 48
    case Unknown => 125
  }

  /** main_server() has no case for OUT_OF_MEMORY, although usockit_server() returns it when strdup(3) fails: what follows is
      marked unreachable, and the exit code is undefined. */
  function ServerCode(server: ServerStatus): Option<nat> {
    match server
    case ServerSuccess => Some(0)
    case ServerOutOfMemory => None
    case ServerUnknown => Some(125)
  }

  /** The exit code, where there is one. */
  function ExitCode(o: Outcome, client: Client.Status, server: ServerStatus): Option<nat> {
    match o
    case Exit(code) => Some(code)
    case RunClient(_) => Some(ClientCode(client))
    case RunServer(_, _) => ServerCode(server)
  }

  const OUT_OF_MEMORY: nat := 101
  const MISSING_ARGUMENT: nat := 3
  const INVALID_ARGUMENT: nat := 7
  const EMPTY_ARGUMENT: nat := 9
  const PATH_TOO_LONG: nat := 48

  // ---------------------------------------------------------------- the meaning of a command line

  /** Where the first "--" is, or the end if there is none. */
  ghost function Dashes(args: seq<string>): (d: nat)
    ensures d <= |args| && (forall k :: 0 <= k < d ==> args[k] != "--")
    ensures d < |args| ==> args[d] == "--"
  {
    if args == [] || args[0] == "--" then 0 else 1 + Dashes(args[1..])
  }

  /** With which code, if any, the child's argument number `n` ends the program. */
  function ChildOffence(arg: string, n: nat, fails: nat -> bool): Option<nat> {
    if n == 0 && arg == "" then Some(EMPTY_ARGUMENT)
    else if GrowthFails(n, fails) then Some(OUT_OF_MEMORY)
    else None
  }

  /** The same for argument `i`, in front of the "--". */
  function PathOffence(arg: string, i: nat): Option<nat> {
    if arg == "--version" then Some(0)
    else if i > 0 then Some(INVALID_ARGUMENT)
    else if arg == "" then Some(EMPTY_ARGUMENT)
    else None
  }

  /** With which code, if any, argument `i` ends the program, when none before it did. Before the "--" only one argument is
      allowed, the socket path, and it must not be empty; the program behind the "--" must not be empty either; and the
      vector needs memory when it is set up and whenever it is full. */
  ghost function Offence(args: seq<string>, fails: nat -> bool, i: nat): Option<nat>
    requires i < |args|
  {
    OffenceAt(args, Dashes(args), fails, i)
  }

  /** The same for any place `d` of the "--". */
  function OffenceAt(args: seq<string>, d: nat, fails: nat -> bool, i: nat): Option<nat>
    requires i < |args|
  {
    if i < d then PathOffence(args[i], i)
    else if i == d then
      if fails(0) then Some(OUT_OF_MEMORY) else None
    else ChildOffence(args[i], i - d - 1, fails)
  }

  predicate NoneAt(args: seq<string>, d: nat, fails: nat -> bool, n: nat)
    requires n <= |args|
  {
    forall i :: 0 <= i < n ==> OffenceAt(args, d, fails, i) == None
  }

  /** None of the first `n` arguments offends. */
  ghost predicate NoOffence(args: seq<string>, fails: nat -> bool, n: nat)
    requires n <= |args|
  {
    NoneAt(args, Dashes(args), fails, n)
  }

  /** A program to run is needed, and memory once more if the vector is not filled to the last cell. */
  function FinishServer(socket: string, argv: seq<string>, fails: nat -> bool): Outcome {
    if argv == [] then Exit(MISSING_ARGUMENT)
    else if |argv| + 1 != CapacityAfter(|argv|) && fails(1 + GrowthsAfter(|argv|)) then Exit(OUT_OF_MEMORY)
    else RunServer(socket, argv)
  }

  /** A socket path is needed that is not too long; the arguments behind the "--", if there is one, are for the server. */
  function FinishWith(socket: Option<string>, argv: Option<seq<string>>, limit: nat, fails: nat -> bool): Outcome {
    if socket == None then Exit(MISSING_ARGUMENT)
    else if |socket.value| > limit then Exit(PATH_TOO_LONG)
    else if argv == None then RunClient(socket.value)
    else FinishServer(socket.value, argv.value, fails)
  }

  /** What a command line without an offending argument does. */
  ghost function Finish(args: seq<string>, limit: nat, fails: nat -> bool): Outcome {
    var d := Dashes(args);
    FinishWith(if d > 0 then Some(args[0]) else None, if d < |args| then Some(args[d + 1..]) else None, limit, fails)
  }

  /** The first offending argument decides; `limit` is the longest socket path that the system allows. */
  ghost predicate Means(args: seq<string>, limit: nat, fails: nat -> bool, o: Outcome) {
    && (forall i :: 0 <= i < |args| && NoOffence(args, fails, i) && Offence(args, fails, i).Some? ==>
          o == Exit(Offence(args, fails, i).value))
    && (NoOffence(args, fails, |args|) ==> o == Finish(args, limit, fails))
  }

  /** The vector was set up, so it has to be released. */
  ghost predicate SetsUpVector(args: seq<string>, fails: nat -> bool) {
    var d := Dashes(args);
    d < |args| && NoOffence(args, fails, d) && !fails(0)
  }

  // ---------------------------------------------------------------- main

  /** The program is at argument `i` and nothing has offended. */
  ghost predicate Parsed(cli: Cli, args: seq<string>, i: nat)
    reads cli, cli.heap, cli.argv
    requires i <= |args|
  {
    var d := Dashes(args);
    && cli.Valid()
    && cli.socketPathname == (if i > 0 && d > 0 then Some(args[0]) else None)
    && (cli.childProgram <==> i > d)
    && (cli.childProgram ==> cli.heap.live == {cli.argv} && cli.contents == args[d + 1..i] && cli.OnlyGrown())
    && (!cli.childProgram ==> cli.heap.live == {} && cli.heap.requests == cli.heap.moved == 0)
    && cli.heap.frees == 0
  }

  /** A "--" that comes after the first one is an argument like any other. */
  lemma DashesUpTo(args: seq<string>, i: nat)
    requires i < |args| && i <= Dashes(args)
    ensures args[i] == "--" <==> i == Dashes(args)
  {
  }

  lemma OneMore(args: seq<string>, d: nat, i: nat)
    requires d <= i < |args|
    ensures args[d..i] + [args[i]] == args[d..i + 1]
  {
  }

  /** The loop's body for an argument behind the "--". */
  method ChildArgument(cli: Cli, arg: string) returns (code: Option<nat>)
    requires cli.Valid() && cli.childProgram && cli.OnlyGrown() && cli.heap.live == {cli.argv}
    modifies cli, cli.heap, cli.argv
    ensures code == ChildOffence(arg, |old(cli.contents)|, cli.heap.fails)
    ensures cli.argv == old(cli.argv) || fresh(cli.argv)
    ensures code == None ==>
              && cli.Valid() && cli.childProgram && cli.socketPathname == old(cli.socketPathname)
              && cli.contents == old(cli.contents) + [arg] && cli.OnlyGrown()
              && cli.heap.live == {cli.argv} && cli.heap.frees == old(cli.heap.frees)
    ensures code.Some? ==> cli.heap.live == {} && cli.heap.frees == old(cli.heap.frees) + 1
  {
    if cli.size == 0 && arg == "" {
      cli.DestroyDefinitelyInit();
      assert ChildOffence(arg, |old(cli.contents)|, cli.heap.fails) == Some(EMPTY_ARGUMENT);
      return Some(EMPTY_ARGUMENT);
    }
    cli.GrowthIsDue();
    var r := cli.AppendChildProgramArg(arg);
    if r == NoMemory {
      cli.DestroyDefinitelyInit();
      assert ChildOffence(arg, |old(cli.contents)|, cli.heap.fails) == Some(OUT_OF_MEMORY);
      return Some(OUT_OF_MEMORY);
    }
    assert ChildOffence(arg, |old(cli.contents)|, cli.heap.fails) == None;
    return None;
  }

  /** The loop's body. */
  method Argument(cli: Cli, args: seq<string>, i: nat) returns (code: Option<nat>)
    requires i < |args| && Parsed(cli, args, i)
    modifies cli, cli.heap, cli.argv
    ensures code == Offence(args, cli.heap.fails, i)
    ensures code == None ==> Parsed(cli, args, i + 1) && (cli.argv == old(cli.argv) || fresh(cli.argv))
    ensures code.Some? ==> cli.heap.live == {} && cli.heap.frees == if i > Dashes(args) then 1 else 0
  {
    var arg := args[i];
    if cli.childProgram {
      OneMore(args, Dashes(args) + 1, i);
      code := ChildArgument(cli, arg);
      return;
    }
    DashesUpTo(args, i);
    if arg == "--" {
      var ok := cli.InitChildProgramArgv();
      return if ok then None else Some(OUT_OF_MEMORY);
    }
    if arg == "--version" {
      return Some(0);
    }
    if cli.socketPathname != None {
      return Some(INVALID_ARGUMENT);
    }
    if arg != "" {
      cli.socketPathname := Some(arg);
      return None;
    }
    return Some(EMPTY_ARGUMENT);
  }

  /** main_server(), up to the call of usockit_server(). The server gets the arguments in a block that ends with their
      null pointer. */
  method MainServer(cli: Cli) returns (o: Outcome)
    requires cli.Valid() && cli.childProgram && cli.socketPathname.Some? && cli.OnlyGrown()
    modifies cli, cli.heap
    ensures cli.Valid() && cli.childProgram
    ensures cli.socketPathname == old(cli.socketPathname) && cli.contents == old(cli.contents)
    ensures o == FinishServer(cli.socketPathname.value, cli.contents, cli.heap.fails)
    ensures o.RunServer? ==> cli.argv.Length == |cli.contents| + 1
    ensures cli.argv == old(cli.argv) || fresh(cli.argv)
    ensures cli.heap.live == old(cli.heap.live) - {old(cli.argv)} + {cli.argv} && cli.heap.frees == old(cli.heap.frees)
  {
    if cli.size == 0 {
      return Exit(MISSING_ARGUMENT);
    }
    var ok := cli.ShrinkToFitChildProgramArgv();
    if !ok {
      return Exit(OUT_OF_MEMORY);
    }
    var strings := Strings(cli.argv[..cli.size]);
    assert strings == cli.contents;
    return RunServer(cli.socketPathname.value, strings);
  }

  /** The rest of main(), when no argument offended. */
  method AfterArguments(cli: Cli, limit: nat) returns (o: Outcome)
    requires cli.Valid() && if cli.childProgram then cli.OnlyGrown() && cli.heap.live == {cli.argv} else cli.heap.live == {}
    modifies cli, cli.heap
    ensures o == FinishWith(old(cli.socketPathname), if old(cli.childProgram) then Some(old(cli.contents)) else None, limit,
                            cli.heap.fails)
    ensures cli.heap.live == {} && cli.heap.frees == old(cli.heap.frees) + if old(cli.childProgram) then 1 else 0
  {
    if cli.socketPathname == None {
      cli.Destroy();
      return Exit(MISSING_ARGUMENT);
    }
    if |cli.socketPathname.value| > limit {
      cli.Destroy();
      return Exit(PATH_TOO_LONG);
    }
    if cli.childProgram {
      o := MainServer(cli);
      cli.DestroyDefinitelyInit();
    } else {
      o := RunClient(cli.socketPathname.value);
    }
  }

  lemma StopsAt(args: seq<string>, limit: nat, fails: nat -> bool, i: nat)
    requires i < |args| && NoOffence(args, fails, i) && Offence(args, fails, i).Some?
    ensures Means(args, limit, fails, Exit(Offence(args, fails, i).value))
    ensures SetsUpVector(args, fails) <==> i > Dashes(args)
  {
    forall j | 0 <= j < |args| && NoOffence(args, fails, j) && Offence(args, fails, j).Some? ensures j == i {
    }
    if i > Dashes(args) {
      assert Offence(args, fails, Dashes(args)) == None;
    }
  }

  lemma GoesOn(args: seq<string>, fails: nat -> bool, i: nat)
    requires i < |args| && NoOffence(args, fails, i) && Offence(args, fails, i) == None
    ensures NoOffence(args, fails, i + 1)
  {
  }

  lemma Finishes(args: seq<string>, limit: nat, fails: nat -> bool)
    requires NoOffence(args, fails, |args|)
    ensures Means(args, limit, fails, Finish(args, limit, fails))
    ensures SetsUpVector(args, fails) <==> Dashes(args) < |args|
  {
    assert Dashes(args) < |args| ==> Offence(args, fails, Dashes(args)) == None;
  }

  /** The loop of main(). */
  method ReadArguments(cli: Cli, args: seq<string>, ghost limit: nat) returns (code: Option<nat>)
    requires Parsed(cli, args, 0) && cli.argv == null
    modifies cli, cli.heap
    ensures code == None ==>
              && (cli.argv == null || fresh(cli.argv))
              && Parsed(cli, args, |args|) && NoOffence(args, cli.heap.fails, |args|)
    ensures code.Some? ==>
              && Means(args, limit, cli.heap.fails, Exit(code.value))
              && cli.heap.live == {} && cli.heap.frees == if SetsUpVector(args, cli.heap.fails) then 1 else 0
  {
    var i := 0;
    while i < |args|
      invariant 0 <= i <= |args| && (cli.argv == null || fresh(cli.argv))
      invariant Parsed(cli, args, i) && NoOffence(args, cli.heap.fails, i)
    {
      code := Argument(cli, args, i);
      if code.Some? {
        StopsAt(args, limit, cli.heap.fails, i);
        return;
      }
      GoesOn(args, cli.heap.fails, i);
      i := i + 1;
    }
    code := None;
  }

  /** main(). Whatever the arguments are and whichever allocations fail, the outcome is what the command line means, the
      vector is released exactly once if it was set up and never otherwise, and no memory is left in use. `client` and
      `server` are what the client or the server returns, if it comes to that. */
  method RunProgram(args: seq<string>, limit: nat, heap: Heap, client: Client.Status, server: ServerStatus)
      returns (o: Outcome, code: Option<nat>)
    requires heap.requests == 0 && heap.live == {} && heap.frees == 0 && heap.moved == 0
    modifies heap
    ensures Means(args, limit, heap.fails, o) && code == ExitCode(o, client, server)
    ensures heap.live == {}
    ensures heap.frees == if SetsUpVector(args, heap.fails) then 1 else 0
  {
    var cli := new Cli(heap);
    code := ReadArguments(cli, args, limit);
    if code.Some? {
      return Exit(code.value), code;
    }
    Finishes(args, limit, heap.fails);
    o := AfterArguments(cli, limit);
    code := ExitCode(o, client, server);
  }

  // ---------------------------------------------------------------- the grammar

  lemma {:induction false} FirstOffence(args: seq<string>, fails: nat -> bool, n: nat) returns (i: nat)
    requires n <= |args| && !NoOffence(args, fails, n)
    ensures i < n && NoOffence(args, fails, i) && Offence(args, fails, i).Some?
  {
    if NoOffence(args, fails, n - 1) {
      i := n - 1;
    } else {
      i := FirstOffence(args, fails, n - 1);
    }
  }

  /** Every command line means exactly one thing. */
  lemma MeansOneThing(args: seq<string>, limit: nat, fails: nat -> bool)
    ensures exists o :: Means(args, limit, fails, o)
    ensures forall o, o' :: Means(args, limit, fails, o) && Means(args, limit, fails, o') ==> o == o'
  {
    if NoOffence(args, fails, |args|) {
      Finishes(args, limit, fails);
    } else {
      var i := FirstOffence(args, fails, |args|);
      StopsAt(args, limit, fails, i);
    }
  }

  lemma DashesAt(args: seq<string>, d: nat)
    requires d <= |args| && (forall k :: 0 <= k < d ==> args[k] != "--") && (d < |args| ==> args[d] == "--")
    ensures Dashes(args) == d
  {
  }

  lemma SecondOffends(args: seq<string>, fails: nat -> bool)
    requires Dashes(args) > 1
    ensures Offence(args, fails, 1).Some?
  {
  }

  lemma OnePathAtMost(args: seq<string>, fails: nat -> bool)
    requires NoOffence(args, fails, |args|)
    ensures Dashes(args) <= 1
  {
    if Dashes(args) > 1 { SecondOffends(args, fails); }
  }

  predicate SocketPath(s: string, limit: nat) {
    s != "" && s != "--" && s != "--version" && |s| <= limit
  }

  /** How many requests for memory a command line with `n` arguments for the child makes: one to set the vector up, one for
      each growth, and one to shrink it if it does not fit already. */
  function Requests(n: nat): nat {
    1 + GrowthsAfter(n) + if n + 1 != CapacityAfter(n) then 1 else 0
  }

  /** The growths among the first `n` appends make the requests 1, 2, and so on. */
  lemma {:induction false} GrowthRequests(n: nat, fails: nat -> bool)
    ensures (forall j :: 0 <= j < n ==> !GrowthFails(j, fails))
       <==> (forall k :: 1 <= k <= GrowthsAfter(n) ==> !fails(k))
  {
    if n > 0 {
      GrowthRequests(n - 1, fails);
      assert GrowthFails(n - 1, fails) <==> GrowsAt(n - 1) && fails(GrowthsAfter(n));
    }
  }

  /** The client runs exactly on one argument that is a socket path. */
  lemma ClientIff(args: seq<string>, limit: nat, fails: nat -> bool, s: string)
    ensures Means(args, limit, fails, RunClient(s)) <==> args == [s] && SocketPath(s, limit)
  {
    if Means(args, limit, fails, RunClient(s)) {
      if !NoOffence(args, fails, |args|) {
        var i := FirstOffence(args, fails, |args|);
        assert false;
      }
      DashesUpTo(args, 0);
      assert Offence(args, fails, 0) == None;
      OnePathAtMost(args, fails);
    }
    if args == [s] && SocketPath(s, limit) {
      DashesAt(args, 1);
    }
  }

  /** The server runs exactly on a socket path, "--" and a program that is not empty, with any arguments whatever, if the
      allocations it needs succeed; and it gets exactly that program and those arguments. */
  lemma ServerIff(args: seq<string>, limit: nat, fails: nat -> bool, s: string, v: seq<string>)
    ensures Means(args, limit, fails, RunServer(s, v)) <==>
              && args == [s, "--"] + v && SocketPath(s, limit) && v != [] && v[0] != ""
              && forall k :: 0 <= k < Requests(|v|) ==> !fails(k)
  {
    if Means(args, limit, fails, RunServer(s, v)) {
      ServerOnlyIf(args, limit, fails, s, v);
    }
    if args == [s, "--"] + v && SocketPath(s, limit) && v != [] && v[0] != ""
       && forall k :: 0 <= k < Requests(|v|) ==> !fails(k)
    {
      ServerIf(args, limit, fails, s, v);
    }
  }

  lemma ServerIf(args: seq<string>, limit: nat, fails: nat -> bool, s: string, v: seq<string>)
    requires args == [s, "--"] + v && SocketPath(s, limit) && v != [] && v[0] != ""
    requires forall k :: 0 <= k < Requests(|v|) ==> !fails(k)
    ensures Means(args, limit, fails, RunServer(s, v))
  {
    DashesAt(args, 1);
    GrowthRequests(|v|, fails);
    forall i | 0 <= i < |args| ensures Offence(args, fails, i) == None {
      if i >= 2 {
        assert args[i] == v[i - 2];
      }
    }
    assert args[2..] == v;
  }

  lemma ServerOnlyIf(args: seq<string>, limit: nat, fails: nat -> bool, s: string, v: seq<string>)
    requires Means(args, limit, fails, RunServer(s, v))
    ensures args == [s, "--"] + v && SocketPath(s, limit) && v != [] && v[0] != ""
    ensures forall k :: 0 <= k < Requests(|v|) ==> !fails(k)
  {
    if !NoOffence(args, fails, |args|) {
      var i := FirstOffence(args, fails, |args|);
      assert false;
    }
    var d := Dashes(args);
    assert Offence(args, fails, 0) == None && Offence(args, fails, d) == None && Offence(args, fails, d + 1) == None;
    DashesUpTo(args, 0);
    OnePathAtMost(args, fails);
    forall j | 0 <= j < |v| ensures !GrowthFails(j, fails) {
      assert Offence(args, fails, d + 1 + j) == None;
    }
    GrowthRequests(|v|, fails);
  }

  /** When memory does not run out, parsing gives back the command line it was made from. */
  lemma RoundTrip(s: string, program: string, rest: seq<string>, limit: nat, fails: nat -> bool)
    requires SocketPath(s, limit) && program != "" && forall k :: !fails(k)
    ensures Means([s, "--", program] + rest, limit, fails, RunServer(s, [program] + rest))
  {
    assert [s, "--", program] + rest == [s, "--"] + ([program] + rest);
    ServerIff([s, "--"] + ([program] + rest), limit, fails, s, [program] + rest);
  }

  /** "--version" is obeyed in two places only: as the first argument, and right behind a socket path. */
  lemma VersionIff(args: seq<string>, limit: nat, fails: nat -> bool)
    ensures Means(args, limit, fails, Exit(0)) <==>
              || (|args| >= 1 && args[0] == "--version")
              || (|args| >= 2 && args[1] == "--version" && args[0] != "" && args[0] != "--")
  {
    if NoOffence(args, fails, |args|) {
      var d := Dashes(args);
      if |args| >= 1 {
        DashesUpTo(args, 0);
        assert Offence(args, fails, 0) == None;
      }
      if |args| >= 2 && d >= 1 {
        DashesUpTo(args, 1);
        assert Offence(args, fails, 1) == None;
      }
    } else {
      var i := FirstOffence(args, fails, |args|);
      VersionFirst(args, limit, fails, i);
    }
  }

  lemma VersionFirst(args: seq<string>, limit: nat, fails: nat -> bool, i: nat)
    requires i < |args| && NoOffence(args, fails, i) && Offence(args, fails, i).Some?
    ensures Means(args, limit, fails, Exit(0)) <==>
              || (|args| >= 1 && args[0] == "--version")
              || (|args| >= 2 && args[1] == "--version" && args[0] != "" && args[0] != "--")
  {
    DashesUpTo(args, 0);
    if i > 0 {
      assert Offence(args, fails, 0) == None;
    }
    if |args| >= 2 && Dashes(args) >= 1 {
      DashesUpTo(args, 1);
      if i > 1 {
        assert Offence(args, fails, 1) == None;
      }
    }
    assert Means(args, limit, fails, Exit(0)) <==> Offence(args, fails, i) == Some(0) by {
      MeansOneThing(args, limit, fails);
    }
  }

  lemma MeansSame(args: seq<string>, limit: nat, fails: nat -> bool, o: Outcome, o': Outcome)
    requires Means(args, limit, fails, o) && Means(args, limit, fails, o')
    ensures o == o'
  {
    MeansOneThing(args, limit, fails);
  }
}

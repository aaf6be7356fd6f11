/** The exit code of the program, from its arguments, the allocations that fail, and what the client or the server returns. */
module ExitCodes {
  import opened Streams
  import opened Cli
  import opened Arguments
  import Client

  predicate Path(s: string) {
    s != "" && s != "--" && s != "--version"
  }

  // What the arguments behind the "--", which is argument `d`, come to.

  /** The program that they begin with is empty. */
  predicate NoProgram(args: seq<string>, d: nat) {
    d + 1 < |args| && args[d + 1] == ""
  }

  ghost predicate SomeGrowthFails(args: seq<string>, d: nat, fails: nat -> bool)
    requires d < |args|
  {
    exists k :: 1 <= k <= GrowthsAfter(|args| - d - 1) && fails(k)
  }

  /** Memory runs out before they are all taken in. */
  ghost predicate RunsOut(args: seq<string>, d: nat, fails: nat -> bool)
    requires d < |args|
  {
    fails(0) || (!NoProgram(args, d) && SomeGrowthFails(args, d, fails))
  }

  ghost predicate Taken(args: seq<string>, d: nat, fails: nat -> bool)
    requires d < |args|
  {
    !fails(0) && !NoProgram(args, d) && !SomeGrowthFails(args, d, fails)
  }

  /** The vector has room to spare, and the allocation that gives it back fails. */
  predicate ShrinkFails(args: seq<string>, d: nat, fails: nat -> bool)
    requires d < |args|
  {
    var n := |args| - d - 1;
    n + 1 != CapacityAfter(n) && fails(1 + GrowthsAfter(n))
  }

  /** The command line is one that runs the server. */
  ghost predicate RunsServer(args: seq<string>, limit: nat, fails: nat -> bool) {
    && |args| >= 3 && args[1] == "--" && SocketPath(args[0], limit) && args[2] != ""
    && forall k :: 0 <= k < Requests(|args| - 2) ==> !fails(k)
  }

  // ---------------------------------------------------------------- every command line, case by case

  /** What a command line comes to, told by its first two arguments and the rest. */
  ghost function ByCases(args: seq<string>, limit: nat, fails: nat -> bool): Outcome {
    if args == [] then Exit(3)
    else if args[0] == "--version" then Exit(0)
    else if args[0] == "" then Exit(9)
    else if args[0] == "--" then
      if RunsOut(args, 0, fails) then Exit(101) else if NoProgram(args, 0) then Exit(9) else Exit(3)
    else if |args| == 1 then if |args[0]| > limit then Exit(48) else RunClient(args[0])
    else if args[1] == "--version" then Exit(0)
    else if args[1] != "--" then Exit(7)
    else if RunsOut(args, 1, fails) then Exit(101)
    else if NoProgram(args, 1) then Exit(9)
    else if |args[0]| > limit then Exit(48)
    else if |args| == 2 then Exit(3)
    else if ShrinkFails(args, 1, fails) then Exit(101)
    else RunServer(args[0], args[2..])
  }

  /** The offences behind the "--". */
  lemma OffenceBehind(args: seq<string>, d: nat, fails: nat -> bool, i: nat)
    requires d < i < |args| && !NoProgram(args, d)
    ensures OffenceAt(args, d, fails, i) == if GrowthFails(i - d - 1, fails) then Some(101) else None
  {
  }

  lemma {:induction false} FirstFailingGrowth(n: nat, fails: nat -> bool) returns (j: nat)
    requires exists k :: 1 <= k <= GrowthsAfter(n) && fails(k)
    ensures j < n && GrowthFails(j, fails) && forall m :: 0 <= m < j ==> !GrowthFails(m, fails)
  {
    GrowthRequests(n, fails);
    GrowthRequests(n - 1, fails);
    if exists k :: 1 <= k <= GrowthsAfter(n - 1) && fails(k) {
      j := FirstFailingGrowth(n - 1, fails);
    } else {
      j := n - 1;
    }
  }

  lemma FirstGrowthStops(args: seq<string>, d: nat, fails: nat -> bool) returns (i: nat)
    requires d < |args| && NoneAt(args, d, fails, d + 1) && !NoProgram(args, d) && SomeGrowthFails(args, d, fails)
    ensures d < i < |args| && OffenceAt(args, d, fails, i) == Some(101) && NoneAt(args, d, fails, i)
  {
    var j := FirstFailingGrowth(|args| - d - 1, fails);
    i := d + 1 + j;
    OffenceBehind(args, d, fails, i);
    forall k | d < k < i ensures OffenceAt(args, d, fails, k) == None {
      OffenceBehind(args, d, fails, k);
    }
  }

  lemma GrowthStops(args: seq<string>, limit: nat, fails: nat -> bool, d: nat)
    requires Dashes(args) == d < |args| && NoOffence(args, fails, d + 1)
    requires !NoProgram(args, d) && SomeGrowthFails(args, d, fails)
    ensures Means(args, limit, fails, Exit(101))
  {
    var i := FirstGrowthStops(args, d, fails);
    StopsAt(args, limit, fails, i);
  }

  lemma NoGrowthStops(args: seq<string>, d: nat, fails: nat -> bool)
    requires d < |args| && NoneAt(args, d, fails, d + 1) && !NoProgram(args, d) && !SomeGrowthFails(args, d, fails)
    ensures NoneAt(args, d, fails, |args|)
  {
    GrowthRequests(|args| - d - 1, fails);
    forall i | d < i < |args| ensures OffenceAt(args, d, fails, i) == None {
      OffenceBehind(args, d, fails, i);
    }
  }

  lemma AllTaken(args: seq<string>, fails: nat -> bool, d: nat)
    requires Dashes(args) == d < |args| && NoOffence(args, fails, d + 1)
    requires !NoProgram(args, d) && !SomeGrowthFails(args, d, fails)
    ensures NoOffence(args, fails, |args|)
  {
    NoGrowthStops(args, d, fails);
  }

  /** From the first "--" on, the vector decides. */
  lemma VectorDecides(args: seq<string>, limit: nat, fails: nat -> bool, d: nat)
    requires Dashes(args) == d < |args| && NoOffence(args, fails, d)
    ensures RunsOut(args, d, fails) ==> Means(args, limit, fails, Exit(101))
    ensures !fails(0) && NoProgram(args, d) ==> Means(args, limit, fails, Exit(9))
    ensures Taken(args, d, fails) ==> NoOffence(args, fails, |args|)
  {
    if fails(0) {
      StopsAt(args, limit, fails, d);
    } else {
      GoesOn(args, fails, d);
      if NoProgram(args, d) {
        StopsAt(args, limit, fails, d + 1);
      } else if SomeGrowthFails(args, d, fails) {
        GrowthStops(args, limit, fails, d);
      } else {
        AllTaken(args, fails, d);
      }
    }
  }

  lemma NamedAndMore(args: seq<string>, limit: nat, fails: nat -> bool)
    requires |args| >= 2 && Path(args[0]) && args[1] != "--"
    ensures Means(args, limit, fails, if args[1] == "--version" then Exit(0) else Exit(7))
  {
    DashesUpTo(args, 0);
    DashesUpTo(args, 1);
    GoesOn(args, fails, 0);
    StopsAt(args, limit, fails, 1);
  }

  lemma NamedWithVector(args: seq<string>, limit: nat, fails: nat -> bool)
    requires |args| >= 2 && Path(args[0]) && args[1] == "--"
    ensures Means(args, limit, fails, ByCases(args, limit, fails))
  {
    DashesAt(args, 1);
    GoesOn(args, fails, 0);
    VectorDecides(args, limit, fails, 1);
    if Taken(args, 1, fails) {
      Finishes(args, limit, fails);
    }
  }

  lemma NoSocket(args: seq<string>, limit: nat, fails: nat -> bool)
    requires Dashes(args) == 0
    ensures Finish(args, limit, fails) == Exit(3)
  {
  }

  lemma VectorOnly(args: seq<string>, limit: nat, fails: nat -> bool)
    requires args != [] && args[0] == "--"
    ensures Means(args, limit, fails, ByCases(args, limit, fails))
  {
    DashesAt(args, 0);
    VectorDecides(args, limit, fails, 0);
    if Taken(args, 0, fails) {
      Finishes(args, limit, fails);
      NoSocket(args, limit, fails);
    }
  }

  lemma OneArgument(args: seq<string>, limit: nat, fails: nat -> bool)
    requires |args| == 1 && Path(args[0])
    ensures Means(args, limit, fails, ByCases(args, limit, fails))
  {
    DashesAt(args, 1);
    GoesOn(args, fails, 0);
    Finishes(args, limit, fails);
  }

  /** The cases are what the grammar says. */
  lemma MeansByCases(args: seq<string>, limit: nat, fails: nat -> bool)
    ensures Means(args, limit, fails, ByCases(args, limit, fails))
  {
    if args == [] {
      Finishes(args, limit, fails);
    } else if args[0] == "--" {
      VectorOnly(args, limit, fails);
    } else if !Path(args[0]) {
      DashesUpTo(args, 0);
      StopsAt(args, limit, fails, 0);
    } else if |args| == 1 {
      OneArgument(args, limit, fails);
    } else if args[1] == "--" {
      NamedWithVector(args, limit, fails);
    } else {
      NamedAndMore(args, limit, fails);
    }
  }

  /** The allocations that the server's command line needs are the first, the growths and the last. */
  lemma RunsServerIff(args: seq<string>, limit: nat, fails: nat -> bool)
    requires |args| >= 2 && args[1] == "--"
    ensures RunsServer(args, limit, fails) <==>
            SocketPath(args[0], limit) && |args| >= 3 && Taken(args, 1, fails) && !ShrinkFails(args, 1, fails)
  {
    if Taken(args, 1, fails) && !ShrinkFails(args, 1, fails) {
      forall k | 0 <= k < Requests(|args| - 2) ensures !fails(k) {
      }
    }
  }

  /** The exit code of every command line, for every pattern of failing allocations and whatever the client or the server
      returns. */
  lemma ExitCodeIff(args: seq<string>, limit: nat, fails: nat -> bool, o: Outcome, client: Client.Status,
                    server: ServerStatus)
    requires Means(args, limit, fails, o)
    ensures ExitCode(o, client, server) == Some(0) <==>
              || (|args| >= 1 && args[0] == "--version")
              || (|args| >= 2 && args[1] == "--version" && args[0] != "" && args[0] != "--")
              || (client == Client.SuccessEof && |args| == 1 && SocketPath(args[0], limit))
              || (server == ServerSuccess && RunsServer(args, limit, fails))
    ensures ExitCode(o, client, server) == Some(3) <==>
              || args == []
              || (args[0] == "--" && Taken(args, 0, fails))
              || (|args| == 2 && SocketPath(args[0], limit) && args[1] == "--" && !fails(0))
    ensures ExitCode(o, client, server) == Some(7) <==>
              |args| >= 2 && Path(args[0]) && args[1] != "--" && args[1] != "--version"
    ensures ExitCode(o, client, server) == Some(9) <==>
              || (|args| >= 1 && args[0] == "")
              || (|args| >= 1 && args[0] == "--" && !fails(0) && NoProgram(args, 0))
              || (|args| >= 2 && Path(args[0]) && args[1] == "--" && !fails(0) && NoProgram(args, 1))
    ensures ExitCode(o, client, server) == Some(48) <==>
              || (client == Client.SuccessFuckOff && |args| == 1 && SocketPath(args[0], limit))
              || (|args| >= 1 && Path(args[0]) && |args[0]| > limit
                  && (|args| == 1 || (args[1] == "--" && Taken(args, 1, fails))))
    ensures ExitCode(o, client, server) == Some(101) <==>
              || (|args| >= 1 && args[0] == "--" && RunsOut(args, 0, fails))
              || (|args| >= 2 && Path(args[0]) && args[1] == "--" && RunsOut(args, 1, fails))
              || (|args| >= 3 && SocketPath(args[0], limit) && args[1] == "--" && Taken(args, 1, fails)
                  && ShrinkFails(args, 1, fails))
    ensures ExitCode(o, client, server) == Some(125) <==>
              || (client == Client.Unknown && |args| == 1 && SocketPath(args[0], limit))
              || (server == ServerUnknown && RunsServer(args, limit, fails))
    ensures ExitCode(o, client, server) == None <==> server == ServerOutOfMemory && RunsServer(args, limit, fails)
  {
    MeansByCases(args, limit, fails);
    MeansSame(args, limit, fails, o, ByCases(args, limit, fails));
    if |args| >= 2 && args[1] == "--" {
      RunsServerIff(args, limit, fails);
    }
  }

  /** A command line that runs the server, whose exit code is undefined if strdup(3) fails in it. */
  lemma ExitCodeCanBeUndefined(fails: nat -> bool, client: Client.Status) returns (args: seq<string>, o: Outcome)
    requires forall k :: !fails(k)
    ensures args == ["s", "--", "p"] && o == RunServer("s", ["p"]) && Means(args, 107, fails, o)
    ensures ExitCode(o, client, ServerOutOfMemory) == None
  {
    args, o := ["s", "--", "p"], RunServer("s", ["p"]);
    RoundTrip("s", "p", [], 107, fails);
    assert ["s", "--", "p"] + [] == args && ["p"] + [] == ["p"];
  }
}

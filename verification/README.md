# A model of usockit

usockit shares one long-lived child process between short-lived clients. `usockit <socket> -- <program> [<args>...]` starts
a server that runs the program and listens on a Unix socket; `usockit <socket>` is a client that forwards its own stdin to
the server, which writes it to the program's stdin. One client is served at a time; a client that comes meanwhile is sent
eight bytes and closed.

This project models the parts of it that are hard to get right and proves what they keep. `dafny verify dfyconfig.toml`
checks everything.

## How it is laid out

- `Server.dfy` is the server as a step system: main, accept, connection and child-wait thread over two mutexes with
  condition variables, a one-slot mailbox and a child-ready gate (`src/server.c`:755-765, 780-995). Each step is one access
  to shared state or one system call. Any enabled step may come next, so a run is any schedule, with spurious wakeups,
  partial reads and writes and failing calls, for any number of clients. A `Log` beside the state records what an observer
  sees; no thread reads it. `Child.dfy` is the child between fork and exec, one call at a time. `ServerControl`, `ServerPlaces`, `ServerStreams` and `ServerReplies` hold the invariant piece by
  piece, `ServerSafety` its theorems, `ServerOrder` the order of events across both mutexes, `ServerGate` the way through
  the gate and main's way to opening it, `ServerRounds` the rounds of the connection and the accept thread, `ServerReport`
  what the reporting pipe tells, `ServerHandoff` progress and loss, `ServerAnswers` what clients that are turned away are
  sent, `ServerWitness` concrete runs.
- `Client.dfy` is the client from a connected socket on, in the same style: main, sending and receiving thread, with
  deferred cancellation (`src/client.c`:121-232, `src/client/**`). `ClientInvariant`, `ClientTeardown`,
  `ClientPosts`, `ClientProgress`, `ClientRejection` and `ClientWitness` are its invariant, theorems and runs.
- `EndToEnd.dfy` composes one server with any number of clients. They share nothing but their sockets, two byte streams
  each; a step of one is seen by the other as a move of its peer. `EndToEndWitness.dfy` has a run of the whole.
- `Forwarding.dfy`, `ServerLoop.dfy` and `ClientLoops.dfy` are the code that runs in one thread, as imperative methods over
  buffers and descriptors. Each loop is proved against what it moves, and what it moves is proved to be a run of that
  thread's steps in the step system.
- `Cli.dfy` is the growing, null-terminated argument vector, as a class over a heap that may fail any request.
  `Arguments.dfy` is the loop of `main`, proved against a grammar in which the first offending argument decides, and
  `ExitCodes.dfy` says which command lines exit with which code.
- `Streams.dfy` and `Runs.dfy` are the socket and the induction over runs that both step systems use. Where a proof lists
  every event of a thread, that keeps it cheap.

## Where the code and what it says of itself disagree

The model follows the code. Each of these has the condition that decides it, for every run or call and both ways round, and
a run, a call or a command line that shows it.

- `src/server.c`:803 takes a trylock that succeeds to mean that the connection thread waits for a client. It may simply not
  hold the mutex yet. A client that is stored and not picked up is then overwritten: it is neither served nor told nor
  closed, although CHANGELOG.md:20 says that extra clients are rejected (`ServerWitness.StoredClientIsDisplaced`; exactly
  when: `ServerHandoff.DisplacedIff`).
- `src/server.c`:820-822 says "try again" when the slot is empty after a failed trylock. The `continue` leaves a
  `do ... while(false)`, so no rejection is decided (exactly when: `ServerHandoff.IgnoredIff`) and the client is closed
  without a byte (`ServerWitness.LoneClientIsDropped`). So is a client whose rejection is decided, if the first write of it
  fails (`ServerWitness.RejectedClientIsDropped`). Exactly when a client that was turned away has been sent nothing, and
  exactly when the whole message, is `ServerAnswers.AnswerIff`.
- `src/server.c`:934-936 takes end-of-file on the reporting pipe for a successful exec. A child whose exec failed and whose
  record could not be written gives the same end-of-file (`ServerWitness.GateOpensWithoutProgram`), and so does one that
  was killed before exec (exactly when: `ServerReport.NotExecutedIff`).
- `src/client/receiving_thread/receiving_thread.c`:114-129 is there so that a rejected client reports the rejection and not
  the broken pipe that comes with it. Main may take its snapshot before the override is stored
  (`ClientWitness.OverrideComesTooLate`), or cancel the receiving thread before it reads what lies in the socket
  (`ClientWitness.RejectionIsNeverPosted`); with nothing to send, a rejected client can even return SUCCESS_EOF
  (`ClientWitness.RejectedSucceeds`). Exactly when main returns for the rejection is
  `ClientRejection.RejectionIsReturnedIff`.
- The client recognises a rejection only if one read returns all eight bytes. Two reads that split it take all of it, and
  the end-of-file behind it aborts the client (`ClientWitness.SplitRejectionAborts`; exactly when:
  `ClientRejection.RecognisedIff` and `ClientRejection.FirstReadDecides`).
- A client that returns SUCCESS_EOF has written its whole input to the socket; that it was delivered does not follow
  (`EndToEndWitness.SuccessIsNotDelivery`; exactly when: `EndToEnd.DeliveredIff`).
- An append to a vector that was shrunk to fit while empty writes behind its block, since 1.5 times 1 truncates to 1
  (`Cli.ShrunkEmptyOverruns`; exactly when: `Cli.AppendFitsIff`). `main` never does that: `main_server` refuses an empty vector and nothing is appended
  later.
- `src/main.c`:206-217 has no case for OUT_OF_MEMORY, which `usockit_server` returns when strdup fails
  (`src/server.c`:1049-1053). The switch goes on to a statement marked unreachable, and the exit code is undefined
  (`ExitCodes.ExitCodeCanBeUndefined`; exactly when: `ExitCodes.ExitCodeIff`).

## Model

| member | source | states |
|---|---|---|
| ServerSafety.NoInterleaving | src/server.c:846-898 | in every reachable state the child's stdin is one contiguous block per picked-up client in session order, each a prefix of what that client wrote (all of it after end-of-file, less if the child could not be written to), no client having two; rejected, dropped and displaced clients have none |
| ServerSafety.OnePlaceEach | src/server.c:788-898 | every accepted client's descriptor is in exactly one of accept's hand, slot, session or closing, closed, displaced; no other client has one anywhere, and none is closed twice |
| ServerSafety.RejectionIsJustified | src/server.c:813-839 | a client is sent bytes only of the rejection and only after a decision to reject it, and every decision, though taken without the lock, fell while the connection thread owned the mutex for another client |
| ServerSafety.NoLostWakeup | src/server.c:801-856 | an unsignalled connection thread with a client stored has the accept thread between store and signal; once the ready condition is broadcast nobody is left waiting for it |
| ServerReport.NotExecutedIff | src/server.c:930-1041 | in any run, past end-of-file on the reporting pipe the program was not executed if and only if a call of the child failed or the child was killed between fork and exec |
| ServerReport.ReportIsTrue | src/server.c:938-1041 | in any run a record that main reads is the only one, is about the one call of the child that failed and carries its error number, and the program was not executed |
| ServerReport.ReportIsNotMissed | src/server.c:930-1041 | in any run, past end-of-file the child has written no record |
| ServerReport.ChildFits | src/server.c:998-1041 | every step of the child keeps its place, its errno and its record in accord with which of its calls have failed, though close may change errno in between |
| ServerReport.ChildComesToAnEnd | src/server.c:998-1041 | in any run nine steps of the child at most bring it from its fork to its end |
| ServerSafety.NoFault | src/server.c:853-908 | in no reachable state is the stdin pointer or the pid pointer used before main stored through it; sessions write through the descriptor that leads to the child's stdin, the child-wait thread waits for the child's own pid, and no session reads from descriptor -1 |
| ServerSafety.StepKeepsSafe | src/server.c:780-995 | every step of every thread and of the environment keeps the whole invariant |
| ServerControl.StepKeepsControl | src/server.c:780-995 | every step keeps mutex ownership, the gate, the stores of main and the pending signal consistent |
| ServerStreams.ConnKeepsStream | src/server.c:852-898 | every step of the connection thread keeps the child's stdin the concatenation of the blocks, each against its client's socket |
| ServerOrder.WriteIsOrdered | src/server.c:721-865 | in any run a write to the child comes after a pickup, after a store into the slot, after the ready condition was set, after main stored the descriptor, after the fork, and the descriptor is the one that came with the fork |
| ServerOrder.WaitIsOrdered | src/server.c:721-995 | main gets to return SUCCESS only after the fork, the store of the pid that it returned, the condition set, the child-wait thread through the gate and its waitpid on that pid over, the child being gone |
| ServerOrder.PublishedIsForked | src/server.c:721-756 | in any run the pid and the descriptor that main published are the ones of one and the same earlier fork, each through its own pointer |
| ServerGate.CalledThreadPasses | src/server.c:913-919 | in any run, once the ready condition is set and a thread inside the gate is not asleep on it, three gate steps of that thread at most bring it through, to accept or to waitpid |
| ServerGate.PassageIsNotBlocked | src/server.c:913-919 | such a thread can take its next step unless another thread owns the mutex |
| ServerGate.ReadyIsGivenBack | src/server.c:913-977 | whoever owns the child-ready mutex can take its next step, which gives it back or leaves it a step nearer to that |
| ServerGate.MainComesToAnEnd | src/server.c:721-995 | in any run main takes nine steps at most, to SUCCESS, or to a failure if and only if one of its calls failed or the child reported one |
| ServerGate.MainIsNotBlocked | src/server.c:921-995 | main can take its next step, with no call failing, unless it waits for the child to execute or report, for the mutex, or for the child-wait thread |
| ServerGate.WaitIsDone | src/server.c:906-911 | past the gate the child-wait thread is done as soon as the child is gone |
| ServerHandoff.SignalHandsOver | src/server.c:801-856 | once the accept thread has signalled, a client still in the slot is handed over: the connection thread is awake and on its way to the pickup, or its session has begun |
| ServerHandoff.HandedUntilPickedUp | src/server.c:801-856 | a client that was handed over stays so, getting no further from its pickup and one nearer with each step of the connection thread, until a session begins; only a store replaces it |
| ServerHandoff.PickupIsNotBlocked | src/server.c:801-856 | the connection thread can take its next step towards the pickup, or the accept thread holds the mutex and its own next step brings the release nearer |
| ServerHandoff.HandedClientIsPickedUp | src/server.c:801-856 | in any run at most three steps of the connection thread after the handover a session begins, with that client or with one that displaced it |
| ServerRounds.SessionIsLeft | src/server.c:882-897 | in any run, from the end of a session three steps of the connection thread at most empty the slot, then release the mutex, then close the client, and bring the thread back to its lock |
| ServerRounds.LeavingIsNotBlocked | src/server.c:886-898 | none of these three steps can be blocked |
| ServerRounds.LockedThreadSettles | src/server.c:852-856 | in any run, from its lock three steps of the connection thread at most bring it into a session or to sleep, with the mutex released and the slot empty |
| ServerRounds.SettlingIsNotBlocked | src/server.c:801-856 | on this way the connection thread can take its next step, or the accept thread owns the mutex and can take its own |
| ServerRounds.AcceptedClientIsDealtWith | src/server.c:790-842 | in any run eleven steps of the accept thread at most store an accepted client in the slot, or close it and bring the thread back to accept |
| ServerRounds.StoreIsSignalled | src/server.c:807-812 | after the store two steps, which nothing blocks, release the mutex and give the signal |
| ServerRounds.AcceptIsNotBlocked | src/server.c:790-842 | with a client in its hand the accept thread can always take a step, whoever owns the mutex |
| ServerHandoff.DisplacedIff | src/server.c:801-808 | in any run a client is displaced, or about to be, if and only if a trylock succeeded while it was in the slot |
| ServerHandoff.NobodyIsLost | src/server.c:801-808 | if every successful trylock finds the slot empty, no client is displaced |
| ServerHandoff.IgnoredIff | src/server.c:813-839 | in any run no rejection is decided for a client that was turned away if and only if the slot was empty at the unlocked read |
| ServerAnswers.AnswerIff | src/server.c:813-842 | in any run a client that was turned away and closed has been sent nothing if and only if the slot was empty at the unlocked read or the first write of its rejection failed, and the whole message if and only if neither that nor any write failed |
| ServerAnswers.StepAnswers | src/server.c:813-842 | every step keeps a client that was turned away unanswered or cut short, and only those two events make one so |
| ServerWitness.StoredClientIsDisplaced | src/server.c:801-812 | a run in which the second client overwrites the first, which is never served, told or closed |
| ServerWitness.LoneClientIsDropped | src/server.c:819-842 | a run in which the only client there is gets closed with nothing sent to it |
| ServerWitness.GateOpensWithoutProgram | src/server.c:930-977 | a run in which the ready condition is set although the program was never executed |
| ServerWitness.RejectedClientIsDropped | src/server.c:825-842 | a run in which a rejection is decided and the client is closed with nothing sent to it |
| ServerWitness.RejectionIsSent | src/server.c:825-842 | a run in which a client is sent the whole message and closed |
| ServerWitness.ServerSucceeds | src/server.c:921-995 | a run that ends with the program and brings main to return SUCCESS |
| ClientTeardown.Arbitration | src/client/receiving_thread/receiving_thread.c:112-131 | in any run the slot, once posted to, is never empty again and keeps its value, but for a broken pipe that becomes a rejection; a received result is final |
| ClientTeardown.AtMostTwoStores | src/client/threads_result.c:17-23 | no run changes the slot three times |
| ClientPosts.BothPost | src/client/receiving_thread/receiving_thread.c:112-131 | in any run in which both threads post, whatever their results, and at any time after, the slot holds the rejection if they are broken pipe and rejection, whichever came first, and otherwise what was posted first |
| ClientPosts.PostsOnce | src/client/threads_result.c:17-23 | in any run each thread posts at most once |
| ClientPosts.StepMovesPosts | src/client/receiving_thread/receiving_thread.c:112-131 | no step but a post changes the slot, a post changes it as the code does, and a thread past its post stays there |
| ClientTeardown.SnapshotAgainstSlot | src/client.c:161-172 | the slot is main's snapshot or the rejection that replaced it, and main's status is that of the slot exactly if they are equal |
| ClientTeardown.MissedIff | src/client/receiving_thread/receiving_thread.c:112-131 | in any run main's snapshot differs from what the slot then holds if and only if a rejection was posted over a broken pipe after the snapshot |
| ClientRejection.RejectionIsReturnedIff | src/client.c:161-232 | in any run main's status is SUCCESS_FUCK_OFF if and only if it took a snapshot and the rejection was posted before it, into an empty slot or over a broken pipe |
| ClientRejection.RecognisedIff | src/client/receiving_thread/receiving_thread.c:85-98 | in any run the receiving thread decides for a rejection if and only if one of its reads took the whole message |
| ClientRejection.FirstReadDecides | src/client/receiving_thread/receiving_thread.c:85-98 | in any run in which nothing but the message is sent it is recognised if and only if the first read that returns anything returns all eight bytes |
| ClientTeardown.NoUseAfterRelease | src/client.c:168-181 | the shared destination is destroyed and freed only when both threads are over and nobody owns its mutex, nothing is used or released after its release, and both argument blocks are freed when main returns |
| ClientTeardown.NoDeadlock | src/client.c:161-176 | no thread dies owning the mutex, main does not join while owning it, and a posted result that main sleeps through has its signal still to come |
| ClientTeardown.SleeperIsWoken | src/client/threads_result.c:17-25 | in any run, while main sleeps through a posted result some thread has its signal to come, and two steps of that thread at most wake main for it |
| ClientTeardown.DecidedIsNotBlocked | src/client.c:161-172 | once main was woken for a result it can move, or a worker owns the mutex and can release it |
| ClientTeardown.ResultIsTaken | src/client.c:161-172 | in any run, from there at most five steps of main request both cancellations |
| ClientTeardown.TeardownIsNotBlocked | src/client.c:168-181 | once cancellation is requested some thread can take a step of its own, one that needs no call to fail and no byte to arrive, until main returns: a thread blocked in read or write dies there, and no join waits for a thread that cannot move |
| ClientTeardown.TeardownEnds | src/client.c:168-181 | in any run at most 17 steps of all threads together follow the cancellations |
| ClientTeardown.TeardownReturns | src/client.c:168-232 | where no thread can take a step of its own any more after the cancellations, main has returned, unless the client aborted |
| ClientProgress.MutexIsGivenBack | src/client.c:161-172 | whoever owns the client's mutex can take its next step, which gives it back or leaves it a step nearer to that |
| ClientProgress.ResultIsPosted | src/client/threads_result.c:11-26 | in any run, once the sending thread has a result, four more of its steps at most post it, give the signal and end the thread, and the slot is not empty |
| ClientProgress.PostingIsNotBlocked | src/client/threads_result.c:17-25 | on this way the sending thread can take its next step unless another thread owns the mutex |
| ClientProgress.MainSettlesDown | src/client.c:161-166 | in any run, from its lock three steps of main at most find a result or put it to sleep with the mutex given back |
| ClientProgress.LookingIsNotBlocked | src/client.c:161-164 | on this way main can take its next step unless another thread owns the mutex |
| ClientProgress.FailedCreationIsUnknown | src/client.c:121-156 | in any run, if a thread cannot be created main takes no snapshot and returns UNKNOWN, and at most one more step of main, which cancels the receiving thread, begins the teardown |
| ClientInvariant.StepKeepsClient | src/client.c:121-181 | every step of every thread, of the server and of the kernel keeps the client's invariant |
| ClientWitness.OverrideComesTooLate | src/client/receiving_thread/receiving_thread.c:114-129 | for any input but the empty one a run in which the rejection is read and stored and main still returns for the broken pipe |
| ClientWitness.RejectionIsNeverPosted | src/client.c:161-181 | for any input but the empty one a run in which the whole message lies in the socket, the receiving thread is cancelled before it reads it, and main returns for the broken pipe |
| ClientWitness.RejectedSucceeds | src/client.c:161-189 | the same with empty input, and main returns SUCCESS_EOF |
| ClientWitness.SplitRejectionAborts | src/client/receiving_thread/receiving_thread.c:85-110 | a run in which two reads take the message, nothing is posted and the client aborts |
| ClientWitness.RejectionIsReported | src/client.c:161-216 | for any input a run in which the message is read, posted and returned for, the sending thread cancelled while blocked in a read |
| ClientWitness.AloneItSucceeds | src/client/sending_thread/sending_thread.c:90-117 | a run in which a client with one byte to send writes it and returns SUCCESS_EOF, its receiving thread cancelled while blocked in a read |
| EndToEnd.DeliveredExactly | src/client/sending_thread/sending_thread.c:90-117 | in the composed system a client that returned SUCCESS_EOF and whose session ended at end-of-file had its whole input delivered as its block |
| EndToEnd.DeliveredIff | src/client/sending_thread/sending_thread.c:90-117 | in the composed system a client that returned SUCCESS_EOF has had its input delivered if and only if it was picked up and its session ended at end-of-file, or failed to read or still runs with nothing left of the socket and of the buffer |
| EndToEnd.RejectedTruly | src/client/receiving_thread/receiving_thread.c:85-98 | a client that returned SUCCESS_FUCK_OFF was sent the whole message by a server that decided so while another client held the slot, and none of its input reaches the child |
| EndToEnd.ChildReadsWholeBlocks | src/server.c:846-898 | the child's stdin is made of one block per served client, each a prefix of that client's own stdin |
| EndToEnd.StepKeepsSystem | src/server.c:780-898 | every step of the composed system keeps both invariants and the agreement on the sockets |
| EndToEnd.ClientIsNotHeldBack | src/client/sending_thread/sending_thread.c:90-117 | whatever step a client can take alone it can take in the composed system |
| EndToEndWitness.ClientAlone | src/client.c:121-181 | what a client does alone it does in the composed system |
| EndToEndWitness.ServerAlone | src/server.c:780-995 | what the server does alone it does in the composed system |
| EndToEndWitness.SuccessIsNotDelivery | src/server.c:801-808 | a run in which a client writes its input, returns SUCCESS_EOF and is displaced, so that nothing of it reaches the child |
| EndToEndWitness.SuccessIsDelivery | src/server.c:860-880 | a run in which a client returns SUCCESS_EOF and its session delivers its input and ends at end-of-file |
| EndToEndWitness.RejectionIsReturned | src/client/receiving_thread/receiving_thread.c:85-133 | for any input a run in which a client is rejected by the server and returns SUCCESS_FUCK_OFF |
| Forwarding.WriteAll | include/usockit/utils.h:67-81 | appends exactly the buffer on success and, for a buffer that is not empty, a strict prefix on failure, whatever the partial writes; fails exactly with the first write that does; ends because writes are positive |
| Forwarding.WritesAgainstReads | src/server.c:860-880 | a forwarding loop has written all it read, or strictly less if its last write fell short |
| ServerLoop.ServeSession | src/server.c:860-880 | the session loop writes a prefix of what it reads: all of it unless a write failed, and all there is at end-of-file; it ends with the first call that fails |
| ServerLoop.SessionIsRun | src/server.c:860-880 | whatever the session loop does is a run of the connection thread's steps with the same reads, writes and end |
| ServerLoop.SessionInSystem | src/server.c:860-880 | started where the connection thread is in the step system, the session loop ends, with the same bytes moved, where a run of that thread's steps ends |
| ClientLoops.SendInput | src/client/sending_thread/sending_thread.c:84-113 | the sending loop writes a prefix of what it reads, its result is the error of the first call that failed, and status 0 only if none did and the whole input was written |
| ClientLoops.SendingIsRun | src/client/sending_thread/sending_thread.c:84-113 | whatever the sending loop does is a run of the sending thread's steps with the same result |
| ClientLoops.SendingInSystem | src/client/sending_thread/sending_thread.c:84-113 | started where the sending thread is in the step system, the sending loop ends, with the same bytes moved and the same result, where a run of that thread's steps ends |
| ClientLoops.ReceiveReply | src/client/receiving_thread/receiving_thread.c:81-110 | the receiving loop decides for a rejection exactly at the first read that returns the whole message, aborts only at end-of-file, and fails only with an error number |
| ClientLoops.ReceivingIsRun | src/client/receiving_thread/receiving_thread.c:81-110 | whatever the receiving loop does is a run of the receiving thread's steps with the same decision |
| ClientLoops.ReceivingInSystem | src/client/receiving_thread/receiving_thread.c:81-110 | started where the receiving thread is in the step system, the receiving loop ends, with the same bytes read and the same decision, where a run of that thread's steps ends |
| ClientLoops.RecognisedInOnePieceOnly | src/client/receiving_thread/receiving_thread.c:86-98 | reads that together return the message contain it if and only if there is one of them |
| ClientLoops.ResultDest.Dispatch | src/client/threads_result.c:11-26 | the code's update of the slot is the first-wins post of the step system, once, with one signal after it |
| ClientLoops.ResultDest.PostReply | src/client/receiving_thread/receiving_thread.c:112-133 | the code's test of the slot, field by field, and update are the overriding post of the step system, once, with one signal after it |
| Cli.AppendFitsIff | include/usockit/cli.h:158-183 | the two writes of an append are inside the block, grown if it has to be, if and only if the capacity was not 1 |
| Cli.ShrunkEmptyOverruns | include/usockit/cli.h:132-213 | with no allocation failing, setting a vector up, shrinking it to fit and appending to it runs over its block |
| Cli.Cli.constructor | include/usockit/cli.h:99-105 | a new command line has neither socket path nor vector |
| Cli.Cli.InitChildProgramArgv | include/usockit/cli.h:132-150 | sets up an empty, terminated vector of capacity 8, or leaves everything as it was if the allocation fails |
| Cli.Cli.AppendChildProgramArg | include/usockit/cli.h:152-186 | adds exactly the argument at the end and keeps the vector terminated, growing it only if it is full; fails exactly if the growth does, with nothing changed; writes behind the block exactly if it did not fail and the capacity was 1 |
| Cli.Cli.ShrinkToFitChildProgramArgv | include/usockit/cli.h:188-213 | leaves the contents alone, makes the capacity size + 1 on success and changes nothing on failure, which needs a failing allocation |
| Cli.Cli.DestroyDefinitelyInit | include/usockit/cli.h:127-130 | releases the vector's block, which must be in use, and no other |
| Cli.Cli.Destroy | include/usockit/cli.h:107-115 | releases the vector exactly if it was set up |
| Cli.CapacityIsTight | include/usockit/cli.h:162-179 | after n appends the vector fits, is 8 or at most 1.5 n, grows only when full, and each growth added at least four |
| Cli.MovedAgainstCapacity | include/usockit/cli.h:162-179 | all growths together moved at most 2 (capacity - 8) elements and one more each |
| Cli.AppendsAreLinear | include/usockit/cli.h:162-179 | n appends move at most 27 n / 8 elements |
| Cli.GrowthsAreFew | include/usockit/cli.h:17-21 | the capacity has grown by a factor of at least 11/8 for each growth |
| Arguments.RunProgram | src/main.c:46-220 | for every argument list, every pattern of failing allocations and whatever the server or the client returns, the outcome is what the command line means and the exit code what that maps to, the vector is released exactly once if it was set up and never otherwise, and nothing is left allocated |
| Arguments.ReadArguments | src/main.c:52-120 | the loop ends with the first offending argument, its code and everything released, or with every argument taken in |
| Arguments.Argument | src/main.c:52-119 | one pass through the loop ends the program exactly if the argument offends, with its code and everything released, and goes on otherwise with the argument taken in |
| Arguments.ChildArgument | src/main.c:55-82 | the same behind the "--" |
| Arguments.AfterArguments | src/main.c:122-147 | the checks after the loop, in their order, and the release on every way out |
| Arguments.MainServer | src/main.c:184-204 | refuses an empty vector, and hands the server exactly the arguments in a block that fits them and their null pointer |
| Arguments.MeansOneThing | src/main.c:46-148 | every command line has exactly one meaning |
| Arguments.ClientIff | src/main.c:46-148 | the client runs on s if and only if s is the only argument and a socket path |
| Arguments.ServerIff | src/main.c:46-148 | the server runs on s and v if and only if the arguments are s, "--" and v, s being a socket path and v beginning with a program that is not empty, and none of the allocations that v needs fails |
| Arguments.RoundTrip | src/main.c:46-148 | any socket path, program and arguments, among them "--", "--version" and empty ones, come back from parsing the command line made of them |
| Arguments.VersionIff | src/main.c:93-98 | the version is printed if and only if "--version" is the first argument, or the second behind a socket path |
| ExitCodes.ExitCodeIff | src/main.c:46-220 | for each of the exit codes 0, 3, 7, 9, 48, 101 and 125, and for the undefined one, the command lines, failing allocations and statuses of client or server that lead to it, and no others |
| ExitCodes.MeansByCases | src/main.c:46-148 | what the grammar says of a command line, told by its first two arguments and what is behind the "--" |
| ExitCodes.ExitCodeCanBeUndefined | src/main.c:206-217 | a command line that runs the server and whose exit code is undefined if that returns OUT_OF_MEMORY |

## Left out

- Teardown of the server by cancellation (`src/server.c`:560-625, 992-993): a run ends where main begins to cancel, so nothing is claimed about cleanup handlers, repeated joins or closes there.
- Setting up the server's threads (`src/server.c`:265-596), a list of allocations each undone in turn, which has easy members only.
- Signals: server runs are those in which SIGPIPE is ignored. The source blocks it only in the client's sending thread (`src/client/sending_thread/sending_thread.c`:79-84); a server that writes to a client or a child that is gone is otherwise killed.
- socket, bind, listen, fork, exec, pipe and dup2 themselves and close-on-exec flags: their outcomes are steps of the environment. Failing calls set an error number other than 0, error records on the reporting pipe are written whole, and a write of something does not return 0. Close-on-exec is taken to be set, as `pipe2` sets it; the branch without `pipe2` (`src/server.c`:701) passes O_CLOEXEC where FD_CLOEXEC belongs.
- Reuse of descriptor numbers by the kernel: every client has an identity of its own.
- Memory order: each step is atomic and seen by all threads at once, also the slot's read without the lock, which the C standard calls a data race.
- Errors of `pthread_mutex_trylock` other than EBUSY, which `src/server.c`:802 treats as success.
- The threads of the step systems are functions on values and not methods of objects, so that steps can interleave; `ServerLoop` and `ClientLoops` tie the loops to them.
- Forwarding.Source.Read: a read that would block for good is represented by one that fails, because the loops around it have to end; in the step systems it simply does not return.
- ClientLoops.ResultDest.Dispatch: ties the code's update to the step system; it takes the mutex to be free, as a thread that got it sees it; waiting for it is in `Client`.
- ServerHandoff.HandedClientIsPickedUp: counts the connection thread's own steps; that the scheduler gives it any is not modelled. The same goes for every other bound on steps, in `ServerGate`, `ServerRounds`, `ClientTeardown` and `ClientProgress`.
- Cli.Grown: `size_t` has no width, so the product of capacity and element size does not overflow, and 1.5 times the capacity is exact only below 2^53.
- Cli.Cli.AppendChildProgramArg: after an overrun nothing is promised, as the language promises nothing.
- Arguments.RunProgram: the server and the client are not run in it, what they return is a parameter; the limit on socket paths is one too (107 bytes on Linux). The messages and the usage text are left out.
- The socket path check (`src/server.c`:1043-1064), which is unfinished, version generation, memory tracing and the compiler support macros.

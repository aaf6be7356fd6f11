/**
 The server's child between fork(2) and execve(2): usockit_server_child, and what the parent can see of it. It makes
 its end of the main pipe its stdin and executes the program; if either fails it writes one record to the reporting pipe
 and exits. Every call may fail, and the process may be killed anywhere.
 */
module Child {

  /** Which call failed. */
  datatype Func = Dup2 | Execve

  /** struct usockit_server_child_error. */
  datatype Record = Record(func: Func, errno: int)

  datatype Pc =
    | NotForked
    | AtDup2
    | AtPush                    // dup2(2) failed
    | AtCloseFailed(saved: int) // close(2) between errno_push and errno_pop
    | AtPop(saved: int)
    | AtClose                   // dup2(2) succeeded
    | AtExec
    | AtFill(func: Func)        // about to fill the record from errno
    | AtWrite(record: Record)
    | AtCloseReport
    | AtExit
    | InProgram
    | Gone

  /** `report` is what was written to the reporting pipe; `shut` says that its writing end is closed. */
  datatype Process = Process(pc: Pc, errno: int, report: seq<Record>, shut: bool)

  const UNBORN := Process(NotForked, 0, [], false)

  datatype Event =
    | Dup2Ok
    | Dup2Fails(errno: int)
    | PushErrno
    | CloseStdin(errno: int)    // whatever errno is afterwards
    | PopErrno
    | ExecOk
    | ExecFails(errno: int)
    | FillRecord
    | WriteOk
    | WriteFails(errno: int)
    | CloseReport
    | Exits
    | Killed
    | ProgramEnds

  /** Nothing failed yet and the program is not executed yet. */
  predicate BeforeExec(pc: Pc) {
    pc == AtDup2 || pc == AtClose || pc == AtExec
  }

  predicate Enabled(p: Process, e: Event) {
    match e
    case Dup2Ok => p.pc == AtDup2
    case Dup2Fails(errno) => p.pc == AtDup2 && errno != 0
    case PushErrno => p.pc == AtPush
    case CloseStdin(_) => p.pc == AtClose || p.pc.AtCloseFailed?
    case PopErrno => p.pc.AtPop?
    case ExecOk => p.pc == AtExec
    case ExecFails(errno) => p.pc == AtExec && errno != 0
    case FillRecord => p.pc.AtFill?
    case WriteOk => p.pc.AtWrite?
    case WriteFails(_) => p.pc.AtWrite?
    case CloseReport => p.pc == AtCloseReport
    case Exits => p.pc == AtExit
    case Killed => p.pc != NotForked && p.pc != InProgram && p.pc != Gone
    case ProgramEnds => p.pc == InProgram
  }

  /** The reporting pipe is close-on-exec, and the kernel closes it when the process is gone. */
  function Apply(p: Process, e: Event): Process
    requires Enabled(p, e)
  {
    match e
    case Dup2Ok => p.(pc := AtClose)
    case Dup2Fails(errno) => p.(pc := AtPush, errno := errno)
    case PushErrno => p.(pc := AtCloseFailed(p.errno))
    case CloseStdin(errno) =>
      p.(pc := if p.pc == AtClose then AtExec else AtPop(p.pc.saved), errno := errno)
    case PopErrno => p.(pc := AtFill(Dup2), errno := p.pc.saved)
    case ExecOk => p.(pc := InProgram, shut := true)
    case ExecFails(errno) => p.(pc := AtFill(Execve), errno := errno)
    case FillRecord => p.(pc := AtWrite(Record(p.pc.func, p.errno)))
    case WriteOk => p.(pc := AtCloseReport, report := p.report + [p.pc.record])
    case WriteFails(errno) => p.(pc := AtCloseReport, errno := errno)
    case CloseReport => p.(pc := AtExit, shut := true)
    case Exits => p.(pc := Gone)
    case Killed => p.(pc := Gone, shut := true)
    case ProgramEnds => p.(pc := Gone)
  }

  /** The writing end is closed exactly once nothing more can be written. */
  predicate ShutInv(p: Process) {
    p.shut <==> p.pc == AtExit || p.pc == InProgram || p.pc == Gone
  }
}

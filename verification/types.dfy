/**
  Values shared by every part of the container-task controller: the outcome
  of a call into the remote runtime backend, the controller's error values,
  the exit Message and the actions a lifecycle operation performs.
 */
module Types {

  datatype Option<T> = None | Some(value: T)

  datatype Result<T> = Success(value: T) | Failure(error: Error)

  /**
    Why a backend call failed: the distinguished "not found" condition, or
    any other failure, whose status code is not not-found but whose text may
    still say "not found" (the backend reports some missing processes so).
   */
  datatype Cause = NotFound | Other(code: nat, saysNotFound: bool)

  /** The abstract outcome of one call into the backend (or into the force-stop script). */
  datatype Call = Ok | Fail(cause: Cause)

  /** The outcome of a backend query that returns a value on success. */
  datatype Reply<T> = Answer(value: T) | Refused(cause: Cause)

  /** The context each wrapping of an error adds, one per message the controller wraps with. */
  datatype Op =
    | GetClient | ExecProcess | StartExec | KillExec | ExecTimeout
    | TaskPids | TaskStatus | NamedContainer | LoadContainer | ConnectShim
    | GetTask | NamedTask | WaitTask | ForceDestroy | ForceStopScript
    | PauseTask | ResumeTask | ContainerCreation | TaskCreation | WaitTaskInContainer
    | StartTask | Checkpoint

  datatype Error =
    | ErrLockfailed               // the per-container lock could not be taken
    | ErrTimeout                  // a bounded wait expired
    | ErrNotfound                 // the engine's own not-found value
    | ContextDone                 // the caller's context was cancelled
    | NoFifos                     // there is no FIFO set to re-attach to
    | Ctrd(cause: Cause)          // an error reported by the backend, unwrapped
    | Wrapped(op: Op, inner: Error)   // context added; checks look through it
    | Formatted(op: Op, inner: Error) // a new error quoting another's text; checks do not look through it

  /** A Go `error`: None stands for nil. */
  type Err = Option<Error>

  /** The innermost error under any number of wrappings. */
  function Root(e: Error): (r: Error)
    ensures !r.Wrapped?
  {
    if e.Wrapped? then Root(e.inner) else e
  }

  /** The backend's not-found check: it looks through wrappings. */
  predicate IsNotFound(e: Error) {
    Root(e) == Ctrd(NotFound)
  }

  /** The engine's timeout check: it looks through wrappings. */
  predicate IsTimeout(e: Error) {
    Root(e) == ErrTimeout
  }

  /** The error a call returns: nil on success, the raw backend error otherwise. */
  function Raw(c: Call): (r: Err)
    ensures r.None? <==> c.Ok?
    ensures c.Fail? ==> r == Some(Ctrd(c.cause))
  {
    if c.Ok? then None else Some(Ctrd(c.cause))
  }

  /** Wrapping with context; wrapping nil gives nil, as the error library does. */
  function Wrap(op: Op, e: Err): (r: Err)
    ensures r.None? <==> e.None?
    ensures e.Some? ==> r == Some(Wrapped(op, e.value)) && Root(r.value) == Root(e.value)
  {
    if e.None? then None else Some(Wrapped(op, e.value))
  }

  /** A call failed for a reason other than not-found. */
  predicate FailedOtherwise(c: Call) {
    c.Fail? && c.cause != NotFound
  }

  /** The result of waiting on a task or process. */
  datatype Message = Message(err: Err, exitCode: int, exitTime: int)

  /** A Message that carries only an error: the code and time keep their zero values. */
  function ErrorMessage(e: Error): (m: Message)
    ensures m.err == Some(e) && m.exitCode == 0 && m.exitTime == 0
  {
    Message(Some(e), 0, 0)
  }

  /** What a lifecycle operation does to the backend or to its own gates, in order. */
  datatype Action =
    | SigTerm | SigKill | ForceStop | Wait
    | NewExec | SubscribeExit | StartProcess | CloseGate | DeleteExec
    | RunHook(index: int, msg: Message)
    | NewContainer | DeleteContainer | NewTask | DeleteTask
    | AttachTask(attempt: int) | Register
}

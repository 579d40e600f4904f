/**
  The stdio attachment protocol: building the direct IO for a new process,
  the run-once stdin close wrapper with its deferred remote close of the
  process's write side, and re-attachment to an existing FIFO set.
 */
module Stdio {
  import opened Types

  /** The four settings a FIFO set is opened with. */
  datatype FifoConfig = FifoConfig(terminal: bool, stdin: string, stdout: string, stderr: string)

  /** A FIFO set: its configuration and the directory that holds its pipes. */
  datatype FifoSet = FifoSet(config: FifoConfig, dir: string)

  /** A backend failure whose status code or whose text says "not found". */
  predicate CauseSaysNotFound(c: Cause) {
    c == NotFound || c.saysNotFound
  }

  /**
    Whether the text of an error contains "not found". Wrapping and
    formatting both quote the inner error's text; the context they add
    never says it. The backend's not-found and the engine's not-found value
    read "not found"; the engine's other errors do not.
   */
  predicate TextSaysNotFound(e: Error) {
    match e
    case Ctrd(c) => CauseSaysNotFound(c)
    case ErrNotfound => true
    case Wrapped(_, inner) => TextSaysNotFound(inner)
    case Formatted(_, inner) => TextSaysNotFound(inner)
    case _ => false
  }

  /**
    A failure of the remote close-write-side call that is not reported: the
    backend's not-found, or any error whose text says "not found".
   */
  predicate SaysNotFound(e: Error) {
    IsNotFound(e) || TextSaysNotFound(e)
  }

  /** The innermost error under any number of wrappings and formattings. */
  function Innermost(e: Error): (r: Error)
    ensures !r.Wrapped? && !r.Formatted?
  {
    if e.Wrapped? || e.Formatted? then Innermost(e.inner) else e
  }

  /** The backend's not-found, however wrapped, also says "not found" in its text. */
  lemma {:induction false} NotFoundSaysSo(e: Error)
    ensures IsNotFound(e) ==> TextSaysNotFound(e)
  {
    if e.Wrapped? {
      NotFoundSaysSo(e.inner);
    }
  }

  /**
    The suppression looks through wrapping and formatting alike: an error
    is quiet exactly when the failure it carries is the engine's not-found
    value or a backend failure that says "not found".
   */
  lemma {:induction false} SaysNotFoundLooksThrough(e: Error)
    ensures SaysNotFound(e) <==>
      (Innermost(e) == ErrNotfound || (Innermost(e).Ctrd? && CauseSaysNotFound(Innermost(e).cause)))
  {
    if e.Wrapped? || e.Formatted? {
      SaysNotFoundLooksThrough(e.inner);
      NotFoundSaysSo(e.inner);
    }
  }

  /**
    The remote close of a process's write side: get a client, load the
    container, its task and the process, then close. The client failure is
    formatted; every later error is returned as it is.
   */
  function CloseStdinIO(client: Call, load: Call, task: Call, process: Call, closeIO: Call): (r: Err)
    ensures r.None? <==> client.Ok? && load.Ok? && task.Ok? && process.Ok? && closeIO.Ok?
    ensures client.Fail? ==> r == Some(Formatted(GetClient, Ctrd(client.cause)))
    ensures client.Ok? && load.Fail? ==> r == Raw(load)
    ensures client.Ok? && load.Ok? && task.Fail? ==> r == Raw(task)
    ensures client.Ok? && load.Ok? && task.Ok? && process.Fail? ==> r == Raw(process)
    ensures client.Ok? && load.Ok? && task.Ok? && process.Ok? && closeIO.Fail? ==> r == Raw(closeIO)
  {
    if client.Fail? then Some(Formatted(GetClient, Ctrd(client.cause)))
    else if load.Fail? then Raw(load)
    else if task.Fail? then Raw(task)
    else if process.Fail? then Raw(process)
    else Raw(closeIO)
  }

  /**
    The close of the write side is reported exactly when the first step
    that failed did not say "not found", whichever step that was.
   */
  lemma CloseStdinIOQuietWhenGone(client: Call, load: Call, task: Call, process: Call, closeIO: Call)
    ensures var r := CloseStdinIO(client, load, task, process, closeIO);
      var first := if client.Fail? then client else if load.Fail? then load
        else if task.Fail? then task else if process.Fail? then process else closeIO;
      r.Some? ==> (SaysNotFound(r.value) <==> CauseSaysNotFound(first.cause))
  {
    var r := CloseStdinIO(client, load, task, process, closeIO);
    if r.Some? {
      SaysNotFoundLooksThrough(r.value);
    }
  }

  /**
    The wrapper around a process's stdin writer. The first Close closes the
    local pipe, stores its result and launches a worker that waits for the
    gate channel to close before calling the backend's close-write-side.
   */
  class StdinCloser {
    var fired: bool           // the run-once guard has run
    var errClose: Err         // the stored result of the one pipe close
    var pipeCloses: nat       // how often the underlying pipe was closed
    var gateClosed: bool      // the owner has closed the gate channel
    var workerWaiting: bool   // the worker is launched and waits on the gate
    var remoteCalls: nat      // how often the remote close-write-side was called

    ghost predicate Valid()
      reads this
    {
      && pipeCloses == (if fired then 1 else 0)
      && remoteCalls <= 1
      && (workerWaiting ==> fired && remoteCalls == 0)
      && (remoteCalls == 1 ==> fired && gateClosed && !workerWaiting)
      && (fired ==> workerWaiting || remoteCalls == 1)
    }

    constructor ()
      ensures Valid()
      ensures !fired && errClose == None && pipeCloses == 0
      ensures !gateClosed && !workerWaiting && remoteCalls == 0
    {
      fired, errClose, pipeCloses := false, None, 0;
      gateClosed, workerWaiting, remoteCalls := false, false, 0;
    }

    /**
      Close the wrapper; `pipeResult` is what closing the local pipe would
      return. Only the first call closes it; every call returns the result
      stored by the first.
     */
    method Close(pipeResult: Err) returns (e: Err)
      requires Valid()
      modifies this
      ensures Valid()
      ensures fired && pipeCloses == 1 && e == errClose
      ensures errClose == if old(fired) then old(errClose) else pipeResult
      ensures workerWaiting == (old(workerWaiting) || !old(fired))
      ensures gateClosed == old(gateClosed) && remoteCalls == old(remoteCalls)
    {
      if !fired {
        fired := true;
        errClose := pipeResult;
        pipeCloses := pipeCloses + 1;
        workerWaiting := true;
      }
      e := errClose;
    }

    /** The owner closes the gate channel; closing it twice would panic. */
    method CloseGateChannel()
      requires Valid() && !gateClosed
      modifies this
      ensures Valid() && gateClosed
      ensures fired == old(fired) && errClose == old(errClose) && pipeCloses == old(pipeCloses)
      ensures workerWaiting == old(workerWaiting) && remoteCalls == old(remoteCalls)
    {
      gateClosed := true;
    }

    /**
      Let the worker run, if it is launched and the gate is closed; `outcome`
      is what the remote close-write-side returns. `reported` says whether
      the failure is logged: a not-found is not.
     */
    method RunWorker(outcome: Err) returns (ran: bool, reported: bool)
      requires Valid()
      modifies this
      ensures Valid()
      ensures ran <==> old(workerWaiting) && gateClosed
      ensures remoteCalls == if ran then 1 else old(remoteCalls)
      ensures workerWaiting == (old(workerWaiting) && !ran)
      ensures reported <==> ran && outcome.Some? && !SaysNotFound(outcome.value)
      ensures fired == old(fired) && errClose == old(errClose) && pipeCloses == old(pipeCloses)
      ensures gateClosed == old(gateClosed)
    {
      ran := workerWaiting && gateClosed;
      reported := false;
      if ran {
        workerWaiting := false;
        remoteCalls := remoteCalls + 1;
        reported := outcome.Some? && !SaysNotFound(outcome.value);
      }
    }
  }

  /**
    Build the IO of a new process: open the direct IO over the FIFO set
    (`direct`), wrap its stdin when there is one, and hand it to the
    caller's initializer (`init`). Both errors are returned as they are.
   */
  method CreateIO(direct: Call, hasStdin: bool, init: Call) returns (closer: Option<StdinCloser>, err: Err)
    ensures err == (if direct.Fail? then Raw(direct) else Raw(init))
    ensures closer.Some? <==> err.None? && hasStdin
    ensures closer.Some? ==> fresh(closer.value) && closer.value.Valid()
    ensures closer.Some? ==> !closer.value.fired && !closer.value.gateClosed && closer.value.remoteCalls == 0
  {
    if direct.Fail? {
      return None, Raw(direct);
    }
    closer := None;
    if hasStdin {
      var c := new StdinCloser();
      closer := Some(c);
    }
    if init.Fail? {
      // the direct IO is cancelled and closed, and nothing is returned
      return None, Raw(init);
    }
    err := None;
  }

  /**
    Re-attach to an existing FIFO set: the direct IO is rebuilt from a copy
    of the set's four settings, nothing else of it.
   */
  function AttachIO(fifos: Option<FifoSet>, direct: Call, init: Call): (r: Result<FifoConfig>)
    ensures fifos.None? ==> r == Failure(NoFifos)
    ensures r.Success? <==> fifos.Some? && direct.Ok? && init.Ok?
    ensures r.Success? ==> r.value == fifos.value.config
    ensures fifos.Some? && direct.Fail? ==> r == Failure(Ctrd(direct.cause))
    ensures fifos.Some? && direct.Ok? && init.Fail? ==> r == Failure(Ctrd(init.cause))
  {
    if fifos.None? then Failure(NoFifos)
    else
      var c := fifos.value.config;
      var copy := FifoConfig(c.terminal, c.stdin, c.stdout, c.stderr);
      if direct.Fail? then Failure(Ctrd(direct.cause))
      else if init.Fail? then Failure(Ctrd(init.cause))
      else Success(copy)
  }
}

/**
  The lifecycle controller: the live registry of packs and the operations
  that drive the remote backend for one container. Every backend call is
  reduced to its outcome, given to the operation as an input; each
  operation returns the actions it performed, in order, and its error.
 */
module Ctrd {
  import opened Types
  import opened Mailboxes
  import opened Policies

  /** The bookkeeping for one live container: its id, its task's pid and its exit mailbox. */
  datatype Pack = Pack(id: string, pid: nat, mailbox: Mailbox)

  /** The body returned by a wait: the exit error (nil on a clean exit) and the exit code. */
  datatype WaitBody = WaitBody(error: Err, statusCode: int)

  /** The error of the out-of-band force-stop script, wrapped; nil when the script succeeded. */
  function ForceStopError(script: Call): (r: Err)
    ensures r.None? <==> script.Ok?
    ensures script.Fail? ==> r == Some(Wrapped(ForceStopScript, Ctrd(script.cause)))
  {
    Wrap(ForceStopScript, Raw(script))
  }

  /** A pause or resume result: not-found means its task is already gone, which is fine. */
  function IgnoreNotFound(op: Op, c: Call): (r: Err)
    ensures r.None? <==> !FailedOtherwise(c)
    ensures FailedOtherwise(c) ==> r == Some(Wrapped(op, Ctrd(c.cause)))
  {
    if FailedOtherwise(c) then Some(Wrapped(op, Ctrd(c.cause))) else None
  }

  /** Go's conversion of a size to uint32 keeps its low 32 bits. */
  function ToUint32(x: int): (r: nat)
    ensures r < 0x1_0000_0000 && (r - x) % 0x1_0000_0000 == 0
    ensures 0 <= x < 0x1_0000_0000 ==> r == x
  {
    x % 0x1_0000_0000
  }

  /** The Message an exec gets when its timer won: the exit error is wrapped as a timeout (nil stays nil). */
  function TimeoutMessage(status: Message): (m: Message)
    ensures m.err.None? <==> status.err.None?
    ensures m.err.Some? ==> m.err.value == Wrapped(ExecTimeout, status.err.value)
    ensures m.exitCode == status.exitCode && m.exitTime == status.exitTime
  {
    Message(Wrap(ExecTimeout, status.err), status.exitCode, status.exitTime)
  }

  /** A Message whose error is a timeout. */
  predicate WaitExpired(m: Message) {
    m.err.Some? && IsTimeout(m.err.value)
  }

  /**
    The result of waiting for a container: a client error, or the exit read
    from the mailbox (a timeout error in it is returned as the error). None:
    the wait blocks, since it probes with no timeout.
   */
  function WaitContainer(client: Call, slot: Option<Message>): (r: Option<Result<WaitBody>>)
    ensures client.Fail? ==> r == Some(Failure(Formatted(GetClient, Ctrd(client.cause))))
    ensures client.Ok? ==> (r.None? <==> slot.None?)
    ensures client.Ok? && slot.Some? && WaitExpired(slot.value) ==> r == Some(Failure(slot.value.err.value))
    ensures client.Ok? && slot.Some? && !WaitExpired(slot.value) ==>
      r == Some(Success(WaitBody(slot.value.err, slot.value.exitCode)))
  {
    if client.Fail? then Some(Failure(Formatted(GetClient, Ctrd(client.cause))))
    else
      match ProbeReply(slot, -1, Delivered)
      case None => None
      case Some(msg) =>
        if msg.err.Some? && IsTimeout(msg.err.value) then Some(Failure(msg.err.value))
        else Some(Success(WaitBody(msg.err, msg.exitCode)))
  }

  /** The outcomes of the backend calls destroy may make, in the order it may make them. */
  datatype DestroyReplies = DestroyReplies(
    client: Call,         // getting a backend client
    term: Call,           // SIGTERM to every process
    kill: Call,           // SIGKILL after a failed SIGTERM
    force: Call,          // the force-stop script (also used when there is no pack)
    firstWait: Message,   // what the first probe of the mailbox returns
    retryKill: Call,      // SIGKILL after the first wait timed out
    retryForce: Call,     // the force-stop script after that SIGKILL failed
    secondWait: Message)  // what the second probe returns

  /** The signals destroy sends before it first waits. */
  function Escalation(r: DestroyReplies): seq<Action> {
    [SigTerm] + (if FailedOtherwise(r.term) then [SigKill] + (if FailedOtherwise(r.kill) then [ForceStop] else []) else [])
  }

  /** Destroy gets past its signals to the first wait. */
  predicate ReachesWait(r: DestroyReplies) {
    r.term.Ok? || (FailedOtherwise(r.term) && (r.kill.Ok? || (FailedOtherwise(r.kill) && r.force.Ok?)))
  }

  datatype ExecRequest = ExecRequest(containerId: string, detach: bool, timeout: int)

  /** Go's 64-bit signed arithmetic: a value wraps into [-2^63, 2^63). */
  function ToInt64(x: int): (r: int)
    ensures -0x8000_0000_0000_0000 <= r < 0x8000_0000_0000_0000
    ensures (r - x) % 0x1_0000_0000_0000_0000 == 0
    ensures -0x8000_0000_0000_0000 <= x < 0x8000_0000_0000_0000 ==> r == x
    ensures r == 0 <==> x % 0x1_0000_0000_0000_0000 == 0
  {
    var m := x % 0x1_0000_0000_0000_0000;
    if m >= 0x8000_0000_0000_0000 then m - 0x1_0000_0000_0000_0000 else m
  }

  /** An exec's timeout, given in seconds, as a duration in nanoseconds; the product wraps. */
  function TimeoutDuration(seconds: int): int {
    ToInt64(seconds * 1_000_000_000)
  }

  /** A multiple of 2^55 seconds is a multiple of 2^64 nanoseconds. */
  lemma WrapsToZero(seconds: int)
    requires seconds % 0x80_0000_0000_0000 == 0
    ensures (seconds * 1_000_000_000) % 0x1_0000_0000_0000_0000 == 0
  {
    var k := seconds / 0x80_0000_0000_0000;
    var q := 1953125 * k;
    assert seconds * 1_000_000_000 == 0x1_0000_0000_0000_0000 * q;
  }

  /**
    Only a multiple of 2^55 seconds is a multiple of 2^64 nanoseconds, since
    10^9 is 2^9 times the odd 1953125, whose inverse modulo 2^55 is
    20211507185753197 (their product is 1 + 2^55 * 1095668).
   */
  lemma OnlyMultiplesWrap(seconds: int)
    requires (seconds * 1_000_000_000) % 0x1_0000_0000_0000_0000 == 0
    ensures seconds % 0x80_0000_0000_0000 == 0
  {
    var q := (seconds * 1_000_000_000) / 0x1_0000_0000_0000_0000;
    assert seconds * 1953125 == 0x80_0000_0000_0000 * q;
    var z := q * 20211507185753197 - seconds * 1095668;
    assert seconds == 0x80_0000_0000_0000 * z;
  }

  /**
    The exec has no timer exactly when its timeout is a multiple of 2^55
    seconds: zero, and also the timeouts whose nanosecond count wraps to zero.
   */
  lemma {:induction false} NoTimerExactly(seconds: int)
    ensures TimeoutDuration(seconds) == 0 <==> seconds % 0x80_0000_0000_0000 == 0
    ensures 0 < seconds < 0x80_0000_0000_0000 ==> TimeoutDuration(seconds) != 0
  {
    if seconds % 0x80_0000_0000_0000 == 0 {
      WrapsToZero(seconds);
    }
    if (seconds * 1_000_000_000) % 0x1_0000_0000_0000_0000 == 0 {
      OnlyMultiplesWrap(seconds);
    }
  }

  /** Which of the exec's exit and its timer comes first. */
  datatype Race = ExitFirst | TimerFirst

  /** The outcomes of the backend calls an exec may make, and what its hooks return. */
  datatype ExecReplies = ExecReplies(
    create: Call,     // creating the exec process, with its IO
    subscribe: Call,  // obtaining its exit-status channel
    start: Call,
    race: Race,
    status: Message,  // the exit status, once it comes
    sigkill: Call,    // SIGKILL after the timer won
    sigterm: Call,    // SIGTERM after that SIGKILL failed
    hooks: seq<Err>)  // what each registered exit hook returns

  /** The actions of an exec that started: create, subscribe, start, close the stdin gate. */
  const Launch: seq<Action> := [NewExec, SubscribeExit, StartProcess, CloseGate]

  /** The exec's timer wins: only when there is a timer (a duration of zero means none). */
  predicate TimerWins(p: ExecRequest, r: ExecReplies) {
    TimeoutDuration(p.timeout) != 0 && r.race == TimerFirst
  }

  /** The signals an exec sends when its timer won. */
  function ExecKills(r: ExecReplies): seq<Action> {
    [SigKill] + (if FailedOtherwise(r.sigkill) then [SigTerm] else [])
  }

  /** Both signals failed for a reason other than not-found. */
  predicate KillsFailed(r: ExecReplies) {
    FailedOtherwise(r.sigkill) && FailedOtherwise(r.sigterm)
  }

  /** The outcomes of the backend calls recovery may make. */
  datatype RecoverReplies = RecoverReplies(
    client: Call,
    load: Call,                // loading the container record
    attempt: nat -> Attempt,   // attempt i to attach to its task
    subscribe: Call)           // obtaining its task's exit-status channel

  /** The outcomes of the backend calls creation may make. */
  datatype CreateReplies = CreateReplies(
    client: Call,
    snapshot: Call,       // looking up the snapshot, when the root filesystem is not provided
    newContainer: Call,
    newTask: Reply<nat>,  // creating its task, with its IO; answers the pid
    subscribe: Call,
    start: Call)

  /**
    The error of creating a container's task: the first step that failed,
    wrapped with its context; the backend's cause is kept under it.
   */
  function TaskError(r: CreateReplies): (e: Err)
    ensures e.None? <==> r.newTask.Answer? && r.subscribe.Ok? && r.start.Ok?
    ensures r.newTask.Refused? ==> e.Some? && Root(e.value) == Ctrd(r.newTask.cause)
    ensures r.newTask.Answer? && r.subscribe.Fail? ==> e.Some? && Root(e.value) == Ctrd(r.subscribe.cause)
    ensures r.newTask.Answer? && r.subscribe.Ok? && r.start.Fail? ==> e.Some? && Root(e.value) == Ctrd(r.start.cause)
  {
    if r.newTask.Refused? then Some(Wrapped(TaskCreation, Ctrd(r.newTask.cause)))
    else if r.subscribe.Fail? then Some(Wrapped(WaitTaskInContainer, Ctrd(r.subscribe.cause)))
    else if r.start.Fail? then Some(Wrapped(StartTask, Ctrd(r.start.cause)))
    else None
  }

  /**
    The actions of creating a container's task: the gate closes right after
    the create call, and once the task exists a failure ends in its delete.
   */
  function TaskTrace(r: CreateReplies): (t: seq<Action>)
    ensures |t| >= 2 && t[..2] == [NewTask, CloseGate]
    ensures (DeleteTask in t) <==> TaskError(r).Some? && r.newTask.Answer?
    ensures TaskError(r).Some? && r.newTask.Answer? ==> t[|t| - 1] == DeleteTask
    ensures r.newTask.Refused? ==> |t| == 2
  {
    if r.newTask.Refused? then [NewTask, CloseGate]
    else if r.subscribe.Fail? then [NewTask, CloseGate, SubscribeExit, DeleteTask]
    else if r.start.Fail? then [NewTask, CloseGate, SubscribeExit, StartProcess, DeleteTask]
    else [NewTask, CloseGate, SubscribeExit, StartProcess]
  }

  /**
    Create a new container's task, with a deferred rollback: once the
    container's task exists, any later failure deletes it (killing its processes).
   */
  method CreateTask(id: string, r: CreateReplies) returns (trace: seq<Action>, pack: Option<Pack>, err: Err)
    ensures |trace| >= 2 && trace[..2] == [NewTask, CloseGate]
    ensures r.newTask.Refused? ==> trace == [NewTask, CloseGate] && err == Some(Wrapped(TaskCreation, Ctrd(r.newTask.cause)))
    ensures r.newTask.Answer? && r.subscribe.Fail? ==>
      trace == [NewTask, CloseGate, SubscribeExit, DeleteTask] && err == Some(Wrapped(WaitTaskInContainer, Ctrd(r.subscribe.cause)))
    ensures r.newTask.Answer? && r.subscribe.Ok? && r.start.Fail? ==>
      trace == [NewTask, CloseGate, SubscribeExit, StartProcess, DeleteTask] && err == Some(Wrapped(StartTask, Ctrd(r.start.cause)))
    ensures err.None? <==> r.newTask.Answer? && r.subscribe.Ok? && r.start.Ok?
    ensures err.None? ==> trace == [NewTask, CloseGate, SubscribeExit, StartProcess]
    ensures (DeleteTask in trace) <==> err.Some? && r.newTask.Answer?
    ensures pack.Some? <==> err.None?
    ensures pack.Some? ==> pack.value.id == id && pack.value.pid == r.newTask.value && pack.value.mailbox.slot.None?
    ensures pack.Some? ==> fresh(pack.value.mailbox)
    ensures trace == TaskTrace(r) && err == TaskError(r)
  {
    trace := [NewTask, CloseGate];  // the gate closes right after the call, whatever it returned
    pack := None;
    if r.newTask.Refused? {
      return trace, None, Some(Wrapped(TaskCreation, Ctrd(r.newTask.cause)));
    }
    trace := trace + [SubscribeExit];
    if r.subscribe.Fail? {
      err := Wrap(WaitTaskInContainer, Raw(r.subscribe));
    } else {
      trace := trace + [StartProcess];
      if r.start.Fail? {
        err := Wrap(StartTask, Raw(r.start));
      } else {
        var box := new Mailbox();
        return trace, Some(Pack(id, r.newTask.value, box)), None;
      }
    }
    trace := trace + [DeleteTask];  // deferred rollback; its own failure is only logged
  }

  class Client {
    /** The live registry: at most one pack per container id. */
    var watch: map<string, Pack>

    ghost predicate Valid()
      reads this
    {
      forall id :: id in watch ==> watch[id].id == id
    }

    constructor ()
      ensures Valid() && watch == map[]
    {
      watch := map[];
    }

    /** The registry lookup that follows a successful lock; the lock is tried first. */
    function Guard(id: string, locked: bool): (r: Result<Pack>)
      reads this
      ensures !locked ==> r == Failure(ErrLockfailed)
      ensures locked ==> (r.Success? <==> id in watch)
      ensures locked && id !in watch ==> r == Failure(ErrNotfound)
      ensures r.Success? ==> r.value == watch[id]
      ensures Valid() && r.Success? ==> r.value.id == id
    {
      if !locked then Failure(ErrLockfailed)
      else if id !in watch then Failure(ErrNotfound)
      else Success(watch[id])
    }

    /** Its task's metrics; a backend error is returned as it is. */
    function ContainerStats<M>(id: string, locked: bool, metrics: Reply<M>): (r: Result<M>)
      reads this
      ensures !locked ==> r == Failure(ErrLockfailed)
      ensures locked && id !in watch ==> r == Failure(ErrNotfound)
      ensures r.Success? <==> locked && id in watch && metrics.Answer?
      ensures r.Success? ==> r.value == metrics.value
      ensures locked && id in watch && metrics.Refused? ==> r == Failure(Ctrd(metrics.cause))
    {
      match Guard(id, locked)
      case Failure(e) => Failure(e)
      case Success(_) =>
        if metrics.Refused? then Failure(Ctrd(metrics.cause)) else Success(metrics.value)
    }

    /** The processes of its task; a backend error is wrapped. */
    function ContainerPIDs<P>(id: string, locked: bool, pids: Reply<seq<P>>): (r: Result<seq<P>>)
      reads this
      ensures !locked ==> r == Failure(ErrLockfailed)
      ensures locked && id !in watch ==> r == Failure(ErrNotfound)
      ensures r.Success? <==> locked && id in watch && pids.Answer?
      ensures r.Success? ==> r.value == pids.value
      ensures locked && id in watch && pids.Refused? ==> r == Failure(Wrapped(TaskPids, Ctrd(pids.cause)))
    {
      match Guard(id, locked)
      case Failure(e) => Failure(e)
      case Success(_) =>
        if pids.Refused? then Failure(Wrapped(TaskPids, Ctrd(pids.cause))) else Success(pids.value)
    }

    /** The status of its task; a backend error is wrapped. */
    function ContainerStatus<S>(id: string, locked: bool, status: Reply<S>): (r: Result<S>)
      reads this
      ensures !locked ==> r == Failure(ErrLockfailed)
      ensures locked && id !in watch ==> r == Failure(ErrNotfound)
      ensures r.Success? <==> locked && id in watch && status.Answer?
      ensures r.Success? ==> r.value == status.value
      ensures locked && id in watch && status.Refused? ==> r == Failure(Wrapped(TaskStatus, Ctrd(status.cause)))
    {
      match Guard(id, locked)
      case Failure(e) => Failure(e)
      case Success(_) =>
        if status.Refused? then Failure(Wrapped(TaskStatus, Ctrd(status.cause))) else Success(status.value)
    }

    /** The pid of the container's init process, read from its pack without the lock; -1 when there is none. */
    function ContainerPID(id: string): (r: (int, Err))
      reads this
      ensures id !in watch ==> r == (-1, Some(ErrNotfound))
      ensures id in watch ==> r == (watch[id].pid, None)
      ensures r.1.None? ==> r.0 >= 0
    {
      if id !in watch then (-1, Some(ErrNotfound)) else (watch[id].pid as int, None)
    }

    /** Pause its task; a not-found from the backend counts as success. */
    function PauseContainer(id: string, locked: bool, pause: Call): (r: Err)
      reads this
      ensures !locked ==> r == Some(ErrLockfailed)
      ensures locked && id !in watch ==> r == Some(ErrNotfound)
      ensures locked && id in watch ==> (r.None? <==> pause.Ok? || pause == Fail(NotFound))
      ensures locked && id in watch && FailedOtherwise(pause) ==> r == Some(Wrapped(PauseTask, Ctrd(pause.cause)))
    {
      match Guard(id, locked)
      case Failure(e) => Some(e)
      case Success(_) => IgnoreNotFound(PauseTask, pause)
    }

    /** Resume its task; a not-found from the backend counts as success. */
    function UnpauseContainer(id: string, locked: bool, resume: Call): (r: Err)
      reads this
      ensures !locked ==> r == Some(ErrLockfailed)
      ensures locked && id !in watch ==> r == Some(ErrNotfound)
      ensures locked && id in watch ==> (r.None? <==> resume.Ok? || resume == Fail(NotFound))
      ensures locked && id in watch && FailedOtherwise(resume) ==> r == Some(Wrapped(ResumeTask, Ctrd(resume.cause)))
    {
      match Guard(id, locked)
      case Failure(e) => Some(e)
      case Success(_) => IgnoreNotFound(ResumeTask, resume)
    }

    /**
      Resize the init process's terminal; `resize` is the backend's answer to
      the size it is sent, each side cut to 32 bits.
     */
    function ResizeContainer(id: string, locked: bool, width: int, height: int, resize: (nat, nat) -> Call): (r: Err)
      reads this
      ensures !locked ==> r == Some(ErrLockfailed)
      ensures locked && id !in watch ==> r == Some(ErrNotfound)
      ensures locked && id in watch ==> r == Raw(resize(ToUint32(width), ToUint32(height)))
    {
      match Guard(id, locked)
      case Failure(e) => Some(e)
      case Success(_) => Raw(resize(ToUint32(width), ToUint32(height)))
    }

    /**
      Resize an exec process's terminal, without the lock: look up the pack,
      load the process, resize it; every error is returned as it is.
     */
    function ResizeExec(id: string, load: Call, width: int, height: int, resize: (nat, nat) -> Call): (r: Err)
      reads this
      ensures id !in watch ==> r == Some(ErrNotfound)
      ensures id in watch && load.Fail? ==> r == Some(Ctrd(load.cause))
      ensures id in watch && load.Ok? ==> r == Raw(resize(ToUint32(width), ToUint32(height)))
    {
      if id !in watch then Some(ErrNotfound)
      else if load.Fail? then Raw(load)
      else Raw(resize(ToUint32(width), ToUint32(height)))
    }

    /**
      Update its task's resources; `convert` is the error of turning the
      requested resources into the runtime's form, checked after the lookup.
     */
    function UpdateResources(id: string, locked: bool, convert: Err, update: Call): (r: Err)
      reads this
      ensures !locked ==> r == Some(ErrLockfailed)
      ensures locked && id !in watch ==> r == Some(ErrNotfound)
      ensures locked && id in watch && convert.Some? ==> r == convert
      ensures locked && id in watch && convert.None? ==> r == Raw(update)
    {
      match Guard(id, locked)
      case Failure(e) => Some(e)
      case Success(_) => if convert.Some? then convert else Raw(update)
    }

    /** Checkpoint its task, without the lock; a backend failure is reported, not retried. */
    function CreateCheckpoint(id: string, checkpoint: Call): (r: Err)
      reads this
      ensures id !in watch ==> r == Some(ErrNotfound)
      ensures id in watch ==> (r.None? <==> checkpoint.Ok?)
      ensures id in watch && checkpoint.Fail? ==> r == Some(Formatted(Checkpoint, Ctrd(checkpoint.cause)))
    {
      if id !in watch then Some(ErrNotfound)
      else if checkpoint.Fail? then Some(Formatted(Checkpoint, Ctrd(checkpoint.cause)))
      else None
    }

    /** Probe the container's mailbox; it needs no lock and leaves the mailbox as it was. */
    method ProbeContainer(id: string, timeout: int, event: Event) returns (r: Option<Message>)
      requires id in watch && CanWin(watch[id].mailbox.slot, timeout, event)
      modifies watch[id].mailbox
      ensures watch[id].mailbox.slot == old(watch[id].mailbox.slot)
      ensures r == ProbeReply(old(watch[id].mailbox.slot), timeout, event)
    {
      r := watch[id].mailbox.Probe(timeout, event);
    }

    /** Destroy got the lock and found the container's pack. */
    predicate Tracked(id: string, locked: bool, r: DestroyReplies)
      reads this
    {
      r.client.Ok? && locked && id in watch
    }

    /**
      Destroy a container by escalation: SIGTERM, then SIGKILL, then the
      force-stop script; wait for the exit and, if that wait timed out, send
      SIGKILL once more and wait again. The result is the last exit's error.
     */
    method DestroyContainer(id: string, locked: bool, r: DestroyReplies) returns (trace: seq<Action>, err: Err)
      ensures r.client.Fail? ==> trace == [] && err == Some(Formatted(GetClient, Ctrd(r.client.cause)))
      ensures r.client.Ok? && !locked ==> trace == [] && err == Some(ErrLockfailed)
      ensures r.client.Ok? && locked && id !in watch ==>
        trace == [ForceStop] && err == ForceStopError(r.force) && (err.None? <==> r.force.Ok?)
      ensures Tracked(id, locked, r) && r.term == Fail(NotFound) ==>
        trace == [SigTerm] && err == Some(Ctrd(NotFound))
      ensures Tracked(id, locked, r) && FailedOtherwise(r.term) && r.kill == Fail(NotFound) ==>
        trace == [SigTerm, SigKill] && err == Some(Ctrd(NotFound))
      ensures Tracked(id, locked, r) && FailedOtherwise(r.term) && FailedOtherwise(r.kill) && r.force.Fail? ==>
        trace == [SigTerm, SigKill, ForceStop] && err == Some(Wrapped(ForceDestroy, Wrapped(ForceStopScript, Ctrd(r.force.cause))))
      ensures Tracked(id, locked, r) && ReachesWait(r) && !WaitExpired(r.firstWait) ==>
        trace == Escalation(r) + [Wait] && err == r.firstWait.err
      ensures Tracked(id, locked, r) && ReachesWait(r) && WaitExpired(r.firstWait) ==>
        && (r.retryKill == Fail(NotFound) ==>
              trace == Escalation(r) + [Wait, SigKill] && err == Some(Ctrd(NotFound)))
        && (FailedOtherwise(r.retryKill) ==>
              trace == Escalation(r) + [Wait, SigKill, ForceStop] && err == Wrap(ForceDestroy, ForceStopError(r.retryForce)))
        && (r.retryKill.Ok? ==>
              trace == Escalation(r) + [Wait, SigKill, Wait] && err == r.secondWait.err)
      ensures err.None? ==> |trace| > 0 && trace[|trace| - 1] in {Wait, ForceStop}
    {
      if r.client.Fail? {
        return [], Some(Formatted(GetClient, Ctrd(r.client.cause)));
      }
      if !locked {
        return [], Some(ErrLockfailed);
      }
      if id !in watch {
        return [ForceStop], ForceStopError(r.force);
      }
      trace := [SigTerm];
      if r.term.Fail? {
        if r.term.cause == NotFound {
          return trace, Raw(r.term);
        }
        trace := trace + [SigKill];
        if r.kill.Fail? {
          if r.kill.cause == NotFound {
            return trace, Raw(r.kill);
          }
          trace := trace + [ForceStop];
          var forced := ForceStopError(r.force);
          if forced.Some? {
            return trace, Wrap(ForceDestroy, forced);
          }
        }
      }
      trace := trace + [Wait];
      var msg := r.firstWait;
      if msg.err.Some? && IsTimeout(msg.err.value) {
        trace := trace + [SigKill];
        if r.retryKill.Fail? {
          if r.retryKill.cause == NotFound {
            return trace, Raw(r.retryKill);
          }
          trace := trace + [ForceStop];
          var forced := ForceStopError(r.retryForce);
          if forced.Some? {
            return trace, Wrap(ForceDestroy, forced);
          }
          return trace, forced;  // the script succeeded: nil, with no further wait
        }
        trace := trace + [Wait];
        msg := r.secondWait;
      }
      err := msg.err;
    }

    /** The exec's container is registered, and its process was created, subscribed to and started. */
    predicate Running(p: ExecRequest, r: ExecReplies)
      reads this
    {
      p.containerId in watch && r.create.Ok? && r.subscribe.Ok? && r.start.Ok?
    }

    /**
      Run a process in a registered container. A detached exec returns once
      started. Otherwise the exit races a timer; when the timer wins, SIGKILL
      is sent and SIGTERM only if that failed other than by not-found. Once
      an exit Message exists the hooks run in order up to the first failure
      and the process is deleted; the exec then returns nil, whatever the
      exit status.
     */
    method ExecContainer(p: ExecRequest, r: ExecReplies) returns (trace: seq<Action>, err: Err)
      ensures p.containerId !in watch ==> trace == [] && err == Some(ErrNotfound)
      ensures p.containerId in watch && r.create.Fail? ==>
        trace == [NewExec] && err == Some(Wrapped(ExecProcess, Ctrd(r.create.cause)))
      ensures p.containerId in watch && r.create.Ok? && r.subscribe.Fail? ==>
        trace == [NewExec, SubscribeExit] && err == Some(Wrapped(ExecProcess, Ctrd(r.subscribe.cause)))
      ensures p.containerId in watch && r.create.Ok? && r.subscribe.Ok? && r.start.Fail? ==>
        trace == [NewExec, SubscribeExit, StartProcess, CloseGate, DeleteExec] &&
        err == Some(Wrapped(StartExec, Ctrd(r.start.cause)))
      ensures Running(p, r) && p.detach ==> trace == Launch && err == None
      ensures Running(p, r) && !p.detach && !TimerWins(p, r) ==>
        trace == Launch + HookTrace(r.hooks, r.status) + [DeleteExec] && err == None
      ensures Running(p, r) && !p.detach && TimerWins(p, r) && KillsFailed(r) ==>
        trace == Launch + ExecKills(r) && err == Some(Wrapped(KillExec, Ctrd(r.sigterm.cause)))
      ensures Running(p, r) && !p.detach && TimerWins(p, r) && !KillsFailed(r) ==>
        trace == Launch + ExecKills(r) + HookTrace(r.hooks, TimeoutMessage(r.status)) + [DeleteExec] && err == None
      ensures SigTerm in trace ==> TimerWins(p, r) && FailedOtherwise(r.sigkill)
      ensures err.None? && !p.detach ==> trace[|trace| - 1] == DeleteExec
    {
      if p.containerId !in watch {
        return [], Some(ErrNotfound);
      }
      trace := [NewExec];
      if r.create.Fail? {
        return trace, Wrap(ExecProcess, Raw(r.create));
      }
      trace := trace + [SubscribeExit];
      if r.subscribe.Fail? {
        return trace, Wrap(ExecProcess, Raw(r.subscribe));
      }
      trace := trace + [StartProcess];
      if r.start.Fail? {
        // close the gate, delete the process to release its pipes
        trace := trace + [CloseGate, DeleteExec];
        return trace, Wrap(StartExec, Raw(r.start));
      }
      trace := trace + [CloseGate];
      if p.detach {
        return trace, None;  // a background waiter runs the hooks and the delete later
      }
      var msg: Message;
      if TimeoutDuration(p.timeout) == 0 || r.race == ExitFirst {
        msg := r.status;
      } else {
        trace := trace + [SigKill];
        if FailedOtherwise(r.sigkill) {
          trace := trace + [SigTerm];
          if FailedOtherwise(r.sigterm) {
            // no exit Message yet, so the deferred cleanup does nothing
            var none := Cleanup(None, r.hooks);
            return trace + none, Wrap(KillExec, Raw(r.sigterm));
          }
        }
        msg := TimeoutMessage(r.status);
      }
      var cleaned := Cleanup(Some(msg), r.hooks);
      trace := trace + cleaned;
      err := None;
    }

    /**
      Re-attach to a container after a restart: load its record, attach to
      its task within at most three attempts, and register a new pack only
      when its task was obtained and subscribed to.
     */
    method RecoverContainer(id: string, locked: bool, r: RecoverReplies) returns (trace: seq<Action>, err: Err)
      requires Valid()
      modifies this
      ensures Valid()
      ensures err.Some? ==> watch == old(watch)
      ensures err.None? ==>
        && id in watch && watch == old(watch)[id := watch[id]]
        && fresh(watch[id].mailbox) && watch[id].mailbox.slot.None?
      ensures r.client.Fail? ==> trace == [] && err == Some(Formatted(GetClient, Ctrd(r.client.cause)))
      ensures r.client.Ok? && !locked ==> trace == [] && err == Some(ErrLockfailed)
      ensures r.client.Ok? && locked && r.load == Fail(NotFound) ==>
        trace == [] && err == Some(Wrapped(NamedContainer, ErrNotfound))
      ensures r.client.Ok? && locked && FailedOtherwise(r.load) ==>
        trace == [] && err == Some(Wrapped(LoadContainer, Ctrd(r.load.cause)))
      ensures r.client.Ok? && locked && r.load.Ok? ==>
        var (n, res) := Settle(r.attempt, 0);
        && 1 <= n <= ShimAttempts
        && |trace| >= n && trace[..n] == seq(n, k => AttachTask(k))
        && (res.GaveUp? ==> trace == trace[..n] && err == Some(Wrapped(ConnectShim, ErrTimeout)))
        && (res == Finished(Refused(NotFound)) ==>
              trace == trace[..n] + [DeleteContainer] && err == Some(Wrapped(NamedTask, ErrNotfound)))
        && (res.Finished? && res.task.Refused? && res.task.cause != NotFound ==>
              trace == trace[..n] && err == Some(Wrapped(GetTask, Ctrd(res.task.cause))))
        && (res.Finished? && res.task.Answer? && r.subscribe.Fail? ==>
              trace == trace[..n] + [SubscribeExit] && err == Some(Wrapped(WaitTask, Ctrd(r.subscribe.cause))))
        && (res.Finished? && res.task.Answer? && r.subscribe.Ok? ==>
              trace == trace[..n] + [SubscribeExit, Register] && err == None && watch[id].pid == res.task.value)
      ensures err.None? <==> (r.client.Ok? && locked && r.load.Ok? && r.subscribe.Ok? &&
        Settle(r.attempt, 0).1.Finished? && Settle(r.attempt, 0).1.task.Answer?)
    {
      if r.client.Fail? {
        return [], Some(Formatted(GetClient, Ctrd(r.client.cause)));
      }
      if !locked {
        return [], Some(ErrLockfailed);
      }
      if r.load.Fail? {
        if r.load.cause == NotFound {
          return [], Some(Wrapped(NamedContainer, ErrNotfound));
        }
        return [], Some(Wrapped(LoadContainer, Ctrd(r.load.cause)));
      }
      var tries, res := AttachWithRetry(r.attempt);
      trace := seq(tries, k => AttachTask(k));
      if res.GaveUp? {
        return trace, Some(Wrapped(ConnectShim, ErrTimeout));
      }
      if res.task.Refused? {
        if res.task.cause != NotFound {
          return trace, Some(Wrapped(GetTask, Ctrd(res.task.cause)));
        }
        // no task: delete the container record directly
        return trace + [DeleteContainer], Some(Wrapped(NamedTask, ErrNotfound));
      }
      trace := trace + [SubscribeExit];
      if r.subscribe.Fail? {
        return trace, Wrap(WaitTask, Raw(r.subscribe));
      }
      var box := new Mailbox();
      watch := watch[id := Pack(id, res.task.value, box)];
      trace := trace + [Register];
      err := None;
    }

    /**
      Create the container and its task, with the lock held: once the remote
      container exists any later failure deletes it, and the pack is
      registered only when every step succeeded.
     */
    method CreateLocked(id: string, rootFSProvided: bool, r: CreateReplies) returns (trace: seq<Action>, err: Err)
      requires Valid()
      modifies this
      ensures Valid()
      ensures err.Some? ==> watch == old(watch)
      ensures err.None? ==>
        && id in watch && watch == old(watch)[id := watch[id]]
        && r.newTask.Answer? && watch[id].pid == r.newTask.value && watch[id].mailbox.slot.None?
        && fresh(watch[id].mailbox)
      ensures r.client.Fail? ==> trace == [] && err == Some(Formatted(GetClient, Ctrd(r.client.cause)))
      ensures r.client.Ok? && !rootFSProvided && r.snapshot.Fail? ==>
        trace == [] && err == Some(Wrapped(ContainerCreation, Ctrd(r.snapshot.cause)))
      ensures r.client.Ok? && (rootFSProvided || r.snapshot.Ok?) && r.newContainer.Fail? ==>
        trace == [NewContainer] && err == Some(Wrapped(ContainerCreation, Ctrd(r.newContainer.cause)))
      ensures r.client.Ok? && (rootFSProvided || r.snapshot.Ok?) && r.newContainer.Ok? ==>
        && |trace| >= 4 && trace[..3] == [NewContainer, NewTask, CloseGate]
        && (err.Some? ==> trace[|trace| - 1] == DeleteContainer)
        && (err.Some? && r.newTask.Answer? ==> trace[|trace| - 2] == DeleteTask)
        && (err.None? ==> trace == [NewContainer, NewTask, CloseGate, SubscribeExit, StartProcess, Register])
        && err == TaskError(r)
        && trace == [NewContainer] + TaskTrace(r) + (if err.Some? then [DeleteContainer] else [Register])
      ensures (DeleteContainer in trace) <==>
        (err.Some? && r.client.Ok? && (rootFSProvided || r.snapshot.Ok?) && r.newContainer.Ok?)
      ensures err.None? <==> (r.client.Ok? && (rootFSProvided || r.snapshot.Ok?) && r.newContainer.Ok? &&
        r.newTask.Answer? && r.subscribe.Ok? && r.start.Ok?)
    {
      if r.client.Fail? {
        return [], Some(Formatted(GetClient, Ctrd(r.client.cause)));
      }
      if !rootFSProvided && r.snapshot.Fail? {
        return [], Some(Wrapped(ContainerCreation, Ctrd(r.snapshot.cause)));
      }
      trace := [NewContainer];
      if r.newContainer.Fail? {
        return trace, Some(Wrapped(ContainerCreation, Ctrd(r.newContainer.cause)));
      }
      var taskTrace, pack, taskErr := CreateTask(id, r);
      trace := trace + taskTrace;
      if taskErr.Some? {
        // deferred rollback of the container; its own failure is only logged
        return trace + [DeleteContainer], taskErr;
      }
      watch := watch[id := pack.value];
      trace := trace + [Register];
      err := None;
    }

    /** Create a container under its lock. */
    method CreateContainer(id: string, locked: bool, rootFSProvided: bool, r: CreateReplies) returns (trace: seq<Action>, err: Err)
      requires Valid()
      modifies this
      ensures Valid()
      ensures !locked ==> trace == [] && err == Some(ErrLockfailed)
      ensures err.Some? ==> watch == old(watch)
      ensures err.None? ==>
        && id in watch && watch == old(watch)[id := watch[id]]
        && r.newTask.Answer? && watch[id].pid == r.newTask.value && watch[id].mailbox.slot.None?
        && fresh(watch[id].mailbox)
      ensures locked && r.client.Fail? ==> trace == [] && err == Some(Formatted(GetClient, Ctrd(r.client.cause)))
      ensures locked && r.client.Ok? && !rootFSProvided && r.snapshot.Fail? ==>
        trace == [] && err == Some(Wrapped(ContainerCreation, Ctrd(r.snapshot.cause)))
      ensures locked && r.client.Ok? && (rootFSProvided || r.snapshot.Ok?) && r.newContainer.Fail? ==>
        trace == [NewContainer] && err == Some(Wrapped(ContainerCreation, Ctrd(r.newContainer.cause)))
      ensures locked && r.client.Ok? && (rootFSProvided || r.snapshot.Ok?) && r.newContainer.Ok? ==>
        && err == TaskError(r)
        && trace == [NewContainer] + TaskTrace(r) + (if err.Some? then [DeleteContainer] else [Register])
      ensures (DeleteContainer in trace) <==>
        (err.Some? && locked && r.client.Ok? && (rootFSProvided || r.snapshot.Ok?) && r.newContainer.Ok?)
      ensures err.None? <==> (locked && r.client.Ok? && (rootFSProvided || r.snapshot.Ok?) && r.newContainer.Ok? &&
        r.newTask.Answer? && r.subscribe.Ok? && r.start.Ok?)
    {
      if !locked {
        return [], Some(ErrLockfailed);
      }
      trace, err := CreateLocked(id, rootFSProvided, r);
    }
  }
}

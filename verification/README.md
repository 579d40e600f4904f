# Container-task lifecycle controller, modelled in Dafny

This project models the decision logic of the controller in `ctrd/container.go`. The controller sits inside a container-engine daemon and drives a remote container runtime over RPC. For each container it creates the remote container and its task, runs exec processes inside it, pauses, resizes and queries it, recovers it after a daemon restart, and destroys it by signal escalation. It keeps a live registry (the "watch") of one *pack* per container. A pack holds the task's pid and an exit mailbox of capacity one, which replays the container's terminal exit Message to every probe.

Every call into the backend is reduced to its outcome: `Ok`, or `Fail` with a cause that is either `NotFound` or `Other(code, saysNotFound)`. The flag records whether the failure's text says "not found" although its status code does not. These outcomes are inputs to the operations. So are the races between an exit, a timer and a cancellation. Each operation returns the actions it performed, in order (signals, waits, force-stop, deletes, hook runs, registration), together with its error. A Go `error` is `Option<Error>`, where `None` is nil. Wrapping keeps nil as nil, as the Go error library does. Errors that the source builds with formatting rather than wrapping are `Formatted`. The backend's not-found check and the engine's timeout check look through wrappings but not through `Formatted`. The stdin worker's check on the error text looks through both, because both quote the inner error's text.

Files:
- `types.dfy` (module `Types`): call outcomes, errors, the exit Message, actions.
- `mailbox.dfy` (module `Mailboxes`): the single-slot replay mailbox and what a probe returns.
- `stdio.dfy` (module `Stdio`): the run-once stdin close wrapper, IO creation and re-attachment.
- `hooks.dfy` (module `Policies`): the exec exit-hook loop, exec cleanup, and the bounded retry of attaching to a task.
- `container.dfy` (module `Ctrd`): the registry (class `Client`) and the lifecycle operations.

Where the design description and the code differ, the model follows the code:
- On an exec timeout the code sends SIGKILL first. It sends SIGTERM only if SIGKILL failed for a reason other than not-found.
- An exec's timeout in seconds is multiplied into a 64-bit nanosecond count, which wraps. The exec has no timer exactly when that count is 0, which happens when the timeout is a multiple of 2^55 seconds (0 among them). A negative count gives a timer that fires at once.
- An exec returns nil once it has an exit Message, whatever the exit status. The timeout-wrapped error reaches only the exit hooks.
- When both exec signals fail, the exec returns an error without running the hooks and without deleting the exec process.
- Destroy's second wait uses the same timeout as the first. It is not unbounded.
- One destroy can run the force-stop script twice. This happens when the first SIGKILL fails and the script succeeds, the wait then times out, and the second SIGKILL also fails for a reason other than not-found.
- A probe with a timeout of 0 or less waits on the mailbox alone. It does not watch for cancellation.
- Recovery retries only attempts that time out. The first answer, not-found included, ends the retry loop at once.
- Status, PIDs and stats take the lock. The single-pid query, exec resize and checkpoint do not.

## Model

| member | source | states |
|---|---|---|
| `Mailboxes.ProbeReply` | ctrd/container.go:299-318 | A timeout of 0 or less returns the slot's Message, and blocks while the slot is empty. A positive timeout always answers: the slot's Message when the receive wins, a Message with ErrTimeout when the timer fires, a Message with the context error on cancellation. |
| `Mailboxes.ReplayIsIdempotent` | ctrd/container.go:303-311 | Once the mailbox holds a Message, every probe in any series that waits on the slot returns that same Message. |
| `Mailboxes.ExpiryIsDistinguishable` | ctrd/container.go:313-316 | A timer or cancellation reply carries an error, and that error is a timeout exactly when the timer fired. |
| `Mailboxes.Mailbox.constructor` | ctrd/container.go:714 | A new mailbox of capacity one is empty. |
| `Mailboxes.Mailbox.Deliver` | ctrd/container.go:714 | A send succeeds only into an empty slot; a full slot is left unchanged. |
| `Mailboxes.Mailbox.Probe` | ctrd/container.go:300-318 | Returns ProbeReply of the old slot, and the slot afterwards is exactly what it was (receive, then put back). |
| `Mailboxes.Mailbox.ProbeEach` | ctrd/container.go:303-311 | Probing one mailbox repeatedly through `Probe` leaves the slot as it was and gives the replies of ProbeSeries. A full mailbox replays its Message to every probe that waits on it. |
| `Stdio.StdinCloser.constructor` | ctrd/container.go:838-843 | The guard has not fired, no close has happened, the gate is open and no worker waits. |
| `Stdio.StdinCloser.Close` | ctrd/container.go:844-865 | Only the first close closes the pipe and launches the worker. Every close returns the result stored by the first. The pipe is closed exactly once. |
| `Stdio.StdinCloser.CloseGateChannel` | ctrd/container.go:679 | The gate channel becomes closed; nothing else changes. |
| `Stdio.StdinCloser.RunWorker` | ctrd/container.go:851-861 | The remote close-write-side runs only if the worker was launched and the gate is closed, and at most once overall. Its failure is reported unless it is the backend's not-found or its text says "not found". |
| `Stdio.NotFoundSaysSo` | ctrd/container.go:858 | The backend's not-found, however wrapped, also reads "not found". |
| `Stdio.SaysNotFoundLooksThrough` | ctrd/container.go:854-858 | An error is left unreported exactly when the failure under all its wrappings and formattings is the engine's not-found value or a backend failure that says "not found". |
| `Stdio.CloseStdinIO` | ctrd/container.go:907-931 | The remote close of the write side returns nil exactly when every step succeeds. A client failure is formatted; the first later failure is returned raw. |
| `Stdio.CloseStdinIOQuietWhenGone` | ctrd/container.go:851-861 | Whichever step fails first, the worker's failure is left unreported exactly when that step's failure says "not found". |
| `Stdio.CreateIO` | ctrd/container.go:832-875 | A direct-IO error or an initializer error is returned as it is. On success a fresh close wrapper exists exactly when there is stdin. |
| `Stdio.AttachIO` | ctrd/container.go:877-901 | A nil FIFO set is rejected. On success the IO is built from exactly the set's four settings. Direct-IO and initializer errors are returned as they are. |
| `Policies.HooksStopAtFirstError` | ctrd/container.go:132-137 | Every hook run before the last one succeeded. When some hook did not run, the last one run failed. |
| `Policies.AllHooksRunWhenNoneFails` | ctrd/container.go:132-137 | When no hook fails, every registered hook runs. |
| `Policies.RunHooks` | ctrd/container.go:132-137 | The hook loop invokes hooks 0, 1, … with the exit Message, as many as HooksInvoked says. |
| `Policies.Cleanup` | ctrd/container.go:127-143 | Without an exit Message nothing happens. Otherwise the hooks run, then the exec process is deleted. |
| `Policies.SettleBounds` | ctrd/container.go:360-381 | At most three attempts. Every attempt but the last one made timed out. The retry gives up exactly when the third attempt times out. Otherwise it ends with the answer of the last attempt made. |
| `Policies.AttachWithRetry` | ctrd/container.go:360-381 | The retry loop makes between one and three attempts and ends as the reference definition Settle says. |
| `Ctrd.ForceStopError` | ctrd/container.go:512-518 | Force-stop returns nil exactly when the script succeeded; otherwise the script error, wrapped. |
| `Ctrd.IgnoreNotFound` | ctrd/container.go:540-544 | Nil exactly when the call succeeded or failed with not-found; otherwise the failure, wrapped. |
| `Ctrd.ToUint32` | ctrd/container.go:771 | A size sent to the backend is cut to 32 bits: it is below 2^32, congruent to the requested size, and equal to it when the size fits. |
| `Ctrd.ToInt64` | ctrd/container.go:173 | A 64-bit signed product wraps into [-2^63, 2^63), stays congruent modulo 2^64, is unchanged when it fits, and is 0 exactly on multiples of 2^64. |
| `Ctrd.WrapsToZero` | ctrd/container.go:173-175 | A timeout that is a multiple of 2^55 seconds is a multiple of 2^64 nanoseconds. |
| `Ctrd.OnlyMultiplesWrap` | ctrd/container.go:173-175 | Only such timeouts are multiples of 2^64 nanoseconds. |
| `Ctrd.NoTimerExactly` | ctrd/container.go:173-178 | The exec runs without a timer exactly when its timeout is a multiple of 2^55 seconds. Every timeout from 1 to 2^55 - 1 seconds has a timer. |
| `Ctrd.TimeoutMessage` | ctrd/container.go:196-202 | After a timeout the exit error is wrapped as a timeout, a clean exit stays nil, and the code and time are kept. |
| `Ctrd.WaitContainer` | ctrd/container.go:784-812 | Client failure is reported. The wait blocks until the mailbox holds a Message. A timeout error in it is returned. Otherwise the body carries the exit error and code. |
| `Ctrd.TaskError` | ctrd/container.go:670-706 | Creating a task fails exactly when one of its three steps fails. The error carries the backend cause of the first failing step. |
| `Ctrd.TaskTrace` | ctrd/container.go:670-706 | The trace starts with the create call and the gate close. It holds the task's delete exactly when the task was created and a later step failed, and then ends with it. |
| `Ctrd.CreateTask` | ctrd/container.go:660-719 | The gate closes right after creating the task, whatever the outcome. Once the task exists, any later failure deletes it. A pack with a fresh, empty mailbox and the task's pid is returned exactly when every step succeeded. Each step's error is wrapped. The trace and error are TaskTrace and TaskError. |
| `Ctrd.Client.Guard` | ctrd/container.go:66-74 | A lock failure gives ErrLockfailed whatever the registry holds. Under the lock, the pack is found exactly when it is registered, and it is the pack of that id. |
| `Ctrd.Client.ContainerStats` | ctrd/container.go:65-82 | Lock failure gives ErrLockfailed before any lookup. An unknown id gives not-found. The metrics are returned exactly when the backend answers; a backend error is returned raw. |
| `Ctrd.Client.ContainerPIDs` | ctrd/container.go:252-269 | Same guard. The processes are returned exactly when the backend answers; a backend error is wrapped. |
| `Ctrd.Client.ContainerStatus` | ctrd/container.go:281-297 | Same guard. The status is returned exactly when the backend answers; a backend error is wrapped. |
| `Ctrd.Client.ContainerPID` | ctrd/container.go:234-240 | Without the lock: the registered pack's pid, or -1 with not-found. |
| `Ctrd.Client.PauseContainer` | ctrd/container.go:529-549 | Lock failure gives ErrLockfailed. An unknown id gives not-found. Otherwise nil exactly when pause succeeded or reported not-found; any other failure is wrapped. |
| `Ctrd.Client.UnpauseContainer` | ctrd/container.go:560-580 | The same for resume. |
| `Ctrd.Client.ResizeContainer` | ctrd/container.go:760-772 | Same guard. Then the backend's answer to the size cut to 32 bits. |
| `Ctrd.Client.ResizeExec` | ctrd/container.go:210-222 | Without the lock: not-found for an unknown id, the load error, or the answer to the resize cut to 32 bits. |
| `Ctrd.Client.UpdateResources` | ctrd/container.go:730-747 | Same guard. Then a conversion error, or else the update's result. |
| `Ctrd.Client.CreateCheckpoint` | ctrd/container.go:815-827 | Without the lock: not-found for an unknown id. Otherwise nil exactly when the checkpoint succeeded. |
| `Ctrd.Client.ProbeContainer` | ctrd/container.go:299-318 | Probing a registered container returns ProbeReply of its mailbox and leaves the mailbox as it was. |
| `Ctrd.Client.DestroyContainer` | ctrd/container.go:418-510 | With no pack, only the force-stop runs, and the result is nil exactly when it succeeded. A not-found SIGTERM is returned with nothing after it. Another SIGTERM failure leads to exactly one SIGKILL. A SIGKILL failing otherwise leads to force-stop, whose failure is returned wrapped. Otherwise destroy waits; on a timeout it sends SIGKILL once more and waits again. The result is the last Message's raw error. A nil result always ends with a wait or a force-stop. |
| `Ctrd.Client.ExecContainer` | ctrd/container.go:93-206 | An unknown container fails before any exec is created. A failed start closes the gate, deletes the exec and returns a wrapped error. A detached exec returns nil once started. There is a timer unless the wrapped nanosecond count is 0. On a timer win, SIGKILL is sent, and SIGTERM only when SIGKILL failed otherwise. If both fail, that error is returned and cleanup is skipped. Otherwise the hooks run in order up to the first failure, the exec is deleted, and the result is nil. |
| `Ctrd.Client.RecoverContainer` | ctrd/container.go:329-410 | Client, lock and load failures come first; not-found on load gives ErrNotfound. Then one to three attach attempts. Three time-outs give ErrTimeout. A task not found deletes the container and gives ErrNotfound. The registry gains a pack with an empty mailbox exactly when the task was obtained and its Wait succeeded. |
| `Ctrd.Client.CreateLocked` | ctrd/container.go:597-658 | Client and snapshot failures come before anything is created. Once the container exists, the error is TaskError unchanged and the trace is the container create, TaskTrace, then the container's delete on failure or the registration on success. The container is deleted exactly when it was created and a later step failed. The registry changes exactly on success, gaining the new pack with a fresh, empty mailbox. |
| `Ctrd.Client.CreateContainer` | ctrd/container.go:583-595 | Lock failure gives ErrLockfailed and changes nothing. Under the lock, every outcome of CreateLocked is stated again: its errors, its trace, its rollback and its registry change. |

## Left out

- RPC plumbing. Getting a backend client, loading containers, the option lists for NewContainer and NewTask, leases, snapshot lookup and runtime-type constants are reduced to call outcomes.
- The force-stop script is one outcome. Its exit code and captured output are not modelled.
- Error text. Errors are values (`Wrapped`, `Formatted`) naming the context they add. The wait body keeps the exit error as a value, not as its text. The error translation applied by the exported wrappers is not part of this model, because its body is not in the file.
- The registry's own implementation (get, add, remove, notify) and the exit monitor that fills the mailbox are not part of this model. `Mailbox.Deliver` stands in for the monitor's one send. Nothing removes a pack, so "destroy eventually leaves no pack" is not stated.
- `Ctrd.Client.ProbeContainer`: it requires a registered id, because what `notify` does for an unknown id is not in the file.
- The entity lock is a boolean input: whether the bounded-retry acquisition succeeded. Unlocking is not modelled.
- Concurrency. Goroutines, channels, `sync.Once` and timers are replaced by inputs: which event wins a race, and what each attach attempt returns. The run-once guard is a flag.
- The recover loop has a data race: a timed-out attempt's goroutine can still write the shared task and error later. It is not modelled; each attempt's outcome is an input.
- Destroy's two waits take, as inputs, the Messages the two probes returned. What a probe can return is `ProbeReply`.
- The detached exec's background waiter is not modelled as a call. It would run `Cleanup` with the exit status once the process exits.
- Direct-IO cancel and close after an initializer failure are foreign library calls. Only the error path is kept.
- The pack keeps only its id, its task's pid and its mailbox. The container and task handles, the exit-status channel and the client record are not modelled.
- The text of the engine's own errors is not part of this model. Its not-found value is taken to read "not found" and its other errors not to. Container and process ids are taken not to contain the phrase.
- Logging is left out. Whether the stdin worker's failure is reported is returned as a flag.

/**
  The exec exit hooks and the bounded retry of attaching to a task: two
  small loops of the controller, each proved against a reference definition.
 */
module Policies {
  import opened Types

  /** How many hooks run: up to and including the first one that fails. */
  function HooksInvoked(results: seq<Err>): (n: nat)
    ensures n <= |results|
    ensures n == 0 <==> results == []
  {
    if results == [] then 0
    else if results[0].Some? then 1
    else 1 + HooksInvoked(results[1..])
  }

  /** The hook invocations, in registration order, each given the exit Message. */
  function HookTrace(results: seq<Err>, msg: Message): (t: seq<Action>)
    ensures |t| <= |results|
  {
    seq(HooksInvoked(results), k => RunHook(k, msg))
  }

  /**
    Hooks run in order and stop at the first error: every hook but the last
    one run succeeded, and when some hook did not run, the last one run failed.
   */
  lemma {:induction false} HooksStopAtFirstError(results: seq<Err>)
    ensures var n := HooksInvoked(results);
      && (forall k :: 0 <= k < n - 1 ==> results[k].None?)
      && (n < |results| ==> results[n - 1].Some?)
  {
    if results != [] && results[0].None? {
      HooksStopAtFirstError(results[1..]);
      var n := HooksInvoked(results);
      forall k | 0 <= k < n - 1
        ensures results[k].None?
      {
        if k > 0 {
          assert results[k] == results[1..][k - 1];
        }
      }
    }
  }

  /** When no hook fails, every hook runs. */
  lemma {:induction false} AllHooksRunWhenNoneFails(results: seq<Err>)
    requires forall k :: 0 <= k < |results| ==> results[k].None?
    ensures HooksInvoked(results) == |results|
  {
    if results != [] {
      AllHooksRunWhenNoneFails(results[1..]);
    }
  }

  /**
    Run the registered exit hooks, `results[k]` being what hook k returns,
    and stop at the first one that fails (its error is only logged).
   */
  method RunHooks(results: seq<Err>, msg: Message) returns (trace: seq<Action>)
    ensures trace == HookTrace(results, msg)
  {
    trace := [];
    var i := 0;
    while i < |results|
      invariant 0 <= i <= |results|
      invariant trace == seq(i, k => RunHook(k, msg))
      invariant HooksInvoked(results) == i + HooksInvoked(results[i..])
    {
      trace := trace + [RunHook(i, msg)];
      if results[i].Some? {
        assert HooksInvoked(results[i..]) == 1;
        break;
      }
      assert results[i..][1..] == results[i + 1..];
      i := i + 1;
    }
  }

  /**
    The exec's cleanup: nothing when there is no exit Message yet;
    otherwise the hooks, then the delete of the exec process, whose failure
    is only logged.
   */
  method Cleanup(msg: Option<Message>, results: seq<Err>) returns (trace: seq<Action>)
    ensures msg.None? ==> trace == []
    ensures msg.Some? ==> trace == HookTrace(results, msg.value) + [DeleteExec]
  {
    if msg.None? {
      return [];
    }
    trace := RunHooks(results, msg.value);
    trace := trace + [DeleteExec];
  }

  /** How many times recovery tries to attach to a container's task before giving up. */
  const ShimAttempts: nat := 3

  /** One attempt to attach: it outlives its time budget, or the backend answers (with its task's pid). */
  datatype Attempt = TimedOut | Returned(task: Reply<nat>)

  datatype AttachResult = GaveUp | Finished(task: Reply<nat>)

  /**
    Reference definition of the retry: the number of attempts made from
    attempt `from` on, and how the retry ends.
   */
  function Settle(attempt: nat -> Attempt, from: nat): (nat, AttachResult)
    decreases ShimAttempts - from
  {
    if from >= ShimAttempts then (0, GaveUp)
    else if attempt(from).Returned? then (1, Finished(attempt(from).task))
    else var (n, res) := Settle(attempt, from + 1); (n + 1, res)
  }

  /**
    At most three attempts: each timed-out attempt but the third is retried,
    a third time-out gives up, and the first answer ends the retry.
   */
  lemma {:induction false} SettleBounds(attempt: nat -> Attempt, from: nat)
    requires from < ShimAttempts
    ensures var (n, res) := Settle(attempt, from);
      && 1 <= n <= ShimAttempts - from
      && (forall j :: from <= j < from + n - 1 ==> attempt(j).TimedOut?)
      && (res.GaveUp? <==> n == ShimAttempts - from && attempt(from + n - 1).TimedOut?)
      && (res.Finished? ==> attempt(from + n - 1) == Returned(res.task))
    decreases ShimAttempts - from
  {
    if attempt(from).TimedOut? && from + 1 < ShimAttempts {
      SettleBounds(attempt, from + 1);
    }
  }

  /**
    The retry loop of recovery: attempt `i` is given a bounded time; the
    first two time-outs are retried, the third gives up.
   */
  method AttachWithRetry(attempt: nat -> Attempt) returns (tries: nat, res: AttachResult)
    ensures (tries, res) == Settle(attempt, 0)
    ensures 1 <= tries <= ShimAttempts
  {
    var i := 0;
    while i < ShimAttempts
      invariant 0 <= i < ShimAttempts
      invariant Settle(attempt, 0) == var (n, r) := Settle(attempt, i); (n + i, r)
    {
      match attempt(i)
      case TimedOut =>
        if i < ShimAttempts - 1 {
          i := i + 1;
          continue;
        }
        return i + 1, GaveUp;
      case Returned(task) =>
        return i + 1, Finished(task);
    }
    assert false;
  }
}

/**
  The exit mailbox of a container: a channel of capacity one that, once the
  exit monitor has put the terminal Message in it, replays that Message to
  every probe.
 */
module Mailboxes {
  import opened Types

  /** Which of the cases a probe waits on happens first. */
  datatype Event = Delivered | TimerFired | Cancelled

  /**
    Whether the event can win a probe of a slot: with a timeout, a receive
    wins only from a full slot; the timer or the cancellation always can.
   */
  predicate CanWin(slot: Option<Message>, timeout: int, event: Event) {
    timeout > 0 && event == Delivered ==> slot.Some?
  }

  /**
    What a probe returns, given the slot's content, the timeout and the event
    that wins the race; None means the probe is still blocked. A timeout of
    zero or less waits on the slot alone, with no timer and no cancellation;
    a positive timeout always answers.
   */
  function ProbeReply(slot: Option<Message>, timeout: int, event: Event): (r: Option<Message>)
    requires CanWin(slot, timeout, event)
    ensures timeout <= 0 ==> r == slot
    ensures timeout > 0 ==> r.Some?
    ensures timeout > 0 && event == Delivered ==> r == slot
    ensures timeout > 0 && event == TimerFired ==> r == Some(ErrorMessage(ErrTimeout))
    ensures timeout > 0 && event == Cancelled ==> r == Some(ErrorMessage(ContextDone))
  {
    if timeout <= 0 || event == Delivered then slot
    else if event == TimerFired then Some(ErrorMessage(ErrTimeout))
    else Some(ErrorMessage(ContextDone))
  }

  /** Every probe of a series can happen on the given slot. */
  predicate AllCanWin(slot: Option<Message>, probes: seq<(int, Event)>) {
    forall i :: 0 <= i < |probes| ==> CanWin(slot, probes[i].0, probes[i].1)
  }

  /**
    Reference definition of successive probes of one mailbox: the reply each
    probe would give if the slot still held what it held at the start.
   */
  function ProbeSeries(slot: Option<Message>, probes: seq<(int, Event)>): (rs: seq<Option<Message>>)
    requires AllCanWin(slot, probes)
    ensures |rs| == |probes|
  {
    if probes == [] then []
    else
      var last := probes[|probes| - 1];
      ProbeSeries(slot, probes[..|probes| - 1]) + [ProbeReply(slot, last.0, last.1)]
  }

  /** A probe that waits on the slot, not on a timer or a cancellation. */
  predicate Waits(probe: (int, Event)) {
    probe.0 <= 0 || probe.1 == Delivered
  }

  /**
    Replay: once the mailbox holds a Message, every probe that waits on the
    slot returns that same Message, however many probes there are.
   */
  lemma {:induction false} ReplayIsIdempotent(m: Message, probes: seq<(int, Event)>, i: nat)
    requires i < |probes| && Waits(probes[i])
    ensures AllCanWin(Some(m), probes)
    ensures ProbeSeries(Some(m), probes)[i] == Some(m)
  {
    var n := |probes| - 1;
    if i < n {
      assert probes[..n][i] == probes[i];
      ReplayIsIdempotent(m, probes[..n], i);
    }
  }

  /** A timer or a cancellation reply is told apart from any exit by its error. */
  lemma ExpiryIsDistinguishable(slot: Option<Message>, timeout: int, event: Event)
    requires timeout > 0 && event != Delivered
    ensures var r := ProbeReply(slot, timeout, event);
      r.Some? && r.value.err.Some? &&
      (IsTimeout(r.value.err.value) <==> event == TimerFired)
  {
  }

  class Mailbox {
    var slot: Option<Message>

    /** A fresh mailbox of capacity one holds nothing. */
    constructor ()
      ensures slot == None
    {
      slot := None;
    }

    /**
      The exit monitor's one send: it lands only in an empty slot (a send
      into a full channel of capacity one would block).
     */
    method Deliver(m: Message) returns (accepted: bool)
      modifies this
      ensures accepted <==> old(slot).None?
      ensures slot == if accepted then Some(m) else old(slot)
    {
      accepted := slot.None?;
      if accepted {
        slot := Some(m);
      }
    }

    /**
      Probe the mailbox: a received Message is put straight back, so the slot
      afterwards holds exactly what it held before.
     */
    method Probe(timeout: int, event: Event) returns (r: Option<Message>)
      requires CanWin(slot, timeout, event)
      modifies this
      ensures slot == old(slot)
      ensures r == ProbeReply(old(slot), timeout, event)
    {
      if timeout <= 0 || event == Delivered {
        if slot.Some? {
          var msg := slot.value;
          slot := None;        // receive
          slot := Some(msg);   // and put it back
          r := Some(msg);
        } else {
          r := None;
        }
      } else if event == TimerFired {
        r := Some(ErrorMessage(ErrTimeout));
      } else {
        r := Some(ErrorMessage(ContextDone));
      }
    }

    /**
      Probe the mailbox once per element of `probes`, in order. Because
      every probe puts the Message back, each reply is the one the first
      slot determines, and a full mailbox replays its Message to every
      probe that waits on it.
     */
    method ProbeEach(probes: seq<(int, Event)>) returns (replies: seq<Option<Message>>)
      requires AllCanWin(slot, probes)
      modifies this
      ensures slot == old(slot)
      ensures replies == ProbeSeries(old(slot), probes)
      ensures old(slot).Some? ==>
        forall i :: 0 <= i < |probes| && Waits(probes[i]) ==> replies[i] == old(slot)
    {
      replies := [];
      var i := 0;
      while i < |probes|
        invariant 0 <= i <= |probes|
        invariant slot == old(slot)
        invariant replies == ProbeSeries(old(slot), probes[..i])
      {
        var r := Probe(probes[i].0, probes[i].1);
        assert probes[..i + 1][..i] == probes[..i];
        replies := replies + [r];
        i := i + 1;
      }
      assert probes[..i] == probes;
      if old(slot).Some? {
        forall k | 0 <= k < |probes| && Waits(probes[k])
          ensures replies[k] == old(slot)
        {
          ReplayIsIdempotent(old(slot).value, probes, k);
        }
      }
    }
  }
}

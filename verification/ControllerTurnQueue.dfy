/** The turn queue object; each method follows the step of TurnQueue it is named after. */
module ControllerTurnQueue {
  import opened Wrappers
  import Q = TurnQueue

  class ControllerTurnQueue {
    const maxOutstandingTurns: nat
    var pending: seq<Q.Entry>
    var active: bool
    /** The entry whose operation is running, while `active`. */
    var current: Option<Q.Entry>
    var microtasks: nat
    var aborted: set<Q.Signal>
    var admitted: nat
    ghost var starts: seq<nat>
    var outcomes: map<nat, Q.Outcome>
    ghost var settledTwice: bool

    ghost predicate Valid()
      reads this
    {
      active <==> current.Some?
    }

    ghost function Fields(): Q.Queue
      reads this
    {
      Q.Queue(pending, current, microtasks, aborted, admitted, starts, outcomes, settledTwice)
    }

    constructor (maxOutstandingTurns: nat)
      requires maxOutstandingTurns > 0
      ensures Valid() && Fields() == Q.EMPTY && this.maxOutstandingTurns == maxOutstandingTurns
    {
      this.maxOutstandingTurns := maxOutstandingTurns;
      pending, active, current, microtasks, aborted, admitted := [], false, None, 0, {}, 0;
      starts, outcomes, settledTwice := [], map[], false;
    }

    method Settle(id: nat, outcome: Q.Outcome)
      requires Valid()
      modifies this`outcomes, this`settledTwice
      ensures Valid() && Fields() == Q.Settle(old(Fields()), id, outcome)
    {
      settledTwice := settledTwice || id in outcomes;
      outcomes := outcomes[id := outcome];
    }

    predicate IsAborted(signal: Option<Q.Signal>)
      reads this
    {
      signal.Some? && signal.value in aborted
    }

    /** `busy` stands for the error CONTROLLER_BUSY, thrown before anything is admitted. */
    method Schedule(signal: Option<Q.Signal>) returns (busy: bool)
      requires Valid()
      modifies this
      ensures Valid() && Fields() == Q.Step(old(Fields()), maxOutstandingTurns, Q.Scheduled(signal))
      ensures busy <==> |old(pending)| + (if old(active) then 1 else 0) >= maxOutstandingTurns
    {
      if |pending| + (if active then 1 else 0) >= maxOutstandingTurns { return true; }
      busy := false;
      var id := admitted;
      admitted := admitted + 1;
      if IsAborted(signal) {
        Settle(id, Q.Aborted);
        return;
      }
      pending := pending + [Q.Entry(id, signal)];
      Drain();
    }

    method Drain()
      requires Valid()
      modifies this
      ensures Valid() && Fields() == Q.Drain(old(Fields()))
    {
      if active || |pending| == 0 { return; }
      var entry := pending[0];
      pending := pending[1..];
      if IsAborted(entry.signal) {
        Settle(entry.id, Q.Aborted);
        microtasks := microtasks + 1;
        return;
      }
      active := true;
      current := Some(entry);
      starts := starts + [entry.id];
    }

    method Abort(source: Q.Signal)
      requires Valid()
      modifies this
      ensures Valid() && Fields() == Q.Step(old(Fields()), maxOutstandingTurns, Q.Aborting(source))
    {
      aborted := aborted + {source};
    }

    /** Position of the entry in `pending`, or its length. */
    method IndexOf(id: nat) returns (i: nat)
      ensures i == Q.PositionOf(pending, id)
    {
      i := 0;
      while i < |pending| && pending[i].id != id
        invariant i <= |pending|
        invariant Q.PositionOf(pending, id) == i + Q.PositionOf(pending[i..], id)
      {
        assert pending[i..][1..] == pending[i + 1..];
        i := i + 1;
      }
    }

    method OnAbort(id: nat)
      requires Valid()
      modifies this
      ensures Valid() && Fields() == Q.Step(old(Fields()), maxOutstandingTurns, Q.AbortListenerRuns(id))
    {
      var index := IndexOf(id);
      if index == |pending| || !IsAborted(pending[index].signal) { return; }
      pending := pending[..index] + pending[index + 1..];
      Settle(id, Q.Aborted);
      Drain();
    }

    method OperationEnded(failed: bool)
      requires Valid()
      modifies this
      ensures Valid() && Fields() == Q.Step(old(Fields()), maxOutstandingTurns, Q.OperationEnded(failed))
    {
      if current.None? || current.value.id in outcomes { return; }
      Settle(current.value.id, if failed then Q.OperationFailed else Q.Completed);
    }

    /** The cleanup behind the operation's promise. */
    method CleanupRuns()
      requires Valid()
      modifies this
      ensures Valid() && Fields() == Q.Step(old(Fields()), maxOutstandingTurns, Q.CleanupRuns)
    {
      if current.None? || current.value.id !in outcomes { return; }
      active := false;
      current := None;
      Drain();
    }

    method MicrotaskRuns()
      requires Valid()
      modifies this
      ensures Valid() && Fields() == Q.Step(old(Fields()), maxOutstandingTurns, Q.MicrotaskRuns)
    {
      if microtasks == 0 { return; }
      microtasks := microtasks - 1;
      Drain();
    }
  }
}

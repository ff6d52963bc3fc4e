/** The scheduler object; a method runs from one suspension to the next, as MutationScheduling.Step. */
module OperationScheduler {
  import opened Wrappers
  import G = RuntimeGeneration
  import M = MutationScheduling
  import Tracker = RuntimeGenerationTracker

  class OperationScheduler {
    const runtime: Tracker.RuntimeGenerationTracker
    var queue: seq<M.Entry>
    var running: bool
    /** The entry whose operation is in progress. */
    var current: Option<M.Entry>
    var uncertainLease: Option<G.RuntimeLease>
    /** Abort signals that have fired. */
    var aborted: set<M.Signal>
    var admitted: nat
    ghost var starts: seq<M.Start>
    ghost var outcomes: map<nat, M.Outcome>
    ghost var settledTwice: bool

    ghost function Fields(): M.Scheduler
      reads this, runtime
    {
      M.Scheduler(queue, if !running then M.Idle else if current.Some? then M.Running(current.value) else M.Resuming,
                  uncertainLease, runtime.Fields(), aborted, admitted, starts, outcomes, settledTwice)
    }

    ghost predicate Valid()
      reads this
    {
      current.Some? ==> running
    }

    constructor (runtime: Tracker.RuntimeGenerationTracker)
      ensures Valid() && this.runtime == runtime
      ensures Fields() == M.CREATED.(runtime := runtime.Fields())
    {
      this.runtime := runtime;
      queue, running, current, uncertainLease, aborted, admitted := [], false, None, None, {}, 0;
      starts, outcomes, settledTwice := [], map[], false;
    }

    method MarkRuntimeMutationStateUncertain(lease: G.RuntimeLease)
      requires Valid()
      modifies this
      ensures Valid() && Fields() == M.Step(old(Fields()), M.Marked(lease))
    {
      uncertainLease := Some(lease);
    }

    ghost method Settle(id: nat, outcome: M.Outcome)
      modifies this`outcomes, this`settledTwice
      ensures Fields() == M.Settle(old(Fields()), id, outcome)
    {
      settledTwice := settledTwice || id in outcomes;
      outcomes := outcomes[id := outcome];
    }

    predicate ThrowsIfAborted(signal: Option<M.Signal>)
      reads this
    {
      signal.Some? && signal.value in aborted
    }

    method AssertMutationStateSafeForLease(lease: G.RuntimeLease) returns (safe: bool)
      modifies this`uncertainLease
      ensures safe == (old(uncertainLease) != Some(lease))
      ensures uncertainLease == M.Checked(old(uncertainLease), lease)
    {
      if uncertainLease.None? { return true; }
      if uncertainLease.value == lease { return false; }
      uncertainLease := None;
      return true;
    }

    method Schedule(signal: Option<M.Signal>)
      requires Valid()
      modifies this
      ensures Valid() && Fields() == M.Step(old(Fields()), M.Scheduled(signal))
    {
      hide M.Begin, M.Serial;
      var id := admitted;
      admitted := admitted + 1;
      if ThrowsIfAborted(signal) {
        Settle(id, M.Aborted);
        return;
      }
      var lease := runtime.GetCurrentRuntimeLease();
      if lease.None? {
        Settle(id, M.LeaseLost(G.NotObserved));
        return;
      }
      var safe := AssertMutationStateSafeForLease(lease.value);
      if !safe {
        Settle(id, M.StateUncertain);
        return;
      }
      queue := queue + [M.Entry(id, lease.value, signal, false)];
      if !running { Drain(); }
    }

    /** The entry's own check and start; afterwards the loop is suspended. */
    method RunEntry(entry: M.Entry)
      requires running && current.None?
      modifies this
      ensures Valid() && Fields() == M.Begin(old(Fields()), entry)
    {
      if ThrowsIfAborted(entry.signal) {
        Settle(entry.id, M.Aborted);
        return;
      }
      var error := runtime.AssertRuntimeLeaseCurrent(entry.lease);
      if error.Some? {
        Settle(entry.id, M.LeaseLost(error.value));
        return;
      }
      var safe := AssertMutationStateSafeForLease(entry.lease);
      if !safe {
        Settle(entry.id, M.StateUncertain);
        return;
      }
      current := Some(entry);
      starts := starts + [M.Start(entry.id, entry.lease)];
    }

    method Drain()
      requires current.None?
      modifies this
      ensures Valid() && Fields() == M.Drain(old(Fields()).(phase := M.Resuming))
    {
      running := true;
      while |queue| > 0
        invariant running && current.None?
        invariant M.Drain(Fields()) == M.Drain(old(Fields()).(phase := M.Resuming))
        decreases |queue|
      {
        var entry := queue[0];
        queue := queue[1..];
        if !entry.settled {
          RunEntry(entry);
          return;
        }
      }
      running := false;
    }

    method LoopResumes()
      requires Valid()
      modifies this
      ensures Valid() && Fields() == M.Step(old(Fields()), M.LoopResumes)
    {
      if running && current.None? { Drain(); }
    }

    method OperationEnded(failed: bool)
      requires Valid()
      modifies this
      ensures Valid() && Fields() == M.Step(old(Fields()), M.OperationEnded(failed))
    {
      if current.None? { return; }
      Settle(current.value.id, if failed then M.OperationFailed else M.Completed);
      current := None;
    }

    method Abort(source: M.Signal)
      requires Valid()
      modifies this
      ensures Valid() && Fields() == M.Step(old(Fields()), M.Aborting(source))
    {
      aborted := aborted + {source};
    }

    /** The abort listener of the entry at position `i`. */
    method OnQueuedAbort(i: nat)
      requires Valid()
      modifies this
      ensures Valid() && Fields() == M.Step(old(Fields()), M.AbortListenerRuns(i))
    {
      if i >= |queue| || !ThrowsIfAborted(queue[i].signal) || queue[i].settled { return; }
      Settle(queue[i].id, M.Aborted);
      queue := queue[i := queue[i].(settled := true)];
    }
  }
}

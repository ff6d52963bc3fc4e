/** The controller object: its completion barrier, and the calls that settle it. */
module ThreadwireController {
  import opened Wrappers
  import C = ControllerTurns
  import R = ThreadRegistration
  import Queue = ControllerTurnQueue
  import Executor = TurnExecutor
  import T = Turns

  /** A call of `confirmTurnCompletion` or `rollbackTurnCompletion`. */
  datatype Answer = Answer(result: T.TurnResult, committed: bool)

  /** How the first of the calls that is about this completion settles it. */
  function FirstAnswer(calls: seq<Answer>, completion: nat): Option<bool> {
    if calls == [] then None
    else if calls[0].result.completion == Some(completion) then Some(calls[0].committed)
    else FirstAnswer(calls[1..], completion)
  }

  class ThreadwireController {
    const turnQueue: Queue.ControllerTurnQueue
    const executor: Executor.TurnExecutor
    var pendingCompletionBarrier: Option<nat>
    var pendingCompletionResults: set<nat>
    /** How the promises of former barriers were settled. */
    var settledBarriers: map<nat, bool>

    ghost function Barrier(): C.Barrier
      reads this
    {
      C.Barrier(pendingCompletionBarrier, pendingCompletionResults, settledBarriers)
    }

    constructor (turnQueue: Queue.ControllerTurnQueue, executor: Executor.TurnExecutor)
      ensures this.turnQueue == turnQueue && this.executor == executor
      ensures Barrier() == C.Barrier(None, {}, map[])
    {
      this.turnQueue, this.executor := turnQueue, executor;
      pendingCompletionBarrier, pendingCompletionResults, settledBarriers := None, {}, map[];
    }

    /** The end of `executeTurn`: a Project turn that created its thread leaves a barrier. */
    method FinishTurn(target: T.Target, result: T.TurnResult)
      modifies this
      ensures Barrier() == if target.Project? && result.created && result.completion.Some?
                           then C.Install(old(Barrier()), result.completion.value) else old(Barrier())
    {
      if target.Project? && result.created && result.completion.Some? {
        InstallCompletionBarrier(result.completion.value);
      }
    }

    method InstallCompletionBarrier(result: nat)
      modifies this
      ensures Barrier() == C.Install(old(Barrier()), result)
    {
      pendingCompletionBarrier := Some(result);
      pendingCompletionResults := pendingCompletionResults + {result};
    }

    method SettleCompletionBarrier(result: nat, committed: bool)
      modifies this
      ensures Barrier() == C.SettleBarrier(old(Barrier()), result, committed)
    {
      if result !in pendingCompletionResults { return; }
      pendingCompletionResults := pendingCompletionResults - {result};
      if pendingCompletionBarrier.None? { return; }
      settledBarriers := settledBarriers[pendingCompletionBarrier.value := committed];
      pendingCompletionBarrier := None;
    }

    /** The executor still holds the reservation of this result. */
    ghost predicate IsOpen(result: T.TurnResult)
      reads executor`pendingProjectCompletions
    {
      result.completion.Some? && result.completion.value in executor.pendingProjectCompletions
    }

    /** The registry's and the barrier's half of a confirmation happen together. */
    method ConfirmTurnCompletion(result: T.TurnResult)
      modifies this, executor`pendingProjectCompletions, executor.registry
      ensures Barrier() == if result.completion.None? then old(Barrier())
        else C.SettleBarrier(old(Barrier()), result.completion.value, true)
      ensures executor.registry.Fields()
           == if old(IsOpen(result))
              then R.Commit(old(executor.registry.Fields()),
                old(executor.pendingProjectCompletions)[result.completion.value].transaction)
              else old(executor.registry.Fields())
      ensures !IsOpen(result)
    {
      executor.ConfirmCompletedTurn(result);
      if result.completion.Some? { SettleCompletionBarrier(result.completion.value, true); }
    }

    method RollbackTurnCompletion(result: T.TurnResult)
      modifies this, executor`pendingProjectCompletions, executor`marked, executor.registry
      ensures Barrier() == if result.completion.None? then old(Barrier())
        else C.SettleBarrier(old(Barrier()), result.completion.value, false)
      ensures if old(IsOpen(result)) then
                var pending := old(executor.pendingProjectCompletions)[result.completion.value];
                && executor.registry.Fields() == R.Rollback(old(executor.registry.Fields()), pending.transaction)
                && executor.marked == old(executor.marked)
                   + (if R.IsPending(old(executor.registry.Fields()), pending.transaction) then [pending.lease] else [])
              else
                && executor.registry.Fields() == old(executor.registry.Fields())
                && executor.marked == old(executor.marked)
      ensures !IsOpen(result)
    {
      executor.RollbackCompletedTurn(result);
      if result.completion.Some? { SettleCompletionBarrier(result.completion.value, false); }
    }

    /**
     Before an operation touches anything it waits for the pending completion. `meanwhile` are the
     calls that arrive while it waits; when they are over, the wait times out or is aborted. It goes
     on exactly if nothing was pending or the first answer to the pending result confirmed it, and
     then nothing is pending any more.
     */
    method AwaitPendingCompletion(meanwhile: seq<Answer>) returns (passed: bool)
      requires C.OnePending(Barrier())
      modifies this, executor`pendingProjectCompletions, executor`marked, executor.registry
      ensures C.OnePending(Barrier())
      ensures var answer := if old(pendingCompletionBarrier).None? then None
                            else FirstAnswer(meanwhile, old(pendingCompletionBarrier).value);
        && (passed <==> old(pendingCompletionResults) == {} || answer == Some(true))
        && (answer.Some? ==>
              && pendingCompletionResults == {}
              && settledBarriers == old(settledBarriers)[old(pendingCompletionBarrier).value := answer.value])
        && (answer.None? ==> Barrier() == old(Barrier()))
      ensures passed ==> pendingCompletionResults == {} && pendingCompletionBarrier.None?
    {
      if pendingCompletionBarrier.None? { return true; }
      var barrier, i := pendingCompletionBarrier.value, 0;
      while i < |meanwhile| && pendingCompletionBarrier.Some?
        invariant i <= |meanwhile|
        invariant C.OnePending(Barrier())
        invariant pendingCompletionBarrier.Some? ==>
          Barrier() == old(Barrier()) && FirstAnswer(meanwhile, barrier) == FirstAnswer(meanwhile[i..], barrier)
        invariant pendingCompletionBarrier.None? ==>
          && FirstAnswer(meanwhile, barrier).Some?
          && settledBarriers == old(settledBarriers)[barrier := FirstAnswer(meanwhile, barrier).value]
      {
        var call := meanwhile[i];
        assert meanwhile[i..] == [call] + meanwhile[i + 1..];
        if call.committed { ConfirmTurnCompletion(call.result); } else { RollbackTurnCompletion(call.result); }
        i := i + 1;
      }
      if pendingCompletionBarrier.Some? { return false; }
      passed := settledBarriers[barrier];
    }
  }
}

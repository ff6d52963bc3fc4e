/** Turns and the scheduler together: what may start on the lease after a turn has ended. */
module TurnFencing {
  import opened Wrappers
  import opened Turns
  import G = RuntimeGeneration
  import M = MutationScheduling
  import W = WriteObservation
  import Executor = TurnExecutor

  /** The scheduler after the turn told it whether the page became uncertain. */
  function Told(s: M.Scheduler, lease: G.RuntimeLease, outcome: Outcome): M.Scheduler {
    if outcome == Threw(TurnStateUncertain) then M.Step(s, M.Marked(lease)) else s
  }

  /** The scheduler looks at the same runtime, at least as recently as the executor. */
  ghost predicate SeesRuntime(s: M.Scheduler, executor: Executor.TurnExecutor, lease: G.RuntimeLease)
    reads executor
  {
    M.Serial(s) && G.Issued(s.runtime, lease) && executor.runtime.generation <= s.runtime.generation
  }

  /**
   Unless the turn ended in one of its two unsafe ways: nothing of it is in flight, or no operation
   bound to the lease ever starts again, whatever is marked by the operations that run later.
   */
  lemma SafeEndFences(executor: Executor.TurnExecutor, before: Records, lease: G.RuntimeLease, target: Target,
                      stage: Stage, outcome: Outcome, s: M.Scheduler, later: seq<M.Event>)
    requires executor.EndsAt(before, lease, target, stage, outcome) && !stage.Preparing? && executor.Holds(lease)
    requires !executor.GivesUp(target, stage) && !executor.LosesSight(lease, stage, outcome)
    requires SeesRuntime(s, executor, lease) && M.RunsPast(s, lease)
    requires M.OnlyRunningMarks(Told(s, lease, outcome), later)
    ensures executor.NothingInFlight(stage)
         || M.StartsOnlyOthers(Told(s, lease, outcome), M.Run(Told(s, lease, outcome), later), lease)
  {
    hide W.Observe, M.Serial;
    executor.SafeExactly(before, lease, target, stage, outcome);
    if outcome == Threw(TurnStateUncertain) {
      M.EveryMarkIsForever(s, lease, later);
    } else if outcome == Threw(RuntimeGenerationChanged) && executor.IsDead(lease) {
      M.RunningMarksSpare(s, lease, later);
      M.RefusedForever(s, lease, later);
    } else {
      NotMarked(executor, before, lease, target, stage, outcome);
    }
  }

  lemma NotMarked(executor: Executor.TurnExecutor, before: Records, lease: G.RuntimeLease, target: Target, stage: Stage,
                  outcome: Outcome)
    requires executor.EndsAt(before, lease, target, stage, outcome) && outcome != Threw(TurnStateUncertain)
    ensures executor.marked != before.marked + [lease]
  {
    hide W.Observe;
  }

  /** After an abandoned turn the next operation on the same lease does start, over a write in flight. */
  lemma AbandonedTurnOverlaps(executor: Executor.TurnExecutor, before: Records, lease: G.RuntimeLease, target: Target,
                              stage: Stage, outcome: Outcome, s: M.Scheduler)
    requires executor.EndsAt(before, lease, target, stage, outcome) && executor.GivesUp(target, stage)
    requires SeesRuntime(s, executor, lease) && s.phase.Idle? && !M.Refused(s, lease)
    ensures Told(s, lease, outcome) == s && executor.Observation().lifecycle == Some(W.Active)
    ensures StartsAgain(s, lease)
  {
    hide W.Observe;
    executor.GivesUpExactly(before, lease, target, stage, outcome);
    M.UnrefusedStarts(s, lease);
  }

  /** And so after a turn that lost sight of its process, as soon as the process is seen again. */
  lemma LostTurnOverlaps(executor: Executor.TurnExecutor, lease: G.RuntimeLease, stage: Stage, outcome: Outcome,
                         s: M.Scheduler)
    requires executor.LosesSight(lease, stage, outcome) && executor.Holds(lease)
    requires SeesRuntime(s, executor, lease) && s.phase.Idle? && s.runtime == executor.runtime
    requires s.uncertain != Some(lease)
    ensures Told(s, lease, outcome) == s && !executor.NothingInFlight(stage)
    ensures StartsAgain(s, lease)
  {
    hide W.Observe;
    M.UnrefusedStarts(s, lease);
  }

  /** Its process is seen, a call is scheduled, and its operation starts on the lease. */
  predicate StartsAgain(s: M.Scheduler, lease: G.RuntimeLease) {
    M.Step(M.Step(s, M.RuntimeObserved(Some(lease.identity))), M.Scheduled(None)).starts
    == s.starts + [M.Start(s.admitted, lease)]
  }
}

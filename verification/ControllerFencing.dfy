/**
 The controller and the scheduler together: operations wait for the mutations they schedule, so a
 latch always names the lease of the last mutation, and no mark or rollback lifts another refusal.
 */
module ControllerFencing {
  import opened Wrappers
  import opened ControllerTurns
  import G = RuntimeGeneration
  import M = MutationScheduling
  import Q = TurnQueue
  import R = ThreadRegistration

  /** The lease of the mutation that started last. */
  function LastLease(s: M.Scheduler): Option<G.RuntimeLease> {
    if s.starts == [] then None else Some(s.starts[|s.starts| - 1].lease)
  }

  /** No mutation runs or waits to run. */
  predicate Quiet(s: M.Scheduler) {
    !s.phase.Running? && forall i | 0 <= i < |s.queue| :: s.queue[i].settled
  }

  /**
   Mutations are scheduled by the working operation, which waits for them; a mutation marks the lease
   it runs on; a Project result names the lease of the mutation that made it.
   */
  predicate InOrder(c: Controller, e: Event) {
    && (e.SchedulerStep? && e.mutation.Scheduled? ==> c.progress == Some(Working))
    && (e.SchedulerStep? && e.mutation.Marked? ==>
          c.scheduler.phase.Running? && c.scheduler.phase.entry.lease == e.mutation.lease)
    && (e.ProjectReturns? || e.OtherReturns? || e.OperationFails? ==>
        c.progress == Some(Working) ==> Quiet(c.scheduler))
    && (e.ProjectReturns? ==> LastLease(c.scheduler) == Some(e.lease))
  }

  predicate AllInOrder(factory: R.Factory, max: nat, events: seq<Event>) {
    events == [] ||
    (var init, last := events[..|events| - 1], events[|events| - 1];
     AllInOrder(factory, max, init) && InOrder(Run(factory, max, M.CREATED, init), last))
  }

  // ---------------------------------------------------------------- the scheduler

  /** A latch names the lease of the last mutation. */
  predicate LatchesLast(s: M.Scheduler) {
    s.uncertain.Some? ==> s.uncertain == LastLease(s)
  }

  predicate ClearsOrKeeps(s: M.Scheduler, next: M.Scheduler) {
    next.uncertain.None? || (next.uncertain == s.uncertain && next.starts == s.starts)
  }

  lemma {:induction false} DrainClearsOrKeeps(s: M.Scheduler)
    ensures ClearsOrKeeps(s, M.Drain(s))
    decreases |s.queue|
  {
    if s.queue != [] && s.queue[0].settled { DrainClearsOrKeeps(s.(queue := s.queue[1..])); }
  }

  lemma StepClearsOrKeeps(s: M.Scheduler, e: M.Event)
    requires !e.Marked?
    ensures ClearsOrKeeps(s, M.Step(s, e))
  {
    hide M.Drain;
    match e
    case LoopResumes => DrainClearsOrKeeps(s);
    case Scheduled(signal) =>
      var current := G.CurrentLease(s.runtime);
      if current.Some? {
        var entry := M.Entry(s.admitted, current.value, signal, false);
        DrainClearsOrKeeps(s.(admitted := s.admitted + 1, uncertain := None, queue := s.queue + [entry],
          phase := M.Resuming));
      }
    case _ =>
  }

  lemma {:induction false} DrainStaysQuiet(s: M.Scheduler)
    requires Quiet(s)
    ensures Quiet(M.Drain(s)) && M.Drain(s).starts == s.starts
    decreases |s.queue|
  {
    if s.queue != [] { DrainStaysQuiet(s.(queue := s.queue[1..])); }
  }

  lemma StaysQuiet(s: M.Scheduler, e: M.Event)
    requires Quiet(s) && !e.Scheduled?
    ensures Quiet(M.Step(s, e)) && M.Step(s, e).starts == s.starts
  {
    hide M.Drain;
    if e.LoopResumes? { DrainStaysQuiet(s); }
  }

  /** Marks in order name the last lease as well. */
  lemma StepLatchesLast(s: M.Scheduler, e: M.Event)
    requires M.Serial(s) && LatchesLast(s)
    requires e.Marked? ==> s.phase.Running? && s.phase.entry.lease == e.lease
    ensures LatchesLast(M.Step(s, e))
  {
    hide M.Drain;
    if !e.Marked? {
      StepClearsOrKeeps(s, e);
    }
  }

  // ---------------------------------------------------------------- the controller

  /** An operation in progress is the active entry of the queue, and its promise is open. */
  predicate ProgressIsActive(c: Controller) {
    c.progress.Some? ==> c.queue.active.Some? && c.queue.active.value.id !in c.queue.outcomes
  }

  /** Mutations belong to the working operation; the pending completion to the last mutation. */
  predicate Fenced(c: Controller) {
    && LatchesLast(c.scheduler)
    && (Quiet(c.scheduler) || c.progress == Some(Working))
    && (c.barrier.pending.Some? && c.barrier.pending.value in c.issued ==>
          LastLease(c.scheduler) == Some(c.issued[c.barrier.pending.value].lease))
  }

  predicate Sound(c: Controller, max: nat) {
    TwoPhase(c) && Q.Serial(c.queue, max) && ProgressIsActive(c) && Fenced(c)
  }

  /** Queue events of the environment leave an operation in progress alone. */
  lemma ForeignKeepsActive(q: Q.Queue, max: nat, e: Q.Event)
    requires Q.Serial(q, max) && q.active.Some? && q.active.value.id !in q.outcomes && !e.OperationEnded?
    ensures var next := Q.Step(q, max, e);
      next.active == q.active && q.active.value.id !in next.outcomes
  {
    if e.AbortListenerRuns? {
      var i := Q.PositionOf(q.pending, e.id);
      if i < |q.pending| { assert Q.EntrySound(q, q.pending[i]); }
    }
  }

  /** The queue's half: the queue stays serial, and what is in progress is its active entry. */
  lemma StepKeepsQueue(factory: R.Factory, max: nat, c: Controller, e: Event)
    requires Q.Serial(c.queue, max) && ProgressIsActive(c)
    ensures Q.Serial(Step(factory, max, c, e).queue, max) && ProgressIsActive(Step(factory, max, c, e))
    ensures e.QueueStep? || e.Called? ==>
      (c.progress == Some(Working) <==> Step(factory, max, c, e).progress == Some(Working))
  {
    hide Q.Serial, Q.Step, M.Step, R.RegisterWithStatus, R.Reserve, R.Commit, R.Rollback, R.StateOf, R.IsPending;
    Q.StepSerial(c.queue, max, Q.OperationEnded(true));
    Q.StepSerial(c.queue, max, Q.OperationEnded(false));
    match e
    case Called(request, signal) =>
      Q.StepSerial(c.queue, max, Q.Scheduled(signal));
      ActiveEntry(c, max, Q.Scheduled(signal));
    case QueueStep(event) =>
      Q.StepSerial(c.queue, max, event);
      if IsForeign(event) { ActiveEntry(c, max, event); }
    case _ =>
  }

  /** A new active entry is open; an operation in progress stays. */
  lemma ActiveEntry(c: Controller, max: nat, event: Q.Event)
    requires Q.Serial(c.queue, max) && ProgressIsActive(c) && !event.OperationEnded?
    ensures var next := Q.Step(c.queue, max, event);
      && (c.progress.Some? ==> next.active == c.queue.active)
      && ProgressIsActive(WithQueue(c, next))
  {
    hide Q.Serial, Q.Step;
    if c.progress.Some? { ForeignKeepsActive(c.queue, max, event); }
    NewActiveIsOpen(c.queue, max, event);
  }

  lemma NewActiveIsOpen(q: Q.Queue, max: nat, e: Q.Event)
    requires Q.Serial(q, max) && !e.OperationEnded?
    ensures var next := Q.Step(q, max, e);
      next.active != q.active && next.active.Some? ==> next.active.value.id !in next.outcomes
  {
    hide Q.Serial;
    Q.StepStarts(q, max, e);
    assert Q.Step(q, max, e).starts == q.starts ==> Q.Step(q, max, e).active in {q.active, None};
  }

  /** While a completion is pending no mutation runs or waits to run. */
  lemma PendingIsQuiet(c: Controller)
    requires TwoPhase(c) && Fenced(c) && c.barrier.pending.Some?
    ensures Quiet(c.scheduler) && c.barrier.pending.value in c.issued
  {
  }

  lemma MutationFenced(c: Controller, mutation: M.Event)
    requires TwoPhase(c) && Fenced(c) && InOrder(c, SchedulerStep(mutation))
    ensures Fenced(c.(scheduler := M.Step(c.scheduler, mutation)))
  {
    hide TwoPhase, M.Step, LatchesLast, LastLease;
    if c.barrier.pending.Some? { PendingIsQuiet(c); }
    if Quiet(c.scheduler) && !mutation.Scheduled? { StaysQuiet(c.scheduler, mutation); }
    SerialInside(c);
    StepLatchesLast(c.scheduler, mutation);
    NotWorkingWhilePending(c);
    SameLast(c.scheduler, M.Step(c.scheduler, mutation));
  }

  lemma SameLast(s: M.Scheduler, next: M.Scheduler)
    ensures s.starts == next.starts ==> LastLease(s) == LastLease(next)
  {
  }

  lemma RunningIsLast(s: M.Scheduler)
    requires M.Serial(s) && s.phase.Running?
    ensures LastLease(s) == Some(s.phase.entry.lease)
  {
  }

  lemma SerialInside(c: Controller)
    requires TwoPhase(c)
    ensures M.Serial(c.scheduler)
  {
  }

  lemma NotWorkingWhilePending(c: Controller)
    requires TwoPhase(c)
    ensures c.barrier.pending.Some? ==> c.progress != Some(Working)
  {
  }

  /** Rolling the pending result back latches the lease of the last mutation. */
  lemma RolledBackFenced(c: Controller, result: Result)
    requires TwoPhase(c) && Fenced(c)
    ensures Fenced(RollBack(c, result)) && Fenced(Confirm(c, result))
    ensures RollBack(c, result).scheduler != c.scheduler ==>
      && LastLease(c.scheduler).Some?
      && RollBack(c, result).scheduler == M.Step(c.scheduler, M.Marked(LastLease(c.scheduler).value))
  {
    hide M.Serial, R.Consistent, R.Rollback, R.Commit, R.IsPending, G.Issued;
    if result in c.completions { assert CompletionSound(c, result); }
  }

  lemma ReturnFenced(factory: R.Factory, c: Controller, max: nat, locator: R.Locator, lease: G.RuntimeLease)
    requires TwoPhase(c) && Fenced(c) && c.progress == Some(Working)
    requires Quiet(c.scheduler) && LastLease(c.scheduler) == Some(lease)
    ensures Fenced(ReturnProject(factory, c, max, locator, lease))
  {
    hide M.Serial, R.Consistent, R.Reserve, G.Issued, Q.Step, CompletionSound, LastLease, LatchesLast, Quiet;
  }

  /** Scheduler, barrier and results are as before. */
  predicate OnlyMoves(c: Controller, next: Controller) {
    next.scheduler == c.scheduler && next.barrier == c.barrier && next.issued == c.issued
  }

  lemma CallMoves(c: Controller, max: nat, request: Request, signal: Option<Q.Signal>)
    ensures OnlyMoves(c, Call(c, max, request, signal))
  {
    hide Q.Step, R.StateOf;
  }

  lemma BeginMoves(c: Controller, max: nat, id: nat)
    ensures OnlyMoves(c, Begin(c, max, id))
  {
    hide Q.Step;
  }

  lemma ResumeMoves(c: Controller, max: nat)
    requires c.progress.Some?
    ensures OnlyMoves(c, Resume(c, max)) && (c.progress == Some(Working) ==> Resume(c, max) == c)
  {
    hide Q.Step;
  }

  /** The other steps may only move the operation on, or end it. */
  lemma OnlyMovesOn(factory: R.Factory, max: nat, c: Controller, e: Event)
    requires !e.SchedulerStep? && !e.Confirmed? && !e.RolledBack? && !e.ProjectReturns?
    ensures var next := Step(factory, max, c, e);
      && OnlyMoves(c, next)
      && (e.OperationBegins? || e.OperationResumes? || e.Effect? ==>
          c.progress == Some(Working) ==> next.progress == c.progress)
  {
    hide Q.Step, M.Step, R.RegisterWithStatus, R.StateOf, Call, Begin, Resume, Confirm, RollBack, ReturnProject;
    match e
    case Called(request, signal) => CallMoves(c, max, request, signal);
    case OperationBegins => if c.queue.active.Some? { BeginMoves(c, max, c.queue.active.value.id); }
    case OperationResumes => if c.progress.Some? { ResumeMoves(c, max); }
    case _ =>
  }

  lemma MovedOnFenced(c: Controller, next: Controller)
    requires Fenced(c)
    requires next.scheduler == c.scheduler && next.barrier == c.barrier && next.issued == c.issued
    requires c.progress == Some(Working) ==> next.progress == Some(Working) || Quiet(c.scheduler)
    ensures Fenced(next)
  {
  }

  /** Every step in order keeps the three facts. */
  lemma StepFenced(factory: R.Factory, max: nat, c: Controller, e: Event)
    requires Sound(c, max) && InOrder(c, e)
    ensures Fenced(Step(factory, max, c, e))
  {
    hide TwoPhase, Fenced, Q.Serial, ProgressIsActive, WithQueue, Call, Begin, Resume, Quiet, LastLease, Confirm,
         RollBack,
         ReturnProject, M.Step, Q.Step, R.RegisterWithStatus;
    match e
    case SchedulerStep(mutation) => MutationFenced(c, mutation);
    case Confirmed(result) => RolledBackFenced(c, result);
    case RolledBack(result) => RolledBackFenced(c, result);
    case ProjectReturns(locator, lease) =>
            if c.progress == Some(Working) && G.Issued(c.scheduler.runtime, lease) {
              ReturnFenced(factory, c, max, locator, lease);
            }
    case _ =>
      StepKeepsQueue(factory, max, c, e);
      OnlyMovesOn(factory, max, c, e);
      MovedOnFenced(c, Step(factory, max, c, e));
  }

  lemma {:induction false} SoundAlways(factory: R.Factory, max: nat, events: seq<Event>)
    requires AllInOrder(factory, max, events)
    ensures Sound(Run(factory, max, M.CREATED, events), max)
  {
    hide Step, M.Step, TwoPhase, Q.Serial, Fenced, ProgressIsActive, InOrder;
    if events != [] {
      var init, last := events[..|events| - 1], events[|events| - 1];
      SoundAlways(factory, max, init);
      var c := Run(factory, max, M.CREATED, init);
      StepTwoPhase(factory, max, c, last);
      StepKeepsQueue(factory, max, c, last);
      StepFenced(factory, max, c, last);
    } else {
      SoundAtFirst(max);
    }
  }

  lemma SoundAtFirst(max: nat)
    ensures Sound(Created(M.CREATED), max)
  {
  }

  /** No step in order lifts the refusal of a lease: neither a mutation's mark nor a late rollback. */
  lemma StepKeepsRefusal(factory: R.Factory, max: nat, c: Controller, e: Event, lease: G.RuntimeLease)
    requires Sound(c, max) && InOrder(c, e)
    requires G.Issued(c.scheduler.runtime, lease) && M.Refused(c.scheduler, lease)
    ensures var next := Step(factory, max, c, e).scheduler;
      && G.Issued(next.runtime, lease) && M.Refused(next, lease)
      && M.StartsNothingOr(c.scheduler, next)
  {
    hide TwoPhase, Q.Serial, Q.Step, M.Step, M.Serial, M.StartsNothingOr, Confirm, RollBack, ReturnProject,
         R.RegisterWithStatus, R.StateOf,
         G.Issued;
    SerialInside(c);
    match e
    case SchedulerStep(mutation) =>
      M.RefusalKeptExactly(c.scheduler, lease, mutation);
      M.StepStarts(c.scheduler, mutation);
      if mutation.Marked? { RunningIsLast(c.scheduler); }
    case RolledBack(result) =>
      RolledBackFenced(c, result);
      if RollBack(c, result).scheduler != c.scheduler {
        var mark := M.Marked(LastLease(c.scheduler).value);
        M.RefusalKeptExactly(c.scheduler, lease, mark);
        M.StepStarts(c.scheduler, mark);
      } else {
        StartsNothing(c.scheduler);
      }
    case _ => SameScheduler(factory, max, c, e);
  }

  lemma SameScheduler(factory: R.Factory, max: nat, c: Controller, e: Event)
    requires !e.SchedulerStep? && !e.RolledBack?
    ensures Step(factory, max, c, e).scheduler == c.scheduler
    ensures M.StartsNothingOr(c.scheduler, c.scheduler)
  {
    hide Call, Begin, Resume, WithQueue, Q.Step, M.Step, R.RegisterWithStatus, R.Reserve, R.Commit, R.Rollback,
         R.StateOf,
         RollBack, SettleBarrier, Install;
    if !e.Confirmed? && !e.ProjectReturns? { OnlyMovesOn(factory, max, c, e); }
    StartsNothing(c.scheduler);
  }

  lemma StartsNothing(s: M.Scheduler)
    ensures M.StartsNothingOr(s, s)
  {
  }

  lemma AllInOrderBefore(factory: R.Factory, max: nat, before: seq<Event>, after: seq<Event>)
    requires AllInOrder(factory, max, before + after) && after != []
    ensures var init := before + after[..|after| - 1];
      && AllInOrder(factory, max, init)
      && InOrder(Run(factory, max, M.CREATED, init), after[|after| - 1])
      && Run(factory, max, M.CREATED, before + after)
         == Step(factory, max, Run(factory, max, M.CREATED, init), after[|after| - 1])
  {
    assert (before + after)[..|before + after| - 1] == before + after[..|after| - 1];
  }

  /**
   Over every run in order: once refused, a lease is refused forever and no mutation bound to it
   starts again, whatever processes come and go and however late a rollback is.
   */
  lemma {:induction false} RefusalIsForever(factory: R.Factory, max: nat, before: seq<Event>, after: seq<Event>,
                                            lease: G.RuntimeLease)
    requires AllInOrder(factory, max, before + after)
    requires var s := Run(factory, max, M.CREATED, before).scheduler;
      G.Issued(s.runtime, lease) && M.Refused(s, lease)
    ensures var s, later := Run(factory, max, M.CREATED, before).scheduler,
      Run(factory, max, M.CREATED, before + after).scheduler;
      G.Issued(later.runtime, lease) && M.Refused(later, lease) && M.StartsOnlyOthers(s, later, lease)
  {
    hide Step, M.Step, Sound, M.Serial, G.Issued, AllInOrder, InOrder;
    if after == [] {
      assert before + after == before;
    } else {
      var init, last := after[..|after| - 1], after[|after| - 1];
      AllInOrderBefore(factory, max, before, after);
      RefusalIsForever(factory, max, before, init, lease);
      SoundAlways(factory, max, before + init);
      StepKeepsRefusal(factory, max, Run(factory, max, M.CREATED, before + init), last, lease);
      NoNewStart(Run(factory, max, M.CREATED, before).scheduler, Run(factory, max, M.CREATED, before + init).scheduler,
                 Run(factory, max, M.CREATED, before + after).scheduler, lease);
    }
  }

  lemma NoNewStart(s: M.Scheduler, before: M.Scheduler, after: M.Scheduler, lease: G.RuntimeLease)
    requires M.StartsOnlyOthers(s, before, lease) && M.StartsNothingOr(before, after)
    requires M.Refused(before, lease) && G.Issued(before.runtime, lease)
    ensures M.StartsOnlyOthers(s, after, lease)
  {
  }
}

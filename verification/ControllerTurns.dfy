/**
 The controller over its turn queue: what the running operation may do, and the two-phase completion
 of Project turns. A step is one run of JavaScript code; timeouts, aborts and foreign calls are events.
 */
module ControllerTurns {
  import opened Wrappers
  import G = RuntimeGeneration
  import M = MutationScheduling
  import Q = TurnQueue
  import R = ThreadRegistration

  /** Identity of a returned Project result. */
  type Result = nat

  datatype Request = Fresh | Thread(handle: R.Handle) | Project | CreateProject | Recover

  /** Where the running operation stands. */
  datatype Progress =
    | NotBegun
    | AwaitsRegistration(transaction: R.Token)
    | AwaitsCompletion(result: Result)
    | Working

  /** The fields of the controller that hold the pending completion, and how barriers were settled. */
  datatype Barrier = Barrier(pending: Option<Result>, results: set<Result>, settled: map<Result, bool>)

  function Install(b: Barrier, result: Result): Barrier {
    b.(pending := Some(result), results := b.results + {result})
  }

  /** The barrier that is settled is the one in place, whichever result asks for it. */
  function SettleBarrier(b: Barrier, result: Result, committed: bool): Barrier {
    if result !in b.results then b
    else
      var rest := b.(results := b.results - {result});
      if b.pending.None? then rest
      else rest.(pending := None, settled := b.settled[b.pending.value := committed])
  }

  datatype Completion = Completion(lease: G.RuntimeLease, transaction: R.Token, handle: R.Handle)

  /** `completions` is the executor's table; `issued`, `results` and `effects` record the history. */
  datatype Controller = Controller(
    queue: Q.Queue,
    requests: map<nat, Request>,
    mustWait: map<nat, bool>,
    progress: Option<Progress>,
    barrier: Barrier,
    completions: map<Result, Completion>,
    issued: map<Result, Completion>,
    results: nat,
    registry: R.Registry,
    scheduler: M.Scheduler,
    effects: seq<nat>)

  function Created(scheduler: M.Scheduler): Controller {
    Controller(Q.EMPTY, map[], map[], None, Barrier(None, {}, map[]), map[], map[], 0, R.EMPTY, scheduler, [])
  }

  /** A new running operation has not begun. */
  function WithQueue(c: Controller, queue: Q.Queue): Controller {
    c.(queue := queue,
       progress := if queue.active == c.queue.active then c.progress
                   else if queue.active.Some? then Some(NotBegun) else None)
  }

  function End(c: Controller, max: nat, failed: bool): Controller {
    c.(queue := Q.Step(c.queue, max, Q.OperationEnded(failed)), progress := None)
  }

  /** `awaitPendingCompletion`, up to its suspension. */
  function AwaitCompletion(c: Controller): Controller {
    c.(progress := Some(if c.barrier.pending.None? then Working else AwaitsCompletion(c.barrier.pending.value)))
  }

  /** Calls for an unknown thread are refused before they are queued. */
  function Call(c: Controller, max: nat, request: Request, signal: Option<Q.Signal>): Controller {
    if request.Thread? && R.StateOf(c.registry, request.handle).None? then c
    else
      var id := c.queue.admitted;
      var waits := request.Thread? && R.StateOf(c.registry, request.handle) == Some(R.PROVISIONAL);
      WithQueue(c.(requests := c.requests[id := request], mustWait := c.mustWait[id := waits]),
                Q.Step(c.queue, max, Q.Scheduled(signal)))
  }

  function Begin(c: Controller, max: nat, id: nat): Controller {
    if id !in c.requests || id !in c.mustWait || !c.mustWait[id] || !c.requests[id].Thread? then AwaitCompletion(c)
    else
      var handle := c.requests[id].handle;
      match R.StateOf(c.registry, handle)
      case None => End(c, max, true)
      case Some(COMMITTED) => AwaitCompletion(c)
      case Some(PROVISIONAL) => c.(progress := Some(AwaitsRegistration(c.registry.provisional[handle].transaction)))
  }

  /** An awaited promise has settled. */
  function Resume(c: Controller, max: nat): Controller
    requires c.progress.Some?
  {
    match c.progress.value
    case AwaitsRegistration(token) =>
      if token !in c.registry.settlements then c
      else if c.registry.settlements[token] then AwaitCompletion(c)
      else End(c, max, true)
    case AwaitsCompletion(result) =>
      if result !in c.barrier.settled then c
      else if c.barrier.settled[result] then c.(progress := Some(Working))
      else End(c, max, true)
    case _ => c
  }

  /** A streamed Project turn has reserved its conversation: the result waits for its completion. */
  function ReturnProject(factory: R.Factory, c: Controller, max: nat, locator: R.Locator,
                         lease: G.RuntimeLease): Controller {
    var o := R.Reserve(factory, c.registry, locator);
    if !o.result.Registered? || !o.result.created || o.result.transaction.None?
       then End(c.(registry := o.registry), max, true)
    else
      var result, completion := c.results, Completion(lease, o.result.transaction.value, o.result.handle);
      End(c.(registry := o.registry,
             completions := c.completions[result := completion],
             issued := c.issued[result := completion], results := c.results + 1,
             barrier := Install(c.barrier, result)), max, false)
  }

  function Confirm(c: Controller, result: Result): Controller {
    var done := if result !in c.completions then c
                else c.(completions := c.completions - {result},
                        registry := R.Commit(c.registry, c.completions[result].transaction));
    done.(barrier := SettleBarrier(c.barrier, result, true))
  }

  function RollBack(c: Controller, result: Result): Controller {
    var done := if result !in c.completions then c
                else
                  var completion := c.completions[result];
                  c.(completions := c.completions - {result},
                     registry := R.Rollback(c.registry, completion.transaction),
                     scheduler := if R.IsPending(c.registry, completion.transaction)
                                  then M.Step(c.scheduler, M.Marked(completion.lease)) else c.scheduler);
    done.(barrier := SettleBarrier(c.barrier, result, false))
  }

  /** The conversation an operation has registered before it ended, whichever way. */
  function Register(factory: R.Factory, c: Controller, registered: Option<R.Locator>): Controller {
    if registered.None? then c
    else c.(registry := R.RegisterWithStatus(factory, c.registry, registered.value).registry)
  }

  datatype Event =
    | Called(request: Request, signal: Option<Q.Signal>)
    | QueueStep(event: Q.Event)
    | OperationBegins
    | OperationResumes
    | Effect
    | OperationFails(registered: Option<R.Locator>)
    | ProjectReturns(locator: R.Locator, lease: G.RuntimeLease)
    | OtherReturns(registered: Option<R.Locator>)
    | Confirmed(result: Result)
    | RolledBack(result: Result)
    | SchedulerStep(mutation: M.Event)

  /** The queue's own events that the environment may cause; calls and ends come from the controller. */
  predicate IsForeign(e: Q.Event) {
    !e.Scheduled? && !e.OperationEnded?
  }

  function Step(factory: R.Factory, max: nat, c: Controller, e: Event): Controller {
    match e
    case Called(request, signal) => Call(c, max, request, signal)
    case QueueStep(event) => if IsForeign(event) then WithQueue(c, Q.Step(c.queue, max, event)) else c
    case OperationBegins =>
      if c.progress == Some(NotBegun) && c.queue.active.Some? then Begin(c, max, c.queue.active.value.id) else c
    case OperationResumes => if c.progress.Some? then Resume(c, max) else c
    case Effect =>
      if c.progress == Some(Working) && c.queue.active.Some?
         then c.(effects := c.effects + [c.queue.active.value.id]) else c
    case OperationFails(registered) =>
      if c.progress.None? then c
      else End(if c.progress == Some(Working) then Register(factory, c, registered) else c, max, true)
    case ProjectReturns(locator, lease) =>
      if c.progress == Some(Working) && G.Issued(c.scheduler.runtime, lease)
         then ReturnProject(factory, c, max, locator, lease) else c
    case OtherReturns(registered) =>
      if c.progress == Some(Working) then End(Register(factory, c, registered), max, false) else c
    case Confirmed(result) => Confirm(c, result)
    case RolledBack(result) => RollBack(c, result)
    case SchedulerStep(mutation) => c.(scheduler := M.Step(c.scheduler, mutation))
  }

  function Run(factory: R.Factory, max: nat, scheduler: M.Scheduler, events: seq<Event>): Controller {
    if events == [] then Created(scheduler)
    else Step(factory, max, Run(factory, max, scheduler, events[..|events| - 1]), events[|events| - 1])
  }

  // ---------------------------------------------------------------- every reachable state

  /** At most one completion is pending, and the barrier in place belongs to it. */
  predicate OnePending(b: Barrier) {
    b.results == if b.pending.Some? then {b.pending.value} else {}
  }

  /** The promise of a Project result: open, kept or withdrawn, and its thread accordingly. */
  predicate CompletionSound(c: Controller, result: Result)
    requires result in c.issued
  {
    var token, handle := c.issued[result].transaction, c.issued[result].handle;
    if result in c.barrier.results then
      && result in c.completions && c.completions[result] == c.issued[result]
      && R.IsPending(c.registry, token) && c.registry.transactions[token] == handle
    else
      && result in c.barrier.settled && token in c.registry.settlements
      && c.registry.settlements[token] == c.barrier.settled[result]
      && (c.barrier.settled[result] ==> R.StateOf(c.registry, handle) == Some(R.COMMITTED))
  }

  predicate TwoPhase(c: Controller) {
    && OnePending(c.barrier)
    && (c.progress == Some(Working) ==> c.barrier.pending.None?)
    && (c.progress.Some? && c.progress.value.AwaitsCompletion? ==>
          c.barrier.pending == Some(c.progress.value.result)
          || (c.progress.value.result in c.barrier.settled && c.barrier.pending.None?))
    && c.completions.Keys == c.barrier.results
    && c.barrier.results <= c.issued.Keys
    && (forall r | r in c.barrier.settled :: r in c.issued && r !in c.barrier.results)
    && (forall r: Result | r in c.issued :: r < c.results)
    && (forall r | r in c.issued :: CompletionSound(c, r))
    && R.Consistent(c.registry)
    && M.Serial(c.scheduler)
    && (forall r | r in c.issued :: G.Issued(c.scheduler.runtime, c.issued[r].lease))
  }

  /** Steps that leave completions, registry and scheduler alone. */
  lemma OnlyProgress(c: Controller, next: Controller)
    requires TwoPhase(c)
    requires next == c.(queue := next.queue, requests := next.requests, mustWait := next.mustWait,
                        progress := next.progress, effects := next.effects)
    requires next.progress == c.progress || next.progress.None? || next.progress == Some(NotBegun)
             || (next.progress.value.AwaitsRegistration?)
             || (next.progress == Some(Working) && c.barrier.pending.None?)
             || (next.progress.value.AwaitsCompletion? && c.barrier.pending == Some(next.progress.value.result))
    ensures TwoPhase(next)
  {
    assert forall r | r in c.issued :: CompletionSound(c, r) && CompletionSound(next, r);
  }

  /** Registering or reserving another thread disturbs no completion. */
  lemma NewThread(c: Controller, registry: R.Registry)
    requires TwoPhase(c) && R.Consistent(registry) && R.KeepsTransactions(c.registry, registry)
    ensures TwoPhase(c.(registry := registry))
  {
    forall r | r in c.issued ensures CompletionSound(c.(registry := registry), r) {
      assert CompletionSound(c, r);
    }
  }

  lemma RegistryIsConsistent(c: Controller)
    requires TwoPhase(c)
    ensures R.Consistent(c.registry)
  {
  }

  lemma RegisteredTwoPhase(factory: R.Factory, c: Controller, locator: R.Locator)
    requires TwoPhase(c)
    ensures TwoPhase(c.(registry := R.RegisterWithStatus(factory, c.registry, locator).registry))
    ensures TwoPhase(c.(registry := R.Reserve(factory, c.registry, locator).registry))
  {
    hide TwoPhase, R.Consistent, R.KeepsTransactions, R.RegisterWithStatus, R.Reserve, R.IsPending;
    RegistryIsConsistent(c);
    R.RegisterConsistent(factory, c.registry, locator);
    R.ReserveConsistent(factory, c.registry, locator);
    R.NewThreadKeepsTransactions(factory, c.registry, locator);
    NewThread(c, R.RegisterWithStatus(factory, c.registry, locator).registry);
    NewThread(c, R.Reserve(factory, c.registry, locator).registry);
  }

  /** The result of a Project turn installs its barrier, when none is in place. */
  lemma InstalledTwoPhase(c: Controller, completion: Completion, queue: Q.Queue)
    requires TwoPhase(c) && c.progress == Some(Working) && G.Issued(c.scheduler.runtime, completion.lease)
    requires R.IsPending(c.registry, completion.transaction)
    requires c.registry.transactions[completion.transaction] == completion.handle
    ensures TwoPhase(c.(queue := queue, progress := None, results := c.results + 1,
                        completions := c.completions[c.results := completion],
                        issued := c.issued[c.results := completion],
                        barrier := Install(c.barrier, c.results)))
  {
    hide M.Serial, R.Consistent, G.Issued, R.IsPending;
    var next := c.(queue := queue, progress := None, results := c.results + 1,
                   completions := c.completions[c.results := completion], issued := c.issued[c.results := completion],
                   barrier := Install(c.barrier, c.results));
    forall r | r in next.issued ensures CompletionSound(next, r) {
      if r != c.results { assert CompletionSound(c, r); }
    }
  }

  lemma ReturnTwoPhase(factory: R.Factory, c: Controller, max: nat, locator: R.Locator, lease: G.RuntimeLease)
    requires TwoPhase(c) && c.progress == Some(Working) && G.Issued(c.scheduler.runtime, lease)
    ensures TwoPhase(ReturnProject(factory, c, max, locator, lease))
  {
    hide TwoPhase, R.Consistent, R.IsPending, R.Reserve, Install;
    RegistryIsConsistent(c);
    RegisteredTwoPhase(factory, c, locator);
    R.NewThreadKeepsTransactions(factory, c.registry, locator);
    var o := R.Reserve(factory, c.registry, locator);
    var reserved := c.(registry := o.registry);
    if o.result.Registered? && o.result.created && o.result.transaction.Some? {
      InstalledTwoPhase(reserved, Completion(lease, o.result.transaction.value, o.result.handle),
                        Q.Step(c.queue, max, Q.OperationEnded(false)));
    } else {
      OnlyProgress(reserved, End(reserved, max, true));
    }
  }

  lemma ScheduledTwoPhase(c: Controller, event: M.Event)
    requires TwoPhase(c)
    ensures TwoPhase(c.(scheduler := M.Step(c.scheduler, event)))
  {
    var next := c.(scheduler := M.Step(c.scheduler, event));
    M.StepSerial(c.scheduler, event);
    forall r | r in c.issued ensures CompletionSound(next, r) && G.Issued(next.scheduler.runtime, c.issued[r].lease) {
      assert CompletionSound(c, r);
      M.IssuedLeaseStays(c.scheduler, c.issued[r].lease, event);
    }
  }

  lemma ConfirmTwoPhase(c: Controller, result: Result)
    requires TwoPhase(c)
    ensures TwoPhase(Confirm(c, result))
  {
    hide M.Serial, G.Issued, R.Consistent;
    var next := Confirm(c, result);
    if result in c.completions {
      var token := c.completions[result].transaction;
      assert CompletionSound(c, result);
      R.CommitConsistent(c.registry, token);
      forall r | r in c.issued ensures CompletionSound(next, r) {
        assert CompletionSound(c, r);
        if r != result { R.SettledIsClosed(c.registry, c.issued[r].transaction); }
      }
    }
  }

  lemma MarkKeepsLeases(s: M.Scheduler, lease: G.RuntimeLease)
    ensures M.Step(s, M.Marked(lease)).runtime == s.runtime
  {
  }

  lemma RollBackTwoPhase(c: Controller, result: Result)
    requires TwoPhase(c)
    ensures TwoPhase(RollBack(c, result))
  {
    hide M.Step, M.Serial, G.Issued, R.Consistent;
    var next := RollBack(c, result);
    if result in c.completions {
      MarkKeepsLeases(c.scheduler, c.completions[result].lease);
      var token := c.completions[result].transaction;
      assert CompletionSound(c, result);
      R.RollbackConsistent(c.registry, token);
      M.StepSerial(c.scheduler, M.Marked(c.completions[result].lease));
      forall r | r in c.issued ensures CompletionSound(next, r) {
        assert CompletionSound(c, r);
        if r != result { R.SettledIsClosed(c.registry, c.issued[r].transaction); }
      }
    }
  }

  lemma CallKeepsRest(c: Controller, max: nat, request: Request, signal: Option<Q.Signal>)
    ensures var next := Call(c, max, request, signal);
      next == c.(queue := next.queue, requests := next.requests, mustWait := next.mustWait, progress := next.progress)
  {
    hide Q.Step;
  }

  lemma BeginKeepsRest(c: Controller, max: nat, id: nat)
    ensures var next := Begin(c, max, id); next == c.(queue := next.queue, progress := next.progress)
  {
    hide Q.Step;
  }

  lemma ResumeKeepsRest(c: Controller, max: nat)
    requires c.progress.Some?
    ensures var next := Resume(c, max); next == c.(queue := next.queue, progress := next.progress)
  {
    hide Q.Step;
  }

  lemma ResumeTwoPhase(c: Controller, max: nat)
    requires TwoPhase(c) && c.progress.Some?
    ensures TwoPhase(Resume(c, max))
  {
    hide TwoPhase, R.Consistent, Q.Step, M.Step, Resume;
    ResumeKeepsRest(c, max);
    ResumedProgress(c, max);
    OnlyProgress(c, Resume(c, max));
  }

  lemma ResumedProgress(c: Controller, max: nat)
    requires TwoPhase(c) && c.progress.Some?
    ensures var p := Resume(c, max).progress;
      || p == c.progress || p.None? || (p == Some(Working) && c.barrier.pending.None?)
      || (p.value.AwaitsCompletion? && c.barrier.pending == Some(p.value.result))
  {
    hide TwoPhase, Q.Step;
    AwaitedIsInPlace(c);
  }

  lemma AwaitedIsInPlace(c: Controller)
    requires TwoPhase(c)
    ensures c.progress.Some? && c.progress.value.AwaitsCompletion? ==>
      c.barrier.pending == Some(c.progress.value.result)
      || (c.progress.value.result in c.barrier.settled && c.barrier.pending.None?)
    ensures c.barrier.pending.Some? ==> c.barrier.pending.value !in c.barrier.settled
  {
  }

  lemma EndedTwoPhase(factory: R.Factory, c: Controller, max: nat, registered: Option<R.Locator>, failed: bool)
    requires TwoPhase(c)
    ensures TwoPhase(End(Register(factory, c, registered), max, failed))
  {
    hide TwoPhase, R.RegisterWithStatus, Q.Step;
    if registered.Some? { RegisteredTwoPhase(factory, c, registered.value); }
    var before := Register(factory, c, registered);
    OnlyProgress(before, End(before, max, failed));
  }

  lemma StepTwoPhase(factory: R.Factory, max: nat, c: Controller, e: Event)
    requires TwoPhase(c)
    ensures TwoPhase(Step(factory, max, c, e))
  {
    hide TwoPhase, Confirm, RollBack, ReturnProject, Register, Q.Step, M.Step;
    match e
    case Confirmed(result) => ConfirmTwoPhase(c, result);
    case RolledBack(result) => RollBackTwoPhase(c, result);
    case ProjectReturns(locator, lease) =>
      if c.progress == Some(Working) && G.Issued(c.scheduler.runtime, lease) {
        ReturnTwoPhase(factory, c, max, locator, lease);
      }
    case OtherReturns(registered) =>
      if c.progress == Some(Working) { EndedTwoPhase(factory, c, max, registered, false); }
    case OperationFails(registered) =>
      if c.progress == Some(Working) {
        EndedTwoPhase(factory, c, max, registered, true);
      } else {
        OnlyProgress(c, Step(factory, max, c, e));
      }
    case SchedulerStep(mutation) => ScheduledTwoPhase(c, mutation);
    case OperationResumes => if c.progress.Some? { ResumeTwoPhase(c, max); }
    case _ => OnlyProgress(c, Step(factory, max, c, e));
  }

  /** Over every run: one pending completion at most, its barrier in place, its thread provisional. */
  lemma {:induction false} TwoPhaseAlways(factory: R.Factory, max: nat, scheduler: M.Scheduler, events: seq<Event>)
    requires M.Serial(scheduler)
    ensures TwoPhase(Run(factory, max, scheduler, events))
  {
    if events != [] {
      TwoPhaseAlways(factory, max, scheduler, events[..|events| - 1]);
      StepTwoPhase(factory, max, Run(factory, max, scheduler, events[..|events| - 1]), events[|events| - 1]);
    }
  }

  // ---------------------------------------------------------------- what the two phases guarantee

  /** While a completion is pending, no queued operation has any effect on runtime, route, turn or project. */
  lemma NoEffectWhilePending(factory: R.Factory, max: nat, scheduler: M.Scheduler, events: seq<Event>, e: Event)
    requires M.Serial(scheduler)
    requires Run(factory, max, scheduler, events).barrier.results != {}
    ensures var c := Run(factory, max, scheduler, events);
      && c.progress != Some(Working)
      && Step(factory, max, c, e).effects == c.effects
  {
    hide TwoPhase;
    TwoPhaseAlways(factory, max, scheduler, events);
    IdleWhilePending(Run(factory, max, scheduler, events));
    EffectsNeedWork(factory, max, Run(factory, max, scheduler, events), e);
  }

  lemma IdleWhilePending(c: Controller)
    requires TwoPhase(c) && c.barrier.results != {}
    ensures c.progress != Some(Working)
  {
  }

  lemma EffectsNeedWork(factory: R.Factory, max: nat, c: Controller, e: Event)
    requires c.progress != Some(Working)
    ensures Step(factory, max, c, e).effects == c.effects
  {
    hide Call, Begin, Resume, ReturnProject, SettleBarrier, G.Issued, Q.Step, M.Step, R.RegisterWithStatus, R.Commit,
         R.Rollback;
    match e
    case Called(request, signal) => CallKeepsRest(c, max, request, signal);
    case OperationBegins => if c.queue.active.Some? { BeginKeepsRest(c, max, c.queue.active.value.id); }
    case OperationResumes => if c.progress.Some? { ResumeKeepsRest(c, max); }
    case _ =>
  }

  /** Confirming a pending result makes its thread known, and it stays so whatever happens next. */
  lemma ConfirmedIsKnown(c: Controller, result: Result)
    requires TwoPhase(c) && result in c.barrier.results
    ensures R.StateOf(c.registry, c.issued[result].handle) == Some(R.PROVISIONAL)
    ensures var next := Confirm(c, result);
      && next.barrier.pending.None? && next.barrier.results == {}
      && R.StateOf(next.registry, c.issued[result].handle) == Some(R.COMMITTED)
      && next.registry.handles == c.registry.handles
      && next.scheduler == c.scheduler
  {
    assert CompletionSound(c, result);
  }

  /** Rolling a pending result back removes its thread and latches the lease it ran on. */
  lemma RolledBackIsGone(c: Controller, result: Result)
    requires TwoPhase(c) && result in c.barrier.results
    ensures var next, handle := RollBack(c, result), c.issued[result].handle;
      && next.barrier.pending.None? && next.barrier.results == {}
      && R.StateOf(next.registry, handle).None?
      && (forall l | l in next.registry.handles :: next.registry.handles[l] != handle)
      && next.registry.committed == c.registry.committed
      && next.scheduler == M.Step(c.scheduler, M.Marked(c.issued[result].lease))
  {
    assert CompletionSound(c, result);
    var token := c.issued[result].transaction;
    R.RollbackConsistent(c.registry, token);
  }

  /** Then no mutation bound to that lease ever starts, until another mark replaces the latch. */
  lemma RollbackFencesLease(c: Controller, result: Result, later: seq<M.Event>)
    requires TwoPhase(c) && result in c.barrier.results && M.NoMarks(later)
    ensures M.StartsOnlyOthers(c.scheduler, M.Run(RollBack(c, result).scheduler, later), c.issued[result].lease)
  {
    RolledBackIsGone(c, result);
    M.MarkedLeaseNeverStarts(c.scheduler, c.issued[result].lease, later);
  }

  /** The handle of every result was drawn, and no thread has the handle of a withdrawn one. */
  ghost predicate WithdrawnIsFree(factory: R.Factory, c: Controller, result: Result)
    requires result in c.issued
  {
    var token, handle := c.issued[result].transaction, c.issued[result].handle;
    && R.Drawn(factory, c.registry, handle)
    && (token in c.registry.settlements && !c.registry.settlements[token] ==> !R.HandleExists(c.registry, handle))
  }

  ghost predicate DrawnOnce(factory: R.Factory, c: Controller) {
    && R.AllDrawn(factory, c.registry)
    && forall r | r in c.issued :: WithdrawnIsFree(factory, c, r)
  }

  /** A registration or reservation by the running operation. */
  lemma RegistryStepDrawnOnce(factory: R.Factory, c: Controller, op: R.Operation)
    requires TwoPhase(c) && DrawnOnce(factory, c) && R.Injective(factory)
    requires op.Registers? || op.Reserves?
    ensures DrawnOnce(factory, c.(registry := R.Apply(factory, c.registry, op)))
  {
    hide TwoPhase, R.Injective, R.AllDrawn, R.Drawn, R.HandleExists, R.FreeAttempt;
    R.HandlesAreNotReused(factory, c.registry, op);
    var next := c.(registry := R.Apply(factory, c.registry, op));
    assert next.registry.settlements == c.registry.settlements;
    assert forall r | r in c.issued :: WithdrawnIsFree(factory, c, r) && WithdrawnIsFree(factory, next, r);
  }

  lemma ReturnDrawnOnce(factory: R.Factory, c: Controller, max: nat, locator: R.Locator, lease: G.RuntimeLease)
    requires TwoPhase(c) && DrawnOnce(factory, c) && R.Injective(factory)
    ensures DrawnOnce(factory, ReturnProject(factory, c, max, locator, lease))
  {
    hide TwoPhase, R.Injective, R.AllDrawn, R.Drawn, R.HandleExists, R.Reserve, Install, Q.Step;
    RegistryIsConsistent(c);
    RegistryStepDrawnOnce(factory, c, R.Reserves(locator));
    var o, next := R.Reserve(factory, c.registry, locator), ReturnProject(factory, c, max, locator, lease);
    assert next.registry == o.registry;
    forall r | r in next.issued ensures WithdrawnIsFree(factory, next, r) {
      if r in c.issued && next.issued[r] == c.issued[r] {
        assert WithdrawnIsFree(factory, c.(registry := o.registry), r);
      } else {
        ReservedIsOpen(factory, c.registry, locator);
      }
    }
  }

  /** A handle just reserved is drawn, and its transaction is not settled. */
  lemma ReservedIsOpen(factory: R.Factory, r: R.Registry, locator: R.Locator)
    requires R.Consistent(r)
    ensures var o := R.Reserve(factory, r, locator);
      o.result.Registered? && o.result.created && o.result.transaction.Some? ==>
        R.Drawn(factory, o.registry, o.result.handle) && o.result.transaction.value !in o.registry.settlements
  {
    var o, n := R.Reserve(factory, r, locator), R.FreeAttempt(factory, r, 0);
    if locator !in r.handles && n < R.COLLISION_ATTEMPTS {
      assert r.drawn + n < o.registry.drawn && factory(r.drawn + n) == o.result.handle;
    }
  }

  /** What settling `result` records, and that it concerns no other transaction. */
  lemma SettledAlone(c: Controller, result: Result, next: Controller)
    requires TwoPhase(c) && result in c.completions
    requires next == Confirm(c, result) || next == RollBack(c, result)
    ensures next.issued == c.issued
    ensures var token := c.issued[result].transaction;
      && c.completions[result] == c.issued[result]
      && token in next.registry.settlements && token !in c.registry.settlements
      && (!next.registry.settlements[token] ==> !R.HandleExists(next.registry, c.issued[result].handle))
      && forall t | t in next.registry.settlements && t != token ::
           t in c.registry.settlements && next.registry.settlements[t] == c.registry.settlements[t]
    ensures forall r | r in c.issued && r != result :: c.issued[r].transaction in c.registry.settlements
  {
    hide M.Step, M.Serial, G.Issued;
    assert CompletionSound(c, result);
    assert forall r | r in c.issued && r != result :: CompletionSound(c, r);
  }

  /** Settling one result concerns no other handle. */
  lemma SettleDrawnOnce(factory: R.Factory, c: Controller, result: Result, next: Controller)
    requires TwoPhase(c) && DrawnOnce(factory, c) && R.Injective(factory)
    requires next == Confirm(c, result) || next == RollBack(c, result)
    ensures DrawnOnce(factory, next)
  {
    hide TwoPhase, R.Injective, R.AllDrawn, R.Drawn, R.HandleExists, R.Commit, R.Rollback, M.Step, M.Serial, G.Issued;
    if result in c.completions {
      var token := c.completions[result].transaction;
      SettledAlone(c, result, next);
      R.HandlesAreNotReused(factory, c.registry, R.Commits(token));
      R.HandlesAreNotReused(factory, c.registry, R.RollsBack(token));
      forall r | r in next.issued ensures WithdrawnIsFree(factory, next, r) {
        assert WithdrawnIsFree(factory, c, r);
      }
    }
  }

  lemma RegisterDrawnOnce(factory: R.Factory, c: Controller, registered: Option<R.Locator>, next: Controller)
    requires TwoPhase(c) && DrawnOnce(factory, c) && R.Injective(factory)
    requires next.issued == c.issued
    requires next.registry == c.registry || next.registry == Register(factory, c, registered).registry
    ensures DrawnOnce(factory, next)
  {
    hide TwoPhase, DrawnOnce, R.Injective, R.RegisterWithStatus;
    if next.registry == c.registry || registered.None? {
      SameRegistry(factory, c, next);
    } else {
      var op := R.Registers(registered.value);
      RegistryStepDrawnOnce(factory, c, op);
      SameRegistry(factory, c.(registry := R.Apply(factory, c.registry, op)), next);
    }
  }

  lemma StepDrawnOnce(factory: R.Factory, max: nat, c: Controller, e: Event)
    requires TwoPhase(c) && DrawnOnce(factory, c) && R.Injective(factory)
    ensures DrawnOnce(factory, Step(factory, max, c, e))
  {
    hide TwoPhase, DrawnOnce, Call, Begin, Resume, Confirm, RollBack, ReturnProject, R.RegisterWithStatus, R.Injective,
         R.AllDrawn, R.Drawn, R.HandleExists, Q.Step, M.Step, G.Issued;
    match e
    case Confirmed(result) => SettleDrawnOnce(factory, c, result, Confirm(c, result));
    case RolledBack(result) => SettleDrawnOnce(factory, c, result, RollBack(c, result));
    case ProjectReturns(locator, lease) => ReturnDrawnOnce(factory, c, max, locator, lease);
    case OtherReturns(registered) => RegisterDrawnOnce(factory, c, registered, Step(factory, max, c, e));
    case OperationFails(registered) => RegisterDrawnOnce(factory, c, registered, Step(factory, max, c, e));
    case Called(request, signal) =>
      CallKeepsRest(c, max, request, signal);
      SameRegistry(factory, c, Step(factory, max, c, e));
    case OperationBegins =>
      if c.queue.active.Some? { BeginKeepsRest(c, max, c.queue.active.value.id); }
      SameRegistry(factory, c, Step(factory, max, c, e));
    case OperationResumes =>
      if c.progress.Some? { ResumeKeepsRest(c, max); }
      SameRegistry(factory, c, Step(factory, max, c, e));
    case _ => SameRegistry(factory, c, Step(factory, max, c, e));
  }

  lemma SameRegistry(factory: R.Factory, c: Controller, next: Controller)
    requires DrawnOnce(factory, c) && next.registry == c.registry && next.issued == c.issued
    ensures DrawnOnce(factory, next)
  {
    assert forall r | r in c.issued :: WithdrawnIsFree(factory, c, r) && WithdrawnIsFree(factory, next, r);
  }

  lemma {:induction false} DrawnOnceAlways(factory: R.Factory, max: nat, scheduler: M.Scheduler, events: seq<Event>)
    requires M.Serial(scheduler) && R.Injective(factory)
    ensures DrawnOnce(factory, Run(factory, max, scheduler, events))
  {
    if events != [] {
      var init := events[..|events| - 1];
      DrawnOnceAlways(factory, max, scheduler, init);
      TwoPhaseAlways(factory, max, scheduler, init);
      StepDrawnOnce(factory, max, Run(factory, max, scheduler, init), events[|events| - 1]);
    }
  }

  /**
   In every reachable state: an open result is provisional, a settled one was settled once; confirmed
   threads are known. If the factory never repeats a handle, the settled ones are known exactly if
   they were confirmed, and of a withdrawn thread nothing is left, then or ever after.
   */
  lemma KnownExactlyIfConfirmed(factory: R.Factory, max: nat, scheduler: M.Scheduler, events: seq<Event>,
                                result: Result)
    requires M.Serial(scheduler) && result in Run(factory, max, scheduler, events).issued
    ensures var c := Run(factory, max, scheduler, events);
      var state, token := R.StateOf(c.registry, c.issued[result].handle), c.issued[result].transaction;
      && (result in c.barrier.results ==> state == Some(R.PROVISIONAL) && c.barrier.pending == Some(result))
      && (result !in c.barrier.results <==> token in c.registry.settlements)
      && (token in c.registry.settlements && c.registry.settlements[token] ==> state == Some(R.COMMITTED))
      && (R.Injective(factory) && token in c.registry.settlements ==>
            && (state == Some(R.COMMITTED) <==> c.registry.settlements[token])
            && (state.None? <==> !c.registry.settlements[token]))
  {
    hide R.Injective;
    TwoPhaseAlways(factory, max, scheduler, events);
    var c := Run(factory, max, scheduler, events);
    assert CompletionSound(c, result);
    if R.Injective(factory) {
      DrawnOnceAlways(factory, max, scheduler, events);
      assert WithdrawnIsFree(factory, c, result);
    }
  }

  /** A Project turn that is rolled back, then a fresh turn. */
  function WithdrawnThenFresh(first: R.Locator, second: R.Locator): seq<Event> {
    [Called(Project, None), OperationBegins, ProjectReturns(first, M.OLD_LEASE), RolledBack(0),
     QueueStep(Q.CleanupRuns), Called(Fresh, None), OperationBegins, OtherReturns(Some(second))]
  }

  lemma RunUpTo(factory: R.Factory, max: nat, scheduler: M.Scheduler, events: seq<Event>, k: nat)
    requires k < |events|
    ensures Run(factory, max, scheduler, events[..k + 1])
         == Step(factory, max, Run(factory, max, scheduler, events[..k]), events[k])
  {
    assert events[..k + 1][..k] == events[..k];
  }

  const FIRST_DONE := Q.EMPTY.(active := Some(Q.Entry(0, None)), admitted := 1, starts := [0],
    outcomes := map[0 := Q.Completed])

  /** After the Project turn and its rollback the handle is free again. */
  lemma WithdrawnRun(handle: R.Handle, first: R.Locator, s: M.Scheduler, called: Controller, working: Controller,
                     returned: Controller, c: Controller)
    requires s.runtime == G.Runtime(1, Some(M.OLD_PROCESS), Some(M.OLD_PROCESS))
    requires called == Step((n: nat) => handle, 1, Created(s), Called(Project, None))
    requires working == Step((n: nat) => handle, 1, called, OperationBegins)
    requires returned == Step((n: nat) => handle, 1, working, ProjectReturns(first, M.OLD_LEASE))
    requires c == Step((n: nat) => handle, 1, returned, RolledBack(0))
    ensures c.issued == map[0 := Completion(M.OLD_LEASE, 0, handle)]
    ensures c.registry.settlements == map[0 := false]
    ensures c.registry.handles == map[] && c.registry.committed == map[] && c.registry.provisional == map[]
    ensures c.barrier.pending.None? && c.progress.None? && c.queue == FIRST_DONE
  {
    assert [Q.Entry(0, None)][1..] == [];
    assert called.queue == Q.EMPTY.(active := Some(Q.Entry(0, None)), admitted := 1, starts := [0]);
    assert working.progress == Some(Working) && working.registry == R.EMPTY;
    assert returned.registry == R.EMPTY.(drawn := 1, issued := 1, provisional := map[handle := R.Provisional(first, 0)],
                                         transactions := map[0 := handle], handles := map[first := handle]);
    assert c.registry == R.Rollback(returned.registry, 0);
  }

  lemma FreshCall(handle: R.Handle, c: Controller, clean: Controller, called: Controller)
    requires c.progress.None? && c.queue == FIRST_DONE
    requires clean == Step((n: nat) => handle, 1, c, QueueStep(Q.CleanupRuns))
    requires called == Step((n: nat) => handle, 1, clean, Called(Fresh, None))
    ensures called == c.(queue := called.queue, requests := called.requests, mustWait := called.mustWait,
      progress := Some(NotBegun))
    ensures called.queue.active == Some(Q.Entry(1, None)) && 1 in called.requests && called.requests[1] == Fresh
  {
    assert clean.queue == FIRST_DONE.(active := None);
    assert [Q.Entry(1, None)][1..] == [];
  }

  lemma FreshReturn(handle: R.Handle, second: R.Locator, called: Controller, working: Controller, later: Controller)
    requires called.registry.handles == map[] && called.registry.committed == map[]
    requires called.registry.provisional == map[]
    requires called.barrier.pending.None? && called.progress == Some(NotBegun)
    requires called.queue.active == Some(Q.Entry(1, None)) && 1 in called.requests && called.requests[1] == Fresh
    requires working == Step((n: nat) => handle, 1, called, OperationBegins)
    requires later == Step((n: nat) => handle, 1, working, OtherReturns(Some(second)))
    ensures later.issued == called.issued && later.registry.settlements == called.registry.settlements
    ensures later.registry.committed == map[handle := second]
  {
    hide Q.Step;
    assert working.progress == Some(Working) && working.registry == called.registry;
  }

  /**
   Without that hypothesis it fails: a factory that repeats a handle lets a withdrawn thread be known
   again, under the locator of another conversation.
   */
  lemma RepeatedHandleIsKnownAgain(handle: R.Handle, first: R.Locator, second: R.Locator)
    ensures var scheduler := M.Step(M.CREATED, M.RuntimeObserved(Some(M.OLD_PROCESS)));
      var c := Run((n: nat) => handle, 1, scheduler, WithdrawnThenFresh(first, second));
      && M.Serial(scheduler) && c.issued.Keys == {0}
      && c.issued[0].transaction in c.registry.settlements && !c.registry.settlements[c.issued[0].transaction]
      && R.Resolve(c.registry, c.issued[0].handle) == Some(second)
  {
    hide Step, Created;
    var factory := (n: nat) => handle;
    var s := M.Step(M.CREATED, M.RuntimeObserved(Some(M.OLD_PROCESS)));
    M.StepSerial(M.CREATED, M.RuntimeObserved(Some(M.OLD_PROCESS)));
    var es := WithdrawnThenFresh(first, second);
    forall k: nat | k < 8
      ensures Run(factory, 1, s, es[..k + 1]) == Step(factory, 1, Run(factory, 1, s, es[..k]), es[k])
    {
      RunUpTo(factory, 1, s, es, k);
    }
    assert Run(factory, 1, s, es[..0]) == Created(s);
    WithdrawnRun(handle, first, s, Run(factory, 1, s, es[..1]), Run(factory, 1, s, es[..2]),
                 Run(factory, 1, s, es[..3]), Run(factory, 1, s, es[..4]));
    FreshCall(handle, Run(factory, 1, s, es[..4]), Run(factory, 1, s, es[..5]), Run(factory, 1, s, es[..6]));
    FreshReturn(handle, second, Run(factory, 1, s, es[..6]), Run(factory, 1, s, es[..7]), Run(factory, 1, s, es[..8]));
    assert es[..8] == es;
  }

  /** A second confirmation or rollback changes nothing. */
  lemma SettlesOnce(c: Controller, result: Result)
    requires TwoPhase(c) && result !in c.barrier.results
    ensures Confirm(c, result) == c && RollBack(c, result) == c
  {
  }
}

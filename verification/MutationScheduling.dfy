/**
 The operation scheduler as a state machine: a serial queue, and a fail-closed latch that names the
 runtime lease whose page state became uncertain. A step is what runs between two suspensions.
 */
module MutationScheduling {
  import opened Wrappers
  import G = RuntimeGeneration

  type Signal = nat

  datatype Entry = Entry(id: nat, lease: G.RuntimeLease, signal: Option<Signal>, settled: bool)

  datatype Outcome = Completed | OperationFailed | Aborted | StateUncertain | LeaseLost(error: G.LeaseError)

  /** `Resuming`: the drain loop waits for the microtask after an entry that has just ended. */
  datatype Phase = Idle | Running(entry: Entry) | Resuming

  datatype Start = Start(id: nat, lease: G.RuntimeLease)

  /**
   `admitted` counts calls of schedule and numbers them; `outcomes`, `starts` and `settledTwice`
   record what became of their promises.
   */
  datatype Scheduler = Scheduler(
    queue: seq<Entry>,
    phase: Phase,
    uncertain: Option<G.RuntimeLease>,
    runtime: G.Runtime,
    aborted: set<Signal>,
    admitted: nat,
    starts: seq<Start>,
    outcomes: map<nat, Outcome>,
    settledTwice: bool)

  const CREATED := Scheduler([], Idle, None, G.INITIAL, {}, 0, [], map[], false)

  function Settle(s: Scheduler, id: nat, outcome: Outcome): Scheduler {
    s.(outcomes := s.outcomes[id := outcome], settledTwice := s.settledTwice || id in s.outcomes)
  }

  predicate IsAborted(s: Scheduler, signal: Option<Signal>) {
    signal.Some? && signal.value in s.aborted
  }

  /** The latch after a safety check of `lease`, which fails exactly if it names that lease. */
  function Checked(uncertain: Option<G.RuntimeLease>, lease: G.RuntimeLease): Option<G.RuntimeLease> {
    if uncertain == Some(lease) then uncertain else None
  }

  function Begin(s: Scheduler, entry: Entry): Scheduler {
    if IsAborted(s, entry.signal) then Settle(s, entry.id, Aborted).(phase := Resuming)
    else
      var error := G.AssertCurrent(s.runtime, entry.lease);
      if error.Some? then Settle(s, entry.id, LeaseLost(error.value)).(phase := Resuming)
      else if s.uncertain == Some(entry.lease) then Settle(s, entry.id, StateUncertain).(phase := Resuming)
      else s.(uncertain := None, phase := Running(entry), starts := s.starts + [Start(entry.id, entry.lease)])
  }

  /** The drain loop up to its next suspension. */
  function Drain(s: Scheduler): Scheduler
    decreases |s.queue|
  {
    if s.queue == [] then s.(phase := Idle)
    else
      var entry, rest := s.queue[0], s.(queue := s.queue[1..]);
      if entry.settled then Drain(rest) else Begin(rest, entry)
  }

  function Schedule(s: Scheduler, signal: Option<Signal>): Scheduler {
    var id, called := s.admitted, s.(admitted := s.admitted + 1);
    if IsAborted(s, signal) then Settle(called, id, Aborted)
    else
      var lease := G.CurrentLease(s.runtime);
      if lease.None? then Settle(called, id, LeaseLost(G.NotObserved))
      else if s.uncertain == lease then Settle(called, id, StateUncertain)
      else Enqueue(called.(uncertain := None), Entry(id, lease.value, signal, false))
  }

  function Enqueue(s: Scheduler, entry: Entry): Scheduler {
    var pushed := s.(queue := s.queue + [entry]);
    if s.phase.Idle? then Drain(pushed.(phase := Resuming)) else pushed
  }

  /** The abort listener of the entry at position `i`. */
  function AbortQueued(s: Scheduler, i: nat): Scheduler
    requires i < |s.queue|
  {
    if s.queue[i].settled then s
    else Settle(s.(queue := s.queue[i := s.queue[i].(settled := true)]), s.queue[i].id, Aborted)
  }

  datatype Event =
    | Scheduled(signal: Option<Signal>)
    | Aborting(source: Signal)
    | AbortListenerRuns(position: nat)
    | OperationEnded(failed: bool)
    | LoopResumes
    | Marked(lease: G.RuntimeLease)
    | RuntimeObserved(identity: Option<G.RuntimeIdentity>)

  function Step(s: Scheduler, e: Event): Scheduler {
    match e
    case Scheduled(signal) => Schedule(s, signal)
    case Aborting(source) => s.(aborted := s.aborted + {source})
    case AbortListenerRuns(i) =>
      if i < |s.queue| && IsAborted(s, s.queue[i].signal) then AbortQueued(s, i) else s
    case OperationEnded(failed) =>
      if !s.phase.Running? then s
      else Settle(s, s.phase.entry.id, if failed then OperationFailed else Completed).(phase := Resuming)
    case LoopResumes => if s.phase.Resuming? then Drain(s) else s
    case Marked(lease) => s.(uncertain := Some(lease))
    case RuntimeObserved(identity) => s.(runtime := G.Observe(s.runtime, identity))
  }

  function Run(s: Scheduler, events: seq<Event>): Scheduler {
    if events == [] then s else Step(Run(s, events[..|events| - 1]), events[|events| - 1])
  }

  // ---------------------------------------------------------------- the queue

  predicate Increasing(queue: seq<Entry>) {
    forall i, j | 0 <= i < j < |queue| :: queue[i].id < queue[j].id
  }

  predicate InAdmissionOrder(starts: seq<Start>) {
    forall i, j | 0 <= i < j < |starts| :: starts[i].id < starts[j].id
  }

  /** The queued call `id` whose promise is still open. */
  predicate Queued(queue: seq<Entry>, id: nat) {
    exists i :: 0 <= i < |queue| && queue[i].id == id && !queue[i].settled
  }

  predicate Open(s: Scheduler, id: nat) {
    (s.phase.Running? && s.phase.entry.id == id) || Queued(s.queue, id)
  }

  predicate EntrySound(s: Scheduler, entry: Entry) {
    entry.id < s.admitted && G.Issued(s.runtime, entry.lease) && (entry.settled <==> entry.id in s.outcomes)
  }

  predicate StartedBefore(starts: seq<Start>, id: nat) {
    forall i | 0 <= i < |starts| :: starts[i].id < id
  }

  /** Queue and bookkeeping, whatever the phase. */
  predicate QueueSound(s: Scheduler) {
    && G.Reachable(s.runtime)
    && !s.settledTwice
    && Increasing(s.queue) && InAdmissionOrder(s.starts)
    && (forall i | 0 <= i < |s.queue| :: EntrySound(s, s.queue[i]))
    && (forall i | 0 <= i < |s.queue| :: StartedBefore(s.starts, s.queue[i].id))
    && StartedBefore(s.starts, s.admitted)
    && (forall id | id in s.outcomes :: id < s.admitted)
  }

  /** Every state of the scheduler between two steps. */
  predicate Serial(s: Scheduler) {
    && QueueSound(s)
    && (s.phase.Idle? ==> s.queue == [])
    && (s.phase.Running? ==>
          && s.phase.entry.id !in s.outcomes
          && s.starts != []
          && s.starts[|s.starts| - 1] == Start(s.phase.entry.id, s.phase.entry.lease))
    && (forall id | 0 <= id < s.admitted :: id in s.outcomes || Open(s, id))
  }

  /** As `Serial`, for the loop that takes the next entry. */
  predicate Draining(s: Scheduler) {
    && QueueSound(s)
    && (forall id | 0 <= id < s.admitted :: id in s.outcomes || Queued(s.queue, id))
  }

  /** An entry just taken from the front of the queue. */
  predicate Taken(s: Scheduler, entry: Entry) {
    && QueueSound(s) && EntrySound(s, entry) && StartedBefore(s.starts, entry.id)
    && (forall i | 0 <= i < |s.queue| :: entry.id < s.queue[i].id)
    && (forall id | 0 <= id < s.admitted :: id in s.outcomes || id == entry.id || Queued(s.queue, id))
  }

  lemma TakeFirst(s: Scheduler, rest: Scheduler)
    requires Draining(s) && s.queue != [] && rest == s.(queue := s.queue[1..])
    ensures Taken(rest, s.queue[0])
    ensures s.queue[0].settled ==> Draining(rest)
  {
    forall id | 0 <= id < s.admitted && id !in s.outcomes && id != s.queue[0].id ensures Queued(rest.queue, id) {
      var i :| 0 <= i < |s.queue| && s.queue[i].id == id && !s.queue[i].settled;
      assert rest.queue[i - 1] == s.queue[i];
    }
  }

  lemma SettledSerial(s: Scheduler, entry: Entry, outcome: Outcome)
    requires Taken(s, entry) && !entry.settled
    ensures Serial(Settle(s, entry.id, outcome).(phase := Resuming))
  {
    var next := Settle(s, entry.id, outcome).(phase := Resuming);
    assert forall i | 0 <= i < |s.queue| :: EntrySound(s, s.queue[i]) && EntrySound(next, next.queue[i]);
  }

  lemma StartedSerial(s: Scheduler, entry: Entry)
    requires Taken(s, entry) && !entry.settled
    ensures Serial(s.(uncertain := None, phase := Running(entry), starts := s.starts + [Start(entry.id, entry.lease)]))
  {
    var next := s.(uncertain := None, phase := Running(entry), starts := s.starts + [Start(entry.id, entry.lease)]);
    forall i | 0 <= i < |s.queue|
      ensures EntrySound(next, next.queue[i]) && StartedBefore(next.starts, next.queue[i].id)
    {
      assert EntrySound(s, s.queue[i]) && StartedBefore(s.starts, s.queue[i].id);
    }
    assert forall id | 0 <= id < s.admitted && id != entry.id && id !in s.outcomes :: Open(next, id);
  }

  lemma {:induction false} DrainSerial(s: Scheduler)
    requires Draining(s)
    ensures Serial(Drain(s))
    decreases |s.queue|
  {
    if s.queue != [] {
      var entry, rest := s.queue[0], s.(queue := s.queue[1..]);
      TakeFirst(s, rest);
      if entry.settled {
        DrainSerial(rest);
      } else {
        var error := G.AssertCurrent(s.runtime, entry.lease);
        SettledSerial(rest, entry, Aborted);
        SettledSerial(rest, entry, StateUncertain);
        if error.Some? { SettledSerial(rest, entry, LeaseLost(error.value)); }
        StartedSerial(rest, entry);
      }
    }
  }

  lemma PushedSound(s: Scheduler, entry: Entry, pushed: Scheduler)
    requires Serial(s) && EntrySound(pushed, entry) && !entry.settled && entry.id == s.admitted
    requires pushed == s.(admitted := s.admitted + 1, uncertain := None, queue := s.queue + [entry])
    ensures QueueSound(pushed)
    ensures forall id | 0 <= id < pushed.admitted :: id in pushed.outcomes || Open(pushed, id)
  {
    forall i | 0 <= i < |pushed.queue|
      ensures EntrySound(pushed, pushed.queue[i]) && StartedBefore(s.starts, pushed.queue[i].id)
    {
      if i < |s.queue| { assert EntrySound(s, s.queue[i]) && StartedBefore(s.starts, s.queue[i].id); }
    }
    assert pushed.queue[|s.queue|] == entry;
    forall id | 0 <= id < s.admitted && Queued(s.queue, id) ensures Queued(pushed.queue, id) {
      var i :| 0 <= i < |s.queue| && s.queue[i].id == id && !s.queue[i].settled;
      assert pushed.queue[i] == s.queue[i];
    }
  }

  lemma EnqueueSerial(s: Scheduler, entry: Entry, pushed: Scheduler)
    requires Serial(s) && EntrySound(pushed, entry) && !entry.settled && entry.id == s.admitted
    requires pushed == s.(admitted := s.admitted + 1, uncertain := None, queue := s.queue + [entry])
    ensures Serial(Enqueue(s.(admitted := s.admitted + 1, uncertain := None), entry))
  {
    hide Drain;
    PushedSound(s, entry, pushed);
    if s.phase.Idle? { DrainSerial(pushed.(phase := Resuming)); }
  }

  lemma OpenElsewhere(s: Scheduler, next: Scheduler)
    requires s.queue == next.queue && s.phase == next.phase
    ensures forall id :: Open(s, id) <==> Open(next, id)
  {
  }

  lemma AbortSound(s: Scheduler, i: nat)
    requires QueueSound(s) && i < |s.queue|
    ensures QueueSound(AbortQueued(s, i))
  {
    var next := AbortQueued(s, i);
    forall j | 0 <= j < |s.queue| ensures EntrySound(next, next.queue[j]) && next.queue[j].id == s.queue[j].id {
      assert EntrySound(s, s.queue[j]);
    }
  }

  lemma AbortSerial(s: Scheduler, i: nat)
    requires Serial(s) && i < |s.queue|
    ensures Serial(AbortQueued(s, i))
  {
    hide QueueSound;
    AbortSound(s, i);
    var next := AbortQueued(s, i);
    forall id | 0 <= id < s.admitted && id !in next.outcomes ensures Open(next, id) {
      if Queued(s.queue, id) {
        var j :| 0 <= j < |s.queue| && s.queue[j].id == id && !s.queue[j].settled;
        assert next.queue[j] == s.queue[j];
      }
    }
    if s.phase.Running? { RunningIsNotQueued(s, i); }
  }

  lemma RunningIsNotQueued(s: Scheduler, i: nat)
    requires Serial(s) && s.phase.Running? && i < |s.queue|
    ensures s.queue[i].id != s.phase.entry.id
  {
    assert StartedBefore(s.starts, s.queue[i].id);
  }

  lemma EndedSerial(s: Scheduler, outcome: Outcome)
    requires Serial(s) && s.phase.Running?
    ensures Serial(Settle(s, s.phase.entry.id, outcome).(phase := Resuming))
  {
    var id := s.phase.entry.id;
    var next := Settle(s, id, outcome).(phase := Resuming);
    assert s.starts[|s.starts| - 1].id == id;
    forall j | 0 <= j < |s.queue| ensures EntrySound(next, next.queue[j]) {
      assert EntrySound(s, s.queue[j]) && StartedBefore(s.starts, s.queue[j].id);
    }
  }

  lemma RuntimeSerial(s: Scheduler, identity: Option<G.RuntimeIdentity>)
    requires Serial(s)
    ensures Serial(s.(runtime := G.Observe(s.runtime, identity)))
  {
    forall i | 0 <= i < |s.queue| ensures EntrySound(s.(runtime := G.Observe(s.runtime, identity)), s.queue[i]) {
      assert EntrySound(s, s.queue[i]);
      G.IssuedStays(s.runtime, s.queue[i].lease, identity);
    }
    OpenElsewhere(s, s.(runtime := G.Observe(s.runtime, identity)));
  }

  lemma RejectedSerial(s: Scheduler, outcome: Outcome)
    requires Serial(s)
    ensures Serial(Settle(s.(admitted := s.admitted + 1), s.admitted, outcome))
  {
    var next := Settle(s.(admitted := s.admitted + 1), s.admitted, outcome);
    assert forall j | 0 <= j < |s.queue| :: EntrySound(s, s.queue[j]) && EntrySound(next, next.queue[j]);
    OpenElsewhere(s, next);
  }

  lemma ScheduleSerial(s: Scheduler, signal: Option<Signal>)
    requires Serial(s)
    ensures Serial(Schedule(s, signal))
  {
    var lease := G.CurrentLease(s.runtime);
    if IsAborted(s, signal) || lease.None? || s.uncertain == lease {
      RejectedSerial(s, Aborted);
      RejectedSerial(s, LeaseLost(G.NotObserved));
      RejectedSerial(s, StateUncertain);
    } else {
      var entry := Entry(s.admitted, lease.value, signal, false);
      EnqueueSerial(s, entry, s.(admitted := s.admitted + 1, uncertain := None, queue := s.queue + [entry]));
    }
  }

  lemma StepSerial(s: Scheduler, e: Event)
    requires Serial(s)
    ensures Serial(Step(s, e))
  {
    hide Schedule, Drain, AbortQueued;
    match e
    case Scheduled(signal) => ScheduleSerial(s, signal);
    case AbortListenerRuns(i) => if i < |s.queue| { AbortSerial(s, i); }
    case LoopResumes => if s.phase.Resuming? { DrainSerial(s); }
    case RuntimeObserved(identity) => RuntimeSerial(s, identity);
    case OperationEnded(failed) =>
      if s.phase.Running? { EndedSerial(s, if failed then OperationFailed else Completed); }
    case _ =>
      assert forall j | 0 <= j < |s.queue| :: EntrySound(s, s.queue[j]) && EntrySound(Step(s, e), s.queue[j]);
      OpenElsewhere(s, Step(s, e));
  }

  /**
   Over every interleaving: starts follow admission order, no promise settles twice, every call is
   settled or still open, and the scheduler is idle only with nothing left to do.
   */
  lemma {:induction false} SerialAlways(events: seq<Event>)
    ensures var s := Run(CREATED, events);
      && Serial(s)
      && (s.phase.Idle? ==> forall id | 0 <= id < s.admitted :: id in s.outcomes)
  {
    if events != [] {
      SerialAlways(events[..|events| - 1]);
      StepSerial(Run(CREATED, events[..|events| - 1]), events[|events| - 1]);
    }
  }

  // ---------------------------------------------------------------- what a step may start

  /** What holds of the entry a step starts, at that moment. */
  predicate MayStart(s: Scheduler, start: Start) {
    && !s.phase.Running?
    && start.id !in s.outcomes
    && G.AssertCurrent(s.runtime, start.lease).None?
    && s.uncertain != Some(start.lease)
  }

  predicate StartsNothingOr(s: Scheduler, next: Scheduler) {
    || next.starts == s.starts
    || (|next.starts| == |s.starts| + 1 && next.starts[..|s.starts|] == s.starts
        && MayStart(s, next.starts[|s.starts|])
        && next.phase.Running? && !IsAborted(s, next.phase.entry.signal)
        && next.phase.entry.id == next.starts[|s.starts|].id)
  }

  lemma {:induction false} DrainStarts(s: Scheduler)
    requires Draining(s) && !s.phase.Running?
    ensures StartsNothingOr(s, Drain(s))
    ensures Drain(s).outcomes.Keys >= s.outcomes.Keys && Drain(s).runtime == s.runtime
    decreases |s.queue|
  {
    if s.queue != [] {
      var rest := s.(queue := s.queue[1..]);
      TakeFirst(s, rest);
      if s.queue[0].settled { DrainStarts(rest); }
    }
  }

  /**
   A step starts at most one operation, only when none runs, and never one that was aborted while
   queued, whose promise is settled, whose lease is not current, or whose lease is latched.
   */
  lemma StepStarts(s: Scheduler, e: Event)
    requires Serial(s)
    ensures StartsNothingOr(s, Step(s, e))
  {
    hide Drain;
    match e
    case Scheduled(signal) =>
      var lease := G.CurrentLease(s.runtime);
      if s.phase.Idle? && !IsAborted(s, signal) && lease.Some? && s.uncertain != lease {
        ScheduledStarts(s, signal, Entry(s.admitted, lease.value, signal, false));
      }
    case LoopResumes => if s.phase.Resuming? { DrainStarts(s); }
    case _ =>
  }

  lemma ScheduledStarts(s: Scheduler, signal: Option<Signal>, entry: Entry)
    requires Serial(s) && s.phase.Idle? && G.CurrentLease(s.runtime).Some? && !IsAborted(s, signal)
    requires s.uncertain != Some(entry.lease)
    requires entry == Entry(s.admitted, G.CurrentLease(s.runtime).value, signal, false)
    ensures Schedule(s, signal) == Begin(s.(admitted := s.admitted + 1, uncertain := None), entry)
    ensures Schedule(s, signal).starts == s.starts + [Start(entry.id, entry.lease)]
    ensures StartsNothingOr(s, Schedule(s, signal))
  {
    assert s.queue + [entry] == [entry] && [entry][1..] == [];
  }

  lemma {:induction false} DrainKeepsRuntime(s: Scheduler)
    ensures Drain(s).runtime == s.runtime
    decreases |s.queue|
  {
    if s.queue != [] && s.queue[0].settled { DrainKeepsRuntime(s.(queue := s.queue[1..])); }
  }

  lemma IssuedLeaseStays(s: Scheduler, lease: G.RuntimeLease, e: Event)
    requires G.Reachable(s.runtime) && G.Issued(s.runtime, lease)
    ensures G.Issued(Step(s, e).runtime, lease)
  {
    hide Drain;
    match e
    case RuntimeObserved(identity) => G.IssuedStays(s.runtime, lease, identity);
    case LoopResumes => DrainKeepsRuntime(s);
    case Scheduled(signal) =>
      var current := G.CurrentLease(s.runtime);
      if current.Some? {
        DrainKeepsRuntime(s.(admitted := s.admitted + 1, uncertain := None,
                             queue := s.queue + [Entry(s.admitted, current.value, signal, false)], phase := Resuming));
      }
    case _ =>
  }

  // ---------------------------------------------------------------- the latch

  /** No operation bound to the lease can start: it is latched, or its process is gone for good. */
  predicate Refused(s: Scheduler, lease: G.RuntimeLease) {
    s.uncertain == Some(lease) || lease.generation < s.runtime.generation
  }

  /** The one step that lifts a refusal: a mark for another lease while this one is still alive. */
  predicate LiftsLatch(s: Scheduler, lease: G.RuntimeLease, e: Event) {
    e.Marked? && e.lease != lease && lease.generation == s.runtime.generation
  }

  lemma {:induction false} DrainLatch(s: Scheduler, lease: G.RuntimeLease)
    requires G.Reachable(s.runtime) && G.Issued(s.runtime, lease) && Refused(s, lease)
    ensures Refused(Drain(s), lease)
    decreases |s.queue|
  {
    if s.queue != [] && s.queue[0].settled { DrainLatch(s.(queue := s.queue[1..]), lease); }
  }

  /**
   The latch may be cleared, yet the refusal stays: it is cleared only when the current lease has a
   strictly larger generation. Exactly one kind of step lifts it.
   */
  lemma RefusalKeptExactly(s: Scheduler, lease: G.RuntimeLease, e: Event)
    requires Serial(s) && G.Issued(s.runtime, lease) && Refused(s, lease)
    ensures Refused(Step(s, e), lease) <==> !LiftsLatch(s, lease, e)
    ensures G.Issued(Step(s, e).runtime, lease)
  {
    hide Drain;
    match e
    case RuntimeObserved(identity) => G.IssuedStays(s.runtime, lease, identity);
    case LoopResumes =>
      if s.phase.Resuming? { DrainLatch(s, lease); DrainStarts(s); }
    case Scheduled(signal) =>
      var current := G.CurrentLease(s.runtime);
      if !IsAborted(s, signal) && current.Some? && s.uncertain != current {
        var entry := Entry(s.admitted, current.value, signal, false);
        var pushed := s.(admitted := s.admitted + 1, uncertain := None, queue := s.queue + [entry]);
        DrainLatch(pushed.(phase := Resuming), lease);
        if s.phase.Idle? { ScheduledStarts(s, signal, entry); }
      }
    case _ =>
  }

  /** No mark in the run lifts the refusal of `lease`. */
  predicate MarksSpare(s: Scheduler, lease: G.RuntimeLease, events: seq<Event>) {
    events == [] ||
    (var init, last := events[..|events| - 1], events[|events| - 1];
     MarksSpare(s, lease, init) && !LiftsLatch(Run(s, init), lease, last))
  }

  predicate StartsOnlyOthers(s: Scheduler, later: Scheduler, lease: G.RuntimeLease) {
    && s.starts <= later.starts
    && forall i | |s.starts| <= i < |later.starts| :: later.starts[i].lease != lease
  }

  /** From a refusal on, no operation bound to the lease ever starts unless a mark lifts it. */
  lemma {:induction false} RefusedForever(s: Scheduler, lease: G.RuntimeLease, events: seq<Event>)
    requires Serial(s) && G.Issued(s.runtime, lease) && Refused(s, lease) && MarksSpare(s, lease, events)
    ensures var later := Run(s, events);
      && Serial(later) && G.Issued(later.runtime, lease)
      && Refused(later, lease) && StartsOnlyOthers(s, later, lease)
  {
    if events != [] {
      var init, last := events[..|events| - 1], events[|events| - 1];
      RefusedForever(s, lease, init);
      var before := Run(s, init);
      StepSerial(before, last);
      StepStarts(before, last);
      RefusalKeptExactly(before, lease, last);
    }
  }

  predicate NoMarks(events: seq<Event>) {
    forall i | 0 <= i < |events| :: !events[i].Marked?
  }

  lemma {:induction false} NoMarksSpare(s: Scheduler, lease: G.RuntimeLease, events: seq<Event>)
    requires NoMarks(events)
    ensures MarksSpare(s, lease, events)
  {
    if events != [] {
      var init := events[..|events| - 1];
      assert forall i | 0 <= i < |init| :: init[i] == events[i];
      NoMarksSpare(s, lease, init);
    }
  }

  /** Until another mark replaces it, no operation bound to the marked lease starts. */
  lemma MarkedLeaseNeverStarts(s: Scheduler, lease: G.RuntimeLease, events: seq<Event>)
    requires Serial(s) && G.Issued(s.runtime, lease) && NoMarks(events)
    ensures StartsOnlyOthers(s, Run(Step(s, Marked(lease)), events), lease)
  {
    var marked := Step(s, Marked(lease));
    StepSerial(s, Marked(lease));
    NoMarksSpare(marked, lease, events);
    RefusedForever(marked, lease, events);
  }

  /** The marks of the run come from running operations, each for the lease it runs on. */
  predicate OnlyRunningMarks(s: Scheduler, events: seq<Event>) {
    events == [] ||
    (var init, last := events[..|events| - 1], events[|events| - 1];
     && OnlyRunningMarks(s, init)
     && (last.Marked? ==> Run(s, init).phase.Running? && last.lease == Run(s, init).phase.entry.lease))
  }

  /** An operation may be running on the refused lease, or after its process is gone. */
  predicate RunsPast(s: Scheduler, lease: G.RuntimeLease) {
    s.phase.Running? ==> s.phase.entry.lease == lease || lease.generation < s.runtime.generation
  }

  lemma RunsPastStays(s: Scheduler, lease: G.RuntimeLease, e: Event)
    requires Serial(s) && Serial(Step(s, e)) && G.Issued(s.runtime, lease) && Refused(s, lease) && RunsPast(s, lease)
    requires StartsNothingOr(s, Step(s, e))
    ensures RunsPast(Step(s, e), lease)
  {
    hide Drain;
    match e
    case LoopResumes =>
      if s.phase.Resuming? { DrainKeepsRuntime(s); RunningIsStarted(s); }
    case Scheduled(signal) =>
      if s.phase.Running? { NoStartWhileRunning(s, signal); } else { ScheduleKeepsRuntime(s, signal); }
    case _ =>
  }

  lemma {:induction false} RunningIsStarted(s: Scheduler)
    requires !s.phase.Running?
    ensures Drain(s).phase.Running? ==> |Drain(s).starts| > |s.starts|
    decreases |s.queue|
  {
    if s.queue != [] && s.queue[0].settled { RunningIsStarted(s.(queue := s.queue[1..])); }
  }

  lemma NoStartWhileRunning(s: Scheduler, signal: Option<Signal>)
    requires s.phase.Running?
    ensures Schedule(s, signal).phase == s.phase && Schedule(s, signal).runtime == s.runtime
  {
  }

  lemma ScheduleKeepsRuntime(s: Scheduler, signal: Option<Signal>)
    ensures Schedule(s, signal).runtime == s.runtime
  {
    hide Drain;
    var current := G.CurrentLease(s.runtime);
    if current.Some? {
      DrainKeepsRuntime(s.(admitted := s.admitted + 1, uncertain := None,
                           queue := s.queue + [Entry(s.admitted, current.value, signal, false)], phase := Resuming));
    }
  }

  lemma {:induction false} RunningMarksSpare(s: Scheduler, lease: G.RuntimeLease, events: seq<Event>)
    requires Serial(s) && G.Issued(s.runtime, lease) && Refused(s, lease)
    requires RunsPast(s, lease) && OnlyRunningMarks(s, events)
    ensures MarksSpare(s, lease, events) && RunsPast(Run(s, events), lease)
  {
    if events != [] {
      var init, last := events[..|events| - 1], events[|events| - 1];
      RunningMarksSpare(s, lease, init);
      RefusedForever(s, lease, init);
      var before := Run(s, init);
      StepSerial(before, last);
      StepStarts(before, last);
      RunsPastStays(before, lease, last);
    }
  }

  /**
   When running operations alone mark, and each the lease it runs on, a marked lease is refused for
   good: not even an operation that outlived its process and marks an older lease lifts the refusal.
   */
  lemma EveryMarkIsForever(s: Scheduler, lease: G.RuntimeLease, events: seq<Event>)
    requires Serial(s) && G.Issued(s.runtime, lease) && RunsPast(s, lease)
    requires OnlyRunningMarks(Step(s, Marked(lease)), events)
    ensures Refused(Run(Step(s, Marked(lease)), events), lease)
    ensures StartsOnlyOthers(s, Run(Step(s, Marked(lease)), events), lease)
  {
    var marked := Step(s, Marked(lease));
    StepSerial(s, Marked(lease));
    RunningMarksSpare(marked, lease, events);
    RefusedForever(marked, lease, events);
  }

  /** Without a refusal an idle scheduler does start an operation on a lease of a living process. */
  lemma UnrefusedStarts(s: Scheduler, lease: G.RuntimeLease)
    requires Serial(s) && s.phase.Idle? && G.Issued(s.runtime, lease) && !Refused(s, lease)
    ensures var later := Step(Step(s, RuntimeObserved(Some(lease.identity))), Scheduled(None));
      later.starts == s.starts + [Start(s.admitted, lease)]
  {
    var seen := Step(s, RuntimeObserved(Some(lease.identity)));
    StepSerial(s, RuntimeObserved(Some(lease.identity)));
    ScheduledStarts(seen, None, Entry(s.admitted, lease, None, false));
  }

  const OLD_PROCESS := G.RuntimeIdentity(1, "first")
  const NEW_PROCESS := G.RuntimeIdentity(2, "second")
  const OLD_LEASE := G.RuntimeLease(1, OLD_PROCESS)
  const NEW_LEASE := G.RuntimeLease(2, NEW_PROCESS)

  /**
   The scheduler by itself keeps one latch: a mark for an older lease overwrites the latch of the
   current one, and an operation on that uncertain page starts.
   */
  lemma OlderMarkLiftsLatch()
    ensures var s := Step(Step(CREATED, RuntimeObserved(Some(OLD_PROCESS))), RuntimeObserved(Some(NEW_PROCESS)));
      var latched := Step(s, Marked(NEW_LEASE));
      && G.Issued(s.runtime, OLD_LEASE) && G.Issued(s.runtime, NEW_LEASE)
      && Step(latched, Scheduled(None)).starts == []
      && Step(Step(latched, Marked(OLD_LEASE)), Scheduled(None)).starts == [Start(0, NEW_LEASE)]
  {
    var s := Step(Step(CREATED, RuntimeObserved(Some(OLD_PROCESS))), RuntimeObserved(Some(NEW_PROCESS)));
    var lifted := Step(Step(s, Marked(NEW_LEASE)), Marked(OLD_LEASE));
    assert s.runtime == G.Runtime(2, Some(NEW_PROCESS), Some(NEW_PROCESS));
    assert Serial(lifted);
    ScheduledStarts(lifted, None, Entry(0, NEW_LEASE, None, false));
  }
}

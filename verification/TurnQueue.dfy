/** The controller's bounded turn queue as a state machine; a step is one run of JavaScript code. */
module TurnQueue {
  import opened Wrappers

  type Signal = nat

  datatype Entry = Entry(id: nat, signal: Option<Signal>)

  datatype Outcome = Completed | OperationFailed | Aborted

  /**
   `active` is the entry whose operation runs; it stays active until its cleanup has run.
   `microtasks` counts drains that are scheduled. The rest records what became of the promises.
   */
  datatype Queue = Queue(
    pending: seq<Entry>,
    active: Option<Entry>,
    microtasks: nat,
    aborted: set<Signal>,
    admitted: nat,
    starts: seq<nat>,
    outcomes: map<nat, Outcome>,
    settledTwice: bool)

  const EMPTY := Queue([], None, 0, {}, 0, [], map[], false)

  predicate IsAborted(q: Queue, signal: Option<Signal>) {
    signal.Some? && signal.value in q.aborted
  }

  function Settle(q: Queue, id: nat, outcome: Outcome): Queue {
    q.(outcomes := q.outcomes[id := outcome], settledTwice := q.settledTwice || id in q.outcomes)
  }

  function Outstanding(q: Queue): nat {
    |q.pending| + if q.active.Some? then 1 else 0
  }

  function Drain(q: Queue): Queue {
    if q.active.Some? || q.pending == [] then q
    else
      var entry, rest := q.pending[0], q.(pending := q.pending[1..]);
      if IsAborted(q, entry.signal) then Settle(rest, entry.id, Aborted).(microtasks := q.microtasks + 1)
      else rest.(active := Some(entry), starts := q.starts + [entry.id])
  }

  predicate IsBusy(q: Queue, max: nat) {
    Outstanding(q) >= max
  }

  /** A busy queue throws and admits nothing. */
  function Schedule(q: Queue, max: nat, signal: Option<Signal>): Queue {
    if IsBusy(q, max) then q
    else
      var id, called := q.admitted, q.(admitted := q.admitted + 1);
      if IsAborted(q, signal) then Settle(called, id, Aborted)
      else Drain(called.(pending := q.pending + [Entry(id, signal)]))
  }

  function PositionOf(pending: seq<Entry>, id: nat): (i: nat)
    ensures i <= |pending|
    ensures i < |pending| ==> pending[i].id == id
    ensures forall k | 0 <= k < i :: pending[k].id != id
  {
    if pending == [] || pending[0].id == id then 0 else 1 + PositionOf(pending[1..], id)
  }

  /** The abort listener of entry `id`, which is registered only while the entry is pending. */
  function AbortPending(q: Queue, id: nat): Queue {
    var i := PositionOf(q.pending, id);
    if i == |q.pending| || !IsAborted(q, q.pending[i].signal) then q
    else Drain(Settle(q.(pending := q.pending[..i] + q.pending[i + 1..]), id, Aborted))
  }

  datatype Event =
    | Scheduled(signal: Option<Signal>)
    | Aborting(source: Signal)
    | AbortListenerRuns(id: nat)
    | OperationEnded(failed: bool)
    | CleanupRuns
    | MicrotaskRuns

  function Step(q: Queue, max: nat, e: Event): Queue {
    match e
    case Scheduled(signal) => Schedule(q, max, signal)
    case Aborting(source) => q.(aborted := q.aborted + {source})
    case AbortListenerRuns(id) => AbortPending(q, id)
    case OperationEnded(failed) =>
      if q.active.None? || q.active.value.id in q.outcomes then q
      else Settle(q, q.active.value.id, if failed then OperationFailed else Completed)
    case CleanupRuns =>
      if q.active.None? || q.active.value.id !in q.outcomes then q else Drain(q.(active := None))
    case MicrotaskRuns => if q.microtasks == 0 then q else Drain(q.(microtasks := q.microtasks - 1))
  }

  function Run(max: nat, events: seq<Event>): Queue {
    if events == [] then EMPTY else Step(Run(max, events[..|events| - 1]), max, events[|events| - 1])
  }

  // ---------------------------------------------------------------- every interleaving

  predicate Before(starts: seq<nat>, id: nat) {
    forall i | 0 <= i < |starts| :: starts[i] < id
  }

  predicate Increasing(starts: seq<nat>) {
    forall i, j | 0 <= i < j < |starts| :: starts[i] < starts[j]
  }

  predicate IsPending(pending: seq<Entry>, id: nat) {
    exists i :: 0 <= i < |pending| && pending[i].id == id
  }

  predicate EntrySound(q: Queue, entry: Entry) {
    entry.id < q.admitted && entry.id !in q.outcomes && Before(q.starts, entry.id)
  }

  predicate QueueSound(q: Queue) {
    && !q.settledTwice && Increasing(q.starts) && Before(q.starts, q.admitted)
    && (forall i | 0 <= i < |q.pending| :: EntrySound(q, q.pending[i]))
    && (forall i, j | 0 <= i < j < |q.pending| :: q.pending[i].id < q.pending[j].id)
    && (q.active.Some? ==> q.starts != [] && q.starts[|q.starts| - 1] == q.active.value.id)
    && (forall id | id in q.outcomes :: id < q.admitted)
    && (forall id | 0 <= id < q.admitted ::
          id in q.outcomes || IsPending(q.pending, id) || (q.active.Some? && q.active.value.id == id))
  }

  /**
   Between two steps: never more than `max` outstanding, and never idle with work pending unless a
   drain is scheduled.
   */
  predicate Serial(q: Queue, max: nat) {
    && QueueSound(q) && Outstanding(q) <= max
    && (q.active.None? && q.pending != [] ==> q.microtasks > 0)
  }

  lemma RestPending(pending: seq<Entry>, i: nat)
    requires i < |pending|
    ensures forall id :: IsPending(pending, id) ==>
      id == pending[i].id || IsPending(pending[..i] + pending[i + 1..], id)
  {
    var rest := pending[..i] + pending[i + 1..];
    forall id | IsPending(pending, id) && id != pending[i].id ensures IsPending(rest, id) {
      var k :| 0 <= k < |pending| && pending[k].id == id;
      assert rest[if k < i then k else k - 1].id == id;
    }
  }

  /** The queue without its entry `i`, whose promise is settled. */
  lemma RemovedSound(q: Queue, i: nat)
    requires QueueSound(q) && i < |q.pending|
    ensures QueueSound(Settle(q.(pending := q.pending[..i] + q.pending[i + 1..]), q.pending[i].id, Aborted))
  {
    var rest := q.pending[..i] + q.pending[i + 1..];
    var next := Settle(q.(pending := rest), q.pending[i].id, Aborted);
    RestPending(q.pending, i);
    forall k | 0 <= k < |rest| ensures EntrySound(next, rest[k]) {
      assert EntrySound(q, q.pending[if k < i then k else k + 1]);
    }
  }

  lemma StartedSound(q: Queue)
    requires QueueSound(q) && q.active.None? && q.pending != []
    ensures QueueSound(q.(pending := q.pending[1..], active := Some(q.pending[0]),
      starts := q.starts + [q.pending[0].id]))
  {
    var next := q.(pending := q.pending[1..], active := Some(q.pending[0]), starts := q.starts + [q.pending[0].id]);
    assert EntrySound(q, q.pending[0]);
    RestPending(q.pending, 0);
    assert q.pending[..0] + q.pending[1..] == q.pending[1..];
    forall k | 0 <= k < |next.pending| ensures EntrySound(next, next.pending[k]) {
      assert EntrySound(q, q.pending[k + 1]);
    }
  }

  lemma DrainSerial(q: Queue, max: nat)
    requires QueueSound(q) && Outstanding(q) <= max
    ensures Serial(Drain(q), max)
  {
    if q.active.None? && q.pending != [] {
      if IsAborted(q, q.pending[0].signal) {
        RemovedSound(q, 0);
        assert q.pending[..0] + q.pending[1..] == q.pending[1..];
        SameQueue(Settle(q.(pending := q.pending[1..]), q.pending[0].id, Aborted), Drain(q));
      } else {
        StartedSound(q);
      }
    }
  }

  lemma SameQueue(q: Queue, next: Queue)
    requires QueueSound(q) && next == q.(microtasks := next.microtasks, aborted := next.aborted)
    ensures QueueSound(next)
  {
    assert forall i | 0 <= i < |q.pending| :: EntrySound(q, q.pending[i]) && EntrySound(next, q.pending[i]);
  }

  lemma PushedSound(q: Queue, entry: Entry)
    requires QueueSound(q) && entry.id == q.admitted
    ensures QueueSound(q.(admitted := q.admitted + 1, pending := q.pending + [entry]))
  {
    var next := q.(admitted := q.admitted + 1, pending := q.pending + [entry]);
    assert next.pending[|q.pending|] == entry;
    forall i | 0 <= i < |next.pending| ensures EntrySound(next, next.pending[i]) {
      if i < |q.pending| { assert EntrySound(q, q.pending[i]); }
    }
    forall id | 0 <= id < q.admitted && IsPending(q.pending, id) ensures IsPending(next.pending, id) {
      var i :| 0 <= i < |q.pending| && q.pending[i].id == id;
      assert next.pending[i].id == id;
    }
  }

  lemma SettledSound(q: Queue, id: nat, admitted: nat, outcome: Outcome)
    requires QueueSound(q) && id !in q.outcomes && q.admitted <= admitted <= q.admitted + 1
    requires (admitted == q.admitted && q.active.Some? && q.active.value.id == id)
      || (admitted == q.admitted + 1 && id == q.admitted)
    ensures QueueSound(Settle(q.(admitted := admitted), id, outcome))
  {
    var next := Settle(q.(admitted := admitted), id, outcome);
    forall i | 0 <= i < |q.pending| ensures EntrySound(next, next.pending[i]) {
      assert EntrySound(q, q.pending[i]);
      if q.active.Some? { assert q.starts[|q.starts| - 1] < q.pending[i].id; }
    }
  }

  /** The state in which a step drains the queue, if it does. */
  function BeforeDrain(q: Queue, max: nat, e: Event): Option<Queue> {
    match e
    case Scheduled(signal) =>
      if IsBusy(q, max) || IsAborted(q, signal) then None
      else Some(q.(admitted := q.admitted + 1, pending := q.pending + [Entry(q.admitted, signal)]))
    case AbortListenerRuns(id) =>
      var i := PositionOf(q.pending, id);
      if i == |q.pending| || !IsAborted(q, q.pending[i].signal) then None
      else Some(Settle(q.(pending := q.pending[..i] + q.pending[i + 1..]), id, Aborted))
    case CleanupRuns => if q.active.None? || q.active.value.id !in q.outcomes then None else Some(q.(active := None))
    case MicrotaskRuns => if q.microtasks == 0 then None else Some(q.(microtasks := q.microtasks - 1))
    case _ => None
  }

  lemma DrainsFrom(q: Queue, max: nat, e: Event)
    requires Serial(q, max) && BeforeDrain(q, max, e).Some?
    ensures var mid := BeforeDrain(q, max, e).value;
      && QueueSound(mid) && Outstanding(mid) <= max && Step(q, max, e) == Drain(mid)
      && mid.starts == q.starts && mid.aborted == q.aborted
      && (mid.active == q.active || (q.active.Some? && q.active.value.id in q.outcomes))
  {
    hide QueueSound;
    match e
    case Scheduled(signal) => PushedSound(q, Entry(q.admitted, signal));
    case AbortListenerRuns(id) => RemovedSound(q, PositionOf(q.pending, id));
    case CleanupRuns => ReleasedSound(q);
    case MicrotaskRuns => SameQueue(q, q.(microtasks := q.microtasks - 1));
    case _ =>
  }

  lemma StaysSound(q: Queue, max: nat, e: Event)
    requires Serial(q, max) && BeforeDrain(q, max, e).None?
    ensures Serial(Step(q, max, e), max) && Step(q, max, e).starts == q.starts
  {
    hide QueueSound;
    match e
    case Scheduled(signal) =>
      NotYetSettled(q);
      SettledSound(q, q.admitted, q.admitted + 1, Aborted);
    case OperationEnded(failed) =>
      if q.active.Some? && q.active.value.id !in q.outcomes {
        SettledSound(q, q.active.value.id, q.admitted, if failed then OperationFailed else Completed);
      }
    case Aborting(source) => SameQueue(q, Step(q, max, e));
    case _ =>
  }

  lemma StepSerial(q: Queue, max: nat, e: Event)
    requires Serial(q, max)
    ensures Serial(Step(q, max, e), max)
  {
    hide QueueSound;
    if BeforeDrain(q, max, e).Some? {
      DrainsFrom(q, max, e);
      DrainSerial(BeforeDrain(q, max, e).value, max);
    } else {
      StaysSound(q, max, e);
    }
  }

  lemma NotYetSettled(q: Queue)
    requires QueueSound(q)
    ensures q.admitted !in q.outcomes
  {
  }

  lemma ReleasedSound(q: Queue)
    requires QueueSound(q) && q.active.Some? && q.active.value.id in q.outcomes
    ensures QueueSound(q.(active := None))
  {
    assert forall i | 0 <= i < |q.pending| ::
      && EntrySound(q, q.pending[i])
      && EntrySound(q.(active := None), q.pending[i]);
  }

  /**
   Over every interleaving of calls, aborts, listeners, operations and microtasks: one operation at a
   time (`active`), starts in admission order, each promise settled once, never more than `max`
   outstanding, and everything settled once the queue is quiet.
   */
  lemma {:induction false} SerialAlways(max: nat, events: seq<Event>)
    ensures var q := Run(max, events);
      && Serial(q, max)
      && (q.active.None? && q.microtasks == 0 ==>
        q.pending == [] && forall id | 0 <= id < q.admitted :: id in q.outcomes)
  {
    if events != [] {
      SerialAlways(max, events[..|events| - 1]);
      StepSerial(Run(max, events[..|events| - 1]), max, events[|events| - 1]);
    }
  }

  /** A step starts at most one operation: the oldest pending one, none running, not aborted. */
  lemma StepStarts(q: Queue, max: nat, e: Event)
    requires Serial(q, max)
    ensures var next := Step(q, max, e);
      || next.starts == q.starts
      || (&& next.active.Some? && next.starts == q.starts + [next.active.value.id]
          && !IsAborted(next, next.active.value.signal)
          && next.active.value.id !in next.outcomes
          && (forall i | 0 <= i < |next.pending| :: next.active.value.id < next.pending[i].id)
          && (q.active.None? || q.active.value.id in q.outcomes))
  {
    hide QueueSound;
    if BeforeDrain(q, max, e).Some? {
      DrainsFrom(q, max, e);
      DrainStarts(BeforeDrain(q, max, e).value);
    } else {
      StaysSound(q, max, e);
    }
  }

  lemma DrainStarts(q: Queue)
    requires QueueSound(q)
    ensures var next := Drain(q);
      || next.starts == q.starts
      || (&& q.active.None? && next.active.Some? && next.starts == q.starts + [next.active.value.id]
          && next.aborted == q.aborted && !IsAborted(q, next.active.value.signal)
          && next.active.value.id !in next.outcomes
          && forall i | 0 <= i < |next.pending| :: next.active.value.id < next.pending[i].id)
  {
    if q.active.None? && q.pending != [] { assert EntrySound(q, q.pending[0]); }
  }
}

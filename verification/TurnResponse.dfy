/** What a streamed turn may rely on when it polls its observation: facts over every event history. */
module TurnResponse {
  import opened Wrappers
  import E = EventStream
  import T = ResponseTracking
  import W = WriteObservation
  import Utf8

  /** The events handed out so far. */
  function Taken(setup: T.Setup, trace: seq<W.Event>): seq<E.Event> {
    W.HistoryOf(setup, trace).taken
  }

  /** The body, up to some point, ends with `[DONE]` and means exactly these events. */
  ghost predicate ReadsAs(setup: T.Setup, trace: seq<W.Event>, events: seq<E.Event>) {
    T.Finished(setup.consumer.json, W.HistoryOf(setup, trace).settled, T.Arrivals(W.HistoryOf(setup, trace)), events)
  }

  /** The body, up to some point, means at least these events. */
  ghost predicate ReadsAtLeast(setup: T.Setup, trace: seq<W.Event>, events: seq<E.Event>) {
    T.Within(setup.consumer.json, W.HistoryOf(setup, trace).settled, T.Arrivals(W.HistoryOf(setup, trace)), events)
  }

  lemma Observed(setup: T.Setup, trace: seq<W.Event>)
    ensures W.Observe(setup, true, trace).response.Some?
    ensures ReadsAtLeast(setup, trace, Taken(setup, trace) + W.QueuedEvents(W.Observe(setup, true, trace)))
    ensures ReadsAtLeast(setup, trace, Taken(setup, trace))
  {
    hide W.Step;
    W.ObservedResponse(setup, trace);
    var h := W.HistoryOf(setup, trace);
    T.StreamingIsWithin(setup, h.settled, W.Observe(setup, true, trace).response.value, T.Arrivals(h), h.taken);
  }

  lemma Snoc(setup: T.Setup, streaming: bool, trace: seq<W.Event>, e: W.Event)
    ensures W.Observe(setup, streaming, trace + [e]) == W.Step(setup, W.Observe(setup, streaming, trace), e)
    ensures W.HistoryOf(setup, trace + [e])
         == W.NextHistory(setup, W.Observe(setup, true, trace), W.HistoryOf(setup, trace), e)
  {
    assert (trace + [e])[..|trace|] == trace;
  }

  lemma TakeStep(setup: T.Setup, o: W.Observation, h: T.History)
    requires o.response.Some?
    ensures var next := W.Step(setup, o, W.EventsTaken);
      W.QueuedEvents(next) == [] && next == o.(response := next.response) && W.Read(next) == W.Read(o)
    ensures W.NextHistory(setup, o, h, W.EventsTaken).taken == h.taken + W.QueuedEvents(o)
  {
    var t := o.response.value;
    assert W.Step(setup, o, W.EventsTaken) == o.(response := Some(T.Drain(t)));
    assert T.Queued(T.Drain(t)) == [];
  }

  /** Taking the queue moves it to the taken events and changes nothing else a poll can see. */
  lemma Take(setup: T.Setup, trace: seq<W.Event>)
    ensures var o, next := W.Observe(setup, true, trace), W.Observe(setup, true, trace + [W.EventsTaken]);
      && Taken(setup, trace + [W.EventsTaken]) == Taken(setup, trace) + W.QueuedEvents(o)
      && W.QueuedEvents(next) == [] && next == o.(response := next.response) && W.Read(next) == W.Read(o)
  {
    hide W.Step, W.NextHistory;
    Observed(setup, trace);
    Snoc(setup, true, trace, W.EventsTaken);
    TakeStep(setup, W.Observe(setup, true, trace), W.HistoryOf(setup, trace));
  }

  lemma DiscardStep(setup: T.Setup, o: W.Observation, h: T.History)
    requires o.response.Some?
    ensures var next := W.Step(setup, o, W.ResponseDiscarded);
      next.ambiguous == o.ambiguous && next.lifecycle == o.lifecycle && next.writeRequestId == o.writeRequestId
    ensures W.NextHistory(setup, o, h, W.ResponseDiscarded).taken == h.taken
  {
    assert W.Step(setup, o, W.ResponseDiscarded) == o.(response := Some(T.Discard(o.response.value)));
  }

  lemma Discard(setup: T.Setup, trace: seq<W.Event>)
    ensures var o, next := W.Observe(setup, true, trace), W.Observe(setup, true, trace + [W.ResponseDiscarded]);
      && Taken(setup, trace + [W.ResponseDiscarded]) == Taken(setup, trace)
      && next.ambiguous == o.ambiguous && next.lifecycle == o.lifecycle && next.writeRequestId == o.writeRequestId
  {
    hide W.Step, W.NextHistory;
    Observed(setup, trace);
    Snoc(setup, true, trace, W.ResponseDiscarded);
    DiscardStep(setup, W.Observe(setup, true, trace), W.HistoryOf(setup, trace));
  }

  lemma TakenStep(setup: T.Setup, trace: seq<W.Event>, e: W.Event)
    requires !e.EventsTaken?
    ensures Taken(setup, trace + [e]) == Taken(setup, trace)
  {
    Observed(setup, trace);
    Snoc(setup, true, trace, e);
    var o := W.Observe(setup, true, trace);
    var h := W.HistoryOf(setup, trace);
    if W.Told(o, e).Some? { T.RecordTaken(setup, o.response.value, h, W.Told(o, e).value); }
  }

  predicate NothingTaken(events: seq<W.Event>) {
    forall i | 0 <= i < |events| :: !events[i].EventsTaken?
  }

  lemma {:induction false} TakenOnlyByTaking(setup: T.Setup, trace: seq<W.Event>, more: seq<W.Event>)
    requires NothingTaken(more)
    ensures Taken(setup, trace + more) == Taken(setup, trace)
  {
    if more == [] {
      assert trace + more == trace;
    } else {
      var init := more[..|more| - 1];
      assert forall i | 0 <= i < |init| :: init[i] == more[i];
      TakenOnlyByTaking(setup, trace, init);
      TakenStep(setup, trace + init, more[|more| - 1]);
      assert trace + more == trace + init + [more[|more| - 1]];
    }
  }

  // ---------------------------------------------------------------- what never changes back

  /** Nothing that a poll has seen settled is ever unsettled by later events. */
  predicate Later(o: W.Observation, next: W.Observation) {
    && (o.writeRequestId.Some? ==> next.writeRequestId.Some?)
    && (o.lifecycle.Some? ==> next.lifecycle.Some?)
    && (W.WriteSettled(o) ==> next.lifecycle == o.lifecycle)
    && (o.ambiguous ==> next.ambiguous)
    && (o.response.Some? <==> next.response.Some?)
    && (o.response.Some? && T.IsTerminal(o.response.value) ==>
          next.response.value.lifecycle == o.response.value.lifecycle)
  }

  predicate Identified(o: W.Observation) {
    o.lifecycle.Some? <==> o.writeRequestId.Some?
  }

  lemma StepLater(setup: T.Setup, o: W.Observation, e: W.Event, h: T.History)
    requires Identified(o)
    requires o.response.Some? ==> T.Invariant(setup, o.response.value, h)
    ensures Later(o, W.Step(setup, o, e)) && Identified(W.Step(setup, o, e))
  {
    hide T.Step;
    W.WriteNeverReopens(setup, o, e);
    if o.response.Some? {
      W.StepTells(setup, o, e);
      if T.IsTerminal(o.response.value) && W.Told(o, e).Some? {
        T.TerminalAbsorbing(setup, o.response.value, h, W.Told(o, e).value);
      }
    }
  }

  lemma {:induction false} IsIdentified(setup: T.Setup, streaming: bool, trace: seq<W.Event>)
    ensures Identified(W.Observe(setup, streaming, trace))
    ensures W.Observe(setup, streaming, trace).response.Some? <==> streaming
  {
    hide T.Step;
    if trace != [] { IsIdentified(setup, streaming, trace[..|trace| - 1]); }
  }

  lemma LaterItself(setup: T.Setup, streaming: bool, trace: seq<W.Event>)
    ensures Later(W.Observe(setup, streaming, trace), W.Observe(setup, streaming, trace))
  {
    hide W.Observe;
  }

  lemma NextLater(setup: T.Setup, streaming: bool, trace: seq<W.Event>, e: W.Event)
    ensures Later(W.Observe(setup, streaming, trace), W.Observe(setup, streaming, trace + [e]))
  {
    hide W.Step, Later;
    IsIdentified(setup, streaming, trace);
    if streaming { W.ObservedResponse(setup, trace); }
    StepLater(setup, W.Observe(setup, streaming, trace), e, W.HistoryOf(setup, trace));
    Snoc(setup, streaming, trace, e);
  }

  lemma LaterCompose(o: W.Observation, mid: W.Observation, next: W.Observation)
    requires Later(o, mid) && Later(mid, next)
    ensures Later(o, next)
  {
  }

  lemma {:induction false} NeverBack(setup: T.Setup, streaming: bool, trace: seq<W.Event>, more: seq<W.Event>)
    ensures Later(W.Observe(setup, streaming, trace), W.Observe(setup, streaming, trace + more))
  {
    hide W.Step, T.Invariant, Later, Identified, W.Coupled;
    if more == [] {
      assert trace + more == trace;
      LaterItself(setup, streaming, trace);
    } else {
      var init, last := more[..|more| - 1], more[|more| - 1];
      NeverBack(setup, streaming, trace, init);
      NextLater(setup, streaming, trace + init, last);
      LaterCompose(W.Observe(setup, streaming, trace), W.Observe(setup, streaming, trace + init),
                   W.Observe(setup, streaming, trace + init + [last]));
      assert trace + more == trace + init + [last];
    }
  }

  // ---------------------------------------------------------------- what a completed response means

  predicate NeverDiscarded(trace: seq<W.Event>) {
    forall i | 0 <= i < |trace| :: !trace[i].ResponseDiscarded?
  }

  lemma KeepsConsumer(setup: T.Setup, o: W.Observation, e: W.Event)
    requires !e.ResponseDiscarded? && o.response.Some?
    requires o.ambiguous || o.response.value.consumer.Some?
    ensures var next := W.Step(setup, o, e); next.ambiguous || next.response.value.consumer.Some?
  {
    hide T.Step;
    W.StepTells(setup, o, e);
    W.WriteNeverAmbiguousAgain(setup, o, e);
    if !o.ambiguous && W.Told(o, e).Some? && W.Told(o, e) != Some(T.Disposing) {
      T.ConsumerKept(setup, o.response.value, W.Told(o, e).value);
    }
  }

  lemma {:induction false} ConsumerKept(setup: T.Setup, trace: seq<W.Event>)
    requires NeverDiscarded(trace)
    ensures var o := W.Observe(setup, true, trace);
      o.response.Some? && (o.ambiguous || o.response.value.consumer.Some?)
  {
    hide W.Step;
    if trace != [] {
      var init := trace[..|trace| - 1];
      assert forall i | 0 <= i < |init| :: init[i] == trace[i];
      ConsumerKept(setup, init);
      KeepsConsumer(setup, W.Observe(setup, true, init), trace[|trace| - 1]);
      IsIdentified(setup, true, trace);
    }
  }

  /** A readable, kept, completed and emptied response: what was taken is the whole answer. */
  lemma CompletedIsWhole(setup: T.Setup, trace: seq<W.Event>)
    requires NeverDiscarded(trace)
    requires var o := W.Observe(setup, true, trace);
      && !o.ambiguous && o.response.Some? && o.response.value.lifecycle == T.Completed
      && W.QueuedEvents(o) == []
    ensures ReadsAs(setup, trace, Taken(setup, trace))
  {
    hide W.Step;
    W.ObservedResponse(setup, trace);
    ConsumerKept(setup, trace);
    assert Taken(setup, trace) + [] == Taken(setup, trace);
  }

  lemma {:induction false} NoCompletedWhileOpen(setup: T.Setup, t: T.Tracker, arrivals: seq<string>,
                                                taken: seq<E.Event>)
    requires T.StreamingFaithfully(setup, t, arrivals, taken)
    ensures E.Completed !in taken
  {
    var s := t.consumer.value;
    var text := Utf8.Run(Utf8.START, T.BytesOf(arrivals)).value.1;
    E.CompletedIsLast(setup.consumer.json, E.SplitLines(text).lines);
    assert forall i | 0 <= i < |taken| :: taken[i] == (taken + s.events)[i];
  }

  /** The event COMPLETED is handed out only by a response that has ended. */
  lemma CompletedEventIsTerminal(setup: T.Setup, trace: seq<W.Event>)
    requires E.Completed in Taken(setup, trace)
    ensures var o := W.Observe(setup, true, trace);
      o.response.Some? && (o.ambiguous || T.IsTerminal(o.response.value))
  {
    hide W.Step;
    W.ObservedResponse(setup, trace);
    var o, h := W.Observe(setup, true, trace), W.HistoryOf(setup, trace);
    if !o.ambiguous && o.response.value.lifecycle == T.Streaming {
      NoCompletedWhileOpen(setup, o.response.value, T.Arrivals(h), h.taken);
    }
  }
}

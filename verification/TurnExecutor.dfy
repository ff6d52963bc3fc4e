/** The executor object. A method runs on until it suspends; `Suspend` is the only place that waits. */
module TurnExecutor {
  import opened Wrappers
  import opened Turns
  import E = EventStream
  import G = RuntimeGeneration
  import R = ThreadRegistration
  import Registry = ThreadRegistry
  import T = ResponseTracking
  import V = TurnResponse
  import W = WriteObservation

  /** The response of one turn, as far as it was delivered. */
  class ResponseDelivery {
    var deliveryDeferred: bool
    var semanticCompleted: bool
    var finalized: bool
    var terminalError: Option<TurnError>
    var discarded: bool
    var accumulatedText: Text

    constructor (deliveryDeferred: bool)
      ensures this.deliveryDeferred == deliveryDeferred && !semanticCompleted && !finalized
      ensures terminalError.None? && !discarded && accumulatedText == []
    {
      this.deliveryDeferred := deliveryDeferred;
      semanticCompleted, finalized, terminalError, discarded, accumulatedText := false, false, None, false, [];
    }
  }

  class TurnExecutor {
    const config: Config
    const registry: Registry.ThreadRegistry
    /** Events of the armed observation, and what this turn did with its collaborators. */
    var trace: seq<W.Event>
    var offered: seq<Offer>
    /** The turn creates a Project conversation: its answer is withheld until that is certain. */
    var withheld: bool
    var marked: seq<G.RuntimeLease>
    var commands: seq<Command>
    var pendingProjectCompletions: map<nat, PendingProjectCompletion>
    var completions: nat
    /** The environment: clock, caller's signal, runtime, and calls made so far. */
    var clock: int
    var aborted: bool
    var runtime: G.Runtime
    var suspended: nat
    var called: nat
    ghost var polls: seq<Poll>
    /** A length no suspension exceeds, in environments that have one. */
    ghost const longestSuspension: nat

    constructor (config: Config, registry: Registry.ThreadRegistry, runtime: G.Runtime, clock: int,
                 ghost longestSuspension: nat)
      ensures this.config == config && this.registry == registry && this.longestSuspension == longestSuspension
      ensures this.runtime == runtime && this.clock == clock && !aborted
      ensures trace == [] && offered == [] && marked == [] && commands == [] && polls == []
      ensures pendingProjectCompletions == map[] && suspended == 0
    {
      this.longestSuspension := longestSuspension;
      this.config, this.registry, this.runtime, this.clock := config, registry, runtime, clock;
      trace, offered, marked, pendingProjectCompletions, completions := [], [], [], map[], 0;
      commands, withheld := [], false;
      aborted, suspended, called, polls := false, 0, 0, [];
    }

    function Observation(): W.Observation
      reads this`trace
    {
      W.Observe(config.setup, config.streaming, trace)
    }

    /** The lease was handed out by the runtime, now or earlier. */
    ghost predicate Holds(lease: G.RuntimeLease)
      reads this`runtime
    {
      G.Reachable(runtime) && G.Issued(runtime, lease)
    }

    /** The lease can never be current again. */
    ghost predicate IsDead(lease: G.RuntimeLease)
      reads this`runtime
    {
      lease.generation < runtime.generation
    }

    /** The lease is not current: its process was replaced, or just now no process is visible. */
    ghost predicate IsLost(lease: G.RuntimeLease)
      reads this`runtime
    {
      G.AssertCurrent(runtime, lease).Some?
    }

    ghost predicate Punctual() {
      forall n :: config.environment.suspensions(n).elapsed <= longestSuspension
    }

    /** The longest time a suspension and a sleep take together. */
    ghost function Interval(): nat {
      longestSuspension + 1
    }

    /** No more than `n` intervals have passed. */
    twostate predicate Took(n: nat)
      reads this`clock
    {
      Punctual() ==> clock <= old(clock) + n * Interval()
    }

    /** Trace, clock and signal only ever move forward. */
    twostate predicate MovesOn()
      reads this`trace, this`clock, this`aborted
    {
      old(trace) <= trace && old(clock) <= clock && (old(aborted) ==> aborted)
    }

    /** Nothing but the page, the clock, the caller and the runtime moved on. */
    twostate predicate OnlyTimePassed()
      reads this
    {
      && MovesOn() && Took(1)
      && V.NothingTaken(trace[|old(trace)|..]) && V.NeverDiscarded(trace[|old(trace)|..])
      && V.Later(old(Observation()), Observation())
      && old(suspended) <= suspended && old(runtime.generation) <= runtime.generation
      && offered == old(offered) && marked == old(marked) && polls == old(polls)
      && pendingProjectCompletions == old(pendingProjectCompletions) && completions == old(completions)
      && withheld == old(withheld)
    }

    method Suspend(lease: G.RuntimeLease) returns (error: Option<CallError>)
      requires Holds(lease)
      modifies this`trace, this`clock, this`aborted, this`runtime, this`suspended
      ensures Holds(lease) && OnlyTimePassed() && called == old(called) && suspended == old(suspended) + 1
      ensures error == Some(GenerationChanged) ==> IsLost(lease)
      ensures config.environment.suspensions(old(suspended)).error == Some(GenerationChanged) && IsLost(lease) ==>
        error == Some(GenerationChanged)
      ensures error.None? <==> config.environment.suspensions(old(suspended)).error.None?
      ensures Answers(config.environment.suspensions(old(suspended)), error)
    {
      hide W.Observe, W.WriteSettled, V.Later, G.ObserveAll, G.AssertCurrent;
      var s := config.environment.suspensions(suspended);
      suspended := suspended + 1;
      V.NeverBack(config.setup, config.streaming, trace, s.events);
      trace := trace + s.events;
      clock := clock + s.elapsed;
      aborted := aborted || s.aborts;
      G.IssuedAlways(runtime, lease, s.identities);
      G.GenerationsNeverDecrease(runtime, s.identities);
      runtime := G.ObserveAll(runtime, s.identities);
      // A look at the processes reports a changed generation when it shows another process, or none.
      error := if s.error == Some(GenerationChanged) && G.AssertCurrent(runtime, lease).None? then Some(OtherError)
        else s.error;
    }

    /** What a suspension did: its events, its abort, its observations, and its error, if that can be. */
    twostate predicate Answers(s: Suspension, error: Option<CallError>)
      reads this`trace, this`clock, this`aborted, this`runtime
    {
      Happened(s) && (s.error != Some(GenerationChanged) ==> error == s.error)
    }

    twostate predicate Happened(s: Suspension)
      reads this`trace, this`clock, this`aborted, this`runtime
    {
      && trace == old(trace) + s.events && clock == old(clock) + s.elapsed && aborted == (old(aborted) || s.aborts)
      && runtime == G.ObserveAll(old(runtime), s.identities)
    }

    /** The `n`-th suspension neither fails nor brings an abort or an observation of the processes. */
    ghost predicate Quiet(n: nat) {
      var s := config.environment.suspensions(n);
      s.error.None? && !s.aborts && s.identities == []
    }

    /** Waiting for the next poll; the clock moves on. */
    method Sleep(lease: G.RuntimeLease)
      requires Holds(lease)
      modifies this`trace, this`clock, this`aborted, this`runtime, this`suspended
      ensures Holds(lease) && OnlyTimePassed() && old(clock) < clock
    {
      var _ := Suspend(lease);
      clock := clock + 1;
    }

    /** A synchronous call of the session that fails as the environment decides. */
    method Call(lease: G.RuntimeLease) returns (error: Option<CallError>)
      requires Holds(lease)
      modifies this`called
      ensures called == old(called) + 1
      ensures error == Some(GenerationChanged) ==> IsDead(lease) && IsLost(lease)
      ensures config.environment.callErrors(old(called)).None? <==> error.None?
    {
      error := config.environment.callErrors(called);
      called := called + 1;
      // A synchronous check of the lease reports a changed generation only against a visible process.
      if error == Some(GenerationChanged) && G.AssertCurrent(runtime, lease) != Some(G.GenerationChanged) {
        error := Some(OtherError);
      }
    }

    /** The two errors a helper may end the turn with, and what they guarantee. */
    twostate predicate Raised(lease: G.RuntimeLease, new thrown: Option<TurnError>)
      reads this
    {
      match thrown
      case None => marked == old(marked)
      case Some(RuntimeGenerationChanged) => marked == old(marked) && IsLost(lease)
      case Some(TurnStateUncertain) => marked == old(marked) + [lease]
      case Some(_) => false
    }

    method FailClosed(lease: G.RuntimeLease) returns (thrown: Option<TurnError>)
      modifies this`marked
      ensures thrown == Some(TurnStateUncertain) && marked == old(marked) + [lease]
    {
      marked := marked + [lease];
      return Some(TurnStateUncertain);
    }

    method ReadTurnObservation(lease: G.RuntimeLease) returns (snapshot: Option<W.Snapshot>, thrown: Option<TurnError>)
      requires Holds(lease)
      modifies this`called, this`marked
      ensures Raised(lease, thrown)
      ensures thrown.None? ==> snapshot.Some? && snapshot == W.Read(Observation())
      ensures thrown.Some? ==> snapshot.None?
      ensures config.environment.callErrors(old(called)).None? && !Observation().ambiguous ==> thrown.None?
      ensures called == old(called) + 1
    {
      var error := Call(lease);
      if error == Some(GenerationChanged) { return None, Some(RuntimeGenerationChanged); }
      if error.Some? || Observation().ambiguous {
        thrown := FailClosed(lease);
        return None, thrown;
      }
      return W.Read(Observation()), None;
    }

    // -------------------------------------------------------------- delivery

    method Tell(event: TurnEvent) returns (accepted: bool)
      modifies this`offered, this`aborted
      ensures offered == old(offered) + [Offer(event, accepted)]
      ensures aborted == (old(aborted) || config.environment.aborting(|old(offered)|))
    {
      accepted := config.environment.accepts(|offered|);
      aborted := aborted || config.environment.aborting(|offered|);
      offered := offered + [Offer(event, accepted)];
    }

    /** What was offered while the turn is being polled: deltas, in step with the accumulated text. */
    ghost predicate Streamed(state: ResponseDelivery)
      reads this`offered, state
    {
      && OnlyDeltas(offered) && StopsWhenRefused(offered)
      && (state.terminalError.None? ==> AllAccepted(offered))
      && (if state.deliveryDeferred then offered == [] else ShownText(offered) == state.accumulatedText)
    }

    /** The delivery state is faithful to the body that arrived. */
    ghost predicate Delivering(state: ResponseDelivery)
      reads this`trace, this`offered, this`aborted, this`withheld, state
    {
      var taken := V.Taken(config.setup, trace);
      && config.streaming && config.responseEvents && !state.finalized && (withheld ==> state.deliveryDeferred)
      && state.accumulatedText <= E.TextOf(taken)
      && (!state.discarded ==> state.accumulatedText == E.TextOf(taken) && V.NeverDiscarded(trace))
      && (state.discarded ==> state.terminalError.Some? || aborted)
      && (state.terminalError.Some? ==> state.discarded && IsResponseError(state.terminalError.value))
      && (state.semanticCompleted ==> E.Completed in taken || IsComplete(Observation()))
      && Streamed(state)
    }

    static predicate IsComplete(o: W.Observation) {
      o.response.Some? && o.response.value.lifecycle == T.Completed
    }

    /** The response is brought up to date: complete exactly if it was read to the end. */
    ghost predicate UpToDate(state: ResponseDelivery)
      reads this`trace, this`offered, this`aborted, this`withheld, state
    {
      && Delivering(state)
      && (!aborted && state.terminalError.None? && state.semanticCompleted ==>
            !Observation().ambiguous && IsComplete(Observation()) && W.QueuedEvents(Observation()) == [])
    }

    /** What was shown is an initial part of what the body means, even when the turn ends abruptly. */
    ghost predicate ShownFaithfully()
      reads this`trace, this`offered, this`withheld
    {
      && OnlyDeltas(offered) && StopsWhenRefused(offered)
      && ShownText(offered) <= E.TextOf(V.Taken(config.setup, trace))
      && (withheld ==> offered == [])
    }

    /** The executor's own events changed nothing about the write, and undo no completed response. */
    twostate predicate SameWrite()
      reads this
    {
      && old(trace) <= trace && (old(aborted) ==> aborted)
      && Observation().lifecycle == old(Observation()).lifecycle
      && Observation().ambiguous == old(Observation()).ambiguous
      && Observation().writeRequestId == old(Observation()).writeRequestId
      && (IsComplete(old(Observation())) ==> IsComplete(Observation()))
    }

    /** What is known of the response stays known. */
    twostate predicate StaysDecided(state: ResponseDelivery?)
      reads state
    {
      state != null ==>
        (old(state.semanticCompleted) ==> state.semanticCompleted)
          && (old(state.terminalError.Some?) ==> state.terminalError.Some?)
    }

    method DiscardResponse(state: ResponseDelivery, lease: G.RuntimeLease, cancellation: bool)
      returns (thrown: Option<TurnError>)
      requires Holds(lease) && config.streaming
      requires !cancellation ==> state.terminalError.Some?
      modifies this`trace, this`called, this`marked, state`discarded
      ensures Raised(lease, thrown) && state.discarded && SameWrite()
      ensures V.Taken(config.setup, trace) == old(V.Taken(config.setup, trace))
      ensures old(state.discarded) ==> trace == old(trace) && called == old(called) && thrown.None?
      ensures !old(state.discarded) ==> called == old(called) + 1
      ensures config.environment.callErrors(old(called)).None? ==> thrown.None?
    {
      if state.discarded { return None; }
      state.discarded := true;
      var error := Call(lease);
      if error.None? {
        V.Discard(config.setup, trace);
        V.NeverBack(config.setup, true, trace, [W.ResponseDiscarded]);
        trace := trace + [W.ResponseDiscarded];
        return None;
      }
      if error == Some(GenerationChanged) { return Some(RuntimeGenerationChanged); }
      if error == Some(Disconnected) {
        thrown := FailClosed(lease);
        return;
      }
      // Any other failure: `terminalError` is set already, unless the caller cancelled.
      return None;
    }

    /** A failure of the response, recorded once; the rest of the stream is dropped. */
    method FailResponse(state: ResponseDelivery, lease: G.RuntimeLease, error: TurnError)
      returns (thrown: Option<TurnError>)
      requires Holds(lease) && config.streaming && IsResponseError(error)
      modifies this`trace, this`called, this`marked, state`discarded, state`terminalError
      ensures Raised(lease, thrown) && state.discarded && SameWrite()
      ensures state.terminalError == if old(state.terminalError).Some? then old(state.terminalError) else Some(error)
      ensures V.Taken(config.setup, trace) == old(V.Taken(config.setup, trace))
    {
      if state.terminalError.None? { state.terminalError := Some(error); }
      thrown := DiscardResponse(state, lease, false);
    }

    /** One text delta: bounded, shown unless delivery is deferred, accumulated. */
    method DeliverText(state: ResponseDelivery, text: Text) returns (delivered: bool)
      requires Streamed(state) && state.terminalError.None?
      modifies this`offered, this`aborted, state`accumulatedText
      ensures old(aborted) ==> aborted
      ensures delivered ==> Streamed(state) && state.accumulatedText == old(state.accumulatedText) + text
      ensures !delivered ==> state.accumulatedText == old(state.accumulatedText)
      ensures !delivered ==> OnlyDeltas(offered) && StopsWhenRefused(offered)
      ensures !delivered ==>
        if state.deliveryDeferred then offered == [] else ShownText(offered) == state.accumulatedText
    {
      if |state.accumulatedText| + |text| > config.maxAccumulatedTextChars { return false; }
      if !state.deliveryDeferred {
        var accepted := Tell(TextDelta(text));
        ShownAppend(old(offered), offered[|offered| - 1]);
        if !accepted { return false; }
      }
      state.accumulatedText := state.accumulatedText + text;
      return true;
    }

    method DeliverEvents(state: ResponseDelivery, events: seq<E.Event>, lease: G.RuntimeLease)
      returns (thrown: Option<TurnError>)
      requires Holds(lease) && config.streaming && Streamed(state) && state.terminalError.None? && !state.discarded
      modifies this`trace, this`called, this`marked, this`offered, this`aborted, state
      ensures Raised(lease, thrown) && SameWrite() && V.Taken(config.setup, trace) == old(V.Taken(config.setup, trace))
      ensures state.finalized == old(state.finalized) && state.deliveryDeferred == old(state.deliveryDeferred)
      ensures Streamed(state)
      ensures state.accumulatedText <= old(state.accumulatedText) + E.TextOf(events)
      ensures state.terminalError.Some? <==> state.discarded
      ensures state.terminalError.Some? ==> IsResponseError(state.terminalError.value)
      ensures !state.discarded ==>
        thrown.None? && trace == old(trace) && state.accumulatedText == old(state.accumulatedText) + E.TextOf(events)
      ensures state.semanticCompleted ==> old(state.semanticCompleted) || E.Completed in events
      ensures old(state.semanticCompleted) ==> state.semanticCompleted
      ensures !state.discarded && E.Completed in events ==> state.semanticCompleted
    {
      hide W.Observe, V.Taken, ShownText, Holds, IsLost;
      ghost var start := state.accumulatedText;
      for i := 0 to |events|
        invariant Streamed(state) && state.terminalError.None? && !state.discarded
        invariant state.finalized == old(state.finalized) && state.deliveryDeferred == old(state.deliveryDeferred)
        invariant trace == old(trace) && marked == old(marked) && called == old(called) && (old(aborted) ==> aborted)
        invariant state.accumulatedText == start + E.TextOf(events[..i])
        invariant state.semanticCompleted == (old(state.semanticCompleted) || E.Completed in events[..i])
      {
        assert events[..i + 1][..i] == events[..i];
        E.TextOfPrefix(events[..i], events);
        if events[i].Completed? {
          state.semanticCompleted := true;
        } else {
          var delivered := DeliverText(state, events[i].text);
          if !delivered {
            thrown := FailResponse(state, lease, ResponseStreamFailed);
            return;
          }
        }
      }
      assert events[..|events|] == events;
      return None;
    }

    method TakeTurnResponseEvents() returns (events: seq<E.Event>)
      requires config.streaming
      modifies this`trace
      ensures V.Taken(config.setup, trace) == old(V.Taken(config.setup, trace)) + events
      ensures E.TextOf(V.Taken(config.setup, trace)) == old(E.TextOf(V.Taken(config.setup, trace))) + E.TextOf(events)
      ensures W.QueuedEvents(Observation()) == [] && W.Read(Observation()) == old(W.Read(Observation()))
      ensures SameWrite() && (old(V.NeverDiscarded(trace)) ==> V.NeverDiscarded(trace))
    {
      hide W.Step, W.NextHistory, W.Observe, W.HistoryOf, T.Queued;
      events := W.QueuedEvents(Observation());
      V.Take(config.setup, trace);
      V.NeverBack(config.setup, true, trace, [W.EventsTaken]);
      V.IsIdentified(config.setup, true, trace);
      E.TextOfConcat(V.Taken(config.setup, trace), events);
      trace := trace + [W.EventsTaken];
    }

    method DeliverNormalizedEvents(state: ResponseDelivery, lease: G.RuntimeLease) returns (thrown: Option<TurnError>)
      requires Holds(lease) && Delivering(state) && !state.discarded
      modifies this`trace, this`called, this`marked, this`offered, this`aborted, state
      ensures Raised(lease, thrown) && SameWrite() && ShownFaithfully()
      ensures thrown.None? ==>
        Delivering(state) && StaysDecided(state) && (state.discarded ==> state.terminalError.Some?)
      ensures !state.discarded ==>
        thrown.None? ==> W.QueuedEvents(Observation()) == [] && W.Read(Observation()) == old(W.Read(Observation()))
      ensures old(state.semanticCompleted) ==> state.semanticCompleted
    {
      hide W.Observe, W.HistoryOf, W.Read, W.QueuedEvents, V.Taken, E.TextOf;
      var error := Call(lease);
      if error == Some(GenerationChanged) { return Some(RuntimeGenerationChanged); }
      if error == Some(Disconnected) {
        thrown := FailClosed(lease);
        return;
      }
      if error.Some? {
        thrown := FailResponse(state, lease, ResponseStreamFailed);
        return;
      }
      var events := TakeTurnResponseEvents();
      thrown := DeliverEvents(state, events, lease);
    }

    lemma OpenResponseIsIncomplete(state: ResponseDelivery)
      requires Delivering(state) && !Observation().ambiguous && Observation().response.Some?
      requires !T.IsTerminal(Observation().response.value)
      ensures !state.semanticCompleted
    {
      if state.semanticCompleted { V.CompletedEventIsTerminal(config.setup, trace); }
    }

    method UpdateResponseDelivery(state: ResponseDelivery, snapshot: W.Snapshot, lease: G.RuntimeLease,
                                  callerCancelled: bool)
      returns (thrown: Option<TurnError>)
      requires Holds(lease) && Delivering(state)
      requires W.Read(Observation()) == Some(snapshot) && callerCancelled == aborted
      modifies this`trace, this`called, this`marked, this`offered, this`aborted, state
      ensures Raised(lease, thrown) && SameWrite() && ShownFaithfully()
      ensures thrown.None? ==> UpToDate(state) && StaysDecided(state)
      ensures callerCancelled && config.environment.callErrors(old(called)).None? ==> thrown.None?
    {
      hide W.Observe, W.HistoryOf, W.QueuedEvents, V.Taken, E.TextOf;
      if callerCancelled {
        thrown := DiscardResponse(state, lease, true);
        return;
      }
      if snapshot.response.None? {
        thrown := None;
        if state.terminalError.None? { thrown := FailResponse(state, lease, ResponseStreamUnavailable); }
        return;
      }
      var response := snapshot.response.value;
      if !state.discarded {
        thrown := DeliverNormalizedEvents(state, lease);
        if thrown.Some? { return; }
      }
      if response.lifecycle == T.Completed {
        state.semanticCompleted := true;
        return None;
      }
      if response.lifecycle == T.Failed && state.terminalError.None? {
        thrown := FailResponse(state, lease, ResponseErrorForFailure(response.failure));
        return;
      }
      if state.terminalError.None? { OpenResponseIsIncomplete(state); }
      return None;
    }

    method ApplyResponseDeadline(state: ResponseDelivery, lease: G.RuntimeLease, callerCancelled: bool,
                                 writeObservedAt: int, now: int)
      returns (thrown: Option<TurnError>)
      requires Holds(lease) && UpToDate(state) && ShownFaithfully() && (callerCancelled ==> aborted)
      modifies this`trace, this`called, this`marked, state`discarded, state`terminalError
      ensures Raised(lease, thrown) && SameWrite() && ShownFaithfully()
      ensures thrown.None? ==> UpToDate(state)
      ensures thrown.None? && !aborted && !state.semanticCompleted && state.terminalError.None? ==>
        now - writeObservedAt < config.responseCompletionTimeout
      ensures callerCancelled ==> thrown.None? && called == old(called)
    {
      hide W.Observe, W.HistoryOf, W.QueuedEvents, V.Taken, E.TextOf;
      if callerCancelled || state.semanticCompleted || state.terminalError.Some?
         || now - writeObservedAt < config.responseCompletionTimeout {
        return None;
      }
      thrown := FailResponse(state, lease, ResponseStreamFailed);
    }

    // -------------------------------------------------------------- the final events

    /** The accumulated text is the text of the whole answer. */
    ghost predicate HasWholeAnswer(state: ResponseDelivery)
      reads this`trace, this`offered, this`aborted, this`withheld, state
    {
      && Delivering(state) && state.semanticCompleted && state.terminalError.None?
      && state.accumulatedText == E.TextOf(V.Taken(config.setup, trace))
      && V.ReadsAs(config.setup, trace, V.Taken(config.setup, trace))
    }

    lemma UpToDateIsWhole(state: ResponseDelivery)
      requires UpToDate(state) && !aborted && state.terminalError.None? && state.semanticCompleted
      ensures HasWholeAnswer(state)
    {
      V.CompletedIsWhole(config.setup, trace);
    }

    /** Every event ever offered: in order, no text beyond the body's, the final text exact. */
    ghost predicate AnsweredFaithfully()
      reads this`trace, this`offered, this`withheld
    {
      var taken := V.Taken(config.setup, trace);
      && FollowsGrammar(offered)
      && ShownText(offered) <= E.TextOf(taken)
      && (forall i | 0 <= i < |offered| && offered[i].event.FinalText? ::
            V.ReadsAs(config.setup, trace, taken) && offered[i].event.text == E.TextOf(taken))
      && (withheld ==> WithheldUntilWhole())
    }

    /** Nothing is offered before the answer is whole; then the first event carries all of it. */
    ghost predicate WithheldUntilWhole()
      reads this`trace, this`offered
    {
      var taken := V.Taken(config.setup, trace);
      OpensWith(offered, E.TextOf(taken)) && (offered != [] ==> V.ReadsAs(config.setup, trace, taken))
    }

    lemma ShownIsAnswered()
      requires ShownFaithfully()
      ensures AnsweredFaithfully()
    {
      DeltasFollowGrammar(offered);
    }

    lemma DeltasAreAnswered()
      requires OnlyDeltas(offered) && StopsWhenRefused(offered) && (withheld ==> WithheldUntilWhole())
      requires ShownText(offered) <= E.TextOf(V.Taken(config.setup, trace))
      ensures AnsweredFaithfully()
    {
      hide WithheldUntilWhole;
      DeltasFollowGrammar(offered);
    }

    /** Every delta, FINAL_TEXT and COMPLETED were accepted, and they carry the text of the whole body. */
    ghost predicate ToldWholeAnswer()
      reads this`trace, this`offered
    {
      var text := E.TextOf(V.Taken(config.setup, trace));
      IsWholeAnswer(offered, text) && !IsBlank(text) && V.ReadsAs(config.setup, trace, V.Taken(config.setup, trace))
    }

    /** The registry holds one new provisional entry, or the same threads as before. */
    twostate predicate ReservedAtMost(project: Option<R.Locator>, new registration: Option<R.Registration>)
      reads registry
    {
      match registration
      case None => R.SameThreads(registry.Fields(), old(registry.Fields()))
        && (project.None? ==> registry.Fields() == old(registry.Fields()))
      case Some(r) =>
        && project.Some? && r.Registered? && r.created && r.transaction.Some?
        && R.Registering(registry.Fields(), r) == R.Reserve(registry.handleFactory, old(registry.Fields()),
          project.value)
    }

    method ReserveProjectConversation(locator: R.Locator, lease: G.RuntimeLease)
      returns (registration: R.Registration, thrown: Option<TurnError>)
      modifies this`marked, registry
      ensures Raised(lease, thrown)
      ensures thrown.None? ==>
        && R.Registering(registry.Fields(), registration) == R.Reserve(registry.handleFactory,
          old(registry.Fields()), locator)
        && registration.Registered? && registration.created && registration.transaction.Some?
      ensures thrown.Some? ==> R.SameThreads(registry.Fields(), old(registry.Fields()))
    {
      registration := registry.ReserveProvisionalWithStatus(locator);
      thrown := None;
      if !registration.Registered? || !registration.created { thrown := FailClosed(lease); }
    }

    /** `project`: the conversation to reserve between FINAL_TEXT and COMPLETED. */
    method FinalizeResponseDelivery(state: ResponseDelivery, project: Option<R.Locator>, lease: G.RuntimeLease)
      returns (finalized: bool, registration: Option<R.Registration>, thrown: Option<TurnError>)
      requires Delivering(state)
      requires state.semanticCompleted && state.terminalError.None? ==> HasWholeAnswer(state)
      modifies this`offered, this`aborted, this`marked, if project.Some? then {registry} else {}, state
      ensures Raised(lease, thrown) && AnsweredFaithfully() && (old(aborted) ==> aborted)
      ensures finalized ==> thrown.None? && state.terminalError.None?
      ensures finalized ==> ToldWholeAnswer()
      ensures !finalized && thrown.None? && old(state.semanticCompleted) ==>
        state.terminalError.Some? && IsResponseError(state.terminalError.value)
      ensures ReservedAtMost(project, registration)
      ensures finalized && project.Some? ==> registration.Some?
      ensures thrown.Some? ==> registration.None? && project.Some?
    {
      hide W.Observe, W.HistoryOf, W.QueuedEvents, V.Taken, V.ReadsAs, E.TextOf, ShownText;
      finalized, registration, thrown := false, None, None;
      if !state.semanticCompleted || state.terminalError.Some? {
        ShownEmptyText();
        ShownIsAnswered();
        return;
      }
      if IsBlank(state.accumulatedText) {
        ShownEmptyText();
        ShownIsAnswered();
        state.terminalError := Some(ResponseStreamFailed);
        return;
      }
      if state.deliveryDeferred {
        var shown := Tell(TextDelta(state.accumulatedText));
        ShownEmptyText();
        ShownAppend([], offered[0]);
        if !shown {
          DeltasAreAnswered();
          state.terminalError := Some(ResponseStreamFailed);
          return;
        }
        state.deliveryDeferred := false;
      }
      finalized, registration, thrown := ConcludeResponse(state, project, lease);
    }

    static lemma ShownEmptyText()
      ensures ShownText([]) == []
    {
    }

    method ConcludeResponse(state: ResponseDelivery, project: Option<R.Locator>, lease: G.RuntimeLease)
      returns (finalized: bool, registration: Option<R.Registration>, thrown: Option<TurnError>)
      requires OnlyDeltas(offered) && AllAccepted(offered) && ShownText(offered) == state.accumulatedText
      requires state.accumulatedText == E.TextOf(V.Taken(config.setup, trace)) && !IsBlank(state.accumulatedText)
      requires V.ReadsAs(config.setup, trace, V.Taken(config.setup, trace))
      requires state.terminalError.None?
      requires withheld ==> offered != [] && OpensWith(offered, state.accumulatedText)
      modifies this`offered, this`aborted, this`marked, if project.Some? then {registry} else {},
               state`terminalError, state`finalized
      ensures Raised(lease, thrown) && AnsweredFaithfully() && (old(aborted) ==> aborted)
      ensures finalized ==> thrown.None? && state.terminalError.None?
      ensures finalized ==> ToldWholeAnswer()
      ensures !finalized && thrown.None? ==> state.terminalError.Some? && IsResponseError(state.terminalError.value)
      ensures ReservedAtMost(project, registration)
      ensures finalized && project.Some? ==> registration.Some?
      ensures thrown.Some? ==> registration.None? && project.Some?
    {
      hide W.Observe, W.HistoryOf, V.Taken, V.ReadsAs, E.TextOf, ShownText, OpensWith, AnsweredFaithfully,
           ToldWholeAnswer, R.Reserve;
      ghost var deltas, text := offered, state.accumulatedText;
      finalized, registration, thrown := false, None, None;
      var shown := Tell(FinalText(state.accumulatedText));
      ghost var final := offered[|deltas|];
      EndIsAnswered(deltas, text, [final]);
      if !shown {
        state.terminalError := Some(ResponseStreamFailed);
        return;
      }
      if project.Some? {
        if aborted {
          thrown := FailClosed(lease);
          return;
        }
        var reserved;
        reserved, thrown := ReserveProjectConversation(project.value, lease);
        if thrown.Some? { return; }
        registration := Some(reserved);
      }
      shown := Tell(TurnEvent.Completed);
      assert offered == deltas + [final, offered[|deltas| + 1]];
      EndIsAnswered(deltas, text, [final, offered[|deltas| + 1]]);
      if !shown {
        state.terminalError := Some(ResponseStreamFailed);
        return;
      }
      state.finalized := true;
      finalized := true;
    }

    /** FINAL_TEXT and COMPLETED after all deltas of a whole answer. */
    lemma EndIsAnswered(deltas: seq<Offer>, text: Text, tail: seq<Offer>)
      requires OnlyDeltas(deltas) && AllAccepted(deltas) && ShownText(deltas) == text
      requires text == E.TextOf(V.Taken(config.setup, trace))
      requires V.ReadsAs(config.setup, trace, V.Taken(config.setup, trace))
      requires withheld ==> deltas != [] && OpensWith(deltas, text)
      requires offered == deltas + tail && 1 <= |tail| <= 2 && tail[0].event == FinalText(text)
      requires |tail| == 2 ==> tail[0].accepted && tail[1].event == TurnEvent.Completed
      ensures AnsweredFaithfully()
      ensures |tail| == 2 && tail[1].accepted && !IsBlank(text) ==> ToldWholeAnswer()
    {
      hide W.HistoryOf, V.Taken, V.ReadsAs, E.TextOf, ShownText, FollowsGrammar, IsWholeAnswer, OpensWith;
      if |tail| == 1 {
        assert tail == [tail[0]];
        Concluding(deltas, text, tail[0], Offer(TurnEvent.Completed, true));
      } else {
        assert tail == [tail[0], tail[1]];
        Concluding(deltas, text, tail[0], tail[1]);
      }
      if withheld { StillOpensWith(deltas, tail, text); }
    }

    // -------------------------------------------------------------- polling

    /** Delivery between two polls; nothing is offered without a listener. */
    ghost predicate Presented(state: ResponseDelivery?)
      reads this`trace, this`offered, this`aborted, this`withheld, state
    {
      && (config.streaming <==> state != null)
      && (if state != null then Delivering(state) else offered == [])
    }

    /** What may be said of the offered events however the turn ends. */
    ghost predicate Answered()
      reads this`trace, this`offered, this`withheld
    {
      if config.streaming then AnsweredFaithfully() else offered == []
    }

    lemma PresentedIsAnswered(state: ResponseDelivery?)
      requires Presented(state)
      ensures Answered()
    {
      if state != null {
        ShownEmptyText();
        ShownIsAnswered();
      }
    }

    twostate lemma TimeKeepsDelivery(state: ResponseDelivery?)
      requires old(Presented(state)) && OnlyTimePassed() && (state != null ==> unchanged(state))
      ensures Presented(state)
    {
      if state != null {
        var more := trace[|old(trace)|..];
        assert trace == old(trace) + more;
        V.TakenOnlyByTaking(config.setup, old(trace), more);
      }
    }

    /** The locals of the polling loop agree with what the polls have seen. */
    ghost predicate Waiting(state: ResponseDelivery?, wait: Wait)
      reads this, state
    {
      && Presented(state)
      && (wait.callerCancelled ==> aborted)
      && wait.writeObservedAt == FirstSight(polls)
      && (wait.writeObservedAt.Some? <==> wait.previousLifecycle.Some?)
      && (wait.previousLifecycle.Some? ==> Observation().lifecycle.Some?)
      && (wait.previousLifecycle == Some(W.Finished) ==> Observation().lifecycle == Some(W.Finished))
      && wait.previousLifecycle != Some(W.Failed)
      && Paced(config, wait.committedAt, polls)
      && (polls != [] ==> InTime(config, wait.committedAt, polls))
      && (wait.freshLocator.Some? ==> wait.writeObservedAt.Some?)
    }

    /** The clock has moved on since the last poll. */
    ghost predicate Slept()
      reads this`polls, this`clock
    {
      polls != [] ==> polls[|polls| - 1].now < clock
    }

    /** What an error thrown after the submission says, when it is not one of the two abrupt ones. */
    ghost predicate IsWarranted(error: TurnError)
      reads this`trace, this`aborted, this`polls, this`clock
    {
      match error
      case OperationAborted => aborted
      case TurnWriteFailed => Observation().lifecycle == Some(W.Failed)
      case FreshConversationNotCreated =>
        Observation().lifecycle == Some(W.Finished)
        && FirstSight(polls).Some? && clock - FirstSight(polls).value >= config.freshConversationTimeout
      case TurnInputFailed => false
      case CdpDisconnected => false
      case _ => IsResponseError(error) ==> config.streaming && Observation().lifecycle == Some(W.Finished)
    }

    /** How the turn may end with an error: the page is decided, or fenced off, or gone. */
    ghost predicate Ends(before: seq<G.RuntimeLease>, lease: G.RuntimeLease, target: Target, error: TurnError)
      reads this
    {
      && marked == before + (if error.TurnStateUncertain? then [lease] else [])
      && (error.RuntimeGenerationChanged? ==> IsLost(lease))
      && (error.TurnStateUncertain? || error.RuntimeGenerationChanged?
          || (!target.Project? && W.WriteSettled(Observation()) && IsWarranted(error)))
    }

    method ThrowWriteFailed(target: Target, lease: G.RuntimeLease) returns (error: TurnError)
      requires Observation().lifecycle == Some(W.Failed)
      modifies this`marked
      ensures Ends(old(marked), lease, target, error) && !IsLateError(error)
    {
      if target.Project? {
        var _ := FailClosed(lease);
        return TurnStateUncertain;
      }
      return TurnWriteFailed;
    }

    /** The snapshot, and the response brought up to date with it. */
    method PollSnapshot(lease: G.RuntimeLease, state: ResponseDelivery?)
      returns (write: Option<W.WriteLifecycle>, thrown: Option<TurnError>)
      requires Holds(lease) && Presented(state)
      modifies this`trace, this`called, this`marked, this`offered, this`aborted, state
      ensures Raised(lease, thrown) && Answered() && SameWrite()
      ensures thrown.None? ==> Presented(state) && (state != null ==> UpToDate(state)) && StaysDecided(state)
      ensures thrown.None? ==> write == Observation().lifecycle && !Observation().ambiguous
      ensures old(aborted) && !old(Observation()).ambiguous && NoCallFails() ==> thrown.None?
    {
      write := None;
      var snapshot;
      snapshot, thrown := ReadTurnObservation(lease);
      PresentedIsAnswered(state);
      V.IsIdentified(config.setup, config.streaming, trace);
      if thrown.Some? { return; }
      write := snapshot.value.write;
      if state != null {
        thrown := UpdateResponseDelivery(state, snapshot.value, lease, aborted);
        ShownIsAnswered();
      }
    }

    ghost predicate NoCallFails() {
      forall k :: config.environment.callErrors(k).None?
    }

    /** A poll that goes on: the snapshot showed `write`, and no deadline has passed. */
    ghost predicate Undecided(state: ResponseDelivery?, write: W.WriteLifecycle, seen: int, now: int)
      reads this`trace, this`offered, this`aborted, this`withheld, state
    {
      && Presented(state) && (state != null ==> UpToDate(state))
      && Observation().lifecycle == Some(write) && write != W.Failed
      && (write == W.Active ==> now - seen < config.writeSettlementTimeout)
      && (state != null && !aborted && !state.semanticCompleted && state.terminalError.None? ==>
            now - seen < config.responseCompletionTimeout)
    }

    /** What the first half of a poll leaves behind when the turn goes on. */
    ghost predicate Polled(state: ResponseDelivery?, wait: Wait, next: Wait, write: Option<W.WriteLifecycle>)
      reads this, state
    {
      && next == wait.(callerCancelled := aborted, previousLifecycle := write, writeObservedAt := FirstSight(polls))
      && (write.Some? <==> next.writeObservedAt.Some?)
      && (if write.Some? then Undecided(state, write.value, next.writeObservedAt.value, clock)
          else
            && Presented(state) && Observation().lifecycle.None? && polls != []
            && InTime(config, wait.committedAt, polls))
    }

    /** The caller has aborted and the write is in flight when polling starts; no call of the session fails. */
    ghost predicate StartsAbandoned(o: W.Observation, wait: Wait)
      reads this`aborted
    {
      && aborted && NoCallFails() && !o.ambiguous && o.lifecycle == Some(W.Active)
      && wait.writeObservedAt.None? && config.writeSettlementTimeout > 0
    }

    /** The first half of a poll: snapshot, delivery, deadlines; `write` is what the snapshot showed. */
    method PollWrite(target: Target, lease: G.RuntimeLease, state: ResponseDelivery?, wait: Wait)
      returns (next: Wait, write: Option<W.WriteLifecycle>, exit: Option<TurnError>)
      requires Holds(lease) && Waiting(state, wait) && Slept() && !Abandons(config, target, polls) && Logged()
      modifies this`trace, this`called, this`marked, this`offered, this`aborted, this`polls, state
      ensures Answered() && Paced(config, wait.committedAt, polls)
      ensures exit.Some? ==>
        Ends(old(marked), lease, target, exit.value) && !IsLateError(exit.value) && !Abandons(config, target, polls)
      ensures exit.None? ==>
        OneMorePoll(old(polls), write, wait.callerCancelled || old(aborted)) && marked == old(marked)
      ensures exit.Some? ==> polls == old(polls) || OneMorePoll(old(polls), write, wait.callerCancelled || old(aborted))
      ensures MovesOn() && clock == old(clock) && Logged()
      ensures exit.None? && wait.writeObservedAt.Some? ==> next.writeObservedAt == wait.writeObservedAt
      ensures exit.None? ==> Polled(state, wait, next, write)
      ensures old(StartsAbandoned(Observation(), wait)) ==> exit.None? && write == Some(W.Active)
    {
      hide W.Observe, UpToDate, Answered, Presented, Undecided, FirstSight, Paced, InTime, Abandons, Logged,
           LoggedAt, Slept, Delivering, Holds, IsLost, IsDead, AnsweredFaithfully, IsWarranted, V.Taken, E.TextOf;
      var callerCancelled := wait.callerCancelled || aborted;
      next := wait;
      exit := None;
      var now := clock;
      write, exit := PollSnapshot(lease, state);
      StaysLogged();
      if exit.Some? { return; }
      ghost var before := polls;
      RecordPoll(wait, write, callerCancelled);
      // The listener may have aborted the signal while it was told the new events.
      next := wait.(callerCancelled := aborted);
      label recorded:
      if write.None? {
        assert polls == before + [polls[|before|]];
        UnseenIsKept(config, target, before, polls[|before|]);
        exit := PollUnseen(lease, next, before);
        return;
      }
      next, exit := PollSeen(target, lease, state, write.value, next, callerCancelled);
      StaysLogged@recorded();
    }

    /** The log has one more poll, of just now. */
    ghost predicate OneMorePoll(before: seq<Poll>, write: Option<W.WriteLifecycle>, cancelled: bool)
      reads this`polls, this`clock
    {
      && |polls| == |before| + 1 && polls[..|before|] == before
      && var last := polls[|before|]; last.now == clock && last.write == write && last.cancelled == cancelled
    }

    /** A logged poll was taken in the past, of the history as it was then, and knows of an abort only by the caller. */
    ghost predicate LoggedAt(poll: Poll)
      reads this`trace, this`clock, this`aborted
    {
      && poll.seen <= |trace| && poll.write == W.Observe(config.setup, config.streaming, trace[..poll.seen]).lifecycle
      && poll.now <= clock && (poll.cancelled ==> aborted)
    }

    ghost predicate Logged()
      reads this`trace, this`polls, this`clock, this`aborted
    {
      forall k | 0 <= k < |polls| :: LoggedAt(polls[k])
    }

    twostate lemma StaysLogged()
      requires old(Logged()) && MovesOn() && polls == old(polls)
      ensures Logged()
    {
      forall k | 0 <= k < |polls| ensures LoggedAt(polls[k]) {
        assert old(LoggedAt(polls[k]));
        assert trace[..polls[k].seen] == old(trace)[..polls[k].seen];
      }
    }

    ghost method RecordPoll(wait: Wait, write: Option<W.WriteLifecycle>, cancelled: bool)
      requires Logged() && (cancelled ==> aborted) && write == Observation().lifecycle
      requires Slept() && wait.writeObservedAt == FirstSight(polls) && Paced(config, wait.committedAt, polls)
      requires polls != [] ==> InTime(config, wait.committedAt, polls)
      requires wait.writeObservedAt.Some? <==> wait.previousLifecycle.Some?
      requires wait.previousLifecycle.Some? ==> write.Some? && wait.previousLifecycle != Some(W.Failed)
      requires wait.previousLifecycle == Some(W.Finished) ==> write == Some(W.Finished)
      modifies this`polls
      ensures OneMorePoll(old(polls), write, cancelled) && Paced(config, wait.committedAt, polls) && Logged()
      ensures write.None? ==> wait.writeObservedAt.None?
      ensures write.Some? ==>
        FirstSight(polls)
          == (if wait.writeObservedAt.None? || (wait.previousLifecycle != Some(W.Active) && write == Some(W.Active))
              then Some(clock) else wait.writeObservedAt)
      ensures wait.writeObservedAt.Some? ==> FirstSight(polls) == wait.writeObservedAt
    {
      hide W.Observe, V.Taken, FirstSight, Paced, InTime;
      var poll := Poll(clock, write, cancelled, |trace|);
      assert trace[..|trace|] == trace;
      PacedNext(config, wait.committedAt, polls, poll);
      SightSnoc(polls, poll);
      assert wait.previousLifecycle.Some? ==>
        wait.previousLifecycle.value.Active? || wait.previousLifecycle.value.Finished?;
      if write.Some? { SightIsSetOnce(wait, polls, poll); }
      polls := polls + [poll];
    }

    method PollUnseen(lease: G.RuntimeLease, wait: Wait, ghost before: seq<Poll>) returns (exit: Option<TurnError>)
      requires wait.writeObservedAt == FirstSight(before) && wait.writeObservedAt.None?
      requires polls != [] && OneMorePoll(before, None, polls[|polls| - 1].cancelled)
      modifies this`marked
      ensures Raised(lease, exit)
      ensures exit.None? ==> FirstSight(polls).None? && InTime(config, wait.committedAt, polls)
    {
      if clock - wait.committedAt >= config.writeObservationTimeout {
        exit := FailClosed(lease);
        return;
      }
      assert polls == before + [polls[|before|]];
      NotYetSeen(config, wait, before, polls[|before|]);
      return None;
    }

    /** `callerCancelled`: what the poll knew of the signal when it began. */
    method PollSeen(target: Target, lease: G.RuntimeLease, state: ResponseDelivery?, write: W.WriteLifecycle,
                    wait: Wait, callerCancelled: bool)
      returns (next: Wait, exit: Option<TurnError>)
      requires Holds(lease) && Answered() && Presented(state) && (state != null ==> UpToDate(state))
      requires Observation().lifecycle == Some(write) && (callerCancelled ==> aborted)
      requires polls != [] && OneMorePoll(polls[..|polls| - 1], Some(write), callerCancelled)
      requires FirstSight(polls)
            == (if wait.writeObservedAt.None? || (wait.previousLifecycle != Some(W.Active) && write == W.Active)
                then Some(clock) else wait.writeObservedAt)
      modifies this`trace, this`called, this`marked, state
      ensures Answered() && old(trace) <= trace
      ensures next == wait.(previousLifecycle := Some(write), writeObservedAt := FirstSight(polls))
      ensures exit.Some? ==>
        Ends(old(marked), lease, target, exit.value) && !IsLateError(exit.value) && !Abandons(config, target, polls)
      ensures exit.Some? ==>
        !callerCancelled || write == W.Failed || clock - FirstSight(polls).value >= config.writeSettlementTimeout
      ensures exit.None? ==> marked == old(marked) && Undecided(state, write, FirstSight(polls).value, clock)
    {
      hide W.Observe, UpToDate, Answered, Presented, Undecided, FirstSight;
      var now := clock;
      next := wait;
      if wait.writeObservedAt.None? || (wait.previousLifecycle != Some(W.Active) && write == W.Active) {
        next := next.(writeObservedAt := Some(now));
      }
      next := next.(previousLifecycle := Some(write));
      exit := PollDeadlines(target, lease, state, write, next, now, callerCancelled);
    }

    method PollDeadlines(target: Target, lease: G.RuntimeLease, state: ResponseDelivery?, write: W.WriteLifecycle,
                         wait: Wait, now: int,
                         callerCancelled: bool)
      returns (exit: Option<TurnError>)
      requires Holds(lease) && Answered() && Presented(state) && (state != null ==> UpToDate(state))
      requires wait.writeObservedAt.Some? && Observation().lifecycle == Some(write) && (callerCancelled ==> aborted)
      modifies this`trace, this`called, this`marked, state
      ensures Answered() && old(trace) <= trace
      ensures exit.Some? ==> Ends(old(marked), lease, target, exit.value) && !IsLateError(exit.value)
      ensures exit.Some? ==>
        !callerCancelled || write == W.Failed || now - wait.writeObservedAt.value >= config.writeSettlementTimeout
      ensures exit.None? ==> marked == old(marked) && Undecided(state, write, wait.writeObservedAt.value, now)
    {
      hide Logged, Holds, IsLost, IsDead, W.Observe, V.Taken, E.TextOf, AnsweredFaithfully;
      exit := None;
      if state != null {
        PresentedShown(state);
        exit := ApplyResponseDeadline(state, lease, callerCancelled, wait.writeObservedAt.value, now);
        ShownIsAnswered();
        if exit.Some? { return; }
      }
      if write == W.Active {
        if now - wait.writeObservedAt.value >= config.writeSettlementTimeout { exit := FailClosed(lease); }
      } else if write == W.Failed {
        var error := ThrowWriteFailed(target, lease);
        exit := Some(error);
      }
    }

    lemma PresentedShown(state: ResponseDelivery)
      requires Delivering(state)
      ensures ShownFaithfully()
    {
      ShownEmptyText();
    }

    // -------------------------------------------------------------- how a turn ends

    predicate Belongs(target: Target, locator: R.Locator) {
      match target
      case Thread(_) => false
      case Fresh => config.isUnscoped(locator)
      case Project(project) => config.belongsToProject(locator, project)
    }

    /** What a turn may leave behind. */
    ghost function Kept(): Records
      reads this`marked, this`pendingProjectCompletions, this`completions, registry
    {
      Turns.Records(registry.Fields(), marked, pendingProjectCompletions, completions)
    }

    /** The page has shown this conversation during a suspension, and the turn may have created it. */
    ghost predicate WasShown(target: Target, locator: R.Locator)
      reads this`suspended
    {
      Belongs(target, locator) && exists k: nat :: k < suspended && config.environment.conversations(k) == Some(locator)
    }

    /** The registry after a direct registration of a conversation of this turn. */
    ghost predicate Registered(before: R.Registry, target: Target, result: R.Registration)
      reads registry, this`suspended
    {
      exists locator: R.Locator :: WasShown(target, locator)
        && R.Registering(registry.Fields(), result) == R.RegisterWithStatus(registry.handleFactory, before, locator)
    }

    /** A Project turn with a listener leaves one provisional entry whose settlement is pending. */
    ghost predicate LeftPending(before: Records, lease: G.RuntimeLease, target: Target, result: TurnResult)
      reads this`pendingProjectCompletions, this`suspended, registry
    {
      exists locator: R.Locator, token: R.Token :: WasShown(target, locator)
        && R.Registering(registry.Fields(), R.Registered(result.handle, true, Some(token)))
           == R.Reserve(registry.handleFactory, before.registry, locator)
        && result.created && result.completion == Some(before.completions)
        && pendingProjectCompletions == before.pending[before.completions := PendingProjectCompletion(lease, token)]
    }

    /** What a returned result says of the registry. */
    ghost predicate ReturnsThread(before: Records, lease: G.RuntimeLease, target: Target, result: TurnResult)
      reads this`pendingProjectCompletions, this`suspended, registry
    {
      match target
      case Thread(handle) =>
        result == TurnResult(handle, false, None) && registry.Fields() == before.registry
        && pendingProjectCompletions == before.pending
      case Fresh =>
        result.completion.None?
          && Registered(before.registry, target, R.Registered(result.handle, result.created, None))
        && pendingProjectCompletions == before.pending
      case Project(_) =>
        if config.streaming then LeftPending(before, lease, target, result)
        else
          result.completion.None? && result.created
          && Registered(before.registry, target, R.Registered(result.handle, true, None))
          && pendingProjectCompletions == before.pending
    }

    /** What a thrown error says of the registry; a response error of a fresh turn comes after its registration. */
    ghost predicate ThrowLeaves(before: Records, target: Target, error: TurnError)
      reads this`pendingProjectCompletions, this`suspended, registry
    {
      && pendingProjectCompletions == before.pending
      && (target.Thread? ==> registry.Fields() == before.registry)
      && (target.Project? ==> R.SameThreads(registry.Fields(), before.registry))
      && (target.Fresh? ==>
            if IsResponseError(error) then exists r :: Registered(before.registry, target, r) && r.Registered?
            else R.SameThreads(registry.Fields(), before.registry))
      && (error.ThreadNotFound? ==> target.Fresh? && Registered(before.registry, target, R.ThreadNotFound))
      && (error.ThreadHandleCollision? ==> target.Fresh? && Registered(before.registry, target, R.HandleCollision))
    }

    /** The end of a committed turn. */
    ghost predicate Concludes(before: Records, lease: G.RuntimeLease, target: Target, outcome: Outcome)
      reads this, registry
    {
      match outcome
      case Threw(error) => Ends(before.marked, lease, target, error) && ThrowLeaves(before, target, error)
      case Returned(result) =>
        && marked == before.marked && Observation().lifecycle == Some(W.Finished)
        && (config.streaming ==> ToldWholeAnswer())
        && ReturnsThread(before, lease, target, result)
    }

    /** A stale lease or a mark ends any turn whose threads are as they were. */
    lemma AbruptEnd(before: Records, lease: G.RuntimeLease, target: Target, thrown: TurnError)
      requires (thrown.RuntimeGenerationChanged? && marked == before.marked && IsLost(lease))
               || (thrown.TurnStateUncertain? && marked == before.marked + [lease])
      requires R.SameThreads(registry.Fields(), before.registry)
      requires (target.Thread? ==> registry.Fields() == before.registry)
      requires pendingProjectCompletions == before.pending
      ensures Concludes(before, lease, target, Threw(thrown))
    {
    }

    /** Finalization without a registration of its own: it ends the delivery, one way or the other. */
    method FinalizeOrFail(state: ResponseDelivery, lease: G.RuntimeLease) returns (failure: Option<TurnError>)
      requires HasWholeAnswer(state)
      modifies this`offered, this`aborted, this`marked, state
      ensures Answered() && marked == old(marked) && (old(aborted) ==> aborted)
      ensures failure.None? ==> ToldWholeAnswer()
      ensures failure.Some? ==> IsResponseError(failure.value)
    {
      hide W.Observe, V.Taken, E.TextOf, ShownText, FollowsGrammar, IsWholeAnswer;
      var finalized, _, _ := FinalizeResponseDelivery(state, None, lease);
      failure := state.terminalError;
      assert finalized || failure.Some?;
    }

    method ConcludeThread(target: Target, lease: G.RuntimeLease, state: ResponseDelivery?, wait: Wait)
      returns (outcome: Option<Outcome>)
      requires Holds(lease) && target.Thread? && wait.callerCancelled == aborted && wait.writeObservedAt.Some?
      requires Answered() && Undecided(state, W.Finished, wait.writeObservedAt.value, clock)
      modifies this`offered, this`aborted, this`marked, state
      ensures Answered() && (old(aborted) ==> aborted)
      ensures outcome.Some? ==> Concludes(old(Kept()), lease, target, outcome.value)
      ensures outcome.None? ==>
        && registry.Fields() == old(registry.Fields()) && marked == old(marked)
        && Undecided(state, W.Finished, wait.writeObservedAt.value, clock)
        && clock - wait.writeObservedAt.value < config.responseCompletionTimeout
    {
      hide W.Observe, V.Taken, E.TextOf, ShownText, AnsweredFaithfully, ToldWholeAnswer, LeftPending, Registered,
           R.SameThreads, Answered, HasWholeAnswer, Holds;
      if wait.callerCancelled { return Some(Threw(OperationAborted)); }
      if state != null {
        if state.terminalError.Some? { return Some(Threw(state.terminalError.value)); }
        if !state.semanticCompleted { return None; }
        UpToDateIsWhole(state);
        var failure := FinalizeOrFail(state, lease);
        if failure.Some? { return Some(Threw(failure.value)); }
      }
      return Some(Returned(TurnResult(target.handle, false, None)));
    }

    function Relevant(target: Target, locator: Option<R.Locator>): Option<R.Locator> {
      if locator.Some? && Belongs(target, locator.value) then locator else None
    }

    /** The conversation the page shows, if it is one this turn may have created. */
    method GetCurrentConversationLocator(target: Target, lease: G.RuntimeLease, state: ResponseDelivery?)
      returns (locator: Option<R.Locator>, error: Option<CallError>)
      requires Holds(lease) && Presented(state)
      modifies this`trace, this`clock, this`aborted, this`runtime, this`suspended
      ensures Holds(lease) && OnlyTimePassed() && Presented(state)
      ensures error == Some(GenerationChanged) ==> IsLost(lease)
      ensures error.Some? ==> locator.None?
      ensures error.None? ==> locator == Relevant(target, config.environment.conversations(old(suspended)))
      ensures locator.Some? ==> WasShown(target, locator.value)
    {
      hide W.Observe, V.Taken, E.TextOf, ShownText;
      var call := suspended;
      error := Suspend(lease);
      TimeKeepsDelivery(state);
      locator := None;
      if error.None? { locator := config.environment.conversations(call); }
      if locator.Some? && !Belongs(target, locator.value) { locator := None; }
    }

    /** First half of the route check: look for the new conversation, then read the write again. */
    method ObserveRoute(target: Target, lease: G.RuntimeLease, state: ResponseDelivery?, wait: Wait,
                        write: W.WriteLifecycle)
      returns (next: Wait, settled: bool, exit: Option<TurnError>)
      requires Holds(lease) && !target.Thread? && wait.freshLocator.None?
      requires Presented(state) && Answered() && Observation().lifecycle == Some(write) && write != W.Failed
      modifies this`trace, this`clock, this`aborted, this`runtime, this`suspended, this`called, this`marked,
               this`offered, state
      ensures Holds(lease) && Answered() && MovesOn() && Took(1)
      ensures next == wait.(freshLocator := next.freshLocator)
      ensures next.freshLocator.Some? ==> WasShown(target, next.freshLocator.value)
      ensures exit.Some? ==> Ends(old(marked), lease, target, exit.value) && !IsLateError(exit.value)
      ensures exit.None? ==>
        && marked == old(marked) && Presented(state) && StaysDecided(state) && (state != null ==> UpToDate(state))
        && Observation().lifecycle == Some(if settled then W.Finished else W.Active)
        && (write == W.Finished ==> settled)
    {
      hide W.Observe, V.Taken, E.TextOf, ShownText, AnsweredFaithfully, Logged, Holds, IsLost, IsDead, Presented,
           UpToDate, WasShown, Answered, Delivering;
      next, settled, exit := wait, false, None;
      var locator, error := GetCurrentConversationLocator(target, lease, state);
      PresentedIsAnswered(state);
      if error == Some(GenerationChanged) { return next, settled, Some(RuntimeGenerationChanged); }
      if error == Some(Disconnected) && write == W.Active {
        exit := FailClosed(lease);
        return;
      }
      next := wait.(freshLocator := locator);
      var afterRoute;
      afterRoute, exit := PollSnapshot(lease, state);
      if exit.Some? { return; }
      // The write was seen before, so it is still there.
      assert afterRoute.Some? && (afterRoute.value.Active? || afterRoute.value.Finished? || afterRoute.value.Failed?);
      if afterRoute == Some(W.Failed) {
        var failed := ThrowWriteFailed(target, lease);
        return next, settled, Some(failed);
      }
      settled := afterRoute == Some(W.Finished);
    }

    /** The registration of a conversation whose delivery was refused at its very end is undone. */
    method UndoReservation(registration: Option<R.Registration>, ghost before: R.Registry, ghost locator: R.Locator)
      requires R.Consistent(before)
      requires match registration
        case None => R.SameThreads(registry.Fields(), before)
        case Some(r) =>
          && r.Registered? && r.created
          && R.Registering(registry.Fields(), r) == R.Reserve(registry.handleFactory, before, locator)
      modifies registry
      ensures R.SameThreads(registry.Fields(), before)
    {
      hide R.Consistent;
      R.ReserveThenRollback(registry.handleFactory, before, locator);
      if registration.Some? && registration.value.transaction.Some? {
        var _ := registry.RollbackProvisional(registration.value.transaction.value);
      }
    }

    method CreatePendingProjectResult(registration: R.Registration, target: Target, lease: G.RuntimeLease,
                                      ghost locator: R.Locator)
      returns (result: TurnResult)
      requires registration.Registered? && registration.created && registration.transaction.Some?
      modifies this`pendingProjectCompletions, this`completions
      ensures result == TurnResult(registration.handle, true, Some(old(completions)))
      ensures pendingProjectCompletions
           == old(pendingProjectCompletions)[old(completions) := PendingProjectCompletion(lease,
             registration.transaction.value)]
    {
      result := TurnResult(registration.handle, true, Some(completions));
      pendingProjectCompletions :=
        pendingProjectCompletions[completions := PendingProjectCompletion(lease, registration.transaction.value)];
      completions := completions + 1;
    }

    /** The conversation is confirmed and the response is decided: register, deliver, return. */
    method ConcludeProject(target: Target, lease: G.RuntimeLease, state: ResponseDelivery?, locator: R.Locator)
      returns (outcome: Outcome)
      requires Holds(lease) && target.Project? && WasShown(target, locator) && R.Consistent(registry.Fields())
      requires Answered() && Presented(state) && Observation().lifecycle == Some(W.Finished)
      requires state != null && state.terminalError.None? ==> HasWholeAnswer(state)
      modifies this`offered, this`aborted, this`marked, this`pendingProjectCompletions, this`completions, registry,
               state
      ensures Answered() && Concludes(old(Kept()), lease, target, outcome)
    {
      hide W.Observe, V.Taken, E.TextOf, ShownText, FollowsGrammar, IsWholeAnswer, R.Consistent;
      if registry.HasLocator(locator) || (state != null && state.terminalError.Some?) {
        var _ := FailClosed(lease);
        return Threw(TurnStateUncertain);
      }
      if state != null {
        outcome := ConcludeStreamedProject(target, lease, state, locator);
        return;
      }
      var registration := registry.RegisterWithStatus(locator);
      if !registration.Registered? || !registration.created {
        var _ := FailClosed(lease);
        return Threw(TurnStateUncertain);
      }
      return Returned(TurnResult(registration.handle, true, None));
    }

    method ConcludeStreamedProject(target: Target, lease: G.RuntimeLease, state: ResponseDelivery, locator: R.Locator)
      returns (outcome: Outcome)
      requires Holds(lease) && target.Project? && WasShown(target, locator) && R.Consistent(registry.Fields())
      requires Observation().lifecycle == Some(W.Finished) && HasWholeAnswer(state)
      modifies this`offered, this`aborted, this`marked, this`pendingProjectCompletions, this`completions, registry,
               state
      ensures Answered() && Concludes(old(Kept()), lease, target, outcome)
    {
      hide W.Observe, Concludes, HasWholeAnswer, ToldWholeAnswer, AnsweredFaithfully, R.Consistent, R.Reserve,
           R.SameThreads;
      HasListener(state);
      var finalized, registration, thrown := FinalizeResponseDelivery(state, Some(locator), lease);
      if thrown.Some? {
        AbruptEnd(old(Kept()), lease, target, thrown.value);
        return Threw(thrown.value);
      }
      if state.terminalError.Some? {
        UndoReservation(registration, old(registry.Fields()), locator);
        var _ := FailClosed(lease);
        AbruptEnd(old(Kept()), lease, target, TurnStateUncertain);
        return Threw(TurnStateUncertain);
      }
      var result := CreatePendingProjectResult(registration.value, target, lease, locator);
      PendingEnd(old(Kept()), lease, target, result, locator, registration.value);
      return Returned(result);
    }

    lemma HasListener(state: ResponseDelivery)
      requires HasWholeAnswer(state)
      ensures config.streaming && Delivering(state) && state.semanticCompleted
    {
    }

    lemma PendingEnd(before: Records, lease: G.RuntimeLease, target: Target, result: TurnResult, locator: R.Locator,
                     registration: R.Registration)
      requires target.Project? && WasShown(target, locator) && config.streaming && ToldWholeAnswer()
      requires Observation().lifecycle == Some(W.Finished) && marked == before.marked
      requires registration.Registered? && registration.created && registration.transaction.Some?
      requires R.Registering(registry.Fields(), registration) == R.Reserve(registry.handleFactory, before.registry,
        locator)
      requires result == TurnResult(registration.handle, true, Some(before.completions))
      requires pendingProjectCompletions
            == before.pending[before.completions := PendingProjectCompletion(lease, registration.transaction.value)]
      ensures Concludes(before, lease, target, Returned(result))
    {
      hide W.Observe, R.Reserve, WasShown, ToldWholeAnswer;
    }

    method DeliverOrFail(state: ResponseDelivery?, lease: G.RuntimeLease) returns (failure: Option<TurnError>)
      requires Answered() && Presented(state)
      requires state != null && state.terminalError.None? ==> HasWholeAnswer(state)
      modifies this`offered, this`aborted, this`marked, state
      ensures Answered() && marked == old(marked) && (old(aborted) ==> aborted)
      ensures failure.None? && config.streaming ==> ToldWholeAnswer()
      ensures failure.Some? ==> IsResponseError(failure.value) && config.streaming
    {
      hide W.Observe, V.Taken, E.TextOf, ShownText, FollowsGrammar, IsWholeAnswer;
      if state == null { return None; }
      if state.terminalError.Some? { return state.terminalError; }
      failure := FinalizeOrFail(state, lease);
    }

    method RegisterFresh(target: Target, locator: R.Locator) returns (registration: R.Registration)
      requires WasShown(target, locator)
      modifies registry
      ensures Registered(old(registry.Fields()), target, registration)
      ensures !registration.Registered? ==> R.SameThreads(registry.Fields(), old(registry.Fields()))
      ensures registration.Registered? ==> registration.transaction.None?
    {
      registration := registry.RegisterWithStatus(locator);
    }

    method ConcludeFresh(target: Target, lease: G.RuntimeLease, state: ResponseDelivery?, locator: R.Locator)
      returns (outcome: Outcome)
      requires Holds(lease) && target.Fresh? && WasShown(target, locator)
      requires Answered() && Presented(state) && Observation().lifecycle == Some(W.Finished)
      requires state != null && state.terminalError.None? ==> HasWholeAnswer(state)
      modifies this`offered, this`aborted, this`marked, registry, state
      ensures Answered() && Concludes(old(Kept()), lease, target, outcome)
    {
      hide W.Observe, Presented, Answered, Delivering, WasShown, R.SameThreads, R.RegisterWithStatus, ToldWholeAnswer,
           HasWholeAnswer, LeftPending, Holds;
      var registration := RegisterFresh(target, locator);
      if !registration.Registered? {
        return Threw(if registration.ThreadNotFound? then ThreadNotFound else ThreadHandleCollision);
      }
      var failure := DeliverOrFail(state, lease);
      if failure.Some? { return Threw(failure.value); }
      return Returned(TurnResult(registration.handle, registration.created, None));
    }

    method ThrowUncertain(target: Target, lease: G.RuntimeLease, otherwise: TurnError) returns (outcome: Outcome)
      requires Holds(lease) && W.WriteSettled(Observation())
      requires !otherwise.TurnStateUncertain? && !otherwise.RuntimeGenerationChanged? && !IsLateError(otherwise)
      requires IsWarranted(otherwise)
      modifies this`marked
      ensures Concludes(old(Kept()), lease, target, outcome)
    {
      if target.Project? {
        var _ := FailClosed(lease);
        return Threw(TurnStateUncertain);
      }
      return Threw(otherwise);
    }

    /** The caller is still waiting for the response, within its deadline at the time of the poll. */
    ghost predicate OnTime(state: ResponseDelivery?, seen: int, now: int)
      reads this`aborted, state
    {
      state != null && !aborted && !state.semanticCompleted && state.terminalError.None? ==>
        now - seen < config.responseCompletionTimeout
    }

    /** The page, the registry and the marks are as they were, and the turn goes on. */
    ghost predicate GoesOn(before: Records, state: ResponseDelivery?, write: W.WriteLifecycle)
      reads this, registry, state
    {
      && Kept() == before
      && Presented(state) && Observation().lifecycle == Some(write)
    }

    /** The write once more, which was seen finished before. */
    method RereadWrite(target: Target, lease: G.RuntimeLease, state: ResponseDelivery?) returns (exit: Option<Outcome>)
      requires Holds(lease) && !target.Thread?
      requires Presented(state) && Observation().lifecycle == Some(W.Finished)
      modifies this`trace, this`called, this`marked, this`offered, this`aborted, state
      ensures Answered() && MovesOn()
      ensures exit.Some? ==> Concludes(old(Kept()), lease, target, exit.value)
      ensures exit.None? ==>
        GoesOn(old(Kept()), state, W.Finished) && StaysDecided(state) && !aborted && (state != null ==> UpToDate(state))
    {
      hide W.Observe, Concludes, Presented, Delivering, UpToDate, Answered, Ends, E.TextOf, ShownText, V.Taken,
           R.Consistent, IsWarranted;
      exit := None;
      var finalWrite, thrown := PollSnapshot(lease, state);
      if thrown.Some? {
        AbruptEnd(old(Kept()), lease, target, thrown.value);
        return Some(Threw(thrown.value));
      }
      // It was seen finished, so it is finished still.
      assert finalWrite == Some(W.Finished);
      if aborted {
        AbortIsWarranted();
        var ended := ThrowUncertain(target, lease, OperationAborted);
        exit := Some(ended);
      }
    }

    lemma AbortIsWarranted()
      requires aborted
      ensures IsWarranted(OperationAborted)
    {
    }

    /** The conversation once more, and the write once more. */
    method RevalidateConversation(target: Target, lease: G.RuntimeLease, state: ResponseDelivery?, expected: R.Locator)
      returns (locator: Option<R.Locator>, exit: Option<Outcome>)
      requires Holds(lease) && !target.Thread?
      requires Answered() && Presented(state) && Observation().lifecycle == Some(W.Finished)
      modifies this`trace, this`clock, this`aborted, this`runtime, this`suspended, this`called, this`marked,
               this`offered, state
      ensures Holds(lease) && Answered() && MovesOn() && Took(1)
      ensures exit.Some? ==> Concludes(old(Kept()), lease, target, exit.value)
      ensures exit.None? ==>
        GoesOn(old(Kept()), state, W.Finished) && StaysDecided(state) && !aborted && (state != null ==> UpToDate(state))
      ensures locator.Some? ==> WasShown(target, locator.value) && (target.Project? ==> locator.value == expected)
    {
      hide W.Observe, Concludes, Presented, Delivering, UpToDate, Answered, WasShown, Abandons, Paced, E.TextOf,
           ShownText, V.Taken, R.Consistent, Ends, HasWholeAnswer;
      exit := None;
      var error;
      locator, error := GetCurrentConversationLocator(target, lease, state);
      PresentedIsAnswered(state);
      if error == Some(GenerationChanged) {
        AbruptEnd(old(Kept()), lease, target, RuntimeGenerationChanged);
        return locator, Some(Threw(RuntimeGenerationChanged));
      }
      if target.Project? && locator != Some(expected) { locator := None; }
      exit := RereadWrite(target, lease, state);
    }

    /** Second half of the route check: confirm the conversation and conclude, or wait on. */
    method ConcludeConversation(target: Target, lease: G.RuntimeLease, state: ResponseDelivery?, wait: Wait,
                                ghost now: int)
      returns (outcome: Option<Outcome>)
      requires Holds(lease) && !target.Thread? && wait.freshLocator.Some? && wait.writeObservedAt.Some?
      requires Answered() && Presented(state) && Observation().lifecycle == Some(W.Finished) && now <= clock
      requires OnTime(state, wait.writeObservedAt.value, now) && R.Consistent(registry.Fields())
      requires wait.writeObservedAt == FirstSight(polls)
      modifies this, registry, state
      ensures Holds(lease) && Answered() && MovesOn() && Took(1) && polls == old(polls)
      ensures commands == old(commands) && withheld == old(withheld)
      ensures outcome.Some? ==> Concludes(old(Kept()), lease, target, outcome.value)
      ensures outcome.None? ==>
        GoesOn(old(Kept()), state, W.Finished) && now - wait.writeObservedAt.value < LongestWait(config)
    {
      hide W.Observe, V.Taken, E.TextOf, ShownText, AnsweredFaithfully, R.Consistent, R.SameThreads, R.Reserve,
           R.RegisterWithStatus, ToldWholeAnswer, Presented, UpToDate, Logged, Holds, IsLost, IsDead, WasShown,
           Delivering, HasWholeAnswer, ThrowLeaves, ReturnsThread, Concludes, Ends, IsWarranted, LeftPending,
           Registered, FirstSight, Answered;
      var locator;
      locator, outcome := RevalidateConversation(target, lease, state, wait.freshLocator.value);
      if outcome.Some? { return; }
      if locator.None? {
        if clock - wait.writeObservedAt.value >= config.freshConversationTimeout {
          var ended := ThrowUncertain(target, lease, FreshConversationNotCreated);
          outcome := Some(ended);
        }
        return;
      }
      if state != null && state.terminalError.None? {
        if !state.semanticCompleted { return; }
        UpToDateIsWhole(state);
      }
      var concluded := ConcludeLocated(target, lease, state, locator.value);
      outcome := Some(concluded);
    }

    method ConcludeLocated(target: Target, lease: G.RuntimeLease, state: ResponseDelivery?, locator: R.Locator)
      returns (outcome: Outcome)
      requires Holds(lease) && !target.Thread? && WasShown(target, locator) && R.Consistent(registry.Fields())
      requires Answered() && Presented(state) && Observation().lifecycle == Some(W.Finished)
      requires state != null && state.terminalError.None? ==> HasWholeAnswer(state)
      modifies this`offered, this`aborted, this`marked, this`pendingProjectCompletions, this`completions, registry,
               state
      ensures Answered() && Concludes(old(Kept()), lease, target, outcome)
    {
      if target.Project? {
        outcome := ConcludeProject(target, lease, state, locator);
      } else {
        outcome := ConcludeFresh(target, lease, state, locator);
      }
    }

    /** The caller's abort is reported while the write of a thread turn is in flight. */
    ghost predicate AbandonsWrite(before: Records, outcome: Outcome)
      reads this, registry
    {
      aborted && outcome == Threw(OperationAborted) && Observation().lifecycle == Some(W.Active) && Kept() == before
    }

    /** Polls come at most three intervals apart, the last of them at most `n` intervals ago. */
    ghost predicate Recent(committedAt: int, n: nat)
      reads this`polls, this`clock
    {
      Punctual() ==>
        && Spaced(committedAt, polls, 3 * Interval())
        && clock <= (if polls == [] then committedAt else polls[|polls| - 1].now) + n * Interval()
    }

    /** The turn ended in time: within its timeouts and nine intervals. */
    ghost predicate DecidedBy(committedAt: int)
      reads this`clock
    {
      Punctual() ==> clock <= committedAt + config.writeObservationTimeout + LongestWait(config) + 9 * Interval()
    }

    lemma RecentIsInTime(committedAt: int)
      requires Recent(committedAt, 3) && Paced(config, committedAt, polls)
      ensures DecidedBy(committedAt)
    {
      if Punctual() && polls != [] { DecidedInTime(config, committedAt, polls, 3 * Interval()); }
    }

    twostate lemma TwoIntervals(committedAt: int)
      requires polls != [] && polls == old(polls) && Took(2) && old(Recent(committedAt, 0))
      ensures Recent(committedAt, 2) && Recent(committedAt, 3)
    {
    }

    twostate lemma ThirdInterval(committedAt: int)
      requires polls != [] && polls == old(polls) && Took(1) && old(Recent(committedAt, 2))
      ensures Recent(committedAt, 3)
    {
    }

    lemma BeforePoll(committedAt: int)
      requires Recent(committedAt, 3)
      ensures Punctual() ==> Spaced(committedAt, polls, 3 * Interval())
      ensures Punctual() ==> clock <= (if polls == [] then committedAt else polls[|polls| - 1].now) + 3 * Interval()
    {
    }

    lemma NewestIsRecent(committedAt: int, before: seq<Poll>, n: nat)
      requires n <= 3 && |polls| == |before| + 1 && polls[..|before|] == before && polls[|before|].now == clock
      requires Punctual() ==> Spaced(committedAt, before, 3 * Interval())
      requires Punctual() ==> clock <= (if before == [] then committedAt else before[|before| - 1].now) + n * Interval()
      ensures Recent(committedAt, 0) && Recent(committedAt, 2) && Recent(committedAt, 3)
    {
      assert n * Interval() <= 3 * Interval();
      forall k | 0 < k < |polls| ensures Punctual() ==> polls[k].now <= polls[k - 1].now + 3 * Interval() {
        assert polls[k - 1] == before[k - 1];
        if k < |before| { assert polls[k] == before[k]; }
      }
      if before != [] { assert polls[0] == before[0]; }
    }

    /** A poll that saw the write within its deadline gives up on it exactly for the caller of a thread turn. */
    lemma GivingUp(target: Target, write: W.WriteLifecycle)
      requires polls != [] && polls[|polls| - 1].write == Some(write) && FirstSight(polls).Some?
      requires write == W.Active ==> polls[|polls| - 1].now - FirstSight(polls).value < config.writeSettlementTimeout
      ensures Abandons(config, target, polls) <==> target.Thread? && write == W.Active && polls[|polls| - 1].cancelled
    {
    }

    /** An error of the first half of a poll ends the turn with its threads as they were. */
    lemma EndsTurn(before: Records, lease: G.RuntimeLease, target: Target, error: TurnError)
      requires Ends(before.marked, lease, target, error) && !IsLateError(error)
      requires registry.Fields() == before.registry && pendingProjectCompletions == before.pending
      ensures Concludes(before, lease, target, Threw(error))
    {
    }

    lemma StillOpen(state: ResponseDelivery?, write: W.WriteLifecycle, seen: int)
      requires Undecided(state, write, seen, clock)
      ensures write == W.Active || write == W.Finished
      ensures write == W.Active ==> clock - seen < config.writeSettlementTimeout
    {
      assert write.Active? || write.Finished? || write.Failed?;
    }

    lemma WaitingLocals(state: ResponseDelivery?, wait: Wait)
      requires Waiting(state, wait)
      ensures wait.writeObservedAt == FirstSight(polls) && (wait.freshLocator.Some? ==> wait.writeObservedAt.Some?)
      ensures wait.callerCancelled ==> aborted
    {
    }

    lemma WaitsUnseen(state: ResponseDelivery?, wait: Wait, next: Wait)
      requires Polled(state, wait, next, None) && Paced(config, wait.committedAt, polls)
      requires wait.freshLocator.Some? ==> wait.writeObservedAt.Some?
      requires wait.writeObservedAt == FirstSight(polls) || wait.writeObservedAt.None?
      ensures Waiting(state, next)
    {
      hide W.Observe, Presented, Paced, InTime;
    }

    lemma WaitsSeen(state: ResponseDelivery?, next: Wait, write: W.WriteLifecycle)
      requires Presented(state) && (next.callerCancelled ==> aborted) && Paced(config, next.committedAt, polls)
      requires next.writeObservedAt == FirstSight(polls) && FirstSight(polls).Some? && polls != []
      requires polls[|polls| - 1].now - FirstSight(polls).value < LongestWait(config)
      requires next.previousLifecycle == Some(write) && (write == W.Active || write == W.Finished)
      requires Observation().lifecycle == Some(W.Finished)
        || (write == W.Active && Observation().lifecycle == Some(W.Active))
      ensures Waiting(state, next)
    {
      hide W.Observe, Presented, Paced;
    }

    /** One iteration of the polling loop, without the sleep that ends it. */
    method PollOnce(target: Target, lease: G.RuntimeLease, state: ResponseDelivery?, wait: Wait)
      returns (next: Wait, exit: Option<Outcome>)
      requires Holds(lease) && Waiting(state, wait) && Slept() && !Abandons(config, target, polls) && Logged()
      requires R.Consistent(registry.Fields()) && (wait.freshLocator.Some? ==> !target.Thread?)
      requires Recent(wait.committedAt, 3)
      modifies this, registry, state
      ensures Holds(lease) && Answered() && Paced(config, wait.committedAt, polls) && old(clock) <= clock && Logged()
      ensures Recent(wait.committedAt, 3) && (exit.None? ==> Recent(wait.committedAt, 2))
      ensures commands == old(commands) && withheld == old(withheld)
      ensures exit.Some? ==>
        if Abandons(config, target, polls) then AbandonsWrite(old(Kept()), exit.value)
           else Concludes(old(Kept()), lease, target, exit.value)
      ensures exit.None? ==>
        && Waiting(state, next) && !Abandons(config, target, polls) && next.committedAt == wait.committedAt
        && Kept() == old(Kept())
        && (next.freshLocator.Some? ==> !target.Thread?)
        && |polls| == |old(polls)| + 1 && polls[|polls| - 1].now == old(clock)
        && (wait.writeObservedAt.Some? ==> next.writeObservedAt == wait.writeObservedAt)
      ensures old(StartsAbandoned(Observation(), wait)) && target.Thread? ==>
        exit.Some? && Abandons(config, target, polls)
    {
      hide W.Observe, V.Taken, E.TextOf, ShownText, AnsweredFaithfully, R.Consistent, ToldWholeAnswer,
           Presented, UpToDate, FirstSight, Paced, InTime, Recent, Logged, Abandons, Concludes, WasShown,
           Holds, IsLost, IsDead, Waiting, AbandonsWrite, Undecided, Answered, Ends, ThrowLeaves, R.SameThreads,
           V.ReadsAs;
      exit := None;
      var write, thrown;
      ghost var before := polls;
      BeforePoll(wait.committedAt);
      WaitingLocals(state, wait);
      next, write, thrown := PollWrite(target, lease, state, wait);
      if polls != before { NewestIsRecent(wait.committedAt, before, 3); }
      if thrown.Some? {
        EndsTurn(old(Kept()), lease, target, thrown.value);
        return next, Some(Threw(thrown.value));
      }
      if write.None? {
        WaitsUnseen(state, wait, next);
        assert polls == before + [polls[|before|]];
        UnseenIsKept(config, target, before, polls[|before|]);
        return;
      }
      next, exit := PollTarget(target, lease, state, next, write.value);
    }

    /** The last poll is of just now and has seen the write in this state. */
    ghost predicate JustSeen(wait: Wait, write: W.WriteLifecycle)
      reads this`polls, this`clock, this`aborted
    {
      && polls != [] && FirstSight(polls).Some? && wait.writeObservedAt == FirstSight(polls)
      && wait.previousLifecycle == Some(write) && wait.callerCancelled == aborted
      && var last := polls[|polls| - 1]; last.now == clock && last.write == Some(write) && (last.cancelled ==> aborted)
    }

    /** The poll asks for the signal once more: its log takes note of an abort by the listener. */
    ghost method NoteAbort(wait: Wait, write: W.WriteLifecycle)
      requires JustSeen(wait, write) && Paced(config, wait.committedAt, polls) && Logged()
      requires Recent(wait.committedAt, 0)
      modifies this`polls
      ensures JustSeen(wait, write) && Paced(config, wait.committedAt, polls) && Logged() && Recent(wait.committedAt, 0)
      ensures polls[|polls| - 1].cancelled == aborted && FirstSight(polls) == old(FirstSight(polls))
      ensures |polls| == |old(polls)|
    {
      hide W.Observe;
      var before, last := polls[..|polls| - 1], polls[|polls| - 1];
      assert polls == before + [last];
      SightSnoc(before, last);
      SightSnoc(before, last.(cancelled := aborted));
      NotedIsPaced(config, wait.committedAt, before, last, aborted);
      polls := before + [last.(cancelled := aborted)];
    }

    /** The second half of a poll, after the write was seen. */
    method PollTarget(target: Target, lease: G.RuntimeLease, state: ResponseDelivery?, wait: Wait,
                      write: W.WriteLifecycle)
      returns (next: Wait, exit: Option<Outcome>)
      requires Holds(lease) && Answered() && R.Consistent(registry.Fields()) && JustSeen(wait, write)
      requires Undecided(state, write, FirstSight(polls).value, clock)
      requires Paced(config, wait.committedAt, polls) && Logged() && Recent(wait.committedAt, 0)
      requires wait.freshLocator.Some? ==> !target.Thread?
      modifies this, registry, state
      ensures Holds(lease) && Answered() && old(clock) <= clock && |polls| == |old(polls)|
      ensures polls[|polls| - 1].now == old(polls[|polls| - 1].now) && Paced(config, wait.committedAt, polls)
      ensures Logged() && Recent(wait.committedAt, 2) && Recent(wait.committedAt, 3)
      ensures commands == old(commands) && withheld == old(withheld)
      ensures exit.Some? ==>
        if Abandons(config, target, polls) then AbandonsWrite(old(Kept()), exit.value)
           else Concludes(old(Kept()), lease, target, exit.value)
      ensures exit.None? ==>
        && Waiting(state, next) && !Abandons(config, target, polls) && Kept() == old(Kept())
        && next == wait.(freshLocator := next.freshLocator) && (next.freshLocator.Some? ==> !target.Thread?)
      ensures target.Thread? && write == W.Active && old(aborted) ==> exit.Some? && Abandons(config, target, polls)
    {
      hide W.Observe, V.Taken, E.TextOf, ShownText, AnsweredFaithfully, R.Consistent, ToldWholeAnswer, Presented,
           Undecided, Waiting, Concludes, Abandons, Paced, Recent, Logged, Holds, FirstSight;
      StillOpen(state, write, wait.writeObservedAt.value);
      NoteAbort(wait, write);
      GivingUp(target, write);
      label noted:
      next := wait;
      if target.Thread? {
        exit := PollThread(target, lease, state, wait, write);
      } else {
        next, exit := PollConversation(target, lease, state, wait, write);
      }
      StaysLogged@noted();
      TwoIntervals@noted(wait.committedAt);
      if exit.None? { WaitsSeen(state, next, write); }
    }

    method PollThread(target: Target, lease: G.RuntimeLease, state: ResponseDelivery?, wait: Wait,
                      write: W.WriteLifecycle)
      returns (exit: Option<Outcome>)
      requires Holds(lease) && target.Thread? && wait.callerCancelled == aborted && wait.writeObservedAt.Some?
      requires Answered()
      requires Undecided(state, write, wait.writeObservedAt.value, clock)
      modifies this`offered, this`aborted, this`marked, state
      ensures Answered() && (old(aborted) ==> aborted) && (write == W.Active ==> aborted == old(aborted))
      ensures exit.Some? ==>
        if write == W.Active then aborted && AbandonsWrite(old(Kept()), exit.value)
           else Concludes(old(Kept()), lease, target, exit.value)
      ensures exit.None? ==>
        && GoesOn(old(Kept()), state, write) && clock - wait.writeObservedAt.value < LongestWait(config)
        && (write == W.Active ==> !aborted)
    {
      hide W.Observe, V.Taken, E.TextOf, ShownText, AnsweredFaithfully, ToldWholeAnswer;
      exit := None;
      if write == W.Finished {
        exit := ConcludeThread(target, lease, state, wait);
      } else if wait.callerCancelled {
        exit := Some(Threw(OperationAborted));
      }
    }

    method PollConversation(target: Target, lease: G.RuntimeLease, state: ResponseDelivery?, wait: Wait,
                            write: W.WriteLifecycle)
      returns (next: Wait, exit: Option<Outcome>)
      requires Holds(lease) && !target.Thread? && wait.callerCancelled == aborted && wait.writeObservedAt.Some?
      requires Answered()
      requires Undecided(state, write, wait.writeObservedAt.value, clock) && R.Consistent(registry.Fields())
      requires wait.writeObservedAt == FirstSight(polls)
      modifies this, registry, state
      ensures Holds(lease) && Answered() && MovesOn() && Took(2) && polls == old(polls)
      ensures commands == old(commands) && withheld == old(withheld)
      ensures next == wait.(freshLocator := next.freshLocator)
      ensures exit.Some? ==> Concludes(old(Kept()), lease, target, exit.value)
      ensures exit.None? ==>
        && (GoesOn(old(Kept()), state, W.Finished) || (write == W.Active && GoesOn(old(Kept()), state, W.Active)))
        && old(clock) - wait.writeObservedAt.value < LongestWait(config)
    {
      hide W.Observe, V.Taken, E.TextOf, ShownText, AnsweredFaithfully, R.Consistent, ToldWholeAnswer, Logged,
           Holds, IsLost, IsDead, WasShown, Delivering, ThrowLeaves, ReturnsThread, Concludes, Ends, Presented,
           Answered, IsWarranted;
      var now := clock;
      next, exit := wait, None;
      if wait.freshLocator.None? {
        var settled, thrown;
        next, settled, thrown := ObserveRoute(target, lease, state, wait, write);
        if thrown.Some? {
          EndsTurn(old(Kept()), lease, target, thrown.value);
          return next, Some(Threw(thrown.value));
        }
        if !settled { return; }
      }
      if next.freshLocator.Some? && write == W.Active { return; }
      if aborted {
        var ended := ThrowUncertain(target, lease, OperationAborted);
        return next, Some(ended);
      }
      if next.freshLocator.Some? {
        exit := ConcludeConversation(target, lease, state, next, now);
        return;
      }
      if write == W.Finished && now - wait.writeObservedAt.value >= config.freshConversationTimeout {
        var ended := ThrowUncertain(target, lease, FreshConversationNotCreated);
        exit := Some(ended);
      }
    }

    function Deadline(wait: Wait): int {
      match wait.writeObservedAt
      case None => wait.committedAt + config.writeObservationTimeout
      case Some(seen) => seen + LongestWait(config)
    }

    /**
     Poll until the turn is decided. The loop ends: the clock moves on at every sleep, every poll but
     the last is within its deadline, and the deadline is set at most twice.
     */
    method WaitForTurnOutcome(target: Target, lease: G.RuntimeLease, state: ResponseDelivery?, initiallyCancelled: bool)
      returns (outcome: Outcome)
      requires Holds(lease) && Presented(state) && polls == [] && R.Consistent(registry.Fields())
      requires initiallyCancelled ==> aborted
      modifies this, registry, state
      ensures Holds(lease) && Answered() && commands == old(commands) && withheld == old(withheld)
      ensures Paced(config, old(clock), polls) && Logged() && DecidedBy(old(clock))
      ensures if Abandons(config, target, polls) then AbandonsWrite(old(Kept()), outcome)
        else Concludes(old(Kept()), lease, target, outcome)
      ensures target.Thread? && old(StartsAbandoned(Observation(), Wait(clock, None, None, None, true))) ==>
        Abandons(config, target, polls)
    {
      hide W.Observe, V.Taken, E.TextOf, ShownText, AnsweredFaithfully, R.Consistent, ToldWholeAnswer, Presented,
           UpToDate, FirstSight, Paced, Concludes, AbandonsWrite, Answered, Holds, Logged, Recent, DecidedBy;
      var wait := Wait(clock, None, None, None, initiallyCancelled);
      StartsWaiting(state, wait);
      while true
        invariant Holds(lease) && Waiting(state, wait) && Slept() && !Abandons(config, target, polls)
        invariant R.Consistent(registry.Fields()) && (wait.freshLocator.Some? ==> !target.Thread?)
        invariant Logged() && Recent(old(clock), 3)
        invariant wait.committedAt == old(clock) && commands == old(commands) && withheld == old(withheld)
        invariant Kept() == old(Kept())
        invariant target.Thread? && old(StartsAbandoned(Observation(), Wait(clock, None, None, None, true))) ==>
          polls == [] && StartsAbandoned(Observation(), wait)
        decreases if wait.writeObservedAt.None? then 1 else 0, Deadline(wait) - clock
      {
        var next, exit := PollOnce(target, lease, state, wait);
        if exit.Some? {
          RecentIsInTime(old(clock));
          return exit.value;
        }
        wait := next;
        SleepOn(lease, state, wait);
      }
    }

    /** The sleep that ends an iteration: the turn waits on as before. */
    method SleepOn(lease: G.RuntimeLease, state: ResponseDelivery?, wait: Wait)
      requires Holds(lease) && Waiting(state, wait) && Logged() && polls != [] && Recent(wait.committedAt, 2)
      modifies this`trace, this`clock, this`aborted, this`runtime, this`suspended
      ensures Holds(lease) && Waiting(state, wait) && Slept() && Logged() && Recent(wait.committedAt, 3)
      ensures old(clock) < clock
    {
      hide W.Observe, AnsweredFaithfully, Presented, FirstSight, Paced, InTime, Holds;
      Sleep(lease);
      TimeKeepsDelivery(state);
      StaysLogged();
      SleptSince();
      ThirdInterval(wait.committedAt);
    }

    twostate lemma SleptSince()
      requires old(Logged()) && polls == old(polls) && old(clock) < clock
      ensures Slept()
    {
      assert polls != [] ==> old(LoggedAt(polls[|polls| - 1]));
    }

    lemma StartsWaiting(state: ResponseDelivery?, wait: Wait)
      requires Presented(state) && polls == [] && (wait.callerCancelled ==> aborted)
      requires wait == Wait(wait.committedAt, None, None, None, wait.callerCancelled)
      ensures Waiting(state, wait) && Slept() && Logged() && Recent(clock, 3)
    {
    }

    // -------------------------------------------------------------- from the composer to the send control

    /** The composer and the session allow this turn. */
    predicate IsFit(target: Target, composer: Composer) {
      && composer.expectedRoute && composer.eligible && composer.focused && composer.empty
      && (config.streaming ==> config.responseEvents)
      && (!target.Fresh? ==> composer.backendDOMNodeId.Some? && composer.backendDOMNodeId.value > 0)
      && (target.Project? ==> config.projectSubmit)
      && (target.Thread? ==> config.threadSubmit)
    }

    /** The composer is there, focused and empty, and the session can do what the turn needs. */
    method Preflight(target: Target, lease: G.RuntimeLease) returns (thrown: Option<TurnError>)
      requires Holds(lease)
      modifies this`trace, this`clock, this`aborted, this`runtime, this`suspended
      ensures Holds(lease)
      ensures thrown == Some(RuntimeGenerationChanged) ==> IsLost(lease)
      ensures thrown != Some(TurnStateUncertain)
      ensures thrown.None? ==> suspended == old(suspended) + 2
      ensures thrown.None? && old(Quiet(suspended) && Quiet(suspended + 1)) ==>
        aborted == old(aborted) && runtime == old(runtime)
      ensures thrown.None? <==>
        && config.environment.suspensions(old(suspended)).error.None?
        && config.environment.suspensions(old(suspended) + 1).error.None?
        && IsFit(target, config.environment.composers(old(suspended) + 1))
    {
      var error := Suspend(lease);
      if error.Some? { return Some(RethrowPreCommit(error.value)); }
      var call := suspended;
      error := Suspend(lease);
      if error.Some? { return Some(RethrowPreCommit(error.value)); }
      var composer := config.environment.composers(call);
      if !composer.expectedRoute || !composer.eligible || !composer.focused || !composer.empty {
        return Some(TurnInputFailed);
      }
      if config.streaming && !config.responseEvents { return Some(ResponseStreamUnavailable); }
      var hasNode := composer.backendDOMNodeId.Some? && composer.backendDOMNodeId.value > 0;
      if target.Project? && (!config.projectSubmit || !hasNode) { return Some(TurnInputFailed); }
      if target.Thread? && (!config.threadSubmit || !hasNode) { return Some(TurnInputFailed); }
      return None;
    }

    /** How a turn may end before it is committed. */
    ghost predicate Refuses(before: seq<G.RuntimeLease>, lease: G.RuntimeLease, error: TurnError)
      reads this
    {
      && marked == before + (if error.TurnStateUncertain? then [lease] else [])
      && (error.RuntimeGenerationChanged? ==> IsLost(lease))
      && (error.TurnStateUncertain? || error.RuntimeGenerationChanged? || Observation().lifecycle != Some(W.Active))
    }

    method AssertNoObservedPreSubmitWrite(lease: G.RuntimeLease, failClosedOnAnyWrite: bool)
      returns (thrown: Option<TurnError>)
      requires Holds(lease)
      modifies this`called, this`marked
      ensures thrown.None? ==> marked == old(marked) && Observation().lifecycle.None?
      ensures thrown.Some? ==> Refuses(old(marked), lease, thrown.value)
      ensures thrown.Some? && failClosedOnAnyWrite ==>
        thrown.value.TurnStateUncertain? || thrown.value.RuntimeGenerationChanged?
      ensures NoCallFails() && trace == [] ==> thrown.None?
    {
      var snapshot;
      snapshot, thrown := ReadTurnObservation(lease);
      V.IsIdentified(config.setup, config.streaming, trace);
      if thrown.Some? || snapshot.value.write.None? { return; }
      if failClosedOnAnyWrite || snapshot.value.write == Some(W.Active) {
        thrown := FailClosed(lease);
        return;
      }
      return Some(TurnInputFailed);
    }

    method Dispatch(command: Command)
      modifies this`commands
      ensures commands == old(commands) + [command]
    {
      commands := commands + [command];
    }

    /** Nothing happens at the `n`-th suspension, and no call of the session fails. */
    ghost predicate Uneventful(n: nat) {
      Quiet(n) && config.environment.suspensions(n).events == [] && NoCallFails()
    }

    /** Put the text into the composer; afterwards no write may have been observed yet. */
    method InsertText(target: Target, lease: G.RuntimeLease, state: ResponseDelivery?)
      returns (thrown: Option<TurnError>)
      requires Holds(lease) && Presented(state)
      modifies this`trace, this`clock, this`aborted, this`runtime, this`suspended, this`called, this`marked,
               this`commands
      ensures Holds(lease) && Presented(state) && commands == old(commands) + [Command.InsertText]
      ensures thrown.None? ==> marked == old(marked) && Observation().lifecycle.None?
      ensures thrown.Some? ==> Refuses(old(marked), lease, thrown.value)
      ensures thrown.Some? && target.Project? ==>
        thrown.value.TurnStateUncertain? || thrown.value.RuntimeGenerationChanged?
      ensures old(Uneventful(suspended) && trace == []) ==>
        thrown.None? && trace == [] && aborted == old(aborted) && runtime == old(runtime)
          && suspended == old(suspended) + 1
    {
      hide W.Observe, V.Taken, E.TextOf, ShownText;
      Dispatch(Command.InsertText);
      label waiting:
      var error := Suspend(lease);
      TimeKeepsDelivery@waiting(state);
      if error == Some(GenerationChanged) { return Some(RuntimeGenerationChanged); }
      if error.Some? && (target.Project? || error.value.Disconnected? || error.value.TimedOut?) {
        thrown := FailClosed(lease);
        return;
      }
      thrown := AssertNoObservedPreSubmitWrite(lease, error.None? && target.Project?);
      if thrown.Some? { return; }
      if error.Some? { return Some(TurnInputFailed); }
    }

    /** The text goes in, and the caller can still call the submission off. */
    method Attempt(target: Target, lease: G.RuntimeLease, state: ResponseDelivery?)
      returns (thrown: Option<TurnError>)
      requires Holds(lease) && Presented(state)
      modifies this`trace, this`clock, this`aborted, this`runtime, this`suspended, this`called, this`marked,
               this`commands
      ensures Holds(lease) && Presented(state) && commands == old(commands) + [Command.InsertText]
      ensures thrown.None? ==> marked == old(marked) && Observation().lifecycle.None?
      ensures thrown.Some? ==> Refuses(old(marked), lease, thrown.value)
      ensures thrown.Some? && target.Project? ==>
        thrown.value.TurnStateUncertain? || thrown.value.RuntimeGenerationChanged?
      ensures old(Uneventful(suspended) && trace == [] && !aborted) ==>
        thrown.None? && trace == [] && !aborted && runtime == old(runtime) && suspended == old(suspended) + 1
    {
      hide W.Observe, Presented, Holds, IsLost, Uneventful;
      thrown := InsertText(target, lease, state);
      if thrown.Some? { return; }
      if aborted {
        thrown := Some(OperationAborted);
        if target.Project? { thrown := FailClosed(lease); }
      }
    }

    /** One command of the submission; a failure it may survive is left to the observation. */
    method SubmitCommand(target: Target, command: Command, lease: G.RuntimeLease, state: ResponseDelivery?)
      returns (accepted: bool, thrown: Option<TurnError>)
      requires Holds(lease) && Presented(state)
      modifies this`trace, this`clock, this`aborted, this`runtime, this`suspended, this`marked, this`commands
      ensures Holds(lease) && Presented(state) && Raised(lease, thrown)
      ensures commands == old(commands) + [command]
      ensures accepted <==> config.environment.suspensions(old(suspended)).error.None?
      ensures accepted ==> thrown.None?
      ensures target.Project? && !accepted ==> thrown.Some?
      ensures Happened(config.environment.suspensions(old(suspended))) && suspended == old(suspended) + 1
      ensures config.environment.suspensions(old(suspended)).error == Some(GenerationChanged) && IsLost(lease) ==>
        thrown == Some(RuntimeGenerationChanged)
    {
      hide W.Observe, V.Taken, E.TextOf, ShownText;
      Dispatch(command);
      label waiting:
      var error := Suspend(lease);
      TimeKeepsDelivery@waiting(state);
      if error == Some(GenerationChanged) { return false, Some(RuntimeGenerationChanged); }
      if error.Some? && (target.Project? || error.value.Disconnected? || error.value.TimedOut?) {
        thrown := FailClosed(lease);
        return false, thrown;
      }
      return error.None?, None;
    }

    /** Project and Thread turns click the send control; a fresh turn releases Enter if pressing it was accepted. */
    method Submit(target: Target, lease: G.RuntimeLease, state: ResponseDelivery?) returns (thrown: Option<TurnError>)
      requires Holds(lease) && Presented(state)
      modifies this`trace, this`clock, this`aborted, this`runtime, this`suspended, this`marked, this`commands
      ensures Holds(lease) && Presented(state) && Raised(lease, thrown)
      ensures commands == old(commands) + Submission(target, config.environment.suspensions(old(suspended)).error.None?)
      ensures target.Thread? && config.environment.suspensions(old(suspended)).error.None? ==>
        thrown.None? && Happened(config.environment.suspensions(old(suspended)))
      ensures target.Fresh? && old(LosesSightOnRelease(suspended)) ==>
        && trace == old(trace) + config.environment.suspensions(old(suspended)).events
                    + config.environment.suspensions(old(suspended) + 1).events
        && runtime == old(runtime).(currentIdentity := None) && thrown == Some(RuntimeGenerationChanged)
    {
      hide W.Observe, V.Taken, E.TextOf, ShownText, Presented;
      var accepted;
      accepted, thrown := SubmitCommand(target, if target.Fresh? then PressEnter else ClickSend, lease, state);
      if target.Fresh? && accepted { accepted, thrown := SubmitCommand(target, ReleaseEnter, lease, state); }
    }

    /** Pressing Enter is accepted; releasing it fails because a look shows no process. */
    ghost predicate LosesSightOnRelease(n: nat) {
      && Quiet(n)
      && var s := config.environment.suspensions(n + 1); s.error == Some(GenerationChanged) && s.identities == [None]
    }

    static function Submission(target: Target, accepted: bool): seq<Command> {
      if !target.Fresh? then [ClickSend] else if accepted then [PressEnter, ReleaseEnter] else [PressEnter]
    }

    /** The commands a turn has sent by the end of each stage: no input is submitted before it is committed. */
    ghost predicate SentBy(target: Target, stage: Stage)
      reads this`commands
    {
      match stage
      case Preparing => commands == []
      case Armed => commands == []
      case Attempted => commands == [Command.InsertText]
      case Committed =>
        commands == [Command.InsertText] + Submission(target, true)
          || commands == [Command.InsertText] + Submission(target, false)
    }

    /** The polls came in time, each saw the history as it then was, and the turn ended in time. */
    ghost predicate PolledFrom(committedAt: int)
      reads this`trace, this`polls, this`clock, this`aborted
    {
      Paced(config, committedAt, polls) && Logged() && DecidedBy(committedAt)
    }

    /** What every end of a turn guarantees, by the stage it had reached. */
    ghost predicate EndsAt(before: Records, lease: G.RuntimeLease, target: Target, stage: Stage, outcome: Outcome)
      reads this, registry
    {
      if stage.Committed? then
        if Abandons(config, target, polls) then AbandonsWrite(before, outcome)
           else Concludes(before, lease, target, outcome)
      else
        && outcome.Threw? && registry.Fields() == before.registry && pendingProjectCompletions == before.pending
        && (if stage.Preparing? then
              marked == before.marked && outcome.error != TurnStateUncertain
              && (outcome.error.RuntimeGenerationChanged? ==> IsLost(lease))
            else Refuses(before.marked, lease, outcome.error))
        && (stage.Attempted? && target.Project? ==>
          outcome.error.TurnStateUncertain? || outcome.error.RuntimeGenerationChanged?)
    }

    /** The end of a turn, what its listener was offered, when it polled, and the commands it sent. */
    ghost predicate Executed(before: Records, lease: G.RuntimeLease, target: Target, stage: Stage, outcome: Outcome,
                             committedAt: int)
      reads this, registry
    {
      && EndsAt(before, lease, target, stage, outcome)
      && (if stage.Committed? then Answered() && PolledFrom(committedAt) else offered == [] && polls == [])
      && SentBy(target, stage) && withheld == target.Project?
    }

    method ExecuteScheduled(target: Target, lease: G.RuntimeLease)
      returns (outcome: Outcome, ghost stage: Stage, ghost committedAt: int)
      requires Holds(lease) && R.Consistent(registry.Fields())
      modifies this, registry
      ensures Holds(lease) && Executed(old(Kept()), lease, target, stage, outcome, committedAt)
      ensures old(Unhindered(target) && WillGiveUp(target, suspended + 2)) ==> GivesUp(target, stage)
      ensures old(Unhindered(target) && WillLoseSight(target, lease, suspended + 2)) ==>
        LosesOpenWrite(lease, stage, outcome)
    {
      hide *;
      stage, committedAt := Preparing, clock;
      offered, polls, commands, withheld := [], [], [], target.Project?;
      var thrown := Prepare(target, lease);
      if thrown.Some? {
        RefusedEarly(old(Kept()), lease, target, thrown.value, committedAt);
        return Threw(thrown.value), stage, committedAt;
      }
      trace := [];
      outcome, stage, committedAt := ExecuteArmed(target, lease);
    }

    lemma RefusedEarly(before: Records, lease: G.RuntimeLease, target: Target, error: TurnError, committedAt: int)
      requires Kept() == before && error != TurnStateUncertain && (error.RuntimeGenerationChanged? ==> IsLost(lease))
      requires commands == [] && offered == [] && polls == [] && withheld == target.Project?
      ensures Executed(before, lease, target, Preparing, Threw(error), committedAt)
    {
    }

    /** Nothing stands in the way of the turn until its observation is armed. */
    ghost predicate Unhindered(target: Target)
      reads this`suspended, registry
    {
      && (target.Thread? ==> registry.Resolve(target.handle).Some?)
      && Quiet(suspended) && Quiet(suspended + 1) && IsFit(target, config.environment.composers(suspended + 1))
      && NoCallFails()
    }

    /** The submission of a thread turn sends the write, and the caller aborts meanwhile. */
    ghost predicate SendsAndAborts(n: nat) {
      var s := config.environment.suspensions(n);
      && s.error.None? && s.aborts && config.writeSettlementTimeout > 0
      && IsOpenWrite(W.Observe(config.setup, config.streaming, s.events))
    }

    /** Pressing Enter sends the write of a fresh turn, and then no process is visible for a moment. */
    ghost predicate SendsAndLosesSight(n: nat) {
      && LosesSightOnRelease(n)
      && IsOpenWrite(W.Observe(config.setup, config.streaming,
                               config.environment.suspensions(n).events + config.environment.suspensions(n + 1).events))
    }

    /** Inserting the text is the `n`-th suspension, and then the caller aborts over a write in flight. */
    ghost predicate WillGiveUp(target: Target, n: nat)
      reads this`aborted
    {
      target.Thread? && !aborted && Uneventful(n) && SendsAndAborts(n + 1)
    }

    /** Inserting the text is the `n`-th suspension, and then the process is out of sight over a write in flight. */
    ghost predicate WillLoseSight(target: Target, lease: G.RuntimeLease, n: nat)
      reads this`aborted, this`runtime
    {
      target.Fresh? && lease.generation == runtime.generation && !aborted && Uneventful(n) && SendsAndLosesSight(n + 1)
    }

    static predicate IsOpenWrite(o: W.Observation) {
      o.lifecycle == Some(W.Active) && !o.ambiguous
    }

    /** Up to the armed observation: the thread is known, the composer fits, nothing was observed before. */
    method Prepare(target: Target, lease: G.RuntimeLease) returns (thrown: Option<TurnError>)
      requires Holds(lease)
      modifies this`trace, this`clock, this`aborted, this`runtime, this`suspended, this`called
      ensures Holds(lease)
      ensures thrown.Some? ==>
        thrown.value != TurnStateUncertain && (thrown.value.RuntimeGenerationChanged? ==> IsLost(lease))
      ensures thrown.None? ==>
        (target.Thread? ==> registry.Resolve(target.handle).Some?) && (config.streaming ==> config.responseEvents)
      ensures old(Unhindered(target)) ==>
        thrown.None? && suspended == old(suspended) + 2 && aborted == old(aborted) && runtime == old(runtime)
    {
      if target.Thread? && registry.Resolve(target.handle).None? { return Some(ThreadNotFound); }
      thrown := Preflight(target, lease);
      if thrown.Some? { return; }
      var error := Call(lease);
      if error.Some? { return Some(RethrowPreCommit(error.value)); }
    }

    /** From the armed observation on. */
    method ExecuteArmed(target: Target, lease: G.RuntimeLease)
      returns (outcome: Outcome, ghost stage: Stage, ghost committedAt: int)
      requires Holds(lease) && R.Consistent(registry.Fields()) && (config.streaming ==> config.responseEvents)
      requires trace == [] && offered == [] && polls == [] && commands == [] && withheld == target.Project?
      modifies this, registry
      ensures Holds(lease) && Executed(old(Kept()), lease, target, stage, outcome, committedAt) && !stage.Preparing?
      ensures old(WillGiveUp(target, suspended)) ==> GivesUp(target, stage)
      ensures old(WillLoseSight(target, lease, suspended)) ==> LosesOpenWrite(lease, stage, outcome)
    {
      hide PolledFrom, Holds, IsLost, Quiet, NoCallFails, SendsAndAborts, SendsAndLosesSight, Uneventful, W.Observe,
           V.Taken, E.TextOf, ShownText, AnsweredFaithfully, Answered, Delivering, R.Consistent, ToldWholeAnswer,
           Presented, Abandons, LosesOpenWrite, Paced, Concludes, AbandonsWrite, Registered, Ends;
      stage, committedAt := Armed, clock;
      if aborted {
        NothingObserved();
        return Threw(OperationAborted), stage, committedAt;
      }
      CallsSucceed(suspended);
      var state, thrown := OpenDelivery(target, lease);
      if thrown.Some? { return Threw(thrown.value), stage, committedAt; }
      stage := Attempted;
      thrown := Attempt(target, lease, state);
      if thrown.Some? { return Threw(thrown.value), stage, committedAt; }
      stage := Committed;
      outcome, committedAt := ExecuteCommitted(target, lease, state);
    }

    lemma CallsSucceed(n: nat)
      ensures Uneventful(n) ==> NoCallFails()
    {
    }

    lemma NothingObserved()
      requires trace == []
      ensures Observation().lifecycle.None?
    {
    }

    /** A listener gets a delivery state, once nothing was written ahead of the submission. */
    method OpenDelivery(target: Target, lease: G.RuntimeLease)
      returns (state: ResponseDelivery?, thrown: Option<TurnError>)
      requires Holds(lease) && trace == [] && offered == [] && withheld == target.Project?
      requires (config.streaming ==> config.responseEvents)
      modifies this`called, this`marked
      ensures thrown.None? ==> Presented(state) && marked == old(marked) && (state != null ==> fresh(state))
      ensures thrown.Some? ==> Refuses(old(marked), lease, thrown.value)
      ensures NoCallFails() ==> thrown.None?
    {
      state, thrown := null, None;
      if config.streaming {
        thrown := AssertNoObservedPreSubmitWrite(lease, false);
        if thrown.None? { state := new ResponseDelivery(target.Project?); }
      }
    }

    method ExecuteCommitted(target: Target, lease: G.RuntimeLease, state: ResponseDelivery?)
      returns (outcome: Outcome, ghost committedAt: int)
      requires Holds(lease) && Presented(state) && R.Consistent(registry.Fields()) && polls == []
      modifies this, registry, state
      ensures Holds(lease) && Answered() && PolledFrom(committedAt)
      ensures commands == old(commands) + Submission(target, true)
        || commands == old(commands) + Submission(target, false)
      ensures withheld == old(withheld)
      ensures if Abandons(config, target, polls) then AbandonsWrite(old(Kept()), outcome)
        else Concludes(old(Kept()), lease, target, outcome)
      ensures target.Thread? && old(trace == [] && NoCallFails() && SendsAndAborts(suspended)) ==>
        Abandons(config, target, polls)
      ensures target.Fresh? && lease.generation == old(runtime.generation)
              && old(trace == [] && SendsAndLosesSight(suspended)) ==>
        LosesOpenWrite(lease, Committed, outcome)
    {
      hide W.Observe, V.Taken, E.TextOf, ShownText, AnsweredFaithfully, R.Consistent, ToldWholeAnswer, Presented,
           FirstSight, InTime, Abandons, Paced, Logged, DecidedBy, Quiet, AbandonsWrite, WasShown, V.Later;
      ghost var sent, next := config.environment.suspensions(suspended).events,
        config.environment.suspensions(suspended + 1).events;
      assert [] + sent == sent && [] + sent + next == sent + next;
      var thrown := Submit(target, lease, state);
      committedAt := clock;
      if thrown.Some? {
        NotPolled(target);
        PresentedIsAnswered(state);
        return Threw(thrown.value), committedAt;
      }
      outcome := WaitForTurnOutcome(target, lease, state, aborted);
    }

    lemma NotPolled(target: Target)
      requires polls == []
      ensures PolledFrom(clock) && !Abandons(config, target, polls)
    {
    }

    // -------------------------------------------------------------- after the turn

    method ConfirmCompletedTurn(result: TurnResult)
      modifies this`pendingProjectCompletions, registry
      ensures if result.completion.Some? && result.completion.value in old(pendingProjectCompletions) then
                && pendingProjectCompletions == old(pendingProjectCompletions) - {result.completion.value}
                && registry.Fields() == R.Commit(old(registry.Fields()),
                     old(pendingProjectCompletions)[result.completion.value].transaction)
              else
                && pendingProjectCompletions == old(pendingProjectCompletions)
                && registry.Fields() == old(registry.Fields())
    {
      if result.completion.None? || result.completion.value !in pendingProjectCompletions { return; }
      var pending := pendingProjectCompletions[result.completion.value];
      pendingProjectCompletions := pendingProjectCompletions - {result.completion.value};
      var _ := registry.CommitProvisional(pending.transaction);
    }

    /** Marks the lease exactly if the registration could still be taken back. */
    method RollbackCompletedTurn(result: TurnResult)
      modifies this`pendingProjectCompletions, this`marked, registry
      ensures if result.completion.Some? && result.completion.value in old(pendingProjectCompletions) then
                var pending := old(pendingProjectCompletions)[result.completion.value];
                && pendingProjectCompletions == old(pendingProjectCompletions) - {result.completion.value}
                && registry.Fields() == R.Rollback(old(registry.Fields()), pending.transaction)
                && marked == old(marked)
                  + (if R.IsPending(old(registry.Fields()), pending.transaction) then [pending.lease] else [])
              else
                && pendingProjectCompletions == old(pendingProjectCompletions)
                && registry.Fields() == old(registry.Fields()) && marked == old(marked)
    {
      if result.completion.None? || result.completion.value !in pendingProjectCompletions { return; }
      var pending := pendingProjectCompletions[result.completion.value];
      pendingProjectCompletions := pendingProjectCompletions - {result.completion.value};
      var undone := registry.RollbackProvisional(pending.transaction);
      if undone { marked := marked + [pending.lease]; }
    }

    // -------------------------------------------------------------- what an end of a turn means

    /** As far as the turn got, nothing of it is in flight. */
    ghost predicate NothingInFlight(stage: Stage)
      reads this`trace
    {
      if stage.Committed? then W.WriteSettled(Observation()) else Observation().lifecycle != Some(W.Active)
    }

    /** The next operation on the lease cannot overlap a write of this turn. */
    ghost predicate IsSafe(before: Records, lease: G.RuntimeLease, stage: Stage, outcome: Outcome)
      reads this
    {
      || marked == before.marked + [lease]
      || (outcome == Threw(RuntimeGenerationChanged) && IsDead(lease))
      || NothingInFlight(stage)
    }

    /** First unsafe end: the turn gives up on a thread's write for the caller's abort. */
    ghost predicate GivesUp(target: Target, stage: Stage)
      reads this`polls
    {
      stage.Committed? && Abandons(config, target, polls)
    }

    /**
     Second unsafe end: a changed generation is reported although the generation has not changed. Just
     then no process was visible; the write is still open, and nothing was marked.
     */
    ghost predicate LosesSight(lease: G.RuntimeLease, stage: Stage, outcome: Outcome)
      reads this
    {
      && outcome == Threw(RuntimeGenerationChanged)
      && lease.generation == runtime.generation && runtime.currentIdentity.None?
      && !NothingInFlight(stage)
    }

    ghost predicate LosesOpenWrite(lease: G.RuntimeLease, stage: Stage, outcome: Outcome)
      reads this
    {
      LosesSight(lease, stage, outcome) && stage.Committed? && Observation().lifecycle == Some(W.Active)
    }

    /** Every end of a turn is safe, except exactly these two. */
    lemma SafeExactly(before: Records, lease: G.RuntimeLease, target: Target, stage: Stage, outcome: Outcome)
      requires EndsAt(before, lease, target, stage, outcome) && !stage.Preparing? && Holds(lease)
      ensures IsSafe(before, lease, stage, outcome) <==> !GivesUp(target, stage) && !LosesSight(lease, stage, outcome)
    {
      hide W.Observe;
    }

    /** The first of them, told from its end: an abort reported with the write ACTIVE, to a caller who did abort. */
    lemma GivesUpExactly(before: Records, lease: G.RuntimeLease, target: Target, stage: Stage, outcome: Outcome)
      requires EndsAt(before, lease, target, stage, outcome)
      ensures GivesUp(target, stage) <==>
        stage.Committed? && outcome == Threw(OperationAborted) && Observation().lifecycle == Some(W.Active)
      ensures GivesUp(target, stage) ==> target.Thread? && aborted && Kept() == before
    {
      hide W.Observe;
    }

    /**
     What a caller can rely on: if the signal never fired, or the target is no thread, and if at the
     end a process is visible, or was replaced for good, the end is safe.
     */
    lemma SafeForCaller(before: Records, lease: G.RuntimeLease, target: Target, stage: Stage, outcome: Outcome)
      requires EndsAt(before, lease, target, stage, outcome) && !stage.Preparing? && Holds(lease)
      requires !aborted || !target.Thread?
      requires runtime.currentIdentity.Some? || IsDead(lease)
      ensures IsSafe(before, lease, stage, outcome)
    {
      GivesUpExactly(before, lease, target, stage, outcome);
      SafeExactly(before, lease, target, stage, outcome);
    }

    /**
     A streamed turn that returns has offered TEXT_DELTA* FINAL_TEXT COMPLETED to the end, all of it
     accepted, the deltas adding up to the final text, and that is the text of the whole body.
     */
    lemma ReturnsWholeAnswer(before: Records, lease: G.RuntimeLease, target: Target, stage: Stage, outcome: Outcome,
                             committedAt: int)
      requires Executed(before, lease, target, stage, outcome, committedAt) && outcome.Returned? && config.streaming
      ensures var taken := V.Taken(config.setup, trace);
        && IsWholeAnswer(offered, E.TextOf(taken)) && !IsBlank(E.TextOf(taken)) && V.ReadsAs(config.setup, trace, taken)
        && (forall n: nat :: IsPartialAnswer(offered, n) <==> n == |offered| - 2)
    {
      hide W.Observe, V.Taken, E.TextOf, V.ReadsAs, IsWholeAnswer, IsPartialAnswer, AnsweredFaithfully, ReturnsThread;
      WholeIsComplete(offered, E.TextOf(V.Taken(config.setup, trace)));
    }

    lemma PendingIsNew(before: Records, lease: G.RuntimeLease, target: Target, result: TurnResult)
      requires LeftPending(before, lease, target, result)
      ensures R.StateOf(before.registry, result.handle).None?
      ensures R.StateOf(registry.Fields(), result.handle) == Some(R.PROVISIONAL)
      ensures registry.Fields().committed == before.registry.committed
    {
    }

    /** A streamed Project turn either leaves one provisional thread, or no trace and a fenced lease. */
    lemma ProjectAllOrNothing(before: Records, lease: G.RuntimeLease, target: Target, stage: Stage, outcome: Outcome)
      requires EndsAt(before, lease, target, stage, outcome) && target.Project? && config.streaming
      requires (stage.Attempted? || stage.Committed?) && R.Consistent(before.registry) && Holds(lease)
      ensures outcome.Threw? ==>
        && R.SameThreads(registry.Fields(), before.registry)
        && (marked == before.marked + [lease]
            || (outcome.error.RuntimeGenerationChanged? && (IsDead(lease) || runtime.currentIdentity.None?)))
      ensures outcome.Returned? ==>
        && marked == before.marked && ToldWholeAnswer()
        && R.StateOf(before.registry, outcome.result.handle).None?
        && R.StateOf(registry.Fields(), outcome.result.handle) == Some(R.PROVISIONAL)
        && registry.Fields().committed == before.registry.committed
    {
      hide W.Observe, ToldWholeAnswer, R.Consistent, AbandonsWrite;
      if outcome.Returned? { PendingIsNew(before, lease, target, outcome.result); }
    }
  }

  const PROCESS := G.RuntimeIdentity(1, "process")
  const LEASE := G.RuntimeLease(1, PROCESS)
  const PROCESS_SEEN := G.Runtime(1, Some(PROCESS), Some(PROCESS))
  const QUIET := Suspension([], 0, false, [], None)
  const WRITE_SENT: NetworkEvent := W.RequestSent("write", Some(W.Write), false)

  /** A session that does what it is asked to; `suspensions` is all that happens to it. */
  function Obedient(setup: T.Setup, suspensions: nat -> Suspension): Config {
    var environment := Environment(
      suspensions, (n: nat) => None, (n: nat) => Composer(true, true, true, true, Some(1)), (n: nat) => None,
        (n: nat) => true, (n: nat) => false);
    Config(setup, false, true, true, true, 15000, 15000, 15000, 15000, 100000,
           (locator, project) => true, locator => true, environment)
  }

  /** The send control sends the write, and meanwhile the caller aborts. */
  function Aborting(n: nat): Suspension {
    if n == 3 then Suspension([WRITE_SENT], 0, true, [], None) else QUIET
  }

  /** Pressing Enter sends the write; while it is released no process is visible for a moment. */
  function LosingSight(n: nat): Suspension {
    if n == 3 then Suspension([WRITE_SENT], 0, false, [], None)
    else if n == 4 then Suspension([], 0, false, [None], Some(GenerationChanged))
    else QUIET
  }

  lemma WillAbort(executor: TurnExecutor, setup: T.Setup, handle: R.Handle)
    requires executor.config == Obedient(setup, Aborting)
    requires executor.registry.Resolve(handle).Some? && executor.suspended == 0 && !executor.aborted
    ensures executor.Unhindered(Thread(handle)) && executor.WillGiveUp(Thread(handle), 2)
  {
    hide W.Observe;
    OneWriteIsActive(setup);
    assert Aborting(3).events == [WRITE_SENT];
  }

  lemma WillBeOutOfSight(executor: TurnExecutor, setup: T.Setup)
    requires executor.config == Obedient(setup, LosingSight)
    requires executor.runtime == PROCESS_SEEN && executor.suspended == 0 && !executor.aborted
    ensures executor.Unhindered(Fresh) && executor.WillLoseSight(Fresh, LEASE, 2)
  {
    hide W.Observe;
    OneWriteIsActive(setup);
    assert LosingSight(3).events + LosingSight(4).events == [WRITE_SENT];
  }

  lemma OneThreadIsKnown(handle: R.Handle, locator: R.Locator)
    ensures R.Resolve(R.RegisterWithStatus((n: nat) => handle, R.EMPTY, locator).registry, handle) == Some(locator)
    ensures R.Consistent(R.RegisterWithStatus((n: nat) => handle, R.EMPTY, locator).registry)
  {
    R.RegisterConsistent((n: nat) => handle, R.EMPTY, locator);
  }

  lemma GaveUpOn(executor: TurnExecutor, before: Records, handle: R.Handle, stage: Stage, outcome: Outcome,
                 committedAt: int)
    requires executor.Executed(before, LEASE, Thread(handle), stage, outcome, committedAt)
    requires executor.GivesUp(Thread(handle), stage) && before.marked == []
    ensures outcome == Threw(OperationAborted) && executor.Observation().lifecycle == Some(W.Active)
    ensures executor.marked == [] && executor.commands == [Command.InsertText, ClickSend]
  {
    hide W.Observe;
    executor.GivesUpExactly(before, LEASE, Thread(handle), stage, outcome);
  }

  lemma OutOfSight(executor: TurnExecutor, before: Records, stage: Stage, outcome: Outcome, committedAt: int)
    requires executor.Executed(before, LEASE, Fresh, stage, outcome, committedAt) && executor.Holds(LEASE)
    requires executor.LosesOpenWrite(LEASE, stage, outcome) && before.marked == []
    ensures outcome == Threw(RuntimeGenerationChanged) && executor.Observation().lifecycle == Some(W.Active)
    ensures executor.marked == [] && executor.runtime == PROCESS_SEEN.(currentIdentity := None)
    ensures G.AssertCurrent(G.Observe(executor.runtime, Some(PROCESS)), LEASE).None?
  {
    hide W.Observe;
  }

  /**
   The first unsafe end, concretely: a whole thread turn whose caller aborts while the send control
   is clicked. It reports the abort with the write in flight and marks nothing.
   */
  method CancelledThreadTurn(setup: T.Setup, handle: R.Handle, locator: R.Locator)
    returns (outcome: Outcome, write: Option<W.WriteLifecycle>, marked: seq<G.RuntimeLease>, commands: seq<Command>)
    ensures outcome == Threw(OperationAborted) && write == Some(W.Active) && marked == []
    ensures commands == [Command.InsertText, ClickSend]
  {
    hide R.RegisterWithStatus, R.Resolve, R.Consistent, Obedient, Aborting, W.Observe, TurnExecutor.Executed,
         TurnExecutor.Unhindered,
         TurnExecutor.WillGiveUp, TurnExecutor.WillLoseSight, TurnExecutor.GivesUp, TurnExecutor.LosesOpenWrite;
    OneThreadIsKnown(handle, locator);
    var registry := new Registry.ThreadRegistry((n: nat) => handle);
    var _ := registry.RegisterWithStatus(locator);
    var executor := new TurnExecutor(Obedient(setup, Aborting), registry, PROCESS_SEEN, 0, 0);
    WillAbort(executor, setup, handle);
    ghost var before, stage, committedAt := executor.Kept(), Preparing, 0;
    outcome, stage, committedAt := executor.ExecuteScheduled(Thread(handle), LEASE);
    GaveUpOn(executor, before, handle, stage, outcome, committedAt);
    write, marked, commands := executor.Observation().lifecycle, executor.marked, executor.commands;
  }

  /**
   The second one: a fresh turn that loses sight of its process while Enter is released. It reports a
   changed generation with the write in flight and marks nothing; yet the generation is the same, and
   the lease is current again as soon as the process is seen.
   */
  method LostSightTurn(setup: T.Setup, handle: R.Handle)
    returns (outcome: Outcome, write: Option<W.WriteLifecycle>, marked: seq<G.RuntimeLease>, runtime: G.Runtime)
    ensures outcome == Threw(RuntimeGenerationChanged) && write == Some(W.Active) && marked == []
    ensures runtime == PROCESS_SEEN.(currentIdentity := None)
    ensures G.AssertCurrent(G.Observe(runtime, Some(PROCESS)), LEASE).None?
  {
    hide R.Consistent, Obedient, W.Observe;
    NoThreads();
    var registry := new Registry.ThreadRegistry((n: nat) => handle);
    var executor := new TurnExecutor(Obedient(setup, LosingSight), registry, PROCESS_SEEN, 0, 0);
    WillBeOutOfSight(executor, setup);
    ghost var before, stage, committedAt := executor.Kept(), Preparing, 0;
    outcome, stage, committedAt := executor.ExecuteScheduled(Fresh, LEASE);
    OutOfSight(executor, before, stage, outcome, committedAt);
    write, marked, runtime := executor.Observation().lifecycle, executor.marked, executor.runtime;
  }

  lemma NoThreads()
    ensures R.Consistent(R.EMPTY)
  {
  }

  lemma OneWriteIsActive(setup: T.Setup)
    ensures var o := W.Observe(setup, false, [WRITE_SENT]);
      o.lifecycle == Some(W.Active) && !o.ambiguous
  {
    V.Snoc(setup, false, [], WRITE_SENT);
    assert [] + [WRITE_SENT] == [WRITE_SENT];
  }
}

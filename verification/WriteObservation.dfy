/**
 The scoped observation of one turn's conversation write, as a state machine and as a function of
 the event history: which POST is the write, when its identity becomes ambiguous, how it ends.
 */
module WriteObservation {
  import opened Wrappers
  import E = EventStream
  import R = ResponseStream
  import T = ResponseTracking

  datatype RequestKind = Prepare | Write

  datatype WriteLifecycle = Active | Finished | Failed

  datatype Observation = Observation(
    prepareCount: nat,
    writeRequestId: Option<RequestId>,
    successful: Option<bool>,
    redirected: bool,
    lifecycle: Option<WriteLifecycle>,
    ambiguous: bool,
    response: Option<T.Tracker>)

  function Armed(responseStream: bool): Observation {
    Observation(0, None, None, false, None, false, if responseStream then Some(T.CREATED) else None)
  }

  /** Protocol events, and the two calls of the executor that change the response. */
  datatype Event =
    | RequestSent(id: RequestId, kind: Option<RequestKind>, fromRedirect: bool)
    | ResponseReceived(id: RequestId, status: int, activationThrows: bool)
    | DataReceived(id: RequestId, data: Option<string>)
    | RequestSettled(id: RequestId, failed: bool)
    | ActivationResolved(buffered: Option<string>)
    | ActivationRejected
    | EventsTaken
    | ResponseDiscarded

  predicate IsSuccessfulHttpStatus(status: int) {
    200 <= status < 300
  }

  function Tell(setup: T.Setup, o: Observation, input: T.Input): Observation {
    if o.response.None? then o else o.(response := Some(T.Step(setup, o.response.value, input)))
  }

  function MakeAmbiguous(setup: T.Setup, o: Observation): Observation {
    Tell(setup, o.(ambiguous := true), T.Disposing)
  }

  function OnRequestWillBeSent(setup: T.Setup, o: Observation, id: RequestId, kind: Option<RequestKind>,
                               fromRedirect: bool): Observation {
    if o.writeRequestId == Some(id) then
      if o.lifecycle != Some(Active) || !fromRedirect then MakeAmbiguous(setup, o)
      else Tell(setup, o.(redirected := true, successful := Some(false)), T.Failing(T.Incomplete))
    else match kind
      case None => o
      case Some(Prepare) => o.(prepareCount := o.prepareCount + 1)
      case Some(Write) =>
        if o.writeRequestId.None? then
          Tell(setup, o.(writeRequestId := Some(id), successful := None, redirected := false,
                         lifecycle := Some(Active)), T.Selected(id))
        else MakeAmbiguous(setup, o)
  }

  function OnResponseReceived(setup: T.Setup, o: Observation, id: RequestId, status: int, throws: bool): Observation {
    if o.writeRequestId != Some(id) || o.lifecycle != Some(Active) || o.redirected then o
    else
      var next := o.(successful := Some(IsSuccessfulHttpStatus(status)));
      if IsSuccessfulHttpStatus(status) then Tell(setup, next, T.Began(id, throws)) else next
  }

  function OnRequestSettled(setup: T.Setup, o: Observation, id: RequestId, failed: bool): Observation {
    if o.writeRequestId != Some(id) || o.lifecycle != Some(Active) then o
    else
      var end := if failed || o.redirected || o.successful != Some(true) then Failed else Finished;
      Tell(setup, o.(lifecycle := Some(end)), T.TransportSettled(id, failed || end == Failed))
  }

  function Step(setup: T.Setup, o: Observation, event: Event): Observation {
    match event
    case RequestSent(id, kind, fromRedirect) => OnRequestWillBeSent(setup, o, id, kind, fromRedirect)
    case ResponseReceived(id, status, throws) => OnResponseReceived(setup, o, id, status, throws)
    case DataReceived(id, data) => Tell(setup, o, T.DataReceived(id, data))
    case RequestSettled(id, failed) => OnRequestSettled(setup, o, id, failed)
    case ActivationResolved(buffered) => Tell(setup, o, T.ActivationResolved(buffered))
    case ActivationRejected => Tell(setup, o, T.ActivationRejected)
    case EventsTaken => Tell(setup, o, T.Draining)
    case ResponseDiscarded => Tell(setup, o, T.Discarding)
  }

  function Observe(setup: T.Setup, responseStream: bool, trace: seq<Event>): Observation {
    if trace == [] then Armed(responseStream)
    else Step(setup, Observe(setup, responseStream, trace[..|trace| - 1]), trace[|trace| - 1])
  }

  // ---------------------------------------------------------------- the history function

  datatype ResponseSnapshot = ResponseSnapshot(lifecycle: T.Lifecycle, failure: Option<T.FailureKind>)

  datatype Snapshot = Snapshot(prepareCount: nat, write: Option<WriteLifecycle>, response: Option<ResponseSnapshot>)

  /** What a poll reads; None stands for the error of an ambiguous write. */
  function Read(o: Observation): Option<Snapshot> {
    if o.ambiguous then None
    else Some(Snapshot(
      o.prepareCount,
      if o.writeRequestId.None? then None else o.lifecycle,
      if o.response.None? then None else Some(ResponseSnapshot(o.response.value.lifecycle, o.response.value.failure))))
  }

  function QueuedEvents(o: Observation): seq<E.Event> {
    if o.response.None? then [] else T.Queued(o.response.value)
  }

  predicate StartsWrite(e: Event) {
    e.RequestSent? && e.kind == Some(Write)
  }

  predicate Settles(e: Event, id: RequestId) {
    e.RequestSettled? && e.id == id
  }

  predicate SettledIn(es: seq<Event>, id: RequestId) {
    exists i :: 0 <= i < |es| && Settles(es[i], id)
  }

  predicate Redirects(e: Event, id: RequestId) {
    e.RequestSent? && e.id == id && e.fromRedirect
  }

  predicate RedirectedIn(es: seq<Event>, id: RequestId) {
    exists i :: 0 <= i < |es| && Redirects(es[i], id)
  }

  /** Whether the last response received for the request was 2xx; None if there was none. */
  function LastResponse(es: seq<Event>, id: RequestId): Option<bool> {
    if es == [] then None
    else
      var last := es[|es| - 1];
      if last.ResponseReceived? && last.id == id then Some(IsSuccessfulHttpStatus(last.status))
      else LastResponse(es[..|es| - 1], id)
  }

  /** Event `j` after the write makes its identity ambiguous. */
  predicate UnsafeAt(es: seq<Event>, j: nat, id: RequestId)
    requires j < |es|
  {
    es[j].RequestSent?
    && (if es[j].id == id then !es[j].fromRedirect || SettledIn(es[..j], id) else StartsWrite(es[j]))
  }

  predicate Unsafe(es: seq<Event>, id: RequestId) {
    exists j: nat :: j < |es| && UnsafeAt(es, j, id)
  }

  /** Event `s` is the first settlement, no failure, after a 2xx and no redirect. */
  predicate FinishesAt(es: seq<Event>, s: nat, id: RequestId)
    requires s < |es|
  {
    && Settles(es[s], id) && !SettledIn(es[..s], id) && !es[s].failed
    && !RedirectedIn(es[..s], id)
    && LastResponse(es[..s], id) == Some(true)
  }

  predicate Finishes(es: seq<Event>, id: RequestId) {
    exists s: nat :: s < |es| && FinishesAt(es, s, id)
  }

  predicate NoWriteIn(es: seq<Event>) {
    forall i | 0 <= i < |es| :: !StartsWrite(es[i])
  }

  /** Position of the first conversation POST, or the length. */
  function FirstWrite(trace: seq<Event>): nat {
    if NoWriteIn(trace) then |trace|
    else FirstWrite(trace[..|trace| - 1])
  }

  lemma {:induction false} FirstWriteIsFirst(trace: seq<Event>)
    ensures FirstWrite(trace) <= |trace|
    ensures forall i | 0 <= i < FirstWrite(trace) :: !StartsWrite(trace[i])
    ensures FirstWrite(trace) < |trace| <==> !NoWriteIn(trace)
    ensures FirstWrite(trace) < |trace| ==> StartsWrite(trace[FirstWrite(trace)])
  {
    if !NoWriteIn(trace) {
      var init := trace[..|trace| - 1];
      FirstWriteIsFirst(init);
      assert forall i | 0 <= i < |init| :: init[i] == trace[i];
    }
  }

  lemma FirstWriteUnique(trace: seq<Event>, w: nat)
    requires w < |trace| && StartsWrite(trace[w]) && forall i | 0 <= i < w :: !StartsWrite(trace[i])
    ensures FirstWrite(trace) == w
  {
    FirstWriteIsFirst(trace);
    assert !NoWriteIn(trace);
  }

  /** The observation's fields as a function of what followed the write. */
  ghost predicate Reflects(o: Observation, es: seq<Event>, id: RequestId) {
    && o.writeRequestId == Some(id)
    && o.lifecycle.Some?
    && o.ambiguous == Unsafe(es, id)
    && (o.lifecycle == Some(Active) <==> !SettledIn(es, id))
    && (o.lifecycle == Some(Active) ==>
          o.redirected == RedirectedIn(es, id)
          && o.successful == (if RedirectedIn(es, id) then Some(false) else LastResponse(es, id)))
    && (o.lifecycle == Some(Finished) <==> Finishes(es, id))
  }

  lemma SnocFacts(es: seq<Event>, e: Event, id: RequestId)
    ensures SettledIn(es + [e], id) <==> SettledIn(es, id) || Settles(e, id)
    ensures RedirectedIn(es + [e], id) <==> RedirectedIn(es, id) || Redirects(e, id)
    ensures LastResponse(es + [e], id)
         == (if e.ResponseReceived? && e.id == id then Some(IsSuccessfulHttpStatus(e.status)) else LastResponse(es, id))
  {
    var all := es + [e];
    assert all[..|es|] == es && all[|es|] == e;
    if SettledIn(es, id) {
      var i :| 0 <= i < |es| && Settles(es[i], id);
      assert Settles(all[i], id);
    }
    if RedirectedIn(es, id) {
      var i :| 0 <= i < |es| && Redirects(es[i], id);
      assert Redirects(all[i], id);
    }
  }

  lemma SnocUnsafe(es: seq<Event>, e: Event, id: RequestId)
    ensures Unsafe(es + [e], id) <==> Unsafe(es, id) || UnsafeAt(es + [e], |es|, id)
  {
    var all := es + [e];
    forall j: nat | j < |es| ensures UnsafeAt(es, j, id) <==> UnsafeAt(all, j, id) {
      assert all[..j] == es[..j];
    }
    if Unsafe(es, id) {
      var j: nat :| j < |es| && UnsafeAt(es, j, id);
      assert UnsafeAt(all, j, id);
    }
    if Unsafe(all, id) {
      var j: nat :| j < |all| && UnsafeAt(all, j, id);
      if j < |es| { assert UnsafeAt(es, j, id); }
    }
  }

  lemma SnocFinishes(es: seq<Event>, e: Event, id: RequestId)
    ensures Finishes(es + [e], id) <==> Finishes(es, id) || FinishesAt(es + [e], |es|, id)
  {
    var all := es + [e];
    forall s: nat | s < |es| ensures FinishesAt(es, s, id) <==> FinishesAt(all, s, id) {
      assert all[..s] == es[..s];
    }
    if Finishes(es, id) {
      var s: nat :| s < |es| && FinishesAt(es, s, id);
      assert FinishesAt(all, s, id);
    }
    if Finishes(all, id) {
      var s: nat :| s < |all| && FinishesAt(all, s, id);
      if s < |es| { assert FinishesAt(es, s, id); }
    }
  }

  lemma FinishesIsSettled(es: seq<Event>, id: RequestId)
    requires Finishes(es, id)
    ensures SettledIn(es, id)
  {
    var s: nat :| s < |es| && FinishesAt(es, s, id);
    assert Settles(es[s], id);
  }

  lemma ReflectsStep(setup: T.Setup, o: Observation, es: seq<Event>, id: RequestId, e: Event)
    requires Reflects(o, es, id)
    ensures Reflects(Step(setup, o, e), es + [e], id)
  {
    hide T.Step, Unsafe, Finishes, SettledIn, RedirectedIn, LastResponse;
    SnocFacts(es, e, id);
    SnocUnsafe(es, e, id);
    SnocFinishes(es, e, id);
    assert (es + [e])[..|es|] == es && (es + [e])[|es|] == e;
  }

  lemma BeforeWrite(setup: T.Setup, o: Observation, e: Event)
    requires o.writeRequestId.None? && o.lifecycle.None? && !o.ambiguous
    ensures var next := Step(setup, o, e);
      if StartsWrite(e) then Reflects(next, [], e.id)
      else next.writeRequestId.None? && next.lifecycle.None? && !next.ambiguous
  {
  }

  /** After any history the observation is what the history function says. */
  lemma {:induction false} ObservationIsHistory(setup: T.Setup, responseStream: bool, trace: seq<Event>)
    ensures var o := Observe(setup, responseStream, trace);
      var w := FirstWrite(trace);
      && w <= |trace|
      && (w == |trace| ==> o.writeRequestId.None? && o.lifecycle.None? && !o.ambiguous)
      && (w < |trace| ==> StartsWrite(trace[w]) && Reflects(o, trace[w + 1..], trace[w].id))
  {
    hide T.Step;
    FirstWriteIsFirst(trace);
    if trace != [] {
      var init, e := trace[..|trace| - 1], trace[|trace| - 1];
      ObservationIsHistory(setup, responseStream, init);
      FirstWriteIsFirst(init);
      var o := Observe(setup, responseStream, init);
      var w := FirstWrite(init);
      if w < |init| {
        FirstWriteUnique(trace, w);
        ReflectsStep(setup, o, init[w + 1..], init[w].id, e);
        assert trace[w + 1..] == init[w + 1..] + [e];
      } else {
        BeforeWrite(setup, o, e);
        assert forall i | 0 <= i < |init| :: trace[i] == init[i];
        if StartsWrite(e) {
          FirstWriteUnique(trace, |init|);
          assert trace[|init| + 1..] == [];
        } else {
          assert NoWriteIn(trace);
        }
      }
    }
  }

  /**
   The one clean history: the first conversation POST is the only one, its id is never sent again
   (so it is never redirected), its last response before the first settlement is 2xx, and that
   settlement is no failure.
   */
  ghost predicate CleanWrite(trace: seq<Event>) {
    exists w: nat, s: nat :: w < s < |trace| && CleanWriteAt(trace, w, s)
  }

  ghost predicate CleanWriteAt(trace: seq<Event>, w: nat, s: nat)
    requires w < s < |trace|
  {
    && StartsWrite(trace[w])
    && (forall i | 0 <= i < |trace| && i != w :: !StartsWrite(trace[i]))
    && (forall i | w < i < |trace| && trace[i].RequestSent? :: trace[i].id != trace[w].id)
    && Settles(trace[s], trace[w].id) && !trace[s].failed
    && (forall i | w < i < s :: !Settles(trace[i], trace[w].id))
    && LastResponse(trace[w + 1..s], trace[w].id) == Some(true)
  }

  /** A readable snapshot shows FINISHED exactly on the clean histories. */
  lemma FinishedExactly(setup: T.Setup, responseStream: bool, trace: seq<Event>)
    ensures var o := Observe(setup, responseStream, trace);
      !o.ambiguous && o.lifecycle == Some(Finished) <==> CleanWrite(trace)
  {
    ObservationIsHistory(setup, responseStream, trace);
    var o := Observe(setup, responseStream, trace);
    if !o.ambiguous && o.lifecycle == Some(Finished) {
      FinishedIsClean(trace);
    }
    if CleanWrite(trace) {
      CleanIsFinished(trace);
    }
  }

  lemma SettledBefore(es: seq<Event>, s: nat, j: nat, id: RequestId)
    requires s < j <= |es| && Settles(es[s], id)
    ensures SettledIn(es[..j], id)
  {
    assert Settles(es[..j][s], id);
  }

  lemma RedirectedBefore(es: seq<Event>, j: nat, s: nat, id: RequestId)
    requires j < s <= |es| && Redirects(es[j], id)
    ensures RedirectedIn(es[..s], id)
  {
    assert Redirects(es[..s][j], id);
  }

  /** A readable finished write was never sent again, and no other write was sent. */
  lemma NotResent(es: seq<Event>, s: nat, j: nat, id: RequestId)
    requires s < |es| && FinishesAt(es, s, id) && !Unsafe(es, id) && j < |es|
    ensures es[j].RequestSent? ==> es[j].id != id && !StartsWrite(es[j])
  {
    assert !UnsafeAt(es, j, id);
    if s < j { SettledBefore(es, s, j, id); }
    if j < s && Redirects(es[j], id) { RedirectedBefore(es, j, s, id); }
  }

  lemma FinishedIsClean(trace: seq<Event>)
    requires var w := FirstWrite(trace);
      w < |trace| && StartsWrite(trace[w])
      && !Unsafe(trace[w + 1..], trace[w].id) && Finishes(trace[w + 1..], trace[w].id)
    ensures CleanWrite(trace)
  {
    FirstWriteIsFirst(trace);
    var w := FirstWrite(trace);
    var id, es := trace[w].id, trace[w + 1..];
    var s: nat :| s < |es| && FinishesAt(es, s, id);
    CleanAt(trace, w, s, es);
  }

  lemma CleanAt(trace: seq<Event>, w: nat, s: nat, es: seq<Event>)
    requires w < |trace| && StartsWrite(trace[w]) && es == trace[w + 1..]
    requires forall i | 0 <= i < w :: !StartsWrite(trace[i])
    requires s < |es| && FinishesAt(es, s, trace[w].id) && !Unsafe(es, trace[w].id)
    ensures CleanWrite(trace)
  {
    var id := trace[w].id;
    forall i | w < i < |trace|
      ensures !StartsWrite(trace[i]) && (trace[i].RequestSent? ==> trace[i].id != id)
    {
      NotResent(es, s, i - w - 1, id);
    }
    forall i | w < i < w + 1 + s ensures !Settles(trace[i], id) {
      assert es[..s][i - w - 1] == trace[i];
    }
    assert trace[w + 1..w + 1 + s] == es[..s];
    assert CleanWriteAt(trace, w, w + 1 + s);
  }

  lemma CleanIsFinished(trace: seq<Event>)
    requires CleanWrite(trace)
    ensures var w := FirstWrite(trace);
      && w < |trace| && StartsWrite(trace[w])
      && !Unsafe(trace[w + 1..], trace[w].id) && Finishes(trace[w + 1..], trace[w].id)
  {
    hide Observe, Settles, FirstWrite;
    var w: nat, s: nat :| w < s < |trace| && CleanWriteAt(trace, w, s);
    FirstWriteUnique(trace, w);
    var id, es := trace[w].id, trace[w + 1..];
    forall j: nat | j < |es| ensures !UnsafeAt(es, j, id) {
      assert es[j] == trace[w + 1 + j];
    }
    assert es[..s - w - 1] == trace[w + 1..s];
    assert FinishesAt(es, s - w - 1, id);
  }

  /** Ambiguity is permanent, and the lifecycle of a write never goes back. */
  lemma WriteNeverReopens(setup: T.Setup, o: Observation, e: Event)
    requires o.lifecycle.Some? ==> o.writeRequestId.Some?
    ensures var next := Step(setup, o, e);
      && (next.lifecycle.Some? ==> next.writeRequestId.Some?)
      && (o.ambiguous ==> next.ambiguous)
      && (o.lifecycle.Some? && o.lifecycle != Some(Active) ==> next.lifecycle == o.lifecycle)
      && (o.lifecycle.Some? ==> next.lifecycle.Some?)
  {
  }

  // ---------------------------------------------------------------- the response of the write

  /** Ambiguity comes with the disposal of the response, and only then. */
  lemma WriteNeverAmbiguousAgain(setup: T.Setup, o: Observation, e: Event)
    ensures Step(setup, o, e).ambiguous <==> o.ambiguous || Told(o, e) == Some(T.Disposing)
  {
    hide T.Step;
  }

  /** What an event tells the response tracker, if anything. */
  function Told(o: Observation, event: Event): Option<T.Input> {
    match event
    case RequestSent(id, kind, fromRedirect) =>
      if o.writeRequestId == Some(id) then
        Some(if o.lifecycle != Some(Active) || !fromRedirect then T.Disposing else T.Failing(T.Incomplete))
      else if kind != Some(Write) then None
      else Some(if o.writeRequestId.None? then T.Selected(id) else T.Disposing)
    case ResponseReceived(id, status, throws) =>
      if o.writeRequestId == Some(id) && o.lifecycle == Some(Active) && !o.redirected
         && IsSuccessfulHttpStatus(status)
      then Some(T.Began(id, throws)) else None
    case RequestSettled(id, failed) =>
      if o.writeRequestId == Some(id) && o.lifecycle == Some(Active) then
        Some(T.TransportSettled(id, failed || o.redirected || o.successful != Some(true)))
      else None
    case DataReceived(id, data) => Some(T.DataReceived(id, data))
    case ActivationResolved(buffered) => Some(T.ActivationResolved(buffered))
    case ActivationRejected => Some(T.ActivationRejected)
    case EventsTaken => Some(T.Draining)
    case ResponseDiscarded => Some(T.Discarding)
  }

  lemma StepTells(setup: T.Setup, o: Observation, event: Event)
    requires o.response.Some?
    ensures Step(setup, o, event).response
         == (if Told(o, event).Some? then Some(T.Step(setup, o.response.value, Told(o, event).value)) else o.response)
  {
  }

  /** Body data and handed-out events of the observed response. */
  function HistoryOf(setup: T.Setup, trace: seq<Event>): T.History {
    if trace == [] then T.UNSEEN
    else
      var init, last := trace[..|trace| - 1], trace[|trace| - 1];
      NextHistory(setup, Observe(setup, true, init), HistoryOf(setup, init), last)
  }

  predicate WriteSettled(o: Observation) {
    o.lifecycle == Some(Finished) || o.lifecycle == Some(Failed)
  }

  /** The response follows the selected write, and cannot stay open once the write has settled. */
  predicate Linked(o: Observation) {
    && o.response.Some?
    && (o.lifecycle.Some? <==> o.writeRequestId.Some?)
    && (!o.ambiguous ==> !o.response.value.disposed && o.response.value.selected == o.writeRequestId)
    && (!o.ambiguous && WriteSettled(o) ==> Decided(o.response.value))
  }

  predicate Decided(t: T.Tracker) {
    T.IsTerminal(t) || T.AwaitsOnlyActivation(t)
  }

  /** How the write and its response belong together. */
  ghost predicate Coupled(setup: T.Setup, o: Observation, h: T.History) {
    && Linked(o)
    && T.Invariant(setup, o.response.value, h)
    && T.PendingBounded(o.response.value)
  }

  function NextHistory(setup: T.Setup, o: Observation, h: T.History, e: Event): T.History {
    if o.response.Some? && Told(o, e).Some? then T.Record(setup, o.response.value, h, Told(o, e).value) else h
  }

  lemma CoupledStep(setup: T.Setup, o: Observation, h: T.History, e: Event)
    requires Coupled(setup, o, h)
    ensures Coupled(setup, Step(setup, o, e), NextHistory(setup, o, h, e))
  {
    StepTells(setup, o, e);
    LinkedStep(setup, o, h, e);
    if Told(o, e).Some? {
      T.StepSound(setup, o.response.value, h, Told(o, e).value);
      T.PendingStaysBounded(setup, o.response.value, h, Told(o, e).value);
    }
  }

  lemma LinkedStep(setup: T.Setup, o: Observation, h: T.History, e: Event)
    requires Linked(o) && T.Invariant(setup, o.response.value, h)
    ensures Linked(Step(setup, o, e))
  {
    hide R.PushBase64, R.Finish, T.Invariant, T.Sound, T.Ordered, T.OnData, T.OnTransportSettled, T.CompleteActivation,
         T.Begin, T.Discard,
         T.Dispose, T.Drain, T.Fail, Step, Decided;
    StepTells(setup, o, e);
    var t := o.response.value;
    if Told(o, e).Some? {
      var input := Told(o, e).value;
      var next := T.Step(setup, t, input);
      if !input.Disposing? && !input.Selected? { T.IdentityKept(setup, t, h, input); }
      if !o.ambiguous && WriteSettled(o) && !input.Disposing? {
        DecidedPersists(setup, t, h, input);
      } else if !o.ambiguous && input.TransportSettled? {
        T.SettlementDecides(setup, t, h, input.id, input.failed);
      }
      FieldsLinked(setup, o, e, next);
    } else {
      UntoldLinked(setup, o, e);
    }
  }

  lemma UntoldLinked(setup: T.Setup, o: Observation, e: Event)
    requires Linked(o) && Told(o, e).None? && Step(setup, o, e).response == o.response
    ensures Linked(Step(setup, o, e))
  {
  }

  lemma DecidedPersists(setup: T.Setup, t: T.Tracker, h: T.History, input: T.Input)
    requires T.Invariant(setup, t, h) && Decided(t) && !input.Disposing?
    ensures Decided(T.Step(setup, t, input))
  {
    if T.IsTerminal(t) {
      T.TerminalAbsorbing(setup, t, h, input);
    } else {
      T.AwaitingPersists(setup, t, h, input);
    }
  }

  lemma FieldsLinked(setup: T.Setup, o: Observation, e: Event, next: T.Tracker)
    requires Linked(o) && Told(o, e).Some? && Step(setup, o, e).response == Some(next)
    requires var input := Told(o, e).value;
      && (!input.Disposing? && !input.Selected? ==> T.SameIdentity(o.response.value, next))
      && (input.Selected? ==> next == T.Select(o.response.value, input.id))
      && (!o.ambiguous && WriteSettled(o) && !input.Disposing? ==> Decided(next))
      && (!o.ambiguous && input.TransportSettled? ==> Decided(next))
    ensures Linked(Step(setup, o, e))
  {
  }

  /**
   Over every event history of a streamed turn: the response never claims more than the body means,
   its buffers stay exact and bounded, and once the write has settled unambiguously the response is
   terminal or waits for nothing but the activation promise.
   */
  lemma {:induction false} ObservedResponse(setup: T.Setup, trace: seq<Event>)
    ensures Coupled(setup, Observe(setup, true, trace), HistoryOf(setup, trace))
  {
    if trace == [] {
      T.CreatedSound(setup);
    } else {
      var init := trace[..|trace| - 1];
      ObservedResponse(setup, init);
      CoupledStep(setup, Observe(setup, true, init), HistoryOf(setup, init), trace[|trace| - 1]);
    }
  }

  /** The kind that `e` gives to the response of the write, failed already; None if it gives none. */
  function KindAfterFailure(o: Observation, t: T.Tracker, e: Event): Option<T.FailureKind> {
    match e
    case RequestSent(id, _, fromRedirect) =>
      if o.writeRequestId == Some(id) && o.lifecycle == Some(Active) && fromRedirect then Some(T.Incomplete) else None
    case RequestSettled(id, failed) =>
      if o.writeRequestId == Some(id) && o.lifecycle == Some(Active)
         && (failed || o.redirected || o.successful != Some(true)) then Some(T.Incomplete) else None
    case ActivationRejected => if t.inFlight.Some? && t.inFlight == o.writeRequestId then Some(T.ActivationFailed)
      else None
    case ResponseDiscarded => Some(T.ConsumerStopped)
    case _ => None
  }

  /**
   Over every event history, as long as the write is readable: the kind of a failed response changes
   exactly by a redirect or a failing settlement of the write, the rejection of its activation or a
   discard, and only to another kind.
   */
  lemma FailureKindChangesExactly(setup: T.Setup, trace: seq<Event>, e: Event)
    requires var o := Observe(setup, true, trace);
      && !o.ambiguous && o.response.Some?
      && o.response.value.lifecycle == T.Failed
    ensures var o, next := Observe(setup, true, trace), Observe(setup, true, trace + [e]);
      var t, kind := o.response.value, KindAfterFailure(o, o.response.value, e);
      && next.response.Some? && next.response.value.lifecycle == T.Failed
      && next.response.value.failure == (if kind.Some? then kind else t.failure)
  {
    hide T.Step, T.Invariant;
    var o, h := Observe(setup, true, trace), HistoryOf(setup, trace);
    ObservedResponse(setup, trace);
    StepTells(setup, o, e);
    assert (trace + [e])[..|trace|] == trace;
    if Told(o, e).Some? { T.LaterFailureOverwrites(setup, o.response.value, h, Told(o, e).value); }
  }

  /** The body counts as ended only for a write that finished. */
  lemma {:induction false} ClosedIsFinished(setup: T.Setup, trace: seq<Event>)
    ensures HistoryOf(setup, trace).settled ==> Observe(setup, true, trace).lifecycle == Some(Finished)
  {
    hide T.Step, T.Invariant;
    if trace != [] {
      var init, e := trace[..|trace| - 1], trace[|trace| - 1];
      ClosedIsFinished(setup, init);
      ObservedResponse(setup, init);
      WriteNeverReopens(setup, Observe(setup, true, init), e);
    }
  }

  /** And so only after the write that was first sent has been settled. */
  lemma ClosedBySettlement(setup: T.Setup, trace: seq<Event>)
    requires HistoryOf(setup, trace).settled
    ensures var w := FirstWrite(trace);
      w < |trace| && StartsWrite(trace[w]) && SettledIn(trace[w + 1..], trace[w].id)
  {
    ClosedIsFinished(setup, trace);
    ObservationIsHistory(setup, true, trace);
    var w := FirstWrite(trace);
    FinishesIsSettled(trace[w + 1..], trace[w].id);
  }
}

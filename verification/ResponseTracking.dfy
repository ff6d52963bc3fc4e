/**
 The response tracker as a state machine: which chunks reach the consumer, in which order, and how
 the stream of one request ends. `Step` follows class CdpResponseStreamTracker method for method.
 */
module ResponseTracking {
  import opened Wrappers
  import Base64
  import Utf8
  import E = EventStream
  import R = ResponseStream

  const MAX_PENDING_LIVE_BASE64_CHARS := 2_796_204
  const MAX_PENDING_LIVE_CHUNKS := 1024

  datatype Lifecycle = Pending | Streaming | Completed | Failed

  datatype FailureKind =
    Unavailable | ActivationFailed | ParseFailed | Incomplete | BufferOverflow | ConsumerStopped

  /** `streamable`: data events are observed and the protocol can stream a response body. */
  datatype Setup = Setup(consumer: R.Config, streamable: bool)

  /** `inFlight` is the request whose activation promise has not resolved yet. */
  datatype Tracker = Tracker(
    selected: Option<RequestId>,
    lifecycle: Lifecycle,
    failure: Option<FailureKind>,
    consumer: Option<R.State>,
    activationPending: bool,
    activated: bool,
    settledWhilePending: bool,
    pendingLive: seq<string>,
    pendingLiveChars: nat,
    disposed: bool,
    inFlight: Option<RequestId>)

  const CREATED :=
    Tracker(None, Pending, None, Some(R.FRESH), false, false, false, [], 0, false, None)

  predicate IsCurrent(t: Tracker, id: RequestId) {
    !t.disposed && t.selected == Some(id)
  }

  predicate IsTerminal(t: Tracker) {
    t.lifecycle == Failed || t.lifecycle == Completed
  }

  function ClearPending(t: Tracker): Tracker {
    t.(pendingLive := [], pendingLiveChars := 0)
  }

  function Fail(t: Tracker, kind: FailureKind): Tracker {
    if t.disposed || t.lifecycle == Completed then t
    else ClearPending(t.(
      lifecycle := Failed,
      failure := Some(kind),
      consumer := if t.consumer.Some? then Some(R.Stop(t.consumer.value)) else None,
      activationPending := false,
      activated := false))
  }

  function Select(t: Tracker, id: RequestId): Tracker {
    if !t.disposed && t.selected.None? then t.(selected := Some(id)) else t
  }

  /** `throws`: the protocol call fails before it returns a promise. */
  function Begin(setup: Setup, t: Tracker, id: RequestId, throws: bool): Tracker {
    if !IsCurrent(t, id) || t.lifecycle != Pending || t.activationPending || t.activated then t
    else if !setup.streamable then Fail(t, Unavailable)
    else if throws then Fail(t.(activationPending := true), ActivationFailed)
    else t.(activationPending := true, inFlight := Some(id))
  }

  function FailureOf(failure: R.Failure): FailureKind {
    if failure == R.BufferOverflow then BufferOverflow else ParseFailed
  }

  function ConsumeBase64(setup: Setup, t: Tracker, data: string): Tracker {
    if t.consumer.None? then t
    else
      var o := R.PushBase64(setup.consumer, t.consumer.value, data);
      var next := t.(consumer := Some(o.state));
      if o.failure.Some? then Fail(next, FailureOf(o.failure.value))
      else if o.state.completed then ClearPending(next.(lifecycle := Completed, failure := None))
      else next
  }

  function FinishConsumer(setup: Setup, t: Tracker): Tracker {
    if t.consumer.None? then Fail(t, Incomplete)
    else
      var o := R.Finish(setup.consumer, t.consumer.value);
      var next := t.(consumer := Some(o.state));
      if o.failure.Some? then Fail(next, FailureOf(o.failure.value))
      else if o.state.completed then next.(lifecycle := Completed, failure := None)
      else Fail(next, Incomplete)
  }

  function OnData(setup: Setup, t: Tracker, id: RequestId, data: Option<string>): Tracker {
    if data.None? || !IsCurrent(t, id) || IsTerminal(t) then t
    else if t.activationPending && !t.activated then
      if |t.pendingLive| >= MAX_PENDING_LIVE_CHUNKS then Fail(t, BufferOverflow)
      else
        var chars := t.pendingLiveChars + |data.value|;
        if chars > MAX_PENDING_LIVE_BASE64_CHARS then Fail(t.(pendingLiveChars := chars), BufferOverflow)
        else t.(pendingLiveChars := chars, pendingLive := t.pendingLive + [data.value])
    else if t.activated then ConsumeBase64(setup, t, data.value)
    else t
  }

  function OnTransportSettled(setup: Setup, t: Tracker, id: RequestId, failed: bool): Tracker {
    if !IsCurrent(t, id) || t.lifecycle == Completed then t
    else if failed then Fail(t, Incomplete)
    else if t.activationPending then t.(settledWhilePending := true)
    else if t.lifecycle == Streaming then FinishConsumer(setup, t)
    else if t.lifecycle == Pending then Fail(t, Incomplete)
    else t
  }

  /** Feed the chunks held back during activation, until one of them ends the stream. */
  function ConsumeAll(setup: Setup, t: Tracker, pending: seq<string>): Tracker {
    if pending == [] then t
    else
      var before := ConsumeAll(setup, t, pending[..|pending| - 1]);
      if IsTerminal(before) then before
      else ConsumeBase64(setup, before, pending[|pending| - 1])
  }

  lemma {:induction false} EndedEarly(setup: Setup, t: Tracker, some: seq<string>, rest: seq<string>)
    requires IsTerminal(ConsumeAll(setup, t, some))
    ensures ConsumeAll(setup, t, some + rest) == ConsumeAll(setup, t, some)
  {
    if rest == [] {
      assert some + rest == some;
    } else {
      var init := rest[..|rest| - 1];
      EndedEarly(setup, t, some, init);
      assert (some + rest)[..|some + rest| - 1] == some + init;
    }
  }

  lemma ConsumeNext(setup: Setup, t: Tracker, pending: seq<string>, i: nat)
    requires i < |pending| && !IsTerminal(ConsumeAll(setup, t, pending[..i]))
    ensures ConsumeAll(setup, t, pending[..i + 1])
         == ConsumeBase64(setup, ConsumeAll(setup, t, pending[..i]), pending[i])
    ensures IsTerminal(ConsumeAll(setup, t, pending[..i + 1])) || i + 1 == |pending| ==>
      ConsumeAll(setup, t, pending) == ConsumeAll(setup, t, pending[..i + 1])
  {
    hide ConsumeBase64;
    assert pending[..i + 1][..i] == pending[..i];
    assert pending == pending[..i + 1] + pending[i + 1..];
    if IsTerminal(ConsumeAll(setup, t, pending[..i + 1])) {
      EndedEarly(setup, t, pending[..i + 1], pending[i + 1..]);
    }
  }

  function ConsumeBuffered(setup: Setup, t: Tracker, buffered: Option<string>): Tracker {
    if buffered.Some? && |buffered.value| > 0 then ConsumeBase64(setup, t, buffered.value) else t
  }

  /** Feed what was held back; then a settlement that came first takes effect. */
  function ConsumeHeldBack(setup: Setup, t: Tracker): Tracker {
    var fed := ConsumeAll(setup, ClearPending(t), t.pendingLive);
    if fed.settledWhilePending && fed.lifecycle == Streaming then FinishConsumer(setup, fed) else fed
  }

  function CompleteActivation(setup: Setup, t: Tracker, id: RequestId, buffered: Option<string>): Tracker {
    if !IsCurrent(t, id) then t
    else if t.lifecycle == Failed then t.(activationPending := false)
    else
      var started := t.(activationPending := false, activated := true, lifecycle := Streaming);
      var first := ConsumeBuffered(setup, started, buffered);
      if IsTerminal(first) then ClearPending(first) else ConsumeHeldBack(setup, first)
  }

  function Discard(t: Tracker): Tracker {
    if t.disposed then t
    else
      var dropped := ClearPending(t.(consumer := None, activationPending := false, activated := false));
      if t.lifecycle == Completed then dropped
      else dropped.(lifecycle := Failed, failure := Some(ConsumerStopped))
  }

  function Dispose(t: Tracker): Tracker {
    ClearPending(t.(disposed := true, selected := None, consumer := None,
                    activationPending := false, activated := false))
  }

  function Queued(t: Tracker): seq<E.Event> {
    if t.consumer.Some? then t.consumer.value.events else []
  }

  function Drain(t: Tracker): Tracker {
    if t.consumer.Some? then t.(consumer := Some(R.Drain(t.consumer.value))) else t
  }

  datatype Input =
    | Selected(id: RequestId)
    | Began(id: RequestId, throws: bool)
    | DataReceived(id: RequestId, data: Option<string>)
    | ActivationResolved(buffered: Option<string>)
    | ActivationRejected
    | TransportSettled(id: RequestId, failed: bool)
    | Failing(kind: FailureKind)
    | Draining
    | Discarding
    | Disposing

  /** An activation promise settles at most once, and only if the call was made. */
  function Step(setup: Setup, t: Tracker, input: Input): Tracker {
    match input
    case Selected(id) => Select(t, id)
    case Began(id, throws) => Begin(setup, t, id, throws)
    case DataReceived(id, data) => OnData(setup, t, id, data)
    case ActivationResolved(buffered) =>
      if t.inFlight.None? then t
      else CompleteActivation(setup, t.(inFlight := None), t.inFlight.value, buffered)
    case ActivationRejected =>
      if t.inFlight.None? then t
      else if IsCurrent(t, t.inFlight.value) then Fail(t.(inFlight := None), ActivationFailed)
      else t.(inFlight := None)
    case TransportSettled(id, failed) => OnTransportSettled(setup, t, id, failed)
    case Failing(kind) => Fail(t, kind)
    case Draining => Drain(t)
    case Discarding => Discard(t)
    case Disposing => Dispose(t)
  }

  // ---------------------------------------------------------------- what has arrived

  /**
   Body data since the activation call, whether the transport of the observed request has settled
   without failing, and the events handed out.
   */
  datatype History = History(
    begun: bool, buffered: Option<string>, live: seq<string>, settled: bool, taken: seq<E.Event>)

  const UNSEEN := History(false, None, [], false, [])

  function Record(setup: Setup, t: Tracker, h: History, input: Input): History {
    match input
    case Began(id, throws) => h.(begun := h.begun || Step(setup, t, input).inFlight.Some?)
    case DataReceived(id, data) =>
      if h.begun && data.Some? && IsCurrent(t, id) then h.(live := h.live + [data.value]) else h
    case ActivationResolved(buffered) =>
      if t.inFlight.Some? && buffered.Some? && |buffered.value| > 0 then h.(buffered := buffered) else h
    case TransportSettled(id, failed) => h.(settled := h.settled || (!failed && IsCurrent(t, id)))
    case Draining => h.(taken := h.taken + Queued(t))
    case _ => h
  }

  /** The body as it must be read: what the protocol had buffered, then the live chunks in order. */
  function Arrivals(h: History): seq<string> {
    (if h.buffered.Some? then [h.buffered.value] else []) + h.live
  }

  predicate AllValid(chunks: seq<string>) {
    forall i | 0 <= i < |chunks| :: Base64.IsValidBase64(chunks[i])
  }

  function BytesOf(chunks: seq<string>): seq<Base64.Byte>
    requires AllValid(chunks)
  {
    if chunks == [] then [] else BytesOf(chunks[..|chunks| - 1]) + Base64.Decode(chunks[|chunks| - 1])
  }

  /** One pass over the joined chunks; None when they are not base64 of well-formed text. */
  function Meaning(json: E.JsonParser, chunks: seq<string>, ended: bool): Option<E.Reading> {
    if !AllValid(chunks) then None
    else match Utf8.Run(Utf8.START, BytesOf(chunks))
      case None => None
      case Some(run) =>
        if !ended then Some(E.ReadText(json, run.1))
        else if run.0.needed == 0 then Some(E.ReadFinal(json, run.1))
        else None
  }

  /** Some initial part of the arrivals, closed only if the transport has settled, means at least these events. */
  ghost predicate Within(json: E.JsonParser, settled: bool, arrivals: seq<string>, events: seq<E.Event>) {
    exists n: nat, ended: bool :: n <= |arrivals| && (ended ==> settled) && WithinAt(json, arrivals[..n], ended, events)
  }

  ghost predicate WithinAt(json: E.JsonParser, chunks: seq<string>, ended: bool, events: seq<E.Event>) {
    var m := Meaning(json, chunks, ended);
    m.Some? && events <= m.value.events
  }

  /** Some initial part of the arrivals ends with `[DONE]` and means exactly these events. */
  ghost predicate Finished(json: E.JsonParser, settled: bool, arrivals: seq<string>, events: seq<E.Event>) {
    exists n: nat, ended: bool :: n <= |arrivals| && (ended ==> settled)
      && FinishedAt(json, arrivals[..n], ended, events)
  }

  ghost predicate FinishedAt(json: E.JsonParser, chunks: seq<string>, ended: bool, events: seq<E.Event>) {
    var m := Meaning(json, chunks, ended);
    m.Some? && m.value.status == E.Done && events == m.value.events
  }

  /** The invariant of the response path. */
  ghost predicate Sound(setup: Setup, settled: bool, t: Tracker, arrivals: seq<string>, taken: seq<E.Event>) {
    var json := setup.consumer.json;
    && (t.inFlight.Some? ==> taken + Queued(t) == [])
    && (t.disposed ==> t.consumer.None?)
    && (t.lifecycle == Completed && t.consumer.Some? ==> Finished(json, settled, arrivals, taken + Queued(t)))
    && (t.lifecycle != Streaming || t.disposed ==> Within(json, settled, arrivals, taken + Queued(t)))
    && (t.lifecycle == Streaming && !t.disposed ==> StreamingFaithfully(setup, t, arrivals, taken))
  }

  ghost predicate StreamingFaithfully(setup: Setup, t: Tracker, arrivals: seq<string>, taken: seq<E.Event>) {
    && t.consumer.Some? && AllValid(arrivals)
    && t.activated && !t.activationPending && t.inFlight.None?
    && !t.consumer.value.completed
    && R.Faithful(setup.consumer, t.consumer.value, BytesOf(arrivals), taken)
  }

  /** Bookkeeping of the activation phase. */
  ghost predicate Ordered(t: Tracker, h: History) {
    && (t.inFlight.Some? ==> h.begun && h.buffered.None?)
    && (!h.begun ==> h.live == [] && h.buffered.None? && t.inFlight.None?)
    && (t.activated ==> h.begun)
    && (t.lifecycle == Pending && !t.disposed ==>
          !t.activated && t.consumer == Some(R.FRESH) && h.taken == []
          && (t.activationPending <==> t.inFlight.Some?)
          && (!t.activationPending ==> !h.begun))
    && (t.activationPending ==>
          t.lifecycle == Pending && !t.disposed && t.pendingLive == h.live && t.inFlight == t.selected)
    && (!t.activationPending ==> t.pendingLive == [] && t.pendingLiveChars == 0)
    && (t.activated ==> t.lifecycle == Streaming || t.lifecycle == Completed)
    && (t.lifecycle == Streaming || t.lifecycle == Completed ==> t.inFlight.None?)
    && (t.settledWhilePending ==> h.settled)
  }

  function TotalChars(chunks: seq<string>): nat {
    if chunks == [] then 0 else TotalChars(chunks[..|chunks| - 1]) + |chunks[|chunks| - 1]|
  }

  /** The memory held back during activation is counted exactly and stays within its limits. */
  predicate PendingBounded(t: Tracker) {
    && |t.pendingLive| <= MAX_PENDING_LIVE_CHUNKS
    && t.pendingLiveChars == TotalChars(t.pendingLive)
    && t.pendingLiveChars <= MAX_PENDING_LIVE_BASE64_CHARS
  }

  lemma RecordTaken(setup: Setup, t: Tracker, h: History, input: Input)
    requires !input.Draining?
    ensures Record(setup, t, h, input).taken == h.taken
  {
    hide Step;
  }

  /** Only discarding and disposing let go of the consumer. */
  lemma ConsumerKept(setup: Setup, t: Tracker, input: Input)
    requires t.consumer.Some? && !input.Discarding? && !input.Disposing?
    ensures Step(setup, t, input).consumer.Some?
  {
    hide R.PushBase64, R.Finish;
    match input
    case ActivationResolved(buffered) =>
      if t.inFlight.Some? { ActivationKeepsConsumer(setup, t.(inFlight := None), t.inFlight.value, buffered); }
    case _ =>
  }

  lemma ActivationKeepsConsumer(setup: Setup, t: Tracker, id: RequestId, buffered: Option<string>)
    requires t.consumer.Some?
    ensures CompleteActivation(setup, t, id, buffered).consumer.Some?
  {
    hide R.PushBase64, R.Finish;
    var started := t.(activationPending := false, activated := true, lifecycle := Streaming);
    var first := ConsumeBuffered(setup, started, buffered);
    ConsumeAllKeepsConsumer(setup, ClearPending(first), first.pendingLive);
  }

  lemma {:induction false} ConsumeAllKeepsConsumer(setup: Setup, t: Tracker, pending: seq<string>)
    requires t.consumer.Some?
    ensures ConsumeAll(setup, t, pending).consumer.Some?
  {
    hide R.PushBase64, R.Finish;
    if pending != [] { ConsumeAllKeepsConsumer(setup, t, pending[..|pending| - 1]); }
  }

  // ---------------------------------------------------------------- facts about arrivals

  lemma BytesAppend(chunks: seq<string>, data: string)
    requires AllValid(chunks) && Base64.IsValidBase64(data)
    ensures AllValid(chunks + [data])
    ensures BytesOf(chunks + [data]) == BytesOf(chunks) + Base64.Decode(data)
  {
    assert (chunks + [data])[..|chunks|] == chunks;
  }

  lemma WithinBy(json: E.JsonParser, settled: bool, arrivals: seq<string>, n: nat, ended: bool, events: seq<E.Event>)
    requires n <= |arrivals| && (ended ==> settled) && WithinAt(json, arrivals[..n], ended, events)
    ensures Within(json, settled, arrivals, events)
  {
  }

  lemma NothingIsWithin(json: E.JsonParser, settled: bool, arrivals: seq<string>)
    ensures Within(json, settled, arrivals, [])
  {
    assert arrivals[..0] == [];
    assert BytesOf([]) == [];
    WithinBy(json, settled, arrivals, 0, false, []);
  }

  lemma WithinGrows(json: E.JsonParser, settled: bool, a: seq<string>, more: seq<string>, events: seq<E.Event>)
    requires Within(json, settled, a, events)
    ensures Within(json, settled, a + more, events)
  {
    var n: nat, ended: bool :| n <= |a| && (ended ==> settled) && WithinAt(json, a[..n], ended, events);
    assert (a + more)[..n] == a[..n];
    WithinBy(json, settled, a + more, n, ended, events);
  }

  lemma WithinPrefix(json: E.JsonParser, settled: bool, arrivals: seq<string>, fewer: seq<E.Event>,
                     events: seq<E.Event>)
    requires Within(json, settled, arrivals, events) && fewer <= events
    ensures Within(json, settled, arrivals, fewer)
  {
    var n: nat, ended: bool :| n <= |arrivals| && (ended ==> settled) && WithinAt(json, arrivals[..n], ended, events);
    WithinBy(json, settled, arrivals, n, ended, fewer);
  }

  lemma FinishedBy(json: E.JsonParser, settled: bool, arrivals: seq<string>, n: nat, ended: bool, events: seq<E.Event>)
    requires n <= |arrivals| && (ended ==> settled) && FinishedAt(json, arrivals[..n], ended, events)
    ensures Finished(json, settled, arrivals, events) && Within(json, settled, arrivals, events)
  {
    WithinBy(json, settled, arrivals, n, ended, events);
  }

  lemma FinishedGrows(json: E.JsonParser, settled: bool, a: seq<string>, more: seq<string>, events: seq<E.Event>)
    requires Finished(json, settled, a, events)
    ensures Finished(json, settled, a + more, events)
  {
    var n: nat, ended: bool :| n <= |a| && (ended ==> settled) && FinishedAt(json, a[..n], ended, events);
    assert (a + more)[..n] == a[..n];
    FinishedBy(json, settled, a + more, n, ended, events);
  }

  lemma FaithfulIsWithin(setup: Setup, settled: bool, s: R.State, arrivals: seq<string>, taken: seq<E.Event>)
    requires AllValid(arrivals) && R.Faithful(setup.consumer, s, BytesOf(arrivals), taken)
    ensures Within(setup.consumer.json, settled, arrivals, taken + s.events)
    ensures s.completed ==> Finished(setup.consumer.json, settled, arrivals, taken + s.events)
  {
    assert arrivals[..|arrivals|] == arrivals;
    WithinBy(setup.consumer.json, settled, arrivals, |arrivals|, false, taken + s.events);
    if s.completed {
      FinishedBy(setup.consumer.json, settled, arrivals, |arrivals|, false, taken + s.events);
    }
  }

  /** Terminal and unopened states keep their meaning when more data arrives. */
  lemma SoundGrows(setup: Setup, settled: bool, t: Tracker, a: seq<string>, more: seq<string>, taken: seq<E.Event>)
    requires Sound(setup, settled, t, a, taken) && (t.lifecycle != Streaming || t.disposed)
    ensures Sound(setup, settled, t, a + more, taken)
  {
    WithinGrows(setup.consumer.json, settled, a, more, taken + Queued(t));
    if t.lifecycle == Completed && t.consumer.Some? {
      FinishedGrows(setup.consumer.json, settled, a, more, taken + Queued(t));
    }
  }

  // ---------------------------------------------------------------- feeding the consumer

  predicate OnlyStreamChanged(t: Tracker, next: Tracker) {
    && next.selected == t.selected && next.disposed == t.disposed && next.inFlight == t.inFlight
    && next.settledWhilePending == t.settledWhilePending
    && !next.activationPending
    && (next.lifecycle == Streaming ==>
          next.activated && next.pendingLive == t.pendingLive && next.pendingLiveChars == t.pendingLiveChars)
    && (next.lifecycle != Streaming ==> next.pendingLive == [] && next.pendingLiveChars == 0)
    && (next.lifecycle == Failed ==> !next.activated)
    && next.lifecycle != Pending
  }

  /** The tracker after a consumer call that ended with `o`. */
  function AfterConsumer(t: Tracker, o: R.Outcome): Tracker {
    var next := t.(consumer := Some(o.state));
    if o.failure.Some? then Fail(next, FailureOf(o.failure.value))
    else if o.state.completed then ClearPending(next.(lifecycle := Completed, failure := None))
    else next
  }

  lemma AfterConsumerSound(setup: Setup, settled: bool, t: Tracker, o: R.Outcome, arrivals: seq<string>,
                           taken: seq<E.Event>)
    requires t.lifecycle == Streaming && !t.disposed && t.activated && !t.activationPending && t.inFlight.None?
    requires o.failure.Some? ==> Within(setup.consumer.json, settled, arrivals, taken + o.state.events)
    requires o.failure.None? ==>
      AllValid(arrivals) && R.Faithful(setup.consumer, o.state, BytesOf(arrivals), taken)
    ensures Sound(setup, settled, AfterConsumer(t, o), arrivals, taken)
    ensures OnlyStreamChanged(t, AfterConsumer(t, o))
  {
    if o.failure.None? { FaithfulIsWithin(setup, settled, o.state, arrivals, taken); }
  }

  lemma ConsumeSound(setup: Setup, settled: bool, t: Tracker, data: string, arrivals: seq<string>, taken: seq<E.Event>)
    requires t.lifecycle == Streaming && !t.disposed && StreamingFaithfully(setup, t, arrivals, taken)
    ensures Sound(setup, settled, ConsumeBase64(setup, t, data), arrivals + [data], taken)
    ensures OnlyStreamChanged(t, ConsumeBase64(setup, t, data))
  {
    var s := t.consumer.value;
    var o := R.PushBase64(setup.consumer, s, data);
    R.PushFaithful(setup.consumer, s, data, BytesOf(arrivals), taken);
    if o.failure.Some? {
      FailedPushIsWithin(setup, settled, s, data, o, arrivals, taken);
    } else {
      BytesAppend(arrivals, data);
    }
    AfterConsumerSound(setup, settled, t, o, arrivals + [data], taken);
  }

  lemma FailedPushIsWithin(setup: Setup, settled: bool, s: R.State, data: string, o: R.Outcome,
                           arrivals: seq<string>, taken: seq<E.Event>)
    requires AllValid(arrivals) && R.Faithful(setup.consumer, s, BytesOf(arrivals), taken)
    requires R.PushAgrees(setup.consumer, s, data, o, BytesOf(arrivals), taken) && o.failure.Some?
    ensures Within(setup.consumer.json, settled, arrivals + [data], taken + o.state.events)
  {
    var json := setup.consumer.json;
    R.FailedPush(setup.consumer, s, data, o, BytesOf(arrivals), taken);
    if o.state == s {
      FaithfulIsWithin(setup, settled, s, arrivals, taken);
      WithinGrows(json, settled, arrivals, [data], taken + s.events);
    } else {
      BytesAppend(arrivals, data);
      ReadWithin(json, settled, arrivals + [data], taken + o.state.events);
    }
  }

  lemma ReadWithin(json: E.JsonParser, settled: bool, chunks: seq<string>, events: seq<E.Event>)
    requires AllValid(chunks) && R.TextOfBytes(BytesOf(chunks)).Some?
    requires events <= E.ReadText(json, R.TextOfBytes(BytesOf(chunks)).value).events
    ensures Within(json, settled, chunks, events)
  {
    assert chunks[..|chunks|] == chunks;
    WithinBy(json, settled, chunks, |chunks|, false, events);
  }

  lemma FinishIsWithin(setup: Setup, s: R.State, arrivals: seq<string>, taken: seq<E.Event>)
    requires AllValid(arrivals) && R.Faithful(setup.consumer, s, BytesOf(arrivals), taken) && !s.completed
    ensures var o := R.Finish(setup.consumer, s);
      && Within(setup.consumer.json, true, arrivals, taken + o.state.events)
      && (o.failure.None? && o.state.completed ==>
            Finished(setup.consumer.json, true, arrivals, taken + o.state.events))
  {
    var json := setup.consumer.json;
    var o := R.Finish(setup.consumer, s);
    R.FinishFaithful(setup.consumer, s, BytesOf(arrivals), taken);
    FaithfulIsWithin(setup, true, s, arrivals, taken);
    assert arrivals[..|arrivals|] == arrivals;
    if s.decoder.needed == 0 {
      assert o.failure.Some? ==> o.failure.value.ParseFailed? || o.failure.value.BufferOverflow?;
      WithinBy(json, true, arrivals, |arrivals|, true, taken + o.state.events);
      if o.failure.None? && o.state.completed {
        FinishedBy(json, true, arrivals, |arrivals|, true, taken + o.state.events);
      }
    }
  }

  /** The tracker after the consumer's last call ended with `o`. */
  function AfterFinish(t: Tracker, o: R.Outcome): Tracker {
    var next := t.(consumer := Some(o.state));
    if o.failure.Some? then Fail(next, FailureOf(o.failure.value))
    else if o.state.completed then next.(lifecycle := Completed, failure := None)
    else Fail(next, Incomplete)
  }

  lemma AfterFinishSound(setup: Setup, settled: bool, t: Tracker, o: R.Outcome, arrivals: seq<string>,
                         taken: seq<E.Event>)
    requires t.lifecycle == Streaming && !t.disposed && t.activated && !t.activationPending && t.inFlight.None?
    requires t.pendingLive == [] && t.pendingLiveChars == 0
    requires Within(setup.consumer.json, settled, arrivals, taken + o.state.events)
    requires o.failure.None? && o.state.completed ==>
      Finished(setup.consumer.json, settled, arrivals, taken + o.state.events)
    ensures Sound(setup, settled, AfterFinish(t, o), arrivals, taken)
    ensures IsTerminal(AfterFinish(t, o)) && OnlyStreamChanged(t, AfterFinish(t, o))
  {
  }

  lemma FinishSound(setup: Setup, t: Tracker, arrivals: seq<string>, taken: seq<E.Event>)
    requires t.lifecycle == Streaming && !t.disposed && StreamingFaithfully(setup, t, arrivals, taken)
    requires t.pendingLive == [] && t.pendingLiveChars == 0
    ensures Sound(setup, true, FinishConsumer(setup, t), arrivals, taken)
    ensures IsTerminal(FinishConsumer(setup, t)) && OnlyStreamChanged(t, FinishConsumer(setup, t))
  {
    var o := R.Finish(setup.consumer, t.consumer.value);
    FinishIsWithin(setup, t.consumer.value, arrivals, taken);
    AfterFinishSound(setup, true, t, o, arrivals, taken);
    assert FinishConsumer(setup, t) == AfterFinish(t, o);
  }

  lemma StreamChangesCompose(t: Tracker, before: Tracker, next: Tracker)
    requires OnlyStreamChanged(t, before) && !IsTerminal(before) && OnlyStreamChanged(before, next)
    ensures OnlyStreamChanged(t, next)
  {
  }

  lemma NextChunkSound(setup: Setup, settled: bool, t: Tracker, before: Tracker, last: string, arrivals: seq<string>,
                       taken: seq<E.Event>)
    requires !t.disposed && OnlyStreamChanged(t, before) && Sound(setup, settled, before, arrivals, taken)
    ensures var next := if IsTerminal(before) then before else ConsumeBase64(setup, before, last);
      Sound(setup, settled, next, arrivals + [last], taken) && OnlyStreamChanged(t, next)
  {
    hide ConsumeBase64;
    if IsTerminal(before) {
      SoundGrows(setup, settled, before, arrivals, [last], taken);
    } else {
      StillStreaming(setup, settled, t, before, arrivals, taken);
      ConsumeSound(setup, settled, before, last, arrivals, taken);
      StreamChangesCompose(t, before, ConsumeBase64(setup, before, last));
    }
  }

  lemma {:induction false} ConsumeAllSound(setup: Setup, settled: bool, t: Tracker, pending: seq<string>,
                                           arrivals: seq<string>, taken: seq<E.Event>)
    requires t.lifecycle == Streaming && !t.disposed && StreamingFaithfully(setup, t, arrivals, taken)
    ensures Sound(setup, settled, ConsumeAll(setup, t, pending), arrivals + pending, taken)
    ensures OnlyStreamChanged(t, ConsumeAll(setup, t, pending))
  {
    hide ConsumeBase64, Sound;
    if pending == [] {
      UnchangedSound(setup, settled, t, arrivals, taken);
      assert arrivals + pending == arrivals;
    } else {
      var init, last := pending[..|pending| - 1], pending[|pending| - 1];
      ConsumeAllSound(setup, settled, t, init, arrivals, taken);
      NextChunkSound(setup, settled, t, ConsumeAll(setup, t, init), last, arrivals + init, taken);
      assert arrivals + pending == (arrivals + init) + [last];
    }
  }

  lemma UnchangedSound(setup: Setup, settled: bool, t: Tracker, arrivals: seq<string>, taken: seq<E.Event>)
    requires t.lifecycle == Streaming && !t.disposed && StreamingFaithfully(setup, t, arrivals, taken)
    ensures Sound(setup, settled, t, arrivals, taken) && OnlyStreamChanged(t, t)
  {
  }

  lemma StillStreaming(setup: Setup, settled: bool, t: Tracker, next: Tracker, arrivals: seq<string>,
                       taken: seq<E.Event>)
    requires !t.disposed && OnlyStreamChanged(t, next) && !IsTerminal(next)
    requires Sound(setup, settled, next, arrivals, taken)
    ensures next.lifecycle == Streaming && !next.disposed && StreamingFaithfully(setup, next, arrivals, taken)
  {
  }

  // ---------------------------------------------------------------- every step keeps it

  ghost predicate Invariant(setup: Setup, t: Tracker, h: History) {
    Sound(setup, h.settled, t, Arrivals(h), h.taken) && Ordered(t, h)
  }

  lemma CreatedSound(setup: Setup)
    ensures Invariant(setup, CREATED, UNSEEN)
  {
    assert Arrivals(UNSEEN) == [] && UNSEEN.taken + Queued(CREATED) == [];
    NothingIsWithin(setup.consumer.json, false, []);
  }

  lemma StreamingIsWithin(setup: Setup, settled: bool, t: Tracker, arrivals: seq<string>, taken: seq<E.Event>)
    requires Sound(setup, settled, t, arrivals, taken)
    ensures Within(setup.consumer.json, settled, arrivals, taken + Queued(t))
    ensures Within(setup.consumer.json, settled, arrivals, taken)
  {
    if t.lifecycle == Streaming && !t.disposed {
      FaithfulIsWithin(setup, settled, t.consumer.value, arrivals, taken);
    }
    WithinPrefix(setup.consumer.json, settled, arrivals, taken, taken + Queued(t));
  }

  lemma FailSound(setup: Setup, t: Tracker, h: History, kind: FailureKind)
    requires Invariant(setup, t, h)
    ensures Invariant(setup, Fail(t, kind), h)
  {
    StreamingIsWithin(setup, h.settled, t, Arrivals(h), h.taken);
  }

  lemma DiscardSound(setup: Setup, t: Tracker, h: History)
    requires Invariant(setup, t, h)
    ensures Invariant(setup, Discard(t), h)
  {
    StreamingIsWithin(setup, h.settled, t, Arrivals(h), h.taken);
    assert h.taken + [] == h.taken;
  }

  lemma DisposeSound(setup: Setup, t: Tracker, h: History)
    requires Invariant(setup, t, h)
    ensures Invariant(setup, Dispose(t), h)
  {
    StreamingIsWithin(setup, h.settled, t, Arrivals(h), h.taken);
    assert h.taken + [] == h.taken;
  }

  lemma DrainSound(setup: Setup, t: Tracker, h: History)
    requires Invariant(setup, t, h)
    ensures Invariant(setup, Drain(t), h.(taken := h.taken + Queued(t)))
  {
    var taken := h.taken + Queued(t);
    assert taken + [] == taken;
    if t.consumer.Some? {
      assert Queued(Drain(t)) == [];
      if t.lifecycle == Streaming && !t.disposed {
        R.DrainFaithful(setup.consumer, t.consumer.value, BytesOf(Arrivals(h)), h.taken);
      }
    }
  }

  lemma BeginSound(setup: Setup, t: Tracker, h: History, id: RequestId, throws: bool)
    requires Invariant(setup, t, h)
    ensures Invariant(setup, Begin(setup, t, id, throws), Record(setup, t, h, Began(id, throws)))
  {
    FailSound(setup, t, h, Unavailable);
    assert h.taken + [] == h.taken;
  }

  lemma LiveDataSound(setup: Setup, t: Tracker, h: History, data: string)
    requires Invariant(setup, t, h) && t.lifecycle == Streaming && !t.disposed
    ensures Invariant(setup, ConsumeBase64(setup, t, data), h.(live := h.live + [data]))
  {
    hide ConsumeBase64, BytesOf;
    assert Arrivals(h.(live := h.live + [data])) == Arrivals(h) + [data];
    ConsumeSound(setup, h.settled, t, data, Arrivals(h), h.taken);
  }

  lemma HeldSound(setup: Setup, t: Tracker, h: History, data: string)
    requires Invariant(setup, t, h) && t.activationPending
    ensures Invariant(setup,
                      t.(pendingLive := t.pendingLive + [data], pendingLiveChars := t.pendingLiveChars + |data|),
                      h.(live := h.live + [data]))
  {
    assert Arrivals(h.(live := h.live + [data])) == Arrivals(h) + [data];
    SoundGrows(setup, h.settled, t, Arrivals(h), [data], h.taken);
  }

  lemma HeldDataSound(setup: Setup, t: Tracker, h: History, id: RequestId, data: string)
    requires Invariant(setup, t, h) && IsCurrent(t, id) && t.activationPending
    ensures Invariant(setup, OnData(setup, t, id, Some(data)), h.(live := h.live + [data]))
  {
    var held := t.(pendingLive := t.pendingLive + [data], pendingLiveChars := t.pendingLiveChars + |data|);
    HeldSound(setup, t, h, data);
    FailSound(setup, held, h.(live := h.live + [data]), BufferOverflow);
    var next := OnData(setup, t, id, Some(data));
    assert next == held || next == Fail(held, BufferOverflow);
  }

  lemma IgnoredDataSound(setup: Setup, t: Tracker, h: History, data: string)
    requires Invariant(setup, t, h) && IsTerminal(t) && h.begun
    ensures Invariant(setup, t, h.(live := h.live + [data]))
  {
    assert Arrivals(h.(live := h.live + [data])) == Arrivals(h) + [data];
    SoundGrows(setup, h.settled, t, Arrivals(h), [data], h.taken);
  }

  lemma DataSound(setup: Setup, t: Tracker, h: History, id: RequestId, data: Option<string>)
    requires Invariant(setup, t, h)
    ensures Invariant(setup, OnData(setup, t, id, data), Record(setup, t, h, DataReceived(id, data)))
  {
    if data.Some? && IsCurrent(t, id) && h.begun {
      if t.lifecycle == Streaming {
        LiveDataSound(setup, t, h, data.value);
      } else if t.lifecycle == Pending {
        HeldDataSound(setup, t, h, id, data.value);
      } else {
        IgnoredDataSound(setup, t, h, data.value);
      }
    }
  }

  /** Once the transport has settled, more may be read. */
  lemma SettledGrows(setup: Setup, t: Tracker, arrivals: seq<string>, taken: seq<E.Event>, settled: bool)
    requires Sound(setup, settled, t, arrivals, taken)
    ensures Sound(setup, true, t, arrivals, taken)
  {
    var json, events := setup.consumer.json, taken + Queued(t);
    if Within(json, settled, arrivals, events) {
      var n: nat, ended: bool :| n <= |arrivals| && (ended ==> settled) && WithinAt(json, arrivals[..n], ended, events);
      WithinBy(json, true, arrivals, n, ended, events);
    }
    if Finished(json, settled, arrivals, events) {
      var n: nat, ended: bool :| n <= |arrivals| && (ended ==> settled)
        && FinishedAt(json, arrivals[..n], ended, events);
      FinishedBy(json, true, arrivals, n, ended, events);
    }
  }

  lemma SettledSound(setup: Setup, t: Tracker, h: History, id: RequestId, failed: bool)
    requires Invariant(setup, t, h)
    ensures Invariant(setup, OnTransportSettled(setup, t, id, failed),
      Record(setup, t, h, TransportSettled(id, failed)))
  {
    hide R.Finish;
    FailSound(setup, t, h, Incomplete);
    SettledGrows(setup, t, Arrivals(h), h.taken, h.settled);
    SettledGrows(setup, Fail(t, Incomplete), Arrivals(h), h.taken, h.settled);
    if t.lifecycle == Streaming && IsCurrent(t, id) {
      FinishSound(setup, t, Arrivals(h), h.taken);
    }
  }

  lemma RejectedSound(setup: Setup, t: Tracker, h: History)
    requires Invariant(setup, t, h) && t.inFlight.Some?
    ensures Invariant(setup, Step(setup, t, ActivationRejected), h)
  {
    StreamingIsWithin(setup, h.settled, t, Arrivals(h), h.taken);
    if IsCurrent(t, t.inFlight.value) {
      assert h.taken + Queued(Fail(t.(inFlight := None), ActivationFailed)) == h.taken + Queued(t);
    }
  }

  lemma NotStarted(setup: Setup, t: Tracker, id: RequestId, buffered: Option<string>)
    requires !IsCurrent(t, id) || t.lifecycle == Failed
    ensures CompleteActivation(setup, t, id, buffered)
         == (if IsCurrent(t, id) then t.(activationPending := false) else t)
  {
  }

  /** A promise that resolves after the tracker gave up changes nothing that was read. */
  lemma LateActivationSound(setup: Setup, t: Tracker, h: History, buffered: Option<string>)
    requires Invariant(setup, t, h) && t.inFlight.Some? && (t.lifecycle != Pending || t.disposed)
    ensures Invariant(setup, Step(setup, t, ActivationResolved(buffered)),
                      Record(setup, t, h, ActivationResolved(buffered)))
    ensures Step(setup, t, ActivationResolved(buffered)) == t.(inFlight := None, activationPending := false)
  {
    NotStarted(setup, t.(inFlight := None), t.inFlight.value, buffered);
    GivenUpSound(setup, t, h, t.(inFlight := None, activationPending := false),
                 Record(setup, t, h, ActivationResolved(buffered)));
  }

  lemma GivenUpSound(setup: Setup, t: Tracker, h: History, next: Tracker, later: History)
    requires Invariant(setup, t, h) && t.inFlight.Some? && (t.lifecycle != Pending || t.disposed)
    requires next == t.(inFlight := None, activationPending := false)
    requires later == h || (later == h.(buffered := later.buffered) && h.begun)
    ensures Invariant(setup, next, later)
  {
    assert later.taken + Queued(next) == [];
    NothingIsWithin(setup.consumer.json, h.settled, Arrivals(later));
  }

  /** Activation: buffered data first, then the live chunks held back, then a remembered settlement. */
  lemma ActivationSound(setup: Setup, t: Tracker, h: History, buffered: Option<string>)
    requires Invariant(setup, t, h) && t.inFlight.Some? && t.lifecycle == Pending && !t.disposed
    ensures var next := Step(setup, t, ActivationResolved(buffered));
      && Invariant(setup, next, Record(setup, t, h, ActivationResolved(buffered)))
      && !next.activationPending && next.inFlight.None?
      && (t.settledWhilePending ==> IsTerminal(next))
      && next.selected == t.selected && next.disposed == t.disposed
  {
    hide R.PushBase64, R.Finish, R.Drain, BytesOf;
    var next := Record(setup, t, h, ActivationResolved(buffered));
    var head := if next.buffered.Some? then [next.buffered.value] else [];
    assert Arrivals(next) == head + h.live;
    var started := t.(inFlight := None, activationPending := false, activated := true, lifecycle := Streaming);
    var first := ConsumeBuffered(setup, started, buffered);
    FirstFeedSound(setup, h.settled, started, buffered, head);
    if IsTerminal(first) {
      SoundGrows(setup, h.settled, first, head, h.live, []);
    } else {
      var cleared := ClearPending(first);
      StillStreaming(setup, h.settled, started, first, head, []);
      assert StreamingFaithfully(setup, cleared, head, []);
      ConsumeAllSound(setup, h.settled, cleared, h.live, head, []);
      var fed := ConsumeAll(setup, cleared, h.live);
      if fed.settledWhilePending && fed.lifecycle == Streaming {
        FinishSound(setup, fed, Arrivals(next), []);
      }
    }
  }

  lemma FirstFeedSound(setup: Setup, settled: bool, started: Tracker, buffered: Option<string>, head: seq<string>)
    requires started.lifecycle == Streaming && !started.disposed && started.activated
    requires !started.activationPending && started.inFlight.None? && started.consumer == Some(R.FRESH)
    requires head == (if buffered.Some? && |buffered.value| > 0 then [buffered.value] else [])
    ensures Sound(setup, settled, ConsumeBuffered(setup, started, buffered), head, [])
    ensures OnlyStreamChanged(started, ConsumeBuffered(setup, started, buffered))
  {
    R.FreshIsFaithful(setup.consumer);
    assert BytesOf([]) == [];
    if buffered.Some? && |buffered.value| > 0 {
      ConsumeSound(setup, settled, started, buffered.value, [], []);
      assert [] + [buffered.value] == head;
    }
  }

  lemma SelectedSound(setup: Setup, t: Tracker, h: History, id: RequestId)
    requires Invariant(setup, t, h)
    ensures Invariant(setup, Step(setup, t, Selected(id)), Record(setup, t, h, Selected(id)))
  {
    hide R.PushBase64, R.Finish, ConsumeBase64, ConsumeHeldBack, Arrivals;
  }

  /** One step of the tracker, whatever it is. */
  lemma StepSound(setup: Setup, t: Tracker, h: History, input: Input)
    requires Invariant(setup, t, h)
    ensures Invariant(setup, Step(setup, t, input), Record(setup, t, h, input))
  {
    hide Invariant, Select, Begin, OnData, OnTransportSettled, CompleteActivation, Drain, Fail, Discard, Dispose;
    match input
    case Selected(id) => SelectedSound(setup, t, h, id);
    case Began(id, throws) => BeginSound(setup, t, h, id, throws);
    case DataReceived(id, data) => DataSound(setup, t, h, id, data);
    case ActivationResolved(buffered) =>
      if t.inFlight.Some? {
        if t.lifecycle != Pending || t.disposed {
          LateActivationSound(setup, t, h, buffered);
        } else {
          ActivationSound(setup, t, h, buffered);
        }
      }
    case ActivationRejected => if t.inFlight.Some? { RejectedSound(setup, t, h); }
    case TransportSettled(id, failed) => SettledSound(setup, t, h, id, failed);
    case Draining => DrainSound(setup, t, h);
    case Failing(kind) => FailSound(setup, t, h, kind);
    case Discarding => DiscardSound(setup, t, h);
    case Disposing => DisposeSound(setup, t, h);
  }

  // ---------------------------------------------------------------- whole runs

  datatype Run = Run(tracker: Tracker, history: History)

  function RunInputs(setup: Setup, inputs: seq<Input>): Run {
    if inputs == [] then Run(CREATED, UNSEEN)
    else
      var before := RunInputs(setup, inputs[..|inputs| - 1]);
      var last := inputs[|inputs| - 1];
      Run(Step(setup, before.tracker, last), Record(setup, before.tracker, before.history, last))
  }

  /**
   Over every sequence of protocol events and polls: events handed out and still queued are always
   an initial part of what some initial part of the body means; a COMPLETED stream whose queue has
   not been discarded has produced exactly the events of a body that ends with `[DONE]`. The body
   counts as ended only once its transport has settled without failing.
   */
  lemma {:induction false} ResponsePathSound(setup: Setup, inputs: seq<Input>)
    ensures Invariant(setup, RunInputs(setup, inputs).tracker, RunInputs(setup, inputs).history)
    ensures var r := RunInputs(setup, inputs);
      && Within(setup.consumer.json, r.history.settled, Arrivals(r.history), r.history.taken + Queued(r.tracker))
      && (r.tracker.lifecycle == Completed && r.tracker.consumer.Some? ==>
            Finished(setup.consumer.json, r.history.settled, Arrivals(r.history), r.history.taken + Queued(r.tracker)))
  {
    if inputs == [] {
      CreatedSound(setup);
    } else {
      var before := RunInputs(setup, inputs[..|inputs| - 1]);
      ResponsePathSound(setup, inputs[..|inputs| - 1]);
      StepSound(setup, before.tracker, before.history, inputs[|inputs| - 1]);
    }
    var r := RunInputs(setup, inputs);
    StreamingIsWithin(setup, r.history.settled, r.tracker, Arrivals(r.history), r.history.taken);
  }

  /** COMPLETED and FAILED are each absorbing (the kind of a failure may still be overwritten). */
  lemma TerminalAbsorbing(setup: Setup, t: Tracker, h: History, input: Input)
    requires Invariant(setup, t, h) && IsTerminal(t)
    ensures Step(setup, t, input).lifecycle == t.lifecycle
    ensures t.lifecycle == Completed ==> Step(setup, t, input).failure == t.failure
  {
  }

  /** The kind that `input` gives to a response that has failed already; None if it gives none. */
  function KindAfterFailure(t: Tracker, input: Input): Option<FailureKind> {
    match input
    case Failing(kind) => Some(kind)
    case TransportSettled(id, failed) => if failed && IsCurrent(t, id) then Some(Incomplete) else None
    case ActivationRejected =>
      if t.inFlight.Some? && IsCurrent(t, t.inFlight.value) then Some(ActivationFailed) else None
    case Discarding => Some(ConsumerStopped)
    case _ => None
  }

  /**
   A later failure replaces the kind of an earlier one, exactly: only a direct failure, a failed
   settlement of the current request, the rejection of its activation and a discard do so, each with
   its own kind; whatever else happens leaves the kind alone.
   */
  lemma LaterFailureOverwrites(setup: Setup, t: Tracker, h: History, input: Input)
    requires Invariant(setup, t, h) && t.lifecycle == Failed && !t.disposed
    ensures var next, kind := Step(setup, t, input), KindAfterFailure(t, input);
      && next.lifecycle == Failed
      && next.failure == (if kind.Some? then kind else t.failure)
      && (next.failure != t.failure <==> kind.Some? && kind != t.failure)
  {
    hide R.PushBase64, R.Finish;
    if input.ActivationResolved? && t.inFlight.Some? { LateActivationSound(setup, t, h, input.buffered); }
  }

  /** What is left to decide once the transport has settled. */
  predicate AwaitsOnlyActivation(t: Tracker) {
    t.activationPending && t.settledWhilePending && t.inFlight.Some? && t.inFlight == t.selected && !t.disposed
  }

  /** Settlement of the selected request decides the stream, or only the activation is missing. */
  lemma SettlementDecides(setup: Setup, t: Tracker, h: History, id: RequestId, failed: bool)
    requires Invariant(setup, t, h) && IsCurrent(t, id)
    ensures var next := OnTransportSettled(setup, t, id, failed);
            IsTerminal(next) || AwaitsOnlyActivation(next)
  {
    if t.lifecycle == Streaming { FinishSound(setup, t, Arrivals(h), h.taken); }
  }

  /** Either outcome of the activation then ends the stream. */
  lemma ActivationDecides(setup: Setup, t: Tracker, h: History, input: Input)
    requires Invariant(setup, t, h) && AwaitsOnlyActivation(t)
    requires input.ActivationResolved? || input.ActivationRejected?
    ensures IsTerminal(Step(setup, t, input))
  {
    if input.ActivationResolved? { ActivationSound(setup, t, h, input.buffered); }
  }

  /** Until then nothing else takes the decision away: the state ends or keeps waiting. */
  lemma AwaitingPersists(setup: Setup, t: Tracker, h: History, input: Input)
    requires Invariant(setup, t, h) && AwaitsOnlyActivation(t) && !input.Disposing?
    ensures var next := Step(setup, t, input); IsTerminal(next) || AwaitsOnlyActivation(next)
  {
    if input.ActivationResolved? || input.ActivationRejected? { ActivationDecides(setup, t, h, input); }
  }

  predicate SameIdentity(t: Tracker, next: Tracker) {
    next.selected == t.selected && next.disposed == t.disposed
  }

  lemma ConsumerKeepsIdentity(setup: Setup, t: Tracker, data: string)
    ensures SameIdentity(t, ConsumeBase64(setup, t, data)) && SameIdentity(t, FinishConsumer(setup, t))
  {
    hide R.PushBase64, R.Finish;
    if t.consumer.Some? {
      var pushed, finished := R.PushBase64(setup.consumer, t.consumer.value, data),
        R.Finish(setup.consumer, t.consumer.value);
      assert ConsumeBase64(setup, t, data) == AfterConsumer(t, pushed);
      assert FinishConsumer(setup, t) == AfterFinish(t, finished);
    }
  }

  lemma ActivationKeepsIdentity(setup: Setup, t: Tracker, h: History, buffered: Option<string>)
    requires Invariant(setup, t, h)
    ensures SameIdentity(t, Step(setup, t, ActivationResolved(buffered)))
  {
    if t.inFlight.Some? {
      if t.lifecycle != Pending || t.disposed {
        LateActivationSound(setup, t, h, buffered);
      } else {
        ActivationSound(setup, t, h, buffered);
      }
    }
  }

  /** Only selecting and disposing change which request is observed. */
  lemma IdentityKept(setup: Setup, t: Tracker, h: History, input: Input)
    requires Invariant(setup, t, h) && !input.Disposing? && !input.Selected?
    ensures SameIdentity(t, Step(setup, t, input))
  {
    hide Invariant, ConsumeBase64, FinishConsumer, CompleteActivation;
    match input
    case DataReceived(id, data) => if data.Some? { ConsumerKeepsIdentity(setup, t, data.value); }
    case TransportSettled(id, failed) => ConsumerKeepsIdentity(setup, t, "");
    case ActivationResolved(buffered) => ActivationKeepsIdentity(setup, t, h, buffered);
    case _ =>
  }

  /** The chunk and character counts of the held-back data are exact and bounded. */
  lemma PendingStaysBounded(setup: Setup, t: Tracker, h: History, input: Input)
    requires Invariant(setup, t, h) && PendingBounded(t)
    ensures PendingBounded(Step(setup, t, input))
  {
    StepSound(setup, t, h, input);
    var next := Step(setup, t, input);
    if input.ActivationResolved? && t.inFlight.Some? {
      if t.lifecycle != Pending || t.disposed {
        LateActivationSound(setup, t, h, input.buffered);
      } else {
        ActivationSound(setup, t, h, input.buffered);
      }
    } else if next.activationPending {
      HeldBounded(setup, t, h, input);
    }
    assert TotalChars([]) == 0;
  }

  lemma HeldBounded(setup: Setup, t: Tracker, h: History, input: Input)
    requires Ordered(t, h) && PendingBounded(t)
    requires !input.ActivationResolved? || t.inFlight.None?
    requires Step(setup, t, input).activationPending
    ensures PendingBounded(Step(setup, t, input))
  {
    if input.DataReceived? && input.data.Some? {
      assert (t.pendingLive + [input.data.value])[..|t.pendingLive|] == t.pendingLive;
    }
  }
}

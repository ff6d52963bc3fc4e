/** The tracker object around one consumer; its methods follow the steps of ResponseTracking. */
module CdpResponseStreamTracker {
  import opened Wrappers
  import E = EventStream
  import C = ResponseStreamConsumer
  import R = ResponseStream
  import T = ResponseTracking

  class CdpResponseStreamTracker {
    const setup: T.Setup
    var selectedRequestId: Option<RequestId>
    var lifecycle: T.Lifecycle
    var failure: Option<T.FailureKind>
    var consumer: C.ResponseStreamConsumer?
    var activationPending: bool
    var activated: bool
    var transportSettledWhileActivationPending: bool
    var pendingLiveData: seq<string>
    var pendingLiveBase64Chars: nat
    var disposed: bool
    /** The request an unsettled activation promise was made for. */
    var inFlight: Option<RequestId>

    ghost function Footprint(): set<object>
      reads this
    {
      if consumer == null then {this} else {this, consumer}
    }

    ghost predicate Valid()
      reads this, Footprint()
    {
      consumer != null ==> consumer.config == setup.consumer
    }

    ghost function Fields(): T.Tracker
      reads this, Footprint()
    {
      T.Tracker(selectedRequestId, lifecycle, failure,
                if consumer == null then None else Some(consumer.Fields()),
                activationPending, activated, transportSettledWhileActivationPending,
                pendingLiveData, pendingLiveBase64Chars, disposed, inFlight)
    }

    constructor (setup: T.Setup)
      ensures Valid() && fresh(Footprint())
      ensures this.setup == setup && Fields() == T.CREATED
    {
      this.setup := setup;
      selectedRequestId, lifecycle, failure := None, T.Pending, None;
      activationPending, activated, transportSettledWhileActivationPending := false, false, false;
      pendingLiveData, pendingLiveBase64Chars, disposed := [], 0, false;
      inFlight := None;
      var created := new C.ResponseStreamConsumer(setup.consumer);
      consumer := created;
    }

    method Select(requestId: RequestId)
      requires Valid()
      modifies this
      ensures Valid() && consumer == old(consumer)
      ensures Fields() == T.Select(old(Fields()), requestId)
    {
      if !disposed && selectedRequestId.None? { selectedRequestId := Some(requestId); }
    }

    /** `throws`: the protocol call fails at once; otherwise its promise is in flight afterwards. */
    method Begin(requestId: RequestId, throws: bool)
      requires Valid()
      modifies Footprint()
      ensures Valid() && consumer == old(consumer)
      ensures Fields() == T.Begin(setup, old(Fields()), requestId, throws)
    {
      if !IsCurrent(requestId) || lifecycle != T.Pending || activationPending || activated { return; }
      if !setup.streamable {
        Fail(T.Unavailable);
        return;
      }
      activationPending := true;
      if throws {
        Fail(T.ActivationFailed);
        return;
      }
      inFlight := Some(requestId);
    }

    method OnData(requestId: RequestId, data: Option<string>)
      requires Valid()
      modifies Footprint()
      ensures Valid() && consumer == old(consumer)
      ensures Fields() == T.OnData(setup, old(Fields()), requestId, data)
    {
      if data.None? || !IsCurrent(requestId) || lifecycle == T.Failed || lifecycle == T.Completed { return; }
      if activationPending && !activated {
        if |pendingLiveData| >= T.MAX_PENDING_LIVE_CHUNKS {
          Fail(T.BufferOverflow);
          return;
        }
        pendingLiveBase64Chars := pendingLiveBase64Chars + |data.value|;
        if pendingLiveBase64Chars > T.MAX_PENDING_LIVE_BASE64_CHARS {
          Fail(T.BufferOverflow);
          return;
        }
        pendingLiveData := pendingLiveData + [data.value];
        return;
      }
      if activated { ConsumeBase64(data.value); }
    }

    method OnTransportSettled(requestId: RequestId, failed: bool)
      requires Valid()
      modifies Footprint()
      ensures Valid() && consumer == old(consumer)
      ensures Fields() == T.OnTransportSettled(setup, old(Fields()), requestId, failed)
    {
      if !IsCurrent(requestId) || lifecycle == T.Completed { return; }
      if failed {
        Fail(T.Incomplete);
        return;
      }
      if activationPending {
        transportSettledWhileActivationPending := true;
        return;
      }
      if lifecycle == T.Streaming {
        FinishConsumer();
        return;
      }
      if lifecycle == T.Pending { Fail(T.Incomplete); }
    }

    method Drain() returns (events: seq<E.Event>)
      requires Valid()
      modifies Footprint()
      ensures Valid() && consumer == old(consumer)
      ensures events == T.Queued(old(Fields())) && Fields() == T.Drain(old(Fields()))
    {
      events := [];
      if consumer != null { events := consumer.Drain(); }
    }

    method Fail(kind: T.FailureKind)
      requires Valid()
      modifies Footprint()
      ensures Valid() && consumer == old(consumer)
      ensures Fields() == T.Fail(old(Fields()), kind)
    {
      if disposed || lifecycle == T.Completed { return; }
      lifecycle := T.Failed;
      failure := Some(kind);
      if consumer != null { consumer.Stop(); }
      activationPending, activated := false, false;
      pendingLiveData, pendingLiveBase64Chars := [], 0;
    }

    method Discard()
      requires Valid()
      modifies Footprint()
      ensures Valid() && (consumer == old(consumer) || consumer == null)
      ensures Fields() == T.Discard(old(Fields()))
    {
      if disposed { return; }
      if consumer != null { consumer.Dispose(); }
      consumer := null;
      activationPending, activated := false, false;
      pendingLiveData, pendingLiveBase64Chars := [], 0;
      if lifecycle != T.Completed {
        lifecycle := T.Failed;
        failure := Some(T.ConsumerStopped);
      }
    }

    method Dispose()
      requires Valid()
      modifies Footprint()
      ensures Valid() && consumer == null
      ensures Fields() == T.Dispose(old(Fields()))
    {
      disposed := true;
      selectedRequestId := None;
      if consumer != null { consumer.Dispose(); }
      consumer := null;
      activationPending, activated := false, false;
      pendingLiveData, pendingLiveBase64Chars := [], 0;
    }

    /** The promise's fulfilment callback; it runs at most once per call that was made. */
    method ActivationResolved(bufferedData: Option<string>)
      requires Valid()
      modifies Footprint()
      ensures Valid() && consumer == old(consumer)
      ensures Fields() == T.Step(setup, old(Fields()), T.ActivationResolved(bufferedData))
    {
      if inFlight.None? { return; }
      var requestId := inFlight.value;
      inFlight := None;
      CompleteActivation(requestId, bufferedData);
    }

    method ActivationRejected()
      requires Valid()
      modifies Footprint()
      ensures Valid() && consumer == old(consumer)
      ensures Fields() == T.Step(setup, old(Fields()), T.ActivationRejected)
    {
      if inFlight.None? { return; }
      var requestId := inFlight.value;
      inFlight := None;
      if IsCurrent(requestId) { Fail(T.ActivationFailed); }
    }

    method CompleteActivation(requestId: RequestId, bufferedData: Option<string>)
      requires Valid()
      modifies Footprint()
      ensures Valid() && consumer == old(consumer)
      ensures Fields() == T.CompleteActivation(setup, old(Fields()), requestId, bufferedData)
    {
      hide T.ConsumeBase64, T.ConsumeHeldBack;
      if !IsCurrent(requestId) { return; }
      activationPending := false;
      if lifecycle == T.Failed { return; }
      activated := true;
      lifecycle := T.Streaming;
      if bufferedData.Some? && |bufferedData.value| > 0 { ConsumeBase64(bufferedData.value); }
      if IsTerminal() {
        pendingLiveData, pendingLiveBase64Chars := [], 0;
        return;
      }
      ConsumeHeldBack();
    }

    method ConsumeHeldBack()
      requires Valid() && !IsTerminal()
      modifies Footprint()
      ensures Valid() && consumer == old(consumer)
      ensures Fields() == T.ConsumeHeldBack(setup, old(Fields()))
    {
      var pending := pendingLiveData;
      pendingLiveData, pendingLiveBase64Chars := [], 0;
      ConsumePending(pending);
      if transportSettledWhileActivationPending && lifecycle == T.Streaming { FinishConsumer(); }
    }

    method ConsumePending(pending: seq<string>)
      requires Valid() && !IsTerminal()
      modifies Footprint()
      ensures Valid() && consumer == old(consumer)
      ensures Fields() == T.ConsumeAll(setup, old(Fields()), pending)
    {
      ghost var start := Fields();
      var i, ended := 0, false;
      while i < |pending| && !ended
        invariant 0 <= i <= |pending|
        invariant Valid() && consumer == old(consumer)
        invariant !ended ==> Fields() == T.ConsumeAll(setup, start, pending[..i]) && !T.IsTerminal(Fields())
        invariant ended || i == |pending| ==> Fields() == T.ConsumeAll(setup, start, pending)
      {
        ended := ConsumePendingChunk(pending, i, start);
        i := i + 1;
      }
    }

    method ConsumePendingChunk(pending: seq<string>, i: nat, ghost start: T.Tracker) returns (ended: bool)
      requires Valid() && i < |pending|
      requires Fields() == T.ConsumeAll(setup, start, pending[..i]) && !T.IsTerminal(Fields())
      modifies Footprint()
      ensures Valid() && consumer == old(consumer)
      ensures Fields() == T.ConsumeAll(setup, start, pending[..i + 1]) && ended == T.IsTerminal(Fields())
      ensures ended || i + 1 == |pending| ==> Fields() == T.ConsumeAll(setup, start, pending)
    {
      T.ConsumeNext(setup, start, pending, i);
      ConsumeBase64(pending[i]);
      ended := IsTerminal();
    }

    method ConsumeBase64(data: string)
      requires Valid()
      modifies Footprint()
      ensures Valid() && consumer == old(consumer)
      ensures Fields() == T.ConsumeBase64(setup, old(Fields()), data)
    {
      if consumer == null { return; }
      var error := consumer.PushBase64(data);
      if error.Some? {
        Fail(if error.value == R.BufferOverflow then T.BufferOverflow else T.ParseFailed);
        return;
      }
      if consumer.completedState {
        lifecycle := T.Completed;
        failure := None;
        pendingLiveData, pendingLiveBase64Chars := [], 0;
      }
    }

    method FinishConsumer()
      requires Valid()
      modifies Footprint()
      ensures Valid() && consumer == old(consumer)
      ensures Fields() == T.FinishConsumer(setup, old(Fields()))
    {
      if consumer == null {
        Fail(T.Incomplete);
        return;
      }
      var error := consumer.Finish();
      if error.Some? {
        Fail(if error.value == R.BufferOverflow then T.BufferOverflow else T.ParseFailed);
        return;
      }
      if consumer.completedState {
        lifecycle := T.Completed;
        failure := None;
        return;
      }
      Fail(T.Incomplete);
    }

    predicate IsCurrent(requestId: RequestId)
      reads this
    {
      !disposed && selectedRequestId == Some(requestId)
    }

    predicate IsTerminal()
      reads this
    {
      lifecycle == T.Failed || lifecycle == T.Completed
    }
  }
}

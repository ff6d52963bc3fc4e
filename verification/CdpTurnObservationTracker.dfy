/** The observation objects of one page session; handlers follow the steps of WriteObservation. */
module CdpTurnObservationTracker {
  import opened Wrappers
  import E = EventStream
  import T = ResponseTracking
  import W = WriteObservation
  import Response = CdpResponseStreamTracker

  class ActiveTurnObservation {
    const setup: T.Setup
    var prepareCount: nat
    var writeRequestId: Option<RequestId>
    var successfulResponseObserved: Option<bool>
    var selectedLegRedirected: bool
    var lifecycle: Option<W.WriteLifecycle>
    var ambiguousWrite: bool
    const response: Response.CdpResponseStreamTracker?

    ghost function Footprint(): set<object>
      reads this, response
    {
      {this} + (if response == null then {} else response.Footprint())
    }

    ghost predicate Valid()
      reads this, response, Footprint()
    {
      response != null ==> response.Valid() && response.setup == setup
    }

    ghost function Fields(): W.Observation
      reads this, response, Footprint()
    {
      W.Observation(prepareCount, writeRequestId, successfulResponseObserved, selectedLegRedirected,
                    lifecycle, ambiguousWrite, if response == null then None else Some(response.Fields()))
    }

    constructor (setup: T.Setup, responseStream: bool)
      ensures Valid() && fresh(Footprint()) && this.setup == setup
      ensures Fields() == W.Armed(responseStream)
    {
      this.setup := setup;
      prepareCount, writeRequestId, successfulResponseObserved := 0, None, None;
      selectedLegRedirected, lifecycle, ambiguousWrite := false, None, false;
      var created: Response.CdpResponseStreamTracker? := null;
      if responseStream { created := new Response.CdpResponseStreamTracker(setup); }
      response := created;
    }

    method MarkAmbiguous()
      requires Valid()
      modifies Footprint()
      ensures Valid() && Footprint() <= old(Footprint())
      ensures Fields() == W.MakeAmbiguous(setup, old(Fields()))
    {
      ambiguousWrite := true;
      if response != null { response.Dispose(); }
    }

    method OnRequestWillBeSent(requestId: RequestId, kind: Option<W.RequestKind>, redirectedFromPreviousRequest: bool)
      requires Valid()
      modifies Footprint()
      ensures Valid() && Footprint() <= old(Footprint())
      ensures Fields() == W.Step(setup, old(Fields()), W.RequestSent(requestId, kind, redirectedFromPreviousRequest))
    {
      if writeRequestId == Some(requestId) {
        if lifecycle != Some(W.Active) || !redirectedFromPreviousRequest {
          MarkAmbiguous();
          return;
        }
        selectedLegRedirected := true;
        successfulResponseObserved := Some(false);
        if response != null { response.Fail(T.Incomplete); }
        return;
      }
      if kind == Some(W.Prepare) {
        prepareCount := prepareCount + 1;
        return;
      }
      if kind != Some(W.Write) { return; }
      if writeRequestId.None? {
        writeRequestId := Some(requestId);
        successfulResponseObserved := None;
        selectedLegRedirected := false;
        lifecycle := Some(W.Active);
        if response != null { response.Select(requestId); }
        return;
      }
      MarkAmbiguous();
    }

    method OnResponseReceived(requestId: RequestId, status: int, activationThrows: bool)
      requires Valid()
      modifies Footprint()
      ensures Valid() && Footprint() <= old(Footprint())
      ensures Fields() == W.Step(setup, old(Fields()), W.ResponseReceived(requestId, status, activationThrows))
    {
      if writeRequestId != Some(requestId) || lifecycle != Some(W.Active) || selectedLegRedirected { return; }
      var successful := W.IsSuccessfulHttpStatus(status);
      successfulResponseObserved := Some(successful);
      if successful && response != null { response.Begin(requestId, activationThrows); }
    }

    method OnDataReceived(requestId: RequestId, data: Option<string>)
      requires Valid()
      modifies Footprint()
      ensures Valid() && Footprint() <= old(Footprint())
      ensures Fields() == W.Step(setup, old(Fields()), W.DataReceived(requestId, data))
    {
      if response != null { response.OnData(requestId, data); }
    }

    method OnRequestSettled(requestId: RequestId, failed: bool)
      requires Valid()
      modifies Footprint()
      ensures Valid() && Footprint() <= old(Footprint())
      ensures Fields() == W.Step(setup, old(Fields()), W.RequestSettled(requestId, failed))
    {
      if writeRequestId != Some(requestId) || lifecycle != Some(W.Active) { return; }
      var end := if failed || selectedLegRedirected || successfulResponseObserved != Some(true) then W.Failed
        else W.Finished;
      lifecycle := Some(end);
      if response != null { response.OnTransportSettled(requestId, failed || end == W.Failed); }
    }

    /** The promise of the activation call settles. */
    method OnActivation(bufferedData: Option<string>, rejected: bool)
      requires Valid()
      modifies Footprint()
      ensures Valid() && Footprint() <= old(Footprint())
      ensures Fields() == W.Step(setup, old(Fields()), if rejected then W.ActivationRejected
        else W.ActivationResolved(bufferedData))
    {
      if response == null { return; }
      if rejected { response.ActivationRejected(); } else { response.ActivationResolved(bufferedData); }
    }

    method TakeResponseEvents() returns (events: seq<E.Event>)
      requires Valid()
      modifies Footprint()
      ensures Valid() && Footprint() <= old(Footprint())
      ensures Fields() == W.Step(setup, old(Fields()), W.EventsTaken)
      ensures events == W.QueuedEvents(old(Fields()))
    {
      events := [];
      if response != null { events := response.Drain(); }
    }

    method DiscardResponse()
      requires Valid()
      modifies Footprint()
      ensures Valid() && Footprint() <= old(Footprint())
      ensures Fields() == W.Step(setup, old(Fields()), W.ResponseDiscarded)
    {
      if response != null { response.Discard(); }
    }
  }

  class CdpTurnObservationTracker {
    const setup: T.Setup
    var active: ActiveTurnObservation?

    ghost predicate Valid()
      reads this, active
      reads if active == null then {} else {active.response}
      reads if active == null then {} else active.Footprint()
    {
      active != null ==> active.Valid() && active.setup == setup
    }

    constructor (setup: T.Setup)
      ensures Valid() && this.setup == setup && active == null
    {
      this.setup := setup;
      active := null;
    }

    /** One observation at a time; `handle == null` stands for the error. */
    method ArmTurnObservation(responseStream: bool) returns (handle: ActiveTurnObservation?)
      requires Valid()
      modifies this
      ensures Valid()
      ensures old(active) != null ==> handle == null && active == old(active)
      ensures old(active) == null ==>
        handle != null && fresh(handle) && active == handle && handle.Fields() == W.Armed(responseStream)
    {
      if active != null { return null; }
      handle := new ActiveTurnObservation(setup, responseStream);
      active := handle;
    }

    /** None stands for the errors of a foreign handle and of an ambiguous write. */
    method GetTurnObservation(handle: ActiveTurnObservation) returns (snapshot: Option<W.Snapshot>)
      requires Valid()
      ensures snapshot == if active != handle then None else W.Read(handle.Fields())
    {
      if active != handle || handle.ambiguousWrite { return None; }
      var write := if handle.writeRequestId.None? then None else handle.lifecycle;
      var response: Option<W.ResponseSnapshot> := None;
      if handle.response != null {
        response := Some(W.ResponseSnapshot(handle.response.lifecycle, handle.response.failure));
      }
      return Some(W.Snapshot(handle.prepareCount, write, response));
    }

    method ReleaseTurnObservation(handle: ActiveTurnObservation)
      requires Valid()
      modifies this, handle.Footprint()
      ensures Valid()
      ensures old(active) == handle ==> active == null && (handle.response != null ==> handle.response.disposed)
      ensures old(active) != handle ==> active == old(active)
    {
      if active == null || active != handle { return; }
      if active.response != null { active.response.Dispose(); }
      active := null;
    }
  }
}

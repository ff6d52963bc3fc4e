/** The gate objects and the activity counter; their methods follow the functions of Readiness. */
module ReadinessGates {
  import opened Wrappers
  import P = Readiness

  class ExistingReadinessGate {
    const policy: P.Policy
    var frameKey: Option<string>
    var frameStableCount: nat
    var focusTargetId: Option<int>
    var readyActivityEpoch: Option<nat>
    var focusStableCount: nat

    ghost function Fields(): P.Gate
      reads this
    {
      P.Gate(frameKey, frameStableCount, focusTargetId, readyActivityEpoch, focusStableCount)
    }

    constructor (policy: P.Policy)
      ensures this.policy == policy && Fields() == P.CREATED
    {
      this.policy := policy;
      frameKey, frameStableCount, focusTargetId, readyActivityEpoch, focusStableCount := None, 0, None, None, 0;
    }

    method ResetReadyEpoch()
      modifies this
      ensures Fields() == P.ResetReadyEpoch(old(Fields()))
    {
      readyActivityEpoch, focusStableCount := None, 0;
    }

    method ResetFocus()
      modifies this
      ensures Fields() == P.ResetFocus(old(Fields()))
    {
      focusTargetId := None;
      ResetReadyEpoch();
    }

    method ResetAll()
      modifies this
      ensures Fields() == P.CREATED
    {
      frameKey, frameStableCount := None, 0;
      ResetFocus();
    }

    method Observe(snapshot: P.Snapshot) returns (action: P.Action)
      modifies this
      ensures P.Observed(Fields(), action) == P.Observe(policy, old(Fields()), snapshot)
    {
      if !snapshot.expectedRoute {
        ResetAll();
        return P.WAIT;
      }
      var key := P.FrameKey(snapshot);
      if frameKey != Some(key) {
        frameKey, frameStableCount := Some(key), 1;
        ResetFocus();
      } else {
        frameStableCount := frameStableCount + 1;
      }
      if frameStableCount < policy.frameStableObservations { return P.WAIT; }
      if |snapshot.editables| != 1 {
        ResetFocus();
        return P.WAIT;
      }
      var target := snapshot.editables[0];
      if focusTargetId != Some(target.backendDOMNodeId) {
        focusTargetId := Some(target.backendDOMNodeId);
        ResetReadyEpoch();
        return P.FOCUS(target.backendDOMNodeId);
      }
      if !target.focused {
        ResetReadyEpoch();
        return P.FOCUS(target.backendDOMNodeId);
      }
      if readyActivityEpoch != Some(snapshot.activityEpoch) {
        readyActivityEpoch, focusStableCount := Some(snapshot.activityEpoch), 1;
      } else {
        focusStableCount := focusStableCount + 1;
      }
      return if focusStableCount < policy.focusStableObservations then P.WAIT else P.READY;
    }
  }

  class FreshReadinessGate {
    const existingGate: ExistingReadinessGate
    const guardDurationMs: nat
    var guardStartTime: Option<int>

    ghost function Fields(): P.FreshGate
      reads this, existingGate
    {
      P.FreshGate(existingGate.Fields(), guardStartTime)
    }

    constructor (policy: P.Policy, guardDurationMs: nat)
      ensures fresh(existingGate) && existingGate.policy == policy && this.guardDurationMs == guardDurationMs
      ensures Fields() == P.CREATED_FRESH
    {
      existingGate := new ExistingReadinessGate(policy);
      this.guardDurationMs := guardDurationMs;
      guardStartTime := None;
    }

    /** `now` is what the clock says if it is asked. */
    method Observe(snapshot: P.Snapshot, now: int) returns (action: P.Action)
      modifies this, existingGate
      ensures P.FreshObserved(Fields(), action)
           == P.ObserveFresh(existingGate.policy, guardDurationMs, old(Fields()), P.Timed(snapshot, now))
    {
      action := existingGate.Observe(snapshot);
      if action != P.READY {
        guardStartTime := None;
        return;
      }
      if guardStartTime.None? { guardStartTime := Some(now); }
      return if now - guardStartTime.value >= guardDurationMs then P.READY else P.WAIT;
    }
  }

  /** The part of the page session that counts changes of relevant backend activity. */
  class BackendActivity {
    var activeRelevantRequestIds: set<RequestId>
    var activityEpoch: nat

    ghost function Fields(): P.Activity
      reads this
    {
      P.Activity(activeRelevantRequestIds, activityEpoch)
    }

    constructor ()
      ensures Fields() == P.Activity({}, 0)
    {
      activeRelevantRequestIds, activityEpoch := {}, 0;
    }

    method OnRequestWillBeSent(requestId: RequestId, relevant: bool)
      modifies this
      ensures Fields() == P.NextActivity(old(Fields()), P.Sent(requestId, relevant))
    {
      var wasRelevant := requestId in activeRelevantRequestIds;
      if relevant && !wasRelevant {
        activeRelevantRequestIds := activeRelevantRequestIds + {requestId};
        activityEpoch := activityEpoch + 1;
      } else if !relevant && wasRelevant {
        activeRelevantRequestIds := activeRelevantRequestIds - {requestId};
        activityEpoch := activityEpoch + 1;
      }
    }

    method OnRequestSettled(requestId: RequestId)
      modifies this
      ensures Fields() == P.NextActivity(old(Fields()), P.Settled(requestId))
    {
      if requestId in activeRelevantRequestIds {
        activeRelevantRequestIds := activeRelevantRequestIds - {requestId};
        activityEpoch := activityEpoch + 1;
      }
    }
  }
}

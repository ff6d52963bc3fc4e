/** Readiness gates as functions of what was observed, and their exact meaning as windows over it. */
module Readiness {
  import opened Wrappers

  datatype Editable = Editable(backendDOMNodeId: int, focused: bool)

  datatype NoticeKind = Absent | KnownFreshNotice | UnknownNotice

  datatype Snapshot = Snapshot(
    expectedRoute: bool,
    frameId: string,
    loaderId: string,
    editables: seq<Editable>,
    activityEpoch: nat,
    notice: NoticeKind)

  datatype Action = WAIT | FOCUS(backendDOMNodeId: int) | READY

  /** Thresholds, both positive. */
  datatype Policy = Policy(frameStableObservations: nat, focusStableObservations: nat)

  predicate IsPolicy(p: Policy) {
    p.frameStableObservations > 0 && p.focusStableObservations > 0
  }

  datatype Gate = Gate(
    frameKey: Option<string>,
    frameStableCount: nat,
    focusTargetId: Option<int>,
    readyActivityEpoch: Option<nat>,
    focusStableCount: nat)

  const CREATED := Gate(None, 0, None, None, 0)

  function FrameKey(s: Snapshot): string {
    s.frameId + "\0" + s.loaderId
  }

  /** Frame ids carry no NUL, so the key tells exactly frame and loader apart. */
  lemma FrameKeyExactly(a: Snapshot, b: Snapshot)
    requires '\0' !in a.frameId && '\0' !in b.frameId
    ensures FrameKey(a) == FrameKey(b) <==> a.frameId == b.frameId && a.loaderId == b.loaderId
  {
    if FrameKey(a) == FrameKey(b) {
      assert FrameKey(a)[|a.frameId|] == '\0' && FrameKey(b)[|b.frameId|] == '\0';
      assert a.frameId == FrameKey(a)[..|a.frameId|] && b.frameId == FrameKey(b)[..|b.frameId|];
      assert a.loaderId == FrameKey(a)[|a.frameId| + 1..] && b.loaderId == FrameKey(b)[|b.frameId| + 1..];
    }
  }

  function ResetReadyEpoch(g: Gate): Gate {
    g.(readyActivityEpoch := None, focusStableCount := 0)
  }

  function ResetFocus(g: Gate): Gate {
    ResetReadyEpoch(g.(focusTargetId := None))
  }

  function WithFrame(g: Gate, s: Snapshot): Gate {
    if g.frameKey != Some(FrameKey(s)) then ResetFocus(g.(frameKey := Some(FrameKey(s)), frameStableCount := 1))
    else g.(frameStableCount := g.frameStableCount + 1)
  }

  datatype Observed = Observed(gate: Gate, action: Action)

  function ObserveTarget(p: Policy, g: Gate, s: Snapshot, target: Editable): Observed {
    if g.focusTargetId != Some(target.backendDOMNodeId) then
      Observed(ResetReadyEpoch(g.(focusTargetId := Some(target.backendDOMNodeId))), FOCUS(target.backendDOMNodeId))
    else if !target.focused then Observed(ResetReadyEpoch(g), FOCUS(target.backendDOMNodeId))
    else
      var next := if g.readyActivityEpoch != Some(s.activityEpoch)
                  then g.(readyActivityEpoch := Some(s.activityEpoch), focusStableCount := 1)
                  else g.(focusStableCount := g.focusStableCount + 1);
      Observed(next, if next.focusStableCount < p.focusStableObservations then WAIT else READY)
  }

  function Observe(p: Policy, g: Gate, s: Snapshot): Observed {
    if !s.expectedRoute then Observed(CREATED, WAIT)
    else
      var framed := WithFrame(g, s);
      if framed.frameStableCount < p.frameStableObservations then Observed(framed, WAIT)
      else if |s.editables| != 1 then Observed(ResetFocus(framed), WAIT)
      else ObserveTarget(p, framed, s, s.editables[0])
  }

  /** The gate after a history of observations, and what it said to the last one. */
  function ObserveAll(p: Policy, h: seq<Snapshot>): Observed {
    if h == [] then Observed(CREATED, WAIT)
    else Observe(p, ObserveAll(p, h[..|h| - 1]).gate, h[|h| - 1])
  }

  // ---------------------------------------------------------------- windows

  function Last(h: seq<Snapshot>): Snapshot
    requires h != []
  {
    h[|h| - 1]
  }

  /** The last `m` observations show the expected route and one frame and loader. */
  predicate SameFrame(h: seq<Snapshot>, m: nat) {
    && m <= |h|
    && forall i | |h| - m <= i < |h| :: h[i].expectedRoute && FrameKey(h[i]) == FrameKey(Last(h))
  }

  /** The last `m` observations show exactly one editable, the same. */
  predicate SameTarget(h: seq<Snapshot>, m: nat) {
    && m <= |h|
    && forall i | |h| - m <= i < |h| ::
         |h[i].editables| == 1 && |Last(h).editables| == 1
         && h[i].editables[0].backendDOMNodeId == Last(h).editables[0].backendDOMNodeId
  }

  /** In the last `m` observations that editable is focused, in one activity epoch. */
  predicate SameFocus(h: seq<Snapshot>, m: nat) {
    && m <= |h|
    && forall i | |h| - m <= i < |h| ::
         |h[i].editables| == 1 && h[i].editables[0].focused && h[i].activityEpoch == Last(h).activityEpoch
  }

  predicate Window(p: Policy, h: seq<Snapshot>, m: nat) {
    && SameFrame(h, p.frameStableObservations + m) && SameTarget(h, m + 1) && SameFocus(h, m)
  }

  /** The gate's fields are the lengths of the longest windows. */
  ghost predicate Reflects(p: Policy, h: seq<Snapshot>, g: Gate) {
    && SameFrame(h, g.frameStableCount) && !SameFrame(h, g.frameStableCount + 1)
    && g.frameKey == (if h == [] || g.frameStableCount == 0 then None else Some(FrameKey(Last(h))))
    && g.focusTargetId == (if h != [] && g.frameStableCount >= p.frameStableObservations && |Last(h).editables| == 1
                           then Some(Last(h).editables[0].backendDOMNodeId) else None)
    && (g.focusStableCount > 0 ==> Window(p, h, g.focusStableCount))
    && !Window(p, h, g.focusStableCount + 1)
    && g.readyActivityEpoch == (if h == [] || g.focusStableCount == 0 then None else Some(Last(h).activityEpoch))
  }

  lemma SnocFrame(h: seq<Snapshot>, s: Snapshot, m: nat)
    ensures SameFrame(h + [s], m + 1)
       <==> s.expectedRoute && (m == 0 || (SameFrame(h, m) && FrameKey(Last(h)) == FrameKey(s)))
  {
    var all := h + [s];
    if SameFrame(all, m + 1) {
      assert all[|h|] == s;
      if m > 0 {
        assert all[|h| - 1] == Last(h);
        assert forall i | |h| - m <= i < |h| :: h[i] == all[i];
      }
    }
  }

  lemma SnocTarget(h: seq<Snapshot>, s: Snapshot, m: nat)
    ensures SameTarget(h + [s], m + 1)
       <==> |s.editables| == 1
            && (m == 0 || (SameTarget(h, m) && |Last(h).editables| == 1
                           && Last(h).editables[0].backendDOMNodeId == s.editables[0].backendDOMNodeId))
  {
    var all := h + [s];
    if SameTarget(all, m + 1) {
      assert all[|h|] == s;
      if m > 0 {
        assert all[|h| - 1] == Last(h);
        assert forall i | |h| - m <= i < |h| :: h[i] == all[i];
      }
    }
    if m > 0 && SameTarget(h, m) && |s.editables| == 1 && |Last(h).editables| == 1
       && Last(h).editables[0].backendDOMNodeId == s.editables[0].backendDOMNodeId {
      assert forall i | |h| - m <= i < |h| :: all[i] == h[i];
      assert SameTarget(all, m + 1);
    }
  }

  lemma SnocFocus(h: seq<Snapshot>, s: Snapshot, m: nat)
    ensures SameFocus(h + [s], m + 1)
       <==> |s.editables| == 1 && s.editables[0].focused
            && (m == 0 || (SameFocus(h, m) && Last(h).activityEpoch == s.activityEpoch))
  {
    var all := h + [s];
    if SameFocus(all, m + 1) {
      assert all[|h|] == s;
      if m > 0 {
        assert all[|h| - 1] == Last(h);
        assert forall i | |h| - m <= i < |h| :: h[i] == all[i];
      }
    }
  }

  /** One more observation extends the window, or not. */
  lemma SnocWindow(p: Policy, h: seq<Snapshot>, s: Snapshot, m: nat)
    requires IsPolicy(p)
    ensures Window(p, h + [s], m + 1)
       <==> && s.expectedRoute && SameFrame(h, p.frameStableObservations + m) && FrameKey(Last(h)) == FrameKey(s)
            && |s.editables| == 1 && s.editables[0].focused
            && SameTarget(h, m + 1) && |Last(h).editables| == 1
            && Last(h).editables[0].backendDOMNodeId == s.editables[0].backendDOMNodeId
            && (m == 0 || (SameFocus(h, m) && Last(h).activityEpoch == s.activityEpoch))
  {
    SnocFrame(h, s, p.frameStableObservations + m);
    SnocTarget(h, s, m + 1);
    SnocFocus(h, s, m);
  }

  lemma ShorterFrame(h: seq<Snapshot>, m: nat, k: nat)
    requires SameFrame(h, m) && k <= m
    ensures SameFrame(h, k)
  {
  }

  lemma ShorterTarget(h: seq<Snapshot>, m: nat, k: nat)
    requires SameTarget(h, m) && k <= m
    ensures SameTarget(h, k)
  {
    if k > 0 { assert |h[|h| - 1].editables| == 1; }
  }

  lemma ShorterFocus(h: seq<Snapshot>, m: nat, k: nat)
    requires SameFocus(h, m) && k <= m
    ensures SameFocus(h, k)
  {
  }

  lemma ShorterWindow(p: Policy, h: seq<Snapshot>, m: nat, k: nat)
    requires Window(p, h, m) && k <= m
    ensures Window(p, h, k)
  {
    ShorterFrame(h, p.frameStableObservations + m, p.frameStableObservations + k);
    ShorterTarget(h, m + 1, k + 1);
    ShorterFocus(h, m, k);
  }

  lemma FrameStep(p: Policy, h: seq<Snapshot>, g: Gate, s: Snapshot)
    requires Reflects(p, h, g) && s.expectedRoute
    ensures var next := WithFrame(g, s);
      && SameFrame(h + [s], next.frameStableCount) && !SameFrame(h + [s], next.frameStableCount + 1)
      && next.frameStableCount > 0 && next.frameKey == Some(FrameKey(s))
  {
    SnocFrame(h, s, 0);
    SnocFrame(h, s, 1);
    SnocFrame(h, s, g.frameStableCount);
    SnocFrame(h, s, g.frameStableCount + 1);
    if g.frameStableCount > 0 { ShorterFrame(h, g.frameStableCount, 1); }
  }

  /** A running focus count needs the frame count that precedes it. */
  lemma FocusNeedsFrame(p: Policy, h: seq<Snapshot>, g: Gate)
    requires IsPolicy(p) && Reflects(p, h, g)
    ensures g.focusStableCount > 0 ==> g.frameStableCount >= p.frameStableObservations + g.focusStableCount
    ensures SameFrame(h, p.frameStableObservations) <==> g.frameStableCount >= p.frameStableObservations
  {
    if g.focusStableCount > 0 && g.frameStableCount < p.frameStableObservations + g.focusStableCount {
      ShorterFrame(h, p.frameStableObservations + g.focusStableCount, g.frameStableCount + 1);
    }
    if SameFrame(h, p.frameStableObservations) && g.frameStableCount < p.frameStableObservations {
      ShorterFrame(h, p.frameStableObservations, g.frameStableCount + 1);
    }
  }

  /** Observations that break the focus run leave no window of length one. */
  lemma NoWindow(p: Policy, h: seq<Snapshot>, g: Gate, s: Snapshot)
    requires IsPolicy(p) && Reflects(p, h, g)
    ensures Window(p, h + [s], 1)
       <==> && s.expectedRoute && g.frameStableCount >= p.frameStableObservations && g.frameKey == Some(FrameKey(s))
            && |s.editables| == 1 && s.editables[0].focused
            && g.focusTargetId == Some(s.editables[0].backendDOMNodeId)
  {
    SnocWindow(p, h, s, 0);
    FocusNeedsFrame(p, h, g);
  }

  /** A focused observation in place lengthens the run, or starts a new one in its epoch. */
  lemma LongerWindow(p: Policy, h: seq<Snapshot>, g: Gate, s: Snapshot)
    requires IsPolicy(p) && Reflects(p, h, g) && Window(p, h + [s], 1)
    ensures var n := if g.readyActivityEpoch == Some(s.activityEpoch) then g.focusStableCount + 1 else 1;
      Window(p, h + [s], n) && !Window(p, h + [s], n + 1)
  {
    NoWindow(p, h, g, s);
    SnocWindow(p, h, s, 1);
    SnocWindow(p, h, s, g.focusStableCount);
    SnocWindow(p, h, s, g.focusStableCount + 1);
  }

  lemma ReflectsStep(p: Policy, h: seq<Snapshot>, g: Gate, s: Snapshot)
    requires IsPolicy(p) && Reflects(p, h, g)
    ensures Reflects(p, h + [s], Observe(p, g, s).gate)
  {
    hide SameFrame, SameTarget, SameFocus, Window;
    NoFrame(h, s);
    NoWindow(p, h, g, s);
    FocusNeedsFrame(p, h, g);
    if s.expectedRoute { FrameStep(p, h, g, s); }
    if Window(p, h + [s], 1) { LongerWindow(p, h, g, s); }
  }

  lemma NoFrame(h: seq<Snapshot>, s: Snapshot)
    ensures SameFrame(h + [s], 0) && (!s.expectedRoute ==> !SameFrame(h + [s], 1))
  {
    SnocFrame(h, s, 0);
  }

  lemma {:induction false} GateReflects(p: Policy, h: seq<Snapshot>)
    requires IsPolicy(p)
    ensures Reflects(p, h, ObserveAll(p, h).gate)
  {
    if h != [] {
      GateReflects(p, h[..|h| - 1]);
      ReflectsStep(p, h[..|h| - 1], ObserveAll(p, h[..|h| - 1]).gate, Last(h));
      assert h == h[..|h| - 1] + [Last(h)];
    }
  }

  /**
   The gate says READY exactly if the last F + K observations have the expected route and one frame
   and loader, the last K + 1 show exactly one editable, the same, and in the last K it is focused in
   one activity epoch.
   */
  lemma ReadyExactly(p: Policy, h: seq<Snapshot>)
    requires IsPolicy(p)
    ensures ObserveAll(p, h).action == READY <==> Window(p, h, p.focusStableObservations)
  {
    if h != [] {
      var init, s := h[..|h| - 1], Last(h);
      var g := ObserveAll(p, init).gate;
      assert h == init + [s];
      GateReflects(p, init);
      GateReflects(p, h);
      NoWindow(p, init, g, s);
      FocusNeedsFrame(p, init, g);
      ReadyIsLong(p, g, s);
      WindowLength(p, h, ObserveAll(p, h).gate, p.focusStableObservations);
    }
  }

  lemma ReadyIsLong(p: Policy, g: Gate, s: Snapshot)
    requires IsPolicy(p)
    requires g.focusStableCount > 0 ==> g.frameStableCount >= p.frameStableObservations
    ensures var o := Observe(p, g, s);
      o.action == READY ==> o.gate.focusStableCount >= p.focusStableObservations
    ensures var o := Observe(p, g, s);
      o.gate.focusStableCount >= p.focusStableObservations ==> o.action == READY
  {
  }

  lemma WindowLength(p: Policy, h: seq<Snapshot>, g: Gate, m: nat)
    requires IsPolicy(p) && Reflects(p, h, g) && m > 0
    ensures Window(p, h, m) <==> g.focusStableCount >= m
  {
    if Window(p, h, m) && g.focusStableCount < m { ShorterWindow(p, h, m, g.focusStableCount + 1); }
    if g.focusStableCount >= m { ShorterWindow(p, h, g.focusStableCount, m); }
  }

  // ---------------------------------------------------------------- the fresh gate

  datatype Timed = Timed(snapshot: Snapshot, now: int)

  datatype FreshGate = FreshGate(existing: Gate, guardStartTime: Option<int>)

  const CREATED_FRESH := FreshGate(CREATED, None)

  datatype FreshObserved = FreshObserved(gate: FreshGate, action: Action)

  function ObserveFresh(p: Policy, guard: nat, g: FreshGate, t: Timed): FreshObserved {
    var o := Observe(p, g.existing, t.snapshot);
    if o.action != READY then FreshObserved(FreshGate(o.gate, None), o.action)
    else
      var start := if g.guardStartTime.None? then t.now else g.guardStartTime.value;
      FreshObserved(FreshGate(o.gate, Some(start)), if t.now - start >= guard then READY else WAIT)
  }

  function ObserveAllFresh(p: Policy, guard: nat, h: seq<Timed>): FreshObserved {
    if h == [] then FreshObserved(CREATED_FRESH, WAIT)
    else ObserveFresh(p, guard, ObserveAllFresh(p, guard, h[..|h| - 1]).gate, h[|h| - 1])
  }

  function Snapshots(h: seq<Timed>): (s: seq<Snapshot>)
    ensures |s| == |h| && forall i | 0 <= i < |h| :: s[i] == h[i].snapshot
  {
    seq(|h|, i requires 0 <= i < |h| => h[i].snapshot)
  }

  /** The inner gate says READY to observation `i`: its window closes there. */
  predicate InnerReady(p: Policy, h: seq<Timed>, i: nat)
    requires i < |h|
  {
    Window(p, Snapshots(h[..i + 1]), p.focusStableObservations)
  }

  /** The unbroken run of inner READYs that ends the history starts at `start`. */
  predicate IsReadyRun(p: Policy, h: seq<Timed>, start: nat) {
    && start < |h|
    && (forall i | start <= i < |h| :: InnerReady(p, h, i))
    && (start > 0 ==> !InnerReady(p, h, start - 1))
  }

  lemma InnerKept(p: Policy, h: seq<Timed>, t: Timed, i: nat)
    requires i < |h|
    ensures InnerReady(p, h + [t], i) <==> InnerReady(p, h, i)
  {
    assert (h + [t])[..i + 1] == h[..i + 1];
  }

  /** The guard starts with the run; the inner gate goes on as if it were alone. */
  lemma {:induction false} GuardStart(p: Policy, guard: nat, h: seq<Timed>)
    requires IsPolicy(p)
    ensures var g := ObserveAllFresh(p, guard, h).gate;
      && g.existing == ObserveAll(p, Snapshots(h)).gate
      && (g.guardStartTime.None? <==> h == [] || !InnerReady(p, h, |h| - 1))
      && (g.guardStartTime.Some? ==>
        exists start: nat :: IsReadyRun(p, h, start) && g.guardStartTime == Some(h[start].now))
  {
    if h != [] {
      var init, t := h[..|h| - 1], h[|h| - 1];
      assert h == init + [t] && Snapshots(h)[..|h| - 1] == Snapshots(init);
      assert h[..|h| - 1 + 1] == h;
      GuardStart(p, guard, init);
      ReadyExactly(p, Snapshots(h));
      if InnerReady(p, h, |h| - 1) { RunGrows(p, init, t, ObserveAllFresh(p, guard, init).gate.guardStartTime); }
    }
  }

  lemma RunGrows(p: Policy, init: seq<Timed>, t: Timed, started: Option<int>)
    requires InnerReady(p, init + [t], |init|)
    requires started.None? <==> init == [] || !InnerReady(p, init, |init| - 1)
    requires started.Some? ==> exists start: nat :: IsReadyRun(p, init, start) && started == Some(init[start].now)
    ensures var h := init + [t];
      exists start: nat :: IsReadyRun(p, h, start) && h[start].now == (if started.None? then t.now else started.value)
  {
    hide InnerReady;
    var h := init + [t];
    forall i | 0 <= i < |init| ensures InnerReady(p, h, i) <==> InnerReady(p, init, i) {
      InnerKept(p, init, t, i);
    }
    if started.None? {
      assert IsReadyRun(p, h, |init|);
    } else {
      var start: nat :| IsReadyRun(p, init, start) && started == Some(init[start].now);
      assert IsReadyRun(p, h, start);
    }
  }

  lemma OneRun(p: Policy, h: seq<Timed>, a: nat, b: nat)
    requires IsReadyRun(p, h, a) && IsReadyRun(p, h, b)
    ensures a == b
  {
  }

  /** The fresh gate says READY exactly if the unbroken run of inner READYs spans at least the guard. */
  ghost predicate FreshWindow(p: Policy, guard: nat, h: seq<Timed>) {
    exists start: nat :: IsReadyRun(p, h, start) && h[|h| - 1].now - h[start].now >= guard
  }

  lemma FreshReadyExactly(p: Policy, guard: nat, h: seq<Timed>)
    requires IsPolicy(p)
    ensures ObserveAllFresh(p, guard, h).action == READY <==> FreshWindow(p, guard, h)
  {
    GuardStart(p, guard, h);
    if h != [] {
      var g := ObserveAllFresh(p, guard, h).gate;
      if g.guardStartTime.Some? {
        var start: nat :| IsReadyRun(p, h, start) && g.guardStartTime == Some(h[start].now);
        if FreshWindow(p, guard, h) {
          var other: nat :| IsReadyRun(p, h, other) && h[|h| - 1].now - h[other].now >= guard;
          OneRun(p, h, start, other);
        }
      }
    }
  }

  /** A passed fresh gate has closed the plain window too, and shows the one composer. */
  lemma FreshIsReady(p: Policy, guard: nat, h: seq<Timed>)
    requires IsPolicy(p) && FreshWindow(p, guard, h)
    ensures h != [] && Window(p, Snapshots(h), p.focusStableObservations) && |h[|h| - 1].snapshot.editables| == 1
  {
    var start: nat :| IsReadyRun(p, h, start) && h[|h| - 1].now - h[start].now >= guard;
    assert InnerReady(p, h, |h| - 1) && h[..|h| - 1 + 1] == h;
    ReadyHasComposer(p, Snapshots(h));
  }

  lemma ReadyHasComposer(p: Policy, h: seq<Snapshot>)
    requires IsPolicy(p) && Window(p, h, p.focusStableObservations)
    ensures h != [] && |Last(h).editables| == 1 && Last(h).expectedRoute
  {
    assert h[|h| - 1] == Last(h);
  }

  // ---------------------------------------------------------------- backend activity

  /** The relevant requests in flight, and a counter of their changes. */
  datatype Activity = Activity(active: set<RequestId>, epoch: nat)

  datatype ActivityEvent = Sent(id: RequestId, relevant: bool) | Settled(id: RequestId)

  function NextActivity(a: Activity, e: ActivityEvent): Activity {
    match e
    case Sent(id, relevant) =>
      if relevant && id !in a.active then Activity(a.active + {id}, a.epoch + 1)
      else if !relevant && id in a.active then Activity(a.active - {id}, a.epoch + 1)
      else a
    case Settled(id) => if id in a.active then Activity(a.active - {id}, a.epoch + 1) else a
  }

  function ActivityAfter(a: Activity, events: seq<ActivityEvent>): Activity {
    if events == [] then a else NextActivity(ActivityAfter(a, events[..|events| - 1]), events[|events| - 1])
  }

  /** Equal epochs: the set of active requests did not change at any time in between, and conversely. */
  lemma {:induction false} EqualEpochsExactly(a: Activity, events: seq<ActivityEvent>)
    ensures ActivityAfter(a, events).epoch >= a.epoch
    ensures ActivityAfter(a, events).epoch == a.epoch
       <==> forall k | 0 <= k <= |events| :: ActivityAfter(a, events[..k]).active == a.active
  {
    if events == [] {
      assert events[..0] == [];
    } else {
      var init := events[..|events| - 1];
      EqualEpochsExactly(a, init);
      assert events[..|events|] == events;
      assert forall k | 0 <= k <= |init| :: init[..k] == events[..k];
      ActivityChanges(ActivityAfter(a, init), events[|events| - 1]);
      if forall k | 0 <= k <= |events| :: ActivityAfter(a, events[..k]).active == a.active {
        assert ActivityAfter(a, events[..|init|]).active == a.active;
      }
    }
  }

  lemma ActivityChanges(a: Activity, e: ActivityEvent)
    ensures NextActivity(a, e).epoch == (if NextActivity(a, e).active == a.active then a.epoch else a.epoch + 1)
  {
  }
}

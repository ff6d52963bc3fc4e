/** Waiting for a route: polls, gates, resets, and the single-use proof of a passed fresh gate. */
module ReadinessController {
  import opened Wrappers
  import G = RuntimeGeneration
  import P = Readiness
  import R = ThreadRegistration
  import T = Turns

  datatype Route = FreshRoot | ThreadRoute(locator: R.Locator) | ProjectRoot(project: T.ProjectLocator)

  datatype WaitError =
    | OperationAborted | OperationTimedOut | RuntimeGenerationChanged | ReadinessFailed | TurnStateUncertain

  /** How a call of the page session may fail; other errors are reported as READINESS_FAILED. */
  datatype PortError = Known(error: WaitError) | OtherError

  datatype Focusing = Focused | CandidateChanged | FocusFails(error: PortError)

  /** What one iteration meets: the clock, the snapshot, and the answers to the calls it may make. */
  datatype Poll = Poll(
    now: int, snapshot: P.Snapshot, failure: Option<PortError>, dismissal: Option<PortError>, focusing: Focusing)

  datatype Proof = Proof(
    lease: G.RuntimeLease, expectedRoute: Route, frameId: string, loaderId: string, backendDOMNodeId: int)

  /** A gate that was passed: the polls `start..end` it counted, what they showed, and the proof of the last. */
  datatype Pass = Pass(proof: Proof, window: seq<P.Timed>, start: nat, end: nat)

  function Rethrown(error: PortError): WaitError {
    if error.Known? then error.error else ReadinessFailed
  }

  /** FRESH_ROOT names one route; the others are told apart by their locators. */
  predicate SameRouteExpectation(left: Route, right: Route)
    ensures SameRouteExpectation(left, right) <==> left == right
  {
    match (left, right)
    case (FreshRoot, FreshRoot) => true
    case (ThreadRoute(a), ThreadRoute(b)) => a == b
    case (ProjectRoot(a), ProjectRoot(b)) => a == b
    case _ => false
  }

  /** The poll ended a wait with this error. */
  predicate EndsWith(poll: Poll, error: WaitError) {
    || (poll.failure.Some? && error == Rethrown(poll.failure.value))
    || (poll.dismissal.Some? && error == Rethrown(poll.dismissal.value))
    || (poll.focusing.FocusFails? && error == Rethrown(poll.focusing.error))
  }

  predicate Shows(snapshot: P.Snapshot, proof: Proof) {
    && snapshot.frameId == proof.frameId && snapshot.loaderId == proof.loaderId
    && |snapshot.editables| == 1 && snapshot.editables[0].backendDOMNodeId == proof.backendDOMNodeId
  }

  class ReadinessController {
    const policy: P.Policy
    const guardDurationMs: nat
    /** Whether the session can dismiss the known notice. */
    const canDismiss: bool
    var freshReadinessProof: Option<Proof>
    /** The polls to come; after the last one the deadline or the caller aborts the wait. */
    const script: seq<Poll>
    var position: nat
    const abortedWith: WaitError
    ghost var passes: seq<Pass>

    /** The window is the polls `start..end`. */
    ghost predicate Counts(window: seq<P.Timed>, start: nat, end: nat) {
      && start <= end <= |script| && |window| == end - start
      && forall i | 0 <= i < |window| :: window[i] == P.Timed(script[start + i].snapshot, script[start + i].now)
    }

    ghost predicate NoNotice(start: nat, end: nat) {
      end <= |script| && forall i | start <= i < end :: script[i].snapshot.notice == P.Absent
    }

    /** No snapshot of the polls `start..end` showed a notice, whether a gate counted them or not. */
    ghost predicate StaysClear(start: nat, end: nat) {
      && end <= |script|
      && forall i | start <= i < end && script[i].failure.None? :: script[i].snapshot.notice == P.Absent
    }

    /** After these observations the gate asks for the focus. */
    ghost predicate AsksFocus(window: seq<P.Timed>) {
      P.ObserveAll(policy, P.Snapshots(window)).action.FOCUS?
    }

    /** No poll of the window had its focus call answered by a changed candidate. */
    ghost predicate NoChange(window: seq<P.Timed>, start: nat) {
      && start + |window| <= |script|
      && forall k | 0 < k <= |window| && AsksFocus(window[..k]) :: !script[start + k - 1].focusing.CandidateChanged?
    }

    /** The window is the polls `start..end`, none of which showed a notice or a changed candidate. */
    ghost predicate Polled(window: seq<P.Timed>, start: nat, end: nat) {
      Counts(window, start, end) && NoNotice(start, end) && NoChange(window, start)
    }

    lemma PolledSnoc(window: seq<P.Timed>, start: nat, end: nat, t: P.Timed)
      requires Polled(window, start, end) && end < |script| && script[end].snapshot.notice == P.Absent
      requires t == P.Timed(script[end].snapshot, script[end].now)
      requires AsksFocus(window + [t]) ==> !script[end].focusing.CandidateChanged?
      ensures Polled(window + [t], start, end + 1)
    {
      hide AsksFocus;
      var all := window + [t];
      assert all[..|all|] == all;
      assert forall k | 0 <= k <= |window| :: all[..k] == window[..k];
    }

    /** A gate passed over actual polls, the last of which shows what the proof says. */
    ghost predicate Closed(pass: Pass) {
      && Polled(pass.window, pass.start, pass.end)
      && pass.window != [] && Shows(pass.window[|pass.window| - 1].snapshot, pass.proof)
    }

    /** A fresh gate passed over actual polls. */
    ghost predicate Earned(pass: Pass) {
      P.FreshWindow(policy, guardDurationMs, pass.window) && Closed(pass)
    }

    /** A plain gate passed over actual polls. */
    ghost predicate ClosedPlain(pass: Pass) {
      P.Window(policy, P.Snapshots(pass.window), policy.focusStableObservations) && Closed(pass)
    }

    /** A proof in store was earned by a fresh gate passed earlier, and no notice was seen since. */
    ghost predicate Valid()
      reads this
    {
      && Waits()
      && (forall i | 0 <= i < |passes| :: Earned(passes[i]) && passes[i].end <= position)
      && (freshReadinessProof.Some? ==> exists i :: 0 <= i < |passes| && Vouches(passes[i]))
    }

    /** The stored proof is of this pass, and no notice was seen since. */
    ghost predicate Vouches(pass: Pass)
      reads this`freshReadinessProof, this`position
    {
      freshReadinessProof == Some(pass.proof) && StaysClear(pass.end, position)
    }

    ghost predicate Waits()
      reads this`position
    {
      P.IsPolicy(policy) && position <= |script|
    }

    constructor (policy: P.Policy, guardDurationMs: nat, canDismiss: bool, script: seq<Poll>, abortedWith: WaitError)
      requires P.IsPolicy(policy)
      ensures Valid() && freshReadinessProof.None? && passes == []
    {
      this.policy, this.guardDurationMs, this.canDismiss, this.script := policy, guardDurationMs, canDismiss, script;
      this.abortedWith := abortedWith;
      freshReadinessProof, position, passes := None, 0, [];
    }

    ghost predicate Passed(guarded: bool, window: seq<P.Timed>) {
      if guarded then P.FreshWindow(policy, guardDurationMs, window)
      else P.Window(policy, P.Snapshots(window), policy.focusStableObservations)
    }

    /** The gate in use is the one that observed exactly the window. */
    ghost predicate InStep(guarded: bool, gate: P.FreshGate, window: seq<P.Timed>) {
      && gate.existing == P.ObserveAll(policy, P.Snapshots(window)).gate
      && (guarded ==> gate == P.ObserveAllFresh(policy, guardDurationMs, window).gate)
    }

    function Observe(guarded: bool, gate: P.FreshGate, t: P.Timed): P.FreshObserved {
      if guarded then P.ObserveFresh(policy, guardDurationMs, gate, t)
      else
        var o := P.Observe(policy, gate.existing, t.snapshot);
        P.FreshObserved(gate.(existing := o.gate), o.action)
    }

    /** One more observation moves both gates on by one step. */
    lemma OneMore(window: seq<P.Timed>, t: P.Timed)
      ensures P.ObserveAll(policy, P.Snapshots(window + [t]))
           == P.Observe(policy, P.ObserveAll(policy, P.Snapshots(window)).gate, t.snapshot)
      ensures P.ObserveAllFresh(policy, guardDurationMs, window + [t])
           == P.ObserveFresh(policy, guardDurationMs, P.ObserveAllFresh(policy, guardDurationMs, window).gate, t)
    {
      hide P.Observe, P.ObserveFresh;
      var all := window + [t];
      assert all[..|all| - 1] == window;
      assert P.Snapshots(all)[..|all| - 1] == P.Snapshots(window);
    }

    lemma ObserveInStep(guarded: bool, gate: P.FreshGate, window: seq<P.Timed>, t: P.Timed)
      requires P.IsPolicy(policy) && InStep(guarded, gate, window)
      ensures var o := Observe(guarded, gate, t);
        && InStep(guarded, o.gate, window + [t])
        && (o.action == P.READY ==> Passed(guarded, window + [t]) && !AsksFocus(window + [t]))
        && (o.action.FOCUS? <==> AsksFocus(window + [t]))
    {
      hide P.Observe, P.ObserveAll, P.ObserveAllFresh, P.Window, P.FreshWindow;
      var all := window + [t];
      OneMore(window, t);
      P.ReadyExactly(policy, P.Snapshots(all));
      P.FreshReadyExactly(policy, guardDurationMs, all);
      if guarded { P.GuardStart(policy, guardDurationMs, all); }
    }

    lemma EmptyInStep(guarded: bool)
      ensures InStep(guarded, P.CREATED_FRESH, [])
    {
      assert P.Snapshots([]) == [];
    }

    /**
     `freshPolicy`: the wait asked for a fresh gate. `window`: what the gate in use has counted, from poll
     `start` on. A blocking notice or a changed candidate starts it anew and drops the stored proof: a
     proof that survives the wait has the whole wait behind it.
     */
    method WaitForRoute(freshPolicy: bool, expectedRoute: Route) returns (
        snapshot: Option<P.Snapshot>, error: WaitError, ghost window: seq<P.Timed>, ghost start: nat,
          ghost guarded: bool)
      requires Waits()
      modifies this`freshReadinessProof, this`position
      ensures Waits() && old(position) <= position
      ensures freshReadinessProof.Some? ==>
        freshReadinessProof == old(freshReadinessProof) && StaysClear(old(position), position)
      ensures snapshot.Some? ==>
        && Passed(guarded, window) && window != [] && window[|window| - 1].snapshot == snapshot.value
        && Polled(window, start, position) && old(position) <= start
        && (freshReadinessProof.Some? ==> start == old(position))
        && (freshPolicy ==> guarded) && (guarded && !freshPolicy ==> expectedRoute.FreshRoot?)
      ensures snapshot.None? ==>
        (position == |script| && error == abortedWith)
        || (old(position) < position && EndsWith(script[position - 1], error))
    {
      hide P.Observe, P.ObserveFresh, P.ObserveAll, P.ObserveAllFresh, Passed, InStep, Observe, AsksFocus;
      snapshot, error, guarded := None, abortedWith, freshPolicy;
      var usesGuard := freshPolicy;
      var gate := P.CREATED_FRESH;
      window, start := [], position;
      EmptyInStep(usesGuard);
      while position < |script|
        invariant Waits() && old(position) <= start <= position
        invariant freshReadinessProof.Some? ==>
          && freshReadinessProof == old(freshReadinessProof) && start == old(position)
          && StaysClear(old(position), position)
        invariant InStep(usesGuard, gate, window) && Polled(window, start, position)
        invariant guarded == usesGuard && (freshPolicy ==> guarded)
        invariant (guarded && !freshPolicy ==> expectedRoute.FreshRoot?)
        invariant snapshot.None?
        decreases |script| - position
      {
        var poll := script[position];
        position := position + 1;
        if poll.failure.Some? { return None, Rethrown(poll.failure.value), window, start, guarded; }
        if poll.snapshot.notice != P.Absent {
          freshReadinessProof, gate := None, P.CREATED_FRESH;
          window, start := [], position;
          if expectedRoute.FreshRoot? && poll.snapshot.expectedRoute && poll.snapshot.notice == P.KnownFreshNotice
             && canDismiss {
            if poll.dismissal.Some? { return None, Rethrown(poll.dismissal.value), window, start, guarded; }
            usesGuard, guarded := true, true;
          }
          EmptyInStep(usesGuard);
        } else {
          var t := P.Timed(poll.snapshot, poll.now);
          ObserveInStep(usesGuard, gate, window, t);
          var o := Observe(usesGuard, gate, t);
          if o.action.FOCUS? && poll.focusing.FocusFails? {
            return None, Rethrown(poll.focusing.error), window, start, guarded;
          }
          if o.action.FOCUS? && poll.focusing.CandidateChanged? {
            freshReadinessProof, gate := None, P.CREATED_FRESH;
            window, start := [], position;
            EmptyInStep(usesGuard);
          } else {
            PolledSnoc(window, start, position - 1, t);
            gate, window := o.gate, window + [t];
            if o.action == P.READY { return Some(poll.snapshot), error, window, start, guarded; }
          }
        }
      }
    }

    lemma PassHasComposer(guarded: bool, window: seq<P.Timed>)
      requires P.IsPolicy(policy) && Passed(guarded, window) && window != []
      ensures |window[|window| - 1].snapshot.editables| == 1
      ensures P.Window(policy, P.Snapshots(window), policy.focusStableObservations)
    {
      if guarded { P.FreshIsReady(policy, guardDurationMs, window); }
      P.ReadyHasComposer(policy, P.Snapshots(window));
    }

    /** An existing thread needs the plain gate; an old proof is dropped first. */
    method WaitForExistingRoute(locator: R.Locator) returns (error: Option<WaitError>, ghost window: seq<P.Timed>)
      requires Valid()
      modifies this`freshReadinessProof, this`position
      ensures Valid() && freshReadinessProof.None?
      ensures error.None? ==>
        P.Window(policy, P.Snapshots(window), policy.focusStableObservations)
        && exists start: nat :: old(position) <= start && Polled(window, start, position)
    {
      freshReadinessProof := None;
      var snapshot, failure;
      ghost var start, guarded;
      snapshot, failure, window, start, guarded := WaitForRoute(false, ThreadRoute(locator));
      error := if snapshot.None? then Some(failure) else None;
    }

    function ProofOf(route: Route, lease: G.RuntimeLease, snapshot: P.Snapshot): Proof
      requires |snapshot.editables| == 1
    {
      Proof(lease, route, snapshot.frameId, snapshot.loaderId, snapshot.editables[0].backendDOMNodeId)
    }

    /** One more fresh gate was passed on this route and lease, by polls from `begin` on. */
    ghost predicate PassesOneMore(before: seq<Pass>, begin: nat, route: Route, lease: G.RuntimeLease)
      reads this`passes, this`position
    {
      && |passes| == |before| + 1 && passes[..|before|] == before
      && var pass := passes[|before|];
         Earned(pass) && begin <= pass.start && pass.end == position
         && pass.proof.lease == lease && pass.proof.expectedRoute == route
    }

    /** A wait under the fresh policy, and the record of the gate it passed. */
    method PassFreshGate(route: Route, lease: G.RuntimeLease) returns (snapshot: Option<P.Snapshot>, error: WaitError)
      requires Valid()
      modifies this`freshReadinessProof, this`position, this`passes
      ensures Valid() && (freshReadinessProof.Some? ==> freshReadinessProof == old(freshReadinessProof))
      ensures old(position) <= position
      ensures snapshot.None? ==> passes == old(passes)
      ensures snapshot.Some? ==>
        && |snapshot.value.editables| == 1
        && PassesOneMore(old(passes), old(position), route, lease)
        && passes[|old(passes)|].proof == ProofOf(route, lease, snapshot.value)
    {
      hide Passed, Polled;
      ghost var window, start, guarded;
      snapshot, error, window, start, guarded := WaitForRoute(true, route);
      if snapshot.Some? {
        PassHasComposer(guarded, window);
        ghost var pass := Pass(ProofOf(route, lease, snapshot.value), window, start, position);
        PassIsEarned(pass, guarded);
        RecordPass(pass);
      }
    }

    lemma PassIsEarned(pass: Pass, guarded: bool)
      requires guarded && Passed(guarded, pass.window) && Closed(pass)
      ensures Earned(pass)
    {
    }

    /** A fresh or Project wait earns a proof of the composer it saw last; failing, it leaves none. */
    method WaitForFreshGate(route: Route, lease: G.RuntimeLease) returns (error: Option<WaitError>)
      requires Valid() && !route.ThreadRoute?
      modifies this`freshReadinessProof, this`position, this`passes
      ensures Valid()
      ensures error.Some? ==> freshReadinessProof.None? && passes == old(passes)
      ensures error.None? ==> EarnsProof(old(passes), old(position), route, lease)
    {
      hide Earned;
      freshReadinessProof := None;
      var snapshot, failure := PassFreshGate(route, lease);
      if snapshot.None? { return Some(failure); }
      freshReadinessProof := Some(ProofOf(route, lease, snapshot.value));
      assert Vouches(passes[|old(passes)|]);
      return None;
    }

    /** The proof in store is of one more fresh gate, just passed on this route and lease by polls from `begin` on. */
    ghost predicate EarnsProof(before: seq<Pass>, begin: nat, route: Route, lease: G.RuntimeLease)
      reads this`freshReadinessProof, this`passes, this`position
    {
      PassesOneMore(before, begin, route, lease) && freshReadinessProof == Some(passes[|before|].proof)
    }

    ghost method RecordPass(pass: Pass)
      requires Valid() && Earned(pass) && pass.end <= position
      modifies this`passes
      ensures Valid() && passes == old(passes) + [pass]
    {
      hide Earned;
      passes := passes + [pass];
      if freshReadinessProof.Some? {
        var i :| 0 <= i < |old(passes)| && Vouches(old(passes)[i]);
        assert Vouches(passes[i]);
      }
    }

    method WaitForFreshRoute(lease: G.RuntimeLease) returns (error: Option<WaitError>)
      requires Valid()
      modifies this`freshReadinessProof, this`position, this`passes
      ensures Valid() && (error.Some? ==> freshReadinessProof.None? && passes == old(passes))
      ensures error.None? ==> EarnsProof(old(passes), old(position), FreshRoot, lease)
    {
      error := WaitForFreshGate(FreshRoot, lease);
    }

    method WaitForProjectRoute(project: T.ProjectLocator, lease: G.RuntimeLease) returns (error: Option<WaitError>)
      requires Valid()
      modifies this`freshReadinessProof, this`position, this`passes
      ensures Valid() && (error.Some? ==> freshReadinessProof.None? && passes == old(passes))
      ensures error.None? ==> EarnsProof(old(passes), old(position), ProjectRoot(project), lease)
    {
      error := WaitForFreshGate(ProjectRoot(project), lease);
    }

    /** One look at the page; any proof is dropped, whatever it shows. */
    method IsProjectRouteCurrent() returns (current: Option<bool>, error: WaitError)
      requires Valid()
      modifies this`freshReadinessProof, this`position
      ensures Valid() && freshReadinessProof.None?
      ensures if old(position) < |script| && script[old(position)].failure.None?
              then current == Some(script[old(position)].snapshot.expectedRoute) else current.None?
    {
      freshReadinessProof := None;
      current, error := None, abortedWith;
      if position < |script| {
        var poll := script[position];
        position := position + 1;
        if poll.failure.Some? { return None, Rethrown(poll.failure.value); }
        current := Some(poll.snapshot.expectedRoute);
      }
    }

    /**
     Returns only over a gate `plain` passed inside the call. For a fresh or Project route `earned` is a
     fresh gate: passed inside this call after that, or before it for the same lease, route, frame,
     loader and composer, with no changed candidate in any poll of this call and no notice in any poll
     since. Either way the proof in store is spent.
     */
    method WaitForTurnComposer(route: Route, lease: G.RuntimeLease) returns (
        error: Option<WaitError>, ghost plain: Pass, ghost earned: Pass)
      requires Valid()
      modifies this`freshReadinessProof, this`position, this`passes
      ensures Valid()
      ensures error.None? ==>
        && freshReadinessProof.None?
        && ClosedPlain(plain) && old(position) <= plain.start && plain.end <= position
        && plain.proof.lease == lease && plain.proof.expectedRoute == route
      ensures error.None? && !route.ThreadRoute? ==>
        && Earned(earned) && earned.proof.lease == lease && earned.proof.expectedRoute == route
        && (if passes == old(passes)
            then earned in old(passes) && old(freshReadinessProof) == Some(earned.proof) && earned.proof == plain.proof
                 && earned.end <= old(position) == plain.start && plain.end == position
                 && StaysClear(earned.end, position)
            else PassesOneMore(old(passes), plain.end, route, lease) && earned == passes[|old(passes)|])
    {
      hide Passed, Earned, Polled, P.Window, SameRouteExpectation, Counts, NoChange;
      ghost var window, start, guarded;
      plain, earned := Pass(Proof(lease, route, "", "", 0), [], 0, 0), Pass(Proof(lease, route, "", "", 0), [], 0, 0);
      if freshReadinessProof.Some? {
        ghost var i :| 0 <= i < |passes| && Vouches(passes[i]);
        earned := passes[i];
      }
      var snapshot, failure;
      snapshot, failure, window, start, guarded := WaitForRoute(false, route);
      assert freshReadinessProof.Some? ==> Vouches(earned);
      if snapshot.None? { return Some(failure), plain, earned; }
      PassHasComposer(guarded, window);
      plain := Pass(ProofOf(route, lease, snapshot.value), window, start, position);
      if route.ThreadRoute? {
        freshReadinessProof := None;
        return None, plain, earned;
      }
      var proof := freshReadinessProof;
      freshReadinessProof := None;
      if proof.Some? && proof.value.lease == lease && SameRouteExpectation(proof.value.expectedRoute, route)
         && proof.value.frameId == snapshot.value.frameId && proof.value.loaderId == snapshot.value.loaderId
         && proof.value.backendDOMNodeId == snapshot.value.editables[0].backendDOMNodeId {
        return None, plain, earned;
      }
      // The proof does not fit: the fresh gate has to be passed now.
      snapshot, failure := PassFreshGate(route, lease);
      if snapshot.None? { return Some(failure), plain, earned; }
      earned := passes[|old(passes)|];
      return None, plain, earned;
    }
  }
}

/** Process identities, generations and leases: when a lease is current, and when it is dead. */
module RuntimeGeneration {
  import opened Wrappers

  datatype RuntimeIdentity = RuntimeIdentity(pid: int, creationTime: string)

  datatype RuntimeLease = RuntimeLease(generation: nat, identity: RuntimeIdentity)

  datatype LeaseError = NotObserved | GenerationChanged

  datatype Runtime = Runtime(
    generation: nat, currentIdentity: Option<RuntimeIdentity>, lastIdentity: Option<RuntimeIdentity>)

  const INITIAL := Runtime(0, None, None)

  function Observe(r: Runtime, identity: Option<RuntimeIdentity>): Runtime {
    if identity.None? then r.(currentIdentity := None)
    else Runtime(if r.lastIdentity == identity then r.generation else r.generation + 1, identity, identity)
  }

  function CurrentLease(r: Runtime): Option<RuntimeLease> {
    if r.currentIdentity.None? || r.generation == 0 then None
    else Some(RuntimeLease(r.generation, r.currentIdentity.value))
  }

  function AssertCurrent(r: Runtime, lease: RuntimeLease): Option<LeaseError> {
    if CurrentLease(r).None? then Some(NotObserved)
    else if CurrentLease(r).value != lease then Some(GenerationChanged)
    else None
  }

  function ObserveAll(r: Runtime, ids: seq<Option<RuntimeIdentity>>): Runtime {
    if ids == [] then r else Observe(ObserveAll(r, ids[..|ids| - 1]), ids[|ids| - 1])
  }

  predicate Reachable(r: Runtime) {
    && (r.lastIdentity.None? <==> r.generation == 0)
    && (r.currentIdentity.Some? ==> r.currentIdentity == r.lastIdentity)
  }

  /** A lease handed out by this runtime, now or earlier. */
  predicate Issued(r: Runtime, lease: RuntimeLease) {
    && 0 < lease.generation <= r.generation
    && (lease.generation == r.generation ==> r.lastIdentity == Some(lease.identity))
  }

  /** Some observation since shows another process. */
  predicate Replaced(lease: RuntimeLease, ids: seq<Option<RuntimeIdentity>>) {
    exists i :: 0 <= i < |ids| && ids[i].Some? && ids[i] != Some(lease.identity)
  }

  lemma {:induction false} ReachableAlways(ids: seq<Option<RuntimeIdentity>>)
    ensures Reachable(ObserveAll(INITIAL, ids))
  {
    if ids != [] { ReachableAlways(ids[..|ids| - 1]); }
  }

  lemma {:induction false} GenerationsNeverDecrease(r: Runtime, ids: seq<Option<RuntimeIdentity>>)
    ensures r.generation <= ObserveAll(r, ids).generation
    ensures r.lastIdentity.Some? ==> ObserveAll(r, ids).lastIdentity.Some?
  {
    if ids != [] { GenerationsNeverDecrease(r, ids[..|ids| - 1]); }
  }

  lemma ReplacedSnoc(lease: RuntimeLease, ids: seq<Option<RuntimeIdentity>>, last: Option<RuntimeIdentity>)
    ensures Replaced(lease, ids + [last]) <==> Replaced(lease, ids) || (last.Some? && last != Some(lease.identity))
  {
    var all := ids + [last];
    if Replaced(lease, ids) {
      var i :| 0 <= i < |ids| && ids[i].Some? && ids[i] != Some(lease.identity);
      assert all[i] == ids[i];
    }
    if last.Some? && last != Some(lease.identity) { assert all[|ids|] == last; }
  }

  /** After any further observations: the generation moved on exactly if another process was seen. */
  lemma {:induction false} GenerationMovesOnReplacement(r: Runtime, lease: RuntimeLease,
                                                      ids: seq<Option<RuntimeIdentity>>)
    requires AssertCurrent(r, lease).None? && Reachable(r)
    ensures var later := ObserveAll(r, ids);
      && Reachable(later) && Issued(later, lease)
      && (later.generation == lease.generation <==> !Replaced(lease, ids))
      && (later.currentIdentity.Some? <==> ids == [] || ids[|ids| - 1].Some?)
  {
    if ids != [] {
      var init, last := ids[..|ids| - 1], ids[|ids| - 1];
      GenerationMovesOnReplacement(r, lease, init);
      ReplacedSnoc(lease, init, last);
      assert ids == init + [last];
    }
  }

  /**
   The fate of a lease, exactly: it is current again iff a process is visible and no other process
   was ever seen since; once another one was seen, even the old process coming back (A, B, A) does
   not revive it.
   */
  lemma LeaseIsCurrentExactly(r: Runtime, lease: RuntimeLease, ids: seq<Option<RuntimeIdentity>>)
    requires AssertCurrent(r, lease).None? && Reachable(r)
    ensures AssertCurrent(ObserveAll(r, ids), lease).None?
       <==> (ids == [] || ids[|ids| - 1].Some?) && !Replaced(lease, ids)
    ensures AssertCurrent(ObserveAll(r, ids), lease) == Some(GenerationChanged) ==> Replaced(lease, ids)
  {
    GenerationMovesOnReplacement(r, lease, ids);
  }

  lemma ReplacedIsForever(r: Runtime, lease: RuntimeLease, ids: seq<Option<RuntimeIdentity>>,
                          more: seq<Option<RuntimeIdentity>>)
    requires AssertCurrent(r, lease).None? && Reachable(r) && Replaced(lease, ids)
    ensures AssertCurrent(ObserveAll(r, ids + more), lease).Some?
  {
    var i :| 0 <= i < |ids| && ids[i].Some? && ids[i] != Some(lease.identity);
    assert (ids + more)[i] == ids[i];
    LeaseIsCurrentExactly(r, lease, ids + more);
  }

  lemma IssuedStays(r: Runtime, lease: RuntimeLease, identity: Option<RuntimeIdentity>)
    requires Reachable(r) && Issued(r, lease)
    ensures Reachable(Observe(r, identity)) && Issued(Observe(r, identity), lease)
  {
  }

  lemma {:induction false} IssuedAlways(r: Runtime, lease: RuntimeLease, ids: seq<Option<RuntimeIdentity>>)
    requires Reachable(r) && Issued(r, lease)
    ensures Reachable(ObserveAll(r, ids)) && Issued(ObserveAll(r, ids), lease)
  {
    if ids != [] {
      IssuedAlways(r, lease, ids[..|ids| - 1]);
      IssuedStays(ObserveAll(r, ids[..|ids| - 1]), lease, ids[|ids| - 1]);
    }
  }

  /** One generation names one process, over the whole life of the tracker. */
  lemma OneIdentityPerGeneration(ids: seq<Option<RuntimeIdentity>>, more: seq<Option<RuntimeIdentity>>)
    ensures var early, late := CurrentLease(ObserveAll(INITIAL, ids)), CurrentLease(ObserveAll(INITIAL, ids + more));
      && (early.Some? && late.Some? ==> early.value.generation <= late.value.generation)
      && (early.Some? && late.Some? && early.value.generation == late.value.generation ==> early == late)
  {
    ReachableAlways(ids);
    ObserveConcat(INITIAL, ids, more);
    var early := CurrentLease(ObserveAll(INITIAL, ids));
    if early.Some? { IssuedAlways(ObserveAll(INITIAL, ids), early.value, more); }
  }

  lemma {:induction false} ObserveConcat(r: Runtime, ids: seq<Option<RuntimeIdentity>>,
                                         more: seq<Option<RuntimeIdentity>>)
    ensures ObserveAll(r, ids + more) == ObserveAll(ObserveAll(r, ids), more)
  {
    if more == [] {
      assert ids + more == ids;
    } else {
      var init := more[..|more| - 1];
      ObserveConcat(r, ids, init);
      assert (ids + more)[..|ids + more| - 1] == ids + init;
    }
  }

  /** An issued lease of an older generation is never current again. */
  lemma OldGenerationIsDead(r: Runtime, lease: RuntimeLease, ids: seq<Option<RuntimeIdentity>>)
    requires lease.generation < r.generation
    ensures AssertCurrent(ObserveAll(r, ids), lease).Some?
  {
    GenerationsNeverDecrease(r, ids);
  }
}

/** The tracker object of src/domain/RuntimeGeneration.ts. */
module RuntimeGenerationTracker {
  import opened Wrappers
  import G = RuntimeGeneration

  class RuntimeGenerationTracker {
    var generation: nat
    var currentIdentity: Option<G.RuntimeIdentity>
    var lastIdentity: Option<G.RuntimeIdentity>

    ghost function Fields(): G.Runtime
      reads this
    {
      G.Runtime(generation, currentIdentity, lastIdentity)
    }

    constructor ()
      ensures Fields() == G.INITIAL
    {
      generation, currentIdentity, lastIdentity := 0, None, None;
    }

    method Observe(identity: Option<G.RuntimeIdentity>) returns (now: nat)
      modifies this
      ensures Fields() == G.Observe(old(Fields()), identity) && now == generation
    {
      if identity.None? {
        currentIdentity := None;
        return generation;
      }
      if lastIdentity.None? {
        generation := generation + 1;
      } else if lastIdentity.value != identity.value {
        generation := generation + 1;
      }
      currentIdentity := identity;
      lastIdentity := identity;
      return generation;
    }

    method GetCurrentRuntimeLease() returns (lease: Option<G.RuntimeLease>)
      ensures lease == G.CurrentLease(Fields())
    {
      if currentIdentity.None? || generation == 0 { return None; }
      return Some(G.RuntimeLease(generation, currentIdentity.value));
    }

    method AssertRuntimeLeaseCurrent(lease: G.RuntimeLease) returns (error: Option<G.LeaseError>)
      ensures error == G.AssertCurrent(Fields(), lease)
    {
      var current := GetCurrentRuntimeLease();
      if current.None? { return Some(G.NotObserved); }
      return if current.value != lease then Some(G.GenerationChanged) else None;
    }
  }
}

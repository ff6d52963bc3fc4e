/**
 Stopping and starting the supervised process. Process inspection and commands are an environment:
 at every suspension other callers may observe processes first, and every call may fail.
 */
module ClassicSupervisor {
  import opened Wrappers
  import G = RuntimeGeneration
  import Tracker = RuntimeGenerationTracker

  datatype Process = Process(identity: G.RuntimeIdentity, isMain: bool)

  datatype CallError = Aborted | CallTimedOut | CallFailed

  datatype SupervisorError =
    | OperationAborted | OperationTimedOut | InspectionFailed | ProcessTopology
    | StopFailed | ExitTimeout | StartFailed | NewProcessNotObserved | RequiredExistingRuntime
    | RuntimeGenerationChanged | RuntimeNotObserved

  /** One suspension: what others observed meanwhile, and how the awaited call ended. */
  datatype Suspension = Suspension(observed: seq<Option<G.RuntimeIdentity>>, processes: seq<Process>,
    error: Option<CallError>)

  function Reported(error: CallError): SupervisorError {
    match error
    case Aborted => OperationAborted
    case CallTimedOut => OperationTimedOut
    case CallFailed => InspectionFailed
  }

  datatype Selection = Main(process: Option<Process>) | NotUnique

  const REQUIRED_STOP_QUIESCENT_OBSERVATIONS := 2

  function Mains(processes: seq<Process>): seq<Process> {
    if processes == [] then []
    else
      var last := processes[|processes| - 1];
      Mains(processes[..|processes| - 1]) + if last.isMain then [last] else []
  }

  function SelectUniqueMainProcess(processes: seq<Process>): Selection {
    if processes == [] then Main(None)
    else if |Mains(processes)| != 1 then NotUnique
    else Main(Some(Mains(processes)[0]))
  }

  /** Some process is none of those that were captured. */
  predicate UnexpectedPresent(remaining: seq<Process>, previous: seq<G.RuntimeIdentity>) {
    exists i :: 0 <= i < |remaining| && remaining[i].identity !in previous
  }

  predicate PreviousPresent(remaining: seq<Process>, previous: seq<G.RuntimeIdentity>) {
    exists i :: 0 <= i < |remaining| && remaining[i].identity in previous
  }

  function Identities(processes: seq<Process>): (ids: seq<G.RuntimeIdentity>)
    ensures |ids| == |processes|
  {
    seq(|processes|, i requires 0 <= i < |processes| => processes[i].identity)
  }

  /** Neither a captured nor an unexpected process: nothing runs. */
  lemma QuiescentIsEmpty(remaining: seq<Process>, previous: seq<G.RuntimeIdentity>)
    ensures !UnexpectedPresent(remaining, previous) && !PreviousPresent(remaining, previous) <==> remaining == []
  {
    if remaining != [] { assert remaining[0] in remaining; }
  }

  /** The `n` latest inspections saw no process. */
  predicate QuietFor(inspections: seq<seq<Process>>, n: nat) {
    n <= |inspections| && forall i | |inspections| - n <= i < |inspections| :: inspections[i] == []
  }

  /** From position `start` on, the log shows none but the captured processes. */
  predicate OnlyCaptured(inspections: seq<seq<Process>>, start: nat, previous: seq<G.RuntimeIdentity>) {
    forall i | start <= i < |inspections| :: !UnexpectedPresent(inspections[i], previous)
  }

  /**
   What a successful stop has seen: its first inspection captures the processes; if there were any,
   later ones show only those, and the last two, both after the capture, show none at all.
   */
  predicate Stopped(before: seq<seq<Process>>, after: seq<seq<Process>>) {
    && before < after
    && (after[|before|] == [] ==> |after| == |before| + 1)
    && (after[|before|] != [] ==>
          && |before| + 3 <= |after| && QuietFor(after, REQUIRED_STOP_QUIESCENT_OBSERVATIONS)
          && OnlyCaptured(after, |before| + 1, Identities(after[|before|])))
  }

  class ClassicSupervisor {
    const tracker: Tracker.RuntimeGenerationTracker
    var stopInProgress: bool
    var script: seq<Suspension>
    var position: nat
    /** Results of the inspections made by lifecycle operations. */
    ghost var inspections: seq<seq<Process>>

    constructor (tracker: Tracker.RuntimeGenerationTracker, script: seq<Suspension>)
      ensures this.tracker == tracker && !stopInProgress && position == 0 && inspections == []
    {
      this.tracker, this.script := tracker, script;
      stopInProgress, position, inspections := false, 0, [];
    }

    ghost predicate Valid()
      reads this`position, this`script, tracker
    {
      position <= |script| && G.Reachable(tracker.Fields())
    }

    /** The tracker only ever moves forward. */
    twostate predicate OnlyForward()
      reads tracker
    {
      && old(tracker.Fields()).generation <= tracker.Fields().generation
      && (forall lease :: G.Issued(old(tracker.Fields()), lease) ==> G.Issued(tracker.Fields(), lease))
    }

    /** None stands for the end of the script: the deadline passes or the caller aborts. */
    method Await() returns (result: Option<Suspension>)
      requires Valid()
      modifies this`position, tracker
      ensures Valid() && OnlyForward()
      ensures if old(position) < |script| then result == Some(script[old(position)]) && position == old(position) + 1
              else result.None? && position == old(position)
    {
      result := None;
      if position < |script| {
        result := Some(script[position]);
        position := position + 1;
        ObserveAll(result.value.observed);
      }
    }

    method ObserveAll(identities: seq<Option<G.RuntimeIdentity>>)
      requires G.Reachable(tracker.Fields())
      modifies tracker
      ensures G.Reachable(tracker.Fields()) && OnlyForward()
    {
      for i := 0 to |identities|
        invariant G.Reachable(tracker.Fields()) && OnlyForward()
      {
        Observe(identities[i]);
      }
    }

    method Observe(identity: Option<G.RuntimeIdentity>)
      requires G.Reachable(tracker.Fields())
      modifies tracker
      ensures G.Reachable(tracker.Fields()) && OnlyForward()
      ensures tracker.Fields() == G.Observe(old(tracker.Fields()), identity)
    {
      var _ := tracker.Observe(identity);
    }

    method GetClassicProcesses() returns (processes: seq<Process>, error: Option<SupervisorError>)
      requires Valid()
      modifies this`position, this`inspections, tracker
      ensures Valid() && OnlyForward()
      ensures error.None? ==> inspections == old(inspections) + [processes] && position == old(position) + 1
      ensures error.None? ==> old(position) < |script| && processes == script[old(position)].processes
      ensures error.Some? ==>
        inspections == old(inspections) && !error.value.RuntimeGenerationChanged?
          && !error.value.RequiredExistingRuntime?
      ensures old(position) <= position
    {
      var s := Await();
      processes := [];
      if s.None? { return processes, Some(OperationTimedOut); }
      if s.value.error.Some? { return processes, Some(Reported(s.value.error.value)); }
      inspections := inspections + [s.value.processes];
      return s.value.processes, None;
    }

    /** Anybody may look at any time; while a stop is in progress a look changes no lease. */
    method Inspect() returns (main: Option<Process>, error: Option<SupervisorError>)
      requires Valid()
      modifies this`position, this`inspections, tracker
      ensures Valid() && OnlyForward()
      ensures error.None? ==>
        && old(position) < |script| && SelectUniqueMainProcess(script[old(position)].processes) == Main(main)
        && (!stopInProgress ==> tracker.currentIdentity == (if main.None? then None else Some(main.value.identity)))
    {
      main := None;
      var processes;
      processes, error := GetClassicProcesses();
      if error.Some? { return; }
      var selection := SelectUniqueMainProcess(processes);
      if selection.NotUnique? { return None, Some(ProcessTopology); }
      main := selection.process;
      if !stopInProgress { Observe(if main.None? then None else Some(main.value.identity)); }
    }

    method Stop() returns (error: Option<SupervisorError>)
      requires Valid()
      modifies this, tracker
      ensures Valid() && OnlyForward() && !stopInProgress && old(inspections) <= inspections
      ensures error.None? ==> tracker.currentIdentity.None? && Stopped(old(inspections), inspections)
    {
      stopInProgress := true;
      error := StopCapturedProcesses();
      stopInProgress := false;
    }

    method StopCapturedProcesses() returns (error: Option<SupervisorError>)
      requires Valid()
      modifies this`position, this`inspections, tracker
      ensures Valid() && OnlyForward() && old(inspections) <= inspections
      ensures error.None? ==> tracker.currentIdentity.None? && Stopped(old(inspections), inspections)
    {
      var processes;
      processes, error := GetClassicProcesses();
      if error.Some? { return; }
      var selection := SelectUniqueMainProcess(processes);
      if selection.NotUnique? { return Some(ProcessTopology); }
      if selection.process.Some? { Observe(Some(selection.process.value.identity)); }
      Observe(None);
      if |processes| == 0 { return; }
      var command := Await();
      if command.None? || command.value.error == Some(Aborted) { return Some(OperationAborted); }
      error := WaitForExit(Identities(processes), command.value.error.Some?);
    }

    method WaitForExit(previous: seq<G.RuntimeIdentity>, commandFailed: bool) returns (error: Option<SupervisorError>)
      requires Valid()
      modifies this`position, this`inspections, tracker
      ensures Valid() && OnlyForward() && old(inspections) <= inspections
      ensures error.None? ==>
        && tracker.currentIdentity.None? && QuietFor(inspections, REQUIRED_STOP_QUIESCENT_OBSERVATIONS)
        && |old(inspections)| + REQUIRED_STOP_QUIESCENT_OBSERVATIONS <= |inspections|
        && OnlyCaptured(inspections, |old(inspections)|, previous)
    {
      var quiescentObservations := 0;
      while position < |script|
        invariant Valid() && OnlyForward()
        invariant quiescentObservations < REQUIRED_STOP_QUIESCENT_OBSERVATIONS
        invariant QuietFor(inspections, quiescentObservations)
        invariant old(inspections) <= inspections && |old(inspections)| + quiescentObservations <= |inspections|
        invariant OnlyCaptured(inspections, |old(inspections)|, previous)
        decreases |script| - position
      {
        var remaining;
        remaining, error := GetClassicProcesses();
        if error.Some? {
          return if !error.value.OperationTimedOut? then error
            else Some(if commandFailed then StopFailed else ExitTimeout);
        }
        QuiescentIsEmpty(remaining, previous);
        if UnexpectedPresent(remaining, previous) {
          Observe(None);
          return Some(StopFailed);
        }
        if !PreviousPresent(remaining, previous) {
          quiescentObservations := quiescentObservations + 1;
          if quiescentObservations >= REQUIRED_STOP_QUIESCENT_OBSERVATIONS {
            Observe(None);
            return None;
          }
        } else {
          quiescentObservations := 0;
        }
      }
      return Some(if commandFailed then StopFailed else ExitTimeout);
    }

    /** A launch starts from an empty process table and ends with a generation that is new. */
    method StartNewGeneration() returns (generation: Option<nat>, error: SupervisorError)
      requires Valid()
      modifies this`position, this`inspections, tracker
      ensures Valid() && OnlyForward()
      ensures generation.Some? ==>
        && generation.value > old(tracker.Fields()).generation && generation.value == tracker.generation
        && (exists i :: |old(inspections)| <= i < |inspections| && inspections[i] == [])
    {
      var generationBeforeLaunch := tracker.generation;
      generation, error := None, NewProcessNotObserved;
      var installation := Await();
      if installation.None? || installation.value.error.Some? { return None, OperationAborted; }
      var before, failure := GetClassicProcesses();
      if failure.Some? { return None, failure.value; }
      if |before| != 0 {
        Observe(None);
        return None, StartFailed;
      }
      ghost var launchedAt := |inspections| - 1;
      var launch := Await();
      if launch.None? || launch.value.error.Some? {
        return None, if launch.Some? && launch.value.error != Some(Aborted) then StartFailed else OperationAborted;
      }
      while position < |script|
        invariant Valid() && OnlyForward()
        invariant |old(inspections)| <= launchedAt < |inspections| && inspections[launchedAt] == []
        invariant generationBeforeLaunch == old(tracker.Fields()).generation
        decreases |script| - position
      {
        var processes;
        processes, failure := GetClassicProcesses();
        if failure.Some? {
          return None, if failure.value.OperationTimedOut? then NewProcessNotObserved else failure.value;
        }
        var selection := SelectUniqueMainProcess(processes);
        if selection.NotUnique? { return None, ProcessTopology; }
        if selection.process.Some? {
          Observe(Some(selection.process.value.identity));
          assert inspections[launchedAt] == [];
          if tracker.generation > generationBeforeLaunch { return Some(tracker.generation), error; }
        }
      }
    }

    /** A successful restart outdates every lease that was ever handed out before it. */
    method Restart() returns (generation: Option<nat>, error: SupervisorError)
      requires Valid()
      modifies this, tracker
      ensures Valid() && OnlyForward()
      ensures generation.Some? ==> forall lease :: G.Issued(old(tracker.Fields()), lease) ==>
        lease.generation < generation.value && G.AssertCurrent(tracker.Fields(), lease).Some?
    {
      var failure := Stop();
      if failure.Some? { return None, failure.value; }
      generation, error := StartNewGeneration();
    }

    /** A running process is kept; otherwise a new generation is started. */
    method EnsureStarted() returns (generation: Option<nat>, error: SupervisorError)
      requires Valid()
      modifies this`position, this`inspections, tracker
      ensures Valid() && OnlyForward()
      ensures generation.Some? ==> generation.value == tracker.generation
    {
      var main, failure := Inspect();
      if failure.Some? { return None, failure.value; }
      if main.Some? { return Some(tracker.generation), OperationAborted; }
      generation, error := StartNewGeneration();
    }

    /** A lease on the one main process that runs now; it is an error if none does. */
    method RequireExisting() returns (lease: Option<G.RuntimeLease>, error: SupervisorError)
      requires Valid()
      modifies this`position, this`inspections, tracker
      ensures Valid() && OnlyForward()
      ensures lease.Some? ==>
        && old(position) < |script| && G.AssertCurrent(tracker.Fields(), lease.value).None?
        && exists main: Process :: SelectUniqueMainProcess(script[old(position)].processes) == Main(Some(main))
                                   && main.identity == lease.value.identity
      ensures lease.None? && error == RequiredExistingRuntime ==>
        && old(position) < |script| && tracker.currentIdentity.None?
        && SelectUniqueMainProcess(script[old(position)].processes) == Main(None)
    {
      var processes, failure := GetClassicProcesses();
      if failure.Some? { return None, failure.value; }
      var selection := SelectUniqueMainProcess(processes);
      if selection.NotUnique? { return None, ProcessTopology; }
      if selection.process.None? {
        Observe(None);
        return None, RequiredExistingRuntime;
      }
      Observe(Some(selection.process.value.identity));
      lease := tracker.GetCurrentRuntimeLease();
      error := RuntimeNotObserved;
    }

    /** The lease holds exactly if its process is the one that runs now; the look is recorded either way. */
    method AssertRuntimeLeaseCurrentObserved(expected: G.RuntimeLease) returns (error: Option<SupervisorError>)
      requires Valid()
      modifies this`position, this`inspections, tracker
      ensures Valid() && OnlyForward()
      ensures error.None? ==> G.AssertCurrent(tracker.Fields(), expected).None?
      ensures error == Some(RuntimeGenerationChanged) ==> G.AssertCurrent(tracker.Fields(), expected).Some?
    {
      var processes;
      processes, error := GetClassicProcesses();
      if error.Some? { return; }
      var selection := SelectUniqueMainProcess(processes);
      if selection.NotUnique? { return Some(ProcessTopology); }
      if selection.process.None? {
        Observe(None);
        return Some(RuntimeGenerationChanged);
      }
      Observe(Some(selection.process.value.identity));
      if selection.process.value.identity != expected.identity { return Some(RuntimeGenerationChanged); }
      var outdated := tracker.AssertRuntimeLeaseCurrent(expected);
      return if outdated.None? then None else if outdated.value.NotObserved? then Some(RuntimeNotObserved)
        else Some(RuntimeGenerationChanged);
    }
  }
}

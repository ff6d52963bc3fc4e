/** The registry object: four maps changed in place, as ThreadRegistration says. */
module ThreadRegistry {
  import opened Wrappers
  import R = ThreadRegistration

  class ThreadRegistry {
    const handleFactory: R.Factory
    var committedHandleToLocator: map<R.Handle, R.Locator>
    var locatorToHandle: map<R.Locator, R.Handle>
    var provisionalHandleToEntry: map<R.Handle, R.Provisional>
    var provisionalTransactionToHandle: map<R.Token, R.Handle>
    var drawn: nat
    var issued: nat
    ghost var settlements: map<R.Token, bool>
    ghost var settledTwice: bool

    ghost function Fields(): R.Registry
      reads this
    {
      R.Registry(committedHandleToLocator, locatorToHandle, provisionalHandleToEntry,
                 provisionalTransactionToHandle, drawn, issued, settlements, settledTwice)
    }

    constructor (handleFactory: R.Factory)
      ensures this.handleFactory == handleFactory && Fields() == R.EMPTY
    {
      this.handleFactory := handleFactory;
      committedHandleToLocator, locatorToHandle := map[], map[];
      provisionalHandleToEntry, provisionalTransactionToHandle := map[], map[];
      drawn, issued, settlements, settledTwice := 0, 0, map[], false;
    }

    predicate HandleExists(handle: R.Handle)
      reads this
    {
      handle in committedHandleToLocator || handle in provisionalHandleToEntry
    }

    /** Draw handles until one is unused, at most COLLISION_ATTEMPTS times. */
    method DrawHandle() returns (handle: Option<R.Handle>)
      modifies this`drawn
      ensures var n := R.FreeAttempt(handleFactory, old(Fields()), 0);
        if n == R.COLLISION_ATTEMPTS then handle.None? && drawn == old(drawn) + n
        else handle == Some(handleFactory(old(drawn) + n)) && drawn == old(drawn) + n + 1
    {
      for attempt := 0 to R.COLLISION_ATTEMPTS
        invariant drawn == old(drawn) + attempt
        invariant R.FreeAttempt(handleFactory, old(Fields()), 0) == R.FreeAttempt(handleFactory, old(Fields()), attempt)
      {
        var candidate := handleFactory(drawn);
        drawn := drawn + 1;
        if !HandleExists(candidate) { return Some(candidate); }
      }
      return None;
    }

    method RegisterWithStatus(locator: R.Locator) returns (result: R.Registration)
      modifies this
      ensures R.Registering(Fields(), result) == R.RegisterWithStatus(handleFactory, old(Fields()), locator)
    {
      if locator in locatorToHandle {
        var existing := locatorToHandle[locator];
        if existing !in committedHandleToLocator { return R.ThreadNotFound; }
        return R.Registered(existing, false, None);
      }
      var handle := DrawHandle();
      if handle.None? { return R.HandleCollision; }
      committedHandleToLocator := committedHandleToLocator[handle.value := locator];
      locatorToHandle := locatorToHandle[locator := handle.value];
      return R.Registered(handle.value, true, None);
    }

    method ReserveProvisionalWithStatus(locator: R.Locator) returns (result: R.Registration)
      modifies this
      ensures R.Registering(Fields(), result) == R.Reserve(handleFactory, old(Fields()), locator)
    {
      if locator in locatorToHandle { return R.Registered(locatorToHandle[locator], false, None); }
      var handle := DrawHandle();
      if handle.None? { return R.HandleCollision; }
      var transaction := issued;
      issued := issued + 1;
      provisionalHandleToEntry := provisionalHandleToEntry[handle.value := R.Provisional(locator, transaction)];
      provisionalTransactionToHandle := provisionalTransactionToHandle[transaction := handle.value];
      locatorToHandle := locatorToHandle[locator := handle.value];
      return R.Registered(handle.value, true, Some(transaction));
    }

    ghost method Settle(transaction: R.Token, committed: bool)
      modifies this`settlements, this`settledTwice
      ensures settlements == old(settlements)[transaction := committed]
      ensures settledTwice == (old(settledTwice) || transaction in old(settlements))
    {
      settledTwice := settledTwice || transaction in settlements;
      settlements := settlements[transaction := committed];
    }

    method CommitProvisional(transaction: R.Token) returns (done: bool)
      modifies this
      ensures Fields() == R.Commit(old(Fields()), transaction)
      ensures done == R.IsPending(old(Fields()), transaction)
    {
      if transaction !in provisionalTransactionToHandle { return false; }
      var handle := provisionalTransactionToHandle[transaction];
      if handle !in provisionalHandleToEntry { return false; }
      var entry := provisionalHandleToEntry[handle];
      if entry.transaction != transaction { return false; }
      provisionalTransactionToHandle := provisionalTransactionToHandle - {transaction};
      provisionalHandleToEntry := provisionalHandleToEntry - {handle};
      committedHandleToLocator := committedHandleToLocator[handle := entry.locator];
      Settle(transaction, true);
      return true;
    }

    method RollbackProvisional(transaction: R.Token) returns (done: bool)
      modifies this
      ensures Fields() == R.Rollback(old(Fields()), transaction)
      ensures done == R.IsPending(old(Fields()), transaction)
    {
      if transaction !in provisionalTransactionToHandle { return false; }
      var handle := provisionalTransactionToHandle[transaction];
      if handle !in provisionalHandleToEntry { return false; }
      var entry := provisionalHandleToEntry[handle];
      if entry.transaction != transaction { return false; }
      provisionalTransactionToHandle := provisionalTransactionToHandle - {transaction};
      provisionalHandleToEntry := provisionalHandleToEntry - {handle};
      if entry.locator in locatorToHandle && locatorToHandle[entry.locator] == handle {
        locatorToHandle := locatorToHandle - {entry.locator};
      }
      Settle(transaction, false);
      return true;
    }

    function RegistrationState(handle: R.Handle): (state: Option<R.RegistrationState>)
      reads this
      ensures state == R.StateOf(Fields(), handle)
    {
      if handle in committedHandleToLocator then Some(R.COMMITTED)
      else if handle in provisionalHandleToEntry then Some(R.PROVISIONAL)
      else None
    }

    function Resolve(handle: R.Handle): (locator: Option<R.Locator>)
      reads this
      ensures locator == R.Resolve(Fields(), handle)
    {
      if handle in committedHandleToLocator then Some(committedHandleToLocator[handle]) else None
    }

    predicate HasLocator(locator: R.Locator)
      reads this
      ensures HasLocator(locator) <==> locator in Fields().handles
    {
      locator in locatorToHandle
    }

    function KnownThreads(): (handles: set<R.Handle>)
      reads this
      ensures forall h :: h in handles <==> R.StateOf(Fields(), h) == Some(R.COMMITTED)
    {
      committedHandleToLocator.Keys
    }
  }
}

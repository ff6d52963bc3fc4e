/** The thread registry as values: committed and provisional handles, and their transactions. */
module ThreadRegistration {
  import opened Wrappers

  type Locator(==, 0, !new)
  type Handle(==, 0, !new)

  /** Identity of a transaction object; every reservation makes a new one. */
  type Token = nat

  const COLLISION_ATTEMPTS := 8

  datatype Provisional = Provisional(locator: Locator, transaction: Token)

  /**
   `drawn` counts handles taken from the factory and `issued` transactions made; `settlements`
   records how each transaction's promise was settled.
   */
  datatype Registry = Registry(
    committed: map<Handle, Locator>,
    handles: map<Locator, Handle>,
    provisional: map<Handle, Provisional>,
    transactions: map<Token, Handle>,
    drawn: nat,
    issued: nat,
    settlements: map<Token, bool>,
    settledTwice: bool)

  const EMPTY := Registry(map[], map[], map[], map[], 0, 0, map[], false)

  type Factory = nat -> Handle

  predicate HandleExists(r: Registry, handle: Handle) {
    handle in r.committed || handle in r.provisional
  }

  /** The handle of the `k`th draw from now on is in use. */
  predicate DrawIsTaken(factory: Factory, r: Registry, k: nat) {
    HandleExists(r, factory(r.drawn + k))
  }

  /** The first attempt, from `attempt` on, whose handle is unused; COLLISION_ATTEMPTS if none is. */
  function FreeAttempt(factory: Factory, r: Registry, attempt: nat): (n: nat)
    requires attempt <= COLLISION_ATTEMPTS
    ensures attempt <= n <= COLLISION_ATTEMPTS
    ensures forall k: nat | attempt <= k < n :: DrawIsTaken(factory, r, k)
    ensures n < COLLISION_ATTEMPTS ==> !DrawIsTaken(factory, r, n)
    decreases COLLISION_ATTEMPTS - attempt
  {
    if attempt == COLLISION_ATTEMPTS || !DrawIsTaken(factory, r, attempt) then attempt
    else FreeAttempt(factory, r, attempt + 1)
  }

  datatype Registration =
    | Registered(handle: Handle, created: bool, transaction: Option<Token>)
    | ThreadNotFound
    | HandleCollision

  datatype Registering = Registering(registry: Registry, result: Registration)

  function WithCommitted(r: Registry, handle: Handle, locator: Locator): Registry {
    r.(committed := r.committed[handle := locator], handles := r.handles[locator := handle])
  }

  function WithProvisional(r: Registry, handle: Handle, locator: Locator): Registry {
    r.(provisional := r.provisional[handle := Provisional(locator, r.issued)],
       transactions := r.transactions[r.issued := handle],
       handles := r.handles[locator := handle],
       issued := r.issued + 1)
  }

  function RegisterWithStatus(factory: Factory, r: Registry, locator: Locator): Registering {
    if locator in r.handles then
      Registering(r, if r.handles[locator] in r.committed then Registered(r.handles[locator], false, None)
        else ThreadNotFound)
    else
      var n := FreeAttempt(factory, r, 0);
      if n == COLLISION_ATTEMPTS then Registering(r.(drawn := r.drawn + n), HandleCollision)
      else
        var handle := factory(r.drawn + n);
        Registering(WithCommitted(r.(drawn := r.drawn + n + 1), handle, locator), Registered(handle, true, None))
  }

  function Reserve(factory: Factory, r: Registry, locator: Locator): Registering {
    if locator in r.handles then Registering(r, Registered(r.handles[locator], false, None))
    else
      var n := FreeAttempt(factory, r, 0);
      if n == COLLISION_ATTEMPTS then Registering(r.(drawn := r.drawn + n), HandleCollision)
      else
        var handle := factory(r.drawn + n);
        Registering(WithProvisional(r.(drawn := r.drawn + n + 1), handle, locator),
                    Registered(handle, true, Some(r.issued)))
  }

  predicate IsPending(r: Registry, token: Token) {
    && token in r.transactions
    && r.transactions[token] in r.provisional
    && r.provisional[r.transactions[token]].transaction == token
  }

  function Settled(r: Registry, token: Token, committed: bool): Registry
    requires IsPending(r, token)
  {
    r.(transactions := r.transactions - {token}, provisional := r.provisional - {r.transactions[token]},
       settlements := r.settlements[token := committed],
       settledTwice := r.settledTwice || token in r.settlements)
  }

  function Commit(r: Registry, token: Token): Registry {
    if !IsPending(r, token) then r
    else
      var handle := r.transactions[token];
      Settled(r, token, true).(committed := r.committed[handle := r.provisional[handle].locator])
  }

  function Rollback(r: Registry, token: Token): Registry {
    if !IsPending(r, token) then r
    else
      var handle := r.transactions[token];
      var locator := r.provisional[handle].locator;
      Settled(r, token, false).(handles :=
        if locator in r.handles && r.handles[locator] == handle then r.handles - {locator} else r.handles)
  }

  datatype RegistrationState = COMMITTED | PROVISIONAL

  function StateOf(r: Registry, handle: Handle): Option<RegistrationState> {
    if handle in r.committed then Some(COMMITTED)
    else if handle in r.provisional then Some(PROVISIONAL)
    else None
  }

  /** `Resolve`: None stands for the error THREAD_NOT_FOUND. */
  function Resolve(r: Registry, handle: Handle): Option<Locator> {
    if handle in r.committed then Some(r.committed[handle]) else None
  }

  // ---------------------------------------------------------------- every reachable registry

  datatype Operation =
    | Registers(locator: Locator)
    | Reserves(locator: Locator)
    | Commits(token: Token)
    | RollsBack(token: Token)

  function Apply(factory: Factory, r: Registry, op: Operation): Registry {
    match op
    case Registers(locator) => RegisterWithStatus(factory, r, locator).registry
    case Reserves(locator) => Reserve(factory, r, locator).registry
    case Commits(token) => Commit(r, token)
    case RollsBack(token) => Rollback(r, token)
  }

  function ApplyAll(factory: Factory, r: Registry, ops: seq<Operation>): Registry {
    if ops == [] then r else Apply(factory, ApplyAll(factory, r, ops[..|ops| - 1]), ops[|ops| - 1])
  }

  /** `handles` is the exact inverse of the disjoint union of committed and provisional handles. */
  predicate ExactInverse(r: Registry) {
    && (forall h | h in r.committed :: h !in r.provisional)
    && (forall h | h in r.committed :: r.committed[h] in r.handles && r.handles[r.committed[h]] == h)
    && (forall h | h in r.provisional ::
          r.provisional[h].locator in r.handles && r.handles[r.provisional[h].locator] == h)
    && (forall l | l in r.handles ::
          || (r.handles[l] in r.committed && r.committed[r.handles[l]] == l)
          || (r.handles[l] in r.provisional && r.provisional[r.handles[l]].locator == l))
  }

  /** Open transactions and provisional handles match one to one; the others are settled, once. */
  predicate TokensMatch(r: Registry) {
    && (forall h | h in r.provisional ::
          r.provisional[h].transaction in r.transactions && r.transactions[r.provisional[h].transaction] == h)
    && (forall t | t in r.transactions :: IsPending(r, t))
    && (forall t: Token | t < r.issued :: t in r.transactions <==> t !in r.settlements)
    && (forall t | t in r.transactions :: t < r.issued)
    && (forall t | t in r.settlements :: t < r.issued)
    && !r.settledTwice
  }

  predicate Consistent(r: Registry) {
    ExactInverse(r) && TokensMatch(r)
  }

  lemma ApplyConsistent(factory: Factory, r: Registry, op: Operation)
    requires Consistent(r)
    ensures Consistent(Apply(factory, r, op))
  {
    match op
    case Registers(locator) => RegisterConsistent(factory, r, locator);
    case Reserves(locator) => ReserveConsistent(factory, r, locator);
    case Commits(token) => CommitConsistent(r, token);
    case RollsBack(token) => RollbackConsistent(r, token);
  }

  /** An unused handle for an unused locator keeps the registry consistent, in either form. */
  lemma AddingConsistent(r: Registry, handle: Handle, locator: Locator)
    requires Consistent(r) && locator !in r.handles && !HandleExists(r, handle)
    ensures Consistent(WithCommitted(r, handle, locator))
    ensures Consistent(WithProvisional(r, handle, locator))
  {
    hide TokensMatch, ExactInverse;
    CommittingInverse(r, handle, locator);
    ProvidingInverse(r, handle, locator);
    AddingTokens(r, handle, locator);
    SameTokens(r, WithCommitted(r, handle, locator));
  }

  lemma CommittingInverse(r: Registry, handle: Handle, locator: Locator)
    requires Consistent(r) && locator !in r.handles && !HandleExists(r, handle)
    ensures ExactInverse(WithCommitted(r, handle, locator))
  {
    hide TokensMatch;
  }

  lemma ProvidingInverse(r: Registry, handle: Handle, locator: Locator)
    requires Consistent(r) && locator !in r.handles && !HandleExists(r, handle)
    ensures ExactInverse(WithProvisional(r, handle, locator))
  {
    hide TokensMatch;
  }

  lemma AddingTokens(r: Registry, handle: Handle, locator: Locator)
    requires Consistent(r) && locator !in r.handles && !HandleExists(r, handle)
    ensures TokensMatch(WithProvisional(r, handle, locator))
  {
    var next := WithProvisional(r, handle, locator);
    forall t | t in next.transactions ensures IsPending(next, t) {
      if t != r.issued { assert IsPending(r, t); }
    }
    forall h | h in next.provisional
      ensures next.provisional[h].transaction in next.transactions
      ensures next.transactions[next.provisional[h].transaction] == h
    {
      if h != handle { assert r.provisional[h].transaction in r.transactions; }
    }
  }

  lemma RegisterConsistent(factory: Factory, r: Registry, locator: Locator)
    requires Consistent(r)
    ensures Consistent(RegisterWithStatus(factory, r, locator).registry)
  {
    hide Consistent, WithCommitted, WithProvisional;
    DrawingConsistent(factory, r, locator);
  }

  lemma ReserveConsistent(factory: Factory, r: Registry, locator: Locator)
    requires Consistent(r)
    ensures Consistent(Reserve(factory, r, locator).registry)
  {
    hide Consistent, WithCommitted, WithProvisional;
    DrawingConsistent(factory, r, locator);
  }

  lemma DrawingConsistent(factory: Factory, r: Registry, locator: Locator)
    requires Consistent(r)
    ensures var n := FreeAttempt(factory, r, 0);
      && Consistent(r.(drawn := r.drawn + n))
      && (locator !in r.handles && n < COLLISION_ATTEMPTS ==>
            var drawn := r.(drawn := r.drawn + n + 1);
            Consistent(WithCommitted(drawn, factory(r.drawn + n), locator))
            && Consistent(WithProvisional(drawn, factory(r.drawn + n), locator)))
  {
    hide ExactInverse, TokensMatch, WithCommitted, WithProvisional;
    var n := FreeAttempt(factory, r, 0);
    DrawnConsistent(r, r.drawn + n);
    DrawnConsistent(r, r.drawn + n + 1);
    if locator !in r.handles && n < COLLISION_ATTEMPTS {
      AddingConsistent(r.(drawn := r.drawn + n + 1), factory(r.drawn + n), locator);
    }
  }

  lemma DrawnConsistent(r: Registry, drawn: nat)
    requires Consistent(r)
    ensures Consistent(r.(drawn := drawn))
  {
    assert forall t | t in r.transactions :: IsPending(r, t) && IsPending(r.(drawn := drawn), t);
  }

  lemma SettledTokens(r: Registry, token: Token, committed: bool)
    requires Consistent(r) && IsPending(r, token)
    ensures TokensMatch(Settled(r, token, committed))
  {
    var next := Settled(r, token, committed);
    forall t | t in next.transactions ensures IsPending(next, t) {
      assert IsPending(r, t) && r.transactions[t] != r.transactions[token];
    }
  }

  lemma CommitConsistent(r: Registry, token: Token)
    requires Consistent(r)
    ensures Consistent(Commit(r, token))
  {
    if IsPending(r, token) {
      SettledTokens(r, token, true);
      SameTokens(Settled(r, token, true), Commit(r, token));
    }
  }

  lemma RollbackConsistent(r: Registry, token: Token)
    requires Consistent(r)
    ensures Consistent(Rollback(r, token))
  {
    if IsPending(r, token) {
      SettledTokens(r, token, false);
      SameTokens(Settled(r, token, false), Rollback(r, token));
    }
  }

  lemma SameTokens(r: Registry, next: Registry)
    requires TokensMatch(r) && next == r.(committed := next.committed, handles := next.handles)
    ensures TokensMatch(next)
  {
    assert forall t | t in r.transactions :: IsPending(r, t) && IsPending(next, t);
  }

  /** Every reachable registry is consistent, and what was committed resolves to its locator forever. */
  lemma {:induction false} RegistryAlways(factory: Factory, before: seq<Operation>, after: seq<Operation>)
    ensures var r, later := ApplyAll(factory, EMPTY, before),
      ApplyAll(factory, ApplyAll(factory, EMPTY, before), after);
      && Consistent(r) && Consistent(later)
      && (forall h | h in r.committed :: Resolve(later, h) == Resolve(r, h))
  {
    if after != [] {
      var init, last := after[..|after| - 1], after[|after| - 1];
      RegistryAlways(factory, before, init);
      var r := ApplyAll(factory, ApplyAll(factory, EMPTY, before), init);
      ApplyConsistent(factory, r, last);
      CommittedKept(factory, r, last);
    } else if before != [] {
      RegistryAlways(factory, before[..|before| - 1], []);
      ApplyConsistent(factory, ApplyAll(factory, EMPTY, before[..|before| - 1]), before[|before| - 1]);
    }
  }

  lemma CommittedKept(factory: Factory, r: Registry, op: Operation)
    requires Consistent(r)
    ensures forall h | h in r.committed :: Resolve(Apply(factory, r, op), h) == Resolve(r, h)
  {
  }

  /** A direct registration leaves transactions alone; a reservation leaves the open ones alone. */
  lemma NewThreadKeepsTransactions(factory: Factory, r: Registry, locator: Locator)
    requires Consistent(r)
    ensures var direct, reserved := RegisterWithStatus(factory, r, locator).registry,
      Reserve(factory, r, locator).registry;
      && KeepsTransactions(r, direct) && KeepsTransactions(r, reserved)
    ensures var o := Reserve(factory, r, locator);
      o.result.Registered? && o.result.created && o.result.transaction.Some? ==>
        IsPending(o.registry, o.result.transaction.value)
        && o.registry.transactions[o.result.transaction.value] == o.result.handle
  {
    hide Reserve;
    ReserveKeepsTransactions(factory, r, locator);
    var direct := RegisterWithStatus(factory, r, locator).registry;
    assert direct.provisional == r.provisional && direct.transactions == r.transactions;
  }

  lemma ReserveKeepsTransactions(factory: Factory, r: Registry, locator: Locator)
    requires Consistent(r)
    ensures KeepsTransactions(r, Reserve(factory, r, locator).registry)
    ensures var o := Reserve(factory, r, locator);
      o.result.Registered? && o.result.created && o.result.transaction.Some? ==>
        IsPending(o.registry, o.result.transaction.value)
        && o.registry.transactions[o.result.transaction.value] == o.result.handle
  {
    hide FreeAttempt;
    var reserved := Reserve(factory, r, locator).registry;
    forall t: Token | IsPending(r, t) ensures IsPending(reserved, t) && reserved.transactions[t] == r.transactions[t] {
      assert t < r.issued && HandleExists(r, r.transactions[t]);
    }
  }

  ghost predicate KeepsTransactions(r: Registry, next: Registry) {
    && (forall t: Token | IsPending(r, t) :: IsPending(next, t) && next.transactions[t] == r.transactions[t])
    && next.settlements == r.settlements
    && (forall h | h in r.committed :: h in next.committed)
  }

  // ---------------------------------------------------------------- transactions

  /** The same threads, whatever handles and transactions were used up on the way. */
  predicate SameThreads(r: Registry, other: Registry) {
    && r.committed == other.committed && r.handles == other.handles
    && r.provisional == other.provisional && r.transactions == other.transactions
  }

  /** A reservation that is rolled back leaves no trace in the registry. */
  lemma ReserveThenRollback(factory: Factory, r: Registry, locator: Locator)
    requires Consistent(r)
    ensures var reserved := Reserve(factory, r, locator);
      reserved.result.Registered? && reserved.result.created ==>
        && reserved.result.transaction.Some?
        && StateOf(reserved.registry, reserved.result.handle) == Some(PROVISIONAL)
        && Resolve(reserved.registry, reserved.result.handle).None?
        && SameThreads(Rollback(reserved.registry, reserved.result.transaction.value), r)
  {
    hide ExactInverse, TokensMatch, IsPending;
    var reserved := Reserve(factory, r, locator);
    if reserved.result.Registered? && reserved.result.created {
      var n := FreeAttempt(factory, r, 0);
      DrawnConsistent(r, r.drawn + n + 1);
      AddThenRollback(r.(drawn := r.drawn + n + 1), reserved.result.handle, locator);
    }
  }

  lemma AddThenRollback(r: Registry, handle: Handle, locator: Locator)
    requires TokensMatch(r) && locator !in r.handles && !HandleExists(r, handle)
    ensures SameThreads(Rollback(WithProvisional(r, handle, locator), r.issued), r)
  {
    var back := Rollback(WithProvisional(r, handle, locator), r.issued);
    assert r.issued !in r.transactions;
    assert back.handles == r.handles;
    assert back.provisional == r.provisional;
    assert back.transactions == r.transactions;
  }

  lemma AddThenCommit(r: Registry, handle: Handle, locator: Locator)
    requires TokensMatch(r) && locator !in r.handles && !HandleExists(r, handle)
    ensures SameThreads(Commit(WithProvisional(r, handle, locator), r.issued), WithCommitted(r, handle, locator))
  {
    var done := Commit(WithProvisional(r, handle, locator), r.issued);
    assert r.issued !in r.transactions;
    assert done.provisional == r.provisional;
    assert done.transactions == r.transactions;
  }

  /** A reservation that is committed is the direct registration, under the same handle. */
  lemma ReserveThenCommit(factory: Factory, r: Registry, locator: Locator)
    requires Consistent(r)
    ensures var reserved, direct := Reserve(factory, r, locator), RegisterWithStatus(factory, r, locator);
      && (reserved.result.Registered? && reserved.result.created ==>
            && direct.result == Registered(reserved.result.handle, true, None)
            && SameThreads(Commit(reserved.registry, reserved.result.transaction.value), direct.registry))
      && (direct.result.Registered? && direct.result.created ==> reserved.result.Registered? && reserved.result.created)
  {
    hide ExactInverse, TokensMatch, IsPending;
    var reserved, direct := Reserve(factory, r, locator), RegisterWithStatus(factory, r, locator);
    if reserved.result.Registered? && reserved.result.created {
      var n := FreeAttempt(factory, r, 0);
      DrawnConsistent(r, r.drawn + n + 1);
      AddThenCommit(r.(drawn := r.drawn + n + 1), reserved.result.handle, locator);
    }
  }

  /** A transaction settles exactly once, whichever way, however often it is asked to. */
  lemma {:induction false} SettlesOnce(factory: Factory, r: Registry, token: Token, ops: seq<Operation>)
    requires Consistent(r) && token in r.settlements
    ensures var later := ApplyAll(factory, r, ops);
      && Consistent(later)
      && token in later.settlements && later.settlements[token] == r.settlements[token]
      && Commit(later, token) == later && Rollback(later, token) == later
  {
    if ops != [] {
      var before := ApplyAll(factory, r, ops[..|ops| - 1]);
      SettlesOnce(factory, r, token, ops[..|ops| - 1]);
      ApplyConsistent(factory, before, ops[|ops| - 1]);
      StaysSettled(factory, before, token, ops[|ops| - 1]);
    }
    SettledIsClosed(ApplyAll(factory, r, ops), token);
  }

  lemma StaysSettled(factory: Factory, r: Registry, token: Token, op: Operation)
    requires Consistent(r) && token in r.settlements
    ensures var next := Apply(factory, r, op);
      token in next.settlements && next.settlements[token] == r.settlements[token]
  {
    SettledIsClosed(r, token);
  }

  lemma SettledIsClosed(r: Registry, token: Token)
    requires Consistent(r) && token in r.settlements
    ensures !IsPending(r, token)
  {
  }

  // ---------------------------------------------------------------- distinct handles

  /** The factory never hands out the same handle twice. */
  ghost predicate Injective(factory: Factory) {
    forall i: nat, j: nat | i != j :: factory(i) != factory(j)
  }

  ghost predicate Drawn(factory: Factory, r: Registry, handle: Handle) {
    exists n: nat :: n < r.drawn && factory(n) == handle
  }

  ghost predicate AllDrawn(factory: Factory, r: Registry) {
    forall h | HandleExists(r, h) :: Drawn(factory, r, h)
  }

  /** A handle once drawn stays drawn, and if no thread has it, none ever gets it again. */
  ghost predicate StaysFree(factory: Factory, r: Registry, next: Registry) {
    forall h: Handle | Drawn(factory, r, h) ::
      Drawn(factory, next, h) && (!HandleExists(r, h) ==> !HandleExists(next, h))
  }

  lemma MoreDrawn(factory: Factory, r: Registry, next: Registry, h: Handle)
    requires Drawn(factory, r, h) && r.drawn <= next.drawn
    ensures Drawn(factory, next, h)
  {
    var n: nat :| n < r.drawn && factory(n) == h;
    assert n < next.drawn && factory(n) == h;
  }

  /** One more thread, under a handle drawn last, or none. */
  lemma NewHandleIsFresh(factory: Factory, r: Registry, next: Registry, n: nat)
    requires Injective(factory) && AllDrawn(factory, r)
    requires r.drawn <= n < next.drawn
    requires forall h | HandleExists(next, h) :: HandleExists(r, h) || h == factory(n)
    ensures AllDrawn(factory, next) && StaysFree(factory, r, next)
  {
    forall h: Handle | Drawn(factory, r, h)
      ensures Drawn(factory, next, h) && (!HandleExists(r, h) ==> !HandleExists(next, h))
    {
      MoreDrawn(factory, r, next, h);
      var m: nat :| m < r.drawn && factory(m) == h;
      assert factory(m) != factory(n);
    }
    forall h | HandleExists(next, h) ensures Drawn(factory, next, h) {
      if h == factory(n) { assert n < next.drawn && factory(n) == h; } else { MoreDrawn(factory, r, next, h); }
    }
  }

  lemma SameHandles(factory: Factory, r: Registry, next: Registry)
    requires AllDrawn(factory, r) && r.drawn <= next.drawn
    requires forall h | HandleExists(next, h) :: HandleExists(r, h)
    ensures AllDrawn(factory, next) && StaysFree(factory, r, next)
  {
    forall h: Handle | Drawn(factory, r, h) ensures Drawn(factory, next, h) { MoreDrawn(factory, r, next, h); }
  }

  lemma AddedHandles(r: Registry, handle: Handle, locator: Locator, drawn: nat)
    ensures WithCommitted(r.(drawn := drawn), handle, locator).drawn == drawn
    ensures WithProvisional(r.(drawn := drawn), handle, locator).drawn == drawn
    ensures forall h :: HandleExists(WithCommitted(r.(drawn := drawn), handle, locator), h) <==>
      HandleExists(r, h) || h == handle
    ensures forall h :: HandleExists(WithProvisional(r.(drawn := drawn), handle, locator), h) <==>
      HandleExists(r, h) || h == handle
  {
  }

  lemma DrawnHandles(r: Registry, drawn: nat)
    ensures forall h :: HandleExists(r.(drawn := drawn), h) <==> HandleExists(r, h)
  {
  }

  /** One new thread, or none. */
  ghost predicate AddsThread(factory: Factory, r: Registry, n: nat, locator: Locator, next: Registry) {
    if locator in r.handles then next == r
    else if n == COLLISION_ATTEMPTS then next == r.(drawn := r.drawn + n)
    else
      || next == WithCommitted(r.(drawn := r.drawn + n + 1), factory(r.drawn + n), locator)
      || next == WithProvisional(r.(drawn := r.drawn + n + 1), factory(r.drawn + n), locator)
  }

  lemma NewThreads(factory: Factory, r: Registry, locator: Locator)
    ensures AddsThread(factory, r, FreeAttempt(factory, r, 0), locator,
      RegisterWithStatus(factory, r, locator).registry)
    ensures AddsThread(factory, r, FreeAttempt(factory, r, 0), locator, Reserve(factory, r, locator).registry)
  {
    hide FreeAttempt, DrawIsTaken, HandleExists;
  }

  /** With a factory that never repeats, a new thread never gets a handle that was given out before. */
  lemma NewThreadIsFresh(factory: Factory, r: Registry, locator: Locator, next: Registry)
    requires Injective(factory) && AllDrawn(factory, r)
    requires next == RegisterWithStatus(factory, r, locator).registry || next == Reserve(factory, r, locator).registry
    ensures AllDrawn(factory, next) && StaysFree(factory, r, next)
  {
    hide Injective, AllDrawn, StaysFree, FreeAttempt, RegisterWithStatus, Reserve, HandleExists, WithCommitted,
         WithProvisional;
    var n := FreeAttempt(factory, r, 0);
    NewThreads(factory, r, locator);
    if locator !in r.handles && n < COLLISION_ATTEMPTS {
      AddedHandles(r, factory(r.drawn + n), locator, r.drawn + n + 1);
      NewHandleIsFresh(factory, r, next, r.drawn + n);
    } else {
      DrawnHandles(r, r.drawn + n);
      SameHandles(factory, r, next);
    }
  }

  lemma SettlingHandles(r: Registry, token: Token, next: Registry)
    requires next == Commit(r, token) || next == Rollback(r, token)
    ensures r.drawn == next.drawn && forall h | HandleExists(next, h) :: HandleExists(r, h)
  {
  }

  /** With a factory that never repeats, no operation gives out a handle again. */
  lemma HandlesAreNotReused(factory: Factory, r: Registry, op: Operation)
    requires Injective(factory) && AllDrawn(factory, r)
    ensures AllDrawn(factory, Apply(factory, r, op)) && StaysFree(factory, r, Apply(factory, r, op))
  {
    hide Injective, AllDrawn, StaysFree, RegisterWithStatus, Reserve, Commit, Rollback, HandleExists;
    var next := Apply(factory, r, op);
    if op.Registers? || op.Reserves? {
      NewThreadIsFresh(factory, r, op.locator, next);
    } else {
      SettlingHandles(r, op.token, next);
      SameHandles(factory, r, next);
    }
  }

  /** Exactly when a direct registration succeeds, and what it says. */
  lemma RegistersExactly(factory: Factory, r: Registry, locator: Locator)
    requires Consistent(r)
    ensures var o := RegisterWithStatus(factory, r, locator);
      && (o.result.ThreadNotFound? <==>
            exists h | h in r.provisional :: r.provisional[h].locator == locator)
      && (o.result.HandleCollision? <==>
            locator !in r.handles && forall k: nat | k < COLLISION_ATTEMPTS :: DrawIsTaken(factory, r, k))
      && (o.result.Registered? ==>
            && Resolve(o.registry, o.result.handle) == Some(locator)
            && o.result.created == !(exists h | h in r.committed :: r.committed[h] == locator))
  {
    var n := FreeAttempt(factory, r, 0);
    if locator in r.handles { assert HandleExists(r, r.handles[locator]); }
  }
}

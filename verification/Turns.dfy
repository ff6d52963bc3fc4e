/**
 One turn: insert, submit, poll until the write and its streamed response are decided. The page, the
 clock, the caller's abort signal, the listener and the runtime are an arbitrary environment that
 acts whenever the executor is suspended.
 */
module Turns {
  import opened Wrappers
  import G = RuntimeGeneration
  import R = ThreadRegistration
  import T = ResponseTracking
  import W = WriteObservation

  type ProjectLocator(==, 0, !new)

  datatype Target = Fresh | Thread(handle: R.Handle) | Project(locator: ProjectLocator)

  /** How a call of the page session, or waiting for it, may fail. */
  datatype CallError =
    GenerationChanged | Disconnected | TimedOut | AbortedByCaller | InputFailed | StreamUnavailable | OtherError

  datatype TurnError =
    | RuntimeGenerationChanged | OperationAborted | CdpDisconnected | TurnInputFailed
    | TurnStateUncertain | TurnWriteFailed | FreshConversationNotCreated
    | ResponseStreamUnavailable | ResponseParseFailed | ResponseStreamFailed
    | ThreadNotFound | ThreadHandleCollision

  datatype TurnEvent = TextDelta(text: Text) | FinalText(text: Text) | Completed

  /** One call of the listener; it throws if it does not accept the event. */
  datatype Offer = Offer(event: TurnEvent, accepted: bool)

  /** Events of the page; taking events and discarding the response are the executor's own. */
  type NetworkEvent = e: W.Event | !e.EventsTaken? && !e.ResponseDiscarded? witness W.ActivationRejected

  /** What happens while the executor waits, and how the awaited call ends. */
  datatype Suspension = Suspension(
    events: seq<NetworkEvent>,
    elapsed: nat,
    aborts: bool,
    identities: seq<Option<G.RuntimeIdentity>>,
    error: Option<CallError>)

  datatype Composer = Composer(expectedRoute: bool, eligible: bool, focused: bool, empty: bool,
    backendDOMNodeId: Option<int>)

  /**
   Answers to the n-th suspension, the n-th synchronous call and the n-th event offered: whether the
   listener accepts it, and whether it aborts the caller's signal.
   */
  datatype Environment = Environment(
    suspensions: nat -> Suspension,
    callErrors: nat -> Option<CallError>,
    composers: nat -> Composer,
    conversations: nat -> Option<R.Locator>,
    accepts: nat -> bool,
    aborting: nat -> bool)

  /** `responseEvents`, `projectSubmit`, `threadSubmit`: which optional methods the session has. */
  datatype Config = Config(
    setup: T.Setup,
    streaming: bool,
    responseEvents: bool,
    projectSubmit: bool,
    threadSubmit: bool,
    writeObservationTimeout: nat,
    writeSettlementTimeout: nat,
    responseCompletionTimeout: nat,
    freshConversationTimeout: nat,
    maxAccumulatedTextChars: nat,
    belongsToProject: (R.Locator, ProjectLocator) -> bool,
    isUnscoped: R.Locator -> bool,
    environment: Environment)

  datatype TurnResult = TurnResult(handle: R.Handle, created: bool, completion: Option<nat>)

  datatype PendingProjectCompletion = PendingProjectCompletion(lease: G.RuntimeLease, transaction: R.Token)

  /** What a turn may change for good: the registry, the marks on the scheduler, pending completions. */
  datatype Records = Records(
    registry: R.Registry, marked: seq<G.RuntimeLease>, pending: map<nat, PendingProjectCompletion>, completions: nat)

  datatype Outcome = Returned(result: TurnResult) | Threw(error: TurnError)

  /** What a turn asks the page to do. */
  datatype Command = InsertText | ClickSend | PressEnter | ReleaseEnter

  /** How far a turn got: before the observation, before the input, before the submission, after it. */
  datatype Stage = Preparing | Armed | Attempted | Committed

  predicate IsResponseError(error: TurnError) {
    error.ResponseStreamUnavailable? || error.ResponseParseFailed? || error.ResponseStreamFailed?
  }

  /** Errors that come after the write was seen finished: of the response, or of the registration. */
  predicate IsLateError(error: TurnError) {
    IsResponseError(error) || error.ThreadNotFound? || error.ThreadHandleCollision?
  }

  function ResponseErrorForFailure(failure: Option<T.FailureKind>): TurnError {
    if failure == Some(T.Unavailable) then ResponseStreamUnavailable
    else if failure == Some(T.ParseFailed) then ResponseParseFailed
    else ResponseStreamFailed
  }

  /** The code units String.prototype.trim removes. */
  predicate IsTrimmed(u: CodeUnit) {
    || 9 <= u <= 13 || u == 32 || u == 160 || u == 0x1680 || 0x2000 <= u <= 0x200A
    || u == 0x2028 || u == 0x2029 || u == 0x202F || u == 0x205F || u == 0x3000 || u == 0xFEFF
  }

  predicate IsBlank(text: Text) {
    forall i | 0 <= i < |text| :: IsTrimmed(text[i])
  }

  function RethrowPreCommit(error: CallError): TurnError {
    match error
    case GenerationChanged => RuntimeGenerationChanged
    case AbortedByCaller => OperationAborted
    case Disconnected => CdpDisconnected
    case StreamUnavailable => ResponseStreamUnavailable
    case _ => TurnInputFailed
  }

  // ---------------------------------------------------------------- what the listener was offered

  /** Text of the accepted deltas. */
  function ShownText(offered: seq<Offer>): Text {
    if offered == [] then []
    else
      var last := offered[|offered| - 1];
      ShownText(offered[..|offered| - 1]) + (if last.accepted && last.event.TextDelta? then last.event.text else [])
  }

  predicate OnlyDeltas(offered: seq<Offer>) {
    forall i | 0 <= i < |offered| :: offered[i].event.TextDelta?
  }

  predicate AllAccepted(offered: seq<Offer>) {
    forall i | 0 <= i < |offered| :: offered[i].accepted
  }

  /** A refused event is the last one offered. */
  predicate StopsWhenRefused(offered: seq<Offer>) {
    forall i | 0 <= i < |offered| - 1 :: offered[i].accepted
  }

  lemma ShownAppend(offered: seq<Offer>, offer: Offer)
    ensures ShownText(offered + [offer])
         == ShownText(offered) + (if offer.accepted && offer.event.TextDelta? then offer.event.text else [])
  {
    assert (offered + [offer])[..|offered|] == offered;
  }

  /** TEXT_DELTA* FINAL_TEXT COMPLETED, the deltas adding up to the final text. */
  predicate IsWholeAnswer(offered: seq<Offer>, text: Text) {
    && |offered| >= 2 && AllAccepted(offered)
    && OnlyDeltas(offered[..|offered| - 2]) && ShownText(offered[..|offered| - 2]) == text
    && offered[|offered| - 2].event == FinalText(text)
    && offered[|offered| - 1].event == Completed
  }

  /** How far the grammar TEXT_DELTA* FINAL_TEXT COMPLETED has got: `n` deltas, then `offered[n..]`. */
  predicate IsPartialAnswer(offered: seq<Offer>, n: nat) {
    && n <= |offered| <= n + 2
    && StopsWhenRefused(offered)
    && OnlyDeltas(offered[..n])
    && (|offered| > n ==> offered[n].event == FinalText(ShownText(offered[..n])) && AllAccepted(offered[..n]))
    && (|offered| > n + 1 ==> offered[n + 1].event == Completed)
  }

  ghost predicate FollowsGrammar(offered: seq<Offer>) {
    exists n: nat :: IsPartialAnswer(offered, n)
  }

  /** A whole answer has got to the end of the grammar, in the only way it can be read. */
  lemma WholeIsComplete(offered: seq<Offer>, text: Text)
    requires IsWholeAnswer(offered, text)
    ensures forall n: nat :: IsPartialAnswer(offered, n) <==> n == |offered| - 2
  {
    var k := |offered| - 2;
    assert AllAccepted(offered[..k]) && IsPartialAnswer(offered, k);
    assert forall n: nat | k < n <= |offered| :: offered[..n][k] == offered[k];
  }

  /** All that was offered when delivery stopped after the deltas, at FINAL_TEXT, or at COMPLETED. */
  lemma Concluding(deltas: seq<Offer>, text: Text, final: Offer, completed: Offer)
    requires OnlyDeltas(deltas) && AllAccepted(deltas) && ShownText(deltas) == text
    requires final.event == FinalText(text) && completed.event == Completed
    ensures FollowsGrammar(deltas + [final])
    ensures final.accepted ==> FollowsGrammar(deltas + [final, completed])
    ensures final.accepted && completed.accepted ==> IsWholeAnswer(deltas + [final, completed], text)
    ensures ShownText(deltas + [final]) == text && ShownText(deltas + [final, completed]) == text
  {
    var stopped, ended := deltas + [final], deltas + [final, completed];
    assert stopped[..|deltas|] == deltas && ended[..|deltas|] == deltas && ended == stopped + [completed];
    ShownAppend(deltas, final);
    ShownAppend(stopped, completed);
    assert IsPartialAnswer(stopped, |deltas|);
    if final.accepted {
      assert forall i | 0 <= i < |ended| - 1 :: ended[i] == stopped[i] && ended[i].accepted;
      assert IsPartialAnswer(ended, |deltas|);
    }
  }

  lemma DeltasFollowGrammar(offered: seq<Offer>)
    requires OnlyDeltas(offered) && StopsWhenRefused(offered)
    ensures FollowsGrammar(offered)
  {
    assert offered[..|offered|] == offered;
    assert IsPartialAnswer(offered, |offered|);
  }

  /** If anything was offered, the first event carries the text. */
  predicate OpensWith(offered: seq<Offer>, text: Text) {
    offered != [] ==> offered[0].event == TextDelta(text)
  }

  lemma StillOpensWith(offered: seq<Offer>, more: seq<Offer>, text: Text)
    requires offered != [] && OpensWith(offered, text)
    ensures OpensWith(offered + more, text)
  {
  }

  // ---------------------------------------------------------------- pace

  /**
   What one poll saw after its snapshot was read and the response was brought up to date: `write` is
   the write after the first `seen` events, `cancelled` whether the poll took note of the caller's abort.
   */
  datatype Poll = Poll(now: int, write: Option<W.WriteLifecycle>, cancelled: bool, seen: nat)

  /** The locals of the polling loop. */
  datatype Wait = Wait(
    committedAt: int,
    writeObservedAt: Option<int>,
    previousLifecycle: Option<W.WriteLifecycle>,
    freshLocator: Option<R.Locator>,
    callerCancelled: bool)

  function Max(a: nat, b: nat): nat {
    if a < b then b else a
  }

  function LongestWait(c: Config): nat {
    Max(c.writeSettlementTimeout, Max(c.responseCompletionTimeout, c.freshConversationTimeout))
  }

  /** The time of the first poll that saw the write. */
  function FirstSight(polls: seq<Poll>): Option<int> {
    if polls == [] then None
    else
      var before := FirstSight(polls[..|polls| - 1]);
      if before.Some? || polls[|polls| - 1].write.None? then before else Some(polls[|polls| - 1].now)
  }

  /** A poll that is followed by another one came before its deadline. */
  predicate InTime(c: Config, committedAt: int, polls: seq<Poll>)
    requires polls != []
  {
    match FirstSight(polls)
    case None => polls[|polls| - 1].now - committedAt < c.writeObservationTimeout
    case Some(seen) => polls[|polls| - 1].now - seen < LongestWait(c)
  }

  /** Poll `k` was the right one to follow the earlier ones. */
  predicate Follows(c: Config, committedAt: int, polls: seq<Poll>, k: nat)
    requires 0 < k < |polls|
  {
    InTime(c, committedAt, polls[..k]) && polls[k - 1].now < polls[k].now
  }

  predicate Paced(c: Config, committedAt: int, polls: seq<Poll>) {
    forall k | 0 < k < |polls| :: Follows(c, committedAt, polls, k)
  }

  lemma PacedNext(c: Config, committedAt: int, polls: seq<Poll>, poll: Poll)
    requires Paced(c, committedAt, polls)
    requires polls != [] ==> InTime(c, committedAt, polls) && polls[|polls| - 1].now < poll.now
    ensures Paced(c, committedAt, polls + [poll])
  {
    hide InTime;
    var all := polls + [poll];
    forall k | 0 < k < |all| ensures Follows(c, committedAt, all, k) {
      if k < |polls| {
        assert all[..k] == polls[..k] && Follows(c, committedAt, polls, k);
      } else {
        assert all[..k] == polls;
      }
    }
  }

  /** What a poll knew of the signal has no part in the pace. */
  lemma NotedIsPaced(c: Config, committedAt: int, before: seq<Poll>, last: Poll, cancelled: bool)
    requires Paced(c, committedAt, before + [last])
    ensures Paced(c, committedAt, before + [last.(cancelled := cancelled)])
  {
    var all, noted := before + [last], before + [last.(cancelled := cancelled)];
    forall k | 0 < k < |noted| ensures Follows(c, committedAt, noted, k) {
      assert Follows(c, committedAt, all, k) && noted[..k] == all[..k];
    }
  }

  lemma SightSnoc(polls: seq<Poll>, poll: Poll)
    ensures FirstSight(polls + [poll])
         == (if FirstSight(polls).Some? || poll.write.None? then FirstSight(polls) else Some(poll.now))
  {
    assert (polls + [poll])[..|polls|] == polls;
  }

  /** The time of first sight is set once: the write is never seen ACTIVE after it was seen settled. */
  lemma SightIsSetOnce(wait: Wait, polls: seq<Poll>, poll: Poll)
    requires wait.writeObservedAt == FirstSight(polls) && poll.write.Some?
    requires wait.writeObservedAt.Some? <==> wait.previousLifecycle.Some?
    requires wait.previousLifecycle.Some? && wait.previousLifecycle != Some(W.Active) ==>
      poll.write == wait.previousLifecycle
    ensures FirstSight(polls + [poll])
         == (if wait.writeObservedAt.None? || (wait.previousLifecycle != Some(W.Active) && poll.write == Some(W.Active))
             then Some(poll.now) else wait.writeObservedAt)
  {
    assert (polls + [poll])[..|polls|] == polls;
  }

  lemma NotYetSeen(c: Config, wait: Wait, polls: seq<Poll>, poll: Poll)
    requires wait.writeObservedAt == FirstSight(polls) && wait.writeObservedAt.None? && poll.write.None?
    requires poll.now - wait.committedAt < c.writeObservationTimeout
    ensures FirstSight(polls + [poll]).None? && InTime(c, wait.committedAt, polls + [poll])
  {
    assert (polls + [poll])[..|polls|] == polls;
  }

  /** Consecutive polls, and the commitment before them, are at most `gap` apart. */
  predicate Spaced(committedAt: int, polls: seq<Poll>, gap: nat) {
    && (polls != [] ==> polls[0].now <= committedAt + gap)
    && forall k | 0 < k < |polls| :: polls[k].now <= polls[k - 1].now + gap
  }

  lemma PacedInit(c: Config, committedAt: int, polls: seq<Poll>)
    requires Paced(c, committedAt, polls) && polls != []
    ensures Paced(c, committedAt, polls[..|polls| - 1])
  {
    var init := polls[..|polls| - 1];
    forall k | 0 < k < |init| ensures Follows(c, committedAt, init, k) {
      assert init[..k] == polls[..k] && Follows(c, committedAt, polls, k);
    }
  }

  lemma {:induction false} SightBound(c: Config, committedAt: int, polls: seq<Poll>, gap: nat)
    requires Paced(c, committedAt, polls) && Spaced(committedAt, polls, gap)
    ensures FirstSight(polls).Some? ==> FirstSight(polls).value <= committedAt + c.writeObservationTimeout + gap
  {
    if |polls| > 1 {
      var init := polls[..|polls| - 1];
      PacedInit(c, committedAt, polls);
      SightBound(c, committedAt, init, gap);
      assert Follows(c, committedAt, polls, |polls| - 1);
    }
  }

  /** The turn is decided within both timeouts, up to one polling interval for each. */
  lemma DecidedInTime(c: Config, committedAt: int, polls: seq<Poll>, gap: nat)
    requires Paced(c, committedAt, polls) && Spaced(committedAt, polls, gap) && polls != []
    ensures polls[|polls| - 1].now <= committedAt + c.writeObservationTimeout + LongestWait(c) + 2 * gap
  {
    if |polls| > 1 {
      var init := polls[..|polls| - 1];
      PacedInit(c, committedAt, polls);
      SightBound(c, committedAt, init, gap);
      assert Follows(c, committedAt, polls, |polls| - 1);
    }
  }

  /** The poll that gives up on a thread turn while its write is still in flight. */
  predicate Abandons(c: Config, target: Target, polls: seq<Poll>) {
    && target.Thread? && polls != []
    && polls[|polls| - 1].cancelled && polls[|polls| - 1].write == Some(W.Active)
    && FirstSight(polls).Some? && polls[|polls| - 1].now - FirstSight(polls).value < c.writeSettlementTimeout
  }
  lemma UnseenIsKept(c: Config, target: Target, polls: seq<Poll>, poll: Poll)
    requires poll.write.None?
    ensures !Abandons(c, target, polls + [poll])
  {
  }
}

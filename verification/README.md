# Threadwire: a Dafny model of its turn protocol

Threadwire drives a browser page through an asynchronous protocol: it inserts a prompt, watches the
network for the one conversation write, reads the streamed answer, and registers the conversation it
created. This project models the state machines that have to stay correct under every interleaving of
network events, polls, aborts and process replacements, and proves what they promise.

A method of a class runs from one suspension to the next, as JavaScript code does. At a suspension the
environment acts: any finite sequence of protocol events, runtime observations, an abort, the clock. The
functions of a module say what a step does to a value of the same fields; the class of the source changes
its fields in place and is proved to do that step; theorems over whole runs are proved about the functions.

## Reading order

- `Base64`, `Utf8`, `EventStream`, `ResponseStream`, `StreamCapacity`,
  `StreamOverflow` and the class in `ResponseStreamConsumer`: the incremental parser against a one-pass reading of the body.
- `ResponseTracking`, `CdpResponseStreamTracker`, `WriteObservation`, `CdpTurnObservationTracker`,
  `TurnResponse`: which chunks reach the parser, and how one write and its response are observed.
- `Turns`, `TurnExecutor`, `TurnFencing`: one turn from the composer to its result, and what may start after it.
- `RuntimeGeneration`, `MutationScheduling`, `OperationScheduler`, `ThreadRegistration`, `ThreadRegistry`,
  `TurnQueue`, `ControllerTurnQueue`, `ControllerTurns`, `ControllerFencing`, `ThreadwireController`: leases, the
  uncertainty latch, provisional registration, and the two-phase completion of Project turns.
- `Readiness`, `ReadinessGates`, `ReadinessController`: the gates as windows over the observation history.
- `ClassicSupervisor`, `KnownFreshNotice`: process replacement, and the dialog graph walk.

## Where the code differs from what it says

- Every end of a turn is meant to leave the page decided, fenced off or gone (README.md:50, and the promise
  that a cancelled thread turn keeps the page until its write settles). Two ends do not, and `SafeExactly`
  proves that there are no others and exactly when they happen; `SafeForCaller` says what a caller can rely on.
  - For a thread turn src/turn/TurnExecutor.ts:626-631 reports the caller's abort while the write is still
    ACTIVE and marks nothing (`GivesUpExactly`; `CancelledThreadTurn` is a concrete turn).
  - When a look at the processes shows none, a bound session reports a changed generation
    (src/runtime/ClassicSupervisor.ts:164-169, src/cdp/BoundCdpSessionManager.ts:358-369), and
    src/turn/TurnExecutor.ts:1107-1110 passes that on without a mark. The generation has not changed: the
    lease is current again as soon as the same process is seen (`LostSightTurn` is a concrete turn).
  - `AbandonedTurnOverlaps` and `LostTurnOverlaps` show the next operation starting over the open write.
- The uncertainty latch holds one lease, and a mark for an older lease overwrites the latch of the current one
  (`OlderMarkLiftsLatch`; `RefusalKeptExactly` says exactly which marks do this). The controller never lets that
  happen, not even by a rollback that comes after its process was replaced (`RefusalIsForever`).
- Whether a stream overflows depends on how it was cut into chunks (`OverflowDependsOnCut`);
  `OverflowExactly` says for every stream when no cut and no schedule can overflow.
- A later failure replaces the kind of an earlier one; `LaterFailureOverwrites` and `FailureKindChangesExactly`
  say exactly which events do this.
- That a withdrawn thread is never known again needs a factory that never repeats a handle
  (`KnownExactlyIfConfirmed`, `RepeatedHandleIsKnownAgain`).
- A fresh turn registers its thread before it throws a response error (`ConcludeFresh`).
- Some branches of the polling loop cannot be taken: after the write was seen, a later snapshot always shows
  it, and a write seen FINISHED is never seen ACTIVE again. The model asserts these facts there.

## Model

| member | source | states |
|---|---|---|
| Base64.DecodeEncode | src/response/ResponseStreamConsumer.ts:100-121 | every byte string, encoded, is accepted as base64 (RFC 4648 section 4) and decodes to itself |
| Utf8.RunConcat | src/response/ResponseStreamConsumer.ts:170-190 | decoding two pieces one after the other, from any decoder state, is decoding them joined: a cut inside a code point loses nothing |
| Utf8.DecodeEncode | src/response/ResponseStreamConsumer.ts:114-120 | every sequence of Unicode scalar values, encoded by RFC 3629, decodes to its UTF-16 units and ends between code points |
| Utf8.EncodeDecode | src/response/ResponseStreamConsumer.ts:114-120 | whatever bytes the decoder accepts to the end are the RFC 3629 encoding of some scalar values, and the text is theirs |
| Utf8.PrefixAccepted | src/response/ResponseStreamConsumer.ts:114-120 | an initial part of well-formed input is accepted, and its text is an initial part of the whole text |
| EventStream.SplitAppend | src/response/ResponseStreamConsumer.ts:170-190 | line splitting of a joined text is splitting the first part and going on with its unfinished line; a CR before the LF belongs to the line end even across the cut |
| EventStream.ReadStep | src/response/ResponseStreamConsumer.ts:192-286 | the reference reading by records, extended by one line, is the reading advanced by that line: line-by-line handling computes the record reading |
| EventStream.ReadExtends | src/response/ResponseStreamConsumer.ts:192-286 | more lines never change events already read, and nothing is read after [DONE] or after malformed JSON |
| EventStream.ReadTextExtends | src/response/ResponseStreamConsumer.ts:170-190 | more text never changes events already read |
| EventStream.ReadFinalExtends | src/response/ResponseStreamConsumer.ts:123-145 | the end of the stream closes the open record and only adds events |
| EventStream.CompletedIsLast | src/response/ResponseStreamConsumer.ts:248-251 | COMPLETED is read exactly at [DONE], once, and it is the last event |
| ResponseStream.PushBounded | src/response/ResponseStreamConsumer.ts:100-121 | after every push all five bounds hold if it did not throw, and the two counters stay exact in any case |
| ResponseStream.FinishAccounted | src/response/ResponseStreamConsumer.ts:123-145 | finish keeps pendingDataChars equal to the length of the joined data lines and queuedTextChars equal to the queued text |
| ResponseStream.FinishBounded | src/response/ResponseStreamConsumer.ts:123-145 | a finish that does not throw keeps all five bounds |
| ResponseStream.DrainFaithful | src/response/ResponseStreamConsumer.ts:147-154 | draining moves the queue to the drained events and loses none |
| ResponseStream.PushFaithful | src/response/ResponseStreamConsumer.ts:100-121 | one push agrees with the one-pass reading of all bytes so far, through every branch and every error |
| ResponseStream.FailedPush | src/response/ResponseStreamConsumer.ts:100-121 | after a push that threw, the events are still an initial part of what the bytes mean |
| ResponseStream.FinishFaithful | src/response/ResponseStreamConsumer.ts:123-145 | finish dispatches the unterminated last record exactly as the reference reading does, and fails inside a code point |
| ResponseStream.FailureIsFinal | src/response/ResponseStreamConsumer.ts:100-121 | a run that has failed stays failed in the same way |
| ResponseStream.ChunkIndependence | src/response/ResponseStreamConsumer.ts:100-190 | for every cutting of well-formed text into chunks and every schedule of drains, without overflow: drained plus queued events, completion and parse failure are those of one pass over the joined text |
| StreamCapacity.RoomyNeverOverflows | src/response/ResponseStreamConsumer.ts:170-190 | if all events fit the queue at once, no record has too many data lines, and every piece that fits one chunk fits on top of what is held where it begins, then no cut and no drain schedule overflows |
| StreamOverflow.OverflowExactly | src/response/ResponseStreamConsumer.ts:100-232 | a well-formed stream overflows on no cut into chunks and no drain schedule if and only if it is roomy in that sense |
| StreamOverflow.UndrainedOverflows | src/response/ResponseStreamConsumer.ts:288-302 | events that do not fit the queue at once overflow every schedule without drains |
| StreamOverflow.ChunkOverflows | src/response/ResponseStreamConsumer.ts:170-175 | a chunk that does not fit on top of what the consumer holds overflows it |
| StreamOverflow.RoomyInOneChunk | src/response/ResponseStreamConsumer.ts:170-232 | for a stream that one chunk can carry, roomy means: its whole text, its events and the data lines of each record within their bounds |
| StreamCapacity.OverflowDependsOnCut | src/response/ResponseStreamConsumer.ts:170-175 | the same bytes overflow in one chunk and pass in two: the bound is checked on the whole chunk |
| ResponseStreamConsumer.ResponseStreamConsumer.PushBase64 | src/response/ResponseStreamConsumer.ts:100-121 | new fields and error of a push: stopped or completed consumers ignore it, then size, base64, UTF-8, lines |
| ResponseStreamConsumer.ResponseStreamConsumer.Finish | src/response/ResponseStreamConsumer.ts:123-145 | new fields and error at the end of the stream |
| ResponseStreamConsumer.ResponseStreamConsumer.Drain | src/response/ResponseStreamConsumer.ts:147-154 | hands out the queue in order and empties it |
| ResponseStreamConsumer.ResponseStreamConsumer.Stop | src/response/ResponseStreamConsumer.ts:156-162 | forgets pending input, keeps queued events |
| ResponseStreamConsumer.ResponseStreamConsumer.Dispose | src/response/ResponseStreamConsumer.ts:164-168 | forgets pending input and queued events |
| ResponseStreamConsumer.ResponseStreamConsumer.PushDecoded | src/response/ResponseStreamConsumer.ts:170-190 | the line loop consumes every complete line in order, bounded after each, until one ends or fails the stream |
| ResponseStreamConsumer.ResponseStreamConsumer.ConsumeLine | src/response/ResponseStreamConsumer.ts:192-222 | comments, event, data and other fields; a blank line dispatches |
| ResponseStreamConsumer.ResponseStreamConsumer.AssertPendingTextBound | src/response/ResponseStreamConsumer.ts:224-232 | overflow exactly when buffer, event name and data exceed the bound together |
| ResponseStreamConsumer.ResponseStreamConsumer.DispatchRecord | src/response/ResponseStreamConsumer.ts:234-286 | [DONE], ignored events, parse failure, or the assistant text of the patches in order |
| ResponseStreamConsumer.ResponseStreamConsumer.EmitPatches | src/response/ResponseStreamConsumer.ts:276-285 | the patch loop emits matching texts in order and stops at the first overflow |
| ResponseStreamConsumer.ResponseStreamConsumer.Emit | src/response/ResponseStreamConsumer.ts:288-302 | queues one event or overflows, the text counter exact |
| ResponseStreamConsumer.ResponseStreamConsumer.ResetRecord | src/response/ResponseStreamConsumer.ts:304-308 | clears event name and data lines |
| ResponseTracking.ConsumeAllSound | src/cdp/CdpResponseStreamTracker.ts:200-211 | the chunks held back during activation are fed in arrival order until one ends the stream; what was produced stays faithful to them |
| ResponseTracking.ActivationSound | src/cdp/CdpResponseStreamTracker.ts:179-212 | activation feeds buffered data first, then the held-back chunks, then applies a remembered settlement, and the result is faithful to exactly that order |
| ResponseTracking.StepSound | src/cdp/CdpResponseStreamTracker.ts:49-177 | every event of the tracker keeps: events handed out and queued are read from buffered data followed by live chunks in arrival order |
| ResponseTracking.ResponsePathSound | src/cdp/CdpResponseStreamTracker.ts:49-258 | over every event sequence: events are always an initial part of what an initial part of the body means, and a COMPLETED stream has exactly the events of a body that ends with [DONE]; the body counts as ended only once its transport has settled without failing |
| ResponseTracking.TerminalAbsorbing | src/cdp/CdpResponseStreamTracker.ts:84-177 | COMPLETED and FAILED are each absorbing |
| ResponseTracking.LaterFailureOverwrites | src/cdp/CdpResponseStreamTracker.ts:114-166 | the kind of a failed response changes exactly by a direct failure, a failed settlement of the current request, the rejection of its activation, or a discard, and then only to another kind |
| ResponseTracking.SettlementDecides | src/cdp/CdpResponseStreamTracker.ts:114-133 | settlement of the selected request makes the response terminal, or leaves only the activation pending with the settlement remembered |
| ResponseTracking.ActivationDecides | src/cdp/CdpResponseStreamTracker.ts:179-212 | either outcome of that activation then makes the response terminal |
| ResponseTracking.AwaitingPersists | src/cdp/CdpResponseStreamTracker.ts:114-133 | until then no other event takes the decision away |
| ResponseTracking.IdentityKept | src/cdp/CdpResponseStreamTracker.ts:43-47 | only select and dispose change which request is observed |
| ResponseTracking.ConsumerKept | src/cdp/CdpResponseStreamTracker.ts:152-177 | only discard and dispose let go of the consumer |
| ResponseTracking.PendingStaysBounded | src/cdp/CdpResponseStreamTracker.ts:90-101 | held-back chunks and their characters are counted exactly and stay within both limits through every event |
| CdpResponseStreamTracker.CdpResponseStreamTracker.Select | src/cdp/CdpResponseStreamTracker.ts:43-47 | the first request is selected, later ones are ignored |
| CdpResponseStreamTracker.CdpResponseStreamTracker.Begin | src/cdp/CdpResponseStreamTracker.ts:49-82 | activation of the selected request only, once; unavailable or failing calls fail the response |
| CdpResponseStreamTracker.CdpResponseStreamTracker.OnData | src/cdp/CdpResponseStreamTracker.ts:84-112 | live data is held back during activation within the limits, fed afterwards, ignored otherwise |
| CdpResponseStreamTracker.CdpResponseStreamTracker.OnTransportSettled | src/cdp/CdpResponseStreamTracker.ts:114-133 | a settlement fails, is remembered, or finishes the stream |
| CdpResponseStreamTracker.CdpResponseStreamTracker.Drain | src/cdp/CdpResponseStreamTracker.ts:135-137 | hands out the consumer queue |
| CdpResponseStreamTracker.CdpResponseStreamTracker.Fail | src/cdp/CdpResponseStreamTracker.ts:139-150 | fails unless disposed or completed, keeping queued events |
| CdpResponseStreamTracker.CdpResponseStreamTracker.Discard | src/cdp/CdpResponseStreamTracker.ts:152-166 | drops the consumer; a completed response stays completed |
| CdpResponseStreamTracker.CdpResponseStreamTracker.Dispose | src/cdp/CdpResponseStreamTracker.ts:168-177 | forgets request and consumer |
| CdpResponseStreamTracker.CdpResponseStreamTracker.ActivationResolved | src/cdp/CdpResponseStreamTracker.ts:66-81 | the promise fulfils for the request it was made for |
| CdpResponseStreamTracker.CdpResponseStreamTracker.ActivationRejected | src/cdp/CdpResponseStreamTracker.ts:66-81 | the promise rejects for the request it was made for |
| CdpResponseStreamTracker.CdpResponseStreamTracker.CompleteActivation | src/cdp/CdpResponseStreamTracker.ts:179-212 | buffered data, held-back chunks and remembered settlement, in that order |
| CdpResponseStreamTracker.CdpResponseStreamTracker.ConsumePending | src/cdp/CdpResponseStreamTracker.ts:200-206 | the loop over held-back chunks stops at the first that ends the stream |
| CdpResponseStreamTracker.CdpResponseStreamTracker.ConsumeBase64 | src/cdp/CdpResponseStreamTracker.ts:214-234 | a push that throws fails the response with its kind; one that completes completes it |
| CdpResponseStreamTracker.CdpResponseStreamTracker.FinishConsumer | src/cdp/CdpResponseStreamTracker.ts:236-258 | a finished stream without [DONE] is incomplete |
| WriteObservation.ObservationIsHistory | src/cdp/CdpTurnObservationTracker.ts:109-201 | after any event trace every field is a function of the history since the first conversation POST |
| WriteObservation.FinishedExactly | src/cdp/CdpTurnObservationTracker.ts:72-90 | a readable snapshot shows FINISHED if and only if: the first conversation POST is the only one, its id is never sent again or redirected, its last response before its first settlement is 2xx, and that settlement is no failure |
| WriteObservation.WriteNeverReopens | src/cdp/CdpTurnObservationTracker.ts:109-201 | ambiguity is permanent and a settled lifecycle never changes |
| WriteObservation.NotResent | src/cdp/CdpTurnObservationTracker.ts:120-135 | a finished readable write was never sent again and no other write was sent |
| WriteObservation.LinkedStep | src/cdp/CdpTurnObservationTracker.ts:181-201 | the response follows the selected write, and once the write has settled unambiguously it is terminal or waits for nothing but its activation |
| WriteObservation.ObservedResponse | src/cdp/CdpTurnObservationTracker.ts:109-201 | over every event trace of a streamed turn that link holds, and the response never claims more than its body means |
| WriteObservation.FailureKindChangesExactly | src/cdp/CdpTurnObservationTracker.ts:120-179 | over every event trace of a readable write: a failed response changes its kind exactly by a redirect or a failing settlement of the write, the rejection of its activation, or a discard |
| WriteObservation.ClosedIsFinished | src/cdp/CdpTurnObservationTracker.ts:181-201 | the body counts as ended only for a write that is FINISHED |
| WriteObservation.ClosedBySettlement | src/cdp/CdpTurnObservationTracker.ts:181-201 | and only after the first conversation POST was settled |
| CdpTurnObservationTracker.ActiveTurnObservation.OnRequestWillBeSent | src/cdp/CdpTurnObservationTracker.ts:109-157 | selection, redirect, re-sending and a second write |
| CdpTurnObservationTracker.ActiveTurnObservation.OnResponseReceived | src/cdp/CdpTurnObservationTracker.ts:159-175 | the latest status counts while the write is active; a success begins the response |
| CdpTurnObservationTracker.ActiveTurnObservation.OnDataReceived | src/cdp/CdpTurnObservationTracker.ts:177-179 | data reaches the response |
| CdpTurnObservationTracker.ActiveTurnObservation.OnRequestSettled | src/cdp/CdpTurnObservationTracker.ts:181-201 | the first settlement decides FINISHED or FAILED and is passed on with the decision |
| CdpTurnObservationTracker.ActiveTurnObservation.TakeResponseEvents | src/cdp/CdpTurnObservationTracker.ts:92-94 | the response queue, or nothing |
| CdpTurnObservationTracker.ActiveTurnObservation.DiscardResponse | src/cdp/CdpTurnObservationTracker.ts:96-98 | discards the response, if any |
| CdpTurnObservationTracker.CdpTurnObservationTracker.ArmTurnObservation | src/cdp/CdpTurnObservationTracker.ts:47-70 | one observation at a time, freshly armed |
| CdpTurnObservationTracker.CdpTurnObservationTracker.GetTurnObservation | src/cdp/CdpTurnObservationTracker.ts:72-90 | a snapshot, or an error for foreign handles and ambiguous writes |
| CdpTurnObservationTracker.CdpTurnObservationTracker.ReleaseTurnObservation | src/cdp/CdpTurnObservationTracker.ts:100-107 | releases and disposes only the active observation |
| TurnResponse.Observed | src/cdp/CdpTurnObservationTracker.ts:92-94 | events handed out plus events queued are always within what the body means |
| TurnResponse.TakenOnlyByTaking | src/cdp/CdpTurnObservationTracker.ts:92-94 | nothing but taking moves events out |
| TurnResponse.NeverBack | src/cdp/CdpTurnObservationTracker.ts:109-201 | over any further events: a settled write, a terminal response and ambiguity stay |
| TurnResponse.CompletedIsWhole | src/cdp/CdpResponseStreamTracker.ts:214-258 | a readable, kept, completed and emptied response has handed out the events of the whole body up to [DONE] |
| TurnResponse.CompletedEventIsTerminal | src/cdp/CdpResponseStreamTracker.ts:214-234 | the event COMPLETED is handed out only by a response that has ended |
| Turns.Concluding | src/turn/TurnExecutor.ts:908-925 | deltas followed by FINAL_TEXT and COMPLETED form TEXT_DELTA* FINAL_TEXT COMPLETED with the deltas adding up, at every point where a listener may refuse |
| Turns.SightIsSetOnce | src/turn/TurnExecutor.ts:521-524 | the time of first sight is set once: a write is never seen active after it was seen settled |
| Turns.SightBound | src/turn/TurnExecutor.ts:510-524 | the write is first seen within its timeout, up to the gap between two polls |
| Turns.DecidedInTime | src/turn/TurnExecutor.ts:489-786 | the last poll comes within the write-observation timeout plus the largest of the other three, up to one gap between polls for each; WaitForTurnOutcome applies it to its own polls |
| TurnExecutor.TurnExecutor.ReadTurnObservation | src/turn/TurnExecutor.ts:999-1011 | a readable snapshot, a stale lease, or the lease marked |
| TurnExecutor.TurnExecutor.DiscardResponse | src/turn/TurnExecutor.ts:949-979 | discards once; errors other than stale lease and disconnection are absorbed; the write is untouched |
| TurnExecutor.TurnExecutor.DeliverText | src/turn/TurnExecutor.ts:859-874 | a delta is bounded, offered unless deferred, then accumulated; a refused one is not |
| TurnExecutor.TurnExecutor.DeliverEvents | src/turn/TurnExecutor.ts:854-876 | events are delivered in order up to the first that does not fit or is refused; the accumulated text is exactly theirs |
| TurnExecutor.TurnExecutor.DeliverNormalizedEvents | src/turn/TurnExecutor.ts:827-877 | after every outcome the text shown is an initial part of what the body means |
| TurnExecutor.TurnExecutor.UpdateResponseDelivery | src/turn/TurnExecutor.ts:788-825 | afterwards an uncancelled, unfailed delivery is complete exactly over a completed and emptied response |
| TurnExecutor.TurnExecutor.UpToDateIsWhole | src/turn/TurnExecutor.ts:813-820 | then the accumulated text is the text of the whole body up to [DONE] |
| TurnExecutor.TurnExecutor.ApplyResponseDeadline | src/turn/TurnExecutor.ts:928-947 | an incomplete response past its deadline becomes a failure |
| TurnExecutor.TurnExecutor.FinalizeResponseDelivery | src/turn/TurnExecutor.ts:879-926 | finalized exactly if every event was accepted: deltas, FINAL_TEXT with the exact text, COMPLETED; a Project is reserved between the last two; a withheld answer is offered only now, whole |
| TurnExecutor.TurnExecutor.EndIsAnswered | src/turn/TurnExecutor.ts:908-925 | FINAL_TEXT and COMPLETED after the deltas of a whole answer complete the grammar with the exact text |
| TurnExecutor.TurnExecutor.ReserveProjectConversation | src/turn/TurnExecutor.ts:1062-1076 | a new provisional entry, or the same threads and a marked lease |
| TurnExecutor.TurnExecutor.PollSnapshot | src/turn/TurnExecutor.ts:597-603 | snapshot and delivery agree; every exit is a stale lease or a mark |
| TurnExecutor.TurnExecutor.PollWrite | src/turn/TurnExecutor.ts:496-536 | first half of a poll: who ends here is decided, fenced off or gone; who goes on is within its deadlines, and the time of first sight is never reset; one poll is logged, with what it saw |
| TurnExecutor.TurnExecutor.ConcludeThread | src/turn/TurnExecutor.ts:537-563 | a finished thread turn returns its handle after the whole answer, throws, or waits within the response deadline |
| TurnExecutor.TurnExecutor.ObserveRoute | src/turn/TurnExecutor.ts:565-619 | the new conversation is looked for, then the write read again: settled, still active, or an end |
| TurnExecutor.TurnExecutor.RereadWrite | src/turn/TurnExecutor.ts:656-686 | the write once more: still finished, or an end; an abort is seen here |
| TurnExecutor.TurnExecutor.RevalidateConversation | src/turn/TurnExecutor.ts:634-686 | the conversation and the write once more; a Project must show the same conversation |
| TurnExecutor.TurnExecutor.ConcludeConversation | src/turn/TurnExecutor.ts:688-777 | register and deliver, or wait on within the deadlines |
| TurnExecutor.TurnExecutor.ConcludeFresh | src/turn/TurnExecutor.ts:698-769 | a fresh turn registers its thread before it throws a response error |
| TurnExecutor.TurnExecutor.ConcludeStreamedProject | src/turn/TurnExecutor.ts:710-746 | a streamed Project leaves one pending provisional thread, or the registry as it was and a marked lease |
| TurnExecutor.TurnExecutor.ConcludeProject | src/turn/TurnExecutor.ts:698-769 | a known conversation, a failed response or a failed registration fails closed |
| TurnExecutor.TurnExecutor.UndoReservation | src/turn/TurnExecutor.ts:728-731 | a refused COMPLETED takes the reservation back |
| TurnExecutor.TurnExecutor.CreatePendingProjectResult | src/turn/TurnExecutor.ts:1078-1092 | the result is tied to its lease and transaction |
| TurnExecutor.TurnExecutor.PollThread | src/turn/TurnExecutor.ts:528-563 | an active write goes on, unless the caller aborted: then, and only then, the poll gives up while it is active |
| TurnExecutor.TurnExecutor.PollTarget | src/turn/TurnExecutor.ts:528-785 | second half of a poll: it gives up on the write exactly if the target is a thread, the write was just seen active and the caller has aborted by now |
| TurnExecutor.TurnExecutor.PollOnce | src/turn/TurnExecutor.ts:496-785 | one iteration: every end concludes the turn, except the abandoning poll, which only a caller who aborted gets; going on keeps the invariant and the pace |
| TurnExecutor.TurnExecutor.WaitForTurnOutcome | src/turn/TurnExecutor.ts:480-786 | the loop ends, and if suspensions are bounded it ends within its timeouts plus nine polling intervals; each logged poll saw the write as it was after the events so far; every end concludes the turn except the abandoning poll |
| TurnExecutor.TurnExecutor.Preflight | src/turn/TurnExecutor.ts:251-297 | passes if and only if both calls succeed and the composer and the session fit the target; a failure marks nothing |
| TurnExecutor.TurnExecutor.Prepare | src/turn/TurnExecutor.ts:248-307 | up to the armed observation a failure marks nothing, and success means a known thread and a session that can stream |
| TurnExecutor.TurnExecutor.AssertNoObservedPreSubmitWrite | src/turn/TurnExecutor.ts:981-997 | no write yet; else the error is safe, and for Projects it fails closed |
| TurnExecutor.TurnExecutor.InsertText | src/turn/TurnExecutor.ts:338-381 | one input command; errors leave no active write, and for Projects they always fail closed or report a stale lease; success means no write was seen yet |
| TurnExecutor.TurnExecutor.Attempt | src/turn/TurnExecutor.ts:336-388 | text in and an abort afterwards: no error means that nothing was marked and no write was seen; every refusal is a mark, a stale lease or an end without an active write, for Projects one of the first two |
| TurnExecutor.TurnExecutor.SubmitCommand | src/turn/TurnExecutor.ts:1107-1114 | disconnection and timeout fail closed; a changed generation, reported whenever the lease is not current, ends the turn without a mark; a Project command must be accepted |
| TurnExecutor.TurnExecutor.Submit | src/turn/TurnExecutor.ts:390-463 | each target sends its commands; a fresh turn releases the key only if the press was accepted |
| TurnExecutor.TurnExecutor.ExecuteArmed | src/turn/TurnExecutor.ts:299-478 | from the armed observation on, every end meets the promise of its stage |
| TurnExecutor.TurnExecutor.ExecuteScheduled | src/turn/TurnExecutor.ts:241-478 | the whole turn, by the stage it ends in: commands sent, marks, registry, pending completions, what each error means, what was offered and when it was decided; a Project answer is withheld until it is whole; and it says which environments lead to the two unsafe ends |
| TurnExecutor.TurnExecutor.SafeExactly | src/turn/TurnExecutor.ts:299-478 | every end leaves nothing in flight, or the lease marked, or the lease dead, if and only if it is neither the poll that gives up on a thread write nor a changed generation reported while no process was visible, the generation the same and the write open |
| TurnExecutor.TurnExecutor.GivesUpExactly | src/turn/TurnExecutor.ts:626-631 | a turn gives up on its write if and only if it reports an abort with the write active; then the target is a thread, the signal has fired, and nothing was recorded |
| TurnExecutor.TurnExecutor.SafeForCaller | src/turn/TurnExecutor.ts:299-478 | if the signal never fired or the target is no thread, and at the end a process is visible or the generation has moved on, the end is safe |
| TurnExecutor.TurnExecutor.ReturnsWholeAnswer | src/turn/TurnExecutor.ts:879-926 | a streamed turn that returns has offered TEXT_DELTA* FINAL_TEXT COMPLETED to the end, all accepted, the deltas adding up to the final text, which is the text of the whole body |
| TurnExecutor.TurnExecutor.ProjectAllOrNothing | src/turn/TurnExecutor.ts:367-463 | once input was attempted, a streamed Project turn that throws leaves the threads as they were and the lease marked, dead, or without a visible process; one that returns leaves exactly one new provisional thread |
| TurnExecutor.CancelledThreadTurn | src/turn/TurnExecutor.ts:241-631 | a concrete whole turn: text inserted, send clicked, the caller aborts meanwhile; the abort is reported, the write is active, nothing is marked |
| TurnExecutor.LostSightTurn | src/turn/TurnExecutor.ts:438-463 | a concrete whole turn: no process is visible while Enter is released; a changed generation is reported, the write is active, nothing is marked, and the lease is current again once the process is seen |
| TurnFencing.SafeEndFences | src/turn/TurnExecutor.ts:299-478 | after every other end, either nothing is in flight or no operation on that lease ever starts again, whatever running operations mark later |
| TurnFencing.AbandonedTurnOverlaps | src/turn/TurnExecutor.ts:626-631 | after the abandoning end the next operation on the same lease does start, over an active write |
| TurnFencing.LostTurnOverlaps | src/turn/TurnExecutor.ts:1107-1110 | and after the other unsafe end, as soon as the process is seen again |
| TurnExecutor.TurnExecutor.ConfirmCompletedTurn | src/turn/TurnExecutor.ts:205-210 | commits the pending registration once |
| TurnExecutor.TurnExecutor.RollbackCompletedTurn | src/turn/TurnExecutor.ts:212-221 | takes the registration back and marks its lease, exactly if it was still open |
| RuntimeGeneration.GenerationsNeverDecrease | src/domain/RuntimeGeneration.ts:50-65 | generations never decrease |
| RuntimeGeneration.LeaseIsCurrentExactly | src/domain/RuntimeGeneration.ts:67-83 | a lease current once is current after more observations if and only if the last one saw a process and none saw another process |
| RuntimeGeneration.ReplacedIsForever | src/domain/RuntimeGeneration.ts:50-83 | once another process was seen, the lease is never current again, A, B, A included |
| RuntimeGeneration.OneIdentityPerGeneration | src/domain/RuntimeGeneration.ts:41-76 | two leases of one generation, issued at any two times, are the same lease |
| RuntimeGeneration.OldGenerationIsDead | src/domain/RuntimeGeneration.ts:78-83 | a lease of an older generation is never current again |
| RuntimeGenerationTracker.RuntimeGenerationTracker.Observe | src/domain/RuntimeGeneration.ts:50-65 | the generation moves exactly when the process differs from the last one seen |
| RuntimeGenerationTracker.RuntimeGenerationTracker.GetCurrentRuntimeLease | src/domain/RuntimeGeneration.ts:67-76 | the lease of the visible process, or an error |
| RuntimeGenerationTracker.RuntimeGenerationTracker.AssertRuntimeLeaseCurrent | src/domain/RuntimeGeneration.ts:78-83 | not observed, changed, or current |
| MutationScheduling.SerialAlways | src/routing/OperationScheduler.ts:34-134 | over every interleaving: starts follow admission order, no promise settles twice, every call is settled or open, and idle means all settled |
| MutationScheduling.StepStarts | src/routing/OperationScheduler.ts:59-79 | a step starts at most one operation, none running, never one aborted while queued, settled, bound to a lease that is not current, or latched |
| MutationScheduling.RefusalKeptExactly | src/routing/OperationScheduler.ts:103-113 | a refusal (latched, or an older generation) survives a step if and only if the step is not a mark for another lease while this generation is still current |
| MutationScheduling.RefusedForever | src/routing/OperationScheduler.ts:30-134 | from a refusal on, no operation on the lease starts unless a mark lifts it |
| MutationScheduling.MarkedLeaseNeverStarts | src/routing/OperationScheduler.ts:30-113 | after a mark, until another mark, no operation on that lease starts, although the latch may be cleared |
| MutationScheduling.EveryMarkIsForever | src/routing/OperationScheduler.ts:30-113 | if only running operations mark, each the lease it runs on, a marked lease is refused forever; an operation that outlived its process and marks its older lease lifts nothing |
| MutationScheduling.UnrefusedStarts | src/routing/OperationScheduler.ts:34-101 | without a refusal an idle scheduler does start on the lease of a living process |
| MutationScheduling.OlderMarkLiftsLatch | src/routing/OperationScheduler.ts:30-32 | the scheduler alone: a mark for an older lease overwrites the latch and lets an operation on the uncertain page start |
| OperationScheduler.OperationScheduler.MarkRuntimeMutationStateUncertain | src/routing/OperationScheduler.ts:30-32 | the latch names the given lease, whatever it named before |
| OperationScheduler.OperationScheduler.Schedule | src/routing/OperationScheduler.ts:34-101 | aborted, unobserved and latched calls are refused at once; others are queued and the loop is started |
| OperationScheduler.OperationScheduler.RunEntry | src/routing/OperationScheduler.ts:59-79 | the checks of an entry at its start, in order |
| OperationScheduler.OperationScheduler.AssertMutationStateSafeForLease | src/routing/OperationScheduler.ts:103-113 | fails exactly for the latched lease and clears the latch otherwise |
| OperationScheduler.OperationScheduler.Drain | src/routing/OperationScheduler.ts:115-134 | settled entries are skipped, the first other one is run |
| OperationScheduler.OperationScheduler.LoopResumes | src/routing/OperationScheduler.ts:115-134 | the loop goes on after an entry has ended |
| OperationScheduler.OperationScheduler.OperationEnded | src/routing/OperationScheduler.ts:72-78 | the promise settles with the result of the operation |
| OperationScheduler.OperationScheduler.OnQueuedAbort | src/routing/OperationScheduler.ts:82-93 | an abort while queued settles the entry once |
| ThreadRegistration.FreeAttempt | src/routing/ThreadRegistry.ts:73-81 | the first of eight draws that is unused, if any |
| ThreadRegistration.RegistryAlways | src/routing/ThreadRegistry.ts:63-145 | in every reachable registry committed and provisional handles are disjoint, locators map exactly back to their union, tokens match provisional entries one to one; a committed handle resolves to its locator forever |
| ThreadRegistration.ReserveThenRollback | src/routing/ThreadRegistry.ts:86-145 | reserving and rolling back restores the threads |
| ThreadRegistration.ReserveThenCommit | src/routing/ThreadRegistry.ts:86-130 | reserving and committing is registering, under the same handle |
| ThreadRegistration.SettlesOnce | src/routing/ThreadRegistry.ts:119-145 | a settled reservation is never settled again, whatever is called |
| ThreadRegistration.RegistersExactly | src/routing/ThreadRegistry.ts:63-84 | exactly when a registration is refused for a provisional thread or for eight collisions, and what it created |
| ThreadRegistration.HandlesAreNotReused | src/routing/ThreadRegistry.ts:63-145 | with a factory that never repeats, no operation gives a handle out again, a rolled-back one included |
| ThreadRegistry.ThreadRegistry.DrawHandle | src/routing/ThreadRegistry.ts:73-81 | at most eight draws, the first unused one taken |
| ThreadRegistry.ThreadRegistry.RegisterWithStatus | src/routing/ThreadRegistry.ts:63-84 | existing, provisional, collision or new |
| ThreadRegistry.ThreadRegistry.ReserveProvisionalWithStatus | src/routing/ThreadRegistry.ts:86-117 | existing, collision, or a new provisional entry with its own transaction |
| ThreadRegistry.ThreadRegistry.CommitProvisional | src/routing/ThreadRegistry.ts:119-130 | moves the entry of an open transaction to the committed ones, once |
| ThreadRegistry.ThreadRegistry.RollbackProvisional | src/routing/ThreadRegistry.ts:132-145 | removes the entry of an open transaction and its locator, once |
| ThreadRegistry.ThreadRegistry.RegistrationState | src/routing/ThreadRegistry.ts:147-151 | committed, provisional or not found |
| ThreadRegistry.ThreadRegistry.Resolve | src/routing/ThreadRegistry.ts:180-186 | only committed handles resolve |
| ThreadRegistry.ThreadRegistry.HasLocator | src/routing/ThreadRegistry.ts:188-190 | provisional locators count |
| ThreadRegistry.ThreadRegistry.KnownThreads | src/routing/ThreadRegistry.ts:192-194 | exactly the committed handles |
| TurnQueue.SerialAlways | src/controller/ControllerTurnQueue.ts:35-103 | over every interleaving: one operation at a time, starts in admission order, each promise settled once, never more than the limit outstanding, never idle with work pending and no drain scheduled, all settled when quiet |
| TurnQueue.StepStarts | src/controller/ControllerTurnQueue.ts:75-103 | a step starts only the oldest pending entry, none running, not aborted |
| ControllerTurnQueue.ControllerTurnQueue.Schedule | src/controller/ControllerTurnQueue.ts:35-73 | busy exactly at the limit; aborted calls are rejected; others wait their turn |
| ControllerTurnQueue.ControllerTurnQueue.Drain | src/controller/ControllerTurnQueue.ts:75-103 | the next entry starts, or is rejected and a drain scheduled |
| ControllerTurnQueue.ControllerTurnQueue.IndexOf | src/controller/ControllerTurnQueue.ts:58-61 | position of a pending entry |
| ControllerTurnQueue.ControllerTurnQueue.OnAbort | src/controller/ControllerTurnQueue.ts:54-66 | a pending entry is removed and rejected once; a started one is left alone |
| ControllerTurnQueue.ControllerTurnQueue.OperationEnded | src/controller/ControllerTurnQueue.ts:95-98 | the promise settles with the result |
| ControllerTurnQueue.ControllerTurnQueue.CleanupRuns | src/controller/ControllerTurnQueue.ts:99-102 | the queue goes on only after the cleanup |
| ControllerTurnQueue.ControllerTurnQueue.MicrotaskRuns | src/controller/ControllerTurnQueue.ts:89-93 | a scheduled drain runs |
| ControllerTurns.TwoPhaseAlways | src/controller/ThreadwireController.ts:178-384 | over every run: at most one completion pending, the barrier in place belongs to it, its thread is provisional under its own transaction, and no operation works past it |
| ControllerTurns.NoEffectWhilePending | src/controller/ThreadwireController.ts:192-236 | while a completion is pending no step has an effect on runtime, route, turn or project |
| ControllerTurns.ConfirmedIsKnown | src/controller/ThreadwireController.ts:238-241 | confirming makes the thread known and frees the barrier |
| ControllerTurns.RolledBackIsGone | src/controller/ThreadwireController.ts:243-246 | rolling back removes thread and locator and latches the lease |
| ControllerTurns.RollbackFencesLease | src/controller/ThreadwireController.ts:243-246 | then no mutation on that lease starts until another mark replaces the latch |
| ControllerTurns.KnownExactlyIfConfirmed | src/controller/ThreadwireController.ts:238-246 | in every reachable state an open result is provisional, and settled results are those whose transaction was settled; if the factory never repeats a handle, a settled result is known if and only if it was confirmed, and of a withdrawn one nothing is left |
| ControllerTurns.RepeatedHandleIsKnownAgain | src/controller/ThreadwireController.ts:238-246 | with a factory that repeats a handle this fails: the handle of a withdrawn thread is known again, for another conversation |
| ControllerTurns.SettlesOnce | src/controller/ThreadwireController.ts:343-354 | confirming or rolling back a settled result changes nothing |
| ControllerFencing.SoundAlways | src/controller/ThreadwireController.ts:178-384 | over every run in which operations wait for the mutations they schedule: a latch names the lease of the last mutation, and while a completion is pending nothing is scheduled or running and its lease is that one |
| ControllerFencing.StepKeepsRefusal | src/controller/ThreadwireController.ts:178-384 | no step of such a run lifts the refusal of a lease, a rollback after its process was replaced included |
| ControllerFencing.RefusalIsForever | src/controller/ThreadwireController.ts:178-384 | over every such run a lease once refused is refused forever and no mutation starts on it again |
| ThreadwireController.ThreadwireController.FinishTurn | src/controller/ThreadwireController.ts:228-232 | only a Project turn that created its thread leaves a barrier |
| ThreadwireController.ThreadwireController.InstallCompletionBarrier | src/controller/ThreadwireController.ts:334-341 | the barrier waits for this result |
| ThreadwireController.ThreadwireController.SettleCompletionBarrier | src/controller/ThreadwireController.ts:343-354 | the barrier in place is settled exactly for a pending result |
| ThreadwireController.ThreadwireController.ConfirmTurnCompletion | src/controller/ThreadwireController.ts:238-241 | registry and barrier are settled together |
| ThreadwireController.ThreadwireController.RollbackTurnCompletion | src/controller/ThreadwireController.ts:243-246 | registry, mark and barrier together |
| ThreadwireController.ThreadwireController.AwaitPendingCompletion | src/controller/ThreadwireController.ts:356-382 | an operation goes on if and only if nothing was pending or the first answer to the pending result confirmed it, and then nothing is pending; a rollback stops it; without an answer the barrier stays in place |
| Readiness.ReadyExactly | src/readiness/ExistingReadinessPolicy.ts:52-117 | READY if and only if the last F + K observations have the expected route and one frame and loader, the last K + 1 show exactly one editable, the same, and in the last K it is focused in one activity epoch |
| Readiness.GateReflects | src/readiness/ExistingReadinessPolicy.ts:52-117 | the counters are the lengths of the longest such windows |
| Readiness.FrameKeyExactly | src/readiness/ExistingReadinessPolicy.ts:58-62 | the key is the same exactly for the same frame and loader |
| Readiness.FreshReadyExactly | src/readiness/FreshReadinessPolicy.ts:50-68 | READY if and only if the unbroken run of inner READYs spans at least the guard on the clock |
| Readiness.GuardStart | src/readiness/FreshReadinessPolicy.ts:50-68 | the guard starts with that run and the inner gate is not disturbed |
| Readiness.FreshIsReady | src/readiness/FreshReadinessPolicy.ts:50-68 | a passed fresh gate has closed the plain window and shows one composer |
| Readiness.EqualEpochsExactly | src/cdp/ChromeRemoteInterfaceSession.ts:1359-1394 | equal epochs if and only if the set of active relevant requests was the same at every time in between |
| ReadinessGates.ExistingReadinessGate.Observe | src/readiness/ExistingReadinessPolicy.ts:52-101 | the action and the new counters |
| ReadinessGates.ExistingReadinessGate.ResetAll | src/readiness/ExistingReadinessPolicy.ts:103-107 | back to the state of a new gate |
| ReadinessGates.ExistingReadinessGate.ResetFocus | src/readiness/ExistingReadinessPolicy.ts:109-112 | forgets target and focus run |
| ReadinessGates.ExistingReadinessGate.ResetReadyEpoch | src/readiness/ExistingReadinessPolicy.ts:114-117 | forgets the focus run |
| ReadinessGates.FreshReadinessGate.Observe | src/readiness/FreshReadinessPolicy.ts:50-68 | the action and the guard |
| ReadinessGates.BackendActivity.OnRequestWillBeSent | src/cdp/ChromeRemoteInterfaceSession.ts:1359-1373 | the set and the counter change together |
| ReadinessGates.BackendActivity.OnRequestSettled | src/cdp/ChromeRemoteInterfaceSession.ts:1390-1393 | the set and the counter change together |
| ReadinessController.SameRouteExpectation | src/readiness/ReadinessController.ts:279-287 | two expectations agree exactly if they are the same route |
| ReadinessController.ReadinessController.WaitForRoute | src/readiness/ReadinessController.ts:289-357 | ends; returns only over a passed gate that counted exactly the polls from one on to the last, none of which showed a notice or had its focus answered by a changed candidate; a stored proof that survives has the whole wait behind it, without a notice; only a fresh-root wait may switch to the fresh gate |
| ReadinessController.ReadinessController.WaitForExistingRoute | src/readiness/ReadinessController.ts:123-142 | drops the proof first; returns only over a window closed by polls of this call, free of notices and changed candidates |
| ReadinessController.ReadinessController.WaitForFreshRoute | src/readiness/ReadinessController.ts:144-173 | a proof only after a fresh gate passed by polls of this call, none after an error |
| ReadinessController.ReadinessController.WaitForProjectRoute | src/readiness/ReadinessController.ts:203-237 | a proof for that Project only after a fresh gate passed by polls of this call, none after an error |
| ReadinessController.ReadinessController.WaitForFreshGate | src/readiness/ReadinessController.ts:150-166 | the proof names lease, route, frame, loader and composer of the last poll of a fresh gate passed in this call |
| ReadinessController.ReadinessController.PassFreshGate | src/readiness/ReadinessController.ts:271-276 | a wait under the fresh policy passes a fresh gate over one composer by polls of this call, or fails |
| ReadinessController.ReadinessController.IsProjectRouteCurrent | src/readiness/ReadinessController.ts:175-201 | one look, and the proof is dropped |
| ReadinessController.ReadinessController.WaitForTurnComposer | src/readiness/ReadinessController.ts:239-277 | returns only over a gate passed in this call; for a fresh or Project route a fresh gate was passed too, after it in this call, or before the call for the same lease, route, frame, loader and composer with no changed candidate in any poll of this call and no notice in any poll since that gate; the proof is spent |
| ClassicSupervisor.QuiescentIsEmpty | src/runtime/ClassicSupervisor.ts:251-263 | neither a captured nor an unexpected process is left if and only if no process is |
| ClassicSupervisor.ClassicSupervisor.Inspect | src/runtime/ClassicSupervisor.ts:130-143 | the one main process of the inspection, recorded as current unless a stop is in progress |
| ClassicSupervisor.ClassicSupervisor.Stop | src/runtime/ClassicSupervisor.ts:196-204 | a stop succeeds only if its first inspection saw no process, or a later pair of consecutive ones saw none and none in between saw a process that was not captured by the first; no lease is current then |
| ClassicSupervisor.ClassicSupervisor.StopCapturedProcesses | src/runtime/ClassicSupervisor.ts:206-287 | as for a stop |
| ClassicSupervisor.ClassicSupervisor.WaitForExit | src/runtime/ClassicSupervisor.ts:245-287 | the loop ends; success needs two consecutive quiet inspections of its own and no unexpected process before |
| ClassicSupervisor.ClassicSupervisor.StartNewGeneration | src/runtime/ClassicSupervisor.ts:329-381 | a launch starts from an empty process table and returns a generation above all before |
| ClassicSupervisor.ClassicSupervisor.Restart | src/runtime/ClassicSupervisor.ts:289-295 | a successful restart returns a generation above every lease issued before it, and none of those is current |
| ClassicSupervisor.ClassicSupervisor.EnsureStarted | src/runtime/ClassicSupervisor.ts:181-190 | a running process is kept, otherwise a new generation is started |
| ClassicSupervisor.ClassicSupervisor.RequireExisting | src/runtime/ClassicSupervisor.ts:145-157 | a lease on the one main process seen, which is current; without one nothing is current and the call fails |
| ClassicSupervisor.ClassicSupervisor.AssertRuntimeLeaseCurrentObserved | src/runtime/ClassicSupervisor.ts:159-179 | success and the changed-generation error mean what they say after the look |
| KnownFreshNotice.WalkStep | src/cdp/KnownFreshNotice.ts:31-39 | every processed or pending occurrence is the root or a child occurrence of a processed node: the worklist conserves occurrences |
| KnownFreshNotice.SeenAgainIsNoTree | src/cdp/KnownFreshNotice.ts:33-34 | an id that comes up again means two parents, a repeated child, or the root as a child |
| KnownFreshNotice.FinishedIsReachable | src/cdp/KnownFreshNotice.ts:28-39 | with nothing pending, the processed nodes are all that is reachable, and it is a tree |
| KnownFreshNotice.Walk | src/cdp/KnownFreshNotice.ts:28-39 | ends on every graph, cyclic ones included; completes if and only if what is reachable from the dialog is a tree with every child present, and then lists exactly it, each node once |
| KnownFreshNotice.GraphSize | src/cdp/KnownFreshNotice.ts:26-27 | the index is as large as the list if and only if no id is repeated |
| KnownFreshNotice.FindDialog | src/cdp/KnownFreshNotice.ts:17-24 | the first visible dialog, and whether it is the only one |
| KnownFreshNotice.DecideNotice | src/cdp/KnownFreshNotice.ts:40-64 | headings and buttons are counted over exactly the descendants |
| KnownFreshNotice.ObserveBlockingNotice | src/cdp/KnownFreshNotice.ts:14-65 | ABSENT exactly without a visible dialog; the known notice exactly under its conditions, with its two ids; UNKNOWN otherwise |

## Left out

- JSON.parse is a parameter: any function from record data to a value or an error.
- TextDecoder strips a leading byte order mark; the model keeps it. A consumer is not used again after it threw.
- The URL parsing behind request kinds and locators: events carry the kind, locators are opaque values with
  equality, and membership in a Project and being unscoped are given predicates.
- A turn releases its observation on every exit (src/turn/TurnExecutor.ts:474-477); releasing is an operation of
  `CdpTurnObservationTracker`, and the modelled turn does not call it.
- withTimeout, delay and AbortSignal: an awaited call ends as the environment decides; once true, the abort flag
  stays true. Times are whole milliseconds, and a sleep moves the clock by at least one.
- The entry flags `started` and `settled` of the two queues are sets and logs of identifiers; abort listeners run as
  separate steps, in any order, which allows more interleavings than the source.
- Promise identity: results, transactions and signals are numbers.
- A session that reports a changed generation looked at the end of the suspension: a look that is outdated before
  its error arrives is not modelled.
- That mutations are scheduled only by the working operation, which waits for them, and that only the mutation that
  runs marks its lease, are hypotheses of `ControllerFencing`; the executor, the router and the project creator are
  what meets them.
- The observation an executor polls is the value of its event history, which the observation classes are
  proved to compute; marks on the scheduler are a log of calls, applied to the scheduler in `TurnFencing`.
- While a turn runs, no confirmation or rollback of an earlier Project result reaches the registry: the
  controller lets no operation work while one is pending (`NoEffectWhilePending`).
- executeTurn, createProject and recoverRuntime of the controller are events of ControllerTurns, not methods; a
  Project handle is already resolved.
- ControllerTurns does not model policies for bound runtimes, health and close, nor what an effect does.
- lifecycleTail of the supervisor: lifecycle operations are called one at a time.
- resolving an installation, PowerShell scripts and process inspection: oracles that return any process list.
- waitForCommit races its settlement with the abort signal: in ControllerTurns the operation resumes or fails.
- The empty-prompt check, error messages, causes and configuration parsing: single-branch facts.
- The HTTP and SSE server, the Chrome protocol client, navigation and the notice ledger: foreign calls.
- Constructors that reject non-positive thresholds and limits by throwing have them as preconditions.
- noticeClickPoint: a single computation on coordinates.

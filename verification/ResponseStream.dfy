/**
 The incremental consumer: base64 chunks in, normalized events out, five memory bounds.

 `State` and the functions on it say what each method of class ResponseStreamConsumer does, branch
 for branch; the lemmas compare them with the one-pass reading of module EventStream.
 */
module ResponseStream {
  import opened Wrappers
  import opened Base64
  import Utf8
  import opened EventStream

  datatype Limits = Limits(
    maxEncodedChunkChars: nat,
    maxQueuedEvents: nat,
    maxQueuedTextChars: nat,
    maxPendingTextChars: nat,
    maxPendingDataLines: nat)

  datatype Config = Config(limits: Limits, json: JsonParser)

  datatype Failure = ParseFailed | BufferOverflow

  datatype State = State(
    decoder: Utf8.Decoder,
    textBuffer: Text,
    eventName: Option<Text>,
    dataLines: seq<Text>,
    pendingDataChars: nat,
    events: seq<Event>,
    queuedTextChars: nat,
    completed: bool,
    disposed: bool)

  const FRESH := State(Utf8.START, [], None, [], 0, [], 0, false, false)

  /** The fields after a call, and the error it threw, if any. */
  datatype Outcome = Outcome(state: State, failure: Option<Failure>)

  function NameLength(name: Option<Text>): nat {
    if name.Some? then |name.value| else 0
  }

  function PendingChars(s: State): nat {
    |s.textBuffer| + NameLength(s.eventName) + s.pendingDataChars
  }

  function BoundPending(c: Config, s: State): Outcome {
    Outcome(s, if PendingChars(s) > c.limits.maxPendingTextChars then Some(BufferOverflow) else None)
  }

  function ResetRecord(s: State): State {
    s.(eventName := None, dataLines := [], pendingDataChars := 0)
  }

  function Emit(c: Config, s: State, event: Event): Outcome {
    if |s.events| >= c.limits.maxQueuedEvents then Outcome(s, Some(BufferOverflow))
    else if event.TextDelta? && s.queuedTextChars + |event.text| > c.limits.maxQueuedTextChars then
      Outcome(s, Some(BufferOverflow))
    else
      var chars := if event.TextDelta? then |event.text| else 0;
      Outcome(s.(events := s.events + [event], queuedTextChars := s.queuedTextChars + chars), None)
  }

  function EmitTexts(c: Config, s: State, texts: seq<Text>): Outcome
    decreases |texts|
  {
    if texts == [] then Outcome(s, None)
    else
      var first := Emit(c, s, TextDelta(texts[0]));
      if first.failure.Some? then first else EmitTexts(c, first.state, texts[1..])
  }

  function DispatchRecord(c: Config, s: State): Outcome {
    if s.completed || s.dataLines == [] then Outcome(ResetRecord(s), None)
    else
      var name := if s.eventName.Some? then s.eventName.value else MESSAGE;
      var data := Join(s.dataLines);
      var cleared := ResetRecord(s);
      if data == DONE then
        var done := Emit(c, cleared, Completed);
        if done.failure.Some? then done
        else Outcome(done.state.(completed := true, textBuffer := []), None)
      else if name != DELTA then Outcome(cleared, None)
      else match c.json(data)
        case None => Outcome(cleared, Some(ParseFailed))
        case Some(value) => EmitTexts(c, cleared, AssistantTexts(value))
  }

  function ConsumeLine(c: Config, s: State, line: Text): Outcome {
    if s.completed then Outcome(s, None)
    else if line == [] then DispatchRecord(c, s)
    else
      var field := FieldOf(line);
      if field.Comment? then Outcome(s, None)
      else if field.name == EVENT then BoundPending(c, s.(eventName := Some(field.value)))
      else if field.name == DATA then
        if |s.dataLines| >= c.limits.maxPendingDataLines then Outcome(s, Some(BufferOverflow))
        else
          var separator := if s.dataLines == [] then 0 else 1;
          BoundPending(c, s.(pendingDataChars := s.pendingDataChars + |field.value| + separator,
                             dataLines := s.dataLines + [field.value]))
      else Outcome(s, None)
  }

  /** Consume every complete line in the buffer. */
  function Pump(c: Config, s: State): Outcome
    decreases |s.textBuffer|
  {
    var i := IndexOf(s.textBuffer, LF);
    if s.completed || i == |s.textBuffer| then Outcome(s, None)
    else
      var o := ConsumeLine(c, s.(textBuffer := s.textBuffer[i + 1..]), StripCr(s.textBuffer[..i]));
      ConsumeLineBuffer(c, s.(textBuffer := s.textBuffer[i + 1..]), StripCr(s.textBuffer[..i]));
      if o.failure.Some? || BoundPending(c, o.state).failure.Some? then
        Outcome(o.state, if o.failure.Some? then o.failure else Some(BufferOverflow))
      else Pump(c, o.state)
  }

  lemma {:induction false} EmitTextsKeeps(c: Config, s: State, texts: seq<Text>)
    ensures var o := EmitTexts(c, s, texts).state;
            o == s.(events := o.events, queuedTextChars := o.queuedTextChars)
    decreases |texts|
  {
    if texts != [] && Emit(c, s, TextDelta(texts[0])).failure.None? {
      EmitTextsKeeps(c, Emit(c, s, TextDelta(texts[0])).state, texts[1..]);
    }
  }

  lemma ConsumeLineBuffer(c: Config, s: State, line: Text)
    ensures var o := ConsumeLine(c, s, line).state;
      && o.decoder == s.decoder && o.disposed == s.disposed
      && o.textBuffer == (if o.completed && !s.completed then [] else s.textBuffer)
  {
    if !s.completed && line == [] && s.dataLines != [] {
      var parsed := c.json(Join(s.dataLines));
      if parsed.Some? {
        EmitTextsKeeps(c, ResetRecord(s), AssistantTexts(parsed.value));
      }
    }
  }

  function PushDecoded(c: Config, s: State, decoded: Text): Outcome {
    if decoded == [] || s.completed then Outcome(s, None)
    else
      var grown := BoundPending(c, s.(textBuffer := s.textBuffer + decoded));
      if grown.failure.Some? then grown else Pump(c, grown.state)
  }

  function PushBase64(c: Config, s: State, encoded: string): Outcome {
    if s.disposed || s.completed then Outcome(s, None)
    else if |encoded| > c.limits.maxEncodedChunkChars then Outcome(s, Some(BufferOverflow))
    else if !IsValidBase64(encoded) then Outcome(s, Some(ParseFailed))
    else match Utf8.Run(s.decoder, Decode(encoded))
      case None => Outcome(s, Some(ParseFailed))
      case Some(run) => PushDecoded(c, s.(decoder := run.0), run.1)
  }

  function FinishLine(c: Config, s: State): Outcome {
    if s.textBuffer == [] then Outcome(s, None)
    else ConsumeLine(c, s.(textBuffer := []), StripCr(s.textBuffer))
  }

  function Finish(c: Config, s: State): Outcome {
    if s.disposed || s.completed then Outcome(s, None)
    else if s.decoder.needed != 0 then Outcome(s, Some(ParseFailed))
    else
      var o := FinishLine(c, s);
      if o.failure.Some? then o else DispatchRecord(c, o.state)
  }

  function Drain(s: State): State {
    s.(events := [], queuedTextChars := 0)
  }

  function Stop(s: State): State {
    s.(disposed := true, textBuffer := [], eventName := None, dataLines := [], pendingDataChars := 0)
  }

  function Dispose(s: State): State {
    Drain(Stop(s))
  }

  // ---------------------------------------------------------------- accounting and bounds

  /** The counters are exact and the bounds that hold even between two lines hold. */
  predicate Accounted(c: Config, s: State) {
    && s.pendingDataChars == |Join(s.dataLines)|
    && s.queuedTextChars == |TextOf(s.events)|
    && |s.events| <= c.limits.maxQueuedEvents
    && s.queuedTextChars <= c.limits.maxQueuedTextChars
    && |s.dataLines| <= c.limits.maxPendingDataLines
  }

  /** Every bound the consumer promises between calls. */
  predicate Bounded(c: Config, s: State) {
    Accounted(c, s) && PendingChars(s) <= c.limits.maxPendingTextChars
  }

  lemma JoinAppend(lines: seq<Text>, line: Text)
    ensures |Join(lines + [line])| == |Join(lines)| + |line| + (if lines == [] then 0 else 1)
  {
    assert (lines + [line])[..|lines|] == lines;
  }

  lemma TextOfAppend(events: seq<Event>, event: Event)
    ensures TextOf(events + [event]) == TextOf(events) + (if event.TextDelta? then event.text else [])
  {
    assert (events + [event])[..|events|] == events;
  }

  lemma {:induction false} EmitTextsAccounted(c: Config, s: State, texts: seq<Text>)
    requires Accounted(c, s)
    ensures Accounted(c, EmitTexts(c, s, texts).state)
    decreases |texts|
  {
    if texts != [] {
      TextOfAppend(s.events, TextDelta(texts[0]));
      var first := Emit(c, s, TextDelta(texts[0]));
      if first.failure.None? { EmitTextsAccounted(c, first.state, texts[1..]); }
    }
  }

  lemma TakeAfterHead(before: seq<Event>, x: Event, tail: seq<Event>, n: nat)
    requires n <= |tail|
    ensures before + [x] + tail[..n] == before + ([x] + tail)[..n + 1]
  {
  }

  /** Deltas are queued in order; an overflow leaves the first ones, those that fitted. */
  lemma {:induction false} EmitTextsInOrder(c: Config, s: State, texts: seq<Text>) returns (kept: nat)
    ensures kept <= |texts|
    ensures EmitTexts(c, s, texts).state.events == s.events + Deltas(texts)[..kept]
    ensures EmitTexts(c, s, texts).failure
         == (if kept == |texts| then None else Some(BufferOverflow))
    decreases |texts|
  {
    kept := 0;
    if texts != [] {
      var x := TextDelta(texts[0]);
      var first := Emit(c, s, x);
      if first.failure.None? {
        var more := EmitTextsInOrder(c, first.state, texts[1..]);
        kept := more + 1;
        TakeAfterHead(s.events, x, Deltas(texts[1..]), more);
      }
    }
  }

  lemma DispatchAccounted(c: Config, s: State)
    requires Accounted(c, s)
    ensures Accounted(c, DispatchRecord(c, s).state)
  {
    hide TextOf;
    if !s.completed && s.dataLines != [] {
      var parsed := c.json(Join(s.dataLines));
      if parsed.Some? {
        EmitTextsAccounted(c, ResetRecord(s), AssistantTexts(parsed.value));
      }
      TextOfAppend(s.events, Completed);
    }
  }

  lemma ConsumeLineAccounted(c: Config, s: State, line: Text)
    requires Accounted(c, s)
    ensures Accounted(c, ConsumeLine(c, s, line).state)
  {
    DispatchAccounted(c, s);
    var field := FieldOf(line);
    if field.Field? { JoinAppend(s.dataLines, field.value); }
  }

  /** The rest of the loop once one line has been consumed. */
  function PumpOn(c: Config, o: Outcome): Outcome {
    if o.failure.Some? then o
    else if PendingChars(o.state) > c.limits.maxPendingTextChars then Outcome(o.state, Some(BufferOverflow))
    else Pump(c, o.state)
  }

  lemma PumpUnfold(c: Config, s: State, line: Text, tail: Text)
    requires !s.completed && LF !in line && s.textBuffer == line + [LF] + tail
    ensures Pump(c, s) == PumpOn(c, ConsumeLine(c, s.(textBuffer := tail), StripCr(line)))
  {
    IndexOfUnique(s.textBuffer, LF, |line|);
    assert s.textBuffer[..|line|] == line && s.textBuffer[|line| + 1..] == tail;
  }

  lemma {:induction false} PumpAccounted(c: Config, s: State)
    requires Bounded(c, s)
    ensures Accounted(c, Pump(c, s).state)
    ensures Pump(c, s).failure.None? ==> Bounded(c, Pump(c, s).state)
    decreases |s.textBuffer|
  {
    var i := IndexOf(s.textBuffer, LF);
    if !s.completed && i < |s.textBuffer| {
      var line, tail := s.textBuffer[..i], s.textBuffer[i + 1..];
      assert s.textBuffer == line + [LF] + tail;
      PumpUnfold(c, s, line, tail);
      var next := s.(textBuffer := tail);
      ConsumeLineAccounted(c, next, StripCr(line));
      ConsumeLineBuffer(c, next, StripCr(line));
      var o := ConsumeLine(c, next, StripCr(line));
      if o.failure.None? && PendingChars(o.state) <= c.limits.maxPendingTextChars {
        PumpAccounted(c, o.state);
      }
    }
  }

  /** A push keeps the counters exact, and keeps all five bounds whenever it does not throw. */
  lemma PushBounded(c: Config, s: State, encoded: string)
    requires Bounded(c, s)
    ensures var o := PushBase64(c, s, encoded);
      && Accounted(c, o.state)
      && (o.failure.None? ==> Bounded(c, o.state))
      && (o.failure.None? && !s.disposed && !s.completed ==> |encoded| <= c.limits.maxEncodedChunkChars)
  {
    if !s.disposed && !s.completed && IsValidBase64(encoded) {
      var run := Utf8.Run(s.decoder, Decode(encoded));
      if run.Some? {
        var grown := s.(decoder := run.value.0, textBuffer := s.textBuffer + run.value.1);
        if PendingChars(grown) <= c.limits.maxPendingTextChars {
          PumpAccounted(c, grown);
        }
      }
    }
  }

  lemma FinishAccounted(c: Config, s: State)
    requires Accounted(c, s)
    ensures Accounted(c, Finish(c, s).state)
  {
    ConsumeLineAccounted(c, s.(textBuffer := []), StripCr(s.textBuffer));
    var o := FinishLine(c, s);
    DispatchAccounted(c, o.state);
  }

  /** A dispatched record leaves nothing pending but the buffer, and `[DONE]` not even that. */
  lemma DispatchLeavesBuffer(c: Config, s: State)
    requires s.textBuffer == []
    ensures var next := DispatchRecord(c, s).state; next.textBuffer == [] && PendingChars(next) == 0
  {
    if !s.completed && s.dataLines != [] {
      var parsed := c.json(Join(s.dataLines));
      if parsed.Some? { EmitTextsKeeps(c, ResetRecord(s), AssistantTexts(parsed.value)); }
    }
  }

  /** A finish that does not throw keeps all five bounds as well. */
  lemma FinishBounded(c: Config, s: State)
    requires Bounded(c, s)
    ensures Finish(c, s).failure.None? ==> Bounded(c, Finish(c, s).state)
  {
    hide DispatchRecord;
    FinishAccounted(c, s);
    var line := s.(textBuffer := []);
    DispatchLeavesBuffer(c, line);
    ConsumeLineBuffer(c, line, StripCr(s.textBuffer));
    var o := FinishLine(c, s);
    if o.failure.None? && o.state.textBuffer == [] { DispatchLeavesBuffer(c, o.state); }
  }

  // ---------------------------------------------------------------- agreement with the reading

  /** The fields hold what reading `lines` gives; `taken` are the events drained before. */
  ghost predicate Follows(c: Config, s: State, lines: seq<Text>, taken: seq<Event>) {
    var r := Read(c.json, lines);
    && Accounted(c, s)
    && taken + s.events == r.events
    && r.status != Broken
    && (s.completed <==> r.status == Done)
    && (s.completed ==> s.textBuffer == [])
    && (!s.completed ==> s.eventName == EventName(r.open) && s.dataLines == DataLines(r.open))
  }

  /** What a call may report after reading `lines`. */
  ghost predicate Reports(c: Config, o: Outcome, lines: seq<Text>, taken: seq<Event>) {
    var r := Read(c.json, lines);
    match o.failure
    case None => Follows(c, o.state, lines, taken)
    case Some(ParseFailed) => !o.state.completed && r.status == Broken && taken + o.state.events == r.events
    case Some(BufferOverflow) => taken + o.state.events <= r.events
  }

  lemma TextsReport(c: Config, s: State, texts: seq<Text>, taken: seq<Event>, read: seq<Event>)
    requires taken + s.events == read
    ensures var o := EmitTexts(c, s, texts);
      && taken + o.state.events <= read + Deltas(texts)
      && (o.failure.None? ==> taken + o.state.events == read + Deltas(texts))
      && (o.failure.Some? ==> o.failure == Some(BufferOverflow))
  {
    var kept := EmitTextsInOrder(c, s, texts);
    assert taken + (s.events + Deltas(texts)[..kept]) == read + Deltas(texts)[..kept];
  }

  lemma DispatchReports(c: Config, s: State, lines: seq<Text>, taken: seq<Event>)
    requires Follows(c, s, lines, taken) && !s.completed
    ensures Reports(c, DispatchRecord(c, s), lines + [[]], taken)
  {
    ReadStep(c.json, lines, []);
    DispatchAccounted(c, s);
    var r := Read(c.json, lines);
    assert r.events + [] == r.events;
    assert MESSAGE != DELTA;
    if s.dataLines != [] {
      DataReports(c, s, r, taken);
    }
  }

  lemma DataReports(c: Config, s: State, r: Reading, taken: seq<Event>)
    requires r.status == Running && !s.completed && s.dataLines != []
    requires s.eventName == EventName(r.open) && s.dataLines == DataLines(r.open)
    requires taken + s.events == r.events
    ensures var o := DispatchRecord(c, s);
      var next := Advance(c.json, r, []);
      match o.failure
      case None =>
        && taken + o.state.events == next.events && next.status != Broken
        && (o.state.completed <==> next.status == Done)
        && (if o.state.completed then o.state.textBuffer == []
            else next.open == [] && o.state.eventName == None && o.state.dataLines == [])
      case Some(ParseFailed) =>
        !o.state.completed && next.status == Broken && taken + o.state.events == next.events
      case Some(BufferOverflow) => taken + o.state.events <= next.events
  {
    var data := Join(s.dataLines);
    assert MESSAGE != DELTA;
    if data == DONE {
      assert taken + (s.events + [Completed]) == r.events + [Completed];
    } else if s.eventName != Some(DELTA) {
      assert r.events + Deltas([]) == r.events;
    } else if c.json(data).Some? {
      var texts := AssistantTexts(c.json(data).value);
      EmitTextsKeeps(c, ResetRecord(s), texts);
      TextsReport(c, ResetRecord(s), texts, taken, r.events);
    }
  }

  lemma OpenRecordGrows(record: seq<Text>, line: Text)
    ensures var field := FieldOf(line);
      && EventName(record + [line])
         == (if field.Field? && field.name == EVENT then Some(field.value) else EventName(record))
      && DataLines(record + [line])
         == (if field.Field? && field.name == DATA then DataLines(record) + [field.value] else DataLines(record))
  {
    assert (record + [line])[..|record|] == record;
  }

  lemma LineReports(c: Config, s: State, line: Text, lines: seq<Text>, taken: seq<Event>)
    requires Follows(c, s, lines, taken) && !s.completed
    ensures Reports(c, ConsumeLine(c, s, line), lines + [line], taken)
  {
    hide Read, DataLines, EventName, DispatchRecord, PendingChars;
    if line == [] {
      DispatchReports(c, s, lines, taken);
    } else {
      ReadStep(c.json, lines, line);
      ConsumeLineAccounted(c, s, line);
      OpenRecordGrows(Read(c.json, lines).open, line);
      assert EVENT != DATA;
    }
  }

  /** A report survives more lines: what was read stays read. */
  lemma ReportsExtend(c: Config, o: Outcome, a: seq<Text>, b: seq<Text>, taken: seq<Event>)
    requires Reports(c, o, a, taken) && (o.failure.Some? || o.state.completed)
    ensures Reports(c, o, a + b, taken)
  {
    ReadExtends(c.json, a, b);
  }

  /** What consuming the buffer `buffer` reports, and what it leaves. */
  ghost predicate PumpAgrees(c: Config, s: State, o: Outcome, lines: seq<Text>, buffer: Text, taken: seq<Event>) {
    && Reports(c, o, lines + SplitLines(buffer).lines, taken)
    && o.state.decoder == s.decoder && o.state.disposed == s.disposed
    && (o.failure.None? && !o.state.completed ==> o.state.textBuffer == SplitLines(buffer).rest)
  }

  lemma {:induction false} PumpReports(c: Config, s: State, lines: seq<Text>, taken: seq<Event>)
    requires Follows(c, s, lines, taken) && !s.completed
    ensures PumpAgrees(c, s, Pump(c, s), lines, s.textBuffer, taken)
    decreases |s.textBuffer|
  {
    var i := IndexOf(s.textBuffer, LF);
    if i == |s.textBuffer| {
      SplitWithoutLineFeed(s.textBuffer);
      assert lines + [] == lines;
    } else {
      var line, tail := s.textBuffer[..i], s.textBuffer[i + 1..];
      assert s.textBuffer == line + [LF] + tail;
      PumpUnfold(c, s, line, tail);
      SplitFirstLine(line, tail);
      var o := ConsumeLine(c, s.(textBuffer := tail), StripCr(line));
      LineReports(c, s.(textBuffer := tail), StripCr(line), lines, taken);
      ConsumeLineBuffer(c, s.(textBuffer := tail), StripCr(line));
      if o.failure.None? && !o.state.completed {
        PumpReports(c, o.state, lines + [StripCr(line)], taken);
      }
      PumpStep(c, s, o, StripCr(line), tail, lines, taken);
    }
  }

  lemma PumpStep(c: Config, s: State, o: Outcome, line: Text, tail: Text, lines: seq<Text>, taken: seq<Event>)
    requires SplitLines(s.textBuffer) == Split([line] + SplitLines(tail).lines, SplitLines(tail).rest)
    requires Reports(c, o, lines + [line], taken)
    requires o.state.decoder == s.decoder && o.state.disposed == s.disposed
    requires o.failure.None? && !o.state.completed ==>
      o.state.textBuffer == tail && PumpAgrees(c, o.state, Pump(c, o.state), lines + [line], tail, taken)
    ensures PumpAgrees(c, s, PumpOn(c, o), lines, s.textBuffer, taken)
  {
    var more := SplitLines(tail).lines;
    assert lines + ([line] + more) == (lines + [line]) + more;
    if o.failure.Some? || o.state.completed {
      ReportsExtend(c, o, lines + [line], more, taken);
    } else if PendingChars(o.state) > c.limits.maxPendingTextChars {
      ReadExtends(c.json, lines + [line], more);
    }
  }

  /** The consumer has taken in exactly `bytes`: its fields and past events are their reading. */
  ghost predicate Faithful(c: Config, s: State, bytes: seq<Byte>, taken: seq<Event>) {
    var run := Utf8.Run(Utf8.START, bytes);
    && !s.disposed
    && run.Some? && run.value.0 == s.decoder
    && Bounded(c, s)
    && Follows(c, s, SplitLines(run.value.1).lines, taken)
    && (!s.completed ==> s.textBuffer == SplitLines(run.value.1).rest)
  }

  function TextOfBytes(bytes: seq<Byte>): Option<Text> {
    match Utf8.Run(Utf8.START, bytes)
    case None => None
    case Some(run) => Some(run.1)
  }

  lemma FreshIsFaithful(c: Config)
    ensures Faithful(c, FRESH, [], [])
  {
  }

  lemma DrainFaithful(c: Config, s: State, bytes: seq<Byte>, taken: seq<Event>)
    requires Faithful(c, s, bytes, taken)
    ensures Faithful(c, Drain(s), bytes, taken + s.events)
  {
    assert taken + s.events + [] == taken + s.events;
  }

  /**
   One push, whatever the cut: success means the joined text was read; PARSE_FAILED means the chunk
   or the joined bytes are malformed, or a record is; and no event is ever invented.
   */
  ghost predicate PushAgrees(c: Config, s: State, encoded: string, o: Outcome, bytes: seq<Byte>, taken: seq<Event>) {
    if |encoded| > c.limits.maxEncodedChunkChars then o == Outcome(s, Some(BufferOverflow))
    else if !IsValidBase64(encoded) || TextOfBytes(bytes + Decode(encoded)).None? then
      o == Outcome(s, Some(ParseFailed))
    else
      var r := ReadText(c.json, TextOfBytes(bytes + Decode(encoded)).value);
      match o.failure
      case None => Faithful(c, o.state, bytes + Decode(encoded), taken)
      case Some(ParseFailed) =>
        !o.state.completed && r.status == Broken && taken + o.state.events == r.events
      case Some(BufferOverflow) => taken + o.state.events <= r.events
  }

  lemma PushFaithful(c: Config, s: State, encoded: string, bytes: seq<Byte>, taken: seq<Event>)
    requires Faithful(c, s, bytes, taken) && !s.completed
    ensures PushAgrees(c, s, encoded, PushBase64(c, s, encoded), bytes, taken)
  {
    PushBounded(c, s, encoded);
    if IsValidBase64(encoded) && |encoded| <= c.limits.maxEncodedChunkChars {
      var piece := Decode(encoded);
      Utf8.RunConcat(Utf8.START, bytes, piece);
      var run := Utf8.Run(s.decoder, piece);
      if run.Some? {
        PushDecodedReports(c, s.(decoder := run.value.0), TextOfBytes(bytes).value, run.value.1, taken);
      }
    }
  }

  /** A push that throws has read nothing, or only what the joined text holds. */
  lemma FailedPush(c: Config, s: State, encoded: string, o: Outcome, bytes: seq<Byte>, taken: seq<Event>)
    requires PushAgrees(c, s, encoded, o, bytes, taken) && o.failure.Some?
    ensures o.state == s
         || (IsValidBase64(encoded) && TextOfBytes(bytes + Decode(encoded)).Some?
             && taken + o.state.events <= ReadText(c.json, TextOfBytes(bytes + Decode(encoded)).value).events)
  {
    assert o.failure.value.ParseFailed? || o.failure.value.BufferOverflow?;
  }

  lemma PushDecodedReports(c: Config, s: State, before: Text, decoded: Text, taken: seq<Event>)
    requires Follows(c, s, SplitLines(before).lines, taken) && !s.completed
    requires s.textBuffer == SplitLines(before).rest
    ensures var o := PushDecoded(c, s, decoded);
      && Reports(c, o, SplitLines(before + decoded).lines, taken)
      && (o.failure.None? ==> o.state.decoder == s.decoder && o.state.disposed == s.disposed)
      && (o.failure.None? && !o.state.completed ==> o.state.textBuffer == SplitLines(before + decoded).rest)
  {
    var lines := SplitLines(before).lines;
    if decoded == [] {
      assert before + decoded == before;
    } else {
      SplitAppend(before, decoded);
      var grown := s.(textBuffer := s.textBuffer + decoded);
      if BoundPending(c, grown).failure.Some? {
        ReadExtends(c.json, lines, SplitLines(grown.textBuffer).lines);
      } else {
        PumpReports(c, grown, lines, taken);
      }
    }
  }

  /** Ending the stream: the reading of the ended text, or the reason it has none. */
  lemma FinishFaithful(c: Config, s: State, bytes: seq<Byte>, taken: seq<Event>)
    requires Faithful(c, s, bytes, taken) && !s.completed
    ensures var o := Finish(c, s);
      var text := TextOfBytes(bytes).value;
      var r := ReadFinal(c.json, text);
      if s.decoder.needed != 0 then o == Outcome(s, Some(ParseFailed))
      else match o.failure
        case None => taken + o.state.events == r.events && r.status != Broken
                     && (o.state.completed <==> r.status == Done)
        case Some(ParseFailed) => r.status == Broken && taken + o.state.events == r.events
        case Some(BufferOverflow) => taken + o.state.events <= r.events
  {
    if s.decoder.needed == 0 {
      var lines := SplitLines(TextOfBytes(bytes).value).lines;
      var o := FinishLine(c, s);
      if s.textBuffer == [] {
        DispatchReports(c, s, lines, taken);
        assert lines + [] + [[]] == lines + [[]];
      } else {
        var line := StripCr(s.textBuffer);
        LineReports(c, s.(textBuffer := []), line, lines, taken);
        if o.failure.Some? || o.state.completed {
          ReportsExtend(c, o, lines + [line], [[]], taken);
        } else {
          DispatchReports(c, o.state, lines + [line], taken);
        }
      }
    }
  }

  // ---------------------------------------------------------------- whole schedules

  /** A consumer's life before the stream ends: chunks pushed and the queue drained, in any order. */
  datatype Action = Push(encoded: string) | TakeEvents

  /** Fields, drained events and error of a run; after an error nothing more is pushed. */
  datatype Progress = Progress(state: State, taken: seq<Event>, failure: Option<Failure>)

  function Perform(c: Config, p: Progress, a: Action): Progress {
    match a
    case TakeEvents => p.(state := Drain(p.state), taken := p.taken + p.state.events)
    case Push(encoded) =>
      if p.failure.Some? then p
      else
        var o := PushBase64(c, p.state, encoded);
        p.(state := o.state, failure := o.failure)
  }

  function RunActions(c: Config, actions: seq<Action>): Progress {
    if actions == [] then Progress(FRESH, [], None)
    else Perform(c, RunActions(c, actions[..|actions| - 1]), actions[|actions| - 1])
  }

  predicate ValidActions(actions: seq<Action>) {
    forall i | 0 <= i < |actions| :: actions[i].Push? ==> IsValidBase64(actions[i].encoded)
  }

  /** All bytes the schedule carries. */
  function Carried(actions: seq<Action>): seq<Byte>
    requires ValidActions(actions)
  {
    if actions == [] then []
    else
      var last := actions[|actions| - 1];
      Carried(actions[..|actions| - 1]) + (if last.Push? then Decode(last.encoded) else [])
  }

  /** The events so far are those of the joined text, finished or broken alike. */
  ghost predicate Agrees(c: Config, p: Progress, text: Text) {
    var r := ReadText(c.json, text);
    && p.failure != Some(BufferOverflow)
    && p.taken + p.state.events == r.events
    && (p.state.completed <==> r.status == Done)
    && (p.failure == Some(ParseFailed) <==> r.status == Broken)
  }

  /** A run agrees with the text of `bytes`, and a run still open has taken exactly them in. */
  ghost predicate InStep(c: Config, p: Progress, bytes: seq<Byte>) {
    && TextOfBytes(bytes).Some?
    && Agrees(c, p, TextOfBytes(bytes).value)
    && (p.failure.None? && !p.state.completed ==> Faithful(c, p.state, bytes, p.taken))
  }

  function PieceOf(a: Action): seq<Byte>
    requires a.Push? ==> IsValidBase64(a.encoded)
  {
    if a.Push? then Decode(a.encoded) else []
  }

  /** Once `[DONE]` or a malformed record has been read, more bytes change nothing. */
  lemma StoppedStaysInStep(c: Config, p: Progress, bytes: seq<Byte>, piece: seq<Byte>)
    requires InStep(c, p, bytes) && TextOfBytes(bytes + piece).Some?
    requires p.failure.Some? || p.state.completed
    ensures InStep(c, p, bytes + piece)
  {
    Utf8.RunConcat(Utf8.START, bytes, piece);
    var before := TextOfBytes(bytes).value;
    var more := Utf8.Run(Utf8.Run(Utf8.START, bytes).value.0, piece).value.1;
    assert TextOfBytes(bytes + piece).value == before + more;
    ReadTextExtends(c.json, before, more);
    assert p.failure.Some? ==> p.failure.value.ParseFailed?;
    assert ReadText(c.json, before).status != Running;
  }

  lemma TakeStaysInStep(c: Config, p: Progress, bytes: seq<Byte>)
    requires InStep(c, p, bytes)
    ensures InStep(c, Perform(c, p, TakeEvents), bytes)
  {
    assert Perform(c, p, TakeEvents).taken + [] == p.taken + p.state.events;
    if p.failure.None? && !p.state.completed {
      DrainFaithful(c, p.state, bytes, p.taken);
    }
  }

  /** A push over acceptable bytes leaves the run in step. */
  lemma PushStaysInStep(c: Config, p: Progress, encoded: string, o: Outcome, bytes: seq<Byte>)
    requires IsValidBase64(encoded) && TextOfBytes(bytes + Decode(encoded)).Some?
    requires PushAgrees(c, p.state, encoded, o, bytes, p.taken) && o.failure != Some(BufferOverflow)
    ensures InStep(c, p.(state := o.state, failure := o.failure), bytes + Decode(encoded))
  {
    assert o.failure.Some? ==> o.failure.value.ParseFailed?;
  }

  lemma StepStaysInStep(c: Config, p: Progress, a: Action, bytes: seq<Byte>)
    requires a.Push? ==> IsValidBase64(a.encoded)
    requires InStep(c, p, bytes) && TextOfBytes(bytes + PieceOf(a)).Some?
    requires Perform(c, p, a).failure != Some(BufferOverflow)
    ensures InStep(c, Perform(c, p, a), bytes + PieceOf(a))
  {
    if a.TakeEvents? {
      TakeStaysInStep(c, p, bytes);
      assert bytes + [] == bytes;
    } else if p.failure.Some? || p.state.completed {
      StoppedStaysInStep(c, p, bytes, PieceOf(a));
    } else {
      PushFaithful(c, p.state, a.encoded, bytes, p.taken);
      PushStaysInStep(c, p, a.encoded, PushBase64(c, p.state, a.encoded), bytes);
    }
  }

  /** An overflow is never forgotten, and a run that overflowed later had not before. */
  lemma FailureIsFinal(c: Config, p: Progress, a: Action)
    ensures p.failure.Some? ==> Perform(c, p, a).failure == p.failure
  {
  }

  /**
   Chunk independence: however a stream of acceptable bytes is cut into chunks, and whenever the
   queue is drained, the events, the completed flag and a parse failure are those of one pass over
   the joined text, unless a memory bound was hit.
   */
  lemma {:induction false} ChunkIndependence(c: Config, actions: seq<Action>)
    requires ValidActions(actions)
    requires TextOfBytes(Carried(actions)).Some?
    requires RunActions(c, actions).failure != Some(BufferOverflow)
    ensures InStep(c, RunActions(c, actions), Carried(actions))
  {
    if actions == [] {
      FreshIsFaithful(c);
    } else {
      var init, last := actions[..|actions| - 1], actions[|actions| - 1];
      assert Carried(actions) == Carried(init) + PieceOf(last);
      Utf8.PrefixAccepted(Carried(init), PieceOf(last));
      FailureIsFinal(c, RunActions(c, init), last);
      ChunkIndependence(c, init);
      StepStaysInStep(c, RunActions(c, init), last, Carried(init));
    }
  }
}

/** The consumer object: its methods change the fields as the functions of ResponseStream say. */
module ResponseStreamConsumer {
  import opened Wrappers
  import opened Base64
  import Utf8
  import opened EventStream
  import R = ResponseStream

  class ResponseStreamConsumer {
    const config: R.Config
    var decoder: Utf8.Decoder
    var events: seq<Event>
    var queuedTextChars: nat
    var textBuffer: Text
    var eventName: Option<Text>
    var dataLines: seq<Text>
    var pendingDataChars: nat
    var completedState: bool
    var disposed: bool

    function Fields(): R.State
      reads this
    {
      R.State(decoder, textBuffer, eventName, dataLines, pendingDataChars, events, queuedTextChars,
              completedState, disposed)
    }

    constructor (config: R.Config)
      ensures this.config == config && Fields() == R.FRESH
    {
      this.config := config;
      decoder := Utf8.START;
      events, queuedTextChars := [], 0;
      textBuffer, eventName, dataLines, pendingDataChars := [], None, [], 0;
      completedState, disposed := false, false;
    }

    method PushBase64(encoded: string) returns (failure: Option<R.Failure>)
      modifies this
      ensures R.Outcome(Fields(), failure) == R.PushBase64(config, old(Fields()), encoded)
    {
      if disposed || completedState { return None; }
      if |encoded| > config.limits.maxEncodedChunkChars { return Some(R.BufferOverflow); }
      if !IsValidBase64(encoded) { return Some(R.ParseFailed); }
      match Utf8.Run(decoder, Decode(encoded))
      case None => return Some(R.ParseFailed);
      case Some(run) =>
        decoder := run.0;
        failure := PushDecoded(run.1);
    }

    method Finish() returns (failure: Option<R.Failure>)
      modifies this
      ensures R.Outcome(Fields(), failure) == R.Finish(config, old(Fields()))
    {
      if disposed || completedState { return None; }
      if decoder.needed != 0 { return Some(R.ParseFailed); }
      if |textBuffer| > 0 {
        var line := StripCr(textBuffer);
        textBuffer := [];
        failure := ConsumeLine(line);
        if failure.Some? { return; }
      }
      failure := DispatchRecord();
    }

    method Drain() returns (drained: seq<Event>)
      modifies this
      ensures drained == old(events) && Fields() == R.Drain(old(Fields()))
    {
      drained := events;
      events, queuedTextChars := [], 0;
    }

    method Stop()
      modifies this
      ensures Fields() == R.Stop(old(Fields()))
    {
      disposed := true;
      textBuffer := [];
      eventName, dataLines, pendingDataChars := None, [], 0;
    }

    method Dispose()
      modifies this
      ensures Fields() == R.Dispose(old(Fields()))
    {
      Stop();
      events, queuedTextChars := [], 0;
    }

    method PushDecoded(decoded: Text) returns (failure: Option<R.Failure>)
      modifies this
      ensures R.Outcome(Fields(), failure) == R.PushDecoded(config, old(Fields()), decoded)
    {
      hide R.ConsumeLine;
      if |decoded| == 0 || completedState { return None; }
      textBuffer := textBuffer + decoded;
      failure := AssertPendingTextBound();
      if failure.Some? { return; }
      ghost var grown := Fields();
      while !completedState
        invariant failure == None
        invariant R.Pump(config, grown) == R.Pump(config, Fields())
        decreases if completedState then 0 else |textBuffer| + 1
      {
        var newline := IndexOf(textBuffer, LF);
        if newline == |textBuffer| { return; }
        var line := textBuffer[..newline];
        var rest := textBuffer[newline + 1..];
        R.PumpUnfold(config, Fields(), line, rest);
        textBuffer := rest;
        R.ConsumeLineBuffer(config, Fields(), StripCr(line));
        failure := ConsumeLine(StripCr(line));
        if failure.Some? { return; }
        failure := AssertPendingTextBound();
        if failure.Some? { return; }
      }
    }

    method ConsumeLine(line: Text) returns (failure: Option<R.Failure>)
      modifies this
      ensures R.Outcome(Fields(), failure) == R.ConsumeLine(config, old(Fields()), line)
    {
      if completedState { return None; }
      if |line| == 0 {
        failure := DispatchRecord();
        return;
      }
      var field := FieldOf(line);
      if field.Comment? { return None; }
      if field.name == EVENT {
        eventName := Some(field.value);
        failure := AssertPendingTextBound();
      } else if field.name == DATA {
        if |dataLines| >= config.limits.maxPendingDataLines { return Some(R.BufferOverflow); }
        pendingDataChars := pendingDataChars + |field.value| + (if |dataLines| == 0 then 0 else 1);
        dataLines := dataLines + [field.value];
        failure := AssertPendingTextBound();
      } else {
        failure := None;
      }
    }

    method AssertPendingTextBound() returns (failure: Option<R.Failure>)
      ensures R.Outcome(Fields(), failure) == R.BoundPending(config, Fields())
    {
      var pending := |textBuffer| + R.NameLength(eventName) + pendingDataChars;
      failure := if pending > config.limits.maxPendingTextChars then Some(R.BufferOverflow) else None;
    }

    method DispatchRecord() returns (failure: Option<R.Failure>)
      modifies this
      ensures R.Outcome(Fields(), failure) == R.DispatchRecord(config, old(Fields()))
    {
      if completedState || |dataLines| == 0 {
        ResetRecord();
        return None;
      }
      var name := if eventName.Some? then eventName.value else MESSAGE;
      var data := Join(dataLines);
      ResetRecord();
      if data == DONE {
        failure := Emit(Completed);
        if failure.Some? { return; }
        completedState, textBuffer := true, [];
        return;
      }
      if name != DELTA { return None; }
      var parsed := config.json(data);
      if parsed.None? { return Some(R.ParseFailed); }
      var value := parsed.value;
      if !value.Object? || ROLE in value.members { return None; }
      if VALUE !in value.members { return None; }
      var carried := value.members[VALUE];
      if carried.String? {
        ghost var cleared := Fields();
        assert R.EmitTexts(config, cleared, [carried.text]) == R.Emit(config, cleared, TextDelta(carried.text)) by {
          assert [carried.text][1..] == [];
        }
        failure := Emit(TextDelta(carried.text));
        return;
      }
      if !carried.Array? { return None; }
      failure := EmitPatches(carried.items);
    }

    method EmitPatches(patches: seq<Json>) returns (failure: Option<R.Failure>)
      modifies this
      ensures R.Outcome(Fields(), failure) == R.EmitTexts(config, old(Fields()), PatchTexts(patches))
    {
      failure := None;
      var i := 0;
      while i < |patches|
        invariant 0 <= i <= |patches| && failure == None
        invariant R.EmitTexts(config, Fields(), PatchTexts(patches[i..]))
               == R.EmitTexts(config, old(Fields()), PatchTexts(patches))
      {
        var patch := patches[i];
        assert patches[i..][0] == patch && patches[i..][1..] == patches[i + 1..];
        if IsAssistantPatch(patch) {
          var text := patch.members[VALUE].text;
          assert PatchTexts(patches[i..]) == [text] + PatchTexts(patches[i + 1..]);
          failure := Emit(TextDelta(text));
          if failure.Some? { return; }
        } else {
          assert PatchTexts(patches[i..]) == PatchTexts(patches[i + 1..]);
        }
        i := i + 1;
      }
    }

    method Emit(event: Event) returns (failure: Option<R.Failure>)
      modifies this
      ensures R.Outcome(Fields(), failure) == R.Emit(config, old(Fields()), event)
    {
      if |events| >= config.limits.maxQueuedEvents { return Some(R.BufferOverflow); }
      if event.TextDelta? && |event.text| > config.limits.maxQueuedTextChars - queuedTextChars {
        return Some(R.BufferOverflow);
      }
      if event.TextDelta? { queuedTextChars := queuedTextChars + |event.text|; }
      events := events + [event];
      failure := None;
    }

    method ResetRecord()
      modifies this
      ensures Fields() == R.ResetRecord(old(Fields()))
    {
      eventName, dataLines, pendingDataChars := None, [], 0;
    }
  }
}

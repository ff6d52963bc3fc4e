/** When the consumer's memory bounds can be hit at all: only by streams that really exceed them. */
module StreamCapacity {
  import opened Wrappers
  import opened Base64
  import Utf8
  import opened EventStream
  import opened ResponseStream

  /** Characters of some lines with their line ends. */
  function Weight(lines: seq<Text>): nat {
    if lines == [] then 0 else Weight(lines[..|lines| - 1]) + |lines[|lines| - 1]| + 1
  }

  lemma WeightAppend(lines: seq<Text>, line: Text)
    ensures Weight(lines + [line]) == Weight(lines) + |line| + 1
  {
    assert (lines + [line])[..|lines|] == lines;
  }

  lemma {:induction false} SplitWeight(t: Text)
    ensures Weight(SplitLines(t).lines) + |SplitLines(t).rest| <= |t|
    ensures |SplitLines(t).lines| <= |t|
  {
    if t != [] {
      var before := SplitLines(t[..|t| - 1]);
      SplitWeight(t[..|t| - 1]);
      WeightAppend(before.lines, StripCr(before.rest));
    }
  }

  lemma {:induction false} RecordWeight(record: seq<Text>)
    ensures NameLength(EventName(record)) + |Join(DataLines(record))| <= Weight(record)
    ensures |DataLines(record)| <= |record|
  {
    if record != [] {
      var before, line := record[..|record| - 1], record[|record| - 1];
      RecordWeight(before);
      assert EVENT != DATA;
      var field := FieldOf(line);
      if field.Field? { JoinAppend(DataLines(before), field.value); }
    }
  }

  lemma {:induction false} OpenWeight(json: JsonParser, lines: seq<Text>)
    ensures Weight(Read(json, lines).open) <= Weight(lines) && |Read(json, lines).open| <= |lines|
  {
    hide Read;
    if lines == [] {
      ReadOpenRecord(json, []);
    } else {
      var init, last := lines[..|lines| - 1], lines[|lines| - 1];
      assert lines == init + [last];
      OpenWeight(json, init);
      ReadStep(json, init, last);
      WeightAppend(init, last);
      WeightAppend(Read(json, init).open, last);
    }
  }

  /** The queue bounds admit these events even if nothing is ever drained. */
  predicate QueueFits(c: Config, events: seq<Event>) {
    |events| <= c.limits.maxQueuedEvents && |TextOf(events)| <= c.limits.maxQueuedTextChars
  }

  lemma QueueFitsPrefix(c: Config, a: seq<Event>, b: seq<Event>)
    requires a <= b && QueueFits(c, b)
    ensures QueueFits(c, a)
  {
    TextOfPrefix(a, b);
  }

  lemma EmitFits(c: Config, s: State, event: Event, taken: seq<Event>)
    requires Accounted(c, s) && QueueFits(c, taken + s.events + [event])
    ensures Emit(c, s, event).failure.None?
  {
    TextOfAppend(taken + s.events, event);
    TextOfConcat(taken, s.events);
  }

  lemma EmitExtends(c: Config, s: State, x: Event, tail: seq<Event>, taken: seq<Event>)
    requires Accounted(c, s) && QueueFits(c, taken + s.events + ([x] + tail))
    ensures var o := Emit(c, s, x);
      o.failure.None? && Accounted(c, o.state) && QueueFits(c, taken + o.state.events + tail)
  {
    assert taken + s.events + [x] <= taken + s.events + ([x] + tail);
    QueueFitsPrefix(c, taken + s.events + [x], taken + s.events + ([x] + tail));
    EmitFits(c, s, x, taken);
    TextOfAppend(s.events, x);
    assert taken + (s.events + [x]) + tail == taken + s.events + ([x] + tail);
  }

  lemma {:induction false} EmitTextsFit(c: Config, s: State, texts: seq<Text>, taken: seq<Event>)
    requires Accounted(c, s) && QueueFits(c, taken + s.events + Deltas(texts))
    ensures EmitTexts(c, s, texts).failure.None?
    decreases |texts|
  {
    if texts != [] {
      EmitExtends(c, s, TextDelta(texts[0]), Deltas(texts[1..]), taken);
      EmitTextsFit(c, Emit(c, s, TextDelta(texts[0])).state, texts[1..], taken);
    }
  }

  lemma DispatchFits(c: Config, s: State, lines: seq<Text>, taken: seq<Event>)
    requires Follows(c, s, lines, taken) && !s.completed
    requires QueueFits(c, Read(c.json, lines + [[]]).events)
    ensures DispatchRecord(c, s).failure != Some(BufferOverflow)
  {
    hide TextOf, FirstBlank, AssistantTexts;
    ReadStep(c.json, lines, []);
    assert MESSAGE != DELTA;
    var data := Join(s.dataLines);
    if s.dataLines != [] && data == DONE {
      EmitFits(c, ResetRecord(s), Completed, taken);
    } else if s.dataLines != [] && s.eventName == Some(DELTA) && c.json(data).Some? {
      EmitTextsFit(c, ResetRecord(s), AssistantTexts(c.json(data).value), taken);
    }
  }

  /** With `ahead` characters still to be consumed, the record open after these lines fits the bounds. */
  predicate LineRoom(c: Config, lines: seq<Text>, ahead: nat) {
    var r := Read(c.json, lines);
    r.status == Running ==>
      && |DataLines(r.open)| <= c.limits.maxPendingDataLines
      && NameLength(EventName(r.open)) + |Join(DataLines(r.open))| + ahead <= c.limits.maxPendingTextChars
  }

  lemma LineFits(c: Config, s: State, line: Text, lines: seq<Text>, taken: seq<Event>)
    requires Follows(c, s, lines, taken) && !s.completed
    requires QueueFits(c, Read(c.json, lines + [line]).events)
    requires LineRoom(c, lines + [line], |s.textBuffer|)
    ensures var o := ConsumeLine(c, s, line);
      && o.failure != Some(BufferOverflow)
      && (o.failure.None? ==> Follows(c, o.state, lines + [line], taken))
      && (o.failure.None? ==> PendingChars(o.state) <= c.limits.maxPendingTextChars)
  {
    LineReports(c, s, line, lines, taken);
    ConsumeLineBuffer(c, s, line);
    ReadStep(c.json, lines, line);
    if line == [] {
      DispatchFits(c, s, lines, taken);
    } else {
      FieldFits(c, s, line, Read(c.json, lines).open);
    }
    if ConsumeLine(c, s, line).state.completed { DoneIsEmpty(c, s, line); }
  }

  lemma DoneIsEmpty(c: Config, s: State, line: Text)
    requires !s.completed && ConsumeLine(c, s, line).state.completed
    ensures PendingChars(ConsumeLine(c, s, line).state) == 0
  {
    if line == [] && s.dataLines != [] && c.json(Join(s.dataLines)).Some? {
      EmitTextsKeeps(c, ResetRecord(s), AssistantTexts(c.json(Join(s.dataLines)).value));
    }
  }

  lemma FieldFits(c: Config, s: State, line: Text, open: seq<Text>)
    requires line != [] && !s.completed && s.pendingDataChars == |Join(s.dataLines)|
    requires s.eventName == EventName(open) && s.dataLines == DataLines(open)
    requires |DataLines(open + [line])| <= c.limits.maxPendingDataLines
    requires NameLength(EventName(open + [line])) + |Join(DataLines(open + [line]))|
      + |s.textBuffer| <= c.limits.maxPendingTextChars
    ensures ConsumeLine(c, s, line).failure.None?
  {
    OpenRecordGrows(open, line);
    var field := FieldOf(line);
    if field.Field? { JoinAppend(s.dataLines, field.value); }
    assert EVENT != DATA;
  }

  /** As `LineRoom`, now and after every further line of the buffer. */
  predicate PumpRoom(c: Config, lines: seq<Text>, buffer: Text)
    decreases |buffer|
  {
    var i := IndexOf(buffer, LF);
    LineRoom(c, lines, |buffer|) && (i < |buffer| ==> PumpRoom(c, lines + [StripCr(buffer[..i])], buffer[i + 1..]))
  }

  lemma {:induction false} PumpFits(c: Config, s: State, lines: seq<Text>, taken: seq<Event>)
    requires Follows(c, s, lines, taken) && !s.completed
    requires QueueFits(c, Read(c.json, lines + SplitLines(s.textBuffer).lines).events)
    requires PumpRoom(c, lines, s.textBuffer)
    ensures Pump(c, s).failure != Some(BufferOverflow)
    decreases |s.textBuffer|
  {
    hide LineRoom, ConsumeLine, PumpOn, QueueFits, Read, SplitLines, StripCr, PendingChars;
    var i := IndexOf(s.textBuffer, LF);
    if i < |s.textBuffer| {
      var raw, tail := s.textBuffer[..i], s.textBuffer[i + 1..];
      var line := StripCr(raw);
      assert s.textBuffer == raw + [LF] + tail;
      PumpUnfold(c, s, raw, tail);
      SplitFirstLine(raw, tail);
      var more := SplitLines(tail).lines;
      assert lines + ([line] + more) == lines + [line] + more;
      ReadExtends(c.json, lines + [line], more);
      QueueFitsPrefix(c, Read(c.json, lines + [line]).events, Read(c.json, lines + [line] + more).events);
      LineFits(c, s.(textBuffer := tail), line, lines, taken);
      ConsumeLineBuffer(c, s.(textBuffer := tail), line);
      var o := ConsumeLine(c, s.(textBuffer := tail), line);
      if o.failure.None? && !o.state.completed {
        PumpFits(c, o.state, lines + [line], taken);
      }
      PumpOnFits(c, o);
    }
  }

  lemma PumpOnFits(c: Config, o: Outcome)
    requires o.failure != Some(BufferOverflow)
    requires o.failure.None? ==> PendingChars(o.state) <= c.limits.maxPendingTextChars
    requires o.failure.None? && !o.state.completed ==> Pump(c, o.state).failure != Some(BufferOverflow)
    ensures PumpOn(c, o).failure != Some(BufferOverflow)
  {
  }

  // ---------------------------------------------------------------- positions in the stream

  /** The text of the first `m` bytes. */
  function TextAt(bytes: seq<Byte>, m: nat): (t: Text)
    requires m <= |bytes| && TextOfBytes(bytes).Some?
    ensures TextOfBytes(bytes[..m]) == Some(t) && t <= TextOfBytes(bytes).value
  {
    assert bytes == bytes[..m] + bytes[m..];
    Utf8.PrefixAccepted(bytes[..m], bytes[m..]);
    TextOfBytes(bytes[..m]).value
  }

  lemma TextGrows(bytes: seq<Byte>, a: nat, b: nat)
    requires a <= b <= |bytes| && TextOfBytes(bytes).Some?
    ensures TextAt(bytes, a) <= TextAt(bytes, b)
  {
    assert bytes[..b][..a] == bytes[..a];
    assert TextOfBytes(bytes[..b]) == Some(TextAt(bytes, b));
    assert TextAt(bytes[..b], a) == TextAt(bytes, a);
  }

  /** One byte completes at most one scalar, so a line feed comes alone. */
  lemma LineFeedAlone(bytes: seq<Byte>, e: nat)
    requires 0 < e <= |bytes| && TextOfBytes(bytes).Some?
    ensures TextAt(bytes, e - 1) <= TextAt(bytes, e)
    ensures LF in TextAt(bytes, e)[|TextAt(bytes, e - 1)|..] ==> |TextAt(bytes, e)| == |TextAt(bytes, e - 1)| + 1
  {
    TextGrows(bytes, e - 1, e);
    assert bytes[..e] == bytes[..e - 1] + [bytes[e - 1]];
    Utf8.RunConcat(Utf8.START, bytes[..e - 1], [bytes[e - 1]]);
    OneByte(Utf8.Run(Utf8.START, bytes[..e - 1]).value.0, bytes[e - 1]);
  }

  lemma OneByte(d: Utf8.Decoder, b: Byte)
    ensures Utf8.Run(d, [b]).Some? ==>
      Utf8.Step(d, b).Some? && Utf8.Run(d, [b]).value == Utf8.Step(d, b).value
    ensures Utf8.Step(d, b).Some? && LF in Utf8.Step(d, b).value.1 ==> |Utf8.Step(d, b).value.1| == 1
  {
    assert [b][1..] == [];
    if Utf8.Step(d, b).Some? { assert Utf8.Step(d, b).value.1 + [] == Utf8.Step(d, b).value.1; }
  }

  /** Every line end of the text is the end of some initial part of the bytes. */
  lemma {:induction false} CutAtLineFeed(bytes: seq<Byte>, a: nat, e: nat, j: nat) returns (m: nat)
    requires a <= e <= |bytes| && TextOfBytes(bytes).Some?
    requires |TextAt(bytes, a)| <= j < |TextAt(bytes, e)| && TextAt(bytes, e)[j] == LF
    ensures a < m <= e && TextAt(bytes, m) == TextAt(bytes, e)[..j + 1]
    decreases e
  {
    TextGrows(bytes, a, e);
    LineFeedAlone(bytes, e);
    if j < |TextAt(bytes, e - 1)| {
      TextGrows(bytes, a, e - 1);
      m := CutAtLineFeed(bytes, a, e - 1, j);
    } else {
      assert TextAt(bytes, e)[|TextAt(bytes, e - 1)|..][j - |TextAt(bytes, e - 1)|] == LF;
      m := e;
    }
  }

  // ---------------------------------------------------------------- the exact condition

  /** Length of the base64 form of `n` bytes. */
  function EncodedLength(n: nat): nat {
    (n + 2) / 3 * 4
  }

  lemma EncodedLengthStep(n: nat)
    ensures EncodedLength(n + 3) == EncodedLength(n) + 4
    ensures EncodedLength(0) == 0 && EncodedLength(1) == EncodedLength(2) == EncodedLength(3) == 4
  {
  }

  lemma {:induction false} EncodeLength(bytes: seq<Byte>)
    ensures |Encode(bytes)| == EncodedLength(|bytes|)
    decreases |bytes|
  {
    hide EncodedLength, EncodeTriple;
    EncodedLengthStep(0);
    if |bytes| > 2 {
      EncodeLength(bytes[3..]);
      EncodedLengthStep(|bytes| - 3);
    }
  }

  lemma {:induction false} DecodeLength(s: string)
    requires IsValidBase64(s)
    ensures EncodedLength(|Decode(s)|) == |s|
    decreases |s|
  {
    hide EncodedLength, IsValidBase64, DecodeQuad, ValueOf, InAlphabet;
    EncodedLengthStep(0);
    if |s| > 4 {
      TailIsValid(s);
      DecodeLength(s[4..]);
      DecodeUnfold(s);
      EncodedLengthStep(|Decode(s[4..])|);
    } else {
      ShortDecodeLength(s);
    }
  }

  lemma DecodeUnfold(s: string)
    requires |s| > 4 && IsValidBase64(s) && IsValidBase64(s[4..])
    ensures |Decode(s)| == 3 + |Decode(s[4..])|
  {
  }

  lemma ShortDecodeLength(s: string)
    requires IsValidBase64(s) && |s| <= 4
    ensures |s| == 0 || |s| == 4
    ensures if |s| == 0 then |Decode(s)| == 0 else 0 < |Decode(s)| <= 3
  {
  }

  /** Characters a consumer holds between two chunks, having read exactly `text`. */
  function PendingAfter(json: JsonParser, text: Text): nat {
    var open := ReadText(json, text).open;
    |SplitLines(text).rest| + NameLength(EventName(open)) + |Join(DataLines(open))|
  }

  /** That is never more than the text itself. */
  lemma PendingWithinText(json: JsonParser, text: Text)
    ensures PendingAfter(json, text) <= |text|
  {
    SplitWeight(text);
    OpenWeight(json, SplitLines(text).lines);
    RecordWeight(ReadText(json, text).open);
  }

  /** A chunk that takes the stream from `before` to `after` fits on top of what is held. */
  predicate ChunkFits(c: Config, before: Text, after: Text) {
    ReadText(c.json, before).status == Running ==>
      PendingAfter(c.json, before) + |after| - |before| <= c.limits.maxPendingTextChars
  }

  /** The record open after `text` has no more data lines than the bound. */
  predicate LinesFit(c: Config, text: Text) {
    ReadText(c.json, text).status == Running ==>
      |DataLines(ReadText(c.json, text).open)| <= c.limits.maxPendingDataLines
  }

  /**
   All events fit the queue at once; no record has too many data lines; and every piece of the stream
   that fits one chunk also fits on top of what is held where it begins.
   */
  ghost predicate Roomy(c: Config, bytes: seq<Byte>)
    requires TextOfBytes(bytes).Some?
  {
    && QueueFits(c, ReadText(c.json, TextOfBytes(bytes).value).events)
    && (forall m: nat | m <= |bytes| :: LinesFit(c, TextAt(bytes, m)))
    && (forall a: nat, b: nat | a <= b <= |bytes| && EncodedLength(b - a) <= c.limits.maxEncodedChunkChars ::
          ChunkFits(c, TextAt(bytes, a), TextAt(bytes, b)))
  }

  lemma EncodedLengthMonotone(m: nat, n: nat)
    requires m <= n
    ensures EncodedLength(m) <= EncodedLength(n)
  {
  }

  /** At the start of a chunk there is room for all of it. */
  lemma ChunkHasRoom(c: Config, bytes: seq<Byte>, a: nat, e: nat, ahead: nat)
    requires a <= e <= |bytes| && TextOfBytes(bytes).Some? && Roomy(c, bytes)
    requires EncodedLength(e - a) <= c.limits.maxEncodedChunkChars
    requires ahead == |SplitLines(TextAt(bytes, a)).rest| + |TextAt(bytes, e)| - |TextAt(bytes, a)|
    ensures LineRoom(c, SplitLines(TextAt(bytes, a)).lines, ahead)
  {
    hide EncodedLength, EventName, DataLines, Join, SplitLines, FirstBlank, Read;
    assert LinesFit(c, TextAt(bytes, a)) && ChunkFits(c, TextAt(bytes, a), TextAt(bytes, e));
  }

  /** And so after each of its lines for the rest of it. */
  lemma {:induction false} PumpHasRoom(c: Config, bytes: seq<Byte>, a: nat, e: nat)
    requires a <= e <= |bytes| && TextOfBytes(bytes).Some? && Roomy(c, bytes)
    requires EncodedLength(e - a) <= c.limits.maxEncodedChunkChars
    requires TextAt(bytes, a) <= TextAt(bytes, e)
    ensures var before, more := TextAt(bytes, a), TextAt(bytes, e)[|TextAt(bytes, a)|..];
      PumpRoom(c, SplitLines(before).lines, SplitLines(before).rest + more)
    decreases e - a
  {
    hide EncodedLength, Roomy, LineRoom, SplitLines, TextAt, StripCr;
    var before, after := TextAt(bytes, a), TextAt(bytes, e);
    var lines, rest, more := SplitLines(before).lines, SplitLines(before).rest, after[|before|..];
    var buffer := rest + more;
    ChunkHasRoom(c, bytes, a, e, |buffer|);
    RestHasNoLineFeed(before);
    var i := IndexOf(buffer, LF);
    if i < |buffer| {
      var j := |before| + i - |rest|;
      assert buffer[i] == after[j];
      var m := CutAtLineFeed(bytes, a, e, j);
      var cut := TextAt(bytes, m);
      EncodedLengthMonotone(e - m, e - a);
      TextGrows(bytes, m, e);
      PumpHasRoom(c, bytes, m, e);
      assert cut == before + more[..i - |rest| + 1];
      LineEnds(before, more, i, cut);
      assert [] + after[|cut|..] == buffer[i + 1..];
    }
  }

  /** The text up to the first line feed after `before` splits into one more line. */
  lemma LineEnds(before: Text, more: Text, i: nat, cut: Text)
    requires var buffer := SplitLines(before).rest + more;
      |SplitLines(before).rest| <= i < |buffer| && i == IndexOf(buffer, LF)
      && cut == before + more[..i - |SplitLines(before).rest| + 1]
    ensures SplitLines(cut)
         == Split(SplitLines(before).lines + [StripCr((SplitLines(before).rest + more)[..i])], [])
  {
    hide SplitLines;
    var rest := SplitLines(before).rest;
    var buffer := rest + more;
    var piece := more[..i - |rest| + 1];
    SplitAppend(before, piece);
    assert rest + piece == buffer[..i] + [LF];
    SplitOneLine(buffer[..i]);
  }

  lemma SplitOneLine(line: Text)
    requires LF !in line
    ensures SplitLines(line + [LF]) == Split([StripCr(line)], [])
  {
    SplitWithoutLineFeed(line);
    assert (line + [LF])[..|line|] == line;
  }

  lemma RoomyPrefixQueue(c: Config, bytes: seq<Byte>, m: nat)
    requires m <= |bytes| && TextOfBytes(bytes).Some? && Roomy(c, bytes)
    ensures QueueFits(c, ReadText(c.json, TextAt(bytes, m)).events)
  {
    var whole, before := TextOfBytes(bytes).value, TextAt(bytes, m);
    assert whole == before + whole[|before|..];
    ReadTextExtends(c.json, before, whole[|before|..]);
    QueueFitsPrefix(c, ReadText(c.json, before).events, ReadText(c.json, whole).events);
  }

  /** What a consumer that has taken in `bytes` does with one more piece. */
  lemma NextPiece(c: Config, s: State, bytes: seq<Byte>, piece: seq<Byte>, taken: seq<Event>)
    requires Faithful(c, s, bytes, taken) && !s.completed && TextOfBytes(bytes + piece).Some?
    ensures var run := Utf8.Run(s.decoder, piece);
      && run.Some? && TextOfBytes(bytes).Some?
      && TextOfBytes(bytes + piece).value == TextOfBytes(bytes).value + run.value.1
      && Follows(c, s.(decoder := run.value.0), SplitLines(TextOfBytes(bytes).value).lines, taken)
      && s.textBuffer == SplitLines(TextOfBytes(bytes).value).rest
      && !s.disposed
  {
    Utf8.RunConcat(Utf8.START, bytes, piece);
  }

  lemma PushFits(c: Config, s: State, encoded: string, bytes: seq<Byte>, a: nat, e: nat, taken: seq<Event>)
    requires a <= e <= |bytes| && TextOfBytes(bytes).Some? && Roomy(c, bytes)
    requires Faithful(c, s, bytes[..a], taken) && !s.completed
    requires IsValidBase64(encoded) && |encoded| <= c.limits.maxEncodedChunkChars && Decode(encoded) == bytes[a..e]
    ensures PushBase64(c, s, encoded).failure != Some(BufferOverflow)
  {
    hide Roomy, Decode, IsValidBase64, EncodedLength, PumpRoom, Follows, Faithful, SplitLines, QueueFits, PushDecoded,
         ReadText,
         TextOfBytes;
    assert bytes[..e] == bytes[..a] + bytes[a..e];
    assert TextOfBytes(bytes[..e]) == Some(TextAt(bytes, e)) && TextOfBytes(bytes[..a]) == Some(TextAt(bytes, a));
    NextPiece(c, s, bytes[..a], bytes[a..e], taken);
    var run := Utf8.Run(s.decoder, bytes[a..e]).value;
    DecodeLength(encoded);
    PumpHasRoom(c, bytes, a, e);
    RoomyPrefixQueue(c, bytes, e);
    PushDecodedFits(c, s.(decoder := run.0), TextAt(bytes, a), run.1, taken);
  }

  lemma PushDecodedFits(c: Config, s: State, before: Text, decoded: Text, taken: seq<Event>)
    requires Follows(c, s, SplitLines(before).lines, taken) && !s.completed
    requires s.textBuffer == SplitLines(before).rest
    requires PumpRoom(c, SplitLines(before).lines, SplitLines(before).rest + decoded)
    requires QueueFits(c, ReadText(c.json, before + decoded).events)
    ensures PushDecoded(c, s, decoded).failure != Some(BufferOverflow)
  {
    SplitAppend(before, decoded);
    PumpFits(c, s.(textBuffer := s.textBuffer + decoded), SplitLines(before).lines, taken);
  }

  /** No chunk of the schedule exceeds the bound on chunks. */
  predicate ShortChunks(c: Config, actions: seq<Action>) {
    forall i | 0 <= i < |actions| && actions[i].Push? :: |actions[i].encoded| <= c.limits.maxEncodedChunkChars
  }

  /** If the stream is roomy, no cut and no drain schedule overflows. */
  lemma {:induction false} RoomyNeverOverflows(c: Config, bytes: seq<Byte>, actions: seq<Action>, m: nat)
    requires ValidActions(actions) && ShortChunks(c, actions)
    requires m <= |bytes| && TextOfBytes(bytes).Some? && Roomy(c, bytes) && Carried(actions) == bytes[..m]
    ensures RunActions(c, actions).failure != Some(BufferOverflow)
  {
    hide Roomy, PushBase64, InStep, Faithful;
    if actions != [] {
      var init, last := actions[..|actions| - 1], actions[|actions| - 1];
      var a := |Carried(init)|;
      assert Carried(actions) == Carried(init) + PieceOf(last);
      assert Carried(init) == bytes[..a] && PieceOf(last) == bytes[a..m];
      RoomyNeverOverflows(c, bytes, init, a);
      assert TextOfBytes(Carried(init)) == Some(TextAt(bytes, a));
      ChunkIndependence(c, init);
      var p := RunActions(c, init);
      if last.Push? && p.failure.None? && !p.state.completed {
        OpenIsFaithful(c, p, bytes[..a]);
        PushFits(c, p.state, last.encoded, bytes, a, m, p.taken);
      } else {
        NoNewOverflow(c, p, last);
      }
    }
  }

  lemma OpenIsFaithful(c: Config, p: Progress, bytes: seq<Byte>)
    requires InStep(c, p, bytes)
    ensures p.failure.None? && !p.state.completed ==> Faithful(c, p.state, bytes, p.taken)
  {
  }

  lemma NoNewOverflow(c: Config, p: Progress, a: Action)
    requires a.TakeEvents? || p.failure.Some? || p.state.completed
    ensures Perform(c, p, a).failure == p.failure
  {
  }

  /** One line feed as a chunk passes through a consumer that may hold one character. */
  lemma LineFeedPasses(c: Config, s: State)
    requires c.limits.maxEncodedChunkChars >= 4 && c.limits.maxPendingTextChars >= 1
    requires s == FRESH
    ensures PushBase64(c, s, Encode([LF])) == Outcome(s, None)
  {
    DecodeEncode([LF]);
    assert Encode([LF]) == Encode([LF])[..4];
    var one: seq<Byte> := [LF];
    assert one[1..] == [];
    var full := s.(textBuffer := [LF]);
    IndexOfUnique(full.textBuffer, LF, 0);
    assert [LF][..0] == [] && [LF][1..] == [];
    IndexOfUnique([], LF, 0);
    PumpUnfold(c, full, [], []);
  }

  lemma RunOneOrTwo(c: Config, a: Action, b: Action)
    ensures RunActions(c, [a]) == Perform(c, Progress(FRESH, [], None), a)
    ensures RunActions(c, [a, b]) == Perform(c, RunActions(c, [a]), b)
  {
    hide Perform;
    assert [a][..0] == [] && [a, b][..1] == [a];
  }

  lemma CarriesOneOrTwo(a: Action, b: Action)
    requires ValidActions([a]) && ValidActions([b]) && a.Push? && b.Push?
    ensures ValidActions([a, b])
    ensures Carried([a]) == Decode([a][0].encoded) && Carried([a, b]) == Decode([a][0].encoded) + Decode([b][0].encoded)
  {
    assert [a][0] == a && [b][0] == b && [a][..0] == [] && [a, b][..1] == [a];
    assert forall i | 0 <= i < 2 :: [a, b][i] == if i == 0 then a else b;
  }

  lemma TwoLineFeedsOverflow(c: Config)
    requires c.limits.maxEncodedChunkChars >= 4 && c.limits.maxPendingTextChars == 1
    ensures PushBase64(c, FRESH, Encode([LF, LF])).failure == Some(BufferOverflow)
  {
    hide Encode, Decode, IsValidBase64, Pump;
    LineFeedsDecode();
    var o := PushDecoded(c, FRESH, [LF, LF]);
    assert FRESH.textBuffer + [LF, LF] == [LF, LF];
    assert o == BoundPending(c, FRESH.(textBuffer := [LF, LF]));
  }

  lemma LineFeedsDecode()
    ensures IsValidBase64(Encode([LF, LF])) && Decode(Encode([LF, LF])) == [LF, LF] && |Encode([LF, LF])| == 4
    ensures Utf8.Run(Utf8.START, [LF, LF]) == Some((Utf8.START, [LF, LF]))
  {
    var one: seq<Byte>, two: seq<Byte> := [LF], [LF, LF];
    DecodeEncode(two);
    assert two[1..] == one && one[1..] == [];
    var lf: Text, none: Text := [LF], [];
    assert lf + none == lf && lf + lf == [LF, LF];
    assert Utf8.Run(Utf8.START, one[1..]) == Some((Utf8.START, none));
    assert Utf8.Run(Utf8.START, one) == Some((Utf8.START, lf));
  }

  /**
   Overflow depends on how the stream was cut: the bound is checked on a whole chunk before its
   lines are consumed.
   */
  lemma OverflowDependsOnCut(json: JsonParser)
    ensures var c := Config(Limits(16, 1, 1, 1, 1), json);
      var whole, half := Push(Encode([LF, LF])), Push(Encode([LF]));
      && ValidActions([whole]) && ValidActions([half, half]) && Carried([whole]) == Carried([half, half])
      && RunActions(c, [whole]).failure == Some(BufferOverflow)
      && RunActions(c, [half, half]).failure.None?
  {
    hide Encode, Decode, PushBase64;
    var c := Config(Limits(16, 1, 1, 1, 1), json);
    var whole, half := Push(Encode([LF, LF])), Push(Encode([LF]));
    DecodeEncode([LF]);
    DecodeEncode([LF, LF]);
    RunOneOrTwo(c, half, half);
    RunOneOrTwo(c, whole, whole);
    CarriesOneOrTwo(half, half);
    CarriesOneOrTwo(whole, whole);
    TwoLineFeedsOverflow(c);
    LineFeedPasses(c, FRESH);
  }
}

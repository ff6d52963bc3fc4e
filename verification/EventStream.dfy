/**
 What an event stream means, read in one pass over the whole text: lines and records as in
 sections 9.2.5 and 9.2.6 of the WHATWG HTML Standard (a lone CR does not end a line, `id` and
 `retry` carry no meaning), and the assistant text the records carry.
 */
module EventStream {
  import opened Wrappers

  const LF: CodeUnit := 10
  const CR: CodeUnit := 13
  const SPACE: CodeUnit := 32
  const COLON: CodeUnit := 58

  const EVENT := Ascii("event")
  const DATA := Ascii("data")
  const DELTA := Ascii("delta")
  const MESSAGE := Ascii("message")
  const DONE := Ascii("[DONE]")
  const ROLE := Ascii("role")
  const VALUE := Ascii("v")
  const PATH := Ascii("p")
  const OPERATION := Ascii("o")
  const ASSISTANT_TEXT_PATCH_PATH := Ascii("/message/content/parts/0")
  const ASSISTANT_TEXT_PATCH_OPERATION := Ascii("append")

  datatype Event = TextDelta(text: Text) | Completed

  /** A parsed JSON value; numbers are kept as their literal. */
  datatype Json =
    | Null
    | Bool(b: bool)
    | Number(literal: Text)
    | String(text: Text)
    | Array(items: seq<Json>)
    | Object(members: map<Text, Json>)

  /** The JSON grammar is a parameter: None where the parser throws. */
  type JsonParser = Text -> Option<Json>

  function IndexFrom(t: Text, u: CodeUnit, from: nat): (i: nat)
    requires from <= |t|
    ensures from <= i <= |t|
    ensures forall k | from <= k < i :: t[k] != u
    ensures i < |t| ==> t[i] == u
    decreases |t| - from
  {
    if from == |t| || t[from] == u then from else IndexFrom(t, u, from + 1)
  }

  /** First position of a code unit, or the length. */
  function IndexOf(t: Text, u: CodeUnit): nat {
    IndexFrom(t, u, 0)
  }

  lemma IndexOfUnique(t: Text, u: CodeUnit, i: nat)
    requires i <= |t| && (forall k | 0 <= k < i :: t[k] != u) && (i < |t| ==> t[i] == u)
    ensures IndexOf(t, u) == i
  {
  }

  /** A line without the carriage return that may end it. */
  function StripCr(line: Text): Text {
    if |line| > 0 && line[|line| - 1] == CR then line[..|line| - 1] else line
  }

  /** The complete lines of a text and what follows the last line feed. */
  datatype Split = Split(lines: seq<Text>, rest: Text)

  function SplitLines(t: Text): Split {
    if t == [] then Split([], [])
    else
      var before := SplitLines(t[..|t| - 1]);
      var last := t[|t| - 1];
      if last == LF then Split(before.lines + [StripCr(before.rest)], [])
      else Split(before.lines, before.rest + [last])
  }

  lemma {:induction false} SplitWithoutLineFeed(t: Text)
    requires LF !in t
    ensures SplitLines(t) == Split([], t)
  {
    if t != [] {
      SplitWithoutLineFeed(t[..|t| - 1]);
      assert t == t[..|t| - 1] + [t[|t| - 1]];
    }
  }

  lemma {:induction false} RestHasNoLineFeed(t: Text)
    ensures LF !in SplitLines(t).rest
  {
    if t != [] { RestHasNoLineFeed(t[..|t| - 1]); }
  }

  /** Cutting a text anywhere and keeping the unfinished line splits it the same way. */
  lemma {:induction false} SplitAppend(a: Text, b: Text)
    ensures var last := SplitLines(SplitLines(a).rest + b);
            SplitLines(a + b) == Split(SplitLines(a).lines + last.lines, last.rest)
    decreases |b|
  {
    var r := SplitLines(a).rest;
    if b == [] {
      RestHasNoLineFeed(a);
      SplitWithoutLineFeed(r);
      assert a + b == a && r + b == r;
    } else {
      var init := b[..|b| - 1];
      SplitAppend(a, init);
      assert (a + b)[..|a + b| - 1] == a + init;
      assert (r + b)[..|r + b| - 1] == r + init;
    }
  }

  lemma SplitFirstLine(line: Text, tail: Text)
    requires LF !in line
    ensures SplitLines(line + [LF] + tail)
         == Split([StripCr(line)] + SplitLines(tail).lines, SplitLines(tail).rest)
  {
    SplitWithoutLineFeed(line);
    assert (line + [LF])[..|line|] == line;
    assert SplitLines(line + [LF]) == Split([StripCr(line)], []);
    SplitAppend(line + [LF], tail);
    assert [] + tail == tail;
  }

  /** Field name and value of a line; a comment has neither. */
  datatype Field = Comment | Field(name: Text, value: Text)

  function FieldOf(line: Text): Field {
    if |line| > 0 && line[0] == COLON then Comment
    else
      var c := IndexOf(line, COLON);
      var value := if c == |line| then [] else line[c + 1..];
      Field(line[..c], if |value| > 0 && value[0] == SPACE then value[1..] else value)
  }

  /** Value of the last `event` line of a record. */
  function EventName(record: seq<Text>): Option<Text> {
    if record == [] then None
    else
      var last := FieldOf(record[|record| - 1]);
      if last.Field? && last.name == EVENT then Some(last.value) else EventName(record[..|record| - 1])
  }

  /** Values of the `data` lines of a record, in order. */
  function DataLines(record: seq<Text>): seq<Text> {
    if record == [] then []
    else
      var last := FieldOf(record[|record| - 1]);
      var before := DataLines(record[..|record| - 1]);
      if last.Field? && last.name == DATA then before + [last.value] else before
  }

  function Join(lines: seq<Text>): Text {
    if lines == [] then []
    else if |lines| == 1 then lines[0]
    else Join(lines[..|lines| - 1]) + [LF] + lines[|lines| - 1]
  }

  predicate IsAssistantPatch(patch: Json) {
    && patch.Object?
    && PATH in patch.members && patch.members[PATH] == String(ASSISTANT_TEXT_PATCH_PATH)
    && OPERATION in patch.members && patch.members[OPERATION] == String(ASSISTANT_TEXT_PATCH_OPERATION)
    && VALUE in patch.members && patch.members[VALUE].String?
  }

  /** Text appended by the patches of a batch. */
  function PatchTexts(patches: seq<Json>): seq<Text> {
    if patches == [] then []
    else
      (if IsAssistantPatch(patches[0]) then [patches[0].members[VALUE].text] else [])
      + PatchTexts(patches[1..])
  }

  /** Assistant text a parsed `delta` record carries. */
  function AssistantTexts(value: Json): seq<Text> {
    if !value.Object? || ROLE in value.members || VALUE !in value.members then []
    else match value.members[VALUE]
      case String(text) => [text]
      case Array(items) => PatchTexts(items)
      case _ => []
  }

  function Deltas(texts: seq<Text>): (events: seq<Event>)
    ensures |events| == |texts|
    ensures forall i | 0 <= i < |texts| :: events[i] == TextDelta(texts[i])
  {
    if texts == [] then [] else [TextDelta(texts[0])] + Deltas(texts[1..])
  }

  datatype RecordMeaning = Texts(texts: seq<Text>) | Finish | Malformed

  function MeaningOf(json: JsonParser, record: seq<Text>): RecordMeaning {
    var data := Join(DataLines(record));
    if DataLines(record) == [] then Texts([])
    else if data == DONE then Finish
    else if EventName(record) != Some(DELTA) then Texts([])
    else match json(data)
      case None => Malformed
      case Some(value) => Texts(AssistantTexts(value))
  }

  datatype Status = Running | Done | Broken

  /** Events of the closed records, the lines of the open one, and how reading stands. */
  datatype Reading = Reading(events: seq<Event>, open: seq<Text>, status: Status)

  function FirstBlankFrom(lines: seq<Text>, from: nat): (i: nat)
    requires from <= |lines|
    ensures from <= i <= |lines|
    ensures forall j | from <= j < i :: lines[j] != []
    ensures i < |lines| ==> lines[i] == []
    decreases |lines| - from
  {
    if from == |lines| || lines[from] == [] then from else FirstBlankFrom(lines, from + 1)
  }

  /** Position of the first blank line, or the number of lines. */
  function FirstBlank(lines: seq<Text>): nat {
    FirstBlankFrom(lines, 0)
  }

  /** The reading of a closed record followed by what `tail` reads. */
  function Continue(meaning: RecordMeaning, tail: Reading): Reading {
    match meaning
    case Finish => Reading([Completed], [], Done)
    case Malformed => Reading([], [], Broken)
    case Texts(texts) => tail.(events := Deltas(texts) + tail.events)
  }

  /** Records end at blank lines; nothing after `[DONE]` or a malformed record is read. */
  function Read(json: JsonParser, lines: seq<Text>): Reading
    decreases |lines|
  {
    var i := FirstBlank(lines);
    if i == |lines| then Reading([], lines, Running)
    else Continue(MeaningOf(json, lines[..i]), Read(json, lines[i + 1..]))
  }

  /** The reading of a text whose last line may still grow. */
  function ReadText(json: JsonParser, t: Text): Reading {
    Read(json, SplitLines(t).lines)
  }

  /** Lines of a text that has ended: an unterminated line counts, and the record is closed. */
  function FinalLines(t: Text): seq<Text> {
    var s := SplitLines(t);
    s.lines + (if s.rest == [] then [] else [StripCr(s.rest)]) + [[]]
  }

  function ReadFinal(json: JsonParser, t: Text): Reading {
    Read(json, FinalLines(t))
  }

  /** How one more line changes a reading. */
  function Advance(json: JsonParser, r: Reading, line: Text): Reading {
    if r.status != Running then r
    else if line != [] then r.(open := r.open + [line])
    else match MeaningOf(json, r.open)
      case Finish => Reading(r.events + [Completed], [], Done)
      case Malformed => Reading(r.events, [], Broken)
      case Texts(texts) => Reading(r.events + Deltas(texts), [], Running)
  }

  lemma FirstBlankUnique(lines: seq<Text>, i: nat)
    requires i <= |lines| && (forall j | 0 <= j < i :: lines[j] != []) && (i < |lines| ==> lines[i] == [])
    ensures FirstBlank(lines) == i
  {
  }

  predicate NoBlank(record: seq<Text>) {
    forall i | 0 <= i < |record| :: record[i] != []
  }

  lemma ReadOpenRecord(json: JsonParser, record: seq<Text>)
    requires NoBlank(record)
    ensures Read(json, record) == Reading([], record, Running)
  {
    FirstBlankUnique(record, |record|);
  }

  lemma ReadClosedRecord(json: JsonParser, record: seq<Text>, rest: seq<Text>)
    requires NoBlank(record)
    ensures Read(json, record + [[]] + rest) == Continue(MeaningOf(json, record), Read(json, rest))
  {
    var all := record + [[]] + rest;
    FirstBlankUnique(all, |record|);
    assert all[..|record|] == record && all[|record| + 1..] == rest;
  }

  lemma ContinueAdvance(json: JsonParser, meaning: RecordMeaning, tail: Reading, line: Text)
    ensures Continue(meaning, Advance(json, tail, line)) == Advance(json, Continue(meaning, tail), line)
  {
    if meaning.Texts? && tail.status == Running {
      var before := Deltas(meaning.texts);
      match MeaningOf(json, tail.open)
      case Texts(texts) => assert before + tail.events + Deltas(texts) == before + (tail.events + Deltas(texts));
      case _ => assert before + tail.events + [Completed] == before + (tail.events + [Completed]);
    }
  }

  lemma CloseOpenRecord(json: JsonParser, record: seq<Text>)
    ensures Continue(MeaningOf(json, record), Reading([], [], Running))
         == Advance(json, Reading([], record, Running), [])
  {
    match MeaningOf(json, record)
    case Texts(texts) => assert Deltas(texts) + [] == Deltas(texts) == [] + Deltas(texts);
    case _ => assert [] + [Completed] == [Completed];
  }

  /** Reading the lines one at a time gives the same reading. */
  lemma {:induction false} ReadStep(json: JsonParser, lines: seq<Text>, line: Text)
    ensures Read(json, lines + [line]) == Advance(json, Read(json, lines), line)
    decreases |lines|
  {
    var i := FirstBlank(lines);
    var record := lines[..i];
    if i < |lines| {
      var rest := lines[i + 1..];
      assert lines == record + [[]] + rest;
      assert lines + [line] == record + [[]] + (rest + [line]);
      ReadClosedRecord(json, record, rest);
      ReadClosedRecord(json, record, rest + [line]);
      ReadStep(json, rest, line);
      ContinueAdvance(json, MeaningOf(json, record), Read(json, rest), line);
    } else {
      assert lines == record;
      ReadOpenRecord(json, lines);
      if line == [] {
        assert lines + [line] == record + [[]] + [];
        ReadClosedRecord(json, record, []);
        ReadOpenRecord(json, []);
        CloseOpenRecord(json, record);
      } else {
        ReadOpenRecord(json, lines + [line]);
      }
    }
  }

  lemma AdvanceExtends(json: JsonParser, r: Reading, line: Text)
    ensures r.events <= Advance(json, r, line).events
    ensures r.status != Running ==> Advance(json, r, line) == r
  {
  }

  /** More lines only add events, and a finished or broken reading is final. */
  lemma {:induction false} ReadExtends(json: JsonParser, a: seq<Text>, b: seq<Text>)
    ensures Read(json, a).events <= Read(json, a + b).events
    ensures Read(json, a).status != Running ==> Read(json, a + b) == Read(json, a)
    decreases |b|
  {
    if b == [] {
      assert a + b == a;
    } else {
      var init, last := b[..|b| - 1], b[|b| - 1];
      assert a + b == (a + init) + [last];
      ReadExtends(json, a, init);
      ReadStep(json, a + init, last);
      AdvanceExtends(json, Read(json, a + init), last);
    }
  }

  /** More text only adds events, and a finished or broken reading is final. */
  lemma ReadTextExtends(json: JsonParser, a: Text, b: Text)
    ensures ReadText(json, a).events <= ReadText(json, a + b).events
    ensures ReadText(json, a).status != Running ==> ReadText(json, a + b) == ReadText(json, a)
  {
    SplitAppend(a, b);
    ReadExtends(json, SplitLines(a).lines, SplitLines(SplitLines(a).rest + b).lines);
  }

  /** Ending a text only adds events, and a finished or broken reading is final. */
  lemma ReadFinalExtends(json: JsonParser, t: Text)
    ensures ReadText(json, t).events <= ReadFinal(json, t).events
    ensures ReadText(json, t).status != Running ==> ReadFinal(json, t) == ReadText(json, t)
  {
    var s := SplitLines(t);
    ReadExtends(json, s.lines, (if s.rest == [] then [] else [StripCr(s.rest)]) + [[]]);
    assert FinalLines(t) == s.lines + ((if s.rest == [] then [] else [StripCr(s.rest)]) + [[]]);
  }

  predicate CompletedOnlyLast(r: Reading) {
    && (forall i | 0 <= i < |r.events| :: r.events[i].Completed? <==> r.status == Done && i == |r.events| - 1)
    && (r.status == Done ==> r.events != [])
  }

  lemma ContinueCompletedLast(meaning: RecordMeaning, tail: Reading)
    requires CompletedOnlyLast(tail)
    ensures CompletedOnlyLast(Continue(meaning, tail))
  {
    if meaning.Texts? {
      var ds := Deltas(meaning.texts);
      var r := Continue(meaning, tail);
      assert forall i | 0 <= i < |ds| :: r.events[i] == ds[i];
      assert forall i | |ds| <= i < |r.events| :: r.events[i] == tail.events[i - |ds|];
    }
  }

  /** `[DONE]` yields the one COMPLETED event, and it comes last. */
  lemma {:induction false} CompletedIsLast(json: JsonParser, lines: seq<Text>)
    ensures CompletedOnlyLast(Read(json, lines))
    decreases |lines|
  {
    var i := FirstBlank(lines);
    if i < |lines| {
      CompletedIsLast(json, lines[i + 1..]);
      ContinueCompletedLast(MeaningOf(json, lines[..i]), Read(json, lines[i + 1..]));
    }
  }

  /** Assistant text a list of events carries. */
  function TextOf(events: seq<Event>): Text {
    if events == [] then []
    else
      var last := events[|events| - 1];
      TextOf(events[..|events| - 1]) + (if last.TextDelta? then last.text else [])
  }

  lemma {:induction false} TextOfConcat(a: seq<Event>, b: seq<Event>)
    ensures TextOf(a + b) == TextOf(a) + TextOf(b)
    decreases |b|
  {
    if b == [] {
      assert a + b == a;
    } else {
      assert (a + b)[..|a + b| - 1] == a + b[..|b| - 1];
      TextOfConcat(a, b[..|b| - 1]);
    }
  }

  lemma TextOfPrefix(a: seq<Event>, b: seq<Event>)
    requires a <= b
    ensures TextOf(a) <= TextOf(b)
  {
    TextOfConcat(a, b[|a|..]);
    assert b == a + b[|a|..];
  }
}

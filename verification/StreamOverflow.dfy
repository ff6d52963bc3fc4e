/**
 When a stream can overflow the consumer at all: over every cut into chunks and every schedule of
 drains, exactly when it is not roomy.
 */
module StreamOverflow {
  import opened Wrappers
  import opened Base64
  import Utf8
  import opened EventStream
  import opened ResponseStream
  import opened StreamCapacity

  /** However `bytes` are cut into admissible chunks, and whenever events are drained, nothing overflows. */
  ghost predicate NeverOverflows(c: Config, bytes: seq<Byte>) {
    forall actions: seq<Action> | ValidActions(actions) && ShortChunks(c, actions) && Carried(actions) == bytes ::
      RunActions(c, actions).failure != Some(BufferOverflow)
  }

  // ---------------------------------------------------------------- schedules

  predicate OnlyPushes(actions: seq<Action>) {
    forall i | 0 <= i < |actions| :: actions[i].Push?
  }

  lemma {:induction false} CarriedConcat(s: seq<Action>, t: seq<Action>)
    requires ValidActions(s) && ValidActions(t)
    ensures ValidActions(s + t) && Carried(s + t) == Carried(s) + Carried(t)
  {
    hide IsValidBase64, Decode;
    assert ValidActions(s + t);
    if t == [] {
      assert s + t == s;
    } else {
      var init := t[..|t| - 1];
      assert (s + t)[..|s + t| - 1] == s + init;
      CarriedConcat(s, init);
    }
  }

  lemma ChunksConcat(c: Config, s: seq<Action>, t: seq<Action>)
    requires ShortChunks(c, s) && ShortChunks(c, t)
    ensures ShortChunks(c, s + t)
    ensures OnlyPushes(s) && OnlyPushes(t) ==> OnlyPushes(s + t)
  {
  }

  /** What overflowed stays overflowed. */
  lemma {:induction false} RunOn(c: Config, s: seq<Action>, t: seq<Action>)
    requires RunActions(c, s).failure.Some?
    ensures RunActions(c, s + t).failure == RunActions(c, s).failure
  {
    hide PushBase64;
    if t == [] {
      assert s + t == s;
    } else {
      var init := t[..|t| - 1];
      assert (s + t)[..|s + t| - 1] == s + init;
      RunOn(c, s, init);
    }
  }

  /** The finest cut: one chunk for each byte. */
  function BytePushes(bytes: seq<Byte>): seq<Action> {
    if bytes == [] then [] else BytePushes(bytes[..|bytes| - 1]) + [Push(Encode([bytes[|bytes| - 1]]))]
  }

  lemma OnePush(c: Config, bytes: seq<Byte>)
    requires EncodedLength(|bytes|) <= c.limits.maxEncodedChunkChars
    ensures var push := [Push(Encode(bytes))];
      ValidActions(push) && ShortChunks(c, push) && OnlyPushes(push) && Carried(push) == bytes
  {
    EncodeLength(bytes);
    DecodeEncode(bytes);
    var push := [Push(Encode(bytes))];
    assert push[..0] == [] && [] + Decode(Encode(bytes)) == bytes;
  }

  lemma EmptySchedule(c: Config)
    ensures ValidActions([]) && ShortChunks(c, []) && OnlyPushes([]) && Carried([]) == []
  {
  }

  lemma {:induction false} BytePushesCarry(c: Config, bytes: seq<Byte>)
    requires c.limits.maxEncodedChunkChars >= 4
    ensures var pushes := BytePushes(bytes);
      ValidActions(pushes) && ShortChunks(c, pushes) && OnlyPushes(pushes) && Carried(pushes) == bytes
  {
    hide Encode, ValidActions, ShortChunks, OnlyPushes, Carried;
    EmptySchedule(c);
    EncodedLengthStep(0);
    if bytes != [] {
      var init, last := bytes[..|bytes| - 1], [bytes[|bytes| - 1]];
      BytePushesCarry(c, init);
      OnePush(c, last);
      CarriedConcat(BytePushes(init), [Push(Encode(last))]);
      ChunksConcat(c, BytePushes(init), [Push(Encode(last))]);
      assert init + last == bytes;
    }
  }

  /** If nothing overflows, no schedule of an initial part does either. */
  lemma PartIsSafe(c: Config, bytes: seq<Byte>, actions: seq<Action>, m: nat)
    requires c.limits.maxEncodedChunkChars >= 4 && NeverOverflows(c, bytes) && m <= |bytes|
    requires ValidActions(actions) && ShortChunks(c, actions) && Carried(actions) == bytes[..m]
    ensures RunActions(c, actions).failure != Some(BufferOverflow)
  {
    hide ValidActions, ShortChunks, OnlyPushes, Carried, BytePushes, RunActions;
    var rest := BytePushes(bytes[m..]);
    BytePushesCarry(c, bytes[m..]);
    CarriedConcat(actions, rest);
    ChunksConcat(c, actions, rest);
    assert bytes[..m] + bytes[m..] == bytes;
    if RunActions(c, actions).failure == Some(BufferOverflow) {
      RunOn(c, actions, rest);
    }
  }

  lemma {:induction false} RunAccounted(c: Config, actions: seq<Action>)
    ensures var p := RunActions(c, actions);
      Accounted(c, p.state) && (p.failure.None? ==> Bounded(c, p.state))
  {
    hide PushBase64;
    if actions != [] {
      var init, last := actions[..|actions| - 1], actions[|actions| - 1];
      RunAccounted(c, init);
      if last.Push? && RunActions(c, init).failure.None? { PushBounded(c, RunActions(c, init).state, last.encoded); }
    }
  }

  lemma {:induction false} PushesTakeNothing(c: Config, actions: seq<Action>)
    requires OnlyPushes(actions)
    ensures RunActions(c, actions).taken == []
  {
    hide PushBase64;
    if actions != [] {
      assert OnlyPushes(actions[..|actions| - 1]);
      PushesTakeNothing(c, actions[..|actions| - 1]);
    }
  }

  // ---------------------------------------------------------------- each bound can be hit

  /** If the events do not fit the queue, every schedule without drains overflows. */
  lemma UndrainedOverflows(c: Config, actions: seq<Action>)
    requires ValidActions(actions) && OnlyPushes(actions) && TextOfBytes(Carried(actions)).Some?
    requires !QueueFits(c, ReadText(c.json, TextOfBytes(Carried(actions)).value).events)
    ensures RunActions(c, actions).failure == Some(BufferOverflow)
  {
    hide Carried;
    if RunActions(c, actions).failure != Some(BufferOverflow) {
      ChunkIndependence(c, actions);
      PushesTakeNothing(c, actions);
      RunAccounted(c, actions);
      HeldFitsQueue(c, RunActions(c, actions), TextOfBytes(Carried(actions)).value);
    }
  }

  lemma HeldFitsQueue(c: Config, p: Progress, text: Text)
    requires Agrees(c, p, text) && p.taken == [] && Accounted(c, p.state)
    ensures QueueFits(c, ReadText(c.json, text).events)
  {
    assert [] + p.state.events == p.state.events;
  }

  /** Reading still, the consumer has taken in exactly the first `m` bytes, pushed one by one. */
  lemma ByteByByte(c: Config, bytes: seq<Byte>, m: nat)
    requires c.limits.maxEncodedChunkChars >= 4 && TextOfBytes(bytes).Some? && NeverOverflows(c, bytes) && m <= |bytes|
    ensures var p, text := RunActions(c, BytePushes(bytes[..m])), TextAt(bytes, m);
      ReadText(c.json, text).status == Running ==>
        p.failure.None? && !p.state.completed && Faithful(c, p.state, bytes[..m], p.taken)
  {
    hide Faithful, NeverOverflows, ShortChunks, ValidActions;
    BytePushesCarry(c, bytes[..m]);
    PartIsSafe(c, bytes, BytePushes(bytes[..m]), m);
    assert TextOfBytes(bytes[..m]) == Some(TextAt(bytes, m));
    ChunkIndependence(c, BytePushes(bytes[..m]));
    RunningIsOpen(c, RunActions(c, BytePushes(bytes[..m])), bytes[..m]);
  }

  lemma TwoFailures(failure: Option<Failure>)
    ensures failure in {None, Some(ParseFailed), Some(BufferOverflow)}
  {
    match failure
    case None =>
    case Some(f) =>
      match f
      case ParseFailed =>
      case BufferOverflow =>
  }

  lemma RunningIsOpen(c: Config, p: Progress, bytes: seq<Byte>)
    requires InStep(c, p, bytes)
    ensures ReadText(c.json, TextOfBytes(bytes).value).status == Running ==>
      p.failure.None? && !p.state.completed && Faithful(c, p.state, bytes, p.taken)
  {
    hide Faithful, ReadText;
    TwoFailures(p.failure);
  }

  lemma LinesMustFit(c: Config, bytes: seq<Byte>, m: nat)
    requires c.limits.maxEncodedChunkChars >= 4 && TextOfBytes(bytes).Some? && NeverOverflows(c, bytes) && m <= |bytes|
    ensures LinesFit(c, TextAt(bytes, m))
  {
    ByteByByte(c, bytes, m);
  }

  /** A faithful consumer overflows on a chunk that does not fit on top of what it holds. */
  lemma ChunkOverflows(c: Config, s: State, bytes: seq<Byte>, piece: seq<Byte>, taken: seq<Event>)
    requires Faithful(c, s, bytes, taken) && !s.completed && TextOfBytes(bytes + piece).Some?
    requires TextOfBytes(bytes).Some?
    requires !ChunkFits(c, TextOfBytes(bytes).value, TextOfBytes(bytes + piece).value)
    requires EncodedLength(|piece|) <= c.limits.maxEncodedChunkChars
    ensures PushBase64(c, s, Encode(piece)).failure == Some(BufferOverflow)
  {
    hide Decode, Encode, EncodedLength, IsValidBase64, Faithful, Follows, PendingAfter, PendingChars, ReadText,
         SplitLines, Pump;
    NextPiece(c, s, bytes, piece, taken);
    EncodeLength(piece);
    DecodeEncode(piece);
    HeldIsPending(c, s, bytes, taken);
    OverflowsOn(c, s.(decoder := Utf8.Run(s.decoder, piece).value.0), Utf8.Run(s.decoder, piece).value.1);
  }

  lemma HeldIsPending(c: Config, s: State, bytes: seq<Byte>, taken: seq<Event>)
    requires Faithful(c, s, bytes, taken) && !s.completed
    ensures TextOfBytes(bytes).Some? && PendingChars(s) == PendingAfter(c.json, TextOfBytes(bytes).value)
    ensures PendingChars(s) <= c.limits.maxPendingTextChars
    ensures forall d :: PendingChars(s.(decoder := d)) == PendingChars(s)
  {
  }

  lemma OverflowsOn(c: Config, s: State, decoded: Text)
    requires PendingChars(s) <= c.limits.maxPendingTextChars < PendingChars(s) + |decoded| && !s.completed
    ensures PushDecoded(c, s, decoded).failure == Some(BufferOverflow)
  {
  }

  lemma ChunkMustFit(c: Config, bytes: seq<Byte>, a: nat, b: nat)
    requires c.limits.maxEncodedChunkChars >= 4 && TextOfBytes(bytes).Some? && NeverOverflows(c, bytes)
    requires a <= b <= |bytes| && EncodedLength(b - a) <= c.limits.maxEncodedChunkChars
    ensures ChunkFits(c, TextAt(bytes, a), TextAt(bytes, b))
  {
    hide Faithful, PushBase64, PendingAfter, EncodedLength, NeverOverflows, Encode, ValidActions, ShortChunks,
         OnlyPushes,
         Carried, BytePushes;
    var p, push := RunActions(c, BytePushes(bytes[..a])), Push(Encode(bytes[a..b]));
    if !ChunkFits(c, TextAt(bytes, a), TextAt(bytes, b)) {
      ByteByByte(c, bytes, a);
      assert bytes[..a] + bytes[a..b] == bytes[..b];
      assert TextOfBytes(bytes[..a]) == Some(TextAt(bytes, a)) && TextOfBytes(bytes[..b]) == Some(TextAt(bytes, b));
      ChunkOverflows(c, p.state, bytes[..a], bytes[a..b], p.taken);
    }
    OneMoreChunk(c, bytes, a, b, BytePushes(bytes[..a]), push);
  }

  /** The schedule that pushes byte by byte up to `a` and then one chunk up to `b` does not overflow either. */
  lemma OneMoreChunk(c: Config, bytes: seq<Byte>, a: nat, b: nat, before: seq<Action>, push: Action)
    requires c.limits.maxEncodedChunkChars >= 4 && NeverOverflows(c, bytes)
    requires a <= b <= |bytes| && EncodedLength(b - a) <= c.limits.maxEncodedChunkChars
    requires before == BytePushes(bytes[..a]) && push == Push(Encode(bytes[a..b]))
    ensures Perform(c, RunActions(c, before), push).failure != Some(BufferOverflow)
  {
    hide EncodedLength, NeverOverflows, Encode, ValidActions, ShortChunks, OnlyPushes, Carried, BytePushes, Perform;
    BytePushesCarry(c, bytes[..a]);
    OnePush(c, bytes[a..b]);
    CarriedConcat(before, [push]);
    ChunksConcat(c, before, [push]);
    assert bytes[..a] + bytes[a..b] == bytes[..b];
    PartIsSafe(c, bytes, before + [push], b);
    assert (before + [push])[..|before|] == before;
  }

  /**
   Overflow, exactly: a well-formed stream overflows on no cut and no schedule if and only if it is
   roomy. (A chunk can carry at least one byte.)
   */
  lemma OverflowExactly(c: Config, bytes: seq<Byte>)
    requires c.limits.maxEncodedChunkChars >= 4 && TextOfBytes(bytes).Some?
    ensures NeverOverflows(c, bytes) <==> Roomy(c, bytes)
  {
    if Roomy(c, bytes) {
      forall actions: seq<Action> | ValidActions(actions) && ShortChunks(c, actions) && Carried(actions) == bytes
        ensures RunActions(c, actions).failure != Some(BufferOverflow)
      {
        assert bytes[..|bytes|] == bytes;
        RoomyNeverOverflows(c, bytes, actions, |bytes|);
      }
    }
    if NeverOverflows(c, bytes) {
      BytePushesCarry(c, bytes);
      if !QueueFits(c, ReadText(c.json, TextOfBytes(bytes).value).events) { UndrainedOverflows(c, BytePushes(bytes)); }
      forall m: nat | m <= |bytes| ensures LinesFit(c, TextAt(bytes, m)) { LinesMustFit(c, bytes, m); }
      forall a: nat, b: nat | a <= b <= |bytes| && EncodedLength(b - a) <= c.limits.maxEncodedChunkChars
        ensures ChunkFits(c, TextAt(bytes, a), TextAt(bytes, b))
      {
        ChunkMustFit(c, bytes, a, b);
      }
    }
  }

  /** When one chunk can carry the whole stream, what counts is the length of its whole text. */
  lemma RoomyInOneChunk(c: Config, bytes: seq<Byte>)
    requires TextOfBytes(bytes).Some? && EncodedLength(|bytes|) <= c.limits.maxEncodedChunkChars
    ensures Roomy(c, bytes)
       <==> && |TextOfBytes(bytes).value| <= c.limits.maxPendingTextChars
            && QueueFits(c, ReadText(c.json, TextOfBytes(bytes).value).events)
            && (forall m: nat | m <= |bytes| :: LinesFit(c, TextAt(bytes, m)))
  {
    hide EncodedLength, QueueFits, LinesFit, PendingAfter;
    var text := TextOfBytes(bytes).value;
    assert bytes[..0] == [] && bytes[..|bytes|] == bytes;
    assert TextAt(bytes, 0) == [] && TextAt(bytes, |bytes|) == text;
    NothingRead(c.json);
    if Roomy(c, bytes) { assert ChunkFits(c, TextAt(bytes, 0), TextAt(bytes, |bytes|)); }
    forall a: nat, b: nat | a <= b <= |bytes| && |text| <= c.limits.maxPendingTextChars
      ensures ChunkFits(c, TextAt(bytes, a), TextAt(bytes, b))
    {
      TextGrows(bytes, a, b);
      PendingWithinText(c.json, TextAt(bytes, a));
    }
  }

  lemma NothingRead(json: JsonParser)
    ensures ReadText(json, []).status == Running && PendingAfter(json, []) == 0
  {
    ReadOpenRecord(json, []);
  }
}

/**
 UTF-8 (section 3 of RFC 3629) as a resumable decoder that yields UTF-16 code units and
 rejects the first byte no valid sequence can contain at that place.
 */
module Utf8 {
  import opened Wrappers
  import opened Base64

  type Scalar = c: int | 0 <= c < 0x11_0000 && !(0xD800 <= c < 0xE000)

  /** Continuation bytes still expected, the value so far, and the range of the next one. */
  datatype Decoder = Decoder(needed: nat, value: int, lower: int, upper: int)

  const START := Decoder(0, 0, 0x80, 0xBF)

  /** UTF-16 form of a value below 0x110000. */
  function Units(value: int): Text {
    if 0 <= value < 0x1_0000 then [value]
    else if 0x1_0000 <= value < 0x11_0000 then
      [0xD800 + (value - 0x1_0000) / 0x400, 0xDC00 + (value - 0x1_0000) % 0x400]
    else []
  }

  function Lead(b: Byte): Option<Decoder> {
    if 0xC2 <= b <= 0xDF then Some(Decoder(1, b - 0xC0, 0x80, 0xBF))
    else if b == 0xE0 then Some(Decoder(2, 0, 0xA0, 0xBF))
    else if b == 0xED then Some(Decoder(2, 0xD, 0x80, 0x9F))
    else if 0xE1 <= b <= 0xEF then Some(Decoder(2, b - 0xE0, 0x80, 0xBF))
    else if b == 0xF0 then Some(Decoder(3, 0, 0x90, 0xBF))
    else if b == 0xF4 then Some(Decoder(3, 4, 0x80, 0x8F))
    else if 0xF1 <= b <= 0xF3 then Some(Decoder(3, b - 0xF0, 0x80, 0xBF))
    else None
  }

  function Step(d: Decoder, b: Byte): Option<(Decoder, Text)> {
    if d.needed == 0 then
      if b < 0x80 then Some((START, [b]))
      else match Lead(b)
        case None => None
        case Some(next) => Some((next, []))
    else if !(d.lower <= b <= d.upper) then None
    else
      var value := d.value * 64 + (b - 0x80);
      if d.needed == 1 then Some((START, Units(value)))
      else Some((Decoder(d.needed - 1, value, 0x80, 0xBF), []))
  }

  /** Decode `bytes` from state `d`; None as soon as one byte cannot occur. */
  function Run(d: Decoder, bytes: seq<Byte>): Option<(Decoder, Text)>
    decreases |bytes|
  {
    if bytes == [] then Some((d, []))
    else match Step(d, bytes[0])
      case None => None
      case Some(first) =>
        match Run(first.0, bytes[1..])
        case None => None
        case Some(rest) => Some((rest.0, first.1 + rest.1))
  }

  /** Feeding two pieces one after the other equals feeding them joined. */
  lemma {:induction false} RunConcat(d: Decoder, a: seq<Byte>, b: seq<Byte>)
    ensures Run(d, a + b) ==
      match Run(d, a)
      case None => None
      case Some(first) =>
        match Run(first.0, b)
        case None => None
        case Some(second) => Some((second.0, first.1 + second.1))
    decreases |a|
  {
    if a == [] {
      assert a + b == b;
      assert Run(d, b).Some? ==> [] + Run(d, b).value.1 == Run(d, b).value.1;
    } else {
      assert (a + b)[1..] == a[1..] + b;
      match Step(d, a[0])
      case None =>
      case Some(first) =>
        RunConcat(first.0, a[1..], b);
        match Run(first.0, a[1..])
        case None =>
        case Some(middle) =>
          match Run(middle.0, b)
          case None =>
          case Some(last) =>
            assert first.1 + (middle.1 + last.1) == (first.1 + middle.1) + last.1;
    }
  }

  function Encode(c: Scalar): seq<Byte> {
    if c < 0x80 then [c]
    else if c < 0x800 then [0xC0 + c / 64, 0x80 + c % 64]
    else if c < 0x1_0000 then [0xE0 + c / 4096, 0x80 + c / 64 % 64, 0x80 + c % 64]
    else [0xF0 + c / 262144, 0x80 + c / 4096 % 64, 0x80 + c / 64 % 64, 0x80 + c % 64]
  }

  function EncodeAll(cs: seq<Scalar>): seq<Byte> {
    if cs == [] then [] else Encode(cs[0]) + EncodeAll(cs[1..])
  }

  function UnitsAll(cs: seq<Scalar>): Text {
    if cs == [] then [] else Units(cs[0]) + UnitsAll(cs[1..])
  }

  /** A byte inside a sequence produces nothing yet. */
  lemma Continue(d: Decoder, b: Byte, rest: seq<Byte>, next: Decoder)
    requires Step(d, b) == Some((next, []))
    ensures Run(d, [b] + rest) == Run(next, rest)
  {
    assert ([b] + rest)[1..] == rest;
    assert Run(next, rest).Some? ==> [] + Run(next, rest).value.1 == Run(next, rest).value.1;
  }

  /** The last byte of a sequence produces its scalar. */
  lemma Complete(d: Decoder, b: Byte)
    requires d.needed == 1 && d.lower <= b <= d.upper
    ensures Run(d, [b]) == Some((START, Units(d.value * 64 + (b - 0x80))))
  {
    var t := Units(d.value * 64 + (b - 0x80));
    assert [b][1..] == [] && t + [] == t;
  }

  lemma RunTwo(x: Byte, y: Byte, d: Decoder)
    requires x >= 0x80 && Lead(x) == Some(d) && d.needed == 1
    requires d.lower <= y <= d.upper
    ensures Run(START, [x, y]) == Some((START, Units(d.value * 64 + (y - 0x80))))
  {
    Continue(START, x, [y], d);
    Complete(d, y);
  }

  lemma RunThree(x: Byte, y: Byte, z: Byte, d: Decoder)
    requires x >= 0x80 && Lead(x) == Some(d) && d.needed == 2
    requires d.lower <= y <= d.upper && 0x80 <= z <= 0xBF
    ensures Run(START, [x, y, z])
         == Some((START, Units((d.value * 64 + (y - 0x80)) * 64 + (z - 0x80))))
  {
    var e := Decoder(1, d.value * 64 + (y - 0x80), 0x80, 0xBF);
    Continue(START, x, [y, z], d);
    Continue(d, y, [z], e);
    Complete(e, z);
    assert [x] + [y, z] == [x, y, z];
  }

  lemma RunFour(w: Byte, x: Byte, y: Byte, z: Byte, d: Decoder)
    requires w >= 0x80 && Lead(w) == Some(d) && d.needed == 3
    requires d.lower <= x <= d.upper && 0x80 <= y <= 0xBF && 0x80 <= z <= 0xBF
    ensures Run(START, [w, x, y, z])
         == Some((START, Units(((d.value * 64 + (x - 0x80)) * 64 + (y - 0x80)) * 64 + (z - 0x80))))
  {
    var e := Decoder(2, d.value * 64 + (x - 0x80), 0x80, 0xBF);
    var f := Decoder(1, e.value * 64 + (y - 0x80), 0x80, 0xBF);
    Continue(START, w, [x, y, z], d);
    Continue(d, x, [y, z], e);
    Continue(e, y, [z], f);
    Complete(f, z);
    assert [w] + [x, y, z] == [w, x, y, z] && [x] + [y, z] == [x, y, z];
  }

  lemma TwoByteLead(c: Scalar)
    requires 0x80 <= c < 0x800
    ensures Lead(0xC0 + c / 64) == Some(Decoder(1, c / 64, 0x80, 0xBF))
  {
  }

  lemma ThreeByteLead(c: Scalar) returns (d: Decoder)
    requires 0x800 <= c < 0x1_0000
    ensures Lead(0xE0 + c / 4096) == Some(d) && d.needed == 2 && d.value == c / 4096
    ensures d.lower <= 0x80 + c / 64 % 64 <= d.upper
  {
    d := Lead(0xE0 + c / 4096).value;
  }

  lemma FourByteLead(c: Scalar) returns (d: Decoder)
    requires c >= 0x1_0000
    ensures Lead(0xF0 + c / 262144) == Some(d) && d.needed == 3 && d.value == c / 262144
    ensures d.lower <= 0x80 + c / 4096 % 64 <= d.upper
  {
    d := Lead(0xF0 + c / 262144).value;
  }

  lemma Digits(c: nat)
    ensures c == c / 64 * 64 + c % 64
    ensures c / 64 == c / 4096 * 64 + c / 64 % 64
    ensures c / 4096 == c / 262144 * 64 + c / 4096 % 64
  {
  }

  lemma DecodeTwo(c: Scalar)
    requires 0x80 <= c < 0x800
    ensures Run(START, Encode(c)) == Some((START, Units(c)))
  {
    Digits(c);
    TwoByteLead(c);
    RunTwo(0xC0 + c / 64, 0x80 + c % 64, Decoder(1, c / 64, 0x80, 0xBF));
  }

  lemma DecodeThree(c: Scalar)
    requires 0x800 <= c < 0x1_0000
    ensures Run(START, Encode(c)) == Some((START, Units(c)))
  {
    Digits(c);
    var d := ThreeByteLead(c);
    RunThree(0xE0 + c / 4096, 0x80 + c / 64 % 64, 0x80 + c % 64, d);
  }

  lemma DecodeFour(c: Scalar)
    requires c >= 0x1_0000
    ensures Run(START, Encode(c)) == Some((START, Units(c)))
  {
    Digits(c);
    var d := FourByteLead(c);
    RunFour(0xF0 + c / 262144, 0x80 + c / 4096 % 64, 0x80 + c / 64 % 64, 0x80 + c % 64, d);
  }

  lemma DecodeEncodeOne(c: Scalar)
    ensures Run(START, Encode(c)) == Some((START, Units(c)))
  {
    if c < 0x80 {
      assert [c][1..] == [] && [c] + [] == Units(c);
    } else if c < 0x800 {
      DecodeTwo(c);
    } else if c < 0x1_0000 {
      DecodeThree(c);
    } else {
      DecodeFour(c);
    }
  }

  /** Well-formed text decodes, completely, to its UTF-16 form. */
  lemma {:induction false} DecodeEncode(cs: seq<Scalar>)
    ensures Run(START, EncodeAll(cs)) == Some((START, UnitsAll(cs)))
  {
    if cs != [] {
      DecodeEncodeOne(cs[0]);
      DecodeEncode(cs[1..]);
      RunConcat(START, Encode(cs[0]), EncodeAll(cs[1..]));
    }
  }

  /** A run that ends between sequences began with the encoding of one scalar. */
  lemma FirstScalar(bytes: seq<Byte>) returns (c: Scalar)
    requires bytes != [] && Run(START, bytes).Some? && Run(START, bytes).value.0 == START
    ensures Encode(c) <= bytes && |Encode(c)| > 0
  {
    var b := bytes[0];
    if b < 0x80 {
      c := b;
    } else {
      var d := Lead(b).value;
      var tail := bytes[1..];
      assert Run(d, tail).Some? && Run(d, tail).value.0 == START;
      assert tail != [];
      var v := d.value * 64 + (tail[0] - 0x80);
      if d.needed == 1 {
        c := v;
        assert Encode(c) == bytes[..2];
      } else {
        c := LongScalar(d, b, tail);
      }
    }
  }

  /** Inside a sequence a run has another byte, in range, and goes on after it. */
  lemma NextByte(d: Decoder, tail: seq<Byte>)
    requires d.needed >= 1 && d.lower >= 0x80
    requires Run(d, tail).Some? && Run(d, tail).value.0 == START
    ensures tail != [] && d.lower <= tail[0] <= d.upper
    ensures d.needed >= 2 ==>
      var next := Decoder(d.needed - 1, d.value * 64 + (tail[0] - 0x80), 0x80, 0xBF);
      Run(next, tail[1..]) == Run(d, tail)
  {
    assert tail != [];
    if d.needed >= 2 {
      assert tail == [tail[0]] + tail[1..];
      Continue(d, tail[0], tail[1..], Decoder(d.needed - 1, d.value * 64 + (tail[0] - 0x80), 0x80, 0xBF));
    }
  }

  lemma LongScalar(d: Decoder, b: Byte, tail: seq<Byte>) returns (c: Scalar)
    requires Lead(b) == Some(d) && d.needed >= 2 && b >= 0x80
    requires Run(d, tail).Some? && Run(d, tail).value.0 == START
    ensures Encode(c) <= [b] + tail && |Encode(c)| > 0
  {
    hide Run;
    NextByte(d, tail);
    var y, rest := tail[0], tail[1..];
    var next := Decoder(d.needed - 1, d.value * 64 + (y - 0x80), 0x80, 0xBF);
    NextByte(next, rest);
    if d.needed == 2 {
      c := ThreeByteScalar(d, b, y, rest[0]);
      assert [b] + tail == [b, y, rest[0]] + rest[1..];
    } else {
      var z := LastByte(next, rest);
      c := FourByteScalar(d, b, y, rest[0], z);
      assert [b] + tail == [b, y, rest[0], z] + rest[2..];
    }
  }

  lemma LastByte(d: Decoder, tail: seq<Byte>) returns (z: Byte)
    requires d.needed == 2 && d.lower >= 0x80 && Run(d, tail).Some? && Run(d, tail).value.0 == START
    ensures |tail| >= 2 && tail[1] == z && 0x80 <= z <= 0xBF
  {
    NextByte(d, tail);
    NextByte(Decoder(1, d.value * 64 + (tail[0] - 0x80), 0x80, 0xBF), tail[1..]);
    z := tail[1];
  }

  lemma ThreeByteScalar(d: Decoder, b: Byte, y: Byte, z: Byte) returns (c: Scalar)
    requires b >= 0x80 && Lead(b) == Some(d) && d.needed == 2
    requires d.lower <= y <= d.upper && 0x80 <= z <= 0xBF
    ensures Encode(c) == [b, y, z]
  {
    var u: nat := d.value * 64 + (y - 0x80);
    c := u * 64 + (z - 0x80);
    Remainder(u, z - 0x80);
    Remainder(d.value, y - 0x80);
  }

  lemma Remainder(q: nat, r: nat)
    requires r < 64
    ensures (q * 64 + r) / 64 == q && (q * 64 + r) % 64 == r
  {
  }

  lemma FourByteScalar(d: Decoder, b: Byte, x: Byte, y: Byte, z: Byte) returns (c: Scalar)
    requires b >= 0x80 && Lead(b) == Some(d) && d.needed == 3
    requires d.lower <= x <= d.upper && 0x80 <= y <= 0xBF && 0x80 <= z <= 0xBF
    ensures Encode(c) == [b, x, y, z]
  {
    var u: nat := d.value * 64 + (x - 0x80);
    var v: nat := u * 64 + (y - 0x80);
    c := v * 64 + (z - 0x80);
    Remainder(v, z - 0x80);
    Remainder(u, y - 0x80);
    Remainder(d.value, x - 0x80);
    assert c / 4096 == c / 64 / 64 && c / 262144 == c / 64 / 64 / 64;
  }

  /** Only well-formed text decodes completely: the decoder accepts exactly RFC 3629. */
  lemma {:induction false} EncodeDecode(bytes: seq<Byte>, t: Text) returns (cs: seq<Scalar>)
    requires Run(START, bytes) == Some((START, t))
    ensures EncodeAll(cs) == bytes && UnitsAll(cs) == t
    decreases |bytes|
  {
    if bytes == [] {
      cs := [];
    } else {
      var c := FirstScalar(bytes);
      var head, tail := Encode(c), bytes[|Encode(c)|..];
      assert bytes == head + tail;
      RunConcat(START, head, tail);
      DecodeEncodeOne(c);
      var rest := EncodeDecode(tail, Run(START, tail).value.1);
      cs := [c] + rest;
    }
  }

  /** Every prefix of an accepted stream is accepted. */
  lemma PrefixAccepted(a: seq<Byte>, b: seq<Byte>)
    requires Run(START, a + b).Some?
    ensures Run(START, a).Some? && Run(START, a).value.1 <= Run(START, a + b).value.1
  {
    RunConcat(START, a, b);
  }
}

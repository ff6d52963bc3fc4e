/** Base64 as section 4 of RFC 4648 defines it, with the consumer's own validity test. */
module Base64 {
  type Byte = b: int | 0 <= b < 256

  type Sextet = v: int | 0 <= v < 64

  predicate InAlphabet(c: char) {
    'A' <= c <= 'Z' || 'a' <= c <= 'z' || '0' <= c <= '9' || c == '+' || c == '/'
  }

  function ValueOf(c: char): Sextet
    requires InAlphabet(c)
  {
    if 'A' <= c <= 'Z' then c as int - 'A' as int
    else if 'a' <= c <= 'z' then c as int - 'a' as int + 26
    else if '0' <= c <= '9' then c as int - '0' as int + 52
    else if c == '+' then 62 else 63
  }

  function Symbol(v: Sextet): (c: char)
    ensures InAlphabet(c) && ValueOf(c) == v
  {
    if v < 26 then ('A' as int + v) as char
    else if v < 52 then ('a' as int + v - 26) as char
    else if v < 62 then ('0' as int + v - 52) as char
    else if v == 62 then '+' else '/'
  }

  function PositionOf(s: string, c: char): (i: int)
    ensures -1 <= i < |s|
    ensures i == -1 <==> c !in s
    ensures i >= 0 ==> s[i] == c && c !in s[..i]
  {
    if s == [] then -1
    else if s[0] == c then 0
    else
      var rest := PositionOf(s[1..], c);
      assert s == [s[0]] + s[1..];
      if rest == -1 then -1
      else
        assert s[..rest + 1] == [s[0]] + s[1..][..rest];
        rest + 1
  }

  /** At most two trailing '=' signs, as many as there are. */
  function Padding(s: string): (n: nat)
    ensures n <= 2 && n <= |s|
  {
    if |s| >= 1 && s[|s| - 1] == '=' then
      if |s| >= 2 && s[|s| - 2] == '=' then 2 else 1
    else 0
  }

  /** Alphabet symbols followed by nothing but up to two '='. */
  predicate MatchesPattern(s: string) {
    forall i | 0 <= i < |s| - Padding(s) :: InAlphabet(s[i])
  }

  predicate IsValidBase64(s: string) {
    |s| == 0
    || (|s| % 4 == 0 && MatchesPattern(s)
        && (var first := PositionOf(s, '='); first == -1 || first >= |s| - 2))
  }

  function DecodeQuad(a: Sextet, b: Sextet, c: Sextet, d: Sextet): seq<Byte> {
    [a * 4 + b / 16, b % 16 * 16 + c / 4, c % 4 * 64 + d]
  }

  /** Bytes of a valid text; unused low bits before padding are dropped. */
  function Decode(s: string): seq<Byte>
    requires IsValidBase64(s)
  {
    if |s| == 0 then []
    else if |s| == 4 then
      if Padding(s) == 2 then
        DecodeQuad(ValueOf(s[0]), ValueOf(s[1]), 0, 0)[..1]
      else if Padding(s) == 1 then
        DecodeQuad(ValueOf(s[0]), ValueOf(s[1]), ValueOf(s[2]), 0)[..2]
      else
        DecodeQuad(ValueOf(s[0]), ValueOf(s[1]), ValueOf(s[2]), ValueOf(s[3]))
    else
      TailIsValid(s);
      DecodeQuad(ValueOf(s[0]), ValueOf(s[1]), ValueOf(s[2]), ValueOf(s[3])) + Decode(s[4..])
  }

  lemma TailIsValid(s: string)
    requires IsValidBase64(s) && |s| > 4
    ensures IsValidBase64(s[4..]) && Padding(s[4..]) == Padding(s)
  {
    var first := PositionOf(s[4..], '=');
    if first >= 0 {
      assert s[4 + first] == '=';
    }
  }

  function Encode(bytes: seq<Byte>): (s: string)
    ensures |s| % 4 == 0
  {
    if |bytes| == 0 then ""
    else if |bytes| == 1 then
      [Symbol(bytes[0] / 4), Symbol(bytes[0] % 4 * 16), '=', '=']
    else if |bytes| == 2 then
      [Symbol(bytes[0] / 4), Symbol(bytes[0] % 4 * 16 + bytes[1] / 16), Symbol(bytes[1] % 16 * 4), '=']
    else EncodeTriple(bytes[0], bytes[1], bytes[2]) + Encode(bytes[3..])
  }

  function EncodeTriple(x: Byte, y: Byte, z: Byte): (q: string)
    ensures |q| == 4 && forall i | 0 <= i < 4 :: InAlphabet(q[i])
    ensures DecodeQuad(ValueOf(q[0]), ValueOf(q[1]), ValueOf(q[2]), ValueOf(q[3])) == [x, y, z]
  {
    QuadRoundTrip(x, y, z);
    [Symbol(x / 4), Symbol(x % 4 * 16 + y / 16), Symbol(y % 16 * 4 + z / 64), Symbol(z % 64)]
  }

  /** Three bytes through four sextets and back. */
  lemma QuadRoundTrip(x: Byte, y: Byte, z: Byte)
    ensures DecodeQuad(x / 4, x % 4 * 16 + y / 16, y % 16 * 4 + z / 64, z % 64) == [x, y, z]
  {
  }

  lemma PrependQuad(q: string, s: string)
    requires |q| == 4 && forall i | 0 <= i < 4 :: InAlphabet(q[i])
    requires IsValidBase64(s)
    ensures IsValidBase64(q + s)
    ensures |s| > 0 ==> Padding(q + s) == Padding(s)
  {
    var t := q + s;
    if |s| > 0 {
      forall i | 0 <= i < |t| - Padding(t) ensures InAlphabet(t[i]) {
        if i >= 4 { assert t[i] == s[i - 4]; }
      }
    } else {
      assert t == q;
    }
    var first := PositionOf(t, '=');
    assert !InAlphabet('=');
  }

  lemma PairRoundTrip(x: Byte, y: Byte)
    ensures DecodeQuad(x / 4, x % 4 * 16 + y / 16, y % 16 * 4, 0)[..2] == [x, y]
  {
  }

  lemma SingleRoundTrip(x: Byte)
    ensures DecodeQuad(x / 4, x % 4 * 16, 0, 0)[..1] == [x]
  {
  }

  lemma LeadingQuad(q: string, s: string)
    requires |q| == 4 && forall i | 0 <= i < 4 :: InAlphabet(q[i])
    requires IsValidBase64(s)
    ensures IsValidBase64(q + s)
    ensures Decode(q + s)
         == DecodeQuad(ValueOf(q[0]), ValueOf(q[1]), ValueOf(q[2]), ValueOf(q[3])) + Decode(s)
  {
    PrependQuad(q, s);
    assert (q + s)[4..] == s;
    if |s| == 0 {
      assert q + s == q;
      assert Padding(q) == 0;
    }
  }

  predicate RoundTrips(bytes: seq<Byte>) {
    IsValidBase64(Encode(bytes)) && Decode(Encode(bytes)) == bytes
  }

  lemma LastByteRoundTrips(bytes: seq<Byte>)
    requires |bytes| == 1
    ensures RoundTrips(bytes)
  {
    SingleRoundTrip(bytes[0]);
    var s := Encode(bytes);
    assert Padding(s) == 2 && PositionOf(s, '=') >= 2;
  }

  lemma LastPairRoundTrips(bytes: seq<Byte>)
    requires |bytes| == 2
    ensures RoundTrips(bytes)
  {
    PairRoundTrip(bytes[0], bytes[1]);
    var s := Encode(bytes);
    assert Padding(s) == 1 && PositionOf(s, '=') >= 2;
  }

  lemma TripleRoundTrips(bytes: seq<Byte>)
    requires |bytes| >= 3 && RoundTrips(bytes[3..])
    ensures RoundTrips(bytes)
  {
    LeadingQuad(EncodeTriple(bytes[0], bytes[1], bytes[2]), Encode(bytes[3..]));
    assert bytes == [bytes[0], bytes[1], bytes[2]] + bytes[3..];
  }

  /** Every byte string travels through a chunk the consumer accepts, unchanged. */
  lemma {:induction false} DecodeEncode(bytes: seq<Byte>)
    ensures RoundTrips(bytes)
  {
    if |bytes| == 1 {
      LastByteRoundTrips(bytes);
    } else if |bytes| == 2 {
      LastPairRoundTrips(bytes);
    } else if |bytes| > 2 {
      DecodeEncode(bytes[3..]);
      TripleRoundTrips(bytes);
    }
  }
}

/** Incremental UTF-8: bytes may arrive cut anywhere, also inside a character. */
module Utf8 {

  type Byte = b: int | 0 <= b < 256 witness 0

  /** Unicode scalar values: what UTF-8 encodes. */
  predicate Scalar(c: int) { 0 <= c <= 0x10FFFF && !(0xD800 <= c <= 0xDFFF) }

  /** Section 3 of RFC 3629. */
  function Encode(c: int): seq<Byte>
    requires Scalar(c)
  {
    if c < 0x80 then [c]
    else if c < 0x800 then [0xC0 + c / 64, 0x80 + c % 64]
    else if c < 0x1_0000 then [0xE0 + c / 4096, 0x80 + c / 64 % 64, 0x80 + c % 64]
    else [0xF0 + c / 262144, 0x80 + c / 4096 % 64, 0x80 + c / 64 % 64, 0x80 + c % 64]
  }

  /** The front of a byte sequence: a character of `n` bytes, the beginning of one, or neither. */
  datatype Front = Complete(code: int, n: nat) | Incomplete | Invalid

  predicate Continuation(b: Byte) { 0x80 <= b <= 0xBF }

  /** The bytes that may come second after `lead`: no overlong form, no surrogate, nothing above U+10FFFF. */
  predicate Second(lead: Byte, b: Byte) {
    && Continuation(b) && (lead == 0xE0 ==> b >= 0xA0) && (lead == 0xED ==> b <= 0x9F)
    && (lead == 0xF0 ==> b >= 0x90) && (lead == 0xF4 ==> b <= 0x8F)
  }

  function Length(lead: Byte): nat {
    if lead < 0x80 then 1
    else if 0xC2 <= lead <= 0xDF then 2
    else if 0xE0 <= lead <= 0xEF then 3
    else if 0xF0 <= lead <= 0xF4 then 4
    else 0
  }

  /** The decoder's view of what it holds. */
  function FrontOf(b: seq<Byte>): (r: Front)
    requires b != []
    ensures r.Complete? ==> 1 <= r.n <= |b|
  {
    var n := Length(b[0]);
    if n == 0 then Invalid
    else if n == 1 then Complete(b[0], 1)
    else if |b| == 1 then Incomplete
    else if !Second(b[0], b[1]) then Invalid
    else if n == 2 then Complete(Join(b[0] - 0xC0, b[1]), 2)
    else if |b| == 2 then Incomplete
    else if !Continuation(b[2]) then Invalid
    else if n == 3 then Complete(Join(Join(b[0] - 0xE0, b[1]), b[2]), 3)
    else if |b| == 3 then Incomplete
    else if !Continuation(b[3]) then Invalid
    else Complete(Join(Join(Join(b[0] - 0xF0, b[1]), b[2]), b[3]), 4)
  }

  function Join(high: int, low: Byte): int {
    var l: int := low;
    64 * high + (l - 0x80)
  }

  datatype Decoded = Bad | Decoded(text: seq<int>, pending: seq<Byte>)

  /** Everything that can be decoded, and the bytes that are still waiting. */
  function Decode(b: seq<Byte>): Decoded {
    if b == [] then Decoded([], [])
    else match FrontOf(b)
      case Invalid => Bad
      case Incomplete => Decoded([], b)
      case Complete(code, n) =>
        match Decode(b[n..])
        case Bad => Bad
        case Decoded(text, pending) => Decoded([code] + text, pending)
  }

  lemma JoinSplits(high: int, low: Byte)
    requires Continuation(low)
    ensures Join(high, low) / 64 == high && Join(high, low) % 64 == low - 0x80
  {
  }

  /** The decoder accepts exactly the encodings of scalar values. */
  lemma FrontIsEncoding(b: seq<Byte>, c: int)
    requires b != []
    ensures (FrontOf(b).Complete? && FrontOf(b).code == c) <==> Scalar(c) && Encode(c) <= b
  {
    if FrontOf(b).Complete? && FrontOf(b).code == c {
      FrontEncodes(b);
    }
    if Scalar(c) && Encode(c) <= b {
      EncodingFronts(b, c);
    }
  }

  lemma FrontEncodes(b: seq<Byte>)
    requires b != [] && FrontOf(b).Complete?
    ensures Scalar(FrontOf(b).code) && Encode(FrontOf(b).code) == b[..FrontOf(b).n]
  {
    var n := FrontOf(b).n;
    if n == 2 {
      JoinSplits(b[0] - 0xC0, b[1]);
    } else if n == 3 {
      FrontEncodes3(b[0], b[1], b[2]);
      assert b[..3] == [b[0], b[1], b[2]];
    } else if n == 4 {
      FrontEncodes4(b[0], b[1], b[2], b[3]);
      assert b[..4] == [b[0], b[1], b[2], b[3]];
    }
  }

  lemma FrontEncodes3(a: Byte, b: Byte, c: Byte)
    requires Length(a) == 3 && Second(a, b) && Continuation(c)
    ensures var code := Join(Join(a - 0xE0, b), c);
      Scalar(code) && 0x800 <= code < 0x1_0000 && Encode(code) == [a, b, c]
  {
    var d := Join(a - 0xE0, b);
    var code := Join(d, c);
    JoinSplits(a - 0xE0, b);
    JoinSplits(d, c);
    assert code / 4096 == d / 64;
    assert code / 64 % 64 == d % 64;
  }

  lemma FrontEncodes4(a: Byte, b: Byte, c: Byte, e: Byte)
    requires Length(a) == 4 && Second(a, b) && Continuation(c) && Continuation(e)
    ensures var code := Join(Join(Join(a - 0xF0, b), c), e);
      Scalar(code) && 0x1_0000 <= code && Encode(code) == [a, b, c, e]
  {
    var d := Join(a - 0xF0, b);
    var f := Join(d, c);
    var code := Join(f, e);
    JoinSplits(a - 0xF0, b);
    JoinSplits(d, c);
    JoinSplits(f, e);
    assert code / 64 == f && code / 4096 == d && code / 262144 == d / 64;
  }

  lemma SplitJoins(c: nat, low: Byte)
    requires low == 0x80 + c % 64
    ensures Join(c / 64, low) == c && Continuation(low)
  {
  }

  lemma EncodingFronts(b: seq<Byte>, c: int)
    requires Scalar(c) && Encode(c) <= b
    ensures FrontOf(b) == Complete(c, |Encode(c)|)
  {
    var e := Encode(c);
    assert forall i | 0 <= i < |e| :: b[i] == e[i];
    if 0x80 <= c < 0x800 {
      SplitJoins(c, b[1]);
    } else if 0x800 <= c < 0x1_0000 {
      EncodingFronts3(b, c);
    } else if 0x1_0000 <= c {
      EncodingFronts4(b, c);
    }
  }

  lemma EncodingFronts3(b: seq<Byte>, c: int)
    requires Scalar(c) && 0x800 <= c < 0x1_0000
    requires |b| >= 3 && b[0] == 0xE0 + c / 4096 && b[1] == 0x80 + c / 64 % 64 && b[2] == 0x80 + c % 64
    ensures FrontOf(b) == Complete(c, 3)
  {
    var d := c / 64;
    assert d / 64 == c / 4096;
    SplitJoins(d, b[1]);
    SplitJoins(c, b[2]);
    assert b[0] == 0xE0 ==> d >= 32;
    assert b[0] == 0xED ==> d < 0xD800 / 64;
    assert Length(b[0]) == 3 && Second(b[0], b[1]);
  }

  lemma EncodingFronts4(b: seq<Byte>, c: int)
    requires Scalar(c) && 0x1_0000 <= c
    requires |b| >= 4 && b[0] == 0xF0 + c / 262144 && b[1] == 0x80 + c / 4096 % 64 && b[2] == 0x80 + c / 64 % 64
    requires b[3] == 0x80 + c % 64
    ensures FrontOf(b) == Complete(c, 4)
  {
    var d, e := c / 64, c / 4096;
    assert d / 64 == e && e / 64 == c / 262144;
    SplitJoins(e, b[1]);
    SplitJoins(d, b[2]);
    SplitJoins(c, b[3]);
    assert 16 <= e <= 0x10F;
    assert Length(b[0]) == 4 && Second(b[0], b[1]);
  }

  /** A decision about the front of the bytes is not changed by later ones. */
  lemma FrontAppend(a: seq<Byte>, b: seq<Byte>)
    requires a != [] && !FrontOf(a).Incomplete?
    ensures FrontOf(a + b) == FrontOf(a)
  {
    assert forall i | 0 <= i < |a| :: (a + b)[i] == a[i];
  }

  /** Decoding in two parts, with the waiting bytes put in front of the second, is decoding at once. */
  lemma {:induction false} DecodeInParts(a: seq<Byte>, b: seq<Byte>)
    ensures Decode(a + b) ==
      (match Decode(a)
       case Bad => Bad
       case Decoded(text, pending) =>
         match Decode(pending + b) case Bad => Bad case Decoded(more, rest) => Decoded(text + more, rest))
    decreases |a|
  {
    if a == [] {
      assert a + b == b && [] + b == b;
      if Decode(b).Decoded? {
        assert [] + Decode(b).text == Decode(b).text;
      }
    } else if !FrontOf(a).Incomplete? {
      FrontAppend(a, b);
      if FrontOf(a).Complete? {
        var n := FrontOf(a).n;
        assert (a + b)[n..] == a[n..] + b;
        DecodeInParts(a[n..], b);
        if Decode(a[n..]).Decoded? && Decode(Decode(a[n..]).pending + b).Decoded? {
          var code, text, more := FrontOf(a).code, Decode(a[n..]).text, Decode(Decode(a[n..]).pending + b).text;
          assert [code] + (text + more) == ([code] + text) + more;
        }
      }
    } else if Decode(a + b).Decoded? {
      assert [] + Decode(a + b).text == Decode(a + b).text;
    }
  }

  /** Bytes that wait are the beginning of one character and nothing else. */
  lemma {:induction false} PendingWaits(b: seq<Byte>)
    requires Decode(b).Decoded?
    ensures Decode(Decode(b).pending) == Decoded([], Decode(b).pending)
    decreases |b|
  {
    if b != [] && FrontOf(b).Complete? {
      PendingWaits(b[FrontOf(b).n..]);
    }
  }

  lemma {:induction false} DecodeShrinks(b: seq<Byte>)
    requires Decode(b).Decoded?
    ensures |Decode(b).text| <= |b| && |Decode(b).pending| <= 3
    decreases |b|
  {
    if b != [] && FrontOf(b).Complete? {
      DecodeShrinks(b[FrontOf(b).n..]);
    }
  }

  /** What has been decoded is the text whose encoding the bytes were. */
  lemma {:induction false} DecodedIsEncoded(text: seq<int>)
    requires forall i | 0 <= i < |text| :: Scalar(text[i])
    ensures Decode(EncodeAll(text)) == Decoded(text, [])
  {
    if text != [] {
      var e, rest := Encode(text[0]), EncodeAll(text[1..]);
      EncodingFronts(e + rest, text[0]);
      assert (e + rest)[|e|..] == rest;
      DecodedIsEncoded(text[1..]);
    }
  }

  function EncodeAll(text: seq<int>): seq<Byte>
    requires forall i | 0 <= i < |text| :: Scalar(text[i])
  {
    if text == [] then [] else Encode(text[0]) + EncodeAll(text[1..])
  }
}

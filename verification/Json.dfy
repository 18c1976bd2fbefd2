/** JSON texts as Python's decoder reads them: from the front of a text, giving a value and what is left. */
module Json {
  import opened Text

  const QUOTE := 34
  const BACKSLASH := 92
  const COMMA := 44
  const COLON := 58
  const OPEN_LIST := 91
  const CLOSE_LIST := 93
  const OPEN_DICT := 123
  const CLOSE_DICT := 125

  /** Values, as far as the listing tells them apart: numbers, null, false and the three constants are all `Other`. */
  datatype Value = Dict(members: seq<(Text, Value)>) | List(items: seq<Value>) | Str(text: Text) | True | Other

  datatype Parsed<+T> = Fail | Ok(value: T, rest: Text)

  /** Section 2 of RFC 8259. */
  predicate JsonSpace(c: int) { c == 32 || c == 9 || c == 10 || c == 13 }

  /** str.isspace, which is what str.lstrip removes. */
  predicate PythonSpace(c: int) {
    || 9 <= c <= 13 || 28 <= c <= 32 || c == 0x85 || c == 0xA0 || c == 0x1680 || 0x2000 <= c <= 0x200A
    || c == 0x2028 || c == 0x2029 || c == 0x202F || c == 0x205F || c == 0x3000
  }

  /** The text without its leading spaces; `loose` spaces are Python's, the others JSON's. */
  function Skip(t: Text, loose: bool): (r: Text)
    ensures |r| <= |t|
    ensures r != [] ==> !(if loose then PythonSpace(r[0]) else JsonSpace(r[0]))
  {
    if t != [] && (if loose then PythonSpace(t[0]) else JsonSpace(t[0])) then Skip(t[1..], loose) else t
  }

  function HexDigit(c: int): Option<nat> {
    if 48 <= c <= 57 then Some(c - 48)
    else if 65 <= c <= 70 then Some(c - 55)
    else if 97 <= c <= 102 then Some(c - 87)
    else None
  }

  /** The four hexadecimal digits at position `i`. */
  function Hex4(t: Text, i: nat): Option<nat> {
    if |t| < i + 4 then None
    else
      var a, b, c, d := HexDigit(t[i]), HexDigit(t[i + 1]), HexDigit(t[i + 2]), HexDigit(t[i + 3]);
      if a.None? || b.None? || c.None? || d.None? then None
      else Some(0x1000 * a.value + 0x100 * b.value + 0x10 * c.value + d.value)
  }

  function Escape(c: int): Option<int> {
    if c == QUOTE || c == BACKSLASH || c == SLASH then Some(c)
    else if c == 98 then Some(8) else if c == 102 then Some(12) else if c == 110 then Some(10)
    else if c == 114 then Some(13) else if c == 116 then Some(9) else None
  }

  /** One character of a string body: how it reads and how long it is written, or nothing when it cannot be read. */
  function Character(t: Text): (r: Option<(int, nat)>)
    ensures r.Some? ==> 1 <= r.value.1 <= |t|
  {
    if t == [] || t[0] < 32 then None
    else if t[0] != BACKSLASH then Some((t[0], 1))
    else if |t| < 2 then None
    else if t[1] != 117 then (match Escape(t[1]) case None => None case Some(c) => Some((c, 2)))
    else
      match Hex4(t, 2)
      case None => None
      case Some(u) =>
        if 0xD800 <= u <= 0xDBFF && 8 <= |t| && t[6] == BACKSLASH && t[7] == 117 then
          match Hex4(t, 8)
          case None => None
          case Some(v) =>
            if 0xDC00 <= v <= 0xDFFF then Some((0x10000 + 0x400 * (u - 0xD800) + (v - 0xDC00), 12)) else Some((u, 6))
        else Some((u, 6))
  }

  /** The body of a string, up to and with the closing quote. */
  function StringBody(t: Text): (r: Parsed<Text>)
    ensures r.Ok? ==> |r.rest| < |t|
  {
    if t != [] && t[0] == QUOTE then Ok([], t[1..])
    else
      match Character(t)
      case None => Fail
      case Some((c, n)) =>
        match StringBody(t[n..])
        case Fail => Fail
        case Ok(more, rest) => Ok([c] + more, rest)
  }

  function AfterDigits(t: Text): (r: Text)
    ensures |r| <= |t|
  {
    if t != [] && IsDigit(t[0]) then AfterDigits(t[1..]) else t
  }

  /** The optional fraction and exponent: taken only when they have a digit. */
  function AfterFraction(t: Text): (r: Text)
    ensures |r| <= |t|
  {
    if |t| >= 2 && t[0] == DOT && IsDigit(t[1]) then AfterDigits(t[1..]) else t
  }

  function AfterExponent(t: Text): (r: Text)
    ensures |r| <= |t|
  {
    if t == [] || (t[0] != 101 && t[0] != 69) then t
    else
      var digits := if |t| >= 2 && (t[1] == 43 || t[1] == DASH) then t[2..] else t[1..];
      if digits != [] && IsDigit(digits[0]) then AfterDigits(digits) else t
  }

  function Number(t: Text): (r: Parsed<Value>)
    ensures r.Ok? ==> |r.rest| < |t|
  {
    var digits := if t != [] && t[0] == DASH then t[1..] else t;
    if digits == [] || !IsDigit(digits[0]) then Fail
    else Ok(Other, AfterExponent(AfterFraction(if digits[0] == 48 then digits[1..] else AfterDigits(digits))))
  }

  predicate Begins(t: Text, word: Text) { |word| <= |t| && t[..|word|] == word }

  const NULL: Text := [110, 117, 108, 108]
  const TRUE: Text := [116, 114, 117, 101]
  const FALSE: Text := [102, 97, 108, 115, 101]
  const NAN: Text := [78, 97, 78]
  const INFINITY: Text := [73, 110, 102, 105, 110, 105, 116, 121]
  const MINUS_INFINITY: Text := [45, 73, 110, 102, 105, 110, 105, 116, 121]

  function Word(t: Text): (r: Parsed<Value>)
    ensures r.Ok? ==> |r.rest| < |t|
  {
    if Begins(t, NULL) then Ok(Other, t[4..])
    else if Begins(t, TRUE) then Ok(True, t[4..])
    else if Begins(t, FALSE) then Ok(Other, t[5..])
    else if Begins(t, NAN) then Ok(Other, t[3..])
    else if Begins(t, INFINITY) then Ok(Other, t[8..])
    else if Begins(t, MINUS_INFINITY) then Ok(Other, t[9..])
    else Fail
  }

  /** raw_decode: the value at the very front of the text. */
  function Decode(t: Text): (r: Parsed<Value>)
    ensures r.Ok? ==> |r.rest| < |t|
    decreases |t|, 0
  {
    if t == [] then Fail
    else if t[0] == QUOTE then
      (match StringBody(t[1..]) case Fail => Fail case Ok(s, rest) => Ok(Str(s), rest))
    else if t[0] == OPEN_DICT then
      var body := Skip(t[1..], false);
      if body != [] && body[0] == CLOSE_DICT then Ok(Dict([]), body[1..])
      else (match Members(body) case Fail => Fail case Ok(members, rest) => Ok(Dict(members), rest))
    else if t[0] == OPEN_LIST then
      var body := Skip(t[1..], false);
      if body != [] && body[0] == CLOSE_LIST then Ok(List([]), body[1..])
      else (match Items(body, false) case Fail => Fail case Ok(items, rest) => Ok(List(items), rest))
    else if Number(t).Ok? then Number(t)
    else Word(t)
  }

  /** What follows an item: a comma and the next item, the end of the container, or neither. */
  datatype Separator = More(rest: Text) | End(rest: Text) | Neither

  function Separate(t: Text, close: int, loose: bool): (r: Separator)
    ensures !r.Neither? ==> |r.rest| < |t|
  {
    var end := Skip(t, loose);
    if end == [] then Neither
    else if end[0] == close then End(end[1..])
    else if end[0] == COMMA then More(Skip(end[1..], loose))
    else Neither
  }

  /** A key and a colon. */
  function Key(t: Text): (r: Parsed<Text>)
    ensures r.Ok? ==> |r.rest| < |t|
  {
    if t == [] || t[0] != QUOTE then Fail
    else
      match StringBody(t[1..])
      case Fail => Fail
      case Ok(key, after) =>
        var colon := Skip(after, false);
        if colon != [] && colon[0] == COLON then Ok(key, Skip(colon[1..], false)) else Fail
  }

  function Member(t: Text): (r: Parsed<(Text, Value)>)
    ensures r.Ok? ==> |r.rest| < |t|
    decreases |t|, 1
  {
    match Key(t)
    case Fail => Fail
    case Ok(key, after) =>
      match Decode(after) case Fail => Fail case Ok(value, rest) => Ok((key, value), rest)
  }

  /** Members of an object from the first key on, up to and with the closing brace. */
  function Members(t: Text): (r: Parsed<seq<(Text, Value)>>)
    ensures r.Ok? ==> |r.rest| < |t|
    decreases |t|, 2
  {
    match Member(t)
    case Fail => Fail
    case Ok(member, after) =>
      match Separate(after, CLOSE_DICT, false)
      case Neither => Fail
      case End(rest) => Ok([member], rest)
      case More(next) => (match Members(next) case Fail => Fail case Ok(more, rest) => Ok([member] + more, rest))
  }

  /** Items of an array from the first value on, up to and with the closing bracket. */
  function Items(t: Text, loose: bool): (r: Parsed<seq<Value>>)
    ensures r.Ok? ==> |r.rest| < |t|
    decreases |t|, 2
  {
    match Decode(t)
    case Fail => Fail
    case Ok(value, after) =>
      match Separate(after, CLOSE_LIST, loose)
      case Neither => Fail
      case End(rest) => Ok([value], rest)
      case More(next) => (match Items(next, loose) case Fail => Fail case Ok(more, rest) => Ok([value] + more, rest))
  }

  // ----------------------------------------------- more text does not change a value

  lemma {:induction false} SkipAppend(t: Text, x: Text, loose: bool)
    ensures Skip(t, loose) != [] ==> Skip(t + x, loose) == Skip(t, loose) + x
    ensures Skip(Skip(t, loose) + x, loose) == Skip(t + x, loose)
    decreases |t|
  {
    if t == [] {
      assert t + x == x;
    } else {
      assert (t + x)[1..] == t[1..] + x;
      SkipAppend(t[1..], x, loose);
    }
  }

  /** A character is decided when the text goes on after it, by two characters if by an escape. */
  lemma CharacterAppend(t: Text, x: Text)
    requires Character(t).Some?
    requires var after := t[Character(t).value.1..]; after != [] && (after[0] == BACKSLASH ==> 2 <= |after|)
    ensures Character(t + x) == Character(t)
  {
    assert forall i | 0 <= i < |t| :: (t + x)[i] == t[i];
    if Character(t).value.1 == 6 {
      assert t[6..][0] == t[6];
    }
  }

  /** A string body that can be read has a character left, and two where an escape begins. */
  lemma StringGoesOn(t: Text)
    requires StringBody(t).Ok?
    ensures t != [] && (t[0] == BACKSLASH ==> 2 <= |t|)
  {
  }

  lemma {:induction false} StringAppend(t: Text, x: Text)
    requires StringBody(t).Ok?
    ensures StringBody(t + x) == Ok(StringBody(t).value, StringBody(t).rest + x)
    decreases |t|
  {
    StringGoesOn(t);
    assert (t + x)[0] == t[0];
    if t[0] == QUOTE {
      assert (t + x)[1..] == t[1..] + x;
    } else {
      var n := Character(t).value.1;
      var after := t[n..];
      assert StringBody(after).Ok?;
      StringGoesOn(after);
      CharacterAppend(t, x);
      StringAppend(after, x);
      assert (t + x)[n..] == after + x;
    }
  }

  predicate NumberCharacter(c: int) { IsDigit(c) || c == DOT || c == 101 || c == 69 }

  /** The rest of a number is settled once it goes on with a character that no number contains. */
  predicate Settled(rest: Text) { rest != [] && !NumberCharacter(rest[0]) }

  lemma {:induction false} DigitsAppend(t: Text, x: Text)
    ensures AfterDigits(t) != [] ==> AfterDigits(t + x) == AfterDigits(t) + x
    decreases |t|
  {
    if t != [] {
      assert (t + x)[1..] == t[1..] + x;
      DigitsAppend(t[1..], x);
    }
  }

  lemma {:induction false} DigitsShrink(t: Text)
    ensures AfterDigits(t) != [] ==> t != [] && !IsDigit(AfterDigits(t)[0])
    decreases |t|
  {
    if t != [] {
      DigitsShrink(t[1..]);
    }
  }

  lemma ExponentAppend(t: Text, x: Text)
    requires Settled(AfterExponent(t))
    ensures AfterExponent(t + x) == AfterExponent(t) + x
  {
    if t[0] == 101 || t[0] == 69 {
      var digits := if |t| >= 2 && (t[1] == 43 || t[1] == DASH) then t[2..] else t[1..];
      DigitsAppend(digits, x);
      assert (t + x)[1..] == t[1..] + x && (|t| >= 2 ==> (t + x)[2..] == t[2..] + x);
    }
  }

  lemma FractionAppend(t: Text, x: Text)
    requires Settled(AfterExponent(AfterFraction(t)))
    ensures AfterFraction(t + x) == AfterFraction(t) + x
  {
    assert AfterFraction(t) != [];
    if |t| >= 2 && t[0] == DOT && IsDigit(t[1]) {
      DigitsAppend(t[1..], x);
      assert (t + x)[1..] == t[1..] + x;
    }
  }

  lemma NumberAppend(t: Text, x: Text)
    requires Number(t).Ok? && Settled(Number(t).rest)
    ensures Number(t + x) == Ok(Other, Number(t).rest + x)
  {
    var digits := if t[0] == DASH then t[1..] else t;
    var whole := if digits[0] == 48 then digits[1..] else AfterDigits(digits);
    assert t[0] == DASH ==> (t + x)[1..] == t[1..] + x;
    assert (digits + x)[1..] == digits[1..] + x;
    assert whole != [];
    DigitsAppend(digits, x);
    FractionAppend(whole, x);
    ExponentAppend(AfterFraction(whole), x);
  }

  lemma NumberStays(t: Text, x: Text)
    requires Number(t).Ok?
    ensures Number(t + x).Ok? && Number(t + x).value == Other
  {
  }

  lemma BeginsAppend(t: Text, x: Text, word: Text)
    requires Begins(t, word)
    ensures Begins(t + x, word) && (t + x)[|word|..] == t[|word|..] + x
  {
    assert (t + x)[..|word|] == t[..|word|];
  }

  lemma WordAppend(t: Text, x: Text)
    requires Word(t).Ok?
    ensures Number(t).Fail? && Number(t + x).Fail?
    ensures Word(t + x) == Ok(Word(t).value, Word(t).rest + x)
  {
    var word := if Begins(t, NULL) then NULL else if Begins(t, TRUE) then TRUE else if Begins(t, FALSE) then FALSE
      else if Begins(t, NAN) then NAN else if Begins(t, INFINITY) then INFINITY else MINUS_INFINITY;
    BeginsAppend(t, x, word);
    assert t[..|word|][0] == t[0] && (t + x)[..|word|][0] == (t + x)[0];
    assert t[..|word|][1] == t[1] && (t + x)[..|word|][1] == (t + x)[1];
  }

  /** A value that is complete in a text stays the same when the text grows: any value but a number that may go on. */
  lemma {:induction false} DecodeAppend(t: Text, x: Text)
    requires Decode(t).Ok? && (Decode(t).value.Other? ==> Settled(Decode(t).rest))
    ensures Decode(t + x) == Ok(Decode(t).value, Decode(t).rest + x)
    decreases |t|, 0
  {
    assert (t + x)[0] == t[0] && (t + x)[1..] == t[1..] + x;
    if t[0] == QUOTE {
      StringAppend(t[1..], x);
    } else if t[0] == OPEN_DICT {
      SkipAppend(t[1..], x, false);
      var body := Skip(t[1..], false);
      if body[0] == CLOSE_DICT {
        assert (body + x)[1..] == body[1..] + x;
      } else {
        MembersAppend(body, x);
      }
    } else if t[0] == OPEN_LIST {
      SkipAppend(t[1..], x, false);
      var body := Skip(t[1..], false);
      if body[0] == CLOSE_LIST {
        assert (body + x)[1..] == body[1..] + x;
      } else {
        ItemsAppend(body, x, false);
      }
    } else if Number(t).Ok? {
      NumberAppend(t, x);
    } else {
      WordAppend(t, x);
    }
  }

  /** A separator is decided once it is there, and then the value before it was settled. */
  lemma SeparateAppend(t: Text, x: Text, close: int, loose: bool)
    requires close == CLOSE_LIST || close == CLOSE_DICT
    requires !Separate(t, close, loose).Neither?
    ensures Settled(t)
    ensures Separate(t, close, loose).End? ==> Separate(t + x, close, loose) == End(Separate(t, close, loose).rest + x)
    ensures Separate(t, close, loose).More? && Separate(t, close, loose).rest != [] ==>
              Separate(t + x, close, loose) == More(Separate(t, close, loose).rest + x)
  {
    var end := Skip(t, loose);
    SkipAppend(t, x, loose);
    assert (end + x)[0] == end[0] && (end + x)[1..] == end[1..] + x;
    SkipAppend(end[1..], x, loose);
  }

  lemma KeyAppend(t: Text, x: Text)
    requires Key(t).Ok? && Key(t).rest != []
    ensures Key(t + x) == Ok(Key(t).value, Key(t).rest + x)
  {
    assert (t + x)[0] == t[0] && (t + x)[1..] == t[1..] + x;
    StringAppend(t[1..], x);
    var after := StringBody(t[1..]).rest;
    SkipAppend(after, x, false);
    var colon := Skip(after, false);
    assert (colon + x)[0] == colon[0] && (colon + x)[1..] == colon[1..] + x;
    SkipAppend(colon[1..], x, false);
  }

  lemma {:induction false} MemberAppend(t: Text, x: Text)
    requires Member(t).Ok? && Settled(Member(t).rest)
    ensures Member(t + x) == Ok(Member(t).value, Member(t).rest + x)
    decreases |t|, 1
  {
    KeyAppend(t, x);
    DecodeAppend(Key(t).rest, x);
  }

  lemma {:induction false} MembersAppend(t: Text, x: Text)
    requires Members(t).Ok?
    ensures Members(t + x) == Ok(Members(t).value, Members(t).rest + x)
    decreases |t|, 2
  {
    var after := Member(t).rest;
    SeparateAppend(after, x, CLOSE_DICT, false);
    MemberAppend(t, x);
    match Separate(after, CLOSE_DICT, false) {
      case End(rest) =>
      case More(next) =>
        MembersAppend(next, x);
    }
  }

  lemma {:induction false} ItemsAppend(t: Text, x: Text, loose: bool)
    requires Items(t, loose).Ok?
    ensures Items(t + x, loose) == Ok(Items(t, loose).value, Items(t, loose).rest + x)
    decreases |t|, 2
  {
    var after := Decode(t).rest;
    SeparateAppend(after, x, CLOSE_LIST, loose);
    DecodeAppend(t, x);
    match Separate(after, CLOSE_LIST, loose) {
      case End(rest) =>
      case More(next) =>
        ItemsAppend(next, x, loose);
    }
  }

  /** Whatever follows, a text that begins with a complete value other than an object never begins with an object. */
  lemma OtherStaysOther(t: Text, x: Text)
    requires Decode(t).Ok? && !Decode(t).value.Dict?
    ensures Decode(t + x).Ok? && !Decode(t + x).value.Dict?
  {
    if Decode(t).value.Other? && Number(t).Ok? {
      NumberStays(t, x);
      assert (t + x)[0] == t[0];
    } else if Decode(t).value.Other? {
      WordAppend(t, x);
      assert (t + x)[0] == t[0];
    } else {
      DecodeAppend(t, x);
    }
  }
}

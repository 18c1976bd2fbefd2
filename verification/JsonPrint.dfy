/** Printing JSON, and reading back what was printed. */
module JsonPrint {
  import opened Text
  import opened Json

  function HexCode(n: nat): int
    requires n < 16
  {
    if n < 10 then 48 + n else 87 + n
  }

  /** One character of a string: quotes and backslashes after a backslash, control characters as \u and four digits. */
  function PrintCharacter(c: int): (t: Text)
    requires c >= 0
    ensures t != []
  {
    if c == QUOTE || c == BACKSLASH then [BACKSLASH, c]
    else if c < 32 then [BACKSLASH, 117, 48, 48, HexCode(c / 16), HexCode(c % 16)]
    else [c]
  }

  predicate IsText(t: Text) { forall i | 0 <= i < |t| :: t[i] >= 0 }

  function PrintBody(t: Text): Text
    requires IsText(t)
  {
    if t == [] then [] else PrintCharacter(t[0]) + PrintBody(t[1..])
  }

  function PrintString(t: Text): (p: Text)
    requires IsText(t)
    ensures p != []
  {
    [QUOTE] + PrintBody(t) + [QUOTE]
  }

  /** Every text in the value consists of code points. */
  predicate Printable(v: Value)
    decreases v, 0
  {
    match v
    case Str(t) => IsText(t)
    case List(items) => PrintableItems(items)
    case Dict(members) => PrintableMembers(members)
    case _ => true
  }

  predicate PrintableItems(items: seq<Value>)
    decreases items, 1
  {
    items != [] ==> Printable(items[0]) && PrintableItems(items[1..])
  }

  predicate PrintableMembers(members: seq<(Text, Value)>)
    decreases members, 2
  {
    members != [] ==> PrintableMember(members[0]) && PrintableMembers(members[1..])
  }

  predicate PrintableMember(member: (Text, Value))
    decreases member, 1
  {
    IsText(member.0) && Printable(member.1)
  }

  /** What is neither an object, an array, a string nor true is printed as null. */
  function Print(v: Value): (p: Text)
    requires Printable(v)
    ensures p != []
    decreases v, 0
  {
    match v
    case Str(t) => PrintString(t)
    case True => TRUE
    case Other => NULL
    case List(items) => [OPEN_LIST] + PrintItems(items) + [CLOSE_LIST]
    case Dict(members) => [OPEN_DICT] + PrintMembers(members) + [CLOSE_DICT]
  }

  function PrintItems(items: seq<Value>): Text
    requires PrintableItems(items)
    decreases items, 1
  {
    if items == [] then []
    else Print(items[0]) + if |items| == 1 then [] else [COMMA] + PrintItems(items[1..])
  }

  function PrintMembers(members: seq<(Text, Value)>): Text
    requires PrintableMembers(members)
    decreases members, 2
  {
    if members == [] then []
    else PrintMember(members[0]) + if |members| == 1 then [] else [COMMA] + PrintMembers(members[1..])
  }

  function PrintMember(member: (Text, Value)): (p: Text)
    requires PrintableMember(member)
    ensures p != [] && p[0] == QUOTE
    decreases member, 1
  {
    PrintString(member.0) + ([COLON] + Print(member.1))
  }

  // -------------------------------------------------------------------- strings

  lemma HexReads(n: nat)
    requires n < 16
    ensures HexDigit(HexCode(n)) == Some(n)
  {
  }

  lemma CharacterReads(c: int, x: Text)
    requires c >= 0
    ensures Character(PrintCharacter(c) + x) == Some((c, |PrintCharacter(c)|))
    ensures (PrintCharacter(c) + x)[0] != QUOTE && (PrintCharacter(c) + x)[|PrintCharacter(c)|..] == x
  {
    var p := PrintCharacter(c);
    assert forall i | 0 <= i < |p| :: (p + x)[i] == p[i];
    if c < 32 && c != QUOTE && c != BACKSLASH {
      HexReads(c / 16);
      HexReads(c % 16);
      assert HexDigit(48) == Some(0);
      assert Hex4(p + x, 2) == Some(c);
    }
  }

  lemma {:induction false} StringReads(t: Text, x: Text)
    requires IsText(t)
    ensures StringBody(PrintBody(t) + ([QUOTE] + x)) == Ok(t, x)
    decreases |t|
  {
    if t == [] {
      assert PrintBody(t) + ([QUOTE] + x) == [QUOTE] + x;
      assert ([QUOTE] + x)[1..] == x;
    } else {
      var rest := PrintBody(t[1..]) + ([QUOTE] + x);
      assert PrintBody(t) + ([QUOTE] + x) == PrintCharacter(t[0]) + rest;
      CharacterReads(t[0], rest);
      StringReads(t[1..], x);
      assert t == [t[0]] + t[1..];
    }
  }

  // --------------------------------------------------------------------- values

  /** The text does not begin with a space, as no printed part does. */
  lemma NothingSkipped(t: Text, loose: bool)
    requires t != [] && !PythonSpace(t[0])
    ensures Skip(t, loose) == t
  {
  }

  lemma PrintStarts(v: Value)
    requires Printable(v)
    ensures !PythonSpace(Print(v)[0]) && Print(v)[0] != CLOSE_LIST && Print(v)[0] != CLOSE_DICT
  {
  }

  lemma WordReads(x: Text)
    ensures Decode(TRUE + x) == Ok(True, x) && Decode(NULL + x) == Ok(Other, x)
  {
    assert (TRUE + x)[..4] == TRUE && (TRUE + x)[4..] == x;
    assert (NULL + x)[..4] == NULL && (NULL + x)[4..] == x;
    assert NULL[0] == 110;
    assert !Begins(TRUE + x, NULL);
  }

  lemma KeyReads(key: Text, x: Text)
    requires IsText(key) && x != [] && !PythonSpace(x[0])
    ensures Key(PrintString(key) + ([COLON] + x)) == Ok(key, x)
  {
    var all := PrintString(key) + ([COLON] + x);
    assert all == [QUOTE] + (PrintBody(key) + ([QUOTE] + ([COLON] + x)));
    assert all[1..] == PrintBody(key) + ([QUOTE] + ([COLON] + x));
    StringReads(key, [COLON] + x);
    NothingSkipped([COLON] + x, false);
    assert ([COLON] + x)[1..] == x;
    NothingSkipped(x, false);
  }

  lemma SeparatorReads(close: int, x: Text, loose: bool)
    requires close == CLOSE_LIST || close == CLOSE_DICT
    ensures Separate([close] + x, close, loose) == End(x)
    ensures x != [] && !PythonSpace(x[0]) ==> Separate([COMMA] + x, close, loose) == More(x)
  {
    NothingSkipped([close] + x, loose);
    NothingSkipped([COMMA] + x, loose);
    assert ([close] + x)[1..] == x && ([COMMA] + x)[1..] == x;
    if x != [] && !PythonSpace(x[0]) {
      NothingSkipped(x, loose);
    }
  }

  /** Reading undoes printing: what was printed is read back as the value, and what follows is left. */
  lemma {:induction false} PrintedIsRead(v: Value, x: Text)
    requires Printable(v)
    ensures Decode(Print(v) + x) == Ok(v, x)
    decreases v, 0
  {
    match v {
      case Str(t) =>
        assert Print(v) + x == [QUOTE] + (PrintBody(t) + ([QUOTE] + x));
        assert (Print(v) + x)[1..] == PrintBody(t) + ([QUOTE] + x);
        StringReads(t, x);
      case True => WordReads(x);
      case Other => WordReads(x);
      case List(items) => ListIsRead(items, x);
      case Dict(members) => DictIsRead(members, x);
    }
  }

  lemma {:induction false} ListIsRead(items: seq<Value>, x: Text)
    requires PrintableItems(items)
    ensures Decode(Print(List(items)) + x) == Ok(List(items), x)
    decreases items, 2
  {
    var body := PrintItems(items) + ([CLOSE_LIST] + x);
    assert Print(List(items)) + x == [OPEN_LIST] + body;
    assert ([OPEN_LIST] + body)[1..] == body;
    if items == [] {
      assert body == [CLOSE_LIST] + x && body[0] == CLOSE_LIST && ([CLOSE_LIST] + x)[1..] == x;
      NothingSkipped(body, false);
    } else {
      PrintStarts(items[0]);
      assert body[0] == Print(items[0])[0];
      NothingSkipped(body, false);
      ItemsAreRead(items, x, false);
    }
  }

  lemma {:induction false} ItemsAreRead(items: seq<Value>, x: Text, loose: bool)
    requires items != [] && PrintableItems(items)
    ensures Items(PrintItems(items) + ([CLOSE_LIST] + x), loose) == Ok(items, x)
    decreases items, 1
  {
    if |items| == 1 {
      PrintedIsRead(items[0], [CLOSE_LIST] + x);
      assert PrintItems(items) == Print(items[0]);
      SeparatorReads(CLOSE_LIST, x, loose);
      assert items == [items[0]];
    } else {
      var rest := PrintItems(items[1..]) + ([CLOSE_LIST] + x);
      assert PrintItems(items) + ([CLOSE_LIST] + x) == Print(items[0]) + ([COMMA] + rest);
      PrintedIsRead(items[0], [COMMA] + rest);
      PrintStarts(items[1]);
      assert rest[0] == Print(items[1])[0];
      SeparatorReads(CLOSE_LIST, rest, loose);
      ItemsAreRead(items[1..], x, loose);
      assert items == [items[0]] + items[1..];
    }
  }

  lemma {:induction false} DictIsRead(members: seq<(Text, Value)>, x: Text)
    requires PrintableMembers(members)
    ensures Decode(Print(Dict(members)) + x) == Ok(Dict(members), x)
    decreases members, 3
  {
    var body := PrintMembers(members) + ([CLOSE_DICT] + x);
    assert Print(Dict(members)) + x == [OPEN_DICT] + body;
    assert ([OPEN_DICT] + body)[1..] == body;
    if members == [] {
      assert body == [CLOSE_DICT] + x && body[0] == CLOSE_DICT && ([CLOSE_DICT] + x)[1..] == x;
      NothingSkipped(body, false);
    } else {
      assert body[0] == QUOTE;
      NothingSkipped(body, false);
      MembersAreRead(members, x);
    }
  }

  lemma {:induction false} MemberIsRead(member: (Text, Value), x: Text)
    requires PrintableMember(member)
    ensures Member(PrintMember(member) + x) == Ok(member, x)
    decreases member, 1
  {
    var value := Print(member.1) + x;
    assert PrintMember(member) + x == PrintString(member.0) + ([COLON] + value);
    PrintStarts(member.1);
    KeyReads(member.0, value);
    PrintedIsRead(member.1, x);
  }

  lemma MembersSplit(members: seq<(Text, Value)>, x: Text)
    requires |members| > 1 && PrintableMembers(members)
    ensures PrintMembers(members) + x == PrintMember(members[0]) + ([COMMA] + (PrintMembers(members[1..]) + x))
    ensures (PrintMembers(members[1..]) + x) != [] && (PrintMembers(members[1..]) + x)[0] == QUOTE
  {
    var first, rest := PrintMember(members[0]), PrintMembers(members[1..]);
    assert PrintMembers(members) == first + ([COMMA] + rest);
    assert rest != [] && rest[0] == PrintMember(members[1])[0];
    Regroup(first, [COMMA] + rest, x);
    Regroup([COMMA], rest, x);
  }

  lemma {:induction false} MembersAreRead(members: seq<(Text, Value)>, x: Text)
    requires members != [] && PrintableMembers(members)
    ensures Members(PrintMembers(members) + ([CLOSE_DICT] + x)) == Ok(members, x)
    decreases members, 2
  {
    if |members| == 1 {
      assert PrintMembers(members) == PrintMember(members[0]);
      MemberIsRead(members[0], [CLOSE_DICT] + x);
      SeparatorReads(CLOSE_DICT, x, false);
      assert members == [members[0]];
    } else {
      var rest := PrintMembers(members[1..]) + ([CLOSE_DICT] + x);
      MembersSplit(members, [CLOSE_DICT] + x);
      MemberIsRead(members[0], [COMMA] + rest);
      SeparatorReads(CLOSE_DICT, rest, false);
      MembersAreRead(members[1..], x);
      assert members == [members[0]] + members[1..];
    }
  }
}

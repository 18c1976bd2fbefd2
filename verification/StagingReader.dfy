/** The streaming reader of the staging listing, and the reading of the whole listing as one JSON array. */
module StagingReader {
  import opened Text
  import opened Json
  import opened StagingScan
  import Utf8

  const MAX_ENTRY := 1024 * 1024

  // --------------------------------------------------------------- the reader's state

  datatype Phase = Start | First | Item | Separator | Done

  /** The buffer drained as far as it goes, or a refusal on the way. */
  datatype State = Rejected(scan: Scan) | Reading(phase: Phase, buffer: Text, scan: Scan)

  datatype Step = Wait | Reject(scan: Scan) | Go(phase: Phase, buffer: Text, scan: Scan)

  /** One turn of the inner loop on a buffer without leading spaces. */
  function Advance(phase: Phase, t: Text, scan: Scan): (r: Step)
    requires t != []
    ensures r.Go? ==> |r.buffer| < |t|
    ensures !r.Wait? ==> scan.objects <= r.scan.objects
  {
    match phase
    case Start => if t[0] == OPEN_LIST then Go(First, t[1..], scan) else Reject(scan)
    case Separator =>
      if t[0] == COMMA then Go(Item, t[1..], scan)
      else if t[0] == CLOSE_LIST then Go(Done, t[1..], scan)
      else Reject(scan)
    case Done => Reject(scan)
    case _ =>
      if phase.First? && t[0] == CLOSE_LIST then Go(Done, t[1..], scan)
      else
        match Decode(t)
        case Fail => Wait
        case Ok(item, rest) =>
          match Count(scan, item)
          case Refused(s) => Reject(s)
          case Goes(next) => Go(Separator, rest, next)
  }

  /** The inner loop: as far as the buffer goes. */
  function Drain(phase: Phase, buffer: Text, scan: Scan): (r: State)
    ensures r.Reading? ==> |r.buffer| <= |buffer|
    ensures scan.objects <= r.scan.objects
    decreases |buffer|
  {
    var t := Skip(buffer, true);
    if t == [] then Reading(phase, [], scan)
    else
      match Advance(phase, t, scan)
      case Wait => Reading(phase, t, scan)
      case Reject(s) => Rejected(s)
      case Go(p, rest, next) => Drain(p, rest, next)
  }

  lemma AdvanceAppend(phase: Phase, t: Text, x: Text, scan: Scan)
    requires t != [] && !Advance(phase, t, scan).Wait?
    ensures Advance(phase, t, scan).Reject? ==> Advance(phase, t + x, scan) == Advance(phase, t, scan)
    ensures Advance(phase, t, scan).Go? ==>
      Advance(phase, t + x, scan) == Go(Advance(phase, t, scan).phase, Advance(phase, t, scan).buffer + x,
          Advance(phase, t, scan).scan)
  {
    assert (t + x)[0] == t[0] && (t + x)[1..] == t[1..] + x;
    if (phase.First? || phase.Item?) && !(phase.First? && t[0] == CLOSE_LIST) {
      if Decode(t).value.Dict? {
        DecodeAppend(t, x);
      } else {
        OtherStaysOther(t, x);
      }
    }
  }

  /** Draining a buffer, then going on with more text, is draining it all at once. */
  lemma {:induction false} DrainInParts(phase: Phase, buffer: Text, x: Text, scan: Scan)
    ensures Drain(phase, buffer + x, scan) ==
      (match Drain(phase, buffer, scan) case Rejected(s) => Rejected(s) case Reading(p, b, s) => Drain(p, b + x, s))
    decreases |buffer|
  {
    var t := Skip(buffer, true);
    SkipAppend(buffer, x, true);
    if t == [] {
      assert [] + x == x;
    } else if Advance(phase, t, scan).Wait? {
    } else {
      AdvanceAppend(phase, t, x, scan);
      if Advance(phase, t, scan).Go? {
        DrainInParts(Advance(phase, t, scan).phase, Advance(phase, t, scan).buffer, x, Advance(phase, t, scan).scan);
      }
    }
  }

  // --------------------------------------------------------------- one array

  /** The text as one array with nothing else around it; `loose` says which spaces may stand between its parts. */
  function WholeArray(t: Text, loose: bool): Option<seq<Value>> {
    var front := Skip(t, loose);
    if front == [] || front[0] != OPEN_LIST then None
    else
      var body := Skip(front[1..], loose);
      if body != [] && body[0] == CLOSE_LIST then if Skip(body[1..], loose) == [] then Some([]) else None
      else
        match Items(body, loose)
        case Fail => None
        case Ok(items, rest) => if Skip(rest, loose) == [] then Some(items) else None
  }

  /** json.loads, when it gives a list: sections 4 and 5 of RFC 8259, in Python's reading of JSON. */
  function Loads(t: Text): Option<seq<Value>> {
    match Decode(Skip(t, false))
    case Fail => None
    case Ok(value, rest) => if value.List? && Skip(rest, false) == [] then Some(value.items) else None
  }

  lemma LoadsIsWholeArray(t: Text)
    ensures Loads(t) == WholeArray(t, false)
  {
    var front := Skip(t, false);
    if front != [] && front[0] != OPEN_LIST && Decode(front).Ok? {
      assert !Decode(front).value.List?;
    }
  }

  function Accepted(s: State): Option<Scan> {
    if s.Reading? && s.phase.Done? && s.buffer == [] then Some(s.scan) else None
  }

  function CountLoaded(items: Option<seq<Value>>): Option<Scan> {
    match items case None => None case Some(values) => CountAll(EMPTY, values)
  }

  lemma DrainDone(rest: Text, scan: Scan)
    ensures Accepted(Drain(Done, rest, scan)) == if Skip(rest, true) == [] then Some(scan) else None
  {
  }

  lemma SkipTwice(t: Text, loose: bool)
    ensures Skip(Skip(t, loose), loose) == Skip(t, loose)
  {
  }

  /** From the first item on, the reader counts what the array parser lists. */
  lemma {:induction false} DrainIsItems(phase: Phase, t: Text, scan: Scan)
    requires phase.Item? || (phase.First? && t != [] && t[0] != CLOSE_LIST)
    requires Skip(t, true) == t
    ensures Accepted(Drain(phase, t, scan)) ==
      (match Items(t, true)
       case Fail => None
       case Ok(items, rest) => if Skip(rest, true) == [] then CountAll(scan, items) else None)
    decreases |t|
  {
    if t != [] && Decode(t).Ok? && Count(scan, Decode(t).value).Goes? {
      var after, next := Decode(t).rest, Count(scan, Decode(t).value).scan;
      assert Drain(phase, t, scan) == Drain(Separator, after, next);
      var end := Skip(after, true);
      if end != [] && end[0] == COMMA {
        SkipTwice(end[1..], true);
        assert Drain(Separator, after, next) == Drain(Item, end[1..], next);
        assert Drain(Item, end[1..], next) == Drain(Item, Skip(end[1..], true), next);
        DrainIsItems(Item, Skip(end[1..], true), next);
      } else if end != [] && end[0] == CLOSE_LIST {
        DrainDone(end[1..], next);
      }
    }
  }

  /** Draining a whole text accepts what the array parser with Python's spaces accepts, and counts the same. */
  lemma DrainIsArray(t: Text)
    ensures Accepted(Drain(Start, t, EMPTY)) == CountLoaded(WholeArray(t, true))
  {
    var front := Skip(t, true);
    if front != [] && front[0] == OPEN_LIST {
      var body := Skip(front[1..], true);
      SkipTwice(front[1..], true);
      assert Drain(Start, t, EMPTY) == Drain(First, front[1..], EMPTY) == Drain(First, body, EMPTY);
      if body != [] && body[0] == CLOSE_LIST {
        DrainDone(body[1..], EMPTY);
      } else if body != [] {
        DrainIsItems(First, body, EMPTY);
      }
    }
  }

  // ------------------------------------------------------- Python's spaces and JSON's

  lemma {:induction false} StrictSkip(t: Text)
    ensures Skip(t, false) != [] && !PythonSpace(Skip(t, false)[0]) ==> Skip(t, true) == Skip(t, false)
    ensures Skip(t, false) == [] ==> Skip(t, true) == []
  {
    if t != [] && JsonSpace(t[0]) {
      StrictSkip(t[1..]);
    }
  }

  /** The gap in front of `t` holds only spaces that JSON knows. */
  predicate PlainGap(t: Text) { Skip(t, false) == Skip(t, true) }

  /** All gaps between the parts of the array do, from its first item on. */
  predicate PlainGaps(t: Text)
    decreases |t|
  {
    Decode(t).Ok? ==>
      var after := Decode(t).rest;
      && PlainGap(after)
      && var end := Skip(after, true);
         if end != [] && end[0] == COMMA then PlainGap(end[1..]) && PlainGaps(Skip(end[1..], true))
         else end != [] ==> PlainGap(end[1..])
  }

  predicate PlainArray(t: Text) {
    PlainGap(t)
    && var front := Skip(t, true);
       front != [] ==>
         && PlainGap(front[1..])
         && var body := Skip(front[1..], true);
            if body != [] && body[0] == CLOSE_LIST then PlainGap(body[1..]) else PlainGaps(body)
  }

  lemma {:induction false} StrictItems(t: Text)
    ensures Items(t, false).Ok? ==> Items(t, true) == Items(t, false)
    ensures Items(t, true).Ok? && PlainGaps(t) ==> Items(t, false) == Items(t, true) && PlainGap(Items(t, true).rest)
    ensures Items(t, false).Ok? && PlainGap(Items(t, false).rest) ==> PlainGaps(t)
    decreases |t|
  {
    if Decode(t).Ok? {
      var after := Decode(t).rest;
      StrictSkip(after);
      var strict, loose := Skip(after, false), Skip(after, true);
      if strict != [] && strict[0] == COMMA {
        StrictSkip(strict[1..]);
        ValueIsNoSpace(Skip(strict[1..], false));
        StrictItems(Skip(strict[1..], false));
      }
      if strict == loose && loose != [] && loose[0] == COMMA && PlainGap(loose[1..]) {
        StrictItems(Skip(loose[1..], true));
      }
    }
  }

  lemma BeginsWith(t: Text, word: Text)
    requires word != [] && Begins(t, word)
    ensures t[0] == word[0]
  {
    assert t[..|word|][0] == t[0];
  }

  lemma ValueIsNoSpace(t: Text)
    ensures t != [] && PythonSpace(t[0]) ==> Decode(t).Fail?
  {
    if t != [] && PythonSpace(t[0]) && Word(t).Ok? {
      var word := if Begins(t, NULL) then NULL else if Begins(t, TRUE) then TRUE else if Begins(t, FALSE) then FALSE
        else if Begins(t, NAN) then NAN else if Begins(t, INFINITY) then INFINITY else MINUS_INFINITY;
      BeginsWith(t, word);
    }
  }

  /** Equal to one JSON array: whatever json.loads reads as a list, the reader reads the same; and a text that the
    reader's array grammar admits is a JSON text exactly if its gaps hold JSON spaces only. */
  lemma ReaderAndJson(t: Text)
    ensures Loads(t).Some? ==> Accepted(Drain(Start, t, EMPTY)) == CountLoaded(Loads(t))
    ensures WholeArray(t, true).Some? ==> (Loads(t).Some? <==> PlainArray(t))
    ensures Loads(t).None? && Accepted(Drain(Start, t, EMPTY)).Some? ==> !PlainArray(t)
  {
    DrainIsArray(t);
    LoadsIsWholeArray(t);
    StrictSkip(t);
    var front := Skip(t, false);
    if front != [] {
      StrictSkip(front[1..]);
      var body := Skip(front[1..], false);
      ValueIsNoSpace(body);
      StrictItems(body);
      if body != [] {
        StrictSkip(body[1..]);
      }
      if Items(body, false).Ok? {
        StrictSkip(Items(body, false).rest);
      }
    }
  }

  // ------------------------------------------------------------------- the bytes

  /** The reader between two reads of the process's output. */
  datatype Reader = Stopped(scan: Scan) | Running(pending: seq<Utf8.Byte>, phase: Phase, buffer: Text, scan: Scan)

  const BEGIN := Running([], Start, [], EMPTY)

  /** One read: decode what is complete, drain, and look at what is left over. */
  function Feed(r: Reader, chunk: seq<Utf8.Byte>): (next: Reader)
    ensures r.scan.objects <= next.scan.objects
  {
    if r.Stopped? then r
    else
      match Utf8.Decode(r.pending + chunk)
      case Bad => Stopped(r.scan)
      case Decoded(text, pending) =>
        match Drain(r.phase, r.buffer + text, r.scan)
        case Rejected(scan) => Stopped(scan)
        case Reading(phase, buffer, scan) =>
          if |buffer| > MAX_ENTRY then Stopped(scan) else Running(pending, phase, buffer, scan)
  }

  function FeedAll(r: Reader, chunks: seq<seq<Utf8.Byte>>): Reader {
    if chunks == [] then r else Feed(FeedAll(r, chunks[..|chunks| - 1]), chunks[|chunks| - 1])
  }

  /** The read that finds the end: nothing may be pending, in the decoder, the buffer or the array. */
  function Finish(r: Reader, exit: int): Outcome {
    if r.Stopped? || r.pending != [] then Refused(r.scan)
    else
      match Drain(r.phase, r.buffer, r.scan)
      case Rejected(scan) => Refused(scan)
      case Reading(phase, buffer, scan) =>
        if |buffer| > MAX_ENTRY || !phase.Done? || Skip(buffer, true) != [] || exit != 0
        then Refused(scan) else Goes(scan)
  }

  function ReadAll(chunks: seq<seq<Utf8.Byte>>, exit: int): Outcome { Finish(FeedAll(BEGIN, chunks), exit) }

  function Concat(chunks: seq<seq<Utf8.Byte>>): seq<Utf8.Byte> {
    if chunks == [] then [] else Concat(chunks[..|chunks| - 1]) + chunks[|chunks| - 1]
  }

  /** The reading of the whole output at once. */
  function ReadWhole(bytes: seq<Utf8.Byte>, exit: int): Option<Scan> {
    match Utf8.Decode(bytes)
    case Bad => None
    case Decoded(text, pending) => if pending != [] || exit != 0 then None else CountLoaded(WholeArray(text, true))
  }

  /** How much of an unfinished entry is left over after these bytes. */
  function LeftOver(bytes: seq<Utf8.Byte>): nat {
    match Utf8.Decode(bytes)
    case Bad => 0
    case Decoded(text, _) =>
      match Drain(Start, text, EMPTY)
      case Rejected(_) => 0
      case Reading(_, buffer, _) => |buffer|
  }

  /** The reader that has no limit on what is left over, unless it refuses. */
  function Unlimited(bytes: seq<Utf8.Byte>): Option<Reader> {
    match Utf8.Decode(bytes)
    case Bad => None
    case Decoded(text, pending) =>
      match Drain(Start, text, EMPTY)
      case Rejected(_) => None
      case Reading(phase, buffer, scan) => Some(Running(pending, phase, buffer, scan))
  }

  /** Reading on from where the unlimited reader stands. */
  lemma UnlimitedInParts(a: seq<Utf8.Byte>, b: seq<Utf8.Byte>)
    ensures Unlimited(a).None? ==> Unlimited(a + b).None?
    ensures Unlimited(a).Some? ==>
      var next := Feed(Unlimited(a).value, b);
      && (next.Running? <==> Unlimited(a + b).Some? && LeftOver(a + b) <= MAX_ENTRY)
      && (Unlimited(a + b).Some? ==>
          next.scan == Unlimited(a + b).value.scan && (next.Running? ==> next == Unlimited(a + b).value))
  {
    Utf8.DecodeInParts(a, b);
    if Utf8.Decode(a).Decoded? {
      var text, pending := Utf8.Decode(a).text, Utf8.Decode(a).pending;
      if Utf8.Decode(pending + b).Decoded? {
        DrainInParts(Start, text, Utf8.Decode(pending + b).text, EMPTY);
      }
    }
  }

  /** No read ends with more than the entry limit left over. */
  predicate Within(chunks: seq<seq<Utf8.Byte>>) {
    LeftOver(Concat(chunks)) <= MAX_ENTRY && (chunks != [] ==> Within(chunks[..|chunks| - 1]))
  }

  lemma {:induction false} FeedAllIsUnlimited(chunks: seq<seq<Utf8.Byte>>)
    ensures FeedAll(BEGIN, chunks).Running? <==> Within(chunks) && Unlimited(Concat(chunks)).Some?
    ensures FeedAll(BEGIN, chunks).Running? ==> FeedAll(BEGIN, chunks) == Unlimited(Concat(chunks)).value
    decreases |chunks|
  {
    if chunks != [] {
      var n := |chunks| - 1;
      FeedAllIsUnlimited(chunks[..n]);
      UnlimitedInParts(Concat(chunks[..n]), chunks[n]);
    }
  }

  /** Chunk independence, exactly: however the output is cut into reads, the reader accepts, with the same objects and
    counters, what it accepts in one piece, unless some read ends with more than the entry limit left over. */
  lemma ReadsDoNotMatter(chunks: seq<seq<Utf8.Byte>>, exit: int)
    ensures Result(ReadAll(chunks, exit)) == if Within(chunks) then ReadWhole(Concat(chunks), exit) else None
  {
    FeedAllIsUnlimited(chunks);
    var bytes := Concat(chunks);
    if Within(chunks) && Utf8.Decode(bytes).Decoded? {
      var text := Utf8.Decode(bytes).text;
      DrainInParts(Start, text, [], EMPTY);
      assert text + [] == text;
      DrainIsArray(text);
      if Drain(Start, text, EMPTY).Reading? {
        var b := Drain(Start, text, EMPTY).buffer;
        assert b + [] == b;
      }
    }
  }

  /** Two ways to cut the same output agree if no beginning of it leaves more than the limit over. */
  lemma SameForEveryCut(chunks: seq<seq<Utf8.Byte>>, others: seq<seq<Utf8.Byte>>, exit: int)
    requires Concat(chunks) == Concat(others)
    requires forall n | 0 <= n <= |Concat(chunks)| :: LeftOver(Concat(chunks)[..n]) <= MAX_ENTRY
    ensures Result(ReadAll(chunks, exit)) == Result(ReadAll(others, exit)) == ReadWhole(Concat(chunks), exit)
  {
    ReadsDoNotMatter(chunks, exit);
    ReadsDoNotMatter(others, exit);
    CutsArePrefixes(chunks, Concat(chunks));
    CutsArePrefixes(others, Concat(chunks));
  }

  lemma {:induction false} ConcatPrefix(chunks: seq<seq<Utf8.Byte>>, k: nat)
    requires k <= |chunks|
    ensures Concat(chunks[..k]) <= Concat(chunks)
    decreases |chunks|
  {
    if k == |chunks| {
      assert chunks[..k] == chunks;
    } else {
      ConcatPrefix(chunks[..|chunks| - 1], k);
      assert chunks[..|chunks| - 1][..k] == chunks[..k];
    }
  }

  lemma {:induction false} CutsArePrefixes(chunks: seq<seq<Utf8.Byte>>, bytes: seq<Utf8.Byte>)
    requires Concat(chunks) <= bytes && forall n | 0 <= n <= |bytes| :: LeftOver(bytes[..n]) <= MAX_ENTRY
    ensures Within(chunks)
    decreases |chunks|
  {
    assert bytes[..|Concat(chunks)|] == Concat(chunks);
    if chunks != [] {
      CutsArePrefixes(chunks[..|chunks| - 1], bytes);
    }
  }

  lemma {:induction false} WithinEarlier(chunks: seq<seq<Utf8.Byte>>, k: nat)
    requires Within(chunks) && k <= |chunks|
    ensures LeftOver(Concat(chunks[..k])) <= MAX_ENTRY
    decreases |chunks|
  {
    if k == |chunks| {
      assert chunks[..k] == chunks;
    } else {
      WithinEarlier(chunks[..|chunks| - 1], k);
      assert chunks[..|chunks| - 1][..k] == chunks[..k];
    }
  }

  /** A listing that json.loads reads as a list is counted as that list, however it is cut, if it ends with exit code
    0. */
  lemma ListingIsRead(chunks: seq<seq<Utf8.Byte>>, text: Text)
    requires Utf8.Decode(Concat(chunks)) == Utf8.Decoded(text, []) && Loads(text).Some? && Within(chunks)
    ensures Result(ReadAll(chunks, 0)) == CountLoaded(Loads(text))
  {
    ReadsDoNotMatter(chunks, 0);
    ReaderAndJson(text);
    DrainIsArray(text);
  }

  lemma LeftOverGrowsSlowly(a: seq<Utf8.Byte>, b: seq<Utf8.Byte>)
    ensures LeftOver(a + b) <= LeftOver(a) + |b| + 3
  {
    Utf8.DecodeInParts(a, b);
    if Utf8.Decode(a).Decoded? {
      var text, pending := Utf8.Decode(a).text, Utf8.Decode(a).pending;
      Utf8.DecodeShrinks(a);
      if Utf8.Decode(pending + b).Decoded? {
        Utf8.DecodeShrinks(pending + b);
        DrainInParts(Start, text, Utf8.Decode(pending + b).text, EMPTY);
      }
    }
  }

  /** The last read that ends at or before byte `n`. */
  lemma {:induction false} ReadBefore(chunks: seq<seq<Utf8.Byte>>, size: nat, n: nat) returns (k: nat)
    requires (forall c | c in chunks :: |c| <= size) && n <= |Concat(chunks)|
    ensures k <= |chunks| && Concat(chunks[..k]) <= Concat(chunks)[..n] && n <= |Concat(chunks[..k])| + size
    decreases |chunks|
  {
    ConcatPrefix(chunks, |chunks|);
    if n == |Concat(chunks)| {
      k := |chunks|;
      assert chunks[..k] == chunks;
    } else {
      var front := chunks[..|chunks| - 1];
      if n < |Concat(front)| {
        k := ReadBefore(front, size, n);
        assert front[..k] == chunks[..k];
        assert Concat(chunks)[..n] == Concat(front)[..n];
      } else {
        k := |chunks| - 1;
      }
    }
  }

  /** An entry that goes on beyond the limit by more than one read is refused however the output is cut. */
  lemma TooLongForEveryCut(chunks: seq<seq<Utf8.Byte>>, size: nat, n: nat, exit: int)
    requires (forall c | c in chunks :: |c| <= size) && n <= |Concat(chunks)|
    requires LeftOver(Concat(chunks)[..n]) > MAX_ENTRY + size + 3
    ensures ReadAll(chunks, exit).Refused?
  {
    var k := ReadBefore(chunks, size, n);
    var before := Concat(chunks[..k]);
    LeftOverGrowsSlowly(before, Concat(chunks)[..n][|before|..]);
    assert before + Concat(chunks)[..n][|before|..] == Concat(chunks)[..n];
    if Within(chunks) {
      WithinEarlier(chunks, k);
    }
    ReadsDoNotMatter(chunks, exit);
  }

  /** Counterexample: a no-break space in front of the array, which JSON does not allow and str.lstrip removes. */
  lemma NoBreakSpacePasses()
    ensures var t: Text := [0xA0, OPEN_LIST, CLOSE_LIST];
      Loads(t) == None && Accepted(Drain(Start, t, EMPTY)) == Some(EMPTY) && !PlainArray(t)
  {
    var t: Text := [0xA0, OPEN_LIST, CLOSE_LIST];
    assert t[1..] == [OPEN_LIST, CLOSE_LIST] && [OPEN_LIST, CLOSE_LIST][1..] == [CLOSE_LIST] && [CLOSE_LIST][1..] == [];
    ValueIsNoSpace(t);
    assert Skip(t, true) == t[1..];
    assert WholeArray(t, true) == Some([]);
    ReaderAndJson(t);
    DrainIsArray(t);
  }

  // --------------------------------------------------------------- the code

  /** What a scan has collected when some read refuses it stays with it, and where only the cut is to blame it is a
    beginning of what the whole output lists. */
  lemma {:induction false} RefusedIsBeginning(chunks: seq<seq<Utf8.Byte>>)
    requires FeedAll(BEGIN, chunks).Stopped? && Unlimited(Concat(chunks)).Some?
    ensures FeedAll(BEGIN, chunks).scan.objects <= Unlimited(Concat(chunks)).value.scan.objects
    decreases |chunks|
  {
    var n := |chunks| - 1;
    UnlimitedInParts(Concat(chunks[..n]), chunks[n]);
    FeedAllIsUnlimited(chunks[..n]);
    if FeedAll(BEGIN, chunks[..n]).Stopped? {
      RefusedIsBeginning(chunks[..n]);
      var before := Unlimited(Concat(chunks[..n])).value;
      assert before.scan.objects <= Feed(before, chunks[n]).scan.objects;
    }
  }

  /** Two ways to cut an output that one of them is accepted in: the other has collected a beginning of its objects. */
  lemma CutCollectsBeginning(chunks: seq<seq<Utf8.Byte>>, others: seq<seq<Utf8.Byte>>, exit: int)
    requires Concat(chunks) == Concat(others) && ReadAll(others, exit).Goes?
    ensures ReadAll(chunks, exit).scan.objects <= ReadAll(others, exit).scan.objects
  {
    ReadsDoNotMatter(others, exit);
    FeedAllIsUnlimited(others);
    FeedAllIsUnlimited(chunks);
    DoneDrainsNothing(FeedAll(BEGIN, others), exit);
    if FeedAll(BEGIN, chunks).Stopped? {
      RefusedIsBeginning(chunks);
    }
  }

  lemma DoneDrainsNothing(r: Reader, exit: int)
    requires r.Running? && Finish(r, exit).Goes?
    ensures r.scan.objects <= Finish(r, exit).scan.objects
  {
  }

  lemma {:induction false} StaysStopped(chunks: seq<seq<Utf8.Byte>>, k: nat)
    requires k <= |chunks| && FeedAll(BEGIN, chunks[..k]).Stopped?
    ensures FeedAll(BEGIN, chunks) == FeedAll(BEGIN, chunks[..k])
    decreases |chunks|
  {
    if k == |chunks| {
      assert chunks[..k] == chunks;
    } else {
      assert chunks[..|chunks| - 1][..k] == chunks[..k];
      StaysStopped(chunks[..|chunks| - 1], k);
    }
  }

  /** The whole output is a text whose array has only items that can be counted and listed. */
  ghost predicate GoodListing(bytes: seq<Utf8.Byte>) {
    match Utf8.Decode(bytes)
    case Bad => false
    case Decoded(text, pending) =>
      pending == [] && WholeArray(text, true).Some? && Acceptable(WholeArray(text, true).value)
  }

  /** The items of the output's array. */
  ghost function ItemsOf(bytes: seq<Utf8.Byte>): seq<Value>
    requires GoodListing(bytes)
  {
    WholeArray(Utf8.Decode(bytes).text, true).value
  }

  /** What a scan is: a reading is accepted exactly if the output is a good listing, no read ends with too much left
    over and the process ends with exit code 0; and then the scan counts the items of the listing and holds, in their
    order, exactly the files under staging names with their task ids. */
  lemma ReadingLists(chunks: seq<seq<Utf8.Byte>>, exit: int)
    ensures ReadAll(chunks, exit).Goes? <==> Within(chunks) && GoodListing(Concat(chunks)) && exit == 0
    ensures ReadAll(chunks, exit).Goes? ==> Holds(ReadAll(chunks, exit).scan, ItemsOf(Concat(chunks)))
  {
    ReadsDoNotMatter(chunks, exit);
    var d := Utf8.Decode(Concat(chunks));
    if d.Decoded? && WholeArray(d.text, true).Some? {
      ScanLists(WholeArray(d.text, true).value);
    }
  }

  /** _read_staging: what the reading leaves behind. A scan that is refused keeps what it has collected. */
  method ReadStaging(chunks: seq<seq<Utf8.Byte>>, exit: int) returns (complete: bool, scan: Scan)
    requires forall i | 0 <= i < |chunks| :: chunks[i] != []
    ensures ReadAll(chunks, exit) == if complete then Goes(scan) else Refused(scan)
    ensures complete <==> Within(chunks) && GoodListing(Concat(chunks)) && exit == 0
    ensures complete ==> Holds(scan, ItemsOf(Concat(chunks)))
  {
    complete, scan := ReadChunks(chunks, exit);
    ReadingLists(chunks, exit);
  }

  /** Its loop: read, decode, drain item by item, until the end of the output. An empty read is the end. */
  method ReadChunks(chunks: seq<seq<Utf8.Byte>>, exit: int) returns (complete: bool, scan: Scan)
    requires forall i | 0 <= i < |chunks| :: chunks[i] != []
    ensures ReadAll(chunks, exit) == if complete then Goes(scan) else Refused(scan)
  {
    var pending: seq<Utf8.Byte>, phase, buffer: Text := [], Start, [];
    scan, complete := EMPTY, false;
    var i := 0;
    while true
      invariant Utf8.Decode(pending) == Utf8.Decoded([], pending)
      invariant 0 <= i <= |chunks| && FeedAll(BEGIN, chunks[..i]) == Running(pending, phase, buffer, scan) && !complete
      decreases |chunks| - i
    {
      var chunk := if i < |chunks| then chunks[i] else [];
      assert i < |chunks| ==> chunks[..i + 1][..i] == chunks[..i];
      assert i == |chunks| ==> chunks[..i] == chunks && pending + chunk == pending;
      if i < |chunks| && FeedAll(BEGIN, chunks[..i + 1]).Stopped? {
        StaysStopped(chunks, i + 1);
      }
      var decoded := Utf8.Decode(pending + chunk);
      if decoded.Bad? || (chunk == [] && decoded.pending != []) {
        return;
      }
      Utf8.PendingWaits(pending + chunk);
      assert chunk == [] ==> buffer + decoded.text == buffer;
      pending := decoded.pending;
      var state := DrainBuffer(phase, buffer + decoded.text, scan);
      scan := state.scan;
      if state.Rejected? || |state.buffer| > MAX_ENTRY {
        return;
      }
      phase, buffer := state.phase, state.buffer;
      if chunk == [] {
        complete := phase == Done && Skip(buffer, true) == [] && exit == 0;
        return;
      }
      i := i + 1;
    }
  }

  /** The inner loop, turn by turn. */
  method DrainBuffer(phase: Phase, buffer: Text, scan: Scan) returns (state: State)
    ensures state == Drain(phase, buffer, scan)
  {
    var p, b, s := phase, buffer, scan;
    while true
      invariant Drain(p, b, s) == Drain(phase, buffer, scan)
      decreases |b|
    {
      b := Skip(b, true);
      SkipTwice(b, true);
      if b == [] {
        break;
      }
      if p == Start {
        if b[0] != OPEN_LIST {
          return Rejected(s);
        }
        b, p := b[1..], First;
      } else if p == First && b[0] == CLOSE_LIST {
        b, p := b[1..], Done;
      } else if p == First || p == Item {
        var parsed := Decode(b);
        if parsed.Fail? {
          break;
        }
        var counted := Count(s, parsed.value);
        if counted.Refused? {
          return Rejected(counted.scan);
        }
        b, p, s := parsed.rest, Separator, counted.scan;
      } else if p == Separator {
        if b[0] != COMMA && b[0] != CLOSE_LIST {
          return Rejected(s);
        }
        p := if b[0] == COMMA then Item else Done;
        b := b[1..];
      } else {
        return Rejected(s);
      }
    }
    state := Reading(p, b, s);
  }
}

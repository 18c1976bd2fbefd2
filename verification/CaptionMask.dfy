/** Masking a caption in place: Telegram gives entities in UTF-16 units, the text is a little-endian byte array. */
module CaptionMask {
  import opened Text

  const MAX_CAPTION := 8192
  const MAX_ENTITIES := 256
  const MAX_QUOTES := 64

  const BLOCKQUOTE := "MessageEntityBlockquote"

  const HIDING := {
    "MessageEntityUrl", "MessageEntityTextUrl", "MessageEntityHashtag", "MessageEntityMention",
    "MessageEntityMentionName", "MessageEntityEmail", "MessageEntityPhone", "MessageEntityBotCommand",
    "MessageEntityCashtag", "MessageEntitySpoiler", "MessageEntityCode", "MessageEntityPre"
  }

  /** An entity by the name of its class; one whose offset or length cannot be read as a number is skipped. */
  datatype Entity = Unreadable | Entity(kind: string, offset: int, length: int)

  predicate IsQuote(e: Entity) { e.Entity? && e.kind == BLOCKQUOTE }

  predicate Hides(e: Entity) { e.Entity? && e.kind != BLOCKQUOTE && e.kind in HIDING }

  type Code = c: int | 0 <= c <= 0x10FFFF witness 0

  function UnitsOfCode(c: Code): seq<int> {
    if c < 0x1_0000 then [c] else [0xD800 + (c - 0x1_0000) / 0x400, 0xDC00 + (c - 0x1_0000) % 0x400]
  }

  /** Section 2.1 of RFC 2781; a lone surrogate stays one unit. */
  function Units(text: seq<Code>): (units: seq<int>)
    ensures forall u | u in units :: 0 <= u <= 0xFFFF
  {
    if text == [] then [] else UnitsOfCode(text[0]) + Units(text[1..])
  }

  function Head<T>(s: seq<T>, n: nat): seq<T> { if |s| <= n then s else s[..n] }

  /** The entity covers unit `i` of the text. */
  predicate Covers(e: Entity, i: nat) {
    e.Entity? && e.offset >= 0 && e.length > 0 && e.offset <= i < e.offset + e.length
  }

  predicate Hidden(entities: seq<Entity>, i: nat) {
    exists k | 0 <= k < |entities| :: Covers(entities[k], i) && Hides(entities[k])
  }

  type Byte = b: int | 0 <= b < 256 witness 0

  /** Unit `i` of little-endian bytes. */
  function UnitAt(bytes: seq<Byte>, i: nat): int
    requires 2 * i + 1 < |bytes|
  {
    var high: int := bytes[2 * i + 1];
    256 * high + bytes[2 * i]
  }

  /** What may be seen of unit `i`: a space if some entity hides it. */
  ghost function Shown(units: seq<int>, entities: seq<Entity>, i: nat): int
    requires i < |units|
  {
    if Hidden(entities, i) then 0x20 else units[i]
  }

  /** `bytes` are the units `lo <= i < hi` of a text, with spaces for those that are hidden. */
  ghost predicate ShowsOnly(bytes: seq<Byte>, units: seq<int>, entities: seq<Entity>, lo: nat, hi: nat)
    requires lo <= hi <= |units|
  {
    && |bytes| == 2 * (hi - lo)
    && forall j: nat | j < hi - lo :: UnitAt(bytes, j) == Shown(units, entities, lo + j)
  }

  datatype Span = Span(lo: nat, hi: nat)

  /** The part of a text of `n` units that the entity covers, if any. */
  function SpanOf(e: Entity, n: nat): (r: Option<Span>)
    ensures r.Some? ==> r.value.lo < r.value.hi <= n
    ensures forall i: nat | i < n :: Covers(e, i) <==> r.Some? && r.value.lo <= i < r.value.hi
  {
    if e.Unreadable? || e.offset < 0 || e.length <= 0 || n <= e.offset then None
    else Some(Span(e.offset, if n < e.offset + e.length then n else e.offset + e.length))
  }

  /** The block quotes in the order of the entities. */
  function Quotes(entities: seq<Entity>, n: nat): (spans: seq<Span>)
    ensures forall s | s in spans :: s.lo < s.hi <= n
  {
    if entities == [] then []
    else
      var e := entities[|entities| - 1];
      Quotes(entities[..|entities| - 1], n)
      + if SpanOf(e, n).Some? && IsQuote(e) then [SpanOf(e, n).value] else []
  }

  lemma HiddenByOneMore(entities: seq<Entity>, k: nat, i: nat)
    requires k < |entities|
    ensures Hidden(entities[..k + 1], i) <==> Hidden(entities[..k], i) || (Covers(entities[k], i) && Hides(entities[k]))
  {
    if Hidden(entities[..k], i) {
      var j :| 0 <= j < k && Covers(entities[..k][j], i) && Hides(entities[..k][j]);
      assert entities[..k + 1][j] == entities[j];
    }
    if Covers(entities[k], i) && Hides(entities[k]) {
      assert entities[..k + 1][k] == entities[k];
    }
  }

  /** The order of the entities does not matter to what is hidden. */
  lemma HiddenInAnyOrder(entities: seq<Entity>, shuffled: seq<Entity>, i: nat)
    requires multiset(entities) == multiset(shuffled)
    ensures Hidden(entities, i) == Hidden(shuffled, i)
  {
    if Hidden(entities, i) {
      var k :| 0 <= k < |entities| && Covers(entities[k], i) && Hides(entities[k]);
      assert entities[k] in multiset(shuffled);
    }
    if Hidden(shuffled, i) {
      var k :| 0 <= k < |shuffled| && Covers(shuffled[k], i) && Hides(shuffled[k]);
      assert shuffled[k] in multiset(entities);
    }
  }

  function Half(units: seq<int>, i: nat): Byte
    requires i < 2 * |units| && forall u | u in units :: 0 <= u <= 0xFFFF
  {
    assert units[i / 2] in units;
    if i % 2 == 0 then units[i / 2] % 256 else units[i / 2] / 256
  }

  lemma HalvesJoin(units: seq<int>, i: nat)
    requires i < |units| && forall u | u in units :: 0 <= u <= 0xFFFF
    ensures var high: int := Half(units, 2 * i + 1); 256 * high + Half(units, 2 * i) == units[i]
  {
    assert (2 * i) / 2 == i && (2 * i + 1) / 2 == i && (2 * i) % 2 == 0 && (2 * i + 1) % 2 == 1;
  }

  method Encode(units: seq<int>) returns (bytes: array<Byte>)
    requires forall u | u in units :: 0 <= u <= 0xFFFF
    ensures fresh(bytes) && ShowsOnly(bytes[..], units, [], 0, |units|)
  {
    bytes := new Byte[2 * |units|](i requires 0 <= i < 2 * |units| => Half(units, i));
    forall i: nat | i < |units|
      ensures UnitAt(bytes[..], i) == Shown(units, [], 0 + i)
    {
      HalvesJoin(units, i);
      assert bytes[..][2 * i] == Half(units, 2 * i) && bytes[..][2 * i + 1] == Half(units, 2 * i + 1);
    }
  }

  /** Overwrites the bytes of one span with spaces. */
  method Blank(masked: array<Byte>, s: Span)
    requires s.lo <= s.hi && 2 * s.hi <= masked.Length
    modifies masked
    ensures forall i: nat | 2 * i + 1 < masked.Length ::
      UnitAt(masked[..], i) == if s.lo <= i < s.hi then 0x20 else UnitAt(old(masked[..]), i)
  {
    forall b | 2 * s.lo <= b < 2 * s.hi {
      masked[b] := if b % 2 == 0 then 0x20 else 0;
    }
    ghost var was := old(masked[..]);
    assert forall b | 0 <= b < masked.Length && !(2 * s.lo <= b < 2 * s.hi) :: masked[..][b] == was[b];
    forall i: nat | 2 * i + 1 < masked.Length
      ensures UnitAt(masked[..], i) == if s.lo <= i < s.hi then 0x20 else UnitAt(was, i)
    {
      assert masked[..][2 * i] == masked[2 * i] && masked[..][2 * i + 1] == masked[2 * i + 1];
    }
  }

  /** The quotes are cut out of the text that is masked already. */
  method Cut(text: seq<Byte>, units: seq<int>, entities: seq<Entity>, spans: seq<Span>) returns (quotes: seq<seq<Byte>>)
    requires ShowsOnly(text, units, entities, 0, |units|)
    requires forall s | s in spans :: s.lo < s.hi <= |units|
    ensures |quotes| == |Head(spans, MAX_QUOTES)|
    ensures forall q | 0 <= q < |quotes| :: ShowsOnly(quotes[q], units, entities, spans[q].lo, spans[q].hi)
  {
    quotes := [];
    var q := 0;
    while q < |spans| && q < MAX_QUOTES
      invariant 0 <= q <= |Head(spans, MAX_QUOTES)| && |quotes| == q
      invariant forall j | 0 <= j < q :: ShowsOnly(quotes[j], units, entities, spans[j].lo, spans[j].hi)
      decreases |spans| - q
    {
      var s := spans[q];
      var quote := text[2 * s.lo..2 * s.hi];
      forall j: nat | j < s.hi - s.lo
        ensures UnitAt(quote, j) == Shown(units, entities, s.lo + j)
      {
        assert UnitAt(quote, j) == UnitAt(text, s.lo + j);
      }
      quotes := quotes + [quote];
      q := q + 1;
    }
  }

  /** caption_candidate up to the decoding: the whole text first, then the quotes, as they are handed on. */
  method Mask(caption: seq<Code>, entities: seq<Entity>) returns (text: seq<Byte>, quotes: seq<seq<Byte>>)
    ensures var units := Units(Head(caption, MAX_CAPTION)); var seen := Head(entities, MAX_ENTITIES);
      var spans := Head(Quotes(seen, |units|), MAX_QUOTES);
      && ShowsOnly(text, units, seen, 0, |units|)
      && |quotes| == |spans|
      && forall q | 0 <= q < |spans| :: ShowsOnly(quotes[q], units, seen, spans[q].lo, spans[q].hi)
  {
    var units := Units(Head(caption, MAX_CAPTION));
    var seen := Head(entities, MAX_ENTITIES);
    var masked := Encode(units);
    var ranges: seq<Span> := [];
    var k := 0;
    while k < |seen|
      invariant 0 <= k <= |seen|
      invariant fresh(masked) && masked.Length == 2 * |units|
      invariant ranges == Quotes(seen[..k], |units|)
      invariant ShowsOnly(masked[..], units, seen[..k], 0, |units|)
    {
      ghost var before := masked[..];
      assert seen[..k + 1][..k] == seen[..k];
      var span := SpanOf(seen[k], |units|);
      if span.Some? && IsQuote(seen[k]) {
        ranges := ranges + [span.value];
      } else if span.Some? && seen[k].kind in HIDING {
        Blank(masked, span.value);
      }
      forall i: nat | i < |units|
        ensures UnitAt(masked[..], i) == Shown(units, seen[..k + 1], 0 + i)
      {
        HiddenByOneMore(seen, k, i);
        assert UnitAt(before, i) == Shown(units, seen[..k], 0 + i);
      }
      k := k + 1;
    }
    assert seen[..k] == seen;
    text := masked[..];
    quotes := Cut(text, units, seen, ranges);
  }
}

/** Staging names: how they are printed, and what STAGING_PATTERN recovers from them. */
module StagingNames {
  import opened Text

  const PREFIX: Text := Codes(".uploading-")

  /** "r{recovery}-" for a recovered task, nothing before the first recovery. */
  function Attempt(recovery: nat): Text {
    if recovery == 0 then [] else [114] + Digits(recovery) + [DASH]
  }

  function Print(id: nat, recovery: nat, safeName: Text): Text {
    PREFIX + Digits(id) + [DASH] + Attempt(recovery) + safeName
  }

  /** `[^/\\\r\n\x00]`: a character the tail of a staging name may hold. */
  predicate TailChar(c: int) { c != 47 && c != 92 && c != 13 && c != 10 && c != 0 }

  predicate TailText(t: Text) { forall i | 0 <= i < |t| :: TailChar(t[i]) }

  /** The digits at the front of a text. */
  function LeadingDigits(t: Text): (n: nat)
    ensures n <= |t| && forall i | 0 <= i < n :: IsDigit(t[i])
    ensures n < |t| ==> !IsDigit(t[n])
  {
    if t == [] || !IsDigit(t[0]) then 0 else 1 + LeadingDigits(t[1..])
  }

  /** STAGING_PATTERN.fullmatch: the task id, if the whole name matches. */
  function Match(name: Text): Option<nat> { if PREFIX <= name then MatchBody(name[|PREFIX|..]) else None }

  function MatchBody(body: Text): Option<nat> {
    var n := LeadingDigits(body);
    if 1 <= n <= 18 && body[0] != 48 && n + 1 < |body| && body[n] == DASH && TailText(body[n + 1..])
    then Some(Value(body[..n])) else None
  }

  lemma SplitsAfter(prefix: Text, a: Text, b: Text, c: Text, d: Text)
    ensures prefix + a + b + c + d == prefix + (a + (b + c + d))
    ensures (prefix + a + b + c + d)[|prefix|..] == a + (b + c + d) && prefix <= prefix + a + b + c + d
  {
    assert prefix + a + b + c + d == prefix + (a + (b + c + d));
  }

  lemma AfterPrefix(id: nat, recovery: nat, safeName: Text)
    ensures PREFIX <= Print(id, recovery, safeName)
    ensures Print(id, recovery, safeName)[|PREFIX|..] == Digits(id) + ([DASH] + Attempt(recovery) + safeName)
  {
    SplitsAfter(PREFIX, Digits(id), [DASH], Attempt(recovery), safeName);
  }

  lemma {:induction false} LeadingDigitsOf(d: Text, rest: Text)
    requires forall i | 0 <= i < |d| :: IsDigit(d[i])
    requires rest != [] && !IsDigit(rest[0])
    ensures LeadingDigits(d + rest) == |d|
  {
    if d == [] {
      assert d + rest == rest;
    } else {
      assert (d + rest)[1..] == d[1..] + rest;
      LeadingDigitsOf(d[1..], rest);
    }
  }

  lemma MatchOfBody(d: Text, tail: Text)
    requires d != [] && forall i | 0 <= i < |d| :: IsDigit(d[i])
    ensures MatchBody(d + ([DASH] + tail)) ==
      if |d| <= 18 && d[0] != 48 && tail != [] && TailText(tail) then Some(Value(d)) else None
  {
    var body := d + ([DASH] + tail);
    LeadingDigitsOf(d, [DASH] + tail);
    assert body[..|d|] == d && body[|d| + 1..] == tail;
  }

  /** A printed name gives back its task id exactly when the id fits the pattern's eighteen digits, is positive, and
    the name that follows is not empty and free of separators. */
  lemma MatchRecoversTask(id: nat, recovery: nat, safeName: Text)
    ensures Match(Print(id, recovery, safeName)) == Some(id)
      <==> id > 0 && |Digits(id)| <= 18 && (recovery > 0 || safeName != []) && TailText(safeName)
    ensures Match(Print(id, recovery, safeName)).Some? ==> Match(Print(id, recovery, safeName)) == Some(id)
  {
    var d, tail := Digits(id), Attempt(recovery) + safeName;
    AfterPrefix(id, recovery, safeName);
    assert Print(id, recovery, safeName)[|PREFIX|..] == d + ([DASH] + tail);
    MatchOfBody(d, tail);
    ValueOfDigits(id);
    TailOfAttempt(recovery, safeName);
    assert id == 0 ==> d == [48];
  }

  /** What a staging name of task `id` looks like: the prefix, the number in at most eighteen digits, a dash and
    more. */
  ghost predicate IsStagingName(name: Text, id: nat) {
    0 < id && |Digits(id)| <= 18
    && exists tail: Text :: Ends(name, id, tail)
  }

  predicate Ends(name: Text, id: nat, tail: Text) {
    tail != [] && TailText(tail) && name == Codes(".uploading-") + (Digits(id) + ([DASH] + tail))
  }

  lemma MatchesWhatEnds(name: Text, id: nat, tail: Text)
    requires 0 < id && |Digits(id)| <= 18 && Ends(name, id, tail)
    ensures Match(name) == Some(id)
  {
    assert name[|PREFIX|..] == Digits(id) + ([DASH] + tail);
    MatchOfBody(Digits(id), tail);
    ValueOfDigits(id);
  }

  lemma MatchEnds(body: Text, id: nat) returns (tail: Text)
    requires MatchBody(body) == Some(id)
    ensures 0 < id && |Digits(id)| <= 18 && tail != [] && TailText(tail) && body == Digits(id) + ([DASH] + tail)
  {
    var n := LeadingDigits(body);
    DigitsOfValue(body[..n]);
    tail := body[n + 1..];
    assert body == body[..n] + ([DASH] + tail);
  }

  /** STAGING_PATTERN matches those names and no others, under their ids. */
  lemma MatchIsStagingName(name: Text, id: nat)
    ensures Match(name) == Some(id) <==> IsStagingName(name, id)
  {
    if IsStagingName(name, id) {
      var tail: Text :| Ends(name, id, tail);
      MatchesWhatEnds(name, id, tail);
    }
    if Match(name) == Some(id) {
      var tail := MatchEnds(name[|PREFIX|..], id);
      assert Ends(name, id, tail);
    }
  }

  lemma TailOfAttempt(recovery: nat, safeName: Text)
    ensures TailText(Attempt(recovery) + safeName) <==> TailText(safeName)
  {
    var tail := Attempt(recovery) + safeName;
    assert forall i | 0 <= i < |Attempt(recovery)| :: TailChar(Attempt(recovery)[i]);
    assert forall i | 0 <= i < |safeName| :: safeName[i] == tail[i + |Attempt(recovery)|];
  }

  /** Staging names of different tasks never coincide, whatever the attempts and the file names. */
  lemma TasksNeverShare(id: nat, recovery: nat, name: Text, otherId: nat, otherRecovery: nat, otherName: Text)
    requires Print(id, recovery, name) == Print(otherId, otherRecovery, otherName)
    ensures id == otherId
  {
    AfterPrefix(id, recovery, name);
    AfterPrefix(otherId, otherRecovery, otherName);
    NumeralSplit(Digits(id), [DASH] + Attempt(recovery) + name, Digits(otherId),
        [DASH] + Attempt(otherRecovery) + otherName);
    DigitsInjective(id, otherId);
  }

  lemma AttemptInjective(recovery: nat, otherRecovery: nat)
    requires Attempt(recovery) == Attempt(otherRecovery)
    ensures recovery == otherRecovery
  {
    if recovery > 0 && otherRecovery > 0 {
      assert Digits(recovery) == Attempt(recovery)[1..|Attempt(recovery)| - 1];
      assert Digits(otherRecovery) == Attempt(otherRecovery)[1..|Attempt(otherRecovery)| - 1];
      DigitsInjective(recovery, otherRecovery);
    }
  }

  lemma Cancel(a: Text, x: Text, y: Text)
    ensures a + x == a + y <==> x == y
  {
    assert (a + x)[|a|..] == x && (a + y)[|a|..] == y;
  }

  lemma AttemptGrowsApart(recovery: nat, later: nat, name: Text, other: Text)
    requires 0 < recovery < later
    ensures Attempt(recovery) + name != Attempt(later) + other
  {
    var x, y := Digits(recovery) + ([DASH] + name), Digits(later) + ([DASH] + other);
    assert Attempt(recovery) + name == [114] + x && Attempt(later) + other == [114] + y;
    Cancel([114], x, y);
    if x == y {
      NumeralSplit(Digits(recovery), [DASH] + name, Digits(later), [DASH] + other);
      DigitsInjective(recovery, later);
    }
  }

  /** Two attempts of a task print alike exactly if what follows the task id does. */
  lemma SameTail(id: nat, recovery: nat, later: nat, name: Text, other: Text)
    ensures Print(id, recovery, name) == Print(id, later, other) <==> Attempt(recovery) + name == Attempt(later) + other
  {
    var front := PREFIX + Digits(id) + [DASH];
    assert Print(id, recovery, name) == front + (Attempt(recovery) + name);
    assert Print(id, later, other) == front + (Attempt(later) + other);
    Cancel(front, Attempt(recovery) + name, Attempt(later) + other);
  }

  /** Under one file name, two attempts of a task print alike exactly if they are the same attempt. */
  lemma AttemptsNeverShare(id: nat, recovery: nat, otherRecovery: nat, name: Text)
    ensures Print(id, recovery, name) == Print(id, otherRecovery, name) <==> recovery == otherRecovery
  {
    SameTail(id, recovery, otherRecovery, name, name);
    if Attempt(recovery) + name == Attempt(otherRecovery) + name {
      assert |Attempt(recovery)| == |Attempt(otherRecovery)|;
      assert Attempt(recovery) == (Attempt(recovery) + name)[..|Attempt(recovery)|];
      assert Attempt(otherRecovery) == (Attempt(otherRecovery) + name)[..|Attempt(otherRecovery)|];
      AttemptInjective(recovery, otherRecovery);
    }
  }

  /** If a task could print under two file names, two of its attempts would meet exactly when the earlier one is the
    first of all and its file name begins with the later attempt's mark. A task has one file name, which is why they
    do not. */
  lemma AttemptsMeet(id: nat, recovery: nat, later: nat, name: Text, other: Text)
    requires recovery < later
    ensures Print(id, recovery, name) == Print(id, later, other) <==> recovery == 0 && name == Attempt(later) + other
  {
    SameTail(id, recovery, later, name, other);
    if recovery == 0 {
      assert Attempt(0) + name == name;
    } else {
      AttemptGrowsApart(recovery, later, name, other);
    }
  }
}

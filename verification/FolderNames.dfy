/** Folder names for sources: bounded, cut between characters, and numbered apart. */
module FolderNames {
  import opened Text

  const MAX_COLUMNS := 60
  const MAX_BYTES := 112

  const SPACE := 32
  const LAI := 0x6765
  const YUAN := 0x6E90
  const FALLBACK: Text := [LAI, YUAN]

  /** What the Unicode tables say about a character, the cleaning of a title, and the final check of a path. */
  datatype Unicode = Unicode(columns: int -> nat, bytes: int -> nat, mark: int -> bool, fold: int -> Text,
                             clean: (Text, int) -> Text, safe: Text -> bool)

  predicate Plain(c: int) { IsDigit(c) || c == DASH || c == LAI || c == YUAN }

  /** The facts of the tables that the proofs need, all of them about the few characters of a numbered suffix. */
  ghost predicate Plausible(u: Unicode) {
    forall c | Plain(c) :: u.fold(c) == [c] && u.columns(c) == (if c < 128 then 1 else 2)
        && u.bytes(c) == (if c < 128 then 1 else 3)
  }

  function Sum(f: int -> nat, t: Text): nat { if t == [] then 0 else Sum(f, t[..|t| - 1]) + f(t[|t| - 1]) }

  predicate Fits(u: Unicode, t: Text) { Sum(u.columns, t) <= MAX_COLUMNS && Sum(u.bytes, t) <= MAX_BYTES }

  function Fold(u: Unicode, t: Text): Text { if t == [] then [] else Fold(u, t[..|t| - 1]) + u.fold(t[|t| - 1]) }

  /** Characters with the combining marks that follow them; marks before any character are dropped. */
  function Clusters(u: Unicode, t: Text): seq<Text> {
    if t == [] then []
    else
      var earlier, c := Clusters(u, t[..|t| - 1]), t[|t| - 1];
      if !u.mark(c) then earlier + [[c]]
      else if earlier == [] then []
      else earlier[..|earlier| - 1] + [earlier[|earlier| - 1] + [c]]
  }

  function Join(clusters: seq<Text>): Text {
    if clusters == [] then [] else Join(clusters[..|clusters| - 1]) + clusters[|clusters| - 1]
  }

  /** One character and the marks on it. */
  predicate IsCluster(u: Unicode, c: Text) { c != [] && !u.mark(c[0]) && forall j | 0 < j < |c| :: u.mark(c[j]) }

  lemma JoinOneMore(clusters: seq<Text>, c: Text)
    ensures Join(clusters + [c]) == Join(clusters) + c
  {
    assert (clusters + [c])[..|clusters|] == clusters;
  }

  lemma JoinLonger(clusters: seq<Text>, c: Text)
    requires clusters != []
    ensures Join(clusters[..|clusters| - 1] + [clusters[|clusters| - 1] + c]) == Join(clusters) + c
  {
    var n := |clusters| - 1;
    JoinOneMore(clusters[..n], clusters[n] + c);
    Regroup(Join(clusters[..n]), clusters[n], c);
  }

  /** The clusters are what follows the first `k` characters, all of them marks. */
  ghost predicate Covers(u: Unicode, clusters: seq<Text>, t: Text, k: nat) {
    && k <= |t| && Join(clusters) == t[k..] && (forall i | 0 <= i < k :: u.mark(t[i]))
    && (clusters == [] <==> k == |t|) && forall c | c in clusters :: IsCluster(u, c)
  }

  lemma CoversOneMore(u: Unicode, clusters: seq<Text>, t: Text, k: nat, x: int) returns (next: nat)
    requires Covers(u, clusters, t, k)
    ensures Covers(u, if !u.mark(x) then clusters + [[x]]
                      else if clusters == [] then []
                      else clusters[..|clusters| - 1] + [clusters[|clusters| - 1] + [x]], t + [x], next)
  {
    JoinOneMore(clusters, [x]);
    if clusters != [] {
      JoinLonger(clusters, [x]);
    }
    assert (t + [x])[k..] == t[k..] + [x];
    next := k;
    if u.mark(x) && clusters == [] {
      next := k + 1;
    } else if u.mark(x) {
      assert IsCluster(u, clusters[|clusters| - 1]);
    }
  }

  /** The clusters are the text, but for marks in front of its first character. */
  lemma {:induction false} ClustersCover(u: Unicode, t: Text) returns (k: nat)
    ensures Covers(u, Clusters(u, t), t, k)
  {
    k := 0;
    if t != [] {
      var n := |t| - 1;
      k := ClustersCover(u, t[..n]);
      assert t == t[..n] + [t[n]];
      k := CoversOneMore(u, Clusters(u, t[..n]), t[..n], k, t[n]);
    }
  }

  /** How many clusters are taken until one more would be too much. */
  function Taken(u: Unicode, clusters: seq<Text>, suffix: Text, k: nat): (n: nat)
    requires k <= |clusters|
    ensures k <= n <= |clusters|
    decreases |clusters| - k
  {
    if k < |clusters| && Fits(u, Join(clusters[..k + 1]) + suffix) then Taken(u, clusters, suffix, k + 1) else k
  }

  function RStrip(t: Text): (s: Text)
    ensures s <= t && (s != [] ==> s[|s| - 1] !in {SPACE, DOT})
    ensures forall i | |s| <= i < |t| :: t[i] in {SPACE, DOT}
  {
    if t != [] && t[|t| - 1] in {SPACE, DOT} then RStrip(t[..|t| - 1]) else t
  }

  /** The visible part of the name, before the suffix. */
  function Stem(u: Unicode, text: Text, suffix: Text): Text {
    var clusters := Clusters(u, text);
    RStrip(Join(clusters[..Taken(u, clusters, suffix, 0)]))
  }

  /** The folder name, or nothing when the last check of the path refuses it. */
  function Name(u: Unicode, text: Text, suffix: Text): Option<Text> {
    var stem := Stem(u, text, suffix);
    var name := (if stem == [] then FALLBACK else stem) + suffix;
    if u.safe(name) then Some(name) else None
  }

  const MARK: Text := [DASH, LAI, YUAN]

  function Suffix(id: nat, counter: nat): Text {
    if counter == 0 then []
    else MARK + Digits(id) + if counter > 1 then [DASH] + Digits(counter) else []
  }

  function Candidate(u: Unicode, text: Text, id: nat, counter: nat): Option<Text> { Name(u, text, Suffix(id, counter)) }

  // ------------------------------------------------------------------- limits

  lemma {:induction false} SumAppend(f: int -> nat, a: Text, b: Text)
    ensures Sum(f, a + b) == Sum(f, a) + Sum(f, b)
    decreases |b|
  {
    if b == [] {
      assert a + b == a;
    } else {
      assert (a + b)[..|a + b| - 1] == a + b[..|b| - 1];
      SumAppend(f, a, b[..|b| - 1]);
    }
  }

  lemma {:induction false} JoinGrows(clusters: seq<Text>, j: nat, k: nat)
    requires j <= k <= |clusters|
    ensures Join(clusters[..j]) <= Join(clusters[..k])
    decreases k
  {
    if j < k {
      JoinGrows(clusters, j, k - 1);
      assert clusters[..k][..k - 1] == clusters[..k - 1];
    }
  }

  lemma PrefixFits(u: Unicode, a: Text, b: Text, suffix: Text)
    requires a <= b && Fits(u, b + suffix)
    ensures Fits(u, a + suffix)
  {
    assert b == a + b[|a|..];
    SumAppend(u.columns, a, b[|a|..]);
    SumAppend(u.bytes, a, b[|a|..]);
    SumAppend(u.columns, b, suffix);
    SumAppend(u.bytes, b, suffix);
    SumAppend(u.columns, a, suffix);
    SumAppend(u.bytes, a, suffix);
  }

  /** The cut keeps as much as fits: what is kept fits, if anything is, and not one cluster more would. */
  lemma {:induction false} CutIsLongest(u: Unicode, clusters: seq<Text>, suffix: Text, k: nat, more: nat)
    requires k <= |clusters|
    ensures var n := Taken(u, clusters, suffix, k);
      && (n > k ==> Fits(u, Join(clusters[..n]) + suffix))
      && (n < more <= |clusters| ==> !Fits(u, Join(clusters[..more]) + suffix))
    decreases |clusters| - k
  {
    if k < |clusters| && Fits(u, Join(clusters[..k + 1]) + suffix) {
      CutIsLongest(u, clusters, suffix, k + 1, more);
    } else if k < more <= |clusters| {
      JoinGrows(clusters, k + 1, more);
      if Fits(u, Join(clusters[..more]) + suffix) {
        PrefixFits(u, Join(clusters[..k + 1]), Join(clusters[..more]), suffix);
      }
    }
  }

  /** A name is within the limits exactly when some of the title is left or the fallback fits beside the suffix. */
  lemma NameWithinLimits(u: Unicode, text: Text, suffix: Text)
    requires Name(u, text, suffix).Some?
    ensures Fits(u, Name(u, text, suffix).value) <==> Stem(u, text, suffix) != [] || Fits(u, FALLBACK + suffix)
  {
    var clusters := Clusters(u, text);
    var n := Taken(u, clusters, suffix, 0);
    CutIsLongest(u, clusters, suffix, 0, 0);
    if Stem(u, text, suffix) != [] {
      assert n > 0 by { assert Join(clusters[..0]) == []; }
      PrefixFits(u, Stem(u, text, suffix), Join(clusters[..n]), suffix);
    }
  }

  lemma {:induction false} SumOfDigits(u: Unicode, n: nat)
    requires Plausible(u)
    ensures Sum(u.columns, Digits(n)) == Sum(u.bytes, Digits(n)) == |Digits(n)|
    decreases n
  {
    var d := Digits(n);
    assert IsDigit(d[|d| - 1]);
    if n < 10 {
      assert d[..|d| - 1] == [];
    } else {
      assert d[..|d| - 1] == Digits(n / 10);
      SumOfDigits(u, n / 10);
    }
  }

  lemma SumOfTwo(f: int -> nat, a: int, b: int)
    ensures Sum(f, [a]) == f(a) && Sum(f, [a, b]) == f(a) + f(b)
  {
    assert [a][..0] == [] && [a, b][..1] == [a];
  }

  lemma SumOfSuffix(u: Unicode, f: int -> nat, wide: nat, id: nat, counter: nat)
    requires Plausible(u) && (f == u.columns || f == u.bytes)
    requires f(DASH) == 1 && f(LAI) == f(YUAN) == wide
    ensures Sum(f, FALLBACK + Suffix(id, counter)) <= 4 * wide + 2 + |Digits(id)| + |Digits(counter)|
  {
    SumOfTwo(f, LAI, YUAN);
    SumAppend(f, FALLBACK, Suffix(id, counter));
    if counter > 0 {
      var tail: Text := if counter > 1 then [DASH] + Digits(counter) else [];
      SumOfDigits(u, id);
      SumOfDigits(u, counter);
      SumOfTwo(f, DASH, LAI);
      SumAppend(f, [DASH], [LAI, YUAN]);
      assert MARK == [DASH] + [LAI, YUAN];
      SumAppend(f, MARK, Digits(id));
      SumAppend(f, MARK + Digits(id), tail);
      SumAppend(f, [DASH], Digits(counter));
    }
  }

  /** Every candidate is within the limits while its two numerals have at most fifty digits together. */
  lemma NumberedFits(u: Unicode, text: Text, id: nat, counter: nat)
    requires Plausible(u) && Candidate(u, text, id, counter).Some?
    requires |Digits(id)| + |Digits(counter)| <= 50
    ensures Fits(u, Candidate(u, text, id, counter).value)
  {
    assert Plain(DASH) && Plain(LAI) && Plain(YUAN);
    SumOfSuffix(u, u.columns, 2, id, counter);
    SumOfSuffix(u, u.bytes, 3, id, counter);
    NameWithinLimits(u, text, Suffix(id, counter));
  }

  // ---------------------------------------------------------------- injectivity

  lemma {:induction false} FoldAppend(u: Unicode, a: Text, b: Text)
    ensures Fold(u, a + b) == Fold(u, a) + Fold(u, b)
    decreases |b|
  {
    if b == [] {
      assert a + b == a;
    } else {
      assert (a + b)[..|a + b| - 1] == a + b[..|b| - 1];
      FoldAppend(u, a, b[..|b| - 1]);
    }
  }

  lemma {:induction false} FoldPlain(u: Unicode, t: Text)
    requires Plausible(u) && forall i | 0 <= i < |t| :: Plain(t[i])
    ensures Fold(u, t) == t
    decreases |t|
  {
    if t != [] {
      FoldPlain(u, t[..|t| - 1]);
      assert t == t[..|t| - 1] + [t[|t| - 1]];
    }
  }

  /** What comes before a closing numeral, and the numeral, can be read off the text. */
  lemma ClosingNumeral(a: Text, x: int, m: nat, b: Text, y: int, n: nat)
    requires !IsDigit(x) && !IsDigit(y)
    requires a + [x] + Digits(m) == b + [y] + Digits(n)
    ensures x == y && m == n
  {
    var w := a + [x] + Digits(m);
    var v := b + [y] + Digits(n);
    assert w[|a|] == x && v[|b|] == y;
    assert forall i | |a| < i < |w| :: w[i] == Digits(m)[i - |a| - 1];
    assert forall i | |b| < i < |v| :: v[i] == Digits(n)[i - |b| - 1];
    assert |a| == |b|;
    assert Digits(m) == w[|a| + 1..] == v[|b| + 1..] == Digits(n);
    DigitsInjective(m, n);
  }

  /** The last numeral of a numbered suffix, and what stands before it: the counter after a dash, or the id. */
  lemma SuffixEnd(x: Text, id: nat, counter: nat) returns (front: Text, sep: int, n: nat)
    requires counter >= 1
    ensures x + Suffix(id, counter) == front + [sep] + Digits(n)
    ensures if counter == 1 then sep == YUAN && n == id else sep == DASH && n == counter
  {
    if counter == 1 {
      front, sep, n := x + [DASH, LAI], YUAN, id;
      assert MARK == [DASH, LAI] + [YUAN];
    } else {
      front, sep, n := x + (MARK + Digits(id)), DASH, counter;
    }
  }

  lemma SuffixesDiffer(x: Text, y: Text, id: nat, i: nat, j: nat)
    requires 1 <= i < j
    ensures x + Suffix(id, i) != y + Suffix(id, j)
  {
    var a, s, m := SuffixEnd(x, id, i);
    var b, t, n := SuffixEnd(y, id, j);
    if a + [s] + Digits(m) == b + [t] + Digits(n) {
      ClosingNumeral(a, s, m, b, t, n);
    }
  }

  lemma FoldOfCandidate(u: Unicode, text: Text, id: nat, counter: nat) returns (front: Text)
    requires Plausible(u) && Candidate(u, text, id, counter).Some?
    ensures Fold(u, Candidate(u, text, id, counter).value) == front + Suffix(id, counter)
  {
    var stem := Stem(u, text, Suffix(id, counter));
    var kept := if stem == [] then FALLBACK else stem;
    FoldAppend(u, kept, Suffix(id, counter));
    FoldPlain(u, Suffix(id, counter));
    front := Fold(u, kept);
  }

  /** No two numbered candidates of one source are the same name, even ignoring case and whatever the cut keeps. */
  lemma CandidatesDiffer(u: Unicode, text: Text, id: nat, i: nat, j: nat)
    requires Plausible(u) && 1 <= i < j
    ensures var a, b := Candidate(u, text, id, i), Candidate(u, text, id, j);
      a.Some? && b.Some? ==> Fold(u, a.value) != Fold(u, b.value)
  {
    if Candidate(u, text, id, i).Some? && Candidate(u, text, id, j).Some? {
      var x := FoldOfCandidate(u, text, id, i);
      var y := FoldOfCandidate(u, text, id, j);
      SuffixesDiffer(x, y, id, i, j);
    }
  }

  /** A list of names to try, each with its case-folded form. */
  type Names = nat -> Option<(Text, Text)>

  function Candidates(u: Unicode, text: Text, id: nat): Names {
    (c: nat) => match Candidate(u, text, id, c) case None => None case Some(name) => Some((name, Fold(u, name)))
  }

  ghost predicate Apart(names: Names) {
    forall i, j | 1 <= i < j && names(i).Some? && names(j).Some? :: names(i).value.1 != names(j).value.1
  }

  lemma CandidatesApart(u: Unicode, text: Text, id: nat)
    requires Plausible(u)
    ensures Apart(Candidates(u, text, id))
  {
    var names := Candidates(u, text, id);
    forall i, j | 1 <= i < j && names(i).Some? && names(j).Some?
      ensures names(i).value.1 != names(j).value.1
    {
      CandidatesDiffer(u, text, id, i, j);
    }
  }

  /** The names 1, 2, … below `counter` have all been found taken. */
  ghost predicate AllTaken(names: Names, used: set<Text>, counter: nat) {
    forall c | 1 <= c < counter :: names(c).Some? && names(c).value.1 in used
  }

  /** Different names take up different entries of `used`, so there cannot be more of them than entries. */
  lemma {:induction false} TakenAreFew(names: Names, used: set<Text>, counter: nat)
    requires Apart(names) && AllTaken(names, used, counter) && counter >= 1
    ensures counter - 1 <= |used|
    decreases counter
  {
    if counter > 1 {
      var last := names(counter - 1).value.1;
      TakenAreFew(names, used - {last}, counter - 1);
      assert |used - {last}| == |used| - 1;
    }
  }

  predicate Frees(names: Names, c: nat, used: set<Text>, name: Text) {
    names(c).Some? && names(c).value.0 == name && names(c).value.1 !in used
  }

  /** The first free name from `counter` on, or nothing when a name is refused before one is found. */
  ghost function FirstFree(names: Names, used: set<Text>, counter: nat): (r: Option<Text>)
    requires Apart(names) && AllTaken(names, used, counter) && counter <= |used| + 1
    ensures r.Some? ==> exists c | counter <= c <= |used| + 1 :: Frees(names, c, used, r.value)
    decreases |used| + 1 - counter
  {
    if names(counter).None? then None
    else if names(counter).value.1 !in used then
      assert Frees(names, counter, used, names(counter).value.0);
      Some(names(counter).value.0)
    else
      TakenAreFew(names, used, counter + 1);
      FirstFree(names, used, counter + 1)
  }

  /** What the search finds is a free candidate, one of the first |used| + 2, and within the limits if its numerals are
    short; there is always a free candidate that early unless one is refused before. */
  lemma SearchFinds(u: Unicode, text: Text, id: nat, used: set<Text>)
    requires Plausible(u) && Apart(Candidates(u, text, id))
    ensures var r := FirstFree(Candidates(u, text, id), used, 0);
      r.Some? ==>
        && r.value != [] && Fold(u, r.value) !in used
        && exists c: nat | c <= |used| + 1 :: Candidate(u, text, id, c) == r
  {
    var names := Candidates(u, text, id);
    var r := FirstFree(names, used, 0);
    if r.Some? {
      var c :| 0 <= c <= |used| + 1 && Frees(names, c, used, r.value);
      assert Candidate(u, text, id, c) == r;
    }
  }

  // --------------------------------------------------------------- the code

  /** The first loop of folder_name: every mark goes with the character before it. */
  method GroupMarks(u: Unicode, text: Text) returns (clusters: seq<Text>)
    ensures clusters == Clusters(u, text)
  {
    clusters := [];
    var i := 0;
    while i < |text|
      invariant 0 <= i <= |text| && clusters == Clusters(u, text[..i])
    {
      assert text[..i + 1][..i] == text[..i];
      var c := text[i];
      if !u.mark(c) {
        clusters := clusters + [[c]];
      } else if clusters != [] {
        clusters := clusters[|clusters| - 1 := clusters[|clusters| - 1] + [c]];
      }
      i := i + 1;
    }
    assert text[..i] == text;
  }

  /** And the second: clusters are added while they fit. */
  method FolderName(u: Unicode, title: Text, chat: int, suffix: Text) returns (name: Option<Text>)
    ensures name == Name(u, u.clean(title, chat), suffix)
  {
    var text := u.clean(title, chat);
    var clusters := GroupMarks(u, text);
    var result: Text := [];
    var k := 0;
    while k < |clusters|
      invariant 0 <= k <= |clusters| && result == Join(clusters[..k])
      invariant Taken(u, clusters, suffix, 0) == Taken(u, clusters, suffix, k)
    {
      assert clusters[..k + 1][..k] == clusters[..k];
      var candidate := result + clusters[k] + suffix;
      if !Fits(u, candidate) {
        break;
      }
      result := result + clusters[k];
      k := k + 1;
    }
    var stem := RStrip(result);
    var whole := (if stem == [] then FALLBACK else stem) + suffix;
    name := if u.safe(whole) then Some(whole) else None;
  }

  method Try(u: Unicode, title: Text, chat: int, id: nat, counter: nat) returns (name: Option<(Text, Text)>)
    ensures name == Candidates(u, u.clean(title, chat), id)(counter)
  {
    var suffix := if counter == 0 then [] else MARK + Digits(id) + if counter > 1 then [DASH] + Digits(counter) else [];
    var plain := FolderName(u, title, chat, suffix);
    name := if plain.Some? then Some((plain.value, Fold(u, plain.value))) else None;
  }

  /** The search of _bind_source_folder: it ends, and it ends at the first free candidate. */
  method FindFree(u: Unicode, title: Text, chat: int, id: nat, used: set<Text>) returns (name: Option<Text>)
    requires Plausible(u)
    ensures Apart(Candidates(u, u.clean(title, chat), id))
    ensures name == FirstFree(Candidates(u, u.clean(title, chat), id), used, 0)
  {
    CandidatesApart(u, u.clean(title, chat), id);
    ghost var names := Candidates(u, u.clean(title, chat), id);
    var counter := 0;
    var candidate := Try(u, title, chat, id, counter);
    while candidate.Some? && candidate.value.1 in used
      invariant candidate == names(counter)
      invariant AllTaken(names, used, counter) && counter <= |used| + 1
      invariant FirstFree(names, used, 0) == FirstFree(names, used, counter)
      decreases |used| + 1 - counter
    {
      TakenAreFew(names, used, counter + 1);
      counter := counter + 1;
      candidate := Try(u, title, chat, id, counter);
    }
    name := if candidate.Some? then Some(candidate.value.0) else None;
  }
}

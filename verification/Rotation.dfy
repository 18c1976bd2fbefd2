/** Fair rotation: the order in which _poll_sources visits sources, round after round. */
module Rotation {

  ghost predicate Ascending(ids: seq<int>) { forall i, j | 0 <= i < j < |ids| :: ids[i] < ids[j] }

  function Above(ids: seq<int>, after: int): seq<int> {
    if ids == [] then [] else (if ids[0] > after then [ids[0]] else []) + Above(ids[1..], after)
  }

  function UpTo(ids: seq<int>, after: int): seq<int> {
    if ids == [] then [] else (if ids[0] <= after then [ids[0]] else []) + UpTo(ids[1..], after)
  }

  /** The visiting order of a round: the sources after the last one polled, then the others. */
  function Order(ids: seq<int>, after: int): seq<int> { Above(ids, after) + UpTo(ids, after) }

  /** One round's circumstances: the sources there are, which of them may be polled, and after which of them the round's
    budget is spent. */
  datatype Round = Round(ids: seq<int>, eligible: set<int>, spent: int -> bool)

  datatype Visited = Visited(polled: seq<int>, after: int)

  function Walk(order: seq<int>, after: int, r: Round): Visited {
    if order == [] then Visited([], after)
    else if order[0] !in r.eligible then Walk(order[1..], after, r)
    else if r.spent(order[0]) then Visited([order[0]], order[0])
    else
      var rest := Walk(order[1..], order[0], r);
      Visited([order[0]] + rest.polled, rest.after)
  }

  function Polls(after: int, r: Round): Visited { Walk(Order(r.ids, after), after, r) }

  // --------------------------------------------------------------- the rotation

  lemma OrderSplits(ids: seq<int>, after: int) returns (cut: nat)
    requires Ascending(ids)
    ensures cut <= |ids| && Above(ids, after) == ids[cut..] && UpTo(ids, after) == ids[..cut]
    ensures forall i | 0 <= i < |ids| :: ids[i] <= after <==> i < cut
  {
    cut := 0;
    while cut < |ids| && ids[cut] <= after
      invariant cut <= |ids| && forall i | 0 <= i < cut :: ids[i] <= after
    {
      cut := cut + 1;
    }
    SplitsAt(ids, after, cut);
  }

  lemma {:induction false} SplitsAt(ids: seq<int>, after: int, cut: nat)
    requires cut <= |ids| && forall i | 0 <= i < |ids| :: ids[i] <= after <==> i < cut
    ensures Above(ids, after) == ids[cut..] && UpTo(ids, after) == ids[..cut]
  {
    if ids != [] {
      var tail := ids[1..];
      var rest: nat := if cut == 0 then 0 else cut - 1;
      assert forall i | 0 <= i < |tail| :: tail[i] == ids[i + 1];
      SplitsAt(tail, after, rest);
      assert cut > 0 ==> tail[rest..] == ids[cut..] && [ids[0]] + tail[..rest] == ids[..cut];
    }
  }

  /** A round polls an eligible source, or stops at a source that stands before it. */
  lemma {:induction false} WalkStops(order: seq<int>, after: int, r: Round, id: int) returns (j: nat, k: nat)
    requires id in order && id in r.eligible
    ensures var v := Walk(order, after, r);
      id in v.polled || (j < k < |order| && order[j] == v.after && order[k] == id)
  {
    if order[0] != id && order[0] in r.eligible && r.spent(order[0]) {
      j := 0;
      k :| 0 <= k < |order| && order[k] == id;
    } else if order[0] != id {
      j, k := WalkStops(order[1..], if order[0] in r.eligible then order[0] else after, r, id);
      j, k := j + 1, k + 1;
    } else {
      j, k := 0, 0;
    }
  }

  // ------------------------------------------------------------------ what a round polls

  function Eligible(order: seq<int>, r: Round): seq<int> {
    if order == [] then [] else (if order[0] in r.eligible then [order[0]] else []) + Eligible(order[1..], r)
  }

  lemma {:induction false} EligibleHolds(order: seq<int>, r: Round)
    ensures forall x :: x in Eligible(order, r) <==> x in order && x in r.eligible
  {
    if order != [] {
      EligibleHolds(order[1..], r);
    }
  }

  /** The budget is spent after the source at `i`. */
  predicate Ends(order: seq<int>, r: Round, i: nat)
    requires i < |order|
  {
    order[i] in r.eligible && r.spent(order[i])
  }

  /** The walk goes through the first `n` sources: to the first one after which the budget is spent, or to the last. */
  ghost predicate GoesTo(order: seq<int>, r: Round, n: nat) {
    && n <= |order| && (n < |order| ==> n > 0 && Ends(order, r, n - 1))
    && forall i: nat | i + 1 < n :: !Ends(order, r, i)
  }

  lemma GoesFurther(order: seq<int>, r: Round, n: nat)
    requires order != [] && !Ends(order, r, 0) && GoesTo(order[1..], r, n) && (n == 0 ==> |order| == 1)
    ensures GoesTo(order, r, n + 1)
  {
    forall i: nat | i + 1 < n + 1 ensures !Ends(order, r, i) {
      if i > 0 {
        assert !Ends(order[1..], r, i - 1);
      }
    }
    assert n > 0 ==> order[n] == order[1..][n - 1];
  }

  lemma {:induction false} WalkGoesTo(order: seq<int>, after: int, r: Round) returns (n: nat)
    ensures var v := Walk(order, after, r);
      && GoesTo(order, r, n) && v.polled == Eligible(order[..n], r)
      && v.after == if v.polled == [] then after else v.polled[|v.polled| - 1]
  {
    n := 0;
    if order != [] {
      if Ends(order, r, 0) {
        n := 1;
      } else {
        n := WalkGoesTo(order[1..], if order[0] in r.eligible then order[0] else after, r);
        GoesFurther(order, r, n);
        n := n + 1;
      }
      assert order[..n][1..] == order[1..][..n - 1];
    }
  }

  /** What a round does: going through the sources in rotated order, those above `before` first, it polls every eligible
    one, and it goes on until the budget is spent after one of them; the rotation then stands at the last one polled. */
  ghost predicate InTurn(r: Round, before: int, polled: seq<int>, after: int, cut: nat, n: nat) {
    && cut <= |r.ids| && (forall i | 0 <= i < |r.ids| :: r.ids[i] <= before <==> i < cut)
    && GoesTo(r.ids[cut..] + r.ids[..cut], r, n) && polled == Eligible((r.ids[cut..] + r.ids[..cut])[..n], r)
    && after == (if polled == [] then before else polled[|polled| - 1])
  }

  lemma PollsInTurn(after: int, r: Round) returns (cut: nat, n: nat)
    requires Ascending(r.ids)
    ensures InTurn(r, after, Polls(after, r).polled, Polls(after, r).after, cut, n)
  {
    cut := OrderSplits(r.ids, after);
    n := WalkGoesTo(Order(r.ids, after), after, r);
  }

  ghost predicate TakesTurns(r: Round, before: int, polled: seq<int>, after: int) {
    Ascending(r.ids) ==> exists cut, n :: InTurn(r, before, polled, after, cut, n)
  }

  lemma PollsTakeTurns(after: int, r: Round)
    ensures TakesTurns(r, after, Polls(after, r).polled, Polls(after, r).after)
  {
    if Ascending(r.ids) {
      var _, _ := PollsInTurn(after, r);
    }
  }

  /** A source that may be polled is left out of a round only if the budget was spent after another one of the round. */
  lemma LeftOutForBudget(r: Round, before: int, polled: seq<int>, after: int, cut: nat, n: nat, id: int)
    requires InTurn(r, before, polled, after, cut, n) && id in r.ids && id in r.eligible && id !in polled
    ensures polled != [] && r.spent(after)
  {
    var order := r.ids[cut..] + r.ids[..cut];
    assert r.ids == r.ids[..cut] + r.ids[cut..];
    EligibleHolds(order[..n], r);
    assert order[..|order|] == order;
    if n < |order| {
      assert order[..n] == order[..n - 1] + [order[n - 1]];
      EligibleLast(order[..n - 1], r, order[n - 1]);
    }
  }

  lemma {:induction false} EligibleLast(order: seq<int>, r: Round, x: int)
    requires x in r.eligible
    ensures Eligible(order + [x], r) == Eligible(order, r) + [x]
  {
    if order != [] {
      assert (order + [x])[1..] == order[1..] + [x];
      EligibleLast(order[1..], r, x);
    } else {
      assert [x][1..] == [];
    }
  }

  /** One round that is not cut short by a stop, a disabled account or a cooldown. */
  method PollSources(pollAfter: int, r: Round) returns (polled: seq<int>, after: int)
    ensures Visited(polled, after) == Polls(pollAfter, r)
    ensures TakesTurns(r, pollAfter, polled, after)
  {
    PollsTakeTurns(pollAfter, r);
    var sources := Order(r.ids, pollAfter);
    polled, after := [], pollAfter;
    for i := 0 to |sources|
      invariant Walk(sources, pollAfter, r) ==
        Visited(polled + Walk(sources[i..], after, r).polled, Walk(sources[i..], after, r).after)
    {
      assert sources[i..][1..] == sources[i + 1..];
      if sources[i] !in r.eligible {
        continue;
      }
      after := sources[i];
      polled := polled + [sources[i]];
      if r.spent(sources[i]) {
        return;
      }
    }
  }

  /** Going up from `after` and starting again below, `x` comes before `id`. */
  predicate Between(x: int, after: int, id: int) { if after < id then after < x < id else x > after || x < id }

  /** The sources that stand before `id` in the next round. */
  function Ahead(ids: seq<int>, after: int, id: int): set<int> { set x | x in ids && Between(x, after, id) }

  lemma EarlierIsBetween(ids: seq<int>, after: int, j: nat, k: nat)
    requires Ascending(ids) && j < k < |Order(ids, after)|
    ensures Order(ids, after)[j] in ids && Between(Order(ids, after)[j], after, Order(ids, after)[k])
  {
    var cut := OrderSplits(ids, after);
    var order, up := Order(ids, after), |ids| - cut;
    assert order[j] == ids[if j < up then j + cut else j - up];
    assert order[k] == ids[if k < up then k + cut else k - up];
  }

  lemma OrderHolds(ids: seq<int>, after: int, id: int)
    requires Ascending(ids)
    ensures id in Order(ids, after) <==> id in ids
  {
    var cut := OrderSplits(ids, after);
    assert ids == ids[..cut] + ids[cut..];
  }

  function Arriving(now: seq<int>, next: seq<int>): set<int> { set x | x in next && x !in now }

  /** A round that leaves out a source that may be polled has stopped before it. In the next round, whatever sources
    are there then, the one it stopped at no longer stands before the source, and only new ones have joined. */
  lemma StopBringsCloser(after: int, r: Round, id: int, later: seq<int>)
    requires Ascending(r.ids) && id in r.ids && id in r.eligible && id !in Polls(after, r).polled
    ensures var stop := Polls(after, r).after;
      && stop in Ahead(r.ids, after, id)
      && Ahead(later, stop, id) <= Ahead(r.ids, after, id) - {stop} + Arriving(r.ids, later)
  {
    OrderHolds(r.ids, after, id);
    var j, k := WalkStops(Order(r.ids, after), after, r, id);
    EarlierIsBetween(r.ids, after, j, k);
  }

  // ------------------------------------------------------------------------ rounds

  /** Whether some round of a sequence polls the source. */
  predicate Served(after: int, rounds: seq<Round>, id: int)
    decreases |rounds|
  {
    rounds != [] && (id in Polls(after, rounds[0]).polled || Served(Polls(after, rounds[0]).after, rounds[1..], id))
  }

  /** How many sources join during the rounds, those that come back included. */
  function Arrivals(rounds: seq<Round>): nat {
    if |rounds| < 2 then 0 else |Arriving(rounds[0].ids, rounds[1].ids)| + Arrivals(rounds[1..])
  }

  /** The source is there in every round and may be polled. */
  ghost predicate Waits(rounds: seq<Round>, id: int) {
    forall r | r in rounds :: Ascending(r.ids) && id in r.ids && id in r.eligible
  }

  lemma {:induction false} ServedInTime(after: int, rounds: seq<Round>, id: int)
    requires rounds != [] && Waits(rounds, id)
    requires |Ahead(rounds[0].ids, after, id)| + Arrivals(rounds) < |rounds|
    ensures Served(after, rounds, id)
    decreases |rounds|
  {
    var r, v := rounds[0], Polls(after, rounds[0]);
    if id !in v.polled {
      var ahead := Ahead(r.ids, after, id);
      StopBringsCloser(after, r, id, if |rounds| > 1 then rounds[1].ids else []);
      assert |ahead - {v.after}| == |ahead| - 1;
      if |rounds| > 1 {
        Fewer(Ahead(rounds[1].ids, v.after, id), ahead - {v.after} + Arriving(r.ids, rounds[1].ids));
        ServedInTime(v.after, rounds[1..], id);
      }
    }
  }

  lemma {:induction false} Fewer(a: set<int>, b: set<int>)
    requires a <= b
    ensures |a| <= |b|
  {
    assert b == a + (b - a);
  }

  lemma {:induction false} AheadIsFew(ids: seq<int>, after: int, id: int)
    requires id in ids
    ensures |Ahead(ids, after, id)| < |ids|
  {
    var all := set x | x in ids;
    Fewer(Ahead(ids, after, id) + {id}, all);
    Distinct(ids);
  }

  lemma {:induction false} Distinct(ids: seq<int>)
    ensures |set x | x in ids| <= |ids|
  {
    if ids != [] {
      Distinct(ids[1..]);
      assert (set x | x in ids) == (set x | x in ids[1..]) + {ids[0]};
    }
  }

  /** Fair rotation: with n sources at first, a source that stays eligible is polled within n rounds and one more for
    every source that joins meanwhile, wherever the rotation stands, whichever other sources are eligible or disappear,
    and however early each round's budget runs out. */
  lemma FairRotation(after: int, rounds: seq<Round>, id: int)
    requires rounds != [] && Waits(rounds, id)
    requires |rounds| >= |rounds[0].ids| + Arrivals(rounds)
    ensures Served(after, rounds, id)
  {
    AheadIsFew(rounds[0].ids, after, id);
    ServedInTime(after, rounds, id);
  }
}

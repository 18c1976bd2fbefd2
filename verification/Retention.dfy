/** Batched retention: Plans.expire against one unlimited sweep. */
module Retention {
  import opened Text
  import opened Inbox

  const MAINTENANCE_BATCH := 500
  const FEEDBACK_KEPT := 2000

  // ------------------------------------------------- what each statement matches

  function OverduePlans(db: Db, now: int): set<int> {
    set id | id in db.plans && Overdue(db.plans[id], now)
  }

  predicate Decided(db: Db, id: int) { id in db.plans && !db.plans[id].status.Pending? }

  function OldRecords(db: Db, now: int): set<Key> {
    set k | k in db.journal && db.journal[k].created < now - TTL
            && (db.journal[k].plan.None? || Decided(db, db.journal[k].plan.value))
  }

  /** The ids of the feedback rows newer than `id`. */
  function Newer(feedback: map<int, int>, id: int): set<int> { set j | j in feedback && id < j }

  function OldFeedback(feedback: map<int, int>, now: int): set<int> {
    set id | id in feedback && (feedback[id] < now - RETENTION || |Newer(feedback, id)| >= FEEDBACK_KEPT)
  }

  predicate Referred(db: Db, id: int) { exists k | k in db.journal :: db.journal[k].plan == Some(id) }

  function OldPlans(db: Db, now: int): set<int> {
    set id | id in db.plans && Decided(db, id) && db.plans[id].created < now - RETENTION && !Referred(db, id)
  }

  // ----------------------------------------------------------------- statements

  function ExpiredIn(db: Db, ids: set<int>): Db {
    db.(plans := map id | id in db.plans :: if id in ids then Retired(db.plans[id], Expired) else db.plans[id])
  }

  /** The rows one call picks for its four statements, in order. */
  datatype Selection = Selection(overdue: set<int>, records: set<Key>, feedback: set<int>, plans: set<int>)

  function AfterRecords(db: Db, sel: Selection): Db {
    var d := ExpiredIn(db, sel.overdue);
    d.(journal := d.journal - sel.records)
  }

  function Collected(db: Db, sel: Selection): Db {
    var d := AfterRecords(db, sel);
    d.(feedback := d.feedback - sel.feedback, plans := d.plans - sel.plans)
  }

  /** LIMIT 500 of the matching rows, or all of them. */
  predicate Limited<T>(chosen: set<T>, matching: set<T>) {
    chosen <= matching && |chosen| <= MAINTENANCE_BATCH && (|chosen| == MAINTENANCE_BATCH || chosen == matching)
  }

  /** The rows a call may pick. Of the four ORDER BY clauses only the one of the feedback matters here: lowest id
    first. */
  ghost predicate IsBatch(db: Db, now: int, sel: Selection) {
    && Limited(sel.overdue, OverduePlans(db, now))
    && Limited(sel.records, OldRecords(ExpiredIn(db, sel.overdue), now))
    && Limited(sel.feedback, OldFeedback(db.feedback, now))
    && (forall i, j | i in sel.feedback && j in OldFeedback(db.feedback, now) && j !in sel.feedback :: i < j)
    && Limited(sel.plans, OldPlans(AfterRecords(db, sel), now))
  }

  /** Only matching rows are picked, whatever their number and order. */
  ghost predicate Picks(db: Db, now: int, sel: Selection) {
    && sel.overdue <= OverduePlans(db, now) && sel.records <= OldRecords(ExpiredIn(db, sel.overdue), now)
    && sel.feedback <= OldFeedback(db.feedback, now) && sel.plans <= OldPlans(AfterRecords(db, sel), now)
  }

  /** What expire returns: some statement used its whole limit. */
  predicate Backlog(sel: Selection) {
    |sel.overdue| == MAINTENANCE_BATCH || |sel.records| == MAINTENANCE_BATCH || |sel.feedback| == MAINTENANCE_BATCH
    || |sel.plans| == MAINTENANCE_BATCH
  }

  /** One sweep without any limit. */
  function Everything(db: Db, now: int): Selection {
    var overdue := OverduePlans(db, now);
    var records := OldRecords(ExpiredIn(db, overdue), now);
    var sel := Selection(overdue, records, OldFeedback(db.feedback, now), {});
    sel.(plans := OldPlans(AfterRecords(db, sel), now))
  }

  function Sweep(db: Db, now: int): Db { Collected(db, Everything(db, now)) }

  // ------------------------------------------------------------ what a sweep leaves

  /** A pending plan that is overdue has expired. */
  function PastExpiry(p: Plan, now: int): Plan {
    if p.status == Pending && p.expires < now then p.(status := Expired, revision := p.revision + 1) else p
  }

  /** The plan is no longer pending, by its status or by its time. */
  predicate Over(db: Db, id: int, now: int) {
    id in db.plans && (db.plans[id].status != Pending || db.plans[id].expires < now)
  }

  /** The unlimited sweep: overdue plans expire; a journal row goes after a week unless its plan is still pending; a
    correction goes after thirty days or behind two thousand newer ones; and a plan that is over goes after thirty days
    once no journal row names it. Nothing else changes. */
  lemma SweepLeaves(db: Db, now: int)
    ensures var e := Sweep(db, now);
      && e.store == db.store && e.sources == db.sources
      && e.plans.Keys <= db.plans.Keys && e.journal.Keys <= db.journal.Keys && e.feedback.Keys <= db.feedback.Keys
    ensures var e := Sweep(db, now);
      forall k | k in db.journal ::
        && (k in e.journal <==>
              || db.journal[k].created >= now - 7 * 86400
              || (db.journal[k].plan.Some? && !Over(db, db.journal[k].plan.value, now)))
        && (k in e.journal ==> e.journal[k] == db.journal[k])
    ensures var e := Sweep(db, now);
      forall id | id in db.plans ::
        && (id in e.plans <==>
              || !Over(db, id, now) || db.plans[id].created >= now - 30 * 86400
              || exists k | k in e.journal :: e.journal[k].plan == Some(id))
        && (id in e.plans ==> e.plans[id] == PastExpiry(db.plans[id], now))
    ensures var e := Sweep(db, now);
      forall id | id in db.feedback ::
        && (id in e.feedback <==>
              db.feedback[id] >= now - 30 * 86400 && |set j | j in db.feedback && id < j| < 2000)
        && (id in e.feedback ==> e.feedback[id] == db.feedback[id])
  {
    SweepRecords(db, now);
    SweepPlans(db, now);
    forall id | id in db.feedback
      ensures id in OldFeedback(db.feedback, now) <==>
        !(db.feedback[id] >= now - 30 * 86400 && |set j | j in db.feedback && id < j| < 2000)
    {
      assert Newer(db.feedback, id) == set j | j in db.feedback && id < j;
    }
  }

  lemma SweepRecords(db: Db, now: int)
    ensures var e := Sweep(db, now);
      forall k | k in db.journal ::
        && (k in e.journal <==>
              || db.journal[k].created >= now - 7 * 86400
              || (db.journal[k].plan.Some? && !Over(db, db.journal[k].plan.value, now)))
        && (k in e.journal ==> e.journal[k] == db.journal[k])
  {
    var d := ExpiredIn(db, OverduePlans(db, now));
    assert forall id | id in db.plans :: d.plans[id] == PastExpiry(db.plans[id], now);
    assert forall id :: Decided(d, id) <==> Over(db, id, now);
  }

  lemma SweepPlans(db: Db, now: int)
    ensures var e := Sweep(db, now);
      forall id | id in db.plans ::
        && (id in e.plans <==>
              || !Over(db, id, now) || db.plans[id].created >= now - 30 * 86400
              || exists k | k in e.journal :: e.journal[k].plan == Some(id))
        && (id in e.plans ==> e.plans[id] == PastExpiry(db.plans[id], now))
  {
    var d := AfterRecords(db, Everything(db, now));
    assert forall id | id in db.plans :: d.plans[id] == PastExpiry(db.plans[id], now);
    assert forall id :: Decided(d, id) <==> Over(db, id, now);
    assert forall id :: Referred(d, id) <==> exists k | k in d.journal :: d.journal[k].plan == Some(id);
    assert Sweep(db, now).journal == d.journal;
  }

  // ------------------------------------------------------- a batch keeps the sweep

  lemma FeedbackSweep(feedback: map<int, int>, now: int, chosen: set<int>)
    requires chosen <= OldFeedback(feedback, now)
    requires forall i, j | i in chosen && j in OldFeedback(feedback, now) && j !in chosen :: i < j
    ensures (feedback - chosen) - OldFeedback(feedback - chosen, now) == feedback - OldFeedback(feedback, now)
  {
    var rest := feedback - chosen;
    forall id | id in rest ensures id in OldFeedback(rest, now) <==> id in OldFeedback(feedback, now) {
      assert Newer(rest, id) <= Newer(feedback, id);
      Smaller(Newer(rest, id), Newer(feedback, id));
      if id in OldFeedback(feedback, now) {
        assert Newer(rest, id) == Newer(feedback, id);
      }
    }
  }

  /** The plans once every overdue one has expired. */
  function AllExpired(db: Db, now: int): Db { ExpiredIn(db, OverduePlans(db, now)) }

  lemma ExpirySweep(db: Db, now: int, sel: Selection)
    requires IsBatch(db, now, sel)
    ensures AllExpired(Collected(db, sel), now).plans == AllExpired(db, now).plans - sel.plans
  {
    var x, y := AllExpired(Collected(db, sel), now).plans, AllExpired(db, now).plans - sel.plans;
    assert x.Keys == y.Keys == db.plans.Keys - sel.plans;
    forall id | id in x ensures x[id] == y[id] {
      assert id in sel.overdue ==> id in OverduePlans(db, now);
      assert id in OverduePlans(Collected(db, sel), now) <==> id in OverduePlans(db, now) && id !in sel.overdue;
    }
  }

  /** The records a batch has picked, and those the sweep would pick afterwards, are the records of the sweep. */
  lemma RecordsSweep(db: Db, now: int, sel: Selection)
    requires IsBatch(db, now, sel)
    ensures sel.records <= OldRecords(AllExpired(db, now), now)
    ensures OldRecords(AllExpired(Collected(db, sel), now), now) == OldRecords(AllExpired(db, now), now) - sel.records
  {
    var next := Collected(db, sel);
    ExpirySweep(db, now, sel);
    forall k | k in sel.records ensures k in OldRecords(AllExpired(db, now), now) {
      assert k in OldRecords(ExpiredIn(db, sel.overdue), now);
    }
    forall k | k in next.journal && next.journal[k].plan.Some? ensures next.journal[k].plan.value !in sel.plans {
      var d := AfterRecords(db, sel);
      assert k in d.journal && Referred(d, next.journal[k].plan.value);
    }
    forall k | k in next.journal
      ensures k in OldRecords(AllExpired(next, now), now) <==> k in OldRecords(AllExpired(db, now), now)
    {
    }
  }

  /** The journal once every old record is gone. */
  function AllRecordsGone(db: Db, now: int): Db {
    AllExpired(db, now).(journal := db.journal - OldRecords(AllExpired(db, now), now))
  }

  lemma ReferencesSweep(db: Db, now: int, sel: Selection, id: int)
    requires IsBatch(db, now, sel)
    ensures AllRecordsGone(Collected(db, sel), now).journal == AllRecordsGone(db, now).journal
    ensures Referred(AllRecordsGone(Collected(db, sel), now), id) <==> Referred(AllRecordsGone(db, now), id)
  {
    RecordsSweep(db, now, sel);
    var x, y := AllRecordsGone(Collected(db, sel), now), AllRecordsGone(db, now);
    assert x.journal == y.journal;
  }

  lemma PlansSweep(db: Db, now: int, sel: Selection)
    requires IsBatch(db, now, sel)
    ensures sel.plans <= OldPlans(AllRecordsGone(db, now), now)
    ensures OldPlans(AllRecordsGone(Collected(db, sel), now), now) == OldPlans(AllRecordsGone(db, now), now) - sel.plans
  {
    var x, y := AllRecordsGone(Collected(db, sel), now), AllRecordsGone(db, now);
    ExpirySweep(db, now, sel);
    RecordsSweep(db, now, sel);
    forall id | id in sel.plans ensures id in OldPlans(y, now) {
      assert id in OldPlans(AfterRecords(db, sel), now);
      assert !Referred(AfterRecords(db, sel), id);
      var left := AfterRecords(db, sel).journal;
      assert forall k | k in y.journal :: k in left && y.journal[k] == left[k];
    }
    forall id | id in x.plans ensures id in OldPlans(x, now) <==> id in OldPlans(y, now) {
      ReferencesSweep(db, now, sel, id);
    }
  }

  lemma RemoveTwice<K, V>(m: map<K, V>, part: set<K>, all: set<K>)
    requires part <= all
    ensures (m - part) - (all - part) == m - all
  {
  }

  lemma SweepParts(db: Db, now: int)
    ensures Sweep(db, now) == AllRecordsGone(db, now).(feedback := db.feedback - OldFeedback(db.feedback, now),
              plans := AllExpired(db, now).plans - OldPlans(AllRecordsGone(db, now), now))
  {
  }

  /** A batch leaves unchanged what the sweep would leave. */
  lemma BatchKeepsSweep(db: Db, now: int, sel: Selection)
    requires IsBatch(db, now, sel)
    ensures Sweep(Collected(db, sel), now) == Sweep(db, now)
  {
    SweepParts(db, now);
    SweepParts(Collected(db, sel), now);
    ExpirySweep(db, now, sel);
    RecordsSweep(db, now, sel);
    PlansSweep(db, now, sel);
    FeedbackSweep(db.feedback, now, sel.feedback);
    RemoveTwice(db.journal, sel.records, OldRecords(AllExpired(db, now), now));
    RemoveTwice(AllExpired(db, now).plans, sel.plans, OldPlans(AllRecordsGone(db, now), now));
  }

  /** A call that reports no backlog has done the whole sweep. */
  lemma NoBacklogIsSweep(db: Db, now: int, sel: Selection)
    requires IsBatch(db, now, sel) && !Backlog(sel)
    ensures Collected(db, sel) == Sweep(db, now)
  {
  }

  /** Each backlog call works some of this off. */
  function Load(db: Db, now: int): nat {
    |OverduePlans(db, now)| + |db.journal| + |db.feedback| + |db.plans|
  }

  lemma BacklogShrinks(db: Db, now: int, sel: Selection)
    requires IsBatch(db, now, sel) && Backlog(sel)
    ensures Load(Collected(db, sel), now) < Load(db, now)
  {
    OverdueShrinks(db, now, sel);
    Fewer(db.journal, sel.records);
    Fewer(db.feedback, sel.feedback);
    Fewer(ExpiredIn(db, sel.overdue).plans, sel.plans);
    assert ExpiredIn(db, sel.overdue).plans.Keys == db.plans.Keys;
  }

  lemma Fewer<K, V>(m: map<K, V>, gone: set<K>)
    requires gone <= m.Keys
    ensures |m - gone| == |m| - |gone|
  {
    assert (m - gone).Keys == m.Keys - gone;
  }

  lemma OverdueShrinks(db: Db, now: int, sel: Selection)
    requires IsBatch(db, now, sel)
    ensures |OverduePlans(Collected(db, sel), now)| <= |OverduePlans(db, now)| - |sel.overdue|
  {
    var d := Collected(db, sel);
    forall id | id in OverduePlans(d, now) ensures id in OverduePlans(db, now) - sel.overdue {
    }
    Smaller(OverduePlans(d, now), OverduePlans(db, now) - sel.overdue);
  }

  /** The states that repeated calls at one instant pass through. */
  ghost predicate Repeats(db: Db, now: int, calls: seq<Selection>)
    decreases |calls|
  {
    && calls != []
    && IsBatch(db, now, calls[0])
    && (Backlog(calls[0]) <==> |calls| > 1)
    && (|calls| > 1 ==> Repeats(Collected(db, calls[0]), now, calls[1..]))
  }

  /** Successive calls at one instant that all report a backlog. */
  ghost predicate KeepsReporting(db: Db, now: int, calls: seq<Selection>)
    decreases |calls|
  {
    calls != [] ==>
      && IsBatch(db, now, calls[0]) && Backlog(calls[0])
      && KeepsReporting(Collected(db, calls[0]), now, calls[1..])
  }

  /** Calling expire cannot go on reporting a backlog: there are at most as many such calls as rows to handle. */
  lemma {:induction false} BacklogEnds(db: Db, now: int, calls: seq<Selection>)
    requires KeepsReporting(db, now, calls)
    ensures |calls| <= Load(db, now)
    decreases |calls|
  {
    if calls != [] {
      BacklogShrinks(db, now, calls[0]);
      BacklogEnds(Collected(db, calls[0]), now, calls[1..]);
    }
  }

  function AfterCalls(db: Db, calls: seq<Selection>): Db
    decreases |calls|
  {
    if calls == [] then db else AfterCalls(Collected(db, calls[0]), calls[1..])
  }

  /** Calling expire at one instant until it returns False ends after at most one call more than there are rows to
    handle, in exactly the state of one unlimited sweep. */
  lemma {:induction false} BatchesAreOneSweep(db: Db, now: int, calls: seq<Selection>)
    requires Repeats(db, now, calls)
    ensures AfterCalls(db, calls) == Sweep(db, now) && |calls| <= Load(db, now) + 1
    decreases |calls|
  {
    BatchKeepsSweep(db, now, calls[0]);
    if |calls| > 1 {
      BacklogShrinks(db, now, calls[0]);
      BatchesAreOneSweep(Collected(db, calls[0]), now, calls[1..]);
    } else {
      NoBacklogIsSweep(db, now, calls[0]);
      assert AfterCalls(db, calls) == Collected(db, calls[0]);
    }
  }

  // -------------------------------------------------------------- what is spared

  /** No journal row points to a missing plan. */
  ghost predicate NoDangling(db: Db) {
    forall k | k in db.journal && db.journal[k].plan.Some? :: db.journal[k].plan.value in db.plans
  }

  /** A plan that stays pending stays in the table with its journal row, and no journal row is left pointing nowhere. */
  lemma PendingIsSpared(db: Db, now: int, sel: Selection)
    requires Picks(db, now, sel) && NoDangling(db) && InboxSound(db)
    ensures NoDangling(Collected(db, sel)) && PlansEvolve(db, Collected(db, sel))
    ensures forall id | id in db.plans && db.plans[id].status.Pending? && id !in sel.overdue ::
      id in Collected(db, sel).plans && Collected(db, sel).plans[id] == db.plans[id]
    ensures forall k | k in db.journal && db.journal[k].plan.Some? :: var id := db.journal[k].plan.value;
      db.plans[id].status.Pending? && id !in sel.overdue ==> k in Collected(db, sel).journal
    ensures forall id | id in db.plans && db.plans[id].status.Pending? && !Overdue(db.plans[id], now) ::
      id !in sel.overdue
    ensures InboxSound(Collected(db, sel))
  {
    FewerPending(db, Collected(db, sel));
  }
}

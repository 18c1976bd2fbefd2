/** Plans: the inbox tables as fields updated in place, on top of the task database they share. */
module PlansDatabase {
  import opened Text
  import opened TaskStore
  import opened Inbox
  import opened Retention
  import TaskDatabase

  /** Order of a query: by the first number, then by the second. */
  predicate Before(a: (int, int), b: (int, int)) { a.0 < b.0 || (a.0 == b.0 && a.1 < b.1) }

  lemma {:induction false} FirstExists<T(!new)>(rows: set<T>, rank: T -> (int, int))
    requires rows != {}
    ensures exists m | m in rows :: forall o | o in rows :: !Before(rank(o), rank(m))
  {
    var x :| x in rows;
    if rows == {x} {
      assert forall o | o in rows :: !Before(rank(o), rank(x));
    } else {
      FirstExists(rows - {x}, rank);
      var m :| m in rows - {x} && forall o | o in rows - {x} :: !Before(rank(o), rank(m));
      var best := if Before(rank(x), rank(m)) then x else m;
      assert forall o | o in rows :: !Before(rank(o), rank(best));
    }
  }

  /** ORDER BY rank LIMIT 500 over the matching rows. */
  method TakeFirst<T(==, !new)>(matching: set<T>, rank: T -> (int, int)) returns (chosen: set<T>)
    ensures Limited(chosen, matching)
    ensures forall a, b | a in chosen && b in matching && b !in chosen :: !Before(rank(b), rank(a))
  {
    chosen := {};
    var rest := matching;
    while |chosen| < MAINTENANCE_BATCH && rest != {}
      invariant chosen <= matching && rest == matching - chosen && |chosen| <= MAINTENANCE_BATCH
      invariant forall a, b | a in chosen && b in rest :: !Before(rank(b), rank(a))
      decreases |rest|
    {
      FirstExists(rest, rank);
      var m :| m in rest && forall o | o in rest :: !Before(rank(o), rank(m));
      chosen := chosen + {m};
      rest := rest - {m};
    }
  }

  class Plans {
    const db: TaskDatabase.TaskDB
    var sources: map<int, Source>
    var journal: map<Key, Record>
    var plans: map<int, Plan>
    var feedback: map<int, int>

    function View(): Db
      reads this, db
    {
      Db(db.View(), sources, journal, plans, feedback)
    }

    constructor (db: TaskDatabase.TaskDB)
      ensures this.db == db && View() == Db(db.View(), map[], map[], map[], map[])
    {
      this.db := db;
      sources, journal, plans, feedback := map[], map[], map[], map[];
    }

    /** create: the transaction starts by expiring the owner's overdue plans and undoes that too when it raises. */
    method Create(q: Request, row: int, now: int) returns (r: Registration)
      requires row !in plans
      modifies this
      ensures r == RegisterResult(old(View()), q, now) && View() == Register(old(View()), q, row, now)
    {
      var saved := plans;
      plans := map id | id in plans ::
        if plans[id].owner == q.actor && Overdue(plans[id], now) then Retired(plans[id], Expired) else plans[id];
      assert forall id | id in plans ::
          For(saved[id], q.identity, q.item.chat, q.item.message) ==
          For(plans[id], q.identity, q.item.chat, q.item.message);
      if !SourceAllows(View(), q) {
        plans := saved;
        return Rejected;
      }
      if exists id | id in plans :: For(plans[id], q.identity, q.item.chat, q.item.message) {
        return Known;
      }
      if |set id | id in plans && plans[id].owner == q.actor && plans[id].status.Pending?| >= MAX_PENDING
          || !q.directoryOk {
        plans := saved;
        return Rejected;
      }
      plans := plans[row := NewPlan(q, now)];
      if q.source.Some? {
        var k := Key(sources[q.source.value].account, q.item.chat, q.item.message);
        if k in journal {
          plans := saved;
          return Rejected;
        }
        journal := journal[k := Record(q.source.value, Some(row), now)];
      }
      return Registered;
    }

    /** journal: INSERT OR IGNORE. */
    method Decide(k: Key, source: int, now: int)
      modifies this`journal
      ensures View() == Journal(old(View()), k, source, now)
    {
      if k !in journal {
        journal := journal[k := Record(source, None, now)];
      }
    }

    method Edit(id: int, r: EditRequest, note: int, now: int) returns (edited: bool)
      modifies this
      ensures edited <==> EditAllowed(old(View()), id, r, now)
      ensures View() == Inbox.Edit(old(View()), id, r, note, now)
    {
      edited := EditAllowed(View(), id, r, now);
      if edited {
        var p := plans[id];
        if r.name.Some? {
          feedback := feedback[note := now];
          p := p.(item := p.item.(fileName := r.name.value));
        }
        plans := plans[id := p.(status := if r.ignore then Ignored else Pending, revision := p.revision + 1)];
      }
    }

    /** submit: creates or finds the task in the shared database and links it in the same transaction. */
    method Submit(actor: int, id: int, revision: nat, valid: bool, now: int) returns (r: Submission)
      modifies this, db
      ensures r == SubmitResult(old(View()), actor, id, revision, valid, now, db.calendar)
      ensures View() == Inbox.Submit(old(View()), actor, id, revision, valid, now, db.calendar)
      // a sent plan is linked to a task that is in the table, to one created for it if none was; nothing else changes
      ensures r.Sent? ==>
                && id in old(plans) && plans == old(plans)[id := plans[id]]
                && plans[id].status == Submitted && plans[id].task == Some(r.task) && r.task in db.tasks
                && IsFor(db.tasks[r.task], old(plans)[id])
      ensures r.Sent? && r.created ==>
                && r.task == old(db.last) + 1 && db.tasks == old(db.tasks)[r.task := db.tasks[r.task]]
                && Inbox.IsNew(db.tasks[r.task], old(plans)[id]) && HoldsQuota(db.View(), Some(r.task))
      ensures r.Sent? && !r.created ==> db.View() == old(db.View())
      ensures !r.Sent? ==> View() == old(View())
    {
      SubmitLinks(View(), actor, id, revision, valid, now, db.calendar);
      if id !in plans || plans[id].owner != actor {
        return Refused;
      }
      var p := plans[id];
      if p.status.Submitted? && p.task.Some? {
        return Linked(p.task.value);
      }
      if !Visible(p, now).Pending? || p.revision != revision {
        return Refused;
      }
      if (p.source.Some? && (p.source.value !in sources || sources[p.source.value].deleted)) || !valid {
        return Refused;
      }
      var made := db.CreateTask(TaskOf(p), Some(p.admittedAt), now);
      match made {
        case Existing(task) =>
          plans := plans[id := p.(status := Submitted, task := Some(task), revision := p.revision + 1)];
          return Sent(task, false);
        case Fresh(task) =>
          plans := plans[id := p.(status := Submitted, task := Some(task), revision := p.revision + 1)];
          return Sent(task, true);
        case _ =>
          return Refused;
      }
    }

    method ChangeSource(id: int, ch: Change, now: int) returns (changed: bool)
      modifies this
      ensures changed <==> ChangeAllowed(old(View()), id, ch)
      ensures View() == Inbox.ChangeSource(old(View()), id, ch, now)
    {
      if id !in sources || sources[id].revision != ch.revision || sources[id].deleted || !ch.valid
         || (ch.cursor.Some? && ch.cursor.value < 0) {
        return false;
      }
      var s := sources[id];
      var enabled := if ch.enabled.Some? then ch.enabled.value else s.enabled;
      if ch.modeChanged {
        enabled := false;
      }
      if ch.cursor.Some? {
        s := s.(cursor := ch.cursor.value, gap := false, polledAt := now);
      }
      if ch.delete {
        enabled := false;
        plans := map p | p in plans ::
          if plans[p].source == Some(id) && plans[p].status.Pending? then Retired(plans[p], Ignored) else plans[p];
      }
      var confirmation := if ch.confirmation.Some? then ch.confirmation.value else s.confirmation;
      sources := sources[id := s.(confirmation := confirmation,
                                  enabled := enabled, deleted := ch.delete, revision := s.revision + 1)];
      return true;
    }

    /** The four statements of expire, each over at most 500 rows in its query's order. */
    method ExpirePlans(now: int) returns (overdue: set<int>)
      modifies this`plans
      ensures Limited(overdue, OverduePlans(old(View()), now)) && View() == ExpiredIn(old(View()), overdue)
      ensures forall a, b | a in overdue && b in OverduePlans(old(View()), now) && b !in overdue ::
                !Before((old(plans)[b].expires, b), (old(plans)[a].expires, a))
    {
      var p := plans;
      overdue := TakeFirst(OverduePlans(View(), now), id => if id in p then (p[id].expires, id) else (0, id));
      plans := map id | id in plans :: if id in overdue then Retired(plans[id], Expired) else plans[id];
    }

    method DeleteRecords(now: int) returns (records: set<Key>)
      modifies this`journal
      ensures Limited(records, OldRecords(old(View()), now))
      ensures View() == old(View()).(journal := old(journal) - records)
      ensures forall a, b | a in records && b in OldRecords(old(View()), now) && b !in records ::
                old(journal)[a].created <= old(journal)[b].created
    {
      var j := journal;
      records := TakeFirst(OldRecords(View(), now), k => if k in j then (j[k].created, 0) else (0, 0));
      journal := journal - records;
    }

    method DeleteFeedback(now: int) returns (notes: set<int>)
      modifies this`feedback
      ensures Limited(notes, OldFeedback(old(feedback), now))
      ensures forall i, j | i in notes && j in OldFeedback(old(feedback), now) && j !in notes :: i < j
      ensures View() == old(View()).(feedback := old(feedback) - notes)
    {
      notes := TakeFirst(OldFeedback(feedback, now), (id: int) => (id, 0));
      feedback := feedback - notes;
    }

    method DeletePlans(now: int) returns (gone: set<int>)
      modifies this`plans
      ensures Limited(gone, OldPlans(old(View()), now)) && View() == old(View()).(plans := old(plans) - gone)
      ensures forall a, b | a in gone && b in OldPlans(old(View()), now) && b !in gone ::
                !Before((old(plans)[b].created, b), (old(plans)[a].created, a))
    {
      var p := plans;
      gone := TakeFirst(OldPlans(View(), now), id => if id in p then (p[id].created, id) else (0, id));
      plans := plans - gone;
    }

    /** expire: `picked` names the rows its statements took. */
    method Expire(now: int) returns (backlog: bool, ghost picked: Selection)
      modifies this
      ensures IsBatch(old(View()), now, picked) && backlog == Backlog(picked)
      ensures View() == Collected(old(View()), picked)
      ensures |picked.overdue| <= 500 && |picked.records| <= 500 && |picked.feedback| <= 500 && |picked.plans| <= 500
      ensures backlog <==>
                || |picked.overdue| == 500 || |picked.records| == 500 || |picked.feedback| == 500
                || |picked.plans| == 500
    {
      ghost var start := View();
      var overdue := ExpirePlans(now);
      var records := DeleteRecords(now);
      ghost var mid := View();
      var notes := DeleteFeedback(now);
      assert View() == mid.(feedback := View().feedback);
      SameOldPlans(mid, View(), now);
      var gone := DeletePlans(now);
      picked := Selection(overdue, records, notes, gone);
      assert mid == AfterRecords(start, picked);
      backlog := |overdue| == MAINTENANCE_BATCH || |records| == MAINTENANCE_BATCH || |notes| == MAINTENANCE_BATCH
        || |gone| == MAINTENANCE_BATCH;
    }
  }

  /** Feedback does not decide which plans are old. */
  lemma SameOldPlans(db: Db, next: Db, now: int)
    requires next == db.(feedback := next.feedback)
    ensures OldPlans(next, now) == OldPlans(db, now)
  {
    assert forall id :: Referred(next, id) == Referred(db, id);
  }
}

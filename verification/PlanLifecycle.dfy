/** The life of plans over whole runs of the listener and everything around it. */
module PlanLifecycle {
  import opened Text
  import opened TaskStore
  import opened Totals
  import opened Inbox
  import opened Retention
  import opened Polling

  ghost predicate InboxKept(db: Db) { InboxSound(db) && NoDangling(db) }

  ghost predicate Moves(db: Db, next: Db) { InboxKept(next) && PlansEvolve(db, next) }

  lemma DisturbMoves(db: Db, o: Outside, now: int, c: Calendar)
    requires InboxKept(db) && OutsideEnabled(db, o, now)
    ensures Moves(db, Disturb(db, o, now, c))
  {
    match o
    case EditPlan(id, edit, note) => EditSound(db, id, edit, note, now);
    case SubmitPlan(actor, plan, revision, valid) => SubmitSound(db, actor, plan, revision, valid, now, c);
    case ManualPlan(q, row) => RegisterSound(db, q, row, now);
    case Alter(id, change) => ChangeSound(db, id, change, now);
    case Save(_, _, _, _, _) => FewerPending(db, Disturb(db, o, now, c));
    case Stop(_, _, _, _) => FewerPending(db, Disturb(db, o, now, c));
    case Collect(sel) => PendingIsSpared(db, now, sel);
    case TaskStep(op) =>
      TasksStay(db.store, op, now, c);
      FewerPending(db, Disturb(db, o, now, c));
  }

  /** Receiving registers a plan and may submit it in the same stretch; the two moves make one. */
  lemma MovesCompose(db: Db, mid: Db, next: Db)
    requires InboxKept(db) && Moves(db, mid) && Moves(mid, next)
    requires forall id | id in db.plans && id in next.plans :: id in mid.plans
    ensures Moves(db, next)
  {
    forall id | id in db.plans && id in next.plans ensures Evolves(db.plans[id], next.plans[id]) {
      EvolvesTransitive(db.plans[id], mid.plans[id], next.plans[id]);
    }
  }

  lemma RegisterMoves(db: Db, q: Request, row: int, now: int)
    requires InboxKept(db) && row !in db.plans
    ensures Moves(db, Register(db, q, row, now)) && db.plans.Keys <= Register(db, q, row, now).plans.Keys
  {
    RegisterSound(db, q, row, now);
  }

  lemma EnrolMoves(db: Db, q: Request, confirmation: bool, x: Context, now: int, c: Calendar)
    requires InboxKept(db) && x.row !in db.plans
    ensures var v := Enrol(db, q, confirmation, x, now, c); !v.Returns? && Moves(db, v.db)
  {
    RegisterMoves(db, q, x.row, now);
    var d := Register(db, q, x.row, now);
    var id := if RegisterResult(db, q, now).Registered? then x.row else x.known;
    if !RegisterResult(db, q, now).Rejected? && id in d.plans {
      SubmitSound(d, x.admin, id, d.plans[id].revision, x.valid, now, c);
      MovesCompose(db, d, Submit(d, x.admin, id, d.plans[id].revision, x.valid, now, c));
    }
  }

  lemma DecideMoves(w: World, sid: int, revision: nat, m: Message, x: Context, c: Calendar)
    requires InboxKept(w.db) && x.row !in w.db.plans
    ensures var v := Decide(w, sid, revision, m, x, c); v.Returns? || Moves(w.db, v.db)
  {
    SourcesOnly(w.db, w.db);
    if sid in w.db.sources {
      var src := w.db.sources[sid];
      EnrolMoves(w.db, RequestFor(src, sid, m, x), src.confirmation, x, w.now, c);
      JournalMoves(w.db, KeyFor(src, m), sid, w.now);
    }
  }

  /** A stretch of the poll that only moves a cursor. */
  lemma SourcesOnly(db: Db, next: Db)
    requires InboxKept(db) && next.plans == db.plans && next.journal == db.journal && next.store == db.store
    ensures Moves(db, next)
  {
    FewerPending(db, next);
  }

  lemma SettleMoves(w: World, v: Verdict, notify: bool)
    requires InboxKept(w.db) && (v.Returns? || Moves(w.db, v.db))
    requires (w.poll.Handling? || w.poll.Checking?) && w.poll.i < |Kept(w.poll.page)|
    ensures Moves(w.db, Settle(w, v, notify).db)
  {
    var next := Settle(w, v, notify).db;
    if v.Returns? {
      SourcesOnly(w.db, next);
    } else {
      SourcesOnly(v.db, next);
    }
  }

  lemma EnlistMoves(w: World, p: Preview, admin: int, row: int, directoryOk: bool, j: nat)
    requires InboxKept(w.db) && j < |p.items| && p.source in w.db.sources && row !in w.db.plans
    ensures var r := Enlist(w, p, admin, row, directoryOk, j);
      r.Some? ==> Moves(w.db, r.value.db) && w.db.plans.Keys <= r.value.db.plans.Keys
  {
    RegisterMoves(w.db, CandidateRequest(w, p, admin, directoryOk, j), row, w.now);
    SourcesOnly(w.db, w.db);
  }

  lemma {:induction false} BackfillMoves(w: World, p: Preview, admin: int, rows: seq<int>, directoryOk: bool, j: nat)
    requires InboxKept(w.db) && j <= |p.items| == |rows| && p.source in w.db.sources
    requires forall i | j <= i < |rows| :: rows[i] !in w.db.plans
    requires forall i, l | 0 <= i < l < |rows| :: rows[i] != rows[l]
    ensures var u := Backfill(w, p, admin, rows, directoryOk, j);
      u.Some? ==> Moves(w.db, u.value.db) && w.db.plans.Keys <= u.value.db.plans.Keys
    decreases |p.items| - j
  {
    if j == |p.items| {
      SourcesOnly(w.db, w.db);
    } else {
      EnlistMoves(w, p, admin, rows[j], directoryOk, j);
      EnlistFresh(w, p, admin, rows[j], directoryOk, j);
      var r := Enlist(w, p, admin, rows[j], directoryOk, j);
      if r.Some? {
        BackfillMoves(r.value, p, admin, rows, directoryOk, j + 1);
        var end := Backfill(r.value, p, admin, rows, directoryOk, j + 1);
        if end.Some? {
          MovesCompose(w.db, r.value.db, end.value.db);
        }
      }
    }
  }

  lemma HandleMoves(w: World, cached: bool, x: Context, d: Dates, c: Calendar)
    requires InboxKept(w.db) && Possible(w, HandleNext(cached, x), d)
    ensures Moves(w.db, Handle(w, cached, x, d, c).db)
  {
    var p, m := w.poll, Kept(w.poll.page)[w.poll.i];
    var k, next := KeyFor(p.src, m), Handle(w, cached, x, d, c).db;
    if w.now - d(k) >= SETTLE && PollCurrent(w) && w.now - d(k) > LOOKBACK {
      JournalMoves(w.db, k, p.sid, w.now);
      SourcesOnly(Journal(w.db, k, p.sid, w.now), next);
    } else if w.now - d(k) >= SETTLE && PollCurrent(w) && cached {
      DecideMoves(w, p.sid, p.src.revision, m, x, c);
      SettleMoves(w, Decide(w, p.sid, p.src.revision, m, x, c), x.notify);
    } else {
      SourcesOnly(w.db, next);
    }
  }

  lemma JournalMoves(db: Db, k: Key, source: int, now: int)
    requires InboxKept(db)
    ensures Moves(db, Journal(db, k, source, now)) && Journal(db, k, source, now).plans == db.plans
  {
    FewerPending(db, Journal(db, k, source, now));
  }

  /** Each step moves every plan only forward, keeps owners at 200 pending plans, links a task of the table exactly to
    submitted plans, and leaves no journal row pointing to a missing plan. */
  lemma StepMoves(w: World, a: Action, d: Dates, c: Calendar)
    requires InboxKept(w.db) && Possible(w, a, d)
    ensures Moves(w.db, Next(w, a, d, c).db)
  {
    match a {
      case HandleNext(cached, x) => HandleMoves(w, cached, x, d, c);
      case PermissionChecked(x) =>
        var m := Kept(w.poll.page)[w.poll.i];
        DecideMoves(w, w.poll.sid, w.poll.src.revision, m, x, c);
        SettleMoves(w, Decide(w, w.poll.sid, w.poll.src.revision, m, x, c), x.notify);
      case ConfirmHistory(p, admin, rows, directoryOk) =>
        SourcesOnly(w.db, w.db);
        if p.source in w.db.sources {
          BackfillMoves(w, p, admin, rows, directoryOk, 0);
        }
      case Disturbed(o) => DisturbMoves(w.db, o, w.now, c);
      case _ => SourcesOnly(w.db, Next(w, a, d, c).db);
    }
  }

  /** A plan that stays in the table through a run. */
  ghost predicate Persists(w: World, actions: seq<Action>, d: Dates, c: Calendar, id: int)
    decreases |actions|
  {
    id in w.db.plans && (actions != [] ==> Persists(Next(w, actions[0], d, c), actions[1..], d, c, id))
  }

  lemma StartKept(now: int)
    ensures InboxKept(Start(now).db)
  {
    forall owner: int ensures |PendingOf(Start(now).db, owner)| <= MAX_PENDING {
      assert PendingOf(Start(now).db, owner) == {};
    }
  }

  /** Plan lifecycle: over every run no owner has more than 200 pending plans, submitted plans and only they carry a
    task, which is in the task table, and a plan that stays in the table only ever leaves pending, under a growing
    revision, and never returns. */
  lemma {:induction false} LifecycleHolds(w: World, actions: seq<Action>, d: Dates, c: Calendar)
    requires InboxKept(w.db) && Plays(w, actions, d, c)
    ensures InboxKept(Play(w, actions, d, c).db)
    ensures forall id | Persists(w, actions, d, c, id) ::
      id in Play(w, actions, d, c).db.plans && Evolves(w.db.plans[id], Play(w, actions, d, c).db.plans[id])
    decreases |actions|
  {
    if actions != [] {
      var u := Next(w, actions[0], d, c);
      StepMoves(w, actions[0], d, c);
      LifecycleHolds(u, actions[1..], d, c);
      forall id | Persists(w, actions, d, c, id)
        ensures id in Play(w, actions, d, c).db.plans && Evolves(w.db.plans[id], Play(w, actions, d, c).db.plans[id])
      {
        assert Persists(u, actions[1..], d, c, id);
        EvolvesTransitive(w.db.plans[id], u.db.plans[id], Play(w, actions, d, c).db.plans[id]);
      }
    }
  }

  /** Submitting again, at the end of any run and with any revision, returns the one task of the submission and changes
    nothing, for as long as the plan is in the table. */
  lemma ResubmitsAfterRun(w: World, actions: seq<Action>, d: Dates, c: Calendar, id: int, revision: nat, valid: bool)
    requires InboxKept(w.db) && Plays(w, actions, d, c)
    requires Persists(w, actions, d, c, id) && w.db.plans[id].status.Submitted?
    ensures var p, u := w.db.plans[id], Play(w, actions, d, c);
      && p.task.Some? && SubmitResult(u.db, p.owner, id, revision, valid, u.now, c) == Linked(p.task.value)
      && Submit(u.db, p.owner, id, revision, valid, u.now, c) == u.db
  {
    LifecycleHolds(w, actions, d, c);
  }

  /** In particular from the start. */
  lemma LifecycleFromStart(now: int, actions: seq<Action>, d: Dates, c: Calendar)
    requires Plays(Start(now), actions, d, c)
    ensures InboxKept(Play(Start(now), actions, d, c).db)
  {
    StartKept(now);
    LifecycleHolds(Start(now), actions, d, c);
  }
}

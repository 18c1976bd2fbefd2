/** Intake at most once: no message gets two plans, because a plan outlives every window that could read it again. */
module IntakeOnce {
  import opened States
  import opened Text
  import opened TaskStore
  import opened Inbox
  import opened Retention
  import opened Polling

  /** The oldest a message can be when a plan is created for it: a day's history, scanned and confirmed in time, or the
    polling window and one poll's time limit. */
  const MAX_AGE := DAY + HISTORY_TIMEOUT + PREVIEW_LIFE

  /** A planned message still has its plan, or its plan is past retention. */
  ghost predicate Remembered(db: Db, k: Key, at: int, now: int) {
    (exists id | id in db.plans :: Stands(db.plans[id], k) && db.plans[id].created == at) || now > at + RETENTION
  }

  ghost predicate PlansRemembered(w: World, d: Dates) {
    forall k | k in w.plannedAt :: d(k) <= w.plannedAt[k] <= w.now && Remembered(w.db, k, w.plannedAt[k], w.now)
  }

  /** A message under permission check was young when the check began. */
  ghost predicate CheckedIsYoung(w: World, d: Dates) {
    && (!w.poll.Idle? ==> w.poll.deadline - SOURCE_POLL_TIMEOUT <= w.now <= w.poll.deadline)
    && (w.poll.Checking? && w.poll.i < |Kept(w.poll.page)| ==>
          var k := KeyFor(w.poll.src, Kept(w.poll.page)[w.poll.i]);
          w.poll.deadline - SOURCE_POLL_TIMEOUT - LOOKBACK <= d(k) <= w.now)
    && (!w.poll.Idle? ==>
          && w.poll.sid in w.db.sources
          && w.db.sources[w.poll.sid].account == w.poll.src.account && w.db.sources[w.poll.sid].chat == w.poll.src.chat)
  }

  /** Every candidate of the preview was at most a day old when the preview's scan began. */
  ghost predicate PreviewBounded(db: Db, p: Preview, now: int, d: Dates) {
    && p.expires - PREVIEW_LIFE <= now && p.source in db.sources
    && forall item | item in p.items ::
         var k := Key(db.sources[p.source].account, db.sources[p.source].chat, item.message);
         p.expires - PREVIEW_LIFE - HISTORY_TIMEOUT - DAY <= d(k) <= p.expires - PREVIEW_LIFE
  }

  ghost predicate PreviewsBounded(w: World, d: Dates) {
    forall p | p in w.previews :: PreviewBounded(w.db, p, w.now, d)
  }

  lemma PreviewsStay(w: World, u: World, d: Dates)
    requires PreviewsBounded(w, d) && u.previews == w.previews && w.now <= u.now && SourcesStay(w.db, u.db)
    ensures PreviewsBounded(u, d)
  {
    forall p | p in u.previews ensures PreviewBounded(u.db, p, u.now, d) {
      assert PreviewBounded(w.db, p, w.now, d);
    }
  }

  ghost predicate Sound(w: World, d: Dates) {
    w.twice == {} && PlansRemembered(w, d) && CheckedIsYoung(w, d) && PreviewsBounded(w, d)
  }

  /** Sources stay and keep their chat. */
  ghost predicate SourcesStay(db: Db, next: Db) {
    forall id | id in db.sources ::
      id in next.sources && next.sources[id].account == db.sources[id].account
          && next.sources[id].chat == db.sources[id].chat
  }

  /** Plans stay with their message and creation time unless retention removes them. */
  ghost predicate PlansStay(db: Db, next: Db, now: int) {
    forall id | id in db.plans ::
      (id in next.plans && next.plans[id].created == db.plans[id].created
          && next.plans[id].identity == db.plans[id].identity
       && next.plans[id].chat == db.plans[id].chat && next.plans[id].message == db.plans[id].message)
      || now > db.plans[id].created + RETENTION
  }

  lemma StayRemembered(db: Db, next: Db, k: Key, at: int, now: int)
    requires PlansStay(db, next, now) && Remembered(db, k, at, now)
    ensures Remembered(next, k, at, now)
  {
    if now <= at + RETENTION {
      var id :| id in db.plans && Stands(db.plans[id], k) && db.plans[id].created == at;
      assert id in next.plans && Stands(next.plans[id], k);
    }
  }

  lemma RegisterStays(db: Db, q: Request, row: int, now: int)
    requires q.source.Some? && q.source.value in db.sources && row !in db.plans
    ensures var next := Register(db, q, row, now);
      && next.sources == db.sources && PlansStay(db, next, now)
      && (RegisterResult(db, q, now).Registered? ==>
            && !HasPlan(db, q.identity, q.item.chat, q.item.message) && q.identity == Listener(KeyOf(db, q).account)
            && row in next.plans && Stands(next.plans[row], KeyOf(db, q)) && next.plans[row].created == now)
  {
  }

  lemma SubmitStays(db: Db, actor: int, id: int, revision: nat, valid: bool, now: int, c: Calendar)
    ensures var next := Submit(db, actor, id, revision, valid, now, c);
      next.sources == db.sources && PlansStay(db, next, now) && next.plans.Keys == db.plans.Keys
  {
  }

  lemma CollectStays(db: Db, selection: Selection, now: int)
    requires OutsideEnabled(db, Collect(selection), now)
    ensures SourcesStay(db, Collected(db, selection)) && PlansStay(db, Collected(db, selection), now)
  {
  }

  lemma ManualStays(db: Db, q: Request, row: int, now: int)
    requires row !in db.plans
    ensures Register(db, q, row, now).sources == db.sources && PlansStay(db, Register(db, q, row, now), now)
  {
  }

  lemma DisturbStays(db: Db, o: Outside, now: int, c: Calendar)
    requires OutsideEnabled(db, o, now)
    ensures SourcesStay(db, Disturb(db, o, now, c)) && PlansStay(db, Disturb(db, o, now, c), now)
  {
    match o
    case SubmitPlan(actor, plan, revision, valid) => SubmitStays(db, actor, plan, revision, valid, now, c);
    case Collect(selection) => CollectStays(db, selection, now);
    case ManualPlan(q, row) => ManualStays(db, q, row, now);
    case _ =>
  }

  /** Moving to a database that keeps its plans keeps everything remembered. */
  lemma QuietSound(w: World, u: World, d: Dates)
    requires PlansRemembered(w, d) && PreviewsBounded(w, d) && u.plannedAt == w.plannedAt && u.previews == w.previews
    requires u.now == w.now && PlansStay(w.db, u.db, w.now) && SourcesStay(w.db, u.db)
    ensures PlansRemembered(u, d) && PreviewsBounded(u, d)
  {
    PreviewsStay(w, u, d);
    forall k | k in u.plannedAt ensures Remembered(u.db, k, u.plannedAt[k], u.now) {
      StayRemembered(w.db, u.db, k, w.plannedAt[k], w.now);
    }
  }

  /** A message young enough to be read again cannot have lost its plan. */
  lemma FirstPlan(w: World, d: Dates, k: Key)
    requires PlansRemembered(w, d) && d(k) <= w.now <= d(k) + MAX_AGE
    requires !HasPlan(w.db, Listener(k.account), k.chat, k.message)
    ensures k !in w.plannedAt
  {
    assert forall id | id in w.db.plans && Stands(w.db.plans[id], k) ::
        For(w.db.plans[id], Listener(k.account), k.chat, k.message);
  }

  /** A plan newly registered for a young message is its first. */
  lemma PlannedSound(w: World, db: Db, k: Key, d: Dates)
    requires PlansRemembered(w, d) && PreviewsBounded(w, d) && w.twice == {}
    requires PlansStay(w.db, db, w.now) && SourcesStay(w.db, db)
    requires d(k) <= w.now <= d(k) + MAX_AGE && !HasPlan(w.db, Listener(k.account), k.chat, k.message)
    requires exists id | id in db.plans :: Stands(db.plans[id], k) && db.plans[id].created == w.now
    ensures var u := Planned(w.(db := db), k); PlansRemembered(u, d) && PreviewsBounded(u, d) && u.twice == {}
  {
    FirstPlan(w, d, k);
    QuietSound(w, w.(db := db), d);
  }

  lemma EnrolStays(db: Db, q: Request, confirmation: bool, x: Context, now: int, c: Calendar)
    requires q.source.Some? && q.source.value in db.sources && x.row !in db.plans
    ensures var v := Enrol(db, q, confirmation, x, now, c); var k := KeyOf(db, q);
      && (v.Fails? || v.Stores?) && v.db.sources == db.sources && PlansStay(db, v.db, now)
      && (v.planned ==> !HasPlan(db, Listener(k.account), k.chat, k.message)
                        && exists id | id in v.db.plans :: Stands(v.db.plans[id], k) && v.db.plans[id].created == now)
  {
    RegisterStays(db, q, x.row, now);
    var d := Register(db, q, x.row, now);
    var result := RegisterResult(db, q, now);
    var id := if result.Registered? then x.row else x.known;
    if !result.Rejected? && id in d.plans {
      SubmitStays(d, x.admin, id, d.plans[id].revision, x.valid, now, c);
    }
    var v := Enrol(db, q, confirmation, x, now, c);
    if v.planned {
      assert x.row in v.db.plans && Stands(v.db.plans[x.row], KeyOf(db, q)) && v.db.plans[x.row].created == now;
    }
  }

  lemma AdvanceSound(w: World, d: Dates)
    requires Sound(w, d) && (w.poll.Handling? || w.poll.Checking? || w.poll.Noticing?) && w.poll.i < |Kept(w.poll.page)|
    ensures Sound(Advance(w), d)
  {
    QuietSound(w, Advance(w), d);
  }

  /** What a verdict of receive on the message at hand may have done to the inbox. */
  ghost predicate VerdictStays(w: World, v: Verdict, d: Dates)
    requires (w.poll.Handling? || w.poll.Checking?) && w.poll.i < |Kept(w.poll.page)|
  {
    var k := KeyFor(w.poll.src, Kept(w.poll.page)[w.poll.i]);
    && d(k) <= w.now <= d(k) + MAX_AGE
    && (!v.Returns? ==>
          && v.db.sources == w.db.sources && PlansStay(w.db, v.db, w.now)
          && (v.planned ==> !HasPlan(w.db, Listener(k.account), k.chat, k.message)
                            && exists id | id in v.db.plans :: Stands(v.db.plans[id], k)
                                && v.db.plans[id].created == w.now))
  }

  lemma DecideStays(w: World, x: Context, d: Dates, c: Calendar)
    requires Sound(w, d) && (w.poll.Handling? || w.poll.Checking?) && w.poll.i < |Kept(w.poll.page)|
    requires ContextOk(w, w.poll.sid, Kept(w.poll.page)[w.poll.i], x)
    requires var k := KeyFor(w.poll.src, Kept(w.poll.page)[w.poll.i]); d(k) <= w.now <= d(k) + MAX_AGE
    ensures VerdictStays(w, Decide(w, w.poll.sid, w.poll.src.revision, Kept(w.poll.page)[w.poll.i], x, c), d)
  {
    var p, m := w.poll, Kept(w.poll.page)[w.poll.i];
    var v := Decide(w, p.sid, p.src.revision, m, x, c);
    var src := w.db.sources[p.sid];
    EnrolStays(w.db, RequestFor(src, p.sid, m, x), src.confirmation, x, w.now, c);
    if v.Stores? && !v.planned && v.db == Journal(w.db, KeyFor(p.src, m), p.sid, w.now) {
      assert PlansStay(w.db, v.db, w.now);
    }
  }

  lemma VerdictSettles(w: World, v: Verdict, notify: bool, d: Dates)
    requires Sound(w, d) && (w.poll.Handling? || w.poll.Checking?) && w.poll.i < |Kept(w.poll.page)|
    requires VerdictStays(w, v, d)
    ensures Sound(Settle(w, v, notify), d)
  {
    if v.Returns? {
      AdvanceSound(w, d);
    } else {
      var k := KeyFor(w.poll.src, Kept(w.poll.page)[w.poll.i]);
      VerdictSound(w, v, d);
      var u := w.(db := v.db);
      if v.Stores? && !(v.planned && notify) {
        AdvanceSound(if v.planned then Planned(u, k) else u, d);
      }
    }
  }

  lemma SettleSound(w: World, x: Context, d: Dates, c: Calendar)
    requires Sound(w, d) && (w.poll.Handling? || w.poll.Checking?) && w.poll.i < |Kept(w.poll.page)|
    requires ContextOk(w, w.poll.sid, Kept(w.poll.page)[w.poll.i], x)
    requires var k := KeyFor(w.poll.src, Kept(w.poll.page)[w.poll.i]); d(k) <= w.now <= d(k) + MAX_AGE
    ensures Sound(Settle(w, Decide(w, w.poll.sid, w.poll.src.revision, Kept(w.poll.page)[w.poll.i], x, c), x.notify), d)
  {
    DecideStays(w, x, d, c);
    VerdictSettles(w, Decide(w, w.poll.sid, w.poll.src.revision, Kept(w.poll.page)[w.poll.i], x, c), x.notify, d);
  }

  /** The inbox and the records after receive has stored something, the poll standing where it was. */
  lemma VerdictSound(w: World, v: Verdict, d: Dates)
    requires Sound(w, d) && (w.poll.Handling? || w.poll.Checking?) && w.poll.i < |Kept(w.poll.page)| && !v.Returns?
    requires v.db.sources == w.db.sources && PlansStay(w.db, v.db, w.now)
    requires var k := KeyFor(w.poll.src, Kept(w.poll.page)[w.poll.i]);
      && d(k) <= w.now <= d(k) + MAX_AGE
      && (v.planned ==> !HasPlan(w.db, Listener(k.account), k.chat, k.message)
                        && exists id | id in v.db.plans :: Stands(v.db.plans[id], k) && v.db.plans[id].created == w.now)
    ensures var k := KeyFor(w.poll.src, Kept(w.poll.page)[w.poll.i]);
      Sound(if v.planned then Planned(w.(db := v.db), k) else w.(db := v.db), d)
  {
    if v.planned {
      PlannedSound(w, v.db, KeyFor(w.poll.src, Kept(w.poll.page)[w.poll.i]), d);
    } else {
      QuietSound(w, w.(db := v.db), d);
    }
  }

  lemma HandleSound(w: World, cached: bool, x: Context, d: Dates, c: Calendar)
    requires Sound(w, d) && Possible(w, HandleNext(cached, x), d)
    ensures Sound(Handle(w, cached, x, d, c), d)
  {
    var p := w.poll;
    var k := KeyFor(p.src, Kept(p.page)[p.i]);
    if w.now - d(k) < SETTLE {
      QuietSound(w, Finish(w), d);
    } else if PollCurrent(w) {
      if w.now - d(k) > LOOKBACK {
        var u := w.(db := Journal(w.db, k, p.sid, w.now));
        QuietSound(w, u, d);
        AdvanceSound(u, d);
      } else if cached {
        SettleSound(w, x, d, c);
      }
    }
  }

  /** One candidate of a confirmed preview. */
  lemma BackfilledSound(w: World, p: Preview, q: Request, row: int, j: nat, d: Dates)
    requires Sound(w, d) && p.source in w.db.sources && p in w.previews && w.now <= p.expires && row !in w.db.plans
    requires j < |p.items| && q.source == Some(p.source) && q.identity == Listener(w.db.sources[p.source].account)
    requires q.item == p.items[j] && q.item.chat == w.db.sources[p.source].chat
    ensures var u := w.(db := Register(w.db, q, row, w.now)); var r := RegisterResult(w.db, q, w.now);
      && (r.Known? ==> Sound(u, d)) && (r.Registered? ==> Sound(Planned(u, KeyOf(w.db, q)), d))
  {
    var u := w.(db := Register(w.db, q, row, w.now));
    RegisterStays(w.db, q, row, w.now);
    QuietSound(w, u, d);
    assert PreviewBounded(w.db, p, w.now, d) && q.item in p.items;
    if RegisterResult(w.db, q, w.now).Registered? {
      assert Stands(u.db.plans[row], KeyOf(w.db, q));
      PlannedSound(w, u.db, KeyOf(w.db, q), d);
    }
  }

  lemma EnlistSound(w: World, p: Preview, admin: int, row: int, directoryOk: bool, j: nat, d: Dates)
    requires j < |p.items| && p.source in w.db.sources && p in w.previews && w.now <= p.expires
    requires Sound(w, d) && row !in w.db.plans
    ensures var r := Enlist(w, p, admin, row, directoryOk, j);
      r.Some? ==> Sound(r.value, d) && r.value.previews == w.previews && r.value.now == w.now
  {
    if p.items[j].chat == w.db.sources[p.source].chat {
      BackfilledSound(w, p, CandidateRequest(w, p, admin, directoryOk, j), row, j, d);
    }
  }

  lemma {:induction false} BackfillSound(w: World, p: Preview, admin: int, rows: seq<int>, directoryOk: bool, j: nat,
      d: Dates)
    requires j <= |p.items| == |rows| && p.source in w.db.sources && p in w.previews && w.now <= p.expires
    requires Sound(w, d)
    requires forall i | j <= i < |rows| :: rows[i] !in w.db.plans
    requires forall i, l | 0 <= i < l < |rows| :: rows[i] != rows[l]
    ensures var u := Backfill(w, p, admin, rows, directoryOk, j); u.Some? ==> Sound(u.value, d)
    decreases |p.items| - j
  {
    if j < |p.items| {
      EnlistSound(w, p, admin, rows[j], directoryOk, j, d);
      EnlistFresh(w, p, admin, rows[j], directoryOk, j);
      var r := Enlist(w, p, admin, rows[j], directoryOk, j);
      if r.Some? {
        BackfillSound(r.value, p, admin, rows, directoryOk, j + 1, d);
      }
    }
  }

  lemma ConfirmSound(w: World, p: Preview, admin: int, rows: seq<int>, directoryOk: bool, d: Dates)
    requires Sound(w, d) && p in w.previews && |rows| == |p.items|
    requires forall i | 0 <= i < |rows| :: rows[i] !in w.db.plans
    requires forall i, j | 0 <= i < j < |rows| :: rows[i] != rows[j]
    ensures Sound(RegisterHistory(w, p, admin, rows, directoryOk), d)
  {
    if p.source in w.db.sources && w.now <= p.expires {
      BackfillSound(w, p, admin, rows, directoryOk, 0, d);
    }
  }

  /** The steps of the poll that touch no plan, and the account. */
  lemma OtherStepsSound(w: World, a: Action, d: Dates, c: Calendar)
    requires Sound(w, d) && Possible(w, a, d)
    requires !a.HandleNext? && !a.PermissionChecked? && !a.Noticed? && !a.ConfirmHistory? && !a.Disturbed?
    ensures Sound(Next(w, a, d, c), d)
  {
    match a {
      case Tick(later) => PreviewsStay(w, Next(w, a, d, c), d);
      case PreviewHistory(p, _) =>
        forall o | o in w.previews
          ensures PreviewBounded(w.db, o, w.now, d)
        {
        }
      case _ => QuietSound(w, Next(w, a, d, c), d);
    }
  }

  lemma StepSound(w: World, a: Action, d: Dates, c: Calendar)
    requires Sound(w, d) && Possible(w, a, d)
    ensures Sound(Next(w, a, d, c), d)
  {
    match a {
      case HandleNext(cached, x) => HandleSound(w, cached, x, d, c);
      case PermissionChecked(x) => SettleSound(w, x, d, c);
      case Noticed => AdvanceSound(w, d);
      case ConfirmHistory(p, admin, rows, directoryOk) => ConfirmSound(w, p, admin, rows, directoryOk, d);
      case Disturbed(o) =>
        DisturbStays(w.db, o, w.now, c);
        QuietSound(w, Next(w, a, d, c), d);
      case _ => OtherStepsSound(w, a, d, c);
    }
  }

  /** Intake at most once: in any run that mixes polling, pauses and cursor resets, history backfill, manual work and
    retention sweeps, no message of an account ever gets a second plan. */
  lemma {:induction false} NoSecondPlan(w: World, actions: seq<Action>, d: Dates, c: Calendar)
    requires Sound(w, d) && Plays(w, actions, d, c)
    ensures Play(w, actions, d, c).twice == {}
    decreases |actions|
  {
    if actions != [] {
      StepSound(w, actions[0], d, c);
      NoSecondPlan(Next(w, actions[0], d, c), actions[1..], d, c);
    }
  }

  lemma IntakeAtMostOnce(now: int, actions: seq<Action>, d: Dates, c: Calendar)
    requires Plays(Start(now), actions, d, c)
    ensures Play(Start(now), actions, d, c).twice == {}
  {
    NoSecondPlan(Start(now), actions, d, c);
  }
}

/** What becomes of one fetched message: which messages get a plan, which a journal row, and how the poll goes on. */
module Receive {
  import opened States
  import opened Text
  import opened TaskStore
  import opened Inbox
  import opened Retention
  import opened Polling
  import opened CursorSafety

  // --------------------------------------------------------------------- receive

  /** The source still wants the message and nothing has been decided about it. */
  predicate Wanted(w: World, sid: int, revision: nat, m: Message) {
    && sid in w.db.sources
    && var src := w.db.sources[sid];
    && src.revision == revision && src.enabled && !src.deleted && src.cursor < m.id
    && w.account == Account(true, Some(src.account))
    && Key(src.account, src.chat, m.id) !in w.db.journal
  }

  function Downloads(s: Store): set<int> {
    set id | id in s.tasks && (s.tasks[id].state == Queued || s.tasks[id].state == Reserved
                               || s.tasks[id].state == Downloading || s.tasks[id].state == Streaming)
  }

  /** The owner's plans that are pending and not overdue. */
  function Waiting(db: Db, owner: int, now: int): set<int> {
    set id | id in db.plans && db.plans[id].owner == owner && db.plans[id].status == Pending
             && now <= db.plans[id].expires
  }

  /** There is room for a plan, and what the plan needs from outside is there. */
  predicate Room(w: World, x: Context) {
    |Downloads(w.db.store)| < 100 && |Waiting(w.db, x.admin, w.now)| < 200 && x.directoryOk && !x.raises
  }

  predicate Unplanned(db: Db, k: Key) { forall id | id in db.plans :: !Stands(db.plans[id], k) }

  /** Plans of the owner that are overdue have expired, and every other plan but `row` is as it was. */
  ghost predicate OthersStay(db: Db, next: Db, owner: int, now: int, row: int) {
    && next.plans.Keys == db.plans.Keys + {row}
    && forall id | id in db.plans ::
         var p := db.plans[id];
         next.plans[id] == if p.owner == owner && p.status == Pending && p.expires < now
                           then p.(status := Expired, revision := p.revision + 1) else p
  }

  lemma PendingAfterSweep(db: Db, owner: int, now: int)
    ensures PendingOf(ExpireOwner(db, owner, now), owner) == Waiting(db, owner, now)
  {
    var swept := ExpireOwner(db, owner, now);
    assert forall id :: id in PendingOf(swept, owner) <==> id in Waiting(db, owner, now);
  }

  lemma NoPlanNoRow(db: Db, q: Request, k: Key)
    requires q.identity == Listener(k.account) && q.item.chat == k.chat && q.item.message == k.message
    ensures HasPlan(db, q.identity, q.item.chat, q.item.message) <==> !Unplanned(db, k)
  {
    if !Unplanned(db, k) {
      var id :| id in db.plans && Stands(db.plans[id], k);
      assert For(db.plans[id], q.identity, q.item.chat, q.item.message);
    }
    if HasPlan(db, q.identity, q.item.chat, q.item.message) {
      var id :| id in db.plans && For(db.plans[id], q.identity, q.item.chat, q.item.message);
      assert Stands(db.plans[id], k);
    }
  }

  /** Registering under a live source, with room and without an earlier plan or journal row. */
  lemma Registers(db: Db, q: Request, row: int, now: int, k: Key)
    requires q.source.Some? && q.source.value in db.sources && row !in db.plans
    requires var src := db.sources[q.source.value];
      && src.enabled && !src.deleted && q.identity == Listener(src.account)
      && k == Key(src.account, q.item.chat, q.item.message)
    requires Unplanned(db, k) && |Waiting(db, q.actor, now)| < 200 && q.directoryOk && k !in db.journal
    ensures RegisterResult(db, q, now) == Registered
    ensures var next := Register(db, q, row, now);
      && OthersStay(db, next, q.actor, now, row) && NewlyPlanned(next.plans[row], q, now)
      && next.journal == db.journal[k := Record(q.source.value, Some(row), now)]
      && next.store == db.store && next.sources == db.sources
  {
    PendingAfterSweep(db, q.actor, now);
    NoPlanNoRow(db, q, k);
  }

  /** A plan as it is registered: pending for a week, admitted as of now unless the request says otherwise. */
  predicate NewlyPlanned(p: Plan, q: Request, now: int) {
    && p.status == Pending && p.task == None && p.revision == 1 && p.created == now && p.expires == now + 7 * 86400
    && p.owner == q.actor && p.source == q.source && p.identity == q.identity && p.item == q.item
    && p.chat == q.item.chat && p.message == q.item.message
    && p.admittedAt == (if q.admittedAt.Some? then q.admittedAt.value else now)
  }

  /** The plan of an accepted message, and what it stands over: submitted at once unless the source asks for
    confirmation, if its task exists or the store admits it. */
  ghost predicate PlanMade(db: Db, next: Db, sid: int, m: Message, x: Context, now: int, c: Calendar)
    requires sid in db.sources
  {
    var src := db.sources[sid];
    var k := Key(src.account, src.chat, m.id);
    && OthersStay(db, next, x.admin, now, x.row) && Stands(next.plans[x.row], k)
    && next.journal == db.journal[k := Record(sid, Some(x.row), now)] && next.sources == db.sources
    && var p := next.plans[x.row];
    && p.owner == x.admin && p.source == Some(sid) && p.created == now && p.expires == now + 7 * 86400
    && p.item.size == x.item.size && p.item.fileName == x.item.fileName && p.item.mediaKey == x.item.mediaKey
    && (if !src.confirmation && x.valid
           && (Exists(db.store, p)
               || (Admits(db.store, x.admin, x.item.size, now, c, None) && x.item.directoryOk))
        then p.status == Submitted && p.task.Some? && p.task.value in next.store.tasks
          && IsFor(next.store.tasks[p.task.value], p)
          && (Exists(db.store, p) || IsNew(next.store.tasks[p.task.value], p))
        else p.status == Pending && p.task == None && next.store == db.store)
  }

  /** A submission right after the registration. */
  lemma SubmitsAtOnce(d: Db, x: Context, now: int, c: Calendar)
    requires WellFormed(d.store) && x.row in d.plans && d.plans[x.row].owner == x.admin
    requires d.plans[x.row].status == Pending && now <= d.plans[x.row].expires
    requires d.plans[x.row].source.Some? && d.plans[x.row].source.value in d.sources
      && !d.sources[d.plans[x.row].source.value].deleted
    ensures var p, e := d.plans[x.row], Submit(d, x.admin, x.row, d.plans[x.row].revision, x.valid, now, c);
      && x.row in e.plans && e.journal == d.journal && e.sources == d.sources
      && (if x.valid && (Exists(d.store, p)
                         || (Admits(d.store, x.admin, p.item.size, p.admittedAt, c, None) && p.item.directoryOk))
          then
            && e.plans[x.row].task.Some?
            && var t := e.plans[x.row].task.value;
            && e.plans == d.plans[x.row := p.(status := Submitted, task := Some(t), revision := p.revision + 1)]
            && t in e.store.tasks && IsFor(e.store.tasks[t], p)
            && (Exists(d.store, p) || IsNew(e.store.tasks[t], p))
          else e == d)
  {
    SubmitLinks(d, x.admin, x.row, d.plans[x.row].revision, x.valid, now, c);
    SubmitDecides(d, x.admin, x.row, d.plans[x.row].revision, x.valid, now, c);
  }

  /** Whether the task of the plan to be exists does not depend on what happens to the plan. */
  lemma SameTask(s: Store, p: Plan, q: Plan)
    requires p.chat == q.chat && p.message == q.message && p.owner == q.owner && p.item == q.item
    ensures Exists(s, p) == Exists(s, q)
    ensures forall t: Task :: IsFor(t, p) == IsFor(t, q)
  {
    assert forall t: Task :: IsFor(t, p) == IsFor(t, q);
  }

  lemma EnrolPlans(db: Db, sid: int, m: Message, x: Context, now: int, c: Calendar)
    requires WellFormed(db.store) && x.row !in db.plans && sid in db.sources
    requires db.sources[sid].enabled && !db.sources[sid].deleted
    requires var k := Key(db.sources[sid].account, db.sources[sid].chat, m.id); Unplanned(db, k) && k !in db.journal
    requires |Waiting(db, x.admin, now)| < 200 && x.directoryOk && !x.raises
    ensures var v := Enrol(db, RequestFor(db.sources[sid], sid, m, x), db.sources[sid].confirmation, x, now, c);
      v.Stores? && v.planned && PlanMade(db, v.db, sid, m, x, now, c)
  {
    var src := db.sources[sid];
    var q := RequestFor(src, sid, m, x);
    Registers(db, q, x.row, now, Key(src.account, src.chat, m.id));
    var d := Register(db, q, x.row, now);
    if !src.confirmation {
      SubmitsAtOnce(d, x, now, c);
      var e := Submit(d, x.admin, x.row, d.plans[x.row].revision, x.valid, now, c);
      SameTask(db.store, d.plans[x.row], e.plans[x.row]);
    }
  }

  lemma DownloadsAreCounted(s: Store)
    ensures Crowded(s) <==> |Downloads(s)| >= 100
  {
    assert Downloads(s) == set id | id in s.tasks && s.tasks[id].state in {Queued, Reserved, Downloading, Streaming};
  }

  lemma DecideEnrols(w: World, sid: int, revision: nat, m: Message, x: Context, c: Calendar)
    requires Wanted(w, sid, revision, m) && |w.db.journal| < 20000 && x.matched && |Downloads(w.db.store)| < 100
    ensures var src := w.db.sources[sid];
      Decide(w, sid, revision, m, x, c) == Enrol(w.db, RequestFor(src, sid, m, x), src.confirmation, x, w.now, c)
  {
    DownloadsAreCounted(w.db.store);
  }

  /** A wanted message that matches gets a plan under its own journal row if there is room, whatever else is stored; and
    without confirmation the plan is submitted at once over a task that exists or is admitted. */
  lemma MatchedIsPlanned(w: World, sid: int, revision: nat, m: Message, x: Context, c: Calendar)
    requires WellFormed(w.db.store) && x.row !in w.db.plans
    requires Wanted(w, sid, revision, m) && |w.db.journal| < 20000 && x.matched && Room(w, x)
    requires Unplanned(w.db, Key(w.db.sources[sid].account, w.db.sources[sid].chat, m.id))
    ensures var v := Decide(w, sid, revision, m, x, c);
      v.Stores? && v.planned && PlanMade(w.db, v.db, sid, m, x, w.now, c)
  {
    DecideEnrols(w, sid, revision, m, x, c);
    EnrolPlans(w.db, sid, m, x, w.now, c);
  }

  /** A wanted message that does not match gets a journal row, and nothing else changes. */
  lemma UnmatchedIsJournalled(w: World, sid: int, revision: nat, m: Message, x: Context, c: Calendar)
    requires Wanted(w, sid, revision, m) && |w.db.journal| < 20000 && !x.matched
    ensures var k := Key(w.db.sources[sid].account, w.db.sources[sid].chat, m.id);
      Decide(w, sid, revision, m, x, c)
        == Stores(w.db.(journal := w.db.journal[k := Record(sid, None, w.now)]), false)
  {
  }

  /** Whatever is not wanted is left alone. */
  lemma UnwantedIsLeft(w: World, sid: int, revision: nat, m: Message, x: Context, c: Calendar)
    requires !Wanted(w, sid, revision, m)
    ensures var v := Decide(w, sid, revision, m, x, c); v.Returns? || v == Fails(w.db, false)
  {
  }

  /** Where a limit is reached the poll fails, with nothing stored. */
  lemma LimitsHoldBack(w: World, sid: int, revision: nat, m: Message, x: Context, c: Calendar)
    requires Wanted(w, sid, revision, m)
    requires || |w.db.journal| >= 20000 || (x.matched && |Downloads(w.db.store)| >= 100)
             || (x.matched && Unplanned(w.db, Key(w.db.sources[sid].account, w.db.sources[sid].chat, m.id))
                 && (|Waiting(w.db, x.admin, w.now)| >= 200 || !x.directoryOk))
    ensures Decide(w, sid, revision, m, x, c) == Fails(w.db, false)
  {
    var src := w.db.sources[sid];
    PendingAfterSweep(w.db, x.admin, w.now);
    NoPlanNoRow(w.db, RequestFor(src, sid, m, x), Key(src.account, src.chat, m.id));
    DownloadsAreCounted(w.db.store);
  }

  // ------------------------------------------------------------------ the poll goes on

  /** The source, the account and the client are still those the poll began with. */
  predicate StillWanted(w: World)
    requires !w.poll.Idle?
  {
    var p := w.poll;
    && w.client == Some(p.client) && w.account == Account(true, Some(p.src.account))
    && p.sid in w.db.sources && w.db.sources[p.sid].revision == p.src.revision
    && w.db.sources[p.sid].enabled && !w.db.sources[p.sid].deleted
  }

  /** The cursor stands at the message, and the next message is at hand. */
  ghost predicate MovedOn(w: World, u: World, db: Db)
    requires AtPage(w.poll) && w.poll.i < |Kept(w.poll.page)|
  {
    var p := w.poll;
    && p.sid in db.sources
    && u.poll == Handling(p.sid, p.src, p.client, p.deadline, p.page, p.i + 1)
    && u.db == db.(sources := db.sources[p.sid := db.sources[p.sid].(cursor := Kept(p.page)[p.i].id)])
  }

  lemma AdvanceMovesOn(w: World, v: World)
    requires PollSafe(w) && AtPage(w.poll) && w.poll.i < |Kept(w.poll.page)| && StillWanted(w)
    requires v.poll == w.poll && v.db.sources == w.db.sources && v.account == w.account && v.client == w.client
    ensures MovedOn(w, Advance(v), v.db)
  {
    CursorMoves(w);
  }

  /** One turn of the loop on a message that is no longer too young: one that is older than six hours is journalled, and
    another one is received once the permission of the chat is fresh. */
  lemma TurnHandles(w: World, cached: bool, x: Context, d: Dates, c: Calendar)
    requires PollSafe(w) && Possible(w, HandleNext(cached, x), d)
    ensures var u, p := Next(w, HandleNext(cached, x), d, c), w.poll;
      var m := Kept(p.page)[p.i];
      var k := Key(p.src.account, p.src.chat, m.id);
      if w.now - d(k) < 2 then
        u == if StillWanted(w) then w.(poll := Idle, db := u.db) else w.(poll := Idle)
      else if !StillWanted(w) then u == w.(poll := Idle)
      else if w.now - d(k) > 6 * 3600 then
        MovedOn(w, u, w.db.(journal := if k in w.db.journal then w.db.journal
                                       else w.db.journal[k := Record(p.sid, None, w.now)]))
      else if !cached then u == w.(poll := Checking(p.sid, p.src, p.client, p.deadline, p.page, p.i))
      else u == Settle(w, Decide(w, p.sid, p.src.revision, m, x, c), x.notify)
    ensures var u, p := Next(w, HandleNext(cached, x), d, c), w.poll;
      w.now - d(Key(p.src.account, p.src.chat, Kept(p.page)[p.i].id)) < 2 && StillWanted(w) ==>
        u.db == w.db.(sources := w.db.sources[p.sid := w.db.sources[p.sid].(polledAt := w.now)])
  {
    var p := w.poll;
    var k := KeyFor(p.src, Kept(p.page)[p.i]);
    if w.now - d(k) > LOOKBACK && StillWanted(w) {
      AdvanceMovesOn(w, w.(db := Journal(w.db, k, p.sid, w.now)));
    }
  }

  /** After receive: a failure ends the poll and keeps what was stored, a plan may be announced first, and otherwise the
    cursor moves on over what was stored. */
  lemma SettleMovesOn(w: World, v: Verdict, notify: bool)
    requires PollSafe(w) && (w.poll.Handling? || w.poll.Checking?) && w.poll.i < |Kept(w.poll.page)| && StillWanted(w)
    requires !v.Returns? ==> v.db.sources == w.db.sources
    ensures var u, p := Settle(w, v, notify), w.poll;
      match v
      case Returns => MovedOn(w, u, w.db)
      case Fails(db, _) => u.poll == Idle && u.db == db
      case Stores(db, planned) =>
        if planned && notify then u.db == db && u.poll == Noticing(p.sid, p.src, p.client, p.deadline, p.page, p.i)
        else MovedOn(w, u, db)
  {
    match v {
      case Returns => AdvanceMovesOn(w, w);
      case Fails(_, _) =>
      case Stores(db, planned) => AdvanceMovesOn(w, AfterStoring(w, db, planned));
    }
  }

  lemma NoticeMovesOn(w: World, d: Dates, c: Calendar)
    requires PollSafe(w) && Possible(w, Noticed, d)
    ensures var u := Next(w, Noticed, d, c); if StillWanted(w) then MovedOn(w, u, w.db) else u == w.(poll := Idle)
  {
    if StillWanted(w) {
      AdvanceMovesOn(w, w);
    }
  }

  /** The message at hand is received now: in the turn itself when the permission of the chat is fresh, otherwise after
    the permission has been checked. */
  predicate ReceivesNow(w: World, a: Action, x: Context, d: Dates)
    requires AtPage(w.poll) && w.poll.i < |Kept(w.poll.page)|
  {
    var age := w.now - d(KeyFor(w.poll.src, Kept(w.poll.page)[w.poll.i]));
    (a == HandleNext(true, x) && 2 <= age <= 6 * 3600) || a == PermissionChecked(x)
  }

  lemma ReceivedIsSettled(w: World, a: Action, x: Context, d: Dates, c: Calendar)
    requires PollSafe(w) && (w.poll.Handling? || w.poll.Checking?) && Possible(w, a, d) && StillWanted(w)
      && w.poll.i < |Kept(w.poll.page)| && ReceivesNow(w, a, x, d)
    ensures Next(w, a, d, c) == Settle(w, DecideHere(w, x, c), x.notify)
  {
  }

  /** Taken in: when a poll that is still wanted comes to a message that matches, is neither journalled nor planned, and
    finds room, the message has its plan and journal row in the very next state, and the cursor moves on to it, at once
    or after the announcement. */
  lemma TakenIn(w: World, a: Action, x: Context, d: Dates, c: Calendar) returns (db: Db)
    requires PollSafe(w) && WellFormed(w.db.store) && (w.poll.Handling? || w.poll.Checking?) && Possible(w, a, d)
      && StillWanted(w) && w.poll.i < |Kept(w.poll.page)| && ReceivesNow(w, a, x, d)
    requires x.matched && Room(w, x) && |w.db.journal| < 20000
    requires var k := KeyFor(w.poll.src, Kept(w.poll.page)[w.poll.i]); k !in w.db.journal && Unplanned(w.db, k)
    ensures var u, p := Next(w, a, d, c), w.poll;
      && PlanMade(w.db, db, p.sid, Kept(p.page)[p.i], x, w.now, c)
      && if x.notify then u.db == db && u.poll == Noticing(p.sid, p.src, p.client, p.deadline, p.page, p.i)
         else MovedOn(w, u, db)
  {
    var v := DecideHere(w, x, c);
    CursorMoves(w);
    MatchedIsPlanned(w, w.poll.sid, w.poll.src.revision, Kept(w.poll.page)[w.poll.i], x, c);
    ReceivedIsSettled(w, a, x, d, c);
    SettleMovesOn(w, v, x.notify);
    db := v.db;
  }

  /** The poll up to its page, and its end. */
  lemma PollBegins(w: World, sid: int, page: seq<Message>, d: Dates, c: Calendar)
    ensures Possible(w, StartPoll(sid), d) ==>
      Next(w, StartPoll(sid), d, c)
        == w.(poll := VerifyingChat(sid, w.db.sources[sid], w.client.value, w.now + 30))
    ensures Possible(w, ChatVerified, d) ==>
      var u, p := Next(w, ChatVerified, d, c), w.poll;
      if !StillWanted(w) then u == w.(poll := Idle)
      else
        var s := w.db.sources[p.sid];
        var missed := p.src.polledAt != 0 && w.now - p.src.polledAt > 6 * 3600;
        u == w.(poll := Listing(p.sid, p.src, p.client, p.deadline),
                db := w.db.(sources := w.db.sources[p.sid := s.(gap := s.gap || p.src.gap || missed)]))
    ensures Possible(w, PageFetched(page), d) ==>
      var p := w.poll;
      Next(w, PageFetched(page), d, c) == w.(poll := Handling(p.sid, p.src, p.client, p.deadline, page, 0))
    ensures Possible(w, PageDone, d) ==>
      var u, p := Next(w, PageDone, d, c), w.poll;
      if !StillWanted(w) then u == w.(poll := Idle)
      else
        u == w.(poll := Idle, db := w.db.(sources := w.db.sources[p.sid := w.db.sources[p.sid].(polledAt := w.now)]))
  {
  }

  // ------------------------------------------------------------ confirmed history

  /** A confirmed candidate of a live source gets its plan and its journal row if there is room. */
  lemma CandidateIsPlanned(w: World, p: Preview, admin: int, row: int, directoryOk: bool, j: nat)
    requires j < |p.items| && p.source in w.db.sources && row !in w.db.plans && directoryOk
    requires var src := w.db.sources[p.source]; src.enabled && !src.deleted && p.items[j].chat == src.chat
    requires var k := Key(w.db.sources[p.source].account, p.items[j].chat, p.items[j].message);
      k !in w.db.journal && Unplanned(w.db, k)
    requires p.items[j].mediaKey.Some? ==>
      forall t | t in w.db.store.tasks ::
        !(w.db.store.tasks[t].sender == admin && w.db.store.tasks[t].mediaKey == p.items[j].mediaKey)
    requires |Downloads(w.db.store)| < 100 && |w.db.journal| < 20000 && |Waiting(w.db, admin, w.now)| < 200
    ensures var r, k := Enlist(w, p, admin, row, directoryOk, j),
                        Key(w.db.sources[p.source].account, p.items[j].chat, p.items[j].message);
      && r.Some? && OthersStay(w.db, r.value.db, admin, w.now, row)
      && NewlyPlanned(r.value.db.plans[row], CandidateRequest(w, p, admin, directoryOk, j), w.now)
      && r.value.db.journal == w.db.journal[k := Record(p.source, Some(row), w.now)]
  {
    var q := CandidateRequest(w, p, admin, directoryOk, j);
    DownloadsAreCounted(w.db.store);
    Registers(w.db, q, row, w.now, Key(w.db.sources[p.source].account, p.items[j].chat, p.items[j].message));
  }
}

/** The approval inbox as values: sources, decided messages, plans and naming feedback (plans.py). */
module Inbox {
  import opened States
  import opened Text
  import opened TaskStore

  const DAY := 86400
  const TTL := 7 * DAY
  const RETENTION := 30 * DAY
  const MAX_PENDING := 200

  datatype Key = Key(account: int, chat: int, message: int)

  /** A registered source; `confirmation` is the part of its configuration that steers receive. */
  datatype Source = Source(
    account: int, chat: int, revision: nat, enabled: bool, deleted: bool, cursor: int, gap: bool, polledAt: int,
    nextRetry: int, confirmation: bool)

  /** A journal row of listener_events. */
  datatype Record = Record(source: int, plan: Option<int>, created: int)

  datatype Status = Pending | Submitted | Ignored | Expired

  /** A transfer plan; `item` and `admittedAt` are what its payload passes to create_task. */
  datatype Plan = Plan(
    owner: int, source: Option<int>, identity: Identity, chat: int, message: int, item: NewTask, admittedAt: int,
    revision: nat, status: Status, task: Option<int>, created: int, expires: int)

  datatype Db = Db(
    store: Store, sources: map<int, Source>, journal: map<Key, Record>, plans: map<int, Plan>, feedback: map<int, int>)

  predicate For(p: Plan, identity: Identity, chat: int, message: int) {
    p.identity == identity && p.chat == chat && p.message == message
  }

  /** UNIQUE(identity, chat, message) finds it. */
  predicate HasPlan(db: Db, identity: Identity, chat: int, message: int) {
    exists id | id in db.plans :: For(db.plans[id], identity, chat, message)
  }

  /** The message a listener's plan stands for. */
  predicate Stands(p: Plan, k: Key) { p.identity == Listener(k.account) && p.chat == k.chat && p.message == k.message }

  /** A decision about the message is stored: a journal row or a plan. */
  predicate Stored(db: Db, k: Key) {
    k in db.journal || exists id | id in db.plans :: Stands(db.plans[id], k)
  }

  function PendingOf(db: Db, owner: int): set<int> {
    set id | id in db.plans && db.plans[id].owner == owner && db.plans[id].status.Pending?
  }

  // ------------------------------------------------------------- expire_pending

  predicate Overdue(p: Plan, now: int) { p.status.Pending? && p.expires < now }

  function Retired(p: Plan, status: Status): Plan { p.(status := status, revision := p.revision + 1) }

  function ExpireOwner(db: Db, owner: int, now: int): Db {
    db.(plans := map id | id in db.plans ::
                   if db.plans[id].owner == owner && Overdue(db.plans[id], now)
                   then Retired(db.plans[id], Expired) else db.plans[id])
  }

  // --------------------------------------------------------------------- create

  /** A request to register one message; `directoryOk` is false where a directory check raises. */
  datatype Request = Request(
    actor: int, source: Option<int>, identity: Identity, item: NewTask, admittedAt: Option<int>, directoryOk: bool)

  datatype Registration = Rejected | Known | Registered

  predicate SourceAllows(db: Db, q: Request) {
    match q.source
    case None => q.identity.Bot?
    case Some(id) =>
      && id in db.sources && q.identity == Listener(db.sources[id].account)
      && !db.sources[id].deleted && db.sources[id].enabled
  }

  function KeyOf(db: Db, q: Request): Key
    requires q.source.Some? && q.source.value in db.sources
  {
    Key(db.sources[q.source.value].account, q.item.chat, q.item.message)
  }

  /** create: the outcome; a rejection rolls the whole transaction back. */
  function RegisterResult(db: Db, q: Request, now: int): Registration {
    var swept := ExpireOwner(db, q.actor, now);
    if !SourceAllows(db, q) then Rejected
    else if HasPlan(db, q.identity, q.item.chat, q.item.message) then Known
    else if |PendingOf(swept, q.actor)| >= MAX_PENDING then Rejected
    else if !q.directoryOk then Rejected
    else if q.source.Some? && KeyOf(db, q) in db.journal then Rejected
    else Registered
  }

  function NewPlan(q: Request, now: int): Plan {
    Plan(q.actor, q.source, q.identity, q.item.chat, q.item.message, q.item,
         if q.admittedAt.Some? then q.admittedAt.value else now, 1, Pending, None, now, now + TTL)
  }

  /** `row` is the row id the database assigns. */
  function Register(db: Db, q: Request, row: int, now: int): Db {
    var swept := ExpireOwner(db, q.actor, now);
    match RegisterResult(db, q, now)
    case Rejected => db
    case Known => swept
    case Registered =>
      swept.(plans := swept.plans[row := NewPlan(q, now)],
             journal := if q.source.Some? then db.journal[KeyOf(db, q) := Record(q.source.value, Some(row), now)]
                        else db.journal)
  }

  /** journal: INSERT OR IGNORE. */
  function Journal(db: Db, k: Key, source: int, now: int): Db {
    if k in db.journal then db else db.(journal := db.journal[k := Record(source, None, now)])
  }

  // --------------------------------------------------------------- edit, submit

  /** The status a reader sees: overdue plans already read as expired. */
  function Visible(p: Plan, now: int): Status { if Overdue(p, now) then Expired else p.status }

  datatype EditRequest = EditRequest(actor: int, revision: nat, name: Option<Text>, ignore: bool, valid: bool)

  predicate EditAllowed(db: Db, id: int, r: EditRequest, now: int) {
    && id in db.plans && db.plans[id].owner == r.actor
    && db.plans[id].revision == r.revision && Visible(db.plans[id], now).Pending? && r.valid
  }

  /** `note` is the row id of the feedback entry that a corrected name leaves. */
  function Edit(db: Db, id: int, r: EditRequest, note: int, now: int): Db {
    if !EditAllowed(db, id, r, now) then db
    else
      var p := db.plans[id];
      db.(plans := db.plans[id := p.(item := if r.name.Some? then p.item.(fileName := r.name.value) else p.item,
                                     status := if r.ignore then Ignored else Pending, revision := p.revision + 1)],
          feedback := if r.name.Some? then db.feedback[note := now] else db.feedback)
  }

  /** What submit passes to create_task: the payload under the plan's own message, owner, identity and source. */
  function TaskOf(p: Plan): NewTask {
    p.item.(chat := p.chat, message := p.message, sender := p.owner, identity := p.identity, sourceId := p.source)
  }

  datatype Submission = Refused | Linked(task: int) | Sent(task: int, created: bool)

  /** submit; `valid` is false where a directory or permission check raises. */
  function SubmitResult(db: Db, actor: int, id: int, revision: nat, valid: bool, now: int, c: Calendar): Submission {
    if id !in db.plans || db.plans[id].owner != actor then Refused
    else
      var p := db.plans[id];
      if p.status.Submitted? && p.task.Some? then Linked(p.task.value)
      else if !Visible(p, now).Pending? || p.revision != revision then Refused
      else if p.source.Some? && (p.source.value !in db.sources || db.sources[p.source.value].deleted) then Refused
      else if !valid then Refused
      else
        match CreateResult(db.store, TaskOf(p), p.admittedAt, c)
        case Existing(task) => Sent(task, false)
        case Fresh(task) => Sent(task, true)
        case _ => Refused
  }

  function Submit(db: Db, actor: int, id: int, revision: nat, valid: bool, now: int, c: Calendar): Db {
    match SubmitResult(db, actor, id, revision, valid, now, c)
    case Sent(task, _) =>
      var p := db.plans[id];
      db.(store := Create(db.store, TaskOf(p), p.admittedAt, c),
          plans := db.plans[id := p.(status := Submitted, task := Some(task), revision := p.revision + 1)])
    case _ => db
  }

  // -------------------------------------------------------------------- sources

  /** A change of source; `valid` is false where the configuration is refused. */
  datatype Change = Change(
    revision: nat, enabled: Option<bool>, confirmation: Option<bool>, modeChanged: bool, delete: bool,
    cursor: Option<int>, valid: bool)

  predicate ChangeAllowed(db: Db, id: int, ch: Change) {
    && id in db.sources && db.sources[id].revision == ch.revision && !db.sources[id].deleted && ch.valid
    && (ch.cursor.Some? ==> ch.cursor.value >= 0)
  }

  function Changed(s: Source, ch: Change, now: int): Source {
    s.(enabled := if ch.delete || ch.modeChanged then false
                  else if ch.enabled.Some? then ch.enabled.value else s.enabled,
       confirmation := if ch.confirmation.Some? then ch.confirmation.value else s.confirmation,
       deleted := ch.delete, revision := s.revision + 1,
       cursor := if ch.cursor.Some? then ch.cursor.value else s.cursor,
       gap := if ch.cursor.Some? then false else s.gap,
       polledAt := if ch.cursor.Some? then now else s.polledAt)
  }

  function ChangeSource(db: Db, id: int, ch: Change, now: int): Db {
    if !ChangeAllowed(db, id, ch) then db
    else
      db.(sources := db.sources[id := Changed(db.sources[id], ch, now)],
          plans := if ch.delete
                   then map p | p in db.plans ::
                          if db.plans[p].source == Some(id) && db.plans[p].status.Pending?
                          then Retired(db.plans[p], Ignored) else db.plans[p]
                   else db.plans)
  }

  predicate SavedUnder(db: Db, account: int, chat: int, id: int) {
    id in db.sources && db.sources[id].account == account && db.sources[id].chat == chat
  }

  /** save_source for a new chat (`id` fresh) or for one whose source was deleted. */
  predicate SaveAllowed(db: Db, account: int, chat: int, id: int) {
    if SavedUnder(db, account, chat, id) then db.sources[id].deleted
    else id !in db.sources && forall other | other in db.sources :: !SavedUnder(db, account, chat, other)
  }

  function SaveSource(db: Db, account: int, chat: int, id: int, cursor: int, confirmation: bool, now: int): Db {
    if !SaveAllowed(db, account, chat, id) then db
    else if id in db.sources then
      var s := db.sources[id];
      db.(sources := db.sources[id :=
          s.(cursor := cursor, confirmation := confirmation, deleted := false, enabled := false,
            revision := s.revision + 1, gap := false, polledAt := now)])
    else
      db.(sources := db.sources[id := Source(account, chat, 1, false, false, cursor, false, now, 0, confirmation)])
  }

  /** source_failure and _directory_failed: may pause a source without a new revision. */
  function Pause(db: Db, id: int, revision: nat, pause: bool, retryAt: int): Db {
    if id in db.sources && db.sources[id].revision == revision && !db.sources[id].deleted
    then db.(sources := db.sources[id :=
        db.sources[id].(enabled := !pause && db.sources[id].enabled, nextRetry := retryAt)])
    else db
  }

  // ------------------------------------------------------------------ lifecycle

  /** How one plan may change: pending to any status, never back, a new revision with every change, and a link that
    stays. */
  predicate Evolves(p: Plan, q: Plan) {
    p == q
    || (p.status.Pending? && q.revision > p.revision && q.created == p.created && q.expires == p.expires
        && q.owner == p.owner && q.identity == p.identity && q.chat == p.chat && q.message == p.message
        && q.source == p.source && q.admittedAt == p.admittedAt && (q.status.Submitted? <==> q.task.Some?))
  }

  /** Every plan present before and after has evolved. */
  ghost predicate PlansEvolve(db: Db, next: Db) {
    forall id | id in db.plans && id in next.plans :: Evolves(db.plans[id], next.plans[id])
  }

  /** Every linked task is in the task table. */
  ghost predicate LinksLive(db: Db) {
    forall id | id in db.plans && db.plans[id].task.Some? :: db.plans[id].task.value in db.store.tasks
  }

  /** Linked exactly when submitted, to a task that is there, and nobody above the pending limit. */
  ghost predicate InboxSound(db: Db) {
    && LinksLive(db)
    && (forall id | id in db.plans :: db.plans[id].status.Submitted? <==> db.plans[id].task.Some?)
    && (forall owner: int :: |PendingOf(db, owner)| <= MAX_PENDING)
  }

  lemma FewerPending(db: Db, next: Db)
    requires forall id | id in next.plans && next.plans[id].status.Pending? ::
               id in db.plans && db.plans[id].status.Pending? && db.plans[id].owner == next.plans[id].owner
    ensures forall owner: int :: |PendingOf(next, owner)| <= |PendingOf(db, owner)|
  {
    forall owner: int ensures |PendingOf(next, owner)| <= |PendingOf(db, owner)| {
      forall id | id in PendingOf(next, owner) ensures id in PendingOf(db, owner) {
        assert next.plans[id].status.Pending?;
      }
      Smaller(PendingOf(next, owner), PendingOf(db, owner));
    }
  }

  lemma Smaller<T>(a: set<T>, b: set<T>)
    requires a <= b
    ensures |a| <= |b|
  {
    assert b == a + (b - a);
  }

  /** Sweeping an owner's overdue plans moves plans only forward. */
  lemma SweepSound(db: Db, owner: int, now: int)
    requires InboxSound(db)
    ensures InboxSound(ExpireOwner(db, owner, now)) && PlansEvolve(db, ExpireOwner(db, owner, now))
  {
    FewerPending(db, ExpireOwner(db, owner, now));
  }

  /** One more pending plan for an owner below the limit. */
  lemma AddedSound(db: Db, next: Db, row: int, p: Plan)
    requires InboxSound(db) && row !in db.plans && next.plans == db.plans[row := p] && next.store == db.store
    requires p.status.Pending? && p.task.None? && |PendingOf(db, p.owner)| < MAX_PENDING
    ensures InboxSound(next)
  {
    forall owner: int
      ensures |PendingOf(next, owner)| <= MAX_PENDING
    {
      assert PendingOf(next, owner) == if owner == p.owner then PendingOf(db, owner) + {row} else PendingOf(db, owner);
    }
  }

  lemma RegisterSound(db: Db, q: Request, row: int, now: int)
    requires InboxSound(db) && row !in db.plans
    ensures InboxSound(Register(db, q, row, now)) && PlansEvolve(db, Register(db, q, row, now))
  {
    SweepSound(db, q.actor, now);
    if RegisterResult(db, q, now).Registered? {
      AddedSound(ExpireOwner(db, q.actor, now), Register(db, q, row, now), row, NewPlan(q, now));
    }
  }

  lemma EditSound(db: Db, id: int, r: EditRequest, note: int, now: int)
    requires InboxSound(db)
    ensures InboxSound(Edit(db, id, r, note, now)) && PlansEvolve(db, Edit(db, id, r, note, now))
  {
    FewerPending(db, Edit(db, id, r, note, now));
  }

  /** An edit corrects the name, leaving a note of the correction, or ignores the plan: the owner's own pending plan,
    not overdue and under its current revision. */
  lemma EditDecides(db: Db, id: int, r: EditRequest, note: int, now: int)
    ensures EditAllowed(db, id, r, now) <==>
      && id in db.plans && db.plans[id].owner == r.actor && db.plans[id].revision == r.revision
      && db.plans[id].status == Pending && now <= db.plans[id].expires && r.valid
    ensures var next := Edit(db, id, r, note, now);
      if !EditAllowed(db, id, r, now) then next == db
      else
        && id in next.plans && next.plans == db.plans[id := next.plans[id]]
        && var p, q := db.plans[id], next.plans[id];
        && q == p.(item := q.item, status := if r.ignore then Ignored else Pending, revision := p.revision + 1)
        && q.item == (if r.name.Some? then p.item.(fileName := r.name.value) else p.item)
        && next == db.(plans := next.plans,
                       feedback := if r.name.Some? then db.feedback[note := now] else db.feedback)
  {
  }

  /** A change of a source under its current revision: a deletion or another directory mode switches it off, a new
    cursor clears the gap, and a deletion ignores its pending plans. */
  lemma ChangeDecides(db: Db, id: int, ch: Change, now: int)
    ensures ChangeAllowed(db, id, ch) <==>
      && id in db.sources && db.sources[id].revision == ch.revision && !db.sources[id].deleted && ch.valid
      && (ch.cursor.Some? ==> ch.cursor.value >= 0)
    ensures var next := ChangeSource(db, id, ch, now);
      if !ChangeAllowed(db, id, ch) then next == db
      else
        && id in next.sources && next.sources == db.sources[id := next.sources[id]]
        && next == db.(sources := next.sources, plans := next.plans) && next.plans.Keys == db.plans.Keys
        && (forall p | p in db.plans ::
              next.plans[p] == if ch.delete && db.plans[p].source == Some(id) && db.plans[p].status == Pending
                               then db.plans[p].(status := Ignored, revision := db.plans[p].revision + 1)
                               else db.plans[p])
        && var s, t := db.sources[id], next.sources[id];
        && t.account == s.account && t.chat == s.chat && t.revision == s.revision + 1 && t.deleted == ch.delete
        && t.nextRetry == s.nextRetry
        && (ch.delete || ch.modeChanged ==> !t.enabled)
        && (!ch.delete && !ch.modeChanged ==> t.enabled == if ch.enabled.Some? then ch.enabled.value else s.enabled)
        && t.confirmation == (if ch.confirmation.Some? then ch.confirmation.value else s.confirmation)
        && (if ch.cursor.Some? then t.cursor == ch.cursor.value && !t.gap && t.polledAt == now
            else t.cursor == s.cursor && t.gap == s.gap && t.polledAt == s.polledAt)
  {
  }

  /** The row of a task that has just been created for a plan. */
  predicate IsNew(t: Task, p: Plan) {
    && t.state.Queued? && t.mode.Local? && !t.cancelRequested && t.nextRetry == 0
    && t.sender == p.owner && t.chat == p.chat && t.message == p.message && t.identity == p.identity
    && t.sourceId == p.source && t.fileName == p.item.fileName && t.size == p.item.size
    && t.mediaKey == p.item.mediaKey && t.createdAt == p.admittedAt
  }

  /** The task is the plan's, by message or by file. */
  predicate IsFor(t: Task, p: Plan) {
    (t.chat == p.chat && t.message == p.message)
    || (p.item.mediaKey.Some? && t.sender == p.owner && t.mediaKey == p.item.mediaKey)
  }

  /** A submission that is sent links the plan to a task of the same message or file in the table: one that was there,
    and then the task tables stay as they are, or a new one for the plan, over a ledger row that holds its bytes. */
  lemma SubmitLinks(db: Db, actor: int, id: int, revision: nat, valid: bool, now: int, c: Calendar)
    ensures var r, next := SubmitResult(db, actor, id, revision, valid, now, c),
                           Submit(db, actor, id, revision, valid, now, c);
      if r.Sent? then
        && id in db.plans && actor == db.plans[id].owner
        && var p := db.plans[id];
        && next.plans == db.plans[id := p.(status := Submitted, task := Some(r.task), revision := p.revision + 1)]
        && r.task in next.store.tasks && IsFor(next.store.tasks[r.task], p)
        && (if r.created then
              && IsNew(next.store.tasks[r.task], p) && r.task == db.store.last + 1
              && next.store.tasks == db.store.tasks[r.task := next.store.tasks[r.task]]
              && next.store.ledger == db.store.ledger[r.task := Ledger(p.owner, p.item.size, None, false)]
            else next.store == db.store)
      else next == db
  {
    if id in db.plans {
      FindsDuplicate(db.store, TaskOf(db.plans[id]), db.store.last);
    }
  }

  /** The task a plan stands for is already there. */
  ghost predicate Exists(s: Store, p: Plan) { exists t | t in s.tasks :: IsFor(s.tasks[t], p) }

  /** When a submission is sent, and when it creates a task: the owner's pending plan, not overdue and under its current
    revision, whose source is still there and whose checks pass, if its task exists or is admitted. */
  lemma SubmitDecides(db: Db, actor: int, id: int, revision: nat, valid: bool, now: int, c: Calendar)
    requires WellFormed(db.store)
    ensures var r := SubmitResult(db, actor, id, revision, valid, now, c);
      r.Sent? <==>
        && id in db.plans
        && var p := db.plans[id];
        && p.owner == actor && p.status == Pending && now <= p.expires && p.revision == revision && valid
        && (p.source.Some? ==> p.source.value in db.sources && !db.sources[p.source.value].deleted)
        && (Exists(db.store, p)
            || (Admits(db.store, actor, p.item.size, p.admittedAt, c, None) && p.item.directoryOk
                && (p.identity == Bot || p.source.Some?)))
    ensures var r := SubmitResult(db, actor, id, revision, valid, now, c);
      r.Sent? && id in db.plans ==> (r.created <==> !Exists(db.store, db.plans[id]))
  {
    if id in db.plans {
      FindsDuplicate(db.store, TaskOf(db.plans[id]), db.store.last);
      assert forall t: Task :: Duplicates(t, TaskOf(db.plans[id])) == IsFor(t, db.plans[id]);
    }
  }

  lemma SubmitSound(db: Db, actor: int, id: int, revision: nat, valid: bool, now: int, c: Calendar)
    requires InboxSound(db)
    ensures InboxSound(Submit(db, actor, id, revision, valid, now, c))
      && PlansEvolve(db, Submit(db, actor, id, revision, valid, now, c))
  {
    FewerPending(db, Submit(db, actor, id, revision, valid, now, c));
    SubmitLinks(db, actor, id, revision, valid, now, c);
  }

  /** Resubmitting a submitted plan, with whatever revision, returns the task it is linked to and changes nothing. */
  lemma ResubmitReturnsLink(db: Db, actor: int, id: int, revision: nat, valid: bool, now: int, c: Calendar,
                            laterRevision: nat, laterValid: bool, later: int)
    requires InboxSound(db)
    requires SubmitResult(db, actor, id, revision, valid, now, c).Sent?
    ensures var next := Submit(db, actor, id, revision, valid, now, c);
      var task := SubmitResult(db, actor, id, revision, valid, now, c).task;
      && SubmitResult(next, actor, id, laterRevision, laterValid, later, c) == Linked(task)
      && Submit(next, actor, id, laterRevision, laterValid, later, c) == next
  {
  }

  lemma ChangeSound(db: Db, id: int, ch: Change, now: int)
    requires InboxSound(db)
    ensures InboxSound(ChangeSource(db, id, ch, now)) && PlansEvolve(db, ChangeSource(db, id, ch, now))
  {
    FewerPending(db, ChangeSource(db, id, ch, now));
  }

  /** Evolution composes while the plan stays in the table. */
  lemma EvolvesTransitive(p: Plan, q: Plan, r: Plan)
    requires Evolves(p, q) && Evolves(q, r) && (p.status.Submitted? <==> p.task.Some?)
    ensures Evolves(p, r)
  {
  }
}

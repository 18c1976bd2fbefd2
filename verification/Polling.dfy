/** The listener as a state machine: one poll at a time, cut into the atomic stretches between its awaits, interleaved
  with everything else that may touch the inbox. */
module Polling {
  import opened States
  import opened Text
  import opened TaskStore
  import opened Inbox
  import opened Retention

  const BATCH := 100
  const LOOKBACK := 6 * 3600
  const SOURCE_POLL_TIMEOUT := 30
  const SETTLE := 2
  const JOURNAL_LIMIT := 20000
  const QUEUE_LIMIT := 100
  const HISTORY_TIMEOUT := 20
  const PREVIEW_LIFE := 300
  const RECOVERY_BATCH := 5

  /** A message's date never changes. */
  type Dates = Key -> int

  datatype Message = Message(id: int, group: Option<int>)
  datatype Account = Account(enabled: bool, id: Option<int>)

  // ------------------------------------------------------------------- the page

  function Members(messages: seq<Message>, group: int): seq<Message> {
    if messages == [] then []
    else (if messages[0].group == Some(group) then [messages[0]] else []) + Members(messages[1..], group)
  }

  /** The messages of a page the poll works on: the batch, and the album members that follow its last message. */
  function Kept(page: seq<Message>): seq<Message> {
    if |page| <= BATCH then page
    else
      var tail := page[BATCH - 1].group;
      page[..BATCH] + if tail.Some? then Members(page[BATCH..], tail.value) else []
  }

  ghost predicate Ascending(page: seq<Message>) {
    forall i, j | 0 <= i < j < |page| :: page[i].id < page[j].id
  }

  // ------------------------------------------------------------------- the world

  datatype Poll =
    | Idle
    // awaiting verified_chat
    | VerifyingChat(sid: int, src: Source, client: nat, deadline: int)
    // awaiting iter_messages
    | Listing(sid: int, src: Source, client: nat, deadline: int)
    | Handling(sid: int, src: Source, client: nat, deadline: int, page: seq<Message>, i: nat)
    // awaiting receive's verified_chat
    | Checking(sid: int, src: Source, client: nat, deadline: int, page: seq<Message>, i: nat)
    // awaiting receive's notification
    | Noticing(sid: int, src: Source, client: nat, deadline: int, page: seq<Message>, i: nat)

  /** A history preview waiting for confirmation. */
  datatype Preview = Preview(source: int, revision: nat, client: nat, expires: int, items: seq<NewTask>)

  /** `plannedAt` and `twice` only record what happened: when a message got its plan, and messages that got a second
    one. */
  datatype World = World(
    db: Db, now: int, account: Account, client: Option<nat>, poll: Poll, previews: set<Preview>,
    plannedAt: map<Key, int>, twice: set<Key>)

  function KeyFor(src: Source, m: Message): Key { Key(src.account, src.chat, m.id) }

  predicate Live(w: World, sid: int, revision: nat, account: int, client: nat) {
    && w.client == Some(client)
    && sid in w.db.sources && w.db.sources[sid].revision == revision
    && w.db.sources[sid].enabled && !w.db.sources[sid].deleted
    && w.account.enabled && w.account.id == Some(account)
  }

  /** _poll_current. */
  predicate PollCurrent(w: World)
    requires !w.poll.Idle?
  {
    Live(w, w.poll.sid, w.poll.src.revision, w.poll.src.account, w.poll.client)
  }

  // --------------------------------------------------------------------- receive

  /** What the environment contributes to one decision: the rules' verdict, the attachment, the row id the database
    would assign, the plan already stored for the message if there is one, and whether submission raises. */
  datatype Context = Context(admin: int, matched: bool, item: NewTask, directoryOk: bool, row: int, known: int,
                             valid: bool, raises: bool, notify: bool)

  datatype Verdict = Returns | Fails(db: Db, planned: bool) | Stores(db: Db, planned: bool)

  predicate Crowded(s: Store) {
    |set id | id in s.tasks && s.tasks[id].state in {Queued, Reserved, Downloading, Streaming}| >= QUEUE_LIMIT
  }

  function RequestFor(src: Source, sid: int, m: Message, x: Context): Request {
    Request(x.admin, Some(sid), Listener(src.account), x.item.(chat := src.chat, message := m.id), None, x.directoryOk)
  }

  /** The end of receive: register the plan and, without confirmation, submit it at once. */
  function Enrol(db: Db, q: Request, confirmation: bool, x: Context, now: int, c: Calendar): Verdict {
    var d := Register(db, q, x.row, now);
    match RegisterResult(db, q, now)
    case Rejected => Fails(db, false)
    case result =>
      var id := if result.Registered? then x.row else x.known;
      var e := if confirmation || id !in d.plans then d
          else Submit(d, x.admin, id, d.plans[id].revision, x.valid, now, c);
      if x.raises then Fails(e, result.Registered?) else Stores(e, result.Registered?)
  }

  /** receive, after its permission check. */
  function Decide(w: World, sid: int, revision: nat, m: Message, x: Context, c: Calendar): Verdict {
    if sid !in w.db.sources then Fails(w.db, false)
    else
      var src := w.db.sources[sid];
      var k := KeyFor(src, m);
      if src.revision != revision then Returns
      else if !w.account.enabled then Returns
      else if w.account.id != Some(src.account) then Fails(w.db, false)
      else if !src.enabled || src.deleted || m.id <= src.cursor then Returns
      else if k in w.db.journal then Returns
      else if |w.db.journal| >= JOURNAL_LIMIT then Fails(w.db, false)
      else if !x.matched then Stores(Journal(w.db, k, sid, w.now), false)
      else if Crowded(w.db.store) then Fails(w.db, false)
      else Enrol(w.db, RequestFor(src, sid, m, x), src.confirmation, x, w.now, c)
  }

  // ---------------------------------------------------------------- poll stretches

  /** Remember a plan for the message. */
  function Planned(w: World, k: Key): World {
    w.(plannedAt := w.plannedAt[k := w.now], twice := if k in w.plannedAt then w.twice + {k} else w.twice)
  }

  /** The transaction that moves the cursor past message `i`, and the next turn of the loop. */
  function Advance(w: World): World
    requires (w.poll.Handling? || w.poll.Noticing? || w.poll.Checking?) && w.poll.i < |Kept(w.poll.page)|
  {
    if !PollCurrent(w) then w.(poll := Idle)
    else
      var p := w.poll;
      var m, s := Kept(p.page)[p.i], w.db.sources[p.sid];
      w.(db := w.db.(sources := w.db.sources[p.sid := s.(cursor := if s.cursor < m.id then m.id else s.cursor)]),
         poll := Handling(p.sid, p.src, p.client, p.deadline, p.page, p.i + 1))
  }

  function Settle(w: World, v: Verdict, notify: bool): World
    requires (w.poll.Handling? || w.poll.Checking?) && w.poll.i < |Kept(w.poll.page)|
  {
    var p := w.poll;
    var k := KeyFor(p.src, Kept(p.page)[p.i]);
    match v
    case Returns => Advance(w)
    case Fails(db, planned) =>
      var u := w.(db := db, poll := Idle);
      if planned then Planned(u, k) else u
    case Stores(db, planned) =>
      var u := w.(db := db);
      var n := if planned then Planned(u, k) else u;
      if planned && notify then n.(poll := Noticing(p.sid, p.src, p.client, p.deadline, p.page, p.i)) else Advance(n)
  }

  /** The end of a page, or of its settled part: polled_at, if the poll is still current. */
  function Finish(w: World): World
    requires !w.poll.Idle?
  {
    if PollCurrent(w)
    then
      var s := w.db.sources[w.poll.sid];
      w.(poll := Idle, db := w.db.(sources := w.db.sources[w.poll.sid := s.(polledAt := w.now)]))
    else w.(poll := Idle)
  }

  /** One turn of the loop up to its next await. `cached` is false when receive has to check the chat again. */
  function Handle(w: World, cached: bool, x: Context, d: Dates, c: Calendar): World
    requires w.poll.Handling? && w.poll.i < |Kept(w.poll.page)|
  {
    var p := w.poll;
    var m := Kept(p.page)[p.i];
    var k := KeyFor(p.src, m);
    if w.now - d(k) < SETTLE then Finish(w)
    else if !PollCurrent(w) then w.(poll := Idle)
    else if w.now - d(k) > LOOKBACK then Advance(w.(db := Journal(w.db, k, p.sid, w.now)))
    else if !cached then w.(poll := Checking(p.sid, p.src, p.client, p.deadline, p.page, p.i))
    else Settle(w, Decide(w, p.sid, p.src.revision, m, x, c), x.notify)
  }

  // ------------------------------------------------------------ history backfill

  predicate SameMedia(t: Task, owner: int, item: NewTask) { t.sender == owner && t.mediaKey == item.mediaKey }

  /** duplicate: the file is known to the owner, or the message is journalled. */
  predicate Duplicate(db: Db, admin: int, item: NewTask, k: Key) {
    (item.mediaKey.Some? && exists t | t in db.store.tasks :: SameMedia(db.store.tasks[t], admin, item))
    || k in db.journal
  }

  /** One turn of register_history's loop; None is an exception. */
  function Enlist(w: World, p: Preview, admin: int, row: int, directoryOk: bool, j: nat): (r: Option<World>)
    requires j < |p.items| && p.source in w.db.sources
    ensures r.Some? ==> p.source in r.value.db.sources
  {
    var src, item := w.db.sources[p.source], p.items[j];
    var k := Key(src.account, src.chat, item.message);
    if item.chat != src.chat then None
    else if Duplicate(w.db, admin, item, k) then Some(w)
    else if Crowded(w.db.store) || |w.db.journal| >= JOURNAL_LIMIT then None
    else
      var q := CandidateRequest(w, p, admin, directoryOk, j);
      var u := w.(db := Register(w.db, q, row, w.now));
      match RegisterResult(w.db, q, w.now)
      case Rejected => None
      case Known => Some(u)
      case Registered => Some(Planned(u, k))
  }

  function CandidateRequest(w: World, p: Preview, admin: int, directoryOk: bool, j: nat): Request
    requires j < |p.items| && p.source in w.db.sources
  {
    Request(admin, Some(p.source), Listener(w.db.sources[p.source].account), p.items[j], None, directoryOk)
  }

  /** A turn brings in no plan but under its own row id. */
  lemma EnlistFresh(w: World, p: Preview, admin: int, row: int, directoryOk: bool, j: nat)
    requires j < |p.items| && p.source in w.db.sources
    ensures var r := Enlist(w, p, admin, row, directoryOk, j);
      r.Some? ==> forall other | other !in w.db.plans && other != row :: other !in r.value.db.plans
  {
  }

  /** The whole loop from candidate `j`; an exception rolls the batch back. */
  function Backfill(w: World, p: Preview, admin: int, rows: seq<int>, directoryOk: bool, j: nat): Option<World>
    requires j <= |p.items| == |rows| && p.source in w.db.sources
    decreases |p.items| - j
  {
    if j == |p.items| then Some(w)
    else
      match Enlist(w, p, admin, rows[j], directoryOk, j)
      case None => None
      case Some(u) => Backfill(u, p, admin, rows, directoryOk, j + 1)
  }

  function RegisterHistory(w: World, p: Preview, admin: int, rows: seq<int>, directoryOk: bool): World
    requires |p.items| == |rows|
  {
    if p.expires < w.now || p.source !in w.db.sources
       || !Live(w, p.source, p.revision, w.db.sources[p.source].account, p.client)
    then w
    else
      match Backfill(w, p, admin, rows, directoryOk, 0)
      case Some(u) => u
      case None => w
  }

  // --------------------------------------------------------------------- actions

  /** What the rest of the program does to the inbox. */
  datatype Outside =
    | EditPlan(id: int, edit: EditRequest, note: int)
    | SubmitPlan(actor: int, plan: int, planRevision: nat, valid: bool)
    | ManualPlan(request: Request, manualRow: int)
    | Alter(source: int, change: Change)
    | Save(account: int, chat: int, row: int, cursor: int, confirmation: bool)
    | Stop(paused: int, pausedRevision: nat, pause: bool, retryAt: int)
    | Collect(selection: Selection)
    | TaskStep(op: Op)

  ghost predicate OutsideEnabled(db: Db, o: Outside, now: int) {
    match o
    case ManualPlan(q, row) => q.source.None? && row !in db.plans
    case Collect(sel) => Picks(db, now, sel)
    case _ => true
  }

  function Disturb(db: Db, o: Outside, now: int, c: Calendar): Db {
    match o
    case EditPlan(id, edit, note) => Edit(db, id, edit, note, now)
    case SubmitPlan(actor, plan, revision, valid) => Submit(db, actor, plan, revision, valid, now, c)
    case ManualPlan(q, row) => Register(db, q, row, now)
    case Alter(id, change) => ChangeSource(db, id, change, now)
    case Save(account, chat, row, cursor, confirmation) => SaveSource(db, account, chat, row, cursor, confirmation, now)
    case Stop(id, revision, pause, retryAt) => Pause(db, id, revision, pause, retryAt)
    case Collect(sel) => Collected(db, sel)
    case TaskStep(op) => db.(store := Apply(db.store, op, now, c))
  }

  datatype Action =
    | Tick(later: int)
    | StartPoll(sid: int)
    | ChatVerified
    | PageFetched(page: seq<Message>)
    | HandleNext(cached: bool, handled: Context)
    | PermissionChecked(checked: Context)
    | Noticed
    | PageDone
    | PollFails
    | PreviewHistory(preview: Preview, hours: nat)
    | ConfirmHistory(confirmed: Preview, admin: int, rows: seq<int>, directoryOk: bool)
    | Disturbed(outside: Outside)
    | SetAccount(account: Account)
    | SetClient(client: Option<nat>)

  ghost predicate ContextOk(w: World, sid: int, m: Message, x: Context) {
    && x.row !in w.db.plans
    && (sid in w.db.sources ==>
          var src := w.db.sources[sid];
          HasPlan(w.db, Listener(src.account), src.chat, m.id) ==>
            x.known in w.db.plans && For(w.db.plans[x.known], Listener(src.account), src.chat, m.id))
  }

  /** When an action can happen. A poll is cancelled before it outlives its time limit, a page is what iter_messages
    returns, and a preview was scanned in time over a window of at most a day. */
  ghost predicate Possible(w: World, a: Action, d: Dates) {
    match a
    case Tick(later) => w.now <= later && (w.poll.Idle? || later <= w.poll.deadline)
    case StartPoll(sid) => w.poll.Idle? && w.client.Some? && sid in w.db.sources
    case ChatVerified => w.poll.VerifyingChat?
    case PageFetched(page) =>
      w.poll.Listing? && Ascending(page) && |page| <= BATCH + 10 && forall m | m in page :: m.id > w.poll.src.cursor
    case HandleNext(_, x) =>
      w.poll.Handling? && w.poll.i < |Kept(w.poll.page)| && ContextOk(w, w.poll.sid, Kept(w.poll.page)[w.poll.i], x)
    case PermissionChecked(x) =>
      w.poll.Checking? && w.poll.i < |Kept(w.poll.page)| && ContextOk(w, w.poll.sid, Kept(w.poll.page)[w.poll.i], x)
    case Noticed => w.poll.Noticing? && w.poll.i < |Kept(w.poll.page)|
    case PageDone => w.poll.Handling? && w.poll.i == |Kept(w.poll.page)|
    case PollFails => !w.poll.Idle?
    case PreviewHistory(p, hours) =>
      && hours <= 24 && p.expires == w.now + PREVIEW_LIFE && |p.items| <= RECOVERY_BATCH && p.source in w.db.sources
      && (forall item | item in p.items ::
            var k := Key(w.db.sources[p.source].account, w.db.sources[p.source].chat, item.message);
            w.now - HISTORY_TIMEOUT - hours * 3600 <= d(k) <= w.now - SETTLE)
    case ConfirmHistory(p, _, rows, _) =>
      && p in w.previews && |rows| == |p.items| && (forall i | 0 <= i < |rows| :: rows[i] !in w.db.plans)
      && (forall i, j | 0 <= i < j < |rows| :: rows[i] != rows[j])
    case Disturbed(o) => OutsideEnabled(w.db, o, w.now)
    case SetAccount(_) => true
    case SetClient(_) => true
  }

  function Next(w: World, a: Action, d: Dates, c: Calendar): World {
    match a
    case Tick(later) => w.(now := later)
    case StartPoll(sid) =>
      if w.poll.Idle? && w.client.Some? && sid in w.db.sources
      then w.(poll := VerifyingChat(sid, w.db.sources[sid], w.client.value, w.now + SOURCE_POLL_TIMEOUT)) else w
    case ChatVerified =>
      if !w.poll.VerifyingChat? then w
      else if !PollCurrent(w) then w.(poll := Idle)
      else
        var p := w.poll;
        var s := w.db.sources[p.sid];
        var gap := p.src.gap || (p.src.polledAt != 0 && w.now - p.src.polledAt > LOOKBACK);
        w.(poll := Listing(p.sid, p.src, p.client, p.deadline),
           db := w.db.(sources := w.db.sources[p.sid := s.(gap := s.gap || gap)]))
    case PageFetched(page) =>
      var p := w.poll;
      if p.Listing? then w.(poll := Handling(p.sid, p.src, p.client, p.deadline, page, 0)) else w
    case HandleNext(cached, x) =>
      if w.poll.Handling? && w.poll.i < |Kept(w.poll.page)| then Handle(w, cached, x, d, c) else w
    case PermissionChecked(x) =>
      if w.poll.Checking? && w.poll.i < |Kept(w.poll.page)|
      then Settle(w, Decide(w, w.poll.sid, w.poll.src.revision, Kept(w.poll.page)[w.poll.i], x, c), x.notify) else w
    case Noticed => if w.poll.Noticing? && w.poll.i < |Kept(w.poll.page)| then Advance(w) else w
    case PageDone => if w.poll.Idle? then w else Finish(w)
    case PollFails => w.(poll := Idle)
    case PreviewHistory(p, _) => w.(previews := w.previews + {p})
    case ConfirmHistory(p, admin, rows, directoryOk) =>
      if |rows| == |p.items| then RegisterHistory(w, p, admin, rows, directoryOk) else w
    case Disturbed(o) => w.(db := Disturb(w.db, o, w.now, c))
    case SetAccount(account) => w.(account := account)
    case SetClient(client) => w.(client := client)
  }

  function Play(w: World, actions: seq<Action>, d: Dates, c: Calendar): World
    decreases |actions|
  {
    if actions == [] then w else Play(Next(w, actions[0], d, c), actions[1..], d, c)
  }

  ghost predicate Plays(w: World, actions: seq<Action>, d: Dates, c: Calendar)
    decreases |actions|
  {
    actions != [] ==> Possible(w, actions[0], d) && Plays(Next(w, actions[0], d, c), actions[1..], d, c)
  }

  function Start(now: int): World {
    World(Db(EMPTY, map[], map[], map[], map[]), now, Account(false, None), None, Idle, {}, map[], {})
  }
}

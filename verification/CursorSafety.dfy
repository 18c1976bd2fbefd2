/** No undecided message is passed: the poll cursor over every interleaving. */
module CursorSafety {
  import opened States
  import opened Text
  import opened TaskStore
  import opened Inbox
  import opened Retention
  import opened Polling

  // ------------------------------------------------------------- the kept messages

  lemma {:induction false} MembersWithin(messages: seq<Message>, group: int)
    ensures forall m :: m in Members(messages, group) <==> m in messages && m.group == Some(group)
  {
    if messages != [] {
      MembersWithin(messages[1..], group);
    }
  }

  lemma {:induction false} MembersOrdered(messages: seq<Message>, group: int)
    requires Ascending(messages)
    ensures Ascending(Members(messages, group))
  {
    if messages != [] {
      CutOrdered(messages, 1);
      MembersOrdered(messages[1..], group);
      MembersWithin(messages[1..], group);
      assert messages[0] in messages[..1];
      if messages[0].group == Some(group) {
        JoinedOrdered([messages[0]], Members(messages[1..], group));
      }
    }
  }

  lemma JoinedOrdered(a: seq<Message>, b: seq<Message>)
    requires Ascending(a) && Ascending(b) && forall m, k | m in a && k in b :: m.id < k.id
    ensures Ascending(a + b)
  {
    forall i, j | 0 <= i < j < |a + b|
      ensures (a + b)[i].id < (a + b)[j].id
    {
      if i < |a| <= j {
        assert a[i] in a && b[j - |a|] in b;
      }
    }
  }

  lemma CutOrdered(page: seq<Message>, n: nat)
    requires Ascending(page) && n <= |page|
    ensures Ascending(page[..n]) && Ascending(page[n..])
    ensures forall m, k | m in page[..n] && k in page[n..] :: m.id < k.id
  {
  }

  lemma KeptAscends(page: seq<Message>)
    requires Ascending(page)
    ensures Ascending(Kept(page))
  {
    if |page| > BATCH {
      CutOrdered(page, BATCH);
      if page[BATCH - 1].group.Some? {
        var group := page[BATCH - 1].group.value;
        MembersOrdered(page[BATCH..], group);
        MembersWithin(page[BATCH..], group);
        JoinedOrdered(page[..BATCH], Members(page[BATCH..], group));
      }
    }
  }

  lemma KeptOrdered(page: seq<Message>)
    requires Ascending(page)
    ensures Ascending(Kept(page)) && forall m | m in Kept(page) :: m in page
  {
    KeptAscends(page);
    if |page| > BATCH && page[BATCH - 1].group.Some? {
      MembersWithin(page[BATCH..], page[BATCH - 1].group.value);
    }
  }

  /** The album members after the batch come before anything else. */
  ghost predicate TailContiguous(page: seq<Message>) {
    |page| > BATCH && page[BATCH - 1].group.Some? ==>
      forall i, j | BATCH <= i < j < |page| && page[j].group == page[BATCH - 1].group ::
        page[i].group == page[BATCH - 1].group
  }

  /** Every fetched message up to the last kept one is kept. */
  ghost predicate KeepsPrefix(page: seq<Message>) {
    forall m, k | m in page && k in Kept(page) && m.id <= k.id :: m in Kept(page)
  }

  predicate InBatchOrAlbum(page: seq<Message>, i: nat)
    requires i < |page|
  {
    i < BATCH || |page| <= BATCH || (page[BATCH - 1].group.Some? && page[i].group == page[BATCH - 1].group)
  }

  /** Which fetched messages are kept, by position. */
  lemma KeptAt(page: seq<Message>, i: nat)
    requires Ascending(page) && i < |page|
    ensures page[i] in Kept(page) <==> InBatchOrAlbum(page, i)
  {
    if |page| > BATCH {
      var head, rest := page[..BATCH], page[BATCH..];
      assert i < BATCH ==> head[i] == page[i];
      assert i >= BATCH ==> rest[i - BATCH] == page[i] && page[i] !in head;
      CutOrdered(page, BATCH);
      if page[BATCH - 1].group.Some? {
        MembersWithin(rest, page[BATCH - 1].group.value);
      }
    }
  }

  lemma ContiguousKeepsPrefix(page: seq<Message>, i: nat, j: nat)
    requires Ascending(page) && TailContiguous(page) && i <= j < |page| && page[j] in Kept(page)
    ensures page[i] in Kept(page)
  {
    KeptAt(page, i);
    KeptAt(page, j);
  }

  lemma KeptHasEarlier(page: seq<Message>, m: Message, k: Message)
    requires Ascending(page) && TailContiguous(page) && m in page && k in Kept(page) && m.id <= k.id
    ensures m in Kept(page)
  {
    KeptOrdered(page);
    var i :| 0 <= i < |page| && page[i] == m;
    var j :| 0 <= j < |page| && page[j] == k;
    ContiguousKeepsPrefix(page, i, j);
  }

  lemma InterruptedIsNoPrefix(page: seq<Message>, i: nat, j: nat)
    requires Ascending(page) && BATCH <= i < j < |page| && page[BATCH - 1].group.Some?
    requires page[j].group == page[BATCH - 1].group && page[i].group != page[BATCH - 1].group
    ensures page[j] in Kept(page) && page[i] !in Kept(page) && page[i].id <= page[j].id
  {
    KeptAt(page, i);
    KeptAt(page, j);
  }

  /** The batch cut leaves no fetched message behind exactly when the album after it is contiguous. */
  lemma KeptIsPrefix(page: seq<Message>)
    requires Ascending(page)
    ensures KeepsPrefix(page) <==> TailContiguous(page)
  {
    if TailContiguous(page) {
      forall m, k | m in page && k in Kept(page) && m.id <= k.id
        ensures m in Kept(page)
      {
        KeptHasEarlier(page, m, k);
      }
    } else {
      var i, j :| BATCH <= i < j < |page| && page[j].group == page[BATCH - 1].group
          && page[i].group != page[BATCH - 1].group;
      InterruptedIsNoPrefix(page, i, j);
      assert page[i] in page && page[j] in Kept(page);
    }
  }

  /** A page of 102: an album starts at message 100, another message interrupts it, and the album goes on. */
  function InterruptedPage(): seq<Message> {
    seq(99, i => Message(i + 1, None)) + [Message(100, Some(7)), Message(101, None), Message(102, Some(7))]
  }

  /** The interrupting message is fetched and left out, while a later one is kept. */
  lemma InterruptedPageLosesMessage()
    ensures Ascending(InterruptedPage()) && !KeepsPrefix(InterruptedPage())
  {
    var page := InterruptedPage();
    assert page[99].group == Some(7) && page[100].group == None && page[101].group == Some(7);
    KeptIsPrefix(page);
  }

  // ------------------------------------------------------------------- invariants

  /** Sources stay, keep their chat, and move their cursor only under a new revision. */
  ghost predicate SourcesQuiet(db: Db, next: Db) {
    forall id | id in db.sources ::
      && id in next.sources
      && next.sources[id].account == db.sources[id].account && next.sources[id].chat == db.sources[id].chat
      && (next.sources[id].revision > db.sources[id].revision
          || (next.sources[id].revision == db.sources[id].revision && next.sources[id].cursor == db.sources[id].cursor))
  }

  /** Recent journal rows stay. */
  ghost predicate JournalQuiet(db: Db, next: Db, now: int) {
    forall k | k in db.journal && db.journal[k].created >= now - TTL ::
      k in next.journal && next.journal[k] == db.journal[k]
  }

  lemma DisturbQuiet(db: Db, o: Outside, now: int, c: Calendar)
    requires OutsideEnabled(db, o, now)
    ensures SourcesQuiet(db, Disturb(db, o, now, c)) && JournalQuiet(db, Disturb(db, o, now, c), now)
  {
    match o
    case Collect(sel) => CollectQuiet(db, sel, now);
    case ManualPlan(q, row) => RegisterQuiet(db, q, row, now);
    case _ =>
  }

  lemma CollectQuiet(db: Db, sel: Selection, now: int)
    requires Picks(db, now, sel)
    ensures SourcesQuiet(db, Collected(db, sel)) && JournalQuiet(db, Collected(db, sel), now)
  {
  }

  lemma RegisterQuiet(db: Db, q: Request, row: int, now: int)
    requires q.source.None?
    ensures SourcesQuiet(db, Register(db, q, row, now)) && JournalQuiet(db, Register(db, q, row, now), now)
  {
  }

  /** Where the poll left the cursor, as long as the source is unchanged. */
  function CursorAt(p: Poll): int
    requires p.Handling? || p.Checking? || p.Noticing? ==> p.i <= |Kept(p.page)|
    requires !p.Idle?
  {
    if p.VerifyingChat? || p.Listing? || p.i == 0 then p.src.cursor else Kept(p.page)[p.i - 1].id
  }

  ghost predicate PageSafe(p: Poll)
    requires p.Handling? || p.Checking? || p.Noticing?
  {
    && Ascending(p.page) && (forall m | m in p.page :: m.id > p.src.cursor)
    && p.i <= |Kept(p.page)| && (p.Checking? || p.Noticing? ==> p.i < |Kept(p.page)|)
  }

  ghost predicate PollSafe(w: World) {
    var p := w.poll;
    !p.Idle? ==>
      && p.sid in w.db.sources
      && w.db.sources[p.sid].account == p.src.account && w.db.sources[p.sid].chat == p.src.chat
      && p.src.revision <= w.db.sources[p.sid].revision
      && p.deadline - SOURCE_POLL_TIMEOUT <= w.now <= p.deadline
      && (p.Handling? || p.Checking? || p.Noticing? ==> PageSafe(p))
      && (w.db.sources[p.sid].revision == p.src.revision ==> w.db.sources[p.sid].cursor == CursorAt(p))
      && (p.Noticing? ==>
            var k := KeyFor(p.src, Kept(p.page)[p.i]);
            k in w.db.journal && w.db.journal[k].created >= p.deadline - SOURCE_POLL_TIMEOUT)
  }

  lemma NextInOrder(kept: seq<Message>, i: nat, f: Message)
    requires Ascending(kept) && i < |kept| && f in kept
    requires (i > 0 ==> kept[i - 1].id < f.id) && f.id <= kept[i].id
    ensures f == kept[i]
  {
    var j :| 0 <= j < |kept| && kept[j] == f;
  }

  /** Kept messages the cursor passes in one move: just the current one. */
  lemma PassedIsCurrent(p: Poll, f: Message)
    requires (p.Handling? || p.Checking? || p.Noticing?) && PageSafe(p) && p.i < |Kept(p.page)|
    requires f in Kept(p.page) && CursorAt(p) < f.id <= Kept(p.page)[p.i].id
    ensures f == Kept(p.page)[p.i]
  {
    KeptAscends(p.page);
    NextInOrder(Kept(p.page), p.i, f);
  }

  /** The cursor's move as such: it goes up to the current message. */
  lemma CursorMoves(w: World)
    requires PollSafe(w) && (w.poll.Handling? || w.poll.Checking? || w.poll.Noticing?) && w.poll.i < |Kept(w.poll.page)|
    requires PollCurrent(w)
    ensures w.db.sources[w.poll.sid].cursor == CursorAt(w.poll) < Kept(w.poll.page)[w.poll.i].id
  {
    var p := w.poll;
    KeptOrdered(p.page);
    assert Kept(p.page)[p.i] in p.page;
    assert p.i > 0 ==> Kept(p.page)[p.i - 1].id < Kept(p.page)[p.i].id;
  }

  lemma AdvanceSafe(w: World)
    requires PollSafe(w) && (w.poll.Handling? || w.poll.Checking? || w.poll.Noticing?) && w.poll.i < |Kept(w.poll.page)|
    ensures PollSafe(Advance(w))
  {
    if PollCurrent(w) {
      CursorMoves(w);
      assert w.db.sources[w.poll.sid].revision == Advance(w).db.sources[w.poll.sid].revision;
      assert PageSafe(Advance(w).poll);
    }
  }

  lemma SubmitKeeps(db: Db, actor: int, id: int, revision: nat, valid: bool, now: int, c: Calendar, k: Key)
    requires Stored(db, k)
    ensures var e := Submit(db, actor, id, revision, valid, now, c);
      Stored(e, k) && e.sources == db.sources && e.journal == db.journal && e.plans.Keys == db.plans.Keys
  {
    var e := Submit(db, actor, id, revision, valid, now, c);
    if k !in db.journal {
      var p :| p in db.plans && Stands(db.plans[p], k);
      assert p in e.plans && Stands(e.plans[p], k);
    }
  }

  lemma RegisterStores(db: Db, q: Request, row: int, now: int)
    requires q.source.Some? && q.source.value in db.sources && row !in db.plans
    ensures var d := Register(db, q, row, now);
      && d.sources == db.sources
      && JournalQuiet(db, d, now)
      && (!RegisterResult(db, q, now).Rejected? ==> Stored(d, KeyOf(db, q)))
      && (RegisterResult(db, q, now).Registered? ==>
          KeyOf(db, q) in d.journal && d.journal[KeyOf(db, q)].created == now)
  {
    var d := Register(db, q, row, now);
    if RegisterResult(db, q, now).Known? {
      var p :| p in db.plans && For(db.plans[p], q.identity, q.item.chat, q.item.message);
      assert p in d.plans && Stands(d.plans[p], KeyOf(db, q));
    }
  }

  /** receive returns empty-handed only when the message is already stored or the poll is no longer current. */
  lemma DecideReturns(w: World, m: Message, x: Context, c: Calendar)
    requires !w.poll.Idle? && w.poll.sid in w.db.sources
    requires w.db.sources[w.poll.sid].account == w.poll.src.account && w.db.sources[w.poll.sid].chat == w.poll.src.chat
    requires w.db.sources[w.poll.sid].revision == w.poll.src.revision ==> m.id > w.db.sources[w.poll.sid].cursor
    ensures Decide(w, w.poll.sid, w.poll.src.revision, m, x, c).Returns? && PollCurrent(w) ==>
      Stored(w.db, KeyFor(w.poll.src, m))
  {
    var src := w.db.sources[w.poll.sid];
    var v := Enrol(w.db, RequestFor(src, w.poll.sid, m, x), src.confirmation, x, w.now, c);
    assert v.Fails? || v.Stores?;
  }

  /** The verdicts of receive: what it stores is stored, and it returns empty-handed only when the message is already
    stored or the poll is no longer current. */
  lemma DecideStores(w: World, m: Message, x: Context, c: Calendar)
    requires PollSafe(w) && !w.poll.Idle? && ContextOk(w, w.poll.sid, m, x)
    requires w.db.sources[w.poll.sid].revision == w.poll.src.revision ==> m.id > w.db.sources[w.poll.sid].cursor
    ensures var v := Decide(w, w.poll.sid, w.poll.src.revision, m, x, c); var k := KeyFor(w.poll.src, m);
      && (v.Returns? && PollCurrent(w) ==> Stored(w.db, k))
      && (!v.Returns? ==> v.db.sources == w.db.sources && JournalQuiet(w.db, v.db, w.now))
      && (v.Stores? ==> Stored(v.db, k) && (v.planned ==> k in v.db.journal && v.db.journal[k].created == w.now))
  {
    var src := w.db.sources[w.poll.sid];
    DecideReturns(w, m, x, c);
    EnrolStores(w.db, RequestFor(src, w.poll.sid, m, x), src.confirmation, x, w.now, c);
  }

  lemma EnrolStores(db: Db, q: Request, confirmation: bool, x: Context, now: int, c: Calendar)
    requires q.source.Some? && q.source.value in db.sources && x.row !in db.plans
    ensures var v := Enrol(db, q, confirmation, x, now, c); var k := KeyOf(db, q);
      && (v.Fails? || v.Stores?)
      && v.db.sources == db.sources && JournalQuiet(db, v.db, now)
      && (v.Stores? ==> Stored(v.db, k))
      && (v.planned ==> RegisterResult(db, q, now).Registered? && k in v.db.journal && v.db.journal[k].created == now)
  {
    RegisterStores(db, q, x.row, now);
    var d := Register(db, q, x.row, now);
    var id := if RegisterResult(db, q, now).Registered? then x.row else x.known;
    if !RegisterResult(db, q, now).Rejected? && id in d.plans {
      SubmitKeeps(d, x.admin, id, d.plans[id].revision, x.valid, now, c, KeyOf(db, q));
    }
  }

  /** receive's verdict on the message at hand. */
  function DecideHere(w: World, x: Context, c: Calendar): Verdict
    requires (w.poll.Handling? || w.poll.Checking?) && w.poll.i < |Kept(w.poll.page)|
  {
    Decide(w, w.poll.sid, w.poll.src.revision, Kept(w.poll.page)[w.poll.i], x, c)
  }

  /** The world once receive has stored something. */
  function AfterStoring(w: World, db: Db, planned: bool): World
    requires (w.poll.Handling? || w.poll.Checking?) && w.poll.i < |Kept(w.poll.page)|
  {
    var u := w.(db := db);
    if planned then Planned(u, KeyFor(w.poll.src, Kept(w.poll.page)[w.poll.i])) else u
  }

  /** What DecideStores says of a verdict on the message at hand. */
  ghost predicate VerdictFits(w: World, v: Verdict)
    requires (w.poll.Handling? || w.poll.Checking?) && w.poll.i < |Kept(w.poll.page)|
  {
    var k := KeyFor(w.poll.src, Kept(w.poll.page)[w.poll.i]);
    && (v.Returns? && PollCurrent(w) ==> Stored(w.db, k))
    && (!v.Returns? ==> v.db.sources == w.db.sources && JournalQuiet(w.db, v.db, w.now))
    && (v.Stores? ==> Stored(v.db, k) && (v.planned ==> k in v.db.journal && v.db.journal[k].created == w.now))
  }

  lemma DecideFits(w: World, x: Context, c: Calendar)
    requires PollSafe(w) && (w.poll.Handling? || w.poll.Checking?) && w.poll.i < |Kept(w.poll.page)|
    requires ContextOk(w, w.poll.sid, Kept(w.poll.page)[w.poll.i], x)
    ensures VerdictFits(w, DecideHere(w, x, c))
  {
    var p := w.poll;
    KeptOrdered(p.page);
    assert Kept(p.page)[p.i] in p.page && (p.i > 0 ==> Kept(p.page)[p.i - 1].id < Kept(p.page)[p.i].id);
    DecideStores(w, Kept(p.page)[p.i], x, c);
  }

  // ------------------------------------------------------------------ one step safe

  lemma VerdictSafe(w: World, v: Verdict, notify: bool)
    requires PollSafe(w) && (w.poll.Handling? || w.poll.Checking?) && w.poll.i < |Kept(w.poll.page)|
      && VerdictFits(w, v)
    ensures PollSafe(Settle(w, v, notify))
  {
    match v {
      case Returns => AdvanceSafe(w);
      case Fails(_, _) =>
      case Stores(db, planned) =>
        if !(planned && notify) {
          AdvanceSafe(AfterStoring(w, db, planned));
        }
    }
  }

  lemma HandleSafe(w: World, cached: bool, x: Context, d: Dates, c: Calendar)
    requires PollSafe(w) && Possible(w, HandleNext(cached, x), d)
    ensures PollSafe(Handle(w, cached, x, d, c))
  {
    var p := w.poll;
    var k := KeyFor(p.src, Kept(p.page)[p.i]);
    if w.now - d(k) >= SETTLE && PollCurrent(w) {
      if w.now - d(k) > LOOKBACK {
        AdvanceSafe(w.(db := Journal(w.db, k, p.sid, w.now)));
      } else if cached {
        DecideFits(w, x, c);
        VerdictSafe(w, DecideHere(w, x, c), x.notify);
      }
    }
  }

  /** Confirming a history preview leaves the poll, the cursors and recent journal rows alone. */
  ghost predicate Undisturbed(w: World, u: World) {
    u.db.sources == w.db.sources && JournalQuiet(w.db, u.db, w.now) && u.poll == w.poll && u.now == w.now
  }

  /** One candidate of a confirmed preview. */
  lemma EnlistQuiet(w: World, p: Preview, admin: int, row: int, directoryOk: bool, j: nat)
    requires j < |p.items| && p.source in w.db.sources && row !in w.db.plans
    ensures var r := Enlist(w, p, admin, row, directoryOk, j); r.Some? ==> Undisturbed(w, r.value)
  {
    RegisterStores(w.db, CandidateRequest(w, p, admin, directoryOk, j), row, w.now);
  }

  lemma {:induction false} BackfillQuiet(w: World, p: Preview, admin: int, rows: seq<int>, directoryOk: bool, j: nat)
    requires j <= |p.items| == |rows| && p.source in w.db.sources
    requires forall i | j <= i < |rows| :: rows[i] !in w.db.plans
    requires forall i, l | 0 <= i < l < |rows| :: rows[i] != rows[l]
    ensures var u := Backfill(w, p, admin, rows, directoryOk, j); u.Some? ==> Undisturbed(w, u.value)
    decreases |p.items| - j
  {
    if j < |p.items| {
      EnlistQuiet(w, p, admin, rows[j], directoryOk, j);
      EnlistFresh(w, p, admin, rows[j], directoryOk, j);
      var r := Enlist(w, p, admin, rows[j], directoryOk, j);
      if r.Some? {
        BackfillQuiet(r.value, p, admin, rows, directoryOk, j + 1);
      }
    }
  }

  lemma ConfirmQuiet(w: World, p: Preview, admin: int, rows: seq<int>, directoryOk: bool)
    requires |rows| == |p.items| && (forall i | 0 <= i < |rows| :: rows[i] !in w.db.plans)
    requires forall i, j | 0 <= i < j < |rows| :: rows[i] != rows[j]
    ensures Undisturbed(w, RegisterHistory(w, p, admin, rows, directoryOk))
  {
    if p.source in w.db.sources {
      BackfillQuiet(w, p, admin, rows, directoryOk, 0);
    }
  }

  lemma StepSafe(w: World, a: Action, d: Dates, c: Calendar)
    requires PollSafe(w) && Possible(w, a, d)
    ensures PollSafe(Next(w, a, d, c))
  {
    match a {
      case HandleNext(cached, x) => HandleSafe(w, cached, x, d, c);
      case PermissionChecked(x) =>
        DecideFits(w, x, c);
        VerdictSafe(w, DecideHere(w, x, c), x.notify);
      case Noticed => AdvanceSafe(w);
      case ConfirmHistory(p, admin, rows, directoryOk) => ConfirmQuiet(w, p, admin, rows, directoryOk);
      case Disturbed(o) => DisturbQuiet(w.db, o, w.now, c);
      case _ => OtherStepsSafe(w, a, d, c);
    }
  }

  lemma OtherStepsSafe(w: World, a: Action, d: Dates, c: Calendar)
    requires PollSafe(w) && Possible(w, a, d)
    requires !a.ConfirmHistory? && !a.Disturbed? && !a.HandleNext? && !a.PermissionChecked? && !a.Noticed?
    ensures PollSafe(Next(w, a, d, c))
  {
  }

  // ----------------------------------------------------- what a cursor move passes

  predicate AtPage(p: Poll) { p.Handling? || p.Checking? || p.Noticing? }

  /** Message `f` of the poll's page is passed when the cursor of its source goes from `before` to `after`. */
  predicate Passed(p: Poll, f: Message, before: int, after: int)
    requires AtPage(p)
  {
    f in p.page && before < f.id <= after
  }

  /** The step moved the cursor of source `id`, and not because the source was changed. */
  predicate Moved(w: World, u: World, id: int) {
    && id in w.db.sources && id in u.db.sources && u.db.sources[id].revision == w.db.sources[id].revision
    && u.db.sources[id].cursor != w.db.sources[id].cursor
  }

  /** Wherever a step moves a cursor, it is forward, by the poll of that source, to the message at hand, and every
    fetched message it passes is stored then, but for those the batch cut had left out. */
  ghost predicate PassesDecided(w: World, u: World) {
    forall id | Moved(w, u, id) ::
      && AtPage(w.poll) && w.poll.sid == id && w.db.sources[id].cursor < u.db.sources[id].cursor
      && w.poll.i < |Kept(w.poll.page)| && u.db.sources[id].cursor == Kept(w.poll.page)[w.poll.i].id
      && forall f | Passed(w.poll, f, w.db.sources[id].cursor, u.db.sources[id].cursor) ::
           f in Kept(w.poll.page) ==> Stored(u.db, KeyFor(w.poll.src, f))
  }

  /** The same without the exception. */
  ghost predicate PassesAllDecided(w: World, u: World) {
    forall id | Moved(w, u, id) ::
      && AtPage(w.poll) && w.poll.sid == id
      && forall f | Passed(w.poll, f, w.db.sources[id].cursor, u.db.sources[id].cursor) ::
          Stored(u.db, KeyFor(w.poll.src, f))
  }

  /** Sources stay, and revisions never decrease. */
  ghost predicate RevisionsGrow(db: Db, next: Db) {
    forall id | id in db.sources :: id in next.sources && next.sources[id].revision >= db.sources[id].revision
  }

  /** `v` is `w` after receive has stored something: same poll, same sources. */
  lemma AdvanceDecides(w: World, v: World)
    requires PollSafe(w) && AtPage(w.poll) && w.poll.i < |Kept(w.poll.page)|
    requires v.poll == w.poll && v.db.sources == w.db.sources && v.account == w.account && v.client == w.client
    requires PollCurrent(w) ==> Stored(v.db, KeyFor(w.poll.src, Kept(w.poll.page)[w.poll.i]))
    ensures PassesDecided(w, Advance(v)) && RevisionsGrow(w.db, Advance(v).db)
  {
    if PollCurrent(w) {
      var p := w.poll;
      CursorMoves(w);
      forall f | Passed(p, f, w.db.sources[p.sid].cursor, Kept(p.page)[p.i].id) && f in Kept(p.page)
        ensures Stored(Advance(v).db, KeyFor(p.src, f))
      {
        PassedIsCurrent(p, f);
      }
    }
  }

  lemma VerdictDecides(w: World, v: Verdict, notify: bool)
    requires PollSafe(w) && (w.poll.Handling? || w.poll.Checking?) && w.poll.i < |Kept(w.poll.page)|
      && VerdictFits(w, v)
    ensures PassesDecided(w, Settle(w, v, notify)) && RevisionsGrow(w.db, Settle(w, v, notify).db)
  {
    match v {
      case Returns => AdvanceDecides(w, w);
      case Fails(_, _) =>
      case Stores(db, planned) => AdvanceDecides(w, AfterStoring(w, db, planned));
    }
  }

  lemma HandleDecides(w: World, cached: bool, x: Context, d: Dates, c: Calendar)
    requires PollSafe(w) && Possible(w, HandleNext(cached, x), d)
    ensures PassesDecided(w, Handle(w, cached, x, d, c)) && RevisionsGrow(w.db, Handle(w, cached, x, d, c).db)
  {
    var p := w.poll;
    var k := KeyFor(p.src, Kept(p.page)[p.i]);
    if w.now - d(k) >= SETTLE && PollCurrent(w) {
      if w.now - d(k) > LOOKBACK {
        AdvanceDecides(w, w.(db := Journal(w.db, k, p.sid, w.now)));
      } else if cached {
        DecideFits(w, x, c);
        VerdictDecides(w, DecideHere(w, x, c), x.notify);
      }
    }
  }

  /** The other steps of the poll move no cursor. */
  lemma OtherStepsMoveNothing(w: World, a: Action, d: Dates, c: Calendar)
    requires Possible(w, a, d)
    requires !a.ConfirmHistory? && !a.Disturbed? && !a.HandleNext? && !a.PermissionChecked? && !a.Noticed?
    ensures PassesDecided(w, Next(w, a, d, c)) && RevisionsGrow(w.db, Next(w, a, d, c).db)
  {
  }

  lemma StepDecides(w: World, a: Action, d: Dates, c: Calendar)
    requires PollSafe(w) && Possible(w, a, d)
    ensures PassesDecided(w, Next(w, a, d, c)) && RevisionsGrow(w.db, Next(w, a, d, c).db)
  {
    match a {
      case HandleNext(cached, x) => HandleDecides(w, cached, x, d, c);
      case PermissionChecked(x) =>
        DecideFits(w, x, c);
        VerdictDecides(w, DecideHere(w, x, c), x.notify);
      case Noticed => AdvanceDecides(w, w);
      case ConfirmHistory(p, admin, rows, directoryOk) => ConfirmQuiet(w, p, admin, rows, directoryOk);
      case Disturbed(o) => DisturbQuiet(w.db, o, w.now, c);
      case _ => OtherStepsMoveNothing(w, a, d, c);
    }
  }

  /** Where the album after the batch is contiguous, there is no exception. */
  lemma ContiguousPassesAll(w: World, u: World)
    requires PollSafe(w) && PassesDecided(w, u)
    requires AtPage(w.poll) ==> TailContiguous(w.poll.page)
    ensures PassesAllDecided(w, u)
  {
    if AtPage(w.poll) {
      KeptIsPrefix(w.poll.page);
      forall id, f | Moved(w, u, id) && Passed(w.poll, f, w.db.sources[id].cursor, u.db.sources[id].cursor)
        ensures Stored(u.db, KeyFor(w.poll.src, f))
      {
        assert Kept(w.poll.page)[w.poll.i] in Kept(w.poll.page);
        assert f in Kept(w.poll.page);
      }
    }
  }

  // ------------------------------------------------------------------------ runs

  lemma {:induction false} SafeOverRun(w: World, actions: seq<Action>, i: nat, d: Dates, c: Calendar)
    requires PollSafe(w) && Plays(w, actions, d, c) && i <= |actions|
    ensures PollSafe(Play(w, actions[..i], d, c))
    ensures i < |actions| ==> Possible(Play(w, actions[..i], d, c), actions[i], d)
    decreases |actions|
  {
    if i > 0 {
      StepSafe(w, actions[0], d, c);
      SafeOverRun(Next(w, actions[0], d, c), actions[1..], i - 1, d, c);
      assert actions[..i][1..] == actions[1..][..i - 1];
    }
  }

  /** No undecided message is passed: under every interleaving of a poll with pauses, edits, deletions, re-adds, account
    changes, backpressure and failures, each step that moves a cursor moves it forward, and past a fetched message only
    if a journal row or a plan for it is stored, or the batch cut had left the message out; where the album after the
    batch is contiguous, without exception. Only a change of the source, under a new revision, may set a cursor back. */
  lemma NoUndecidedMessagePassed(now: int, actions: seq<Action>, i: nat, d: Dates, c: Calendar)
    requires Plays(Start(now), actions, d, c) && i < |actions|
    ensures var w := Play(Start(now), actions[..i], d, c); var u := Next(w, actions[i], d, c);
      && PassesDecided(w, u) && RevisionsGrow(w.db, u.db)
      && (AtPage(w.poll) && TailContiguous(w.poll.page) ==> PassesAllDecided(w, u))
  {
    var w := Play(Start(now), actions[..i], d, c);
    var u := Next(w, actions[i], d, c);
    SafeOverRun(Start(now), actions, i, d, c);
    StepDecides(w, actions[i], d, c);
    if AtPage(w.poll) && TailContiguous(w.poll.page) {
      ContiguousPassesAll(w, u);
    }
  }
}

/** What create, reserve, admit_upload and requeue answer and leave behind, read off the rows: which states count, how
  many tasks and how many bytes there are, and which columns change. */
module Outcomes {
  import opened States
  import opened Text
  import opened TaskStore

  // ------------------------------------------------------------- counts and sums

  /** A sum of ones is the number of rows. */
  lemma {:induction false} SumCounts(m: Measure, s: Store, ids: set<int>, n: nat)
    requires forall i | 1 <= i <= n :: Weight(m, s, i) == if i in ids then 1 else 0
    ensures Sum(m, s, n) == |UpTo(ids, n)|
  {
    OneMore(ids, n);
    if n > 0 {
      SumCounts(m, s, ids, n - 1);
    }
  }

  /** What the rows with ids up to `n` are worth together. */
  function Worth<T>(rows: map<int, T>, value: T -> int, n: nat): int {
    if n == 0 then 0 else Worth(rows, value, n - 1) + if n in rows then value(rows[n]) else 0
  }

  lemma {:induction false} SumIsWorth<T>(m: Measure, s: Store, rows: map<int, T>, value: T -> int, n: nat)
    requires forall i | 1 <= i <= n :: Weight(m, s, i) == if i in rows then value(rows[i]) else 0
    ensures Sum(m, s, n) == Worth(rows, value, n)
  {
    if n > 0 {
      SumIsWorth(m, s, rows, value, n - 1);
    }
  }

  /** The bytes of a task whose file is kept under the local budget. */
  function FileBytes(): Task -> int {
    (t: Task) =>
      if t.mode == Local
         && t.state in {Reserved, Downloading, Downloaded, WaitingUpload, Uploading, Verifying, Finalizing,
                        CleanupPending, UploadFailedRetained, VerificationFailedRetained}
      then t.size else 0
  }

  /** The bytes that a task's local file will still grow by. */
  function GrowthBytes(): Task -> int {
    (t: Task) =>
      if t.mode == Local && t.state in {Reserved, Downloading} && t.size > t.downloaded
      then t.size - t.downloaded else 0
  }

  function ChargedBytes(user: int, lo: int, hi: int): Ledger -> int {
    (l: Ledger) => if l.user == user && l.charged.Some? && lo <= l.charged.value < hi then l.bytes else 0
  }

  function ReservedBytes(user: int): Ledger -> int {
    (l: Ledger) => if l.user == user && l.charged == None && !l.released then l.bytes else 0
  }

  /** The member's tasks that wait for something. */
  function Queue(s: Store, user: int): set<int> {
    set id | id in s.tasks && s.tasks[id].sender == user && s.tasks[id].state in {Queued, Downloaded, WaitingUpload}
  }

  /** The member's tasks, but for one, that are at work or hold an upload slot. */
  function AtWork(s: Store, user: int, but: int): set<int> {
    set id | id in s.tasks && id != but && s.tasks[id].sender == user
             && (s.tasks[id].state in {Reserved, Downloading, Streaming, Uploading, Verifying, Finalizing}
                 || id in s.slots)
  }

  function QuotaOf(s: Store, user: int): Quota { if user in s.quotas then s.quotas[user] else Quota(0, 0, 0) }

  // -------------------------------------------------------------------- admission

  /** The member's day has room for the bytes, unless the task holds them already, and the queue for one more task. */
  predicate RoomFor(s: Store, user: int, size: nat, at: int, c: Calendar, held: bool) {
    var q := QuotaOf(s, user);
    && (q.dailyBytes > 0 && !held ==>
          && size > 0
          && Worth(s.ledger, ChargedBytes(user, c.start(at), c.end(at)), s.last)
             + Worth(s.ledger, ReservedBytes(user), s.last) + size <= q.dailyBytes)
    && (q.maxQueued > 0 ==> |Queue(s, user)| < q.maxQueued)
  }

  lemma QueueIsCounted(s: Store, user: int)
    requires WellFormed(s)
    ensures Total(TaskStore.Waiting(user), s) == |Queue(s, user)|
  {
    SumCounts(TaskStore.Waiting(user), s, Queue(s, user), s.last);
    assert UpTo(Queue(s, user), s.last) == Queue(s, user);
  }

  lemma AdmitsMeans(s: Store, user: int, size: nat, at: int, c: Calendar, task: Option<int>)
    requires WellFormed(s)
    ensures Admits(s, user, size, at, c, task) <==> RoomFor(s, user, size, at, c, HoldsQuota(s, task))
  {
    var lo, hi := c.start(at), c.end(at);
    SumIsWorth(ChargedIn(user, lo, hi), s, s.ledger, ChargedBytes(user, lo, hi), s.last);
    SumIsWorth(TaskStore.Held(user), s, s.ledger, ReservedBytes(user), s.last);
    QueueIsCounted(s, user);
  }

  predicate SlotFree(s: Store, user: int, id: int) {
    QuotaOf(s, user).maxActive == 0 || |AtWork(s, user, id)| < QuotaOf(s, user).maxActive
  }

  lemma SlotMeans(s: Store, user: int, id: int)
    requires WellFormed(s)
    ensures SlotAvailable(s, user, id) <==> SlotFree(s, user, id)
  {
    SumCounts(BusyExcept(user, id), s, AtWork(s, user, id), s.last);
    assert UpTo(AtWork(s, user, id), s.last) == AtWork(s, user, id);
  }

  // ------------------------------------------------------------------ create_task

  /** The task has the message, or the member has sent the same file. */
  predicate Matches(t: Task, n: NewTask) {
    (t.chat == n.chat && t.message == n.message)
    || (n.mediaKey.Some? && t.sender == n.sender && t.mediaKey == n.mediaKey)
  }

  /** A task as it is entered. */
  predicate Entered(t: Task, n: NewTask, at: int) {
    && t.state == Queued && t.mode == Local && t.sender == n.sender && t.chat == n.chat && t.message == n.message
    && t.mediaKey == n.mediaKey && t.fileName == n.fileName && t.size == n.size && t.identity == n.identity
    && t.sourceId == n.sourceId && t.createdAt == at && t.updatedAt == at && t.nextRetry == 0 && !t.cancelRequested
    && t.localPath == t.remotePath == t.remoteTemp == t.remoteFinal == None
    && t.downloaded == t.uploaded == t.downloadRetries == t.uploadRetries == 0
    && t.failureKind == t.error == t.waitReason == t.verification == None && t.verifiedAt == None
  }

  /** A message or file that is there gives its task; otherwise the quota, the directory and the identity are looked at
    in this order; and a new task is entered over a ledger row that reserves its bytes. */
  ghost predicate CreateOutcome(s: Store, n: NewTask, at: int, c: Calendar, r: TaskStore.Created, t: Store) {
    if exists id :: id in s.tasks && Matches(s.tasks[id], n) then
      r.Existing? && r.id in s.tasks && Matches(s.tasks[r.id], n) && t == s
    else if !RoomFor(s, n.sender, n.size, at, c, false) then r == QuotaExceeded && t == s
    else if !n.directoryOk then r == InvalidDirectory && t == s
    else if n.identity != Bot && n.sourceId == None then r == InvalidIdentity && t == s
    else
      && r == Fresh(s.last + 1) && s.last + 1 in t.tasks && Entered(t.tasks[s.last + 1], n, at)
      && t == s.(last := s.last + 1, tasks := s.tasks[s.last + 1 := t.tasks[s.last + 1]],
                 ledger := s.ledger[s.last + 1 := Ledger(n.sender, n.size, None, false)])
  }

  lemma FreshIsEntered(n: NewTask, at: int)
    ensures Entered(FreshTask(n, at), n, at)
  {
  }

  lemma SameMatch(n: NewTask)
    ensures forall t: Task :: Matches(t, n) == Duplicates(t, n)
  {
  }

  lemma CreateDecides(s: Store, n: NewTask, at: int, c: Calendar)
    requires WellFormed(s)
    ensures CreateOutcome(s, n, at, c, CreateResult(s, n, at, c), Create(s, n, at, c))
  {
    FindsDuplicate(s, n, s.last);
    AdmitsMeans(s, n.sender, n.size, at, c, None);
    FreshIsEntered(n, at);
    SameMatch(n);
  }

  // -------------------------------------------------------------------- reserve

  /** The queued task may start as far as it is concerned. */
  predicate Due(s: Store, id: int, now: int) {
    id in s.tasks && s.tasks[id].state == Queued && !s.tasks[id].cancelRequested && s.tasks[id].nextRetry <= now
  }

  /** A task that starts: reserved in its mode, with nothing left of an earlier failure. */
  predicate Started(t: Task, u: Task, mode: Mode, now: int) {
    u == t.(state := Reserved, mode := mode, waitReason := None, error := None, failureKind := None, nextRetry := 0,
            updatedAt := now)
  }

  /** Only the row of the task differs, and it only in its wait text and time. */
  predicate OnlyWaits(s: Store, t: Store, id: int, reason: string, now: int)
    requires id in s.tasks
  {
    t == if s.tasks[id].waitReason == Some(reason) then s
         else s.(tasks := s.tasks[id := s.tasks[id].(waitReason := Some(reason), updatedAt := now)])
  }

  /** Which of the member's slot, the free disk and the local budget is in the way, in this order, and how the task
    starts if none is: through a stream if it asks for one or is larger than the whole budget, otherwise as a file that
    fits beside all others, once they have grown to their full size. */
  ghost predicate ReserveAnswer(s: Store, id: int, now: int, budget: int, free: int, minimum: int, r: Reservation) {
    if !Due(s, id, now) then r == Changed
    else
      var task, used, growth :=
        s.tasks[id], Worth(s.tasks, FileBytes(), s.last), Worth(s.tasks, GrowthBytes(), s.last);
      var short := minimum - (free - growth - task.size);
      if !SlotFree(s, task.sender, id) then r == Waits(WAIT_SLOT)
      else if task.mode == Stream || task.size > budget then
        r == if free > minimum then Taken(Stream) else Waits(WAIT_STREAM)
      else if used + task.size > budget then r == Waits(WAIT_BUDGET)
      else r == if short > 0 then Waits(WaitDisk(id, short)) else Taken(Local)
  }

  /** A task that has to wait says for what; one that starts is reserved in its mode. */
  ghost predicate ReserveLeaves(s: Store, id: int, now: int, r: Reservation, t: Store) {
    match r
    case Changed => t == s
    case Waits(reason) => id in s.tasks && OnlyWaits(s, t, id, reason, now)
    case Taken(mode) => id in s.tasks && Runs(s, t, id, mode, now)
  }

  ghost predicate Runs(s: Store, t: Store, id: int, mode: Mode, now: int)
    requires id in s.tasks
  {
    && id in t.tasks && Started(s.tasks[id], t.tasks[id], mode, now) && t.tasks == s.tasks[id := t.tasks[id]]
    && t.slots == s.slots && t.last == s.last && t.quotas == s.quotas && t.retained == s.retained
    && t.recoveries == s.recoveries && t.events == s.events + [Event(id, Queued, Reserved, now)]
  }

  lemma TakenRuns(s: Store, id: int, mode: Mode, now: int)
    requires id in s.tasks && s.tasks[id].state == Queued
    ensures Runs(s, StateWrite(s, id, ReservedRow(s.tasks[id], mode, now)), id, mode, now)
  {
  }

  lemma ReserveDecides(s: Store, id: int, now: int, budget: int, free: int, minimum: int)
    requires WellFormed(s)
    ensures ReserveAnswer(s, id, now, budget, free, minimum, ReserveResult(s, id, now, budget, free, minimum))
  {
    if Due(s, id, now) {
      SlotMeans(s, s.tasks[id].sender, id);
      SumIsWorth(LocalBytes, s, s.tasks, FileBytes(), s.last);
      SumIsWorth(Growth, s, s.tasks, GrowthBytes(), s.last);
    }
  }

  lemma ReserveWrites(s: Store, id: int, now: int, budget: int, free: int, minimum: int)
    ensures ReserveLeaves(s, id, now, ReserveResult(s, id, now, budget, free, minimum),
                          Reserve(s, id, now, budget, free, minimum))
  {
    if Due(s, id, now) {
      TakenRuns(s, id, Local, now);
      TakenRuns(s, id, Stream, now);
    }
  }

  // --------------------------------------------------------------- admit_upload

  /** A task with its file downloaded takes a slot if one is free; one that only has to be cleaned up needs none. */
  ghost predicate AdmitOutcome(s: Store, id: int, allowed: bool, t: Store) {
    if id !in s.tasks || s.tasks[id].cancelRequested then !allowed && t == s
    else if s.tasks[id].state == CleanupPending then allowed && t == s
    else if (s.tasks[id].state == Downloaded || s.tasks[id].state == WaitingUpload)
            && SlotFree(s, s.tasks[id].sender, id)
    then allowed && t == s.(slots := s.slots + {id})
    else !allowed && t == s
  }

  lemma AdmitDecides(s: Store, id: int)
    requires WellFormed(s)
    ensures AdmitOutcome(s, id, UploadAdmitted(s, id), AdmitUpload(s, id))
  {
    if id in s.tasks {
      SlotMeans(s, s.tasks[id].sender, id);
    }
  }

  // -------------------------------------------------------------------- requeue

  /** The error or the kind of failure asks for a person's judgement. */
  predicate InDoubt(t: Task) {
    t.failureKind == Some("remote_conflict")
    || (t.error.Some? && ("REMOTE_REVIEW:" <= t.error.value || "MOVE_UNCERTAIN:" <= t.error.value))
  }

  /** The message a requeued task is downloaded from: a Bot's may be sent again, a listener's stays. */
  function SourceMessage(t: Task, r: RequeueRequest): int {
    if t.identity == Bot && r.message.Some? then r.message.value else t.message
  }

  ghost predicate MayRequeue(s: Store, id: int, r: RequeueRequest, now: int, c: Calendar) {
    && id in s.tasks
    && var t := s.tasks[id];
    && (if r.restartCancelled then t.state == Cancelled
        else t.state in {DownloadFailed, UploadFailedRetained, VerificationFailedRetained})
    && t.sender == r.sender && t.updatedAt == r.expectedUpdatedAt && !t.cancelRequested && (InDoubt(t) ==> r.freshPath)
    && RoomFor(s, r.sender, t.size, now, c,
               id in s.ledger && (s.ledger[id].charged.Some? || !s.ledger[id].released))
    && forall other | other in s.tasks && other != id ::
         s.tasks[other].chat != t.chat || s.tasks[other].message != SourceMessage(t, r)
  }

  /** The row of a requeued task: it waits for upload over its complete file or starts from the first byte, under its
    old remote paths or under none, with nothing left of the failure. */
  predicate Requeued(t: Task, u: Task, r: RequeueRequest, now: int) {
    && u.state == (if r.localComplete then WaitingUpload else Queued)
    && (if r.localComplete then u.localPath == t.localPath && u.downloaded == t.size
        else u.localPath == None && u.downloaded == 0)
    && (if r.freshPath then u.remotePath == u.remoteTemp == u.remoteFinal == None
        else u.remotePath == t.remotePath && u.remoteTemp == t.remoteTemp && u.remoteFinal == t.remoteFinal)
    && u.uploaded == u.downloadRetries == u.uploadRetries == u.nextRetry == 0
    && u.failureKind == u.error == u.verification == None && u.verifiedAt == None && u.updatedAt == now
    && u.message == SourceMessage(t, r) && !u.cancelRequested
    && u.sender == t.sender && u.chat == t.chat && u.mediaKey == t.mediaKey && u.fileName == t.fileName
    && u.size == t.size && u.mode == t.mode && u.createdAt == t.createdAt && u.identity == t.identity
    && u.sourceId == t.sourceId
  }

  /** The path is one of those the task may have written to. */
  predicate Wrote(t: Task, path: Text) {
    path != [] && (t.remotePath == Some(path) || t.remoteTemp == Some(path) || t.remoteFinal == Some(path))
  }

  /** Paths already retained stay with their task; under a fresh path the task's own are retained too. */
  ghost predicate Retains(before: map<Text, int>, after: map<Text, int>, t: Task, id: int, all: bool) {
    && (forall p | p in before :: p in after && after[p] == before[p])
    && (forall p | p !in before :: p in after <==> all && Wrote(t, p))
    && (forall p | p in after && p !in before :: after[p] == id)
  }

  ghost predicate RequeueOutcome(s: Store, id: int, r: RequeueRequest, now: int, c: Calendar, accepted: bool,
      t: Store)
  {
    if !MayRequeue(s, id, r, now, c) then !accepted && t == s
    else
      && accepted && id in t.tasks && Requeued(s.tasks[id], t.tasks[id], r, now)
      && t.tasks == s.tasks[id := t.tasks[id]]
      && Retains(s.retained, t.retained, s.tasks[id], id, r.freshPath)
      && t.recoveries == s.recoveries
         + [Recovery(id, now, if r.restartCancelled then Restart else if r.freshPath then Rename else Retry,
                     s.tasks[id])]
      && t.slots == s.slots - {id} && t.last == s.last && t.quotas == s.quotas
      && t.ledger.Keys == s.ledger.Keys && (forall i | i in s.ledger && i != id :: t.ledger[i] == s.ledger[i])
      && (id in s.ledger ==>
            t.ledger[id] == if s.ledger[id].charged.Some? then s.ledger[id] else s.ledger[id].(released := false))
  }

  lemma RetainMeans(retained: map<Text, int>, path: Option<Text>, id: int)
    ensures var after := Retain(retained, path, id);
      && (forall p | p in retained :: p in after && after[p] == retained[p])
      && (forall p | p !in retained :: p in after <==> p != [] && path == Some(p))
      && (forall p | p in after && p !in retained :: after[p] == id)
  {
  }

  lemma RetainAllMeans(retained: map<Text, int>, t: Task, id: int)
    ensures Retains(retained, RetainAll(retained, t, id), t, id, true)
  {
    var first := Retain(retained, t.remotePath, id);
    var second := Retain(first, t.remoteTemp, id);
    RetainMeans(retained, t.remotePath, id);
    RetainMeans(first, t.remoteTemp, id);
    RetainMeans(second, t.remoteFinal, id);
  }

  lemma RequeueMay(s: Store, id: int, r: RequeueRequest, now: int, c: Calendar)
    requires WellFormed(s)
    ensures RequeueAllowed(s, id, r, now, c) <==> MayRequeue(s, id, r, now, c)
  {
    if id in s.tasks {
      AdmitsMeans(s, r.sender, s.tasks[id].size, now, c, Some(id));
      assert InDoubt(s.tasks[id]) == NeedsReview(s.tasks[id]);
      assert SourceMessage(s.tasks[id], r) == NewMessage(s.tasks[id], r);
    }
  }

  lemma RowRequeued(t: Task, r: RequeueRequest, now: int)
    requires !t.cancelRequested
    ensures Requeued(t, RequeuedRow(t, r, now), r, now)
  {
  }

  lemma LedgerRequeued(l: Ledger, u: Task)
    requires (u.state == Queued || u.state == WaitingUpload) && u.verifiedAt == None
    ensures Release(Charge(l, u), u) == if l.charged.Some? then l else l.(released := false)
  {
  }

  lemma RequeueDecides(s: Store, id: int, r: RequeueRequest, now: int, c: Calendar)
    requires WellFormed(s)
    ensures RequeueOutcome(s, id, r, now, c, RequeueAllowed(s, id, r, now, c), Requeue(s, id, r, now, c))
  {
    RequeueMay(s, id, r, now, c);
    if id in s.tasks {
      RetainAllMeans(s.retained, s.tasks[id], id);
      if RequeueAllowed(s, id, r, now, c) {
        RowRequeued(s.tasks[id], r, now);
        LedgerRequeued(s.ledger[id], RequeuedRow(s.tasks[id], r, now));
      }
    }
  }

  // ------------------------------------------- defer, request_stream, confirm_115

  /** A listener's download that was rate limited may wait once more: it has written nothing remote, its attempts are
    not used up, and the source it reads from is still the account's. */
  ghost predicate MayDefer(s: Store, id: int, r: DeferRequest) {
    && 5 <= r.retryAfter <= 60 && 1 <= r.maximumAttempts <= 3 && id in s.tasks
    && var t := s.tasks[id];
    && (t.state == Reserved || t.state == Downloading) && t.mode == Local && !t.cancelRequested
    && t.sender == r.sender && t.updatedAt == r.expectedUpdatedAt && t.downloadRetries + 1 < r.maximumAttempts
    && (forall path :: !Wrote(t, path))
    && t.identity.Listener? && r.source.Some?
    && var from, account := r.source.value, t.identity.account;
    && from.enabledAccount == Some(account) && from.account == account && from.chat == t.chat && !from.deleted
  }

  lemma DeferDecides(s: Store, id: int, r: DeferRequest, now: int)
    ensures DeferAllowed(s, id, r) <==> MayDefer(s, id, r)
    ensures var t := Defer(s, id, r, now);
      if !MayDefer(s, id, r) then t == s
      else
        && id in t.tasks && t.tasks == s.tasks[id := t.tasks[id]]
        && var before, after := s.tasks[id], t.tasks[id];
        && after == before.(state := Queued, localPath := None, downloaded := 0,
                            downloadRetries := before.downloadRetries + 1, error := None,
                            failureKind := Some("rate_limited"), waitReason := after.waitReason,
                            nextRetry := now + r.retryAfter, updatedAt := now)
        && t.slots == s.slots - {id} && t.retained == s.retained && t.recoveries == s.recoveries
  {
    if id in s.tasks {
      PathsNotWritten(s.tasks[id]);
    }
  }

  lemma PathsNotWritten(t: Task)
    ensures (forall path :: !Wrote(t, path)) <==>
      !Truthy(t.remotePath) && !Truthy(t.remoteTemp) && !Truthy(t.remoteFinal)
  {
    assert Truthy(t.remotePath) ==> Wrote(t, t.remotePath.value);
    assert Truthy(t.remoteTemp) ==> Wrote(t, t.remoteTemp.value);
    assert Truthy(t.remoteFinal) ==> Wrote(t, t.remoteFinal.value);
  }

  /** A queued task or one whose download failed, with no local file on record, is queued again as a stream. */
  lemma StreamDecides(s: Store, id: int, now: int)
    ensures var r, t := RequestStreamResult(s, id), RequestStream(s, id, now);
      if id !in s.tasks then r == StreamMissing && t == s
      else if s.tasks[id].cancelRequested || s.tasks[id].state !in {Queued, DownloadFailed}
      then r == StreamInvalid && t == s
      else if s.tasks[id].localPath.Some? && s.tasks[id].localPath.value != [] then r == StreamRetained && t == s
      else
        && r == StreamUpdated && id in t.tasks && t.tasks == s.tasks[id := t.tasks[id]] && t.slots == s.slots - {id}
        && t.tasks[id] == s.tasks[id].(state := Queued, mode := Stream, downloaded := 0, uploaded := 0,
                                       downloadRetries := 0, uploadRetries := 0, error := None,
                                       waitReason := t.tasks[id].waitReason, nextRetry := 0, updatedAt := now)
  {
  }

  lemma ConfirmDecides(s: Store, id: int, now: int)
    ensures var r, t := ConfirmResult(s, id), Confirm(s, id, now);
      if id !in s.tasks then r == ConfirmMissing && t == s
      else if s.tasks[id].state == Confirmed then r == AlreadyConfirmed && t == s
      else if s.tasks[id].state != Completed then r == ConfirmInvalid && t == s
      else
        && r == NowConfirmed && id in t.tasks && t.tasks == s.tasks[id := t.tasks[id]]
        && t.tasks[id] == s.tasks[id].(state := Confirmed, error := None, waitReason := None, nextRetry := 0,
                                       updatedAt := now)
  {
  }

  // --------------------------------------------------------- transition and update

  predicate Takes<T(==)>(f: Field<T>, before: T, after: T) {
    match f
    case To(value) => after == value
    case Keep => after == before
  }

  /** Every column that the caller names has the value it gives, and every other column its old one. */
  predicate Takeover(t: Task, u: Task, p: Patch, now: int) {
    && Takes(p.failureKind, t.failureKind, u.failureKind) && Takes(p.verification, t.verification, u.verification)
    && Takes(p.verifiedAt, t.verifiedAt, u.verifiedAt) && Takes(p.mode, t.mode, u.mode)
    && Takes(p.localPath, t.localPath, u.localPath) && Takes(p.remotePath, t.remotePath, u.remotePath)
    && Takes(p.remoteTemp, t.remoteTemp, u.remoteTemp) && Takes(p.remoteFinal, t.remoteFinal, u.remoteFinal)
    && Takes(p.cancelRequested, t.cancelRequested, u.cancelRequested) && Takes(p.downloaded, t.downloaded, u.downloaded)
    && Takes(p.uploaded, t.uploaded, u.uploaded) && Takes(p.downloadRetries, t.downloadRetries, u.downloadRetries)
    && Takes(p.uploadRetries, t.uploadRetries, u.uploadRetries) && Takes(p.error, t.error, u.error)
    && Takes(p.waitReason, t.waitReason, u.waitReason) && Takes(p.nextRetry, t.nextRetry, u.nextRetry)
    && u.updatedAt == now && u.sender == t.sender && u.chat == t.chat && u.message == t.message
    && u.mediaKey == t.mediaKey && u.fileName == t.fileName && u.size == t.size && u.createdAt == t.createdAt
    && u.identity == t.identity && u.sourceId == t.sourceId
  }

  lemma PatchTakesOver(t: Task, p: Patch, now: int)
    ensures Takeover(t, Patched(t, p, now), p, now) && Patched(t, p, now).state == t.state
  {
  }

  /** A transition along an edge, or one that keeps the state, and an update write the columns they name; the bytes are
    charged once the task has been verified and is to be cleaned up, and given back when it is cancelled uncharged. */
  lemma TransitionDecides(s: Store, id: int, target: State, p: Patch, now: int)
    requires WellFormed(s)
    ensures var t := Transition(s, id, target, p, now);
      if id !in s.tasks || !(target == s.tasks[id].state || target in Successors(s.tasks[id].state)) then t == s
      else
        && id in t.tasks && t.tasks == s.tasks[id := t.tasks[id]] && t.tasks[id].state == target
        && Takeover(s.tasks[id], t.tasks[id], p, now) && id in t.ledger && t.ledger == s.ledger[id := t.ledger[id]]
        && LedgerMoves(s.ledger[id], t.ledger[id], t.tasks[id])
  {
    if id in s.tasks {
      var u := Patched(s.tasks[id], p, now).(state := target);
      PatchTakesOver(s.tasks[id], p, now);
      TriggerMoves(s.ledger[id], u);
    }
  }

  /** What a state write does to the ledger row: a row that is charged stays; a verified task that is to be cleaned up
    or is past that is charged then; and otherwise the bytes are released exactly if the task is cancelled. */
  predicate LedgerMoves(l: Ledger, m: Ledger, u: Task) {
    if l.charged.Some? then m == l
    else if u.state in {CleanupPending, Completed, Confirmed} && u.verifiedAt.Some?
            && u.verification in {Some("size"), Some("hash")}
    then m == l.(charged := Some(u.updatedAt))
    else m == l.(released := u.state == Cancelled)
  }

  lemma TriggerMoves(l: Ledger, u: Task)
    ensures LedgerMoves(l, Release(Charge(l, u), u), u)
  {
  }

  lemma ProgressDecides(s: Store, id: int, p: Patch, now: int)
    ensures var t := Progress(s, id, p, now);
      if id !in s.tasks then t == s
      else
        && id in t.tasks && t == s.(tasks := s.tasks[id := t.tasks[id]]) && t.tasks[id].state == s.tasks[id].state
        && Takeover(s.tasks[id], t.tasks[id], p, now)
  {
    if id in s.tasks {
      PatchTakesOver(s.tasks[id], p, now);
    }
  }
}

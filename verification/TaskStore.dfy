/** The task tables as values: rows, the quota trigger, the quota queries and one function per operation.
  The class in TaskDatabase.dfy is proved against these functions; the safety modules reason about them.
  */
module TaskStore {
  import opened States
  import opened Text

  // ---------------------------------------------------------------------- rows

  datatype Mode = Local | Stream
  datatype Identity = Bot | Listener(account: int)

  datatype Task = Task(
    sender: int, chat: int, message: int, mediaKey: Option<Text>, fileName: Text, size: nat,
    mode: Mode, state: State, localPath: Option<Text>,
    remotePath: Option<Text>, remoteTemp: Option<Text>, remoteFinal: Option<Text>,
    downloaded: int, uploaded: int, downloadRetries: int, uploadRetries: int,
    cancelRequested: bool, failureKind: Option<string>, error: Option<string>, waitReason: Option<string>,
    verification: Option<string>, verifiedAt: Option<int>,
    nextRetry: int, createdAt: int, updatedAt: int, identity: Identity, sourceId: Option<int>)

  datatype Ledger = Ledger(user: int, bytes: nat, charged: Option<int>, released: bool)
  datatype Quota = Quota(dailyBytes: nat, maxQueued: nat, maxActive: nat)
  datatype Operation = Restart | Rename | Retry
  datatype Recovery = Recovery(task: int, at: int, operation: Operation, previous: Task)
  datatype Event = Event(task: int, source: State, target: State, at: int)

  /** `last` is the AUTOINCREMENT counter; `recoveries` is indexed by its row id minus one. */
  datatype Store = Store(
    tasks: map<int, Task>, last: nat, ledger: map<int, Ledger>, slots: set<int>, quotas: map<int, Quota>,
    recoveries: seq<Recovery>, retained: map<Text, int>, events: seq<Event>)

  const EMPTY := Store(map[], 0, map[], {}, map[], [], map[], [])

  ghost predicate WellFormed(s: Store) {
    && (forall id | id in s.tasks :: 1 <= id <= s.last)
    && s.ledger.Keys == s.tasks.Keys
    && s.slots <= s.tasks.Keys
    && (forall id | id in s.ledger ::
          s.ledger[id].user == s.tasks[id].sender && s.ledger[id].bytes == s.tasks[id].size)
  }

  /** SQLite's and Python's truth of a nullable text column. */
  predicate Truthy(t: Option<Text>) { t.Some? && t.value != [] }

  /** errors.needs_review. */
  predicate NeedsReview(t: Task) {
    t.failureKind == Some("remote_conflict")
    || (t.error.Some? && ("REMOTE_REVIEW:" <= t.error.value || "MOVE_UNCERTAIN:" <= t.error.value))
  }

  // -------------------------------------------------------------- time and days

  /** day_bounds: the half-open day that contains an instant. Time-zone rules are not modelled. */
  datatype Calendar = Calendar(start: int -> int, end: int -> int)

  ghost predicate ValidCalendar(c: Calendar) {
    && (forall t :: c.start(t) <= t < c.end(t))
    && (forall t, u :: c.start(t) <= u < c.end(t) ==> c.start(u) == c.start(t) && c.end(u) == c.end(t))
  }

  predicate SameDay(c: Calendar, t: int, u: int) { c.start(t) <= u < c.end(t) }

  // ------------------------------------------------------------------- SQL sums

  /** The quantities the SQL aggregates add up, one weight per task id. */
  datatype Measure =
    | LocalBytes                            // used_local_bytes
    | Growth                                // reserve's pending growth
    | Busy(user: int)                       // active, or holding an upload slot
    | BusyExcept(user: int, id: int)        // slot_available's count
    | Waiting(user: int)                    // usage's queued
    | ChargedIn(user: int, lo: int, hi: int)
    | Held(user: int)                       // reserved bytes: neither charged nor released
    | Unwritten(disk: map<int, int>)        // bytes the growing local files have yet to take on disk

  function Weight(m: Measure, s: Store, i: int): int {
    match m
    case LocalBytes =>
      if i in s.tasks && IsLocal(s.tasks[i].state) && s.tasks[i].mode.Local? then s.tasks[i].size else 0
    case Growth =>
      if i in s.tasks && IsGrowing(s.tasks[i].state) && s.tasks[i].mode.Local?
         && s.tasks[i].size > s.tasks[i].downloaded
      then s.tasks[i].size - s.tasks[i].downloaded else 0
    case Busy(u) =>
      if i in s.tasks && s.tasks[i].sender == u && (IsActive(s.tasks[i].state) || i in s.slots) then 1 else 0
    case BusyExcept(u, id) =>
      if i != id && i in s.tasks && s.tasks[i].sender == u && (IsActive(s.tasks[i].state) || i in s.slots)
      then 1 else 0
    case Waiting(u) =>
      if i in s.tasks && s.tasks[i].sender == u && IsWaiting(s.tasks[i].state) then 1 else 0
    case ChargedIn(u, lo, hi) =>
      if i in s.ledger && s.ledger[i].user == u && s.ledger[i].charged.Some? && lo <= s.ledger[i].charged.value < hi
      then s.ledger[i].bytes else 0
    case Held(u) =>
      if i in s.ledger && s.ledger[i].user == u && s.ledger[i].charged.None? && !s.ledger[i].released
      then s.ledger[i].bytes else 0
    case Unwritten(disk) =>
      if i in s.tasks && IsGrowing(s.tasks[i].state) && s.tasks[i].mode.Local?
         && s.tasks[i].size > OnDisk(disk, i)
      then s.tasks[i].size - OnDisk(disk, i) else 0
  }

  function OnDisk(disk: map<int, int>, i: int): int { if i in disk then disk[i] else 0 }

  function Sum(m: Measure, s: Store, n: nat): int {
    if n == 0 then 0 else Sum(m, s, n - 1) + Weight(m, s, n)
  }

  function Total(m: Measure, s: Store): int { Sum(m, s, s.last) }

  /** The ids of a set that a sum over `n` rows goes through. */
  function UpTo(ids: set<int>, n: nat): set<int> { set id | id in ids && 1 <= id <= n }

  lemma OneMore(ids: set<int>, n: nat)
    ensures |UpTo(ids, n)| == if n == 0 then 0 else |UpTo(ids, n - 1)| + if n in ids then 1 else 0
  {
    if n == 0 {
      assert UpTo(ids, 0) == {};
    } else {
      assert UpTo(ids, n) == UpTo(ids, n - 1) + if n in ids then {n} else {};
    }
  }

  // --------------------------------------------------------------------- quotas

  function Limits(s: Store, user: int): Quota {
    if user in s.quotas then s.quotas[user] else Quota(0, 0, 0)
  }

  function ChargedOn(s: Store, user: int, now: int, c: Calendar): int {
    Total(ChargedIn(user, c.start(now), c.end(now)), s)
  }

  function Available(s: Store, user: int, now: int, c: Calendar): int {
    var rest := Limits(s, user).dailyBytes - ChargedOn(s, user, now, c) - Total(Held(user), s);
    if rest > 0 then rest else 0
  }

  predicate HoldsQuota(s: Store, task: Option<int>) {
    task.Some? && task.value in s.ledger && (s.ledger[task.value].charged.Some? || !s.ledger[task.value].released)
  }

  /** quotas.admit: false where QuotaExceeded is raised. */
  predicate Admits(s: Store, user: int, size: nat, at: int, c: Calendar, task: Option<int>) {
    var limit := Limits(s, user);
    && (limit.dailyBytes > 0 && !HoldsQuota(s, task) ==> 0 < size <= Available(s, user, at, c))
    && (limit.maxQueued > 0 ==> Total(Waiting(user), s) < limit.maxQueued)
  }

  predicate SlotAvailable(s: Store, user: int, id: int) {
    var limit := Limits(s, user).maxActive;
    limit == 0 || Total(BusyExcept(user, id), s) < limit
  }

  // --------------------------------------------------------------------- writes

  /** First statement of the quota_state trigger. */
  function Charge(l: Ledger, t: Task): Ledger {
    if IsCharging(t.state) && (t.verification == Some("size") || t.verification == Some("hash")) && t.verifiedAt.Some?
       && l.charged.None?
    then l.(charged := Some(t.updatedAt)) else l
  }

  /** Second statement of the quota_state trigger. */
  function Release(l: Ledger, t: Task): Ledger {
    if l.charged.None? then l.(released := t.state == Cancelled) else l
  }

  /** UPDATE OF state: the row, the ledger, the slot and the event log change together. */
  function StateWrite(s: Store, id: int, t: Task): Store
    requires id in s.tasks
  {
    s.(tasks := s.tasks[id := t],
       ledger := if id in s.ledger then s.ledger[id := Release(Charge(s.ledger[id], t), t)] else s.ledger,
       slots := if IsActive(t.state) then s.slots else s.slots - {id},
       events := if s.tasks[id].state != t.state
                 then s.events + [Event(id, s.tasks[id].state, t.state, t.updatedAt)] else s.events)
  }

  /** An UPDATE that leaves the state column out: no trigger fires. */
  function PlainWrite(s: Store, id: int, t: Task): Store
    requires id in s.tasks
  {
    s.(tasks := s.tasks[id := t])
  }

  predicate WaitReasonChanges(s: Store, id: int, reason: string, states: set<State>) {
    && id in s.tasks && s.tasks[id].state in states && !s.tasks[id].cancelRequested
    && s.tasks[id].waitReason != Some(reason)
  }

  /** set_wait_reason. */
  function WaitReasonSet(s: Store, id: int, reason: string, states: set<State>, now: int): Store {
    if WaitReasonChanges(s, id, reason, states)
    then PlainWrite(s, id, s.tasks[id].(waitReason := Some(reason), updatedAt := now)) else s
  }

  // --------------------------------------------------------------------- create

  /** `directoryOk` is false where the classification or the target directory is refused. */
  datatype NewTask = NewTask(
    chat: int, message: int, sender: int, mediaKey: Option<Text>, fileName: Text, size: nat,
    identity: Identity, sourceId: Option<int>, directoryOk: bool)

  predicate Duplicates(t: Task, n: NewTask) {
    (t.chat == n.chat && t.message == n.message)
    || (n.mediaKey.Some? && t.sender == n.sender && t.mediaKey == n.mediaKey)
  }

  /** The first stored duplicate; the query's LIMIT 1 leaves the choice open. */
  function FindDuplicate(s: Store, n: NewTask, upto: nat): Option<int> {
    if upto == 0 then None
    else
      var rest := FindDuplicate(s, n, upto - 1);
      if rest.Some? then rest
      else if upto in s.tasks && Duplicates(s.tasks[upto], n) then Some(upto) else None
  }

  lemma {:induction false} FindsDuplicate(s: Store, n: NewTask, upto: nat)
    ensures var d := FindDuplicate(s, n, upto); d.Some? ==> d.value in s.tasks && Duplicates(s.tasks[d.value], n)
    ensures FindDuplicate(s, n, upto).None? ==>
      forall id | id in s.tasks && 1 <= id <= upto :: !Duplicates(s.tasks[id], n)
  {
    if upto > 0 {
      FindsDuplicate(s, n, upto - 1);
    }
  }

  function FreshTask(n: NewTask, at: int): Task {
    Task(n.sender, n.chat, n.message, n.mediaKey, n.fileName, n.size, Local, Queued, None, None, None, None,
         0, 0, 0, 0, false, None, None, None, None, None, 0, at, at, n.identity, n.sourceId)
  }

  predicate IdentityValid(n: NewTask) { n.identity.Listener? ==> n.sourceId.Some? }

  datatype Created = Existing(id: int) | Fresh(id: int) | QuotaExceeded | InvalidDirectory | InvalidIdentity

  /** create_task; `at` is the admission time, which a submitted plan sets to its own creation time. */
  function CreateResult(s: Store, n: NewTask, at: int, c: Calendar): Created {
    var duplicate := FindDuplicate(s, n, s.last);
    if duplicate.Some? then Existing(duplicate.value)
    else if !Admits(s, n.sender, n.size, at, c, None) then QuotaExceeded
    else if !n.directoryOk then InvalidDirectory
    else if !IdentityValid(n) then InvalidIdentity
    else Fresh(s.last + 1)
  }

  function Inserted(s: Store, n: NewTask, at: int): Store {
    var id := s.last + 1;
    s.(last := id, tasks := s.tasks[id := FreshTask(n, at)],
       ledger := s.ledger[id := Ledger(n.sender, n.size, None, false)])
  }

  function Create(s: Store, n: NewTask, at: int, c: Calendar): Store {
    if CreateResult(s, n, at, c).Fresh? then Inserted(s, n, at) else s
  }

  // -------------------------------------------------------------------- reserve

  const WAIT_SLOT := "等待个人并发额度"
  const WAIT_STREAM := "等待真实磁盘空间恢复后使用流式模式"
  const WAIT_BUDGET := "等待本地临时空间额度"

  function Decimal(n: int): string
    decreases if n < 0 then 1 - n else n
  {
    if n < 0 then "-" + Decimal(-n)
    else if n < 10 then [(48 + n) as char]
    else Decimal(n / 10) + [(48 + n % 10) as char]
  }

  /** `{bytes / 1024**3:.2f}`: hundredths of a gigabyte, rounded to the nearest, ties to even. */
  function Hundredths(bytes: nat): nat {
    var gigabyte := 0x4000_0000;
    var whole, rest := 100 * bytes / gigabyte, 100 * bytes % gigabyte;
    if 2 * rest > gigabyte || (2 * rest == gigabyte && whole % 2 == 1) then whole + 1 else whole
  }

  function Gigabytes(bytes: nat): string {
    var h := Hundredths(bytes);
    Decimal(h / 100) + "." + Decimal(h / 10 % 10) + Decimal(h % 10)
  }

  /** The reason names the bytes that are missing, so that a changed shortfall rewrites the row. */
  function WaitDisk(id: int, shortfall: nat): string {
    "等待真实磁盘空间（至少还需释放 " + Gigabytes(shortfall) + "GB；可用 /stream #" + Decimal(id) + " 改为流式）"
  }

  datatype Reservation = Changed | Waits(reason: string) | Taken(mode: Mode)

  function ReserveResult(s: Store, id: int, now: int, budget: int, free: int, minimum: int): Reservation {
    if id !in s.tasks || s.tasks[id].state != Queued || s.tasks[id].cancelRequested || s.tasks[id].nextRetry > now
    then Changed
    else
      var t := s.tasks[id];
      if !SlotAvailable(s, t.sender, id) then Waits(WAIT_SLOT)
      else if t.mode.Stream? || t.size > budget then
        if free <= minimum then Waits(WAIT_STREAM) else Taken(Stream)
      else if Total(LocalBytes, s) + t.size > budget then Waits(WAIT_BUDGET)
      else if free - Total(Growth, s) - t.size < minimum then
        Waits(WaitDisk(id, minimum + Total(Growth, s) + t.size - free))
      else Taken(Local)
  }

  function ReservedRow(t: Task, mode: Mode, now: int): Task {
    t.(state := Reserved, mode := mode, waitReason := None, error := None, failureKind := None, nextRetry := 0,
       updatedAt := now)
  }

  function Reserve(s: Store, id: int, now: int, budget: int, free: int, minimum: int): Store {
    match ReserveResult(s, id, now, budget, free, minimum)
    case Changed => s
    case Waits(reason) => WaitReasonSet(s, id, reason, {Queued}, now)
    case Taken(mode) => StateWrite(s, id, ReservedRow(s.tasks[id], mode, now))
  }

  // --------------------------------------------------------------- admit_upload

  predicate UploadAdmitted(s: Store, id: int) {
    && id in s.tasks && !s.tasks[id].cancelRequested
    && (s.tasks[id].state.CleanupPending?
        || ((s.tasks[id].state.Downloaded? || s.tasks[id].state.WaitingUpload?)
            && SlotAvailable(s, s.tasks[id].sender, id)))
  }

  function AdmitUpload(s: Store, id: int): Store {
    if UploadAdmitted(s, id) && !s.tasks[id].state.CleanupPending? then s.(slots := s.slots + {id}) else s
  }

  // ---------------------------------------------------- transition and progress

  datatype Field<+T> = Keep | To(value: T)

  function Choose<T>(f: Field<T>, current: T): T { if f.To? then f.value else current }

  /** The columns a caller of transition or update may set besides the state. */
  datatype Patch = Patch(
    failureKind: Field<Option<string>>, verification: Field<Option<string>>, verifiedAt: Field<Option<int>>,
    mode: Field<Mode>, localPath: Field<Option<Text>>, remotePath: Field<Option<Text>>,
    remoteTemp: Field<Option<Text>>, remoteFinal: Field<Option<Text>>, cancelRequested: Field<bool>,
    downloaded: Field<int>, uploaded: Field<int>, downloadRetries: Field<int>, uploadRetries: Field<int>,
    error: Field<Option<string>>, waitReason: Field<Option<string>>, nextRetry: Field<int>)

  function Patched(t: Task, p: Patch, now: int): Task {
    t.(failureKind := Choose(p.failureKind, t.failureKind), verification := Choose(p.verification, t.verification),
       verifiedAt := Choose(p.verifiedAt, t.verifiedAt), mode := Choose(p.mode, t.mode),
       localPath := Choose(p.localPath, t.localPath), remotePath := Choose(p.remotePath, t.remotePath),
       remoteTemp := Choose(p.remoteTemp, t.remoteTemp), remoteFinal := Choose(p.remoteFinal, t.remoteFinal),
       cancelRequested := Choose(p.cancelRequested, t.cancelRequested),
       downloaded := Choose(p.downloaded, t.downloaded), uploaded := Choose(p.uploaded, t.uploaded),
       downloadRetries := Choose(p.downloadRetries, t.downloadRetries),
       uploadRetries := Choose(p.uploadRetries, t.uploadRetries), error := Choose(p.error, t.error),
       waitReason := Choose(p.waitReason, t.waitReason), nextRetry := Choose(p.nextRetry, t.nextRetry),
       updatedAt := now)
  }

  function Transition(s: Store, id: int, target: State, p: Patch, now: int): Store {
    if id in s.tasks && CanTransition(s.tasks[id].state, target)
    then StateWrite(s, id, Patched(s.tasks[id], p, now).(state := target)) else s
  }

  function Progress(s: Store, id: int, p: Patch, now: int): Store {
    if id in s.tasks then PlainWrite(s, id, Patched(s.tasks[id], p, now)) else s
  }

  // -------------------------------------------------------------------- requeue

  datatype RequeueRequest = RequeueRequest(
    sender: int, expectedUpdatedAt: int, localComplete: bool, freshPath: bool, restartCancelled: bool,
    message: Option<int>)

  /** A new message id must keep UNIQUE(chat_id, message_id). */
  predicate MessageFree(s: Store, id: int, message: int)
    requires id in s.tasks
  {
    forall other | other in s.tasks :: other != id ==>
        !(s.tasks[other].chat == s.tasks[id].chat && s.tasks[other].message == message)
  }

  function NewMessage(t: Task, r: RequeueRequest): int {
    if r.message.Some? && t.identity.Bot? then r.message.value else t.message
  }

  predicate RequeueAllowed(s: Store, id: int, r: RequeueRequest, now: int, c: Calendar) {
    && id in s.tasks
    && (if r.restartCancelled then s.tasks[id].state == Cancelled else IsFailed(s.tasks[id].state))
    && s.tasks[id].sender == r.sender && s.tasks[id].updatedAt == r.expectedUpdatedAt
    && !s.tasks[id].cancelRequested && (NeedsReview(s.tasks[id]) ==> r.freshPath)
    && Admits(s, r.sender, s.tasks[id].size, now, c, Some(id))
    && MessageFree(s, id, NewMessage(s.tasks[id], r))
  }

  function RequeuedRow(t: Task, r: RequeueRequest, now: int): Task {
    t.(state := if r.localComplete then WaitingUpload else Queued,
       localPath := if r.localComplete then t.localPath else None,
       downloaded := if r.localComplete then t.size else 0, uploaded := 0, downloadRetries := 0, uploadRetries := 0,
       remotePath := if r.freshPath then None else t.remotePath,
       remoteTemp := if r.freshPath then None else t.remoteTemp,
       remoteFinal := if r.freshPath then None else t.remoteFinal,
       failureKind := None, verification := None, verifiedAt := None, error := None,
       waitReason := Some("用户确认恢复；等待资源与目的端就绪"), nextRetry := 0, updatedAt := now,
       message := NewMessage(t, r))
  }

  /** INSERT OR IGNORE INTO retained_objects. */
  function Retain(retained: map<Text, int>, path: Option<Text>, id: int): map<Text, int> {
    if Truthy(path) && path.value !in retained then retained[path.value := id] else retained
  }

  function RetainAll(retained: map<Text, int>, t: Task, id: int): map<Text, int> {
    Retain(Retain(Retain(retained, t.remotePath, id), t.remoteTemp, id), t.remoteFinal, id)
  }

  function OperationOf(r: RequeueRequest): Operation {
    if r.restartCancelled then Restart else if r.freshPath then Rename else Retry
  }

  function Requeue(s: Store, id: int, r: RequeueRequest, now: int, c: Calendar): Store {
    if !RequeueAllowed(s, id, r, now, c) then s
    else
      var t := s.tasks[id];
      StateWrite(s.(retained := if r.freshPath then RetainAll(s.retained, t, id) else s.retained,
                    recoveries := s.recoveries + [Recovery(id, now, OperationOf(r), t)]),
                 id, RequeuedRow(t, r, now))
  }

  // --------------------------------------------------- defer_listener_download

  /** What the call reads of the listener account and of the task's source row. */
  datatype SourceView = SourceView(enabledAccount: Option<int>, account: int, chat: int, deleted: bool)

  datatype DeferRequest = DeferRequest(
    sender: int, expectedUpdatedAt: int, retryAfter: int, maximumAttempts: int, source: Option<SourceView>)

  predicate DeferAllowed(s: Store, id: int, r: DeferRequest) {
    && 5 <= r.retryAfter <= 60 && 1 <= r.maximumAttempts <= 3
    && id in s.tasks && (s.tasks[id].state.Reserved? || s.tasks[id].state.Downloading?)
    && s.tasks[id].mode.Local? && !s.tasks[id].cancelRequested
    && s.tasks[id].sender == r.sender && s.tasks[id].updatedAt == r.expectedUpdatedAt
    && s.tasks[id].identity.Listener?
    && !Truthy(s.tasks[id].remotePath) && !Truthy(s.tasks[id].remoteTemp) && !Truthy(s.tasks[id].remoteFinal)
    && s.tasks[id].downloadRetries + 1 < r.maximumAttempts
    && r.source.Some? && r.source.value.enabledAccount == Some(s.tasks[id].identity.account)
    && !r.source.value.deleted && r.source.value.account == s.tasks[id].identity.account
    && r.source.value.chat == s.tasks[id].chat
  }

  function DeferredRow(t: Task, r: DeferRequest, now: int): Task {
    t.(state := Queued, localPath := None, downloaded := 0, downloadRetries := t.downloadRetries + 1, error := None,
       failureKind := Some("rate_limited"), waitReason := Some("Telegram 下载限流，等待冷却后有限恢复"),
       nextRetry := now + r.retryAfter, updatedAt := now)
  }

  function Defer(s: Store, id: int, r: DeferRequest, now: int): Store {
    if !DeferAllowed(s, id, r) then s else StateWrite(s, id, DeferredRow(s.tasks[id], r, now))
  }

  // ------------------------------------------------ request_stream, confirm_115

  datatype StreamRequest = StreamMissing | StreamInvalid | StreamRetained | StreamUpdated

  function RequestStreamResult(s: Store, id: int): StreamRequest {
    if id !in s.tasks then StreamMissing
    else if s.tasks[id].cancelRequested || !(s.tasks[id].state.Queued? || s.tasks[id].state.DownloadFailed?)
    then StreamInvalid
    else if Truthy(s.tasks[id].localPath) then StreamRetained
    else StreamUpdated
  }

  function StreamRow(t: Task, now: int): Task {
    t.(state := Queued, mode := Stream, downloaded := 0, uploaded := 0, downloadRetries := 0, uploadRetries := 0,
       error := None, waitReason := Some("用户已选择流式模式；等待资源和目的端就绪"), nextRetry := 0, updatedAt := now)
  }

  function RequestStream(s: Store, id: int, now: int): Store {
    if RequestStreamResult(s, id).StreamUpdated? then StateWrite(s, id, StreamRow(s.tasks[id], now)) else s
  }

  function ConfirmedRow(t: Task, now: int): Task {
    t.(state := Confirmed, error := None, waitReason := None, nextRetry := 0, updatedAt := now)
  }

  datatype Confirmation = ConfirmMissing | AlreadyConfirmed | ConfirmInvalid | NowConfirmed

  function ConfirmResult(s: Store, id: int): Confirmation {
    if id !in s.tasks then ConfirmMissing
    else if s.tasks[id].state.Confirmed? then AlreadyConfirmed
    else if !s.tasks[id].state.Completed? then ConfirmInvalid
    else NowConfirmed
  }

  function Confirm(s: Store, id: int, now: int): Store {
    if ConfirmResult(s, id).NowConfirmed?
    then StateWrite(s, id, ConfirmedRow(s.tasks[id], now)) else s
  }

  // -------------------------------------------------------------------- recover

  /** What recover learns from the file system about one row. */
  datatype Facts = Facts(localComplete: bool, finalPath: Text, finalComplete: bool, partStuck: bool)

  predicate RecoverSelects(t: Task) {
    t.state.Reserved? || t.state.Downloading? || t.state.Downloaded? || t.state.WaitingUpload? || t.state.Uploading?
    || t.state.Verifying? || t.state.Finalizing? || t.state.Streaming? || t.state.UploadFailedRetained?
    || t.state.VerificationFailedRetained?
  }

  predicate HoldsForReview(t: Task) {
    NeedsReview(t) || t.failureKind == Some("authentication") || t.failureKind == Some("permission")
    || t.failureKind == Some("rate_limited")
  }

  predicate RecoverRewrites(t: Task) { RecoverSelects(t) && !t.cancelRequested && !HoldsForReview(t) }

  function RecoveredRow(t: Task, f: Facts, now: int): Task
    requires RecoverRewrites(t)
  {
    if t.mode.Stream? then
      t.(state := Queued, localPath := None, downloaded := 0, uploadRetries := 0,
         waitReason := Some("流式任务在服务重启后自动重新排队"), nextRetry := 0, updatedAt := now)
    else if f.localComplete then
      t.(state := WaitingUpload, error := None, uploadRetries := 0, nextRetry := 0,
         waitReason := Some("服务重启后恢复上传"), updatedAt := now)
    else if f.finalComplete then
      t.(state := WaitingUpload, localPath := Some(f.finalPath), downloaded := t.size, error := None,
         uploadRetries := 0, nextRetry := 0, waitReason := Some("已恢复下载完成但未登记的本地文件"), updatedAt := now)
    else if t.state.UploadFailedRetained? || t.state.VerificationFailedRetained? then
      t.(state := Queued, localPath := None, downloaded := 0, downloadRetries := 0, uploadRetries := 0,
         waitReason := Some("保留记录对应的本地文件已不存在，自动重新排队"), nextRetry := 0, updatedAt := now)
    else if f.partStuck then
      t.(state := DownloadFailed, error := Some("重启后无法清理不完整文件"), updatedAt := now)
    else
      t.(state := Queued, localPath := None, downloaded := 0,
         downloadRetries := if t.identity.Listener? then t.downloadRetries else 0, uploadRetries := 0,
         waitReason := Some("本地文件不完整或不存在，服务重启后重新排队"), updatedAt := now)
  }

  function RecoverRow(s: Store, id: int, f: Facts, now: int): Store {
    if id in s.tasks && RecoverRewrites(s.tasks[id]) then StateWrite(s, id, RecoveredRow(s.tasks[id], f, now)) else s
  }

  // ----------------------------------------------------------------------- runs

  datatype Op =
    | OpCreate(task: NewTask, at: int)
    | OpReserve(id: int, budget: int, free: int, minimum: int)
    | OpAdmitUpload(id: int)
    | OpTransition(id: int, target: State, patch: Patch)
    | OpProgress(id: int, patch: Patch)
    | OpWaitReason(id: int, reason: string, states: set<State>)
    | OpRequeue(id: int, requeue: RequeueRequest)
    | OpDefer(id: int, defer: DeferRequest)
    | OpRequestStream(id: int)
    | OpConfirm(id: int)
    | OpRecoverRow(id: int, facts: Facts)
    | OpConfigure(user: int, quota: Quota)

  /** One atomic operation at one reading of the clock. */
  function Apply(s: Store, op: Op, now: int, c: Calendar): Store {
    match op
    case OpCreate(task, at) => Create(s, task, at, c)
    case OpReserve(id, budget, free, minimum) => Reserve(s, id, now, budget, free, minimum)
    case OpAdmitUpload(id) => AdmitUpload(s, id)
    case OpTransition(id, target, patch) => Transition(s, id, target, patch, now)
    case OpProgress(id, patch) => Progress(s, id, patch, now)
    case OpWaitReason(id, reason, states) => WaitReasonSet(s, id, reason, states, now)
    case OpRequeue(id, requeue) => Requeue(s, id, requeue, now, c)
    case OpDefer(id, defer) => Defer(s, id, defer, now)
    case OpRequestStream(id) => RequestStream(s, id, now)
    case OpConfirm(id) => Confirm(s, id, now)
    case OpRecoverRow(id, facts) => RecoverRow(s, id, facts, now)
    case OpConfigure(user, quota) => s.(quotas := s.quotas[user := quota])
  }

  datatype Timed = Timed(now: int, op: Op)

  /** Any interleaving of atomic operations. */
  function Run(s: Store, steps: seq<Timed>, c: Calendar): Store
    decreases |steps|
  {
    if steps == [] then s else Run(Apply(s, steps[0].op, steps[0].now, c), steps[1..], c)
  }

  /** What an operation does to the row tables; every operation performs exactly one of these. */
  datatype Effect =
    | Nothing
    | Writes(id: int, row: Task)      // an UPDATE of the state column, trigger included
    | Touches(id: int, row: Task)     // an UPDATE without the state column
    | TakesSlot(id: int)
    | Inserts(task: NewTask, at: int)

  function ReserveEffect(s: Store, id: int, now: int, budget: int, free: int, minimum: int): Effect {
    match ReserveResult(s, id, now, budget, free, minimum)
    case Changed => Nothing
    case Waits(reason) =>
      if s.tasks[id].waitReason == Some(reason) then Nothing
      else Touches(id, s.tasks[id].(waitReason := Some(reason), updatedAt := now))
    case Taken(mode) => Writes(id, ReservedRow(s.tasks[id], mode, now))
  }

  function EffectOf(s: Store, op: Op, now: int, c: Calendar): Effect {
    match op
    case OpCreate(task, at) => if CreateResult(s, task, at, c).Fresh? then Inserts(task, at) else Nothing
    case OpReserve(id, budget, free, minimum) => ReserveEffect(s, id, now, budget, free, minimum)
    case OpAdmitUpload(id) =>
      if UploadAdmitted(s, id) && !s.tasks[id].state.CleanupPending? then TakesSlot(id) else Nothing
    case OpTransition(id, target, patch) =>
      if id in s.tasks && CanTransition(s.tasks[id].state, target)
      then Writes(id, Patched(s.tasks[id], patch, now).(state := target)) else Nothing
    case OpProgress(id, patch) =>
      if id in s.tasks then Touches(id, Patched(s.tasks[id], patch, now)) else Nothing
    case OpWaitReason(id, reason, states) =>
      if WaitReasonChanges(s, id, reason, states)
      then Touches(id, s.tasks[id].(waitReason := Some(reason), updatedAt := now)) else Nothing
    case OpRequeue(id, r) =>
      if RequeueAllowed(s, id, r, now, c) then Writes(id, RequeuedRow(s.tasks[id], r, now)) else Nothing
    case OpDefer(id, r) => if DeferAllowed(s, id, r) then Writes(id, DeferredRow(s.tasks[id], r, now)) else Nothing
    case OpRequestStream(id) =>
      if RequestStreamResult(s, id).StreamUpdated? then Writes(id, StreamRow(s.tasks[id], now)) else Nothing
    case OpConfirm(id) =>
      if ConfirmResult(s, id).NowConfirmed? then Writes(id, ConfirmedRow(s.tasks[id], now)) else Nothing
    case OpRecoverRow(id, f) =>
      if id in s.tasks && RecoverRewrites(s.tasks[id]) then Writes(id, RecoveredRow(s.tasks[id], f, now)) else Nothing
    case OpConfigure(_, _) => Nothing
  }

  // ---------------------------------------------------------------- the workers

  // The workers call transition and update from many places. Here are things that none of them does; each safety result
  // asks only for those it rests on.

  /** A transfer mode that is passed along is the one the task has. */
  predicate KeepsMode(s: Store, op: Op) {
    (op.OpTransition? || op.OpProgress?) && op.id in s.tasks && op.patch.mode.To? ==>
      op.patch.mode.value == s.tasks[op.id].mode
  }

  /** Only tasks in stream mode are streamed. */
  predicate StreamsByMode(s: Store, op: Op) {
    op.OpTransition? && op.id in s.tasks && op.target.Streaming? ==> s.tasks[op.id].mode.Stream?
  }

  /** A queued task is reserved by reserve only. */
  predicate ReservesByReserve(s: Store, op: Op) {
    op.OpTransition? && op.id in s.tasks ==> !(s.tasks[op.id].state.Queued? && op.target.Reserved?)
  }

  /** A cancelled task is brought back by requeue only. */
  predicate StaysCancelled(s: Store, op: Op) {
    op.OpTransition? && op.id in s.tasks && s.tasks[op.id].state.Cancelled? ==> op.target.Cancelled?
  }
}

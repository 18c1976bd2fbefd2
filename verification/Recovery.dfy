/** Restart recovery: what `recover` makes of the task table and the download directory. */
module RestartRecovery {
  import opened States
  import opened Text
  import opened TaskStore
  import Totals

  /** Existing files with their sizes, and what the call depends on besides the store: the download directory, the
    file-name sanitiser, and which deletions the operating system grants. */
  type Files = map<Text, nat>
  datatype Host = Host(dir: Text, safe: (Text, Text) -> Text, unlinks: Text -> bool)

  const PART: Text := [46, 112, 97, 114, 116]

  function PartPath(h: Host, id: nat): Text { h.dir + [SLASH] + Digits(id) + PART }

  function FinalPath(h: Host, id: nat, name: Text): Text {
    h.dir + [SLASH] + Digits(id) + [DASH] + h.safe(name, Digits(id))
  }

  predicate Complete(files: Files, path: Text, size: nat) { path in files && files[path] == size }

  function FactsOf(files: Files, h: Host, id: nat, t: Task): Facts {
    Facts(Truthy(t.localPath) && Complete(files, t.localPath.value, t.size) && !EndsWith(t.localPath.value, PART),
          FinalPath(h, id, t.fileName), Complete(files, FinalPath(h, id, t.fileName), t.size),
          PartPath(h, id) in files && !h.unlinks(PartPath(h, id)))
  }

  /** The branch that clears the partial file of an interrupted download. */
  predicate ClearsPart(t: Task, f: Facts) {
    t.mode.Local? && !f.localComplete && !f.finalComplete && !t.state.UploadFailedRetained?
        && !t.state.VerificationFailedRetained?
  }

  function FilesAfter(files: Files, h: Host, id: nat, t: Task): Files {
    if ClearsPart(t, FactsOf(files, h, id, t)) && h.unlinks(PartPath(h, id)) then files - {PartPath(h, id)} else files
  }

  datatype Tally = Tally(queued: nat, waiting: nat, failed: nat)
  datatype Recovered = Recovered(store: Store, files: Files, tally: Tally)

  function Counted(y: Tally, state: State): Tally {
    if state.Queued? then y.(queued := y.queued + 1)
    else if state.WaitingUpload? then y.(waiting := y.waiting + 1)
    else y.(failed := y.failed + 1)
  }

  predicate Chosen(only: Option<int>, id: int) { only.None? || only.value == id }

  function RecoverOne(r: Recovered, h: Host, now: int, only: Option<int>, id: nat): Recovered {
    if id !in r.store.tasks || !Chosen(only, id) || !RecoverSelects(r.store.tasks[id])
        || r.store.tasks[id].cancelRequested
    then r
    else if HoldsForReview(r.store.tasks[id]) then r.(tally := r.tally.(failed := r.tally.failed + 1))
    else
      var t := r.store.tasks[id];
      var f := FactsOf(r.files, h, id, t);
      Recovered(RecoverRow(r.store, id, f, now), FilesAfter(r.files, h, id, t),
          Counted(r.tally, RecoveredRow(t, f, now).state))
  }

  /** The state after the rows with ids up to `n` have been visited in order. */
  function RecoverTo(s: Store, files: Files, h: Host, now: int, only: Option<int>, n: nat): Recovered {
    if n == 0 then Recovered(s, files, Tally(0, 0, 0))
    else RecoverOne(RecoverTo(s, files, h, now, only, n - 1), h, now, only, n)
  }

  function Recover(s: Store, files: Files, h: Host, now: int, only: Option<int>): Recovered {
    RecoverTo(s, files, h, now, only, s.last)
  }

  // ------------------------------------------------------------- separate paths

  lemma PartPathsDiffer(h: Host, id: nat, other: nat)
    requires PartPath(h, id) == PartPath(h, other)
    ensures id == other
  {
    var root := h.dir + [SLASH];
    assert PartPath(h, id)[|root|..] == Digits(id) + PART;
    assert PartPath(h, other)[|root|..] == Digits(other) + PART;
    NumeralSplit(Digits(id), PART, Digits(other), PART);
    DigitsInjective(id, other);
  }

  lemma FinalIsNoPart(h: Host, id: nat, name: Text, other: nat)
    ensures FinalPath(h, id, name) != PartPath(h, other)
  {
    var root, rest := h.dir + [SLASH], [DASH] + h.safe(name, Digits(id));
    assert rest[0] == DASH;
    if FinalPath(h, id, name) == PartPath(h, other) {
      assert FinalPath(h, id, name) == root + (Digits(id) + rest);
      assert FinalPath(h, id, name)[|root|..] == Digits(id) + rest;
      assert PartPath(h, other)[|root|..] == Digits(other) + PART;
      NumeralSplit(Digits(id), rest, Digits(other), PART);
    }
  }

  lemma PartEnds(h: Host, id: nat)
    ensures EndsWith(PartPath(h, id), PART)
  {
  }

  /** `after` is `before` without some partial files of ids up to `n`. */
  ghost predicate OnlyPartsGone(before: Files, after: Files, h: Host, n: nat) {
    && (forall p | p in after :: p in before && after[p] == before[p])
    && (forall p | p in before && p !in after :: exists id: nat :: id <= n && p == PartPath(h, id))
  }

  /** Clearing the partial files of other rows changes nothing recover asks about a row. */
  lemma FactsStable(before: Files, after: Files, h: Host, id: nat, t: Task, n: nat)
    requires OnlyPartsGone(before, after, h, n) && n < id
    ensures FactsOf(after, h, id, t) == FactsOf(before, h, id, t)
  {
    CompleteStable(before, after, h, id, t, n);
    if PartPath(h, id) in before && PartPath(h, id) !in after {
      var other: nat :| other <= n && PartPath(h, id) == PartPath(h, other);
      PartPathsDiffer(h, id, other);
    }
  }

  lemma CompleteStable(before: Files, after: Files, h: Host, id: nat, t: Task, n: nat)
    requires OnlyPartsGone(before, after, h, n)
    ensures FactsOf(after, h, id, t).localComplete == FactsOf(before, h, id, t).localComplete
    ensures FactsOf(after, h, id, t).finalComplete == FactsOf(before, h, id, t).finalComplete
  {
    var final := FinalPath(h, id, t.fileName);
    if final in before && final !in after {
      var other: nat :| other <= n && final == PartPath(h, other);
      FinalIsNoPart(h, id, t.fileName, other);
    }
    if Truthy(t.localPath) && t.localPath.value in before && t.localPath.value !in after {
      var other: nat :| other <= n && t.localPath.value == PartPath(h, other);
      PartEnds(h, other);
    }
  }

  // -------------------------------------------------------- every row on its own

  /** Which row recover leaves under an id. */
  function RowAfter(s: Store, files: Files, h: Host, now: int, only: Option<int>, id: nat): Task
    requires id in s.tasks
  {
    if Chosen(only, id) && RecoverRewrites(s.tasks[id])
    then RecoveredRow(s.tasks[id], FactsOf(files, h, id, s.tasks[id]), now) else s.tasks[id]
  }

  /** Visiting one row rewrites that row only and clears its partial file at most. */
  lemma RowOfOne(r: Recovered, h: Host, now: int, only: Option<int>, id: nat)
    ensures var next := RecoverOne(r, h, now, only, id);
      && next.store.last == r.store.last
      && next.store.tasks == (
           if id in r.store.tasks then r.store.tasks[id := RowAfter(r.store, r.files, h, now, only, id)]
           else r.store.tasks)
      && (next.files == r.files || next.files == r.files - {PartPath(h, id)})
  {
    if id in r.store.tasks {
      assert r.store.tasks[id := r.store.tasks[id]] == r.store.tasks;
    }
  }

  lemma PartsGoOn(files: Files, mid: Files, after: Files, h: Host, n: nat)
    requires n > 0 && OnlyPartsGone(files, mid, h, n - 1) && (after == mid || after == mid - {PartPath(h, n)})
    ensures OnlyPartsGone(files, after, h, n)
  {
    forall p | p in files && p !in after
      ensures exists id: nat :: id <= n && p == PartPath(h, id)
    {
      if p !in mid {
        var id: nat :| id <= n - 1 && p == PartPath(h, id);
      } else {
        assert p == PartPath(h, n);
      }
    }
  }

  /** What the visits so far have left: the same ids, and the directory without some partial files. */
  lemma {:induction false} VisitsKeepIds(s: Store, files: Files, h: Host, now: int, only: Option<int>, n: nat)
    ensures var r := RecoverTo(s, files, h, now, only, n);
      r.store.tasks.Keys == s.tasks.Keys && r.store.last == s.last && OnlyPartsGone(files, r.files, h, n)
  {
    if n > 0 {
      var r := RecoverTo(s, files, h, now, only, n - 1);
      VisitsKeepIds(s, files, h, now, only, n - 1);
      RowOfOne(r, h, now, only, n);
      PartsGoOn(files, r.files, RecoverOne(r, h, now, only, n).files, h, n);
    }
  }

  lemma {:induction false} RowByItself(s: Store, files: Files, h: Host, now: int, only: Option<int>, n: nat, id: int)
    requires id in s.tasks
    ensures var r := RecoverTo(s, files, h, now, only, n);
      && id in r.store.tasks
      && r.store.tasks[id] == if 1 <= id <= n then RowAfter(s, files, h, now, only, id) else s.tasks[id]
  {
    if n > 0 {
      var r := RecoverTo(s, files, h, now, only, n - 1);
      VisitsKeepIds(s, files, h, now, only, n - 1);
      RowByItself(s, files, h, now, only, n - 1, id);
      RowOfOne(r, h, now, only, n);
      if id == n {
        FactsStable(files, r.files, h, n, s.tasks[n], n - 1);
      }
    }
  }

  /** Although the rows are visited one after another over a changing directory, each ends as if it were alone. */
  lemma RowsByThemselves(s: Store, files: Files, h: Host, now: int, only: Option<int>, n: nat)
    ensures var r := RecoverTo(s, files, h, now, only, n);
      && r.store.tasks.Keys == s.tasks.Keys && r.store.last == s.last
      && OnlyPartsGone(files, r.files, h, n)
      && (forall id: int | id in s.tasks ::
            r.store.tasks[id] == if 1 <= id <= n then RowAfter(s, files, h, now, only, id) else s.tasks[id])
  {
    VisitsKeepIds(s, files, h, now, only, n);
    forall id: int | id in s.tasks
      ensures RecoverTo(s, files, h, now, only, n).store.tasks[id]
        == if 1 <= id <= n then RowAfter(s, files, h, now, only, id) else s.tasks[id]
    {
      RowByItself(s, files, h, now, only, n, id);
    }
  }

  /** A row that was under way or kept a file after a failed upload, and that nobody is cancelling. */
  predicate UnderWay(t: Task) {
    && (t.state == Reserved || t.state == Downloading || t.state == Downloaded || t.state == WaitingUpload
        || t.state == Uploading || t.state == Verifying || t.state == Finalizing || t.state == Streaming
        || t.state == UploadFailedRetained || t.state == VerificationFailedRetained)
    && !t.cancelRequested
  }

  /** Something about the row waits for a person. */
  predicate Held(t: Task) {
    || t.failureKind == Some("remote_conflict") || t.failureKind == Some("authentication")
    || t.failureKind == Some("permission") || t.failureKind == Some("rate_limited")
    || (t.error.Some? && ("REMOTE_REVIEW:" <= t.error.value || "MOVE_UNCERTAIN:" <= t.error.value))
  }

  predicate Interrupted(t: Task) { UnderWay(t) && !Held(t) }

  /** The row's own local file is there in full, and it is no partial file. */
  predicate HasOwnFile(t: Task, files: Files) {
    && t.localPath.Some? && t.localPath.value != [] && !EndsWith(t.localPath.value, PART)
    && t.localPath.value in files && files[t.localPath.value] == t.size
  }

  /** Nothing but the columns that recovery writes differs. */
  predicate SameTask(t: Task, u: Task) {
    u.(state := t.state, localPath := t.localPath, downloaded := t.downloaded, downloadRetries := t.downloadRetries,
       uploadRetries := t.uploadRetries, error := t.error, waitReason := t.waitReason, nextRetry := t.nextRetry,
       updatedAt := t.updatedAt) == t
  }

  /** Queued again, to be downloaded from the first byte. */
  predicate StartsOver(t: Task, u: Task, downloadRetries: int) {
    && SameTask(t, u) && u.state == Queued && u.localPath == None && u.downloaded == 0 && u.uploadRetries == 0
    && u.downloadRetries == downloadRetries && u.error == t.error
  }

  /** Waiting for upload over a complete file. */
  predicate Waits(t: Task, u: Task, path: Option<Text>) {
    && SameTask(t, u) && u.state == WaitingUpload && u.localPath == path && u.error == None && u.uploadRetries == 0
    && u.nextRetry == 0 && u.downloadRetries == t.downloadRetries
  }

  /** Which of the three an interrupted row becomes: a stream is queued; a local task with its complete file waits for
    upload over it, over its own before the one in its place; one that failed in the upload starts over; a partial file
    that cannot be removed makes it fail; and otherwise it starts over, keeping a listener's count of attempts. */
  predicate Restarted(t: Task, u: Task, files: Files, h: Host, id: nat) {
    var final, part := FinalPath(h, id, t.fileName), PartPath(h, id);
    if t.mode == Stream then StartsOver(t, u, t.downloadRetries)
    else if HasOwnFile(t, files) then Waits(t, u, t.localPath) && u.downloaded == t.downloaded
    else if final in files && files[final] == t.size then Waits(t, u, Some(final)) && u.downloaded == t.size
    else if t.state == UploadFailedRetained || t.state == VerificationFailedRetained then StartsOver(t, u, 0)
    else if part in files && !h.unlinks(part) then
      SameTask(t, u) && u.state == DownloadFailed && u.localPath == t.localPath
    else StartsOver(t, u, if t.identity == Bot then 0 else t.downloadRetries)
  }

  lemma InterruptedIsRewritten(t: Task)
    ensures UnderWay(t) <==> RecoverSelects(t) && !t.cancelRequested
    ensures Held(t) <==> HoldsForReview(t)
  {
  }

  lemma FactsMean(t: Task, files: Files, h: Host, id: nat)
    ensures var f := FactsOf(files, h, id, t);
      && f.localComplete == HasOwnFile(t, files) && f.finalPath == FinalPath(h, id, t.fileName)
      && f.finalComplete == (f.finalPath in files && files[f.finalPath] == t.size)
      && f.partStuck == (PartPath(h, id) in files && !h.unlinks(PartPath(h, id)))
  {
  }

  lemma RowRestarts(t: Task, files: Files, h: Host, id: nat, now: int)
    requires RecoverRewrites(t)
    ensures Restarted(t, RecoveredRow(t, FactsOf(files, h, id, t), now), files, h, id)
  {
    FactsMean(t, files, h, id);
  }

  // ------------------------------------------------------------------------ the tally

  /** The chosen interrupted rows that ended in a state. */
  function EndedIn(s: Store, after: map<int, Task>, only: Option<int>, state: State): set<int> {
    set id | id in s.tasks && (only == None || only == Some(id)) && Interrupted(s.tasks[id])
             && id in after && after[id].state == state
  }

  /** The chosen rows that wait for a person. */
  function HeldBack(s: Store, only: Option<int>): set<int> {
    set id | id in s.tasks && (only == None || only == Some(id)) && UnderWay(s.tasks[id]) && Held(s.tasks[id])
  }

  ghost predicate Tallied(s: Store, after: map<int, Task>, only: Option<int>, n: nat, y: Tally) {
    && y.queued == |UpTo(EndedIn(s, after, only, Queued), n)|
    && y.waiting == |UpTo(EndedIn(s, after, only, WaitingUpload), n)|
    && y.failed == |UpTo(EndedIn(s, after, only, DownloadFailed), n)| + |UpTo(HeldBack(s, only), n)|
  }

  /** What one row adds to the tally. */
  predicate Adds(t: Task, u: Task, chosen: bool, y: Tally, z: Tally) {
    if !chosen || !UnderWay(t) then z == y
    else if Held(t) then z == y.(failed := y.failed + 1)
    else
      || (u.state == Queued && z == y.(queued := y.queued + 1))
      || (u.state == WaitingUpload && z == y.(waiting := y.waiting + 1))
      || (u.state == DownloadFailed && z == y.(failed := y.failed + 1))
  }

  /** The count of one more row. */
  lemma TalliedFurther(s: Store, after: map<int, Task>, only: Option<int>, n: nat, y: Tally, z: Tally)
    requires n > 0 && Tallied(s, after, only, n - 1, y)
    requires if n !in s.tasks then z == y
             else n in after && Adds(s.tasks[n], after[n], only == None || only == Some(n), y, z)
    ensures Tallied(s, after, only, n, z)
  {
    OneMore(EndedIn(s, after, only, Queued), n);
    OneMore(EndedIn(s, after, only, WaitingUpload), n);
    OneMore(EndedIn(s, after, only, DownloadFailed), n);
    OneMore(HeldBack(s, only), n);
  }

  lemma NothingTallied(s: Store, after: map<int, Task>, only: Option<int>)
    ensures Tallied(s, after, only, 0, Tally(0, 0, 0))
  {
    OneMore(EndedIn(s, after, only, Queued), 0);
    OneMore(EndedIn(s, after, only, WaitingUpload), 0);
    OneMore(EndedIn(s, after, only, DownloadFailed), 0);
    OneMore(HeldBack(s, only), 0);
  }

  /** `after` has the rows that recovery leaves behind, each as if it were alone. */
  ghost predicate RowsOf(s: Store, files: Files, h: Host, now: int, only: Option<int>, after: map<int, Task>) {
    forall id: nat | 1 <= id <= s.last && id in s.tasks ::
      id in after && after[id] == RowAfter(s, files, h, now, only, id)
  }

  lemma {:induction false} TallyCounts(s: Store, files: Files, h: Host, now: int, only: Option<int>, n: nat,
      after: map<int, Task>)
    requires n <= s.last && RowsOf(s, files, h, now, only, after)
    ensures Tallied(s, after, only, n, RecoverTo(s, files, h, now, only, n).tally)
  {
    if n > 0 {
      TallyCounts(s, files, h, now, only, n - 1, after);
      VisitCounts(s, files, h, now, only, n);
      TalliedFurther(s, after, only, n, RecoverTo(s, files, h, now, only, n - 1).tally,
          RecoverTo(s, files, h, now, only, n).tally);
    } else {
      NothingTallied(s, after, only);
    }
  }

  lemma VisitAdds(r: Recovered, h: Host, now: int, only: Option<int>, n: nat)
    requires n in r.store.tasks
    ensures Adds(r.store.tasks[n], RowAfter(r.store, r.files, h, now, only, n), only == None || only == Some(n),
                 r.tally, RecoverOne(r, h, now, only, n).tally)
  {
    InterruptedIsRewritten(r.store.tasks[n]);
  }

  /** The rows visited before make no difference to a row's own visit. */
  lemma AloneAtVisit(s: Store, files: Files, h: Host, now: int, only: Option<int>, n: nat)
    requires n > 0 && n in s.tasks
    ensures var r := RecoverTo(s, files, h, now, only, n - 1);
      && n in r.store.tasks && r.store.tasks[n] == s.tasks[n]
      && RowAfter(r.store, r.files, h, now, only, n) == RowAfter(s, files, h, now, only, n)
  {
    var r := RecoverTo(s, files, h, now, only, n - 1);
    VisitsKeepIds(s, files, h, now, only, n - 1);
    RowByItself(s, files, h, now, only, n - 1, n);
    FactsStable(files, r.files, h, n, s.tasks[n], n - 1);
  }

  lemma VisitCounts(s: Store, files: Files, h: Host, now: int, only: Option<int>, n: nat)
    requires n > 0
    ensures var y, z := RecoverTo(s, files, h, now, only, n - 1).tally, RecoverTo(s, files, h, now, only, n).tally;
      if n !in s.tasks then z == y
      else Adds(s.tasks[n], RowAfter(s, files, h, now, only, n), only == None || only == Some(n), y, z)
  {
    if n in s.tasks {
      AloneAtVisit(s, files, h, now, only, n);
      VisitAdds(RecoverTo(s, files, h, now, only, n - 1), h, now, only, n);
    } else {
      VisitsKeepIds(s, files, h, now, only, n - 1);
    }
  }

  /** The partial files that go: of chosen interrupted local rows without a complete file that were still downloading,
    where the operating system lets them go. */
  predicate Clears(s: Store, files: Files, h: Host, only: Option<int>, id: nat) {
    && id in s.tasks && (only == None || only == Some(id)) && Interrupted(s.tasks[id])
    && var t := s.tasks[id];
    && t.mode == Local && t.state != UploadFailedRetained && t.state != VerificationFailedRetained
    && !HasOwnFile(t, files)
    && !(FinalPath(h, id, t.fileName) in files && files[FinalPath(h, id, t.fileName)] == t.size)
    && h.unlinks(PartPath(h, id))
  }

  lemma VisitClears(r: Recovered, files: Files, h: Host, now: int, only: Option<int>, n: nat)
    requires n > 0 && OnlyPartsGone(files, r.files, h, n - 1)
    ensures RecoverOne(r, h, now, only, n).files
      == if Clears(r.store, files, h, only, n) then r.files - {PartPath(h, n)} else r.files
  {
    if n in r.store.tasks {
      InterruptedIsRewritten(r.store.tasks[n]);
      FactsStable(files, r.files, h, n, r.store.tasks[n], n - 1);
    }
  }

  /** Exactly those partial files are gone, of the rows with ids up to `n`. */
  ghost predicate Cleared(s: Store, files: Files, left: Files, h: Host, only: Option<int>, n: nat) {
    forall p :: p in left <==>
      p in files && forall id: nat | 1 <= id <= n && Clears(s, files, h, only, id) :: p != PartPath(h, id)
  }

  lemma ClearedFurther(s: Store, files: Files, mid: Files, left: Files, h: Host, only: Option<int>, n: nat)
    requires n > 0 && Cleared(s, files, mid, h, only, n - 1)
    requires left == if Clears(s, files, h, only, n) then mid - {PartPath(h, n)} else mid
    ensures Cleared(s, files, left, h, only, n)
  {
  }

  /** The visit of a row clears what the first state of the table says it clears. */
  lemma ClearsByItself(s: Store, files: Files, h: Host, now: int, only: Option<int>, n: nat)
    requires n > 0
    ensures var before := RecoverTo(s, files, h, now, only, n - 1).files;
      RecoverTo(s, files, h, now, only, n).files
        == if Clears(s, files, h, only, n) then before - {PartPath(h, n)} else before
  {
    VisitsKeepIds(s, files, h, now, only, n - 1);
    VisitClears(RecoverTo(s, files, h, now, only, n - 1), files, h, now, only, n);
    if n in s.tasks {
      RowByItself(s, files, h, now, only, n - 1, n);
    }
  }

  lemma {:induction false} FilesCleared(s: Store, files: Files, h: Host, now: int, only: Option<int>, n: nat)
    ensures Cleared(s, files, RecoverTo(s, files, h, now, only, n).files, h, only, n)
  {
    if n > 0 {
      FilesCleared(s, files, h, now, only, n - 1);
      ClearsByItself(s, files, h, now, only, n);
      ClearedFurther(s, files, RecoverTo(s, files, h, now, only, n - 1).files,
          RecoverTo(s, files, h, now, only, n).files, h, only, n);
    }
  }

  lemma TallyIsOfRows(s: Store, files: Files, h: Host, now: int, only: Option<int>)
    requires WellFormed(s)
    ensures var r := Recover(s, files, h, now, only); Tallied(s, r.store.tasks, only, s.last, r.tally)
  {
    var after := Recover(s, files, h, now, only).store.tasks;
    VisitsKeepIds(s, files, h, now, only, s.last);
    forall id: nat | 1 <= id <= s.last && id in s.tasks
      ensures id in after && after[id] == RowAfter(s, files, h, now, only, id)
    {
      RowByItself(s, files, h, now, only, s.last, id);
    }
    TallyCounts(s, files, h, now, only, s.last, after);
  }

  /** What recovery leaves of a row. */
  predicate RowLeft(t: Task, u: Task, files: Files, left: Files, h: Host, id: nat, chosen: bool) {
    if chosen && Interrupted(t)
    then Restarted(t, u, files, h, id) && (u.state == WaitingUpload ==> HasFile(u, left))
    else u == t
  }

  /** Restart recovery: no task appears or vanishes. Every chosen row that the restart interrupted is queued, waits for
    upload over a file of exactly its size that is still there at the end, or has failed over a partial file, as its
    files say; every other row is as it was; of the files only those partial ones are gone; and the tally counts the
    rows by where they ended, those that wait for a person among the failed. */
  lemma RecoverOutcome(s: Store, files: Files, h: Host, now: int, only: Option<int>)
    requires WellFormed(s)
    ensures var r := Recover(s, files, h, now, only);
      && r.store.tasks.Keys == s.tasks.Keys
      && (forall id: nat | id in s.tasks ::
            RowLeft(s.tasks[id], r.store.tasks[id], files, r.files, h, id, only == None || only == Some(id)))
    ensures Cleared(s, files, Recover(s, files, h, now, only).files, h, only, s.last)
    ensures var r := Recover(s, files, h, now, only); Tallied(s, r.store.tasks, only, s.last, r.tally)
  {
    TallyIsOfRows(s, files, h, now, only);
    var r := Recover(s, files, h, now, only);
    VisitsKeepIds(s, files, h, now, only, s.last);
    FilesCleared(s, files, h, now, only, s.last);
    forall id: nat | id in s.tasks
      ensures RowLeft(s.tasks[id], r.store.tasks[id], files, r.files, h, id, only == None || only == Some(id))
    {
      RowByItself(s, files, h, now, only, s.last, id);
      InterruptedIsRewritten(s.tasks[id]);
      if Interrupted(s.tasks[id]) {
        RowRestarts(s.tasks[id], files, h, id, now);
        FileStays(files, r.files, h, id, s.tasks[id], now, s.last);
      }
    }
  }

  predicate HasFile(t: Task, files: Files) {
    t.localPath.Some? && t.localPath.value in files && files[t.localPath.value] == t.size
  }

  lemma FileStays(before: Files, after: Files, h: Host, id: nat, t: Task, now: int, n: nat)
    requires RecoverRewrites(t) && OnlyPartsGone(before, after, h, n)
    ensures var u := RecoveredRow(t, FactsOf(before, h, id, t), now); u.state == WaitingUpload ==> HasFile(u, after)
  {
    CompleteStable(before, after, h, id, t, n);
  }

  // ------------------------------------------------------------------ second run

  /** Equal but for the timestamp and the wait text. */
  predicate SameBut(t: Task, u: Task) { u.(updatedAt := t.updatedAt, waitReason := t.waitReason) == t }

  ghost predicate Settled(s: Store, t: Store) {
    && t.(tasks := s.tasks) == s
    && t.tasks.Keys == s.tasks.Keys
    && (forall id | id in s.tasks :: SameBut(s.tasks[id], t.tasks[id]))
  }

  /** A row that one recovery has handled, its ledger row and its slot included. */
  ghost predicate Handled(s: Store, files: Files, h: Host, only: Option<int>, id: nat) {
    id in s.tasks && Chosen(only, id) && RecoverRewrites(s.tasks[id]) ==>
      var t, f := s.tasks[id], FactsOf(files, h, id, s.tasks[id]);
      && t.mode.Local? && t.state.WaitingUpload? && t.error.None? && t.uploadRetries == 0 && t.nextRetry == 0
      && (f.localComplete || (f.finalComplete && t.localPath == Some(f.finalPath) && t.downloaded == t.size))
      && id !in s.slots && (id in s.ledger && s.ledger[id].charged.None? ==> !s.ledger[id].released)
  }

  /** A row that recovery has written is written again only if it waits over a file that is there. */
  lemma RewrittenRowWaits(t: Task, f: Facts, now: int)
    requires RecoverRewrites(t) && RecoverRewrites(RecoveredRow(t, f, now))
    ensures var u := RecoveredRow(t, f, now);
      && u.mode.Local? && u.state.WaitingUpload? && u.error.None? && u.uploadRetries == 0 && u.nextRetry == 0
      && (f.localComplete || f.finalComplete) && u.fileName == t.fileName && u.size == t.size
      && u.localPath == (if f.localComplete then t.localPath else Some(f.finalPath))
      && (!f.localComplete ==> u.downloaded == t.size)
  {
  }

  lemma FirstRunHandles(s: Store, files: Files, h: Host, now: int, only: Option<int>, id: nat)
    requires WellFormed(s) && id in s.tasks
    ensures var r := Recover(s, files, h, now, only); Handled(r.store, r.files, h, only, id)
  {
    var r := Recover(s, files, h, now, only);
    var t, f := s.tasks[id], FactsOf(files, h, id, s.tasks[id]);
    VisitsKeepIds(s, files, h, now, only, s.last);
    RowByItself(s, files, h, now, only, s.last, id);
    if Chosen(only, id) && RecoverRewrites(t) && RecoverRewrites(r.store.tasks[id]) {
      SideTablesByThemselves(s, files, h, now, only, s.last, id);
      RewrittenRowWaits(t, f, now);
      CompleteStable(files, r.files, h, id, t, s.last);
    }
  }

  /** A state write leaves the side tables of every other row alone; outside the active states the slot goes, and
    outside cancelled so does the released mark of a row that is not charged. */
  lemma WriteClearsSides(s: Store, id: int, t: Task)
    requires id in s.tasks && id in s.ledger && !IsActive(t.state) && !t.state.Cancelled?
    ensures var next := StateWrite(s, id, t);
      && next.ledger.Keys == s.ledger.Keys && next.slots == s.slots - {id}
      && (next.ledger[id].charged.None? ==> !next.ledger[id].released)
      && (forall i | i in s.ledger && i != id :: next.ledger[i] == s.ledger[i])
  {
  }

  /** Visiting one row: the side tables of every other row stay, its own slot and released mark go. */
  lemma SideTablesOfOne(r: Recovered, h: Host, now: int, only: Option<int>, id: nat)
    requires WellFormed(r.store)
    ensures var next := RecoverOne(r, h, now, only, id).store;
      && next.ledger.Keys == r.store.ledger.Keys
      && next.slots <= r.store.slots
      && (forall i | i in r.store.ledger && i != id :: next.ledger[i] == r.store.ledger[i])
      && (id in r.store.tasks && Chosen(only, id) && RecoverRewrites(r.store.tasks[id]) ==>
            id !in next.slots && (next.ledger[id].charged.None? ==> !next.ledger[id].released))
  {
    if id in r.store.tasks && RecoverRewrites(r.store.tasks[id]) {
      WriteClearsSides(r.store, id, RecoveredRow(r.store.tasks[id], FactsOf(r.files, h, id, r.store.tasks[id]), now));
    }
  }

  lemma RecoverOneWellFormed(r: Recovered, h: Host, now: int, only: Option<int>, id: nat)
    requires WellFormed(r.store)
    ensures WellFormed(RecoverOne(r, h, now, only, id).store)
  {
    if id in r.store.tasks && RecoverRewrites(r.store.tasks[id]) {
      Totals.WriteWellFormed(r.store, id,
          RecoveredRow(r.store.tasks[id], FactsOf(r.files, h, id, r.store.tasks[id]), now));
    }
  }

  lemma {:induction false} StaysWellFormed(s: Store, files: Files, h: Host, now: int, only: Option<int>, n: nat)
    requires WellFormed(s)
    ensures WellFormed(RecoverTo(s, files, h, now, only, n).store)
  {
    if n > 0 {
      StaysWellFormed(s, files, h, now, only, n - 1);
      RecoverOneWellFormed(RecoverTo(s, files, h, now, only, n - 1), h, now, only, n);
    }
  }

  /** Settled: no slot, and a row that is not charged is not released. */
  predicate SidesClear(s: Store, id: int) {
    id in s.ledger && id !in s.slots && (s.ledger[id].charged.None? ==> !s.ledger[id].released)
  }

  lemma SidesClearOnVisit(r: Recovered, h: Host, now: int, only: Option<int>, id: nat)
    requires WellFormed(r.store) && id in r.store.tasks && Chosen(only, id) && RecoverRewrites(r.store.tasks[id])
    ensures SidesClear(RecoverOne(r, h, now, only, id).store, id)
  {
    SideTablesOfOne(r, h, now, only, id);
  }

  lemma SidesStayClear(r: Recovered, h: Host, now: int, only: Option<int>, n: nat, id: nat)
    requires WellFormed(r.store) && SidesClear(r.store, id) && id != n
    ensures SidesClear(RecoverOne(r, h, now, only, n).store, id)
  {
    SideTablesOfOne(r, h, now, only, n);
  }

  lemma {:induction false} SideTablesByThemselves(s: Store, files: Files, h: Host, now: int, only: Option<int>, n: nat,
      id: nat)
    requires WellFormed(s) && id in s.tasks && 1 <= id <= n && Chosen(only, id) && RecoverRewrites(s.tasks[id])
    ensures SidesClear(RecoverTo(s, files, h, now, only, n).store, id)
  {
    var r := RecoverTo(s, files, h, now, only, n - 1);
    StaysWellFormed(s, files, h, now, only, n - 1);
    if id < n {
      SideTablesByThemselves(s, files, h, now, only, n - 1, id);
      SidesStayClear(r, h, now, only, n, id);
    } else {
      RowByItself(s, files, h, now, only, n - 1, id);
      SidesClearOnVisit(r, h, now, only, id);
    }
  }

  /** Visiting a handled row again. */
  lemma HandledRowSettles(r: Recovered, h: Host, now: int, only: Option<int>, n: nat)
    requires Handled(r.store, r.files, h, only, n)
    ensures var next := RecoverOne(r, h, now, only, n);
      && Settled(r.store, next.store) && next.files == r.files
      && (forall i | i in r.store.tasks && i != n :: next.store.tasks[i] == r.store.tasks[i])
  {
  }

  lemma SettledFurther(s: Store, mid: Store, next: Store, n: nat)
    requires Settled(s, mid) && Settled(mid, next)
    requires forall id: int | id in s.tasks && id > n - 1 :: mid.tasks[id] == s.tasks[id]
    requires forall i | i in mid.tasks && i != n :: next.tasks[i] == mid.tasks[i]
    ensures Settled(s, next) && forall id: int | id in s.tasks && id > n :: next.tasks[id] == s.tasks[id]
  {
  }

  /** A row that no visit has come to yet is handled as it was. */
  lemma StillHandled(s: Store, mid: Store, files: Files, h: Host, only: Option<int>, n: nat)
    requires Handled(s, files, h, only, n) && Settled(s, mid) && (n in s.tasks ==> mid.tasks[n] == s.tasks[n])
    ensures Handled(mid, files, h, only, n)
  {
    assert mid.ledger == s.ledger && mid.slots == s.slots;
  }

  lemma {:induction false} SecondRunSettles(s: Store, files: Files, h: Host, now: int, only: Option<int>, n: nat)
    requires forall id: nat :: Handled(s, files, h, only, id)
    ensures var r := RecoverTo(s, files, h, now, only, n);
      Settled(s, r.store) && r.files == files
          && (forall id: int | id in s.tasks && id > n :: r.store.tasks[id] == s.tasks[id])
  {
    if n > 0 {
      var r := RecoverTo(s, files, h, now, only, n - 1);
      SecondRunSettles(s, files, h, now, only, n - 1);
      assert Handled(s, files, h, only, n);
      StillHandled(s, r.store, files, h, only, n);
      HandledRowSettles(r, h, now, only, n);
      SettledFurther(s, r.store, RecoverOne(r, h, now, only, n).store, n);
    }
  }

  /** A second recovery of the table or of one task, whatever the operating system then refuses to delete, changes
    timestamps and wait text only: no other column, no other table and no file. */
  lemma RecoverIsIdempotent(s: Store, files: Files, h: Host, now: int, only: Option<int>, later: int,
      unlinks: Text -> bool)
    requires WellFormed(s)
    ensures var r := Recover(s, files, h, now, only);
      var again := Recover(r.store, r.files, h.(unlinks := unlinks), later, only);
      Settled(r.store, again.store) && again.files == r.files
  {
    var r := Recover(s, files, h, now, only);
    var g := h.(unlinks := unlinks);
    RowsByThemselves(s, files, h, now, only, s.last);
    forall id: nat ensures Handled(r.store, r.files, g, only, id) {
      if id in s.tasks {
        FirstRunHandles(s, files, h, now, only, id);
      }
    }
    SecondRunSettles(r.store, r.files, g, later, only, r.store.last);
  }
}

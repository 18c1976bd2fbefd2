/** TaskDB: the task tables as fields that its methods update in place, trigger included. Each method is proved equal to
  its function in TaskStore; Outcomes says what those functions answer and leave behind. */
module TaskDatabase {
  import opened States
  import opened Text
  import opened TaskStore
  import RestartRecovery
  import Totals
  import RemoteNames
  import StagingNames

  datatype Moved = Done | UnknownTask | IllegalMove

  class TaskDB {
    var tasks: map<int, Task>
    var last: nat
    var ledger: map<int, Ledger>
    var slots: set<int>
    var quotas: map<int, Quota>
    var recoveries: seq<Recovery>
    var retained: map<Text, int>
    var events: seq<Event>
    const calendar: Calendar

    function View(): Store
      reads this
    {
      Store(tasks, last, ledger, slots, quotas, recoveries, retained, events)
    }

    /** used_local_bytes. */
    function UsedLocalBytes(): int
      reads this
    {
      Total(LocalBytes, View())
    }

    constructor (calendar: Calendar)
      ensures View() == EMPTY && this.calendar == calendar
    {
      tasks, last, ledger, slots, quotas := map[], 0, map[], {}, map[];
      recoveries, retained, events := [], map[], [];
      this.calendar := calendar;
    }

    /** UPDATE tasks SET state=...: the row, then the statements of the two triggers in order. */
    method UpdateState(id: int, row: Task)
      requires id in tasks
      modifies this
      ensures View() == StateWrite(old(View()), id, row)
    {
      var before := tasks[id].state;
      tasks := tasks[id := row];
      if id in ledger {
        if IsCharging(row.state) && (row.verification == Some("size") || row.verification == Some("hash"))
           && row.verifiedAt.Some? && ledger[id].charged.None? {
          ledger := ledger[id := ledger[id].(charged := Some(row.updatedAt))];
        }
        var l := if ledger[id].charged.None? then ledger[id].(released := row.state == Cancelled) else ledger[id];
        ledger := ledger[id := l];
      }
      if !IsActive(row.state) {
        slots := slots - {id};
      }
      if before != row.state {
        events := events + [Event(id, before, row.state, row.updatedAt)];
      }
    }

    method CreateTask(n: NewTask, createdAt: Option<int>, now: int) returns (r: Created)
      modifies this
      ensures var at := if createdAt.Some? then createdAt.value else now;
        r == CreateResult(old(View()), n, at, calendar) && View() == Create(old(View()), n, at, calendar)
      // a fresh task is queued over its reserved bytes and no other row moves; any other answer leaves all tables alone
      ensures r.Fresh? ==>
                && r.id in tasks && tasks[r.id].state.Queued? && HoldsQuota(View(), Some(r.id))
                && forall i | i in old(tasks) && i != r.id :: i in tasks && tasks[i] == old(tasks)[i]
      ensures r.Existing? ==> r.id in tasks && Duplicates(tasks[r.id], n)
      ensures !r.Fresh? ==> View() == old(View())
    {
      var at := if createdAt.Some? then createdAt.value else now;
      var duplicate := FindDuplicate(View(), n, last);
      FindsDuplicate(View(), n, last);
      if duplicate.Some? {
        return Existing(duplicate.value);
      }
      if !Admits(View(), n.sender, n.size, at, calendar, None) {
        return QuotaExceeded;
      }
      if !n.directoryOk {
        return InvalidDirectory;
      }
      if !IdentityValid(n) {
        return InvalidIdentity;
      }
      last := last + 1;
      tasks := tasks[last := FreshTask(n, at)];
      ledger := ledger[last := Ledger(n.sender, n.size, None, false)];
      return Fresh(last);
    }

    method SetWaitReason(id: int, reason: string, states: set<State>, now: int) returns (changed: bool)
      modifies this`tasks
      ensures View() == WaitReasonSet(old(View()), id, reason, states, now)
      ensures changed <==> WaitReasonChanges(old(View()), id, reason, states)
    {
      if id !in tasks || tasks[id].state !in states || tasks[id].cancelRequested
          || tasks[id].waitReason == Some(reason) {
        return false;
      }
      tasks := tasks[id := tasks[id].(waitReason := Some(reason), updatedAt := now)];
      return true;
    }

    method Reserve(id: int, now: int, budget: int, free: int, minimum: int) returns (r: Reservation)
      modifies this
      ensures r == ReserveResult(old(View()), id, now, budget, free, minimum)
      ensures View() == TaskStore.Reserve(old(View()), id, now, budget, free, minimum)
      // a local reservation leaves all local files together within the budget; a refusal moves no state, ledger or slot
      ensures r == Taken(Local) && WellFormed(old(View())) ==> UsedLocalBytes() <= budget
      ensures r.Taken? ==> id in tasks && tasks[id].state.Reserved? && tasks[id].mode == r.mode
      ensures !r.Taken? ==> ledger == old(ledger) && slots == old(slots) && events == old(events)
    {
      if id !in tasks || tasks[id].state != Queued || tasks[id].cancelRequested || tasks[id].nextRetry > now {
        return Changed;
      }
      var t := tasks[id];
      if !SlotAvailable(View(), t.sender, id) {
        var _ := SetWaitReason(id, WAIT_SLOT, {Queued}, now);
        return Waits(WAIT_SLOT);
      }
      var used, pendingGrowth := UsedLocalBytes(), Total(Growth, View());
      if t.mode.Stream? || t.size > budget {
        if free <= minimum {
          var _ := SetWaitReason(id, WAIT_STREAM, {Queued}, now);
          return Waits(WAIT_STREAM);
        }
        UpdateState(id, ReservedRow(t, Stream, now));
        return Taken(Stream);
      }
      if used + t.size > budget {
        var _ := SetWaitReason(id, WAIT_BUDGET, {Queued}, now);
        return Waits(WAIT_BUDGET);
      }
      if free - pendingGrowth - t.size < minimum {
        var reason := WaitDisk(id, minimum + pendingGrowth + t.size - free);
        var _ := SetWaitReason(id, reason, {Queued}, now);
        return Waits(reason);
      }
      if WellFormed(View()) {
        Totals.TotalAfterWrite(LocalBytes, View(), id, ReservedRow(t, Local, now));
      }
      UpdateState(id, ReservedRow(t, Local, now));
      return Taken(Local);
    }

    method AdmitUpload(id: int) returns (allowed: bool)
      modifies this`slots
      ensures allowed <==> UploadAdmitted(old(View()), id)
      ensures View() == TaskStore.AdmitUpload(old(View()), id)
      ensures allowed ==> id in slots || tasks[id].state.CleanupPending?
      ensures !allowed ==> slots == old(slots)
    {
      if id !in tasks || tasks[id].cancelRequested {
        return false;
      }
      var state := tasks[id].state;
      allowed := state.CleanupPending?
        || ((state.Downloaded? || state.WaitingUpload?) && SlotAvailable(View(), tasks[id].sender, id));
      if allowed && !state.CleanupPending? {
        slots := slots + {id};
      }
    }

    method Transition(id: int, target: State, p: Patch, now: int) returns (r: Moved)
      modifies this
      ensures View() == TaskStore.Transition(old(View()), id, target, p, now)
      ensures r == if id !in old(tasks) then UnknownTask
                   else if CanTransition(old(tasks)[id].state, target) then Done else IllegalMove
      // the slot goes outside the active states, and a cancelled task without a charge gives its bytes back
      ensures r.Done? ==> id in tasks && tasks[id].state == target && (!IsActive(target) ==> id !in slots)
      ensures r.Done? && id in ledger && ledger[id].charged.None? ==> (ledger[id].released <==> target.Cancelled?)
      ensures !r.Done? ==> View() == old(View())
    {
      if id !in tasks {
        return UnknownTask;
      }
      if !CanTransition(tasks[id].state, target) {
        return IllegalMove;
      }
      UpdateState(id, Patched(tasks[id], p, now).(state := target));
      return Done;
    }

    /** update(), as the workers use it for progress: the state column is not among the fields. */
    method Update(id: int, p: Patch, now: int)
      modifies this`tasks
      ensures View() == Progress(old(View()), id, p, now)
    {
      if id in tasks {
        tasks := tasks[id := Patched(tasks[id], p, now)];
      }
    }

    /** The paths the task may have written to stay reserved for good. */
    method RetainPaths(t: Task, id: int)
      modifies this`retained
      ensures retained == RetainAll(old(retained), t, id)
    {
      var paths, i := [t.remotePath, t.remoteTemp, t.remoteFinal], 0;
      while i < 3
        invariant 0 <= i <= 3
        invariant retained == match i
                              case 0 => old(retained)
                              case 1 => Retain(old(retained), t.remotePath, id)
                              case 2 => Retain(Retain(old(retained), t.remotePath, id), t.remoteTemp, id)
                              case _ => RetainAll(old(retained), t, id)
      {
        if Truthy(paths[i]) && paths[i].value !in retained {
          retained := retained[paths[i].value := id];
        }
        i := i + 1;
      }
    }

    method Requeue(id: int, r: RequeueRequest, now: int) returns (accepted: bool)
      modifies this
      ensures accepted <==> RequeueAllowed(old(View()), id, r, now, calendar)
      ensures View() == TaskStore.Requeue(old(View()), id, r, now, calendar)
      // an accepted task waits again, without a slot, over reserved or charged bytes, and its old row is on record
      ensures accepted ==>
                && id in tasks && (tasks[id].state.Queued? || tasks[id].state.WaitingUpload?) && id !in slots
                && (id in ledger ==> HoldsQuota(View(), Some(id)))
                && |recoveries| == |old(recoveries)| + 1 && recoveries[|recoveries| - 1].previous == old(tasks)[id]
      ensures !accepted ==> View() == old(View())
    {
      if id !in tasks {
        return false;
      }
      var t := tasks[id];
      var eligible := if r.restartCancelled then t.state == Cancelled else IsFailed(t.state);
      if !eligible || t.sender != r.sender || t.updatedAt != r.expectedUpdatedAt || t.cancelRequested
         || (NeedsReview(t) && !r.freshPath) {
        return false;
      }
      if !Admits(View(), r.sender, t.size, now, calendar, Some(id)) || !MessageFree(View(), id, NewMessage(t, r)) {
        return false;
      }
      if r.freshPath {
        RetainPaths(t, id);
      }
      recoveries := recoveries + [Recovery(id, now, OperationOf(r), t)];
      UpdateState(id, RequeuedRow(t, r, now));
      return true;
    }

    method DeferListenerDownload(id: int, r: DeferRequest, now: int) returns (deferred: bool)
      modifies this
      ensures deferred <==> DeferAllowed(old(View()), id, r)
      ensures View() == Defer(old(View()), id, r, now)
      // a deferred task is queued for one more attempt, not before the wait is over, and holds no slot meanwhile
      ensures deferred ==>
                && id in tasks && tasks[id].state.Queued? && tasks[id].nextRetry == now + r.retryAfter && id !in slots
                && tasks[id].downloadRetries == old(tasks)[id].downloadRetries + 1 < r.maximumAttempts
      ensures !deferred ==> View() == old(View())
    {
      if !(5 <= r.retryAfter <= 60) || !(1 <= r.maximumAttempts <= 3) || id !in tasks {
        return false;
      }
      var t := tasks[id];
      if t.sender != r.sender || t.updatedAt != r.expectedUpdatedAt || !(t.state.Reserved? || t.state.Downloading?)
         || !t.mode.Local? || t.cancelRequested || t.identity.Bot?
         || Truthy(t.remotePath) || Truthy(t.remoteTemp) || Truthy(t.remoteFinal)
         || t.downloadRetries + 1 >= r.maximumAttempts {
        return false;
      }
      if r.source.None? {
        return false;
      }
      var source := r.source.value;
      if source.enabledAccount != Some(t.identity.account) || source.deleted || source.account != t.identity.account
         || source.chat != t.chat {
        return false;
      }
      UpdateState(id, DeferredRow(t, r, now));
      return true;
    }

    method RequestStream(id: int, now: int) returns (r: StreamRequest)
      modifies this
      ensures r == RequestStreamResult(old(View()), id)
      ensures View() == TaskStore.RequestStream(old(View()), id, now)
      ensures r.StreamUpdated? ==> id in tasks && tasks[id].state.Queued? && tasks[id].mode.Stream? && id !in slots
      ensures !r.StreamUpdated? ==> View() == old(View())
    {
      if id !in tasks {
        return StreamMissing;
      }
      if tasks[id].cancelRequested || !(tasks[id].state.Queued? || tasks[id].state.DownloadFailed?) {
        return StreamInvalid;
      }
      if Truthy(tasks[id].localPath) {
        return StreamRetained;
      }
      UpdateState(id, StreamRow(tasks[id], now));
      return StreamUpdated;
    }

    method Confirm(id: int, now: int) returns (r: Confirmation)
      modifies this
      ensures r == ConfirmResult(old(View()), id) && View() == TaskStore.Confirm(old(View()), id, now)
      ensures r.NowConfirmed? || r.AlreadyConfirmed? <==> id in tasks && tasks[id].state.Confirmed?
      ensures !r.NowConfirmed? ==> View() == old(View())
    {
      if id !in tasks {
        return ConfirmMissing;
      }
      if tasks[id].state.Confirmed? {
        return AlreadyConfirmed;
      }
      if !tasks[id].state.Completed? {
        return ConfirmInvalid;
      }
      UpdateState(id, ConfirmedRow(tasks[id], now));
      return NowConfirmed;
    }

    /** The body of recover's loop: hold the row for review, or rewrite it by what the files say. */
    method RecoverTask(id: nat, t: Task, files: RestartRecovery.Files, counted: RestartRecovery.Tally,
                       h: RestartRecovery.Host, now: int, only: Option<int>)
      returns (left: RestartRecovery.Files, tally: RestartRecovery.Tally)
      requires id in tasks && tasks[id] == t && RestartRecovery.Chosen(only, id) && RecoverSelects(t)
        && !t.cancelRequested
      modifies this
      ensures RestartRecovery.Recovered(View(), left, tally)
        == RestartRecovery.RecoverOne(RestartRecovery.Recovered(old(View()), files, counted), h, now, only, id)
      ensures last == old(last) && tasks.Keys == old(tasks).Keys
      ensures forall i | i in tasks && i != id :: tasks[i] == old(tasks)[i]
    {
      if HoldsForReview(t) {
        return files, counted.(failed := counted.failed + 1);
      }
      var f := RestartRecovery.FactsOf(files, h, id, t);
      left := RestartRecovery.FilesAfter(files, h, id, t);
      tally := RestartRecovery.Counted(counted, RecoveredRow(t, f, now).state);
      UpdateState(id, RecoveredRow(t, f, now));
    }

    /** One UPDATE per row, in id order; the rows were selected before the first of them is rewritten. */
    method Recover(files: RestartRecovery.Files, h: RestartRecovery.Host, now: int, only: Option<int>)
      returns (left: RestartRecovery.Files, tally: RestartRecovery.Tally)
      requires WellFormed(View())
      modifies this
      ensures RestartRecovery.Recovered(View(), left, tally)
        == RestartRecovery.Recover(old(View()), files, h, now, only)
      // every interrupted row is queued, waits over its file or has failed, as its files say, and no other row moves
      ensures tasks.Keys == old(tasks).Keys && forall id: nat | id in tasks ::
                RestartRecovery.RowLeft(old(tasks)[id], tasks[id], files, left, h, id, only == None || only == Some(id))
      ensures RestartRecovery.Tallied(old(View()), tasks, only, last, tally)
    {
      RestartRecovery.RecoverOutcome(View(), files, h, now, only);
      left, tally := files, RestartRecovery.Tally(0, 0, 0);
      var rows := tasks;
      for id := 1 to last + 1
        invariant last == old(last)
        invariant RestartRecovery.Recovered(View(), left, tally)
          == RestartRecovery.RecoverTo(old(View()), files, h, now, only, id - 1)
        invariant forall i | i in rows && i >= id :: i in tasks && tasks[i] == rows[i]
        invariant tasks.Keys == rows.Keys
      {
        if id in rows && RestartRecovery.Chosen(only, id) && RecoverSelects(rows[id]) && !rows[id].cancelRequested {
          left, tally := RecoverTask(id, rows[id], left, tally, h, now, only);
        }
      }
    }

    method RemoteClaimed(path: Text, id: int) returns (claimed: bool)
      ensures claimed <==> RemoteNames.RemoteClaimed(View(), path, id)
      ensures claimed <==>
                || path in retained
                || exists other | other in tasks ::
                     other != id && tasks[other].state != Cancelled && tasks[other].remoteFinal == Some(path)
    {
      claimed := path in retained
        || exists other | other in tasks ::
             other != id && tasks[other].remoteFinal == Some(path) && !tasks[other].state.Cancelled?;
    }

    method StagingName(id: nat, safeName: Text) returns (name: Text)
      ensures name == RemoteNames.StagingName(View(), id, safeName)
    {
      var recovery := RemoteNames.LatestRecovery(recoveries, id);
      name := StagingNames.PREFIX + Digits(id) + [DASH] + StagingNames.Attempt(recovery) + safeName;
    }
  }
}

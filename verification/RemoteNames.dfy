/** Remote names over whole runs: retained objects stay claimed, recovery attempts never reuse a staging name. */
module RemoteNames {
  import opened States
  import opened Text
  import opened TaskStore
  import StagingNames
  import Totals

  predicate Protected(s: Store, path: Text) { path in s.retained }

  /** remote_claimed: the path is retained, or some other uncancelled task will end there. */
  predicate RemoteClaimed(s: Store, path: Text, id: int) {
    Protected(s, path)
    || exists other | other in s.tasks ::
         other != id && s.tasks[other].remoteFinal == Some(path) && !s.tasks[other].state.Cancelled?
  }

  /** MAX(id) of the task's recoveries, zero when it has none. */
  function LatestRecovery(recoveries: seq<Recovery>, id: int): (n: nat)
    ensures n <= |recoveries|
  {
    if recoveries == [] then 0
    else if recoveries[|recoveries| - 1].task == id then |recoveries|
    else LatestRecovery(recoveries[..|recoveries| - 1], id)
  }

  /** staging_name. */
  function StagingName(s: Store, id: nat, safeName: Text): Text {
    StagingNames.Print(id, LatestRecovery(s.recoveries, id), safeName)
  }

  /** One operation forgets no retained path and rewrites no recovery. */
  lemma HistoryGrows(s: Store, op: Op, now: int, c: Calendar)
    ensures forall p | p in s.retained :: p in Apply(s, op, now, c).retained
    ensures s.recoveries <= Apply(s, op, now, c).recoveries
  {
  }

  lemma {:induction false} HistoryGrowsOverRun(s: Store, steps: seq<Timed>, c: Calendar)
    ensures forall p | p in s.retained :: p in Run(s, steps, c).retained
    ensures s.recoveries <= Run(s, steps, c).recoveries
    decreases |steps|
  {
    if steps != [] {
      HistoryGrows(s, steps[0].op, steps[0].now, c);
      HistoryGrowsOverRun(Apply(s, steps[0].op, steps[0].now, c), steps[1..], c);
    }
  }

  /** Every remote path a task held when it was requeued under a fresh path is claimed against every task, itself
    included, in all later states. */
  lemma FreshPathStaysClaimed(s: Store, id: int, r: RequeueRequest, now: int, c: Calendar, steps: seq<Timed>,
      path: Text, other: int)
    requires r.freshPath && RequeueAllowed(s, id, r, now, c) && path != []
    requires s.tasks[id].remotePath == Some(path) || s.tasks[id].remoteTemp == Some(path)
      || s.tasks[id].remoteFinal == Some(path)
    ensures RemoteClaimed(Run(Requeue(s, id, r, now, c), steps, c), path, other)
  {
    assert path in Requeue(s, id, r, now, c).retained;
    HistoryGrowsOverRun(Requeue(s, id, r, now, c), steps, c);
  }

  lemma {:induction false} LatestOnlyGrows(recoveries: seq<Recovery>, more: seq<Recovery>, id: int)
    requires recoveries <= more
    ensures LatestRecovery(recoveries, id) <= LatestRecovery(more, id)
    decreases |more|
  {
    if |recoveries| == |more| {
      assert recoveries == more;
    } else if more[|more| - 1].task != id {
      LatestOnlyGrows(recoveries, more[..|more| - 1], id);
    }
  }

  /** Every row an operation writes keeps its task's file name. */
  lemma EffectKeepsName(s: Store, op: Op, now: int, c: Calendar)
    ensures var e := EffectOf(s, op, now, c);
      e.Writes? || e.Touches? ==> e.id in s.tasks && e.row.fileName == s.tasks[e.id].fileName
  {
  }

  lemma NameStays(s: Store, op: Op, now: int, c: Calendar, id: int)
    requires WellFormed(s) && id in s.tasks
    ensures id in Apply(s, op, now, c).tasks && Apply(s, op, now, c).tasks[id].fileName == s.tasks[id].fileName
  {
    EffectKeepsName(s, op, now, c);
    Totals.ApplyIsEffect(s, op, now, c);
    PerformKeepsNames(s, EffectOf(s, op, now, c), id);
  }

  lemma PerformKeepsNames(s: Store, e: Effect, id: int)
    requires WellFormed(s) && Totals.KeepsOwner(s, e) && id in s.tasks
    requires e.Writes? || e.Touches? ==> e.row.fileName == s.tasks[e.id].fileName
    ensures id in Totals.Perform(s, e).tasks && Totals.Perform(s, e).tasks[id].fileName == s.tasks[id].fileName
  {
  }

  /** No operation changes the file name of a task. */
  lemma {:induction false} NameStaysOverRun(s: Store, steps: seq<Timed>, c: Calendar, id: int)
    requires WellFormed(s) && id in s.tasks
    ensures id in Run(s, steps, c).tasks && Run(s, steps, c).tasks[id].fileName == s.tasks[id].fileName
    decreases |steps|
  {
    if steps != [] {
      NameStays(s, steps[0].op, steps[0].now, c, id);
      Totals.ApplyWellFormed(s, steps[0].op, steps[0].now, c);
      NameStaysOverRun(Apply(s, steps[0].op, steps[0].now, c), steps[1..], c, id);
    }
  }

  /** The name a task's worker uploads to; `safe` is safe_file_name with the task's own fallback. */
  function OwnStagingName(s: Store, id: nat, safe: (Text, nat) -> Text): Text
    requires id in s.tasks
  {
    StagingName(s, id, safe(s.tasks[id].fileName, id))
  }

  /** Between any two instants of a run a task's staging name is the same exactly if it has not been requeued
    meanwhile. */
  lemma OwnNameTellsAttempt(s: Store, id: nat, steps: seq<Timed>, c: Calendar, safe: (Text, nat) -> Text)
    requires WellFormed(s) && id in s.tasks
    ensures var later := Run(s, steps, c);
      && id in later.tasks
      && (OwnStagingName(later, id, safe) == OwnStagingName(s, id, safe)
          <==> LatestRecovery(later.recoveries, id) == LatestRecovery(s.recoveries, id))
  {
    var later := Run(s, steps, c);
    NameStaysOverRun(s, steps, c, id);
    if OwnStagingName(later, id, safe) == OwnStagingName(s, id, safe) {
      StagingNames.AttemptsNeverShare(id, LatestRecovery(later.recoveries, id), LatestRecovery(s.recoveries, id),
                                      safe(s.tasks[id].fileName, id));
    }
  }

  /** After a requeue, however many operations follow, the task never uploads to the staging name it had before, and no
    other task ever does. */
  lemma AttemptsStayApart(s: Store, id: nat, r: RequeueRequest, now: int, c: Calendar, steps: seq<Timed>,
                          safe: (Text, nat) -> Text, other: nat)
    requires WellFormed(s) && RequeueAllowed(s, id, r, now, c)
    ensures var later := Run(Requeue(s, id, r, now, c), steps, c);
      && id in later.tasks && OwnStagingName(later, id, safe) != OwnStagingName(s, id, safe)
      && (other in later.tasks && other != id ==> OwnStagingName(later, other, safe) != OwnStagingName(s, id, safe))
  {
    var mid := Requeue(s, id, r, now, c);
    var later := Run(mid, steps, c);
    Totals.ApplyWellFormed(s, OpRequeue(id, r), now, c);
    NameStays(s, OpRequeue(id, r), now, c, id);
    NameStaysOverRun(mid, steps, c, id);
    HistoryGrowsOverRun(mid, steps, c);
    LatestOnlyGrows(mid.recoveries, later.recoveries, id);
    var before, after := LatestRecovery(s.recoveries, id), LatestRecovery(later.recoveries, id);
    assert LatestRecovery(mid.recoveries, id) == |s.recoveries| + 1;
    if OwnStagingName(later, id, safe) == OwnStagingName(s, id, safe) {
      StagingNames.AttemptsNeverShare(id, before, after, safe(s.tasks[id].fileName, id));
    }
    if other in later.tasks && OwnStagingName(later, other, safe) == OwnStagingName(s, id, safe) {
      var name := safe(later.tasks[other].fileName, other);
      StagingNames.TasksNeverShare(other, LatestRecovery(later.recoveries, other), name, id, before,
          safe(s.tasks[id].fileName, id));
    }
  }

  // -------------------------------------------------------------- final paths apart

  /** The task has not been cancelled and will end at the path. */
  predicate EndsAt(s: Store, id: int, path: Text) {
    id in s.tasks && s.tasks[id].state != Cancelled && s.tasks[id].remoteFinal == Some(path)
  }

  ghost predicate FinalsApart(s: Store) {
    forall i, j, path | EndsAt(s, i, path) && EndsAt(s, j, path) :: i == j
  }

  /** A worker puts a task under a final path that is the task's own already or that remote_claimed has not turned down,
    under the lock that workers hold for this; and a cancelled task comes back by a requeue under a fresh path. */
  ghost predicate ChoosesFreely(s: Store, op: Op) {
    && ((op.OpTransition? || op.OpProgress?) && op.id in s.tasks && op.patch.remoteFinal.To?
        && op.patch.remoteFinal.value.Some? ==>
          || EndsAt(s, op.id, op.patch.remoteFinal.value.value)
          || !RemoteClaimed(s, op.patch.remoteFinal.value.value, op.id))
    && StaysCancelled(s, op)
    && (op.OpRequeue? && op.requeue.restartCancelled ==> op.requeue.freshPath)
  }

  /** Every row an operation writes ends where its task did, or where no other task does. */
  lemma EffectEnds(s: Store, op: Op, now: int, c: Calendar, path: Text)
    requires ChoosesFreely(s, op)
    ensures var e := EffectOf(s, op, now, c);
      (e.Writes? || e.Touches?) && e.row.state != Cancelled && e.row.remoteFinal == Some(path) ==>
        EndsAt(s, e.id, path) || (forall other | other != e.id :: !EndsAt(s, other, path))
  {
    if op.OpTransition? || op.OpProgress? {
      assert (exists other :: other != op.id && EndsAt(s, other, path)) ==> RemoteClaimed(s, path, op.id);
    }
  }

  lemma PerformStaysApart(s: Store, e: Effect)
    requires WellFormed(s) && FinalsApart(s) && Totals.KeepsOwner(s, e)
    requires e.Writes? || e.Touches? ==>
               forall path | e.row.state != Cancelled && e.row.remoteFinal == Some(path) ::
                 EndsAt(s, e.id, path) || (forall other | other != e.id :: !EndsAt(s, other, path))
    ensures FinalsApart(Totals.Perform(s, e))
  {
    var t := Totals.Perform(s, e);
    forall i, j, path | EndsAt(t, i, path) && EndsAt(t, j, path)
      ensures i == j
    {
      if e.Inserts? {
        assert EndsAt(s, i, path) && EndsAt(s, j, path);
      } else {
        assert ((e.Writes? || e.Touches?) && i == e.id) || EndsAt(s, i, path);
        assert ((e.Writes? || e.Touches?) && j == e.id) || EndsAt(s, j, path);
      }
    }
  }

  lemma StepStaysApart(s: Store, op: Op, now: int, c: Calendar)
    requires WellFormed(s) && FinalsApart(s) && ChoosesFreely(s, op)
    ensures FinalsApart(Apply(s, op, now, c))
  {
    var e, t := EffectOf(s, op, now, c), Apply(s, op, now, c);
    Totals.ApplyIsEffect(s, op, now, c);
    forall path
      ensures (e.Writes? || e.Touches?) && e.row.state != Cancelled && e.row.remoteFinal == Some(path) ==>
        EndsAt(s, e.id, path) || (forall other | other != e.id :: !EndsAt(s, other, path))
    {
      EffectEnds(s, op, now, c, path);
    }
    PerformStaysApart(s, e);
    forall i, path ensures EndsAt(t, i, path) == EndsAt(Totals.Perform(s, e), i, path) {
    }
  }

  ghost predicate FreeRun(s: Store, steps: seq<Timed>, c: Calendar)
    decreases |steps|
  {
    steps != [] ==>
      ChoosesFreely(s, steps[0].op) && FreeRun(Apply(s, steps[0].op, steps[0].now, c), steps[1..], c)
  }

  /** No two uploads meet: over every run in which final paths are chosen past remote_claimed, no two tasks that have
    not been cancelled are ever to end at the same remote path. */
  lemma {:induction false} FinalsStayApart(s: Store, steps: seq<Timed>, c: Calendar)
    requires WellFormed(s) && FinalsApart(s) && FreeRun(s, steps, c)
    ensures FinalsApart(Run(s, steps, c))
    decreases |steps|
  {
    if steps != [] {
      StepStaysApart(s, steps[0].op, steps[0].now, c);
      Totals.ApplyWellFormed(s, steps[0].op, steps[0].now, c);
      FinalsStayApart(Apply(s, steps[0].op, steps[0].now, c), steps[1..], c);
    }
  }
}

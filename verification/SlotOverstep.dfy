/** A run in which a member gets a second active task although the limit is one: the rename after a download fails,
  another task is reserved while the worker waits, and the download starts over without asking for a slot. */
module SlotOverstep {
  import opened States
  import opened Text
  import opened TaskStore
  import opened Totals
  import opened SpaceSafety
  import opened DailyQuota

  const OWNER := 7

  /** The member may have one task at a time. */
  function OneSlot(): Store { EMPTY.(quotas := map[OWNER := Quota(0, 0, 1)]) }

  function Worker(now: nat, id: int, target: State): Timed { Timed(now, OpTransition(id, target, NO_CHANGE)) }

  function Reserves(now: nat, id: int): Timed { Timed(now, OpReserve(id, 9, 9, 0)) }

  /** Two tasks arrive. The first is downloaded, the second reserved in its place, and the first downloads again. */
  function Repeated(now: nat): seq<Timed> {
    [Timed(now, OpCreate(Item(1), now)), Timed(now, OpCreate(Item(2), now)), Reserves(now, 1),
     Worker(now, 1, Downloading), Worker(now, 1, Downloaded), Reserves(now, 2), Worker(now, 1, Downloading)]
  }

  /** The member's two tasks and their states; nobody holds an upload slot. */
  ghost predicate Stands(s: Store, first: State, second: State) {
    && s.last == 2 && s.tasks.Keys == {1, 2} && s.slots == {} && s.quotas == OneSlot().quotas
    && s.tasks[1].state == first && s.tasks[2].state == second
    && forall id | id in s.tasks :: Small(s.tasks[id])
  }

  predicate Small(t: Task) {
    t.sender == OWNER && t.mode.Local? && t.size == 1 && t.downloaded == 0 && t.nextRetry == 0 && !t.cancelRequested
  }

  lemma SumOfTwo(m: Measure, s: Store)
    requires s.last == 2
    ensures Total(m, s) == Weight(m, s, 1) + Weight(m, s, 2)
  {
    assert Sum(m, s, 1) == Weight(m, s, 1) by {
      assert Sum(m, s, 0) == 0;
    }
  }

  lemma Arrives(now: nat, c: Calendar)
    ensures Apply(OneSlot(), Repeated(now)[0].op, now, c) == Inserted(OneSlot(), Item(1), now)
  {
  }

  lemma BothArrive(now: nat, c: Calendar)
    ensures Stands(Apply(Inserted(OneSlot(), Item(1), now), Repeated(now)[1].op, now, c), Queued, Queued)
  {
    var s := Inserted(OneSlot(), Item(1), now);
    assert FindDuplicate(s, Item(2), 1) == None by {
      assert FindDuplicate(s, Item(2), 0) == None;
    }
  }

  lemma WorkerStands(s: Store, first: State, second: State, target: State, now: nat, c: Calendar)
    requires Stands(s, first, second) && CanTransition(first, target)
    ensures Stands(Apply(s, Worker(now, 1, target).op, now, c), target, second)
  {
  }

  /** The slot is free while the other task is not active, and budget and disk are no obstacle. */
  lemma MayReserve(s: Store, first: State, second: State, id: int, now: nat)
    requires Stands(s, first, second) && 1 <= id <= 2 && s.tasks[id].state.Queued?
    requires !IsActive(s.tasks[3 - id].state)
    ensures ReserveResult(s, id, now, 9, 9, 0) == Taken(Local)
  {
    SumOfTwo(BusyExcept(OWNER, id), s);
    SumOfTwo(LocalBytes, s);
    SumOfTwo(Growth, s);
  }

  lemma ReserveStands(s: Store, first: State, second: State, id: int, now: nat, c: Calendar)
    requires Stands(s, first, second) && 1 <= id <= 2 && ReserveResult(s, id, now, 9, 9, 0) == Taken(Local)
    ensures var t := Apply(s, Reserves(now, id).op, now, c);
      if id == 1 then Stands(t, Reserved, second) else Stands(t, first, Reserved)
  {
  }

  lemma TakesStep(s: Store, steps: seq<Timed>, i: nat, c: Calendar)
    requires i < |steps|
    ensures Run(s, steps[i..], c) == Run(Apply(s, steps[i].op, steps[i].now, c), steps[i + 1..], c)
  {
    assert steps[i..][1..] == steps[i + 1..];
  }

  /** After the first three steps. */
  lemma Beginning(now: nat, c: Calendar) returns (s: Store)
    ensures Stands(s, Reserved, Queued) && Run(OneSlot(), Repeated(now), c) == Run(s, Repeated(now)[3..], c)
  {
    var steps, a := Repeated(now), Inserted(OneSlot(), Item(1), now);
    Arrives(now, c);
    BothArrive(now, c);
    assert steps[0..] == steps;
    TakesStep(OneSlot(), steps, 0, c);
    TakesStep(a, steps, 1, c);
    var b := Apply(a, steps[1].op, now, c);
    MayReserve(b, Queued, Queued, 1, now);
    ReserveStands(b, Queued, Queued, 1, now, c);
    TakesStep(b, steps, 2, c);
    s := Apply(b, steps[2].op, now, c);
  }

  /** The state before the last step: one task downloaded, the other reserved. */
  lemma BeforeRepeat(now: nat, c: Calendar) returns (s: Store)
    ensures Stands(s, Downloaded, Reserved) && Run(OneSlot(), Repeated(now), c) == Run(s, Repeated(now)[6..], c)
  {
    var steps := Repeated(now);
    var a := Beginning(now, c);
    WorkerStands(a, Reserved, Queued, Downloading, now, c);
    TakesStep(a, steps, 3, c);
    var b := Apply(a, steps[3].op, now, c);
    WorkerStands(b, Downloading, Queued, Downloaded, now, c);
    TakesStep(b, steps, 4, c);
    var d := Apply(b, steps[4].op, now, c);
    MayReserve(d, Downloaded, Queued, 2, now);
    ReserveStands(d, Downloaded, Queued, 2, now, c);
    TakesStep(d, steps, 5, c);
    s := Apply(d, steps[5].op, now, c);
  }

  lemma BothBusy(s: Store)
    requires Stands(s, Downloading, Reserved)
    ensures Total(Busy(OWNER), s) == 2 && !WithinSlots(s, OWNER)
  {
    SumOfTwo(Busy(OWNER), s);
  }

  lemma RepeatIsLast(now: nat, c: Calendar) returns (s: Store)
    ensures Stands(s, Downloaded, Reserved)
    ensures Run(OneSlot(), Repeated(now), c) == Apply(s, Worker(now, 1, Downloading).op, now, c)
  {
    s := BeforeRepeat(now, c);
    assert Repeated(now)[6..] == [Worker(now, 1, Downloading)];
    LastStep(s, Worker(now, 1, Downloading), c);
  }

  lemma LastStep(s: Store, step: Timed, c: Calendar)
    ensures Run(s, [step], c) == Apply(s, step.op, step.now, c)
  {
    assert [step][1..] == [];
  }

  /** Counterexample: a run from an empty database after which a member with a limit of one has two active tasks. */
  lemma RepeatedDownloadOversteps(now: nat, c: Calendar) returns (s: Store)
    ensures s == Run(OneSlot(), Repeated(now), c) && Stands(s, Downloading, Reserved)
    ensures Total(Busy(OWNER), s) == 2 && !WithinSlots(s, OWNER)
  {
    var a := RepeatIsLast(now, c);
    WorkerStands(a, Downloaded, Reserved, Downloading, now, c);
    s := Apply(a, Worker(now, 1, Downloading).op, now, c);
    BothBusy(s);
  }
}

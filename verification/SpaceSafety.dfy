/** Local budget, real disk headroom and member slots over whole runs of the task store. */
module SpaceSafety {
  import opened States
  import opened Text
  import opened TaskStore
  import opened Totals

  // -------------------------------------------------------------- local budget

  ghost predicate StreamsAreStreamed(s: Store) {
    forall id | id in s.tasks :: s.tasks[id].state.Streaming? ==> s.tasks[id].mode.Stream?
  }

  /** The bytes that requeue brings back under the budget by re-adopting a complete local copy. */
  function Adopted(s: Store, op: Op, now: int, c: Calendar): int {
    if op.OpRequeue? && op.requeue.localComplete && RequeueAllowed(s, op.id, op.requeue, now, c)
       && !IsLocal(s.tasks[op.id].state) && s.tasks[op.id].mode.Local?
    then s.tasks[op.id].size else 0
  }

  predicate CountsLocally(t: Task) { IsLocal(t.state) && t.mode.Local? }

  /** The effect brings a file under the local budget. */
  predicate TakesBudget(s: Store, e: Effect) {
    e.Writes? && e.id in s.tasks && CountsLocally(e.row) && !CountsLocally(s.tasks[e.id])
  }

  /** What the budget rests on: reserve alone brings queued tasks in, requeue alone cancelled ones, and stream mode is
    settled before. */
  predicate BudgetGuards(s: Store, op: Op) {
    KeepsMode(s, op) && StreamsByMode(s, op) && ReservesByReserve(s, op) && StaysCancelled(s, op)
  }

  /** How an operation may move one task with respect to the local budget. */
  lemma BudgetMoves(s: Store, op: Op, now: int, c: Calendar)
    requires StreamsAreStreamed(s) && BudgetGuards(s, op)
    ensures var e := EffectOf(s, op, now, c);
      e.Touches? ==> e.id in s.tasks && e.row.state == s.tasks[e.id].state && e.row.mode == s.tasks[e.id].mode
    ensures var e := EffectOf(s, op, now, c);
      e.Writes? ==> e.id in s.tasks && (e.row.state.Streaming? ==> e.row.mode.Stream?)
    ensures var e := EffectOf(s, op, now, c);
      TakesBudget(s, e) ==>
        || (op.OpReserve? && op.id == e.id && Total(LocalBytes, s) + s.tasks[e.id].size <= op.budget)
        || (op.OpRequeue? && op.id == e.id && Adopted(s, op, now, c) == s.tasks[e.id].size)
  {
  }

  lemma AdoptedIsRequeued(s: Store, op: Op, now: int, c: Calendar)
    requires Adopted(s, op, now, c) > 0
    ensures EffectOf(s, op, now, c) == Writes(op.id, RequeuedRow(s.tasks[op.id], op.requeue, now))
  {
  }

  ghost predicate FixedBudget(op: Op, budget: int) { op.OpReserve? ==> op.budget == budget }

  /** One operation: the budget is kept, or the use grows by exactly the size of a re-adopted file. */
  lemma BudgetStep(s: Store, op: Op, now: int, c: Calendar, budget: int)
    requires WellFormed(s) && StreamsAreStreamed(s) && BudgetGuards(s, op) && FixedBudget(op, budget)
    ensures StreamsAreStreamed(Apply(s, op, now, c))
    ensures Adopted(s, op, now, c) > 0 ==>
      Total(LocalBytes, Apply(s, op, now, c)) == Total(LocalBytes, s) + Adopted(s, op, now, c)
    ensures Adopted(s, op, now, c) == 0 ==>
      Total(LocalBytes, Apply(s, op, now, c)) <= Total(LocalBytes, s)
          || Total(LocalBytes, Apply(s, op, now, c)) <= budget
  {
    BudgetMoves(s, op, now, c);
    if Adopted(s, op, now, c) > 0 {
      AdoptedIsRequeued(s, op, now, c);
    }
    ApplyIsEffect(s, op, now, c);
    BudgetAfter(s, EffectOf(s, op, now, c), Apply(s, op, now, c));
  }

  lemma BudgetAfter(s: Store, e: Effect, t: Store)
    requires WellFormed(s) && StreamsAreStreamed(s) && KeepsOwner(s, e) && SameTables(Perform(s, e), t)
    requires e.Touches? ==> e.row.state == s.tasks[e.id].state && e.row.mode == s.tasks[e.id].mode
    requires e.Writes? ==> (e.row.state.Streaming? ==> e.row.mode.Stream?)
    ensures StreamsAreStreamed(t)
    ensures TakesBudget(s, e) ==>
      Total(LocalBytes, t) == Total(LocalBytes, s) + s.tasks[e.id].size
    ensures !TakesBudget(s, e) ==>
      Total(LocalBytes, t) <= Total(LocalBytes, s)
  {
    TotalAfterEffect(LocalBytes, s, e);
    TotalIgnores(LocalBytes, Perform(s, e), t);
  }

  ghost predicate BudgetRun(s: Store, steps: seq<Timed>, c: Calendar, budget: int)
    decreases |steps|
  {
    steps != [] ==>
      && BudgetGuards(s, steps[0].op) && FixedBudget(steps[0].op, budget)
      && BudgetRun(Apply(s, steps[0].op, steps[0].now, c), steps[1..], c, budget)
  }

  function AdoptedOver(s: Store, steps: seq<Timed>, c: Calendar): int
    decreases |steps|
  {
    if steps == [] then 0
    else Adopted(s, steps[0].op, steps[0].now, c) + AdoptedOver(Apply(s, steps[0].op, steps[0].now, c), steps[1..], c)
  }

  /** Local budget: over every run the files under local management fit the budget plus what was re-adopted. */
  lemma {:induction false} BudgetHolds(s: Store, steps: seq<Timed>, c: Calendar, budget: int, adopted: nat)
    requires WellFormed(s) && StreamsAreStreamed(s) && BudgetRun(s, steps, c, budget)
    requires Total(LocalBytes, s) <= budget + adopted
    ensures Total(LocalBytes, Run(s, steps, c)) <= budget + adopted + AdoptedOver(s, steps, c)
    decreases |steps|
  {
    if steps != [] {
      var t := Apply(s, steps[0].op, steps[0].now, c);
      BudgetStep(s, steps[0].op, steps[0].now, c, budget);
      ApplyWellFormed(s, steps[0].op, steps[0].now, c);
      BudgetHolds(t, steps[1..], c, budget, adopted + Adopted(s, steps[0].op, steps[0].now, c));
    }
  }

  // ------------------------------------------------------------- member slots

  /** A worker's step that makes a task of the member active although it was not, holds no slot, and finds none free. */
  predicate Oversteps(s: Store, op: Op, user: int) {
    && op.OpTransition? && op.id in s.tasks && s.tasks[op.id].sender == user
    && CanTransition(s.tasks[op.id].state, op.target) && IsActive(op.target) && !IsActive(s.tasks[op.id].state)
    && op.id !in s.slots && !SlotAvailable(s, user, op.id)
  }

  /** What an operation does to the number of a member's busy tasks, judged at the one task it works on. */
  lemma BusyMoves(s: Store, op: Op, now: int, c: Calendar)
    ensures var e := EffectOf(s, op, now, c);
      e.Touches? ==> e.id in s.tasks && e.row.state == s.tasks[e.id].state
    ensures var e := EffectOf(s, op, now, c);
      e.Writes? && e.id in s.tasks && IsActive(e.row.state) && !Oversteps(s, op, s.tasks[e.id].sender) ==>
        IsActive(s.tasks[e.id].state) || e.id in s.slots || SlotAvailable(s, s.tasks[e.id].sender, e.id)
    ensures var e := EffectOf(s, op, now, c);
      e.TakesSlot? ==> e.id in s.tasks && SlotAvailable(s, s.tasks[e.id].sender, e.id)
  {
  }

  lemma {:induction false} OthersPlusSelf(s: Store, user: int, id: int, n: nat)
    ensures Sum(Busy(user), s, n) ==
      Sum(BusyExcept(user, id), s, n) + if 1 <= id <= n then Weight(Busy(user), s, id) else 0
  {
    if n > 0 {
      OthersPlusSelf(s, user, id, n - 1);
    }
  }

  /** Busy tasks of a member never outnumber a positive max_active. */
  ghost predicate WithinSlots(s: Store, user: int) {
    Limits(s, user).maxActive > 0 ==> Total(Busy(user), s) <= Limits(s, user).maxActive
  }

  lemma SlotsAfter(s: Store, e: Effect, t: Store, user: int)
    requires WellFormed(s) && KeepsOwner(s, e) && SameTables(Perform(s, e), t) && WithinSlots(s, user)
    requires Limits(t, user) == Limits(s, user)
    requires e.Touches? ==> e.row.state == s.tasks[e.id].state
    requires e.Writes? && IsActive(e.row.state) && s.tasks[e.id].sender == user ==>
               IsActive(s.tasks[e.id].state) || e.id in s.slots || SlotAvailable(s, user, e.id)
    requires e.TakesSlot? ==> SlotAvailable(s, s.tasks[e.id].sender, e.id)
    ensures WithinSlots(t, user)
  {
    TotalAfterEffect(Busy(user), s, e);
    TotalIgnores(Busy(user), Perform(s, e), t);
    if e.Writes? || e.TakesSlot? {
      OthersPlusSelf(s, user, e.id, s.last);
    }
  }

  /** An overstepping step puts the member one above the limit. */
  lemma OverstepExceeds(s: Store, op: Op, now: int, c: Calendar, user: int)
    requires WellFormed(s) && Oversteps(s, op, user)
    ensures !WithinSlots(Apply(s, op, now, c), user)
  {
    var e, t := EffectOf(s, op, now, c), Apply(s, op, now, c);
    ApplyIsEffect(s, op, now, c);
    TotalAfterEffect(Busy(user), s, e);
    TotalIgnores(Busy(user), Perform(s, e), t);
    OthersPlusSelf(s, user, op.id, s.last);
  }

  lemma QuotasStay(s: Store, op: Op, now: int, c: Calendar, user: int)
    requires !(op.OpConfigure? && op.user == user)
    ensures Limits(Apply(s, op, now, c), user) == Limits(s, user)
  {
  }

  /** One operation under a fixed limit: the member stays within it exactly if the operation does not overstep. */
  lemma SlotStep(s: Store, op: Op, now: int, c: Calendar, user: int)
    requires WellFormed(s) && WithinSlots(s, user) && !(op.OpConfigure? && op.user == user)
    ensures WithinSlots(Apply(s, op, now, c), user) <==> !Oversteps(s, op, user)
  {
    if Oversteps(s, op, user) {
      OverstepExceeds(s, op, now, c, user);
    } else {
      BusyMoves(s, op, now, c);
      ApplyIsEffect(s, op, now, c);
      QuotasStay(s, op, now, c, user);
      SlotsAfter(s, EffectOf(s, op, now, c), Apply(s, op, now, c), user);
    }
  }

  ghost predicate FixedLimit(steps: seq<Timed>, user: int) {
    forall step | step in steps :: !(step.op.OpConfigure? && step.op.user == user)
  }

  /** The member is within the limit in every state of the run. */
  ghost predicate AlwaysWithin(s: Store, steps: seq<Timed>, c: Calendar, user: int)
    decreases |steps|
  {
    && WithinSlots(s, user)
    && (steps != [] ==> AlwaysWithin(Apply(s, steps[0].op, steps[0].now, c), steps[1..], c, user))
  }

  /** No step of the run oversteps. */
  ghost predicate NeverOversteps(s: Store, steps: seq<Timed>, c: Calendar, user: int)
    decreases |steps|
  {
    steps != [] ==>
      && !Oversteps(s, steps[0].op, user)
      && NeverOversteps(Apply(s, steps[0].op, steps[0].now, c), steps[1..], c, user)
  }

  /** Member concurrency: under a fixed max_active, the tasks of a member that are active or hold an upload slot exceed
    it in no state of a run exactly if no worker makes a task active that holds no slot while none is free. */
  lemma {:induction false} SlotsHold(s: Store, steps: seq<Timed>, c: Calendar, user: int)
    requires WellFormed(s) && WithinSlots(s, user) && FixedLimit(steps, user)
    ensures AlwaysWithin(s, steps, c, user) <==> NeverOversteps(s, steps, c, user)
    decreases |steps|
  {
    if steps != [] {
      var t := Apply(s, steps[0].op, steps[0].now, c);
      SlotStep(s, steps[0].op, steps[0].now, c, user);
      ApplyWellFormed(s, steps[0].op, steps[0].now, c);
      if WithinSlots(t, user) {
        assert FixedLimit(steps[1..], user);
        SlotsHold(t, steps[1..], c, user);
      }
    }
  }

  // ------------------------------------------------------------- disk headroom

  /** The store with the disk under it: free bytes, and the bytes each task's local file takes. */
  datatype World = World(store: Store, free: int, disk: map<int, int>)

  datatype Move =
    | Database(now: int, op: Op)
    | Download(id: int, bytes: nat)   // a growing local task writes to its file
    | Erase(id: int)                  // a task's local file is deleted
    | Freed(bytes: nat)               // unrelated space becomes free

  function Step(w: World, m: Move, c: Calendar): World {
    match m
    case Database(now, op) => w.(store := Apply(w.store, op, now, c))
    case Download(id, bytes) => w.(free := w.free - bytes, disk := w.disk[id := OnDisk(w.disk, id) + bytes])
    case Erase(id) => w.(free := w.free + OnDisk(w.disk, id), disk := w.disk - {id})
    case Freed(bytes) => w.(free := w.free + bytes)
  }

  predicate GrowsLocally(s: Store, id: int) {
    id in s.tasks && IsGrowing(s.tasks[id].state) && s.tasks[id].mode.Local?
  }

  ghost predicate SizesSound(w: World) { forall id | id in w.disk :: w.disk[id] >= 0 }

  /** Recorded progress does not run ahead of the disk. */
  ghost predicate Honest(w: World) {
    forall id | GrowsLocally(w.store, id) :: w.store.tasks[id].downloaded <= OnDisk(w.disk, id)
  }

  /** The environment of the headroom claim: reserve is told at most the true free space and the fixed minimum, over
    recorded progress that is on disk; only growing local tasks write, none beyond its size; and a task re-enters
    downloading only over its complete file. Files may be deleted at any time, before their rows say so. */
  ghost predicate Permitted(w: World, m: Move, minimum: int) {
    match m
    case Database(_, op) =>
      && KeepsMode(w.store, op) && ReservesByReserve(w.store, op)
      && (op.OpReserve? ==> op.free <= w.free && op.minimum == minimum && Honest(w))
      && (op.OpTransition? && op.target.Downloading? && op.id in w.store.tasks
          && w.store.tasks[op.id].state.Downloaded? ==>
            OnDisk(w.disk, op.id) >= w.store.tasks[op.id].size)
    case Download(id, bytes) =>
      GrowsLocally(w.store, id) && OnDisk(w.disk, id) + bytes <= w.store.tasks[id].size
    case Erase(_) => true
    case Freed(_) => true
  }

  /** Free space that remains once every growing local file has been written in full. */
  function Headroom(w: World): int { w.free - Total(Unwritten(w.disk), w.store) }

  lemma GrowthMoves(s: Store, op: Op, now: int, c: Calendar)
    requires KeepsMode(s, op) && ReservesByReserve(s, op)
    ensures var e := EffectOf(s, op, now, c);
      e.Touches? ==> e.id in s.tasks && e.row.state == s.tasks[e.id].state && e.row.mode == s.tasks[e.id].mode
    ensures var e := EffectOf(s, op, now, c);
      e.Writes? && IsGrowing(e.row.state) && e.row.mode.Local? ==>
        && e.id in s.tasks
        && ((IsGrowing(s.tasks[e.id].state) && s.tasks[e.id].mode.Local?)
            || (op.OpReserve? && op.id == e.id && op.free - Total(Growth, s) - s.tasks[e.id].size >= op.minimum)
            || (op.OpTransition? && op.id == e.id && op.target.Downloading? && s.tasks[e.id].state.Downloaded?))
  {
  }

  lemma HeadroomAfterEffect(s: Store, e: Effect, t: Store, disk: map<int, int>)
    requires WellFormed(s) && KeepsOwner(s, e) && SameTables(Perform(s, e), t)
    requires forall id | id in disk :: disk[id] >= 0
    requires e.Touches? ==> e.row.state == s.tasks[e.id].state && e.row.mode == s.tasks[e.id].mode
    ensures !(e.Writes? && IsGrowing(e.row.state) && e.row.mode.Local?) ==>
      Total(Unwritten(disk), t) <= Total(Unwritten(disk), s)
    ensures e.Writes? && GrowsLocally(s, e.id) ==> Total(Unwritten(disk), t) <= Total(Unwritten(disk), s)
    ensures e.Writes? && OnDisk(disk, e.id) >= s.tasks[e.id].size ==>
      Total(Unwritten(disk), t) <= Total(Unwritten(disk), s)
    ensures e.Writes? ==> Total(Unwritten(disk), t) <= Total(Unwritten(disk), s) + s.tasks[e.id].size
  {
    TotalAfterEffect(Unwritten(disk), s, e);
    TotalIgnores(Unwritten(disk), Perform(s, e), t);
  }

  lemma HeadroomOfDatabase(w: World, op: Op, now: int, c: Calendar, minimum: int)
    requires WellFormed(w.store) && SizesSound(w) && Permitted(w, Database(now, op), minimum)
    requires Headroom(w) >= minimum
    ensures Headroom(Step(w, Database(now, op), c)) >= minimum
  {
    var s, e := w.store, EffectOf(w.store, op, now, c);
    GrowthMoves(s, op, now, c);
    ApplyIsEffect(s, op, now, c);
    HeadroomAfterEffect(s, e, Apply(s, op, now, c), w.disk);
    if op.OpReserve? {
      SumAtMost(Unwritten(w.disk), Growth, s, s.last);
    }
  }

  lemma HeadroomOfDownload(w: World, id: int, bytes: nat, c: Calendar, minimum: int)
    requires WellFormed(w.store) && Permitted(w, Download(id, bytes), minimum)
    ensures Headroom(Step(w, Download(id, bytes), c)) == Headroom(w)
  {
    DiskChange(w.store, w.disk, w.disk[id := OnDisk(w.disk, id) + bytes], id, w.store.last);
  }

  lemma HeadroomOfErase(w: World, id: int, c: Calendar)
    requires WellFormed(w.store) && SizesSound(w)
    ensures Headroom(Step(w, Erase(id), c)) >= Headroom(w)
  {
    DiskChange(w.store, w.disk, w.disk - {id}, id, w.store.last);
  }

  lemma {:induction false} DiskChange(s: Store, before: map<int, int>, after: map<int, int>, id: int, n: nat)
    requires forall i | i != id :: OnDisk(after, i) == OnDisk(before, i)
    ensures Sum(Unwritten(after), s, n) ==
      Sum(Unwritten(before), s, n) + if 1 <= id <= n
          then Weight(Unwritten(after), s, id) - Weight(Unwritten(before), s, id) else 0
  {
    if n > 0 {
      DiskChange(s, before, after, id, n - 1);
    }
  }

  function RunWorld(w: World, moves: seq<Move>, c: Calendar): World
    decreases |moves|
  {
    if moves == [] then w else RunWorld(Step(w, moves[0], c), moves[1..], c)
  }

  ghost predicate DiskRun(w: World, moves: seq<Move>, c: Calendar, minimum: int)
    decreases |moves|
  {
    moves != [] ==> Permitted(w, moves[0], minimum) && DiskRun(Step(w, moves[0], c), moves[1..], c, minimum)
  }

  /** Disk headroom: in every interleaving of reservations, transitions, writes and deletions, the space left after all
    admitted files are written in full stays at or above the minimum, so free space itself never crosses it. */
  lemma {:induction false} HeadroomHolds(w: World, moves: seq<Move>, c: Calendar, minimum: int)
    requires WellFormed(w.store) && SizesSound(w) && DiskRun(w, moves, c, minimum) && Headroom(w) >= minimum
    ensures Headroom(RunWorld(w, moves, c)) >= minimum && RunWorld(w, moves, c).free >= minimum
    decreases |moves|
  {
    SumNonNegative(Unwritten(w.disk), w.store, w.store.last);
    if moves != [] {
      match moves[0] {
        case Database(now, op) =>
          HeadroomOfDatabase(w, op, now, c, minimum);
          ApplyWellFormed(w.store, op, now, c);
        case Download(id, bytes) => HeadroomOfDownload(w, id, bytes, c, minimum);
        case Erase(id) => HeadroomOfErase(w, id, c);
        case Freed(_) =>
      }
      HeadroomHolds(Step(w, moves[0], c), moves[1..], c, minimum);
    }
  }
}

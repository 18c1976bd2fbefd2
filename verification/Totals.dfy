/** How the SQL sums move when one row changes. */
module Totals {
  import opened States
  import opened Text
  import opened TaskStore

  /** Two stores that weigh alike except at `k` differ in the sum by the difference at `k`. */
  lemma {:induction false} SumAt(m: Measure, s: Store, t: Store, n: nat, k: int)
    requires forall i | 1 <= i <= n && i != k :: Weight(m, t, i) == Weight(m, s, i)
    ensures Sum(m, t, n) == Sum(m, s, n) + if 1 <= k <= n then Weight(m, t, k) - Weight(m, s, k) else 0
  {
    if n > 0 {
      SumAt(m, s, t, n - 1, k);
    }
  }

  lemma {:induction false} SumAtMost(m: Measure, w: Measure, s: Store, n: nat)
    requires forall i | 1 <= i <= n :: Weight(m, s, i) <= Weight(w, s, i)
    ensures Sum(m, s, n) <= Sum(w, s, n)
  {
    if n > 0 {
      SumAtMost(m, w, s, n - 1);
    }
  }

  lemma {:induction false} SumNonNegative(m: Measure, s: Store, n: nat)
    ensures Sum(m, s, n) >= 0
  {
    if n > 0 {
      SumNonNegative(m, s, n - 1);
    }
  }

  /** A state write moves every sum by the change at the written task alone. */
  lemma TotalAfterWrite(m: Measure, s: Store, id: int, t: Task)
    requires WellFormed(s) && id in s.tasks
    ensures Total(m, StateWrite(s, id, t)) == Total(m, s) - Weight(m, s, id) + Weight(m, StateWrite(s, id, t), id)
  {
    SumAt(m, s, StateWrite(s, id, t), s.last, id);
  }

  lemma TotalAfterPlain(m: Measure, s: Store, id: int, t: Task)
    requires WellFormed(s) && id in s.tasks
    ensures Total(m, PlainWrite(s, id, t)) == Total(m, s) - Weight(m, s, id) + Weight(m, PlainWrite(s, id, t), id)
  {
    SumAt(m, s, PlainWrite(s, id, t), s.last, id);
  }

  lemma TotalAfterSlot(m: Measure, s: Store, id: int)
    requires WellFormed(s) && id in s.tasks
    ensures var r := s.(slots := s.slots + {id}); Total(m, r) == Total(m, s) - Weight(m, s, id) + Weight(m, r, id)
  {
    SumAt(m, s, s.(slots := s.slots + {id}), s.last, id);
  }

  lemma TotalAfterInsert(m: Measure, s: Store, n: NewTask, at: int)
    requires WellFormed(s)
    ensures Total(m, Inserted(s, n, at)) == Total(m, s) + Weight(m, Inserted(s, n, at), s.last + 1)
  {
    SumAt(m, s, Inserted(s, n, at), s.last, s.last + 1);
  }

  /** Only the row tables enter a sum: quotas, retained objects and the histories do not. */
  lemma TotalIgnores(m: Measure, s: Store, t: Store)
    requires t.last == s.last && t.tasks == s.tasks && t.ledger == s.ledger && t.slots == s.slots
    ensures Total(m, t) == Total(m, s)
  {
    SumAt(m, s, t, s.last, 0);
  }

  /** The row tables after an effect. */
  function Perform(s: Store, e: Effect): Store
    requires WellFormed(s) && (e.Writes? || e.Touches? || e.TakesSlot? ==> e.id in s.tasks)
  {
    match e
    case Nothing => s
    case Writes(id, row) => StateWrite(s, id, row)
    case Touches(id, row) => PlainWrite(s, id, row)
    case TakesSlot(id) => s.(slots := s.slots + {id})
    case Inserts(task, at) => Inserted(s, task, at)
  }

  predicate SameTables(s: Store, t: Store) {
    t.last == s.last && t.tasks == s.tasks && t.ledger == s.ledger && t.slots == s.slots
  }

  /** The row an effect writes keeps the task's owner and size. */
  predicate KeepsOwner(s: Store, e: Effect) {
    e.Writes? || e.Touches? || e.TakesSlot? ==>
      && e.id in s.tasks
      && (e.Writes? || e.Touches? ==> e.row.sender == s.tasks[e.id].sender && e.row.size == s.tasks[e.id].size)
  }

  lemma EffectKeepsOwner(s: Store, op: Op, now: int, c: Calendar)
    ensures KeepsOwner(s, EffectOf(s, op, now, c))
  {
  }

  /** Each operation is its effect: nothing else in the row tables moves. */
  lemma ApplyIsEffect(s: Store, op: Op, now: int, c: Calendar)
    requires WellFormed(s)
    ensures KeepsOwner(s, EffectOf(s, op, now, c))
    ensures SameTables(Perform(s, EffectOf(s, op, now, c)), Apply(s, op, now, c))
  {
    EffectKeepsOwner(s, op, now, c);
    match op {
      case OpRequeue(id, r) => RequeueIsEffect(s, id, r, now, c);
      case OpReserve(id, budget, free, minimum) => ReserveIsEffect(s, id, budget, free, minimum, now, c);
      case OpTransition(id, target, patch) => TransitionIsEffect(s, id, target, patch, now, c);
      case _ =>
    }
  }

  lemma ReserveIsEffect(s: Store, id: int, budget: int, free: int, minimum: int, now: int, c: Calendar)
    requires WellFormed(s)
    ensures var e := EffectOf(s, OpReserve(id, budget, free, minimum), now, c);
      KeepsOwner(s, e) && SameTables(Perform(s, e), Apply(s, OpReserve(id, budget, free, minimum), now, c))
  {
    assert SameTables(Perform(s, ReserveEffect(s, id, now, budget, free, minimum)),
        Reserve(s, id, now, budget, free, minimum));
  }

  lemma TransitionIsEffect(s: Store, id: int, target: State, p: Patch, now: int, c: Calendar)
    requires WellFormed(s)
    ensures var e := EffectOf(s, OpTransition(id, target, p), now, c);
      KeepsOwner(s, e) && SameTables(Perform(s, e), Apply(s, OpTransition(id, target, p), now, c))
  {
  }

  lemma RequeueIsEffect(s: Store, id: int, r: RequeueRequest, now: int, c: Calendar)
    requires WellFormed(s)
    ensures KeepsOwner(s, EffectOf(s, OpRequeue(id, r), now, c))
    ensures SameTables(Perform(s, EffectOf(s, OpRequeue(id, r), now, c)), Requeue(s, id, r, now, c))
  {
  }

  lemma WriteWellFormed(s: Store, id: int, t: Task)
    requires WellFormed(s) && id in s.tasks && t.sender == s.tasks[id].sender && t.size == s.tasks[id].size
    ensures WellFormed(StateWrite(s, id, t))
  {
  }

  lemma PerformWellFormed(s: Store, e: Effect)
    requires WellFormed(s) && KeepsOwner(s, e)
    ensures WellFormed(Perform(s, e))
  {
  }

  /** Every operation keeps the tables aligned: ids below the counter, one ledger row per task, no stray slot. */
  lemma ApplyWellFormed(s: Store, op: Op, now: int, c: Calendar)
    requires WellFormed(s)
    ensures WellFormed(Apply(s, op, now, c))
  {
    ApplyIsEffect(s, op, now, c);
    PerformWellFormed(s, EffectOf(s, op, now, c));
  }

  /** No operation takes a task out of the table. */
  lemma TasksStay(s: Store, op: Op, now: int, c: Calendar)
    ensures s.tasks.Keys <= Apply(s, op, now, c).tasks.Keys
  {
  }

  /** An operation moves a sum by the change at the one task it works on. */
  lemma TotalAfterEffect(m: Measure, s: Store, e: Effect)
    requires WellFormed(s) && KeepsOwner(s, e)
    ensures e.Nothing? ==> Total(m, Perform(s, e)) == Total(m, s)
    ensures e.Writes? || e.Touches? || e.TakesSlot? ==>
      Total(m, Perform(s, e)) == Total(m, s) - Weight(m, s, e.id) + Weight(m, Perform(s, e), e.id)
    ensures e.Inserts? ==> Total(m, Perform(s, e)) == Total(m, s) + Weight(m, Perform(s, e), s.last + 1)
  {
    match e
    case Nothing =>
    case Writes(id, row) => TotalAfterWrite(m, s, id, row);
    case Touches(id, row) => TotalAfterPlain(m, s, id, row);
    case TakesSlot(id) => TotalAfterSlot(m, s, id);
    case Inserts(task, at) => TotalAfterInsert(m, s, task, at);
  }
}

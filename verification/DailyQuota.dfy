/** The daily byte quota over whole runs: reserved, charged and released bytes of one member. */
module DailyQuota {
  import opened States
  import opened Text
  import opened TaskStore
  import opened Totals

  /** A ledger row is reserved, charged or released; released means cancelled without a charge. */
  ghost predicate LedgerSound(s: Store) {
    forall id | id in s.ledger && id in s.tasks ::
      s.ledger[id].released <==> s.ledger[id].charged.None? && s.tasks[id].state.Cancelled?
  }

  ghost predicate ChargesPast(s: Store, now: int) {
    forall id | id in s.ledger :: s.ledger[id].charged.Some? ==> s.ledger[id].charged.value <= now
  }

  /** Bytes charged today plus bytes still reserved stay within the member's limit. */
  ghost predicate WithinDay(s: Store, user: int, now: int, c: Calendar) {
    ChargedOn(s, user, now, c) + Total(Held(user), s) <= Limits(s, user).dailyBytes
  }

  ghost predicate Healthy(s: Store, user: int, now: int, c: Calendar) {
    && WellFormed(s) && LedgerSound(s) && ChargesPast(s, now)
    && Limits(s, user).dailyBytes > 0 && WithinDay(s, user, now, c)
  }

  ghost predicate ChargesKept(s: Store, t: Store) {
    forall id | id in s.ledger && s.ledger[id].charged.Some? :: id in t.ledger && t.ledger[id] == s.ledger[id]
  }

  lemma LedgerAfter(s: Store, e: Effect, t: Store)
    requires WellFormed(s) && LedgerSound(s) && KeepsOwner(s, e) && SameTables(Perform(s, e), t)
    requires e.Writes? && s.tasks[e.id].state.Cancelled? ==> !IsCharging(e.row.state)
    requires e.Touches? ==> e.row.state == s.tasks[e.id].state
    ensures LedgerSound(t) && ChargesKept(s, t)
  {
  }

  lemma TouchesKeepState(s: Store, op: Op, now: int, c: Calendar)
    requires EffectOf(s, op, now, c).Touches?
    ensures var e := EffectOf(s, op, now, c); e.id in s.tasks && e.row.state == s.tasks[e.id].state
  {
  }

  /** Each operation keeps the three-way split of the ledger, and a charge once made never changes. */
  lemma LedgerStep(s: Store, op: Op, now: int, c: Calendar)
    requires WellFormed(s) && LedgerSound(s)
    ensures LedgerSound(Apply(s, op, now, c)) && ChargesKept(s, Apply(s, op, now, c))
  {
    ApplyIsEffect(s, op, now, c);
    var e := EffectOf(s, op, now, c);
    if e.Writes? {
      CancelledIsNotCharged(s, op, now, c);
    } else if e.Touches? {
      TouchesKeepState(s, op, now, c);
    }
    LedgerAfter(s, e, Apply(s, op, now, c));
  }

  /** No operation takes a cancelled task straight to a charging state. */
  lemma CancelledIsNotCharged(s: Store, op: Op, now: int, c: Calendar)
    requires EffectOf(s, op, now, c).Writes?
    ensures var e := EffectOf(s, op, now, c);
      e.id in s.tasks && e.row.updatedAt == now && (s.tasks[e.id].state.Cancelled? ==> !IsCharging(e.row.state))
  {
  }

  /** Only requeue brings a cancelled task back, and it admits the task anew. */
  lemma RevivedIsRequeued(s: Store, op: Op, now: int, c: Calendar)
    requires StaysCancelled(s, op) && EffectOf(s, op, now, c).Writes?
    ensures var e := EffectOf(s, op, now, c);
      s.tasks[e.id].state.Cancelled? && !e.row.state.Cancelled? ==>
        op.OpRequeue? && op.id == e.id && RequeueAllowed(s, op.id, op.requeue, now, c)
  {
  }

  /** An operation at which the member's limit stays put and admissions are judged on the current day. */
  ghost predicate JudgedToday(op: Op, user: int, now: int, c: Calendar) {
    && (op.OpCreate? ==> SameDay(c, op.at, now))
    && (op.OpConfigure? ==> op.user != user)
  }

  lemma SameDaySameCharge(s: Store, user: int, at: int, now: int, c: Calendar)
    requires ValidCalendar(c) && SameDay(c, at, now)
    ensures ChargedOn(s, user, at, c) == ChargedOn(s, user, now, c)
  {
  }

  /** The write brings back the reservation of a cancelled task. */
  predicate Revives(s: Store, e: Effect)
    requires e.Writes? && e.id in s.ledger
  {
    s.ledger[e.id].charged.None? && s.ledger[e.id].released && !e.row.state.Cancelled?
  }

  /** A state write that does not revive a released reservation, or revives one that fits, stays within the day. */
  lemma WriteStaysWithin(s: Store, e: Effect, t: Store, user: int, now: int, c: Calendar)
    requires ValidCalendar(c) && Healthy(s, user, now, c) && KeepsOwner(s, e) && e.Writes?
      && SameTables(Perform(s, e), t)
    requires t.quotas == s.quotas && e.row.updatedAt == now
    requires Revives(s, e) && s.ledger[e.id].user == user ==>
               s.ledger[e.id].bytes <= Available(s, user, now, c)
    ensures WithinDay(t, user, now, c) && ChargesPast(t, now)
  {
    var today := ChargedIn(user, c.start(now), c.end(now));
    TotalAfterEffect(today, s, e);
    TotalAfterEffect(Held(user), s, e);
    TotalIgnores(today, Perform(s, e), t);
    TotalIgnores(Held(user), Perform(s, e), t);
  }

  lemma OtherStaysWithin(s: Store, e: Effect, t: Store, user: int, now: int, c: Calendar)
    requires ValidCalendar(c) && Healthy(s, user, now, c) && KeepsOwner(s, e) && !e.Writes?
      && SameTables(Perform(s, e), t)
    requires Limits(t, user) == Limits(s, user)
    requires e.Inserts? && e.task.sender == user ==> e.task.size <= Available(s, user, now, c)
    ensures WithinDay(t, user, now, c) && ChargesPast(t, now)
  {
    var today := ChargedIn(user, c.start(now), c.end(now));
    TotalAfterEffect(today, s, e);
    TotalAfterEffect(Held(user), s, e);
    TotalIgnores(today, Perform(s, e), t);
    TotalIgnores(Held(user), Perform(s, e), t);
  }

  /** What admission checked. */
  lemma AdmissionChecked(s: Store, op: Op, now: int, c: Calendar)
    requires EffectOf(s, op, now, c).Inserts?
    ensures op.OpCreate? && EffectOf(s, op, now, c) == Inserts(op.task, op.at)
    ensures Admits(s, op.task.sender, op.task.size, op.at, c, None)
  {
  }

  /** Only configure touches the limits, and it touches nothing else. */
  lemma LimitsStay(s: Store, op: Op, now: int, c: Calendar)
    ensures Apply(s, op, now, c).quotas == if op.OpConfigure? then s.quotas[op.user := op.quota] else s.quotas
    ensures op.OpConfigure? ==> EffectOf(s, op, now, c).Nothing?
  {
  }

  lemma StepStaysWithin(s: Store, op: Op, user: int, now: int, c: Calendar)
    requires ValidCalendar(c) && Healthy(s, user, now, c) && StaysCancelled(s, op) && JudgedToday(op, user, now, c)
    ensures Healthy(Apply(s, op, now, c), user, now, c)
  {
    var e, t := EffectOf(s, op, now, c), Apply(s, op, now, c);
    ApplyIsEffect(s, op, now, c);
    ApplyWellFormed(s, op, now, c);
    LedgerStep(s, op, now, c);
    LimitsStay(s, op, now, c);
    if e.Writes? {
      CancelledIsNotCharged(s, op, now, c);
      RevivedIsRequeued(s, op, now, c);
      WriteStaysWithin(s, e, t, user, now, c);
    } else {
      if e.Inserts? {
        AdmissionChecked(s, op, now, c);
        SameDaySameCharge(s, op.task.sender, op.at, now, c);
      }
      OtherStaysWithin(s, e, t, user, now, c);
    }
  }

  /** When the clock moves on, yesterday's charges leave the sum and nothing enters it. */
  lemma DayPasses(s: Store, user: int, now: int, later: int, c: Calendar)
    requires ValidCalendar(c) && Healthy(s, user, now, c) && now <= later
    ensures Healthy(s, user, later, c)
  {
    if SameDay(c, later, now) {
      SameDaySameCharge(s, user, later, now, c);
    } else {
      NothingChargedYet(s, user, c.start(later), c.end(later), now, s.last);
      SumNonNegative(ChargedIn(user, c.start(now), c.end(now)), s, s.last);
    }
  }

  lemma {:induction false} NothingChargedYet(s: Store, user: int, lo: int, hi: int, now: int, n: nat)
    requires ChargesPast(s, now) && now < lo
    ensures Sum(ChargedIn(user, lo, hi), s, n) == 0
  {
    if n > 0 {
      NothingChargedYet(s, user, lo, hi, now, n - 1);
    }
  }

  // ----------------------------------------------------------------------- runs

  /** A run under a monotone clock whose workers leave cancelled tasks alone and whose admissions are judged today. */
  ghost predicate QuotaRun(s: Store, now: int, steps: seq<Timed>, user: int, c: Calendar)
    decreases |steps|
  {
    steps != [] ==>
      && now <= steps[0].now
      && StaysCancelled(s, steps[0].op) && JudgedToday(steps[0].op, user, steps[0].now, c)
      && QuotaRun(Apply(s, steps[0].op, steps[0].now, c), steps[0].now, steps[1..], user, c)
  }

  function LastTime(now: int, steps: seq<Timed>): int {
    if steps == [] then now else steps[|steps| - 1].now
  }

  lemma {:induction false} HealthOverRun(s: Store, now: int, steps: seq<Timed>, user: int, c: Calendar)
    requires ValidCalendar(c) && Healthy(s, user, now, c) && QuotaRun(s, now, steps, user, c)
    ensures Healthy(Run(s, steps, c), user, LastTime(now, steps), c)
    decreases |steps|
  {
    if steps != [] {
      DayPasses(s, user, now, steps[0].now, c);
      StepStaysWithin(s, steps[0].op, user, steps[0].now, c);
      HealthOverRun(Apply(s, steps[0].op, steps[0].now, c), steps[0].now, steps[1..], user, c);
    }
  }

  /** Daily quota: from an empty database, in every state any such run reaches and at every later instant, the bytes
    a limited member has been charged today plus the bytes reserved for unfinished tasks are within the limit. */
  lemma DailyQuotaHolds(quotas: map<int, Quota>, now: int, steps: seq<Timed>, user: int, later: int, c: Calendar)
    requires ValidCalendar(c) && user in quotas && quotas[user].dailyBytes > 0
    requires QuotaRun(EMPTY.(quotas := quotas), now, steps, user, c) && LastTime(now, steps) <= later
    ensures var s := Run(EMPTY.(quotas := quotas), steps, c);
      LedgerSound(s) && ChargedOn(s, user, later, c) + Total(Held(user), s) <= Limits(s, user).dailyBytes
  {
    var s := EMPTY.(quotas := quotas);
    HealthOverRun(s, now, steps, user, c);
    DayPasses(Run(s, steps, c), user, LastTime(now, steps), later, c);
  }

  /** Charged at most once: through cancel, retry, restart and day change every ledger row stays exactly one of
    reserved, charged and released, and a charged row stays as it was charged. */
  lemma {:induction false} ChargedOnce(s: Store, steps: seq<Timed>, c: Calendar)
    requires WellFormed(s) && LedgerSound(s)
    ensures LedgerSound(Run(s, steps, c)) && ChargesKept(s, Run(s, steps, c))
    decreases |steps|
  {
    if steps != [] {
      LedgerStep(s, steps[0].op, steps[0].now, c);
      ApplyWellFormed(s, steps[0].op, steps[0].now, c);
      ChargedOnce(Apply(s, steps[0].op, steps[0].now, c), steps[1..], c);
    }
  }

  // --------------------------------------------- admission judged on another day

  /** Admitting at `at` while the clock reads `now` never pushes a healthy member over the limit. */
  ghost predicate AdmissionSafe(at: int, now: int, c: Calendar) {
    forall s: Store, n: NewTask ::
      Healthy(s, n.sender, now, c) ==> WithinDay(Create(s, n, at, c), n.sender, now, c)
  }

  /** The same for the states that runs, begun at any time, have reached by `now` from a database without tasks. */
  ghost predicate AdmissionSafeInRuns(at: int, now: int, c: Calendar) {
    forall quotas: map<int, Quota>, begun: int, steps: seq<Timed>, n: NewTask ::
      ReachedBy(quotas, begun, steps, n.sender, now, c) ==>
        WithinDay(Create(Run(EMPTY.(quotas := quotas), steps, c), n, at, c), n.sender, now, c)
  }

  ghost predicate ReachedBy(quotas: map<int, Quota>, begun: int, steps: seq<Timed>, user: int, now: int, c: Calendar) {
    && user in quotas && quotas[user].dailyBytes > 0
    && QuotaRun(EMPTY.(quotas := quotas), begun, steps, user, c) && LastTime(begun, steps) <= now
  }

  /** Plans.submit admits at the plan's own creation time. The limit survives that exactly when the plan was created
    on the current day, be it over all healthy states or over those that runs reach: on any other day a member whose
    quota is used up today is admitted again. */
  lemma AdmissionDayDecides(at: int, now: int, c: Calendar)
    requires ValidCalendar(c)
    ensures AdmissionSafe(at, now, c) <==> SameDay(c, at, now)
    ensures AdmissionSafeInRuns(at, now, c) <==> SameDay(c, at, now)
  {
    if SameDay(c, at, now) {
      forall s: Store, n: NewTask | Healthy(s, n.sender, now, c)
        ensures WithinDay(Create(s, n, at, c), n.sender, now, c)
      {
        StepStaysWithin(s, OpCreate(n, at), n.sender, now, c);
      }
      SafeInRuns(at, now, c);
    } else {
      UsedUpAdmitsAgain(at, now, c);
      var s, n := Run(OneByte(), UsingUp(now), c), Item(2);
      assert Healthy(s, n.sender, now, c) && !WithinDay(Create(s, n, at, c), n.sender, now, c);
      assert OneByte() == EMPTY.(quotas := map[7 := Quota(1, 0, 0)]);
      assert ReachedBy(map[7 := Quota(1, 0, 0)], now, UsingUp(now), n.sender, now, c);
    }
  }

  lemma SafeInRuns(at: int, now: int, c: Calendar)
    requires ValidCalendar(c) && AdmissionSafe(at, now, c)
    ensures AdmissionSafeInRuns(at, now, c)
  {
    forall quotas: map<int, Quota>, begun: int, steps: seq<Timed>, n: NewTask |
        ReachedBy(quotas, begun, steps, n.sender, now, c)
      ensures WithinDay(Create(Run(EMPTY.(quotas := quotas), steps, c), n, at, c), n.sender, now, c)
    {
      var s := EMPTY.(quotas := quotas);
      HealthOverRun(s, begun, steps, n.sender, c);
      DayPasses(Run(s, steps, c), n.sender, LastTime(begun, steps), now, c);
    }
  }

  /** Member 7 may send one byte a day. */
  function OneByte(): Store { EMPTY.(quotas := map[7 := Quota(1, 0, 0)]) }

  function Item(message: int): NewTask { NewTask(1, message, 7, None, [], 1, Bot, None, true) }

  const NO_CHANGE :=
    Patch(Keep, Keep, Keep, Keep, Keep, Keep, Keep, Keep, Keep, Keep, Keep, Keep, Keep, Keep, Keep, Keep)

  /** A worker's report that the uploaded file has the right size. */
  function Verified(now: int): Patch {
    NO_CHANGE.(verification := To(Some("size")), verifiedAt := To(Some(now)))
  }

  function Ready(now: int): Patch {
    NO_CHANGE.(nextRetry := To(now))
  }

  /** The member's byte is created, due, reserved and found complete at the destination, all at one instant. */
  function UsingUp(now: int): seq<Timed> {
    [Timed(now, OpCreate(Item(1), now)), Timed(now, OpProgress(1, Ready(now))), Timed(now, OpReserve(1, 1, 1, 0)),
     Timed(now, OpTransition(1, CleanupPending, Verified(now)))]
  }

  /** The store after the first two steps. */
  function Due(now: int): Store {
    var s := Inserted(OneByte(), Item(1), now);
    PlainWrite(s, 1, Patched(s.tasks[1], Ready(now), now))
  }

  lemma SumOfOne(m: Measure, s: Store)
    requires s.last <= 1
    ensures Total(m, s) == if s.last == 0 then 0 else Weight(m, s, 1)
  {
    assert Sum(m, s, 0) == 0;
  }

  lemma UsingUpCreates(now: int, c: Calendar)
    requires ValidCalendar(c)
    ensures Apply(OneByte(), OpCreate(Item(1), now), now, c) == Inserted(OneByte(), Item(1), now)
  {
    SumOfOne(ChargedIn(7, c.start(now), c.end(now)), OneByte());
    SumOfOne(Held(7), OneByte());
    SumOfOne(Waiting(7), OneByte());
  }

  lemma UsingUpReserves(now: int, c: Calendar)
    ensures Apply(Due(now), OpReserve(1, 1, 1, 0), now, c)
      == StateWrite(Due(now), 1, ReservedRow(Due(now).tasks[1], Local, now))
  {
    var s := Due(now);
    SumOfOne(LocalBytes, s);
    SumOfOne(Growth, s);
  }

  lemma UsingUpCharges(now: int, c: Calendar)
    ensures var d := StateWrite(Due(now), 1, ReservedRow(Due(now).tasks[1], Local, now));
      var e := Apply(d, OpTransition(1, CleanupPending, Verified(now)), now, c);
      && StaysCancelled(d, OpTransition(1, CleanupPending, Verified(now)))
      && ByteCharged(e, now)
  {
    assert CanTransition(Reserved, CleanupPending);
  }

  lemma RunOfTwo(s: Store, now: int, first: Timed, rest: seq<Timed>, mid: Store, end: Store, user: int, c: Calendar)
    requires now <= first.now && StaysCancelled(s, first.op) && JudgedToday(first.op, user, first.now, c)
    requires mid == Apply(s, first.op, first.now, c) && Run(mid, rest, c) == end
      && QuotaRun(mid, first.now, rest, user, c)
    ensures Run(s, [first] + rest, c) == end && QuotaRun(s, now, [first] + rest, user, c)
  {
    assert ([first] + rest)[1..] == rest;
  }

  /** The last step of the run, and the last two. */
  lemma UsingUpEnds(now: int, c: Calendar) returns (end: Store)
    requires ValidCalendar(c)
    ensures var u := UsingUp(now);
      Run(Due(now), [u[2], u[3]], c) == end && QuotaRun(Due(now), now, [u[2], u[3]], 7, c)
    ensures ByteCharged(end, now)
  {
    var u, b := UsingUp(now), Due(now);
    var d := StateWrite(b, 1, ReservedRow(b.tasks[1], Local, now));
    end := Apply(d, u[3].op, now, c);
    UsingUpReserves(now, c);
    UsingUpCharges(now, c);
    RunOfTwo(d, now, u[3], [], end, end, 7, c);
    RunOfTwo(b, now, u[2], [u[3]] + [], d, end, 7, c);
    assert [u[2], u[3]] == [u[2]] + ([u[3]] + []);
  }

  /** The run is one the code can take, and it ends with the byte charged. */
  lemma UsingUpRuns(now: int, c: Calendar)
    requires ValidCalendar(c)
    ensures QuotaRun(OneByte(), now, UsingUp(now), 7, c)
    ensures ByteCharged(Run(OneByte(), UsingUp(now), c), now)
  {
    var u, a := UsingUp(now), Inserted(OneByte(), Item(1), now);
    UsingUpCreates(now, c);
    var end := UsingUpEnds(now, c);
    RunOfTwo(a, now, u[1], [u[2], u[3]], Due(now), end, 7, c);
    RunOfTwo(OneByte(), now, u[0], [u[1]] + [u[2], u[3]], a, end, 7, c);
    assert u == [u[0]] + ([u[1]] + [u[2], u[3]]);
  }

  /** The member's one byte is charged. */
  predicate ByteCharged(s: Store, now: int) {
    && s.last == 1 && 1 in s.tasks && s.tasks[1].chat == 1 && s.tasks[1].message == 1 && s.tasks[1].mediaKey == None
    && s.tasks[1].state.CleanupPending? && s.ledger == map[1 := Ledger(7, 1, Some(now), false)]
    && s.quotas == OneByte().quotas
  }

  /** On the same day the member is full; judged on another day the next byte is admitted all the same. */
  lemma FullMember(s: Store, at: int, now: int, c: Calendar)
    requires ValidCalendar(c) && !SameDay(c, at, now) && WellFormed(s) && ByteCharged(s, now)
    ensures CreateResult(s, Item(2), now, c) == QuotaExceeded
    ensures CreateResult(s, Item(2), at, c) == Fresh(2) && !WithinDay(Create(s, Item(2), at, c), 7, now, c)
  {
    SumOfOne(ChargedIn(7, c.start(now), c.end(now)), s);
    SumOfOne(ChargedIn(7, c.start(at), c.end(at)), s);
    SumOfOne(Held(7), s);
    SumOfOne(Waiting(7), s);
    assert FindDuplicate(s, Item(2), 1) == None by {
      assert FindDuplicate(s, Item(2), 0) == None;
    }
    TotalAfterInsert(ChargedIn(7, c.start(now), c.end(now)), s, Item(2), at);
    TotalAfterInsert(Held(7), s, Item(2), at);
  }

  /** Counterexample: a run from an empty database uses the member up; a plan of another day is admitted all the
    same. */
  lemma UsedUpAdmitsAgain(at: int, now: int, c: Calendar)
    requires ValidCalendar(c) && !SameDay(c, at, now)
    ensures var s := Run(OneByte(), UsingUp(now), c);
      && QuotaRun(OneByte(), now, UsingUp(now), 7, c) && Healthy(s, 7, now, c)
      && CreateResult(s, Item(2), now, c) == QuotaExceeded
      && CreateResult(s, Item(2), at, c) == Fresh(2) && !WithinDay(Create(s, Item(2), at, c), 7, now, c)
  {
    UsingUpRuns(now, c);
    EmptyIsHealthy(now, c);
    HealthOverRun(OneByte(), now, UsingUp(now), 7, c);
    FullMember(Run(OneByte(), UsingUp(now), c), at, now, c);
  }

  lemma EmptyIsHealthy(now: int, c: Calendar)
    ensures Healthy(OneByte(), 7, now, c)
  {
    SumOfOne(ChargedIn(7, c.start(now), c.end(now)), OneByte());
    SumOfOne(Held(7), OneByte());
  }
}

/**
 * What a shop owes each month: src/billing/pricing-rules.ts and the period and plan steps of
 * src/billing/billing.service.ts. There is no prorating: a period remembers the highest fees it saw,
 * at the unit prices frozen when it opened. Amounts and counts are whole MRU and whole numbers.
 */
module Billing {
  import opened Prelude

  type Time = int

  type Company = nat

  datatype Pricing = Pricing(branchMonthly: int, includedStaffPerBranch: int, extraStaffMonthly: int)

  datatype Size = Size(activeBranchCount: int, activeStaffCount: int)

  // ---------------------------------------------------------------- pricing-rules.ts

  function Max(a: int, b: int): int {
    if a >= b then a else b
  }

  function Whole(n: int): nat {
    Max(0, n)
  }

  function BranchFee(size: Size, plan: Pricing): (fee: int)
    ensures fee >= 0
  {
    Whole(size.activeBranchCount) * Whole(plan.branchMonthly)
  }

  function IncludedStaff(size: Size, plan: Pricing): int {
    Whole(size.activeBranchCount) * Whole(plan.includedStaffPerBranch)
  }

  function ChargeableStaff(size: Size, plan: Pricing): nat {
    Max(0, Whole(size.activeStaffCount) - IncludedStaff(size, plan))
  }

  function StaffFee(size: Size, plan: Pricing): (fee: int)
    ensures fee >= 0
  {
    ChargeableStaff(size, plan) * Whole(plan.extraStaffMonthly)
  }

  datatype Fees = Fees(branch: int, staff: int) {
    function Total(): int {
      branch + staff
    }
  }

  function QuoteFor(size: Size, plan: Pricing): Fees {
    Fees(BranchFee(size, plan), StaffFee(size, plan))
  }

  /** The high-water mark, component by component. */
  function AssessPeriod(size: Size, prior: Fees, plan: Pricing): Fees {
    var q := QuoteFor(size, plan);
    Fees(Max(Whole(prior.branch), q.branch), Max(Whole(prior.staff), q.staff))
  }

  function AddedThisPeriod(assessed: Fees, prior: Fees): int {
    Max(0, assessed.Total() - (Whole(prior.branch) + Whole(prior.staff)))
  }

  // ---------------------------------------------------------------- what a quote is

  lemma Distributes(a: int, b: int, c: int)
    ensures (a + b) * c == a * c + b * c
  {
  }

  /** A plan as it can be scheduled. */
  predicate IsPlan(plan: Pricing) {
    plan.branchMonthly >= 0 && plan.includedStaffPerBranch >= 0 && plan.extraStaffMonthly >= 0
  }

  /** No branch costs nothing, and each branch costs its monthly price, whatever the staff. */
  lemma BranchesCostTheirPrice(n: nat, staff: int, plan: Pricing)
    requires IsPlan(plan)
    ensures BranchFee(Size(0, staff), plan) == 0
    ensures BranchFee(Size(n + 1, staff), plan) == BranchFee(Size(n, staff), plan) + plan.branchMonthly
  {
    Distributes(n, 1, plan.branchMonthly);
  }

  /** The allowance is a pool: each branch adds its included accounts to it. */
  lemma BranchesPoolTheirAllowance(n: nat, staff: int, plan: Pricing)
    requires IsPlan(plan)
    ensures IncludedStaff(Size(0, staff), plan) == 0
    ensures IncludedStaff(Size(n + 1, staff), plan) == IncludedStaff(Size(n, staff), plan) + plan.includedStaffPerBranch
  {
    Distributes(n, 1, plan.includedStaffPerBranch);
  }

  /** Staff within the pool of all branches cost nothing, and each one beyond it costs the extra price. */
  lemma StaffBeyondThePoolCost(n: nat, staff: nat, plan: Pricing)
    requires IsPlan(plan)
    ensures staff <= n * plan.includedStaffPerBranch ==> StaffFee(Size(n, staff), plan) == 0
    ensures staff >= n * plan.includedStaffPerBranch ==>
              StaffFee(Size(n, staff + 1), plan) == StaffFee(Size(n, staff), plan) + plan.extraStaffMonthly
  {
    var over := ChargeableStaff(Size(n, staff), plan);
    Distributes(over, 1, plan.extraStaffMonthly);
  }

  /** A count below zero is taken for zero. */
  lemma CountsBelowZero(size: Size, plan: Pricing)
    ensures QuoteFor(size, plan) == QuoteFor(Size(Max(0, size.activeBranchCount), Max(0, size.activeStaffCount)), plan)
  {
  }

  // ---------------------------------------------------------------- the rows

  datatype PlanVersion = PlanVersion(version: nat, prices: Pricing, effectiveFrom: Time)

  /** Counts are those of the last write that raised the fees. */
  datatype Period = Period(company: Company, start: Time, prices: Pricing, counts: Size, included: int, chargeable: int,
                           assessed: Fees, assessedTotal: int)

  datatype Db = Db(plans: seq<PlanVersion>, periods: seq<Period>)

  // ---------------------------------------------------------------- planAt

  function Insert(rows: seq<PlanVersion>, p: PlanVersion): seq<PlanVersion> {
    if rows == [] || rows[|rows| - 1].effectiveFrom <= p.effectiveFrom then rows + [p]
    else Insert(rows[..|rows| - 1], p) + [rows[|rows| - 1]]
  }

  /** Ordered by the moment they take effect, earlier rows first among equals. */
  function Ordered(plans: seq<PlanVersion>): seq<PlanVersion> {
    if plans == [] then [] else Insert(Ordered(plans[..|plans| - 1]), plans[|plans| - 1])
  }

  function Past(rows: seq<PlanVersion>, when: Time): seq<PlanVersion> {
    if rows == [] then []
    else if rows[|rows| - 1].effectiveFrom <= when then Past(rows[..|rows| - 1], when) + [rows[|rows| - 1]]
    else Past(rows[..|rows| - 1], when)
  }

  function Future(rows: seq<PlanVersion>, when: Time): seq<PlanVersion> {
    if rows == [] then []
    else if rows[|rows| - 1].effectiveFrom > when then Future(rows[..|rows| - 1], when) + [rows[|rows| - 1]]
    else Future(rows[..|rows| - 1], when)
  }

  datatype PlanView = PlanView(current: PlanVersion, upcoming: Option<PlanVersion>)

  function Current(rows: seq<PlanVersion>, past: seq<PlanVersion>): PlanVersion
    requires rows != []
  {
    if past != [] then past[|past| - 1] else rows[0]
  }

  function Upcoming(future: seq<PlanVersion>): Option<PlanVersion> {
    if future != [] then Some(future[0]) else None
  }

  function PlanAt(plans: seq<PlanVersion>, when: Time): Option<PlanView> {
    var rows := Ordered(plans);
    if rows == [] then None
    else Some(PlanView(Current(rows, Past(rows, when)), Upcoming(Future(rows, when))))
  }

  predicate InForce(plans: seq<PlanVersion>, when: Time) {
    exists i :: 0 <= i < |plans| && plans[i].effectiveFrom <= when
  }

  ghost predicate Sorted(rows: seq<PlanVersion>) {
    forall i, j :: 0 <= i < j < |rows| ==> rows[i].effectiveFrom <= rows[j].effectiveFrom
  }

  lemma {:induction false} InsertHolds(rows: seq<PlanVersion>, p: PlanVersion, q: PlanVersion)
    ensures q in Insert(rows, p) <==> q in rows || q == p
  {
    if rows != [] && rows[|rows| - 1].effectiveFrom > p.effectiveFrom {
      var last := |rows| - 1;
      InsertHolds(rows[..last], p, q);
      assert rows == rows[..last] + [rows[last]];
    }
  }

  lemma {:induction false} InsertSorted(rows: seq<PlanVersion>, p: PlanVersion)
    requires Sorted(rows)
    ensures Sorted(Insert(rows, p))
  {
    if rows != [] && rows[|rows| - 1].effectiveFrom > p.effectiveFrom {
      var last := |rows| - 1;
      var inner := Insert(rows[..last], p);
      InsertSorted(rows[..last], p);
      forall i | 0 <= i < |inner|
        ensures inner[i].effectiveFrom <= rows[last].effectiveFrom
      {
        InsertHolds(rows[..last], p, inner[i]);
      }
    }
  }

  lemma {:induction false} OrderedSorts(plans: seq<PlanVersion>)
    ensures Sorted(Ordered(plans))
  {
    if plans != [] {
      OrderedSorts(plans[..|plans| - 1]);
      InsertSorted(Ordered(plans[..|plans| - 1]), plans[|plans| - 1]);
    }
  }

  lemma {:induction false} OrderedHolds(plans: seq<PlanVersion>, q: PlanVersion)
    ensures q in Ordered(plans) <==> q in plans
  {
    if plans != [] {
      var last := |plans| - 1;
      OrderedHolds(plans[..last], q);
      InsertHolds(Ordered(plans[..last]), plans[last], q);
      assert plans == plans[..last] + [plans[last]];
    }
  }

  ghost predicate Split(rows: seq<PlanVersion>, past: seq<PlanVersion>, future: seq<PlanVersion>, when: Time) {
    && rows == past + future
    && (forall i :: 0 <= i < |past| ==> past[i].effectiveFrom <= when)
    && (forall i :: 0 <= i < |future| ==> future[i].effectiveFrom > when)
  }

  /** A sorted list is its past followed by its future. */
  lemma {:induction false} SplitAt(rows: seq<PlanVersion>, when: Time)
    requires Sorted(rows)
    ensures Split(rows, Past(rows, when), Future(rows, when), when)
  {
    if rows != [] {
      var last := |rows| - 1;
      var past, future := Past(rows[..last], when), Future(rows[..last], when);
      SplitAt(rows[..last], when);
      SplitSnoc(rows, past, future, when);
    }
  }

  lemma SplitSnoc(rows: seq<PlanVersion>, past: seq<PlanVersion>, future: seq<PlanVersion>, when: Time)
    requires Sorted(rows) && rows != [] && Split(rows[..|rows| - 1], past, future, when)
    ensures var row := rows[|rows| - 1];
            if row.effectiveFrom <= when then Split(rows, past + [row], future, when) else Split(rows, past, future + [row], when)
  {
    var last := |rows| - 1;
    assert rows == rows[..last] + [rows[last]];
    assert future != [] ==> rows[|past|] == future[0];
  }

  lemma CurrentSpec(rows: seq<PlanVersion>, past: seq<PlanVersion>, future: seq<PlanVersion>, when: Time)
    requires rows != [] && Sorted(rows) && Split(rows, past, future, when)
    ensures var current := Current(rows, past);
            && current in rows
            && (past != [] ==> current.effectiveFrom <= when)
            && (forall p :: p in rows && p.effectiveFrom <= when ==> past != [] && p.effectiveFrom <= current.effectiveFrom)
            && (past == [] ==> forall p :: p in rows ==> current.effectiveFrom <= p.effectiveFrom)
  {
    var n := |past|;
    assert n > 0 ==> rows[n - 1] == past[n - 1];
    assert forall j :: n <= j < |rows| ==> rows[j] == future[j - n];
    forall p | p in rows && p.effectiveFrom <= when
      ensures n > 0 && p.effectiveFrom <= past[n - 1].effectiveFrom
    {
      var i :| 0 <= i < |rows| && rows[i] == p;
    }
  }

  lemma UpcomingSpec(rows: seq<PlanVersion>, past: seq<PlanVersion>, future: seq<PlanVersion>, when: Time)
    requires Sorted(rows) && Split(rows, past, future, when)
    ensures Upcoming(future).Some? ==> Upcoming(future).value in rows && Upcoming(future).value.effectiveFrom > when
    ensures forall p :: p in rows && p.effectiveFrom > when ==>
                          Upcoming(future).Some? && Upcoming(future).value.effectiveFrom <= p.effectiveFrom
  {
    var n := |past|;
    assert future != [] ==> rows[n] == future[0];
    assert forall j :: 0 <= j < n ==> rows[j] == past[j];
    forall p | p in rows && p.effectiveFrom > when
      ensures future != [] && future[0].effectiveFrom <= p.effectiveFrom
    {
      var i :| 0 <= i < |rows| && rows[i] == p;
    }
  }

  /**
   * What planAt answers: the plan in force is the latest one to have taken effect, or the earliest of all when
   * none has; the upcoming one is the earliest still to come, if any is.
   */
  lemma PlanAtSpec(plans: seq<PlanVersion>, when: Time)
    requires plans != []
    ensures PlanAt(plans, when).Some?
    ensures var current := PlanAt(plans, when).value.current;
            && current in plans
            && (InForce(plans, when) ==> current.effectiveFrom <= when)
            && (forall p :: p in plans && p.effectiveFrom <= when ==> p.effectiveFrom <= current.effectiveFrom)
            && (!InForce(plans, when) ==> forall p :: p in plans ==> current.effectiveFrom <= p.effectiveFrom)
    ensures var upcoming := PlanAt(plans, when).value.upcoming;
            && (upcoming.Some? ==> upcoming.value in plans && upcoming.value.effectiveFrom > when)
            && (forall p :: p in plans && p.effectiveFrom > when ==>
                              upcoming.Some? && upcoming.value.effectiveFrom <= p.effectiveFrom)
  {
    var rows := Ordered(plans);
    OrderedSorts(plans);
    forall q
      ensures q in rows <==> q in plans
    {
      OrderedHolds(plans, q);
    }
    assert plans[0] in rows;
    SplitAt(rows, when);
    CurrentSpec(rows, Past(rows, when), Future(rows, when), when);
    UpcomingSpec(rows, Past(rows, when), Future(rows, when), when);
    InForceIff(plans, when);
  }

  lemma InForceIff(plans: seq<PlanVersion>, when: Time)
    ensures InForce(plans, when) <==> Past(Ordered(plans), when) != []
  {
    var rows := Ordered(plans);
    var past, future := Past(rows, when), Future(rows, when);
    OrderedSorts(plans);
    SplitAt(rows, when);
    if past != [] {
      assert rows[0] == past[0];
      OrderedHolds(plans, rows[0]);
    }
    if i :| 0 <= i < |plans| && plans[i].effectiveFrom <= when {
      OrderedHolds(plans, plans[i]);
      CurrentSpec(rows, past, future, when);
    }
  }

  // ---------------------------------------------------------------- scheduling

  function MaxVersion(plans: seq<PlanVersion>): (v: nat)
    ensures forall i :: 0 <= i < |plans| ==> plans[i].version <= v
  {
    if plans == [] then 0 else Max(MaxVersion(plans[..|plans| - 1]), plans[|plans| - 1].version)
  }

  function ApplySchedule(db: Db, prices: Pricing, effectiveFrom: Time, reasonGiven: bool, now: Time): (Db, Outcome) {
    if effectiveFrom <= now || !reasonGiven then (db, Refused(BadRequest))
    else if prices.branchMonthly < 0 || prices.includedStaffPerBranch < 0 || prices.extraStaffMonthly < 0 then
      (db, Refused(BadRequest))
    else (db.(plans := db.plans + [PlanVersion(MaxVersion(db.plans) + 1, prices, effectiveFrom)]), Done)
  }

  lemma {:induction false} PastIgnoresLater(rows: seq<PlanVersion>, p: PlanVersion, when: Time)
    requires p.effectiveFrom > when
    ensures Past(Insert(rows, p), when) == Past(rows, when)
  {
    var rows' := Insert(rows, p);
    if rows == [] || rows[|rows| - 1].effectiveFrom <= p.effectiveFrom {
      assert rows'[..|rows|] == rows;
    } else {
      PastIgnoresLater(rows[..|rows| - 1], p, when);
      assert rows'[..|rows'| - 1] == Insert(rows[..|rows| - 1], p);
    }
  }

  lemma {:induction false} InsertHead(rows: seq<PlanVersion>, p: PlanVersion)
    requires Sorted(rows) && rows != []
    ensures Insert(rows, p) != [] && Insert(rows, p)[0] == if rows[0].effectiveFrom <= p.effectiveFrom then rows[0] else p
  {
    if rows[|rows| - 1].effectiveFrom > p.effectiveFrom && |rows| > 1 {
      InsertHead(rows[..|rows| - 1], p);
    }
  }

  lemma FirstIsEarliest(plans: seq<PlanVersion>, from: Time)
    requires plans != []
    ensures Ordered(plans) != [] && Ordered(plans)[0] in plans
    ensures Ordered(plans)[0].effectiveFrom <= from <==> InForce(plans, from)
  {
    var rows := Ordered(plans);
    OrderedSorts(plans);
    OrderedHolds(plans, plans[0]);
    OrderedHolds(plans, rows[0]);
    if j :| 0 <= j < |plans| && plans[j].effectiveFrom <= from {
      OrderedHolds(plans, plans[j]);
      var i :| 0 <= i < |rows| && rows[i] == plans[j];
      assert i == 0 || rows[0].effectiveFrom <= rows[i].effectiveFrom;
    }
  }

  lemma CurrentAfterInsert(rows: seq<PlanVersion>, p: PlanVersion, when: Time)
    requires rows != [] && Sorted(rows) && p.effectiveFrom > when
    ensures Insert(rows, p) != []
    ensures Current(Insert(rows, p), Past(Insert(rows, p), when))
         == if Past(rows, when) != [] || rows[0].effectiveFrom <= p.effectiveFrom then Current(rows, Past(rows, when)) else p
  {
    PastIgnoresLater(rows, p, when);
    InsertHead(rows, p);
  }

  lemma PlanAfterAppend(plans: seq<PlanVersion>, p: PlanVersion, when: Time)
    requires plans != [] && p.effectiveFrom > when
    ensures PlanAt(plans + [p], when).Some? && PlanAt(plans, when).Some?
    ensures PlanAt(plans + [p], when).value.current
         == if InForce(plans, p.effectiveFrom) then PlanAt(plans, when).value.current else p
  {
    var rows := Ordered(plans);
    assert (plans + [p])[..|plans|] == plans;
    assert Ordered(plans + [p]) == Insert(rows, p);
    OrderedSorts(plans);
    FirstIsEarliest(plans, p.effectiveFrom);
    InForceIff(plans, when);
    CurrentAfterInsert(rows, p, when);
  }

  /**
   * A scheduled price leaves the answer for every moment up to now alone exactly when some plan takes effect no
   * later than the new one does (so whenever one was already in force); else it becomes the earliest plan, which
   * is what planAt falls back on.
   */
  lemma SchedulingKeepsThePastIff(db: Db, prices: Pricing, effectiveFrom: Time, now: Time, when: Time)
    requires when <= now && db.plans != [] && ApplySchedule(db, prices, effectiveFrom, true, now).1 == Done
    ensures var db' := ApplySchedule(db, prices, effectiveFrom, true, now).0;
            && db'.periods == db.periods
            && PlanAt(db'.plans, when).Some? && PlanAt(db.plans, when).Some?
            && (PlanAt(db'.plans, when).value.current == PlanAt(db.plans, when).value.current <==> InForce(db.plans, effectiveFrom))
  {
    var p := PlanVersion(MaxVersion(db.plans) + 1, prices, effectiveFrom);
    assert ApplySchedule(db, prices, effectiveFrom, true, now).0 == db.(plans := db.plans + [p]);
    AppendedChangesIff(db.plans, p, when);
  }

  lemma AppendedChangesIff(plans: seq<PlanVersion>, p: PlanVersion, when: Time)
    requires plans != [] && p.effectiveFrom > when && p.version > MaxVersion(plans)
    ensures PlanAt(plans + [p], when).Some? && PlanAt(plans, when).Some?
    ensures PlanAt(plans + [p], when).value.current == PlanAt(plans, when).value.current <==> InForce(plans, p.effectiveFrom)
  {
    PlanAfterAppend(plans, p, when);
    CurrentIsNot(plans, p, when);
  }

  /** In particular, a moment up to now that has a plan in force keeps it. */
  lemma SchedulingIsNeverRetroactive(db: Db, prices: Pricing, effectiveFrom: Time, reasonGiven: bool, now: Time, when: Time)
    requires when <= now && InForce(db.plans, when)
    ensures var db' := ApplySchedule(db, prices, effectiveFrom, reasonGiven, now).0;
            && PlanAt(db'.plans, when).Some? && PlanAt(db.plans, when).Some?
            && PlanAt(db'.plans, when).value.current == PlanAt(db.plans, when).value.current
            && db'.periods == db.periods
  {
    PlanAtSpec(db.plans, when);
    if ApplySchedule(db, prices, effectiveFrom, reasonGiven, now).1 == Done {
      SchedulingKeepsThePastIff(db, prices, effectiveFrom, now, when);
    }
  }

  /** Such schedules: on an empty table prices for moment 10 and then for moment 5; what moment 0 is told changes. */
  lemma SchedulesRewriteThePast(a: Pricing, b: Pricing)
    requires IsPlan(a) && IsPlan(b)
    ensures var one := ApplySchedule(Db([], []), a, 10, true, 0).0;
            var two := ApplySchedule(one, b, 5, true, 0).0;
            && PlanAt(one.plans, 0).Some? && PlanAt(two.plans, 0).Some?
            && PlanAt(one.plans, 0).value.current.effectiveFrom == 10
            && PlanAt(two.plans, 0).value.current.effectiveFrom == 5
  {
    FirstSchedule(a);
    SecondSchedule(a, b);
    OnePlan(PlanVersion(1, a, 10), 0);
    TwoPlans(PlanVersion(1, a, 10), PlanVersion(2, b, 5), 0);
  }

  lemma FirstSchedule(a: Pricing)
    requires IsPlan(a)
    ensures ApplySchedule(Db([], []), a, 10, true, 0).0 == Db([PlanVersion(1, a, 10)], [])
  {
    assert [] + [PlanVersion(1, a, 10)] == [PlanVersion(1, a, 10)];
  }

  lemma SecondSchedule(a: Pricing, b: Pricing)
    requires IsPlan(a) && IsPlan(b)
    ensures ApplySchedule(Db([PlanVersion(1, a, 10)], []), b, 5, true, 0).0
         == Db([PlanVersion(1, a, 10), PlanVersion(2, b, 5)], [])
  {
    var one := [PlanVersion(1, a, 10)];
    assert one[..0] == [] && MaxVersion(one) == 1;
    assert one + [PlanVersion(2, b, 5)] == [PlanVersion(1, a, 10), PlanVersion(2, b, 5)];
  }

  lemma OnePlan(p: PlanVersion, when: Time)
    ensures PlanAt([p], when).Some? && PlanAt([p], when).value.current == p && MaxVersion([p]) == p.version
  {
    PlanAtSpec([p], when);
    assert [p][..0] == [];
  }

  lemma TwoPlans(p: PlanVersion, q: PlanVersion, when: Time)
    requires when < q.effectiveFrom < p.effectiveFrom
    ensures [p] + [q] == [p, q] && PlanAt([p, q], when).Some? && PlanAt([p, q], when).value.current == q
  {
    assert [p] + [q] == [p, q];
    assert !InForce([p], q.effectiveFrom);
    PlanAfterAppend([p], q, when);
  }

  lemma CurrentIsNot(plans: seq<PlanVersion>, p: PlanVersion, when: Time)
    requires plans != [] && p.version > MaxVersion(plans)
    ensures PlanAt(plans, when).Some? && PlanAt(plans, when).value.current != p
  {
    PlanAtSpec(plans, when);
  }

  // ---------------------------------------------------------------- periods

  /** The company's period that started last. */
  function Latest(periods: seq<Period>, company: Company): (r: Option<nat>)
    ensures r.Some? ==> r.value < |periods| && periods[r.value].company == company
    ensures r.None? ==> forall i :: 0 <= i < |periods| ==> periods[i].company != company
    ensures r.Some? ==> forall i :: 0 <= i < |periods| && periods[i].company == company ==> periods[i].start <= periods[r.value].start
  {
    if periods == [] then None
    else
      var last := |periods| - 1;
      var before := Latest(periods[..last], company);
      if periods[last].company != company then before
      else if before.Some? && periods[before.value].start > periods[last].start then before
      else Some(last)
  }

  function NewPeriod(company: Company, now: Time, prices: Pricing, size: Size): Period {
    var q := QuoteFor(size, prices);
    Period(company, now, prices, Size(Whole(size.activeBranchCount), Whole(size.activeStaffCount)),
           IncludedStaff(size, prices), ChargeableStaff(size, prices), q, q.Total())
  }

  function ApplyOpen(db: Db, company: Company, size: Size, now: Time): (Db, Outcome) {
    match PlanAt(db.plans, now)
    case None => (db, Refused(BadRequest))
    case Some(v) => (db.(periods := db.periods + [NewPeriod(company, now, v.current.prices, size)]), Done)
  }

  /** The period after assessing a size: written only when something was added. */
  function Assessed(period: Period, size: Size): Period {
    var fees := AssessPeriod(size, period.assessed, period.prices);
    if AddedThisPeriod(fees, period.assessed) == 0 then period
    else period.(counts := size, included := IncludedStaff(size, period.prices),
                 chargeable := ChargeableStaff(size, period.prices), assessed := fees, assessedTotal := fees.Total())
  }

  function ApplyAssess(db: Db, company: Company, size: Size): Db {
    match Latest(db.periods, company)
    case None => db
    case Some(i) => db.(periods := db.periods[i := Assessed(db.periods[i], size)])
  }

  // ---------------------------------------------------------------- what one call does

  /** A period opens at the prices in force, for the size the company has, and touches no other. */
  lemma OpenedPeriod(db: Db, company: Company, size: Size, now: Time)
    ensures ApplyOpen(db, company, size, now).1 == Done <==> db.plans != []
    ensures ApplyOpen(db, company, size, now).1 == Done ==>
              var after := ApplyOpen(db, company, size, now).0;
              && PlanAt(db.plans, now).Some?
              && after.plans == db.plans && |after.periods| == |db.periods| + 1 && after.periods[..|db.periods|] == db.periods
              && var p := after.periods[|db.periods|];
                 && p.company == company && p.start == now && p.prices == PlanAt(db.plans, now).value.current.prices
                 && p.assessed == QuoteFor(size, p.prices) && p.assessedTotal == p.assessed.Total()
                 && p.counts == Size(Max(0, size.activeBranchCount), Max(0, size.activeStaffCount))
                 && p.included == IncludedStaff(size, p.prices)
                 && p.chargeable == Max(0, p.counts.activeStaffCount - p.included)
  {
    if db.plans != [] {
      PlanAtSpec(db.plans, now);
    } else {
      assert Ordered(db.plans) == [];
    }
  }

  /** An assessment touches at most the period of the company that started last; its counts follow only a raise. */
  lemma AssessedPeriodOnly(db: Db, company: Company, size: Size, i: nat)
    requires i < |db.periods|
    ensures var after := ApplyAssess(db, company, size);
            && after.plans == db.plans && |after.periods| == |db.periods|
            && (after.periods[i] != db.periods[i] ==>
                  && db.periods[i].company == company
                  && (forall j :: 0 <= j < |db.periods| && db.periods[j].company == company ==> db.periods[j].start <= db.periods[i].start)
                  && after.periods[i].counts == size
                  && after.periods[i].included == IncludedStaff(size, db.periods[i].prices)
                  && after.periods[i].chargeable == ChargeableStaff(size, db.periods[i].prices)
                  && after.periods[i].assessedTotal > Whole(db.periods[i].assessed.branch) + Whole(db.periods[i].assessed.staff))
  {
  }

  /** A price is scheduled exactly for the future, with a reason and no negative figure, as the next version. */
  lemma ScheduledIff(db: Db, prices: Pricing, effectiveFrom: Time, reasonGiven: bool, now: Time)
    ensures var (after, r) := ApplySchedule(db, prices, effectiveFrom, reasonGiven, now);
            && (r == Done <==> effectiveFrom > now && reasonGiven && IsPlan(prices))
            && (r == Done ==>
                  && after.periods == db.periods && |after.plans| == |db.plans| + 1 && after.plans[..|db.plans|] == db.plans
                  && var p := after.plans[|db.plans|];
                     && p.prices == prices && p.effectiveFrom == effectiveFrom
                     && (forall i :: 0 <= i < |db.plans| ==> db.plans[i].version < p.version)
                     && (p.version == 1 || exists i :: 0 <= i < |db.plans| && db.plans[i].version + 1 == p.version))
            && (r != Done ==> after == db)
  {
    MaxIsThere(db.plans);
  }

  lemma {:induction false} MaxIsThere(plans: seq<PlanVersion>)
    ensures MaxVersion(plans) == 0 || exists i :: 0 <= i < |plans| && plans[i].version == MaxVersion(plans)
  {
    if plans != [] {
      var last := |plans| - 1;
      MaxIsThere(plans[..last]);
      if MaxVersion(plans) != 0 && MaxVersion(plans) != plans[last].version {
        var i :| 0 <= i < last && plans[..last][i].version == MaxVersion(plans[..last]);
        assert plans[i].version == MaxVersion(plans);
      }
    }
  }

  // ---------------------------------------------------------------- every run

  datatype Step =
    | Open(company: Company, size: Size, now: Time)
    | Assess(company: Company, size: Size)
    | Schedule(prices: Pricing, effectiveFrom: Time, reasonGiven: bool, now: Time)

  function Next(db: Db, s: Step): Db {
    match s
    case Open(company, size, now) => ApplyOpen(db, company, size, now).0
    case Assess(company, size) => ApplyAssess(db, company, size)
    case Schedule(prices, effectiveFrom, reasonGiven, now) => ApplySchedule(db, prices, effectiveFrom, reasonGiven, now).0
  }

  function Run(db: Db, steps: seq<Step>): Db {
    if steps == [] then db else Next(Run(db, steps[..|steps| - 1]), steps[|steps| - 1])
  }

  /** The sizes period i has met: the one it opened with, then every one assessed while it was its company's latest. */
  function SizesSeen(db: Db, steps: seq<Step>, i: nat): seq<Size> {
    if steps == [] then []
    else
      var before, step := Run(db, steps[..|steps| - 1]), steps[|steps| - 1];
      var seen := SizesSeen(db, steps[..|steps| - 1], i);
      if step.Open? && i == |before.periods| then [step.size]
      else if step.Assess? && Latest(before.periods, step.company) == Some(i) then seen + [step.size]
      else seen
  }

  /** m is the greatest of the fees f gives the sizes. */
  ghost predicate Greatest(m: int, sizes: seq<Size>, f: Size -> int) {
    && (forall k :: 0 <= k < |sizes| ==> f(sizes[k]) <= m)
    && (exists k :: 0 <= k < |sizes| && f(sizes[k]) == m)
  }

  /** The fees are, component by component, the greatest quoted at these prices for these sizes. */
  ghost predicate HighWater(fees: Fees, sizes: seq<Size>, prices: Pricing) {
    && Greatest(fees.branch, sizes, (s: Size) => BranchFee(s, prices))
    && Greatest(fees.staff, sizes, (s: Size) => StaffFee(s, prices))
  }

  lemma GreatestGrows(m: int, sizes: seq<Size>, s: Size, f: Size -> int)
    requires Greatest(m, sizes, f)
    ensures Greatest(Max(m, f(s)), sizes + [s], f)
  {
    var k :| 0 <= k < |sizes| && f(sizes[k]) == m;
    assert (sizes + [s])[k] == sizes[k] && (sizes + [s])[|sizes|] == s;
  }

  /** Skipping the write when nothing was added loses nothing. */
  lemma AssessedFees(period: Period, size: Size)
    requires period.assessed.branch >= 0 && period.assessed.staff >= 0 && period.assessedTotal == period.assessed.Total()
    ensures var p := Assessed(period, size);
            && p.assessed == Fees(Max(period.assessed.branch, BranchFee(size, period.prices)),
                                  Max(period.assessed.staff, StaffFee(size, period.prices)))
            && p.assessedTotal == p.assessed.Total()
            && p.company == period.company && p.start == period.start && p.prices == period.prices
  {
  }

  ghost predicate PeriodOk(p: Period, seen: seq<Size>) {
    HighWater(p.assessed, seen, p.prices) && p.assessedTotal == p.assessed.Total()
  }

  lemma HighWaterNotNegative(fees: Fees, sizes: seq<Size>, prices: Pricing)
    requires HighWater(fees, sizes, prices)
    ensures fees.branch >= 0 && fees.staff >= 0
  {
  }

  lemma AssessedOk(p: Period, seen: seq<Size>, size: Size)
    requires PeriodOk(p, seen)
    ensures PeriodOk(Assessed(p, size), seen + [size])
  {
    HighWaterNotNegative(p.assessed, seen, p.prices);
    AssessedFees(p, size);
    GreatestGrows(p.assessed.branch, seen, size, (s: Size) => BranchFee(s, p.prices));
    GreatestGrows(p.assessed.staff, seen, size, (s: Size) => StaffFee(s, p.prices));
  }

  lemma NewPeriodOk(company: Company, now: Time, prices: Pricing, size: Size)
    ensures PeriodOk(NewPeriod(company, now, prices, size), [size])
  {
    assert [size][0] == size;
  }

  /**
   * After any run of openings, assessments and scheduled prices, of any companies, in any order: every period's
   * branch fee and staff fee are each the greatest quoted, at the prices it froze, over every size it met.
   */
  lemma {:induction false} FeesAreHighWaterMarks(plans: seq<PlanVersion>, steps: seq<Step>, i: nat)
    requires i < |Run(Db(plans, []), steps).periods|
    ensures PeriodOk(Run(Db(plans, []), steps).periods[i], SizesSeen(Db(plans, []), steps, i))
  {
    if steps != [] {
      var start, first, step := Db(plans, []), steps[..|steps| - 1], steps[|steps| - 1];
      var before := Run(start, first);
      if i < |before.periods| {
        FeesAreHighWaterMarks(plans, first, i);
      }
      match step
      case Open(company, size, now) =>
        if i == |before.periods| {
          NewPeriodOk(company, now, PlanAt(before.plans, now).value.current.prices, size);
        }
      case Assess(company, size) =>
        if Latest(before.periods, company) == Some(i) {
          AssessedOk(before.periods[i], SizesSeen(start, first, i), size);
        }
      case Schedule(_, _, _, _) =>
    }
  }

  /** Only the set of sizes met matters: neither their order nor how often each was assessed. */
  lemma OrderAndRepetitionDoNotMatter(a: Period, b: Period, seenA: seq<Size>, seenB: seq<Size>)
    requires PeriodOk(a, seenA) && PeriodOk(b, seenB) && a.prices == b.prices
    requires forall s :: s in seenA <==> s in seenB
    ensures a.assessed == b.assessed && a.assessedTotal == b.assessedTotal
  {
    GreatestIsUnique(a.assessed.branch, b.assessed.branch, seenA, seenB, (s: Size) => BranchFee(s, a.prices));
    GreatestIsUnique(a.assessed.staff, b.assessed.staff, seenA, seenB, (s: Size) => StaffFee(s, a.prices));
  }

  lemma GreatestIsUnique(m: int, n: int, a: seq<Size>, b: seq<Size>, f: Size -> int)
    requires Greatest(m, a, f) && Greatest(n, b, f) && forall s :: s in a <==> s in b
    ensures m == n
  {
    var k :| 0 <= k < |a| && f(a[k]) == m;
    assert a[k] in b;
    var l :| 0 <= l < |b| && f(b[l]) == n;
    assert b[l] in a;
  }

  /** A period kept, its fees no lower. */
  ghost predicate Grown(p: Period, q: Period) {
    && q.company == p.company && q.start == p.start && q.prices == p.prices
    && q.assessed.branch >= p.assessed.branch && q.assessed.staff >= p.assessed.staff
  }

  lemma NextGrows(db: Db, s: Step, i: nat, seen: seq<Size>)
    requires i < |db.periods| && PeriodOk(db.periods[i], seen)
    ensures i < |Next(db, s).periods| && Grown(db.periods[i], Next(db, s).periods[i])
  {
    HighWaterNotNegative(db.periods[i].assessed, seen, db.periods[i].prices);
    if s.Assess? {
      AssessedFees(db.periods[i], s.size);
    }
  }

  /** Whatever follows, a period keeps its company, its start and its prices, and its fees never fall. */
  lemma {:induction false} PeriodsOnlyGrow(plans: seq<PlanVersion>, steps: seq<Step>, more: seq<Step>, i: nat)
    requires i < |Run(Db(plans, []), steps).periods|
    ensures i < |Run(Db(plans, []), steps + more).periods|
    ensures Grown(Run(Db(plans, []), steps).periods[i], Run(Db(plans, []), steps + more).periods[i])
  {
    if more == [] {
      assert steps + more == steps;
    } else {
      var last := |more| - 1;
      var first := steps + more[..last];
      PeriodsOnlyGrow(plans, steps, more[..last], i);
      RunLast(Db(plans, []), steps, more);
      FeesAreHighWaterMarks(plans, first, i);
      NextGrows(Run(Db(plans, []), first), more[last], i, SizesSeen(Db(plans, []), first, i));
    }
  }

  lemma RunLast(db: Db, steps: seq<Step>, more: seq<Step>)
    requires more != []
    ensures Run(db, steps + more) == Next(Run(db, steps + more[..|more| - 1]), more[|more| - 1])
  {
    assert (steps + more)[..|steps + more| - 1] == steps + more[..|more| - 1];
    assert (steps + more)[|steps + more| - 1] == more[|more| - 1];
  }

  // ---------------------------------------------------------------- the service

  class BillingService {
    var plans: seq<PlanVersion>
    var periods: seq<Period>

    ghost function Snapshot(): Db
      reads this
    {
      Db(plans, periods)
    }

    method OpenPeriod(company: Company, size: Size, now: Time) returns (r: Outcome)
      modifies this`periods
      ensures (Snapshot(), r) == ApplyOpen(old(Snapshot()), company, size, now)
    {
      var view := PlanAt(plans, now);
      if view.None? {
        return Refused(BadRequest);
      }
      periods := periods + [NewPeriod(company, now, view.value.current.prices, size)];
      return Done;
    }

    method AssessNow(company: Company, size: Size)
      modifies this`periods
      ensures Snapshot() == ApplyAssess(old(Snapshot()), company, size)
    {
      var found := Latest(periods, company);
      if found.None? {
        return;
      }
      var period := periods[found.value];
      var fees := AssessPeriod(size, period.assessed, period.prices);
      if AddedThisPeriod(fees, period.assessed) == 0 {
        return;
      }
      periods := periods[found.value := period.(counts := size, included := IncludedStaff(size, period.prices),
                                                chargeable := ChargeableStaff(size, period.prices),
                                                assessed := fees, assessedTotal := fees.Total())];
    }

    method SchedulePlanVersion(prices: Pricing, effectiveFrom: Time, reasonGiven: bool, now: Time) returns (r: Outcome)
      modifies this`plans
      ensures (Snapshot(), r) == ApplySchedule(old(Snapshot()), prices, effectiveFrom, reasonGiven, now)
    {
      if effectiveFrom <= now || !reasonGiven {
        return Refused(BadRequest);
      }
      if prices.branchMonthly < 0 || prices.includedStaffPerBranch < 0 || prices.extraStaffMonthly < 0 {
        return Refused(BadRequest);
      }
      plans := plans + [PlanVersion(MaxVersion(plans) + 1, prices, effectiveFrom)];
      return Done;
    }
  }
}

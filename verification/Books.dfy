/**
 * Append-only corrections of confirmed payments, expenses, and the locked days they must not touch:
 * src/corrections/, src/expenses/ and the lock written by src/closing/closing.service.ts.
 * Refund payouts and supplier settlements appear only as payments that are reported and then confirmed.
 */
module Books {
  import opened Prelude

  type Branch = nat
  type Day = int

  datatype PaymentKind = RefundPayout | SupplierSettlement

  datatype Means = Cash | Account

  datatype Payment = Payment(
    kind: PaymentKind, branch: Branch, means: Means, account: Option<nat>, amount: int, confirmedOn: Option<Day>,
    correctedBy: Option<nat>)

  datatype CorrectionStatus = Requested | Approved | Rejected

  datatype Correction = Correction(
    target: nat, branch: Branch, means: Means, amount: int, status: CorrectionStatus, version: nat,
    correctionDate: Option<Day>, clientUuid: nat, requestHash: Fingerprint)

  /** The payload behind the SHA-256 request hash, itself taken to be injective: free text joined by bars at the end. */
  datatype Fingerprint = Fingerprint(kind: PaymentKind, target: nat, text: string)

  datatype ExpenseStatus = Reported | Confirmed | Declined

  /** What the shop reports: the fields of the request. */
  datatype ExpenseForm = ExpenseForm(
    branch: Branch, category: string, amount: int, means: Means, account: Option<nat>, isFixed: bool, dueOn: Option<Day>,
    isSalary: bool, note: string, clientUuid: Option<nat>)

  /** The payload behind an expense's request hash: its fields joined by bars. Branch and salary are not among them. */
  datatype ExpensePrint = ExpensePrint(text: string)

  datatype Expense = Expense(
    branch: Branch, isFixed: bool, dueOn: Option<Day>, isSalary: bool, means: Means, account: Option<nat>, amount: int,
    status: ExpenseStatus, version: nat, confirmedOn: Option<Day>, clientUuid: Option<nat>,
    requestHash: Option<ExpensePrint>)

  datatype State = State(
    payments: seq<Payment>, corrections: seq<Correction>, expenses: seq<Expense>, locked: set<(Branch, Day)>)

  /** `today` is the business day of the clock when the call runs; `reason` is already trimmed. */
  datatype Call =
    | ReportPayment(kind: PaymentKind, branch: Branch, means: Means, account: Option<nat>, amount: int)
    | ConfirmPayment(payment: nat, today: Day)
    | RequestCorrection(kind: PaymentKind, target: nat, reason: string, reference: string, clientUuid: nat)
    | ApproveCorrection(id: nat, expectedVersion: nat, today: Day)
    | RejectCorrection(id: nat, expectedVersion: nat)
    | CreateExpense(form: ExpenseForm, accountActive: bool)
    | ConfirmExpense(id: nat, expectedVersion: nat, today: Day)
    | RejectExpense(id: nat, expectedVersion: nat)
    | CloseDay(branch: Branch, day: Day)

  // ---------------------------------------------------------------- the calls

  predicate HasWith(cs: seq<Correction>, target: nat, status: CorrectionStatus) {
    exists i :: 0 <= i < |cs| && cs[i].target == target && cs[i].status == status
  }

  predicate WasRequestedAs(cs: seq<Correction>, uuid: nat) {
    exists i :: 0 <= i < |cs| && cs[i].clientUuid == uuid
  }

  predicate WasRequestedDifferently(cs: seq<Correction>, uuid: nat, hash: Fingerprint) {
    exists i :: 0 <= i < |cs| && cs[i].clientUuid == uuid && cs[i].requestHash != hash
  }

  function Joined(a: string, b: string): string {
    a + "|" + b
  }

  function ApplyRequest(s: State, c: Call): (State, Outcome)
    requires c.RequestCorrection?
  {
    var hash := Fingerprint(c.kind, c.target, Joined(c.reason, c.reference));
    if c.reason == "" then (s, Refused(BadRequest))
    else if WasRequestedAs(s.corrections, c.clientUuid) then
      if WasRequestedDifferently(s.corrections, c.clientUuid, hash) then (s, Refused(Conflict)) else (s, Replayed)
    else if c.target >= |s.payments| || s.payments[c.target].kind != c.kind then (s, Refused(BadRequest))
    else if s.payments[c.target].confirmedOn.None? then (s, Refused(Conflict))
    else if HasWith(s.corrections, c.target, Approved) then (s, Refused(Conflict))
    else if HasWith(s.corrections, c.target, Requested) then (s, Refused(Conflict))
    else
      var p := s.payments[c.target];
      var row := Correction(c.target, p.branch, p.means, p.amount, Requested, 0, None, c.clientUuid, hash);
      (s.(corrections := s.corrections + [row]), Done)
  }

  /** The back-reference on a refund payout; no financial field is written. */
  function MarkCorrected(payments: seq<Payment>, target: nat, id: nat): seq<Payment> {
    if target < |payments| && payments[target].kind == RefundPayout && payments[target].correctedBy.None?
    then payments[target := payments[target].(correctedBy := Some(id))]
    else payments
  }

  function ApplyApprove(s: State, c: Call): (State, Outcome)
    requires c.ApproveCorrection?
  {
    if c.id >= |s.corrections| then (s, Refused(NotFound))
    else
      var k := s.corrections[c.id];
      if k.status != Requested then (s, Refused(Conflict))
      else if (k.branch, c.today) in s.locked then (s, Refused(Conflict))
      else if k.version != c.expectedVersion then (s, Refused(Conflict))
      else
        var k' := k.(status := Approved, correctionDate := Some(c.today), version := k.version + 1);
        (s.(corrections := s.corrections[c.id := k'], payments := MarkCorrected(s.payments, k.target, c.id)), Done)
  }

  function ApplyReject(s: State, c: Call): (State, Outcome)
    requires c.RejectCorrection?
  {
    if c.id >= |s.corrections| then (s, Refused(NotFound))
    else
      var k := s.corrections[c.id];
      if k.status != Requested || k.version != c.expectedVersion then (s, Refused(Conflict))
      else (s.(corrections := s.corrections[c.id := k.(status := Rejected, version := k.version + 1)]), Done)
  }

  function Decimal(n: nat): string {
    (if n < 10 then "" else Decimal(n / 10)) + [('0' as int + n % 10) as char]
  }

  function Number(n: int): string {
    if n < 0 then "-" + Decimal(-n) else Decimal(n)
  }

  function OrNothing(n: Option<int>): string {
    if n.Some? then Number(n.value) else ""
  }

  /** Amount, method, account, class and due date: no bar stands in any of them. */
  function Middle(f: ExpenseForm): string {
    Joined(Number(f.amount),
           Joined(if f.means == Cash then "cash" else "account",
                  Joined(OrNothing(f.account), Joined(if f.isFixed then "fixed" else "variable", OrNothing(f.dueOn)))))
  }

  function PrintOf(f: ExpenseForm): ExpensePrint {
    ExpensePrint(Joined(f.category, Joined(Middle(f), f.note)))
  }

  predicate WasReportedAs(es: seq<Expense>, uuid: nat) {
    exists i :: 0 <= i < |es| && es[i].clientUuid == Some(uuid)
  }

  predicate WasReportedDifferently(es: seq<Expense>, uuid: nat, hash: ExpensePrint) {
    exists i :: 0 <= i < |es| && es[i].clientUuid == Some(uuid) && es[i].requestHash != Some(hash)
  }

  function ExpenseRow(f: ExpenseForm): Expense {
    Expense(f.branch, f.isFixed, f.dueOn, f.isSalary, f.means, f.account, f.amount, Reported, 0, None, f.clientUuid,
            if f.clientUuid.Some? then Some(PrintOf(f)) else None)
  }

  function ApplyCreateExpense(s: State, c: Call): (State, Outcome)
    requires c.CreateExpense?
  {
    var f := c.form;
    if f.amount <= 0 then (s, Refused(BadRequest))
    else if (f.means == Cash) != f.account.None? then (s, Refused(BadRequest))
    else if f.isFixed != f.dueOn.Some? then (s, Refused(BadRequest))
    else if f.isSalary && !f.isFixed then (s, Refused(BadRequest))
    else if f.clientUuid.Some? && WasReportedAs(s.expenses, f.clientUuid.value) then
      if WasReportedDifferently(s.expenses, f.clientUuid.value, PrintOf(f)) then (s, Refused(Conflict)) else (s, Replayed)
    else if f.means == Account && !c.accountActive then (s, Refused(NotFound))
    else (s.(expenses := s.expenses + [ExpenseRow(f)]), Done)
  }

  function ApplyConfirmExpense(s: State, c: Call): (State, Outcome)
    requires c.ConfirmExpense?
  {
    if c.id >= |s.expenses| then (s, Refused(NotFound))
    else
      var e := s.expenses[c.id];
      if e.status != Reported then (s, Refused(Conflict))
      else if !e.isFixed && (e.branch, c.today) in s.locked then (s, Refused(Conflict))
      else if e.version != c.expectedVersion then (s, Refused(Conflict))
      else
        var e' := e.(status := Confirmed, confirmedOn := Some(c.today), version := e.version + 1);
        (s.(expenses := s.expenses[c.id := e']), Done)
  }

  function ApplyRejectExpense(s: State, c: Call): (State, Outcome)
    requires c.RejectExpense?
  {
    if c.id >= |s.expenses| then (s, Refused(NotFound))
    else
      var e := s.expenses[c.id];
      if e.status != Reported || e.version != c.expectedVersion then (s, Refused(Conflict))
      else (s.(expenses := s.expenses[c.id := e.(status := Declined, version := e.version + 1)]), Done)
  }

  function Apply(s: State, c: Call): (State, Outcome) {
    match c
    case ReportPayment(kind, branch, means, account, amount) =>
      (s.(payments := s.payments + [Payment(kind, branch, means, account, amount, None, None)]), Done)
    case ConfirmPayment(i, today) =>
      if i < |s.payments| && s.payments[i].confirmedOn.None?
      then (s.(payments := s.payments[i := s.payments[i].(confirmedOn := Some(today))]), Done)
      else (s, Refused(Conflict))
    case RequestCorrection(_, _, _, _, _) => ApplyRequest(s, c)
    case ApproveCorrection(_, _, _) => ApplyApprove(s, c)
    case RejectCorrection(_, _) => ApplyReject(s, c)
    case CreateExpense(_, _) => ApplyCreateExpense(s, c)
    case ConfirmExpense(_, _, _) => ApplyConfirmExpense(s, c)
    case RejectExpense(_, _) => ApplyRejectExpense(s, c)
    case CloseDay(branch, day) =>
      if (branch, day) in s.locked then (s, Refused(Conflict)) else (s.(locked := s.locked + {(branch, day)}), Done)
  }

  const Empty := State([], [], [], {})

  function Run(s: State, calls: seq<Call>): State {
    if calls == [] then s else Apply(Run(s, calls[..|calls| - 1]), calls[|calls| - 1]).0
  }

  // ---------------------------------------------------------------- the two ways of asking

  /** settlementNotCorrected and payoutNotCorrected: no approved correction names this payment. */
  predicate NotCorrected(s: State, i: nat) {
    !HasWith(s.corrections, i, Approved)
  }

  predicate Counts(p: Payment, b: Branch, m: Means) {
    p.branch == b && p.means == m
  }

  /** What is settled right now: confirmed payments with no approved correction. */
  function LiveSettled(s: State, b: Branch, m: Means, n: nat): int
    requires n <= |s.payments|
  {
    if n == 0 then 0
    else
      var p := s.payments[n - 1];
      LiveSettled(s, b, m, n - 1)
      + if Counts(p, b, m) && p.confirmedOn.Some? && NotCorrected(s, n - 1) then p.amount else 0
  }

  /** What moved on a day: every payment confirmed that day, corrected or not. */
  function PaidOn(ps: seq<Payment>, b: Branch, m: Means, d: Day): int {
    if ps == [] then 0
    else
      var p := ps[|ps| - 1];
      PaidOn(ps[..|ps| - 1], b, m, d) + if Counts(p, b, m) && p.confirmedOn == Some(d) then p.amount else 0
  }

  /** Money that came back on a day: the rollup's correction totals. */
  function CorrectedOn(cs: seq<Correction>, b: Branch, m: Means, d: Day): int {
    if cs == [] then 0
    else
      var c := cs[|cs| - 1];
      CorrectedOn(cs[..|cs| - 1], b, m, d)
      + if c.branch == b && c.means == m && c.status == Approved && c.correctionDate == Some(d) then c.amount else 0
  }

  /** The day-by-day history from `lo` up to `hi`. */
  function History(s: State, b: Branch, m: Means, lo: Day, hi: Day): int
    decreases hi - lo
  {
    if hi <= lo then 0
    else History(s, b, m, lo, hi - 1) + PaidOn(s.payments, b, m, hi - 1) - CorrectedOn(s.corrections, b, m, hi - 1)
  }

  ghost predicate DatesWithin(s: State, lo: Day, hi: Day) {
    && (forall i :: 0 <= i < |s.payments| && s.payments[i].confirmedOn.Some? ==>
          lo <= s.payments[i].confirmedOn.value < hi)
    && (forall i :: 0 <= i < |s.corrections| && s.corrections[i].correctionDate.Some? ==>
          lo <= s.corrections[i].correctionDate.value < hi)
  }

  // ---------------------------------------------------------------- what every call keeps

  predicate IsOpenOrApproved(c: Correction) {
    c.status == Requested || c.status == Approved
  }

  /** A correction copies a confirmed payment and is dated exactly when approved. */
  ghost predicate CorrectionOk(s: State, i: nat)
    requires i < |s.corrections|
  {
    var c := s.corrections[i];
    && c.target < |s.payments|
    && s.payments[c.target].confirmedOn.Some?
    && c.branch == s.payments[c.target].branch
    && c.means == s.payments[c.target].means
    && c.amount == s.payments[c.target].amount
    && (c.status == Approved <==> c.correctionDate.Some?)
    && (c.status == Approved && s.payments[c.target].kind == RefundPayout ==>
          s.payments[c.target].correctedBy == Some(i))
  }

  ghost predicate OneLivePerPayment(cs: seq<Correction>) {
    forall i, j :: 0 <= i < j < |cs| && IsOpenOrApproved(cs[i]) && IsOpenOrApproved(cs[j]) ==> cs[i].target != cs[j].target
  }

  /** A payout is marked corrected only by its approved correction. */
  ghost predicate MarksOk(s: State) {
    forall t :: 0 <= t < |s.payments| && s.payments[t].correctedBy.Some? ==>
      && s.payments[t].correctedBy.value < |s.corrections|
      && s.corrections[s.payments[t].correctedBy.value].target == t
      && s.corrections[s.payments[t].correctedBy.value].status == Approved
  }

  ghost predicate ExpensesOk(es: seq<Expense>) {
    forall i :: 0 <= i < |es| ==>
      && es[i].amount > 0
      && (es[i].isFixed <==> es[i].dueOn.Some?)
      && (es[i].status == Confirmed <==> es[i].confirmedOn.Some?)
  }

  ghost predicate Inv(s: State) {
    && (forall i :: 0 <= i < |s.corrections| ==> CorrectionOk(s, i))
    && OneLivePerPayment(s.corrections)
    && MarksOk(s)
    && ExpensesOk(s.expenses)
  }

  lemma ApproveKeepsInv(s: State, c: Call)
    requires Inv(s) && c.ApproveCorrection?
    ensures Inv(ApplyApprove(s, c).0)
  {
    if ApplyApprove(s, c).1 == Done {
      var s' := ApplyApprove(s, c).0;
      var t := s.corrections[c.id].target;
      assert CorrectionOk(s, c.id);
      assert s.payments[t].kind == RefundPayout ==> s.payments[t].correctedBy.None?;
      forall i | 0 <= i < |s'.corrections|
        ensures CorrectionOk(s', i)
      {
        assert CorrectionOk(s, i);
      }
    }
  }

  lemma RequestKeepsInv(s: State, c: Call)
    requires Inv(s) && c.RequestCorrection?
    ensures Inv(ApplyRequest(s, c).0)
  {
    var s' := ApplyRequest(s, c).0;
    forall i | 0 <= i < |s'.corrections|
      ensures CorrectionOk(s', i)
    {
      assert i < |s.corrections| ==> CorrectionOk(s, i);
    }
  }

  lemma ApplyKeepsInv(s: State, c: Call)
    requires Inv(s)
    ensures Inv(Apply(s, c).0)
  {
    if c.ApproveCorrection? {
      ApproveKeepsInv(s, c);
    } else if c.RequestCorrection? {
      RequestKeepsInv(s, c);
    } else {
      var s' := Apply(s, c).0;
      forall i | 0 <= i < |s'.corrections|
        ensures CorrectionOk(s', i)
      {
        assert CorrectionOk(s, i);
      }
    }
  }

  lemma {:induction false} RunKeepsInv(s: State, calls: seq<Call>)
    requires Inv(s)
    ensures Inv(Run(s, calls))
  {
    if calls != [] {
      RunKeepsInv(s, calls[..|calls| - 1]);
      ApplyKeepsInv(Run(s, calls[..|calls| - 1]), calls[|calls| - 1]);
    }
  }

  /** In every run a payment has at most one open or approved correction, which copies it. */
  lemma OneCorrectionPerPayment(calls: seq<Call>, i: nat, j: nat)
    requires var cs := Run(Empty, calls).corrections;
             i < |cs| && j < |cs| && IsOpenOrApproved(cs[i]) && IsOpenOrApproved(cs[j]) && cs[i].target == cs[j].target
    ensures i == j
    ensures CorrectionOk(Run(Empty, calls), i)
  {
    RunKeepsInv(Empty, calls);
    assert OneLivePerPayment(Run(Empty, calls).corrections);
  }

  /** A confirmed payment is never edited: only a payout's back-reference may be written. */
  lemma ConfirmedPaymentsAreImmutable(s: State, c: Call, i: nat)
    requires i < |s.payments| && s.payments[i].confirmedOn.Some?
    ensures i < |Apply(s, c).0.payments|
    ensures Apply(s, c).0.payments[i] == s.payments[i].(correctedBy := Apply(s, c).0.payments[i].correctedBy)
  {
  }

  /** So in every run: what was confirmed stays as it was, whatever is called later. */
  lemma {:induction false} ConfirmedPaymentsStand(s: State, calls: seq<Call>, i: nat)
    requires i < |s.payments| && s.payments[i].confirmedOn.Some?
    ensures i < |Run(s, calls).payments|
    ensures Run(s, calls).payments[i] == s.payments[i].(correctedBy := Run(s, calls).payments[i].correctedBy)
  {
    if calls != [] {
      ConfirmedPaymentsStand(s, calls[..|calls| - 1], i);
      ConfirmedPaymentsAreImmutable(Run(s, calls[..|calls| - 1]), calls[|calls| - 1], i);
    }
  }

  // ---------------------------------------------------------------- history and live settlement agree

  /** Confirmed payments whose index is among `chosen`. */
  function SumAmong(ps: seq<Payment>, chosen: set<nat>, b: Branch, m: Means): int {
    if ps == [] then 0
    else
      var i := |ps| - 1;
      SumAmong(ps[..i], chosen, b, m) + if i in chosen && Counts(ps[i], b, m) && ps[i].confirmedOn.Some? then ps[i].amount else 0
  }

  function ApprovedTotal(cs: seq<Correction>, b: Branch, m: Means): int {
    if cs == [] then 0
    else
      var c := cs[|cs| - 1];
      ApprovedTotal(cs[..|cs| - 1], b, m) + if c.branch == b && c.means == m && c.status == Approved then c.amount else 0
  }

  function ApprovedTargets(cs: seq<Correction>): set<nat> {
    set i | 0 <= i < |cs| && cs[i].status == Approved :: cs[i].target
  }

  lemma {:induction false} SumAmongAdd(ps: seq<Payment>, chosen: set<nat>, t: nat, b: Branch, m: Means)
    requires t !in chosen
    ensures SumAmong(ps, chosen + {t}, b, m)
         == SumAmong(ps, chosen, b, m)
            + if t < |ps| && Counts(ps[t], b, m) && ps[t].confirmedOn.Some? then ps[t].amount else 0
  {
    if ps != [] {
      SumAmongAdd(ps[..|ps| - 1], chosen, t, b, m);
    }
  }

  lemma {:induction false} SumAmongNone(ps: seq<Payment>, b: Branch, m: Means)
    ensures SumAmong(ps, {}, b, m) == 0
  {
    if ps != [] {
      SumAmongNone(ps[..|ps| - 1], b, m);
    }
  }

  /** Approved corrections add up to the corrected payments, each counted once. */
  lemma {:induction false} ApprovedMatchesCorrected(s: State, n: nat, b: Branch, m: Means)
    requires Inv(s) && n <= |s.corrections|
    ensures ApprovedTotal(s.corrections[..n], b, m) == SumAmong(s.payments, ApprovedTargets(s.corrections[..n]), b, m)
  {
    if n == 0 {
      SumAmongNone(s.payments, b, m);
      assert ApprovedTargets(s.corrections[..0]) == {};
    } else {
      var cs, c := s.corrections[..n], s.corrections[n - 1];
      ApprovedMatchesCorrected(s, n - 1, b, m);
      assert cs[..n - 1] == s.corrections[..n - 1];
      assert CorrectionOk(s, n - 1);
      if c.status == Approved {
        assert ApprovedTargets(cs) == ApprovedTargets(cs[..n - 1]) + {c.target};
        assert c.target !in ApprovedTargets(cs[..n - 1]);
        SumAmongAdd(s.payments, ApprovedTargets(cs[..n - 1]), c.target, b, m);
      } else {
        assert ApprovedTargets(cs) == ApprovedTargets(cs[..n - 1]);
      }
    }
  }

  function ConfirmedTotal(ps: seq<Payment>, b: Branch, m: Means): int {
    if ps == [] then 0
    else
      var p := ps[|ps| - 1];
      ConfirmedTotal(ps[..|ps| - 1], b, m) + if Counts(p, b, m) && p.confirmedOn.Some? then p.amount else 0
  }

  lemma {:induction false} LiveIsConfirmedMinusCorrected(s: State, n: nat, b: Branch, m: Means)
    requires n <= |s.payments|
    ensures LiveSettled(s, b, m, n)
         == ConfirmedTotal(s.payments[..n], b, m) - SumAmong(s.payments[..n], ApprovedTargets(s.corrections), b, m)
  {
    if n > 0 {
      LiveIsConfirmedMinusCorrected(s, n - 1, b, m);
      assert s.payments[..n][..n - 1] == s.payments[..n - 1];
      assert NotCorrected(s, n - 1) <==> n - 1 !in ApprovedTargets(s.corrections);
    }
  }

  function PaidOver(ps: seq<Payment>, b: Branch, m: Means, lo: Day, hi: Day): int
    decreases hi - lo
  {
    if hi <= lo then 0 else PaidOver(ps, b, m, lo, hi - 1) + PaidOn(ps, b, m, hi - 1)
  }

  function CorrectedOver(cs: seq<Correction>, b: Branch, m: Means, lo: Day, hi: Day): int
    decreases hi - lo
  {
    if hi <= lo then 0 else CorrectedOver(cs, b, m, lo, hi - 1) + CorrectedOn(cs, b, m, hi - 1)
  }

  lemma {:induction false} HistorySplits(s: State, b: Branch, m: Means, lo: Day, hi: Day)
    ensures History(s, b, m, lo, hi) == PaidOver(s.payments, b, m, lo, hi) - CorrectedOver(s.corrections, b, m, lo, hi)
    decreases hi - lo
  {
    if lo < hi {
      HistorySplits(s, b, m, lo, hi - 1);
    }
  }

  /** One more payment shows up on one day of the range. */
  lemma {:induction false} PaidOverLast(ps: seq<Payment>, b: Branch, m: Means, lo: Day, hi: Day)
    requires ps != []
    ensures var p := ps[|ps| - 1];
            PaidOver(ps, b, m, lo, hi)
            == PaidOver(ps[..|ps| - 1], b, m, lo, hi)
               + if Counts(p, b, m) && p.confirmedOn.Some? && lo <= p.confirmedOn.value < hi then p.amount else 0
    decreases hi - lo
  {
    if lo < hi {
      PaidOverLast(ps, b, m, lo, hi - 1);
    }
  }

  lemma {:induction false} CorrectedOverLast(cs: seq<Correction>, b: Branch, m: Means, lo: Day, hi: Day)
    requires cs != []
    ensures var c := cs[|cs| - 1];
            CorrectedOver(cs, b, m, lo, hi)
            == CorrectedOver(cs[..|cs| - 1], b, m, lo, hi)
               + if c.branch == b && c.means == m && c.status == Approved && c.correctionDate.Some?
                    && lo <= c.correctionDate.value < hi then c.amount else 0
    decreases hi - lo
  {
    if lo < hi {
      CorrectedOverLast(cs, b, m, lo, hi - 1);
    }
  }

  lemma {:induction false} PaidOverAll(ps: seq<Payment>, b: Branch, m: Means, lo: Day, hi: Day)
    requires forall i :: 0 <= i < |ps| && ps[i].confirmedOn.Some? ==> lo <= ps[i].confirmedOn.value < hi
    ensures PaidOver(ps, b, m, lo, hi) == ConfirmedTotal(ps, b, m)
    decreases |ps|, hi - lo
  {
    if ps != [] {
      PaidOverLast(ps, b, m, lo, hi);
      PaidOverAll(ps[..|ps| - 1], b, m, lo, hi);
    } else if lo < hi {
      PaidOverAll(ps, b, m, lo, hi - 1);
    }
  }

  lemma {:induction false} CorrectedOverAll(cs: seq<Correction>, b: Branch, m: Means, lo: Day, hi: Day)
    requires forall i :: 0 <= i < |cs| ==> (cs[i].status == Approved <==> cs[i].correctionDate.Some?)
    requires forall i :: 0 <= i < |cs| && cs[i].correctionDate.Some? ==> lo <= cs[i].correctionDate.value < hi
    ensures CorrectedOver(cs, b, m, lo, hi) == ApprovedTotal(cs, b, m)
    decreases |cs|, hi - lo
  {
    if cs != [] {
      CorrectedOverLast(cs, b, m, lo, hi);
      CorrectedOverAll(cs[..|cs| - 1], b, m, lo, hi);
    } else if lo < hi {
      CorrectedOverAll(cs, b, m, lo, hi - 1);
    }
  }

  /**
   * In every run, per branch and means of payment, the day-by-day history of payments minus
   * corrections, over any span of days that holds all its dates, is what is settled right now.
   */
  lemma HistoryAgreesWithLiveSettlement(calls: seq<Call>, b: Branch, m: Means, lo: Day, hi: Day)
    requires DatesWithin(Run(Empty, calls), lo, hi)
    ensures var s := Run(Empty, calls);
            History(s, b, m, lo, hi) == LiveSettled(s, b, m, |s.payments|)
  {
    RunKeepsInv(Empty, calls);
    var s := Run(Empty, calls);
    forall i | 0 <= i < |s.corrections|
      ensures s.corrections[i].status == Approved <==> s.corrections[i].correctionDate.Some?
    {
      assert CorrectionOk(s, i);
    }
    HistorySplits(s, b, m, lo, hi);
    PaidOverAll(s.payments, b, m, lo, hi);
    CorrectedOverAll(s.corrections, b, m, lo, hi);
    ApprovedMatchesCorrected(s, |s.corrections|, b, m);
    assert s.corrections[..|s.corrections|] == s.corrections && s.payments[..|s.payments|] == s.payments;
    LiveIsConfirmedMinusCorrected(s, |s.payments|, b, m);
  }

  // ---------------------------------------------------------------- locked days

  function VariableOn(es: seq<Expense>, b: Branch, d: Day): int {
    if es == [] then 0
    else
      var e := es[|es| - 1];
      VariableOn(es[..|es| - 1], b, d)
      + if e.branch == b && !e.isFixed && e.status == Confirmed && e.confirmedOn == Some(d) then e.amount else 0
  }

  /** The rollup's expense total: variable ones on their confirmation day, fixed ones on their due date. */
  function ExpensesOn(es: seq<Expense>, b: Branch, d: Day): int {
    if es == [] then 0
    else
      var e := es[|es| - 1];
      ExpensesOn(es[..|es| - 1], b, d) + if IsOn(e, b, d) then e.amount else 0
  }

  predicate IsOn(e: Expense, b: Branch, d: Day) {
    && e.branch == b && e.status == Confirmed
    && ((!e.isFixed && e.confirmedOn == Some(d)) || (e.isFixed && e.dueOn == Some(d)))
  }

  lemma {:induction false} CorrectedOnUpdate(cs: seq<Correction>, i: nat, c: Correction, b: Branch, m: Means, d: Day)
    requires i < |cs| && cs[i].status != Approved
    ensures CorrectedOn(cs[i := c], b, m, d)
         == CorrectedOn(cs, b, m, d)
            + if c.branch == b && c.means == m && c.status == Approved && c.correctionDate == Some(d) then c.amount else 0
  {
    var last := |cs| - 1;
    if i < last {
      CorrectedOnUpdate(cs[..last], i, c, b, m, d);
      assert cs[i := c][..last] == cs[..last][i := c];
    } else {
      assert cs[i := c][..last] == cs[..last];
    }
  }

  lemma {:induction false} VariableOnUpdate(es: seq<Expense>, i: nat, e: Expense, b: Branch, d: Day)
    requires i < |es| && es[i].status != Confirmed
    ensures VariableOn(es[i := e], b, d)
         == VariableOn(es, b, d)
            + if e.branch == b && !e.isFixed && e.status == Confirmed && e.confirmedOn == Some(d) then e.amount else 0
  {
    var last := |es| - 1;
    if i < last {
      VariableOnUpdate(es[..last], i, e, b, d);
      assert es[i := e][..last] == es[..last][i := e];
    } else {
      assert es[i := e][..last] == es[..last];
    }
  }

  lemma {:induction false} ExpensesOnUpdate(es: seq<Expense>, i: nat, e: Expense, b: Branch, d: Day)
    requires i < |es| && es[i].status != Confirmed
    ensures ExpensesOn(es[i := e], b, d) == ExpensesOn(es, b, d) + if IsOn(e, b, d) then e.amount else 0
  {
    var last := |es| - 1;
    if i < last {
      ExpensesOnUpdate(es[..last], i, e, b, d);
      assert es[i := e][..last] == es[..last][i := e];
    } else {
      assert es[i := e][..last] == es[..last];
    }
  }

  /** No call moves a correction or a variable expense onto a locked day, and no day is unlocked. */
  lemma LockedDayIsKept(s: State, c: Call, b: Branch, d: Day, m: Means)
    requires (b, d) in s.locked
    ensures var s' := Apply(s, c).0;
            && (b, d) in s'.locked
            && CorrectedOn(s'.corrections, b, m, d) == CorrectedOn(s.corrections, b, m, d)
            && VariableOn(s'.expenses, b, d) == VariableOn(s.expenses, b, d)
  {
    CorrectionsStand(s, c, b, d, m);
    VariableExpensesStand(s, c, b, d);
  }

  lemma CorrectionsStand(s: State, c: Call, b: Branch, d: Day, m: Means)
    requires (b, d) in s.locked
    ensures CorrectedOn(Apply(s, c).0.corrections, b, m, d) == CorrectedOn(s.corrections, b, m, d)
  {
    var s' := Apply(s, c).0;
    match c
    case RequestCorrection(_, _, _, _, _) =>
      if s'.corrections != s.corrections {
        assert s'.corrections[..|s.corrections|] == s.corrections;
      }
    case ApproveCorrection(id, _, _) =>
      if s'.corrections != s.corrections {
        CorrectedOnUpdate(s.corrections, id, s'.corrections[id], b, m, d);
      }
    case RejectCorrection(id, _) =>
      if s'.corrections != s.corrections {
        CorrectedOnUpdate(s.corrections, id, s'.corrections[id], b, m, d);
      }
    case _ =>
  }

  lemma VariableExpensesStand(s: State, c: Call, b: Branch, d: Day)
    requires (b, d) in s.locked
    ensures VariableOn(Apply(s, c).0.expenses, b, d) == VariableOn(s.expenses, b, d)
  {
    var s' := Apply(s, c).0;
    match c
    case CreateExpense(_, _) =>
      if s'.expenses != s.expenses {
        assert s'.expenses[..|s.expenses|] == s.expenses;
      }
    case ConfirmExpense(id, _, _) =>
      if s'.expenses != s.expenses {
        VariableOnUpdate(s.expenses, id, s'.expenses[id], b, d);
      }
    case RejectExpense(id, _) =>
      if s'.expenses != s.expenses {
        VariableOnUpdate(s.expenses, id, s'.expenses[id], b, d);
      }
    case _ =>
  }

  /** Over any later run, recomputing a locked day's corrections and variable expenses gives the locked figures. */
  lemma {:induction false} LockedDayStands(s: State, calls: seq<Call>, b: Branch, d: Day, m: Means)
    requires (b, d) in s.locked
    ensures var s' := Run(s, calls);
            && (b, d) in s'.locked
            && CorrectedOn(s'.corrections, b, m, d) == CorrectedOn(s.corrections, b, m, d)
            && VariableOn(s'.expenses, b, d) == VariableOn(s.expenses, b, d)
  {
    if calls != [] {
      LockedDayStands(s, calls[..|calls| - 1], b, d, m);
      LockedDayIsKept(Run(s, calls[..|calls| - 1]), calls[|calls| - 1], b, d, m);
    }
  }

  /**
   * The whole expense total of a locked day is not safe: confirming an expense changes it exactly when
   * the expense is a fixed one of that branch that falls due on that day.
   */
  lemma ConfirmRewritesLockedDayIffFixedAndDue(s: State, c: Call, b: Branch, d: Day)
    requires ExpensesOk(s.expenses) && (b, d) in s.locked && c.ConfirmExpense? && Apply(s, c).1 == Done
    ensures var e := s.expenses[c.id];
            ExpensesOn(Apply(s, c).0.expenses, b, d) != ExpensesOn(s.expenses, b, d)
            <==> e.isFixed && e.branch == b && e.dueOn == Some(d)
  {
    ExpensesOnUpdate(s.expenses, c.id, Apply(s, c).0.expenses[c.id], b, d);
  }

  function Rent(): Call {
    CreateExpense(ExpenseForm(0, "rent", 700, Cash, None, true, Some(5), false, "", None), true)
  }

  function RentRow(): Expense {
    Expense(0, true, Some(5), false, Cash, None, 700, Reported, 0, None, None, None)
  }

  lemma RentReported()
    ensures Apply(Empty, Rent()).0 == State([], [], [RentRow()], {})
  {
  }

  lemma RentConfirmed()
    ensures var s := State([], [], [RentRow()], {(0, 5)});
            var after := Apply(s, ConfirmExpense(0, 0, 9)).0;
            after.expenses == [RentRow().(status := Confirmed, confirmedOn := Some(9), version := 1)]
  {
  }

  lemma OneExpenseOn(e: Expense, b: Branch, d: Day)
    ensures ExpensesOn([e], b, d) == if IsOn(e, b, d) then e.amount else 0
  {
    assert [e][..0] == [];
  }

  /** Such calls: rent due on day 5 is reported, day 5 locked, the rent confirmed on day 9. */
  lemma FixedExpenseRewritesLockedDay()
    ensures var locked := Apply(Apply(Empty, Rent()).0, CloseDay(0, 5)).0;
            var after := Apply(locked, ConfirmExpense(0, 0, 9)).0;
            && (0, 5) in locked.locked
            && ExpensesOn(locked.expenses, 0, 5) == 0
            && ExpensesOn(after.expenses, 0, 5) == 700
  {
    RentReported();
    RentConfirmed();
    OneExpenseOn(RentRow(), 0, 5);
    OneExpenseOn(RentRow().(status := Confirmed, confirmedOn := Some(9), version := 1), 0, 5);
  }

  // ---------------------------------------------------------------- what one call does

  /** A correction is asked for exactly with a reason, under a new id, of a confirmed payment nothing stands against. */
  lemma RequestedIff(s: State, kind: PaymentKind, target: nat, reason: string, reference: string, uuid: nat)
    ensures var (after, r) := Apply(s, RequestCorrection(kind, target, reason, reference, uuid));
            && (r == Done <==>
                  && reason != "" && (forall i :: 0 <= i < |s.corrections| ==> s.corrections[i].clientUuid != uuid)
                  && target < |s.payments| && s.payments[target].kind == kind && s.payments[target].confirmedOn.Some?
                  && forall i :: 0 <= i < |s.corrections| && s.corrections[i].target == target ==> s.corrections[i].status == Rejected)
            && (r == Done ==>
                  && after == s.(corrections := after.corrections) && |after.corrections| == |s.corrections| + 1
                  && after.corrections[..|s.corrections|] == s.corrections
                  && var c := after.corrections[|s.corrections|];
                     && c.target == target && c.branch == s.payments[target].branch && c.means == s.payments[target].means
                     && c.amount == s.payments[target].amount && c.status == Requested && c.correctionDate.None?
                     && c.clientUuid == uuid && c.version == 0)
            && (r != Done ==> after == s)
  {
  }

  /** It is approved exactly while open, as it was read, on a day of its branch that is not locked: on that day. */
  lemma ApprovedIff(s: State, id: nat, expectedVersion: nat, today: Day)
    requires id < |s.corrections|
    ensures var (after, r) := Apply(s, ApproveCorrection(id, expectedVersion, today));
            var c := s.corrections[id];
            && (r == Done <==> c.status == Requested && c.version == expectedVersion && (c.branch, today) !in s.locked)
            && (r == Done ==>
                  && after.corrections == s.corrections[id := c.(status := Approved, correctionDate := Some(today), version := c.version + 1)]
                  && after.expenses == s.expenses && after.locked == s.locked && |after.payments| == |s.payments|
                  && (forall t :: 0 <= t < |s.payments| ==>
                        after.payments[t] == if t == c.target && s.payments[t].kind == RefundPayout && s.payments[t].correctedBy.None?
                                             then s.payments[t].(correctedBy := Some(id)) else s.payments[t]))
            && (r != Done ==> after == s)
  {
  }

  /** It is rejected exactly while open and as it was read, and moves no money. */
  lemma RejectedIff(s: State, id: nat, expectedVersion: nat)
    requires id < |s.corrections|
    ensures var (after, r) := Apply(s, RejectCorrection(id, expectedVersion));
            var c := s.corrections[id];
            && (r == Done <==> c.status == Requested && c.version == expectedVersion)
            && after == (if r == Done then s.(corrections := s.corrections[id := c.(status := Rejected, version := c.version + 1)]) else s)
  {
  }

  /** An expense that can be booked: an amount, the right account, a due date if it is fixed, and salaries are fixed. */
  predicate IsExpense(f: ExpenseForm, accountActive: bool) {
    && f.amount > 0
    && (if f.means == Cash then f.account.None? else f.account.Some? && accountActive)
    && (if f.isFixed then f.dueOn.Some? else f.dueOn.None? && !f.isSalary)
  }

  /** An expense is reported exactly when it can be booked and its request id is new; nothing of it is confirmed yet. */
  lemma ExpenseReportedIff(s: State, f: ExpenseForm, accountActive: bool)
    ensures var (after, r) := Apply(s, CreateExpense(f, accountActive));
            && (r == Done <==>
                  && IsExpense(f, accountActive)
                  && (f.clientUuid.Some? ==> forall i :: 0 <= i < |s.expenses| ==> s.expenses[i].clientUuid != f.clientUuid))
            && (r == Done ==>
                  && after == s.(expenses := after.expenses) && |after.expenses| == |s.expenses| + 1
                  && after.expenses[..|s.expenses|] == s.expenses
                  && var e := after.expenses[|s.expenses|];
                     && e.branch == f.branch && e.amount == f.amount && e.means == f.means && e.account == f.account
                     && e.isFixed == f.isFixed && e.dueOn == f.dueOn && e.isSalary == f.isSalary && e.clientUuid == f.clientUuid
                     && e.status == Reported && e.confirmedOn.None? && e.version == 0)
            && (r != Done ==> after == s)
  {
  }

  /** It is confirmed exactly while open and as it was read; a variable one needs today's books open, and lands there. */
  lemma ExpenseConfirmedIff(s: State, id: nat, expectedVersion: nat, today: Day)
    requires id < |s.expenses|
    ensures var (after, r) := Apply(s, ConfirmExpense(id, expectedVersion, today));
            var e := s.expenses[id];
            && (r == Done <==>
                  e.status == Reported && e.version == expectedVersion && (!e.isFixed ==> (e.branch, today) !in s.locked))
            && after == (if r == Done
                         then s.(expenses := s.expenses[id := e.(status := Confirmed, confirmedOn := Some(today), version := e.version + 1)])
                         else s)
  {
  }

  /** It is declined exactly while open and as it was read, and counts nowhere. */
  lemma ExpenseDeclinedIff(s: State, id: nat, expectedVersion: nat)
    requires id < |s.expenses|
    ensures var (after, r) := Apply(s, RejectExpense(id, expectedVersion));
            var e := s.expenses[id];
            && (r == Done <==> e.status == Reported && e.version == expectedVersion)
            && after == (if r == Done then s.(expenses := s.expenses[id := e.(status := Declined, version := e.version + 1)]) else s)
  {
  }

  /** The same request sent again is answered and changes nothing. */
  lemma RequestSentAgain(s: State, c: Call)
    requires c.RequestCorrection? && Apply(s, c).1 == Done
    ensures Apply(Apply(s, c).0, c) == (Apply(s, c).0, Replayed)
  {
    var cs := Apply(s, c).0.corrections;
    assert cs[|s.corrections|].clientUuid == c.clientUuid;
  }

  /** The same expense sent again is answered; another under its request id only when their payloads read the same. */
  lemma ExpenseSentAgain(s: State, f: ExpenseForm, g: ExpenseForm, accountActive: bool)
    requires f.clientUuid.Some? && g.clientUuid == f.clientUuid && Apply(s, CreateExpense(f, accountActive)).1 == Done
    requires IsExpense(g, true)
    ensures var after := Apply(s, CreateExpense(f, accountActive)).0;
            Apply(after, CreateExpense(g, accountActive))
            == (after, if PrintOf(g).text == PrintOf(f).text then Replayed else Refused(Conflict))
  {
    ExpenseReportedIff(s, f, accountActive);
    var es := Apply(s, CreateExpense(f, accountActive)).0.expenses;
    assert es[|s.expenses|] == ExpenseRow(f);
    assert WasReportedAs(es, f.clientUuid.value);
  }

  /** In every run each expense on the books can be there. */
  lemma ExpensesAreWellFormed(calls: seq<Call>, i: nat)
    requires i < |Run(Empty, calls).expenses|
    ensures var e := Run(Empty, calls).expenses[i];
            && e.amount > 0 && (e.isFixed <==> e.dueOn.Some?) && (e.status == Confirmed <==> e.confirmedOn.Some?)
  {
    RunKeepsInv(Empty, calls);
  }

  // ---------------------------------------------------------------- what a request hash tells apart

  /** The reason runs over its bar: what follows it there stands in the other's reference. */
  ghost predicate Spills(reason: string, reference: string, reason': string, reference': string) {
    exists x: string :: reason == Joined(reason', x) && reference' == Joined(x, reference)
  }

  /** Two texts are joined to the same payload exactly when they are the same or one spills over into the other. */
  lemma JoinedAgreeIff(a: string, b: string, c: string, d: string)
    ensures Joined(a, b) == Joined(c, d) <==> (a == c && b == d) || Spills(a, b, c, d) || Spills(c, d, a, b)
  {
    if Joined(a, b) == Joined(c, d) {
      if |a| == |c| {
        SameLengthAgree(a, b, c, d);
      } else if |a| > |c| {
        LongerSpills(a, b, c, d);
      } else {
        LongerSpills(c, d, a, b);
      }
    }
    SpillsAgree(a, b, c, d);
    SpillsAgree(c, d, a, b);
  }

  lemma SameLengthAgree(a: string, b: string, c: string, d: string)
    requires Joined(a, b) == Joined(c, d) && |a| == |c|
    ensures a == c && b == d
  {
    assert a == Joined(a, b)[..|a|] && c == Joined(c, d)[..|a|];
    assert b == Joined(a, b)[|a| + 1..] && d == Joined(c, d)[|a| + 1..];
  }

  lemma LongerSpills(a: string, b: string, c: string, d: string)
    requires Joined(a, b) == Joined(c, d) && |a| > |c|
    ensures Spills(a, b, c, d)
  {
    var all := Joined(a, b);
    var x := a[|c| + 1..];
    assert a == all[..|a|] && c == all[..|c|] && all[|c|] == '|';
    assert a == Joined(c, x);
    assert d == all[|c| + 1..] && all[|c| + 1..] == Joined(x, b);
  }

  lemma SpillsAgree(a: string, b: string, c: string, d: string)
    ensures Spills(a, b, c, d) ==> Joined(a, b) == Joined(c, d)
  {
    if x: string :| a == Joined(c, x) && d == Joined(x, b) {
      assert Joined(Joined(c, x), b) == Joined(c, Joined(x, b));
    }
  }

  /**
   * A request id used for another correction is meant to be refused. It is replayed instead exactly when the two
   * name the same payment and their texts agree or spill.
   */
  lemma ChangedRequestIsReplayedIff(s: State, c: Call, i: nat, reason: string, reference: string)
    requires c.RequestCorrection? && c.reason != "" && i < |s.corrections|
    requires s.corrections[i].clientUuid == c.clientUuid
    requires forall j :: 0 <= j < |s.corrections| && s.corrections[j].clientUuid == c.clientUuid ==> j == i
    requires s.corrections[i].requestHash.text == Joined(reason, reference)
    ensures ApplyRequest(s, c).0 == s
    ensures ApplyRequest(s, c).1 == Replayed <==>
            && s.corrections[i].requestHash.kind == c.kind && s.corrections[i].requestHash.target == c.target
            && ((reason == c.reason && reference == c.reference)
                || Spills(reason, reference, c.reason, c.reference) || Spills(c.reason, c.reference, reason, reference))
  {
    JoinedAgreeIff(reason, reference, c.reason, c.reference);
    assert WasRequestedAs(s.corrections, c.clientUuid);
  }

  /** Such texts: reason "a|b" with reference "c", and reason "a" with reference "b|c". */
  lemma BarredTextsCollide()
    ensures Joined("a|b", "c") == Joined("a", "b|c")
  {
    assert "a|b" == Joined("a", "b") && "b|c" == Joined("b", "c");
  }

  /** Expenses collide the same way: a category or a note that holds the middle of the payload. */
  lemma BarredExpensesCollide(f: ExpenseForm, g: ExpenseForm, x: string)
    requires Middle(f) == Middle(g)
    requires f.category == Joined(g.category, Joined(Middle(g), x)) && g.note == Joined(x, Joined(Middle(f), f.note))
    ensures PrintOf(f) == PrintOf(g)
  {
    var m := Middle(f);
    assert Joined(Joined(g.category, Joined(m, x)), Joined(m, f.note)) == Joined(g.category, Joined(m, Joined(x, Joined(m, f.note))));
  }

  // ---------------------------------------------------------------- the services

  lemma HasWithStep(cs: seq<Correction>, i: nat, target: nat, status: CorrectionStatus)
    requires i < |cs|
    ensures HasWith(cs[..i + 1], target, status)
       <==> HasWith(cs[..i], target, status) || (cs[i].target == target && cs[i].status == status)
  {
    if HasWith(cs[..i], target, status) {
      var j :| 0 <= j < i && cs[..i][j].target == target && cs[..i][j].status == status;
      assert cs[..i + 1][j] == cs[..i][j];
    }
    assert cs[..i + 1][i] == cs[i];
    if HasWith(cs[..i + 1], target, status) {
      var j :| 0 <= j < i + 1 && cs[..i + 1][j].target == target && cs[..i + 1][j].status == status;
      assert j < i ==> cs[..i][j] == cs[..i + 1][j];
    }
  }

  lemma ReplayStep(es: seq<Expense>, i: nat, uuid: nat, hash: ExpensePrint)
    requires i < |es|
    ensures WasReportedAs(es[..i + 1], uuid) <==> WasReportedAs(es[..i], uuid) || es[i].clientUuid == Some(uuid)
    ensures WasReportedDifferently(es[..i + 1], uuid, hash)
       <==> WasReportedDifferently(es[..i], uuid, hash) || (es[i].clientUuid == Some(uuid) && es[i].requestHash != Some(hash))
  {
    assert es[..i + 1] == es[..i] + [es[i]];
    assert forall j :: 0 <= j < i ==> es[..i][j] == es[j] == es[..i + 1][j];
    assert es[..i + 1][i] == es[i];
  }

  /** The tables as the services update them, one guarded write at a time. */
  class BooksService {
    var payments: seq<Payment>
    var corrections: seq<Correction>
    var expenses: seq<Expense>
    var locked: set<(Branch, Day)>

    ghost function Snapshot(): State
      reads this
    {
      State(payments, corrections, expenses, locked)
    }

    constructor ()
      ensures Snapshot() == Empty
    {
      payments, corrections, expenses, locked := [], [], [], {};
    }

    method Request(kind: PaymentKind, target: nat, reason: string, reference: string, clientUuid: nat)
      returns (r: Outcome)
      modifies this`corrections
      ensures (Snapshot(), r)
           == Apply(old(Snapshot()), RequestCorrection(kind, target, reason, reference, clientUuid))
    {
      if reason == "" {
        return Refused(BadRequest);
      }
      var hash := Fingerprint(kind, target, Joined(reason, reference));
      if exists i :: 0 <= i < |corrections| && corrections[i].clientUuid == clientUuid {
        if exists i :: 0 <= i < |corrections| && corrections[i].clientUuid == clientUuid && corrections[i].requestHash != hash {
          return Refused(Conflict);
        }
        return Replayed;
      }
      if target >= |payments| || payments[target].kind != kind {
        return Refused(BadRequest);
      }
      var p := payments[target];
      if p.confirmedOn.None? {
        return Refused(Conflict);
      }
      var existing, approved, open := corrections, false, false;
      for i := 0 to |existing|
        invariant corrections == existing
        invariant approved == HasWith(existing[..i], target, Approved)
        invariant open == HasWith(existing[..i], target, Requested)
      {
        HasWithStep(existing, i, target, Approved);
        HasWithStep(existing, i, target, Requested);
        if existing[i].target == target {
          approved := approved || existing[i].status == Approved;
          open := open || existing[i].status == Requested;
        }
      }
      assert existing[..|existing|] == existing;
      if approved || open {
        return Refused(Conflict);
      }
      corrections := corrections + [Correction(target, p.branch, p.means, p.amount, Requested, 0, None, clientUuid, hash)];
      return Done;
    }

    method Approve(id: nat, expectedVersion: nat, today: Day) returns (r: Outcome)
      modifies this`corrections, this`payments
      ensures (Snapshot(), r) == Apply(old(Snapshot()), ApproveCorrection(id, expectedVersion, today))
    {
      if id >= |corrections| {
        return Refused(NotFound);
      }
      var k := corrections[id];
      if k.status != Requested || (k.branch, today) in locked {
        return Refused(Conflict);
      }
      if k.version != expectedVersion {
        return Refused(Conflict);
      }
      corrections := corrections[id := k.(status := Approved, correctionDate := Some(today), version := k.version + 1)];
      if k.target < |payments| && payments[k.target].kind == RefundPayout && payments[k.target].correctedBy.None? {
        payments := payments[k.target := payments[k.target].(correctedBy := Some(id))];
      }
      return Done;
    }

    method Reject(id: nat, expectedVersion: nat) returns (r: Outcome)
      modifies this`corrections
      ensures (Snapshot(), r) == Apply(old(Snapshot()), RejectCorrection(id, expectedVersion))
    {
      if id >= |corrections| {
        return Refused(NotFound);
      }
      var k := corrections[id];
      if k.status != Requested || k.version != expectedVersion {
        return Refused(Conflict);
      }
      corrections := corrections[id := k.(status := Rejected, version := k.version + 1)];
      return Done;
    }

    method Confirm(id: nat, expectedVersion: nat, today: Day) returns (r: Outcome)
      modifies this`expenses
      ensures (Snapshot(), r) == Apply(old(Snapshot()), ConfirmExpense(id, expectedVersion, today))
    {
      if id >= |expenses| {
        return Refused(NotFound);
      }
      var e := expenses[id];
      if e.status != Reported {
        return Refused(Conflict);
      }
      if !e.isFixed && (e.branch, today) in locked {
        return Refused(Conflict);
      }
      if e.version != expectedVersion {
        return Refused(Conflict);
      }
      expenses := expenses[id := e.(status := Confirmed, confirmedOn := Some(today), version := e.version + 1)];
      return Done;
    }

    method Report(f: ExpenseForm, accountActive: bool) returns (r: Outcome)
      modifies this`expenses
      ensures (Snapshot(), r) == Apply(old(Snapshot()), CreateExpense(f, accountActive))
    {
      if f.amount <= 0 {
        return Refused(BadRequest);
      }
      if (f.means == Cash && f.account.Some?) || (f.means == Account && f.account.None?) {
        return Refused(BadRequest);
      }
      if (!f.isFixed && f.dueOn.Some?) || (f.isFixed && f.dueOn.None?) || (f.isSalary && !f.isFixed) {
        return Refused(BadRequest);
      }
      if f.clientUuid.Some? {
        var replayed, same := FindReplay(f.clientUuid.value, PrintOf(f));
        if replayed {
          return if same then Replayed else Refused(Conflict);
        }
      }
      if f.means == Account && !accountActive {
        return Refused(NotFound);
      }
      expenses := expenses + [ExpenseRow(f)];
      return Done;
    }

    /** The lookup of an earlier report under the same request id. */
    method FindReplay(uuid: nat, hash: ExpensePrint) returns (found: bool, same: bool)
      ensures found <==> WasReportedAs(expenses, uuid)
      ensures found ==> (same <==> !WasReportedDifferently(expenses, uuid, hash))
    {
      found, same := false, true;
      for i := 0 to |expenses|
        invariant found <==> WasReportedAs(expenses[..i], uuid)
        invariant same <==> !WasReportedDifferently(expenses[..i], uuid, hash)
      {
        ReplayStep(expenses, i, uuid, hash);
        if expenses[i].clientUuid == Some(uuid) {
          found, same := true, same && expenses[i].requestHash == Some(hash);
        }
      }
      assert expenses[..|expenses|] == expenses;
    }

    method Decline(id: nat, expectedVersion: nat) returns (r: Outcome)
      modifies this`expenses
      ensures (Snapshot(), r) == Apply(old(Snapshot()), RejectExpense(id, expectedVersion))
    {
      if id >= |expenses| {
        return Refused(NotFound);
      }
      var e := expenses[id];
      if e.status != Reported || e.version != expectedVersion {
        return Refused(Conflict);
      }
      expenses := expenses[id := e.(status := Declined, version := e.version + 1)];
      return Done;
    }
  }
}

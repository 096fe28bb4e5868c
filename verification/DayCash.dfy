/**
 * Expected cash computed twice: once by close from the day's rollup (src/closing/closing.service.ts,
 * src/analytics/rollup.service.ts), once as the cash row of buildChannels over channelMovements.
 */
module DayCash {
  import opened Prelude
  import opened Channels
  import Books

  type Branch = Books.Branch
  type Day = Books.Day

  /** How money moved: only cash touches the drawer; an account movement may name no account. */
  datatype Posting = Posting(cash: bool, account: Option<AccountId>, amount: int)

  datatype SalePayment = SalePayment(branch: Branch, soldOn: Day, posting: Posting)

  /** The sales, and the payments, corrections and expenses of the books. */
  datatype Tables = Tables(
    sales: seq<SalePayment>,
    payments: seq<Books.Payment>,
    corrections: seq<Books.Correction>,
    expenses: seq<Books.Expense>)

  function PaymentPosting(p: Books.Payment): Posting {
    Posting(p.means == Books.Cash, p.account, p.amount)
  }

  function ExpensePosting(e: Books.Expense): Posting {
    Posting(e.means == Books.Cash, e.account, e.amount)
  }

  /** A correction row names no account: its money goes back to the account its target left from. */
  function CorrectionPosting(c: Books.Correction, payments: seq<Books.Payment>): Posting {
    Posting(c.means == Books.Cash, if c.target < |payments| then payments[c.target].account else None, c.amount)
  }

  // ---------------------------------------------------------------- the rollup's side

  function CashOf(p: Posting): int {
    if p.cash then p.amount else 0
  }

  function SalesCash(rows: seq<SalePayment>, b: Branch, day: Day): int {
    if rows == [] then 0
    else
      var r := rows[|rows| - 1];
      SalesCash(rows[..|rows| - 1], b, day) + if r.branch == b && r.soldOn == day then CashOf(r.posting) else 0
  }

  predicate PaidBy(p: Books.Payment, kind: Books.PaymentKind, b: Branch, day: Day) {
    p.kind == kind && p.branch == b && p.confirmedOn == Some(day)
  }

  /** refundsPaidCash of the rollup; also suppliers.paidOn over the settlements. */
  function PaidCash(rows: seq<Books.Payment>, kind: Books.PaymentKind, b: Branch, day: Day): int {
    if rows == [] then 0
    else
      var r := rows[|rows| - 1];
      PaidCash(rows[..|rows| - 1], kind, b, day) + if PaidBy(r, kind, b, day) then CashOf(PaymentPosting(r)) else 0
  }

  /** A variable expense counts on its confirmation day, a fixed one on its due date. */
  predicate InRollup(e: Books.Expense, b: Branch, day: Day) {
    && e.branch == b && e.status == Books.Confirmed
    && ((!e.isFixed && e.confirmedOn == Some(day)) || (e.isFixed && e.dueOn == Some(day)))
  }

  function ExpensesCash(rows: seq<Books.Expense>, b: Branch, day: Day): int {
    if rows == [] then 0
    else
      var r := rows[|rows| - 1];
      ExpensesCash(rows[..|rows| - 1], b, day) + if InRollup(r, b, day) then CashOf(ExpensePosting(r)) else 0
  }

  /** The reconciliation equation of close. */
  function ExpectedCash(t: Tables, b: Branch, day: Day): int {
    SalesCash(t.sales, b, day) - PaidCash(t.payments, Books.RefundPayout, b, day)
    - PaidCash(t.payments, Books.SupplierSettlement, b, day) - ExpensesCash(t.expenses, b, day)
    + Books.CorrectedOn(t.corrections, b, Books.Cash, day)
  }

  // ---------------------------------------------------------------- the movements' side

  /** GROUP BY method, account with SUM(amount): one posting per group, in order of first appearance. */
  function AddToGroup(groups: seq<Posting>, p: Posting): seq<Posting> {
    if groups == [] then [p]
    else if groups[0].cash == p.cash && groups[0].account == p.account then
      [groups[0].(amount := groups[0].amount + p.amount)] + groups[1..]
    else [groups[0]] + AddToGroup(groups[1..], p)
  }

  function Grouped(ps: seq<Posting>): seq<Posting> {
    if ps == [] then [] else AddToGroup(Grouped(ps[..|ps| - 1]), ps[|ps| - 1])
  }

  function SalePostings(rows: seq<SalePayment>, b: Branch, day: Day): seq<Posting> {
    if rows == [] then []
    else
      var r, before := rows[|rows| - 1], SalePostings(rows[..|rows| - 1], b, day);
      if r.branch == b && r.soldOn == day then before + [r.posting] else before
  }

  function PaymentPostings(rows: seq<Books.Payment>, kind: Books.PaymentKind, b: Branch, day: Day): seq<Posting> {
    if rows == [] then []
    else
      var r, before := rows[|rows| - 1], PaymentPostings(rows[..|rows| - 1], kind, b, day);
      if PaidBy(r, kind, b, day) then before + [PaymentPosting(r)] else before
  }

  /** `IF(expense_class = 'fixed', due_date, confirmation_date) = day`. */
  predicate InMovements(e: Books.Expense, b: Branch, day: Day) {
    e.branch == b && e.status == Books.Confirmed && (if e.isFixed then e.dueOn else e.confirmedOn) == Some(day)
  }

  function ExpensePostings(rows: seq<Books.Expense>, b: Branch, day: Day): seq<Posting> {
    if rows == [] then []
    else
      var r, before := rows[|rows| - 1], ExpensePostings(rows[..|rows| - 1], b, day);
      if InMovements(r, b, day) then before + [ExpensePosting(r)] else before
  }

  function CorrectionPostings(rows: seq<Books.Correction>, payments: seq<Books.Payment>, b: Branch, day: Day): seq<Posting> {
    if rows == [] then []
    else
      var r, before := rows[|rows| - 1], CorrectionPostings(rows[..|rows| - 1], payments, b, day);
      if r.branch == b && r.status == Books.Approved && r.correctionDate == Some(day)
      then before + [CorrectionPosting(r, payments)] else before
  }

  function AsMovements(groups: seq<Posting>, c: Component): seq<Movement> {
    if groups == [] then []
    else
      var g := groups[|groups| - 1];
      AsMovements(groups[..|groups| - 1], c)
      + [Movement(if g.cash then Cash else Account, if g.cash then None else g.account, c, g.amount)]
  }

  function ChannelMovements(t: Tables, b: Branch, day: Day): seq<Movement> {
    AsMovements(Grouped(SalePostings(t.sales, b, day)), SalesIn)
    + AsMovements(Grouped(PaymentPostings(t.payments, Books.RefundPayout, b, day)), RefundsOut)
    + AsMovements(Grouped(PaymentPostings(t.payments, Books.SupplierSettlement, b, day)), SupplierOut)
    + AsMovements(Grouped(ExpensePostings(t.expenses, b, day)), ExpensesOut)
    + AsMovements(Grouped(CorrectionPostings(t.corrections, t.payments, b, day)), CorrectionsIn)
  }

  // ---------------------------------------------------------------- the two agree

  /** The channel a posting belongs to. */
  function BucketOf(p: Posting): Key {
    if p.cash then CashKey else Key(Account, p.account)
  }

  function AmountAt(p: Posting, k: Key): int {
    if BucketOf(p) == k then p.amount else 0
  }

  function KeySum(ps: seq<Posting>, k: Key): int {
    if ps == [] then 0 else KeySum(ps[..|ps| - 1], k) + AmountAt(ps[|ps| - 1], k)
  }

  lemma KeySumLast(ps: seq<Posting>, p: Posting, k: Key)
    ensures KeySum(ps + [p], k) == KeySum(ps, k) + AmountAt(p, k)
  {
    assert (ps + [p])[..|ps|] == ps;
  }

  lemma {:induction false} KeySumFirst(ps: seq<Posting>, k: Key)
    requires ps != []
    ensures KeySum(ps, k) == AmountAt(ps[0], k) + KeySum(ps[1..], k)
  {
    if |ps| > 1 {
      KeySumFirst(ps[..|ps| - 1], k);
      assert ps[..|ps| - 1][1..] == ps[1..][..|ps[1..]| - 1];
    }
  }

  lemma {:induction false} AddToGroupSum(groups: seq<Posting>, p: Posting, k: Key)
    ensures KeySum(AddToGroup(groups, p), k) == KeySum(groups, k) + AmountAt(p, k)
    decreases |groups|
  {
    var out := AddToGroup(groups, p);
    KeySumFirst(out, k);
    if groups != [] {
      KeySumFirst(groups, k);
      if !(groups[0].cash == p.cash && groups[0].account == p.account) {
        AddToGroupSum(groups[1..], p, k);
        assert out[1..] == AddToGroup(groups[1..], p);
      } else {
        assert out[1..] == groups[1..];
      }
    }
  }

  /** Grouping loses no money of any channel. */
  lemma {:induction false} GroupedSum(ps: seq<Posting>, k: Key)
    ensures KeySum(Grouped(ps), k) == KeySum(ps, k)
  {
    if ps != [] {
      GroupedSum(ps[..|ps| - 1], k);
      AddToGroupSum(Grouped(ps[..|ps| - 1]), ps[|ps| - 1], k);
    }
  }

  lemma {:induction false} MovementsSum(groups: seq<Posting>, c: Component, k: Key)
    ensures SumsOf(AsMovements(groups, c), k) == Bump(Zero, c, KeySum(groups, k))
  {
    if groups != [] {
      var last := |groups| - 1;
      MovementsSum(groups[..last], c, k);
      var ms := AsMovements(groups, c);
      assert ms[..|ms| - 1] == AsMovements(groups[..last], c);
    }
  }

  lemma {:induction false} SumsAppend(a: seq<Movement>, b: seq<Movement>, k: Key)
    ensures SumsOf(a + b, k) == Plus(SumsOf(a, k), SumsOf(b, k))
  {
    if b == [] {
      assert a + b == a;
    } else {
      var last := |b| - 1;
      SumsAppend(a, b[..last], k);
      assert (a + b)[..|a + b| - 1] == a + b[..last];
      BumpIsPlus(SumsOf(a + b[..last], k), b[last], k);
      BumpIsPlus(SumsOf(b[..last], k), b[last], k);
    }
  }

  lemma SumsOfFive(a: seq<Movement>, b: seq<Movement>, c: seq<Movement>, d: seq<Movement>, e: seq<Movement>, k: Key)
    ensures SumsOf(a + b + c + d + e, k)
         == Plus(Plus(Plus(Plus(SumsOf(a, k), SumsOf(b, k)), SumsOf(c, k)), SumsOf(d, k)), SumsOf(e, k))
  {
    SumsAppend(a, b, k);
    SumsAppend(a + b, c, k);
    SumsAppend(a + b + c, d, k);
    SumsAppend(a + b + c + d, e, k);
  }

  lemma PartSum(ps: seq<Posting>, c: Component, k: Key)
    ensures SumsOf(AsMovements(Grouped(ps), c), k) == Bump(Zero, c, KeySum(ps, k))
  {
    MovementsSum(Grouped(ps), c, k);
    GroupedSum(ps, k);
  }

  lemma FiveParts(sales: int, refunds: int, suppliers: int, expenses: int, corrections: int)
    ensures Plus(Plus(Plus(Plus(Bump(Zero, SalesIn, sales), Bump(Zero, RefundsOut, refunds)),
                           Bump(Zero, SupplierOut, suppliers)), Bump(Zero, ExpensesOut, expenses)),
                 Bump(Zero, CorrectionsIn, corrections))
         == Sums(sales, refunds, suppliers, expenses, corrections)
  {
  }

  lemma {:induction false} SalesAgree(rows: seq<SalePayment>, b: Branch, day: Day)
    ensures KeySum(SalePostings(rows, b, day), CashKey) == SalesCash(rows, b, day)
  {
    if rows != [] {
      SalesAgree(rows[..|rows| - 1], b, day);
      var before := SalePostings(rows[..|rows| - 1], b, day);
      assert (before + [rows[|rows| - 1].posting])[..|before|] == before;
    }
  }

  lemma {:induction false} PaymentsAgree(rows: seq<Books.Payment>, kind: Books.PaymentKind, b: Branch, day: Day)
    ensures KeySum(PaymentPostings(rows, kind, b, day), CashKey) == PaidCash(rows, kind, b, day)
  {
    if rows != [] {
      PaymentsAgree(rows[..|rows| - 1], kind, b, day);
      var before := PaymentPostings(rows[..|rows| - 1], kind, b, day);
      assert (before + [PaymentPosting(rows[|rows| - 1])])[..|before|] == before;
    }
  }

  lemma {:induction false} ExpensesAgree(rows: seq<Books.Expense>, b: Branch, day: Day)
    ensures KeySum(ExpensePostings(rows, b, day), CashKey) == ExpensesCash(rows, b, day)
  {
    if rows != [] {
      ExpensesAgree(rows[..|rows| - 1], b, day);
      var before := ExpensePostings(rows[..|rows| - 1], b, day);
      assert (before + [ExpensePosting(rows[|rows| - 1])])[..|before|] == before;
    }
  }

  lemma {:induction false} CorrectionsAgree(rows: seq<Books.Correction>, payments: seq<Books.Payment>, b: Branch, day: Day)
    ensures KeySum(CorrectionPostings(rows, payments, b, day), CashKey) == Books.CorrectedOn(rows, b, Books.Cash, day)
  {
    if rows != [] {
      CorrectionsAgree(rows[..|rows| - 1], payments, b, day);
      var before := CorrectionPostings(rows[..|rows| - 1], payments, b, day);
      assert (before + [CorrectionPosting(rows[|rows| - 1], payments)])[..|before|] == before;
    }
  }

  /** The five cash figures close snapshots. */
  function DaySums(t: Tables, b: Branch, day: Day): Sums {
    Sums(SalesCash(t.sales, b, day), PaidCash(t.payments, Books.RefundPayout, b, day),
         PaidCash(t.payments, Books.SupplierSettlement, b, day), ExpensesCash(t.expenses, b, day),
         Books.CorrectedOn(t.corrections, b, Books.Cash, day))
  }

  /** The component totals of a channel are the sums of the records posted to it. */
  lemma ChannelTotals(t: Tables, b: Branch, day: Day, k: Key)
    ensures SumsOf(ChannelMovements(t, b, day), k)
         == Sums(KeySum(SalePostings(t.sales, b, day), k), KeySum(PaymentPostings(t.payments, Books.RefundPayout, b, day), k),
                 KeySum(PaymentPostings(t.payments, Books.SupplierSettlement, b, day), k),
                 KeySum(ExpensePostings(t.expenses, b, day), k), KeySum(CorrectionPostings(t.corrections, t.payments, b, day), k))
  {
    var s, r := SalePostings(t.sales, b, day), PaymentPostings(t.payments, Books.RefundPayout, b, day);
    var p, e := PaymentPostings(t.payments, Books.SupplierSettlement, b, day), ExpensePostings(t.expenses, b, day);
    var c := CorrectionPostings(t.corrections, t.payments, b, day);
    SumsOfFive(AsMovements(Grouped(s), SalesIn), AsMovements(Grouped(r), RefundsOut),
               AsMovements(Grouped(p), SupplierOut), AsMovements(Grouped(e), ExpensesOut),
               AsMovements(Grouped(c), CorrectionsIn), k);
    PartSum(s, SalesIn, k);
    PartSum(r, RefundsOut, k);
    PartSum(p, SupplierOut, k);
    PartSum(e, ExpensesOut, k);
    PartSum(c, CorrectionsIn, k);
    FiveParts(KeySum(s, k), KeySum(r, k), KeySum(p, k), KeySum(e, k), KeySum(c, k));
  }

  lemma CashTotals(t: Tables, b: Branch, day: Day)
    ensures SumsOf(ChannelMovements(t, b, day), CashKey) == DaySums(t, b, day)
  {
    ChannelTotals(t, b, day, CashKey);
    SalesAgree(t.sales, b, day);
    PaymentsAgree(t.payments, Books.RefundPayout, b, day);
    PaymentsAgree(t.payments, Books.SupplierSettlement, b, day);
    ExpensesAgree(t.expenses, b, day);
    CorrectionsAgree(t.corrections, t.payments, b, day);
  }

  lemma CashRow(ms: seq<Movement>, sums: Sums, accounts: seq<AccountRow>, le: LabelOrder)
    requires IsPreorder(le) && SumsOf(ms, CashKey) == sums
    ensures Build(ms, accounts, le) != []
    ensures var cash := Build(ms, accounts, le)[0];
            cash.key == CashKey && cash.expected == Expected(sums) && cash.sums == sums
  {
    CashRowFigures(ms, accounts, le);
  }

  /**
   * For every set of records, the expected cash of close is the expected figure of the cash row, and
   * the five components behind it are the ones close snapshots.
   */
  lemma ExpectedCashIsTheCashRow(t: Tables, b: Branch, day: Day, accounts: seq<AccountRow>, le: LabelOrder)
    requires IsPreorder(le)
    ensures Build(ChannelMovements(t, b, day), accounts, le) != []
    ensures var cash := Build(ChannelMovements(t, b, day), accounts, le)[0];
            && cash.key == CashKey
            && cash.expected == ExpectedCash(t, b, day)
            && cash.sums == DaySums(t, b, day)
  {
    CashTotals(t, b, day);
    CashRow(ChannelMovements(t, b, day), DaySums(t, b, day), accounts, le);
  }

  // ---------------------------------------------------------------- what one record does to a day

  /** The channel money moved through. */
  function BucketFor(means: Books.Means, account: Option<AccountId>): Key {
    if means == Books.Cash then Key(Cash, None) else Key(Account, account)
  }

  /** The channel figures of a branch's day. */
  function Figures(t: Tables, b: Branch, day: Day, k: Key): Sums {
    SumsOf(ChannelMovements(t, b, day), k)
  }

  lemma NothingHappened(b: Branch, day: Day, k: Key)
    ensures var none := Tables([], [], [], []);
            ExpectedCash(none, b, day) == 0 && Figures(none, b, day, k) == Sums(0, 0, 0, 0, 0)
  {
    ChannelTotals(Tables([], [], [], []), b, day, k);
  }

  /** The channel figures as sums over the records posted to the channel. */
  function Totals(t: Tables, b: Branch, day: Day, k: Key): Sums {
    Sums(KeySum(SalePostings(t.sales, b, day), k), KeySum(PaymentPostings(t.payments, Books.RefundPayout, b, day), k),
         KeySum(PaymentPostings(t.payments, Books.SupplierSettlement, b, day), k),
         KeySum(ExpensePostings(t.expenses, b, day), k), KeySum(CorrectionPostings(t.corrections, t.payments, b, day), k))
  }

  lemma FiguresAreTotals(t: Tables, b: Branch, day: Day, k: Key)
    ensures Figures(t, b, day, k) == Totals(t, b, day, k)
  {
    ChannelTotals(t, b, day, k);
  }

  lemma SalePosted(rows: seq<SalePayment>, r: SalePayment, b: Branch, day: Day, k: Key)
    ensures var here := r.branch == b && r.soldOn == day;
            var channel := if r.posting.cash then Key(Cash, None) else Key(Account, r.posting.account);
            && SalesCash(rows + [r], b, day) == SalesCash(rows, b, day) + (if here && r.posting.cash then r.posting.amount else 0)
            && KeySum(SalePostings(rows + [r], b, day), k)
            == KeySum(SalePostings(rows, b, day), k) + if here && channel == k then r.posting.amount else 0
  {
    assert (rows + [r])[..|rows|] == rows;
    KeySumLast(SalePostings(rows, b, day), r.posting, k);
  }

  /** A sale counts in its branch on its day, in the channel it was paid through, and nowhere else. */
  lemma SaleCounts(t: Tables, r: SalePayment, b: Branch, day: Day, k: Key)
    ensures var t', here := t.(sales := t.sales + [r]), r.branch == b && r.soldOn == day;
            var channel := if r.posting.cash then Key(Cash, None) else Key(Account, r.posting.account);
            var f := Figures(t, b, day, k);
            && ExpectedCash(t', b, day) == ExpectedCash(t, b, day) + (if here && r.posting.cash then r.posting.amount else 0)
            && Figures(t', b, day, k)
            == if here && channel == k then f.(salesIn := f.salesIn + r.posting.amount) else f
  {
    FiguresAreTotals(t, b, day, k);
    FiguresAreTotals(t.(sales := t.sales + [r]), b, day, k);
    SalePosted(t.sales, r, b, day, k);
  }

  lemma PaymentPosted(rows: seq<Books.Payment>, p: Books.Payment, kind: Books.PaymentKind, b: Branch, day: Day, k: Key)
    ensures var here := p.kind == kind && p.branch == b && p.confirmedOn == Some(day);
            && PaidCash(rows + [p], kind, b, day) == PaidCash(rows, kind, b, day) + (if here && p.means == Books.Cash then p.amount else 0)
            && KeySum(PaymentPostings(rows + [p], kind, b, day), k)
            == KeySum(PaymentPostings(rows, kind, b, day), k) + if here && BucketFor(p.means, p.account) == k then p.amount else 0
  {
    assert (rows + [p])[..|rows|] == rows;
    KeySumLast(PaymentPostings(rows, kind, b, day), PaymentPosting(p), k);
  }

  /**
   * A refund payout or a supplier settlement counts in its branch on the day it was confirmed, in the channel it was
   * paid from, and nowhere else.
   */
  lemma PaymentCounts(t: Tables, p: Books.Payment, b: Branch, day: Day, k: Key)
    requires forall i :: 0 <= i < |t.corrections| ==> t.corrections[i].target < |t.payments|
    ensures var t', here := t.(payments := t.payments + [p]), p.branch == b && p.confirmedOn == Some(day);
            var f, mine := Figures(t, b, day, k), here && BucketFor(p.means, p.account) == k;
            && ExpectedCash(t', b, day) == ExpectedCash(t, b, day) - (if here && p.means == Books.Cash then p.amount else 0)
            && Figures(t', b, day, k)
            == if !mine then f
               else if p.kind == Books.RefundPayout then f.(refundsOut := f.refundsOut + p.amount)
               else f.(supplierOut := f.supplierOut + p.amount)
  {
    PaymentCash(t, p, b, day);
    PaymentFigures(t, p, b, day, k);
  }

  lemma PaymentCash(t: Tables, p: Books.Payment, b: Branch, day: Day)
    ensures var here := p.branch == b && p.confirmedOn == Some(day) && p.means == Books.Cash;
            ExpectedCash(t.(payments := t.payments + [p]), b, day) == ExpectedCash(t, b, day) - (if here then p.amount else 0)
  {
    PaymentPosted(t.payments, p, Books.RefundPayout, b, day, CashKey);
    PaymentPosted(t.payments, p, Books.SupplierSettlement, b, day, CashKey);
  }

  /** What the payment adds to a channel. */
  function Share(p: Books.Payment, kind: Books.PaymentKind, b: Branch, day: Day, k: Key): int {
    if p.kind == kind && p.branch == b && p.confirmedOn == Some(day) && BucketFor(p.means, p.account) == k then p.amount else 0
  }

  lemma PaymentFigures(t: Tables, p: Books.Payment, b: Branch, day: Day, k: Key)
    requires forall i :: 0 <= i < |t.corrections| ==> t.corrections[i].target < |t.payments|
    ensures var f, f' := Figures(t, b, day, k), Figures(t.(payments := t.payments + [p]), b, day, k);
            f' == Sums(f.salesIn, f.refundsOut + Share(p, Books.RefundPayout, b, day, k),
                       f.supplierOut + Share(p, Books.SupplierSettlement, b, day, k), f.expensesOut, f.correctionsIn)
  {
    FiguresAreTotals(t, b, day, k);
    FiguresAreTotals(t.(payments := t.payments + [p]), b, day, k);
    PaymentShare(t.payments, p, Books.RefundPayout, b, day, k);
    PaymentShare(t.payments, p, Books.SupplierSettlement, b, day, k);
    TargetsStay(t.corrections, t.payments, p, b, day);
  }

  lemma PaymentShare(rows: seq<Books.Payment>, p: Books.Payment, kind: Books.PaymentKind, b: Branch, day: Day, k: Key)
    ensures KeySum(PaymentPostings(rows + [p], kind, b, day), k)
         == KeySum(PaymentPostings(rows, kind, b, day), k) + Share(p, kind, b, day, k)
  {
    PaymentPosted(rows, p, kind, b, day, k);
  }

  lemma {:induction false} TargetsStay(rows: seq<Books.Correction>, payments: seq<Books.Payment>, p: Books.Payment, b: Branch, day: Day)
    requires forall i :: 0 <= i < |rows| ==> rows[i].target < |payments|
    ensures CorrectionPostings(rows, payments + [p], b, day) == CorrectionPostings(rows, payments, b, day)
  {
    if rows != [] {
      TargetsStay(rows[..|rows| - 1], payments, p, b, day);
    }
  }

  lemma ExpensePosted(rows: seq<Books.Expense>, e: Books.Expense, b: Branch, day: Day, k: Key)
    ensures var here := e.branch == b && e.status == Books.Confirmed && (if e.isFixed then e.dueOn else e.confirmedOn) == Some(day);
            && ExpensesCash(rows + [e], b, day) == ExpensesCash(rows, b, day) + (if here && e.means == Books.Cash then e.amount else 0)
            && KeySum(ExpensePostings(rows + [e], b, day), k)
            == KeySum(ExpensePostings(rows, b, day), k) + if here && BucketFor(e.means, e.account) == k then e.amount else 0
  {
    assert (rows + [e])[..|rows|] == rows;
    KeySumLast(ExpensePostings(rows, b, day), ExpensePosting(e), k);
  }

  /** An expense counts once confirmed: a variable one on that day, a fixed one on its due date, in its own channel. */
  lemma ExpenseCounts(t: Tables, e: Books.Expense, b: Branch, day: Day, k: Key)
    ensures var t' := t.(expenses := t.expenses + [e]);
            var here := e.branch == b && e.status == Books.Confirmed && (if e.isFixed then e.dueOn else e.confirmedOn) == Some(day);
            var f := Figures(t, b, day, k);
            && ExpectedCash(t', b, day) == ExpectedCash(t, b, day) - (if here && e.means == Books.Cash then e.amount else 0)
            && Figures(t', b, day, k)
            == if here && BucketFor(e.means, e.account) == k then f.(expensesOut := f.expensesOut + e.amount) else f
  {
    FiguresAreTotals(t, b, day, k);
    FiguresAreTotals(t.(expenses := t.expenses + [e]), b, day, k);
    ExpensePosted(t.expenses, e, b, day, k);
  }

  lemma CorrectionPosted(rows: seq<Books.Correction>, payments: seq<Books.Payment>, c: Books.Correction, b: Branch, day: Day, k: Key)
    requires c.target < |payments|
    ensures var here := c.branch == b && c.status == Books.Approved && c.correctionDate == Some(day);
            && Books.CorrectedOn(rows + [c], b, Books.Cash, day)
            == Books.CorrectedOn(rows, b, Books.Cash, day) + (if here && c.means == Books.Cash then c.amount else 0)
            && KeySum(CorrectionPostings(rows + [c], payments, b, day), k)
            == KeySum(CorrectionPostings(rows, payments, b, day), k)
               + if here && BucketFor(c.means, payments[c.target].account) == k then c.amount else 0
  {
    assert (rows + [c])[..|rows|] == rows;
    KeySumLast(CorrectionPostings(rows, payments, b, day), CorrectionPosting(c, payments), k);
  }

  /** A correction counts once approved, on that day, in the channel its target was paid from. */
  lemma CorrectionCounts(t: Tables, c: Books.Correction, b: Branch, day: Day, k: Key)
    requires c.target < |t.payments|
    ensures var t' := t.(corrections := t.corrections + [c]);
            var here := c.branch == b && c.status == Books.Approved && c.correctionDate == Some(day);
            var f := Figures(t, b, day, k);
            && ExpectedCash(t', b, day) == ExpectedCash(t, b, day) + (if here && c.means == Books.Cash then c.amount else 0)
            && Figures(t', b, day, k)
            == if here && BucketFor(c.means, t.payments[c.target].account) == k then f.(correctionsIn := f.correctionsIn + c.amount) else f
  {
    FiguresAreTotals(t, b, day, k);
    FiguresAreTotals(t.(corrections := t.corrections + [c]), b, day, k);
    CorrectionPosted(t.corrections, t.payments, c, b, day, k);
  }
}

/** What holds over whole runs of the consignment protocol, starting before the first consignment. */
module ConsignmentRuns {
  import opened Prelude
  import opened ConsignmentLifecycle
  import opened UnitStates
  import opened ConsignmentModel
  import opened ConsignmentInvariant

  // ---------------------------------------------------------------- status and derived balance

  /** In every run the stored status of a deal agrees with the balance derived from its ledger. */
  lemma StatusAgreesWithBalance(start: Db, calls: seq<Call>, k: nat)
    requires Init(start) && k < |Run(start, calls).deals|
    ensures var d := Run(start, calls).deals[k];
            var owed := Outstanding(d.ledger);
            var raised := if d.ledger == [] then 0 else d.ledger[0].amount;
            && (d.ledger != [] <==> Disposed(d.c.status))
            && (d.ledger != [] <==> raised > 0)
            && (forall j :: 0 <= j < |d.ledger| ==> (d.ledger[j].kind == ReceivableRaised <==> j == 0))
            && (d.c.status == SoldAwaitingSettlement <==> owed == raised > 0)
            && (d.c.status == PartiallyPaid <==> 0 < owed < raised)
            && (d.c.status in {Settled, ForgivenSettled} <==> raised > 0 && owed == 0)
            && (d.c.status == Settled ==> d.ledger[|d.ledger| - 1].kind == PaymentConfirmed)
            && (d.c.status == ForgivenSettled ==> d.ledger[|d.ledger| - 1].kind == Forgiven)
            && 0 <= owed <= raised
  {
    InitInv(start);
    RunKeepsInv(start, calls);
    assert DealOk(Run(start, calls).deals[k]);
  }

  // ---------------------------------------------------------------- phones

  /** In every run a phone is consigned_out exactly when one live line, and only one, holds it. */
  lemma OnePhoneOneLine(start: Db, calls: seq<Call>)
    requires Init(start)
    ensures var db := Run(start, calls);
            && (forall k, i :: Live(db, k, i) ==>
                  UnitOf(db, k, i) in db.units && db.units[UnitOf(db, k, i)].status == ConsignedOut)
            && (forall u :: u in db.units && db.units[u].status == ConsignedOut ==>
                  exists k, i :: Live(db, k, i) && UnitOf(db, k, i) == u)
            && (forall k, i, l, j :: Live(db, k, i) && Live(db, l, j) && UnitOf(db, k, i) == UnitOf(db, l, j) ==>
                  k == l && i == j)
  {
    InitInv(start);
    RunKeepsInv(start, calls);
  }

  lemma MovedUnits(units: map<UnitId, Unit>, lines: seq<Line>, next: Status, w: Write, u: UnitId)
    requires u in units
    ensures var after := WriteUnits(units, lines, next, w);
            && u in after
            && (after[u].status == units[u].status
                || (units[u].status == ConsignedOut && after[u].status in {InStock, Sold, Faulty}))
  {
  }

  /** No call loses a unit, and every status it writes is an edge of the unit state machine. */
  lemma UnitWritesAreEdges(db: Db, call: Call, u: UnitId)
    requires u in db.units
    ensures var after := Apply(db, call).0;
            && u in after.units
            && (after.units[u].status == db.units[u].status
                || CanTransition(db.units[u].status, after.units[u].status))
  {
    match call
    case Create(_, _, _, _, _, _) => CreateTakesEdges(db, call, u);
    case Guarded(me, id, r) => GuardedTakesEdges(db, me, id, r, u);
    case _ =>
  }

  ghost predicate TakesEdge(units: map<UnitId, Unit>, after: map<UnitId, Unit>, u: UnitId) {
    u in units && u in after
    && (after[u].status == units[u].status || CanTransition(units[u].status, after[u].status))
  }

  lemma CreateTakesEdges(db: Db, call: Call, u: UnitId)
    requires call.Create? && u in db.units
    ensures TakesEdge(db.units, ApplyCreate(db, call).0.units, u)
  {
    ClaimSpec(db.units, call.me, call.branch, call.unitIds);
  }

  lemma GuardedTakesEdges(db: Db, me: Company, id: nat, r: Request, u: UnitId)
    requires u in db.units
    ensures TakesEdge(db.units, ApplyGuarded(db, me, id, r).0.units, u)
  {
    if id < |db.deals| && Prepare(me, db.deals[id].c, db.deals[id].lines, r).Go? {
      var p := Prepare(me, db.deals[id].c, db.deals[id].lines, r);
      MovedUnits(db.units, db.deals[id].lines, p.next, p.write, u);
    }
  }

  // ---------------------------------------------------------------- one step of one deal

  predicate IsOn(call: Call, k: nat) {
    (call.Guarded? || call.ReportPayment? || call.ConfirmPayment? || call.ForgiveDebt?) && call.id == k
  }

  /** What one call does to one deal. */
  datatype Effect =
    | Untouched
    | Wrote(me: Company, request: Request)
    | Noted(report: Entry)
    | Cleared(paid: Entry, closing: Status)

  function EffectOf(db: Db, call: Call, k: nat): Effect
    requires k < |db.deals|
  {
    if !IsOn(call, k) || Apply(db, call).1 != Done then Untouched
    else
      var ledger := db.deals[k].ledger;
      match call
      case Guarded(me, _, r) => Wrote(me, r)
      case ConfirmPayment(me, _, entry) =>
        if entry < |ledger| then Cleared(ConfirmationOf(ledger[entry], entry, me), Settled) else Untouched
      case ForgiveDebt(me, _, debt, _) => Cleared(PlainEntry(Forgiven, debt, me), ForgivenSettled)
      case ReportPayment(me, _, amount, via, account, reference, uuid) =>
        Noted(Entry(PaymentReported, OrZero(amount), via, account, reference, None, me, uuid,
                    if uuid.Some? then Some(Fingerprint(k, OrZero(amount), OrCash(via), account, reference)) else None))
      case _ => Untouched
  }

  function WriteDeal(d: Deal, me: Company, next: Status, w: Write): Deal {
    Deal(WriteConsignment(d.c, next, w), WriteLines(d.lines, next, w), WriteLedger(d.ledger, me, w))
  }

  function EffectOn(d: Deal, e: Effect): Deal {
    match e
    case Untouched => d
    case Wrote(me, r) =>
      var p := Prepare(me, d.c, d.lines, r);
      if p.Go? then WriteDeal(d, me, p.next, p.write) else d
    case Noted(report) => d.(ledger := d.ledger + [report])
    case Cleared(paid, closing) => SettleIfClear(d.(ledger := d.ledger + [paid]), closing)
  }

  /** The guards that held when the effect took place. */
  predicate Justified(d: Deal, e: Effect) {
    match e
    case Untouched => true
    case Wrote(me, r) => Prepare(me, d.c, d.lines, r).Go?
    case Noted(report) => report.kind == PaymentReported && 0 < report.amount <= Outstanding(d.ledger)
    case Cleared(paid, closing) =>
      && 0 < paid.amount <= Outstanding(d.ledger)
      && ((paid.kind == PaymentConfirmed && closing == Settled) || (paid.kind == Forgiven && closing == ForgivenSettled))
  }

  /** Seen from one deal, every call is its effect. */
  lemma ApplyIsEffect(db: Db, call: Call, k: nat)
    requires k < |db.deals|
    ensures k < |Apply(db, call).0.deals|
    ensures Apply(db, call).0.deals[k] == EffectOn(db.deals[k], EffectOf(db, call, k))
    ensures Justified(db.deals[k], EffectOf(db, call, k))
  {
  }

  function ActionOf(r: Request): Action {
    match r
    case Decide(action, _, _, _) => action
    case Custody(send, _) => if send then SendCustody else ConfirmCustody
    case ReportSold(_) => ReportSale
    case ReturnFlow(step, _) => ReturnAction(step)
  }

  /** A guarded call that goes ahead takes its action's rule, as a side the rule allows. */
  lemma GoFollowsRule(me: Company, c: Consignment, lines: seq<Line>, r: Request)
    requires Prepare(me, c, lines, r).Go?
    ensures SideOf(c, me).Some?
    ensures var rule := RuleOf(ActionOf(r));
            && c.status in rule.from
            && Prepare(me, c, lines, r).next == rule.to
            && (rule.actor == Either || rule.actor == Only(SideOf(c, me).value))
    ensures r.Decide? ==> r.action in {Accept, Counter, Dispute, Reject, Cancel}
  {
  }

  /** The same, with the table read off for each guarded call but decide. */
  lemma GoTable(me: Company, c: Consignment, lines: seq<Line>, r: Request)
    requires Prepare(me, c, lines, r).Go?
    ensures var next := Prepare(me, c, lines, r).next;
            match r
            case Decide(_, _, _, _) =>
              && (Negotiating(c.status) || c.status.Draft? || c.status.AcceptedAwaitingCustody?)
              && (c.status.AcceptedAwaitingCustody? ==> next.Cancelled?)
              && (next.AcceptedAwaitingCustody? || next.CounterProposed? || next.Disputed? || next.Cancelled?)
            case Custody(send, _) =>
              if send then c.status.AcceptedAwaitingCustody? && next.CustodyAwaitingConfirmation? && me == c.source
              else c.status.CustodyAwaitingConfirmation? && next.InCustody? && c.destination == Some(me)
            case ReportSold(_) => c.status.InCustody? && next.SoldAwaitingSettlement?
            case ReturnFlow(Initiate, _) => c.status.InCustody? && next.ReturnInitiated?
            case ReturnFlow(Ship, _) => c.status.ReturnInitiated? && next.ReturnInTransit?
            case ReturnFlow(ConfirmReceipt, _) =>
              (c.status.ReturnInitiated? || c.status.ReturnInTransit?) && next.ReturnedAccepted?
  {
    GoFollowsRule(me, c, lines, r);
  }

  lemma EffectIsEdge(d: Deal, e: Effect)
    requires DealOk(d) && Justified(d, e)
    ensures d.c.status == EffectOn(d, e).c.status || Edge(d.c.status, EffectOn(d, e).c.status)
  {
    match e
    case Wrote(me, r) =>
      GoFollowsRule(me, d.c, d.lines, r);
      assert d.c.status in RuleOf(ActionOf(r)).from;
    case Cleared(_, _) =>
      OwedMeansDisposed(d);
      assert SoldAwaitingSettlement in RuleOf(RecordPayment).from;
      assert SoldAwaitingSettlement in RuleOf(Settle).from && PartiallyPaid in RuleOf(Settle).from;
      assert SoldAwaitingSettlement in RuleOf(Forgive).from && PartiallyPaid in RuleOf(Forgive).from;
    case _ =>
  }

  /** Every status change, settleIfClear's included, is an edge of the transition table. */
  lemma StatusChangesAreEdges(db: Db, call: Call, k: nat)
    requires Inv(db) && k < |db.deals|
    ensures k < |Apply(db, call).0.deals|
    ensures var s, t := db.deals[k].c.status, Apply(db, call).0.deals[k].c.status;
            s == t || Edge(s, t)
  {
    ApplyIsEffect(db, call, k);
    EffectIsEdge(db.deals[k], EffectOf(db, call, k));
  }

  /** So between any two neighbouring states of any run. */
  lemma RunsFollowEdges(start: Db, calls: seq<Call>, n: nat, k: nat)
    requires Init(start) && n < |calls| && k < |Run(start, calls[..n]).deals|
    ensures k < |Run(start, calls[..n + 1]).deals|
    ensures var s, t := Run(start, calls[..n]).deals[k].c.status, Run(start, calls[..n + 1]).deals[k].c.status;
            s == t || Edge(s, t)
  {
    InitInv(start);
    RunKeepsInv(start, calls[..n]);
    assert calls[..n + 1][..n] == calls[..n];
    StatusChangesAreEdges(Run(start, calls[..n]), calls[n], k);
  }

  lemma EffectKeepsAgreement(d: Deal, e: Effect)
    requires AgreementOk(d.c) && Justified(d, e) && d.c.agreed.Some?
    ensures var c' := EffectOn(d, e).c;
            c'.agreed == d.c.agreed && c'.counter == d.c.counter && c'.proposed == d.c.proposed
  {
    if e.Wrote? {
      GoTable(e.me, d.c, d.lines, e.request);
    }
  }

  /** Once agreed, the amount and the offer behind it never change, on the deal or on any line. */
  lemma AgreedAmountIsFinal(db: Db, call: Call, k: nat)
    requires Inv(db) && k < |db.deals| && db.deals[k].c.agreed.Some?
    ensures k < |Apply(db, call).0.deals|
    ensures var d, d' := db.deals[k], Apply(db, call).0.deals[k];
            && d'.c.agreed == d.c.agreed
            && d'.c.agreed.value == OfferOnTable(d'.c) == OfferOnTable(d.c) > 0
            && (forall i :: 0 <= i < |d'.lines| ==> d'.lines[i].agreed == d.c.agreed)
  {
    ApplyKeepsInv(db, call);
    ApplyIsEffect(db, call, k);
    assert DealOk(db.deals[k]) && DealOk(Apply(db, call).0.deals[k]);
    EffectKeepsAgreement(db.deals[k], EffectOf(db, call, k));
  }

  /** So over every later run. */
  lemma {:induction false} AgreedAmountStands(db: Db, calls: seq<Call>, k: nat)
    requires Inv(db) && k < |db.deals| && db.deals[k].c.agreed.Some?
    ensures k < |Run(db, calls).deals|
    ensures var d, d' := db.deals[k], Run(db, calls).deals[k];
            && d'.c.agreed == d.c.agreed
            && d'.c.agreed.value == OfferOnTable(d'.c) == OfferOnTable(d.c) > 0
            && (forall i :: 0 <= i < |d'.lines| ==> d'.lines[i].agreed == d.c.agreed)
  {
    assert DealOk(db.deals[k]);
    if calls != [] {
      AgreedAmountStands(db, calls[..|calls| - 1], k);
      RunKeepsInv(db, calls[..|calls| - 1]);
      AgreedAmountIsFinal(Run(db, calls[..|calls| - 1]), calls[|calls| - 1], k);
    }
  }

  lemma WriteMovesAmounts(me: Company, c: Consignment, lines: seq<Line>, r: Request)
    requires Prepare(me, c, lines, r).Go?
    ensures var p := Prepare(me, c, lines, r);
            var c' := WriteConsignment(c, p.next, p.write);
            c'.proposed == c.proposed && (c'.counter != c.counter || c'.agreed != c.agreed ==> Negotiating(c.status))
  {
    if r.Decide? {
      DecideIsPrepared(c, SideOf(c, me).value, r);
    }
  }

  lemma EffectMovesAmounts(d: Deal, e: Effect)
    requires DealOk(d) && Justified(d, e)
    ensures var c' := EffectOn(d, e).c;
            c'.proposed == d.c.proposed
            && (c'.counter != d.c.counter || c'.agreed != d.c.agreed ==> Negotiating(d.c.status) && AmountIsMutable(d.c.status))
  {
    if e.Wrote? {
      WriteMovesAmounts(e.me, d.c, d.lines, e.request);
    }
  }

  /** An amount only moves during the negotiation, so never where amountIsMutable says it cannot. */
  lemma AmountsMoveOnlyWhileMutable(db: Db, call: Call, k: nat)
    requires Inv(db) && k < |db.deals|
    ensures k < |Apply(db, call).0.deals|
    ensures var c, c' := db.deals[k].c, Apply(db, call).0.deals[k].c;
            c'.proposed == c.proposed
            && (c'.counter != c.counter || c'.agreed != c.agreed ==> Negotiating(c.status) && AmountIsMutable(c.status))
  {
    assert DealOk(db.deals[k]);
    ApplyIsEffect(db, call, k);
    EffectMovesAmounts(db.deals[k], EffectOf(db, call, k));
  }

  /** The receivable of a deal is the agreed amount once per sold phone. */
  lemma {:induction false} SoldTotalPerPhone(lines: seq<Line>, agreed: Cents)
    requires forall i :: 0 <= i < |lines| ==> lines[i].agreed == Some(agreed)
    ensures SoldTotal(lines) == CountWith(lines, LineSold) * agreed
  {
    if lines != [] {
      var rest := lines[..|lines| - 1];
      SoldTotalPerPhone(rest, agreed);
      var n := CountWith(rest, LineSold);
      assert (n + 1) * agreed == n * agreed + agreed;
    }
  }

  /** The chosen lines among the first n. */
  function Among(chosen: set<nat>, n: nat): set<nat> {
    set i | i in chosen && i < n
  }

  lemma {:induction false} RaisedPerPhone(lines: seq<Line>, chosen: set<nat>, agreed: Cents)
    requires forall i :: 0 <= i < |lines| ==> lines[i].agreed == Some(agreed)
    ensures Raised(lines, chosen) == |Among(chosen, |lines|)| * agreed
  {
    var n := |lines|;
    if n > 0 {
      RaisedPerPhone(lines[..n - 1], chosen, agreed);
      var before := |Among(chosen, n - 1)|;
      if n - 1 in chosen {
        assert Among(chosen, n) == Among(chosen, n - 1) + {n - 1};
        assert (before + 1) * agreed == before * agreed + agreed;
      } else {
        assert Among(chosen, n) == Among(chosen, n - 1);
      }
    } else {
      assert Among(chosen, 0) == {};
    }
  }

  /**
   * At the call: reportSold raises the agreed amount once per line it marks sold, so the agreed amount exactly when
   * it marks one.
   */
  lemma SaleRaisesAgreedPerPhone(d: Deal, me: Company, r: Request)
    requires DealOk(d) && r.ReportSold? && Prepare(me, d.c, d.lines, r).Go?
    ensures var chosen, raised := ChosenLines(d.lines, r.lineIds), Prepare(me, d.c, d.lines, r).write.raised;
            && d.c.agreed.Some?
            && raised == |chosen| * d.c.agreed.value
            && (raised == d.c.agreed.value <==> |chosen| == 1)
  {
    var chosen := ChosenLines(d.lines, r.lineIds);
    SaleIsPrepared(d.c, d.lines, SideOf(d.c, me).value, r);
    assert Among(chosen, |d.lines|) == chosen;
    RaisedPerPhone(d.lines, chosen, d.c.agreed.value);
    Cancel1(|chosen|, d.c.agreed.value);
  }

  /**
   * The proposal is documented as a total, yet the amount owed after a sale is the agreed amount
   * exactly when one phone was reported sold.
   */
  lemma OwedAmountIsAgreedIffOnePhoneSold(start: Db, calls: seq<Call>, k: nat)
    requires Init(start) && k < |Run(start, calls).deals|
    requires Disposed(Run(start, calls).deals[k].c.status)
    ensures var d := Run(start, calls).deals[k];
            && d.c.agreed.Some? && d.ledger != []
            && d.ledger[0].amount == CountWith(d.lines, LineSold) * d.c.agreed.value
            && (d.ledger[0].amount == d.c.agreed.value <==> CountWith(d.lines, LineSold) == 1)
  {
    InitInv(start);
    RunKeepsInv(start, calls);
    var d := Run(start, calls).deals[k];
    assert DealOk(d);
    SoldTotalPerPhone(d.lines, d.c.agreed.value);
    Cancel1(CountWith(d.lines, LineSold), d.c.agreed.value);
  }

  lemma Cancel1(n: int, a: int)
    requires a > 0
    ensures n * a == a <==> n == 1
  {
    if n > 1 {
      assert n * a == a + (n - 1) * a;
    } else if n < 1 {
      assert n * a <= 0;
    }
  }

  // ---------------------------------------------------------------- custody takes both companies

  predicate PastCustody(s: Status) {
    Holding(s) || Disposed(s) || s == ReturnedAccepted
  }

  /** Call number i of the run is a hand-over (or its confirmation) of deal k by company `me` that took effect. */
  predicate TookCustodyStep(start: Db, calls: seq<Call>, i: nat, k: nat, send: bool, me: Company) {
    && i < |calls|
    && calls[i].Guarded? && calls[i].id == k && calls[i].me == me
    && calls[i].request.Custody? && calls[i].request.send == send
    && Apply(Run(start, calls[..i]), calls[i]).1 == Done
  }

  lemma StepSurvives(start: Db, calls: seq<Call>, i: nat, k: nat, send: bool, me: Company)
    requires calls != [] && TookCustodyStep(start, calls[..|calls| - 1], i, k, send, me)
    ensures TookCustodyStep(start, calls, i, k, send, me)
  {
    assert calls[..|calls| - 1][..i] == calls[..i];
  }

  predicate IsCustody(e: Effect, send: bool, me: Company) {
    e.Wrote? && e.me == me && e.request.Custody? && e.request.send == send
  }

  lemma WriteCustodyStep(d: Deal, me: Company, r: Request)
    requires Prepare(me, d.c, d.lines, r).Go?
    ensures var s, c' := d.c.status, EffectOn(d, Wrote(me, r)).c;
            && c'.source == d.c.source && c'.destination == d.c.destination
            && (c'.status == CustodyAwaitingConfirmation ==> IsCustody(Wrote(me, r), true, c'.source))
            && (PastCustody(c'.status) && !PastCustody(s) ==>
                  s == CustodyAwaitingConfirmation
                  && c'.destination.Some? && IsCustody(Wrote(me, r), false, c'.destination.value))
  {
    GoTable(me, d.c, d.lines, r);
  }

  lemma ClearStaysDisposed(d: Deal, paid: Entry, closing: Status)
    requires d.c.status.SoldAwaitingSettlement? || d.c.status.PartiallyPaid?
    requires closing == Settled || closing == ForgivenSettled
    ensures var d' := EffectOn(d, Cleared(paid, closing));
            && Disposed(d'.c.status) && Phase(d'.c.status) <= Phase(d.c.status)
            && d'.c == d.c.(status := d'.c.status) && d'.ledger == d.ledger + [paid]
  {
  }

  /** How one step can bring a deal to, or past, the custody states. */
  lemma CustodyStep(d: Deal, e: Effect)
    requires DealOk(d) && Justified(d, e)
    ensures var s, c' := d.c.status, EffectOn(d, e).c;
            && c'.source == d.c.source && c'.destination == d.c.destination
            && (c'.status == CustodyAwaitingConfirmation ==> s == c'.status || IsCustody(e, true, c'.source))
            && (PastCustody(c'.status) && !PastCustody(s) ==>
                  s == CustodyAwaitingConfirmation
                  && c'.destination.Some? && IsCustody(e, false, c'.destination.value))
  {
    match e
    case Wrote(me, r) => WriteCustodyStep(d, me, r);
    case Cleared(paid, closing) =>
      OwedMeansDisposed(d);
      ClearStaysDisposed(d, paid, closing);
    case _ =>
  }

  lemma LastStepTaken(start: Db, calls: seq<Call>, k: nat, send: bool, me: Company)
    requires calls != [] && k < |Run(start, calls[..|calls| - 1]).deals|
    requires IsCustody(EffectOf(Run(start, calls[..|calls| - 1]), calls[|calls| - 1], k), send, me)
    ensures TookCustodyStep(start, calls, |calls| - 1, k, send, me)
  {
  }

  /** A hand-over by the source, and after it a confirmation by the destination. */
  ghost predicate HandedOver(start: Db, calls: seq<Call>, k: nat, c: Consignment) {
    exists i: nat :: TookCustodyStep(start, calls, i, k, true, c.source)
  }

  ghost predicate Received(start: Db, calls: seq<Call>, k: nat, c: Consignment) {
    && c.destination.Some?
    && exists i: nat, j: nat :: i < j && TookCustodyStep(start, calls, i, k, true, c.source)
                             && TookCustodyStep(start, calls, j, k, false, c.destination.value)
  }

  lemma CarryCustody(start: Db, calls: seq<Call>, k: nat, c: Consignment)
    requires calls != []
    ensures HandedOver(start, calls[..|calls| - 1], k, c) ==> HandedOver(start, calls, k, c)
    ensures Received(start, calls[..|calls| - 1], k, c) ==> Received(start, calls, k, c)
  {
    var front := calls[..|calls| - 1];
    if HandedOver(start, front, k, c) {
      var i: nat :| TookCustodyStep(start, front, i, k, true, c.source);
      StepSurvives(start, calls, i, k, true, c.source);
    }
    if Received(start, front, k, c) {
      var i: nat, j: nat :| i < j && TookCustodyStep(start, front, i, k, true, c.source)
                         && TookCustodyStep(start, front, j, k, false, c.destination.value);
      StepSurvives(start, calls, i, k, true, c.source);
      StepSurvives(start, calls, j, k, false, c.destination.value);
    }
  }

  lemma NewReceipt(start: Db, calls: seq<Call>, k: nat, c: Consignment)
    requires calls != [] && c.destination.Some?
    requires HandedOver(start, calls[..|calls| - 1], k, c)
    requires TookCustodyStep(start, calls, |calls| - 1, k, false, c.destination.value)
    ensures Received(start, calls, k, c)
  {
    var i: nat :| TookCustodyStep(start, calls[..|calls| - 1], i, k, true, c.source);
    StepSurvives(start, calls, i, k, true, c.source);
  }

  lemma NewDealIsRequested(db: Db, call: Call, k: nat)
    requires |db.deals| <= k < |Apply(db, call).0.deals|
    ensures Apply(db, call).0.deals[k].c.status == Requested
  {
  }

  /**
   * No deal is in custody, sold, in return or returned without an earlier hand-over by its source
   * and, after that, a confirmation by its destination.
   */
  lemma {:induction false} CustodyTakesBothCompanies(start: Db, calls: seq<Call>, k: nat)
    requires Init(start) && k < |Run(start, calls).deals|
    ensures var c := Run(start, calls).deals[k].c;
            && (c.status == CustodyAwaitingConfirmation ==> HandedOver(start, calls, k, c))
            && (PastCustody(c.status) ==> Received(start, calls, k, c))
  {
    if calls != [] {
      var n := |calls| - 1;
      var before, last := Run(start, calls[..n]), calls[n];
      if k < |before.deals| {
        InitInv(start);
        RunKeepsInv(start, calls[..n]);
        var c, c' := before.deals[k].c, Run(start, calls).deals[k].c;
        CustodyTakesBothCompanies(start, calls[..n], k);
        ApplyIsEffect(before, last, k);
        var e := EffectOf(before, last, k);
        CustodyStep(before.deals[k], e);
        CarryCustody(start, calls, k, c');
        assert HandedOver(start, calls[..n], k, c) == HandedOver(start, calls[..n], k, c');
        assert Received(start, calls[..n], k, c) == Received(start, calls[..n], k, c');
        if IsCustody(e, true, c'.source) {
          LastStepTaken(start, calls, k, true, c'.source);
        }
        if PastCustody(c'.status) && !PastCustody(c.status) {
          LastStepTaken(start, calls, k, false, c'.destination.value);
          NewReceipt(start, calls, k, c');
        }
      } else {
        NewDealIsRequested(before, last, k);
      }
    }
  }

  // ---------------------------------------------------------------- who can be given phones

  /** A manual counterparty, or the source's own company: nobody else can confirm a hand-over. */
  predicate NoOtherCompany(c: Consignment) {
    c.destination.None? || c.destination.value == c.source
  }

  lemma ConfirmNeedsOtherCompany(me: Company, c: Consignment, lines: seq<Line>, r: Request)
    requires Prepare(me, c, lines, r).Go? && r.Custody? && !r.send
    ensures !NoOtherCompany(c)
  {
    GoTable(me, c, lines, r);
    GoFollowsRule(me, c, lines, r);
  }

  lemma EffectStaysBeforeCustody(d: Deal, e: Effect)
    requires DealOk(d) && Justified(d, e) && NoOtherCompany(d.c) && !PastCustody(d.c.status)
    ensures NoOtherCompany(EffectOn(d, e).c) && !PastCustody(EffectOn(d, e).c.status)
  {
    CustodyStep(d, e);
    if PastCustody(EffectOn(d, e).c.status) {
      ConfirmNeedsOtherCompany(e.me, d.c, d.lines, e.request);
    }
  }

  lemma {:induction false} NeverPastCustody(db: Db, calls: seq<Call>, k: nat)
    requires Inv(db) && k < |db.deals| && NoOtherCompany(db.deals[k].c) && !PastCustody(db.deals[k].c.status)
    ensures k < |Run(db, calls).deals|
    ensures NoOtherCompany(Run(db, calls).deals[k].c) && !PastCustody(Run(db, calls).deals[k].c.status)
  {
    if calls != [] {
      var before, call := Run(db, calls[..|calls| - 1]), calls[|calls| - 1];
      NeverPastCustody(db, calls[..|calls| - 1], k);
      RunKeepsInv(db, calls[..|calls| - 1]);
      assert DealOk(before.deals[k]);
      ApplyIsEffect(before, call, k);
      EffectStaysBeforeCustody(before.deals[k], EffectOf(before, call, k));
    }
  }

  /** In every run: a deal whose counterparty is no other company never gets into custody. */
  lemma {:induction false} ManualDealNeverInCustody(start: Db, calls: seq<Call>, k: nat)
    requires Init(start) && k < |Run(start, calls).deals| && NoOtherCompany(Run(start, calls).deals[k].c)
    ensures !PastCustody(Run(start, calls).deals[k].c.status)
  {
    if calls != [] {
      var n := |calls| - 1;
      var before, call := Run(start, calls[..n]), calls[n];
      if k < |before.deals| {
        InitInv(start);
        RunKeepsInv(start, calls[..n]);
        assert DealOk(before.deals[k]);
        ApplyIsEffect(before, call, k);
        CustodyStep(before.deals[k], EffectOf(before, call, k));
        ManualDealNeverInCustody(start, calls[..n], k);
        EffectStaysBeforeCustody(before.deals[k], EffectOf(before, call, k));
      } else {
        NewDealIsRequested(before, call, k);
      }
    }
  }

  lemma RunAppend(db: Db, calls: seq<Call>, call: Call)
    ensures Run(db, calls + [call]) == Apply(Run(db, calls), call).0
  {
    assert (calls + [call])[..|calls|] == calls;
  }

  /** One guarded call seen from its deal. */
  lemma GuardedStep(db: Db, me: Company, k: nat, r: Request)
    requires k < |db.deals| && Prepare(me, db.deals[k].c, db.deals[k].lines, r).Go?
    ensures var p := Prepare(me, db.deals[k].c, db.deals[k].lines, r);
            var after := Apply(db, Guarded(me, k, r)).0;
            && |after.deals| == |db.deals|
            && after.deals[k] == WriteDeal(db.deals[k], me, p.next, p.write)
  {
  }

  ghost predicate ReachesCustody(db: Db, calls: seq<Call>, k: nat) {
    k < |Run(db, calls).deals| && PastCustody(Run(db, calls).deals[k].c.status)
  }

  /** The calls that bring a new deal into custody: a counter-offer, its acceptance, the hand-over, the receipt. */
  function IntoCustody(c: Consignment, k: nat): seq<Call>
    requires c.destination.Some?
  {
    [Guarded(c.destination.value, k, Decide(Counter, Some(1), false, None)),
     Guarded(c.source, k, Decide(Accept, None, false, None)),
     Guarded(c.source, k, Custody(true, [])),
     Guarded(c.destination.value, k, Custody(false, []))]
  }

  lemma CounterStep(db: Db, k: nat)
    requires k < |db.deals| && db.deals[k].c.status.Requested? && !NoOtherCompany(db.deals[k].c)
    ensures var c := db.deals[k].c;
            var after := Apply(db, Guarded(c.destination.value, k, Decide(Counter, Some(1), false, None))).0;
            && k < |after.deals|
            && after.deals[k].c == c.(status := CounterProposed, counter := Some(1), version := c.version + 1)
  {
    GuardedStep(db, db.deals[k].c.destination.value, k, Decide(Counter, Some(1), false, None));
  }

  lemma AcceptStep(db: Db, k: nat)
    requires k < |db.deals| && db.deals[k].c.status.CounterProposed? && db.deals[k].c.counter == Some(1)
    ensures var c := db.deals[k].c;
            var after := Apply(db, Guarded(c.source, k, Decide(Accept, None, false, None))).0;
            && k < |after.deals|
            && after.deals[k].c == c.(status := AcceptedAwaitingCustody, agreed := Some(1), version := c.version + 1)
  {
    GuardedStep(db, db.deals[k].c.source, k, Decide(Accept, None, false, None));
  }

  lemma SendStep(db: Db, k: nat)
    requires k < |db.deals| && db.deals[k].c.status.AcceptedAwaitingCustody?
    ensures var c := db.deals[k].c;
            var after := Apply(db, Guarded(c.source, k, Custody(true, []))).0;
            k < |after.deals| && after.deals[k].c == c.(status := CustodyAwaitingConfirmation, version := c.version + 1)
  {
    GuardedStep(db, db.deals[k].c.source, k, Custody(true, []));
  }

  lemma ReceiveStep(db: Db, k: nat)
    requires k < |db.deals| && db.deals[k].c.status.CustodyAwaitingConfirmation? && db.deals[k].c.agreed.Some?
    requires !NoOtherCompany(db.deals[k].c)
    ensures var c := db.deals[k].c;
            var after := Apply(db, Guarded(c.destination.value, k, Custody(false, []))).0;
            k < |after.deals| && after.deals[k].c.status == InCustody
  {
    GuardedStep(db, db.deals[k].c.destination.value, k, Custody(false, []));
  }

  lemma RunOfFour(db: Db, a: Call, b: Call, c: Call, d: Call)
    ensures Run(db, [a, b, c, d]) == Apply(Apply(Apply(Apply(db, a).0, b).0, c).0, d).0
  {
    assert [] + [a] == [a] && [a] + [b] == [a, b] && [a, b] + [c] == [a, b, c] && [a, b, c] + [d] == [a, b, c, d];
    RunAppend(db, [], a);
    RunAppend(db, [a], b);
    RunAppend(db, [a, b], c);
    RunAppend(db, [a, b, c], d);
  }

  lemma OtherCompanyReachesCustody(db: Db, k: nat)
    requires k < |db.deals| && db.deals[k].c.status.Requested? && !NoOtherCompany(db.deals[k].c)
    ensures ReachesCustody(db, IntoCustody(db.deals[k].c, k), k)
  {
    var calls := IntoCustody(db.deals[k].c, k);
    RunOfFour(db, calls[0], calls[1], calls[2], calls[3]);
    assert calls == [calls[0], calls[1], calls[2], calls[3]];
    CounterStep(db, k);
    var one := Apply(db, calls[0]).0;
    AcceptStep(one, k);
    var two := Apply(one, calls[1]).0;
    SendStep(two, k);
    ReceiveStep(Apply(two, calls[2]).0, k);
  }

  /** A new deal can get into custody exactly when its counterparty is another company on the platform. */
  lemma CustodyReachableIff(db: Db, k: nat)
    requires Inv(db) && k < |db.deals| && db.deals[k].c.status.Requested?
    ensures (exists calls :: ReachesCustody(db, calls, k)) <==> !NoOtherCompany(db.deals[k].c)
  {
    if !NoOtherCompany(db.deals[k].c) {
      OtherCompanyReachesCustody(db, k);
    } else {
      forall calls
        ensures !ReachesCustody(db, calls, k)
      {
        NeverPastCustody(db, calls, k);
      }
    }
  }

  lemma EffectKeepsHandedOver(d: Deal, e: Effect)
    requires DealOk(d) && Justified(d, e) && NoOtherCompany(d.c) && d.c.status.CustodyAwaitingConfirmation?
    ensures EffectOn(d, e) == d
  {
    if e.Wrote? {
      GoTable(e.me, d.c, d.lines, e.request);
      ConfirmNeedsOtherCompany(e.me, d.c, d.lines, e.request);
    }
  }

  /**
   * Phones handed over to a counterparty without a company never come back: no later call changes the deal, and
   * every phone on it is still out on consignment.
   */
  lemma {:induction false} HandedOverForGood(db: Db, calls: seq<Call>, k: nat)
    requires Inv(db) && k < |db.deals|
    requires NoOtherCompany(db.deals[k].c) && db.deals[k].c.status.CustodyAwaitingConfirmation?
    ensures k < |Run(db, calls).deals| && Run(db, calls).deals[k] == db.deals[k]
    ensures forall i :: 0 <= i < |db.deals[k].lines| ==>
              var u := db.deals[k].lines[i].unit;
              u in Run(db, calls).units && Run(db, calls).units[u].status == ConsignedOut
  {
    if calls != [] {
      var before, call := Run(db, calls[..|calls| - 1]), calls[|calls| - 1];
      HandedOverForGood(db, calls[..|calls| - 1], k);
      RunKeepsInv(db, calls[..|calls| - 1]);
      assert DealOk(before.deals[k]);
      ApplyIsEffect(before, call, k);
      EffectKeepsHandedOver(before.deals[k], EffectOf(before, call, k));
    }
    RunKeepsInv(db, calls);
    ProposedPhonesAreOut(Run(db, calls), k);
  }

  lemma ProposedPhonesAreOut(db: Db, k: nat)
    requires Inv(db) && k < |db.deals| && db.deals[k].c.status.CustodyAwaitingConfirmation?
    ensures forall i :: 0 <= i < |db.deals[k].lines| ==>
              var u := db.deals[k].lines[i].unit; u in db.units && db.units[u].status == ConsignedOut
  {
    assert DealOk(db.deals[k]);
    forall i | 0 <= i < |db.deals[k].lines|
      ensures var u := db.deals[k].lines[i].unit; u in db.units && db.units[u].status == ConsignedOut
    {
      assert Live(db, k, i) && UnitOf(db, k, i) == db.deals[k].lines[i].unit;
    }
  }

  // ---------------------------------------------------------------- termination after acceptance

  /** Phases still ahead of an accepted deal. */
  function Phase(s: Status): nat {
    match s
    case AcceptedAwaitingCustody => 5
    case CustodyAwaitingConfirmation => 4
    case InCustody => 3
    case SoldAwaitingSettlement => 2
    case ReturnInitiated => 2
    case PartiallyPaid => 1
    case ReturnInTransit => 1
    case _ => 0
  }

  /** A call on deal k, other than a payment report, that takes effect. */
  predicate Progresses(db: Db, call: Call, k: nat) {
    IsOn(call, k) && !call.ReportPayment? && Apply(db, call).1 == Done
  }

  function Receivable(d: Deal): Cents {
    if d.ledger == [] then 0 else d.ledger[0].amount
  }

  predicate IsProgress(e: Effect) {
    e.Wrote? || e.Cleared?
  }

  lemma WriteLowersPhase(d: Deal, me: Company, r: Request)
    requires AgreementOk(d.c) && d.c.agreed.Some? && d.ledger == [] && Prepare(me, d.c, d.lines, r).Go?
    ensures var d' := EffectOn(d, Wrote(me, r));
            Phase(d'.c.status) < Phase(d.c.status) && Outstanding(d'.ledger) == Receivable(d')
  {
    NextPhase(me, d.c, d.lines, r);
    FirstEntryIsOwed(me, Prepare(me, d.c, d.lines, r).write);
  }

  lemma NextPhase(me: Company, c: Consignment, lines: seq<Line>, r: Request)
    requires AgreementOk(c) && c.agreed.Some? && Prepare(me, c, lines, r).Go?
    ensures Phase(Prepare(me, c, lines, r).next) < Phase(c.status)
  {
    GoTable(me, c, lines, r);
  }

  lemma FirstEntryIsOwed(me: Company, w: Write)
    ensures var ledger := WriteLedger([], me, w);
            Outstanding(ledger) == if ledger == [] then 0 else ledger[0].amount
  {
    if w.WriteSale? {
      OutstandingAppend([], PlainEntry(ReceivableRaised, w.raised, me));
    }
  }

  /** Progress lowers (phases ahead, cents outstanding); anything else keeps both. */
  ghost predicate Lowers(d: Deal, d': Deal, progress: bool) {
    var p, p' := Phase(d.c.status), Phase(d'.c.status);
    var o, o' := Outstanding(d.ledger), Outstanding(d'.ledger);
    && (progress ==> p' < p || (p' == p && 0 <= o' < o))
    && (progress ==> 1 + p' + o' <= p + o + Receivable(d') - Receivable(d))
    && (!progress ==> p' == p && o' == o && Receivable(d') == Receivable(d))
  }

  lemma ClearLowersMeasure(d: Deal, paid: Entry, closing: Status)
    requires d.c.status.SoldAwaitingSettlement? || d.c.status.PartiallyPaid?
    requires d.ledger != [] && Justified(d, Cleared(paid, closing))
    ensures Lowers(d, EffectOn(d, Cleared(paid, closing)), true)
  {
    ClearStaysDisposed(d, paid, closing);
    OutstandingAppend(d.ledger, paid);
  }

  lemma NoteKeepsMeasure(d: Deal, report: Entry)
    requires d.ledger != [] && report.kind == PaymentReported
    ensures Lowers(d, EffectOn(d, Noted(report)), false)
  {
    OutstandingAppend(d.ledger, report);
  }

  lemma EffectLowersMeasure(d: Deal, e: Effect)
    requires DealOk(d) && d.c.agreed.Some? && Justified(d, e)
    ensures Lowers(d, EffectOn(d, e), IsProgress(e))
  {
    match e
    case Untouched =>
    case Wrote(me, r) =>
      GuardedBeforeSale(d, me, r);
      WriteLowersPhase(d, me, r);
    case Noted(report) =>
      OwedMeansDisposed(d);
      NoteKeepsMeasure(d, report);
    case Cleared(paid, closing) =>
      OwedMeansDisposed(d);
      ClearLowersMeasure(d, paid, closing);
  }

  /** Each call that makes progress lowers (phases ahead, cents outstanding); every other call keeps both. */
  lemma ProgressLowersMeasure(db: Db, call: Call, k: nat)
    requires Inv(db) && k < |db.deals| && db.deals[k].c.agreed.Some?
    ensures k < |Apply(db, call).0.deals|
    ensures Lowers(db.deals[k], Apply(db, call).0.deals[k], Progresses(db, call, k))
  {
    ApplyIsEffect(db, call, k);
    EffectLowersMeasure(db.deals[k], EffectOf(db, call, k));
    assert Progresses(db, call, k) == IsProgress(EffectOf(db, call, k));
  }

  lemma MeasureBounds(d: Deal)
    requires DealOk(d)
    ensures 0 <= Outstanding(d.ledger) <= Receivable(d)
    ensures Phase(d.c.status) <= 5
  {
  }

  function ProgressCount(db: Db, calls: seq<Call>, k: nat): nat {
    if calls == [] then 0
    else
      var n := |calls| - 1;
      ProgressCount(db, calls[..n], k) + if Progresses(Run(db, calls[..n]), calls[n], k) then 1 else 0
  }

  /**
   * After acceptance a deal takes at most its five phases plus one step per cent of its receivable,
   * however many calls are made: confirmations and write-offs cannot go on for ever.
   */
  lemma {:induction false} AcceptedDealsTerminate(db: Db, calls: seq<Call>, k: nat)
    requires Inv(db) && k < |db.deals| && db.deals[k].c.agreed.Some?
    ensures k < |Run(db, calls).deals| && Run(db, calls).deals[k].c.agreed.Some?
    ensures var d, d' := db.deals[k], Run(db, calls).deals[k];
            && ProgressCount(db, calls, k) + Phase(d'.c.status) + Outstanding(d'.ledger)
               <= Phase(d.c.status) + Outstanding(d.ledger) + Receivable(d') - Receivable(d)
            && ProgressCount(db, calls, k) <= 5 + Receivable(d')
  {
    if calls != [] {
      var n := |calls| - 1;
      var before := Run(db, calls[..n]);
      AcceptedDealsTerminate(db, calls[..n], k);
      RunKeepsInv(db, calls[..n]);
      ProgressLowersMeasure(before, calls[n], k);
      AgreedAmountIsFinal(before, calls[n], k);
    }
    RunKeepsInv(db, calls);
    MeasureBounds(db.deals[k]);
    MeasureBounds(Run(db, calls).deals[k]);
  }

  // ---------------------------------------------------------------- phones a sale leaves behind

  lemma EffectKeepsSoldLines(d: Deal, e: Effect)
    requires DealOk(d) && Justified(d, e) && Disposed(d.c.status)
    ensures EffectOn(d, e).lines == d.lines && Disposed(EffectOn(d, e).c.status)
  {
    if e.Wrote? {
      GuardedBeforeSale(d, e.me, e.request);
    }
  }

  /** No call after a sale touches the deal's lines. */
  lemma {:induction false} SaleFreezesLines(db: Db, calls: seq<Call>, k: nat)
    requires Inv(db) && k < |db.deals| && Disposed(db.deals[k].c.status)
    ensures k < |Run(db, calls).deals|
    ensures Run(db, calls).deals[k].lines == db.deals[k].lines && Disposed(Run(db, calls).deals[k].c.status)
  {
    if calls != [] {
      var before, call := Run(db, calls[..|calls| - 1]), calls[|calls| - 1];
      SaleFreezesLines(db, calls[..|calls| - 1], k);
      RunKeepsInv(db, calls[..|calls| - 1]);
      ApplyIsEffect(before, call, k);
      EffectKeepsSoldLines(before.deals[k], EffectOf(before, call, k));
    }
  }

  /**
   * After a sale, whatever is called later, a phone of the deal stays out on consignment for ever exactly when it
   * was not among those reported sold: it can no longer be sold, returned or released.
   */
  lemma UnsoldPhonesStayOut(db: Db, calls: seq<Call>, k: nat, i: nat)
    requires Inv(db) && k < |db.deals| && Disposed(db.deals[k].c.status) && i < |db.deals[k].lines|
    ensures k < |Run(db, calls).deals| && i < |Run(db, calls).deals[k].lines|
    ensures db.deals[k].lines[i].status != LineSold ==>
              var u := db.deals[k].lines[i].unit;
              u in Run(db, calls).units && Run(db, calls).units[u].status == ConsignedOut
    ensures Live(Run(db, calls), k, i) <==> db.deals[k].lines[i].status != LineSold
  {
    SaleFreezesLines(db, calls, k);
    RunKeepsInv(db, calls);
    assert DealOk(db.deals[k]);
    if db.deals[k].lines[i].status != LineSold {
      assert Live(Run(db, calls), k, i);
      assert UnitOf(Run(db, calls), k, i) == db.deals[k].lines[i].unit;
    }
  }
}

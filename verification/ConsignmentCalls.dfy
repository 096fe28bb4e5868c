/** What each consignment call does, said of the deal, the phones and the debt rather than of the code. */
module ConsignmentCalls {
  import opened Prelude
  import opened ConsignmentLifecycle
  import opened UnitStates
  import opened ConsignmentModel
  import opened ConsignmentInvariant
  import opened ConsignmentRuns

  // ---------------------------------------------------------------- the tables, read by state

  /** Who may do what while the deal stands in `s`. */
  predicate MayAct(s: Status, a: Action, side: Side) {
    match s
    case Draft => side.Source? && (a.Submit? || a.Cancel?)
    case Requested => InTalks(a, side) || a.Dispute?
    case CounterProposed => InTalks(a, side) || a.Dispute?
    case Disputed => InTalks(a, side)
    case AcceptedAwaitingCustody => side.Source? && (a.Cancel? || a.SendCustody?)
    case CustodyAwaitingConfirmation => side.Destination? && a.ConfirmCustody?
    case InCustody => side.Destination? && (a.ReportSale? || a.InitiateReturn?)
    case SoldAwaitingSettlement => InDebt(a, side)
    case PartiallyPaid => InDebt(a, side)
    case ReturnInitiated => if side.Destination? then a.ShipReturn? else a.ConfirmReturn?
    case ReturnInTransit => side.Source? && a.ConfirmReturn?
    case Settled => false
    case ReturnedAccepted => false
    case ForgivenSettled => false
    case Cancelled => false
  }

  predicate InTalks(a: Action, side: Side) {
    a.Accept? || a.Counter? || (if side.Source? then a.Cancel? else a.Reject?)
  }

  predicate InDebt(a: Action, side: Side) {
    a.RecordPayment? || a.Settle? || (a.Forgive? && side.Source?)
  }

  /** The actions that lead into a state. */
  predicate LeadsTo(a: Action, t: Status) {
    match t
    case Draft => false
    case Requested => a.Submit?
    case CounterProposed => a.Counter?
    case Disputed => a.Dispute?
    case AcceptedAwaitingCustody => a.Accept?
    case CustodyAwaitingConfirmation => a.SendCustody?
    case InCustody => a.ConfirmCustody?
    case SoldAwaitingSettlement => a.ReportSale?
    case PartiallyPaid => a.RecordPayment?
    case ReturnInitiated => a.InitiateReturn?
    case ReturnInTransit => a.ShipReturn?
    case Settled => a.Settle?
    case ReturnedAccepted => a.ConfirmReturn?
    case ForgivenSettled => a.Forgive?
    case Cancelled => a.Reject? || a.Cancel?
  }

  /** The table kept by action says what the table read by state says. */
  lemma TransitionIff(a: Action, s: Status, side: Side, last: Option<Side>)
    ensures AssertTransition(a, s, side, last).Some?
       <==> MayAct(s, a, side) && !((a.Accept? || a.Counter?) && last == Some(side))
    ensures AssertTransition(a, s, side, last).Some? ==> LeadsTo(a, AssertTransition(a, s, side, last).value)
  {
    FromIff(a, s);
  }

  lemma FromIff(a: Action, s: Status)
    ensures s in RuleOf(a).from <==> MayAct(s, a, Source) || MayAct(s, a, Destination)
    ensures LeadsTo(a, RuleOf(a).to)
  {
    if a.Accept? || a.Counter? || a.Dispute? || a.Reject? || a.Cancel? || a.Submit? {
      TalksFromIff(a, s);
    }
  }

  lemma TalksFromIff(a: Action, s: Status)
    requires a.Accept? || a.Counter? || a.Dispute? || a.Reject? || a.Cancel? || a.Submit?
    ensures s in RuleOf(a).from <==> MayAct(s, a, Source) || MayAct(s, a, Destination)
  {
  }

  /** Where a unit can have come from. */
  predicate CameFrom(s: UnitStatus, t: UnitStatus) {
    match t
    case InStock => s.Reserved? || s.Returned? || s.InTransit? || s.Faulty? || s.ConsignedOut?
    case Reserved => s.InStock?
    case Sold => s.InStock? || s.ConsignedOut?
    case Returned => s.Sold?
    case InTransit => s.InStock? || s.Reserved?
    case Faulty => s.InStock? || s.Returned? || s.ConsignedOut?
    case TransferredOut => s.InStock? || s.InTransit?
    case ConsignedOut => s.InStock?
  }

  lemma UnitEdgeIff(s: UnitStatus, t: UnitStatus)
    ensures CanTransition(s, t) <==> CameFrom(s, t)
  {
  }

  // ---------------------------------------------------------------- strangers

  /** A company that is neither side of a deal cannot tell it from one that does not exist. */
  lemma StrangerIsRefused(db: Db, call: Call, k: nat)
    requires IsOn(call, k) && (k >= |db.deals| || SideOf(db.deals[k].c, call.me).None?)
    ensures Apply(db, call) == (db, Refused(NotFound))
  {
  }

  // ---------------------------------------------------------------- create

  /** The connection a consignment may be made over. */
  predicate IsOpenTo(to: Counterparty) {
    if to.connectedStore then to.connection == Some(Accepted) else to.connection != Some(Blocked)
  }

  predicate AreFree(units: map<UnitId, Unit>, me: Company, branch: Branch, ids: seq<UnitId>) {
    && Distinct(ids)
    && forall i :: 0 <= i < |ids| ==>
         ids[i] in units && units[ids[i]].company == me && units[ids[i]].branch == branch && units[ids[i]].status == InStock
  }

  /**
   * A consignment is made exactly of one to fifty different free phones of the branch, for a counterparty one is open
   * to, and once per request id.
   */
  lemma CreatedIff(db: Db, me: Company, branch: Branch, to: Option<Counterparty>, ids: seq<UnitId>, proposed: Cents, uuid: Option<nat>)
    ensures Apply(db, Create(me, branch, to, ids, proposed, uuid)).1 == Done <==>
            && 1 <= |ids| <= 50
            && (uuid.Some? ==> forall k :: 0 <= k < |db.deals| && db.deals[k].c.source == me ==> db.deals[k].c.clientUuid != uuid)
            && to.Some? && IsOpenTo(to.value)
            && AreFree(db.units, me, branch, ids)
  {
    ClaimSpec(db.units, me, branch, ids);
  }

  /** A request id this company has used is answered with the first consignment, whatever else is asked. */
  lemma CreateIsReplayed(db: Db, call: Call, k: nat)
    requires call.Create? && 1 <= |call.unitIds| <= 50
    requires k < |db.deals| && db.deals[k].c.source == call.me && call.clientUuid.Some? && db.deals[k].c.clientUuid == call.clientUuid
    ensures Apply(db, call) == (db, Replayed)
  {
  }

  /** The same request sent again is answered with the consignment it made. */
  lemma CreateSentAgain(db: Db, call: Call)
    requires call.Create? && call.clientUuid.Some? && Apply(db, call).1 == Done
    ensures Apply(Apply(db, call).0, call) == (Apply(db, call).0, Replayed)
  {
    CreatedIff(db, call.me, call.branch, call.counterparty, call.unitIds, call.proposed, call.clientUuid);
    CreatedDeal(db, call.me, call.branch, call.counterparty, call.unitIds, call.proposed, call.clientUuid);
    CreateIsReplayed(Apply(db, call).0, call, |db.deals|);
  }

  /** What a new consignment holds: the offer as proposed, and its phones, under the names they had, now out. */
  lemma CreatedDeal(db: Db, me: Company, branch: Branch, to: Option<Counterparty>, ids: seq<UnitId>, proposed: Cents, uuid: Option<nat>)
    requires Apply(db, Create(me, branch, to, ids, proposed, uuid)).1 == Done
    ensures var after := Apply(db, Create(me, branch, to, ids, proposed, uuid)).0;
            var d := after.deals[|db.deals|];
            && |after.deals| == |db.deals| + 1 && after.deals[..|db.deals|] == db.deals
            && d.c.source == me && d.c.branch == branch && to.Some? && d.c.destination == to.value.connectedCompany
            && d.c.status.Requested? && d.c.proposed == proposed && d.c.counter.None? && d.c.agreed.None?
            && d.c.version == 0 && d.c.clientUuid == uuid && d.ledger == []
            && |d.lines| == |ids|
            && (forall i :: 0 <= i < |ids| ==>
                  && ids[i] in db.units
                  && d.lines[i] == Line(ids[i], db.units[ids[i]].identifier, None, LineProposed))
            && after.units.Keys == db.units.Keys
            && (forall u :: u in db.units ==>
                  after.units[u] == if u in ids then db.units[u].(status := ConsignedOut) else db.units[u])
  {
    ClaimSpec(db.units, me, branch, ids);
  }

  // ---------------------------------------------------------------- decide

  /** What stays when a decision is taken: everything but the status, the version and the amount it sets. */
  predicate SameDeal(c: Consignment, c': Consignment) {
    && c'.source == c.source && c'.branch == c.branch && c'.destination == c.destination && c'.proposed == c.proposed
    && c'.clientUuid == c.clientUuid && c'.version == c.version + 1
  }

  /** Every decision that goes ahead leaves the deal, its lines and its ledger like this. */
  lemma DecisionIs(c: Consignment, lines: seq<Line>, me: Company, r: Request)
    requires r.Decide? && Prepare(me, c, lines, r).Go?
    ensures var p := Prepare(me, c, lines, r);
            var c', lines' := WriteConsignment(c, p.next, p.write), WriteLines(lines, p.next, p.write);
            && SameDeal(c, c') && LeadsTo(r.action, c'.status) && |lines'| == |lines|
            && c'.counter == (if r.action.Counter? then r.amount else c.counter)
            && c'.agreed == (if r.action.Accept? then Some(if c.counter.Some? then c.counter.value else c.proposed) else c.agreed)
            && (forall i :: 0 <= i < |lines| ==>
                  lines'[i] == if c'.status.Cancelled? && IsLive(lines[i]) then lines[i].(status := LineCancelled)
                               else if r.action.Accept? && lines[i].status.LineProposed? then lines[i].(agreed := c'.agreed)
                               else lines[i])
  {
    DecideIsPrepared(c, SideOf(c, me).value, r);
    TransitionIff(r.action, c.status, SideOf(c, me).value, LastProposalBy(c.status));
  }

  /** When a decision goes ahead. */
  lemma DecidedIff(c: Consignment, lines: seq<Line>, me: Company, r: Request)
    requires r.Decide? && SideOf(c, me).Some?
    ensures var side := SideOf(c, me).value;
            Prepare(me, c, lines, r).Go? <==>
            && (r.action.Accept? || r.action.Counter? || r.action.Dispute? || r.action.Reject? || r.action.Cancel?)
            && MayAct(c.status, r.action, side)
            && (r.action.Accept? || r.action.Counter? ==> LastProposalBy(c.status) != Some(side))
            && (r.action.Accept? ==> (if c.counter.Some? then c.counter.value else c.proposed) > 0)
            && (r.action.Counter? ==> r.amount.Some? && r.amount.value > 0)
            && (r.action.Dispute? ==> r.reasonGiven)
            && (r.expectedVersion.Some? ==> r.expectedVersion.value == c.version)
  {
    TransitionIff(r.action, c.status, SideOf(c, me).value, LastProposalBy(c.status));
  }

  // ---------------------------------------------------------------- custody, sale and return

  /** What a hand-over, a sale or a return step needs. */
  ghost predicate IsDue(c: Consignment, lines: seq<Line>, side: Side, r: Request)
    requires !r.Decide?
  {
    match r
    case Custody(true, _) => side.Source? && c.status.AcceptedAwaitingCustody?
    case Custody(false, scanned) =>
      && side.Destination? && c.status.CustodyAwaitingConfirmation? && c.agreed.Some?
      && (scanned != [] ==> |scanned| == |Sent(lines)| && forall s :: s in scanned ==> ScanMatches(Sent(lines), s))
    case ReportSold(lineIds) => side.Destination? && c.status.InCustody? && exists i :: IsAskedFor(lines, lineIds, i)
    case ReturnFlow(Initiate, _) => side.Destination? && c.status.InCustody?
    case ReturnFlow(Ship, _) => side.Destination? && c.status.ReturnInitiated?
    case ReturnFlow(ConfirmReceipt, condition) =>
      side.Source? && (c.status.ReturnInitiated? || c.status.ReturnInTransit?) && condition.Some?
  }

  predicate IsAskedFor(lines: seq<Line>, lineIds: seq<nat>, i: nat) {
    i < |lines| && lines[i].status.LineInCustody? && (lineIds == [] || i in lineIds)
  }

  /** When it goes ahead. */
  lemma GoesAheadIff(c: Consignment, lines: seq<Line>, me: Company, r: Request)
    requires !r.Decide? && SideOf(c, me).Some?
    ensures Prepare(me, c, lines, r).Go? <==> IsDue(c, lines, SideOf(c, me).value, r)
  {
    var side := SideOf(c, me).value;
    TransitionIff(ActionOf(r), c.status, side, None);
    if r.ReportSold? {
      ChosenIff(lines, r.lineIds);
    }
  }

  lemma ChosenIff(lines: seq<Line>, lineIds: seq<nat>)
    ensures ChosenLines(lines, lineIds) != {} <==> exists i :: IsAskedFor(lines, lineIds, i)
  {
    if i :| IsAskedFor(lines, lineIds, i) {
      assert i in ChosenLines(lines, lineIds);
    }
    if ChosenLines(lines, lineIds) != {} {
      var i :| i in ChosenLines(lines, lineIds);
      assert IsAskedFor(lines, lineIds, i);
    }
  }

  /** What becomes of line i. */
  function LineAfter(lines: seq<Line>, i: nat, r: Request): Line
    requires i < |lines|
  {
    match r
    case Custody(false, _) => if lines[i].status.LineProposed? then lines[i].(status := LineInCustody) else lines[i]
    case ReportSold(lineIds) => if IsAskedFor(lines, lineIds, i) then lines[i].(status := LineSold) else lines[i]
    case ReturnFlow(ConfirmReceipt, _) =>
      if lines[i].status.LineInCustody? then lines[i].(status := LineReturned) else lines[i]
    case _ => lines[i]
  }

  /** What these leave: only the status and the version of the deal move, and the lines they are about. */
  lemma StepIs(c: Consignment, lines: seq<Line>, me: Company, r: Request)
    requires !r.Decide? && Prepare(me, c, lines, r).Go?
    ensures var p := Prepare(me, c, lines, r);
            var c', lines' := WriteConsignment(c, p.next, p.write), WriteLines(lines, p.next, p.write);
            && SameDeal(c, c') && c'.counter == c.counter && c'.agreed == c.agreed && |lines'| == |lines|
            && LeadsTo(ActionOf(r), c'.status)
            && (forall i :: 0 <= i < |lines| ==> lines'[i] == LineAfter(lines, i, r))
  {
    TransitionIff(ActionOf(r), c.status, SideOf(c, me).value, None);
  }

  // ---------------------------------------------------------------- what becomes of a phone

  /** Where a guarded call sends the phone of line i, when it sends it anywhere. */
  function SendsTo(lines: seq<Line>, i: nat, next: Status, r: Request): Option<UnitStatus>
    requires i < |lines|
  {
    var line := lines[i];
    match r
    case Decide(_, _, _, _) => if next.Cancelled? && IsLive(line) then Some(InStock) else None
    case Custody(_, _) => None
    case ReportSold(lineIds) =>
      if IsAskedFor(lines, lineIds, i) then Some(UnitStatus.Sold) else None
    case ReturnFlow(ConfirmReceipt, Some(Damaged)) => if line.status.LineInCustody? then Some(Faulty) else None
    case ReturnFlow(ConfirmReceipt, _) => if line.status.LineInCustody? then Some(InStock) else None
    case _ => None
  }

  lemma SentTo(d: Deal, units: map<UnitId, Unit>, me: Company, r: Request, i: nat)
    requires Prepare(me, d.c, d.lines, r).Go? && i < |d.lines| && d.lines[i].unit in units
    requires units[d.lines[i].unit].status == ConsignedOut
    ensures var p := Prepare(me, d.c, d.lines, r);
            var to := SendsTo(d.lines, i, p.next, r);
            var after := WriteUnits(units, d.lines, p.next, p.write);
            d.lines[i].unit in after && (to.Some? ==> after[d.lines[i].unit] == units[d.lines[i].unit].(status := to.value))
  {
    var p := Prepare(me, d.c, d.lines, r);
    assert IsLive(d.lines[i]) ==> d.lines[i].unit in LiveUnits(d.lines);
    assert d.lines[i].status.LineInCustody? ==> d.lines[i].unit in UnitsWith(d.lines, LineInCustody);
    if p.write.WriteSale? && i in p.write.chosen {
      assert d.lines[i].unit in UnitsAt(d.lines, p.write.chosen);
    }
  }

  /** A guarded call that takes effect sends each live phone of its deal where it belongs. */
  lemma PhoneIsSent(db: Db, me: Company, k: nat, r: Request, i: nat)
    requires Inv(db) && Apply(db, Guarded(me, k, r)).1 == Done && Live(db, k, i)
    ensures k < |Apply(db, Guarded(me, k, r)).0.deals|
    ensures var after := Apply(db, Guarded(me, k, r)).0;
            var to := SendsTo(db.deals[k].lines, i, after.deals[k].c.status, r);
            UnitOf(db, k, i) in after.units && after.units[UnitOf(db, k, i)].status == if to.Some? then to.value else ConsignedOut
  {
    var d := db.deals[k];
    assert UnitOf(db, k, i) in db.units && db.units[UnitOf(db, k, i)].status == ConsignedOut;
    SentTo(d, db.units, me, r, i);
    GuardedStep(db, me, k, r);
    GuardedKeepsInv(db, me, k, r);
    var after := Apply(db, Guarded(me, k, r)).0;
    if SendsTo(d.lines, i, after.deals[k].c.status, r).None? {
      StaysLive(d, me, r, i);
      assert Live(after, k, i) && UnitOf(after, k, i) == UnitOf(db, k, i);
    }
  }

  lemma StaysLive(d: Deal, me: Company, r: Request, i: nat)
    requires Prepare(me, d.c, d.lines, r).Go? && i < |d.lines| && IsLive(d.lines[i])
    requires SendsTo(d.lines, i, Prepare(me, d.c, d.lines, r).next, r).None?
    ensures var p := Prepare(me, d.c, d.lines, r);
            var lines' := WriteLines(d.lines, p.next, p.write);
            i < |lines'| && IsLive(lines'[i]) && lines'[i].unit == d.lines[i].unit
  {
    if r.Decide? {
      DecisionIs(d.c, d.lines, me, r);
    } else {
      StepIs(d.c, d.lines, me, r);
    }
  }

  /** A phone taken back is in stock again if it came back good, and set aside if it came back damaged. */
  lemma ReturnedPhone(db: Db, me: Company, k: nat, condition: Condition, i: nat)
    requires Inv(db) && Live(db, k, i)
    requires Apply(db, Guarded(me, k, ReturnFlow(ConfirmReceipt, Some(condition)))).1 == Done
    ensures var after := Apply(db, Guarded(me, k, ReturnFlow(ConfirmReceipt, Some(condition)))).0;
            UnitOf(db, k, i) in after.units
            && after.units[UnitOf(db, k, i)].status == if condition == Damaged then Faulty else InStock
  {
    var r := ReturnFlow(ConfirmReceipt, Some(condition));
    PhoneIsSent(db, me, k, r, i);
    assert DealOk(db.deals[k]);
    GoTable(me, db.deals[k].c, db.deals[k].lines, r);
  }

  // ---------------------------------------------------------------- payment reports

  /** A payment that may be put down against what is owed. */
  predicate IsPayable(amount: Option<Cents>, via: Option<Method>, account: Option<nat>, owed: Cents) {
    && amount.Some? && 0 < amount.value <= owed
    && (if via == Some(Account) then account.Some? else account.None?)
  }

  predicate UsedId(db: Db, me: Company, uuid: Option<nat>) {
    uuid.Some? && exists k, j :: 0 <= k < |db.deals| && 0 <= j < |db.deals[k].ledger| && IsReportOf(db.deals[k].ledger[j], me, uuid.value)
  }

  /** A report is put down exactly when it is payable and its request id is new; it says what was said and moves no debt. */
  lemma ReportedIff(db: Db, me: Company, k: nat, amount: Option<Cents>, via: Option<Method>, account: Option<nat>,
                    reference: string, uuid: Option<nat>)
    requires IsVisible(db, me, k)
    ensures var (after, r) := Apply(db, ReportPayment(me, k, amount, via, account, reference, uuid));
            var d := db.deals[k];
            && (r == Done <==> !UsedId(db, me, uuid) && IsPayable(amount, via, account, Outstanding(d.ledger)))
            && (r == Done ==>
                  && |after.deals| == |db.deals| && k < |after.deals| && after.units == db.units
                  && after.deals[k].c == d.c && after.deals[k].lines == d.lines
                  && Outstanding(after.deals[k].ledger) == Outstanding(d.ledger)
                  && |after.deals[k].ledger| == |d.ledger| + 1
                  && var e := after.deals[k].ledger[|d.ledger|];
                     && e.kind.PaymentReported? && amount == Some(e.amount) && e.via == via && e.account == account
                     && e.reference == reference && e.acting == me && e.clientUuid == uuid && e.refersTo.None?)
            && (r != Done ==> after == db)
  {
    var call := ReportPayment(me, k, amount, via, account, reference, uuid);
    UsedIff(db, me, uuid);
    if Apply(db, call).1 == Done {
      var ledger' := Apply(db, call).0.deals[k].ledger;
      OutstandingAppend(db.deals[k].ledger, ledger'[|db.deals[k].ledger|]);
    }
  }

  lemma UsedIff(db: Db, me: Company, uuid: Option<nat>)
    ensures UsedId(db, me, uuid) <==> uuid.Some? && WasReportedAs(db, me, uuid.value)
  {
  }

  /** A used request id is replayed when every report under it was the same payment, and refused when one was not. */
  lemma ReportIsReplayedIff(db: Db, me: Company, k: nat, amount: Option<Cents>, via: Option<Method>, account: Option<nat>,
                            reference: string, uuid: Option<nat>)
    requires IsVisible(db, me, k) && UsedId(db, me, uuid)
    ensures var asked := Fingerprint(k, OrZero(amount), OrCash(via), account, reference);
            Apply(db, ReportPayment(me, k, amount, via, account, reference, uuid))
            == (db, if forall l, j :: 0 <= l < |db.deals| && 0 <= j < |db.deals[l].ledger| && IsReportOf(db.deals[l].ledger[j], me, uuid.value)
                          && db.deals[l].ledger[j].requestHash.Some? ==> db.deals[l].ledger[j].requestHash.value == asked
                    then Replayed else Refused(Conflict))
  {
    UsedIff(db, me, uuid);
  }

  /** The same report sent again is answered, and changes nothing; with another amount it is refused. */
  lemma ReportSentAgain(db: Db, me: Company, k: nat, amount: Option<Cents>, via: Option<Method>, account: Option<nat>,
                        reference: string, uuid: Option<nat>, other: Cents)
    requires uuid.Some? && Apply(db, ReportPayment(me, k, amount, via, account, reference, uuid)).1 == Done
    ensures var after := Apply(db, ReportPayment(me, k, amount, via, account, reference, uuid)).0;
            && Apply(after, ReportPayment(me, k, amount, via, account, reference, uuid)) == (after, Replayed)
            && (Some(other) != amount ==>
                  Apply(after, ReportPayment(me, k, Some(other), via, account, reference, uuid)) == (after, Refused(Conflict)))
  {
    ReportedIff(db, me, k, amount, via, account, reference, uuid);
    var after := Apply(db, ReportPayment(me, k, amount, via, account, reference, uuid)).0;
    var n := |db.deals[k].ledger|;
    var e := after.deals[k].ledger[n];
    var hash := Fingerprint(k, OrZero(amount), OrCash(via), account, reference);
    ReportHasPrint(db, me, k, amount, via, account, reference, uuid);
    assert IsReportOf(after.deals[k].ledger[n], me, uuid.value);
    UsedIff(db, me, uuid);
    assert forall l, j :: 0 <= l < |db.deals| && 0 <= j < |db.deals[l].ledger| ==> !IsReportOf(db.deals[l].ledger[j], me, uuid.value);
  }

  lemma ReportHasPrint(db: Db, me: Company, k: nat, amount: Option<Cents>, via: Option<Method>, account: Option<nat>,
                       reference: string, uuid: Option<nat>)
    requires uuid.Some? && Apply(db, ReportPayment(me, k, amount, via, account, reference, uuid)).1 == Done
    ensures k < |db.deals|
    ensures var after := Apply(db, ReportPayment(me, k, amount, via, account, reference, uuid)).0;
            && |after.deals| == |db.deals| && (forall l :: 0 <= l < |db.deals| && l != k ==> after.deals[l] == db.deals[l])
            && |after.deals[k].ledger| == |db.deals[k].ledger| + 1
            && (forall j :: 0 <= j < |db.deals[k].ledger| ==> after.deals[k].ledger[j] == db.deals[k].ledger[j])
            && after.deals[k].ledger[|db.deals[k].ledger|].requestHash
            == Some(Fingerprint(k, OrZero(amount), OrCash(via), account, reference))
  {
  }

  // ---------------------------------------------------------------- confirmation and write-off

  /** A confirmation says again what was reported, and by whom it was confirmed. */
  predicate Confirms(e: Entry, reported: Entry, at: nat, me: Company) {
    && e.kind.PaymentConfirmed? && e.amount == reported.amount && e.via == reported.via && e.account == reported.account
    && e.reference == reported.reference && e.refersTo == Some(at) && e.acting == me
  }

  /** An entry that is no payment names no means, no account and no reference. */
  predicate IsPlain(e: Entry, kind: LedgerKind, amount: Cents, me: Company) {
    && e.kind == kind && e.amount == amount && e.acting == me
    && e.via.None? && e.account.None? && e.reference == "" && e.refersTo.None? && e.clientUuid.None?
  }

  /** What a sale puts on the ledger: one receivable. */
  lemma SaleEntry(d: Deal, me: Company, r: Request)
    requires DealOk(d) && r.ReportSold? && Prepare(me, d.c, d.lines, r).Go?
    ensures var ledger := EffectOn(d, Wrote(me, r)).ledger;
            && |ledger| == 1 && d.c.agreed.Some?
            && IsPlain(ledger[0], ReceivableRaised, |ChosenLines(d.lines, r.lineIds)| * d.c.agreed.value, me)
  {
    GuardedBeforeSale(d, me, r);
    SaleRaisesAgreedPerPhone(d, me, r);
    SaleIsPrepared(d.c, d.lines, SideOf(d.c, me).value, r);
  }

  /** A reported payment is confirmed exactly by the creditor, once, and while it still fits what is owed. */
  lemma ConfirmedIff(db: Db, me: Company, k: nat, entry: nat)
    requires k < |db.deals|
    ensures var (after, r) := Apply(db, ConfirmPayment(me, k, entry));
            var d := db.deals[k];
            && (r == Done <==>
                  && d.c.source == me && entry < |d.ledger| && d.ledger[entry].kind.PaymentReported?
                  && !(exists j :: 0 <= j < |d.ledger| && d.ledger[j].kind.PaymentConfirmed? && d.ledger[j].refersTo == Some(entry))
                  && IsPayable(Some(d.ledger[entry].amount), d.ledger[entry].via, d.ledger[entry].account, Outstanding(d.ledger)))
            && (r == Done ==>
                  && k < |after.deals| && after.units == db.units
                  && Outstanding(after.deals[k].ledger) == Outstanding(d.ledger) - d.ledger[entry].amount
                  && |after.deals[k].ledger| == |d.ledger| + 1 && after.deals[k].ledger[..|d.ledger|] == d.ledger
                  && Confirms(after.deals[k].ledger[|d.ledger|], d.ledger[entry], entry, me))
            && (r != Done ==> after == db)
  {
    if Apply(db, ConfirmPayment(me, k, entry)).1 == Done {
      OutstandingAppend(db.deals[k].ledger, ConfirmationOf(db.deals[k].ledger[entry], entry, me));
    }
  }

  /** A debt is written off exactly by the creditor, for a reason, and by no more than is owed. */
  lemma ForgivenIff(db: Db, me: Company, k: nat, amount: Cents, reasonGiven: bool)
    requires k < |db.deals|
    ensures var (after, r) := Apply(db, ForgiveDebt(me, k, amount, reasonGiven));
            var d := db.deals[k];
            && (r == Done <==> d.c.source == me && reasonGiven && 0 < amount <= Outstanding(d.ledger))
            && (r == Done ==>
                  && k < |after.deals| && after.units == db.units
                  && Outstanding(after.deals[k].ledger) == Outstanding(d.ledger) - amount
                  && |after.deals[k].ledger| == |d.ledger| + 1 && after.deals[k].ledger[..|d.ledger|] == d.ledger
                  && IsPlain(after.deals[k].ledger[|d.ledger|], Forgiven, amount, me))
            && (r != Done ==> after == db)
  {
    if Apply(db, ForgiveDebt(me, k, amount, reasonGiven)).1 == Done {
      OutstandingAppend(db.deals[k].ledger, PlainEntry(Forgiven, amount, me));
    }
  }

  /** In every run what is owed falls only by an act of the creditor, and rises only by a sale the other side reports. */
  lemma OnlyTheCreditorLowersDebt(start: Db, calls: seq<Call>, call: Call, k: nat)
    requires Init(start) && k < |Run(start, calls).deals|
    ensures k < |Apply(Run(start, calls), call).0.deals|
    ensures var d, d' := Run(start, calls).deals[k], Apply(Run(start, calls), call).0.deals[k];
            && (Outstanding(d'.ledger) < Outstanding(d.ledger) ==> IsOn(call, k) && call.me == d.c.source)
            && (Outstanding(d'.ledger) > Outstanding(d.ledger) ==>
                  call.Guarded? && call.id == k && call.request.ReportSold? && d.c.destination == Some(call.me))
  {
    var db := Run(start, calls);
    InitInv(start);
    RunKeepsInv(start, calls);
    assert DealOk(db.deals[k]);
    ApplyIsEffect(db, call, k);
    match EffectOf(db, call, k)
    case Untouched =>
    case Wrote(me, r) => WriteMovesDebt(db.deals[k], me, r);
    case Noted(report) => NoteKeepsDebt(db.deals[k], report);
    case Cleared(_, _) => ClearedByCreditor(db, call, k);
  }

  lemma NoteKeepsDebt(d: Deal, report: Entry)
    requires report.kind.PaymentReported?
    ensures Outstanding(EffectOn(d, Noted(report)).ledger) == Outstanding(d.ledger)
  {
    OutstandingAppend(d.ledger, report);
  }

  lemma WriteMovesDebt(d: Deal, me: Company, r: Request)
    requires DealOk(d) && Prepare(me, d.c, d.lines, r).Go?
    ensures var owed := Outstanding(EffectOn(d, Wrote(me, r)).ledger);
            && owed >= Outstanding(d.ledger)
            && (owed > Outstanding(d.ledger) ==> r.ReportSold? && d.c.destination == Some(me))
  {
    GuardedBeforeSale(d, me, r);
    if r.ReportSold? {
      SaleRaisesDebt(d, me, r);
    } else {
      OnlySalesWriteLedger(me, d.c, d.lines, r);
    }
  }

  lemma OnlySalesWriteLedger(me: Company, c: Consignment, lines: seq<Line>, r: Request)
    requires Prepare(me, c, lines, r).Go? && !r.ReportSold?
    ensures WriteLedger([], me, Prepare(me, c, lines, r).write) == []
  {
  }

  lemma SaleRaisesDebt(d: Deal, me: Company, r: Request)
    requires DealOk(d) && d.ledger == [] && r.ReportSold? && Prepare(me, d.c, d.lines, r).Go?
    ensures Outstanding(EffectOn(d, Wrote(me, r)).ledger) >= 0 && d.c.destination == Some(me)
  {
    GoesAheadIff(d.c, d.lines, me, r);
    var side := SideOf(d.c, me).value;
    SaleIsPrepared(d.c, d.lines, side, r);
    var raised := Raised(d.lines, ChosenLines(d.lines, r.lineIds));
    OutstandingAppend([], PlainEntry(ReceivableRaised, raised, me));
    RaisedIsSoldTotal(d.lines, ChosenLines(d.lines, r.lineIds));
  }

  lemma ClearedByCreditor(db: Db, call: Call, k: nat)
    requires k < |db.deals| && EffectOf(db, call, k).Cleared?
    ensures IsOn(call, k) && call.me == db.deals[k].c.source
    ensures Outstanding(Apply(db, call).0.deals[k].ledger) <= Outstanding(db.deals[k].ledger)
  {
    if call.ConfirmPayment? {
      ConfirmedIff(db, call.me, k, call.entry);
    } else {
      ForgivenIff(db, call.me, k, call.debt, call.reasonGiven);
    }
  }

  /** In every run each confirmation and each write-off on the ledger is the creditor's. */
  lemma LedgerIsTheCreditors(start: Db, calls: seq<Call>, k: nat, j: nat)
    requires Init(start) && k < |Run(start, calls).deals| && j < |Run(start, calls).deals[k].ledger|
    ensures var d := Run(start, calls).deals[k];
            d.ledger[j].kind.PaymentConfirmed? || d.ledger[j].kind.Forgiven? ==> d.ledger[j].acting == d.c.source
  {
    InitInv(start);
    RunKeepsInv(start, calls);
    assert DealOk(Run(start, calls).deals[k]);
  }
}

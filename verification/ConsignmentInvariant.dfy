/** What every call keeps: the four tables agree with each other in every reachable state. */
module ConsignmentInvariant {
  import opened Prelude
  import opened ConsignmentLifecycle
  import opened UnitStates
  import opened ConsignmentModel

  // ---------------------------------------------------------------- the invariant

  predicate Negotiating(s: Status) {
    s.Requested? || s.CounterProposed? || s.Disputed?
  }

  predicate AwaitingCustody(s: Status) {
    s.AcceptedAwaitingCustody? || s.CustodyAwaitingConfirmation?
  }

  predicate Holding(s: Status) {
    s.InCustody? || s.ReturnInitiated? || s.ReturnInTransit?
  }

  predicate Disposed(s: Status) {
    s.SoldAwaitingSettlement? || s.PartiallyPaid? || s.Settled? || s.ForgivenSettled?
  }

  ghost predicate AllLines(lines: seq<Line>, status: LineStatus) {
    forall i :: 0 <= i < |lines| ==> lines[i].status == status
  }

  ghost predicate LinesAgree(c: Consignment, lines: seq<Line>) {
    forall i :: 0 <= i < |lines| ==> lines[i].agreed == c.agreed
  }

  /** The agreed amount: absent while negotiating, then the positive offer that was on the table. */
  ghost predicate AgreementOk(c: Consignment) {
    && c.status != Draft
    && (c.counter.Some? ==> c.counter.value > 0)
    && (Negotiating(c.status) ==> c.agreed.None?)
    && (c.agreed.None? ==> Negotiating(c.status) || c.status == Cancelled)
    && (c.agreed.Some? ==> c.agreed.value > 0 && c.agreed.value == OfferOnTable(c))
  }

  ghost predicate LinesOk(c: Consignment, lines: seq<Line>) {
    && LinesAgree(c, lines)
    && (Negotiating(c.status) || AwaitingCustody(c.status) ==> AllLines(lines, LineProposed))
    && (Holding(c.status) ==> AllLines(lines, LineInCustody))
    && (c.status == ReturnedAccepted ==> AllLines(lines, LineReturned))
    && (c.status == Cancelled ==> AllLines(lines, LineCancelled))
    && (Disposed(c.status) ==>
          && forall i :: 0 <= i < |lines| ==> lines[i].status == LineInCustody || lines[i].status == LineSold)
  }

  /**
   * Every confirmation answers one earlier report of the same amount, by the creditor, and no other does; every
   * write-off is the creditor's.
   */
  ghost predicate ConfirmationsOk(source: Company, ledger: seq<Entry>) {
    && (forall j :: 0 <= j < |ledger| && ledger[j].kind == PaymentConfirmed ==>
          && ledger[j].acting == source
          && ledger[j].refersTo.Some?
          && ledger[j].refersTo.value < j
          && ledger[ledger[j].refersTo.value].kind == PaymentReported
          && ledger[ledger[j].refersTo.value].amount == ledger[j].amount)
    && (forall j, k :: 0 <= j < k < |ledger| && ledger[j].kind == ledger[k].kind == PaymentConfirmed ==>
          ledger[j].refersTo != ledger[k].refersTo)
    && (forall j :: 0 <= j < |ledger| && ledger[j].kind == Forgiven ==> ledger[j].acting == source)
  }

  ghost predicate BalanceOk(status: Status, ledger: seq<Entry>)
    requires |ledger| > 0
  {
    var owed := Outstanding(ledger);
    var raised := ledger[0].amount;
    var last := ledger[|ledger| - 1].kind;
    match status
    case SoldAwaitingSettlement => owed == raised
    case PartiallyPaid => 0 < owed < raised
    case Settled => owed == 0 && last == PaymentConfirmed
    case ForgivenSettled => owed == 0 && last == Forgiven
    case _ => true
  }

  /** What the sold lines were agreed at, in total. */
  function SoldTotal(lines: seq<Line>): Cents {
    if lines == [] then 0
    else
      var last := lines[|lines| - 1];
      SoldTotal(lines[..|lines| - 1]) + if last.status == LineSold && last.agreed.Some? then last.agreed.value else 0
  }

  predicate IsFollowUp(kind: LedgerKind) {
    kind.PaymentReported? || kind.PaymentConfirmed? || kind.Forgiven?
  }

  ghost predicate LedgerOk(c: Consignment, lines: seq<Line>, ledger: seq<Entry>) {
    && (!Disposed(c.status) ==> ledger == [])
    && (Disposed(c.status) ==>
          && |ledger| > 0
          && ledger[0].kind == ReceivableRaised
          && ledger[0].amount == SoldTotal(lines)
          && (forall j :: 1 <= j < |ledger| ==> IsFollowUp(ledger[j].kind))
          && (forall j :: 0 <= j < |ledger| ==> ledger[j].amount > 0)
          && BalanceOk(c.status, ledger))
    && ConfirmationsOk(c.source, ledger)
  }

  ghost predicate DealOk(d: Deal) {
    AgreementOk(d.c) && LinesOk(d.c, d.lines) && LedgerOk(d.c, d.lines, d.ledger)
  }

  predicate Live(db: Db, k: nat, i: nat) {
    k < |db.deals| && i < |db.deals[k].lines| && IsLive(db.deals[k].lines[i])
  }

  function UnitOf(db: Db, k: nat, i: nat): UnitId
    requires Live(db, k, i)
  {
    db.deals[k].lines[i].unit
  }

  /** Units with status consigned_out and live lines are in one-to-one correspondence. */
  ghost predicate UnitsOk(db: Db) {
    && (forall k, i :: Live(db, k, i) ==>
          UnitOf(db, k, i) in db.units && db.units[UnitOf(db, k, i)].status == ConsignedOut)
    && (forall k, i, l, j :: Live(db, k, i) && Live(db, l, j) && UnitOf(db, k, i) == UnitOf(db, l, j) ==>
          k == l && i == j)
    && (forall u :: u in db.units && db.units[u].status == ConsignedOut ==>
          exists k, i :: Live(db, k, i) && UnitOf(db, k, i) == u)
  }

  ghost predicate Inv(db: Db) {
    && (forall k :: 0 <= k < |db.deals| ==> DealOk(db.deals[k]))
    && UnitsOk(db)
  }

  // ---------------------------------------------------------------- create

  /** Create succeeds exactly on distinct in-stock phones of this branch, and takes out just those. */
  lemma {:induction false} ClaimSpec(units: map<UnitId, Unit>, me: Company, branch: Branch, ids: seq<UnitId>)
    ensures ClaimUnits(units, me, branch, ids).Claimed? <==>
            && (forall i :: 0 <= i < |ids| ==>
                  && ids[i] in units && units[ids[i]].company == me && units[ids[i]].branch == branch
                  && units[ids[i]].status == InStock)
            && (forall i, j :: 0 <= i < j < |ids| ==> ids[i] != ids[j])
    ensures ClaimUnits(units, me, branch, ids).Claimed? ==>
            ClaimUnits(units, me, branch, ids).units
            == map u | u in units :: if u in ids then units[u].(status := ConsignedOut) else units[u]
  {
    if ids != [] {
      assert ids == [ids[0]] + ids[1..];
      if ids[0] in units {
        var taken := units[ids[0] := units[ids[0]].(status := ConsignedOut)];
        ClaimSpec(taken, me, branch, ids[1..]);
        if ids[0] in ids[1..] {
          var j :| 0 <= j < |ids[1..]| && ids[1..][j] == ids[0];
          assert ids[j + 1] == ids[0];
        } else {
          assert forall i :: 0 <= i < |ids[1..]| ==> ids[1..][i] == ids[i + 1];
          assert forall i :: 1 <= i < |ids| ==> ids[i] == ids[1..][i - 1];
        }
      }
    }
  }

  /** Taking out distinct phones that no live line holds, for a new deal over just those phones. */
  lemma ClaimKeepsUnits(db: Db, d: Deal, ids: seq<UnitId>, units: map<UnitId, Unit>)
    requires UnitsOk(db) && |d.lines| == |ids|
    requires forall i :: 0 <= i < |ids| ==> d.lines[i].unit == ids[i] && d.lines[i].status == LineProposed
    requires forall i, j :: 0 <= i < j < |ids| ==> ids[i] != ids[j]
    requires forall i :: 0 <= i < |ids| ==> ids[i] in db.units && db.units[ids[i]].status == InStock
    requires units.Keys == db.units.Keys
    requires forall u :: u in units ==>
               units[u].status == if u in ids then ConsignedOut else db.units[u].status
    ensures UnitsOk(Db(db.deals + [d], units))
  {
    var n, after := |db.deals|, Db(db.deals + [d], units);
    assert forall k: nat, i: nat :: k < n ==> Live(after, k, i) == Live(db, k, i);
    assert forall i: nat :: Live(after, n, i) <==> i < |ids|;
    forall k, i, j | Live(db, k, i) && 0 <= j < |ids|
      ensures UnitOf(db, k, i) != ids[j]
    {
    }
    forall u | u in units && units[u].status == ConsignedOut
      ensures exists k, i :: Live(after, k, i) && UnitOf(after, k, i) == u
    {
      if u in ids {
        var i :| 0 <= i < |ids| && ids[i] == u;
        assert Live(after, n, i) && UnitOf(after, n, i) == u;
      } else {
        var k, i :| Live(db, k, i) && UnitOf(db, k, i) == u;
        assert Live(after, k, i) && UnitOf(after, k, i) == u;
      }
    }
  }

  lemma NewDealOk(c: Consignment, lines: seq<Line>)
    requires c.status.Requested? && c.counter.None? && c.agreed.None?
    requires forall i :: 0 <= i < |lines| ==> lines[i].status.LineProposed? && lines[i].agreed.None?
    ensures DealOk(Deal(c, lines, []))
  {
  }

  lemma AppendingKeepsInv(db: Db, d: Deal, units: map<UnitId, Unit>)
    requires Inv(db) && DealOk(d) && UnitsOk(Db(db.deals + [d], units))
    ensures Inv(Db(db.deals + [d], units))
  {
  }

  lemma CreateKeepsInv(db: Db, call: Call)
    requires Inv(db) && call.Create?
    ensures Inv(ApplyCreate(db, call).0)
  {
    if ApplyCreate(db, call).1 == Done {
      var after := ApplyCreate(db, call).0;
      var d := after.deals[|db.deals|];
      ClaimSpec(db.units, call.me, call.branch, call.unitIds);
      ClaimKeepsUnits(db, d, call.unitIds, after.units);
      NewDealOk(d.c, d.lines);
      AppendingKeepsInv(db, d, after.units);
    }
  }

  // ---------------------------------------------------------------- guarded calls: lines and units

  /** The lines keep their phones, and a line that stops being live gives its phone up. */
  ghost predicate Gives(before: seq<Line>, after: seq<Line>, chosen: set<UnitId>) {
    && |before| == |after|
    && (forall i :: 0 <= i < |before| ==> after[i].unit == before[i].unit)
    && (forall i :: 0 <= i < |before| && IsLive(after[i]) ==> IsLive(before[i]))
    && (forall i :: 0 <= i < |before| && IsLive(before[i]) && !IsLive(after[i]) ==> before[i].unit in chosen)
    && (forall u :: u in chosen ==>
          exists i :: 0 <= i < |before| && before[i].unit == u && IsLive(before[i]) && !IsLive(after[i]))
  }

  lemma GivingKeepsUnits(db: Db, id: nat, d: Deal, chosen: set<UnitId>, to: UnitStatus)
    requires UnitsOk(db) && id < |db.deals| && Gives(db.deals[id].lines, d.lines, chosen) && to != ConsignedOut
    ensures UnitsOk(Db(db.deals[id := d], Move(db.units, chosen, to)))
  {
    var after := Db(db.deals[id := d], Move(db.units, chosen, to));
    forall k, i | Live(after, k, i)
      ensures Live(db, k, i) && UnitOf(after, k, i) == UnitOf(db, k, i) && UnitOf(after, k, i) !in chosen
    {
      LiveLineKeepsItsPhone(db, id, d, chosen, after, k, i);
    }
    forall u | u in after.units && after.units[u].status == ConsignedOut
      ensures exists k, i :: Live(after, k, i) && UnitOf(after, k, i) == u
    {
      OutStaysHeld(db, id, d, chosen, to, u);
    }
  }

  lemma LiveLineKeepsItsPhone(db: Db, id: nat, d: Deal, chosen: set<UnitId>, after: Db, k: nat, i: nat)
    requires UnitsOk(db) && id < |db.deals| && Gives(db.deals[id].lines, d.lines, chosen)
    requires after.deals == db.deals[id := d] && Live(after, k, i)
    ensures Live(db, k, i) && UnitOf(after, k, i) == UnitOf(db, k, i) && UnitOf(after, k, i) !in chosen
  {
    var u := UnitOf(after, k, i);
    assert Live(db, k, i) && UnitOf(db, k, i) == u;
    if u in chosen {
      ChosenWasLive(db, id, d, chosen, u, after);
    }
  }

  lemma OutStaysHeld(db: Db, id: nat, d: Deal, chosen: set<UnitId>, to: UnitStatus, u: UnitId)
    requires UnitsOk(db) && id < |db.deals| && Gives(db.deals[id].lines, d.lines, chosen) && to != ConsignedOut
    requires u in db.units && Move(db.units, chosen, to)[u].status == ConsignedOut
    ensures var after := Db(db.deals[id := d], Move(db.units, chosen, to));
            exists k, i :: Live(after, k, i) && UnitOf(after, k, i) == u
  {
    var after := Db(db.deals[id := d], Move(db.units, chosen, to));
    var k, i :| Live(db, k, i) && UnitOf(db, k, i) == u;
    assert Live(after, k, i) && UnitOf(after, k, i) == u;
  }

  lemma ChosenWasLive(db: Db, id: nat, d: Deal, chosen: set<UnitId>, u: UnitId, after: Db)
    requires id < |db.deals| && Gives(db.deals[id].lines, d.lines, chosen) && u in chosen
    requires after.deals == db.deals[id := d]
    ensures exists j :: Live(db, id, j) && !Live(after, id, j) && UnitOf(db, id, j) == u
  {
    var j :| 0 <= j < |db.deals[id].lines| && db.deals[id].lines[j].unit == u
          && IsLive(db.deals[id].lines[j]) && !IsLive(d.lines[j]);
    assert Live(db, id, j) && !Live(after, id, j) && UnitOf(db, id, j) == u;
  }

  lemma StayingKeepsUnits(db: Db, id: nat, d: Deal)
    requires UnitsOk(db) && id < |db.deals| && Gives(db.deals[id].lines, d.lines, {})
    ensures UnitsOk(Db(db.deals[id := d], db.units))
  {
    GivingKeepsUnits(db, id, d, {}, InStock);
    assert Move(db.units, {}, InStock) == db.units;
  }

  lemma WriteGives(lines: seq<Line>, next: Status, w: Write)
    requires w.WriteSale? ==> forall i :: i in w.chosen ==> i < |lines| && lines[i].status == LineInCustody
    ensures w.WriteDecision? && next == Cancelled ==> Gives(lines, WriteLines(lines, next, w), LiveUnits(lines))
    ensures w.WriteSale? ==> Gives(lines, WriteLines(lines, next, w), UnitsAt(lines, w.chosen))
    ensures w.WriteReturn? && w.confirm ==>
              Gives(lines, WriteLines(lines, next, w), UnitsWith(lines, LineInCustody))
    ensures (w.WriteDecision? && next != Cancelled) || w.WriteCustody? || (w.WriteReturn? && !w.confirm) ==>
              Gives(lines, WriteLines(lines, next, w), {})
  {
  }

  lemma GuardedKeepsUnits(db: Db, me: Company, id: nat, r: Request)
    requires UnitsOk(db)
    ensures UnitsOk(ApplyGuarded(db, me, id, r).0)
  {
    if id < |db.deals| {
      var d := db.deals[id];
      match Prepare(me, d.c, d.lines, r)
      case Stop(_) =>
      case Go(next, w) =>
        WriteGives(d.lines, next, w);
        var d' := CommitWrite(db, me, id, d.c, next, w).0.deals[id];
        match w
        case WriteDecision(_, _, _) =>
          if next == Cancelled {
            GivingKeepsUnits(db, id, d', LiveUnits(d.lines), InStock);
          } else {
            StayingKeepsUnits(db, id, d');
          }
        case WriteCustody(_) => StayingKeepsUnits(db, id, d');
        case WriteSale(chosen, _) => GivingKeepsUnits(db, id, d', UnitsAt(d.lines, chosen), Sold);
        case WriteReturn(confirm, damaged) =>
          if confirm {
            GivingKeepsUnits(db, id, d', UnitsWith(d.lines, LineInCustody), if damaged then Faulty else InStock);
          } else {
            StayingKeepsUnits(db, id, d');
          }
    }
  }

  // ---------------------------------------------------------------- guarded calls: one deal

  lemma SaleOfLastLine(lines: seq<Line>, chosen: set<nat>)
    requires lines != [] && lines[|lines| - 1].status == LineInCustody && lines[|lines| - 1].agreed.Some?
    ensures var last := |lines| - 1;
            SoldTotal(SellLines(lines, chosen))
            == SoldTotal(SellLines(lines[..last], chosen)) + if last in chosen then lines[last].agreed.value else 0
  {
    var last, sold := |lines| - 1, SellLines(lines, chosen);
    assert sold[..last] == SellLines(lines[..last], chosen);
    assert sold[last] == if last in chosen then lines[last].(status := LineSold) else lines[last];
  }

  /** What reportSold adds up over the chosen lines is what the lines it marks sold were agreed at. */
  lemma {:induction false} RaisedIsSoldTotal(lines: seq<Line>, chosen: set<nat>)
    requires forall i :: 0 <= i < |lines| ==>
               lines[i].status == LineInCustody && lines[i].agreed.Some? && lines[i].agreed.value > 0
    ensures Raised(lines, chosen) == SoldTotal(SellLines(lines, chosen))
    ensures Raised(lines, chosen) >= 0
    ensures forall i :: i in chosen && i < |lines| ==> Raised(lines, chosen) > 0
  {
    if lines != [] {
      var last := |lines| - 1;
      RaisedIsSoldTotal(lines[..last], chosen);
      SaleOfLastLine(lines, chosen);
    }
  }

  /** What decide can write: where it starts, where it goes and which amounts it sets. */
  lemma DecideIsPrepared(c: Consignment, side: Side, r: Request)
    requires r.Decide? && PrepareDecide(c, side, r).Go?
    ensures var p := PrepareDecide(c, side, r);
            && p.write.WriteDecision? && p.write.action == r.action
            && (Negotiating(c.status) || c.status.Draft? || c.status.AcceptedAwaitingCustody?)
            && (r.action.Accept? || r.action.Counter? || r.action.Dispute? || r.action.Reject? || r.action.Cancel?)
            && (r.action.Accept? ==> p.next.AcceptedAwaitingCustody? && p.write.agreed == Some(OfferOnTable(c)) && OfferOnTable(c) > 0)
            && (r.action.Counter? ==> p.next.CounterProposed? && p.write.counter == r.amount && r.amount.Some? && r.amount.value > 0)
            && (r.action.Dispute? ==> p.next.Disputed?)
            && (r.action.Reject? || r.action.Cancel? ==> p.next.Cancelled?)
            && (r.action.Accept? || r.action.Counter? || r.action.Dispute? ==> Negotiating(c.status))
  {
  }

  lemma AcceptKeepsDeal(c: Consignment, lines: seq<Line>)
    requires AgreementOk(c) && LinesOk(c, lines) && Negotiating(c.status) && OfferOnTable(c) > 0
    ensures var c' := c.(status := AcceptedAwaitingCustody, version := c.version + 1, agreed := Some(OfferOnTable(c)));
            AgreementOk(c') && LinesOk(c', AgreeProposed(lines, OfferOnTable(c)))
  {
  }

  lemma CancelKeepsDeal(c: Consignment, lines: seq<Line>)
    requires AgreementOk(c) && LinesOk(c, lines) && (Negotiating(c.status) || c.status.AcceptedAwaitingCustody?)
    ensures var c' := c.(status := Cancelled, version := c.version + 1); AgreementOk(c') && LinesOk(c', CancelLive(lines))
  {
  }

  lemma DecideKeepsDeal(c: Consignment, lines: seq<Line>, side: Side, r: Request)
    requires AgreementOk(c) && LinesOk(c, lines) && LedgerOk(c, lines, [])
    requires r.Decide? && PrepareDecide(c, side, r).Go?
    ensures var p := PrepareDecide(c, side, r);
            var c' := WriteConsignment(c, p.next, p.write);
            var lines' := WriteLines(lines, p.next, p.write);
            AgreementOk(c') && LinesOk(c', lines') && LedgerOk(c', lines', [])
  {
    DecideIsPrepared(c, side, r);
    if r.action.Accept? {
      AcceptKeepsDeal(c, lines);
    } else if r.action.Reject? || r.action.Cancel? {
      CancelKeepsDeal(c, lines);
    }
  }

  lemma CustodyKeepsDeal(c: Consignment, lines: seq<Line>, side: Side, r: Request)
    requires AgreementOk(c) && LinesOk(c, lines) && LedgerOk(c, lines, [])
    requires r.Custody? && PrepareCustody(c, lines, side, r).Go?
    ensures var p := PrepareCustody(c, lines, side, r);
            var c' := WriteConsignment(c, p.next, p.write);
            var lines' := WriteLines(lines, p.next, p.write);
            AgreementOk(c') && LinesOk(c', lines') && LedgerOk(c', lines', [])
  {
  }

  lemma ReturnKeepsDeal(c: Consignment, lines: seq<Line>, side: Side, r: Request)
    requires AgreementOk(c) && LinesOk(c, lines) && LedgerOk(c, lines, [])
    requires r.ReturnFlow? && PrepareReturn(c, side, r).Go?
    ensures var p := PrepareReturn(c, side, r);
            var c' := WriteConsignment(c, p.next, p.write);
            var lines' := WriteLines(lines, p.next, p.write);
            AgreementOk(c') && LinesOk(c', lines') && LedgerOk(c', lines', [])
  {
  }

  lemma SaleIsPrepared(c: Consignment, lines: seq<Line>, side: Side, r: Request)
    requires r.ReportSold? && PrepareSale(c, lines, side, r).Go?
    ensures var chosen := ChosenLines(lines, r.lineIds);
            c.status.InCustody? && chosen != {}
            && PrepareSale(c, lines, side, r) == Go(SoldAwaitingSettlement, WriteSale(chosen, Raised(lines, chosen)))
  {
  }

  lemma SaleKeepsLines(c: Consignment, lines: seq<Line>, chosen: set<nat>)
    requires LinesOk(c, lines) && c.status.InCustody?
    ensures LinesOk(c.(status := SoldAwaitingSettlement, version := c.version + 1), SellLines(lines, chosen))
  {
  }

  lemma SaleOpensLedger(c: Consignment, lines: seq<Line>, raised: Cents, me: Company)
    requires c.status.SoldAwaitingSettlement? && raised == SoldTotal(lines) && raised > 0
    ensures LedgerOk(c, lines, [] + [PlainEntry(ReceivableRaised, raised, me)])
  {
    var e := PlainEntry(ReceivableRaised, raised, me);
    assert [] + [e] == [e];
    OutstandingAppend([], e);
  }

  lemma SaleKeepsDeal(c: Consignment, lines: seq<Line>, side: Side, r: Request, me: Company)
    requires AgreementOk(c) && LinesOk(c, lines)
    requires r.ReportSold? && PrepareSale(c, lines, side, r).Go?
    ensures var p := PrepareSale(c, lines, side, r);
            var c' := WriteConsignment(c, p.next, p.write);
            var lines' := WriteLines(lines, p.next, p.write);
            AgreementOk(c') && LinesOk(c', lines') && LedgerOk(c', lines', WriteLedger([], me, p.write))
  {
    SaleIsPrepared(c, lines, side, r);
    var chosen := ChosenLines(lines, r.lineIds);
    var c' := c.(status := SoldAwaitingSettlement, version := c.version + 1);
    RaisedIsSoldTotal(lines, chosen);
    SaleKeepsLines(c, lines, chosen);
    SaleOpensLedger(c', SellLines(lines, chosen), Raised(lines, chosen), me);
  }

  /** A guarded call only goes ahead before any sale, when the ledger is still empty. */
  lemma GuardedBeforeSale(d: Deal, me: Company, r: Request)
    requires DealOk(d) && Prepare(me, d.c, d.lines, r).Go?
    ensures !Disposed(d.c.status) && d.ledger == []
  {
  }

  lemma GuardedKeepsDeal(db: Db, me: Company, id: nat, r: Request)
    requires id < |db.deals| && DealOk(db.deals[id])
    ensures DealOk(ApplyGuarded(db, me, id, r).0.deals[id])
  {
    var d := db.deals[id];
    if Prepare(me, d.c, d.lines, r).Go? {
      GuardedBeforeSale(d, me, r);
      var side := SideOf(d.c, me).value;
      match r
      case Decide(_, _, _, _) => DecideKeepsDeal(d.c, d.lines, side, r);
      case Custody(_, _) => CustodyKeepsDeal(d.c, d.lines, side, r);
      case ReportSold(_) => SaleKeepsDeal(d.c, d.lines, side, r, me);
      case ReturnFlow(_, _) => ReturnKeepsDeal(d.c, d.lines, side, r);
    }
  }

  lemma GuardedKeepsInv(db: Db, me: Company, id: nat, r: Request)
    requires Inv(db)
    ensures Inv(ApplyGuarded(db, me, id, r).0)
  {
    GuardedKeepsUnits(db, me, id, r);
    if id < |db.deals| {
      GuardedKeepsDeal(db, me, id, r);
    }
  }

  // ---------------------------------------------------------------- payments

  lemma OutstandingAppend(ledger: seq<Entry>, e: Entry)
    ensures Outstanding(ledger + [e]) == Outstanding(ledger) + Signed(e)
  {
    assert (ledger + [e])[..|ledger|] == ledger;
  }

  /** Outside a disposed deal nothing is owed, so no payment or write-off is allowed. */
  lemma OwedMeansDisposed(d: Deal)
    requires DealOk(d) && Outstanding(d.ledger) > 0
    ensures d.c.status == SoldAwaitingSettlement || d.c.status == PartiallyPaid
    ensures |d.ledger| > 0 && Outstanding(d.ledger) <= d.ledger[0].amount
  {
  }

  /** Replacing one deal's row and ledger, with the same lines, touches no phone. */
  lemma ReplacingKeepsInv(db: Db, id: nat, d: Deal)
    requires Inv(db) && id < |db.deals| && DealOk(d) && d.lines == db.deals[id].lines
    ensures Inv(db.(deals := db.deals[id := d]))
  {
    StayingKeepsUnits(db, id, d);
  }

  lemma ReportKeepsDeal(d: Deal, e: Entry)
    requires DealOk(d) && e.kind == PaymentReported && 0 < e.amount <= Outstanding(d.ledger)
    ensures DealOk(d.(ledger := d.ledger + [e]))
  {
    OwedMeansDisposed(d);
    OutstandingAppend(d.ledger, e);
  }

  lemma ReportKeepsInv(db: Db, call: Call)
    requires call.ReportPayment? && Inv(db)
    ensures Inv(ApplyReport(db, call).0)
  {
    if ApplyReport(db, call).1 == Done {
      var d := db.deals[call.id];
      var d' := ApplyReport(db, call).0.deals[call.id];
      ReportKeepsDeal(d, d'.ledger[|d.ledger|]);
      ReplacingKeepsInv(db, call.id, d');
    }
  }

  lemma SettlingKeepsLedger(c: Consignment, lines: seq<Line>, ledger: seq<Entry>, e: Entry, next: Status)
    requires LedgerOk(c, lines, ledger) && ledger != []
    requires e.kind.PaymentConfirmed? || e.kind.Forgiven?
    requires 0 < e.amount <= Outstanding(ledger) <= ledger[0].amount
    requires ConfirmationsOk(c.source, ledger + [e])
    requires if Outstanding(ledger) > e.amount then next.PartiallyPaid?
             else if e.kind.PaymentConfirmed? then next.Settled? else next.ForgivenSettled?
    ensures LedgerOk(c.(status := next), lines, ledger + [e])
  {
    OutstandingAppend(ledger, e);
    var ledger' := ledger + [e];
    assert ledger'[|ledger'| - 1] == e && ledger'[0] == ledger[0];
    assert forall j :: 1 <= j < |ledger'| ==> IsFollowUp(ledger'[j].kind);
  }

  /** A confirmation or a write-off of at most what is owed leaves status and balance in step. */
  lemma SettlingKeepsDeal(d: Deal, e: Entry, closing: Status)
    requires DealOk(d)
    requires (e.kind == PaymentConfirmed && closing == Settled) || (e.kind == Forgiven && closing == ForgivenSettled)
    requires 0 < e.amount <= Outstanding(d.ledger)
    requires ConfirmationsOk(d.c.source, d.ledger + [e])
    ensures DealOk(SettleIfClear(d.(ledger := d.ledger + [e]), closing))
  {
    OwedMeansDisposed(d);
    OutstandingAppend(d.ledger, e);
    var next := if Outstanding(d.ledger) > e.amount then PartiallyPaid else closing;
    SettlesTo(d.(ledger := d.ledger + [e]), closing, next);
    SettlingKeepsLedger(d.c, d.lines, d.ledger, e, next);
    SettlingKeepsRest(d.c, d.lines, next);
  }

  lemma SettlesTo(d: Deal, closing: Status, next: Status)
    requires d.c.status.SoldAwaitingSettlement? || d.c.status.PartiallyPaid?
    requires next == if Outstanding(d.ledger) > 0 then PartiallyPaid else closing
    ensures SettleIfClear(d, closing) == d.(c := d.c.(status := next))
  {
  }

  lemma SettlingKeepsRest(c: Consignment, lines: seq<Line>, next: Status)
    requires AgreementOk(c) && LinesOk(c, lines) && Disposed(c.status) && Disposed(next)
    ensures AgreementOk(c.(status := next)) && LinesOk(c.(status := next), lines)
  {
  }

  lemma ConfirmationAppends(source: Company, ledger: seq<Entry>, entry: nat)
    requires ConfirmationsOk(source, ledger) && entry < |ledger| && ledger[entry].kind == PaymentReported
    requires !WasConfirmed(ledger, entry)
    ensures ConfirmationsOk(source, ledger + [ConfirmationOf(ledger[entry], entry, source)])
  {
  }

  lemma ForgivenessAppends(source: Company, ledger: seq<Entry>, e: Entry)
    requires ConfirmationsOk(source, ledger) && e.kind.Forgiven? && e.acting == source
    ensures ConfirmationsOk(source, ledger + [e])
  {
  }

  /** What a confirmation that is not refused was allowed on, and what it leaves. */
  lemma ConfirmIsSettling(db: Db, call: Call)
    requires call.ConfirmPayment? && ApplyConfirm(db, call).1 == Done
    ensures call.id < |db.deals|
    ensures var d := db.deals[call.id];
            && d.c.source == call.me
            && call.entry < |d.ledger| && d.ledger[call.entry].kind == PaymentReported
            && !WasConfirmed(d.ledger, call.entry)
            && 0 < d.ledger[call.entry].amount <= Outstanding(d.ledger)
            && var e := ConfirmationOf(d.ledger[call.entry], call.entry, call.me);
               ApplyConfirm(db, call).0 == db.(deals := db.deals[call.id := SettleIfClear(d.(ledger := d.ledger + [e]), Settled)])
  {
  }

  lemma ConfirmKeepsInv(db: Db, call: Call)
    requires call.ConfirmPayment? && Inv(db)
    ensures Inv(ApplyConfirm(db, call).0)
  {
    if ApplyConfirm(db, call).1 == Done {
      ConfirmIsSettling(db, call);
      var d := db.deals[call.id];
      var e := ConfirmationOf(d.ledger[call.entry], call.entry, call.me);
      assert DealOk(d);
      ConfirmationAppends(d.c.source, d.ledger, call.entry);
      SettlingKeepsDeal(d, e, Settled);
      ReplacingKeepsInv(db, call.id, SettleIfClear(d.(ledger := d.ledger + [e]), Settled));
    }
  }

  lemma ForgiveIsSettling(db: Db, call: Call)
    requires call.ForgiveDebt? && ApplyForgive(db, call).1 == Done
    ensures call.id < |db.deals|
    ensures var d := db.deals[call.id];
            && d.c.source == call.me
            && 0 < call.debt <= Outstanding(d.ledger)
            && var e := PlainEntry(Forgiven, call.debt, call.me);
               ApplyForgive(db, call).0
               == db.(deals := db.deals[call.id := SettleIfClear(d.(ledger := d.ledger + [e]), ForgivenSettled)])
  {
  }

  lemma ForgiveKeepsInv(db: Db, call: Call)
    requires call.ForgiveDebt? && Inv(db)
    ensures Inv(ApplyForgive(db, call).0)
  {
    if ApplyForgive(db, call).1 == Done {
      ForgiveIsSettling(db, call);
      var d := db.deals[call.id];
      var e := PlainEntry(Forgiven, call.debt, call.me);
      assert DealOk(d);
      ForgivenessAppends(d.c.source, d.ledger, e);
      SettlingKeepsDeal(d, e, ForgivenSettled);
      ReplacingKeepsInv(db, call.id, SettleIfClear(d.(ledger := d.ledger + [e]), ForgivenSettled));
    }
  }

  lemma UnitStepKeepsInv(db: Db, call: Call)
    requires Inv(db) && (call.MoveUnit? || call.AddUnit?)
    ensures Inv(ApplyUnitStep(db, call).0)
  {
    var after := ApplyUnitStep(db, call).0;
    assert forall k, i :: Live(after, k, i) == Live(db, k, i);
    forall u | u in after.units && after.units[u].status == ConsignedOut
      ensures exists k, i :: Live(after, k, i) && UnitOf(after, k, i) == u
    {
      var k, i :| Live(db, k, i) && UnitOf(db, k, i) == u;
      assert Live(after, k, i) && UnitOf(after, k, i) == u;
    }
  }

  // ---------------------------------------------------------------- every step, every run

  lemma ApplyKeepsInv(db: Db, call: Call)
    requires Inv(db)
    ensures Inv(Apply(db, call).0)
  {
    match call
    case Create(_, _, _, _, _, _) => CreateKeepsInv(db, call);
    case Guarded(me, id, r) => GuardedKeepsInv(db, me, id, r);
    case ReportPayment(_, _, _, _, _, _, _) => ReportKeepsInv(db, call);
    case ConfirmPayment(_, _, _) => ConfirmKeepsInv(db, call);
    case ForgiveDebt(_, _, _, _) => ForgiveKeepsInv(db, call);
    case MoveUnit(_, _) => UnitStepKeepsInv(db, call);
    case AddUnit(_, _) => UnitStepKeepsInv(db, call);
  }

  lemma {:induction false} RunKeepsInv(db: Db, calls: seq<Call>)
    requires Inv(db)
    ensures Inv(Run(db, calls))
  {
    if calls != [] {
      RunKeepsInv(db, calls[..|calls| - 1]);
      ApplyKeepsInv(Run(db, calls[..|calls| - 1]), calls[|calls| - 1]);
    }
  }

  lemma InitInv(db: Db)
    requires Init(db)
    ensures Inv(db)
  {
  }
}

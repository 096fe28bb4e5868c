/**
 * The service itself: each call updates the rows step by step, with its loops over units and lines.
 * A transaction works on local copies and is written back only if nothing in it throws.
 */
module ConsignmentService {
  import opened Prelude
  import opened ConsignmentLifecycle
  import opened UnitStates
  import opened ConsignmentModel

  /** Lines already treated are as in `after`, the others still as in `before`. */
  function Spliced(before: seq<Line>, after: seq<Line>, i: nat): seq<Line>
    requires i <= |before| == |after|
  {
    after[..i] + before[i..]
  }

  lemma SpliceStep(before: seq<Line>, after: seq<Line>, i: nat)
    requires i < |before| == |after|
    ensures Spliced(before, after, i)[i := after[i]] == Spliced(before, after, i + 1)
    ensures Spliced(before, after, i)[i] == before[i]
    ensures before[i] == after[i] ==> Spliced(before, after, i) == Spliced(before, after, i + 1)
  {
    assert Spliced(before, after, i)[i] == before[i];
  }

  lemma MoveOneMore(units: map<UnitId, Unit>, chosen: set<UnitId>, u: UnitId, to: UnitStatus)
    requires to != ConsignedOut
    ensures Move(Move(units, chosen, to), {u}, to) == Move(units, chosen + {u}, to)
  {
  }

  lemma UnitsAtStep(lines: seq<Line>, chosen: set<nat>, i: nat)
    requires i < |lines|
    ensures UnitsAt(lines[..i + 1], chosen)
         == if i in chosen then UnitsAt(lines[..i], chosen) + {lines[i].unit} else UnitsAt(lines[..i], chosen)
  {
  }

  lemma UnitsWithStep(lines: seq<Line>, status: LineStatus, i: nat)
    requires i < |lines|
    ensures UnitsWith(lines[..i + 1], status)
         == if lines[i].status == status then UnitsWith(lines[..i], status) + {lines[i].unit}
            else UnitsWith(lines[..i], status)
  {
  }

  lemma LiveUnitsStep(lines: seq<Line>, i: nat)
    requires i < |lines|
    ensures LiveUnits(lines[..i + 1])
         == if IsLive(lines[i]) then LiveUnits(lines[..i]) + {lines[i].unit} else LiveUnits(lines[..i])
  {
  }

  class ConsignmentsService {
    var deals: seq<Deal>
    var units: map<UnitId, Unit>

    ghost function Snapshot(): Db
      reads this
    {
      Db(deals, units)
    }

    constructor (units: map<UnitId, Unit>)
      requires forall u :: u in units ==> units[u].status != ConsignedOut
      ensures Init(Snapshot()) && this.units == units
    {
      deals := [];
      this.units := units;
    }

    method CreateConsignment(me: Company, branch: Branch, counterparty: Option<Counterparty>,
                             unitIds: seq<UnitId>, proposed: Cents, clientUuid: Option<nat>)
      returns (r: Outcome)
      modifies this
      ensures (Snapshot(), r)
           == ApplyCreate(old(Snapshot()), Create(me, branch, counterparty, unitIds, proposed, clientUuid))
    {
      if |unitIds| == 0 || |unitIds| > 50 {
        return Refused(BadRequest);
      }
      if clientUuid.Some? && exists k :: 0 <= k < |deals| && deals[k].c.source == me && deals[k].c.clientUuid == clientUuid {
        return Replayed;
      }
      if counterparty.None? {
        return Refused(NotFound);
      }
      if counterparty.value.connection == Some(Blocked) {
        return Refused(Conflict);
      }
      if counterparty.value.connectedStore && counterparty.value.connection != Some(Accepted) {
        return Refused(Conflict);
      }
      var tx, lines, i := units, [], 0;
      while i < |unitIds|
        invariant 0 <= i <= |unitIds| && |lines| == i
        invariant tx.Keys == units.Keys
        invariant forall u :: u in units ==> tx[u].identifier == units[u].identifier
        invariant ClaimUnits(units, me, branch, unitIds) == ClaimUnits(tx, me, branch, unitIds[i..])
        invariant forall j :: 0 <= j < i ==> unitIds[j] in units
        invariant forall j :: 0 <= j < i ==>
                    lines[j] == Line(unitIds[j], units[unitIds[j]].identifier, None, LineProposed)
      {
        var u := unitIds[i];
        assert unitIds[i..][0] == u && unitIds[i..][1..] == unitIds[i + 1..];
        if u !in tx || tx[u].company != me || tx[u].branch != branch {
          return Refused(NotFound);
        }
        if tx[u].status != InStock {
          return Refused(Conflict);
        }
        lines := lines + [Line(u, tx[u].identifier, None, LineProposed)];
        tx := tx[u := tx[u].(status := ConsignedOut)];
        i := i + 1;
      }
      assert lines == NewLines(units, unitIds);
      var c := Consignment(me, branch, counterparty.value.connectedCompany, Requested, proposed, None, None, 0, clientUuid);
      deals := deals + [Deal(c, lines, [])];
      units := tx;
      return Done;
    }

    /** releaseUnits: every live line lets its phone go and is cancelled. */
    method ReleaseUnits(before: seq<Line>) returns (lines: seq<Line>, tx: map<UnitId, Unit>)
      ensures lines == CancelLive(before) && tx == Move(units, LiveUnits(before), InStock)
    {
      lines, tx := before, units;
      assert LiveUnits(before[..0]) == {} && Move(units, {}, InStock) == units;
      for i := 0 to |before|
        invariant lines == Spliced(before, CancelLive(before), i)
        invariant tx == Move(units, LiveUnits(before[..i]), InStock)
      {
        SpliceStep(before, CancelLive(before), i);
        LiveUnitsStep(before, i);
        if IsLive(before[i]) {
          var u := before[i].unit;
          MoveOneMore(units, LiveUnits(before[..i]), u, InStock);
          tx := Move(tx, {u}, InStock);
          lines := lines[i := lines[i].(status := LineCancelled)];
        }
      }
      assert before[..|before|] == before;
    }

    method DecideConsignment(me: Company, id: nat, action: Action, amount: Option<Cents>, reasonGiven: bool,
                             expectedVersion: Option<nat>)
      returns (r: Outcome)
      modifies this
      ensures (Snapshot(), r)
           == ApplyGuarded(old(Snapshot()), me, id, Decide(action, amount, reasonGiven, expectedVersion))
    {
      if id >= |deals| || SideOf(deals[id].c, me).None? {
        return Refused(NotFound);
      }
      var c, side := deals[id].c, SideOf(deals[id].c, me).value;
      if action !in {Accept, Counter, Dispute, Reject, Cancel} {
        return Refused(BadRequest);
      }
      if action == Dispute && !reasonGiven {
        return Refused(BadRequest);
      }
      if action == Counter && !(amount.Some? && amount.value > 0) {
        return Refused(BadRequest);
      }
      var next := AssertTransition(action, c.status, side, LastProposalBy(c.status));
      if next.None? || (expectedVersion.Some? && expectedVersion.value != c.version) {
        return Refused(Conflict);
      }
      var agreed := if c.counter.Some? then c.counter.value else c.proposed;
      if action == Accept && agreed <= 0 {
        return Refused(BadRequest);
      }
      WriteDecision(id, next.value, action, amount, agreed);
      return Done;
    }

    /** The transaction of decide after its guard. */
    method WriteDecision(id: nat, next: Status, action: Action, amount: Option<Cents>, agreed: Cents)
      requires id < |deals|
      modifies this
      ensures var w := ConsignmentModel.WriteDecision(action, if action == Counter then amount else None,
                                                      if action == Accept then Some(agreed) else None);
              var d := old(deals[id]);
              && deals == old(deals)[id := Deal(WriteConsignment(d.c, next, w), WriteLines(d.lines, next, w), d.ledger)]
              && units == WriteUnits(old(units), d.lines, next, w)
    {
      var lines, tx := deals[id].lines, units;
      var row := deals[id].c.(status := next, version := deals[id].c.version + 1);
      if action == Counter {
        row := row.(counter := amount);
      }
      if action == Accept {
        row := row.(agreed := Some(agreed));
      }
      if next == Cancelled {
        lines, tx := ReleaseUnits(lines);
      } else if action == Accept {
        lines := AgreeProposed(lines, agreed);
      }
      deals := deals[id := deals[id].(c := row, lines := lines)];
      units := tx;
    }

    method CustodyStep(me: Company, id: nat, send: bool, scanned: seq<string>) returns (r: Outcome)
      modifies this
      ensures (Snapshot(), r) == ApplyGuarded(old(Snapshot()), me, id, Custody(send, scanned))
    {
      if id >= |deals| || SideOf(deals[id].c, me).None? {
        return Refused(NotFound);
      }
      var d, side := deals[id], SideOf(deals[id].c, me).value;
      var next := AssertTransition(if send then SendCustody else ConfirmCustody, d.c.status, side, None);
      if next.None? {
        return Refused(Conflict);
      }
      var lines := d.lines;
      if !send {
        if d.c.agreed.None? {
          return Refused(Conflict);
        }
        var sent := Sent(lines);
        if scanned != [] && |scanned| != |sent| {
          return Refused(BadRequest);
        }
        for i := 0 to |scanned|
          invariant forall j :: 0 <= j < i ==> ScanMatches(sent, scanned[j])
        {
          if !ScanMatches(sent, scanned[i]) {
            assert scanned[i] in scanned;
            return Refused(Conflict);
          }
        }
        lines := Restatus(lines, LineProposed, LineInCustody);
      }
      deals := deals[id := d.(c := d.c.(status := next.value, version := d.c.version + 1), lines := lines)];
      return Done;
    }

    method ReportSale(me: Company, id: nat, lineIds: seq<nat>) returns (r: Outcome)
      modifies this
      ensures (Snapshot(), r) == ApplyGuarded(old(Snapshot()), me, id, ReportSold(lineIds))
    {
      if id >= |deals| || SideOf(deals[id].c, me).None? {
        return Refused(NotFound);
      }
      var d, side := deals[id], SideOf(deals[id].c, me).value;
      if side != (if d.c.destination.Some? then Destination else Source) {
        return Refused(Forbidden);
      }
      var next := AssertTransition(ConsignmentLifecycle.ReportSale, d.c.status, side, None);
      if next.None? {
        return Refused(Conflict);
      }
      var before := d.lines;
      var chosen := ChosenLines(before, lineIds);
      if chosen == {} {
        return Refused(BadRequest);
      }
      var raised := SumAgreed(before, chosen);
      var lines, tx := MarkSold(before, chosen);
      var row := d.c.(status := next.value, version := d.c.version + 1);
      deals := deals[id := Deal(row, lines, d.ledger + [PlainEntry(ReceivableRaised, raised, me)])];
      units := tx;
      return Done;
    }

    /** The sum over the sold lines, taken before the transaction. */
    method SumAgreed(lines: seq<Line>, chosen: set<nat>) returns (raised: Cents)
      ensures raised == Raised(lines, chosen)
    {
      raised := 0;
      for i := 0 to |lines|
        invariant raised == Raised(lines[..i], chosen)
      {
        assert lines[..i + 1][..i] == lines[..i];
        if i in chosen {
          raised := raised + OrZero(lines[i].agreed);
        }
      }
      assert lines[..|lines|] == lines;
    }

    /** The loop over the sold lines. */
    method MarkSold(before: seq<Line>, chosen: set<nat>) returns (lines: seq<Line>, tx: map<UnitId, Unit>)
      ensures lines == SellLines(before, chosen)
      ensures tx == Move(units, UnitsAt(before, chosen), Sold)
    {
      lines, tx := before, units;
      assert UnitsAt(before[..0], chosen) == {} && Move(units, {}, Sold) == units;
      for i := 0 to |before|
        invariant lines == Spliced(before, SellLines(before, chosen), i)
        invariant tx == Move(units, UnitsAt(before[..i], chosen), Sold)
      {
        SpliceStep(before, SellLines(before, chosen), i);
        UnitsAtStep(before, chosen, i);
        if i in chosen {
          var u := before[i].unit;
          MoveOneMore(units, UnitsAt(before[..i], chosen), u, Sold);
          lines := lines[i := lines[i].(status := LineSold)];
          tx := Move(tx, {u}, Sold);
        }
      }
      assert before[..|before|] == before;
    }

    method Return(me: Company, id: nat, step: ReturnStep, condition: Option<Condition>) returns (r: Outcome)
      modifies this
      ensures (Snapshot(), r) == ApplyGuarded(old(Snapshot()), me, id, ReturnFlow(step, condition))
    {
      if id >= |deals| || SideOf(deals[id].c, me).None? {
        return Refused(NotFound);
      }
      var d, side := deals[id], SideOf(deals[id].c, me).value;
      var next := AssertTransition(ReturnAction(step), d.c.status, side, None);
      if next.None? {
        return Refused(Conflict);
      }
      if step == ConfirmReceipt && condition.None? {
        return Refused(BadRequest);
      }
      var lines, tx := d.lines, units;
      if step == ConfirmReceipt {
        lines, tx := TakeBack(d.lines, if condition == Some(Damaged) then Faulty else InStock);
      }
      deals := deals[id := d.(c := d.c.(status := next.value, version := d.c.version + 1), lines := lines)];
      units := tx;
      return Done;
    }

    /** The loop of a confirmed return over the lines still in custody. */
    method TakeBack(before: seq<Line>, to: UnitStatus) returns (lines: seq<Line>, tx: map<UnitId, Unit>)
      requires to != ConsignedOut
      ensures lines == Restatus(before, LineInCustody, LineReturned)
      ensures tx == Move(units, UnitsWith(before, LineInCustody), to)
    {
      lines, tx := before, units;
      assert UnitsWith(before[..0], LineInCustody) == {} && Move(units, {}, to) == units;
      for i := 0 to |before|
        invariant lines == Spliced(before, Restatus(before, LineInCustody, LineReturned), i)
        invariant tx == Move(units, UnitsWith(before[..i], LineInCustody), to)
      {
        SpliceStep(before, Restatus(before, LineInCustody, LineReturned), i);
        UnitsWithStep(before, LineInCustody, i);
        if before[i].status == LineInCustody {
          var u := before[i].unit;
          MoveOneMore(units, UnitsWith(before[..i], LineInCustody), u, to);
          lines := lines[i := lines[i].(status := LineReturned)];
          tx := Move(tx, {u}, to);
        }
      }
      assert before[..|before|] == before;
    }

    /** settleIfClear: reads the balance again and moves the status, never the version. */
    method SettleWhenClear(id: nat, closing: Status)
      requires id < |deals|
      modifies this`deals
      ensures deals == old(deals)[id := SettleIfClear(old(deals[id]), closing)]
    {
      var d := deals[id];
      if Outstanding(d.ledger) > 0 {
        if d.c.status == SoldAwaitingSettlement {
          deals := deals[id := d.(c := d.c.(status := PartiallyPaid))];
        }
        return;
      }
      if d.c.status == SoldAwaitingSettlement || d.c.status == PartiallyPaid {
        deals := deals[id := d.(c := d.c.(status := closing))];
      }
    }

    method Report(me: Company, id: nat, amount: Option<Cents>, via: Option<Method>, account: Option<nat>,
                  reference: string, clientUuid: Option<nat>)
      returns (r: Outcome)
      modifies this`deals
      ensures (Snapshot(), r)
           == ApplyReport(old(Snapshot()), ReportPayment(me, id, amount, via, account, reference, clientUuid))
    {
      if id >= |deals| || SideOf(deals[id].c, me).None? {
        return Refused(NotFound);
      }
      var owed := Outstanding(deals[id].ledger);
      var hash := Fingerprint(id, OrZero(amount), OrCash(via), account, reference);
      if clientUuid.Some? && WasReportedAs(Db(deals, units), me, clientUuid.value) {
        if WasReportedDifferently(Db(deals, units), me, clientUuid.value, hash) {
          return Refused(Conflict);
        }
        return Replayed;
      }
      if !PaymentAllowed(OrZero(amount), OrCash(via), account, owed) {
        return Refused(BadRequest);
      }
      var entry := Entry(PaymentReported, OrZero(amount), via, account, reference, None, me, clientUuid,
                         if clientUuid.Some? then Some(hash) else None);
      deals := deals[id := deals[id].(ledger := deals[id].ledger + [entry])];
      return Done;
    }

    method Confirm(me: Company, id: nat, entry: nat) returns (r: Outcome)
      modifies this`deals
      ensures (Snapshot(), r) == ApplyConfirm(old(Snapshot()), ConfirmPayment(me, id, entry))
    {
      if id >= |deals| || SideOf(deals[id].c, me).None? {
        return Refused(NotFound);
      }
      var d := deals[id];
      var owed := Outstanding(d.ledger);
      if SideOf(d.c, me) != Some(Source) {
        return Refused(Forbidden);
      }
      if entry >= |d.ledger| || d.ledger[entry].kind != PaymentReported {
        return Refused(NotFound);
      }
      if WasConfirmed(d.ledger, entry) {
        return Refused(Conflict);
      }
      var reported := d.ledger[entry];
      if !PaymentAllowed(reported.amount, OrCash(reported.via), reported.account, owed) {
        return Refused(Conflict);
      }
      deals := deals[id := d.(ledger := d.ledger + [ConfirmationOf(reported, entry, me)])];
      ghost var paid := deals[id];
      SettleWhenClear(id, Settled);
      assert deals == old(deals)[id := SettleIfClear(paid, Settled)];
      return Done;
    }

    method WriteOff(me: Company, id: nat, debt: Cents, reasonGiven: bool) returns (r: Outcome)
      modifies this`deals
      ensures (Snapshot(), r) == ApplyForgive(old(Snapshot()), ForgiveDebt(me, id, debt, reasonGiven))
    {
      if id >= |deals| || SideOf(deals[id].c, me).None? {
        return Refused(NotFound);
      }
      var d := deals[id];
      if SideOf(d.c, me) != Some(Source) {
        return Refused(Forbidden);
      }
      if !ForgivenessAllowed(debt, reasonGiven, Outstanding(d.ledger)) {
        return Refused(BadRequest);
      }
      deals := deals[id := d.(ledger := d.ledger + [PlainEntry(Forgiven, debt, me)])];
      ghost var waived := deals[id];
      SettleWhenClear(id, ForgivenSettled);
      assert deals == old(deals)[id := SettleIfClear(waived, ForgivenSettled)];
      return Done;
    }
  }
}

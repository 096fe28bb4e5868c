/**
 * Runs from an empty consignment table in which the protocol does what its documentation does not say: company 1
 * consigns phones to company 2, or to a counterparty without a company.
 */
module ConsignmentExamples {
  import opened Prelude
  import opened ConsignmentLifecycle
  import opened UnitStates
  import opened ConsignmentModel
  import opened ConsignmentInvariant
  import opened ConsignmentRuns
  import opened ConsignmentOffers

  function Phone(identifier: string, status: UnitStatus): Unit {
    Unit(1, 0, identifier, status)
  }

  /** Two phones of company 1, in stock. */
  function Start(): Db {
    Db([], map[0 := Phone("A", InStock), 1 := Phone("B", InStock)])
  }

  function Offer(destination: Option<Company>): Call {
    Create(1, 0, Some(Counterparty(destination.Some?, if destination.Some? then Some(Accepted) else None, destination)),
           [0, 1], 500, None)
  }

  function Deal0(destination: Option<Company>, status: Status, counter: Option<Cents>, agreed: Option<Cents>, version: nat): Consignment {
    Consignment(1, 0, destination, status, 500, counter, agreed, version, None)
  }

  function Lines(agreed: Option<Cents>, first: LineStatus, second: LineStatus): seq<Line> {
    [Line(0, "A", agreed, first), Line(1, "B", agreed, second)]
  }

  function Out(first: UnitStatus, second: UnitStatus): map<UnitId, Unit> {
    map[0 := Phone("A", first), 1 := Phone("B", second)]
  }

  /** The database with the one deal. */
  function World(c: Consignment, lines: seq<Line>): Db {
    Db([Deal(c, lines, [])], Out(ConsignedOut, ConsignedOut))
  }

  lemma Created(destination: Option<Company>)
    ensures Apply(Start(), Offer(destination)).0
         == World(Deal0(destination, Requested, None, None, 0), Lines(None, LineProposed, LineProposed))
  {
    var units := Start().units;
    var one := units[0 := Phone("A", ConsignedOut)];
    assert [0, 1][1..] == [1] && [1][1..] == [];
    assert ClaimUnits(one, 1, 0, [1]) == Claimed(one[1 := Phone("B", ConsignedOut)]) by {
      assert ClaimUnits(one[1 := Phone("B", ConsignedOut)], 1, 0, []) == Claimed(one[1 := Phone("B", ConsignedOut)]);
    }
    assert one[1 := Phone("B", ConsignedOut)] == Out(ConsignedOut, ConsignedOut);
    assert ClaimUnits(units, 1, 0, [0, 1]) == Claimed(Out(ConsignedOut, ConsignedOut));
    assert NewLines(units, [0, 1]) == Lines(None, LineProposed, LineProposed);
  }

  /** One guarded call on the one deal, spelled out. */
  lemma Step(c: Consignment, lines: seq<Line>, me: Company, r: Request)
    requires Prepare(me, c, lines, r).Go? && !r.ReportSold?
    ensures var p := Prepare(me, c, lines, r);
            Apply(World(c, lines), Guarded(me, 0, r)).0
            == Db([Deal(WriteConsignment(c, p.next, p.write), WriteLines(lines, p.next, p.write), [])],
                  WriteUnits(Out(ConsignedOut, ConsignedOut), lines, p.next, p.write))
  {
  }

  lemma Agreed(lines: seq<Line>, agreed: Cents)
    requires lines == Lines(None, LineProposed, LineProposed)
    ensures AgreeProposed(lines, agreed) == Lines(Some(agreed), LineProposed, LineProposed)
  {
  }

  function Fresh(): seq<Line> {
    Lines(None, LineProposed, LineProposed)
  }

  lemma Countered(me: Company, status: Status, counter: Option<Cents>, version: nat, amount: Cents)
    requires amount > 0 && ((me == 2 && status == Requested) || (me == 1 && status == CounterProposed))
    ensures Apply(World(Deal0(Some(2), status, counter, None, version), Fresh()),
                  Guarded(me, 0, Decide(Counter, Some(amount), false, None))).0
         == World(Deal0(Some(2), CounterProposed, Some(amount), None, version + 1), Fresh())
  {
    Step(Deal0(Some(2), status, counter, None, version), Fresh(), me, Decide(Counter, Some(amount), false, None));
  }

  lemma DisputedByOne()
    ensures Apply(World(Deal0(None, Requested, None, None, 0), Fresh()), Guarded(1, 0, Decide(Dispute, None, true, None))).0
         == World(Deal0(None, Disputed, None, None, 1), Fresh())
  {
    Step(Deal0(None, Requested, None, None, 0), Fresh(), 1, Decide(Dispute, None, true, None));
  }

  lemma AcceptedByOne(destination: Option<Company>, status: Status, counter: Option<Cents>, version: nat)
    requires status == CounterProposed || status == Disputed
    requires counter.Some? ==> counter.value > 0
    ensures var offer := if counter.Some? then counter.value else 500;
            Apply(World(Deal0(destination, status, counter, None, version), Fresh()),
                  Guarded(1, 0, Decide(Accept, None, false, None))).0
            == World(Deal0(destination, AcceptedAwaitingCustody, counter, Some(offer), version + 1),
                     Lines(Some(offer), LineProposed, LineProposed))
  {
    Step(Deal0(destination, status, counter, None, version), Fresh(), 1, Decide(Accept, None, false, None));
    Agreed(Fresh(), if counter.Some? then counter.value else 500);
  }

  lemma SentByOne(destination: Option<Company>, version: nat)
    ensures var lines := Lines(Some(500), LineProposed, LineProposed);
            Apply(World(Deal0(destination, AcceptedAwaitingCustody, None, Some(500), version), lines),
                  Guarded(1, 0, Custody(true, []))).0
            == World(Deal0(destination, CustodyAwaitingConfirmation, None, Some(500), version + 1), lines)
  {
    Step(Deal0(destination, AcceptedAwaitingCustody, None, Some(500), version), Lines(Some(500), LineProposed, LineProposed), 1,
         Custody(true, []));
  }

  // ---------------------------------------------------------------- a side accepts its own offer

  /** Offer, counter-offer by the destination, counter-offer by the source, which then accepts it. */
  lemma SourceAcceptsItsOwnOffer()
    ensures var calls := [Offer(Some(2)), Guarded(2, 0, Decide(Counter, Some(300), false, None)),
                          Guarded(1, 0, Decide(Counter, Some(900), false, None)),
                          Guarded(1, 0, Decide(Accept, None, false, None))];
            Run(Start(), calls)
            == World(Deal0(Some(2), AcceptedAwaitingCustody, Some(900), Some(900), 3), Lines(Some(900), LineProposed, LineProposed))
  {
    RunOfFour(Start(), Offer(Some(2)), Guarded(2, 0, Decide(Counter, Some(300), false, None)),
              Guarded(1, 0, Decide(Counter, Some(900), false, None)), Guarded(1, 0, Decide(Accept, None, false, None)));
    Created(Some(2));
    Countered(2, Requested, None, 0, 300);
    Countered(1, CounterProposed, Some(300), 1, 900);
    AcceptedByOne(Some(2), CounterProposed, Some(900), 2);
  }

  /** At the same point the destination, whose turn it is, is refused. */
  lemma DestinationCannotAnswer(r: Request)
    requires r.Decide? && (r.action == Accept || r.action == Counter)
    ensures var calls := [Offer(Some(2)), Guarded(2, 0, Decide(Counter, Some(300), false, None)),
                          Guarded(1, 0, Decide(Counter, Some(900), false, None)), Guarded(2, 0, r)];
            Run(Start(), calls) == World(Deal0(Some(2), CounterProposed, Some(900), None, 2), Fresh())
  {
    var db := World(Deal0(Some(2), CounterProposed, Some(900), None, 2), Fresh());
    RunOfFour(Start(), Offer(Some(2)), Guarded(2, 0, Decide(Counter, Some(300), false, None)),
              Guarded(1, 0, Decide(Counter, Some(900), false, None)), Guarded(2, 0, r));
    Created(Some(2));
    Countered(2, Requested, None, 0, 300);
    Countered(1, CounterProposed, Some(300), 1, 900);
    CounterIsNotAnswered(db, 0, 2, r);
  }

  // ---------------------------------------------------------------- phones given to nobody

  /** A counterparty without a company: the source disputes, accepts its own offer and hands the phones over. */
  lemma PhonesGivenToNobody()
    ensures var calls := [Offer(None), Guarded(1, 0, Decide(Dispute, None, true, None)),
                          Guarded(1, 0, Decide(Accept, None, false, None)), Guarded(1, 0, Custody(true, []))];
            Run(Start(), calls)
            == World(Deal0(None, CustodyAwaitingConfirmation, None, Some(500), 3), Lines(Some(500), LineProposed, LineProposed))
  {
    RunOfFour(Start(), Offer(None), Guarded(1, 0, Decide(Dispute, None, true, None)),
              Guarded(1, 0, Decide(Accept, None, false, None)), Guarded(1, 0, Custody(true, [])));
    Created(None);
    DisputedByOne();
    AcceptedByOne(None, Disputed, None, 1);
    SentByOne(None, 2);
  }

  /** And there they stay, whatever follows. */
  lemma NobodyKeepsThePhones(more: seq<Call>)
    ensures var db := Run(World(Deal0(None, CustodyAwaitingConfirmation, None, Some(500), 3),
                                Lines(Some(500), LineProposed, LineProposed)), more);
            && 0 in db.units && db.units[0].status == ConsignedOut
            && 1 in db.units && db.units[1].status == ConsignedOut
  {
    PhonesGivenToNobody();
    var calls := [Offer(None), Guarded(1, 0, Decide(Dispute, None, true, None)),
                  Guarded(1, 0, Decide(Accept, None, false, None)), Guarded(1, 0, Custody(true, []))];
    InitInv(Start());
    RunKeepsInv(Start(), calls);
    HandedOverForGood(Run(Start(), calls), more, 0);
    NamesOfLines();
  }

  lemma NamesOfLines()
    ensures var lines := Lines(Some(500), LineProposed, LineProposed);
            |lines| == 2 && lines[0].unit == 0 && lines[1].unit == 1
  {
  }

  // ---------------------------------------------------------------- two phones sold

  function Sale(lineIds: seq<nat>): seq<Call> {
    [Offer(Some(2)), Guarded(2, 0, Decide(Accept, None, false, None)), Guarded(1, 0, Custody(true, [])),
     Guarded(2, 0, Custody(false, [])), Guarded(2, 0, ReportSold(lineIds))]
  }

  function InHand(): Db {
    World(Deal0(Some(2), InCustody, None, Some(500), 3), Lines(Some(500), LineInCustody, LineInCustody))
  }

  lemma AcceptedByTwo()
    ensures Apply(World(Deal0(Some(2), Requested, None, None, 0), Lines(None, LineProposed, LineProposed)),
                  Guarded(2, 0, Decide(Accept, None, false, None))).0
         == World(Deal0(Some(2), AcceptedAwaitingCustody, None, Some(500), 1), Lines(Some(500), LineProposed, LineProposed))
  {
    var lines := Lines(None, LineProposed, LineProposed);
    Step(Deal0(Some(2), Requested, None, None, 0), lines, 2, Decide(Accept, None, false, None));
    Agreed(lines, 500);
  }

  lemma ReceivedByTwo()
    ensures var lines := Lines(Some(500), LineProposed, LineProposed);
            Apply(World(Deal0(Some(2), CustodyAwaitingConfirmation, None, Some(500), 2), lines), Guarded(2, 0, Custody(false, []))).0
            == InHand()
  {
    var lines := Lines(Some(500), LineProposed, LineProposed);
    Step(Deal0(Some(2), CustodyAwaitingConfirmation, None, Some(500), 2), lines, 2, Custody(false, []));
    assert Restatus(lines, LineProposed, LineInCustody) == Lines(Some(500), LineInCustody, LineInCustody);
  }

  lemma PhonesInHand()
    ensures Run(Start(), Sale([])[..4]) == InHand()
  {
    var calls := Sale([]);
    assert calls[..4] == [calls[0], calls[1], calls[2], calls[3]];
    RunOfFour(Start(), calls[0], calls[1], calls[2], calls[3]);
    Created(Some(2));
    AcceptedByTwo();
    SentByOne(Some(2), 1);
    ReceivedByTwo();
  }

  /** The database a sale of these lines leaves. */
  function AfterSale(chosen: set<nat>, raised: Cents): Db {
    var lines := Lines(Some(500), LineInCustody, LineInCustody);
    Db([Deal(Deal0(Some(2), SoldAwaitingSettlement, None, Some(500), 4), SellLines(lines, chosen),
             [] + [PlainEntry(ReceivableRaised, raised, 2)])],
       Move(Out(ConsignedOut, ConsignedOut), UnitsAt(lines, chosen), UnitStatus.Sold))
  }

  lemma SalePrepared(lineIds: seq<nat>, chosen: set<nat>)
    requires chosen == ChosenLines(Lines(Some(500), LineInCustody, LineInCustody), lineIds) && chosen != {}
    ensures var lines := Lines(Some(500), LineInCustody, LineInCustody);
            Prepare(2, Deal0(Some(2), InCustody, None, Some(500), 3), lines, ReportSold(lineIds))
            == Go(SoldAwaitingSettlement, WriteSale(chosen, Raised(lines, chosen)))
  {
  }

  lemma SaleStep(lineIds: seq<nat>, chosen: set<nat>)
    requires chosen == ChosenLines(Lines(Some(500), LineInCustody, LineInCustody), lineIds) && chosen != {}
    ensures Apply(InHand(), Guarded(2, 0, ReportSold(lineIds))).0
         == AfterSale(chosen, Raised(Lines(Some(500), LineInCustody, LineInCustody), chosen))
  {
    SalePrepared(lineIds, chosen);
  }

  lemma Sold(lineIds: seq<nat>, chosen: set<nat>, raised: Cents)
    requires chosen == ChosenLines(Lines(Some(500), LineInCustody, LineInCustody), lineIds) && chosen != {}
    requires raised == Raised(Lines(Some(500), LineInCustody, LineInCustody), chosen)
    ensures Run(Start(), Sale(lineIds)) == AfterSale(chosen, raised)
  {
    PhonesInHand();
    SaleStep(lineIds, chosen);
    assert Sale(lineIds) == Sale([])[..4] + [Guarded(2, 0, ReportSold(lineIds))];
    RunAppend(Start(), Sale([])[..4], Guarded(2, 0, ReportSold(lineIds)));
  }

  lemma RaisedOfTwo(chosen: set<nat>)
    ensures var lines := Lines(Some(500), LineInCustody, LineInCustody);
            Raised(lines, chosen) == (if 0 in chosen then 500 else 0) + if 1 in chosen then 500 else 0
  {
    var lines := Lines(Some(500), LineInCustody, LineInCustody);
    assert lines[..1] == [lines[0]] && lines[..1][..0] == [];
    assert Raised(lines[..1], chosen) == if 0 in chosen then 500 else 0;
  }

  /** Two phones agreed at 500 and both sold: 1000 is owed. */
  lemma TwoPhonesOweTwiceTheAgreement()
    ensures var d := Run(Start(), Sale([])).deals;
            |d| == 1 && d[0].c.agreed == Some(500) && Outstanding(d[0].ledger) == 1000
  {
    var lines := Lines(Some(500), LineInCustody, LineInCustody);
    assert ChosenLines(lines, []) == {0, 1};
    RaisedOfTwo({0, 1});
    Sold([], {0, 1}, 1000);
    OutstandingAppend([], PlainEntry(ReceivableRaised, 1000, 2));
  }

  /** The same two phones and only the first sold: the second stays out whatever follows. */
  lemma SecondPhoneStaysOut(more: seq<Call>)
    ensures var db := Run(Run(Start(), Sale([0])), more);
            1 in db.units && db.units[1].status == ConsignedOut
  {
    var lines := Lines(Some(500), LineInCustody, LineInCustody);
    assert ChosenLines(lines, [0]) == {0};
    RaisedOfTwo({0});
    Sold([0], {0}, 500);
    var db := Run(Start(), Sale([0]));
    assert SellLines(lines, {0}) == Lines(Some(500), LineSold, LineInCustody);
    assert Init(Start());
    InitInv(Start());
    RunKeepsInv(Start(), Sale([0]));
    UnsoldPhonesStayOut(db, more, 0, 1);
  }
}

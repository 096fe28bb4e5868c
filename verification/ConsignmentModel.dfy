/**
 * The consignment protocol as functions over a snapshot of its tables: what each call of
 * src/consignment/consignments.service.ts does to consignments, lines, units and ledger.
 * A fresh key is the next position: deals, lines and ledger rows are never deleted.
 */
module ConsignmentModel {
  import opened Prelude
  import opened ConsignmentLifecycle
  import opened UnitStates
  import opened Strings

  type Company = nat
  type Branch = nat
  type UnitId = nat
  type Cents = int

  datatype Unit = Unit(company: Company, branch: Branch, identifier: string, status: UnitStatus)

  datatype LineStatus = LineProposed | LineInCustody | LineSold | LineReturned | LineCancelled

  datatype Line = Line(unit: UnitId, identifier: string, agreed: Option<Cents>, status: LineStatus)

  datatype LedgerKind =
    | ReceivableRaised
    | PaymentReported
    | PaymentConfirmed
    | PaymentCorrected
    | Forgiven
    | LedgerSettled

  datatype Method = Cash | Account

  /** The payload behind the SHA-256 request hash; the hash is taken to be injective. */
  datatype Fingerprint =
    Fingerprint(deal: nat, amount: Cents, via: Method, account: Option<nat>, reference: string)

  datatype Entry = Entry(
    kind: LedgerKind,
    amount: Cents,
    via: Option<Method>,
    account: Option<nat>,
    reference: string,
    refersTo: Option<nat>,
    acting: Company,
    clientUuid: Option<nat>,
    requestHash: Option<Fingerprint>)

  datatype Consignment = Consignment(
    source: Company,
    branch: Branch,
    destination: Option<Company>,
    status: Status,
    proposed: Cents,
    counter: Option<Cents>,
    agreed: Option<Cents>,
    version: nat,
    clientUuid: Option<nat>)

  /** A consignment row with the line rows and ledger rows that reference it. */
  datatype Deal = Deal(c: Consignment, lines: seq<Line>, ledger: seq<Entry>)

  datatype Db = Db(deals: seq<Deal>, units: map<UnitId, Unit>)

  datatype ConnectionStatus = Accepted | Blocked | OtherConnection

  datatype Counterparty =
    Counterparty(connectedStore: bool, connection: Option<ConnectionStatus>, connectedCompany: Option<Company>)

  datatype ReturnStep = Initiate | Ship | ConfirmReceipt

  datatype Condition = Good | Damaged

  /** The calls that read a consignment and later write it under a version and status guard. */
  datatype Request =
    | Decide(action: Action, amount: Option<Cents>, reasonGiven: bool, expectedVersion: Option<nat>)
    | Custody(send: bool, scanned: seq<string>)
    | ReportSold(lineIds: seq<nat>)
    | ReturnFlow(step: ReturnStep, condition: Option<Condition>)

  datatype Call =
    | Create(me: Company, branch: Branch, counterparty: Option<Counterparty>, unitIds: seq<UnitId>,
             proposed: Cents, clientUuid: Option<nat>)
    | Guarded(me: Company, id: nat, request: Request)
    | ReportPayment(me: Company, id: nat, amount: Option<Cents>, via: Option<Method>,
                    account: Option<nat>, reference: string, clientUuid: Option<nat>)
    | ConfirmPayment(me: Company, id: nat, entry: nat)
    | ForgiveDebt(me: Company, id: nat, debt: Cents, reasonGiven: bool)
    | MoveUnit(unit: UnitId, to: UnitStatus) // another module takes an edge that avoids consigned_out
    | AddUnit(unit: UnitId, row: Unit) // another module books a unit in

  // ---------------------------------------------------------------- sides (consignment-scope.ts)

  function SideOf(c: Consignment, me: Company): Option<Side> {
    if c.source == me then Some(Source)
    else if c.destination == Some(me) then Some(Destination)
    else None
  }

  // ---------------------------------------------------------------- money (consignment-money.ts)

  function BalanceEffect(kind: LedgerKind): int {
    match kind
    case ReceivableRaised => 1
    case PaymentReported => 0
    case PaymentConfirmed => -1
    case PaymentCorrected => 1
    case Forgiven => -1
    case LedgerSettled => 0
  }

  /** The row's effect times its amount, spelled out so that no product is needed. */
  function Signed(e: Entry): Cents {
    var effect := BalanceEffect(e.kind);
    if effect == 1 then e.amount else if effect == -1 then -e.amount else 0
  }

  function Outstanding(rows: seq<Entry>): Cents {
    if rows == [] then 0 else Outstanding(rows[..|rows| - 1]) + Signed(rows[|rows| - 1])
  }

  predicate PaymentAllowed(amount: Cents, via: Method, account: Option<nat>, owed: Cents) {
    && 0 < amount <= owed
    && (via == Account ==> account.Some?)
    && (via == Cash ==> account.None?)
  }

  predicate ForgivenessAllowed(amount: Cents, reasonGiven: bool, owed: Cents) {
    reasonGiven && 0 < amount <= owed
  }

  // ---------------------------------------------------------------- unit and line writes

  /** `updateMany where id in chosen and status = consigned_out`. */
  function Move(units: map<UnitId, Unit>, chosen: set<UnitId>, to: UnitStatus): map<UnitId, Unit> {
    map u | u in units ::
      if u in chosen && units[u].status == ConsignedOut then units[u].(status := to) else units[u]
  }

  predicate IsLive(line: Line) {
    line.status == LineProposed || line.status == LineInCustody
  }

  function LiveUnits(lines: seq<Line>): set<UnitId> {
    set i | 0 <= i < |lines| && IsLive(lines[i]) :: lines[i].unit
  }

  /** Every line in status `from` goes to status `to`. */
  function Restatus(lines: seq<Line>, from: LineStatus, to: LineStatus): seq<Line> {
    seq(|lines|, i requires 0 <= i < |lines| =>
      if lines[i].status == from then lines[i].(status := to) else lines[i])
  }

  function CancelLive(lines: seq<Line>): seq<Line> {
    seq(|lines|, i requires 0 <= i < |lines| =>
      if IsLive(lines[i]) then lines[i].(status := LineCancelled) else lines[i])
  }

  function AgreeProposed(lines: seq<Line>, agreed: Cents): seq<Line> {
    seq(|lines|, i requires 0 <= i < |lines| =>
      if lines[i].status == LineProposed then lines[i].(agreed := Some(agreed)) else lines[i])
  }

  function SellLines(lines: seq<Line>, chosen: set<nat>): seq<Line> {
    seq(|lines|, i requires 0 <= i < |lines| =>
      if i in chosen then lines[i].(status := LineSold) else lines[i])
  }

  function UnitsAt(lines: seq<Line>, chosen: set<nat>): set<UnitId> {
    set i | i in chosen && i < |lines| :: lines[i].unit
  }

  function UnitsWith(lines: seq<Line>, status: LineStatus): set<UnitId> {
    set i | 0 <= i < |lines| && lines[i].status == status :: lines[i].unit
  }

  // ---------------------------------------------------------------- create

  datatype Claim = Claimed(units: map<UnitId, Unit>) | Lost(why: Refusal)

  /** The compare-and-swap loop of create, one unit at a time. */
  function ClaimUnits(units: map<UnitId, Unit>, me: Company, branch: Branch, ids: seq<UnitId>): Claim {
    if ids == [] then Claimed(units)
    else if ids[0] !in units || units[ids[0]].company != me || units[ids[0]].branch != branch then Lost(NotFound)
    else if units[ids[0]].status != InStock then Lost(Conflict)
    else ClaimUnits(units[ids[0] := units[ids[0]].(status := ConsignedOut)], me, branch, ids[1..])
  }

  function NewLines(units: map<UnitId, Unit>, ids: seq<UnitId>): seq<Line>
    requires forall i :: 0 <= i < |ids| ==> ids[i] in units
  {
    seq(|ids|, i requires 0 <= i < |ids| => Line(ids[i], units[ids[i]].identifier, None, LineProposed))
  }

  predicate IsCreateReplay(db: Db, me: Company, clientUuid: Option<nat>) {
    && clientUuid.Some?
    && exists k :: 0 <= k < |db.deals| && db.deals[k].c.source == me && db.deals[k].c.clientUuid == clientUuid
  }

  lemma ClaimedUnitsExist(units: map<UnitId, Unit>, me: Company, branch: Branch, ids: seq<UnitId>)
    requires ClaimUnits(units, me, branch, ids).Claimed?
    ensures ClaimUnits(units, me, branch, ids).units.Keys == units.Keys
    ensures forall i :: 0 <= i < |ids| ==> ids[i] in units
  {
    if ids != [] {
      ClaimedUnitsExist(units[ids[0] := units[ids[0]].(status := ConsignedOut)], me, branch, ids[1..]);
    }
  }

  function ApplyCreate(db: Db, call: Call): (Db, Outcome)
    requires call.Create?
  {
    if |call.unitIds| == 0 || |call.unitIds| > 50 then (db, Refused(BadRequest))
    else if IsCreateReplay(db, call.me, call.clientUuid) then (db, Replayed)
    else if call.counterparty.None? then (db, Refused(NotFound))
    else if call.counterparty.value.connection == Some(Blocked) then (db, Refused(Conflict))
    else if call.counterparty.value.connectedStore && call.counterparty.value.connection != Some(Accepted) then
      (db, Refused(Conflict))
    else
      match ClaimUnits(db.units, call.me, call.branch, call.unitIds)
      case Lost(why) => (db, Refused(why))
      case Claimed(units) =>
        ClaimedUnitsExist(db.units, call.me, call.branch, call.unitIds);
        var c := Consignment(call.me, call.branch, call.counterparty.value.connectedCompany, Requested,
                             call.proposed, None, None, 0, call.clientUuid);
        (Db(db.deals + [Deal(c, NewLines(db.units, call.unitIds), [])], units), Done)
  }

  // ---------------------------------------------------------------- decide, custody, reportSold, returnFlow

  /** What the guarded transaction will write, decided from the rows read before it. */
  datatype Write =
    | WriteDecision(action: Action, counter: Option<Cents>, agreed: Option<Cents>)
    | WriteCustody(send: bool)
    | WriteSale(chosen: set<nat>, raised: Cents)
    | WriteReturn(confirm: bool, damaged: bool)

  datatype Prepared = Go(next: Status, write: Write) | Stop(why: Refusal)

  function OfferOnTable(c: Consignment): Cents {
    if c.counter.Some? then c.counter.value else c.proposed
  }

  function PrepareDecide(c: Consignment, side: Side, r: Request): Prepared
    requires r.Decide?
  {
    if r.action !in {Accept, Counter, Dispute, Reject, Cancel} then Stop(BadRequest)
    else if r.action == Dispute && !r.reasonGiven then Stop(BadRequest)
    else if r.action == Counter && !(r.amount.Some? && r.amount.value > 0) then Stop(BadRequest)
    else
      match AssertTransition(r.action, c.status, side, LastProposalBy(c.status))
      case None => Stop(Conflict)
      case Some(next) =>
        if r.expectedVersion.Some? && r.expectedVersion.value != c.version then Stop(Conflict)
        else if r.action == Accept && OfferOnTable(c) <= 0 then Stop(BadRequest)
        else Go(next, WriteDecision(r.action,
                                    if r.action == Counter then r.amount else None,
                                    if r.action == Accept then Some(OfferOnTable(c)) else None))
  }

  /** How many lines are in the given status. */
  function CountWith(lines: seq<Line>, status: LineStatus): nat {
    if lines == [] then 0
    else CountWith(lines[..|lines| - 1], status) + if lines[|lines| - 1].status == status then 1 else 0
  }

  function PrepareCustody(c: Consignment, lines: seq<Line>, side: Side, r: Request): Prepared
    requires r.Custody?
  {
    match AssertTransition(if r.send then SendCustody else ConfirmCustody, c.status, side, None)
    case None => Stop(Conflict)
    case Some(next) =>
      if !r.send && c.agreed.None? then Stop(Conflict)
      else if !r.send && r.scanned != [] && |r.scanned| != |Sent(lines)| then Stop(BadRequest)
      else if !r.send && exists s :: s in r.scanned && !ScanMatches(Sent(lines), s) then Stop(Conflict)
      else Go(next, WriteCustody(r.send))
  }

  /** The identifiers handed over, in line order. */
  function Sent(lines: seq<Line>): seq<string> {
    if lines == [] then []
    else
      var line := lines[|lines| - 1];
      if line.status == LineProposed then Sent(lines[..|lines| - 1]) + [line.identifier] else Sent(lines[..|lines| - 1])
  }

  function FirstMatch(sent: seq<string>, folded: string): Option<string> {
    if sent == [] then None else if Fold(sent[0]) == folded then Some(sent[0]) else FirstMatch(sent[1..], folded)
  }

  /** An empty identifier that matches reads as no match, and the scan is then held against the first one sent. */
  predicate ScanMatches(sent: seq<string>, scanned: string) {
    var found := FirstMatch(sent, Fold(scanned));
    || (found.Some? && found.value != "")
    || Fold(if sent == [] then "(none)" else sent[0]) == Fold(scanned)
  }

  function ChosenLines(lines: seq<Line>, lineIds: seq<nat>): set<nat> {
    set i | 0 <= i < |lines| && lines[i].status == LineInCustody && (lineIds == [] || i in lineIds)
  }

  /** Sum of the agreed amounts of the chosen lines. */
  function Raised(lines: seq<Line>, chosen: set<nat>): Cents {
    if lines == [] then 0
    else
      var last := |lines| - 1;
      Raised(lines[..last], chosen)
      + if last in chosen && lines[last].agreed.Some? then lines[last].agreed.value else 0
  }

  function PrepareSale(c: Consignment, lines: seq<Line>, side: Side, r: Request): Prepared
    requires r.ReportSold?
  {
    if c.destination.Some? && side != Destination then Stop(Forbidden)
    else if c.destination.None? && side != Source then Stop(Forbidden)
    else
      match AssertTransition(ReportSale, c.status, side, None)
      case None => Stop(Conflict)
      case Some(next) =>
        var chosen := ChosenLines(lines, r.lineIds);
        if chosen == {} then Stop(BadRequest)
        else Go(next, WriteSale(chosen, Raised(lines, chosen)))
  }

  function ReturnAction(step: ReturnStep): Action {
    match step
    case Initiate => InitiateReturn
    case Ship => ShipReturn
    case ConfirmReceipt => ConfirmReturn
  }

  function PrepareReturn(c: Consignment, side: Side, r: Request): Prepared
    requires r.ReturnFlow?
  {
    match AssertTransition(ReturnAction(r.step), c.status, side, None)
    case None => Stop(Conflict)
    case Some(next) =>
      if r.step == ConfirmReceipt && r.condition.None? then Stop(BadRequest)
      else Go(next, WriteReturn(r.step == ConfirmReceipt, r.condition == Some(Damaged)))
  }

  /** Everything a guarded call decides from what it read, before its transaction. */
  function Prepare(me: Company, c: Consignment, lines: seq<Line>, r: Request): Prepared {
    match SideOf(c, me)
    case None => Stop(NotFound)
    case Some(side) =>
      match r
      case Decide(_, _, _, _) => PrepareDecide(c, side, r)
      case Custody(_, _) => PrepareCustody(c, lines, side, r)
      case ReportSold(_) => PrepareSale(c, lines, side, r)
      case ReturnFlow(_, _) => PrepareReturn(c, side, r)
  }

  function WriteConsignment(c: Consignment, next: Status, w: Write): Consignment {
    var bumped := c.(status := next, version := c.version + 1);
    match w
    case WriteDecision(action, counter, agreed) =>
      if action == Counter then bumped.(counter := counter)
      else if action == Accept then bumped.(agreed := agreed)
      else bumped
    case _ => bumped
  }

  function WriteLines(lines: seq<Line>, next: Status, w: Write): seq<Line> {
    match w
    case WriteDecision(action, _, agreed) =>
      if next == Cancelled then CancelLive(lines)
      else if action == Accept && agreed.Some? then AgreeProposed(lines, agreed.value)
      else lines
    case WriteCustody(send) => if send then lines else Restatus(lines, LineProposed, LineInCustody)
    case WriteSale(chosen, _) => SellLines(lines, chosen)
    case WriteReturn(confirm, _) => if confirm then Restatus(lines, LineInCustody, LineReturned) else lines
  }

  function WriteUnits(units: map<UnitId, Unit>, lines: seq<Line>, next: Status, w: Write): map<UnitId, Unit> {
    match w
    case WriteDecision(_, _, _) => if next == Cancelled then Move(units, LiveUnits(lines), InStock) else units
    case WriteCustody(_) => units
    case WriteSale(chosen, _) => Move(units, UnitsAt(lines, chosen), Sold)
    case WriteReturn(confirm, damaged) =>
      if confirm then Move(units, UnitsWith(lines, LineInCustody), if damaged then Faulty else InStock) else units
  }

  function PlainEntry(kind: LedgerKind, amount: Cents, acting: Company): Entry {
    Entry(kind, amount, None, None, "", None, acting, None, None)
  }

  function WriteLedger(ledger: seq<Entry>, me: Company, w: Write): seq<Entry> {
    if w.WriteSale? then ledger + [PlainEntry(ReceivableRaised, w.raised, me)] else ledger
  }

  /** The transaction: `updateMany where version and status are those read`, then the dependent rows. */
  function CommitWrite(db: Db, me: Company, id: nat, read: Consignment, next: Status, w: Write): (Db, Outcome)
    requires id < |db.deals|
  {
    var d := db.deals[id];
    if d.c.version != read.version || d.c.status != read.status then (db, Refused(Conflict))
    else
      (Db(db.deals[id := Deal(WriteConsignment(d.c, next, w), WriteLines(d.lines, next, w),
                              WriteLedger(d.ledger, me, w))],
          WriteUnits(db.units, d.lines, next, w)),
       Done)
  }

  /** The guarded call run without interruption. */
  function ApplyGuarded(db: Db, me: Company, id: nat, r: Request): (Db, Outcome) {
    if id >= |db.deals| then (db, Refused(NotFound))
    else
      match Prepare(me, db.deals[id].c, db.deals[id].lines, r)
      case Stop(why) => (db, Refused(why))
      case Go(next, w) => CommitWrite(db, me, id, db.deals[id].c, next, w)
  }

  // ---------------------------------------------------------------- payment, forgive

  /** settleIfClear: two guarded status updates that leave the version alone. */
  function SettleIfClear(d: Deal, closing: Status): Deal {
    if Outstanding(d.ledger) > 0 then
      if d.c.status == SoldAwaitingSettlement then d.(c := d.c.(status := PartiallyPaid)) else d
    else if d.c.status == SoldAwaitingSettlement || d.c.status == PartiallyPaid then
      d.(c := d.c.(status := closing))
    else d
  }

  predicate IsVisible(db: Db, me: Company, id: nat) {
    id < |db.deals| && SideOf(db.deals[id].c, me).Some?
  }

  predicate WasReportedAs(db: Db, me: Company, clientUuid: nat) {
    exists k, i :: 0 <= k < |db.deals| && 0 <= i < |db.deals[k].ledger|
                && IsReportOf(db.deals[k].ledger[i], me, clientUuid)
  }

  predicate IsReportOf(e: Entry, me: Company, clientUuid: nat) {
    e.acting == me && e.clientUuid == Some(clientUuid)
  }

  predicate WasReportedDifferently(db: Db, me: Company, clientUuid: nat, hash: Fingerprint) {
    exists k, i :: 0 <= k < |db.deals| && 0 <= i < |db.deals[k].ledger|
                && IsReportOf(db.deals[k].ledger[i], me, clientUuid)
                && db.deals[k].ledger[i].requestHash.Some? && db.deals[k].ledger[i].requestHash.value != hash
  }

  function OrZero(amount: Option<Cents>): Cents {
    if amount.Some? then amount.value else 0
  }

  function OrCash(via: Option<Method>): Method {
    if via.Some? then via.value else Cash
  }

  function ApplyReport(db: Db, call: Call): (Db, Outcome)
    requires call.ReportPayment?
  {
    if !IsVisible(db, call.me, call.id) then (db, Refused(NotFound))
    else
      var d := db.deals[call.id];
      var hash := Fingerprint(call.id, OrZero(call.amount), OrCash(call.via), call.account, call.reference);
      if call.clientUuid.Some? && WasReportedAs(db, call.me, call.clientUuid.value) then
        if WasReportedDifferently(db, call.me, call.clientUuid.value, hash) then (db, Refused(Conflict))
        else (db, Replayed)
      else if !PaymentAllowed(OrZero(call.amount), OrCash(call.via), call.account, Outstanding(d.ledger)) then
        (db, Refused(BadRequest))
      else
        var entry := Entry(PaymentReported, OrZero(call.amount), call.via, call.account, call.reference, None,
                           call.me, call.clientUuid, if call.clientUuid.Some? then Some(hash) else None);
        (db.(deals := db.deals[call.id := d.(ledger := d.ledger + [entry])]), Done)
  }

  predicate WasConfirmed(ledger: seq<Entry>, entry: nat) {
    exists j :: 0 <= j < |ledger| && ledger[j].kind == PaymentConfirmed && ledger[j].refersTo == Some(entry)
  }

  function ConfirmationOf(e: Entry, at: nat, me: Company): Entry {
    Entry(PaymentConfirmed, e.amount, e.via, e.account, e.reference, Some(at), me, None, None)
  }

  function ApplyConfirm(db: Db, call: Call): (Db, Outcome)
    requires call.ConfirmPayment?
  {
    if !IsVisible(db, call.me, call.id) then (db, Refused(NotFound))
    else
      var d := db.deals[call.id];
      if SideOf(d.c, call.me) != Some(Source) then (db, Refused(Forbidden))
      else if call.entry >= |d.ledger| || d.ledger[call.entry].kind != PaymentReported then (db, Refused(NotFound))
      else if WasConfirmed(d.ledger, call.entry) then (db, Refused(Conflict))
      else
        var e := d.ledger[call.entry];
        if !PaymentAllowed(e.amount, OrCash(e.via), e.account, Outstanding(d.ledger)) then (db, Refused(Conflict))
        else
          var paid := d.(ledger := d.ledger + [ConfirmationOf(e, call.entry, call.me)]);
          (db.(deals := db.deals[call.id := SettleIfClear(paid, Settled)]), Done)
  }

  function ApplyForgive(db: Db, call: Call): (Db, Outcome)
    requires call.ForgiveDebt?
  {
    if !IsVisible(db, call.me, call.id) then (db, Refused(NotFound))
    else
      var d := db.deals[call.id];
      if SideOf(d.c, call.me) != Some(Source) then (db, Refused(Forbidden))
      else if !ForgivenessAllowed(call.debt, call.reasonGiven, Outstanding(d.ledger)) then (db, Refused(BadRequest))
      else
        var waived := d.(ledger := d.ledger + [PlainEntry(Forgiven, call.debt, call.me)]);
        (db.(deals := db.deals[call.id := SettleIfClear(waived, ForgivenSettled)]), Done)
  }

  // ---------------------------------------------------------------- one atomic step

  function ApplyUnitStep(db: Db, call: Call): (Db, Outcome)
    requires call.MoveUnit? || call.AddUnit?
  {
    if call.MoveUnit? then
      if call.unit in db.units && db.units[call.unit].status != ConsignedOut && call.to != ConsignedOut
         && CanTransition(db.units[call.unit].status, call.to)
      then (db.(units := db.units[call.unit := db.units[call.unit].(status := call.to)]), Done)
      else (db, Refused(Conflict))
    else
      if call.unit !in db.units && call.row.status != ConsignedOut
      then (db.(units := db.units[call.unit := call.row]), Done)
      else (db, Refused(Conflict))
  }

  function Apply(db: Db, call: Call): (Db, Outcome) {
    match call
    case Create(_, _, _, _, _, _) => ApplyCreate(db, call)
    case Guarded(me, id, r) => ApplyGuarded(db, me, id, r)
    case ReportPayment(_, _, _, _, _, _, _) => ApplyReport(db, call)
    case ConfirmPayment(_, _, _) => ApplyConfirm(db, call)
    case ForgiveDebt(_, _, _, _) => ApplyForgive(db, call)
    case _ => ApplyUnitStep(db, call)
  }

  /** A run: the calls in the order they take effect. */
  function Run(db: Db, calls: seq<Call>): Db {
    if calls == [] then db else Apply(Run(db, calls[..|calls| - 1]), calls[|calls| - 1]).0
  }

  /** Before the first consignment: no deals, and no unit is out on consignment. */
  ghost predicate Init(db: Db) {
    db.deals == [] && forall u :: u in db.units ==> db.units[u].status != ConsignedOut
  }
}

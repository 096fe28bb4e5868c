/** The fifteen-state lifecycle table of src/consignment/consignment-lifecycle.ts. */
module ConsignmentLifecycle {
  import opened Prelude

  datatype Status =
    | Draft
    | Requested
    | CounterProposed
    | Disputed
    | AcceptedAwaitingCustody
    | CustodyAwaitingConfirmation
    | InCustody
    | SoldAwaitingSettlement
    | PartiallyPaid
    | ReturnInitiated
    | ReturnInTransit
    | Settled
    | ReturnedAccepted
    | ForgivenSettled
    | Cancelled

  datatype Side = Source | Destination

  datatype Action =
    | Submit
    | Accept
    | Counter
    | Dispute
    | Reject
    | Cancel
    | SendCustody
    | ConfirmCustody
    | ReportSale
    | RecordPayment
    | Settle
    | InitiateReturn
    | ShipReturn
    | ConfirmReturn
    | Forgive

  datatype Actor = Only(side: Side) | Either

  datatype Rule = Rule(from: set<Status>, to: Status, actor: Actor)

  /** The TRANSITIONS table. */
  function RuleOf(action: Action): Rule {
    match action
    case Submit => Rule({Draft}, Requested, Only(Source))
    case Accept => Rule({Requested, CounterProposed, Disputed}, AcceptedAwaitingCustody, Either)
    case Counter => Rule({Requested, CounterProposed, Disputed}, CounterProposed, Either)
    case Dispute => Rule({Requested, CounterProposed}, Disputed, Either)
    case Reject => Rule({Requested, CounterProposed, Disputed}, Cancelled, Only(Destination))
    case Cancel =>
      Rule({Draft, Requested, CounterProposed, Disputed, AcceptedAwaitingCustody}, Cancelled, Only(Source))
    case SendCustody => Rule({AcceptedAwaitingCustody}, CustodyAwaitingConfirmation, Only(Source))
    case ConfirmCustody => Rule({CustodyAwaitingConfirmation}, InCustody, Only(Destination))
    case ReportSale => Rule({InCustody}, SoldAwaitingSettlement, Only(Destination))
    case RecordPayment => Rule({SoldAwaitingSettlement, PartiallyPaid}, PartiallyPaid, Either)
    case Settle => Rule({SoldAwaitingSettlement, PartiallyPaid}, Settled, Either)
    case InitiateReturn => Rule({InCustody}, ReturnInitiated, Only(Destination))
    case ShipReturn => Rule({ReturnInitiated}, ReturnInTransit, Only(Destination))
    case ConfirmReturn => Rule({ReturnInTransit, ReturnInitiated}, ReturnedAccepted, Only(Source))
    case Forgive => Rule({SoldAwaitingSettlement, PartiallyPaid}, ForgivenSettled, Only(Source))
  }

  /** assertTransition: the next status, or None where the source throws TransitionRefused. */
  function AssertTransition(action: Action, from: Status, side: Side, lastProposalBy: Option<Side>): Option<Status> {
    var rule := RuleOf(action);
    if from !in rule.from then None
    else if rule.actor != Either && rule.actor != Only(side) then None
    else if action in {Accept, Counter} && lastProposalBy == Some(side) then None
    else Some(rule.to)
  }

  /** The service's reading of whose offer is on the table: derived from the status alone. */
  function LastProposalBy(status: Status): Option<Side> {
    match status
    case Requested => Some(Source)
    case CounterProposed => Some(Destination)
    case _ => None
  }

  /** Some action of the table leads from `s` to `t`. */
  ghost predicate Edge(s: Status, t: Status) {
    exists action: Action :: s in RuleOf(action).from && RuleOf(action).to == t
  }

  /** amountIsMutable: what the screens show. */
  predicate AmountIsMutable(status: Status) {
    status in {Draft, Requested, CounterProposed, Disputed, AcceptedAwaitingCustody}
  }

  /**
   * Who really made the offer on the table is tracked by `proposer`; the service only looks at the
   * status. A side can accept its own offer exactly when the status no longer names that side: after
   * any dispute, and for the source after its own counter-offer.
   */
  lemma OwnOfferAcceptance(status: Status, proposer: Side)
    requires status in {Requested, CounterProposed, Disputed}
    requires status == Requested ==> proposer == Source
    ensures AssertTransition(Accept, status, proposer, LastProposalBy(status)).Some?
       <==> status == Disputed || (status == CounterProposed && proposer == Source)
    ensures AssertTransition(Accept, status, proposer, Some(proposer)) == None
  {
  }
}

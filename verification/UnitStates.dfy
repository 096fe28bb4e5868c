/** The unit lifecycle of src/inventory/unit-state-machine.ts. */
module UnitStates {
  datatype UnitStatus =
    | InStock
    | Reserved
    | Sold
    | Returned
    | InTransit
    | Faulty
    | TransferredOut
    | ConsignedOut

  function NextStates(from: UnitStatus): set<UnitStatus> {
    match from
    case InStock => {Reserved, Sold, InTransit, Faulty, TransferredOut, ConsignedOut}
    case Reserved => {InStock, InTransit}
    case Sold => {Returned}
    case Returned => {InStock, Faulty}
    case InTransit => {InStock, TransferredOut}
    case Faulty => {InStock}
    case TransferredOut => {}
    case ConsignedOut => {InStock, Sold, Faulty}
  }

  predicate CanTransition(from: UnitStatus, to: UnitStatus) {
    to in NextStates(from)
  }
}

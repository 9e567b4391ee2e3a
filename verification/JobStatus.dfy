/** Job statuses and the moves that `jobs.state-machine.ts` allows between them. */
module JobStatus {

  datatype Status =
    | Booked | Checking | EstimateSent | Approved | InProgress | WaitingParts | QualityCheck | Ready | Closed | NoShow

  function ValidTransitions(from: Status): set<Status> {
    match from
    case Booked => {Checking, Closed, NoShow}
    case Checking => {EstimateSent, Approved, InProgress, Closed}
    case EstimateSent => {Checking, Approved, Closed}
    case Approved => {EstimateSent, InProgress, Closed}
    case InProgress => {WaitingParts, QualityCheck, Ready, Closed}
    case WaitingParts => {InProgress, Closed}
    case QualityCheck => {InProgress, Ready}
    case Ready => {QualityCheck, Closed}
    case Closed => {}
    case NoShow => {}
  }

  predicate CanTransition(from: Status, to: Status) {
    from != to && to in ValidTransitions(from)
  }
}

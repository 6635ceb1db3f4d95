/**
  One attempt to remove a message, from HTTP admission to the store call the visit makes about it:
  the order of admission, final guard and send, the classification of the answer, and the verdict.
 */
module VisitOutcome {
  import opened Wrappers
  import opened EraserTypes
  import opened Transactions

  datatype Admission = Admitted | Deferred | NotAvailable

  /** What the final guard did: refused, failed some other way, or committed a dispatch id. */
  datatype Guard = Stopped | Refused(error: DispatchError) | GuardFailed | Marked(uuid: DispatchId)

  /** What came back from the server; `success` is the body's field when the body could be read. */
  datatype Transport = NoAnswer | Answer(status: int, success: Option<bool>)

  datatype Failure =
    | ServiceFailure(error: DispatchError)
    | MaxFailure(status: int, attempted: bool)
    | OtherFailure

  /** The store call a visit makes, with the ticket it makes it under. */
  datatype Call =
    | SettleCall(ticket: Ticket, to: State, code: Outcome)
    | AwaitCall
    | NoCall

  /** Where a dispatch id stands on the wire. */
  datatype Wire = Unsent | InFlight | Acked | Rejected | Lost

  predicate IsOk(status: int) {
    200 <= status < 300
  }

  /** The answer to a DELETE that was sent. */
  function Classify(transport: Transport): Result<bool, Failure> {
    match transport
    case NoAnswer => Result.Failure(MaxFailure(0, true))
    case Answer(status, success) =>
      if !IsOk(status) then Result.Failure(MaxFailure(status, status != 429))
      else if success == Some(true) then Success(true)
      else Result.Failure(MaxFailure(if success.None? then 0 else 200, true))
  }

  /** Admission first, then the guard, and only then the request. */
  function Remove(admission: Admission, guard: Guard, transport: Transport): Result<bool, Failure> {
    match admission
    case Deferred => Result.Failure(MaxFailure(429, false))
    case NotAvailable => Result.Failure(OtherFailure)
    case Admitted =>
      match guard
      case Stopped => Result.Failure(ServiceFailure(GuardChanged))
      case Refused(error) => Result.Failure(ServiceFailure(error))
      case GuardFailed => Result.Failure(OtherFailure)
      case Marked(uuid) => Classify(transport)
  }

  /** The guard ran and committed a dispatch id. */
  predicate WasIssued(admission: Admission, guard: Guard) {
    admission == Admitted && guard.Marked?
  }

  function IssuedTicket(candidate: Ticket, admission: Admission, guard: Guard): Ticket {
    if WasIssued(admission, guard) then Ticket(Dispatching, Some(guard.uuid)) else candidate
  }

  /** What the visit asks of the store after the attempt. */
  function Verdict(candidate: Ticket, admission: Admission, guard: Guard, transport: Transport): Call {
    var issued := IssuedTicket(candidate, admission, guard);
    match Remove(admission, guard, transport)
    case Success(_) => SettleCall(issued, Deleted, WasDeleted)
    case Failure(ServiceFailure(error)) =>
      if error == IsProtected then SettleCall(candidate, Protected, WasProtected)
      else if error == ProtectionPending then AwaitCall
      else SettleCall(candidate, Pending, PolicyChanged)
    case Failure(MaxFailure(status, attempted)) =>
      if status == 429 && !attempted then SettleCall(issued, Pending, RateLimited)
      else if issued != candidate then SettleCall(issued, Uncertain, Reconciliation)
      else NoCall
    case Failure(OtherFailure) =>
      if issued != candidate then SettleCall(issued, Uncertain, Reconciliation) else NoCall
  }

  function WireOf(transport: Transport): Wire {
    match transport
    case NoAnswer => Lost
    case Answer(status, success) =>
      if status == 429 then Rejected
      else if IsOk(status) && success == Some(true) then Acked
      else Lost
  }

  /** The only settlement of an issued attempt that its wire state permits. */
  function SettlementOf(wire: Wire): (State, Outcome) {
    match wire
    case Acked => (Deleted, WasDeleted)
    case Rejected => (Pending, RateLimited)
    case _ => (Uncertain, Reconciliation)
  }

  /**
    The verdict never claims more than the wire shows. An issued attempt is called deleted exactly on an
    acknowledgement, returned to pending exactly on a 429, and uncertain otherwise; without an issued
    attempt nothing was sent and only a pending candidate is touched.
   */
  lemma VerdictFollowsWire(candidate: Ticket, admission: Admission, guard: Guard, transport: Transport)
    requires candidate.state == Pending
    ensures WasIssued(admission, guard) ==>
              Verdict(candidate, admission, guard, transport)
              == SettleCall(Ticket(Dispatching, Some(guard.uuid)),
                            SettlementOf(WireOf(transport)).0, SettlementOf(WireOf(transport)).1)
    ensures !WasIssued(admission, guard) ==>
              var call := Verdict(candidate, admission, guard, transport);
              call.SettleCall? ==> call.ticket == candidate && (call.to == Pending || call.to == Protected)
    ensures Verdict(candidate, admission, guard, transport).SettleCall?
            && Verdict(candidate, admission, guard, transport).to == Protected
            ==> guard == Refused(IsProtected)
  {
  }
}

/** The records of internal/domain/model.go.  Timestamps and event metadata carry no decision and are left out. */
module Domain {

  datatype Option<+T> = None | Some(value: T)

  datatype PaymentStatus = Init | Processing | Success | Failed | Closed {
    predicate Terminal() {
      Success? || Failed? || Closed?
    }
  }

  /** The error values the two modes return. */
  datatype Error =
    | NotFound
    | IdempotencyConflict
    | InvalidTransition
    | InsufficientFunds
    | IdCollision
    | UnsupportedOutcome
    | InjectedFault
    | Invalid(message: string)

  datatype Result<+T> = Ok(value: T) | Err(error: Error)

  /** The event types the store itself writes; every other event is recorded under a name the caller chooses. */
  datatype EventKind =
    | PaymentCreated | TccStarted | StatusChanged
    | FundsFrozen | FundsReleased | FundsConfirmed
    | CallbackAccepted | CallbackDuplicate | CallbackOutOfOrder | CallbackTerminalIgnored
    | Recorded(name: string)

  /** One line of a payment's history; its message text is not kept. */
  datatype PaymentEvent = PaymentEvent(
    sequence: int, kind: EventKind, from: Option<PaymentStatus>, to: Option<PaymentStatus>)

  datatype Account = Account(id: string, available: int, frozen: int)

  datatype ReservationState = Frozen | Confirmed | Cancelled

  /** Money set aside for a payment: a row of account_reservations, or an entry of the memory store. */
  datatype Reservation = Reservation(paymentId: string, accountId: string, amount: int, state: ReservationState)

  /** The balance every account starts with: the demo user's, in cents. */
  const OPENING_BALANCE: int := 1_000_000

  const DEMO_USER := "demo-user"

  /** An amount that request validation accepts. */
  const MAX_AMOUNT: int := 100_000_000
}

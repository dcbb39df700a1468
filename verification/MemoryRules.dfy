/** What each operation of internal/store/memory.go answers and leaves behind, as functions of the store's content. */
module MemoryRules {
  import opened Domain

  datatype Payment = Payment(
    id: string, orderId: string, accountId: string, amount: int, currency: string,
    status: PaymentStatus, failureReason: string, lastCallback: int)

  datatype Outcome = Succeeded | Declined | Unsupported
  datatype Callback = Callback(eventId: string, sequence: int, outcome: Outcome, reason: string)
  datatype Disposition = CallbackApplied | Duplicate | OutOfOrder | TerminalIgnored

  datatype IdempotencyRecord = IdempotencyRecord(paymentId: string, fingerprint: string)
  datatype LedgerEntry = LedgerEntry(number: int, paymentId: string, accountId: string, amount: int)

  datatype Store = Store(
    payments: map<string, Payment>,
    events: map<string, seq<PaymentEvent>>,
    eventSequences: map<string, int>,
    idempotency: map<string, IdempotencyRecord>,
    callbacksSeen: map<string, set<string>>,
    accounts: map<string, Account>,
    reservations: map<string, Reservation>,
    ledger: seq<LedgerEntry>,
    ledgerSequence: int)

  datatype Step<+T> = Step(store: Store, result: Result<T>)

  function EmptyStore(): Store {
    Store(map[], map[], map[], map[], map[], map[DEMO_USER := Account(DEMO_USER, OPENING_BALANCE, 0)], map[], [], 0)
  }

  function LogOf(s: Store, id: string): seq<PaymentEvent> {
    if id in s.events then s.events[id] else []
  }

  function CountOf(s: Store, id: string): int {
    if id in s.eventSequences then s.eventSequences[id] else 0
  }

  /** appendEventLocked: the next number of this payment's own counter. */
  function Append(s: Store, id: string, kind: EventKind, from: Option<PaymentStatus>,
                  to: Option<PaymentStatus>): Store {
    var n := CountOf(s, id) + 1;
    s.(eventSequences := s.eventSequences[id := n],
       events := s.events[id := LogOf(s, id) + [PaymentEvent(n, kind, from, to)]])
  }

  function Note(s: Store, id: string, kind: EventKind): Store {
    Append(s, id, kind, None, None)
  }

  /** A payment is rewritten with a new status and the move is logged. */
  function SetStatus(s: Store, id: string, from: PaymentStatus, payment: Payment): Store {
    Append(s.(payments := s.payments[id := payment]), id, StatusChanged, Some(from), Some(payment.status))
  }

  /** Every idempotency record names a payment that is there. */
  ghost predicate Indexed(s: Store) {
    forall k :: k in s.idempotency ==> s.idempotency[k].paymentId in s.payments
  }

  function CreatePayment(s: Store, payment: Payment, key: string, fingerprint: string): Step<(Payment, bool)>
    requires Indexed(s)
  {
    if key in s.idempotency then
      if s.idempotency[key].fingerprint != fingerprint then Step(s, Err(IdempotencyConflict))
      else Step(s, Ok((s.payments[s.idempotency[key].paymentId], false)))
    else if payment.id in s.payments then Step(s, Err(IdCollision))
    else
      Step(Append(s.(payments := s.payments[payment.id := payment],
                     idempotency := s.idempotency[key := IdempotencyRecord(payment.id, fingerprint)]),
                  payment.id, PaymentCreated, None, Some(Init)),
           Ok((payment, true)))
  }

  function StartPayment(s: Store, id: string): Step<Payment> {
    if id !in s.payments then Step(s, Err(NotFound))
    else if !s.payments[id].status.Init? then Step(s, Err(InvalidTransition))
    else
      var started := s.payments[id].(status := Processing);
      Step(SetStatus(s, id, Init, started), Ok(started))
  }

  /** Move an account's two balances; the store writes under the account's own id. */
  function Shift(s: Store, account: Account, available: int, frozen: int): Store {
    s.(accounts := s.accounts[account.id := account.(available := account.available + available,
                                                     frozen := account.frozen + frozen)])
  }

  function Freeze(s: Store, id: string): Step<Payment> {
    if id !in s.payments then Step(s, Err(NotFound))
    else
      var p := s.payments[id];
      if !p.status.Processing? then Step(s, Err(InvalidTransition))
      else if id in s.reservations then
        Step(s, if s.reservations[id].state.Cancelled? then Err(InvalidTransition) else Ok(p))
      else if p.accountId !in s.accounts then Step(s, Err(NotFound))
      else if s.accounts[p.accountId].available < p.amount then Step(s, Err(InsufficientFunds))
      else
        var a := s.accounts[p.accountId];
        Step(Note(Shift(s, a, -p.amount, p.amount)
                  .(reservations := s.reservations[id := Reservation(id, a.id, p.amount, Frozen)]), id, FundsFrozen),
             Ok(p))
  }

  predicate HoldsFunds(s: Store, id: string) {
    id in s.reservations && s.reservations[id].state.Frozen?
  }

  function AccountOf(s: Store, name: string): Account {
    if name in s.accounts then s.accounts[name] else Account("", 0, 0)
  }

  /** releaseLocked: give frozen money back, once. */
  function Release(s: Store, id: string): Store {
    if !HoldsFunds(s, id) then s
    else
      var r := s.reservations[id];
      Note(Shift(s, AccountOf(s, r.accountId), r.amount, -r.amount)
           .(reservations := s.reservations[id := r.(state := Cancelled)]), id, FundsReleased)
  }

  function Settle(s: Store, id: string, payment: Payment): Step<Payment>
    requires id in s.payments
  {
    Step(SetStatus(Release(s, id), id, s.payments[id].status, payment), Ok(payment))
  }

  function FailAndRelease(s: Store, id: string, reason: string): Step<Payment> {
    if id !in s.payments then Step(s, Err(NotFound))
    else if s.payments[id].status.Terminal() then Step(s, Err(InvalidTransition))
    else Settle(s, id, s.payments[id].(status := Failed, failureReason := reason))
  }

  function ClosePayment(s: Store, id: string): Step<Payment> {
    if id !in s.payments then Step(s, Err(NotFound))
    else if !s.payments[id].status.Processing? then Step(s, Err(InvalidTransition))
    else Settle(s, id, s.payments[id].(status := Closed, failureReason := ""))
  }

  function SeenOf(s: Store, id: string): set<string> {
    if id in s.callbacksSeen then s.callbacksSeen[id] else {}
  }

  function See(s: Store, id: string, eventId: string): Store {
    s.(callbacksSeen := s.callbacksSeen[id := SeenOf(s, id) + {eventId}])
  }

  /** The frozen money leaves the account for good, and one ledger entry says so. */
  function CommitFunds(s: Store, id: string): Store
    requires id in s.payments && HoldsFunds(s, id)
  {
    var r, p := s.reservations[id], s.payments[id];
    Shift(s, AccountOf(s, r.accountId), 0, -r.amount)
    .(reservations := s.reservations[id := r.(state := Confirmed)],
      ledgerSequence := s.ledgerSequence + 1,
      ledger := s.ledger + [LedgerEntry(s.ledgerSequence + 1, id, p.accountId, p.amount)])
  }

  const DECLINED := "channel reported failure"

  /** A callback that passed the duplicate and ordering checks of a processing payment. */
  function Apply(s: Store, id: string, c: Callback): Step<(Payment, Disposition)>
    requires id in s.payments
  {
    var p := s.payments[id].(lastCallback := c.sequence);
    var noted := Note(s, id, CallbackAccepted);
    if c.outcome.Succeeded? then
      if !HoldsFunds(s, id) then Step(noted, Err(InvalidTransition))
      else
        var paid := p.(status := Success);
        Step(SetStatus(Note(CommitFunds(noted, id), id, FundsConfirmed), id, p.status, paid),
             Ok((paid, CallbackApplied)))
    else
      var failed := p.(status := Failed, failureReason := if c.reason == "" then DECLINED else c.reason);
      Step(SetStatus(Release(noted, id), id, p.status, failed), Ok((failed, CallbackApplied)))
  }

  function ProcessCallback(s: Store, id: string, c: Callback): Step<(Payment, Disposition)> {
    if c.outcome.Unsupported? then Step(s, Err(UnsupportedOutcome))
    else if id !in s.payments then Step(s, Err(NotFound))
    else
      var p := s.payments[id];
      if c.eventId in SeenOf(s, id) then
        Step(Note(s, id, CallbackDuplicate), Ok((p, Duplicate)))
      else
        var seen := See(s, id, c.eventId);
        if c.sequence <= p.lastCallback then Step(Note(seen, id, CallbackOutOfOrder), Ok((p, OutOfOrder)))
        else if p.status.Terminal() then Step(Note(seen, id, CallbackTerminalIgnored), Ok((p, TerminalIgnored)))
        else if !p.status.Processing? then Step(seen, Err(InvalidTransition))
        else Apply(seen, id, c)
  }

  function RecordEvent(s: Store, id: string, name: string): Step<()> {
    if id !in s.payments then Step(s, Err(NotFound)) else Step(Note(s, id, Recorded(name)), Ok(()))
  }
}

/** What one branch call does to the tables: the business rules of both participants and the barrier around them. */
module BranchRules {
  import opened Domain
  import opened Tables

  predicate Complete(q: Request) {
    q.paymentId != "" && q.gid != "" && q.accountId != "" && q.amount > 0
  }

  /** The reservation table's unique and foreign keys let the row in. */
  predicate ReservationFits(db: Db, q: Request) {
    && q.gid !in db.reservations
    && (forall g :: g in db.reservations ==> db.reservations[g].paymentId != q.paymentId)
    && q.paymentId in db.payments
  }

  predicate LedgerRowFits(db: Db, q: Request) {
    && q.gid !in db.ledger
    && (forall g :: g in db.ledger ==> db.ledger[g].paymentId != q.paymentId)
    && q.paymentId in db.payments
  }

  predicate CanPay(db: Db, q: Request) {
    q.accountId in db.accounts && db.accounts[q.accountId].available >= q.amount
  }

  function Shift(db: Db, account: string, available: int, frozen: int): Db {
    if account !in db.accounts then db
    else
      var a := db.accounts[account];
      db.(accounts := db.accounts[account := a.(available := a.available + available, frozen := a.frozen + frozen)])
  }

  function AccountTry(db: Db, q: Request): Effect {
    if !Complete(q) || !CanPay(db, q) then Rejected(Failure)
    else if !ReservationFits(db, q) then Rejected(SqlError)
    else Applied(Shift(db, q.accountId, -q.amount, q.amount)
                 .(reservations := db.reservations[q.gid := Reservation(q.paymentId, q.accountId, q.amount, Frozen)]))
  }

  /** The reservation this call is about, if it still holds money. */
  predicate HoldsMoney(db: Db, q: Request) {
    && q.gid in db.reservations && db.reservations[q.gid].paymentId == q.paymentId
    && db.reservations[q.gid].state.Frozen?
  }

  /** Confirm and Cancel of the account: settle a frozen reservation, leave anything else alone. */
  function AccountSettle(db: Db, q: Request, state: ReservationState): Effect {
    if !HoldsMoney(db, q) then Applied(db)
    else
      var row := db.reservations[q.gid];
      if row.accountId !in db.accounts || db.accounts[row.accountId].frozen < row.amount
          then Rejected(InvariantViolated)
      else Applied(Shift(db, row.accountId, if state.Cancelled? then row.amount else 0, -row.amount)
                   .(reservations := db.reservations[q.gid := row.(state := state)]))
  }

  function LedgerTry(db: Db, q: Request): Effect {
    if q.failTry || !Complete(q) then Rejected(Failure)
    else if !LedgerRowFits(db, q) then Rejected(SqlError)
    else Applied(db.(ledger := db.ledger[q.gid := LedgerRow(q.paymentId, q.accountId, q.amount, Prepared)]))
  }

  /** Confirm and Cancel of the ledger: settle a prepared entry, leave anything else alone. */
  function LedgerSettle(db: Db, q: Request, state: EntryState): (e: Effect)
    ensures e.Applied?
  {
    if q.gid in db.ledger && db.ledger[q.gid].paymentId == q.paymentId && db.ledger[q.gid].state.Prepared?
    then Applied(db.(ledger := db.ledger[q.gid := db.ledger[q.gid].(state := state)]))
    else Applied(db)
  }

  datatype Msg = Msg(branch: Branch, op: Op, request: Request)

  function Business(db: Db, m: Msg): Effect {
    match (m.branch, m.op)
    case (AccountBranch, Try) => AccountTry(db, m.request)
    case (AccountBranch, Confirm) => AccountSettle(db, m.request, Confirmed)
    case (AccountBranch, Cancel) => AccountSettle(db, m.request, Cancelled)
    case (LedgerBranch, Try) => LedgerTry(db, m.request)
    case (LedgerBranch, Confirm) => LedgerSettle(db, m.request, Posted)
    case (LedgerBranch, Cancel) => LedgerSettle(db, m.request, Voided)
  }

  function KeyOf(m: Msg): BarrierKey {
    BarrierKey(m.request.gid, m.branch, m.op)
  }

  function TryKey(m: Msg): BarrierKey {
    BarrierKey(m.request.gid, m.branch, Try)
  }

  /** A Cancel that arrives before its Try claims the Try's row, so that a late Try is skipped. */
  predicate ClaimsTry(db: Db, m: Msg) {
    m.op.Cancel? && TryKey(m) !in db.barrier
  }

  /** The barrier lets the business code run: the op is new and, for a Cancel, its Try came first. */
  predicate Runs(db: Db, m: Msg) {
    KeyOf(m) !in db.barrier && !ClaimsTry(db, m)
  }

  /** INSERT IGNORE of one barrier row, with the op that inserts it as its reason. */
  function Insert(barrier: map<BarrierKey, Op>, k: BarrierKey, reason: Op): map<BarrierKey, Op> {
    if k in barrier then barrier else barrier[k := reason]
  }

  /** The barrier rows a call writes before the business code runs. */
  function Marked(db: Db, m: Msg): Db {
    var claimed := if m.op.Cancel? then Insert(db.barrier, TryKey(m), Cancel) else db.barrier;
    db.(barrier := Insert(claimed, KeyOf(m), m.op))
  }

  /** One delivered branch call as a whole: barrier rows and business rows together, or neither. */
  function Deliver(db: Db, m: Msg): Effect {
    if Runs(db, m) then Business(Marked(db, m), m) else Applied(Marked(db, m))
  }

  /** The tables after a delivery, whatever was answered. */
  function After(db: Db, m: Msg): Db {
    var e := Deliver(db, m);
    if e.Applied? then e.db else db
  }
}

/**
 The MySQL schema of infra/mysql: one map per table, keyed by the column that identifies a row, and one map per unique
 key that the code relies on.  Identifiers are compared exactly.
 */
module Tables {
  import opened Domain

  datatype Branch = AccountBranch | LedgerBranch
  datatype Op = Try | Confirm | Cancel

  datatype EntryState = Prepared | Posted | Voided

  /** The body of every branch call. */
  datatype Request = Request(paymentId: string, gid: string, accountId: string, amount: int, failTry: bool)

  datatype LedgerRow = LedgerRow(paymentId: string, accountId: string, amount: int, state: EntryState)

  /** The unique key of dtm_barrier.barrier; the table's value is its `reason` column, the op that inserted the row. */
  datatype BarrierKey = BarrierKey(gid: string, branch: Branch, op: Op)

  datatype PaymentRow = PaymentRow(
    gid: Option<string>, orderId: string, accountId: string, amount: int, currency: string,
    status: PaymentStatus, failureReason: string, key: string, fingerprint: string)

  datatype Db = Db(
    payments: map<string, PaymentRow>,
    byKey: map<string, string>,
    byGid: map<string, string>,
    events: map<string, seq<PaymentEvent>>,
    accounts: map<string, Account>,
    reservations: map<string, Reservation>,
    ledger: map<string, LedgerRow>,
    barrier: map<BarrierKey, Op>)

  /** A transaction either writes its rows or is rolled back. */
  datatype Rejection = Failure | SqlError | InvariantViolated
  datatype Effect = Applied(db: Db) | Rejected(reason: Rejection)

  /** The database server, which all transactions change in place. */
  class Database {
    var payments: map<string, PaymentRow>
    var byKey: map<string, string>
    var byGid: map<string, string>
    var events: map<string, seq<PaymentEvent>>
    var accounts: map<string, Account>
    var reservations: map<string, Reservation>
    var ledger: map<string, LedgerRow>
    var barrier: map<BarrierKey, Op>

    function State(): (db: Db)
      reads this
    {
      Db(payments, byKey, byGid, events, accounts, reservations, ledger, barrier)
    }

    method Rollback(db: Db)
      modifies this
      ensures State() == db
    {
      payments, byKey, byGid, events := db.payments, db.byKey, db.byGid, db.events;
      accounts, reservations, ledger, barrier := db.accounts, db.reservations, db.ledger, db.barrier;
    }
  }
}

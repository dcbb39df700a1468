/**
 The participants' SQL transactions as they really run.  A delivery inserts its barrier rows, locks and reads a row,
 locks the rows it is going to write, and commits; deliveries of other calls, on the same account too, come between any
 two of these steps.  What is locked stays locked until commit or rollback.
 */
module ParticipantTransactions {
  import opened Domain
  import opened Tables
  import opened BranchRules
  import D = DeliveryCollapse
  import H = HoldAccount
  import S = SqlAccounts

  /**
   A barrier row, an account, a reservation by its gid or by its payment, a ledger entry by its gid or by its payment.
   */
  datatype Lockable =
    | BarrierLock(key: BarrierKey) | AccountLock(account: string)
    | ReservationLock(gid: string) | ReservedLock(paymentId: string)
    | EntryLock(gid: string) | EnteredLock(paymentId: string)

  /** The business rows a transaction is about to publish, with the values it has computed from what it read. */
  datatype Change = NoChange | Money(name: string, account: Account, row: Reservation) | Entry(entry: LedgerRow)

  datatype Stage =
    | Waiting
    | Barred(runs: bool)
    | AccountRead(account: Account)
    | RowRead(row: Option<Reservation>)
    | Ready(change: Change)

  datatype Txn = Txn(m: Msg, stage: Stage)

  /** `held` says which transaction holds which locks. */
  datatype Server = Server(db: Db, held: map<nat, set<Lockable>>, txns: map<nat, Txn>)

  datatype Event =
    | Opens(t: nat, m: Msg) | Bars(t: nat) | Reads(t: nat) | Writes(t: nat) | Commits(t: nat) | RollsBack(t: nat)

  // ---- The steps ----

  function BarrierLocks(m: Msg): set<Lockable> {
    {BarrierLock(KeyOf(m))} + if m.op.Cancel? then {BarrierLock(TryKey(m))} else {}
  }

  /** The row a Confirm or Cancel of the account selects. */
  function OwnRow(db: Db, q: Request): Option<Reservation> {
    if q.gid in db.reservations && db.reservations[q.gid].paymentId == q.paymentId
    then Some(db.reservations[q.gid]) else None
  }

  /** What the first statement of the business code locks. */
  function FirstLocks(m: Msg): set<Lockable> {
    match (m.branch, m.op)
    case (AccountBranch, Try) => {AccountLock(m.request.accountId)}
    case (AccountBranch, _) => {ReservationLock(m.request.gid)}
    case (LedgerBranch, Try) => {EntryLock(m.request.gid), EnteredLock(m.request.paymentId)}
    case (LedgerBranch, _) => {EntryLock(m.request.gid)}
  }

  /** What it reads there; None is an error, on which the transaction is rolled back. */
  function FirstRead(db: Db, m: Msg): Option<Stage> {
    var q := m.request;
    match (m.branch, m.op)
    case (AccountBranch, Try) =>
      if Complete(q) && CanPay(db, q) then Some(AccountRead(db.accounts[q.accountId])) else None
    case (AccountBranch, _) => Some(RowRead(OwnRow(db, q)))
    case (LedgerBranch, Try) =>
      if !q.failTry && Complete(q) && LedgerRowFits(db, q)
      then Some(Ready(Entry(LedgerRow(q.paymentId, q.accountId, q.amount, Prepared)))) else None
    case (LedgerBranch, op) =>
      if q.gid in db.ledger && db.ledger[q.gid].paymentId == q.paymentId && db.ledger[q.gid].state.Prepared?
      then Some(Ready(Entry(db.ledger[q.gid].(state := if op.Confirm? then Posted else Voided))))
      else Some(Ready(NoChange))
  }

  /** The locks of the account's second statement. */
  function SecondLocks(x: Txn): set<Lockable> {
    match x.stage
    case AccountRead(_) => {ReservationLock(x.m.request.gid), ReservedLock(x.m.request.paymentId)}
    case RowRead(row) => if row.Some? && row.value.state.Frozen? then {AccountLock(row.value.accountId)} else {}
    case _ => {}
  }

  /** The account's writes, computed from the row read first and the one locked now. */
  function SecondRead(db: Db, x: Txn): Option<Change> {
    var q := x.m.request;
    match x.stage
    case AccountRead(a) =>
      if !ReservationFits(db, q) then None
      else Some(Money(q.accountId, a.(available := a.available - q.amount, frozen := a.frozen + q.amount),
                      Reservation(q.paymentId, q.accountId, q.amount, Frozen)))
    case RowRead(row) =>
      if row.None? || !row.value.state.Frozen? then Some(NoChange)
      else
        var r := row.value;
        if r.accountId !in db.accounts || db.accounts[r.accountId].frozen < r.amount then None
        else
          var a := db.accounts[r.accountId];
          Some(Money(r.accountId,
                     a.(available := a.available + (if x.m.op.Confirm? then 0 else r.amount),
                        frozen := a.frozen - r.amount),
                     r.(state := if x.m.op.Confirm? then Confirmed else Cancelled)))
    case _ => None
  }

  /** Commit publishes the barrier rows and the prepared business rows, whatever the tables hold by now. */
  function Publish(db: Db, m: Msg, change: Change): Db {
    var marked := Marked(db, m);
    match change
    case NoChange => marked
    case Money(name, account, row) =>
      marked.(accounts := db.accounts[name := account], reservations := db.reservations[m.request.gid := row])
    case Entry(entry) => marked.(ledger := db.ledger[m.request.gid := entry])
  }

  function HeldBy(s: Server, t: nat): set<Lockable> {
    if t in s.held then s.held[t] else {}
  }

  /** No other transaction holds one of these. */
  ghost predicate Free(s: Server, t: nat, needs: set<Lockable>) {
    forall u, l :: u != t && l in HeldBy(s, u) ==> l !in needs
  }

  function End(s: Server, t: nat): Server {
    s.(held := s.held - {t}, txns := s.txns - {t})
  }

  function Go(s: Server, t: nat, needs: set<Lockable>, stage: Stage): Server
    requires t in s.txns
  {
    s.(held := s.held[t := HeldBy(s, t) + needs], txns := s.txns[t := s.txns[t].(stage := stage)])
  }

  predicate AtRead(x: Txn) {
    x.stage == Barred(true)
  }

  predicate AtWrite(x: Txn) {
    x.stage.AccountRead? || x.stage.RowRead?
  }

  predicate AtCommit(x: Txn) {
    x.stage.Ready? || x.stage == Barred(false)
  }

  function ChangeOf(x: Txn): Change {
    if x.stage.Ready? then x.stage.change else NoChange
  }

  /** A step that needs a lock someone else holds waits; one whose check fails rolls its transaction back. */
  ghost function Do(s: Server, e: Event): Server {
    var t := e.t;
    if e.Opens? then if t in s.txns then s else s.(txns := s.txns[t := Txn(e.m, Waiting)])
    else if t !in s.txns then s
    else
      var x := s.txns[t];
      match e
      case Bars(_) =>
        if !x.stage.Waiting? || !Free(s, t, BarrierLocks(x.m)) then s
        else Go(s, t, BarrierLocks(x.m), Barred(Runs(s.db, x.m)))
      case Reads(_) =>
        if !AtRead(x) || !Free(s, t, FirstLocks(x.m)) then s
        else
          var next := FirstRead(s.db, x.m);
          if next.None? then End(s, t) else Go(s, t, FirstLocks(x.m), next.value)
      case Writes(_) =>
        if !AtWrite(x) || !Free(s, t, SecondLocks(x)) then s
        else
          var change := SecondRead(s.db, x);
          if change.None? then End(s, t) else Go(s, t, SecondLocks(x), Ready(change.value))
      case Commits(_) => if AtCommit(x) then End(s, t).(db := Publish(s.db, x.m, ChangeOf(x))) else s
      case RollsBack(_) => End(s, t)
  }

  // ---- The invariant ----

  ghost predicate Exclusive(s: Server) {
    forall t, u, l :: t != u && l in HeldBy(s, t) ==> l !in HeldBy(s, u)
  }

  /** What a transaction must hold by now. */
  function Has(x: Txn): set<Lockable> {
    match x.stage
    case Waiting => {}
    case Barred(_) => BarrierLocks(x.m)
    case AccountRead(_) => BarrierLocks(x.m) + FirstLocks(x.m)
    case RowRead(_) => BarrierLocks(x.m) + FirstLocks(x.m)
    case Ready(change) =>
      BarrierLocks(x.m) + FirstLocks(x.m)
      + (if x.m.branch.AccountBranch? && x.m.op.Try?
         then {ReservationLock(x.m.request.gid), ReservedLock(x.m.request.paymentId)} else {})
      + (if change.Money? then {AccountLock(change.name)} else {})
  }

  /** The prepared change is what the business code would do to these tables. */
  ghost predicate ChangeOk(db: Db, m: Msg, change: Change) {
    var q := m.request;
    match (m.branch, m.op)
    case (AccountBranch, Try) =>
      && Complete(q) && CanPay(db, q) && ReservationFits(db, q)
      && var a := db.accounts[q.accountId];
      && change == Money(q.accountId, a.(available := a.available - q.amount, frozen := a.frozen + q.amount),
                         Reservation(q.paymentId, q.accountId, q.amount, Frozen))
    case (AccountBranch, op) =>
      var row := OwnRow(db, q);
      if row.None? || !row.value.state.Frozen? then change == NoChange
      else
        var r := row.value;
        && r.accountId in db.accounts && db.accounts[r.accountId].frozen >= r.amount
        && var a := db.accounts[r.accountId];
        && change == Money(r.accountId,
                           a.(available := a.available + (if op.Confirm? then 0 else r.amount),
                              frozen := a.frozen - r.amount),
                           r.(state := if op.Confirm? then Confirmed else Cancelled))
    case (LedgerBranch, _) => FirstRead(db, m) == Some(Ready(change))
  }

  /** What a transaction has read is still so. */
  ghost predicate TxnOk(db: Db, x: Txn) {
    var q := x.m.request;
    match x.stage
    case Waiting => true
    case Barred(runs) => runs == Runs(db, x.m)
    case AccountRead(a) =>
      && Runs(db, x.m) && x.m.branch.AccountBranch? && x.m.op.Try? && Complete(q) && CanPay(db, q)
         && a == db.accounts[q.accountId]
    case RowRead(row) => Runs(db, x.m) && x.m.branch.AccountBranch? && !x.m.op.Try? && row == OwnRow(db, q)
    case Ready(change) => Runs(db, x.m) && ChangeOk(db, x.m, change)
  }

  ghost predicate AllOk(s: Server) {
    forall t :: t in s.txns ==> TxnOk(s.db, s.txns[t]) && Has(s.txns[t]) <= HeldBy(s, t)
  }

  ghost predicate Inv(s: Server) {
    Exclusive(s) && AllOk(s)
  }

  // ---- Commits of others ----

  /** The tables say the same about what this lock protects. */
  ghost predicate PartSame(db: Db, db': Db, l: Lockable) {
    match l
    case BarrierLock(k) => k in db'.barrier <==> k in db.barrier
    case AccountLock(a) =>
      (a in db'.accounts <==> a in db.accounts) && (a in db.accounts ==> db'.accounts[a] == db.accounts[a])
    case ReservationLock(g) =>
      (g in db'.reservations <==> g in db.reservations)
          && (g in db.reservations ==> db'.reservations[g] == db.reservations[g])
    case ReservedLock(p) => ReservedSame(db.reservations, db'.reservations, p)
    case EntryLock(g) => (g in db'.ledger <==> g in db.ledger) && (g in db.ledger ==> db'.ledger[g] == db.ledger[g])
    case EnteredLock(p) => EnteredSame(db.ledger, db'.ledger, p)
  }

  ghost predicate ReservedSame(rows: map<string, Reservation>, rows': map<string, Reservation>, p: string) {
    forall g :: g in rows' && rows'[g].paymentId == p <==> g in rows && rows[g].paymentId == p
  }

  ghost predicate EnteredSame(rows: map<string, LedgerRow>, rows': map<string, LedgerRow>, p: string) {
    forall g :: g in rows' && rows'[g].paymentId == p <==> g in rows && rows[g].paymentId == p
  }

  lemma BarrierLocal(db: Db, m: Msg, change: Change, l: Lockable)
    requires l.BarrierLock? && l !in BarrierLocks(m)
    ensures PartSame(db, Publish(db, m, change), l)
  {
  }

  /** The business rows that a change writes, by the locks that protect them. */
  ghost predicate Covered(db: Db, m: Msg, change: Change, held: set<Lockable>) {
    match change
    case NoChange => true
    case Money(name, _, row) =>
      && AccountLock(name) in held && ReservationLock(m.request.gid) in held
      && if m.request.gid in db.reservations then row.paymentId == db.reservations[m.request.gid].paymentId
         else ReservedLock(row.paymentId) in held
    case Entry(entry) =>
      && EntryLock(m.request.gid) in held
      && if m.request.gid in db.ledger then entry.paymentId == db.ledger[m.request.gid].paymentId
         else EnteredLock(entry.paymentId) in held
  }

  lemma BusinessLocal(db: Db, m: Msg, change: Change, held: set<Lockable>, l: Lockable)
    requires Covered(db, m, change, held) && l !in held && !l.BarrierLock?
    ensures PartSame(db, Publish(db, m, change), l)
  {
    hide Marked;
    assert Marked(db, m) == db.(barrier := Marked(db, m).barrier) by { MarkedOnly(db, m); }
  }

  lemma MarkedOnly(db: Db, m: Msg)
    ensures Marked(db, m) == db.(barrier := Marked(db, m).barrier)
  {
  }

  lemma ChangeCovered(db: Db, x: Txn)
    requires TxnOk(db, x) && AtCommit(x)
    ensures Covered(db, x.m, ChangeOf(x), Has(x))
  {
    hide CanPay, ReservationFits, LedgerRowFits, Runs;
    if x.m.branch.AccountBranch? && x.m.op.Try? && x.stage.Ready? {
      assert x.m.request.gid !in db.reservations by { FitsFresh(db, x.m.request); }
    }
    if x.m.branch.LedgerBranch? && x.m.op.Try? && x.stage.Ready? {
      assert x.m.request.gid !in db.ledger by { FitsFresh(db, x.m.request); }
    }
  }

  lemma FitsFresh(db: Db, q: Request)
    ensures ReservationFits(db, q) ==> q.gid !in db.reservations
    ensures LedgerRowFits(db, q) ==> q.gid !in db.ledger
  {
  }

  /** A commit changes only what its transaction has locked. */
  lemma PublishLocal(db: Db, x: Txn, l: Lockable)
    requires TxnOk(db, x) && AtCommit(x) && l !in Has(x)
    ensures PartSame(db, Publish(db, x.m, ChangeOf(x)), l)
  {
    hide PartSame, Publish, TxnOk, Covered;
    if l.BarrierLock? {
      BarrierLocal(db, x.m, ChangeOf(x), l);
    } else {
      ChangeCovered(db, x);
      BusinessLocal(db, x.m, ChangeOf(x), Has(x), l);
    }
  }

  // ---- What was read stays so ----

  lemma RunsSame(db: Db, db': Db, m: Msg)
    requires forall l :: l in BarrierLocks(m) ==> PartSame(db, db', l)
    ensures Runs(db', m) == Runs(db, m)
  {
    assert PartSame(db, db', BarrierLock(KeyOf(m)));
    assert m.op.Cancel? ==> BarrierLock(TryKey(m)) in BarrierLocks(m);
  }

  lemma FundsSame(db: Db, db': Db, q: Request)
    requires PartSame(db, db', AccountLock(q.accountId))
    ensures CanPay(db', q) == CanPay(db, q) && (CanPay(db, q) ==> db'.accounts[q.accountId] == db.accounts[q.accountId])
  {
  }

  lemma OwnRowSame(db: Db, db': Db, q: Request)
    requires PartSame(db, db', ReservationLock(q.gid))
    ensures OwnRow(db', q) == OwnRow(db, q)
  {
  }

  lemma ReservationFitsSame(db: Db, db': Db, q: Request)
    requires PartSame(db, db', ReservationLock(q.gid)) && PartSame(db, db', ReservedLock(q.paymentId))
    requires db'.payments == db.payments
    ensures ReservationFits(db', q) == ReservationFits(db, q)
  {
  }

  lemma LedgerFitsSame(db: Db, db': Db, q: Request)
    requires PartSame(db, db', EntryLock(q.gid)) && PartSame(db, db', EnteredLock(q.paymentId))
    requires db'.payments == db.payments
    ensures LedgerRowFits(db', q) == LedgerRowFits(db, q)
  {
  }

  lemma LedgerReadSame(db: Db, db': Db, m: Msg)
    requires m.branch.LedgerBranch? && db'.payments == db.payments
    requires forall l :: l in FirstLocks(m) ==> PartSame(db, db', l)
    ensures FirstRead(db', m) == FirstRead(db, m)
  {
    hide LedgerRowFits;
    assert PartSame(db, db', EntryLock(m.request.gid));
    if m.op.Try? {
      assert PartSame(db, db', EnteredLock(m.request.paymentId));
      LedgerFitsSame(db, db', m.request);
    }
  }

  lemma ChangeSame(db: Db, db': Db, x: Txn)
    requires x.stage.Ready? && ChangeOk(db, x.m, x.stage.change) && db'.payments == db.payments
    requires forall l :: l in Has(x) ==> PartSame(db, db', l)
    ensures ChangeOk(db', x.m, x.stage.change)
  {
    hide PartSame, CanPay, ReservationFits, FirstRead, OwnRow, Complete;
    var q := x.m.request;
    if x.m.branch.LedgerBranch? {
      LedgerReadSame(db, db', x.m);
    } else if x.m.op.Try? {
      assert AccountLock(q.accountId) in Has(x) && ReservationLock(q.gid) in Has(x)
          && ReservedLock(q.paymentId) in Has(x);
      FundsSame(db, db', q);
      ReservationFitsSame(db, db', q);
    } else {
      assert ReservationLock(q.gid) in Has(x);
      OwnRowSame(db, db', q);
      if x.stage.change.Money? {
        assert AccountLock(x.stage.change.name) in Has(x);
        AccountSame(db, db', x.stage.change.name);
      }
    }
  }

  lemma AccountSame(db: Db, db': Db, name: string)
    requires PartSame(db, db', AccountLock(name))
    ensures name in db.accounts ==> name in db'.accounts && db'.accounts[name] == db.accounts[name]
  {
  }

  /** While its locked parts stay the same, so does everything a transaction has read. */
  lemma TxnStays(db: Db, db': Db, x: Txn)
    requires TxnOk(db, x) && db'.payments == db.payments
    requires forall l :: l in Has(x) ==> PartSame(db, db', l)
    ensures TxnOk(db', x)
  {
    hide PartSame, CanPay, OwnRow, Complete, ChangeOk, Runs;
    if !x.stage.Waiting? {
      assert BarrierLocks(x.m) <= Has(x);
      RunsSame(db, db', x.m);
      match x.stage
      case AccountRead(_) =>
        assert AccountLock(x.m.request.accountId) in Has(x);
        FundsSame(db, db', x.m.request);
      case RowRead(_) =>
        assert ReservationLock(x.m.request.gid) in Has(x);
        OwnRowSame(db, db', x.m.request);
      case Ready(_) => ChangeSame(db, db', x);
      case _ => {}
    }
  }

  // ---- Commits are deliveries ----

  /** The tables after a change, the barrier aside. */
  function Changed(db: Db, gid: string, change: Change): Db {
    match change
    case NoChange => db
    case Money(name, account, row) =>
      db.(accounts := db.accounts[name := account], reservations := db.reservations[gid := row])
    case Entry(entry) => db.(ledger := db.ledger[gid := entry])
  }

  lemma PublishIsChanged(db: Db, m: Msg, change: Change)
    ensures Publish(db, m, change) == Changed(db, m.request.gid, change).(barrier := Marked(db, m).barrier)
  {
    hide Insert;
  }

  lemma AccountTryChanges(db: Db, m: Msg, change: Change)
    requires m.branch.AccountBranch? && m.op.Try? && ChangeOk(db, m, change)
    ensures Business(db, m) == Applied(Changed(db, m.request.gid, change))
  {
    hide ReservationFits, Complete;
  }

  lemma AccountSettleChanges(db: Db, m: Msg, change: Change)
    requires m.branch.AccountBranch? && !m.op.Try? && ChangeOk(db, m, change)
    ensures Business(db, m) == Applied(Changed(db, m.request.gid, change))
  {
  }

  lemma LedgerChanges(db: Db, m: Msg, change: Change)
    requires m.branch.LedgerBranch? && ChangeOk(db, m, change)
    ensures Business(db, m) == Applied(Changed(db, m.request.gid, change))
  {
    hide LedgerRowFits, Complete;
  }

  /** What a transaction publishes at its commit is the whole delivery, made there and then. */
  lemma CommitIsDelivery(db: Db, x: Txn)
    requires TxnOk(db, x) && AtCommit(x)
    ensures Deliver(db, x.m).Applied? && Publish(db, x.m, ChangeOf(x)) == After(db, x.m)
  {
    hide ChangeOk, Business, Marked, Runs, Publish, Changed;
    MarkedOnly(db, x.m);
    PublishIsChanged(db, x.m, ChangeOf(x));
    if x.stage.Ready? {
      D.BusinessIgnoresBarrier(db, x.m, Marked(db, x.m).barrier);
      if x.m.branch.LedgerBranch? {
        LedgerChanges(db, x.m, x.stage.change);
      } else if x.m.op.Try? {
        AccountTryChanges(db, x.m, x.stage.change);
      } else {
        AccountSettleChanges(db, x.m, x.stage.change);
      }
    } else {
      NothingChanged(db, x.m.request.gid);
    }
  }

  lemma NothingChanged(db: Db, gid: string)
    ensures Changed(db, gid, NoChange) == db
  {
  }

  /** A check that fails on what was read is the very delivery refused. */
  lemma FirstRefusal(db: Db, m: Msg)
    requires Runs(db, m) && FirstRead(db, m).None?
    ensures Deliver(db, m).Rejected?
  {
    hide CanPay, Complete, LedgerRowFits, Marked, Runs, Business;
    MarkedOnly(db, m);
    D.BusinessIgnoresBarrier(db, m, Marked(db, m).barrier);
    BusinessRefuses(db, m);
  }

  lemma BusinessRefuses(db: Db, m: Msg)
    requires FirstRead(db, m).None?
    ensures Business(db, m).Rejected?
  {
    hide CanPay, Complete, LedgerRowFits;
  }

  lemma SecondRefusal(db: Db, x: Txn)
    requires TxnOk(db, x) && AtWrite(x) && SecondRead(db, x).None?
    ensures Deliver(db, x.m).Rejected?
  {
    hide CanPay, Complete, ReservationFits, Marked, Runs, Business;
    MarkedOnly(db, x.m);
    D.BusinessIgnoresBarrier(db, x.m, Marked(db, x.m).barrier);
    SecondRefuses(db, x);
  }

  lemma SecondRefuses(db: Db, x: Txn)
    requires TxnOk(db, x) && AtWrite(x) && SecondRead(db, x).None?
    ensures Business(db, x.m).Rejected?
  {
    hide CanPay, Complete, ReservationFits, Runs;
  }

  // ---- Every step ----

  /** A transaction that takes only free locks leaves every lock with one holder. */
  lemma ExclusiveFrom(s: Server, r: Server, t: nat, needs: set<Lockable>)
    requires Exclusive(s) && Free(s, t, needs) && HeldBy(r, t) <= HeldBy(s, t) + needs
    requires forall u: nat | u != t :: HeldBy(r, u) == HeldBy(s, u)
    ensures Exclusive(r)
  {
    hide HeldBy;
    forall u: nat, v: nat, l | u != v && l in HeldBy(r, u)
      ensures l !in HeldBy(r, v)
    {
      if u == t {
        assert l in HeldBy(s, t) || l in needs;
      } else {
        assert l in HeldBy(s, u);
      }
    }
  }

  lemma EndKeeps(s: Server, t: nat)
    requires Inv(s)
    ensures Inv(End(s, t))
  {
    hide TxnOk, Has;
    ExclusiveFrom(s, End(s, t), t, {});
    hide Exclusive;
    forall u | u in End(s, t).txns
      ensures TxnOk(s.db, s.txns[u]) && Has(s.txns[u]) <= HeldBy(End(s, t), u)
    {
      assert Has(s.txns[u]) <= HeldBy(s, u);
    }
  }

  lemma GoKeeps(s: Server, t: nat, needs: set<Lockable>, stage: Stage)
    requires Inv(s) && t in s.txns && Free(s, t, needs)
    requires TxnOk(s.db, s.txns[t].(stage := stage)) && Has(s.txns[t].(stage := stage)) <= HeldBy(s, t) + needs
    ensures Inv(Go(s, t, needs, stage))
  {
    hide TxnOk, Has, Free;
    var r := Go(s, t, needs, stage);
    ExclusiveFrom(s, r, t, needs);
    hide Exclusive;
    forall u | u in r.txns
      ensures TxnOk(r.db, r.txns[u]) && Has(r.txns[u]) <= HeldBy(r, u)
    {
      if u != t {
        assert Has(s.txns[u]) <= HeldBy(s, u);
      }
    }
  }

  lemma TxnAt(s: Server, t: nat)
    requires Inv(s) && t in s.txns
    ensures TxnOk(s.db, s.txns[t]) && Has(s.txns[t]) <= HeldBy(s, t)
  {
    hide TxnOk, Has, Exclusive;
  }

  lemma BarKeeps(s: Server, t: nat)
    requires Inv(s) && t in s.txns && s.txns[t].stage.Waiting? && Free(s, t, BarrierLocks(s.txns[t].m))
    ensures Inv(Go(s, t, BarrierLocks(s.txns[t].m), Barred(Runs(s.db, s.txns[t].m))))
  {
    hide Inv, Free, BarrierLocks, Runs;
    GoKeeps(s, t, BarrierLocks(s.txns[t].m), Barred(Runs(s.db, s.txns[t].m)));
  }

  /** The first read is what the next stage asks for. */
  lemma FirstReadOk(db: Db, x: Txn)
    requires TxnOk(db, x) && AtRead(x) && FirstRead(db, x.m).Some?
    ensures var y := x.(stage := FirstRead(db, x.m).value);
      TxnOk(db, y) && Has(y) == Has(x) + FirstLocks(x.m)
  {
    hide CanPay, Complete, LedgerRowFits, Runs, BarrierLocks;
  }

  lemma ReadKeeps(s: Server, t: nat)
    requires Inv(s) && t in s.txns && AtRead(s.txns[t]) && Free(s, t, FirstLocks(s.txns[t].m))
    requires FirstRead(s.db, s.txns[t].m).Some?
    ensures Inv(Go(s, t, FirstLocks(s.txns[t].m), FirstRead(s.db, s.txns[t].m).value))
  {
    hide Inv, Free, FirstLocks, FirstRead, TxnOk, Has;
    TxnAt(s, t);
    FirstReadOk(s.db, s.txns[t]);
    GoKeeps(s, t, FirstLocks(s.txns[t].m), FirstRead(s.db, s.txns[t].m).value);
  }

  lemma SecondReadOk(db: Db, x: Txn)
    requires TxnOk(db, x) && AtWrite(x) && SecondRead(db, x).Some?
    ensures var y := x.(stage := Ready(SecondRead(db, x).value));
      TxnOk(db, y) && Has(y) <= Has(x) + SecondLocks(x)
  {
    hide CanPay, Complete, ReservationFits, Runs, BarrierLocks;
  }

  lemma WriteKeeps(s: Server, t: nat)
    requires Inv(s) && t in s.txns && AtWrite(s.txns[t]) && Free(s, t, SecondLocks(s.txns[t]))
    requires SecondRead(s.db, s.txns[t]).Some?
    ensures Inv(Go(s, t, SecondLocks(s.txns[t]), Ready(SecondRead(s.db, s.txns[t]).value)))
  {
    hide Inv, Free, SecondLocks, SecondRead, TxnOk, Has;
    TxnAt(s, t);
    SecondReadOk(s.db, s.txns[t]);
    GoKeeps(s, t, SecondLocks(s.txns[t]), Ready(SecondRead(s.db, s.txns[t]).value));
  }

  lemma PublishPayments(db: Db, m: Msg, change: Change)
    ensures Publish(db, m, change).payments == db.payments
  {
  }

  lemma CommitKeeps(s: Server, t: nat)
    requires Inv(s) && t in s.txns && AtCommit(s.txns[t])
    ensures Inv(End(s, t).(db := Publish(s.db, s.txns[t].m, ChangeOf(s.txns[t]))))
  {
    hide TxnOk, Has, Publish, PartSame;
    var x := s.txns[t];
    var db := Publish(s.db, x.m, ChangeOf(x));
    PublishPayments(s.db, x.m, ChangeOf(x));
    EndKeeps(s, t);
    forall u | u in s.txns && u != t
      ensures TxnOk(db, s.txns[u])
    {
      OtherStays(s, t, u);
    }
    SameExclusive(End(s, t), db);
  }

  lemma SameExclusive(s: Server, db: Db)
    requires Exclusive(s)
    ensures Exclusive(s.(db := db))
  {
    forall t: nat
      ensures HeldBy(s.(db := db), t) == HeldBy(s, t)
    {
    }
  }

  /** A commit leaves what another transaction has read as it was. */
  lemma OtherStays(s: Server, t: nat, u: nat)
    requires Inv(s) && t in s.txns && u in s.txns && u != t && AtCommit(s.txns[t])
    ensures TxnOk(Publish(s.db, s.txns[t].m, ChangeOf(s.txns[t])), s.txns[u])
  {
    hide TxnOk, Has, Publish, PartSame;
    var x := s.txns[t];
    var db := Publish(s.db, x.m, ChangeOf(x));
    TxnAt(s, t);
    TxnAt(s, u);
    PublishPayments(s.db, x.m, ChangeOf(x));
    forall l | l in Has(s.txns[u])
      ensures PartSame(s.db, db, l)
    {
      assert l in HeldBy(s, u) && l !in HeldBy(s, t);
      PublishLocal(s.db, x, l);
    }
    TxnStays(s.db, db, s.txns[u]);
  }

  /**
   Every step of every transaction keeps the invariant, and changes the tables by one whole delivery or not at all; a
   transaction that gives up at a check is one whose delivery would be refused there and then.
   */
  lemma DoKeeps(s: Server, e: Event)
    requires Inv(s)
    ensures Inv(Do(s, e))
    ensures Do(s, e).db == (if e.Commits? && e.t in s.txns && AtCommit(s.txns[e.t]) then After(s.db, s.txns[e.t].m)
                            else s.db)
    ensures (e.Reads? || e.Writes?) && e.t in s.txns && e.t !in Do(s, e).txns ==> Deliver(s.db, s.txns[e.t].m).Rejected?
  {
    hide Inv, Free, FirstRead, SecondRead, FirstLocks, SecondLocks, BarrierLocks, Publish, After, Deliver, Runs, TxnOk,
      Has;
    var t := e.t;
    if e.Opens? {
      if t !in s.txns {
        OpenKeeps(s, t, e.m);
      }
    } else if t in s.txns {
      var x := s.txns[t];
      TxnAt(s, t);
      EndKeeps(s, t);
      match e
      case Bars(_) => if x.stage.Waiting? && Free(s, t, BarrierLocks(x.m)) { BarKeeps(s, t); }
      case Reads(_) =>
        if AtRead(x) && Free(s, t, FirstLocks(x.m)) {
          if FirstRead(s.db, x.m).Some? {
            ReadKeeps(s, t);
          } else {
            BarredRuns(s.db, x);
            FirstRefusal(s.db, x.m);
          }
        }
      case Writes(_) =>
        if AtWrite(x) && Free(s, t, SecondLocks(x)) {
          if SecondRead(s.db, x).Some? {
            WriteKeeps(s, t);
          } else {
            SecondRefusal(s.db, x);
          }
        }
      case Commits(_) =>
        if AtCommit(x) {
          CommitKeeps(s, t);
          CommitIsDelivery(s.db, x);
        }
      case _ => {}
    }
  }

  lemma BarredRuns(db: Db, x: Txn)
    requires TxnOk(db, x) && AtRead(x)
    ensures Runs(db, x.m)
  {
  }

  lemma OpenKeeps(s: Server, t: nat, m: Msg)
    requires Inv(s) && t !in s.txns
    ensures Inv(s.(txns := s.txns[t := Txn(m, Waiting)]))
  {
    var r := s.(txns := s.txns[t := Txn(m, Waiting)]);
    hide TxnOk;
    ExclusiveFrom(s, r, t, {});
    hide Exclusive, Has;
    forall u | u in r.txns
      ensures TxnOk(r.db, r.txns[u]) && Has(r.txns[u]) <= HeldBy(r, u)
    {
      if u == t {
        WaitingOk(r.db, m);
      } else {
        assert Has(s.txns[u]) <= HeldBy(s, u);
      }
    }
  }

  lemma WaitingOk(db: Db, m: Msg)
    ensures TxnOk(db, Txn(m, Waiting)) && Has(Txn(m, Waiting)) == {}
  {
  }

  // ---- Every run ----

  ghost function Run(s: Server, events: seq<Event>): Server
    decreases |events|
  {
    if events == [] then s else Run(Do(s, events[0]), events[1..])
  }

  /** The calls whose transactions commit in a run, in the order of their commits. */
  ghost function Committed(s: Server, events: seq<Event>): seq<Msg>
    decreases |events|
  {
    if events == [] then []
    else
      var e := events[0];
      (if e.Commits? && e.t in s.txns && AtCommit(s.txns[e.t]) then [s.txns[e.t].m] else [])
      + Committed(Do(s, e), events[1..])
  }

  /**
   However transactions interleave, the tables end as the committed calls alone would leave them, one after another.
   */
  lemma {:induction false} Serializable(s: Server, events: seq<Event>)
    requires Inv(s)
    ensures Inv(Run(s, events)) && Run(s, events).db == D.Arrive(s.db, Committed(s, events))
    decreases |events|
  {
    hide Inv, Do, After;
    if events != [] {
      var e, next := events[0], Do(s, events[0]);
      DoKeeps(s, e);
      Serializable(next, events[1..]);
      var rest := Committed(next, events[1..]);
      if e.Commits? && e.t in s.txns && AtCommit(s.txns[e.t]) {
        assert Committed(s, events) == [s.txns[e.t].m] + rest && ([s.txns[e.t].m] + rest)[1..] == rest;
      } else {
        assert Committed(s, events) == rest;
      }
    }
  }

  /** So money is conserved under every interleaving, on every account. */
  lemma InterleavingsConserve(db: Db, events: seq<Event>, opening: map<string, int>)
    requires S.RowsMarked(db) && H.Conserved(S.BookOf(db), opening)
    ensures H.Conserved(S.BookOf(Run(Server(db, map[], map[]), events).db), opening)
  {
    hide H.Conserved, S.BookOf, S.RowsMarked, Run;
    var s := Server(db, map[], map[]);
    Serializable(s, events);
    S.DeliveriesConserve(db, Committed(s, events), opening);
  }

  // ---- Every delivery can run ----

  /** The locks a delivery may come to need on these tables. */
  function Demands(db: Db, m: Msg): set<Lockable> {
    BarrierLocks(m) + FirstLocks(m) + {ReservationLock(m.request.gid), ReservedLock(m.request.paymentId)}
    + if m.request.gid in db.reservations then {AccountLock(db.reservations[m.request.gid].accountId)} else {}
  }

  lemma RunFirst(s: Server, e: Event, rest: seq<Event>)
    ensures Run(s, [e] + rest) == Run(Do(s, e), rest) && Run(s, []) == s
  {
    hide Do;
    assert ([e] + rest)[1..] == rest;
  }

  lemma {:induction false} RunIdle(s: Server, t: nat, events: seq<Event>)
    requires t !in s.txns && forall i :: 0 <= i < |events| ==> events[i].t == t && !events[i].Opens?
    ensures Run(s, events) == s
    decreases |events|
  {
    if events != [] {
      RunIdle(s, t, events[1..]);
    }
  }

  /** The rest of a transaction whose locks nobody else holds leaves the tables as its delivery would. */
  lemma CommitRuns(s: Server, t: nat)
    requires Inv(s) && t in s.txns && AtCommit(s.txns[t])
    ensures Run(s, [Commits(t)]).db == After(s.db, s.txns[t].m) && t !in Run(s, [Commits(t)]).txns
  {
    hide Inv, After, Publish, TxnOk;
    TxnAt(s, t);
    CommitIsDelivery(s.db, s.txns[t]);
    RunFirst(s, Commits(t), []);
    RunFirst(Do(s, Commits(t)), Commits(t), []);
    assert [Commits(t)] + [] == [Commits(t)];
  }

  lemma WriteRuns(s: Server, t: nat)
    requires Inv(s) && t in s.txns && AtWrite(s.txns[t]) && Free(s, t, SecondLocks(s.txns[t]))
    ensures Run(s, [Writes(t), Commits(t)]).db == After(s.db, s.txns[t].m)
    ensures t !in Run(s, [Writes(t), Commits(t)]).txns
  {
    hide Inv, Free, SecondLocks, SecondRead, Deliver, Publish, Run;
    RunFirst(s, Writes(t), [Commits(t)]);
    assert [Writes(t)] + [Commits(t)] == [Writes(t), Commits(t)];
    DoKeeps(s, Writes(t));
    if SecondRead(s.db, s.txns[t]).Some? {
      CommitRuns(Do(s, Writes(t)), t);
    } else {
      RunIdle(Do(s, Writes(t)), t, [Commits(t)]);
    }
  }

  lemma ReadRuns(s: Server, t: nat)
    requires Inv(s) && t in s.txns && AtRead(s.txns[t]) && Free(s, t, Demands(s.db, s.txns[t].m))
    ensures Run(s, [Reads(t), Writes(t), Commits(t)]).db == After(s.db, s.txns[t].m)
    ensures t !in Run(s, [Reads(t), Writes(t), Commits(t)]).txns
  {
    hide Inv, Deliver, Publish, Run, Free, FirstLocks, FirstRead, BarrierLocks, After;
    FreeLess(s, t, Demands(s.db, s.txns[t].m), FirstLocks(s.txns[t].m));
    RunFirst(s, Reads(t), [Writes(t), Commits(t)]);
    assert [Reads(t)] + [Writes(t), Commits(t)] == [Reads(t), Writes(t), Commits(t)];
    DoKeeps(s, Reads(t));
    var r := Do(s, Reads(t));
    if FirstRead(s.db, s.txns[t].m).Some? {
      ReadThen(s, t);
      if AtWrite(r.txns[t]) {
        WriteRuns(r, t);
      } else {
        RunFirst(r, Writes(t), [Commits(t)]);
        assert [Writes(t)] + [Commits(t)] == [Writes(t), Commits(t)];
        CommitRuns(r, t);
      }
    } else {
      RefusedAfter(s.db, s.txns[t].m);
      RunIdle(r, t, [Writes(t), Commits(t)]);
    }
  }

  lemma RefusedAfter(db: Db, m: Msg)
    requires Deliver(db, m).Rejected?
    ensures After(db, m) == db
  {
    hide Deliver;
  }

  lemma FreeLess(s: Server, t: nat, more: set<Lockable>, fewer: set<Lockable>)
    requires Free(s, t, more) && fewer <= more
    ensures Free(s, t, fewer)
  {
    hide HeldBy;
  }

  /** After its first read a transaction still finds its further locks free. */
  lemma ReadThen(s: Server, t: nat)
    requires Inv(s) && t in s.txns && AtRead(s.txns[t]) && Free(s, t, Demands(s.db, s.txns[t].m))
    requires Free(s, t, FirstLocks(s.txns[t].m)) && FirstRead(s.db, s.txns[t].m).Some?
    ensures var r := Do(s, Reads(t));
      && t in r.txns && r.db == s.db && r.txns[t].m == s.txns[t].m && (AtWrite(r.txns[t]) || r.txns[t].stage.Ready?)
      && (AtWrite(r.txns[t]) ==> Free(r, t, SecondLocks(r.txns[t])))
  {
    hide Inv, Free, Demands, SecondLocks, CanPay, Complete, LedgerRowFits;
    var m, r := s.txns[t].m, Do(s, Reads(t));
    if AtWrite(r.txns[t]) {
      SecondDemands(s.db, r.txns[t]);
      FreeLess(s, t, Demands(s.db, m), SecondLocks(r.txns[t]));
      StillFree(s, r, t, SecondLocks(r.txns[t]));
    }
  }

  lemma SecondDemands(db: Db, x: Txn)
    requires AtWrite(x) && FirstRead(db, x.m) == Some(x.stage)
    ensures SecondLocks(x) <= Demands(db, x.m)
  {
    hide CanPay, Complete, LedgerRowFits, BarrierLocks, FirstLocks;
  }

  lemma StillFree(s: Server, r: Server, t: nat, needs: set<Lockable>)
    requires Free(s, t, needs) && forall u: nat :: u != t ==> HeldBy(r, u) == HeldBy(s, u)
    ensures Free(r, t, needs)
  {
    hide HeldBy;
  }

  lemma OpensAndBars(s: Server, t: nat, m: Msg)
    requires Inv(s) && t !in s.txns && Free(s, t, Demands(s.db, m))
    ensures var r := Do(Do(s, Opens(t, m)), Bars(t));
      && t in r.txns && r.db == s.db && r.txns[t] == Txn(m, Barred(Runs(s.db, m))) && Free(r, t, Demands(s.db, m))
  {
    hide Inv, Free, Runs, BarrierLocks, FirstLocks;
    var begun := Do(s, Opens(t, m));
    FreeLess(s, t, Demands(s.db, m), BarrierLocks(m));
    StillFree(s, begun, t, BarrierLocks(m));
    StillFree(s, Do(begun, Bars(t)), t, Demands(s.db, m));
  }

  /**
   Whatever others are in the middle of, a delivery whose rows nobody else has locked runs to its end: it leaves the
   tables as the whole delivery does, committed or refused.
   */
  lemma UnlockedRuns(s: Server, t: nat, m: Msg)
    requires Inv(s) && t !in s.txns && Free(s, t, Demands(s.db, m))
    ensures var r := Run(s, [Opens(t, m), Bars(t), Reads(t), Writes(t), Commits(t)]);
      r.db == After(s.db, m) && t !in r.txns
  {
    hide Inv, Run, Do, Free, Demands, After, Runs;
    var begun := Do(s, Opens(t, m));
    var barred := Do(begun, Bars(t));
    var rest := [Reads(t), Writes(t), Commits(t)];
    RunFirst(s, Opens(t, m), [Bars(t)] + rest);
    RunFirst(begun, Bars(t), rest);
    assert [Opens(t, m)] + ([Bars(t)] + rest) == [Opens(t, m), Bars(t), Reads(t), Writes(t), Commits(t)];
    DoKeeps(s, Opens(t, m));
    DoKeeps(begun, Bars(t));
    OpensAndBars(s, t, m);
    if barred.txns[t].stage == Barred(true) {
      ReadRuns(barred, t);
    } else {
      SkipsAndCommits(barred, t);
    }
  }

  /** A transaction the barrier skips reads and writes nothing and commits. */
  lemma SkipsAndCommits(s: Server, t: nat)
    requires Inv(s) && t in s.txns && s.txns[t].stage == Barred(false)
    ensures Run(s, [Reads(t), Writes(t), Commits(t)]).db == After(s.db, s.txns[t].m)
    ensures t !in Run(s, [Reads(t), Writes(t), Commits(t)]).txns
  {
    hide Inv, Run, After, Free, FirstRead, SecondRead;
    RunFirst(s, Reads(t), [Writes(t)] + [Commits(t)]);
    RunFirst(s, Writes(t), [Commits(t)]);
    assert [Reads(t)] + ([Writes(t)] + [Commits(t)]) == [Reads(t), Writes(t), Commits(t)];
    CommitRuns(s, t);
  }
}

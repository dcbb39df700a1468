/** The account participant, with its barrier, is the abstract hold / commit / release account, call by call. */
module SqlAccounts {
  import opened Domain
  import opened Tables
  import opened BranchRules
  import opened DeliveryCollapse
  import opened AccountBook
  import H = HoldAccount

  /** The gids whose Try was claimed by a Cancel: the Try row is there and no reservation is. */
  function Refused(barrier: map<BarrierKey, Op>, reservations: map<string, Reservation>): set<string> {
    set k | k in barrier && k.branch.AccountBranch? && k.op.Try? && k.gid !in reservations :: k.gid
  }

  function BookOf(db: Db): H.Book {
    H.Book(Balances(db.accounts), Holds(db.reservations), Refused(db.barrier, db.reservations))
  }

  function AccountKey(gid: string, op: Op): BarrierKey {
    BarrierKey(gid, AccountBranch, op)
  }

  /** Every reservation stands beside the Try row that was written with it. */
  ghost predicate RowsMarked(db: Db) {
    forall g :: g in db.reservations ==> AccountKey(g, Try) in db.barrier
  }

  /** A Try that the table's keys and the request's own fields do not rule out. */
  predicate TryAdmissible(db: Db, q: Request) {
    && Complete(q) && q.paymentId in db.payments
    && (forall g :: g in db.reservations && g != q.gid ==> db.reservations[g].paymentId != q.paymentId)
  }

  /** The abstract action that a delivery to the account participant amounts to. */
  function ActionOf(db: Db, m: Msg): Option<H.Action> {
    var q := m.request;
    if m.branch.LedgerBranch? then None
    else match m.op
      case Try => if TryAdmissible(db, q) then Some(H.Place(q.gid, q.accountId, q.amount)) else None
      case Confirm => if OwnsRow(db, m) && KeyOf(m) !in db.barrier then Some(H.Commit(q.gid)) else None
      case Cancel =>
        if ClaimsTry(db, m) || (OwnsRow(db, m) && KeyOf(m) !in db.barrier) then Some(H.Release(q.gid)) else None
  }

  /** Whether a gid is refused is read off its own Try row and reservation. */
  lemma RefusedIs(barrier: map<BarrierKey, Op>, reservations: map<string, Reservation>, g: string)
    ensures g in Refused(barrier, reservations) <==> AccountKey(g, Try) in barrier && g !in reservations
  {
    assert AccountKey(g, Try).gid == g;
  }

  /** One more barrier row refuses one more gid, if it is an account Try with no reservation. */
  lemma RefusedInsert(barrier: map<BarrierKey, Op>, reservations: map<string, Reservation>, k: BarrierKey, reason: Op)
    ensures Refused(Insert(barrier, k, reason), reservations)
         == Refused(barrier, reservations)
            + if k.branch.AccountBranch? && k.op.Try? && k.gid !in reservations then {k.gid} else {}
  {
    forall g
      ensures g in Refused(Insert(barrier, k, reason), reservations) <==>
        g in Refused(barrier, reservations) || (k == AccountKey(g, Try) && g !in reservations)
    {
      RefusedIs(barrier, reservations, g);
      RefusedIs(Insert(barrier, k, reason), reservations, g);
    }
  }

  /** Rewriting a reservation refuses nothing; the first one of a gid takes that gid out. */
  lemma RefusedWrite(barrier: map<BarrierKey, Op>, reservations: map<string, Reservation>, g: string, row: Reservation)
    ensures Refused(barrier, reservations[g := row]) == Refused(barrier, reservations) - {g}
  {
    forall x
      ensures x in Refused(barrier, reservations[g := row]) <==> x in Refused(barrier, reservations) && x != g
    {
      RefusedIs(barrier, reservations, x);
      RefusedIs(barrier, reservations[g := row], x);
    }
  }

  /** Writing one reservation and moving its account is one abstract change. */
  lemma WriteIsChange(db: Db, after: Db, g: string, row: Reservation, available: int, frozen: int)
    requires row.accountId in db.accounts
    requires after == Shift(db, row.accountId, available, frozen).(reservations := db.reservations[g := row])
    requires g !in Refused(db.barrier, db.reservations)
    ensures BookOf(after) == H.Change(BookOf(db), g, HoldOf(row), available, frozen)
  {
    HoldsUpdate(db.reservations, g, row);
    RefusedWrite(db.barrier, db.reservations, g, row);
    var a := db.accounts[row.accountId];
    BalancesUpdate(db.accounts, row.accountId, a.(available := a.available + available, frozen := a.frozen + frozen));
  }

  lemma MarkedRows(db: Db, m: Msg)
    requires RowsMarked(db)
    ensures RowsMarked(Marked(db, m))
    ensures m.branch.AccountBranch? && ClaimsTry(db, m) ==> m.request.gid !in db.reservations
  {
    assert m.request.gid in db.reservations ==> AccountKey(m.request.gid, Try) in db.barrier;
  }

  /** The gids that a call's barrier rows refuse. */
  function NewlyRefused(db: Db, m: Msg): set<string> {
    if m.branch.AccountBranch? && (m.op.Try? || ClaimsTry(db, m)) && m.request.gid !in db.reservations
    then {m.request.gid} else {}
  }

  lemma MarkedRefused(db: Db, m: Msg)
    ensures Refused(Marked(db, m).barrier, db.reservations)
        == Refused(db.barrier, db.reservations) + NewlyRefused(db, m)
  {
    RefusedIs(db.barrier, db.reservations, m.request.gid);
    hide Insert, Refused;
    var claimed := if m.op.Cancel? then Insert(db.barrier, TryKey(m), Cancel) else db.barrier;
    RefusedInsert(db.barrier, db.reservations, TryKey(m), Cancel);
    RefusedInsert(claimed, db.reservations, KeyOf(m), m.op);
  }

  /** What the barrier rows alone do to the abstract account: a claimed Try refuses its gid, nothing else shows. */
  lemma MarkSimulates(db: Db, m: Msg)
    requires RowsMarked(db)
    ensures RowsMarked(Marked(db, m))
    ensures BookOf(Marked(db, m)) == BookOf(db).(refused := BookOf(db).refused + NewlyRefused(db, m))
    ensures m.branch.AccountBranch? && ClaimsTry(db, m) ==> m.request.gid !in db.reservations
  {
    hide Insert, Refused, Balances, Holds, RowsMarked;
    MarkedRows(db, m);
    MarkedRefused(db, m);
  }

  lemma TrySimulates(db: Db, m: Msg)
    requires RowsMarked(db) && m.branch.AccountBranch? && m.op.Try?
    ensures BookOf(After(db, m)) == Maybe(BookOf(db), ActionOf(db, m)) && RowsMarked(After(db, m))
  {
    var q, marked, gid := m.request, Marked(db, m), m.request.gid;
    RefusedIs(db.barrier, db.reservations, gid);
    if KeyOf(m) in db.barrier {
      assert marked == db;
    } else if AccountTry(marked, q).Applied? {
      TryWrites(db, m);
    }
  }

  lemma TryWrites(db: Db, m: Msg)
    requires RowsMarked(db) && m.branch.AccountBranch? && m.op.Try?
    requires KeyOf(m) !in db.barrier && AccountTry(Marked(db, m), m.request).Applied?
    ensures BookOf(After(db, m)) == Maybe(BookOf(db), ActionOf(db, m)) && RowsMarked(After(db, m))
  {
    var q := m.request;
    var row := Reservation(q.paymentId, q.accountId, q.amount, Frozen);
    HoldsUpdate(db.reservations, q.gid, row);
    RefusedInsert(db.barrier, db.reservations, KeyOf(m), Try);
    RefusedWrite(Marked(db, m).barrier, db.reservations, q.gid, row);
    RefusedIs(db.barrier, db.reservations, q.gid);
    var a := db.accounts[q.accountId];
    BalancesUpdate(db.accounts, q.accountId, a.(available := a.available - q.amount, frozen := a.frozen + q.amount));
  }

  /** Under conservation a held amount is covered by its account's frozen balance. */
  lemma Covered(db: Db, g: string, opening: map<string, int>)
    requires H.Conserved(BookOf(db), opening)
    requires g in db.reservations && db.reservations[g].state.Frozen?
    ensures var row := db.reservations[g];
      row.accountId in db.accounts && db.accounts[row.accountId].frozen >= row.amount
  {
    var b := BookOf(db);
    assert g in b.holds && b.holds[g] == HoldOf(db.reservations[g]);
    H.Bounded(b, opening, b.holds[g].account, g);
  }

  lemma SettleWrites(db: Db, m: Msg, state: ReservationState)
    requires m.branch.AccountBranch? && state == (if m.op.Confirm? then Confirmed else Cancelled)
    requires HoldsMoney(db, m.request) && m.request.gid !in Refused(db.barrier, db.reservations)
    requires AccountSettle(db, m.request, state).Applied?
    ensures var gid := m.request.gid;
      BookOf(AccountSettle(db, m.request, state).db)
          == H.Act(BookOf(db), if m.op.Confirm? then H.Commit(gid) else H.Release(gid))
  {
    hide H.Change, Refused;
    var gid := m.request.gid;
    var row := db.reservations[gid];
    var returned := if state.Cancelled? then row.amount else 0;
    WriteIsChange(db, AccountSettle(db, m.request, state).db, gid, row.(state := state), returned, -row.amount);
    assert BookOf(db).holds[gid] == HoldOf(row);
    assert HoldOf(row.(state := state)) == HoldOf(row).(phase := PhaseOf(state));
  }

  /** A Confirm or Cancel that runs and finds money held settles it. */
  lemma SettleRuns(db: Db, m: Msg, opening: map<string, int>)
    requires RowsMarked(db) && m.branch.AccountBranch? && !m.op.Try?
    requires H.Conserved(BookOf(db), opening)
    requires Runs(db, m) && HoldsMoney(db, m.request)
    ensures BookOf(After(db, m)) == Maybe(BookOf(db), ActionOf(db, m)) && RowsMarked(After(db, m))
  {
    hide H.Conserved, H.Change, Marked, Refused;
    var q, marked := m.request, Marked(db, m);
    assert marked == db.(barrier := marked.barrier) by { MarkedOnly(db, m); }
    MarkSimulates(db, m);
    Covered(db, q.gid, opening);
    RefusedIs(marked.barrier, marked.reservations, q.gid);
    SettleWrites(marked, m, if m.op.Confirm? then Confirmed else Cancelled);
    assert BookOf(marked) == BookOf(db);
    assert ActionOf(db, m) == Some(if m.op.Confirm? then H.Commit(q.gid) else H.Release(q.gid));
    assert After(db, m) == AccountSettle(marked, q, if m.op.Confirm? then Confirmed else Cancelled).db;
  }

  /** Any other Confirm or Cancel leaves its barrier rows only. */
  lemma SettleSkips(db: Db, m: Msg)
    requires RowsMarked(db) && m.branch.AccountBranch? && !m.op.Try?
    requires !(Runs(db, m) && HoldsMoney(db, m.request))
    ensures BookOf(After(db, m)) == Maybe(BookOf(db), ActionOf(db, m)) && RowsMarked(After(db, m))
  {
    hide Marked, Refused, RowsMarked;
    assert Marked(db, m) == db.(barrier := Marked(db, m).barrier) by { MarkedOnly(db, m); }
    MarkSimulates(db, m);
    RefusedIs(db.barrier, db.reservations, m.request.gid);
    assert After(db, m) == Marked(db, m);
  }

  lemma SettleSimulates(db: Db, m: Msg, opening: map<string, int>)
    requires RowsMarked(db) && m.branch.AccountBranch? && !m.op.Try?
    requires H.Conserved(BookOf(db), opening)
    ensures BookOf(After(db, m)) == Maybe(BookOf(db), ActionOf(db, m)) && RowsMarked(After(db, m))
  {
    hide H.Conserved, After, BookOf, RowsMarked;
    if Runs(db, m) && HoldsMoney(db, m.request) {
      SettleRuns(db, m, opening);
    } else {
      SettleSkips(db, m);
    }
  }

  lemma MarkedOnly(db: Db, m: Msg)
    ensures Marked(db, m) == db.(barrier := Marked(db, m).barrier)
  {
  }

  /** The ledger's business code leaves what the abstract account is made of. */
  lemma LedgerOnly(db: Db, q: Request, state: EntryState)
    ensures var e := LedgerTry(db, q);
      e.Applied? ==> e.db.accounts == db.accounts && e.db.reservations == db.reservations && e.db.barrier == db.barrier
    ensures var e := LedgerSettle(db, q, state);
      e.Applied? ==> e.db.accounts == db.accounts && e.db.reservations == db.reservations && e.db.barrier == db.barrier
  {
    hide LedgerRowFits;
  }

  lemma LedgerSimulates(db: Db, m: Msg)
    requires RowsMarked(db) && m.branch.LedgerBranch?
    ensures BookOf(After(db, m)) == BookOf(db) && RowsMarked(After(db, m))
  {
    hide Marked, LedgerTry, LedgerSettle, Balances, Holds, Refused;
    MarkSimulates(db, m);
    LedgerOnly(Marked(db, m), m.request, if m.op.Confirm? then Posted else Voided);
  }

  /** One delivery, whatever it is and however late, is one abstract action or none. */
  lemma DeliverySimulates(db: Db, m: Msg, opening: map<string, int>)
    requires RowsMarked(db) && H.Conserved(BookOf(db), opening)
    ensures BookOf(After(db, m)) == Maybe(BookOf(db), ActionOf(db, m))
    ensures RowsMarked(After(db, m)) && H.Conserved(BookOf(After(db, m)), opening)
  {
    hide H.Conserved, BookOf, RowsMarked, After, TryAdmissible, OwnsRow;
    if m.branch.LedgerBranch? {
      LedgerSimulates(db, m);
    } else if m.op.Try? {
      TrySimulates(db, m);
    } else {
      SettleSimulates(db, m, opening);
    }
    if ActionOf(db, m).Some? {
      H.ActConserves(BookOf(db), ActionOf(db, m).value, opening);
    }
  }

  /** Money is conserved over every sequence of deliveries, with every balance between zero and its opening. */
  lemma {:induction false} DeliveriesConserve(db: Db, ms: seq<Msg>, opening: map<string, int>)
    requires RowsMarked(db) && H.Conserved(BookOf(db), opening)
    ensures RowsMarked(Arrive(db, ms)) && H.Conserved(BookOf(Arrive(db, ms)), opening)
    decreases |ms|
  {
    hide H.Conserved, BookOf, RowsMarked, After;
    if ms != [] {
      DeliverySimulates(db, ms[0], opening);
      DeliveriesConserve(After(db, ms[0]), ms[1..], opening);
    }
  }

  /** The participant's "invariant violated" error and its zero-rows failure can never be answered. */
  lemma NeverViolated(db: Db, m: Msg, opening: map<string, int>)
    requires RowsMarked(db) && H.Conserved(BookOf(db), opening)
    ensures Deliver(db, m) != Rejected(InvariantViolated)
  {
    hide H.Conserved;
    if m.branch.AccountBranch? && HoldsMoney(db, m.request) {
      Covered(db, m.request.gid, opening);
    }
  }

  // ---- What every row is ----

  /** A reservation is of a complete request for a known account and payment, and the only one of its payment. */
  ghost predicate ReservationsOk(rows: map<string, Reservation>, payments: set<string>, accounts: set<string>) {
    && (forall g :: g in rows ==>
          && g != "" && rows[g].paymentId != "" && rows[g].accountId != "" && rows[g].amount > 0
          && rows[g].paymentId in payments && rows[g].accountId in accounts)
    && (forall g, h | g in rows && h in rows :: rows[g].paymentId == rows[h].paymentId ==> g == h)
  }

  ghost predicate EntriesOk(rows: map<string, LedgerRow>, payments: set<string>) {
    && (forall g :: g in rows ==>
          && g != "" && rows[g].paymentId != "" && rows[g].accountId != "" && rows[g].amount > 0
          && rows[g].paymentId in payments)
    && (forall g, h | g in rows && h in rows :: rows[g].paymentId == rows[h].paymentId ==> g == h)
  }

  ghost predicate RowsOk(db: Db) {
    ReservationsOk(db.reservations, db.payments.Keys, db.accounts.Keys) && EntriesOk(db.ledger, db.payments.Keys)
  }

  lemma TryRowsOk(db: Db, q: Request)
    requires RowsOk(db) && AccountTry(db, q).Applied?
    ensures RowsOk(AccountTry(db, q).db)
  {
    hide EntriesOk;
    assert Shift(db, q.accountId, -q.amount, q.amount).accounts.Keys == db.accounts.Keys;
  }

  lemma SettleRowsOk(db: Db, q: Request, state: ReservationState)
    requires RowsOk(db) && AccountSettle(db, q, state).Applied?
    ensures RowsOk(AccountSettle(db, q, state).db)
  {
    hide EntriesOk;
    assert AccountSettle(db, q, state).db.accounts.Keys == db.accounts.Keys;
  }

  lemma LedgerRowsOk(db: Db, q: Request, state: EntryState)
    requires RowsOk(db)
    ensures LedgerTry(db, q).Applied? ==> RowsOk(LedgerTry(db, q).db)
    ensures RowsOk(LedgerSettle(db, q, state).db)
  {
    hide ReservationsOk;
  }

  lemma DeliveryRowsOk(db: Db, m: Msg)
    requires RowsOk(db)
    ensures RowsOk(After(db, m))
  {
    hide Marked, AccountTry, AccountSettle, LedgerTry, LedgerSettle, ReservationsOk, EntriesOk;
    var marked := Marked(db, m);
    MarkedOnly(db, m);
    assert RowsOk(marked);
    if Business(marked, m).Applied? {
      if m.branch.LedgerBranch? {
        LedgerRowsOk(marked, m.request, if m.op.Confirm? then Posted else Voided);
      } else if m.op.Try? {
        TryRowsOk(marked, m.request);
      } else {
        SettleRowsOk(marked, m.request, if m.op.Confirm? then Confirmed else Cancelled);
      }
    }
  }

  /**
   Over every sequence of deliveries, whoever sent them: no reservation or ledger row is of an incomplete request, of an
   unknown payment or account, or the second one of its payment.
   */
  lemma {:induction false} DeliveriesRowsOk(db: Db, ms: seq<Msg>)
    requires RowsOk(db)
    ensures RowsOk(Arrive(db, ms))
    decreases |ms|
  {
    hide RowsOk, After;
    if ms != [] {
      DeliveryRowsOk(db, ms[0]);
      DeliveriesRowsOk(After(db, ms[0]), ms[1..]);
    }
  }
}

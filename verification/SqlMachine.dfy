/**
 The account participant behind its barrier carries out the request machine: one Confirm of a gid acts, and every
 Cancel.
 */
module SqlMachine {
  import opened Domain
  import opened Tables
  import opened BranchRules
  import opened RequestMachine
  import H = HoldAccount
  import S = SqlAccounts
  import D = DeliveryCollapse

  /** Each request's gid stands for a payment of its own. */
  predicate Paying(orders: map<string, Order>, pays: map<string, string>) {
    && orders.Keys == pays.Keys
    && (forall g :: g in pays ==> pays[g] != "")
    && (forall g, h | g in pays && h in pays :: pays[g] == pays[h] ==> g == h)
  }

  function MsgOf(orders: map<string, Order>, pays: map<string, string>, step: Step): Msg
    requires step.id in orders && orders.Keys == pays.Keys
  {
    var op := if step.verb.Hold? then Try else if Confirms(step) then Confirm else Cancel;
    Msg(AccountBranch, op, Request(pays[step.id], step.id, orders[step.id].account, orders[step.id].amount, false))
  }

  function SqlAll(db: Db, orders: map<string, Order>, pays: map<string, string>, steps: seq<Step>): Db
    requires AllAbout(orders, steps) && orders.Keys == pays.Keys
    decreases |steps|
  {
    if steps == [] then db else SqlAll(After(db, MsgOf(orders, pays, steps[0])), orders, pays, steps[1..])
  }

  /**
   The barrier rows of a request: its Confirm row says that its commit is spent, its Cancel row that nothing is held.
   */
  ghost predicate BarrierOk(db: Db, id: string, spent: set<(string, string)>) {
    && (S.AccountKey(id, Confirm) in db.barrier <==> (id, "") in spent)
    && (S.AccountKey(id, Cancel) in db.barrier ==>
          S.AccountKey(id, Try) in db.barrier && D.StageOf(db, id, AccountBranch) != D.Open)
    && (S.AccountKey(id, Try) in db.barrier && id !in db.reservations ==> S.AccountKey(id, Cancel) in db.barrier)
  }

  predicate OwnRows(db: Db, pays: map<string, string>) {
    forall g :: g in db.reservations ==> g in pays && db.reservations[g].paymentId == pays[g]
  }

  ghost predicate SqlImplements(
    db: Db, orders: map<string, Order>, pays: map<string, string>, m: Machine, opening: map<string, int>)
  {
    && Paying(orders, pays) && S.RowsMarked(db) && H.Conserved(S.BookOf(db), opening) && S.BookOf(db) == m.book
    && OwnRows(db, pays)
    && (forall id :: id in orders ==> pays[id] in db.payments && BarrierOk(db, id, m.spent))
  }

  lemma SqlBook(
    db: Db, orders: map<string, Order>, pays: map<string, string>, m: Machine, opening: map<string, int>, step: Step)
    requires Placed(orders) && SqlImplements(db, orders, pays, m, opening) && step.id in orders
    ensures S.RowsMarked(After(db, MsgOf(orders, pays, step)))
    ensures H.Conserved(S.BookOf(After(db, MsgOf(orders, pays, step))), opening)
    ensures S.BookOf(After(db, MsgOf(orders, pays, step))) == Perform(SqlMode, orders, m, step).book
  {
    hide H.Conserved, S.BookOf, S.RowsMarked, After, H.Act;
    S.DeliverySimulates(db, MsgOf(orders, pays, step), opening);
    assert BarrierOk(db, step.id, m.spent);
    CommitsAgree(db, step.id);
    ReleasesAgree(db, step.id, m.spent);
  }

  /** Committing what was never held does nothing. */
  lemma CommitsAgree(db: Db, id: string)
    ensures id !in db.reservations ==> H.Act(S.BookOf(db), H.Commit(id)) == S.BookOf(db)
  {
  }

  /** A repeated Cancel, and a Cancel of what the barrier already refuses, does nothing. */
  lemma ReleasesAgree(db: Db, id: string, spent: set<(string, string)>)
    requires BarrierOk(db, id, spent)
    ensures S.AccountKey(id, Cancel) in db.barrier ==> H.Act(S.BookOf(db), H.Release(id)) == S.BookOf(db)
    ensures S.AccountKey(id, Try) in db.barrier && id !in db.reservations ==>
        H.Act(S.BookOf(db), H.Release(id)) == S.BookOf(db)
  {
    S.RefusedIs(db.barrier, db.reservations, id);
    var b := S.BookOf(db);
    if S.AccountKey(id, Try) in db.barrier && id !in db.reservations {
      assert id in b.refused && b.refused + {id} == b.refused;
    }
  }

  /** A call that is answered well leaves exactly its own barrier rows; one that is rejected leaves nothing. */
  lemma BarrierAfter(db: Db, m: Msg)
    ensures Deliver(db, m).Applied? ==> After(db, m).barrier == Marked(db, m).barrier
    ensures Deliver(db, m).Rejected? ==> After(db, m) == db
  {
    hide Business, Insert;
    D.BusinessIgnoresBarrier(Marked(db, m), m, map[]);
  }

  /** What account business leaves alone: payments, barrier, and the reservations of other requests. */
  ghost predicate Apart(db: Db, db': Db, gid: string) {
    && db'.payments == db.payments && db'.barrier == db.barrier
    && (forall id :: id != gid ==>
          (id in db'.reservations <==> id in db.reservations)
          && (id in db.reservations ==> db'.reservations[id] == db.reservations[id]))
  }

  lemma TryApart(db: Db, q: Request)
    ensures AccountTry(db, q).Applied? ==> Apart(db, AccountTry(db, q).db, q.gid)
  {
    hide CanPay, ReservationFits;
  }

  lemma SettleApart(db: Db, q: Request, state: ReservationState)
    ensures AccountSettle(db, q, state).Applied? ==> Apart(db, AccountSettle(db, q, state).db, q.gid)
  {
  }

  lemma AfterApart(db: Db, m: Msg)
    requires m.branch.AccountBranch?
    ensures After(db, m).payments == db.payments
    ensures Apart(db.(barrier := After(db, m).barrier), After(db, m), m.request.gid)
  {
    hide AccountTry, AccountSettle, Insert, Runs;
    var marked := Marked(db, m);
    TryApart(marked, m.request);
    SettleApart(marked, m.request, Confirmed);
    SettleApart(marked, m.request, Cancelled);
  }

  lemma MarkedElsewhere(db: Db, m: Msg, id: string, op: Op)
    requires m.request.gid != id
    ensures S.AccountKey(id, op) in Marked(db, m).barrier <==> S.AccountKey(id, op) in db.barrier
  {
  }

  /** The barrier rows and the reservation of one request are not touched by a call of another one. */
  lemma OthersAfter(db: Db, m: Msg, id: string, op: Op)
    requires m.branch.AccountBranch? && m.request.gid != id
    ensures S.AccountKey(id, op) in After(db, m).barrier <==> S.AccountKey(id, op) in db.barrier
    ensures id in After(db, m).reservations <==> id in db.reservations
    ensures id in db.reservations ==> After(db, m).reservations[id] == db.reservations[id]
  {
    hide Deliver, Marked, After;
    AfterApart(db, m);
    BarrierAfter(db, m);
    MarkedElsewhere(db, m, id, op);
  }

  lemma TryAfter(db: Db, m: Msg, spent: set<(string, string)>)
    requires m.branch.AccountBranch? && m.op.Try? && BarrierOk(db, m.request.gid, spent)
    ensures BarrierOk(After(db, m), m.request.gid, spent)
  {
    hide CanPay, ReservationFits;
  }

  lemma ConfirmAfter(db: Db, m: Msg, spent: set<(string, string)>)
    requires m.branch.AccountBranch? && m.op.Confirm? && BarrierOk(db, m.request.gid, spent)
    requires Deliver(db, m) != Rejected(InvariantViolated)
    ensures BarrierOk(After(db, m), m.request.gid, spent + {(m.request.gid, "")})
  {
  }

  lemma CancelAfter(db: Db, m: Msg, spent: set<(string, string)>)
    requires m.branch.AccountBranch? && m.op.Cancel? && BarrierOk(db, m.request.gid, spent)
    requires Deliver(db, m) != Rejected(InvariantViolated)
    requires m.request.gid in db.reservations ==>
      db.reservations[m.request.gid].paymentId == m.request.paymentId && S.AccountKey(m.request.gid, Try) in db.barrier
    ensures BarrierOk(After(db, m), m.request.gid, spent)
  {
  }

  /** What a call leaves in the barrier and the reservation of a request. */
  lemma SqlOrder(
    db: Db, orders: map<string, Order>, pays: map<string, string>, m: Machine, opening: map<string, int>, step: Step,
        id: string)
    requires SqlImplements(db, orders, pays, m, opening) && step.id in orders && id in orders
    ensures pays[id] in After(db, MsgOf(orders, pays, step)).payments
    ensures BarrierOk(After(db, MsgOf(orders, pays, step)), id, Perform(SqlMode, orders, m, step).spent)
  {
    hide H.Conserved, S.BookOf, H.Act, After, Deliver, BarrierOk;
    var msg := MsgOf(orders, pays, step);
    S.NeverViolated(db, msg, opening);
    AfterApart(db, msg);
    if step.id == id {
      if step.verb.Hold? {
        TryAfter(db, msg, m.spent);
        assert m.spent + {} == m.spent;
      } else if Confirms(step) {
        ConfirmAfter(db, msg, m.spent);
        assert (id, "") in m.spent ==> m.spent + {(id, "")} == m.spent;
      } else {
        CancelAfter(db, msg, m.spent);
        assert m.spent + {} == m.spent;
      }
    } else {
      assert m.spent + {} == m.spent;
      BarrierElsewhere(db, msg, id, m.spent);
      SpentElsewhere(After(db, msg), id, m.spent, step.id);
    }
  }

  lemma BarrierElsewhere(db: Db, m: Msg, id: string, spent: set<(string, string)>)
    requires m.branch.AccountBranch? && m.request.gid != id && BarrierOk(db, id, spent)
    ensures BarrierOk(After(db, m), id, spent)
  {
    hide After;
    OthersAfter(db, m, id, Try);
    OthersAfter(db, m, id, Confirm);
    OthersAfter(db, m, id, Cancel);
  }

  lemma SpentElsewhere(db: Db, id: string, spent: set<(string, string)>, other: string)
    requires BarrierOk(db, id, spent) && other != id
    ensures BarrierOk(db, id, spent + {(other, "")})
  {
  }

  lemma SqlOwners(db: Db, orders: map<string, Order>, pays: map<string, string>, step: Step)
    requires step.id in orders && orders.Keys == pays.Keys && OwnRows(db, pays)
    ensures OwnRows(After(db, MsgOf(orders, pays, step)), pays)
  {
  }

  lemma SqlKeeps(
    db: Db, orders: map<string, Order>, pays: map<string, string>, m: Machine, opening: map<string, int>, step: Step)
    requires Placed(orders) && SqlImplements(db, orders, pays, m, opening) && step.id in orders
    ensures SqlImplements(After(db, MsgOf(orders, pays, step)), orders, pays, Perform(SqlMode, orders, m, step),
                          opening)
  {
    hide H.Conserved, S.BookOf, S.RowsMarked, H.Act, BarrierOk, After, Perform, Placed;
    var after := After(db, MsgOf(orders, pays, step));
    SqlBook(db, orders, pays, m, opening, step);
    SqlOwners(db, orders, pays, step);
    forall id | id in orders
      ensures pays[id] in after.payments && BarrierOk(after, id, Perform(SqlMode, orders, m, step).spent)
    {
      SqlOrder(db, orders, pays, m, opening, step, id);
    }
  }

  /**
   Calls of any kind, in any order and with any repetitions: the participant carries out the machine, call by call.
   */
  lemma {:induction false} SqlRefines(
    db: Db, orders: map<string, Order>, pays: map<string, string>, m: Machine, opening: map<string, int>,
        steps: seq<Step>)
    requires Placed(orders) && SqlImplements(db, orders, pays, m, opening) && AllAbout(orders, steps)
    ensures SqlImplements(SqlAll(db, orders, pays, steps), orders, pays, PerformAll(SqlMode, orders, m, steps), opening)
    decreases |steps|
  {
    hide H.Conserved, S.BookOf, S.RowsMarked, BarrierOk, OwnRows, After, Perform, Placed;
    if steps != [] {
      SqlKeeps(db, orders, pays, m, opening, steps[0]);
      SqlRefines(After(db, MsgOf(orders, pays, steps[0])), orders, pays, Perform(SqlMode, orders, m, steps[0]),
                 opening, steps[1..]);
    }
  }
}

/** internal/participant: the two branch services as transactions that change the database in place. */
module Participant {
  import opened Domain
  import opened Tables
  import BranchRules

  datatype Answer = Done | Refused(reason: Rejection)

  /** How a transaction that keeps its writes only on success relates to its rule. */
  ghost predicate Follows(e: Effect, answer: Answer, now: Db) {
    && (e.Applied? <==> answer.Done?)
    && (e.Applied? ==> now == e.db)
    && (e.Rejected? ==> answer == Refused(e.reason))
  }

  method AccountTry(tx: Database, q: Request) returns (answer: Answer)
    modifies tx
    ensures Follows(BranchRules.AccountTry(old(tx.State()), q), answer, tx.State())
  {
    if q.paymentId == "" || q.gid == "" || q.accountId == "" || q.amount <= 0 {
      return Refused(Failure);
    }
    if q.accountId !in tx.accounts {
      return Refused(Failure);
    }
    var account := tx.accounts[q.accountId];
    if account.available < q.amount {
      return Refused(Failure);
    }
    if q.gid in tx.reservations || (exists g :: g in tx.reservations && tx.reservations[g].paymentId == q.paymentId)
       || q.paymentId !in tx.payments {
      return Refused(SqlError);
    }
    tx.reservations := tx.reservations[q.gid := Reservation(q.paymentId, q.accountId, q.amount, Frozen)];
    // The row is locked since the read, so the guarded update always finds its one row.
    assert tx.accounts[q.accountId].available >= q.amount;
    tx.accounts := tx.accounts[q.accountId :=
        account.(available := account.available - q.amount, frozen := account.frozen + q.amount)];
    return Done;
  }

  method AccountConfirm(tx: Database, q: Request) returns (answer: Answer)
    modifies tx
    ensures Follows(BranchRules.AccountSettle(old(tx.State()), q, Confirmed), answer, tx.State())
  {
    if q.gid !in tx.reservations || tx.reservations[q.gid].paymentId != q.paymentId {
      return Done;
    }
    var row := tx.reservations[q.gid];
    if row.state == Confirmed {
      return Done;
    }
    if row.state != Frozen {
      return Done;
    }
    if row.accountId !in tx.accounts || tx.accounts[row.accountId].frozen < row.amount {
      return Refused(InvariantViolated);
    }
    var account := tx.accounts[row.accountId];
    tx.accounts := tx.accounts[row.accountId := account.(frozen := account.frozen - row.amount)];
    tx.reservations := tx.reservations[q.gid := row.(state := Confirmed)];
    return Done;
  }

  method AccountCancel(tx: Database, q: Request) returns (answer: Answer)
    modifies tx
    ensures Follows(BranchRules.AccountSettle(old(tx.State()), q, Cancelled), answer, tx.State())
  {
    if q.gid !in tx.reservations || tx.reservations[q.gid].paymentId != q.paymentId {
      return Done;
    }
    var row := tx.reservations[q.gid];
    if row.state == Cancelled || row.state != Frozen {
      return Done;
    }
    if row.accountId !in tx.accounts || tx.accounts[row.accountId].frozen < row.amount {
      return Refused(InvariantViolated);
    }
    var account := tx.accounts[row.accountId];
    tx.accounts := tx.accounts[row.accountId :=
        account.(available := account.available + row.amount, frozen := account.frozen - row.amount)];
    tx.reservations := tx.reservations[q.gid := row.(state := Cancelled)];
    return Done;
  }

  method LedgerTry(tx: Database, q: Request) returns (answer: Answer)
    modifies tx
    ensures Follows(BranchRules.LedgerTry(old(tx.State()), q), answer, tx.State())
  {
    if q.failTry {
      return Refused(Failure);
    }
    if q.paymentId == "" || q.gid == "" || q.accountId == "" || q.amount <= 0 {
      return Refused(Failure);
    }
    if q.gid in tx.ledger || (exists g :: g in tx.ledger && tx.ledger[g].paymentId == q.paymentId)
       || q.paymentId !in tx.payments {
      return Refused(SqlError);
    }
    tx.ledger := tx.ledger[q.gid := LedgerRow(q.paymentId, q.accountId, q.amount, Prepared)];
    return Done;
  }

  method LedgerConfirm(tx: Database, q: Request) returns (answer: Answer)
    modifies tx
    ensures Follows(BranchRules.LedgerSettle(old(tx.State()), q, Posted), answer, tx.State())
  {
    if q.gid in tx.ledger && tx.ledger[q.gid].paymentId == q.paymentId && tx.ledger[q.gid].state == Prepared {
      tx.ledger := tx.ledger[q.gid := tx.ledger[q.gid].(state := Posted)];
    }
    return Done;
  }

  method LedgerCancel(tx: Database, q: Request) returns (answer: Answer)
    modifies tx
    ensures Follows(BranchRules.LedgerSettle(old(tx.State()), q, Voided), answer, tx.State())
  {
    if q.gid in tx.ledger && tx.ledger[q.gid].paymentId == q.paymentId && tx.ledger[q.gid].state == Prepared {
      tx.ledger := tx.ledger[q.gid := tx.ledger[q.gid].(state := Voided)];
    }
    return Done;
  }

  method Business(tx: Database, m: BranchRules.Msg) returns (answer: Answer)
    modifies tx
    ensures Follows(BranchRules.Business(old(tx.State()), m), answer, tx.State())
  {
    match (m.branch, m.op)
    case (AccountBranch, Try) => answer := AccountTry(tx, m.request);
    case (AccountBranch, Confirm) => answer := AccountConfirm(tx, m.request);
    case (AccountBranch, Cancel) => answer := AccountCancel(tx, m.request);
    case (LedgerBranch, Try) => answer := LedgerTry(tx, m.request);
    case (LedgerBranch, Confirm) => answer := LedgerConfirm(tx, m.request);
    case (LedgerBranch, Cancel) => answer := LedgerCancel(tx, m.request);
  }

  /** INSERT IGNORE into the barrier table: the number of rows it added. */
  method InsertBarrier(tx: Database, k: BarrierKey, reason: Op) returns (affected: nat)
    modifies tx`barrier
    ensures affected == if k in old(tx.barrier) then 0 else 1
    ensures tx.barrier == BranchRules.Insert(old(tx.barrier), k, reason)
  {
    if k in tx.barrier {
      return 0;
    }
    tx.barrier := tx.barrier[k := reason];
    return 1;
  }

  /** BranchBarrier.CallWithDB: the barrier rows and the business writes commit together or are rolled back together. */
  method CallWithDB(tx: Database, m: BranchRules.Msg) returns (answer: Answer)
    modifies tx
    ensures var e := BranchRules.Deliver(old(tx.State()), m);
      && (e.Applied? <==> answer.Done?)
      && (e.Rejected? ==> answer == Refused(e.reason))
    ensures tx.State() == BranchRules.After(old(tx.State()), m)
  {
    var before := tx.State();
    var originAffected := 0;
    if m.op.Cancel? {
      originAffected := InsertBarrier(tx, BranchRules.TryKey(m), Cancel);
    }
    var currentAffected := InsertBarrier(tx, BranchRules.KeyOf(m), m.op);
    if originAffected > 0 || currentAffected == 0 {
      return Done;
    }
    answer := Business(tx, m);
    if answer.Refused? {
      tx.Rollback(before);
    }
  }

  datatype Reply = Http200 | Http400 | HttpError(reason: Rejection)

  /**
   branchHandler: a call on the wrong route or with a foreign gid changes nothing; any other goes through the barrier.
   */
  method BranchHandler(db: Database, branch: Branch, expectedOp: Op, queryOp: Op, queryGid: string,
                       q: Request) returns (reply: Reply)
    modifies db
    ensures reply == Http400 <==> queryOp != expectedOp || q.gid != queryGid
    ensures reply == Http400 ==> db.State() == old(db.State())
    ensures reply != Http400 ==> db.State() == BranchRules.After(old(db.State()),
                                                                 BranchRules.Msg(branch, expectedOp, q))
    ensures reply != Http400 ==>
      var e := BranchRules.Deliver(old(db.State()), BranchRules.Msg(branch, expectedOp, q));
      reply == (if e.Applied? then Http200 else HttpError(e.reason))
  {
    if queryOp != expectedOp {
      return Http400;
    }
    if q.gid != queryGid {
      return Http400;
    }
    var answer := CallWithDB(db, BranchRules.Msg(branch, expectedOp, q));
    match answer
    case Done => return Http200;
    case Refused(reason) => return HttpError(reason);
  }
}

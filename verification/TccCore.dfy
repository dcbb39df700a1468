/** What DTM, the network and the two participants keep together, one gid and branch at a time. */
module TccCore {
  import opened Domain
  import opened Tables
  import opened BranchRules
  import opened Dtm

  function Key(gid: string, branch: Branch, op: Op): BarrierKey {
    BarrierKey(gid, branch, op)
  }

  /** The Try itself wrote its barrier row, rather than a Cancel that came first. */
  predicate Tried(db: Db, gid: string, branch: Branch) {
    Key(gid, branch, Try) in db.barrier && db.barrier[Key(gid, branch, Try)] == Try
  }

  predicate Done(db: Db, gid: string, branch: Branch, op: Op) {
    Key(gid, branch, op) in db.barrier
  }

  /** Barrier rows exist only for ops that DTM's status allows, in an order that makes sense. */
  ghost predicate BarrierOk(db: Db, w: Wire, gid: string, branch: Branch) {
    && (Done(db, gid, branch, Try) ==> Registered(w, gid, branch))
    && (Done(db, gid, branch, Confirm) ==>
          Tried(db, gid, branch) && StatusOf(w, gid).Some? && w.txns[gid].status.Committing())
    && (Done(db, gid, branch, Cancel) ==> Done(db, gid, branch, Try) && w.txns[gid].status.Cancelling())
    && (Done(db, gid, branch, Try) && !Tried(db, gid, branch) ==> Done(db, gid, branch, Cancel))
  }

  /** A business row is there exactly when its Try ran, says what was registered, and stands where the barrier says. */
  ghost predicate RowOk(db: Db, w: Wire, gid: string, branch: Branch)
    requires BarrierOk(db, w, gid, branch)
  {
    match branch
    case AccountBranch =>
      && (gid in db.reservations <==> Tried(db, gid, branch))
      && (gid in db.reservations ==>
            var row, q := db.reservations[gid], w.txns[gid].branches[branch];
            && row.paymentId == q.paymentId && row.accountId == q.accountId && row.amount == q.amount
            && row.state == if Done(db, gid, branch, Confirm) then Confirmed
                            else if Done(db, gid, branch, Cancel) then Cancelled else Frozen)
    case LedgerBranch =>
      && (gid in db.ledger <==> Tried(db, gid, branch))
      && (gid in db.ledger ==>
            var row, q := db.ledger[gid], w.txns[gid].branches[branch];
            && row.paymentId == q.paymentId && row.accountId == q.accountId && row.amount == q.amount
            && row.state == if Done(db, gid, branch, Confirm) then Posted
                            else if Done(db, gid, branch, Cancel) then Voided else Prepared)
  }

  /** Success was answered only for work that is done, and a final status only after every branch answered. */
  ghost predicate AcksOk(db: Db, w: Wire, gid: string, branch: Branch) {
    && (forall op :: Key(gid, branch, op) in w.acks ==> Done(db, gid, branch, op))
    && (Registered(w, gid, branch) && w.txns[gid].status.Succeed? ==> Key(gid, branch, Confirm) in w.acks)
    && (Registered(w, gid, branch) && w.txns[gid].status.DtmFailed? ==> Key(gid, branch, Cancel) in w.acks)
  }

  /** Nothing is submitted before both Tries were answered with success. */
  ghost predicate SubmitOk(w: Wire, gid: string, branch: Branch) {
    AskSubmit(gid) in w.asks || (gid in w.txns && w.txns[gid].status.Committing()) ==> Key(gid, branch, Try) in w.acks
  }

  ghost predicate BranchOk(db: Db, w: Wire, gid: string, branch: Branch) {
    && BarrierOk(db, w, gid, branch)
    && RowOk(db, w, gid, branch)
    && AcksOk(db, w, gid, branch)
    && SubmitOk(w, gid, branch)
  }

  /**
   A call in the network was sent for a registered branch with its registered body, by a status that allows its op.
   */
  ghost predicate CallOk(w: Wire, m: Msg) {
    var gid := m.request.gid;
    && Registered(w, gid, m.branch) && w.txns[gid].branches[m.branch] == m.request
    && (m.op.Confirm? ==> w.txns[gid].status.Committing())
    && (m.op.Cancel? ==> w.txns[gid].status.Cancelling())
  }

  ghost predicate CallsOk(w: Wire) {
    forall m :: m in w.calls ==> CallOk(w, m)
  }

  /** Every registered body names its own transaction. */
  ghost predicate BodiesOk(w: Wire) {
    && (forall a :: a in w.asks && a.AskRegister? ==> a.request.gid == a.gid)
    && (forall g, b :: Registered(w, g, b) ==> w.txns[g].branches[b].gid == g)
  }

  ghost predicate Core(db: Db, w: Wire) {
    && CallsOk(w) && BodiesOk(w)
    && (forall g, b :: BranchOk(db, w, g, b))
  }

  /** One gid and branch sees the same tables and messages in both states, a later status of DTM's being allowed. */
  ghost predicate Unmoved(db: Db, w: Wire, db': Db, w': Wire, gid: string, branch: Branch) {
    && (forall op :: (Key(gid, branch, op) in db.barrier <==> Key(gid, branch, op) in db'.barrier)
                     && (Key(gid, branch, op) in db.barrier ==>
                         db'.barrier[Key(gid, branch, op)] == db.barrier[Key(gid, branch, op)])
                     && (Key(gid, branch, op) in w.acks <==> Key(gid, branch, op) in w'.acks))
    && (branch.AccountBranch? ==>
          && (gid in db.reservations <==> gid in db'.reservations)
          && (gid in db.reservations ==> db'.reservations[gid] == db.reservations[gid]))
    && (branch.LedgerBranch? ==>
          && (gid in db.ledger <==> gid in db'.ledger)
          && (gid in db.ledger ==> db'.ledger[gid] == db.ledger[gid]))
    && (gid in w.txns <==> gid in w'.txns)
    && (gid in w.txns ==> w'.txns[gid] == w.txns[gid])
    && (AskSubmit(gid) in w'.asks <==> AskSubmit(gid) in w.asks)
  }

  lemma UnmovedOk(db: Db, w: Wire, db': Db, w': Wire, gid: string, branch: Branch)
    requires BranchOk(db, w, gid, branch) && Unmoved(db, w, db', w', gid, branch)
    ensures BranchOk(db', w', gid, branch)
  {
    assert forall op :: Done(db', gid, branch, op) <==> Done(db, gid, branch, op);
    assert Tried(db', gid, branch) <==> Tried(db, gid, branch);
  }

  /** An ask other than a submit disturbs nothing. */
  lemma SendKeeps(db: Db, w: Wire, a: Ask)
    requires Core(db, w)
    requires a.AskRegister? ==> a.request.gid == a.gid
    requires a.AskSubmit? ==> forall b :: Key(a.gid, b, Try) in w.acks
    ensures Core(db, Send(w, a))
  {
    var w' := Send(w, a);
    forall g, b
      ensures BranchOk(db, w', g, b)
    {
      hide Unmoved;
      assert BranchOk(db, w, g, b);
      SendBranch(db, w, a, g, b);
    }
  }

  lemma SendBranch(db: Db, w: Wire, a: Ask, gid: string, branch: Branch)
    requires BranchOk(db, w, gid, branch)
    requires a.AskSubmit? ==> forall b :: Key(a.gid, b, Try) in w.acks
    ensures BranchOk(db, Send(w, a), gid, branch)
  {
  }

  /** A coordinator's Try goes to a branch it has registered. */
  lemma CallKeeps(db: Db, w: Wire, m: Msg)
    requires Core(db, w) && CallOk(w, m)
    ensures Core(db, Call(w, m))
  {
    var w' := Call(w, m);
    forall g, b
      ensures BranchOk(db, w', g, b)
    {
      assert BranchOk(db, w, g, b);
      UnmovedOk(db, w, db, w', g, b);
    }
  }

  lemma StatusBranch(db: Db, w: Wire, gid: string, branch: Branch, at: string, status: Status)
    requires BranchOk(db, w, gid, branch) && at in w.txns
    requires w.txns[at].status.DtmPrepared? || (w.txns[at].status.Submitted? && status.Succeed?)
             || (w.txns[at].status.Aborting? && status.DtmFailed?)
    requires status.Submitted? ==> AskSubmit(at) in w.asks
    requires status.Succeed? ==> w.txns[at].status.Submitted? && AllAcked(w, at, Confirm)
    requires status.DtmFailed? ==> w.txns[at].status.Aborting? && AllAcked(w, at, Cancel)
    ensures BranchOk(db, SetStatus(w, at, status), gid, branch)
  {
    var w' := SetStatus(w, at, status);
    if gid == at {
      assert Registered(w', gid, branch) <==> Registered(w, gid, branch);
    } else {
      UnmovedOk(db, w, db, w', gid, branch);
    }
  }

  /**
   DTM moves a transaction on: out of prepared to where it was asked to go, or to its final status once all answered.
   */
  lemma StatusKeeps(db: Db, w: Wire, at: string, status: Status)
    requires Core(db, w) && at in w.txns
    requires w.txns[at].status.DtmPrepared? || (w.txns[at].status.Submitted? && status.Succeed?)
             || (w.txns[at].status.Aborting? && status.DtmFailed?)
    requires status.Submitted? ==> AskSubmit(at) in w.asks
    requires status.Succeed? ==> w.txns[at].status.Submitted? && AllAcked(w, at, Confirm)
    requires status.DtmFailed? ==> w.txns[at].status.Aborting? && AllAcked(w, at, Cancel)
    ensures Core(db, SetStatus(w, at, status))
  {
    var w' := SetStatus(w, at, status);
    forall g, b
      ensures BranchOk(db, w', g, b)
    {
      assert BranchOk(db, w, g, b);
      StatusBranch(db, w, g, b, at, status);
    }
    hide BranchOk;
    forall m | m in w'.calls
      ensures CallOk(w', m)
    {
      assert CallOk(w, m);
    }
    forall g, b | Registered(w', g, b)
      ensures w'.txns[g].branches[b].gid == g
    {
      assert Registered(w, g, b);
    }
  }

  /** A new transaction or a new branch finds nothing done for it yet. */
  lemma RegisterBranch(db: Db, w: Wire, a: Ask, gid: string, branch: Branch)
    requires BranchOk(db, w, gid, branch) && (a.AskPrepare? || a.AskRegister?)
    ensures BranchOk(db, Serve(w, a), gid, branch)
  {
    if a.gid != gid {
      UnmovedOk(db, w, db, Serve(w, a), gid, branch);
    }
  }

  lemma ServeKeeps(db: Db, w: Wire, a: Ask)
    requires Core(db, w)
    ensures Core(db, Serve(w, a))
  {
    if a !in w.asks {
    } else if a.AskPrepare? || a.AskRegister? {
      var w' := Serve(w, a);
      forall g, b
        ensures BranchOk(db, w', g, b)
      {
        assert BranchOk(db, w, g, b);
        RegisterBranch(db, w, a, g, b);
      }
      RegisterCalls(w, a);
    } else if StatusOf(w, a.gid) == Some(DtmPrepared) {
      StatusKeeps(db, w, a.gid, if a.AskSubmit? then Submitted else Aborting);
    }
  }

  lemma RegisterCalls(w: Wire, a: Ask)
    requires CallsOk(w) && BodiesOk(w) && (a.AskPrepare? || a.AskRegister?)
    ensures CallsOk(Serve(w, a)) && BodiesOk(Serve(w, a))
  {
    var w' := Serve(w, a);
    forall m | m in w'.calls
      ensures CallOk(w', m)
    {
      assert CallOk(w, m);
    }
    forall g, b | Registered(w', g, b)
      ensures w'.txns[g].branches[b].gid == g
    {
      assert Registered(w, g, b) || (a.AskRegister? && a in w.asks && g == a.gid && b == a.branch);
    }
  }

  lemma TimeoutKeeps(db: Db, w: Wire, gid: string)
    requires Core(db, w)
    ensures Core(db, Timeout(w, gid))
  {
    if StatusOf(w, gid) == Some(DtmPrepared) {
      StatusKeeps(db, w, gid, Aborting);
    }
  }

  lemma FinishKeeps(db: Db, w: Wire, gid: string)
    requires Core(db, w)
    ensures Core(db, Finish(w, gid))
  {
    if gid !in w.txns {
    } else if w.txns[gid].status.Submitted? && AllAcked(w, gid, Confirm) {
      StatusKeeps(db, w, gid, Succeed);
    } else if w.txns[gid].status.Aborting? && AllAcked(w, gid, Cancel) {
      StatusKeeps(db, w, gid, DtmFailed);
    }
  }

  lemma DispatchKeeps(db: Db, w: Wire, gid: string, branch: Branch)
    requires Core(db, w)
    ensures Core(db, Dispatch(w, gid, branch))
  {
    if Registered(w, gid, branch) && w.txns[gid].status.Submitted? {
      CallKeeps(db, w, Msg(branch, Confirm, w.txns[gid].branches[branch]));
    } else if Registered(w, gid, branch) && w.txns[gid].status.Aborting? {
      CallKeeps(db, w, Msg(branch, Cancel, w.txns[gid].branches[branch]));
    }
  }

  /** A business effect touches one row of its own table, perhaps its account, and no barrier row. */
  ghost predicate Local(db: Db, e: Effect, m: Msg, gid: string) {
    e.Applied? ==>
      && e.db.barrier == db.barrier
      && (m.branch.AccountBranch? ==> e.db.ledger == db.ledger)
      && (m.branch.LedgerBranch? ==> e.db.reservations == db.reservations)
      && (gid != m.request.gid ==>
            && (gid in e.db.reservations <==> gid in db.reservations)
            && (gid in db.reservations ==> e.db.reservations[gid] == db.reservations[gid])
            && (gid in e.db.ledger <==> gid in db.ledger)
            && (gid in db.ledger ==> e.db.ledger[gid] == db.ledger[gid]))
  }

  lemma AccountLocal(db: Db, m: Msg, state: ReservationState, gid: string)
    requires m.branch.AccountBranch?
    ensures Local(db, AccountTry(db, m.request), m, gid)
    ensures Local(db, AccountSettle(db, m.request, state), m, gid)
  {
    hide ReservationFits, CanPay;
  }

  lemma LedgerLocal(db: Db, m: Msg, state: EntryState, gid: string)
    requires m.branch.LedgerBranch?
    ensures Local(db, LedgerTry(db, m.request), m, gid)
    ensures Local(db, LedgerSettle(db, m.request, state), m, gid)
  {
    hide LedgerRowFits;
  }

  lemma BusinessLocal(db: Db, m: Msg, gid: string)
    ensures Local(db, Business(db, m), m, gid)
  {
    hide Local, AccountTry, AccountSettle, LedgerTry, LedgerSettle;
    match m.branch
    case AccountBranch => AccountLocal(db, m, if m.op.Confirm? then Confirmed else Cancelled, gid);
    case LedgerBranch => LedgerLocal(db, m, if m.op.Confirm? then Posted else Voided, gid);
  }

  /** The barrier writes rows of its own gid and branch only. */
  lemma MarkedLocal(db: Db, m: Msg, gid: string, branch: Branch, op: Op)
    ensures Marked(db, m) == db.(barrier := Marked(db, m).barrier)
    ensures !(m.request.gid == gid && m.branch == branch) ==>
      && (Key(gid, branch, op) in Marked(db, m).barrier <==> Key(gid, branch, op) in db.barrier)
      && (Key(gid, branch, op) in db.barrier ==>
          Marked(db, m).barrier[Key(gid, branch, op)] == db.barrier[Key(gid, branch, op)])
  {
  }

  /** A delivery to another gid or branch leaves this one alone. */
  lemma DeliverElsewhere(db: Db, w: Wire, m: Msg, gid: string, branch: Branch)
    requires m in w.calls && !(m.request.gid == gid && m.branch == branch)
    ensures Unmoved(db, w, Reached(w, db, m), Answered(w, db, m), gid, branch)
  {
    hide Business, Marked;
    forall op {
      MarkedLocal(db, m, gid, branch, op);
    }
    MarkedLocal(db, m, gid, branch, Try);
    if Business(Marked(db, m), m).Applied? {
      BusinessLocal(Marked(db, m), m, gid);
    }
  }

  /** A repeated or dangling call is acknowledged and changes nothing. */
  lemma RepeatHere(db: Db, w: Wire, m: Msg)
    requires m in w.calls && KeyOf(m) in db.barrier && BranchOk(db, w, m.request.gid, m.branch)
    ensures BranchOk(Reached(w, db, m), Answered(w, db, m), m.request.gid, m.branch)
  {
    var gid, branch := m.request.gid, m.branch;
    assert Done(db, gid, branch, Cancel) ==> Done(db, gid, branch, Try);
    assert Reached(w, db, m) == db;
  }

  /** A Cancel before its Try claims the Try's row; no business row appears. */
  lemma ClaimHere(db: Db, w: Wire, m: Msg)
    requires m in w.calls && ClaimsTry(db, m) && CallOk(w, m) && BranchOk(db, w, m.request.gid, m.branch)
    ensures BranchOk(Reached(w, db, m), Answered(w, db, m), m.request.gid, m.branch)
  {
    assert KeyOf(m) !in db.barrier;
    assert Reached(w, db, m) == db.(barrier := db.barrier[TryKey(m) := Cancel][KeyOf(m) := Cancel]);
  }

  /** A refused call is rolled back and not acknowledged. */
  lemma RefusedHere(db: Db, w: Wire, m: Msg)
    requires BranchOk(db, w, m.request.gid, m.branch) && Deliver(db, m).Rejected?
    ensures BranchOk(Reached(w, db, m), Answered(w, db, m), m.request.gid, m.branch)
  {
    hide Business, Marked;
  }

  function Settle(row: Reservation, holds: bool, op: Op): Reservation {
    if !holds then row else row.(state := if op.Confirm? then Confirmed else Cancelled)
  }

  function Post(row: LedgerRow, q: Request, op: Op): LedgerRow {
    if row.paymentId != q.paymentId || !row.state.Prepared? then row
    else row.(state := if op.Confirm? then Posted else Voided)
  }

  /** What a first call that ran leaves at its own gid and branch: its barrier row, and its business row's new state. */
  ghost predicate Ran(db: Db, now: Db, m: Msg) {
    var gid, q := m.request.gid, m.request;
    && now.barrier == db.barrier[KeyOf(m) := m.op]
    && match m.branch
       case AccountBranch =>
         if m.op.Try? then gid in now.reservations
             && now.reservations[gid] == Reservation(q.paymentId, q.accountId, q.amount, Frozen)
         else
           && (gid in now.reservations <==> gid in db.reservations)
           && (gid in db.reservations ==>
                 now.reservations[gid] == Settle(db.reservations[gid], HoldsMoney(db, q), m.op))
       case LedgerBranch =>
         if m.op.Try? then gid in now.ledger && now.ledger[gid]
             == LedgerRow(q.paymentId, q.accountId, q.amount, Prepared)
         else
           && (gid in now.ledger <==> gid in db.ledger)
           && (gid in db.ledger ==> now.ledger[gid] == Post(db.ledger[gid], q, m.op))
  }

  lemma RunMarks(db: Db, m: Msg)
    requires Runs(db, m)
    ensures Marked(db, m) == db.(barrier := db.barrier[KeyOf(m) := m.op])
  {
  }

  lemma AccountRan(db: Db, m: Msg)
    requires m.branch.AccountBranch? && Runs(db, m) && Deliver(db, m).Applied?
    ensures Ran(db, After(db, m), m)
  {
    RunMarks(db, m);
    hide Marked, ReservationFits, LedgerTry, LedgerSettle;
  }

  lemma LedgerWrites(db: Db, q: Request, op: Op)
    ensures var e := LedgerTry(db, q);
      e.Applied? ==> e.db == db.(ledger := db.ledger[q.gid := LedgerRow(q.paymentId, q.accountId, q.amount, Prepared)])
    ensures var e := LedgerSettle(db, q, if op.Confirm? then Posted else Voided);
      e.db == (if q.gid in db.ledger then db.(ledger := db.ledger[q.gid := Post(db.ledger[q.gid], q, op)]) else db)
  {
    hide LedgerRowFits, Complete;
    assert q.gid in db.ledger ==> db.ledger[q.gid := db.ledger[q.gid]] == db.ledger;
  }

  lemma LedgerRan(db: Db, m: Msg)
    requires m.branch.LedgerBranch? && Runs(db, m) && Deliver(db, m).Applied?
    ensures Ran(db, After(db, m), m)
  {
    hide Marked, AccountTry, AccountSettle, LedgerTry, LedgerSettle, Post;
    RunMarks(db, m);
    LedgerWrites(Marked(db, m), m.request, m.op);
  }

  lemma RanHere(db: Db, w: Wire, m: Msg, now: Db)
    requires m in w.calls && CallOk(w, m) && BranchOk(db, w, m.request.gid, m.branch)
    requires Runs(db, m) && Ran(db, now, m)
    ensures BranchOk(now, w.(acks := w.acks + {KeyOf(m)}), m.request.gid, m.branch)
  {
    var gid, branch := m.request.gid, m.branch;
    assert m.op.Confirm? ==> Key(gid, branch, Try) in w.acks;
  }

  lemma DeliverHere(db: Db, w: Wire, m: Msg)
    requires m in w.calls && CallOk(w, m) && BranchOk(db, w, m.request.gid, m.branch)
    ensures BranchOk(Reached(w, db, m), Answered(w, db, m), m.request.gid, m.branch)
  {
    hide BranchOk, CallOk, Ran, Business, Marked;
    if ClaimsTry(db, m) {
      ClaimHere(db, w, m);
    } else if KeyOf(m) in db.barrier {
      RepeatHere(db, w, m);
    } else if Deliver(db, m).Rejected? {
      RefusedHere(db, w, m);
    } else {
      match m.branch {
        case AccountBranch => AccountRan(db, m);
        case LedgerBranch => LedgerRan(db, m);
      }
      RanHere(db, w, m, After(db, m));
    }
  }

  /** Delivering any call that is in the network, again or late, keeps everything. */
  lemma DeliverKeeps(db: Db, w: Wire, m: Msg)
    requires Core(db, w)
    ensures Core(Reached(w, db, m), Answered(w, db, m))
  {
    if m in w.calls {
      assert CallOk(w, m);
      var db', w' := Reached(w, db, m), Answered(w, db, m);
      hide BranchOk, Unmoved, CallOk, Reached, Answered;
      forall g, b
        ensures BranchOk(db', w', g, b)
      {
        assert BranchOk(db, w, g, b);
        if m.request.gid == g && m.branch == b {
          DeliverHere(db, w, m);
        } else {
          DeliverElsewhere(db, w, m, g, b);
          UnmovedOk(db, w, db', w', g, b);
        }
      }
      AnsweredCalls(db, w, m);
    }
  }

  lemma AnsweredCalls(db: Db, w: Wire, m: Msg)
    requires CallsOk(w) && BodiesOk(w)
    ensures CallsOk(Answered(w, db, m)) && BodiesOk(Answered(w, db, m))
  {
    var w' := Answered(w, db, m);
    assert forall g, b :: Registered(w', g, b) <==> Registered(w, g, b);
    forall x | x in w'.calls
      ensures CallOk(w', x)
    {
      assert CallOk(w, x);
    }
  }

  /** A coordinator transaction that leaves the participants' tables alone keeps everything. */
  lemma WriteKeeps(db: Db, w: Wire, db': Db)
    requires Core(db, w)
    requires db'.reservations == db.reservations && db'.ledger == db.ledger && db'.barrier == db.barrier
    ensures Core(db', w)
  {
    forall g, b
      ensures BranchOk(db', w, g, b)
    {
      assert BranchOk(db, w, g, b);
      UnmovedOk(db, w, db', w, g, b);
    }
  }
}

/** What only ever grows or settles in the distributed mode, and so may be read at different moments. */
module Progress {
  import opened Domain
  import opened Tables
  import opened BranchRules
  import opened Dtm
  import R = RepositoryRules

  /** A payment row keeps its request and its gid once it has one, and is never changed again once it has a verdict. */
  predicate RowLater(r: PaymentRow, r': PaymentRow) {
    && r'.orderId == r.orderId && r'.accountId == r.accountId && r'.amount == r.amount && r'.currency == r.currency
    && r'.key == r.key && r'.fingerprint == r.fingerprint
    && (r.gid.Some? ==> r'.gid == r.gid)
    && (r.status.Terminal() ==> r' == r)
  }

  ghost predicate PaymentsLater(db: Db, db': Db) {
    && (forall id :: id in db.payments ==> id in db'.payments && RowLater(db.payments[id], db'.payments[id]))
    && (forall k :: k in db.byKey ==> k in db'.byKey && db'.byKey[k] == db.byKey[k])
    && (forall g :: g in db.byGid ==> g in db'.byGid && db'.byGid[g] == db.byGid[g])
  }

  /** A settled reservation or ledger row stays as it is. */
  ghost predicate RowsLater(db: Db, db': Db) {
    && (forall g :: g in db.reservations && !db.reservations[g].state.Frozen? ==>
          g in db'.reservations && db'.reservations[g] == db.reservations[g])
    && (forall g :: g in db.ledger && !db.ledger[g].state.Prepared? ==>
          g in db'.ledger && db'.ledger[g] == db.ledger[g])
  }

  predicate StatusLater(t: Status, t': Status) {
    && (t.Succeed? ==> t'.Succeed?)
    && (t.DtmFailed? ==> t'.DtmFailed?)
    && (t.Committing() ==> t'.Committing())
    && (t.Cancelling() ==> t'.Cancelling())
  }

  /** Registered bodies stay, a decided transaction stays decided that way, answers stay answered. */
  ghost predicate WireLater(w: Wire, w': Wire) {
    && (forall g :: g in w.txns ==> g in w'.txns && StatusLater(w.txns[g].status, w'.txns[g].status))
    && (forall g, b :: Registered(w, g, b) ==> Registered(w', g, b) && w'.txns[g].branches[b] == w.txns[g].branches[b])
    && w.acks <= w'.acks
  }

  ghost predicate Later(db: Db, w: Wire, db': Db, w': Wire) {
    PaymentsLater(db, db') && RowsLater(db, db') && WireLater(w, w')
  }

  lemma LaterTransitive(db: Db, w: Wire, db': Db, w': Wire, db'': Db, w'': Wire)
    requires Later(db, w, db', w') && Later(db', w', db'', w'')
    ensures Later(db, w, db'', w'')
  {
  }

  lemma StatusSetLater(w: Wire, gid: string, status: Status)
    requires gid in w.txns && StatusLater(w.txns[gid].status, status)
    ensures WireLater(w, SetStatus(w, gid, status))
  {
    var w' := SetStatus(w, gid, status);
    assert forall g, b :: Registered(w, g, b) ==>
        Registered(w', g, b) && w'.txns[g].branches[b] == w.txns[g].branches[b];
  }

  lemma ServeLater(w: Wire, a: Ask)
    ensures WireLater(w, Serve(w, a))
  {
    if a in w.asks && !a.AskRegister? && !a.AskPrepare? && StatusOf(w, a.gid) == Some(DtmPrepared) {
      StatusSetLater(w, a.gid, if a.AskSubmit? then Submitted else Aborting);
    }
  }

  lemma FinishLater(w: Wire, gid: string)
    ensures WireLater(w, Finish(w, gid))
    ensures WireLater(w, Timeout(w, gid))
  {
    if gid in w.txns {
      match w.txns[gid].status
      case DtmPrepared => StatusSetLater(w, gid, Aborting);
      case Submitted => StatusSetLater(w, gid, Succeed);
      case Aborting => StatusSetLater(w, gid, DtmFailed);
      case _ =>
    }
  }

  lemma SendLater(w: Wire, a: Ask, m: Msg)
    ensures WireLater(w, Send(w, a)) && WireLater(w, Call(w, m))
  {
  }

  lemma DispatchLater(w: Wire, gid: string, branch: Branch)
    ensures WireLater(w, Dispatch(w, gid, branch))
  {
    if Registered(w, gid, branch) {
      SendLater(w, AskAbort(gid), Msg(branch, Confirm, w.txns[gid].branches[branch]));
      SendLater(w, AskAbort(gid), Msg(branch, Cancel, w.txns[gid].branches[branch]));
    }
  }

  ghost predicate EffectLater(db: Db, e: Effect) {
    e.Applied? ==> RowsLater(db, e.db) && PaymentsLater(db, e.db)
  }

  lemma AccountLater(db: Db, q: Request, state: ReservationState)
    ensures EffectLater(db, AccountTry(db, q)) && EffectLater(db, AccountSettle(db, q, state))
  {
    assert ReservationFits(db, q) ==> q.gid !in db.reservations;
    hide ReservationFits, CanPay;
  }

  lemma LedgerLater(db: Db, q: Request, state: EntryState)
    ensures EffectLater(db, LedgerTry(db, q)) && EffectLater(db, LedgerSettle(db, q, state))
  {
    assert LedgerRowFits(db, q) ==> q.gid !in db.ledger;
    hide LedgerRowFits;
  }

  lemma BusinessLater(db: Db, m: Msg)
    ensures EffectLater(db, Business(db, m))
  {
    hide EffectLater, AccountTry, AccountSettle, LedgerTry, LedgerSettle;
    match m.branch
    case AccountBranch => AccountLater(db, m.request, if m.op.Confirm? then Confirmed else Cancelled);
    case LedgerBranch => LedgerLater(db, m.request, if m.op.Confirm? then Posted else Voided);
  }

  lemma DeliverLater(db: Db, w: Wire, m: Msg)
    ensures Later(db, w, Reached(w, db, m), Answered(w, db, m))
  {
    hide Business, Insert;
    BusinessLater(Marked(db, m), m);
    assert RowsLater(db, Marked(db, m)) && PaymentsLater(db, Marked(db, m));
    AnsweredLater(db, w, m);
  }

  lemma AnsweredLater(db: Db, w: Wire, m: Msg)
    ensures WireLater(w, Answered(w, db, m))
  {
    hide Deliver;
  }

  lemma InsertLater(db: Db, id: string, row: PaymentRow)
    requires R.PaymentFits(db, id, row)
    ensures PaymentsLater(db, R.InsertPayment(db, id, row)) && RowsLater(db, R.InsertPayment(db, id, row))
  {
    hide R.LogOf, R.MaxSequence;
  }

  lemma BeginLater(db: Db, id: string, gid: string)
    requires R.CanBegin(db, id, gid) && R.Shaped(db)
    ensures PaymentsLater(db, R.BeginTCC(db, id, gid)) && RowsLater(db, R.BeginTCC(db, id, gid))
  {
    hide R.LogOf, R.MaxSequence;
  }

  lemma FinalizeLater(db: Db, id: string, status: PaymentStatus, reason: string)
    requires R.CanFinalize(db, id)
    ensures PaymentsLater(db, R.Finalize(db, id, status, reason)) && RowsLater(db, R.Finalize(db, id, status, reason))
  {
    hide R.LogOf, R.MaxSequence;
  }

  lemma RecordLater(db: Db, id: string, name: string)
    ensures PaymentsLater(db, R.RecordEvent(db, id, name)) && RowsLater(db, R.RecordEvent(db, id, name))
  {
    hide R.LogOf, R.MaxSequence;
  }
}

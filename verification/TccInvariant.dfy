/** The invariant of the distributed mode, and why every event keeps it. */
module TccInvariant {
  import opened Domain
  import opened Tables
  import opened Dtm
  import opened TccSystem
  import opened Progress
  import R = RepositoryRules
  import C = TccCore
  import S = SqlAccounts
  import H = HoldAccount
  import F = Fingerprint

  /** A branch body was made for the payment that carries its gid. */
  ghost predicate BodyMatches(db: Db, gid: string, q: Request) {
    && gid in db.byGid && db.byGid[gid] in db.payments
    && q.gid == gid && q.paymentId == db.byGid[gid]
    && q.accountId == db.payments[q.paymentId].accountId && q.amount == db.payments[q.paymentId].amount
  }

  ghost predicate BodiesMatch(db: Db, w: Wire) {
    && (forall a :: a in w.asks && a.AskRegister? ==> BodyMatches(db, a.gid, a.request))
    && (forall g, b :: Registered(w, g, b) ==> BodyMatches(db, g, w.txns[g].branches[b]))
  }

  /** A row carries the fingerprint of its own fields, and a terminal status was written on DTM's final word. */
  ghost predicate VerdictOk(w: Wire, row: PaymentRow) {
    && row.fingerprint == F.Payload(row.orderId, row.accountId, row.amount, row.currency)
    && (row.status.Success? ==> row.gid.Some? && StatusOf(w, row.gid.value) == Some(Succeed))
    && (row.status.Failed? ==> row.gid.Some? && StatusOf(w, row.gid.value) == Some(DtmFailed))
    && !row.status.Closed?
  }

  ghost predicate Verdicts(db: Db, w: Wire) {
    forall id :: id in db.payments ==> VerdictOk(w, db.payments[id])
  }

  /** What was seen of the three statuses and can only be seen once it is final is still so. */
  ghost predicate SightOk(db: Db, w: Wire, id: string, gid: string, v: Sighting) {
    && (v.reservation == Some(Confirmed) ==>
          gid in db.reservations && db.reservations[gid].paymentId == id && db.reservations[gid].state.Confirmed?)
    && (v.entry == Some(Posted) ==> gid in db.ledger && db.ledger[gid].paymentId == id && db.ledger[gid].state.Posted?)
    && (v.dtm == Some(Succeed) ==> StatusOf(w, gid) == Some(Succeed))
    && (v.dtm == Some(DtmFailed) ==> StatusOf(w, gid) == Some(DtmFailed))
  }

  /** The row came from this request. */
  predicate Mine(row: PaymentRow, call: CreateCall) {
    && row.orderId == call.orderId && row.accountId == call.accountId && row.amount == call.amount
    && row.currency == call.currency && row.key == call.key && row.fingerprint == Fingerprint(call)
  }

  predicate Carries(db: Db, id: string, gid: string) {
    id in db.payments && db.payments[id].gid == Some(gid)
  }

  ghost predicate OutcomeOk(db: Db, c: Creator, o: Outcome) {
    match o
    case Created => c.owns
    case Replayed(id) => !c.owns && R.Verified(db, id, c.call.key, Fingerprint(c.call))
    case Conflicted => !c.owns && R.Decide(db, c.call.key, Fingerprint(c.call)).Conflict?
    case Errored => true
  }

  /** What the place a Create has come to says about the tables and the messages. */
  ghost predicate StageOk(db: Db, w: Wire, c: Creator) {
    match c.stage
    case Beginning => c.owns
    case Preparing => c.owns && Carries(db, c.id, c.gid)
    case RegisteringAccount => c.owns && Carries(db, c.id, c.gid)
    case TryingAccount => c.owns && Carries(db, c.id, c.gid)
    case RegisteringLedger => c.owns && Carries(db, c.id, c.gid) && C.Key(c.gid, AccountBranch, Try) in w.acks
    case TryingLedger => c.owns && Carries(db, c.id, c.gid) && C.Key(c.gid, AccountBranch, Try) in w.acks
    case Submitting => c.owns && Carries(db, c.id, c.gid)
    case NotingAbort => c.owns && Carries(db, c.id, c.gid)
    case Polling(_, seen) => c.owns && Carries(db, c.id, c.gid) && SightOk(db, w, c.id, c.gid, seen)
    case Finalizing(success) =>
      c.owns && Carries(db, c.id, c.gid) && StatusOf(w, c.gid) == Some(if success then Succeed else DtmFailed)
    case Finished(o) => OutcomeOk(db, c, o)
    case _ => !c.owns
  }

  ghost predicate CreatorOk(db: Db, w: Wire, c: Creator) {
    && StageOk(db, w, c)
    && (c.owns ==> c.id in db.payments && Mine(db.payments[c.id], c.call))
  }

  ghost predicate ReconcilerOk(db: Db, w: Wire, r: Reconciler) {
    Carries(db, r.id, r.gid) && SightOk(db, w, r.id, r.gid, r.seen)
  }

  ghost predicate CreatorsOk(db: Db, w: Wire, creators: map<nat, Creator>) {
    && (forall t :: t in creators ==> CreatorOk(db, w, creators[t]))
    && (forall t, u ::
          t in creators && u in creators && creators[t].owns && creators[u].owns && creators[t].id == creators[u].id
          ==> t == u)
  }

  ghost predicate ReconcilersOk(db: Db, w: Wire, reconcilers: map<nat, Reconciler>) {
    forall o :: o in reconcilers ==> ReconcilerOk(db, w, reconcilers[o])
  }

  /** The accounts hold exactly what the reservations say, out of the opening balances. */
  ghost predicate Money(db: Db, opening: map<string, int>) {
    S.RowsMarked(db) && H.Conserved(S.BookOf(db), opening)
  }

  ghost predicate Inv(s: Sys, opening: map<string, int>) {
    && R.Sound(s.db)
    && C.Core(s.db, s.wire)
    && Money(s.db, opening)
    && BodiesMatch(s.db, s.wire)
    && Verdicts(s.db, s.wire)
    && CreatorsOk(s.db, s.wire, s.creators)
    && ReconcilersOk(s.db, s.wire, s.reconcilers)
  }

  // ---- What was true of a thread, a body or a verdict stays true later ----

  lemma SightLater(db: Db, w: Wire, db': Db, w': Wire, id: string, gid: string, v: Sighting)
    requires SightOk(db, w, id, gid, v) && Later(db, w, db', w')
    ensures SightOk(db', w', id, gid, v)
  {
  }

  lemma OutcomeLater(db: Db, w: Wire, db': Db, w': Wire, c: Creator, o: Outcome)
    requires OutcomeOk(db, c, o) && Later(db, w, db', w')
    ensures OutcomeOk(db', c, o)
  {
  }

  lemma CreatorLater(db: Db, w: Wire, db': Db, w': Wire, c: Creator)
    requires CreatorOk(db, w, c) && Later(db, w, db', w')
    ensures CreatorOk(db', w', c)
  {
    hide SightOk, OutcomeOk;
    assert PaymentsLater(db, db') && WireLater(w, w');
    match c.stage {
      case Polling(_, seen) => SightLater(db, w, db', w', c.id, c.gid, seen);
      case Finished(o) => OutcomeLater(db, w, db', w', c, o);
      case _ =>
    }
  }

  lemma CreatorsLater(db: Db, w: Wire, db': Db, w': Wire, creators: map<nat, Creator>)
    requires CreatorsOk(db, w, creators) && Later(db, w, db', w')
    ensures CreatorsOk(db', w', creators)
  {
    hide CreatorOk, Later;
    forall t | t in creators
      ensures CreatorOk(db', w', creators[t])
    {
      CreatorLater(db, w, db', w', creators[t]);
    }
  }

  lemma ReconcilersLater(db: Db, w: Wire, db': Db, w': Wire, reconcilers: map<nat, Reconciler>)
    requires ReconcilersOk(db, w, reconcilers) && Later(db, w, db', w')
    ensures ReconcilersOk(db', w', reconcilers)
  {
    hide SightOk;
    forall o | o in reconcilers
      ensures ReconcilerOk(db', w', reconcilers[o])
    {
      var r := reconcilers[o];
      SightLater(db, w, db', w', r.id, r.gid, r.seen);
    }
  }

  lemma BodyLater(db: Db, db': Db, gid: string, q: Request)
    requires BodyMatches(db, gid, q) && PaymentsLater(db, db')
    ensures BodyMatches(db', gid, q)
  {
  }

  lemma BodiesLater(db: Db, w: Wire, db': Db)
    requires BodiesMatch(db, w) && PaymentsLater(db, db')
    ensures BodiesMatch(db', w)
  {
    hide BodyMatches, PaymentsLater;
    forall a | a in w.asks && a.AskRegister?
      ensures BodyMatches(db', a.gid, a.request)
    {
      BodyLater(db, db', a.gid, a.request);
    }
    forall g, b | Registered(w, g, b)
      ensures BodyMatches(db', g, w.txns[g].branches[b])
    {
      BodyLater(db, db', g, w.txns[g].branches[b]);
    }
  }

  lemma VerdictsLater(db: Db, w: Wire, w': Wire)
    requires Verdicts(db, w) && WireLater(w, w')
    ensures Verdicts(db, w')
  {
    forall id | id in db.payments
      ensures VerdictOk(w', db.payments[id])
    {
      assert VerdictOk(w, db.payments[id]);
    }
  }

  // ---- The three kinds of change ----

  /** A change of the wire alone. */
  lemma WireStep(s: Sys, w': Wire, opening: map<string, int>)
    requires Inv(s, opening)
    requires C.Core(s.db, w') && BodiesMatch(s.db, w') && WireLater(s.wire, w')
    ensures Inv(s.(wire := w'), opening)
    ensures Later(s.db, s.wire, s.db, w')
  {
    hide R.Sound, C.Core, Money, BodiesMatch, Verdicts, CreatorsOk, ReconcilersOk, WireLater;
    SelfLater(s.db);
    VerdictsLater(s.db, s.wire, w');
    CreatorsLater(s.db, s.wire, s.db, w', s.creators);
    ReconcilersLater(s.db, s.wire, s.db, w', s.reconcilers);
  }

  lemma SelfLater(db: Db)
    ensures PaymentsLater(db, db) && RowsLater(db, db)
  {
  }

  lemma SelfWireLater(w: Wire)
    ensures WireLater(w, w)
  {
  }

  /** A coordinator transaction that leaves the participants' tables alone. */
  lemma DbStep(s: Sys, db': Db, opening: map<string, int>)
    requires Inv(s, opening)
    requires db'.reservations == s.db.reservations && db'.ledger == s.db.ledger && db'.barrier == s.db.barrier
    requires db'.accounts == s.db.accounts
    requires R.Sound(db') && Verdicts(db', s.wire)
    requires PaymentsLater(s.db, db') && RowsLater(s.db, db')
    ensures Inv(s.(db := db'), opening)
    ensures Later(s.db, s.wire, db', s.wire)
  {
    assert Money(db', opening) by { MoneySame(s.db, db', opening); }
    hide R.Sound, C.Core, Money, BodiesMatch, Verdicts, CreatorsOk, ReconcilersOk, PaymentsLater, RowsLater, WireLater;
    SelfWireLater(s.wire);
    C.WriteKeeps(s.db, s.wire, db');
    BodiesLater(s.db, s.wire, db');
    CreatorsLater(s.db, s.wire, db', s.wire, s.creators);
    ReconcilersLater(s.db, s.wire, db', s.wire, s.reconcilers);
  }

  lemma MoneySame(db: Db, db': Db, opening: map<string, int>)
    requires Money(db, opening)
    requires db'.reservations == db.reservations && db'.barrier == db.barrier && db'.accounts == db.accounts
    ensures Money(db', opening)
  {
    assert S.BookOf(db') == S.BookOf(db);
  }

  /** A Create moves on to a place that fits. */
  lemma CreatorStep(s: Sys, t: nat, c: Creator, opening: map<string, int>)
    requires Inv(s, opening)
    requires CreatorOk(s.db, s.wire, c)
    requires c.owns ==> forall u :: u in s.creators && u != t && s.creators[u].owns ==> s.creators[u].id != c.id
    ensures Inv(s.(creators := s.creators[t := c]), opening)
  {
    hide R.Sound, C.Core, Money, BodiesMatch, Verdicts, ReconcilersOk, CreatorOk;
  }

  /** The same Create moves on: it owns what it owned. */
  lemma GoStep(s: Sys, t: nat, stage: Stage, opening: map<string, int>)
    requires Inv(s, opening) && t in s.creators
    requires StageOk(s.db, s.wire, s.creators[t].(stage := stage))
    ensures Inv(Go(s, t, stage), opening)
  {
    hide R.Sound, C.Core, Money, BodiesMatch, Verdicts, ReconcilersOk, StageOk;
    assert CreatorOk(s.db, s.wire, s.creators[t]);
    CreatorStep(s, t, s.creators[t].(stage := stage), opening);
  }

  lemma ReconcilerStep(s: Sys, o: nat, r: Reconciler, opening: map<string, int>)
    requires Inv(s, opening) && ReconcilerOk(s.db, s.wire, r)
    ensures Inv(s.(reconcilers := s.reconcilers[o := r]), opening)
    ensures Inv(Drop(s, o), opening)
  {
    hide R.Sound, C.Core, Money, BodiesMatch, Verdicts, CreatorsOk, ReconcilerOk;
  }

  lemma DropStep(s: Sys, o: nat, opening: map<string, int>)
    requires Inv(s, opening)
    ensures Inv(Drop(s, o), opening)
  {
    hide R.Sound, C.Core, Money, BodiesMatch, Verdicts, CreatorsOk, ReconcilerOk;
  }
}

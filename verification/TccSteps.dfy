/** Every event of the distributed mode keeps the invariant and only moves forward. */
module TccSteps {
  import opened Domain
  import opened Tables
  import opened BranchRules
  import opened Dtm
  import opened TccSystem
  import opened Progress
  import opened TccInvariant
  import R = RepositoryRules
  import C = TccCore
  import S = SqlAccounts
  import H = HoldAccount

  /** The next state is as sound as this one, and nothing settled was unsettled. */
  ghost predicate Kept(s: Sys, s': Sys, opening: map<string, int>) {
    Inv(s', opening) && Later(s.db, s.wire, s'.db, s'.wire)
  }

  lemma SameKept(s: Sys, s': Sys, opening: map<string, int>)
    requires Inv(s', opening) && s'.db == s.db && s'.wire == s.wire
    ensures Kept(s, s', opening)
  {
    hide Inv, PaymentsLater, RowsLater, WireLater;
    SelfLater(s.db);
    SelfWireLater(s.wire);
  }

  // ---- Environment ----

  lemma BodiesServe(db: Db, w: Wire, a: Ask)
    requires BodiesMatch(db, w)
    ensures BodiesMatch(db, Serve(w, a)) && BodiesMatch(db, Timeout(w, a.gid)) && BodiesMatch(db, Finish(w, a.gid))
  {
    hide BodyMatches;
    forall w' | w' in {Serve(w, a), Timeout(w, a.gid), Finish(w, a.gid)}
      ensures BodiesMatch(db, w')
    {
      forall g, b | Registered(w', g, b)
        ensures BodyMatches(db, g, w'.txns[g].branches[b])
      {
        assert Registered(w, g, b) || (a in w.asks && a == AskRegister(g, b, w'.txns[g].branches[b]));
      }
    }
  }

  lemma BodiesCalls(db: Db, w: Wire, w': Wire)
    requires BodiesMatch(db, w) && w'.asks == w.asks && w'.txns == w.txns
    ensures BodiesMatch(db, w')
  {
    hide BodyMatches;
    forall g, b | Registered(w', g, b)
      ensures BodyMatches(db, g, w'.txns[g].branches[b])
    {
      assert Registered(w, g, b);
    }
  }

  lemma DtmStep(s: Sys, a: Ask, gid: string, branch: Branch, opening: map<string, int>)
    requires Inv(s, opening)
    ensures Kept(s, s.(wire := Serve(s.wire, a)), opening)
    ensures Kept(s, s.(wire := Timeout(s.wire, gid)), opening)
    ensures Kept(s, s.(wire := Finish(s.wire, gid)), opening)
    ensures Kept(s, s.(wire := Dispatch(s.wire, gid, branch)), opening)
  {
    hide R.Sound, C.Core, Money, BodiesMatch, Verdicts, CreatorsOk, ReconcilersOk, WireLater, PaymentsLater, RowsLater;
    hide Serve, Timeout, Finish;
    SelfLater(s.db);
    BodiesServe(s.db, s.wire, a);
    BodiesServe(s.db, s.wire, AskPrepare(gid));
    C.ServeKeeps(s.db, s.wire, a);
    ServeLater(s.wire, a);
    WireStep(s, Serve(s.wire, a), opening);
    C.TimeoutKeeps(s.db, s.wire, gid);
    FinishLater(s.wire, gid);
    WireStep(s, Timeout(s.wire, gid), opening);
    C.FinishKeeps(s.db, s.wire, gid);
    WireStep(s, Finish(s.wire, gid), opening);
    C.DispatchKeeps(s.db, s.wire, gid, branch);
    DispatchLater(s.wire, gid, branch);
    BodiesCalls(s.db, s.wire, Dispatch(s.wire, gid, branch));
    WireStep(s, Dispatch(s.wire, gid, branch), opening);
  }

  /** The coordinator's own tables are the same. */
  predicate SameCoordinator(db: Db, db': Db) {
    db'.payments == db.payments && db'.byKey == db.byKey && db'.byGid == db.byGid && db'.events == db.events
  }

  ghost predicate Foreign(db: Db, e: Effect) {
    e.Applied? ==> SameCoordinator(db, e.db)
  }

  lemma AccountForeign(db: Db, q: Request, state: ReservationState)
    ensures Foreign(db, AccountTry(db, q)) && Foreign(db, AccountSettle(db, q, state))
  {
    hide ReservationFits, CanPay;
  }

  lemma LedgerForeign(db: Db, q: Request, state: EntryState)
    ensures Foreign(db, LedgerTry(db, q)) && Foreign(db, LedgerSettle(db, q, state))
  {
    hide LedgerRowFits;
  }

  lemma BusinessForeign(db: Db, m: Msg)
    ensures Foreign(db, Business(db, m))
  {
    hide Foreign, AccountTry, AccountSettle, LedgerTry, LedgerSettle;
    match m.branch
    case AccountBranch => AccountForeign(db, m.request, if m.op.Confirm? then Confirmed else Cancelled);
    case LedgerBranch => LedgerForeign(db, m.request, if m.op.Confirm? then Posted else Voided);
  }

  lemma DeliveryForeign(db: Db, w: Wire, m: Msg)
    ensures SameCoordinator(db, Reached(w, db, m))
  {
    hide Business, Insert;
    BusinessForeign(Marked(db, m), m);
  }

  lemma SoundSame(db: Db, db': Db, w: Wire)
    requires R.Sound(db) && Verdicts(db, w) && SameCoordinator(db, db')
    ensures R.Sound(db') && Verdicts(db', w)
  {
    hide R.Faithful, VerdictOk;
  }

  lemma ArrivalStep(s: Sys, m: Msg, opening: map<string, int>)
    requires Inv(s, opening)
    ensures Kept(s, s.(db := Reached(s.wire, s.db, m), wire := Answered(s.wire, s.db, m)), opening)
  {
    var db', w' := Reached(s.wire, s.db, m), Answered(s.wire, s.db, m);
    hide R.Sound, C.Core, BodiesMatch, Verdicts, CreatorsOk, ReconcilersOk, WireLater, PaymentsLater, RowsLater;
    hide After, Deliver, H.Conserved, S.BookOf, S.RowsMarked;
    DeliverLater(s.db, s.wire, m);
    DeliveryForeign(s.db, s.wire, m);
    SoundSame(s.db, db', s.wire);
    C.DeliverKeeps(s.db, s.wire, m);
    S.DeliverySimulates(s.db, m, opening);
    BodiesCalls(s.db, s.wire, w');
    BodiesLater(s.db, w', db');
    VerdictsLater(db', s.wire, w');
    CreatorsLater(s.db, s.wire, db', w', s.creators);
    ReconcilersLater(s.db, s.wire, db', w', s.reconcilers);
  }

  // ---- Notes, verdicts and reconcilers ----

  lemma RecordStep(s: Sys, id: string, name: string, opening: map<string, int>)
    requires Inv(s, opening)
    ensures Kept(s, s.(db := R.RecordEvent(s.db, id, name)), opening)
  {
    hide R.Sound, C.Core, Money, BodiesMatch, CreatorsOk, ReconcilersOk, WireLater, PaymentsLater, RowsLater;
    hide VerdictOk, R.LogOf, R.MaxSequence;
    R.RecordSound(s.db, id, name);
    RecordLater(s.db, id, name);
    SelfWireLater(s.wire);
    DbStep(s, R.RecordEvent(s.db, id, name), opening);
  }

  /** DTM's final word on a payment's transaction justifies the matching verdict and no other. */
  ghost predicate Justified(s: Sys, id: string, success: bool) {
    && id in s.db.payments && s.db.payments[id].gid.Some?
    && StatusOf(s.wire, s.db.payments[id].gid.value) == Some(if success then Succeed else DtmFailed)
  }

  lemma FinalizeStep(s: Sys, id: string, success: bool, opening: map<string, int>)
    requires Inv(s, opening) && Justified(s, id, success)
    ensures Kept(s, s.(db := FinalizeDb(s.db, id, success)), opening)
  {
    if R.CanFinalize(s.db, id) {
      var reason := if success then "" else "DTM TCC cancelled";
      var db' := R.Finalize(s.db, id, Verdict(success), reason);
      FinalizeVerdicts(s, id, success, reason);
      hide R.Sound, C.Core, Money, BodiesMatch, Verdicts, CreatorsOk, ReconcilersOk, WireLater, PaymentsLater,
        RowsLater;
      hide R.LogOf, R.MaxSequence;
      R.FinalizeSound(s.db, id, Verdict(success), reason);
      FinalizeLater(s.db, id, Verdict(success), reason);
      SelfWireLater(s.wire);
      DbStep(s, db', opening);
    } else {
      SameKept(s, s, opening);
    }
  }

  lemma FinalizeVerdicts(s: Sys, id: string, success: bool, reason: string)
    requires Verdicts(s.db, s.wire) && Justified(s, id, success) && R.CanFinalize(s.db, id)
    ensures Verdicts(R.Finalize(s.db, id, Verdict(success), reason), s.wire)
  {
    hide R.LogOf, R.MaxSequence;
  }

  lemma LookOk(s: Sys, id: string, gid: string, v: Sighting)
    requires SightOk(s.db, s.wire, id, gid, v)
    ensures SightOk(s.db, s.wire, id, gid, Look(s, id, gid, v))
  {
  }

  lemma ReconcilerSteps(s: Sys, e: Event, opening: map<string, int>)
    requires Inv(s, opening) && (e.Reconciles? || e.Looks? || e.Settles? || e.Abandons?)
    ensures Kept(s, ReconcilerDoes(s, e), opening)
  {
    hide R.Sound, C.Core, Money, BodiesMatch, Verdicts, CreatorsOk, SightOk, Kept, FinalizeDb, Look, Later;
    match e
    case Reconciles(o, id) =>
      if o !in s.reconcilers && id in s.db.payments && s.db.payments[id].status.Processing?
          && s.db.payments[id].gid.Some? {
        var r := Reconciler(id, s.db.payments[id].gid.value, NOTHING_SEEN);
        assert ReconcilerOk(s.db, s.wire, r) by { NothingOk(s.db, s.wire, r.id, r.gid); }
        ReconcilerStep(s, o, r, opening);
      }
      SameKept(s, ReconcilerDoes(s, e), opening);
    case Looks(o) =>
      if o in s.reconcilers {
        var r := s.reconcilers[o];
        LookOk(s, r.id, r.gid, r.seen);
        ReconcilerStep(s, o, r.(seen := Look(s, r.id, r.gid, r.seen)), opening);
      }
      SameKept(s, ReconcilerDoes(s, e), opening);
    case Settles(o) =>
      if o in s.reconcilers {
        SettleStep(s, o, opening);
      } else {
        SameKept(s, s, opening);
      }
    case Abandons(o) =>
      DropStep(s, o, opening);
      SameKept(s, Drop(s, o), opening);
  }

  lemma NothingOk(db: Db, w: Wire, id: string, gid: string)
    ensures SightOk(db, w, id, gid, NOTHING_SEEN)
  {
  }

  lemma SettleStep(s: Sys, o: nat, opening: map<string, int>)
    requires Inv(s, opening) && o in s.reconcilers
    ensures Kept(s, ReconcilerDoes(s, Settles(o)), opening)
  {
    hide R.Sound, C.Core, Money, BodiesMatch, Verdicts, CreatorsOk, FinalizeDb, Later;
    var r := s.reconcilers[o];
    assert ReconcilerOk(s.db, s.wire, r);
    if SawSuccess(r.seen) || SawFailure(r.seen) {
      var s1 := s.(db := FinalizeDb(s.db, r.id, SawSuccess(r.seen)));
      FinalizeStep(s, r.id, SawSuccess(r.seen), opening);
      DropStep(s1, o, opening);
    } else {
      DropStep(s, o, opening);
      SameKept(s, Drop(s, o), opening);
    }
  }
}

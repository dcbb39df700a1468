/**
 The faults a distributed Create may ask for.  One strikes after the account's Try, before there is a ledger branch; the
 other makes the ledger's Try fail.  Neither lets its payment succeed, whatever else happens.
 */
module TccFaults {
  import opened Domain
  import opened Tables
  import opened BranchRules
  import opened Dtm
  import opened TccSystem
  import opened Progress
  import opened TccInvariant
  import opened TccSteps
  import opened TccCreate
  import opened TccTheorems
  import R = RepositoryRules
  import C = TccCore

  /** A ledger body that can only fail. */
  predicate Dud(f: Fault, q: Request) {
    f.LedgerTryFault? && q.failTry
  }

  /** DTM has heard of no ledger branch of this gid that could succeed. */
  ghost predicate Harmless(w: Wire, gid: string, f: Fault) {
    && (forall a :: a in w.asks && a.AskRegister? && a.gid == gid && a.branch.LedgerBranch? ==> Dud(f, a.request))
    && (Registered(w, gid, LedgerBranch) ==> Dud(f, w.txns[gid].branches[LedgerBranch]))
    && (f.AfterAccountTry? ==> AskSubmit(gid) !in w.asks)
  }

  /** Places beyond the fault after the account's Try. */
  predicate Beyond(stage: Stage) {
    match stage
    case RegisteringLedger => true
    case TryingLedger => true
    case Submitting => true
    case Polling(success, _) => success
    case Finalizing(success) => success
    case _ => false
  }

  /** The payment of a Create has its gid or none, and a fault keeps it from the ledger. */
  ghost predicate CreatorFine(db: Db, w: Wire, c: Creator) {
    c.owns ==>
      && c.id in db.payments && db.payments[c.id].gid in {None, Some(c.gid)}
      && (c.call.fault.AfterAccountTry? ==> !Beyond(c.stage))
      && (c.call.fault != NoFault && Carries(db, c.id, c.gid) ==>
            Harmless(w, c.gid, c.call.fault) && c.gid !in db.ledger)
  }

  ghost predicate AllFine(s: Sys) {
    forall t :: t in s.creators ==> CreatorFine(s.db, s.wire, s.creators[t])
  }

  // ---- DTM, the network and the participants ----

  lemma DtmHarmless(w: Wire, a: Ask, gid: string, branch: Branch, g: string, f: Fault)
    requires Harmless(w, g, f)
    ensures Harmless(Serve(w, a), g, f) && Harmless(Timeout(w, gid), g, f)
    ensures Harmless(Finish(w, gid), g, f) && Harmless(Dispatch(w, gid, branch), g, f)
  {
  }

  lemma AnswerHarmless(w: Wire, db: Db, m: Msg, g: string, f: Fault)
    requires Harmless(w, g, f)
    ensures Harmless(Answered(w, db, m), g, f)
  {
    hide Deliver;
  }

  /** A ledger call that can only fail writes no ledger row. */
  lemma DudWritesNothing(db: Db, m: Msg, gid: string)
    requires gid !in db.ledger
    requires m.branch.LedgerBranch? && m.op.Try? && m.request.gid == gid ==> m.request.failTry
    ensures gid !in After(db, m).ledger
  {
    hide Business, Insert;
    DudBusiness(Marked(db, m), m, gid);
  }

  lemma DudBusiness(db: Db, m: Msg, gid: string)
    requires gid !in db.ledger
    requires m.branch.LedgerBranch? && m.op.Try? && m.request.gid == gid ==> m.request.failTry
    ensures Business(db, m).Applied? ==> gid !in Business(db, m).db.ledger
  {
    hide AccountTry, AccountSettle, LedgerRowFits, Complete;
    if m.branch.AccountBranch? {
      C.AccountLocal(db, m, if m.op.Confirm? then Confirmed else Cancelled, gid);
    }
  }

  lemma ArrivalFine(s: Sys, m: Msg, opening: map<string, int>, c: Creator)
    requires Inv(s, opening) && CreatorFine(s.db, s.wire, c)
    ensures CreatorFine(Reached(s.wire, s.db, m), Answered(s.wire, s.db, m), c)
  {
    InvParts(s, opening);
    hide Inv, Harmless, After, Deliver, Money, BodiesMatch, R.Indexed, R.Logged, R.Shaped, C.BranchOk;
    DeliveryForeign(s.db, s.wire, m);
    if c.owns && c.call.fault != NoFault && Carries(s.db, c.id, c.gid) {
      AnswerHarmless(s.wire, s.db, m, c.gid, c.call.fault);
      if m in s.wire.calls {
        assert C.CallOk(s.wire, m);
        HarmlessBody(s.wire, c.gid, c.call.fault);
        DudWritesNothing(s.db, m, c.gid);
      }
    }
  }

  lemma HarmlessBody(w: Wire, gid: string, f: Fault)
    requires Harmless(w, gid, f)
    ensures Registered(w, gid, LedgerBranch) ==> w.txns[gid].branches[LedgerBranch].failTry
  {
  }

  // ---- The steps of one Create, seen by the others ----

  /** What DTM newly hears besides prepare and abort requests is about this gid. */
  ghost predicate OnlyAbout(w: Wire, w': Wire, gid: string) {
    w'.txns == w.txns && w.asks <= w'.asks
    && (forall a :: a in w'.asks && a !in w.asks ==> a.AskPrepare? || a.AskAbort? || a.gid == gid)
  }

  lemma OtherHarmless(w: Wire, w': Wire, gid: string, g: string, f: Fault)
    requires Harmless(w, g, f) && OnlyAbout(w, w', gid) && g != gid
    ensures Harmless(w', g, f)
  {
    assert Registered(w', g, LedgerBranch) <==> Registered(w, g, LedgerBranch);
  }

  /** Two Creates with a payment each have a gid each. */
  lemma OwnGid(s: Sys, opening: map<string, int>, t: nat, u: nat)
    requires Inv(s, opening) && t in s.creators && u in s.creators && t != u
    requires s.creators[t].owns && s.creators[u].owns
    ensures s.creators[t].id != s.creators[u].id
    ensures Carries(s.db, s.creators[t].id, s.creators[t].gid) && Carries(s.db, s.creators[u].id, s.creators[u].gid) ==>
        s.creators[t].gid != s.creators[u].gid
  {
    InvParts(s, opening);
    hide C.Core, Money, BodiesMatch, ReconcilersOk, Verdicts, R.Logged, R.Shaped, CreatorOk;
  }

  /** A step of Create `t` that writes only its own payment and asks only about its own gid leaves the others fine. */
  lemma OthersFine(s: Sys, s': Sys, opening: map<string, int>, t: nat, u: nat)
    requires Inv(s, opening) && AllFine(s) && t in s.creators && u in s.creators && t != u
    requires OnlyAbout(s.wire, s'.wire, s.creators[t].gid) && s'.db.ledger == s.db.ledger
    requires s'.wire.asks == s.wire.asks || s.creators[t].owns
    requires s'.wire.asks != s.wire.asks && !Carries(s.db, s.creators[t].id, s.creators[t].gid) ==>
               forall a :: a in s'.wire.asks && a !in s.wire.asks ==> a.AskPrepare?
    requires forall id :: id in s.db.payments ==>
      && id in s'.db.payments
      && (s'.db.payments[id].gid == s.db.payments[id].gid || (s.creators[t].owns && id == s.creators[t].id))
    ensures CreatorFine(s'.db, s'.wire, s.creators[u])
  {
    hide Inv, Harmless;
    var c, d := s.creators[t], s.creators[u];
    assert CreatorFine(s.db, s.wire, d);
    if c.owns && d.owns {
      OwnGid(s, opening, t, u);
    }
    if d.owns && d.call.fault != NoFault && Carries(s.db, d.id, d.gid) {
      if c.gid != d.gid {
        OtherHarmless(s.wire, s'.wire, c.gid, d.gid, d.call.fault);
      } else {
        SameHarmless(s.wire, s'.wire, d.gid, d.call.fault);
      }
    }
  }

  lemma SameHarmless(w: Wire, w': Wire, g: string, f: Fault)
    requires Harmless(w, g, f) && w'.txns == w.txns && w.asks <= w'.asks
    requires forall a :: a in w'.asks && a !in w.asks ==> a.AskPrepare? || a.AskAbort?
    ensures Harmless(w', g, f)
  {
    assert Registered(w', g, LedgerBranch) <==> Registered(w, g, LedgerBranch);
  }

  // ---- The steps of one Create, seen by itself ----

  /** Of a gid that no payment has, nothing was ever asked. */
  lemma NewGidUnheard(s: Sys, opening: map<string, int>, gid: string, f: Fault)
    requires Inv(s, opening) && gid !in s.db.byGid
    ensures Harmless(s.wire, gid, f) && gid !in s.db.ledger
  {
    InvParts(s, opening);
    hide Inv, Money, R.Logged, R.Shaped;
    RowsBelong(s, opening, gid);
    assert C.BranchOk(s.db, s.wire, gid, LedgerBranch);
    assert forall b :: Registered(s.wire, gid, b) ==> BodyMatches(s.db, gid, s.wire.txns[gid].branches[b]);
  }

  lemma BeginFine(s: Sys, opening: map<string, int>, t: nat)
    requires Inv(s, opening) && AllFine(s) && At(s, t) == Some(Beginning)
    ensures t in BeginStep(s, t).creators
    ensures CreatorFine(BeginStep(s, t).db, BeginStep(s, t).wire, BeginStep(s, t).creators[t])
  {
    hide Inv, Harmless, R.LogOf, R.MaxSequence;
    var c := s.creators[t];
    assert CreatorFine(s.db, s.wire, c);
    if R.CanBegin(s.db, c.id, c.gid) {
      NewGidUnheard(s, opening, c.gid, c.call.fault);
      SameHarmless(s.wire, Send(s.wire, AskPrepare(c.gid)), c.gid, c.call.fault);
    }
  }

  /** A Create that runs its global transaction asks nothing its fault forbids. */
  lemma RegisterFine(s: Sys, opening: map<string, int>, t: nat, ok: bool)
    requires Inv(s, opening) && AllFine(s) && At(s, t) in {Some(RegisteringAccount), Some(RegisteringLedger)}
    ensures var r := RegisterStep(s, t, ok); t in r.creators && CreatorFine(r.db, r.wire, r.creators[t])
  {
    hide Inv, SightOk, OutcomeOk;
    ThreadOk(s, t, opening);
    assert CreatorFine(s.db, s.wire, s.creators[t]);
  }

  lemma TryFine(s: Sys, opening: map<string, int>, t: nat, ok: bool)
    requires Inv(s, opening) && AllFine(s) && At(s, t) in {Some(TryingAccount), Some(TryingLedger)}
    ensures var r := TryStep(s, t, ok); t in r.creators && CreatorFine(r.db, r.wire, r.creators[t])
  {
    hide Inv, SightOk, OutcomeOk;
    ThreadOk(s, t, opening);
    assert CreatorFine(s.db, s.wire, s.creators[t]);
  }

  lemma PrepareAndSubmitFine(s: Sys, opening: map<string, int>, t: nat, ok: bool)
    requires Inv(s, opening) && AllFine(s)
    ensures At(s, t) == Some(Preparing) ==>
        var r := PrepareStep(s, t, ok); t in r.creators && CreatorFine(r.db, r.wire, r.creators[t])
    ensures At(s, t) == Some(Submitting) ==>
        var r := SubmitStep(s, t, ok); t in r.creators && CreatorFine(r.db, r.wire, r.creators[t])
  {
    hide Inv, SightOk, OutcomeOk;
    if t in s.creators {
      ThreadOk(s, t, opening);
      assert CreatorFine(s.db, s.wire, s.creators[t]);
    }
  }

  /** The place of a Create is one its fault allows, and its payment's gid has not changed. */
  lemma PlaceFine(db: Db, w: Wire, db': Db, c: Creator, c': Creator)
    requires CreatorFine(db, w, c)
    requires c'.owns ==> c.owns && c'.id == c.id && c'.gid == c.gid && c'.call == c.call
    requires c.call.fault.AfterAccountTry? && !Beyond(c.stage) ==> !Beyond(c'.stage)
    requires db'.ledger == db.ledger
    requires c.id in db.payments ==> c.id in db'.payments && db'.payments[c.id].gid == db.payments[c.id].gid
    ensures CreatorFine(db', w, c')
  {
    hide Harmless, Beyond;
  }

  /** The steps before there is a payment, and those of a Create that waits for the outcome. */
  predicate Silent(e: Event) {
    || e.CacheAnswers? || e.Verifies? || e.Finds? || e.Refinds? || e.GivesUp?
    || e.NotesAbort? || e.Reads? || e.Rereads? || e.Concludes? || e.TimesOut? || e.Finalizes?
  }

  /** What a step of Create `t` may change besides its own place. */
  ghost predicate StepOf(s: Sys, s': Sys, t: nat) {
    && t in s.creators && t in s'.creators && s'.creators == s.creators[t := s'.creators[t]]
    && OnlyAbout(s.wire, s'.wire, s.creators[t].gid) && s'.db.ledger == s.db.ledger
    && (s'.wire.asks == s.wire.asks || s.creators[t].owns)
    && (s'.wire.asks != s.wire.asks && !Carries(s.db, s.creators[t].id, s.creators[t].gid) ==>
          forall a :: a in s'.wire.asks && a !in s.wire.asks ==> a.AskPrepare?)
    && (forall id :: id in s.db.payments ==>
          && id in s'.db.payments
          && (s'.db.payments[id].gid == s.db.payments[id].gid || (s.creators[t].owns && id == s.creators[t].id)))
  }

  lemma StepFine(s: Sys, s': Sys, opening: map<string, int>, t: nat)
    requires Inv(s, opening) && AllFine(s) && StepOf(s, s', t)
    requires CreatorFine(s'.db, s'.wire, s'.creators[t])
    ensures AllFine(s')
  {
    hide Inv, CreatorFine;
    forall u | u in s'.creators
      ensures CreatorFine(s'.db, s'.wire, s'.creators[u])
    {
      if u != t {
        OthersFine(s, s', opening, t, u);
      }
    }
  }

  /** The same payments with the same gids, and the same ledger. */
  ghost predicate SameGids(db: Db, db': Db) {
    db'.ledger == db.ledger
    && forall id :: id in db.payments ==> id in db'.payments && db'.payments[id].gid == db.payments[id].gid
  }

  lemma NoteGids(s: Sys, id: string, name: string, written: bool)
    ensures SameGids(s.db, R.RecordEvent(s.db, id, name)) && SameGids(s.db, Noted(s, id, name, written).db)
    ensures Noted(s, id, name, written).wire == s.wire && Noted(s, id, name, written).creators == s.creators
  {
    hide R.LogOf, R.MaxSequence;
  }

  lemma StayGids(db: Db)
    ensures SameGids(db, db)
  {
  }

  lemma VerdictGids(db: Db, id: string, success: bool)
    ensures SameGids(db, FinalizeDb(db, id, success))
  {
    hide R.LogOf, R.MaxSequence;
  }

  /** Create `t` has moved, without a gid for its payment and without a word to DTM. */
  ghost predicate Quietly(s: Sys, r: Sys, t: nat) {
    && t in s.creators && t in r.creators && r.creators == s.creators[t := r.creators[t]] && r.wire == s.wire
    && SameGids(s.db, r.db)
    && var c, c' := s.creators[t], r.creators[t];
    && c'.owns == c.owns && c'.call == c.call && (c.owns ==> c'.id == c.id && c'.gid == c.gid)
    && (!Beyond(c.stage) ==> !Beyond(c'.stage))
  }

  predicate Early(e: Event) {
    e.CacheAnswers? || e.Verifies? || e.Finds? || e.Refinds? || e.GivesUp?
  }

  lemma EarlyQuietly(s: Sys, e: Event)
    requires Early(e) && (e.t in s.creators && e.Finds? && s.creators[e.t].stage.FindRow? ==> !s.creators[e.t].owns)
    ensures CreatorDoes(s, e) == s || Quietly(s, CreatorDoes(s, e), e.t)
  {
    hide Fingerprint, R.Decide, R.Verified, SameGids;
    StayGids(s.db);
  }

  lemma WaitQuietly(s: Sys, e: Event)
    requires e.Reads? || e.Rereads? || e.Concludes?
    ensures CreatorDoes(s, e) == s || Quietly(s, CreatorDoes(s, e), e.t)
  {
    hide Look, SawSuccess, SawFailure, SameGids;
    StayGids(s.db);
  }

  lemma NoteQuietly(s: Sys, e: Event)
    requires e.NotesAbort? || e.TimesOut?
    ensures CreatorDoes(s, e) == s || Quietly(s, CreatorDoes(s, e), e.t)
  {
    hide Noted, SameGids;
    if e.t in s.creators {
      NoteGids(s, s.creators[e.t].id, if e.NotesAbort? then "DTM_TCC_ABORTED" else "DTM_RECONCILE_PENDING", e.written);
    }
  }

  lemma FinalizeQuietly(s: Sys, t: nat)
    ensures CreatorDoes(s, Finalizes(t)) == s || Quietly(s, CreatorDoes(s, Finalizes(t)), t)
  {
    hide FinalizeDb, SameGids;
    if t in s.creators && s.creators[t].stage.Finalizing? {
      VerdictGids(s.db, s.creators[t].id, s.creators[t].stage.success);
    }
  }

  lemma SilentFine(s: Sys, e: Event, opening: map<string, int>)
    requires Inv(s, opening) && AllFine(s) && Silent(e)
    ensures AllFine(CreatorDoes(s, e))
  {
    hide Inv, CreatorFine, CreatorDoes, Fingerprint, SightOk, OutcomeOk;
    var r, t := CreatorDoes(s, e), e.t;
    if t in s.creators {
      ThreadOk(s, t, opening);
    }
    if Early(e) {
      EarlyQuietly(s, e);
    } else if e.NotesAbort? || e.TimesOut? {
      NoteQuietly(s, e);
    } else if e.Finalizes? {
      FinalizeQuietly(s, t);
    } else {
      WaitQuietly(s, e);
    }
    if r != s {
      PlaceFine(s.db, s.wire, r.db, s.creators[t], r.creators[t]);
      StepFine(s, r, opening, t);
    }
  }

  lemma ArriveFine(s: Sys, t: nat, call: CreateCall)
    requires AllFine(s)
    ensures AllFine(CreatorDoes(s, Arrives(t, call)))
  {
    hide Harmless;
  }

  lemma InsertFine(s: Sys, opening: map<string, int>, t: nat)
    requires Inv(s, opening) && AllFine(s) && At(s, t) == Some(InsertRow)
    ensures AllFine(InsertStep(s, t))
  {
    hide Inv, Harmless, Fingerprint, R.LogOf, R.MaxSequence;
    ThreadOk(s, t, opening);
    var r := InsertStep(s, t);
    assert CreatorFine(r.db, r.wire, r.creators[t]);
    StepFine(s, r, opening, t);
  }

  lemma BeginsFine(s: Sys, opening: map<string, int>, t: nat)
    requires Inv(s, opening) && AllFine(s) && At(s, t) == Some(Beginning)
    ensures AllFine(BeginStep(s, t))
  {
    hide Inv, CreatorFine, R.LogOf, R.MaxSequence, Fingerprint;
    ThreadOk(s, t, opening);
    BeginFine(s, opening, t);
    StepFine(s, BeginStep(s, t), opening, t);
  }

  /** A step that sends at most one message of the Create's own gid. */
  lemma SendingStep(s: Sys, s': Sys, t: nat, stage: Stage, a: Ask, m: Msg)
    requires t in s.creators && s.creators[t].owns && Carries(s.db, s.creators[t].id, s.creators[t].gid)
    requires a.gid == s.creators[t].gid
    requires s' == Go(s, t, stage) || s' == Go(s.(wire := Send(s.wire, a)), t, stage)
             || s' == Go(s.(wire := Call(s.wire, m)), t, stage)
    ensures StepOf(s, s', t)
  {
  }

  lemma RegisterOf(s: Sys, t: nat, ok: bool)
    requires At(s, t) in {Some(RegisteringAccount), Some(RegisteringLedger)}
    requires s.creators[t].owns && Carries(s.db, s.creators[t].id, s.creators[t].gid)
    ensures RegisterStep(s, t, ok) == s || StepOf(s, RegisterStep(s, t, ok), t)
  {
    hide StepOf;
    var c, r := s.creators[t], RegisterStep(s, t, ok);
    if r != s {
      var branch := if c.stage.RegisteringAccount? then AccountBranch else LedgerBranch;
      SendingStep(s, r, t, r.creators[t].stage, AskAbort(c.gid), Msg(branch, Try, BodyFor(c, branch)));
    }
  }

  lemma TryOf(s: Sys, t: nat, ok: bool)
    requires At(s, t) in {Some(TryingAccount), Some(TryingLedger)}
    requires s.creators[t].owns && Carries(s.db, s.creators[t].id, s.creators[t].gid)
    ensures TryStep(s, t, ok) == s || StepOf(s, TryStep(s, t, ok), t)
  {
    hide StepOf;
    var c, r := s.creators[t], TryStep(s, t, ok);
    if r != s {
      var stage := r.creators[t].stage;
      var a := if stage.NotingAbort? then AskAbort(c.gid)
               else if stage.Submitting? then AskSubmit(c.gid)
               else AskRegister(c.gid, LedgerBranch, BodyFor(c, LedgerBranch));
      SendingStep(s, r, t, stage, a, Msg(LedgerBranch, Try, BodyFor(c, LedgerBranch)));
    }
  }

  lemma PrepareOf(s: Sys, t: nat, ok: bool)
    requires t in s.creators && s.creators[t].owns && Carries(s.db, s.creators[t].id, s.creators[t].gid)
    ensures PrepareStep(s, t, ok) == s || StepOf(s, PrepareStep(s, t, ok), t)
    ensures SubmitStep(s, t, ok) == s || StepOf(s, SubmitStep(s, t, ok), t)
  {
    hide StepOf;
    var c, p, q := s.creators[t], PrepareStep(s, t, ok), SubmitStep(s, t, ok);
    var a := AskRegister(c.gid, AccountBranch, BodyFor(c, AccountBranch));
    if p != s {
      SendingStep(s, p, t, p.creators[t].stage, a, Msg(AccountBranch, Try, BodyFor(c, AccountBranch)));
    }
    if q != s {
      SendingStep(s, q, t, q.creators[t].stage, a, Msg(AccountBranch, Try, BodyFor(c, AccountBranch)));
    }
  }

  lemma AskingFine(s: Sys, e: Event, opening: map<string, int>)
    requires Inv(s, opening) && AllFine(s) && (e.Prepares? || e.Registers? || e.Tries? || e.Submits?)
    ensures AllFine(CreatorDoes(s, e))
  {
    hide Inv, AllFine, CreatorFine, StepOf, PrepareStep, RegisterStep, TryStep, SubmitStep, Mine, SightOk, OutcomeOk;
    var r, t := CreatorDoes(s, e), e.t;
    if t in s.creators && r != s {
      ThreadOk(s, t, opening);
      match e {
        case Registers(_, ok) => RegisterFine(s, opening, t, ok); RegisterOf(s, t, ok);
        case Tries(_, ok) => TryFine(s, opening, t, ok); TryOf(s, t, ok);
        case Prepares(_, ok) => PrepareAndSubmitFine(s, opening, t, ok); PrepareOf(s, t, ok);
        case Submits(_, ok) => PrepareAndSubmitFine(s, opening, t, ok); PrepareOf(s, t, ok);
      }
      StepFine(s, r, opening, t);
    }
  }

  lemma CreatorFineSteps(s: Sys, e: Event, opening: map<string, int>)
    requires Inv(s, opening) && AllFine(s)
    ensures AllFine(CreatorDoes(s, e))
  {
    hide Inv, AllFine, InsertStep, BeginStep, PrepareStep, RegisterStep, TryStep, SubmitStep;
    match e
    case Arrives(t, call) => ArriveFine(s, t, call);
    case Inserts(t) => if At(s, t) == Some(InsertRow) { InsertFine(s, opening, t); }
    case Begins(t) => if At(s, t) == Some(Beginning) { BeginsFine(s, opening, t); }
    case Prepares(_, _) => AskingFine(s, e, opening);
    case Registers(_, _) => AskingFine(s, e, opening);
    case Tries(_, _) => AskingFine(s, e, opening);
    case Submits(_, _) => AskingFine(s, e, opening);
    case _ =>
      if Silent(e) {
        SilentFine(s, e, opening);
      }
  }

  // ---- Every step ----

  /** Tables in which every payment has its gid and nothing new is in the ledger are as fine for everybody. */
  lemma TablesFine(s: Sys, s': Sys)
    requires AllFine(s) && s'.creators == s.creators && s'.wire == s.wire && SameGids(s.db, s'.db)
    ensures AllFine(s')
  {
    hide Harmless;
    assert forall t :: t in s.creators ==> CreatorFine(s.db, s.wire, s.creators[t]);
  }

  lemma ReconcilerFine(s: Sys, e: Event)
    requires AllFine(s)
    ensures AllFine(ReconcilerDoes(s, e))
  {
    hide AllFine, SameGids, FinalizeDb, Look, SawSuccess, SawFailure;
    StayGids(s.db);
    if e.Settles? && e.o in s.reconcilers {
      VerdictGids(s.db, s.reconcilers[e.o].id, true);
      VerdictGids(s.db, s.reconcilers[e.o].id, false);
    }
    TablesFine(s, ReconcilerDoes(s, e));
  }

  lemma WireFine(s: Sys, w': Wire)
    requires AllFine(s) && forall g, f :: Harmless(s.wire, g, f) ==> Harmless(w', g, f)
    ensures AllFine(s.(wire := w'))
  {
    hide Harmless;
    assert forall t :: t in s.creators ==> CreatorFine(s.db, s.wire, s.creators[t]);
  }

  lemma DtmFine(s: Sys, a: Ask, gid: string, branch: Branch)
    requires AllFine(s)
    ensures AllFine(s.(wire := Serve(s.wire, a))) && AllFine(s.(wire := Timeout(s.wire, gid)))
    ensures AllFine(s.(wire := Finish(s.wire, gid))) && AllFine(s.(wire := Dispatch(s.wire, gid, branch)))
  {
    hide AllFine, Harmless, Serve, Timeout, Finish, Dispatch;
    forall w' | w' in {Serve(s.wire, a), Timeout(s.wire, gid), Finish(s.wire, gid), Dispatch(s.wire, gid, branch)}
      ensures AllFine(s.(wire := w'))
    {
      forall g, f | Harmless(s.wire, g, f)
        ensures Harmless(w', g, f)
      {
        DtmHarmless(s.wire, a, gid, branch, g, f);
      }
      WireFine(s, w');
    }
  }

  lemma EnvironmentFine(s: Sys, e: Event, opening: map<string, int>)
    requires Inv(s, opening) && AllFine(s)
    ensures AllFine(EnvironmentDoes(s, e))
  {
    hide Inv, AllFine, SameGids, Serve, Timeout, Finish, Dispatch, Reached, Answered, R.RecordEvent;
    match e
    case Records(id, name) =>
      NoteGids(s, id, name, true);
      TablesFine(s, EnvironmentDoes(s, e));
    case Arriving(m) => ArrivesFine(s, m, opening);
    case DtmServes(ask) => DtmFine(s, ask, "", AccountBranch);
    case DtmTimesOut(gid) => DtmFine(s, AskPrepare(""), gid, AccountBranch);
    case DtmDispatches(gid, branch) => DtmFine(s, AskPrepare(""), gid, branch);
    case DtmFinishes(gid) => DtmFine(s, AskPrepare(""), gid, AccountBranch);
    case _ => {}
  }

  lemma ArrivesFine(s: Sys, m: Msg, opening: map<string, int>)
    requires Inv(s, opening) && AllFine(s)
    ensures AllFine(EnvironmentDoes(s, Arriving(m)))
  {
    hide Inv, CreatorFine, Reached, Answered;
    var r := EnvironmentDoes(s, Arriving(m));
    forall t | t in r.creators
      ensures CreatorFine(r.db, r.wire, r.creators[t])
    {
      ArrivalFine(s, m, opening, s.creators[t]);
    }
  }

  lemma DoFine(s: Sys, e: Event, opening: map<string, int>)
    requires Inv(s, opening) && AllFine(s)
    ensures AllFine(Do(s, e))
  {
    hide Inv, AllFine, CreatorDoes, EnvironmentDoes, ReconcilerDoes;
    CreatorFineSteps(s, e, opening);
    EnvironmentFine(s, e, opening);
    ReconcilerFine(s, e);
  }

  lemma {:induction false} RunFine(s: Sys, events: seq<Event>, opening: map<string, int>)
    requires Inv(s, opening) && AllFine(s)
    ensures AllFine(Run(s, events))
    decreases |events|
  {
    hide Inv, AllFine, Do, Later;
    if events != [] {
      DoFine(s, events[0], opening);
      EveryStep(s, events[0], opening);
      RunFine(Do(s, events[0]), events[1..], opening);
    }
  }

  lemma ReachableFine(s: Sys, opening: map<string, int>)
    requires Reachable(s, opening)
    ensures AllFine(s)
  {
    hide Inv, Do, Opened;
    var accounts: map<string, Account>, events: seq<Event> :| Opened(accounts, opening)
        && s == Run(Fresh(accounts), events);
    FreshOk(accounts, opening);
    RunFine(Fresh(accounts), events, opening);
  }

  /**
   A payment whose creator asked for a fault never succeeds and never has a ledger row, in any run.  After the fault
   that strikes behind the account's Try, DTM never hears of a ledger branch or of a submit; of the other, DTM only
   ever hears of a ledger branch whose Try fails.
   */
  lemma FaultNeverSucceeds(s: Sys, opening: map<string, int>, t: nat)
    requires Reachable(s, opening) && t in s.creators && s.creators[t].owns && s.creators[t].call.fault != NoFault
    ensures var c := s.creators[t];
      && c.id in s.db.payments && s.db.payments[c.id].gid in {None, Some(c.gid)}
      && !s.db.payments[c.id].status.Success?
      && (Carries(s.db, c.id, c.gid) ==> c.gid !in s.db.ledger && Harmless(s.wire, c.gid, c.call.fault))
  {
    hide Inv, Reachable, Harmless;
    ReachableInv(s, opening);
    ReachableFine(s, opening);
    var c := s.creators[t];
    assert CreatorFine(s.db, s.wire, c);
    AgreementNow(s, opening, c.id);
  }
}

/** The steps of Create keep the invariant; with the others, every run does. */
module TccCreate {
  import opened Domain
  import opened Tables
  import opened BranchRules
  import opened Dtm
  import opened TccSystem
  import opened Progress
  import opened TccInvariant
  import opened TccSteps
  import R = RepositoryRules
  import C = TccCore
  import S = SqlAccounts
  import H = HoldAccount
  import F = Fingerprint

  /** After a kept change of database or wire, the same Create moves on. */
  lemma ThenGo(s: Sys, s1: Sys, t: nat, stage: Stage, opening: map<string, int>)
    requires Inv(s, opening) && t in s.creators && s1.creators == s.creators
    requires Kept(s, s1, opening)
    requires StageOk(s1.db, s1.wire, s.creators[t].(stage := stage))
    ensures Kept(s, Go(s1, t, stage), opening)
  {
    hide Inv, Later, StageOk;
    GoStep(s1, t, stage, opening);
  }

  lemma JustGo(s: Sys, t: nat, stage: Stage, opening: map<string, int>)
    requires Inv(s, opening) && t in s.creators
    requires StageOk(s.db, s.wire, s.creators[t].(stage := stage))
    ensures Kept(s, Go(s, t, stage), opening)
  {
    hide Inv, Later, StageOk;
    GoStep(s, t, stage, opening);
    SameKept(s, Go(s, t, stage), opening);
  }

  lemma SendStep(s: Sys, a: Ask, opening: map<string, int>)
    requires Inv(s, opening)
    requires a.AskRegister? ==> BodyMatches(s.db, a.gid, a.request)
    requires a.AskSubmit? ==> forall b :: C.Key(a.gid, b, Try) in s.wire.acks
    ensures Kept(s, s.(wire := Send(s.wire, a)), opening)
  {
    assert BodiesMatch(s.db, Send(s.wire, a)) by { SendBodies(s.db, s.wire, a); }
    hide R.Sound, C.Core, Money, BodiesMatch, Verdicts, CreatorsOk, ReconcilersOk, WireLater, PaymentsLater, RowsLater;
    SelfLater(s.db);
    C.SendKeeps(s.db, s.wire, a);
    SendLater(s.wire, a, Msg(AccountBranch, Try, Request("", "", "", 0, false)));
    WireStep(s, Send(s.wire, a), opening);
  }

  lemma SendBodies(db: Db, w: Wire, a: Ask)
    requires BodiesMatch(db, w) && (a.AskRegister? ==> BodyMatches(db, a.gid, a.request))
    ensures BodiesMatch(db, Send(w, a))
  {
    hide BodyMatches;
    assert forall g, b :: Registered(Send(w, a), g, b) <==> Registered(w, g, b);
  }

  lemma CallStep(s: Sys, m: Msg, opening: map<string, int>)
    requires Inv(s, opening) && C.CallOk(s.wire, m)
    ensures Kept(s, s.(wire := Call(s.wire, m)), opening)
  {
    hide R.Sound, C.Core, Money, BodiesMatch, Verdicts, CreatorsOk, ReconcilersOk, WireLater, PaymentsLater, RowsLater,
      C.CallOk;
    SelfLater(s.db);
    BodiesCalls(s.db, s.wire, Call(s.wire, m));
    C.CallKeeps(s.db, s.wire, m);
    SendLater(s.wire, AskPrepare(""), m);
    WireStep(s, Call(s.wire, m), opening);
  }

  lemma ThreadOk(s: Sys, t: nat, opening: map<string, int>)
    requires Inv(s, opening) && t in s.creators
    ensures CreatorOk(s.db, s.wire, s.creators[t])
  {
  }

  /** What a Create sends for a branch matches its payment. */
  lemma BodyForMatches(s: Sys, t: nat, branch: Branch, opening: map<string, int>)
    requires Inv(s, opening) && t in s.creators
    requires s.creators[t].owns && Carries(s.db, s.creators[t].id, s.creators[t].gid)
    ensures BodyMatches(s.db, s.creators[t].gid, BodyFor(s.creators[t], branch))
  {
    hide C.Core, Money, BodiesMatch, Verdicts, ReconcilersOk, StageOk, R.Logged, R.Shaped;
    assert CreatorOk(s.db, s.wire, s.creators[t]);
  }

  // ---- Before there is a payment ----

  lemma Decides(s: Sys, c: Creator, d: R.Decision, opening: map<string, int>)
    requires Inv(s, opening)
    requires !c.owns && d == R.Decide(s.db, c.call.key, Fingerprint(c.call))
    ensures d.Replay? ==> OutcomeOk(s.db, c, Replayed(d.id))
    ensures d.Conflict? ==> OutcomeOk(s.db, c, Conflicted)
  {
    hide C.Core, Money, BodiesMatch, Verdicts, CreatorsOk, ReconcilersOk, R.Logged, Fingerprint;
    if d.Replay? {
      R.VerifiedIsReplay(s.db, d.id, c.call.key, Fingerprint(c.call));
    }
  }

  lemma EarlySteps(s: Sys, e: Event, t: nat, opening: map<string, int>)
    requires Inv(s, opening)
    requires e == Verifies(t) || e == Refinds(t) || e == GivesUp(t) || (e.CacheAnswers? && e.t == t)
    ensures Kept(s, CreatorDoes(s, e), opening)
  {
    hide Inv, Kept, Fingerprint, R.Decide, R.Verified, SightOk;
    SameKept(s, s, opening);
    if t in s.creators {
      ThreadOk(s, t, opening);
      var c := s.creators[t];
      var d := R.Decide(s.db, c.call.key, Fingerprint(c.call));
      if !c.owns {
        Decides(s, c, d, opening);
      }
      match e
      case CacheAnswers(_, answer) =>
        if c.stage.CacheLookup? {
          JustGo(s, t, if answer.Some? && answer.value.1 == Fingerprint(c.call) then VerifyCached(answer.value.0)
                 else FindRow, opening);
        }
      case Verifies(_) =>
        if c.stage.VerifyCached? {
          JustGo(s, t, if R.Verified(s.db, c.stage.cached, c.call.key, Fingerprint(c.call))
                       then Finished(Replayed(c.stage.cached)) else FindRow, opening);
        }
      case Refinds(_) =>
        if c.stage.RefindRow? {
          var outcome := match d case New => Errored case Replay(id) => Replayed(id) case Conflict => Conflicted;
          JustGo(s, t, Finished(outcome), opening);
        }
      case GivesUp(_) =>
        if !c.stage.Finished? {
          JustGo(s, t, Finished(Errored), opening);
        }
    }
  }

  lemma ArriveAndFind(s: Sys, e: Event, opening: map<string, int>)
    requires Inv(s, opening) && (e.Arrives? || e.Finds?)
    ensures Kept(s, CreatorDoes(s, e), opening)
  {
    hide Inv, Kept, Fingerprint, R.Decide, R.Verified;
    SameKept(s, s, opening);
    match e
    case Arrives(t, call) =>
      if t !in s.creators {
        CreatorStep(s, t, Creator(call, "", "", CacheLookup, false), opening);
        SameKept(s, CreatorDoes(s, e), opening);
      }
    case Finds(t, freshId, freshGid) =>
      if At(s, t) == Some(FindRow) {
        ThreadOk(s, t, opening);
        var c := s.creators[t];
        var d := R.Decide(s.db, c.call.key, Fingerprint(c.call));
        Decides(s, c, d, opening);
        match d
        case New =>
          CreatorStep(s, t, c.(id := freshId, gid := freshGid, stage := InsertRow), opening);
          SameKept(s, CreatorDoes(s, e), opening);
        case Replay(id) => JustGo(s, t, Finished(Replayed(id)), opening);
        case Conflict => JustGo(s, t, Finished(Conflicted), opening);
      }
  }

  lemma InsertedVerdicts(db: Db, w: Wire, id: string, row: PaymentRow)
    requires Verdicts(db, w) && row.status.Init?
    requires row.fingerprint == F.Payload(row.orderId, row.accountId, row.amount, row.currency)
    ensures Verdicts(R.InsertPayment(db, id, row), w)
  {
    hide R.LogOf, R.MaxSequence;
  }

  lemma BegunVerdicts(db: Db, w: Wire, id: string, gid: string)
    requires Verdicts(db, w) && R.CanBegin(db, id, gid)
    ensures Verdicts(R.BeginTCC(db, id, gid), w)
  {
    hide R.LogOf, R.MaxSequence;
  }

  /** No other Create owns the payment this insert is about to make. */
  lemma FreshOwner(s: Sys, id: string, opening: map<string, int>)
    requires Inv(s, opening) && id !in s.db.payments
    ensures forall u :: u in s.creators && s.creators[u].owns ==> s.creators[u].id != id
  {
    hide R.Sound, C.Core, Money, BodiesMatch, Verdicts, ReconcilersOk, StageOk;
    forall u | u in s.creators && s.creators[u].owns
      ensures s.creators[u].id != id
    {
      assert CreatorOk(s.db, s.wire, s.creators[u]);
    }
  }

  lemma InsertingStep(s: Sys, t: nat, opening: map<string, int>)
    requires Inv(s, opening) && At(s, t) == Some(InsertRow)
    ensures Kept(s, InsertStep(s, t), opening)
  {
    hide Inv, Later, StageOk, F.Payload, R.LogOf, R.MaxSequence;
    var c := s.creators[t];
    if R.PaymentFits(s.db, c.id, RowOf(c.call)) {
      var row := RowOf(c.call);
      var db' := R.InsertPayment(s.db, c.id, row);
      FreshOwner(s, c.id, opening);
      InsertingInv(s, c.id, row, opening);
      OwnerOk(db', s.wire, c, row);
      CreatorStep(s.(db := db'), t, c.(stage := Beginning, owns := true), opening);
    } else {
      EarlyOk(s, t, RefindRow, opening);
      JustGo(s, t, RefindRow, opening);
    }
  }

  lemma OwnerOk(db: Db, w: Wire, c: Creator, row: PaymentRow)
    requires c.id in db.payments && db.payments[c.id] == row == RowOf(c.call)
    ensures CreatorOk(db, w, c.(stage := Beginning, owns := true))
  {
  }

  lemma EarlyOk(s: Sys, t: nat, stage: Stage, opening: map<string, int>)
    requires Inv(s, opening) && At(s, t) == Some(InsertRow) && stage.RefindRow?
    ensures StageOk(s.db, s.wire, s.creators[t].(stage := stage))
  {
    hide R.Sound, C.Core, Money, BodiesMatch, Verdicts, ReconcilersOk;
    ThreadOk(s, t, opening);
  }

  lemma InsertingInv(s: Sys, id: string, row: PaymentRow, opening: map<string, int>)
    requires Inv(s, opening) && R.PaymentFits(s.db, id, row) && row.status.Init? && row.gid.None?
    requires row.fingerprint == F.Payload(row.orderId, row.accountId, row.amount, row.currency)
    ensures Kept(s, s.(db := R.InsertPayment(s.db, id, row)), opening)
  {
    hide R.Sound, C.Core, Money, BodiesMatch, Verdicts, CreatorsOk, ReconcilersOk, WireLater, PaymentsLater, RowsLater;
    hide R.LogOf, R.MaxSequence, F.Payload;
    R.InsertSound(s.db, id, row);
    InsertedVerdicts(s.db, s.wire, id, row);
    InsertLater(s.db, id, row);
    DbStep(s, R.InsertPayment(s.db, id, row), opening);
  }

  lemma BeginningInv(s: Sys, id: string, gid: string, opening: map<string, int>)
    requires Inv(s, opening) && R.CanBegin(s.db, id, gid)
    ensures Kept(s, s.(db := R.BeginTCC(s.db, id, gid)), opening)
  {
    assert R.Sound(s.db) && R.Shaped(s.db);
    hide R.Sound, R.Shaped, C.Core, Money, BodiesMatch, Verdicts, CreatorsOk, ReconcilersOk, WireLater, PaymentsLater,
      RowsLater;
    hide R.LogOf, R.MaxSequence;
    R.BeginSound(s.db, id, gid);
    BegunVerdicts(s.db, s.wire, id, gid);
    BeginLater(s.db, id, gid);
    DbStep(s, R.BeginTCC(s.db, id, gid), opening);
  }

  lemma BeginningStep(s: Sys, t: nat, opening: map<string, int>)
    requires Inv(s, opening) && At(s, t) == Some(Beginning)
    ensures Kept(s, BeginStep(s, t), opening)
  {
    hide Inv, Later, R.LogOf, R.MaxSequence;
    var c := s.creators[t];
    ThreadOk(s, t, opening);
    if R.CanBegin(s.db, c.id, c.gid) {
      var db' := R.BeginTCC(s.db, c.id, c.gid);
      assert Carries(db', c.id, c.gid);
      BeginningInv(s, c.id, c.gid, opening);
      var s1 := s.(db := db');
      var s2 := s1.(wire := Send(s1.wire, AskPrepare(c.gid)));
      SendStep(s1, AskPrepare(c.gid), opening);
      KeptTwice(s, s1, s2, opening);
      ThenGo(s, s2, t, Preparing, opening);
    } else {
      JustGo(s, t, Finished(Errored), opening);
    }
  }

  lemma KeptTwice(s: Sys, s1: Sys, s2: Sys, opening: map<string, int>)
    requires Kept(s, s1, opening) && Kept(s1, s2, opening)
    ensures Kept(s, s2, opening)
  {
    hide Inv;
    LaterTransitive(s.db, s.wire, s1.db, s1.wire, s2.db, s2.wire);
  }

  // ---- Running the global transaction ----

  lemma AbortingStep(s: Sys, t: nat, opening: map<string, int>)
    requires Inv(s, opening) && t in s.creators
    requires s.creators[t].owns && Carries(s.db, s.creators[t].id, s.creators[t].gid)
    ensures Kept(s, Aborts(s, t), opening)
  {
    hide Inv, Later;
    var a := AskAbort(s.creators[t].gid);
    SendStep(s, a, opening);
    ThenGo(s, s.(wire := Send(s.wire, a)), t, NotingAbort, opening);
  }

  lemma PreparingStep(s: Sys, t: nat, ok: bool, opening: map<string, int>)
    requires Inv(s, opening) && At(s, t) == Some(Preparing)
    ensures Kept(s, PrepareStep(s, t, ok), opening)
  {
    hide Inv, Later, Kept, BodyMatches;
    var c := s.creators[t];
    ThreadOk(s, t, opening);
    SameKept(s, s, opening);
    BodyForMatches(s, t, AccountBranch, opening);
    if !ok {
      JustGo(s, t, NotingAbort, opening);
    } else if c.gid in s.wire.txns {
      var a := AskRegister(c.gid, AccountBranch, BodyFor(c, AccountBranch));
      SendStep(s, a, opening);
      ThenGo(s, s.(wire := Send(s.wire, a)), t, RegisteringAccount, opening);
    }
  }

  lemma RegisteringStep(s: Sys, t: nat, ok: bool, opening: map<string, int>)
    requires Inv(s, opening) && At(s, t) in {Some(RegisteringAccount), Some(RegisteringLedger)}
    ensures Kept(s, RegisterStep(s, t, ok), opening)
  {
    hide Inv, Later, Kept;
    var c := s.creators[t];
    var branch := if c.stage.RegisteringAccount? then AccountBranch else LedgerBranch;
    ThreadOk(s, t, opening);
    SameKept(s, s, opening);
    if !ok {
      AbortingStep(s, t, opening);
    } else if Registered(s.wire, c.gid, branch) && s.wire.txns[c.gid].branches[branch] == BodyFor(c, branch) {
      var m := Msg(branch, Try, BodyFor(c, branch));
      CallStep(s, m, opening);
      ThenGo(s, s.(wire := Call(s.wire, m)), t, if branch.AccountBranch? then TryingAccount else TryingLedger, opening);
    }
  }

  lemma TryingStep(s: Sys, t: nat, ok: bool, opening: map<string, int>)
    requires Inv(s, opening) && At(s, t) in {Some(TryingAccount), Some(TryingLedger)}
    ensures Kept(s, TryStep(s, t, ok), opening)
  {
    hide Inv, Later, Kept, BodyMatches;
    var c := s.creators[t];
    var branch := if c.stage.TryingAccount? then AccountBranch else LedgerBranch;
    ThreadOk(s, t, opening);
    SameKept(s, s, opening);
    BodyForMatches(s, t, LedgerBranch, opening);
    if !ok {
      AbortingStep(s, t, opening);
    } else if C.Key(c.gid, branch, Try) !in s.wire.acks {
    } else if branch.LedgerBranch? {
      var a := AskSubmit(c.gid);
      forall b
        ensures C.Key(c.gid, b, Try) in s.wire.acks
      {
        match b
        case AccountBranch => assert C.Key(c.gid, AccountBranch, Try) in s.wire.acks;
        case LedgerBranch => assert C.Key(c.gid, LedgerBranch, Try) in s.wire.acks;
      }
      SendStep(s, a, opening);
      ThenGo(s, s.(wire := Send(s.wire, a)), t, Submitting, opening);
    } else if c.call.fault.AfterAccountTry? {
      AbortingStep(s, t, opening);
    } else {
      var a := AskRegister(c.gid, LedgerBranch, BodyFor(c, LedgerBranch));
      SendStep(s, a, opening);
      ThenGo(s, s.(wire := Send(s.wire, a)), t, RegisteringLedger, opening);
    }
  }

  lemma SubmittingStep(s: Sys, t: nat, ok: bool, opening: map<string, int>)
    requires Inv(s, opening) && At(s, t) == Some(Submitting)
    ensures Kept(s, SubmitStep(s, t, ok), opening)
  {
    hide Inv, Later, Kept, SightOk;
    var c := s.creators[t];
    ThreadOk(s, t, opening);
    SameKept(s, s, opening);
    NothingOk(s.db, s.wire, c.id, c.gid);
    if !ok {
      JustGo(s, t, NotingAbort, opening);
    } else if c.gid in s.wire.txns && s.wire.txns[c.gid].status.Committing() {
      JustGo(s, t, Polling(true, NOTHING_SEEN), opening);
    }
  }

  lemma NotedStep(s: Sys, id: string, name: string, written: bool, opening: map<string, int>)
    requires Inv(s, opening)
    ensures Kept(s, Noted(s, id, name, written), opening)
    ensures Noted(s, id, name, written).creators == s.creators && Noted(s, id, name, written).wire == s.wire
  {
    hide Inv, Kept;
    if written {
      RecordStep(s, id, name, opening);
    } else {
      SameKept(s, s, opening);
    }
  }

  /** Waiting: note the abort, read, conclude, or run out of time. */
  lemma WaitingStep(s: Sys, e: Event, t: nat, opening: map<string, int>)
    requires Inv(s, opening)
    requires e == Reads(t) || e == Rereads(t) || e == Concludes(t)
    ensures Kept(s, CreatorDoes(s, e), opening)
  {
    hide Inv, Kept, Look;
    SameKept(s, s, opening);
    if t in s.creators && s.creators[t].stage.Polling? {
      var c := s.creators[t];
      var p := c.stage;
      ThreadOk(s, t, opening);
      NothingOk(s.db, s.wire, c.id, c.gid);
      LookOk(s, c.id, c.gid, p.seen);
      if e.Concludes? {
        if if p.success then SawSuccess(p.seen) else SawFailure(p.seen) {
          assert StatusOf(s.wire, c.gid) == Some(if p.success then Succeed else DtmFailed);
          JustGo(s, t, Finalizing(p.success), opening);
        }
      } else {
        JustGo(s, t, p.(seen := if e.Reads? then Look(s, c.id, c.gid, p.seen) else NOTHING_SEEN), opening);
      }
    }
  }

  lemma NotingStep(s: Sys, e: Event, t: nat, opening: map<string, int>)
    requires Inv(s, opening)
    requires (e.NotesAbort? || e.TimesOut?) && e.t == t
    ensures Kept(s, CreatorDoes(s, e), opening)
  {
    hide Inv, Later, SightOk, Noted;
    SameKept(s, s, opening);
    if t in s.creators && (if e.NotesAbort? then s.creators[t].stage.NotingAbort? else s.creators[t].stage.Polling?) {
      var c := s.creators[t];
      var name := if e.NotesAbort? then "DTM_TCC_ABORTED" else "DTM_RECONCILE_PENDING";
      var s1 := Noted(s, c.id, name, e.written);
      NotedStep(s, c.id, name, e.written, opening);
      assert Inv(s1, opening);
      ThreadOk(s1, t, opening);
      NothingOk(s1.db, s1.wire, c.id, c.gid);
      ThenGo(s, s1, t, if e.NotesAbort? then Polling(false, NOTHING_SEEN) else Finished(Created), opening);
    }
  }

  lemma FinalizingStep(s: Sys, t: nat, opening: map<string, int>)
    requires Inv(s, opening)
    ensures Kept(s, CreatorDoes(s, Finalizes(t)), opening)
  {
    hide Inv, Kept, FinalizeDb;
    SameKept(s, s, opening);
    if t in s.creators && s.creators[t].stage.Finalizing? {
      var c := s.creators[t];
      ThreadOk(s, t, opening);
      FinalizeStep(s, c.id, c.stage.success, opening);
      ThenGo(s, s.(db := FinalizeDb(s.db, c.id, c.stage.success)), t, Finished(Created), opening);
    }
  }

  lemma CreatorSteps(s: Sys, e: Event, opening: map<string, int>)
    requires Inv(s, opening)
    ensures Kept(s, CreatorDoes(s, e), opening)
  {
    hide Inv, Kept, InsertStep, BeginStep, PrepareStep, RegisterStep, TryStep, SubmitStep;
    SameKept(s, s, opening);
    match e
    case Arrives(_, _) => ArriveAndFind(s, e, opening);
    case Finds(_, _, _) => ArriveAndFind(s, e, opening);
    case CacheAnswers(t, _) => EarlySteps(s, e, t, opening);
    case Verifies(t) => EarlySteps(s, e, t, opening);
    case Refinds(t) => EarlySteps(s, e, t, opening);
    case GivesUp(t) => EarlySteps(s, e, t, opening);
    case Inserts(t) => if At(s, t) == Some(InsertRow) { InsertingStep(s, t, opening); }
    case Begins(t) => if At(s, t) == Some(Beginning) { BeginningStep(s, t, opening); }
    case Prepares(t, ok) => if At(s, t) == Some(Preparing) { PreparingStep(s, t, ok, opening); }
    case Registers(t, ok) =>
      if At(s, t) in {Some(RegisteringAccount), Some(RegisteringLedger)} { RegisteringStep(s, t, ok, opening); }
    case Tries(t, ok) => if At(s, t) in {Some(TryingAccount), Some(TryingLedger)} { TryingStep(s, t, ok, opening); }
    case Submits(t, ok) => if At(s, t) == Some(Submitting) { SubmittingStep(s, t, ok, opening); }
    case NotesAbort(t, _) => NotingStep(s, e, t, opening);
    case TimesOut(t, _) => NotingStep(s, e, t, opening);
    case Reads(t) => WaitingStep(s, e, t, opening);
    case Rereads(t) => WaitingStep(s, e, t, opening);
    case Concludes(t) => WaitingStep(s, e, t, opening);
    case Finalizes(t) => FinalizingStep(s, t, opening);
    case _ =>
  }

  lemma EnvironmentSteps(s: Sys, e: Event, opening: map<string, int>)
    requires Inv(s, opening)
    ensures Kept(s, EnvironmentDoes(s, e), opening)
  {
    hide Inv, Kept, Serve, Timeout, Dispatch, Finish, Reached, Answered, R.RecordEvent;
    match e
    case DtmServes(ask) => DtmStep(s, ask, "", AccountBranch, opening);
    case DtmTimesOut(gid) => DtmStep(s, AskPrepare(""), gid, AccountBranch, opening);
    case DtmDispatches(gid, branch) => DtmStep(s, AskPrepare(""), gid, branch, opening);
    case DtmFinishes(gid) => DtmStep(s, AskPrepare(""), gid, AccountBranch, opening);
    case Records(id, name) => RecordStep(s, id, name, opening);
    case Arriving(m) => ArrivalStep(s, m, opening);
    case _ => SameKept(s, s, opening);
  }

  /** Every event keeps the invariant and undoes nothing that was settled. */
  lemma EveryStep(s: Sys, e: Event, opening: map<string, int>)
    requires Inv(s, opening)
    ensures Kept(s, Do(s, e), opening)
  {
    hide Inv, Kept, CreatorDoes, EnvironmentDoes, ReconcilerDoes;
    if e.Reconciles? || e.Looks? || e.Settles? || e.Abandons? {
      ReconcilerSteps(s, e, opening);
    } else if e.DtmServes? || e.DtmTimesOut? || e.DtmDispatches? || e.DtmFinishes? || e.Arriving? || e.Records? {
      EnvironmentSteps(s, e, opening);
    } else {
      CreatorSteps(s, e, opening);
    }
  }

  /** So does every run. */
  lemma {:induction false} EveryRun(s: Sys, events: seq<Event>, opening: map<string, int>)
    requires Inv(s, opening)
    ensures Kept(s, Run(s, events), opening)
    decreases |events|
  {
    if events == [] {
      SameKept(s, s, opening);
    } else {
      hide Inv, Later, Do;
      var next := Do(s, events[0]);
      EveryStep(s, events[0], opening);
      EveryRun(next, events[1..], opening);
      KeptTwice(s, next, Run(s, events), opening);
    }
  }

  ghost predicate Opened(accounts: map<string, Account>, opening: map<string, int>) {
    && accounts.Keys == opening.Keys
    && (forall a :: a in accounts ==> accounts[a].available == opening[a] >= 0 && accounts[a].frozen == 0)
  }

  /** A fresh installation satisfies the invariant. */
  lemma FreshOk(accounts: map<string, Account>, opening: map<string, int>)
    requires Opened(accounts, opening)
    ensures Inv(Fresh(accounts), opening)
  {
    var s := Fresh(accounts);
    var b := S.BookOf(s.db);
    assert b.holds == map[] && b.balances.Keys == accounts.Keys;
    assert forall a :: a in b.balances ==> H.Balanced(b, a, opening[a]);
    assert Money(s.db, opening);
    forall g, br
      ensures C.BranchOk(s.db, s.wire, g, br)
    {
    }
  }
}

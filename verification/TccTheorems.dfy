/** What the distributed mode promises, for every run from a fresh installation and every continuation of it. */
module TccTheorems {
  import opened Domain
  import opened Tables
  import opened BranchRules
  import opened Dtm
  import opened TccSystem
  import opened Progress
  import opened TccInvariant
  import opened TccSteps
  import opened TccCreate
  import R = RepositoryRules
  import C = TccCore
  import S = SqlAccounts
  import D = DeliveryCollapse
  import B = AccountBook
  import H = HoldAccount
  import E = EventLog
  import F = Fingerprint

  /** Some run from a fresh installation with these opening balances leads here. */
  ghost predicate Reachable(s: Sys, opening: map<string, int>) {
    exists accounts: map<string, Account>, events: seq<Event> ::
      Opened(accounts, opening) && s == Run(Fresh(accounts), events)
  }

  lemma ReachableInv(s: Sys, opening: map<string, int>)
    requires Reachable(s, opening)
    ensures Inv(s, opening)
  {
    hide Inv, Later, Do, Opened;
    var accounts: map<string, Account>, events: seq<Event> :| Opened(accounts, opening)
        && s == Run(Fresh(accounts), events);
    FreshOk(accounts, opening);
    EveryRun(Fresh(accounts), events, opening);
  }

  // ---- Agreement ----

  /** The money of this payment was taken and posted, for its own account and amount. */
  predicate Taken(db: Db, id: string, row: PaymentRow) {
    row.gid.Some? &&
    var g := row.gid.value;
    && g in db.reservations && db.reservations[g] == Reservation(id, row.accountId, row.amount, Confirmed)
    && g in db.ledger && db.ledger[g] == LedgerRow(id, row.accountId, row.amount, Posted)
  }

  /** Nothing of this gid is held or posted. */
  predicate Untouched(db: Db, gid: string) {
    && (gid in db.reservations ==> db.reservations[gid].state.Cancelled?)
    && (gid in db.ledger ==> db.ledger[gid].state.Voided?)
  }

  /** Once DTM has committed, both participants have settled with the registered bodies. */
  lemma SucceedTakes(db: Db, w: Wire, gid: string)
    requires C.Core(db, w) && BodiesMatch(db, w) && StatusOf(w, gid) == Some(Succeed)
    ensures gid in db.byGid && db.byGid[gid] in db.payments
    ensures var id := db.byGid[gid];
      gid in db.reservations && gid in db.ledger
      && db.reservations[gid] == Reservation(id, db.payments[id].accountId, db.payments[id].amount, Confirmed)
      && db.ledger[gid] == LedgerRow(id, db.payments[id].accountId, db.payments[id].amount, Posted)
  {
    assert C.BranchOk(db, w, gid, AccountBranch);
    assert C.BranchOk(db, w, gid, LedgerBranch);
    assert Registered(w, gid, AccountBranch) && Registered(w, gid, LedgerBranch);
  }

  /** Once DTM has failed, both participants have let go. */
  lemma FailedTouchesNothing(db: Db, w: Wire, gid: string)
    requires C.Core(db, w) && StatusOf(w, gid) == Some(DtmFailed)
    ensures Untouched(db, gid)
  {
    assert C.BranchOk(db, w, gid, AccountBranch);
    assert C.BranchOk(db, w, gid, LedgerBranch);
  }

  lemma AgreementNow(s: Sys, opening: map<string, int>, id: string)
    requires Inv(s, opening) && id in s.db.payments
    ensures var row := s.db.payments[id];
      && (row.status.Success? ==> Taken(s.db, id, row))
      && (row.status.Failed? ==> row.gid.Some? && Untouched(s.db, row.gid.value))
      && !row.status.Closed?
  {
    hide Money, CreatorsOk, ReconcilersOk, C.Core, R.Logged, R.Shaped, BodiesMatch, F.Payload;
    var row := s.db.payments[id];
    assert VerdictOk(s.wire, row);
    if row.status.Success? {
      assert s.db.byGid[row.gid.value] == id;
      SucceedTakes(s.db, s.wire, row.gid.value);
    } else if row.status.Failed? {
      FailedTouchesNothing(s.db, s.wire, row.gid.value);
    }
  }

  /**
   In every reachable state a SUCCESS payment has its own account and amount taken and posted, and a FAILED payment
   holds and posted nothing; and however the run goes on, the row and the agreement stay.
   */
  lemma GlobalAgreement(s: Sys, opening: map<string, int>, events: seq<Event>, id: string)
    requires Reachable(s, opening) && id in s.db.payments && s.db.payments[id].status.Terminal()
    ensures id in Run(s, events).db.payments
    ensures var later := Run(s, events).db;
      var row := later.payments[id];
      && row == s.db.payments[id]
      && (row.status.Success? ==> Taken(s.db, id, s.db.payments[id]) && Taken(later, id, row))
      && (row.status.Failed? ==> row.gid == s.db.payments[id].gid && row.gid.Some?
                                 && Untouched(s.db, row.gid.value) && Untouched(later, row.gid.value))
      && !row.status.Closed?
  {
    hide Inv, RowsLater, WireLater, Taken, Untouched, Reachable;
    ReachableInv(s, opening);
    EveryRun(s, events, opening);
    AgreementNow(s, opening, id);
    AgreementNow(Run(s, events), opening, id);
  }

  // ---- Verdicts from three separate reads ----

  /** The reads a finalizer, poller or reconciler, has taken of a payment. */
  predicate Sees(s: Sys, id: string, gid: string, v: Sighting) {
    || (exists o :: o in s.reconcilers && s.reconcilers[o] == Reconciler(id, gid, v))
    || (exists t :: t in s.creators && s.creators[t].id == id && s.creators[t].gid == gid
                    && s.creators[t].stage.Polling? && s.creators[t].stage.seen == v)
  }

  lemma SeenOk(s: Sys, opening: map<string, int>, id: string, gid: string, v: Sighting)
    requires Inv(s, opening) && Sees(s, id, gid, v)
    ensures Carries(s.db, id, gid) && SightOk(s.db, s.wire, id, gid, v)
  {
    hide R.Sound, C.Core, Money, BodiesMatch, Verdicts, SightOk;
    if o :| o in s.reconcilers && s.reconcilers[o] == Reconciler(id, gid, v) {
      assert ReconcilerOk(s.db, s.wire, s.reconcilers[o]);
    } else {
      var t :| t in s.creators && s.creators[t].id == id && s.creators[t].gid == gid
               && s.creators[t].stage.Polling? && s.creators[t].stage.seen == v;
      assert CreatorOk(s.db, s.wire, s.creators[t]);
    }
  }

  /**
   Though the three statuses are read at different moments, a success verdict means that all three hold together now,
   and a failure verdict that no frozen or posted row is there now or will ever be.
   */
  lemma TornReadsAreSound(s: Sys, opening: map<string, int>, id: string, gid: string, v: Sighting, events: seq<Event>)
    requires Reachable(s, opening) && Sees(s, id, gid, v)
    ensures SawSuccess(v) ==>
      StatusOf(s.wire, gid) == Some(Succeed) && Carries(s.db, id, gid) && Taken(s.db, id, s.db.payments[id])
    ensures SawFailure(v) ==> Untouched(s.db, gid) && Untouched(Run(s, events).db, gid)
    ensures SawFailure(v) ==>
      v.reservation in {None, Some(Cancelled)} && v.entry in {None, Some(Prepared), Some(Voided)}
  {
    hide Inv, PaymentsLater, RowsLater, Reachable;
    ReachableInv(s, opening);
    SeenOk(s, opening, id, gid, v);
    EveryRun(s, events, opening);
    var later := Run(s, events);
    assert C.Core(s.db, s.wire) && BodiesMatch(s.db, s.wire) && R.Indexed(s.db) by { InvParts(s, opening); }
    assert C.Core(later.db, later.wire) by { InvParts(later, opening); }
    hide C.Core, BodiesMatch, Untouched;
    if SawSuccess(v) {
      SucceedTakes(s.db, s.wire, gid);
    }
    if SawFailure(v) {
      FailedTouchesNothing(s.db, s.wire, gid);
      FailedTouchesNothing(later.db, later.wire, gid);
      UntouchedReads(s.db, s.wire, id, gid, v);
    }
  }

  lemma UntouchedReads(db: Db, w: Wire, id: string, gid: string, v: Sighting)
    requires SightOk(db, w, id, gid, v) && Untouched(db, gid) && SawFailure(v)
    ensures v.reservation in {None, Some(Cancelled)} && v.entry in {None, Some(Prepared), Some(Voided)}
  {
    assert v.reservation.Some? ==> v.reservation.value.Cancelled?;
    assert v.entry.Some? ==> v.entry.value.Prepared? || v.entry.value.Voided?;
  }

  lemma InvParts(s: Sys, opening: map<string, int>)
    requires Inv(s, opening)
    ensures C.Core(s.db, s.wire) && BodiesMatch(s.db, s.wire) && R.Indexed(s.db) && Money(s.db, opening)
    ensures R.Logged(s.db) && R.Shaped(s.db)
  {
    hide C.Core, BodiesMatch, Verdicts, CreatorsOk, ReconcilersOk, Money, R.Logged, R.Indexed, R.Shaped;
  }

  /** Someone is about to write this verdict: a poller past its guard, or a reconciler whose guard holds. */
  predicate AboutTo(s: Sys, id: string, success: bool) {
    || (exists t :: t in s.creators && s.creators[t].id == id && s.creators[t].stage == Finalizing(success))
    || (exists o :: o in s.reconcilers && s.reconcilers[o].id == id
                    && if success then SawSuccess(s.reconcilers[o].seen) else SawFailure(s.reconcilers[o].seen))
  }

  lemma PollerJustified(s: Sys, opening: map<string, int>, t: nat, success: bool)
    requires Inv(s, opening) && t in s.creators && s.creators[t].stage == Finalizing(success)
    ensures Justified(s, s.creators[t].id, success)
  {
    hide Inv, C.Core, Money, BodiesMatch, R.Sound, Fingerprint;
    ThreadOk(s, t, opening);
  }

  lemma ReconcilerJustified(s: Sys, opening: map<string, int>, o: nat, success: bool)
    requires Inv(s, opening) && o in s.reconcilers
    requires if success then SawSuccess(s.reconcilers[o].seen) else SawFailure(s.reconcilers[o].seen)
    ensures Justified(s, s.reconcilers[o].id, success)
  {
    hide R.Sound, C.Core, Money, BodiesMatch, Verdicts, CreatorsOk;
    assert ReconcilerOk(s.db, s.wire, s.reconcilers[o]);
  }

  lemma AboutToJustified(s: Sys, opening: map<string, int>, id: string, success: bool)
    requires Inv(s, opening) && AboutTo(s, id, success)
    ensures Justified(s, id, success)
  {
    hide Inv, Justified, SawSuccess, SawFailure;
    if t :| t in s.creators && s.creators[t].id == id && s.creators[t].stage == Finalizing(success) {
      PollerJustified(s, opening, t, success);
    } else {
      var o :| o in s.reconcilers && s.reconcilers[o].id == id
               && if success then SawSuccess(s.reconcilers[o].seen) else SawFailure(s.reconcilers[o].seen);
      ReconcilerJustified(s, opening, o, success);
    }
  }

  /**
   All finalizers of a payment want the same verdict; the payment is still processing or already has it, so the branch
   for a conflicting terminal status is never taken; and the log holds each move once, the verdict's last.
   */
  lemma FinalizersAgree(s: Sys, opening: map<string, int>, id: string, success: bool, other: bool)
    requires Reachable(s, opening) && AboutTo(s, id, success) && AboutTo(s, id, other)
    ensures success == other
    ensures id in s.db.payments && s.db.payments[id].status in {Processing, Verdict(success)}
    ensures id in FinalizeDb(s.db, id, success).events
    ensures E.Moves(FinalizeDb(s.db, id, success).events[id]) == [Init, Processing, Verdict(success)]
    ensures s.db.payments[id].status == Verdict(success) ==> FinalizeDb(s.db, id, success) == s.db
  {
    hide Inv, Reachable, AboutTo, FinalizeDb;
    ReachableInv(s, opening);
    AboutToJustified(s, opening, id, success);
    AboutToJustified(s, opening, id, other);
    StatusMatches(s, opening, id, success);
    FinalizeStep(s, id, success, opening);
    FinalizedStatus(s.db, id, success);
    LogTold(s.(db := FinalizeDb(s.db, id, success)), opening, id);
  }

  lemma FinalizedStatus(db: Db, id: string, success: bool)
    requires id in db.payments && db.payments[id].status in {Processing, Verdict(success)}
    ensures id in FinalizeDb(db, id, success).payments
    ensures FinalizeDb(db, id, success).payments[id].status == Verdict(success)
    ensures db.payments[id].status == Verdict(success) ==> FinalizeDb(db, id, success) == db
  {
    hide R.LogOf, R.MaxSequence;
  }

  lemma StatusMatches(s: Sys, opening: map<string, int>, id: string, success: bool)
    requires Inv(s, opening) && Justified(s, id, success)
    ensures s.db.payments[id].status in {Processing, Verdict(success)}
  {
    hide C.Core, Money, BodiesMatch, CreatorsOk, ReconcilersOk, R.Logged, R.Indexed, F.Payload;
    assert VerdictOk(s.wire, s.db.payments[id]);
  }

  lemma LogTold(s: Sys, opening: map<string, int>, id: string)
    requires Inv(s, opening) && id in s.db.payments
    ensures id in s.db.events && R.Faithful(s.db.events[id], s.db.payments[id].status)
  {
    hide C.Core, Money, BodiesMatch, CreatorsOk, ReconcilersOk, Verdicts, R.Faithful, R.Indexed, R.Shaped;
  }

  /** Every payment's log is numbered from 1 without gaps and moves by the one path to the stored status. */
  lemma LogTells(s: Sys, opening: map<string, int>, id: string)
    requires Reachable(s, opening) && id in s.db.payments
    ensures id in s.db.events && R.Faithful(s.db.events[id], s.db.payments[id].status)
  {
    hide Inv, Reachable, R.Faithful;
    ReachableInv(s, opening);
    LogTold(s, opening, id);
  }

  /** What a run keeps of the tables and messages it starts from. */
  lemma StaysSound(s: Sys, opening: map<string, int>, events: seq<Event>)
    requires Reachable(s, opening)
    ensures var later := Run(s, events);
      R.Sound(s.db) && R.Sound(later.db) && Later(s.db, s.wire, later.db, later.wire)
  {
    hide Inv, Reachable, Run, R.Indexed, R.Logged, R.Shaped, Later, C.Core, BodiesMatch, Money;
    ReachableInv(s, opening);
    EveryRun(s, events, opening);
    InvParts(s, opening);
    InvParts(Run(s, events), opening);
  }

  /** A payment that has a gid stays processing, or stands where DTM's final word has put it. */
  lemma StandsByVerdict(s: Sys, opening: map<string, int>, events: seq<Event>, id: string)
    requires Reachable(s, opening) && id in s.db.payments && s.db.payments[id].gid.Some?
    ensures id in Run(s, events).db.payments
    ensures var later := Run(s, events);
      var status, dtm := later.db.payments[id].status, StatusOf(later.wire, s.db.payments[id].gid.value);
      status.Processing? || (status.Success? && dtm == Some(Succeed)) || (status.Failed? && dtm == Some(DtmFailed))
  {
    hide Inv, Reachable, Run, R.Indexed, R.Logged, RowsLater, WireLater, C.Core, BodiesMatch, Money;
    ReachableInv(s, opening);
    EveryRun(s, events, opening);
    InvParts(Run(s, events), opening);
    VerdictAt(Run(s, events), opening, id);
  }

  lemma VerdictAt(s: Sys, opening: map<string, int>, id: string)
    requires Inv(s, opening) && id in s.db.payments
    ensures var row := s.db.payments[id];
      && (row.status.Success? ==> row.gid.Some? && StatusOf(s.wire, row.gid.value) == Some(Succeed))
      && (row.status.Failed? ==> row.gid.Some? && StatusOf(s.wire, row.gid.value) == Some(DtmFailed))
      && !row.status.Closed?
  {
    hide R.Sound, C.Core, Money, BodiesMatch, CreatorsOk, ReconcilersOk, F.Payload;
    assert VerdictOk(s.wire, s.db.payments[id]);
  }

  /** Now and later, nothing is held or posted for a transaction that has failed. */
  lemma FailedStaysUntouched(s: Sys, opening: map<string, int>, events: seq<Event>, gid: string)
    requires Reachable(s, opening)
    ensures StatusOf(s.wire, gid) == Some(DtmFailed) ==> Untouched(s.db, gid)
    ensures StatusOf(Run(s, events).wire, gid) == Some(DtmFailed) ==> Untouched(Run(s, events).db, gid)
  {
    hide Inv, Reachable, Untouched, Run, C.Core;
    ReachableInv(s, opening);
    EveryRun(s, events, opening);
    var later := Run(s, events);
    InvParts(s, opening);
    InvParts(later, opening);
    if StatusOf(s.wire, gid) == Some(DtmFailed) {
      FailedTouchesNothing(s.db, s.wire, gid);
    }
    if StatusOf(later.wire, gid) == Some(DtmFailed) {
      FailedTouchesNothing(later.db, later.wire, gid);
    }
  }

  // ---- Idempotent creation ----

  /** Two Create calls that both created a payment under one key are the same call. */
  lemma OneOwner(s: Sys, opening: map<string, int>, t: nat, u: nat)
    requires Inv(s, opening) && t in s.creators && u in s.creators
    requires s.creators[t].owns && s.creators[u].owns && s.creators[t].call.key == s.creators[u].call.key
    ensures t == u
  {
    hide C.Core, Money, BodiesMatch, ReconcilersOk, Verdicts, R.Logged, R.Shaped, StageOk, Fingerprint;
    assert CreatorOk(s.db, s.wire, s.creators[t]) && CreatorOk(s.db, s.wire, s.creators[u]);
  }

  /** Rows of the participants belong to the payment that carries their gid. */
  lemma RowsBelong(s: Sys, opening: map<string, int>, gid: string)
    requires Inv(s, opening)
    ensures gid in s.db.reservations ==> gid in s.db.byGid && s.db.reservations[gid].paymentId == s.db.byGid[gid]
    ensures gid in s.db.ledger ==> gid in s.db.byGid && s.db.ledger[gid].paymentId == s.db.byGid[gid]
  {
    InvParts(s, opening);
    hide Inv, R.Logged, R.Shaped, Money;
    assert C.BranchOk(s.db, s.wire, gid, AccountBranch);
    assert C.BranchOk(s.db, s.wire, gid, LedgerBranch);
  }

  /** The key a participant row was paid under. */
  predicate UnderKey(db: Db, paymentId: string, key: string) {
    paymentId in db.payments && db.payments[paymentId].key == key
  }

  predicate ReservedUnder(db: Db, gid: string, key: string) {
    gid in db.reservations && UnderKey(db, db.reservations[gid].paymentId, key)
  }

  predicate EnteredUnder(db: Db, gid: string, key: string) {
    gid in db.ledger && UnderKey(db, db.ledger[gid].paymentId, key)
  }

  /** From the insert of its payment on, a Create is a coordinator. */
  predicate Coordinates(stage: Stage) {
    match stage
    case CacheLookup => false
    case VerifyCached(_) => false
    case FindRow => false
    case InsertRow => false
    case RefindRow => false
    case Finished(_) => false
    case _ => true
  }

  predicate CreatesUnder(s: Sys, t: nat, key: string) {
    t in s.creators && s.creators[t].owns && s.creators[t].call.key == key
  }

  lemma OwnerUnder(s: Sys, opening: map<string, int>, t: nat)
    requires Inv(s, opening) && t in s.creators && s.creators[t].owns
    ensures UnderKey(s.db, s.creators[t].id, s.creators[t].call.key)
  {
    hide Inv, StageOk, Fingerprint;
    ThreadOk(s, t, opening);
  }

  predicate Answers(s: Sys, t: nat, key: string, o: Outcome) {
    t in s.creators && s.creators[t].call.key == key && s.creators[t].stage == Finished(o)
  }

  /** A call that answered "created" created; a replayed id is the payment under the call's key. */
  lemma AnswerMeans(s: Sys, t: nat, opening: map<string, int>)
    requires Inv(s, opening) && t in s.creators && s.creators[t].stage.Finished?
    ensures var c := s.creators[t];
      && (c.stage.outcome.Created? ==> c.owns)
      && (c.stage.outcome.Replayed? ==> UnderKey(s.db, c.stage.outcome.id, c.call.key))
  {
    hide Inv, Fingerprint;
    ThreadOk(s, t, opening);
  }

  lemma OneCreates(s: Sys, opening: map<string, int>, key: string)
    requires Inv(s, opening)
    ensures forall t, u | CreatesUnder(s, t, key) && CreatesUnder(s, u, key) :: t == u
    ensures forall a, b | UnderKey(s.db, a, key) && UnderKey(s.db, b, key) :: a == b
    ensures forall g, h | ReservedUnder(s.db, g, key) && ReservedUnder(s.db, h, key) :: g == h
    ensures forall g, h | EnteredUnder(s.db, g, key) && EnteredUnder(s.db, h, key) :: g == h
  {
    hide Inv;
    InvParts(s, opening);
    hide C.Core, BodiesMatch, Money, R.Logged, R.Shaped;
    forall t, u | CreatesUnder(s, t, key) && CreatesUnder(s, u, key)
      ensures t == u
    {
      OneOwner(s, opening, t, u);
    }
    forall g, h | ReservedUnder(s.db, g, key) && ReservedUnder(s.db, h, key)
      ensures g == h
    {
      RowsBelong(s, opening, g);
      RowsBelong(s, opening, h);
    }
    forall g, h | EnteredUnder(s.db, g, key) && EnteredUnder(s.db, h, key)
      ensures g == h
    {
      RowsBelong(s, opening, g);
      RowsBelong(s, opening, h);
    }
  }

  lemma CreatedMeans(s: Sys, opening: map<string, int>, key: string, t: nat)
    requires Inv(s, opening) && Answers(s, t, key, Created)
    ensures CreatesUnder(s, t, key)
  {
    hide Inv;
    AnswerMeans(s, t, opening);
  }

  lemma ReplayedMeans(s: Sys, opening: map<string, int>, key: string, t: nat, id: string)
    requires Inv(s, opening) && Answers(s, t, key, Replayed(id))
    ensures UnderKey(s.db, id, key)
  {
    hide Inv, UnderKey;
    AnswerMeans(s, t, opening);
  }

  /**
   However many calls race with one key: one at most creates and at most one answers "created", every other call that
   completes replays that payment, is refused or fails; only a call that created goes on to BeginTCC and coordinates,
   and there is one payment, one gid, one reservation and one ledger row under that key at most.
   */
  lemma ExactlyOnce(s: Sys, opening: map<string, int>, key: string)
    requires Reachable(s, opening)
    ensures forall t | t in s.creators && Coordinates(s.creators[t].stage) :: s.creators[t].owns
    ensures forall t, u | CreatesUnder(s, t, key) && CreatesUnder(s, u, key) :: t == u
    ensures forall t, u | Answers(s, t, key, Created) && Answers(s, u, key, Created) :: t == u
    ensures forall t, u, id | CreatesUnder(s, t, key) && Answers(s, u, key, Replayed(id)) :: id == s.creators[t].id
    ensures forall t, u, i, j | Answers(s, t, key, Replayed(i)) && Answers(s, u, key, Replayed(j)) :: i == j
    ensures forall a, b | UnderKey(s.db, a, key) && UnderKey(s.db, b, key) :: a == b
    ensures forall g, h | ReservedUnder(s.db, g, key) && ReservedUnder(s.db, h, key) :: g == h
    ensures forall g, h | EnteredUnder(s.db, g, key) && EnteredUnder(s.db, h, key) :: g == h
  {
    hide Inv, Reachable, UnderKey, ReservedUnder, EnteredUnder, Answers;
    ReachableInv(s, opening);
    OneCreates(s, opening, key);
    forall t | t in s.creators && Coordinates(s.creators[t].stage)
      ensures s.creators[t].owns
    {
      ThreadOk(s, t, opening);
    }
    forall t | Answers(s, t, key, Created)
      ensures CreatesUnder(s, t, key)
    {
      CreatedMeans(s, opening, key, t);
    }
    forall t, id | Answers(s, t, key, Replayed(id))
      ensures UnderKey(s.db, id, key)
    {
      ReplayedMeans(s, opening, key, t, id);
    }
    forall t | CreatesUnder(s, t, key)
      ensures UnderKey(s.db, s.creators[t].id, key)
    {
      OwnerUnder(s, opening, t);
    }
  }

  /** What a Create that has come this far stands for, in the terms of the rows alone. */
  function Claims(c: Creator): Option<R.Decision> {
    if c.owns then Some(R.Replay(c.id))
    else if c.stage.Finished? && c.stage.outcome.Replayed? then Some(R.Replay(c.stage.outcome.id))
    else if c.stage.Finished? && c.stage.outcome.Conflicted? then Some(R.Conflict)
    else None
  }

  /**
   Whatever the cache answered and whoever raced, a Create that created, replayed or refused did what the rows alone
   decide for its key and request.
   */
  lemma CacheTransparent(s: Sys, opening: map<string, int>, t: nat)
    requires Reachable(s, opening) && t in s.creators && Claims(s.creators[t]).Some?
    ensures var c := s.creators[t];
      R.Decide(s.db, c.call.key, Fingerprint(c.call)) == Claims(c).value
  {
    hide Inv, Reachable, Fingerprint;
    ReachableInv(s, opening);
    InvParts(s, opening);
    hide C.Core, BodiesMatch, Money, R.Logged, R.Shaped;
    ThreadOk(s, t, opening);
    var c := s.creators[t];
    R.VerifiedIsReplay(s.db, c.id, c.call.key, Fingerprint(c.call));
    if c.stage.Finished? && c.stage.outcome.Replayed? {
      R.VerifiedIsReplay(s.db, c.stage.outcome.id, c.call.key, Fingerprint(c.call));
    }
  }

  /** The rows' decision for a key changes in one way only: a Create inserts its payment where there was none. */
  lemma CreatedFromNew(s: Sys, opening: map<string, int>, t: nat)
    requires Reachable(s, opening) && At(s, t) == Some(InsertRow)
    ensures t in InsertStep(s, t).creators
    ensures InsertStep(s, t).creators[t].owns ==>
      var c := s.creators[t];
      R.Decide(s.db, c.call.key, Fingerprint(c.call)).New?
      && R.Decide(InsertStep(s, t).db, c.call.key, Fingerprint(c.call)) == R.Replay(c.id)
  {
    hide Inv, Reachable, Fingerprint, R.LogOf, R.MaxSequence;
    ReachableInv(s, opening);
    ThreadOk(s, t, opening);
  }

  /** A replayed request with clean ids is the very request that created the payment, in every field. */
  lemma ReplayIsSameRequest(s: Sys, opening: map<string, int>, t: nat)
    requires Reachable(s, opening) && t in s.creators
    requires s.creators[t].stage.Finished? && s.creators[t].stage.outcome.Replayed?
    requires var c := s.creators[t].call; F.Clean(c.orderId) && F.Clean(c.accountId) && F.Clean(c.currency)
    ensures var id, c := s.creators[t].stage.outcome.id, s.creators[t].call;
      id in s.db.payments
      && (F.Clean(s.db.payments[id].currency) ==>
            var row := s.db.payments[id];
            row.orderId == c.orderId && row.accountId == c.accountId && row.amount == c.amount
                && row.currency == c.currency)
  {
    hide Inv, Reachable, F.Payload, F.Clean;
    ReachableInv(s, opening);
    ThreadOk(s, t, opening);
    var id, c := s.creators[t].stage.outcome.id, s.creators[t].call;
    var row := s.db.payments[id];
    StampOk(s, opening, id);
    if F.Clean(row.currency) {
      F.CleanDecodes(c.orderId, c.accountId, c.amount, c.currency, row.orderId, row.accountId, row.amount,
                     row.currency);
    }
  }

  lemma StampOk(s: Sys, opening: map<string, int>, id: string)
    requires Inv(s, opening) && id in s.db.payments
    ensures var row := s.db.payments[id];
      row.fingerprint == F.Payload(row.orderId, row.accountId, row.amount, row.currency)
  {
    hide R.Sound, C.Core, Money, BodiesMatch, CreatorsOk, ReconcilersOk, F.Payload;
    assert VerdictOk(s.wire, s.db.payments[id]);
  }

  // ---- Money ----

  /**
   In every reachable state each account's frozen balance is the sum of its frozen reservations, nothing is lost, every
   balance stays between zero and its opening, and the participants' "invariant violated" answer cannot occur.
   */
  lemma MoneyConserved(s: Sys, opening: map<string, int>, account: string, m: Msg)
    requires Reachable(s, opening) && account in s.db.accounts
    ensures account in opening
    ensures var a, holds := s.db.accounts[account], B.Holds(s.db.reservations);
      && a.frozen == H.Tied(holds, account, H.Held)
      && a.available + a.frozen + H.Tied(holds, account, H.Committed) == opening[account]
      && 0 <= a.available <= opening[account] && 0 <= a.frozen <= opening[account]
    ensures Deliver(s.db, m) != Rejected(InvariantViolated)
  {
    hide Inv, Reachable, Deliver;
    ReachableInv(s, opening);
    InvParts(s, opening);
    hide C.Core, BodiesMatch, R.Logged, R.Shaped, R.Indexed;
    var b := S.BookOf(s.db);
    assert account in b.balances;
    assert H.Balanced(b, account, opening[account]);
    H.Bounded(b, opening, account, "");
    S.NeverViolated(s.db, m, opening);
  }

  // ---- The participant is the plain account ----

  /** The abstract account's action for an account call. */
  function PlainAction(m: Msg): H.Action {
    match m.op
    case Try => H.Place(m.request.gid, m.request.accountId, m.request.amount)
    case Confirm => H.Commit(m.request.gid)
    case Cancel => H.Release(m.request.gid)
  }

  /** A Confirm in the network finds its own hold, and finds it settled if it was confirmed before. */
  lemma ConfirmFindsHold(db: Db, w: Wire, m: Msg)
    requires C.Core(db, w) && m in w.calls && m.branch.AccountBranch? && m.op.Confirm?
    ensures D.OwnsRow(db, m) && (KeyOf(m) in db.barrier ==> db.reservations[m.request.gid].state.Confirmed?)
  {
    assert C.CallOk(w, m) && C.BranchOk(db, w, m.request.gid, AccountBranch);
    assert C.Key(m.request.gid, AccountBranch, Try) in w.acks;
  }

  /** A Cancel in the network finds nothing, its own row, or the row of an earlier Cancel. */
  lemma CancelFindsOwn(db: Db, w: Wire, m: Msg)
    requires C.Core(db, w) && m in w.calls && m.branch.AccountBranch? && m.op.Cancel?
    ensures KeyOf(m) in db.barrier ==>
      TryKey(m) in db.barrier && (m.request.gid in db.reservations ==> !db.reservations[m.request.gid].state.Frozen?)
    ensures KeyOf(m) !in db.barrier && TryKey(m) in db.barrier ==> D.OwnsRow(db, m)
  {
    assert C.CallOk(w, m) && C.BranchOk(db, w, m.request.gid, AccountBranch);
  }

  /** No other reservation has the payment of a registered body. */
  lemma TryIsAdmissible(s: Sys, opening: map<string, int>, m: Msg)
    requires Inv(s, opening) && m in s.wire.calls && Complete(m.request)
    ensures S.TryAdmissible(s.db, m.request)
  {
    InvParts(s, opening);
    hide Inv, R.Logged, R.Shaped, Money, C.BranchOk;
    assert C.CallOk(s.wire, m);
    var q := m.request;
    assert BodyMatches(s.db, q.gid, s.wire.txns[q.gid].branches[m.branch]);
    forall g | g in s.db.reservations && g != q.gid
      ensures s.db.reservations[g].paymentId != q.paymentId
    {
      RowsBelong(s, opening, g);
    }
  }

  lemma ConfirmsPlainly(db: Db, m: Msg)
    requires m.branch.AccountBranch? && m.op.Confirm? && D.OwnsRow(db, m)
    requires KeyOf(m) in db.barrier ==> db.reservations[m.request.gid].state.Confirmed?
    ensures B.Maybe(S.BookOf(db), S.ActionOf(db, m)) == H.Act(S.BookOf(db), H.Commit(m.request.gid))
    ensures m.request.gid in S.BookOf(db).holds
  {
  }

  lemma CancelsPlainly(db: Db, m: Msg)
    requires m.branch.AccountBranch? && m.op.Cancel?
    requires KeyOf(m) in db.barrier ==>
      TryKey(m) in db.barrier && (m.request.gid in db.reservations ==> !db.reservations[m.request.gid].state.Frozen?)
    requires KeyOf(m) !in db.barrier && TryKey(m) in db.barrier ==> D.OwnsRow(db, m)
    ensures B.Maybe(S.BookOf(db), S.ActionOf(db, m)) == H.Act(S.BookOf(db), H.Release(m.request.gid))
  {
    var gid, b := m.request.gid, S.BookOf(db);
    S.RefusedIs(db.barrier, db.reservations, gid);
    if KeyOf(m) in db.barrier && gid !in db.reservations {
      assert gid in b.refused && b.refused + {gid} == b.refused;
    }
  }

  /**
   In every reachable state, whatever call the network may deliver to the account participant, however late or often,
   does what the plain hold / commit / release account does with it: no commit is ever burned, and every Confirm finds
   its hold.
   */
  lemma DeliveriesArePlain(s: Sys, opening: map<string, int>, m: Msg)
    requires Reachable(s, opening) && m in s.wire.calls && m.branch.AccountBranch?
    requires m.op.Try? ==> Complete(m.request)
    ensures S.BookOf(After(s.db, m)) == H.Act(S.BookOf(s.db), PlainAction(m))
    ensures m.op.Confirm? ==> m.request.gid in S.BookOf(s.db).holds
  {
    hide Inv, Reachable, After, H.Act, S.BookOf, Complete, D.OwnsRow, S.TryAdmissible;
    ReachableInv(s, opening);
    InvParts(s, opening);
    hide C.Core, BodiesMatch, R.Logged, R.Shaped, R.Indexed;
    S.DeliverySimulates(s.db, m, opening);
    match m.op
    case Try => TryIsAdmissible(s, opening, m);
    case Confirm =>
      ConfirmFindsHold(s.db, s.wire, m);
      ConfirmsPlainly(s.db, m);
    case Cancel =>
      CancelFindsOwn(s.db, s.wire, m);
      CancelsPlainly(s.db, m);
  }

  // ---- Convergence ----

  function Reconciliation(o: nat, id: string): seq<Event> {
    [Reconciles(o, id), Looks(o), Looks(o), Looks(o), Settles(o)]
  }

  /** A reconciler of this payment has taken these reads. */
  function With(s: Sys, o: nat, id: string, gid: string, v: Sighting): Sys {
    s.(reconcilers := s.reconcilers[o := Reconciler(id, gid, v)])
  }

  lemma OneLook(s: Sys, o: nat, id: string, gid: string, v: Sighting)
    ensures Do(With(s, o, id, gid, v), Looks(o)) == With(s, o, id, gid, Look(s, id, gid, v))
  {
    var s' := With(s, o, id, gid, v);
    assert Look(s', id, gid, v) == Look(s, id, gid, v);
    hide Look;
    var r := Reconciler(id, gid, Look(s, id, gid, v));
    assert s'.reconcilers[o := r] == s.reconcilers[o := r];
  }

  /** The reads a reconciler ends with when nothing happens in between. */
  function FullLook(s: Sys, id: string, gid: string): Sighting {
    Look(s, id, gid, Look(s, id, gid, Look(s, id, gid, NOTHING_SEEN)))
  }

  lemma RunFive(s: Sys, a: Event, b: Event, c: Event, d: Event, e: Event)
    ensures Run(s, [a, b, c, d, e]) == Do(Do(Do(Do(Do(s, a), b), c), d), e)
  {
    hide Do;
    assert [a, b, c, d, e][1..] == [b, c, d, e] && [b, c, d, e][1..] == [c, d, e];
    assert [c, d, e][1..] == [d, e] && [d, e][1..] == [e];
    assert Run(s, [a, b, c, d, e]) == Run(Do(Do(s, a), b), [c, d, e]);
    var last := Do(Do(Do(Do(s, a), b), c), d);
    assert Run(Do(Do(s, a), b), [c, d, e]) == Run(last, [e]);
    assert [e][1..] == [] && Run(last, [e]) == Run(Do(last, e), []);
  }

  lemma SettleAlone(s: Sys, o: nat, id: string, gid: string, v: Sighting)
    requires o !in s.reconcilers
    ensures Do(With(s, o, id, gid, v), Settles(o)) ==
      s.(db := SettleDb(s.db, id, v))
  {
    hide FinalizeDb, SawSuccess, SawFailure;
    assert With(s, o, id, gid, v).reconcilers - {o} == s.reconcilers;
  }

  /** An undisturbed reconcile takes its three reads of one state and finalizes by them. */
  lemma ThreeLooks(s: Sys, o: nat, id: string, gid: string)
    requires o !in s.reconcilers && Carries(s.db, id, gid) && s.db.payments[id].status.Processing?
    ensures var v := FullLook(s, id, gid);
      Run(s, Reconciliation(o, id)) ==
      s.(db := SettleDb(s.db, id, v))
  {
    assert Do(s, Reconciles(o, id)) == With(s, o, id, gid, NOTHING_SEEN);
    hide FinalizeDb, Look, SawSuccess, SawFailure, Do, With;
    var v1 := Look(s, id, gid, NOTHING_SEEN);
    var v2 := Look(s, id, gid, v1);
    RunFive(s, Reconciles(o, id), Looks(o), Looks(o), Looks(o), Settles(o));
    OneLook(s, o, id, gid, NOTHING_SEEN);
    OneLook(s, o, id, gid, v1);
    OneLook(s, o, id, gid, v2);
    SettleAlone(s, o, id, gid, Look(s, id, gid, v2));
  }

  lemma FullLookIs(s: Sys, id: string, gid: string)
    ensures var v := FullLook(s, id, gid);
      && v.count == 3 && v.dtm == StatusOf(s.wire, gid)
      && v.reservation == (if gid in s.db.reservations && s.db.reservations[gid].paymentId == id
                           then Some(s.db.reservations[gid].state) else None)
      && v.entry == (if gid in s.db.ledger && s.db.ledger[gid].paymentId == id
                     then Some(s.db.ledger[gid].state) else None)
  {
  }

  /** Reads taken of one state after DTM's final word show the verdict it means. */
  lemma FullLookSees(s: Sys, opening: map<string, int>, id: string, gid: string)
    requires Inv(s, opening) && Carries(s.db, id, gid) && StatusOf(s.wire, gid) in {Some(Succeed), Some(DtmFailed)}
    ensures if StatusOf(s.wire, gid) == Some(Succeed) then SawSuccess(FullLook(s, id, gid))
            else SawFailure(FullLook(s, id, gid)) && !SawSuccess(FullLook(s, id, gid))
  {
    hide Inv, FullLook, C.Core, BodiesMatch, Money, R.Logged, R.Shaped;
    InvParts(s, opening);
    FullLookIs(s, id, gid);
    if StatusOf(s.wire, gid) == Some(Succeed) {
      SucceedTakes(s.db, s.wire, gid);
    } else {
      FailedTouchesNothing(s.db, s.wire, gid);
    }
  }

  /** Once DTM's word is final, one undisturbed reconcile gives a processing payment the verdict that word means. */
  lemma OneReconcileSuffices(s: Sys, opening: map<string, int>, o: nat, id: string, gid: string)
    requires Reachable(s, opening) && o !in s.reconcilers
    requires Carries(s.db, id, gid) && s.db.payments[id].status.Processing?
    requires StatusOf(s.wire, gid) in {Some(Succeed), Some(DtmFailed)}
    ensures var after := Run(s, Reconciliation(o, id)).db;
      id in after.payments && after.payments[id].status == Verdict(StatusOf(s.wire, gid) == Some(Succeed))
  {
    hide Inv, Reachable, FinalizeDb, FullLook, SawSuccess, SawFailure, Run;
    ReachableInv(s, opening);
    ThreeLooks(s, o, id, gid);
    FullLookSees(s, opening, id, gid);
    FinalizedStatus(s.db, id, StatusOf(s.wire, gid) == Some(Succeed));
  }
}

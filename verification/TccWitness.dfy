/**
 Runs of the distributed mode that end in success, by an injected fault, and by a refused Try: what is promised of
 payments that succeed or fail is promised of something.
 */
module TccWitness {
  import opened Domain
  import opened Tables
  import opened BranchRules
  import opened Dtm
  import opened TccSystem
  import opened TccCreate
  import opened TccTheorems
  import R = RepositoryRules

  lemma {:induction false} RunAppend(s: Sys, events: seq<Event>, e: Event)
    ensures Run(s, events + [e]) == Do(Run(s, events), e)
    decreases |events|
  {
    hide Do;
    if events == [] {
      assert [e][1..] == [] && events + [e] == [e];
    } else {
      assert (events + [e])[1..] == events[1..] + [e];
      RunAppend(Do(s, events[0]), events[1..], e);
    }
  }

  lemma ReachableStep(s: Sys, opening: map<string, int>, e: Event)
    requires Reachable(s, opening)
    ensures Reachable(Do(s, e), opening)
  {
    hide Do, Opened;
    var accounts: map<string, Account>, events: seq<Event> :| Opened(accounts, opening)
        && s == Run(Fresh(accounts), events);
    RunAppend(Fresh(accounts), events, e);
  }

  /** How far one branch's rows have come. */
  datatype Part = Nothing | Held | Settled | Undone | Barred

  /** The request, the ids its Create draws, and whether its account can pay. */
  datatype Cast = Cast(call: CreateCall, id: string, gid: string, pays: bool)

  function Body(k: Cast): Request {
    Request(k.id, k.gid, k.call.accountId, k.call.amount, false)
  }

  function Reservations(k: Cast, p: Part): map<string, Reservation> {
    if p.Nothing? || p.Barred? then map[]
    else map[k.gid := Reservation(k.id, k.call.accountId, k.call.amount,
                                  if p.Held? then Frozen else if p.Settled? then Confirmed else Cancelled)]
  }

  function Entries(k: Cast, p: Part): map<string, LedgerRow> {
    if p.Nothing? || p.Barred? then map[]
    else map[k.gid := LedgerRow(k.id, k.call.accountId, k.call.amount,
                                if p.Held? then Prepared else if p.Settled? then Posted else Voided)]
  }

  predicate Marks(db: Db, gid: string, branch: Branch, p: Part) {
    && (BarrierKey(gid, branch, Try) in db.barrier <==> !p.Nothing?)
    && (BarrierKey(gid, branch, Confirm) in db.barrier <==> p.Settled?)
    && (BarrierKey(gid, branch, Cancel) in db.barrier <==> p.Undone? || p.Barred?)
  }

  /** The account can go through with what is still to be done for this request. */
  predicate Funds(db: Db, k: Cast, p: Part) {
    && k.call.accountId in db.accounts
    && (p.Nothing? ==>
          db.accounts[k.call.accountId].available >= k.call.amount && db.accounts[k.call.accountId].frozen >= 0)
    && (p.Held? ==> db.accounts[k.call.accountId].frozen >= k.call.amount)
  }

  predicate Rows(db: Db, k: Cast, status: PaymentStatus, a: Part, l: Part) {
    && db.payments.Keys == {k.id} && db.payments[k.id].gid == Some(k.gid) && db.payments[k.id].status == status
    && db.payments[k.id].accountId == k.call.accountId && db.payments[k.id].amount == k.call.amount
    && db.reservations == Reservations(k, a) && db.ledger == Entries(k, l)
    && (k.pays ==> Funds(db, k, a))
    && Marks(db, k.gid, AccountBranch, a) && Marks(db, k.gid, LedgerBranch, l)
  }

  /** The coordinator stands at `stage`, the rows as said, DTM's transaction as said. */
  predicate Scene(s: Sys, k: Cast, stage: Stage, status: PaymentStatus, a: Part, l: Part) {
    && 0 in s.creators && s.creators[0] == Creator(k.call, k.id, k.gid, stage, true)
    && Rows(s.db, k, status, a, l)
  }

  predicate Sound(k: Cast) {
    k.id != "" && k.gid != "" && k.call.accountId != "" && k.call.amount > 0 && !k.call.fault.LedgerTryFault?
  }

  lemma AccountTries(db: Db, k: Cast, l: Part)
    requires Sound(k) && k.pays && Rows(db, k, Processing, Nothing, l)
    ensures Deliver(db, Msg(AccountBranch, Try, Body(k))).Applied?
    ensures Rows(After(db, Msg(AccountBranch, Try, Body(k))), k, Processing, Held, l)
  {
    assert db.reservations == map[];
  }

  lemma LedgerTries(db: Db, k: Cast, a: Part)
    requires Sound(k) && Rows(db, k, Processing, a, Nothing)
    ensures Deliver(db, Msg(LedgerBranch, Try, Body(k))).Applied?
    ensures Rows(After(db, Msg(LedgerBranch, Try, Body(k))), k, Processing, a, Held)
  {
    assert db.ledger == map[];
  }

  /** A first Confirm or Cancel after the Try runs, and marks its own key. */
  lemma SettleMarks(db: Db, k: Cast, branch: Branch, op: Op)
    requires !op.Try? && Marks(db, k.gid, branch, Held)
    ensures var m := Msg(branch, op, Body(k));
      Runs(db, m) && Marked(db, m) == db.(barrier := db.barrier[KeyOf(m) := op])
  {
  }

  lemma AccountConfirms(db: Db, k: Cast, l: Part)
    requires Sound(k) && k.pays && Rows(db, k, Processing, Held, l)
    ensures Deliver(db, Msg(AccountBranch, Confirm, Body(k))).Applied?
    ensures Rows(After(db, Msg(AccountBranch, Confirm, Body(k))), k, Processing, Settled, l)
  {
    hide Runs, Marked;
    SettleMarks(db, k, AccountBranch, Confirm);
    assert k.gid in db.reservations;
  }

  lemma LedgerConfirms(db: Db, k: Cast, a: Part)
    requires Sound(k) && Rows(db, k, Processing, a, Held)
    ensures Deliver(db, Msg(LedgerBranch, Confirm, Body(k))).Applied?
    ensures Rows(After(db, Msg(LedgerBranch, Confirm, Body(k))), k, Processing, a, Settled)
  {
    hide Runs, Marked;
    SettleMarks(db, k, LedgerBranch, Confirm);
    assert k.gid in db.ledger;
  }

  /** DTM has this transaction, with these branches' bodies. */
  predicate HasTxn(w: Wire, k: Cast, status: Status, branches: map<Branch, Request>) {
    k.gid in w.txns && w.txns[k.gid] == Txn(status, branches)
  }

  lemma Begun(s: Sys, k: Cast)
    requires Sound(k) && s.creators == map[0 := Creator(k.call, k.id, k.gid, Beginning, true)]
    requires s.wire == Wire(map[], {}, {}, {})
    requires s.db.payments == map[k.id := RowOf(k.call)] && s.db.byGid == map[]
    requires s.db.reservations == map[] && s.db.ledger == map[] && s.db.barrier == map[]
    requires k.pays ==> Funds(s.db, k, Nothing)
    ensures Scene(Do(s, Begins(0)), k, Preparing, Processing, Nothing, Nothing)
    ensures Do(s, Begins(0)).wire == Wire(map[], {AskPrepare(k.gid)}, {}, {})
  {
    hide R.MaxSequence, R.LogOf, Fingerprint;
  }

  lemma Opening(accounts: map<string, Account>, opening: map<string, int>, k: Cast) returns (s: Sys)
    requires Sound(k) && Opened(accounts, opening)
    requires k.pays ==> k.call.accountId in accounts && accounts[k.call.accountId].available >= k.call.amount
    ensures Reachable(s, opening)
    ensures Scene(s, k, Preparing, Processing, Nothing, Nothing)
    ensures s.wire == Wire(map[], {AskPrepare(k.gid)}, {}, {})
  {
    hide Do, Scene;
    s := Fresh(accounts);
    assert Run(s, []) == s;
    assert Reachable(s, opening);
    s := Inserted(s, opening, k);
    ReachableStep(s, opening, Begins(0));
    Begun(s, k);
    s := Do(s, Begins(0));
  }

  lemma Found(s0: Sys, opening: map<string, int>, k: Cast) returns (s: Sys)
    requires Reachable(s0, opening) && s0 == Fresh(s0.db.accounts)
    ensures Reachable(s, opening) && s.db == s0.db && s.wire == s0.wire
    ensures s.creators == map[0 := Creator(k.call, k.id, k.gid, InsertRow, false)]
  {
    hide R.MaxSequence, R.LogOf, Fingerprint, Reachable;
    s := s0;
    ReachableStep(s, opening, Arrives(0, k.call));
    s := Do(s, Arrives(0, k.call));
    ReachableStep(s, opening, CacheAnswers(0, None));
    s := Do(s, CacheAnswers(0, None));
    ReachableStep(s, opening, Finds(0, k.id, k.gid));
    s := Do(s, Finds(0, k.id, k.gid));
  }

  lemma Inserted(s0: Sys, opening: map<string, int>, k: Cast) returns (s: Sys)
    requires Sound(k) && Reachable(s0, opening) && s0 == Fresh(s0.db.accounts)
    ensures Reachable(s, opening)
    ensures s.creators == map[0 := Creator(k.call, k.id, k.gid, Beginning, true)] && s.wire == s0.wire
    ensures s.db.payments == map[k.id := RowOf(k.call)] && s.db.byGid == map[]
    ensures s.db.reservations == map[] && s.db.ledger == map[] && s.db.barrier == map[]
    ensures s.db.accounts == s0.db.accounts
  {
    hide R.MaxSequence, R.LogOf, Fingerprint, Reachable;
    s := Found(s0, opening, k);
    ReachableStep(s, opening, Inserts(0));
    s := Do(s, Inserts(0));
  }

  lemma PreparedTxn(s0: Sys, opening: map<string, int>, k: Cast) returns (s: Sys)
    requires Reachable(s0, opening) && Scene(s0, k, Preparing, Processing, Nothing, Nothing)
    requires s0.wire == Wire(map[], {AskPrepare(k.gid)}, {}, {}) && Sound(k)
    ensures Reachable(s, opening) && Scene(s, k, RegisteringAccount, Processing, Nothing, Nothing)
    ensures HasTxn(s.wire, k, DtmPrepared, map[]) && AskRegister(k.gid, AccountBranch, Body(k)) in s.wire.asks
  {
    hide Reachable, Rows;
    ReachableStep(s0, opening, DtmServes(AskPrepare(k.gid)));
    s := Do(s0, DtmServes(AskPrepare(k.gid)));
    ReachableStep(s, opening, Prepares(0, true));
    s := Do(s, Prepares(0, true));
  }

  lemma RegisteredAccount(s0: Sys, opening: map<string, int>, k: Cast) returns (s: Sys)
    requires Reachable(s0, opening) && Scene(s0, k, RegisteringAccount, Processing, Nothing, Nothing) && Sound(k)
    requires HasTxn(s0.wire, k, DtmPrepared, map[]) && AskRegister(k.gid, AccountBranch, Body(k)) in s0.wire.asks
    ensures Reachable(s, opening) && Scene(s, k, TryingAccount, Processing, Nothing, Nothing)
    ensures HasTxn(s.wire, k, DtmPrepared, map[AccountBranch := Body(k)])
    ensures Msg(AccountBranch, Try, Body(k)) in s.wire.calls
  {
    hide Reachable, Rows;
    var ask := AskRegister(k.gid, AccountBranch, Body(k));
    ReachableStep(s0, opening, DtmServes(ask));
    s := Do(s0, DtmServes(ask));
    ReachableStep(s, opening, Registers(0, true));
    s := Do(s, Registers(0, true));
  }

  lemma TriedAccount(s0: Sys, opening: map<string, int>, k: Cast) returns (s: Sys)
    requires Reachable(s0, opening) && Scene(s0, k, TryingAccount, Processing, Nothing, Nothing) && Sound(k)
    requires k.pays && k.call.fault.NoFault?
    requires HasTxn(s0.wire, k, DtmPrepared, map[AccountBranch := Body(k)])
    requires Msg(AccountBranch, Try, Body(k)) in s0.wire.calls
    ensures Reachable(s, opening) && Scene(s, k, RegisteringLedger, Processing, Held, Nothing)
    ensures HasTxn(s.wire, k, DtmPrepared, map[AccountBranch := Body(k)])
    ensures AskRegister(k.gid, LedgerBranch, Body(k)) in s.wire.asks
  {
    hide Reachable, Rows, Deliver, After;
    var m := Msg(AccountBranch, Try, Body(k));
    AccountTries(s0.db, k, Nothing);
    ReachableStep(s0, opening, Arriving(m));
    s := Do(s0, Arriving(m));
    ReachableStep(s, opening, Tries(0, true));
    s := Do(s, Tries(0, true));
  }

  lemma RegisteredLedger(s0: Sys, opening: map<string, int>, k: Cast) returns (s: Sys)
    requires Reachable(s0, opening) && Scene(s0, k, RegisteringLedger, Processing, Held, Nothing) && Sound(k)
    requires k.call.fault.NoFault?
    requires HasTxn(s0.wire, k, DtmPrepared, map[AccountBranch := Body(k)])
    requires AskRegister(k.gid, LedgerBranch, Body(k)) in s0.wire.asks
    ensures Reachable(s, opening) && Scene(s, k, TryingLedger, Processing, Held, Nothing)
    ensures HasTxn(s.wire, k, DtmPrepared, map[AccountBranch := Body(k), LedgerBranch := Body(k)])
    ensures Msg(LedgerBranch, Try, Body(k)) in s.wire.calls
  {
    hide Reachable, Rows;
    var ask := AskRegister(k.gid, LedgerBranch, Body(k));
    ReachableStep(s0, opening, DtmServes(ask));
    s := Do(s0, DtmServes(ask));
    ReachableStep(s, opening, Registers(0, true));
    s := Do(s, Registers(0, true));
  }

  lemma TriedLedger(s0: Sys, opening: map<string, int>, k: Cast) returns (s: Sys)
    requires Reachable(s0, opening) && Scene(s0, k, TryingLedger, Processing, Held, Nothing) && Sound(k)
    requires HasTxn(s0.wire, k, DtmPrepared, map[AccountBranch := Body(k), LedgerBranch := Body(k)])
    requires Msg(LedgerBranch, Try, Body(k)) in s0.wire.calls
    ensures Reachable(s, opening) && Scene(s, k, Submitting, Processing, Held, Held)
    ensures HasTxn(s.wire, k, DtmPrepared, map[AccountBranch := Body(k), LedgerBranch := Body(k)])
    ensures AskSubmit(k.gid) in s.wire.asks
  {
    hide Reachable, Rows, Deliver, After;
    var m := Msg(LedgerBranch, Try, Body(k));
    LedgerTries(s0.db, k, Held);
    ReachableStep(s0, opening, Arriving(m));
    s := Do(s0, Arriving(m));
    ReachableStep(s, opening, Tries(0, true));
    s := Do(s, Tries(0, true));
  }

  lemma SubmittedBoth(s0: Sys, opening: map<string, int>, k: Cast) returns (s: Sys)
    requires Reachable(s0, opening) && Scene(s0, k, Submitting, Processing, Held, Held)
    requires HasTxn(s0.wire, k, DtmPrepared, map[AccountBranch := Body(k), LedgerBranch := Body(k)])
    requires AskSubmit(k.gid) in s0.wire.asks
    ensures Reachable(s, opening) && Scene(s, k, Polling(true, NOTHING_SEEN), Processing, Held, Held)
    ensures HasTxn(s.wire, k, Submitted, map[AccountBranch := Body(k), LedgerBranch := Body(k)])
  {
    hide Reachable, Rows;
    ReachableStep(s0, opening, DtmServes(AskSubmit(k.gid)));
    s := Do(s0, DtmServes(AskSubmit(k.gid)));
    ReachableStep(s, opening, Submits(0, true));
    s := Do(s, Submits(0, true));
  }

  lemma ConfirmedAccount(s0: Sys, opening: map<string, int>, k: Cast, stage: Stage, l: Part) returns (s: Sys)
    requires Reachable(s0, opening) && Scene(s0, k, stage, Processing, Held, l) && Sound(k) && k.pays
    requires HasTxn(s0.wire, k, Submitted, map[AccountBranch := Body(k), LedgerBranch := Body(k)])
    ensures Reachable(s, opening) && Scene(s, k, stage, Processing, Settled, l)
    ensures HasTxn(s.wire, k, Submitted, map[AccountBranch := Body(k), LedgerBranch := Body(k)])
    ensures BarrierKey(k.gid, AccountBranch, Confirm) in s.wire.acks
  {
    hide Reachable, Rows, Deliver, After;
    var m := Msg(AccountBranch, Confirm, Body(k));
    AccountConfirms(s0.db, k, l);
    ReachableStep(s0, opening, DtmDispatches(k.gid, AccountBranch));
    s := Do(s0, DtmDispatches(k.gid, AccountBranch));
    ReachableStep(s, opening, Arriving(m));
    s := Do(s, Arriving(m));
  }

  lemma ConfirmedLedger(s0: Sys, opening: map<string, int>, k: Cast, stage: Stage, a: Part) returns (s: Sys)
    requires Reachable(s0, opening) && Scene(s0, k, stage, Processing, a, Held) && Sound(k)
    requires HasTxn(s0.wire, k, Submitted, map[AccountBranch := Body(k), LedgerBranch := Body(k)])
    ensures Reachable(s, opening) && Scene(s, k, stage, Processing, a, Settled)
    ensures HasTxn(s.wire, k, Submitted, map[AccountBranch := Body(k), LedgerBranch := Body(k)])
    ensures s.wire.acks == s0.wire.acks + {BarrierKey(k.gid, LedgerBranch, Confirm)}
  {
    hide Reachable, Rows, Deliver, After;
    var m := Msg(LedgerBranch, Confirm, Body(k));
    LedgerConfirms(s0.db, k, a);
    ReachableStep(s0, opening, DtmDispatches(k.gid, LedgerBranch));
    s := Do(s0, DtmDispatches(k.gid, LedgerBranch));
    ReachableStep(s, opening, Arriving(m));
    s := Do(s, Arriving(m));
  }

  const ALL_SEEN := Sighting(3, Some(Confirmed), Some(Posted), Some(Succeed))

  lemma Watched(s0: Sys, opening: map<string, int>, k: Cast) returns (s: Sys)
    requires Reachable(s0, opening) && Scene(s0, k, Polling(true, NOTHING_SEEN), Processing, Settled, Settled)
    requires StatusOf(s0.wire, k.gid) == Some(Succeed)
    ensures Reachable(s, opening) && Scene(s, k, Polling(true, ALL_SEEN), Processing, Settled, Settled)
  {
    hide Reachable, Marks;
    ReachableStep(s0, opening, Reads(0));
    s := Do(s0, Reads(0));
    ReachableStep(s, opening, Reads(0));
    s := Do(s, Reads(0));
    ReachableStep(s, opening, Reads(0));
    s := Do(s, Reads(0));
  }

  lemma DtmSucceeded(s0: Sys, opening: map<string, int>, k: Cast) returns (s: Sys)
    requires Reachable(s0, opening) && Scene(s0, k, Polling(true, NOTHING_SEEN), Processing, Settled, Settled)
    requires HasTxn(s0.wire, k, Submitted, map[AccountBranch := Body(k), LedgerBranch := Body(k)])
    requires {BarrierKey(k.gid, AccountBranch, Confirm), BarrierKey(k.gid, LedgerBranch, Confirm)} <= s0.wire.acks
    ensures Reachable(s, opening) && Scene(s, k, Polling(true, NOTHING_SEEN), Processing, Settled, Settled)
    ensures StatusOf(s.wire, k.gid) == Some(Succeed)
  {
    hide Reachable, Rows;
    ReachableStep(s0, opening, DtmFinishes(k.gid));
    s := Do(s0, DtmFinishes(k.gid));
  }

  lemma FinalizesRows(db: Db, k: Cast)
    requires Rows(db, k, Processing, Settled, Settled)
    ensures Rows(FinalizeDb(db, k.id, true), k, Success, Settled, Settled)
  {
    hide R.MaxSequence, R.LogOf;
  }

  lemma Finalized(s0: Sys, opening: map<string, int>, k: Cast) returns (s: Sys)
    requires Reachable(s0, opening) && Scene(s0, k, Polling(true, ALL_SEEN), Processing, Settled, Settled)
    ensures Reachable(s, opening) && Scene(s, k, Finished(Created), Success, Settled, Settled)
  {
    hide Reachable, Rows, FinalizeDb;
    FinalizesRows(s0.db, k);
    ReachableStep(s0, opening, Concludes(0));
    s := Do(s0, Concludes(0));
    ReachableStep(s, opening, Finalizes(0));
    s := Do(s, Finalizes(0));
  }

  /** Any well-formed request that its account can pay for succeeds in some run. */
  lemma SuccessHappens(accounts: map<string, Account>, opening: map<string, int>, k: Cast) returns (s: Sys)
    requires Sound(k) && k.call.fault.NoFault? && k.pays && Opened(accounts, opening)
    requires k.call.accountId in accounts && accounts[k.call.accountId].available >= k.call.amount
    ensures Reachable(s, opening)
    ensures k.id in s.db.payments && s.db.payments[k.id].status.Success? && Taken(s.db, k.id, s.db.payments[k.id])
  {
    hide Reachable, Opened, HasTxn, Rows;
    s := Opening(accounts, opening, k);
    s := PreparedTxn(s, opening, k);
    s := RegisteredAccount(s, opening, k);
    s := TriedAccount(s, opening, k);
    s := RegisteredLedger(s, opening, k);
    s := TriedLedger(s, opening, k);
    s := SubmittedBoth(s, opening, k);
    s := ConfirmedAccount(s, opening, k, Polling(true, NOTHING_SEEN), Held);
    s := ConfirmedLedger(s, opening, k, Polling(true, NOTHING_SEEN), Settled);
    s := DtmSucceeded(s, opening, k);
    s := Watched(s, opening, k);
    s := Finalized(s, opening, k);
    RowsTaken(s.db, k);
  }

  lemma RowsTaken(db: Db, k: Cast)
    requires Rows(db, k, Success, Settled, Settled)
    ensures k.id in db.payments && db.payments[k.id].status.Success? && Taken(db, k.id, db.payments[k.id])
  {
    assert k.id in db.payments && k.gid in db.reservations && k.gid in db.ledger;
  }

  // ---- Failure ----

  lemma AccountCancels(db: Db, k: Cast)
    requires Sound(k) && k.pays && Rows(db, k, Processing, Held, Nothing)
    ensures Deliver(db, Msg(AccountBranch, Cancel, Body(k))).Applied?
    ensures Rows(After(db, Msg(AccountBranch, Cancel, Body(k))), k, Processing, Undone, Nothing)
  {
    hide Runs, Marked;
    SettleMarks(db, k, AccountBranch, Cancel);
    assert k.gid in db.reservations;
  }

  lemma AccountBarred(db: Db, k: Cast)
    requires Sound(k) && Rows(db, k, Processing, Nothing, Nothing)
    ensures Deliver(db, Msg(AccountBranch, Cancel, Body(k))).Applied?
    ensures Rows(After(db, Msg(AccountBranch, Cancel, Body(k))), k, Processing, Barred, Nothing)
  {
  }

  /** The account's Try is answered and the fault strikes, or the Try is answered with an error. */
  lemma Struck(s0: Sys, opening: map<string, int>, k: Cast) returns (s: Sys)
    requires Reachable(s0, opening) && Scene(s0, k, TryingAccount, Processing, Nothing, Nothing) && Sound(k)
    requires k.pays ==> k.call.fault.AfterAccountTry?
    requires HasTxn(s0.wire, k, DtmPrepared, map[AccountBranch := Body(k)])
    requires Msg(AccountBranch, Try, Body(k)) in s0.wire.calls
    ensures Reachable(s, opening)
    ensures Scene(s, k, NotingAbort, Processing, if k.pays then Held else Nothing, Nothing)
    ensures HasTxn(s.wire, k, DtmPrepared, map[AccountBranch := Body(k)]) && AskAbort(k.gid) in s.wire.asks
  {
    hide Reachable, Rows, Deliver, After;
    s := s0;
    if k.pays {
      AccountTries(s.db, k, Nothing);
      ReachableStep(s, opening, Arriving(Msg(AccountBranch, Try, Body(k))));
      s := Do(s, Arriving(Msg(AccountBranch, Try, Body(k))));
    }
    ReachableStep(s, opening, Tries(0, k.pays));
    s := Do(s, Tries(0, k.pays));
  }

  /** What the Cancel leaves of a Try that was made, or was not. */
  function CancelledPart(k: Cast): Part {
    if k.pays then Undone else Barred
  }

  lemma CancelArrives(db: Db, k: Cast)
    requires Sound(k) && Rows(db, k, Processing, if k.pays then Held else Nothing, Nothing)
    ensures Deliver(db, Msg(AccountBranch, Cancel, Body(k))).Applied?
    ensures Rows(After(db, Msg(AccountBranch, Cancel, Body(k))), k, Processing, CancelledPart(k), Nothing)
  {
    hide Rows, Deliver, After;
    if k.pays {
      AccountCancels(db, k);
    } else {
      AccountBarred(db, k);
    }
  }

  lemma Aborted(s0: Sys, opening: map<string, int>, k: Cast) returns (s: Sys)
    requires Reachable(s0, opening) && Sound(k)
    requires Scene(s0, k, NotingAbort, Processing, if k.pays then Held else Nothing, Nothing)
    requires HasTxn(s0.wire, k, DtmPrepared, map[AccountBranch := Body(k)]) && AskAbort(k.gid) in s0.wire.asks
    ensures Reachable(s, opening) && Scene(s, k, NotingAbort, Processing, CancelledPart(k), Nothing)
    ensures HasTxn(s.wire, k, Aborting, map[AccountBranch := Body(k)])
    ensures BarrierKey(k.gid, AccountBranch, Cancel) in s.wire.acks
  {
    hide Reachable, Rows, Deliver, After;
    ReachableStep(s0, opening, DtmServes(AskAbort(k.gid)));
    s := Do(s0, DtmServes(AskAbort(k.gid)));
    ReachableStep(s, opening, DtmDispatches(k.gid, AccountBranch));
    s := Do(s, DtmDispatches(k.gid, AccountBranch));
    CancelArrives(s.db, k);
    ReachableStep(s, opening, Arriving(Msg(AccountBranch, Cancel, Body(k))));
    s := Do(s, Arriving(Msg(AccountBranch, Cancel, Body(k))));
  }

  lemma DtmFails(s0: Sys, opening: map<string, int>, k: Cast) returns (s: Sys)
    requires Reachable(s0, opening) && Scene(s0, k, NotingAbort, Processing, CancelledPart(k), Nothing)
    requires HasTxn(s0.wire, k, Aborting, map[AccountBranch := Body(k)])
    requires BarrierKey(k.gid, AccountBranch, Cancel) in s0.wire.acks
    ensures Reachable(s, opening) && StatusOf(s.wire, k.gid) == Some(DtmFailed)
    ensures Scene(s, k, Polling(false, NOTHING_SEEN), Processing, CancelledPart(k), Nothing)
  {
    hide Reachable, Rows, R.RecordEvent;
    ReachableStep(s0, opening, DtmFinishes(k.gid));
    s := Do(s0, DtmFinishes(k.gid));
    ReachableStep(s, opening, NotesAbort(0, true));
    NotedRows(s.db, k);
    s := Do(s, NotesAbort(0, true));
  }

  lemma NotedRows(db: Db, k: Cast)
    requires Rows(db, k, Processing, CancelledPart(k), Nothing)
    ensures Rows(R.RecordEvent(db, k.id, "DTM_TCC_ABORTED"), k, Processing, CancelledPart(k), Nothing)
  {
    hide R.MaxSequence, R.LogOf;
  }

  function FailureSeen(k: Cast): Sighting {
    Sighting(3, if k.pays then Some(ReservationState.Cancelled) else None, None, Some(DtmFailed))
  }

  lemma FailureWatched(s0: Sys, opening: map<string, int>, k: Cast) returns (s: Sys)
    requires Reachable(s0, opening) && StatusOf(s0.wire, k.gid) == Some(DtmFailed)
    requires Scene(s0, k, Polling(false, NOTHING_SEEN), Processing, CancelledPart(k), Nothing)
    ensures Reachable(s, opening)
    ensures Scene(s, k, Polling(false, FailureSeen(k)), Processing, CancelledPart(k), Nothing)
  {
    hide Reachable, Marks, Funds;
    ReachableStep(s0, opening, Reads(0));
    s := Do(s0, Reads(0));
    ReachableStep(s, opening, Reads(0));
    s := Do(s, Reads(0));
    ReachableStep(s, opening, Reads(0));
    s := Do(s, Reads(0));
  }

  lemma FailureFinalized(s0: Sys, opening: map<string, int>, k: Cast) returns (s: Sys)
    requires Reachable(s0, opening)
    requires Scene(s0, k, Polling(false, FailureSeen(k)), Processing, CancelledPart(k), Nothing)
    ensures Reachable(s, opening) && Scene(s, k, Finished(Created), Failed, CancelledPart(k), Nothing)
  {
    hide Reachable, Rows, FinalizeDb;
    FailsRows(s0.db, k);
    ReachableStep(s0, opening, Concludes(0));
    s := Do(s0, Concludes(0));
    ReachableStep(s, opening, Finalizes(0));
    s := Do(s, Finalizes(0));
  }

  lemma FailsRows(db: Db, k: Cast)
    requires Rows(db, k, Processing, CancelledPart(k), Nothing)
    ensures Rows(FinalizeDb(db, k.id, false), k, Failed, CancelledPart(k), Nothing)
  {
    hide R.MaxSequence, R.LogOf;
  }

  /**
   A request whose fault strikes after the account's Try fails in some run, the frozen money being given back by a
   Cancel; so does one whose account's Try is answered with an error, nothing being held.
   */
  lemma FailureHappens(accounts: map<string, Account>, opening: map<string, int>, k: Cast) returns (s: Sys)
    requires Sound(k) && Opened(accounts, opening)
    requires k.pays ==> k.call.fault.AfterAccountTry? && k.call.accountId in accounts
                        && accounts[k.call.accountId].available >= k.call.amount
    ensures Reachable(s, opening)
    ensures 0 in s.creators && s.creators[0] == Creator(k.call, k.id, k.gid, Finished(Created), true)
    ensures k.id in s.db.payments && s.db.payments[k.id].status.Failed? && s.db.payments[k.id].gid == Some(k.gid)
    ensures s.db.reservations == Reservations(k, CancelledPart(k)) && s.db.ledger == map[]
  {
    hide Reachable, Opened, HasTxn;
    s := Opening(accounts, opening, k);
    s := PreparedTxn(s, opening, k);
    s := RegisteredAccount(s, opening, k);
    s := Struck(s, opening, k);
    s := Aborted(s, opening, k);
    s := DtmFails(s, opening, k);
    s := FailureWatched(s, opening, k);
    s := FailureFinalized(s, opening, k);
  }
}

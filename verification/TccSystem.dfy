/**
 The distributed mode as one transition system: any number of Create calls and reconcilers, the database, DTM, the
 network and the participants, interleaved in any order.  Every event is enabled or does nothing, so a run is any list
 of events.
 */
module TccSystem {
  import opened Domain
  import opened Tables
  import opened BranchRules
  import opened Dtm
  import R = RepositoryRules
  import F = Fingerprint

  datatype Fault = NoFault | AfterAccountTry | LedgerTryFault

  /** A validated request. */
  datatype CreateCall = CreateCall(
    orderId: string, accountId: string, amount: int, currency: string, key: string, fault: Fault)

  /** The fingerprint stands for its payload: the hash is taken to be injective. */
  function Fingerprint(c: CreateCall): string {
    F.Payload(c.orderId, c.accountId, c.amount, c.currency)
  }

  function RowOf(c: CreateCall): PaymentRow {
    PaymentRow(None, c.orderId, c.accountId, c.amount, c.currency, Init, "", c.key, Fingerprint(c))
  }

  /** ParticipantStates: the three statuses, read one after another. */
  datatype Sighting = Sighting(
    count: nat, reservation: Option<ReservationState>, entry: Option<EntryState>, dtm: Option<Status>)

  const NOTHING_SEEN := Sighting(0, None, None, None)

  predicate SawSuccess(v: Sighting) {
    v.count == 3 && v.reservation == Some(Confirmed) && v.entry == Some(Posted) && v.dtm == Some(Succeed)
  }

  predicate SawFailure(v: Sighting) {
    v.count == 3 && v.dtm == Some(DtmFailed) && v.reservation != Some(Frozen) && v.entry != Some(Posted)
  }

  datatype Outcome = Created | Replayed(id: string) | Conflicted | Errored

  datatype Stage =
    | CacheLookup | VerifyCached(cached: string) | FindRow | InsertRow | RefindRow
    | Beginning | Preparing
    | RegisteringAccount | TryingAccount | RegisteringLedger | TryingLedger | Submitting
    | NotingAbort | Polling(success: bool, seen: Sighting) | Finalizing(success: bool)
    | Finished(outcome: Outcome)

  /** A running Create: `owns` says that its own insert created the payment `id`. */
  datatype Creator = Creator(call: CreateCall, id: string, gid: string, stage: Stage, owns: bool)

  /** A running reconcile of a payment it read as PROCESSING. */
  datatype Reconciler = Reconciler(id: string, gid: string, seen: Sighting)

  datatype Sys = Sys(db: Db, wire: Wire, creators: map<nat, Creator>, reconcilers: map<nat, Reconciler>)

  datatype Event =
    // Create, before there is a payment
    | Arrives(t: nat, call: CreateCall)
    | CacheAnswers(t: nat, answer: Option<(string, string)>)
    | Verifies(t: nat)
    | Finds(t: nat, freshId: string, freshGid: string)
    | Inserts(t: nat)
    | Refinds(t: nat)
    | Begins(t: nat)
    | GivesUp(t: nat)
    // Create, running the global transaction
    | Prepares(t: nat, ok: bool)
    | Registers(t: nat, ok: bool)
    | Tries(t: nat, ok: bool)
    | Submits(t: nat, ok: bool)
    | NotesAbort(t: nat, written: bool)
    // Create, waiting for the outcome
    | Reads(t: nat)
    | Rereads(t: nat)
    | Concludes(t: nat)
    | TimesOut(t: nat, written: bool)
    | Finalizes(t: nat)
    // reconcilers
    | Reconciles(o: nat, id: string)
    | Looks(o: nat)
    | Settles(o: nat)
    | Abandons(o: nat)
    // any other note a caller leaves on a payment, as the callback entry does
    | Records(id: string, name: string)
    // DTM, network and participants
    | DtmServes(ask: Ask)
    | DtmTimesOut(gid: string)
    | DtmDispatches(gid: string, branch: Branch)
    | DtmFinishes(gid: string)
    | Arriving(m: Msg)

  function At(s: Sys, t: nat): Option<Stage> {
    if t in s.creators then Some(s.creators[t].stage) else None
  }

  function Go(s: Sys, t: nat, stage: Stage): Sys
    requires t in s.creators
  {
    s.(creators := s.creators[t := s.creators[t].(stage := stage)])
  }

  function BodyFor(c: Creator, branch: Branch): Request {
    Request(c.id, c.gid, c.call.accountId, c.call.amount, branch.LedgerBranch? && c.call.fault.LedgerTryFault?)
  }

  function Ends(s: Sys, t: nat, d: R.Decision): Sys
    requires t in s.creators
  {
    match d
    case New => Go(s, t, Finished(Errored))
    case Replay(id) => Go(s, t, Finished(Replayed(id)))
    case Conflict => Go(s, t, Finished(Conflicted))
  }

  /** The insert under the unique keys; this creator's fresh ids may still collide. */
  function InsertStep(s: Sys, t: nat): Sys
    requires t in s.creators
  {
    var c := s.creators[t];
    if R.PaymentFits(s.db, c.id, RowOf(c.call))
    then s.(db := R.InsertPayment(s.db, c.id, RowOf(c.call)),
            creators := s.creators[t := c.(stage := Beginning, owns := true)])
    else Go(s, t, RefindRow)
  }

  function BeginStep(s: Sys, t: nat): Sys
    requires t in s.creators
  {
    var c := s.creators[t];
    if R.CanBegin(s.db, c.id, c.gid)
    then Go(s.(db := R.BeginTCC(s.db, c.id, c.gid), wire := Send(s.wire, AskPrepare(c.gid))), t, Preparing)
    else Go(s, t, Finished(Errored))
  }

  /** The error path of TccGlobalTransaction2: ask for an abort, whatever becomes of it. */
  function Aborts(s: Sys, t: nat): Sys
    requires t in s.creators
  {
    Go(s.(wire := Send(s.wire, AskAbort(s.creators[t].gid))), t, NotingAbort)
  }

  /** The answer to the prepare request; an error need not mean that DTM did not get it. */
  function PrepareStep(s: Sys, t: nat, ok: bool): Sys
    requires t in s.creators
  {
    var c := s.creators[t];
    if !ok then Go(s, t, NotingAbort)
    else if c.gid in s.wire.txns
    then Go(s.(wire := Send(s.wire, AskRegister(c.gid, AccountBranch, BodyFor(c, AccountBranch)))), t,
            RegisteringAccount)
    else s
  }

  function RegisterStep(s: Sys, t: nat, ok: bool): Sys
    requires t in s.creators && s.creators[t].stage in {RegisteringAccount, RegisteringLedger}
  {
    var c := s.creators[t];
    var branch := if c.stage.RegisteringAccount? then AccountBranch else LedgerBranch;
    if !ok then Aborts(s, t)
    else if Registered(s.wire, c.gid, branch) && s.wire.txns[c.gid].branches[branch] == BodyFor(c, branch)
    then Go(s.(wire := Call(s.wire, Msg(branch, Try, BodyFor(c, branch)))), t,
            if branch.AccountBranch? then TryingAccount else TryingLedger)
    else s
  }

  /** The answer to a Try: a success leads on, after the account's the injected fault may strike. */
  function TryStep(s: Sys, t: nat, ok: bool): Sys
    requires t in s.creators && s.creators[t].stage in {TryingAccount, TryingLedger}
  {
    var c := s.creators[t];
    var branch := if c.stage.TryingAccount? then AccountBranch else LedgerBranch;
    if !ok then Aborts(s, t)
    else if BarrierKey(c.gid, branch, Try) !in s.wire.acks then s
    else if branch.LedgerBranch? then Go(s.(wire := Send(s.wire, AskSubmit(c.gid))), t, Submitting)
    else if c.call.fault.AfterAccountTry? then Aborts(s, t)
    else Go(s.(wire := Send(s.wire, AskRegister(c.gid, LedgerBranch, BodyFor(c, LedgerBranch)))), t, RegisteringLedger)
  }

  /** The answer to the submit request; an error need not mean that DTM did not submit. */
  function SubmitStep(s: Sys, t: nat, ok: bool): Sys
    requires t in s.creators
  {
    var c := s.creators[t];
    if !ok then Go(s, t, NotingAbort)
    else if c.gid in s.wire.txns && s.wire.txns[c.gid].status.Committing() then Go(s, t, Polling(true, NOTHING_SEEN))
    else s
  }

  function Noted(s: Sys, id: string, name: string, written: bool): Sys {
    if written then s.(db := R.RecordEvent(s.db, id, name)) else s
  }

  /** One of the three reads, each of them of the state at its own moment. */
  function Look(s: Sys, id: string, gid: string, v: Sighting): Sighting {
    if v.count == 0 then
      v.(count := 1, reservation := if gid in s.db.reservations && s.db.reservations[gid].paymentId == id
                                    then Some(s.db.reservations[gid].state) else None)
    else if v.count == 1 then
      v.(count := 2, entry := if gid in s.db.ledger && s.db.ledger[gid].paymentId == id
                              then Some(s.db.ledger[gid].state) else None)
    else if v.count == 2 then v.(count := 3, dtm := StatusOf(s.wire, gid))
    else v
  }

  function Verdict(success: bool): PaymentStatus {
    if success then Success else Failed
  }

  /** Finalize: a processing payment takes the verdict, any other is left as it is. */
  function FinalizeDb(db: Db, id: string, success: bool): Db {
    if R.CanFinalize(db, id)
    then R.Finalize(db, id, Verdict(success), if success then "" else "DTM TCC cancelled")
    else db
  }

  /** What a reconciler does with its three reads. */
  function SettleDb(db: Db, id: string, v: Sighting): Db {
    if SawSuccess(v) then FinalizeDb(db, id, true) else if SawFailure(v) then FinalizeDb(db, id, false) else db
  }

  function CreatorDoes(s: Sys, e: Event): Sys {
    match e
    case Arrives(t, call) =>
      if t in s.creators then s
      else s.(creators := s.creators[t := Creator(call, "", "", CacheLookup, false)])
    case CacheAnswers(t, answer) =>
      if At(s, t) != Some(CacheLookup) then s
      else if answer.Some? && answer.value.1 == Fingerprint(s.creators[t].call)
      then Go(s, t, VerifyCached(answer.value.0))
      else Go(s, t, FindRow)
    case Verifies(t) =>
      if !(t in s.creators && s.creators[t].stage.VerifyCached?) then s
      else
        var c := s.creators[t];
        if R.Verified(s.db, c.stage.cached, c.call.key, Fingerprint(c.call))
        then Go(s, t, Finished(Replayed(c.stage.cached))) else Go(s, t, FindRow)
    case Finds(t, freshId, freshGid) =>
      if At(s, t) != Some(FindRow) then s
      else
        var c := s.creators[t];
        var d := R.Decide(s.db, c.call.key, Fingerprint(c.call));
        if d.New? then s.(creators := s.creators[t := c.(id := freshId, gid := freshGid, stage := InsertRow)])
        else Ends(s, t, d)
    case Inserts(t) => if At(s, t) == Some(InsertRow) then InsertStep(s, t) else s
    case Refinds(t) =>
      if At(s, t) != Some(RefindRow) then s
      else
        var c := s.creators[t];
        Ends(s, t, R.Decide(s.db, c.call.key, Fingerprint(c.call)))
    case Begins(t) => if At(s, t) == Some(Beginning) then BeginStep(s, t) else s
    case GivesUp(t) =>
      if t in s.creators && !s.creators[t].stage.Finished? then Go(s, t, Finished(Errored)) else s
    case Prepares(t, ok) => if At(s, t) == Some(Preparing) then PrepareStep(s, t, ok) else s
    case Registers(t, ok) =>
      if At(s, t) in {Some(RegisteringAccount), Some(RegisteringLedger)} then RegisterStep(s, t, ok) else s
    case Tries(t, ok) => if At(s, t) in {Some(TryingAccount), Some(TryingLedger)} then TryStep(s, t, ok) else s
    case Submits(t, ok) => if At(s, t) == Some(Submitting) then SubmitStep(s, t, ok) else s
    case NotesAbort(t, written) =>
      if At(s, t) != Some(NotingAbort) then s
      else Go(Noted(s, s.creators[t].id, "DTM_TCC_ABORTED", written), t, Polling(false, NOTHING_SEEN))
    case Reads(t) =>
      if !(t in s.creators && s.creators[t].stage.Polling?) then s
      else
        var c := s.creators[t];
        Go(s, t, c.stage.(seen := Look(s, c.id, c.gid, c.stage.seen)))
    case Rereads(t) =>
      if !(t in s.creators && s.creators[t].stage.Polling?) then s
      else Go(s, t, s.creators[t].stage.(seen := NOTHING_SEEN))
    case Concludes(t) =>
      if !(t in s.creators && s.creators[t].stage.Polling?) then s
      else
        var p := s.creators[t].stage;
        if (if p.success then SawSuccess(p.seen) else SawFailure(p.seen)) then Go(s, t, Finalizing(p.success)) else s
    case TimesOut(t, written) =>
      if !(t in s.creators && s.creators[t].stage.Polling?) then s
      else Go(Noted(s, s.creators[t].id, "DTM_RECONCILE_PENDING", written), t, Finished(Created))
    case Finalizes(t) =>
      if !(t in s.creators && s.creators[t].stage.Finalizing?) then s
      else
        var c := s.creators[t];
        Go(s.(db := FinalizeDb(s.db, c.id, c.stage.success)), t, Finished(Created))
    case _ => s
  }

  function Drop(s: Sys, o: nat): Sys {
    s.(reconcilers := s.reconcilers - {o})
  }

  function ReconcilerDoes(s: Sys, e: Event): Sys {
    match e
    case Reconciles(o, id) =>
      if o !in s.reconcilers && id in s.db.payments && s.db.payments[id].status.Processing?
          && s.db.payments[id].gid.Some?
      then s.(reconcilers := s.reconcilers[o := Reconciler(id, s.db.payments[id].gid.value, NOTHING_SEEN)])
      else s
    case Looks(o) =>
      if o !in s.reconcilers then s
      else
        var r := s.reconcilers[o];
        s.(reconcilers := s.reconcilers[o := r.(seen := Look(s, r.id, r.gid, r.seen))])
    case Settles(o) =>
      if o !in s.reconcilers then s
      else
        var r := s.reconcilers[o];
        Drop(s.(db := SettleDb(s.db, r.id, r.seen)), o)
    case Abandons(o) => Drop(s, o)
    case _ => s
  }

  function EnvironmentDoes(s: Sys, e: Event): Sys {
    match e
    case DtmServes(ask) => s.(wire := Serve(s.wire, ask))
    case DtmTimesOut(gid) => s.(wire := Timeout(s.wire, gid))
    case DtmDispatches(gid, branch) => s.(wire := Dispatch(s.wire, gid, branch))
    case DtmFinishes(gid) => s.(wire := Finish(s.wire, gid))
    case Records(id, name) => s.(db := R.RecordEvent(s.db, id, name))
    case Arriving(m) => s.(db := Reached(s.wire, s.db, m), wire := Answered(s.wire, s.db, m))
    case _ => s
  }

  function Do(s: Sys, e: Event): Sys {
    if e.Reconciles? || e.Looks? || e.Settles? || e.Abandons? then ReconcilerDoes(s, e)
    else if e.DtmServes? || e.DtmTimesOut? || e.DtmDispatches? || e.DtmFinishes? || e.Arriving? || e.Records?
    then EnvironmentDoes(s, e)
    else CreatorDoes(s, e)
  }

  function Run(s: Sys, events: seq<Event>): Sys
    decreases |events|
  {
    if events == [] then s else Run(Do(s, events[0]), events[1..])
  }

  /** A freshly installed system: only accounts. */
  function Fresh(accounts: map<string, Account>): Sys {
    Sys(Db(map[], map[], map[], map[], accounts, map[], map[], map[]), Wire(map[], {}, {}, {}), map[], map[])
  }
}

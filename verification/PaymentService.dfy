/** internal/service/payment.go: the memory mode's application layer, one request at a time. */
module PaymentService {
  import opened Domain
  import opened MemoryRules
  import opened LocalCreate
  import E = EventLog
  import F = Fingerprint
  import I = MemoryInvariant
  import M = MemoryRuns
  import MS = MemoryStore
  import C = CallbackCollapse
  import T = MemoryHistory

  function Rank(stage: Stage): nat {
    match stage
    case Creating => 5
    case Starting => 4
    case Freezing => 3
    case Noting(_) => 2
    case Failing(_) => 1
    case Confirming => 1
    case Done(_) => 0
  }

  lemma Descends(s: Store, c: Call)
    requires Indexed(s) && !c.stage.Done?
    ensures Rank(Next(s, c).1) < Rank(c.stage)
  {
    hide CreatePayment, StartPayment, Freeze, FailAndRelease, ProcessCallback, RecordEvent, Fingerprint, Reason,
      AutoCallback;
  }

  /** A call whose steps nobody interrupts. */
  function Alone(s: Store, c: Call): (r: (Store, Answer))
    requires I.Inv(s) && c.input.amount > 0
    ensures I.Inv(r.0)
    decreases Rank(c.stage)
  {
    if c.stage.Done? then (s, c.stage.answer)
    else
      NextKeeps(s, c);
      Descends(s, c);
      var next := Next(s, c);
      Alone(next.0, c.(stage := next.1))
  }

  datatype CallbackFault = Faultless | BeforeConfirm | Unrecognised

  /** A callback request, after its fields are trimmed and lower-cased. */
  datatype CallbackInput = CallbackInput(callback: Callback, fault: CallbackFault)

  predicate ValidCallback(id: string, input: CallbackInput) {
    && id != "" && F.Fits(input.callback.eventId) && input.callback.sequence > 0
    && !input.callback.outcome.Unsupported? && !input.fault.Unrecognised?
  }

  lemma EachCallbackFieldAlone(id: string, input: CallbackInput, n: int, s: string, outcome: Outcome)
    requires ValidCallback(id, input)
    ensures ValidCallback(s, input) <==> s != ""
    ensures ValidCallback(id, input.(callback := input.callback.(sequence := n))) <==> n > 0
    ensures ValidCallback(id, input.(callback := input.callback.(eventId := s))) <==> 1 <= F.Utf8Length(s) <= 128
    ensures ValidCallback(id, input.(callback := input.callback.(outcome := outcome))) <==>
        outcome in {Outcome.Succeeded, Outcome.Declined}
  {
    F.LengthIsPositive(s);
  }

  /** A confirm that is made to fail before it reaches the store's money. */
  predicate Faulted(input: CallbackInput) {
    input.callback.outcome.Succeeded? && input.fault.BeforeConfirm?
  }

  function Deliver(s: Store, id: string, input: CallbackInput): Step<(Payment, Disposition)> {
    if !ValidCallback(id, input) then Step(s, Err(Invalid("")))
    else if Faulted(input) then Step(RecordEvent(s, id, FAULT_NAME).store,
                                     Err(if id in s.payments then InjectedFault else NotFound))
    else ProcessCallback(s, id, input.callback)
  }

  class PaymentService {
    const store: MS.MemoryStore

    constructor (store: MS.MemoryStore)
      ensures this.store == store
    {
      this.store := store;
    }

    /** One request with nothing in between, under the id that it draws. */
    method Create(input: Input, id: string) returns (r: Answer)
      requires store.Valid()
      modifies store
      ensures store.Valid()
      ensures !Valid(input) ==> store.Content() == old(store.Content()) && r.Refused? && r.error.Invalid?
      ensures Valid(input) ==> (store.Content(), r) == Alone(old(store.Content()), Call(input, id, Creating))
    {
      hide I.Inv, CreatePayment, StartPayment, Freeze, FailAndRelease, ProcessCallback, RecordEvent, Fingerprint,
        Reason,
        AutoCallback;
      if !Valid(input) {
        return Refused(Invalid(""));
      }
      var c := Call(input, id, Creating);
      NextKeeps(store.Content(), c);
      var created := store.CreatePayment(NewPayment(input, id), input.key, Fingerprint(input));
      if created.Err? {
        return Refused(created.error);
      }
      if !created.value.1 {
        return Replayed(created.value.0);
      }
      r := Begin(c.(stage := Starting));
    }

    /** The rest of Create, once it has created its payment. */
    method Begin(c: Call) returns (r: Answer)
      requires store.Valid() && c.input.amount > 0 && c.stage.Starting?
      modifies store
      ensures store.Valid()
      ensures (store.Content(), r) == Alone(old(store.Content()), c)
    {
      hide I.Inv, StartPayment, Freeze, FailAndRelease, ProcessCallback, RecordEvent, Reason, AutoCallback;
      NextKeeps(store.Content(), c);
      var started := store.StartPayment(c.id);
      if started.Err? {
        return Refused(started.error);
      }
      if c.input.fault == BeforeFreeze {
        r := GiveUp(c.(stage := Noting(FaultBefore)));
        return;
      }
      r := Reserve(c.(stage := Freezing));
    }

    method Reserve(c: Call) returns (r: Answer)
      requires store.Valid() && c.input.amount > 0 && c.stage.Freezing?
      modifies store
      ensures store.Valid()
      ensures (store.Content(), r) == Alone(old(store.Content()), c)
    {
      hide I.Inv, Freeze, FailAndRelease, ProcessCallback, RecordEvent, Reason, AutoCallback;
      NextKeeps(store.Content(), c);
      var frozen := store.Freeze(c.id);
      if frozen.Err? {
        if frozen.error == InsufficientFunds || frozen.error == NotFound {
          r := Cancel(c.(stage := Failing(if frozen.error == InsufficientFunds then NoFunds else NoAccount)));
          return;
        }
        return Refused(frozen.error);
      }
      if c.input.fault == AfterFreeze {
        r := GiveUp(c.(stage := Noting(FaultAfter)));
        return;
      }
      if c.input.autoConfirm {
        r := Confirm(c.(stage := Confirming));
        return;
      }
      return Created(frozen.value);
    }

    /** The confirmation that a request may ask for at once. */
    method Confirm(c: Call) returns (r: Answer)
      requires store.Valid() && c.input.amount > 0 && c.stage.Confirming?
      modifies store
      ensures store.Valid()
      ensures (store.Content(), r) == Alone(old(store.Content()), c)
    {
      hide I.Inv, ProcessCallback, AutoCallback;
      NextKeeps(store.Content(), c);
      var confirmed := store.ProcessCallback(c.id, AutoCallback(c.id));
      return if confirmed.Ok? then Created(confirmed.value.0) else Refused(confirmed.error);
    }

    /** An injected fault is noted and the payment fails. */
    method GiveUp(c: Call) returns (r: Answer)
      requires store.Valid() && c.input.amount > 0 && c.stage.Noting?
      modifies store
      ensures store.Valid()
      ensures (store.Content(), r) == Alone(old(store.Content()), c)
    {
      hide I.Inv, FailAndRelease, RecordEvent, Reason;
      NextKeeps(store.Content(), c);
      var _ := store.RecordEvent(c.id, FAULT_NAME);
      r := Cancel(c.(stage := Failing(c.stage.cause)));
    }

    method Cancel(c: Call) returns (r: Answer)
      requires store.Valid() && c.input.amount > 0 && c.stage.Failing?
      modifies store
      ensures store.Valid()
      ensures (store.Content(), r) == Alone(old(store.Content()), c)
    {
      hide I.Inv, FailAndRelease, Reason;
      NextKeeps(store.Content(), c);
      var failed := store.FailAndRelease(c.id, Reason(c.stage.cause));
      return if failed.Ok? then Created(failed.value) else Refused(failed.error);
    }

    /** A payment with its history, which tells the very status that the payment has. */
    method Details(id: string) returns (r: Result<(Payment, seq<PaymentEvent>)>)
      requires store.Valid()
      ensures r.Err? ==> r.error == NotFound && id !in store.payments
      ensures r.Ok? ==> id in store.payments && r.value.0 == store.payments[id] && r.value.0.id == id
      ensures r.Ok? ==> E.Tells(r.value.1, r.value.0.status)
    {
      hide I.Inv, E.Tells;
      var payment := store.GetPayment(id);
      if payment.Err? {
        return Err(payment.error);
      }
      // The payment cannot have gone since, so the second read does not fail.
      var events := store.Events(payment.value.id);
      assert events.Ok?;
      return Ok((payment.value, events.value));
    }

    method Callback(id: string, input: CallbackInput) returns (r: Result<(Payment, Disposition)>)
      requires store.Valid()
      modifies store
      ensures store.Valid()
      ensures Step(store.Content(), r) == Deliver(old(store.Content()), id, input)
    {
      hide I.Inv, ProcessCallback, RecordEvent;
      if !ValidCallback(id, input) {
        return Err(Invalid(""));
      }
      if Faulted(input) {
        RecordAnswers(store.Content(), id, FAULT_NAME);
        var recorded := store.RecordEvent(id, FAULT_NAME);
        return Err(if recorded.Err? then recorded.error else InjectedFault);
      }
      r := store.ProcessCallback(id, input.callback);
    }
  }

  lemma RecordAnswers(s: Store, id: string, name: string)
    ensures RecordEvent(s, id, name).result == if id in s.payments then Ok(()) else Err(NotFound)
  {
    hide Append;
  }

  // ---- What an undisturbed request does ----

  /** Everything but histories, keys and seen callbacks is as it was, except for this payment's own entries. */
  predicate OthersSame(s: Store, s': Store, id: string) {
    && s'.payments == (if id in s'.payments then s.payments[id := s'.payments[id]] else s.payments)
    && s'.reservations == (if id in s'.reservations then s.reservations[id := s'.reservations[id]] else s.reservations)
  }

  predicate CanPay(s: Store, accountId: string, amount: int) {
    accountId in s.accounts && s.accounts[accountId].available >= amount
  }

  /** Why an undisturbed new request fails: the first of its troubles. */
  function Trouble(s: Store, input: Input): Option<Cause> {
    if input.fault.BeforeFreeze? then Some(FaultBefore)
    else if input.accountId !in s.accounts then Some(NoAccount)
    else if s.accounts[input.accountId].available < input.amount then Some(NoFunds)
    else if input.fault.AfterFreeze? then Some(FaultAfter)
    else None
  }

  /** How its payment ends. */
  function Ending(s: Store, input: Input): PaymentStatus {
    if Trouble(s, input).Some? then Failed else if input.autoConfirm then Success else Processing
  }

  const BEGUN: seq<EventKind> := [PaymentCreated, StatusChanged]

  /** And the types of the events in its history. */
  function History(s: Store, input: Input): seq<EventKind> {
    match Trouble(s, input)
    case Some(FaultBefore) => BEGUN + [Recorded(FAULT_NAME), StatusChanged]
    case Some(FaultAfter) => BEGUN + [FundsFrozen, Recorded(FAULT_NAME), FundsReleased, StatusChanged]
    case Some(_) => BEGUN + [StatusChanged]
    case None =>
      if input.autoConfirm then BEGUN + [FundsFrozen, CallbackAccepted, FundsConfirmed, StatusChanged]
      else BEGUN + [FundsFrozen]
  }

  /** The accounts once a payment of this request has ended like this. */
  function AccountsAfter(s: Store, input: Input, ending: PaymentStatus): map<string, Account> {
    if !CanPay(s, input.accountId, input.amount) || ending.Failed? then s.accounts
    else
      var a := s.accounts[input.accountId];
      s.accounts[input.accountId := a.(available := a.available - input.amount,
                                       frozen := a.frozen + if ending.Processing? then input.amount else 0)]
  }

  /** A payment just created from this request, nothing held for it yet, everything else as it was in `s`. */
  ghost predicate Fresh(
    s: Store, input: Input, id: string, now: Store, status: PaymentStatus, history: seq<EventKind>)
  {
    && T.KindsAt(now, id) == history
    && I.Inv(now) && id !in s.payments && id !in s.reservations && id in now.payments
    && now.payments == s.payments[id := NewPayment(input, id).(status := status)]
    && now.reservations == s.reservations && now.accounts == s.accounts && now.ledger == s.ledger
    && id !in now.callbacksSeen
  }

  /** The same payment with its money frozen. */
  ghost predicate Holding(s: Store, input: Input, id: string, now: Store, history: seq<EventKind>) {
    && T.KindsAt(now, id) == history
    && I.Inv(now) && id !in s.payments && id !in s.reservations && id in now.payments
    && CanPay(s, input.accountId, input.amount) && s.accounts[input.accountId].id == input.accountId
    && now.payments == s.payments[id := NewPayment(input, id).(status := Processing)]
    && now.reservations == s.reservations[id := Reservation(id, input.accountId, input.amount, Frozen)]
    && now.accounts == AccountsAfter(s, input, Processing) && now.ledger == s.ledger
    && id !in now.callbacksSeen
  }

  /** What is promised of the end of a call. */
  ghost predicate Ends(s: Store, input: Input, id: string, r: (Store, Answer), ending: PaymentStatus,
                       cause: Option<Cause>, history: seq<EventKind>)
  {
    && id in r.0.payments && r.1 == Created(r.0.payments[id])
    && r.0.payments[id].status == ending && r.0.payments[id].id == id && CameFrom(r.0.payments[id], input)
    && r.0.payments[id].failureReason == (if cause.Some? then Reason(cause.value) else "")
    && T.KindsAt(r.0, id) == history && OthersSame(s, r.0, id)
    && r.0.accounts == AccountsAfter(s, input, ending)
    && |r.0.ledger| == |s.ledger| + (if ending.Success? then 1 else 0)
    && (ending.Processing? ==> HoldsFunds(r.0, id))
  }

  lemma FailKinds(s: Store, id: string, reason: string)
    requires id in s.payments && s.payments[id].status.Processing?
    ensures T.KindsAt(FailAndRelease(s, id, reason).store, id)
         == T.KindsAt(s, id) + (if HoldsFunds(s, id) then [FundsReleased] else []) + [StatusChanged]
  {
    hide Release, SetStatus;
    T.ReleaseKinds(s, id);
    T.StatusKinds(Release(s, id), id, Processing, s.payments[id].(status := Failed, failureReason := reason));
  }

  lemma CancelEnds(s: Store, c: Call, now: Store, history: seq<EventKind>)
    requires Fresh(s, c.input, c.id, now, Processing, history) && c.stage.Failing? && c.input.amount > 0
    ensures Ends(s, c.input, c.id, Alone(now, c), Failed, Some(c.stage.cause), history + [StatusChanged])
  {
    hide I.Inv, LogOf, CountOf, Reason, T.KindsAt;
    NextKeeps(now, c);
    FailKinds(now, c.id, Reason(c.stage.cause));
    assert history + [] + [StatusChanged] == history + [StatusChanged];
  }

  /** Giving the frozen money back restores the accounts. */
  lemma ReleaseRestores(s: Store, input: Input, id: string, now: Store, history: seq<EventKind>)
    requires Holding(s, input, id, now, history)
    ensures var r := Release(now, id);
      && r.accounts == s.accounts && r.payments == now.payments && r.ledger == s.ledger
      && r.reservations == s.reservations[id := Reservation(id, input.accountId, input.amount, Cancelled)]
  {
    hide I.Inv, LogOf, CountOf, T.KindsAt;
    var a := s.accounts[input.accountId];
    assert s.accounts[a.id := a] == s.accounts;
  }

  lemma CancelHeldEnds(s: Store, c: Call, now: Store, history: seq<EventKind>)
    requires Holding(s, c.input, c.id, now, history) && c.stage.Failing? && c.input.amount > 0
    ensures Ends(s, c.input, c.id, Alone(now, c), Failed, Some(c.stage.cause), history + [FundsReleased, StatusChanged])
  {
    hide I.Inv, Release, LogOf, CountOf, Reason, T.KindsAt;
    NextKeeps(now, c);
    ReleaseRestores(s, c.input, c.id, now, history);
    FailKinds(now, c.id, Reason(c.stage.cause));
    assert history + [FundsReleased] + [StatusChanged] == history + [FundsReleased, StatusChanged];
  }

  /** A first success callback on frozen money is one payment. */
  lemma CallbackPaid(s: Store, id: string, callback: Callback)
    requires id in s.payments && s.payments[id].status.Processing? && s.payments[id].lastCallback == 0
    requires HoldsFunds(s, id)
    requires id !in s.callbacksSeen && callback.outcome.Succeeded? && callback.sequence > 0
    ensures var noted := Note(See(s, id, callback.eventId), id, CallbackAccepted);
      var paid := s.payments[id].(lastCallback := callback.sequence, status := Success);
      && id in noted.payments && HoldsFunds(noted, id)
      && ProcessCallback(s, id, callback) == Step(I.Pay(noted, id, paid), Ok((paid, CallbackApplied)))
      && I.Paid(noted, id, paid, I.Pay(noted, id, paid))
      && noted.payments == s.payments && noted.reservations == s.reservations && noted.accounts == s.accounts
      && noted.ledger == s.ledger
  {
    hide LogOf, CountOf, SetStatus, CommitFunds, I.Paid;
    I.PayPays(Note(See(s, id, callback.eventId), id, CallbackAccepted), id,
              s.payments[id].(lastCallback := callback.sequence, status := Success));
  }

  lemma CallbackPays(s: Store, input: Input, id: string, now: Store, callback: Callback, history: seq<EventKind>)
    requires Holding(s, input, id, now, history) && callback.outcome.Succeeded? && callback.sequence > 0
    ensures var step := ProcessCallback(now, id, callback);
      && step.result.Ok? && id in step.store.payments && step.result.value.0 == step.store.payments[id]
      && step.store.payments == s.payments[id := step.store.payments[id]]
      && step.store.payments[id] == NewPayment(input, id).(lastCallback := callback.sequence, status := Success)
      && step.store.reservations == s.reservations[id := Reservation(id, input.accountId, input.amount, Confirmed)]
      && step.store.accounts == AccountsAfter(s, input, Success) && |step.store.ledger| == |s.ledger| + 1
      && T.KindsAt(step.store, id) == history + [CallbackAccepted, FundsConfirmed, StatusChanged]
  {
    hide I.Inv, ProcessCallback, I.Pay, Note, T.KindsAt;
    CallbackPaid(now, id, callback);
    T.CallbackNotes(now, id, callback);
  }

  lemma ConfirmEnds(s: Store, c: Call, now: Store, history: seq<EventKind>)
    requires I.Inv(now) && Holding(s, c.input, c.id, now, history) && c.stage.Confirming? && c.input.amount > 0
    ensures Ends(s, c.input, c.id, Alone(now, c), Success, None,
                 history + [CallbackAccepted, FundsConfirmed, StatusChanged])
  {
    hide I.Inv, ProcessCallback, Holding, T.KindsAt;
    NextKeeps(now, c);
    CallbackPays(s, c.input, c.id, now, AutoCallback(c.id), history);
  }

  /** A note leaves both situations as they are, but for the history. */
  lemma NotingStep(s: Store, c: Call, now: Store, history: seq<EventKind>)
    requires I.Inv(now) && c.id in now.payments && c.stage.Noting? && c.input.amount > 0
    ensures Indexed(now) && Next(now, c).1 == Failing(c.stage.cause)
    ensures var next, longer := Next(now, c).0, history + [Recorded(FAULT_NAME)];
      && (Fresh(s, c.input, c.id, now, Processing, history) ==> Fresh(s, c.input, c.id, next, Processing, longer))
      && (Holding(s, c.input, c.id, now, history) ==> Holding(s, c.input, c.id, next, longer))
  {
    hide I.Inv, LogOf, CountOf, AccountsAfter, CanPay, T.KindsAt;
    NextKeeps(now, c);
    T.AppendKinds(now, c.id, Recorded(FAULT_NAME), None, None);
  }

  lemma GiveUpFresh(s: Store, c: Call, now: Store, history: seq<EventKind>)
    requires Fresh(s, c.input, c.id, now, Processing, history) && c.stage.Noting? && c.input.amount > 0
    ensures Ends(s, c.input, c.id, Alone(now, c), Failed, Some(c.stage.cause),
                 history + [Recorded(FAULT_NAME), StatusChanged])
  {
    hide I.Inv, Next, Ends, T.KindsAt;
    NotingStep(s, c, now, history);
    var next := Next(now, c);
    CancelEnds(s, c.(stage := next.1), next.0, history + [Recorded(FAULT_NAME)]);
    assert history + [Recorded(FAULT_NAME)] + [StatusChanged] == history + [Recorded(FAULT_NAME), StatusChanged];
  }

  lemma GiveUpHeld(s: Store, c: Call, now: Store, history: seq<EventKind>)
    requires Holding(s, c.input, c.id, now, history) && c.stage.Noting? && c.input.amount > 0
    ensures Ends(s, c.input, c.id, Alone(now, c), Failed, Some(c.stage.cause),
                 history + [Recorded(FAULT_NAME), FundsReleased, StatusChanged])
  {
    hide I.Inv, Next, Ends, T.KindsAt;
    NotingStep(s, c, now, history);
    var next := Next(now, c);
    CancelHeldEnds(s, c.(stage := next.1), next.0, history + [Recorded(FAULT_NAME)]);
    assert history + [Recorded(FAULT_NAME)] + [FundsReleased, StatusChanged]
        == history + [Recorded(FAULT_NAME), FundsReleased, StatusChanged];
  }

  lemma FreezeAnswers(s: Store, id: string)
    requires M.CanReserve(s, id)
    ensures Freeze(s, id).result == Ok(s.payments[id])
    ensures T.KindsAt(Freeze(s, id).store, id) == T.KindsAt(s, id) + [FundsFrozen]
  {
    hide Append, T.KindsAt;
    var p := s.payments[id];
    var a := s.accounts[p.accountId];
    var frozen := Shift(s, a, -p.amount, p.amount)
                  .(reservations := s.reservations[id := Reservation(id, a.id, p.amount, Frozen)]);
    T.AppendKinds(frozen, id, FundsFrozen, None, None);
    T.SameKinds(s, frozen, id);
  }

  /** What freezing does to a payment nothing was held for, if the account can pay. */
  lemma FreezeHolds(s: Store, input: Input, id: string, now: Store, history: seq<EventKind>)
    requires Fresh(s, input, id, now, Processing, history) && I.Inv(s) && CanPay(s, input.accountId, input.amount)
    requires I.Inv(Freeze(now, id).store)
    ensures Holding(s, input, id, Freeze(now, id).store, history + [FundsFrozen])
    ensures Freeze(now, id).result == Ok(now.payments[id])
  {
    hide I.Inv, Freeze, T.KindsAt;
    NamedByKey(s, input.accountId);
    assert M.CanReserve(now, id);
    FreezeAnswers(now, id);
    M.FreezeReserves(now, id);
  }

  lemma SamePayments(s: Store, input: Input, id: string, now: Store, held: Store, h1: seq<EventKind>,
                     h2: seq<EventKind>)
    requires Fresh(s, input, id, now, Processing, h1) && Holding(s, input, id, held, h2)
    ensures id in now.payments && held.payments == now.payments
  {
    hide I.Inv, T.KindsAt;
  }

  lemma FreezeDeclines(s: Store, input: Input, id: string, now: Store, history: seq<EventKind>)
    requires Fresh(s, input, id, now, Processing, history) && !CanPay(s, input.accountId, input.amount)
    ensures Freeze(now, id).store == now
    ensures Freeze(now, id).result == Err(if input.accountId in s.accounts then InsufficientFunds else NotFound)
  {
    hide I.Inv, Note, T.KindsAt;
  }

  lemma NamedByKey(s: Store, account: string)
    requires I.Inv(s) && account in s.accounts
    ensures s.accounts[account].id == account
  {
    hide I.PaymentsOk, I.AllCoupled, I.Logged, I.Keyed, I.LedgerOk;
    I.AccountNamed(s, account);
  }

  lemma ReserveEnds(s: Store, c: Call, now: Store)
    requires I.Inv(now) && Fresh(s, c.input, c.id, now, Processing, BEGUN) && c.stage.Freezing? && c.input.amount > 0
    requires I.Inv(s)
    requires !c.input.fault.BeforeFreeze?
    ensures Ends(s, c.input, c.id, Alone(now, c), Ending(s, c.input), Trouble(s, c.input), History(s, c.input))
  {
    hide I.Inv, Freeze, Fresh, Holding, Ends, T.KindsAt;
    NextKeeps(now, c);
    var next := Next(now, c);
    var c' := c.(stage := next.1);
    if !CanPay(s, c.input.accountId, c.input.amount) {
      FreezeDeclines(s, c.input, c.id, now, BEGUN);
      CancelEnds(s, c', now, BEGUN);
    } else {
      FreezeHolds(s, c.input, c.id, now, BEGUN);
      SamePayments(s, c.input, c.id, now, next.0, BEGUN, BEGUN + [FundsFrozen]);
      if next.1.Noting? {
        GiveUpHeld(s, c', next.0, BEGUN + [FundsFrozen]);
        assert BEGUN + [FundsFrozen] + [Recorded(FAULT_NAME), FundsReleased, StatusChanged] == History(s, c.input);
      } else if next.1.Confirming? {
        ConfirmEnds(s, c', next.0, BEGUN + [FundsFrozen]);
        assert BEGUN + [FundsFrozen] + [CallbackAccepted, FundsConfirmed, StatusChanged] == History(s, c.input);
      } else {
        HoldingEnds(s, c', next.0, BEGUN + [FundsFrozen]);
      }
    }
  }

  lemma HoldingEnds(s: Store, c: Call, now: Store, history: seq<EventKind>)
    requires Holding(s, c.input, c.id, now, history) && c.stage == Done(Created(now.payments[c.id]))
    requires c.input.amount > 0
    ensures Ends(s, c.input, c.id, Alone(now, c), Processing, None, history)
  {
    hide I.Inv, T.KindsAt;
  }

  lemma StartStep(s: Store, c: Call, now: Store)
    requires Fresh(s, c.input, c.id, now, Init, [PaymentCreated]) && c.stage.Starting? && c.input.amount > 0
    ensures Indexed(now)
    ensures Fresh(s, c.input, c.id, Next(now, c).0, Processing, BEGUN)
    ensures Next(now, c).1 == if c.input.fault.BeforeFreeze? then Noting(FaultBefore) else Freezing
  {
    hide I.Inv, LogOf, CountOf, T.KindsAt;
    NextKeeps(now, c);
    T.StatusKinds(now, c.id, Init, now.payments[c.id].(status := Processing));
    assert [PaymentCreated] + [StatusChanged] == BEGUN;
  }

  lemma StartEnds(s: Store, c: Call, now: Store)
    requires Fresh(s, c.input, c.id, now, Init, [PaymentCreated]) && c.stage.Starting? && c.input.amount > 0
    requires I.Inv(s)
    ensures Ends(s, c.input, c.id, Alone(now, c), Ending(s, c.input), Trouble(s, c.input), History(s, c.input))
  {
    hide I.Inv, Next, Ends, CanPay, T.KindsAt;
    StartStep(s, c, now);
    var next := Next(now, c);
    if c.input.fault.BeforeFreeze? {
      GiveUpFresh(s, c.(stage := next.1), next.0, BEGUN);
    } else {
      ReserveEnds(s, c.(stage := next.1), next.0);
    }
  }

  lemma CreateStep(s: Store, c: Call)
    requires I.Inv(s) && c.stage.Creating? && c.input.amount > 0
    requires c.id !in s.payments && c.input.key !in s.idempotency
    ensures Indexed(s)
    ensures Next(s, c).1 == Starting && Fresh(s, c.input, c.id, Next(s, c).0, Init, [PaymentCreated])
  {
    hide I.Inv, LogOf, CountOf, Fingerprint, T.KindsAt;
    NextKeeps(s, c);
    NothingYet(s, c.id);
    var named := s.(payments := s.payments[c.id := NewPayment(c.input, c.id)],
                    idempotency := s.idempotency[c.input.key := IdempotencyRecord(c.id, Fingerprint(c.input))]);
    T.AppendKinds(named, c.id, PaymentCreated, None, Some(Init));
    T.SameKinds(s, named, c.id);
    assert [] + [PaymentCreated] == [PaymentCreated];
  }

  lemma NothingYet(s: Store, id: string)
    requires I.Inv(s) && id !in s.payments
    ensures id !in s.reservations && id !in s.callbacksSeen && T.KindsAt(s, id) == []
  {
    hide I.PaymentsOk, I.AllCoupled, I.LogOk, I.Keyed, I.LedgerOk, I.Money;
    I.UnknownHoldsNothing(s, id);
  }

  /**
   An undisturbed request under a new key: with a fault, no account or too little money its payment fails for the first
   of these reasons and every balance is what it was; otherwise it succeeds and is paid once if it asked for that, and
   else is left with its money frozen.  Its history lists exactly what was done.
   */
  lemma NewRequestEnds(s: Store, input: Input, id: string)
    requires I.Inv(s) && Valid(input) && id !in s.payments && input.key !in s.idempotency
    ensures Ends(s, input, id, Alone(s, Call(input, id, Creating)), Ending(s, input), Trouble(s, input),
                 History(s, input))
  {
    hide I.Inv, Next, Fresh, Ends, Ending, T.KindsAt;
    var c := Call(input, id, Creating);
    CreateStep(s, c);
    StartEnds(s, c.(stage := Starting), Next(s, c).0);
  }

  /** A request under a known key changes nothing: the same request gets its payment back, another one is refused. */
  lemma KnownKeyReplays(s: Store, input: Input, id: string)
    requires I.Inv(s) && Valid(input) && input.key in s.idempotency
    ensures Indexed(s)
    ensures var record := s.idempotency[input.key];
      Alone(s, Call(input, id, Creating))
      == (s, if record.fingerprint == Fingerprint(input) then Replayed(s.payments[record.paymentId])
          else Refused(IdempotencyConflict))
  {
    M.InvIndexed(s);
    hide I.Inv, Append, Fingerprint;
  }

  /** Asking twice for the same thing, whatever came of it, is asking once. */
  lemma CreateTwice(s: Store, input: Input, id: string, id2: string)
    requires I.Inv(s) && Valid(input) && id !in s.payments && input.key !in s.idempotency
    ensures var first := Alone(s, Call(input, id, Creating));
      && first.1.Created?
      && Alone(first.0, Call(input, id2, Creating)) == (first.0, Replayed(first.1.payment))
  {
    NewRequestEnds(s, input, id);
    RecordStays(s, Call(input, id, Creating));
    var first := Alone(s, Call(input, id, Creating));
    KnownKeyReplays(first.0, input, id2);
    hide I.Inv, Alone, AccountsAfter, OthersSame;
  }

  /**
   A second request under the key of the first gets the first one's payment if order, account, amount and currency are
   all the same, and a conflict if any of them differs; either way nothing is changed.
   */
  lemma SecondRequest(s: Store, input: Input, id: string, second: Input, id2: string)
    requires I.Inv(s) && Valid(input) && id !in s.payments && input.key !in s.idempotency
    requires Valid(second) && second.key == input.key && CleanInput(second)
    ensures var first := Alone(s, Call(input, id, Creating));
      && first.1.Created? && CameFrom(first.1.payment, input)
      && Alone(first.0, Call(second, id2, Creating))
      == (first.0, if CameFrom(first.1.payment, second) then Replayed(first.1.payment)
                   else Refused(IdempotencyConflict))
  {
    hide I.Inv, Alone, Valid, Fingerprint, AccountsAfter, OthersSame, CameFrom, CleanInput, Ending;
    ValidAmount(input);
    NewRequestEnds(s, input, id);
    RecordStays(s, Call(input, id, Creating));
    var first := Alone(s, Call(input, id, Creating));
    KnownKeyReplays(first.0, second, id2);
    SameFields(first.1.payment, input, second);
  }

  lemma ValidAmount(input: Input)
    requires Valid(input)
    ensures input.amount > 0
  {
  }

  /** Of two valid requests, one of them with NUL-free ids, the fingerprints are equal exactly if the fields are. */
  lemma SameFields(p: Payment, input: Input, second: Input)
    requires Valid(input) && Valid(second) && CleanInput(second) && CameFrom(p, input)
    ensures CameFrom(p, second) <==> Fingerprint(input) == Fingerprint(second)
  {
    hide F.Payload, F.Fits;
    if Fingerprint(input) == Fingerprint(second) {
      F.CleanDecodes(second.orderId, second.accountId, second.amount, second.currency,
                     input.orderId, input.accountId, input.amount, input.currency);
    }
  }

  /** After a call its key is recorded for its payment and request. */
  lemma RecordStays(s: Store, c: Call)
    requires I.Inv(s) && c.input.amount > 0 && c.stage.Creating? && c.id !in s.payments && c.input.key !in s.idempotency
    ensures c.input.key in Alone(s, c).0.idempotency
    ensures Alone(s, c).0.idempotency[c.input.key] == IdempotencyRecord(c.id, Fingerprint(c.input))
  {
    hide I.Inv, Next, Fresh, Fingerprint;
    CreateStep(s, c);
    NextKeeps(s, c);
    NextNames(s, c);
    KeysKept(Next(s, c).0, c.(stage := Starting));
  }

  lemma {:induction false} KeysKept(s: Store, c: Call)
    requires I.Inv(s) && c.input.amount > 0 && !c.stage.Creating?
    ensures Alone(s, c).0.idempotency == s.idempotency
    decreases Rank(c.stage)
  {
    hide I.Inv, Next, Fingerprint;
    if !c.stage.Done? {
      NextKeeps(s, c);
      NextNames(s, c);
      Descends(s, c);
      NextAhead(s, c);
      KeysKept(Next(s, c).0, c.(stage := Next(s, c).1));
    }
  }

  // ---- Callbacks ----

  /** A callback request changes money, status or ledger only if it is valid, not faulted, and the store applies it. */
  lemma OnlyApplied(s: Store, id: string, input: CallbackInput)
    requires I.Inv(s)
    ensures C.Core(Deliver(s, id, input).store) != C.Core(s) ==>
      && ValidCallback(id, input) && !Faulted(input) && M.Effective(s, id, input.callback)
  {
    hide I.Inv, C.Core, ProcessCallback, Append;
    C.NoteCore(s, id, Recorded(FAULT_NAME));
    IneffectiveCore(s, id, input.callback);
  }

  lemma IneffectiveCore(s: Store, id: string, c: Callback)
    ensures !M.Effective(s, id, c) ==> C.Core(ProcessCallback(s, id, c).store) == C.Core(s)
  {
    hide C.Core, Note, See, Apply;
    var seen := See(s, id, c.eventId);
    C.SeeCore(s, id, c.eventId);
    C.NoteCore(s, id, CallbackDuplicate);
    C.NoteCore(seen, id, CallbackOutOfOrder);
    C.NoteCore(seen, id, CallbackTerminalIgnored);
    C.CoreFacts(s, seen);
  }

  /** A faulted confirmation can be tried again: the retry does what it would have done at first. */
  lemma FaultIsRetryable(s: Store, id: string, input: CallbackInput)
    requires ValidCallback(id, input) && Faulted(input) && id in s.payments
    ensures var failed := Deliver(s, id, input);
      && failed.result == Err(InjectedFault)
      && T.KindsAt(failed.store, id) == T.KindsAt(s, id) + [Recorded(FAULT_NAME)]
      && var retried, plain := Deliver(failed.store, id, input.(fault := Faultless)),
         Deliver(s, id, input.(fault := Faultless));
      && retried.result == plain.result && C.Core(retried.store) == C.Core(plain.store)
      && SeenOf(retried.store, id) == SeenOf(plain.store, id)
  {
    hide C.Core, Append, ProcessCallback, T.KindsAt;
    C.NoteCore(s, id, Recorded(FAULT_NAME));
    T.AppendKinds(s, id, Recorded(FAULT_NAME), None, None);
    SameAnswer(s, Note(s, id, Recorded(FAULT_NAME)), id, input.callback);
  }

  /** A callback that reports failure is never faulted: it is processed, whatever fault it asks for. */
  lemma DeclineIsNeverFaulted(s: Store, id: string, input: CallbackInput)
    requires ValidCallback(id, input) && !input.callback.outcome.Succeeded?
    ensures Deliver(s, id, input) == Deliver(s, id, input.(fault := Faultless))
    ensures Deliver(s, id, input).result != Err(InjectedFault)
  {
    hide Append, Apply;
    if id in s.payments {
      T.ApplyAnswers(See(s, id, input.callback.eventId), id, input.callback);
    }
  }

  lemma SameAnswer(s: Store, s': Store, id: string, c: Callback)
    requires C.Core(s) == C.Core(s') && s.callbacksSeen == s'.callbacksSeen && id in s.payments
    ensures ProcessCallback(s', id, c).result == ProcessCallback(s, id, c).result
    ensures C.Core(ProcessCallback(s', id, c).store) == C.Core(ProcessCallback(s, id, c).store)
    ensures SeenOf(ProcessCallback(s', id, c).store, id) == SeenOf(ProcessCallback(s, id, c).store, id)
  {
    hide C.Core, Note, See, Apply;
    C.CoreFacts(s, s');
    var seen, seen' := See(s, id, c.eventId), See(s', id, c.eventId);
    C.SeeCore(s, id, c.eventId);
    C.SeeCore(s', id, c.eventId);
    C.CoreFacts(s, seen);
    C.NoteCore(s, id, CallbackDuplicate);
    C.NoteCore(s', id, CallbackDuplicate);
    C.NoteCore(seen, id, CallbackOutOfOrder);
    C.NoteCore(seen', id, CallbackOutOfOrder);
    C.NoteCore(seen, id, CallbackTerminalIgnored);
    C.NoteCore(seen', id, CallbackTerminalIgnored);
    C.ApplyCore(seen, seen', id, c);
    C.ApplySees(seen, id, c);
    C.ApplySees(seen', id, c);
    SameResult(seen, seen', id, c);
  }

  lemma SameResult(s: Store, s': Store, id: string, c: Callback)
    requires C.Core(s) == C.Core(s') && id in s.payments
    ensures id in s'.payments && Apply(s', id, c).result == Apply(s, id, c).result
  {
    C.CoreFacts(s, s');
    C.CoreFacts(s, Note(s, id, CallbackAccepted));
    hide C.Core, SetStatus, Release, CommitFunds, LogOf, CountOf;
  }
}

/**
 Create of internal/service/payment.go as the sequence of store operations that it makes for one request, each of them
 atomic.  What happens between two of them is up to the other requests.
 */
module LocalCreate {
  import opened Domain
  import opened MemoryRules
  import I = MemoryInvariant
  import F = Fingerprint
  import M = MemoryRuns

  /** The fault a request asks for; an unknown name is kept as one. */
  datatype Fault = NoFault | BeforeFreeze | AfterFreeze | UnknownFault

  /** A request after normalisation. */
  datatype Input = Input(
    orderId: string, accountId: string, amount: int, currency: string, key: string, autoConfirm: bool, fault: Fault)

  /** ValidateCreateInput. */
  predicate Valid(input: Input) {
    && F.Fits(input.orderId) && F.Fits(input.accountId) && F.Fits(input.key)
    && 0 < input.amount <= MAX_AMOUNT && input.currency == "CNY" && input.fault != UnknownFault
  }

  /** Validation looks at each field by itself: what a valid request may have in one of them instead. */
  lemma EachFieldAlone(input: Input, n: int, s: string, fault: Fault)
    requires Valid(input)
    ensures Valid(input.(amount := n)) <==> 1 <= n <= 100_000_000
    ensures Valid(input.(currency := s)) <==> s == "CNY"
    ensures Valid(input.(fault := fault)) <==> fault in {NoFault, BeforeFreeze, AfterFreeze}
    ensures Valid(input.(orderId := s)) <==> 1 <= F.Utf8Length(s) <= 128
    ensures Valid(input.(accountId := s)) <==> 1 <= F.Utf8Length(s) <= 128
    ensures Valid(input.(key := s)) <==> 1 <= F.Utf8Length(s) <= 128
  {
    F.LengthIsPositive(s);
  }

  function Fingerprint(input: Input): string {
    F.Payload(input.orderId, input.accountId, input.amount, input.currency)
  }

  function NewPayment(input: Input, id: string): Payment {
    Payment(id, input.orderId, input.accountId, input.amount, input.currency, Init, "", 0)
  }

  /** Why a payment failed before a callback could settle it. */
  datatype Cause = FaultBefore | FaultAfter | NoAccount | NoFunds

  function Reason(cause: Cause): string {
    match cause
    case FaultBefore => "injected failure before funds freeze"
    case FaultAfter => "injected failure after funds freeze; local Cancel completed"
    case NoAccount => "account not found"
    case NoFunds => "insufficient funds"
  }

  const FAULT_NAME := "FAULT_INJECTED"

  function AutoCallback(id: string): Callback {
    Callback("auto_" + id, 1, Succeeded, "")
  }

  datatype Answer = Created(payment: Payment) | Replayed(payment: Payment) | Refused(error: Error)

  datatype Stage =
    | Creating | Starting | Noting(cause: Cause) | Freezing | Failing(cause: Cause) | Confirming
    | Done(answer: Answer)

  datatype Call = Call(input: Input, id: string, stage: Stage)

  /** The store operation the call is about to make, and where it goes from there. */
  function Next(s: Store, c: Call): (Store, Stage)
    requires Indexed(s)
  {
    match c.stage
    case Creating =>
      var step := CreatePayment(s, NewPayment(c.input, c.id), c.input.key, Fingerprint(c.input));
      (step.store, match step.result
        case Err(e) => Done(Refused(e))
        case Ok((p, created)) => if created then Starting else Done(Replayed(p)))
    case Starting =>
      var step := StartPayment(s, c.id);
      (step.store, match step.result
        case Err(e) => Done(Refused(e))
        case Ok(_) => if c.input.fault.BeforeFreeze? then Noting(FaultBefore) else Freezing)
    case Noting(cause) => (RecordEvent(s, c.id, FAULT_NAME).store, Failing(cause))
    case Freezing =>
      var step := Freeze(s, c.id);
      (step.store, match step.result
        case Err(e) =>
          if e.InsufficientFunds? then Failing(NoFunds) else if e.NotFound? then Failing(NoAccount)
              else Done(Refused(e))
        case Ok(p) =>
          if c.input.fault.AfterFreeze? then Noting(FaultAfter)
          else if c.input.autoConfirm then Confirming else Done(Created(p)))
    case Failing(cause) =>
      var step := FailAndRelease(s, c.id, Reason(cause));
      (step.store, match step.result
        case Err(e) => Done(Refused(e))
        case Ok(p) => Done(Created(p)))
    case Confirming =>
      var step := ProcessCallback(s, c.id, AutoCallback(c.id));
      (step.store, match step.result
        case Err(e) => Done(Refused(e))
        case Ok((p, _)) => Done(Created(p)))
    case Done(_) => (s, c.stage)
  }

  /** What a payment has to look like between requests: settled, or processing with its money frozen. */
  predicate Quiet(s: Store, id: string) {
    id in s.payments && (s.payments[id].status.Terminal() || (s.payments[id].status.Processing? && HoldsFunds(s, id)))
  }

  /** What a call that has come this far may rely on, if a reset has not taken its payment away. */
  predicate StageOk(s: Store, c: Call) {
    match c.stage
    case Creating => c.id !in s.payments
    case Starting => c.id in s.payments ==> s.payments[c.id].status.Init?
    case Noting(_) => c.id in s.payments ==> !s.payments[c.id].status.Init?
    case Freezing => c.id in s.payments ==> !s.payments[c.id].status.Init?
    case Failing(_) => c.id in s.payments ==> !s.payments[c.id].status.Init?
    case Confirming => c.id in s.payments ==> Quiet(s, c.id)
    case Done(_) => c.id in s.payments ==> Quiet(s, c.id)
  }

  /** No payment appears, leaves INIT or loses its quiet. */
  predicate Forward(s: Store, s': Store, id: string) {
    id in s'.payments ==>
      && id in s.payments
      && (s.payments[id].status.Init? <==> s'.payments[id].status.Init?)
      && (Quiet(s, id) ==> Quiet(s', id))
  }

  /** A step of somebody else leaves a call where it can go on. */
  lemma StageStays(s: Store, s': Store, c: Call)
    requires StageOk(s, c) && Forward(s, s', c.id)
    ensures StageOk(s', c)
  {
  }

  // ---- Steps of other requests ----

  lemma SameForward(s: Store, s': Store, id: string)
    requires M.SameAt(s, s', id)
    ensures Forward(s, s', id)
  {
  }

  /** A terminal payment is quiet, so ending in a terminal status loses nothing. */
  lemma EndedForward(s: Store, s': Store, id: string)
    requires id in s.payments && !s.payments[id].status.Init?
    requires id in s'.payments && s'.payments[id].status.Terminal()
    ensures Forward(s, s', id)
  {
  }

  lemma SettleForward(s: Store, id: string, from: PaymentStatus, payment: Payment)
    requires id in s.payments && !s.payments[id].status.Init? && payment.status.Terminal()
    ensures Forward(s, SetStatus(Release(s, id), id, from, payment), id)
  {
    hide LogOf, CountOf, Release, Forward;
    EndedForward(s, SetStatus(Release(s, id), id, from, payment), id);
  }

  lemma PayForward(s: Store, id: string, payment: Payment)
    requires id in s.payments && HoldsFunds(s, id) && !s.payments[id].status.Init? && payment.status.Terminal()
    ensures Forward(s, I.Pay(s, id, payment), id)
  {
    hide LogOf, CountOf, CommitFunds, Forward;
    EndedForward(s, I.Pay(s, id, payment), id);
  }

  lemma ForwardTwice(s: Store, t: Store, u: Store, id: string)
    requires Forward(s, t, id) && Forward(t, u, id)
    ensures Forward(s, u, id)
  {
  }

  lemma ApplyForward(s: Store, id: string, c: Callback)
    requires id in s.payments && s.payments[id].status.Processing?
    ensures Forward(s, Apply(s, id, c).store, id)
  {
    hide Forward, Append, Release, SetStatus, CommitFunds;
    var noted := Note(s, id, CallbackAccepted);
    M.AppendSame(s, id, id, CallbackAccepted, None, None);
    SameForward(s, noted, id);
    var p := s.payments[id].(lastCallback := c.sequence);
    if !c.outcome.Succeeded? {
      SettleForward(noted, id, p.status, p.(status := Failed,
                                            failureReason := if c.reason == "" then DECLINED else c.reason));
      ForwardTwice(s, noted, Apply(s, id, c).store, id);
    } else if HoldsFunds(s, id) {
      PayForward(noted, id, p.(status := Success));
      ForwardTwice(s, noted, Apply(s, id, c).store, id);
    }
  }

  lemma NoteForward(s: Store, id: string, other: string, kind: EventKind)
    ensures Forward(s, Note(s, other, kind), id)
  {
    hide Append;
    M.AppendSame(s, id, other, kind, None, None);
  }

  lemma SeeForward(s: Store, id: string, other: string, eventId: string)
    ensures Forward(s, See(s, other, eventId), id)
  {
  }

  lemma DeliverForward(s: Store, other: string, c: Callback, id: string)
    ensures Forward(s, ProcessCallback(s, other, c).store, id)
  {
    hide Forward, Note, Apply;
    var seen := See(s, other, c.eventId);
    SeeForward(s, id, other, c.eventId);
    NoteForward(s, id, other, CallbackDuplicate);
    NoteForward(seen, id, other, CallbackOutOfOrder);
    NoteForward(seen, id, other, CallbackTerminalIgnored);
    ForwardTwice(s, seen, Note(seen, other, CallbackOutOfOrder), id);
    ForwardTwice(s, seen, Note(seen, other, CallbackTerminalIgnored), id);
    SameForward(s, s, id);
    if other in s.payments && s.payments[other].status.Processing? {
      if other == id {
        ApplyForward(seen, id, c);
      } else {
        M.ApplySame(seen, other, c, id);
        SameForward(seen, Apply(seen, other, c).store, id);
      }
      ForwardTwice(s, seen, Apply(seen, other, c).store, id);
    }
  }

  lemma CloseForward(s: Store, other: string, id: string)
    ensures Forward(s, ClosePayment(s, other).store, id)
  {
    hide Forward, Release, SetStatus;
    SameForward(s, s, id);
    if other in s.payments && s.payments[other].status.Processing? {
      var p := s.payments[other].(status := Closed, failureReason := "");
      if other == id {
        SettleForward(s, id, Processing, p);
      } else {
        M.SettleSame(s, id, other, Processing, p);
        SameForward(s, ClosePayment(s, other).store, id);
      }
    }
  }

  /** What requests other than Create do to the store. */
  predicate Outside(op: M.MemoryOp) {
    op.Deliver? || op.Close? || op.Record? || op.Reset?
  }

  /** Callbacks, closes, notes and resets move every payment forward. */
  lemma OutsideForward(s: Store, op: M.MemoryOp, id: string)
    requires Indexed(s) && Outside(op)
    ensures Forward(s, M.Do(s, op), id)
  {
    hide Forward, ProcessCallback, ClosePayment, Note;
    match op
    case Deliver(other, c) => DeliverForward(s, other, c, id);
    case Close(other) => CloseForward(s, other, id);
    case Record(other, name) => SameForward(s, s, id); NoteForward(s, id, other, Recorded(name));
    case Reset => ResetForward(s, id);
    case _ => assert false;
  }

  lemma ResetForward(s: Store, id: string)
    ensures Forward(s, EmptyStore(), id)
  {
  }

  // ---- The call's own steps ----

  /** Between its creation and its settlement a payment is its call's business alone. */
  predicate Midway(stage: Stage) {
    stage.Starting? || stage.Noting? || stage.Freezing? || stage.Failing?
  }

  lemma CreatePaymentSame(s: Store, payment: Payment, key: string, fingerprint: string, id: string)
    requires Indexed(s) && payment.id != id
    ensures M.SameAt(s, CreatePayment(s, payment, key, fingerprint).store, id)
  {
    hide LogOf, CountOf;
  }

  /** A step of one call moves everybody else's payment forward. */
  lemma NextForward(s: Store, c: Call, id: string)
    requires Indexed(s) && id != c.id
    ensures Forward(s, Next(s, c).0, id)
  {
    hide Forward, Append, Release, SetStatus, CreatePayment, Freeze, ProcessCallback, Fingerprint, Reason, AutoCallback;
    SameForward(s, s, id);
    match c.stage
    case Creating =>
      CreatePaymentSame(s, NewPayment(c.input, c.id), c.input.key, Fingerprint(c.input), id);
      SameForward(s, Next(s, c).0, id);
    case Starting =>
      if c.id in s.payments {
        M.StatusSame(s, id, c.id, Init, s.payments[c.id].(status := Processing));
        SameForward(s, SetStatus(s, c.id, Init, s.payments[c.id].(status := Processing)), id);
      }
    case Noting(_) => NoteForward(s, id, c.id, Recorded(FAULT_NAME));
    case Freezing =>
      M.FreezeSame(s, id, c.id);
      SameForward(s, Next(s, c).0, id);
    case Failing(cause) =>
      if c.id in s.payments {
        var from, p := s.payments[c.id].status, s.payments[c.id].(status := Failed, failureReason := Reason(cause));
        M.SettleSame(s, id, c.id, from, p);
        SameForward(s, SetStatus(Release(s, c.id), c.id, from, p), id);
      }
    case Confirming => DeliverForward(s, c.id, AutoCallback(c.id), id);
    case Done(_) => {}
  }

  lemma NextKeeps(s: Store, c: Call)
    requires I.Inv(s) && c.input.amount > 0
    ensures Indexed(s) && I.Inv(Next(s, c).0)
  {
    M.InvIndexed(s);
    hide I.Inv, CreatePayment, StartPayment, Freeze, FailAndRelease, ProcessCallback, RecordEvent, Fingerprint, Reason,
      AutoCallback;
    match c.stage
    case Creating => I.CreateKeeps(s, NewPayment(c.input, c.id), c.input.key, Fingerprint(c.input));
    case Starting => I.StartKeeps(s, c.id);
    case Noting(_) => I.RecordKeeps(s, c.id, FAULT_NAME);
    case Freezing => I.FreezeKeeps(s, c.id);
    case Failing(cause) => I.FailKeeps(s, c.id, Reason(cause));
    case Confirming => I.CallbackKeeps(s, c.id, AutoCallback(c.id));
    case Done(_) => {}
  }

  lemma CreatingOk(s: Store, c: Call)
    requires Indexed(s) && c.stage.Creating? && StageOk(s, c)
    ensures StageOk(Next(s, c).0, c.(stage := Next(s, c).1))
  {
    hide LogOf, CountOf, Fingerprint;
  }

  lemma StartingOk(s: Store, c: Call)
    requires Indexed(s) && c.stage.Starting? && StageOk(s, c)
    ensures StageOk(Next(s, c).0, c.(stage := Next(s, c).1))
  {
    hide LogOf, CountOf;
  }

  lemma NotingOk(s: Store, c: Call)
    requires Indexed(s) && c.stage.Noting? && StageOk(s, c)
    ensures StageOk(Next(s, c).0, c.(stage := Next(s, c).1))
  {
    hide LogOf, CountOf;
  }

  lemma FreezingOk(s: Store, c: Call)
    requires I.Inv(s) && Indexed(s) && c.stage.Freezing? && StageOk(s, c)
    ensures StageOk(Next(s, c).0, c.(stage := Next(s, c).1))
  {
    hide I.Inv, LogOf, CountOf;
    if c.id in s.payments {
      M.CoupledNow(s, c.id);
    }
  }

  lemma FailingOk(s: Store, c: Call)
    requires Indexed(s) && c.stage.Failing? && StageOk(s, c)
    ensures StageOk(Next(s, c).0, c.(stage := Next(s, c).1))
  {
    hide LogOf, CountOf, Release, Reason;
  }

  lemma ConfirmingOk(s: Store, c: Call)
    requires Indexed(s) && c.stage.Confirming? && StageOk(s, c)
    ensures StageOk(Next(s, c).0, c.(stage := Next(s, c).1))
  {
    hide ProcessCallback, AutoCallback;
    DeliverForward(s, c.id, AutoCallback(c.id), c.id);
  }

  /** Every step leaves the call where its next step can rely on what it needs. */
  lemma NextOk(s: Store, c: Call)
    requires I.Inv(s) && Indexed(s) && StageOk(s, c)
    ensures StageOk(Next(s, c).0, c.(stage := Next(s, c).1))
  {
    hide I.Inv, StageOk, Next;
    match c.stage
    case Creating => CreatingOk(s, c);
    case Starting => StartingOk(s, c);
    case Noting(_) => NotingOk(s, c);
    case Freezing => FreezingOk(s, c);
    case Failing(_) => FailingOk(s, c);
    case Confirming => ConfirmingOk(s, c);
    case Done(_) => DoneStays(s, c);
  }

  lemma DoneStays(s: Store, c: Call)
    requires Indexed(s) && c.stage.Done?
    ensures Next(s, c) == (s, c.stage)
  {
  }

  /** A call never creates again. */
  lemma NextAhead(s: Store, c: Call)
    requires Indexed(s)
    ensures !Next(s, c).1.Creating?
  {
    hide CreatePayment, StartPayment, Freeze, FailAndRelease, ProcessCallback, RecordEvent, Fingerprint, Reason,
      AutoCallback;
  }

  /** What of a payment comes from its request. */
  predicate SameRequest(p: Payment, p': Payment) {
    && p'.id == p.id && p'.orderId == p.orderId && p'.accountId == p.accountId && p'.amount == p.amount
    && p'.currency == p.currency
  }

  /** The payments there are, the requests they came from and the keys they were created under. */
  ghost predicate SameKeys(s: Store, s': Store) {
    && s'.idempotency == s.idempotency && s'.payments.Keys == s.payments.Keys
    && (forall id :: id in s.payments ==> id in s'.payments && SameRequest(s.payments[id], s'.payments[id]))
  }

  /** Every key's record has the fingerprint of the request that its payment came from. */
  ghost predicate Stamped(s: Store) {
    forall k :: k in s.idempotency ==>
      && s.idempotency[k].paymentId in s.payments
      && var p := s.payments[s.idempotency[k].paymentId];
      && p.currency == "CNY"
      && s.idempotency[k].fingerprint == F.Payload(p.orderId, p.accountId, p.amount, p.currency)
  }

  lemma AppendKeys(s: Store, id: string, kind: EventKind, from: Option<PaymentStatus>, to: Option<PaymentStatus>)
    ensures SameKeys(s, Append(s, id, kind, from, to))
  {
    hide LogOf, CountOf;
  }

  lemma StatusKeys(s: Store, id: string, from: PaymentStatus, payment: Payment)
    requires id in s.payments && SameRequest(s.payments[id], payment)
    ensures SameKeys(s, SetStatus(s, id, from, payment))
  {
    hide Append;
    AppendKeys(s.(payments := s.payments[id := payment]), id, StatusChanged, Some(from), Some(payment.status));
  }

  lemma MoneyKeys(s: Store, id: string)
    ensures SameKeys(s, Release(s, id))
    ensures SameKeys(s, Freeze(s, id).store)
    ensures id in s.payments && HoldsFunds(s, id) ==> SameKeys(s, Note(CommitFunds(s, id), id, FundsConfirmed))
  {
    hide LogOf, CountOf;
  }

  lemma ApplyKeys(s: Store, id: string, c: Callback)
    requires id in s.payments
    ensures SameKeys(s, Apply(s, id, c).store)
  {
    hide Append, Release, SetStatus, CommitFunds;
    var noted := Note(s, id, CallbackAccepted);
    AppendKeys(s, id, CallbackAccepted, None, None);
    assert id in noted.payments;
    MoneyKeys(noted, id);
    M.AppendSame(s, id, id, CallbackAccepted, None, None);
    var p := s.payments[id].(lastCallback := c.sequence);
    if !c.outcome.Succeeded? {
      StatusKeys(Release(noted, id), id, p.status,
                 p.(status := Failed, failureReason := if c.reason == "" then DECLINED else c.reason));
    } else if HoldsFunds(s, id) {
      StatusKeys(Note(CommitFunds(noted, id), id, FundsConfirmed), id, p.status, p.(status := Success));
    }
  }

  lemma SeeKeys(s: Store, id: string, eventId: string)
    ensures SameKeys(s, See(s, id, eventId)) && See(s, id, eventId).payments == s.payments
  {
  }

  lemma KeysTwice(s: Store, t: Store, u: Store)
    requires SameKeys(s, t) && SameKeys(t, u)
    ensures SameKeys(s, u)
  {
  }

  lemma DeliverKeys(s: Store, id: string, c: Callback)
    ensures SameKeys(s, ProcessCallback(s, id, c).store)
  {
    hide SameKeys, Append, Apply, See;
    var seen := See(s, id, c.eventId);
    SeeKeys(s, id, c.eventId);
    KeysSame(s);
    AppendKeys(s, id, CallbackDuplicate, None, None);
    AppendKeys(seen, id, CallbackOutOfOrder, None, None);
    AppendKeys(seen, id, CallbackTerminalIgnored, None, None);
    KeysTwice(s, seen, Note(seen, id, CallbackOutOfOrder));
    KeysTwice(s, seen, Note(seen, id, CallbackTerminalIgnored));
    if id in s.payments {
      ApplyKeys(seen, id, c);
      KeysTwice(s, seen, Apply(seen, id, c).store);
    }
  }

  lemma KeysSame(s: Store)
    ensures SameKeys(s, s)
  {
  }

  lemma CloseKeys(s: Store, id: string)
    ensures SameKeys(s, ClosePayment(s, id).store)
  {
    hide Release, SetStatus;
    MoneyKeys(s, id);
    if id in s.payments {
      StatusKeys(Release(s, id), id, s.payments[id].status, s.payments[id].(status := Closed, failureReason := ""));
    }
  }

  /** Only creation writes a key, and it names the call's own payment. */
  lemma NextNames(s: Store, c: Call)
    requires Indexed(s)
    ensures var next := Next(s, c);
      if c.stage.Creating? && next.1.Starting?
      then c.input.key !in s.idempotency
           && next.0.idempotency == s.idempotency[c.input.key := IdempotencyRecord(c.id, Fingerprint(c.input))]
           && c.id !in s.payments && next.0.payments == s.payments[c.id := NewPayment(c.input, c.id)]
      else SameKeys(s, next.0)
  {
    hide Append, Release, SetStatus, Freeze, ProcessCallback, Fingerprint, Reason, AutoCallback;
    match c.stage
    case Creating => CreatingNames(s, c);
    case Starting =>
      if c.id in s.payments {
        StatusKeys(s, c.id, Init, s.payments[c.id].(status := Processing));
      }
    case Noting(_) => AppendKeys(s, c.id, Recorded(FAULT_NAME), None, None);
    case Freezing => MoneyKeys(s, c.id);
    case Failing(cause) =>
      MoneyKeys(s, c.id);
      if c.id in s.payments {
        StatusKeys(Release(s, c.id), c.id, s.payments[c.id].status,
                   s.payments[c.id].(status := Failed, failureReason := Reason(cause)));
      }
    case Confirming => DeliverKeys(s, c.id, AutoCallback(c.id));
    case Done(_) => {}
  }

  lemma CreatingNames(s: Store, c: Call)
    requires Indexed(s) && c.stage.Creating?
    ensures var next := Next(s, c);
      if next.1.Starting?
      then c.input.key !in s.idempotency
           && next.0.idempotency == s.idempotency[c.input.key := IdempotencyRecord(c.id, Fingerprint(c.input))]
           && c.id !in s.payments && next.0.payments == s.payments[c.id := NewPayment(c.input, c.id)]
      else SameKeys(s, next.0)
  {
    hide LogOf, CountOf, Fingerprint;
  }

  lemma OutsideKeys(s: Store, op: M.MemoryOp)
    requires Indexed(s) && Outside(op)
    ensures op.Reset? || SameKeys(s, M.Do(s, op))
  {
    hide Append, ProcessCallback, ClosePayment;
    match op
    case Deliver(id, c) => DeliverKeys(s, id, c);
    case Close(id) => CloseKeys(s, id);
    case Record(id, name) => AppendKeys(s, id, Recorded(name), None, None);
    case Reset => {}
    case _ => assert false;
  }

  // ---- Fingerprints ----

  lemma KeysStamped(s: Store, s': Store)
    requires Stamped(s) && SameKeys(s, s')
    ensures Stamped(s')
  {
    hide F.Payload;
    forall k | k in s'.idempotency
      ensures s'.idempotency[k].paymentId in s'.payments
      ensures var p := s'.payments[s'.idempotency[k].paymentId];
        && p.currency == "CNY"
        && s'.idempotency[k].fingerprint == F.Payload(p.orderId, p.accountId, p.amount, p.currency)
    {
      assert SameRequest(s.payments[s.idempotency[k].paymentId], s'.payments[s.idempotency[k].paymentId]);
    }
  }

  /** A call stamps the record it writes with what its payment says, and no step of anybody unsettles a stamp. */
  lemma NextStamped(s: Store, c: Call)
    requires Indexed(s) && Stamped(s) && Valid(c.input)
    ensures Stamped(Next(s, c).0)
  {
    hide F.Payload, F.Fits, Next, SameKeys;
    NextNames(s, c);
    if !(c.stage.Creating? && Next(s, c).1.Starting?) {
      KeysStamped(s, Next(s, c).0);
    }
  }

  lemma OutsideStamped(s: Store, op: M.MemoryOp)
    requires Indexed(s) && Stamped(s) && Outside(op)
    ensures Stamped(M.Do(s, op))
  {
    hide F.Payload, SameKeys, ProcessCallback, ClosePayment, Append;
    OutsideKeys(s, op);
    if !op.Reset? {
      KeysStamped(s, M.Do(s, op));
    }
  }

  /** This payment came from a request with these fields. */
  predicate CameFrom(p: Payment, input: Input) {
    p.orderId == input.orderId && p.accountId == input.accountId && p.amount == input.amount
    && p.currency == input.currency
  }

  predicate CleanInput(input: Input) {
    F.Clean(input.orderId) && F.Clean(input.accountId)
  }

  /**
   A request under a known key is answered by its fields: with the key's payment if that came from the same fields, with
   a conflict if not; a NUL in an id is the one thing that can hide a difference.  Nothing is changed.
   */
  lemma KnownKeyByFields(s: Store, c: Call)
    requires Indexed(s) && Stamped(s) && Valid(c.input) && c.stage.Creating? && c.input.key in s.idempotency
    ensures var p := s.payments[s.idempotency[c.input.key].paymentId];
      && (CameFrom(p, c.input) ==> Next(s, c) == (s, Done(Replayed(p))))
      && (!CameFrom(p, c.input) && CleanInput(c.input) ==> Next(s, c) == (s, Done(Refused(IdempotencyConflict))))
  {
    hide F.Payload, Append, F.Fits;
    var p := s.payments[s.idempotency[c.input.key].paymentId];
    if CleanInput(c.input) && s.idempotency[c.input.key].fingerprint == Fingerprint(c.input) {
      F.CleanDecodes(c.input.orderId, c.input.accountId, c.input.amount, c.input.currency,
                     p.orderId, p.accountId, p.amount, p.currency);
    }
  }
}

/**
 What the histories of the memory store say about its money, and what an operation's answer says about the store it
 leaves behind.
 */
module MemoryHistory {
  import opened Domain
  import opened MemoryRules
  import I = MemoryInvariant
  import M = MemoryRuns
  import C = CallbackCollapse

  function Kinds(log: seq<PaymentEvent>): seq<EventKind> {
    seq(|log|, i requires 0 <= i < |log| => log[i].kind)
  }

  /** The types of the events in a payment's history. */
  function KindsAt(s: Store, id: string): seq<EventKind> {
    Kinds(LogOf(s, id))
  }

  lemma AppendKinds(s: Store, id: string, kind: EventKind, from: Option<PaymentStatus>, to: Option<PaymentStatus>)
    ensures KindsAt(Append(s, id, kind, from, to), id) == KindsAt(s, id) + [kind]
    ensures forall other :: other != id ==> KindsAt(Append(s, id, kind, from, to), other) == KindsAt(s, other)
  {
    var r := Append(s, id, kind, from, to);
    assert forall other :: other != id ==> LogOf(r, other) == LogOf(s, other);
  }

  // ---- Money in the history ----

  function Times(s: Store, id: string, kind: EventKind): nat {
    multiset(KindsAt(s, id))[kind]
  }

  predicate InState(s: Store, id: string, state: ReservationState) {
    id in s.reservations && s.reservations[id].state == state
  }

  /** The history tells each move of this payment's money, and tells it once. */
  predicate Accounted(s: Store, id: string) {
    && Times(s, id, FundsFrozen) == (if id in s.reservations then 1 else 0)
    && Times(s, id, FundsReleased) == (if InState(s, id, Cancelled) then 1 else 0)
    && Times(s, id, FundsConfirmed) == (if InState(s, id, Confirmed) then 1 else 0)
  }

  ghost predicate AllAccounted(s: Store) {
    forall id :: Accounted(s, id)
  }

  predicate OfMoney(kind: EventKind) {
    kind.FundsFrozen? || kind.FundsReleased? || kind.FundsConfirmed?
  }

  lemma SameAccounted(s: Store, s': Store)
    requires AllAccounted(s) && s'.events == s.events && s'.reservations == s.reservations
    ensures AllAccounted(s')
  {
    assert forall id :: Accounted(s, id) ==> Accounted(s', id);
  }

  lemma TimesAppend(s: Store, id: string, kind: EventKind, from: Option<PaymentStatus>, to: Option<PaymentStatus>,
                    other: string, k: EventKind)
    ensures Times(Append(s, id, kind, from, to), other, k)
         == Times(s, other, k) + if other == id && k == kind then 1 else 0
  {
    hide KindsAt, Append;
    AppendKinds(s, id, kind, from, to);
  }

  lemma TimesSame(s: Store, s': Store, id: string)
    requires s'.events == s.events
    ensures forall kind :: Times(s', id, kind) == Times(s, id, kind)
  {
    assert LogOf(s', id) == LogOf(s, id);
  }

  /** An event that is not about money leaves every account of the money right. */
  lemma NoteAccounted(s: Store, id: string, kind: EventKind, from: Option<PaymentStatus>, to: Option<PaymentStatus>)
    requires AllAccounted(s) && !OfMoney(kind)
    ensures AllAccounted(Append(s, id, kind, from, to))
  {
    hide Append, Times;
    C.AppendCore(s, id, kind, from, to);
    C.CoreFacts(s, Append(s, id, kind, from, to));
    forall other
      ensures Accounted(Append(s, id, kind, from, to), other)
    {
      assert Accounted(s, other);
      TimesAppend(s, id, kind, from, to, other, FundsFrozen);
      TimesAppend(s, id, kind, from, to, other, FundsReleased);
      TimesAppend(s, id, kind, from, to, other, FundsConfirmed);
    }
  }

  /** Money that moves on, with its event, leaves every account of the money right. */
  lemma MoneyAccounted(s: Store, moved: Store, id: string, kind: EventKind)
    requires AllAccounted(s) && moved.events == s.events && id in moved.reservations
    requires moved.reservations == s.reservations[id := moved.reservations[id]]
    requires match kind
      case FundsFrozen => id !in s.reservations && moved.reservations[id].state.Frozen?
      case FundsReleased => HoldsFunds(s, id) && moved.reservations[id].state.Cancelled?
      case FundsConfirmed => HoldsFunds(s, id) && moved.reservations[id].state.Confirmed?
      case _ => false
    ensures AllAccounted(Note(moved, id, kind))
  {
    hide Append, Times, LogOf;
    C.AppendCore(moved, id, kind, None, None);
    C.CoreFacts(moved, Note(moved, id, kind));
    forall other
      ensures Accounted(Note(moved, id, kind), other)
    {
      assert Accounted(s, other);
      TimesSame(s, moved, other);
      TimesAppend(moved, id, kind, None, None, other, FundsFrozen);
      TimesAppend(moved, id, kind, None, None, other, FundsReleased);
      TimesAppend(moved, id, kind, None, None, other, FundsConfirmed);
    }
  }

  lemma StatusAccounted(s: Store, id: string, from: PaymentStatus, payment: Payment)
    requires AllAccounted(s)
    ensures AllAccounted(SetStatus(s, id, from, payment))
  {
    hide AllAccounted, Append;
    SameAccounted(s, s.(payments := s.payments[id := payment]));
    NoteAccounted(s.(payments := s.payments[id := payment]), id, StatusChanged, Some(from), Some(payment.status));
  }

  lemma ReleaseAccounted(s: Store, id: string)
    requires AllAccounted(s)
    ensures AllAccounted(Release(s, id))
  {
    hide AllAccounted, Note;
    if HoldsFunds(s, id) {
      var r := s.reservations[id];
      MoneyAccounted(s, Shift(s, AccountOf(s, r.accountId), r.amount, -r.amount)
                        .(reservations := s.reservations[id := r.(state := Cancelled)]), id, FundsReleased);
    }
  }

  lemma CommitAccounted(s: Store, id: string)
    requires AllAccounted(s) && id in s.payments && HoldsFunds(s, id)
    ensures AllAccounted(Note(CommitFunds(s, id), id, FundsConfirmed))
  {
    hide AllAccounted, Note;
    MoneyAccounted(s, CommitFunds(s, id), id, FundsConfirmed);
  }

  lemma FreezeAccounted(s: Store, id: string)
    requires AllAccounted(s)
    ensures AllAccounted(Freeze(s, id).store)
  {
    hide AllAccounted, Note;
    if M.CanReserve(s, id) {
      var p := s.payments[id];
      var a := s.accounts[p.accountId];
      MoneyAccounted(s, Shift(s, a, -p.amount, p.amount)
                        .(reservations := s.reservations[id := Reservation(id, a.id, p.amount, Frozen)]), id,
                     FundsFrozen);
    }
  }

  lemma ApplyAccounted(s: Store, id: string, c: Callback)
    requires AllAccounted(s) && id in s.payments
    ensures AllAccounted(Apply(s, id, c).store)
  {
    hide AllAccounted, Append, SetStatus, Release, CommitFunds;
    var noted := Note(s, id, CallbackAccepted);
    NoteAccounted(s, id, CallbackAccepted, None, None);
    C.NoteCore(s, id, CallbackAccepted);
    C.CoreFacts(s, noted);
    var p := s.payments[id].(lastCallback := c.sequence);
    if !c.outcome.Succeeded? {
      ReleaseAccounted(noted, id);
      StatusAccounted(Release(noted, id), id, p.status,
                      p.(status := Failed, failureReason := if c.reason == "" then DECLINED else c.reason));
    } else if HoldsFunds(s, id) {
      CommitAccounted(noted, id);
      StatusAccounted(Note(CommitFunds(noted, id), id, FundsConfirmed), id, p.status, p.(status := Success));
    }
  }

  lemma DeliverAccounted(s: Store, id: string, c: Callback)
    requires AllAccounted(s)
    ensures AllAccounted(ProcessCallback(s, id, c).store)
  {
    hide AllAccounted, Append, Apply;
    var seen := See(s, id, c.eventId);
    SameAccounted(s, seen);
    NoteAccounted(s, id, CallbackDuplicate, None, None);
    NoteAccounted(seen, id, CallbackOutOfOrder, None, None);
    NoteAccounted(seen, id, CallbackTerminalIgnored, None, None);
    if id in s.payments {
      ApplyAccounted(seen, id, c);
    }
  }

  lemma SettleAccounted(s: Store, id: string, payment: Payment)
    requires AllAccounted(s) && id in s.payments
    ensures AllAccounted(Settle(s, id, payment).store)
  {
    hide AllAccounted, Release, SetStatus;
    ReleaseAccounted(s, id);
    StatusAccounted(Release(s, id), id, s.payments[id].status, payment);
  }

  lemma CreateAccounted(s: Store, payment: Payment, key: string, fingerprint: string)
    requires AllAccounted(s) && Indexed(s)
    ensures AllAccounted(CreatePayment(s, payment, key, fingerprint).store)
  {
    hide AllAccounted, Append;
    var named := s.(payments := s.payments[payment.id := payment],
                    idempotency := s.idempotency[key := IdempotencyRecord(payment.id, fingerprint)]);
    SameAccounted(s, named);
    NoteAccounted(named, payment.id, PaymentCreated, None, Some(Init));
  }

  lemma EmptyAccounted()
    ensures AllAccounted(EmptyStore())
  {
    forall id
      ensures Accounted(EmptyStore(), id)
    {
      assert KindsAt(EmptyStore(), id) == [];
    }
  }

  lemma DoAccounted(s: Store, op: M.MemoryOp)
    requires AllAccounted(s) && Indexed(s)
    ensures AllAccounted(M.Do(s, op))
  {
    hide AllAccounted, Append, SetStatus, Release, Settle, Freeze, ProcessCallback, CreatePayment;
    match op
    case Create(payment, key, fingerprint) => CreateAccounted(s, payment, key, fingerprint);
    case Start(id) =>
      if id in s.payments {
        StatusAccounted(s, id, Init, s.payments[id].(status := Processing));
      }
    case Reserve(id) => FreezeAccounted(s, id);
    case Fail(id, reason) =>
      if id in s.payments {
        SettleAccounted(s, id, s.payments[id].(status := Failed, failureReason := reason));
      }
    case Close(id) =>
      if id in s.payments {
        SettleAccounted(s, id, s.payments[id].(status := PaymentStatus.Closed, failureReason := ""));
      }
    case Deliver(id, callback) => DeliverAccounted(s, id, callback);
    case Record(id, name) => NoteAccounted(s, id, Recorded(name), None, None);
    case Reset => EmptyAccounted();
  }

  lemma {:induction false} RunAccounted(s: Store, ops: seq<M.MemoryOp>)
    requires I.Inv(s) && M.AllAllowed(ops) && AllAccounted(s)
    ensures AllAccounted(M.Run(s, ops))
    decreases |ops|
  {
    hide AllAccounted, M.Do, I.Inv;
    if ops != [] {
      M.DoKeeps(s, ops[0]);
      DoAccounted(s, ops[0]);
      RunAccounted(M.Do(s, ops[0]), ops[1..]);
    }
  }

  /**
   After any operations a payment's history tells its money: one freeze if it ever had a reservation, one release
   exactly if that is cancelled, one confirmation exactly if it is confirmed, and so exactly if the payment has
   succeeded.
   */
  lemma HistoryTellsMoney(ops: seq<M.MemoryOp>, id: string)
    requires M.AllAllowed(ops)
    ensures var s := M.Reached(ops);
      && Accounted(s, id)
      && (id in s.payments ==> (Times(s, id, FundsConfirmed) == 1 <==> s.payments[id].status.Success?))
  {
    hide I.Inv, Times, M.Run;
    I.EmptyInv();
    EmptyAccounted();
    RunAccounted(EmptyStore(), ops);
    assert Accounted(M.Reached(ops), id);
    M.Coupling(ops, id);
    M.FreezeFindsFrozen(ops, id);
  }

  // ---- Answers ----

  /** The payment an operation answers with. */
  function PaymentIn(s: Store, op: M.MemoryOp): Result<Payment>
    requires Indexed(s) && !op.Record? && !op.Reset?
  {
    match op
    case Create(payment, key, fingerprint) =>
      var r := CreatePayment(s, payment, key, fingerprint).result;
      if r.Ok? then Ok(r.value.0) else Err(r.error)
    case Start(id) => StartPayment(s, id).result
    case Reserve(id) => Freeze(s, id).result
    case Fail(id, reason) => FailAndRelease(s, id, reason).result
    case Close(id) => ClosePayment(s, id).result
    case Deliver(id, callback) =>
      var r := ProcessCallback(s, id, callback).result;
      if r.Ok? then Ok(r.value.0) else Err(r.error)
  }

  /** The payment an operation is about: of a creation under a known key, the key's. */
  function Subject(s: Store, op: M.MemoryOp): string
    requires Indexed(s) && !op.Record? && !op.Reset?
  {
    match op
    case Create(payment, key, _) => if key in s.idempotency then s.idempotency[key].paymentId else payment.id
    case Start(id) => id
    case Reserve(id) => id
    case Fail(id, _) => id
    case Close(id) => id
    case Deliver(id, _) => id
  }

  /**
   An operation that succeeds answers with the payment as it is stored afterwards; one that fails has changed no
   payment, balance, reservation, ledger entry or key.
   */
  lemma AnswersAreStored(s: Store, op: M.MemoryOp)
    requires Indexed(s) && !op.Record? && !op.Reset?
    ensures var r, after := PaymentIn(s, op), M.Do(s, op);
      && (r.Ok? ==> Subject(s, op) in after.payments && after.payments[Subject(s, op)] == r.value)
      && (r.Err? ==> C.Core(after) == C.Core(s))
  {
    hide C.Core, Append, Release, CommitFunds, Apply, Freeze, ProcessCallback;
    match op
    case Create(payment, key, _) =>
      C.AppendCore(s.(payments := s.payments[payment.id := payment]), payment.id, PaymentCreated, None, Some(Init));
      CreateStored(s, op);
    case Start(id) =>
      if id in s.payments {
        StatusStored(s, id, Init, s.payments[id].(status := Processing));
      }
    case Reserve(id) => FreezeStored(s, id);
    case Fail(id, reason) =>
      if id in s.payments {
        StatusStored(Release(s, id), id, s.payments[id].status,
                     s.payments[id].(status := Failed, failureReason := reason));
      }
    case Close(id) =>
      if id in s.payments {
        StatusStored(Release(s, id), id, s.payments[id].status,
                     s.payments[id].(status := PaymentStatus.Closed, failureReason := ""));
      }
    case Deliver(id, callback) => DeliverStored(s, id, callback);
  }

  lemma StatusStored(s: Store, id: string, from: PaymentStatus, payment: Payment)
    ensures var r := SetStatus(s, id, from, payment); id in r.payments && r.payments[id] == payment
  {
    hide LogOf, CountOf;
  }

  lemma CreateStored(s: Store, op: M.MemoryOp)
    requires Indexed(s) && op.Create?
    ensures var r, after := PaymentIn(s, op), M.Do(s, op);
      && (r.Ok? ==> Subject(s, op) in after.payments && after.payments[Subject(s, op)] == r.value)
      && (r.Err? ==> after == s)
  {
    hide LogOf, CountOf;
  }

  lemma FreezeStored(s: Store, id: string)
    ensures var step := Freeze(s, id);
      && (step.result.Ok? ==> id in step.store.payments && step.store.payments[id] == step.result.value)
      && (step.result.Err? ==> step.store == s)
  {
    hide LogOf, CountOf;
  }

  lemma ApplyStored(s: Store, id: string, c: Callback)
    requires id in s.payments
    ensures var step := Apply(s, id, c);
      && (step.result.Ok? ==> id in step.store.payments && step.store.payments[id] == step.result.value.0)
      && (step.result.Err? ==> C.Core(step.store) == C.Core(s))
  {
    hide C.Core, Append, Release, SetStatus, CommitFunds;
    C.NoteCore(s, id, CallbackAccepted);
    var noted := Note(s, id, CallbackAccepted);
    var p := s.payments[id].(lastCallback := c.sequence);
    StatusStored(Release(noted, id), id, p.status,
                 p.(status := Failed, failureReason := if c.reason == "" then DECLINED else c.reason));
    C.CoreFacts(s, noted);
    if HoldsFunds(s, id) {
      StatusStored(Note(CommitFunds(noted, id), id, FundsConfirmed), id, p.status, p.(status := Success));
    }
  }

  lemma DeliverStored(s: Store, id: string, c: Callback)
    ensures var step := ProcessCallback(s, id, c);
      && (step.result.Ok? ==> id in step.store.payments && step.store.payments[id] == step.result.value.0)
      && (step.result.Err? ==> C.Core(step.store) == C.Core(s))
  {
    hide C.Core, Note, Apply, See;
    var seen := See(s, id, c.eventId);
    C.SeeCore(s, id, c.eventId);
    C.CoreFacts(s, seen);
    C.NoteCore(s, id, CallbackDuplicate);
    C.CoreFacts(s, Note(s, id, CallbackDuplicate));
    C.NoteCore(seen, id, CallbackOutOfOrder);
    C.CoreFacts(seen, Note(seen, id, CallbackOutOfOrder));
    C.NoteCore(seen, id, CallbackTerminalIgnored);
    C.CoreFacts(seen, Note(seen, id, CallbackTerminalIgnored));
    if id in s.payments {
      ApplyStored(seen, id, c);
    }
  }

  // ---- What a callback leaves in the history ----

  /** The events of a callback that got this answer. */
  function Noted(s: Store, id: string, c: Callback, answer: Disposition): seq<EventKind> {
    match answer
    case Duplicate => [CallbackDuplicate]
    case OutOfOrder => [CallbackOutOfOrder]
    case TerminalIgnored => [CallbackTerminalIgnored]
    case CallbackApplied =>
      [CallbackAccepted]
      + (if c.outcome.Succeeded? then [FundsConfirmed] else if HoldsFunds(s, id) then [FundsReleased] else [])
      + [StatusChanged]
  }

  lemma StatusKinds(s: Store, id: string, from: PaymentStatus, payment: Payment)
    ensures KindsAt(SetStatus(s, id, from, payment), id) == KindsAt(s, id) + [StatusChanged]
  {
    hide Append;
    AppendKinds(s.(payments := s.payments[id := payment]), id, StatusChanged, Some(from), Some(payment.status));
  }

  lemma SameKinds(s: Store, s': Store, id: string)
    requires s'.events == s.events
    ensures KindsAt(s', id) == KindsAt(s, id)
  {
  }

  lemma ReleaseKinds(s: Store, id: string)
    ensures KindsAt(Release(s, id), id) == KindsAt(s, id) + if HoldsFunds(s, id) then [FundsReleased] else []
  {
    hide Append;
    if HoldsFunds(s, id) {
      var r := s.reservations[id];
      AppendKinds(Shift(s, AccountOf(s, r.accountId), r.amount, -r.amount)
                  .(reservations := s.reservations[id := r.(state := Cancelled)]), id, FundsReleased, None, None);
    }
  }

  lemma CommitKinds(s: Store, id: string)
    requires id in s.payments && HoldsFunds(s, id)
    ensures KindsAt(Note(CommitFunds(s, id), id, FundsConfirmed), id) == KindsAt(s, id) + [FundsConfirmed]
  {
    hide Append, KindsAt;
    AppendKinds(CommitFunds(s, id), id, FundsConfirmed, None, None);
    SameKinds(s, CommitFunds(s, id), id);
  }

  lemma ApplyKinds(s: Store, id: string, c: Callback)
    requires id in s.payments && (c.outcome.Succeeded? ==> HoldsFunds(s, id))
    ensures KindsAt(Apply(s, id, c).store, id) == KindsAt(s, id) + Noted(s, id, c, CallbackApplied)
  {
    hide Append, SetStatus, Release, CommitFunds, KindsAt;
    AppendKinds(s, id, CallbackAccepted, None, None);
    var noted := Note(s, id, CallbackAccepted);
    C.NoteCore(s, id, CallbackAccepted);
    C.CoreFacts(s, noted);
    var ks, p := KindsAt(s, id) + [CallbackAccepted], s.payments[id].(lastCallback := c.sequence);
    if c.outcome.Succeeded? {
      CommitKinds(noted, id);
      StatusKinds(Note(CommitFunds(noted, id), id, FundsConfirmed), id, p.status, p.(status := Success));
      assert ks + [FundsConfirmed] + [StatusChanged] == KindsAt(s, id) + Noted(s, id, c, CallbackApplied);
    } else {
      ReleaseKinds(noted, id);
      StatusKinds(Release(noted, id), id, p.status,
                  p.(status := Failed, failureReason := if c.reason == "" then DECLINED else c.reason));
      assert ks + (if HoldsFunds(s, id) then [FundsReleased] else []) + [StatusChanged]
          == KindsAt(s, id) + Noted(s, id, c, CallbackApplied);
    }
  }

  /**
   Every callback that is answered leaves in the history what its answer says, and nothing else; one that fails leaves
   nothing, unless it was accepted before its money was found missing.
   */
  lemma CallbackNotes(s: Store, id: string, c: Callback)
    ensures var step := ProcessCallback(s, id, c);
      && (step.result.Ok? ==> KindsAt(step.store, id) == KindsAt(s, id) + Noted(s, id, c, step.result.value.1))
      && (step.result.Err? ==>
            && KindsAt(step.store, id) == KindsAt(s, id) + (if M.Effective(s, id, c) then [CallbackAccepted] else [])
            && step.result.error == (if c.outcome.Unsupported? then UnsupportedOutcome
                                     else if id !in s.payments then NotFound else InvalidTransition))
  {
    hide Append, Apply, KindsAt, HoldsFunds;
    var seen := See(s, id, c.eventId);
    SameKinds(s, seen, id);
    C.HoldsSame(s, seen, id);
    AppendKinds(s, id, CallbackDuplicate, None, None);
    AppendKinds(seen, id, CallbackOutOfOrder, None, None);
    AppendKinds(seen, id, CallbackTerminalIgnored, None, None);
    assert KindsAt(s, id) + [] == KindsAt(s, id);
    if M.Effective(s, id, c) {
      ApplyAnswers(seen, id, c);
      if Apply(seen, id, c).result.Ok? {
        ApplyKinds(seen, id, c);
      }
      AppendKinds(seen, id, CallbackAccepted, None, None);
    }
  }

  lemma ApplyAnswers(s: Store, id: string, c: Callback)
    requires id in s.payments
    ensures var step := Apply(s, id, c);
      && (step.result.Ok? ==> (c.outcome.Succeeded? ==> HoldsFunds(s, id)) && step.result.value.1.CallbackApplied?)
      && (step.result.Err? ==>
            step == Step(Note(s, id, CallbackAccepted), Err(InvalidTransition)))
  {
  }
}

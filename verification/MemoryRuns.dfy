/** What the memory store promises over every sequence of operations, and the abstract account that it implements. */
module MemoryRuns {
  import opened Domain
  import opened MemoryRules
  import opened AccountBook
  import I = MemoryInvariant
  import E = EventLog
  import H = HoldAccount

  datatype MemoryOp =
    | Create(payment: Payment, key: string, fingerprint: string)
    | Start(id: string)
    | Reserve(id: string)
    | Fail(id: string, reason: string)
    | Close(id: string)
    | Deliver(id: string, callback: Callback)
    | Record(id: string, name: string)
    | Reset

  /** Payments are created as the service builds them: INIT, with a positive amount. */
  predicate Allowed(op: MemoryOp) {
    op.Create? ==> I.NewPayment(op.payment)
  }

  predicate AllAllowed(ops: seq<MemoryOp>) {
    forall i :: 0 <= i < |ops| ==> Allowed(ops[i])
  }

  function Do(s: Store, op: MemoryOp): Store
    requires Indexed(s)
  {
    match op
    case Create(payment, key, fingerprint) => CreatePayment(s, payment, key, fingerprint).store
    case Start(id) => StartPayment(s, id).store
    case Reserve(id) => Freeze(s, id).store
    case Fail(id, reason) => FailAndRelease(s, id, reason).store
    case Close(id) => ClosePayment(s, id).store
    case Deliver(id, callback) => ProcessCallback(s, id, callback).store
    case Record(id, name) => RecordEvent(s, id, name).store
    case Reset => EmptyStore()
  }

  lemma InvIndexed(s: Store)
    requires I.Inv(s)
    ensures Indexed(s)
  {
    I.RecordKnown(s, "");
  }

  /** Every operation keeps the representation invariant. */
  lemma DoKeeps(s: Store, op: MemoryOp)
    requires I.Inv(s) && Allowed(op)
    ensures Indexed(s) && I.Inv(Do(s, op))
  {
    InvIndexed(s);
    hide I.Inv, CreatePayment, StartPayment, Freeze, FailAndRelease, ClosePayment, ProcessCallback, RecordEvent;
    match op
    case Create(payment, key, fingerprint) => I.CreateKeeps(s, payment, key, fingerprint);
    case Start(id) => I.StartKeeps(s, id);
    case Reserve(id) => I.FreezeKeeps(s, id);
    case Fail(id, reason) => I.FailKeeps(s, id, reason);
    case Close(id) => I.CloseKeeps(s, id);
    case Deliver(id, callback) => I.CallbackKeeps(s, id, callback);
    case Record(id, name) => I.RecordKeeps(s, id, name);
    case Reset => I.EmptyInv();
  }

  /** Any operations, in any order, from any store that meets the invariant. */
  function Run(s: Store, ops: seq<MemoryOp>): (r: Store)
    requires I.Inv(s) && AllAllowed(ops)
    ensures I.Inv(r)
    decreases |ops|
  {
    if ops == [] then s
    else
      DoKeeps(s, ops[0]);
      Run(Do(s, ops[0]), ops[1..])
  }

  // ---- The abstract account ----

  /** A callback that reaches the money. */
  predicate Effective(s: Store, id: string, c: Callback) {
    && !c.outcome.Unsupported? && id in s.payments && s.payments[id].status.Processing?
    && c.eventId !in SeenOf(s, id) && c.sequence > s.payments[id].lastCallback
  }

  /** The abstract action an operation amounts to. */
  function ActionOf(s: Store, op: MemoryOp): Option<H.Action> {
    match op
    case Reserve(id) =>
      if id in s.payments && s.payments[id].status.Processing? && id !in s.reservations
      then Some(H.Place(id, s.payments[id].accountId, s.payments[id].amount)) else None
    case Fail(id, _) =>
      if id in s.payments && !s.payments[id].status.Terminal() then Some(H.Release(id)) else None
    case Close(id) =>
      if id in s.payments && s.payments[id].status.Processing? then Some(H.Release(id)) else None
    case Deliver(id, c) =>
      if !Effective(s, id, c) then None
      else Some(if c.outcome.Succeeded? then H.Commit(id) else H.Release(id))
    case _ => None
  }

  /** The books are read off accounts, reservations and payments alone. */
  lemma BookAside(s: Store, s': Store)
    requires s'.accounts == s.accounts && s'.reservations == s.reservations && s'.payments == s.payments
    ensures I.BookOf(s') == I.BookOf(s)
  {
    assert I.Refused(s') == I.Refused(s);
  }

  lemma NoteBook(s: Store, id: string, kind: EventKind)
    ensures I.BookOf(Note(s, id, kind)) == I.BookOf(s)
  {
    hide LogOf, CountOf, I.BookOf;
    BookAside(s, Note(s, id, kind));
  }

  lemma CreateBook(s: Store, payment: Payment, key: string, fingerprint: string)
    requires I.Inv(s) && I.NewPayment(payment)
    ensures Indexed(s) && I.BookOf(CreatePayment(s, payment, key, fingerprint).store) == I.BookOf(s)
  {
    InvIndexed(s);
    hide I.Inv, LogOf, CountOf, I.Refused;
    if key !in s.idempotency && payment.id !in s.payments {
      I.RefusedSame(s, CreatePayment(s, payment, key, fingerprint).store, payment.id);
    }
  }

  lemma StartBook(s: Store, id: string)
    ensures I.BookOf(StartPayment(s, id).store) == I.BookOf(s)
  {
    hide LogOf, CountOf, I.Refused;
    if id in s.payments && s.payments[id].status.Init? {
      I.RefusedSame(s, StartPayment(s, id).store, id);
    }
  }

  lemma SettleBook(s: Store, id: string, payment: Payment)
    requires I.Inv(s) && id in s.payments
    requires !s.payments[id].status.Terminal() && payment.status in {Failed, PaymentStatus.Closed}
    requires payment.id == s.payments[id].id && payment.accountId == s.payments[id].accountId
    requires payment.amount == s.payments[id].amount
    ensures I.BookOf(SetStatus(Release(s, id), id, s.payments[id].status, payment)) == H.Act(I.BookOf(s), H.Release(id))
  {
    I.SettleKeeps(s, id, payment);
    hide I.PaymentsOk, I.AllCoupled, I.Money, I.LedgerOk, I.Logged, I.Keyed, I.Settled, I.BookOf, H.Act, Release,
      SetStatus;
    I.SettledMoney(s, id, payment, SetStatus(Release(s, id), id, s.payments[id].status, payment));
  }

  predicate CanReserve(s: Store, id: string) {
    && id in s.payments && s.payments[id].status.Processing? && id !in s.reservations
    && s.payments[id].accountId in s.accounts && s.accounts[s.payments[id].accountId].available >= s.payments[id].amount
  }

  lemma FreezeReserves(s: Store, id: string)
    requires CanReserve(s, id)
    ensures I.Reserved(s, id, Freeze(s, id).store)
  {
    hide LogOf, CountOf;
  }

  lemma ReserveBook(s: Store, id: string)
    requires I.Inv(s)
    ensures I.BookOf(Freeze(s, id).store) == Maybe(I.BookOf(s), ActionOf(s, Reserve(id)))
  {
    hide I.PaymentsOk, I.AllCoupled, I.Money, I.LedgerOk, I.Logged, I.Keyed, I.Reserved, I.Refused, LogOf, CountOf,
      Note, Holds;
    if CanReserve(s, id) {
      FreezeReserves(s, id);
      I.ReservedMoney(s, id, Freeze(s, id).store);
    } else {
      assert Freeze(s, id).store == s;
    }
  }

  lemma PayBook(s: Store, id: string, payment: Payment)
    requires I.Inv(s)
    requires id in s.payments && HoldsFunds(s, id) && s.payments[id].status.Processing? && payment.status.Success?
    requires payment.id == s.payments[id].id && payment.accountId == s.payments[id].accountId
    requires payment.amount == s.payments[id].amount
    ensures I.BookOf(I.Pay(s, id, payment)) == H.Act(I.BookOf(s), H.Commit(id))
  {
    I.PayKeeps(s, id, payment);
    hide I.PaymentsOk, I.AllCoupled, I.Money, I.LedgerOk, I.Logged, I.Keyed, I.Paid, I.Pay, I.BookOf, H.Act;
    I.PaidMoney(s, id, payment, I.Pay(s, id, payment));
  }

  lemma ApplyBook(s: Store, id: string, c: Callback)
    requires I.Inv(s) && id in s.payments && s.payments[id].status.Processing?
    ensures I.BookOf(Apply(s, id, c).store)
         == H.Act(I.BookOf(s), if c.outcome.Succeeded? then H.Commit(id) else H.Release(id))
  {
    hide I.Inv, SetStatus, Release, LogOf, CountOf;
    var noted := Note(s, id, CallbackAccepted);
    I.NoteKeeps(s, id, CallbackAccepted);
    NoteBook(s, id, CallbackAccepted);
    var p := s.payments[id].(lastCallback := c.sequence);
    if !c.outcome.Succeeded? {
      SettleBook(noted, id, p.(status := Failed, failureReason := if c.reason == "" then DECLINED else c.reason));
    } else if HoldsFunds(s, id) {
      PayBook(noted, id, p.(status := Success));
    }
  }

  lemma DeliverBook(s: Store, id: string, c: Callback)
    requires I.Inv(s)
    ensures I.BookOf(ProcessCallback(s, id, c).store) == Maybe(I.BookOf(s), ActionOf(s, Deliver(id, c)))
  {
    hide I.Inv, Apply, I.BookOf, H.Act, Append;
    if !c.outcome.Unsupported? && id in s.payments {
      var seen := See(s, id, c.eventId);
      BookAside(s, seen);
      NoteBook(s, id, CallbackDuplicate);
      NoteBook(seen, id, CallbackOutOfOrder);
      NoteBook(seen, id, CallbackTerminalIgnored);
      if Effective(s, id, c) {
        I.SeeKeeps(s, id, c.eventId);
        ApplyBook(seen, id, c);
      }
    }
  }

  lemma FailBook(s: Store, id: string, reason: string)
    requires I.Inv(s)
    ensures I.BookOf(FailAndRelease(s, id, reason).store) == Maybe(I.BookOf(s), ActionOf(s, Fail(id, reason)))
  {
    hide I.Inv, I.BookOf, H.Act, Release, SetStatus;
    if id in s.payments && !s.payments[id].status.Terminal() {
      SettleBook(s, id, s.payments[id].(status := Failed, failureReason := reason));
    }
  }

  lemma CloseBook(s: Store, id: string)
    requires I.Inv(s)
    ensures I.BookOf(ClosePayment(s, id).store) == Maybe(I.BookOf(s), ActionOf(s, Close(id)))
  {
    hide I.Inv, I.BookOf, H.Act, Release, SetStatus;
    if id in s.payments && s.payments[id].status.Processing? {
      SettleBook(s, id, s.payments[id].(status := PaymentStatus.Closed, failureReason := ""));
    }
  }

  /** One operation of the store, whatever it answers, is one action of the abstract account or none. */
  lemma OpSimulates(s: Store, op: MemoryOp)
    requires I.Inv(s) && Allowed(op) && !op.Reset?
    ensures Indexed(s) && I.BookOf(Do(s, op)) == Maybe(I.BookOf(s), ActionOf(s, op))
  {
    hide I.Inv, I.BookOf, H.Act, CreatePayment, StartPayment, Freeze, FailAndRelease, ClosePayment, ProcessCallback,
      Note;
    InvIndexed(s);
    match op
    case Create(payment, key, fingerprint) => CreateBook(s, payment, key, fingerprint);
    case Start(id) => StartBook(s, id);
    case Reserve(id) => ReserveBook(s, id);
    case Fail(id, reason) => FailBook(s, id, reason);
    case Close(id) => CloseBook(s, id);
    case Deliver(id, callback) => DeliverBook(s, id, callback);
    case Record(id, name) => NoteBook(s, id, Recorded(name));
    case Reset => {}
  }

  // ---- Theorems over every run ----

  /** The store after these operations on a new one. */
  function Reached(ops: seq<MemoryOp>): (s: Store)
    requires AllAllowed(ops)
    ensures I.Inv(s)
  {
    I.EmptyInv();
    Run(EmptyStore(), ops)
  }

  /**
   After any operations each account's frozen balance is the sum of its frozen reservations, what is available, frozen
   and debited in the ledger makes the opening balance, and both balances lie between zero and it.
   */
  lemma Conservation(ops: seq<MemoryOp>, account: string)
    requires AllAllowed(ops) && account in Reached(ops).accounts
    ensures var s := Reached(ops);
      var a := s.accounts[account];
      && a.frozen == H.Tied(Holds(s.reservations), account, H.Held)
      && a.available + a.frozen + I.Debited(s.ledger, account) == OPENING_BALANCE
      && 0 <= a.available <= OPENING_BALANCE && 0 <= a.frozen <= OPENING_BALANCE
  {
    var s := Reached(ops);
    hide E.Tells, H.Tied, I.Debited, Reached;
    var b := I.BookOf(s);
    assert account in b.balances && account in I.OPENINGS;
    assert H.Balanced(b, account, OPENING_BALANCE);
    H.Bounded(b, I.OPENINGS, account, "");
  }

  /** The reservation holds this payment's own money in this state. */
  predicate OwnReservation(s: Store, id: string, state: ReservationState) {
    id in s.payments && id in s.reservations
    && s.reservations[id] == Reservation(id, s.payments[id].accountId, s.payments[id].amount, state)
  }

  /**
   A payment succeeded exactly if its own reservation is confirmed, and exactly if the ledger debits it once, with its
   own account and amount; it is frozen only while processing; a failed or closed payment holds nothing.
   */
  lemma Coupling(ops: seq<MemoryOp>, id: string)
    requires AllAllowed(ops)
    ensures var s := Reached(ops);
      && (id !in s.payments ==> id !in s.reservations && I.Debits(s.ledger, id) == [])
      && (id in s.payments ==>
            var p := s.payments[id];
            && (p.status.Success? <==> OwnReservation(s, id, Confirmed))
            && (p.status.Success? <==> I.Debits(s.ledger, id) == [(p.accountId, p.amount)])
            && (!p.status.Success? <==> I.Debits(s.ledger, id) == [])
            && (HoldsFunds(s, id) ==> p.status.Processing? && OwnReservation(s, id, Frozen))
            && (p.status.Init? ==> id !in s.reservations)
            && (p.status in {Failed, PaymentStatus.Closed} && id in s.reservations ==>
                OwnReservation(s, id, Cancelled)))
  {
    var s := Reached(ops);
    hide E.Tells, H.Tied, I.Debited, I.Debits, H.Conserved, Reached;
    assert I.Entered(s, id);
    if id in s.payments {
      I.PaymentAt(s, id);
    }
  }

  /** Freezing a processing payment never meets a confirmed or cancelled reservation: those two branches are dead. */
  lemma FreezeFindsFrozen(ops: seq<MemoryOp>, id: string)
    requires AllAllowed(ops)
    ensures var s := Reached(ops);
      id in s.payments && s.payments[id].status.Processing? && id in s.reservations ==>
        s.reservations[id].state.Frozen? && Freeze(s, id) == Step(s, Ok(s.payments[id]))
  {
    Coupling(ops, id);
    hide I.Inv, Reached, I.Debits;
    var s := Reached(ops);
    if id in s.payments && id in s.reservations {
      CoupledNow(s, id);
    }
  }

  lemma CoupledNow(s: Store, id: string)
    requires I.Inv(s) && id in s.payments
    ensures I.PaymentOk(s, id) && I.Coupled(s, id)
  {
    hide I.Logged, I.LedgerOk, I.Money, I.Keyed;
    I.PaymentAt(s, id);
  }

  /**
   The history of a payment is numbered from 1 without gaps, chained, ends at its status, and its counter is its length.
   */
  lemma HistoryTells(ops: seq<MemoryOp>, id: string)
    requires AllAllowed(ops) && id in Reached(ops).payments
    ensures var s := Reached(ops);
      && id in s.events && E.Tells(s.events[id], s.payments[id].status)
      && id in s.eventSequences && s.eventSequences[id] == |s.events[id]|
  {
    var s := Reached(ops);
    hide I.PaymentsOk, I.AllCoupled, I.Money, I.LedgerOk, I.Keyed, E.Tells, Reached;
    I.LogAt(s, id);
  }

  /** A payment and its reservation are as they were. */
  predicate SameAt(s: Store, s': Store, id: string) {
    && (id in s'.payments <==> id in s.payments) && (id in s.payments ==> s'.payments[id] == s.payments[id])
    && (id in s'.reservations <==> id in s.reservations)
       && (id in s.reservations ==> s'.reservations[id] == s.reservations[id])
  }

  lemma AppendSame(s: Store, id: string, other: string, kind: EventKind, from: Option<PaymentStatus>,
                   to: Option<PaymentStatus>)
    ensures SameAt(s, Append(s, other, kind, from, to), id)
    ensures Append(s, other, kind, from, to).payments == s.payments
  {
    hide LogOf, CountOf;
  }

  lemma StatusSame(s: Store, id: string, other: string, from: PaymentStatus, payment: Payment)
    requires other != id
    ensures SameAt(s, SetStatus(s, other, from, payment), id)
  {
    hide Append;
    AppendSame(s.(payments := s.payments[other := payment]), id, other, StatusChanged, Some(from),
               Some(payment.status));
  }

  lemma ReleaseSame(s: Store, id: string, other: string)
    requires other != id
    ensures SameAt(s, Release(s, other), id)
  {
    hide Append;
    if HoldsFunds(s, other) {
      var r := s.reservations[other];
      AppendSame(Shift(s, AccountOf(s, r.accountId), r.amount, -r.amount)
                 .(reservations := s.reservations[other := r.(state := Cancelled)]),
                 id, other, FundsReleased, None, None);
    }
  }

  lemma CommitSame(s: Store, id: string, other: string)
    requires other != id && other in s.payments && HoldsFunds(s, other)
    ensures SameAt(s, Note(CommitFunds(s, other), other, FundsConfirmed), id)
  {
    hide Append;
    AppendSame(CommitFunds(s, other), id, other, FundsConfirmed, None, None);
  }

  lemma FreezeSame(s: Store, id: string, other: string)
    requires other != id
    ensures SameAt(s, Freeze(s, other).store, id)
  {
    hide LogOf, CountOf;
  }

  lemma SettleSame(s: Store, id: string, other: string, from: PaymentStatus, payment: Payment)
    requires other != id
    ensures SameAt(s, SetStatus(Release(s, other), other, from, payment), id)
  {
    hide Release, SetStatus;
    ReleaseSame(s, id, other);
    StatusSame(Release(s, other), id, other, from, payment);
  }

  lemma ApplySame(s: Store, other: string, c: Callback, id: string)
    requires other != id && other in s.payments
    ensures SameAt(s, Apply(s, other, c).store, id)
  {
    hide Append, Release, SetStatus, CommitFunds;
    var noted := Note(s, other, CallbackAccepted);
    AppendSame(s, id, other, CallbackAccepted, None, None);
    AppendSame(s, other, other, CallbackAccepted, None, None);
    var p := s.payments[other].(lastCallback := c.sequence);
    if !c.outcome.Succeeded? {
      SettleSame(noted, id, other, p.status, p.(status := Failed,
                                                failureReason := if c.reason == "" then DECLINED else c.reason));
    } else if HoldsFunds(s, other) {
      CommitSame(noted, id, other);
      StatusSame(Note(CommitFunds(noted, other), other, FundsConfirmed), id, other, p.status, p.(status := Success));
    }
  }

  /** Whatever callback arrives for whichever payment, a terminal payment and its reservation stay. */
  lemma DeliverSame(s: Store, other: string, c: Callback, id: string)
    requires id in s.payments && s.payments[id].status.Terminal()
    ensures SameAt(s, ProcessCallback(s, other, c).store, id)
  {
    hide Append, Apply;
    var seen := See(s, other, c.eventId);
    AppendSame(s, id, other, CallbackDuplicate, None, None);
    AppendSame(seen, id, other, CallbackOutOfOrder, None, None);
    AppendSame(seen, id, other, CallbackTerminalIgnored, None, None);
    if other in s.payments && other != id {
      ApplySame(seen, other, c, id);
    }
  }

  lemma TerminalStep(s: Store, op: MemoryOp, id: string)
    requires Indexed(s) && !op.Reset?
    requires id in s.payments && s.payments[id].status.Terminal()
    ensures SameAt(s, Do(s, op), id)
  {
    hide LogOf, CountOf, Release, SetStatus, ProcessCallback;
    match op
    case Deliver(other, c) => DeliverSame(s, other, c, id);
    case Start(other) =>
      if other != id && other in s.payments {
        StatusSame(s, id, other, Init, s.payments[other].(status := Processing));
      }
    case Reserve(other) => if other != id { FreezeSame(s, id, other); }
    case Fail(other, reason) =>
      if other != id && other in s.payments {
        SettleSame(s, id, other, s.payments[other].status,
                   s.payments[other].(status := Failed, failureReason := reason));
      }
    case Close(other) =>
      if other != id && other in s.payments {
        SettleSame(s, id, other, s.payments[other].status,
                   s.payments[other].(status := PaymentStatus.Closed, failureReason := ""));
      }
    case _ => {}
  }

  /** Until a reset, nothing that happens changes a terminal payment, its reservation or its ledger entry. */
  lemma {:induction false} TerminalIsFinal(s: Store, ops: seq<MemoryOp>, id: string)
    requires I.Inv(s) && AllAllowed(ops) && (forall i :: 0 <= i < |ops| ==> !ops[i].Reset?)
    requires id in s.payments && s.payments[id].status.Terminal()
    ensures var r := Run(s, ops);
      && id in r.payments && r.payments[id] == s.payments[id]
      && (id in r.reservations <==> id in s.reservations)
      && (id in s.reservations ==> r.reservations[id] == s.reservations[id])
      && I.Debits(r.ledger, id) == I.Debits(s.ledger, id)
    decreases |ops|
  {
    hide I.Inv, Do, I.Debits;
    if ops != [] {
      CoupledNow(s, id);
      DoKeeps(s, ops[0]);
      TerminalStep(s, ops[0], id);
      EntryKept(s, Do(s, ops[0]), id);
      TerminalIsFinal(Do(s, ops[0]), ops[1..], id);
    }
  }

  lemma EntryKept(s: Store, s': Store, id: string)
    requires I.Inv(s) && I.Inv(s')
    requires id in s.payments && id in s'.payments && s'.payments[id] == s.payments[id]
    ensures I.Debits(s'.ledger, id) == I.Debits(s.ledger, id)
  {
    hide I.Logged, I.Money, I.Keyed, I.PaymentsOk, I.AllCoupled, I.Debits, I.Debited;
    assert I.Entered(s, id) && I.Entered(s', id);
  }
}

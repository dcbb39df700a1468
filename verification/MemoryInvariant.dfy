/** The representation invariant of the memory store and why every operation keeps it. */
module MemoryInvariant {
  import opened Domain
  import opened EventLog
  import opened MemoryRules
  import opened AccountBook
  import H = HoldAccount

  /** A payment as the service hands it over. */
  predicate NewPayment(p: Payment) {
    p.status.Init? && p.amount > 0 && p.lastCallback == 0
  }

  /** A payment that is not terminal has never had a callback applied. */
  ghost predicate PaymentOk(s: Store, id: string)
    requires id in s.payments
  {
    var p := s.payments[id];
    p.id == id && p.amount > 0 && (!p.status.Terminal() ==> p.lastCallback == 0)
  }

  /** The reservation a payment of this status may have: its own account and amount, and a state the status allows. */
  ghost predicate Coupled(s: Store, id: string)
    requires id in s.payments
  {
    var p := s.payments[id];
    && (id in s.reservations ==>
          var r := s.reservations[id];
          r.paymentId == id && r.accountId == p.accountId && r.amount == p.amount && r.accountId in s.accounts)
    && match p.status
       case Init => id !in s.reservations
       case Processing => id in s.reservations ==> s.reservations[id].state.Frozen?
       case Success => id in s.reservations && s.reservations[id].state.Confirmed?
       case _ => id in s.reservations ==> s.reservations[id].state.Cancelled?
  }

  ghost predicate LogOk(s: Store, id: string)
    requires id in s.payments
  {
    && id in s.events && Tells(s.events[id], s.payments[id].status)
    && id in s.eventSequences && s.eventSequences[id] == |s.events[id]|
  }

  ghost predicate PaymentsOk(s: Store) {
    && (forall id :: id in s.payments ==> PaymentOk(s, id))
    && (forall id :: id in s.reservations ==> id in s.payments)
    && s.callbacksSeen.Keys <= s.payments.Keys
  }

  ghost predicate AllCoupled(s: Store) {
    forall id :: id in s.payments ==> Coupled(s, id)
  }

  ghost predicate Logged(s: Store) {
    && s.events.Keys == s.payments.Keys && s.eventSequences.Keys == s.payments.Keys
    && (forall id :: id in s.payments ==> LogOk(s, id))
  }

  /** One key per payment. */
  ghost predicate Keyed(s: Store) {
    && Indexed(s)
    && (forall j, k | j in s.idempotency && k in s.idempotency ::
        s.idempotency[j].paymentId == s.idempotency[k].paymentId ==> j == k)
  }

  /** The ledger's debits for one payment, in order. */
  function Debits(ledger: seq<LedgerEntry>, id: string): seq<(string, int)> {
    if ledger == [] then []
    else
      var last := ledger[|ledger| - 1];
      Debits(ledger[..|ledger| - 1], id) + if last.paymentId == id then [(last.accountId, last.amount)] else []
  }

  /** The money the ledger debits from one account. */
  function Debited(ledger: seq<LedgerEntry>, account: string): int {
    if ledger == [] then 0
    else
      var last := ledger[|ledger| - 1];
      Debited(ledger[..|ledger| - 1], account) + if last.accountId == account then last.amount else 0
  }

  /** A successful payment has exactly one ledger entry, for its own account and amount; any other id has none. */
  ghost predicate Entered(s: Store, id: string) {
    Debits(s.ledger, id)
    == if id in s.payments && s.payments[id].status.Success? then [(s.payments[id].accountId, s.payments[id].amount)]
        else []
  }

  ghost predicate LedgerOk(s: Store) {
    && s.ledgerSequence == |s.ledger|
    && (forall i :: 0 <= i < |s.ledger| ==> s.ledger[i].number == i + 1)
    && (forall id :: Entered(s, id))
    && (forall a :: Debited(s.ledger, a) == H.Tied(Holds(s.reservations), a, H.Committed))
  }

  /** Terminal payments without a reservation: nothing will ever be held for them. */
  function Refused(s: Store): set<string> {
    set id | id in s.payments && s.payments[id].status.Terminal() && id !in s.reservations
  }

  function BookOf(s: Store): H.Book {
    H.Book(Balances(s.accounts), Holds(s.reservations), Refused(s))
  }

  const OPENINGS: map<string, int> := map[DEMO_USER := OPENING_BALANCE]

  ghost predicate Money(s: Store) {
    && (forall a :: a in s.accounts ==> s.accounts[a].id == a)
    && H.Conserved(BookOf(s), OPENINGS)
  }

  ghost predicate Inv(s: Store) {
    PaymentsOk(s) && AllCoupled(s) && Logged(s) && Keyed(s) && LedgerOk(s) && Money(s)
  }

  lemma EmptyInv()
    ensures Inv(EmptyStore())
  {
    var s := EmptyStore();
    var b := BookOf(s);
    assert b.holds == map[] && b.balances.Keys == {DEMO_USER};
    assert H.Balanced(b, DEMO_USER, OPENING_BALANCE);
    assert forall a :: a in b.balances ==> a == DEMO_USER;
  }

  // ---- Logs ----

  /** Writing one payment and its log keeps every other log telling its own payment's status. */
  lemma WriteLogged(s: Store, after: Store, id: string)
    requires Logged(s)
    requires id in after.payments && after.payments == s.payments[id := after.payments[id]]
    requires id in after.events && after.events == s.events[id := after.events[id]]
    requires id in after.eventSequences && after.eventSequences == s.eventSequences[id := after.eventSequences[id]]
    requires LogOk(after, id)
    ensures Logged(after)
  {
    hide Tells;
    forall x | x in after.payments
      ensures LogOk(after, x)
    {
      if x != id {
        assert LogOk(s, x);
      }
    }
  }

  lemma LogAt(s: Store, id: string)
    requires Logged(s) && id in s.payments
    ensures LogOk(s, id)
  {
    hide Tells;
  }

  /** An event that matches the change of the stored status keeps every log telling its payment's status. */
  lemma LoggedAppend(s: Store, changed: Store, id: string, kind: EventKind, from: Option<PaymentStatus>,
                     to: Option<PaymentStatus>)
    requires Logged(s) && id in s.payments && id in changed.payments
    requires changed.payments == s.payments[id := changed.payments[id]]
    requires changed.events == s.events && changed.eventSequences == s.eventSequences
    requires var was, now := s.payments[id].status, changed.payments[id].status;
      if to.Some? then from == Some(was) && to == Some(now) else from == None && now == was
    ensures Logged(Append(changed, id, kind, from, to))
  {
    hide Tells, Logged;
    LogAt(s, id);
    TellsAppend(s.events[id], s.payments[id].status, PaymentEvent(|s.events[id]| + 1, kind, from, to));
    WriteLogged(s, Append(changed, id, kind, from, to), id);
  }

  lemma LoggedNote(s: Store, id: string, kind: EventKind)
    requires Logged(s) && id in s.payments
    ensures Logged(Note(s, id, kind))
  {
    hide Logged;
    assert s.payments == s.payments[id := s.payments[id]];
    LoggedAppend(s, s, id, kind, None, None);
  }

  lemma LoggedMove(s: Store, id: string, payment: Payment)
    requires Logged(s) && id in s.payments
    ensures Logged(SetStatus(s, id, s.payments[id].status, payment))
  {
    hide Logged, Append;
    LoggedAppend(s, s.(payments := s.payments[id := payment]), id, StatusChanged, Some(s.payments[id].status),
                 Some(payment.status));
  }

  /** Logs do not depend on the money. */
  lemma LoggedElsewhere(s: Store, s': Store)
    requires Logged(s) && s'.payments == s.payments && s'.events == s.events && s'.eventSequences == s.eventSequences
    ensures Logged(s')
  {
    forall id | id in s'.payments
      ensures LogOk(s', id)
    {
      assert LogOk(s, id);
    }
  }

  // ---- Operations that move no money ----

  /** The parts of the invariant other than the logs do not read them. */
  lemma LogsAside(s: Store, s': Store)
    requires PaymentsOk(s) && AllCoupled(s) && Keyed(s) && LedgerOk(s) && Money(s)
    requires s' == s.(events := s'.events, eventSequences := s'.eventSequences)
    ensures PaymentsOk(s') && AllCoupled(s') && Keyed(s') && LedgerOk(s') && Money(s')
  {
    PaymentsAside(s, s');
    LedgerAside(s, s');
    hide PaymentsOk, AllCoupled, LedgerOk, H.Conserved;
    assert Refused(s') == Refused(s);
  }

  lemma PaymentsAside(s: Store, s': Store)
    requires PaymentsOk(s) && AllCoupled(s)
    requires s'.payments == s.payments && s'.reservations == s.reservations && s'.accounts == s.accounts
    requires s'.callbacksSeen.Keys <= s'.payments.Keys
    ensures PaymentsOk(s') && AllCoupled(s')
  {
    forall id | id in s'.payments
      ensures PaymentOk(s', id) && Coupled(s', id)
    {
      assert PaymentOk(s, id) && Coupled(s, id);
    }
  }

  lemma LedgerAside(s: Store, s': Store)
    requires LedgerOk(s)
    requires s'.payments == s.payments && s'.reservations == s.reservations
    requires s'.ledger == s.ledger && s'.ledgerSequence == s.ledgerSequence
    ensures LedgerOk(s')
  {
    hide Debits, Debited, H.Tied;
    forall id
      ensures Entered(s', id)
    {
      assert Entered(s, id);
    }
  }

  lemma NoteKeeps(s: Store, id: string, kind: EventKind)
    requires Inv(s) && id in s.payments
    ensures Inv(Note(s, id, kind))
  {
    hide PaymentsOk, AllCoupled, Logged, Keyed, LedgerOk, Money, LogOf, CountOf;
    LoggedNote(s, id, kind);
    LogsAside(s, Note(s, id, kind));
  }

  lemma SeeKeeps(s: Store, id: string, eventId: string)
    requires Inv(s) && id in s.payments
    ensures Inv(See(s, id, eventId))
  {
    hide PaymentsOk, AllCoupled, Logged, LedgerOk, H.Conserved;
    var s' := See(s, id, eventId);
    SeenKnown(s, id);
    PaymentsAside(s, s');
    LoggedElsewhere(s, s');
    LedgerAside(s, s');
    assert Refused(s') == Refused(s);
  }

  lemma SeenKnown(s: Store, id: string)
    requires PaymentsOk(s) && id in s.payments
    ensures s.callbacksSeen.Keys + {id} <= s.payments.Keys
  {
    hide PaymentOk;
  }

  /** What the invariant says of one payment. */
  lemma PaymentAt(s: Store, id: string)
    requires PaymentsOk(s) && AllCoupled(s) && id in s.payments
    ensures PaymentOk(s, id) && Coupled(s, id)
  {
  }

  lemma UnknownHoldsNothing(s: Store, id: string)
    requires PaymentsOk(s) && id !in s.payments
    ensures id !in s.reservations && id !in s.callbacksSeen
  {
    hide PaymentOk;
  }

  // ---- Creation and start ----

  lemma {:induction false} OneMoreEntry(ledger: seq<LedgerEntry>, e: LedgerEntry, id: string, account: string)
    ensures Debits(ledger + [e], id) == Debits(ledger, id) + if e.paymentId == id then [(e.accountId, e.amount)] else []
    ensures Debited(ledger + [e], account) == Debited(ledger, account) + if e.accountId == account then e.amount else 0
  {
    assert (ledger + [e])[..|ledger|] == ledger;
  }

  /** Rewriting a payment that was not and is not successful leaves the ledger right. */
  lemma LedgerRewrite(s: Store, s': Store, id: string)
    requires LedgerOk(s)
    requires id in s'.payments && s'.payments == s.payments[id := s'.payments[id]]
    requires !(id in s.payments && s.payments[id].status.Success?) && !s'.payments[id].status.Success?
    requires s'.ledger == s.ledger && s'.ledgerSequence == s.ledgerSequence
    requires forall a :: H.Tied(Holds(s'.reservations), a, H.Committed) == H.Tied(Holds(s.reservations), a, H.Committed)
    ensures LedgerOk(s')
  {
    hide Debits, Debited, H.Tied, Holds;
    forall x
      ensures Entered(s', x)
    {
      assert Entered(s, x);
    }
  }

  /** Rewriting one payment and its reservation in step keeps all payments coupled. */
  lemma RewriteCoupled(s: Store, s': Store, id: string)
    requires PaymentsOk(s) && AllCoupled(s)
    requires id in s'.payments && s'.payments == s.payments[id := s'.payments[id]]
    requires forall x :: x != id ==> (x in s'.reservations <==> x in s.reservations)
                                     && (x in s.reservations ==> s'.reservations[x] == s.reservations[x])
    requires s.accounts.Keys <= s'.accounts.Keys && s.callbacksSeen.Keys == s'.callbacksSeen.Keys
    requires PaymentOk(s', id) && Coupled(s', id)
    ensures PaymentsOk(s') && AllCoupled(s')
  {
    forall x | x in s'.payments
      ensures PaymentOk(s', x) && Coupled(s', x)
    {
      if x != id {
        assert PaymentOk(s, x) && Coupled(s, x);
      }
    }
  }

  /** No payment, or a payment that was not terminal, becoming one that is not: nothing new is refused. */
  lemma RefusedSame(s: Store, s': Store, id: string)
    requires id in s'.payments && s'.payments == s.payments[id := s'.payments[id]]
    requires id in s.payments ==> !s.payments[id].status.Terminal()
    requires !s'.payments[id].status.Terminal()
    requires forall x :: x != id ==> (x in s'.reservations <==> x in s.reservations)
    ensures Refused(s') == Refused(s)
  {
  }

  lemma CreateKeeps(s: Store, payment: Payment, key: string, fingerprint: string)
    requires Inv(s)
    ensures Indexed(s)
    ensures NewPayment(payment) ==> Inv(CreatePayment(s, payment, key, fingerprint).store)
  {
    hide PaymentsOk, AllCoupled, Logged, H.Conserved, LedgerOk;
    if NewPayment(payment) && key !in s.idempotency && payment.id !in s.payments {
      var s' := CreatePayment(s, payment, key, fingerprint).store;
      FreshLog(s, payment.id);
      CreateLogged(s, payment, s');
      CreateKeyed(s, payment, key, fingerprint, s');
      hide Keyed;
      CreateCoupled(s, payment, s');
      LedgerRewrite(s, s', payment.id);
      RefusedSame(s, s', payment.id);
    }
  }

  lemma FreshLog(s: Store, id: string)
    requires Logged(s) && id !in s.payments
    ensures LogOf(s, id) == [] && CountOf(s, id) == 0
  {
    hide LogOk;
  }

  /** What creation changes, apart from logs and keys. */
  ghost predicate Added(s: Store, payment: Payment, s': Store) {
    && payment.id !in s.payments && NewPayment(payment)
    && s'.payments == s.payments[payment.id := payment]
    && s'.reservations == s.reservations && s'.accounts == s.accounts && s'.callbacksSeen == s.callbacksSeen
  }

  lemma CreateCoupled(s: Store, payment: Payment, s': Store)
    requires PaymentsOk(s) && AllCoupled(s) && Added(s, payment, s')
    ensures PaymentsOk(s') && AllCoupled(s')
  {
    RewriteCoupled(s, s', payment.id);
  }

  lemma RecordKnown(s: Store, key: string)
    requires Inv(s)
    ensures Indexed(s)
    ensures key in s.idempotency ==> s.idempotency[key].paymentId in s.payments
  {
    hide PaymentsOk, AllCoupled, LedgerOk, Money, Logged;
  }

  lemma CreateLogged(s: Store, payment: Payment, s': Store)
    requires Logged(s) && payment.id !in s.payments && payment.status.Init?
    requires s'.payments == s.payments[payment.id := payment]
    requires s'.events == s.events[payment.id := [] + [PaymentEvent(1, PaymentCreated, None, Some(Init))]]
    requires s'.eventSequences == s.eventSequences[payment.id := 1]
    ensures Logged(s')
  {
    hide Logged, Tells;
    var e := PaymentEvent(1, PaymentCreated, None, Some(Init));
    TellsFirst(e);
    assert [] + [e] == [e];
    WriteLogged(s, s', payment.id);
  }

  lemma CreateKeyed(s: Store, payment: Payment, key: string, fingerprint: string, s': Store)
    requires Keyed(s) && payment.id !in s.payments && key !in s.idempotency
    requires s'.payments == s.payments[payment.id := payment]
    requires s'.idempotency == s.idempotency[key := IdempotencyRecord(payment.id, fingerprint)]
    ensures Keyed(s')
  {
  }

  lemma StartKeeps(s: Store, id: string)
    requires Inv(s)
    ensures Inv(StartPayment(s, id).store)
  {
    hide PaymentsOk, AllCoupled, Logged, LogOf, CountOf, H.Conserved, LedgerOk;
    if id in s.payments && s.payments[id].status.Init? {
      var s' := StartPayment(s, id).store;
      PaymentAt(s, id);
      LoggedMove(s, id, s.payments[id].(status := Processing));
      RewriteCoupled(s, s', id);
      LedgerRewrite(s, s', id);
      RefusedSame(s, s', id);
    }
  }

  lemma RecordKeeps(s: Store, id: string, name: string)
    requires Inv(s)
    ensures Inv(RecordEvent(s, id, name).store)
  {
    hide Inv;
    if id in s.payments {
      NoteKeeps(s, id, Recorded(name));
    }
  }

  // ---- Operations that move money ----

  /** What settling a payment does to the reservation, the account and the payment; logs aside. */
  ghost predicate Settled(s: Store, id: string, payment: Payment, s': Store)
    requires id in s.payments
  {
    && !s.payments[id].status.Terminal() && payment.status in {Failed, Closed}
    && payment.id == s.payments[id].id && payment.accountId == s.payments[id].accountId
       && payment.amount == s.payments[id].amount
    && s'.payments == s.payments[id := payment]
    && s'.callbacksSeen == s.callbacksSeen && s'.idempotency == s.idempotency
    && s'.ledger == s.ledger && s'.ledgerSequence == s.ledgerSequence
    && if HoldsFunds(s, id)
       then
         var r := s.reservations[id];
         && s'.reservations == s.reservations[id := r.(state := Cancelled)]
         && s'.accounts == Shift(s, AccountOf(s, r.accountId), r.amount, -r.amount).accounts
       else s'.reservations == s.reservations && s'.accounts == s.accounts
  }

  lemma AccountAt(s: Store, id: string)
    requires Money(s) && PaymentsOk(s) && AllCoupled(s) && id in s.reservations
    ensures id in s.payments && s.reservations[id].accountId in s.accounts
    ensures AccountOf(s, s.reservations[id].accountId).id == s.reservations[id].accountId
    ensures s.reservations[id].accountId == s.payments[id].accountId
    ensures s.reservations[id].amount == s.payments[id].amount
  {
    hide H.Conserved;
    assert Coupled(s, id);
  }

  /** Refusal after a payment became terminal. */
  lemma RefusedSettled(s: Store, id: string, payment: Payment, s': Store)
    requires id in s.payments && Settled(s, id, payment, s')
    ensures Refused(s') == Refused(s) + if id in s.reservations then {} else {id}
  {
  }

  lemma SettledMoney(s: Store, id: string, payment: Payment, s': Store)
    requires PaymentsOk(s) && AllCoupled(s) && Money(s)
    requires id in s.payments && Settled(s, id, payment, s')
    ensures BookOf(s') == H.Act(BookOf(s), H.Release(id)) && Money(s')
  {
    hide PaymentsOk, AllCoupled, H.Conserved, Refused;
    RefusedSettled(s, id, payment, s');
    if HoldsFunds(s, id) {
      AccountAt(s, id);
      var r := s.reservations[id];
      var a := s.accounts[r.accountId];
      HoldsUpdate(s.reservations, id, r.(state := Cancelled));
      BalancesUpdate(s.accounts, a.id, a.(available := a.available + r.amount, frozen := a.frozen - r.amount));
    } else {
      PaymentAt(s, id);
    }
    H.ActConserves(BookOf(s), H.Release(id), OPENINGS);
  }

  lemma CommittedSame(reservations: map<string, Reservation>, id: string, row: Reservation, account: string)
    requires !row.state.Confirmed? && (id in reservations ==> !reservations[id].state.Confirmed?)
    ensures H.Tied(Holds(reservations[id := row]), account, H.Committed)
        == H.Tied(Holds(reservations), account, H.Committed)
  {
    HoldsUpdate(reservations, id, row);
    H.TiedUpdate(Holds(reservations), id, HoldOf(row), account, H.Committed);
  }

  lemma SettledKeeps(s: Store, id: string, payment: Payment, s': Store)
    requires PaymentsOk(s) && AllCoupled(s) && LedgerOk(s) && Money(s) && Keyed(s)
    requires id in s.payments && Settled(s, id, payment, s')
    ensures PaymentsOk(s') && AllCoupled(s') && LedgerOk(s') && Money(s') && Keyed(s')
  {
    hide PaymentsOk, AllCoupled, LedgerOk, Money, H.Tied, Holds;
    SettledMoney(s, id, payment, s');
    PaymentAt(s, id);
    if HoldsFunds(s, id) {
      AccountAt(s, id);
      forall a
        ensures H.Tied(Holds(s'.reservations), a, H.Committed) == H.Tied(Holds(s.reservations), a, H.Committed)
      {
        CommittedSame(s.reservations, id, s.reservations[id].(state := Cancelled), a);
      }
    }
    RewriteCoupled(s, s', id);
    LedgerRewrite(s, s', id);
  }

  /** Release and the new status together are one settlement. */
  lemma ReleaseSettles(s: Store, id: string, payment: Payment)
    requires id in s.payments
    requires !s.payments[id].status.Terminal() && payment.status in {Failed, Closed}
    requires payment.id == s.payments[id].id && payment.accountId == s.payments[id].accountId
    requires payment.amount == s.payments[id].amount
    ensures Settled(s, id, payment, SetStatus(Release(s, id), id, s.payments[id].status, payment))
  {
    hide LogOf, CountOf;
  }

  lemma ReleaseLogged(s: Store, id: string)
    requires Logged(s) && id in s.payments
    ensures Logged(Release(s, id)) && Release(s, id).payments == s.payments
  {
    hide Logged, LogOf, CountOf;
    if HoldsFunds(s, id) {
      var r := s.reservations[id];
      var moved := Shift(s, AccountOf(s, r.accountId), r.amount, -r.amount)
                   .(reservations := s.reservations[id := r.(state := Cancelled)]);
      LoggedElsewhere(s, moved);
      LoggedNote(moved, id, FundsReleased);
    }
  }

  lemma SettleKeeps(s: Store, id: string, payment: Payment)
    requires Inv(s) && id in s.payments
    requires !s.payments[id].status.Terminal() && payment.status in {Failed, Closed}
    requires payment.id == s.payments[id].id && payment.accountId == s.payments[id].accountId
    requires payment.amount == s.payments[id].amount
    ensures Inv(SetStatus(Release(s, id), id, s.payments[id].status, payment))
    ensures Settled(s, id, payment, SetStatus(Release(s, id), id, s.payments[id].status, payment))
  {
    hide PaymentsOk, AllCoupled, LedgerOk, Money, Keyed, Logged, Settled, Release, SetStatus;
    ReleaseSettles(s, id, payment);
    ReleaseLogged(s, id);
    LoggedMove(Release(s, id), id, payment);
    SettledKeeps(s, id, payment, SetStatus(Release(s, id), id, s.payments[id].status, payment));
  }

  lemma FailKeeps(s: Store, id: string, reason: string)
    requires Inv(s)
    ensures Inv(FailAndRelease(s, id, reason).store)
  {
    hide Inv, Release, SetStatus;
    if id in s.payments && !s.payments[id].status.Terminal() {
      SettleKeeps(s, id, s.payments[id].(status := Failed, failureReason := reason));
    }
  }

  lemma CloseKeeps(s: Store, id: string)
    requires Inv(s)
    ensures Inv(ClosePayment(s, id).store)
  {
    hide Inv, Release, SetStatus;
    if id in s.payments && s.payments[id].status.Processing? {
      SettleKeeps(s, id, s.payments[id].(status := Closed, failureReason := ""));
    }
  }

  /** What a first freeze does to the reservation and the account; logs aside. */
  ghost predicate Reserved(s: Store, id: string, s': Store)
    requires id in s.payments
  {
    var p := s.payments[id];
    && p.status.Processing? && id !in s.reservations
    && p.accountId in s.accounts && s.accounts[p.accountId].available >= p.amount
    && s'.payments == s.payments && s'.callbacksSeen == s.callbacksSeen && s'.idempotency == s.idempotency
    && s'.ledger == s.ledger && s'.ledgerSequence == s.ledgerSequence
    && s'.reservations == s.reservations[id := Reservation(id, s.accounts[p.accountId].id, p.amount, Frozen)]
    && s'.accounts == Shift(s, s.accounts[p.accountId], -p.amount, p.amount).accounts
  }

  lemma RefusedReserved(s: Store, id: string, s': Store)
    requires id in s.payments && Reserved(s, id, s')
    ensures Refused(s') == Refused(s) && id !in Refused(s)
  {
  }

  lemma AccountNamed(s: Store, a: string)
    requires Money(s) && a in s.accounts
    ensures s.accounts[a].id == a
  {
    hide H.Conserved;
  }

  lemma ReservedMoney(s: Store, id: string, s': Store)
    requires PaymentsOk(s) && AllCoupled(s) && Money(s)
    requires id in s.payments && Reserved(s, id, s')
    ensures var p := s.payments[id];
      BookOf(s') == H.Act(BookOf(s), H.Place(id, p.accountId, p.amount))
          && H.MayPlace(BookOf(s), id, p.accountId, p.amount)
    ensures Money(s')
  {
    hide PaymentsOk, AllCoupled, H.Conserved, Refused;
    PaymentAt(s, id);
    RefusedReserved(s, id, s');
    var p := s.payments[id];
    var a := s.accounts[p.accountId];
    AccountNamed(s, p.accountId);
    HoldsUpdate(s.reservations, id, Reservation(id, a.id, p.amount, Frozen));
    BalancesUpdate(s.accounts, a.id, a.(available := a.available - p.amount, frozen := a.frozen + p.amount));
    H.ActConserves(BookOf(s), H.Place(id, p.accountId, p.amount), OPENINGS);
  }

  lemma ReservedKeeps(s: Store, id: string, s': Store)
    requires PaymentsOk(s) && AllCoupled(s) && LedgerOk(s) && Money(s) && Keyed(s)
    requires id in s.payments && Reserved(s, id, s')
    ensures PaymentsOk(s') && AllCoupled(s') && LedgerOk(s') && Money(s') && Keyed(s')
  {
    hide PaymentsOk, AllCoupled, LedgerOk, Money, H.Tied, Holds;
    ReservedMoney(s, id, s');
    PaymentAt(s, id);
    AccountNamed(s, s.payments[id].accountId);
    forall a
      ensures H.Tied(Holds(s'.reservations), a, H.Committed) == H.Tied(Holds(s.reservations), a, H.Committed)
    {
      CommittedSame(s.reservations, id, s'.reservations[id], a);
    }
    RewriteCoupled(s, s', id);
    LedgerRewrite(s, s', id);
  }

  lemma FreezeKeeps(s: Store, id: string)
    requires Inv(s)
    ensures Inv(Freeze(s, id).store)
    ensures Freeze(s, id).store != s ==> id in s.payments && Reserved(s, id, Freeze(s, id).store)
  {
    hide PaymentsOk, AllCoupled, LedgerOk, Money, Keyed, Logged, LogOf, CountOf;
    if id in s.payments && s.payments[id].status.Processing? && id !in s.reservations
        && s.payments[id].accountId in s.accounts
       && s.accounts[s.payments[id].accountId].available >= s.payments[id].amount {
      var p := s.payments[id];
      var a := s.accounts[p.accountId];
      var moved := Shift(s, a, -p.amount, p.amount)
                   .(reservations := s.reservations[id := Reservation(id, a.id, p.amount, Frozen)]);
      LoggedElsewhere(s, moved);
      LoggedNote(moved, id, FundsFrozen);
      ReservedKeeps(s, id, Freeze(s, id).store);
    }
  }

  /** What a success callback does to the reservation, the account, the ledger and the payment; logs aside. */
  ghost predicate Paid(s: Store, id: string, payment: Payment, s': Store)
    requires id in s.payments
  {
    && s.payments[id].status.Processing? && HoldsFunds(s, id) && payment.status.Success?
    && payment.id == s.payments[id].id && payment.accountId == s.payments[id].accountId
       && payment.amount == s.payments[id].amount
    && s'.payments == s.payments[id := payment]
    && s'.callbacksSeen == s.callbacksSeen && s'.idempotency == s.idempotency
    && var r := s.reservations[id];
    && s'.reservations == s.reservations[id := r.(state := Confirmed)]
    && s'.accounts == Shift(s, AccountOf(s, r.accountId), 0, -r.amount).accounts
    && s'.ledgerSequence == s.ledgerSequence + 1
    && s'.ledger == s.ledger + [LedgerEntry(s.ledgerSequence + 1, id, payment.accountId, payment.amount)]
  }

  lemma RefusedPaid(s: Store, id: string, payment: Payment, s': Store)
    requires id in s.payments && Paid(s, id, payment, s')
    ensures Refused(s') == Refused(s)
  {
  }

  lemma PaidMoney(s: Store, id: string, payment: Payment, s': Store)
    requires PaymentsOk(s) && AllCoupled(s) && Money(s)
    requires id in s.payments && Paid(s, id, payment, s')
    ensures BookOf(s') == H.Act(BookOf(s), H.Commit(id)) && Money(s')
  {
    hide PaymentsOk, AllCoupled, H.Conserved, Refused;
    RefusedPaid(s, id, payment, s');
    AccountAt(s, id);
    var r := s.reservations[id];
    var a := s.accounts[r.accountId];
    HoldsUpdate(s.reservations, id, r.(state := Confirmed));
    BalancesUpdate(s.accounts, a.id, a.(frozen := a.frozen - r.amount));
    H.ActConserves(BookOf(s), H.Commit(id), OPENINGS);
  }

  lemma PaidLedger(s: Store, id: string, payment: Payment, s': Store)
    requires LedgerOk(s) && id in s.payments && Paid(s, id, payment, s')
    requires s.reservations[id].accountId == payment.accountId && s.reservations[id].amount == payment.amount
    ensures LedgerOk(s')
  {
    hide Debits, Debited, H.Tied, Holds, Shift;
    var e := LedgerEntry(s.ledgerSequence + 1, id, payment.accountId, payment.amount);
    forall x
      ensures Entered(s', x)
    {
      assert Entered(s, x);
      OneMoreEntry(s.ledger, e, x, "");
    }
    forall a
      ensures Debited(s'.ledger, a) == H.Tied(Holds(s'.reservations), a, H.Committed)
    {
      OneMoreEntry(s.ledger, e, "", a);
      CommittedGrows(s.reservations, id, a);
    }
  }

  lemma CommittedGrows(reservations: map<string, Reservation>, id: string, account: string)
    requires id in reservations && reservations[id].state.Frozen?
    ensures var r := reservations[id];
      H.Tied(Holds(reservations[id := r.(state := Confirmed)]), account, H.Committed)
      == H.Tied(Holds(reservations), account, H.Committed) + if r.accountId == account then r.amount else 0
  {
    var r := reservations[id];
    HoldsUpdate(reservations, id, r.(state := Confirmed));
    H.TiedUpdate(Holds(reservations), id, HoldOf(r.(state := Confirmed)), account, H.Committed);
  }

  lemma PaidKeeps(s: Store, id: string, payment: Payment, s': Store)
    requires PaymentsOk(s) && AllCoupled(s) && LedgerOk(s) && Money(s) && Keyed(s)
    requires id in s.payments && Paid(s, id, payment, s')
    ensures PaymentsOk(s') && AllCoupled(s') && LedgerOk(s') && Money(s') && Keyed(s')
  {
    hide PaymentsOk, AllCoupled, LedgerOk, Money;
    PaidMoney(s, id, payment, s');
    PaymentAt(s, id);
    AccountAt(s, id);
    PaidLedger(s, id, payment, s');
    RewriteCoupled(s, s', id);
  }

  function Pay(s: Store, id: string, payment: Payment): Store
    requires id in s.payments && HoldsFunds(s, id)
  {
    SetStatus(Note(CommitFunds(s, id), id, FundsConfirmed), id, s.payments[id].status, payment)
  }

  lemma PayPays(s: Store, id: string, payment: Payment)
    requires id in s.payments && HoldsFunds(s, id) && s.payments[id].status.Processing? && payment.status.Success?
    requires payment.id == s.payments[id].id && payment.accountId == s.payments[id].accountId
    requires payment.amount == s.payments[id].amount
    ensures Paid(s, id, payment, Pay(s, id, payment))
  {
    hide LogOf, CountOf;
  }

  lemma PayKeeps(s: Store, id: string, payment: Payment)
    requires Inv(s)
    requires id in s.payments && HoldsFunds(s, id) && s.payments[id].status.Processing? && payment.status.Success?
    requires payment.id == s.payments[id].id && payment.accountId == s.payments[id].accountId
    requires payment.amount == s.payments[id].amount
    ensures Inv(Pay(s, id, payment)) && Paid(s, id, payment, Pay(s, id, payment))
  {
    hide PaymentsOk, AllCoupled, LedgerOk, Money, Keyed, Logged, Paid, SetStatus, LogOf, CountOf;
    PayPays(s, id, payment);
    LoggedElsewhere(s, CommitFunds(s, id));
    LoggedNote(CommitFunds(s, id), id, FundsConfirmed);
    LoggedMove(Note(CommitFunds(s, id), id, FundsConfirmed), id, payment);
    PaidKeeps(s, id, payment, Pay(s, id, payment));
  }

  lemma ApplyKeeps(s: Store, id: string, c: Callback)
    requires Inv(s) && id in s.payments && s.payments[id].status.Processing?
    ensures Inv(Apply(s, id, c).store)
  {
    hide Inv, SetStatus, Release, LogOf, CountOf;
    var noted := Note(s, id, CallbackAccepted);
    NoteKeeps(s, id, CallbackAccepted);
    var p := s.payments[id].(lastCallback := c.sequence);
    if !c.outcome.Succeeded? {
      SettleKeeps(noted, id, p.(status := Failed, failureReason := if c.reason == "" then DECLINED else c.reason));
    } else if HoldsFunds(s, id) {
      PayKeeps(noted, id, p.(status := Success));
    }
  }

  lemma CallbackKeeps(s: Store, id: string, c: Callback)
    requires Inv(s)
    ensures Inv(ProcessCallback(s, id, c).store)
  {
    hide Inv, Apply, LogOf, CountOf;
    if !c.outcome.Unsupported? && id in s.payments {
      if c.eventId in SeenOf(s, id) {
        NoteKeeps(s, id, CallbackDuplicate);
      } else {
        var seen := See(s, id, c.eventId);
        SeeKeeps(s, id, c.eventId);
        NoteKeeps(seen, id, CallbackOutOfOrder);
        NoteKeeps(seen, id, CallbackTerminalIgnored);
        if s.payments[id].status.Processing? {
          ApplyKeeps(seen, id, c);
        }
      }
    }
  }
}

/** internal/store/memory.go: the store as one object, changed in place under its mutex, one operation at a time. */
module MemoryStore {
  import opened Domain
  import opened MemoryRules
  import E = EventLog
  import H = HoldAccount
  import I = MemoryInvariant

  class MemoryStore {
    var payments: map<string, Payment>
    var events: map<string, seq<PaymentEvent>>
    var eventSequences: map<string, int>
    var idempotency: map<string, IdempotencyRecord>
    var callbacksSeen: map<string, set<string>>
    var accounts: map<string, Account>
    var reservations: map<string, Reservation>
    var ledger: seq<LedgerEntry>
    var ledgerSequence: int

    function Content(): (s: Store)
      reads this
    {
      Store(payments, events, eventSequences, idempotency, callbacksSeen, accounts, reservations, ledger,
            ledgerSequence)
    }

    ghost predicate Valid()
      reads this
    {
      I.Inv(Content())
    }

    constructor ()
      ensures Content() == EmptyStore() && Valid()
    {
      payments, events, eventSequences, idempotency, callbacksSeen := map[], map[], map[], map[], map[];
      accounts := map[DEMO_USER := Account(DEMO_USER, OPENING_BALANCE, 0)];
      reservations, ledger, ledgerSequence := map[], [], 0;
      new;
      I.EmptyInv();
    }

    method Reset()
      modifies this
      ensures Content() == EmptyStore() && Valid()
    {
      payments, events, eventSequences, idempotency, callbacksSeen := map[], map[], map[], map[], map[];
      accounts := map[DEMO_USER := Account(DEMO_USER, OPENING_BALANCE, 0)];
      reservations, ledger, ledgerSequence := map[], [], 0;
      I.EmptyInv();
    }

    method AppendEventLocked(id: string, kind: EventKind, from: Option<PaymentStatus>, to: Option<PaymentStatus>)
      modifies this`eventSequences, this`events
      ensures Content() == Append(old(Content()), id, kind, from, to)
    {
      var n := (if id in eventSequences then eventSequences[id] else 0) + 1;
      eventSequences := eventSequences[id := n];
      var log := if id in events then events[id] else [];
      events := events[id := log + [PaymentEvent(n, kind, from, to)]];
    }

    method CreatePayment(payment: Payment, key: string, fingerprint: string) returns (r: Result<(Payment, bool)>)
      requires Valid()
      modifies this
      ensures Step(Content(), r) == MemoryRules.CreatePayment(old(Content()), payment, key, fingerprint)
      ensures I.NewPayment(payment) ==> Valid()
    {
      hide I.Inv;
      I.CreateKeeps(Content(), payment, key, fingerprint);
      if key in idempotency {
        var record := idempotency[key];
        if record.fingerprint != fingerprint {
          return Err(IdempotencyConflict);
        }
        assert record.paymentId in payments by { I.RecordKnown(Content(), key); }
        return Ok((payments[record.paymentId], false));
      }
      if payment.id in payments {
        return Err(IdCollision);
      }
      payments := payments[payment.id := payment];
      idempotency := idempotency[key := IdempotencyRecord(payment.id, fingerprint)];
      AppendEventLocked(payment.id, PaymentCreated, None, Some(Init));
      return Ok((payment, true));
    }

    method StartPayment(id: string) returns (r: Result<Payment>)
      requires Valid()
      modifies this
      ensures Step(Content(), r) == MemoryRules.StartPayment(old(Content()), id) && Valid()
    {
      hide I.Inv;
      I.StartKeeps(Content(), id);
      if id !in payments {
        return Err(NotFound);
      }
      var payment := payments[id];
      if payment.status != Init {
        return Err(InvalidTransition);
      }
      payment := payment.(status := Processing);
      payments := payments[id := payment];
      AppendEventLocked(id, StatusChanged, Some(Init), Some(Processing));
      return Ok(payment);
    }

    method Freeze(id: string) returns (r: Result<Payment>)
      requires Valid()
      modifies this
      ensures Step(Content(), r) == MemoryRules.Freeze(old(Content()), id) && Valid()
    {
      hide I.Inv;
      I.FreezeKeeps(Content(), id);
      if id !in payments {
        return Err(NotFound);
      }
      var payment := payments[id];
      if payment.status != Processing {
        return Err(InvalidTransition);
      }
      if id in reservations {
        if reservations[id].state == Frozen || reservations[id].state == Confirmed {
          return Ok(payment);
        }
        return Err(InvalidTransition);
      }
      if payment.accountId !in accounts {
        return Err(NotFound);
      }
      var account := accounts[payment.accountId];
      if account.available < payment.amount {
        return Err(InsufficientFunds);
      }
      account := account.(available := account.available - payment.amount, frozen := account.frozen + payment.amount);
      accounts := accounts[account.id := account];
      reservations := reservations[id := Reservation(id, account.id, payment.amount, Frozen)];
      AppendEventLocked(id, FundsFrozen, None, None);
      return Ok(payment);
    }

    method ReleaseLocked(id: string)
      modifies this
      ensures Content() == Release(old(Content()), id)
    {
      if id !in reservations || reservations[id].state != Frozen {
        return;
      }
      var reservation := reservations[id];
      var account := if reservation.accountId in accounts then accounts[reservation.accountId] else Account("", 0, 0);
      account := account.(available := account.available + reservation.amount,
                          frozen := account.frozen - reservation.amount);
      accounts := accounts[account.id := account];
      reservations := reservations[id := reservation.(state := Cancelled)];
      AppendEventLocked(id, FundsReleased, None, None);
    }

    method FailAndRelease(id: string, reason: string) returns (r: Result<Payment>)
      requires Valid()
      modifies this
      ensures Step(Content(), r) == MemoryRules.FailAndRelease(old(Content()), id, reason) && Valid()
    {
      hide I.Inv;
      I.FailKeeps(Content(), id, reason);
      if id !in payments {
        return Err(NotFound);
      }
      var payment := payments[id];
      if payment.status.Terminal() {
        return Err(InvalidTransition);
      }
      ReleaseLocked(id);
      var from := payment.status;
      payment := payment.(status := Failed, failureReason := reason);
      payments := payments[id := payment];
      AppendEventLocked(id, StatusChanged, Some(from), Some(payment.status));
      return Ok(payment);
    }

    method ClosePayment(id: string) returns (r: Result<Payment>)
      requires Valid()
      modifies this
      ensures Step(Content(), r) == MemoryRules.ClosePayment(old(Content()), id) && Valid()
    {
      hide I.Inv;
      I.CloseKeeps(Content(), id);
      if id !in payments {
        return Err(NotFound);
      }
      var payment := payments[id];
      if payment.status != Processing {
        return Err(InvalidTransition);
      }
      ReleaseLocked(id);
      var from := payment.status;
      payment := payment.(status := Closed, failureReason := "");
      payments := payments[id := payment];
      AppendEventLocked(id, StatusChanged, Some(from), Some(payment.status));
      return Ok(payment);
    }

    /** The event id joins those the payment has seen. */
    method SeeLocked(id: string, eventId: string)
      modifies this`callbacksSeen
      ensures Content() == See(old(Content()), id, eventId)
    {
      var seen := if id in callbacksSeen then callbacksSeen[id] else {};
      callbacksSeen := callbacksSeen[id := seen + {eventId}];
    }

    method ProcessCallback(id: string, callback: Callback) returns (r: Result<(Payment, Disposition)>)
      requires Valid()
      modifies this
      ensures Step(Content(), r) == MemoryRules.ProcessCallback(old(Content()), id, callback) && Valid()
    {
      hide I.Inv, Apply, Append, See;
      I.CallbackKeeps(Content(), id, callback);
      if callback.outcome == Unsupported {
        return Err(UnsupportedOutcome);
      }
      if id !in payments {
        return Err(NotFound);
      }
      var payment := payments[id];
      if id in callbacksSeen && callback.eventId in callbacksSeen[id] {
        AppendEventLocked(id, CallbackDuplicate, None, None);
        return Ok((payment, Duplicate));
      }
      SeeLocked(id, callback.eventId);
      if callback.sequence <= payment.lastCallback {
        AppendEventLocked(id, CallbackOutOfOrder, None, None);
        return Ok((payment, OutOfOrder));
      }
      if payment.status.Terminal() {
        AppendEventLocked(id, CallbackTerminalIgnored, None, None);
        return Ok((payment, TerminalIgnored));
      }
      if payment.status != Processing {
        return Err(InvalidTransition);
      }
      r := ApplyCallbackLocked(id, callback);
    }

    /** The money of a success callback: the frozen funds leave the account and one ledger entry says so. */
    method CommitLocked(id: string)
      requires id in payments && HoldsFunds(Content(), id)
      modifies this
      ensures Content() == Note(CommitFunds(old(Content()), id), id, FundsConfirmed)
    {
      var reservation := reservations[id];
      var account := if reservation.accountId in accounts then accounts[reservation.accountId] else Account("", 0, 0);
      account := account.(frozen := account.frozen - reservation.amount);
      accounts := accounts[account.id := account];
      reservations := reservations[id := reservation.(state := Confirmed)];
      ledgerSequence := ledgerSequence + 1;
      ledger := ledger + [LedgerEntry(ledgerSequence, id, payments[id].accountId, payments[id].amount)];
      AppendEventLocked(id, FundsConfirmed, None, None);
    }

    /** The second half of ProcessCallback: accept, move the money, store the status. */
    method ApplyCallbackLocked(id: string, callback: Callback) returns (r: Result<(Payment, Disposition)>)
      requires id in payments && callback.outcome != Unsupported
      modifies this
      ensures Step(Content(), r) == Apply(old(Content()), id, callback)
    {
      hide Release, CommitFunds, LogOf, CountOf;
      var from := payments[id].status;
      var payment := payments[id].(lastCallback := callback.sequence);
      AppendEventLocked(id, CallbackAccepted, None, None);
      if callback.outcome == Succeeded {
        if id !in reservations || reservations[id].state != Frozen {
          return Err(InvalidTransition);
        }
        CommitLocked(id);
        payment := payment.(status := Success);
      } else {
        ReleaseLocked(id);
        payment := payment.(status := Failed, failureReason := callback.reason);
        if payment.failureReason == "" {
          payment := payment.(failureReason := DECLINED);
        }
      }
      payments := payments[id := payment];
      AppendEventLocked(id, StatusChanged, Some(from), Some(payment.status));
      return Ok((payment, CallbackApplied));
    }

    method RecordEvent(id: string, name: string) returns (r: Result<()>)
      requires Valid()
      modifies this
      ensures Step(Content(), r) == MemoryRules.RecordEvent(old(Content()), id, name) && Valid()
    {
      hide I.Inv;
      I.RecordKeeps(Content(), id, name);
      if id !in payments {
        return Err(NotFound);
      }
      AppendEventLocked(id, Recorded(name), None, None);
      return Ok(());
    }

    /**
     What a caller may conclude from the payment it gets: its history tells the status, its money is frozen only while
     it is PROCESSING, and it is SUCCESS exactly if the ledger debits its account by its amount, once.
     */
    method GetPayment(id: string) returns (r: Result<Payment>)
      requires Valid()
      ensures r.Err? ==> r.error == NotFound && id !in payments && id !in reservations && I.Debits(ledger, id) == []
      ensures r.Ok? ==>
        var p := r.value;
        && id in payments && p == payments[id] && p.id == id && p.amount > 0 && id in events
           && E.Tells(events[id], p.status)
        && (p.status.Success? <==> I.Debits(ledger, id) == [(p.accountId, p.amount)])
        && (HoldsFunds(Content(), id) ==> p.status.Processing?)
    {
      hide I.PaymentsOk, I.AllCoupled, I.Money, I.Keyed, I.Debits, I.Debited, E.Tells, H.Tied;
      assert I.Entered(Content(), id);
      if id !in payments {
        I.UnknownHoldsNothing(Content(), id);
        return Err(NotFound);
      }
      I.PaymentAt(Content(), id);
      I.LogAt(Content(), id);
      return Ok(payments[id]);
    }

    /** The history of a payment that is there, numbered from 1, chained, and ending at the payment's status. */
    method Events(id: string) returns (r: Result<seq<PaymentEvent>>)
      requires Valid()
      ensures r.Err? <==> id !in payments
      ensures r.Err? ==> r.error == NotFound
      ensures r.Ok? ==> id in events && r.value == events[id] && E.Tells(r.value, payments[id].status)
    {
      hide I.PaymentsOk, I.AllCoupled, I.Money, I.Keyed, I.LedgerOk, E.Tells;
      if id !in payments {
        return Err(NotFound);
      }
      I.LogAt(Content(), id);
      return Ok(if id in events then events[id] else []);
    }
  }
}

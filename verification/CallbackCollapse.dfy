/**
 A payment channel may repeat, reorder and contradict its callbacks.  Whatever list of them arrives for a payment that
 holds frozen funds, at most one has an effect, and which one it is can be read off the list.
 */
module CallbackCollapse {
  import opened Domain
  import opened MemoryRules
  import I = MemoryInvariant

  /** The store without its history: what callbacks may change only once. */
  function Core(s: Store): Store {
    s.(events := map[], eventSequences := map[], callbacksSeen := map[])
  }

  /** Process the callbacks in the order they arrive. */
  function Play(s: Store, id: string, cs: seq<Callback>): Store
    decreases |cs|
  {
    if cs == [] then s else Play(ProcessCallback(s, id, cs[0]).store, id, cs[1..])
  }

  function Answers(s: Store, id: string, cs: seq<Callback>): (rs: seq<Result<(Payment, Disposition)>>)
    ensures |rs| == |cs|
    decreases |cs|
  {
    if cs == [] then []
    else
      var step := ProcessCallback(s, id, cs[0]);
      [step.result] + Answers(step.store, id, cs[1..])
  }

  function Answered(r: Result<(Payment, Disposition)>): Option<Disposition> {
    if r.Ok? then Some(r.value.1) else None
  }

  /** A supported callback with a positive sequence number and a new event id. */
  predicate Wins(seen: set<string>, c: Callback) {
    !c.outcome.Unsupported? && c.eventId !in seen && c.sequence > 0
  }

  function SeeNext(seen: set<string>, c: Callback): set<string> {
    if c.outcome.Unsupported? then seen else seen + {c.eventId}
  }

  /** The first callback of the list that wins, given the event ids used before it. */
  function Winner(seen: set<string>, cs: seq<Callback>): (w: Option<nat>)
    ensures w.Some? ==> w.value < |cs| && !cs[w.value].outcome.Unsupported? && cs[w.value].sequence > 0
    decreases |cs|
  {
    if cs == [] then None
    else if Wins(seen, cs[0]) then Some(0)
    else
      var rest := Winner(SeeNext(seen, cs[0]), cs[1..]);
      if rest.Some? then Some(rest.value + 1) else None
  }

  lemma AppendCore(s: Store, id: string, kind: EventKind, from: Option<PaymentStatus>, to: Option<PaymentStatus>)
    ensures Core(Append(s, id, kind, from, to)) == Core(s)
    ensures Append(s, id, kind, from, to).callbacksSeen == s.callbacksSeen
  {
    hide LogOf, CountOf;
  }

  lemma NoteCore(s: Store, id: string, kind: EventKind)
    ensures Core(Note(s, id, kind)) == Core(s)
    ensures Note(s, id, kind).callbacksSeen == s.callbacksSeen
  {
    hide Append;
    AppendCore(s, id, kind, None, None);
  }

  lemma CoreFacts(s: Store, s': Store)
    requires Core(s) == Core(s')
    ensures s.payments == s'.payments && s.reservations == s'.reservations && s.accounts == s'.accounts
    ensures s.ledger == s'.ledger && s.ledgerSequence == s'.ledgerSequence && s.idempotency == s'.idempotency
  {
    assert s.payments == Core(s).payments && s.reservations == Core(s).reservations && s.accounts == Core(s).accounts;
    assert s.ledger == Core(s).ledger && s.ledgerSequence == Core(s).ledgerSequence
        && s.idempotency == Core(s).idempotency;
  }

  lemma ReleaseCore(s: Store, s': Store, id: string)
    requires Core(s) == Core(s')
    ensures Core(Release(s, id)) == Core(Release(s', id))
  {
    hide Append;
    CoreFacts(s, s');
    if HoldsFunds(s, id) {
      var r := s.reservations[id];
      var a, rows := AccountOf(s, r.accountId), s.reservations[id := r.(state := Cancelled)];
      AppendCore(Shift(s, a, r.amount, -r.amount).(reservations := rows), id, FundsReleased, None, None);
      AppendCore(Shift(s', a, r.amount, -r.amount).(reservations := rows), id, FundsReleased, None, None);
    }
  }

  lemma StatusCore(s: Store, s': Store, id: string, from: PaymentStatus, payment: Payment)
    requires Core(s) == Core(s')
    ensures Core(SetStatus(s, id, from, payment)) == Core(SetStatus(s', id, from, payment))
  {
    hide Append;
    CoreFacts(s, s');
    AppendCore(s.(payments := s.payments[id := payment]), id, StatusChanged, Some(from), Some(payment.status));
    AppendCore(s'.(payments := s'.payments[id := payment]), id, StatusChanged, Some(from), Some(payment.status));
  }

  lemma CommitCore(s: Store, s': Store, id: string)
    requires Core(s) == Core(s') && id in s.payments && HoldsFunds(s, id)
    ensures id in s'.payments && HoldsFunds(s', id)
    ensures Core(Note(CommitFunds(s, id), id, FundsConfirmed)) == Core(Note(CommitFunds(s', id), id, FundsConfirmed))
  {
    hide Append;
    CoreFacts(s, s');
    AppendCore(CommitFunds(s, id), id, FundsConfirmed, None, None);
    AppendCore(CommitFunds(s', id), id, FundsConfirmed, None, None);
  }

  /** What a callback does to the core depends on the core alone. */
  lemma ApplyCore(s: Store, s': Store, id: string, c: Callback)
    requires Core(s) == Core(s') && id in s.payments
    ensures id in s'.payments && Core(Apply(s, id, c).store) == Core(Apply(s', id, c).store)
  {
    hide Core, Note, Release, SetStatus, CommitFunds;
    CoreFacts(s, s');
    var noted, noted' := Note(s, id, CallbackAccepted), Note(s', id, CallbackAccepted);
    NoteCore(s, id, CallbackAccepted);
    NoteCore(s', id, CallbackAccepted);
    CoreFacts(s, noted);
    CoreFacts(s', noted');
    var p := s.payments[id].(lastCallback := c.sequence);
    if !c.outcome.Succeeded? {
      ReleaseCore(noted, noted', id);
      StatusCore(Release(noted, id), Release(noted', id), id, p.status,
                 p.(status := Failed, failureReason := if c.reason == "" then DECLINED else c.reason));
    } else if HoldsFunds(s, id) {
      CommitCore(noted, noted', id);
      StatusCore(Note(CommitFunds(noted, id), id, FundsConfirmed), Note(CommitFunds(noted', id), id, FundsConfirmed),
                 id,
                 p.status, p.(status := Success));
    }
  }

  lemma SeeCore(s: Store, id: string, eventId: string)
    ensures Core(See(s, id, eventId)) == Core(s)
    ensures SeenOf(See(s, id, eventId), id) == SeenOf(s, id) + {eventId}
  {
  }

  /** A callback that is not the first valid one of its event id leaves the core alone. */
  lemma Skipped(s: Store, id: string, c: Callback)
    requires I.Inv(s) && id in s.payments && s.payments[id].status.Processing?
    requires !Wins(SeenOf(s, id), c)
    ensures var step := ProcessCallback(s, id, c);
      && Core(step.store) == Core(s)
      && SeenOf(step.store, id) == SeeNext(SeenOf(s, id), c)
      && Answered(step.result) != Some(CallbackApplied)
  {
    LastIsZero(s, id);
    hide I.Inv, Core, Note, See, SeenOf, Apply, ProcessCallback;
    SeeCore(s, id, c.eventId);
    NoteCore(s, id, CallbackDuplicate);
    NoteCore(See(s, id, c.eventId), id, CallbackOutOfOrder);
    SkippedStep(s, id, c);
    SameSeen(s, Note(s, id, CallbackDuplicate), id);
    SameSeen(See(s, id, c.eventId), Note(See(s, id, c.eventId), id, CallbackOutOfOrder), id);
  }

  lemma SameSeen(s: Store, s': Store, id: string)
    requires s'.callbacksSeen == s.callbacksSeen
    ensures SeenOf(s', id) == SeenOf(s, id)
  {
  }

  lemma SkippedStep(s: Store, id: string, c: Callback)
    requires id in s.payments && s.payments[id].lastCallback == 0
    requires !Wins(SeenOf(s, id), c)
    ensures ProcessCallback(s, id, c) ==
      if c.outcome.Unsupported? then Step(s, Err(UnsupportedOutcome))
      else if c.eventId in SeenOf(s, id) then Step(Note(s, id, CallbackDuplicate), Ok((s.payments[id], Duplicate)))
      else Step(Note(See(s, id, c.eventId), id, CallbackOutOfOrder), Ok((s.payments[id], OutOfOrder)))
  {
    hide Note, See, SeenOf, Apply;
  }

  lemma LastIsZero(s: Store, id: string)
    requires I.Inv(s) && id in s.payments && !s.payments[id].status.Terminal()
    ensures s.payments[id].lastCallback == 0
  {
    hide I.Logged, I.LedgerOk, I.Money, I.Keyed;
    I.PaymentAt(s, id);
  }

  /** A terminal payment ignores every callback. */
  lemma {:induction false} Ignored(s: Store, id: string, cs: seq<Callback>)
    requires id in s.payments && s.payments[id].status.Terminal()
    ensures Core(Play(s, id, cs)) == Core(s)
    ensures forall i :: 0 <= i < |cs| ==> Answered(Answers(s, id, cs)[i]) != Some(CallbackApplied)
    decreases |cs|
  {
    if cs != [] {
      IgnoredOne(s, id, cs[0]);
      Ignored(ProcessCallback(s, id, cs[0]).store, id, cs[1..]);
      hide ProcessCallback;
    }
  }

  lemma IgnoredOne(s: Store, id: string, c: Callback)
    requires id in s.payments && s.payments[id].status.Terminal()
    ensures Core(ProcessCallback(s, id, c).store) == Core(s)
    ensures Answered(ProcessCallback(s, id, c).result) != Some(CallbackApplied)
  {
    hide Note, Apply;
    NoteCore(s, id, CallbackDuplicate);
    NoteCore(See(s, id, c.eventId), id, CallbackOutOfOrder);
    NoteCore(See(s, id, c.eventId), id, CallbackTerminalIgnored);
  }

  lemma WonStep(s: Store, id: string, c: Callback)
    requires id in s.payments && s.payments[id].status.Processing? && s.payments[id].lastCallback == 0
    requires Wins(SeenOf(s, id), c)
    ensures ProcessCallback(s, id, c) == Apply(See(s, id, c.eventId), id, c)
  {
    hide SeenOf, Note, Apply;
  }

  /** The winning callback is applied, to the same effect as if it had come alone. */
  lemma Won(s: Store, id: string, c: Callback)
    requires I.Inv(s) && id in s.payments && s.payments[id].status.Processing? && HoldsFunds(s, id)
    requires Wins(SeenOf(s, id), c)
    ensures var step := ProcessCallback(s, id, c);
      && Core(step.store) == Core(Apply(s, id, c).store)
      && Answered(step.result) == Some(CallbackApplied)
      && id in step.store.payments && step.store.payments[id].status.Terminal()
  {
    LastIsZero(s, id);
    hide I.Inv, Core, See, SeenOf, HoldsFunds, Apply, ProcessCallback;
    WonStep(s, id, c);
    SeeCore(s, id, c.eventId);
    CoreFacts(s, See(s, id, c.eventId));
    HoldsSame(s, See(s, id, c.eventId), id);
    ApplyCore(s, See(s, id, c.eventId), id, c);
    ApplyEnds(See(s, id, c.eventId), id, c);
  }

  lemma HoldsSame(s: Store, s': Store, id: string)
    requires s.reservations == s'.reservations
    ensures HoldsFunds(s, id) == HoldsFunds(s', id)
  {
  }

  lemma ApplyEnds(s: Store, id: string, c: Callback)
    requires id in s.payments && HoldsFunds(s, id)
    ensures Answered(Apply(s, id, c).result) == Some(CallbackApplied)
    ensures id in Apply(s, id, c).store.payments
    ensures Apply(s, id, c).store.payments[id].status == if c.outcome.Succeeded? then Success else Failed
  {
    hide LogOf, CountOf, Release, CommitFunds;
  }

  /** The applied answers are the winner's and no other. */
  lemma {:induction false} OneApplied(s: Store, id: string, cs: seq<Callback>, i: nat)
    requires I.Inv(s) && id in s.payments && s.payments[id].status.Processing? && HoldsFunds(s, id) && i < |cs|
    ensures Answered(Answers(s, id, cs)[i]) == Some(CallbackApplied) <==> Winner(SeenOf(s, id), cs) == Some(i)
    decreases |cs|
  {
    hide I.Inv, ProcessCallback, Apply, Core, SeenOf, SeeNext, Wins;
    var c, next := cs[0], ProcessCallback(s, id, cs[0]).store;
    if Wins(SeenOf(s, id), c) {
      Won(s, id, c);
      Ignored(next, id, cs[1..]);
    } else {
      Skipped(s, id, c);
      CoreFacts(s, next);
      I.CallbackKeeps(s, id, c);
      if i > 0 {
        OneApplied(next, id, cs[1..], i - 1);
      }
    }
  }

  /**
   Any list of callbacks, repeated, reordered or contradictory, leaves payments, accounts, reservations and ledger as
   its winner alone would; without a winner nothing changes.
   */
  lemma {:induction false} Collapse(s: Store, id: string, cs: seq<Callback>)
    requires I.Inv(s) && id in s.payments && s.payments[id].status.Processing? && HoldsFunds(s, id)
    ensures var w := Winner(SeenOf(s, id), cs);
      Core(Play(s, id, cs)) == Core(if w.Some? then Apply(s, id, cs[w.value]).store else s)
    decreases |cs|
  {
    hide I.Inv, ProcessCallback, Apply, Core, SeenOf, SeeNext, Wins;
    if cs != [] {
      var c, next := cs[0], ProcessCallback(s, id, cs[0]).store;
      if Wins(SeenOf(s, id), c) {
        Won(s, id, c);
        Ignored(next, id, cs[1..]);
      } else {
        Skipped(s, id, c);
        CoreFacts(s, next);
        I.CallbackKeeps(s, id, c);
        Collapse(next, id, cs[1..]);
        var w := Winner(SeenOf(next, id), cs[1..]);
        if w.Some? {
          ApplyCore(next, s, id, cs[1..][w.value]);
        }
      }
    }
  }

  /** What a callback that is accepted makes of its payment and of the money frozen for it. */
  ghost predicate Decided(s: Store, id: string, c: Callback, s': Store)
    requires id in s.payments && HoldsFunds(s, id)
  {
    var p, r, paid := s.payments[id], s.reservations[id], c.outcome.Succeeded?;
    && s'.payments == s.payments[id := p.(
         status := if paid then Success else Failed, lastCallback := c.sequence,
         failureReason := if paid then p.failureReason else if c.reason != "" then c.reason else DECLINED)]
    && s'.reservations == s.reservations[id := r.(state := if paid then Confirmed else Cancelled)]
    && p.accountId in s.accounts
    && var a := s.accounts[p.accountId];
    && s'.accounts == s.accounts[p.accountId := a.(
         available := a.available + (if paid then 0 else p.amount), frozen := a.frozen - p.amount)]
    && s'.ledger == s.ledger + (if paid then [LedgerEntry(|s.ledger| + 1, id, p.accountId, p.amount)] else [])
    && s'.idempotency == s.idempotency
  }

  lemma StatusFields(s: Store, id: string, from: PaymentStatus, payment: Payment)
    ensures var r := SetStatus(s, id, from, payment);
      && r.payments == s.payments[id := payment] && r.reservations == s.reservations && r.accounts == s.accounts
      && r.ledger == s.ledger && r.idempotency == s.idempotency
  {
    hide LogOf, CountOf;
  }

  lemma ReleaseFields(s: Store, id: string)
    requires HoldsFunds(s, id)
    ensures var r, out := s.reservations[id], Release(s, id);
      && out.payments == s.payments && out.ledger == s.ledger && out.idempotency == s.idempotency
      && out.reservations == s.reservations[id := r.(state := Cancelled)]
      && out.accounts == Shift(s, AccountOf(s, r.accountId), r.amount, -r.amount).accounts
  {
    hide LogOf, CountOf, AccountOf;
  }

  lemma CommitFields(s: Store, id: string)
    requires id in s.payments && HoldsFunds(s, id)
    ensures var r, p, out := s.reservations[id], s.payments[id], Note(CommitFunds(s, id), id, FundsConfirmed);
      && out.payments == s.payments && out.idempotency == s.idempotency
      && out.reservations == s.reservations[id := r.(state := Confirmed)]
      && out.accounts == Shift(s, AccountOf(s, r.accountId), 0, -r.amount).accounts
      && out.ledger == s.ledger + [LedgerEntry(s.ledgerSequence + 1, id, p.accountId, p.amount)]
  {
    hide LogOf, CountOf, AccountOf;
  }

  lemma ApplyDecides(s: Store, id: string, c: Callback)
    requires I.Inv(s) && id in s.payments && s.payments[id].status.Processing? && HoldsFunds(s, id)
    ensures Decided(s, id, c, Apply(s, id, c).store)
  {
    hide I.Inv, Append, Release, SetStatus, CommitFunds;
    OwnMoney(s, id);
    var noted := Note(s, id, CallbackAccepted);
    NoteCore(s, id, CallbackAccepted);
    CoreFacts(s, noted);
    var p := s.payments[id].(lastCallback := c.sequence);
    if c.outcome.Succeeded? {
      CommitFields(noted, id);
      StatusFields(Note(CommitFunds(noted, id), id, FundsConfirmed), id, p.status, p.(status := Success));
    } else {
      ReleaseFields(noted, id);
      StatusFields(Release(noted, id), id, p.status,
                   p.(status := Failed, failureReason := if c.reason == "" then DECLINED else c.reason));
    }
  }

  /** The frozen money is this payment's own, on its own account. */
  lemma OwnMoney(s: Store, id: string)
    requires I.Inv(s) && id in s.payments && HoldsFunds(s, id)
    ensures var p := s.payments[id];
      && s.reservations[id].accountId == p.accountId && s.reservations[id].amount == p.amount
      && p.accountId in s.accounts && s.accounts[p.accountId].id == p.accountId && s.ledgerSequence == |s.ledger|
  {
    hide I.Logged, I.Keyed, I.Money, I.Entered;
    I.PaymentAt(s, id);
    I.AccountNamed(s, s.payments[id].accountId);
  }

  /** The winner of a list is what decides the payment and its money, told from the list and the store before it. */
  lemma WinnerDecides(s: Store, id: string, cs: seq<Callback>)
    requires I.Inv(s) && id in s.payments && s.payments[id].status.Processing? && HoldsFunds(s, id)
    requires Winner(SeenOf(s, id), cs).Some?
    ensures Decided(s, id, cs[Winner(SeenOf(s, id), cs).value], Play(s, id, cs))
  {
    hide I.Inv, Apply, Core, SeenOf;
    var c := cs[Winner(SeenOf(s, id), cs).value];
    Collapse(s, id, cs);
    CoreFacts(Play(s, id, cs), Apply(s, id, c).store);
    ApplyDecides(s, id, c);
  }

  /** When no callback was seen before and all that come are valid, the first one decides. */
  lemma FirstDecides(s: Store, id: string, cs: seq<Callback>)
    requires I.Inv(s) && id in s.payments && s.payments[id].status.Processing? && HoldsFunds(s, id)
    requires SeenOf(s, id) == {} && cs != []
    requires forall i :: 0 <= i < |cs| ==> !cs[i].outcome.Unsupported? && cs[i].sequence > 0
    ensures Core(Play(s, id, cs)) == Core(ProcessCallback(s, id, cs[0]).store)
    ensures Answered(Answers(s, id, cs)[0]) == Some(CallbackApplied)
    ensures forall i :: 0 < i < |cs| ==> Answered(Answers(s, id, cs)[i]) != Some(CallbackApplied)
  {
    hide I.Inv, ProcessCallback, Apply;
    Collapse(s, id, cs);
    Won(s, id, cs[0]);
    forall i | 0 <= i < |cs|
      ensures Answered(Answers(s, id, cs)[i]) == Some(CallbackApplied) <==> Winner(SeenOf(s, id), cs) == Some(i)
    {
      OneApplied(s, id, cs, i);
    }
  }

  /** An event id passes the duplicate check once: every later supported callback that carries it is a duplicate. */
  lemma {:induction false} PassesOnce(s: Store, id: string, cs: seq<Callback>, i: nat, j: nat)
    requires id in s.payments && i < j < |cs| && cs[i].eventId == cs[j].eventId
    requires !cs[i].outcome.Unsupported? && !cs[j].outcome.Unsupported?
    ensures Answered(Answers(s, id, cs)[j]) == Some(Duplicate)
    decreases |cs|
  {
    var next := ProcessCallback(s, id, cs[0]).store;
    SeenAfter(s, id, cs[0]);
    if i == 0 {
      Repeated(next, id, cs[1..], j - 1);
    } else {
      PassesOnce(next, id, cs[1..], i - 1, j - 1);
    }
  }

  lemma SeenAfter(s: Store, id: string, c: Callback)
    requires id in s.payments
    ensures var next := ProcessCallback(s, id, c).store;
      id in next.payments && SeenOf(s, id) <= SeenOf(next, id)
          && (!c.outcome.Unsupported? ==> c.eventId in SeenOf(next, id))
  {
    hide Append, Apply;
    AppendCore(s, id, CallbackDuplicate, None, None);
    var seen := See(s, id, c.eventId);
    AppendCore(seen, id, CallbackOutOfOrder, None, None);
    AppendCore(seen, id, CallbackTerminalIgnored, None, None);
    CoreFacts(s, Note(s, id, CallbackDuplicate));
    CoreFacts(seen, Note(seen, id, CallbackOutOfOrder));
    CoreFacts(seen, Note(seen, id, CallbackTerminalIgnored));
    ApplySees(seen, id, c);
  }

  lemma ApplySees(s: Store, id: string, c: Callback)
    requires id in s.payments
    ensures Apply(s, id, c).store.callbacksSeen == s.callbacksSeen && id in Apply(s, id, c).store.payments
  {
    hide LogOf, CountOf;
  }

  lemma {:induction false} Repeated(s: Store, id: string, cs: seq<Callback>, j: nat)
    requires id in s.payments && j < |cs| && !cs[j].outcome.Unsupported? && cs[j].eventId in SeenOf(s, id)
    ensures Answered(Answers(s, id, cs)[j]) == Some(Duplicate)
    decreases |cs|
  {
    SeenAfter(s, id, cs[0]);
    if j > 0 {
      Repeated(ProcessCallback(s, id, cs[0]).store, id, cs[1..], j - 1);
    }
  }

  // ---- Every answer ----

  /** The event id of this callback was used before the list, or by an earlier supported callback of it. */
  predicate Used(seen: set<string>, cs: seq<Callback>, i: nat)
    requires i < |cs|
  {
    cs[i].eventId in seen
    || exists j :: 0 <= j < i && cs[j].eventId == cs[i].eventId && !cs[j].outcome.Unsupported?
  }

  lemma UsedLater(seen: set<string>, cs: seq<Callback>, i: nat)
    requires 0 < i < |cs|
    ensures Used(seen, cs, i) <==> Used(SeeNext(seen, cs[0]), cs[1..], i - 1)
  {
    var rest := cs[1..];
    if j :| 0 < j < i && cs[j].eventId == cs[i].eventId && !cs[j].outcome.Unsupported? {
      assert rest[j - 1] == cs[j];
    }
    if j :| 0 <= j < i - 1 && rest[j].eventId == cs[i].eventId && !rest[j].outcome.Unsupported? {
      assert cs[j + 1] == rest[j];
    }
  }

  /** What one callback is answered by a terminal payment. */
  lemma TerminalAnswer(s: Store, id: string, c: Callback)
    requires id in s.payments && s.payments[id].status.Terminal()
    ensures SeenOf(ProcessCallback(s, id, c).store, id) == SeeNext(SeenOf(s, id), c)
    ensures ProcessCallback(s, id, c).store.payments == s.payments
    ensures Answered(ProcessCallback(s, id, c).result)
         == if c.outcome.Unsupported? then None
            else if c.eventId in SeenOf(s, id) then Some(Duplicate)
            else if c.sequence <= s.payments[id].lastCallback then Some(OutOfOrder)
            else Some(TerminalIgnored)
  {
    hide LogOf, CountOf, Apply;
  }

  /**
   A terminal payment answers a new event id by its sequence: behind the last one accepted, or too late all the same.
   */
  lemma {:induction false} TerminalAnswers(s: Store, id: string, cs: seq<Callback>, i: nat)
    requires id in s.payments && s.payments[id].status.Terminal() && i < |cs|
    ensures Answered(Answers(s, id, cs)[i])
         == if cs[i].outcome.Unsupported? then None
            else if Used(SeenOf(s, id), cs, i) then Some(Duplicate)
            else if cs[i].sequence <= s.payments[id].lastCallback then Some(OutOfOrder)
            else Some(TerminalIgnored)
    decreases |cs|
  {
    hide ProcessCallback, SeenOf, SeeNext;
    TerminalAnswer(s, id, cs[0]);
    if i > 0 {
      TerminalAnswers(ProcessCallback(s, id, cs[0]).store, id, cs[1..], i - 1);
      UsedLater(SeenOf(s, id), cs, i);
      hide Used;
    }
  }

  lemma WonAccepts(s: Store, id: string, c: Callback)
    requires I.Inv(s) && id in s.payments && s.payments[id].status.Processing? && HoldsFunds(s, id)
    requires Wins(SeenOf(s, id), c)
    ensures var next := ProcessCallback(s, id, c).store;
      && id in next.payments && next.payments[id].lastCallback == c.sequence
      && SeenOf(next, id) == SeeNext(SeenOf(s, id), c)
  {
    LastIsZero(s, id);
    hide I.Inv, LogOf, CountOf, Release, CommitFunds;
    WonStep(s, id, c);
    SeeCore(s, id, c.eventId);
    ApplySees(See(s, id, c.eventId), id, c);
  }

  lemma SkippedAnswer(s: Store, id: string, c: Callback)
    requires I.Inv(s) && id in s.payments && s.payments[id].status.Processing? && !Wins(SeenOf(s, id), c)
    ensures Answered(ProcessCallback(s, id, c).result)
         == if c.outcome.Unsupported? then None
            else if c.eventId in SeenOf(s, id) then Some(Duplicate)
            else Some(OutOfOrder)
  {
    LastIsZero(s, id);
    hide I.Inv, See, SeenOf, Note, Apply, ProcessCallback;
    SkippedStep(s, id, c);
  }

  /**
   Every answer to any list of callbacks, told from the list alone: a repeated event id is a duplicate; the winner is
   applied; any other new event id is out of order if its sequence does not pass the winner's, or is not positive while
   there is none, and is ignored as too late otherwise.
   */
  lemma {:induction false} EveryAnswer(s: Store, id: string, cs: seq<Callback>, i: nat)
    requires I.Inv(s) && id in s.payments && s.payments[id].status.Processing? && HoldsFunds(s, id) && i < |cs|
    ensures var w := Winner(SeenOf(s, id), cs);
      Answered(Answers(s, id, cs)[i])
      == if cs[i].outcome.Unsupported? then None
         else if Used(SeenOf(s, id), cs, i) then Some(Duplicate)
         else if w.None? || i < w.value then Some(OutOfOrder)
         else if i == w.value then Some(CallbackApplied)
         else if cs[i].sequence <= cs[w.value].sequence then Some(OutOfOrder)
         else Some(TerminalIgnored)
    decreases |cs|
  {
    hide I.Inv, ProcessCallback, Apply, Core, SeenOf, SeeNext;
    var c, next := cs[0], ProcessCallback(s, id, cs[0]).store;
    if i > 0 {
      UsedLater(SeenOf(s, id), cs, i);
    }
    if Wins(SeenOf(s, id), c) {
      Won(s, id, c);
      WonAccepts(s, id, c);
      if i > 0 {
        TerminalAnswers(next, id, cs[1..], i - 1);
      }
    } else {
      Skipped(s, id, c);
      SkippedAnswer(s, id, c);
      CoreFacts(s, next);
      I.CallbackKeeps(s, id, c);
      if i > 0 {
        HoldsSame(s, next, id);
        EveryAnswer(next, id, cs[1..], i - 1);
      }
    }
  }
}

/** The memory store carries out the request machine: every event id of a payment acts once. */
module MemoryMachine {
  import opened Domain
  import opened RequestMachine
  import H = HoldAccount
  import MR = MemoryRules
  import MI = MemoryInvariant
  import M = MemoryRuns

  /** The store operation a step is. */
  function OpOf(step: Step): M.MemoryOp {
    match step.verb
    case Hold => M.Reserve(step.id)
    case Told(callback) => M.Deliver(step.id, callback)
    case Fail(reason) => M.Fail(step.id, reason)
    case Close => M.Close(step.id)
  }

  function MemoryStep(s: MR.Store, step: Step): MR.Store {
    match step.verb
    case Hold => MR.Freeze(s, step.id).store
    case Told(callback) => MR.ProcessCallback(s, step.id, callback).store
    case Fail(reason) => MR.FailAndRelease(s, step.id, reason).store
    case Close => MR.ClosePayment(s, step.id).store
  }

  function MemoryAll(s: MR.Store, steps: seq<Step>): MR.Store
    decreases |steps|
  {
    if steps == [] then s else MemoryAll(MemoryStep(s, steps[0]), steps[1..])
  }

  /** The payment of an order is under way or over, and the event ids it has seen are its spent tokens. */
  ghost predicate OrderOk(s: MR.Store, id: string, order: Order, spent: set<(string, string)>) {
    && id in s.payments && !s.payments[id].status.Init?
    && s.payments[id].accountId == order.account && s.payments[id].amount == order.amount
    && (forall e :: e in MR.SeenOf(s, id) <==> (id, e) in spent)
  }

  ghost predicate MemoryImplements(s: MR.Store, orders: map<string, Order>, m: Machine) {
    && MI.Inv(s) && MI.BookOf(s) == m.book
    && (forall id :: id in orders ==> OrderOk(s, id, orders[id], m.spent))
  }

  /** What the operations leave of a payment, whoever it belongs to. */
  predicate Carried(s: MR.Store, s': MR.Store, id: string) {
    id in s.payments ==>
      && id in s'.payments && s'.payments[id].accountId == s.payments[id].accountId
      && s'.payments[id].amount == s.payments[id].amount
      && (s'.payments[id].status.Init? <==> s.payments[id].status.Init?)
  }

  lemma FreezeCarries(s: MR.Store, other: string, id: string)
    ensures Carried(s, MR.Freeze(s, other).store, id) && MR.Freeze(s, other).store.callbacksSeen == s.callbacksSeen
  {
    hide MR.LogOf, MR.CountOf;
  }

  lemma FailCarries(s: MR.Store, other: string, reason: string, id: string)
    requires other in s.payments && !s.payments[other].status.Init?
    ensures Carried(s, MR.FailAndRelease(s, other, reason).store, id)
    ensures MR.FailAndRelease(s, other, reason).store.callbacksSeen == s.callbacksSeen
  {
    hide MR.LogOf, MR.CountOf;
  }

  lemma CloseCarries(s: MR.Store, other: string, id: string)
    ensures Carried(s, MR.ClosePayment(s, other).store, id)
    ensures MR.ClosePayment(s, other).store.callbacksSeen == s.callbacksSeen
  {
    hide MR.LogOf, MR.CountOf;
  }

  lemma ApplyCarries(s: MR.Store, other: string, c: MR.Callback, id: string)
    requires other in s.payments && !s.payments[other].status.Init?
    ensures Carried(s, MR.Apply(s, other, c).store, id) && MR.Apply(s, other, c).store.callbacksSeen == s.callbacksSeen
  {
    hide MR.LogOf, MR.CountOf;
  }

  lemma NoteCarries(s: MR.Store, other: string, kind: EventKind, id: string)
    ensures Carried(s, MR.Note(s, other, kind), id) && MR.Note(s, other, kind).callbacksSeen == s.callbacksSeen
  {
    hide MR.LogOf, MR.CountOf;
  }

  lemma ToldCarries(s: MR.Store, other: string, c: MR.Callback, id: string)
    requires other in s.payments && !s.payments[other].status.Init? && !c.outcome.Unsupported?
    ensures var s' := MR.ProcessCallback(s, other, c).store;
      Carried(s, s', id) && MR.SeenOf(s', id) == MR.SeenOf(s, id) + if id == other then {c.eventId} else {}
  {
    hide MR.Note, MR.Apply;
    var seen := MR.See(s, other, c.eventId);
    NoteCarries(s, other, CallbackDuplicate, id);
    NoteCarries(seen, other, CallbackOutOfOrder, id);
    NoteCarries(seen, other, CallbackTerminalIgnored, id);
    ApplyCarries(seen, other, c, id);
    assert id == other && c.eventId in MR.SeenOf(s, id) ==> MR.SeenOf(s, id) + {c.eventId} == MR.SeenOf(s, id);
  }

  /**
   A step on a payment that is over, or on a hold that is there already, is one the abstract account refuses as well.
   */
  lemma RefusalsAgree(s: MR.Store, id: string, order: Order)
    requires MI.Inv(s) && id in s.payments && !s.payments[id].status.Init?
    requires s.payments[id].accountId == order.account && s.payments[id].amount == order.amount
    ensures id in s.reservations || s.payments[id].status.Terminal() ==>
      H.Act(MI.BookOf(s), H.Place(id, order.account, order.amount)) == MI.BookOf(s)
    ensures s.payments[id].status.Terminal() ==>
      H.Act(MI.BookOf(s), H.Commit(id)) == MI.BookOf(s) && H.Act(MI.BookOf(s), H.Release(id)) == MI.BookOf(s)
  {
    hide MI.Inv;
    M.CoupledNow(s, id);
    var b := MI.BookOf(s);
    if s.payments[id].status.Terminal() && id !in s.reservations {
      assert id in b.refused && b.refused + {id} == b.refused;
    }
  }

  lemma MemoryBook(s: MR.Store, orders: map<string, Order>, m: Machine, step: Step)
    requires MemoryImplements(s, orders, m) && About(orders, step)
    ensures MI.Inv(MemoryStep(s, step)) && MI.BookOf(MemoryStep(s, step)) == Perform(MemoryMode, orders, m, step).book
  {
    hide MI.Inv, MI.BookOf, H.Act, MR.Freeze, MR.ProcessCallback, MR.FailAndRelease, MR.ClosePayment;
    var id := step.id;
    assert OrderOk(s, id, orders[id], m.spent);
    M.OpSimulates(s, OpOf(step));
    M.DoKeeps(s, OpOf(step));
    RefusalsAgree(s, id, orders[id]);
    if !s.payments[id].status.Terminal() {
      ZeroYet(s, id);
    }
  }

  lemma ZeroYet(s: MR.Store, id: string)
    requires MI.Inv(s) && id in s.payments && !s.payments[id].status.Terminal()
    ensures s.payments[id].lastCallback == 0
  {
    M.CoupledNow(s, id);
    hide MI.Inv;
  }

  lemma MemoryOrder(s: MR.Store, orders: map<string, Order>, m: Machine, step: Step, id: string)
    requires MemoryImplements(s, orders, m) && About(orders, step) && id in orders
    ensures OrderOk(MemoryStep(s, step), id, orders[id], Perform(MemoryMode, orders, m, step).spent)
  {
    hide MI.Inv, MI.BookOf, H.Act, MR.Freeze, MR.ProcessCallback, MR.FailAndRelease, MR.ClosePayment;
    assert OrderOk(s, id, orders[id], m.spent) && OrderOk(s, step.id, orders[step.id], m.spent);
    match step.verb
    case Hold => FreezeCarries(s, step.id, id);
    case Told(callback) => ToldCarries(s, step.id, callback, id);
    case Fail(reason) => FailCarries(s, step.id, reason, id);
    case Close => CloseCarries(s, step.id, id);
  }

  lemma MemoryKeeps(s: MR.Store, orders: map<string, Order>, m: Machine, step: Step)
    requires MemoryImplements(s, orders, m) && About(orders, step)
    ensures MemoryImplements(MemoryStep(s, step), orders, Perform(MemoryMode, orders, m, step))
  {
    hide MI.Inv, MI.BookOf, H.Act, OrderOk, MemoryStep, Perform;
    MemoryBook(s, orders, m, step);
    forall id | id in orders
      ensures OrderOk(MemoryStep(s, step), id, orders[id], Perform(MemoryMode, orders, m, step).spent)
    {
      MemoryOrder(s, orders, m, step, id);
    }
  }

  /**
   Freezes, callbacks of any kind, failures and closes, in any order: the store carries out the machine, step by step.
   */
  lemma {:induction false} MemoryRefines(s: MR.Store, orders: map<string, Order>, m: Machine, steps: seq<Step>)
    requires MemoryImplements(s, orders, m) && AllAbout(orders, steps)
    ensures MemoryImplements(MemoryAll(s, steps), orders, PerformAll(MemoryMode, orders, m, steps))
    decreases |steps|
  {
    hide MemoryImplements, MemoryStep, Perform;
    if steps != [] {
      MemoryKeeps(s, orders, m, steps[0]);
      MemoryRefines(MemoryStep(s, steps[0]), orders, Perform(MemoryMode, orders, m, steps[0]), steps[1..]);
    }
  }
}

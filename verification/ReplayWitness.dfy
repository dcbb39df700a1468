/**
 In the concurrent memory mode every request can be served: it gets its key's lock as soon as nobody of its key is
 inside, its steps come to an end, and it leaves no trace in the lock table.  So a replay is something that happens.
 */
module ReplayWitness {
  import opened Domain
  import opened MemoryRules
  import opened LocalCreate
  import opened ReplayVisibility
  import I = MemoryInvariant
  import L = LockTable
  import M = MemoryRuns
  import P = PaymentService

  /** Some run leads from one world to the other. */
  ghost predicate Leads(w: World, w': World) {
    Inv(w) && exists events: seq<Event> :: w' == Run(w, events)
  }

  lemma {:induction false} RunAppend(w: World, events: seq<Event>, e: Event)
    requires Inv(w)
    ensures Indexed(Run(w, events).store) && Run(w, events + [e]) == Do(Run(w, events), e)
    decreases |events|
  {
    hide Inv, Do;
    DoKeeps(Run(w, events), e);
    if events == [] {
      assert [e][1..] == [] && events + [e] == [e];
    } else {
      DoKeeps(w, events[0]);
      assert (events + [e])[1..] == events[1..] + [e];
      RunAppend(Do(w, events[0]), events[1..], e);
    }
  }

  lemma LeadsNowhere(w: World)
    requires Inv(w)
    ensures Leads(w, w)
  {
    hide Inv;
    assert w == Run(w, []);
  }

  lemma LeadsOn(w: World, w': World, e: Event)
    requires Leads(w, w')
    ensures Inv(w') && Indexed(w'.store) && Leads(w, Do(w', e)) && Inv(Do(w', e))
  {
    hide Inv, Do, Run;
    var events: seq<Event> :| w' == Run(w, events);
    RunAppend(w, events, e);
    DoKeeps(w', e);
  }

  /** Nobody of this key is inside. */
  ghost predicate Vacant(w: World, key: string) {
    forall u :: IsInside(w.lock, u) ==> w.lock.threads[u].key != key
  }

  /** A request arrives and, its key being vacant, gets in. */
  lemma GetsIn(w0: World, w: World, t: nat, input: Input, id: string) returns (r: World)
    requires Leads(w0, w) && t !in w.lock.threads && Valid(input) && id !in w.issued && Vacant(w, input.key)
    ensures Leads(w0, r) && Inv(r) && r.store == w.store && r.issued == w.issued + {id}
    ensures t in r.calls && r.calls[t] == Call(input, id, Creating) && r.lock.threads.Keys == w.lock.threads.Keys + {t}
    ensures forall u :: u in w.lock.threads ==> r.lock.threads[u] == w.lock.threads[u]
  {
    hide Inv, Leads, Valid, L.Inv;
    LeadsOn(w0, w, Arrive(t, input));
    var w1 := Do(w, Arrive(t, input));
    LocksOk(w1);
    assert Vacant(w1, input.key);
    LeadsOn(w0, w1, Enter(t, id));
    EntersVacant(w1, t, id);
    r := Do(w1, Enter(t, id));
  }

  lemma LocksOk(w: World)
    requires Inv(w)
    ensures L.Inv(w.lock) && w.inputs.Keys == w.lock.threads.Keys
    ensures forall t :: t in w.lock.threads ==> w.inputs[t].key == w.lock.threads[t].key
  {
    hide L.Inv, I.Inv, CallsOk, IdsOk, StagesOk, KeysOk, NamesOk, Stamped, Valid;
  }

  lemma EntersVacant(w: World, t: nat, id: string)
    requires L.Inv(w.lock) && t in w.inputs && t in w.lock.threads && w.lock.threads[t].place.Waiting?
    requires id !in w.issued && Vacant(w, w.lock.threads[t].key)
    ensures var r := Entered(w, t, id);
      && t in r.calls && r.calls[t] == Call(w.inputs[t], id, Creating) && r.store == w.store
      && r.issued == w.issued + {id} && r.lock.threads.Keys == w.lock.threads.Keys
      && (forall u :: u in w.lock.threads && u != t ==> r.lock.threads[u] == w.lock.threads[u])
  {
    hide L.Inv;
    assert L.Vacant(w.lock, w.lock.threads[t].key) by {
      assert forall u :: L.IsAt(w.lock, u, L.Inside) <==> IsInside(w.lock, u);
    }
    L.VacantIsTaken(w.lock, t);
  }

  /** A call whose every step has been made alone. */
  function Served(w: World, t: nat): World
    requires I.Inv(w.store) && t in w.calls && w.calls[t].input.amount > 0
  {
    var end := P.Alone(w.store, w.calls[t]);
    w.(store := end.0, calls := w.calls[t := w.calls[t].(stage := Done(end.1))])
  }

  lemma StoreOk(w: World, t: nat)
    requires Inv(w) && t in w.calls
    ensures I.Inv(w.store) && Valid(w.calls[t].input) && w.calls[t].input.amount > 0
  {
    hide L.Inv, I.Inv, IdsOk, StagesOk, KeysOk, NamesOk, Stamped;
    InputAt(w, t);
  }

  /** A call inside its section comes to its end. */
  lemma Finishes(w0: World, w: World, t: nat) returns (r: World)
    requires Leads(w0, w) && Inv(w) && t in w.calls
    ensures I.Inv(w.store) && w.calls[t].input.amount > 0
    ensures Leads(w0, r) && Inv(r) && r == Served(w, t)
    decreases P.Rank(w.calls[t].stage)
  {
    hide Inv, Leads, Next, I.Inv, Valid;
    StoreOk(w, t);
    if w.calls[t].stage.Done? {
      r := w;
      assert w.calls == w.calls[t := w.calls[t]];
      return;
    }
    LeadsOn(w0, w, Advance(t));
    P.Descends(w.store, w.calls[t]);
    var w1 := Do(w, Advance(t));
    r := Finishes(w0, w1, t);
    assert w1.calls[t := r.calls[t]] == w.calls[t := r.calls[t]];
  }

  /** A finished call leaves its section and the table. */
  lemma GetsOut(w0: World, w: World, t: nat) returns (r: World)
    requires Leads(w0, w) && Inv(w) && t in w.calls && w.calls[t].stage.Done?
    ensures Leads(w0, r) && Inv(r) && r.store == w.store && r.issued == w.issued && t !in r.lock.threads
    ensures r.lock.threads == w.lock.threads - {t}
  {
    hide Inv, Leads;
    InsideOk(w, t);
    LeadsOn(w0, w, Leave(t));
    var w1 := Do(w, Leave(t));
    LeadsOn(w0, w1, Forget(t));
    r := Do(w1, Forget(t));
    assert w.lock.threads[t := w1.lock.threads[t]] - {t} == w.lock.threads - {t};
  }

  lemma InsideOk(w: World, t: nat)
    requires Inv(w) && t in w.calls
    ensures IsInside(w.lock, t)
  {
    hide L.Inv, I.Inv, InputsOk, IdsOk, StagesOk, KeysOk, NamesOk, Stamped;
  }

  /**
   From any reachable world, a request whose key is vacant can be served by its own steps alone: it does what it would
   have done with nobody around, and afterwards the lock table has the threads it had before.
   */
  lemma VacantIsServed(w0: World, w: World, t: nat, input: Input, id: string) returns (done: World, after: World)
    requires Leads(w0, w) && t !in w.lock.threads && Valid(input) && id !in w.issued && Vacant(w, input.key)
    ensures I.Inv(w.store)
    ensures var end := P.Alone(w.store, Call(input, id, Creating));
      && Leads(w0, done) && t in done.calls && done.calls[t] == Call(input, id, Done(end.1)) && done.store == end.0
      && Leads(w0, after) && after.store == end.0 && after.issued == w.issued + {id}
      && after.lock.threads == w.lock.threads
  {
    hide Inv, Leads, I.Inv, Valid;
    var r := GetsIn(w0, w, t, input, id);
    StoreOk(r, t);
    done := Finishes(w0, r, t);
    after := GetsOut(w0, done, t);
    assert r.lock.threads - {t} == w.lock.threads;
  }

  /**
   A replay happens: of two requests with one key and the same fields, made one after the other under a key that is new
   and vacant, the second is answered with the first one's payment, and changes nothing.
   */
  lemma ReplayHappens(w: World, t: nat, u: nat, input: Input, second: Input, id: string, id2: string)
    returns (first: World, last: World)
    requires Inv(w) && t !in w.lock.threads && u !in w.lock.threads && Vacant(w, input.key)
    requires Valid(input) && id !in w.issued && input.key !in w.store.idempotency
    requires Valid(second) && second.key == input.key && id2 !in w.issued + {id} && CleanInput(second)
    ensures Leads(w, first) && t in first.calls && first.calls[t].stage.Done? && first.calls[t].stage.answer.Created?
    ensures Leads(w, last) && u in last.calls && last.store == first.store
    ensures var p := first.calls[t].stage.answer.payment;
      && CameFrom(p, input)
      && last.calls[u].stage == Done(if CameFrom(p, second) then Replayed(p) else Refused(IdempotencyConflict))
  {
    hide Inv, Leads, I.Inv, Valid, CameFrom, CleanInput;
    LeadsNowhere(w);
    NewIsUnused(w, id);
    var after, end;
    first, after := VacantIsServed(w, w, t, input, id);
    last, end := VacantIsServed(w, after, u, second, id2);
    P.SecondRequest(w.store, input, id, second, id2);
  }

  lemma NewIsUnused(w: World, id: string)
    requires Inv(w) && id !in w.issued
    ensures I.Inv(w.store) && id !in w.store.payments
  {
    hide L.Inv, I.Inv, InputsOk, CallsOk, StagesOk, KeysOk, NamesOk, Stamped;
  }

  /** Callbacks, closes, notes and resets happen in the world as they happen in the store, at any moment. */
  lemma {:induction false} OutsidersAct(w: World, ops: seq<M.MemoryOp>)
    requires Inv(w) && forall i :: 0 <= i < |ops| ==> Outside(ops[i])
    ensures I.Inv(w.store) && M.AllAllowed(ops)
    ensures var r := Run(w, seq(|ops|, i requires 0 <= i < |ops| => Elsewhere(ops[i])));
      r == w.(store := M.Run(w.store, ops))
    decreases |ops|
  {
    hide Inv, I.Inv, M.Do;
    OutsideOk(w);
    if ops != [] {
      DoKeeps(w, Elsewhere(ops[0]));
      M.DoKeeps(w.store, ops[0]);
      OutsidersAct(Do(w, Elsewhere(ops[0])), ops[1..]);
      var events := seq(|ops|, i requires 0 <= i < |ops| => Elsewhere(ops[i]));
      assert events[1..] == seq(|ops[1..]|, i requires 0 <= i < |ops[1..]| => Elsewhere(ops[1..][i]));
    }
  }

  lemma OutsideOk(w: World)
    requires Inv(w)
    ensures I.Inv(w.store)
  {
    hide L.Inv, I.Inv, InputsOk, CallsOk, IdsOk, StagesOk, KeysOk, NamesOk, Stamped;
  }
}

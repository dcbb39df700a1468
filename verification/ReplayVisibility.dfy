/**
 The memory mode under concurrency: any number of Create calls, each holding its key's lock over its store operations,
 with callbacks, closes, notes and resets between any two of them.  What can a replay of a key observe?
 */
module ReplayVisibility {
  import opened Domain
  import opened MemoryRules
  import opened LocalCreate
  import I = MemoryInvariant
  import L = LockTable
  import M = MemoryRuns

  /** `inputs` are the requests under way; `calls` those whose thread is inside its key's section. */
  datatype World = World(
    lock: L.Table, store: Store, inputs: map<nat, Input>, calls: map<nat, Call>, issued: set<string>)

  datatype Event =
    | Arrive(thread: nat, input: Input)
    | Enter(thread: nat, id: string)
    | Advance(thread: nat)
    | Leave(thread: nat)
    | Forget(thread: nat)
    | Elsewhere(op: M.MemoryOp)

  function Empty(): World {
    World(L.Empty(), EmptyStore(), map[], map[], {})
  }

  predicate IsInside(lock: L.Table, t: nat) {
    t in lock.threads && lock.threads[t].place.Inside?
  }

  /** A thread that gets its lock draws a payment id never drawn before. */
  function Entered(w: World, t: nat, id: string): World {
    var lock := L.Do(w.lock, L.Lock(t));
    if t in w.inputs && IsInside(lock, t) && !IsInside(w.lock, t) && id !in w.issued
    then w.(lock := lock, calls := w.calls[t := Call(w.inputs[t], id, Creating)], issued := w.issued + {id})
    else w
  }

  function Advanced(w: World, t: nat): World
    requires Indexed(w.store) && t in w.calls
  {
    var next := Next(w.store, w.calls[t]);
    w.(store := next.0, calls := w.calls[t := w.calls[t].(stage := next.1)])
  }

  function Do(w: World, e: Event): World
    requires Indexed(w.store)
  {
    match e
    case Arrive(t, input) =>
      if Valid(input) && t !in w.lock.threads
      then w.(lock := L.Do(w.lock, L.Register(t, input.key)), inputs := w.inputs[t := input])
      else w
    case Enter(t, id) => Entered(w, t, id)
    case Advance(t) => if t in w.calls then Advanced(w, t) else w
    case Leave(t) =>
      if t in w.calls && w.calls[t].stage.Done?
      then w.(lock := L.Do(w.lock, L.Unlock(t)), calls := w.calls - {t})
      else w
    case Forget(t) =>
      if t in w.lock.threads && w.lock.threads[t].place.Leaving?
      then w.(lock := L.Do(w.lock, L.Deregister(t)), inputs := w.inputs - {t})
      else w
    case Elsewhere(op) => if Outside(op) then w.(store := M.Do(w.store, op)) else w
  }

  // ---- The invariant ----

  ghost predicate InputsOk(lock: L.Table, inputs: map<nat, Input>) {
    && inputs.Keys == lock.threads.Keys
    && (forall t :: t in inputs ==> inputs[t].key == lock.threads[t].key && Valid(inputs[t]))
  }

  ghost predicate CallsOk(lock: L.Table, inputs: map<nat, Input>, calls: map<nat, Call>) {
    && (forall t :: t in calls <==> IsInside(lock, t))
    && (forall t :: t in calls ==> t in inputs && calls[t].input == inputs[t])
  }

  ghost predicate IdsOk(calls: map<nat, Call>, issued: set<string>, store: Store) {
    && (forall t :: t in calls ==> calls[t].id in issued)
    && (forall t, u | t in calls && u in calls :: calls[t].id == calls[u].id ==> t == u)
    && store.payments.Keys <= issued
  }

  ghost predicate StagesOk(calls: map<nat, Call>, store: Store) {
    forall t :: t in calls ==> StageOk(store, calls[t])
  }

  /** A call in the middle of creating this payment under this key. */
  ghost predicate Owned(calls: map<nat, Call>, key: string, id: string) {
    exists t :: t in calls && calls[t].input.key == key && calls[t].id == id && Midway(calls[t].stage)
  }

  ghost predicate KeysOk(calls: map<nat, Call>, store: Store) {
    forall k :: k in store.idempotency ==>
      Quiet(store, store.idempotency[k].paymentId) || Owned(calls, k, store.idempotency[k].paymentId)
  }

  /** A call's payment is recorded under the call's own key only. */
  ghost predicate NamesOk(calls: map<nat, Call>, store: Store) {
    forall t, k | t in calls && k in store.idempotency :: store.idempotency[k].paymentId == calls[t].id ==>
        k == calls[t].input.key
  }

  ghost predicate Inv(w: World) {
    && L.Inv(w.lock) && I.Inv(w.store)
    && InputsOk(w.lock, w.inputs) && CallsOk(w.lock, w.inputs, w.calls)
    && IdsOk(w.calls, w.issued, w.store) && StagesOk(w.calls, w.store) && KeysOk(w.calls, w.store)
    && NamesOk(w.calls, w.store) && Stamped(w.store)
  }

  lemma EmptyOk()
    ensures Inv(Empty())
  {
    L.EmptyInv();
    I.EmptyInv();
    hide I.Inv, L.Inv;
  }

  // ---- Steps on the lock table ----

  lemma ArriveLocks(lock: L.Table, inputs: map<nat, Input>, calls: map<nat, Call>, t: nat, input: Input)
    requires InputsOk(lock, inputs) && CallsOk(lock, inputs, calls) && Valid(input) && t !in lock.threads
    ensures InputsOk(L.Do(lock, L.Register(t, input.key)), inputs[t := input])
    ensures CallsOk(L.Do(lock, L.Register(t, input.key)), inputs[t := input], calls)
  {
    hide Valid;
  }

  lemma LeaveLocks(lock: L.Table, inputs: map<nat, Input>, calls: map<nat, Call>, t: nat)
    requires InputsOk(lock, inputs) && CallsOk(lock, inputs, calls) && t in calls
    ensures InputsOk(L.Do(lock, L.Unlock(t)), inputs) && CallsOk(L.Do(lock, L.Unlock(t)), inputs, calls - {t})
  {
    hide Valid;
    assert IsInside(lock, t);
  }

  lemma ForgetLocks(lock: L.Table, inputs: map<nat, Input>, calls: map<nat, Call>, t: nat)
    requires InputsOk(lock, inputs) && CallsOk(lock, inputs, calls)
    requires t in lock.threads && lock.threads[t].place.Leaving?
    ensures InputsOk(L.Do(lock, L.Deregister(t)), inputs - {t})
    ensures CallsOk(L.Do(lock, L.Deregister(t)), inputs - {t}, calls)
  {
    hide Valid;
    assert !IsInside(lock, t);
  }

  lemma EnterLocks(w: World, t: nat, id: string)
    requires InputsOk(w.lock, w.inputs) && CallsOk(w.lock, w.inputs, w.calls)
    ensures var r := Entered(w, t, id); InputsOk(r.lock, r.inputs) && CallsOk(r.lock, r.inputs, r.calls)
  {
    hide Valid, L.Do;
    LockedThreads(w.lock, t);
  }

  lemma LockedThreads(lock: L.Table, t: nat)
    ensures var r := L.Do(lock, L.Lock(t));
      && r.threads.Keys == lock.threads.Keys
      && (forall u :: u in lock.threads ==> r.threads[u].key == lock.threads[u].key)
      && (forall u :: u != t ==> (IsInside(r, u) <==> IsInside(lock, u)))
  {
  }

  lemma EnterCalls(w: World, t: nat, id: string)
    requires L.Inv(w.lock) && CallsOk(w.lock, w.inputs, w.calls) && Indexed(w.store)
    requires IdsOk(w.calls, w.issued, w.store) && StagesOk(w.calls, w.store) && KeysOk(w.calls, w.store)
    requires NamesOk(w.calls, w.store)
    ensures var r := Entered(w, t, id);
      && r.store == w.store && L.Inv(r.lock)
      && IdsOk(r.calls, r.issued, r.store) && StagesOk(r.calls, r.store) && KeysOk(r.calls, r.store)
         && NamesOk(r.calls, r.store)
  {
    hide L.Inv, L.Do, KeysOk;
    L.DoKeeps(w.lock, L.Lock(t));
    var r := Entered(w, t, id);
    if r != w {
      assert t !in w.calls;
      OwnersStay(w.calls, r.calls, w.store);
    }
  }

  lemma EnterKeeps(w: World, t: nat, id: string)
    requires Inv(w)
    ensures Inv(Entered(w, t, id))
  {
    hide L.Inv, I.Inv, L.Do, InputsOk, CallsOk, IdsOk, StagesOk, KeysOk, NamesOk, Stamped, Entered;
    M.InvIndexed(w.store);
    EnterLocks(w, t, id);
    EnterCalls(w, t, id);
  }

  /** Calls that come, go when done, or change only threads without an unfinished payment keep every key's owner. */
  lemma OwnersStay(calls: map<nat, Call>, calls': map<nat, Call>, store: Store)
    requires KeysOk(calls, store)
    requires forall t :: t in calls && Midway(calls[t].stage) ==> t in calls' && calls'[t] == calls[t]
    ensures KeysOk(calls', store)
  {
    forall k | k in store.idempotency && !Quiet(store, store.idempotency[k].paymentId)
      ensures Owned(calls', k, store.idempotency[k].paymentId)
    {
      var id := store.idempotency[k].paymentId;
      var t :| t in calls && calls[t].input.key == k && calls[t].id == id && Midway(calls[t].stage);
      assert calls'[t] == calls[t];
    }
  }

  // ---- Steps on the store ----

  lemma StagesForward(calls: map<nat, Call>, s: Store, s': Store)
    requires StagesOk(calls, s) && (forall t :: t in calls ==> Forward(s, s', calls[t].id))
    ensures StagesOk(calls, s')
  {
    forall t | t in calls
      ensures StageOk(s', calls[t])
    {
      StageStays(s, s', calls[t]);
    }
  }

  lemma ElsewhereKeeps(w: World, op: M.MemoryOp)
    requires Inv(w) && Outside(op)
    ensures Indexed(w.store) && Inv(w.(store := M.Do(w.store, op)))
  {
    hide L.Inv, I.Inv, M.Do, InputsOk, CallsOk, StagesOk, KeysOk, NamesOk, Stamped, Forward;
    M.InvIndexed(w.store);
    M.DoKeeps(w.store, op);
    forall id
      ensures Forward(w.store, M.Do(w.store, op), id)
    {
      OutsideForward(w.store, op, id);
    }
    StagesForward(w.calls, w.store, M.Do(w.store, op));
    ElsewhereNames(w.calls, w.store, op);
    OutsideStamped(w.store, op);
  }

  lemma ElsewhereNames(calls: map<nat, Call>, s: Store, op: M.MemoryOp)
    requires I.Inv(s) && Indexed(s) && Outside(op)
    requires KeysOk(calls, s) && NamesOk(calls, s)
    ensures KeysOk(calls, M.Do(s, op)) && NamesOk(calls, M.Do(s, op)) && M.Do(s, op).payments.Keys <= s.payments.Keys
  {
    hide I.Inv, Midway;
    OutsideKeys(s, op);
    if !op.Reset? {
      hide M.Do, Quiet;
      var s' := M.Do(s, op);
      forall k | k in s'.idempotency
        ensures Quiet(s', s'.idempotency[k].paymentId) || Owned(calls, k, s'.idempotency[k].paymentId)
      {
        var id := s.idempotency[k].paymentId;
        OutsideForward(s, op, id);
        KeptQuiet(s, s', id);
      }
    }
  }

  lemma KeptQuiet(s: Store, s': Store, id: string)
    requires Forward(s, s', id) && id in s.payments && SameKeys(s, s')
    ensures Quiet(s, id) ==> Quiet(s', id)
  {
    assert id in s'.payments.Keys;
  }

  lemma AdvanceStages(w: World, t: nat)
    requires I.Inv(w.store) && Indexed(w.store) && t in w.calls
    requires StagesOk(w.calls, w.store) && IdsOk(w.calls, w.issued, w.store)
    ensures StagesOk(Advanced(w, t).calls, Advanced(w, t).store)
  {
    hide I.Inv, Next, StageOk, Forward;
    var r := Advanced(w, t);
    NextOk(w.store, w.calls[t]);
    forall u | u in r.calls
      ensures StageOk(r.store, r.calls[u])
    {
      if u != t {
        NextForward(w.store, w.calls[t], w.calls[u].id);
        StageStays(w.store, r.store, w.calls[u]);
      }
    }
  }

  lemma AdvanceIds(w: World, t: nat)
    requires Indexed(w.store) && t in w.calls && IdsOk(w.calls, w.issued, w.store)
    ensures IdsOk(Advanced(w, t).calls, Advanced(w, t).issued, Advanced(w, t).store)
  {
    hide Next;
    NextNames(w.store, w.calls[t]);
  }

  /** The key's section is entered by one thread at a time. */
  lemma OneInside(w: World, t: nat, u: nat)
    requires L.Inv(w.lock) && InputsOk(w.lock, w.inputs) && CallsOk(w.lock, w.inputs, w.calls)
    requires t in w.calls && u in w.calls && w.calls[t].input.key == w.calls[u].input.key
    ensures t == u
  {
    hide L.Counted, L.InUse, Valid;
    assert IsInside(w.lock, t) && IsInside(w.lock, u);
  }

  /** The record of a key after a step: kept and still quiet or owned, or written by this very step. */
  lemma AdvanceKey(w: World, t: nat, k: string)
    requires Indexed(w.store) && t in w.calls && Indexed(Advanced(w, t).store)
    requires StageOk(Advanced(w, t).store, Advanced(w, t).calls[t])
    requires KeysOk(w.calls, w.store) && NamesOk(w.calls, w.store) && k in Advanced(w, t).store.idempotency
    ensures var r := Advanced(w, t);
      Quiet(r.store, r.store.idempotency[k].paymentId) || Owned(r.calls, k, r.store.idempotency[k].paymentId)
  {
    hide Next, Forward, Quiet, Fingerprint;
    var r, c := Advanced(w, t), w.calls[t];
    var id := r.store.idempotency[k].paymentId;
    NextNames(w.store, c);
    NextAhead(w.store, c);
    if id == c.id {
      assert k == c.input.key;
      if Midway(r.calls[t].stage) {
        assert r.calls[t].id == id;
      }
    } else {
      assert k in w.store.idempotency && w.store.idempotency[k].paymentId == id;
      if Quiet(w.store, id) {
        NextForward(w.store, c, id);
        StaysQuiet(w.store, r.store, id);
      } else {
        var u :| u in w.calls && w.calls[u].input.key == k && w.calls[u].id == id && Midway(w.calls[u].stage);
        assert r.calls[u] == w.calls[u];
      }
    }
  }

  lemma StaysQuiet(s: Store, s': Store, id: string)
    requires Forward(s, s', id) && Quiet(s, id) && id in s'.payments
    ensures Quiet(s', id)
  {
  }

  lemma AdvanceNames(w: World, t: nat)
    requires Indexed(w.store) && t in w.calls && IdsOk(w.calls, w.issued, w.store) && NamesOk(w.calls, w.store)
    ensures NamesOk(Advanced(w, t).calls, Advanced(w, t).store)
  {
    hide Next, Fingerprint;
    NextNames(w.store, w.calls[t]);
  }

  lemma AdvanceStore(w: World, t: nat)
    requires I.Inv(w.store) && t in w.calls && Valid(w.calls[t].input)
    ensures Indexed(w.store) && I.Inv(Advanced(w, t).store) && Indexed(Advanced(w, t).store)
  {
    hide I.Inv, Next;
    NextKeeps(w.store, w.calls[t]);
    M.InvIndexed(Advanced(w, t).store);
  }

  lemma AdvanceStamps(w: World, t: nat)
    requires Indexed(w.store) && Stamped(w.store) && t in w.calls && Valid(w.calls[t].input)
    ensures Stamped(Advanced(w, t).store)
  {
    hide Next, Valid;
    NextStamped(w.store, w.calls[t]);
  }

  lemma AdvanceLocks(w: World, t: nat)
    requires Indexed(w.store) && t in w.calls && CallsOk(w.lock, w.inputs, w.calls)
    ensures var r := Advanced(w, t); r.lock == w.lock && r.inputs == w.inputs && CallsOk(r.lock, r.inputs, r.calls)
  {
    hide Next;
  }

  lemma AdvanceKeys(w: World, t: nat)
    requires Indexed(w.store) && t in w.calls && Indexed(Advanced(w, t).store)
    requires StagesOk(Advanced(w, t).calls, Advanced(w, t).store)
    requires KeysOk(w.calls, w.store) && NamesOk(w.calls, w.store)
    ensures KeysOk(Advanced(w, t).calls, Advanced(w, t).store)
  {
    hide Next, StageOk, Quiet, Owned, NamesOk;
    forall k | k in Advanced(w, t).store.idempotency
      ensures var r := Advanced(w, t);
        Quiet(r.store, r.store.idempotency[k].paymentId) || Owned(r.calls, k, r.store.idempotency[k].paymentId)
    {
      AdvanceKey(w, t, k);
    }
  }

  lemma AdvanceKeeps(w: World, t: nat)
    requires Inv(w) && t in w.calls
    ensures Indexed(w.store) && Inv(Advanced(w, t))
  {
    hide L.Inv, I.Inv, InputsOk, CallsOk, IdsOk, StagesOk, KeysOk, NamesOk, Stamped, Advanced, Next, Valid;
    InputAt(w, t);
    M.InvIndexed(w.store);
    AdvanceStore(w, t);
    AdvanceStamps(w, t);
    AdvanceLocks(w, t);
    AdvanceStages(w, t);
    AdvanceIds(w, t);
    AdvanceNames(w, t);
    AdvanceKeys(w, t);
  }

  lemma InputAt(w: World, t: nat)
    requires InputsOk(w.lock, w.inputs) && CallsOk(w.lock, w.inputs, w.calls) && t in w.calls
    ensures Valid(w.calls[t].input) && w.calls[t].input.key == w.lock.threads[t].key
  {
    hide Valid;
  }

  lemma LeaveCalls(calls: map<nat, Call>, issued: set<string>, store: Store, t: nat)
    requires IdsOk(calls, issued, store) && StagesOk(calls, store) && KeysOk(calls, store) && NamesOk(calls, store)
    requires t in calls && calls[t].stage.Done?
    ensures IdsOk(calls - {t}, issued, store) && StagesOk(calls - {t}, store)
    ensures KeysOk(calls - {t}, store) && NamesOk(calls - {t}, store)
  {
    OwnersStay(calls, calls - {t}, store);
    hide KeysOk, StageOk;
  }

  lemma LeaveKeeps(w: World, t: nat)
    requires Inv(w) && t in w.calls && w.calls[t].stage.Done?
    ensures Inv(w.(lock := L.Do(w.lock, L.Unlock(t)), calls := w.calls - {t}))
  {
    hide L.Inv, I.Inv, L.Do, InputsOk, CallsOk, StagesOk, KeysOk, IdsOk, NamesOk, Stamped;
    LeaveLocks(w.lock, w.inputs, w.calls, t);
    L.DoKeeps(w.lock, L.Unlock(t));
    LeaveCalls(w.calls, w.issued, w.store, t);
  }

  lemma ArriveKeeps(w: World, t: nat, input: Input)
    requires Inv(w) && Valid(input) && t !in w.lock.threads
    ensures Inv(w.(lock := L.Do(w.lock, L.Register(t, input.key)), inputs := w.inputs[t := input]))
  {
    hide L.Inv, I.Inv, L.Do, InputsOk, CallsOk, IdsOk, StagesOk, KeysOk, NamesOk, Stamped;
    ArriveLocks(w.lock, w.inputs, w.calls, t, input);
    L.DoKeeps(w.lock, L.Register(t, input.key));
  }

  lemma ForgetKeeps(w: World, t: nat)
    requires Inv(w) && t in w.lock.threads && w.lock.threads[t].place.Leaving?
    ensures Inv(w.(lock := L.Do(w.lock, L.Deregister(t)), inputs := w.inputs - {t}))
  {
    hide L.Inv, I.Inv, L.Do, InputsOk, CallsOk, IdsOk, StagesOk, KeysOk, NamesOk, Stamped;
    ForgetLocks(w.lock, w.inputs, w.calls, t);
    L.DoKeeps(w.lock, L.Deregister(t));
  }

  /** Every step of anybody keeps the invariant. */
  lemma DoKeeps(w: World, e: Event)
    requires Inv(w)
    ensures Indexed(w.store) && Inv(Do(w, e))
  {
    hide L.Inv, I.Inv, InputsOk, CallsOk, IdsOk, StagesOk, KeysOk, NamesOk, Stamped, L.Do, M.Do, Entered, Advanced,
      Valid;
    M.InvIndexed(w.store);
    match e
    case Arrive(t, input) => if Valid(input) && t !in w.lock.threads { ArriveKeeps(w, t, input); }
    case Enter(t, id) => EnterKeeps(w, t, id);
    case Advance(t) => if t in w.calls { AdvanceKeeps(w, t); }
    case Leave(t) => if t in w.calls && w.calls[t].stage.Done? { LeaveKeeps(w, t); }
    case Forget(t) => if t in w.lock.threads && w.lock.threads[t].place.Leaving? { ForgetKeeps(w, t); }
    case Elsewhere(op) => if Outside(op) { ElsewhereKeeps(w, op); }
  }

  function Run(w: World, events: seq<Event>): (r: World)
    requires Inv(w)
    ensures Inv(r)
    decreases |events|
  {
    if events == [] then w
    else
      DoKeeps(w, events[0]);
      Run(Do(w, events[0]), events[1..])
  }

  function Reached(events: seq<Event>): (w: World)
    ensures Inv(w)
  {
    EmptyOk();
    Run(Empty(), events)
  }

  // ---- What a replay can see ----

  /**
   In every reachable state, the payment of a key whose lock nobody holds is terminal, or processing with its money
   frozen; in particular it is never INIT.
   */
  lemma UnlockedIsQuiet(events: seq<Event>, key: string)
    requires var w := Reached(events);
      key in w.store.idempotency && (forall t :: IsInside(w.lock, t) ==> w.lock.threads[t].key != key)
    ensures Quiet(Reached(events).store, Reached(events).store.idempotency[key].paymentId)
  {
    hide Reached, L.Inv, I.Inv, StageOk, Quiet, Valid;
    var w := Reached(events);
    forall t | t in w.calls
      ensures w.calls[t].input.key != key
    {
      InputAt(w, t);
      assert IsInside(w.lock, t);
    }
  }

  /**
   Hence a Create that finds its key taken replays a payment that is terminal, or processing with its money frozen.
   */
  lemma ReplayNeverSeesInit(events: seq<Event>, t: nat)
    requires t in Reached(events).calls && Reached(events).calls[t].stage.Creating?
    ensures Indexed(Reached(events).store)
    ensures var w := Reached(events);
      var c := w.calls[t];
      var next := Next(w.store, c);
      next.1.Done? && next.1.answer.Replayed? ==>
        var p := next.1.answer.payment;
        && next.0 == w.store && c.input.key in w.store.idempotency
        && var id := w.store.idempotency[c.input.key].paymentId;
        && Quiet(w.store, id) && p == w.store.payments[id]
        && !p.status.Init? && (p.status.Processing? ==> HoldsFunds(w.store, id))
  {
    hide Reached, L.Inv, I.Inv, StageOk, Valid, Append, Quiet, Fingerprint, Midway;
    var w := Reached(events);
    M.InvIndexed(w.store);
    var c := w.calls[t];
    if c.input.key in w.store.idempotency {
      var id := w.store.idempotency[c.input.key].paymentId;
      forall u | u in w.calls && w.calls[u].input.key == c.input.key
        ensures u == t
      {
        OneInside(w, t, u);
      }
      assert Quiet(w.store, id) by { NotMidway(c.stage); }
      QuietShows(w.store, id);
    }
  }

  lemma NotMidway(stage: Stage)
    requires stage.Creating?
    ensures !Midway(stage)
  {
  }

  lemma QuietShows(s: Store, id: string)
    requires Quiet(s, id)
    ensures id in s.payments && !s.payments[id].status.Init?
    ensures s.payments[id].status.Processing? ==> HoldsFunds(s, id)
  {
  }

  /**
   And the answer under a known key goes by the fields of the two requests: the key's payment for the same fields, a
   conflict for any other ones.
   */
  lemma ReplayIsSameRequest(events: seq<Event>, t: nat)
    requires t in Reached(events).calls && Reached(events).calls[t].stage.Creating?
    requires Reached(events).calls[t].input.key in Reached(events).store.idempotency
    ensures Indexed(Reached(events).store)
    ensures var w := Reached(events);
      var c := w.calls[t];
      var p := w.store.payments[w.store.idempotency[c.input.key].paymentId];
      && (CameFrom(p, c.input) ==> Next(w.store, c) == (w.store, Done(Replayed(p))))
      && (!CameFrom(p, c.input) && CleanInput(c.input) ==>
            Next(w.store, c) == (w.store, Done(Refused(IdempotencyConflict))))
  {
    hide Reached, L.Inv, I.Inv, StageOk, Valid, Stamped, Quiet, Midway, Next;
    var w := Reached(events);
    M.InvIndexed(w.store);
    InputAt(w, t);
    KnownKeyByFields(w.store, w.calls[t]);
  }
}

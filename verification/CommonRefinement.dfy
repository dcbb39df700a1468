/**
 The memory store and the SQL account participant do the same to the money, after every step of a history, exactly as
 long as no step of it splits them.
 */
module CommonRefinement {
  import opened Domain
  import opened Tables
  import opened BranchRules
  import opened RequestMachine
  import opened MemoryMachine
  import opened SqlMachine
  import H = HoldAccount
  import B = AccountBook
  import MR = MemoryRules
  import MI = MemoryInvariant
  import M = MemoryRuns
  import S = SqlAccounts

  /** The store and the tables say the same about every request after every step. */
  ghost predicate AgreeAllAlong(s: MR.Store, db: Db, names: map<string, string>, orders: map<string, Order>,
                                orders': map<string, Order>, pays: map<string, string>, steps: seq<Step>)
    requires Renaming(names, orders, orders') && orders'.Keys == pays.Keys && AllAbout(orders, steps)
    decreases |steps|
  {
    && Alike(names, MI.BookOf(s), S.BookOf(db))
    && (steps == [] ||
        AgreeAllAlong(MemoryStep(s, steps[0]), After(db, MsgOf(orders', pays, Rename(names, steps[0]))),
                      names, orders, orders', pays, steps[1..]))
  }

  /** Both modes implement their machines on the same orders. */
  ghost predicate Paired(s: MR.Store, db: Db, names: map<string, string>, orders: map<string, Order>,
                         orders': map<string, Order>,
                         pays: map<string, string>, m: Machine, m': Machine, opening: map<string, int>)
  {
    && Placed(orders') && Renaming(names, orders, orders')
    && MemoryImplements(s, orders, m) && SqlImplements(db, orders', pays, m', opening)
  }

  lemma PairedStep(s: MR.Store, db: Db, names: map<string, string>, orders: map<string, Order>,
                   orders': map<string, Order>,
                   pays: map<string, string>, m: Machine, m': Machine, opening: map<string, int>, step: Step)
    requires Paired(s, db, names, orders, orders', pays, m, m', opening) && About(orders, step)
    ensures orders'.Keys == pays.Keys
    ensures Paired(MemoryStep(s, step), After(db, MsgOf(orders', pays, Rename(names, step))), names, orders, orders',
                   pays,
                   Perform(MemoryMode, orders, m, step), Perform(SqlMode, orders', m', Rename(names, step)), opening)
  {
    hide MI.Inv, H.Conserved, MI.BookOf, S.BookOf, S.RowsMarked, OrderOk, BarrierOk, OwnRows, Placed, Perform,
      MemoryStep, After;
    MemoryKeeps(s, orders, m, step);
    SqlKeeps(db, orders', pays, m', opening, Rename(names, step));
  }

  lemma PairedKeys(s: MR.Store, db: Db, names: map<string, string>, orders: map<string, Order>,
                   orders': map<string, Order>,
                   pays: map<string, string>, m: Machine, m': Machine, opening: map<string, int>)
    requires Paired(s, db, names, orders, orders', pays, m, m', opening)
    ensures orders'.Keys == pays.Keys && Renaming(names, orders, orders')
    ensures MI.BookOf(s) == m.book && S.BookOf(db) == m'.book
  {
    hide MI.Inv, H.Conserved, MI.BookOf, S.BookOf, S.RowsMarked, OrderOk, BarrierOk, OwnRows, Placed, Distinct;
  }

  /**
   Whatever holds, callbacks, failures and closes arrive, in any order and with any repetitions, the two modes agree on
   every balance, hold and refusal after every step if and only if no step acts in one mode only for a request that it
   matters to.
   */
  lemma {:induction false} BothModesAgree(
    s: MR.Store, db: Db, names: map<string, string>, orders: map<string, Order>, orders': map<string, Order>,
    pays: map<string, string>, m: Machine, m': Machine, opening: map<string, int>, steps: seq<Step>)
    requires Paired(s, db, names, orders, orders', pays, m, m', opening) && AllAbout(orders, steps)
    requires Alike(names, m.book, m'.book)
    ensures orders'.Keys == pays.Keys
    ensures AgreeAllAlong(s, db, names, orders, orders', pays, steps)
        <==> NoneSplits(names, orders, orders', m, m', steps)
    decreases |steps|
  {
    hide Paired, Distinct, Alike, Perform, MemoryStep, After, Splits, MI.BookOf, S.BookOf;
    PairedKeys(s, db, names, orders, orders', pays, m, m', opening);
    if steps != [] {
      var step := steps[0];
      var n, n' := Perform(MemoryMode, orders, m, step), Perform(SqlMode, orders', m', Rename(names, step));
      var s1, db1 := MemoryStep(s, step), After(db, MsgOf(orders', pays, Rename(names, step)));
      PairedStep(s, db, names, orders, orders', pays, m, m', opening, step);
      PairedKeys(s1, db1, names, orders, orders', pays, n, n', opening);
      StepAlike(names, orders, orders', m, m', step);
      if Alike(names, n.book, n'.book) {
        BothModesAgree(s1, db1, names, orders, orders', pays, n, n', opening, steps[1..]);
      }
    }
  }

  /** What both modes end with, in terms of their machines. */
  lemma BothEnds(
    s: MR.Store, db: Db, names: map<string, string>, orders: map<string, Order>, orders': map<string, Order>,
    pays: map<string, string>, m: Machine, m': Machine, opening: map<string, int>, steps: seq<Step>)
    requires Paired(s, db, names, orders, orders', pays, m, m', opening) && AllAbout(orders, steps)
    ensures orders'.Keys == pays.Keys && AllAbout(orders', RenameAll(names, steps))
    ensures MI.BookOf(MemoryAll(s, steps)) == PerformAll(MemoryMode, orders, m, steps).book
    ensures S.BookOf(SqlAll(db, orders', pays, RenameAll(names, steps)))
         == PerformAll(SqlMode, orders', m', RenameAll(names, steps)).book
  {
    hide MI.Inv, H.Conserved, MI.BookOf, S.BookOf, S.RowsMarked, OrderOk, BarrierOk, OwnRows, Placed, Distinct,
      MemoryAll, SqlAll, PerformAll;
    RenamedAbout(names, orders, orders', steps);
    MemoryRefines(s, orders, m, steps);
    SqlRefines(db, orders', pays, m', opening, RenameAll(names, steps));
  }

  /**
   A history without stale refusals ends alike in both modes if and only if no commit of it is spent in SQL and not in
   memory.
   */
  lemma EndAgreesUnlessBurned(
    s: MR.Store, db: Db, names: map<string, string>, orders: map<string, Order>, orders': map<string, Order>,
    pays: map<string, string>, m: Machine, m': Machine, opening: map<string, int>, steps: seq<Step>)
    requires Paired(s, db, names, orders, orders', pays, m, m', opening) && AllAbout(orders, steps)
    requires Alike(names, m.book, m'.book) && Linked(names, m, m') && NoneStale(orders, m, steps)
    ensures orders'.Keys == pays.Keys && AllAbout(orders', RenameAll(names, steps))
    ensures Alike(names, MI.BookOf(MemoryAll(s, steps)), S.BookOf(SqlAll(db, orders', pays, RenameAll(names, steps))))
       <==> NoneBurned(names, orders, orders', m, m', steps)
  {
    hide Alike, Linked, MemoryAll, SqlAll, PerformAll, MI.BookOf, S.BookOf, Paired;
    PairedKeys(s, db, names, orders, orders', pays, m, m', opening);
    BothEnds(s, db, names, orders, orders', pays, m, m', opening, steps);
    EndAlikeUnlessBurned(names, orders, orders', m, m', steps);
  }

  /**
   When every commit comes after its hold was placed or refused, as DTM sends its Confirms, both modes agree after every
   step and both are the plain hold / commit / release account, with equal balances in the end.
   */
  lemma OrderlyModesArePlain(
    s: MR.Store, db: Db, names: map<string, string>, orders: map<string, Order>, orders': map<string, Order>,
    pays: map<string, string>, m: Machine, m': Machine, opening: map<string, int>, steps: seq<Step>)
    requires Paired(s, db, names, orders, orders', pays, m, m', opening) && AllAbout(orders, steps)
    requires Alike(names, m.book, m'.book) && Resolved(m) && Resolved(m') && Orderly(orders, m.book, steps)
    ensures orders'.Keys == pays.Keys && AllAbout(orders', RenameAll(names, steps))
    ensures AgreeAllAlong(s, db, names, orders, orders', pays, steps)
    ensures var s', db' := MemoryAll(s, steps), SqlAll(db, orders', pays, RenameAll(names, steps));
      && MI.BookOf(s') == H.Run(MI.BookOf(s), ActionsOf(orders, steps))
      && S.BookOf(db') == H.Run(S.BookOf(db), ActionsOf(orders', RenameAll(names, steps)))
      && B.Balances(s'.accounts) == B.Balances(db'.accounts)
  {
    hide Resolved, MemoryAll, SqlAll, PerformAll, AgreeAllAlong, MI.BookOf, S.BookOf, Paired;
    PairedKeys(s, db, names, orders, orders', pays, m, m', opening);
    BothEnds(s, db, names, orders, orders', pays, m, m', opening, steps);
    OrderlyNeverSplits(names, orders, orders', m, m', steps);
    BothModesAgree(s, db, names, orders, orders', pays, m, m', opening, steps);
    OrderlyIsPlain(MemoryMode, orders, m, steps);
    OrderlyRenamed(names, orders, orders', m.book, m'.book, steps);
    OrderlyIsPlain(SqlMode, orders', m', RenameAll(names, steps));
    RunAlike(names, orders, orders', m.book, m'.book, steps);
    BalancesOf(MemoryAll(s, steps), SqlAll(db, orders', pays, RenameAll(names, steps)), names);
  }

  lemma BalancesOf(s: MR.Store, db: Db, names: map<string, string>)
    requires Alike(names, MI.BookOf(s), S.BookOf(db))
    ensures B.Balances(s.accounts) == B.Balances(db.accounts)
  {
  }

  /** An orderly history is orderly under other ids. */
  lemma {:induction false} OrderlyRenamed(
    names: map<string, string>, orders: map<string, Order>, orders': map<string, Order>, b: H.Book, b': H.Book,
        steps: seq<Step>)
    requires Renaming(names, orders, orders') && AllAbout(orders, steps) && Alike(names, b, b')
    requires Orderly(orders, b, steps)
    ensures AllAbout(orders', RenameAll(names, steps)) && Orderly(orders', b', RenameAll(names, steps))
    decreases |steps|
  {
    hide H.Act, RenameAll;
    RenamedAbout(names, orders, orders', steps);
    if steps != [] {
      ActAlike(names, orders, orders', b, b', steps[0]);
      OrderlyRenamed(names, orders, orders', H.Act(b, ActionOf(orders, steps[0])),
                     H.Act(b', ActionOf(orders', Rename(names, steps[0]))), steps[1..]);
    }
  }

  lemma ActAlike(names: map<string, string>, orders: map<string, Order>, orders': map<string, Order>, b: H.Book,
                 b': H.Book, step: Step)
    requires Renaming(names, orders, orders') && step.id in orders && Alike(names, b, b')
    ensures Alike(names, H.Act(b, ActionOf(orders, step)), H.Act(b', ActionOf(orders', Rename(names, step))))
  {
    hide H.Act, Alike;
    PlaceAlike(names, b, b', step.id, orders[step.id].account, orders[step.id].amount);
    SettleAlike(names, b, b', step.id);
  }

  /** The plain account does not care which ids it is given. */
  lemma {:induction false} RunAlike(
    names: map<string, string>, orders: map<string, Order>, orders': map<string, Order>, b: H.Book, b': H.Book,
        steps: seq<Step>)
    requires Renaming(names, orders, orders') && AllAbout(orders, steps) && Alike(names, b, b')
    ensures AllAbout(orders', RenameAll(names, steps))
    ensures Alike(names, H.Run(b, ActionsOf(orders, steps)), H.Run(b', ActionsOf(orders', RenameAll(names, steps))))
    decreases |steps|
  {
    hide H.Act, Alike, RenameAll;
    RenamedAbout(names, orders, orders', steps);
    if steps != [] {
      ActAlike(names, orders, orders', b, b', steps[0]);
      RunActions(orders, b, steps);
      RunActions(orders', b', RenameAll(names, steps));
      RunAlike(names, orders, orders', H.Act(b, ActionOf(orders, steps[0])),
               H.Act(b', ActionOf(orders', Rename(names, steps[0]))), steps[1..]);
    }
  }

  // ---- Histories that split the modes ----

  function Success(eventId: string): MR.Callback {
    MR.Callback(eventId, 1, MR.Succeeded, "")
  }

  function Refusal(eventId: string): MR.Callback {
    MR.Callback(eventId, 1, MR.Declined, "")
  }

  /** A success comes before the hold, and another one after it. */
  function Burning(id: string, early: string, late: string): seq<Step> {
    [Step(Told(Success(early)), id), Step(Hold, id), Step(Told(Success(late)), id)]
  }

  lemma ThreeSteps(mode: Mode, orders: map<string, Order>, m: Machine, a: Step, b: Step, c: Step)
    requires AllAbout(orders, [a, b, c]) && a.id in orders && b.id in orders && c.id in orders
    ensures PerformAll(mode, orders, m, [a, b, c])
         == Perform(mode, orders, Perform(mode, orders, Perform(mode, orders, m, a), b), c)
  {
    hide Perform;
    var m1 := Perform(mode, orders, m, a);
    var m2 := Perform(mode, orders, m1, b);
    assert [a, b, c][1..] == [b, c] && [b, c][1..] == [c] && [c][1..] == [];
    assert PerformAll(mode, orders, m2, [c]) == PerformAll(mode, orders, Perform(mode, orders, m2, c), []);
    assert PerformAll(mode, orders, m1, [b, c]) == PerformAll(mode, orders, m2, [c]);
  }

  lemma BurningEnds(mode: Mode, orders: map<string, Order>, m: Machine, id: string, early: string, late: string)
    requires id in orders && H.MayPlace(m.book, id, orders[id].account, orders[id].amount) && early != late
    requires (id, early) !in m.spent && (id, late) !in m.spent && (id, "") !in m.spent
    ensures AllAbout(orders, Burning(id, early, late))
    ensures var r := PerformAll(mode, orders, m, Burning(id, early, late)).book;
      id in r.holds && r.holds[id].phase == if mode.MemoryMode? then H.Committed else H.Held
  {
    ThreeSteps(mode, orders, m, Step(Told(Success(early)), id), Step(Hold, id), Step(Told(Success(late)), id));
    hide PerformAll;
    var m1 := Perform(mode, orders, m, Step(Told(Success(early)), id));
    assert m1.book == m.book;
  }

  /**
   With two success callbacks of different event ids, the first of them before the freeze, the memory store ends with
   the money taken; the participant, given Confirm, Try, Confirm, ends with it frozen, and no later Confirm takes it.
   */
  lemma EarlyCommitSplits(
    s: MR.Store, db: Db, names: map<string, string>, orders: map<string, Order>, orders': map<string, Order>,
    pays: map<string, string>, m: Machine, m': Machine, opening: map<string, int>, id: string, early: string,
        late: string)
    requires Paired(s, db, names, orders, orders', pays, m, m', opening) && Alike(names, m.book, m'.book)
    requires id in orders
    requires m.spent == {} && m'.spent == {} && early != late
    requires H.MayPlace(m.book, id, orders[id].account, orders[id].amount)
    ensures orders'.Keys == pays.Keys && AllAbout(orders, Burning(id, early, late))
    ensures id in names && AllAbout(orders', Burning(names[id], early, late))
    ensures HoldPhase(MI.BookOf(MemoryAll(s, Burning(id, early, late))), id) == Some(H.Committed)
    ensures HoldPhase(S.BookOf(SqlAll(db, orders', pays, Burning(names[id], early, late))), names[id]) == Some(H.Held)
  {
    hide MemoryAll, SqlAll, PerformAll, MI.BookOf, S.BookOf, Paired;
    PairedKeys(s, db, names, orders, orders', pays, m, m', opening);
    BurningEnds(MemoryMode, orders, m, id, early, late);
    BurningEnds(SqlMode, orders', m', names[id], early, late);
    assert RenameAll(names, Burning(id, early, late)) == Burning(names[id], early, late);
    BothEnds(s, db, names, orders, orders', pays, m, m', opening, Burning(id, early, late));
  }

  function HoldPhase(b: H.Book, id: string): Option<H.Phase> {
    if id in b.holds then Some(b.holds[id].phase) else None
  }

  /** A success comes before the hold, a refusal under the same event id after it, and then the hold. */
  function Refusing(id: string, eventId: string): seq<Step> {
    [Step(Told(Success(eventId)), id), Step(Told(Refusal(eventId)), id), Step(Hold, id)]
  }

  lemma RefusingEnds(mode: Mode, orders: map<string, Order>, m: Machine, id: string, eventId: string)
    requires id in orders && H.MayPlace(m.book, id, orders[id].account, orders[id].amount)
    requires (id, eventId) !in m.spent && (id, "") !in m.spent
    ensures AllAbout(orders, Refusing(id, eventId))
    ensures HoldPhase(PerformAll(mode, orders, m, Refusing(id, eventId)).book, id)
         == if mode.MemoryMode? then Some(H.Held) else None
  {
    ThreeSteps(mode, orders, m, Step(Told(Success(eventId)), id), Step(Told(Refusal(eventId)), id), Step(Hold, id));
    hide PerformAll;
    var m1 := Perform(mode, orders, m, Step(Told(Success(eventId)), id));
    assert m1.book == m.book;
  }

  /**
   A refusal under an event id that an early success has used up is a duplicate in memory, whose hold then succeeds, and
   a Cancel in SQL, which refuses the hold.
   */
  lemma StaleRefusalSplits(
    s: MR.Store, db: Db, names: map<string, string>, orders: map<string, Order>, orders': map<string, Order>,
    pays: map<string, string>, m: Machine, m': Machine, opening: map<string, int>, id: string, eventId: string)
    requires Paired(s, db, names, orders, orders', pays, m, m', opening) && Alike(names, m.book, m'.book)
    requires id in orders
    requires m.spent == {} && m'.spent == {}
    requires H.MayPlace(m.book, id, orders[id].account, orders[id].amount)
    ensures orders'.Keys == pays.Keys && AllAbout(orders, Refusing(id, eventId))
    ensures id in names && AllAbout(orders', Refusing(names[id], eventId))
    ensures HoldPhase(MI.BookOf(MemoryAll(s, Refusing(id, eventId))), id) == Some(H.Held)
    ensures HoldPhase(S.BookOf(SqlAll(db, orders', pays, Refusing(names[id], eventId))), names[id]) == None
  {
    hide MemoryAll, SqlAll, PerformAll, MI.BookOf, S.BookOf, Paired;
    PairedKeys(s, db, names, orders, orders', pays, m, m', opening);
    RefusingEnds(MemoryMode, orders, m, id, eventId);
    RefusingEnds(SqlMode, orders', m', names[id], eventId);
    assert RenameAll(names, Refusing(id, eventId)) == Refusing(names[id], eventId);
    BothEnds(s, db, names, orders, orders', pays, m, m', opening, Refusing(id, eventId));
  }

  // ---- Both modes can start alike ----

  function OneOrder(id: string, amount: int): map<string, Order> {
    map[id := Order(DEMO_USER, amount)]
  }

  const OPENING_BOOK: H.Book := H.Book(map[DEMO_USER := H.Balance(OPENING_BALANCE, 0)], map[], {})

  function Created(id: string, amount: int): MR.Payment {
    MR.Payment(id, "", DEMO_USER, amount, "", Init, "", 0)
  }

  /** A new memory store that has created and started one payment. */
  lemma MemoryStarts(id: string, amount: int)
    requires amount > 0
    ensures MR.Indexed(MR.EmptyStore())
    ensures var s := MR.StartPayment(MR.CreatePayment(MR.EmptyStore(), Created(id, amount), "", "").store, id).store;
      MemoryImplements(s, OneOrder(id, amount), Machine(OPENING_BOOK, {}))
  {
    hide MI.Inv, H.Conserved, MR.LogOf, MR.CountOf;
    MI.EmptyInv();
    var s0 := MR.EmptyStore();
    M.InvIndexed(s0);
    var s1 := MR.CreatePayment(s0, Created(id, amount), "", "").store;
    MI.CreateKeeps(s0, Created(id, amount), "", "");
    MI.StartKeeps(s1, id);
    var s2 := MR.StartPayment(s1, id).store;
    assert MI.Refused(s2) == {} && B.Holds(s2.reservations) == map[];
    assert B.Balances(s2.accounts) == map[DEMO_USER := H.Balance(OPENING_BALANCE, 0)];
  }

  /** New tables that hold one payment. */
  lemma SqlStarts(gid: string, id: string, amount: int, row: PaymentRow)
    requires amount > 0 && id != ""
    ensures var db := Db(map[id := row], map[], map[], map[], map[DEMO_USER := Account(DEMO_USER, OPENING_BALANCE, 0)],
                         map[], map[], map[]);
      SqlImplements(db, OneOrder(gid, amount), map[gid := id], Machine(OPENING_BOOK, {}),
                    map[DEMO_USER := OPENING_BALANCE])
  {
    var db := Db(map[id := row], map[], map[], map[], map[DEMO_USER := Account(DEMO_USER, OPENING_BALANCE, 0)],
                 map[], map[], map[]);
    assert S.Refused(db.barrier, db.reservations) == {} && B.Holds(db.reservations) == map[];
    assert B.Balances(db.accounts) == map[DEMO_USER := H.Balance(OPENING_BALANCE, 0)];
    assert H.Balanced(OPENING_BOOK, DEMO_USER, OPENING_BALANCE);
  }
}

/**
 What a history of requests does to money in either mode: the hold / commit / release account behind a filter.  The
 memory store lets every event id of a payment act once; the SQL barrier lets one Confirm of a gid act, and every
 Cancel.  A step that the filter has used up is idle.
 */
module RequestMachine {
  import opened Domain
  import opened MemoryRules
  import H = HoldAccount

  datatype Mode = MemoryMode | SqlMode

  /** What a request is about; its id names the payment in one mode and the branch transaction in the other. */
  datatype Order = Order(account: string, amount: int)

  /** A hold, a channel's word on it, or its withdrawal by the service or by an operator. */
  datatype Verb = Hold | Told(callback: Callback) | Fail(reason: string) | Close
  datatype Step = Step(verb: Verb, id: string)

  /** The abstract account, and the tokens that are used up. */
  datatype Machine = Machine(book: H.Book, spent: set<(string, string)>)

  predicate Placed(orders: map<string, Order>) {
    forall id :: id in orders ==> id != "" && orders[id].account != "" && orders[id].amount > 0
  }

  /** Callbacks are what request validation lets through. */
  predicate About(orders: map<string, Order>, step: Step) {
    step.id in orders && (step.verb.Told? ==>
                          !step.verb.callback.outcome.Unsupported? && step.verb.callback.sequence > 0)
  }

  predicate AllAbout(orders: map<string, Order>, steps: seq<Step>) {
    forall i :: 0 <= i < |steps| ==> About(orders, steps[i])
  }

  predicate Confirms(step: Step) {
    step.verb.Told? && step.verb.callback.outcome.Succeeded?
  }

  /** The account's action for a step. */
  function ActionOf(orders: map<string, Order>, step: Step): H.Action
    requires step.id in orders
  {
    if step.verb.Hold? then H.Place(step.id, orders[step.id].account, orders[step.id].amount)
    else if Confirms(step) then H.Commit(step.id)
    else H.Release(step.id)
  }

  /** What a step uses up: its event id in one mode, the Confirm row of its gid in the other. */
  function Token(mode: Mode, step: Step): Option<(string, string)> {
    match mode
    case MemoryMode => if step.verb.Told? then Some((step.id, step.verb.callback.eventId)) else None
    case SqlMode => if Confirms(step) then Some((step.id, "")) else None
  }

  predicate Idle(mode: Mode, m: Machine, step: Step) {
    Token(mode, step).Some? && Token(mode, step).value in m.spent
  }

  function Perform(mode: Mode, orders: map<string, Order>, m: Machine, step: Step): Machine
    requires step.id in orders
  {
    if Idle(mode, m, step) then m
    else
      var token := Token(mode, step);
      Machine(H.Act(m.book, ActionOf(orders, step)), m.spent + if token.Some? then {token.value} else {})
  }

  function PerformAll(mode: Mode, orders: map<string, Order>, m: Machine, steps: seq<Step>): Machine
    requires AllAbout(orders, steps)
    decreases |steps|
  {
    if steps == [] then m else PerformAll(mode, orders, Perform(mode, orders, m, steps[0]), steps[1..])
  }

  // ---- When a step makes a difference ----

  /** Something can still become of the request: its hold is open, or it has none and is not refused. */
  predicate Pending(b: H.Book, id: string) {
    if id in b.holds then b.holds[id].phase.Held? else id !in b.refused
  }

  predicate Counts(b: H.Book, a: H.Action) {
    match a
    case Place(id, account, amount) => H.MayPlace(b, id, account, amount)
    case Commit(id) => id in b.holds && b.holds[id].phase.Held?
    case Release(id) => Pending(b, id)
  }

  lemma CountsIff(b: H.Book, a: H.Action)
    ensures H.Act(b, a) != b <==> Counts(b, a)
  {
    match a
    case Place(id, account, amount) =>
      assert H.MayPlace(b, id, account, amount) ==> id in H.Act(b, a).holds;
    case Commit(id) =>
      assert Counts(b, a) ==> H.Act(b, a).holds[id] != b.holds[id];
    case Release(id) =>
      assert id in b.holds && Counts(b, a) ==> H.Act(b, a).holds[id] != b.holds[id];
      assert id !in b.holds ==> H.Act(b, a).refused == b.refused + {id};
      assert id in b.refused ==> b.refused + {id} == b.refused;
  }

  /** A step that the filter holds back although it would have made a difference. */
  predicate Lost(mode: Mode, orders: map<string, Order>, m: Machine, step: Step)
    requires step.id in orders
  {
    Idle(mode, m, step) && Counts(m.book, ActionOf(orders, step))
  }

  predicate NoneLost(mode: Mode, orders: map<string, Order>, m: Machine, steps: seq<Step>)
    requires AllAbout(orders, steps)
    decreases |steps|
  {
    steps == [] || (!Lost(mode, orders, m, steps[0])
                    && NoneLost(mode, orders, Perform(mode, orders, m, steps[0]), steps[1..]))
  }

  // ---- The plain account ----

  function ActionsOf(orders: map<string, Order>, steps: seq<Step>): (actions: seq<H.Action>)
    requires AllAbout(orders, steps)
    decreases |steps|
  {
    if steps == [] then [] else [ActionOf(orders, steps[0])] + ActionsOf(orders, steps[1..])
  }

  /** After every step the machine's book is the plain account's. */
  ghost predicate PlainAllAlong(mode: Mode, orders: map<string, Order>, m: Machine, plain: H.Book, steps: seq<Step>)
    requires AllAbout(orders, steps)
    decreases |steps|
  {
    && m.book == plain
    && (steps == [] ||
        PlainAllAlong(mode, orders, Perform(mode, orders, m, steps[0]), H.Act(plain, ActionOf(orders, steps[0])),
                      steps[1..]))
  }

  /** Either mode stays the plain account all along a history if and only if it loses no step of it. */
  lemma {:induction false} PlainUnlessLost(mode: Mode, orders: map<string, Order>, m: Machine, steps: seq<Step>)
    requires AllAbout(orders, steps)
    ensures PlainAllAlong(mode, orders, m, m.book, steps) <==> NoneLost(mode, orders, m, steps)
    decreases |steps|
  {
    if steps != [] {
      hide H.Act, Counts;
      var next := Perform(mode, orders, m, steps[0]);
      CountsIff(m.book, ActionOf(orders, steps[0]));
      if next.book == H.Act(m.book, ActionOf(orders, steps[0])) {
        PlainUnlessLost(mode, orders, next, steps[1..]);
      }
    }
  }

  lemma RunActions(orders: map<string, Order>, b: H.Book, steps: seq<Step>)
    requires AllAbout(orders, steps) && steps != []
    ensures H.Run(b, ActionsOf(orders, steps))
        == H.Run(H.Act(b, ActionOf(orders, steps[0])), ActionsOf(orders, steps[1..]))
  {
    assert ActionsOf(orders, steps)[1..] == ActionsOf(orders, steps[1..]);
  }

  /** In SQL a hold whose commit is spent is never committed any more. */
  lemma {:induction false} SpentNeverCommits(orders: map<string, Order>, m: Machine, steps: seq<Step>, id: string)
    requires AllAbout(orders, steps) && (id, "") in m.spent && id in m.book.holds && !m.book.holds[id].phase.Committed?
    ensures var r := PerformAll(SqlMode, orders, m, steps); id in r.book.holds && !r.book.holds[id].phase.Committed?
    decreases |steps|
  {
    if steps != [] {
      SpentNeverCommits(orders, Perform(SqlMode, orders, m, steps[0]), steps[1..], id);
    }
  }

  /** A commit that SQL lost is lost for good: the history ends on the plain account's book if and only if none was. */
  lemma {:induction false} SqlPlainUnlessLost(orders: map<string, Order>, m: Machine, steps: seq<Step>)
    requires AllAbout(orders, steps)
    ensures PerformAll(SqlMode, orders, m, steps).book == H.Run(m.book, ActionsOf(orders, steps))
       <==> NoneLost(SqlMode, orders, m, steps)
    decreases |steps|
  {
    if steps != [] {
      var step, id := steps[0], steps[0].id;
      var plain := H.Act(m.book, ActionOf(orders, step));
      RunActions(orders, m.book, steps);
      if Lost(SqlMode, orders, m, step) {
        H.Settled(plain, ActionsOf(orders, steps[1..]), id);
        SpentNeverCommits(orders, m, steps[1..], id);
      } else {
        CountsIff(m.book, ActionOf(orders, step));
        hide H.Act;
        assert Perform(SqlMode, orders, m, step).book == plain;
        SqlPlainUnlessLost(orders, Perform(SqlMode, orders, m, step), steps[1..]);
      }
    }
  }

  // ---- Two modes side by side ----

  /** The same orders under other ids. */
  ghost predicate Renaming(names: map<string, string>, orders: map<string, Order>, orders': map<string, Order>) {
    && orders.Keys == names.Keys
    && (forall id :: id in names ==> names[id] in orders' && orders'[names[id]] == orders[id])
    && Distinct(names)
  }

  ghost predicate Distinct(names: map<string, string>) {
    forall i, j | i in names && j in names :: names[i] == names[j] ==> i == j
  }

  function Rename(names: map<string, string>, step: Step): Step
    requires step.id in names
  {
    step.(id := names[step.id])
  }

  function RenameAll(names: map<string, string>, steps: seq<Step>): (r: seq<Step>)
    requires forall i :: 0 <= i < |steps| ==> steps[i].id in names
    ensures |r| == |steps| && forall i :: 0 <= i < |r| ==> r[i] == Rename(names, steps[i])
  {
    seq(|steps|, i requires 0 <= i < |steps| => Rename(names, steps[i]))
  }

  /** Two books with the same balances, and the same hold and refusal for each request under its two ids. */
  ghost predicate Alike(names: map<string, string>, b: H.Book, b': H.Book) {
    && b'.balances == b.balances
    && (forall id :: id in names ==>
          && (id in b.holds <==> names[id] in b'.holds)
          && (id in b.holds ==> b'.holds[names[id]] == b.holds[id])
          && (id in b.refused <==> names[id] in b'.refused))
  }

  lemma PlaceAlike(names: map<string, string>, b: H.Book, b': H.Book, id: string, account: string, amount: int)
    requires Alike(names, b, b') && id in names && Distinct(names)
    ensures Alike(names, H.Act(b, H.Place(id, account, amount)), H.Act(b', H.Place(names[id], account, amount)))
  {
  }

  lemma SettleAlike(names: map<string, string>, b: H.Book, b': H.Book, id: string)
    requires Alike(names, b, b') && id in names && Distinct(names)
    ensures Alike(names, H.Act(b, H.Commit(id)), H.Act(b', H.Commit(names[id])))
    ensures Alike(names, H.Act(b, H.Release(id)), H.Act(b', H.Release(names[id])))
  {
  }

  /** Acting in one book only, where it makes a difference, ends the likeness. */
  lemma OneSided(names: map<string, string>, b: H.Book, b': H.Book, id: string)
    requires Alike(names, b, b') && id in names
    ensures Counts(b, H.Commit(id)) ==>
      !Alike(names, H.Act(b, H.Commit(id)), b') && !Alike(names, b, H.Act(b', H.Commit(names[id])))
    ensures Counts(b, H.Release(id)) ==>
      !Alike(names, H.Act(b, H.Release(id)), b') && !Alike(names, b, H.Act(b', H.Release(names[id])))
  {
    assert id in b.holds ==> b'.holds[names[id]] == b.holds[id];
  }

  lemma CountsAlike(names: map<string, string>, b: H.Book, b': H.Book, id: string)
    requires Alike(names, b, b') && id in names
    ensures Pending(b, id) <==> Pending(b', names[id])
    ensures Counts(b, H.Commit(id)) <==> Counts(b', H.Commit(names[id]))
  {
  }

  /** One mode acts and the other does not, on a request for which it matters. */
  predicate Splits(names: map<string, string>, orders: map<string, Order>, m: Machine, m': Machine, step: Step)
    requires step.id in orders && step.id in names
  {
    Idle(MemoryMode, m, step) != Idle(SqlMode, m', Rename(names, step)) && Counts(m.book, ActionOf(orders, step))
  }

  /** One step keeps the two books alike if and only if it does not split the modes. */
  lemma StepAlike(names: map<string, string>, orders: map<string, Order>, orders': map<string, Order>,
                  m: Machine, m': Machine, step: Step)
    requires Renaming(names, orders, orders') && Alike(names, m.book, m'.book) && step.id in orders
    ensures Alike(names, Perform(MemoryMode, orders, m, step).book,
                  Perform(SqlMode, orders', m', Rename(names, step)).book)
       <==> !Splits(names, orders, m, m', step)
  {
    hide Alike, H.Act, Counts, Distinct;
    var id := step.id;
    PlaceAlike(names, m.book, m'.book, id, orders[id].account, orders[id].amount);
    SettleAlike(names, m.book, m'.book, id);
    OneSided(names, m.book, m'.book, id);
    CountsAlike(names, m.book, m'.book, id);
    CountsIff(m.book, ActionOf(orders, step));
    CountsIff(m'.book, ActionOf(orders', Rename(names, step)));
    ReleaseCounts(m.book, id);
    ReleaseCounts(m'.book, names[id]);
  }

  lemma ReleaseCounts(b: H.Book, id: string)
    ensures Counts(b, H.Release(id)) == Pending(b, id)
  {
  }

  ghost predicate AlikeAllAlong(names: map<string, string>, orders: map<string, Order>, orders': map<string, Order>,
                                m: Machine, m': Machine, steps: seq<Step>)
    requires Renaming(names, orders, orders') && AllAbout(orders, steps)
    decreases |steps|
  {
    && Alike(names, m.book, m'.book)
    && (steps == [] ||
        AlikeAllAlong(names, orders, orders', Perform(MemoryMode, orders, m, steps[0]),
                      Perform(SqlMode, orders', m', Rename(names, steps[0])), steps[1..]))
  }

  ghost predicate NoneSplits(names: map<string, string>, orders: map<string, Order>, orders': map<string, Order>,
                             m: Machine, m': Machine, steps: seq<Step>)
    requires Renaming(names, orders, orders') && AllAbout(orders, steps)
    decreases |steps|
  {
    steps == [] ||
    (!Splits(names, orders, m, m', steps[0]) &&
     NoneSplits(names, orders, orders', Perform(MemoryMode, orders, m, steps[0]),
                Perform(SqlMode, orders', m', Rename(names, steps[0])), steps[1..]))
  }

  /** The two modes' books are alike after every step if and only if no step splits them. */
  lemma {:induction false} AlikeUnlessSplit(names: map<string, string>, orders: map<string, Order>,
                                            orders': map<string, Order>,
                                            m: Machine, m': Machine, steps: seq<Step>)
    requires Renaming(names, orders, orders') && AllAbout(orders, steps) && Alike(names, m.book, m'.book)
    ensures AlikeAllAlong(names, orders, orders', m, m', steps) <==> NoneSplits(names, orders, orders', m, m', steps)
    decreases |steps|
  {
    hide Distinct, Alike, Splits, Perform;
    if steps != [] {
      StepAlike(names, orders, orders', m, m', steps[0]);
      var n := Perform(MemoryMode, orders, m, steps[0]);
      var n' := Perform(SqlMode, orders', m', Rename(names, steps[0]));
      if Alike(names, n.book, n'.book) {
        AlikeUnlessSplit(names, orders, orders', n, n', steps[1..]);
      }
    }
  }

  // ---- Which steps split the modes ----

  /** A commit that SQL has spent and memory has not, for an open hold. */
  predicate Burned(names: map<string, string>, m: Machine, m': Machine, step: Step)
    requires step.id in names
  {
    && Confirms(step) && step.id in m.book.holds && m.book.holds[step.id].phase.Held?
    && (names[step.id], "") in m'.spent && (step.id, step.verb.callback.eventId) !in m.spent
  }

  /** A refusal under an event id that memory has seen, for a request that is still pending. */
  predicate Stale(m: Machine, step: Step) {
    step.verb.Told? && !Confirms(step) && (step.id, step.verb.callback.eventId) in m.spent && Pending(m.book, step.id)
  }

  /** An event id that memory has used up for a pending request was a commit's, which SQL has spent as well. */
  ghost predicate Linked(names: map<string, string>, m: Machine, m': Machine) {
    forall id, e :: id in names && (id, e) in m.spent && Pending(m.book, id) ==> (names[id], "") in m'.spent
  }

  /** These two are all there is. */
  lemma SplitKinds(names: map<string, string>, orders: map<string, Order>, m: Machine, m': Machine, step: Step)
    requires step.id in orders && step.id in names && Linked(names, m, m')
    ensures Splits(names, orders, m, m', step) <==> Burned(names, m, m', step) || Stale(m, step)
  {
  }

  lemma LinkedStep(names: map<string, string>, orders: map<string, Order>, orders': map<string, Order>,
                   m: Machine, m': Machine, step: Step)
    requires Renaming(names, orders, orders') && Alike(names, m.book, m'.book) && step.id in orders
    requires Linked(names, m, m') && !Splits(names, orders, m, m', step)
    ensures Linked(names, Perform(MemoryMode, orders, m, step), Perform(SqlMode, orders', m', Rename(names, step)))
  {
    hide Alike;
    var n, n' := Perform(MemoryMode, orders, m, step), Perform(SqlMode, orders', m', Rename(names, step));
    forall id, e | id in names && (id, e) in n.spent && Pending(n.book, id)
      ensures (names[id], "") in n'.spent
    {
      PendingBefore(m.book, ActionOf(orders, step), id);
    }
  }

  /** What is pending after an action was pending before it, and was not withdrawn by it. */
  lemma PendingBefore(b: H.Book, a: H.Action, id: string)
    ensures Pending(H.Act(b, a), id) ==> Pending(b, id) && a != H.Release(id)
  {
  }

  predicate NoneStale(orders: map<string, Order>, m: Machine, steps: seq<Step>)
    requires AllAbout(orders, steps)
    decreases |steps|
  {
    steps == [] || (!Stale(m, steps[0]) && NoneStale(orders, Perform(MemoryMode, orders, m, steps[0]), steps[1..]))
  }

  ghost predicate NoneBurned(names: map<string, string>, orders: map<string, Order>, orders': map<string, Order>,
                             m: Machine, m': Machine, steps: seq<Step>)
    requires Renaming(names, orders, orders') && AllAbout(orders, steps)
    decreases |steps|
  {
    steps == [] ||
    (!Burned(names, m, m', steps[0]) &&
     NoneBurned(names, orders, orders', Perform(MemoryMode, orders, m, steps[0]),
                Perform(SqlMode, orders', m', Rename(names, steps[0])), steps[1..]))
  }

  /** A committed hold stays committed in either mode. */
  lemma {:induction false} CommittedStays(mode: Mode, orders: map<string, Order>, m: Machine, steps: seq<Step>,
                                          id: string)
    requires AllAbout(orders, steps) && id in m.book.holds && m.book.holds[id].phase.Committed?
    ensures var r := PerformAll(mode, orders, m, steps); id in r.book.holds && r.book.holds[id].phase.Committed?
    decreases |steps|
  {
    if steps != [] {
      CommittedStays(mode, orders, Perform(mode, orders, m, steps[0]), steps[1..], id);
    }
  }

  lemma RenamedAbout(names: map<string, string>, orders: map<string, Order>, orders': map<string, Order>,
                     steps: seq<Step>)
    requires Renaming(names, orders, orders') && AllAbout(orders, steps)
    ensures AllAbout(orders', RenameAll(names, steps))
    ensures steps != [] ==> RenameAll(names, steps)[0] == Rename(names, steps[0])
                            && RenameAll(names, steps)[1..] == RenameAll(names, steps[1..])
  {
  }

  /** A burned commit is taken in memory and never again in SQL. */
  lemma BurnedNeverHeals(names: map<string, string>, orders: map<string, Order>, orders': map<string, Order>,
                         m: Machine, m': Machine, step: Step, rest: seq<Step>)
    requires Renaming(names, orders, orders') && Alike(names, m.book, m'.book)
    requires About(orders, step) && AllAbout(orders, rest) && Burned(names, m, m', step)
    ensures AllAbout(orders', RenameAll(names, rest))
    ensures var r := PerformAll(MemoryMode, orders, Perform(MemoryMode, orders, m, step), rest);
      var r' := PerformAll(SqlMode, orders', Perform(SqlMode, orders', m', Rename(names, step)),
                           RenameAll(names, rest));
      && step.id in r.book.holds && r.book.holds[step.id].phase.Committed?
      && names[step.id] in r'.book.holds && !r'.book.holds[names[step.id]].phase.Committed?
      && !Alike(names, r.book, r'.book)
  {
    RenamedAbout(names, orders, orders', rest);
    CommittedStays(MemoryMode, orders, Perform(MemoryMode, orders, m, step), rest, step.id);
    SpentNeverCommits(orders', m', RenameAll(names, rest), names[step.id]);
    hide PerformAll, RenameAll;
  }

  /** A history without stale refusals ends with the same books in both modes if and only if it burns no commit. */
  lemma {:induction false} EndAlikeUnlessBurned(
    names: map<string, string>, orders: map<string, Order>, orders': map<string, Order>, m: Machine, m': Machine,
        steps: seq<Step>)
    requires Renaming(names, orders, orders') && AllAbout(orders, steps) && Alike(names, m.book, m'.book)
    requires Linked(names, m, m') && NoneStale(orders, m, steps)
    ensures AllAbout(orders', RenameAll(names, steps))
    ensures Alike(names, PerformAll(MemoryMode, orders, m, steps).book,
                  PerformAll(SqlMode, orders', m', RenameAll(names, steps)).book)
       <==> NoneBurned(names, orders, orders', m, m', steps)
    decreases |steps|
  {
    hide Alike, Splits, Perform, Burned, Stale, Linked, RenameAll;
    RenamedAbout(names, orders, orders', steps);
    if steps != [] {
      var step := steps[0];
      SplitKinds(names, orders, m, m', step);
      if Burned(names, m, m', step) {
        BurnedNeverHeals(names, orders, orders', m, m', step, steps[1..]);
      } else {
        StepAlike(names, orders, orders', m, m', step);
        LinkedStep(names, orders, orders', m, m', step);
        EndAlikeUnlessBurned(names, orders, orders', Perform(MemoryMode, orders, m, step),
                             Perform(SqlMode, orders', m', Rename(names, step)), steps[1..]);
      }
    }
  }

  // ---- Orderly histories ----

  /** Whatever is used up belongs to a request that is over. */
  ghost predicate Resolved(m: Machine) {
    forall token :: token in m.spent ==> !Pending(m.book, token.0)
  }

  /** Every commit comes after its hold was placed or refused. */
  predicate Orderly(orders: map<string, Order>, b: H.Book, steps: seq<Step>)
    requires AllAbout(orders, steps)
    decreases |steps|
  {
    steps == [] ||
    ((Confirms(steps[0]) ==> steps[0].id in b.holds || steps[0].id in b.refused) &&
     Orderly(orders, H.Act(b, ActionOf(orders, steps[0])), steps[1..]))
  }

  lemma ResolvedStep(mode: Mode, orders: map<string, Order>, m: Machine, step: Step)
    requires Resolved(m) && step.id in orders
    requires Confirms(step) ==> step.id in m.book.holds || step.id in m.book.refused
    ensures Resolved(Perform(mode, orders, m, step)) && !Lost(mode, orders, m, step)
    ensures Perform(mode, orders, m, step).book == H.Act(m.book, ActionOf(orders, step))
  {
    var n := Perform(mode, orders, m, step);
    CountsIff(m.book, ActionOf(orders, step));
    forall token | token in n.spent
      ensures !Pending(n.book, token.0)
    {
      PendingBefore(m.book, ActionOf(orders, step), token.0);
    }
  }

  /** On an orderly history either mode is the plain account and loses nothing. */
  lemma {:induction false} OrderlyIsPlain(mode: Mode, orders: map<string, Order>, m: Machine, steps: seq<Step>)
    requires AllAbout(orders, steps) && Resolved(m) && Orderly(orders, m.book, steps)
    ensures NoneLost(mode, orders, m, steps)
    ensures PerformAll(mode, orders, m, steps).book == H.Run(m.book, ActionsOf(orders, steps))
    decreases |steps|
  {
    hide Resolved, H.Act, Perform, Lost;
    if steps != [] {
      ResolvedStep(mode, orders, m, steps[0]);
      RunActions(orders, m.book, steps);
      OrderlyIsPlain(mode, orders, Perform(mode, orders, m, steps[0]), steps[1..]);
    }
  }

  lemma ResolvedAgrees(names: map<string, string>, orders: map<string, Order>, m: Machine, m': Machine, step: Step)
    requires Resolved(m) && Resolved(m') && Alike(names, m.book, m'.book) && step.id in orders && step.id in names
    ensures !Splits(names, orders, m, m', step)
  {
    CountsAlike(names, m.book, m'.book, step.id);
  }

  /** And it never splits the two modes. */
  lemma {:induction false} OrderlyNeverSplits(names: map<string, string>, orders: map<string, Order>,
                                              orders': map<string, Order>,
                                              m: Machine, m': Machine, steps: seq<Step>)
    requires Renaming(names, orders, orders') && AllAbout(orders, steps) && Alike(names, m.book, m'.book)
    requires Resolved(m) && Resolved(m') && Orderly(orders, m.book, steps)
    ensures NoneSplits(names, orders, orders', m, m', steps)
    decreases |steps|
  {
    hide Resolved, H.Act, Perform, Splits;
    if steps != [] {
      var step := steps[0];
      ResolvedAgrees(names, orders, m, m', step);
      StepAlike(names, orders, orders', m, m', step);
      ResolvedStep(MemoryMode, orders, m, step);
      ResolvedStep(SqlMode, orders', m', Rename(names, step));
      OrderlyNeverSplits(names, orders, orders', Perform(MemoryMode, orders, m, step),
                         Perform(SqlMode, orders', m', Rename(names, step)), steps[1..]);
    }
  }
}

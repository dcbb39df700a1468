/** What a distributed Create answers under a key that is taken, told from the rows and the fields of the requests. */
module TccAnswers {
  import opened Domain
  import opened Tables
  import opened Dtm
  import opened TccSystem
  import opened TccInvariant
  import opened TccCreate
  import opened TccTheorems
  import R = RepositoryRules
  import C = TccCore
  import F = Fingerprint
  import Progress

  predicate SameRequest(row: PaymentRow, c: CreateCall) {
    row.orderId == c.orderId && row.accountId == c.accountId && row.amount == c.amount && row.currency == c.currency
  }

  /** The answer to a request under the key of this payment. */
  function KnownAnswer(db: Db, c: CreateCall, id: string): Outcome
    requires id in db.payments
  {
    if db.payments[id].fingerprint == Fingerprint(c) then Replayed(id) else Conflicted
  }

  predicate CleanCall(c: CreateCall) {
    F.Clean(c.orderId) && F.Clean(c.accountId) && F.Clean(c.currency)
  }

  /** A request with NUL-free fields gets the payment of its key exactly if it is the request that made it. */
  lemma AnswerIsByFields(s: Sys, opening: map<string, int>, c: CreateCall, id: string)
    requires Reachable(s, opening) && id in s.db.payments
    ensures SameRequest(s.db.payments[id], c) ==> KnownAnswer(s.db, c, id) == Replayed(id)
    ensures CleanCall(c) && F.Clean(s.db.payments[id].currency) && !SameRequest(s.db.payments[id], c) ==>
        KnownAnswer(s.db, c, id) == Conflicted
  {
    hide Inv, Reachable, F.Payload, F.Clean;
    ReachableInv(s, opening);
    StampOk(s, opening, id);
    var row := s.db.payments[id];
    if CleanCall(c) && F.Clean(row.currency) && row.fingerprint == Fingerprint(c) {
      F.CleanDecodes(c.orderId, c.accountId, c.amount, c.currency, row.orderId, row.accountId, row.amount,
                     row.currency);
    }
  }

  /** A call that neither created nor failed was answered what the row of its key says. */
  lemma AnswersTellRows(s: Sys, opening: map<string, int>, t: nat)
    requires Reachable(s, opening) && t in s.creators && s.creators[t].stage.Finished?
    requires var o := s.creators[t].stage.outcome; o.Replayed? || o.Conflicted?
    ensures var c := s.creators[t];
      exists id :: UnderKey(s.db, id, c.call.key) && c.stage.outcome == KnownAnswer(s.db, c.call, id)
  {
    hide Reachable, Fingerprint;
    NotOwner(s, opening, t);
    CacheTransparent(s, opening, t);
    KeyOk(s, opening);
    var c := s.creators[t];
    R.DecidedByRows(s.db, c.call.key, Fingerprint(c.call));
    var id :| id in s.db.payments && s.db.payments[id].key == c.call.key;
    assert UnderKey(s.db, id, c.call.key);
  }

  lemma NotOwner(s: Sys, opening: map<string, int>, t: nat)
    requires Reachable(s, opening) && t in s.creators && s.creators[t].stage.Finished?
    requires var o := s.creators[t].stage.outcome; o.Replayed? || o.Conflicted?
    ensures !s.creators[t].owns
  {
    hide Inv, Reachable, Fingerprint;
    ReachableInv(s, opening);
    ThreadOk(s, t, opening);
  }

  lemma KeyOk(s: Sys, opening: map<string, int>)
    requires Reachable(s, opening)
    ensures R.Indexed(s.db)
  {
    hide Inv, Reachable, C.Core, BodiesMatch, Money, R.Logged, R.Shaped, R.Indexed;
    ReachableInv(s, opening);
    InvParts(s, opening);
  }

  /** Where this call stands after these events. */
  function StageAfter(s: Sys, events: seq<Event>, t: nat): Option<Stage> {
    At(Run(s, events), t)
  }

  lemma RunTwo(s: Sys, a: Event, b: Event)
    ensures Run(s, [a, b]) == Do(Do(s, a), b)
  {
    hide Do;
    assert [a, b][1..] == [b] && [b][1..] == [];
    assert Run(Do(s, a), [b]) == Run(Do(Do(s, a), b), []);
  }

  /**
   A call whose key is taken is answered by the row that has the key, wherever the call stands: before it looks, after
   the cache misled it, and even if the row came between its look and its insert.
   */
  lemma KnownKeyIsAnswered(s: Sys, opening: map<string, int>, t: nat, id: string, freshId: string, freshGid: string)
    requires Reachable(s, opening) && t in s.creators && UnderKey(s.db, id, s.creators[t].call.key)
    ensures var answer := Some(Finished(KnownAnswer(s.db, s.creators[t].call, id)));
      match s.creators[t].stage
      case FindRow => StageAfter(s, [Finds(t, freshId, freshGid)], t) == answer
      case RefindRow => StageAfter(s, [Refinds(t)], t) == answer
      case InsertRow => StageAfter(s, [Inserts(t), Refinds(t)], t) == answer
      case VerifyCached(_) =>
        answer in {StageAfter(s, [Verifies(t)], t), StageAfter(s, [Verifies(t), Finds(t, freshId, freshGid)], t)}
      case _ => true
  {
    hide Reachable, Fingerprint, Run, R.Decide, R.Verified, Do;
    KeyOk(s, opening);
    var c := s.creators[t];
    R.DecidedByRows(s.db, c.call.key, Fingerprint(c.call));
    RunOne(s, Finds(t, freshId, freshGid));
    RunOne(s, Refinds(t));
    RunOne(s, Verifies(t));
    RunTwo(s, Inserts(t), Refinds(t));
    RunTwo(s, Verifies(t), Finds(t, freshId, freshGid));
    match c.stage
    case FindRow => LookAnswers(s, t, freshId, freshGid);
    case RefindRow => LookAnswers(s, t, freshId, freshGid);
    case InsertRow =>
      InsertIsRefused(s, t, id);
      LookAnswers(Do(s, Inserts(t)), t, freshId, freshGid);
    case VerifyCached(cached) =>
      R.VerifiedIsReplay(s.db, cached, c.call.key, Fingerprint(c.call));
      VerifyAnswers(s, t);
      LookAnswers(Do(s, Verifies(t)), t, freshId, freshGid);
    case _ => {}
  }

  /** What the two looks at the row of a key answer, by what the rows decide. */
  lemma LookAnswers(s: Sys, t: nat, freshId: string, freshGid: string)
    requires t in s.creators
    ensures var d := R.Decide(s.db, s.creators[t].call.key, Fingerprint(s.creators[t].call));
      !d.New? ==>
        var answer := Some(Finished(if d.Replay? then Replayed(d.id) else Conflicted));
        && (At(s, t) == Some(FindRow) ==> At(Do(s, Finds(t, freshId, freshGid)), t) == answer)
        && (At(s, t) == Some(RefindRow) ==> At(Do(s, Refinds(t)), t) == answer)
  {
    hide Fingerprint, R.Decide;
  }

  lemma InsertIsRefused(s: Sys, t: nat, id: string)
    requires R.Indexed(s.db) && At(s, t) == Some(InsertRow) && UnderKey(s.db, id, s.creators[t].call.key)
    ensures Do(s, Inserts(t)) == Go(s, t, RefindRow)
  {
    hide Fingerprint, R.LogOf, R.MaxSequence;
  }

  lemma VerifyAnswers(s: Sys, t: nat)
    requires t in s.creators && s.creators[t].stage.VerifyCached?
    ensures var c := s.creators[t];
      Do(s, Verifies(t)) == Go(s, t, if R.Verified(s.db, c.stage.cached, c.call.key, Fingerprint(c.call))
                                     then Finished(Replayed(c.stage.cached)) else FindRow)
  {
    hide Fingerprint, R.Verified;
  }

  lemma RunOne(s: Sys, e: Event)
    ensures Run(s, [e]) == Do(s, e)
  {
    hide Do;
    assert [e][1..] == [];
    assert Run(s, [e]) == Run(Do(s, e), []);
  }

  // ---- Every coordinator answers ----

  /** The events this Create's own payment may get on the way: the abort, and the outcome still pending. */
  function NotesOn(stage: Stage): seq<string> {
    match stage
    case Finalizing(_) => []
    case Polling(_, _) => ["DTM_RECONCILE_PENDING"]
    case _ => ["DTM_TCC_ABORTED", "DTM_RECONCILE_PENDING"]
  }

  /** Places at which a request to DTM or a participant may fail. */
  predicate Running(stage: Stage) {
    || stage.Preparing? || stage.RegisteringAccount? || stage.TryingAccount? || stage.RegisteringLedger?
    || stage.TryingLedger? || stage.Submitting?
  }

  /** The event that it does. */
  function Failing(t: nat, stage: Stage): Event
    requires Running(stage)
  {
    if stage.Preparing? then Prepares(t, false)
    else if stage.RegisteringAccount? || stage.RegisteringLedger? then Registers(t, false)
    else if stage.TryingAccount? || stage.TryingLedger? then Tries(t, false)
    else Submits(t, false)
  }

  /** The way out of each place, if from here on nothing goes well. */
  function WayOut(t: nat, stage: Stage): seq<Event> {
    var last := [NotesAbort(t, true), TimesOut(t, true)];
    if Running(stage) then [Failing(t, stage)] + last
    else if stage.NotingAbort? then last
    else if stage.Polling? then [TimesOut(t, true)]
    else [Finalizes(t)]
  }

  function Recorded(log: seq<PaymentEvent>, names: seq<string>): seq<PaymentEvent>
    decreases |names|
  {
    if names == [] then log
    else Recorded(log + [PaymentEvent(|log| + 1, EventKind.Recorded(names[0]), None, None)], names[1..])
  }

  lemma RunNext(s: Sys, e: Event, rest: seq<Event>)
    ensures Run(s, [e] + rest) == Run(Do(s, e), rest) && Run(s, []) == s
  {
    hide Do;
    assert ([e] + rest)[1..] == rest;
  }

  lemma NoteAdds(s: Sys, id: string, name: string)
    requires R.Sound(s.db) && id in s.db.payments
    ensures id in s.db.events
    ensures Noted(s, id, name, true).db
         == s.db.(events := s.db.events[id := Recorded(s.db.events[id], [name])])
    ensures R.Sound(Noted(s, id, name, true).db) && Noted(s, id, name, true).creators == s.creators
  {
    hide R.Sound, R.RecordEvent;
    R.RecordAdds(s.db, id, name);
    R.RecordSound(s.db, id, name);
    assert [name][1..] == [];
  }

  /** A Create whose poll runs out of time answers with its payment, and says so in the history. */
  lemma TimesOutAnswers(s: Sys, t: nat)
    requires R.Sound(s.db) && t in s.creators && s.creators[t].stage.Polling? && s.creators[t].id in s.db.payments
    ensures var r, id := Run(s, [TimesOut(t, true)]), s.creators[t].id;
      && At(r, t) == Some(Finished(Created)) && id in s.db.events
      && r.db == s.db.(events := s.db.events[id := Recorded(s.db.events[id], ["DTM_RECONCILE_PENDING"])])
  {
    hide R.Sound, Recorded, Noted, Run, Do;
    RunOne(s, TimesOut(t, true));
    TimesOutDoes(s, t);
    NoteAdds(s, s.creators[t].id, "DTM_RECONCILE_PENDING");
  }

  lemma TimesOutDoes(s: Sys, t: nat)
    requires t in s.creators && s.creators[t].stage.Polling?
    ensures t in Noted(s, s.creators[t].id, "DTM_RECONCILE_PENDING", true).creators
    ensures Do(s, TimesOut(t, true))
         == Go(Noted(s, s.creators[t].id, "DTM_RECONCILE_PENDING", true), t, Finished(Created))
  {
    hide R.RecordEvent;
  }

  lemma AbortAnswers(s: Sys, t: nat)
    requires R.Sound(s.db) && t in s.creators && s.creators[t].stage.NotingAbort? && s.creators[t].id in s.db.payments
    ensures var r, id := Run(s, [NotesAbort(t, true), TimesOut(t, true)]), s.creators[t].id;
      && At(r, t) == Some(Finished(Created)) && id in s.db.events
      && r.db == s.db.(events := s.db.events[id := Recorded(s.db.events[id], NotesOn(NotingAbort))])
  {
    hide R.Sound, Noted, Run;
    var id := s.creators[t].id;
    RunNext(s, NotesAbort(t, true), [TimesOut(t, true)]);
    assert [NotesAbort(t, true)] + [TimesOut(t, true)] == [NotesAbort(t, true), TimesOut(t, true)];
    NoteAdds(s, id, "DTM_TCC_ABORTED");
    var next := Do(s, NotesAbort(t, true));
    assert next.db.events == s.db.events[id := Recorded(s.db.events[id], ["DTM_TCC_ABORTED"])];
    TimesOutAnswers(next, t);
    RecordedTwice(s.db.events[id], "DTM_TCC_ABORTED", "DTM_RECONCILE_PENDING");
  }

  lemma RecordedTwice(log: seq<PaymentEvent>, a: string, b: string)
    ensures Recorded(log, [a, b]) == Recorded(Recorded(log, [a]), [b])
  {
    assert [a, b][1..] == [b] && [a][1..] == [] && [b][1..] == [];
  }

  /** The error path of the global transaction touches no table. */
  lemma FailingStep(s: Sys, t: nat)
    requires t in s.creators && Running(s.creators[t].stage)
    ensures var e, c := Failing(t, s.creators[t].stage), s.creators[t];
      && Do(s, e).db == s.db && t in Do(s, e).creators && Do(s, e).creators[t] == c.(stage := NotingAbort)
      && (e.Registers? || e.Tries? ==> AskAbort(c.gid) in Do(s, e).wire.asks)
  {
  }

  /**
   From BeginTCC on a Create answers with its payment, whatever goes wrong: from every place a run of its own steps
   alone, each of which fails, ends in that answer, and the history says that it aborted and that the outcome is
   pending.
   */
  lemma EveryCoordinatorAnswers(s: Sys, opening: map<string, int>, t: nat)
    requires Reachable(s, opening) && t in s.creators
    requires Coordinates(s.creators[t].stage) && !s.creators[t].stage.Beginning?
    ensures var r, id := Run(s, WayOut(t, s.creators[t].stage)), s.creators[t].id;
      && At(r, t) == Some(Finished(Created)) && id in s.db.events && id in r.db.events
      && (!s.creators[t].stage.Finalizing? ==>
            r.db == s.db.(events := s.db.events[id := Recorded(s.db.events[id], NotesOn(s.creators[t].stage))]))
  {
    hide Reachable, R.Sound, Recorded, Run, Do;
    var c := s.creators[t];
    CoordinatorAt(s, opening, t);
    if Running(c.stage) {
      RunNext(s, Failing(t, c.stage), [NotesAbort(t, true), TimesOut(t, true)]);
      FailingStep(s, t);
      AbortAnswers(Do(s, Failing(t, c.stage)), t);
    } else if c.stage.NotingAbort? {
      AbortAnswers(s, t);
    } else if c.stage.Polling? {
      TimesOutAnswers(s, t);
    } else {
      FinalizeAnswers(s, opening, t);
    }
  }

  lemma CoordinatorAt(s: Sys, opening: map<string, int>, t: nat)
    requires Reachable(s, opening) && t in s.creators && Coordinates(s.creators[t].stage)
    ensures R.Sound(s.db) && s.creators[t].id in s.db.payments && s.creators[t].id in s.db.events
  {
    hide Inv, Reachable, R.Indexed, R.Shaped, R.Faithful, SightOk;
    StaysSound(s, opening, []);
    ReachableInv(s, opening);
    ThreadOk(s, t, opening);
  }

  lemma FinalizeAnswers(s: Sys, opening: map<string, int>, t: nat)
    requires Reachable(s, opening) && t in s.creators && s.creators[t].stage.Finalizing?
    ensures var r, id := Run(s, [Finalizes(t)]), s.creators[t].id;
      At(r, t) == Some(Finished(Created)) && id in r.db.events
  {
    hide Reachable, R.Sound, Do, Run, Progress.PaymentsLater;
    RunOne(s, Finalizes(t));
    StaysSound(s, opening, [Finalizes(t)]);
    CoordinatorAt(s, opening, t);
    FinalizesOnce(s, t);
    LaterEvents(s.db, Do(s, Finalizes(t)).db, s.creators[t].id);
  }

  lemma FinalizesOnce(s: Sys, t: nat)
    requires t in s.creators && s.creators[t].stage.Finalizing?
    ensures At(Do(s, Finalizes(t)), t) == Some(Finished(Created))
  {
    hide FinalizeDb;
  }

  lemma LaterEvents(db: Db, later: Db, id: string)
    requires R.Sound(later) && id in db.payments && Progress.PaymentsLater(db, later)
    ensures id in later.events
  {
    hide R.Indexed, R.Shaped, R.Faithful;
  }
}

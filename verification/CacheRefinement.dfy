/** The same system with a cache that never answers: every run of the one is a run of the other. */
module CacheRefinement {
  import opened Domain
  import opened Dtm
  import opened TccSystem
  import opened TccInvariant
  import opened Progress
  import opened TccCreate
  import opened TccTheorems
  import R = RepositoryRules

  /** A Create that verifies what the cache said stands, without a cache, where it looks the key up. */
  function WithoutCache(c: Creator): Creator {
    if c.stage.VerifyCached? then c.(stage := FindRow) else c
  }

  function Quieted(creators: map<nat, Creator>): map<nat, Creator> {
    map t | t in creators :: WithoutCache(creators[t])
  }

  function Uncached(s: Sys): Sys {
    s.(creators := Quieted(s.creators))
  }

  predicate Verifying(s: Sys, t: nat) {
    t in s.creators && s.creators[t].stage.VerifyCached?
  }

  /** The cache says nothing; a verified answer is a lookup that finds the row, a wrong one is no step at all. */
  function Translate(s: Sys, e: Event): seq<Event> {
    match e
    case CacheAnswers(t, _) => [CacheAnswers(t, None)]
    case Verifies(t) =>
      if Verifying(s, t) && R.Verified(s.db, s.creators[t].stage.cached, s.creators[t].call.key,
                                       Fingerprint(s.creators[t].call))
      then [Finds(t, "", "")] else []
    case Finds(t, _, _) => if Verifying(s, t) then [] else [e]
    case _ => [e]
  }

  function TranslateAll(s: Sys, events: seq<Event>): seq<Event>
    decreases |events|
  {
    if events == [] then [] else Translate(s, events[0]) + TranslateAll(Do(s, events[0]), events[1..])
  }

  predicate Silent(e: Event) {
    e.CacheAnswers? ==> e.answer == None
  }

  lemma QuietedWrite(creators: map<nat, Creator>, t: nat, c: Creator)
    ensures Quieted(creators[t := c]) == Quieted(creators)[t := WithoutCache(c)]
  {
  }

  /** A call that is not waiting for a verification stands in the same place in both systems. */
  lemma QuietedAt(creators: map<nat, Creator>, t: nat)
    ensures t in Quieted(creators) <==> t in creators
    ensures t in creators ==> Quieted(creators)[t] == WithoutCache(creators[t])
  {
  }

  lemma RunOne(s: Sys, e: Event)
    ensures Run(s, [e]) == Do(s, e) && Run(s, []) == s
  {
    hide Do;
    assert [e][1..] == [];
    assert Run(Do(s, e), []) == Do(s, e);
  }

  lemma LookSame(s: Sys, id: string, gid: string, v: Sighting)
    ensures Look(Uncached(s), id, gid, v) == Look(s, id, gid, v)
  {
  }

  predicate OfOthers(e: Event) {
    e.Reconciles? || e.Looks? || e.Settles? || e.Abandons? || e.DtmServes? || e.DtmTimesOut? || e.DtmDispatches?
    || e.DtmFinishes? || e.Arriving? || e.Records?
  }

  /** Reconcilers, DTM, network and participants do not look at the calls. */
  lemma OthersUncached(s: Sys, e: Event)
    requires OfOthers(e)
    ensures Do(Uncached(s), e) == Uncached(Do(s, e))
  {
    hide Quieted, SettleDb, Serve, Timeout, Dispatch, Finish, R.RecordEvent, Reached, Answered, Look;
    if e.Looks? && e.o in s.reconcilers {
      LookSame(s, s.reconcilers[e.o].id, s.reconcilers[e.o].gid, s.reconcilers[e.o].seen);
    }
  }

  /** The verification of a cached answer is a lookup of the row, or nothing. */
  lemma VerifiesUncached(s: Sys, t: nat)
    requires R.Indexed(s.db)
    ensures Run(Uncached(s), Translate(s, Verifies(t))) == Uncached(Do(s, Verifies(t)))
  {
    hide Quieted, R.Indexed, Fingerprint;
    RunOne(Uncached(s), Finds(t, "", ""));
    if Verifying(s, t) {
      var c := s.creators[t];
      QuietedAt(s.creators, t);
      R.VerifiedIsReplay(s.db, c.stage.cached, c.call.key, Fingerprint(c.call));
      QuietedWrite(s.creators, t, c.(stage := FindRow));
      QuietedWrite(s.creators, t, c.(stage := Finished(Replayed(c.stage.cached))));
      assert Quieted(s.creators)[t := c.(stage := FindRow)] == Quieted(s.creators);
    }
  }

  lemma AnswersUncached(s: Sys, t: nat, answer: Option<(string, string)>)
    ensures Run(Uncached(s), Translate(s, CacheAnswers(t, answer))) == Uncached(Do(s, CacheAnswers(t, answer)))
  {
    hide Quieted, Fingerprint;
    RunOne(Uncached(s), CacheAnswers(t, None));
    QuietedAt(s.creators, t);
    if At(s, t) == Some(CacheLookup) {
      var c := s.creators[t];
      QuietedWrite(s.creators, t, c.(stage := FindRow));
      if answer.Some? {
        QuietedWrite(s.creators, t, c.(stage := VerifyCached(answer.value.0)));
      }
    }
  }

  lemma FindsUncached(s: Sys, t: nat, id: string, gid: string)
    ensures Run(Uncached(s), Translate(s, Finds(t, id, gid))) == Uncached(Do(s, Finds(t, id, gid)))
  {
    hide Quieted, Fingerprint, R.Decide;
    RunOne(Uncached(s), Finds(t, id, gid));
    QuietedAt(s.creators, t);
    if At(s, t) == Some(FindRow) {
      var c := s.creators[t];
      QuietedWrite(s.creators, t, c.(id := id, gid := gid, stage := InsertRow));
      GoUncached(s, t, Finished(Errored));
      GoUncached(s, t, Finished(Conflicted));
      var d := R.Decide(s.db, c.call.key, Fingerprint(c.call));
      if d.Replay? {
        GoUncached(s, t, Finished(Replayed(d.id)));
      }
    }
  }

  lemma GoUncached(s: Sys, t: nat, stage: Stage)
    requires t in s.creators && !stage.VerifyCached?
    ensures t in Uncached(s).creators && Uncached(Go(s, t, stage)) == Go(Uncached(s), t, stage)
  {
    hide Quieted;
    QuietedAt(s.creators, t);
    QuietedWrite(s.creators, t, s.creators[t].(stage := stage));
  }

  /** A step that writes one call that waits for no verification, and tables and messages beside it. */
  ghost predicate Writes(s: Sys, s': Sys, t: nat, c: Creator) {
    && !c.stage.VerifyCached? && s'.reconcilers == s.reconcilers && s'.creators == s.creators[t := c]
  }

  /** If both systems make the same write, they stay the same. */
  lemma SameWrite(s: Sys, s': Sys, r: Sys, t: nat, c: Creator)
    requires Writes(s, s', t, c)
    requires r == Uncached(s).(db := s'.db, wire := s'.wire, creators := Uncached(s).creators[t := c])
    ensures r == Uncached(s')
  {
    QuietedWrite(s.creators, t, c);
  }

  /** Where nobody waits for a verification at `t`, the event does the same in both systems. */
  lemma EntersUncached(s: Sys, e: Event)
    requires e.Arrives? || e.Refinds? || e.GivesUp?
    ensures Do(Uncached(s), e) == Uncached(Do(s, e))
  {
    hide Quieted, Fingerprint, R.Decide, R.InsertPayment, R.BeginTCC, R.PaymentFits, R.CanBegin, Send;
    var t := e.t;
    QuietedAt(s.creators, t);
    var s' := Do(s, e);
    if t in s'.creators && s' != s {
      SameWrite(s, s', Do(Uncached(s), e), t, s'.creators[t]);
    }
  }

  lemma InsertsUncached(s: Sys, e: Event)
    requires e.Inserts? || e.Begins?
    ensures Do(Uncached(s), e) == Uncached(Do(s, e))
  {
    hide Quieted, Fingerprint, R.Decide, R.InsertPayment, R.BeginTCC, R.PaymentFits, R.CanBegin, Send;
    var t := e.t;
    QuietedAt(s.creators, t);
    var s' := Do(s, e);
    if t in s'.creators && s' != s {
      SameWrite(s, s', Do(Uncached(s), e), t, s'.creators[t]);
    }
  }

  lemma SubmitsUncached(s: Sys, e: Event)
    requires e.Prepares? || e.Submits?
    ensures Do(Uncached(s), e) == Uncached(Do(s, e))
  {
    hide Quieted, Send, Call, Registered;
    var t := e.t;
    QuietedAt(s.creators, t);
    var s' := Do(s, e);
    if t in s'.creators && s' != s {
      SameWrite(s, s', Do(Uncached(s), e), t, s'.creators[t]);
    }
  }

  lemma RegistersUncached(s: Sys, e: Event)
    requires e.Registers?
    ensures Do(Uncached(s), e) == Uncached(Do(s, e))
  {
    hide Quieted, Send, Call, Registered;
    var t := e.t;
    QuietedAt(s.creators, t);
    var s' := Do(s, e);
    if t in s'.creators && s' != s {
      SameWrite(s, s', Do(Uncached(s), e), t, s'.creators[t]);
    }
  }

  lemma TriesUncached(s: Sys, e: Event)
    requires e.Tries?
    ensures Do(Uncached(s), e) == Uncached(Do(s, e))
  {
    hide Quieted, Send, Call, Registered;
    var t := e.t;
    QuietedAt(s.creators, t);
    var s' := Do(s, e);
    if t in s'.creators && s' != s {
      SameWrite(s, s', Do(Uncached(s), e), t, s'.creators[t]);
    }
  }

  lemma PollsUncached(s: Sys, e: Event)
    requires e.Reads? || e.Rereads? || e.Concludes?
    ensures Do(Uncached(s), e) == Uncached(Do(s, e))
  {
    hide Quieted, R.RecordEvent, FinalizeDb, Look, SawSuccess, SawFailure;
    var t := e.t;
    QuietedAt(s.creators, t);
    if t in s.creators && s.creators[t].stage.Polling? {
      LookSame(s, s.creators[t].id, s.creators[t].gid, s.creators[t].stage.seen);
    }
    var s' := Do(s, e);
    if t in s'.creators && s' != s {
      SameWrite(s, s', Do(Uncached(s), e), t, s'.creators[t]);
    }
  }

  lemma NotesUncached(s: Sys, e: Event)
    requires e.NotesAbort? || e.TimesOut?
    ensures Do(Uncached(s), e) == Uncached(Do(s, e))
  {
    hide Quieted, R.RecordEvent, FinalizeDb, Look, SawSuccess, SawFailure;
    var t := e.t;
    QuietedAt(s.creators, t);
    var s' := Do(s, e);
    if t in s'.creators && s' != s {
      SameWrite(s, s', Do(Uncached(s), e), t, s'.creators[t]);
    }
  }

  lemma FinalizesUncached(s: Sys, e: Event)
    requires e.Finalizes?
    ensures Do(Uncached(s), e) == Uncached(Do(s, e))
  {
    hide Quieted, R.RecordEvent, FinalizeDb, Look, SawSuccess, SawFailure;
    var t := e.t;
    QuietedAt(s.creators, t);
    var s' := Do(s, e);
    if t in s'.creators && s' != s {
      SameWrite(s, s', Do(Uncached(s), e), t, s'.creators[t]);
    }
  }

  /** One event of the system with a cache is one event of the system without, or none. */
  lemma StepUncached(s: Sys, e: Event)
    requires R.Indexed(s.db)
    ensures Run(Uncached(s), Translate(s, e)) == Uncached(Do(s, e))
    ensures forall i :: 0 <= i < |Translate(s, e)| ==> Silent(Translate(s, e)[i])
  {
    hide Uncached, Do, R.Indexed, Fingerprint;
    RunOne(Uncached(s), e);
    match e
    case CacheAnswers(t, answer) => AnswersUncached(s, t, answer);
    case Verifies(t) => VerifiesUncached(s, t);
    case Finds(t, id, gid) => FindsUncached(s, t, id, gid);
    case _ =>
      if OfOthers(e) {
        OthersUncached(s, e);
      } else if e.Arrives? || e.Refinds? || e.GivesUp? {
        EntersUncached(s, e);
      } else if e.Inserts? || e.Begins? {
        InsertsUncached(s, e);
      } else if e.Prepares? || e.Submits? {
        SubmitsUncached(s, e);
      } else if e.Registers? {
        RegistersUncached(s, e);
      } else if e.Tries? {
        TriesUncached(s, e);
      } else if e.Reads? || e.Rereads? || e.Concludes? {
        PollsUncached(s, e);
      } else if e.Finalizes? {
        FinalizesUncached(s, e);
      } else {
        NotesUncached(s, e);
      }
  }

  lemma {:induction false} RunConcat(s: Sys, es: seq<Event>, fs: seq<Event>)
    ensures Run(s, es + fs) == Run(Run(s, es), fs)
    decreases |es|
  {
    hide Do;
    if es == [] {
      assert [] + fs == fs;
    } else {
      assert (es + fs)[1..] == es[1..] + fs;
      RunConcat(Do(s, es[0]), es[1..], fs);
    }
  }

  lemma {:induction false} RunUncached(s: Sys, events: seq<Event>, opening: map<string, int>)
    requires Inv(s, opening)
    ensures Run(Uncached(s), TranslateAll(s, events)) == Uncached(Run(s, events))
    ensures forall i :: 0 <= i < |TranslateAll(s, events)| ==> Silent(TranslateAll(s, events)[i])
    decreases |events|
  {
    hide Inv, Do, Uncached, Translate, Later;
    if events != [] {
      InvParts(s, opening);
      StepUncached(s, events[0]);
      EveryStep(s, events[0], opening);
      RunUncached(Do(s, events[0]), events[1..], opening);
      RunConcat(Uncached(s), Translate(s, events[0]), TranslateAll(Do(s, events[0]), events[1..]));
    }
  }

  /**
   Whatever the cache answers in a run, there is a run in which it never answers anything that ends with the same
   tables, messages and reconcilers, every Create having the same payment and the same outcome.
   */
  lemma CacheIsRefinement(accounts: map<string, Account>, opening: map<string, int>, events: seq<Event>)
    returns (quiet: seq<Event>)
    requires Opened(accounts, opening)
    ensures forall i :: 0 <= i < |quiet| ==> Silent(quiet[i])
    ensures var s, q := Run(Fresh(accounts), events), Run(Fresh(accounts), quiet);
      && q.db == s.db && q.wire == s.wire && q.reconcilers == s.reconcilers && q.creators.Keys == s.creators.Keys
      && (forall t :: t in s.creators ==>
            && q.creators[t].call == s.creators[t].call && q.creators[t].id == s.creators[t].id
            && q.creators[t].gid == s.creators[t].gid && q.creators[t].owns == s.creators[t].owns
            && (!s.creators[t].stage.VerifyCached? ==> q.creators[t].stage == s.creators[t].stage))
  {
    quiet := TranslateAll(Fresh(accounts), events);
    hide Inv, Opened, Run, TranslateAll;
    FreshOk(accounts, opening);
    RunUncached(Fresh(accounts), events, opening);
    assert Uncached(Fresh(accounts)) == Fresh(accounts);
  }
}

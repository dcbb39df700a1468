/** No payment that DTM has heard of is ever stuck: from every reachable state some run settles it. */
module TccConvergence {
  import opened Domain
  import opened Tables
  import opened BranchRules
  import opened Dtm
  import opened TccSystem
  import opened Progress
  import opened TccInvariant
  import opened TccSteps
  import opened TccCreate
  import opened TccTheorems
  import W = TccWitness
  import R = RepositoryRules
  import C = TccCore
  import S = SqlAccounts

  /** Some run leads from one state to the other. */
  ghost predicate Leads(s: Sys, s': Sys) {
    exists events: seq<Event> :: s' == Run(s, events)
  }

  lemma LeadsNowhere(s: Sys)
    ensures Leads(s, s)
  {
    assert s == Run(s, []);
  }

  lemma LeadsOn(s: Sys, s': Sys, e: Event)
    requires Leads(s, s')
    ensures Leads(s, Do(s', e))
  {
    hide Do, Run;
    var events: seq<Event> :| s' == Run(s, events);
    W.RunAppend(s, events, e);
  }

  lemma {:induction false} LeadsRun(s: Sys, s': Sys, events: seq<Event>)
    requires Leads(s, s')
    ensures Leads(s, Run(s', events))
    decreases |events|
  {
    hide Do, Leads;
    if events != [] {
      LeadsOn(s, s', events[0]);
      LeadsRun(s, Do(s', events[0]), events[1..]);
    }
  }

  /** The op DTM is calling the branches of a decided transaction with. */
  function Calling(status: Status): Op {
    if status.Committing() then Confirm else Cancel
  }

  /** On its way to `s`, the run has left this payment processing, and DTM's transaction in this status. */
  ghost predicate Stands(s0: Sys, s: Sys, opening: map<string, int>, id: string, gid: string, status: Status) {
    && Reachable(s, opening) && Leads(s0, s)
    && Carries(s.db, id, gid) && s.db.payments[id].status.Processing?
    && StatusOf(s.wire, gid) == Some(status) && s.reconcilers == s0.reconcilers
  }

  /** A Confirm or Cancel of a branch is never refused. */
  lemma SettlingSucceeds(db: Db, opening: map<string, int>, m: Msg)
    requires Money(db, opening) && !m.op.Try?
    ensures Deliver(db, m).Applied?
  {
    S.NeverViolated(db, m, opening);
    hide Marked, S.BookOf, S.RowsMarked;
  }

  lemma Dispatched(s: Sys, gid: string, branch: Branch)
    requires Registered(s.wire, gid, branch) && s.wire.txns[gid].status in {Submitted, Aborting}
    ensures var r := Do(s, DtmDispatches(gid, branch));
      && r.db == s.db && r.reconcilers == s.reconcilers && r.wire.txns == s.wire.txns && r.wire.acks == s.wire.acks
      && Msg(branch, Calling(s.wire.txns[gid].status), s.wire.txns[gid].branches[branch]) in r.wire.calls
  {
  }

  lemma Arrived(s: Sys, opening: map<string, int>, m: Msg)
    requires m in s.wire.calls && Money(s.db, opening) && !m.op.Try?
    ensures var r := Do(s, Arriving(m));
      && SameCoordinator(s.db, r.db) && r.reconcilers == s.reconcilers && r.wire.txns == s.wire.txns
      && r.wire.acks == s.wire.acks + {KeyOf(m)}
  {
    hide Deliver, Money;
    SettlingSucceeds(s.db, opening, m);
    DeliveryForeign(s.db, s.wire, m);
  }

  lemma MoneyAt(s: Sys, opening: map<string, int>)
    requires Reachable(s, opening)
    ensures Money(s.db, opening) && C.BodiesOk(s.wire)
  {
    hide Inv, Reachable, Money, R.Indexed, R.Logged, R.Shaped, BodiesMatch, C.CallsOk;
    ReachableInv(s, opening);
    InvParts(s, opening);
  }

  /** DTM calls one branch of a decided transaction, the participant acknowledges. */
  lemma Acknowledged(s0: Sys, s: Sys, opening: map<string, int>, id: string, gid: string, branch: Branch,
                     status: Status) returns (r: Sys)
    requires Stands(s0, s, opening, id, gid, status) && status in {Submitted, Aborting}
    ensures Stands(s0, r, opening, id, gid, status)
    ensures r.wire.txns == s.wire.txns && s.wire.acks <= r.wire.acks
    ensures Registered(r.wire, gid, branch) ==> BarrierKey(gid, branch, Calling(status)) in r.wire.acks
  {
    hide Reachable, Leads, Do, Money;
    r := s;
    if Registered(s.wire, gid, branch) {
      var m := Msg(branch, Calling(status), s.wire.txns[gid].branches[branch]);
      Dispatched(s, gid, branch);
      W.ReachableStep(s, opening, DtmDispatches(gid, branch));
      LeadsOn(s0, s, DtmDispatches(gid, branch));
      r := Do(s, DtmDispatches(gid, branch));
      MoneyAt(r, opening);
      Arrived(r, opening, m);
      W.ReachableStep(r, opening, Arriving(m));
      LeadsOn(s0, r, Arriving(m));
      r := Do(r, Arriving(m));
    }
  }

  lemma Decided(s0: Sys, s: Sys, opening: map<string, int>, id: string, gid: string) returns (r: Sys)
    requires Stands(s0, s, opening, id, gid, DtmPrepared)
    ensures Stands(s0, r, opening, id, gid, Aborting)
  {
    hide Reachable, Leads;
    W.ReachableStep(s, opening, DtmTimesOut(gid));
    LeadsOn(s0, s, DtmTimesOut(gid));
    r := Do(s, DtmTimesOut(gid));
  }

  lemma DtmDone(s0: Sys, s: Sys, opening: map<string, int>, id: string, gid: string, status: Status) returns (r: Sys)
    requires Stands(s0, s, opening, id, gid, status) && status in {Submitted, Aborting}
    requires AllAcked(s.wire, gid, Calling(status))
    ensures Stands(s0, r, opening, id, gid, if status.Submitted? then Succeed else DtmFailed)
  {
    hide Reachable, Leads;
    W.ReachableStep(s, opening, DtmFinishes(gid));
    LeadsOn(s0, s, DtmFinishes(gid));
    r := Do(s, DtmFinishes(gid));
  }

  lemma Ended(s0: Sys, s: Sys, opening: map<string, int>, id: string, gid: string, status: Status) returns (r: Sys)
    requires Stands(s0, s, opening, id, gid, status)
    ensures Stands(s0, r, opening, id, gid, if status.Committing() then Succeed else DtmFailed)
  {
    hide Stands;
    if status in {Succeed, DtmFailed} {
      return s;
    }
    r := s;
    var now := status;
    if status.DtmPrepared? {
      r := Decided(s0, s, opening, id, gid);
      now := Aborting;
    }
    r := Acknowledged(s0, r, opening, id, gid, AccountBranch, now);
    r := Acknowledged(s0, r, opening, id, gid, LedgerBranch, now);
    forall b | Registered(r.wire, gid, b)
      ensures BarrierKey(gid, b, Calling(now)) in r.wire.acks
    {
      match b
      case AccountBranch => {}
      case LedgerBranch => {}
    }
    StandsAcked(s0, r, opening, id, gid, now);
    r := DtmDone(s0, r, opening, id, gid, now);
  }

  lemma StandsAcked(s0: Sys, r: Sys, opening: map<string, int>, id: string, gid: string, status: Status)
    requires Stands(s0, r, opening, id, gid, status)
    requires forall b :: Registered(r.wire, gid, b) ==> BarrierKey(gid, b, Calling(status)) in r.wire.acks
    ensures gid in r.wire.txns && AllAcked(r.wire, gid, Calling(status))
  {
    hide Reachable, Leads;
    assert forall b :: b in r.wire.txns[gid].branches ==> Registered(r.wire, gid, b);
  }

  /**
   From every reachable state, a processing payment that DTM has heard of is settled by some run in which DTM calls its
   branches, the network delivers, and one reconciler looks: with success if DTM has begun to commit, and else with
   failure.  Whatever crashed or was lost before, no money stays frozen for it for want of a way out.
   */
  lemma NoneStuck(s: Sys, opening: map<string, int>, id: string, gid: string, o: nat) returns (later: Sys)
    requires Reachable(s, opening) && o !in s.reconcilers
    requires Carries(s.db, id, gid) && s.db.payments[id].status.Processing? && gid in s.wire.txns
    ensures Leads(s, later) && id in later.db.payments
    ensures var success := s.wire.txns[gid].status.Committing();
      && later.db.payments[id].status == Verdict(success)
      && (success ==> Taken(later.db, id, later.db.payments[id]))
      && (!success ==> Untouched(later.db, gid))
  {
    hide Reachable, Leads, Taken, Untouched, Run, FinalizeDb;
    LeadsNowhere(s);
    var r := Ended(s, s, opening, id, gid, s.wire.txns[gid].status);
    later := Run(r, Reconciliation(o, id));
    LeadsRun(s, r, Reconciliation(o, id));
    OneReconcileSuffices(r, opening, o, id, gid);
    SettledAgrees(r, opening, id, gid, Reconciliation(o, id));
  }

  lemma SettledAgrees(r: Sys, opening: map<string, int>, id: string, gid: string, events: seq<Event>)
    requires Reachable(r, opening) && Carries(r.db, id, gid)
    ensures var later := Run(r, events);
      && id in later.db.payments
      && (later.db.payments[id].status.Success? ==> Taken(later.db, id, later.db.payments[id]))
      && (later.db.payments[id].status.Failed? ==> Untouched(later.db, gid))
  {
    hide Inv, Reachable, Taken, Untouched, Run, RowsLater, WireLater;
    ReachableInv(r, opening);
    EveryRun(r, events, opening);
    AgreementNow(Run(r, events), opening, id);
  }

  /** A Create may stop at any moment; its payment is settled all the same, by DTM, the network and a reconciler. */
  lemma CrashedIsSettled(s: Sys, opening: map<string, int>, t: nat, o: nat) returns (later: Sys)
    requires Reachable(s, opening) && o !in s.reconcilers && t in s.creators && !s.creators[t].stage.Finished?
    requires var c := s.creators[t];
      Carries(s.db, c.id, c.gid) && s.db.payments[c.id].status.Processing? && c.gid in s.wire.txns
    ensures At(Do(s, GivesUp(t)), t) == Some(Finished(Errored))
    ensures var id := s.creators[t].id;
      && Leads(Do(s, GivesUp(t)), later) && id in later.db.payments
      && later.db.payments[id].status == Verdict(s.wire.txns[s.creators[t].gid].status.Committing())
  {
    hide Reachable, Leads;
    W.ReachableStep(s, opening, GivesUp(t));
    later := NoneStuck(Do(s, GivesUp(t)), opening, s.creators[t].id, s.creators[t].gid, o);
  }
}

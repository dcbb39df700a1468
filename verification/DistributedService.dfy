/**
 The reads, the polling loop and the list loop of internal/distributed/service.go and diagnostics.go, on tables that the
 other parties change between any two of their statements.
 */
module DistributedService {
  import opened Domain
  import opened Tables
  import D = Dtm
  import P = Progress
  import R = RepositoryRules
  import T = TccSystem
  import Th = TccTheorems
  import Rep = Repository

  /** The table dtm.trans_global, as far as it is read here. */
  class DtmServer {
    var statuses: map<string, D.Status>
  }

  function StatusesOf(w: D.Wire): map<string, D.Status> {
    map g | g in w.txns :: w.txns[g].status
  }

  // ---- What the other parties leave ----

  /** The tables are sound, and nothing is held or posted for a transaction that DTM calls failed. */
  ghost predicate Agreed(db: Db, statuses: map<string, D.Status>) {
    R.Sound(db) && (forall g :: g in statuses && statuses[g].DtmFailed? ==> Th.Untouched(db, g))
  }

  /** Settled rows, terminal payments and final statuses stay as they are. */
  ghost predicate Rely(db: Db, statuses: map<string, D.Status>, db': Db, statuses': map<string, D.Status>) {
    && P.PaymentsLater(db, db') && P.RowsLater(db, db') && Agreed(db', statuses')
    && (forall g :: g in statuses && (statuses[g].Succeed? || statuses[g].DtmFailed?) ==>
          g in statuses' && statuses'[g] == statuses[g])
  }

  /** This is a processing payment of this gid, or one that has the verdict DTM's final word on the gid means. */
  predicate ByVerdict(statuses: map<string, D.Status>, gid: string, status: PaymentStatus) {
    || status.Processing?
    || (status.Success? && StatusRead(statuses, gid) == Some(D.Succeed))
    || (status.Failed? && StatusRead(statuses, gid) == Some(D.DtmFailed))
  }

  /** A processing payment moves by DTM's final word, if at all. */
  ghost predicate Moved(db: Db, db': Db, statuses': map<string, D.Status>) {
    forall id :: id in db.payments && db.payments[id].status.Processing? && db.payments[id].gid.Some? ==>
      id in db'.payments && ByVerdict(statuses', db.payments[id].gid.value, db'.payments[id].status)
  }

  lemma MovedTwice(db: Db, st: map<string, D.Status>, db': Db, st': map<string, D.Status>,
                   db'': Db, st'': map<string, D.Status>)
    requires Rely(db, st, db', st') && Rely(db', st', db'', st'') && Moved(db, db', st') && Moved(db', db'', st'')
    ensures Moved(db, db'', st'')
  {
    hide Agreed, P.RowsLater;
  }

  lemma MovedStutters(db: Db, st: map<string, D.Status>)
    ensures Moved(db, db, st)
  {
  }

  lemma RelyTransitive(db: Db, st: map<string, D.Status>, db': Db, st': map<string, D.Status>,
                       db'': Db, st'': map<string, D.Status>)
    requires Rely(db, st, db', st') && Rely(db', st', db'', st'')
    ensures Rely(db, st, db'', st'')
  {
    hide R.Sound, Th.Untouched;
  }

  lemma RelyStutters(db: Db, st: map<string, D.Status>)
    requires Agreed(db, st)
    ensures Rely(db, st, db, st)
  {
    hide R.Sound, Th.Untouched;
  }

  /**
   Whatever happens in a run of the distributed mode, from any state it reaches, is something these methods rely on.
   */
  lemma RunsAreRelied(s: T.Sys, opening: map<string, int>, events: seq<T.Event>)
    requires Th.Reachable(s, opening)
    ensures var later := T.Run(s, events);
      Agreed(s.db, StatusesOf(s.wire)) && Rely(s.db, StatusesOf(s.wire), later.db, StatusesOf(later.wire))
      && Moved(s.db, later.db, StatusesOf(later.wire))
  {
    hide T.Run, Th.Reachable, R.Sound, Th.Untouched, P.PaymentsLater, P.RowsLater;
    Th.StaysSound(s, opening, events);
    RunsMove(s, opening, events);
    var later := T.Run(s, events);
    forall g | g in StatusesOf(s.wire) && StatusesOf(s.wire)[g].DtmFailed?
      ensures Th.Untouched(s.db, g)
    {
      Th.FailedStaysUntouched(s, opening, events, g);
    }
    forall g | g in StatusesOf(later.wire) && StatusesOf(later.wire)[g].DtmFailed?
      ensures Th.Untouched(later.db, g)
    {
      Th.FailedStaysUntouched(s, opening, events, g);
    }
  }

  lemma RunsMove(s: T.Sys, opening: map<string, int>, events: seq<T.Event>)
    requires Th.Reachable(s, opening)
    ensures Moved(s.db, T.Run(s, events).db, StatusesOf(T.Run(s, events).wire))
  {
    hide T.Run, Th.Reachable, R.Sound, P.RowsLater;
    Th.StaysSound(s, opening, events);
    forall id | id in s.db.payments && s.db.payments[id].status.Processing? && s.db.payments[id].gid.Some?
      ensures id in T.Run(s, events).db.payments
      ensures ByVerdict(StatusesOf(T.Run(s, events).wire), s.db.payments[id].gid.value,
                        T.Run(s, events).db.payments[id].status)
    {
      Th.StandsByVerdict(s, opening, events, id);
    }
  }

  /** DTM's word on a payment is final, and both participants stand where it says. */
  ghost predicate Final(db: Db, statuses: map<string, D.Status>, id: string, gid: string, success: bool) {
    if success then
      && gid in statuses && statuses[gid].Succeed?
      && gid in db.reservations && db.reservations[gid].paymentId == id && db.reservations[gid].state.Confirmed?
      && gid in db.ledger && db.ledger[gid].paymentId == id && db.ledger[gid].state.Posted?
    else gid in statuses && statuses[gid].DtmFailed? && Th.Untouched(db, gid)
  }

  lemma FinalStays(db: Db, st: map<string, D.Status>, db': Db, st': map<string, D.Status>, id: string, gid: string,
                   success: bool)
    requires Rely(db, st, db', st') && Final(db, st, id, gid, success)
    ensures Final(db', st', id, gid, success)
  {
    hide R.Sound, P.PaymentsLater;
  }

  predicate Guard(success: bool, v: T.Sighting) {
    if success then T.SawSuccess(v) else T.SawFailure(v)
  }

  // ---- Three reads ----

  function ReservationRead(db: Db, id: string, gid: string): Option<ReservationState> {
    if gid in db.reservations && db.reservations[gid].paymentId == id then Some(db.reservations[gid].state) else None
  }

  function EntryRead(db: Db, id: string, gid: string): Option<EntryState> {
    if gid in db.ledger && db.ledger[gid].paymentId == id then Some(db.ledger[gid].state) else None
  }

  function StatusRead(statuses: map<string, D.Status>, gid: string): Option<D.Status> {
    if gid in statuses then Some(statuses[gid]) else None
  }

  /** A success guard that held of three moments holds of the last one. */
  lemma SuccessReads(db1: Db, st1: map<string, D.Status>, db2: Db, st2: map<string, D.Status>, db3: Db,
                     st3: map<string, D.Status>,
                     id: string, gid: string)
    requires Rely(db1, st1, db2, st2) && Rely(db2, st2, db3, st3)
    requires T.SawSuccess(T.Sighting(3, ReservationRead(db1, id, gid), EntryRead(db2, id, gid), StatusRead(st3, gid)))
    ensures Final(db3, st3, id, gid, true)
  {
    hide R.Sound, Agreed, P.PaymentsLater;
  }

  /** A failure guard that held of three moments was written on DTM's final word, so it holds of the last one. */
  lemma FailureReads(db: Db, st: map<string, D.Status>, reservation: Option<ReservationState>,
                     entry: Option<EntryState>,
                     id: string, gid: string)
    requires Agreed(db, st) && T.SawFailure(T.Sighting(3, reservation, entry, StatusRead(st, gid)))
    ensures Final(db, st, id, gid, false)
  {
    hide R.Sound, Th.Untouched;
  }

  /** What is final at every one of the three moments is seen. */
  lemma FinalIsSeen(db1: Db, st1: map<string, D.Status>, db2: Db, st2: map<string, D.Status>, db3: Db,
                    st3: map<string, D.Status>,
                    id: string, gid: string, success: bool)
    requires Final(db1, st1, id, gid, success) && Final(db2, st2, id, gid, success) && Final(db3, st3, id, gid, success)
    ensures Guard(success, T.Sighting(3, ReservationRead(db1, id, gid), EntryRead(db2, id, gid), StatusRead(st3, gid)))
  {
  }

  // ---- Finalizing ----

  /** A payment as a caller holds it: its id and the row as it was last read. */
  datatype Listed = Listed(id: string, row: PaymentRow)

  /** What one reconcile leaves in the tables; an error among the reads leaves them alone. */
  function ReconcileDb(db: Db, p: Listed, seen: Option<T.Sighting>): Db {
    if p.row.status.Processing? && p.row.gid.Some? && seen.Some? then T.SettleDb(db, p.id, seen.value) else db
  }

  /**
   Reconciling a payment, on any reads, keeps the tables sound and what may only grow, and touches no participant row.
   */
  lemma ReconcileKeeps(db: Db, p: Listed, seen: Option<T.Sighting>)
    requires R.Sound(db)
    ensures var after := ReconcileDb(db, p, seen);
      && R.Sound(after) && P.PaymentsLater(db, after) && after.payments.Keys == db.payments.Keys
      && after.reservations == db.reservations && after.ledger == db.ledger && after.accounts == db.accounts
  {
    hide R.Sound, T.FinalizeDb, T.SawSuccess, T.SawFailure;
    FinalizeKeeps(db, p.id, true);
    FinalizeKeeps(db, p.id, false);
    assert P.PaymentsLater(db, db);
  }

  lemma FinalizeKeeps(db: Db, id: string, success: bool)
    requires R.Sound(db)
    ensures var after := T.FinalizeDb(db, id, success);
      && R.Sound(after) && P.PaymentsLater(db, after) && after.payments.Keys == db.payments.Keys
      && after.reservations == db.reservations && after.ledger == db.ledger && after.accounts == db.accounts
  {
    hide R.Sound, R.LogOf, R.MaxSequence;
    if R.CanFinalize(db, id) {
      R.FinalizeSound(db, id, T.Verdict(success), if success then "" else "DTM TCC cancelled");
    }
  }

  lemma ReconcileRelied(db: Db, st: map<string, D.Status>, p: Listed, seen: Option<T.Sighting>)
    requires Agreed(db, st)
    ensures Rely(db, st, ReconcileDb(db, p, seen), st)
  {
    hide R.Sound, P.PaymentsLater, ReconcileDb;
    ReconcileKeeps(db, p, seen);
  }

  class Service {
    const repository: Rep.Repository
    const dtm: DtmServer

    constructor (repository: Rep.Repository, dtm: DtmServer)
      ensures this.repository == repository && this.dtm == dtm
    {
      this.repository, this.dtm := repository, dtm;
    }

    ghost predicate Valid()
      reads repository.db, dtm
    {
      Agreed(repository.db.State(), dtm.statuses)
    }

    /** The other parties run for a while.  A caller knows of it what this contract says, and nothing more. */
    method Elapse()
      requires Valid()
      modifies repository.db, dtm
      ensures Rely(old(repository.db.State()), old(dtm.statuses), repository.db.State(), dtm.statuses) && Valid()
      ensures Moved(old(repository.db.State()), repository.db.State(), dtm.statuses)
    {
      RelyStutters(repository.db.State(), dtm.statuses);
      MovedStutters(repository.db.State(), dtm.statuses);
    }

    /**
     Three reads with the others running before each of them.  A guard that holds of what was read holds of what is
     there now; and if the verdict was final before the first read, the guard holds.
     */
    method ParticipantStates(id: string, gid: string) returns (v: T.Sighting)
      requires Valid()
      modifies repository.db, dtm
      ensures Rely(old(repository.db.State()), old(dtm.statuses), repository.db.State(), dtm.statuses) && Valid()
      ensures Moved(old(repository.db.State()), repository.db.State(), dtm.statuses)
      ensures T.SawSuccess(v) ==> Final(repository.db.State(), dtm.statuses, id, gid, true)
      ensures T.SawFailure(v) ==> Final(repository.db.State(), dtm.statuses, id, gid, false)
      ensures forall success :: Final(old(repository.db.State()), old(dtm.statuses), id, gid, success) ==>
          Guard(success, v)
    {
      hide Rely, Agreed, Moved, Final, T.SawSuccess, T.SawFailure, Guard;
      var db := repository.db;
      Elapse();
      ghost var db1, st1 := db.State(), dtm.statuses;
      var reservation := ReservationRead(db.State(), id, gid);
      Elapse();
      ghost var db2, st2 := db.State(), dtm.statuses;
      var entry := EntryRead(db.State(), id, gid);
      Elapse();
      v := T.Sighting(3, reservation, entry, StatusRead(dtm.statuses, gid));
      RelyTransitive(old(db.State()), old(dtm.statuses), db1, st1, db2, st2);
      MovedTwice(old(db.State()), old(dtm.statuses), db1, st1, db2, st2);
      RelyTransitive(old(db.State()), old(dtm.statuses), db2, st2, db.State(), dtm.statuses);
      MovedTwice(old(db.State()), old(dtm.statuses), db2, st2, db.State(), dtm.statuses);
      if T.SawSuccess(v) {
        SuccessReads(db1, st1, db2, st2, db.State(), dtm.statuses, id, gid);
      }
      if T.SawFailure(v) {
        FailureReads(db.State(), dtm.statuses, reservation, entry, id, gid);
      }
      forall success | Final(old(db.State()), old(dtm.statuses), id, gid, success)
        ensures Guard(success, v)
      {
        FinalStays(old(db.State()), old(dtm.statuses), db1, st1, id, gid, success);
        FinalStays(old(db.State()), old(dtm.statuses), db2, st2, id, gid, success);
        FinalStays(old(db.State()), old(dtm.statuses), db.State(), dtm.statuses, id, gid, success);
        FinalIsSeen(db1, st1, db2, st2, db.State(), dtm.statuses, id, gid, success);
      }
    }

    /**
     Poll until the deadline; `errors` says which of the polls made in time fail.  The wait succeeds only if the verdict
     is final now, and it does succeed if the verdict was final when it began and one poll did not fail.
     */
    method WaitForOutcome(id: string, gid: string, success: bool, errors: seq<bool>) returns (reached: bool)
      requires Valid()
      modifies repository.db, dtm
      ensures Rely(old(repository.db.State()), old(dtm.statuses), repository.db.State(), dtm.statuses) && Valid()
      ensures reached ==> Final(repository.db.State(), dtm.statuses, id, gid, success)
      ensures Final(old(repository.db.State()), old(dtm.statuses), id, gid, success) && false in errors ==> reached
    {
      hide Rely, Agreed, Final, T.SawSuccess, T.SawFailure;
      RelyStutters(repository.db.State(), dtm.statuses);
      for i := 0 to |errors|
        invariant Rely(old(repository.db.State()), old(dtm.statuses), repository.db.State(), dtm.statuses) && Valid()
        invariant Final(old(repository.db.State()), old(dtm.statuses), id, gid, success) ==> false !in errors[..i]
      {
        ghost var db1, st1 := repository.db.State(), dtm.statuses;
        if Final(old(repository.db.State()), old(dtm.statuses), id, gid, success) {
          FinalStays(old(repository.db.State()), old(dtm.statuses), db1, st1, id, gid, success);
        }
        if !errors[i] {
          var v := ParticipantStates(id, gid);
          RelyTransitive(old(repository.db.State()), old(dtm.statuses), db1, st1, repository.db.State(), dtm.statuses);
          if success && T.SawSuccess(v) {
            return true;
          }
          if !success && T.SawFailure(v) {
            return true;
          }
        }
        ghost var db2, st2 := repository.db.State(), dtm.statuses;
        Elapse();
        RelyTransitive(old(repository.db.State()), old(dtm.statuses), db2, st2, repository.db.State(), dtm.statuses);
        assert errors[..i + 1] == errors[..i] + [errors[i]];
      }
      assert errors[..|errors|] == errors;
      return false;
    }

    /** The second half of reconcile: the caller gets the row it had, or the terminal row that is now stored. */
    method Settle(p: Listed, v: T.Sighting) returns (r: Listed)
      requires p.row.status.Processing? && p.row.gid.Some?
      modifies repository.db
      ensures repository.db.State() == ReconcileDb(old(repository.db.State()), p, Some(v))
      ensures r == p || (r.id == p.id && Stored(repository.db.State(), r)
                         && (if r.row.status.Success? then T.SawSuccess(v)
                             else r.row.status.Failed? && T.SawFailure(v)))
      ensures forall success :: Guard(success, v) && Awaits(old(repository.db.State()), p, success) ==>
          Verdict(repository.db.State(), p, r, success)
    {
      hide R.Append;
      if T.SawSuccess(v) {
        var updated := repository.Finalize(p.id, Success, "");
        return if updated.Ok? then Listed(p.id, updated.value) else p;
      }
      if T.SawFailure(v) {
        var updated := repository.Finalize(p.id, Failed, "DTM TCC cancelled");
        return if updated.Ok? then Listed(p.id, updated.value) else p;
      }
      return p;
    }

    /**
     Reconcile: a payment that is not processing, or whose reads fail, comes back as it is; any other comes back as it
     is or as the terminal row stored for it, whose verdict is final.  And if its verdict was final before, it comes
     back as the terminal row that is now stored for it.
     */
    method Reconcile(p: Listed, error: bool) returns (r: Listed)
      requires Valid()
      modifies repository.db, dtm
      ensures Rely(old(repository.db.State()), old(dtm.statuses), repository.db.State(), dtm.statuses) && Valid()
      ensures WasRead(old(repository.db.State()), p) ==>
          Moved(old(repository.db.State()), repository.db.State(), dtm.statuses)
      ensures r == p || Reconciled(repository.db.State(), dtm.statuses, p, r)
      ensures p.row.status != Processing || p.row.gid == None || error ==>
          r == p && repository.db.State() == old(repository.db.State())
      ensures forall success :: !error && Due(old(repository.db.State()), old(dtm.statuses), p, success) ==>
          Verdict(repository.db.State(), p, r, success)
    {
      hide Rely, Agreed, Moved, Final, Awaits, WasRead, Verdict, Guard, T.SawSuccess, T.SawFailure, ReconcileDb;
      RelyStutters(repository.db.State(), dtm.statuses);
      MovedStutters(repository.db.State(), dtm.statuses);
      if p.row.status != Processing || p.row.gid == None || error {
        return p;
      }
      var v := ParticipantStates(p.id, p.row.gid.value);
      ghost var db1, st1 := repository.db.State(), dtm.statuses;
      forall success | Due(old(repository.db.State()), old(dtm.statuses), p, success)
        ensures Awaits(db1, p, success)
      {
        AwaitsStill(old(repository.db.State()), old(dtm.statuses), db1, st1, p, success);
      }
      r := Settle(p, v);
      ReconcileRelied(db1, st1, p, Some(v));
      if WasRead(old(repository.db.State()), p) {
        ReadStill(old(repository.db.State()), old(dtm.statuses), db1, st1, p);
        ReconcileMoves(db1, st1, p, v);
        MovedTwice(old(repository.db.State()), old(dtm.statuses), db1, st1, repository.db.State(), dtm.statuses);
      }
      RelyTransitive(old(repository.db.State()), old(dtm.statuses), db1, st1, repository.db.State(), dtm.statuses);
      if r != p {
        FinalStays(db1, st1, repository.db.State(), dtm.statuses, p.id, p.row.gid.value, r.row.status.Success?);
      }
      RelyValid(db1, st1, repository.db.State(), dtm.statuses);
    }

    /**
     Reconcile a list in place, one element after another, with the others running all the while: in the end every
     element is as it was, or is the terminal row that is stored for its payment, whose verdict is final.  And in a list
     of rows that were read from the tables, every element whose verdict was final before and whose reads did not fail
     is that terminal row.
     */
    method List(payments: array<Listed>, errors: seq<bool>)
      requires |errors| == payments.Length && Valid()
      modifies payments, repository.db, dtm
      ensures Rely(old(repository.db.State()), old(dtm.statuses), repository.db.State(), dtm.statuses) && Valid()
      ensures forall i :: 0 <= i < payments.Length ==>
        payments[i] == old(payments[i]) || Reconciled(repository.db.State(), dtm.statuses, old(payments[i]),
                                                      payments[i])
      ensures (forall p :: p in old(payments[..]) ==> WasRead(old(repository.db.State()), p)) ==>
        forall i, success | 0 <= i < payments.Length && !errors[i] ::
          Due(old(repository.db.State()), old(dtm.statuses), old(payments[i]), success) ==>
            Verdict(repository.db.State(), old(payments[i]), payments[i], success)
    {
      hide Rely, Agreed, Reconciled, Moved, Due, WasRead, Verdict;
      RelyStutters(repository.db.State(), dtm.statuses);
      MovedStutters(repository.db.State(), dtm.statuses);
      ghost var was, db0, st0 := payments[..], repository.db.State(), dtm.statuses;
      ghost var allRead := forall p :: p in was ==> WasRead(db0, p);
      for i := 0 to payments.Length
        invariant Rely(db0, st0, repository.db.State(), dtm.statuses) && Valid()
        invariant allRead ==> Moved(db0, repository.db.State(), dtm.statuses)
        invariant forall j :: i <= j < payments.Length ==> payments[j] == was[j]
        invariant forall j :: 0 <= j < i ==>
          payments[j] == was[j] || Reconciled(repository.db.State(), dtm.statuses, was[j], payments[j])
        invariant allRead ==> forall j, success | 0 <= j < i && !errors[j] ::
          Due(db0, st0, was[j], success) ==> Verdict(repository.db.State(), was[j], payments[j], success)
      {
        ghost var db1, st1 := repository.db.State(), dtm.statuses;
        if allRead {
          assert was[i] in was;
          ReadStill(db0, st0, db1, st1, was[i]);
          forall success | Due(db0, st0, was[i], success)
            ensures Due(db1, st1, was[i], success)
          {
            DueStill(db0, st0, db1, st1, was[i], success);
          }
        }
        var updated := Reconcile(payments[i], errors[i]);
        if allRead {
          MovedTwice(db0, st0, db1, st1, repository.db.State(), dtm.statuses);
        }
        RelyTransitive(db0, st0, db1, st1, repository.db.State(), dtm.statuses);
        forall j | 0 <= j < i && payments[j] != was[j]
          ensures Reconciled(repository.db.State(), dtm.statuses, was[j], payments[j])
        {
          ReconciledStays(db1, st1, repository.db.State(), dtm.statuses, was[j], payments[j]);
        }
        forall j, success | 0 <= j < i && Verdict(db1, was[j], payments[j], success)
          ensures Verdict(repository.db.State(), was[j], payments[j], success)
        {
          VerdictStays(db1, st1, repository.db.State(), dtm.statuses, was[j], payments[j], success);
        }
        payments[i] := updated;
      }
    }
  }

  /** The listed row is the stored one. */
  predicate Stored(db: Db, r: Listed) {
    r.id in db.payments && r.row == db.payments[r.id]
  }

  /** A row the caller has read before: the stored one is no earlier. */
  predicate WasRead(db: Db, p: Listed) {
    p.id in db.payments && P.RowLater(p.row, db.payments[p.id])
  }

  /** This payment, of the gid that was read, still waits for the verdict or has it. */
  predicate Awaits(db: Db, p: Listed, success: bool) {
    && p.id in db.payments && db.payments[p.id].gid == p.row.gid
    && db.payments[p.id].status in {Processing, T.Verdict(success)}
  }

  /** A processing payment whose verdict is final. */
  ghost predicate Due(db: Db, st: map<string, D.Status>, p: Listed, success: bool) {
    && p.row.status.Processing? && p.row.gid.Some? && Awaits(db, p, success)
    && Final(db, st, p.id, p.row.gid.value, success)
  }

  /** The caller gets the row that is stored, and that row has the verdict. */
  predicate Verdict(db: Db, p: Listed, r: Listed, success: bool) {
    r.id == p.id && Stored(db, r) && r.row.status == T.Verdict(success)
  }

  lemma AwaitsStill(db: Db, st: map<string, D.Status>, db': Db, st': map<string, D.Status>, p: Listed, success: bool)
    requires Rely(db, st, db', st') && Moved(db, db', st') && Due(db, st, p, success)
    ensures Awaits(db', p, success)
  {
    hide Rely, Final, Th.Untouched;
    FinalStays(db, st, db', st', p.id, p.row.gid.value, success);
    FinalMeans(db', st', p.id, p.row.gid.value, success);
    RelyRow(db, st, db', st', p.id);
  }

  lemma FinalMeans(db: Db, st: map<string, D.Status>, id: string, gid: string, success: bool)
    requires Final(db, st, id, gid, success)
    ensures StatusRead(st, gid) == Some(if success then D.Succeed else D.DtmFailed)
  {
  }

  lemma RelyRow(db: Db, st: map<string, D.Status>, db': Db, st': map<string, D.Status>, id: string)
    requires Rely(db, st, db', st') && id in db.payments
    ensures id in db'.payments && P.RowLater(db.payments[id], db'.payments[id])
  {
    hide Agreed, P.RowsLater;
  }

  lemma DueStill(db: Db, st: map<string, D.Status>, db': Db, st': map<string, D.Status>, p: Listed, success: bool)
    requires Rely(db, st, db', st') && Moved(db, db', st') && Due(db, st, p, success)
    ensures Due(db', st', p, success)
  {
    hide Rely, Moved, Final;
    AwaitsStill(db, st, db', st', p, success);
    FinalStays(db, st, db', st', p.id, p.row.gid.value, success);
  }

  lemma ReadStill(db: Db, st: map<string, D.Status>, db': Db, st': map<string, D.Status>, p: Listed)
    requires Rely(db, st, db', st') && WasRead(db, p)
    ensures WasRead(db', p)
  {
    hide Agreed, P.RowsLater;
  }

  lemma VerdictStays(db: Db, st: map<string, D.Status>, db': Db, st': map<string, D.Status>, p: Listed, r: Listed,
                     success: bool)
    requires Rely(db, st, db', st') && Verdict(db, p, r, success)
    ensures Verdict(db', p, r, success)
  {
    hide Agreed, P.RowsLater;
  }

  /** Settling on sound reads moves the payment by DTM's final word. */
  lemma ReconcileMoves(db: Db, st: map<string, D.Status>, p: Listed, v: T.Sighting)
    requires Agreed(db, st) && WasRead(db, p) && p.row.gid.Some?
    requires T.SawSuccess(v) ==> Final(db, st, p.id, p.row.gid.value, true)
    requires T.SawFailure(v) ==> Final(db, st, p.id, p.row.gid.value, false)
    ensures Moved(db, ReconcileDb(db, p, Some(v)), st)
  {
    hide R.LogOf, R.MaxSequence, Th.Untouched, T.SawSuccess, T.SawFailure, R.Sound;
  }

  /** The terminal row stored for this payment, with a verdict that is final. */
  ghost predicate Reconciled(db: Db, st: map<string, D.Status>, p: Listed, r: Listed) {
    && r.id == p.id && Stored(db, r) && p.row.gid.Some? && r.row.status in {Success, Failed}
    && Final(db, st, p.id, p.row.gid.value, r.row.status.Success?)
  }

  lemma ReconciledStays(db: Db, st: map<string, D.Status>, db': Db, st': map<string, D.Status>, p: Listed, r: Listed)
    requires Rely(db, st, db', st') && Reconciled(db, st, p, r)
    ensures Reconciled(db', st', p, r)
  {
    hide Final, P.RowsLater, Agreed;
    FinalStays(db, st, db', st', p.id, p.row.gid.value, r.row.status.Success?);
  }

  lemma RelyValid(db: Db, st: map<string, D.Status>, db': Db, st': map<string, D.Status>)
    requires Rely(db, st, db', st')
    ensures Agreed(db', st')
  {
    hide Agreed, P.RowsLater, P.PaymentsLater;
  }
}

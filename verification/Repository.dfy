/** internal/distributed/repository.go and diagnostics.go: the coordinator's transactions on the database. */
module Repository {
  import opened Domain
  import opened Tables
  import R = RepositoryRules

  class Repository {
    const db: Database

    constructor (db: Database)
      ensures this.db == db
    {
      this.db := db;
    }

    method AppendEventTx(id: string, kind: EventKind, from: Option<PaymentStatus>, to: Option<PaymentStatus>)
      modifies db`events
      ensures db.State() == R.Append(old(db.State()), id, kind, from, to)
    {
      var log := if id in db.events then db.events[id] else [];
      var max := 0;
      for i := 0 to |log|
        invariant max == R.MaxSequence(log[..i])
      {
        assert log[..i + 1][..i] == log[..i];
        if log[i].sequence > max {
          max := log[i].sequence;
        }
      }
      assert log[..|log|] == log;
      db.events := db.events[id := log + [PaymentEvent(max + 1, kind, from, to)]];
    }

    /** The row found under a key, with its id. */
    method FindByIdempotencyKey(key: string) returns (r: Result<(string, PaymentRow)>)
      requires R.Indexed(db.State())
      ensures r.Err? ==> r.error == NotFound && (forall id :: id in db.payments ==> db.payments[id].key != key)
      ensures r.Ok? ==> r.value.0 in db.payments && db.payments[r.value.0] == r.value.1 && r.value.1.key == key
    {
      if key !in db.byKey {
        return Err(NotFound);
      }
      return Ok((db.byKey[key], db.payments[db.byKey[key]]));
    }

    method VerifyCachedIdempotency(id: string, key: string, fingerprint: string) returns (verified: bool)
      ensures verified <==> R.Verified(db.State(), id, key, fingerprint)
    {
      verified := id in db.payments && db.payments[id].key == key && db.payments[id].fingerprint == fingerprint;
    }

    /**
     The first half of the distributed Create: try what the cache says, then the database.  Whatever the cache holds,
     the decision is the one the rows alone make.
     */
    method ResolveIdempotency(cached: Option<(string, string)>, key: string, fingerprint: string)
      returns (d: R.Decision)
      requires R.Indexed(db.State())
      ensures d == R.Decide(db.State(), key, fingerprint)
      ensures forall id :: id in db.payments && db.payments[id].key == key ==>
          d == (if db.payments[id].fingerprint == fingerprint then R.Replay(id) else R.Conflict)
      ensures d.New? <==> R.Unused(db.State(), key)
    {
      if cached.Some? && cached.value.1 == fingerprint {
        var verified := VerifyCachedIdempotency(cached.value.0, key, fingerprint);
        if verified {
          return R.Replay(cached.value.0);
        }
      }
      var found := FindByIdempotencyKey(key);
      if found.Ok? {
        if found.value.1.fingerprint != fingerprint {
          return R.Conflict;
        }
        return R.Replay(found.value.0);
      }
      return R.New;
    }

    /** Insert under the unique keys; on a duplicate, answer with the row that is already there. */
    method CreatePayment(id: string, row: PaymentRow) returns (r: Result<(string, bool)>)
      requires R.Indexed(db.State())
      requires row.status.Init? && row.gid.None? && row.amount > 0
      modifies db
      ensures R.PaymentFits(old(db.State()), id, row) ==>
        r == Ok((id, true)) && db.State() == R.InsertPayment(old(db.State()), id, row)
      ensures !R.PaymentFits(old(db.State()), id, row) ==>
        && db.State() == old(db.State())
        && r == (match R.Decide(old(db.State()), row.key, row.fingerprint)
                 case New => Err(NotFound)
                 case Replay(other) => Ok((other, false))
                 case Conflict => Err(IdempotencyConflict))
      ensures forall other :: other in old(db.payments) && old(db.payments)[other].key == row.key ==>
          r == (if old(db.payments)[other].fingerprint == row.fingerprint then Ok((other, false))
                else Err(IdempotencyConflict))
      ensures R.Unused(old(db.State()), row.key) ==>
          r == (if id in old(db.payments) then Err(NotFound) else Ok((id, true)))
    {
      R.DecidedByRows(db.State(), row.key, row.fingerprint);
      if id in db.payments || row.key in db.byKey {
        var found := FindByIdempotencyKey(row.key);
        if found.Err? {
          return Err(found.error);
        }
        if found.value.1.fingerprint != row.fingerprint {
          return Err(IdempotencyConflict);
        }
        return Ok((found.value.0, false));
      }
      db.payments := db.payments[id := row];
      db.byKey := db.byKey[row.key := id];
      AppendEventTx(id, PaymentCreated, None, Some(Init));
      return Ok((id, true));
    }

    method BeginTCC(id: string, gid: string) returns (r: Result<()>)
      modifies db
      ensures r.Ok? <==> R.CanBegin(old(db.State()), id, gid)
      ensures db.State() == if r.Ok? then R.BeginTCC(old(db.State()), id, gid) else old(db.State())
      ensures r.Err? ==> r.error == (if id !in old(db.payments) then NotFound
                                     else if old(db.payments)[id].status.Init? then IdCollision
                                     else InvalidTransition)
    {
      if id !in db.payments {
        return Err(NotFound);
      }
      var row := db.payments[id];
      if row.status != Init {
        return Err(InvalidTransition);
      }
      if gid in db.byGid {
        return Err(IdCollision);
      }
      db.payments := db.payments[id := row.(gid := Some(gid), status := Processing)];
      db.byGid := db.byGid[gid := id];
      AppendEventTx(id, TccStarted, Some(Init), Some(Processing));
      return Ok(());
    }

    /** A processing payment moves to the verdict; a payment that already has it is left alone; any other is refused. */
    method Finalize(id: string, status: PaymentStatus, reason: string) returns (r: Result<PaymentRow>)
      modifies db
      ensures var was := old(db.State());
        db.State() == if status.Terminal() && R.CanFinalize(was, id) then R.Finalize(was, id, status, reason) else was
      ensures r.Ok? <==> status.Terminal() && id in old(db.payments)
                         && (old(db.payments)[id].status == status || old(db.payments)[id].status.Processing?)
      ensures r.Ok? ==> id in db.payments && r.value == db.payments[id] && r.value.status == status
      ensures r.Ok? && old(db.payments)[id].status.Processing? ==>
          r.value == old(db.payments)[id].(status := status, failureReason := reason)
      ensures r.Err? ==> r.error == (if !status.Terminal() then UnsupportedOutcome
                                     else if id !in old(db.payments) then NotFound else InvalidTransition)
    {
      if status != Success && status != Failed && status != Closed {
        return Err(UnsupportedOutcome);
      }
      if id !in db.payments {
        return Err(NotFound);
      }
      var row := db.payments[id];
      if row.status.Terminal() {
        if row.status == status {
          return Ok(row);
        }
        return Err(InvalidTransition);
      }
      if row.status != Processing {
        return Err(InvalidTransition);
      }
      db.payments := db.payments[id := row.(status := status, failureReason := reason)];
      AppendEventTx(id, StatusChanged, Some(Processing), Some(status));
      return Ok(db.payments[id]);
    }

    method RecordEvent(id: string, name: string) returns (r: Result<()>)
      modifies db
      ensures r == (if id in old(db.payments) then Ok(()) else Err(NotFound))
      ensures db.State() == R.RecordEvent(old(db.State()), id, name)
    {
      if id !in db.payments {
        return Err(NotFound);
      }
      AppendEventTx(id, Recorded(name), None, None);
      return Ok(());
    }
  }
}

/** What each transaction of internal/distributed/repository.go does to the tables, and what all of them keep. */
module RepositoryRules {
  import opened Domain
  import opened EventLog
  import opened Tables

  function MaxSequence(log: seq<PaymentEvent>): int {
    if log == [] then 0
    else
      var rest := MaxSequence(log[..|log| - 1]);
      var last := log[|log| - 1].sequence;
      if last > rest then last else rest
  }

  function LogOf(db: Db, id: string): seq<PaymentEvent> {
    if id in db.events then db.events[id] else []
  }

  /** appendEventTx: one more event, numbered after the largest number so far. */
  function Append(db: Db, id: string, kind: EventKind, from: Option<PaymentStatus>, to: Option<PaymentStatus>): Db {
    var log := LogOf(db, id);
    db.(events := db.events[id := log + [PaymentEvent(MaxSequence(log) + 1, kind, from, to)]])
  }

  predicate PaymentFits(db: Db, id: string, row: PaymentRow) {
    id !in db.payments && row.key !in db.byKey && row.amount > 0
  }

  function InsertPayment(db: Db, id: string, row: PaymentRow): Db {
    Append(db.(payments := db.payments[id := row], byKey := db.byKey[row.key := id]),
           id, PaymentCreated, None, Some(Init))
  }

  predicate CanBegin(db: Db, id: string, gid: string) {
    id in db.payments && db.payments[id].status.Init? && gid !in db.byGid
  }

  function BeginTCC(db: Db, id: string, gid: string): Db
    requires id in db.payments
  {
    Append(db.(payments := db.payments[id := db.payments[id].(gid := Some(gid), status := Processing)],
               byGid := db.byGid[gid := id]),
           id, TccStarted, Some(Init), Some(Processing))
  }

  predicate CanFinalize(db: Db, id: string) {
    id in db.payments && db.payments[id].status.Processing?
  }

  function Finalize(db: Db, id: string, status: PaymentStatus, reason: string): Db
    requires id in db.payments
  {
    Append(db.(payments := db.payments[id := db.payments[id].(status := status, failureReason := reason)]),
           id, StatusChanged, Some(Processing), Some(status))
  }

  function RecordEvent(db: Db, id: string, name: string): Db {
    if id in db.payments then Append(db, id, Recorded(name), None, None) else db
  }

  /** What the rows alone say about a request: nothing yet, the same request before, or another one under its key. */
  datatype Decision = New | Replay(id: string) | Conflict

  function Decide(db: Db, key: string, fingerprint: string): Decision {
    if key !in db.byKey || db.byKey[key] !in db.payments then New
    else if db.payments[db.byKey[key]].fingerprint == fingerprint then Replay(db.byKey[key])
    else Conflict
  }

  /** VerifyCachedIdempotency: the row the cache named is there and belongs to this key and request. */
  predicate Verified(db: Db, id: string, key: string, fingerprint: string) {
    id in db.payments && db.payments[id].key == key && db.payments[id].fingerprint == fingerprint
  }

  /** The unique keys point at exactly the rows that carry them. */
  ghost predicate Indexed(db: Db) {
    && (forall id :: id in db.payments ==>
          var row := db.payments[id];
          && row.key in db.byKey && db.byKey[row.key] == id
          && (row.gid.Some? ==> row.gid.value in db.byGid && db.byGid[row.gid.value] == id))
    && (forall k :: k in db.byKey ==> db.byKey[k] in db.payments && db.payments[db.byKey[k]].key == k)
    && (forall g :: g in db.byGid ==> db.byGid[g] in db.payments && db.payments[db.byGid[g]].gid == Some(g))
  }

  /** The one way through the statuses that leads to each of them. */
  function Path(status: PaymentStatus): seq<PaymentStatus> {
    match status
    case Init => [Init]
    case Processing => [Init, Processing]
    case _ => [Init, Processing, status]
  }

  /** An event's type says which move it is; an event that moves nothing has the name a caller gave it. */
  predicate Labelled(e: PaymentEvent) {
    match e.to
    case None => e.kind.Recorded?
    case Some(to) =>
      if to.Init? then e.kind.PaymentCreated? else if to.Processing? then e.kind.TccStarted? else e.kind.StatusChanged?
  }

  /** A payment's log tells its status, and it got there by the one path. */
  ghost predicate Faithful(log: seq<PaymentEvent>, status: PaymentStatus) {
    Tells(log, status) && Moves(log) == Path(status) && (forall i :: 0 <= i < |log| ==> Labelled(log[i]))
  }

  ghost predicate Logged(db: Db) {
    && db.events.Keys == db.payments.Keys
    && (forall id :: id in db.payments ==> Faithful(db.events[id], db.payments[id].status))
  }

  /** A payment has a gid exactly from BeginTCC on, and an amount the schema accepts. */
  ghost predicate Shaped(db: Db) {
    forall id :: id in db.payments ==>
      && (db.payments[id].gid.None? <==> db.payments[id].status.Init?)
      && db.payments[id].amount > 0
  }

  ghost predicate Sound(db: Db) {
    Indexed(db) && Logged(db) && Shaped(db)
  }

  lemma {:induction false} MaxIsLast(log: seq<PaymentEvent>)
    requires Numbered(log)
    ensures MaxSequence(log) == |log|
  {
    if log != [] {
      MaxIsLast(log[..|log| - 1]);
    }
  }

  lemma AppendFaithful(log: seq<PaymentEvent>, e: PaymentEvent, status: PaymentStatus)
    requires Faithful(log, status) && e.sequence == MaxSequence(log) + 1 && Labelled(e)
    requires if e.to.Some? then e.from == Some(status) && Path(e.to.value) == Path(status) + [e.to.value]
        else e.from == None
    ensures Faithful(log + [e], if e.to.Some? then e.to.value else status)
  {
    MaxIsLast(log);
    TellsAppend(log, status, e);
    MovesAppend(log, e);
  }

  /** Writing one row and its log keeps every other log telling its own payment's status. */
  lemma WriteLogged(db: Db, after: Db, id: string)
    requires Logged(db)
    requires id in after.payments && after.payments == db.payments[id := after.payments[id]]
    requires id in after.events && after.events == db.events[id := after.events[id]]
    requires Faithful(after.events[id], after.payments[id].status)
    ensures Logged(after)
  {
    hide Faithful;
  }

  /** An event that matches the row's change of status keeps the log faithful, and nothing else is touched. */
  lemma AppendLogged(db: Db, changed: Db, id: string, kind: EventKind, from: Option<PaymentStatus>,
                     to: Option<PaymentStatus>)
    requires Logged(db) && id in db.payments && id in changed.payments
    requires changed.events == db.events && changed.payments == db.payments[id := changed.payments[id]]
    requires var was, now := db.payments[id].status, changed.payments[id].status;
      if to.Some? then from == Some(was) && to == Some(now) && Path(now) == Path(was) + [now]
          else from == None && now == was
    requires Labelled(PaymentEvent(0, kind, from, to))
    ensures Logged(Append(changed, id, kind, from, to))
  {
    hide Faithful;
    var log := db.events[id];
    var e := PaymentEvent(MaxSequence(log) + 1, kind, from, to);
    AppendFaithful(log, e, db.payments[id].status);
    WriteLogged(db, Append(changed, id, kind, from, to), id);
  }

  /** Rewriting a row that keeps its key and gid keeps the unique keys. */
  lemma RewriteIndexed(db: Db, after: Db, id: string)
    requires Indexed(db) && Shaped(db)
    requires id in db.payments && id in after.payments && after.payments == db.payments[id := after.payments[id]]
    requires after.byKey == db.byKey && after.byGid == db.byGid
    requires var was, now := db.payments[id], after.payments[id];
      now.key == was.key && now.gid == was.gid && now.amount == was.amount && !was.status.Init? && !now.status.Init?
    ensures Indexed(after) && Shaped(after)
  {
  }

  lemma InsertIndexed(db: Db, id: string, row: PaymentRow)
    requires Indexed(db) && Shaped(db) && PaymentFits(db, id, row) && row.status.Init? && row.gid.None?
    ensures Indexed(InsertPayment(db, id, row)) && Shaped(InsertPayment(db, id, row))
  {
    hide LogOf, MaxSequence;
  }

  /** A payment without a gid takes one that no payment has. */
  lemma GidIndexed(db: Db, after: Db, id: string, gid: string)
    requires Indexed(db) && Shaped(db) && CanBegin(db, id, gid)
    requires id in after.payments && after.payments == db.payments[id := after.payments[id]]
    requires after.payments[id] == db.payments[id].(gid := Some(gid), status := Processing)
    requires after.byKey == db.byKey && after.byGid == db.byGid[gid := id]
    ensures Indexed(after)
  {
    forall g | g in after.byGid
      ensures after.byGid[g] in after.payments && after.payments[after.byGid[g]].gid == Some(g)
    {
      assert g != gid ==> db.payments[db.byGid[g]].gid == Some(g);
    }
  }

  lemma BeginShaped(db: Db, id: string, gid: string)
    requires Shaped(db) && CanBegin(db, id, gid)
    ensures Shaped(BeginTCC(db, id, gid))
  {
    hide LogOf, MaxSequence;
  }

  lemma BeginIndexed(db: Db, id: string, gid: string)
    requires Indexed(db) && Shaped(db) && CanBegin(db, id, gid)
    ensures Indexed(BeginTCC(db, id, gid)) && Shaped(BeginTCC(db, id, gid))
  {
    hide Indexed, Shaped, LogOf, MaxSequence;
    GidIndexed(db, BeginTCC(db, id, gid), id, gid);
    BeginShaped(db, id, gid);
  }

  lemma InsertSound(db: Db, id: string, row: PaymentRow)
    requires Sound(db) && PaymentFits(db, id, row) && row.status.Init? && row.gid.None?
    ensures Sound(InsertPayment(db, id, row))
  {
    InsertIndexed(db, id, row);
    hide Indexed, Shaped;
    var e := PaymentEvent(1, PaymentCreated, None, Some(Init));
    assert LogOf(db, id) == [] && [] + [e] == [e];
    TellsFirst(e);
    WriteLogged(db, InsertPayment(db, id, row), id);
  }

  lemma EventsUnindexed(db: Db, events: map<string, seq<PaymentEvent>>)
    requires Indexed(db) && Shaped(db)
    ensures Indexed(db.(events := events)) && Shaped(db.(events := events))
  {
  }

  lemma BeginSound(db: Db, id: string, gid: string)
    requires Sound(db) && CanBegin(db, id, gid)
    ensures Sound(BeginTCC(db, id, gid))
  {
    hide Indexed, Shaped, Logged, Append;
    BeginIndexed(db, id, gid);
    var changed := db.(payments := db.payments[id := db.payments[id].(gid := Some(gid), status := Processing)],
                       byGid := db.byGid[gid := id]);
    AppendLogged(db, changed, id, TccStarted, Some(Init), Some(Processing));
  }

  lemma FinalizeSound(db: Db, id: string, status: PaymentStatus, reason: string)
    requires Sound(db) && CanFinalize(db, id) && status.Terminal()
    ensures Sound(Finalize(db, id, status, reason))
  {
    hide Indexed, Shaped, Logged, LogOf, MaxSequence;
    var changed := db.(payments := db.payments[id := db.payments[id].(status := status, failureReason := reason)]);
    RewriteIndexed(db, changed, id);
    EventsUnindexed(changed, Finalize(db, id, status, reason).events);
    AppendLogged(db, changed, id, StatusChanged, Some(Processing), Some(status));
  }

  lemma RecordSound(db: Db, id: string, name: string)
    requires Sound(db)
    ensures Sound(RecordEvent(db, id, name))
  {
    hide Indexed, Shaped, Logged, LogOf, MaxSequence;
    if id in db.payments {
      EventsUnindexed(db, RecordEvent(db, id, name).events);
      assert db.payments == db.payments[id := db.payments[id]];
      AppendLogged(db, db, id, Recorded(name), None, None);
    }
  }

  /** No row carries this key. */
  ghost predicate Unused(db: Db, key: string) {
    forall id :: id in db.payments ==> db.payments[id].key != key
  }

  /**
   What the rows decide, told without the unique key: a key that some payment carries gives that payment to its own
   request and a conflict to every other one, and only a key that no payment carries is new.
   */
  lemma DecidedByRows(db: Db, key: string, fingerprint: string)
    requires Indexed(db)
    ensures forall id :: id in db.payments && db.payments[id].key == key ==>
        Decide(db, key, fingerprint) == (if db.payments[id].fingerprint == fingerprint then Replay(id) else Conflict)
    ensures Decide(db, key, fingerprint).New? <==> Unused(db, key)
  {
  }

  /** A recorded event is one more line under its name, numbered after the others, and changes nothing else. */
  lemma RecordAdds(db: Db, id: string, name: string)
    requires Sound(db) && id in db.payments
    ensures id in db.events
    ensures var log := db.events[id];
      RecordEvent(db, id, name)
      == db.(events := db.events[id := log + [PaymentEvent(|log| + 1, Recorded(name), None, None)]])
  {
    hide Indexed, Shaped;
    MaxIsLast(db.events[id]);
  }

  /** The row the cache names, once verified, is the row the key leads to. */
  lemma VerifiedIsReplay(db: Db, id: string, key: string, fingerprint: string)
    requires Indexed(db)
    ensures Verified(db, id, key, fingerprint) <==> Decide(db, key, fingerprint) == Replay(id)
  {
  }
}

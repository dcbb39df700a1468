/**
 The coordinator's SQL transactions as they really run: locking a row, reading the largest event number, inserting the
 next one and committing are separate steps, and transactions of other requests come in between.  A transaction's plain
 read sees what was committed when it is made, which is after its row is locked.
 */
module Transactions {
  import opened Domain
  import opened Tables
  import E = EventLog
  import R = RepositoryRules

  datatype Work =
    | Insert(row: PaymentRow) | Begin(gid: string) | Finish(status: PaymentStatus, reason: string) | Note(name: string)

  /** `row` is the payment row the transaction will leave, `number` the one it read for its event. */
  datatype Stage =
    | Waiting | Locked(row: PaymentRow) | Numbered(row: PaymentRow, number: int) | Written(row: PaymentRow, number: int)
    | Collided

  datatype Txn = Txn(id: string, work: Work, stage: Stage)

  /** What is locked until commit: a payment row, and an entry of a unique key that is being written. */
  datatype Lockable = RowLock(id: string) | KeyLock(key: string) | GidLock(gid: string)

  datatype Server = Server(db: Db, locks: map<Lockable, nat>, txns: map<nat, Txn>)

  datatype Event =
    | Opens(t: nat, id: string, work: Work)
    | Locks(t: nat) | Reads(t: nat) | Writes(t: nat) | Commits(t: nat) | RollsBack(t: nat)

  function Needs(x: Txn): set<Lockable> {
    match x.work
    case Insert(row) => {RowLock(x.id), KeyLock(row.key)}
    case Begin(gid) => {RowLock(x.id), GidLock(gid)}
    case _ => {RowLock(x.id)}
  }

  predicate Holding(x: Txn) {
    x.stage.Locked? || x.stage.Numbered? || x.stage.Written?
  }

  /** The transaction's checks, made on the rows it has locked. */
  predicate Allowed(db: Db, x: Txn) {
    match x.work
    case Insert(row) => R.PaymentFits(db, x.id, row) && row.status.Init? && row.gid.None?
    case Begin(gid) => R.CanBegin(db, x.id, gid)
    case Finish(status, _) => status.Terminal() && R.CanFinalize(db, x.id)
    case Note(_) => x.id in db.payments
  }

  function NewRow(db: Db, x: Txn): PaymentRow
    requires Allowed(db, x)
  {
    match x.work
    case Insert(row) => row
    case Begin(gid) => db.payments[x.id].(gid := Some(gid), status := Processing)
    case Finish(status, reason) => db.payments[x.id].(status := status, failureReason := reason)
    case Note(_) => db.payments[x.id]
  }

  function EventOf(x: Txn, number: int): PaymentEvent {
    match x.work
    case Insert(_) => PaymentEvent(number, PaymentCreated, None, Some(Init))
    case Begin(_) => PaymentEvent(number, TccStarted, Some(Init), Some(Processing))
    case Finish(status, _) => PaymentEvent(number, StatusChanged, Some(Processing), Some(status))
    case Note(name) => PaymentEvent(number, Recorded(name), None, None)
  }

  /** Commit publishes what the transaction has prepared, whatever the tables hold by now. */
  function Publish(db: Db, x: Txn, row: PaymentRow, number: int): Db {
    db.(payments := db.payments[x.id := row],
        byKey := if x.work.Insert? then db.byKey[row.key := x.id] else db.byKey,
        byGid := if x.work.Begin? then db.byGid[x.work.gid := x.id] else db.byGid,
        events := db.events[x.id := R.LogOf(db, x.id) + [EventOf(x, number)]])
  }

  /** The unique key of payment_events: the number is committed already, or another transaction has written it. */
  ghost predicate Taken(s: Server, t: nat, id: string, number: int) {
    || (exists i :: 0 <= i < |R.LogOf(s.db, id)| && R.LogOf(s.db, id)[i].sequence == number)
    || (exists u ::
          u in s.txns && u != t && s.txns[u].id == id && s.txns[u].stage.Written? && s.txns[u].stage.number == number)
  }

  function Without(locks: map<Lockable, nat>, t: nat): map<Lockable, nat> {
    map l | l in locks && locks[l] != t :: locks[l]
  }

  function With(locks: map<Lockable, nat>, needs: set<Lockable>, t: nat): map<Lockable, nat> {
    map l | l in locks.Keys + needs :: if l in needs then t else locks[l]
  }

  function End(s: Server, t: nat): Server {
    s.(locks := Without(s.locks, t), txns := s.txns - {t})
  }

  function Go(s: Server, t: nat, stage: Stage): Server
    requires t in s.txns
  {
    s.(txns := s.txns[t := s.txns[t].(stage := stage)])
  }

  ghost function Do(s: Server, e: Event): Server {
    match e
    case Opens(t, id, work) => if t in s.txns then s else s.(txns := s.txns[t := Txn(id, work, Waiting)])
    case Locks(t) =>
      if t !in s.txns || !s.txns[t].stage.Waiting? || Needs(s.txns[t]) * s.locks.Keys != {} then s
      else if !Allowed(s.db, s.txns[t]) then End(s, t)
      else Go(s, t, Locked(NewRow(s.db, s.txns[t]))).(locks := With(s.locks, Needs(s.txns[t]), t))
    case Reads(t) =>
      if t in s.txns && s.txns[t].stage.Locked?
      then Go(s, t, Numbered(s.txns[t].stage.row, R.MaxSequence(R.LogOf(s.db, s.txns[t].id)) + 1))
      else s
    case Writes(t) =>
      if t in s.txns && s.txns[t].stage.Numbered? then
        var number := s.txns[t].stage.number;
        Go(s, t, if Taken(s, t, s.txns[t].id, number) then Collided else Written(s.txns[t].stage.row, number))
      else s
    case Commits(t) =>
      if t in s.txns && s.txns[t].stage.Written?
      then End(s, t).(db := Publish(s.db, s.txns[t], s.txns[t].stage.row, s.txns[t].stage.number))
      else s
    case RollsBack(t) => End(s, t)
  }

  // ---- The invariant ----

  /** Locks are held by exactly the transactions that need them and have come past their checks. */
  ghost predicate LocksOk(locks: map<Lockable, nat>, txns: map<nat, Txn>) {
    && (forall l :: l in locks ==> locks[l] in txns && l in Needs(txns[locks[l]]) && Holding(txns[locks[l]]))
    && (forall t, l :: t in txns && Holding(txns[t]) && l in Needs(txns[t]) ==> l in locks && locks[l] == t)
  }

  /** What a transaction has read is still true: its checks, its row and its number. */
  ghost predicate TxnOk(db: Db, x: Txn) {
    && !x.stage.Collided?
    && (Holding(x) ==> Allowed(db, x) && x.stage.row == NewRow(db, x))
    && (x.stage.Numbered? || x.stage.Written? ==> x.stage.number == R.MaxSequence(R.LogOf(db, x.id)) + 1)
  }

  ghost predicate TxnsOk(db: Db, txns: map<nat, Txn>) {
    forall t :: t in txns ==> TxnOk(db, txns[t])
  }

  ghost predicate Inv(s: Server) {
    R.Sound(s.db) && LocksOk(s.locks, s.txns) && TxnsOk(s.db, s.txns)
  }

  /** The transaction as one atomic step. */
  function Atomic(db: Db, x: Txn): Db
    requires Allowed(db, x)
  {
    match x.work
    case Insert(row) => R.InsertPayment(db, x.id, row)
    case Begin(gid) => R.BeginTCC(db, x.id, gid)
    case Finish(status, reason) => R.Finalize(db, x.id, status, reason)
    case Note(name) => R.RecordEvent(db, x.id, name)
  }

  lemma AtomicSound(db: Db, x: Txn)
    requires R.Sound(db) && Allowed(db, x)
    ensures R.Sound(Atomic(db, x))
  {
    hide R.Sound, R.InsertPayment, R.BeginTCC, R.Finalize, R.RecordEvent, R.PaymentFits, R.CanBegin, R.CanFinalize;
    match x.work
    case Insert(row) => R.InsertSound(db, x.id, row);
    case Begin(gid) => R.BeginSound(db, x.id, gid);
    case Finish(status, reason) => R.FinalizeSound(db, x.id, status, reason);
    case Note(name) => R.RecordSound(db, x.id, name);
  }

  /** What a transaction publishes at its commit is what it would have done there and then, in one step. */
  lemma PublishIsAtomic(db: Db, x: Txn)
    requires TxnOk(db, x) && x.stage.Written?
    ensures Allowed(db, x) && Publish(db, x, x.stage.row, x.stage.number) == Atomic(db, x)
  {
    hide R.MaxSequence;
    if x.work.Note? {
      assert db.payments[x.id := db.payments[x.id]] == db.payments;
    }
  }

  /** Two transactions that hold locks hold different ones. */
  lemma Disjoint(s: Server, t: nat, u: nat)
    requires LocksOk(s.locks, s.txns) && t in s.txns && u in s.txns && t != u && Holding(s.txns[t])
    requires Holding(s.txns[u])
    ensures Needs(s.txns[t]) * Needs(s.txns[u]) == {}
  {
    forall l | l in Needs(s.txns[t])
      ensures l !in Needs(s.txns[u])
    {
      assert s.locks[l] == t;
    }
  }

  lemma SameRow(s: Server, t: nat, u: nat)
    requires LocksOk(s.locks, s.txns) && t in s.txns && u in s.txns && t != u
    requires s.txns[t].id == s.txns[u].id && Holding(s.txns[t])
    ensures !Holding(s.txns[u])
  {
    var l := RowLock(s.txns[t].id);
    assert l in Needs(s.txns[t]) && l in Needs(s.txns[u]);
    assert l in s.locks && s.locks[l] == t;
  }

  /** Two databases that agree on everything a transaction checks and reads. */
  predicate Agree(db: Db, db': Db, x: Txn) {
    && (x.id in db'.payments <==> x.id in db.payments)
       && (x.id in db.payments ==> db'.payments[x.id] == db.payments[x.id])
    && R.LogOf(db', x.id) == R.LogOf(db, x.id)
    && (x.work.Insert? ==> (x.work.row.key in db'.byKey <==> x.work.row.key in db.byKey))
    && (x.work.Begin? ==> (x.work.gid in db'.byGid <==> x.work.gid in db.byGid))
  }

  lemma AgreeOk(db: Db, db': Db, x: Txn)
    requires Agree(db, db', x) && TxnOk(db, x)
    ensures TxnOk(db', x)
  {
    hide R.MaxSequence, R.LogOf;
  }

  lemma LocksApart(x: Txn, y: Txn)
    requires Needs(x) * Needs(y) == {}
    ensures x.id != y.id
    ensures x.work.Insert? && y.work.Insert? ==> x.work.row.key != y.work.row.key
    ensures x.work.Begin? && y.work.Begin? ==> x.work.gid != y.work.gid
  {
    assert forall l :: l in Needs(x) ==> l !in Needs(x) * Needs(y);
    assert RowLock(x.id) in Needs(x) && RowLock(x.id) !in Needs(y);
    assert x.work.Insert? ==> KeyLock(x.work.row.key) in Needs(x) && KeyLock(x.work.row.key) !in Needs(y);
    assert x.work.Begin? ==> GidLock(x.work.gid) in Needs(x) && GidLock(x.work.gid) !in Needs(y);
  }

  /** A commit leaves what a transaction with other locks has read as it was. */
  lemma PublishKeepsOther(db: Db, x: Txn, row: PaymentRow, number: int, other: Txn)
    requires TxnOk(db, other) && (Holding(other) ==> Needs(x) * Needs(other) == {})
    requires x.work.Insert? ==> row.key == x.work.row.key
    ensures TxnOk(Publish(db, x, row, number), other)
  {
    hide R.MaxSequence, EventOf, Needs, Allowed, NewRow;
    if Holding(other) {
      LocksApart(x, other);
      AgreeOk(db, Publish(db, x, row, number), other);
    }
  }

  lemma CommitKeeps(s: Server, t: nat)
    requires Inv(s) && t in s.txns && s.txns[t].stage.Written?
    ensures Inv(Do(s, Commits(t)))
    ensures Allowed(s.db, s.txns[t]) && Do(s, Commits(t)).db == Atomic(s.db, s.txns[t])
  {
    hide R.Sound, TxnOk, Publish, Atomic, Allowed, LocksOk;
    var x := s.txns[t];
    PublishIsAtomic(s.db, x);
    AtomicSound(s.db, x);
    EndLocks(s.locks, s.txns, t);
    RowOf(s.db, x);
    forall u | u in s.txns && u != t
      ensures TxnOk(Do(s, Commits(t)).db, s.txns[u])
    {
      if Holding(s.txns[u]) {
        Disjoint(s, t, u);
      }
      PublishKeepsOther(s.db, x, x.stage.row, x.stage.number, s.txns[u]);
    }
  }

  lemma RowOf(db: Db, x: Txn)
    requires TxnOk(db, x) && x.stage.Written?
    ensures x.work.Insert? ==> x.stage.row.key == x.work.row.key
  {
  }

  lemma EndLocks(locks: map<Lockable, nat>, txns: map<nat, Txn>, t: nat)
    requires LocksOk(locks, txns)
    ensures LocksOk(Without(locks, t), txns - {t})
  {
    hide Needs;
  }

  lemma TakeLocks(locks: map<Lockable, nat>, txns: map<nat, Txn>, t: nat, row: PaymentRow)
    requires LocksOk(locks, txns) && t in txns && txns[t].stage.Waiting? && Needs(txns[t]) * locks.Keys == {}
    ensures LocksOk(With(locks, Needs(txns[t]), t), txns[t := txns[t].(stage := Locked(row))])
  {
    var txns' := txns[t := txns[t].(stage := Locked(row))];
    assert Needs(txns'[t]) == Needs(txns[t]);
    hide Needs;
  }

  lemma MoveLocks(locks: map<Lockable, nat>, txns: map<nat, Txn>, t: nat, stage: Stage)
    requires LocksOk(locks, txns) && t in txns && Holding(txns[t]) && Holding(txns[t].(stage := stage))
    ensures LocksOk(locks, txns[t := txns[t].(stage := stage)])
  {
    var txns' := txns[t := txns[t].(stage := stage)];
    assert Needs(txns'[t]) == Needs(txns[t]);
    hide Needs;
  }

  /** A number read under the row's lock is free when it is written. */
  lemma NeverTaken(s: Server, t: nat)
    requires Inv(s) && t in s.txns && s.txns[t].stage.Numbered?
    ensures !Taken(s, t, s.txns[t].id, s.txns[t].stage.number)
  {
    hide R.Indexed, R.Shaped, Allowed;
    var id, log := s.txns[t].id, R.LogOf(s.db, s.txns[t].id);
    LogNumbered(s.db, id);
    R.MaxIsLast(log);
    forall u | u in s.txns && u != t && s.txns[u].id == id
      ensures !s.txns[u].stage.Written?
    {
      SameRow(s, t, u);
    }
  }

  lemma LogNumbered(db: Db, id: string)
    requires R.Sound(db)
    ensures E.Numbered(R.LogOf(db, id))
  {
    hide R.Indexed, R.Shaped, R.Path;
  }

  lemma LockKeeps(s: Server, t: nat)
    requires Inv(s) && t in s.txns && s.txns[t].stage.Waiting?
    requires Needs(s.txns[t]) * s.locks.Keys == {} && Allowed(s.db, s.txns[t])
    ensures Inv(Do(s, Locks(t)))
  {
    hide R.Sound, LocksOk, Allowed, R.MaxSequence;
    TakeLocks(s.locks, s.txns, t, NewRow(s.db, s.txns[t]));
    LockedOk(s.db, s.txns[t]);
  }

  lemma LockedOk(db: Db, x: Txn)
    requires Allowed(db, x)
    ensures TxnOk(db, x.(stage := Locked(NewRow(db, x))))
  {
    hide R.MaxSequence;
  }

  lemma OpenKeeps(s: Server, t: nat, id: string, work: Work)
    requires Inv(s)
    ensures Inv(Do(s, Opens(t, id, work)))
  {
    hide R.Sound, Allowed, R.MaxSequence, Needs;
  }

  lemma ReadKeeps(s: Server, t: nat)
    requires Inv(s) && t in s.txns && s.txns[t].stage.Locked?
    ensures Inv(Do(s, Reads(t)))
  {
    hide R.Sound, LocksOk, R.MaxSequence, R.LogOf;
    MoveLocks(s.locks, s.txns, t, Numbered(s.txns[t].stage.row, R.MaxSequence(R.LogOf(s.db, s.txns[t].id)) + 1));
  }

  lemma WriteKeeps(s: Server, t: nat)
    requires Inv(s) && t in s.txns && s.txns[t].stage.Numbered?
    ensures Inv(Do(s, Writes(t)))
  {
    hide R.Sound, LocksOk, R.MaxSequence, R.LogOf, Taken;
    NeverTaken(s, t);
    MoveLocks(s.locks, s.txns, t, Written(s.txns[t].stage.row, s.txns[t].stage.number));
  }

  lemma EndKeeps(s: Server, t: nat)
    requires Inv(s)
    ensures Inv(End(s, t))
  {
    hide R.Sound, LocksOk, TxnOk;
    EndLocks(s.locks, s.txns, t);
  }

  /** Every step keeps the invariant and changes the tables by one whole atomic transaction or not at all. */
  lemma DoKeeps(s: Server, e: Event)
    requires Inv(s)
    ensures Inv(Do(s, e))
    ensures Do(s, e).db == s.db
         || (e.Commits? && e.t in s.txns && Allowed(s.db, s.txns[e.t]) && Do(s, e).db == Atomic(s.db, s.txns[e.t]))
  {
    hide Inv, Allowed, Atomic, Publish, Needs, Taken;
    match e
    case Opens(t, id, work) => OpenKeeps(s, t, id, work);
    case Locks(t) =>
      if t in s.txns && s.txns[t].stage.Waiting? && Needs(s.txns[t]) * s.locks.Keys == {} {
        if Allowed(s.db, s.txns[t]) {
          LockKeeps(s, t);
        } else {
          EndKeeps(s, t);
        }
      }
    case Reads(t) => if t in s.txns && s.txns[t].stage.Locked? { ReadKeeps(s, t); }
    case Writes(t) => if t in s.txns && s.txns[t].stage.Numbered? { WriteKeeps(s, t); }
    case Commits(t) => if t in s.txns && s.txns[t].stage.Written? { CommitKeeps(s, t); }
    case RollsBack(t) => EndKeeps(s, t);
  }

  ghost function Run(s: Server, events: seq<Event>): Server
    decreases |events|
  {
    if events == [] then s else Run(Do(s, events[0]), events[1..])
  }

  /** The transactions that commit in a run, in the order of their commits. */
  ghost function Committed(s: Server, events: seq<Event>): seq<Txn>
    decreases |events|
  {
    if events == [] then []
    else
      var e := events[0];
      (if e.Commits? && e.t in s.txns && s.txns[e.t].stage.Written? then [s.txns[e.t]] else [])
      + Committed(Do(s, e), events[1..])
  }

  /** The same transactions one after another, each in one step; one whose checks fail does nothing. */
  function Serial(db: Db, xs: seq<Txn>): Db
    decreases |xs|
  {
    if xs == [] then db else Serial(if Allowed(db, xs[0]) then Atomic(db, xs[0]) else db, xs[1..])
  }

  /**
   Every interleaving leaves the tables as its committed transactions alone would, one after another in commit order.
   */
  lemma {:induction false} Serializable(s: Server, events: seq<Event>)
    requires Inv(s)
    ensures Inv(Run(s, events)) && Run(s, events).db == Serial(s.db, Committed(s, events))
    decreases |events|
  {
    hide Inv, Do, Allowed, Atomic;
    if events != [] {
      var e, next := events[0], Do(s, events[0]);
      DoKeeps(s, e);
      Serializable(next, events[1..]);
      var rest := Committed(next, events[1..]);
      if e.Commits? && e.t in s.txns && s.txns[e.t].stage.Written? {
        CommitKeeps(s, e.t);
        assert Committed(s, events) == [s.txns[e.t]] + rest && ([s.txns[e.t]] + rest)[1..] == rest;
      } else {
        StillSame(s, e);
        assert Committed(s, events) == rest;
      }
    }
  }

  lemma StillSame(s: Server, e: Event)
    requires !(e.Commits? && e.t in s.txns && s.txns[e.t].stage.Written?)
    ensures Do(s, e).db == s.db
  {
    hide Needs, Allowed, Publish, Taken;
  }

  /**
   However transactions interleave, every payment's committed events are numbered from 1 without gaps and tell its
   status, and no insert ever meets the unique key of payment and number.
   */
  lemma GapFree(db: Db, events: seq<Event>, id: string)
    requires R.Sound(db)
    ensures var s := Run(Server(db, map[], map[]), events);
      && E.Numbered(R.LogOf(s.db, id))
      && (id in s.db.payments ==> id in s.db.events && R.Faithful(s.db.events[id], s.db.payments[id].status))
      && (forall t :: t in s.txns ==> !s.txns[t].stage.Collided?)
      && (forall t :: t in s.txns && s.txns[t].stage.Numbered? ==> !Taken(s, t, s.txns[t].id, s.txns[t].stage.number))
  {
    hide R.Sound, R.LogOf, R.Faithful, Taken, Run, Allowed;
    Serializable(Server(db, map[], map[]), events);
    var s := Run(Server(db, map[], map[]), events);
    LogNumbered(s.db, id);
    Told(s.db, id);
    forall t | t in s.txns && s.txns[t].stage.Numbered?
      ensures !Taken(s, t, s.txns[t].id, s.txns[t].stage.number)
    {
      NeverTaken(s, t);
    }
  }

  lemma Told(db: Db, id: string)
    requires R.Sound(db)
    ensures id in db.payments ==> id in db.events && R.Faithful(db.events[id], db.payments[id].status)
  {
    hide R.Indexed, R.Shaped, R.Faithful;
  }

  // ---- Every transaction can run ----

  function StepsOf(t: nat, id: string, work: Work): seq<Event> {
    [Opens(t, id, work), Locks(t), Reads(t), Writes(t), Commits(t)]
  }

  lemma RunSteps(s: Server, a: Event, b: Event, c: Event, d: Event, e: Event)
    ensures Run(s, [a, b, c, d, e]) == Do(Do(Do(Do(Do(s, a), b), c), d), e)
  {
    hide Do;
    assert [a, b, c, d, e][1..] == [b, c, d, e] && [b, c, d, e][1..] == [c, d, e];
    assert [c, d, e][1..] == [d, e] && [d, e][1..] == [e] && [e][1..] == [];
    var last := Do(Do(Do(Do(s, a), b), c), d);
    assert Run(s, [a, b, c, d, e]) == Run(Do(Do(s, a), b), [c, d, e]);
    assert Run(Do(Do(s, a), b), [c, d, e]) == Run(last, [e]);
    assert Run(last, [e]) == Run(Do(last, e), []);
  }

  lemma OpenedTxn(s: Server, t: nat, id: string, work: Work)
    requires t !in s.txns
    ensures var r := Do(s, Opens(t, id, work));
      t in r.txns && r.txns[t] == Txn(id, work, Waiting) && r.db == s.db && r.locks == s.locks
  {
  }

  lemma RefusedTxn(s: Server, t: nat)
    requires t in s.txns && s.txns[t].stage.Waiting?
    requires Needs(s.txns[t]) * s.locks.Keys == {} && !Allowed(s.db, s.txns[t])
    ensures Do(Do(Do(Do(s, Locks(t)), Reads(t)), Writes(t)), Commits(t)) == End(s, t)
  {
    hide Needs, Allowed;
  }

  lemma LockedTxn(s: Server, t: nat)
    requires t in s.txns && s.txns[t].stage.Waiting?
    requires Needs(s.txns[t]) * s.locks.Keys == {} && Allowed(s.db, s.txns[t])
    ensures var r := Do(Do(s, Locks(t)), Reads(t));
      && t in r.txns && r.db == s.db && r.txns[t].stage.Numbered?
      && r.txns[t].id == s.txns[t].id && r.txns[t].work == s.txns[t].work
  {
    hide Needs, Allowed, NewRow, R.MaxSequence;
  }

  lemma WrittenTxn(s: Server, t: nat)
    requires t in s.txns && s.txns[t].stage.Numbered? && !Taken(s, t, s.txns[t].id, s.txns[t].stage.number)
    ensures var r := Do(s, Writes(t));
      && t in r.txns && r.db == s.db && r.txns[t].stage.Written?
      && r.txns[t].id == s.txns[t].id && r.txns[t].work == s.txns[t].work
  {
    hide Taken;
  }

  lemma SameWork(db: Db, x: Txn, y: Txn)
    requires x.id == y.id && x.work == y.work
    ensures Allowed(db, x) == Allowed(db, y) && (Allowed(db, x) ==> Atomic(db, x) == Atomic(db, y))
  {
  }

  /**
   Whatever others are in the middle of, a transaction whose locks nobody holds runs to its end: it leaves the tables as
   its one atomic step would, or as they were if its checks refuse it.
   */
  lemma UnlockedRuns(s: Server, t: nat, id: string, work: Work)
    requires Inv(s) && t !in s.txns && Needs(Txn(id, work, Waiting)) * s.locks.Keys == {}
    ensures var x, r := Txn(id, work, Waiting), Run(s, StepsOf(t, id, work));
      && r.db == (if Allowed(s.db, x) then Atomic(s.db, x) else s.db) && t !in r.txns
  {
    hide Inv, Do, Needs, Allowed, Atomic, Taken;
    RunSteps(s, Opens(t, id, work), Locks(t), Reads(t), Writes(t), Commits(t));
    OpenedTxn(s, t, id, work);
    DoKeeps(s, Opens(t, id, work));
    var begun := Do(s, Opens(t, id, work));
    if Allowed(begun.db, begun.txns[t]) {
      LockedTxn(begun, t);
      DoKeeps(begun, Locks(t));
      DoKeeps(Do(begun, Locks(t)), Reads(t));
      var numbered := Do(Do(begun, Locks(t)), Reads(t));
      NeverTaken(numbered, t);
      WrittenTxn(numbered, t);
      DoKeeps(numbered, Writes(t));
      var written := Do(numbered, Writes(t));
      CommitKeeps(written, t);
      SameWork(s.db, begun.txns[t], written.txns[t]);
      Gone(written, t);
    } else {
      RefusedTxn(begun, t);
    }
  }

  lemma Gone(s: Server, t: nat)
    requires t in s.txns && s.txns[t].stage.Written?
    ensures t !in Do(s, Commits(t)).txns
  {
    hide Publish;
  }
}

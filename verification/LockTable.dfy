/**
 lockIdempotencyKey of internal/service/payment.go: a table of reference-counted locks, one per key in use, whose
 entries are deleted and recreated while threads come and go.  Each step below is what one thread does while it holds
 the table's mutex, or one acquisition or release of an entry's own mutex.
 */
module LockTable {
  datatype Place = Waiting | Inside | Leaving

  /** A thread between its registration and its deregistration, and the entry it was handed. */
  datatype Thread = Thread(key: string, entry: nat, place: Place)

  /** Entries are addresses; `users` and `holder` are the fields of the entry at each address ever allocated. */
  datatype Table = Table(
    keys: map<string, nat>, users: map<nat, int>, holder: map<nat, nat>, threads: map<nat, Thread>, next: nat)

  datatype Event =
    | Register(thread: nat, key: string) | Lock(thread: nat) | Unlock(thread: nat) | Deregister(thread: nat)

  function Empty(): Table {
    Table(map[], map[], map[], map[], 0)
  }

  function UsersOf(s: Table, entry: nat): int {
    if entry in s.users then s.users[entry] else 0
  }

  function Registered(s: Table, t: nat, key: string): Table {
    var entry := if key in s.keys then s.keys[key] else s.next;
    Table(s.keys[key := entry], s.users[entry := UsersOf(s, entry) + 1], s.holder,
          s.threads[t := Thread(key, entry, Waiting)], if key in s.keys then s.next else s.next + 1)
  }

  function Deregistered(s: Table, t: nat): Table
    requires t in s.threads
  {
    var th := s.threads[t];
    var left := UsersOf(s, th.entry) - 1;
    s.(users := s.users[th.entry := left], keys := if left == 0 then s.keys - {th.key} else s.keys,
       threads := s.threads - {t})
  }

  /** A thread that is not at the point an event belongs to, or whose lock is taken, stays where it is. */
  function Do(s: Table, e: Event): Table {
    var t := e.thread;
    match e
    case Register(_, key) => if t in s.threads then s else Registered(s, t, key)
    case Lock(_) =>
      if t in s.threads && s.threads[t].place.Waiting? && s.threads[t].entry !in s.holder
      then s.(holder := s.holder[s.threads[t].entry := t], threads := s.threads[t := s.threads[t].(place := Inside)])
      else s
    case Unlock(_) =>
      if t in s.threads && s.threads[t].place.Inside?
      then s.(holder := s.holder - {s.threads[t].entry}, threads := s.threads[t := s.threads[t].(place := Leaving)])
      else s
    case Deregister(_) => if t in s.threads && s.threads[t].place.Leaving? then Deregistered(s, t) else s
  }

  function Run(s: Table, events: seq<Event>): Table
    decreases |events|
  {
    if events == [] then s else Run(Do(s, events[0]), events[1..])
  }

  /** The threads that hold a reference to an entry. */
  function Users(threads: map<nat, Thread>, entry: nat): set<nat> {
    set t | t in threads && threads[t].entry == entry
  }

  /** Every thread's entry is the one the table has for its key. */
  ghost predicate Current(s: Table) {
    forall t :: t in s.threads ==> s.threads[t].key in s.keys && s.keys[s.threads[t].key] == s.threads[t].entry
  }

  /** Every count is the number of registered threads. */
  ghost predicate Counted(s: Table) {
    forall e: nat :: UsersOf(s, e) == |Users(s.threads, e)|
  }

  /** The table's entries are distinct, allocated and in use. */
  ghost predicate InUse(s: Table) {
    && (forall k :: k in s.keys ==> s.keys[k] < s.next && UsersOf(s, s.keys[k]) > 0)
    && (forall j, k | j in s.keys && k in s.keys :: s.keys[j] == s.keys[k] ==> j == k)
    && (forall t :: t in s.threads ==> s.threads[t].entry < s.next)
  }

  /** An entry's mutex is held by exactly the thread that is inside. */
  ghost predicate Held(s: Table) {
    && (forall e :: e in s.holder ==>
          s.holder[e] in s.threads && s.threads[s.holder[e]].entry == e && s.threads[s.holder[e]].place.Inside?)
    && (forall t :: t in s.threads && s.threads[t].place.Inside? ==>
          s.threads[t].entry in s.holder && s.holder[s.threads[t].entry] == t)
  }

  ghost predicate Inv(s: Table) {
    Current(s) && Counted(s) && InUse(s) && Held(s)
  }

  lemma EmptyInv()
    ensures Inv(Empty())
  {
    forall e: nat
      ensures UsersOf(Empty(), e) == |Users(Empty().threads, e)|
    {
      assert Users(Empty().threads, e) == {};
    }
  }

  lemma UsersWrite(threads: map<nat, Thread>, t: nat, th: Thread, e: nat)
    ensures Users(threads[t := th], e) == Users(threads, e) - {t} + if th.entry == e then {t} else {}
  {
  }

  lemma UsersDrop(threads: map<nat, Thread>, t: nat, e: nat)
    ensures Users(threads - {t}, e) == Users(threads, e) - {t}
  {
  }

  lemma RegisterCounted(s: Table, t: nat, key: string)
    requires Counted(s) && t !in s.threads
    ensures Counted(Registered(s, t, key))
  {
    var r := Registered(s, t, key);
    forall e: nat
      ensures UsersOf(r, e) == |Users(r.threads, e)|
    {
      UsersWrite(s.threads, t, r.threads[t], e);
      assert t !in Users(s.threads, e) && Users(s.threads, e) - {t} == Users(s.threads, e);
    }
  }

  lemma DeregisterCounted(s: Table, t: nat)
    requires Counted(s) && t in s.threads
    ensures Counted(Deregistered(s, t))
  {
    var r := Deregistered(s, t);
    forall e: nat
      ensures UsersOf(r, e) == |Users(r.threads, e)|
    {
      UsersDrop(s.threads, t, e);
      assert e == s.threads[t].entry ==> t in Users(s.threads, e);
      assert e != s.threads[t].entry ==> Users(s.threads, e) - {t} == Users(s.threads, e);
    }
  }

  lemma MoveCounted(s: Table, t: nat, place: Place, holder: map<nat, nat>)
    requires Counted(s) && t in s.threads
    ensures Counted(s.(threads := s.threads[t := s.threads[t].(place := place)], holder := holder))
  {
    var r := s.(threads := s.threads[t := s.threads[t].(place := place)], holder := holder);
    forall e: nat
      ensures UsersOf(r, e) == |Users(r.threads, e)|
    {
      UsersWrite(s.threads, t, r.threads[t], e);
      assert Users(r.threads, e) == Users(s.threads, e);
    }
  }

  /** A thread registered under an entry keeps that entry's count above zero. */
  lemma UsedByThread(s: Table, t: nat)
    requires Counted(s) && t in s.threads
    ensures UsersOf(s, s.threads[t].entry) >= 1
    ensures forall u :: u in s.threads && u != t && s.threads[u].entry == s.threads[t].entry ==>
        UsersOf(s, s.threads[t].entry) >= 2
  {
    var us := Users(s.threads, s.threads[t].entry);
    assert t in us && |us| == |us - {t}| + 1;
    forall u | u in s.threads && u != t && s.threads[u].entry == s.threads[t].entry
      ensures |us - {t}| >= 1
    {
      assert u in us - {t};
    }
  }

  lemma FreshEntry(s: Table)
    requires Counted(s) && InUse(s)
    ensures UsersOf(s, s.next) == 0
  {
    assert Users(s.threads, s.next) == {};
  }

  lemma RegisterCurrent(s: Table, t: nat, key: string)
    requires Current(s)
    ensures Current(Registered(s, t, key))
  {
  }

  lemma RegisterInUse(s: Table, t: nat, key: string)
    requires Counted(s) && InUse(s)
    ensures InUse(Registered(s, t, key))
  {
    FreshEntry(s);
    hide Counted;
  }

  lemma RegisterHeld(s: Table, t: nat, key: string)
    requires Held(s) && t !in s.threads
    ensures Held(Registered(s, t, key))
  {
  }

  /** The thread that leaves is the entry's last user if and only if no other thread has its key. */
  lemma DeregisterCurrent(s: Table, t: nat)
    requires Current(s) && Counted(s) && t in s.threads
    ensures Current(Deregistered(s, t))
  {
    UsedByThread(s, t);
    hide Counted;
  }

  lemma DeregisterInUse(s: Table, t: nat)
    requires Current(s) && Counted(s) && InUse(s) && t in s.threads
    ensures InUse(Deregistered(s, t))
  {
    UsedByThread(s, t);
    hide Counted;
    var r := Deregistered(s, t);
    forall k | k in r.keys
      ensures r.keys[k] < r.next && UsersOf(r, r.keys[k]) > 0
    {
      assert k in s.keys && UsersOf(s, s.keys[k]) > 0;
    }
  }

  lemma DeregisterHeld(s: Table, t: nat)
    requires Held(s) && t in s.threads && s.threads[t].place.Leaving?
    ensures Held(Deregistered(s, t))
  {
  }

  lemma RegisterKeeps(s: Table, t: nat, key: string)
    requires Inv(s) && t !in s.threads
    ensures Inv(Registered(s, t, key))
  {
    hide Current, Counted, InUse, Held, Registered;
    RegisterCurrent(s, t, key);
    RegisterCounted(s, t, key);
    RegisterInUse(s, t, key);
    RegisterHeld(s, t, key);
  }

  lemma DeregisterKeeps(s: Table, t: nat)
    requires Inv(s) && t in s.threads && s.threads[t].place.Leaving?
    ensures Inv(Deregistered(s, t))
  {
    hide Current, Counted, InUse, Held, Deregistered;
    DeregisterCurrent(s, t);
    DeregisterCounted(s, t);
    DeregisterInUse(s, t);
    DeregisterHeld(s, t);
  }

  lemma LockKeeps(s: Table, t: nat)
    requires Inv(s) && t in s.threads
    ensures Inv(Do(s, Lock(t)))
  {
    hide Counted;
    MoveCounted(s, t, Inside, s.holder[s.threads[t].entry := t]);
  }

  lemma UnlockHeld(s: Table, t: nat)
    requires Held(s) && t in s.threads
    ensures Held(Do(s, Unlock(t)))
  {
  }

  lemma UnlockKeeps(s: Table, t: nat)
    requires Inv(s) && t in s.threads
    ensures Inv(Do(s, Unlock(t)))
  {
    hide Counted, Held;
    UnlockHeld(s, t);
    MoveCounted(s, t, Leaving, s.holder - {s.threads[t].entry});
  }

  /** Every step keeps the invariant. */
  lemma DoKeeps(s: Table, e: Event)
    requires Inv(s)
    ensures Inv(Do(s, e))
  {
    hide Inv, Registered, Deregistered;
    var t := e.thread;
    match e
    case Register(_, key) =>
      if t !in s.threads {
        RegisterKeeps(s, t, key);
      }
    case Lock(_) =>
      if t in s.threads {
        LockKeeps(s, t);
      }
    case Unlock(_) =>
      if t in s.threads {
        UnlockKeeps(s, t);
      }
    case Deregister(_) =>
      if t in s.threads && s.threads[t].place.Leaving? {
        DeregisterKeeps(s, t);
      }
  }

  lemma {:induction false} RunKeeps(s: Table, events: seq<Event>)
    requires Inv(s)
    ensures Inv(Run(s, events))
    decreases |events|
  {
    hide Inv, Do;
    if events != [] {
      DoKeeps(s, events[0]);
      RunKeeps(Do(s, events[0]), events[1..]);
    }
  }

  /** The keys some registered thread is using. */
  ghost predicate Wanted(s: Table, key: string) {
    exists t :: t in s.threads && s.threads[t].key == key
  }

  lemma KeysWanted(s: Table, key: string)
    requires Inv(s)
    ensures key in s.keys <==> Wanted(s, key)
    ensures key in s.keys ==> UsersOf(s, s.keys[key]) == |set t | t in s.threads && s.threads[t].key == key|
  {
    if key in s.keys {
      var e := s.keys[key];
      assert |Users(s.threads, e)| > 0;
      var t :| t in Users(s.threads, e);
      assert s.keys[s.threads[t].key] == s.keys[key];
      assert (set u | u in s.threads && s.threads[u].key == key) == Users(s.threads, e);
    }
  }

  /**
   Under every interleaving: at most one thread is inside the section of a key; the threads of a key share the entry the
   table has for it, whose count is their number; and the table holds exactly the keys in use, so an idle table is
   empty.
   */
  lemma MutualExclusion(events: seq<Event>, key: string)
    ensures var s := Run(Empty(), events);
      && (forall t, u | t in s.threads && u in s.threads && s.threads[t].key == key && s.threads[u].key == key ::
            && key in s.keys && s.threads[t].entry == s.threads[u].entry == s.keys[key]
            && (s.threads[t].place.Inside? && s.threads[u].place.Inside? ==> t == u))
      && (key in s.keys <==> Wanted(s, key))
      && (key in s.keys ==> UsersOf(s, s.keys[key]) == |set t | t in s.threads && s.threads[t].key == key|)
      && (s.threads == map[] ==> s.keys == map[])
  {
    EmptyInv();
    RunKeeps(Empty(), events);
    var s := Run(Empty(), events);
    hide Run;
    KeysWanted(s, key);
    forall k
      ensures k in s.keys ==> s.threads != map[]
    {
      KeysWanted(s, k);
    }
  }

  // ---- Nobody waits for nothing ----

  predicate IsAt(s: Table, t: nat, place: Place) {
    t in s.threads && s.threads[t].place == place
  }

  /** Nobody is inside the section of this key. */
  ghost predicate Vacant(s: Table, key: string) {
    forall u :: IsAt(s, u, Inside) ==> s.threads[u].key != key
  }

  /** A thread that waits gets in if nobody of its key is inside. */
  lemma VacantIsTaken(s: Table, t: nat)
    requires Inv(s) && IsAt(s, t, Waiting) && Vacant(s, s.threads[t].key)
    ensures IsAt(Do(s, Lock(t)), t, Inside)
  {
    if s.threads[t].entry in s.holder {
      HolderIsInside(s, t);
    }
  }

  lemma HolderIsInside(s: Table, t: nat)
    requires Inv(s) && t in s.threads && s.threads[t].entry in s.holder
    ensures var u := s.holder[s.threads[t].entry]; IsAt(s, u, Inside) && s.threads[u].key == s.threads[t].key
  {
    hide Counted;
    var u := s.holder[s.threads[t].entry];
    assert s.keys[s.threads[u].key] == s.keys[s.threads[t].key];
  }

  /** Once the thread inside has unlocked, any other that waits for its key gets in. */
  lemma UnlockedIsTaken(s: Table, u: nat, t: nat)
    requires Inv(s) && IsAt(s, t, Waiting) && IsAt(s, u, Inside) && s.threads[u].key == s.threads[t].key
    ensures IsAt(Do(Do(s, Unlock(u)), Lock(t)), t, Inside)
  {
    hide Counted, InUse;
  }

  /**
   In every reachable table each thread can go on: one outside can register, one that waits gets in if its key is vacant
   and otherwise as soon as the thread inside has unlocked, one inside can unlock, and one that has unlocked can leave.
   */
  lemma EveryThreadGoesOn(events: seq<Event>, t: nat, key: string)
    ensures var s := Run(Empty(), events);
      && (t !in s.threads ==>
            IsAt(Do(s, Register(t, key)), t, Waiting) && Do(s, Register(t, key)).threads[t].key == key)
      && (IsAt(s, t, Waiting) && Vacant(s, s.threads[t].key) ==> IsAt(Do(s, Lock(t)), t, Inside))
      && (forall u :: IsAt(s, t, Waiting) && IsAt(s, u, Inside) && s.threads[u].key == s.threads[t].key ==>
            IsAt(Do(Do(s, Unlock(u)), Lock(t)), t, Inside))
      && (IsAt(s, t, Inside) ==> IsAt(Do(s, Unlock(t)), t, Leaving))
      && (IsAt(s, t, Leaving) ==> t !in Do(s, Deregister(t)).threads)
  {
    hide Inv, Vacant, Do;
    EmptyInv();
    RunKeeps(Empty(), events);
    var s := Run(Empty(), events);
    if IsAt(s, t, Waiting) && Vacant(s, s.threads[t].key) {
      VacantIsTaken(s, t);
    }
    forall u | IsAt(s, t, Waiting) && IsAt(s, u, Inside) && s.threads[u].key == s.threads[t].key
      ensures IsAt(Do(Do(s, Unlock(u)), Lock(t)), t, Inside)
    {
      UnlockedIsTaken(s, u, t);
    }
    OwnMoves(s, t, key);
  }

  lemma OwnMoves(s: Table, t: nat, key: string)
    ensures t !in s.threads ==>
      IsAt(Do(s, Register(t, key)), t, Waiting) && Do(s, Register(t, key)).threads[t].key == key
    ensures IsAt(s, t, Inside) ==> IsAt(Do(s, Unlock(t)), t, Leaving)
    ensures IsAt(s, t, Leaving) ==> t !in Do(s, Deregister(t)).threads
  {
  }

  /** A thread leaves the table, by way of the section if it has not been there. */
  lemma OneLeaves(s: Table, t: nat) returns (r: Table, way: seq<Event>)
    requires Inv(s) && t in s.threads && (IsAt(s, t, Waiting) ==> Vacant(s, s.threads[t].key))
    ensures Inv(r) && r == Run(s, way) && r.threads == s.threads - {t}
  {
    hide Inv, Counted;
    r, way := s, [];
    assert Run(s, []) == s;
    if IsAt(r, t, Waiting) {
      VacantIsTaken(s, t);
      r, way := OneStep(s, r, way, Lock(t));
    }
    if IsAt(r, t, Inside) {
      r, way := OneStep(s, r, way, Unlock(t));
    }
    r, way := OneStep(s, r, way, Deregister(t));
  }

  lemma OneStep(s: Table, r: Table, way: seq<Event>, e: Event) returns (r': Table, way': seq<Event>)
    requires Inv(r) && r == Run(s, way)
    ensures Inv(r') && r' == Do(r, e) && r' == Run(s, way')
  {
    hide Inv, Do;
    DoKeeps(r, e);
    RunAppend(s, way, e);
    r', way' := Do(r, e), way + [e];
  }

  lemma {:induction false} RunAppend(s: Table, events: seq<Event>, e: Event)
    ensures Run(s, events + [e]) == Do(Run(s, events), e)
    decreases |events|
  {
    hide Do;
    if events == [] {
      assert [e][1..] == [] && events + [e] == [e];
    } else {
      assert (events + [e])[1..] == events[1..] + [e];
      RunAppend(Do(s, events[0]), events[1..], e);
    }
  }

  lemma {:induction false} RunTwice(s: Table, a: seq<Event>, b: seq<Event>)
    ensures Run(s, a + b) == Run(Run(s, a), b)
    decreases |a|
  {
    hide Do;
    if a == [] {
      assert a + b == b;
    } else {
      assert (a + b)[1..] == a[1..] + b;
      RunTwice(Do(s, a[0]), a[1..], b);
    }
  }

  /** Somebody can leave: whoever is inside a section, or anybody if all sections are vacant. */
  lemma SomeoneLeaves(s: Table) returns (t: nat)
    requires Inv(s) && s.threads != map[]
    ensures t in s.threads && (IsAt(s, t, Waiting) ==> Vacant(s, s.threads[t].key))
  {
    hide Inv;
    t :| t in s.threads;
    if IsAt(s, t, Waiting) && !Vacant(s, s.threads[t].key) {
      t :| IsAt(s, t, Inside);
    }
  }

  /** Hence there is no deadlock: from every reachable table some run empties it, of threads and of keys. */
  lemma Drains(s: Table) returns (events: seq<Event>)
    requires Inv(s)
    ensures Run(s, events).threads == map[] && Run(s, events).keys == map[]
    decreases |s.threads|
  {
    hide Inv, Do;
    if s.threads == map[] {
      NoKeys(s);
      return [];
    }
    var t := SomeoneLeaves(s);
    var r, way := OneLeaves(s, t);
    assert s.threads == r.threads[t := s.threads[t]];
    var rest := Drains(r);
    RunTwice(s, way, rest);
    return way + rest;
  }

  lemma NoKeys(s: Table)
    requires Inv(s) && s.threads == map[]
    ensures s.keys == map[]
  {
    forall k
      ensures k !in s.keys
    {
      KeysWanted(s, k);
    }
  }
}

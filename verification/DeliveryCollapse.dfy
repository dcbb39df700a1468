/**
 The network may deliver branch calls late, twice, out of order or not at all.  Whatever arrives, the business tables
 end as if only a few of the calls had run, without any barrier: per branch, at most one Try and then at most one
 settlement.
 */
module DeliveryCollapse {
  import opened Domain
  import opened Tables
  import opened BranchRules

  /** Deliver the calls in the order they arrive. */
  function Arrive(db: Db, ms: seq<Msg>): Db
    decreases |ms|
  {
    if ms == [] then db else Arrive(After(db, ms[0]), ms[1..])
  }

  /** The same business code with no barrier in front of it. */
  function Bare(db: Db, ms: seq<Msg>): Db
    decreases |ms|
  {
    if ms == [] then db
    else
      var e := Business(db, ms[0]);
      Bare(if e.Applied? then e.db else db, ms[1..])
  }

  function Books(db: Db): Db {
    db.(barrier := map[])
  }

  predicate Effective(db: Db, m: Msg) {
    Books(After(db, m)) != Books(db)
  }

  /** Some of the calls, in the order they arrived. */
  predicate Subsequence(cs: seq<Msg>, ms: seq<Msg>) {
    cs == [] || (ms != [] && ((cs[0] == ms[0] && Subsequence(cs[1..], ms[1..])) || Subsequence(cs, ms[1..])))
  }

  /** The calls that changed a business row when they arrived. */
  function Canonical(db: Db, ms: seq<Msg>): (cs: seq<Msg>)
    ensures Subsequence(cs, ms)
    decreases |ms|
  {
    if ms == [] then []
    else
      var rest := Canonical(After(db, ms[0]), ms[1..]);
      assert ([ms[0]] + rest)[1..] == rest && [] + rest == rest;
      (if Effective(db, ms[0]) then [ms[0]] else []) + rest
  }

  /** Two effects that agree up to the barrier table, which neither has touched. */
  ghost predicate SameButBarrier(e: Effect, f: Effect, was: map<BarrierKey, Op>, barrier: map<BarrierKey, Op>) {
    && (e.Applied? <==> f.Applied?)
    && (e.Applied? ==> e.db.barrier == was && f.db == e.db.(barrier := barrier))
  }

  lemma AccountTryIgnoresBarrier(db: Db, q: Request, barrier: map<BarrierKey, Op>)
    ensures SameButBarrier(AccountTry(db, q), AccountTry(db.(barrier := barrier), q), db.barrier, barrier)
  {
    assert ReservationFits(db, q) <==> ReservationFits(db.(barrier := barrier), q);
  }

  lemma LedgerTryIgnoresBarrier(db: Db, q: Request, barrier: map<BarrierKey, Op>)
    ensures SameButBarrier(LedgerTry(db, q), LedgerTry(db.(barrier := barrier), q), db.barrier, barrier)
  {
    assert LedgerRowFits(db, q) <==> LedgerRowFits(db.(barrier := barrier), q);
  }

  lemma AccountSettleIgnoresBarrier(db: Db, q: Request, r: ReservationState, barrier: map<BarrierKey, Op>)
    ensures SameButBarrier(AccountSettle(db, q, r), AccountSettle(db.(barrier := barrier), q, r), db.barrier, barrier)
  {
  }

  lemma LedgerSettleIgnoresBarrier(db: Db, q: Request, l: EntryState, barrier: map<BarrierKey, Op>)
    ensures SameButBarrier(LedgerSettle(db, q, l), LedgerSettle(db.(barrier := barrier), q, l), db.barrier, barrier)
  {
  }

  /** The business code neither reads nor writes the barrier table. */
  lemma BusinessIgnoresBarrier(db: Db, m: Msg, barrier: map<BarrierKey, Op>)
    ensures SameButBarrier(Business(db, m), Business(db.(barrier := barrier), m), db.barrier, barrier)
  {
    hide SameButBarrier, AccountTry, LedgerTry, AccountSettle, LedgerSettle;
    var q := m.request;
    AccountTryIgnoresBarrier(db, q, barrier);
    LedgerTryIgnoresBarrier(db, q, barrier);
    AccountSettleIgnoresBarrier(db, q, Confirmed, barrier);
    AccountSettleIgnoresBarrier(db, q, Cancelled, barrier);
    LedgerSettleIgnoresBarrier(db, q, Posted, barrier);
    LedgerSettleIgnoresBarrier(db, q, Voided, barrier);
  }

  lemma RunBooks(db: Db, m: Msg)
    ensures var e, f := Business(Marked(db, m), m), Business(db, m);
      (e.Applied? <==> f.Applied?) && (e.Applied? ==> Books(e.db) == Books(f.db))
  {
    hide Business, Insert;
    BusinessIgnoresBarrier(db, m, Marked(db, m).barrier);
    assert Marked(db, m) == db.(barrier := Marked(db, m).barrier);
  }

  /** The tables the business code would leave, if the barrier lets it run. */
  function Worked(db: Db, m: Msg): Db {
    if Runs(db, m) && Business(db, m).Applied? then Business(db, m).db else db
  }

  /** What a delivery does to the books is what the business code alone would do, or nothing. */
  lemma DeliveryWorks(db: Db, m: Msg)
    ensures Books(After(db, m)) == Books(Worked(db, m))
  {
    hide Business, Insert, Runs;
    RunBooks(db, m);
    if !Runs(db, m) {
      assert After(db, m) == Marked(db, m);
    } else if Business(db, m).Applied? {
      assert After(db, m) == Business(Marked(db, m), m).db;
    } else {
      assert After(db, m) == db;
    }
  }

  /** An effective call runs the business code, and what the barrier adds is only its own rows. */
  lemma EffectiveRuns(db: Db, m: Msg)
    ensures Effective(db, m) ==> Runs(db, m) && Business(db, m).Applied?
    ensures Books(After(db, m)) == Books(if Effective(db, m) then Business(db, m).db else db)
  {
    hide Business, Insert, Runs, After, Books;
    DeliveryWorks(db, m);
  }

  lemma {:induction false} BareIgnoresBarrier(db: Db, ms: seq<Msg>, barrier: map<BarrierKey, Op>)
    ensures Bare(db.(barrier := barrier), ms) == Bare(db, ms).(barrier := barrier)
    decreases |ms|
  {
    if ms != [] {
      BusinessIgnoresBarrier(db, ms[0], barrier);
      var e := Business(db, ms[0]);
      BareIgnoresBarrier(if e.Applied? then e.db else db, ms[1..], barrier);
    }
  }

  /** Every arrival order collapses: the books end exactly as the canonical calls alone would leave them. */
  lemma {:induction false} Collapse(db: Db, ms: seq<Msg>)
    ensures Books(Arrive(db, ms)) == Books(Bare(db, Canonical(db, ms)))
    decreases |ms|
  {
    if ms != [] {
      hide Business, After, Effective;
      var m, next, rest := ms[0], After(db, ms[0]), Canonical(After(db, ms[0]), ms[1..]);
      Collapse(next, ms[1..]);
      EffectiveRuns(db, m);
      var done := if Effective(db, m) then Business(db, m).db else db;
      BareIgnoresBarrier(done, rest, map[]);
      BareIgnoresBarrier(next, rest, map[]);
      if Effective(db, m) {
        assert Canonical(db, ms) == [m] + rest && ([m] + rest)[1..] == rest;
        assert Bare(db, [m] + rest) == Bare(done, rest);
      } else {
        assert Canonical(db, ms) == rest;
      }
    }
  }

  datatype Stage = Absent | Open | Settled

  /** How far the row of one branch has come. */
  function StageOf(db: Db, gid: string, branch: Branch): Stage {
    match branch
    case AccountBranch =>
      if gid !in db.reservations then Absent else if db.reservations[gid].state.Frozen? then Open else Settled
    case LedgerBranch =>
      if gid !in db.ledger then Absent else if db.ledger[gid].state.Prepared? then Open else Settled
  }

  /** The calls of one branch, in order. */
  function Slice(ms: seq<Msg>, gid: string, branch: Branch): seq<Msg> {
    if ms == [] then []
    else (if ms[0].request.gid == gid && ms[0].branch == branch then [ms[0]] else []) + Slice(ms[1..], gid, branch)
  }

  /** At most one Try, then at most one Confirm or Cancel, starting where the row already stands. */
  predicate Shape(cs: seq<Msg>, stage: Stage) {
    match stage
    case Absent => cs == [] || (cs[0].op.Try? && Shape(cs[1..], Open))
    case Open => cs == [] || (!cs[0].op.Try? && cs[1..] == [])
    case Settled => cs == []
  }

  /** The row a call is about, before and after its business code ran. */
  ghost predicate Moved(db: Db, e: Effect, m: Msg, gid: string, branch: Branch) {
    var here := m.request.gid == gid && m.branch == branch;
    e.Applied? ==>
      var before, after := StageOf(db, gid, branch), StageOf(e.db, gid, branch);
      if here && Books(e.db) != Books(db)
      then if m.op.Try? then before == Absent && after == Open else before == Open && after == Settled
      else after == before
  }

  lemma AccountTryMoves(db: Db, m: Msg, gid: string, branch: Branch)
    requires m.branch.AccountBranch? && m.op.Try?
    ensures Moved(db, AccountTry(db, m.request), m, gid, branch)
  {
    assert ReservationFits(db, m.request) ==> m.request.gid !in db.reservations;
    hide ReservationFits, CanPay;
  }

  lemma AccountSettleMoves(db: Db, m: Msg, state: ReservationState, gid: string, branch: Branch)
    requires m.branch.AccountBranch? && !m.op.Try? && !state.Frozen?
    ensures Moved(db, AccountSettle(db, m.request, state), m, gid, branch)
  {
  }

  lemma LedgerTryMoves(db: Db, m: Msg, gid: string, branch: Branch)
    requires m.branch.LedgerBranch? && m.op.Try?
    ensures Moved(db, LedgerTry(db, m.request), m, gid, branch)
  {
  }

  lemma LedgerSettleMoves(db: Db, m: Msg, state: EntryState, gid: string, branch: Branch)
    requires m.branch.LedgerBranch? && !m.op.Try? && !state.Prepared?
    ensures Moved(db, LedgerSettle(db, m.request, state), m, gid, branch)
  {
  }

  lemma BusinessMoves(db: Db, m: Msg, gid: string, branch: Branch)
    ensures Moved(db, Business(db, m), m, gid, branch)
  {
    hide Moved, AccountTry, LedgerTry, AccountSettle, LedgerSettle;
    match (m.branch, m.op)
    case (AccountBranch, Try) => AccountTryMoves(db, m, gid, branch);
    case (AccountBranch, Confirm) => AccountSettleMoves(db, m, Confirmed, gid, branch);
    case (AccountBranch, Cancel) => AccountSettleMoves(db, m, Cancelled, gid, branch);
    case (LedgerBranch, Try) => LedgerTryMoves(db, m, gid, branch);
    case (LedgerBranch, Confirm) => LedgerSettleMoves(db, m, Posted, gid, branch);
    case (LedgerBranch, Cancel) => LedgerSettleMoves(db, m, Voided, gid, branch);
  }

  lemma StageInBooks(db: Db, db': Db, gid: string, branch: Branch)
    requires Books(db) == Books(db')
    ensures StageOf(db, gid, branch) == StageOf(db', gid, branch)
  {
    assert db.reservations == Books(db).reservations && db.ledger == Books(db).ledger;
  }

  /** A call changes a business row only by moving its own branch one stage on. */
  lemma EffectiveMoves(db: Db, m: Msg, gid: string, branch: Branch)
    ensures var here := m.request.gid == gid && m.branch == branch;
      var before, after := StageOf(db, gid, branch), StageOf(After(db, m), gid, branch);
      if here && Effective(db, m)
      then if m.op.Try? then before == Absent && after == Open else before == Open && after == Settled
      else after == before
  {
    hide Business, After, Books, StageOf;
    EffectiveRuns(db, m);
    BusinessMoves(db, m, gid, branch);
    StageInBooks(After(db, m), if Effective(db, m) then Business(db, m).db else db, gid, branch);
  }

  lemma {:induction false} CanonicalShape(db: Db, ms: seq<Msg>, gid: string, branch: Branch)
    ensures Shape(Slice(Canonical(db, ms), gid, branch), StageOf(db, gid, branch))
    decreases |ms|
  {
    hide Subsequence, Business, After, Effective, StageOf;
    if ms != [] {
      var m, rest := ms[0], Canonical(After(db, ms[0]), ms[1..]);
      CanonicalShape(After(db, m), ms[1..], gid, branch);
      EffectiveMoves(db, m, gid, branch);
      if Effective(db, m) {
        assert Canonical(db, ms) == [m] + rest;
        assert ([m] + rest)[1..] == rest;
        if m.request.gid == gid && m.branch == branch {
          assert Slice([m] + rest, gid, branch) == [m] + Slice(rest, gid, branch);
          assert ([m] + Slice(rest, gid, branch))[1..] == Slice(rest, gid, branch);
        }
      } else {
        assert Canonical(db, ms) == rest;
      }
    }
  }

  /** Every Cancel row stands beside its Try row. */
  ghost predicate CancelsClaimed(db: Db) {
    forall k :: k in db.barrier && k.op.Cancel? ==> BarrierKey(k.gid, k.branch, Try) in db.barrier
  }

  lemma DeliveryKeepsBarrier(db: Db, m: Msg)
    ensures CancelsClaimed(db) ==> CancelsClaimed(After(db, m))
    ensures forall k :: k in db.barrier ==> k in After(db, m).barrier && After(db, m).barrier[k] == db.barrier[k]
  {
    BusinessIgnoresBarrier(db, m, Marked(db, m).barrier);
    BusinessIgnoresBarrier(Marked(db, m), m, db.barrier);
  }

  predicate OwnsRow(db: Db, m: Msg) {
    match m.branch
    case AccountBranch => m.request.gid in db.reservations
        && db.reservations[m.request.gid].paymentId == m.request.paymentId
    case LedgerBranch => m.request.gid in db.ledger && db.ledger[m.request.gid].paymentId == m.request.paymentId
  }

  /** The first Cancel to commit leaves its row open exactly when that row belongs to another payment. */
  lemma FirstCancel(db: Db, m: Msg)
    requires m.op.Cancel? && KeyOf(m) !in db.barrier && Deliver(db, m).Applied?
    requires TryKey(m) !in db.barrier ==> StageOf(db, m.request.gid, m.branch) == Absent
    ensures StageOf(After(db, m), m.request.gid, m.branch) == Open
       <==> StageOf(db, m.request.gid, m.branch) == Open && !OwnsRow(db, m)
  {
    BusinessIgnoresBarrier(db, m, Marked(db, m).barrier);
  }

  /** Once a branch's Try row is taken and nothing is open, no later arrival opens a row for that branch. */
  lemma {:induction false} NothingReopens(db: Db, ms: seq<Msg>, gid: string, branch: Branch)
    requires BarrierKey(gid, branch, Try) in db.barrier && StageOf(db, gid, branch) != Open
    ensures StageOf(Arrive(db, ms), gid, branch) == StageOf(db, gid, branch)
    decreases |ms|
  {
    if ms != [] {
      EffectiveMoves(db, ms[0], gid, branch);
      DeliveryKeepsBarrier(db, ms[0]);
      NothingReopens(After(db, ms[0]), ms[1..], gid, branch);
    }
  }

  /** After a committed Cancel of the row's own payment, no frozen or prepared row for that gid ever appears. */
  lemma CancelIsFinal(db: Db, m: Msg, ms: seq<Msg>)
    requires CancelsClaimed(db)
    requires m.op.Cancel? && KeyOf(m) !in db.barrier && Deliver(db, m).Applied?
    requires TryKey(m) !in db.barrier ==> StageOf(db, m.request.gid, m.branch) == Absent
    requires StageOf(db, m.request.gid, m.branch) == Open ==> OwnsRow(db, m)
    ensures StageOf(Arrive(After(db, m), ms), m.request.gid, m.branch) != Open
  {
    FirstCancel(db, m);
    DeliveryKeepsBarrier(db, m);
    BusinessIgnoresBarrier(db, m, Marked(db, m).barrier);
    NothingReopens(After(db, m), ms, m.request.gid, m.branch);
  }

  /**
   A Cancel that names another payment is acknowledged, leaves the row open, and makes the row's own Cancel a
   repetition.
   */
  lemma ForeignCancel(db: Db, gid: string, q: Request, other: string)
    requires q.gid == gid && gid in db.reservations && db.reservations[gid].state.Frozen?
    requires db.reservations[gid].paymentId == q.paymentId != other
    requires BarrierKey(gid, AccountBranch, Try) in db.barrier && BarrierKey(gid, AccountBranch, Cancel) !in db.barrier
    ensures var foreign, own := Msg(AccountBranch, Cancel, q.(paymentId := other)), Msg(AccountBranch, Cancel, q);
      && Deliver(db, foreign).Applied? && StageOf(After(db, foreign), gid, AccountBranch) == Open
      && Deliver(After(db, foreign), own).Applied? && StageOf(Arrive(db, [foreign, own]), gid, AccountBranch) == Open
  {
    var foreign, own := Msg(AccountBranch, Cancel, q.(paymentId := other)), Msg(AccountBranch, Cancel, q);
    assert [foreign, own][1..] == [own] && [own][1..] == [];
    assert After(db, foreign).reservations == db.reservations;
    assert KeyOf(own) in After(db, foreign).barrier;
    assert After(After(db, foreign), own).reservations == db.reservations;
    assert Arrive(After(db, foreign), [own]) == Arrive(After(After(db, foreign), own), []);
  }
}

/**
 The abstract account both modes implement: money is held for a request, and a hold is later committed or released.
 A release that finds no hold refuses every later hold for the same request.
 */
module HoldAccount {
  datatype Phase = Held | Committed | Released
  datatype Hold = Hold(account: string, amount: int, phase: Phase)
  datatype Balance = Balance(available: int, frozen: int)
  datatype Book = Book(balances: map<string, Balance>, holds: map<string, Hold>, refused: set<string>)

  datatype Action = Place(id: string, account: string, amount: int) | Commit(id: string) | Release(id: string)

  predicate MayPlace(b: Book, id: string, account: string, amount: int) {
    && amount > 0
    && id !in b.holds && id !in b.refused
    && account in b.balances && b.balances[account].available >= amount
  }

  function Move(b: Book, account: string, available: int, frozen: int): Book {
    if account !in b.balances then b
    else
      var bal := b.balances[account];
      b.(balances := b.balances[account := Balance(bal.available + available, bal.frozen + frozen)])
  }

  /** Write one hold and move its account's two balances. */
  function Change(b: Book, id: string, h: Hold, available: int, frozen: int): Book {
    Move(b, h.account, available, frozen).(holds := b.holds[id := h])
  }

  function Act(b: Book, a: Action): Book {
    match a
    case Place(id, account, amount) =>
      if MayPlace(b, id, account, amount)
      then Change(b, id, Hold(account, amount, Held), -amount, amount)
      else b
    case Commit(id) =>
      if id in b.holds && b.holds[id].phase.Held?
      then var h := b.holds[id];
        Change(b, id, h.(phase := Committed), 0, -h.amount)
      else b
    case Release(id) =>
      if id !in b.holds then b.(refused := b.refused + {id})
      else if b.holds[id].phase.Held?
      then var h := b.holds[id];
        Change(b, id, h.(phase := Released), h.amount, -h.amount)
      else b
  }

  function Weight(h: Hold, account: string, phase: Phase): int {
    if h.account == account && h.phase == phase then h.amount else 0
  }

  ghost function Pick(holds: map<string, Hold>): (id: string)
    requires holds != map[]
    ensures id in holds
  {
    assert holds.Keys != {};
    var id :| id in holds.Keys; id
  }

  /** The money in holds of one phase on one account. */
  ghost function Tied(holds: map<string, Hold>, account: string, phase: Phase): int
    decreases |holds|
  {
    if holds == map[] then 0
    else
      var id := Pick(holds);
      Weight(holds[id], account, phase) + Tied(holds - {id}, account, phase)
  }

  /** Frozen money is exactly the held money, and nothing is lost: available, held and committed make the opening. */
  ghost predicate Balanced(b: Book, account: string, opening: int)
    requires account in b.balances
  {
    var bal := b.balances[account];
    && bal.available >= 0
    && bal.frozen == Tied(b.holds, account, Held)
    && bal.available + bal.frozen + Tied(b.holds, account, Committed) == opening
  }

  ghost predicate Conserved(b: Book, opening: map<string, int>) {
    && b.balances.Keys == opening.Keys
    && (forall id :: id in b.holds ==> b.holds[id].amount > 0 && b.holds[id].account in b.balances)
    && (forall a :: a in b.balances ==> Balanced(b, a, opening[a]))
  }

  lemma {:induction false} TiedRemove(holds: map<string, Hold>, id: string, account: string, phase: Phase)
    requires id in holds
    ensures Tied(holds, account, phase) == Weight(holds[id], account, phase) + Tied(holds - {id}, account, phase)
    decreases |holds|
  {
    var p := Pick(holds);
    if p != id {
      TiedRemove(holds - {p}, id, account, phase);
      TiedRemove(holds - {id}, p, account, phase);
      assert holds - {p} - {id} == holds - {id} - {p};
    }
  }

  /** Writing one hold changes the tied money by that hold's difference. */
  lemma TiedUpdate(holds: map<string, Hold>, id: string, h: Hold, account: string, phase: Phase)
    ensures Tied(holds[id := h], account, phase)
         == Tied(holds, account, phase) + Weight(h, account, phase)
            - (if id in holds then Weight(holds[id], account, phase) else 0)
  {
    TiedRemove(holds[id := h], id, account, phase);
    if id in holds {
      TiedRemove(holds, id, account, phase);
      assert holds[id := h] - {id} == holds - {id};
    } else {
      assert holds[id := h] - {id} == holds;
    }
  }

  lemma {:induction false} TiedCovers(holds: map<string, Hold>, id: string, account: string, phase: Phase)
    requires forall x :: x in holds ==> holds[x].amount > 0
    ensures Tied(holds, account, phase) >= 0
    ensures id in holds ==> Weight(holds[id], account, phase) <= Tied(holds, account, phase)
    decreases |holds|
  {
    if holds != map[] {
      var p := Pick(holds);
      TiedCovers(holds - {p}, id, account, phase);
    }
  }

  /** Balances lie between zero and the opening balance, and a held amount fits in the frozen balance. */
  lemma Bounded(b: Book, opening: map<string, int>, account: string, id: string)
    requires Conserved(b, opening) && account in b.balances
    ensures 0 <= b.balances[account].available <= opening[account]
    ensures 0 <= b.balances[account].frozen <= opening[account]
    ensures id in b.holds && b.holds[id].account == account && b.holds[id].phase.Held?
            ==> b.holds[id].amount <= b.balances[account].frozen
  {
    assert Balanced(b, account, opening[account]);
    TiedCovers(b.holds, id, account, Held);
    TiedCovers(b.holds, id, account, Committed);
  }

  /** A change of one hold whose account moves by the matching difference. */
  ghost predicate Matching(b: Book, id: string, h: Hold, available: int, frozen: int) {
    && h.amount > 0 && h.account in b.balances
    && (id in b.holds ==> b.holds[id].account == h.account)
    && b.balances[h.account].available + available >= 0
    && frozen == Weight(h, h.account, Held) - (if id in b.holds then Weight(b.holds[id], h.account, Held) else 0)
    && available + frozen
       == (if id in b.holds then Weight(b.holds[id], h.account, Committed) else 0) - Weight(h, h.account, Committed)
  }

  lemma ChangeBalanced(b: Book, id: string, h: Hold, available: int, frozen: int, account: string, opening: int)
    requires Matching(b, id, h, available, frozen)
    requires account in b.balances && Balanced(b, account, opening)
    ensures account in Change(b, id, h, available, frozen).balances
    ensures Balanced(Change(b, id, h, available, frozen), account, opening)
  {
    TiedUpdate(b.holds, id, h, account, Held);
    TiedUpdate(b.holds, id, h, account, Committed);
  }

  lemma ChangeConserves(b: Book, id: string, h: Hold, available: int, frozen: int, opening: map<string, int>)
    requires Conserved(b, opening)
    requires Matching(b, id, h, available, frozen)
    ensures Conserved(Change(b, id, h, available, frozen), opening)
  {
    var c := Change(b, id, h, available, frozen);
    forall x | x in c.balances
      ensures Balanced(c, x, opening[x])
    {
      assert x in b.balances;
      ChangeBalanced(b, id, h, available, frozen, x, opening[x]);
    }
    assert c.balances.Keys == b.balances.Keys;
  }

  lemma PhaseConserves(b: Book, id: string, phase: Phase, opening: map<string, int>)
    requires Conserved(b, opening)
    requires id in b.holds && b.holds[id].phase.Held? && phase != Held
    ensures var h := b.holds[id];
      Conserved(Change(b, id, h.(phase := phase), if phase.Released? then h.amount else 0, -h.amount), opening)
  {
    var h := b.holds[id];
    assert Balanced(b, h.account, opening[h.account]);
    ChangeConserves(b, id, h.(phase := phase), if phase.Released? then h.amount else 0, -h.amount, opening);
  }

  lemma RefuseConserves(b: Book, id: string, opening: map<string, int>)
    requires Conserved(b, opening)
    ensures Conserved(b.(refused := b.refused + {id}), opening)
  {
    forall x | x in b.balances
      ensures Balanced(b.(refused := b.refused + {id}), x, opening[x])
    {
      assert Balanced(b, x, opening[x]);
    }
  }

  /** Every action conserves money, whether or not it is allowed to do anything. */
  lemma ActConserves(b: Book, a: Action, opening: map<string, int>)
    requires Conserved(b, opening)
    ensures Conserved(Act(b, a), opening)
  {
    hide Conserved;
    match a
    case Place(id, account, amount) =>
      if MayPlace(b, id, account, amount) {
        ChangeConserves(b, id, Hold(account, amount, Held), -amount, amount, opening);
      }
    case Commit(id) =>
      if id in b.holds && b.holds[id].phase.Held? {
        PhaseConserves(b, id, Committed, opening);
      }
    case Release(id) =>
      if id !in b.holds {
        RefuseConserves(b, id, opening);
      } else if b.holds[id].phase.Held? {
        PhaseConserves(b, id, Released, opening);
      }
  }

  function Run(b: Book, actions: seq<Action>): Book
    decreases |actions|
  {
    if actions == [] then b else Run(Act(b, actions[0]), actions[1..])
  }

  lemma {:induction false} RunConserves(b: Book, actions: seq<Action>, opening: map<string, int>)
    requires Conserved(b, opening)
    ensures Conserved(Run(b, actions), opening)
    decreases |actions|
  {
    if actions != [] {
      ActConserves(b, actions[0], opening);
      RunConserves(Act(b, actions[0]), actions[1..], opening);
    }
  }

  /** A settled hold never changes again, and a refused request never gets one. */
  lemma {:induction false} Settled(b: Book, actions: seq<Action>, id: string)
    requires (id in b.holds && !b.holds[id].phase.Held?) || (id !in b.holds && id in b.refused)
    ensures var c := Run(b, actions);
      if id in b.holds then id in c.holds && c.holds[id] == b.holds[id] else id !in c.holds && id in c.refused
    decreases |actions|
  {
    if actions != [] {
      Settled(Act(b, actions[0]), actions[1..], id);
    }
  }
}

/** Accounts and reservations, as either mode keeps them, read as balances and holds of the abstract account. */
module AccountBook {
  import opened Domain
  import H = HoldAccount

  function PhaseOf(state: ReservationState): H.Phase {
    match state
    case Frozen => H.Held
    case Confirmed => H.Committed
    case Cancelled => H.Released
  }

  function HoldOf(row: Reservation): H.Hold {
    H.Hold(row.accountId, row.amount, PhaseOf(row.state))
  }

  function BalanceOf(a: Account): H.Balance {
    H.Balance(a.available, a.frozen)
  }

  function Balances(accounts: map<string, Account>): map<string, H.Balance> {
    map a | a in accounts :: BalanceOf(accounts[a])
  }

  function Holds(reservations: map<string, Reservation>): map<string, H.Hold> {
    map g | g in reservations :: HoldOf(reservations[g])
  }

  lemma HoldsUpdate(reservations: map<string, Reservation>, g: string, row: Reservation)
    ensures Holds(reservations[g := row]) == Holds(reservations)[g := HoldOf(row)]
  {
  }

  lemma BalancesUpdate(accounts: map<string, Account>, a: string, account: Account)
    ensures Balances(accounts[a := account]) == Balances(accounts)[a := BalanceOf(account)]
  {
  }

  /** An action, or none. */
  function Maybe(b: H.Book, a: Option<H.Action>): H.Book {
    match a
    case None => b
    case Some(action) => H.Act(b, action)
  }
}

/** What a payment's event list has to be: numbered without gaps, its moves chained, its last move the stored status. */
module EventLog {
  import opened Domain

  ghost predicate Numbered(log: seq<PaymentEvent>) {
    forall i :: 0 <= i < |log| ==> log[i].sequence == i + 1
  }

  /** The statuses the log moves through, in order. */
  function Moves(log: seq<PaymentEvent>): seq<PaymentStatus> {
    if log == [] then []
    else
      var last := log[|log| - 1];
      Moves(log[..|log| - 1]) + if last.to.Some? then [last.to.value] else []
  }

  function Last(moves: seq<PaymentStatus>): Option<PaymentStatus> {
    if moves == [] then None else Some(moves[|moves| - 1])
  }

  /** Every move starts at the status the previous move ended at; an event that moves nothing names no status. */
  ghost predicate Chained(log: seq<PaymentEvent>) {
    forall i :: 0 <= i < |log| ==>
      if log[i].to.Some? then log[i].from == Last(Moves(log[..i])) else log[i].from == None
  }

  /** The log is the history of a payment that now has this status. */
  ghost predicate Tells(log: seq<PaymentEvent>, status: PaymentStatus) {
    Numbered(log) && Chained(log) && Last(Moves(log)) == Some(status)
  }

  lemma MovesAppend(log: seq<PaymentEvent>, e: PaymentEvent)
    ensures Moves(log + [e]) == Moves(log) + if e.to.Some? then [e.to.value] else []
  {
    assert (log + [e])[..|log|] == log;
  }

  /** A note leaves the told status alone; a move from it makes the log tell the new one. */
  lemma TellsAppend(log: seq<PaymentEvent>, status: PaymentStatus, e: PaymentEvent)
    requires Tells(log, status)
    requires e.sequence == |log| + 1
    requires if e.to.Some? then e.from == Some(status) else e.from == None
    ensures Tells(log + [e], if e.to.Some? then e.to.value else status)
  {
    var longer := log + [e];
    MovesAppend(log, e);
    forall i | 0 <= i < |longer|
      ensures if longer[i].to.Some? then longer[i].from == Last(Moves(longer[..i])) else longer[i].from == None
    {
      assert longer[..i] == log[..i];
      if i == |log| {
        assert log[..i] == log;
      }
    }
  }

  lemma TellsFirst(e: PaymentEvent)
    requires e.sequence == 1 && e.from == None && e.to.Some?
    ensures Tells([e], e.to.value)
    ensures Moves([e]) == [e.to.value]
  {
    assert [e][..0] == [];
    MovesAppend([], e);
    assert [] + [e] == [e];
  }
}

/**
 The environment of the distributed mode, as the README promises it: the DTM server, and a network that may delay,
 repeat, reorder or lose what is sent.  These are assumptions about other programs, not code of this repository.
 Sets that only grow hold whatever was ever sent or answered, so anything in them may arrive at any time, any number of
 times, or never.
 */
module Dtm {
  import opened Domain
  import opened Tables
  import opened BranchRules

  datatype Status = DtmPrepared | Submitted | Succeed | Aborting | DtmFailed {
    predicate Committing() {
      Submitted? || Succeed?
    }

    predicate Cancelling() {
      Aborting? || DtmFailed?
    }
  }

  /** A global transaction and the body each registered branch will be called with. */
  datatype Txn = Txn(status: Status, branches: map<Branch, Request>)

  /** A request from a coordinator to DTM. */
  datatype Ask =
    | AskPrepare(gid: string)
    | AskRegister(gid: string, branch: Branch, request: Request)
    | AskSubmit(gid: string)
    | AskAbort(gid: string)

  datatype Wire = Wire(
    txns: map<string, Txn>,       // DTM's own tables
    asks: set<Ask>,               // sent to DTM
    calls: set<Msg>,              // sent to the participants
    acks: set<BarrierKey>)        // answered with success by a participant

  function StatusOf(w: Wire, gid: string): Option<Status> {
    if gid in w.txns then Some(w.txns[gid].status) else None
  }

  predicate Registered(w: Wire, gid: string, branch: Branch) {
    gid in w.txns && branch in w.txns[gid].branches
  }

  function Send(w: Wire, a: Ask): Wire {
    w.(asks := w.asks + {a})
  }

  function Call(w: Wire, m: Msg): Wire {
    w.(calls := w.calls + {m})
  }

  function SetStatus(w: Wire, gid: string, status: Status): Wire
    requires gid in w.txns
  {
    w.(txns := w.txns[gid := w.txns[gid].(status := status)])
  }

  /**
   What DTM does with a request it has been sent: only a prepared transaction is registered with, submitted, aborted.
   */
  function Serve(w: Wire, a: Ask): Wire {
    if a !in w.asks then w
    else match a
      case AskPrepare(gid) =>
        if gid in w.txns then w else w.(txns := w.txns[gid := Txn(DtmPrepared, map[])])
      case AskRegister(gid, branch, request) =>
        if StatusOf(w, gid) == Some(DtmPrepared) && !Registered(w, gid, branch)
        then w.(txns := w.txns[gid := w.txns[gid].(branches := w.txns[gid].branches[branch := request])])
        else w
      case AskSubmit(gid) =>
        if StatusOf(w, gid) == Some(DtmPrepared) then SetStatus(w, gid, Submitted) else w
      case AskAbort(gid) =>
        if StatusOf(w, gid) == Some(DtmPrepared) then SetStatus(w, gid, Aborting) else w
  }

  /** A prepared transaction may time out at any moment. */
  function Timeout(w: Wire, gid: string): Wire {
    if StatusOf(w, gid) == Some(DtmPrepared) then SetStatus(w, gid, Aborting) else w
  }

  /** DTM calls Confirm on a registered branch only after the submit, Cancel only after the abort. */
  function Dispatch(w: Wire, gid: string, branch: Branch): Wire {
    if !Registered(w, gid, branch) then w
    else match w.txns[gid].status
      case Submitted => Call(w, Msg(branch, Confirm, w.txns[gid].branches[branch]))
      case Aborting => Call(w, Msg(branch, Cancel, w.txns[gid].branches[branch]))
      case _ => w
  }

  predicate AllAcked(w: Wire, gid: string, op: Op)
    requires gid in w.txns
  {
    forall b :: b in w.txns[gid].branches ==> BarrierKey(gid, b, op) in w.acks
  }

  /** The final status is recorded only after every registered branch has acknowledged. */
  function Finish(w: Wire, gid: string): Wire {
    if gid !in w.txns then w
    else if w.txns[gid].status.Submitted? && AllAcked(w, gid, Confirm) then SetStatus(w, gid, Succeed)
    else if w.txns[gid].status.Aborting? && AllAcked(w, gid, Cancel) then SetStatus(w, gid, DtmFailed)
    else w
  }

  /** A call that was sent reaches its participant; a success is answered. */
  function Answered(w: Wire, db: Db, m: Msg): Wire {
    if m in w.calls && Deliver(db, m).Applied? then w.(acks := w.acks + {KeyOf(m)}) else w
  }

  function Reached(w: Wire, db: Db, m: Msg): Db {
    if m in w.calls then After(db, m) else db
  }
}

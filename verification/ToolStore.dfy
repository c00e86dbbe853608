/** The tool ledger's transactions, statement by statement. */
module ToolStore {
  import opened Wrappers
  import opened Rows
  import opened Tables
  import Spec = Transactions

  class Store {
    const pool: Database

    constructor (pool: Database)
      ensures this.pool == pool
    {
      this.pool := pool;
    }

    /** `Prepare`, for the one call a run makes. */
    method Prepare(run: Uuid, verdict: Spec.Verdict, retryable: bool)
      modifies pool
      ensures pool.State() == Spec.PrepareCall(old(pool.State()), run, verdict, retryable)
    {
      if run !in pool.calls {
        var state := CallPrepared;
        var approval := None;
        match verdict {
          case Deny => state := CallDenied;
          case RequireApproval(id, expiresAt) =>
            state := CallWaiting;
            approval := Some(Approval(id, Requested, expiresAt));
          case Allow =>
        }
        pool.calls := pool.calls[run := ToolCall(state, approval)];
        return;
      }
      if pool.calls[run].state == CallFailed && retryable && verdict.Allow? {
        pool.calls := pool.calls[run := pool.calls[run].(state := CallPrepared)];
      }
    }

    /**
     `Start`, `Succeed` and `Fail`: one guarded update each.  Of callers that see the same state one wins; the
     others are refused, and neither the approval of the call nor any other call is touched.
     */
    method Move(run: Uuid, before: CallState, after: CallState) returns (moved: bool)
      modifies pool
      ensures pool.State() == Spec.MoveCall(old(pool.State()), run, before, after)
      ensures !moved ==> pool.State() == old(pool.State())
      ensures moved ==>
                && run in old(pool.calls) && pool.State() == old(pool.State()).(calls := pool.calls)
                && pool.calls == old(pool.calls)[run := ToolCall(after, old(pool.calls)[run].approval)]
      ensures before != after ==> forall again: CallState :: Spec.MoveCall(pool.State(), run, before, again) == pool.State()
    {
      moved := run in pool.calls && pool.calls[run].state == before;
      if moved {
        pool.calls := pool.calls[run := pool.calls[run].(state := after)];
      }
    }

    /** `Approve` and `Reject`: the approval, its call and its run change together or not at all. */
    method Decide(run: Uuid, approval: Uuid, approve: bool) returns (outcome: Outcome)
      modifies pool
      ensures Tx(pool.State(), outcome) == Spec.Decide(old(pool.State()), run, approval, approve)
    {
      if run !in pool.calls || pool.calls[run].approval.None? {
        return Refused;
      }
      var call := pool.calls[run];
      var asked := call.approval.value;
      if asked.id != approval || asked.state != Requested || asked.expiresAt <= pool.now {
        return Refused;
      }
      asked := asked.(state := if approve then Approved else Rejected);
      if call.state != CallWaiting {
        return Refused;
      }
      call := ToolCall(if approve then CallPrepared else CallDenied, Some(asked));
      if run !in pool.runs || pool.runs[run].state != WaitingApproval || pool.runs[run].pendingApproval != Some(approval) {
        return Refused;
      }
      var row := pool.runs[run].(state := Queued, pendingApproval := None, availableAt := pool.now);
      pool.calls, pool.runs := pool.calls[run := call], pool.runs[run := row];
      return Committed;
    }
  }
}

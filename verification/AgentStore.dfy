/**
 The run store, statement by statement.  A transaction works on local copies of the tables it changes
 and writes them back when it commits; returning early is its rollback.  Every method is tied to the
 function of `Transactions` that the protocol is proved about.
 */
module AgentStore {
  import opened Wrappers
  import opened Rows
  import opened Phases
  import opened Tables
  import Spec = Transactions

  /**
   A worker ended its turn and gave its run back: nothing but that run's row changed, its token is spent,
   and whoever asks next may claim the run at once if it heads an unpaused lane and its phase has an attempt left.
   */
  ghost predicate GaveBack(before: Db, after: Db, run: Claimed) {
    && run.id in before.runs && run.id in after.runs
    && after == before.(runs := before.runs[run.id := after.runs[run.id]])
    && Spec.HeldInTime(before, run) && !Spec.Held(after, run)
    && var row := after.runs[run.id];
       forall max: nat :: Spec.Claimable(after, run.id, max) <==>
         Spec.OwnsPosition(after, row) && row.lane.tenant !in after.pausedRuns && ClaimFilter(row, max)
  }

  class Store {
    const pool: Database

    constructor (pool: Database)
      ensures this.pool == pool
    {
      this.pool := pool;
    }

    /** `enqueueTx` for a trigger that resolved, and `EnqueueProactive`. */
    method Enqueue(newId: Uuid, event: string, key: LaneKey, plane: Plane, modelLimit: nat)
      returns (outcome: Outcome, run: Uuid)
      modifies pool
      ensures Tx(pool.State(), outcome) == Spec.Enqueue(old(pool.State()), newId, event, key, plane, modelLimit)
      ensures outcome == Committed ==> run in pool.runs && pool.runs[run].event == event
    {
      if existing :| existing in pool.runs && pool.runs[existing].event == event {
        return Committed, existing;
      }
      var lanes := pool.lanes;
      if key !in lanes {
        lanes := lanes[key := Lane(1, 1)];
      }
      lanes := lanes[key := lanes[key].(nextEnqueue := lanes[key].nextEnqueue + 1)];
      var sequence := lanes[key].nextEnqueue - 1;
      if newId in pool.runs {
        return Refused, newId;
      }
      var row := Run(event, key, sequence, plane, modelLimit, Queued, 0, pool.now,
                     None, None, None, None, None, None, 0, 0, 0, 0, 0);
      pool.lanes, pool.runs := lanes, pool.runs[newId := row];
      return Committed, newId;
    }

    /** The query of `expireToolApprovals`, one common table expression after the other. */
    method ExpireToolApprovals(candidates: set<Uuid>) returns (calls: map<Uuid, ToolCall>, runs: map<Uuid, Run>)
      ensures pool.State().(calls := calls, runs := runs) == Spec.ExpireApprovals(pool.State(), candidates)
    {
      var expired := set id | id in pool.calls && id in candidates && Spec.ApprovalDue(pool.State(), id);
      var denied := set id | id in expired && pool.calls[id].state == CallWaiting;
      calls := map id | id in pool.calls ::
        if id in expired
        then Spec.Decided(pool.calls[id], Expired, if id in denied then CallDenied else pool.calls[id].state)
        else pool.calls[id];
      runs := map id | id in pool.runs ::
        if id in denied && pool.runs[id].state == WaitingApproval
        then pool.runs[id].(state := Queued, pendingApproval := None, availableAt := pool.now)
        else pool.runs[id];
    }

    method MarkDelegationRunning(row: Run, id: Uuid) returns (delegations: map<Uuid, Delegation>)
      ensures delegations ==
              if row.plane == Internal && id in pool.delegations && pool.delegations[id].state == JobQueued
              then pool.delegations[id := pool.delegations[id].(state := JobRunning)] else pool.delegations
    {
      delegations := pool.delegations;
      if row.plane != Internal {
        return;
      }
      if id in delegations && delegations[id].state == JobQueued {
        delegations := delegations[id := delegations[id].(state := JobRunning)];
      }
    }

    /** The `candidate` query: of the claimable rows nobody else has locked, the one that was due first. */
    method Candidate(db: Db, unlocked: set<Uuid>, maxAttempts: nat) returns (found: Option<Uuid>)
      ensures found.None? <==> forall id | id in unlocked :: !Spec.Claimable(db, id, maxAttempts)
      ensures found.Some? ==>
                && found.value in unlocked && Spec.Claimable(db, found.value, maxAttempts)
                && forall id | id in unlocked && Spec.Claimable(db, id, maxAttempts) ::
                     db.runs[found.value].availableAt <= db.runs[id].availableAt
    {
      var due := map id | id in db.runs && id in unlocked && Spec.Claimable(db, id, maxAttempts) :: db.runs[id].availableAt;
      if due == map[] {
        forall id | id in unlocked ensures !Spec.Claimable(db, id, maxAttempts) {
          assert id !in due;
        }
        return None;
      }
      SomeRowIsFirst(due);
      var id :| id in due && FirstDue(due, id);
      forall j | j in unlocked && Spec.Claimable(db, j, maxAttempts)
        ensures db.runs[id].availableAt <= db.runs[j].availableAt
      {
        assert j in due;
      }
      return Some(id);
    }

    /**
     `candidates` are the approvals and `unlocked` the runs that no other transaction holds locked.  The
     expired approvals are committed only together with a claim.
     */
    method Claim(candidates: set<Uuid>, unlocked: set<Uuid>, token: Token, lease: nat, maxAttempts: nat)
      returns (claimed: Option<Claimed>)
      modifies pool
      ensures claimed.None? ==> pool.State() == old(pool.State())
      ensures var expired := Spec.ExpireApprovals(old(pool.State()), candidates);
              if claimed.None? then forall id | id in unlocked :: !Spec.Claimable(expired, id, maxAttempts)
              else && claimed.value.id in unlocked && claimed.value.id in pool.runs
                   && claimed.value.row == pool.runs[claimed.value.id]
                   && Spec.Claim(old(pool.State()), candidates, claimed.value.id, token, old(pool.now) + lease, maxAttempts)
                      == Tx(pool.State(), Committed)
                   && forall id | id in unlocked && Spec.Claimable(expired, id, maxAttempts) ::
                        claimed.value.row.availableAt <= expired.runs[id].availableAt
    {
      var calls, runs := ExpireToolApprovals(candidates);
      var found := Candidate(pool.State().(calls := calls, runs := runs), unlocked, maxAttempts);
      if found.None? {
        return None;
      }
      var id := found.value;
      var row := Charge(runs[id]).(state := Running, lease := Some(Lease(token, pool.now + lease)));
      runs := runs[id := row];
      var delegations := MarkDelegationRunning(row, id);
      pool.calls, pool.runs, pool.delegations := calls, runs, delegations;
      return Some(Claimed(id, row));
    }

    method SaveRoute(run: Claimed, route: Route) returns (outcome: Outcome)
      modifies pool
      ensures Tx(pool.State(), outcome) == Spec.SaveRoute(old(pool.State()), run, route)
      ensures outcome == Committed ==>
                && GaveBack(old(pool.State()), pool.State(), run) && pool.runs[run.id].route == Some(route)
                && (old(pool.runs)[run.id].route.None? ==> PhaseOf(pool.runs[run.id]) != Routing)
      ensures outcome != Committed ==> pool.State() == old(pool.State()) && !Spec.HeldInTime(pool.State(), run)
    {
      if !Spec.HeldInTime(pool.State(), run) {
        return LeaseNotHeld;
      }
      var row := pool.runs[run.id];
      pool.runs := pool.runs[run.id := row.(state := Queued, route := Some(route), lease := None, availableAt := pool.now)];
      return Committed;
    }

    method SaveToolPlan(run: Claimed, arguments: Json) returns (outcome: Outcome)
      modifies pool
      ensures Tx(pool.State(), outcome) == Spec.SaveToolPlan(old(pool.State()), run, arguments)
      ensures outcome == Committed ==>
                && GaveBack(old(pool.State()), pool.State(), run) && pool.runs[run.id].arguments == Some(arguments)
                && old(pool.runs)[run.id].arguments.None? && PhaseOf(pool.runs[run.id]) != Planning
      ensures outcome != Committed ==>
                && pool.State() == old(pool.State())
                && (!Spec.HeldInTime(pool.State(), run) || pool.runs[run.id].arguments.Some?)
    {
      if !Spec.HeldInTime(pool.State(), run) {
        return LeaseNotHeld;
      }
      var row := pool.runs[run.id];
      if row.arguments.Some? {
        return AlreadyWritten;
      }
      pool.runs := pool.runs[run.id := row.(state := Queued, arguments := Some(arguments), lease := None, availableAt := pool.now)];
      return Committed;
    }

    method SaveToolResult(run: Claimed, result: Json) returns (outcome: Outcome)
      modifies pool
      ensures Tx(pool.State(), outcome) == Spec.SaveToolResult(old(pool.State()), run, result)
      ensures outcome == Committed ==>
                && GaveBack(old(pool.State()), pool.State(), run) && pool.runs[run.id].result == Some(result)
                && old(pool.runs)[run.id].result.None? && pool.runs[run.id].arguments.Some?
                && PhaseOf(pool.runs[run.id]) !in {Planning, Execution}
      ensures outcome != Committed ==>
                && pool.State() == old(pool.State())
                && (!Spec.HeldInTime(pool.State(), run) || pool.runs[run.id].arguments.None? || pool.runs[run.id].result.Some?)
    {
      if !Spec.HeldInTime(pool.State(), run) {
        return LeaseNotHeld;
      }
      var row := pool.runs[run.id];
      if row.arguments.None? || row.result.Some? {
        return AlreadyWritten;
      }
      pool.runs := pool.runs[run.id := row.(state := Queued, result := Some(result), lease := None, availableAt := pool.now)];
      return Committed;
    }

    method SaveCandidate(run: Claimed, candidate: Candidate) returns (outcome: Outcome)
      modifies pool
      ensures Tx(pool.State(), outcome) == Spec.SaveCandidate(old(pool.State()), run, candidate)
      ensures outcome == Committed ==>
                && GaveBack(old(pool.State()), pool.State(), run) && pool.runs[run.id].candidate == Some(candidate)
                && (pool.runs[run.id].route.Some? ==> PhaseOf(pool.runs[run.id]) == Finalization)
      ensures outcome != Committed ==> pool.State() == old(pool.State()) && !Spec.HeldInTime(pool.State(), run)
    {
      if !Spec.HeldInTime(pool.State(), run) {
        return LeaseNotHeld;
      }
      var row := pool.runs[run.id];
      pool.runs := pool.runs[run.id := row.(state := ReplyPending, candidate := Some(candidate), lease := None, availableAt := pool.now)];
      return Committed;
    }

    method WaitForToolApproval(run: Claimed, approval: Uuid) returns (outcome: Outcome)
      modifies pool
      ensures Tx(pool.State(), outcome) == Spec.WaitForApproval(old(pool.State()), run, approval)
    {
      if !Spec.Held(pool.State(), run) {
        return LeaseNotHeld;
      }
      var open := Lookup(pool.calls, run.id);
      if open.None? || open.value.state != CallWaiting || open.value.approval.None? {
        return LeaseNotHeld;
      }
      if open.value.approval.value.id != approval || open.value.approval.value.state != Requested {
        return LeaseNotHeld;
      }
      var row := pool.runs[run.id];
      pool.runs := pool.runs[run.id := row.(state := WaitingApproval, pendingApproval := Some(approval), lease := None)];
      return Committed;
    }

    /** `advanceConversationLane`: the snapshot's own lane, guarded by the snapshot's sequence. */
    method AdvanceConversationLane(row: Run) returns (ok: bool, lanes: map<LaneKey, Lane>)
      ensures ok <==> Spec.OwnsPosition(pool.State(), row)
      ensures lanes == if ok then pool.lanes[row.lane := Spec.Advanced(pool.lanes[row.lane])] else pool.lanes
    {
      ok, lanes := false, pool.lanes;
      if row.lane in lanes && lanes[row.lane].nextDispatch == row.sequence {
        ok := true;
        lanes := lanes[row.lane := lanes[row.lane].(nextDispatch := lanes[row.lane].nextDispatch + 1)];
      }
    }

    method FailDelegationForRun(run: Claimed) returns (delegations: map<Uuid, Delegation>)
      ensures delegations == if run.row.plane == Internal then Spec.FinishJob(pool.delegations, run.id, JobFailed) else pool.delegations
    {
      delegations := pool.delegations;
      if run.row.plane == Internal && run.id in delegations && delegations[run.id].state in {JobQueued, JobRunning} {
        delegations := delegations[run.id := delegations[run.id].(state := JobFailed)];
      }
    }

    method FailOrRetry(run: Claimed, maxAttempts: nat, retryAfter: nat) returns (outcome: Outcome)
      modifies pool
      ensures Tx(pool.State(), outcome) == Spec.FailOrRetry(old(pool.State()), run, maxAttempts, retryAfter)
    {
      var phaseAttempts := PhaseAttempts(Scan(run.row));
      if !Spec.Held(pool.State(), run) {
        return LeaseNotHeld;
      }
      var row := pool.runs[run.id];
      var state := if phaseAttempts >= maxAttempts then Failed else if row.candidate.None? then Queued else ReplyPending;
      var availableAt := if phaseAttempts >= maxAttempts then row.availableAt else pool.now + retryAfter;
      var runs := pool.runs[run.id := row.(state := state, availableAt := availableAt, lease := None)];
      var lanes, delegations := pool.lanes, pool.delegations;
      if state == Failed {
        var ok;
        ok, lanes := AdvanceConversationLane(run.row);
        if !ok {
          return NotDispatchPosition;
        }
        delegations := FailDelegationForRun(run);
      }
      pool.runs, pool.lanes, pool.delegations := runs, lanes, delegations;
      return Committed;
    }

    method Fail(run: Claimed) returns (outcome: Outcome)
      modifies pool
      ensures Tx(pool.State(), outcome) == Spec.Fail(old(pool.State()), run)
    {
      if !Spec.Held(pool.State(), run) {
        return LeaseNotHeld;
      }
      var runs := pool.runs[run.id := pool.runs[run.id].(state := Failed, lease := None)];
      var ok, lanes := AdvanceConversationLane(run.row);
      if !ok {
        return NotDispatchPosition;
      }
      var delegations := FailDelegationForRun(run);
      pool.runs, pool.lanes, pool.delegations := runs, lanes, delegations;
      return Committed;
    }
  }
}

/** The entry of a run's tool call: how it begins, who may decide it and until when, and how it ends. */
module ToolLedger {
  import opened Wrappers
  import opened Rows
  import opened Phases
  import opened Transactions
  import opened Protocol
  import opened Frames
  import Fencing
  import Leases
  import Safety

  // ---------------------------------------------------------------- one transaction, in columns

  /** The verdict on a run's first call decides how its entry begins; a later one only reopens a failed read. */
  lemma PrepareIff(db: Db, id: Uuid, verdict: Verdict, retryable: bool)
    ensures var after := PrepareCall(db, id, verdict, retryable);
            && after == db.(calls := after.calls)
            && (id !in db.calls ==>
                  after.calls == db.calls[id := match verdict
                                                case Allow => ToolCall(CallPrepared, None)
                                                case Deny => ToolCall(CallDenied, None)
                                                case RequireApproval(approval, t) => ToolCall(CallWaiting, Some(Approval(approval, Requested, t)))])
            && (id in db.calls ==>
                  after.calls == if db.calls[id].state == CallFailed && retryable && verdict == Allow
                                 then db.calls[id := ToolCall(CallPrepared, db.calls[id].approval)] else db.calls)
  {}

  /** The run is parked on this approval, which was asked for and has not expired. */
  predicate Decidable(db: Db, id: Uuid, approval: Uuid) {
    && id in db.calls && db.calls[id].state == CallWaiting && db.calls[id].approval.Some?
    && db.calls[id].approval.value.id == approval && db.calls[id].approval.value.state == Requested
    && db.now < db.calls[id].approval.value.expiresAt
    && id in db.runs && db.runs[id].state == WaitingApproval && db.runs[id].pendingApproval == Some(approval)
  }

  /** A decision takes effect exactly then; it records itself, moves the call, and queues the run for at once. */
  lemma DecideIff(db: Db, id: Uuid, approval: Uuid, approve: bool)
    ensures var tx := Decide(db, id, approval, approve);
            if Decidable(db, id, approval)
            then && tx.outcome == Committed
                 && tx.db == db.(runs := db.runs[id := db.runs[id].(state := Queued, pendingApproval := None, availableAt := db.now)],
                                 calls := db.calls[id := ToolCall(if approve then CallPrepared else CallDenied,
                                   Some(Approval(approval, if approve then Approved else Rejected, db.calls[id].approval.value.expiresAt)))])
            else tx == Tx(db, Refused)
  {}

  /** An expiry ends the chosen approvals whose time has come, and queues the runs that were parked on them. */
  lemma ExpireIff(db: Db, chosen: set<Uuid>, id: Uuid)
    ensures id in ExpireApprovals(db, chosen).calls <==> id in db.calls
    ensures id in ExpireApprovals(db, chosen).runs <==> id in db.runs
    ensures var due := id in chosen && id in db.calls && db.calls[id].approval.Some?
                       && db.calls[id].approval.value.state == Requested && db.calls[id].approval.value.expiresAt <= db.now;
            && (id in db.calls ==>
                  ExpireApprovals(db, chosen).calls[id] ==
                  if due then ToolCall(if db.calls[id].state == CallWaiting then CallDenied else db.calls[id].state,
                                       Some(Approval(db.calls[id].approval.value.id, Expired, db.calls[id].approval.value.expiresAt)))
                  else db.calls[id])
            && (id in db.runs ==>
                  ExpireApprovals(db, chosen).runs[id] ==
                  if due && db.calls[id].state == CallWaiting && db.runs[id].state == WaitingApproval
                  then db.runs[id].(state := Queued, pendingApproval := None, availableAt := db.now) else db.runs[id])
  {}

  /** A worker parks its run exactly on an approval that its call waits for and that is still open, while it holds the run. */
  lemma ParkIff(db: Db, c: Claimed, approval: Uuid)
    ensures var tx := WaitForApproval(db, c, approval);
            if && c.row.lease.Some? && c.id in db.runs && db.runs[c.id].state == Running && db.runs[c.id].lease.Some?
               && db.runs[c.id].lease.value.token == c.row.lease.value.token
               && c.id in db.calls && db.calls[c.id].state == CallWaiting && db.calls[c.id].approval.Some?
               && db.calls[c.id].approval.value.id == approval && db.calls[c.id].approval.value.state == Requested
            then tx == Tx(db.(runs := db.runs[c.id := db.runs[c.id].(
                         state := WaitingApproval, pendingApproval := Some(approval), lease := None)]), Committed)
            else tx == Tx(db, LeaseNotHeld)
  {}

  /** After a decision the run is claimed at once if it heads an unpaused lane and has an execution attempt left. */
  lemma DecidedIsClaimable(cfg: Config, w: World, id: Uuid, approval: Uuid, approve: bool, token: Token, until: Time)
    requires Inv(cfg, w) && Decidable(w.db, id, approval)
    ensures Claim(Decide(w.db, id, approval, approve).db, {}, id, token, until, cfg.runLimit).outcome == Committed <==>
            w.db.runs[id].executionAttempts < cfg.runLimit && w.db.runs[id].lane.tenant !in w.db.pausedRuns
  {
    var after := Decide(w.db, id, approval, approve).db;
    DecideIff(w.db, id, approval, approve);
    assert RunOkAt(cfg, w.db, id);
    LookupIs(w.db.deliveries, id);
    assert Shape(after.runs[id]) && Counts(after.runs[id], cfg.runLimit);
    Leases.RunClaimIff(after, {}, id, token, until, cfg.runLimit);
  }

  // ---------------------------------------------------------------- over whole histories

  /** The step grants the approval of a run's call. */
  predicate Grants(w: World, step: Step, id: Uuid, approval: Uuid) {
    step.DecideStep? && step.run == id && step.approval == approval && step.approve && Decidable(w.db, id, approval)
  }

  predicate Granted(db: Db, id: Uuid) {
    id in db.calls && db.calls[id].approval.Some? && db.calls[id].approval.value.state == Approved
  }

  /** The ledger is written by expiries, tool steps and decisions alone. */
  lemma OthersKeepCalls(cfg: Config, w: World, step: Step)
    requires Enabled(w, step) && !step.ClaimStep? && !step.ToolStep? && !step.DecideStep?
    ensures Transact(cfg, w, step).db.calls == w.db.calls
  {
    match step
    case WorkStep(token, work) => Fencing.WorkKeepsCalls(cfg, w.db, w.claims[token], work);
    case SendStep(token, result) => Fencing.SendKeepsCalls(cfg, w.db, w.sends[token], result);
    case _ =>
  }

  /** How a step may change an approval, and a call that was denied without one. */
  predicate Follows(w: World, step: Step, before: Option<ToolCall>, after: Option<ToolCall>, id: Uuid) {
    && (before.Some? ==> after.Some? && after.value.approval.Some? == before.value.approval.Some?)
    && (before == Some(ToolCall(CallDenied, None)) ==> after == before)
    && (before.Some? && before.value.approval.Some? ==>
          && after.value.approval.value.expiresAt == before.value.approval.value.expiresAt
          && after.value.approval.value.id == before.value.approval.value.id
          && (before.value.approval.value.state == Approved ==> after.value.approval == before.value.approval)
          && (before.value.approval.value.state != Approved && after.value.approval.value.state == Approved ==>
                Grants(w, step, id, before.value.approval.value.id)))
    && (before.None? && after.Some? && after.value.approval.Some? ==> after.value.approval.value.state == Requested)
  }

  lemma MovesFollow(w: World, step: Step, other: Uuid, before: CallState, after: CallState, id: Uuid)
    ensures before != CallDenied ==>
              Follows(w, step, Lookup(w.db.calls, id), Lookup(MoveCall(w.db, other, before, after).calls, id), id)
  {}

  lemma PreparesFollow(w: World, step: Step, other: Uuid, verdict: Verdict, retryable: bool, id: Uuid)
    ensures Follows(w, step, Lookup(w.db.calls, id), Lookup(PrepareCall(w.db, other, verdict, retryable).calls, id), id)
  {}

  lemma ToolsFollow(cfg: Config, w: World, step: Step, id: Uuid)
    requires Enabled(w, step) && step.ToolStep?
    ensures Follows(w, step, Lookup(w.db.calls, id), Lookup(DoTool(w.db, w.claims[step.token], step.tool).calls, id), id)
  {
    var other := w.claims[step.token].id;
    match step.tool
    case PrepareTool(verdict, retryable) => PreparesFollow(w, step, other, verdict, retryable, id);
    case StartTool => MovesFollow(w, step, other, CallPrepared, CallExecuting, id);
    case EndTool(to) => MovesFollow(w, step, other, CallExecuting, to, id);
  }

  lemma ClaimsFollow(cfg: Config, w: World, step: Step, id: Uuid)
    requires Enabled(w, step) && step.ClaimStep?
    ensures Follows(w, step, Lookup(w.db.calls, id), Lookup(Transact(cfg, w, step).db.calls, id), id)
  {
    ExpireIff(w.db, step.chosen, id);
  }

  lemma DecisionsFollow(cfg: Config, w: World, step: Step, id: Uuid)
    requires Enabled(w, step) && step.DecideStep?
    ensures Follows(w, step, Lookup(w.db.calls, id), Lookup(Transact(cfg, w, step).db.calls, id), id)
  {
    DecideIff(w.db, step.run, step.approval, step.approve);
  }

  lemma StepsOnCalls(cfg: Config, w: World, step: Step, id: Uuid)
    requires Enabled(w, step)
    ensures Follows(w, step, Lookup(w.db.calls, id), Lookup(Transact(cfg, w, step).db.calls, id), id)
  {
    match step
    case ClaimStep(_, _, _, _) => ClaimsFollow(cfg, w, step, id);
    case ToolStep(_, _) => ToolsFollow(cfg, w, step, id);
    case DecideStep(_, _, _) => DecisionsFollow(cfg, w, step, id);
    case _ => OthersKeepCalls(cfg, w, step);
  }

  lemma GrantsComeFromDecisions(cfg: Config, w: World, step: Step, id: Uuid)
    requires Enabled(w, step) && !Granted(w.db, id) && Granted(Transact(cfg, w, step).db, id)
    ensures Grants(w, step, id, Transact(cfg, w, step).db.calls[id].approval.value.id)
    ensures id in w.db.calls && w.db.calls[id].approval.Some?
    ensures Transact(cfg, w, step).db.calls[id].approval.value.expiresAt == w.db.calls[id].approval.value.expiresAt
  {
    StepsOnCalls(cfg, w, step, id);
  }

  lemma GrantStays(cfg: Config, w: World, step: Step, id: Uuid)
    requires Enabled(w, step) && Granted(w.db, id)
    ensures Granted(Transact(cfg, w, step).db, id)
    ensures Transact(cfg, w, step).db.calls[id].approval == w.db.calls[id].approval
  {
    StepsOnCalls(cfg, w, step, id);
  }

  lemma GrantCameFrom(cfg: Config, trace: seq<World>, steps: seq<Step>, k: nat, id: Uuid)
    requires IsTrace(cfg, trace, steps) && k < |steps| && Granted(trace[k + 1].db, id)
    ensures if Granted(trace[k].db, id) then trace[k].db.calls[id].approval == trace[k + 1].db.calls[id].approval
            else && Grants(trace[k], steps[k], id, trace[k + 1].db.calls[id].approval.value.id)
                 && trace[k].db.now < trace[k + 1].db.calls[id].approval.value.expiresAt
  {
    if Granted(trace[k].db, id) {
      GrantStays(cfg, trace[k], steps[k], id);
    } else {
      GrantsComeFromDecisions(cfg, trace[k], steps[k], id);
    }
  }

  /** Every granted approval goes back to a decision that granted it before it expired, while its run was parked on it. */
  lemma GrantedInTime(cfg: Config, trace: seq<World>, steps: seq<Step>, n: nat, id: Uuid) returns (k: nat)
    requires IsTrace(cfg, trace, steps) && n < |trace| && Granted(trace[n].db, id)
    ensures k < n && Grants(trace[k], steps[k], id, trace[n].db.calls[id].approval.value.id)
    ensures trace[k].db.now < trace[n].db.calls[id].approval.value.expiresAt
  {
    assert !Granted(trace[0].db, id);
    k := n - 1;
    while Granted(trace[k].db, id)
      invariant k < n && Granted(trace[k + 1].db, id) && trace[k + 1].db.calls[id].approval == trace[n].db.calls[id].approval
      decreases k
    {
      GrantCameFrom(cfg, trace, steps, k, id);
      k := k - 1;
    }
    GrantCameFrom(cfg, trace, steps, k, id);
  }

  /** The call was refused by policy, without anybody being asked. */
  predicate RefusedByPolicy(db: Db, id: Uuid) { id in db.calls && db.calls[id] == ToolCall(CallDenied, None) }

  /** The step that puts a refusal into the ledger. */
  predicate Refuses(w: World, step: Step, id: Uuid)
    requires Enabled(w, step)
  {
    step.ToolStep? && w.claims[step.token].id == id && step.tool.PrepareTool? && step.tool.verdict == Deny && id !in w.db.calls
  }

  lemma RefusalStays(cfg: Config, w: World, step: Step, id: Uuid)
    requires Enabled(w, step) && (RefusedByPolicy(w.db, id) || Refuses(w, step, id))
    ensures RefusedByPolicy(Transact(cfg, w, step).db, id)
  {
    StepsOnCalls(cfg, w, step, id);
  }

  lemma RefusalStaysAt(cfg: Config, trace: seq<World>, steps: seq<Step>, k: nat, id: Uuid)
    requires IsTrace(cfg, trace, steps) && k < |steps| && (RefusedByPolicy(trace[k].db, id) || Refuses(trace[k], steps[k], id))
    ensures RefusedByPolicy(trace[k + 1].db, id) && !Fencing.Starts(trace[k], steps[k], id)
  {
    RefusalStays(cfg, trace[k], steps[k], id);
  }

  /** A tool that policy refuses is never started, by nobody and at no later time, and the run gets no result. */
  lemma {:induction false} RefusedForGood(cfg: Config, trace: seq<World>, steps: seq<Step>, i: nat, j: nat, id: Uuid)
    requires IsTrace(cfg, trace, steps) && i < j < |trace| && Refuses(trace[i], steps[i], id)
    ensures RefusedByPolicy(trace[j].db, id)
    ensures j < |steps| ==> !Fencing.Starts(trace[j], steps[j], id)
    ensures id in trace[j].db.runs && trace[j].db.runs[id].result.None?
    decreases j
  {
    if j == i + 1 {
      RefusalStaysAt(cfg, trace, steps, i, id);
    } else {
      RefusedForGood(cfg, trace, steps, i, j - 1, id);
      RefusalStaysAt(cfg, trace, steps, j - 1, id);
    }
    RefusedHasNoResult(cfg, trace, steps, j, id);
    if j < |steps| {
      RefusalStaysAt(cfg, trace, steps, j, id);
    }
  }

  lemma RefusedHasNoResult(cfg: Config, trace: seq<World>, steps: seq<Step>, j: nat, id: Uuid)
    requires IsTrace(cfg, trace, steps) && j < |trace| && RefusedByPolicy(trace[j].db, id)
    ensures id in trace[j].db.runs && trace[j].db.runs[id].result.None?
  {
    Safety.TraceHolds(cfg, trace, steps, j);
    assert id in trace[j].db.runs;
    assert RunOkAt(cfg, trace[j].db, id);
    LookupIs(trace[j].db.calls, id);
  }
}

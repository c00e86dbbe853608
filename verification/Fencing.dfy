/** What a lease token is good for, over whole runs of the system. */
module Fencing {
  import opened Wrappers
  import opened Rows
  import opened Phases
  import opened Transactions
  import opened Protocol
  import opened Frames
  import LaneOrder
  import Safety
  import SendSteps
  import WorkerSteps

  // ---------------------------------------------------------------- which guard can refuse

  /** The part of a transaction's guard that speaks of the lease. */
  predicate LeaseGuard(db: Db, c: Claimed, work: Work) {
    match work
    case AwaitApproval(_) => Held(db, c)
    case Retry(_) => Held(db, c)
    case GiveUp => Held(db, c)
    case _ => HeldInTime(db, c)
  }

  /**
   Once the lease guard of a worker's transaction passes, none of its later guards can refuse: the run
   owns the dispatch position, has no delivery yet, and has not had the output written.  Waiting for an
   approval asks in addition for the approval to be open still.
   */
  lemma OnlyTheLeaseRefuses(cfg: Config, trace: seq<World>, steps: seq<Step>, i: nat, token: Token, work: Work)
    requires IsTrace(cfg, trace, steps) && i < |trace| && token in trace[i].claims
    requires WorkAllowed(trace[i].db, trace[i].claims[token], work)
    ensures var db, c := trace[i].db, trace[i].claims[token];
            DoWork(cfg, db, c, work).outcome == Committed <==>
            && LeaseGuard(db, c, work)
            && (work.AwaitApproval? ==>
                && c.id in db.calls && db.calls[c.id].state == CallWaiting && db.calls[c.id].approval.Some?
                && db.calls[c.id].approval.value.id == work.approval && db.calls[c.id].approval.value.state == Requested)
  {
    var c := trace[i].claims[token];
    Safety.TraceHolds(cfg, trace, steps, i);
    assert ClaimOk(cfg, trace[i].db, token, c);
    if Held(trace[i].db, c) {
      WorkerSteps.HolderIsRow(cfg, trace[i], token);
    }
  }

  /** The same for delivery workers: "not delivery pending" and "does not own the position" never fire. */
  lemma OnlyTheSendLeaseRefuses(cfg: Config, trace: seq<World>, steps: seq<Step>, i: nat, token: Token, result: SendResult)
    requires IsTrace(cfg, trace, steps) && i < |trace| && token in trace[i].sends
    ensures DoSend(cfg, trace[i].db, trace[i].sends[token], result).outcome ==
            if SendHeld(trace[i].db, trace[i].sends[token]) then Committed else LeaseNotHeld
  {
    var w := trace[i];
    var s := w.sends[token];
    Safety.TraceHolds(cfg, trace, steps, i);
    if SendHeld(w.db, s) {
      SendSteps.SenderIsRow(cfg, w, token);
      SendSteps.SettleKeeps(cfg, w, s.id, Undelivered, Failed, JobFailed);
    }
  }

  // ---------------------------------------------------------------- fencing

  /** Once its token is lost, no transaction of a worker on its run commits ever again. */
  lemma StaleWorkerIsHarmless(cfg: Config, trace: seq<World>, steps: seq<Step>, i: nat, j: nat, token: Token, work: Work)
    requires IsTrace(cfg, trace, steps) && i <= j < |trace|
    requires token in trace[i].claims && !Held(trace[i].db, trace[i].claims[token])
    ensures token in trace[j].claims && trace[j].claims[token] == trace[i].claims[token]
    ensures !Held(trace[j].db, trace[j].claims[token])
    ensures DoWork(cfg, trace[j].db, trace[j].claims[token], work).db == trace[j].db
    ensures DoWork(cfg, trace[j].db, trace[j].claims[token], work).outcome != Committed
  {
    Safety.TraceHolds(cfg, trace, steps, i);
    assert ClaimOk(cfg, trace[i].db, token, trace[i].claims[token]);
    LaneOrder.LaterInTrace(cfg, trace, steps, i, j);
    assert ClaimLater(trace[i], trace[j], token);
    WorkerSteps.OnlyHoldersCommit(cfg, trace[j].db, trace[j].claims[token], work);
  }

  /** What a tool step finds in the ledger to change. */
  predicate ToolMoves(db: Db, id: Uuid, tool: ToolWork) {
    match tool
    case PrepareTool(verdict, retryable) => id !in db.calls || (db.calls[id].state == CallFailed && retryable && verdict.Allow?)
    case StartTool => id in db.calls && db.calls[id].state == CallPrepared
    case EndTool(_) => id in db.calls && db.calls[id].state == CallExecuting
  }

  /** The tool ledger is not fenced: but all a tool step can change is the entry of its own run. */
  lemma ToolStepIsConfined(db: Db, c: Claimed, tool: ToolWork)
    requires ToolAllowed(c, tool)
    ensures DoTool(db, c, tool) == db.(calls := DoTool(db, c, tool).calls)
    ensures forall other | other != c.id :: Lookup(DoTool(db, c, tool).calls, other) == Lookup(db.calls, other)
    ensures DoTool(db, c, tool) != db <==> ToolMoves(db, c.id, tool)
  {
    if tool.EndTool? && ToolMoves(db, c.id, tool) {
      assert DoTool(db, c, tool).calls[c.id].state != db.calls[c.id].state;
    }
    if tool.StartTool? && ToolMoves(db, c.id, tool) {
      assert DoTool(db, c, tool).calls[c.id].state != db.calls[c.id].state;
    }
    if tool.PrepareTool? && ToolMoves(db, c.id, tool) && c.id in db.calls {
      assert DoTool(db, c, tool).calls[c.id].state != db.calls[c.id].state;
    }
    if tool.PrepareTool? && c.id !in db.calls {
      assert c.id in DoTool(db, c, tool).calls;
    }
  }

  /**
   The steps of a worker that lost its token: a transaction on its run changes nothing, and a tool step
   changes at most the entry of its run in the tool ledger, and that exactly when the ledger is in the state
   the step asks for.
   */
  lemma StaleStepsAreConfined(cfg: Config, trace: seq<World>, steps: seq<Step>, i: nat, j: nat, token: Token)
    requires IsTrace(cfg, trace, steps) && i <= j < |steps|
    requires token in trace[i].claims && !Held(trace[i].db, trace[i].claims[token])
    ensures steps[j].WorkStep? && steps[j].token == token ==> trace[j + 1] == trace[j]
    ensures steps[j].ToolStep? && steps[j].token == token ==>
              var id := trace[i].claims[token].id;
              && trace[j + 1] == trace[j].(db := trace[j].db.(calls := trace[j + 1].db.calls))
              && (forall other | other != id :: Lookup(trace[j + 1].db.calls, other) == Lookup(trace[j].db.calls, other))
              && (trace[j + 1] != trace[j] <==> ToolMoves(trace[j].db, id, steps[j].tool))
  {
    if steps[j].WorkStep? && steps[j].token == token {
      StaleWorkerIsHarmless(cfg, trace, steps, i, j, token, steps[j].work);
      Safety.ApplyPlain(cfg, trace[j], steps[j]);
    }
    if steps[j].ToolStep? && steps[j].token == token {
      LaneOrder.LaterInTrace(cfg, trace, steps, i, j);
      assert ClaimLater(trace[i], trace[j], token);
      ToolStepIsConfined(trace[j].db, trace[j].claims[token], steps[j].tool);
      Safety.ApplyPlain(cfg, trace[j], steps[j]);
    }
  }

  lemma StaleSenderIsHarmless(cfg: Config, trace: seq<World>, steps: seq<Step>, i: nat, j: nat, token: Token, result: SendResult)
    requires IsTrace(cfg, trace, steps) && i <= j < |trace|
    requires token in trace[i].sends && !SendHeld(trace[i].db, trace[i].sends[token])
    ensures token in trace[j].sends && !SendHeld(trace[j].db, trace[j].sends[token])
    ensures DoSend(cfg, trace[j].db, trace[j].sends[token], result) == Tx(trace[j].db, LeaseNotHeld)
  {
    LaneOrder.LaterInTrace(cfg, trace, steps, i, j);
    assert SendLater(trace[i], trace[j], token);
  }

  predicate Claims(cfg: Config, w: World, step: Step, id: Uuid)
    requires Enabled(w, step)
  {
    step.ClaimStep? && step.run == id && Transact(cfg, w, step).outcome == Committed
  }

  predicate ClaimsSend(cfg: Config, w: World, step: Step, id: Uuid)
    requires Enabled(w, step)
  {
    step.ClaimSendStep? && step.run == id && Transact(cfg, w, step).outcome == Committed
  }

  /** Claiming a run again takes every earlier token of that run out of play. */
  lemma ReclaimFences(cfg: Config, trace: seq<World>, steps: seq<Step>, i: nat, token: Token)
    requires IsTrace(cfg, trace, steps) && i < |steps| && token in trace[i].claims
    requires Claims(cfg, trace[i], steps[i], trace[i].claims[token].id)
    ensures token in trace[i + 1].claims && !Held(trace[i + 1].db, trace[i + 1].claims[token])
  {
    Safety.TraceHolds(cfg, trace, steps, i);
    assert ClaimOk(cfg, trace[i].db, token, trace[i].claims[token]);
    Safety.ApplyClaim(cfg, trace[i], steps[i]);
  }

  lemma ResendFences(cfg: Config, trace: seq<World>, steps: seq<Step>, i: nat, token: Token)
    requires IsTrace(cfg, trace, steps) && i < |steps| && token in trace[i].sends
    requires ClaimsSend(cfg, trace[i], steps[i], trace[i].sends[token].id)
    ensures token in trace[i + 1].sends && !SendHeld(trace[i + 1].db, trace[i + 1].sends[token])
  {
    Safety.TraceHolds(cfg, trace, steps, i);
    assert SendOk(trace[i].db, token, trace[i].sends[token]);
    Safety.ApplyClaimSend(cfg, trace[i], steps[i]);
  }

  predicate Commits(cfg: Config, w: World, step: Step, token: Token)
    requires Enabled(w, step)
  {
    step.WorkStep? && step.token == token && Transact(cfg, w, step).outcome == Committed
  }

  predicate CommitsSend(cfg: Config, w: World, step: Step, token: Token)
    requires Enabled(w, step)
  {
    step.SendStep? && step.token == token && Transact(cfg, w, step).outcome == Committed
  }

  lemma CommitSpendsToken(cfg: Config, w: World, step: Step, token: Token)
    requires Inv(cfg, w) && Enabled(w, step) && Commits(cfg, w, step, token)
    ensures Apply(cfg, w, step).claims == w.claims
    ensures !Held(Apply(cfg, w, step).db, w.claims[token])
  {
    var c := w.claims[token];
    assert ClaimOk(cfg, w.db, token, c);
    WorkerSteps.OnlyHoldersCommit(cfg, w.db, c, step.work);
    WorkerSteps.HolderIsRow(cfg, w, token);
    WorkerSteps.WorkOk(cfg, w.db, c, step.work);
    Safety.ApplyPlain(cfg, w, step);
  }

  /** A token commits at most one transition. */
  lemma TokenCommitsOnce(cfg: Config, trace: seq<World>, steps: seq<Step>, i: nat, j: nat, token: Token)
    requires IsTrace(cfg, trace, steps) && i < j < |steps|
    requires Commits(cfg, trace[i], steps[i], token)
    ensures !Commits(cfg, trace[j], steps[j], token)
  {
    Safety.TraceHolds(cfg, trace, steps, i);
    CommitSpendsToken(cfg, trace[i], steps[i], token);
    if steps[j].WorkStep? {
      StaleWorkerIsHarmless(cfg, trace, steps, i + 1, j, token, steps[j].work);
    }
  }

  lemma SendCommitsOnce(cfg: Config, trace: seq<World>, steps: seq<Step>, i: nat, j: nat, token: Token)
    requires IsTrace(cfg, trace, steps) && i < j < |steps|
    requires CommitsSend(cfg, trace[i], steps[i], token)
    ensures !CommitsSend(cfg, trace[j], steps[j], token)
  {
    Safety.ApplyPlain(cfg, trace[i], steps[i]);
    assert !SendHeld(trace[i + 1].db, trace[i + 1].sends[token]);
    if steps[j].SendStep? {
      StaleSenderIsHarmless(cfg, trace, steps, i + 1, j, token, steps[j].result);
    }
  }

  // ---------------------------------------------------------------- outputs are written once

  /** The column a turn is going to fill is still null. */
  predicate Missing(r: Run, work: Work) {
    match work
    case StoreRoute(_) => r.route.None?
    case StorePlan(_) => r.arguments.None?
    case StoreResult(_) => r.result.None?
    case StoreCandidate(_) => r.candidate.None?
    case _ => false
  }

  predicate Stores(work: Work) { work.StoreRoute? || work.StorePlan? || work.StoreResult? || work.StoreCandidate? }

  predicate SameColumn(a: Work, b: Work) {
    || (a.StoreRoute? && b.StoreRoute?) || (a.StorePlan? && b.StorePlan?)
    || (a.StoreResult? && b.StoreResult?) || (a.StoreCandidate? && b.StoreCandidate?)
  }

  /** `SaveRoute` and `SaveCandidate` do not look at the column they write; a held token makes up for it. */
  lemma StoreFillsMissing(cfg: Config, w: World, step: Step, token: Token)
    requires Inv(cfg, w) && Enabled(w, step) && Commits(cfg, w, step, token) && Stores(step.work)
    ensures var id := w.claims[token].id;
            && id in w.db.runs && Missing(w.db.runs[id], step.work)
            && id in Apply(cfg, w, step).db.runs && !Missing(Apply(cfg, w, step).db.runs[id], step.work)
  {
    var c := w.claims[token];
    assert ClaimOk(cfg, w.db, token, c);
    WorkerSteps.OnlyHoldersCommit(cfg, w.db, c, step.work);
    WorkerSteps.HolderIsRow(cfg, w, token);
    Safety.ApplyPlain(cfg, w, step);
    StoreFills(cfg, w.db, c, step.work);
  }

  lemma StoreFills(cfg: Config, db: Db, c: Claimed, work: Work)
    requires Shape(c.row) && Held(db, c) && db.runs[c.id] == c.row
    requires WorkAllowed(db, c, work) && Stores(work) && DoWork(cfg, db, c, work).outcome == Committed
    ensures Missing(db.runs[c.id], work)
    ensures c.id in DoWork(cfg, db, c, work).db.runs && !Missing(DoWork(cfg, db, c, work).db.runs[c.id], work)
  {}

  /** Route, tool arguments, tool result and candidate are each written at most once in a run's life. */
  lemma OutputsWrittenOnce(cfg: Config, trace: seq<World>, steps: seq<Step>, i: nat, j: nat, a: Token, b: Token)
    requires IsTrace(cfg, trace, steps) && i < j < |steps|
    requires Commits(cfg, trace[i], steps[i], a) && Commits(cfg, trace[j], steps[j], b)
    requires trace[i].claims[a].id == trace[j].claims[b].id
    requires Stores(steps[i].work) && Stores(steps[j].work)
    ensures !SameColumn(steps[i].work, steps[j].work)
  {
    var id := trace[i].claims[a].id;
    Safety.TraceHolds(cfg, trace, steps, i);
    Safety.TraceHolds(cfg, trace, steps, j);
    StoreFillsMissing(cfg, trace[i], steps[i], a);
    StoreFillsMissing(cfg, trace[j], steps[j], b);
    LaneOrder.LaterInTrace(cfg, trace, steps, i + 1, j);
    assert RunLater(trace[i + 1].db, trace[j].db, id);
  }

  /** What was written stays as it was written, through every retry, denial and resume. */
  lemma OutputsNeverChange(cfg: Config, trace: seq<World>, steps: seq<Step>, i: nat, j: nat, id: Uuid)
    requires IsTrace(cfg, trace, steps) && i <= j < |trace| && id in trace[i].db.runs
    ensures id in trace[j].db.runs && Extends(trace[i].db.runs[id], trace[j].db.runs[id])
    ensures Rank(PhaseOf(trace[i].db.runs[id])) <= Rank(PhaseOf(trace[j].db.runs[id]))
  {
    LaneOrder.LaterInTrace(cfg, trace, steps, i, j);
    assert RunLater(trace[i].db, trace[j].db, id);
  }

  // ---------------------------------------------------------------- how often a run is claimed

  function Attempts(db: Db, id: Uuid): nat { if id in db.runs then db.runs[id].attempts else 0 }

  lemma WorkKeepsAttempts(cfg: Config, db: Db, c: Claimed, work: Work, id: Uuid)
    ensures Attempts(DoWork(cfg, db, c, work).db, id) == Attempts(db, id)
  {}

  lemma SendKeepsAttempts(cfg: Config, db: Db, s: Record, result: SendResult, id: Uuid)
    ensures Attempts(DoSend(cfg, db, s, result).db, id) == Attempts(db, id)
  {}

  lemma StepCountsClaims(cfg: Config, w: World, step: Step, id: Uuid)
    requires Enabled(w, step)
    ensures Attempts(Apply(cfg, w, step).db, id) == Attempts(w.db, id) + One(Claims(cfg, w, step, id))
  {
    TransactCountsClaims(cfg, w, step, id);
  }

  lemma TransactCountsClaims(cfg: Config, w: World, step: Step, id: Uuid)
    requires Enabled(w, step)
    ensures Attempts(Transact(cfg, w, step).db, id) == Attempts(w.db, id) + One(Claims(cfg, w, step, id))
  {
    match step
    case WorkStep(token, work) => WorkKeepsAttempts(cfg, w.db, w.claims[token], work, id);
    case SendStep(token, result) => SendKeepsAttempts(cfg, w.db, w.sends[token], result, id);
    case _ =>
  }

  /** How often a run was claimed in the first `n` steps. */
  ghost function ClaimCount(cfg: Config, trace: seq<World>, steps: seq<Step>, id: Uuid, n: nat): nat
    requires IsTrace(cfg, trace, steps) && n <= |steps|
  {
    if n == 0 then 0
    else ClaimCount(cfg, trace, steps, id, n - 1) + One(Claims(cfg, trace[n - 1], steps[n - 1], id))
  }

  lemma {:induction false} ClaimCountIsAttempts(cfg: Config, trace: seq<World>, steps: seq<Step>, id: Uuid, n: nat)
    requires IsTrace(cfg, trace, steps) && n <= |steps|
    ensures ClaimCount(cfg, trace, steps, id, n) == Attempts(trace[n].db, id)
  {
    if n > 0 {
      ClaimCountIsAttempts(cfg, trace, steps, id, n - 1);
      StepCountsClaims(cfg, trace[n - 1], steps[n - 1], id);
    }
  }

  /**
   Whatever happens to its workers, a run is claimed at most five times the limit; at most four times if
   its tool call was denied and three times if it has no tool route.
   */
  lemma ClaimsAreBounded(cfg: Config, trace: seq<World>, steps: seq<Step>, id: Uuid, n: nat)
    requires IsTrace(cfg, trace, steps) && n <= |steps| && id in trace[n].db.runs
    ensures ClaimCount(cfg, trace, steps, id, n) <= 5 * cfg.runLimit
    ensures DeniedTool(trace[n].db.runs[id]) ==> ClaimCount(cfg, trace, steps, id, n) <= 4 * cfg.runLimit
    ensures !ToolRoute(trace[n].db.runs[id]) ==> ClaimCount(cfg, trace, steps, id, n) <= 3 * cfg.runLimit
  {
    ClaimCountIsAttempts(cfg, trace, steps, id, n);
    Safety.TraceHolds(cfg, trace, steps, n);
    assert RunOkAt(cfg, trace[n].db, id);
    ClaimBound(trace[n].db.runs[id], cfg.runLimit);
  }

  /** A run's facts without the rest of the invariant. */
  lemma RunFacts(cfg: Config, trace: seq<World>, steps: seq<Step>, i: nat, id: Uuid)
    requires IsTrace(cfg, trace, steps) && i < |trace| && id in trace[i].db.runs
    ensures Shape(trace[i].db.runs[id]) && Counts(trace[i].db.runs[id], cfg.runLimit)
  {
    Safety.TraceHolds(cfg, trace, steps, i);
    assert RunOkAt(cfg, trace[i].db, id);
  }

  /** What is left of a run's phases and, in the phase it is in, of its at most ten attempts. */
  function Fuel(r: Run, max: nat): int {
    (4 - Rank(PhaseOf(r))) * 11 + max - Counter(r, PhaseOf(r))
  }

  lemma PhaseCounterBounded(r: Run, max: nat)
    requires Shape(r) && Counts(r, max)
    ensures Counter(r, PhaseOf(r)) <= max
  {}

  lemma FuelDrops(a: Run, b: Run, max: nat)
    requires Extends(a, b) && Shape(a) && Shape(b) && Counts(a, max) && Counts(b, max) && max <= 10
    ensures 0 <= Fuel(b, max) <= Fuel(a, max)
    ensures Counter(b, PhaseOf(a)) > Counter(a, PhaseOf(a)) ==> Fuel(b, max) < Fuel(a, max)
  {
    PhaseCounterBounded(a, max);
    PhaseCounterBounded(b, max);
    assert Rank(PhaseOf(a)) == Rank(PhaseOf(b)) ==> PhaseOf(a) == PhaseOf(b);
  }

  lemma ClaimSpends(db: Db, chosen: set<Uuid>, id: Uuid, token: Token, until: Time, max: nat)
    requires id in db.runs && Shape(db.runs[id]) && Counts(db.runs[id], max)
    requires Claim(db, chosen, id, token, until, max).outcome == Committed
    ensures var r, after := db.runs[id], Claim(db, chosen, id, token, until, max).db.runs[id];
            && PhaseOf(after) == PhaseOf(r) && Counter(r, PhaseOf(r)) < max
            && Counter(after, PhaseOf(r)) == Counter(r, PhaseOf(r)) + 1
  {
    var e := ExpireApprovals(db, chosen).runs[id];
    assert e == db.runs[id] || e == Resumed(db.runs[id], db.now);
    EncodingsAgree(db.runs[id], max);
    assert ClaimFilter(e, max) == ClaimFilter(db.runs[id], max);
    ResumeKeepsPhase(db.runs[id], db.now, token, until);
  }

  lemma ResumeKeepsPhase(r: Run, now: Time, token: Token, until: Time)
    ensures PhaseOf(Taken(Resumed(r, now), token, until)) == PhaseOf(Charge(r))
    ensures forall p :: Counter(Taken(Resumed(r, now), token, until), p) == Counter(Charge(r), p)
    ensures PhaseOf(Taken(r, token, until)) == PhaseOf(Charge(r))
    ensures forall p :: Counter(Taken(r, token, until), p) == Counter(Charge(r), p)
  {}

  lemma FuelNeverRises(cfg: Config, trace: seq<World>, steps: seq<Step>, i: nat, j: nat, id: Uuid)
    requires IsTrace(cfg, trace, steps) && i <= j < |trace| && id in trace[i].db.runs
    ensures id in trace[j].db.runs
    ensures 0 <= Fuel(trace[j].db.runs[id], cfg.runLimit) <= Fuel(trace[i].db.runs[id], cfg.runLimit)
  {
    OutputsNeverChange(cfg, trace, steps, i, j, id);
    RunFacts(cfg, trace, steps, i, id);
    RunFacts(cfg, trace, steps, j, id);
    FuelDrops(trace[i].db.runs[id], trace[j].db.runs[id], cfg.runLimit);
  }

  lemma ClaimedDb(cfg: Config, w: World, step: Step, id: Uuid)
    requires Enabled(w, step) && Claims(cfg, w, step, id)
    ensures Claim(w.db, step.chosen, id, step.token, w.db.now + step.lease, cfg.runLimit) == Tx(Apply(cfg, w, step).db, Committed)
  {
    Safety.ApplyClaim(cfg, w, step);
  }

  lemma ClaimBurnsFuel(cfg: Config, trace: seq<World>, steps: seq<Step>, i: nat, id: Uuid)
    requires IsTrace(cfg, trace, steps) && i < |steps| && id in trace[i].db.runs && Claims(cfg, trace[i], steps[i], id)
    ensures id in trace[i + 1].db.runs
    ensures Fuel(trace[i + 1].db.runs[id], cfg.runLimit) < Fuel(trace[i].db.runs[id], cfg.runLimit)
  {
    OutputsNeverChange(cfg, trace, steps, i, i + 1, id);
    RunFacts(cfg, trace, steps, i, id);
    RunFacts(cfg, trace, steps, i + 1, id);
    ClaimedDb(cfg, trace[i], steps[i], id);
    ClaimSpends(trace[i].db, steps[i].chosen, id, steps[i].token, trace[i].db.now + steps[i].lease, cfg.runLimit);
    FuelDrops(trace[i].db.runs[id], trace[i + 1].db.runs[id], cfg.runLimit);
  }

  /**
   The termination measure: nothing ever refills it, through lease expiry, retries, denials and resumed
   approvals, and every claim burns some of it.
   */
  lemma ClaimsDescend(cfg: Config, trace: seq<World>, steps: seq<Step>, i: nat, j: nat, id: Uuid)
    requires IsTrace(cfg, trace, steps) && i <= j < |trace| && id in trace[i].db.runs
    ensures id in trace[j].db.runs
    ensures 0 <= Fuel(trace[j].db.runs[id], cfg.runLimit) <= Fuel(trace[i].db.runs[id], cfg.runLimit)
    ensures i < j && Claims(cfg, trace[i], steps[i], id) ==>
              Fuel(trace[j].db.runs[id], cfg.runLimit) < Fuel(trace[i].db.runs[id], cfg.runLimit)
  {
    FuelNeverRises(cfg, trace, steps, i, j, id);
    if i < j && Claims(cfg, trace[i], steps[i], id) {
      ClaimBurnsFuel(cfg, trace, steps, i, id);
      FuelNeverRises(cfg, trace, steps, i + 1, j, id);
    }
  }

  // ---------------------------------------------------------------- how often a tool is started

  /** The call of the run was started and has not been reopened since. */
  predicate Ran(db: Db, id: Uuid) {
    id in db.calls && db.calls[id].state in {CallExecuting, CallUnknown, CallSucceeded, CallFailed}
  }

  /** The step starts the tool of a run, whoever takes it. */
  predicate Starts(w: World, step: Step, id: Uuid)
    requires Enabled(w, step)
  {
    step.ToolStep? && w.claims[step.token].id == id && step.tool.StartTool? && ToolMoves(w.db, id, step.tool)
  }

  /** The step reopens a call that failed, which only a read that may be retried allows. */
  predicate Reopens(w: World, step: Step, id: Uuid)
    requires Enabled(w, step)
  {
    step.ToolStep? && w.claims[step.token].id == id && step.tool.PrepareTool? && id in w.db.calls && ToolMoves(w.db, id, step.tool)
  }

  lemma ToolCountsStarts(w: World, step: Step, id: Uuid)
    requires Enabled(w, step) && step.ToolStep?
    ensures One(Ran(DoTool(w.db, w.claims[step.token], step.tool), id)) + One(Reopens(w, step, id))
            == One(Ran(w.db, id)) + One(Starts(w, step, id))
  {}

  lemma WorkKeepsCalls(cfg: Config, db: Db, c: Claimed, work: Work)
    ensures DoWork(cfg, db, c, work).db.calls == db.calls
  {}

  lemma SendKeepsCalls(cfg: Config, db: Db, s: Record, result: SendResult)
    ensures DoSend(cfg, db, s, result).db.calls == db.calls
  {}

  lemma TransactCountsStarts(cfg: Config, w: World, step: Step, id: Uuid)
    requires Enabled(w, step)
    ensures One(Ran(Transact(cfg, w, step).db, id)) + One(Reopens(w, step, id)) == One(Ran(w.db, id)) + One(Starts(w, step, id))
  {
    match step
    case ToolStep(token, tool) => ToolCountsStarts(w, step, id);
    case WorkStep(token, work) => WorkKeepsCalls(cfg, w.db, w.claims[token], work);
    case SendStep(token, result) => SendKeepsCalls(cfg, w.db, w.sends[token], result);
    case _ =>
  }

  ghost function StartCount(cfg: Config, trace: seq<World>, steps: seq<Step>, id: Uuid, n: nat): nat
    requires IsTrace(cfg, trace, steps) && n <= |steps|
  {
    if n == 0 then 0 else StartCount(cfg, trace, steps, id, n - 1) + One(Starts(trace[n - 1], steps[n - 1], id))
  }

  ghost function ReopenCount(cfg: Config, trace: seq<World>, steps: seq<Step>, id: Uuid, n: nat): nat
    requires IsTrace(cfg, trace, steps) && n <= |steps|
  {
    if n == 0 then 0 else ReopenCount(cfg, trace, steps, id, n - 1) + One(Reopens(trace[n - 1], steps[n - 1], id))
  }

  /**
   What keeps unfenced tool steps harmless: over all workers, current and stale, the tool of a run is
   started at most once, and once more for each time a failed read that may be retried was reopened.
   */
  lemma {:induction false} ToolStartsOnce(cfg: Config, trace: seq<World>, steps: seq<Step>, id: Uuid, n: nat)
    requires IsTrace(cfg, trace, steps) && n <= |steps|
    ensures StartCount(cfg, trace, steps, id, n) == ReopenCount(cfg, trace, steps, id, n) + One(Ran(trace[n].db, id))
  {
    if n > 0 {
      ToolStartsOnce(cfg, trace, steps, id, n - 1);
      TransactCountsStarts(cfg, trace[n - 1], steps[n - 1], id);
    }
  }
}

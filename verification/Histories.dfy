/** Histories that show what can happen to a run: it can be stranded, and a claim can charge it twice. */
module Histories {
  import opened Wrappers
  import opened Rows
  import opened Phases
  import opened Transactions
  import opened Protocol
  import opened WorkerSteps
  import CallSteps
  import Fencing
  import Liveness

  type Calls = map<Uuid, ToolCall>

  // ---------------------------------------------------------------- a system with one run

  /** A trace may go on with any step that is enabled in its last state. */
  lemma Extended(cfg: Config, trace: seq<World>, steps: seq<Step>, step: Step) returns (longer: seq<World>, more: seq<Step>)
    requires IsTrace(cfg, trace, steps) && Enabled(trace[|steps|], step)
    ensures longer == trace + [Apply(cfg, trace[|steps|], step)] && more == steps + [step]
    ensures IsTrace(cfg, longer, more) && longer[|more|] == Apply(cfg, trace[|steps|], step)
  {
    longer, more := trace + [Apply(cfg, trace[|steps|], step)], steps + [step];
  }

  /** There is one run and its call, and no token from `bound` on was ever used. */
  ghost predicate Sole(w: World, r: Run, calls: Calls, bound: nat) {
    && w.db == Db(w.db.now, map[r.lane := Lane(2, 1)], map[1 := r], map[], map[], calls, {}, {})
    && w.sends == map[] && w.unsent == {} && (forall token | token in w.claims :: token < bound)
    && r.sequence == 1 && r.plane == Passive && r.availableAt <= w.db.now
  }

  /** The worker with the latest token holds the run. */
  ghost predicate Grips(w: World, r: Run, calls: Calls, bound: nat) {
    && Sole(w, r, calls, bound) && bound >= 1
    && r.state == Running && r.lease == Some(Lease(bound - 1, w.db.now + 10))
    && bound - 1 in w.claims && w.claims[bound - 1] == Claimed(1, r)
  }

  lemma RunIsFine(cfg: Config, trace: seq<World>, steps: seq<Step>, r: Run, calls: Calls, bound: nat)
    requires IsTrace(cfg, trace, steps) && Sole(trace[|steps|], r, calls, bound)
    ensures Shape(r) && Counts(r, cfg.runLimit)
    ensures forall limit: nat :: ClaimFilter(r, limit) <==> Liveness.Used(r) < limit
    ensures BranchPhase(BranchOf(Scan(r))) == PhaseOf(r)
  {
    Fencing.RunFacts(cfg, trace, steps, |steps|, 1);
    EncodingsAgree(r, cfg.runLimit);
  }

  lemma ClaimSole(cfg: Config, w: World, r: Run, calls: Calls, bound: nat)
    requires Sole(w, r, calls, bound) && r.state in {Queued, ReplyPending} && ClaimFilter(r, cfg.runLimit)
    ensures Enabled(w, ClaimStep({}, 1, bound, 10))
    ensures Grips(Apply(cfg, w, ClaimStep({}, 1, bound, 10)), Taken(r, bound, w.db.now + 10), calls, bound + 1)
  {
    CallSteps.ExpireNone(w.db);
  }

  /** The lease lapses, and another worker claims the run. */
  lemma ReclaimSole(cfg: Config, w: World, r: Run, calls: Calls, bound: nat)
    requires Grips(w, r, calls, bound) && ClaimFilter(r, cfg.runLimit)
    ensures var later := Apply(cfg, w, Tick(11));
            && Enabled(later, ClaimStep({}, 1, bound, 10))
            && Grips(Apply(cfg, later, ClaimStep({}, 1, bound, 10)), Taken(r, bound, w.db.now + 21), calls, bound + 1)
  {
    CallSteps.ExpireNone(w.db.(now := w.db.now + 11));
  }

  lemma StoreSole(cfg: Config, w: World, r: Run, calls: Calls, bound: nat, work: Work)
    requires Grips(w, r, calls, bound) && WorkAllowed(w.db, w.claims[bound - 1], work)
    requires work.StoreRoute? || (work.StorePlan? && r.arguments.None?) || work.StoreCandidate?
    ensures Sole(Apply(cfg, w, WorkStep(bound - 1, work)), RowAfter(r, work, w.db.now), calls, bound)
  {}

  lemma Enqueued(cfg: Config, event: string, key: LaneKey, modelLimit: nat)
    returns (trace: seq<World>, steps: seq<Step>, r: Run)
    ensures IsTrace(cfg, trace, steps) && Sole(trace[|steps|], r, map[], 0)
    ensures r.state == Queued && r.lane == key && r.modelLimit == modelLimit && r.route.None? && r.routeAttempts == 0
  {
    r := Run(event, key, 1, Passive, modelLimit, Queued, 0, 0, None, None, None, None, None, None, 0, 0, 0, 0, 0);
    trace, steps := [World(Db(0, map[], map[], map[], map[], map[], {}, {}), map[], map[], {})], [];
    trace, steps := Extended(cfg, trace, steps, EnqueueStep(1, event, key, Passive, modelLimit));
    assert trace[1].db.runs == map[1 := r];
  }

  lemma ClaimedSole(cfg: Config, trace: seq<World>, steps: seq<Step>, r: Run, calls: Calls, bound: nat)
    returns (longer: seq<World>, more: seq<Step>, after: Run)
    requires IsTrace(cfg, trace, steps) && Sole(trace[|steps|], r, calls, bound)
    requires r.state in {Queued, ReplyPending} && ClaimFilter(r, cfg.runLimit)
    ensures IsTrace(cfg, longer, more) && Grips(longer[|more|], after, calls, bound + 1)
    ensures exists until :: after == Taken(r, bound, until)
  {
    ClaimSole(cfg, trace[|steps|], r, calls, bound);
    longer, more := Extended(cfg, trace, steps, ClaimStep({}, 1, bound, 10));
    after := Taken(r, bound, trace[|steps|].db.now + 10);
  }

  /** The holder stores an output, and the next worker claims the run in its next phase. */
  lemma StoredAndClaimed(cfg: Config, trace: seq<World>, steps: seq<Step>, r: Run, calls: Calls, bound: nat, work: Work)
    returns (longer: seq<World>, more: seq<Step>, after: Run)
    requires IsTrace(cfg, trace, steps) && Grips(trace[|steps|], r, calls, bound)
    requires WorkAllowed(trace[|steps|].db, trace[|steps|].claims[bound - 1], work)
    requires work.StoreRoute? || (work.StorePlan? && r.arguments.None?) || work.StoreCandidate?
    requires ClaimFilter(RowAfter(r, work, trace[|steps|].db.now), cfg.runLimit)
    ensures IsTrace(cfg, longer, more) && Grips(longer[|more|], after, calls, bound + 1)
    ensures exists until :: after == Taken(RowAfter(r, work, trace[|steps|].db.now), bound, until)
  {
    StoreSole(cfg, trace[|steps|], r, calls, bound, work);
    longer, more := Extended(cfg, trace, steps, WorkStep(bound - 1, work));
    longer, more, after := ClaimedSole(cfg, longer, more, RowAfter(r, work, trace[|steps|].db.now), calls, bound);
  }

  /** The same phase of the same run, claimed more often. */
  predicate Spends(r: Run, after: Run) {
    && PhaseOf(after) == PhaseOf(r) && after.route == r.route && after.arguments == r.arguments
    && after.result == r.result && after.candidate == r.candidate && after.modelLimit == r.modelLimit && after.lane == r.lane
  }

  /** Worker after worker dies, until the phase has no attempt left and the last one holds the run. */
  lemma {:induction false} Drained(cfg: Config, trace: seq<World>, steps: seq<Step>, r: Run, calls: Calls, bound: nat)
    returns (longer: seq<World>, more: seq<Step>, after: Run, last: nat)
    requires IsTrace(cfg, trace, steps) && Grips(trace[|steps|], r, calls, bound) && Liveness.Used(r) <= cfg.runLimit
    ensures IsTrace(cfg, longer, more) && Grips(longer[|more|], after, calls, last)
    ensures Liveness.Used(after) == cfg.runLimit && Spends(r, after)
    decreases cfg.runLimit - Liveness.Used(r)
  {
    RunIsFine(cfg, trace, steps, r, calls, bound);
    if Liveness.Used(r) == cfg.runLimit {
      longer, more, after, last := trace, steps, r, bound;
    } else {
      var w := trace[|steps|];
      ReclaimSole(cfg, w, r, calls, bound);
      longer, more := Extended(cfg, trace, steps, Tick(11));
      longer, more := Extended(cfg, longer, more, ClaimStep({}, 1, bound, 10));
      var next := Taken(r, bound, w.db.now + 21);
      ChargeUsesOne(r, bound, w.db.now + 21);
      longer, more, after, last := Drained(cfg, longer, more, next, calls, bound + 1);
    }
  }

  lemma ChargeUsesOne(r: Run, token: Token, until: Time)
    requires Shape(r)
    ensures Spends(r, Taken(r, token, until)) && Liveness.Used(Taken(r, token, until)) == Liveness.Used(r) + 1
  {}

  // ---------------------------------------------------------------- stranded runs

  /** Under every limit a head is stranded by losing the worker that holds its phase's last attempt. */
  lemma LastWorkerLost(cfg: Config, event: string, key: LaneKey, modelLimit: nat) returns (trace: seq<World>, steps: seq<Step>)
    ensures IsTrace(cfg, trace, steps) && Liveness.Stuck(cfg, trace[|steps|].db, 1)
    ensures var r := trace[|steps|].db.runs[1]; r.state == Running && r.lease.Some? && r.lease.value.until < trace[|steps|].db.now
  {
    var r, last;
    trace, steps, r := Enqueued(cfg, event, key, modelLimit);
    RunIsFine(cfg, trace, steps, r, map[], 0);
    trace, steps, r := ClaimedSole(cfg, trace, steps, r, map[], 0);
    RunIsFine(cfg, trace, steps, r, map[], 1);
    assert Liveness.Used(r) == 1;
    trace, steps, r, last := Drained(cfg, trace, steps, r, map[], 1);
    trace, steps := Extended(cfg, trace, steps, Tick(11));
  }

  lemma RetrySole(cfg: Config, w: World, r: Run, calls: Calls, bound: nat)
    requires Grips(w, r, calls, bound) && r.attempts >= 1 && Shape(r) && Counts(r, cfg.runLimit)
    requires Liveness.Used(r) == cfg.runLimit < RetryLimit(cfg, r) && r.candidate.None?
    ensures Enabled(w, WorkStep(bound - 1, Retry(Backoff(r.attempts))))
    ensures var after := Apply(cfg, w, WorkStep(bound - 1, Retry(Backoff(r.attempts))));
            Liveness.Stuck(cfg, after.db, 1) && after.db.runs[1].state == Queued
  {
    EncodingsAgree(r, cfg.runLimit);
  }

  /** The run is routed as needing no tool and claimed for its first model attempt. */
  lemma Answering(cfg: Config, event: string, key: LaneKey, modelLimit: nat)
    returns (trace: seq<World>, steps: seq<Step>, r: Run)
    ensures IsTrace(cfg, trace, steps) && Grips(trace[|steps|], r, map[], 2)
    ensures r.route == Some(Route(NoTool, None)) && r.candidate.None? && r.modelAttempts == 1 && r.modelLimit == modelLimit
  {
    trace, steps, r := Enqueued(cfg, event, key, modelLimit);
    RunIsFine(cfg, trace, steps, r, map[], 0);
    trace, steps, r := ClaimedSole(cfg, trace, steps, r, map[], 0);
    RunIsFine(cfg, trace, steps, r, map[], 1);
    trace, steps, r := StoredAndClaimed(cfg, trace, steps, r, map[], 1, StoreRoute(Route(NoTool, None)));
  }

  /**
   Under every limit, an agent version that allows more model attempts than the workers claim for strands a
   run: its last model call fails, it is queued again, and then its lane never moves.
   */
  lemma RetryCanStrand(cfg: Config, event: string, key: LaneKey, modelLimit: nat) returns (trace: seq<World>, steps: seq<Step>)
    requires modelLimit > cfg.runLimit
    ensures IsTrace(cfg, trace, steps)
    ensures Liveness.Stuck(cfg, trace[|steps|].db, 1) && trace[|steps|].db.runs[1].state == Queued
  {
    var r, last;
    trace, steps, r := Answering(cfg, event, key, modelLimit);
    assert Liveness.Used(r) == 1;
    trace, steps, r, last := Drained(cfg, trace, steps, r, map[], 2);
    RunIsFine(cfg, trace, steps, r, map[], last);
    Fencing.RunFacts(cfg, trace, steps, |steps|, 1);
    RetrySole(cfg, trace[|steps|], r, map[], last);
    trace, steps := Extended(cfg, trace, steps, WorkStep(last - 1, Retry(Backoff(r.attempts))));
  }

  // ---------------------------------------------------------------- runs of a tool

  /** The run is routed to a tool, planned, and claimed for its first execution. */
  lemma Executing(cfg: Config, event: string, key: LaneKey, modelLimit: nat, tool: string, json: Json)
    returns (trace: seq<World>, steps: seq<Step>, r: Run)
    requires json.JsonObject?
    ensures IsTrace(cfg, trace, steps) && Grips(trace[|steps|], r, map[], 3)
    ensures r.route == Some(Route(Selected, Some(OtherTool(tool)))) && r.arguments == Some(json)
    ensures r.result.None? && r.candidate.None? && r.executionAttempts == 1
  {
    trace, steps, r := Enqueued(cfg, event, key, modelLimit);
    RunIsFine(cfg, trace, steps, r, map[], 0);
    trace, steps, r := ClaimedSole(cfg, trace, steps, r, map[], 0);
    RunIsFine(cfg, trace, steps, r, map[], 1);
    trace, steps, r := StoredAndClaimed(cfg, trace, steps, r, map[], 1, StoreRoute(Route(Selected, Some(OtherTool(tool)))));
    RunIsFine(cfg, trace, steps, r, map[], 2);
    trace, steps, r := StoredAndClaimed(cfg, trace, steps, r, map[], 2, StorePlan(json));
    RunIsFine(cfg, trace, steps, r, map[], 3);
  }

  function FirstCall(verdict: Verdict): ToolCall {
    match verdict
    case Allow => ToolCall(CallPrepared, None)
    case Deny => ToolCall(CallDenied, None)
    case RequireApproval(approval, expiresAt) => ToolCall(CallWaiting, Some(Approval(approval, Requested, expiresAt)))
  }

  lemma PrepareSole(cfg: Config, trace: seq<World>, steps: seq<Step>, r: Run, bound: nat, verdict: Verdict)
    returns (longer: seq<World>, more: seq<Step>)
    requires IsTrace(cfg, trace, steps) && Grips(trace[|steps|], r, map[], bound) && BranchOf(Scan(r)) == ExecuteTool
    ensures IsTrace(cfg, longer, more) && Grips(longer[|more|], r, map[1 := FirstCall(verdict)], bound)
  {
    longer, more := Extended(cfg, trace, steps, ToolStep(bound - 1, PrepareTool(verdict, false)));
  }

  lemma ParkSole(cfg: Config, w: World, r: Run, bound: nat, approval: Uuid, expiresAt: Time)
    requires Grips(w, r, map[1 := FirstCall(RequireApproval(approval, expiresAt))], bound) && BranchOf(Scan(r)) == ExecuteTool
    ensures Enabled(w, WorkStep(bound - 1, AwaitApproval(approval)))
    ensures var db := Apply(cfg, w, WorkStep(bound - 1, AwaitApproval(approval))).db;
            && 1 in db.runs && db.runs[1] == RowAfter(r, AwaitApproval(approval), w.db.now) && db.lanes == w.db.lanes
  {}

  /** Under every limit a head is stranded by parking it for an approval on its last execution attempt. */
  lemma LastApprovalParked(cfg: Config, event: string, key: LaneKey, modelLimit: nat, tool: string, json: Json,
                           approval: Uuid, expiresAt: Time)
    returns (trace: seq<World>, steps: seq<Step>)
    requires json.JsonObject?
    ensures IsTrace(cfg, trace, steps) && Liveness.Stuck(cfg, trace[|steps|].db, 1)
    ensures trace[|steps|].db.runs[1].state == WaitingApproval
  {
    var r, last;
    var calls := map[1 := FirstCall(RequireApproval(approval, expiresAt))];
    trace, steps, r := Executing(cfg, event, key, modelLimit, tool, json);
    trace, steps := PrepareSole(cfg, trace, steps, r, 3, RequireApproval(approval, expiresAt));
    trace, steps, r, last := Drained(cfg, trace, steps, r, calls, 3);
    ParkSole(cfg, trace[|steps|], r, last, approval, expiresAt);
    trace, steps := Extended(cfg, trace, steps, WorkStep(last - 1, AwaitApproval(approval)));
  }

  /** A refused tool's run after the refusal was stored as its answer. */
  predicate AnsweredDenied(r: Run) {
    DeniedTool(r) && r.state == ReplyPending && r.executionAttempts == 1 && r.finalAttempts == 0
  }

  lemma Denied(cfg: Config, event: string, key: LaneKey, modelLimit: nat, tool: string, json: Json, text: string)
    returns (trace: seq<World>, steps: seq<Step>, r: Run)
    requires json.JsonObject? && text != ""
    ensures IsTrace(cfg, trace, steps) && Sole(trace[|steps|], r, map[1 := FirstCall(Deny)], 3)
    ensures AnsweredDenied(r)
  {
    trace, steps, r := Executing(cfg, event, key, modelLimit, tool, json);
    trace, steps := PrepareSole(cfg, trace, steps, r, 3, Deny);
    var work := StoreCandidate(Candidate(text, false));
    RunIsFine(cfg, trace, steps, r, map[1 := FirstCall(Deny)], 3);
    StoreSole(cfg, trace[|steps|], r, map[1 := FirstCall(Deny)], 3, work);
    r := RowAfter(r, work, trace[|steps|].db.now);
    trace, steps := Extended(cfg, trace, steps, WorkStep(2, work));
  }

  /** Under any limits, a run whose tool is denied comes to a claim that charges its execution and its finalization. */
  lemma ClaimCanChargeTwice(cfg: Config, event: string, key: LaneKey, modelLimit: nat, tool: string, json: Json, text: string)
    returns (trace: seq<World>, steps: seq<Step>)
    requires json.JsonObject? && text != ""
    ensures IsTrace(cfg, trace, steps) && steps != []
    ensures var before, after := trace[|steps| - 1], trace[|steps|];
            && Fencing.Claims(cfg, before, steps[|steps| - 1], 1)
            && 1 in before.db.runs && 1 in after.db.runs && DeniedTool(before.db.runs[1])
            && after.db.runs[1].executionAttempts == before.db.runs[1].executionAttempts + 1
            && after.db.runs[1].finalAttempts == before.db.runs[1].finalAttempts + 1
  {
    var r;
    trace, steps, r := Denied(cfg, event, key, modelLimit, tool, json, text);
    var w := trace[|steps|];
    ClaimSole(cfg, w, r, map[1 := FirstCall(Deny)], 3);
    ChargedTwice(cfg, w, r, map[1 := FirstCall(Deny)], 3);
    trace, steps := Extended(cfg, trace, steps, ClaimStep({}, 1, 3, 10));
  }

  lemma ChargedTwice(cfg: Config, w: World, r: Run, calls: Calls, bound: nat)
    requires Sole(w, r, calls, bound) && AnsweredDenied(r)
    ensures Enabled(w, ClaimStep({}, 1, bound, 10)) && Fencing.Claims(cfg, w, ClaimStep({}, 1, bound, 10), 1)
    ensures var after := Taken(r, bound, w.db.now + 10);
            after.executionAttempts == r.executionAttempts + 1 && after.finalAttempts == r.finalAttempts + 1
  {
    CallSteps.ExpireNone(w.db);
  }
}

/**
 Who may work on a row, and until when.  The claims are stated in the columns of the tables, and over whole
 histories a worker has its row to itself until it ends its turn or its lease runs out.
 */
module Leases {
  import opened Wrappers
  import opened Rows
  import opened Phases
  import opened Transactions
  import opened Protocol
  import opened Frames
  import Fencing
  import LaneOrder
  import Liveness
  import Safety
  import WorkerSteps

  // ---------------------------------------------------------------- which rows a claim takes

  /** A run is at rest and due, its worker's lease lapsed, or its approval is among those that expire with the claim. */
  predicate Free(db: Db, chosen: set<Uuid>, id: Uuid)
    requires id in db.runs
  {
    var r := db.runs[id];
    match r.state
    case Queued => r.availableAt <= db.now
    case ReplyPending => r.availableAt <= db.now
    case Running => r.availableAt <= db.now && r.lease.Some? && r.lease.value.until < db.now
    case WaitingApproval =>
      && id in chosen && id in db.calls && db.calls[id].state == CallWaiting && db.calls[id].approval.Some?
      && db.calls[id].approval.value.state == Requested && db.calls[id].approval.value.expiresAt <= db.now
    case _ => false
  }

  /** The run claim: at its lane's position, free, with an attempt left in its phase, and its tenant not paused. */
  lemma RunClaimIff(db: Db, chosen: set<Uuid>, id: Uuid, token: Token, until: Time, max: nat)
    requires id in db.runs ==> Shape(db.runs[id]) && Counts(db.runs[id], max)
    ensures var tx := Claim(db, chosen, id, token, until, max);
            if && id in db.runs && Free(db, chosen, id)
               && db.runs[id].lane in db.lanes && db.lanes[db.runs[id].lane].nextDispatch == db.runs[id].sequence
               && Counter(db.runs[id], PhaseOf(db.runs[id])) < max && db.runs[id].lane.tenant !in db.pausedRuns
            then && tx.outcome == Committed && id in tx.db.runs
                 && tx.db.runs[id].state == Running && tx.db.runs[id].lease == Some(Lease(token, until))
            else tx == Tx(db, Refused)
  {
    if id in db.runs {
      EncodingsAgree(db.runs[id], max);
      assert ClaimFilter(Resumed(db.runs[id], db.now), max) == ClaimFilter(db.runs[id], max);
    }
  }

  // ---------------------------------------------------------------- time

  lemma WorkKeepsTime(cfg: Config, db: Db, c: Claimed, work: Work)
    ensures DoWork(cfg, db, c, work).db.now == db.now
  {}

  lemma SendKeepsTime(cfg: Config, db: Db, s: Record, result: SendResult)
    ensures DoSend(cfg, db, s, result).db.now == db.now
  {}

  lemma TimePasses(cfg: Config, w: World, step: Step)
    requires Enabled(w, step)
    ensures Transact(cfg, w, step).db.now == w.db.now + (if step.Tick? then step.seconds else 0)
  {
    match step
    case WorkStep(token, work) => WorkKeepsTime(cfg, w.db, w.claims[token], work);
    case SendStep(token, result) => SendKeepsTime(cfg, w.db, w.sends[token], result);
    case _ =>
  }

  lemma TimeGoesOn(cfg: Config, w: World, step: Step)
    requires Enabled(w, step)
    ensures Apply(cfg, w, step).db.now >= w.db.now
  {
    TimePasses(cfg, w, step);
  }

  lemma ClockStep(cfg: Config, trace: seq<World>, steps: seq<Step>, k: nat)
    requires IsTrace(cfg, trace, steps) && k < |steps|
    ensures trace[k].db.now <= trace[k + 1].db.now
  {
    TimeGoesOn(cfg, trace[k], steps[k]);
  }

  lemma {:induction false} ClockChain(worlds: seq<World>, i: nat, j: nat)
    requires i <= j < |worlds| && forall k: nat | k + 1 < |worlds| :: worlds[k].db.now <= worlds[k + 1].db.now
    ensures worlds[i].db.now <= worlds[j].db.now
    decreases j
  {
    if i < j {
      ClockChain(worlds, i, j - 1);
      assert worlds[j - 1].db.now <= worlds[j - 1 + 1].db.now;
    }
  }

  lemma ClockGoesOn(cfg: Config, trace: seq<World>, steps: seq<Step>, i: nat, j: nat)
    requires IsTrace(cfg, trace, steps) && i <= j < |trace|
    ensures trace[i].db.now <= trace[j].db.now
  {
    forall k: nat | k + 1 < |trace| ensures trace[k].db.now <= trace[k + 1].db.now {
      ClockStep(cfg, trace, steps, k);
    }
    ClockChain(trace, i, j);
  }

  // ---------------------------------------------------------------- a worker and its run

  /** The run's columns say that the token's worker is at work on it. */
  predicate AtWork(db: Db, id: Uuid, token: Token, until: Time) {
    id in db.runs && db.runs[id].state == Running && db.runs[id].lease == Some(Lease(token, until))
  }

  predicate EndsTurn(step: Step, token: Token) { step.WorkStep? && step.token == token }

  lemma OtherTurnsSpare(cfg: Config, w: World, other: Token, work: Work, id: Uuid, token: Token, until: Time)
    requires Inv(cfg, w) && AtWork(w.db, id, token, until) && other in w.claims && other != token
    ensures AtWork(DoWork(cfg, w.db, w.claims[other], work).db, id, token, until)
  {
    var c := w.claims[other];
    assert ClaimOk(cfg, w.db, other, c);
    WorkerSteps.OnlyHoldersCommit(cfg, w.db, c, work);
    if c.id != id {
      Liveness.WorkSparesOthers(cfg, w.db, c, work, id);
    }
  }

  lemma SendsSpareRunning(cfg: Config, w: World, other: Token, result: SendResult, id: Uuid, token: Token, until: Time)
    requires AtWork(w.db, id, token, until) && other in w.sends
    ensures AtWork(DoSend(cfg, w.db, w.sends[other], result).db, id, token, until)
  {}

  lemma RestSparesRunning(cfg: Config, w: World, step: Step, id: Uuid, token: Token, until: Time)
    requires Enabled(w, step) && AtWork(w.db, id, token, until)
    requires !step.ClaimStep? && !step.WorkStep?
    ensures AtWork(Transact(cfg, w, step).db, id, token, until)
  {
    match step
    case SendStep(other, result) => SendsSpareRunning(cfg, w, other, result, id, token, until);
    case _ =>
  }

  lemma OtherClaimsSpare(cfg: Config, w: World, step: Step, id: Uuid, token: Token, until: Time)
    requires Inv(cfg, w) && Enabled(w, step) && step.ClaimStep? && AtWork(w.db, id, token, until)
    requires !Fencing.Claims(cfg, w, step, id)
    ensures AtWork(Apply(cfg, w, step).db, id, token, until)
  {
    Safety.ApplyClaim(cfg, w, step);
  }

  /** Nothing but its own worker's turn and another claim takes a run from its worker. */
  lemma WorkGoesOn(cfg: Config, w: World, step: Step, id: Uuid, token: Token, until: Time)
    requires Inv(cfg, w) && Enabled(w, step) && AtWork(w.db, id, token, until)
    requires !EndsTurn(step, token) && !Fencing.Claims(cfg, w, step, id)
    ensures AtWork(Apply(cfg, w, step).db, id, token, until)
  {
    match step
    case ClaimStep(_, _, _, _) => OtherClaimsSpare(cfg, w, step, id, token, until);
    case WorkStep(other, work) => OtherTurnsSpare(cfg, w, other, work, id, token, until);
    case _ => RestSparesRunning(cfg, w, step, id, token, until);
  }

  /** No claim takes a run whose worker is inside its lease. */
  lemma ClaimWaitsForLease(cfg: Config, w: World, step: Step, id: Uuid, token: Token, until: Time)
    requires Inv(cfg, w) && Enabled(w, step) && AtWork(w.db, id, token, until) && Fencing.Claims(cfg, w, step, id)
    ensures until < w.db.now
  {
    assert RunOkAt(cfg, w.db, id);
    RunClaimIff(w.db, step.chosen, id, step.token, w.db.now + step.lease, cfg.runLimit);
  }

  /** The claim of step `i` has its run until its worker ends the turn or another claim commits. */
  lemma {:induction false} WorkLasts(cfg: Config, trace: seq<World>, steps: seq<Step>, i: nat, j: nat, id: Uuid)
    requires IsTrace(cfg, trace, steps) && i < j < |trace| && Fencing.Claims(cfg, trace[i], steps[i], id)
    requires forall k | i < k < j :: !EndsTurn(steps[k], steps[i].token) && !Fencing.Claims(cfg, trace[k], steps[k], id)
    ensures AtWork(trace[j].db, id, steps[i].token, trace[i].db.now + steps[i].lease)
    decreases j
  {
    if j == i + 1 {
      Safety.TraceHolds(cfg, trace, steps, i);
      Fencing.ClaimedDb(cfg, trace[i], steps[i], id);
    } else {
      WorkLasts(cfg, trace, steps, i, j - 1, id);
      Safety.TraceHolds(cfg, trace, steps, j - 1);
      WorkGoesOn(cfg, trace[j - 1], steps[j - 1], id, steps[i].token, trace[i].db.now + steps[i].lease);
    }
  }

  /**
   Between two claims of one run the first worker ended its turn, or its lease ran out: two workers never
   work on a run inside their leases.
   */
  lemma {:induction false} OneWorkerAtATime(cfg: Config, trace: seq<World>, steps: seq<Step>, i: nat, j: nat, id: Uuid)
    requires IsTrace(cfg, trace, steps) && i < j < |steps|
    requires Fencing.Claims(cfg, trace[i], steps[i], id) && Fencing.Claims(cfg, trace[j], steps[j], id)
    ensures (exists k :: i < k < j && EndsTurn(steps[k], steps[i].token)) || trace[j].db.now > trace[i].db.now + steps[i].lease
    decreases j
  {
    if k :| i < k < j && Fencing.Claims(cfg, trace[k], steps[k], id) {
      OneWorkerAtATime(cfg, trace, steps, i, k, id);
      ClockGoesOn(cfg, trace, steps, k, j);
    } else if forall k | i < k < j :: !EndsTurn(steps[k], steps[i].token) {
      WorkLasts(cfg, trace, steps, i, j, id);
      Safety.TraceHolds(cfg, trace, steps, j);
      ClaimWaitsForLease(cfg, trace[j], steps[j], id, steps[i].token, trace[i].db.now + steps[i].lease);
    }
  }

  /** Inside its lease a worker is not even overtaken. */
  lemma {:induction false} WorkLastsInTime(cfg: Config, trace: seq<World>, steps: seq<Step>, i: nat, j: nat, id: Uuid)
    requires IsTrace(cfg, trace, steps) && i < j < |trace| && Fencing.Claims(cfg, trace[i], steps[i], id)
    requires forall k | i < k < j :: !EndsTurn(steps[k], steps[i].token)
    requires trace[j].db.now <= trace[i].db.now + steps[i].lease
    ensures AtWork(trace[j].db, id, steps[i].token, trace[i].db.now + steps[i].lease)
  {
    forall k | i < k < j ensures !Fencing.Claims(cfg, trace[k], steps[k], id) {
      ClockGoesOn(cfg, trace, steps, k, j);
      if Fencing.Claims(cfg, trace[k], steps[k], id) {
        OneWorkerAtATime(cfg, trace, steps, i, k, id);
      }
    }
    WorkLasts(cfg, trace, steps, i, j, id);
  }

  /** The record of a claim, and what holding its token means. */
  lemma ClaimIsKept(cfg: Config, trace: seq<World>, steps: seq<Step>, i: nat, j: nat, id: Uuid)
    requires IsTrace(cfg, trace, steps) && i < j < |trace| && Fencing.Claims(cfg, trace[i], steps[i], id)
    ensures steps[i].token in trace[j].claims && trace[j].claims[steps[i].token].id == id
    ensures trace[j].claims[steps[i].token].row.lease == Some(Lease(steps[i].token, trace[i].db.now + steps[i].lease))
  {
    Fencing.ClaimedDb(cfg, trace[i], steps[i], id);
    Safety.ApplyClaim(cfg, trace[i], steps[i]);
    LaneOrder.LaterInTrace(cfg, trace, steps, i + 1, j);
    assert ClaimLater(trace[i + 1], trace[j], steps[i].token);
  }

  lemma HeldIsAtWork(cfg: Config, trace: seq<World>, steps: seq<Step>, i: nat, j: nat, id: Uuid)
    requires IsTrace(cfg, trace, steps) && i < j < |trace| && Fencing.Claims(cfg, trace[i], steps[i], id)
    ensures steps[i].token in trace[j].claims
    ensures Held(trace[j].db, trace[j].claims[steps[i].token]) <==>
            AtWork(trace[j].db, id, steps[i].token, trace[i].db.now + steps[i].lease)
  {
    ClaimIsKept(cfg, trace, steps, i, j, id);
    if Held(trace[j].db, trace[j].claims[steps[i].token]) {
      Safety.TraceHolds(cfg, trace, steps, j);
      WorkerSteps.HolderIsRow(cfg, trace[j], steps[i].token);
    }
  }

  lemma HeldUnlessOvertaken(cfg: Config, trace: seq<World>, steps: seq<Step>, i: nat, j: nat, id: Uuid)
    requires IsTrace(cfg, trace, steps) && i < j < |trace| && Fencing.Claims(cfg, trace[i], steps[i], id)
    requires forall k | i < k < j :: !EndsTurn(steps[k], steps[i].token)
    ensures steps[i].token in trace[j].claims
    ensures Held(trace[j].db, trace[j].claims[steps[i].token]) <==> forall k | i < k < j :: !Fencing.Claims(cfg, trace[k], steps[k], id)
  {
    ClaimIsKept(cfg, trace, steps, i, j, id);
    if k :| i < k < j && Fencing.Claims(cfg, trace[k], steps[k], id) {
      ClaimIsKept(cfg, trace, steps, i, k, id);
      Fencing.ReclaimFences(cfg, trace, steps, k, steps[i].token);
      LaneOrder.LaterInTrace(cfg, trace, steps, k + 1, j);
      assert ClaimLater(trace[k + 1], trace[j], steps[i].token);
    } else {
      WorkLasts(cfg, trace, steps, i, j, id);
    }
  }

  /** The transactions that store an output or hand it over; they are refused after the end of the lease. */
  predicate Timed(work: Work) {
    work.StoreRoute? || work.StorePlan? || work.StoreResult? || work.StoreCandidate? || work.HandOver?
  }

  /** What a worker produced is accepted if and only if it comes by the end of the lease. */
  lemma OutputInTimeIff(cfg: Config, trace: seq<World>, steps: seq<Step>, i: nat, j: nat, id: Uuid, work: Work)
    requires IsTrace(cfg, trace, steps) && i < j < |trace| && Fencing.Claims(cfg, trace[i], steps[i], id)
    requires forall k | i < k < j :: !EndsTurn(steps[k], steps[i].token)
    requires steps[i].token in trace[j].claims && Timed(work) && WorkAllowed(trace[j].db, trace[j].claims[steps[i].token], work)
    ensures DoWork(cfg, trace[j].db, trace[j].claims[steps[i].token], work).outcome == Committed <==>
            trace[j].db.now <= trace[i].db.now + steps[i].lease
  {
    ClaimIsKept(cfg, trace, steps, i, j, id);
    Fencing.OnlyTheLeaseRefuses(cfg, trace, steps, j, steps[i].token, work);
    HeldIsAtWork(cfg, trace, steps, i, j, id);
    if trace[j].db.now <= trace[i].db.now + steps[i].lease {
      WorkLastsInTime(cfg, trace, steps, i, j, id);
    }
  }

  /** A retry or a failure, which carry no such guard, is accepted until another worker claims the run. */
  lemma RetryUntilOvertakenIff(cfg: Config, trace: seq<World>, steps: seq<Step>, i: nat, j: nat, id: Uuid, work: Work)
    requires IsTrace(cfg, trace, steps) && i < j < |trace| && Fencing.Claims(cfg, trace[i], steps[i], id)
    requires forall k | i < k < j :: !EndsTurn(steps[k], steps[i].token)
    requires steps[i].token in trace[j].claims && WorkAllowed(trace[j].db, trace[j].claims[steps[i].token], work)
    requires work.Retry? || work.GiveUp?
    ensures DoWork(cfg, trace[j].db, trace[j].claims[steps[i].token], work).outcome == Committed <==>
            forall k | i < k < j :: !Fencing.Claims(cfg, trace[k], steps[k], id)
  {
    ClaimIsKept(cfg, trace, steps, i, j, id);
    Fencing.OnlyTheLeaseRefuses(cfg, trace, steps, j, steps[i].token, work);
    HeldUnlessOvertaken(cfg, trace, steps, i, j, id);
  }

  // ---------------------------------------------------------------- refusals

  /** The run is being worked on under the token of this claim. */
  predicate Holds(db: Db, c: Claimed) {
    && c.id in db.runs && db.runs[c.id].state == Running && db.runs[c.id].lease.Some? && c.row.lease.Some?
    && db.runs[c.id].lease.value.token == c.row.lease.value.token
  }

  /** How each transaction that ends a turn is answered, in whatever state the tables are. */
  lemma WorkRefusedIff(cfg: Config, db: Db, c: Claimed, work: Work)
    requires !work.AwaitApproval?
    ensures var intime := Holds(db, c) && db.runs[c.id].lease.value.until >= db.now;
            var ahead := c.row.lane in db.lanes && db.lanes[c.row.lane].nextDispatch == c.row.sequence;
            DoWork(cfg, db, c, work).outcome ==
            match work
            case StorePlan(_) =>
              if !intime then LeaseNotHeld else if db.runs[c.id].arguments.Some? then AlreadyWritten else Committed
            case StoreResult(_) =>
              if !intime then LeaseNotHeld
              else if db.runs[c.id].arguments.None? || db.runs[c.id].result.Some? then AlreadyWritten else Committed
            case HandOver =>
              if c.id in db.deliveries then AlreadyDelivered
              else if !intime || db.runs[c.id].lane.tenant != c.row.lane.tenant then LeaseNotHeld else Committed
            case GiveUp => if !Holds(db, c) then LeaseNotHeld else if !ahead then NotDispatchPosition else Committed
            case Retry(_) =>
              if !Holds(db, c) then LeaseNotHeld
              else if PhaseAttempts(Scan(c.row)) >= RetryLimit(cfg, c.row) && !ahead then NotDispatchPosition else Committed
            case _ => if !intime then LeaseNotHeld else Committed
    ensures DoWork(cfg, db, c, work).outcome != Committed ==> DoWork(cfg, db, c, work).db == db
  {}

  // ---------------------------------------------------------------- pauses

  lemma WorkKeepsPauses(cfg: Config, db: Db, c: Claimed, work: Work)
    ensures var after := DoWork(cfg, db, c, work).db; after.pausedRuns == db.pausedRuns && after.pausedDeliveries == db.pausedDeliveries
  {}

  lemma SendKeepsPauses(cfg: Config, db: Db, s: Record, result: SendResult)
    ensures var after := DoSend(cfg, db, s, result).db; after.pausedRuns == db.pausedRuns && after.pausedDeliveries == db.pausedDeliveries
  {}

  /** Only the two pause steps change who is paused. */
  lemma PausesMove(cfg: Config, w: World, step: Step, tenant: Uuid)
    requires Enabled(w, step)
    ensures tenant in Transact(cfg, w, step).db.pausedRuns <==>
            if step.PauseRuns? && step.tenant == tenant then step.paused else tenant in w.db.pausedRuns
    ensures tenant in Transact(cfg, w, step).db.pausedDeliveries <==>
            if step.PauseDeliveries? && step.tenant == tenant then step.paused else tenant in w.db.pausedDeliveries
  {
    match step
    case WorkStep(token, work) => WorkKeepsPauses(cfg, w.db, w.claims[token], work);
    case SendStep(token, result) => SendKeepsPauses(cfg, w.db, w.sends[token], result);
    case _ =>
  }

  lemma PausesMoveAt(cfg: Config, trace: seq<World>, steps: seq<Step>, k: nat, tenant: Uuid)
    requires IsTrace(cfg, trace, steps) && k < |steps|
    ensures tenant in trace[k + 1].db.pausedRuns <==>
            if steps[k].PauseRuns? && steps[k].tenant == tenant then steps[k].paused else tenant in trace[k].db.pausedRuns
    ensures tenant in trace[k + 1].db.pausedDeliveries <==>
            if steps[k].PauseDeliveries? && steps[k].tenant == tenant then steps[k].paused else tenant in trace[k].db.pausedDeliveries
  {
    PausesMove(cfg, trace[k], steps[k], tenant);
  }

  /** From a tenant's pause until it is lifted no run and no delivery of that tenant is claimed. */
  lemma PausedIsNotClaimed(cfg: Config, trace: seq<World>, steps: seq<Step>, i: nat, j: nat, tenant: Uuid, id: Uuid)
    requires IsTrace(cfg, trace, steps) && i < j < |steps|
    ensures steps[i] == PauseRuns(tenant, true) && (forall k | i < k < j :: steps[k] != PauseRuns(tenant, false)) ==>
              (Fencing.Claims(cfg, trace[j], steps[j], id) ==> id in trace[j].db.runs && trace[j].db.runs[id].lane.tenant != tenant)
    ensures steps[i] == PauseDeliveries(tenant, true) && (forall k | i < k < j :: steps[k] != PauseDeliveries(tenant, false)) ==>
              (Fencing.ClaimsSend(cfg, trace[j], steps[j], id) ==> id in trace[j].db.deliveries && trace[j].db.deliveries[id].tenant != tenant)
  {
    var runs := steps[i] == PauseRuns(tenant, true) && (forall k | i < k < j :: steps[k] != PauseRuns(tenant, false));
    var deliveries := steps[i] == PauseDeliveries(tenant, true) && (forall k | i < k < j :: steps[k] != PauseDeliveries(tenant, false));
    for k := i to j
      invariant k > i && runs ==> tenant in trace[k].db.pausedRuns
      invariant k > i && deliveries ==> tenant in trace[k].db.pausedDeliveries
    {
      PausesMoveAt(cfg, trace, steps, k, tenant);
    }
    ClaimedIsNotPaused(cfg, trace[j], steps[j], id);
  }

  lemma ClaimedIsNotPaused(cfg: Config, w: World, step: Step, id: Uuid)
    requires Enabled(w, step)
    ensures Fencing.Claims(cfg, w, step, id) ==> id in w.db.runs && w.db.runs[id].lane.tenant !in w.db.pausedRuns
    ensures Fencing.ClaimsSend(cfg, w, step, id) ==> id in w.db.deliveries && w.db.deliveries[id].tenant !in w.db.pausedDeliveries
  {}
}

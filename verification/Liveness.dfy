/**
 Which runs and deliveries still get served.  A delivery always does.  A run at the head of its lane
 does exactly when its phase has an attempt left; otherwise nothing but the worker that still holds it
 can move its lane, and the lane rests for good once that worker is gone.
 */
module Liveness {
  import opened Wrappers
  import opened Rows
  import opened Phases
  import opened Transactions
  import opened Protocol
  import opened Frames
  import LaneOrder
  import Safety
  import WorkerSteps

  // ---------------------------------------------------------------- retrying

  /** The tables at a later time, with every pause lifted. */
  function At(db: Db, t: Time): Db { db.(now := t, pausedRuns := {}, pausedDeliveries := {}) }

  /** What the phase of a run has used up. */
  function Used(r: Run): nat { Counter(r, PhaseOf(r)) }

  /**
   A retry fails the run for good, moves its lane and settles its job, or it leaves a run that can be
   claimed once it is due and unpaused if and only if the claim limit leaves its phase an attempt.
   */
  lemma RetryOutcome(cfg: Config, w: World, token: Token, delay: nat)
    requires Inv(cfg, w) && token in w.claims && Held(w.db, w.claims[token])
    ensures var c := w.claims[token];
            var tx := DoWork(cfg, w.db, c, Retry(delay));
            && tx.outcome == Committed && c.id in tx.db.runs
            && if Used(c.row) >= RetryLimit(cfg, c.row)
               then && tx.db.runs[c.id].state == Failed
                    && LaneOrder.Position(tx.db, c.row.lane) == c.row.sequence + 1
                    && (c.row.plane == Internal ==> c.id in tx.db.delegations && tx.db.delegations[c.id].state == JobFailed)
               else && tx.db.runs[c.id].state in {Queued, ReplyPending}
                    && LaneOrder.Position(tx.db, c.row.lane) == c.row.sequence
                    && forall t: Time :: Claimable(At(tx.db, t), c.id, cfg.runLimit) <==>
                         t >= w.db.now + delay && Used(c.row) < cfg.runLimit
  {
    var c := w.claims[token];
    var tx := DoWork(cfg, w.db, c, Retry(delay));
    WorkerSteps.HolderIsRow(cfg, w, token);
    assert ClaimOk(cfg, w.db, token, c);
    EncodingsAgree(c.row, cfg.runLimit);
    if Used(c.row) < RetryLimit(cfg, c.row) {
      assert ClaimFilter(tx.db.runs[c.id], cfg.runLimit) == ClaimFilter(c.row, cfg.runLimit);
    }
  }

  /**
   So a retry strands a run exactly when the agent version grants the model phase more attempts than the
   workers claim it for; with a limit no larger than the workers' own it never does.
   */
  lemma RetryStrandsIff(cfg: Config, w: World, token: Token, delay: nat)
    requires Inv(cfg, w) && token in w.claims && Held(w.db, w.claims[token])
    ensures var c := w.claims[token];
            var db := DoWork(cfg, w.db, c, Retry(delay)).db;
            && c.id in db.runs
            && (db.runs[c.id].state != Failed && (forall t: Time :: !Claimable(At(db, t), c.id, cfg.runLimit)) <==>
                PhaseOf(c.row) == Model && c.row.modelAttempts == cfg.runLimit < c.row.modelLimit)
  {
    var c := w.claims[token];
    var db := DoWork(cfg, w.db, c, Retry(delay)).db;
    RetryOutcome(cfg, w, token, delay);
    assert ClaimOk(cfg, w.db, token, c);
    EncodingsAgree(c.row, cfg.runLimit);
    if Used(c.row) < RetryLimit(cfg, c.row) {
      assert Claimable(At(db, w.db.now + delay), c.id, cfg.runLimit) <==> Used(c.row) < cfg.runLimit;
    }
  }

  // ---------------------------------------------------------------- heads of lanes

  predicate Head(db: Db, id: Uuid) { id in db.runs && OwnsPosition(db, db.runs[id]) }

  /** Some transaction that anybody may take would serve the run at time `t`. */
  predicate ServedAt(cfg: Config, db: Db, id: Uuid, t: Time) {
    || Claim(At(db, t), {id}, id, 0, t, cfg.runLimit).outcome == Committed
    || Sendable(At(db, t), id, cfg.sendLimit)
    || Exhausted(At(db, t), id, cfg.sendLimit)
  }

  predicate Stuck(cfg: Config, db: Db, id: Uuid) {
    Head(db, id) && db.runs[id].state in {Queued, ReplyPending, Running, WaitingApproval} && Used(db.runs[id]) >= cfg.runLimit
  }

  /** From when on the head of a lane can be served if its phase has attempts left. */
  function ServiceTime(db: Db, id: Uuid): Time
    requires id in db.runs
  {
    var r := db.runs[id];
    var until := if r.lease.Some? then r.lease.value.until + 1 else r.availableAt;
    var sent := if id in db.deliveries
                then (if db.deliveries[id].lease.Some? then db.deliveries[id].lease.value.until + 1 else db.deliveries[id].availableAt)
                else db.now;
    var expiry := if id in db.calls && db.calls[id].approval.Some? then db.calls[id].approval.value.expiresAt else db.now;
    var latest := (x: Time, y: Time) => if x < y then y else x;
    latest(latest(latest(db.now, until), latest(sent, expiry)), r.availableAt)
  }

  lemma OpenClaimable(cfg: Config, db: Db, id: Uuid, t: Time)
    requires Head(db, id) && RunOkAt(cfg, db, id) && !LaneOrder.ReleasedIn(db, id)
    requires db.runs[id].state != WaitingApproval
    ensures Claim(At(db, t), {id}, id, 0, t, cfg.runLimit).outcome == Committed <==>
            && db.runs[id].state in {Queued, ReplyPending, Running} && Used(db.runs[id]) < cfg.runLimit
            && db.runs[id].availableAt <= t && (db.runs[id].state == Running ==> db.runs[id].lease.value.until < t)
  {
    EncodingsAgree(db.runs[id], cfg.runLimit);
  }

  /** A parked run is claimed in the transaction that expires its approval. */
  lemma ParkedClaimable(cfg: Config, db: Db, id: Uuid, t: Time)
    requires Head(db, id) && RunOkAt(cfg, db, id) && !LaneOrder.ReleasedIn(db, id)
    requires db.runs[id].state == WaitingApproval
    ensures id in db.calls && db.calls[id].approval.Some?
    ensures Claim(At(db, t), {id}, id, 0, t, cfg.runLimit).outcome == Committed <==>
            Used(db.runs[id]) < cfg.runLimit && db.calls[id].approval.value.expiresAt <= t
  {
    LookupIs(db.calls, id);
    LookupIs(db.deliveries, id);
    EncodingsAgree(db.runs[id], cfg.runLimit);
    assert ClaimFilter(Resumed(db.runs[id], t), cfg.runLimit) == ClaimFilter(db.runs[id], cfg.runLimit);
  }

  lemma DeliveryServed(cfg: Config, db: Db, id: Uuid)
    requires Head(db, id) && RunOkAt(cfg, db, id) && db.runs[id].state == DeliveryPending
    ensures id in db.deliveries
    ensures Sendable(At(db, ServiceTime(db, id)), id, cfg.sendLimit) || Exhausted(At(db, ServiceTime(db, id)), id, cfg.sendLimit)
  {
    LookupIs(db.deliveries, id);
  }

  lemma NotSent(cfg: Config, db: Db, id: Uuid, t: Time)
    requires Head(db, id) && RunOkAt(cfg, db, id) && !LaneOrder.ReleasedIn(db, id) && db.runs[id].state != DeliveryPending
    ensures !Sendable(At(db, t), id, cfg.sendLimit) && !Exhausted(At(db, t), id, cfg.sendLimit)
  {
    LookupIs(db.deliveries, id);
  }

  /** The head of a lane is served at some time by somebody, unless it is stuck; and then it never is. */
  lemma ServedIffNotStuck(cfg: Config, trace: seq<World>, steps: seq<Step>, i: nat, id: Uuid)
    requires IsTrace(cfg, trace, steps) && i < |trace| && Head(trace[i].db, id)
    ensures (exists t: Time :: t >= trace[i].db.now && ServedAt(cfg, trace[i].db, id, t)) <==> !Stuck(cfg, trace[i].db, id)
  {
    var db := trace[i].db;
    Safety.TraceHolds(cfg, trace, steps, i);
    LaneOrder.LaneSplits(cfg, trace, steps, i, id);
    assert RunOkAt(cfg, db, id);
    if db.runs[id].state == DeliveryPending {
      DeliveryServed(cfg, db, id);
      assert ServedAt(cfg, db, id, ServiceTime(db, id));
    } else {
      forall t: Time { NotSent(cfg, db, id, t); }
      if db.runs[id].state == WaitingApproval {
        forall t: Time { ParkedClaimable(cfg, db, id, t); }
      } else {
        forall t: Time { OpenClaimable(cfg, db, id, t); }
      }
      assert !Stuck(cfg, db, id) ==> ServedAt(cfg, db, id, ServiceTime(db, id));
    }
  }

  // ---------------------------------------------------------------- a stuck head stays stuck

  /** The step is taken by the worker that holds the run. */
  predicate HolderActs(w: World, step: Step, id: Uuid) {
    step.WorkStep? && step.token in w.claims && w.claims[step.token].id == id && Held(w.db, w.claims[step.token])
  }

  predicate SameOrResumed(db: Db, after: Db, id: Uuid)
    requires id in db.runs
  {
    id in after.runs &&
    (after.runs[id] == db.runs[id] ||
     (db.runs[id].state == WaitingApproval && after.runs[id] == Resumed(db.runs[id], db.now)))
  }

  lemma OthersWork(cfg: Config, w: World, token: Token, work: Work, id: Uuid)
    requires Inv(cfg, w) && token in w.claims && id in w.db.runs && !HolderActs(w, WorkStep(token, work), id)
    ensures SameOrResumed(w.db, DoWork(cfg, w.db, w.claims[token], work).db, id)
  {
    var c := w.claims[token];
    assert ClaimOk(cfg, w.db, token, c);
    WorkerSteps.OnlyHoldersCommit(cfg, w.db, c, work);
    if c.id == id {
      assert !Held(w.db, c);
    } else {
      WorkSparesOthers(cfg, w.db, c, work, id);
    }
  }

  lemma WorkSparesOthers(cfg: Config, db: Db, c: Claimed, work: Work, id: Uuid)
    requires id in db.runs && c.id != id
    ensures var after := DoWork(cfg, db, c, work).db; id in after.runs && after.runs[id] == db.runs[id]
  {}

  lemma SendSparesOthers(cfg: Config, db: Db, s: Record, result: SendResult, id: Uuid)
    requires id in db.runs && s.id != id
    ensures var after := DoSend(cfg, db, s, result).db; id in after.runs && after.runs[id] == db.runs[id]
  {}

  lemma RecoverySparesOthers(db: Db, max: nat, id: Uuid)
    requires id in db.runs && id !in db.deliveries
    ensures id in FailExhausted(db, max).runs && FailExhausted(db, max).runs[id] == db.runs[id]
  {}

  lemma StuckIsNotSending(cfg: Config, w: World, id: Uuid)
    requires Inv(cfg, w) && Stuck(cfg, w.db, id)
    ensures id !in w.db.deliveries && !AwaitsAction(w.db, id)
  {
    assert RunOkAt(cfg, w.db, id);
    LookupIs(w.db.deliveries, id);
  }

  lemma StuckIsNotClaimed(cfg: Config, w: World, chosen: set<Uuid>, run: Uuid, token: Token, until: Time, id: Uuid)
    requires Inv(cfg, w) && Stuck(cfg, w.db, id)
    ensures SameOrResumed(w.db, Claim(w.db, chosen, run, token, until, cfg.runLimit).db, id)
  {
    assert RunOkAt(cfg, w.db, id);
    var e := ExpireApprovals(w.db, chosen);
    assert SameOrResumed(w.db, e, id);
    EncodingsAgree(w.db.runs[id], cfg.runLimit);
    assert ClaimFilter(e.runs[id], cfg.runLimit) == ClaimFilter(w.db.runs[id], cfg.runLimit);
  }

  /** Apart from claims and run workers only deliveries and approvals change runs. */
  lemma IdleStepsSpare(cfg: Config, w: World, step: Step, id: Uuid)
    requires Enabled(w, step) && id in w.db.runs && id !in w.db.deliveries && !AwaitsAction(w.db, id)
    requires !step.ClaimStep? && !step.WorkStep? && (step.SendStep? ==> w.sends[step.token].id != id)
    ensures SameOrResumed(w.db, Transact(cfg, w, step).db, id)
  {
    match step
    case SendStep(token, result) => SendSparesOthers(cfg, w.db, w.sends[token], result, id);
    case RecoverStep => RecoverySparesOthers(w.db, cfg.sendLimit, id);
    case _ =>
  }

  lemma StuckRow(cfg: Config, w: World, step: Step, id: Uuid)
    requires Inv(cfg, w) && Enabled(w, step) && Stuck(cfg, w.db, id) && !HolderActs(w, step, id)
    ensures SameOrResumed(w.db, Apply(cfg, w, step).db, id)
  {
    StuckIsNotSending(cfg, w, id);
    match step
    case ClaimStep(chosen, run, token, lease) => StuckIsNotClaimed(cfg, w, chosen, run, token, w.db.now + lease, id);
    case WorkStep(token, work) => OthersWork(cfg, w, token, work, id);
    case SendStep(token, result) =>
      assert SendOk(w.db, token, w.sends[token]);
      IdleStepsSpare(cfg, w, step, id);
    case _ => IdleStepsSpare(cfg, w, step, id);
  }

  lemma StuckStep(cfg: Config, w: World, step: Step, id: Uuid)
    requires Inv(cfg, w) && Enabled(w, step) && Stuck(cfg, w.db, id) && !HolderActs(w, step, id)
    ensures Stuck(cfg, Apply(cfg, w, step).db, id)
    ensures Apply(cfg, w, step).db.runs[id].sequence == w.db.runs[id].sequence
    ensures Apply(cfg, w, step).db.runs[id].lane == w.db.runs[id].lane
    ensures w.db.runs[id].state != Running ==> Apply(cfg, w, step).db.runs[id].state != Running
  {
    var after := Apply(cfg, w, step);
    StuckRow(cfg, w, step, id);
    StuckIsNotSending(cfg, w, id);
    Safety.StepKeeps(cfg, w, step);
    assert RunOkAt(cfg, w.db, id) && RunOkAt(cfg, after.db, id);
    assert LaneLater(w.db, after.db, w.db.runs[id].lane);
    StillHead(cfg, w.db, after.db, id);
  }

  lemma StillHead(cfg: Config, db: Db, after: Db, id: Uuid)
    requires id in db.runs && Head(db, id) && RunOkAt(cfg, db, id)
    requires SameOrResumed(db, after, id) && RunOkAt(cfg, after, id) && LaneLater(db, after, db.runs[id].lane)
    requires db.runs[id].state in {Queued, ReplyPending, Running, WaitingApproval}
    ensures db.runs[id].state != WaitingApproval ==> Head(after, id)
    ensures db.runs[id].state == WaitingApproval && !LaneOrder.ReleasedIn(after, id) ==> Head(after, id)
  {}

  /** The step from state `k` of a trace leaves the head stuck where it is. */
  lemma StuckAt(cfg: Config, trace: seq<World>, steps: seq<Step>, k: nat, id: Uuid)
    requires IsTrace(cfg, trace, steps) && k < |steps| && Stuck(cfg, trace[k].db, id) && !HolderActs(trace[k], steps[k], id)
    ensures Stuck(cfg, trace[k + 1].db, id)
    ensures trace[k + 1].db.runs[id].sequence == trace[k].db.runs[id].sequence
    ensures trace[k + 1].db.runs[id].lane == trace[k].db.runs[id].lane
    ensures trace[k].db.runs[id].state != Running ==> trace[k + 1].db.runs[id].state != Running
  {
    Safety.TraceHolds(cfg, trace, steps, k);
    StuckStep(cfg, trace[k], steps[k], id);
  }

  /** Nobody but its holder can move a stuck run or its lane. */
  lemma StuckWithoutHolder(cfg: Config, trace: seq<World>, steps: seq<Step>, i: nat, j: nat, id: Uuid)
    requires IsTrace(cfg, trace, steps) && i <= j < |trace| && Stuck(cfg, trace[i].db, id)
    requires forall k | i <= k < j :: !HolderActs(trace[k], steps[k], id)
    ensures Stuck(cfg, trace[j].db, id)
    ensures trace[j].db.runs[id].lane == trace[i].db.runs[id].lane
    ensures LaneOrder.Position(trace[j].db, trace[i].db.runs[id].lane) == LaneOrder.Position(trace[i].db, trace[i].db.runs[id].lane)
  {
    for k := i to j
      invariant Stuck(cfg, trace[k].db, id)
      invariant trace[k].db.runs[id].lane == trace[i].db.runs[id].lane
      invariant trace[k].db.runs[id].sequence == trace[i].db.runs[id].sequence
    {
      StuckAt(cfg, trace, steps, k, id);
    }
  }

  /** A stuck run that nobody holds blocks its lane for ever. */
  lemma StuckForGood(cfg: Config, trace: seq<World>, steps: seq<Step>, i: nat, j: nat, id: Uuid)
    requires IsTrace(cfg, trace, steps) && i <= j < |trace| && Stuck(cfg, trace[i].db, id)
    requires trace[i].db.runs[id].state != Running
    ensures Stuck(cfg, trace[j].db, id) && trace[j].db.runs[id].state != Running
    ensures trace[j].db.runs[id].lane == trace[i].db.runs[id].lane
    ensures LaneOrder.Position(trace[j].db, trace[i].db.runs[id].lane) == LaneOrder.Position(trace[i].db, trace[i].db.runs[id].lane)
  {
    for k := i to j
      invariant Stuck(cfg, trace[k].db, id) && trace[k].db.runs[id].state != Running
      invariant trace[k].db.runs[id].lane == trace[i].db.runs[id].lane
      invariant trace[k].db.runs[id].sequence == trace[i].db.runs[id].sequence
    {
      StuckAt(cfg, trace, steps, k, id);
    }
  }
}

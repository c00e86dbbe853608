/** How deliveries and delegations end, over whole runs of the system. */
module Outcomes {
  import opened Wrappers
  import opened Rows
  import opened Phases
  import opened Transactions
  import opened Protocol
  import opened Frames
  import Fencing
  import LaneOrder
  import Liveness
  import Safety
  import SendSteps
  import WorkerSteps

  // ---------------------------------------------------------------- deliveries and their runs

  /** An open delivery goes with a delivery-pending run, and each way to end goes with its run's state. */
  lemma DeliveryMirrorsRun(cfg: Config, trace: seq<World>, steps: seq<Step>, i: nat, id: Uuid)
    requires IsTrace(cfg, trace, steps) && i < |trace|
    ensures id in trace[i].db.deliveries ==> id in trace[i].db.runs
    ensures id in trace[i].db.runs ==>
              var r, d := trace[i].db.runs[id], Lookup(trace[i].db.deliveries, id);
              && (r.state == DeliveryPending <==> d.Some? && !Terminal(d.value))
              && (r.state == DeliveryUnknown <==> d.Some? && d.value.state == Uncertain)
              && (r.state == Succeeded ==> d.Some? && d.value.state == Sent)
              && (d.Some? && d.value.state == Undelivered ==> r.state == Failed)
              && (d.Some? && d.value.state == Sent ==>
                    r.candidate.Some? && r.state in (if r.candidate.value.action then {WaitingApproval, Succeeded, Failed} else {Succeeded}))
  {
    Safety.TraceHolds(cfg, trace, steps, i);
    if id in trace[i].db.runs {
      assert RunOkAt(cfg, trace[i].db, id);
    }
  }

  /** While a delivery is open its lane stands still, and it moves in the very step that ends the delivery. */
  lemma LaneMovesIffDeliveryEnds(cfg: Config, trace: seq<World>, steps: seq<Step>, i: nat, id: Uuid)
    requires IsTrace(cfg, trace, steps) && i < |steps|
    requires id in trace[i].db.deliveries && !Terminal(trace[i].db.deliveries[id])
    ensures id in trace[i].db.runs && id in trace[i + 1].db.deliveries
    ensures var key := trace[i].db.runs[id].lane;
            LaneOrder.Position(trace[i + 1].db, key) == LaneOrder.Position(trace[i].db, key) + One(Terminal(trace[i + 1].db.deliveries[id]))
  {
    Safety.TraceHolds(cfg, trace, steps, i);
    Safety.TraceHolds(cfg, trace, steps, i + 1);
    LaneOrder.LaterInTrace(cfg, trace, steps, i, i + 1);
    assert DeliveryLater(trace[i].db, trace[i + 1].db, id);
    assert RunOkAt(cfg, trace[i].db, id);
    assert RunLater(trace[i].db, trace[i + 1].db, id);
    LaneOrder.LaneSplits(cfg, trace, steps, i, id);
    LaneOrder.LaneMovesIffReleased(cfg, trace, steps, i, id);
    OpenIffUnreleased(cfg, trace[i + 1].db, id);
  }

  lemma OpenIffUnreleased(cfg: Config, db: Db, id: Uuid)
    requires id in db.runs && id in db.deliveries && RunOkAt(cfg, db, id)
    ensures LaneOrder.ReleasedIn(db, id) <==> Terminal(db.deliveries[id])
  {
    LookupIs(db.deliveries, id);
  }

  predicate Due(d: Delivery, t: Time) {
    || (d.state == Pending && d.availableAt <= t)
    || (d.state == Sending && d.lease.Some? && d.lease.value.until < t)
  }

  /**
   No delivery is stranded.  One that is due, or whose lease has lapsed, can be claimed as soon as its
   tenant is not paused; if its attempts are used up the recovery query ends it, paused or not.
   */
  lemma DueDeliveryIsServed(cfg: Config, trace: seq<World>, steps: seq<Step>, i: nat, id: Uuid, t: Time)
    requires IsTrace(cfg, trace, steps) && i < |trace| && t >= trace[i].db.now
    requires id in trace[i].db.deliveries && Due(trace[i].db.deliveries[id], t)
    ensures var db := trace[i].db.(now := t);
            var d := db.deliveries[id];
            if d.attempts < cfg.sendLimit
            then Sendable(db, id, cfg.sendLimit) <==> d.tenant !in db.pausedDeliveries
            else && FailExhausted(db, cfg.sendLimit).deliveries[id].state == Undelivered
                 && id in db.runs && FailExhausted(db, cfg.sendLimit).runs[id].state == Failed
  {
    Safety.TraceHolds(cfg, trace, steps, i);
    assert RunOkAt(cfg, trace[i].db, id);
    LookupIs(trace[i].db.deliveries, id);
    assert id in trace[i].db.runs;
  }

  // ---------------------------------------------------------------- how often a message is sent

  function SendAttempts(db: Db, id: Uuid): nat { if id in db.deliveries then db.deliveries[id].attempts else 0 }

  lemma WorkKeepsSends(cfg: Config, db: Db, c: Claimed, work: Work, id: Uuid)
    ensures SendAttempts(DoWork(cfg, db, c, work).db, id) == SendAttempts(db, id)
  {}

  lemma SendKeepsSends(cfg: Config, db: Db, s: Record, result: SendResult, id: Uuid)
    ensures SendAttempts(DoSend(cfg, db, s, result).db, id) == SendAttempts(db, id)
  {}

  lemma StepCountsSends(cfg: Config, w: World, step: Step, id: Uuid)
    requires Enabled(w, step)
    ensures SendAttempts(Apply(cfg, w, step).db, id) == SendAttempts(w.db, id) + One(Fencing.ClaimsSend(cfg, w, step, id))
  {
    TransactCountsSends(cfg, w, step, id);
  }

  lemma TransactCountsSends(cfg: Config, w: World, step: Step, id: Uuid)
    requires Enabled(w, step)
    ensures SendAttempts(Transact(cfg, w, step).db, id) == SendAttempts(w.db, id) + One(Fencing.ClaimsSend(cfg, w, step, id))
  {
    match step
    case WorkStep(token, work) => WorkKeepsSends(cfg, w.db, w.claims[token], work, id);
    case SendStep(token, result) => SendKeepsSends(cfg, w.db, w.sends[token], result, id);
    case _ =>
  }

  /** How often a delivery was claimed for sending in the first `n` steps. */
  ghost function SendCount(cfg: Config, trace: seq<World>, steps: seq<Step>, id: Uuid, n: nat): nat
    requires IsTrace(cfg, trace, steps) && n <= |steps|
  {
    if n == 0 then 0
    else SendCount(cfg, trace, steps, id, n - 1) + One(Fencing.ClaimsSend(cfg, trace[n - 1], steps[n - 1], id))
  }

  lemma {:induction false} SendCountIsAttempts(cfg: Config, trace: seq<World>, steps: seq<Step>, id: Uuid, n: nat)
    requires IsTrace(cfg, trace, steps) && n <= |steps|
    ensures SendCount(cfg, trace, steps, id, n) == SendAttempts(trace[n].db, id)
  {
    if n > 0 {
      SendCountIsAttempts(cfg, trace, steps, id, n - 1);
      StepCountsSends(cfg, trace[n - 1], steps[n - 1], id);
    }
  }

  /** A delivery is claimed for sending at most `sendLimit` times in the life of its run. */
  lemma SendsAreBounded(cfg: Config, trace: seq<World>, steps: seq<Step>, id: Uuid, n: nat)
    requires IsTrace(cfg, trace, steps) && n <= |steps|
    ensures SendCount(cfg, trace, steps, id, n) <= cfg.sendLimit
  {
    SendCountIsAttempts(cfg, trace, steps, id, n);
    Safety.TraceHolds(cfg, trace, steps, n);
    if id in trace[n].db.deliveries {
      assert RunOkAt(cfg, trace[n].db, id);
    }
  }

  /** A delivery that has ended is never claimed or changed again; a record claimed before may still act. */
  lemma NoClaimAfterEnd(cfg: Config, trace: seq<World>, steps: seq<Step>, i: nat, j: nat, id: Uuid)
    requires IsTrace(cfg, trace, steps) && i <= j < |steps|
    requires id in trace[i].db.deliveries && Terminal(trace[i].db.deliveries[id])
    ensures id in trace[j].db.deliveries && trace[j].db.deliveries[id] == trace[i].db.deliveries[id]
    ensures !Fencing.ClaimsSend(cfg, trace[j], steps[j], id)
  {
    LaneOrder.LaterInTrace(cfg, trace, steps, i, j);
    assert DeliveryLater(trace[i].db, trace[j].db, id);
  }

  // ---------------------------------------------------------------- delegations

  /** A job has ended exactly when its child run gave up its place in the lane, and in the same way. */
  lemma JobMirrorsChild(cfg: Config, trace: seq<World>, steps: seq<Step>, i: nat, child: Uuid)
    requires IsTrace(cfg, trace, steps) && i < |trace| && child in trace[i].db.delegations
    ensures child in trace[i].db.runs
    ensures var db, job := trace[i].db, trace[i].db.delegations[child];
            && (Finished(job) <==> LaneOrder.ReleasedIn(db, child))
            && (job.state == JobCompleted <==> child in db.deliveries && db.deliveries[child].state == Sent)
            && (job.state == JobUnknown <==> db.runs[child].state == DeliveryUnknown)
            && (job.state == JobQueued <==> Untouched(db.runs[child]))
  {
    var db := trace[i].db;
    Safety.TraceHolds(cfg, trace, steps, i);
    assert JobOk(db, child);
    assert RunOkAt(cfg, db, child);
    JobLocally(cfg, db, child);
  }

  lemma JobLocally(cfg: Config, db: Db, child: Uuid)
    requires child in db.runs && child in db.delegations && RunOkAt(cfg, db, child)
    ensures var job := db.delegations[child];
            && (Finished(job) <==> LaneOrder.ReleasedIn(db, child))
            && (job.state == JobCompleted <==> child in db.deliveries && db.deliveries[child].state == Sent)
            && (job.state == JobUnknown <==> db.runs[child].state == DeliveryUnknown)
            && (job.state == JobQueued <==> Untouched(db.runs[child]))
  {
    LookupIs(db.deliveries, child);
    LookupIs(db.delegations, child);
  }

  /** A job is started by the first claim of its child and by nothing else. */
  lemma JobStartsWithFirstClaim(cfg: Config, trace: seq<World>, steps: seq<Step>, i: nat, child: Uuid)
    requires IsTrace(cfg, trace, steps) && i < |steps|
    requires child in trace[i].db.delegations && trace[i].db.delegations[child].state == JobQueued
    ensures child in trace[i + 1].db.delegations
    ensures trace[i + 1].db.delegations[child].state ==
            if Fencing.Claims(cfg, trace[i], steps[i], child) then JobRunning else JobQueued
  {
    JobMirrorsChild(cfg, trace, steps, i, child);
    LaneOrder.LaterInTrace(cfg, trace, steps, i, i + 1);
    assert JobLater(trace[i].db, trace[i + 1].db, child);
    JobMirrorsChild(cfg, trace, steps, i + 1, child);
    Fencing.StepCountsClaims(cfg, trace[i], steps[i], child);
    UntouchedIsUnreleased(cfg, trace, steps, i, child);
    UntouchedIsUnreleased(cfg, trace, steps, i + 1, child);
    OneAttemptIsUnreleased(cfg, trace, steps, i, child);
  }

  lemma UntouchedIsUnreleased(cfg: Config, trace: seq<World>, steps: seq<Step>, i: nat, id: Uuid)
    requires IsTrace(cfg, trace, steps) && i < |trace| && id in trace[i].db.runs
    ensures trace[i].db.runs[id].attempts == 0 <==> Untouched(trace[i].db.runs[id])
    ensures trace[i].db.runs[id].attempts == 0 ==> !LaneOrder.ReleasedIn(trace[i].db, id)
  {
    Safety.TraceHolds(cfg, trace, steps, i);
    assert RunOkAt(cfg, trace[i].db, id);
  }

  /** The step that claims a run leaves it running. */
  lemma OneAttemptIsUnreleased(cfg: Config, trace: seq<World>, steps: seq<Step>, i: nat, id: Uuid)
    requires IsTrace(cfg, trace, steps) && i < |steps| && id in trace[i].db.runs
    ensures Fencing.Claims(cfg, trace[i], steps[i], id) ==>
              id in trace[i + 1].db.runs && !LaneOrder.ReleasedIn(trace[i + 1].db, id)
  {
    if Fencing.Claims(cfg, trace[i], steps[i], id) {
      Fencing.ClaimedDb(cfg, trace[i], steps[i], id);
    }
  }

  /** A running job ends exactly in the step in which its child's lane moves on. */
  lemma JobEndsWithLane(cfg: Config, trace: seq<World>, steps: seq<Step>, i: nat, child: Uuid)
    requires IsTrace(cfg, trace, steps) && i < |steps|
    requires child in trace[i].db.delegations && trace[i].db.delegations[child].state == JobRunning
    ensures child in trace[i].db.runs && child in trace[i + 1].db.delegations && child in trace[i + 1].db.runs
    ensures var key := trace[i].db.runs[child].lane;
            LaneOrder.Position(trace[i + 1].db, key) ==
            LaneOrder.Position(trace[i].db, key) + One(Finished(trace[i + 1].db.delegations[child]))
    ensures trace[i + 1].db.delegations[child].state == JobFailed ==> trace[i + 1].db.runs[child].state == Failed
  {
    JobMirrorsChild(cfg, trace, steps, i, child);
    LaneOrder.LaterInTrace(cfg, trace, steps, i, i + 1);
    assert JobLater(trace[i].db, trace[i + 1].db, child);
    JobMirrorsChild(cfg, trace, steps, i + 1, child);
    RunningJobIsHead(cfg, trace, steps, i, child);
    LaneOrder.LaneMovesIffReleased(cfg, trace, steps, i, child);
    FailedJobIsFailedRun(cfg, trace, steps, i + 1, child);
  }

  lemma RunningJobIsHead(cfg: Config, trace: seq<World>, steps: seq<Step>, i: nat, child: Uuid)
    requires IsTrace(cfg, trace, steps) && i < |trace|
    requires child in trace[i].db.delegations && trace[i].db.delegations[child].state == JobRunning
    ensures child in trace[i].db.runs
    ensures trace[i].db.runs[child].sequence == LaneOrder.Position(trace[i].db, trace[i].db.runs[child].lane)
  {
    JobMirrorsChild(cfg, trace, steps, i, child);
    LaneOrder.LaneSplits(cfg, trace, steps, i, child);
  }

  lemma FailedJobIsFailedRun(cfg: Config, trace: seq<World>, steps: seq<Step>, i: nat, child: Uuid)
    requires IsTrace(cfg, trace, steps) && i < |trace|
    requires child in trace[i].db.delegations
    ensures child in trace[i].db.runs
    ensures trace[i].db.delegations[child].state == JobFailed ==> trace[i].db.runs[child].state == Failed
  {
    Safety.TraceHolds(cfg, trace, steps, i);
    assert JobOk(trace[i].db, child);
    assert RunOkAt(cfg, trace[i].db, child);
    LookupIs(trace[i].db.delegations, child);
  }

  /** A child comes after its parent in the same lane, and whoever delegates was not itself delegated. */
  lemma ChildrenFollowParents(cfg: Config, trace: seq<World>, steps: seq<Step>, i: nat, child: Uuid)
    requires IsTrace(cfg, trace, steps) && i < |trace| && child in trace[i].db.delegations
    ensures var db := trace[i].db;
            var parent := db.delegations[child].parent;
            && child in db.runs && parent in db.runs
            && db.runs[child].lane == db.runs[parent].lane && db.runs[child].sequence > db.runs[parent].sequence
            && parent !in db.delegations
  {
    var db := trace[i].db;
    Safety.TraceHolds(cfg, trace, steps, i);
    assert JobOk(db, child);
    assert RunOkAt(cfg, db, db.delegations[child].parent);
    LookupIs(db.delegations, db.delegations[child].parent);
  }

  /** The same parent and idempotency key name the same child for ever, and asking again changes nothing. */
  lemma DelegatedOnce(cfg: Config, trace: seq<World>, steps: seq<Step>, i: nat, j: nat, child: Uuid)
    requires IsTrace(cfg, trace, steps) && i <= j < |trace| && child in trace[i].db.delegations
    ensures var job := trace[i].db.delegations[child];
            && (forall other | other in trace[j].db.delegations
                  && trace[j].db.delegations[other].parent == job.parent && trace[j].db.delegations[other].key == job.key :: other == child)
            && (j < |steps| && steps[j].SpawnStep? && steps[j].parent == job.parent && steps[j].jobKey == job.key ==> trace[j + 1] == trace[j])
  {
    Safety.TraceHolds(cfg, trace, steps, j);
    LaneOrder.LaterInTrace(cfg, trace, steps, i, j);
    assert JobLater(trace[i].db, trace[j].db, child);
    forall other | other in trace[j].db.delegations
      && trace[j].db.delegations[other].parent == trace[i].db.delegations[child].parent
      && trace[j].db.delegations[other].key == trace[i].db.delegations[child].key
      ensures other == child
    {
      assert JobsApart(trace[j].db, other, child);
    }
    if j < |steps| && steps[j].SpawnStep? && steps[j].parent == trace[i].db.delegations[child].parent
       && steps[j].jobKey == trace[i].db.delegations[child].key {
      assert JobTaken(trace[j].db, steps[j].parent, steps[j].jobKey);
    }
  }

  // ---------------------------------------------------------------- tool calls

  /**
   A tool that needs approval never runs without it: if a run's call asked for one and was started, or its
   result was stored, the approval had been granted; a call whose approval was refused or expired is denied.
   */
  lemma NoToolWithoutApproval(cfg: Config, trace: seq<World>, steps: seq<Step>, i: nat, id: Uuid)
    requires IsTrace(cfg, trace, steps) && i < |trace| && id in trace[i].db.calls && trace[i].db.calls[id].approval.Some?
    ensures var call := trace[i].db.calls[id];
            && (call.state in {CallExecuting, CallSucceeded, CallFailed, CallUnknown} ==> call.approval.value.state == Approved)
            && (call.approval.value.state in {Rejected, Expired} <==> call.state == CallDenied)
            && id in trace[i].db.runs && (trace[i].db.runs[id].result.Some? ==> call.approval.value.state == Approved)
  {
    Safety.TraceHolds(cfg, trace, steps, i);
    assert id in trace[i].db.runs;
    assert RunOkAt(cfg, trace[i].db, id);
    LookupIs(trace[i].db.calls, id);
  }

  // ---------------------------------------------------------------- the action executor

  /** The run after the executor's failure, which asks for no state. */
  function FailedAnyway(db: Db, id: Uuid): Db
    requires id in db.runs
  {
    PutRun(db, id, db.runs[id].(state := Failed))
  }

  /** The states of a run in which being failed from outside does no harm. */
  predicate MayBeFailed(db: Db, id: Uuid)
    requires id in db.runs
  {
    || db.runs[id].state == Failed || AwaitsAction(db, id)
    || (db.runs[id].state == Succeeded && db.runs[id].candidate.Some? && db.runs[id].candidate.value.action)
  }

  lemma FailedAnywayLocally(cfg: Config, db: Db, id: Uuid)
    requires id in db.runs && RunOkAt(cfg, db, id)
    ensures RunOkAt(cfg, FailedAnyway(db, id), id) <==> MayBeFailed(db, id)
  {
    LookupIs(db.deliveries, id);
    LookupIs(db.calls, id);
    assert Lookup(FailedAnyway(db, id).deliveries, id) == Lookup(db.deliveries, id);
  }

  /**
   The executor's failure of a run asks for no state.  It keeps the invariant if and only if the run has
   failed already, rests after its approval notice was sent, or succeeded with an action: that is, exactly
   when the run has released its lane and was the executor's to end.
   */
  lemma UnguardedFailIff(cfg: Config, w: World, id: Uuid)
    requires Inv(cfg, w) && id in w.db.runs
    ensures Inv(cfg, w.(db := FailedAnyway(w.db, id))) <==> MayBeFailed(w.db, id)
  {
    var after := w.(db := FailedAnyway(w.db, id));
    assert RunOkAt(cfg, w.db, id);
    FailedAnywayLocally(cfg, w.db, id);
    if MayBeFailed(w.db, id) {
      LookupIs(w.db.deliveries, id);
      assert id in w.db.deliveries ==> SendLeaseKnown(w, id);
      OneRunIsEnough(cfg, w, after, id);
    } else {
      assert !RunOkAt(cfg, after.db, id);
    }
  }

  /** The row after a step that is not a claim is the row after its transaction. */
  lemma PlainStepSparesWaiting(cfg: Config, w: World, step: Step, id: Uuid)
    requires Inv(cfg, w) && Enabled(w, step) && AwaitsAction(w.db, id) && RunOkAt(cfg, w.db, id)
    requires !step.ClaimStep? && !(step.ActionStep? && step.run == id)
    ensures var after := Transact(cfg, w, step).db; id in after.runs && after.runs[id] == w.db.runs[id]
  {
    if step.WorkStep? {
      WorkSparesWaiting(cfg, w, step.token, step.work, id);
    } else {
      IdleStepsSpareWaiting(cfg, w, step, id);
    }
  }

  lemma OthersSpareWaiting(cfg: Config, w: World, step: Step, id: Uuid)
    requires Inv(cfg, w) && Enabled(w, step) && AwaitsAction(w.db, id)
    requires !(step.ActionStep? && step.run == id)
    ensures id in Apply(cfg, w, step).db.runs && Apply(cfg, w, step).db.runs[id] == w.db.runs[id]
  {
    assert RunOkAt(cfg, w.db, id);
    if step.ClaimStep? {
      ClaimSparesWaiting(cfg, w.db, step.chosen, step.run, step.token, w.db.now + step.lease, id);
    } else {
      PlainStepSparesWaiting(cfg, w, step, id);
    }
  }

  lemma IdleStepsSpareWaiting(cfg: Config, w: World, step: Step, id: Uuid)
    requires AwaitsAction(w.db, id) && RunOkAt(cfg, w.db, id) && Enabled(w, step)
    requires !step.ClaimStep? && !step.WorkStep? && !(step.ActionStep? && step.run == id)
    ensures var after := Transact(cfg, w, step).db; id in after.runs && after.runs[id] == w.db.runs[id]
  {
    match step
    case SendStep(token, result) => SendSparesWaiting(cfg, w.db, w.sends[token], result, id);
    case DecideStep(run, approval, approve) => DecideSparesWaiting(cfg, w.db, run, approval, approve, id);
    case _ =>
  }

  lemma ClaimSparesWaiting(cfg: Config, db: Db, chosen: set<Uuid>, run: Uuid, token: Token, until: Time, id: Uuid)
    requires AwaitsAction(db, id) && RunOkAt(cfg, db, id)
    ensures var after := Claim(db, chosen, run, token, until, cfg.runLimit).db; id in after.runs && after.runs[id] == db.runs[id]
  {
    LookupIs(db.calls, id);
    LookupIs(db.deliveries, id);
    assert !Resumes(db, id);
  }

  lemma WorkSparesWaiting(cfg: Config, w: World, token: Token, work: Work, id: Uuid)
    requires Inv(cfg, w) && token in w.claims && AwaitsAction(w.db, id)
    ensures var after := DoWork(cfg, w.db, w.claims[token], work).db; id in after.runs && after.runs[id] == w.db.runs[id]
  {
    var c := w.claims[token];
    assert ClaimOk(cfg, w.db, token, c);
    WorkerSteps.OnlyHoldersCommit(cfg, w.db, c, work);
    if c.id != id {
      Liveness.WorkSparesOthers(cfg, w.db, c, work, id);
    }
  }

  lemma SendSparesWaiting(cfg: Config, db: Db, s: Record, result: SendResult, id: Uuid)
    requires AwaitsAction(db, id)
    ensures var after := DoSend(cfg, db, s, result).db; id in after.runs && after.runs[id] == db.runs[id]
  {}

  lemma DecideSparesWaiting(cfg: Config, db: Db, run: Uuid, approval: Uuid, approve: bool, id: Uuid)
    requires AwaitsAction(db, id) && RunOkAt(cfg, db, id)
    ensures var after := Decide(db, run, approval, approve).db; id in after.runs && after.runs[id] == db.runs[id]
  {
    LookupIs(db.calls, id);
    LookupIs(db.deliveries, id);
  }

  /** Once the approval notice of a run was sent, the run is the executor's alone: no other step moves it. */
  lemma OnlyTheExecutorMovesWaiting(cfg: Config, trace: seq<World>, steps: seq<Step>, i: nat, id: Uuid)
    requires IsTrace(cfg, trace, steps) && i < |steps| && AwaitsAction(trace[i].db, id)
    requires !(steps[i].ActionStep? && steps[i].run == id)
    ensures AwaitsAction(trace[i + 1].db, id) && trace[i + 1].db.runs[id] == trace[i].db.runs[id]
  {
    Safety.TraceHolds(cfg, trace, steps, i);
    OthersSpareWaiting(cfg, trace[i], steps[i], id);
    LaneOrder.LaterInTrace(cfg, trace, steps, i, i + 1);
    assert DeliveryLater(trace[i].db, trace[i + 1].db, id);
  }

  /**
   What goes wrong otherwise, while the run's message is still under way: the delivery can no longer be
   completed, the sender that got through is refused, and the run has failed without giving up its place in
   the lane.  Hence the protocol lets the executor act only on runs whose approval notice was sent.
   */
  lemma UnguardedFailBreaksDelivery(cfg: Config, w: World, token: Token)
    requires Inv(cfg, w) && token in w.sends && SendHeld(w.db, w.sends[token])
    ensures MarkSent(w.db, w.sends[token]).outcome == Committed
    ensures var id := w.sends[token].id;
            && id in w.db.runs
            && var broken := PutRun(w.db, id, w.db.runs[id].(state := Failed));
               && MarkSent(broken, w.sends[token]) == Tx(broken, NotDeliveryPending)
               && !Inv(cfg, w.(db := broken))
  {
    var s := w.sends[token];
    SendSteps.SenderIsRow(cfg, w, token);
    SendSteps.SettleKeeps(cfg, w, s.id, Undelivered, Failed, JobFailed);
    var broken := PutRun(w.db, s.id, w.db.runs[s.id].(state := Failed));
    LookupIs(broken.deliveries, s.id);
    assert !RunOkAt(cfg, broken, s.id);
  }
}

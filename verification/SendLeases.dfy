/** The same for deliveries: one worker at a time, and what it reports is recorded. */
module SendLeases {
  import opened Wrappers
  import opened Rows
  import opened Transactions
  import opened Protocol
  import opened Frames
  import Fencing
  import LaneOrder
  import Leases
  import Safety
  import SendSteps
  import WorkerSteps

  // ---------------------------------------------------------------- which rows a claim and the recovery query take

  /** The delivery claim: pending or lapsed, due, with an attempt left, and its tenant not paused. */
  lemma SendClaimIff(db: Db, id: Uuid, token: Token, until: Time, max: nat)
    ensures var tx := ClaimDelivery(db, id, token, until, max);
            if && id in db.deliveries && db.deliveries[id].attempts < max && db.deliveries[id].availableAt <= db.now
               && db.deliveries[id].tenant !in db.pausedDeliveries
               && (|| db.deliveries[id].state == Pending
                   || (db.deliveries[id].state == Sending && db.deliveries[id].lease.Some? && db.deliveries[id].lease.value.until < db.now))
            then var d := db.deliveries[id];
                 tx == Tx(db.(deliveries := db.deliveries[id :=
                         Delivery(d.tenant, d.waiting, Sending, d.attempts + 1, d.availableAt, Some(Lease(token, until)))]), Committed)
            else tx == Tx(db, Refused)
  {}

  /** The recovery query ends a delivery when it is in `sending`, its lease lapsed, and its attempts are used up. */
  lemma RecoveryIff(db: Db, id: Uuid, max: nat)
    requires id in db.deliveries
    ensures id in FailExhausted(db, max).deliveries
    ensures var d := db.deliveries[id];
            FailExhausted(db, max).deliveries[id] ==
            if d.state == Sending && d.lease.Some? && d.lease.value.until < db.now && d.attempts >= max
            then Delivery(d.tenant, d.waiting, Undelivered, d.attempts, d.availableAt, None) else d
  {}

  // ---------------------------------------------------------------- a worker and its delivery

  /** The delivery's columns say that the token's worker is at it. */
  predicate UnderWay(db: Db, id: Uuid, token: Token, until: Time) {
    id in db.deliveries && db.deliveries[id].state == Sending && db.deliveries[id].lease == Some(Lease(token, until))
  }

  predicate Reports(step: Step, token: Token) { step.SendStep? && step.token == token }

  lemma OtherReportsSpare(cfg: Config, w: World, other: Token, result: SendResult, id: Uuid, token: Token, until: Time)
    requires Inv(cfg, w) && UnderWay(w.db, id, token, until) && other in w.sends && other != token
    ensures UnderWay(DoSend(cfg, w.db, w.sends[other], result).db, id, token, until)
  {
    assert SendOk(w.db, other, w.sends[other]);
  }

  lemma WorkSparesDeliveries(cfg: Config, db: Db, c: Claimed, work: Work, id: Uuid, token: Token, until: Time)
    requires UnderWay(db, id, token, until)
    ensures UnderWay(DoWork(cfg, db, c, work).db, id, token, until)
  {}

  /** Inside its lease nothing but its own worker's report takes a delivery from its worker. */
  lemma SendGoesOn(cfg: Config, w: World, step: Step, id: Uuid, token: Token, until: Time)
    requires Inv(cfg, w) && Enabled(w, step) && UnderWay(w.db, id, token, until) && w.db.now <= until
    requires !Reports(step, token)
    ensures UnderWay(Transact(cfg, w, step).db, id, token, until)
  {
    match step
    case WorkStep(other, work) => WorkSparesDeliveries(cfg, w.db, w.claims[other], work, id, token, until);
    case SendStep(other, result) => OtherReportsSpare(cfg, w, other, result, id, token, until);
    case RecoverStep => RecoveryIff(w.db, id, cfg.sendLimit);
    case _ =>
  }

  lemma ClaimPutsUnderWay(cfg: Config, w: World, step: Step, id: Uuid)
    requires Enabled(w, step) && Fencing.ClaimsSend(cfg, w, step, id)
    ensures UnderWay(Apply(cfg, w, step).db, id, step.token, w.db.now + step.lease)
  {
    Safety.ApplyClaimSend(cfg, w, step);
  }

  lemma SendGoesOnAt(cfg: Config, trace: seq<World>, steps: seq<Step>, k: nat, id: Uuid, token: Token, until: Time)
    requires IsTrace(cfg, trace, steps) && k < |steps| && UnderWay(trace[k].db, id, token, until)
    requires trace[k + 1].db.now <= until && !Reports(steps[k], token)
    ensures UnderWay(trace[k + 1].db, id, token, until)
  {
    Safety.TraceHolds(cfg, trace, steps, k);
    Leases.ClockStep(cfg, trace, steps, k);
    SendGoesOn(cfg, trace[k], steps[k], id, token, until);
  }

  lemma ClaimStarts(cfg: Config, trace: seq<World>, steps: seq<Step>, i: nat, id: Uuid)
    requires IsTrace(cfg, trace, steps) && i < |steps| && Fencing.ClaimsSend(cfg, trace[i], steps[i], id)
    ensures UnderWay(trace[i + 1].db, id, steps[i].token, trace[i].db.now + steps[i].lease)
  {
    ClaimPutsUnderWay(cfg, trace[i], steps[i], id);
  }

  /** The claim of step `i` has its delivery until its worker reports or its lease runs out. */
  lemma SendLasts(cfg: Config, trace: seq<World>, steps: seq<Step>, i: nat, j: nat, id: Uuid)
    requires IsTrace(cfg, trace, steps) && i < j < |trace| && Fencing.ClaimsSend(cfg, trace[i], steps[i], id)
    requires forall k | i < k < j :: !Reports(steps[k], steps[i].token)
    requires trace[j].db.now <= trace[i].db.now + steps[i].lease
    ensures UnderWay(trace[j].db, id, steps[i].token, trace[i].db.now + steps[i].lease)
  {
    var token, until := steps[i].token, trace[i].db.now + steps[i].lease;
    ClaimStarts(cfg, trace, steps, i, id);
    for k := i + 1 to j
      invariant UnderWay(trace[k].db, id, token, until)
    {
      Leases.ClockGoesOn(cfg, trace, steps, k + 1, j);
      SendGoesOnAt(cfg, trace, steps, k, id, token, until);
    }
  }

  /**
   Between two claims of one delivery the first worker reported, or its lease ran out: no message is handed
   to a second worker inside the lease of the first.
   */
  lemma OneSenderAtATime(cfg: Config, trace: seq<World>, steps: seq<Step>, i: nat, j: nat, id: Uuid)
    requires IsTrace(cfg, trace, steps) && i < j < |steps|
    requires Fencing.ClaimsSend(cfg, trace[i], steps[i], id) && Fencing.ClaimsSend(cfg, trace[j], steps[j], id)
    ensures (exists k :: i < k < j && Reports(steps[k], steps[i].token)) || trace[j].db.now > trace[i].db.now + steps[i].lease
  {
    if (forall k | i < k < j :: !Reports(steps[k], steps[i].token)) && trace[j].db.now <= trace[i].db.now + steps[i].lease {
      SendLasts(cfg, trace, steps, i, j, id);
    }
  }

  /** Until then the delivery is not ended by anybody else, and what its worker reports is recorded. */
  lemma ReportInTime(cfg: Config, trace: seq<World>, steps: seq<Step>, i: nat, j: nat, id: Uuid, result: SendResult)
    requires IsTrace(cfg, trace, steps) && i < j < |trace| && Fencing.ClaimsSend(cfg, trace[i], steps[i], id)
    requires forall k | i < k < j :: !Reports(steps[k], steps[i].token)
    requires trace[j].db.now <= trace[i].db.now + steps[i].lease
    ensures steps[i].token in trace[j].sends
    ensures DoSend(cfg, trace[j].db, trace[j].sends[steps[i].token], result).outcome == Committed
  {
    SendLasts(cfg, trace, steps, i, j, id);
    Safety.ApplyClaimSend(cfg, trace[i], steps[i]);
    LaneOrder.LaterInTrace(cfg, trace, steps, i + 1, j);
    assert SendLater(trace[i + 1], trace[j], steps[i].token);
    Fencing.OnlyTheSendLeaseRefuses(cfg, trace, steps, j, steps[i].token, result);
  }

  // ---------------------------------------------------------------- what a report leaves behind

  /** The end of a delivery in the columns of its own row, its run and its lane. */
  predicate EndedAs(db: Db, after: Db, id: Uuid, delivery: DeliveryState, run: RunState)
    requires id in db.deliveries && id in db.runs
  {
    && id in after.deliveries && after.deliveries[id].state == delivery && after.deliveries[id].lease.None?
    && after.deliveries[id].attempts == db.deliveries[id].attempts
    && id in after.runs && after.runs[id].state == run
    && LaneOrder.Position(after, db.runs[id].lane) == LaneOrder.Position(db, db.runs[id].lane) + 1
  }

  /**
   The holder's report of an accepted message ends the delivery as sent, of an unclear outcome as uncertain, of a
   permanent error as undelivered; a retryable error leaves it pending while attempts are left.
   */
  lemma ReportOutcome(cfg: Config, trace: seq<World>, steps: seq<Step>, i: nat, token: Token, result: SendResult)
    requires IsTrace(cfg, trace, steps) && i < |trace| && token in trace[i].sends && SendHeld(trace[i].db, trace[i].sends[token])
    ensures trace[i].sends[token].id in trace[i].db.runs
    ensures var db, s := trace[i].db, trace[i].sends[token];
            var after := DoSend(cfg, db, s, result).db;
            match result
            case Accepted => EndedAs(db, after, s.id, Sent, if db.deliveries[s.id].waiting then WaitingApproval else Succeeded)
            case Unclear => EndedAs(db, after, s.id, Uncertain, DeliveryUnknown)
            case Permanent => EndedAs(db, after, s.id, Undelivered, Failed)
            case Retryable(delay) =>
              var d := db.deliveries[s.id];
              if d.attempts >= cfg.sendLimit then EndedAs(db, after, s.id, Undelivered, Failed)
              else after == db.(deliveries := db.deliveries[s.id :=
                     Delivery(d.tenant, d.waiting, Pending, d.attempts, db.now + delay, None)])
  {
    Safety.TraceHolds(cfg, trace, steps, i);
    SendSteps.SenderIsRow(cfg, trace[i], token);
    SendSteps.SettleKeeps(cfg, trace[i], trace[i].sends[token].id, Undelivered, Failed, JobFailed);
  }

  /**
   What a worker's handing over leaves behind: one delivery for its run, to the run's tenant, untried and due at
   once, which waits for an approval exactly if the answer proposes an action.
   */
  lemma HandedOver(cfg: Config, trace: seq<World>, steps: seq<Step>, i: nat, token: Token)
    requires IsTrace(cfg, trace, steps) && i < |trace| && token in trace[i].claims
    requires Held(trace[i].db, trace[i].claims[token]) && trace[i].claims[token].row.lease.value.until >= trace[i].db.now
    requires WorkAllowed(trace[i].db, trace[i].claims[token], HandOver)
    ensures var db, c := trace[i].db, trace[i].claims[token];
            var tx := DoWork(cfg, db, c, HandOver);
            && c.row.candidate.Some?
            && tx == Tx(db.(runs := db.runs[c.id := c.row.(state := DeliveryPending, lease := None, availableAt := db.now)],
                            deliveries := db.deliveries[c.id :=
                              Delivery(c.row.lane.tenant, c.row.candidate.value.action, Pending, 0, db.now, None)]), Committed)
            && forall sender: Token, until: Time ::
                 ClaimDelivery(tx.db, c.id, sender, until, cfg.sendLimit).outcome == Committed <==> c.row.lane.tenant !in db.pausedDeliveries
  {
    Safety.TraceHolds(cfg, trace, steps, i);
    WorkerSteps.HolderIsRow(cfg, trace[i], token);
    assert ClaimOk(cfg, trace[i].db, token, trace[i].claims[token]);
  }

  // ---------------------------------------------------------------- refusals

  /** A delivery worker is refused for a lost lease first, then for a run that is not delivery pending, then for its lane. */
  lemma ReportRefusedIff(db: Db, s: Record, delivery: DeliveryState, run: RunState, job: DelegationState)
    ensures Finish(db, s, delivery, run, job).outcome ==
            if !(&& s.id in db.deliveries && db.deliveries[s.id].state == Sending
                 && db.deliveries[s.id].lease.Some? && s.row.lease.Some?
                 && db.deliveries[s.id].lease.value.token == s.row.lease.value.token) then LeaseNotHeld
            else if s.id !in db.runs || db.runs[s.id].state != DeliveryPending then NotDeliveryPending
            else if db.runs[s.id].lane !in db.lanes || db.lanes[db.runs[s.id].lane].nextDispatch != db.runs[s.id].sequence then NotDispatchPosition
            else Committed
    ensures Finish(db, s, delivery, run, job).outcome != Committed ==> Finish(db, s, delivery, run, job).db == db
  {}
}

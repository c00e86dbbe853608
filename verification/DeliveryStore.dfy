/** The delivery store and the worker that drives it, statement by statement. */
module DeliveryStore {
  import opened Wrappers
  import opened Rows
  import opened Tables
  import Protocol
  import Spec = Transactions

  /**
   A delivery ended with its run: the run's lane moved on by one, no other delivery, run or lane changed, the
   token is spent, and the delivery is never claimed for sending again, at any time and under any limit.
   */
  ghost predicate EndedTogether(before: Db, after: Db, id: Uuid, delivery: DeliveryState, run: RunState) {
    && id in before.deliveries && id in after.deliveries && id in before.runs && id in after.runs
    && after.deliveries == before.deliveries[id := after.deliveries[id]] && after.deliveries[id].state == delivery
    && after.runs == before.runs[id := before.runs[id].(state := run)]
    && before.runs[id].lane in before.lanes
    && after.lanes == before.lanes[before.runs[id].lane := Spec.Advanced(before.lanes[before.runs[id].lane])]
    && (forall other | other in before.delegations && other != id :: other in after.delegations && after.delegations[other] == before.delegations[other])
    && forall t: Time, max: nat :: !Spec.Sendable(after.(now := t, pausedDeliveries := {}), id, max)
  }

  /** A delivery that is pending and due, or whose worker's lease ran out, with an attempt left and its tenant not paused. */
  predicate MaySend(d: Delivery, now: Time, paused: set<Uuid>, max: nat) {
    && (d.state == Pending || (d.state == Sending && d.lease.Some? && d.lease.value.until < now))
    && d.availableAt <= now && d.attempts < max && d.tenant !in paused
  }

  /** A delivery whose last worker's lease ran out. */
  predicate UsedUp(d: Delivery, now: Time, max: nat) {
    d.state == Sending && d.lease.Some? && d.lease.value.until < now && d.attempts >= max
  }

  class Store {
    const pool: Database

    constructor (pool: Database)
      ensures this.pool == pool
    {
      this.pool := pool;
    }

    /** The insert comes first: an existing delivery wins over a lost lease. */
    method Prepare(run: Claimed, waitingApproval: bool) returns (outcome: Outcome)
      modifies pool
      ensures Tx(pool.State(), outcome) == Spec.Prepare(old(pool.State()), run, waitingApproval)
    {
      var tenant := run.row.lane.tenant;
      if run.id in pool.deliveries {
        return AlreadyDelivered;
      }
      var deliveries := pool.deliveries[run.id := Delivery(tenant, waitingApproval, Pending, 0, pool.now, None)];
      if !Spec.HeldInTime(pool.State(), run) || pool.runs[run.id].lane.tenant != tenant {
        return LeaseNotHeld;
      }
      var row := pool.runs[run.id];
      pool.deliveries := deliveries;
      pool.runs := pool.runs[run.id := row.(state := DeliveryPending, lease := None, availableAt := pool.now)];
      return Committed;
    }

    /** What follows from the deliveries the recovery query ended; every expression reads the old tables. */
    method FailRunsOf(exhausted: set<Uuid>)
      returns (runs: map<Uuid, Run>, lanes: map<LaneKey, Lane>, delegations: map<Uuid, Delegation>)
      ensures var after := Spec.FailSet(pool.State(), exhausted);
              runs == after.runs && lanes == after.lanes && delegations == after.delegations
    {
      var failedRuns := set id | id in exhausted && id in pool.runs && pool.runs[id].state == DeliveryPending;
      runs := map id | id in pool.runs ::
        if id in failedRuns then pool.runs[id].(state := Failed) else pool.runs[id];
      var advanced := set id | id in failedRuns && Spec.OwnsPosition(pool.State(), pool.runs[id]) :: pool.runs[id].lane;
      lanes := map key | key in pool.lanes ::
        if key in advanced then pool.lanes[key].(nextDispatch := pool.lanes[key].nextDispatch + 1) else pool.lanes[key];
      delegations := map id | id in pool.delegations ::
        if id in failedRuns && pool.delegations[id].state in {JobQueued, JobRunning}
        then pool.delegations[id].(state := JobFailed) else pool.delegations[id];
      QueryIsFailSet(pool.State(), exhausted, failedRuns, advanced);
    }

    /** `failExhausted` */
    method FailExhausted(maxAttempts: nat)
      modifies pool
      ensures pool.State() == Spec.FailExhausted(old(pool.State()), maxAttempts)
    {
      var exhausted := set id | id in pool.deliveries && Spec.Exhausted(pool.State(), id, maxAttempts);
      var deliveries := map id | id in pool.deliveries ::
        if id in exhausted then pool.deliveries[id].(state := Undelivered, lease := None) else pool.deliveries[id];
      var runs, lanes, delegations := FailRunsOf(exhausted);
      pool.deliveries, pool.runs, pool.lanes, pool.delegations := deliveries, runs, lanes, delegations;
    }

    /** The claim query proper; `unlocked` are the rows no other transaction holds locked. */
    method ClaimDue(unlocked: set<Uuid>, token: Token, lease: nat, maxAttempts: nat) returns (record: Option<Record>)
      modifies pool
      ensures if record.None?
              then pool.State() == old(pool.State()) && forall id | id in unlocked :: !Spec.Sendable(pool.State(), id, maxAttempts)
              else && record.value.id in unlocked && record.value.id in pool.deliveries
                   && record.value.row == pool.deliveries[record.value.id]
                   && Spec.ClaimDelivery(old(pool.State()), record.value.id, token, old(pool.now) + lease, maxAttempts)
                      == Tx(pool.State(), Committed)
                   && forall id | id in unlocked && Spec.Sendable(old(pool.State()), id, maxAttempts) ::
                        record.value.row.availableAt <= old(pool.deliveries)[id].availableAt
      ensures record.None? ==>
                forall id | id in unlocked && id in pool.deliveries :: !MaySend(pool.deliveries[id], pool.now, pool.pausedDeliveries, maxAttempts)
      ensures record.Some? ==>
                && record.value.id in old(pool.deliveries)
                && var d := old(pool.deliveries)[record.value.id];
                   && MaySend(d, pool.now, pool.pausedDeliveries, maxAttempts)
                   && record.value.row == Delivery(d.tenant, d.waiting, Sending, d.attempts + 1, d.availableAt, Some(Lease(token, pool.now + lease)))
    {
      var due := map id | id in pool.deliveries && id in unlocked && Spec.Sendable(pool.State(), id, maxAttempts) ::
        pool.deliveries[id].availableAt;
      if due == map[] {
        forall id | id in unlocked ensures !Spec.Sendable(pool.State(), id, maxAttempts) {
          assert id !in due;
        }
        return None;
      }
      SomeRowIsFirst(due);
      var id :| id in due && FirstDue(due, id);
      forall j | j in unlocked && Spec.Sendable(pool.State(), j, maxAttempts)
        ensures pool.deliveries[id].availableAt <= pool.deliveries[j].availableAt
      {
        assert j in due;
      }
      var row := pool.deliveries[id];
      row := row.(state := Sending, attempts := row.attempts + 1, lease := Some(Lease(token, pool.now + lease)));
      pool.deliveries := pool.deliveries[id := row];
      return Some(Record(id, row));
    }

    /** `Claim`: the recovery query runs first, in a transaction of its own. */
    method Claim(unlocked: set<Uuid>, token: Token, lease: nat, maxAttempts: nat) returns (record: Option<Record>)
      modifies pool
      ensures var recovered := Spec.FailExhausted(old(pool.State()), maxAttempts);
              if record.None?
              then pool.State() == recovered && forall id | id in unlocked :: !Spec.Sendable(recovered, id, maxAttempts)
              else && record.value.id in pool.deliveries && record.value.row == pool.deliveries[record.value.id]
                   && Spec.ClaimDelivery(recovered, record.value.id, token, old(pool.now) + lease, maxAttempts)
                      == Tx(pool.State(), Committed)
      ensures record.None? ==>
                forall id | id in unlocked && id in pool.deliveries :: !MaySend(pool.deliveries[id], pool.now, pool.pausedDeliveries, maxAttempts)
      ensures record.Some? ==>
                && record.value.id in old(pool.deliveries)
                && var d := old(pool.deliveries)[record.value.id];
                   && MaySend(d, pool.now, pool.pausedDeliveries, maxAttempts)
                   && record.value.row == Delivery(d.tenant, d.waiting, Sending, d.attempts + 1, d.availableAt, Some(Lease(token, pool.now + lease)))
      ensures forall id | id in old(pool.deliveries) && (record.None? || id != record.value.id) ::
                && id in pool.deliveries
                && pool.deliveries[id] == if UsedUp(old(pool.deliveries)[id], pool.now, maxAttempts)
                                          then old(pool.deliveries)[id].(state := Undelivered, lease := None) else old(pool.deliveries)[id]
    {
      FailExhausted(maxAttempts);
      record := ClaimDue(unlocked, token, lease, maxAttempts);
    }

    /** `completeDelegationForRun` and `failDelegationForRun` */
    method FinishDelegationForRun(run: Uuid, state: DelegationState) returns (delegations: map<Uuid, Delegation>)
      ensures delegations == Spec.FinishJob(pool.delegations, run, state)
    {
      delegations := pool.delegations;
      if run in delegations && delegations[run].state in {JobQueued, JobRunning} {
        delegations := delegations[run := delegations[run].(state := state)];
      }
    }

    method AdvanceLaneForRun(run: Uuid) returns (ok: bool, lanes: map<LaneKey, Lane>)
      requires run in pool.runs
      ensures ok <==> Spec.OwnsPosition(pool.State(), pool.runs[run])
      ensures ok ==> lanes == pool.lanes[pool.runs[run].lane := Spec.Advanced(pool.lanes[pool.runs[run].lane])]
    {
      ok, lanes := false, pool.lanes;
      var row := pool.runs[run];
      if row.lane in lanes && lanes[row.lane].nextDispatch == row.sequence {
        ok := true;
        lanes := lanes[row.lane := lanes[row.lane].(nextDispatch := lanes[row.lane].nextDispatch + 1)];
      }
    }

    method MarkSent(record: Record) returns (outcome: Outcome)
      modifies pool
      ensures Tx(pool.State(), outcome) == Spec.MarkSent(old(pool.State()), record)
    {
      if !Spec.SendHeld(pool.State(), record) {
        return LeaseNotHeld;
      }
      var deliveries := pool.deliveries[record.id := pool.deliveries[record.id].(state := Sent, lease := None)];
      var state := Succeeded;
      if record.row.waiting {
        state := WaitingApproval;
      }
      if record.id !in pool.runs || pool.runs[record.id].state != DeliveryPending {
        return NotDeliveryPending;
      }
      var runs := pool.runs[record.id := pool.runs[record.id].(state := state)];
      var delegations := FinishDelegationForRun(record.id, JobCompleted);
      var ok, lanes := AdvanceLaneForRun(record.id);
      if !ok {
        return NotDispatchPosition;
      }
      pool.deliveries, pool.runs, pool.delegations, pool.lanes := deliveries, runs, delegations, lanes;
      return Committed;
    }

    /** `finishFailure` */
    method FinishFailure(record: Record, deliveryState: DeliveryState, runState: RunState) returns (outcome: Outcome)
      modifies pool
      ensures Tx(pool.State(), outcome) ==
              Spec.Finish(old(pool.State()), record, deliveryState, runState, if runState == DeliveryUnknown then JobUnknown else JobFailed)
    {
      if !Spec.SendHeld(pool.State(), record) {
        return LeaseNotHeld;
      }
      var deliveries := pool.deliveries[record.id := pool.deliveries[record.id].(state := deliveryState, lease := None)];
      if record.id !in pool.runs || pool.runs[record.id].state != DeliveryPending {
        return NotDeliveryPending;
      }
      var runs := pool.runs[record.id := pool.runs[record.id].(state := runState)];
      var job := JobFailed;
      if runState == DeliveryUnknown {
        job := JobUnknown;
      }
      var delegations := FinishDelegationForRun(record.id, job);
      var ok, lanes := AdvanceLaneForRun(record.id);
      if !ok {
        return NotDispatchPosition;
      }
      pool.deliveries, pool.runs, pool.delegations, pool.lanes := deliveries, runs, delegations, lanes;
      return Committed;
    }

    method MarkRetry(record: Record, maxAttempts: nat, retryAfter: nat) returns (outcome: Outcome)
      modifies pool
      ensures Tx(pool.State(), outcome) == Spec.MarkRetry(old(pool.State()), record, maxAttempts, retryAfter)
    {
      if record.row.attempts >= maxAttempts {
        outcome := FinishFailure(record, Undelivered, Failed);
        return;
      }
      if !Spec.SendHeld(pool.State(), record) {
        return LeaseNotHeld;
      }
      var row := pool.deliveries[record.id];
      pool.deliveries := pool.deliveries[record.id := row.(state := Pending, availableAt := pool.now + retryAfter, lease := None)];
      return Committed;
    }

    method MarkPermanent(record: Record) returns (outcome: Outcome)
      modifies pool
      ensures Tx(pool.State(), outcome) == Spec.MarkPermanent(old(pool.State()), record)
      ensures outcome == Committed ==> EndedTogether(old(pool.State()), pool.State(), record.id, Undelivered, Failed)
      ensures outcome != Committed ==> pool.State() == old(pool.State())
    {
      outcome := FinishFailure(record, Undelivered, Failed);
    }

    method MarkUncertain(record: Record) returns (outcome: Outcome)
      modifies pool
      ensures Tx(pool.State(), outcome) == Spec.MarkUncertain(old(pool.State()), record)
      ensures outcome == Committed ==> EndedTogether(old(pool.State()), pool.State(), record.id, Uncertain, DeliveryUnknown)
      ensures outcome != Committed ==> pool.State() == old(pool.State())
    {
      outcome := FinishFailure(record, Uncertain, DeliveryUnknown);
    }
  }

  /** The sets the query computes are those `Transactions.FailSet` speaks of. */
  lemma QueryIsFailSet(db: Db, exhausted: set<Uuid>, failedRuns: set<Uuid>, advanced: set<LaneKey>)
    requires failedRuns == set id | id in exhausted && id in db.runs && db.runs[id].state == DeliveryPending
    requires advanced == set id | id in failedRuns && Spec.OwnsPosition(db, db.runs[id]) :: db.runs[id].lane
    ensures Spec.FailSet(db, exhausted).runs == map id | id in db.runs ::
              if id in failedRuns then db.runs[id].(state := Failed) else db.runs[id]
    ensures Spec.FailSet(db, exhausted).lanes == map key | key in db.lanes ::
              if key in advanced then db.lanes[key].(nextDispatch := db.lanes[key].nextDispatch + 1) else db.lanes[key]
    ensures Spec.FailSet(db, exhausted).delegations == map id | id in db.delegations ::
              if id in failedRuns && db.delegations[id].state in {JobQueued, JobRunning}
              then db.delegations[id].(state := JobFailed) else db.delegations[id]
  {
    forall key | key in db.lanes ensures key in advanced <==> Spec.LaneRecovered(db, exhausted, key) {
      if key in advanced {
        var id :| id in failedRuns && Spec.OwnsPosition(db, db.runs[id]) && db.runs[id].lane == key;
        assert Spec.Recovered(db, exhausted, id);
      }
    }
    // a delegation is a child run's, so the query's condition on the run is the same for its job
    assert forall id :: id in failedRuns <==> Spec.Recovered(db, exhausted, id);
  }

  /** How the channel answered: with a message id, a classified error, or an error of its own. */
  datatype FailureClass = FailureRetryable | FailurePermanent | FailureUncertain
  datatype Answer = Delivered | SendError(failure: FailureClass) | OtherError

  class Worker {
    const store: Store
    const maxAttempts: nat

    constructor (store: Store, maxAttempts: nat)
      ensures this.store == store && this.maxAttempts == maxAttempts
    {
      this.store, this.maxAttempts := store, maxAttempts;
    }

    /** The result the protocol speaks of: an error without a class counts as uncertain. */
    static function Result(answer: Answer, attempts: nat): Protocol.SendResult
      requires attempts >= 1
    {
      match answer
      case Delivered => Protocol.Accepted
      case SendError(FailureRetryable) => Protocol.Retryable(Protocol.Backoff(attempts))
      case SendError(FailurePermanent) => Protocol.Permanent
      case _ => Protocol.Unclear
    }

    /** The delivery is being sent under the record's token. */
    static predicate Owns(deliveries: map<Uuid, Delivery>, record: Record) {
      && record.id in deliveries && deliveries[record.id].state == Sending && deliveries[record.id].lease.Some?
      && record.row.lease.Some? && deliveries[record.id].lease.value.token == record.row.lease.value.token
    }

    /**
     What `runOnce` does with a claimed record once the channel answered.  An error without a class counts as
     uncertain; a retryable one leaves the delivery pending, due after the delay, while attempts are left.
     */
    method Settle(record: Record, answer: Answer) returns (outcome: Outcome)
      requires record.row.attempts >= 1 && 1 <= maxAttempts <= 10
      modifies store.pool
      ensures Tx(store.pool.State(), outcome) ==
              Protocol.DoSend(Protocol.Limits(1, maxAttempts), old(store.pool.State()), record, Result(answer, record.row.attempts))
      ensures outcome != Committed ==> store.pool.State() == old(store.pool.State())
      ensures outcome == Committed ==> Owns(old(store.pool.deliveries), record)
      ensures && Owns(old(store.pool.deliveries), record)
              && record.id in old(store.pool.runs) && old(store.pool.runs)[record.id].state == DeliveryPending
              && old(store.pool.runs)[record.id].lane in old(store.pool.lanes)
              && old(store.pool.lanes)[old(store.pool.runs)[record.id].lane].nextDispatch == old(store.pool.runs)[record.id].sequence
              ==> outcome == Committed
      ensures outcome == Committed ==>
                && record.id in old(store.pool.deliveries) && record.id in store.pool.deliveries
                && var d := store.pool.deliveries[record.id];
                   && (d.state == Sent <==> answer == Delivered)
                   && (d.state == Uncertain <==> answer == OtherError || answer == SendError(FailureUncertain))
                   && (d.state == Pending <==> answer == SendError(FailureRetryable) && record.row.attempts < maxAttempts)
                   && (d.state == Undelivered <==>
                         answer == SendError(FailurePermanent) || (answer == SendError(FailureRetryable) && record.row.attempts >= maxAttempts))
                   && d.lease.None?
                   && d.availableAt == if d.state == Pending then store.pool.now + Protocol.DelayAfter(record.row.attempts)
                                       else old(store.pool.deliveries)[record.id].availableAt
      ensures outcome == Committed ==>
                if answer == SendError(FailureRetryable) && record.row.attempts < maxAttempts
                then store.pool.runs == old(store.pool.runs) && store.pool.lanes == old(store.pool.lanes)
                else && record.id in old(store.pool.runs) && record.id in store.pool.runs
                     && store.pool.runs[record.id].state ==
                        (if answer == Delivered then (if record.row.waiting then WaitingApproval else Succeeded)
                         else if answer == OtherError || answer == SendError(FailureUncertain) then DeliveryUnknown
                         else Failed)
                     && var lane := old(store.pool.runs)[record.id].lane;
                        lane in old(store.pool.lanes) && store.pool.lanes == old(store.pool.lanes)[lane := Spec.Advanced(old(store.pool.lanes)[lane])]
    {
      Protocol.BackoffDoubles(record.row.attempts);
      if answer.Delivered? {
        outcome := store.MarkSent(record);
        return;
      }
      var failure := FailureUncertain;
      if answer.SendError? {
        failure := answer.failure;
      }
      match failure {
        case FailureRetryable => outcome := store.MarkRetry(record, maxAttempts, Protocol.Backoff(record.row.attempts));
        case FailurePermanent => outcome := store.MarkPermanent(record);
        case FailureUncertain => outcome := store.MarkUncertain(record);
      }
    }
  }
}

/** Delivery workers and the recovery query keep the invariant. */
module SendSteps {
  import opened Wrappers
  import opened Rows
  import opened Phases
  import opened Transactions
  import opened Protocol
  import opened Frames

  // ---------------------------------------------------------------- one delivery at a time

  lemma SendTaken(cfg: Config, r: Run, lane: Lane, d: Delivery, g: Option<Delegation>, k: Option<ToolCall>, token: Token, until: Time)
    requires RunOk(cfg, r, lane, Some(d), g, k) && d.state in {Pending, Sending} && d.attempts < cfg.sendLimit
    ensures RunOk(cfg, r, lane, Some(TakenDelivery(d, token, until)), g, k)
  {}

  lemma SendPostponed(cfg: Config, r: Run, lane: Lane, d: Delivery, g: Option<Delegation>, k: Option<ToolCall>, at: Time)
    requires RunOk(cfg, r, lane, Some(d), g, k) && d.state == Sending && d.attempts < cfg.sendLimit
    ensures RunOk(cfg, r, lane, Some(Ended(d, Pending).(availableAt := at)), g, k)
  {}

  /** The three ways a delivery and its run can end together. */
  predicate EndsWith(d: Delivery, delivery: DeliveryState, run: RunState, job: DelegationState) {
    || (delivery == Sent && run == (if d.waiting then WaitingApproval else Succeeded) && job == JobCompleted)
    || (delivery == Undelivered && run == Failed && job == JobFailed)
    || (delivery == Uncertain && run == DeliveryUnknown && job == JobUnknown)
  }

  lemma SendEnded(cfg: Config, r: Run, lane: Lane, d: Delivery, g: Option<Delegation>, k: Option<ToolCall>,
                  delivery: DeliveryState, run: RunState, job: DelegationState)
    requires RunOk(cfg, r, lane, Some(d), g, k) && d.state == Sending && EndsWith(d, delivery, run, job)
    ensures lane.nextDispatch == r.sequence && r.state == DeliveryPending && r.lease.None?
    ensures g.Some? ==> g.value.state == JobRunning
    ensures RunOk(cfg, r.(state := run), Advanced(lane), Some(Ended(d, delivery)),
                  if g.Some? then Some(g.value.(state := job)) else None, k)
  {}

  lemma SettleOk(cfg: Config, db: Db, id: Uuid, delivery: DeliveryState, run: RunState, job: DelegationState)
    requires id in db.runs && id in db.deliveries && RunOkAt(cfg, db, id)
    requires db.deliveries[id].state == Sending && EndsWith(db.deliveries[id], delivery, run, job)
    ensures OwnsPosition(db, db.runs[id]) && db.runs[id].state == DeliveryPending
    ensures OnlyAt(db, Settle(db, id, delivery, run, job), id)
    ensures RunOkAt(cfg, Settle(db, id, delivery, run, job), id)
    ensures Settle(db, id, delivery, run, job).runs[id].lease.None?
    ensures Settle(db, id, delivery, run, job).deliveries[id].lease.None?
  {
    var r, g := db.runs[id], Lookup(db.delegations, id);
    SendEnded(cfg, r, db.lanes[r.lane], db.deliveries[id], g, Lookup(db.calls, id), delivery, run, job);
    assert Lookup(Settle(db, id, delivery, run, job).delegations, id) == if g.Some? then Some(g.value.(state := job)) else None;
  }

  lemma SettleKeeps(cfg: Config, w: World, id: Uuid, delivery: DeliveryState, run: RunState, job: DelegationState)
    requires Inv(cfg, w) && id in w.db.deliveries
    requires w.db.deliveries[id].state == Sending && EndsWith(w.db.deliveries[id], delivery, run, job)
    ensures id in w.db.runs && OwnsPosition(w.db, w.db.runs[id]) && w.db.runs[id].state == DeliveryPending
    ensures Keeps(cfg, w, w.(db := Settle(w.db, id, delivery, run, job)))
  {
    assert id in w.db.runs && RunOkAt(cfg, w.db, id);
    SettleOk(cfg, w.db, id, delivery, run, job);
    OneRunIsEnough(cfg, w, w.(db := Settle(w.db, id, delivery, run, job)), id);
  }

  lemma DeliveryPutOk(cfg: Config, db: Db, id: Uuid, d: Delivery)
    requires id in db.runs && id in db.deliveries && db.runs[id].lane in db.lanes
    requires d.waiting == db.deliveries[id].waiting && d.attempts >= db.deliveries[id].attempts
    requires WasDue(db, id) && (d.state == Sending ==> d.availableAt <= db.now) && !Terminal(db.deliveries[id])
    requires RunOk(cfg, db.runs[id], db.lanes[db.runs[id].lane], Some(d), Lookup(db.delegations, id), Lookup(db.calls, id))
    ensures var after := db.(deliveries := db.deliveries[id := d]); OnlyAt(db, after, id) && RunOkAt(cfg, after, id)
  {}

  // ---------------------------------------------------------------- the steps

  lemma ClaimSendKeeps(cfg: Config, w: World, id: Uuid, token: Token, until: Time)
    requires Inv(cfg, w) && token !in w.sends && Sendable(w.db, id, cfg.sendLimit)
    ensures var db := ClaimDelivery(w.db, id, token, until, cfg.sendLimit).db;
            Keeps(cfg, w, w.(db := db, sends := w.sends[token := Record(id, db.deliveries[id])], unsent := w.unsent + {token}))
  {
    var db := ClaimDelivery(w.db, id, token, until, cfg.sendLimit).db;
    assert id in w.db.runs && RunOkAt(cfg, w.db, id);
    var r := w.db.runs[id];
    SendTaken(cfg, r, w.db.lanes[r.lane], w.db.deliveries[id], Lookup(w.db.delegations, id), Lookup(w.db.calls, id), token, until);
    DeliveryPutOk(cfg, w.db, id, TakenDelivery(w.db.deliveries[id], token, until));
    OneRunIsEnough(cfg, w, w.(db := db, sends := w.sends[token := Record(id, db.deliveries[id])], unsent := w.unsent + {token}), id);
  }

  /** Handing a message to its channel touches no table. */
  lemma TransmitKeeps(cfg: Config, w: World, token: Token)
    requires Inv(cfg, w)
    ensures Keeps(cfg, w, w.(unsent := w.unsent - {token}))
  {
    var after := w.(unsent := w.unsent - {token});
    forall id | id in w.db.runs ensures LeaseKnown(after, id) {
      assert LeaseKnown(w, id);
    }
    forall id | id in w.db.deliveries ensures SendLeaseKnown(after, id) {
      assert SendLeaseKnown(w, id);
    }
  }

  /** While its token is held, what a delivery worker scanned is still the row. */
  lemma SenderIsRow(cfg: Config, w: World, token: Token)
    requires Inv(cfg, w) && token in w.sends && SendHeld(w.db, w.sends[token])
    ensures w.db.deliveries[w.sends[token].id] == w.sends[token].row
  {
    assert SendOk(w.db, token, w.sends[token]);
  }

  lemma FinishKeeps(cfg: Config, w: World, token: Token, delivery: DeliveryState, run: RunState, job: DelegationState)
    requires Inv(cfg, w) && token in w.sends && EndsWith(w.sends[token].row, delivery, run, job)
    ensures Keeps(cfg, w, w.(db := Finish(w.db, w.sends[token], delivery, run, job).db))
    ensures Finish(w.db, w.sends[token], delivery, run, job).outcome == if SendHeld(w.db, w.sends[token]) then Committed else LeaseNotHeld
  {
    var s := w.sends[token];
    if SendHeld(w.db, s) {
      SenderIsRow(cfg, w, token);
      SettleKeeps(cfg, w, s.id, delivery, run, job);
    }
  }

  lemma PostponeOk(cfg: Config, db: Db, s: Record, delay: nat)
    requires SendHeld(db, s) && db.deliveries[s.id] == s.row && s.row.attempts < cfg.sendLimit
    requires s.id in db.runs && RunOkAt(cfg, db, s.id)
    ensures var after := MarkRetry(db, s, cfg.sendLimit, delay).db;
            && OnlyAt(db, after, s.id) && RunOkAt(cfg, after, s.id) && after.runs == db.runs
            && s.id in after.deliveries && after.deliveries[s.id].lease.None?
  {
    var r := db.runs[s.id];
    SendPostponed(cfg, r, db.lanes[r.lane], s.row, Lookup(db.delegations, s.id), Lookup(db.calls, s.id), db.now + delay);
    DeliveryPutOk(cfg, db, s.id, Ended(s.row, Pending).(availableAt := db.now + delay));
  }

  lemma PostponeKeeps(cfg: Config, w: World, token: Token, delay: nat)
    requires Inv(cfg, w) && token in w.sends && w.sends[token].row.attempts < cfg.sendLimit
    ensures Keeps(cfg, w, w.(db := MarkRetry(w.db, w.sends[token], cfg.sendLimit, delay).db))
  {
    var s := w.sends[token];
    if SendHeld(w.db, s) {
      SenderIsRow(cfg, w, token);
      assert s.id in w.db.runs && RunOkAt(cfg, w.db, s.id);
      PostponeOk(cfg, w.db, s, delay);
      OneRunIsEnough(cfg, w, w.(db := MarkRetry(w.db, s, cfg.sendLimit, delay).db), s.id);
    }
  }

  lemma SendKeeps(cfg: Config, w: World, token: Token, result: SendResult)
    requires Inv(cfg, w) && token in w.sends
    ensures Keeps(cfg, w, w.(db := DoSend(cfg, w.db, w.sends[token], result).db))
  {
    var s := w.sends[token];
    match result {
      case Accepted => FinishKeeps(cfg, w, token, Sent, if s.row.waiting then WaitingApproval else Succeeded, JobCompleted);
      case Retryable(delay) =>
        if s.row.attempts >= cfg.sendLimit {
          FinishKeeps(cfg, w, token, Undelivered, Failed, JobFailed);
        } else {
          PostponeKeeps(cfg, w, token, delay);
        }
      case Permanent => FinishKeeps(cfg, w, token, Undelivered, Failed, JobFailed);
      case Unclear => FinishKeeps(cfg, w, token, Uncertain, DeliveryUnknown, JobUnknown);
    }
  }
}

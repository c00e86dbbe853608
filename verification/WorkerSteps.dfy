/** Every step of a run worker keeps the invariant. */
module WorkerSteps {
  import opened Wrappers
  import opened Rows
  import opened Phases
  import opened Transactions
  import opened Protocol
  import opened Frames

  // ---------------------------------------------------------------- one run at a time

  /** Only the run at the dispatch position can be running, and it has no delivery yet. */
  lemma RunningAtPosition(cfg: Config, r: Run, lane: Lane, d: Option<Delivery>, g: Option<Delegation>, k: Option<ToolCall>)
    requires RunOk(cfg, r, lane, d, g, k) && r.state == Running
    ensures r.sequence == lane.nextDispatch && d.None? && !Untouched(r)
  {}

  lemma RouteStored(cfg: Config, r: Run, lane: Lane, d: Option<Delivery>, g: Option<Delegation>, k: Option<ToolCall>,
                    route: Route, now: Time)
    requires RunOk(cfg, r, lane, d, g, k) && r.state == Running
    requires BranchOf(Scan(r)) == RouteIntent && ValidRoute(route)
    ensures RunOk(cfg, GivenBack(r, Queued, now).(route := Some(route)), lane, d, g, k)
  {}

  lemma PlanStored(cfg: Config, r: Run, lane: Lane, d: Option<Delivery>, g: Option<Delegation>, k: Option<ToolCall>,
                   json: Json, now: Time)
    requires RunOk(cfg, r, lane, d, g, k) && r.state == Running
    requires BranchOf(Scan(r)) == PlanTool && json.JsonObject?
    ensures RunOk(cfg, GivenBack(r, Queued, now).(arguments := Some(json)), lane, d, g, k)
  {}

  lemma ResultStored(cfg: Config, r: Run, lane: Lane, d: Option<Delivery>, g: Option<Delegation>, k: Option<ToolCall>,
                     json: Json, now: Time)
    requires RunOk(cfg, r, lane, d, g, k) && r.state == Running
    requires BranchOf(Scan(r)) == ExecuteTool && json.JsonObject? && k.Some? && k.value.state == CallSucceeded
    ensures RunOk(cfg, GivenBack(r, Queued, now).(result := Some(json)), lane, d, g, k)
  {}

  lemma CandidateStored(cfg: Config, r: Run, lane: Lane, d: Option<Delivery>, g: Option<Delegation>, k: Option<ToolCall>,
                        candidate: Candidate, now: Time)
    requires RunOk(cfg, r, lane, d, g, k) && r.state == Running
    requires BranchOf(Scan(r)) !in {RouteIntent, PlanTool, Deliver} && ValidCandidate(r, candidate)
    ensures RunOk(cfg, GivenBack(r, ReplyPending, now).(candidate := Some(candidate)), lane, d, g, k)
  {}

  lemma ApprovalAwaited(cfg: Config, r: Run, lane: Lane, d: Option<Delivery>, g: Option<Delegation>, k: Option<ToolCall>,
                        approval: Uuid)
    requires RunOk(cfg, r, lane, d, g, k) && r.state == Running && BranchOf(Scan(r)) == ExecuteTool
    requires k.Some? && k.value.state == CallWaiting && k.value.approval.value.id == approval
    ensures RunOk(cfg, r.(state := WaitingApproval, pendingApproval := Some(approval), lease := None), lane, d, g, k)
  {}

  lemma RetryScheduled(cfg: Config, r: Run, lane: Lane, d: Option<Delivery>, g: Option<Delegation>, k: Option<ToolCall>,
                       at: Time)
    requires RunOk(cfg, r, lane, d, g, k) && r.state == Running
    ensures RunOk(cfg, GivenBack(r, if r.candidate.None? then Queued else ReplyPending, at), lane, d, g, k)
  {}

  lemma RunFailed(cfg: Config, r: Run, lane: Lane, d: Option<Delivery>, g: Option<Delegation>, k: Option<ToolCall>)
    requires RunOk(cfg, r, lane, d, g, k) && r.state == Running
    ensures RunOk(cfg, r.(state := Failed, lease := None), Advanced(lane), d,
                  if g.Some? then Some(g.value.(state := JobFailed)) else None, k)
  {}

  lemma DeliveryPrepared(cfg: Config, r: Run, lane: Lane, d: Option<Delivery>, g: Option<Delegation>, k: Option<ToolCall>, now: Time)
    requires RunOk(cfg, r, lane, d, g, k) && r.state == Running && BranchOf(Scan(r)) == Deliver
    ensures r.candidate.Some?
    ensures RunOk(cfg, GivenBack(r, DeliveryPending, now), lane,
                  Some(Delivery(r.lane.tenant, r.candidate.value.action, Pending, 0, now, None)), g, k)
  {}

  // ---------------------------------------------------------------- the whole state

  /** A held token's snapshot is the row itself, and the row owns the lane. */
  lemma HolderIsRow(cfg: Config, w: World, token: Token)
    requires Inv(cfg, w) && token in w.claims && Held(w.db, w.claims[token])
    ensures w.db.runs[w.claims[token].id] == w.claims[token].row
    ensures RunOkAt(cfg, w.db, w.claims[token].id)
    ensures OwnsPosition(w.db, w.claims[token].row)
    ensures w.claims[token].id !in w.db.deliveries
  {
    var c := w.claims[token];
    assert ClaimOk(cfg, w.db, token, c);
    assert RunOkAt(cfg, w.db, c.id);
    RunningAtPosition(cfg, c.row, w.db.lanes[c.row.lane], Lookup(w.db.deliveries, c.id),
                      Lookup(w.db.delegations, c.id), Lookup(w.db.calls, c.id));
  }

  /** What a holder knows about the tables, without the rest of the invariant. */
  predicate Holding(cfg: Config, db: Db, c: Claimed) {
    && Held(db, c) && db.runs[c.id] == c.row && RunOkAt(cfg, db, c.id)
    && OwnsPosition(db, c.row) && c.id !in db.deliveries
  }

  /** The effect of a turn is confined to the run, leaves its rows consistent and gives the lease back. */
  ghost predicate LocallyOk(cfg: Config, db: Db, after: Db, id: Uuid) {
    && OnlyAt(db, after, id) && RunOkAt(cfg, after, id) && after.runs[id].lease.None?
    && (id in after.deliveries ==> after.deliveries[id].lease.None?)
  }

  /** The row a guarded single-row update leaves behind. */
  function RowAfter(r: Run, work: Work, now: Time): Run {
    match work
    case StoreRoute(route) => GivenBack(r, Queued, now).(route := Some(route))
    case StorePlan(json) => GivenBack(r, Queued, now).(arguments := Some(json))
    case StoreResult(json) => GivenBack(r, Queued, now).(result := Some(json))
    case StoreCandidate(candidate) => GivenBack(r, ReplyPending, now).(candidate := Some(candidate))
    case AwaitApproval(approval) => r.(state := WaitingApproval, pendingApproval := Some(approval), lease := None)
    case _ => r
  }

  lemma RowAfterOk(cfg: Config, db: Db, c: Claimed, work: Work)
    requires Holding(cfg, db, c) && WorkAllowed(db, c, work)
    requires work.StoreRoute? || work.StorePlan? || work.StoreResult? || work.StoreCandidate? ||
             (work.AwaitApproval? && WaitForApproval(db, c, work.approval).outcome == Committed)
    ensures Extends(c.row, RowAfter(c.row, work, db.now))
    ensures RunOk(cfg, RowAfter(c.row, work, db.now), db.lanes[c.row.lane],
                  Lookup(db.deliveries, c.id), Lookup(db.delegations, c.id), Lookup(db.calls, c.id))
  {
    var r, now := c.row, db.now;
    var lane, d, g, k := db.lanes[r.lane], Lookup(db.deliveries, c.id), Lookup(db.delegations, c.id), Lookup(db.calls, c.id);
    match work {
      case StoreRoute(route) => RouteStored(cfg, r, lane, d, g, k, route, now);
      case StorePlan(json) => PlanStored(cfg, r, lane, d, g, k, json, now);
      case StoreResult(json) => ResultStored(cfg, r, lane, d, g, k, json, now);
      case StoreCandidate(candidate) => CandidateStored(cfg, r, lane, d, g, k, candidate, now);
      case AwaitApproval(approval) => ApprovalAwaited(cfg, r, lane, d, g, k, approval);
    }
  }

  lemma RowPutOk(cfg: Config, db: Db, c: Claimed, r: Run)
    requires Holding(cfg, db, c) && Extends(c.row, r) && r.lease.None?
    requires RunOk(cfg, r, db.lanes[c.row.lane],
                   Lookup(db.deliveries, c.id), Lookup(db.delegations, c.id), Lookup(db.calls, c.id))
    ensures LocallyOk(cfg, db, PutRun(db, c.id, r), c.id)
  {}

  lemma UpdateOk(cfg: Config, db: Db, c: Claimed, work: Work)
    requires Holding(cfg, db, c) && WorkAllowed(db, c, work)
    requires !work.Retry? && !work.GiveUp? && !work.HandOver?
    requires DoWork(cfg, db, c, work).outcome == Committed
    ensures LocallyOk(cfg, db, DoWork(cfg, db, c, work).db, c.id)
  {
    RowAfterOk(cfg, db, c, work);
    RowPutOk(cfg, db, c, RowAfter(c.row, work, db.now));
  }

  lemma FailOk(cfg: Config, db: Db, c: Claimed)
    requires Holding(cfg, db, c)
    ensures LocallyOk(cfg, db, FailHeld(db, c).db, c.id)
  {
    var g := Lookup(db.delegations, c.id);
    RunFailed(cfg, c.row, db.lanes[c.row.lane], None, g, Lookup(db.calls, c.id));
    assert Lookup(FailHeld(db, c).db.delegations, c.id) == if g.Some? then Some(g.value.(state := JobFailed)) else None;
  }

  lemma RescheduleOk(cfg: Config, db: Db, c: Claimed, at: Time)
    requires Holding(cfg, db, c)
    ensures LocallyOk(cfg, db, PutRun(db, c.id, GivenBack(c.row, if c.row.candidate.None? then Queued else ReplyPending, at)), c.id)
  {
    RetryScheduled(cfg, c.row, db.lanes[c.row.lane], Lookup(db.deliveries, c.id),
                   Lookup(db.delegations, c.id), Lookup(db.calls, c.id), at);
    RowPutOk(cfg, db, c, GivenBack(c.row, if c.row.candidate.None? then Queued else ReplyPending, at));
  }

  lemma RetryOk(cfg: Config, db: Db, c: Claimed, limit: nat, delay: nat)
    requires Holding(cfg, db, c)
    ensures LocallyOk(cfg, db, FailOrRetry(db, c, limit, delay).db, c.id)
  {
    if PhaseAttempts(Scan(c.row)) >= limit {
      FailOk(cfg, db, c);
    } else {
      RescheduleOk(cfg, db, c, db.now + delay);
    }
  }

  lemma HandOverOk(cfg: Config, db: Db, c: Claimed)
    requires Holding(cfg, db, c) && BranchOf(Scan(c.row)) == Deliver && HeldInTime(db, c)
    requires c.row.candidate.Some?
    ensures LocallyOk(cfg, db, Prepare(db, c, c.row.candidate.value.action).db, c.id)
  {
    DeliveryPrepared(cfg, c.row, db.lanes[c.row.lane], None, Lookup(db.delegations, c.id), Lookup(db.calls, c.id), db.now);
  }

  lemma WorkOk(cfg: Config, db: Db, c: Claimed, work: Work)
    requires Holding(cfg, db, c) && WorkAllowed(db, c, work)
    requires DoWork(cfg, db, c, work).outcome == Committed
    ensures LocallyOk(cfg, db, DoWork(cfg, db, c, work).db, c.id)
  {
    match work {
      case Retry(delay) => RetryOk(cfg, db, c, RetryLimit(cfg, c.row), delay);
      case GiveUp => FailOk(cfg, db, c);
      case HandOver => HandOverOk(cfg, db, c);
      case _ => UpdateOk(cfg, db, c, work);
    }
  }

  lemma OnlyHoldersCommit(cfg: Config, db: Db, c: Claimed, work: Work)
    requires c.row.lease.Some?
    ensures DoWork(cfg, db, c, work).outcome == Committed ==> Held(db, c)
    ensures DoWork(cfg, db, c, work).outcome != Committed ==> DoWork(cfg, db, c, work).db == db
  {}

  lemma WorkKeeps(cfg: Config, w: World, token: Token, work: Work)
    requires Inv(cfg, w) && token in w.claims && WorkAllowed(w.db, w.claims[token], work)
    ensures Keeps(cfg, w, w.(db := DoWork(cfg, w.db, w.claims[token], work).db))
  {
    var c := w.claims[token];
    var tx := DoWork(cfg, w.db, c, work);
    assert ClaimOk(cfg, w.db, token, c);
    OnlyHoldersCommit(cfg, w.db, c, work);
    if tx.outcome == Committed {
      HolderIsRow(cfg, w, token);
      WorkOk(cfg, w.db, c, work);
      OneRunIsEnough(cfg, w, w.(db := tx.db), c.id);
    } else {
      assert w.(db := tx.db) == w;
    }
  }
}

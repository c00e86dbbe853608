/** Tool calls, approvals and their expiry keep the invariant. */
module CallSteps {
  import opened Wrappers
  import opened Rows
  import opened Phases
  import opened Transactions
  import opened Protocol
  import opened Frames

  // ---------------------------------------------------------------- tool calls

  lemma ExecutingHasArguments(c: Claimed, tool: ToolWork)
    requires Shape(c.row) && ToolAllowed(c, tool)
    ensures c.row.arguments.Some? && c.row.result.None?
  {}

  lemma CallReplaced(cfg: Config, r: Run, lane: Lane, d: Option<Delivery>, g: Option<Delegation>, k: Option<ToolCall>, after: Option<ToolCall>)
    requires RunOk(cfg, r, lane, d, g, k) && CallMatches(r, after) && r.attempts >= 1
    ensures RunOk(cfg, r, lane, d, g, after)
  {}

  /** A call may be opened, started or ended by whoever once claimed the run in its execution phase. */
  lemma CallMoved(r: Run, db: Db, c: Claimed, tool: ToolWork)
    requires CallMatches(r, Lookup(db.calls, c.id)) && r.arguments.Some?
    requires r.result.None? || c.id in db.calls
    requires tool.EndTool? ==> tool.to in {CallSucceeded, CallFailed, CallUnknown}
    ensures CallMatches(r, Lookup(DoTool(db, c, tool).calls, c.id))
    ensures DoTool(db, c, tool) == db.(calls := DoTool(db, c, tool).calls)
    ensures forall j | j != c.id :: Lookup(DoTool(db, c, tool).calls, j) == Lookup(db.calls, j)
  {
    LookupIs(db.calls, c.id);
  }

  lemma ToolOk(cfg: Config, db: Db, c: Claimed, tool: ToolWork)
    requires c.id in db.runs && RunOkAt(cfg, db, c.id) && Extends(c.row, db.runs[c.id])
    requires c.row.arguments.Some? && c.row.attempts >= 1
    requires tool.EndTool? ==> tool.to in {CallSucceeded, CallFailed, CallUnknown}
    ensures OnlyAt(db, DoTool(db, c, tool), c.id) && RunOkAt(cfg, DoTool(db, c, tool), c.id)
    ensures DoTool(db, c, tool).runs == db.runs && DoTool(db, c, tool).deliveries == db.deliveries
  {
    var r := db.runs[c.id];
    LookupIs(db.calls, c.id);
    CallMoved(r, db, c, tool);
    CallReplaced(cfg, r, db.lanes[r.lane], Lookup(db.deliveries, c.id), Lookup(db.delegations, c.id),
                 Lookup(db.calls, c.id), Lookup(DoTool(db, c, tool).calls, c.id));
  }

  lemma ToolKeeps(cfg: Config, w: World, token: Token, tool: ToolWork)
    requires Inv(cfg, w) && token in w.claims && ToolAllowed(w.claims[token], tool)
    ensures Keeps(cfg, w, w.(db := DoTool(w.db, w.claims[token], tool)))
  {
    var c := w.claims[token];
    assert ClaimOk(cfg, w.db, token, c);
    assert RunOkAt(cfg, w.db, c.id);
    ExecutingHasArguments(c, tool);
    ToolOk(cfg, w.db, c, tool);
    OneRunIsEnough(cfg, w, w.(db := DoTool(w.db, c, tool)), c.id);
  }

  // ---------------------------------------------------------------- resuming a parked run

  /**
   Only a parked run can be resumed: a run that rests in `waiting_approval` after its notice was sent
   carries an action, and on a tool route that takes a tool result, so its call is no longer waiting.
   */
  lemma WaitingCallMeansParked(cfg: Config, r: Run, lane: Lane, d: Option<Delivery>, g: Option<Delegation>, k: Option<ToolCall>)
    requires RunOk(cfg, r, lane, d, g, k)
    requires r.state == WaitingApproval && k.Some? && k.value.state == CallWaiting
    ensures r.pendingApproval.Some? && !Released(r, d) && d.None?
  {}

  lemma ResumedOk(cfg: Config, r: Run, lane: Lane, d: Option<Delivery>, g: Option<Delegation>, k: Option<ToolCall>,
                  after: ToolCall, now: Time)
    requires RunOk(cfg, r, lane, d, g, k)
    requires r.state == WaitingApproval && k.Some? && k.value.state == CallWaiting
    requires after.state in {CallPrepared, CallDenied}
    requires after.approval.Some? && after.approval.value.state != Requested && Authorized(after)
    ensures RunOk(cfg, Resumed(r, now), lane, d, g, Some(after))
  {
    WaitingCallMeansParked(cfg, r, lane, d, g, k);
  }

  lemma DecideOk(cfg: Config, db: Db, id: Uuid, approval: Uuid, approve: bool)
    requires id in db.runs && RunOkAt(cfg, db, id) && Decide(db, id, approval, approve).outcome == Committed
    ensures OnlyAt(db, Decide(db, id, approval, approve).db, id) && RunOkAt(cfg, Decide(db, id, approval, approve).db, id)
    ensures Decide(db, id, approval, approve).db.runs[id].lease.None?
  {
    var r := db.runs[id];
    var after := Decide(db, id, approval, approve).db;
    ResumedOk(cfg, r, db.lanes[r.lane], Lookup(db.deliveries, id), Lookup(db.delegations, id), Lookup(db.calls, id),
              after.calls[id], db.now);
  }

  lemma DecideKeeps(cfg: Config, w: World, id: Uuid, approval: Uuid, approve: bool)
    requires Inv(cfg, w)
    ensures Keeps(cfg, w, w.(db := Decide(w.db, id, approval, approve).db))
  {
    var tx := Decide(w.db, id, approval, approve);
    if tx.outcome == Committed {
      assert RunOkAt(cfg, w.db, id);
      DecideOk(cfg, w.db, id, approval, approve);
      OneRunIsEnough(cfg, w, w.(db := tx.db), id);
    } else {
      assert w.(db := tx.db) == w;
    }
  }

  // ---------------------------------------------------------------- expiry

  lemma ExpireOneOk(cfg: Config, db: Db, id: Uuid)
    requires id in db.runs && RunOkAt(cfg, db, id)
    ensures OnlyAt(db, ExpireApprovals(db, {id}), id) && RunOkAt(cfg, ExpireApprovals(db, {id}), id)
    ensures var after := ExpireApprovals(db, {id}).runs[id]; after.lease.None? || after == db.runs[id]
    ensures ExpireApprovals(db, {id}).deliveries == db.deliveries
  {
    var r := db.runs[id];
    var after := ExpireApprovals(db, {id});
    assert after.runs == db.runs[id := after.runs[id]];
    if Resumes(db, id) {
      ResumedOk(cfg, r, db.lanes[r.lane], Lookup(db.deliveries, id), Lookup(db.delegations, id), Lookup(db.calls, id),
                after.calls[id], db.now);
    } else {
      assert CallMatches(r, Lookup(db.calls, id));
      assert CallMatches(r, Lookup(after.calls, id));
    }
  }

  /** Expiring a set of approvals is expiring them one by one. */
  lemma ExpireSplits(db: Db, chosen: set<Uuid>, id: Uuid)
    requires id in chosen
    ensures ExpireApprovals(ExpireApprovals(db, {id}), chosen - {id}) == ExpireApprovals(db, chosen)
  {
    var one, all := ExpireApprovals(db, {id}), ExpireApprovals(db, chosen);
    var two := ExpireApprovals(one, chosen - {id});
    assert two.calls == all.calls;
    assert two.runs == all.runs;
  }

  lemma ExpireNobody(db: Db, id: Uuid)
    requires id !in db.runs && id !in db.calls
    ensures ExpireApprovals(db, {id}) == db
  {
    assert ExpireApprovals(db, {id}).calls == db.calls;
    assert ExpireApprovals(db, {id}).runs == db.runs;
  }

  lemma ExpireOneKeeps(cfg: Config, w: World, id: Uuid)
    requires Inv(cfg, w)
    ensures Keeps(cfg, w, w.(db := ExpireApprovals(w.db, {id})))
  {
    var one := w.(db := ExpireApprovals(w.db, {id}));
    if id in w.db.runs {
      assert RunOkAt(cfg, w.db, id);
      ExpireOneOk(cfg, w.db, id);
      OneRunIsEnough(cfg, w, one, id);
    } else {
      ExpireNobody(w.db, id);
      assert one == w;
    }
  }

  lemma {:induction false} ExpireKeeps(cfg: Config, w: World, chosen: set<Uuid>)
    requires Inv(cfg, w)
    ensures Keeps(cfg, w, w.(db := ExpireApprovals(w.db, chosen)))
    decreases |chosen|
  {
    if chosen == {} {
      ExpireNone(w.db);
      LaterReflexive(w);
    } else {
      var id :| id in chosen;
      var one := w.(db := ExpireApprovals(w.db, {id}));
      ExpireOneKeeps(cfg, w, id);
      ExpireKeeps(cfg, one, chosen - {id});
      ExpireSplits(w.db, chosen, id);
      KeepsTransitive(cfg, w, one, w.(db := ExpireApprovals(w.db, chosen)));
    }
  }

  lemma ExpireNone(db: Db)
    ensures ExpireApprovals(db, {}) == db
  {
    assert ExpireApprovals(db, {}).calls == db.calls;
    assert ExpireApprovals(db, {}).runs == db.runs;
  }
}

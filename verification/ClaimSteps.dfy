/** Claiming a run and the steps of the environment keep the invariant. */
module ClaimSteps {
  import opened Wrappers
  import opened Rows
  import opened Phases
  import opened Transactions
  import opened Protocol
  import opened Frames
  import CallSteps

  // ---------------------------------------------------------------- claiming

  lemma ChargedShape(r: Run, token: Token, until: Time)
    requires Shape(r)
    ensures Shape(Taken(r, token, until)) && PhaseOf(Taken(r, token, until)) == PhaseOf(r)
    ensures Extends(r, Taken(r, token, until))
  {}

  /** The claim filter leaves room for one more claim in the phase it charges. */
  lemma ChargedCounts(r: Run, token: Token, until: Time, max: nat)
    requires Shape(r) && Counts(r, max) && ClaimFilter(r, max)
    ensures Counts(Taken(r, token, until), max)
  {}

  lemma TakenOk(cfg: Config, r: Run, lane: Lane, d: Option<Delivery>, g: Option<Delegation>, k: Option<ToolCall>,
                token: Token, until: Time)
    requires RunOk(cfg, r, lane, d, g, k) && ClaimFilter(r, cfg.runLimit) && lane.nextDispatch == r.sequence
    requires r.state in {Queued, ReplyPending, Running}
    ensures RunOk(cfg, Taken(r, token, until), lane, d,
                  if g.Some? && g.value.state == JobQueued then Some(g.value.(state := JobRunning)) else g, k)
  {
    ChargedShape(r, token, until);
    ChargedCounts(r, token, until, cfg.runLimit);
    assert d.None?;
  }

  lemma ClaimOneOk(cfg: Config, db: Db, id: Uuid, token: Token, until: Time)
    requires id in db.runs && RunOkAt(cfg, db, id) && Claimable(db, id, cfg.runLimit)
    ensures OnlyAt(db, ClaimOne(db, id, token, until), id) && RunOkAt(cfg, ClaimOne(db, id, token, until), id)
  {
    var r := db.runs[id];
    var g := Lookup(db.delegations, id);
    var after := ClaimOne(db, id, token, until);
    ChargedShape(r, token, until);
    TakenOk(cfg, r, db.lanes[r.lane], Lookup(db.deliveries, id), g, Lookup(db.calls, id), token, until);
    assert Lookup(after.delegations, id) == if g.Some? && g.value.state == JobQueued then Some(g.value.(state := JobRunning)) else g;
  }

  lemma ClaimOneKeeps(cfg: Config, w: World, id: Uuid, token: Token, until: Time)
    requires Inv(cfg, w) && token !in w.claims && Claimable(w.db, id, cfg.runLimit)
    ensures var db := ClaimOne(w.db, id, token, until);
            Keeps(cfg, w, w.(db := db, claims := w.claims[token := Claimed(id, db.runs[id])]))
  {
    var db := ClaimOne(w.db, id, token, until);
    assert RunOkAt(cfg, w.db, id);
    ClaimOneOk(cfg, w.db, id, token, until);
    OneRunIsEnough(cfg, w, w.(db := db, claims := w.claims[token := Claimed(id, db.runs[id])]), id);
  }

  lemma ClaimKeeps(cfg: Config, w: World, chosen: set<Uuid>, id: Uuid, token: Token, until: Time)
    requires Inv(cfg, w) && token !in w.claims
    requires Claim(w.db, chosen, id, token, until, cfg.runLimit).outcome == Committed
    ensures var db := Claim(w.db, chosen, id, token, until, cfg.runLimit).db;
            id in db.runs && Keeps(cfg, w, w.(db := db, claims := w.claims[token := Claimed(id, db.runs[id])]))
  {
    var expired := w.(db := ExpireApprovals(w.db, chosen));
    CallSteps.ExpireKeeps(cfg, w, chosen);
    ClaimOneKeeps(cfg, expired, id, token, until);
    var db := ClaimOne(expired.db, id, token, until);
    KeepsTransitive(cfg, w, expired, w.(db := db, claims := w.claims[token := Claimed(id, db.runs[id])]));
  }

  // ---------------------------------------------------------------- clock, controls and the action executor

  /** The same tables at another time, under other pause switches. */
  predicate SameTables(db: Db, after: Db) {
    after == db.(now := after.now, pausedRuns := after.pausedRuns, pausedDeliveries := after.pausedDeliveries)
  }

  lemma TablesKeep(cfg: Config, db: Db, after: Db)
    requires SameTables(db, after) && after.now >= db.now
    requires LanesFilled(db) && RunsUnique(db) && RunsOk(cfg, db) && JobsOk(db) && KeysOk(db)
    ensures LanesFilled(after) && RunsUnique(after) && RunsOk(cfg, after) && JobsOk(after) && KeysOk(after)
  {
    forall key | key in after.lanes ensures LaneFilled(after, key) {
      assert LaneFilled(db, key);
      forall q: nat | 1 <= q < after.lanes[key].nextEnqueue ensures Filled(after, key, q) {
        assert Filled(db, key, q);
        var j :| Occupies(db, key, q, j);
        assert Occupies(after, key, q, j);
      }
    }
    forall a, b | a in db.runs && b in db.runs ensures Apart(after, a, b) {
      assert Apart(db, a, b);
    }
    forall a, b | a in db.delegations && b in db.delegations ensures JobsApart(after, a, b) {
      assert JobsApart(db, a, b);
    }
    forall id | id in db.runs ensures RunOkAt(cfg, after, id) {
      assert RunOkAt(cfg, db, id);
    }
    forall child | child in db.delegations ensures JobOk(after, child) {
      assert JobOk(db, child);
    }
  }

  lemma WorkersKeep(cfg: Config, w: World, after: World)
    requires WorkersOk(cfg, w) && SameTables(w.db, after.db) && after.claims == w.claims && after.sends == w.sends
    ensures WorkersOk(cfg, after)
  {
    forall id | id in w.db.runs ensures LeaseKnown(after, id) {
      assert LeaseKnown(w, id);
    }
    forall token | token in w.claims ensures ClaimOk(cfg, after.db, token, w.claims[token]) {
      assert ClaimOk(cfg, w.db, token, w.claims[token]);
    }
    forall token | token in w.sends ensures SendOk(after.db, token, w.sends[token]) {
      assert SendOk(w.db, token, w.sends[token]);
    }
    forall id | id in w.db.deliveries ensures SendLeaseKnown(after, id) {
      assert SendLeaseKnown(w, id);
    }
  }

  /** Nothing the invariant speaks of depends on the clock or on the pause switches. */
  lemma EnvironmentKeeps(cfg: Config, w: World, now: Time, pausedRuns: set<Uuid>, pausedDeliveries: set<Uuid>)
    requires Inv(cfg, w) && now >= w.db.now
    ensures Keeps(cfg, w, w.(db := w.db.(now := now, pausedRuns := pausedRuns, pausedDeliveries := pausedDeliveries)))
  {
    var after := w.(db := w.db.(now := now, pausedRuns := pausedRuns, pausedDeliveries := pausedDeliveries));
    TablesKeep(cfg, w.db, after.db);
    WorkersKeep(cfg, w, after);
  }

  lemma ActionOk(cfg: Config, r: Run, lane: Lane, d: Option<Delivery>, g: Option<Delegation>, k: Option<ToolCall>, state: RunState)
    requires RunOk(cfg, r, lane, d, g, k) && r.state == WaitingApproval && d.Some? && d.value.state == Sent
    requires state in {Succeeded, Failed}
    ensures RunOk(cfg, r.(state := state), lane, d, g, k)
  {}

  lemma ActionKeeps(cfg: Config, w: World, id: Uuid, state: RunState)
    requires Inv(cfg, w) && AwaitsAction(w.db, id) && state in {Succeeded, Failed}
    ensures Keeps(cfg, w, w.(db := PutRun(w.db, id, w.db.runs[id].(state := state))))
  {
    var after := w.(db := PutRun(w.db, id, w.db.runs[id].(state := state)));
    var r := w.db.runs[id];
    assert RunOkAt(cfg, w.db, id);
    ActionOk(cfg, r, w.db.lanes[r.lane], Lookup(w.db.deliveries, id), Lookup(w.db.delegations, id), Lookup(w.db.calls, id), state);
    assert r.lease.None?;
    OneRunIsEnough(cfg, w, after, id);
  }
}

/** The three producers of runs keep the invariant. */
module Producers {
  import opened Wrappers
  import opened Rows
  import opened Phases
  import opened Transactions
  import opened Protocol
  import opened Frames

  /** The tables after a new run, with its job when it was delegated. */
  function Inserted(db: Db, id: Uuid, event: string, key: LaneKey, plane: Plane, modelLimit: nat, job: Option<Delegation>): Db {
    var next := Allocate(db, id, event, key, plane, modelLimit);
    if job.Some? then next.(delegations := next.delegations[id := job.value]) else next
  }

  /** A job belongs to a delegated run, is new, and names an older passive run of the same lane. */
  ghost predicate JobFits(db: Db, key: LaneKey, plane: Plane, job: Option<Delegation>) {
    && (plane == Internal <==> job.Some?)
    && (job.Some? ==>
        && job.value.state == JobQueued && !JobTaken(db, job.value.parent, job.value.key)
        && job.value.parent in db.runs && db.runs[job.value.parent].lane == key && db.runs[job.value.parent].plane == Passive)
  }

  lemma NewRunOk(cfg: Config, db: Db, event: string, key: LaneKey, plane: Plane, modelLimit: nat, job: Option<Delegation>)
    requires plane == Internal <==> job.Some?
    requires job.Some? ==> job.value.state == JobQueued
    requires 1 <= LaneOf(db, key).nextDispatch <= LaneOf(db, key).nextEnqueue
    ensures RunOk(cfg, NewRun(db, event, key, plane, modelLimit),
                  LaneOf(db, key).(nextEnqueue := LaneOf(db, key).nextEnqueue + 1), None, job, None)
  {}

  lemma OlderRunOk(cfg: Config, r: Run, lane: Lane, d: Option<Delivery>, g: Option<Delegation>, k: Option<ToolCall>)
    requires RunOk(cfg, r, lane, d, g, k)
    ensures RunOk(cfg, r, lane.(nextEnqueue := lane.nextEnqueue + 1), d, g, k)
  {}

  lemma LanesGrow(db: Db, after: Db, id: Uuid, event: string, key: LaneKey, plane: Plane, modelLimit: nat)
    requires LanesFilled(db) && id !in db.runs
    requires after.runs == Allocate(db, id, event, key, plane, modelLimit).runs
    requires after.lanes == Allocate(db, id, event, key, plane, modelLimit).lanes
    ensures LanesFilled(after)
  {
    forall k | k in after.lanes ensures LaneFilled(after, k) {
      assert k in db.lanes ==> LaneFilled(db, k);
      forall q: nat | 1 <= q < after.lanes[k].nextEnqueue ensures Filled(after, k, q) {
        if k == key && q == LaneOf(db, key).nextEnqueue {
          assert Occupies(after, k, q, id);
        } else {
          assert Filled(db, k, q);
          var j :| Occupies(db, k, q, j);
          assert Occupies(after, k, q, j);
        }
      }
    }
  }

  lemma RunsStayUnique(cfg: Config, db: Db, after: Db, id: Uuid, event: string, key: LaneKey, plane: Plane, modelLimit: nat)
    requires RunsUnique(db) && RunsOk(cfg, db) && id !in db.runs && !EventTaken(db, event)
    requires after.runs == Allocate(db, id, event, key, plane, modelLimit).runs
    ensures RunsUnique(after)
  {
    forall a, b | a in after.runs && b in after.runs ensures Apart(after, a, b) {
      assert a in db.runs ==> RunOkAt(cfg, db, a);
      assert b in db.runs ==> RunOkAt(cfg, db, b);
      assert a in db.runs && b in db.runs ==> Apart(db, a, b);
    }
  }

  lemma JobsHaveRuns(db: Db)
    requires JobsOk(db)
    ensures db.delegations.Keys <= db.runs.Keys
  {
    forall child | child in db.delegations ensures child in db.runs {
      assert JobOk(db, child);
    }
  }

  lemma RunStaysOk(cfg: Config, db: Db, id: Uuid, event: string, key: LaneKey, plane: Plane, modelLimit: nat, job: Option<Delegation>, j: Uuid)
    requires j in db.runs && RunOkAt(cfg, db, j) && j != id
    ensures RunOkAt(cfg, Inserted(db, id, event, key, plane, modelLimit, job), j)
  {
    var r := db.runs[j];
    OlderRunOk(cfg, r, db.lanes[r.lane], Lookup(db.deliveries, j), Lookup(db.delegations, j), Lookup(db.calls, j));
  }

  lemma RunsStayOk(cfg: Config, db: Db, id: Uuid, event: string, key: LaneKey, plane: Plane, modelLimit: nat, job: Option<Delegation>)
    requires RunsOk(cfg, db) && KeysOk(db) && JobsOk(db) && LanesFilled(db) && id !in db.runs && JobFits(db, key, plane, job)
    ensures RunsOk(cfg, Inserted(db, id, event, key, plane, modelLimit, job))
  {
    var after := Inserted(db, id, event, key, plane, modelLimit, job);
    JobsHaveRuns(db);
    forall j | j in after.runs ensures RunOkAt(cfg, after, j) {
      if j == id {
        assert key in db.lanes ==> LaneFilled(db, key);
        NewRunOk(cfg, db, event, key, plane, modelLimit, job);
        assert Lookup(after.delegations, id) == job;
      } else {
        RunStaysOk(cfg, db, id, event, key, plane, modelLimit, job, j);
      }
    }
  }

  lemma JobsGrow(cfg: Config, db: Db, id: Uuid, event: string, key: LaneKey, plane: Plane, modelLimit: nat, job: Option<Delegation>)
    requires JobsOk(db) && KeysOk(db) && id !in db.runs && JobFits(db, key, plane, job)
    requires job.Some? ==> db.runs[job.value.parent].sequence < LaneOf(db, key).nextEnqueue
    ensures var after := Inserted(db, id, event, key, plane, modelLimit, job); JobsOk(after) && KeysOk(after)
  {
    var after := Inserted(db, id, event, key, plane, modelLimit, job);
    JobsHaveRuns(db);
    forall child | child in after.delegations ensures JobOk(after, child) {
      if child in db.delegations {
        assert JobOk(db, child);
      }
    }
    forall a, b | a in after.delegations && b in after.delegations ensures JobsApart(after, a, b) {
      assert a in db.delegations && b in db.delegations ==> JobsApart(db, a, b);
    }
  }

  lemma WorkersStayOk(cfg: Config, w: World, after: World, id: Uuid)
    requires WorkersOk(cfg, w) && id !in w.db.runs
    requires id in after.db.runs && after.db.runs == w.db.runs[id := after.db.runs[id]] && after.db.runs[id].lease.None?
    requires after.db.deliveries == w.db.deliveries && after.claims == w.claims && after.sends == w.sends
    ensures WorkersOk(cfg, after)
  {
    forall token | token in w.claims ensures ClaimOk(cfg, after.db, token, w.claims[token]) {
      assert ClaimOk(cfg, w.db, token, w.claims[token]);
    }
    forall token | token in w.sends ensures SendOk(after.db, token, w.sends[token]) {
      assert SendOk(w.db, token, w.sends[token]);
    }
    forall j | j in after.db.runs ensures LeaseKnown(after, j) {
      if j != id {
        assert LeaseKnown(w, j);
      }
    }
    forall j | j in after.db.deliveries ensures SendLeaseKnown(after, j) {
      assert SendLeaseKnown(w, j);
    }
  }

  lemma RowsMoveForward(db: Db, id: Uuid, event: string, key: LaneKey, plane: Plane, modelLimit: nat, job: Option<Delegation>)
    requires id !in db.runs && db.delegations.Keys <= db.runs.Keys
    ensures var after := Inserted(db, id, event, key, plane, modelLimit, job);
            && (forall j | j in db.runs :: RunLater(db, after, j))
            && (forall k | k in db.lanes :: LaneLater(db, after, k))
            && (forall j | j in db.deliveries :: DeliveryLater(db, after, j))
            && (forall j | j in db.delegations :: JobLater(db, after, j))
  {}

  lemma InsertMovesForward(cfg: Config, w: World, id: Uuid, event: string, key: LaneKey, plane: Plane, modelLimit: nat, job: Option<Delegation>)
    requires WorkersOk(cfg, w) && JobsOk(w.db) && id !in w.db.runs
    ensures Later(w, w.(db := Inserted(w.db, id, event, key, plane, modelLimit, job)))
  {
    var after := w.(db := Inserted(w.db, id, event, key, plane, modelLimit, job));
    JobsHaveRuns(w.db);
    RowsMoveForward(w.db, id, event, key, plane, modelLimit, job);
    forall token | token in w.claims ensures ClaimLater(w, after, token) {
      assert ClaimOk(cfg, w.db, token, w.claims[token]);
    }
  }

  lemma InsertKeeps(cfg: Config, w: World, id: Uuid, event: string, key: LaneKey, plane: Plane, modelLimit: nat, job: Option<Delegation>)
    requires Inv(cfg, w) && id !in w.db.runs && !EventTaken(w.db, event) && JobFits(w.db, key, plane, job)
    ensures Keeps(cfg, w, w.(db := Inserted(w.db, id, event, key, plane, modelLimit, job)))
  {
    var after := w.(db := Inserted(w.db, id, event, key, plane, modelLimit, job));
    LanesGrow(w.db, after.db, id, event, key, plane, modelLimit);
    RunsStayUnique(cfg, w.db, after.db, id, event, key, plane, modelLimit);
    RunsStayOk(cfg, w.db, id, event, key, plane, modelLimit, job);
    if job.Some? {
      assert RunOkAt(cfg, w.db, job.value.parent);
    }
    JobsGrow(cfg, w.db, id, event, key, plane, modelLimit, job);
    WorkersStayOk(cfg, w, after, id);
    InsertMovesForward(cfg, w, id, event, key, plane, modelLimit, job);
  }

  lemma EnqueueKeeps(cfg: Config, w: World, id: Uuid, event: string, key: LaneKey, plane: Plane, modelLimit: nat)
    requires Inv(cfg, w) && plane != Internal
    ensures Keeps(cfg, w, w.(db := Enqueue(w.db, id, event, key, plane, modelLimit).db))
  {
    if !EventTaken(w.db, event) && id !in w.db.runs {
      InsertKeeps(cfg, w, id, event, key, plane, modelLimit, None);
    } else {
      assert w.(db := Enqueue(w.db, id, event, key, plane, modelLimit).db) == w;
    }
  }

  lemma SpawnKeeps(cfg: Config, w: World, parent: Uuid, jobKey: string, child: Uuid, event: string, modelLimit: nat)
    requires Inv(cfg, w)
    ensures Keeps(cfg, w, w.(db := Spawn(w.db, parent, jobKey, child, event, modelLimit).db))
  {
    var after := Spawn(w.db, parent, jobKey, child, event, modelLimit).db;
    if after != w.db {
      var job := Some(Delegation(parent, jobKey, JobQueued));
      InsertKeeps(cfg, w, child, event, w.db.runs[parent].lane, Internal, modelLimit, job);
      assert after == Inserted(w.db, child, event, w.db.runs[parent].lane, Internal, modelLimit, job);
    } else {
      assert w.(db := after) == w;
    }
  }

  // ---------------------------------------------------------------- what a producer leaves behind

  /** A new run is queued for at once, with nothing used and nothing stored. */
  function Untried(event: string, key: LaneKey, sequence: nat, plane: Plane, modelLimit: nat, now: Time): Run {
    Run(event, key, sequence, plane, modelLimit, Queued, 0, now, None, None, None, None, None, None, 0, 0, 0, 0, 0)
  }

  /** What a lane counts up to; a lane that does not exist yet starts at one. */
  function NextIn(db: Db, key: LaneKey): nat { if key in db.lanes then db.lanes[key].nextEnqueue else 1 }

  function PositionIn(db: Db, key: LaneKey): nat { if key in db.lanes then db.lanes[key].nextDispatch else 1 }

  /** The run was added at the end of its lane, and the lane's counter moved past it. */
  predicate Appended(db: Db, after: Db, id: Uuid, event: string, key: LaneKey, plane: Plane, modelLimit: nat) {
    && after.runs == db.runs[id := Untried(event, key, NextIn(db, key), plane, modelLimit, db.now)]
    && after.lanes == db.lanes[key := Lane(NextIn(db, key) + 1, PositionIn(db, key))]
  }

  /** An event that has no run yet gets one, and a known one changes nothing and is no error. */
  lemma EnqueueIff(db: Db, id: Uuid, event: string, key: LaneKey, plane: Plane, modelLimit: nat)
    ensures var tx := Enqueue(db, id, event, key, plane, modelLimit);
            if exists known :: known in db.runs && db.runs[known].event == event then tx == Tx(db, Committed)
            else if id in db.runs then tx == Tx(db, Refused)
            else tx.outcome == Committed && Appended(db, tx.db, id, event, key, plane, modelLimit)
                 && tx.db == db.(runs := tx.db.runs, lanes := tx.db.lanes)
  {}

  /** A running run of a member's own lane gets a new child for a new key, behind itself in that lane. */
  lemma SpawnIff(db: Db, parent: Uuid, jobKey: string, child: Uuid, event: string, modelLimit: nat)
    ensures var tx := Spawn(db, parent, jobKey, child, event, modelLimit);
            if exists known :: known in db.delegations && db.delegations[known].parent == parent && db.delegations[known].key == jobKey
            then tx == Tx(db, Committed)
            else if && parent in db.runs && db.runs[parent].state == Running && db.runs[parent].plane == Passive
                    && child !in db.runs && (forall known | known in db.runs :: db.runs[known].event != event)
            then && tx.outcome == Committed
                 && Appended(db, tx.db, child, event, db.runs[parent].lane, Internal, modelLimit)
                 && tx.db.delegations == db.delegations[child := Delegation(parent, jobKey, JobQueued)]
                 && tx.db == db.(runs := tx.db.runs, lanes := tx.db.lanes, delegations := tx.db.delegations)
            else tx == Tx(db, Refused)
  {}
}

/** Lanes over whole runs of the system: order of release, and conservation of sequence numbers. */
module LaneOrder {
  import opened Wrappers
  import opened Rows
  import opened Phases
  import opened Transactions
  import opened Protocol
  import opened Frames
  import Safety

  lemma LaterByOne(cfg: Config, trace: seq<World>, steps: seq<Step>, i: nat)
    requires IsTrace(cfg, trace, steps) && i < |steps|
    ensures Later(trace[i], trace[i + 1])
  {
    Safety.TraceHolds(cfg, trace, steps, i);
    Safety.StepKeeps(cfg, trace[i], steps[i]);
  }

  lemma {:induction false} LaterInChain(worlds: seq<World>, i: nat, j: nat)
    requires i <= j < |worlds| && forall k: nat | k + 1 < |worlds| :: Later(worlds[k], worlds[k + 1])
    ensures Later(worlds[i], worlds[j])
    decreases j - i
  {
    if i == j {
      LaterReflexive(worlds[i]);
    } else {
      LaterInChain(worlds, i, j - 1);
      assert Later(worlds[j - 1], worlds[j - 1 + 1]);
      LaterTransitive(worlds[i], worlds[j - 1], worlds[j]);
    }
  }

  /** Rows only move forward between any two states of a trace. */
  lemma LaterInTrace(cfg: Config, trace: seq<World>, steps: seq<Step>, i: nat, j: nat)
    requires IsTrace(cfg, trace, steps) && i <= j < |trace|
    ensures Later(trace[i], trace[j])
  {
    forall k: nat | k + 1 < |trace| ensures Later(trace[k], trace[k + 1]) {
      LaterByOne(cfg, trace, steps, k);
    }
    LaterInChain(trace, i, j);
  }

  predicate ReleasedIn(db: Db, id: Uuid)
    requires id in db.runs
  {
    Released(db.runs[id], Lookup(db.deliveries, id))
  }

  function Position(db: Db, key: LaneKey): nat { LaneOf(db, key).nextDispatch }

  /**
   In every reachable state the dispatch position splits a lane in three: below it every run has released
   the lane, above it no run was ever claimed or given a delivery, and the run at it has not released it.
   */
  lemma LaneSplits(cfg: Config, trace: seq<World>, steps: seq<Step>, i: nat, id: Uuid)
    requires IsTrace(cfg, trace, steps) && i < |trace| && id in trace[i].db.runs
    ensures var db := trace[i].db; var r := db.runs[id];
            && (ReleasedIn(db, id) <==> r.sequence < Position(db, r.lane))
            && (r.sequence > Position(db, r.lane) ==> Untouched(r) && id !in db.deliveries && id !in db.calls)
            && (r.state in {Running, ReplyPending, DeliveryPending} || r.pendingApproval.Some? ==> r.sequence == Position(db, r.lane))
  {
    Safety.TraceHolds(cfg, trace, steps, i);
    assert RunOkAt(cfg, trace[i].db, id);
    LookupIs(trace[i].db.deliveries, id);
    LookupIs(trace[i].db.calls, id);
  }

  // ---------------------------------------------------------------- one step of a lane

  lemma WorkMovesLane(cfg: Config, db: Db, c: Claimed, work: Work, key: LaneKey)
    ensures Position(db, key) <= Position(DoWork(cfg, db, c, work).db, key) <= Position(db, key) + 1
  {}

  lemma SendMovesLane(cfg: Config, db: Db, s: Record, result: SendResult, key: LaneKey)
    ensures Position(db, key) <= Position(DoSend(cfg, db, s, result).db, key) <= Position(db, key) + 1
  {}

  /** No step moves a lane's position by more than one. */
  lemma PositionMovesByOne(cfg: Config, w: World, step: Step, key: LaneKey)
    requires Enabled(w, step)
    ensures Position(w.db, key) <= Position(Apply(cfg, w, step).db, key) <= Position(w.db, key) + 1
  {
    TransactMovesByOne(cfg, w, step, key);
  }

  lemma TransactMovesByOne(cfg: Config, w: World, step: Step, key: LaneKey)
    requires Enabled(w, step)
    ensures Position(w.db, key) <= Position(Transact(cfg, w, step).db, key) <= Position(w.db, key) + 1
  {
    match step
    case WorkStep(token, work) => WorkMovesLane(cfg, w.db, w.claims[token], work, key);
    case SendStep(token, result) => SendMovesLane(cfg, w.db, w.sends[token], result, key);
    case _ =>
  }

  /**
   The runs of a lane release it in the order they were enqueued: when a step leaves `b` released,
   every earlier run of the lane had released it before that step.
   */
  lemma ReleasedInOrder(cfg: Config, trace: seq<World>, steps: seq<Step>, i: nat, a: Uuid, b: Uuid)
    requires IsTrace(cfg, trace, steps) && i < |steps|
    requires a in trace[i].db.runs && b in trace[i].db.runs
    requires trace[i].db.runs[a].lane == trace[i].db.runs[b].lane
    requires trace[i].db.runs[a].sequence < trace[i].db.runs[b].sequence
    requires b in trace[i + 1].db.runs && ReleasedIn(trace[i + 1].db, b)
    ensures ReleasedIn(trace[i].db, a)
  {
    LaterInTrace(cfg, trace, steps, i, i + 1);
    assert RunLater(trace[i].db, trace[i + 1].db, b);
    LaneSplits(cfg, trace, steps, i, a);
    LaneSplits(cfg, trace, steps, i, b);
    LaneSplits(cfg, trace, steps, i + 1, b);
    PositionMovesByOne(cfg, trace[i], steps[i], trace[i].db.runs[b].lane);
  }

  /** A released run stays released, so every run releases its lane at most once. */
  lemma ReleasedForGood(cfg: Config, trace: seq<World>, steps: seq<Step>, i: nat, j: nat, id: Uuid)
    requires IsTrace(cfg, trace, steps) && i <= j < |trace|
    requires id in trace[i].db.runs && ReleasedIn(trace[i].db, id)
    ensures id in trace[j].db.runs && ReleasedIn(trace[j].db, id)
  {
    LaterInTrace(cfg, trace, steps, i, j);
    assert RunLater(trace[i].db, trace[j].db, id);
  }

  /** A lane moves in a step exactly when the run at its position releases it there. */
  lemma LaneMovesIffReleased(cfg: Config, trace: seq<World>, steps: seq<Step>, i: nat, id: Uuid)
    requires IsTrace(cfg, trace, steps) && i < |steps| && id in trace[i].db.runs
    requires trace[i].db.runs[id].sequence == Position(trace[i].db, trace[i].db.runs[id].lane)
    ensures id in trace[i + 1].db.runs
    ensures Position(trace[i + 1].db, trace[i].db.runs[id].lane) ==
            Position(trace[i].db, trace[i].db.runs[id].lane) + One(ReleasedIn(trace[i + 1].db, id))
  {
    LaterInTrace(cfg, trace, steps, i, i + 1);
    assert RunLater(trace[i].db, trace[i + 1].db, id);
    LaneSplits(cfg, trace, steps, i + 1, id);
    PositionMovesByOne(cfg, trace[i], steps[i], trace[i].db.runs[id].lane);
  }

  // ---------------------------------------------------------------- conservation

  function Below(db: Db, key: LaneKey, bound: nat): set<Uuid> {
    set id | id in db.runs && db.runs[id].lane == key && db.runs[id].sequence < bound
  }

  lemma {:induction false} BelowCounts(cfg: Config, db: Db, key: LaneKey, bound: nat)
    requires LanesFilled(db) && RunsUnique(db) && RunsOk(cfg, db)
    requires key in db.lanes && 1 <= bound <= db.lanes[key].nextEnqueue
    ensures |Below(db, key, bound)| == bound - 1
    decreases bound
  {
    assert LaneFilled(db, key);
    if bound == 1 {
      forall id | id in db.runs && db.runs[id].lane == key ensures db.runs[id].sequence >= 1 {
        assert RunOkAt(cfg, db, id);
      }
      assert Below(db, key, 1) == {};
    } else {
      assert Filled(db, key, bound - 1);
      var top :| Occupies(db, key, bound - 1, top);
      BelowCounts(cfg, db, key, bound - 1);
      forall id | id in db.runs && db.runs[id].lane == key && db.runs[id].sequence == bound - 1 ensures id == top {
        assert Apart(db, id, top);
      }
      assert Below(db, key, bound) == Below(db, key, bound - 1) + {top};
    }
  }

  /**
   Across all three producers and any repetition of events, a lane's runs carry exactly the numbers
   below its enqueue counter, each once, and exactly those below its dispatch position have released it.
   */
  lemma SequencesConserved(cfg: Config, trace: seq<World>, steps: seq<Step>, i: nat, key: LaneKey)
    requires IsTrace(cfg, trace, steps) && i < |trace| && key in trace[i].db.lanes
    ensures var db := trace[i].db;
            && (forall q: nat :: 1 <= q < db.lanes[key].nextEnqueue <==> Filled(db, key, q))
            && (forall a, b, q: nat | Occupies(db, key, q, a) && Occupies(db, key, q, b) :: a == b)
            && |set id | id in db.runs && db.runs[id].lane == key| == db.lanes[key].nextEnqueue - 1
            && |set id | id in db.runs && db.runs[id].lane == key && ReleasedIn(db, id)| == db.lanes[key].nextDispatch - 1
  {
    var db := trace[i].db;
    var lane := db.lanes[key];
    Safety.TraceHolds(cfg, trace, steps, i);
    assert LaneFilled(db, key);
    forall id | id in db.runs && db.runs[id].lane == key
      ensures 1 <= db.runs[id].sequence < lane.nextEnqueue
      ensures ReleasedIn(db, id) <==> db.runs[id].sequence < lane.nextDispatch
    {
      assert RunOkAt(cfg, db, id);
    }
    forall a, b, q: nat | Occupies(db, key, q, a) && Occupies(db, key, q, b) ensures a == b {
      assert Apart(db, a, b);
    }
    BelowCounts(cfg, db, key, lane.nextEnqueue);
    BelowCounts(cfg, db, key, lane.nextDispatch);
    assert (set id | id in db.runs && db.runs[id].lane == key) == Below(db, key, lane.nextEnqueue);
    assert (set id | id in db.runs && db.runs[id].lane == key && ReleasedIn(db, id)) == Below(db, key, lane.nextDispatch);
  }

  /** Once an event has produced a run, presenting it again changes nothing, however much later. */
  lemma EventsAreAbsorbed(cfg: Config, trace: seq<World>, steps: seq<Step>, i: nat, j: nat, id: Uuid)
    requires IsTrace(cfg, trace, steps) && i <= j < |steps| && id in trace[i].db.runs
    requires steps[j].EnqueueStep? && steps[j].event == trace[i].db.runs[id].event
    ensures trace[j + 1] == trace[j]
  {
    LaterInTrace(cfg, trace, steps, i, j);
    assert RunLater(trace[i].db, trace[j].db, id);
    assert EventTaken(trace[j].db, steps[j].event);
  }

  // ---------------------------------------------------------------- a number without a run

  /** A lane whose dispatch position has no run serves none of its runs, at any time and under any limit. */
  lemma EmptyPositionBlocks(db: Db, key: LaneKey, id: Uuid, t: Time, max: nat)
    requires key in db.lanes && !Filled(db, key, db.lanes[key].nextDispatch)
    requires id in db.runs && db.runs[id].lane == key
    ensures !Claimable(db.(now := t, pausedRuns := {}), id, max)
  {
    assert !Occupies(db, key, db.lanes[key].nextDispatch, id);
  }
}

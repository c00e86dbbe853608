/**
 What becomes of a lane that gave out a sequence number no run ever got.  Two concurrent copies of one event
 can both miss its run and both take a number; the second insert then finds the event taken, and its number
 stays without a run.  `Protocol` runs each producer as one step, so here its steps are mixed with such losses,
 of any number in any lane at any time.
 */
module LostNumbers {
  import opened Rows
  import opened Transactions
  import opened Protocol
  import LaneOrder

  /** What is left when an insert finds its event taken after the number was given out. */
  function NumberLost(db: Db, key: LaneKey): Db {
    var lane := LaneOf(db, key);
    db.(lanes := db.lanes[key := lane.(nextEnqueue := lane.nextEnqueue + 1)])
  }

  datatype Move = Ordinary(step: Step) | Loses(key: LaneKey)

  predicate May(w: World, move: Move) { move.Ordinary? ==> Enabled(w, move.step) }

  function Moved(cfg: Config, w: World, move: Move): World
    requires May(w, move)
  {
    match move
    case Ordinary(step) => Apply(cfg, w, step)
    case Loses(key) => w.(db := NumberLost(w.db, key))
  }

  /** A run of the system in which numbers may be lost. */
  ghost predicate IsLossyTrace(cfg: Config, trace: seq<World>, moves: seq<Move>) {
    && |trace| == |moves| + 1
    && Init(trace[0])
    && forall i | 0 <= i < |moves| :: May(trace[i], moves[i]) && trace[i + 1] == Moved(cfg, trace[i], moves[i])
  }

  // ---------------------------------------------------------------- places in lanes

  predicate SamePlace(r: Run, after: Run) { after.lane == r.lane && after.sequence == r.sequence }

  lemma WorkKeepsPlace(cfg: Config, db: Db, c: Claimed, work: Work, id: Uuid)
    requires id in db.runs
    ensures id in DoWork(cfg, db, c, work).db.runs && SamePlace(db.runs[id], DoWork(cfg, db, c, work).db.runs[id])
  {}

  lemma SendKeepsPlace(cfg: Config, db: Db, s: Record, result: SendResult, id: Uuid)
    requires id in db.runs
    ensures id in DoSend(cfg, db, s, result).db.runs && SamePlace(db.runs[id], DoSend(cfg, db, s, result).db.runs[id])
  {}

  lemma RunKeepsPlace(cfg: Config, w: World, step: Step, id: Uuid)
    requires Enabled(w, step) && id in w.db.runs
    ensures id in Transact(cfg, w, step).db.runs && SamePlace(w.db.runs[id], Transact(cfg, w, step).db.runs[id])
  {
    match step
    case WorkStep(token, work) => WorkKeepsPlace(cfg, w.db, w.claims[token], work, id);
    case SendStep(token, result) => SendKeepsPlace(cfg, w.db, w.sends[token], result, id);
    case _ =>
  }

  lemma WorkAddsNoRun(cfg: Config, db: Db, c: Claimed, work: Work)
    ensures DoWork(cfg, db, c, work).db.runs.Keys == db.runs.Keys
  {}

  lemma SendAddsNoRun(cfg: Config, db: Db, s: Record, result: SendResult)
    ensures DoSend(cfg, db, s, result).db.runs.Keys == db.runs.Keys
  {}

  /** A new run gets the number its lane's counter stood at, and the counter moves past it. */
  lemma NewRunTakesNext(cfg: Config, w: World, step: Step, id: Uuid)
    requires Enabled(w, step) && id !in w.db.runs && id in Transact(cfg, w, step).db.runs
    ensures var after := Transact(cfg, w, step).db;
            after.runs[id].sequence == LaneOf(w.db, after.runs[id].lane).nextEnqueue < LaneOf(after, after.runs[id].lane).nextEnqueue
  {
    match step
    case WorkStep(token, work) => WorkAddsNoRun(cfg, w.db, w.claims[token], work);
    case SendStep(token, result) => SendAddsNoRun(cfg, w.db, w.sends[token], result);
    case _ =>
  }

  function Counter(db: Db, key: LaneKey): nat { LaneOf(db, key).nextEnqueue }

  lemma WorkKeepsCounter(cfg: Config, db: Db, c: Claimed, work: Work, key: LaneKey)
    ensures Counter(DoWork(cfg, db, c, work).db, key) == Counter(db, key)
  {}

  lemma SendKeepsCounter(cfg: Config, db: Db, s: Record, result: SendResult, key: LaneKey)
    ensures Counter(DoSend(cfg, db, s, result).db, key) == Counter(db, key)
  {}

  lemma CounterGrows(cfg: Config, w: World, step: Step, key: LaneKey)
    requires Enabled(w, step)
    ensures Counter(Transact(cfg, w, step).db, key) >= Counter(w.db, key)
  {
    match step
    case WorkStep(token, work) => WorkKeepsCounter(cfg, w.db, w.claims[token], work, key);
    case SendStep(token, result) => SendKeepsCounter(cfg, w.db, w.sends[token], result, key);
    case _ =>
  }

  // ---------------------------------------------------------------- a lane moves only past a run

  /** The snapshot was taken of a run that is still there, in the place it had. */
  predicate Rooted(db: Db, c: Claimed) { c.id in db.runs && SamePlace(c.row, db.runs[c.id]) }

  lemma WorkMovesPastRun(cfg: Config, db: Db, c: Claimed, work: Work, key: LaneKey)
    requires Rooted(db, c) && LaneOrder.Position(DoWork(cfg, db, c, work).db, key) != LaneOrder.Position(db, key)
    ensures Filled(db, key, LaneOrder.Position(db, key))
  {
    assert Occupies(db, key, LaneOrder.Position(db, key), c.id);
  }

  lemma SendMovesPastRun(cfg: Config, db: Db, s: Record, result: SendResult, key: LaneKey)
    requires LaneOrder.Position(DoSend(cfg, db, s, result).db, key) != LaneOrder.Position(db, key)
    ensures Filled(db, key, LaneOrder.Position(db, key))
  {
    assert Occupies(db, key, LaneOrder.Position(db, key), s.id);
  }

  lemma RecoveryMovesPastRun(db: Db, max: nat, key: LaneKey)
    requires LaneOrder.Position(FailExhausted(db, max), key) != LaneOrder.Position(db, key)
    ensures Filled(db, key, LaneOrder.Position(db, key))
  {
    var id :| id in db.runs && Recovered(db, ExhaustedSet(db, max), id) && db.runs[id].lane == key && OwnsPosition(db, db.runs[id]);
    assert Occupies(db, key, LaneOrder.Position(db, key), id);
  }

  /** Whatever moves a lane moves it past a run that is at its position. */
  lemma StepMovesPastRun(cfg: Config, w: World, step: Step, key: LaneKey)
    requires Enabled(w, step) && (step.WorkStep? ==> Rooted(w.db, w.claims[step.token]))
    requires LaneOrder.Position(Transact(cfg, w, step).db, key) != LaneOrder.Position(w.db, key)
    ensures Filled(w.db, key, LaneOrder.Position(w.db, key))
  {
    match step
    case WorkStep(token, work) => WorkMovesPastRun(cfg, w.db, w.claims[token], work, key);
    case SendStep(token, result) => SendMovesPastRun(cfg, w.db, w.sends[token], result, key);
    case RecoverStep => RecoveryMovesPastRun(w.db, cfg.sendLimit, key);
    case _ =>
  }

  // ---------------------------------------------------------------- what losses leave intact

  predicate Numbered(db: Db, id: Uuid)
    requires id in db.runs
  {
    db.runs[id].sequence < Counter(db, db.runs[id].lane)
  }

  /** No run is numbered past its lane's counter, no lane is ahead of its counter, and snapshots are rooted. */
  ghost predicate Sound(w: World) {
    && (forall id {:trigger Numbered(w.db, id)} | id in w.db.runs :: Numbered(w.db, id))
    && (forall key :: LaneOrder.Position(w.db, key) <= Counter(w.db, key))
    && (forall token {:trigger w.claims[token]} | token in w.claims :: Rooted(w.db, w.claims[token]))
  }

  lemma FilledIsBelow(w: World, key: LaneKey, number: nat)
    requires Sound(w) && Filled(w.db, key, number)
    ensures number < Counter(w.db, key)
  {
    var id :| Occupies(w.db, key, number, id);
    assert Numbered(w.db, id);
  }

  lemma RunStaysNumbered(cfg: Config, w: World, step: Step, id: Uuid)
    requires Sound(w) && Enabled(w, step) && id in Transact(cfg, w, step).db.runs
    ensures Numbered(Transact(cfg, w, step).db, id)
  {
    if id in w.db.runs {
      assert Numbered(w.db, id);
      RunKeepsPlace(cfg, w, step, id);
      CounterGrows(cfg, w, step, w.db.runs[id].lane);
    } else {
      NewRunTakesNext(cfg, w, step, id);
    }
  }

  lemma LaneStaysBehind(cfg: Config, w: World, step: Step, key: LaneKey)
    requires Sound(w) && Enabled(w, step)
    ensures LaneOrder.Position(Transact(cfg, w, step).db, key) <= Counter(Transact(cfg, w, step).db, key)
  {
    CounterGrows(cfg, w, step, key);
    LaneOrder.TransactMovesByOne(cfg, w, step, key);
    if LaneOrder.Position(Transact(cfg, w, step).db, key) != LaneOrder.Position(w.db, key) {
      StepMovesPastRun(cfg, w, step, key);
      FilledIsBelow(w, key, LaneOrder.Position(w.db, key));
    }
  }

  lemma SnapshotsStayRooted(cfg: Config, w: World, step: Step, token: Token)
    requires Sound(w) && Enabled(w, step) && token in Apply(cfg, w, step).claims
    ensures Rooted(Apply(cfg, w, step).db, Apply(cfg, w, step).claims[token])
  {
    if token in w.claims {
      assert Rooted(w.db, w.claims[token]) && Apply(cfg, w, step).claims[token] == w.claims[token];
      RunKeepsPlace(cfg, w, step, w.claims[token].id);
    }
  }

  lemma StepKeepsSound(cfg: Config, w: World, step: Step)
    requires Sound(w) && Enabled(w, step)
    ensures Sound(Apply(cfg, w, step))
  {
    var after := Apply(cfg, w, step);
    forall id | id in after.db.runs ensures Numbered(after.db, id) { RunStaysNumbered(cfg, w, step, id); }
    forall key ensures LaneOrder.Position(after.db, key) <= Counter(after.db, key) { LaneStaysBehind(cfg, w, step, key); }
    forall token | token in after.claims ensures Rooted(after.db, after.claims[token]) {
      SnapshotsStayRooted(cfg, w, step, token);
    }
  }

  lemma LossKeepsSound(w: World, key: LaneKey)
    requires Sound(w)
    ensures Sound(w.(db := NumberLost(w.db, key)))
  {
    var after := w.(db := NumberLost(w.db, key));
    forall id | id in after.db.runs ensures Numbered(after.db, id) { assert Numbered(w.db, id); }
    forall lane ensures LaneOrder.Position(after.db, lane) <= Counter(after.db, lane) {
      assert LaneOrder.Position(w.db, lane) <= Counter(w.db, lane);
    }
    forall token | token in after.claims ensures Rooted(after.db, after.claims[token]) {
      assert Rooted(w.db, w.claims[token]);
    }
  }

  lemma {:induction false} SoundInTrace(cfg: Config, trace: seq<World>, moves: seq<Move>, i: nat)
    requires IsLossyTrace(cfg, trace, moves) && i < |trace|
    ensures Sound(trace[i])
  {
    if i > 0 {
      SoundInTrace(cfg, trace, moves, i - 1);
      match moves[i - 1]
      case Ordinary(step) => StepKeepsSound(cfg, trace[i - 1], step);
      case Loses(key) => LossKeepsSound(trace[i - 1], key);
    }
  }

  // ---------------------------------------------------------------- the lane with the lost number

  /** The number was given out, no run has it, and the lane has not moved past it. */
  ghost predicate Gap(db: Db, key: LaneKey, lost: nat) {
    lost < Counter(db, key) && !Filled(db, key, lost) && LaneOrder.Position(db, key) <= lost
  }

  lemma NumberStaysFree(cfg: Config, w: World, step: Step, key: LaneKey, lost: nat, id: Uuid)
    requires Enabled(w, step) && Gap(w.db, key, lost)
    ensures !Occupies(Transact(cfg, w, step).db, key, lost, id)
  {
    if id in w.db.runs {
      RunKeepsPlace(cfg, w, step, id);
      assert !Occupies(w.db, key, lost, id);
    } else if id in Transact(cfg, w, step).db.runs {
      NewRunTakesNext(cfg, w, step, id);
    }
  }

  lemma StepKeepsGap(cfg: Config, w: World, step: Step, key: LaneKey, lost: nat)
    requires Sound(w) && Enabled(w, step) && Gap(w.db, key, lost)
    ensures Gap(Apply(cfg, w, step).db, key, lost)
    ensures LaneOrder.Position(w.db, key) == lost ==> LaneOrder.Position(Apply(cfg, w, step).db, key) == lost
  {
    var after := Transact(cfg, w, step).db;
    CounterGrows(cfg, w, step, key);
    LaneOrder.TransactMovesByOne(cfg, w, step, key);
    if LaneOrder.Position(after, key) != LaneOrder.Position(w.db, key) {
      StepMovesPastRun(cfg, w, step, key);
    }
    forall id ensures !Occupies(after, key, lost, id) {
      NumberStaysFree(cfg, w, step, key, lost, id);
    }
  }

  lemma LossKeepsGap(db: Db, other: LaneKey, key: LaneKey, lost: nat)
    requires Gap(db, key, lost)
    ensures Gap(NumberLost(db, other), key, lost)
    ensures LaneOrder.Position(NumberLost(db, other), key) == LaneOrder.Position(db, key)
  {
    forall id ensures !Occupies(NumberLost(db, other), key, lost, id) {
      assert !Occupies(db, key, lost, id);
    }
  }

  lemma LossLeavesGap(w: World, key: LaneKey)
    requires Sound(w)
    ensures Gap(NumberLost(w.db, key), key, Counter(w.db, key))
  {
    forall id ensures !Occupies(NumberLost(w.db, key), key, Counter(w.db, key), id) {
      assert id in w.db.runs ==> Numbered(w.db, id);
    }
  }

  lemma GapStaysAt(cfg: Config, trace: seq<World>, moves: seq<Move>, k: nat, key: LaneKey, lost: nat)
    requires IsLossyTrace(cfg, trace, moves) && k < |moves| && Gap(trace[k].db, key, lost)
    ensures Gap(trace[k + 1].db, key, lost)
    ensures LaneOrder.Position(trace[k].db, key) == lost ==> LaneOrder.Position(trace[k + 1].db, key) == lost
  {
    SoundInTrace(cfg, trace, moves, k);
    match moves[k]
    case Ordinary(step) => StepKeepsGap(cfg, trace[k], step, key, lost);
    case Loses(other) => LossKeepsGap(trace[k].db, other, key, lost);
  }

  lemma GapStays(cfg: Config, trace: seq<World>, moves: seq<Move>, i: nat, j: nat, key: LaneKey, lost: nat)
    requires IsLossyTrace(cfg, trace, moves) && i <= j < |trace| && Gap(trace[i].db, key, lost)
    ensures Gap(trace[j].db, key, lost)
    ensures LaneOrder.Position(trace[i].db, key) == lost ==> LaneOrder.Position(trace[j].db, key) == lost
  {
    for k := i to j
      invariant Gap(trace[k].db, key, lost)
      invariant LaneOrder.Position(trace[i].db, key) == lost ==> LaneOrder.Position(trace[k].db, key) == lost
    {
      GapStaysAt(cfg, trace, moves, k, key, lost);
    }
  }

  /** A number that was lost belongs to no run ever after, and its lane never moves past it. */
  lemma LostNumberStaysEmpty(cfg: Config, trace: seq<World>, moves: seq<Move>, i: nat, j: nat)
    requires IsLossyTrace(cfg, trace, moves) && i < j < |trace| && moves[i].Loses?
    ensures var key := moves[i].key;
            var lost := Counter(trace[i].db, key);
            !Filled(trace[j].db, key, lost) && LaneOrder.Position(trace[j].db, key) <= lost
  {
    SoundInTrace(cfg, trace, moves, i);
    LossLeavesGap(trace[i], moves[i].key);
    GapStays(cfg, trace, moves, i + 1, j, moves[i].key, Counter(trace[i].db, moves[i].key));
  }

  /** Once the lane gets to the lost number it stays there for ever, and none of its runs is claimable at any time. */
  lemma LaneStopsAtLostNumber(cfg: Config, trace: seq<World>, moves: seq<Move>, i: nat, j: nat, k: nat, id: Uuid, t: Time, max: nat)
    requires IsLossyTrace(cfg, trace, moves) && i < j <= k < |trace| && moves[i].Loses?
    requires LaneOrder.Position(trace[j].db, moves[i].key) == Counter(trace[i].db, moves[i].key)
    ensures LaneOrder.Position(trace[k].db, moves[i].key) == Counter(trace[i].db, moves[i].key)
    ensures id in trace[k].db.runs && trace[k].db.runs[id].lane == moves[i].key ==>
              !Claimable(trace[k].db.(now := t, pausedRuns := {}), id, max)
  {
    var key, lost := moves[i].key, Counter(trace[i].db, moves[i].key);
    SoundInTrace(cfg, trace, moves, i);
    LossLeavesGap(trace[i], key);
    GapStays(cfg, trace, moves, i + 1, j, key, lost);
    GapStays(cfg, trace, moves, j, k, key, lost);
    if id in trace[k].db.runs && trace[k].db.runs[id].lane == key {
      LaneOrder.EmptyPositionBlocks(trace[k].db, key, id, t, max);
    }
  }
}

/** What a whole turn of a run worker leaves in the tables. */
module TurnOutcomes {
  import opened Wrappers
  import opened Rows
  import opened Phases
  import opened Transactions
  import opened Protocol
  import opened AgentWorker
  import opened Frames
  import LaneOrder
  import Leases
  import Liveness
  import WorkerSteps

  /** A turn of the worker that holds `token`, as `Worker.Turn` ends it. */
  ghost predicate HolderTurns(cfg: Config, w: World, token: Token, a: Answers, after: Db, work: Option<Work>, outcome: Outcome) {
    && Inv(cfg, w) && token in w.claims && Held(w.db, w.claims[token])
    && Turned(cfg, w.db, after, w.claims[token], work, outcome)
    && Took(a, w.claims[token].row, work)
  }

  /** The phase's counter is below its limit: the workers' own, and in the model phase also the agent version's. */
  predicate AttemptLeft(cfg: Config, r: Run) {
    Counter(r, PhaseOf(r)) < cfg.runLimit && (PhaseOf(r) == Model ==> r.modelAttempts < r.modelLimit)
  }

  /** The run is at rest again: only its own row changed, and it can be claimed from the end of the delay on. */
  ghost predicate PutBack(cfg: Config, db: Db, after: Db, id: Uuid, delay: nat)
    requires id in db.runs
  {
    && after == db.(runs := db.runs[id := db.runs[id].(
                      state := if db.runs[id].candidate.None? then Queued else ReplyPending,
                      lease := None, availableAt := db.now + delay)])
    && LaneOrder.Position(after, db.runs[id].lane) == db.runs[id].sequence
    && forall t: Time, token: Token ::
         Claim(Liveness.At(after, t), {}, id, token, t, cfg.runLimit).outcome == Committed <==> t >= db.now + delay
  }

  lemma RetryPutsBack(cfg: Config, w: World, token: Token, delay: nat)
    requires Inv(cfg, w) && token in w.claims && Held(w.db, w.claims[token]) && AttemptLeft(cfg, w.claims[token].row)
    ensures DoWork(cfg, w.db, w.claims[token], Retry(delay)).outcome == Committed
    ensures w.claims[token].id in w.db.runs
    ensures PutBack(cfg, w.db, DoWork(cfg, w.db, w.claims[token], Retry(delay)).db, w.claims[token].id, delay)
  {
    var c := w.claims[token];
    WorkerSteps.HolderIsRow(cfg, w, token);
    assert ClaimOk(cfg, w.db, token, c);
    EncodingsAgree(c.row, cfg.runLimit);
    var after := DoWork(cfg, w.db, c, Retry(delay)).db;
    forall t: Time, other: Token
      ensures Claim(Liveness.At(after, t), {}, c.id, other, t, cfg.runLimit).outcome == Committed <==> t >= w.db.now + delay
    {
      Leases.RunClaimIff(Liveness.At(after, t), {}, c.id, other, t, cfg.runLimit);
    }
  }

  /** Whoever the phase of the run asks answered with an error. */
  predicate Errs(a: Answers, r: Run) {
    match PhaseOf(r)
    case Routing => a.route.None?
    case Planning => a.toolVisible && a.plan.None?
    case Execution => a.toolVisible && a.argumentsDecoded && a.tool == ToolError
    case Model =>
      && a.generated.None? && r.route.value.status != Clarified && r.route.value.operation != Some(CreateTicket)
      && (ToolRoute(r) ==> a.toolVisible && a.resultDecoded)
      && (r.route.value.operation == Some(KnowledgeSearch) ==> a.evidence != Some([]))
    case Finalization => !a.target
  }

  lemma ErrorsMeanRetry(a: Answers, r: Run, work: Option<Work>)
    requires Shape(r) && Took(a, r, work) && a.contextBound && a.catalog.CatalogLoaded? && a.snapshotLoaded && Errs(a, r)
    ensures work.Some? && work.value.Retry? && work.value.delay == DelayAfter(r.attempts)
  {}

  /**
   An error of whoever the phase asks - router, planner, tool, search, model, delivery target - costs the run one
   attempt and nothing else while its phase has attempts left: it rests where it is and is tried again.
   */
  lemma ErrorsAreRetried(cfg: Config, w: World, token: Token, a: Answers, after: Db, work: Option<Work>, outcome: Outcome)
    requires HolderTurns(cfg, w, token, a, after, work, outcome) && AttemptLeft(cfg, w.claims[token].row)
    requires a.contextBound && a.catalog.CatalogLoaded? && a.snapshotLoaded && Errs(a, w.claims[token].row)
    ensures outcome == Committed && w.claims[token].id in w.db.runs
    ensures PutBack(cfg, w.db, after, w.claims[token].id, DelayAfter(w.claims[token].row.attempts))
  {
    assert ClaimOk(cfg, w.db, token, w.claims[token]);
    ErrorsMeanRetry(a, w.claims[token].row, work);
    RetryPutsBack(cfg, w, token, work.value.delay);
  }

  /** The run failed, its lane moved on and its job failed with it. */
  ghost predicate FailedForGood(db: Db, after: Db, r: Run, id: Uuid) {
    && id in after.runs && after.runs[id] == r.(state := Failed, lease := None)
    && LaneOrder.Position(after, r.lane) == LaneOrder.Position(db, r.lane) + 1
    && (r.plane == Internal ==> id in after.delegations && after.delegations[id].state == JobFailed)
  }

  lemma HolderFails(cfg: Config, w: World, token: Token, work: Work)
    requires Inv(cfg, w) && token in w.claims && Held(w.db, w.claims[token])
    requires work.GiveUp? || (work.Retry? && Counter(w.claims[token].row, PhaseOf(w.claims[token].row)) >= RetryLimit(cfg, w.claims[token].row))
    ensures DoWork(cfg, w.db, w.claims[token], work).outcome == Committed
    ensures FailedForGood(w.db, DoWork(cfg, w.db, w.claims[token], work).db, w.claims[token].row, w.claims[token].id)
  {
    var c := w.claims[token];
    WorkerSteps.HolderIsRow(cfg, w, token);
    assert ClaimOk(cfg, w.db, token, c);
    EncodingsAgree(c.row, cfg.runLimit);
    LookupIs(w.db.delegations, c.id);
  }

  /** Where asking again cannot help, the first turn that notices fails the run for good. */
  lemma StopsFailAtOnce(cfg: Config, w: World, token: Token, a: Answers, after: Db, work: Option<Work>, outcome: Outcome)
    requires HolderTurns(cfg, w, token, a, after, work, outcome) && MustStop(a, w.claims[token].row)
    ensures outcome == Committed && FailedForGood(w.db, after, w.claims[token].row, w.claims[token].id)
  {
    HolderFails(cfg, w, token, GiveUp);
  }

  /** Errors fail the run for good when the phase has used up the attempts it may make. */
  lemma LastErrorFails(cfg: Config, w: World, token: Token, a: Answers, after: Db, work: Option<Work>, outcome: Outcome)
    requires HolderTurns(cfg, w, token, a, after, work, outcome)
    requires a.contextBound && a.catalog.CatalogLoaded? && a.snapshotLoaded && Errs(a, w.claims[token].row)
    requires var r := w.claims[token].row;
             Counter(r, PhaseOf(r)) >= if PhaseOf(r) == Model then r.modelLimit else cfg.runLimit
    ensures outcome == Committed && FailedForGood(w.db, after, w.claims[token].row, w.claims[token].id)
  {
    assert ClaimOk(cfg, w.db, token, w.claims[token]);
    EncodingsAgree(w.claims[token].row, cfg.runLimit);
    ErrorsMeanRetry(a, w.claims[token].row, work);
    HolderFails(cfg, w, token, work.value);
  }
}

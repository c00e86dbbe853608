/** Every step keeps the invariant, so it holds in every state of every run of the system. */
module Safety {
  import opened Rows
  import opened Phases
  import opened Transactions
  import opened Protocol
  import opened Frames
  import CallSteps
  import ClaimSteps
  import Producers
  import Recovery
  import SendSteps
  import WorkerSteps

  lemma InitHolds(cfg: Config, w: World)
    requires Init(w)
    ensures Inv(cfg, w)
  {}

  lemma ApplyClaim(cfg: Config, w: World, step: Step)
    requires Enabled(w, step) && step.ClaimStep?
    ensures var tx := Claim(w.db, step.chosen, step.run, step.token, w.db.now + step.lease, cfg.runLimit);
            Apply(cfg, w, step) ==
            if tx.outcome == Committed then w.(db := tx.db, claims := w.claims[step.token := Claimed(step.run, tx.db.runs[step.run])]) else w
  {}

  lemma ApplyClaimSend(cfg: Config, w: World, step: Step)
    requires Enabled(w, step) && step.ClaimSendStep?
    ensures var tx := ClaimDelivery(w.db, step.run, step.token, w.db.now + step.lease, cfg.sendLimit);
            Apply(cfg, w, step) ==
            if Sendable(w.db, step.run, cfg.sendLimit)
            then w.(db := tx.db, sends := w.sends[step.token := Record(step.run, tx.db.deliveries[step.run])],
                     unsent := w.unsent + {step.token}) else w
  {}

  lemma ApplyPlain(cfg: Config, w: World, step: Step)
    requires Enabled(w, step) && !step.ClaimStep? && !step.ClaimSendStep? && !step.TransmitStep?
    ensures Apply(cfg, w, step) == w.(db := Transact(cfg, w, step).db)
  {}

  lemma ClaimStepKeeps(cfg: Config, w: World, step: Step)
    requires Inv(cfg, w) && Enabled(w, step) && step.ClaimStep?
    ensures Keeps(cfg, w, Apply(cfg, w, step))
  {
    ApplyClaim(cfg, w, step);
    var tx := Claim(w.db, step.chosen, step.run, step.token, w.db.now + step.lease, cfg.runLimit);
    if tx.outcome == Committed {
      ClaimSteps.ClaimKeeps(cfg, w, step.chosen, step.run, step.token, w.db.now + step.lease);
    }
  }

  lemma ClaimSendStepKeeps(cfg: Config, w: World, step: Step)
    requires Inv(cfg, w) && Enabled(w, step) && step.ClaimSendStep?
    ensures Keeps(cfg, w, Apply(cfg, w, step))
  {
    ApplyClaimSend(cfg, w, step);
    if Sendable(w.db, step.run, cfg.sendLimit) {
      SendSteps.ClaimSendKeeps(cfg, w, step.run, step.token, w.db.now + step.lease);
    }
  }

  lemma TransactKeeps(cfg: Config, w: World, step: Step)
    requires Inv(cfg, w) && Enabled(w, step) && !step.ClaimStep? && !step.ClaimSendStep? && !step.TransmitStep?
    ensures Keeps(cfg, w, w.(db := Transact(cfg, w, step).db))
  {
    match step {
      case Tick(seconds) =>
        ClaimSteps.EnvironmentKeeps(cfg, w, w.db.now + seconds, w.db.pausedRuns, w.db.pausedDeliveries);
      case PauseRuns(tenant, paused) =>
        ClaimSteps.EnvironmentKeeps(cfg, w, w.db.now, Toggle(w.db.pausedRuns, tenant, paused), w.db.pausedDeliveries);
      case PauseDeliveries(tenant, paused) =>
        ClaimSteps.EnvironmentKeeps(cfg, w, w.db.now, w.db.pausedRuns, Toggle(w.db.pausedDeliveries, tenant, paused));
      case EnqueueStep(run, event, key, plane, modelLimit) => Producers.EnqueueKeeps(cfg, w, run, event, key, plane, modelLimit);
      case SpawnStep(parent, jobKey, run, event, modelLimit) => Producers.SpawnKeeps(cfg, w, parent, jobKey, run, event, modelLimit);
      case WorkStep(token, work) => WorkerSteps.WorkKeeps(cfg, w, token, work);
      case ToolStep(token, tool) => CallSteps.ToolKeeps(cfg, w, token, tool);
      case DecideStep(run, approval, approve) => CallSteps.DecideKeeps(cfg, w, run, approval, approve);
      case RecoverStep => Recovery.RecoverKeeps(cfg, w);
      case SendStep(token, result) => SendSteps.SendKeeps(cfg, w, token, result);
      case ActionStep(run, succeeded) => ClaimSteps.ActionKeeps(cfg, w, run, if succeeded then Succeeded else Failed);
    }
  }

  lemma StepKeeps(cfg: Config, w: World, step: Step)
    requires Inv(cfg, w) && Enabled(w, step)
    ensures Keeps(cfg, w, Apply(cfg, w, step))
  {
    if step.ClaimStep? {
      ClaimStepKeeps(cfg, w, step);
    } else if step.ClaimSendStep? {
      ClaimSendStepKeeps(cfg, w, step);
    } else if step.TransmitStep? {
      SendSteps.TransmitKeeps(cfg, w, step.token);
    } else {
      ApplyPlain(cfg, w, step);
      TransactKeeps(cfg, w, step);
    }
  }

  lemma {:induction false} TraceHolds(cfg: Config, trace: seq<World>, steps: seq<Step>, i: nat)
    requires IsTrace(cfg, trace, steps) && i < |trace|
    ensures Inv(cfg, trace[i])
  {
    if i == 0 {
      InitHolds(cfg, trace[0]);
    } else {
      TraceHolds(cfg, trace, steps, i - 1);
      StepKeeps(cfg, trace[i - 1], steps[i - 1]);
    }
  }

  /** The four encodings of a run's phase agree on every row and on every snapshot a worker can hold. */
  lemma EncodingsAgreeEverywhere(cfg: Config, trace: seq<World>, steps: seq<Step>, i: nat, r: Run)
    requires IsTrace(cfg, trace, steps) && i < |trace|
    requires (exists id :: id in trace[i].db.runs && trace[i].db.runs[id] == r) ||
             (exists token :: token in trace[i].claims && trace[i].claims[token].row == r)
    ensures forall limit: nat :: ClaimFilter(r, limit) <==> Counter(r, PhaseOf(r)) < limit
    ensures Counter(Charge(r), PhaseOf(r)) == Counter(r, PhaseOf(r)) + 1
    ensures PhaseAttempts(Scan(r)) == Counter(r, PhaseOf(r))
    ensures BranchPhase(BranchOf(Scan(r))) == PhaseOf(r)
    ensures DeniedTool(r) ==> r.executionAttempts >= r.finalAttempts + 1
  {
    TraceHolds(cfg, trace, steps, i);
    if id :| id in trace[i].db.runs && trace[i].db.runs[id] == r {
      assert RunOkAt(cfg, trace[i].db, id);
    } else {
      var token :| token in trace[i].claims && trace[i].claims[token].row == r;
      assert ClaimOk(cfg, trace[i].db, token, trace[i].claims[token]);
    }
    EncodingsAgree(r, cfg.runLimit);
  }
}

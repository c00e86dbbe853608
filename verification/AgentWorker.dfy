/**
 One turn of a run worker: `runOnce` after its claim.  Whatever the router, the planner, the tools, the
 model and the catalog answer, the turn ends in at most one transition of the store, and in one that the
 protocol allows for the phase the worker's snapshot is in.
 */
module AgentWorker {
  import opened Wrappers
  import opened Rows
  import opened Phases
  import opened Protocol
  import opened Tables
  import AgentStore
  import Citations
  import DeliveryStore
  import Frames
  import Safety

  datatype CatalogAnswer = CatalogLoaded | CatalogInvalid | CatalogUnavailable

  datatype ToolAnswer =
    | ToolError
    | ToolDenied(reason: string)
    | ToolWaiting(approval: Option<Uuid>)
    | ToolSucceeded(result: Json)
    | ToolElsewhere                       // any other state

  /** An answer of the model that passed the client's check for missing fields. */
  datatype Generated = Generated(
    text: string, citationIds: seq<string>, grounding: Citations.Grounding, action: bool, actionAllowed: bool)

  datatype TicketTitle = TitleMissing(advice: string) | TitleFound(allowed: bool)

  /** What the worker's collaborators answer in one turn; None is an error. */
  datatype Answers = Answers(
    contextBound: bool,
    catalog: CatalogAnswer,
    snapshotLoaded: bool,
    route: Option<Route>,
    clarification: string,                // stored with a clarifying route
    memoryLoaded: bool,
    generated: Option<Generated>,
    exposureRecorded: bool,
    ticket: TicketTitle,
    toolVisible: bool,
    plan: Option<Json>,
    argumentsDecoded: bool,
    tool: ToolAnswer,
    resultDecoded: bool,
    evidence: Option<seq<Citations.Evidence>>,
    noEvidence: string,                   // the fixed answer when nothing was found
    denialPrefix: string,
    proposal: string,                     // the fixed answer that proposes a ticket
    target: bool,
    intentEnsured: bool)

  /** Texts the collaborators hand over are not empty, a plan is an object, and a success was recorded. */
  predicate Sensible(a: Answers, db: Db, c: Claimed) {
    && a.clarification != "" && a.noEvidence != "" && a.denialPrefix != "" && a.proposal != ""
    && (a.generated.Some? ==> a.generated.value.text != "")
    && (a.ticket.TitleMissing? ==> a.ticket.advice != "")
    && (a.plan.Some? ==> a.plan.value.JsonObject?)
    && (a.tool.ToolSucceeded? ==> c.id in db.calls && db.calls[c.id].state == CallSucceeded)
  }

  /** An answer the model may give where it was given no evidence. */
  predicate Unsupported(a: Answers) {
    && a.memoryLoaded && a.generated.Some? && a.generated.value.citationIds == []
    && a.generated.value.grounding == Citations.NotApplicable && a.exposureRecorded
  }

  /** What came of a tool decides how the turn ends. */
  function OwedTool(a: Answers, retry: Work): Work {
    match a.tool
    case ToolError => retry
    case ToolDenied(reason) => StoreCandidate(Candidate(a.denialPrefix + reason, false))
    case ToolWaiting(None) => GiveUp
    case ToolWaiting(Some(approval)) => AwaitApproval(approval)
    case ToolSucceeded(JsonNull) => GiveUp
    case ToolSucceeded(result) => StoreResult(result)
    case ToolElsewhere => GiveUp
  }

  /** The transition a turn owes in each branch of the snapshot's phase. */
  ghost function OwedWork(a: Answers, c: Claimed): Work
    requires c.row.attempts >= 1
  {
    var retry := Protocol.Retry(Backoff(c.row.attempts));
    var branch := BranchOf(Scan(c.row));
    if branch in {PlanTool, Phases.ExecuteTool, AnswerFromTool} && !a.toolVisible then GiveUp
    else match branch
    case RouteIntent => if a.route.Some? && ValidRoute(a.route.value) then StoreRoute(a.route.value) else retry
    case Clarify => StoreCandidate(Candidate(a.clarification, false))
    case AnswerDirectly =>
      if Unsupported(a) && (a.generated.value.action ==> a.generated.value.actionAllowed)
      then StoreCandidate(Candidate(a.generated.value.text, a.generated.value.action)) else retry
    case ProposeTicket =>
      (match a.ticket
       case TitleMissing(advice) => StoreCandidate(Candidate(advice, false))
       case TitleFound(allowed) => if allowed then StoreCandidate(Candidate(a.proposal, true)) else retry)
    case PlanTool => if a.plan.Some? then StorePlan(a.plan.value) else retry
    case ExecuteTool => if a.argumentsDecoded then OwedTool(a, retry) else GiveUp
    case AnswerFromTool =>
      if !a.resultDecoded then GiveUp
      else if Unsupported(a) then StoreCandidate(Candidate(a.generated.value.text, a.generated.value.action)) else retry
    case AnswerFromKnowledge =>
      if a.evidence == Some([]) then StoreCandidate(Candidate(a.noEvidence, false))
      else if && a.evidence.Some? && a.memoryLoaded && a.generated.Some? && a.exposureRecorded
              && (a.generated.value.action ==> a.generated.value.actionAllowed)
              && Citations.GoAccepts(a.generated.value.grounding, a.generated.value.citationIds, a.generated.value.text, a.evidence.value)
      then StoreCandidate(Candidate(a.generated.value.text, a.generated.value.action)) else retry
    case Deliver =>
      if a.target && (c.row.candidate.Some? && c.row.candidate.value.action ==> a.intentEnsured) then HandOver else retry
  }

  /** A turn does nothing only if the catalog could not be read, and gives up on a run it cannot make sense of. */
  ghost function Owed(a: Answers, c: Claimed): Option<Work>
    requires c.row.attempts >= 1
  {
    if !a.contextBound then Some(GiveUp)
    else match a.catalog
    case CatalogInvalid => Some(GiveUp)
    case CatalogUnavailable => None
    case CatalogLoaded => if a.snapshotLoaded then Some(OwedWork(a, c)) else Some(GiveUp)
  }

  // ---------------------------------------------------------------- how a turn ends, in the columns of the run

  predicate HasText(r: Run) { r.candidate.Some? && r.candidate.value.text != "" }

  predicate Given(json: Option<Json>) { json.Some? && json.value.JsonObject? }

  predicate Loaded(a: Answers) { a.contextBound && a.catalog.CatalogLoaded? && a.snapshotLoaded }

  /** The route selected an operation that is not one of the two built-in ones, and no text was stored yet. */
  predicate UsesTool(r: Run) {
    && r.route.Some? && !HasText(r) && r.route.value.status == Selected
    && r.route.value.operation != Some(KnowledgeSearch) && r.route.value.operation != Some(CreateTicket)
  }

  /**
   The run fails for good only where asking again cannot help: its context or snapshot is broken, its tool is
   gone, what was stored for the tool cannot be read, or the tool ended in a way that leaves nothing to store.
   */
  predicate MustStop(a: Answers, r: Run) {
    || !a.contextBound || a.catalog.CatalogInvalid?
    || (a.catalog.CatalogLoaded? && !a.snapshotLoaded)
    || (Loaded(a) && UsesTool(r) && !a.toolVisible)
    || (Loaded(a) && UsesTool(r) && Given(r.arguments) && !Given(r.result) && !a.argumentsDecoded)
    || (Loaded(a) && UsesTool(r) && Given(r.arguments) && !Given(r.result) &&
        (a.tool == ToolWaiting(None) || a.tool == ToolSucceeded(JsonNull) || a.tool == ToolElsewhere))
    || (Loaded(a) && UsesTool(r) && Given(r.arguments) && Given(r.result) && !a.resultDecoded)
  }

  /** Whoever the phase has to ask answered with an error. */
  predicate AnsweredWithError(a: Answers, r: Run) {
    || (r.route.None? && a.route.None?)
    || (UsesTool(r) && !Given(r.arguments) && a.plan.None?)
    || (UsesTool(r) && Given(r.arguments) && !Given(r.result) && a.tool == ToolError)
    || (UsesTool(r) && Given(r.arguments) && Given(r.result) && (!a.memoryLoaded || a.generated.None? || !a.exposureRecorded))
    || (r.route.Some? && !HasText(r) && r.route.value.status == NoTool && (!a.memoryLoaded || a.generated.None? || !a.exposureRecorded))
    || (r.route.Some? && !HasText(r) && r.route.value == Route(Selected, Some(KnowledgeSearch)) &&
        (a.evidence.None? || (a.evidence != Some([]) && (!a.memoryLoaded || a.generated.None? || !a.exposureRecorded))))
    || (r.route.Some? && HasText(r) && (!a.target || (r.candidate.value.action && !a.intentEnsured)))
  }

  /** The answer came, and is one the phase may not use. */
  predicate AnsweredBadly(a: Answers, r: Run) {
    || (r.route.None? && a.route.Some? && !(a.route.value.status == Selected <==> a.route.value.operation.Some?))
    || (UsesTool(r) && Given(r.arguments) && Given(r.result) && a.generated.Some? &&
        (a.generated.value.citationIds != [] || a.generated.value.grounding != Citations.NotApplicable))
    || (r.route.Some? && !HasText(r) && r.route.value.status == NoTool && a.generated.Some? &&
        (a.generated.value.citationIds != [] || a.generated.value.grounding != Citations.NotApplicable
         || (a.generated.value.action && !a.generated.value.actionAllowed)))
    || (r.route.Some? && !HasText(r) && r.route.value == Route(Selected, Some(KnowledgeSearch)) &&
        a.evidence.Some? && a.evidence.value != [] && a.generated.Some? &&
        ((a.generated.value.action && !a.generated.value.actionAllowed) ||
         !Citations.GoAccepts(a.generated.value.grounding, a.generated.value.citationIds, a.generated.value.text, a.evidence.value)))
    || (r.route.Some? && !HasText(r) && r.route.value == Route(Selected, Some(CreateTicket)) && a.ticket == TitleFound(false))
  }

  predicate MustRetry(a: Answers, r: Run) {
    Loaded(a) && !MustStop(a, r) && (AnsweredWithError(a, r) || AnsweredBadly(a, r))
  }

  /** What a turn may store as the run's answer. */
  predicate Says(a: Answers, r: Run, candidate: Candidate)
    requires r.route.Some?
  {
    match r.route.value
    case Route(Clarified, _) => candidate == Candidate(a.clarification, false)
    case Route(Selected, Some(CreateTicket)) =>
      candidate == if a.ticket.TitleMissing? then Candidate(a.ticket.advice, false) else Candidate(a.proposal, true)
    case Route(Selected, Some(KnowledgeSearch)) =>
      if a.evidence == Some([]) then candidate == Candidate(a.noEvidence, false)
      else a.generated.Some? && candidate == Candidate(a.generated.value.text, a.generated.value.action)
    case Route(NoTool, _) => a.generated.Some? && candidate == Candidate(a.generated.value.text, a.generated.value.action)
    case _ =>
      if Given(r.result) then a.generated.Some? && candidate == Candidate(a.generated.value.text, a.generated.value.action)
      else a.tool.ToolDenied? && candidate == Candidate(a.denialPrefix + a.tool.reason, false)
  }

  /** The step a turn takes when nothing stops or delays it: it fills in what the run is missing next. */
  predicate Advances(a: Answers, r: Run, work: Work) {
    if r.route.None? then a.route.Some? && work == StoreRoute(a.route.value)
    else if HasText(r) then work == HandOver
    else if UsesTool(r) && !Given(r.arguments) then a.plan.Some? && work == StorePlan(a.plan.value)
    else if UsesTool(r) && !Given(r.result) && a.tool.ToolWaiting? then a.tool.approval.Some? && work == AwaitApproval(a.tool.approval.value)
    else if UsesTool(r) && !Given(r.result) && a.tool.ToolSucceeded? then work == StoreResult(a.tool.result)
    else work.StoreCandidate? && Says(a, r, work.candidate)
  }

  /** How a turn ends: it stops, retries after a delay that doubles up to 32 seconds, or advances. */
  predicate Took(a: Answers, r: Run, work: Option<Work>) {
    match work
    case None => a.contextBound && a.catalog.CatalogUnavailable?
    case Some(GiveUp) => MustStop(a, r)
    case Some(Retry(delay)) => MustRetry(a, r) && delay == DelayAfter(r.attempts)
    case Some(other) => Loaded(a) && !MustStop(a, r) && !MustRetry(a, r) && Advances(a, r, other)
  }

  lemma EdgesAreTaken(a: Answers, c: Claimed)
    requires c.row.attempts >= 1 && Loaded(a) && BranchOf(Scan(c.row)) in {RouteIntent, Deliver}
    ensures Took(a, c.row, Some(OwedWork(a, c)))
  {
    BackoffDoubles(c.row.attempts);
  }

  lemma AnswersAreTaken(a: Answers, c: Claimed)
    requires c.row.attempts >= 1 && Loaded(a) && BranchOf(Scan(c.row)) in {Clarify, AnswerDirectly, ProposeTicket}
    ensures Took(a, c.row, Some(OwedWork(a, c)))
  {
    BackoffDoubles(c.row.attempts);
  }

  lemma KnowledgeIsTaken(a: Answers, c: Claimed)
    requires c.row.attempts >= 1 && Loaded(a) && BranchOf(Scan(c.row)) == AnswerFromKnowledge
    ensures Took(a, c.row, Some(OwedWork(a, c)))
  {
    BackoffDoubles(c.row.attempts);
  }

  lemma ToolsAreTaken(a: Answers, c: Claimed)
    requires c.row.attempts >= 1 && Loaded(a) && BranchOf(Scan(c.row)) in {PlanTool, ExecuteTool}
    ensures Took(a, c.row, Some(OwedWork(a, c)))
  {
    BackoffDoubles(c.row.attempts);
  }

  lemma ToolAnswersAreTaken(a: Answers, c: Claimed)
    requires c.row.attempts >= 1 && Loaded(a) && BranchOf(Scan(c.row)) == AnswerFromTool
    ensures Took(a, c.row, Some(OwedWork(a, c)))
  {
    BackoffDoubles(c.row.attempts);
  }

  lemma OwedWorkIsTaken(a: Answers, c: Claimed)
    requires c.row.attempts >= 1 && Loaded(a)
    ensures Took(a, c.row, Some(OwedWork(a, c)))
  {
    match BranchOf(Scan(c.row)) {
      case RouteIntent => EdgesAreTaken(a, c);
      case Deliver => EdgesAreTaken(a, c);
      case PlanTool => ToolsAreTaken(a, c);
      case ExecuteTool => ToolsAreTaken(a, c);
      case AnswerFromTool => ToolAnswersAreTaken(a, c);
      case AnswerFromKnowledge => KnowledgeIsTaken(a, c);
      case _ => AnswersAreTaken(a, c);
    }
  }

  lemma OwedIsTaken(a: Answers, c: Claimed)
    requires c.row.attempts >= 1
    ensures Took(a, c.row, Owed(a, c))
  {
    if Loaded(a) {
      OwedWorkIsTaken(a, c);
    }
  }

  /** A turn took no transition, or one the protocol allows. */
  ghost predicate Turned(cfg: Config, before: Db, after: Db, c: Claimed, work: Option<Work>, outcome: Outcome) {
    if work.None? then after == before
    else WorkAllowed(before, c, work.value) && Tx(after, outcome) == DoWork(cfg, before, c, work.value)
  }

  /** A turn is a step of the protocol, so every theorem about traces holds of workers that take such turns. */
  lemma TurnIsStep(cfg: Config, w: World, after: Db, token: Token, work: Work, outcome: Outcome)
    requires Inv(cfg, w) && token in w.claims && Turned(cfg, w.db, after, w.claims[token], Some(work), outcome)
    ensures Enabled(w, WorkStep(token, work)) && Apply(cfg, w, WorkStep(token, work)) == w.(db := after)
    ensures Frames.Keeps(cfg, w, w.(db := after))
  {
    Safety.ApplyPlain(cfg, w, WorkStep(token, work));
    Safety.StepKeeps(cfg, w, WorkStep(token, work));
  }

  class Worker {
    const store: AgentStore.Store
    const deliveries: DeliveryStore.Store
    const maxAttempts: nat

    constructor (store: AgentStore.Store, deliveries: DeliveryStore.Store, maxAttempts: nat)
      requires store.pool == deliveries.pool
      ensures this.store == store && this.deliveries == deliveries && this.maxAttempts == maxAttempts
    {
      this.store, this.deliveries, this.maxAttempts := store, deliveries, maxAttempts;
    }

    ghost predicate Ready(cfg: Config) {
      store.pool == deliveries.pool && cfg.runLimit == maxAttempts
    }

    method Retry(ghost cfg: Config, run: Claimed, limit: nat) returns (work: Option<Work>, outcome: Outcome)
      requires Ready(cfg) && run.row.attempts >= 1 && limit == RetryLimit(cfg, run.row)
      modifies store.pool
      ensures work == Some(Protocol.Retry(Backoff(run.row.attempts))) && Turned(cfg, old(store.pool.State()), store.pool.State(), run, work, outcome)
    {
      var delay := Backoff(run.row.attempts);
      outcome := store.FailOrRetry(run, limit, delay);
      work := Some(Protocol.Retry(delay));
    }

    method Fail(ghost cfg: Config, run: Claimed) returns (work: Option<Work>, outcome: Outcome)
      requires Ready(cfg)
      modifies store.pool
      ensures work == Some(GiveUp) && Turned(cfg, old(store.pool.State()), store.pool.State(), run, work, outcome)
    {
      outcome := store.Fail(run);
      work := Some(GiveUp);
    }

    method Save(ghost cfg: Config, run: Claimed, text: string, action: bool) returns (work: Option<Work>, outcome: Outcome)
      requires Ready(cfg) && WorkAllowed(store.pool.State(), run, StoreCandidate(Candidate(text, action)))
      modifies store.pool
      ensures work == Some(StoreCandidate(Candidate(text, action))) && Turned(cfg, old(store.pool.State()), store.pool.State(), run, work, outcome)
    {
      outcome := store.SaveCandidate(run, Candidate(text, action));
      work := Some(StoreCandidate(Candidate(text, action)));
    }

    method RouteIntent(ghost cfg: Config, run: Claimed, a: Answers) returns (work: Option<Work>, outcome: Outcome)
      requires Ready(cfg) && run.row.attempts >= 1 && BranchOf(Scan(run.row)) == Phases.RouteIntent
      modifies store.pool
      ensures Turned(cfg, old(store.pool.State()), store.pool.State(), run, work, outcome)
      ensures work == Some(OwedWork(a, run))
    {
      if a.route.None? || !ValidRoute(a.route.value) {
        work, outcome := Retry(cfg, run, maxAttempts);
        return;
      }
      outcome := store.SaveRoute(run, a.route.value);
      work := Some(StoreRoute(a.route.value));
    }

    /** The branches that answer from the model without enterprise evidence. */
    method Answer(ghost cfg: Config, run: Claimed, a: Answers) returns (work: Option<Work>, outcome: Outcome)
      requires Ready(cfg) && run.row.attempts >= 1 && Sensible(a, store.pool.State(), run)
      requires BranchOf(Scan(run.row)) in {AnswerDirectly, AnswerFromTool}
      modifies store.pool
      ensures Turned(cfg, old(store.pool.State()), store.pool.State(), run, work, outcome)
      ensures (BranchOf(Scan(run.row)) == AnswerFromTool ==> a.toolVisible && a.resultDecoded) ==> work == Some(OwedWork(a, run))
    {
      if !a.memoryLoaded || a.generated.None? {
        work, outcome := Retry(cfg, run, run.row.modelLimit);
        return;
      }
      var generated := a.generated.value;
      if generated.citationIds != [] || generated.grounding != Citations.NotApplicable {
        work, outcome := Retry(cfg, run, run.row.modelLimit);
        return;
      }
      if BranchOf(Scan(run.row)) == AnswerDirectly && generated.action && !generated.actionAllowed {
        work, outcome := Retry(cfg, run, run.row.modelLimit);
        return;
      }
      if !a.exposureRecorded {
        work, outcome := Retry(cfg, run, run.row.modelLimit);
        return;
      }
      work, outcome := Save(cfg, run, generated.text, generated.action);
    }

    method ProposeTicket(ghost cfg: Config, run: Claimed, a: Answers) returns (work: Option<Work>, outcome: Outcome)
      requires Ready(cfg) && run.row.attempts >= 1 && Sensible(a, store.pool.State(), run)
      requires BranchOf(Scan(run.row)) == Phases.ProposeTicket
      modifies store.pool
      ensures Turned(cfg, old(store.pool.State()), store.pool.State(), run, work, outcome)
      ensures work == Some(OwedWork(a, run))
    {
      match a.ticket {
        case TitleMissing(advice) => work, outcome := Save(cfg, run, advice, false);
        case TitleFound(allowed) =>
          if !allowed {
            work, outcome := Retry(cfg, run, run.row.modelLimit);
            return;
          }
          work, outcome := Save(cfg, run, a.proposal, true);
      }
    }

    method ExecuteTool(ghost cfg: Config, run: Claimed, a: Answers) returns (work: Option<Work>, outcome: Outcome)
      requires Ready(cfg) && run.row.attempts >= 1 && Sensible(a, store.pool.State(), run)
      requires BranchOf(Scan(run.row)) == Phases.ExecuteTool
      modifies store.pool
      ensures Turned(cfg, old(store.pool.State()), store.pool.State(), run, work, outcome)
      ensures !a.argumentsDecoded ==> work == Some(GiveUp)
      ensures a.argumentsDecoded ==> work == Some(OwedTool(a, Protocol.Retry(Backoff(run.row.attempts))))
      ensures work == Some(GiveUp) <==>
                !a.argumentsDecoded || a.tool == ToolWaiting(None) || a.tool == ToolSucceeded(JsonNull) || a.tool == ToolElsewhere
      ensures a.argumentsDecoded ==>
                && (a.tool == ToolError ==> work == Some(Protocol.Retry(DelayAfter(run.row.attempts))))
                && (a.tool.ToolDenied? ==> work == Some(StoreCandidate(Candidate(a.denialPrefix + a.tool.reason, false))))
                && (a.tool.ToolWaiting? && a.tool.approval.Some? ==> work == Some(AwaitApproval(a.tool.approval.value)))
                && (a.tool.ToolSucceeded? && a.tool.result.JsonObject? ==> work == Some(StoreResult(a.tool.result)))
    {
      BackoffDoubles(run.row.attempts);
      if !a.argumentsDecoded {
        work, outcome := Fail(cfg, run);
        return;
      }
      match a.tool {
        case ToolError => work, outcome := Retry(cfg, run, maxAttempts);
        case ToolDenied(reason) => work, outcome := Save(cfg, run, a.denialPrefix + reason, false);
        case ToolWaiting(approval) =>
          if approval.None? {
            work, outcome := Fail(cfg, run);
            return;
          }
          outcome := store.WaitForToolApproval(run, approval.value);
          work := Some(AwaitApproval(approval.value));
        case ToolSucceeded(result) =>
          if result.JsonNull? {
            work, outcome := Fail(cfg, run);
            return;
          }
          outcome := store.SaveToolResult(run, result);
          work := Some(StoreResult(result));
        case ToolElsewhere => work, outcome := Fail(cfg, run);
      }
    }

    method UseTool(ghost cfg: Config, run: Claimed, a: Answers) returns (work: Option<Work>, outcome: Outcome)
      requires Ready(cfg) && run.row.attempts >= 1 && Sensible(a, store.pool.State(), run)
      requires BranchOf(Scan(run.row)) in {PlanTool, Phases.ExecuteTool, AnswerFromTool}
      modifies store.pool
      ensures Turned(cfg, old(store.pool.State()), store.pool.State(), run, work, outcome)
      ensures work == Some(OwedWork(a, run))
    {
      if !a.toolVisible {
        work, outcome := Fail(cfg, run);
        return;
      }
      if Scan(run.row).toolArguments == None {
        if a.plan.None? {
          work, outcome := Retry(cfg, run, maxAttempts);
          return;
        }
        outcome := store.SaveToolPlan(run, a.plan.value);
        work := Some(StorePlan(a.plan.value));
        return;
      }
      if Scan(run.row).toolResult == None {
        work, outcome := ExecuteTool(cfg, run, a);
        return;
      }
      if !a.resultDecoded {
        work, outcome := Fail(cfg, run);
        return;
      }
      work, outcome := Answer(cfg, run, a);
    }

    /** Only an answer whose citations hold up is stored; without evidence a fixed answer is. */
    method AnswerFromKnowledge(ghost cfg: Config, run: Claimed, a: Answers) returns (work: Option<Work>, outcome: Outcome)
      requires Ready(cfg) && run.row.attempts >= 1 && Sensible(a, store.pool.State(), run)
      requires BranchOf(Scan(run.row)) == Phases.AnswerFromKnowledge
      modifies store.pool
      ensures Turned(cfg, old(store.pool.State()), store.pool.State(), run, work, outcome)
      ensures work.Some? && work.value.StoreCandidate? ==>
                a.evidence.Some? &&
                if a.evidence.value == [] then work.value.candidate == Candidate(a.noEvidence, false)
                else && a.generated.Some? && work.value.candidate == Candidate(a.generated.value.text, a.generated.value.action)
                     && Citations.GoAccepts(a.generated.value.grounding, a.generated.value.citationIds, a.generated.value.text, a.evidence.value)
      ensures work == Some(OwedWork(a, run))
    {
      if a.evidence.None? {
        work, outcome := Retry(cfg, run, run.row.modelLimit);
        return;
      }
      if a.evidence.value == [] {
        work, outcome := Save(cfg, run, a.noEvidence, false);
        return;
      }
      if !a.memoryLoaded || a.generated.None? {
        work, outcome := Retry(cfg, run, run.row.modelLimit);
        return;
      }
      var generated := a.generated.value;
      var verdict := Citations.ValidateKnowledgeCandidate(generated.grounding, generated.citationIds, generated.text, a.evidence.value);
      if verdict.Invalid? || (generated.action && !generated.actionAllowed) || !a.exposureRecorded {
        work, outcome := Retry(cfg, run, run.row.modelLimit);
        return;
      }
      work, outcome := Save(cfg, run, generated.text, generated.action);
    }

    method Deliver(ghost cfg: Config, run: Claimed, a: Answers) returns (work: Option<Work>, outcome: Outcome)
      requires Ready(cfg) && run.row.attempts >= 1 && BranchOf(Scan(run.row)) == Phases.Deliver
      modifies store.pool
      ensures Turned(cfg, old(store.pool.State()), store.pool.State(), run, work, outcome)
      ensures work == Some(OwedWork(a, run))
    {
      if !a.target {
        work, outcome := Retry(cfg, run, maxAttempts);
        return;
      }
      var waitingApproval := run.row.candidate.Some? && run.row.candidate.value.action;
      if waitingApproval && !a.intentEnsured {
        work, outcome := Retry(cfg, run, maxAttempts);
        return;
      }
      outcome := deliveries.Prepare(run, waitingApproval);
      work := Some(HandOver);
    }

    /** `runOnce` for a claimed run. */
    method Turn(ghost cfg: Config, run: Claimed, a: Answers) returns (work: Option<Work>, outcome: Outcome)
      requires Ready(cfg) && run.row.attempts >= 1 && Sensible(a, store.pool.State(), run)
      modifies store.pool
      ensures Turned(cfg, old(store.pool.State()), store.pool.State(), run, work, outcome)
      ensures work == Owed(a, run)
      ensures work.None? <==> a.contextBound && a.catalog.CatalogUnavailable?
      ensures Took(a, run.row, work)
    {
      OwedIsTaken(a, run);
      if !a.contextBound {
        work, outcome := Fail(cfg, run);
        return;
      }
      if a.catalog.CatalogInvalid? {
        work, outcome := Fail(cfg, run);
        return;
      }
      if a.catalog.CatalogUnavailable? {
        return None, Refused;
      }
      if !a.snapshotLoaded {
        work, outcome := Fail(cfg, run);
        return;
      }
      var row := Scan(run.row);
      if row.routeStatus == None {
        work, outcome := RouteIntent(cfg, run, a);
        return;
      }
      if row.candidateText == "" {
        if row.routeStatus == Some(Clarified) {
          work, outcome := Save(cfg, run, a.clarification, false);
        } else if row.routeStatus == Some(NoTool) {
          work, outcome := Answer(cfg, run, a);
        } else if row.routeOperation == Some(CreateTicket) {
          work, outcome := ProposeTicket(cfg, run, a);
        } else if row.routeOperation != Some(KnowledgeSearch) {
          work, outcome := UseTool(cfg, run, a);
        } else {
          work, outcome := AnswerFromKnowledge(cfg, run, a);
        }
        return;
      }
      work, outcome := Deliver(cfg, run, a);
    }
  }
}

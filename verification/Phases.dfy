/**
 The phase of a run is written four times in the source: as the filter of the claim query, as the
 counters that query charges, as the Go function that picks a retry counter, and as the branches of
 the worker.  This module states the four and proves that they agree on every row the protocol can
 reach.
 */
module Phases {
  import opened Wrappers
  import opened Rows

  datatype Phase = Routing | Planning | Execution | Model | Finalization

  // ---------------------------------------------------------------- reference definition

  /** The route selected an operation that is neither of the two built-in ones. */
  predicate ToolRoute(r: Run) {
    r.route.Some? && r.route.value.status == Selected &&
    r.route.value.operation.Some? && r.route.value.operation.value.OtherTool?
  }

  /** The phase is named by the first output that is still missing. */
  function PhaseOf(r: Run): Phase {
    if r.route.None? then Routing
    else if r.candidate.Some? then Finalization
    else if ToolRoute(r) && r.arguments.None? then Planning
    else if ToolRoute(r) && r.result.None? then Execution
    else Model
  }

  function Rank(p: Phase): nat {
    match p
    case Routing => 0
    case Planning => 1
    case Execution => 2
    case Model => 3
    case Finalization => 4
  }

  function Counter(r: Run, p: Phase): nat {
    match p
    case Routing => r.routeAttempts
    case Planning => r.planAttempts
    case Execution => r.executionAttempts
    case Model => r.modelAttempts
    case Finalization => r.finalAttempts
  }

  /** A denied tool call leaves a candidate behind while the tool result stays null. */
  predicate DeniedTool(r: Run) {
    ToolRoute(r) && r.arguments.Some? && r.result.None? && r.candidate.Some?
  }

  // ---------------------------------------------------------------- the SQL encodings

  predicate BuiltIn(r: Run) {
    r.route.Some? && r.route.value.operation.Some? && !r.route.value.operation.value.OtherTool?
  }

  /** The five-way disjunction of the claim query.  A comparison with NULL is not true. */
  predicate ClaimFilter(r: Run, max: nat) {
    || (r.route.None? && r.routeAttempts < max)
    || (ToolRoute(r) && r.arguments.None? && r.planAttempts < max)
    || (ToolRoute(r) && r.arguments.Some? && r.result.None? && r.executionAttempts < max)
    || (r.route.Some? && r.candidate.None? && r.modelAttempts < max
        && (r.route.value.status != Selected || BuiltIn(r) || r.result.Some?))
    || (r.candidate.Some? && r.finalAttempts < max)
  }

  function One(b: bool): nat { if b then 1 else 0 }

  /** The SET list of the claim query: every counter with its own CASE. */
  function Charge(r: Run): Run {
    r.(attempts := r.attempts + 1,
       routeAttempts := r.routeAttempts + One(r.route.None?),
       planAttempts := r.planAttempts + One(ToolRoute(r) && r.arguments.None?),
       executionAttempts := r.executionAttempts + One(ToolRoute(r) && r.arguments.Some? && r.result.None?),
       modelAttempts := r.modelAttempts + One(
         r.route.Some? && r.candidate.None? &&
         (r.route.value.status != Selected || BuiltIn(r) || r.result.Some?)),
       finalAttempts := r.finalAttempts + One(r.candidate.Some?))
  }

  // ---------------------------------------------------------------- the Go encodings

  /**
   The columns as the worker sees them.  COALESCE turned NULL text into the empty string, which `None`
   stands for where the text is a closed set, and both NULL and the JSON null became a nil slice.
   */
  datatype Scanned = Scanned(
    routeStatus: Option<RouteStatus>,
    routeOperation: Option<Operation>,
    candidateText: string,
    toolArguments: Option<Json>,
    toolResult: Option<Json>,
    routeAttempts: nat,
    planAttempts: nat,
    executionAttempts: nat,
    modelAttempts: nat,
    finalAttempts: nat)

  function NilIfNull(json: Option<Json>): Option<Json> {
    if json == Some(JsonNull) then None else json
  }

  function Scan(r: Run): Scanned {
    Scanned(
      if r.route.Some? then Some(r.route.value.status) else None,
      if r.route.Some? then r.route.value.operation else None,
      if r.candidate.Some? then r.candidate.value.text else "",
      NilIfNull(r.arguments),
      NilIfNull(r.result),
      r.routeAttempts, r.planAttempts, r.executionAttempts, r.modelAttempts, r.finalAttempts)
  }

  /** `Run.phaseAttempts`. */
  function PhaseAttempts(g: Scanned): nat {
    if g.routeStatus == None then g.routeAttempts
    else if g.candidateText != "" then g.finalAttempts
    else if g.routeStatus == Some(Selected) && g.routeOperation != Some(KnowledgeSearch) && g.routeOperation != Some(CreateTicket) then
      if g.toolArguments == None then g.planAttempts
      else if g.toolResult == None then g.executionAttempts
      else g.modelAttempts
    else g.modelAttempts
  }

  datatype Branch =
    | RouteIntent
    | Clarify
    | AnswerDirectly
    | ProposeTicket
    | PlanTool
    | ExecuteTool
    | AnswerFromTool
    | AnswerFromKnowledge
    | Deliver

  /** The branch `Worker.runOnce` takes for a claimed run. */
  function BranchOf(g: Scanned): Branch {
    if g.routeStatus == None then RouteIntent
    else if g.candidateText == "" then
      if g.routeStatus == Some(Clarified) then Clarify
      else if g.routeStatus == Some(NoTool) then AnswerDirectly
      else if g.routeOperation == Some(CreateTicket) then ProposeTicket
      else if g.routeOperation != Some(KnowledgeSearch) then
        if g.toolArguments == None then PlanTool
        else if g.toolResult == None then ExecuteTool
        else AnswerFromTool
      else AnswerFromKnowledge
    else Deliver
  }

  function BranchPhase(b: Branch): Phase {
    match b
    case RouteIntent => Routing
    case PlanTool => Planning
    case ExecuteTool => Execution
    case Deliver => Finalization
    case _ => Model
  }

  // ---------------------------------------------------------------- what every stored row satisfies

  /** Null patterns and value shapes: the table's CHECK constraints plus what the worker validates. */
  predicate Shape(r: Run) {
    && (r.state == Running <==> r.lease.Some?)
    && (r.route.Some? ==> (r.route.value.status == Selected <==> r.route.value.operation.Some?))
    && (r.arguments.Some? ==> ToolRoute(r) && r.arguments.value.JsonObject?)
    && (r.result.Some? ==> r.arguments.Some? && r.result.value.JsonObject?)
    && (r.candidate.Some? ==>
        && r.route.Some? && r.candidate.value.text != ""
        && (ToolRoute(r) ==> r.arguments.Some?)
        && (ToolRoute(r) && r.candidate.value.action ==> r.result.Some?))
  }

  /** Claims that were charged to the execution phase proper, leaving out those of a denied run's finalization. */
  function ExecutionClaims(r: Run): int {
    r.executionAttempts - (if DeniedTool(r) then r.finalAttempts else 0)
  }

  /** The counters say exactly how the run's claims were spent, and no phase was claimed past `max`. */
  predicate Counts(r: Run, max: nat) {
    && r.attempts == r.routeAttempts + r.planAttempts + ExecutionClaims(r) + r.modelAttempts + r.finalAttempts
    && r.routeAttempts <= max && r.planAttempts <= max && ExecutionClaims(r) <= max
    && r.modelAttempts <= max && r.finalAttempts <= max
    && (r.route.None? ==> r.planAttempts == r.executionAttempts == r.modelAttempts == 0)
    && (r.route.Some? ==> r.routeAttempts >= 1)
    && (!ToolRoute(r) ==> r.planAttempts == r.executionAttempts == 0)
    && (r.arguments.None? ==> r.executionAttempts == 0)
    && (r.arguments.Some? ==> r.planAttempts >= 1)
    && (ToolRoute(r) && r.result.None? ==> r.modelAttempts == 0)
    && (r.candidate.None? ==> r.finalAttempts == 0)
    && (DeniedTool(r) ==> r.executionAttempts >= r.finalAttempts + 1)
    && (r.state == Running ==> Counter(r, PhaseOf(r)) >= 1)
  }

  // ---------------------------------------------------------------- agreement

  /** All four encodings name the same phase and read the same counter. */
  lemma EncodingsAgree(r: Run, max: nat)
    requires Shape(r) && Counts(r, max)
    ensures forall limit: nat :: ClaimFilter(r, limit) <==> Counter(r, PhaseOf(r)) < limit
    ensures PhaseOf(Charge(r)) == PhaseOf(r)
    ensures Counter(Charge(r), PhaseOf(r)) == Counter(r, PhaseOf(r)) + 1
    ensures PhaseAttempts(Scan(r)) == Counter(r, PhaseOf(r))
    ensures BranchPhase(BranchOf(Scan(r))) == PhaseOf(r)
  {
  }

  /** Claiming moves the phase's counter and no other one, except that a denied run pays twice. */
  lemma ChargeMovesOneCounter(r: Run, p: Phase)
    requires Shape(r)
    ensures Counter(Charge(r), p) == Counter(r, p) + One(p == PhaseOf(r) || (p == Execution && DeniedTool(r)))
  {
  }

  /**
   Without the counter discipline the filter and the phase counter part ways on a denied run: the
   execution disjunct can admit a run whose finalization attempts are spent.  They agree for every
   limit exactly when a denied run has been executed at least as often as it was finalized.
   */
  lemma FilterAgreesIff(r: Run)
    requires Shape(r)
    ensures (forall limit: nat :: ClaimFilter(r, limit) <==> Counter(r, PhaseOf(r)) < limit)
            <==> (DeniedTool(r) ==> r.executionAttempts >= r.finalAttempts)
  {
    if DeniedTool(r) && r.executionAttempts < r.finalAttempts {
      assert ClaimFilter(r, r.executionAttempts + 1);
    }
  }

  /** A run is claimed at most five times the limit, however its claims ended. */
  lemma ClaimBound(r: Run, max: nat)
    requires Shape(r) && Counts(r, max)
    ensures r.attempts <= 5 * max
    ensures DeniedTool(r) ==> r.attempts <= 4 * max
    ensures !ToolRoute(r) ==> r.attempts <= 3 * max
  {
    ExecutionClaimsNonNegative(r, max);
  }

  lemma ExecutionClaimsNonNegative(r: Run, max: nat)
    requires Counts(r, max)
    ensures ExecutionClaims(r) >= 0
  {}
}

/**
 What the end of an execution says about its ticket.  The insert is not fenced, so a stalled or doubtful
 insert may outlive the execution it was made for.  This module says which failed executions cannot have a
 ticket, and exactly which can still get one.
 */
module ActionFailures {
  import opened Wrappers
  import opened Actions
  import opened ActionOutcomes
  import opened ActionProtocol
  import opened ActionSteps

  // ---------------------------------------------------------------- inserts that may still come

  /** The job was claimed to insert for `e` and has neither inserted nor failed. */
  predicate MayInsert(w: World, token: Token, e: Uuid) {
    token in w.jobs && w.jobs[token].execution == e && w.jobs[token].prior == Queued &&
    (At(w, token, Started) || At(w, token, Doubtful))
  }

  /** No ticket exists for the execution, and nobody but `own` may still insert one. */
  ghost predicate CleanBut(w: World, e: Uuid, own: set<Token>)
    requires e in w.db.executions
  {
    !HasTicket(w.db, w.db.executions[e].key) && forall token | MayInsert(w, token, e) :: token in own
  }

  ghost predicate Clean(w: World, e: Uuid)
    requires e in w.db.executions
  {
    CleanBut(w, e, {})
  }

  /** The job that holds the execution, if it has yet to insert. */
  predicate HolderMayInsert(w: World, e: Uuid)
    requires e in w.db.executions
  {
    w.db.executions[e].lease.Some? && At(w, w.db.executions[e].lease.value.token, Started) &&
    w.jobs[w.db.executions[e].lease.value.token].prior == Queued
  }

  lemma TicketsAppearByInsert(max: Limit, w: World, step: Step, e: Uuid)
    requires Inv(max, w) && Enabled(w, step) && e in w.db.executions
    requires HasTicket(Apply(max, w, step).db, w.db.executions[e].key) && !HasTicket(w.db, w.db.executions[e].key)
    ensures step.InsertStep? && MayInsert(w, step.token, e)
  {
    match step {
      case InsertStep(token, newId) =>
        var job := w.jobs[token];
        assert JobOk(w.db, token, job);
        assert ExecutionOk(max, w.db, e) && ExecutionOk(max, w.db, job.execution);
        assert ExecutionsApart(w.db, e, job.execution);
      case CompleteStep(token) => ReadBackAgrees(max, w, token);
      case _ =>
    }
  }

  lemma InsertersAppearByClaim(max: Limit, w: World, step: Step, token: Token, e: Uuid)
    requires Enabled(w, step) && MayInsert(Apply(max, w, step), token, e) && !MayInsert(w, token, e)
    ensures step.ClaimStep? && step.token == token && step.execution == e && Claimable(w.db, e, max)
  {}

  /** Nothing but a claim makes room for another insert. */
  lemma StaysClean(max: Limit, w: World, step: Step, e: Uuid, own: set<Token>)
    requires Inv(max, w) && Enabled(w, step) && e in w.db.executions && CleanBut(w, e, own)
    requires !(step.ClaimStep? && step.execution == e && Claimable(w.db, e, max))
    requires step.InsertStep? ==> step.token !in own
    ensures e in Apply(max, w, step).db.executions && CleanBut(Apply(max, w, step), e, own)
  {
    var after := Apply(max, w, step);
    StepKeeps(max, w, step);
    assert ExecutionLater(w.db, after.db, e);
    assert ExecutionOk(max, w.db, e) && ExecutionOk(max, after.db, e);
    if HasTicket(after.db, w.db.executions[e].key) {
      TicketsAppearByInsert(max, w, step, e);
    }
    forall token | MayInsert(after, token, e) ensures token in own {
      if !MayInsert(w, token, e) {
        InsertersAppearByClaim(max, w, step, token, e);
      }
    }
  }

  // ---------------------------------------------------------------- two attempts are not enough to go wrong

  /**
   Before its second attempt an execution is queued only if no insert was left behind: the first job either
   never ran or failed, for requeueing takes a reconciliation and that is an attempt of its own.
   */
  ghost predicate Orderly(w: World, e: Uuid)
    requires e in w.db.executions
  {
    var x := w.db.executions[e];
    && (x.state == Queued && x.attempts <= 1 ==> Clean(w, e))
    && (x.state == Failed && x.attempts <= 2 ==> Clean(w, e))
    && (x.attempts <= 2 && HolderMayInsert(w, e) ==> CleanBut(w, e, {x.lease.value.token}))
  }

  ghost predicate AllOrderly(w: World) {
    forall e {:trigger Orderly(w, e)} | e in w.db.executions :: Orderly(w, e)
  }

  lemma NewMeansApproved(max: Limit, w: World, step: Step, e: Uuid)
    requires Enabled(w, step) && e !in w.db.executions && e in Apply(max, w, step).db.executions
    ensures step.ApproveStep? && step.newId == e && step.intent !in w.db.approvals
    ensures Apply(max, w, step).db.executions[e] == Execution(step.intent, w.db.intents[step.intent].tenant, step.intent, Queued, 0, w.db.now, None, None)
    ensures Apply(max, w, step).db.tickets == w.db.tickets && Apply(max, w, step).jobs == w.jobs
  {}

  lemma NewIsOrderly(max: Limit, w: World, step: Step, e: Uuid)
    requires Inv(max, w) && Enabled(w, step)
    requires e !in w.db.executions && e in Apply(max, w, step).db.executions
    ensures Orderly(Apply(max, w, step), e)
  {
    var after := Apply(max, w, step);
    NewMeansApproved(max, w, step, e);
    forall token | token in after.jobs ensures after.jobs[token].execution != e {
      assert JobOk(w.db, token, w.jobs[token]);
    }
    forall t | t in after.db.tickets ensures after.db.tickets[t].key != step.intent {
      assert TicketOk(w.db, t);
    }
  }

  lemma ClaimedIsOrderly(max: Limit, w: World, step: Step, e: Uuid)
    requires Inv(max, w) && Enabled(w, step) && e in w.db.executions && Orderly(w, e)
    requires step.ClaimStep? && step.execution == e && Claimable(w.db, e, max)
    ensures e in Apply(max, w, step).db.executions && Orderly(Apply(max, w, step), e)
  {
    var after := Apply(max, w, step);
    if w.db.executions[e].state == Queued && w.db.executions[e].attempts <= 1 {
      forall token | MayInsert(after, token, e) ensures token == step.token {
        assert token != step.token ==> MayInsert(w, token, e);
      }
    }
  }

  lemma HolderStaysAlone(max: Limit, w: World, step: Step, e: Uuid)
    requires Inv(max, w) && Enabled(w, step) && e in w.db.executions
    requires !(step.ClaimStep? && step.execution == e && Claimable(w.db, e, max))
    requires e in Apply(max, w, step).db.executions && Apply(max, w, step).db.executions[e] == w.db.executions[e]
    requires HolderMayInsert(Apply(max, w, step), e)
    requires HolderMayInsert(w, e) ==> CleanBut(w, e, {w.db.executions[e].lease.value.token})
    ensures CleanBut(Apply(max, w, step), e, {w.db.executions[e].lease.value.token})
  {
    var after := Apply(max, w, step);
    var own := w.db.executions[e].lease.value.token;
    assert LeaseKnown(w, e);
    assert HolderMayInsert(w, e);
    if step.InsertStep? && step.token == own {
      assert after.db == w.db;
      forall token | MayInsert(after, token, e) ensures token == own {
        assert MayInsert(w, token, e);
      }
    } else {
      StaysClean(max, w, step, e, {own});
    }
  }

  /** A step that does not change the execution. */
  lemma OthersAreOrderly(max: Limit, w: World, step: Step, e: Uuid)
    requires Inv(max, w) && Enabled(w, step) && e in w.db.executions && Orderly(w, e)
    requires !(step.ClaimStep? && step.execution == e && Claimable(w.db, e, max))
    requires e in Apply(max, w, step).db.executions
    requires Apply(max, w, step).db.executions[e] == w.db.executions[e]
    ensures Orderly(Apply(max, w, step), e)
  {
    var x := w.db.executions[e];
    if (x.state == Queued && x.attempts <= 1) || (x.state == Failed && x.attempts <= 2) {
      StaysClean(max, w, step, e, {});
    }
    if x.attempts <= 2 && HolderMayInsert(Apply(max, w, step), e) {
      HolderStaysAlone(max, w, step, e);
    }
  }

  lemma FailureIsOrderly(max: Limit, w: World, token: Token, e: Uuid)
    requires Inv(max, w) && At(w, token, Started) && w.jobs[token].prior == Queued
    requires w.jobs[token].execution == e && Holds(w.db, w.jobs[token]) && e in w.db.executions && Orderly(w, e)
    ensures e in Apply(max, w, FailStep(token)).db.executions && Orderly(Apply(max, w, FailStep(token)), e)
  {
    var after := Apply(max, w, FailStep(token));
    HolderRuns(max, w, token);
    assert JobOk(w.db, token, w.jobs[token]);
    if w.db.executions[e].attempts <= 2 {
      assert HolderMayInsert(w, e);
      StaysClean(max, w, FailStep(token), e, {token});
      assert !MayInsert(after, token, e);
    }
  }

  /** How a step can change an execution that is not claimed by it. */
  lemma ChangesOf(max: Limit, w: World, step: Step, e: Uuid)
    requires Inv(max, w) && Enabled(w, step) && e in w.db.executions
    requires !(step.ClaimStep? && step.execution == e && Claimable(w.db, e, max))
    ensures e in Apply(max, w, step).db.executions
    ensures var x, after := w.db.executions[e], Apply(max, w, step).db.executions[e];
            || after == x
            || (after.state in {Unknown, Succeeded} && after.lease.None?)
            || (after.state == Queued && after.attempts >= 2 && after.lease.None?)
            || (step.FailStep? && w.jobs[step.token].execution == e && Holds(w.db, w.jobs[step.token]))
  {
    match step {
      case CompleteStep(token) => ReadBackAgrees(max, w, token);
      case RequeueStep(token) =>
        assert StageOk(w, token) && JobOk(w.db, token, w.jobs[token]);
      case _ =>
    }
  }

  lemma OrderlyStep(max: Limit, w: World, step: Step, e: Uuid)
    requires Inv(max, w) && Enabled(w, step) && AllOrderly(w) && e in Apply(max, w, step).db.executions
    ensures Orderly(Apply(max, w, step), e)
  {
    if e !in w.db.executions {
      NewIsOrderly(max, w, step, e);
    } else {
      assert Orderly(w, e);
      if step.ClaimStep? && step.execution == e && Claimable(w.db, e, max) {
        ClaimedIsOrderly(max, w, step, e);
      } else {
        ChangesOf(max, w, step, e);
        if Apply(max, w, step).db.executions[e] == w.db.executions[e] {
          OthersAreOrderly(max, w, step, e);
        } else if step.FailStep? && w.jobs[step.token].execution == e && Holds(w.db, w.jobs[step.token]) {
          FailureIsOrderly(max, w, step.token, e);
        }
      }
    }
  }

  lemma {:induction false} OrderlyInTrace(max: Limit, trace: seq<World>, steps: seq<Step>, i: nat)
    requires IsTrace(max, trace, steps) && i < |trace|
    ensures AllOrderly(trace[i])
  {
    if i > 0 {
      OrderlyInTrace(max, trace, steps, i - 1);
      TraceHolds(max, trace, steps, i - 1);
      forall e | e in trace[i].db.executions ensures Orderly(trace[i], e) {
        OrderlyStep(max, trace[i - 1], steps[i - 1], e);
      }
    }
  }

  /** An execution that failed within two attempts has no ticket, and none can still come. */
  lemma EarlyFailureIsClean(max: Limit, trace: seq<World>, steps: seq<Step>, i: nat, e: Uuid)
    requires IsTrace(max, trace, steps) && i < |trace| && e in trace[i].db.executions
    requires trace[i].db.executions[e].state == Failed && trace[i].db.executions[e].attempts <= 2
    ensures Clean(trace[i], e)
  {
    OrderlyInTrace(max, trace, steps, i);
    assert Orderly(trace[i], e);
  }

  // ---------------------------------------------------------------- when a failed execution may still get its ticket

  lemma {:induction false} StaysCleanForGood(max: Limit, trace: seq<World>, steps: seq<Step>, i: nat, j: nat, e: Uuid)
    requires IsTrace(max, trace, steps) && i <= j < |trace|
    requires e in trace[i].db.executions && trace[i].db.executions[e].state == Failed && Clean(trace[i], e)
    ensures e in trace[j].db.executions && trace[j].db.executions[e] == trace[i].db.executions[e] && Clean(trace[j], e)
    decreases j - i
  {
    if i < j {
      StaysCleanForGood(max, trace, steps, i, j - 1, e);
      EndedForGood(max, trace, steps, j - 1, j, e);
      TraceHolds(max, trace, steps, j - 1);
      StaysClean(max, trace[j - 1], steps[j - 1], e, {});
    }
  }

  lemma {:induction false} FreshId(taken: set<Uuid>) returns (id: Uuid)
    ensures forall t | t in taken :: t < id
  {
    if taken == {} {
      id := 0;
    } else {
      var t :| t in taken;
      var other := FreshId(taken - {t});
      id := if t < other then other else t + 1;
      forall x | x in taken ensures x < id {
        assert x == t || x in taken - {t};
      }
    }
  }

  /** A trace may go on with any step that is enabled in its last state. */
  lemma Extended(max: Limit, trace: seq<World>, steps: seq<Step>, step: Step) returns (longer: seq<World>, more: seq<Step>)
    requires IsTrace(max, trace, steps) && Enabled(trace[|steps|], step)
    ensures longer == trace + [Apply(max, trace[|steps|], step)] && more == steps + [step]
    ensures IsTrace(max, longer, more) && trace <= longer && steps <= more
  {
    longer, more := trace + [Apply(max, trace[|steps|], step)], steps + [step];
  }

  /** A longer history in whose last state the execution has its ticket. */
  ghost predicate EndsWithTicket(max: Limit, trace: seq<World>, steps: seq<Step>, longer: seq<World>, more: seq<Step>, e: Uuid) {
    && IsTrace(max, longer, more) && trace <= longer && steps <= more
    && e in longer[|more|].db.executions && HasTicket(longer[|more|].db, longer[|more|].db.executions[e].key)
  }

  ghost predicate MayGetTicket(max: Limit, trace: seq<World>, steps: seq<Step>, e: Uuid) {
    exists longer, more :: EndsWithTicket(max, trace, steps, longer, more, e)
  }

  lemma InserterBringsTicket(max: Limit, trace: seq<World>, steps: seq<Step>, e: Uuid, token: Token)
    requires IsTrace(max, trace, steps) && e in trace[|steps|].db.executions && MayInsert(trace[|steps|], token, e)
    ensures MayGetTicket(max, trace, steps, e)
  {
    var w := trace[|steps|];
    TraceHolds(max, trace, steps, |steps|);
    assert JobOk(w.db, token, w.jobs[token]);
    var newId := FreshId(w.db.tickets.Keys);
    var longer, more := Extended(max, trace, steps, InsertStep(token, newId));
    var after := longer[|more|];
    if !HasTicket(w.db, w.jobs[token].key) {
      assert newId !in w.db.tickets;
      assert after.db.tickets[newId].key == w.jobs[token].key;
    }
    assert EndsWithTicket(max, trace, steps, longer, more, e);
  }

  /**
   A failed execution without a ticket can still get one if and only if some job that was claimed to insert
   for it has neither inserted nor failed.
   */
  lemma LateTicketIff(max: Limit, trace: seq<World>, steps: seq<Step>, e: Uuid)
    requires IsTrace(max, trace, steps) && e in trace[|steps|].db.executions
    requires trace[|steps|].db.executions[e].state == Failed && !HasTicket(trace[|steps|].db, trace[|steps|].db.executions[e].key)
    ensures MayGetTicket(max, trace, steps, e) <==> exists token :: MayInsert(trace[|steps|], token, e)
  {
    var n := |steps|;
    if token :| MayInsert(trace[n], token, e) {
      InserterBringsTicket(max, trace, steps, e, token);
    } else if MayGetTicket(max, trace, steps, e) {
      var longer, more :| EndsWithTicket(max, trace, steps, longer, more, e);
      assert longer[n] == trace[n];
      StaysCleanForGood(max, longer, more, n, |more|, e);
    }
  }

  /**
   An executor that gave up on an unacknowledged insert may still see it take effect; one that only looked for the
   ticket, or that failed, cannot insert any more.
   */
  lemma MayStillInsertIff(max: Limit, w: World, step: Step, newId: Uuid)
    requires Inv(max, w) && Enabled(w, step) && (step.UnknownStep? || step.FailStep? || step.RequeueStep? || step.CompleteStep?)
    ensures Enabled(Apply(max, w, step), InsertStep(step.token, newId)) <==>
            step.UnknownStep? && At(w, step.token, Started) && w.jobs[step.token].prior == Queued
  {
    assert StageOk(w, step.token);
  }
}

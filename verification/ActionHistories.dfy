/** Histories of executions that are left without an attempt, or fail before their ticket is written. */
module ActionHistories {
  import opened Wrappers
  import opened Actions
  import opened ActionFailures
  import opened ActionOutcomes
  import opened ActionProtocol
  import opened ActionSteps
  import opened Text
  import R = Rows

  predicate Admissible(title: string) { TrimSpace(title) == title && title != [] && ByteLength(title) <= 200 }

  /** Execution 1 of intent 1, with no ticket anywhere, and its first job, which stalled before its insert. */
  ghost predicate Stalled(w: World, k: nat) {
    && 1 in w.db.executions && 1 in w.db.intents && (forall t :: t !in w.db.tickets)
    && w.db.executions[1].intent == 1 && w.db.executions[1].key == 1 && w.db.executions[1].attempts == k
    && w.db.executions[1].ticket.None?
    && At(w, 1, Started) && w.jobs[1].execution == 1 && w.jobs[1].prior == Queued && w.jobs[1].key == 1
    && (forall token | token in w.jobs :: token <= k) && (forall token | token in w.stages :: token <= k)
  }

  /** It is unleased after `k` claims. */
  ghost predicate Resting(w: World, state: ExecutionState, k: nat) {
    && Stalled(w, k)
    && w.db.executions[1].state == state && w.db.executions[1].lease.None? && w.db.executions[1].availableAt <= w.db.now + 1
  }

  /** The `k`th job holds it. */
  ghost predicate Held(w: World, prior: ExecutionState, k: nat) {
    && Stalled(w, k)
    && w.db.executions[1].state == Running && w.db.executions[1].lease == Some(R.Lease(k, w.db.now + 10))
    && w.db.executions[1].availableAt <= w.db.now
    && At(w, k, Started) && w.jobs[k].execution == 1 && w.jobs[k].prior == prior && w.jobs[k].key == 1
    && w.jobs[k].token == k && w.jobs[k].attempts == k
  }

  /** The title is asked for and approved, and the first job is claimed and stalls. */
  lemma FirstClaim(max: Limit, title: string) returns (trace: seq<World>, steps: seq<Step>)
    requires Admissible(title)
    ensures IsTrace(max, trace, steps) && Held(trace[|steps|], Queued, 1)
  {
    trace, steps := [World(Db(0, map[], map[], map[], map[], map[], multiset{}), map[], map[])], [];
    trace, steps := Extended(max, trace, steps, EnsureStep(1, 1, 1, title, 1));
    trace, steps := Extended(max, trace, steps, ApproveStep(1, 1, 1, DigestOf(title), 1));
    var approved := trace[2];
    assert approved.db.executions == map[1 := Execution(1, 1, 1, Queued, 0, 0, None, None)];
    trace, steps := Extended(max, trace, steps, ClaimStep(1, 1, 10));
  }

  lemma ClaimAgain(max: Limit, w: World, state: ExecutionState, k: nat)
    requires 1 <= k < max && state in {Queued, Unknown} && Resting(w, state, k)
    ensures Enabled(Apply(max, w, Tick(1)), ClaimStep(1, k + 1, 10))
    ensures Held(Apply(max, Apply(max, w, Tick(1)), ClaimStep(1, k + 1, 10)), state, k + 1)
  {}

  lemma Lapse(max: Limit, w: World, prior: ExecutionState, k: nat)
    requires k >= 1 && Held(w, prior, k)
    ensures Resting(Apply(max, Apply(max, w, Tick(11)), SweepStep), Unknown, k)
  {}

  lemma RequeueAbsent(max: Limit, w: World, k: nat)
    requires k >= 2 && Held(w, Unknown, k)
    ensures Enabled(w, LookStep(k)) && Enabled(Apply(max, w, LookStep(k)), RequeueStep(k))
    ensures Resting(Apply(max, Apply(max, w, LookStep(k)), RequeueStep(k)), Queued, k)
  {
    assert !HasTicket(w.db, 1);
  }

  lemma FailAttempt(max: Limit, w: World, k: nat)
    requires 2 <= k <= max && Held(w, Queued, k)
    ensures Enabled(w, FailStep(k))
    ensures Resting(Apply(max, w, FailStep(k)), if k < max then Queued else Failed, k)
  {}

  lemma ClaimedFrom(max: Limit, trace: seq<World>, steps: seq<Step>, state: ExecutionState, k: nat)
    returns (longer: seq<World>, more: seq<Step>)
    requires IsTrace(max, trace, steps) && 1 <= k < max && state in {Queued, Unknown} && Resting(trace[|steps|], state, k)
    ensures IsTrace(max, longer, more) && Held(longer[|more|], state, k + 1)
  {
    ClaimAgain(max, trace[|steps|], state, k);
    longer, more := Extended(max, trace, steps, Tick(1));
    longer, more := Extended(max, longer, more, ClaimStep(1, k + 1, 10));
  }

  lemma LapsedFrom(max: Limit, trace: seq<World>, steps: seq<Step>, prior: ExecutionState, k: nat)
    returns (longer: seq<World>, more: seq<Step>)
    requires IsTrace(max, trace, steps) && k >= 1 && Held(trace[|steps|], prior, k)
    ensures IsTrace(max, longer, more) && Resting(longer[|more|], Unknown, k)
  {
    Lapse(max, trace[|steps|], prior, k);
    longer, more := Extended(max, trace, steps, Tick(11));
    longer, more := Extended(max, longer, more, SweepStep);
  }

  /** Every executor dies: after `k` claims the outcome is unknown. */
  lemma {:induction false} LapsedTrace(max: Limit, title: string, k: nat) returns (trace: seq<World>, steps: seq<Step>)
    requires Admissible(title) && 1 <= k <= max
    ensures IsTrace(max, trace, steps) && Resting(trace[|steps|], Unknown, k)
  {
    if k == 1 {
      trace, steps := FirstClaim(max, title);
      trace, steps := LapsedFrom(max, trace, steps, Queued, 1);
    } else {
      trace, steps := LapsedTrace(max, title, k - 1);
      trace, steps := ClaimedFrom(max, trace, steps, Unknown, k - 1);
      trace, steps := LapsedFrom(max, trace, steps, Unknown, k);
    }
  }

  /** The last of `k` claims reconciles, finds nothing and requeues. */
  lemma RequeuedTrace(max: Limit, title: string, k: nat) returns (trace: seq<World>, steps: seq<Step>)
    requires Admissible(title) && 2 <= k <= max
    ensures IsTrace(max, trace, steps) && Resting(trace[|steps|], Queued, k)
  {
    trace, steps := LapsedTrace(max, title, k - 1);
    trace, steps := ClaimedFrom(max, trace, steps, Unknown, k - 1);
    RequeueAbsent(max, trace[|steps|], k);
    trace, steps := Extended(max, trace, steps, LookStep(k));
    trace, steps := Extended(max, trace, steps, RequeueStep(k));
  }

  /** For every limit and title an approved action can be left without an attempt: unknown, and from two on queued. */
  lemma CanBeExhausted(max: Limit, title: string, state: ExecutionState) returns (trace: seq<World>, steps: seq<Step>)
    requires Admissible(title) && (state == Unknown || (state == Queued && max >= 2))
    ensures IsTrace(max, trace, steps) && Exhausted(max, trace[|steps|].db, 1) && trace[|steps|].db.executions[1].state == state
    ensures !HasTicket(trace[|steps|].db, trace[|steps|].db.executions[1].key)
  {
    if state == Unknown {
      trace, steps := LapsedTrace(max, title, max);
    } else {
      trace, steps := RequeuedTrace(max, title, max);
    }
  }

  /** From the second attempt on every job fails, while the first one is still about to insert. */
  lemma {:induction false} FailingTrace(max: Limit, title: string, k: nat) returns (trace: seq<World>, steps: seq<Step>)
    requires Admissible(title) && 3 <= k <= max
    ensures IsTrace(max, trace, steps) && Resting(trace[|steps|], if k < max then Queued else Failed, k)
  {
    if k == 3 {
      trace, steps := RequeuedTrace(max, title, 2);
    } else {
      trace, steps := FailingTrace(max, title, k - 1);
    }
    trace, steps := ClaimedFrom(max, trace, steps, Queued, k - 1);
    FailAttempt(max, trace[|steps|], k);
    trace, steps := Extended(max, trace, steps, FailStep(k));
  }

  /**
   From three attempts on an execution can fail and then get its ticket: the first executor stalls before its
   insert, the second reconciles, finds nothing and requeues, the others fail, and then the first goes on.
   */
  lemma FailedButInserted(max: Limit, title: string) returns (trace: seq<World>, steps: seq<Step>)
    requires max >= 3 && Admissible(title)
    ensures IsTrace(max, trace, steps) && steps != []
    ensures var db, before := trace[|steps|].db, trace[|steps| - 1].db;
            && 1 in before.executions && before.executions[1].state == Failed && !HasTicket(before, before.executions[1].key)
            && 1 in db.executions && db.executions[1] == before.executions[1] && HasTicket(db, db.executions[1].key)
  {
    trace, steps := FailingTrace(max, title, max);
    var failed := trace[|steps|];
    assert InsertTicket(failed.db, failed.jobs[1], 1).tickets[1].key == 1;
    trace, steps := Extended(max, trace, steps, InsertStep(1, 1));
  }

  /** A failure means that there is no ticket. */
  ghost predicate FailureMeansAbsent(max: Limit) {
    forall trace: seq<World>, steps: seq<Step>, i: nat, e: Uuid
      | IsTrace(max, trace, steps) && i < |trace| && e in trace[i].db.executions && trace[i].db.executions[e].state == Failed ::
      !HasTicket(trace[i].db, trace[i].db.executions[e].key)
  }

  lemma ShortTitle()
    ensures Admissible("t")
  {}

  /** It does in every history, if and only if the executors are given at most two attempts. */
  lemma FailureMeansAbsentIff(max: Limit)
    ensures FailureMeansAbsent(max) <==> max <= 2
  {
    if max <= 2 {
      forall trace: seq<World>, steps: seq<Step>, i: nat, e: Uuid
        | IsTrace(max, trace, steps) && i < |trace| && e in trace[i].db.executions && trace[i].db.executions[e].state == Failed
        ensures !HasTicket(trace[i].db, trace[i].db.executions[e].key)
      {
        TraceHolds(max, trace, steps, i);
        assert ExecutionOk(max, trace[i].db, e);
        EarlyFailureIsClean(max, trace, steps, i, e);
      }
    } else {
      ShortTitle();
      var trace, steps := FailedButInserted(max, "t");
      assert HasTicket(trace[|steps|].db, trace[|steps|].db.executions[1].key);
    }
  }
}

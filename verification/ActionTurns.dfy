/** A turn of the executor is a sequence of steps of the action protocol, all taken by the one job it claims. */
module ActionTurns {
  import opened Wrappers
  import opened Actions
  import opened ActionProtocol
  import opened ActionSteps
  import opened ActionStore

  /** The steps lead from `w` to `after`, each of them enabled where it is taken. */
  ghost predicate LeadsTo(max: Limit, w: World, steps: seq<Step>, after: World)
    decreases |steps|
  {
    if steps == [] then after == w
    else Enabled(w, steps[0]) && LeadsTo(max, Apply(max, w, steps[0]), steps[1..], after)
  }

  predicate ByJob(step: Step, token: Token) {
    match step
    case InsertStep(t, _) => t == token
    case LookStep(t) => t == token
    case CompleteStep(t) => t == token
    case RequeueStep(t) => t == token
    case UnknownStep(t) => t == token
    case FailStep(t) => t == token
    case _ => false
  }

  lemma {:induction false} LeadsToKeeps(max: Limit, w: World, steps: seq<Step>, after: World)
    requires Inv(max, w) && LeadsTo(max, w, steps, after)
    ensures Keeps(max, w, after)
    decreases |steps|
  {
    if steps == [] {
      StayKeeps(max, w);
    } else {
      StepKeeps(max, w, steps[0]);
      LeadsToKeeps(max, Apply(max, w, steps[0]), steps[1..], after);
      LaterTransitive(w, Apply(max, w, steps[0]), after);
    }
  }

  lemma One(max: Limit, w: World, step: Step) returns (after: World)
    requires Enabled(w, step)
    ensures after == Apply(max, w, step) && LeadsTo(max, w, [step], after)
  {
    after := Apply(max, w, step);
    assert LeadsTo(max, after, [step][1..], after);
  }

  lemma Two(max: Limit, w: World, a: Step, b: Step) returns (after: World)
    requires Enabled(w, a) && Enabled(Apply(max, w, a), b)
    ensures after == Apply(max, Apply(max, w, a), b) && LeadsTo(max, w, [a, b], after)
  {
    after := One(max, Apply(max, w, a), b);
    assert [a, b][1..] == [b];
  }

  lemma FirstThen(max: Limit, w: World, step: Step, rest: seq<Step>, after: World)
    requires Enabled(w, step) && LeadsTo(max, Apply(max, w, step), rest, after)
    ensures LeadsTo(max, w, [step] + rest, after)
  {
    assert ([step] + rest)[1..] == rest;
  }

  lemma {:induction false} Then(max: Limit, w: World, first: seq<Step>, middle: World, second: seq<Step>, after: World)
    requires LeadsTo(max, w, first, middle) && LeadsTo(max, middle, second, after)
    ensures LeadsTo(max, w, first + second, after)
    decreases |first|
  {
    if first == [] {
      assert first + second == second;
    } else {
      Then(max, Apply(max, w, first[0]), first[1..], middle, second, after);
      FirstThen(max, w, first[0], first[1..] + second, after);
      assert first + second == [first[0]] + (first[1..] + second);
    }
  }

  lemma TicketIsTheOne(max: Limit, w: World, t: Uuid, key: Uuid)
    requires Inv(max, w) && t in w.db.tickets && w.db.tickets[t].key == key
    ensures HasTicket(w.db, key) && TicketOf(w.db, key) == t
  {
    assert HasTicket(w.db, key);
    assert TicketsApart(w.db, TicketOf(w.db, key), t);
  }

  /** From a ticket that was read: completion, doubt, or nothing. */
  lemma VerifyIsSteps(max: Limit, w: World, token: Token, t: Uuid, late: LateFault) returns (steps: seq<Step>, after: World)
    requires At(w, token, Read(t))
    ensures LeadsTo(max, w, steps, after) && after.db == Verified(w.db, w.jobs[token], t, max, late)
    ensures forall step | step in steps :: ByJob(step, token)
  {
    match late {
      case NoLateFault =>
        steps := [CompleteStep(token)];
        after := One(max, w, CompleteStep(token));
      case ReadBackFails =>
        steps := [UnknownStep(token)];
        after := One(max, w, UnknownStep(token));
      case CompletionFails => steps, after := [], w;
    }
  }

  /** `execute` takes steps of its own job only. */
  lemma ExecuteIsSteps(max: Limit, w: World, token: Token, newId: Uuid, fault: Fault, late: LateFault, db: Db)
    returns (steps: seq<Step>, after: World)
    requires Inv(max, w) && At(w, token, Started) && w.jobs[token].prior == Queued
    requires Executed(w.db, db, w.jobs[token], newId, max, fault, late)
    ensures LeadsTo(max, w, steps, after) && after.db == db
    ensures forall step | step in steps :: ByJob(step, token)
  {
    var job := w.jobs[token];
    var inserted := InsertTicket(w.db, job, newId);
    if fault == InsertFails || !HasTicket(inserted, job.key) {
      steps := [FailStep(token)];
      after := One(max, w, FailStep(token));
    } else if fault == CommitLost(false) {
      steps := [UnknownStep(token)];
      after := One(max, w, UnknownStep(token));
    } else {
      var middle := One(max, w, InsertStep(token, newId));
      if fault == CommitLost(true) {
        steps := [InsertStep(token, newId), UnknownStep(token)];
        after := Two(max, w, InsertStep(token, newId), UnknownStep(token));
      } else {
        var t :| t in inserted.tickets && inserted.tickets[t].key == job.key && db == Verified(inserted, job, t, max, late);
        StepKeeps(max, w, InsertStep(token, newId));
        TicketIsTheOne(max, middle, t, job.key);
        var rest;
        rest, after := VerifyIsSteps(max, middle, token, t, late);
        Then(max, w, [InsertStep(token, newId)], middle, rest, after);
        steps := [InsertStep(token, newId)] + rest;
      }
    }
  }

  /** `reconcile` takes steps of its own job only. */
  lemma ReconcileIsSteps(max: Limit, w: World, token: Token, readFails: bool, late: LateFault, db: Db)
    returns (steps: seq<Step>, after: World)
    requires Inv(max, w) && At(w, token, Started) && w.jobs[token].prior == Unknown
    requires Reconciled(w.db, db, w.jobs[token], max, readFails, late)
    ensures LeadsTo(max, w, steps, after) && after.db == db
    ensures forall step | step in steps :: ByJob(step, token)
  {
    var job := w.jobs[token];
    if readFails {
      steps := [UnknownStep(token)];
      after := One(max, w, UnknownStep(token));
    } else if HasTicket(w.db, job.key) {
      var t :| t in w.db.tickets && w.db.tickets[t].key == job.key && db == Verified(w.db, job, t, max, late);
      var middle := One(max, w, LookStep(token));
      TicketIsTheOne(max, w, t, job.key);
      var rest;
      rest, after := VerifyIsSteps(max, middle, token, t, late);
      Then(max, w, [LookStep(token)], middle, rest, after);
      steps := [LookStep(token)] + rest;
    } else {
      steps := [LookStep(token), RequeueStep(token)];
      after := Two(max, w, LookStep(token), RequeueStep(token));
    }
  }

  lemma BranchIsSteps(max: Limit, w: World, token: Token, newId: Uuid, readFails: bool, fault: Fault, late: LateFault, db: Db)
    returns (steps: seq<Step>, after: World)
    requires Inv(max, w) && At(w, token, Started)
    requires Performed(w.db, db, w.jobs[token], newId, max, readFails, fault, late)
    ensures LeadsTo(max, w, steps, after) && after.db == db
    ensures forall step | step in steps :: ByJob(step, token)
    ensures token in after.jobs && after.jobs[token] == w.jobs[token]
  {
    assert JobOk(w.db, token, w.jobs[token]);
    if w.jobs[token].prior == Unknown {
      steps, after := ReconcileIsSteps(max, w, token, readFails, late, db);
    } else {
      steps, after := ExecuteIsSteps(max, w, token, newId, fault, late, db);
    }
    LeadsToKeeps(max, w, steps, after);
    assert JobLater(w, after, token);
  }

  lemma SweepAndClaim(max: Limit, w: World, e: Uuid, token: Token, lease: nat) returns (held: World)
    requires Inv(max, w) && token !in w.jobs && Claimable(Sweep(w.db), e, max)
    ensures LeadsTo(max, w, [SweepStep, ClaimStep(e, token, lease)], held) && Inv(max, held)
    ensures At(held, token, Started) && held.jobs[token] == JobOf(Sweep(w.db), e, token)
    ensures held.db == Claim(Sweep(w.db), e, token, w.db.now + lease)
  {
    held := Two(max, w, SweepStep, ClaimStep(e, token, lease));
    StepKeeps(max, w, SweepStep);
    StepKeeps(max, w.(db := Sweep(w.db)), ClaimStep(e, token, lease));
  }

  lemma ThenBranch(max: Limit, w: World, held: World, first: seq<Step>, token: Token, newId: Uuid,
                   readFails: bool, fault: Fault, late: LateFault, db: Db)
    returns (rest: seq<Step>, after: World)
    requires Inv(max, w) && LeadsTo(max, w, first, held) && Inv(max, held) && At(held, token, Started)
    requires Performed(held.db, db, held.jobs[token], newId, max, readFails, fault, late)
    ensures LeadsTo(max, w, first + rest, after) && after.db == db && Keeps(max, w, after)
    ensures forall step | step in rest :: ByJob(step, token)
    ensures token in after.jobs && after.jobs[token] == held.jobs[token]
  {
    rest, after := BranchIsSteps(max, held, token, newId, readFails, fault, late, db);
    Then(max, w, first, held, rest, after);
    LeadsToKeeps(max, w, first + rest, after);
  }

  /** A turn that finds nothing to claim is a sweep. */
  lemma IdleTurnIsSweep(max: Limit, w: World, db: Db, token: Token, lease: nat, newId: Uuid,
                        readFails: bool, fault: Fault, late: LateFault)
    requires RanOnce(w.db, db, None, token, lease, newId, max, readFails, fault, late)
    ensures Enabled(w, SweepStep) && Apply(max, w, SweepStep) == w.(db := db)
  {}

  lemma ClaimedTurn(max: Limit, w: World, db: Db, job: Job, token: Token, lease: nat, newId: Uuid,
                    readFails: bool, fault: Fault, late: LateFault)
    returns (rest: seq<Step>, after: World)
    requires Inv(max, w) && token !in w.jobs
    requires Claimable(Sweep(w.db), job.execution, max) && job == JobOf(Sweep(w.db), job.execution, token)
    requires Performed(Claim(Sweep(w.db), job.execution, token, w.db.now + lease), db, job, newId, max, readFails, fault, late)
    ensures LeadsTo(max, w, [SweepStep, ClaimStep(job.execution, token, lease)] + rest, after)
    ensures after.db == db && Keeps(max, w, after)
    ensures forall step | step in rest :: ByJob(step, token)
    ensures token in after.jobs && after.jobs[token] == job
  {
    var held := SweepAndClaim(max, w, job.execution, token, lease);
    rest, after := ThenBranch(max, w, held, [SweepStep, ClaimStep(job.execution, token, lease)], token, newId,
                              readFails, fault, late, db);
  }

  /**
   A turn that claims a job, with any faults of the database, is a sweep, a claim and steps of that job alone.
   So every theorem about histories holds of executors that take such turns, whole or broken off.
   */
  lemma TurnIsSteps(max: Limit, w: World, db: Db, job: Job, token: Token, lease: nat, newId: Uuid,
                    readFails: bool, fault: Fault, late: LateFault)
    returns (rest: seq<Step>, after: World)
    requires Inv(max, w) && token !in w.jobs
    requires RanOnce(w.db, db, Some(job), token, lease, newId, max, readFails, fault, late)
    ensures LeadsTo(max, w, [SweepStep, ClaimStep(job.execution, token, lease)] + rest, after)
    ensures after.db == db && Keeps(max, w, after)
    ensures forall step | step in rest :: ByJob(step, token)
    ensures token in after.jobs && after.jobs[token] == job
  {
    rest, after := ClaimedTurn(max, w, db, job, token, lease, newId, readFails, fault, late);
  }
}

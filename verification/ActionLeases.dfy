/**
 Which executions an executor takes and until when it has them, in the columns of the tables, and which intents
 can be approved.
 */
module ActionLeases {
  import opened Wrappers
  import opened Actions
  import opened ActionProtocol
  import opened ActionSteps
  import opened Text
  import R = Rows

  // ---------------------------------------------------------------- sweep and claim, in columns

  /** The sweep makes running executions unknown whose lease ran out, and leaves every other row as it is. */
  lemma SweepIff(db: Db, e: Uuid)
    requires e in db.executions
    ensures e in Sweep(db).executions
    ensures var x := db.executions[e];
            Sweep(db).executions[e] ==
            if x.state == Running && x.lease.Some? && x.lease.value.until < db.now
            then Execution(x.intent, x.tenant, x.key, Unknown, x.attempts, x.availableAt, None, x.ticket) else x
  {}

  /** The claim takes an execution that is queued or unknown, due, and has an attempt left. */
  lemma ClaimIff(max: Limit, w: World, e: Uuid, token: Token, lease: nat)
    requires Inv(max, w) && token !in w.jobs && token !in w.stages
    ensures if e in w.db.executions && w.db.executions[e].state in {Queued, Unknown}
               && w.db.executions[e].availableAt <= w.db.now && w.db.executions[e].attempts < max
            then var x := w.db.executions[e];
                 var after := Apply(max, w, ClaimStep(e, token, lease));
                 && x.intent in w.db.intents
                 && after.db == w.db.(executions := w.db.executions[e :=
                      Execution(x.intent, x.tenant, x.key, Running, x.attempts + 1, x.availableAt, Some(R.Lease(token, w.db.now + lease)), x.ticket)])
                 && after.jobs == w.jobs[token := Job(e, x.intent, w.db.intents[x.intent].run, x.tenant, w.db.intents[x.intent].member,
                                                      x.key, w.db.intents[x.intent].title, token, x.state, x.attempts + 1)]
            else Apply(max, w, ClaimStep(e, token, lease)) == w
  {
    if e in w.db.executions {
      assert ExecutionOk(max, w.db, e);
    }
  }

  // ---------------------------------------------------------------- an executor and its execution

  predicate AtWork(db: Db, e: Uuid, token: Token, until: Time) {
    e in db.executions && db.executions[e].state == Running && db.executions[e].lease == Some(R.Lease(token, until))
  }

  /** The statements by which a job's call gives its execution back. */
  predicate EndsCall(step: Step, token: Token) {
    match step
    case CompleteStep(t) => t == token
    case RequeueStep(t) => t == token
    case UnknownStep(t) => t == token
    case FailStep(t) => t == token
    case _ => false
  }

  predicate Claims(max: Limit, w: World, step: Step, e: Uuid) {
    step.ClaimStep? && step.execution == e && Claimable(w.db, e, max)
  }

  /** A job of another token does not hold this execution. */
  lemma OthersDoNotHold(max: Limit, w: World, other: Token, e: Uuid, token: Token, until: Time)
    requires Inv(max, w) && AtWork(w.db, e, token, until) && other in w.jobs && other != token
    ensures Holds(w.db, w.jobs[other]) ==> w.jobs[other].execution != e
  {
    assert JobOk(w.db, other, w.jobs[other]);
  }

  lemma OtherCallsSpare(max: Limit, w: World, step: Step, e: Uuid, token: Token, until: Time)
    requires Inv(max, w) && Enabled(w, step) && AtWork(w.db, e, token, until) && !EndsCall(step, token)
    requires step.CompleteStep? || step.RequeueStep? || step.UnknownStep? || step.FailStep?
    ensures AtWork(Apply(max, w, step).db, e, token, until)
  {
    OthersDoNotHold(max, w, step.token, e, token, until);
  }

  lemma RestSpares(max: Limit, w: World, step: Step, e: Uuid, token: Token, until: Time)
    requires Inv(max, w) && Enabled(w, step) && AtWork(w.db, e, token, until) && w.db.now <= until
    requires !step.CompleteStep? && !step.RequeueStep? && !step.UnknownStep? && !step.FailStep?
    ensures AtWork(Apply(max, w, step).db, e, token, until)
  {
    match step
    case SweepStep => SweepIff(w.db, e);
    case _ =>
  }

  /** Inside its lease nothing but the end of its own call takes an execution from its job. */
  lemma WorkGoesOn(max: Limit, trace: seq<World>, steps: seq<Step>, k: nat, e: Uuid, token: Token, until: Time)
    requires IsTrace(max, trace, steps) && k < |steps| && AtWork(trace[k].db, e, token, until) && trace[k].db.now <= until
    requires !EndsCall(steps[k], token)
    ensures AtWork(trace[k + 1].db, e, token, until)
  {
    TraceHolds(max, trace, steps, k);
    if steps[k].CompleteStep? || steps[k].RequeueStep? || steps[k].UnknownStep? || steps[k].FailStep? {
      OtherCallsSpare(max, trace[k], steps[k], e, token, until);
    } else {
      RestSpares(max, trace[k], steps[k], e, token, until);
    }
  }

  lemma ClockMoves(max: Limit, w: World, step: Step)
    requires Enabled(w, step)
    ensures Apply(max, w, step).db.now == w.db.now + (if step.Tick? then step.seconds else 0)
  {}

  lemma ClockStep(max: Limit, trace: seq<World>, steps: seq<Step>, k: nat)
    requires IsTrace(max, trace, steps) && k < |steps|
    ensures trace[k].db.now <= trace[k + 1].db.now
  {
    ClockMoves(max, trace[k], steps[k]);
  }

  lemma {:induction false} ClockChain(worlds: seq<World>, i: nat, j: nat)
    requires i <= j < |worlds| && forall k: nat | k + 1 < |worlds| :: worlds[k].db.now <= worlds[k + 1].db.now
    ensures worlds[i].db.now <= worlds[j].db.now
    decreases j
  {
    if i < j {
      ClockChain(worlds, i, j - 1);
      assert worlds[j - 1].db.now <= worlds[j - 1 + 1].db.now;
    }
  }

  lemma ClockGoesOn(max: Limit, trace: seq<World>, steps: seq<Step>, i: nat, j: nat)
    requires IsTrace(max, trace, steps) && i <= j < |trace|
    ensures trace[i].db.now <= trace[j].db.now
  {
    forall k: nat | k + 1 < |trace| ensures trace[k].db.now <= trace[k + 1].db.now {
      ClockStep(max, trace, steps, k);
    }
    ClockChain(trace, i, j);
  }

  lemma ClaimStarts(max: Limit, trace: seq<World>, steps: seq<Step>, i: nat, e: Uuid)
    requires IsTrace(max, trace, steps) && i < |steps| && Claims(max, trace[i], steps[i], e)
    ensures AtWork(trace[i + 1].db, e, steps[i].token, trace[i].db.now + steps[i].lease)
    ensures trace[i + 1].db.now == trace[i].db.now
  {
    assert Enabled(trace[i], steps[i]) && trace[i + 1] == Apply(max, trace[i], steps[i]);
  }

  /** A job holds its execution until it ends its own call or the clock passes the end of its lease. */
  lemma JobLasts(max: Limit, trace: seq<World>, steps: seq<Step>, i: nat, j: nat, e: Uuid)
    requires IsTrace(max, trace, steps) && i < j < |trace| && Claims(max, trace[i], steps[i], e)
    requires forall k | i < k < j :: !EndsCall(steps[k], steps[i].token)
    requires trace[j].db.now <= trace[i].db.now + steps[i].lease
    ensures AtWork(trace[j].db, e, steps[i].token, trace[i].db.now + steps[i].lease)
  {
    var token, until := steps[i].token, trace[i].db.now + steps[i].lease;
    ClaimStarts(max, trace, steps, i, e);
    for k := i + 1 to j
      invariant AtWork(trace[k].db, e, token, until)
    {
      ClockGoesOn(max, trace, steps, k, j);
      WorkGoesOn(max, trace, steps, k, e, token, until);
    }
  }

  /** Between two claims of one execution the first job's call ended, or its lease ran out. */
  lemma OneExecutorAtATime(max: Limit, trace: seq<World>, steps: seq<Step>, i: nat, j: nat, e: Uuid)
    requires IsTrace(max, trace, steps) && i < j < |steps|
    requires Claims(max, trace[i], steps[i], e) && Claims(max, trace[j], steps[j], e)
    ensures (exists k :: i < k < j && EndsCall(steps[k], steps[i].token)) || trace[j].db.now > trace[i].db.now + steps[i].lease
  {
    if (forall k | i < k < j :: !EndsCall(steps[k], steps[i].token)) && trace[j].db.now <= trace[i].db.now + steps[i].lease {
      JobLasts(max, trace, steps, i, j, e);
    }
  }

  // ---------------------------------------------------------------- asking for an action, and approving it

  /** A run without an intent gets one exactly for a title that is not blank and no longer than 200 bytes. */
  lemma NewIntentIff(db: Db, run: Uuid, tenant: Uuid, member: Uuid, title: string, newId: Uuid)
    requires !HasIntent(db, run) && newId !in db.intents
    ensures var tx := EnsureIntent(db, run, tenant, member, title, newId);
            var text := TrimSpace(title);
            if text != [] && ByteLength(text) <= 200
            then tx == EnsureTx(db.(intents := db.intents[newId :=
                   Intent(run, tenant, member, text, DigestOf(text), PendingApproval, db.now + 15 * 60)]), Ensured)
            else tx == EnsureTx(db, InvalidIntent)
  {}

  /**
   An approval succeeds exactly when it comes from the member who asked, names the digest of what was asked, and
   comes while the intent is pending and has not expired; what it leaves can be claimed at once.
   */
  lemma ApproveIff(max: Limit, w: World, tenant: Uuid, member: Uuid, id: Uuid, digest: Digest, newId: Uuid)
    requires Inv(max, w) && newId !in w.db.executions
    ensures var tx := Approve(w.db, tenant, member, id, digest, newId);
            if id !in w.db.intents || w.db.intents[id].tenant != tenant || w.db.intents[id].member != member
            then tx == ApproveTx(w.db, Forbidden)
            else if w.db.intents[id].digest != digest || w.db.intents[id].state == IntentExpired then tx == ApproveTx(w.db, Conflict)
            else if w.db.intents[id].state != PendingApproval then tx == ApproveTx(w.db, Replayed) && HasExecution(w.db, id)
            else if w.db.now > w.db.intents[id].expires
            then tx == ApproveTx(w.db.(intents := w.db.intents[id := w.db.intents[id].(state := IntentExpired)]), Expired)
            else && tx.outcome == Approved && Claimable(tx.db, newId, max)
                 && tx.db == w.db.(
                      approvals := w.db.approvals[id := Approval(tenant, member, digest, w.db.now)],
                      executions := w.db.executions[newId := Execution(id, tenant, id, Queued, 0, w.db.now, None, None)],
                      intents := w.db.intents[id := w.db.intents[id].(state := IntentApproved)],
                      events := w.db.events + multiset{ApprovedEvent(newId)})
  {
    if id in w.db.intents {
      assert IntentOk(w.db, id);
    }
  }

  /** An intent that is still pending can be approved for fifteen minutes and not a second longer. */
  lemma ApprovableForFifteenMinutes(max: Limit, trace: seq<World>, steps: seq<Step>, i: nat, j: nat, newId: Uuid)
    requires IsTrace(max, trace, steps) && i < j < |trace| && newId !in trace[j].db.executions
    requires steps[i].EnsureStep? && steps[i].newId !in trace[i].db.intents && steps[i].newId in trace[i + 1].db.intents
    requires steps[i].newId in trace[j].db.intents ==> trace[j].db.intents[steps[i].newId].state == PendingApproval
    ensures Approve(trace[j].db, steps[i].tenant, steps[i].member, steps[i].newId, DigestOf(TrimSpace(steps[i].title)), newId).outcome == Approved
            <==> trace[j].db.now <= trace[i].db.now + 900
  {
    var id := steps[i].newId;
    NewIntentIff(trace[i].db, steps[i].run, steps[i].tenant, steps[i].member, steps[i].title, id);
    LaterInTrace(max, trace, steps, i + 1, j);
    assert IntentLater(trace[i + 1].db, trace[j].db, id);
    TraceHolds(max, trace, steps, j);
    ApproveIff(max, trace[j], steps[i].tenant, steps[i].member, id, DigestOf(TrimSpace(steps[i].title)), newId);
  }
}

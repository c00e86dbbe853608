/** Every step of the action protocol keeps its invariant, and nothing that ended is touched again. */
module ActionSteps {
  import opened Wrappers
  import opened Actions
  import opened ActionProtocol
  import R = Rows

  // ---------------------------------------------------------------- moving one execution

  predicate SameIntent(a: Intent, b: Intent) { b == a.(state := b.state) }

  /** Execution `e` moves on: its state, lease, ticket and attempts, its intent's state and its events. */
  ghost predicate Moves(db: Db, after: Db, e: Uuid) {
    && e in db.executions && e in after.executions && !Ended(db.executions[e])
    && after.now >= db.now && after.approvals == db.approvals && after.tickets == db.tickets
    && after.executions == db.executions[e := after.executions[e]]
    && after.executions[e].intent == db.executions[e].intent && after.executions[e].tenant == db.executions[e].tenant
    && after.executions[e].key == db.executions[e].key && after.executions[e].attempts >= db.executions[e].attempts
    && db.executions[e].intent in db.intents && db.executions[e].intent in after.intents
    && after.intents == db.intents[db.executions[e].intent := after.intents[db.executions[e].intent]]
    && SameIntent(db.intents[db.executions[e].intent], after.intents[db.executions[e].intent])
    && (forall other | other != e :: after.events[SucceededEvent(other)] == db.events[SucceededEvent(other)]
                                  && after.events[FailedEvent(other)] == db.events[FailedEvent(other)])
  }

  /** The lease was given back or handed to a job that is new. */
  predicate LeaseMoves(w: World, after: World, e: Uuid)
    requires e in after.db.executions
  {
    || (after.jobs == w.jobs && after.db.executions[e].lease.None?)
    || (after.db.executions[e].lease.Some? &&
        var token := after.db.executions[e].lease.value.token;
        && token !in w.jobs && token in after.jobs && after.jobs == w.jobs[token := after.jobs[token]]
        && after.jobs[token].execution == e && JobOk(after.db, token, after.jobs[token]))
  }

  lemma ExecutionsMove(max: Limit, db: Db, after: Db, e: Uuid)
    requires ExecutionsOk(max, db) && Moves(db, after, e) && ExecutionOk(max, after, e)
    ensures ExecutionsOk(max, after)
  {
    forall other | other in after.executions ensures ExecutionOk(max, after, other) {
      if other != e {
        assert ExecutionOk(max, db, other);
        assert ExecutionsApart(db, other, e);
      }
    }
    forall other | other !in after.executions ensures NoEvents(after, other) {
      assert NoEvents(db, other);
    }
    forall a, b | a in after.executions && b in after.executions ensures ExecutionsApart(after, a, b) {
      assert ExecutionsApart(db, a, b);
    }
  }

  lemma HasExecutionMoves(db: Db, after: Db, e: Uuid, i: Uuid)
    requires Moves(db, after, e)
    ensures HasExecution(after, i) <==> HasExecution(db, i)
  {
    if x :| x in db.executions && db.executions[x].intent == i {
      assert x in after.executions && after.executions[x].intent == i;
    }
    if x :| x in after.executions && after.executions[x].intent == i {
      assert x in db.executions && db.executions[x].intent == i;
    }
  }

  lemma IntentsMove(max: Limit, db: Db, after: Db, e: Uuid)
    requires IntentsOk(db) && Moves(db, after, e) && ExecutionOk(max, after, e)
    ensures IntentsOk(after)
  {
    forall i | i in after.intents ensures IntentOk(after, i) {
      assert IntentOk(db, i);
      HasExecutionMoves(db, after, e, i);
    }
    forall a, b | a in after.intents && b in after.intents ensures IntentsApart(after, a, b) {
      assert IntentsApart(db, a, b);
    }
    forall i | i in after.approvals ensures ApprovalOk(after, i) {
      assert ApprovalOk(db, i);
    }
  }

  lemma TicketsMove(db: Db, after: Db, e: Uuid)
    requires TicketsOk(db) && Moves(db, after, e)
    ensures TicketsOk(after)
  {
    forall t | t in after.tickets ensures TicketOk(after, t) {
      assert TicketOk(db, t);
    }
    forall a, b | a in after.tickets && b in after.tickets ensures TicketsApart(after, a, b) {
      assert TicketsApart(db, a, b);
    }
  }

  lemma JobsMove(w: World, after: World, e: Uuid)
    requires JobsOk(w) && Moves(w.db, after.db, e) && LeaseMoves(w, after, e)
    ensures JobsOk(after)
  {
    forall token | token in after.jobs ensures JobOk(after.db, token, after.jobs[token]) {
      if token in w.jobs {
        assert JobOk(w.db, token, w.jobs[token]);
      }
    }
    forall other | other in after.db.executions ensures LeaseKnown(after, other) {
      assert LeaseKnown(w, other);
    }
  }

  /** Calls stay where they are, and those of new jobs have just started. */
  ghost predicate CallsMove(w: World, after: World) {
    && after.stages.Keys == after.jobs.Keys
    && (forall token | token in w.jobs :: token in after.jobs && after.jobs[token] == w.jobs[token])
    && (forall token | token in w.stages :: token in after.stages && after.stages[token] == w.stages[token])
    && (forall token | token in after.stages && token !in w.stages :: after.stages[token] == Started)
  }

  lemma StagesMove(w: World, after: World)
    requires StagesOk(w) && CallsMove(w, after)
    requires forall t | t in w.db.tickets :: t in after.db.tickets && after.db.tickets[t] == w.db.tickets[t]
    ensures StagesOk(after)
  {
    forall token | token in after.stages ensures StageOk(after, token) {
      assert token in w.stages ==> StageOk(w, token);
    }
  }

  // ---------------------------------------------------------------- time only moves forward

  predicate ExecutionLater(db: Db, after: Db, e: Uuid)
    requires e in db.executions
  {
    && e in after.executions && after.executions[e].intent == db.executions[e].intent
    && after.executions[e].attempts >= db.executions[e].attempts
    && (Ended(db.executions[e]) ==>
          && after.executions[e] == db.executions[e]
          && after.events[SucceededEvent(e)] == db.events[SucceededEvent(e)]
          && after.events[FailedEvent(e)] == db.events[FailedEvent(e)])
  }

  predicate IntentLater(db: Db, after: Db, i: Uuid)
    requires i in db.intents
  {
    i in after.intents && SameIntent(db.intents[i], after.intents[i])
  }

  predicate ApprovalLater(db: Db, after: Db, i: Uuid)
    requires i in db.approvals
  {
    i in after.approvals && after.approvals[i] == db.approvals[i]
  }

  predicate TicketLater(db: Db, after: Db, t: Uuid)
    requires t in db.tickets
  {
    t in after.tickets && after.tickets[t] == db.tickets[t]
  }

  predicate JobLater(w: World, after: World, token: Token)
    requires token in w.jobs
  {
    && token in after.jobs && after.jobs[token] == w.jobs[token]
    && (Holds(after.db, w.jobs[token]) ==> Holds(w.db, w.jobs[token]))
  }

  ghost predicate Later(w: World, after: World) {
    && (forall e {:trigger ExecutionLater(w.db, after.db, e)} | e in w.db.executions :: ExecutionLater(w.db, after.db, e))
    && (forall i {:trigger IntentLater(w.db, after.db, i)} | i in w.db.intents :: IntentLater(w.db, after.db, i))
    && (forall i {:trigger ApprovalLater(w.db, after.db, i)} | i in w.db.approvals :: ApprovalLater(w.db, after.db, i))
    && (forall t {:trigger TicketLater(w.db, after.db, t)} | t in w.db.tickets :: TicketLater(w.db, after.db, t))
    && (forall token {:trigger JobLater(w, after, token)} | token in w.jobs :: JobLater(w, after, token))
  }

  lemma LaterTransitive(a: World, b: World, c: World)
    requires Later(a, b) && Later(b, c)
    ensures Later(a, c)
  {
    forall e | e in a.db.executions ensures ExecutionLater(a.db, c.db, e) {
      assert ExecutionLater(a.db, b.db, e) && ExecutionLater(b.db, c.db, e);
    }
    forall i | i in a.db.intents ensures IntentLater(a.db, c.db, i) {
      assert IntentLater(a.db, b.db, i) && IntentLater(b.db, c.db, i);
    }
    forall i | i in a.db.approvals ensures ApprovalLater(a.db, c.db, i) {
      assert ApprovalLater(a.db, b.db, i) && ApprovalLater(b.db, c.db, i);
    }
    forall t | t in a.db.tickets ensures TicketLater(a.db, c.db, t) {
      assert TicketLater(a.db, b.db, t) && TicketLater(b.db, c.db, t);
    }
    forall token | token in a.jobs ensures JobLater(a, c, token) {
      assert JobLater(a, b, token) && JobLater(b, c, token);
    }
  }

  ghost predicate Keeps(max: Limit, w: World, after: World) { Inv(max, after) && Later(w, after) }

  lemma MoveKeeps(max: Limit, w: World, after: World, e: Uuid)
    requires Inv(max, w) && Moves(w.db, after.db, e) && ExecutionOk(max, after.db, e)
    requires LeaseMoves(w, after, e) && CallsMove(w, after)
    ensures Keeps(max, w, after)
  {
    StagesMove(w, after);
    ExecutionsMove(max, w.db, after.db, e);
    IntentsMove(max, w.db, after.db, e);
    TicketsMove(w.db, after.db, e);
    JobsMove(w, after, e);
    forall token | token in w.jobs ensures JobLater(w, after, token) {
      assert JobOk(w.db, token, w.jobs[token]);
    }
  }

  // ---------------------------------------------------------------- what a holder does

  lemma HolderRuns(max: Limit, w: World, token: Token)
    requires Inv(max, w) && token in w.jobs && Holds(w.db, w.jobs[token])
    ensures ExecutionOk(max, w.db, w.jobs[token].execution)
    ensures w.db.executions[w.jobs[token].execution].state == Running
    ensures w.jobs[token].attempts == w.db.executions[w.jobs[token].execution].attempts
    ensures w.jobs[token].intent == w.db.executions[w.jobs[token].execution].intent
  {
    assert JobOk(w.db, token, w.jobs[token]);
    assert ExecutionOk(max, w.db, w.jobs[token].execution);
  }

  lemma StayKeeps(max: Limit, w: World)
    requires Inv(max, w)
    ensures Keeps(max, w, w)
  {}

  lemma RequeueKeeps(max: Limit, w: World, token: Token)
    requires Inv(max, w) && token in w.jobs
    ensures Keeps(max, w, w.(db := Requeue(w.db, w.jobs[token])))
  {
    var job := w.jobs[token];
    if Holds(w.db, job) {
      HolderRuns(max, w, token);
      MoveKeeps(max, w, w.(db := Requeue(w.db, job)), job.execution);
    } else {
      StayKeeps(max, w);
    }
  }

  lemma UnknownKeeps(max: Limit, w: World, token: Token)
    requires Inv(max, w) && token in w.jobs
    ensures Keeps(max, w, w.(db := MarkUnknown(w.db, w.jobs[token])))
  {
    var job := w.jobs[token];
    if Holds(w.db, job) {
      HolderRuns(max, w, token);
      MoveKeeps(max, w, w.(db := MarkUnknown(w.db, job)), job.execution);
    } else {
      StayKeeps(max, w);
    }
  }

  lemma FailKeeps(max: Limit, w: World, token: Token)
    requires Inv(max, w) && token in w.jobs
    ensures Keeps(max, w, w.(db := Fail(w.db, w.jobs[token], max)))
  {
    var job := w.jobs[token];
    if Holds(w.db, job) {
      HolderRuns(max, w, token);
      MoveKeeps(max, w, w.(db := Fail(w.db, job, max)), job.execution);
    } else {
      StayKeeps(max, w);
    }
  }

  /** What an executor read under its key can be nothing but its own ticket, so the read-back never differs. */
  lemma ReadBackAgrees(max: Limit, w: World, token: Token)
    requires Inv(max, w) && HasRead(w, token)
    ensures w.stages[token].ticket in w.db.tickets && ReadBack(w.db.tickets[w.stages[token].ticket], w.jobs[token])
    ensures w.db.tickets[w.stages[token].ticket].key == w.jobs[token].key
  {
    var job := w.jobs[token];
    assert StageOk(w, token);
    assert JobOk(w.db, token, job);
    assert TicketOk(w.db, w.stages[token].ticket);
    assert ExecutionOk(max, w.db, job.execution);
  }

  lemma CompleteKeeps(max: Limit, w: World, token: Token)
    requires Inv(max, w) && HasRead(w, token)
    ensures Keeps(max, w, w.(db := VerifyAndComplete(w.db, w.jobs[token], w.stages[token].ticket, max)))
  {
    var job := w.jobs[token];
    ReadBackAgrees(max, w, token);
    if Holds(w.db, job) {
      HolderRuns(max, w, token);
      assert JobOk(w.db, token, job);
      MoveKeeps(max, w, w.(db := Complete(w.db, job, w.stages[token].ticket)), job.execution);
    } else {
      StayKeeps(max, w);
    }
  }

  lemma ClaimKeeps(max: Limit, w: World, e: Uuid, token: Token, until: Time)
    requires Inv(max, w) && token !in w.jobs && Claimable(w.db, e, max)
    ensures Keeps(max, w, World(Claim(w.db, e, token, until), w.jobs[token := JobOf(w.db, e, token)], w.stages[token := Started]))
  {
    var after := World(Claim(w.db, e, token, until), w.jobs[token := JobOf(w.db, e, token)], w.stages[token := Started]);
    assert ExecutionOk(max, w.db, e);
    assert JobOk(after.db, token, JobOf(w.db, e, token));
    MoveKeeps(max, w, after, e);
  }

  /** A call that moves on touches no table. */
  lemma StageKeeps(max: Limit, w: World, token: Token, stage: Stage)
    requires Inv(max, w) && token in w.jobs && StageOk(Put(w, token, w.db, stage), token)
    ensures Keeps(max, w, Put(w, token, w.db, stage))
  {
    var after := Put(w, token, w.db, stage);
    forall other | other in after.stages ensures StageOk(after, other) {
      assert other != token ==> StageOk(w, other);
    }
    forall e | e in w.db.executions ensures LeaseKnown(after, e) {
      assert LeaseKnown(w, e);
    }
  }

  /** A statement followed by the call moving on. */
  lemma ThenStage(max: Limit, w: World, token: Token, db: Db, stage: Stage)
    requires Keeps(max, w, w.(db := db)) && token in w.jobs && StageOk(Put(w, token, db, stage), token)
    ensures Keeps(max, w, Put(w, token, db, stage))
  {
    StageKeeps(max, w.(db := db), token, stage);
    LaterTransitive(w, w.(db := db), Put(w, token, db, stage));
  }

  // ---------------------------------------------------------------- the sweep

  function SweepOne(db: Db, e: Uuid): Db {
    if Lapsed(db, e) then PutExecution(db, e, db.executions[e].(state := Unknown, lease := None)) else db
  }

  function SweepSet(db: Db, chosen: set<Uuid>): Db {
    db.(executions := map e | e in db.executions ::
          if e in chosen && Lapsed(db, e) then db.executions[e].(state := Unknown, lease := None) else db.executions[e])
  }

  lemma SweepOneKeeps(max: Limit, w: World, e: Uuid)
    requires Inv(max, w)
    ensures Keeps(max, w, w.(db := SweepOne(w.db, e)))
  {
    if Lapsed(w.db, e) {
      assert ExecutionOk(max, w.db, e);
      MoveKeeps(max, w, w.(db := SweepOne(w.db, e)), e);
    } else {
      StayKeeps(max, w);
    }
  }

  lemma {:induction false} SweepKeeps(max: Limit, w: World, chosen: set<Uuid>)
    requires Inv(max, w)
    ensures Keeps(max, w, w.(db := SweepSet(w.db, chosen)))
    decreases |chosen|
  {
    if chosen == {} {
      assert SweepSet(w.db, {}).executions == w.db.executions;
      StayKeeps(max, w);
    } else {
      var e :| e in chosen;
      var one := w.(db := SweepOne(w.db, e));
      SweepOneKeeps(max, w, e);
      SweepKeeps(max, one, chosen - {e});
      assert SweepSet(one.db, chosen - {e}).executions == SweepSet(w.db, chosen).executions;
      LaterTransitive(w, one, w.(db := SweepSet(w.db, chosen)));
    }
  }

  // ---------------------------------------------------------------- intents and approvals

  lemma EnsureKeeps(max: Limit, w: World, run: Uuid, tenant: Uuid, member: Uuid, title: string, newId: Uuid)
    requires Inv(max, w)
    ensures Keeps(max, w, w.(db := EnsureIntent(w.db, run, tenant, member, title, newId).db))
  {
    var tx := EnsureIntent(w.db, run, tenant, member, title, newId);
    if tx.db == w.db {
      StayKeeps(max, w);
    } else {
      NewIntentKeeps(max, w, newId, tx.db.intents[newId]);
    }
  }

  /** Executions only depend on the intents that were approved. */
  lemma SameExecutions(max: Limit, db: Db, after: Db)
    requires ExecutionsOk(max, db)
    requires after.executions == db.executions && after.approvals == db.approvals && after.events == db.events
    requires forall i | i in db.intents && i in db.approvals :: i in after.intents && after.intents[i] == db.intents[i]
    requires forall t | t in db.tickets :: TicketLater(db, after, t)
    ensures ExecutionsOk(max, after)
  {
    forall e | e in db.executions ensures ExecutionOk(max, after, e) {
      assert ExecutionOk(max, db, e);
      assert db.executions[e].ticket.Some? ==> TicketLater(db, after, db.executions[e].ticket.value);
    }
    forall e | e !in db.executions ensures NoEvents(after, e) {
      assert NoEvents(db, e);
    }
    forall a, b | a in db.executions && b in db.executions ensures ExecutionsApart(after, a, b) {
      assert ExecutionsApart(db, a, b);
    }
  }

  /** An intent that does not exist yet has been neither approved nor executed. */
  lemma NothingBefore(max: Limit, db: Db, i: Uuid)
    requires ExecutionsOk(max, db) && IntentsOk(db) && i !in db.intents
    ensures i !in db.approvals && !HasExecution(db, i)
  {
    forall x | x in db.approvals ensures x != i {
      assert ApprovalOk(db, x);
    }
    forall e | e in db.executions ensures db.executions[e].intent != i {
      assert ExecutionOk(max, db, e);
    }
  }

  lemma NewIntentsOk(max: Limit, db: Db, newId: Uuid, intent: Intent)
    requires ExecutionsOk(max, db) && IntentsOk(db) && newId !in db.intents && !HasIntent(db, intent.run)
    requires intent.state == PendingApproval && intent.digest == DigestOf(intent.title)
    ensures IntentsOk(db.(intents := db.intents[newId := intent]))
  {
    var after := db.(intents := db.intents[newId := intent]);
    NothingBefore(max, db, newId);
    forall i | i in after.intents ensures IntentOk(after, i) {
      assert i != newId ==> IntentOk(db, i);
      assert HasExecution(after, i) <==> HasExecution(db, i);
    }
    forall a, b | a in after.intents && b in after.intents ensures IntentsApart(after, a, b) {
      assert a in db.intents && b in db.intents ==> IntentsApart(db, a, b);
    }
    forall i | i in db.approvals ensures ApprovalOk(after, i) {
      assert ApprovalOk(db, i);
    }
  }

  lemma NewIntentKeeps(max: Limit, w: World, newId: Uuid, intent: Intent)
    requires Inv(max, w) && newId !in w.db.intents && !HasIntent(w.db, intent.run)
    requires intent.state == PendingApproval && intent.digest == DigestOf(intent.title)
    ensures Keeps(max, w, w.(db := w.db.(intents := w.db.intents[newId := intent])))
  {
    var after := w.(db := w.db.(intents := w.db.intents[newId := intent]));
    SameExecutions(max, w.db, after.db);
    NewIntentsOk(max, w.db, newId, intent);
    SameTickets(w, after);
  }

  /** Tickets and jobs do not notice new intents, approvals and executions. */
  lemma SameTickets(w: World, after: World)
    requires TicketsOk(w.db) && JobsOk(w) && StagesOk(w)
    requires after.db.tickets == w.db.tickets && after.jobs == w.jobs && after.stages == w.stages
    requires forall i | i in w.db.intents :: IntentLater(w.db, after.db, i)
    requires w.db.approvals.Keys <= after.db.approvals.Keys
    requires forall e | e in w.db.executions :: e in after.db.executions && after.db.executions[e] == w.db.executions[e]
    requires forall e | e in after.db.executions && e !in w.db.executions :: after.db.executions[e].lease.None?
    ensures TicketsOk(after.db) && JobsOk(after) && StagesOk(after)
    ensures forall token | token in w.jobs :: JobLater(w, after, token)
  {
    forall t | t in w.db.tickets ensures TicketOk(after.db, t) {
      assert TicketOk(w.db, t);
      assert IntentLater(w.db, after.db, w.db.tickets[t].key);
    }
    forall a, b | a in w.db.tickets && b in w.db.tickets ensures TicketsApart(after.db, a, b) {
      assert TicketsApart(w.db, a, b);
    }
    forall token | token in w.jobs ensures JobOk(after.db, token, w.jobs[token]) && JobLater(w, after, token) {
      assert JobOk(w.db, token, w.jobs[token]);
      assert IntentLater(w.db, after.db, w.jobs[token].intent);
    }
    forall e | e in after.db.executions ensures LeaseKnown(after, e) {
      assert e in w.db.executions ==> LeaseKnown(w, e);
    }
    StagesMove(w, after);
  }

  lemma ExpiredIntentsOk(db: Db, id: Uuid)
    requires IntentsOk(db) && id in db.intents && db.intents[id].state == PendingApproval
    ensures IntentsOk(db.(intents := PutIntentState(db, id, IntentExpired)))
    ensures id !in db.approvals
  {
    var after := db.(intents := PutIntentState(db, id, IntentExpired));
    assert IntentOk(db, id);
    forall i | i in after.intents ensures IntentOk(after, i) {
      assert IntentOk(db, i);
      assert HasExecution(after, i) <==> HasExecution(db, i);
    }
    forall a, b | a in after.intents && b in after.intents ensures IntentsApart(after, a, b) {
      assert IntentsApart(db, a, b);
    }
    forall i | i in db.approvals ensures ApprovalOk(after, i) {
      assert ApprovalOk(db, i);
    }
  }

  lemma ExpiredKeeps(max: Limit, w: World, id: Uuid)
    requires Inv(max, w) && id in w.db.intents && w.db.intents[id].state == PendingApproval
    ensures Keeps(max, w, w.(db := w.db.(intents := PutIntentState(w.db, id, IntentExpired))))
  {
    var after := w.(db := w.db.(intents := PutIntentState(w.db, id, IntentExpired)));
    ExpiredIntentsOk(w.db, id);
    SameExecutions(max, w.db, after.db);
    SameTickets(w, after);
  }

  /** The tables after an approval. */
  function ApprovedDb(db: Db, id: Uuid, newId: Uuid): Db
    requires id in db.intents
  {
    var intent := db.intents[id];
    db.(approvals := db.approvals[id := Approval(intent.tenant, intent.member, intent.digest, db.now)],
        executions := db.executions[newId := Execution(id, intent.tenant, id, Queued, 0, db.now, None, None)],
        intents := PutIntentState(db, id, IntentApproved),
        events := db.events + multiset{ApprovedEvent(newId)})
  }

  lemma ApprovedExecutionsOk(max: Limit, db: Db, id: Uuid, newId: Uuid)
    requires ExecutionsOk(max, db) && IntentsOk(db) && newId !in db.executions
    requires id in db.intents && db.intents[id].state == PendingApproval
    ensures ExecutionsOk(max, ApprovedDb(db, id, newId))
  {
    var after := ApprovedDb(db, id, newId);
    assert IntentOk(db, id);
    assert NoEvents(db, newId);
    forall e | e in after.executions ensures ExecutionOk(max, after, e) {
      if e != newId {
        assert ExecutionOk(max, db, e);
      }
    }
    forall e | e !in after.executions ensures NoEvents(after, e) {
      assert NoEvents(db, e);
    }
    forall a, b | a in after.executions && b in after.executions ensures ExecutionsApart(after, a, b) {
      if a in db.executions && b in db.executions {
        assert ExecutionsApart(db, a, b);
      }
    }
  }

  lemma ApprovedIntentsOk(db: Db, id: Uuid, newId: Uuid)
    requires IntentsOk(db) && newId !in db.executions
    requires id in db.intents && db.intents[id].state == PendingApproval && db.now <= db.intents[id].expires
    ensures IntentsOk(ApprovedDb(db, id, newId))
  {
    var after := ApprovedDb(db, id, newId);
    forall i | i in after.intents ensures IntentOk(after, i) {
      assert IntentOk(db, i);
      if i == id {
        assert after.executions[newId].intent == id;
      } else if x :| x in db.executions && db.executions[x].intent == i {
        assert after.executions[x].intent == i;
      }
    }
    forall a, b | a in after.intents && b in after.intents ensures IntentsApart(after, a, b) {
      assert IntentsApart(db, a, b);
    }
    forall i | i in after.approvals ensures ApprovalOk(after, i) {
      if i != id {
        assert ApprovalOk(db, i);
      }
    }
  }

  lemma ApproveKeeps(max: Limit, w: World, tenant: Uuid, member: Uuid, id: Uuid, digest: Digest, newId: Uuid)
    requires Inv(max, w)
    ensures Keeps(max, w, w.(db := Approve(w.db, tenant, member, id, digest, newId).db))
  {
    var tx := Approve(w.db, tenant, member, id, digest, newId);
    if tx.outcome == Approved {
      assert tx.db == ApprovedDb(w.db, id, newId);
      ApprovedExecutionsOk(max, w.db, id, newId);
      ApprovedIntentsOk(w.db, id, newId);
      SameTickets(w, w.(db := tx.db));
    } else if tx.outcome == Expired {
      ExpiredKeeps(max, w, id);
    } else {
      StayKeeps(max, w);
    }
  }

  // ---------------------------------------------------------------- tickets

  lemma NewTicketOk(max: Limit, w: World, token: Token)
    requires Inv(max, w) && token in w.jobs
    ensures var job := w.jobs[token];
            && job.key in w.db.intents && job.key in w.db.approvals
            && job.tenant == w.db.intents[job.key].tenant && job.member == w.db.intents[job.key].member
            && job.title == w.db.intents[job.key].title
  {
    assert JobOk(w.db, token, w.jobs[token]);
    assert ExecutionOk(max, w.db, w.jobs[token].execution);
  }

  /** Whoever inserts, and however late, the ticket is the one its intent asked for, and the only one. */
  lemma InsertKeeps(max: Limit, w: World, token: Token, newId: Uuid)
    requires Inv(max, w) && token in w.jobs
    ensures Keeps(max, w, w.(db := InsertTicket(w.db, w.jobs[token], newId)))
  {
    var job := w.jobs[token];
    var after := w.(db := InsertTicket(w.db, job, newId));
    if after.db == w.db {
      StayKeeps(max, w);
    } else {
      NewTicketOk(max, w, token);
      SameExecutions(max, w.db, after.db);
      SameIntents(w.db, after.db);
      forall t | t in after.db.tickets ensures TicketOk(after.db, t) {
        assert t in w.db.tickets ==> TicketOk(w.db, t);
      }
      forall a, b | a in after.db.tickets && b in after.db.tickets ensures TicketsApart(after.db, a, b) {
        assert a in w.db.tickets && b in w.db.tickets ==> TicketsApart(w.db, a, b);
      }
      SameJobs(w, after);
    }
  }

  lemma SameIntents(db: Db, after: Db)
    requires IntentsOk(db) && after.intents == db.intents && after.approvals == db.approvals && after.executions == db.executions
    ensures IntentsOk(after)
  {
    forall i | i in after.intents ensures IntentOk(after, i) {
      assert IntentOk(db, i);
      assert HasExecution(after, i) <==> HasExecution(db, i);
    }
    forall a, b | a in after.intents && b in after.intents ensures IntentsApart(after, a, b) {
      assert IntentsApart(db, a, b);
    }
    forall i | i in after.approvals ensures ApprovalOk(after, i) {
      assert ApprovalOk(db, i);
    }
  }

  lemma SameJobs(w: World, after: World)
    requires JobsOk(w) && StagesOk(w) && after.jobs == w.jobs && after.stages == w.stages
    requires after.db.executions == w.db.executions && after.db.intents == w.db.intents
    requires forall t | t in w.db.tickets :: TicketLater(w.db, after.db, t)
    ensures JobsOk(after) && StagesOk(after)
    ensures forall token | token in w.jobs :: JobLater(w, after, token)
  {
    forall token | token in w.jobs ensures JobOk(after.db, token, w.jobs[token]) && JobLater(w, after, token) {
      assert JobOk(w.db, token, w.jobs[token]);
    }
    forall e | e in w.db.executions ensures LeaseKnown(after, e) {
      assert LeaseKnown(w, e);
    }
    forall t | t in w.db.tickets ensures t in after.db.tickets && after.db.tickets[t] == w.db.tickets[t] {
      assert TicketLater(w.db, after.db, t);
    }
    StagesMove(w, after);
  }

  lemma ClockKeeps(max: Limit, w: World, now: Time, runs: map<Uuid, R.RunState>)
    requires Inv(max, w)
    ensures Keeps(max, w, w.(db := w.db.(now := now, runs := runs)))
  {
    var after := w.(db := w.db.(now := now, runs := runs));
    SameExecutions(max, w.db, after.db);
    SameIntents(w.db, after.db);
    SameTickets(w, after);
  }

  // ---------------------------------------------------------------- every step, every trace

  lemma StepKeeps(max: Limit, w: World, step: Step)
    requires Inv(max, w) && Enabled(w, step)
    ensures Keeps(max, w, Apply(max, w, step))
  {
    match step {
      case Tick(seconds) => ClockKeeps(max, w, w.db.now + seconds, w.db.runs);
      case RunStep(run, state) => ClockKeeps(max, w, w.db.now, w.db.runs[run := state]);
      case EnsureStep(run, tenant, member, title, newId) => EnsureKeeps(max, w, run, tenant, member, title, newId);
      case ApproveStep(tenant, member, intent, digest, newId) => ApproveKeeps(max, w, tenant, member, intent, digest, newId);
      case SweepStep =>
        SweepKeeps(max, w, w.db.executions.Keys);
        assert SweepSet(w.db, w.db.executions.Keys).executions == Sweep(w.db).executions;
      case ClaimStep(e, token, lease) =>
        if Claimable(w.db, e, max) {
          ClaimKeeps(max, w, e, token, w.db.now + lease);
        } else {
          StayKeeps(max, w);
        }
      case InsertStep(token, newId) =>
        var inserted := InsertTicket(w.db, w.jobs[token], newId);
        InsertKeeps(max, w, token, newId);
        assert StageOk(w.(db := inserted), token);
        ThenStage(max, w, token, inserted, AfterInsert(w, token, inserted));
      case LookStep(token) => StageKeeps(max, w, token, AfterLook(w, token));
      case CompleteStep(token) =>
        CompleteKeeps(max, w, token);
        ThenStage(max, w, token, VerifyAndComplete(w.db, w.jobs[token], w.stages[token].ticket, max), Over);
      case RequeueStep(token) =>
        RequeueKeeps(max, w, token);
        ThenStage(max, w, token, Requeue(w.db, w.jobs[token]), Over);
      case UnknownStep(token) =>
        UnknownKeeps(max, w, token);
        ThenStage(max, w, token, MarkUnknown(w.db, w.jobs[token]), AfterUnknown(w, token));
      case FailStep(token) =>
        FailKeeps(max, w, token);
        ThenStage(max, w, token, Fail(w.db, w.jobs[token], max), Over);
    }
  }

  lemma InitHolds(max: Limit, w: World)
    requires Init(w)
    ensures Inv(max, w)
  {}

  lemma {:induction false} TraceHolds(max: Limit, trace: seq<World>, steps: seq<Step>, i: nat)
    requires IsTrace(max, trace, steps) && i < |trace|
    ensures Inv(max, trace[i])
  {
    if i == 0 {
      InitHolds(max, trace[0]);
    } else {
      TraceHolds(max, trace, steps, i - 1);
      StepKeeps(max, trace[i - 1], steps[i - 1]);
    }
  }

  lemma LaterByOne(max: Limit, trace: seq<World>, steps: seq<Step>, k: nat)
    requires IsTrace(max, trace, steps) && k < |steps|
    ensures Later(trace[k], trace[k + 1])
  {
    TraceHolds(max, trace, steps, k);
    StepKeeps(max, trace[k], steps[k]);
  }

  lemma LaterInTrace(max: Limit, trace: seq<World>, steps: seq<Step>, i: nat, j: nat)
    requires IsTrace(max, trace, steps) && i <= j < |trace|
    ensures Later(trace[i], trace[j])
  {
    for k := i to j
      invariant Later(trace[i], trace[k])
    {
      LaterByOne(max, trace, steps, k);
      LaterTransitive(trace[i], trace[k], trace[k + 1]);
    }
  }
}

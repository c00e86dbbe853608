/**
 The recovery query of the delivery store updates deliveries, runs, lanes and delegations a set at a
 time.  It has the same effect as ending the exhausted deliveries one by one, in any order, each the
 way `finishFailure` would.
 */
module Recovery {
  import opened Rows
  import opened Phases
  import opened Transactions
  import opened Protocol
  import opened Frames
  import SendSteps

  /** Ends one exhausted delivery as `finishFailure` does, and passes over one that no longer qualifies. */
  function FailOne(db: Db, id: Uuid, max: nat): Db {
    if Exhausted(db, id, max) && id in db.runs && OwnsPosition(db, db.runs[id])
    then Settle(db, id, Undelivered, Failed, JobFailed) else db
  }

  function FailEach(db: Db, order: seq<Uuid>, max: nat): Db
    decreases |order|
  {
    if order == [] then db else FailEach(FailOne(db, order[0], max), order[1..], max)
  }

  function Members(order: seq<Uuid>): set<Uuid> { set id | id in order }

  predicate Distinct(order: seq<Uuid>) {
    forall i, j | 0 <= i < j < |order| :: order[i] != order[j]
  }

  /** It is `finishFailure` for whoever held the lapsed lease. */
  lemma FailOneIsFinishFailure(cfg: Config, w: World, token: Token)
    requires Inv(cfg, w) && token in w.sends && SendHeld(w.db, w.sends[token])
    requires Exhausted(w.db, w.sends[token].id, cfg.sendLimit)
    ensures FailOne(w.db, w.sends[token].id, cfg.sendLimit) == MarkPermanent(w.db, w.sends[token]).db
    ensures MarkPermanent(w.db, w.sends[token]).outcome == Committed
  {
    SendSteps.SettleKeeps(cfg, w, w.sends[token].id, Undelivered, Failed, JobFailed);
  }

  lemma FailOneKeeps(cfg: Config, w: World, id: Uuid)
    requires Inv(cfg, w)
    ensures Keeps(cfg, w, w.(db := FailOne(w.db, id, cfg.sendLimit)))
  {
    if Exhausted(w.db, id, cfg.sendLimit) {
      SendSteps.SettleKeeps(cfg, w, id, Undelivered, Failed, JobFailed);
    }
  }

  /** An exhausted delivery's run is delivery pending at the head of its lane. */
  ghost predicate Heads(db: Db, chosen: set<Uuid>) {
    && (forall id | id in chosen :: id in db.deliveries && id in db.runs && db.runs[id].state == DeliveryPending && OwnsPosition(db, db.runs[id]))
    && (forall a, b | a in chosen && b in chosen && db.runs[a].lane == db.runs[b].lane :: a == b)
  }

  lemma ExhaustedAreHeads(cfg: Config, w: World, chosen: set<Uuid>)
    requires Inv(cfg, w) && chosen <= ExhaustedSet(w.db, cfg.sendLimit)
    ensures Heads(w.db, chosen)
  {
    forall id | id in chosen
      ensures id in w.db.deliveries && id in w.db.runs && w.db.runs[id].state == DeliveryPending && OwnsPosition(w.db, w.db.runs[id])
    {
      SendSteps.SettleKeeps(cfg, w, id, Undelivered, Failed, JobFailed);
    }
    forall a, b | a in chosen && b in chosen && w.db.runs[a].lane == w.db.runs[b].lane ensures a == b {
      assert Apart(w.db, a, b);
    }
  }

  lemma LanesSplit(db: Db, chosen: set<Uuid>, id: Uuid, key: LaneKey)
    requires Heads(db, chosen) && id in chosen && key in db.lanes
    ensures var one := Settle(db, id, Undelivered, Failed, JobFailed);
            && (LaneRecovered(db, chosen, key) <==> key == db.runs[id].lane || LaneRecovered(one, chosen - {id}, key))
            && (LaneRecovered(one, chosen - {id}, key) ==> key != db.runs[id].lane)
  {
    var one, rest := Settle(db, id, Undelivered, Failed, JobFailed), chosen - {id};
    if LaneRecovered(one, rest, key) {
      var j :| j in one.runs && Recovered(one, rest, j) && one.runs[j].lane == key && OwnsPosition(one, one.runs[j]);
      assert Recovered(db, chosen, j) && OwnsPosition(db, db.runs[j]);
    }
    if LaneRecovered(db, chosen, key) {
      var j :| j in db.runs && Recovered(db, chosen, j) && db.runs[j].lane == key && OwnsPosition(db, db.runs[j]);
      if j != id {
        assert Recovered(one, rest, j) && OwnsPosition(one, one.runs[j]);
      }
    }
    if key == db.runs[id].lane {
      assert Recovered(db, chosen, id);
    }
  }

  lemma RunsSplit(db: Db, chosen: set<Uuid>, id: Uuid)
    requires Heads(db, chosen) && id in chosen
    ensures FailSet(Settle(db, id, Undelivered, Failed, JobFailed), chosen - {id}).runs == FailSet(db, chosen).runs
  {}

  lemma DeliveriesSplit(db: Db, chosen: set<Uuid>, id: Uuid)
    requires Heads(db, chosen) && id in chosen
    ensures FailSet(Settle(db, id, Undelivered, Failed, JobFailed), chosen - {id}).deliveries == FailSet(db, chosen).deliveries
  {}

  lemma JobsSplit(db: Db, chosen: set<Uuid>, id: Uuid)
    requires Heads(db, chosen) && id in chosen
    ensures FailSet(Settle(db, id, Undelivered, Failed, JobFailed), chosen - {id}).delegations == FailSet(db, chosen).delegations
  {}

  /** Taking one delivery out of the set and ending it first changes nothing. */
  lemma FailSetSplits(db: Db, chosen: set<Uuid>, id: Uuid)
    requires Heads(db, chosen) && id in chosen
    ensures FailSet(Settle(db, id, Undelivered, Failed, JobFailed), chosen - {id}) == FailSet(db, chosen)
  {
    var rest := chosen - {id};
    var one, all := Settle(db, id, Undelivered, Failed, JobFailed), FailSet(db, chosen);
    var two := FailSet(one, rest);
    RunsSplit(db, chosen, id);
    DeliveriesSplit(db, chosen, id);
    JobsSplit(db, chosen, id);
    assert two.lanes == all.lanes by {
      forall key | key in db.lanes ensures two.lanes[key] == all.lanes[key] {
        LanesSplit(db, chosen, id, key);
      }
    }
  }

  lemma FailNone(db: Db)
    ensures FailSet(db, {}) == db
  {
    var after := FailSet(db, {});
    assert after.deliveries == db.deliveries;
    assert after.runs == db.runs;
    assert after.delegations == db.delegations;
    forall key | key in db.lanes ensures !LaneRecovered(db, {}, key) {}
    assert after.lanes == db.lanes;
  }

  /** Ending one exhausted delivery leaves the others exhausted. */
  lemma OthersStayExhausted(db: Db, id: Uuid, max: nat)
    requires Exhausted(db, id, max) && id in db.runs && OwnsPosition(db, db.runs[id])
    ensures ExhaustedSet(FailOne(db, id, max), max) == ExhaustedSet(db, max) - {id}
  {}

  lemma RestOfOrder(order: seq<Uuid>)
    requires order != [] && Distinct(order)
    ensures Distinct(order[1..])
    ensures Members(order[1..]) == Members(order) - {order[0]}
  {
    forall id | id in order ensures id == order[0] || id in order[1..] {
      assert order == [order[0]] + order[1..];
    }
  }

  /** One round: the first delivery of the order is ended, the rest is still to be done. */
  lemma SequentialStep(db: Db, order: seq<Uuid>, max: nat)
    requires order != [] && Distinct(order)
    requires Members(order) == ExhaustedSet(db, max) && Heads(db, ExhaustedSet(db, max))
    ensures Members(order[1..]) == ExhaustedSet(FailOne(db, order[0], max), max)
    ensures FailExhausted(FailOne(db, order[0], max), max) == FailExhausted(db, max)
  {
    var id := order[0];
    assert id in Members(order);
    RestOfOrder(order);
    OthersStayExhausted(db, id, max);
    FailSetSplits(db, ExhaustedSet(db, max), id);
  }

  lemma Round(cfg: Config, w: World, order: seq<Uuid>)
    requires Inv(cfg, w) && order != [] && Distinct(order) && Members(order) == ExhaustedSet(w.db, cfg.sendLimit)
    ensures var next := w.(db := FailOne(w.db, order[0], cfg.sendLimit));
            && Keeps(cfg, w, next)
            && Distinct(order[1..]) && Members(order[1..]) == ExhaustedSet(next.db, cfg.sendLimit)
            && FailExhausted(next.db, cfg.sendLimit) == FailExhausted(w.db, cfg.sendLimit)
  {
    ExhaustedAreHeads(cfg, w, ExhaustedSet(w.db, cfg.sendLimit));
    SequentialStep(w.db, order, cfg.sendLimit);
    FailOneKeeps(cfg, w, order[0]);
    RestOfOrder(order);
  }

  lemma NothingExhausted(db: Db, max: nat)
    requires ExhaustedSet(db, max) == {}
    ensures FailExhausted(db, max) == db
  {
    FailNone(db);
  }

  /** The set-at-a-time query agrees with any order of one-at-a-time failures. */
  lemma {:induction false} RecoveryIsSequential(cfg: Config, w: World, order: seq<Uuid>)
    requires Inv(cfg, w) && Distinct(order)
    requires Members(order) == ExhaustedSet(w.db, cfg.sendLimit)
    ensures FailEach(w.db, order, cfg.sendLimit) == FailExhausted(w.db, cfg.sendLimit)
    decreases |order|
  {
    if order == [] {
      assert Members(order) == {};
      NothingExhausted(w.db, cfg.sendLimit);
    } else {
      Round(cfg, w, order);
      var next := w.(db := FailOne(w.db, order[0], cfg.sendLimit));
      RecoveryIsSequential(cfg, next, order[1..]);
      calc {
        FailEach(w.db, order, cfg.sendLimit);
        FailEach(next.db, order[1..], cfg.sendLimit);
        FailExhausted(next.db, cfg.sendLimit);
        FailExhausted(w.db, cfg.sendLimit);
      }
    }
  }

  /** Some order always exists. */
  lemma {:induction false} OrderOf(chosen: set<Uuid>) returns (order: seq<Uuid>)
    ensures Distinct(order) && Members(order) == chosen
    decreases |chosen|
  {
    if chosen == {} {
      order := [];
    } else {
      var id :| id in chosen;
      var rest := OrderOf(chosen - {id});
      order := [id] + rest;
      assert id !in Members(rest);
      forall j ensures j in order <==> j in chosen {
        assert j in Members(rest) <==> j in rest;
        assert order[1..] == rest;
      }
    }
  }

  lemma {:induction false} FailEachKeeps(cfg: Config, w: World, order: seq<Uuid>)
    requires Inv(cfg, w)
    ensures Keeps(cfg, w, w.(db := FailEach(w.db, order, cfg.sendLimit)))
    decreases |order|
  {
    if order == [] {
      LaterReflexive(w);
    } else {
      var next := w.(db := FailOne(w.db, order[0], cfg.sendLimit));
      FailOneKeeps(cfg, w, order[0]);
      FailEachKeeps(cfg, next, order[1..]);
      KeepsTransitive(cfg, w, next, w.(db := FailEach(w.db, order, cfg.sendLimit)));
    }
  }

  lemma RecoverKeeps(cfg: Config, w: World)
    requires Inv(cfg, w)
    ensures Keeps(cfg, w, w.(db := FailExhausted(w.db, cfg.sendLimit)))
  {
    var order := OrderOf(ExhaustedSet(w.db, cfg.sendLimit));
    RecoveryIsSequential(cfg, w, order);
    FailEachKeeps(cfg, w, order);
  }

  /** The query moves each lane that holds an exhausted delivery by one, and no other lane. */
  lemma RecoveryMovesLanes(cfg: Config, w: World, key: LaneKey)
    requires Inv(cfg, w) && key in w.db.lanes
    ensures var after := FailExhausted(w.db, cfg.sendLimit);
            after.lanes[key] ==
            if exists id :: Exhausted(w.db, id, cfg.sendLimit) && w.db.runs[id].lane == key
            then Advanced(w.db.lanes[key]) else w.db.lanes[key]
  {
    var chosen := ExhaustedSet(w.db, cfg.sendLimit);
    ExhaustedAreHeads(cfg, w, chosen);
    if id :| Exhausted(w.db, id, cfg.sendLimit) && w.db.runs[id].lane == key {
      assert id in chosen;
      assert Recovered(w.db, chosen, id);
    }
  }
}

/**
 What survives a transaction that touches the rows of one run: if those rows are consistent afterwards,
 the whole invariant is.
 */
module Frames {
  import opened Wrappers
  import opened Rows
  import opened Phases
  import opened Transactions
  import opened Protocol

  /** The lanes stay as they are, or the run's own lane moves past the run. */
  predicate LanesMove(db: Db, after: Db, id: Uuid)
    requires id in db.runs
  {
    || after.lanes == db.lanes
    || (OwnsPosition(db, db.runs[id]) &&
        after.lanes == db.lanes[db.runs[id].lane := Advanced(db.lanes[db.runs[id].lane])])
  }

  predicate Terminal(d: Delivery) { d.state in {Sent, Undelivered, Uncertain} }

  predicate Finished(g: Delegation) { g.state in {JobCompleted, JobFailed, JobUnknown} }

  /** Nothing but the rows of run `id` differs, and those are newer versions of what they were. */
  ghost predicate OnlyAt(db: Db, after: Db, id: Uuid) {
    && id in db.runs && id in after.runs && after.now == db.now
    && after.runs == db.runs[id := after.runs[id]]
    && Extends(db.runs[id], after.runs[id])
    && LanesMove(db, after, id)
    && (forall j | j != id :: Lookup(after.deliveries, j) == Lookup(db.deliveries, j))
    && (forall j | j != id :: Lookup(after.delegations, j) == Lookup(db.delegations, j))
    && (forall j | j != id :: Lookup(after.calls, j) == Lookup(db.calls, j))
    && (id in after.delegations <==> id in db.delegations)
    && (id in db.delegations ==>
          && after.delegations[id].parent == db.delegations[id].parent && after.delegations[id].key == db.delegations[id].key
          && (Finished(db.delegations[id]) ==> after.delegations[id] == db.delegations[id]))
    && (id in db.deliveries ==>
          && id in after.deliveries
          && after.deliveries[id].waiting == db.deliveries[id].waiting
          && after.deliveries[id].attempts >= db.deliveries[id].attempts
          && (Terminal(db.deliveries[id]) ==> after.deliveries[id] == db.deliveries[id]))
  }

  /** The run's lease was given back, left alone, or handed to a worker that has just scanned the row. */
  predicate LeaseMoves(w: World, after: World, id: Uuid)
    requires id in w.db.runs && id in after.db.runs
  {
    var r := after.db.runs[id];
    || (after.claims == w.claims && (r.lease.None? || r == w.db.runs[id]))
    || (r.lease.Some? && r.lease.value.token !in w.claims && r.attempts >= 1 &&
        after.claims == w.claims[r.lease.value.token := Claimed(id, r)])
  }

  predicate SendLeaseMoves(w: World, after: World, id: Uuid) {
    || (after.sends == w.sends &&
        (id in after.db.deliveries ==>
           || after.db.deliveries[id].lease.None?
           || (id in w.db.deliveries && after.db.deliveries[id] == w.db.deliveries[id])))
    || (id in after.db.deliveries &&
        var d := after.db.deliveries[id];
        d.lease.Some? && d.lease.value.token !in w.sends &&
        after.sends == w.sends[d.lease.value.token := Record(id, d)])
  }

  lemma LookupIs<K, V>(table: map<K, V>, key: K)
    ensures key in table <==> Lookup(table, key).Some?
    ensures key in table ==> Lookup(table, key) == Some(table[key])
  {}

  lemma LanesStayFilled(db: Db, after: Db, id: Uuid)
    requires LanesFilled(db) && OnlyAt(db, after, id)
    requires db.runs[id].lane in db.lanes && 1 <= db.runs[id].sequence < db.lanes[db.runs[id].lane].nextEnqueue
    ensures LanesFilled(after)
  {
    forall key | key in after.lanes ensures LaneFilled(after, key) {
      assert LaneFilled(db, key);
      forall q: nat | 1 <= q < after.lanes[key].nextEnqueue ensures Filled(after, key, q) {
        assert Filled(db, key, q);
        var j :| Occupies(db, key, q, j);
        assert Occupies(after, key, q, j);
      }
    }
  }

  lemma RunsStayUnique(db: Db, after: Db, id: Uuid)
    requires RunsUnique(db) && OnlyAt(db, after, id)
    ensures RunsUnique(after)
  {
    forall a, b | a in after.runs && b in after.runs ensures Apart(after, a, b) {
      assert Apart(db, a, b);
    }
  }

  /** Runs of the same lane only notice that the dispatch position moved past the run in question. */
  lemma OthersStayOk(cfg: Config, db: Db, after: Db, id: Uuid, j: Uuid)
    requires RunsUnique(db) && OnlyAt(db, after, id)
    requires j in db.runs && j != id && RunOkAt(cfg, db, j)
    ensures RunOkAt(cfg, after, j)
  {
    LookupIs(db.deliveries, j);
    LookupIs(after.deliveries, j);
    assert Lookup(after.deliveries, j) == Lookup(db.deliveries, j);
    assert Lookup(after.delegations, j) == Lookup(db.delegations, j);
    assert Lookup(after.calls, j) == Lookup(db.calls, j);
    if after.lanes != db.lanes && db.runs[j].lane == db.runs[id].lane {
      assert Apart(db, j, id);
    }
  }

  lemma JobsStayOk(db: Db, after: Db, id: Uuid)
    requires JobsOk(db) && OnlyAt(db, after, id)
    ensures JobsOk(after)
  {
    forall child | child in after.delegations
      ensures child in db.delegations && JobOk(after, child)
      ensures after.delegations[child].parent == db.delegations[child].parent
      ensures after.delegations[child].key == db.delegations[child].key
    {
      LookupIs(after.delegations, child);
      LookupIs(db.delegations, child);
      assert JobOk(db, child);
    }
    forall a, b | a in after.delegations && b in after.delegations ensures JobsApart(after, a, b) {
      assert JobsApart(db, a, b);
    }
  }

  lemma KeysStayOk(db: Db, after: Db, id: Uuid)
    requires KeysOk(db) && OnlyAt(db, after, id)
    ensures KeysOk(after)
  {
    forall j | j in after.deliveries.Keys || j in after.calls.Keys ensures j in after.runs {
      LookupIs(after.deliveries, j);
      LookupIs(db.deliveries, j);
      LookupIs(after.calls, j);
      LookupIs(db.calls, j);
    }
  }

  lemma ClaimsStayOk(cfg: Config, w: World, after: World, id: Uuid)
    requires WorkersOk(cfg, w) && OnlyAt(w.db, after.db, id) && LeaseMoves(w, after, id)
    requires Shape(after.db.runs[id]) && Counts(after.db.runs[id], cfg.runLimit)
    ensures forall token | token in after.claims :: ClaimOk(cfg, after.db, token, after.claims[token])
    ensures forall j | j in after.db.runs :: LeaseKnown(after, j)
  {
    forall token | token in after.claims ensures ClaimOk(cfg, after.db, token, after.claims[token]) {
      if token in w.claims {
        assert ClaimOk(cfg, w.db, token, w.claims[token]);
        assert after.claims[token] == w.claims[token];
      }
    }
    forall j | j in after.db.runs ensures LeaseKnown(after, j) {
      assert LeaseKnown(w, j);
    }
  }

  lemma SendsStayOk(cfg: Config, w: World, after: World, id: Uuid)
    requires WorkersOk(cfg, w) && OnlyAt(w.db, after.db, id) && SendLeaseMoves(w, after, id)
    ensures forall token | token in after.sends :: SendOk(after.db, token, after.sends[token])
    ensures forall j | j in after.db.deliveries :: SendLeaseKnown(after, j)
  {
    forall token | token in after.sends ensures SendOk(after.db, token, after.sends[token]) {
      if token in w.sends {
        var j := w.sends[token].id;
        assert SendOk(w.db, token, w.sends[token]);
        assert after.sends[token] == w.sends[token];
        LookupIs(w.db.deliveries, j);
        LookupIs(after.db.deliveries, j);
      }
    }
    forall j | j in after.db.deliveries ensures SendLeaseKnown(after, j) {
      LookupIs(w.db.deliveries, j);
      LookupIs(after.db.deliveries, j);
      assert j != id ==> Lookup(after.db.deliveries, j) == Lookup(w.db.deliveries, j);
      assert j in w.db.deliveries ==> SendLeaseKnown(w, j);
    }
  }

  // ---------------------------------------------------------------- time only moves forward

  predicate RunLater(db: Db, after: Db, id: Uuid)
    requires id in db.runs
  {
    && id in after.runs && Extends(db.runs[id], after.runs[id])
    && (Released(db.runs[id], Lookup(db.deliveries, id)) ==> Released(after.runs[id], Lookup(after.deliveries, id)))
  }

  predicate LaneLater(db: Db, after: Db, key: LaneKey)
    requires key in db.lanes
  {
    && key in after.lanes
    && db.lanes[key].nextDispatch <= after.lanes[key].nextDispatch
    && db.lanes[key].nextEnqueue <= after.lanes[key].nextEnqueue
  }

  predicate DeliveryLater(db: Db, after: Db, id: Uuid)
    requires id in db.deliveries
  {
    && id in after.deliveries
    && after.deliveries[id].waiting == db.deliveries[id].waiting
    && after.deliveries[id].attempts >= db.deliveries[id].attempts
    && (Terminal(db.deliveries[id]) ==> after.deliveries[id] == db.deliveries[id])
  }

  predicate JobLater(db: Db, after: Db, id: Uuid)
    requires id in db.delegations
  {
    && id in after.delegations
    && after.delegations[id].parent == db.delegations[id].parent && after.delegations[id].key == db.delegations[id].key
    && (Finished(db.delegations[id]) ==> after.delegations[id] == db.delegations[id])
  }

  /** A worker keeps its snapshot, and a token that was lost is never held again. */
  predicate ClaimLater(w: World, after: World, token: Token)
    requires token in w.claims
  {
    && token in after.claims && after.claims[token] == w.claims[token]
    && (Held(after.db, w.claims[token]) ==> Held(w.db, w.claims[token]))
  }

  predicate SendLater(w: World, after: World, token: Token)
    requires token in w.sends
  {
    && token in after.sends && after.sends[token] == w.sends[token]
    && (SendHeld(after.db, w.sends[token]) ==> SendHeld(w.db, w.sends[token]))
  }

  /** `after` may come later than `w`: rows are only added or moved forward. */
  ghost predicate Later(w: World, after: World) {
    && (forall id {:trigger RunLater(w.db, after.db, id)} | id in w.db.runs :: RunLater(w.db, after.db, id))
    && (forall key {:trigger LaneLater(w.db, after.db, key)} | key in w.db.lanes :: LaneLater(w.db, after.db, key))
    && (forall id {:trigger DeliveryLater(w.db, after.db, id)} | id in w.db.deliveries :: DeliveryLater(w.db, after.db, id))
    && (forall id {:trigger JobLater(w.db, after.db, id)} | id in w.db.delegations :: JobLater(w.db, after.db, id))
    && (forall token {:trigger ClaimLater(w, after, token)} | token in w.claims :: ClaimLater(w, after, token))
    && (forall token {:trigger SendLater(w, after, token)} | token in w.sends :: SendLater(w, after, token))
  }

  lemma LaterReflexive(w: World)
    ensures Later(w, w)
  {}

  lemma LaterTransitive(a: World, b: World, c: World)
    requires Later(a, b) && Later(b, c)
    ensures Later(a, c)
  {
    forall id | id in a.db.runs ensures RunLater(a.db, c.db, id) {
      assert RunLater(a.db, b.db, id) && RunLater(b.db, c.db, id);
    }
    forall key | key in a.db.lanes ensures LaneLater(a.db, c.db, key) {
      assert LaneLater(a.db, b.db, key) && LaneLater(b.db, c.db, key);
    }
    forall id | id in a.db.deliveries ensures DeliveryLater(a.db, c.db, id) {
      assert DeliveryLater(a.db, b.db, id) && DeliveryLater(b.db, c.db, id);
    }
    forall id | id in a.db.delegations ensures JobLater(a.db, c.db, id) {
      assert JobLater(a.db, b.db, id) && JobLater(b.db, c.db, id);
    }
    forall token | token in a.claims ensures ClaimLater(a, c, token) {
      assert ClaimLater(a, b, token) && ClaimLater(b, c, token);
    }
    forall token | token in a.sends ensures SendLater(a, c, token) {
      assert SendLater(a, b, token) && SendLater(b, c, token);
    }
  }

  /** A step is good if the invariant holds after it and nothing moved backwards. */
  ghost predicate Keeps(cfg: Config, w: World, after: World) { Inv(cfg, after) && Later(w, after) }

  lemma KeepsTransitive(cfg: Config, a: World, b: World, c: World)
    requires Keeps(cfg, a, b) && Keeps(cfg, b, c)
    ensures Keeps(cfg, a, c)
  {
    LaterTransitive(a, b, c);
  }

  lemma RowsMoveForward(cfg: Config, db: Db, after: Db, id: Uuid)
    requires OnlyAt(db, after, id) && RunOkAt(cfg, db, id) && RunOkAt(cfg, after, id)
    ensures forall j | j in db.runs :: RunLater(db, after, j)
    ensures forall key | key in db.lanes :: LaneLater(db, after, key)
    ensures forall j | j in db.deliveries :: DeliveryLater(db, after, j)
    ensures forall j | j in db.delegations :: JobLater(db, after, j)
  {
    forall j | j in db.runs ensures RunLater(db, after, j) {
      assert j != id ==> Lookup(after.deliveries, j) == Lookup(db.deliveries, j);
    }
    forall j | j in db.deliveries ensures DeliveryLater(db, after, j) {
      LookupIs(db.deliveries, j);
      LookupIs(after.deliveries, j);
      assert j != id ==> Lookup(after.deliveries, j) == Lookup(db.deliveries, j);
    }
    forall j | j in db.delegations ensures JobLater(db, after, j) {
      LookupIs(db.delegations, j);
      LookupIs(after.delegations, j);
      assert j != id ==> Lookup(after.delegations, j) == Lookup(db.delegations, j);
    }
  }

  lemma TokensMoveForward(cfg: Config, w: World, after: World, id: Uuid)
    requires OnlyAt(w.db, after.db, id) && LeaseMoves(w, after, id) && SendLeaseMoves(w, after, id)
    ensures forall token | token in w.claims :: ClaimLater(w, after, token)
    requires WorkersOk(cfg, w)
    ensures forall token | token in w.sends :: SendLater(w, after, token)
  {
    forall token | token in w.claims ensures ClaimLater(w, after, token) {
      assert ClaimOk(cfg, w.db, token, w.claims[token]);
    }
    forall token | token in w.sends ensures SendLater(w, after, token) {
      assert SendOk(w.db, token, w.sends[token]);
      var j := w.sends[token].id;
      LookupIs(w.db.deliveries, j);
      LookupIs(after.db.deliveries, j);
      assert j != id ==> Lookup(after.db.deliveries, j) == Lookup(w.db.deliveries, j);
    }
  }

  lemma OneRunMovesForward(cfg: Config, w: World, after: World, id: Uuid)
    requires WorkersOk(cfg, w) && OnlyAt(w.db, after.db, id)
    requires RunOkAt(cfg, w.db, id) && RunOkAt(cfg, after.db, id)
    requires LeaseMoves(w, after, id) && SendLeaseMoves(w, after, id)
    ensures Later(w, after)
  {
    RowsMoveForward(cfg, w.db, after.db, id);
    TokensMoveForward(cfg, w, after, id);
  }

  /** One consistent run is enough. */
  lemma OneRunIsEnough(cfg: Config, w: World, after: World, id: Uuid)
    requires Inv(cfg, w) && OnlyAt(w.db, after.db, id)
    requires RunOkAt(cfg, after.db, id)
    requires LeaseMoves(w, after, id) && SendLeaseMoves(w, after, id)
    ensures Keeps(cfg, w, after)
  {
    assert RunOkAt(cfg, w.db, id);
    OneRunMovesForward(cfg, w, after, id);
    LanesStayFilled(w.db, after.db, id);
    RunsStayUnique(w.db, after.db, id);
    forall j | j in after.db.runs ensures RunOkAt(cfg, after.db, j) {
      if j != id {
        assert RunOkAt(cfg, w.db, j);
        OthersStayOk(cfg, w.db, after.db, id, j);
      }
    }
    JobsStayOk(w.db, after.db, id);
    KeysStayOk(w.db, after.db, id);
    ClaimsStayOk(cfg, w, after, id);
    SendsStayOk(cfg, w, after, id);
  }
}

/** Spawning a delegated run, statement by statement. */
module DelegationStore {
  import opened Wrappers
  import opened Rows
  import opened Tables
  import Spec = Transactions

  class Store {
    const pool: Database

    constructor (pool: Database)
      ensures this.pool == pool
    {
      this.pool := pool;
    }

    method ReadExisting(parent: Uuid, key: string) returns (child: Option<Uuid>)
      ensures child.Some? ==>
                && child.value in pool.delegations
                && pool.delegations[child.value].parent == parent && pool.delegations[child.value].key == key
      ensures child.Some? <==> Spec.JobTaken(pool.State(), parent, key)
    {
      if found :| found in pool.delegations && pool.delegations[found].parent == parent && pool.delegations[found].key == key {
        return Some(found);
      }
      return None;
    }

    /** `event` is the source event of the new run, made from the id of the new job. */
    method Spawn(parent: Uuid, key: string, newChild: Uuid, event: string, modelLimit: nat)
      returns (outcome: Outcome, child: Uuid)
      modifies pool
      ensures Tx(pool.State(), outcome) == Spec.Spawn(old(pool.State()), parent, key, newChild, event, modelLimit)
      ensures outcome == Committed ==>
                && child in pool.delegations
                && pool.delegations[child].parent == parent && pool.delegations[child].key == key
    {
      var existing := ReadExisting(parent, key);
      if existing.Some? {
        return Committed, existing.value;
      }
      if parent !in pool.runs || pool.runs[parent].state != Running || pool.runs[parent].plane != Passive {
        return Refused, newChild;
      }
      var lane := pool.runs[parent].lane;
      var lanes := pool.lanes;
      if lane !in lanes {
        lanes := lanes[lane := Lane(1, 1)];
      }
      lanes := lanes[lane := lanes[lane].(nextEnqueue := lanes[lane].nextEnqueue + 1)];
      var sequence := lanes[lane].nextEnqueue - 1;
      if newChild in pool.runs || exists id :: id in pool.runs && pool.runs[id].event == event {
        return Refused, newChild;
      }
      var row := Run(event, lane, sequence, Internal, modelLimit, Queued, 0, pool.now,
                     None, None, None, None, None, None, 0, 0, 0, 0, 0);
      var runs := pool.runs[newChild := row];
      var delegations := pool.delegations[newChild := Delegation(parent, key, JobQueued)];
      pool.lanes, pool.runs, pool.delegations := lanes, runs, delegations;
      return Committed, newChild;
    }
  }
}

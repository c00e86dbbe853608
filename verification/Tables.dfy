/** The database the stores share. */
module Tables {
  import opened Rows

  /** The row that a query ordered by `available_at` returns first, given when its rows are due. */
  predicate FirstDue(due: map<Uuid, Time>, id: Uuid) {
    id in due && forall j | j in due :: due[id] <= due[j]
  }

  lemma {:induction false} SomeRowIsFirst(due: map<Uuid, Time>)
    requires due != map[]
    ensures exists id :: FirstDue(due, id)
    decreases |due|
  {
    var a :| a in due;
    var rest := due - {a};
    if rest == map[] {
      assert forall j | j in due :: j == a || j in rest;
      assert FirstDue(due, a);
    } else {
      assert |rest| < |due| by {
        assert rest.Keys == due.Keys - {a};
      }
      SomeRowIsFirst(rest);
      var b :| FirstDue(rest, b);
      assert forall j | j in due :: j == a || j in rest;
      assert FirstDue(due, if due[a] <= due[b] then a else b);
    }
  }

  class Database {
    var now: Time
    var lanes: map<LaneKey, Lane>
    var runs: map<Uuid, Run>
    var deliveries: map<Uuid, Delivery>
    var delegations: map<Uuid, Delegation>
    var calls: map<Uuid, ToolCall>
    var pausedRuns: set<Uuid>
    var pausedDeliveries: set<Uuid>

    /** The contents as a value. */
    function State(): Db
      reads this
    {
      Db(now, lanes, runs, deliveries, delegations, calls, pausedRuns, pausedDeliveries)
    }

    constructor (start: Time)
      ensures State() == Db(start, map[], map[], map[], map[], map[], {}, {})
    {
      now, lanes, runs, deliveries, delegations, calls := start, map[], map[], map[], map[], map[];
      pausedRuns, pausedDeliveries := {}, {};
    }
  }
}

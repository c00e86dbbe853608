/** Histories in which a message is handed to its channel after its delivery has ended. */
module TransmissionHistories {
  import opened Wrappers
  import opened Rows
  import opened Phases
  import opened Transactions
  import opened Protocol
  import Histories
  import Transmissions

  /** One delivery, claimed by `claimed` workers of which none has made its call; the last one still holds it. */
  ghost predicate Stalled(w: World, r: Run, d: Delivery, claimed: nat) {
    && w.db == Db(w.db.now, map[r.lane := Lane(2, 1)], map[1 := r], map[1 := d], map[], map[], {}, {})
    && r.sequence == 1 && r.state == DeliveryPending && d.availableAt <= w.db.now && d.attempts == claimed
    && (forall token: Token :: token in w.sends <==> token < claimed)
    && (forall token | token in w.sends :: w.sends[token].id == 1)
    && w.unsent == w.sends.Keys
    && (if claimed == 0 then d.state == Pending
        else d.state == Sending && d.lease == Some(Lease(claimed - 1, w.db.now + 10)) && w.sends[claimed - 1] == Record(1, d))
  }

  lemma HandOverSole(cfg: Config, w: World, r: Run, bound: nat) returns (after: Run, d: Delivery)
    requires Histories.Grips(w, r, map[], bound) && BranchOf(Scan(r)) == Deliver
    ensures Enabled(w, WorkStep(bound - 1, HandOver))
    ensures Stalled(Apply(cfg, w, WorkStep(bound - 1, HandOver)), after, d, 0)
  {
    after := GivenBack(r, DeliveryPending, w.db.now);
    d := Delivery(r.lane.tenant, r.candidate.value.action, Pending, 0, w.db.now, None);
    assert map[1 := r][1 := after] == map[1 := after];
  }

  /** The first run of a lane is answered and handed over for delivery. */
  lemma Answered(cfg: Config, event: string, key: LaneKey, modelLimit: nat, text: string)
    returns (trace: seq<World>, steps: seq<Step>, r: Run, d: Delivery)
    requires text != ""
    ensures IsTrace(cfg, trace, steps) && Stalled(trace[|steps|], r, d, 0)
  {
    trace, steps, r := Histories.Answering(cfg, event, key, modelLimit);
    Histories.RunIsFine(cfg, trace, steps, r, map[], 2);
    trace, steps, r := Histories.StoredAndClaimed(cfg, trace, steps, r, map[], 2, StoreCandidate(Candidate(text, false)));
    Histories.RunIsFine(cfg, trace, steps, r, map[], 3);
    r, d := HandOverSole(cfg, trace[|steps|], r, 3);
    trace, steps := Histories.Extended(cfg, trace, steps, WorkStep(2, HandOver));
  }

  /** The lease lapses, and the delivery is claimed by one more worker that stalls before its call. */
  lemma OneMore(cfg: Config, w: World, r: Run, d: Delivery, claimed: nat)
    requires Stalled(w, r, d, claimed) && claimed < cfg.sendLimit
    ensures var later := Apply(cfg, w, Tick(11));
            && Enabled(later, ClaimSendStep(1, claimed, 10))
            && Stalled(Apply(cfg, later, ClaimSendStep(1, claimed, 10)), r, TakenDelivery(d, claimed, w.db.now + 21), claimed + 1)
  {}

  lemma {:induction false} Stalling(cfg: Config, event: string, key: LaneKey, modelLimit: nat, text: string, claimed: nat)
    returns (trace: seq<World>, steps: seq<Step>, r: Run, d: Delivery)
    requires text != "" && claimed <= cfg.sendLimit
    ensures IsTrace(cfg, trace, steps) && Stalled(trace[|steps|], r, d, claimed)
  {
    if claimed == 0 {
      trace, steps, r, d := Answered(cfg, event, key, modelLimit, text);
    } else {
      trace, steps, r, d := Stalling(cfg, event, key, modelLimit, text, claimed - 1);
      var w := trace[|steps|];
      OneMore(cfg, w, r, d, claimed - 1);
      trace, steps := Histories.Extended(cfg, trace, steps, Tick(11));
      trace, steps := Histories.Extended(cfg, trace, steps, ClaimSendStep(1, claimed - 1, 10));
      d := TakenDelivery(d, claimed - 1, w.db.now + 21);
    }
  }

  // ---------------------------------------------------------------- after an answer

  function EndOf(result: SendResult): DeliveryState
    requires result in {Accepted, Unclear}
  {
    if result.Accepted? then Sent else Uncertain
  }

  /** The second of two workers makes its call and records the answer. */
  lemma SecondAnswers(cfg: Config, w: World, r: Run, d: Delivery, result: SendResult)
    requires Stalled(w, r, d, 2) && result in {Accepted, Unclear}
    ensures Enabled(w, TransmitStep(1)) && Enabled(Apply(cfg, w, TransmitStep(1)), SendStep(1, result))
    ensures var after := Apply(cfg, Apply(cfg, w, TransmitStep(1)), SendStep(1, result));
            && 1 in after.db.deliveries && after.db.deliveries[1].state == EndOf(result)
            && Transmissions.Transmits(after, TransmitStep(0), 1)
  {}

  /** With two attempts or more, the worker that was overtaken still makes its call after the answer. */
  lemma LateAfterAnswer(cfg: Config, event: string, key: LaneKey, modelLimit: nat, text: string, result: SendResult)
    returns (trace: seq<World>, steps: seq<Step>)
    requires text != "" && cfg.sendLimit >= 2 && result in {Accepted, Unclear}
    ensures IsTrace(cfg, trace, steps) && |steps| >= 1
    ensures var w := trace[|steps| - 1];
            && 1 in w.db.deliveries && w.db.deliveries[1].state == EndOf(result)
            && Transmissions.Transmits(w, steps[|steps| - 1], 1)
  {
    var r, d;
    trace, steps, r, d := Stalling(cfg, event, key, modelLimit, text, 2);
    SecondAnswers(cfg, trace[|steps|], r, d, result);
    trace, steps := Histories.Extended(cfg, trace, steps, TransmitStep(1));
    trace, steps := Histories.Extended(cfg, trace, steps, SendStep(1, result));
    trace, steps := Histories.Extended(cfg, trace, steps, TransmitStep(0));
  }

  // ---------------------------------------------------------------- after a failure

  lemma StalledIsRecovered(cfg: Config, w: World, r: Run, d: Delivery)
    requires Stalled(w, r, d, cfg.sendLimit)
    ensures var after := Apply(cfg, Apply(cfg, w, Tick(11)), RecoverStep);
            && 1 in after.db.deliveries && after.db.deliveries[1].state == Undelivered
            && after.sends == w.sends && after.unsent == w.unsent && Transmissions.Unsent(after, 1) == after.unsent
            && Transmissions.Transmits(after, TransmitStep(0), 1)
  {}

  lemma {:induction false} Numbers(tokens: set<Token>, n: nat)
    requires forall token: Token :: token in tokens <==> token < n
    ensures |tokens| == n
  {
    if n == 0 {
      assert tokens == {};
    } else {
      Numbers(tokens - {n - 1}, n - 1);
    }
  }

  /**
   Under every limit a delivery can be failed with all its calls still to come: each worker that claimed it
   stalled, and the recovery query ended it.  The first of them then hands the message over, and is refused
   when it reports that the channel accepted it.
   */
  lemma LateAfterFailure(cfg: Config, event: string, key: LaneKey, modelLimit: nat, text: string)
    returns (trace: seq<World>, steps: seq<Step>)
    requires text != ""
    ensures IsTrace(cfg, trace, steps) && |steps| >= 1
    ensures var w, after := trace[|steps| - 1], trace[|steps|];
            && 1 in w.db.deliveries && w.db.deliveries[1].state == Undelivered
            && |Transmissions.Unsent(w, 1)| == cfg.sendLimit
            && Transmissions.Transmits(w, steps[|steps| - 1], 1)
            && steps[|steps| - 1].token in after.sends
            && MarkSent(after.db, after.sends[steps[|steps| - 1].token]) == Tx(after.db, LeaseNotHeld)
  {
    var r, d;
    trace, steps, r, d := Stalling(cfg, event, key, modelLimit, text, cfg.sendLimit);
    StalledIsRecovered(cfg, trace[|steps|], r, d);
    trace, steps := Histories.Extended(cfg, trace, steps, Tick(11));
    trace, steps := Histories.Extended(cfg, trace, steps, RecoverStep);
    var w := trace[|steps|];
    Numbers(w.unsent, cfg.sendLimit);
    trace, steps := Histories.Extended(cfg, trace, steps, TransmitStep(0));
    assert Apply(cfg, w, TransmitStep(0)).db == w.db;
  }

  // ---------------------------------------------------------------- exactly when the end is the end

  /**
   No message is handed over after its delivery ended as sent or uncertain, in any history, if and only if
   the workers are configured with a single attempt; after it ended as undelivered it can be under every limit.
   */
  lemma QuietIffOneAttempt(cfg: Config, end: DeliveryState)
    requires end in {Sent, Undelivered, Uncertain}
    ensures Transmissions.QuietAfter(cfg, end) <==> end != Undelivered && cfg.sendLimit == 1
  {
    var key := LaneKey(1, "", "");
    var trace, steps;
    if end == Undelivered {
      trace, steps := LateAfterFailure(cfg, "", key, 1, "text");
      assert !Transmissions.QuietAfter(cfg, end);
    } else if cfg.sendLimit >= 2 {
      trace, steps := LateAfterAnswer(cfg, "", key, 1, "text", if end == Sent then Accepted else Unclear);
      assert !Transmissions.QuietAfter(cfg, end);
    } else {
      forall trace: seq<World>, steps: seq<Step>, i: nat, j: nat, id: Uuid
        | IsTrace(cfg, trace, steps) && i <= j < |steps| && id in trace[i].db.deliveries && trace[i].db.deliveries[id].state == end
        ensures !Transmissions.Transmits(trace[j], steps[j], id)
      {
        Transmissions.OneAttemptIsQuiet(cfg, trace, steps, i, j, id);
      }
    }
  }
}

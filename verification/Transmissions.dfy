/**
 Handing messages to their channel.  A delivery worker commits its claim and then calls the channel under no
 lease, so a record that stalls before its call may make it after the delivery was claimed again, or ended.
 This module counts the calls, and says exactly when one can still come after the end.
 */
module Transmissions {
  import opened Rows
  import opened Phases
  import opened Transactions
  import opened Protocol
  import opened Frames
  import Fencing
  import Outcomes
  import Safety

  /** The records of a delivery, one for each time it was claimed. */
  function Records(w: World, id: Uuid): set<Token> {
    set token | token in w.sends && w.sends[token].id == id
  }

  /** Those that have not made their call yet. */
  function Unsent(w: World, id: Uuid): set<Token> {
    set token | token in w.unsent && token in w.sends && w.sends[token].id == id
  }

  /** A record of the delivery has made its call. */
  ghost predicate Called(w: World, id: Uuid) {
    exists token :: token in Records(w, id) && token !in w.unsent
  }

  /** The outcomes that take an answer of the channel. */
  predicate AnsweredState(db: Db, id: Uuid) {
    id in db.deliveries && db.deliveries[id].state in {Sent, Uncertain}
  }

  ghost predicate Tracked(w: World, id: Uuid) {
    && w.unsent <= w.sends.Keys
    && |Records(w, id)| == Outcomes.SendAttempts(w.db, id)
    && (AnsweredState(w.db, id) ==> Called(w, id))
  }

  /** The step hands a message of the delivery to its channel. */
  predicate Transmits(w: World, step: Step, id: Uuid) {
    step.TransmitStep? && step.token in w.unsent && step.token in w.sends && w.sends[step.token].id == id
  }

  // ---------------------------------------------------------------- one step

  lemma RecordsMove(cfg: Config, w: World, step: Step, id: Uuid)
    requires Enabled(w, step)
    ensures if Fencing.ClaimsSend(cfg, w, step, id)
            then step.token !in Records(w, id) && Records(Apply(cfg, w, step), id) == Records(w, id) + {step.token}
            else Records(Apply(cfg, w, step), id) == Records(w, id)
  {
    if step.ClaimSendStep? {
      Safety.ApplyClaimSend(cfg, w, step);
    }
  }

  lemma ClaimAddsUnsent(cfg: Config, w: World, step: Step, id: Uuid)
    requires Enabled(w, step) && w.unsent <= w.sends.Keys && step.ClaimSendStep?
    ensures Apply(cfg, w, step).unsent <= Apply(cfg, w, step).sends.Keys
    ensures Unsent(Apply(cfg, w, step), id) == Unsent(w, id) + (if Fencing.ClaimsSend(cfg, w, step, id) then {step.token} else {})
    ensures step.token !in Unsent(w, id)
  {
    Safety.ApplyClaimSend(cfg, w, step);
  }

  lemma CallTakesUnsent(cfg: Config, w: World, step: Step, id: Uuid)
    requires Enabled(w, step) && w.unsent <= w.sends.Keys && !step.ClaimSendStep?
    ensures Apply(cfg, w, step).unsent <= Apply(cfg, w, step).sends.Keys
    ensures Unsent(Apply(cfg, w, step), id) == Unsent(w, id) - (if Transmits(w, step, id) then {step.token} else {})
  {
    CallMoves(cfg, w, step);
  }

  lemma CallMoves(cfg: Config, w: World, step: Step)
    requires Enabled(w, step) && !step.ClaimSendStep?
    ensures Apply(cfg, w, step).sends == w.sends
    ensures Apply(cfg, w, step).unsent == if step.TransmitStep? then w.unsent - {step.token} else w.unsent
  {}

  lemma UnsentMoves(cfg: Config, w: World, step: Step, id: Uuid)
    requires Enabled(w, step) && w.unsent <= w.sends.Keys
    ensures Apply(cfg, w, step).unsent <= Apply(cfg, w, step).sends.Keys
    ensures |Unsent(Apply(cfg, w, step), id)| + One(Transmits(w, step, id)) == |Unsent(w, id)| + One(Fencing.ClaimsSend(cfg, w, step, id))
    ensures !Fencing.ClaimsSend(cfg, w, step, id) ==> Unsent(Apply(cfg, w, step), id) <= Unsent(w, id)
  {
    if step.ClaimSendStep? {
      ClaimAddsUnsent(cfg, w, step, id);
    } else {
      CallTakesUnsent(cfg, w, step, id);
      TransmitNeedsUnsent(w, step, id);
    }
  }

  lemma TransmitNeedsUnsent(w: World, step: Step, id: Uuid)
    ensures Transmits(w, step, id) ==> step.token in Unsent(w, id)
    ensures Transmits(w, step, id) ==> Unsent(w, id) != {}
  {}

  lemma WorkNeverAnswers(cfg: Config, db: Db, c: Claimed, work: Work, id: Uuid)
    ensures AnsweredState(DoWork(cfg, db, c, work).db, id) ==> AnsweredState(db, id)
  {}

  lemma SendAnswersOwn(cfg: Config, db: Db, s: Record, result: SendResult, id: Uuid)
    ensures AnsweredState(DoSend(cfg, db, s, result).db, id) && !AnsweredState(db, id) ==> s.id == id
  {}

  /** Only the holder of a record that made its call can end a delivery as sent or uncertain. */
  lemma AnswersComeFromCalls(cfg: Config, w: World, step: Step, id: Uuid)
    requires Enabled(w, step) && AnsweredState(Transact(cfg, w, step).db, id) && !AnsweredState(w.db, id)
    ensures step.SendStep? && step.token in Records(w, id) && step.token !in w.unsent
  {
    match step
    case WorkStep(token, work) => WorkNeverAnswers(cfg, w.db, w.claims[token], work, id);
    case SendStep(token, result) => SendAnswersOwn(cfg, w.db, w.sends[token], result, id);
    case _ =>
  }

  lemma CalledStays(cfg: Config, w: World, step: Step, id: Uuid)
    requires Enabled(w, step) && w.unsent <= w.sends.Keys && Called(w, id)
    ensures Called(Apply(cfg, w, step), id)
  {
    var token :| token in Records(w, id) && token !in w.unsent;
    RecordsMove(cfg, w, step, id);
    assert token in Records(Apply(cfg, w, step), id);
  }

  lemma TrackedStep(cfg: Config, w: World, step: Step, id: Uuid)
    requires Enabled(w, step) && Tracked(w, id)
    ensures Tracked(Apply(cfg, w, step), id)
  {
    var after := Apply(cfg, w, step);
    RecordsMove(cfg, w, step, id);
    UnsentMoves(cfg, w, step, id);
    Outcomes.StepCountsSends(cfg, w, step, id);
    if AnsweredState(after.db, id) {
      if AnsweredState(w.db, id) {
        CalledStays(cfg, w, step, id);
      } else {
        AnswersComeFromCalls(cfg, w, step, id);
        assert Called(w, id);
        CalledStays(cfg, w, step, id);
      }
    }
  }

  lemma {:induction false} TrackedInTrace(cfg: Config, trace: seq<World>, steps: seq<Step>, i: nat, id: Uuid)
    requires IsTrace(cfg, trace, steps) && i < |trace|
    ensures Tracked(trace[i], id)
  {
    if i == 0 {
      assert Records(trace[0], id) == {};
    } else {
      TrackedInTrace(cfg, trace, steps, i - 1, id);
      TrackedStep(cfg, trace[i - 1], steps[i - 1], id);
    }
  }

  // ---------------------------------------------------------------- how often a message is handed over

  /** How often a delivery's message was handed to its channel in the first `n` steps. */
  ghost function TransmitCount(cfg: Config, trace: seq<World>, steps: seq<Step>, id: Uuid, n: nat): nat
    requires IsTrace(cfg, trace, steps) && n <= |steps|
  {
    if n == 0 then 0 else TransmitCount(cfg, trace, steps, id, n - 1) + One(Transmits(trace[n - 1], steps[n - 1], id))
  }

  /** Every claim of a delivery has handed its message over once or is still to do so. */
  lemma {:induction false} CallsAreConserved(cfg: Config, trace: seq<World>, steps: seq<Step>, id: Uuid, n: nat)
    requires IsTrace(cfg, trace, steps) && n <= |steps|
    ensures TransmitCount(cfg, trace, steps, id, n) + |Unsent(trace[n], id)| == Outcomes.SendAttempts(trace[n].db, id)
  {
    if n == 0 {
      assert Unsent(trace[0], id) == {};
    } else {
      CallsAreConserved(cfg, trace, steps, id, n - 1);
      TrackedInTrace(cfg, trace, steps, n - 1, id);
      UnsentMoves(cfg, trace[n - 1], steps[n - 1], id);
      Outcomes.StepCountsSends(cfg, trace[n - 1], steps[n - 1], id);
    }
  }

  /** A message is handed to its channel at most as often as it was claimed, and so at most `sendLimit` times. */
  lemma CallsAreBounded(cfg: Config, trace: seq<World>, steps: seq<Step>, id: Uuid, n: nat)
    requires IsTrace(cfg, trace, steps) && n <= |steps|
    ensures TransmitCount(cfg, trace, steps, id, n) <= Outcomes.SendAttempts(trace[n].db, id) <= cfg.sendLimit
  {
    CallsAreConserved(cfg, trace, steps, id, n);
    Outcomes.SendCountIsAttempts(cfg, trace, steps, id, n);
    Outcomes.SendsAreBounded(cfg, trace, steps, id, n);
  }

  /** A delivery that ended with an answer of its channel has fewer calls to come than it had claims. */
  lemma AnswerSpendsCall(cfg: Config, trace: seq<World>, steps: seq<Step>, i: nat, id: Uuid)
    requires IsTrace(cfg, trace, steps) && i < |trace| && AnsweredState(trace[i].db, id)
    ensures |Unsent(trace[i], id)| < trace[i].db.deliveries[id].attempts <= cfg.sendLimit
  {
    TrackedInTrace(cfg, trace, steps, i, id);
    Outcomes.SendCountIsAttempts(cfg, trace, steps, id, i);
    Outcomes.SendsAreBounded(cfg, trace, steps, id, i);
    var token :| token in Records(trace[i], id) && token !in trace[i].unsent;
    assert Unsent(trace[i], id) <= Records(trace[i], id) - {token};
    Fits(Unsent(trace[i], id), Records(trace[i], id) - {token});
  }

  lemma {:induction false} Fits(a: set<Token>, b: set<Token>)
    requires a <= b
    ensures |a| <= |b|
  {
    if a != {} {
      var x :| x in a;
      Fits(a - {x}, b - {x});
    }
  }

  // ---------------------------------------------------------------- after the end

  lemma UnsentShrinksAt(cfg: Config, trace: seq<World>, steps: seq<Step>, i: nat, k: nat, id: Uuid)
    requires IsTrace(cfg, trace, steps) && i <= k < |steps|
    requires id in trace[i].db.deliveries && Terminal(trace[i].db.deliveries[id])
    ensures Unsent(trace[k + 1], id) <= Unsent(trace[k], id)
  {
    Outcomes.NoClaimAfterEnd(cfg, trace, steps, i, k, id);
    TrackedInTrace(cfg, trace, steps, k, id);
    UnsentMoves(cfg, trace[k], steps[k], id);
  }

  lemma {:induction false} UnsentShrinks(cfg: Config, trace: seq<World>, steps: seq<Step>, i: nat, j: nat, id: Uuid)
    requires IsTrace(cfg, trace, steps) && i <= j < |trace|
    requires id in trace[i].db.deliveries && Terminal(trace[i].db.deliveries[id])
    ensures Unsent(trace[j], id) <= Unsent(trace[i], id)
    decreases j - i
  {
    if i < j {
      UnsentShrinks(cfg, trace, steps, i, j - 1, id);
      UnsentShrinksAt(cfg, trace, steps, i, j - 1, id);
    }
  }

  /** A longer history in which the message is handed over at step `k`. */
  ghost predicate TransmitsLater(cfg: Config, trace: seq<World>, steps: seq<Step>, longer: seq<World>, more: seq<Step>, k: nat, id: Uuid) {
    && IsTrace(cfg, longer, more) && trace <= longer && steps <= more
    && |steps| <= k < |more| && Transmits(longer[k], more[k], id)
  }

  ghost predicate MayBeTransmitted(cfg: Config, trace: seq<World>, steps: seq<Step>, id: Uuid) {
    exists longer, more, k :: TransmitsLater(cfg, trace, steps, longer, more, k, id)
  }

  lemma UnsentMayCall(cfg: Config, trace: seq<World>, steps: seq<Step>, id: Uuid, token: Token)
    requires IsTrace(cfg, trace, steps) && token in Unsent(trace[|steps|], id)
    ensures MayBeTransmitted(cfg, trace, steps, id)
  {
    var w := trace[|steps|];
    var longer, more := trace + [Apply(cfg, w, TransmitStep(token))], steps + [TransmitStep(token)];
    assert TransmitsLater(cfg, trace, steps, longer, more, |steps|, id);
  }

  /** A message whose delivery has ended is handed over later if and only if some record of it has not made its call. */
  lemma LateTransmissionIff(cfg: Config, trace: seq<World>, steps: seq<Step>, id: Uuid)
    requires IsTrace(cfg, trace, steps)
    requires id in trace[|steps|].db.deliveries && Terminal(trace[|steps|].db.deliveries[id])
    ensures MayBeTransmitted(cfg, trace, steps, id) <==> Unsent(trace[|steps|], id) != {}
  {
    var n := |steps|;
    if token :| token in Unsent(trace[n], id) {
      UnsentMayCall(cfg, trace, steps, id, token);
    } else if MayBeTransmitted(cfg, trace, steps, id) {
      var longer: seq<World>, more: seq<Step>, k: nat :| TransmitsLater(cfg, trace, steps, longer, more, k, id);
      assert longer[n] == trace[n];
      UnsentShrinks(cfg, longer, more, n, k, id);
      TransmitNeedsUnsent(longer[k], more[k], id);
    }
  }

  /** No message is handed over once its delivery has ended in the given state. */
  ghost predicate QuietAfter(cfg: Config, end: DeliveryState) {
    forall trace: seq<World>, steps: seq<Step>, i: nat, j: nat, id: Uuid
      | IsTrace(cfg, trace, steps) && i <= j < |steps|
        && id in trace[i].db.deliveries && trace[i].db.deliveries[id].state == end ::
      !Transmits(trace[j], steps[j], id)
  }

  /** The channel's answer took the only call there was. */
  lemma OneAttemptIsQuiet(cfg: Config, trace: seq<World>, steps: seq<Step>, i: nat, j: nat, id: Uuid)
    requires cfg.sendLimit == 1 && IsTrace(cfg, trace, steps) && i <= j < |steps|
    requires AnsweredState(trace[i].db, id)
    ensures !Transmits(trace[j], steps[j], id)
  {
    AnswerSpendsCall(cfg, trace, steps, i, id);
    UnsentShrinks(cfg, trace, steps, i, j, id);
    TransmitNeedsUnsent(trace[j], steps[j], id);
  }
}

/** The promises of a campaign over whole runs: any order, repetition and timing of
    ticks, hooks, reports, stops and people's actions. */
module CampaignRuns {
  import opened Wrappers
  import opened CampaignRules
  import opened CampaignSpec
  import opened CampaignSafety

  ghost function Run(s: State, steps: seq<Step>): (t: State)
    requires Inv(s)
    ensures Indexed(t) && |s.attempts| <= |t.attempts|
    decreases |steps|
  {
    if steps == [] then s
    else
      StepKeepsInv(s, steps[0]);
      Run(Next(s, steps[0]), steps[1..])
  }

  function Created(mode: Mode, m: Metric, b: Budget, deadline: Option<Time>, e: Evaluator, now: Time): State {
    State(Row(Active, mode, m, b, deadline, e, None, 0, 0, None, Some(now), false, false, 0, 0), [], [])
  }

  lemma CreatedIsGood(mode: Mode, m: Metric, b: Budget, deadline: Option<Time>, e: Evaluator, now: Time)
    requires ValidSpec(mode, m, b, deadline, e, now)
    ensures Inv(Created(mode, m, b, deadline, e, now))
  {
  }

  /** Every run keeps the invariant and undoes nothing. */
  lemma {:induction false} EveryRunKeepsInv(s: State, steps: seq<Step>)
    requires Inv(s)
    ensures Steps(s, Run(s, steps))
    decreases |steps|
  {
    if steps == [] {
      StepsNowhere(s);
    } else {
      var t := Next(s, steps[0]);
      StepKeepsInv(s, steps[0]);
      EveryRunKeepsInv(t, steps[1..]);
      StepsChain(s, t, Run(t, steps[1..]));
    }
  }

  lemma RunKeeps(s: State, steps: seq<Step>, i: nat)
    requires Inv(s) && i < |s.attempts|
    ensures Keeps(s.attempts[i], s.past[i], Run(s, steps).attempts[i], Run(s, steps).past[i])
  {
    EveryRunKeepsInv(s, steps);
  }

  /** Token conservation: whatever the order and repetition of terminal events,
      reports, expiries, stops and late measurements, the campaign's tokens are the
      sum of the attempts', and each attempt's are the largest total read for it. */
  lemma TokensAreConserved(s: State, steps: seq<Step>)
    requires Inv(s)
    ensures var t := Run(s, steps);
      && t.row.tokensUsed == TokenSum(t.attempts)
      && forall i :: 0 <= i < |t.attempts| ==> t.attempts[i].tokens == Largest(t.past[i].totals)
  {
    EveryRunKeepsInv(s, steps);
    var t := Run(s, steps);
    assert forall i :: 0 <= i < |t.attempts| ==> Sane(t.attempts[i], t.past[i]);
  }

  /** Status and open work agree: no open attempt while blocked, at a plateau,
      awaiting confirmation or stopped; an open work cycle only while active, paused
      or achieved; three failures in a row only while blocked or stopped. */
  lemma StatusAndOpenWorkAgree(s: State, steps: seq<Step>)
    requires Inv(s)
    ensures var t := Run(s, steps);
      && (forall i, j :: 0 <= i < j < |t.attempts| ==> !(t.attempts[i].Open() && t.attempts[j].Open()))
      && (t.row.status in {Blocked, Plateau, AwaitingConfirmation, Stopped} ==> !AnyOpen(t.attempts))
      && (forall i :: 0 <= i < |t.attempts| && t.attempts[i].Open() && t.attempts[i].kind.Cycle? ==>
            t.row.status in {Active, Paused, Achieved})
      && (t.row.failures >= EVAL_FAILURE_BLOCK_THRESHOLD ==> t.row.status in {Blocked, Stopped})
      && t.row.cyclesRun == CycleCount(t.attempts)
  {
    EveryRunKeepsInv(s, steps);
  }

  /** Spacing: once an attempt has closed in a running campaign, the next opening
      time stays at least 300 s after the close and never before the wake-up, and so
      does every later opening. */
  lemma EveryGapIsKept(s: State, steps: seq<Step>, i: nat)
    requires Inv(s) && i < |s.attempts| && s.past[i].closedInLoop
    ensures s.attempts[i].closedAt.Some?
    ensures var t, closed, wake := Run(s, steps), s.attempts[i].closedAt.value, s.attempts[i].wakeAt;
      && t.row.nextCycleAt.Some? && t.row.nextCycleAt.value >= closed + 300
      && (wake.Some? ==> t.row.nextCycleAt.value >= wake.value)
      && (forall j :: i < j < |t.attempts| ==> t.attempts[j].openedAt >= closed + 300)
      && (forall j :: i < j < |t.attempts| ==> wake.Some? ==> t.attempts[j].openedAt >= wake.value)
  {
    EveryRunKeepsInv(s, steps);
    assert Spaces(s, i);
    RunKeeps(s, steps, i);
    assert Sane(s.attempts[i], s.past[i]);
    var t := Run(s, steps);
    assert Spaces(t, i);
    assert forall j :: i < j < |t.attempts| ==> Clears(t.attempts[i], t.attempts[j].openedAt);
  }

  /** The best attempt is always a closed, recorded, valid cycle judged improved; a
      later best is strictly better; and no recorded valid cycle judged in the loop
      beats it by more than the bar in force when that cycle was judged. */
  lemma TheBestIsTheBest(s: State, steps: seq<Step>)
    requires Inv(s)
    ensures var t := Run(s, steps);
      && (t.row.best.Some? ==> CountsAsBest(t.attempts[t.row.best.value]))
      && (s.row.best.Some? && t.row.best != s.row.best ==>
            t.row.best.Some? && BestScore(t).Some? && Gain(BestScore(t).value, BestScore(s).value, s.row.metric) > 0.0)
      && forall i :: 0 <= i < |t.attempts| && t.past[i].closedInLoop && t.attempts[i].recorded
                     && t.attempts[i].valid == Some(true) ==>
           && t.past[i].bar.Some? && t.row.best.Some? && t.attempts[i].score.Some? && BestScore(t).Some?
           && Gain(t.attempts[i].score.value, BestScore(t).value, t.row.metric) <= t.past[i].bar.value
  {
    EveryRunKeepsInv(s, steps);
    var t := Run(s, steps);
    assert forall i :: 0 <= i < |t.attempts| ==> Sane(t.attempts[i], t.past[i]);
  }

  /** One verdict each: nothing that happens later touches a closed attempt, except
      its measured tokens and a trusted score. */
  lemma ClosedAttemptsAreFinal(s: State, steps: seq<Step>, i: nat)
    requires Inv(s) && i < |s.attempts| && !s.attempts[i].Open()
    ensures var later := Run(s, steps).attempts[i];
      later == s.attempts[i].(tokens := later.tokens, trusted := later.trusted) && later.tokens >= s.attempts[i].tokens
  {
    RunKeeps(s, steps, i);
  }

  /** While an evaluation runs, nothing moves its deadline or its state: not the
      steps in between, however many requests to run it again they hold, nor one
      more such request, which writes at most the evaluator's digest. */
  lemma RunningAgainMovesNoDeadline(s: State, steps: seq<Step>, i: nat, a: nat, sent: Evaluator)
    requires Inv(s)
    ensures var t := Run(s, steps);
      i < |s.attempts| && s.attempts[i].job && s.attempts[i].evalStatus.Running? && t.attempts[i].Open() ==>
        t.attempts[i].evalStatus.Running? && t.attempts[i].deadline == s.attempts[i].deadline
    ensures var t := Run(s, steps); var u := JobRunAgain(t, a, sent);
      && u.row == t.row && u.past == t.past && |u.attempts| == |t.attempts|
      && forall k :: 0 <= k < |t.attempts| ==> u.attempts[k] == t.attempts[k].(digest := u.attempts[k].digest)
  {
    if i < |s.attempts| {
      RunKeeps(s, steps, i);
    }
  }

  /** Of several acceptances of one job only the first counts, whatever comes between. */
  lemma SecondAcceptanceIsNoOp(s: State, a: nat, first: Evaluator, now: Time, steps: seq<Step>, second: Evaluator, later: Time)
    requires Inv(s)
    ensures Inv(JobAccepted(s, a, first, now))
    ensures (a < |s.attempts| && s.attempts[a].job) || steps == [] ==>
      var t := Run(JobAccepted(s, a, first, now), steps);
      JobAccepted(t, a, second, later) == t
  {
    AgentStepKeepsInv(s, Accepted(a, first, now));
    if a < |s.attempts| && s.attempts[a].job {
      var t := JobAccepted(s, a, first, now);
      AcceptedIsNoLongerPending(s, a, first, now);
      RunKeeps(t, steps, a);
    }
  }

  lemma AcceptedIsNoLongerPending(s: State, a: nat, sent: Evaluator, now: Time)
    requires Inv(s) && a < |s.attempts| && s.attempts[a].job
    ensures var later := JobAccepted(s, a, sent, now).attempts[a];
      later.job && (later.Open() ==> later.evalStatus.Running?)
  {
    assert Sane(s.attempts[a], s.past[a]);
  }

  /** A machine's answer always finds the job it was asked to run: what was requested
      once stays requested. */
  lemma AnswersFindTheirJob(s: State, steps: seq<Step>, a: nat)
    requires Inv(s) && a < |s.attempts| && s.attempts[a].job
    ensures a < |Run(s, steps).attempts| && Run(s, steps).attempts[a].job
  {
    RunKeeps(s, steps, a);
  }

  /** An attempt belongs to one execution for good: whatever is attached later, its
      tokens are always read from the first. */
  lemma ExecutionsAreBoundOnce(s: State, steps: seq<Step>, a: nat, other: nat)
    requires Inv(s) && a < |s.attempts| && s.attempts[a].execution.Some?
    ensures Run(s, steps).attempts[a].execution == s.attempts[a].execution
    ensures ExecutionAttached(Run(s, steps), a, other) == Run(s, steps)
  {
    RunKeeps(s, steps, a);
  }

  /** An agent's block report survives every step. */
  lemma BlockReportsAreKept(s: State, steps: seq<Step>, a: nat)
    requires Inv(s) && a < |s.attempts| && s.attempts[a].Open()
    ensures Inv(BlockReported(s, a))
    ensures var t := Run(BlockReported(s, a), steps); a < |t.attempts| && t.attempts[a].blockReported
  {
    var r := BlockReported(s, a);
    AgentStepKeepsInv(s, ReportBlock(a));
    RunKeeps(r, steps, a);
  }

  lemma JudgementsAskFor(c: Row, verdict: Option<Verdict>, used: int)
    ensures Judged(c, verdict, used).trigger in {None, Some(Block), Some(TargetReached), Some(BudgetSpent), Some(NoProgress)}
  {
  }

  lemma AskedOfAReport(att: Attempt, j: Judgement)
    requires att.blockReported
    ensures Asked(att, j) == if j.trigger in {None, Some(NoProgress)} then Some(Block) else j.trigger
  {
  }

  lemma StatusAfterClose(c: Row, a: nat, att: Attempt, verdict: Option<Verdict>, delta: int, pins: Option<nat>, asked: Trigger)
    requires att.closedAt.Some? && !c.status.IsTerminal()
    requires Asked(att, Judged(c, verdict, c.tokensUsed + delta)) == Some(asked) && Transition(c.status, asked).Some?
    ensures AfterClose(c, a, att, verdict, delta, pins).status == Transition(c.status, asked).value
  {
  }

  /** And the close of its cycle blocks a running campaign, unless the verdict already
      moves it: to the target or to the end of the budget. */
  lemma ReportedBlockApplies(c: Row, a: nat, att: Attempt, verdict: Option<Verdict>, delta: int, pins: Option<nat>)
    requires att.closedAt.Some? && att.blockReported && (c.status.Active? || c.status.Paused?)
    ensures var asked := Judged(c, verdict, c.tokensUsed + delta).trigger;
      AfterClose(c, a, att, verdict, delta, pins).status ==
        if asked == Some(TargetReached) then AwaitingConfirmation
        else if asked == Some(BudgetSpent) then BudgetExhausted else Blocked
  {
    var j := Judged(c, verdict, c.tokensUsed + delta);
    JudgementsAskFor(c, verdict, c.tokensUsed + delta);
    AskedOfAReport(att, j);
    StatusAfterClose(c, a, att, verdict, delta, pins, Asked(att, j).value);
  }
}

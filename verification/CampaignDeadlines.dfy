/** How long an evaluation can take: a run on a clock, with expiry swept at least
    every P seconds and every evaluator timeout at most T. */
module CampaignDeadlines {
  import opened Wrappers
  import opened CampaignRules
  import opened CampaignSpec
  import opened CampaignSafety
  import opened CampaignRuns

  /** The bounds of a schedule: sweep period, largest evaluator timeout. */
  datatype Bounds = Bounds(period: nat, timeout: nat)

  /** The clock and the time of the last expiry sweep. */
  datatype Clock = Clock(now: Time, swept: Time)

  function TimeOf(step: Step, before: Time): Time {
    match step
    case Tick(_, _, now) => now
    case Ended(_, _, _, _, now) => now
    case Reported(_, _, _, _, now) => now
    case Expire(_, now) => now
    case TaskOver(_, _, _, now) => now
    case StopGoal(_, now) => now
    case Accepted(_, _, now) => now
    case Wake(_, _, now) => now
    case Person(action) =>
      (match action
       case RejectGoal(now) => now
       case ExtendGoal(_, _, _, now) => now
       case EditGoal(_, now) => now
       case _ => before)
    case _ => before
  }

  function Later(c: Clock, step: Step): Clock {
    var now := TimeOf(step, c.now);
    Clock(now, if step.Expire? then now else c.swept)
  }

  /** Time moves forward, no sweep is overdue, and no evaluator in use has a timeout
      above the bound. */
  ghost predicate OnTime(b: Bounds, c: Clock, step: Step) {
    && c.now <= TimeOf(step, c.now) <= c.swept + b.period
    && (step.Accepted? ==> 0 <= step.sent.timeout <= b.timeout)
    && (step.Person? && step.action.EditGoal? ==> step.action.criteria.evaluator.timeout <= b.timeout)
  }

  ghost predicate OnTimeRun(b: Bounds, c: Clock, steps: seq<Step>)
    decreases |steps|
  {
    steps == [] || (OnTime(b, c, steps[0]) && OnTimeRun(b, Later(c, steps[0]), steps[1..]))
  }

  function ClockAfter(c: Clock, steps: seq<Step>): Clock
    decreases |steps|
  {
    if steps == [] then c else ClockAfter(Later(c, steps[0]), steps[1..])
  }

  function PendingLimit(b: Bounds): int {
    EVAL_PENDING_WINDOW_SECONDS + b.timeout + EVAL_GRACE_SECONDS
  }

  function RunningLimit(b: Bounds): int {
    PendingLimit(b) + b.timeout + EVAL_GRACE_SECONDS + b.period
  }

  /** One open evaluation: its deadline is not long past, nor far ahead of its request. */
  ghost predicate Bounded(b: Bounds, c: Clock, att: Attempt, past: Past) {
    att.Open() && att.job ==>
      && past.requestedAt.Some? && att.deadline.Some?
      && c.swept <= att.deadline.value
      && att.deadline.value <= past.requestedAt.value + (if att.evalStatus.Pending? then PendingLimit(b) else RunningLimit(b))
  }

  ghost predicate Prompt(b: Bounds, c: Clock, s: State) {
    && Inv(s) && c.swept <= c.now <= c.swept + b.period
    && s.row.evaluator.timeout <= b.timeout && s.row.evaluator.timeout >= 0
    && forall i :: 0 <= i < |s.attempts| ==> Bounded(b, c, s.attempts[i], s.past[i])
  }

  /** *t*'s open evaluations are *s*'s, as they were. */
  ghost predicate NoneTouched(s: State, t: State)
    requires Indexed(s)
  {
    && Indexed(t) && (t.row.evaluator == s.row.evaluator)
    && forall i :: 0 <= i < |t.attempts| && t.attempts[i].Open() && t.attempts[i].job ==>
         && i < |s.attempts| && s.attempts[i].Open() && s.attempts[i].job
         && t.attempts[i].deadline == s.attempts[i].deadline && t.attempts[i].evalStatus == s.attempts[i].evalStatus
         && t.past[i].requestedAt == s.past[i].requestedAt
  }

  lemma UntouchedStaysPrompt(b: Bounds, c: Clock, s: State, t: State, step: Step)
    requires Prompt(b, c, s) && OnTime(b, c, step) && !step.Expire? && Inv(t) && NoneTouched(s, t)
    ensures Prompt(b, Later(c, step), t)
  {
    forall i | 0 <= i < |t.attempts| && t.attempts[i].Open() && t.attempts[i].job
      ensures Bounded(b, Later(c, step), t.attempts[i], t.past[i])
    {
      assert Bounded(b, c, s.attempts[i], s.past[i]);
    }
  }

  lemma OneClosedTouchesNone(s: State, t: State, a: nat)
    requires OneChanged(s, t, a) && !t.attempts[a].Open() && t.row.evaluator == s.row.evaluator
    ensures NoneTouched(s, t)
  {
  }

  lemma PlanKeepsEvaluator(c: Row, a: nat, att: Attempt, verdict: Option<Verdict>, delta: int, pins: Option<nat>)
    requires att.closedAt.Some?
    ensures AfterClose(c, a, att, verdict, delta, pins).evaluator == c.evaluator
  {
  }

  lemma ClosingKeepsEvaluator(s: State, a: nat, outcome: Option<Outcome>, status: EvalStatus, score: Option<real>,
                              valid: Option<bool>, verdict: Option<Verdict>, pins: Option<nat>, usage: Usage,
                              finished: Option<Time>, now: Time, t: State)
    requires Books(s) && a < |s.attempts|
    requires t == ClosedWith(s, a, outcome, status, score, valid, verdict, pins, usage, finished, now)
    ensures t.row.evaluator == s.row.evaluator && OneChanged(s, t, a) && t.attempts[a].closedAt.Some?
  {
    ClosedShape(s, a, outcome, status, score, valid, verdict, pins, usage, finished, now, t);
    PlanKeepsEvaluator(s.row, a, t.attempts[a], if s.row.status.IsTerminal() then None else verdict,
                       TokenDelta(s.attempts[a], usage), pins);
  }

  lemma ClosingTouchesNone(s: State, a: nat, outcome: Option<Outcome>, status: EvalStatus, score: Option<real>,
                           valid: Option<bool>, verdict: Option<Verdict>, pins: Option<nat>, usage: Usage,
                           finished: Option<Time>, now: Time)
    requires Books(s) && a < |s.attempts|
    ensures NoneTouched(s, ClosedWith(s, a, outcome, status, score, valid, verdict, pins, usage, finished, now))
  {
    var t := ClosedWith(s, a, outcome, status, score, valid, verdict, pins, usage, finished, now);
    ClosingKeepsEvaluator(s, a, outcome, status, score, valid, verdict, pins, usage, finished, now, t);
    OneClosedTouchesNone(s, t, a);
  }

  lemma CountingTouchesNone(s: State, a: nat, usage: Usage)
    requires Books(s) && a < |s.attempts|
    ensures NoneTouched(s, Counting(s, a, usage))
    ensures Counting(s, a, usage).attempts[a].deadline == s.attempts[a].deadline
  {
    SyncIsSane(s, a, usage);
  }

  lemma RequestIsPrompt(b: Bounds, c: Clock, s: State, a: nat)
    requires Prompt(b, c, s) && a < |s.attempts| && Inv(EvalRequested(s, a, c.now))
    ensures Prompt(b, c, EvalRequested(s, a, c.now))
  {
    var t := EvalRequested(s, a, c.now);
    forall i | 0 <= i < |t.attempts| ensures Bounded(b, c, t.attempts[i], t.past[i]) {
      assert Bounded(b, c, s.attempts[i], s.past[i]);
    }
  }

  lemma ExecutionEndIsPrompt(b: Bounds, c: Clock, s: State, execution: nat, completed: bool, usage: Usage,
                             finished: Option<Time>, now: Time)
    requires Prompt(b, c, s) && OnTime(b, c, Ended(execution, completed, usage, finished, now))
    ensures Prompt(b, Clock(now, c.swept), ExecutionEnded(s, execution, completed, usage, finished, now))
  {
    var step := Ended(execution, completed, usage, finished, now);
    var t := ExecutionEnded(s, execution, completed, usage, finished, now);
    ExecutionEndKeepsInv(s, execution, completed, usage, finished, now);
    var found := RunBy(s.attempts, execution);
    if found.None? {
      UntouchedStaysPrompt(b, c, s, s, step);
    } else {
      var a := found.value;
      var att := s.attempts[a];
      CountingKeepsInv(s, a, usage);
      CountingTouchesNone(s, a, usage);
      if !att.Open() || att.job {
        UntouchedStaysPrompt(b, c, s, t, step);
      } else if att.kind.Retrospective? {
        ClosingTouchesNone(s, a, if completed then None else Some(Unclear), Skipped, att.score, att.valid, None, None, usage, finished, now);
        UntouchedStaysPrompt(b, c, s, t, step);
      } else if completed && !s.row.status.IsTerminal() {
        UntouchedStaysPrompt(b, c, s, Counting(s, a, usage), step);
        RequestIsPrompt(b, Clock(now, c.swept), Counting(s, a, usage), a);
      } else {
        ClosingTouchesNone(s, a, Some(Unclear), Skipped, att.score, att.valid, None, None, usage, finished, now);
        UntouchedStaysPrompt(b, c, s, t, step);
      }
    }
  }

  /** An accepted job's deadline is its run's own; a sweep would have closed it by
      now had its wait been over. */
  lemma AcceptedIsBounded(b: Bounds, c: Clock, att: Attempt, past: Past, sent: Evaluator, now: Time)
    requires Bounded(b, c, att, past) && att.Open() && att.job && att.evalStatus.Pending?
    requires c.swept <= now <= c.swept + b.period && 0 <= sent.timeout <= b.timeout
    ensures Bounded(b, Clock(now, c.swept), att.(evalStatus := Running, deadline := Some(now + sent.timeout + EVAL_GRACE_SECONDS),
                                                 digest := Some(sent.digest)), past)
  {
  }

  lemma OneBoundedIsPrompt(b: Bounds, c: Clock, later: Clock, s: State, t: State, a: nat)
    requires Prompt(b, c, s) && Inv(t) && a < |s.attempts|
    requires t.row == s.row && t.past == s.past && t.attempts == s.attempts[a := t.attempts[a]]
    requires later.swept == c.swept && c.now <= later.now <= c.swept + b.period
    requires Bounded(b, later, t.attempts[a], t.past[a])
    ensures Prompt(b, later, t)
  {
    forall i | 0 <= i < |t.attempts| ensures Bounded(b, later, t.attempts[i], t.past[i]) {
      assert Bounded(b, c, s.attempts[i], s.past[i]);
    }
  }

  lemma AcceptanceIsPrompt(b: Bounds, c: Clock, s: State, a: nat, sent: Evaluator, now: Time)
    requires Prompt(b, c, s) && OnTime(b, c, Accepted(a, sent, now))
    ensures Prompt(b, Clock(now, c.swept), JobAccepted(s, a, sent, now))
  {
    var t := JobAccepted(s, a, sent, now);
    AgentStepKeepsInv(s, Accepted(a, sent, now));
    if t == s {
      UntouchedStaysPrompt(b, c, s, s, Accepted(a, sent, now));
    } else {
      AcceptedIsBounded(b, c, s.attempts[a], s.past[a], sent, now);
      OneBoundedIsPrompt(b, c, Clock(now, c.swept), s, t, a);
    }
  }

  /** After a sweep no open evaluation's deadline has passed. */
  lemma SweepIsPrompt(b: Bounds, c: Clock, s: State, n: nat, usage: Usage, now: Time)
    requires Prompt(b, c, s) && OnTime(b, c, Expire(usage, now)) && n == |s.attempts|
    ensures Prompt(b, Clock(now, now), ExpiredUpTo(s, n, usage, now))
  {
    if n > 0 {
      var a: nat := n - 1;
      SweepReachesOnlyTheNewest(s, a, usage, now);
      DueOrSparedIsPrompt(b, c, s, a, usage, now);
    }
  }

  lemma DueOrSparedIsPrompt(b: Bounds, c: Clock, s: State, a: nat, usage: Usage, now: Time)
    requires Prompt(b, c, s) && c.now <= now && |s.attempts| == a + 1
    ensures Prompt(b, Clock(now, now), ExpiredAt(s, a, usage, now))
  {
    if Expired(s.attempts[a], now) {
      ExpiryIsPrompt(b, c, s, a, usage, now);
    } else {
      SparedIsPrompt(b, c, s, a, now);
    }
  }

  lemma SparedIsPrompt(b: Bounds, c: Clock, s: State, a: nat, now: Time)
    requires Prompt(b, c, s) && c.now <= now && |s.attempts| == a + 1 && !Expired(s.attempts[a], now)
    ensures Prompt(b, Clock(now, now), s)
  {
    forall i | 0 <= i < |s.attempts| ensures Bounded(b, Clock(now, now), s.attempts[i], s.past[i]) {
      assert Sane(s.attempts[i], s.past[i]);
      assert Bounded(b, c, s.attempts[i], s.past[i]);
    }
  }

  /** Where nothing is open nothing is late. */
  lemma IdleIsPrompt(b: Bounds, c: Clock, t: State)
    requires Inv(t) && !AnyOpen(t.attempts) && c.swept <= c.now <= c.swept + b.period
    requires 0 <= t.row.evaluator.timeout <= b.timeout
    ensures Prompt(b, c, t)
  {
  }

  lemma TimingOutKeepsInv(s: State, a: nat, usage: Usage, now: Time, t: State)
    requires Inv(s) && a < |s.attempts| && Expired(s.attempts[a], now)
    requires t == ClosedWith(s, a, Some(EvalFailed), TimedOut, s.attempts[a].score, s.attempts[a].valid, Some(TIMED_OUT),
                             None, usage, Some(now), now)
    ensures Inv(t) && !AnyOpen(t.attempts) && t.row.evaluator == s.row.evaluator
  {
    assert Sane(s.attempts[a], s.past[a]);
    ClosingKeepsInv(s, a, Some(EvalFailed), TimedOut, s.attempts[a].score, s.attempts[a].valid, Some(TIMED_OUT), None,
                    usage, Some(now), now);
    ClosingKeepsEvaluator(s, a, Some(EvalFailed), TimedOut, s.attempts[a].score, s.attempts[a].valid, Some(TIMED_OUT), None,
                          usage, Some(now), now, t);
  }

  lemma ExpiryIsPrompt(b: Bounds, c: Clock, s: State, a: nat, usage: Usage, now: Time)
    requires Prompt(b, c, s) && c.now <= now && a < |s.attempts| && Expired(s.attempts[a], now)
    ensures Prompt(b, Clock(now, now), ExpiredAt(s, a, usage, now))
  {
    var t := ExpiredAt(s, a, usage, now);
    TimingOutKeepsInv(s, a, usage, now, t);
    IdleIsPrompt(b, Clock(now, now), t);
  }

  lemma {:induction false} StoppedRowStays(s: State, n: nat, usage: Usage, now: Time)
    requires Indexed(s) && n <= |s.attempts| && s.row.status.Stopped?
    ensures var t := OpenClosedUpTo(s, n, usage, now);
      t.row.status.Stopped? && t.row.evaluator == s.row.evaluator
  {
    if n > 0 {
      StoppedRowStays(s, n - 1, usage, now);
    }
  }

  /** A stop leaves the campaign stopped with nothing open. */
  lemma StopEndsEverything(s: State, usage: Usage, now: Time)
    requires Inv(s) && !s.row.status.IsTerminal()
    ensures var t := StoppedBy(s, usage, now);
      Inv(t) && t.row.status.Stopped? && t.row.evaluator == s.row.evaluator && !AnyOpen(t.attempts)
  {
    StopKeepsInv(s, usage, now);
    StoppedRowStays(s.(row := Entered(s.row, Stopped)), |s.attempts|, usage, now);
  }

  lemma ReportTouchesNone(s: State, a: nat, report: Report, pins: Option<nat>, usage: Usage, now: Time)
    requires Inv(s)
    ensures NoneTouched(s, EvalReported(s, a, report, pins, usage, now))
  {
    if a < |s.attempts| && s.attempts[a].Evaluating() {
      var v := Counted(Classify(s.row.metric, report, BestScore(s)), s.attempts[a].recorded);
      var adopted := if !report.status.ReportInvalid? && s.attempts[a].digest == Some(s.row.evaluator.digest) then pins else None;
      ClosingTouchesNone(s, a, Some(v.outcome), v.status, v.score, v.valid, Some(v), adopted, usage, Some(now), now);
    }
  }

  lemma ActionsBoundTimeouts(b: Bounds, c: Clock, row: Row, action: Action)
    requires 0 <= row.evaluator.timeout <= b.timeout && OnTime(b, c, Person(action))
    ensures 0 <= ActedOn(row, action).evaluator.timeout <= b.timeout
  {
  }

  lemma ActionIsPrompt(b: Bounds, c: Clock, s: State, action: Action)
    requires Prompt(b, c, s) && OnTime(b, c, Person(action))
    ensures Prompt(b, Later(c, Person(action)), s.(row := ActedOn(s.row, action)))
  {
    ActionsBoundTimeouts(b, c, s.row, action);
    ActionsWriteOnlyThat(s.row, action);
    NewRowIsPrompt(b, c, Later(c, Person(action)), s, ActedOn(s.row, action));
  }

  lemma NewRowIsPrompt(b: Bounds, c: Clock, later: Clock, s: State, row: Row)
    requires Prompt(b, c, s) && later.swept == c.swept && c.now <= later.now <= c.swept + b.period
    requires PersonalWrite(s.row, row) && 0 <= row.evaluator.timeout <= b.timeout
    ensures Prompt(b, later, s.(row := row))
  {
    PersonalWriteKeepsInv(s, row);
    forall i | 0 <= i < |s.attempts| ensures Bounded(b, later, s.attempts[i], s.past[i]) {
      assert Bounded(b, c, s.attempts[i], s.past[i]);
    }
  }

  lemma TickTouchesNone(s: State, roomOpen: bool, agentPresent: bool, now: Time)
    requires Inv(s)
    ensures NoneTouched(s, Ticked(s, roomOpen, agentPresent, now))
  {
  }

  lemma SettlingTouchesNone(s: State, execution: nat, usage: Usage)
    requires Inv(s)
    ensures NoneTouched(s, UsageSettled(s, execution, usage))
  {
    if RunBy(s.attempts, execution).Some? { CountingTouchesNone(s, RunBy(s.attempts, execution).value, usage); }
  }

  lemma TaskEndTouchesNone(s: State, a: nat, usage: Usage, finished: Option<Time>, now: Time)
    requires Inv(s)
    ensures NoneTouched(s, TaskClosed(s, a, usage, finished, now))
  {
    if a < |s.attempts| {
      ClosingTouchesNone(s, a, Some(Unclear), Skipped, s.attempts[a].score, s.attempts[a].valid, None, None, usage, finished, now);
    }
  }

  /** One attempt rewritten, its evaluation as it was. */
  lemma EditTouchesNone(s: State, row: Row, a: nat, att: Attempt)
    requires Indexed(s) && a < |s.attempts| && row.evaluator == s.row.evaluator && row.best == s.row.best
    requires var was := s.attempts[a];
      att.closedAt == was.closedAt && att.job == was.job && att.deadline == was.deadline && att.evalStatus == was.evalStatus
    ensures NoneTouched(s, State(row, s.attempts[a := att], s.past))
  {
  }

  lemma AgentTouchesNone(s: State, a: nat, at: Time, now: Time)
    requires Inv(s)
    ensures NoneTouched(s, AttemptRecorded(s, a)) && NoneTouched(s, WakeupScheduled(s, a, at, now))
    ensures NoneTouched(s, BlockReported(s, a))
  {
    if a < |s.attempts| {
      EditTouchesNone(s, s.row, a, s.attempts[a].(recorded := true));
      EditTouchesNone(s, s.row, a, s.attempts[a].(wakeAt := Some(at)));
      EditTouchesNone(s, s.row, a, s.attempts[a].(blockReported := true));
    }
  }

  lemma DispatchTouchesNone(s: State, a: nat, sent: Evaluator, execution: nat)
    requires Inv(s)
    ensures NoneTouched(s, JobRunAgain(s, a, sent)) && NoneTouched(s, ExecutionAttached(s, a, execution))
  {
    if a < |s.attempts| {
      EditTouchesNone(s, s.row, a, s.attempts[a].(digest := Some(sent.digest)));
      EditTouchesNone(s, s.row, a, s.attempts[a].(execution := Some(execution)));
    }
  }

  lemma TrustTouchesNone(s: State, a: nat, score: real)
    requires Inv(s)
    ensures NoneTouched(s, TrustedRecorded(s, a, score))
  {
    if a < |s.attempts| {
      EditTouchesNone(s, TrustedRecorded(s, a, score).row, a, s.attempts[a].(trusted := Some(score)));
    }
  }

  /** Ticks, measurements, task ends and the agent's writes leave evaluations alone. */
  lemma QuietStepTouchesNone(s: State, step: Step)
    requires Inv(s)
    requires !step.Ended? && !step.Expire? && !step.Accepted? && !step.Person? && !step.Reported? && !step.StopGoal?
    ensures NoneTouched(s, Next(s, step))
  {
    match step
    case Tick(room, agent, now) => TickTouchesNone(s, room, agent, now);
    case Settled(x, usage) => SettlingTouchesNone(s, x, usage);
    case TaskOver(a, usage, finished, now) => TaskEndTouchesNone(s, a, usage, finished, now);
    case RanAgain(a, sent) => DispatchTouchesNone(s, a, sent, 0);
    case Attach(a, x) => DispatchTouchesNone(s, a, s.row.evaluator, x);
    case Record(a) => AgentTouchesNone(s, a, 0, 0);
    case Wake(a, at, now) => AgentTouchesNone(s, a, at, now);
    case ReportBlock(a) => AgentTouchesNone(s, a, 0, 0);
    case Trust(a, score) => TrustTouchesNone(s, a, score);
    case _ =>
  }

  lemma ReportIsPrompt(b: Bounds, c: Clock, s: State, step: Step)
    requires Prompt(b, c, s) && OnTime(b, c, step) && step.Reported? && Inv(Next(s, step))
    ensures Prompt(b, Later(c, step), Next(s, step))
  {
    ReportTouchesNone(s, step.a, step.report, step.pins, step.usage, step.now);
    UntouchedStaysPrompt(b, c, s, Next(s, step), step);
  }

  lemma StopIsPrompt(b: Bounds, c: Clock, s: State, step: Step)
    requires Prompt(b, c, s) && OnTime(b, c, step) && step.StopGoal? && Inv(Next(s, step))
    ensures Prompt(b, Later(c, step), Next(s, step))
  {
    if s.row.status.IsTerminal() {
      UntouchedStaysPrompt(b, c, s, s, step);
    } else {
      StopEndsEverything(s, step.usage, step.now);
      IdleIsPrompt(b, Later(c, step), Next(s, step));
    }
  }

  lemma QuietIsPrompt(b: Bounds, c: Clock, s: State, step: Step)
    requires Prompt(b, c, s) && OnTime(b, c, step) && Inv(Next(s, step))
    requires !step.Ended? && !step.Expire? && !step.Accepted? && !step.Person? && !step.Reported? && !step.StopGoal?
    ensures Prompt(b, Later(c, step), Next(s, step))
  {
    QuietStepTouchesNone(s, step);
    UntouchedStaysPrompt(b, c, s, Next(s, step), step);
  }

  lemma StepIsPrompt(b: Bounds, c: Clock, s: State, step: Step)
    requires Prompt(b, c, s) && OnTime(b, c, step)
    ensures Prompt(b, Later(c, step), Next(s, step))
  {
    StepKeepsInv(s, step);
    match step
    case Ended(x, completed, usage, finished, now) => ExecutionEndIsPrompt(b, c, s, x, completed, usage, finished, now);
    case Expire(usage, now) => SweepIsPrompt(b, c, s, |s.attempts|, usage, now);
    case Accepted(a, sent, now) => AcceptanceIsPrompt(b, c, s, a, sent, now);
    case Person(action) => ActionIsPrompt(b, c, s, action);
    case Reported(_, _, _, _, _) => ReportIsPrompt(b, c, s, step);
    case StopGoal(_, _) => StopIsPrompt(b, c, s, step);
    case _ => QuietIsPrompt(b, c, s, step);
  }

  lemma {:induction false} RunIsPrompt(b: Bounds, c: Clock, s: State, steps: seq<Step>)
    requires Prompt(b, c, s) && OnTimeRun(b, c, steps)
    ensures Prompt(b, ClockAfter(c, steps), Run(s, steps))
    decreases |steps|
  {
    if steps != [] {
      StepKeepsInv(s, steps[0]);
      StepIsPrompt(b, c, s, steps[0]);
      RunIsPrompt(b, Later(c, steps[0]), Next(s, steps[0]), steps[1..]);
    }
  }

  /** Whatever gets lost, repeated or restarted, no evaluation is still open more
      than 24 h + 2 (T + 120 s) + 2 P after it was requested. */
  lemma EvaluationsCloseInTime(b: Bounds, c: Clock, s: State, steps: seq<Step>, i: nat)
    requires Prompt(b, c, s) && OnTimeRun(b, c, steps)
    requires i < |Run(s, steps).attempts| && Run(s, steps).attempts[i].job && Run(s, steps).attempts[i].Open()
    ensures Run(s, steps).past[i].requestedAt.Some?
    ensures ClockAfter(c, steps).now <= Run(s, steps).past[i].requestedAt.value
              + 24 * 3600 + 2 * (b.timeout + 120) + 2 * b.period
  {
    RunIsPrompt(b, c, s, steps);
    assert Bounded(b, ClockAfter(c, steps), Run(s, steps).attempts[i], Run(s, steps).past[i]);
  }

  /** A new campaign is within its bounds, so the theorem holds of every run from
      its creation. */
  lemma NewCampaignsAreOnTime(b: Bounds, mode: Mode, m: Metric, budget: Budget, deadline: Option<Time>, e: Evaluator, now: Time)
    requires ValidSpec(mode, m, budget, deadline, e, now) && e.timeout <= b.timeout
    ensures Prompt(b, Clock(now, now), Created(mode, m, budget, deadline, e, now))
  {
    CreatedIsGood(mode, m, budget, deadline, e, now);
  }
}

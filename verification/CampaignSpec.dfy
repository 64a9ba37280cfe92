/** One campaign as a value, and what each hook, tick and person does to it. Every
    step is one serialised write transaction. */
module CampaignSpec {
  import opened Wrappers
  import opened CampaignRules

  datatype Attempt = Attempt(
    kind: Kind, openedAt: Time, closedAt: Option<Time>, outcome: Option<Outcome>,
    evalStatus: EvalStatus, job: bool, deadline: Option<Time>, digest: Option<nat>,
    score: Option<real>, valid: Option<bool>, trusted: Option<real>,
    recorded: bool, wakeAt: Option<Time>, blockReported: bool,
    execution: Option<nat>, tokens: int)
  {
    predicate Open() {
      closedAt.None?
    }

    predicate Evaluating() {
      Open() && job && (evalStatus.Pending? || evalStatus.Running?)
    }
  }

  /** What the rows alone no longer show: the usage totals read for the attempt, if
      it closed while the campaign was not over, the bar in force when it was judged,
      and when its evaluation was requested. */
  datatype Past = Past(totals: seq<int>, closedInLoop: bool, bar: Option<real>, requestedAt: Option<Time>)

  datatype Row = Row(
    status: Status, mode: Mode, metric: Metric, budget: Budget, deadline: Option<Time>,
    evaluator: Evaluator, pins: Option<nat>, tokensUsed: int, cyclesRun: nat,
    best: Option<nat>, nextCycleAt: Option<Time>, changeStrategy: bool, retroDue: bool,
    failures: nat, sinceImprovement: nat)

  datatype State = State(row: Row, attempts: seq<Attempt>, past: seq<Past>)

  /** Measured tokens per execution; an execution without an entry is unmeasured. */
  type Usage = map<nat, int>

  predicate Indexed(s: State) {
    && |s.past| == |s.attempts|
    && (s.row.best.Some? ==> s.row.best.value < |s.attempts|)
  }

  predicate AnyOpen(attempts: seq<Attempt>) {
    exists i :: 0 <= i < |attempts| && attempts[i].Open()
  }

  function NewAttempt(kind: Kind, now: Time): Attempt {
    Attempt(kind, now, None, None, if kind.Cycle? then Pending else Skipped, false, None, None,
            None, None, None, false, None, false, None, 0)
  }

  const NO_PAST := Past([], false, None, None)

  function Opened(s: State, kind: Kind, now: Time): State {
    var row := if kind.Cycle? then s.row.(cyclesRun := s.row.cyclesRun + 1, changeStrategy := false)
               else s.row.(retroDue := false);
    State(row, s.attempts + [NewAttempt(kind, now)], s.past + [NO_PAST])
  }

  /** The status write of a transition: an end on the campaign's own terms makes a
      retrospective due. */
  function Entered(row: Row, next: Status): Row {
    row.(status := next, retroDue := row.retroDue || (next.RunsRetrospective() && next != row.status))
  }

  // ── Tokens ────────────────────────────────────────────────────────

  function Measured(att: Attempt, usage: Usage): int {
    if att.execution.Some? && att.execution.value in usage then usage[att.execution.value] else 0
  }

  function TokenDelta(att: Attempt, usage: Usage): int {
    if att.execution.None? then 0 else Max(Measured(att, usage) - att.tokens, 0)
  }

  function TokensSynced(s: State, a: nat, usage: Usage): State
    requires Indexed(s) && a < |s.attempts|
  {
    var att := s.attempts[a];
    if att.execution.None? then s
    else
      s.(attempts := s.attempts[a := att.(tokens := att.tokens + TokenDelta(att, usage))],
         past := s.past[a := s.past[a].(totals := s.past[a].totals + [Measured(att, usage)])])
  }

  /** A measurement counted on the attempt and on the campaign. */
  function Counting(s: State, a: nat, usage: Usage): State
    requires Indexed(s) && a < |s.attempts|
  {
    var t := TokensSynced(s, a, usage);
    t.(row := s.row.(tokensUsed := s.row.tokensUsed + TokenDelta(s.attempts[a], usage)))
  }

  // ── Closing a cycle ───────────────────────────────────────────────

  datatype Judgement = Judgement(failures: nat, since: nat, strategy: bool, trigger: Option<Trigger>)

  function Judge(c: Row, v: Verdict, used: int): Judgement {
    var failures := if v.outcome.EvalFailed? then c.failures + 1 else if v.outcome.PinMismatch? then c.failures else 0;
    var since := if !v.outcome.Judged() && !v.outcome.NoRecord? then c.sinceImprovement
                 else if v.outcome.Improved? then 0 else c.sinceImprovement + 1;
    if v.outcome.PinMismatch? || failures >= EVAL_FAILURE_BLOCK_THRESHOLD then Judgement(failures, since, false, Some(Block))
    else if c.mode.TargetMode? && v.valid == Some(true) && !v.outcome.NoRecord? && ReachesTarget(v.score, c.metric)
    then Judgement(failures, since, false, Some(TargetReached))
    else if CyclesSpent(c.budget, used) then Judgement(failures, since, false, Some(BudgetSpent))
    else if since >= PLATEAU_WINDOW && c.mode.TargetMode? then Judgement(failures, since, false, Some(NoProgress))
    else if since >= PLATEAU_WINDOW then Judgement(failures, 0, true, None)
    else Judgement(failures, since, false, None)
  }

  /** The event a close asks for: the judgement's, unless the agent's own report
      that it is blocked takes its place. */
  function Asked(att: Attempt, j: Judgement): Option<Trigger> {
    if Overruled(att, j) then Some(Block) else j.trigger
  }

  predicate Overruled(att: Attempt, j: Judgement) {
    att.blockReported && j.trigger in {None, Some(NoProgress)}
  }

  /** Without a verdict only the budget speaks. */
  function Judged(c: Row, verdict: Option<Verdict>, used: int): Judgement {
    if verdict.Some? then Judge(c, verdict.value, used)
    else Judgement(c.failures, c.sinceImprovement, false, if CyclesSpent(c.budget, used) then Some(BudgetSpent) else None)
  }

  /** The plan of a close: tokens, counters, best attempt, next status. *att* is the
      attempt as closed; *verdict* is None when nothing is judged. */
  function AfterClose(c: Row, a: nat, att: Attempt, verdict: Option<Verdict>, delta: int, pins: Option<nat>): Row
    requires att.closedAt.Some?
  {
    var used := c.tokensUsed + delta;
    var counted := c.(tokensUsed := used, pins := if c.pins.None? then pins else c.pins);
    if c.status.IsTerminal() then counted
    else
      var j := Judged(c, verdict, used);
      var asked := Asked(att, j);
      var next := if asked.None? then None else Transition(c.status, asked.value);
      var periodic := att.kind.Cycle? && c.cyclesRun > 0 && c.cyclesRun % RETRO_EVERY_CYCLES == 0;
      var folded := counted.(
        nextCycleAt := Some(NextCycleAt(att.closedAt.value, att.wakeAt)),
        retroDue := c.retroDue || periodic,
        failures := j.failures, sinceImprovement := j.since,
        changeStrategy := c.changeStrategy || (j.strategy && !Overruled(att, j)),
        best := if verdict.Some? && verdict.value.outcome.Improved? then Some(a) else c.best);
      if next.None? then folded else Entered(folded, next.value)
  }

  function BestScore(s: State): Option<real>
    requires Indexed(s)
  {
    if s.row.best.None? then None else s.attempts[s.row.best.value].score
  }

  /** The bar a valid, recorded score was measured against. */
  function BarInForce(s: State, att: Attempt, verdict: Option<Verdict>): Option<real>
    requires Indexed(s)
  {
    if verdict.None? || s.row.status.IsTerminal() || !att.recorded || verdict.value.valid != Some(true) then None
    else Some(Bar(if BestScore(s).Some? then BestScore(s).value else 0.0, s.row.metric))
  }

  function ClosedAttempt(att: Attempt, outcome: Option<Outcome>, status: EvalStatus, score: Option<real>,
                         valid: Option<bool>, finished: Option<Time>, now: Time): Attempt
  {
    att.(closedAt := Some(ClosedAt(finished, att.openedAt, now)), outcome := outcome, evalStatus := status,
         score := score, valid := valid)
  }

  /** One close: usage, the attempt's row, and the campaign's. */
  function Closed(s: State, a: nat, outcome: Option<Outcome>, status: EvalStatus, verdict: Option<Verdict>,
                  pins: Option<nat>, usage: Usage, finished: Option<Time>, now: Time): State
    requires Indexed(s) && a < |s.attempts|
  {
    var score := if verdict.Some? then verdict.value.score else s.attempts[a].score;
    var valid := if verdict.Some? then verdict.value.valid else s.attempts[a].valid;
    ClosedWith(s, a, outcome, status, score, valid, verdict, pins, usage, finished, now)
  }

  function ClosedWith(s: State, a: nat, outcome: Option<Outcome>, status: EvalStatus, score: Option<real>,
                      valid: Option<bool>, verdict: Option<Verdict>, pins: Option<nat>, usage: Usage,
                      finished: Option<Time>, now: Time): (t: State)
    requires Indexed(s) && a < |s.attempts|
    ensures Indexed(t) && |t.attempts| == |s.attempts|
  {
    var t := TokensSynced(s, a, usage);
    var att := ClosedAttempt(t.attempts[a], outcome, status, score, valid, finished, now);
    var judged := if s.row.status.IsTerminal() then None else verdict;
    State(AfterClose(s.row, a, att, judged, TokenDelta(s.attempts[a], usage), pins),
          t.attempts[a := att],
          t.past[a := t.past[a].(closedInLoop := !s.row.status.IsTerminal(), bar := BarInForce(s, att, verdict))])
  }

  function ClosedUnknown(s: State, a: nat, usage: Usage, finished: Option<Time>, now: Time): State
    requires Indexed(s) && a < |s.attempts|
  {
    Closed(s, a, Some(Unclear), Skipped, None, None, usage, finished, now)
  }

  // ── Hooks ─────────────────────────────────────────────────────────

  /** The newest attempt run by *execution*. */
  function RunBy(attempts: seq<Attempt>, execution: nat): (a: Option<nat>)
    ensures a.Some? ==> a.value < |attempts|
  {
    if attempts == [] then None
    else if attempts[|attempts| - 1].execution == Some(execution) then Some(|attempts| - 1)
    else RunBy(attempts[..|attempts| - 1], execution)
  }

  function EvalRequested(s: State, a: nat, now: Time): State
    requires Indexed(s) && a < |s.attempts|
  {
    var wait := s.row.evaluator.timeout + EVAL_GRACE_SECONDS + EVAL_PENDING_WINDOW_SECONDS;
    s.(attempts := s.attempts[a := s.attempts[a].(evalStatus := Pending, job := true, deadline := Some(now + wait))],
       past := s.past[a := s.past[a].(requestedAt := Some(now))])
  }

  function ExecutionEnded(s: State, execution: nat, completed: bool, usage: Usage, finished: Option<Time>, now: Time): State
    requires Indexed(s)
  {
    var a := RunBy(s.attempts, execution);
    if a.None? then s
    else
      var att := s.attempts[a.value];
      if !att.Open() || att.job then Counting(s, a.value, usage)
      else if att.kind.Retrospective? then
        Closed(s, a.value, if completed then None else Some(Unclear), Skipped, None, None, usage, finished, now)
      else if completed && !s.row.status.IsTerminal() then EvalRequested(Counting(s, a.value, usage), a.value, now)
      else ClosedUnknown(s, a.value, usage, finished, now)
  }

  function UsageSettled(s: State, execution: nat, usage: Usage): State
    requires Indexed(s)
  {
    var a := RunBy(s.attempts, execution);
    if a.None? then s else Counting(s, a.value, usage)
  }

  /** A machine's report on job *a*; None for a job no attempt has, or one from a
      machine the agent is not placed on. */
  function EvalReported(s: State, a: nat, report: Report, pins: Option<nat>, usage: Usage, now: Time): State
    requires Indexed(s)
  {
    if a >= |s.attempts| || !s.attempts[a].Evaluating() then s
    else
      var att := s.attempts[a];
      var v := Counted(Classify(s.row.metric, report, BestScore(s)), att.recorded);
      var adopted := if !report.status.ReportInvalid? && att.digest == Some(s.row.evaluator.digest) then pins else None;
      Closed(s, a, Some(v.outcome), v.status, Some(v), adopted, usage, Some(now), now)
  }

  predicate Expired(att: Attempt, now: Time) {
    att.Evaluating() && att.deadline.Some? && att.deadline.value <= now
  }

  const TIMED_OUT := Verdict(EvalFailed, TimedOut, None, None)

  function ExpiredAt(s: State, a: nat, usage: Usage, now: Time): State
    requires Indexed(s) && a < |s.attempts|
  {
    if !Expired(s.attempts[a], now) then s
    else ClosedWith(s, a, Some(EvalFailed), TimedOut, s.attempts[a].score, s.attempts[a].valid,
                    Some(TIMED_OUT), None, usage, Some(now), now)
  }

  /** Expiry over the first *n* attempts, oldest first. */
  function ExpiredUpTo(s: State, n: nat, usage: Usage, now: Time): (t: State)
    requires Indexed(s) && n <= |s.attempts|
    ensures Indexed(t) && |t.attempts| == |s.attempts|
  {
    if n == 0 then s else ExpiredAt(ExpiredUpTo(s, n - 1, usage, now), n - 1, usage, now)
  }

  function TaskClosed(s: State, a: nat, usage: Usage, finished: Option<Time>, now: Time): State
    requires Indexed(s)
  {
    if a >= |s.attempts| || !s.attempts[a].Open() || s.attempts[a].job then s
    else ClosedUnknown(s, a, usage, finished, now)
  }

  function OpenClosedUpTo(s: State, n: nat, usage: Usage, now: Time): (t: State)
    requires Indexed(s) && n <= |s.attempts|
    ensures Indexed(t) && |t.attempts| == |s.attempts|
  {
    if n == 0 then s
    else
      var t := OpenClosedUpTo(s, n - 1, usage, now);
      if t.attempts[n - 1].Open() then ClosedUnknown(t, n - 1, usage, None, now) else t
  }

  function StoppedBy(s: State, usage: Usage, now: Time): State
    requires Indexed(s)
  {
    if s.row.status.IsTerminal() then s
    else OpenClosedUpTo(s.(row := Entered(s.row, Stopped)), |s.attempts|, usage, now)
  }

  // ── The scheduler ─────────────────────────────────────────────────

  function Ticked(s: State, roomOpen: bool, agentPresent: bool, now: Time): State {
    var c := s.row;
    var waiting := c.nextCycleAt.Some? && c.nextCycleAt.value > now;
    if !(c.status.Active? || (c.retroDue && c.status.RunsRetrospective())) || AnyOpen(s.attempts) then s
    else if !c.status.Active? then
      if !roomOpen || !agentPresent then s.(row := c.(retroDue := false))
      else if waiting then s
      else Opened(s, Retrospective, now)
    else if !roomOpen then s.(row := Entered(c, Stopped))
    else if c.deadline.Some? && c.deadline.value <= now then s.(row := Entered(c, DeadlineReached))
    else if CyclesSpent(c.budget, c.tokensUsed) then s.(row := Entered(c, BudgetExhausted))
    else if c.nextCycleAt.None? || waiting then s
    else if !agentPresent then s.(row := Entered(c, Blocked))
    else if c.retroDue then Opened(s, Retrospective, now)
    else Opened(s, Cycle, now)
  }

  // ── Dispatch of evaluations ───────────────────────────────────────

  /** A machine accepted a job that an earlier read saw pending. */
  function JobAccepted(s: State, a: nat, sent: Evaluator, now: Time): State {
    if a >= |s.attempts| || !s.attempts[a].Open() || !s.attempts[a].evalStatus.Pending? || !s.attempts[a].job then s
    else s.(attempts := s.attempts[a := s.attempts[a].(
        evalStatus := Running, deadline := Some(now + sent.timeout + EVAL_GRACE_SECONDS), digest := Some(sent.digest))])
  }

  /** A machine that had restarted runs a running job afresh. */
  function JobRunAgain(s: State, a: nat, sent: Evaluator): State {
    if a >= |s.attempts| || !s.attempts[a].Open() || !s.attempts[a].job then s
    else s.(attempts := s.attempts[a := s.attempts[a].(digest := Some(sent.digest))])
  }

  // ── The agent ─────────────────────────────────────────────────────

  function ExecutionAttached(s: State, a: nat, execution: nat): State {
    if a >= |s.attempts| || !s.attempts[a].Open() || s.attempts[a].execution.Some? then s
    else s.(attempts := s.attempts[a := s.attempts[a].(execution := Some(execution))])
  }

  function AttemptRecorded(s: State, a: nat): State {
    if a >= |s.attempts| || !s.attempts[a].Open() || s.attempts[a].kind.Retrospective?
       || s.attempts[a].recorded || s.attempts[a].job
    then s
    else s.(attempts := s.attempts[a := s.attempts[a].(recorded := true)])
  }

  function WakeupScheduled(s: State, a: nat, at: Time, now: Time): State {
    if a >= |s.attempts| || !s.attempts[a].Open() || !(MIN_WAKEUP_SECONDS <= at - now <= MAX_WAKEUP_SECONDS)
       || (s.row.deadline.Some? && at >= s.row.deadline.value)
    then s
    else s.(attempts := s.attempts[a := s.attempts[a].(wakeAt := Some(at))])
  }

  function BlockReported(s: State, a: nat): State {
    if a >= |s.attempts| || !s.attempts[a].Open() then s
    else s.(attempts := s.attempts[a := s.attempts[a].(blockReported := true)])
  }

  // ── People ────────────────────────────────────────────────────────

  function GoalPaused(c: Row): Row {
    if c.status.Active? then c.(status := Paused) else c
  }

  function GoalResumed(c: Row): Row {
    if Transition(c.status, Resume).None? then c
    else c.(status := Active, failures := if c.status.Blocked? then 0 else c.failures,
            sinceImprovement := if c.status.Plateau? then 0 else c.sinceImprovement)
  }

  function ResultConfirmed(c: Row): Row {
    if c.status.AwaitingConfirmation? then Entered(c, Achieved) else c
  }

  function ResultRejected(c: Row, now: Time): Row {
    if c.status.AwaitingConfirmation? then c.(status := Active, nextCycleAt := NotBefore(c.nextCycleAt, now)) else c
  }

  function Reopened(c: Row, now: Time): Row {
    c.(status := Active, retroDue := false, nextCycleAt := NotBefore(c.nextCycleAt, now))
  }

  function GoalExtended(c: Row, deadline: Option<Time>, cap: Option<int>, roomOpen: bool, now: Time): Row {
    var newDeadline := if deadline.Some? then deadline else c.deadline;
    var budget := if cap.Some? then c.budget.(cap := cap) else c.budget;
    if Transition(c.status, Extend).None? || !roomOpen || (deadline.None? && cap.None?)
       || (deadline.Some? && (deadline.value <= now || (c.deadline.Some? && deadline.value <= c.deadline.value)))
       || (cap.Some? && (c.budget.cap.None? || cap.value <= c.budget.cap.value))
    then c
    else if !c.status.IsTerminal() then c.(deadline := newDeadline, budget := budget)
    else if (newDeadline.Some? && newDeadline.value <= now) || CyclesSpent(budget, c.tokensUsed) then c
    else Reopened(c.(deadline := newDeadline, budget := budget), now)
  }

  /** The criteria after an edit; direction and mode are fixed. */
  datatype Criteria = Criteria(target: Option<real>, minDelta: real, budget: Budget,
                               deadline: Option<Time>, deadlineChanged: bool, evaluator: Evaluator)

  function GoalEdited(c: Row, e: Criteria, now: Time): Row {
    var metric := c.metric.(target := e.target, minDelta := e.minDelta);
    var deadline := if e.deadlineChanged then e.deadline else c.deadline;
    var checked := if !e.deadlineChanged && deadline.Some? && deadline.value <= now then deadline.value - 1 else now;
    var reopen := c.status.BudgetExhausted? && c.budget.cap.Some? && e.budget.cap.None?;
    var edited := c.(metric := metric, budget := e.budget, deadline := deadline, evaluator := e.evaluator,
                     pins := if e.evaluator != c.evaluator then None else c.pins);
    if (c.status.IsTerminal() && !reopen) || !ValidSpec(c.mode, metric, e.budget, deadline, e.evaluator, checked) then c
    else if !reopen then edited
    else if deadline.Some? && deadline.value <= now then c
    else Reopened(edited, now)
  }

  function TrustedRecorded(s: State, a: nat, score: real): State {
    if a >= |s.attempts| || s.attempts[a].kind.Retrospective? || s.attempts[a].Open() then s
    else
      var reached := s.row.mode.TargetMode? && s.attempts[a].valid != Some(false) && ReachesTarget(Some(score), s.row.metric)
                     && Transition(s.row.status, TrustedTargetReached).Some?;
      State(if reached then Entered(s.row, Achieved) else s.row,
            s.attempts[a := s.attempts[a].(trusted := Some(score))], s.past)
  }
}

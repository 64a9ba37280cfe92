/** What each hook, tick and report leads to, outcome by outcome, in times, scores and
    statuses: nothing here is stated through the rules that decide it. */
module CampaignOutcomes {
  import opened Wrappers
  import opened CampaignRules
  import opened CampaignSpec
  import opened CampaignSafety

  // ── Judging a score ───────────────────────────────────────────────

  /** How far *score* is ahead of *best* in the metric's direction. */
  function Ahead(m: Metric, score: real, best: real): real {
    if m.maximize then score - best else best - score
  }

  /** The minimum improvement plus a billionth of the best score, or of one. */
  function Margin(m: Metric, best: real): real {
    m.minDelta + 0.000000001 * (if best > 1.0 then best else if best < -1.0 then -best else 1.0)
  }

  /** The outcome a valid score earns. */
  function Earned(m: Metric, score: real, best: Option<real>): Outcome {
    if best.None? || Ahead(m, score, best.value) > Margin(m, best.value) then Improved
    else if Ahead(m, score, best.value) < 0.0 then Regressed
    else NoGain
  }

  /** A verdict says exactly what the report says. */
  ghost predicate Says(v: Verdict, m: Metric, r: Report, best: Option<real>, recorded: bool) {
    if r.status.ReportInvalid? then v == Verdict(PinMismatch, Invalid, None, None)
    else if r.status.ReportTimedOut? then v == Verdict(EvalFailed, TimedOut, None, None)
    else if r.status.ReportOther? || r.parsed.None? || r.parsed.value.score.None? || r.parsed.value.valid.None? then
      v == Verdict(EvalFailed, Failed, None, None)
    else
      var score, valid := r.parsed.value.score.value, r.parsed.value.valid.value;
      v == Verdict(if !recorded then NoRecord else if !valid then GuardrailViolation else Earned(m, score, best),
                   Ok, Some(score), Some(valid))
  }

  lemma VerdictsSayThat(m: Metric, r: Report, best: Option<real>, recorded: bool)
    ensures Says(Counted(Classify(m, r, best), recorded), m, r, best, recorded)
  {
  }

  // ── The campaign after a verdict ──────────────────────────────────

  /** The budget, less its reserve, is used up. */
  predicate Spent(b: Budget, used: int) {
    b.cap.Some? && (b.cap.value as real * (1.0 - b.reserve)).Floor <= used
  }

  predicate Reached(c: Row, v: Verdict) {
    && c.mode.TargetMode? && v.valid == Some(true) && !v.outcome.NoRecord? && v.score.Some? && c.metric.target.Some?
    && (if c.metric.maximize then v.score.value >= c.metric.target.value else v.score.value <= c.metric.target.value)
  }

  function FailuresAfter(c: Row, v: Verdict): nat {
    if v.outcome.EvalFailed? then c.failures + 1 else if v.outcome.PinMismatch? then c.failures else 0
  }

  function SinceAfter(c: Row, v: Verdict): nat {
    if v.outcome.EvalFailed? || v.outcome.PinMismatch? then c.sinceImprovement
    else if v.outcome.Improved? then 0 else c.sinceImprovement + 1
  }

  /** The status after a verdict, in order of precedence: a broken evaluator, the
      target, the budget, the agent's own report, the plateau. */
  function StatusAfter(c: Row, v: Verdict, used: int, blockReported: bool): Status {
    if v.outcome.PinMismatch? || FailuresAfter(c, v) >= 3 then Blocked
    else if Reached(c, v) then AwaitingConfirmation
    else if Spent(c.budget, used) then BudgetExhausted
    else if blockReported then Blocked
    else if c.mode.TargetMode? && SinceAfter(c, v) >= 5 && c.status.Active? then Plateau
    else c.status
  }

  /** In optimize mode five cycles without gain ask for a new strategy and start over. */
  predicate StartsOver(c: Row, v: Verdict, used: int) {
    c.mode.OptimizeMode? && SinceAfter(c, v) >= 5 && !v.outcome.PinMismatch? && FailuresAfter(c, v) < 3 && !Spent(c.budget, used)
  }

  /** Every tenth work cycle makes a retrospective due, and so does a spent budget. */
  predicate RetroDueAfter(c: Row, kind: Kind, next: Status) {
    c.retroDue || (kind.Cycle? && c.cyclesRun > 0 && c.cyclesRun % 10 == 0) || (next.BudgetExhausted? && !c.status.BudgetExhausted?)
  }

  lemma JudgementOf(c: Row, v: Verdict, used: int)
    requires !v.outcome.Unclear?
    ensures var j := Judge(c, v, used);
      && j.failures == FailuresAfter(c, v)
      && j.since == (if StartsOver(c, v, used) then 0 else SinceAfter(c, v))
      && j.strategy == StartsOver(c, v, used)
      && j.trigger ==
         if v.outcome.PinMismatch? || FailuresAfter(c, v) >= 3 then Some(Block)
         else if Reached(c, v) then Some(TargetReached)
         else if Spent(c.budget, used) then Some(BudgetSpent)
         else if c.mode.TargetMode? && SinceAfter(c, v) >= 5 then Some(NoProgress) else None
  {
  }

  /** Everything a judged close writes on a running campaign. */
  lemma RowAfterVerdict(c: Row, a: nat, att: Attempt, v: Verdict, delta: int, found: Option<nat>, r: Row)
    requires att.closedAt.Some? && (c.status.Active? || c.status.Paused?) && !v.outcome.Unclear?
    requires r == AfterClose(c, a, att, Some(v), delta, found)
    ensures r.tokensUsed == c.tokensUsed + delta && r.failures == FailuresAfter(c, v)
    ensures r.status == StatusAfter(c, v, c.tokensUsed + delta, att.blockReported)
    ensures r.sinceImprovement == if StartsOver(c, v, c.tokensUsed + delta) then 0 else SinceAfter(c, v)
    ensures r.changeStrategy == (c.changeStrategy || (StartsOver(c, v, c.tokensUsed + delta) && !att.blockReported))
    ensures r.best == if v.outcome.Improved? then Some(a) else c.best
    ensures r.pins == if c.pins.None? then found else c.pins
    ensures r.retroDue == RetroDueAfter(c, att.kind, r.status) && r.cyclesRun == c.cyclesRun
  {
    JudgementOf(c, v, c.tokensUsed + delta);
    JudgedRow(c, a, att, v, delta, found, r, Judge(c, v, c.tokensUsed + delta));
    JudgedStatus(c, a, att, v, delta, found, r, Judge(c, v, c.tokensUsed + delta));
  }

  lemma JudgedRow(c: Row, a: nat, att: Attempt, v: Verdict, delta: int, found: Option<nat>, r: Row, j: Judgement)
    requires att.closedAt.Some? && (c.status.Active? || c.status.Paused?)
    requires r == AfterClose(c, a, att, Some(v), delta, found) && j == Judge(c, v, c.tokensUsed + delta)
    requires j.trigger in {None, Some(Block), Some(TargetReached), Some(BudgetSpent), Some(NoProgress)}
    ensures r.tokensUsed == c.tokensUsed + delta && r.failures == j.failures && r.sinceImprovement == j.since
    ensures r.changeStrategy == (c.changeStrategy || (j.strategy && !(att.blockReported && j.trigger in {None, Some(NoProgress)})))
    ensures r.best == if v.outcome.Improved? then Some(a) else c.best
    ensures r.pins == if c.pins.None? then found else c.pins
    ensures r.cyclesRun == c.cyclesRun
  {
  }

  lemma JudgedStatus(c: Row, a: nat, att: Attempt, v: Verdict, delta: int, found: Option<nat>, r: Row, j: Judgement)
    requires att.closedAt.Some? && (c.status.Active? || c.status.Paused?)
    requires r == AfterClose(c, a, att, Some(v), delta, found) && j == Judge(c, v, c.tokensUsed + delta)
    requires j.trigger in {None, Some(Block), Some(TargetReached), Some(BudgetSpent), Some(NoProgress)}
    ensures r.retroDue == RetroDueAfter(c, att.kind, r.status)
    ensures r.status ==
      if j.trigger == Some(Block) then Blocked
      else if j.trigger == Some(TargetReached) then AwaitingConfirmation
      else if j.trigger == Some(BudgetSpent) then BudgetExhausted
      else if att.blockReported then Blocked
      else if j.trigger == Some(NoProgress) && c.status.Active? then Plateau else c.status
  {
  }

  // ── Tokens ────────────────────────────────────────────────────────

  /** An attempt's tokens after its run's usage was read: the larger total. */
  function TokensAfter(att: Attempt, usage: Usage): int {
    if att.execution.Some? && att.execution.value in usage && usage[att.execution.value] > att.tokens
    then usage[att.execution.value] else att.tokens
  }

  lemma ReadingTokens(att: Attempt, past: Past, usage: Usage)
    requires Sane(att, past)
    ensures att.tokens + TokenDelta(att, usage) == TokensAfter(att, usage)
  {
    NothingMeasured(past.totals);
  }

  // ── Every close ───────────────────────────────────────────────────

  /** The time of a close: when the run finished, or now, but not before the opening. */
  function CloseTime(finished: Option<Time>, now: Time, start: Time): Time {
    var at := if finished.Some? then finished.value else now;
    if at < start then start else at
  }

  /** *t* is *s* with attempt *a* closed that way, and every other attempt as it was. */
  ghost predicate ClosedAs(s: State, t: State, a: nat, outcome: Option<Outcome>, status: EvalStatus,
                           score: Option<real>, valid: Option<bool>, usage: Usage, finished: Option<Time>, now: Time)
  {
    && a < |s.attempts| && t.attempts == s.attempts[a := s.attempts[a].(
         closedAt := Some(CloseTime(finished, now, s.attempts[a].openedAt)), outcome := outcome, evalStatus := status,
         score := score, valid := valid, tokens := TokensAfter(s.attempts[a], usage))]
    && t.row.tokensUsed == s.row.tokensUsed + TokensAfter(s.attempts[a], usage) - s.attempts[a].tokens
  }

  /** When a running campaign may open its next attempt after a close. */
  ghost predicate Schedules(s: State, t: State, a: nat)
    requires a < |t.attempts|
  {
    s.row.status.Active? || s.row.status.Paused? ==>
      && t.attempts[a].closedAt.Some? && t.row.nextCycleAt.Some?
      && var closed, wake, next := t.attempts[a].closedAt.value, t.attempts[a].wakeAt, t.row.nextCycleAt.value;
         next >= closed + 300 && (wake.Some? ==> next >= wake.value) && (next == closed + 300 || wake == Some(next))
  }

  lemma PlanSchedules(c: Row, a: nat, att: Attempt, verdict: Option<Verdict>, delta: int, found: Option<nat>)
    requires att.closedAt.Some?
    ensures var r := AfterClose(c, a, att, verdict, delta, found);
      && r.tokensUsed == c.tokensUsed + delta
      && (c.status.IsTerminal() ==> r == c.(tokensUsed := c.tokensUsed + delta, pins := if c.pins.None? then found else c.pins))
      && (c.status.Active? || c.status.Paused? ==> r.nextCycleAt == Some(Gap(att)))
  {
  }

  lemma ShapeIsClosedAs(s: State, t: State, a: nat, outcome: Option<Outcome>, status: EvalStatus, score: Option<real>,
                        valid: Option<bool>, usage: Usage, finished: Option<Time>, now: Time, delta: int)
    requires OneChanged(s, t, a) && s.attempts[a].tokens + delta == TokensAfter(s.attempts[a], usage)
    requires t.attempts[a] == ClosedAttempt(s.attempts[a].(tokens := s.attempts[a].tokens + delta), outcome, status, score, valid, finished, now)
    requires t.row.tokensUsed == s.row.tokensUsed + delta
    ensures ClosedAs(s, t, a, outcome, status, score, valid, usage, finished, now)
  {
  }

  lemma GapSchedules(s: State, t: State, a: nat)
    requires a < |t.attempts| && t.attempts[a].closedAt.Some?
    requires s.row.status.Active? || s.row.status.Paused? ==> t.row.nextCycleAt == Some(Gap(t.attempts[a]))
    ensures Schedules(s, t, a)
  {
    GapIsTheLarger(t.attempts[a]);
  }

  lemma ClosedRowIs(s: State, a: nat, t: State, judged: Option<Verdict>, delta: int, found: Option<nat>)
    requires a < |t.attempts| && t.attempts[a].closedAt.Some?
    requires t.row == AfterClose(s.row, a, t.attempts[a], judged, delta, found)
    ensures Schedules(s, t, a) && t.row.tokensUsed == s.row.tokensUsed + delta
    ensures s.row.status.IsTerminal() ==>
      t.row == s.row.(tokensUsed := t.row.tokensUsed, pins := if s.row.pins.None? then found else s.row.pins)
  {
    PlanSchedules(s.row, a, t.attempts[a], judged, delta, found);
    GapSchedules(s, t, a);
  }

  lemma ClosesAreExact(s: State, a: nat, outcome: Option<Outcome>, status: EvalStatus, score: Option<real>,
                       valid: Option<bool>, verdict: Option<Verdict>, found: Option<nat>, usage: Usage,
                       finished: Option<Time>, now: Time, t: State, delta: int)
    requires Books(s) && a < |s.attempts| && delta == TokenDelta(s.attempts[a], usage)
    requires t == ClosedWith(s, a, outcome, status, score, valid, verdict, found, usage, finished, now)
    ensures ClosedAs(s, t, a, outcome, status, score, valid, usage, finished, now) && Schedules(s, t, a)
    ensures t.attempts[a].closedAt.Some?
    ensures t.row == AfterClose(s.row, a, t.attempts[a], if s.row.status.IsTerminal() then None else verdict, delta, found)
    ensures s.row.status.IsTerminal() ==>
      t.row == s.row.(tokensUsed := t.row.tokensUsed, pins := if s.row.pins.None? then found else s.row.pins)
  {
    ClosedShape(s, a, outcome, status, score, valid, verdict, found, usage, finished, now, t);
    ClosedRowIs(s, a, t, if s.row.status.IsTerminal() then None else verdict, delta, found);
    TokensOf(s, a, usage, delta);
    ShapeIsClosedAs(s, t, a, outcome, status, score, valid, usage, finished, now, delta);
  }

  lemma TokensOf(s: State, a: nat, usage: Usage, delta: int)
    requires Books(s) && a < |s.attempts| && delta == TokenDelta(s.attempts[a], usage)
    ensures s.attempts[a].tokens + delta == TokensAfter(s.attempts[a], usage)
  {
    assert Sane(s.attempts[a], s.past[a]);
    ReadingTokens(s.attempts[a], s.past[a], usage);
  }

  // ── A machine's report ────────────────────────────────────────────

  /** The pins a report brings, when it comes from the campaign's present evaluator. */
  function Brought(s: State, a: nat, report: Report, found: Option<nat>): Option<nat>
    requires a < |s.attempts|
  {
    if !report.status.ReportInvalid? && s.attempts[a].digest == Some(s.row.evaluator.digest) then found else None
  }

  lemma ReportShape(s: State, a: nat, report: Report, found: Option<nat>, usage: Usage, now: Time, v: Verdict, t: State)
    requires Inv(s) && a < |s.attempts| && s.attempts[a].Evaluating()
    requires Says(v, s.row.metric, report, BestOf(s), s.attempts[a].recorded)
    requires t == Next(s, Reported(a, report, found, usage, now))
    ensures t == ClosedWith(s, a, Some(v.outcome), v.status, v.score, v.valid, Some(v), Brought(s, a, report, found), usage,
                            Some(now), now)
  {
    VerdictsSayThat(s.row.metric, report, BestOf(s), s.attempts[a].recorded);
  }

  /** How a running campaign moves on a verdict. */
  ghost predicate MovesAs(s: State, t: State, a: nat, v: Verdict)
    requires a < |s.attempts|
  {
    s.row.status.Active? || s.row.status.Paused? ==>
      && t.row.status == StatusAfter(s.row, v, t.row.tokensUsed, s.attempts[a].blockReported)
      && t.row.failures == FailuresAfter(s.row, v)
      && t.row.sinceImprovement == (if StartsOver(s.row, v, t.row.tokensUsed) then 0 else SinceAfter(s.row, v))
      && t.row.best == (if v.outcome.Improved? then Some(a) else s.row.best)
      && t.row.retroDue == RetroDueAfter(s.row, s.attempts[a].kind, t.row.status) && t.row.cyclesRun == s.row.cyclesRun
      && t.row.changeStrategy == (s.row.changeStrategy || (StartsOver(s.row, v, t.row.tokensUsed) && !s.attempts[a].blockReported))
  }

  /** The first report on an open evaluation closes it with what the report says, and a
      running campaign moves as that verdict demands. */
  lemma ReportsCloseAsTheySay(s: State, a: nat, report: Report, found: Option<nat>, usage: Usage, now: Time, v: Verdict)
    requires Inv(s) && a < |s.attempts| && s.attempts[a].Evaluating()
    requires Says(v, s.row.metric, report, BestOf(s), s.attempts[a].recorded)
    ensures var t := Next(s, Reported(a, report, found, usage, now));
      && ClosedAs(s, t, a, Some(v.outcome), v.status, v.score, v.valid, usage, Some(now), now)
      && Schedules(s, t, a) && MovesAs(s, t, a, v)
      && t.row.pins == (if s.row.pins.None? then Brought(s, a, report, found) else s.row.pins)
      && (s.row.status.IsTerminal() ==> t.row == s.row.(tokensUsed := t.row.tokensUsed, pins := t.row.pins))
  {
    var t := Next(s, Reported(a, report, found, usage, now));
    var brought := Brought(s, a, report, found);
    ReportShape(s, a, report, found, usage, now, v, t);
    ClosesAreExact(s, a, Some(v.outcome), v.status, v.score, v.valid, Some(v), brought, usage, Some(now), now, t,
                   TokenDelta(s.attempts[a], usage));
    OpenWorkMeans(s, a);
    if !s.row.status.IsTerminal() {
      RowAfterVerdict(s.row, a, t.attempts[a], v, TokenDelta(s.attempts[a], usage), brought, t.row);
    }
  }

  lemma OpenWorkMeans(s: State, a: nat)
    requires Inv(s) && a < |s.attempts| && s.attempts[a].Open()
    ensures s.row.status.Active? || s.row.status.Paused? || s.row.status.IsTerminal()
  {
  }

  function BestOf(s: State): Option<real>
    requires Indexed(s)
  {
    if s.row.best.Some? then s.attempts[s.row.best.value].score else None
  }

  predicate Usable(report: Report) {
    report.status.ReportOk? && report.parsed.Some? && report.parsed.value.score.Some? && report.parsed.value.valid.Some?
  }

  /** Each outcome, by what the report says and whether the agent recorded the attempt. */
  ghost predicate Matches(outcome: Option<Outcome>, status: EvalStatus, score: Option<real>, valid: Option<bool>,
                          report: Report, recorded: bool, best: Option<real>, m: Metric)
  {
    && (outcome == Some(PinMismatch) <==> report.status.ReportInvalid?)
    && (outcome == Some(EvalFailed) <==> !report.status.ReportInvalid? && !Usable(report))
    && (outcome == Some(NoRecord) <==> Usable(report) && !recorded)
    && (outcome == Some(GuardrailViolation) <==> Usable(report) && recorded && report.parsed.value.valid == Some(false))
    && (Usable(report) ==> status == Ok && score == report.parsed.value.score && valid == report.parsed.value.valid)
    && (!Usable(report) ==> score == None && valid == None)
    && (status == Invalid <==> report.status.ReportInvalid?) && (status == TimedOut <==> report.status.ReportTimedOut?)
    && (Usable(report) && recorded && report.parsed.value.valid == Some(true) ==>
          var x := report.parsed.value.score.value;
          && (outcome == Some(Improved) <==> best.None? || Ahead(m, x, best.value) > Margin(m, best.value))
          && (outcome == Some(Regressed) <==> best.Some? && Ahead(m, x, best.value) < 0.0)
          && (outcome == Some(NoGain) <==> best.Some? && 0.0 <= Ahead(m, x, best.value) <= Margin(m, best.value)))
  }

  lemma VerdictsMatch(v: Verdict, report: Report, recorded: bool, best: Option<real>, m: Metric)
    requires Says(v, m, report, best, recorded) && m.minDelta >= 0.0
    ensures Matches(Some(v.outcome), v.status, v.score, v.valid, report, recorded, best, m)
  {
  }

  lemma EachOutcomeHasItsReport(s: State, a: nat, report: Report, found: Option<nat>, usage: Usage, now: Time)
    requires Inv(s) && a < |s.attempts| && s.attempts[a].Evaluating()
    ensures var t := Next(s, Reported(a, report, found, usage, now));
      && |t.attempts| == |s.attempts|
      && Matches(t.attempts[a].outcome, t.attempts[a].evalStatus, t.attempts[a].score, t.attempts[a].valid,
                 report, s.attempts[a].recorded, BestOf(s), s.row.metric)
  {
    var v := Counted(Classify(s.row.metric, report, BestOf(s)), s.attempts[a].recorded);
    VerdictsSayThat(s.row.metric, report, BestOf(s), s.attempts[a].recorded);
    VerdictsMatch(v, report, s.attempts[a].recorded, BestOf(s), s.row.metric);
    ReportsCloseAsTheySay(s, a, report, found, usage, now, v);
  }

  /** Changed pinned files block a running campaign at once, and count as no failure. */
  lemma ChangedPinsBlock(s: State, a: nat, report: Report, found: Option<nat>, usage: Usage, now: Time)
    requires Inv(s) && a < |s.attempts| && s.attempts[a].Evaluating() && report.status.ReportInvalid?
    ensures var t := Next(s, Reported(a, report, found, usage, now));
      && |t.attempts| == |s.attempts| && t.attempts[a].outcome == Some(PinMismatch) && t.attempts[a].evalStatus == Invalid
      && t.row.pins == s.row.pins && t.row.best == s.row.best && t.row.failures == s.row.failures
      && (s.row.status.Active? || s.row.status.Paused? ==> t.row.status.Blocked?)
  {
    ReportsCloseAsTheySay(s, a, report, found, usage, now, Verdict(PinMismatch, Invalid, None, None));
    assert Sane(s.attempts[a], s.past[a]);
    assert s.row.status.Active? || s.row.status.Paused? || s.row.status.Achieved?;
  }

  /** A report on a job that is not open changes nothing. */
  lemma LateReportsChangeNothing(s: State, a: nat, report: Report, found: Option<nat>, usage: Usage, now: Time)
    requires Inv(s) && (a >= |s.attempts| || !s.attempts[a].Open() || !s.attempts[a].job)
    ensures Next(s, Reported(a, report, found, usage, now)) == s
  {
  }

  // ── The end of a run ──────────────────────────────────────────────

  /** The status after a close without a verdict: the budget, then the agent's report. */
  ghost predicate UnjudgedMoves(s: State, t: State, a: nat)
    requires a < |s.attempts|
  {
    && t.row.failures == s.row.failures && t.row.sinceImprovement == s.row.sinceImprovement
    && t.row.best == s.row.best && t.row.pins == s.row.pins && t.row.changeStrategy == s.row.changeStrategy
    && t.row.cyclesRun == s.row.cyclesRun
    && t.row.retroDue == (if s.row.status.IsTerminal() then s.row.retroDue
                          else RetroDueAfter(s.row, s.attempts[a].kind, t.row.status))
    && t.row.status ==
       (if s.row.status.IsTerminal() then s.row.status
        else if Spent(s.row.budget, t.row.tokensUsed) then BudgetExhausted
        else if s.attempts[a].blockReported then Blocked else s.row.status)
  }

  lemma RowAfterUnjudged(c: Row, a: nat, att: Attempt, delta: int, r: Row)
    requires att.closedAt.Some? && (c.status.Active? || c.status.Paused? || c.status.IsTerminal())
    requires r == AfterClose(c, a, att, None, delta, None)
    ensures r.failures == c.failures && r.sinceImprovement == c.sinceImprovement && r.best == c.best && r.pins == c.pins
    ensures r.changeStrategy == c.changeStrategy && r.cyclesRun == c.cyclesRun
    ensures r.retroDue == if c.status.IsTerminal() then c.retroDue else RetroDueAfter(c, att.kind, r.status)
    ensures r.status ==
      if c.status.IsTerminal() then c.status
      else if Spent(c.budget, c.tokensUsed + delta) then BudgetExhausted
      else if att.blockReported then Blocked else c.status
  {
  }

  lemma UnjudgedCloses(s: State, a: nat, outcome: Option<Outcome>, usage: Usage, finished: Option<Time>, now: Time, t: State)
    requires Inv(s) && a < |s.attempts| && s.attempts[a].Open()
    requires t == Closed(s, a, outcome, Skipped, None, None, usage, finished, now)
    ensures ClosedAs(s, t, a, outcome, Skipped, None, None, usage, finished, now)
    ensures Schedules(s, t, a) && UnjudgedMoves(s, t, a)
  {
    assert Sane(s.attempts[a], s.past[a]);
    ClosesAreExact(s, a, outcome, Skipped, s.attempts[a].score, s.attempts[a].valid, None, None, usage, finished, now, t,
                   TokenDelta(s.attempts[a], usage));
    OpenWorkMeans(s, a);
    RowAfterUnjudged(s.row, a, t.attempts[a], TokenDelta(s.attempts[a], usage), t.row);
  }

  /** Usage read for attempt *a* and nothing else. */
  ghost predicate CountedOnly(s: State, t: State, a: nat, usage: Usage) {
    && a < |s.attempts| && t.attempts == s.attempts[a := s.attempts[a].(tokens := TokensAfter(s.attempts[a], usage))]
    && t.row == s.row.(tokensUsed := s.row.tokensUsed + TokensAfter(s.attempts[a], usage) - s.attempts[a].tokens)
  }

  lemma CountingIsThat(s: State, a: nat, usage: Usage)
    requires Books(s) && a < |s.attempts|
    ensures CountedOnly(s, Counting(s, a, usage), a, usage)
  {
    TokensOf(s, a, usage, TokenDelta(s.attempts[a], usage));
    SyncIsSane(s, a, usage);
    SyncCounts(s, a, usage, TokenDelta(s.attempts[a], usage), TokensSynced(s, a, usage), Counting(s, a, usage));
  }

  lemma SyncCounts(s: State, a: nat, usage: Usage, delta: int, synced: State, t: State)
    requires OneChanged(s, synced, a) && synced.attempts[a] == s.attempts[a].(tokens := s.attempts[a].tokens + delta)
    requires s.attempts[a].tokens + delta == TokensAfter(s.attempts[a], usage)
    requires t == synced.(row := s.row.(tokensUsed := s.row.tokensUsed + delta))
    ensures CountedOnly(s, t, a, usage)
  {
  }

  lemma OpenIsFound(s: State, a: nat, x: nat)
    requires Inv(s) && a < |s.attempts| && s.attempts[a].Open() && s.attempts[a].execution == Some(x)
    ensures RunBy(s.attempts, x) == Some(a)
  {
    assert a == |s.attempts| - 1;
  }

  /** A run that completes in a campaign that goes on asks for an evaluation, which may
      wait a day for a machine and run for its timeout. */
  lemma CompletedRunsAreEvaluated(s: State, a: nat, x: nat, usage: Usage, finished: Option<Time>, now: Time)
    requires Inv(s) && a < |s.attempts| && s.attempts[a].Open() && s.attempts[a].execution == Some(x)
    requires s.attempts[a].kind.Cycle? && !s.attempts[a].job && !s.row.status.IsTerminal()
    ensures var t := Next(s, Ended(x, true, usage, finished, now));
      && t.attempts == s.attempts[a := s.attempts[a].(
           tokens := TokensAfter(s.attempts[a], usage), evalStatus := Pending, job := true,
           deadline := Some(now + s.row.evaluator.timeout + 120 + 86400))]
      && t.row == s.row.(tokensUsed := s.row.tokensUsed + TokensAfter(s.attempts[a], usage) - s.attempts[a].tokens)
  {
    OpenIsFound(s, a, x);
    CountingIsThat(s, a, usage);
  }

  /** Any other end of a work cycle's run closes it as unclear, never evaluated. */
  lemma OtherRunsCloseUnclear(s: State, a: nat, x: nat, completed: bool, usage: Usage, finished: Option<Time>, now: Time)
    requires Inv(s) && a < |s.attempts| && s.attempts[a].Open() && s.attempts[a].execution == Some(x)
    requires s.attempts[a].kind.Cycle? && !s.attempts[a].job && (!completed || s.row.status.IsTerminal())
    ensures var t := Next(s, Ended(x, completed, usage, finished, now));
      && ClosedAs(s, t, a, Some(Unclear), Skipped, None, None, usage, finished, now) && !t.attempts[a].job
      && Schedules(s, t, a) && UnjudgedMoves(s, t, a)
  {
    OpenIsFound(s, a, x);
    UnjudgedCloses(s, a, Some(Unclear), usage, finished, now, Next(s, Ended(x, completed, usage, finished, now)));
  }

  /** A retrospective ends with its run: without an outcome, or unclear when cut short. */
  lemma RetrospectivesEndWithTheirRun(s: State, a: nat, x: nat, completed: bool, usage: Usage, finished: Option<Time>, now: Time)
    requires Inv(s) && a < |s.attempts| && s.attempts[a].Open() && s.attempts[a].execution == Some(x)
    requires s.attempts[a].kind.Retrospective?
    ensures var t := Next(s, Ended(x, completed, usage, finished, now));
      && ClosedAs(s, t, a, if completed then None else Some(Unclear), Skipped, None, None, usage, finished, now)
      && Schedules(s, t, a) && UnjudgedMoves(s, t, a)
  {
    assert Sane(s.attempts[a], s.past[a]);
    OpenIsFound(s, a, x);
    UnjudgedCloses(s, a, if completed then None else Some(Unclear), usage, finished, now,
                   Next(s, Ended(x, completed, usage, finished, now)));
  }

  /** While an evaluation is open the end of its run only counts tokens; so does a late
      measurement, at any time. */
  lemma LaterEndsOnlyCount(s: State, a: nat, x: nat, completed: bool, usage: Usage, finished: Option<Time>, now: Time)
    requires Inv(s) && a < |s.attempts| && s.attempts[a].Open() && s.attempts[a].execution == Some(x)
    ensures s.attempts[a].job ==> CountedOnly(s, Next(s, Ended(x, completed, usage, finished, now)), a, usage)
    ensures CountedOnly(s, Next(s, Settled(x, usage)), a, usage)
  {
    OpenIsFound(s, a, x);
    CountingIsThat(s, a, usage);
  }

  /** The newest attempt of a run, however many it had. */
  ghost predicate IsNewestOf(s: State, a: nat, x: nat) {
    && a < |s.attempts| && s.attempts[a].execution == Some(x)
    && forall i :: a < i < |s.attempts| ==> s.attempts[i].execution != Some(x)
  }

  lemma {:induction false} NewestIsFound(attempts: seq<Attempt>, a: nat, x: nat)
    requires a < |attempts| && attempts[a].execution == Some(x)
    requires forall i :: a < i < |attempts| ==> attempts[i].execution != Some(x)
    ensures RunBy(attempts, x) == Some(a)
  {
    if a < |attempts| - 1 {
      NewestIsFound(attempts[..|attempts| - 1], a, x);
    }
  }

  lemma {:induction false} NoneIsFound(attempts: seq<Attempt>, x: nat)
    requires forall i :: 0 <= i < |attempts| ==> attempts[i].execution != Some(x)
    ensures RunBy(attempts, x) == None
  {
    if attempts != [] {
      NoneIsFound(attempts[..|attempts| - 1], x);
    }
  }

  /** A run's end or measurement counts on its newest attempt, also long after that
      closed, and a run no attempt has changes nothing. */
  lemma ClosedRunsOnlyCount(s: State, a: nat, x: nat, completed: bool, usage: Usage, finished: Option<Time>, now: Time)
    requires Inv(s)
    ensures IsNewestOf(s, a, x) && !s.attempts[a].Open() ==>
      && CountedOnly(s, Next(s, Ended(x, completed, usage, finished, now)), a, usage)
      && CountedOnly(s, Next(s, Settled(x, usage)), a, usage)
    ensures (forall i :: 0 <= i < |s.attempts| ==> s.attempts[i].execution != Some(x)) ==>
      Next(s, Ended(x, completed, usage, finished, now)) == s && Next(s, Settled(x, usage)) == s
  {
    if IsNewestOf(s, a, x) && !s.attempts[a].Open() {
      NewestIsFound(s.attempts, a, x);
      CountingIsThat(s, a, usage);
    }
    if forall i :: 0 <= i < |s.attempts| ==> s.attempts[i].execution != Some(x) {
      NoneIsFound(s.attempts, x);
    }
  }

  // ── Expiry, ended tasks, stops ────────────────────────────────────

  /** A sweep closes an evaluation that is due as a failed one, and otherwise changes
      nothing. */
  lemma SweepsFailWhatIsDue(s: State, n: nat, a: nat, usage: Usage, now: Time, t: State)
    requires Inv(s) && n == |s.attempts| == a + 1 && t == Next(s, Expire(usage, now))
    ensures var att := s.attempts[a];
      var due := att.Open() && att.job && att.deadline.Some? && att.deadline.value <= now;
      && (!due ==> t == s)
      && (due ==>
            && ClosedAs(s, t, a, Some(EvalFailed), TimedOut, None, None, usage, Some(now), now) && Schedules(s, t, a)
            && MovesAs(s, t, a, Verdict(EvalFailed, TimedOut, None, None)))
  {
    var att := s.attempts[a];
    assert Sane(att, s.past[a]);
    SweepReachesOnlyTheNewest(s, a, usage, now);
    if att.Open() && att.job && att.deadline.Some? && att.deadline.value <= now {
      var v := Verdict(EvalFailed, TimedOut, None, None);
      ClosesAreExact(s, a, Some(EvalFailed), TimedOut, att.score, att.valid, Some(v), None, usage, Some(now), now, t,
                     TokenDelta(att, usage));
      OpenWorkMeans(s, a);
      if !s.row.status.IsTerminal() {
        RowAfterVerdict(s.row, a, t.attempts[a], v, TokenDelta(att, usage), None, t.row);
      }
    }
  }

  /** The end of a cycle's task closes it as unclear unless its evaluation began. */
  lemma EndedTasksCloseUnclear(s: State, a: nat, usage: Usage, finished: Option<Time>, now: Time)
    requires Inv(s) && a < |s.attempts|
    ensures var t := Next(s, TaskOver(a, usage, finished, now));
      && (!s.attempts[a].Open() || s.attempts[a].job ==> t == s)
      && (s.attempts[a].Open() && !s.attempts[a].job ==>
            ClosedAs(s, t, a, Some(Unclear), Skipped, None, None, usage, finished, now) && Schedules(s, t, a) && UnjudgedMoves(s, t, a))
  {
    if s.attempts[a].Open() && !s.attempts[a].job {
      UnjudgedCloses(s, a, Some(Unclear), usage, finished, now, Next(s, TaskOver(a, usage, finished, now)));
    }
  }
}

/** The pure rules of a campaign: its state table, its judge, its budget and clock
    arithmetic. Times are whole seconds, scores are reals. */
module CampaignRules {
  import opened Wrappers

  type Time = int

  const MIN_GAP_SECONDS := 300
  const PLATEAU_WINDOW := 5
  const RETRO_EVERY_CYCLES := 10
  const EVAL_FAILURE_BLOCK_THRESHOLD := 3
  const MAX_EVAL_TIMEOUT_SECONDS := 6 * 3600
  const EVAL_GRACE_SECONDS := 120
  const EVAL_PENDING_WINDOW_SECONDS := 24 * 3600
  const MIN_WAKEUP_SECONDS := 60
  const MAX_WAKEUP_SECONDS := 7 * 24 * 3600
  const EPSILON := 0.000000001

  /** A work cycle, or the retrospective that looks back on them. */
  datatype Kind = Cycle | Retrospective

  // ── Statuses ──────────────────────────────────────────────────────

  datatype Status =
    | Active | Paused | Blocked | Plateau | AwaitingConfirmation
    | Achieved | DeadlineReached | BudgetExhausted | Stopped
  {
    predicate IsTerminal() {
      Achieved? || DeadlineReached? || BudgetExhausted? || Stopped?
    }

    /** Ends that run a retrospective; a stop does not. */
    predicate RunsRetrospective() {
      Achieved? || DeadlineReached? || BudgetExhausted?
    }
  }

  datatype Trigger =
    | Pause | Resume | Block | NoProgress | TargetReached | Confirm | RejectResult
    | TrustedTargetReached | DeadlinePassed | BudgetSpent | Stop | Edit | Extend

  function Transition(s: Status, t: Trigger): Option<Status> {
    match t
    case Pause => if s.Active? then Some(Paused) else None
    case Resume => if s.Paused? || s.Blocked? || s.Plateau? then Some(Active) else None
    case Block => if s.Active? || s.Paused? then Some(Blocked) else None
    case NoProgress => if s.Active? then Some(Plateau) else None
    case TargetReached => if s.Active? || s.Paused? then Some(AwaitingConfirmation) else None
    case Confirm => if s.AwaitingConfirmation? then Some(Achieved) else None
    case RejectResult => if s.AwaitingConfirmation? then Some(Active) else None
    case TrustedTargetReached => if !s.IsTerminal() && !s.Blocked? then Some(Achieved) else None
    case DeadlinePassed => if !s.IsTerminal() then Some(DeadlineReached) else None
    case BudgetSpent => if !s.IsTerminal() then Some(BudgetExhausted) else None
    case Stop => if !s.IsTerminal() then Some(Stopped) else None
    case Edit => if !s.IsTerminal() then Some(s) else None
    case Extend =>
      if !s.IsTerminal() then Some(s)
      else if s.DeadlineReached? || s.BudgetExhausted? then Some(Active)
      else None
  }

  // ── Judging ───────────────────────────────────────────────────────

  datatype Mode = TargetMode | OptimizeMode

  datatype Metric = Metric(maximize: bool, target: Option<real>, minDelta: real)

  datatype Outcome =
    | Improved | NoGain | Regressed | GuardrailViolation | EvalFailed | PinMismatch | NoRecord | Unclear
  {
    predicate Judged() {
      Improved? || NoGain? || Regressed? || GuardrailViolation?
    }
  }

  datatype EvalStatus = Pending | Running | Ok | Failed | Invalid | Skipped | TimedOut

  datatype Verdict = Verdict(outcome: Outcome, status: EvalStatus, score: Option<real>, valid: Option<bool>)

  /** What the machine reported; a field that is not a number (or not a boolean)
      is None. */
  datatype Parsed = Parsed(score: Option<real>, valid: Option<bool>)
  datatype ReportStatus = ReportOk | ReportInvalid | ReportTimedOut | ReportOther
  datatype Report = Report(status: ReportStatus, parsed: Option<Parsed>)

  function Abs(x: real): real {
    if x < 0.0 then -x else x
  }

  function Gain(score: real, best: real, m: Metric): real {
    if m.maximize then score - best else best - score
  }

  /** How much better than *best* a score must be. */
  function Bar(best: real, m: Metric): real {
    m.minDelta + EPSILON * (if Abs(best) > 1.0 then Abs(best) else 1.0)
  }

  predicate Beats(score: real, best: Option<real>, m: Metric) {
    best.None? || Gain(score, best.value, m) > Bar(best.value, m)
  }

  predicate ReachesTarget(score: Option<real>, m: Metric) {
    score.Some? && m.target.Some? && (if m.maximize then score.value >= m.target.value else score.value <= m.target.value)
  }

  function Classify(m: Metric, r: Report, best: Option<real>): Verdict {
    if r.status.ReportInvalid? then Verdict(PinMismatch, Invalid, None, None)
    else if !r.status.ReportOk? || r.parsed.None? then
      Verdict(EvalFailed, if r.status.ReportTimedOut? then TimedOut else Failed, None, None)
    else if r.parsed.value.score.None? || r.parsed.value.valid.None? then Verdict(EvalFailed, Failed, None, None)
    else
      var score := r.parsed.value.score.value;
      if !r.parsed.value.valid.value then Verdict(GuardrailViolation, Ok, Some(score), Some(false))
      else if Beats(score, best, m) then Verdict(Improved, Ok, Some(score), Some(true))
      else if best.Some? && Gain(score, best.value, m) < 0.0 then Verdict(Regressed, Ok, Some(score), Some(true))
      else Verdict(NoGain, Ok, Some(score), Some(true))
  }

  /** A scored run the agent never reported keeps its score but does not count. */
  function Counted(v: Verdict, recorded: bool): Verdict {
    if !recorded && v.outcome.Judged() then v.(outcome := NoRecord) else v
  }

  // ── Budget and clock ──────────────────────────────────────────────

  datatype Budget = Budget(cap: Option<int>, reserve: real)

  function Usable(b: Budget): Option<int> {
    if b.cap.None? then None else Some((b.cap.value as real * (1.0 - b.reserve)).Floor)
  }

  predicate CyclesSpent(b: Budget, used: int) {
    Usable(b).Some? && Usable(b).value - used <= 0
  }

  function ClosedAt(finished: Option<Time>, start: Time, now: Time): Time {
    Max(if finished.Some? then finished.value else now, start)
  }

  /** The earliest opening after a close: the minimum gap, or the wake-up if later. */
  function NextCycleAt(closed: Time, wake: Option<Time>): Time {
    if wake.None? then closed + MIN_GAP_SECONDS else Max(closed + MIN_GAP_SECONDS, wake.value)
  }

  function NotBefore(next: Option<Time>, now: Time): Option<Time> {
    if next.None? || next.value < now then Some(now) else next
  }

  datatype Evaluator = Evaluator(digest: nat, timeout: int)

  predicate ValidSpec(mode: Mode, m: Metric, b: Budget, deadline: Option<Time>, e: Evaluator, now: Time) {
    && m.minDelta >= 0.0
    && 1 <= e.timeout <= MAX_EVAL_TIMEOUT_SECONDS
    && (b.cap.Some? ==> b.cap.value > 0) && 0.0 <= b.reserve <= 0.5
    && (deadline.Some? ==> deadline.value > now)
    && (m.target.Some? || deadline.Some?)
    && (if mode.TargetMode? then m.target.Some? else m.target.None?)
  }
}

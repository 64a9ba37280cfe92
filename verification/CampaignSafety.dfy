/** What every reachable campaign keeps, and what no step undoes. */
module CampaignSafety {
  import opened Wrappers
  import opened CampaignRules
  import opened CampaignSpec

  datatype Action =
    | PauseGoal
    | ResumeGoal
    | ConfirmResult
    | RejectGoal(now: Time)
    | ExtendGoal(deadline: Option<Time>, cap: Option<int>, roomOpen: bool, now: Time)
    | EditGoal(criteria: Criteria, now: Time)

  function ActedOn(c: Row, action: Action): Row {
    match action
    case PauseGoal => GoalPaused(c)
    case ResumeGoal => GoalResumed(c)
    case ConfirmResult => ResultConfirmed(c)
    case RejectGoal(now) => ResultRejected(c, now)
    case ExtendGoal(deadline, cap, room, now) => GoalExtended(c, deadline, cap, room, now)
    case EditGoal(criteria, now) => GoalEdited(c, criteria, now)
  }

  datatype Step =
    | Tick(roomOpen: bool, agentPresent: bool, now: Time)
    | Ended(execution: nat, completed: bool, usage: Usage, finished: Option<Time>, now: Time)
    | Settled(execution: nat, usage: Usage)
    | Reported(a: nat, report: Report, pins: Option<nat>, usage: Usage, now: Time)
    | Expire(usage: Usage, now: Time)
    | TaskOver(a: nat, usage: Usage, finished: Option<Time>, now: Time)
    | StopGoal(usage: Usage, now: Time)
    | Accepted(a: nat, sent: Evaluator, now: Time)
    | RanAgain(a: nat, sent: Evaluator)
    | Attach(a: nat, execution: nat)
    | Record(a: nat)
    | Wake(a: nat, at: Time, now: Time)
    | ReportBlock(a: nat)
    | Person(action: Action)
    | Trust(a: nat, score: real)

  function Next(s: State, step: Step): State
    requires Indexed(s)
  {
    match step
    case Tick(room, agent, now) => Ticked(s, room, agent, now)
    case Ended(x, completed, usage, finished, now) => ExecutionEnded(s, x, completed, usage, finished, now)
    case Settled(x, usage) => UsageSettled(s, x, usage)
    case Reported(a, report, pins, usage, now) => EvalReported(s, a, report, pins, usage, now)
    case Expire(usage, now) => ExpiredUpTo(s, |s.attempts|, usage, now)
    case TaskOver(a, usage, finished, now) => TaskClosed(s, a, usage, finished, now)
    case StopGoal(usage, now) => StoppedBy(s, usage, now)
    case Accepted(a, sent, now) => JobAccepted(s, a, sent, now)
    case RanAgain(a, sent) => JobRunAgain(s, a, sent)
    case Attach(a, x) => ExecutionAttached(s, a, x)
    case Record(a) => AttemptRecorded(s, a)
    case Wake(a, at, now) => WakeupScheduled(s, a, at, now)
    case ReportBlock(a) => BlockReported(s, a)
    case Person(action) => s.(row := ActedOn(s.row, action))
    case Trust(a, score) => TrustedRecorded(s, a, score)
  }

  // ── The invariant ─────────────────────────────────────────────────

  function TokenSum(attempts: seq<Attempt>): int {
    if attempts == [] then 0 else TokenSum(attempts[..|attempts| - 1]) + attempts[|attempts| - 1].tokens
  }

  function CycleCount(attempts: seq<Attempt>): nat {
    if attempts == [] then 0
    else CycleCount(attempts[..|attempts| - 1]) + if attempts[|attempts| - 1].kind.Cycle? then 1 else 0
  }

  function Largest(totals: seq<int>): int {
    if totals == [] then 0 else Max(Largest(totals[..|totals| - 1]), totals[|totals| - 1])
  }

  /** One attempt's own row: what is set while it is open, and its tokens. */
  ghost predicate Sane(att: Attempt, past: Past) {
    && att.tokens == Largest(past.totals)
    && (att.Open() ==> att.outcome.None? && att.score.None? && att.valid.None? && past.bar.None? && !past.closedInLoop)
    && (att.closedAt.Some? ==> att.closedAt.value >= att.openedAt)
    && (att.job ==> att.kind.Cycle? && past.requestedAt.Some?)
    && (att.Open() && att.job ==> att.Evaluating() && att.deadline.Some?)
    && (past.bar.Some? ==> att.score.Some?)
    && (past.closedInLoop && att.recorded && att.valid == Some(true) ==> past.bar.Some?)
  }

  /** Tokens are conserved and cycles counted; only the newest attempt may be open. */
  ghost predicate Books(s: State) {
    && Indexed(s)
    && (forall i :: 0 <= i < |s.attempts| ==> Sane(s.attempts[i], s.past[i]))
    && (forall i :: 0 <= i < |s.attempts| - 1 ==> !s.attempts[i].Open())
    && s.row.tokensUsed == TokenSum(s.attempts)
    && s.row.cyclesRun == CycleCount(s.attempts)
  }

  predicate MayBeOpen(kind: Kind, status: Status) {
    status.Active? || status.Paused? || status.Achieved?
    || (kind.Retrospective? && (status.DeadlineReached? || status.BudgetExhausted?))
  }

  /** Status and open work agree. */
  ghost predicate StatusFits(s: State) {
    && (forall i :: 0 <= i < |s.attempts| && s.attempts[i].Open() ==> MayBeOpen(s.attempts[i].kind, s.row.status))
    && (s.row.failures >= EVAL_FAILURE_BLOCK_THRESHOLD ==> s.row.status.Blocked? || s.row.status.Stopped?)
  }

  function Gap(att: Attempt): Time
    requires att.closedAt.Some?
  {
    NextCycleAt(att.closedAt.value, att.wakeAt)
  }

  /** Time t is at least 300 s after the close of *att*, and not before its wake-up. */
  predicate Clears(att: Attempt, t: Time)
    requires att.closedAt.Some?
  {
    t >= att.closedAt.value + 300 && (att.wakeAt.Some? ==> t >= att.wakeAt.value)
  }

  /** A gap is exactly the larger of the two. */
  lemma GapIsTheLarger(att: Attempt)
    requires att.closedAt.Some?
    ensures forall t :: Clears(att, t) <==> t >= Gap(att)
    ensures Gap(att) == att.closedAt.value + 300 || att.wakeAt == Some(Gap(att))
  {
  }

  /** Attempt i closed while the loop went on, and nothing may open before its gap. */
  ghost predicate Spaces(s: State, i: nat)
    requires Indexed(s) && i < |s.attempts|
  {
    s.past[i].closedInLoop ==>
      && s.attempts[i].closedAt.Some?
      && s.row.nextCycleAt.Some? && Clears(s.attempts[i], s.row.nextCycleAt.value)
      && forall j :: i < j < |s.attempts| ==> Clears(s.attempts[i], s.attempts[j].openedAt)
  }

  ghost predicate Spaced(s: State)
    requires Indexed(s)
  {
    forall i :: 0 <= i < |s.attempts| ==> Spaces(s, i)
  }

  predicate CountsAsBest(att: Attempt) {
    && !att.Open() && att.kind.Cycle? && att.recorded
    && att.outcome == Some(Improved) && att.valid == Some(true) && att.score.Some?
  }

  /** The best attempt is a recorded improvement that no judged score beats by more
      than the bar it was judged against. */
  ghost predicate BestHolds(s: State)
    requires Indexed(s)
  {
    && s.row.metric.minDelta >= 0.0
    && (s.row.best.Some? ==> CountsAsBest(s.attempts[s.row.best.value]))
    && forall i :: 0 <= i < |s.attempts| && s.past[i].bar.Some? ==>
         && s.attempts[i].score.Some? && s.row.best.Some? && BestScore(s).Some?
         && Gain(s.attempts[i].score.value, BestScore(s).value, s.row.metric) <= s.past[i].bar.value
  }

  ghost predicate Inv(s: State) {
    Books(s) && StatusFits(s) && Spaced(s) && BestHolds(s)
  }

  // ── What no step undoes ───────────────────────────────────────────

  /** Set once on an attempt: its execution, the agent's reports, its evaluation job,
      and, while it is open, a running job's status and deadline. */
  ghost predicate KeepsMarks(att: Attempt, later: Attempt) {
    && (att.recorded ==> later.recorded) && (att.blockReported ==> later.blockReported)
    && (att.execution.Some? ==> later.execution == att.execution) && (att.job ==> later.job)
    && (att.job && att.evalStatus.Running? && later.Open() ==> later.evalStatus.Running? && later.deadline == att.deadline)
  }

  ghost predicate Keeps(att: Attempt, past: Past, later: Attempt, laterPast: Past) {
    && KeepsMarks(att, later)
    && later.kind == att.kind && later.openedAt == att.openedAt && later.tokens >= att.tokens
    && (att.job ==> laterPast.requestedAt == past.requestedAt)
    && (!att.Open() ==>
          && later == att.(tokens := later.tokens, trusted := later.trusted)
          && laterPast == past.(totals := laterPast.totals))
  }

  ghost predicate Evolves(s: State, t: State)
    requires Books(s) && BestHolds(s) && Books(t) && BestHolds(t)
  {
    && |s.attempts| <= |t.attempts|
    && (forall i :: 0 <= i < |s.attempts| ==> Keeps(s.attempts[i], s.past[i], t.attempts[i], t.past[i]))
    && t.row.metric.maximize == s.row.metric.maximize && t.row.mode == s.row.mode
    && (s.row.best.Some? ==>
          t.row.best.Some? && (t.row.best == s.row.best ||
            Gain(BestScore(t).value, BestScore(s).value, s.row.metric) > 0.0))
  }

  ghost predicate Steps(s: State, t: State) {
    Inv(s) && Inv(t) && Evolves(s, t)
  }

  lemma StepsChain(s: State, t: State, u: State)
    requires Steps(s, t) && Steps(t, u)
    ensures Steps(s, u)
  {
    forall i | 0 <= i < |s.attempts| ensures Keeps(s.attempts[i], s.past[i], u.attempts[i], u.past[i]) {
      assert Keeps(s.attempts[i], s.past[i], t.attempts[i], t.past[i]);
      assert Keeps(t.attempts[i], t.past[i], u.attempts[i], u.past[i]);
    }
  }

  lemma StepsNowhere(s: State)
    requires Inv(s)
    ensures Steps(s, s)
  {
  }

  // ── Sums over one changed attempt ─────────────────────────────────

  lemma {:induction false} SumsAfterUpdate(attempts: seq<Attempt>, a: nat, att: Attempt)
    requires a < |attempts| && att.kind == attempts[a].kind
    ensures TokenSum(attempts[a := att]) == TokenSum(attempts) - attempts[a].tokens + att.tokens
    ensures CycleCount(attempts[a := att]) == CycleCount(attempts)
  {
    var n := |attempts| - 1;
    if a < n {
      SumsAfterUpdate(attempts[..n], a, att);
      assert attempts[a := att][..n] == attempts[..n][a := att];
    } else {
      assert attempts[a := att][..n] == attempts[..n];
    }
  }

  lemma LargestAppend(totals: seq<int>, x: int)
    ensures Largest(totals + [x]) == Max(Largest(totals), x)
  {
    assert (totals + [x])[..|totals|] == totals;
  }

  // ── One lemma per kind of write ───────────────────────────────────

  /** A write to the campaign row alone. */
  ghost predicate RowWrite(s: State, row: Row) {
    && row.tokensUsed == s.row.tokensUsed && row.cyclesRun == s.row.cyclesRun && row.best == s.row.best
    && row.mode == s.row.mode && row.metric.maximize == s.row.metric.maximize && row.metric.minDelta >= 0.0
    && (s.row.nextCycleAt.Some? ==> row.nextCycleAt.Some? && row.nextCycleAt.value >= s.row.nextCycleAt.value)
  }

  lemma RowWriteKeepsInv(s: State, row: Row)
    requires Inv(s) && RowWrite(s, row) && StatusFits(s.(row := row))
    ensures Steps(s, s.(row := row))
  {
    var t := s.(row := row);
    assert Books(t);
    forall i | 0 <= i < |t.attempts| ensures Spaces(t, i) {
      assert Spaces(s, i);
    }
  }

  /** A write to one attempt's row that neither closes it nor counts tokens. */
  ghost predicate AttemptWrite(att: Attempt, past: Past, later: Attempt, laterPast: Past) {
    && KeepsMarks(att, later)
    && later.kind == att.kind && later.openedAt == att.openedAt && later.closedAt == att.closedAt
    && later.outcome == att.outcome && later.score == att.score && later.valid == att.valid
    && later.tokens == att.tokens && (att.job ==> laterPast == past)
    && laterPast == past.(requestedAt := laterPast.requestedAt)
    && (!att.Open() ==> later == att.(trusted := later.trusted) && laterPast == past)
  }

  /** The attempts of *t* are those of *s* as far as status, spacing and the best
      attempt can see. */
  ghost predicate LooksAlike(s: State, t: State)
    requires Indexed(s) && Indexed(t)
  {
    && |t.attempts| == |s.attempts|
    && t.row == s.row.(tokensUsed := t.row.tokensUsed)
    && forall i :: 0 <= i < |s.attempts| ==>
         var att, later := s.attempts[i], t.attempts[i];
         && later.kind == att.kind && later.openedAt == att.openedAt && later.closedAt == att.closedAt
         && later.outcome == att.outcome && later.score == att.score && later.valid == att.valid
         && (!att.Open() ==> later.wakeAt == att.wakeAt && later.recorded == att.recorded)
         && t.past[i].closedInLoop == s.past[i].closedInLoop && t.past[i].bar == s.past[i].bar
  }

  lemma LooksAlikeKeeps(s: State, t: State)
    requires Inv(s) && Indexed(t) && LooksAlike(s, t)
    ensures StatusFits(t) && Spaced(t) && BestHolds(t) && BestScore(t) == BestScore(s)
  {
    forall i | 0 <= i < |t.attempts| ensures Spaces(t, i) {
      assert Spaces(s, i);
    }
  }

  /** *t* differs from *s* in attempt *a* and the campaign row only. */
  ghost predicate OneChanged(s: State, t: State, a: nat) {
    && Indexed(s) && Indexed(t) && a < |s.attempts| && |t.attempts| == |s.attempts|
    && t.attempts == s.attempts[a := t.attempts[a]] && t.past == s.past[a := t.past[a]]
  }

  lemma BooksAfterChange(s: State, t: State, a: nat)
    requires Books(s) && OneChanged(s, t, a) && Sane(t.attempts[a], t.past[a])
    requires t.attempts[a].kind == s.attempts[a].kind && (t.attempts[a].Open() ==> s.attempts[a].Open())
    requires t.row.cyclesRun == s.row.cyclesRun
    requires t.row.tokensUsed == s.row.tokensUsed + t.attempts[a].tokens - s.attempts[a].tokens
    ensures Books(t)
  {
    SumsAfterUpdate(s.attempts, a, t.attempts[a]);
  }

  lemma EvolvesAfterChange(s: State, t: State, a: nat)
    requires Books(s) && BestHolds(s) && Books(t) && BestHolds(t) && OneChanged(s, t, a)
    requires Keeps(s.attempts[a], s.past[a], t.attempts[a], t.past[a])
    requires t.row.metric.maximize == s.row.metric.maximize && t.row.mode == s.row.mode
    requires s.row.best.Some? ==> t.row.best.Some?
    requires s.row.best.Some? && t.row.best != s.row.best ==> Gain(BestScore(t).value, BestScore(s).value, s.row.metric) > 0.0
    ensures Evolves(s, t)
  {
  }

  lemma AttemptWriteKeepsInv(s: State, a: nat, later: Attempt, laterPast: Past)
    requires Inv(s) && a < |s.attempts|
    requires AttemptWrite(s.attempts[a], s.past[a], later, laterPast) && Sane(later, laterPast)
    ensures Steps(s, s.(attempts := s.attempts[a := later], past := s.past[a := laterPast]))
  {
    var t := s.(attempts := s.attempts[a := later], past := s.past[a := laterPast]);
    LooksAlikeKeeps(s, t);
    BooksAfterChange(s, t, a);
    EvolvesAfterChange(s, t, a);
  }

  lemma OpenWriteKeepsInv(s: State, a: nat, later: Attempt)
    requires Inv(s) && a < |s.attempts|
    requires AttemptWrite(s.attempts[a], s.past[a], later, s.past[a]) && Sane(later, s.past[a])
    ensures Steps(s, s.(attempts := s.attempts[a := later]))
  {
    AttemptWriteKeepsInv(s, a, later, s.past[a]);
    assert s.past[a := s.past[a]] == s.past;
  }

  lemma SaneAfterReading(att: Attempt, past: Past, total: int)
    requires Sane(att, past)
    ensures Sane(att.(tokens := att.tokens + Max(total - att.tokens, 0)), past.(totals := past.totals + [total]))
  {
    LargestAppend(past.totals, total);
  }

  /** Reading the usage of one attempt: its tokens become the largest total read. */
  lemma SyncIsSane(s: State, a: nat, usage: Usage)
    requires Books(s) && a < |s.attempts|
    ensures var t := TokensSynced(s, a, usage);
      && OneChanged(s, t, a) && Sane(t.attempts[a], t.past[a])
      && t.attempts[a] == s.attempts[a].(tokens := s.attempts[a].tokens + TokenDelta(s.attempts[a], usage))
      && t.past[a] == s.past[a].(totals := t.past[a].totals)
  {
    assert Sane(s.attempts[a], s.past[a]);
    SaneAfterReading(s.attempts[a], s.past[a], Measured(s.attempts[a], usage));
    if s.attempts[a].execution.None? {
      NothingMeasured(s.past[a].totals);
      assert s.attempts[a := s.attempts[a]] == s.attempts && s.past[a := s.past[a]] == s.past;
    }
  }

  lemma {:induction false} NothingMeasured(totals: seq<int>)
    ensures Largest(totals) >= 0
  {
    if totals != [] {
      NothingMeasured(totals[..|totals| - 1]);
    }
  }

  /** Counting a measurement keeps the books balanced. */
  lemma CountingKeepsInv(s: State, a: nat, usage: Usage)
    requires Inv(s) && a < |s.attempts|
    ensures Steps(s, Counting(s, a, usage))
  {
    var t := Counting(s, a, usage);
    SyncIsSane(s, a, usage);
    LooksAlikeKeeps(s, t);
    BooksAfterChange(s, t, a);
    EvolvesAfterChange(s, t, a);
  }

  lemma OpeningKeepsBooks(s: State, kind: Kind, now: Time)
    requires Books(s) && !AnyOpen(s.attempts)
    ensures Books(Opened(s, kind, now))
  {
    assert Opened(s, kind, now).attempts[..|s.attempts|] == s.attempts;
  }

  /** Opening is safe once nothing is open and the gap has passed. */
  lemma OpeningKeepsInv(s: State, kind: Kind, now: Time)
    requires Inv(s) && !AnyOpen(s.attempts) && MayBeOpen(kind, s.row.status)
    requires s.row.nextCycleAt.Some? ==> s.row.nextCycleAt.value <= now
    ensures Steps(s, Opened(s, kind, now))
  {
    var t := Opened(s, kind, now);
    OpeningKeepsBooks(s, kind, now);
    forall i | 0 <= i < |t.attempts| ensures Spaces(t, i) {
      if i < |s.attempts| {
        assert Spaces(s, i);
      }
    }
  }

  // ── Closing ───────────────────────────────────────────────────────

  /** A verdict that is honest about the best score so far. */
  ghost predicate Honest(v: Verdict, recorded: bool, best: Option<real>, m: Metric) {
    && (v.outcome.Improved? ==> recorded && v.valid == Some(true))
    && (v.valid == Some(true) ==> v.score.Some?)
    && (v.valid == Some(true) && recorded ==> (v.outcome.Improved? <==> Beats(v.score.value, best, m)))
  }

  lemma CountedVerdictsAreHonest(m: Metric, r: Report, best: Option<real>, recorded: bool)
    ensures Honest(Counted(Classify(m, r, best), recorded), recorded, best, m)
  {
  }

  /** The legality filter drops only one thing: a plateau while paused. */
  lemma FilterDropsOnlyPlateauWhilePaused(c: Row, att: Attempt, verdict: Option<Verdict>, used: int)
    requires c.status.Active? || c.status.Paused?
    requires Asked(att, Judged(c, verdict, used)).Some?
    ensures Transition(c.status, Asked(att, Judged(c, verdict, used)).value).None?
       <==> c.status.Paused? && Asked(att, Judged(c, verdict, used)) == Some(NoProgress)
  {
  }

  /** The third evaluation failure in a row always blocks. */
  lemma ThirdFailureBlocks(c: Row, att: Attempt, verdict: Option<Verdict>, used: int)
    requires c.status.Active? || c.status.Paused?
    requires c.failures < EVAL_FAILURE_BLOCK_THRESHOLD
    ensures Judged(c, verdict, used).failures >= EVAL_FAILURE_BLOCK_THRESHOLD ==>
      && Asked(att, Judged(c, verdict, used)) == Some(Block)
      && Transition(c.status, Block) == Some(Blocked)
  {
  }

  /** Before a close: one open attempt, the newest; a stop has already written its
      status. */
  ghost predicate Closable(s: State, a: nat) {
    && Books(s) && Spaced(s) && BestHolds(s)
    && a < |s.attempts| && s.attempts[a].Open()
    && (MayBeOpen(s.attempts[a].kind, s.row.status) || s.row.status.Stopped?)
    && (s.row.failures >= EVAL_FAILURE_BLOCK_THRESHOLD ==> s.row.status.Blocked? || s.row.status.Stopped?)
  }

  lemma ClosingKeepsStatus(c: Row, a: nat, att: Attempt, verdict: Option<Verdict>, delta: int, pins: Option<nat>)
    requires att.closedAt.Some?
    requires c.status.Active? || c.status.Paused? || c.status.IsTerminal()
    requires c.failures >= EVAL_FAILURE_BLOCK_THRESHOLD ==> c.status.Stopped?
    ensures var r := AfterClose(c, a, att, verdict, delta, pins);
      && (r.failures >= EVAL_FAILURE_BLOCK_THRESHOLD ==> r.status.Blocked? || r.status.Stopped?)
      && r.tokensUsed == c.tokensUsed + delta && r.cyclesRun == c.cyclesRun
      && r.metric == c.metric && r.mode == c.mode
      && r.nextCycleAt == (if c.status.IsTerminal() then c.nextCycleAt else Some(Gap(att)))
      && r.best == (if !c.status.IsTerminal() && verdict.Some? && verdict.value.outcome.Improved? then Some(a) else c.best)
  {
    if !c.status.IsTerminal() {
      ThirdFailureBlocks(c, att, verdict, c.tokensUsed + delta);
    }
  }

  lemma ClosingKeepsSpacing(s: State, t: State, a: nat)
    requires Books(s) && Indexed(t) && Spaced(s) && a < |s.attempts| && s.attempts[a].Open()
    requires |t.attempts| == |s.attempts| && !t.attempts[a].Open()
    requires t.attempts[a].openedAt == s.attempts[a].openedAt && t.attempts[a].closedAt.value >= s.attempts[a].openedAt
    requires forall i :: 0 <= i < |s.attempts| && i != a ==> t.attempts[i] == s.attempts[i] && t.past[i] == s.past[i]
    requires t.past[a].closedInLoop == !s.row.status.IsTerminal()
    requires t.row.nextCycleAt == if s.row.status.IsTerminal() then s.row.nextCycleAt else Some(Gap(t.attempts[a]))
    ensures Spaced(t)
  {
    forall i | 0 <= i < |t.attempts| ensures Spaces(t, i) {
      assert Spaces(s, i);
    }
  }

  lemma BetterBestKeepsBars(x: real, best: real, next: real, bar: real, m: Metric)
    requires Gain(x, best, m) <= bar && Gain(next, best, m) > 0.0
    ensures Gain(x, next, m) <= bar
  {
  }

  lemma ClosingKeepsBest(s: State, t: State, a: nat, verdict: Option<Verdict>)
    requires Books(s) && BestHolds(s) && Indexed(t) && a < |s.attempts| && s.attempts[a].Open()
    requires |t.attempts| == |s.attempts| && !t.attempts[a].Open() && t.row.metric == s.row.metric
    requires forall i :: 0 <= i < |s.attempts| && i != a ==> t.attempts[i] == s.attempts[i] && t.past[i] == s.past[i]
    requires t.attempts[a].recorded == s.attempts[a].recorded && t.attempts[a].kind == s.attempts[a].kind
    requires verdict.Some? ==>
      && Honest(verdict.value, s.attempts[a].recorded, BestScore(s), s.row.metric) && s.attempts[a].kind.Cycle?
      && t.attempts[a].outcome == Some(verdict.value.outcome)
      && t.attempts[a].score == verdict.value.score && t.attempts[a].valid == verdict.value.valid
    requires t.past[a].bar == BarInForce(s, t.attempts[a], verdict)
    requires t.row.best == if !s.row.status.IsTerminal() && verdict.Some? && verdict.value.outcome.Improved? then Some(a) else s.row.best
    ensures BestHolds(t)
    ensures t.row.best != s.row.best && s.row.best.Some? ==> Gain(BestScore(t).value, BestScore(s).value, s.row.metric) > 0.0
    ensures s.row.best.Some? ==> t.row.best.Some?
    ensures t.past[a].bar.Some? ==> t.attempts[a].score.Some?
  {
    if t.row.best != s.row.best {
      forall i | 0 <= i < |t.attempts| && t.past[i].bar.Some?
        ensures t.attempts[i].score.Some? && Gain(t.attempts[i].score.value, BestScore(t).value, t.row.metric) <= t.past[i].bar.value
      {
        if i != a {
          BetterBestKeepsBars(s.attempts[i].score.value, BestScore(s).value, BestScore(t).value, s.past[i].bar.value, s.row.metric);
        }
      }
    }
  }

  /** *t* is *s* after attempt *a* closed with *verdict*. */
  ghost predicate ClosedInto(s: State, t: State, a: nat, verdict: Option<Verdict>) {
    && OneChanged(s, t, a) && s.attempts[a].Open() && t.attempts[a].closedAt.Some?
    && t.attempts[a].closedAt.value >= s.attempts[a].openedAt
    && t.attempts[a].tokens == Largest(t.past[a].totals) && t.attempts[a].tokens >= s.attempts[a].tokens
    && t.attempts[a] == s.attempts[a].(closedAt := t.attempts[a].closedAt, outcome := t.attempts[a].outcome,
                                       evalStatus := t.attempts[a].evalStatus, score := t.attempts[a].score,
                                       valid := t.attempts[a].valid, tokens := t.attempts[a].tokens)
    && t.past[a].requestedAt == s.past[a].requestedAt
    && t.past[a].closedInLoop == !s.row.status.IsTerminal() && t.past[a].bar == BarInForce(s, t.attempts[a], verdict)
    && t.row.tokensUsed == s.row.tokensUsed + t.attempts[a].tokens - s.attempts[a].tokens
    && t.row.cyclesRun == s.row.cyclesRun && t.row.metric == s.row.metric && t.row.mode == s.row.mode
    && (t.row.failures >= EVAL_FAILURE_BLOCK_THRESHOLD ==> t.row.status.Blocked? || t.row.status.Stopped?)
    && t.row.nextCycleAt == (if s.row.status.IsTerminal() then s.row.nextCycleAt else Some(Gap(t.attempts[a])))
    && t.row.best == (if !s.row.status.IsTerminal() && verdict.Some? && verdict.value.outcome.Improved? then Some(a) else s.row.best)
  }

  /** The parts of a close: one attempt closed with its usage read, and the plan's row. */
  lemma ClosedShape(s: State, a: nat, outcome: Option<Outcome>, status: EvalStatus, score: Option<real>,
                    valid: Option<bool>, verdict: Option<Verdict>, pins: Option<nat>, usage: Usage,
                    finished: Option<Time>, now: Time, t: State)
    requires Books(s) && a < |s.attempts|
    requires t == ClosedWith(s, a, outcome, status, score, valid, verdict, pins, usage, finished, now)
    ensures OneChanged(s, t, a) && t.attempts[a].closedAt.Some?
    ensures var att := s.attempts[a];
      t.attempts[a] == ClosedAttempt(att.(tokens := att.tokens + TokenDelta(att, usage)), outcome, status, score, valid, finished, now)
    ensures t.attempts[a].tokens == Largest(t.past[a].totals)
    ensures t.past[a] == s.past[a].(totals := t.past[a].totals, closedInLoop := !s.row.status.IsTerminal(),
                                    bar := BarInForce(s, t.attempts[a], verdict))
    ensures t.row == AfterClose(s.row, a, t.attempts[a], if s.row.status.IsTerminal() then None else verdict,
                                TokenDelta(s.attempts[a], usage), pins)
  {
    SyncIsSane(s, a, usage);
  }

  lemma ClosingFillsInOne(s: State, a: nat, outcome: Option<Outcome>, status: EvalStatus, score: Option<real>,
                          valid: Option<bool>, verdict: Option<Verdict>, pins: Option<nat>, usage: Usage,
                          finished: Option<Time>, now: Time, t: State)
    requires Closable(s, a) && t == ClosedWith(s, a, outcome, status, score, valid, verdict, pins, usage, finished, now)
    ensures ClosedInto(s, t, a, verdict)
    ensures t.attempts[a].outcome == outcome && t.attempts[a].score == score && t.attempts[a].valid == valid
  {
    ClosedShape(s, a, outcome, status, score, valid, verdict, pins, usage, finished, now, t);
    ShapedIsClosedInto(s, t, a, verdict, TokenDelta(s.attempts[a], usage), pins);
  }

  lemma ShapedIsClosedInto(s: State, t: State, a: nat, verdict: Option<Verdict>, delta: nat, pins: Option<nat>)
    requires Closable(s, a) && OneChanged(s, t, a)
    requires t.attempts[a].closedAt.Some? && t.attempts[a].closedAt.value >= s.attempts[a].openedAt
    requires t.attempts[a] == s.attempts[a].(closedAt := t.attempts[a].closedAt, outcome := t.attempts[a].outcome,
                                             evalStatus := t.attempts[a].evalStatus, score := t.attempts[a].score,
                                             valid := t.attempts[a].valid, tokens := s.attempts[a].tokens + delta)
    requires t.attempts[a].tokens == Largest(t.past[a].totals)
    requires t.past[a] == s.past[a].(totals := t.past[a].totals, closedInLoop := !s.row.status.IsTerminal(),
                                     bar := BarInForce(s, t.attempts[a], verdict))
    requires t.row == AfterClose(s.row, a, t.attempts[a], if s.row.status.IsTerminal() then None else verdict, delta, pins)
    ensures ClosedInto(s, t, a, verdict)
  {
    ClosingKeepsStatus(s.row, a, t.attempts[a], if s.row.status.IsTerminal() then None else verdict, delta, pins);
  }

  lemma ClosedIntoKeepsInv(s: State, t: State, a: nat, verdict: Option<Verdict>)
    requires Closable(s, a) && ClosedInto(s, t, a, verdict)
    requires verdict.Some? ==>
      && Honest(verdict.value, s.attempts[a].recorded, BestScore(s), s.row.metric) && s.attempts[a].kind.Cycle?
      && t.attempts[a].outcome == Some(verdict.value.outcome)
      && t.attempts[a].score == verdict.value.score && t.attempts[a].valid == verdict.value.valid
    requires verdict.None? ==> t.attempts[a].valid.None?
    ensures Inv(t) && Evolves(s, t) && !AnyOpen(t.attempts)
  {
    ClosingKeepsSpacing(s, t, a);
    ClosingKeepsBest(s, t, a, verdict);
    assert Sane(s.attempts[a], s.past[a]);
    assert Sane(t.attempts[a], t.past[a]);
    BooksAfterChange(s, t, a);
    EvolvesAfterChange(s, t, a);
  }

  /** Every close, whatever asked for it, keeps the whole invariant. */
  lemma ClosingKeepsInv(s: State, a: nat, outcome: Option<Outcome>, status: EvalStatus, score: Option<real>,
                        valid: Option<bool>, verdict: Option<Verdict>, pins: Option<nat>, usage: Usage,
                        finished: Option<Time>, now: Time)
    requires Closable(s, a)
    requires verdict.Some? ==>
      && Honest(verdict.value, s.attempts[a].recorded, BestScore(s), s.row.metric) && s.attempts[a].kind.Cycle?
      && outcome == Some(verdict.value.outcome) && score == verdict.value.score && valid == verdict.value.valid
    requires verdict.None? ==> valid.None?
    ensures var t := ClosedWith(s, a, outcome, status, score, valid, verdict, pins, usage, finished, now);
      && Inv(t) && Evolves(s, t) && !AnyOpen(t.attempts)
  {
    var t := ClosedWith(s, a, outcome, status, score, valid, verdict, pins, usage, finished, now);
    ClosingFillsInOne(s, a, outcome, status, score, valid, verdict, pins, usage, finished, now, t);
    ClosedIntoKeepsInv(s, t, a, verdict);
  }

  // ── Every step ────────────────────────────────────────────────────

  lemma UnknownCloseKeepsInv(s: State, a: nat, usage: Usage, finished: Option<Time>, now: Time)
    requires Closable(s, a)
    ensures var t := ClosedUnknown(s, a, usage, finished, now); Inv(t) && Evolves(s, t) && !AnyOpen(t.attempts)
  {
    assert Sane(s.attempts[a], s.past[a]);
    ClosingKeepsInv(s, a, Some(Unclear), Skipped, s.attempts[a].score, s.attempts[a].valid, None, None, usage, finished, now);
  }

  /** With nothing open any status fits that keeps three failures blocked. */
  lemma IdleRowKeepsInv(s: State, row: Row)
    requires Inv(s) && !AnyOpen(s.attempts) && RowWrite(s, row) && row.failures == s.row.failures
    requires row.failures >= EVAL_FAILURE_BLOCK_THRESHOLD ==> row.status.Blocked? || row.status.Stopped?
    ensures Steps(s, s.(row := row))
  {
    RowWriteKeepsInv(s, row);
  }

  lemma EnteringKeepsInv(s: State, next: Status)
    requires Inv(s) && !AnyOpen(s.attempts) && s.row.status.Active?
    ensures Steps(s, s.(row := Entered(s.row, next)))
  {
    IdleRowKeepsInv(s, Entered(s.row, next));
  }

  /** A tick of a campaign that has ended: its retrospective at most. */
  lemma EndedTickKeepsInv(s: State, roomOpen: bool, agentPresent: bool, now: Time)
    requires Inv(s) && !s.row.status.Active?
    ensures Steps(s, Ticked(s, roomOpen, agentPresent, now))
  {
    var t := Ticked(s, roomOpen, agentPresent, now);
    if t == s {
      StepsNowhere(s);
    } else if t == s.(row := s.row.(retroDue := false)) {
      IdleRowKeepsInv(s, t.row);
    } else {
      OpeningKeepsInv(s, Retrospective, now);
    }
  }

  lemma ActiveTickKeepsInv(s: State, roomOpen: bool, agentPresent: bool, now: Time)
    requires Inv(s) && s.row.status.Active?
    ensures Steps(s, Ticked(s, roomOpen, agentPresent, now))
  {
    var c := s.row;
    if AnyOpen(s.attempts) {
      StepsNowhere(s);
    } else if !roomOpen {
      EnteringKeepsInv(s, Stopped);
    } else if c.deadline.Some? && c.deadline.value <= now {
      EnteringKeepsInv(s, DeadlineReached);
    } else if CyclesSpent(c.budget, c.tokensUsed) {
      EnteringKeepsInv(s, BudgetExhausted);
    } else if c.nextCycleAt.None? || c.nextCycleAt.value > now {
      StepsNowhere(s);
    } else if !agentPresent {
      EnteringKeepsInv(s, Blocked);
    } else {
      OpeningKeepsInv(s, if c.retroDue then Retrospective else Cycle, now);
    }
  }

  lemma TickKeepsInv(s: State, roomOpen: bool, agentPresent: bool, now: Time)
    requires Inv(s)
    ensures Steps(s, Ticked(s, roomOpen, agentPresent, now))
  {
    if s.row.status.Active? {
      ActiveTickKeepsInv(s, roomOpen, agentPresent, now);
    } else {
      EndedTickKeepsInv(s, roomOpen, agentPresent, now);
    }
  }

  lemma RequestingKeepsInv(s: State, a: nat, now: Time)
    requires Inv(s) && a < |s.attempts| && s.attempts[a].Open() && s.attempts[a].kind.Cycle? && !s.attempts[a].job
    ensures Steps(s, EvalRequested(s, a, now))
  {
    var t := EvalRequested(s, a, now);
    assert Sane(s.attempts[a], s.past[a]);
    AttemptWriteKeepsInv(s, a, t.attempts[a], t.past[a]);
  }

  lemma ExecutionEndKeepsInv(s: State, execution: nat, completed: bool, usage: Usage, finished: Option<Time>, now: Time)
    requires Inv(s)
    ensures Steps(s, ExecutionEnded(s, execution, completed, usage, finished, now))
  {
    var found := RunBy(s.attempts, execution);
    if found.None? {
      StepsNowhere(s);
    } else {
      var a := found.value;
      var att := s.attempts[a];
      if !att.Open() || att.job {
        CountingKeepsInv(s, a, usage);
      } else if att.kind.Retrospective? {
        assert Sane(att, s.past[a]);
        ClosingKeepsInv(s, a, if completed then None else Some(Unclear), Skipped, att.score, att.valid, None, None, usage, finished, now);
      } else if completed && !s.row.status.IsTerminal() {
        CountingKeepsInv(s, a, usage);
        SyncIsSane(s, a, usage);
        RequestingKeepsInv(Counting(s, a, usage), a, now);
        StepsChain(s, Counting(s, a, usage), EvalRequested(Counting(s, a, usage), a, now));
      } else {
        UnknownCloseKeepsInv(s, a, usage, finished, now);
      }
    }
  }

  lemma ReportKeepsInv(s: State, a: nat, report: Report, pins: Option<nat>, usage: Usage, now: Time)
    requires Inv(s)
    ensures Steps(s, EvalReported(s, a, report, pins, usage, now))
  {
    if a < |s.attempts| && s.attempts[a].Evaluating() {
      var att := s.attempts[a];
      assert Sane(att, s.past[a]);
      var v := Counted(Classify(s.row.metric, report, BestScore(s)), att.recorded);
      CountedVerdictsAreHonest(s.row.metric, report, BestScore(s), att.recorded);
      var adopted := if !report.status.ReportInvalid? && att.digest == Some(s.row.evaluator.digest) then pins else None;
      ClosingKeepsInv(s, a, Some(v.outcome), v.status, v.score, v.valid, Some(v), adopted, usage, Some(now), now);
    } else {
      StepsNowhere(s);
    }
  }

  lemma ExpiryKeepsInv(s: State, a: nat, usage: Usage, now: Time)
    requires Inv(s) && a < |s.attempts|
    ensures Steps(s, ExpiredAt(s, a, usage, now))
  {
    if Expired(s.attempts[a], now) {
      assert Sane(s.attempts[a], s.past[a]);
      ClosingKeepsInv(s, a, Some(EvalFailed), TimedOut, s.attempts[a].score, s.attempts[a].valid, Some(TIMED_OUT), None,
                      usage, Some(now), now);
    } else {
      StepsNowhere(s);
    }
  }

  lemma {:induction false} ClosedPrefixIsUntouched(s: State, n: nat, usage: Usage, now: Time)
    requires Indexed(s) && n <= |s.attempts| && forall i :: 0 <= i < n ==> !s.attempts[i].Open()
    ensures OpenClosedUpTo(s, n, usage, now) == s
    ensures ExpiredUpTo(s, n, usage, now) == s
  {
    if n > 0 {
      ClosedPrefixIsUntouched(s, n - 1, usage, now);
    }
  }

  /** Only the newest attempt can be open, so a sweep expires at most that one. */
  lemma SweepReachesOnlyTheNewest(s: State, a: nat, usage: Usage, now: Time)
    requires Books(s) && |s.attempts| == a + 1
    ensures ExpiredUpTo(s, a + 1, usage, now) == ExpiredAt(s, a, usage, now)
  {
    ClosedPrefixIsUntouched(s, a, usage, now);
  }

  lemma ExpirySweepKeepsInv(s: State, n: nat, usage: Usage, now: Time)
    requires Inv(s) && n == |s.attempts|
    ensures Steps(s, ExpiredUpTo(s, n, usage, now))
  {
    if n == 0 {
      StepsNowhere(s);
    } else {
      var a: nat := n - 1;
      SweepReachesOnlyTheNewest(s, a, usage, now);
      ExpiryKeepsInv(s, a, usage, now);
    }
  }

  lemma StoppingIsClosable(s: State, a: nat)
    requires Inv(s) && !s.row.status.IsTerminal() && a < |s.attempts| && s.attempts[a].Open()
    ensures Closable(s.(row := Entered(s.row, Stopped)), a)
  {
    var t := s.(row := Entered(s.row, Stopped));
    forall i | 0 <= i < |s.attempts| ensures Spaces(t, i) {
      assert Spaces(s, i);
    }
  }

  lemma EvolvesFromRow(s: State, t: State, u: State)
    requires Books(s) && BestHolds(s) && t == s.(row := t.row) && Books(t) && BestHolds(t)
    requires t.row.best == s.row.best && t.row.metric == s.row.metric && t.row.mode == s.row.mode
    requires Books(u) && BestHolds(u) && Evolves(t, u)
    ensures Evolves(s, u)
  {
  }

  /** Only the newest attempt can be open, so a stop closes at most that one. */
  lemma StopClosesOnlyTheNewest(t: State, a: nat, usage: Usage, now: Time)
    requires Books(t) && |t.attempts| == a + 1
    ensures OpenClosedUpTo(t, a + 1, usage, now)
         == if t.attempts[a].Open() then ClosedUnknown(t, a, usage, None, now) else t
  {
    ClosedPrefixIsUntouched(t, a, usage, now);
  }

  lemma StopWithOpenKeepsInv(s: State, t: State, a: nat, usage: Usage, now: Time)
    requires Inv(s) && !s.row.status.IsTerminal() && a < |s.attempts| && s.attempts[a].Open()
    requires t == s.(row := Entered(s.row, Stopped))
    ensures Steps(s, ClosedUnknown(t, a, usage, None, now))
  {
    StoppingIsClosable(s, a);
    UnknownCloseKeepsInv(t, a, usage, None, now);
    EvolvesFromRow(s, t, ClosedUnknown(t, a, usage, None, now));
  }

  lemma StoppedIdleKeepsInv(s: State)
    requires Inv(s) && !s.row.status.IsTerminal() && forall i :: 0 <= i < |s.attempts| ==> !s.attempts[i].Open()
    ensures Steps(s, s.(row := Entered(s.row, Stopped)))
  {
    IdleRowKeepsInv(s, Entered(s.row, Stopped));
  }

  lemma StoppingNewestKeepsInv(s: State, t: State, a: nat, usage: Usage, now: Time)
    requires Inv(s) && !s.row.status.IsTerminal() && |s.attempts| == a + 1 && t == s.(row := Entered(s.row, Stopped))
    ensures Steps(s, if t.attempts[a].Open() then ClosedUnknown(t, a, usage, None, now) else t)
  {
    if t.attempts[a].Open() {
      StopWithOpenKeepsInv(s, t, a, usage, now);
    } else {
      StoppedIdleKeepsInv(s);
    }
  }

  lemma StoppingKeepsBooks(s: State)
    requires Books(s)
    ensures Books(s.(row := Entered(s.row, Stopped)))
  {
  }

  lemma StoppingKeepsInv(s: State, t: State, n: nat, usage: Usage, now: Time)
    requires Inv(s) && !s.row.status.IsTerminal() && n == |s.attempts| && t == s.(row := Entered(s.row, Stopped))
    ensures Steps(s, OpenClosedUpTo(t, n, usage, now))
  {
    if n == 0 {
      StoppedIdleKeepsInv(s);
    } else {
      var a: nat := n - 1;
      StoppingKeepsBooks(s);
      StopClosesOnlyTheNewest(t, a, usage, now);
      StoppingNewestKeepsInv(s, t, a, usage, now);
    }
  }

  lemma StopKeepsInv(s: State, usage: Usage, now: Time)
    requires Inv(s)
    ensures Steps(s, StoppedBy(s, usage, now))
  {
    if s.row.status.IsTerminal() {
      StepsNowhere(s);
    } else {
      StoppingKeepsInv(s, s.(row := Entered(s.row, Stopped)), |s.attempts|, usage, now);
    }
  }

  lemma JobWriteKeepsInv(s: State, a: nat, later: Attempt)
    requires Inv(s) && a < |s.attempts| && s.attempts[a].Open()
    requires later == s.attempts[a].(evalStatus := later.evalStatus, deadline := later.deadline, digest := later.digest,
                                     recorded := later.recorded, wakeAt := later.wakeAt,
                                     blockReported := later.blockReported, execution := later.execution)
    requires KeepsMarks(s.attempts[a], later)
    requires later.job ==> (later.evalStatus.Pending? || later.evalStatus.Running?) && later.deadline.Some?
    ensures Steps(s, s.(attempts := s.attempts[a := later]))
  {
    assert Sane(s.attempts[a], s.past[a]);
    OpenWriteKeepsInv(s, a, later);
  }

  /** Writes of the agent and of the evaluation's dispatch. */
  lemma AgentStepKeepsInv(s: State, step: Step)
    requires Inv(s)
    requires step.Accepted? || step.RanAgain? || step.Attach? || step.Record? || step.Wake? || step.ReportBlock?
    ensures Steps(s, Next(s, step))
  {
    var t := Next(s, step);
    if t == s {
      StepsNowhere(s);
    } else {
      assert Sane(s.attempts[step.a], s.past[step.a]);
      JobWriteKeepsInv(s, step.a, t.attempts[step.a]);
    }
  }

  /** What a person's action may write: the clock only forward, the status only
      where nothing is open, or to active or paused. */
  ghost predicate PersonalWrite(c: Row, r: Row) {
    && r.tokensUsed == c.tokensUsed && r.cyclesRun == c.cyclesRun && r.best == c.best
    && r.mode == c.mode && r.metric.maximize == c.metric.maximize
    && (c.metric.minDelta >= 0.0 ==> r.metric.minDelta >= 0.0)
    && (c.nextCycleAt.Some? ==> r.nextCycleAt.Some? && r.nextCycleAt.value >= c.nextCycleAt.value)
    && (r.status == c.status || r.status.Active? || (c.status.Active? && r.status.Paused?)
        || (c.status.AwaitingConfirmation? && r.status.Achieved?))
    && (r.failures == 0 || (r.failures == c.failures && !(c.status.Blocked? && !r.status.Blocked?) && !(c.status.Stopped? && !r.status.Stopped?)))
  }

  lemma PeopleWriteOnlyThat(c: Row, now: Time)
    ensures PersonalWrite(c, GoalPaused(c)) && PersonalWrite(c, GoalResumed(c)) && PersonalWrite(c, ResultConfirmed(c))
    ensures PersonalWrite(c, ResultRejected(c, now))
  {
  }

  lemma ExtensionWritesOnlyThat(c: Row, deadline: Option<Time>, cap: Option<int>, roomOpen: bool, now: Time)
    ensures PersonalWrite(c, GoalExtended(c, deadline, cap, roomOpen, now))
  {
  }

  lemma EditWritesOnlyThat(c: Row, criteria: Criteria, now: Time)
    ensures PersonalWrite(c, GoalEdited(c, criteria, now))
  {
  }

  lemma PersonalWriteKeepsInv(s: State, row: Row)
    requires Inv(s) && PersonalWrite(s.row, row)
    ensures Steps(s, s.(row := row))
  {
    RowWriteKeepsInv(s, row);
  }

  lemma ActionsWriteOnlyThat(c: Row, action: Action)
    ensures PersonalWrite(c, ActedOn(c, action))
  {
    match action
    case RejectGoal(now) => PeopleWriteOnlyThat(c, now);
    case ExtendGoal(deadline, cap, room, now) => ExtensionWritesOnlyThat(c, deadline, cap, room, now);
    case EditGoal(criteria, now) => EditWritesOnlyThat(c, criteria, now);
    case _ => PeopleWriteOnlyThat(c, 0);
  }

  lemma TrustKeepsInv(s: State, a: nat, score: real)
    requires Inv(s)
    ensures Steps(s, TrustedRecorded(s, a, score))
  {
    var t := TrustedRecorded(s, a, score);
    if t == s {
      StepsNowhere(s);
    } else {
      assert Sane(s.attempts[a], s.past[a]);
      OpenWriteKeepsInv(s, a, t.attempts[a]);
      var u := s.(attempts := t.attempts);
      RowWriteKeepsInv(u, t.row);
      StepsChain(s, u, t);
    }
  }

  lemma SettlingKeepsInv(s: State, execution: nat, usage: Usage)
    requires Inv(s)
    ensures Steps(s, UsageSettled(s, execution, usage))
  {
    if RunBy(s.attempts, execution).Some? {
      CountingKeepsInv(s, RunBy(s.attempts, execution).value, usage);
    } else {
      StepsNowhere(s);
    }
  }

  lemma TaskEndKeepsInv(s: State, a: nat, usage: Usage, finished: Option<Time>, now: Time)
    requires Inv(s)
    ensures Steps(s, TaskClosed(s, a, usage, finished, now))
  {
    if a < |s.attempts| && s.attempts[a].Open() && !s.attempts[a].job {
      UnknownCloseKeepsInv(s, a, usage, finished, now);
    } else {
      StepsNowhere(s);
    }
  }

  lemma ActionKeepsInv(s: State, action: Action)
    requires Inv(s)
    ensures Steps(s, s.(row := ActedOn(s.row, action)))
  {
    ActionsWriteOnlyThat(s.row, action);
    PersonalWriteKeepsInv(s, ActedOn(s.row, action));
  }

  predicate IsHook(step: Step) {
    step.Tick? || step.Ended? || step.Settled? || step.Reported? || step.Expire? || step.TaskOver? || step.StopGoal?
  }

  lemma HookKeepsInv(s: State, step: Step)
    requires Inv(s) && IsHook(step)
    ensures Steps(s, Next(s, step))
  {
    match step
    case Tick(room, agent, now) => TickKeepsInv(s, room, agent, now);
    case Ended(x, completed, usage, finished, now) => ExecutionEndKeepsInv(s, x, completed, usage, finished, now);
    case Settled(x, usage) => SettlingKeepsInv(s, x, usage);
    case Reported(a, report, pins, usage, now) => ReportKeepsInv(s, a, report, pins, usage, now);
    case Expire(usage, now) => ExpirySweepKeepsInv(s, |s.attempts|, usage, now);
    case TaskOver(a, usage, finished, now) => TaskEndKeepsInv(s, a, usage, finished, now);
    case StopGoal(usage, now) => StopKeepsInv(s, usage, now);
    case _ =>
  }

  lemma StepKeepsInv(s: State, step: Step)
    requires Inv(s)
    ensures Steps(s, Next(s, step))
  {
    if IsHook(step) {
      HookKeepsInv(s, step);
    } else {
      match step
      case Trust(a, score) => TrustKeepsInv(s, a, score);
      case Person(action) => ActionKeepsInv(s, action);
      case _ => AgentStepKeepsInv(s, step);
    }
  }
}

/** One campaign in the database: its row, its attempts' rows, and the hooks that
    update them. Each public method is one serialised transaction; its contract names
    the state it leaves. */
module Campaigns {
  import opened Wrappers
  import opened CampaignRules
  import opened CampaignSpec
  import opened CampaignSafety
  import opened CampaignRuns

  /** What became of a machine's report. */
  datatype Said = WasJudged | WasRecorded | Late | UnknownJob | WrongMachine

  /** A request sent to a machine, as read before the send: the job was pending or
      running then. */
  datatype Request = Request(a: nat, status: EvalStatus, sent: Evaluator)

  /** A machine's answer: refused, started a run, or already running one. */
  datatype Ack = Refused | Started | AlreadyRunning

  /** The plan of a close, column by column. */
  lemma PlanIs(c: Row, a: nat, att: Attempt, verdict: Option<Verdict>, delta: int, found: Option<nat>,
               trigger: Option<Trigger>, strategy: bool, retro: bool, r: Row)
    requires att.closedAt.Some? && !c.status.IsTerminal()
    requires var j := Judged(c, verdict, c.tokensUsed + delta);
      && trigger == Asked(att, j) && strategy == (j.strategy && !Overruled(att, j))
      && r.failures == j.failures && r.sinceImprovement == j.since
    requires retro == (c.retroDue || (att.kind.Cycle? && c.cyclesRun > 0 && c.cyclesRun % RETRO_EVERY_CYCLES == 0))
    requires r == c.(tokensUsed := c.tokensUsed + delta, pins := if c.pins.None? then found else c.pins,
                     nextCycleAt := Some(NextCycleAt(att.closedAt.value, att.wakeAt)), retroDue := retro,
                     failures := r.failures, sinceImprovement := r.sinceImprovement,
                     changeStrategy := c.changeStrategy || strategy,
                     best := if verdict.Some? && verdict.value.outcome.Improved? then Some(a) else c.best)
    ensures AfterClose(c, a, att, verdict, delta, found)
         == if trigger.Some? && Transition(c.status, trigger.value).Some?
            then Entered(r, Transition(c.status, trigger.value).value) else r
  {
  }

  lemma ClosedThenMeasured(att: Attempt, outcome: Option<Outcome>, status: EvalStatus, score: Option<real>,
                           valid: Option<bool>, usage: Usage, finished: Option<Time>, now: Time)
    ensures var closed := ClosedAttempt(att, outcome, status, score, valid, finished, now);
      && TokenDelta(closed, usage) == TokenDelta(att, usage) && Measured(closed, usage) == Measured(att, usage)
      && closed.(tokens := closed.tokens + TokenDelta(att, usage))
         == ClosedAttempt(att.(tokens := att.tokens + TokenDelta(att, usage)), outcome, status, score, valid, finished, now)
  {
  }

  /** Closing an attempt and reading its usage commute. */
  lemma CloseThenSync(s: State, t: State, a: nat, outcome: Option<Outcome>, status: EvalStatus, score: Option<real>,
                      valid: Option<bool>, verdict: Option<Verdict>, found: Option<nat>, usage: Usage,
                      finished: Option<Time>, now: Time)
    requires Indexed(s) && a < |s.attempts|
    requires t.row == s.row
    requires t.attempts == s.attempts[a := ClosedAttempt(s.attempts[a], outcome, status, score, valid, finished, now)]
    requires t.past == s.past[a := s.past[a].(closedInLoop := !s.row.status.IsTerminal(), bar := BarInForce(s, t.attempts[a], verdict))]
    ensures TokenDelta(t.attempts[a], usage) == TokenDelta(s.attempts[a], usage)
    ensures var u, w := TokensSynced(t, a, usage), ClosedWith(s, a, outcome, status, score, valid, verdict, found, usage, finished, now);
      u.attempts == w.attempts && u.past == w.past
  {
    ClosedThenMeasured(s.attempts[a], outcome, status, score, valid, usage, finished, now);
  }

  /** The row that completes a close whose attempt is written. */
  lemma ClosedRow(s: State, a: nat, outcome: Option<Outcome>, status: EvalStatus, score: Option<real>,
                  valid: Option<bool>, verdict: Option<Verdict>, found: Option<nat>, usage: Usage,
                  finished: Option<Time>, now: Time)
    requires Indexed(s) && a < |s.attempts|
    ensures var w := ClosedWith(s, a, outcome, status, score, valid, verdict, found, usage, finished, now);
      && w.attempts[a].closedAt.Some?
      && w.row == AfterClose(s.row, a, w.attempts[a], if s.row.status.IsTerminal() then None else verdict,
                             TokenDelta(s.attempts[a], usage), found)
  {
  }

  class Campaign {
    var row: Row
    var attempts: seq<Attempt>
    ghost var past: seq<Past>

    ghost function Value(): State
      reads this
    {
      State(row, attempts, past)
    }

    ghost predicate Valid()
      reads this
    {
      Inv(Value())
    }

    constructor (mode: Mode, metric: Metric, budget: Budget, deadline: Option<Time>, evaluator: Evaluator, now: Time)
      requires ValidSpec(mode, metric, budget, deadline, evaluator, now)
      ensures Valid() && Value() == Created(mode, metric, budget, deadline, evaluator, now)
      ensures attempts == [] && past == [] && row.status.Active? && row.nextCycleAt == Some(now)
      ensures row.mode == mode && row.metric == metric && row.budget == budget && row.deadline == deadline && row.evaluator == evaluator
      ensures row.tokensUsed == row.cyclesRun == row.failures == row.sinceImprovement == 0 && !row.retroDue && row.best.None?
    {
      row := Row(Active, mode, metric, budget, deadline, evaluator, None, 0, 0, None, Some(now), false, false, 0, 0);
      attempts, past := [], [];
      new;
      CreatedIsGood(mode, metric, budget, deadline, evaluator, now);
    }

    // ── Writes shared by the hooks ──────────────────────────────────

    /** The transition's status with *values* in one write; false and nothing
        written where the table has no such move. */
    method ApplyTransition(t: Trigger, values: Row) returns (changed: bool)
      requires values.status == row.status
      modifies `row
      ensures changed == Transition(old(row).status, t).Some?
      ensures row == if changed then Entered(values, Transition(old(row).status, t).value) else old(row)
    {
      var next := Transition(row.status, t);
      changed := next.Some?;
      if changed {
        var due := values.retroDue || (next.value.RunsRetrospective() && next.value != row.status);
        row := values.(status := next.value, retroDue := due);
      }
    }

    method SyncTokens(a: nat, usage: Usage) returns (delta: int)
      requires Indexed(Value()) && a < |attempts|
      modifies `attempts, `past
      ensures delta == TokenDelta(old(attempts[a]), usage) && delta >= 0
      ensures Value() == TokensSynced(old(Value()), a, usage)
    {
      var att := attempts[a];
      if att.execution.None? {
        return 0;
      }
      var total := if att.execution.value in usage then usage[att.execution.value] else 0;
      past := past[a := past[a].(totals := past[a].totals + [total])];
      if total <= att.tokens {
        assert att.(tokens := att.tokens + TokenDelta(att, usage)) == att && attempts[a := att] == attempts;
        return 0;
      }
      attempts := attempts[a := att.(tokens := total)];
      delta := total - att.tokens;
    }

    method AddTokens(delta: int)
      requires delta >= 0
      modifies `row
      ensures row == old(row).(tokensUsed := old(row).tokensUsed + delta)
    {
      if delta > 0 {
        row := row.(tokensUsed := row.tokensUsed + delta);
      }
    }

    /** Closes the attempt once; false when it was already closed. */
    method Close(a: nat, outcome: Option<Outcome>, evalStatus: EvalStatus, score: Option<real>, valid: Option<bool>,
                 ghost verdict: Option<Verdict>, finished: Option<Time>, now: Time) returns (closed: bool)
      requires Indexed(Value()) && a < |attempts|
      modifies `attempts, `past
      ensures closed == old(attempts[a]).Open()
      ensures !closed ==> attempts == old(attempts) && past == old(past)
      ensures closed ==>
        && attempts == old(attempts)[a := ClosedAttempt(old(attempts[a]), outcome, evalStatus, score, valid, finished, now)]
        && past == old(past)[a := old(past[a]).(closedInLoop := !row.status.IsTerminal(),
                                                bar := BarInForce(old(Value()), attempts[a], verdict))]
    {
      var att := attempts[a];
      closed := att.Open();
      if closed {
        var closedAt := if finished.Some? then finished.value else now;
        if closedAt < att.openedAt {
          closedAt := att.openedAt;
        }
        att := att.(closedAt := Some(closedAt), outcome := outcome, evalStatus := evalStatus, score := score, valid := valid);
        past := past[a := past[a].(closedInLoop := !row.status.IsTerminal(), bar := BarInForce(Value(), att, verdict))];
        attempts := attempts[a := att];
      }
    }

    /** The counters and the event of one verdict. */
    method Score(v: Verdict, used: int) returns (failures: nat, since: nat, trigger: Option<Trigger>, strategy: bool)
      ensures Judgement(failures, since, strategy, trigger) == Judge(row, v, used)
    {
      trigger, strategy, failures, since := None, false, row.failures, row.sinceImprovement;
      if v.outcome.EvalFailed? {
        failures := failures + 1;
      } else if !v.outcome.PinMismatch? {
        failures := 0;
      }
      if v.outcome.Judged() || v.outcome.NoRecord? {
        since := if v.outcome.Improved? then 0 else since + 1;
      }
      if v.outcome.PinMismatch? || failures >= EVAL_FAILURE_BLOCK_THRESHOLD {
        trigger := Some(Block);
      } else if row.mode.TargetMode? && v.valid == Some(true) && !v.outcome.NoRecord? && ReachesTarget(v.score, row.metric) {
        trigger := Some(TargetReached);
      } else if CyclesSpent(row.budget, used) {
        trigger := Some(BudgetSpent);
      } else if since >= PLATEAU_WINDOW && row.mode.TargetMode? {
        trigger := Some(NoProgress);
      } else if since >= PLATEAU_WINDOW {
        since, strategy := 0, true;
      }
    }

    /** The counters after a close, and the event it asks for. */
    method Ask(att: Attempt, verdict: Option<Verdict>, used: int)
      returns (failures: nat, since: nat, trigger: Option<Trigger>, strategy: bool)
      ensures var j := Judged(row, verdict, used);
        && trigger == Asked(att, j) && strategy == (j.strategy && !Overruled(att, j))
        && failures == j.failures && since == j.since
    {
      failures, since, trigger, strategy := row.failures, row.sinceImprovement, None, false;
      if verdict.Some? {
        failures, since, trigger, strategy := Score(verdict.value, used);
      } else if CyclesSpent(row.budget, used) {
        trigger := Some(BudgetSpent);
      }
      if att.blockReported && (trigger.None? || trigger == Some(NoProgress)) {
        trigger, strategy := Some(Block), false;
      }
    }

    /** What a close writes whatever it asks for. */
    method Dated(a: nat, att: Attempt, verdict: Option<Verdict>, delta: int, found: Option<nat>) returns (values: Row)
      requires att.closedAt.Some?
      ensures values == row.(
        tokensUsed := row.tokensUsed + delta, pins := if row.pins.None? then found else row.pins,
        nextCycleAt := Some(NextCycleAt(att.closedAt.value, att.wakeAt)),
        retroDue := row.retroDue || (att.kind.Cycle? && row.cyclesRun > 0 && row.cyclesRun % RETRO_EVERY_CYCLES == 0),
        best := if verdict.Some? && verdict.value.outcome.Improved? then Some(a) else row.best)
    {
      values := row.(tokensUsed := row.tokensUsed + delta, nextCycleAt := Some(NextCycleAt(att.closedAt.value, att.wakeAt)));
      if row.pins.None? {
        values := values.(pins := found);
      }
      if att.kind.Cycle? && !row.retroDue && row.cyclesRun > 0 && row.cyclesRun % RETRO_EVERY_CYCLES == 0 {
        values := values.(retroDue := true);
      }
      if verdict.Some? && verdict.value.outcome.Improved? {
        values := values.(best := Some(a));
      }
    }

    /** Folds a closed attempt into the campaign's row. */
    method FoldIn(a: nat, verdict: Option<Verdict>, delta: int, found: Option<nat>)
      requires a < |attempts| && attempts[a].closedAt.Some?
      modifies `row
      ensures row == AfterClose(old(row), a, attempts[a], verdict, delta, found)
    {
      if row.status.IsTerminal() {
        row := row.(tokensUsed := row.tokensUsed + delta, pins := if row.pins.None? then found else row.pins);
      } else {
        var att := attempts[a];
        var values := Dated(a, att, verdict, delta, found);
        var failures, since, trigger, strategy := Ask(att, verdict, row.tokensUsed + delta);
        values := values.(failures := failures, sinceImprovement := since, changeStrategy := row.changeStrategy || strategy);
        PlanIs(row, a, att, verdict, delta, found, trigger, strategy, values.retroDue, values);
        Write(values, trigger);
      }
    }

    /** One write of *values*, with the transition when it is legal. */
    method Write(values: Row, trigger: Option<Trigger>)
      requires values.status == row.status
      modifies `row
      ensures row == if trigger.Some? && Transition(old(row).status, trigger.value).Some?
                     then Entered(values, Transition(old(row).status, trigger.value).value) else values
    {
      var legal := trigger.Some? && Transition(row.status, trigger.value).Some?;
      if legal {
        var _ := ApplyTransition(trigger.value, values);
      } else {
        row := values;
      }
    }

    /** Closes an open attempt without a verdict. */
    method CloseUnjudged(a: nat, outcome: Option<Outcome>, usage: Usage, finished: Option<Time>, now: Time)
      requires Indexed(Value()) && a < |attempts| && attempts[a].Open()
      modifies this
      ensures Value() == Closed(old(Value()), a, outcome, Skipped, None, None, usage, finished, now)
    {
      var att := attempts[a];
      var delta := SyncTokens(a, usage);
      var _ := Close(a, outcome, Skipped, att.score, att.valid, None, finished, now);
      FoldIn(a, None, delta, None);
    }

    // ── Hooks ───────────────────────────────────────────────────────

    method RequestEval(a: nat, now: Time)
      requires Indexed(Value()) && a < |attempts|
      modifies `attempts, `past
      ensures Value() == EvalRequested(old(Value()), a, now)
    {
      var wait := row.evaluator.timeout + EVAL_GRACE_SECONDS + EVAL_PENDING_WINDOW_SECONDS;
      attempts := attempts[a := attempts[a].(evalStatus := Pending, job := true, deadline := Some(now + wait))];
      past := past[a := past[a].(requestedAt := Some(now))];
    }

    method Count(a: nat, usage: Usage)
      requires Indexed(Value()) && a < |attempts|
      modifies this
      ensures Value() == Counting(old(Value()), a, usage)
    {
      var delta := SyncTokens(a, usage);
      AddTokens(delta);
    }

    method OnUsageSettled(execution: nat, usage: Usage)
      requires Indexed(Value())
      modifies this
      ensures Value() == UsageSettled(old(Value()), execution, usage)
    {
      var found := RunBy(attempts, execution);
      if found.Some? {
        Count(found.value, usage);
      }
    }

    method OnExecutionTerminal(execution: nat, completed: bool, usage: Usage, finished: Option<Time>, now: Time)
      requires Indexed(Value())
      modifies this
      ensures Value() == ExecutionEnded(old(Value()), execution, completed, usage, finished, now)
    {
      var found := RunBy(attempts, execution);
      if found.None? {
        return;
      }
      var a := found.value;
      var att := attempts[a];
      if !att.Open() || att.job {
        Count(a, usage);
      } else if att.kind.Retrospective? {
        CloseUnjudged(a, if completed then None else Some(Unclear), usage, finished, now);
      } else if completed && !row.status.IsTerminal() {
        Count(a, usage);
        RequestEval(a, now);
      } else {
        CloseUnjudged(a, Some(Unclear), usage, finished, now);
      }
    }

    /** The verdict on attempt *a*, folded in only while the campaign runs. */
    method Conclude(a: nat, verdict: Verdict, score: Option<real>, valid: Option<bool>, found: Option<nat>,
                    usage: Usage, now: Time)
      requires Indexed(Value()) && a < |attempts| && attempts[a].Open()
      modifies this
      ensures Value() == ClosedWith(old(Value()), a, Some(verdict.outcome), verdict.status, score, valid,
                                    Some(verdict), found, usage, Some(now), now)
    {
      ghost var s := Value();
      var _ := Close(a, Some(verdict.outcome), verdict.status, score, valid, Some(verdict), Some(now), now);
      CloseThenSync(s, Value(), a, Some(verdict.outcome), verdict.status, score, valid, Some(verdict), found, usage, Some(now), now);
      ClosedRow(s, a, Some(verdict.outcome), verdict.status, score, valid, Some(verdict), found, usage, Some(now), now);
      var delta := SyncTokens(a, usage);
      FoldIn(a, if row.status.IsTerminal() then None else Some(verdict), delta, found);
    }

    /** A scored run without the agent's record keeps its score and does not count. */
    method VerdictOn(att: Attempt, report: Report) returns (verdict: Verdict)
      requires Indexed(Value())
      ensures verdict == Counted(Classify(row.metric, report, BestScore(Value())), att.recorded)
    {
      var best := if row.best.Some? then attempts[row.best.value].score else None;
      verdict := Classify(row.metric, report, best);
      if !att.recorded && verdict.outcome.Judged() {
        verdict := verdict.(outcome := NoRecord);
      }
    }

    method OnEvalResult(job: nat, placed: bool, report: Report, found: Option<nat>, usage: Usage, now: Time)
      returns (said: Said)
      requires Indexed(Value())
      modifies this
      ensures said.UnknownJob? <==> !(job < |old(attempts)| && old(attempts)[job].job)
      ensures said.WrongMachine? <==> !said.UnknownJob? && !placed
      ensures said.Late? <==> !said.UnknownJob? && placed && !old(attempts)[job].Evaluating()
      ensures said.WasRecorded? ==> old(row).status.IsTerminal()
      ensures said.WasJudged? ==> !old(row).status.IsTerminal()
      ensures Value() == if said.WasJudged? || said.WasRecorded? then EvalReported(old(Value()), job, report, found, usage, now)
                         else old(Value())
    {
      if job >= |attempts| || !attempts[job].job {
        return UnknownJob;
      }
      if !placed {
        return WrongMachine;
      }
      var att := attempts[job];
      if !att.Open() || !(att.evalStatus.Pending? || att.evalStatus.Running?) {
        return Late;
      }
      var verdict := VerdictOn(att, report);
      var sameEvaluator := att.digest == Some(row.evaluator.digest);
      var ended := row.status.IsTerminal();
      Conclude(job, verdict, verdict.score, verdict.valid, if !report.status.ReportInvalid? && sameEvaluator then found else None,
               usage, now);
      return if ended then WasRecorded else WasJudged;
    }

    method ExpireOne(a: nat, usage: Usage, now: Time) returns (hit: bool)
      requires Indexed(Value()) && a < |attempts|
      modifies this
      ensures hit == Expired(old(attempts[a]), now) && Value() == ExpiredAt(old(Value()), a, usage, now)
      ensures Indexed(Value()) && |attempts| == |old(attempts)|
      ensures forall i :: 0 <= i < |attempts| && i != a ==> attempts[i] == old(attempts)[i]
    {
      hit := Expired(attempts[a], now);
      if hit {
        Conclude(a, TIMED_OUT, attempts[a].score, attempts[a].valid, None, usage, now);
      }
    }

    method ExpireEvalDeadlines(usage: Usage, now: Time) returns (expired: seq<nat>)
      requires Indexed(Value())
      modifies this
      ensures Value() == ExpiredUpTo(old(Value()), |old(attempts)|, usage, now)
      ensures forall i: nat :: i in expired <==> i < |old(attempts)| && Expired(old(attempts)[i], now)
    {
      expired := [];
      ghost var s := Value();
      for a := 0 to |attempts|
        invariant Indexed(Value()) && Value() == ExpiredUpTo(s, a, usage, now)
        invariant |attempts| == |s.attempts| && forall i :: a <= i < |attempts| ==> attempts[i] == s.attempts[i]
        invariant forall i: nat :: i in expired <==> i < a && Expired(s.attempts[i], now)
      {
        var hit := ExpireOne(a, usage, now);
        if hit {
          expired := expired + [a];
        }
      }
    }

    method OnCycleTaskClosed(a: nat, usage: Usage, finished: Option<Time>, now: Time) returns (closed: bool)
      requires Indexed(Value())
      modifies this
      ensures Value() == TaskClosed(old(Value()), a, usage, finished, now)
      ensures closed <==> a < |old(attempts)| && old(attempts)[a].Open() && !old(attempts)[a].job
    {
      closed := a < |attempts| && attempts[a].Open() && !attempts[a].job;
      if closed {
        CloseUnjudged(a, Some(Unclear), usage, finished, now);
      }
    }

    method CloseIfOpen(a: nat, usage: Usage, now: Time)
      requires Indexed(Value()) && a < |attempts|
      modifies this
      ensures Value() == if old(attempts[a]).Open() then ClosedUnknown(old(Value()), a, usage, None, now) else old(Value())
      ensures Indexed(Value()) && |attempts| == |old(attempts)|
    {
      if attempts[a].Open() {
        CloseUnjudged(a, Some(Unclear), usage, None, now);
      }
    }

    method CloseOpenAttempts(usage: Usage, now: Time)
      requires Indexed(Value())
      modifies this
      ensures Value() == OpenClosedUpTo(old(Value()), |old(attempts)|, usage, now)
    {
      ghost var s := Value();
      for a := 0 to |attempts|
        invariant Indexed(Value()) && |attempts| == |s.attempts| && Value() == OpenClosedUpTo(s, a, usage, now)
      {
        CloseIfOpen(a, usage, now);
      }
    }

    method Stop(usage: Usage, now: Time) returns (stopped: bool)
      requires Indexed(Value())
      modifies this
      ensures Value() == StoppedBy(old(Value()), usage, now)
      ensures stopped <==> !old(row).status.IsTerminal()
    {
      stopped := ApplyTransition(Trigger.Stop, row);
      if stopped {
        CloseOpenAttempts(usage, now);
      }
    }

    // ── The scheduler ───────────────────────────────────────────────

    method Open(kind: Kind, now: Time)
      modifies this
      ensures Value() == Opened(old(Value()), kind, now)
    {
      if kind.Cycle? {
        row := row.(cyclesRun := row.cyclesRun + 1, changeStrategy := false);
      } else {
        row := row.(retroDue := false);
      }
      attempts := attempts + [NewAttempt(kind, now)];
      past := past + [NO_PAST];
    }

    /** One tick: at most one status change or one opened attempt. */
    method Advance(roomOpen: bool, agentPresent: bool, now: Time)
      modifies this
      ensures Value() == Ticked(old(Value()), roomOpen, agentPresent, now)
    {
      var running := row.status.Active?;
      var retroDue := row.retroDue && (running || row.status.RunsRetrospective());
      if (!running && !retroDue) || AnyOpen(attempts) {
        return;
      }
      var waiting := row.nextCycleAt.Some? && row.nextCycleAt.value > now;
      if !running {
        if !(roomOpen && agentPresent) {
          row := row.(retroDue := false);
        } else if !waiting {
          Open(Retrospective, now);
        }
        return;
      }
      if !roomOpen {
        var _ := ApplyTransition(Trigger.Stop, row);
      } else if row.deadline.Some? && row.deadline.value <= now {
        var _ := ApplyTransition(DeadlinePassed, row);
      } else if CyclesSpent(row.budget, row.tokensUsed) {
        var _ := ApplyTransition(BudgetSpent, row);
      } else if row.nextCycleAt.None? || waiting {
      } else if !agentPresent {
        var _ := ApplyTransition(Block, row);
      } else if retroDue {
        Open(Retrospective, now);
      } else {
        Open(Cycle, now);
      }
    }

    // ── Dispatch: a request is read, sent, and answered later ───────

    /** The machine's answer, applied to whatever the attempt has become since. The job
        was there when the request was read, and is still (AnswersFindTheirJob). */
    method Answer(request: Request, ack: Ack, now: Time)
      requires request.a < |attempts| && attempts[request.a].job
      modifies `attempts
      ensures Value() ==
        if ack.Refused? then old(Value())
        else if request.status.Running? then
          (if ack.Started? then JobRunAgain(old(Value()), request.a, request.sent) else old(Value()))
        else JobAccepted(old(Value()), request.a, request.sent, now)
    {
      var att := attempts[request.a];
      if ack.Refused? || !att.Open() {
        return;
      }
      if request.status.Running? {
        if ack.Started? {
          attempts := attempts[request.a := att.(digest := Some(request.sent.digest))];
        }
      } else if att.evalStatus.Pending? {
        attempts := attempts[request.a := att.(evalStatus := Running, digest := Some(request.sent.digest),
                                               deadline := Some(now + request.sent.timeout + EVAL_GRACE_SECONDS))];
      }
    }

    // ── The agent, in its open cycle ────────────────────────────────

    method AttachExecution(a: nat, execution: nat)
      modifies `attempts
      ensures Value() == ExecutionAttached(old(Value()), a, execution)
    {
      if a < |attempts| && attempts[a].Open() && attempts[a].execution.None? {
        attempts := attempts[a := attempts[a].(execution := Some(execution))];
      }
    }

    /** Once per cycle, before its evaluation. */
    method RecordAttempt(a: nat) returns (recorded: bool)
      modifies `attempts
      ensures Value() == AttemptRecorded(old(Value()), a)
      ensures recorded <==> a < |attempts| && attempts[a].Open() && attempts[a].kind.Cycle? && !attempts[a].job
                            && !old(attempts)[a].recorded
    {
      recorded := a < |attempts| && attempts[a].Open() && attempts[a].kind.Cycle? && !attempts[a].recorded && !attempts[a].job;
      if recorded {
        attempts := attempts[a := attempts[a].(recorded := true)];
      }
    }

    method ScheduleWakeup(a: nat, at: Time, now: Time) returns (scheduled: bool)
      modifies `attempts
      ensures Value() == WakeupScheduled(old(Value()), a, at, now)
      ensures scheduled ==> a < |attempts| && attempts[a].wakeAt == Some(at)
                            && (row.deadline.Some? ==> at < row.deadline.value)
    {
      scheduled := MIN_WAKEUP_SECONDS <= at - now <= MAX_WAKEUP_SECONDS && (row.deadline.Some? ==> at < row.deadline.value)
                   && a < |attempts| && attempts[a].Open();
      if scheduled {
        attempts := attempts[a := attempts[a].(wakeAt := Some(at))];
      }
    }

    method ReportBlocked(a: nat) returns (reported: bool)
      modifies `attempts
      ensures Value() == BlockReported(old(Value()), a)
      ensures reported <==> a < |attempts| && attempts[a].Open()
    {
      reported := a < |attempts| && attempts[a].Open();
      if reported {
        attempts := attempts[a := attempts[a].(blockReported := true)];
      }
    }

    // ── People ──────────────────────────────────────────────────────

    method Pause() returns (done: bool)
      modifies `row
      ensures row == GoalPaused(old(row)) && done == Transition(old(row).status, Trigger.Pause).Some?
    {
      done := ApplyTransition(Trigger.Pause, row);
    }

    method Resume() returns (done: bool)
      modifies `row
      ensures row == GoalResumed(old(row)) && done == Transition(old(row).status, Trigger.Resume).Some?
    {
      var values := row;
      if row.status.Blocked? {
        values := values.(failures := 0);
      }
      if row.status.Plateau? {
        values := values.(sinceImprovement := 0);
      }
      done := ApplyTransition(Trigger.Resume, values);
    }

    method Confirm() returns (done: bool)
      modifies `row
      ensures row == ResultConfirmed(old(row)) && done == old(row).status.AwaitingConfirmation?
    {
      done := ApplyTransition(Trigger.Confirm, row);
    }

    method Reject(now: Time) returns (done: bool)
      modifies `row
      ensures row == ResultRejected(old(row), now) && done == old(row).status.AwaitingConfirmation?
    {
      var values := row;
      if row.nextCycleAt.None? || row.nextCycleAt.value < now {
        values := values.(nextCycleAt := Some(now));
      }
      done := ApplyTransition(RejectResult, values);
    }

    method RecordTrustedScore(a: nat, score: real) returns (achieved: bool)
      modifies `row, `attempts
      ensures Value() == TrustedRecorded(old(Value()), a, score)
      ensures achieved ==> row.status.Achieved? && old(row).status != Blocked && !old(row).status.IsTerminal()
    {
      if a >= |attempts| || attempts[a].kind.Retrospective? || attempts[a].Open() {
        return false;
      }
      attempts := attempts[a := attempts[a].(trusted := Some(score))];
      if row.mode.TargetMode? && attempts[a].valid != Some(false) && ReachesTarget(Some(score), row.metric) {
        achieved := ApplyTransition(TrustedTargetReached, row);
      } else {
        achieved := false;
      }
    }

    method Extend(deadline: Option<Time>, cap: Option<int>, roomOpen: bool, now: Time) returns (done: bool)
      modifies `row
      ensures row == GoalExtended(old(row), deadline, cap, roomOpen, now)
      ensures !done ==> row == old(row)
    {
      done := false;
      if Transition(row.status, Trigger.Extend).None? || !roomOpen || (deadline.None? && cap.None?) {
        return;
      }
      var values := row;
      if deadline.Some? {
        if deadline.value <= now || (row.deadline.Some? && deadline.value <= row.deadline.value) {
          return;
        }
        values := values.(deadline := deadline);
      }
      if cap.Some? {
        if row.budget.cap.None? || cap.value <= row.budget.cap.value {
          return;
        }
        values := values.(budget := values.budget.(cap := cap));
      }
      if row.status.IsTerminal() {
        if (values.deadline.Some? && values.deadline.value <= now) || CyclesSpent(values.budget, row.tokensUsed) {
          return;
        }
        values := values.(retroDue := false, nextCycleAt := NotBefore(row.nextCycleAt, now));
      }
      done := ApplyTransition(Trigger.Extend, values);
    }

    method Edit(e: Criteria, now: Time) returns (done: bool)
      modifies `row
      ensures row == GoalEdited(old(row), e, now)
      ensures !done ==> row == old(row)
    {
      done := false;
      var reopen := row.status.BudgetExhausted? && row.budget.cap.Some? && e.budget.cap.None?;
      if !reopen && Transition(row.status, Trigger.Edit).None? {
        return;
      }
      var deadline, checked := row.deadline, now;
      if e.deadlineChanged {
        deadline := e.deadline;
      } else if deadline.Some? && deadline.value <= now {
        checked := deadline.value - 1;
      }
      var values := row.(metric := row.metric.(target := e.target, minDelta := e.minDelta), budget := e.budget,
                         deadline := deadline, evaluator := e.evaluator);
      if !ValidSpec(row.mode, values.metric, values.budget, deadline, e.evaluator, checked) {
        return;
      }
      if e.evaluator != row.evaluator {
        values := values.(pins := None);
      }
      if !reopen {
        row, done := values, true;
      } else if !(deadline.Some? && deadline.value <= now) {
        values := values.(retroDue := false, nextCycleAt := NotBefore(row.nextCycleAt, now));
        done := ApplyTransition(Trigger.Extend, values);
      }
    }

    method Act(action: Action)
      modifies `row
      ensures row == ActedOn(old(row), action)
    {
      match action
      case PauseGoal => var _ := Pause();
      case ResumeGoal => var _ := Resume();
      case ConfirmResult => var _ := Confirm();
      case RejectGoal(now) => var _ := Reject(now);
      case ExtendGoal(deadline, cap, roomOpen, now) => var _ := Extend(deadline, cap, roomOpen, now);
      case EditGoal(criteria, now) => var _ := Edit(criteria, now);
    }

    // ── Every step ──────────────────────────────────────────────────

    /** Whatever happens to a valid campaign leaves it valid, in the state its step
        names, with nothing undone. */
    method Perform(step: Step)
      requires Valid()
      modifies this
      ensures Valid() && Value() == Next(old(Value()), step) && Steps(old(Value()), Value())
    {
      StepKeepsInv(Value(), step);
      Dispatch(step);
    }

    method Dispatch(step: Step)
      requires Indexed(Value())
      modifies this
      ensures Value() == Next(old(Value()), step)
    {
      match step
      case Tick(roomOpen, agentPresent, now) => Advance(roomOpen, agentPresent, now);
      case Ended(x, completed, usage, finished, now) => OnExecutionTerminal(x, completed, usage, finished, now);
      case Settled(x, usage) => OnUsageSettled(x, usage);
      case Reported(a, report, found, usage, now) => var _ := OnEvalResult(a, true, report, found, usage, now);
      case Expire(usage, now) => var _ := ExpireEvalDeadlines(usage, now);
      case TaskOver(a, usage, finished, now) => var _ := OnCycleTaskClosed(a, usage, finished, now);
      case StopGoal(usage, now) => var _ := Stop(usage, now);
      case Accepted(a, sent, now) =>
        if a < |attempts| && attempts[a].job { Answer(Request(a, Pending, sent), Started, now); }
      case RanAgain(a, sent) =>
        if a < |attempts| && attempts[a].job { Answer(Request(a, Running, sent), Started, 0); }
      case Attach(a, x) => AttachExecution(a, x);
      case Record(a) => var _ := RecordAttempt(a);
      case Wake(a, at, now) => var _ := ScheduleWakeup(a, at, now);
      case ReportBlock(a) => var _ := ReportBlocked(a);
      case Person(action) => Act(action);
      case Trust(a, score) => var _ := RecordTrustedScore(a, score);
    }
  }
}

/** What ticks, stops, people, the agent and the machines do to a campaign, in literal
    statuses and times. */
module CampaignActions {
  import opened Wrappers
  import opened CampaignRules
  import opened CampaignSpec
  import opened CampaignSafety
  import opened CampaignOutcomes

  // ── Ticks ─────────────────────────────────────────────────────────

  /** A new attempt, and the columns its opening writes. */
  ghost predicate Opens(s: State, t: State, kind: Kind, now: Time) {
    && t.attempts == s.attempts + [Attempt(kind, now, None, None, if kind.Cycle? then Pending else Skipped, false, None, None,
                                           None, None, None, false, None, false, None, 0)]
    && t.row == if kind.Cycle? then s.row.(cyclesRun := s.row.cyclesRun + 1, changeStrategy := false)
                else s.row.(retroDue := false)
  }

  ghost predicate Entering(s: State, t: State, next: Status, retro: bool) {
    t == s.(row := s.row.(status := next, retroDue := s.row.retroDue || retro))
  }

  predicate HasEnded(status: Status) {
    status.Achieved? || status.DeadlineReached? || status.BudgetExhausted?
  }

  predicate IsWaiting(c: Row, now: Time) {
    c.nextCycleAt.Some? && c.nextCycleAt.value > now
  }

  /** A tick does nothing while an attempt is open, nor for a campaign that is neither
      active nor owes a retrospective. */
  lemma IdleTicks(s: State, roomOpen: bool, agentPresent: bool, now: Time)
    requires Indexed(s)
    ensures (exists i :: 0 <= i < |s.attempts| && s.attempts[i].closedAt.None?) ==> Next(s, Tick(roomOpen, agentPresent, now)) == s
    ensures !s.row.status.Active? && !(s.row.retroDue && HasEnded(s.row.status)) ==> Next(s, Tick(roomOpen, agentPresent, now)) == s
  {
  }

  /** An ended campaign runs the retrospective it owes, or gives it up without a room
      or an agent. */
  lemma EndedTicks(s: State, roomOpen: bool, agentPresent: bool, now: Time)
    requires Indexed(s) && !AnyOpen(s.attempts) && s.row.retroDue && HasEnded(s.row.status)
    ensures var t := Next(s, Tick(roomOpen, agentPresent, now));
      if !roomOpen || !agentPresent then t == s.(row := s.row.(retroDue := false))
      else if IsWaiting(s.row, now) then t == s
      else Opens(s, t, Retrospective, now)
  {
  }

  /** An active campaign without open work: the room, the deadline, the budget, the
      clock, the agent, the retrospective, and then the next cycle, in that order. */
  lemma ActiveTicks(s: State, roomOpen: bool, agentPresent: bool, now: Time)
    requires Indexed(s) && !AnyOpen(s.attempts) && s.row.status.Active?
    ensures var c, t := s.row, Next(s, Tick(roomOpen, agentPresent, now));
      if !roomOpen then Entering(s, t, Stopped, false)
      else if c.deadline.Some? && c.deadline.value <= now then Entering(s, t, DeadlineReached, true)
      else if Spent(c.budget, c.tokensUsed) then Entering(s, t, BudgetExhausted, true)
      else if c.nextCycleAt.None? || IsWaiting(c, now) then t == s
      else if !agentPresent then Entering(s, t, Blocked, false)
      else if c.retroDue then Opens(s, t, Retrospective, now)
      else Opens(s, t, Cycle, now)
  {
  }

  // ── Stops ─────────────────────────────────────────────────────────

  lemma StopsOfEnded(s: State, usage: Usage, now: Time)
    requires Indexed(s) && (s.row.status.Stopped? || HasEnded(s.row.status))
    ensures Next(s, StopGoal(usage, now)) == s
  {
  }

  /** The row a stop has written by the time it closes the open work. */
  lemma StoppedRow(s: State, u: State)
    requires Inv(s) && !s.row.status.Stopped? && !HasEnded(s.row.status)
    requires u == s.(row := Entered(s.row, Stopped))
    ensures u == s.(row := s.row.(status := Stopped)) && Books(u)
  {
  }

  lemma StopIsOneClose(s: State, u: State, a: nat, usage: Usage, now: Time)
    requires Inv(s) && !s.row.status.Stopped? && !HasEnded(s.row.status) && |s.attempts| == a + 1
    requires u == s.(row := s.row.(status := Stopped))
    ensures Next(s, StopGoal(usage, now)) == if s.attempts[a].Open() then ClosedUnknown(u, a, usage, None, now) else u
  {
    StoppedRow(s, u);
    StopClosesOnlyTheNewest(u, a, usage, now);
  }

  /** A stop leaves the campaign stopped, and its open attempt closed as unclear. */
  lemma StopsCloseTheOpenWork(s: State, a: nat, usage: Usage, now: Time)
    requires Inv(s) && !s.row.status.Stopped? && !HasEnded(s.row.status) && |s.attempts| == a + 1
    ensures var t := Next(s, StopGoal(usage, now));
      && t.row == s.row.(status := Stopped, tokensUsed := t.row.tokensUsed)
      && (if s.attempts[a].Open() then ClosedAs(s, t, a, Some(Unclear), Skipped, None, None, usage, None, now)
          else t.attempts == s.attempts && t.row.tokensUsed == s.row.tokensUsed)
  {
    var u := s.(row := s.row.(status := Stopped));
    StoppedRow(s, u);
    StopIsOneClose(s, u, a, usage, now);
    if s.attempts[a].Open() {
      assert Sane(s.attempts[a], s.past[a]);
      ClosesAreExact(u, a, Some(Unclear), Skipped, s.attempts[a].score, s.attempts[a].valid, None, None, usage, None, now,
                     Next(s, StopGoal(usage, now)), TokenDelta(s.attempts[a], usage));
    }
  }

  // ── Dispatch ──────────────────────────────────────────────────────

  /** An acceptance starts a pending job's own clock, and touches nothing else. */
  lemma AcceptancesStartTheRun(s: State, a: nat, sent: Evaluator, now: Time)
    requires Inv(s)
    ensures var t := Next(s, Accepted(a, sent, now));
      if a < |s.attempts| && s.attempts[a].Open() && s.attempts[a].job && s.attempts[a].evalStatus == Pending then
        t == s.(attempts := s.attempts[a := s.attempts[a].(
          evalStatus := Running, deadline := Some(now + sent.timeout + 120), digest := Some(sent.digest))])
      else t == s
  {
  }

  /** A job run afresh notes the evaluator it now runs. */
  lemma RepeatedRunsNoteTheEvaluator(s: State, a: nat, sent: Evaluator)
    requires Indexed(s)
    ensures var t := Next(s, RanAgain(a, sent));
      if a < |s.attempts| && s.attempts[a].Open() && s.attempts[a].job then
        t == s.(attempts := s.attempts[a := s.attempts[a].(digest := Some(sent.digest))])
      else t == s
  {
  }

  // ── The agent ─────────────────────────────────────────────────────

  /** The agent's writes: its run, its one record before the evaluation, a wake-up
      between a minute and a week ahead and before the deadline, and a block report,
      all on the open attempt only. */
  lemma AgentsWriteOpenWork(s: State, a: nat, x: nat, at: Time, now: Time)
    requires Indexed(s)
    ensures a >= |s.attempts| || !s.attempts[a].Open() ==>
      && Next(s, Attach(a, x)) == s && Next(s, Record(a)) == s && Next(s, Wake(a, at, now)) == s && Next(s, ReportBlock(a)) == s
    ensures a < |s.attempts| && s.attempts[a].Open() ==>
      var att := s.attempts[a];
      && Next(s, Attach(a, x)) ==
         (if att.execution.None? then s.(attempts := s.attempts[a := att.(execution := Some(x))]) else s)
      && Next(s, Record(a)) ==
         (if att.kind.Cycle? && !att.recorded && !att.job then s.(attempts := s.attempts[a := att.(recorded := true)]) else s)
      && Next(s, Wake(a, at, now)) ==
         (if now + 60 <= at <= now + 604800 && (s.row.deadline.Some? ==> at < s.row.deadline.value)
          then s.(attempts := s.attempts[a := att.(wakeAt := Some(at))]) else s)
      && Next(s, ReportBlock(a)) == s.(attempts := s.attempts[a := att.(blockReported := true)])
  {
  }

  // ── People ────────────────────────────────────────────────────────

  lemma PausesAndResumes(s: State)
    requires Indexed(s)
    ensures Next(s, Person(PauseGoal)) == if s.row.status.Active? then s.(row := s.row.(status := Paused)) else s
    ensures s.row.status.Paused? ==> Next(s, Person(ResumeGoal)) == s.(row := s.row.(status := Active))
    ensures s.row.status.Blocked? ==> Next(s, Person(ResumeGoal)) == s.(row := s.row.(status := Active, failures := 0))
    ensures s.row.status.Plateau? ==> Next(s, Person(ResumeGoal)) == s.(row := s.row.(status := Active, sinceImprovement := 0))
    ensures !s.row.status.Paused? && !s.row.status.Blocked? && !s.row.status.Plateau? ==> Next(s, Person(ResumeGoal)) == s
  {
  }

  /** A result that waits is confirmed, or sent back with the clock not before now. */
  lemma ConfirmsAndRejects(s: State, now: Time)
    requires Indexed(s)
    ensures !s.row.status.AwaitingConfirmation? ==> Next(s, Person(ConfirmResult)) == s && Next(s, Person(RejectGoal(now))) == s
    ensures s.row.status.AwaitingConfirmation? ==>
      && Next(s, Person(ConfirmResult)) == s.(row := s.row.(status := Achieved, retroDue := true))
      && Next(s, Person(RejectGoal(now))) == s.(row := s.row.(
           status := Active,
           nextCycleAt := if s.row.nextCycleAt.Some? && s.row.nextCycleAt.value >= now then s.row.nextCycleAt else Some(now)))
  {
  }

  /** A trusted score belongs to a closed work cycle; in target mode it achieves an open,
      unblocked campaign when it reaches the target on a run that was not invalid. */
  lemma TrustedScores(s: State, a: nat, score: real)
    requires Inv(s)
    ensures var t := Next(s, Trust(a, score));
      if a >= |s.attempts| || s.attempts[a].kind.Retrospective? || s.attempts[a].Open() then t == s
      else
        && t.attempts == s.attempts[a := s.attempts[a].(trusted := Some(score))]
        && t.row ==
           if s.row.mode.TargetMode? && s.attempts[a].valid != Some(false) && s.row.metric.target.Some?
              && (if s.row.metric.maximize then score >= s.row.metric.target.value else score <= s.row.metric.target.value)
              && (s.row.status.Active? || s.row.status.Paused? || s.row.status.Plateau? || s.row.status.AwaitingConfirmation?)
           then s.row.(status := Achieved, retroDue := true) else s.row
  {
  }

  /** What an extension asks for is in order: an open room, a later deadline that is
      still ahead, a larger budget where there is one, and not a final end. */
  predicate InOrder(c: Row, deadline: Option<Time>, cap: Option<int>, roomOpen: bool, now: Time) {
    && roomOpen && !c.status.Achieved? && !c.status.Stopped? && (deadline.Some? || cap.Some?)
    && (deadline.Some? ==> deadline.value > now && (c.deadline.Some? ==> deadline.value > c.deadline.value))
    && (cap.Some? ==> c.budget.cap.Some? && cap.value > c.budget.cap.value)
  }

  /** The columns that put an ended campaign back in the loop. */
  function BackInTheLoop(c: Row, now: Time): Row {
    c.(status := Active, retroDue := false,
       nextCycleAt := if c.nextCycleAt.Some? && c.nextCycleAt.value >= now then c.nextCycleAt else Some(now))
  }

  /** An extension changes deadline and budget, and reopens an ended campaign only when
      both are then clear. */
  lemma Extensions(s: State, deadline: Option<Time>, cap: Option<int>, roomOpen: bool, now: Time)
    requires Indexed(s)
    ensures var c, t := s.row, Next(s, Person(ExtendGoal(deadline, cap, roomOpen, now)));
      var d := if deadline.Some? then deadline else c.deadline;
      var b := if cap.Some? then Budget(cap, c.budget.reserve) else c.budget;
      var wide := c.(deadline := d, budget := b);
      t == s.(row :=
        if !InOrder(c, deadline, cap, roomOpen, now) then c
        else if !c.status.DeadlineReached? && !c.status.BudgetExhausted? then wide
        else if (d.Some? && d.value <= now) || Spent(b, c.tokensUsed) then c
        else BackInTheLoop(wide, now))
  {
  }

  /** The criteria are a valid specification at time *at*: a target where the mode has
      one, a deadline or a target, and limits in range. */
  predicate Sensible(mode: Mode, e: Criteria, deadline: Option<Time>, at: Time) {
    && e.minDelta >= 0.0 && 1 <= e.evaluator.timeout <= 21600
    && (e.budget.cap.Some? ==> e.budget.cap.value > 0) && 0.0 <= e.budget.reserve <= 0.5
    && (deadline.Some? ==> deadline.value > at)
    && (if mode.TargetMode? then e.target.Some? else e.target.None? && deadline.Some?)
  }

  /** An edit writes valid criteria to a campaign that goes on; dropping the budget of an
      exhausted one reopens it. A past deadline left alone does not stand in the way of
      an edit, but it does of a reopening. */
  lemma Edits(s: State, e: Criteria, now: Time)
    requires Indexed(s)
    ensures var c, t := s.row, Next(s, Person(EditGoal(e, now)));
      var d := if e.deadlineChanged then e.deadline else c.deadline;
      var past := d.Some? && d.value <= now;
      var reopens := c.status.BudgetExhausted? && c.budget.cap.Some? && e.budget.cap.None?;
      var edited := c.(metric := Metric(c.metric.maximize, e.target, e.minDelta), budget := e.budget, deadline := d,
                       evaluator := e.evaluator, pins := if e.evaluator == c.evaluator then c.pins else None);
      t == s.(row :=
        if ((c.status.Stopped? || HasEnded(c.status)) && !reopens)
           || !Sensible(c.mode, e, d, if past && !e.deadlineChanged then d.value - 1 else now) then c
        else if !reopens then edited
        else if past then c
        else BackInTheLoop(edited, now))
  {
  }
}

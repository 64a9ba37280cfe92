/** One open cycle per campaign, with any number of scheduler passes and other
    writers interleaving freely.

    A pass reads the campaign row, then looks for an open attempt, then asks for
    the next cycle number, and finally claims the cycle by a compare-and-set on
    the row's revision, inserting the attempt in the same transaction. */
module CampaignClaim {
  import opened CampaignRules

  datatype Row = Row(revision: nat, active: bool, retroReady: bool, cyclesRun: nat)

  datatype Attempt = Attempt(number: nat, kind: Kind, open: bool)

  /** How far one scheduler pass has come. */
  datatype Pass =
    | Idle
    | HasRow(seen: Row)
    | FoundNoneOpen(seen: Row)
    | HasNumber(seen: Row, kind: Kind, number: nat)
    | Peeked  // the open-attempt query made before reading the row

  datatype Db = Db(row: Row, attempts: seq<Attempt>, passes: map<nat, Pass>)

  datatype Step =
    | ReadRow(id: nat)
    | LookForOpen(id: nat)
    | AskNumber(id: nat, kind: Kind)
    | Claim(id: nat)
    | Close(index: nat)
    | OtherWrite(row: Row)
    | PeekFirst(id: nat)
    | ReadRowAfterPeek(id: nat)

  function PassOf(db: Db, id: nat): Pass {
    if id in db.passes then db.passes[id] else Idle
  }

  function Goto(db: Db, id: nat, p: Pass): Db {
    db.(passes := db.passes[id := p])
  }

  predicate AnyOpen(attempts: seq<Attempt>) {
    exists i :: 0 <= i < |attempts| && attempts[i].open
  }

  function HighestNumber(attempts: seq<Attempt>): nat {
    if attempts == [] then 0
    else
      var before, last := HighestNumber(attempts[..|attempts| - 1]), attempts[|attempts| - 1].number;
      if last > before then last else before
  }

  function Cycles(attempts: seq<Attempt>): nat {
    if attempts == [] then 0
    else Cycles(attempts[..|attempts| - 1]) + if attempts[|attempts| - 1].kind.Cycle? then 1 else 0
  }

  /** The claim: lost when the row moved since it was read, or when the number is
      taken (the unique key on campaign and cycle number). */
  function Claimed(db: Db, id: nat, p: Pass): Db
    requires p.HasNumber?
  {
    if db.row.revision != p.seen.revision || (exists i :: 0 <= i < |db.attempts| && db.attempts[i].number == p.number)
    then Goto(db, id, Idle)
    else
      var row := if p.kind.Cycle? then p.seen.(revision := p.seen.revision + 1, cyclesRun := p.seen.cyclesRun + 1)
                 else p.seen.(revision := p.seen.revision + 1, retroReady := false);
      Goto(db, id, Idle).(row := row, attempts := db.attempts + [Attempt(p.number, p.kind, true)])
  }

  function Next(db: Db, step: Step): Db {
    match step
    case ReadRow(id) =>
      if PassOf(db, id).Idle? && (db.row.active || db.row.retroReady) then Goto(db, id, HasRow(db.row)) else db
    case LookForOpen(id) =>
      var p := PassOf(db, id);
      if !p.HasRow? then db else Goto(db, id, if AnyOpen(db.attempts) then Idle else FoundNoneOpen(p.seen))
    case AskNumber(id, kind) =>
      var p := PassOf(db, id);
      if !p.FoundNoneOpen? then db else Goto(db, id, HasNumber(p.seen, kind, HighestNumber(db.attempts) + 1))
    case Claim(id) =>
      var p := PassOf(db, id);
      if p.HasNumber? then Claimed(db, id, p) else db
    case Close(i) =>
      if i < |db.attempts| then db.(attempts := db.attempts[i := db.attempts[i].(open := false)]) else db
    case OtherWrite(row) =>
      // Any hook or person: under the same compare-and-set, never touching cycles_run.
      db.(row := row.(revision := db.row.revision + 1, cyclesRun := db.row.cyclesRun))
    case PeekFirst(id) =>
      if PassOf(db, id).Idle? && !AnyOpen(db.attempts) then Goto(db, id, Peeked) else db
    case ReadRowAfterPeek(id) =>
      if PassOf(db, id).Peeked? && db.row.active then Goto(db, id, FoundNoneOpen(db.row)) else db
  }

  function Run(db: Db, steps: seq<Step>): Db
    decreases |steps|
  {
    if steps == [] then db else Run(Next(db, steps[0]), steps[1..])
  }

  const FRESH := Db(Row(0, true, false, 0), [], map[])

  ghost predicate RowFirst(steps: seq<Step>) {
    forall i :: 0 <= i < |steps| ==> !steps[i].PeekFirst?
  }

  // ── The invariant ─────────────────────────────────────────────────

  ghost predicate OneOpen(attempts: seq<Attempt>) {
    forall i, j :: 0 <= i < j < |attempts| ==> !(attempts[i].open && attempts[j].open)
  }

  ghost predicate Numbered(attempts: seq<Attempt>) {
    forall i :: 0 <= i < |attempts| ==> attempts[i].number == i + 1
  }

  /** What a pass still knows if no one has written the row since it read it. */
  ghost predicate Current(db: Db, p: Pass) {
    match p
    case Idle => true
    case Peeked => false
    case HasRow(seen) =>
      seen.revision <= db.row.revision && (seen.revision == db.row.revision ==> seen == db.row)
    case FoundNoneOpen(seen) =>
      seen.revision <= db.row.revision && (seen.revision == db.row.revision ==> seen == db.row && !AnyOpen(db.attempts))
    case HasNumber(seen, _, number) =>
      && seen.revision <= db.row.revision
      && (seen.revision == db.row.revision ==>
            seen == db.row && !AnyOpen(db.attempts) && number == |db.attempts| + 1)
  }

  ghost predicate Inv(db: Db) {
    && OneOpen(db.attempts) && Numbered(db.attempts)
    && db.row.cyclesRun == Cycles(db.attempts)
    && forall id :: id in db.passes ==> Current(db, db.passes[id])
  }

  lemma {:induction false} NumberedHighest(attempts: seq<Attempt>)
    requires Numbered(attempts)
    ensures HighestNumber(attempts) == |attempts|
  {
    if attempts != [] {
      NumberedHighest(attempts[..|attempts| - 1]);
    }
  }

  lemma {:induction false} ClosingKeepsCycles(attempts: seq<Attempt>, i: nat)
    requires i < |attempts|
    ensures Cycles(attempts[i := attempts[i].(open := false)]) == Cycles(attempts)
  {
    var n := |attempts| - 1;
    var closed := attempts[i := attempts[i].(open := false)];
    if i < n {
      ClosingKeepsCycles(attempts[..n], i);
      assert closed[..n] == attempts[..n][i := attempts[i].(open := false)];
    } else {
      assert closed[..n] == attempts[..n];
    }
  }

  /** The claim won: the pass knew that nothing is open and which number is next. */
  ghost predicate Won(db: Db, id: nat, after: Db) {
    var p := PassOf(db, id);
    && p.HasNumber? && db.row.revision == p.seen.revision
    && after.attempts == db.attempts + [Attempt(p.number, p.kind, true)]
    && after.row.revision == db.row.revision + 1
    && after.row.cyclesRun == db.row.cyclesRun + (if p.kind.Cycle? then 1 else 0)
    && after.passes == db.passes[id := Idle]
  }

  lemma WinningKeepsAttempts(db: Db, id: nat, after: Db)
    requires Inv(db) && Won(db, id, after)
    ensures OneOpen(after.attempts) && Numbered(after.attempts) && after.row.cyclesRun == Cycles(after.attempts)
  {
    assert after.attempts[..|db.attempts|] == db.attempts;
    assert forall i :: 0 <= i < |db.attempts| ==> !db.attempts[i].open;
  }

  /** Every pass that read an older revision knows nothing any more. */
  lemma OlderReadsAreStale(db: Db, after: Db, p: Pass)
    requires Current(db, p) && after.row.revision > db.row.revision
    ensures Current(after, p)
  {
  }

  lemma WinningKeepsInv(db: Db, id: nat, after: Db)
    requires Inv(db) && Won(db, id, after)
    ensures Inv(after)
  {
    WinningKeepsAttempts(db, id, after);
    forall other | other in after.passes ensures Current(after, after.passes[other]) {
      if other != id {
        OlderReadsAreStale(db, after, db.passes[other]);
      }
    }
  }

  lemma LosingKeepsInv(db: Db, id: nat)
    requires Inv(db)
    ensures Inv(Goto(db, id, Idle))
  {
  }

  lemma ClaimKeepsInv(db: Db, id: nat)
    requires Inv(db) && PassOf(db, id).HasNumber?
    ensures Inv(Claimed(db, id, PassOf(db, id)))
  {
    var after := Claimed(db, id, PassOf(db, id));
    if after == Goto(db, id, Idle) {
      LosingKeepsInv(db, id);
    } else {
      assert Current(db, db.passes[id]);
      WinningKeepsInv(db, id, after);
    }
  }

  /** A claim wins exactly when no one has written the row since the pass read it. It
      then opens the next attempt; otherwise nothing but the pass changes. */
  lemma ClaimsWinExactly(db: Db, id: nat)
    requires Inv(db) && PassOf(db, id).HasNumber?
    ensures var p, after := PassOf(db, id), Next(db, Claim(id));
      && after.passes == db.passes[id := Idle]
      && after.attempts == (if p.seen.revision == db.row.revision
                            then db.attempts + [Attempt(|db.attempts| + 1, p.kind, true)] else db.attempts)
      && after.row ==
         if p.seen.revision != db.row.revision then db.row
         else if p.kind.Cycle? then db.row.(revision := db.row.revision + 1, cyclesRun := db.row.cyclesRun + 1)
         else db.row.(revision := db.row.revision + 1, retroReady := false)
  {
    assert Current(db, db.passes[id]);
  }

  /** A pass reads a row that has work to do, goes on only while nothing is open, and
      takes the number after the last. */
  lemma PassesReadInOrder(db: Db, id: nat, kind: Kind)
    requires Inv(db)
    ensures var p := PassOf(db, id);
      && (p.Idle? ==>
            Next(db, ReadRow(id)) ==
            if db.row.active || db.row.retroReady then db.(passes := db.passes[id := HasRow(db.row)]) else db)
      && (p.HasRow? ==>
            Next(db, LookForOpen(id)) ==
            if exists i :: 0 <= i < |db.attempts| && db.attempts[i].open then db.(passes := db.passes[id := Idle])
            else db.(passes := db.passes[id := FoundNoneOpen(p.seen)]))
      && (p.FoundNoneOpen? ==>
            Next(db, AskNumber(id, kind)) == db.(passes := db.passes[id := HasNumber(p.seen, kind, |db.attempts| + 1)]))
  {
    NumberedHighest(db.attempts);
  }

  lemma StepKeepsInv(db: Db, step: Step)
    requires Inv(db) && !step.PeekFirst?
    ensures Inv(Next(db, step))
  {
    match step
    case AskNumber(id, kind) => NumberedHighest(db.attempts);
    case Claim(id) => if PassOf(db, id).HasNumber? { ClaimKeepsInv(db, id); }
    case Close(i) => if i < |db.attempts| { ClosingKeepsCycles(db.attempts, i); }
    case _ =>
  }

  lemma {:induction false} RunKeepsInv(db: Db, steps: seq<Step>)
    requires Inv(db) && RowFirst(steps)
    ensures Inv(Run(db, steps))
    decreases |steps|
  {
    if steps != [] {
      StepKeepsInv(db, steps[0]);
      RunKeepsInv(Next(db, steps[0]), steps[1..]);
    }
  }

  /** However passes, closes and other writes interleave, a campaign never has two
      open attempts, cycle numbers are 1..n without gaps, and `cycles_run` counts
      the work cycles. */
  lemma OneOpenCycle(steps: seq<Step>)
    requires RowFirst(steps)
    ensures var db := Run(FRESH, steps);
      OneOpen(db.attempts) && Numbered(db.attempts) && db.row.cyclesRun == Cycles(db.attempts)
  {
    RunKeepsInv(FRESH, steps);
  }

  lemma RunCons(db: Db, step: Step, rest: seq<Step>)
    ensures Run(db, [step] + rest) == Run(Next(db, step), rest)
  {
    assert ([step] + rest)[1..] == rest;
  }

  /** A pass that peeked before a second pass opened cycle 1 then opens cycle 2. */
  lemma LatePeekClaims(d: Db)
    requires d == Db(Row(1, true, false, 1), [Attempt(1, Cycle, true)], map[1 := Peeked, 2 := Idle])
    ensures !OneOpen(Run(d, [ReadRowAfterPeek(1), AskNumber(1, Cycle), Claim(1)]).attempts)
  {
    var d1 := Next(d, ReadRowAfterPeek(1));
    var d2 := Next(d1, AskNumber(1, Cycle));
    var d3 := Next(d2, Claim(1));
    assert d.attempts[..0] == [];
    assert d3.attempts[0].open && d3.attempts[1].open;
    RunCons(d, ReadRowAfterPeek(1), [AskNumber(1, Cycle), Claim(1)]);
    RunCons(d1, AskNumber(1, Cycle), [Claim(1)]);
    RunCons(d2, Claim(1), []);
  }

  /** The order matters: looking for an open attempt before reading the row lets a
      second pass claim another cycle while the first is open. */
  lemma PeekingFirstOpensTwo()
    ensures !OneOpen(Run(FRESH, [PeekFirst(1), ReadRow(2), LookForOpen(2), AskNumber(2, Cycle), Claim(2),
                                 ReadRowAfterPeek(1), AskNumber(1, Cycle), Claim(1)]).attempts)
  {
    var late := [ReadRowAfterPeek(1), AskNumber(1, Cycle), Claim(1)];
    var d1 := Next(FRESH, PeekFirst(1));
    var d2 := Next(d1, ReadRow(2));
    var d3 := Next(d2, LookForOpen(2));
    var d4 := Next(d3, AskNumber(2, Cycle));
    var d5 := Next(d4, Claim(2));
    LatePeekClaims(d5);
    RunCons(FRESH, PeekFirst(1), [ReadRow(2), LookForOpen(2), AskNumber(2, Cycle), Claim(2)] + late);
    RunCons(d1, ReadRow(2), [LookForOpen(2), AskNumber(2, Cycle), Claim(2)] + late);
    RunCons(d2, LookForOpen(2), [AskNumber(2, Cycle), Claim(2)] + late);
    RunCons(d3, AskNumber(2, Cycle), [Claim(2)] + late);
    RunCons(d4, Claim(2), late);
  }
}

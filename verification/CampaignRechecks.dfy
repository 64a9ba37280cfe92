/** Which open evaluations a tick sends again: pending ones always, a running one only
    when it has run long enough and the last request for it is old enough. */
module CampaignRechecks {
  import opened Wrappers
  import opened CampaignRules

  const RUNNING_RECHECK_AFTER_SECONDS := 60
  const RUNNING_RECHECK_INTERVAL_SECONDS := 300
  const QUERY_LIMIT := 25

  /** An open evaluation; one that has started is running, the others are pending. */
  datatype Evaluation = Evaluation(id: nat, startedAt: Option<Time>)

  predicate Eligible(e: Evaluation, now: Time) {
    e.startedAt.Some? ==> e.startedAt.value <= now - RUNNING_RECHECK_AFTER_SECONDS
  }

  /** The first *limit* eligible evaluations of those open, oldest cycle first. */
  function Query(open: seq<Evaluation>, now: Time, limit: nat): seq<Evaluation> {
    if open == [] || limit == 0 then []
    else if Eligible(open[0], now) then [open[0]] + Query(open[1..], now, limit - 1)
    else Query(open[1..], now, limit)
  }

  function RunningIds(rows: seq<Evaluation>): set<nat> {
    set i | 0 <= i < |rows| && rows[i].startedAt.Some? :: rows[i].id
  }

  function Kept(last: map<nat, Time>, rows: seq<Evaluation>): map<nat, Time> {
    last - (last.Keys - RunningIds(rows))
  }

  /** A running evaluation asked for less than an interval ago waits for a later tick. */
  predicate Waits(row: Evaluation, last: map<nat, Time>, now: Time) {
    row.startedAt.Some? && row.id in last && now - last[row.id] < RUNNING_RECHECK_INTERVAL_SECONDS
  }

  function Chosen(rows: seq<Evaluation>, tick: bool, last: map<nat, Time>, now: Time): seq<nat> {
    if rows == [] then []
    else
      var n := |rows| - 1;
      Chosen(rows[..n], tick, last, now) + if tick && Waits(rows[n], last, now) then [] else [rows[n].id]
  }

  lemma OneMoreGone(m: map<nat, Time>, gone: set<nat>, id: nat)
    ensures m - gone - {id} == m - (gone + {id})
  {
  }

  class Rechecks {
    var last: map<nat, Time>

    constructor ()
      ensures last == map[]
    {
      last := map[];
    }

    /** A tick over the evaluations now open, oldest cycle first. */
    method Tick(open: seq<Evaluation>, now: Time) returns (ids: seq<nat>)
      modifies this
      ensures last == Next(old(last), Ticked(open, now)) && ids == AskedBy(old(last), open, now)
    {
      ids := Select(Query(open, now, QUERY_LIMIT), true, now);
    }

    /** The evaluations to send. A tick forgets requests for evaluations it does not
        list as running; a machine that registers is sent every evaluation listed for it. */
    method Select(rows: seq<Evaluation>, tick: bool, now: Time) returns (ids: seq<nat>)
      modifies this
      ensures last == if tick then Kept(old(last), rows) else old(last)
      ensures ids == Chosen(rows, tick, last, now)
    {
      if tick {
        Forget(RunningIds(rows));
      }
      ids := [];
      for i := 0 to |rows|
        invariant ids == Chosen(rows[..i], tick, last, now)
      {
        assert rows[..i + 1][..i] == rows[..i];
        var row := rows[i];
        if tick && row.startedAt.Some? && row.id in last && now - last[row.id] < RUNNING_RECHECK_INTERVAL_SECONDS {
          continue;
        }
        ids := ids + [row.id];
      }
      assert rows[..|rows|] == rows;
    }

    method Forget(running: set<nat>)
      modifies this
      ensures last == old(last) - (old(last).Keys - running)
    {
      var stale := last.Keys - running;
      ghost var all, gone := stale, {};
      while stale != {}
        invariant stale + gone == all && last == old(last) - gone
        decreases |stale|
      {
        var id :| id in stale;
        OneMoreGone(old(last), gone, id);
        last, stale := last - {id}, stale - {id};
        gone := gone + {id};
      }
    }

    /** A machine acknowledged a request for a running evaluation. */
    method Acknowledge(id: nat, at: Time)
      modifies this
      ensures last == Next(old(last), Acknowledged(id, at))
    {
      last := last[id := at];
    }
  }

  // ── Over many ticks ───────────────────────────────────────────────

  datatype Step = Ticked(open: seq<Evaluation>, now: Time) | Registered | Acknowledged(id: nat, at: Time)

  function Next(last: map<nat, Time>, step: Step): map<nat, Time> {
    match step
    case Ticked(open, now) => Kept(last, Query(open, now, QUERY_LIMIT))
    case Registered => last
    case Acknowledged(id, at) => last[id := at]
  }

  /** What a tick asks for, in the state that *last* describes. */
  function AskedBy(last: map<nat, Time>, open: seq<Evaluation>, now: Time): seq<nat> {
    Chosen(Query(open, now, QUERY_LIMIT), true, Next(last, Ticked(open, now)), now)
  }

  function After(last: map<nat, Time>, steps: seq<Step>): map<nat, Time>
    decreases |steps|
  {
    if steps == [] then last else After(Next(last, steps[0]), steps[1..])
  }

  function EligibleBefore(open: seq<Evaluation>, now: Time, n: nat): nat
    requires n <= |open|
  {
    if n == 0 then 0 else EligibleBefore(open, now, n - 1) + if open[n - 1].startedAt.None? || open[n - 1].startedAt.value <= now - 60 then 1 else 0
  }

  /** A tick sees *id* running: it started at least 60 s before, and fewer than
      *limit* eligible evaluations are older. */
  predicate Sees(open: seq<Evaluation>, now: Time, limit: nat, id: nat) {
    exists i :: 0 <= i < |open| && open[i].id == id && open[i].startedAt.Some?
                && open[i].startedAt.value <= now - 60
                && EligibleBefore(open, now, i) < limit
  }

  /** The tick saw *id* running. */
  predicate Saw(step: Step, id: nat) {
    step.Ticked? ==> Sees(step.open, step.now, QUERY_LIMIT, id)
  }

  lemma {:induction false} EligibleBeforeTail(open: seq<Evaluation>, now: Time, n: nat)
    requires 0 < n <= |open|
    ensures EligibleBefore(open, now, n)
         == (if Eligible(open[0], now) then 1 else 0) + EligibleBefore(open[1..], now, n - 1)
  {
    if n > 1 {
      EligibleBeforeTail(open, now, n - 1);
      assert open[1..][n - 2] == open[n - 1];
    }
  }

  /** *id* stands at position i of *open*, within the limit. */
  predicate SeenAt(open: seq<Evaluation>, now: Time, limit: nat, id: nat, i: nat)
    requires i < |open|
  {
    open[i].id == id && open[i].startedAt.Some? && Eligible(open[i], now) && EligibleBefore(open, now, i) < limit
  }

  lemma {:induction false} QueryListsAt(open: seq<Evaluation>, now: Time, limit: nat, id: nat, i: nat)
    requires i < |open| && SeenAt(open, now, limit, id, i)
    ensures id in RunningIds(Query(open, now, limit))
    decreases |open|
  {
    var rows := Query(open, now, limit);
    if i == 0 {
      assert rows[0] == open[0];
    } else {
      EligibleBeforeTail(open, now, i);
      var rest := if Eligible(open[0], now) then limit - 1 else limit;
      QueryListsAt(open[1..], now, rest, id, i - 1);
      var tail := Query(open[1..], now, rest);
      var k :| 0 <= k < |tail| && tail[k].startedAt.Some? && tail[k].id == id;
      assert tail[k] == rows[if Eligible(open[0], now) then k + 1 else k];
    }
  }

  lemma {:induction false} ListedIsSeen(open: seq<Evaluation>, now: Time, limit: nat, id: nat) returns (i: nat)
    requires id in RunningIds(Query(open, now, limit))
    ensures i < |open| && SeenAt(open, now, limit, id, i)
    decreases |open|
  {
    var rows := Query(open, now, limit);
    var k :| 0 <= k < |rows| && rows[k].startedAt.Some? && rows[k].id == id;
    if Eligible(open[0], now) && k == 0 {
      return 0;
    }
    var rest := if Eligible(open[0], now) then limit - 1 else limit;
    var tail := Query(open[1..], now, rest);
    assert tail[if Eligible(open[0], now) then k - 1 else k] == rows[k];
    var j := ListedIsSeen(open[1..], now, rest, id);
    EligibleBeforeTail(open, now, j + 1);
    i := j + 1;
  }

  /** A tick's query lists a running evaluation exactly by its start and its rank. */
  lemma QueryListsByStartAndRank(open: seq<Evaluation>, now: Time, limit: nat, id: nat)
    ensures id in RunningIds(Query(open, now, limit)) <==> Sees(open, now, limit, id)
  {
    if id in RunningIds(Query(open, now, limit)) {
      var i := ListedIsSeen(open, now, limit, id);
    }
    if Sees(open, now, limit, id) {
      var i :| 0 <= i < |open| && open[i].id == id && open[i].startedAt.Some?
               && open[i].startedAt.value <= now - RUNNING_RECHECK_AFTER_SECONDS && EligibleBefore(open, now, i) < limit;
      QueryListsAt(open, now, limit, id, i);
    }
  }

  predicate NotAcknowledged(steps: seq<Step>, id: nat) {
    forall i :: 0 <= i < |steps| && steps[i].Acknowledged? ==> steps[i].id != id
  }

  predicate AlwaysSaw(steps: seq<Step>, id: nat) {
    forall i :: 0 <= i < |steps| ==> Saw(steps[i], id)
  }

  lemma {:induction false} QueryHasPending(open: seq<Evaluation>, now: Time, limit: nat, i: nat)
    requires i < |open| && open[i].startedAt.None? && EligibleBefore(open, now, i) < limit
    ensures open[i] in Query(open, now, limit)
    decreases |open|
  {
    if i > 0 {
      EligibleBeforeTail(open, now, i);
      QueryHasPending(open[1..], now, if Eligible(open[0], now) then limit - 1 else limit, i - 1);
    }
  }

  /** A tick always sends a pending evaluation among the 25 oldest it may send, whatever
      was requested before. */
  lemma PendingIsAlwaysAsked(last: map<nat, Time>, open: seq<Evaluation>, now: Time, i: nat)
    requires i < |open| && open[i].startedAt.None? && EligibleBefore(open, now, i) < 25
    ensures open[i].id in AskedBy(last, open, now)
  {
    var rows := Query(open, now, QUERY_LIMIT);
    QueryHasPending(open, now, QUERY_LIMIT, i);
    ChosenUnlessWaiting(rows, Kept(last, rows), now, open[i].id);
    var k :| 0 <= k < |rows| && rows[k] == open[i];
    assert !Waits(rows[k], Kept(last, rows), now);
  }

  /** A tick sends nothing twenty-five older ones crowd out, nor a run younger than a
      minute. */
  lemma {:induction false} QueryLists(open: seq<Evaluation>, now: Time, limit: nat)
    ensures |Query(open, now, limit)| <= limit
    ensures forall e :: e in Query(open, now, limit) ==> e in open && (e.startedAt.Some? ==> e.startedAt.value <= now - 60)
  {
    if open != [] && limit > 0 {
      QueryLists(open[1..], now, if Eligible(open[0], now) then limit - 1 else limit);
    }
  }

  /** A machine that registers is sent every evaluation listed for it, in order. */
  lemma {:induction false} RegisteringMachinesAreSentAll(rows: seq<Evaluation>, last: map<nat, Time>, now: Time)
    ensures var ids := Chosen(rows, false, last, now); |ids| == |rows| && forall i :: 0 <= i < |rows| ==> ids[i] == rows[i].id
  {
    if rows != [] {
      RegisteringMachinesAreSentAll(rows[..|rows| - 1], last, now);
    }
  }

  /** A request is remembered exactly while every tick sees its evaluation running. */
  lemma {:induction false} RememberedWhileSeen(last: map<nat, Time>, steps: seq<Step>, id: nat)
    requires NotAcknowledged(steps, id)
    ensures id in After(last, steps) <==> id in last && AlwaysSaw(steps, id)
    ensures id in After(last, steps) ==> After(last, steps)[id] == last[id]
    decreases |steps|
  {
    if steps != [] {
      var rest := steps[1..];
      if steps[0].Ticked? {
        QueryListsByStartAndRank(steps[0].open, steps[0].now, QUERY_LIMIT, id);
      }
      RememberedWhileSeen(Next(last, steps[0]), rest, id);
      assert AlwaysSaw(steps, id) <==> Saw(steps[0], id) && AlwaysSaw(rest, id) by {
        assert forall i :: 0 < i < |steps| ==> steps[i] == rest[i - 1];
      }
    }
  }

  lemma {:induction false} ChosenUnlessWaiting(rows: seq<Evaluation>, last: map<nat, Time>, now: Time, id: nat)
    ensures id in Chosen(rows, true, last, now) <==>
      exists i :: 0 <= i < |rows| && rows[i].id == id && !Waits(rows[i], last, now)
  {
    if rows != [] {
      var n := |rows| - 1;
      ChosenUnlessWaiting(rows[..n], last, now, id);
      if i :| 0 <= i < n && rows[..n][i].id == id && !Waits(rows[..n][i], last, now) {
        assert rows[i].id == id;
      }
      if i :| 0 <= i < |rows| && rows[i].id == id && !Waits(rows[i], last, now) {
        if i < n {
          assert rows[..n][i] == rows[i];
        }
      }
    }
  }

  lemma {:induction false} QueryIsOfOpen(open: seq<Evaluation>, now: Time, limit: nat)
    ensures forall k :: 0 <= k < |Query(open, now, limit)| ==> Query(open, now, limit)[k] in open
  {
    if open != [] && limit > 0 {
      QueryIsOfOpen(open[1..], now, if Eligible(open[0], now) then limit - 1 else limit);
    }
  }

  /** When a tick asks again for a running evaluation last acknowledged at *at*: it
      must see it, and either the interval is over, or some tick in between did not
      see it and so forgot the acknowledgement. */
  lemma WhenATickAsksAgain(last: map<nat, Time>, id: nat, at: Time, steps: seq<Step>, open: seq<Evaluation>, now: Time)
    requires NotAcknowledged(steps, id)
    requires forall i :: 0 <= i < |open| && open[i].id == id ==> open[i].startedAt.Some?
    ensures id in AskedBy(After(last[id := at], steps), open, now) <==>
      Sees(open, now, 25, id) && (now - at >= 300 || !AlwaysSaw(steps, id))
  {
    var rows := Query(open, now, QUERY_LIMIT);
    var before := After(last[id := at], steps);
    RememberedWhileSeen(last[id := at], steps, id);
    QueryListsByStartAndRank(open, now, QUERY_LIMIT, id);
    QueryIsOfOpen(open, now, QUERY_LIMIT);
    ChosenUnlessWaiting(rows, Kept(before, rows), now, id);
    if id in RunningIds(rows) {
      var i :| 0 <= i < |rows| && rows[i].startedAt.Some? && rows[i].id == id;
      assert Waits(rows[i], Kept(before, rows), now) <==> id in before && now - at < RUNNING_RECHECK_INTERVAL_SECONDS;
    }
  }

  /** While every tick sees it, a running evaluation is asked for again exactly from
      300 s after its last acknowledged request. */
  lemma AskedAgainAfterTheInterval(last: map<nat, Time>, id: nat, at: Time, steps: seq<Step>, open: seq<Evaluation>, now: Time)
    requires NotAcknowledged(steps, id) && AlwaysSaw(steps, id) && Sees(open, now, QUERY_LIMIT, id)
    requires forall i :: 0 <= i < |open| && open[i].id == id ==> open[i].startedAt.Some?
    ensures id in AskedBy(After(last[id := at], steps), open, now) <==> now - at >= 300
  {
    WhenATickAsksAgain(last, id, at, steps, open, now);
  }

  /** The interval is not kept for a young evaluation: started at 0, asked for by a
      registering machine and acknowledged at 20, forgotten by the tick at 30, it is
      asked for again at 60. */
  lemma AskedAgainAfterFortySeconds()
    ensures var open := [Evaluation(1, Some(0))];
      1 in AskedBy(After(map[1 := 20], [Ticked(open, 30)]), open, 60)
  {
    var open := [Evaluation(1, Some(0))];
    var steps := [Ticked(open, 30)];
    assert !Eligible(open[0], 30) && !Sees(open, 30, QUERY_LIMIT, 1);
    assert !Saw(steps[0], 1);
    assert EligibleBefore(open, 60, 0) == 0 && open[0].id == 1;
    assert Sees(open, 60, QUERY_LIMIT, 1);
    WhenATickAsksAgain(map[], 1, 20, steps, open, 60);
    assert map[1 := 20] == map[][1 := 20];
  }
}

/** One chat room as its client sees it: the loop guard that stops agents answering
    each other for ever, and the bounded filter that drops replayed messages. */
module ChatRoom {
  import opened Wrappers

  const SEEN_MAXLEN := 256

  type Id = nat

  /** Which delivery of a durable turn a message is. */
  datatype Delivery = Delivery(request: Id, attempt: Option<int>, lease: string)

  datatype Key = Key(number: int, delivery: Option<Delivery>)

  /** A message frame: *leasedTask* marks this agent's own leased task, *query* a text
      that begins with the room-query prefix. */
  datatype Frame = Frame(
    number: int, sender: Option<Id>, leasedTask: bool, query: bool, nonce: Option<Id>,
    request: Option<Id>, attempt: Option<int>, lease: Option<string>)
  {
    function DedupKey(): Key {
      Key(number, if request.Some? && lease.Some? then Some(Delivery(request.value, attempt, lease.value)) else None)
    }
  }

  datatype Limits = Limits(agentTurns: nat, resets: nat)

  /** The room's counters, and every key the filter ever accepted as new. */
  datatype Room = Room(turns: nat, inits: nat, accepted: seq<Key>)

  const FRESH := Room(0, 0, [])

  /** A frame, and what the client knows of it: it is an echo of its own, or belongs
      to a turn attempt that has been superseded. */
  datatype Event = Event(frame: Frame, own: bool, stale: bool)
  {
    /** No self filter, prefix or nonce: the client takes it for a person's. */
    predicate FromHuman() {
      !own && !frame.query && frame.nonce.None?
    }

    predicate FromAgent() {
      !own && !frame.query && frame.nonce.Some?
    }
  }

  function Last(h: seq<Key>): (w: seq<Key>)
    ensures |w| <= SEEN_MAXLEN
  {
    if |h| <= SEEN_MAXLEN then h else h[|h| - SEEN_MAXLEN..]
  }

  predicate Seen(h: seq<Key>, k: Key) {
    k.number > 0 && k in Last(h)
  }

  function Marked(h: seq<Key>, k: Key): seq<Key> {
    if k.number <= 0 || Seen(h, k) then h else h + [k]
  }

  /** The turn counters after a frame. */
  function Counted(r: Room, e: Event, lim: Limits): Room {
    if e.frame.query then r.(inits := r.inits + 1, turns := if r.inits + 1 > lim.resets then r.turns else 0)
    else if e.FromHuman() then r.(turns := 0, inits := 0)
    else r.(turns := r.turns + 1)
  }

  predicate Passes(r: Room, e: Event, lim: Limits) {
    !e.own && (e.FromAgent() ==> r.turns + 1 <= lim.agentTurns)
  }

  function After(r: Room, e: Event, lim: Limits): Room {
    var c := Counted(r, e, lim);
    if Passes(r, e, lim) then c.(accepted := Marked(r.accepted, e.frame.DedupKey())) else c
  }

  /** The frame reaches the handlers. */
  predicate Dispatched(r: Room, e: Event, lim: Limits) {
    Passes(r, e, lim) && !Seen(r.accepted, e.frame.DedupKey()) && !e.stale
  }

  function AfterAll(r: Room, events: seq<Event>, lim: Limits): Room
    decreases |events|
  {
    if events == [] then r else AfterAll(After(r, events[0], lim), events[1..], lim)
  }

  // ── The loop guard ────────────────────────────────────────────────

  /** How many messages of other agents reach the handlers. */
  function AgentTurns(r: Room, events: seq<Event>, lim: Limits): nat
    decreases |events|
  {
    if events == [] then 0
    else
      (if events[0].FromAgent() && Dispatched(r, events[0], lim) then 1 else 0)
      + AgentTurns(After(r, events[0], lim), events[1..], lim)
  }

  function Left(limit: nat, used: nat): nat {
    if used >= limit then 0 else limit - used
  }

  /** What the guard may still let through before a person speaks. */
  function Allowance(r: Room, lim: Limits): nat {
    Left(lim.agentTurns, r.turns) + lim.agentTurns * Left(lim.resets, r.inits)
  }

  predicate NoHuman(events: seq<Event>) {
    forall i :: 0 <= i < |events| ==> !events[i].FromHuman()
  }

  /** Without a person, every frame pays for what it lets through. */
  lemma EveryFramePays(r: Room, e: Event, lim: Limits)
    requires !e.FromHuman()
    ensures (if e.FromAgent() && Dispatched(r, e, lim) then 1 else 0) + Allowance(After(r, e, lim), lim) <= Allowance(r, lim)
  {
    var t := After(r, e, lim);
    if e.frame.query && r.inits < lim.resets {
      assert Left(lim.resets, r.inits) == Left(lim.resets, t.inits) + 1;
      assert lim.agentTurns * Left(lim.resets, r.inits) == lim.agentTurns * Left(lim.resets, t.inits) + lim.agentTurns;
    } else {
      assert Left(lim.resets, t.inits) == Left(lim.resets, r.inits);
    }
  }

  /** Whatever room queries, echoes and replays a conversation holds, no more agent
      messages than the allowance reach the handlers without a person. */
  lemma {:induction false} AgentTurnsAreBounded(r: Room, events: seq<Event>, lim: Limits)
    requires NoHuman(events)
    ensures AgentTurns(r, events, lim) <= Allowance(r, lim)
    decreases |events|
  {
    if events != [] {
      EveryFramePays(r, events[0], lim);
      AgentTurnsAreBounded(After(r, events[0], lim), events[1..], lim);
    }
  }

  lemma {:induction false} Scaled(a: nat, x: nat, y: nat)
    requires x <= y
    ensures a * x <= a * y && a * (y + 1) == a * y + a
  {
    assert a * y == a * x + a * (y - x);
  }

  /** In particular never more than the turn limit times one more than the reset
      limit, whatever the room's counters were. */
  lemma LoopGuardBound(r: Room, events: seq<Event>, lim: Limits)
    requires NoHuman(events)
    ensures AgentTurns(r, events, lim) <= lim.agentTurns * (lim.resets + 1)
  {
    AgentTurnsAreBounded(r, events, lim);
    Scaled(lim.agentTurns, Left(lim.resets, r.inits), lim.resets);
  }

  /** A room query whose reset of the turn counter is honoured. */
  predicate Honoured(r: Room, e: Event, lim: Limits) {
    e.frame.query && r.inits + 1 <= lim.resets
  }

  function Resets(r: Room, events: seq<Event>, lim: Limits): nat
    decreases |events|
  {
    if events == [] then 0
    else (if Honoured(r, events[0], lim) then 1 else 0) + Resets(After(r, events[0], lim), events[1..], lim)
  }

  function Queries(events: seq<Event>): nat
    decreases |events|
  {
    if events == [] then 0 else (if events[0].frame.query then 1 else 0) + Queries(events[1..])
  }

  /** Without a person, exactly as many queries reset the turn counter as the limit
      leaves, however many arrive, echoed or not. */
  lemma {:induction false} ResetsAreRationed(r: Room, events: seq<Event>, lim: Limits)
    requires NoHuman(events)
    ensures var left := Left(lim.resets, r.inits);
      Resets(r, events, lim) == if Queries(events) < left then Queries(events) else left
    decreases |events|
  {
    if events != [] {
      assert !events[0].FromHuman();
      assert forall i :: 0 <= i < |events| - 1 ==> events[1..][i] == events[i + 1];
      ResetsAreRationed(After(r, events[0], lim), events[1..], lim);
    }
  }

  /** Two frames are the same message exactly when their numbers agree and they are the
      same delivery of a durable turn, or neither is one. */
  lemma KeysTellDeliveriesApart(f: Frame, g: Frame)
    ensures f.DedupKey() == g.DedupKey() <==>
      && f.number == g.number
      && (if f.request.Some? && f.lease.Some? then f.request == g.request && f.attempt == g.attempt && f.lease == g.lease
          else g.request.None? || g.lease.None?)
  {
  }

  // ── Who is heard ──────────────────────────────────────────────────

  /** A key is fresh when it is unnumbered, or none of the last 256 accepted. */
  predicate Fresh(r: Room, k: Key) {
    k.number <= 0 || !(exists i :: 0 <= i < |r.accepted| && |r.accepted| - i <= 256 && r.accepted[i] == k)
  }

  lemma FreshIsUnseen(r: Room, k: Key)
    ensures Fresh(r, k) <==> !Seen(r.accepted, k)
  {
    var h, w := r.accepted, Last(r.accepted);
    if !Fresh(r, k) {
      var i :| 0 <= i < |h| && |h| - i <= 256 && h[i] == k;
      assert w[i - (|h| - |w|)] == k;
    }
    if Seen(h, k) {
      var j :| 0 <= j < |w| && w[j] == k;
      assert h[j + (|h| - |w|)] == k;
    }
  }

  /** A person is always heard, once, and clears both counters. */
  lemma PeopleAreHeard(r: Room, f: Frame, stale: bool, lim: Limits)
    requires !f.query && f.nonce.None?
    ensures var e := Event(f, false, stale);
      && After(r, e, lim).turns == 0 && After(r, e, lim).inits == 0
      && (Dispatched(r, e, lim) <==> Fresh(r, f.DedupKey()) && !stale)
  {
    FreshIsUnseen(r, f.DedupKey());
  }

  /** Another agent is heard as long as its turn is within the limit, and each of its
      messages counts. */
  lemma AgentsAreHeardWithinTheLimit(r: Room, f: Frame, stale: bool, lim: Limits)
    requires !f.query && f.nonce.Some?
    ensures var e := Event(f, false, stale);
      && After(r, e, lim).turns == r.turns + 1 && After(r, e, lim).inits == r.inits
      && (Dispatched(r, e, lim) <==> r.turns < lim.agentTurns && Fresh(r, f.DedupKey()) && !stale)
  {
    FreshIsUnseen(r, f.DedupKey());
  }

  /** A room query is heard whatever the turn count, and clears it while resets last. */
  lemma QueriesAreHeard(r: Room, f: Frame, stale: bool, lim: Limits)
    requires f.query
    ensures var e := Event(f, false, stale);
      && After(r, e, lim).inits == r.inits + 1
      && After(r, e, lim).turns == (if r.inits < lim.resets then 0 else r.turns)
      && (Dispatched(r, e, lim) <==> Fresh(r, f.DedupKey()) && !stale)
  {
    FreshIsUnseen(r, f.DedupKey());
  }

  /** The client's own messages are never heard, nor remembered; they count like any
      agent's, or reset like any query. */
  lemma OwnMessagesOnlyCount(r: Room, f: Frame, stale: bool, lim: Limits)
    ensures var e := Event(f, true, stale);
      && !Dispatched(r, e, lim) && After(r, e, lim).accepted == r.accepted
      && After(r, e, lim).turns == (if !f.query then r.turns + 1 else if r.inits < lim.resets then 0 else r.turns)
      && After(r, e, lim).inits == if f.query then r.inits + 1 else r.inits
  {
  }

  /** A message that gets through is remembered, unless it is unnumbered or known. */
  lemma AcceptedKeysAreRemembered(r: Room, e: Event, lim: Limits)
    requires !e.own && (!e.frame.query && e.frame.nonce.Some? ==> r.turns < lim.agentTurns)
    ensures After(r, e, lim).accepted ==
      if e.frame.number > 0 && Fresh(r, e.frame.DedupKey()) then r.accepted + [e.frame.DedupKey()] else r.accepted
  {
    FreshIsUnseen(r, e.frame.DedupKey());
  }

  // ── The bound is reached ──────────────────────────────────────────

  const REPLY := Event(Frame(0, None, false, false, Some(0), None, None, None), false, false)
  const QUERY := Event(Frame(0, None, false, true, Some(0), None, None, None), false, false)

  function Replies(n: nat): seq<Event> {
    if n == 0 then [] else [REPLY] + Replies(n - 1)
  }

  /** *n* rounds of one query and as many replies as the limit allows. */
  function Rounds(n: nat, lim: Limits): seq<Event> {
    if n == 0 then [] else [QUERY] + Replies(lim.agentTurns) + Rounds(n - 1, lim)
  }

  lemma {:induction false} RepliesThen(r: Room, n: nat, rest: seq<Event>, lim: Limits)
    requires r.turns + n <= lim.agentTurns
    ensures AgentTurns(r, Replies(n) + rest, lim) == n + AgentTurns(r.(turns := r.turns + n), rest, lim)
    decreases n
  {
    var events := Replies(n) + rest;
    if n == 0 {
      assert events == rest;
    } else {
      assert events[0] == REPLY && events[1..] == Replies(n - 1) + rest;
      assert After(r, REPLY, lim) == r.(turns := r.turns + 1);
      RepliesThen(r.(turns := r.turns + 1), n - 1, rest, lim);
    }
  }

  lemma {:induction false} RoundsAreDispatched(r: Room, n: nat, lim: Limits)
    requires r.inits + n <= lim.resets
    ensures AgentTurns(r, Rounds(n, lim), lim) == n * lim.agentTurns
    decreases n
  {
    if n > 0 {
      var rest := Rounds(n - 1, lim);
      var events := Rounds(n, lim);
      assert events[0] == QUERY && events[1..] == Replies(lim.agentTurns) + rest;
      var t := r.(inits := r.inits + 1, turns := 0);
      assert After(r, QUERY, lim) == t;
      RepliesThen(t, lim.agentTurns, rest, lim);
      RoundsAreDispatched(t.(turns := lim.agentTurns), n - 1, lim);
      assert n * lim.agentTurns == (n - 1) * lim.agentTurns + lim.agentTurns;
    }
  }

  lemma {:induction false} NoHumanInRounds(n: nat, lim: Limits)
    ensures NoHuman(Rounds(n, lim))
  {
    if n > 0 {
      NoHumanInReplies(lim.agentTurns);
      NoHumanInRounds(n - 1, lim);
    }
  }

  lemma {:induction false} NoHumanInReplies(n: nat)
    ensures NoHuman(Replies(n))
  {
    if n > 0 {
      NoHumanInReplies(n - 1);
    }
  }

  /** The bound is exact: a fresh room reaches it without a person. */
  lemma TheBoundIsReached(lim: Limits) returns (events: seq<Event>)
    ensures NoHuman(events) && AgentTurns(FRESH, events, lim) == lim.agentTurns * (lim.resets + 1)
  {
    events := Replies(lim.agentTurns) + Rounds(lim.resets, lim);
    NoHumanInReplies(lim.agentTurns);
    NoHumanInRounds(lim.resets, lim);
    RepliesThen(FRESH, lim.agentTurns, Rounds(lim.resets, lim), lim);
    RoundsAreDispatched(FRESH.(turns := lim.agentTurns), lim.resets, lim);
  }

  // ── The replay filter ─────────────────────────────────────────────

  /** How often the message with key *k* reaches the handlers. */
  function Times(r: Room, events: seq<Event>, k: Key, lim: Limits): nat
    decreases |events|
  {
    if events == [] then 0
    else
      (if events[0].frame.DedupKey() == k && Dispatched(r, events[0], lim) then 1 else 0)
      + Times(After(r, events[0], lim), events[1..], k, lim)
  }

  /** The filter forgets a key exactly when 256 newer ones have been accepted. */
  lemma RememberedFor256(h: seq<Key>, p: nat)
    requires p < |h| && h[p] !in h[p + 1..]
    ensures h[p] in Last(h) <==> |h| <= p + SEEN_MAXLEN
  {
    var w := Last(h);
    if |h| <= p + SEEN_MAXLEN {
      assert w[p - (|h| - |w|)] == h[p];
    }
  }

  lemma {:induction false} HistoryGrows(r: Room, events: seq<Event>, lim: Limits)
    ensures r.accepted <= AfterAll(r, events, lim).accepted
    decreases |events|
  {
    if events != [] {
      HistoryGrows(After(r, events[0], lim), events[1..], lim);
    }
  }

  lemma {:induction false} SeenIsNotRepeated(r: Room, events: seq<Event>, k: Key, p: nat, lim: Limits)
    requires k.number > 0 && p < |r.accepted| && r.accepted[p] == k
    requires |AfterAll(r, events, lim).accepted| <= p + SEEN_MAXLEN
    ensures Times(r, events, k, lim) == 0
    decreases |events|
  {
    if events != [] {
      HistoryGrows(r, events, lim);
      var w := Last(r.accepted);
      assert w[p - (|r.accepted| - |w|)] == k;
      SeenIsNotRepeated(After(r, events[0], lim), events[1..], k, p, lim);
    }
  }

  /** However often a message is delivered, it is dispatched at most once, as long as
      no more than 256 keys are accepted on the way. */
  lemma {:induction false} DispatchedAtMostOnce(r: Room, events: seq<Event>, k: Key, lim: Limits)
    requires k.number > 0
    requires |AfterAll(r, events, lim).accepted| <= |r.accepted| + SEEN_MAXLEN
    ensures Times(r, events, k, lim) <= 1
    decreases |events|
  {
    if events != [] {
      var t := After(r, events[0], lim);
      if t.accepted == r.accepted + [k] {
        SeenIsNotRepeated(t, events[1..], k, |r.accepted|, lim);
      } else {
        DispatchedAtMostOnce(t, events[1..], k, lim);
      }
    }
  }

  /** Equal keys in the history are more than a window apart. */
  ghost predicate FarApart(h: seq<Key>) {
    forall i, j :: 0 <= i < j < |h| && h[i] == h[j] ==> j - i > SEEN_MAXLEN
  }

  lemma MarkingKeepsFarApart(h: seq<Key>, k: Key)
    requires FarApart(h)
    ensures FarApart(Marked(h, k))
  {
    if k.number > 0 && !Seen(h, k) {
      var w := Last(h);
      forall i | 0 <= i < |h| && |h| - i <= SEEN_MAXLEN ensures h[i] in w {
        assert w[i - (|h| - |w|)] == h[i];
      }
    }
  }
}

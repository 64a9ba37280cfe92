/** The client's own state for all its rooms, and the frame handler that updates it.
    Its methods do to each room exactly what ChatRoom says. */
module ChatClients {
  import opened Wrappers
  import opened ChatRoom

  datatype Turn = Turn(attempt: Option<int>, lease: Option<string>)

  predicate Leased(t: Turn) {
    t.lease.Some? && t.lease.value != ""
  }

  predicate Superseded(turns: map<Id, Turn>, f: Frame) {
    && f.request.Some? && f.request.value in turns
    && turns[f.request.value].attempt.Some? && f.attempt.Some?
    && turns[f.request.value].attempt.value > f.attempt.value
  }

  /** The turn contexts after a message: a superseded attempt changes nothing, and a
      leased context gives way only to a leased one. */
  function Adopted(turns: map<Id, Turn>, f: Frame): map<Id, Turn> {
    if f.request.None? || Superseded(turns, f)
       || (!Leased(Turn(f.attempt, f.lease)) && f.request.value in turns && Leased(turns[f.request.value]))
    then turns else turns[f.request.value := Turn(f.attempt, f.lease)]
  }

  function At<T>(m: map<Id, T>, room: Id, default: T): T {
    if room in m then m[room] else default
  }

  function Elements(s: seq<Key>): set<Key> {
    set k | k in s
  }

  /** The set and the queue hold the same distinct keys: the last 256 accepted. */
  ghost predicate InStep(seen: set<Key>, order: seq<Key>, h: seq<Key>) {
    FarApart(h) && order == Last(h) && seen == Elements(order)
  }

  ghost predicate NoRepeats(s: seq<Key>) {
    forall i, j :: 0 <= i < j < |s| ==> s[i] != s[j]
  }

  lemma FirstLeaves(s: seq<Key>)
    requires s != [] && NoRepeats(s)
    ensures Elements(s[1..]) == Elements(s) - {s[0]} && NoRepeats(s[1..])
  {
    assert s == [s[0]] + s[1..];
  }

  lemma WindowHasDistinctKeys(h: seq<Key>)
    requires FarApart(h)
    ensures NoRepeats(Last(h))
  {
    var w, d := Last(h), |h| - |Last(h)|;
    forall i, j | 0 <= i < j < |w| ensures w[i] != w[j] {
      assert w[i] == h[d + i] && w[j] == h[d + j];
    }
  }

  /** Dropping the oldest keys keeps the newest 256. */
  lemma WindowSlides(h: seq<Key>, k: Key)
    ensures Last(Last(h) + [k]) == Last(h + [k])
  {
  }

  class ChatClient {
    const limits: Limits
    var lastSeq: map<Id, int>
    var seenSeqs: map<Id, set<Key>>
    var seenSeqOrder: map<Id, seq<Key>>
    var agentTurnCount: map<Id, nat>
    var consecutiveTaskInit: map<Id, nat>
    var sentNonces: set<Id>
    var myParticipantIds: set<Id>
    var turnContext: map<Id, Turn>
    ghost var accepted: map<Id, seq<Key>>

    ghost predicate Valid()
      reads `seenSeqs, `seenSeqOrder, `accepted
    {
      && seenSeqs.Keys == seenSeqOrder.Keys == accepted.Keys
      && forall room :: room in accepted ==> InStep(seenSeqs[room], seenSeqOrder[room], accepted[room])
    }

    ghost function RoomOf(room: Id): Room
      reads `agentTurnCount, `consecutiveTaskInit, `accepted
    {
      Room(At(agentTurnCount, room, 0), At(consecutiveTaskInit, room, 0), At(accepted, room, []))
    }

    predicate SelfSent(f: Frame)
      reads `myParticipantIds
    {
      f.sender.Some? && f.sender.value in myParticipantIds && !f.leasedTask
    }

    predicate Own(f: Frame)
      reads `myParticipantIds, `sentNonces
    {
      SelfSent(f) || (f.nonce.Some? && f.nonce.value in sentNonces)
    }

    constructor ()
      ensures Valid() && limits == Limits(6, 5) && forall room :: RoomOf(room) == FRESH
    {
      limits := Limits(6, 5);
      lastSeq, seenSeqs, seenSeqOrder, agentTurnCount, consecutiveTaskInit := map[], map[], map[], map[], map[];
      sentNonces, myParticipantIds, turnContext, accepted := {}, {}, map[], map[];
    }

    /** The cursor only moves forward. */
    method NoteSeq(room: Id, number: int)
      modifies `lastSeq
      ensures lastSeq - {room} == old(lastSeq) - {room}
      ensures At(lastSeq, room, 0) == if number > At(old(lastSeq), room, 0) then number else At(old(lastSeq), room, 0)
    {
      if number > At(lastSeq, room, 0) {
        lastSeq := lastSeq[room := number];
      }
    }

    /** A room's head becomes the cursor only where there is none. */
    method SeedCursor(room: Id, head: int)
      modifies `lastSeq
      ensures lastSeq - {room} == old(lastSeq) - {room}
      ensures At(lastSeq, room, 0) == if head > 0 && At(old(lastSeq), room, 0) <= 0 then head else At(old(lastSeq), room, 0)
    {
      if head > 0 && At(lastSeq, room, 0) <= 0 {
        lastSeq := lastSeq[room := head];
      }
    }

    method MarkSeqSeen(room: Id, key: Key) returns (seen: bool)
      requires Valid()
      modifies `seenSeqs, `seenSeqOrder, `accepted
      ensures Valid()
      ensures seen == Seen(At(old(accepted), room, []), key)
      ensures At(accepted, room, []) == Marked(At(old(accepted), room, []), key)
      ensures accepted - {room} == old(accepted) - {room}
    {
      if key.number <= 0 {
        return false;
      }
      OpenRoom(room);
      assert InStep(seenSeqs[room], seenSeqOrder[room], accepted[room]);
      seen := key in seenSeqs[room];
      if !seen {
        var seenSet, order := Accept(seenSeqs[room], seenSeqOrder[room], accepted[room], key);
        Store(room, seenSet, order, accepted[room] + [key]);
      }
    }

    method OpenRoom(room: Id)
      requires Valid()
      modifies `seenSeqs, `seenSeqOrder, `accepted
      ensures Valid() && room in accepted
      ensures accepted[room] == At(old(accepted), room, []) && accepted - {room} == old(accepted) - {room}
    {
      if room !in seenSeqs {
        Store(room, {}, [], []);
      }
    }

    method Store(room: Id, seenSet: set<Key>, order: seq<Key>, ghost h: seq<Key>)
      requires Valid() && InStep(seenSet, order, h)
      modifies `seenSeqs, `seenSeqOrder, `accepted
      ensures Valid() && accepted == old(accepted)[room := h]
    {
      seenSeqs, seenSeqOrder, accepted := seenSeqs[room := seenSet], seenSeqOrder[room := order], accepted[room := h];
    }

    method Accept(seen: set<Key>, queue: seq<Key>, ghost h: seq<Key>, key: Key) returns (seenSet: set<Key>, order: seq<Key>)
      requires InStep(seen, queue, h) && key !in seen && key.number > 0
      ensures InStep(seenSet, order, h + [key]) && h + [key] == Marked(h, key)
    {
      MarkingKeepsFarApart(h, key);
      WindowHasDistinctKeys(h);
      WindowSlides(h, key);
      seenSet, order := Evict(seen + {key}, queue + [key]);
    }

    /** The oldest keys leave queue and set together. */
    method Evict(seen: set<Key>, queue: seq<Key>) returns (seenSet: set<Key>, order: seq<Key>)
      requires seen == Elements(queue) && NoRepeats(queue)
      ensures order == Last(queue) && seenSet == Elements(order)
    {
      seenSet, order := seen, queue;
      while |order| > SEEN_MAXLEN
        invariant |Last(queue)| <= |order| <= |queue| && order == queue[|queue| - |order|..]
        invariant seenSet == Elements(order) && NoRepeats(order)
      {
        FirstLeaves(order);
        seenSet, order := seenSet - {order[0]}, order[1..];
      }
    }

    method ConsumeTaskInitReset(room: Id) returns (honoured: bool)
      modifies `consecutiveTaskInit
      ensures consecutiveTaskInit == old(consecutiveTaskInit)[room := At(old(consecutiveTaskInit), room, 0) + 1]
      ensures honoured == (At(old(consecutiveTaskInit), room, 0) + 1 <= limits.resets)
    {
      var count := At(consecutiveTaskInit, room, 0) + 1;
      consecutiveTaskInit := consecutiveTaskInit[room := count];
      return count <= limits.resets;
    }

    /** An echo is a task boundary or counts as a turn, and goes no further. */
    method CountEcho(room: Id, f: Frame)
      modifies `agentTurnCount, `consecutiveTaskInit
      ensures RoomOf(room) == Counted(old(RoomOf(room)), Event(f, true, false), limits)
      ensures agentTurnCount - {room} == old(agentTurnCount) - {room}
      ensures consecutiveTaskInit - {room} == old(consecutiveTaskInit) - {room}
    {
      if f.query {
        var honoured := ConsumeTaskInitReset(room);
        if honoured {
          agentTurnCount := agentTurnCount[room := 0];
        }
      } else {
        agentTurnCount := agentTurnCount[room := At(agentTurnCount, room, 0) + 1];
      }
    }

    /** Another participant's message against the turn limit. */
    method CountTurn(room: Id, f: Frame) returns (within: bool)
      modifies `agentTurnCount, `consecutiveTaskInit
      ensures RoomOf(room) == Counted(old(RoomOf(room)), Event(f, false, false), limits)
      ensures within == Passes(old(RoomOf(room)), Event(f, false, false), limits)
      ensures agentTurnCount - {room} == old(agentTurnCount) - {room}
      ensures consecutiveTaskInit - {room} == old(consecutiveTaskInit) - {room}
    {
      if f.query {
        var honoured := ConsumeTaskInitReset(room);
        if honoured {
          agentTurnCount := agentTurnCount[room := 0];
        }
      } else if f.nonce.Some? {
        var count := At(agentTurnCount, room, 0) + 1;
        agentTurnCount := agentTurnCount[room := count];
        if count > limits.agentTurns {
          return false;
        }
      } else {
        agentTurnCount, consecutiveTaskInit := agentTurnCount[room := 0], consecutiveTaskInit[room := 0];
      }
      return true;
    }

    /** Self filter, echo filter and turn counters. */
    method Screen(room: Id, f: Frame) returns (forward: bool)
      modifies `agentTurnCount, `consecutiveTaskInit, `sentNonces
      ensures RoomOf(room) == Counted(old(RoomOf(room)), Event(f, old(Own(f)), false), limits)
      ensures forward == Passes(old(RoomOf(room)), Event(f, old(Own(f)), false), limits)
      ensures agentTurnCount - {room} == old(agentTurnCount) - {room}
      ensures consecutiveTaskInit - {room} == old(consecutiveTaskInit) - {room}
      ensures sentNonces == if f.nonce.Some? && !SelfSent(f) then old(sentNonces) - {f.nonce.value} else old(sentNonces)
    {
      if SelfSent(f) {
        CountEcho(room, f);
        return false;
      }
      if f.nonce.Some? && f.nonce.value in sentNonces {
        sentNonces := sentNonces - {f.nonce.value};
        CountEcho(room, f);
        return false;
      }
      forward := CountTurn(room, f);
    }

    /** A durable turn's context follows its newest leased attempt. */
    method AdoptTurn(f: Frame) returns (current: bool)
      modifies `turnContext
      ensures current == !Superseded(old(turnContext), f) && turnContext == Adopted(old(turnContext), f)
      ensures !current <==>
        && f.request.Some? && f.attempt.Some? && f.request.value in old(turnContext)
        && old(turnContext)[f.request.value].attempt.Some? && f.attempt.value < old(turnContext)[f.request.value].attempt.value
    {
      if f.request.Some? {
        var incoming, previous := Turn(f.attempt, f.lease), At(turnContext, f.request.value, Turn(None, None));
        if previous.attempt.Some? && incoming.attempt.Some? && previous.attempt.value > incoming.attempt.value {
          return false;
        }
        if Leased(incoming) || !Leased(previous) {
          turnContext := turnContext[f.request.value := incoming];
        }
      }
      return true;
    }

    /** The replay filter, then the turn's context. */
    method Deliver(room: Id, f: Frame) returns (dispatched: bool)
      requires Valid()
      modifies `seenSeqs, `seenSeqOrder, `accepted, `turnContext
      ensures Valid()
      ensures var h := At(old(accepted), room, []);
        && dispatched == (!Seen(h, f.DedupKey()) && !Superseded(old(turnContext), f))
        && At(accepted, room, []) == Marked(h, f.DedupKey())
        && turnContext == if Seen(h, f.DedupKey()) then old(turnContext) else Adopted(old(turnContext), f)
      ensures accepted - {room} == old(accepted) - {room}
    {
      var seen := MarkSeqSeen(room, f.DedupKey());
      if seen {
        return false;
      }
      dispatched := AdoptTurn(f);
    }

    /** Filters, counters and turn context: whether the message reaches the handlers,
        and its room and the turn contexts afterwards; no other room is touched. */
    method Handle(room: Id, f: Frame) returns (dispatched: bool)
      requires Valid()
      modifies `agentTurnCount, `consecutiveTaskInit, `sentNonces, `seenSeqs, `seenSeqOrder, `accepted, `turnContext
      ensures Valid()
      ensures var e := Event(f, old(Own(f)), Superseded(old(turnContext), f));
        && dispatched == Dispatched(old(RoomOf(room)), e, limits)
        && RoomOf(room) == After(old(RoomOf(room)), e, limits)
        && turnContext == if Passes(old(RoomOf(room)), e, limits) && !Seen(old(RoomOf(room)).accepted, f.DedupKey())
                          then Adopted(old(turnContext), f) else old(turnContext)
      ensures agentTurnCount - {room} == old(agentTurnCount) - {room} && accepted - {room} == old(accepted) - {room}
      ensures consecutiveTaskInit - {room} == old(consecutiveTaskInit) - {room}
      ensures sentNonces == if f.nonce.Some? && !SelfSent(f) then old(sentNonces) - {f.nonce.value} else old(sentNonces)
    {
      dispatched := Screen(room, f);
      if dispatched {
        dispatched := Deliver(room, f);
      }
    }

    /** A message frame: the cursor first, then everything else. */
    method ProcessMessage(room: Id, f: Frame) returns (dispatched: bool)
      requires Valid()
      modifies this
      ensures Valid()
      ensures var e := Event(f, old(Own(f)), Superseded(old(turnContext), f));
        && dispatched == Dispatched(old(RoomOf(room)), e, limits)
        && RoomOf(room) == After(old(RoomOf(room)), e, limits)
        && turnContext == if Passes(old(RoomOf(room)), e, limits) && !Seen(old(RoomOf(room)).accepted, f.DedupKey())
                          then Adopted(old(turnContext), f) else old(turnContext)
      ensures agentTurnCount - {room} == old(agentTurnCount) - {room} && accepted - {room} == old(accepted) - {room}
      ensures consecutiveTaskInit - {room} == old(consecutiveTaskInit) - {room} && lastSeq - {room} == old(lastSeq) - {room}
      ensures old(Own(f)) <==>
        || (f.sender.Some? && f.sender.value in old(myParticipantIds) && !f.leasedTask)
        || (f.nonce.Some? && f.nonce.value in old(sentNonces))
      ensures At(lastSeq, room, 0) == if f.number > At(old(lastSeq), room, 0) then f.number else At(old(lastSeq), room, 0)
      ensures myParticipantIds == old(myParticipantIds)
      ensures sentNonces == if f.nonce.Some? && !SelfSent(f) then old(sentNonces) - {f.nonce.value} else old(sentNonces)
    {
      NoteSeq(room, f.number);
      dispatched := Handle(room, f);
    }
  }
}

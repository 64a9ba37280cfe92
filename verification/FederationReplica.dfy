/** An ordered replica of the channel's log, and the whole system: one authority,
    its participant administration, and a follower that sees duplicates, gaps,
    reorderings and forged traffic from other nodes. */
module FederationReplica {
  import opened Wrappers
  import opened FederationTypes
  import opened FederationPolicy
  import opened FederationHistory

  datatype FollowerAnswer = Took | Known | Declined(code: Code)

  datatype Mirror = Mirror(cursor: int, events: map<EventId, Event>, sequences: map<int, EventId>,
                           participants: map<Principal, Membership>)

  /** The envelope agrees with the request and receipt (or local actor) inside it. */
  predicate Intact(authority: Uuid, e: Event) {
    match e
    case ParticipantEvent(_, _, _, _, actor, _, _) => actor.node == authority
    case CommandEvent(id, a, ch, n, m, r) =>
      && a == m.authority == r.authority && ch == m.channel == r.channel
      && id == r.eventId && n == r.seqNo && m.request == r.request
  }

  /** The replica's answer to one delivery; None stands for bytes that fail the
      event schema. */
  function AnswerDelivery(authority: Uuid, channel: Uuid, f: Mirror, delivery: Option<Event>, node: Uuid, canRead: bool)
    : FollowerAnswer
  {
    if delivery.None? then Declined(InvalidSchema)
    else
      var e := delivery.value;
      if node != authority || e.authority != authority then Declined(IdentityMismatch)
      else if e.channel != channel || !canRead then Declined(ChannelDenied)
      else if !Intact(authority, e) then Declined(EventIntegrity)
      else if e.eventId in f.events then (if f.events[e.eventId] == e then Known else Declined(EventIntegrity))
      else if e.seqNo in f.sequences then Declined(EventIntegrity)
      else if e.seqNo != f.cursor + 1 then Declined(EventGap)
      else if e.ParticipantEvent? && e.membership.revision != RevisionOf(f.participants, e.principal) + 1
      then Declined(RevisionConflict)
      else Took
  }

  function Took1(f: Mirror, e: Event): Mirror {
    Mirror(e.seqNo, f.events[e.eventId := e], f.sequences[e.seqNo := e.eventId],
           if e.ParticipantEvent? then f.participants[e.principal := e.membership] else f.participants)
  }

  class Follower {
    const authority: Uuid
    const channel: Uuid
    var cursor: int
    var events: map<EventId, Event>
    var sequences: map<int, EventId>
    var participants: map<Principal, Membership>

    constructor (authority: Uuid, channel: Uuid)
      ensures this.authority == authority && this.channel == channel
      ensures State() == Mirror(0, map[], map[], map[])
    {
      this.authority, this.channel := authority, channel;
      cursor, events, sequences, participants := 0, map[], map[], map[];
    }

    ghost function State(): Mirror
      reads this
    {
      Mirror(cursor, events, sequences, participants)
    }

    method Apply(delivery: Option<Event>, node: Uuid, canRead: bool) returns (a: FollowerAnswer)
      modifies this
      ensures a == AnswerDelivery(authority, channel, old(State()), delivery, node, canRead)
      ensures State() == if a == Took then Took1(old(State()), delivery.value) else old(State())
      ensures !canRead || node != authority ==> a.Declined? && State() == old(State())
      ensures delivery.Some? && node == authority && delivery.value.authority == authority ==>
                (!canRead || delivery.value.channel != channel ==> a == Declined(ChannelDenied))
      ensures a == Took ==> canRead && cursor == old(cursor) + 1 == delivery.value.seqNo
    {
      if delivery.None? { return Declined(InvalidSchema); }
      var e := delivery.value;
      if node != authority || e.authority != authority { return Declined(IdentityMismatch); }
      if e.channel != channel || !canRead { return Declined(ChannelDenied); }
      if e.ParticipantEvent? {
        if e.actor.node != authority { return Declined(EventIntegrity); }
      } else {
        var m, r := e.request, e.receipt;
        if e.authority != m.authority || e.authority != r.authority { return Declined(EventIntegrity); }
        if e.channel != m.channel || e.channel != r.channel { return Declined(EventIntegrity); }
        if e.eventId != r.eventId || e.seqNo != r.seqNo || m.request != r.request { return Declined(EventIntegrity); }
      }
      if e.eventId in events {
        return if events[e.eventId] == e then Known else Declined(EventIntegrity);
      }
      if e.seqNo in sequences { return Declined(EventIntegrity); }
      if e.seqNo != cursor + 1 { return Declined(EventGap); }
      if e.ParticipantEvent? {
        var revision := if e.principal in participants then participants[e.principal].revision else 0;
        if e.membership.revision != revision + 1 { return Declined(RevisionConflict); }
        participants := participants[e.principal := e.membership];
      }
      events := events[e.eventId := e];
      sequences := sequences[e.seqNo := e.eventId];
      cursor := e.seqNo;
      return Took;
    }
  }

  // ── What the replica holds ────────────────────────────────────────

  const BLANK := Mirror(0, map[], map[], map[])

  function MirrorOf(log: seq<Event>): Mirror {
    if log == [] then BLANK else Took1(MirrorOf(log[..|log| - 1]), log[|log| - 1])
  }

  /** The replica is a copy of the first `cursor` entries of *log*. */
  ghost predicate Mirrors(f: Mirror, log: seq<Event>) {
    0 <= f.cursor <= |log| && f == MirrorOf(log[..f.cursor])
  }

  /** Entry i is kept under its id and its number; no other ids or numbers are kept. */
  ghost predicate Exact(f: Mirror, log: seq<Event>) {
    && f.cursor == |log|
    && (forall n :: n in f.sequences <==> 1 <= n <= |log|)
    && (forall i :: 0 <= i < |log| ==> f.sequences[i + 1] == log[i].eventId)
    && (forall i :: 0 <= i < |log| ==> log[i].eventId in f.events && f.events[log[i].eventId] == log[i])
    && (forall id :: id in f.events ==> HasId(log, id))
  }

  ghost predicate HasId(log: seq<Event>, id: EventId) {
    exists i :: 0 <= i < |log| && log[i].eventId == id
  }

  lemma TakingKeepsEntries(f: Mirror, log: seq<Event>, n: nat)
    requires |log| == n + 1 && Exact(f, log[..n]) && log[n].seqNo == n + 1
    requires forall i :: 0 <= i < n ==> log[i].eventId != log[n].eventId
    ensures var t := Took1(f, log[n]);
      && (forall k :: k in t.sequences <==> 1 <= k <= |log|)
      && (forall i :: 0 <= i < |log| ==> t.sequences[i + 1] == log[i].eventId)
      && (forall i :: 0 <= i < |log| ==> log[i].eventId in t.events && t.events[log[i].eventId] == log[i])
  {
    forall i | 0 <= i < n ensures log[..n][i] == log[i] {
    }
  }

  lemma TakingKeepsExact(f: Mirror, log: seq<Event>, n: nat)
    requires |log| == n + 1 && Exact(f, log[..n]) && log[n].seqNo == n + 1
    requires forall i :: 0 <= i < n ==> log[i].eventId != log[n].eventId
    ensures Exact(Took1(f, log[n]), log)
  {
    TakingKeepsEntries(f, log, n);
    forall id | id in Took1(f, log[n]).events ensures HasId(log, id) {
      if id != log[n].eventId {
        HasIdLater(log, n, id);
      }
    }
  }

  lemma HasIdLater(log: seq<Event>, n: nat, id: EventId)
    requires n <= |log| && HasId(log[..n], id)
    ensures HasId(log, id)
  {
    var i :| 0 <= i < n && log[..n][i].eventId == id;
    assert log[i].eventId == id;
  }

  lemma {:induction false} CopyHasTheMembers(log: seq<Event>)
    ensures MirrorOf(log).participants == Members(log)
    decreases |log|
  {
    if log != [] {
      CopyHasTheMembers(log[..|log| - 1]);
    }
  }

  /** A copy of a genuine log keeps every entry under its number and its id. */
  lemma {:induction false} CopyIsExact(authority: Uuid, channel: Uuid, log: seq<Event>)
    requires Genuine(authority, channel, log)
    ensures Exact(MirrorOf(log), log)
    decreases |log|
  {
    if log != [] {
      var n: nat := |log| - 1;
      CopyIsExact(authority, channel, log[..n]);
      CopyOneMore(authority, channel, log, n, MirrorOf(log[..n]));
    }
  }

  lemma CopyOneMore(authority: Uuid, channel: Uuid, log: seq<Event>, n: nat, f: Mirror)
    requires Genuine(authority, channel, log) && |log| == n + 1 && Exact(f, log[..n])
    ensures Exact(Took1(f, log[n]), log)
  {
    LogIsNumberedAndDistinct(authority, channel, log);
    TakingKeepsExact(f, log, n);
  }

  lemma GenuineIsIntact(authority: Uuid, channel: Uuid, log: seq<Event>, i: nat)
    requires Genuine(authority, channel, log) && i < |log|
    ensures log[i].authority == authority && log[i].channel == channel && Intact(authority, log[i])
    ensures log[i].seqNo == i + 1
    ensures log[i].ParticipantEvent? ==> log[i].membership.revision == RevisionOf(Members(log[..i]), log[i].principal) + 1
  {
    GenuinePrefix(authority, channel, log, i);
  }

  lemma NotYetCopied(f: Mirror, log: seq<Event>, i: nat)
    requires 0 <= f.cursor <= i < |log| && Exact(f, log[..f.cursor])
    requires forall j, k :: 0 <= j < k < |log| ==> log[j].eventId != log[k].eventId
    ensures log[i].eventId !in f.events && i + 1 !in f.sequences
  {
    forall id | HasId(log[..f.cursor], id) ensures id != log[i].eventId {
      var j :| 0 <= j < f.cursor && log[..f.cursor][j].eventId == id;
    }
  }

  /** The answer to an event that is in order but for its number. */
  predicate Answers(authority: Uuid, channel: Uuid, f: Mirror, e: Event) {
    AnswerDelivery(authority, channel, f, Some(e), authority, true) ==
      if e.seqNo <= f.cursor then Known else if e.seqNo == f.cursor + 1 then Took else Declined(EventGap)
  }

  lemma RepeatedDelivery(authority: Uuid, channel: Uuid, f: Mirror, e: Event)
    requires e.authority == authority && e.channel == channel && Intact(authority, e)
    requires e.eventId in f.events && f.events[e.eventId] == e && e.seqNo <= f.cursor
    ensures Answers(authority, channel, f, e)
  {
  }

  lemma NewDelivery(authority: Uuid, channel: Uuid, f: Mirror, e: Event)
    requires e.authority == authority && e.channel == channel && Intact(authority, e)
    requires e.eventId !in f.events && e.seqNo !in f.sequences && e.seqNo > f.cursor
    requires e.ParticipantEvent? && e.seqNo == f.cursor + 1 ==> e.membership.revision == RevisionOf(f.participants, e.principal) + 1
    ensures Answers(authority, channel, f, e)
  {
  }

  /** A genuine delivery, with read access, is a duplicate, the next event or a
      gap exactly as its number is at most, one past or further past the cursor. */
  lemma GenuineDelivery(authority: Uuid, channel: Uuid, f: Mirror, log: seq<Event>, i: nat)
    requires Genuine(authority, channel, log) && Mirrors(f, log) && i < |log|
    ensures AnswerDelivery(authority, channel, f, Some(log[i]), authority, true) ==
      if log[i].seqNo <= f.cursor then Known
      else if log[i].seqNo == f.cursor + 1 then Took
      else Declined(EventGap)
  {
    GenuineIsIntact(authority, channel, log, i);
    MirrorIsExact(authority, channel, f, log);
    if i < f.cursor {
      assert log[..f.cursor][i] == log[i];
      RepeatedDelivery(authority, channel, f, log[i]);
    } else {
      LogIsNumberedAndDistinct(authority, channel, log);
      NotYetCopied(f, log, i);
      NewDelivery(authority, channel, f, log[i]);
    }
  }

  lemma MirrorIsExact(authority: Uuid, channel: Uuid, f: Mirror, log: seq<Event>)
    requires Genuine(authority, channel, log) && Mirrors(f, log)
    ensures Exact(f, log[..f.cursor]) && f.participants == Members(log[..f.cursor])
  {
    GenuinePrefix(authority, channel, log, f.cursor);
    CopyIsExact(authority, channel, log[..f.cursor]);
    CopyHasTheMembers(log[..f.cursor]);
  }

  lemma TakingKeepsMirror(authority: Uuid, channel: Uuid, f: Mirror, log: seq<Event>)
    requires Genuine(authority, channel, log) && Mirrors(f, log) && f.cursor < |log|
    ensures Mirrors(Took1(f, log[f.cursor]), log)
  {
    GenuineIsIntact(authority, channel, log, f.cursor);
    assert log[..f.cursor + 1][..f.cursor] == log[..f.cursor];
  }

  // ── The whole system ──────────────────────────────────────────────

  datatype System = System(log: seq<Event>, members: map<Principal, Membership>,
                           operations: map<Uuid, (Change, Principal)>,
                           observations: seq<Observation>, follower: Mirror)

  datatype Step =
    | Submit(c: Context, submission: Submission, node: Uuid)
    | Administer(c: Context, change: Change, actor: Principal, localAdmin: bool, publicationAllowed: bool)
    | Deliver(delivery: Option<Event>, node: Uuid, canRead: bool)

  const START := System([], map[], map[], [], BLANK)

  function AfterSubmit(s: System, c: Context, sub: Submission, node: Uuid): System {
    var p := Replay(s.log);
    var d := Respond(c, p, |s.log|, sub, node);
    s.(log := if d.Committed? then s.log + [EventOf(sub.command.value, d.receipt)] else s.log,
       observations := Noted(s.observations, NoteOf(c, p, sub, node)))
  }

  function AfterChange(s: System, c: Context, change: Change, actor: Principal, admin: bool, allowed: bool): System {
    if AnswerChange(c, s.members, s.operations, change, actor, admin, allowed) != Applied then s
    else
      var e := ChangeEvent(c.authority, c.channel, |s.log|, change, actor);
      s.(log := s.log + [e], members := s.members[change.principal := e.membership],
         operations := s.operations[change.operation := (change, actor)])
  }

  function AfterDelivery(authority: Uuid, channel: Uuid, s: System, delivery: Option<Event>, node: Uuid, canRead: bool): System {
    if AnswerDelivery(authority, channel, s.follower, delivery, node, canRead) != Took then s
    else s.(follower := Took1(s.follower, delivery.value))
  }

  function Next(authority: Uuid, channel: Uuid, s: System, step: Step): System {
    match step
    case Submit(c, sub, node) => AfterSubmit(s, c, sub, node)
    case Administer(c, change, actor, admin, allowed) => AfterChange(s, c, change, actor, admin, allowed)
    case Deliver(delivery, node, canRead) => AfterDelivery(authority, channel, s, delivery, node, canRead)
  }

  /** Policies keep the channel's identity; whatever arrives over the authority's
      own authenticated transport is one of its events. Everything else is free. */
  ghost predicate Fair(authority: Uuid, channel: Uuid, s: System, step: Step) {
    match step
    case Submit(c, _, _) => c.authority == authority && c.channel == channel
    case Administer(c, _, _, _, _) => c.authority == authority && c.channel == channel
    case Deliver(delivery, node, _) => node == authority && delivery.Some? ==> delivery.value in s.log
  }

  ghost predicate FairRun(authority: Uuid, channel: Uuid, s: System, steps: seq<Step>)
    decreases |steps|
  {
    steps == [] ||
    (Fair(authority, channel, s, steps[0]) && FairRun(authority, channel, Next(authority, channel, s, steps[0]), steps[1..]))
  }

  function Run(authority: Uuid, channel: Uuid, s: System, steps: seq<Step>): System
    decreases |steps|
  {
    if steps == [] then s else Run(authority, channel, Next(authority, channel, s, steps[0]), steps[1..])
  }

  ghost predicate Distinct(notes: seq<Observation>) {
    forall i, j :: 0 <= i < j < |notes| ==> notes[i] != notes[j]
  }

  ghost predicate Inv(authority: Uuid, channel: Uuid, s: System) {
    && Genuine(authority, channel, s.log)
    && s.members == Members(s.log)
    && s.operations.Keys == Operations(s.log)
    && Distinct(s.observations)
    && Mirrors(s.follower, s.log)
  }

  /** A good state whose log and cursor have moved forward, if at all. */
  ghost predicate Grows(authority: Uuid, channel: Uuid, s: System, t: System) {
    Inv(authority, channel, t) && s.log <= t.log && s.follower.cursor <= t.follower.cursor
  }

  lemma CommitKeepsInv(authority: Uuid, channel: Uuid, s: System, m: Command, r: Receipt)
    requires Inv(authority, channel, s) && m.authority == authority && m.channel == channel
    requires LawfulCommand(Replay(s.log), |s.log|, m, r)
    ensures Grows(authority, channel, s, s.(log := s.log + [EventOf(m, r)]))
  {
    var log := s.log + [EventOf(m, r)];
    CommandAppend(authority, channel, s.log, m, r);
    assert log[..s.follower.cursor] == s.log[..s.follower.cursor];
  }

  lemma SubmitKeepsInv(authority: Uuid, channel: Uuid, s: System, c: Context, sub: Submission, node: Uuid)
    requires Inv(authority, channel, s) && c.authority == authority && c.channel == channel
    ensures Grows(authority, channel, s, AfterSubmit(s, c, sub, node))
  {
    var d := Respond(c, Replay(s.log), |s.log|, sub, node);
    if d.Committed? {
      var m := sub.command.value;
      CommitsAreLawful(c, Replay(s.log), |s.log|, m, node);
      CommitKeepsInv(authority, channel, s, m, d.receipt);
    }
  }

  lemma ChangeKeepsInv(authority: Uuid, channel: Uuid, s: System, c: Context, change: Change, actor: Principal,
                       admin: bool, allowed: bool)
    requires Inv(authority, channel, s) && c.authority == authority && c.channel == channel
    ensures Grows(authority, channel, s, AfterChange(s, c, change, actor, admin, allowed))
  {
    if AnswerChange(c, s.members, s.operations, change, actor, admin, allowed) == Applied {
      var e := ChangeEvent(authority, channel, |s.log|, change, actor);
      ChangeAppend(authority, channel, s.log, change, actor);
      assert s.operations[change.operation := (change, actor)].Keys == s.operations.Keys + {change.operation};
      assert (s.log + [e])[..s.follower.cursor] == s.log[..s.follower.cursor];
    }
  }

  lemma DeliverKeepsInv(authority: Uuid, channel: Uuid, s: System, delivery: Option<Event>, node: Uuid, canRead: bool)
    requires Inv(authority, channel, s)
    requires node == authority && delivery.Some? ==> delivery.value in s.log
    ensures Grows(authority, channel, s, AfterDelivery(authority, channel, s, delivery, node, canRead))
  {
    if AnswerDelivery(authority, channel, s.follower, delivery, node, canRead) == Took {
      var i :| 0 <= i < |s.log| && s.log[i] == delivery.value;
      GenuineIsIntact(authority, channel, s.log, i);
      TakingKeepsMirror(authority, channel, s.follower, s.log);
    }
  }

  lemma StepKeepsInv(authority: Uuid, channel: Uuid, s: System, step: Step)
    requires Inv(authority, channel, s) && Fair(authority, channel, s, step)
    ensures Grows(authority, channel, s, Next(authority, channel, s, step))
  {
    match step
    case Submit(c, sub, node) =>
      SubmitKeepsInv(authority, channel, s, c, sub, node);
    case Administer(c, change, actor, admin, allowed) =>
      ChangeKeepsInv(authority, channel, s, c, change, actor, admin, allowed);
    case Deliver(delivery, node, canRead) =>
      DeliverKeepsInv(authority, channel, s, delivery, node, canRead);
  }

  /** Replica refinement: whatever the interleaving of commands, participant changes
      and deliveries, the log stays genuine, the authority's participants are the
      replay of the log, and the follower is its first `cursor` entries. */
  lemma {:induction false} ReplicaRefinesTheLog(authority: Uuid, channel: Uuid, s: System, steps: seq<Step>)
    requires Inv(authority, channel, s) && FairRun(authority, channel, s, steps)
    ensures Inv(authority, channel, Run(authority, channel, s, steps))
    ensures s.log <= Run(authority, channel, s, steps).log
    decreases |steps|
  {
    if steps != [] {
      StepKeepsInv(authority, channel, s, steps[0]);
      ReplicaRefinesTheLog(authority, channel, Next(authority, channel, s, steps[0]), steps[1..]);
    }
  }

  /** Every state a fair run reaches from an empty channel: a sound, numbered log
      without repeated ids, participants and operations that replay from it, and a
      follower whose committed events are exactly its first `cursor` entries. */
  lemma EveryReachableState(authority: Uuid, channel: Uuid, steps: seq<Step>)
    requires FairRun(authority, channel, START, steps)
    ensures var s := Run(authority, channel, START, steps);
      && Genuine(authority, channel, s.log) && Sound(Replay(s.log))
      && s.members == Members(s.log) && Distinct(s.observations)
      && 0 <= s.follower.cursor <= |s.log|
      && Exact(s.follower, s.log[..s.follower.cursor])
      && s.follower.participants == Members(s.log[..s.follower.cursor])
  {
    ReplicaRefinesTheLog(authority, channel, START, steps);
    var s := Run(authority, channel, START, steps);
    EveryLogIsSound(authority, channel, s.log);
    MirrorIsExact(authority, channel, s.follower, s.log);
  }

  /** *steps* delivers log[from..] in order, read access granted, among other steps. */
  ghost predicate Covers(authority: Uuid, steps: seq<Step>, log: seq<Event>, from: nat)
    decreases |steps|
  {
    || from >= |log|
    || (steps != [] && steps[0] == Deliver(Some(log[from]), authority, true) && Covers(authority, steps[1..], log, from + 1))
    || (steps != [] && Covers(authority, steps[1..], log, from))
  }

  lemma NextDeliveryAdvances(authority: Uuid, channel: Uuid, s: System, from: nat, log: seq<Event>)
    requires Inv(authority, channel, s) && Genuine(authority, channel, log) && s.log <= log && from < |log|
    requires from <= s.follower.cursor && log[from] in s.log
    ensures Next(authority, channel, s, Deliver(Some(log[from]), authority, true)).follower.cursor > from
  {
    var i :| 0 <= i < |s.log| && s.log[i] == log[from];
    LogIsNumberedAndDistinct(authority, channel, log);
    assert s.log[i] == log[i];
    GenuineDelivery(authority, channel, s.follower, s.log, i);
  }

  /** Convergence: a schedule that delivers the log in order as a subsequence, with
      anything interleaved, leaves the follower at the end of the log. */
  lemma {:induction false} CoveringSchedulesConverge(authority: Uuid, channel: Uuid, s: System, steps: seq<Step>, from: nat)
    requires Inv(authority, channel, s) && FairRun(authority, channel, s, steps)
    requires from <= s.follower.cursor
    requires Covers(authority, steps, Run(authority, channel, s, steps).log, from)
    ensures Run(authority, channel, s, steps).follower.cursor == |Run(authority, channel, s, steps).log|
    decreases |steps|
  {
    ReplicaRefinesTheLog(authority, channel, s, steps);
    var log := Run(authority, channel, s, steps).log;
    if steps != [] {
      var next := Next(authority, channel, s, steps[0]);
      StepKeepsInv(authority, channel, s, steps[0]);
      if from >= |log| {
        CoveringSchedulesConverge(authority, channel, next, steps[1..], from);
      } else if steps[0] == Deliver(Some(log[from]), authority, true) && Covers(authority, steps[1..], log, from + 1) {
        NextDeliveryAdvances(authority, channel, s, from, log);
        CoveringSchedulesConverge(authority, channel, next, steps[1..], from + 1);
      } else {
        CoveringSchedulesConverge(authority, channel, next, steps[1..], from);
      }
    }
  }
}

/** Properties of every log the two writers of a channel can produce. */
module FederationHistory {
  import opened Wrappers
  import opened FederationTypes
  import opened FederationPolicy

  // ── What every commit respects ────────────────────────────────────

  ghost predicate LawfulMove(r: Record, p: Payload, receipt: Receipt) {
    && r.state in From(p) && r.state !in FINAL
    && receipt.state == To(p) && receipt.revision == r.revision + 1 && receipt.process == ProcessAfter(p, r.process)
    && (p.Result? ==> r.execution == Some(p.execution))
  }

  /** The part of a commit that the log alone shows, whatever the policy was. */
  ghost predicate LawfulCommand(p: Projection, n: nat, m: Command, r: Receipt) {
    && KeyOf(m) !in p.receipts
    && r == ReceiptFor(m, n, r.revision, r.state, r.process)
    && match m.payload
       case Send(msg) =>
         && msg.id !in p.messages && r.state == MessageCommitted && r.process == NotApplicable && r.revision == 0
         && (msg.root.Some? ==> msg.root.value in p.messages && p.messages[msg.root.value].root.None?)
       case Request(did, _, task, source, _) =>
         && did !in p.delegations && task !in p.tasks && source in p.messages
         && r.state == Requested && r.revision == 1 && r.process == NotStarted
       case _ =>
         && m.payload.did in p.delegations
         && LawfulMove(p.delegations[m.payload.did], m.payload, r)
         && (m.actor == p.delegations[m.payload.did].executor.AsActor() || m.payload.Cancel?)
  }

  lemma CommitsAreLawful(c: Context, p: Projection, n: nat, m: Command, node: Uuid)
    requires Decide(c, p, n, m, node).Committed?
    ensures LawfulCommand(p, n, m, Decide(c, p, n, m, node).receipt)
    ensures m.authority == c.authority && m.channel == c.channel
  {
    if m.payload.Delegates() && !m.payload.Request? && m.payload.did in p.delegations {
      assert Objection(c, p.delegations[m.payload.did], m).None?;
    }
  }

  /** *e* extends *before* as one of the two writers would. */
  ghost predicate Lawful(authority: Uuid, channel: Uuid, before: seq<Event>, e: Event) {
    && e.authority == authority && e.channel == channel && e.seqNo == |before| + 1
    && match e
       case CommandEvent(_, _, _, _, m, r) =>
         && m.authority == authority && m.channel == channel
         && LawfulCommand(Replay(before), |before|, m, r) && e == EventOf(m, r)
       case ParticipantEvent(id, _, _, _, actor, who, membership) =>
         && actor.node == authority
         && membership.revision == RevisionOf(Members(before), who) + 1
         && id.fourth.Id? && id.fourth.uuid !in Operations(before)
         && id == ChangeEventId(authority, channel, id.fourth.uuid)
  }

  /** A log of genuine authority events. */
  ghost predicate Genuine(authority: Uuid, channel: Uuid, log: seq<Event>) {
    log == [] ||
    var before, e := log[..|log| - 1], log[|log| - 1];
    Genuine(authority, channel, before) && Lawful(authority, channel, before, e)
  }

  lemma GenuineAppend(authority: Uuid, channel: Uuid, log: seq<Event>, e: Event)
    requires Genuine(authority, channel, log) && Lawful(authority, channel, log, e)
    ensures Genuine(authority, channel, log + [e])
  {
    assert (log + [e])[..|log|] == log;
  }

  lemma {:induction false} GenuinePrefix(authority: Uuid, channel: Uuid, log: seq<Event>, n: nat)
    requires Genuine(authority, channel, log) && n <= |log|
    ensures Genuine(authority, channel, log[..n])
    ensures n < |log| ==> Lawful(authority, channel, log[..n], log[n])
    decreases |log|
  {
    if n < |log| {
      assert log[..|log| - 1][..n] == log[..n];
      GenuinePrefix(authority, channel, log[..|log| - 1], n);
    } else {
      assert log[..n] == log;
    }
  }

  lemma CommandAppend(authority: Uuid, channel: Uuid, log: seq<Event>, m: Command, r: Receipt)
    requires Genuine(authority, channel, log) && m.authority == authority && m.channel == channel
    requires LawfulCommand(Replay(log), |log|, m, r)
    ensures Genuine(authority, channel, log + [EventOf(m, r)])
    ensures Replay(log + [EventOf(m, r)]) == Fold(Replay(log), EventOf(m, r))
    ensures Members(log + [EventOf(m, r)]) == Members(log) && Operations(log + [EventOf(m, r)]) == Operations(log)
  {
    GenuineAppend(authority, channel, log, EventOf(m, r));
    ReplayAppend(log, EventOf(m, r));
  }

  lemma ChangeAppend(authority: Uuid, channel: Uuid, log: seq<Event>, change: Change, actor: Principal)
    requires Genuine(authority, channel, log) && actor.node == authority
    requires change.operation !in Operations(log) && change.expected == RevisionOf(Members(log), change.principal)
    ensures var e := ChangeEvent(authority, channel, |log|, change, actor);
      && Genuine(authority, channel, log + [e]) && Replay(log + [e]) == Replay(log)
      && Members(log + [e]) == Members(log)[e.principal := e.membership]
      && Operations(log + [e]) == Operations(log) + {change.operation}
  {
    var e := ChangeEvent(authority, channel, |log|, change, actor);
    GenuineAppend(authority, channel, log, e);
    ReplayAppend(log, e);
  }

  // ── Receipts and event ids ────────────────────────────────────────

  /** Receipts are write-once: every committed command still has its first one. */
  lemma {:induction false} ReceiptsAreWriteOnce(authority: Uuid, channel: Uuid, log: seq<Event>, i: nat)
    requires Genuine(authority, channel, log) && i < |log| && log[i].CommandEvent?
    ensures KeyOf(log[i].request) in Replay(log).receipts
    ensures Replay(log).receipts[KeyOf(log[i].request)] == (log[i].request, log[i].receipt)
    decreases |log|
  {
    var n := |log| - 1;
    if i < n {
      assert log[..n][i] == log[i];
      ReceiptsAreWriteOnce(authority, channel, log[..n], i);
    }
  }

  /** An authorised retry of a committed command gets its first receipt back,
      however far its delegation has moved and whatever the policy is now. */
  lemma RetryReturnsTheFirstReceipt(c: Context, authority: Uuid, channel: Uuid, log: seq<Event>, i: nat, node: Uuid)
    requires Genuine(authority, channel, log) && i < |log| && log[i].CommandEvent?
    requires Admission(c, log[i].request, node).None?
    ensures Decide(c, Replay(log), |log|, log[i].request, node) == Duplicate(log[i].receipt)
  {
    ReceiptsAreWriteOnce(authority, channel, log, i);
  }

  lemma {:induction false} OperationsAreKept(authority: Uuid, channel: Uuid, log: seq<Event>, i: nat)
    requires Genuine(authority, channel, log) && i < |log| && log[i].ParticipantEvent?
    ensures log[i].eventId.fourth.Id? && log[i].eventId.fourth.uuid in Operations(log)
    decreases |log|
  {
    var n := |log| - 1;
    if i < n {
      assert log[..n][i] == log[i];
      OperationsAreKept(authority, channel, log[..n], i);
    }
  }

  lemma DistinctIds(authority: Uuid, channel: Uuid, log: seq<Event>, i: nat, j: nat)
    requires Genuine(authority, channel, log) && i < j < |log|
    ensures log[i].eventId != log[j].eventId
  {
    GenuinePrefix(authority, channel, log, i);
    GenuinePrefix(authority, channel, log, j);
    assert log[i] == log[..j][i];
    if log[i].CommandEvent? {
      ReceiptsAreWriteOnce(authority, channel, log[..j], i);
    } else {
      OperationsAreKept(authority, channel, log[..j], i);
    }
  }

  /** Entry i of every log has number i + 1, and no two entries share an id. */
  lemma LogIsNumberedAndDistinct(authority: Uuid, channel: Uuid, log: seq<Event>)
    requires Genuine(authority, channel, log)
    ensures forall i :: 0 <= i < |log| ==> log[i].seqNo == i + 1
    ensures forall i, j :: 0 <= i < j < |log| ==> log[i].eventId != log[j].eventId
  {
    forall i | 0 <= i < |log| ensures log[i].seqNo == i + 1 {
      GenuinePrefix(authority, channel, log, i);
    }
    forall i, j | 0 <= i < j < |log| ensures log[i].eventId != log[j].eventId {
      DistinctIds(authority, channel, log, i, j);
    }
  }

  // ── Threads, reservations and delegation history ──────────────────

  const DOUBTED: set<State> := {CancelRequested, Cancelled, Unknown}

  ghost predicate ThreadsAreFlat(messages: map<Uuid, Message>) {
    forall m :: m in messages && messages[m].root.Some? ==>
      messages[m].root.value in messages && messages[messages[m].root.value].root.None?
  }

  /** Task reservations and live (non-rejected) delegations are in bijection. */
  ghost predicate ReservationsMatch(tasks: map<Uuid, Uuid>, delegations: map<Uuid, Record>) {
    && (forall t :: t in tasks ==> tasks[t] in delegations && delegations[tasks[t]].state != Rejected)
    && (forall d :: d in delegations && delegations[d].state != Rejected ==> d in tasks.Values)
    && (forall t, u :: t in tasks && u in tasks && tasks[t] == tasks[u] ==> t == u)
  }

  ghost predicate UnboundUntilAccepted(delegations: map<Uuid, Record>) {
    forall d :: d in delegations && delegations[d].state == Requested ==> delegations[d].execution.None?
  }

  ghost predicate Sound(p: Projection) {
    && ThreadsAreFlat(p.messages)
    && ReservationsMatch(p.tasks, p.delegations)
    && UnboundUntilAccepted(p.delegations)
  }

  /** How a record may differ from an earlier one of the same delegation. */
  ghost predicate Succeeds(r: Record, later: Record) {
    && later.requester == r.requester && later.executor == r.executor
    && later.revision >= r.revision
    && (r.execution.Some? ==> later.execution == r.execution)
    && (r.state in FINAL ==> later == r)
    && (r.state in DOUBTED ==> later.state in DOUBTED)
  }

  ghost predicate Extends(p: Projection, q: Projection) {
    && (forall m :: m in p.messages ==> m in q.messages && q.messages[m] == p.messages[m])
    && (forall d :: d in p.delegations ==> d in q.delegations && Succeeds(p.delegations[d], q.delegations[d]))
  }

  lemma RequestKeepsReservations(tasks: map<Uuid, Uuid>, delegations: map<Uuid, Record>, t: Uuid, d: Uuid, r: Record)
    requires ReservationsMatch(tasks, delegations) && t !in tasks && d !in delegations && r.state != Rejected
    ensures ReservationsMatch(tasks[t := d], delegations[d := r])
  {
    var tasks', delegations' := tasks[t := d], delegations[d := r];
    forall x | x in delegations' && delegations'[x].state != Rejected ensures x in tasks'.Values {
      var u :| if x == d then u == t else u in tasks && tasks[u] == x;
      assert u in tasks' && tasks'[u] == x;
    }
  }

  lemma MoveKeepsReservations(tasks: map<Uuid, Uuid>, delegations: map<Uuid, Record>, d: Uuid, r: Record)
    requires ReservationsMatch(tasks, delegations) && d in delegations && delegations[d].state != Rejected
    ensures ReservationsMatch(if r.state == Rejected then Release(tasks, d) else tasks, delegations[d := r])
  {
    var tasks' := if r.state == Rejected then Release(tasks, d) else tasks;
    forall x | x in delegations[d := r] && delegations[d := r][x].state != Rejected ensures x in tasks'.Values {
      assert x in tasks.Values;
      var u :| u in tasks && tasks[u] == x;
      assert u in tasks' && tasks'[u] == x;
    }
  }

  lemma SendKeepsThreads(messages: map<Uuid, Message>, msg: Message)
    requires ThreadsAreFlat(messages) && msg.id !in messages
    requires msg.root.Some? ==> msg.root.value in messages && messages[msg.root.value].root.None?
    ensures ThreadsAreFlat(messages[msg.id := msg])
  {
  }

  /** What one step of a delegation's own record keeps. */
  lemma MoveSucceeds(r: Record, p: Payload, receipt: Receipt, later: Record)
    requires p.Delegates() && LawfulMove(r, p, receipt)
    requires r.state == Requested ==> r.execution.None?
    requires later == r.(state := receipt.state, revision := receipt.revision, process := receipt.process,
                         execution := if p.Accept? then Some(p.execution) else r.execution)
    ensures Succeeds(r, later) && later.state != Requested && r.state != Rejected
  {
  }

  lemma UpdateExtends(delegations: map<Uuid, Record>, d: Uuid, r: Record)
    requires UnboundUntilAccepted(delegations) && (r.state == Requested ==> r.execution.None?)
    requires d in delegations ==> Succeeds(delegations[d], r)
    ensures UnboundUntilAccepted(delegations[d := r])
    ensures forall x :: x in delegations ==> Succeeds(delegations[x], delegations[d := r][x])
  {
  }

  lemma CommitKeepsSound(p: Projection, n: nat, m: Command, r: Receipt)
    requires Sound(p) && LawfulCommand(p, n, m, r)
    ensures Sound(Fold(p, EventOf(m, r)))
    ensures Extends(p, Fold(p, EventOf(m, r)))
  {
    var q := Fold(p, EventOf(m, r));
    if m.payload.Send? {
      SendKeepsThreads(p.messages, m.payload.message);
      assert q.delegations == p.delegations && q.tasks == p.tasks;
    } else if m.payload.Request? {
      var record := Record(r.state, r.revision, m.actor, m.payload.executor, None, r.process);
      RequestKeepsReservations(p.tasks, p.delegations, m.payload.task, m.payload.did, record);
      UpdateExtends(p.delegations, m.payload.did, record);
    } else {
      MoveKeepsSound(p, m, r);
    }
  }

  lemma MoveKeepsSound(p: Projection, m: Command, r: Receipt)
    requires Sound(p) && m.payload.Delegates() && !m.payload.Request? && m.payload.did in p.delegations
    requires LawfulMove(p.delegations[m.payload.did], m.payload, r)
    ensures Sound(Fold(p, EventOf(m, r)))
    ensures Extends(p, Fold(p, EventOf(m, r)))
  {
    var did, q := m.payload.did, Fold(p, EventOf(m, r));
    var was := p.delegations[did];
    var record := was.(state := r.state, revision := r.revision, process := r.process,
                       execution := if m.payload.Accept? then Some(m.payload.execution) else was.execution);
    assert q.messages == p.messages && q.delegations == p.delegations[did := record];
    assert q.tasks == if record.state == Rejected then Release(p.tasks, did) else p.tasks;
    MoveSucceeds(was, m.payload, r, record);
    MoveKeepsReservations(p.tasks, p.delegations, did, record);
    UpdateExtends(p.delegations, did, record);
  }

  lemma EntryKeepsSound(authority: Uuid, channel: Uuid, before: seq<Event>, e: Event)
    requires Sound(Replay(before)) && Lawful(authority, channel, before, e)
    ensures Sound(Fold(Replay(before), e)) && Extends(Replay(before), Fold(Replay(before), e))
  {
    if e.CommandEvent? {
      CommitKeepsSound(Replay(before), |before|, e.request, e.receipt);
    }
  }

  lemma Chain(p: Projection, q: Projection, r: Projection)
    requires Extends(p, q) && Extends(q, r)
    ensures Extends(p, r)
  {
    forall d | d in p.delegations ensures d in r.delegations && Succeeds(p.delegations[d], r.delegations[d]) {
      assert Succeeds(p.delegations[d], q.delegations[d]) && Succeeds(q.delegations[d], r.delegations[d]);
    }
  }

  /** In every log, each thread is one level deep and the reservations are exactly
      those of the live delegations. */
  lemma {:induction false} EveryLogIsSound(authority: Uuid, channel: Uuid, log: seq<Event>)
    requires Genuine(authority, channel, log)
    ensures Sound(Replay(log))
    decreases |log|
  {
    if log != [] {
      var n := |log| - 1;
      EveryLogIsSound(authority, channel, log[..n]);
      EntryKeepsSound(authority, channel, log[..n], log[n]);
    }
  }

  /** Completed, failed, cancelled and rejected are absorbing; after a cancel or an
      unknown a delegation never completes or fails; an execution is bound at most
      once; messages, requesters and executors never change. */
  lemma {:induction false} HistoryOnlyExtends(authority: Uuid, channel: Uuid, log: seq<Event>, i: nat)
    requires Genuine(authority, channel, log) && i <= |log|
    ensures Extends(Replay(log[..i]), Replay(log))
    decreases |log|
  {
    var n := |log| - 1;
    if i == |log| {
      assert log[..i] == log;
    } else {
      HistoryOnlyExtends(authority, channel, log[..n], i);
      assert log[..n][..i] == log[..i];
      EveryLogIsSound(authority, channel, log[..n]);
      EntryKeepsSound(authority, channel, log[..n], log[n]);
      Chain(Replay(log[..i]), Replay(log[..n]), Replay(log));
    }
  }

  predicate Concerns(e: Event, did: Uuid) {
    e.CommandEvent? && e.request.payload.Delegates() && e.request.payload.did == did
  }

  function CountFor(log: seq<Event>, did: Uuid): nat {
    if log == [] then 0
    else CountFor(log[..|log| - 1], did) + if Concerns(log[|log| - 1], did) then 1 else 0
  }

  /** A delegation's revision counts its committed events, so those events carry
      revisions 1, 2, 3, ... in log order. */
  lemma {:induction false} RevisionsCountEvents(authority: Uuid, channel: Uuid, log: seq<Event>, did: Uuid)
    requires Genuine(authority, channel, log)
    ensures did in Replay(log).delegations <==> CountFor(log, did) > 0
    ensures did in Replay(log).delegations ==> Replay(log).delegations[did].revision == CountFor(log, did)
    ensures log != [] && Concerns(log[|log| - 1], did) ==> log[|log| - 1].receipt.revision == CountFor(log, did)
    decreases |log|
  {
    if log != [] {
      RevisionsCountEvents(authority, channel, log[..|log| - 1], did);
    }
  }

  predicate IsRequest(e: Event) {
    e.CommandEvent? && e.request.payload.Request?
  }

  ghost predicate Reserved(p: Projection, request: Payload)
    requires request.Request?
  {
    && request.source in p.messages && request.did in p.delegations
    && (p.delegations[request.did].state != Rejected ==>
          request.task in p.tasks && p.tasks[request.task] == request.did)
  }

  lemma CommitKeepsReserved(p: Projection, n: nat, m: Command, r: Receipt, request: Payload)
    requires request.Request? && Reserved(p, request) && LawfulCommand(p, n, m, r)
    ensures Reserved(Fold(p, EventOf(m, r)), request)
  {
    if m.payload.Delegates() && !m.payload.Request? && m.payload.did == request.did {
      assert LawfulMove(p.delegations[request.did], m.payload, r);
    }
  }

  /** While a requested delegation is not rejected its task stays reserved for it,
      and the message it was requested from still exists. */
  lemma {:induction false} ReservationHolds(authority: Uuid, channel: Uuid, log: seq<Event>, i: nat)
    requires Genuine(authority, channel, log) && i < |log| && IsRequest(log[i])
    ensures Reserved(Replay(log), log[i].request.payload)
    decreases |log|
  {
    var n := |log| - 1;
    if i < n {
      assert log[..n][i] == log[i];
      ReservationHolds(authority, channel, log[..n], i);
      if log[n].CommandEvent? {
        CommitKeepsReserved(Replay(log[..n]), n, log[n].request, log[n].receipt, log[i].request.payload);
      }
    }
  }

  /** A task is reserved again only after the earlier delegation was rejected, and
      under a delegation id that no earlier event used. */
  lemma ReservedAgainOnlyAfterRejection(authority: Uuid, channel: Uuid, log: seq<Event>, i: nat, j: nat)
    requires Genuine(authority, channel, log) && i < j < |log| && IsRequest(log[i]) && IsRequest(log[j])
    requires log[i].request.payload.task == log[j].request.payload.task
    ensures log[i].request.payload.did in Replay(log[..j]).delegations
    ensures Replay(log[..j]).delegations[log[i].request.payload.did].state == Rejected
    ensures CountFor(log[..j], log[j].request.payload.did) == 0
  {
    GenuinePrefix(authority, channel, log, j);
    assert log[..j][i] == log[i];
    ReservationHolds(authority, channel, log[..j], i);
    RevisionsCountEvents(authority, channel, log[..j], log[j].request.payload.did);
  }

  /** Every reservation goes back to a request for that task in the log. */
  lemma {:induction false} ReservationsWereRequested(authority: Uuid, channel: Uuid, log: seq<Event>, task: Uuid) returns (i: nat)
    requires Genuine(authority, channel, log) && task in Replay(log).tasks
    ensures i < |log| && IsRequest(log[i])
    ensures log[i].request.payload.task == task && log[i].request.payload.did == Replay(log).tasks[task]
    decreases |log|
  {
    var n := |log| - 1;
    var before := Replay(log[..n]);
    if IsRequest(log[n]) && log[n].request.payload.task == task {
      return n;
    }
    assert task in before.tasks && before.tasks[task] == Replay(log).tasks[task];
    i := ReservationsWereRequested(authority, channel, log[..n], task);
  }

  /** Every delegation that was ever requested for *task* has been rejected. */
  ghost predicate AllRejected(log: seq<Event>, task: Uuid) {
    forall i :: 0 <= i < |log| && IsRequest(log[i]) && log[i].request.payload.task == task ==>
      var did := log[i].request.payload.did;
      did in Replay(log).delegations && Replay(log).delegations[did].state == Rejected
  }

  lemma FreeExactlyWhenRejected(authority: Uuid, channel: Uuid, log: seq<Event>, task: Uuid)
    requires Genuine(authority, channel, log)
    ensures task !in Replay(log).tasks <==> AllRejected(log, task)
  {
    EveryLogIsSound(authority, channel, log);
    if task in Replay(log).tasks {
      var i := ReservationsWereRequested(authority, channel, log, task);
    } else {
      forall i | 0 <= i < |log| && IsRequest(log[i]) && log[i].request.payload.task == task
        ensures var did := log[i].request.payload.did;
          did in Replay(log).delegations && Replay(log).delegations[did].state == Rejected
      {
        ReservationHolds(authority, channel, log, i);
      }
    }
  }

  /** An admitted new request in good order is granted exactly when no earlier event
      used its delegation id and every earlier delegation of its task was rejected;
      granted, it reserves the task. */
  lemma ReservedAgainExactlyAfterRejection(c: Context, log: seq<Event>, m: Command, node: Uuid)
    requires Genuine(c.authority, c.channel, log) && m.payload.Request?
    requires Admission(c, m, node).None? && KeyOf(m) !in Replay(log).receipts
    requires m.payload.expected == 0 && m.payload.source in Replay(log).messages
    requires m.payload.task in c.taskSources && c.taskSources[m.payload.task] == m.payload.source
    ensures var d := Decide(c, Replay(log), |log|, m, node);
      && (d.Committed? <==> CountFor(log, m.payload.did) == 0 && AllRejected(log, m.payload.task))
      && (d.Committed? ==>
            var after := Replay(log + [EventOf(m, d.receipt)]);
            m.payload.task in after.tasks && after.tasks[m.payload.task] == m.payload.did)
  {
    FreeExactlyWhenRejected(c.authority, c.channel, log, m.payload.task);
    RevisionsCountEvents(c.authority, c.channel, log, m.payload.did);
    var d := Decide(c, Replay(log), |log|, m, node);
    if d.Committed? {
      ReplayAppend(log, EventOf(m, d.receipt));
    }
  }

  // ── Cancel and unknown may alternate ──────────────────────────────

  /** The command that turns a doubted delegation from one doubt to the other. */
  function OtherDoubt(c: Context, r: Record, did: Uuid, id: Uuid): Command
    requires r.execution.Some? && r.executor.node in c.grants && r.requester.node in c.grants
  {
    if r.state == CancelRequested then
      Command(id, r.executor.node, c.authority, c.channel, c.grants[r.executor.node].epoch, r.executor.AsActor(),
              LoseTrack(did, r.revision, r.execution.value))
    else
      Command(id, r.requester.node, c.authority, c.channel, c.grants[r.requester.node].epoch, r.requester,
              Cancel(did, r.revision))
  }

  function Flip(s: State): State {
    if s == CancelRequested then Unknown else CancelRequested
  }

  /** *who* holds a live grant for *what* under the policy *c*. */
  ghost predicate Holds(c: Context, who: Principal, what: Capability) {
    && who.node in c.grants && c.online && !c.archived
    && var g := c.grants[who.node];
       && g.active && g.expiresAt > c.now && who in g.actors && what in g.capabilities
       && (what == CanExecute ==> Agent(who.node, who.id) in c.exports)
  }

  ghost predicate BothAdmitted(c: Context, requester: Principal, executor: Agent) {
    Holds(c, requester, CanCancel) && Holds(c, executor.AsActor(), CanExecute)
  }

  lemma DoubtIsAdmitted(c: Context, r: Record, did: Uuid, id: Uuid)
    requires r.execution.Some? && BothAdmitted(c, r.requester, r.executor) && r.state in {CancelRequested, Unknown}
    ensures var m := OtherDoubt(c, r, did, id);
      Admission(c, m, m.sender).None? && Objection(c, r, m).None? && To(m.payload) == Flip(r.state)
  {
  }

  ghost predicate Unused(c: Context, p: Projection, r: Record, ids: seq<Uuid>) {
    && (forall i :: 0 <= i < |ids| ==>
          && Key(r.executor.node, c.authority, c.channel, ids[i]) !in p.receipts
          && Key(r.requester.node, c.authority, c.channel, ids[i]) !in p.receipts)
    && (forall i, j :: 0 <= i < j < |ids| ==> ids[i] != ids[j])
  }

  lemma UnusedTail(c: Context, p: Projection, q: Projection, r: Record, next: Record, ids: seq<Uuid>, e: Event)
    requires ids != [] && Unused(c, p, r, ids) && next.executor == r.executor && next.requester == r.requester
    requires e.CommandEvent? && KeyOf(e.request).request == ids[0]
    requires q.receipts == p.receipts[KeyOf(e.request) := (e.request, e.receipt)]
    ensures Unused(c, q, next, ids[1..])
  {
  }

  /** Delegation *did* is in doubt, bound to an execution, and both its parties
      may act. */
  ghost predicate Doubting(c: Context, p: Projection, did: Uuid) {
    && did in p.delegations
    && var r := p.delegations[did];
       r.state in {CancelRequested, Unknown} && r.execution.Some? && BothAdmitted(c, r.requester, r.executor)
  }

  lemma OneMoreDoubt(c: Context, log: seq<Event>, did: Uuid, id: Uuid) returns (e: Event, next: Record)
    requires Genuine(c.authority, c.channel, log)
    requires Doubting(c, Replay(log), did) && Unused(c, Replay(log), Replay(log).delegations[did], [id])
    ensures Genuine(c.authority, c.channel, log + [e]) && Concerns(e, did)
    ensures var r := Replay(log).delegations[did];
      && e.receipt.state == Flip(r.state)
      && Replay(log + [e]).delegations == Replay(log).delegations[did := next]
      && next == r.(state := e.receipt.state, revision := next.revision, process := next.process)
      && KeyOf(e.request).request == id
      && Replay(log + [e]).receipts == Replay(log).receipts[KeyOf(e.request) := (e.request, e.receipt)]
  {
    var r := Replay(log).delegations[did];
    var m := OtherDoubt(c, r, did, id);
    DoubtIsAdmitted(c, r, did, id);
    assert [id][0] == id;
    next := Advance(r, m.payload);
    e := EventOf(m, ReceiptFor(m, |log|, next.revision, next.state, next.process));
    CommitsAreLawful(c, Replay(log), |log|, m, m.sender);
    CommandAppend(c.authority, c.channel, log, m, e.receipt);
  }

  /** Events of one delegation whose states are *first*, the other doubt, *first*, ... */
  ghost predicate Alternating(events: seq<Event>, did: Uuid, first: State) {
    events == [] ||
    (Concerns(events[0], did) && events[0].receipt.state == first && Alternating(events[1..], did, Flip(first)))
  }

  /** However many request ids are still unused, a delegation in doubt can go back
      and forth between cancel_requested and unknown that many times. */
  lemma {:induction false} CancelAndUnknownAlternate(c: Context, log: seq<Event>, did: Uuid, ids: seq<Uuid>)
      returns (more: seq<Event>)
    requires Genuine(c.authority, c.channel, log)
    requires Doubting(c, Replay(log), did)
    requires Unused(c, Replay(log), Replay(log).delegations[did], ids)
    ensures |more| == |ids| && Genuine(c.authority, c.channel, log + more)
    ensures Alternating(more, did, Flip(Replay(log).delegations[did].state))
    decreases |ids|
  {
    if ids == [] {
      assert log + [] == log;
      return [];
    }
    var r := Replay(log).delegations[did];
    var e, next := OneMoreDoubt(c, log, did, ids[0]);
    UnusedTail(c, Replay(log), Replay(log + [e]), r, next, ids, e);
    var rest := CancelAndUnknownAlternate(c, log + [e], did, ids[1..]);
    more := [e] + rest;
    assert more[1..] == rest;
    Regroup(log, e, rest);
  }

  lemma Regroup<T>(a: seq<T>, x: T, b: seq<T>)
    ensures a + ([x] + b) == (a + [x]) + b
  {
  }
}

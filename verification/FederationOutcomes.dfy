/** What each command and delivery leads to, state by state, in the contract's own
    words: nothing here is stated through the tables that decide it. */
module FederationOutcomes {
  import opened Wrappers
  import opened FederationTypes
  import opened FederationPolicy
  import opened FederationHistory
  import opened FederationReplica

  // ── Admission ─────────────────────────────────────────────────────

  /** The capability a kind of command needs. */
  ghost predicate Entitled(g: Grant, p: Payload) {
    match p
    case Send(_) => CanSend in g.capabilities
    case Request(_, _, _, _, _) => CanRequest in g.capabilities
    case Cancel(_, _) => CanCancel in g.capabilities
    case _ => CanExecute in g.capabilities
  }

  /** A command is admitted exactly from its own node, for this channel, under a live
      grant of the current epoch that covers its actor and kind, with exported
      executors, while the authority is online and the channel is not archived. */
  lemma AdmittedExactly(c: Context, m: Command, node: Uuid)
    ensures Admission(c, m, node).None? <==>
      && m.sender == node && m.actor.node == node && m.authority == c.authority && m.channel == c.channel
      && node in c.grants && c.grants[node].active && c.grants[node].expiresAt > c.now && c.grants[node].epoch == m.epoch
      && m.actor in c.grants[node].actors && Entitled(c.grants[node], m.payload)
      && (!m.payload.Send? && !m.payload.Request? && !m.payload.Cancel? ==> Agent(m.actor.node, m.actor.id) in c.exports)
      && (m.payload.Request? ==> m.payload.executor in c.exports)
      && !c.archived && c.online
  {
  }

  /** Why a command is not admitted, in the order of the contract. */
  lemma RefusedAdmissions(c: Context, m: Command, node: Uuid)
    ensures var a := Admission(c, m, node);
      if m.sender != node || m.actor.node != node then a == Some(IdentityMismatch)
      else if m.authority != c.authority then a == Some(WrongAuthority)
      else if m.channel != c.channel then a == Some(ChannelDenied)
      else if node !in c.grants || c.archived || !c.grants[node].active || c.grants[node].expiresAt <= c.now
              || c.grants[node].epoch != m.epoch then a == Some(GrantDenied)
      else if m.actor !in c.grants[node].actors then a == Some(PrincipalDenied)
      else if !Entitled(c.grants[node], m.payload) then a == Some(ScopeDenied)
      else if m.payload.Request? && m.payload.executor !in c.exports then a == Some(ExecutorDenied)
      else if !m.payload.Send? && !m.payload.Request? && !m.payload.Cancel? && Agent(m.actor.node, m.actor.id) !in c.exports
      then a == Some(ExecutorDenied)
      else a == if c.online then None else Some(AuthorityUnavailable)
  {
  }

  /** Size, version and schema come first, then admission, then the receipts: a known
      command is answered by its first receipt or as a conflict. */
  lemma AnswersInOrder(c: Context, p: Projection, n: nat, s: Submission, node: Uuid)
    ensures s.bytes > 65536 ==> Respond(c, p, n, s, node) == Refused(InvalidSchema)
    ensures s.bytes <= 65536 && s.version != 1 ==> Respond(c, p, n, s, node) == Refused(VersionUnsupported)
    ensures s.bytes <= 65536 && s.version == 1 ==>
      var d := Respond(c, p, n, s, node);
      if s.command.None? then d == Refused(InvalidSchema)
      else
        var m := s.command.value;
        var key := Key(m.sender, m.authority, m.channel, m.request);
        && (Admission(c, m, node).Some? ==> d == Refused(Admission(c, m, node).value))
        && (Admission(c, m, node).None? && key in p.receipts ==>
              d == if p.receipts[key].0 == m then Duplicate(p.receipts[key].1) else Refused(IdConflict))
  {
  }

  /** A result that comes once cancellation has begun is noted exactly when it is the
      bound execution's, from its executor. */
  lemma LateResultsAreNotedExactly(c: Context, p: Projection, m: Command, node: Uuid)
    requires Admission(c, m, node).None? && KeyOf(m) !in p.receipts
    requires m.payload.Result? && m.payload.did in p.delegations
    ensures var was := p.delegations[m.payload.did];
      NoteOf(c, p, Submission(0, 1, Some(m)), node) ==
        if (was.state == CancelRequested || was.state == Cancelled) && was.execution == Some(m.payload.execution)
           && m.actor == Principal(was.executor.node, AgentKind, was.executor.id)
        then Some(Observation(m.payload.execution)) else None
  {
  }

  // ── Moves of a delegation ─────────────────────────────────────────

  /** The literal step of a delegation: from where, to where, and what the receipt
      says of the process and the task. */
  ghost predicate Leads(was: Record, p: Payload, r: Receipt) {
    match p
    case Accept(_, _, _) =>
      was.state == Requested && r.state == Accepted && r.process == Unclear && r.taskStatus == Some(InProgress)
    case Reject(_, _, _) =>
      was.state == Requested && r.state == Rejected && r.process == was.process && r.taskStatus == Some(Todo)
    case Start(_, _, _) =>
      was.state == Accepted && r.state == Running && r.process == ProcessRunning && r.taskStatus == Some(InProgress)
    case Result(_, _, _, Succeeded(_)) =>
      (was.state == Accepted || was.state == Running) && r.state == Completed && r.process == Finished && r.taskStatus == Some(Done)
    case Result(_, _, _, Fault(_)) =>
      (was.state == Accepted || was.state == Running) && r.state == Failed && r.process == Finished && r.taskStatus == Some(TaskFailed)
    case Cancel(_, _) =>
      && (was.state == Requested || was.state == Accepted || was.state == Running || was.state == Unknown)
      && r.state == CancelRequested && r.process == was.process && r.taskStatus == Some(Blocked)
    case ConfirmCancel(_, _, _, never) =>
      && was.state == CancelRequested && r.state == Cancelled
      && r.process == (if never then NotStarted else Stopped) && r.taskStatus == Some(TaskFailed)
    case LoseTrack(_, _, _) =>
      && (was.state == Accepted || was.state == Running || was.state == CancelRequested)
      && r.state == Unknown && r.process == Unclear && r.taskStatus == Some(Blocked)
    case _ => false
  }

  /** What a commit's receipt says, for every kind of command. */
  lemma CommitsLeadThere(p: Projection, n: nat, m: Command, r: Receipt)
    requires LawfulCommand(p, n, m, r)
    ensures r.seqNo == n + 1 && r.request == m.request && r.authority == m.authority && r.channel == m.channel
    ensures r.eventId == Uuid5(Id(m.sender), Id(m.authority), Id(m.channel), Id(m.request))
    ensures m.payload.Send? ==>
      r.state == MessageCommitted && r.process == NotApplicable && r.revision == 0 && r.taskStatus == None
    ensures m.payload.Request? ==>
      r.state == Requested && r.process == NotStarted && r.revision == 1 && r.taskStatus == Some(Todo)
    ensures !m.payload.Send? && !m.payload.Request? ==>
      && m.payload.did in p.delegations && Leads(p.delegations[m.payload.did], m.payload, r)
      && r.revision == p.delegations[m.payload.did].revision + 1
  {
  }

  /** And so each state is reached by its own kind of command only. */
  lemma EachStateHasItsCommand(p: Projection, n: nat, m: Command, r: Receipt)
    requires LawfulCommand(p, n, m, r)
    ensures r.state == Completed <==> m.payload.Result? && m.payload.outcome.Succeeded?
    ensures r.state == Failed <==> m.payload.Result? && m.payload.outcome.Fault?
    ensures r.state == Accepted <==> m.payload.Accept?
    ensures r.state == Rejected <==> m.payload.Reject?
    ensures r.state == Running <==> m.payload.Start?
    ensures r.state == CancelRequested <==> m.payload.Cancel?
    ensures r.state == Cancelled <==> m.payload.ConfirmCancel?
    ensures r.state == Unknown <==> m.payload.LoseTrack?
    ensures r.state == Requested <==> m.payload.Request?
    ensures r.state == MessageCommitted <==> m.payload.Send?
  {
    CommitsLeadThere(p, n, m, r);
  }

  /** The same of every answer that commits, with the record it leaves. */
  lemma CommittedMovesLeadThere(c: Context, p: Projection, n: nat, m: Command, node: Uuid)
    requires Decide(c, p, n, m, node).Committed? && !m.payload.Send? && !m.payload.Request?
    ensures var r := Decide(c, p, n, m, node).receipt;
      && m.payload.did in p.delegations && Leads(p.delegations[m.payload.did], m.payload, r)
      && var was, q := p.delegations[m.payload.did], Fold(p, EventOf(m, r));
         && m.payload.did in q.delegations
         && q.delegations[m.payload.did] == was.(state := r.state, revision := was.revision + 1, process := r.process,
                                                 execution := if m.payload.Accept? then Some(m.payload.execution) else was.execution)
  {
    CommitsAreLawful(c, p, n, m, node);
    CommitsLeadThere(p, n, m, Decide(c, p, n, m, node).receipt);
  }

  /** The literal conditions of a step, the executor's or the requester's. */
  ghost predicate Allowed(c: Context, was: Record, m: Command) {
    var p := m.payload;
    && p.Delegates() && !p.Request? && p.expected == was.revision
    && (if p.Cancel? then m.actor == was.requester || m.actor in c.admins
        else m.actor == Principal(was.executor.node, AgentKind, was.executor.id))
    && match p
       case Accept(_, _, _) => was.state == Requested && c.policyAllows
       case Reject(_, _, _) => was.state == Requested
       case Start(_, _, x) => was.state == Accepted && was.execution == Some(x)
       case Result(_, _, x, _) => (was.state == Accepted || was.state == Running) && was.execution == Some(x)
       case Cancel(_, _) =>
         was.state == Requested || was.state == Accepted || was.state == Running || was.state == Unknown
       case ConfirmCancel(_, _, x, never) =>
         && was.state == CancelRequested
         && (if was.execution.None? then never else was.execution == Some(x))
         && (never ==> was.process != ProcessRunning)
       case LoseTrack(_, _, x) =>
         (was.state == Accepted || was.state == Running || was.state == CancelRequested) && was.execution == Some(x)
       case _ => false
  }

  /** An admitted new step of a known delegation commits exactly when it is allowed. */
  lemma MovesCommitExactly(c: Context, p: Projection, n: nat, m: Command, node: Uuid)
    requires Admission(c, m, node).None? && KeyOf(m) !in p.receipts
    requires !m.payload.Send? && !m.payload.Request? && m.payload.did in p.delegations
    ensures Decide(c, p, n, m, node).Committed? <==> Allowed(c, p.delegations[m.payload.did], m)
  {
    var no := Objection(c, p.delegations[m.payload.did], m);
    assert Decide(c, p, n, m, node).Committed? <==> no.None?;
  }

  /** Why a step is refused, in the order of the contract. */
  lemma RefusedMoves(c: Context, p: Projection, n: nat, m: Command, node: Uuid)
    requires Admission(c, m, node).None? && KeyOf(m) !in p.receipts && !m.payload.Send? && !m.payload.Request?
    ensures m.payload.did !in p.delegations ==> Decide(c, p, n, m, node) == Refused(DelegationMissing)
    ensures m.payload.did in p.delegations ==>
      var was, d := p.delegations[m.payload.did], Decide(c, p, n, m, node);
      var entitled := if m.payload.Cancel? then m.actor == was.requester || m.actor in c.admins
                      else m.actor == Principal(was.executor.node, AgentKind, was.executor.id);
      var late := m.payload.Result? && (was.state == CancelRequested || was.state == Cancelled);
      && (!entitled ==> d == Refused(ActorDenied))
      && (entitled && late && was.execution != Some(m.payload.execution) ==> d == Refused(ExecutionMismatch))
      && (entitled && late && was.execution == Some(m.payload.execution) ==>
            d == Refused(if was.state == CancelRequested then CancelPending else Terminal))
      && (entitled && !late && m.payload.expected != was.revision ==> d == Refused(RevisionConflict))
      && (entitled && !late && m.payload.expected == was.revision ==>
            && (was.state == Completed || was.state == Failed || was.state == Cancelled || was.state == Rejected ==>
                  d == Refused(Terminal))
            && (was.state == Unknown && !m.payload.Cancel? ==> d == Refused(ReconcileRequired))
            && (was.state == Requested && m.payload.Accept? && !c.policyAllows ==> d == Refused(LocalPolicyDenied))
            && (d.Committed? || d == Refused(Terminal) || d == Refused(ReconcileRequired) || d == Refused(LocalPolicyDenied)
                || d == Refused(StateConflict) || d == Refused(ExecutionMismatch)))
  {
  }

  /** A command out of its turn, or for another execution. */
  lemma RefusedTurns(c: Context, p: Projection, n: nat, m: Command, node: Uuid)
    requires Admission(c, m, node).None? && KeyOf(m) !in p.receipts && !m.payload.Send? && !m.payload.Request?
    requires m.payload.did in p.delegations && m.payload.expected == p.delegations[m.payload.did].revision
    requires !m.payload.Cancel? && m.actor == Principal(p.delegations[m.payload.did].executor.node, AgentKind,
                                                        p.delegations[m.payload.did].executor.id)
    ensures var was, d := p.delegations[m.payload.did], Decide(c, p, n, m, node);
      && (m.payload.Accept? || m.payload.Reject? ==>
            (was.state == Accepted || was.state == Running || was.state == CancelRequested ==> d == Refused(StateConflict)))
      && (m.payload.Start? ==>
            && (was.state == Requested || was.state == Running || was.state == CancelRequested ==> d == Refused(StateConflict))
            && (was.state == Accepted && was.execution != Some(m.payload.execution) ==> d == Refused(ExecutionMismatch)))
      && (m.payload.Result? ==>
            && (was.state == Requested ==> d == Refused(StateConflict))
            && (was.state == Accepted || was.state == Running ==>
                  was.execution != Some(m.payload.execution) ==> d == Refused(ExecutionMismatch)))
      && (m.payload.ConfirmCancel? ==>
            && (was.state == Requested || was.state == Accepted || was.state == Running ==> d == Refused(StateConflict))
            && (was.state == CancelRequested && was.execution.Some? && was.execution != Some(m.payload.execution) ==>
                  d == Refused(ExecutionMismatch))
            && (was.state == CancelRequested && was.execution == Some(m.payload.execution) ==>
                  m.payload.neverStarted && was.process == ProcessRunning ==> d == Refused(StateConflict)))
      && (m.payload.LoseTrack? ==>
            && (was.state == Requested ==> d == Refused(StateConflict))
            && (was.state == Accepted || was.state == Running || was.state == CancelRequested ==>
                  was.execution != Some(m.payload.execution) ==> d == Refused(ExecutionMismatch)))
  {
  }

  // ── Messages and requests ─────────────────────────────────────────

  /** An admitted new message commits exactly under a new id, at top level or in the
      thread of a top-level message. */
  lemma MessagesCommitExactly(c: Context, p: Projection, n: nat, m: Command, node: Uuid)
    requires Admission(c, m, node).None? && KeyOf(m) !in p.receipts && m.payload.Send?
    ensures var msg, d := m.payload.message, Decide(c, p, n, m, node);
      && (d.Committed? <==>
            && msg.id !in p.messages
            && (msg.root.Some? ==> msg.root.value in p.messages && p.messages[msg.root.value].root.None?))
      && (d.Committed? ==> Fold(p, EventOf(m, d.receipt)).messages == p.messages[msg.id := msg])
      && (msg.id in p.messages ==> d == Refused(MessageConflict))
      && (msg.id !in p.messages ==> d.Committed? || d == Refused(ThreadDenied))
  {
  }

  lemma RequestsCommitExactly(c: Context, p: Projection, n: nat, m: Command, node: Uuid)
    requires Admission(c, m, node).None? && KeyOf(m) !in p.receipts && m.payload.Request?
    ensures var q, d := m.payload, Decide(c, p, n, m, node);
      && (d.Committed? <==>
            && q.did !in p.delegations && q.task !in p.tasks && q.expected == 0 && q.source in p.messages
            && q.task in c.taskSources && c.taskSources[q.task] == q.source)
      && (d.Committed? ==>
            && Fold(p, EventOf(m, d.receipt)).delegations
               == p.delegations[q.did := Record(Requested, 1, m.actor, q.executor, None, NotStarted)]
            && Fold(p, EventOf(m, d.receipt)).tasks == p.tasks[q.task := q.did])
  {
  }

  /** Why a request is refused, in the order of the contract. */
  lemma RefusedRequests(c: Context, p: Projection, n: nat, m: Command, node: Uuid)
    requires Admission(c, m, node).None? && KeyOf(m) !in p.receipts && m.payload.Request?
    ensures var q, d := m.payload, Decide(c, p, n, m, node);
      if q.did in p.delegations || q.task in p.tasks then d == Refused(ClaimConflict)
      else if q.expected != 0 then d == Refused(RevisionConflict)
      else if q.source !in p.messages then d == Refused(SourceDenied)
      else if q.task !in c.taskSources || c.taskSources[q.task] != q.source then d == Refused(TaskDenied)
      else d.Committed?
  {
  }

  // ── Participants ──────────────────────────────────────────────────

  /** A change is applied exactly by a local administrator of the authority, on an
      open channel, at the member's current revision, under a new operation id. */
  lemma ChangesApplyExactly(c: Context, members: map<Principal, Membership>, operations: map<Uuid, (Change, Principal)>,
                            change: Change, actor: Principal, localAdmin: bool, publicationAllowed: bool)
    ensures AnswerChange(c, members, operations, change, actor, localAdmin, publicationAllowed) == Applied <==>
      && actor.node == c.authority && localAdmin && !c.archived && c.online && (change.active ==> publicationAllowed)
      && change.operation !in operations
      && change.expected == if change.principal in members then members[change.principal].revision else 0
  {
  }

  /** Why a change is not applied, in the order of the contract. */
  lemma RefusedChanges(c: Context, members: map<Principal, Membership>, operations: map<Uuid, (Change, Principal)>,
                       change: Change, actor: Principal, localAdmin: bool, publicationAllowed: bool)
    ensures var a := AnswerChange(c, members, operations, change, actor, localAdmin, publicationAllowed);
      if !localAdmin || actor.node != c.authority then a == Denied(AdminRequired)
      else if !c.online || c.archived then a == Denied(ChannelUnavailable)
      else if change.active && !publicationAllowed then a == Denied(PrincipalDenied)
      else if change.operation in operations then
        a == if operations[change.operation] == (change, actor) then Repeated else Denied(IdConflict)
      else a == Applied || a == Denied(RevisionConflict)
  {
  }

  /** An applied change gives the member its new role and the next revision. */
  lemma ChangesSetTheMember(authority: Uuid, channel: Uuid, log: seq<Event>, change: Change, actor: Principal)
    requires Genuine(authority, channel, log) && actor.node == authority
    requires change.operation !in Operations(log) && change.expected == RevisionOf(Members(log), change.principal)
    ensures Members(log + [ChangeEvent(authority, channel, |log|, change, actor)])
         == Members(log)[change.principal := Membership(change.role, change.active, change.expected + 1)]
  {
    ChangeAppend(authority, channel, log, change, actor);
  }

  // ── Over logs ─────────────────────────────────────────────────────

  /** The last event of one delegation. */
  function LastFor(log: seq<Event>, did: Uuid): Option<Event> {
    if log == [] then None
    else if Concerns(log[|log| - 1], did) then Some(log[|log| - 1])
    else LastFor(log[..|log| - 1], did)
  }

  /** A record's state and what its delegation's last command was. */
  ghost predicate Speaks(r: Record, p: Payload) {
    && (r.state == Completed <==> p.Result? && p.outcome.Succeeded?)
    && (r.state == Failed <==> p.Result? && p.outcome.Fault?)
    && (r.state == Requested <==> p.Request?) && (r.state == Accepted <==> p.Accept?)
    && (r.state == Rejected <==> p.Reject?) && (r.state == Running <==> p.Start?)
    && (r.state == CancelRequested <==> p.Cancel?) && (r.state == Cancelled <==> p.ConfirmCancel?)
    && (r.state == Unknown <==> p.LoseTrack?)
  }

  lemma EventSetsState(p: Projection, n: nat, m: Command, r: Receipt, did: Uuid)
    requires LawfulCommand(p, n, m, r) && m.payload.Delegates() && m.payload.did == did
    ensures var q := Fold(p, EventOf(m, r)); did in q.delegations && Speaks(q.delegations[did], m.payload)
  {
    EachStateHasItsCommand(p, n, m, r);
  }

  lemma OtherEventsLeaveState(p: Projection, n: nat, m: Command, r: Receipt, did: Uuid)
    requires LawfulCommand(p, n, m, r) && !(m.payload.Delegates() && m.payload.did == did)
    ensures var q := Fold(p, EventOf(m, r));
      (did in q.delegations <==> did in p.delegations) && (did in p.delegations ==> q.delegations[did] == p.delegations[did])
  {
  }

  /** In every log a delegation is completed exactly when its last event is a
      successful result, failed exactly when that is a failed one, and so on. */
  lemma {:induction false} LastEventSetsTheState(authority: Uuid, channel: Uuid, log: seq<Event>, did: Uuid)
    requires Genuine(authority, channel, log)
    ensures did in Replay(log).delegations <==> LastFor(log, did).Some?
    ensures LastFor(log, did).Some? ==>
      LastFor(log, did).value.CommandEvent? && Speaks(Replay(log).delegations[did], LastFor(log, did).value.request.payload)
    decreases |log|
  {
    if log != [] {
      var before, e := log[..|log| - 1], log[|log| - 1];
      LastEventSetsTheState(authority, channel, before, did);
      if e.CommandEvent? {
        if Concerns(e, did) {
          EventSetsState(Replay(before), |before|, e.request, e.receipt, did);
        } else {
          OtherEventsLeaveState(Replay(before), |before|, e.request, e.receipt, did);
        }
      }
    }
  }

  // ── Deliveries ────────────────────────────────────────────────────

  /** The envelope names another authority, channel, id or number than what it holds. */
  predicate Disagrees(e: Event, authority: Uuid, channel: Uuid)
    requires e.CommandEvent?
  {
    || e.request.authority != authority || e.receipt.authority != authority
    || e.request.channel != channel || e.receipt.channel != channel
    || e.eventId != e.receipt.eventId || e.seqNo != e.receipt.seqNo || e.request.request != e.receipt.request
  }

  /** What a replica refuses, and why. */
  lemma RefusedDeliveries(authority: Uuid, channel: Uuid, f: Mirror, e: Event, node: Uuid, canRead: bool)
    ensures var a := AnswerDelivery(authority, channel, f, Some(e), node, canRead);
      && (node != authority || e.authority != authority ==> a == Declined(IdentityMismatch))
      && (node == authority && e.authority == authority && (e.channel != channel || !canRead) ==> a == Declined(ChannelDenied))
    ensures node == authority && e.authority == authority && e.channel == channel && canRead ==>
      var a := AnswerDelivery(authority, channel, f, Some(e), node, canRead);
      && (e.ParticipantEvent? && e.actor.node != authority ==> a == Declined(EventIntegrity))
      && (e.CommandEvent? && Disagrees(e, authority, channel) ==> a == Declined(EventIntegrity))
      && (e.eventId in f.events && f.events[e.eventId] != e ==> a == Declined(EventIntegrity))
      && (e.eventId !in f.events && e.seqNo in f.sequences ==> a == Declined(EventIntegrity))
    ensures AnswerDelivery(authority, channel, f, None, node, canRead) == Declined(InvalidSchema)
  {
  }

  /** What it answers to an undamaged event it may read: one it has is known, a new one
      out of order is a gap, and a change of a member must be the member's next. */
  lemma SoundDeliveries(authority: Uuid, channel: Uuid, f: Mirror, e: Event)
    requires e.authority == authority && e.channel == channel
    requires if e.CommandEvent? then !Disagrees(e, authority, channel) else e.actor.node == authority
    ensures var a := AnswerDelivery(authority, channel, f, Some(e), authority, true);
      && (e.eventId in f.events && f.events[e.eventId] == e ==> a == Known)
      && (e.eventId !in f.events && e.seqNo !in f.sequences ==>
            && (e.seqNo != f.cursor + 1 ==> a == Declined(EventGap))
            && (e.seqNo == f.cursor + 1 ==>
                  if e.CommandEvent? then a == Took
                  else
                    var held := if e.principal in f.participants then f.participants[e.principal].revision else 0;
                    a == if e.membership.revision == held + 1 then Took else Declined(RevisionConflict)))
  {
  }

  /** A replica takes an event exactly when it comes from the authority, for its
      channel, with read access, undamaged, new, and next in order. */
  lemma TakenExactly(authority: Uuid, channel: Uuid, f: Mirror, e: Event, node: Uuid, canRead: bool)
    ensures AnswerDelivery(authority, channel, f, Some(e), node, canRead) == Took <==>
      && node == authority && e.authority == authority && e.channel == channel && canRead
      && (e.CommandEvent? ==>
            && e.request.authority == e.receipt.authority == authority && e.request.channel == e.receipt.channel == channel
            && e.eventId == e.receipt.eventId && e.seqNo == e.receipt.seqNo && e.request.request == e.receipt.request)
      && (e.ParticipantEvent? ==>
            && e.actor.node == authority
            && e.membership.revision == 1 + if e.principal in f.participants then f.participants[e.principal].revision else 0)
      && e.eventId !in f.events && e.seqNo !in f.sequences && e.seqNo == f.cursor + 1
  {
  }

  ghost predicate NoAccess(steps: seq<Step>) {
    forall i :: 0 <= i < |steps| && steps[i].Deliver? ==> !steps[i].canRead
  }

  /** Whatever else happens, a replica without read access never learns anything. */
  lemma {:induction false} WithoutAccessNothingIsCopied(authority: Uuid, channel: Uuid, s: System, steps: seq<Step>)
    requires NoAccess(steps)
    ensures Run(authority, channel, s, steps).follower == s.follower
    decreases |steps|
  {
    if steps != [] {
      var next := Next(authority, channel, s, steps[0]);
      assert next.follower == s.follower by {
        if steps[0].Deliver? && steps[0].delivery.Some? {
          RefusedDeliveries(authority, channel, s.follower, steps[0].delivery.value, steps[0].node, false);
        }
      }
      WithoutAccessNothingIsCopied(authority, channel, next, steps[1..]);
    }
  }

  /** In particular it stays blank. */
  lemma WithoutAccessTheCopyIsBlank(authority: Uuid, channel: Uuid, steps: seq<Step>)
    requires NoAccess(steps)
    ensures var f := Run(authority, channel, START, steps).follower;
      f.cursor == 0 && f.events == map[] && f.sequences == map[] && f.participants == map[]
  {
    WithoutAccessNothingIsCopied(authority, channel, START, steps);
  }
}

/** What the channel authority decides about one command, and what its log means.

    `Decide` reads a projection of the log; `Replay` rebuilds that projection from
    the committed events alone, trusting only requests and receipts. */
module FederationPolicy {
  import opened Wrappers
  import opened FederationTypes

  const MAX_COMMAND_BYTES := 65536

  datatype Projection = Projection(
    messages: map<Uuid, Message>, delegations: map<Uuid, Record>,
    tasks: map<Uuid, Uuid>, receipts: map<Key, (Command, Receipt)>)

  const EMPTY := Projection(map[], map[], map[], map[])

  datatype Observation = Observation(execution: Uuid)

  // ── Admission ─────────────────────────────────────────────────────

  function Needs(p: Payload): Capability {
    if p.Send? then CanSend else if p.Request? then CanRequest
    else if p.Cancel? then CanCancel else CanExecute
  }

  /** The checks on the sender, its grant and its scope, in the authority's order. */
  function Admission(c: Context, m: Command, node: Uuid): Option<Code> {
    if m.sender != node || m.actor.node != m.sender then Some(IdentityMismatch)
    else if m.authority != c.authority then Some(WrongAuthority)
    else if m.channel != c.channel then Some(ChannelDenied)
    else if m.sender !in c.grants then Some(GrantDenied)
    else
      var g := c.grants[m.sender];
      if !g.active || g.expiresAt <= c.now || m.epoch != g.epoch || c.archived then Some(GrantDenied)
      else if m.actor !in g.actors then Some(PrincipalDenied)
      else if Needs(m.payload) !in g.capabilities then Some(ScopeDenied)
      else if Needs(m.payload) == CanExecute && Agent(m.actor.node, m.actor.id) !in c.exports then Some(ExecutorDenied)
      else if m.payload.Request? && m.payload.executor !in c.exports then Some(ExecutorDenied)
      else if !c.online then Some(AuthorityUnavailable)
      else None
  }

  // ── The delegation machine ────────────────────────────────────────

  const FINAL: set<State> := {Completed, Failed, Cancelled, Rejected}

  function From(p: Payload): set<State> {
    match p
    case Accept(_, _, _) => {Requested}
    case Reject(_, _, _) => {Requested}
    case Start(_, _, _) => {Accepted}
    case Result(_, _, _, _) => {Accepted, Running}
    case Cancel(_, _) => {Requested, Accepted, Running, Unknown}
    case ConfirmCancel(_, _, _, _) => {CancelRequested}
    case LoseTrack(_, _, _) => {Accepted, Running, CancelRequested}
    case _ => {}
  }

  function To(p: Payload): State {
    match p
    case Send(_) => MessageCommitted
    case Request(_, _, _, _, _) => Requested
    case Accept(_, _, _) => Accepted
    case Reject(_, _, _) => Rejected
    case Start(_, _, _) => Running
    case Result(_, _, _, o) => if o.Fault? then Failed else Completed
    case Cancel(_, _) => CancelRequested
    case ConfirmCancel(_, _, _, _) => Cancelled
    case LoseTrack(_, _, _) => Unknown
  }

  function ProcessAfter(p: Payload, before: ProcessState): ProcessState {
    match p
    case Accept(_, _, _) => Unclear
    case LoseTrack(_, _, _) => Unclear
    case Start(_, _, _) => ProcessRunning
    case Result(_, _, _, _) => Finished
    case ConfirmCancel(_, _, _, never) => if never then NotStarted else Stopped
    case _ => before
  }

  /** A result that arrives once cancellation has begun is noted, never applied. */
  predicate Late(r: Record, p: Payload) {
    p.Result? && r.state in {CancelRequested, Cancelled}
  }

  predicate MayMove(c: Context, r: Record, m: Command) {
    if m.payload.Cancel? then m.actor == r.requester || m.actor in c.admins
    else m.actor == r.executor.AsActor()
  }

  predicate BindsExecution(r: Record, p: Payload) {
    p.NamesExecution() && !p.Accept? ==>
      if r.execution.None? then p.ConfirmCancel? && p.neverStarted
      else r.execution.value == p.execution
  }

  /** Why the record may not take this step, or None when it may. */
  function Objection(c: Context, r: Record, m: Command): Option<Code>
    requires m.payload.Delegates() && !m.payload.Request?
  {
    var p := m.payload;
    if !MayMove(c, r, m) then Some(ActorDenied)
    else if Late(r, p) then
      Some(if r.execution != Some(p.execution) then ExecutionMismatch
           else if r.state == CancelRequested then CancelPending else Terminal)
    else if p.expected != r.revision then Some(RevisionConflict)
    else if r.state in FINAL then Some(Terminal)
    else if r.state == Unknown && !p.Cancel? then Some(ReconcileRequired)
    else if r.state !in From(p) then Some(StateConflict)
    else if p.Accept? && !c.policyAllows then Some(LocalPolicyDenied)
    else if !BindsExecution(r, p) then Some(ExecutionMismatch)
    else if p.ConfirmCancel? && p.neverStarted && r.process == ProcessRunning then Some(StateConflict)
    else None
  }

  function Advance(r: Record, p: Payload): Record
    requires p.Delegates()
  {
    r.(state := To(p), revision := r.revision + 1, process := ProcessAfter(p, r.process),
       execution := if p.Accept? then Some(p.execution) else r.execution)
  }

  // ── One decision ──────────────────────────────────────────────────

  function StatusOf(s: State): Option<TaskStatus> {
    match s
    case MessageCommitted => None
    case Requested => Some(Todo)
    case Accepted => Some(InProgress)
    case Running => Some(InProgress)
    case Completed => Some(Done)
    case Failed => Some(TaskFailed)
    case Rejected => Some(Todo)
    case CancelRequested => Some(Blocked)
    case Cancelled => Some(TaskFailed)
    case Unknown => Some(Blocked)
  }

  function ReceiptFor(m: Command, n: nat, revision: int, s: State, ps: ProcessState): Receipt {
    Receipt(m.request, m.authority, m.channel, CommandEventId(KeyOf(m)), n + 1, revision, s, ps, StatusOf(s))
  }

  function DecideFresh(c: Context, p: Projection, n: nat, m: Command): Decision {
    match m.payload
    case Send(msg) =>
      if msg.id in p.messages then Refused(MessageConflict)
      else if msg.root.Some? && (msg.root.value !in p.messages || p.messages[msg.root.value].root.Some?)
      then Refused(ThreadDenied)
      else Committed(ReceiptFor(m, n, 0, MessageCommitted, NotApplicable))
    case Request(did, expected, task, source, executor) =>
      if did in p.delegations || task in p.tasks then Refused(ClaimConflict)
      else if expected != 0 then Refused(RevisionConflict)
      else if source !in p.messages then Refused(SourceDenied)
      else if task !in c.taskSources || c.taskSources[task] != source then Refused(TaskDenied)
      else Committed(ReceiptFor(m, n, 1, Requested, NotStarted))
    case _ =>
      if m.payload.did !in p.delegations then Refused(DelegationMissing)
      else
        var r := p.delegations[m.payload.did];
        var no := Objection(c, r, m);
        if no.Some? then Refused(no.value)
        else
          var next := Advance(r, m.payload);
          Committed(ReceiptFor(m, n, next.revision, next.state, next.process))
  }

  function Decide(c: Context, p: Projection, n: nat, m: Command, node: Uuid): Decision {
    var no := Admission(c, m, node);
    var key := KeyOf(m);
    if no.Some? then Refused(no.value)
    else if key !in p.receipts then DecideFresh(c, p, n, m)
    else if p.receipts[key].0 == m then Duplicate(p.receipts[key].1)
    else Refused(IdConflict)
  }

  function Respond(c: Context, p: Projection, n: nat, s: Submission, node: Uuid): Decision {
    if s.bytes > MAX_COMMAND_BYTES then Refused(InvalidSchema)
    else if s.version != 1 then Refused(VersionUnsupported)
    else if s.command.None? then Refused(InvalidSchema)
    else Decide(c, p, n, s.command.value, node)
  }

  /** The note a refused late result leaves on its record, if any. */
  function NoteFor(c: Context, r: Record, m: Command): Option<Observation>
    requires m.payload.Delegates() && !m.payload.Request?
  {
    if Late(r, m.payload) && MayMove(c, r, m) && r.execution == Some(m.payload.execution)
    then Some(Observation(m.payload.execution)) else None
  }

  function NoteFrom(c: Context, delegations: map<Uuid, Record>, m: Command): Option<Observation> {
    if m.payload.Delegates() && !m.payload.Request? && m.payload.did in delegations
    then NoteFor(c, delegations[m.payload.did], m) else None
  }

  function NoteOf(c: Context, p: Projection, s: Submission, node: Uuid): Option<Observation> {
    if s.bytes > MAX_COMMAND_BYTES || s.version != 1 || s.command.None?
       || Admission(c, s.command.value, node).Some? || KeyOf(s.command.value) in p.receipts
    then None
    else NoteFrom(c, p.delegations, s.command.value)
  }

  function Noted(notes: seq<Observation>, o: Option<Observation>): seq<Observation> {
    if o.None? || o.value in notes then notes else notes + [o.value]
  }

  function EventOf(m: Command, r: Receipt): Event {
    CommandEvent(r.eventId, m.authority, m.channel, r.seqNo, m, r)
  }

  // ── Participants ──────────────────────────────────────────────────

  function RevisionOf(members: map<Principal, Membership>, who: Principal): int {
    if who in members then members[who].revision else 0
  }

  function ChangeEvent(authority: Uuid, channel: Uuid, n: nat, change: Change, actor: Principal): Event {
    ParticipantEvent(ChangeEventId(authority, channel, change.operation), authority, channel, n + 1,
                     actor, change.principal, Membership(change.role, change.active, change.expected + 1))
  }

  function AnswerChange(c: Context, members: map<Principal, Membership>,
                        operations: map<Uuid, (Change, Principal)>, change: Change,
                        actor: Principal, localAdmin: bool, publicationAllowed: bool): Answer
  {
    if actor.node != c.authority || !localAdmin then Denied(AdminRequired)
    else if c.archived || !c.online then Denied(ChannelUnavailable)
    else if change.active && !publicationAllowed then Denied(PrincipalDenied)
    else if change.operation in operations then
      (if operations[change.operation] == (change, actor) then Repeated else Denied(IdConflict))
    else if change.expected != RevisionOf(members, change.principal) then Denied(RevisionConflict)
    else Applied
  }

  // ── What a log means ──────────────────────────────────────────────

  function Release(tasks: map<Uuid, Uuid>, did: Uuid): map<Uuid, Uuid> {
    map t | t in tasks && tasks[t] != did :: tasks[t]
  }

  /** One event folded into the projection, from its request and receipt only. */
  function Fold(p: Projection, e: Event): Projection {
    match e
    case ParticipantEvent(_, _, _, _, _, _, _) => p
    case CommandEvent(_, _, _, _, m, r) =>
      var q := p.(receipts := p.receipts[KeyOf(m) := (m, r)]);
      match m.payload
      case Send(msg) => q.(messages := q.messages[msg.id := msg])
      case Request(did, _, task, _, executor) =>
        q.(delegations := q.delegations[did := Record(r.state, r.revision, m.actor, executor, None, r.process)],
           tasks := q.tasks[task := did])
      case _ =>
        var did := m.payload.did;
        if did !in q.delegations then q
        else
          var was := q.delegations[did];
          var exec := if m.payload.Accept? then Some(m.payload.execution) else was.execution;
          q.(delegations := q.delegations[did := was.(state := r.state, revision := r.revision,
                                                      process := r.process, execution := exec)],
             tasks := if r.state == Rejected then Release(q.tasks, did) else q.tasks)
  }

  function Replay(log: seq<Event>): Projection {
    if log == [] then EMPTY else Fold(Replay(log[..|log| - 1]), log[|log| - 1])
  }

  function Members(log: seq<Event>): map<Principal, Membership> {
    if log == [] then map[]
    else
      var before, e := Members(log[..|log| - 1]), log[|log| - 1];
      if e.ParticipantEvent? then before[e.principal := e.membership] else before
  }

  /** The operation ids that participant events are named after. */
  function Operations(log: seq<Event>): set<Uuid> {
    if log == [] then {}
    else
      var before, e := Operations(log[..|log| - 1]), log[|log| - 1];
      if e.ParticipantEvent? && e.eventId.fourth.Id? then before + {e.eventId.fourth.uuid} else before
  }

  lemma ReplayAppend(log: seq<Event>, e: Event)
    ensures Replay(log + [e]) == Fold(Replay(log), e)
    ensures Members(log + [e]) == if e.ParticipantEvent? then Members(log)[e.principal := e.membership] else Members(log)
    ensures e.CommandEvent? ==> Operations(log + [e]) == Operations(log)
    ensures e.ParticipantEvent? && e.eventId.fourth.Id? ==> Operations(log + [e]) == Operations(log) + {e.eventId.fourth.uuid}
  {
    assert (log + [e])[..|log|] == log;
  }
}

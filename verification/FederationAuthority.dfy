/** The two writers of one channel's event stream. */
module FederationAuthority {
  import opened Wrappers
  import opened FederationTypes
  import opened FederationPolicy
  import opened FederationHistory

  /** One channel's authority. Its four maps are always exactly what a replay of
      the committed events gives. */
  class Model {
    var context: Context
    var receipts: map<Key, (Command, Receipt)>
    var delegations: map<Uuid, Record>
    var messages: map<Uuid, Message>
    var tasks: map<Uuid, Uuid>
    var events: seq<Event>
    var observations: seq<Observation>

    ghost function Projected(): Projection
      reads this
    {
      Projection(messages, delegations, tasks, receipts)
    }

    ghost function Receipted(m: Command, r: Receipt): Projection
      reads this
    {
      Projected().(receipts := receipts[KeyOf(m) := (m, r)])
    }

    ghost predicate Valid()
      reads this
    {
      && Projected() == Replay(events)
      && Genuine(context.authority, context.channel, events)
    }

    constructor (c: Context)
      ensures Valid() && context == c && events == [] && observations == []
    {
      context := c;
      receipts, delegations, messages, tasks := map[], map[], map[], map[];
      events, observations := [], [];
    }

    /** The reservations of *did* are dropped one by one, as the rejection does. */
    method ReleaseReservations(did: Uuid)
      modifies this`tasks
      ensures tasks == Release(old(tasks), did)
    {
      var pending := tasks.Keys;
      while pending != {}
        invariant pending <= old(tasks).Keys
        invariant tasks == map t | t in old(tasks) && (t in pending || old(tasks)[t] != did) :: old(tasks)[t]
        decreases |pending|
      {
        var t :| t in pending;
        pending := pending - {t};
        if tasks[t] == did {
          tasks := tasks - {t};
        }
      }
    }

    /** One step of an existing delegation: the record it leads to, or the
        refusal, noting a result that came after a cancel. */
    method Move(m: Command, current: Record) returns (no: Option<Code>, next: Record)
      requires m.payload.Delegates() && !m.payload.Request?
      modifies this`observations
      ensures no == Objection(context, current, m)
      ensures no.None? ==> next == Advance(current, m.payload)
      ensures observations == Noted(old(observations), NoteFor(context, current, m))
    {
      var p := m.payload;
      next := current;
      if p.Cancel? {
        if m.actor != next.requester && m.actor !in context.admins { return Some(ActorDenied), next; }
      } else if m.actor != next.executor.AsActor() {
        return Some(ActorDenied), next;
      }
      if next.state in {CancelRequested, Cancelled} && p.Result? {
        if Some(p.execution) != next.execution { return Some(ExecutionMismatch), next; }
        var note := Observation(p.execution);
        if note !in observations { observations := observations + [note]; }
        return Some(if next.state == CancelRequested then CancelPending else Terminal), next;
      }
      if p.expected != next.revision { return Some(RevisionConflict), next; }
      if next.state in {Completed, Failed, Cancelled, Rejected} { return Some(Terminal), next; }
      if next.state == Unknown && !p.Cancel? { return Some(ReconcileRequired), next; }
      if next.state !in From(p) { return Some(StateConflict), next; }
      if p.Accept? {
        if !context.policyAllows { return Some(LocalPolicyDenied), next; }
        next := next.(execution := Some(p.execution));
      } else if p.NamesExecution() {
        if next.execution.None? {
          if !p.ConfirmCancel? || !p.neverStarted { return Some(ExecutionMismatch), next; }
        } else if p.execution != next.execution.value {
          return Some(ExecutionMismatch), next;
        }
        if p.ConfirmCancel? && p.neverStarted && next.process == ProcessRunning {
          return Some(StateConflict), next;
        }
      }
      if p.Accept? || p.LoseTrack? {
        next := next.(process := Unclear);
      } else if p.Start? {
        next := next.(process := ProcessRunning);
      } else if p.Result? {
        next := next.(process := Finished);
      } else if p.ConfirmCancel? {
        next := next.(process := if p.neverStarted then NotStarted else Stopped);
      }
      next := next.(state := To(p), revision := next.revision + 1);
      no := None;
    }

    /** The effect of a command no receipt covers yet, or why it is refused. */
    method Perform(m: Command) returns (no: Option<Code>, revision: int, state: State, process: ProcessState)
      modifies this`delegations, this`messages, this`tasks, this`observations
      ensures DecideFresh(context, old(Projected()), |events|, m) ==
              if no.Some? then Refused(no.value) else Committed(ReceiptFor(m, |events|, revision, state, process))
      ensures no.Some? ==> unchanged(`delegations, `messages, `tasks)
      ensures no.None? ==> Receipted(m, ReceiptFor(m, |events|, revision, state, process))
                           == Fold(old(Projected()), EventOf(m, ReceiptFor(m, |events|, revision, state, process)))
      ensures observations == Noted(old(observations), NoteFrom(context, old(delegations), m))
    {
      var p := m.payload;
      no, revision, state, process := None, 0, MessageCommitted, NotApplicable;
      if p.Send? {
        if p.message.id in messages { no := Some(MessageConflict); return; }
        var root := p.message.root;
        if root.Some? && (root.value !in messages || messages[root.value].root.Some?) {
          no := Some(ThreadDenied);
          return;
        }
        messages := messages[p.message.id := p.message];
        return;
      }
      var record;
      if p.Request? {
        if p.did in delegations || p.task in tasks { no := Some(ClaimConflict); return; }
        if p.expected != 0 { no := Some(RevisionConflict); return; }
        if p.source !in messages { no := Some(SourceDenied); return; }
        if p.task !in context.taskSources || context.taskSources[p.task] != p.source {
          no := Some(TaskDenied);
          return;
        }
        record := Record(Requested, 1, m.actor, p.executor, None, NotStarted);
        tasks := tasks[p.task := p.did];
      } else {
        if p.did !in delegations { no := Some(DelegationMissing); return; }
        no, record := Move(m, delegations[p.did]);
        if no.Some? { return; }
      }
      if record.state == Rejected {
        ReleaseReservations(p.did);
      }
      delegations := delegations[p.did := record];
      revision, state, process := record.revision, record.state, record.process;
    }

    method Apply(s: Submission, node: Uuid) returns (d: Decision)
      requires Valid()
      modifies this`receipts, this`delegations, this`messages, this`tasks, this`events, this`observations
      ensures Valid()
      ensures d == Respond(context, Replay(old(events)), |old(events)|, s, node)
      ensures events == if d.Committed? then old(events) + [EventOf(s.command.value, d.receipt)] else old(events)
      ensures !d.Committed? ==> unchanged(`receipts, `delegations, `messages, `tasks)
      ensures observations == Noted(old(observations), NoteOf(context, Replay(old(events)), s, node))
    {
      if s.bytes > MAX_COMMAND_BYTES { return Refused(InvalidSchema); }
      if s.version != 1 { return Refused(VersionUnsupported); }
      if s.command.None? { return Refused(InvalidSchema); }
      var m := s.command.value;
      var no := Admission(context, m, node);
      if no.Some? { return Refused(no.value); }
      var key := KeyOf(m);
      if key in receipts {
        return if receipts[key].0 == m then Duplicate(receipts[key].1) else Refused(IdConflict);
      }
      var revision, state, process;
      no, revision, state, process := Perform(m);
      if no.Some? { return Refused(no.value); }
      var receipt := Receipt(m.request, m.authority, m.channel, CommandEventId(key), |events| + 1,
                             revision, state, process, StatusOf(state));
      CommitsAreLawful(context, Replay(events), |events|, m, node);
      CommandAppend(context.authority, context.channel, events, m, receipt);
      receipts := receipts[key := (m, receipt)];
      events := events + [EventOf(m, receipt)];
      return Committed(receipt);
    }
  }

  /** Local administration of the channel's participants: a second writer that
      appends to the authority's own event stream. */
  class ParticipantModel {
    const authority: Model
    var participants: map<Principal, Membership>
    var operations: map<Uuid, (Change, Principal)>

    ghost predicate Valid()
      reads this, authority
    {
      && authority.Valid()
      && participants == Members(authority.events)
      && operations.Keys == Operations(authority.events)
    }

    constructor (authority: Model)
      requires authority.Valid() && authority.events == []
      ensures Valid() && this.authority == authority && operations == map[]
    {
      this.authority := authority;
      participants, operations := map[], map[];
      new;
    }

    method Apply(change: Change, actor: Principal, localAdmin: bool, publicationAllowed: bool) returns (a: Answer)
      requires Valid()
      modifies this, authority`events
      ensures Valid()
      ensures a == AnswerChange(authority.context, old(participants), old(operations), change, actor, localAdmin, publicationAllowed)
      ensures a != Applied ==> unchanged(this) && unchanged(authority)
      ensures a == Applied ==>
        && authority.events == old(authority.events) + [ChangeEvent(authority.context.authority, authority.context.channel,
                                                                    |old(authority.events)|, change, actor)]
        && operations == old(operations)[change.operation := (change, actor)]
    {
      var c := authority.context;
      if actor.node != c.authority || !localAdmin { return Denied(AdminRequired); }
      if c.archived || !c.online { return Denied(ChannelUnavailable); }
      if change.active && !publicationAllowed { return Denied(PrincipalDenied); }
      if change.operation in operations {
        return if operations[change.operation] == (change, actor) then Repeated else Denied(IdConflict);
      }
      var revision := if change.principal in participants then participants[change.principal].revision else 0;
      if change.expected != revision { return Denied(RevisionConflict); }
      var event := ParticipantEvent(ChangeEventId(c.authority, c.channel, change.operation), c.authority, c.channel,
                                    |authority.events| + 1, actor, change.principal,
                                    Membership(change.role, change.active, revision + 1));
      participants := participants[change.principal := event.membership];
      ChangeAppend(c.authority, c.channel, authority.events, change, actor);
      operations := operations[change.operation := (change, actor)];
      authority.events := authority.events + [event];
      return Applied;
    }
  }
}

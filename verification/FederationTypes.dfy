/** Wire and storage vocabulary of one federated channel (federation contract v1).

    A `Uuid` is one number per accepted identifier text: nothing here looks inside
    one. Canonical JSON is an injective encoding, so a canonical body is represented
    by the value it encodes. */
module FederationTypes {
  import opened Wrappers

  type Uuid = nat

  datatype PrincipalKind = AgentKind | HumanKind

  datatype Principal = Principal(node: Uuid, kind: PrincipalKind, id: Uuid)

  datatype Agent = Agent(node: Uuid, id: Uuid) {
    function AsActor(): Principal {
      Principal(node, AgentKind, id)
    }
  }

  datatype Capability = CanSend | CanRequest | CanCancel | CanExecute

  datatype Grant = Grant(active: bool, expiresAt: int, epoch: int,
                         actors: set<Principal>, capabilities: set<Capability>)

  /** The authority's current policy; it may change freely between commands. */
  datatype Context = Context(
    authority: Uuid, channel: Uuid, now: int, archived: bool, online: bool,
    policyAllows: bool, grants: map<Uuid, Grant>, exports: set<Agent>,
    admins: set<Principal>, taskSources: map<Uuid, Uuid>)

  datatype Message = Message(id: Uuid, root: Option<Uuid>, text: string)

  datatype Outcome = Succeeded(text: string) | Fault(errorCode: string)

  datatype Payload =
    | Send(message: Message)
    | Request(did: Uuid, expected: int, task: Uuid, source: Uuid, executor: Agent)
    | Accept(did: Uuid, expected: int, execution: Uuid)
    | Reject(did: Uuid, expected: int, reason: string)
    | Start(did: Uuid, expected: int, execution: Uuid)
    | Result(did: Uuid, expected: int, execution: Uuid, outcome: Outcome)
    | Cancel(did: Uuid, expected: int)
    | ConfirmCancel(did: Uuid, expected: int, execution: Uuid, neverStarted: bool)
    | LoseTrack(did: Uuid, expected: int, execution: Uuid)
  {
    predicate Delegates() {
      !Send?
    }

    predicate NamesExecution() {
      Accept? || Start? || Result? || ConfirmCancel? || LoseTrack?
    }
  }

  datatype Command = Command(request: Uuid, sender: Uuid, authority: Uuid, channel: Uuid,
                             epoch: int, actor: Principal, payload: Payload)

  /** What reaches the authority: the canonical size, the version field, and the
      command when the bytes satisfy the command schema. */
  datatype Submission = Submission(bytes: nat, version: int, command: Option<Command>)

  datatype State =
    | MessageCommitted | Requested | Accepted | Running | Completed | Failed
    | Rejected | CancelRequested | Cancelled | Unknown

  datatype ProcessState = NotApplicable | NotStarted | Unclear | ProcessRunning | Finished | Stopped

  datatype TaskStatus = Todo | InProgress | Blocked | Done | TaskFailed

  datatype Record = Record(state: State, revision: int, requester: Principal, executor: Agent,
                           execution: Option<Uuid>, process: ProcessState)

  /** One element of the list an event id is derived from. */
  datatype Part = Id(uuid: Uuid) | Word(word: string)

  /** UUIDv5 (section 5.5 of RFC 9562) over the canonical JSON of a four-element
      list, taken to be injective. A channel id satisfies the UUID format, so it is
      never the word "participant" and the two id schemes below cannot meet. */
  datatype EventId = Uuid5(first: Part, second: Part, third: Part, fourth: Part)

  datatype Key = Key(sender: Uuid, authority: Uuid, channel: Uuid, request: Uuid)

  datatype Receipt = Receipt(request: Uuid, authority: Uuid, channel: Uuid, eventId: EventId,
                             seqNo: int, revision: int, state: State, process: ProcessState,
                             taskStatus: Option<TaskStatus>)

  datatype Role = Observer | Member | Admin | Owner

  datatype Membership = Membership(role: Role, active: bool, revision: int)

  datatype Event =
    | CommandEvent(eventId: EventId, authority: Uuid, channel: Uuid, seqNo: int,
                   request: Command, receipt: Receipt)
    | ParticipantEvent(eventId: EventId, authority: Uuid, channel: Uuid, seqNo: int,
                       actor: Principal, principal: Principal, membership: Membership)

  datatype Change = Change(operation: Uuid, principal: Principal, role: Role, active: bool,
                           expected: int)

  datatype Code =
    | InvalidSchema | VersionUnsupported | IdentityMismatch | WrongAuthority | ChannelDenied
    | GrantDenied | PrincipalDenied | ScopeDenied | ExecutorDenied | AuthorityUnavailable
    | IdConflict | MessageConflict | ThreadDenied | ClaimConflict | RevisionConflict
    | SourceDenied | TaskDenied | DelegationMissing | ActorDenied | ExecutionMismatch
    | CancelPending | Terminal | ReconcileRequired | StateConflict | LocalPolicyDenied
    | AdminRequired | ChannelUnavailable | EventIntegrity | EventGap

  datatype Decision = Refused(code: Code) | Duplicate(first: Receipt) | Committed(receipt: Receipt)

  /** Answers of the two writers that return no receipt. */
  datatype Answer = Applied | Repeated | Denied(code: Code)

  function KeyOf(c: Command): Key {
    Key(c.sender, c.authority, c.channel, c.request)
  }

  function CommandEventId(k: Key): EventId {
    Uuid5(Id(k.sender), Id(k.authority), Id(k.channel), Id(k.request))
  }

  function ChangeEventId(authority: Uuid, channel: Uuid, operation: Uuid): EventId {
    Uuid5(Id(authority), Id(channel), Word("participant"), Id(operation))
  }

}

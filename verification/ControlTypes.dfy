/** What every component of the model shares. */
module Wrappers {
  datatype Option<+T> = None | Some(value: T)

  lemma SubsetSize<T>(a: set<T>, b: set<T>)
    requires a <= b
    ensures |a| <= |b|
  {
    assert b == a + (b - a);
  }
}

/**
 * The records of the installation control plane (state.json, messages.jsonl,
 * events.jsonl, installation.json and the transition journal) and its tables.
 *
 * Identifiers, timestamps and digests are opaque numbers. A JSON object whose
 * last field is a digest of the others is a pair of a body and a digest.
 */
module ControlTypes {
  import opened Wrappers

  type Id = int
  type Timestamp = int
  type Digest = int

  datatype Status =
    | Uninitialized | Bootstrapping | DiscoveringLeaderCandidates | AwaitingLeaderSelection
    | AwaitingLeaderStart | ActivatingLeader | Active | RestartingLeader
    | ReconcilingCapabilities | RotatingLeader | Migrating | RollbackRequired
    | Degraded | Blocked | Retired

  /** Event kinds of TRANSITION_CONTRACTS; any other string is `UndeclaredEvent`. */
  datatype EventKind =
    | InstallationInitialized | BootstrapDiscoveryStarted | LeaderCandidateDiscoveryCompleted
    | LeaderSelectionApproved | LeaderStartRequested | LeaderStartRecoveryApproved
    | LeaderRestartRequested | LeaderRestartRolledBack | LeaderActivationFailed
    | LeaderHealthFailed | LeaderActivated | LeaderRotationApproved
    | EmergencyLeaderRotationApproved | LeaderRotationCompleted
    | CapabilityReconciliationStarted | CapabilityReconciliationCompleted
    | MigrationApplyApproved | MigrationActivated | MigrationRolledBack | MigrationUnrecoverable
    | UndeclaredEvent(name: string)

  datatype MessageKind =
    | CommandInit | CommandDiscover | ResultDiscovery | CommandSelect | CommandStart
    | CommandRecoverStart | CommandRestart | ResultRestartRolledBack | ResultActivationFailed
    | ResultHealthFailed | EventActivated | CommandRotate | CommandRotateEmergency
    | EventRotationCompleted | CommandReconcile | ResultReconcile | CommandMigrate
    | EventMigrationActivated | EventMigrationRolledBack | EventMigrationBlocked
    | QueryHello | QueryCandidates
    | UndeclaredMessage(name: string)

  datatype PrincipalKind =
    | BootstrapController | Human | RuntimeAdapter | InstallationLeader
    | OtherPrincipal(name: string)

  datatype Runtime = Runtime(adapterId: string, adapterClass: string, launchArgv: seq<string>)

  datatype SelectedLeader = SelectedLeader(
    principalId: string, principalKind: string, selectionId: Id, passportDigest: Digest, runtime: Runtime)

  datatype ActiveLeader = ActiveLeader(
    principalId: string, principalKind: string, bindingDigest: Digest, generation: int)

  /** What a leader activation was prepared for. */
  datatype Activation = StartActivation | RecoverStartActivation | RestartActivation | RotateActivation

  /** The remaining payload keys and values. */
  datatype DetailKey =
    | ControlRoot | ProtocolVersion | ReadOnly | CandidateCount | SelectionId | ProposedLeaderEpoch
    | ApprovedSessionId | PriorBindingDigest | BindingDigest | OperationKey | AdapterId | OldEpoch
    | ObservationCount | MigrationId | PlanDigest | ReceiptDigest | OtherKey(name: string)

  datatype Detail =
    | Text(text: string) | Number(number: int) | Flag(flag: bool) | VersionTag(version: Version)
    | ActivationTag(activation: Activation)

  /**
   * A message payload: the four protected state fields and the blockers, each
   * present or absent, and every other key. A present leader may be JSON null.
   */
  datatype Payload = Payload(
    activeLeader: Option<Option<ActiveLeader>>,
    selectedLeader: Option<Option<SelectedLeader>>,
    activeLeaderEpoch: Option<int>,
    registryRevision: Option<int>,
    activeBlockers: Option<seq<EventKind>>,
    details: map<DetailKey, Detail>)

  datatype StateBody = StateBody(
    installationId: Id, revision: int, status: Status,
    selectedLeader: Option<SelectedLeader>, activeLeader: Option<ActiveLeader>,
    activeLeaderEpoch: int, registryRevision: int, activeBlockers: seq<EventKind>,
    lastEventId: Option<Id>, lastEventDigest: Option<Digest>, updatedAt: Timestamp)

  datatype State = State(body: StateBody, projectionDigest: Digest)

  /** The fields bound by a message's content digest. */
  datatype Content = Content(
    kind: MessageKind, principalId: string, epoch: int, expectedRevision: int, payload: Payload)

  datatype TransitionResult = TransitionResult(messageId: Id, eventId: Id, revision: int, status: Status)

  datatype MessageBody = MessageBody(
    messageId: Id, idempotencyKey: string, installationId: Id, senderPrincipalId: string,
    senderKind: PrincipalKind, leaderEpoch: int, expectedStateRevision: int, kind: MessageKind,
    payload: Payload, contentDigest: Digest, sentAt: Timestamp, installationSequence: int,
    eventId: Id, result: TransitionResult, resultRevision: int)

  datatype Message = Message(body: MessageBody, messageDigest: Digest)

  datatype EventBody = EventBody(
    eventId: Id, installationSequence: int, installationId: Id, leaderEpoch: int,
    taskId: Option<string>, eventKind: EventKind, acceptedMessageId: Id, priorRevision: int,
    newRevision: int, occurredAt: Timestamp, actorPrincipalId: string, payload: Payload,
    stateProjection: State, priorEventDigest: Option<Digest>)

  datatype Event = Event(body: EventBody, eventDigest: Digest)

  datatype Version = Legacy020 | Draft030 | Stable030

  datatype Installation = Installation(
    installationId: Id, activeProtocolVersion: Version, activeLeaderEpoch: int,
    installationStatus: Status, createdAt: Timestamp)

  datatype JournalBody = JournalBody(
    message: Message, event: Event, nextState: State, installation: Installation)

  datatype Journal = Journal(body: JournalBody, journalDigest: Digest)

  /**
   * The digest function of the source, one component per record type. Nothing is
   * assumed of it: a result that needs collision freedom says so in its `requires`.
   */
  datatype Digests = Digests(
    content: Content -> Digest, message: MessageBody -> Digest, event: EventBody -> Digest,
    state: StateBody -> Digest, journal: JournalBody -> Digest)

  /** LEGAL_TRANSITIONS. */
  predicate Legal(source: Status, target: Status) {
    match source
    case Uninitialized => target.Bootstrapping?
    case Bootstrapping => target.DiscoveringLeaderCandidates? || target.Blocked?
    case DiscoveringLeaderCandidates => target.AwaitingLeaderSelection? || target.Blocked?
    case AwaitingLeaderSelection =>
      target.DiscoveringLeaderCandidates? || target.AwaitingLeaderStart? || target.Blocked?
    case AwaitingLeaderStart => target.ActivatingLeader? || target.Blocked?
    case ActivatingLeader => target.Active? || target.Blocked?
    case Active =>
      || target.RestartingLeader? || target.ReconcilingCapabilities? || target.Migrating?
      || target.RotatingLeader? || target.Degraded? || target.Blocked? || target.Retired?
    case RestartingLeader => target.Active? || target.Blocked?
    case ReconcilingCapabilities => target.Active? || target.Degraded? || target.Blocked?
    case RotatingLeader => target.Active? || target.Blocked?
    case Migrating => target.Active? || target.RollbackRequired? || target.Blocked?
    case RollbackRequired => target.Active? || target.Blocked?
    case Degraded =>
      || target.ReconcilingCapabilities? || target.RotatingLeader? || target.Migrating?
      || target.Blocked? || target.Retired?
    case Blocked => target.ActivatingLeader? || target.Active? || target.Retired?
    case Retired => false
  }

  /** BOOTSTRAP_CORE_KINDS: the message kinds that may carry epoch 0. */
  predicate BootstrapCore(k: MessageKind) {
    || k.QueryHello? || k.QueryCandidates? || k.CommandDiscover? || k.ResultDiscovery?
    || k.CommandInit? || k.CommandSelect? || k.CommandStart? || k.CommandRecoverStart?
    || k.EventActivated? || k.ResultActivationFailed?
  }

  /** TRANSITION_CONTRACTS: the message kind and principal kind an event kind demands. */
  function Contract(k: EventKind): Option<(MessageKind, PrincipalKind)> {
    match k
    case InstallationInitialized => Some((CommandInit, BootstrapController))
    case BootstrapDiscoveryStarted => Some((CommandDiscover, BootstrapController))
    case LeaderCandidateDiscoveryCompleted => Some((ResultDiscovery, BootstrapController))
    case LeaderSelectionApproved => Some((CommandSelect, Human))
    case LeaderStartRequested => Some((CommandStart, BootstrapController))
    case LeaderStartRecoveryApproved => Some((CommandRecoverStart, Human))
    case LeaderRestartRequested => Some((CommandRestart, Human))
    case LeaderRestartRolledBack => Some((ResultRestartRolledBack, RuntimeAdapter))
    case LeaderActivationFailed => Some((ResultActivationFailed, RuntimeAdapter))
    case LeaderHealthFailed => Some((ResultHealthFailed, RuntimeAdapter))
    case LeaderActivated => Some((EventActivated, BootstrapController))
    case LeaderRotationApproved => Some((CommandRotate, Human))
    case EmergencyLeaderRotationApproved => Some((CommandRotateEmergency, Human))
    case LeaderRotationCompleted => Some((EventRotationCompleted, BootstrapController))
    case CapabilityReconciliationStarted => Some((CommandReconcile, InstallationLeader))
    case CapabilityReconciliationCompleted => Some((ResultReconcile, InstallationLeader))
    case MigrationApplyApproved => Some((CommandMigrate, Human))
    case MigrationActivated => Some((EventMigrationActivated, BootstrapController))
    case MigrationRolledBack => Some((EventMigrationRolledBack, BootstrapController))
    case MigrationUnrecoverable => Some((EventMigrationBlocked, BootstrapController))
    case UndeclaredEvent(_) => None
  }

  /** TRANSITION_TARGETS. */
  function Target(k: EventKind): Option<Status> {
    match k
    case InstallationInitialized => Some(Bootstrapping)
    case BootstrapDiscoveryStarted => Some(DiscoveringLeaderCandidates)
    case LeaderCandidateDiscoveryCompleted => Some(AwaitingLeaderSelection)
    case LeaderSelectionApproved => Some(AwaitingLeaderStart)
    case LeaderStartRequested => Some(ActivatingLeader)
    case LeaderStartRecoveryApproved => Some(ActivatingLeader)
    case LeaderRestartRequested => Some(RestartingLeader)
    case LeaderRestartRolledBack => Some(Active)
    case LeaderActivationFailed => Some(Blocked)
    case LeaderHealthFailed => Some(Degraded)
    case LeaderActivated => Some(Active)
    case LeaderRotationApproved => Some(RotatingLeader)
    case EmergencyLeaderRotationApproved => Some(RotatingLeader)
    case LeaderRotationCompleted => Some(Active)
    case CapabilityReconciliationStarted => Some(ReconcilingCapabilities)
    case CapabilityReconciliationCompleted => Some(Active)
    case MigrationApplyApproved => Some(Migrating)
    case MigrationActivated => Some(Active)
    case MigrationRolledBack => Some(Active)
    case MigrationUnrecoverable => Some(Blocked)
    case UndeclaredEvent(_) => None
  }

  /** The protected fields of a state projection. */
  datatype Field = ActiveLeaderField | SelectedLeaderField | EpochField | RegistryField

  /** TRANSITION_PAYLOAD_STATE_FIELDS: the protected fields an event kind may change. */
  predicate Declares(k: EventKind, f: Field) {
    match f
    case ActiveLeaderField => k.LeaderActivated? || k.LeaderRotationCompleted?
    case EpochField => k.LeaderActivated? || k.LeaderRotationCompleted?
    case SelectedLeaderField =>
      k.LeaderSelectionApproved? || k.LeaderRotationApproved? || k.EmergencyLeaderRotationApproved?
    case RegistryField => k.CapabilityReconciliationCompleted?
  }
}

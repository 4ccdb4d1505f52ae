/**
 * The public operations of the control plane. Each reads state.json (and the files
 * it names) without the lock, refuses or prepares one request, and submits it.
 */
module LeaderOperations {
  import opened Wrappers
  import opened ControlTypes
  import opened TransitionContract

  /** leader-session-binding.json. */
  datatype Binding = Binding(
    principalId: string, leaderEpoch: int, generation: int, active: bool, bindingDigest: Digest)

  /** What an operation has read: the state, the binding and the last event. */
  datatype View = View(state: State, binding: Option<Binding>, tail: Option<Event>)

  /**
   * One call. Evidence files outside the journal (passports, receipts, provisioning
   * proofs) are reduced to whether their checks pass.
   */
  datatype Operation =
    | Initialize(controlRoot: string)
    | StartDiscovery
    | CompleteDiscovery(candidateCount: nat)
    | SelectLeader(candidate: SelectedLeader)
    | StartLeader
    | RecoverStart(sessionId: string, approved: bool, evidencePasses: bool)
    | RestartLeader
    | RestoreLeader
    | FailActivation(activation: Activation, adapterId: string)
    | ActivateLeader(provisioned: ActiveLeader, proofPasses: bool)
    | ReportHealthFailure
    | RotateLeader(candidate: SelectedLeader)
    | StartReconciliation(observationCount: nat)
    | FinishReconciliation(registryRevision: int)
    | ApproveMigration(migrationId: string, planDigest: Digest)
    | ActivateMigration(migrationId: string, receiptDigest: Digest)
    | RollBackMigration(migrationId: string)
    | BlockMigration(migrationId: string)

  function Details(details: map<DetailKey, Detail>): Payload {
    Payload(None, None, None, None, None, details)
  }

  function Bootstrap(
      k: EventKind, m: MessageKind, epoch: int, s: StateBody, p: Payload, t: Status, key: string): Option<Request>
  {
    Some(Request(k, m, BOOTSTRAP_PRINCIPAL, BootstrapController, epoch, s.revision, p, t, key, None))
  }

  function ByUser(
      k: EventKind, m: MessageKind, epoch: int, s: StateBody, p: Payload, t: Status, key: string): Option<Request>
  {
    Some(Request(k, m, USER_PRINCIPAL, Human, epoch, s.revision, p, t, key, None))
  }

  function ByAdapter(k: EventKind, m: MessageKind, s: StateBody, p: Payload, t: Status, key: string): Option<Request> {
    Some(Request(k, m, ADAPTER_PRINCIPAL, RuntimeAdapter, s.activeLeaderEpoch, s.revision, p, t, key, None))
  }

  function ByLeader(k: EventKind, m: MessageKind, s: StateBody, p: Payload, t: Status, key: string): Option<Request> {
    var principal := if s.activeLeader.Some? then s.activeLeader.value.principalId else "unknown";
    Some(Request(k, m, principal, InstallationLeader, s.activeLeaderEpoch, s.revision, p, t, key, None))
  }

  predicate HasLeader(selected: Option<SelectedLeader>) {
    selected.Some? && selected.value.principalId != ""
  }

  /** The installation status a failed activation must find. */
  function ActivationStatus(a: Activation): Status {
    match a
    case StartActivation => ActivatingLeader
    case RecoverStartActivation => ActivatingLeader
    case RestartActivation => RestartingLeader
    case RotateActivation => RotatingLeader
  }

  predicate TailMatches(v: View) {
    && v.tail.Some?
    && v.state.body.lastEventId == Some(v.tail.value.body.eventId)
    && v.state.body.lastEventDigest == Some(v.tail.value.eventDigest)
  }

  /** The blocked state left by a failed restart whose prior binding is still the active one. */
  predicate RestartFailed(v: View) {
    var s := v.state.body;
    && s.status == Blocked
    && s.activeBlockers == [LeaderActivationFailed]
    && v.tail.Some?
    && v.tail.value.body.eventKind == LeaderActivationFailed
    && OperationKey in v.tail.value.body.payload.details
    && v.tail.value.body.payload.details[OperationKey] == ActivationTag(RestartActivation)
    && v.binding.Some? && v.binding.value.active
    && v.binding.value.leaderEpoch == s.activeLeaderEpoch
  }

  /** The request an operation submits, or None when it refuses on what it read. */
  function Prepare(op: Operation, v: View, key: string): Option<Request> {
    var s := v.state.body;
    match op
    case Initialize(root) =>
      Some(Request(InstallationInitialized, CommandInit, BOOTSTRAP_PRINCIPAL, BootstrapController, 0, 0,
                   Details(map[ControlRoot := Text(root), ProtocolVersion := VersionTag(Stable030)]),
                   Bootstrapping, key, None))
    case StartDiscovery =>
      if s.status != Bootstrapping && s.status != AwaitingLeaderSelection then None
      else Bootstrap(BootstrapDiscoveryStarted, CommandDiscover, 0, s, Details(map[ReadOnly := Flag(true)]),
                     DiscoveringLeaderCandidates, key)
    case CompleteDiscovery(count) =>
      if s.status != DiscoveringLeaderCandidates then None
      else Bootstrap(LeaderCandidateDiscoveryCompleted, ResultDiscovery, 0, s,
                     Details(map[CandidateCount := Number(count)]), AwaitingLeaderSelection, key)
    case SelectLeader(candidate) =>
      // Discovery drops passports without a principal, so no candidate has an empty one.
      if s.status != AwaitingLeaderSelection || candidate.principalId == "" then None
      else ByUser(LeaderSelectionApproved, CommandSelect, 0, s,
                  Details(map[SelectionId := Number(candidate.selectionId)]).(selectedLeader := Some(Some(candidate))),
                  AwaitingLeaderStart, key)
    case StartLeader =>
      if s.status != AwaitingLeaderStart || !HasLeader(s.selectedLeader) then None
      else Bootstrap(LeaderStartRequested, CommandStart, 0, s,
                     Details(map[SelectionId := Number(s.selectedLeader.value.selectionId),
                                 ProposedLeaderEpoch := Number(s.activeLeaderEpoch + 1)]),
                     ActivatingLeader, key)
    case RecoverStart(session, approved, evidencePasses) =>
      if !approved || session == "" || s.status != Blocked || s.activeLeaderEpoch != 0 || s.activeLeader.Some?
         || v.binding.Some? || s.activeBlockers != [LeaderActivationFailed] || s.selectedLeader.None? || !evidencePasses
      then None
      else ByUser(LeaderStartRecoveryApproved, CommandRecoverStart, 0, s,
                  Details(map[ApprovedSessionId := Text(session), ProposedLeaderEpoch := Number(1)]),
                  ActivatingLeader, key)
    case RestartLeader =>
      if s.status != Active || s.activeLeaderEpoch < 1 || s.selectedLeader.None? || v.binding.None?
         || !v.binding.value.active || v.binding.value.leaderEpoch != s.activeLeaderEpoch
         || v.binding.value.principalId != s.selectedLeader.value.principalId
      then None
      else ByUser(LeaderRestartRequested, CommandRestart, s.activeLeaderEpoch, s,
                  Details(map[PriorBindingDigest := Number(v.binding.value.bindingDigest),
                              ProposedLeaderEpoch := Number(s.activeLeaderEpoch + 1)]),
                  RestartingLeader, key)
    case RestoreLeader =>
      if !RestartFailed(v) then None
      else ByAdapter(LeaderRestartRolledBack, ResultRestartRolledBack, s,
                     Details(map[BindingDigest := Number(v.binding.value.bindingDigest)]), Active, key)
    case FailActivation(a, adapterId) =>
      if s.status != ActivationStatus(a) || !HasLeader(s.selectedLeader)
         || (a.RecoverStartActivation?
             && !(TailMatches(v) && v.tail.value.body.eventKind == LeaderStartRecoveryApproved))
      then None
      else ByAdapter(LeaderActivationFailed, ResultActivationFailed, s,
                     Details(map[OperationKey := ActivationTag(a), AdapterId := Text(adapterId),
                                 ProposedLeaderEpoch := Number(s.activeLeaderEpoch + 1)])
                       .(activeBlockers := Some([LeaderActivationFailed])),
                     Blocked, key)
    case ActivateLeader(leader, proofPasses) =>
      var firstStart := s.status == ActivatingLeader && s.activeLeaderEpoch == 0;
      var restarting := s.status == RestartingLeader && s.activeLeaderEpoch >= 1;
      var rotating := s.status == RotatingLeader && s.activeLeaderEpoch >= 1;
      if !TailMatches(v) || !(firstStart || restarting || rotating) || s.selectedLeader.None?
         || (!firstStart && v.binding.None?) || !proofPasses
         || leader.principalId != s.selectedLeader.value.principalId
         || leader.generation != (if firstStart then 1 else v.binding.value.generation + 1)
      then None
      else Bootstrap(if rotating then LeaderRotationCompleted else LeaderActivated,
                     if rotating then EventRotationCompleted else EventActivated,
                     s.activeLeaderEpoch, s,
                     Details(map[]).(activeLeader := Some(Some(leader)),
                                     activeLeaderEpoch := Some(s.activeLeaderEpoch + 1)),
                     Active, key)
    case ReportHealthFailure =>
      // The one declared contract without a caller in valp_cli; its users submit it while active.
      if s.status != Active then None
      else ByAdapter(LeaderHealthFailed, ResultHealthFailed, s, Details(map[]), Degraded, key)
    case RotateLeader(candidate) =>
      if (s.status != Active && s.status != Degraded) || candidate.principalId == ""
         || (s.activeLeader.Some? && s.activeLeader.value.principalId == candidate.principalId)
         || v.binding.None? || v.binding.value.leaderEpoch != s.activeLeaderEpoch
      then None
      else ByUser(if s.status == Degraded then EmergencyLeaderRotationApproved else LeaderRotationApproved,
                  if s.status == Degraded then CommandRotateEmergency else CommandRotate,
                  s.activeLeaderEpoch, s,
                  Details(map[OldEpoch := Number(s.activeLeaderEpoch),
                              ProposedLeaderEpoch := Number(s.activeLeaderEpoch + 1)])
                    .(selectedLeader := Some(Some(candidate))),
                  RotatingLeader, key)
    case StartReconciliation(count) =>
      if (s.status != Active && s.status != Degraded) || count == 0 then None
      else ByLeader(CapabilityReconciliationStarted, CommandReconcile, s,
                    Details(map[ObservationCount := Number(count)]).(registryRevision := Some(s.registryRevision)),
                    ReconcilingCapabilities, key)
    case FinishReconciliation(revision) =>
      ByLeader(CapabilityReconciliationCompleted, ResultReconcile, s,
               Details(map[]).(registryRevision := Some(revision)), Active, key)
    case ApproveMigration(id, plan) =>
      if s.status != Active && s.status != Degraded then None
      else ByUser(MigrationApplyApproved, CommandMigrate, s.activeLeaderEpoch, s,
                  Details(map[MigrationId := Text(id), PlanDigest := Number(plan)]), Migrating, key)
    case ActivateMigration(id, receipt) =>
      if s.status != Migrating then None
      else Bootstrap(MigrationActivated, EventMigrationActivated, s.activeLeaderEpoch, s,
                     Details(map[MigrationId := Text(id), ReceiptDigest := Number(receipt)]), Active, key)
    case RollBackMigration(id) =>
      if s.status != Migrating then None
      else Bootstrap(MigrationRolledBack, EventMigrationRolledBack, s.activeLeaderEpoch, s,
                     Details(map[MigrationId := Text(id)]), Active, key)
    case BlockMigration(id) =>
      if s.status != Migrating then None
      else Bootstrap(MigrationUnrecoverable, EventMigrationBlocked, s.activeLeaderEpoch, s,
                     Details(map[MigrationId := Text(id)]).(activeBlockers := Some([MigrationUnrecoverable])),
                     Blocked, key)
  }

  // ---------------------------------------------------------------- what every state satisfies

  /** A leader has never been activated in these statuses. */
  predicate BeforeActivation(t: Status) {
    || t.Uninitialized? || t.Bootstrapping? || t.DiscoveringLeaderCandidates?
    || t.AwaitingLeaderSelection? || t.AwaitingLeaderStart? || t.ActivatingLeader?
  }

  predicate GoodState(s: StateBody) {
    && s.revision >= 0 && s.activeLeaderEpoch >= 0
    && (s.activeLeader.None? <==> s.activeLeaderEpoch == 0)
    && (s.activeLeader.Some? ==> s.activeLeader.value.principalId != "")
    && (s.selectedLeader.Some? ==> s.selectedLeader.value.principalId != "")
    && (BeforeActivation(s.status) ==> s.activeLeaderEpoch == 0)
    && (!BeforeActivation(s.status) && s.status != Blocked ==> s.activeLeaderEpoch >= 1)
    && (s.status == Blocked ==> s.activeBlockers != [])
    && (s.activeBlockers != [] ==> s.status == Blocked || s.status == ActivatingLeader)
    && (s.revision == 0 <==> s.status == Uninitialized)
    && (s.status == RotatingLeader ==>
          && s.selectedLeader.Some? && s.activeLeader.Some?
          && s.selectedLeader.value.principalId != s.activeLeader.value.principalId)
  }

  /** The binding file only ever holds what an activation wrote. */
  predicate GoodView(v: View) {
    && GoodState(v.state.body)
    && (v.binding.Some? ==> v.binding.value.leaderEpoch >= 1)
  }

  /** The epoch moves only when a leader is activated, and then by one. */
  predicate EpochLaw(prior: StateBody, kind: EventKind, next: StateBody) {
    if kind.LeaderActivated? || kind.LeaderRotationCompleted?
    then next.activeLeaderEpoch == prior.activeLeaderEpoch + 1
    else next.activeLeaderEpoch == prior.activeLeaderEpoch
  }

  /**
   * A leader becomes active only as the one selected before; a rotation replaces the
   * leader by another one; nothing else touches the active or the selected leader.
   */
  predicate LeaderLaw(prior: StateBody, kind: EventKind, next: StateBody) {
    && (if kind.LeaderActivated? || kind.LeaderRotationCompleted?
        then next.activeLeader.Some? && prior.selectedLeader.Some?
             && next.activeLeader.value.principalId == prior.selectedLeader.value.principalId
        else next.activeLeader == prior.activeLeader)
    && (kind.LeaderRotationCompleted? ==>
          prior.activeLeader.Some? && next.activeLeader.value.principalId != prior.activeLeader.value.principalId)
    && (kind.LeaderSelectionApproved? || kind.LeaderRotationApproved? || kind.EmergencyLeaderRotationApproved?
        || next.selectedLeader == prior.selectedLeader)
    && (kind.CapabilityReconciliationCompleted? || next.registryRevision == prior.registryRevision)
  }

  predicate AuthorityLaw(prior: StateBody, kind: EventKind, next: StateBody) {
    EpochLaw(prior, kind, next) && LeaderLaw(prior, kind, next)
  }

  /** Every request is submitted with the revision that was read (`init` assumes revision 0). */
  lemma RequestCarriesReadRevision(op: Operation, v: View, key: string)
    requires Prepare(op, v, key).Some?
    ensures Prepare(op, v, key).value.expectedRevision == if op.Initialize? then 0 else v.state.body.revision
  {
  }

  lemma InitializeIgnoresView(op: Operation, v: View, v': View, key: string)
    requires op.Initialize?
    ensures Prepare(op, v, key) == Prepare(op, v', key)
  {
  }

  lemma OperationPrincipal(op: Operation, v: View, key: string)
    requires GoodView(v) && Prepare(op, v, key).Some?
    requires Refusal(v.state.body, Prepare(op, v, key).value).None?
    ensures var q, leader := Prepare(op, v, key).value, v.state.body.activeLeader;
            q.principalId != "" && q.principalId == ExpectedPrincipal(q.principalKind, leader)
  {
  }

  lemma OperationFields(op: Operation, v: View, key: string, f: Field)
    requires Prepare(op, v, key).Some?
    ensures FieldDeclared(Prepare(op, v, key).value, v.state.body, f)
  {
    hide RestartFailed, TailMatches, HasLeader, ActivationStatus;
  }

  /**
   * Whatever an operation prepares against the current state conforms to the
   * contract of its event kind. With `WedgeIffNotConforming`, no public operation
   * can leave a journal that recovery refuses.
   */
  lemma OperationConforms(op: Operation, v: View, key: string)
    requires GoodView(v) && Prepare(op, v, key).Some?
    requires Refusal(v.state.body, Prepare(op, v, key).value).None?
    ensures Conforming(Prepare(op, v, key).value, v.state.body)
  {
    OperationPrincipal(op, v, key);
    OperationFields(op, v, key, ActiveLeaderField);
    OperationFields(op, v, key, SelectedLeaderField);
    OperationFields(op, v, key, EpochField);
    OperationFields(op, v, key, RegistryField);
    OperationContract(op, v, key);
  }

  lemma OperationContract(op: Operation, v: View, key: string)
    requires Prepare(op, v, key).Some?
    ensures var q := Prepare(op, v, key).value;
      && Contract(q.eventKind) == Some((q.messageKind, q.principalKind))
      && Target(q.eventKind) == Some(q.targetStatus)
      && (q.principalKind.InstallationLeader? ==> q.payload.activeLeader.None?)
  {
    hide RestartFailed, TailMatches, HasLeader, ActivationStatus;
  }

  /** An accepted operation keeps the state invariant. */
  lemma OperationPreserves(op: Operation, v: View, key: string, z: Stamps)
    requires GoodView(v) && Prepare(op, v, key).Some?
    requires Refusal(v.state.body, Prepare(op, v, key).value).None?
    ensures GoodState(NextBody(v.state.body, Prepare(op, v, key).value, z))
  {
    hide TailMatches, ActivationStatus;
  }

  /** An accepted operation obeys the laws of epoch and leader. */
  lemma OperationObeys(op: Operation, v: View, key: string, z: Stamps)
    requires GoodView(v) && Prepare(op, v, key).Some?
    requires Refusal(v.state.body, Prepare(op, v, key).value).None?
    ensures AuthorityLaw(v.state.body, Prepare(op, v, key).value.eventKind,
                         NextBody(v.state.body, Prepare(op, v, key).value, z))
  {
  }

  // ---------------------------------------------------------------- what each operation is for

  /** The operation is accepted when it is submitted against the state it has read. */
  predicate Accepts(op: Operation, v: View, key: string) {
    Prepare(op, v, key).Some? && Refusal(v.state.body, Prepare(op, v, key).value).None?
  }

  /** The binding names the leader epoch of the state. */
  predicate BindingCurrent(v: View) {
    v.binding.Some? && v.binding.value.leaderEpoch == v.state.body.activeLeaderEpoch
  }

  /** The last event read is of this kind and is the one the state names. */
  predicate PreparedBy(v: View, kind: EventKind) {
    TailMatches(v) && v.tail.value.body.eventKind == kind
  }

  /** When a good installation lets an operation through. */
  predicate Enabled(op: Operation, v: View) {
    var s := v.state.body;
    match op
    case Initialize(_) => s.status.Uninitialized?
    case StartDiscovery => s.status.Bootstrapping? || s.status.AwaitingLeaderSelection?
    case CompleteDiscovery(_) => s.status.DiscoveringLeaderCandidates?
    case SelectLeader(candidate) => s.status.AwaitingLeaderSelection? && candidate.principalId != ""
    case StartLeader => s.status.AwaitingLeaderStart? && s.selectedLeader.Some?
    case RecoverStart(session, approved, evidencePasses) =>
      && s.status.Blocked? && s.activeLeaderEpoch == 0 && s.activeBlockers == [LeaderActivationFailed]
      && s.selectedLeader.Some? && v.binding.None?
      && approved && session != "" && evidencePasses
    case RestartLeader =>
      && s.status.Active? && s.selectedLeader.Some? && BindingCurrent(v)
      && v.binding.value.active && v.binding.value.principalId == s.selectedLeader.value.principalId
    case RestoreLeader =>
      && s.status.Blocked? && s.activeBlockers == [LeaderActivationFailed]
      && v.tail.Some? && v.tail.value.body.eventKind == LeaderActivationFailed
      && OperationKey in v.tail.value.body.payload.details
      && v.tail.value.body.payload.details[OperationKey] == ActivationTag(RestartActivation)
      && BindingCurrent(v) && v.binding.value.active
    case FailActivation(a, _) =>
      && s.selectedLeader.Some?
      && (a.StartActivation? ==> s.status.ActivatingLeader?)
      && (a.RecoverStartActivation? ==> s.status.ActivatingLeader? && PreparedBy(v, LeaderStartRecoveryApproved))
      && (a.RestartActivation? ==> s.status.RestartingLeader?)
      && (a.RotateActivation? ==> s.status.RotatingLeader?)
    case ActivateLeader(leader, proofPasses) =>
      && TailMatches(v) && proofPasses
      && s.selectedLeader.Some? && leader.principalId == s.selectedLeader.value.principalId
      && (|| (s.status.ActivatingLeader? && leader.generation == 1)
          || ((s.status.RestartingLeader? || s.status.RotatingLeader?)
              && v.binding.Some? && leader.generation == v.binding.value.generation + 1))
    case ReportHealthFailure => s.status.Active?
    case RotateLeader(candidate) =>
      && (s.status.Active? || s.status.Degraded?) && BindingCurrent(v)
      && candidate.principalId != ""
      && (s.activeLeader.Some? ==> s.activeLeader.value.principalId != candidate.principalId)
    case StartReconciliation(count) => (s.status.Active? || s.status.Degraded?) && count > 0
    case FinishReconciliation(_) =>
      && s.activeLeader.Some?
      && (|| s.status.ReconcilingCapabilities? || s.status.RestartingLeader? || s.status.RotatingLeader?
          || s.status.Migrating? || s.status.RollbackRequired? || s.status.Blocked?)
    case ApproveMigration(_, _) => s.status.Active? || s.status.Degraded?
    case ActivateMigration(_, _) => s.status.Migrating?
    case RollBackMigration(_) => s.status.Migrating?
    case BlockMigration(_) => s.status.Migrating?
  }

  /** Where the operation leads: status, leaders, epoch, registry revision and blockers. */
  function Reached(op: Operation, s: StateBody): StateBody {
    match op
    case Initialize(_) => s.(status := Bootstrapping)
    case StartDiscovery => s.(status := DiscoveringLeaderCandidates)
    case CompleteDiscovery(_) => s.(status := AwaitingLeaderSelection)
    case SelectLeader(candidate) => s.(status := AwaitingLeaderStart, selectedLeader := Some(candidate))
    case StartLeader => s.(status := ActivatingLeader)
    case RecoverStart(_, _, _) => s.(status := ActivatingLeader)
    case RestartLeader => s.(status := RestartingLeader)
    case RestoreLeader => s.(status := Active, activeBlockers := [])
    case FailActivation(_, _) => s.(status := Blocked, activeBlockers := [LeaderActivationFailed])
    case ActivateLeader(leader, _) =>
      s.(status := Active, activeLeader := Some(leader), activeLeaderEpoch := s.activeLeaderEpoch + 1,
         activeBlockers := [])
    case ReportHealthFailure => s.(status := Degraded)
    case RotateLeader(candidate) => s.(status := RotatingLeader, selectedLeader := Some(candidate))
    case StartReconciliation(_) => s.(status := ReconcilingCapabilities)
    case FinishReconciliation(revision) => s.(status := Active, registryRevision := revision, activeBlockers := [])
    case ApproveMigration(_, _) => s.(status := Migrating)
    case ActivateMigration(_, _) => s.(status := Active)
    case RollBackMigration(_) => s.(status := Active)
    case BlockMigration(_) => s.(status := Blocked, activeBlockers := [MigrationUnrecoverable])
  }

  /** Who an operation acts for. */
  function ActorOf(op: Operation, s: StateBody): string {
    if op.SelectLeader? || op.RecoverStart? || op.RestartLeader? || op.RotateLeader? || op.ApproveMigration?
    then USER_PRINCIPAL
    else if op.RestoreLeader? || op.FailActivation? || op.ReportHealthFailure? then ADAPTER_PRINCIPAL
    else if op.StartReconciliation? || op.FinishReconciliation? then
      if s.activeLeader.Some? then s.activeLeader.value.principalId else ""
    else BOOTSTRAP_PRINCIPAL
  }

  /** The event an operation is recorded as. */
  function KindOf(op: Operation, s: StateBody): EventKind {
    match op
    case Initialize(_) => InstallationInitialized
    case StartDiscovery => BootstrapDiscoveryStarted
    case CompleteDiscovery(_) => LeaderCandidateDiscoveryCompleted
    case SelectLeader(_) => LeaderSelectionApproved
    case StartLeader => LeaderStartRequested
    case RecoverStart(_, _, _) => LeaderStartRecoveryApproved
    case RestartLeader => LeaderRestartRequested
    case RestoreLeader => LeaderRestartRolledBack
    case FailActivation(_, _) => LeaderActivationFailed
    case ActivateLeader(_, _) => if s.status.RotatingLeader? then LeaderRotationCompleted else LeaderActivated
    case ReportHealthFailure => LeaderHealthFailed
    case RotateLeader(_) => if s.status.Degraded? then EmergencyLeaderRotationApproved else LeaderRotationApproved
    case StartReconciliation(_) => CapabilityReconciliationStarted
    case FinishReconciliation(_) => CapabilityReconciliationCompleted
    case ApproveMigration(_, _) => MigrationApplyApproved
    case ActivateMigration(_, _) => MigrationActivated
    case RollBackMigration(_) => MigrationRolledBack
    case BlockMigration(_) => MigrationUnrecoverable
  }

  lemma OperationEnabled(op: Operation, v: View, key: string)
    requires GoodView(v)
    ensures Accepts(op, v, key) <==> Enabled(op, v)
  {
    hide TailMatches, BlockersAt;
  }

  /** The request moves the status and the protected fields to where the operation leads. */
  lemma OperationSets(op: Operation, v: View, key: string)
    requires Prepare(op, v, key).Some?
    ensures var s, q, r := v.state.body, Prepare(op, v, key).value, Reached(op, v.state.body);
      && q.targetStatus == r.status
      && r.activeLeader == (if q.payload.activeLeader.Some? then q.payload.activeLeader.value else s.activeLeader)
      && r.selectedLeader == (if q.payload.selectedLeader.Some? then q.payload.selectedLeader.value
                              else s.selectedLeader)
      && r.activeLeaderEpoch == (if q.payload.activeLeaderEpoch.Some? then q.payload.activeLeaderEpoch.value
                                 else s.activeLeaderEpoch)
      && r.registryRevision == (if q.payload.registryRevision.Some? then q.payload.registryRevision.value
                                else s.registryRevision)
  {
    hide TailMatches, RestartFailed, ActivationStatus, HasLeader;
  }

  lemma OperationBlocks(op: Operation, v: View, key: string)
    requires GoodView(v) && Prepare(op, v, key).Some?
    ensures var s, q := v.state.body, Prepare(op, v, key).value;
      BlockersAt(q.targetStatus, q.eventKind, q.payload, s.activeBlockers) == Reached(op, s).activeBlockers
  {
    hide TailMatches, RestartFailed, ActivationStatus, HasLeader, BeforeActivation;
  }

  lemma ReachedKeeps(op: Operation, s: StateBody)
    ensures var r := Reached(op, s);
      r == s.(status := r.status, activeLeader := r.activeLeader, selectedLeader := r.selectedLeader,
              activeLeaderEpoch := r.activeLeaderEpoch, registryRevision := r.registryRevision,
              activeBlockers := r.activeBlockers)
  {
  }

  lemma OperationReaches(op: Operation, v: View, key: string, z: Stamps)
    requires GoodView(v) && Prepare(op, v, key).Some?
    ensures var s := v.state.body;
      NextBody(s, Prepare(op, v, key).value, z)
      == Reached(op, s).(revision := s.revision + 1, updatedAt := z.updatedAt, lastEventId := Some(z.eventId))
  {
    hide Prepare, Reached, GoodView, BlockersAt;
    OperationSets(op, v, key);
    OperationBlocks(op, v, key);
    ReachedKeeps(op, v.state.body);
  }

  /**
   * Every operation, by what it is for: it is accepted exactly in the states that
   * enable it, its event is of its own kind and by its own principal, and it leads where
   * `Reached` says and changes nothing else but the revision and the stamps.
   */
  lemma OperationMeaning(op: Operation, v: View, key: string, z: Stamps)
    requires GoodView(v)
    ensures Accepts(op, v, key) <==> Enabled(op, v)
    ensures Accepts(op, v, key) ==>
      var s, q := v.state.body, Prepare(op, v, key).value;
      && q.eventKind == KindOf(op, s) && q.principalId == ActorOf(op, s)
      && NextBody(s, q, z) == Reached(op, s).(revision := s.revision + 1, updatedAt := z.updatedAt,
                                              lastEventId := Some(z.eventId))
  {
    hide Enabled, Reached, KindOf, NextBody, Prepare, Refusal;
    OperationEnabled(op, v, key);
    if Accepts(op, v, key) {
      OperationReaches(op, v, key, z);
      OperationActor(op, v, key);
      OperationKind(op, v, key);
    }
  }

  lemma OperationActor(op: Operation, v: View, key: string)
    requires GoodView(v) && Accepts(op, v, key)
    ensures Prepare(op, v, key).value.principalId == ActorOf(op, v.state.body)
  {
    hide TailMatches, RestartFailed, ActivationStatus, HasLeader;
  }

  lemma OperationKind(op: Operation, v: View, key: string)
    requires Prepare(op, v, key).Some?
    ensures Prepare(op, v, key).value.eventKind == KindOf(op, v.state.body)
  {
    hide TailMatches, RestartFailed, ActivationStatus, HasLeader;
  }

  /**
   * What the event of an accepted operation documents: the selection it rests on, the
   * epoch that the activation it prepares will have, the binding it restores or replaces,
   * and the operation that failed.
   */
  lemma OperationDocuments(op: Operation, v: View, key: string)
    requires GoodView(v) && Accepts(op, v, key)
    ensures var s, details := v.state.body, Prepare(op, v, key).value.payload.details;
      && (op.StartLeader? || op.RecoverStart? || op.RestartLeader? || op.RotateLeader? || op.FailActivation? ==>
            ProposedLeaderEpoch in details && details[ProposedLeaderEpoch] == Number(s.activeLeaderEpoch + 1))
      && (op.SelectLeader? ==> details == map[SelectionId := Number(op.candidate.selectionId)])
      && (op.StartLeader? ==>
            SelectionId in details && details[SelectionId] == Number(s.selectedLeader.value.selectionId))
      && (op.RestartLeader? ==>
            PriorBindingDigest in details
            && details[PriorBindingDigest] == Number(v.binding.value.bindingDigest))
      && (op.RestoreLeader? ==> details == map[BindingDigest := Number(v.binding.value.bindingDigest)])
      && (op.FailActivation? <==> OperationKey in details)
      && (op.FailActivation? ==> details[OperationKey] == ActivationTag(op.activation))
  {
    hide TailMatches, ActivationStatus;
  }

  /** Initialization names the root and the version, discovery and reconciliation count what they bring. */
  lemma SetupDocuments(op: Operation, v: View, key: string)
    requires Accepts(op, v, key)
    ensures var details := Prepare(op, v, key).value.payload.details;
      && (op.Initialize? ==>
            details == map[ControlRoot := Text(op.controlRoot), ProtocolVersion := VersionTag(Stable030)])
      && (op.StartDiscovery? ==> details == map[ReadOnly := Flag(true)])
      && (op.CompleteDiscovery? ==> details == map[CandidateCount := Number(op.candidateCount)])
      && (op.StartReconciliation? ==> details == map[ObservationCount := Number(op.observationCount)])
  {
    hide TailMatches, RestartFailed, ActivationStatus, HasLeader;
  }

  /** Approving, activating, undoing and blocking a migration name it and the evidence they rest on. */
  lemma MigrationDocuments(op: Operation, v: View, key: string)
    requires Accepts(op, v, key)
    ensures var details := Prepare(op, v, key).value.payload.details;
      && (op.ApproveMigration? ==>
            details == map[MigrationId := Text(op.migrationId), PlanDigest := Number(op.planDigest)])
      && (op.ActivateMigration? ==>
            details == map[MigrationId := Text(op.migrationId), ReceiptDigest := Number(op.receiptDigest)])
      && (op.RollBackMigration? || op.BlockMigration? ==> details == map[MigrationId := Text(op.migrationId)])
  {
    hide TailMatches, RestartFailed, ActivationStatus, HasLeader;
  }
}

/**
 * `validate_transition_contract`, the checks of `_transition_unlocked` before it
 * writes, and the message, event and next state it builds.
 */
module TransitionContract {
  import opened Wrappers
  import opened ControlTypes

  const BOOTSTRAP_PRINCIPAL := "bootstrap-controller"
  const USER_PRINCIPAL := "user"
  const ADAPTER_PRINCIPAL := "reference-runtime-adapter"

  // ---------------------------------------------------------------- protected fields

  predicate InPayload(p: Payload, f: Field) {
    match f
    case ActiveLeaderField => p.activeLeader.Some?
    case SelectedLeaderField => p.selectedLeader.Some?
    case EpochField => p.activeLeaderEpoch.Some?
    case RegistryField => p.registryRevision.Some?
  }

  /** `payload[f]` is present and equals the field of `b`. */
  predicate PayloadEquals(p: Payload, b: StateBody, f: Field) {
    match f
    case ActiveLeaderField => p.activeLeader == Some(b.activeLeader)
    case SelectedLeaderField => p.selectedLeader == Some(b.selectedLeader)
    case EpochField => p.activeLeaderEpoch == Some(b.activeLeaderEpoch)
    case RegistryField => p.registryRevision == Some(b.registryRevision)
  }

  predicate SameField(a: StateBody, b: StateBody, f: Field) {
    match f
    case ActiveLeaderField => a.activeLeader == b.activeLeader
    case SelectedLeaderField => a.selectedLeader == b.selectedLeader
    case EpochField => a.activeLeaderEpoch == b.activeLeaderEpoch
    case RegistryField => a.registryRevision == b.registryRevision
  }

  // ---------------------------------------------------------------- the contract

  /** The principal that must have sent the message; a leader is read off the projection. */
  function ExpectedPrincipal(kind: PrincipalKind, activeLeader: Option<ActiveLeader>): string {
    match kind
    case BootstrapController => BOOTSTRAP_PRINCIPAL
    case Human => USER_PRINCIPAL
    case RuntimeAdapter => ADAPTER_PRINCIPAL
    case InstallationLeader => if activeLeader.Some? then activeLeader.value.principalId else ""
    case OtherPrincipal(_) => ""
  }

  /** The blockers a projection must carry when the installation reaches `target`. */
  function BlockersAt(target: Status, kind: EventKind, p: Payload, prior: seq<EventKind>): seq<EventKind> {
    if target == Blocked then
      if p.activeBlockers.Some? && p.activeBlockers.value != [] then p.activeBlockers.value else [kind]
    else if target.Active? || target.AwaitingLeaderSelection? || target.AwaitingLeaderStart?
            || target.DiscoveringLeaderCandidates? then []
    else prior
  }

  predicate LegalStep(prior: Status, kind: EventKind, target: Status, legacyReplay: bool) {
    || Legal(prior, target)
    || (legacyReplay && kind == LeaderRestartRequested && prior == Blocked && target == RestartingLeader)
  }

  /** The protected field `f` must be bound through the payload of this event. */
  predicate Binds(kind: EventKind, p: Payload, legacyReplay: bool, f: Field) {
    || Declares(kind, f)
    || (legacyReplay && kind == LeaderRestartRequested && f.SelectedLeaderField? && p.selectedLeader.Some?)
  }

  /**
   * A bound field takes its value from the payload; any other protected field keeps
   * its prior value, and the payload may mention it only with that value.
   */
  predicate FieldBound(p: Payload, projection: StateBody, prior: StateBody, bound: bool, f: Field) {
    if bound then PayloadEquals(p, projection, f)
    else SameField(projection, prior, f) && (InPayload(p, f) ==> PayloadEquals(p, prior, f))
  }

  /** `validate_transition_contract` does not raise. */
  predicate Validate(m: MessageBody, e: EventBody, projection: StateBody, prior: StateBody, legacyReplay: bool) {
    && Contract(e.eventKind) == Some((m.kind, m.senderKind))
    && var principal := ExpectedPrincipal(m.senderKind, projection.activeLeader);
    && principal != "" && m.senderPrincipalId == principal && e.actorPrincipalId == principal
    && Target(e.eventKind) == Some(projection.status)
    && LegalStep(prior.status, e.eventKind, projection.status, legacyReplay)
    && e.priorRevision == prior.revision
    && projection.revision == prior.revision + 1
    && projection.lastEventId == Some(e.eventId)
    && projection.lastEventDigest == e.priorEventDigest
    && projection.updatedAt == e.occurredAt
    && (var f := ActiveLeaderField;
        FieldBound(m.payload, projection, prior, Binds(e.eventKind, m.payload, legacyReplay, f), f))
    && (var f := SelectedLeaderField;
        FieldBound(m.payload, projection, prior, Binds(e.eventKind, m.payload, legacyReplay, f), f))
    && (var f := EpochField;
        FieldBound(m.payload, projection, prior, Binds(e.eventKind, m.payload, legacyReplay, f), f))
    && (var f := RegistryField;
        FieldBound(m.payload, projection, prior, Binds(e.eventKind, m.payload, legacyReplay, f), f))
    && projection.activeBlockers
       == BlockersAt(projection.status, e.eventKind, m.payload, prior.activeBlockers)
    && projection.installationId == prior.installationId
  }

  /**
   * The fields of the prior state that a crashed commit cannot recover exactly
   * (its timestamp, digests and last event) do not influence the verdict.
   */
  lemma ValidateIgnoresStamps(
      m: MessageBody, e: EventBody, projection: StateBody, prior: StateBody, legacyReplay: bool,
      id: Option<Id>, digest: Option<Digest>, t: Timestamp)
    ensures Validate(m, e, projection, prior, legacyReplay)
        <==> Validate(m, e, projection,
                      prior.(lastEventId := id, lastEventDigest := digest, updatedAt := t), legacyReplay)
  {
  }

  /** Replay's tolerance for old restarts never rejects what a commit accepted. */
  lemma StrictImpliesLegacy(m: MessageBody, e: EventBody, projection: StateBody, prior: StateBody)
    requires Validate(m, e, projection, prior, false)
    ensures Validate(m, e, projection, prior, true)
  {
  }

  // ---------------------------------------------------------------- requests

  /** The arguments of `_transition`. */
  datatype Request = Request(
    eventKind: EventKind, messageKind: MessageKind, principalId: string, principalKind: PrincipalKind,
    epoch: int, expectedRevision: int, payload: Payload, targetStatus: Status,
    idempotencyKey: string, taskId: Option<string>)

  /** The fresh identifiers and the clock readings of one transition. */
  datatype Stamps = Stamps(messageId: Id, eventId: Id, updatedAt: Timestamp, sentAt: Timestamp)

  datatype Error =
    | StateConflict | LeaderEpochFenced | IllegalTransition | IdempotencyConflict | RegistryInconsistent

  function ContentOf(q: Request): Content {
    Content(q.messageKind, q.principalId, q.epoch, q.expectedRevision, q.payload)
  }

  function MessageContent(m: MessageBody): Content {
    Content(m.kind, m.senderPrincipalId, m.leaderEpoch, m.expectedStateRevision, m.payload)
  }

  /** `_validate_epoch` does not raise. */
  predicate EpochAccepted(s: StateBody, kind: MessageKind, epoch: int) {
    if s.activeLeaderEpoch == 0 then epoch == 0 && BootstrapCore(kind)
    else epoch == s.activeLeaderEpoch
  }

  /** The refusals of `_transition_unlocked` before anything is written. */
  function Refusal(s: StateBody, q: Request): Option<Error> {
    if q.expectedRevision != s.revision then Some(StateConflict)
    else if !EpochAccepted(s, q.messageKind, q.epoch) then Some(LeaderEpochFenced)
    else if !Legal(s.status, q.targetStatus) then Some(IllegalTransition)
    else None
  }

  /** `next_state` as embedded in the event: it still points at the previous event's digest. */
  function NextBody(s: StateBody, q: Request, z: Stamps): StateBody {
    var p := q.payload;
    s.(revision := s.revision + 1,
       status := q.targetStatus,
       updatedAt := z.updatedAt,
       lastEventId := Some(z.eventId),
       activeLeader := if p.activeLeader.Some? then p.activeLeader.value else s.activeLeader,
       selectedLeader := if p.selectedLeader.Some? then p.selectedLeader.value else s.selectedLeader,
       activeLeaderEpoch := if p.activeLeaderEpoch.Some? then p.activeLeaderEpoch.value else s.activeLeaderEpoch,
       registryRevision := if p.registryRevision.Some? then p.registryRevision.value else s.registryRevision,
       activeBlockers := BlockersAt(q.targetStatus, q.eventKind, q.payload, s.activeBlockers))
  }

  function Seal(h: Digests, b: StateBody): State {
    State(b, h.state(b))
  }

  function BuildMessage(h: Digests, s: StateBody, q: Request, z: Stamps, sequence: int): Message {
    var body := MessageBody(
      z.messageId, q.idempotencyKey, s.installationId, q.principalId, q.principalKind, q.epoch,
      q.expectedRevision, q.messageKind, q.payload, h.content(ContentOf(q)), z.sentAt, sequence,
      z.eventId, TransitionResult(z.messageId, z.eventId, s.revision + 1, q.targetStatus), s.revision + 1);
    Message(body, h.message(body))
  }

  function BuildEvent(h: Digests, s: StateBody, q: Request, z: Stamps, sequence: int): Event {
    var body := EventBody(
      z.eventId, sequence, s.installationId, q.epoch, q.taskId, q.eventKind, z.messageId, s.revision,
      s.revision + 1, z.updatedAt, q.principalId, q.payload, Seal(h, NextBody(s, q, z)), s.lastEventDigest);
    Event(body, h.event(body))
  }

  /** The state an event leads to: its projection, now pointing at the event itself. */
  function StateAfter(h: Digests, e: Event): State {
    Seal(h, e.body.stateProjection.body.(lastEventDigest := Some(e.eventDigest)))
  }

  /**
   * What the contract demands of a request, in terms of the request and the state
   * it is submitted against alone.
   */
  predicate Conforming(q: Request, s: StateBody) {
    && Contract(q.eventKind) == Some((q.messageKind, q.principalKind))
    && Target(q.eventKind) == Some(q.targetStatus)
    && var leader := if q.payload.activeLeader.Some? then q.payload.activeLeader.value else s.activeLeader;
    && q.principalId != "" && q.principalId == ExpectedPrincipal(q.principalKind, leader)
    && FieldDeclared(q, s, ActiveLeaderField) && FieldDeclared(q, s, SelectedLeaderField)
    && FieldDeclared(q, s, EpochField) && FieldDeclared(q, s, RegistryField)
  }

  /** A payload carries every field its event kind declares, and asserts no other one anew. */
  predicate FieldDeclared(q: Request, s: StateBody, f: Field) {
    if Declares(q.eventKind, f) then InPayload(q.payload, f)
    else InPayload(q.payload, f) ==> PayloadEquals(q.payload, s, f)
  }

  /** The request that a message and an event would have recorded. */
  function RequestIn(m: MessageBody, e: EventBody, target: Status): Request {
    Request(e.eventKind, m.kind, m.senderPrincipalId, m.senderKind, m.leaderEpoch, m.expectedStateRevision,
            m.payload, target, m.idempotencyKey, e.taskId)
  }

  /**
   * The contract check on records of any origin: it passes exactly when they record a
   * conforming request, sent by the actor of the event, that legally leads from the
   * prior state to the very projection its own transition would have written.
   */
  lemma ValidateIff(m: MessageBody, e: EventBody, projection: StateBody, prior: StateBody)
    ensures var q := RequestIn(m, e, projection.status);
      var z := Stamps(m.messageId, e.eventId, e.occurredAt, m.sentAt);
      Validate(m, e, projection, prior, false) <==>
        && Conforming(q, prior) && Legal(prior.status, projection.status)
        && e.actorPrincipalId == m.senderPrincipalId && e.priorRevision == prior.revision
        && projection == NextBody(prior, q, z).(lastEventDigest := e.priorEventDigest)
  {
  }

  /** The contract check on the records built for a request decides exactly `Conforming`. */
  lemma ValidateIffConforming(h: Digests, s: StateBody, q: Request, z: Stamps, n: int)
    requires Refusal(s, q).None?
    ensures Validate(BuildMessage(h, s, q, z, n).body, BuildEvent(h, s, q, z, n).body, NextBody(s, q, z), s, false)
        <==> Conforming(q, s)
  {
  }
}

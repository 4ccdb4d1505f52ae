/**
 * `ContinuationStore`: the envelope, payload, marker and receipt artifacts of each
 * wake, the append-only event ledger, and the locked sections that change them.
 *
 * Every section takes the number of write points it passes before its process is
 * killed; a large number means that it completes.
 */
module ContinuationStore {
  import opened Wrappers

  type Id = int
  type Digest = int

  datatype Target = Target(coordinatorAgent: string, adapterId: string, providerId: string, durableBoundaryRef: string)

  /** `invocation_key`: what makes one invocation. */
  datatype InvocationKey = InvocationKey(
    taskId: string, suspensionId: Id, suspensionEpoch: int, wakeId: Id, generation: int)

  datatype Envelope = Envelope(
    taskId: string, suspensionId: Id, suspensionEpoch: int, wakeId: Id, wakeEventId: Id,
    wakeReason: string, acceptedStateRevision: int, controlContractRef: string, controlContractDigest: Digest,
    payloadDigest: Digest, generation: int, target: Target)

  type Payload = int

  datatype Receipt = Receipt(
    key: InvocationKey, idempotencyKey: Digest, payloadDigest: Digest, durableBoundaryRef: string,
    adapterId: string, adapterVersion: string, providerId: string, invocationId: string, turnId: string,
    identityRef: string, duplicateRef: string, startedAt: int, consumedAt: int, consumed: bool)

  datatype Capability = Capability(
    automaticFull: bool, adapterId: string, adapterVersion: string, providerId: string,
    coordinatorSurface: string, invocationReceipt: bool, duplicateSuppression: bool,
    identityRef: string, duplicateRef: string)

  datatype EventName =
    | ResumePending | ResumeReceived | DigestVerified | ResumeAccepted | ContinuationStarted | ResumeConsumed
    | ContinuationRejected | ContinuationFailed | ContinuationSuperseded

  /** SUCCESS_EVENTS, in order. */
  const SUCCESS: seq<EventName> :=
    [ResumePending, ResumeReceived, DigestVerified, ResumeAccepted, ContinuationStarted, ResumeConsumed]

  predicate IsSuccess(n: EventName) {
    !n.ContinuationRejected? && !n.ContinuationFailed? && !n.ContinuationSuperseded?
  }

  /** The fields by which `_matches` ties an event to an envelope. */
  datatype Bindings = Bindings(
    key: InvocationKey, wakeEventId: Id, idempotencyKey: Digest, envelopeDigest: Digest,
    payloadDigest: Digest, controlContractDigest: Digest, target: Target)

  /** The receipt named by a started or consumed event; the reference is the wake's artifact directory. */
  datatype ReceiptBinding = ReceiptBinding(invocationId: string, receiptRef: Id, receiptDigest: Digest)

  datatype EventBody = EventBody(
    sequence: int, name: EventName, bindings: Bindings, receipt: Option<ReceiptBinding>)

  datatype Event = Event(body: EventBody, eventId: Digest)

  /** invocation.inflight. */
  datatype Intent = Intent(
    taskId: string, wakeId: Id, generation: int, idempotencyKey: Digest, envelopeDigest: Digest, target: Target)

  /** The directory of one wake; it exists once its envelope does. */
  datatype Artifact = Artifact(
    envelope: Envelope, payload: Option<Payload>, marker: Option<Intent>, receipt: Option<Receipt>)

  datatype Store = Store(
    taskId: string, events: seq<Event>, artifacts: map<Id, Artifact>, capability: Option<Capability>)

  /** The digest function of the source, by what it digests. */
  datatype Digests = Digests(
    key: InvocationKey -> Digest, envelope: Envelope -> Digest, payload: Payload -> Digest,
    receipt: Receipt -> Digest, event: EventBody -> Digest)

  function KeyOf(e: Envelope): InvocationKey {
    InvocationKey(e.taskId, e.suspensionId, e.suspensionEpoch, e.wakeId, e.generation)
  }

  function BindingsOf(h: Digests, e: Envelope): Bindings {
    Bindings(KeyOf(e), e.wakeEventId, h.key(KeyOf(e)), h.envelope(e), e.payloadDigest, e.controlContractDigest,
             e.target)
  }

  function IntentOf(h: Digests, e: Envelope): Intent {
    Intent(e.taskId, e.wakeId, e.generation, h.key(KeyOf(e)), h.envelope(e), e.target)
  }

  function ReceiptBindingOf(h: Digests, e: Envelope, r: Receipt): ReceiptBinding {
    ReceiptBinding(r.invocationId, e.wakeId, h.receipt(r))
  }

  /** `_append`. */
  function Append(h: Digests, st: Store, name: EventName, e: Envelope, receipt: Option<ReceiptBinding>): Store {
    var body := EventBody(|st.events| + 1, name, BindingsOf(h, e), receipt);
    st.(events := st.events + [Event(body, h.event(body))])
  }

  function RejectAt(h: Digests, st: Store, e: Envelope, points: nat): Store {
    if points == 0 then st else Append(h, st, ContinuationRejected, e, None)
  }

  // ---------------------------------------------------------------- checks

  /**
   * `_validate_envelope`. The control contract file and the suspension epoch of
   * state.json belong to other writers: `current` says whether they agree right now.
   */
  predicate ValidEnvelope(st: Store, e: Envelope, current: bool) {
    e.taskId == st.taskId && e.suspensionEpoch >= 1 && e.generation >= 1 && current
  }

  /** Some event of this name matches the envelope. */
  predicate Has(h: Digests, es: seq<Event>, name: EventName, e: Envelope) {
    exists i :: 0 <= i < |es| && es[i].body.name == name && es[i].body.bindings == BindingsOf(h, e)
  }

  /** The first event of this name that matches the envelope. */
  function First(h: Digests, es: seq<Event>, name: EventName, e: Envelope): Option<Event> {
    if es == [] then None
    else if es[0].body.name == name && es[0].body.bindings == BindingsOf(h, e) then Some(es[0])
    else First(h, es[1..], name, e)
  }

  lemma {:induction false} FirstIsHas(h: Digests, es: seq<Event>, name: EventName, e: Envelope)
    ensures First(h, es, name, e).Some? <==> Has(h, es, name, e)
    ensures First(h, es, name, e).Some? ==>
      exists i :: 0 <= i < |es| && es[i] == First(h, es, name, e).value
                  && es[i].body.name == name && es[i].body.bindings == BindingsOf(h, e)
  {
    if es != [] {
      FirstIsHas(h, es[1..], name, e);
      assert forall i :: 0 <= i < |es[1..]| ==> es[1..][i] == es[i + 1];
      assert forall i :: 1 <= i < |es| ==> es[i] == es[1..][i - 1];
    }
  }

  /** `_persisted` does not raise. */
  predicate Persisted(h: Digests, st: Store, e: Envelope, payload: Option<Payload>, current: bool) {
    && ValidEnvelope(st, e, current)
    && e.wakeId in st.artifacts
    && var a := st.artifacts[e.wakeId];
    && a.envelope == e
    && a.payload.Some?
    && h.payload(a.payload.value) == e.payloadDigest
    && (payload.Some? ==> payload == a.payload)
    && Has(h, st.events, ResumePending, e)
  }

  /** `_capability` does not raise; `filesPresent` says whether the evidence files exist. */
  predicate CapabilityFits(c: Option<Capability>, e: Envelope, filesPresent: bool) {
    && c.Some?
    && c.value.automaticFull
    && c.value.adapterId == e.target.adapterId
    && c.value.providerId == e.target.providerId
    && c.value.coordinatorSurface == e.target.coordinatorAgent
    && c.value.invocationReceipt && c.value.duplicateSuppression
    && filesPresent
  }

  /** `_validate_receipt` does not raise. */
  predicate ValidReceipt(h: Digests, r: Receipt, e: Envelope, c: Capability) {
    && r.key == KeyOf(e)
    && r.idempotencyKey == h.key(KeyOf(e))
    && r.payloadDigest == e.payloadDigest
    && r.durableBoundaryRef == e.target.durableBoundaryRef
    && r.identityRef == c.identityRef
    && r.duplicateRef == c.duplicateRef
    && r.consumed
    && r.adapterId == c.adapterId
    && r.adapterVersion == c.adapterVersion
    && r.providerId == c.providerId
    && r.invocationId != "" && r.turnId != ""
  }

  // ---------------------------------------------------------------- locked sections

  /** `pending`: envelope, payload, then the first event. */
  function Pending(h: Digests, st: Store, e: Envelope, payload: Payload, current: bool, points: nat): Store {
    if !ValidEnvelope(st, e, current) || h.payload(payload) != e.payloadDigest || Conflicting(st, e)
    then RejectAt(h, st, e, points)
    else if e.wakeId in st.artifacts then
      if Persisted(h, st, e, Some(payload), current) then st else RejectAt(h, st, e, points)
    else
      var written := Artifact(e, Some(payload), None, None);
      var st1 := if points >= 1 then st.(artifacts := st.artifacts[e.wakeId := written.(payload := None)]) else st;
      var st2 := if points >= 2 then st.(artifacts := st.artifacts[e.wakeId := written]) else st1;
      if points >= 3 then Append(h, st2, ResumePending, e, None) else st2
  }

  /** Another envelope is already persisted for the same invocation. */
  predicate Conflicting(st: Store, e: Envelope) {
    exists w :: w in st.artifacts && KeyOf(st.artifacts[w].envelope) == KeyOf(e) && st.artifacts[w].envelope != e
  }

  function AppendMissing(h: Digests, st: Store, name: EventName, e: Envelope): Store {
    if Has(h, st.events, name, e) then st else Append(h, st, name, e, None)
  }

  /** `receive`. */
  function Receive(h: Digests, st: Store, e: Envelope, payload: Payload, current: bool, points: nat): Store {
    if !Persisted(h, st, e, Some(payload), current) then RejectAt(h, st, e, points)
    else
      var st1 := if points >= 1 then AppendMissing(h, st, ResumeReceived, e) else st;
      if points >= 2 then AppendMissing(h, st1, DigestVerified, e) else st1
  }

  /** Some accepted event carries this idempotency key for another envelope. */
  predicate ClaimConflict(h: Digests, es: seq<Event>, e: Envelope) {
    exists i :: 0 <= i < |es| && es[i].body.name == ResumeAccepted
      && es[i].body.bindings.idempotencyKey == h.key(KeyOf(e)) && es[i].body.bindings != BindingsOf(h, e)
  }

  /** The claim succeeds, newly or because it already has. */
  predicate Claimable(h: Digests, st: Store, e: Envelope, current: bool) {
    && Persisted(h, st, e, None, current)
    && !ClaimConflict(h, st.events, e)
    && (Has(h, st.events, ResumeAccepted, e) || Has(h, st.events, DigestVerified, e))
  }

  /** `claim`. */
  function Claim(h: Digests, st: Store, e: Envelope, current: bool, points: nat): Store {
    if !Claimable(h, st, e, current) then RejectAt(h, st, e, points)
    else if points >= 1 then AppendMissing(h, st, ResumeAccepted, e) else st
  }

  /** The event of this name is already committed with another receipt. */
  predicate ReceiptConflict(h: Digests, es: seq<Event>, name: EventName, e: Envelope, rb: ReceiptBinding) {
    var first := First(h, es, name, e);
    first.Some? && first.value.body.receipt != Some(rb)
  }

  function AppendReceipt(h: Digests, st: Store, name: EventName, e: Envelope, rb: ReceiptBinding): Store {
    if Has(h, st.events, name, e) then st else Append(h, st, name, e, Some(rb))
  }

  /** What `_finalize_receipt_locked` needs before it writes anything. */
  predicate Finalizable(h: Digests, st: Store, e: Envelope, r: Receipt, current: bool) {
    && Persisted(h, st, e, None, current)
    && (st.artifacts[e.wakeId].receipt.Some? ==> st.artifacts[e.wakeId].receipt == Some(r))
  }

  /** `_finalize_receipt_locked`: the receipt, the two events, then the marker is removed. */
  function Finalize(h: Digests, st: Store, e: Envelope, r: Receipt, current: bool, points: nat): Store {
    if !Finalizable(h, st, e, r, current) || points == 0 then st
    else
      var rb := ReceiptBindingOf(h, e, r);
      var a := st.artifacts[e.wakeId].(receipt := Some(r));
      var st1 := st.(artifacts := st.artifacts[e.wakeId := a]);
      if points == 1 || ReceiptConflict(h, st1.events, ContinuationStarted, e, rb) then st1
      else
        var st2 := AppendReceipt(h, st1, ContinuationStarted, e, rb);
        if points == 2 || ReceiptConflict(h, st2.events, ResumeConsumed, e, rb) then st2
        else
          var st3 := AppendReceipt(h, st2, ResumeConsumed, e, rb);
          if points == 3 then st3
          else st3.(artifacts := st3.artifacts[e.wakeId := a.(marker := None)])
  }

  /** `register_capability`: complete proofs only, written once. */
  function Register(st: Store, c: Capability): Store {
    if st.capability.None? && c.automaticFull && c.invocationReceipt && c.duplicateSuppression
    then st.(capability := Some(c)) else st
  }

  // ---------------------------------------------------------------- consume

  /** What the locked decision of `consume` leads to. */
  datatype Decision =
    | Raise
    | Return(receipt: Receipt)
    | FinishReceipt(receipt: Receipt)
    | CallProvider(reconcileOnly: bool)

  /** The second locked section of `consume`, before it writes. */
  function Decide(h: Digests, st: Store, e: Envelope, hasReconcile: bool, current: bool, filesPresent: bool): Decision {
    if !Persisted(h, st, e, None, current) || !CapabilityFits(st.capability, e, filesPresent) then Raise
    else
      var a, c := st.artifacts[e.wakeId], st.capability.value;
      if Has(h, st.events, ResumeConsumed, e) then
        var recorded := First(h, st.events, ResumeConsumed, e);
        if a.receipt.Some? && ValidReceipt(h, a.receipt.value, e, c)
           && recorded.Some? && recorded.value.body.receipt.Some?
           && recorded.value.body.receipt.value.receiptDigest == h.receipt(a.receipt.value)
        then Return(a.receipt.value) else Raise
      else if a.receipt.Some? then
        if ValidReceipt(h, a.receipt.value, e, c) then FinishReceipt(a.receipt.value) else Raise
      else if a.marker.Some? then
        if hasReconcile then CallProvider(true) else Raise
      else CallProvider(false)
  }

  function WriteMarker(h: Digests, st: Store, e: Envelope): Store
    requires e.wakeId in st.artifacts
  {
    st.(artifacts := st.artifacts[e.wakeId := st.artifacts[e.wakeId].(marker := Some(IntentOf(h, e)))])
  }
}

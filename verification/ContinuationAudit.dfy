/**
 * `check_continuation_ledger`: the audit's own account of what a continuation ledger
 * must look like, and when the ledgers of real runs satisfy it.
 */
module ContinuationAudit {
  import opened Wrappers
  import opened ContinuationStore
  import opened ContinuationRuns
  import opened ContinuationInvocations

  datatype AuditError =
    | BadSequenceOrTask(index: int) | BadEventId(index: int) | PendingBypassed
    | ArtifactMissing(wake: Id) | PendingUnbound(wake: Id) | PayloadMismatch(wake: Id) | ContractMismatch(wake: Id)
    | Uncorrelated(wake: Id) | OutOfOrder(wake: Id) | IntentMismatch(wake: Id) | InflightRetained(wake: Id)
    | ReceiptMissing(wake: Id) | ReceiptEventMismatch(wake: Id) | ReceiptUnbound(wake: Id)
    | CapabilityMismatch(wake: Id) | EvidenceMissing(wake: Id) | EvidenceMalformed(wake: Id)
    | EvidenceMismatch(wake: Id) | NoCorrelatedPending(sequence: int)

  /** A file of the task directory: the digest of its bytes, and of the JSON value in it, if it is one. */
  datatype File = File(bytesDigest: Digest, valueDigest: Option<Digest>)

  /** The files other writers own, as the audit finds them, and what content-addressed references name. */
  datatype Environment = Environment(files: map<string, File>, addressed: string -> Option<Digest>)

  function When(condition: bool, error: AuditError): seq<AuditError> {
    if condition then [error] else []
  }

  function EventErrorsAt(h: Digests, taskId: string, ev: Event, index: int): seq<AuditError> {
    When(ev.body.sequence != index || ev.body.bindings.key.taskId != taskId, BadSequenceOrTask(index))
    + When(ev.eventId != h.event(ev.body), BadEventId(index))
  }

  function EventErrors(h: Digests, taskId: string, es: seq<Event>, n: nat): seq<AuditError>
    requires n <= |es|
  {
    if n == 0 then [] else EventErrors(h, taskId, es, n - 1) + EventErrorsAt(h, taskId, es[n - 1], n)
  }

  /** The success events that carry the key but are not bound to the envelope. */
  function CorrelationErrors(h: Digests, es: seq<Event>, e: Envelope, wake: Id, n: nat): seq<AuditError>
    requires n <= |es|
  {
    if n == 0 then []
    else
      var b := es[n - 1].body;
      CorrelationErrors(h, es, e, wake, n - 1)
      + When(IsSuccess(b.name) && b.bindings.idempotencyKey == h.key(KeyOf(e)) && b.bindings != BindingsOf(h, e),
             Uncorrelated(wake))
  }

  /** The first correlated event of a name. */
  function FirstCorrelated(es: seq<Event>, key: Digest, name: EventName): Option<EventBody> {
    if es == [] then None
    else if es[0].body.name == name && es[0].body.bindings.idempotencyKey == key then Some(es[0].body)
    else FirstCorrelated(es[1..], key, name)
  }

  predicate NamesReceipt(ev: Option<EventBody>, rb: ReceiptBinding) {
    ev.Some? && ev.value.receipt == Some(rb)
  }

  predicate ReceiptBound(h: Digests, r: Receipt, e: Envelope) {
    && r.key == KeyOf(e) && r.idempotencyKey == h.key(KeyOf(e)) && r.payloadDigest == e.payloadDigest
    && r.durableBoundaryRef == e.target.durableBoundaryRef && r.consumed
  }

  predicate CapabilityCorrelates(c: Option<Capability>, e: Envelope, r: Receipt) {
    && c.Some? && c.value.automaticFull
    && c.value.adapterId == e.target.adapterId == r.adapterId
    && c.value.adapterVersion == r.adapterVersion
    && c.value.providerId == e.target.providerId == r.providerId
    && c.value.coordinatorSurface == e.target.coordinatorAgent
    && c.value.invocationReceipt && c.value.duplicateSuppression
    && r.identityRef == c.value.identityRef && r.duplicateRef == c.value.duplicateRef
  }

  /** The control contract an envelope was accepted under is still there. */
  predicate ContractHolds(env: Environment, e: Envelope) {
    e.controlContractRef in env.files && env.files[e.controlContractRef].bytesDigest == e.controlContractDigest
  }

  /** A provider evidence file is there, and holds what its name says, if its name says so. */
  predicate EvidenceHolds(env: Environment, ref: string) {
    ref in env.files && (env.addressed(ref).Some? ==> env.files[ref].valueDigest == env.addressed(ref))
  }

  function EvidenceErrors(env: Environment, wake: Id, ref: string): seq<AuditError> {
    if ref !in env.files then [EvidenceMissing(wake)]
    else if env.addressed(ref).None? then []
    else if env.files[ref].valueDigest.None? then [EvidenceMalformed(wake)]
    else When(env.files[ref].valueDigest != env.addressed(ref), EvidenceMismatch(wake))
  }

  /** The checks on a wake that claims to be consumed. */
  function ReceiptErrors(h: Digests, env: Environment, st: Store, e: Envelope, wake: Id): seq<AuditError> {
    var key := h.key(KeyOf(e));
    var started := FirstCorrelated(st.events, key, ContinuationStarted);
    var consumed := FirstCorrelated(st.events, key, ResumeConsumed);
    if consumed.None? || consumed.value.receipt.None? then [ReceiptMissing(wake)]
    else
      var ref := consumed.value.receipt.value.receiptRef;
      if ref !in st.artifacts || st.artifacts[ref].receipt.None? then [ReceiptMissing(wake)]
      else
        var r := st.artifacts[ref].receipt.value;
        var rb := ReceiptBinding(r.invocationId, ref, h.receipt(r));
        When(!NamesReceipt(started, rb) || !NamesReceipt(consumed, rb), ReceiptEventMismatch(wake))
        + When(!ReceiptBound(h, r, e), ReceiptUnbound(wake))
        + When(!CapabilityCorrelates(st.capability, e, r), CapabilityMismatch(wake))
        + EvidenceErrors(env, wake, r.identityRef) + EvidenceErrors(env, wake, r.duplicateRef)
  }

  /** The checks on one `resume_pending` event and the artifacts of its wake. */
  function WakeErrors(h: Digests, env: Environment, st: Store, pending: EventBody): seq<AuditError> {
    var wake := pending.bindings.key.wakeId;
    if wake !in st.artifacts || st.artifacts[wake].payload.None? then [ArtifactMissing(wake)]
    else
      var a := st.artifacts[wake];
      var names := Named(st.events, h.key(KeyOf(a.envelope)));
      When(pending.bindings.envelopeDigest != h.envelope(a.envelope)
           || pending.bindings.idempotencyKey != h.key(KeyOf(a.envelope)), PendingUnbound(wake))
      + When(h.payload(a.payload.value) != a.envelope.payloadDigest, PayloadMismatch(wake))
      + When(!ContractHolds(env, a.envelope), ContractMismatch(wake))
      + CorrelationErrors(h, st.events, a.envelope, wake, |st.events|)
      + When(!(names <= SUCCESS), OutOfOrder(wake))
      + When(a.marker.Some? && a.marker != Some(IntentOf(h, a.envelope)), IntentMismatch(wake))
      + When(a.marker.Some? && ResumeConsumed in names, InflightRetained(wake))
      + (if ResumeConsumed in names then ReceiptErrors(h, env, st, a.envelope, wake) else [])
  }

  function PendingErrors(h: Digests, env: Environment, st: Store, n: nat): seq<AuditError>
    requires n <= |st.events|
  {
    if n == 0 then []
    else PendingErrors(h, env, st, n - 1)
         + if st.events[n - 1].body.name.ResumePending? then WakeErrors(h, env, st, st.events[n - 1].body) else []
  }

  function PendingKeys(es: seq<Event>): set<Digest> {
    set ev | ev in es && ev.body.name.ResumePending? :: ev.body.bindings.idempotencyKey
  }

  function OrphanErrors(es: seq<Event>, keys: set<Digest>, n: nat): seq<AuditError>
    requires n <= |es|
  {
    if n == 0 then []
    else
      var b := es[n - 1].body;
      OrphanErrors(es, keys, n - 1)
      + When(IsSuccess(b.name) && b.bindings.idempotencyKey !in keys, NoCorrelatedPending(b.sequence))
  }

  predicate SomeSuccess(es: seq<Event>) {
    exists ev :: ev in es && IsSuccess(ev.body.name)
  }

  /** The audit's error list, in its order. */
  function AuditErrors(h: Digests, env: Environment, st: Store, taskId: string): seq<AuditError> {
    EventErrors(h, taskId, st.events, |st.events|)
    + When(SomeSuccess(st.events) && PendingKeys(st.events) == {}, PendingBypassed)
    + PendingErrors(h, env, st, |st.events|)
    + OrphanErrors(st.events, PendingKeys(st.events), |st.events|)
  }

  lemma NoKeys(es: seq<Event>)
    requires es == []
    ensures PendingKeys(es) == {} && !SomeSuccess(es)
  {
  }

  lemma KeysStep(es: seq<Event>, i: nat)
    requires i < |es|
    ensures var b := es[i].body;
      && PendingKeys(es[..i + 1])
         == (if b.name.ResumePending? then PendingKeys(es[..i]) + {b.bindings.idempotencyKey} else PendingKeys(es[..i]))
      && (SomeSuccess(es[..i + 1]) <==> SomeSuccess(es[..i]) || IsSuccess(b.name))
  {
    hide IsSuccess;
    var prefix, ev := es[..i], es[i];
    assert es[..i + 1] == prefix + [ev];
    assert forall x :: x in prefix + [ev] <==> x in prefix || x == ev;
    assert ev in prefix + [ev];
  }

  /** The first loop: every event, and the keys and success events the later checks need. */
  method CheckEvents(h: Digests, st: Store, taskId: string)
      returns (errors: seq<AuditError>, keys: set<Digest>, anySuccess: bool)
    ensures errors == EventErrors(h, taskId, st.events, |st.events|)
    ensures keys == PendingKeys(st.events) && anySuccess == SomeSuccess(st.events)
  {
    hide PendingKeys, SomeSuccess, EventErrorsAt;
    NoKeys(st.events[..0]);
    errors, keys, anySuccess := [], {}, false;
    for i := 0 to |st.events|
      invariant errors == EventErrors(h, taskId, st.events, i)
      invariant keys == PendingKeys(st.events[..i])
      invariant anySuccess == SomeSuccess(st.events[..i])
    {
      var ev := st.events[i];
      KeysStep(st.events, i);
      if ev.body.name.ResumePending? { keys := keys + {ev.body.bindings.idempotencyKey}; }
      if IsSuccess(ev.body.name) { anySuccess := true; }
      errors := errors + EventErrorsAt(h, taskId, ev, i + 1);
    }
    assert st.events[..|st.events|] == st.events;
  }

  /** The second loop: every pending envelope. */
  method CheckPending(h: Digests, env: Environment, st: Store) returns (errors: seq<AuditError>)
    ensures errors == PendingErrors(h, env, st, |st.events|)
  {
    hide WakeErrors;
    errors := [];
    for i := 0 to |st.events|
      invariant errors == PendingErrors(h, env, st, i)
    {
      if st.events[i].body.name.ResumePending? {
        errors := errors + WakeErrors(h, env, st, st.events[i].body);
      }
    }
  }

  /** The last loop: success events without a pending one. */
  method CheckOrphans(es: seq<Event>, keys: set<Digest>) returns (errors: seq<AuditError>)
    ensures errors == OrphanErrors(es, keys, |es|)
  {
    errors := [];
    for i := 0 to |es|
      invariant errors == OrphanErrors(es, keys, i)
    {
      var b := es[i].body;
      if IsSuccess(b.name) && b.bindings.idempotencyKey !in keys {
        errors := errors + [NoCorrelatedPending(b.sequence)];
      }
    }
  }

  /** The audit as the loops it is. */
  method CheckLedger(h: Digests, env: Environment, st: Store, taskId: string) returns (errors: seq<AuditError>)
    ensures errors == AuditErrors(h, env, st, taskId)
  {
    var eventErrors, keys, anySuccess := CheckEvents(h, st, taskId);
    var pendingErrors := CheckPending(h, env, st);
    var orphanErrors := CheckOrphans(st.events, keys);
    var bypassed := if anySuccess && keys == {} then [PendingBypassed] else [];
    errors := eventErrors + bypassed + pendingErrors + orphanErrors;
  }

  // ---------------------------------------------------------------- what the lists being empty means

  lemma {:induction false} EventErrorsEmpty(h: Digests, taskId: string, es: seq<Event>, n: nat)
    requires n <= |es|
    ensures EventErrors(h, taskId, es, n) == [] <==>
      forall i: nat :: i < n ==>
        es[i].body.sequence == i + 1 && es[i].body.bindings.key.taskId == taskId && es[i].eventId == h.event(es[i].body)
  {
    if n > 0 { EventErrorsEmpty(h, taskId, es, n - 1); }
  }

  /** A success event under the key of the envelope that is bound to something else. */
  predicate MisboundAt(h: Digests, es: seq<Event>, e: Envelope, i: nat)
    requires i < |es|
  {
    var b := es[i].body;
    IsSuccess(b.name) && b.bindings.idempotencyKey == h.key(KeyOf(e)) && b.bindings != BindingsOf(h, e)
  }

  lemma CorrelationStep(h: Digests, es: seq<Event>, e: Envelope, wake: Id, n: nat)
    requires 0 < n <= |es|
    ensures CorrelationErrors(h, es, e, wake, n) == CorrelationErrors(h, es, e, wake, n - 1)
      + When(MisboundAt(h, es, e, n - 1), Uncorrelated(wake))
  {
  }

  lemma {:induction false} CorrelationErrorsEmpty(h: Digests, es: seq<Event>, e: Envelope, wake: Id, n: nat)
    requires n <= |es|
    ensures CorrelationErrors(h, es, e, wake, n) == [] <==> forall i: nat :: i < n ==> !MisboundAt(h, es, e, i)
    ensures forall x :: x in CorrelationErrors(h, es, e, wake, n) ==> x == Uncorrelated(wake)
  {
    hide MisboundAt, CorrelationErrors;
    if n == 0 {
      NoCorrelation(h, es, e, wake);
    } else {
      CorrelationErrorsEmpty(h, es, e, wake, n - 1);
      CorrelationStep(h, es, e, wake, n);
    }
  }

  lemma NoCorrelation(h: Digests, es: seq<Event>, e: Envelope, wake: Id)
    ensures CorrelationErrors(h, es, e, wake, 0) == []
  {
  }

  lemma {:induction false} PendingErrorsEmpty(h: Digests, env: Environment, st: Store, n: nat)
    requires n <= |st.events|
    ensures PendingErrors(h, env, st, n) == [] <==>
      forall i: nat :: i < n && st.events[i].body.name.ResumePending? ==>
        WakeErrors(h, env, st, st.events[i].body) == []
  {
    if n > 0 { PendingErrorsEmpty(h, env, st, n - 1); }
  }

  lemma {:induction false} OrphanErrorsEmpty(es: seq<Event>, keys: set<Digest>, n: nat)
    requires n <= |es|
    ensures OrphanErrors(es, keys, n) == [] <==>
      forall i: nat :: i < n && IsSuccess(es[i].body.name) ==> es[i].body.bindings.idempotencyKey in keys
  {
    if n > 0 { OrphanErrorsEmpty(es, keys, n - 1); }
  }

  /** Event `i` is the first of this name and key. */
  ghost predicate FirstAt(es: seq<Event>, key: Digest, name: EventName, i: int) {
    && 0 <= i < |es| && Carries(es[i].body, key, name)
    && forall j :: 0 <= j < i ==> !Carries(es[j].body, key, name)
  }

  predicate Carries(b: EventBody, key: Digest, name: EventName) {
    b.name == name && b.bindings.idempotencyKey == key
  }

  lemma {:induction false} FirstCorrelatedAt(es: seq<Event>, key: Digest, name: EventName)
    ensures forall i :: FirstAt(es, key, name, i) ==> FirstCorrelated(es, key, name) == Some(es[i].body)
    ensures FirstCorrelated(es, key, name).Some? ==> exists i :: FirstAt(es, key, name, i)
  {
    if es != [] {
      FirstCorrelatedAt(es[1..], key, name);
      forall i | FirstAt(es, key, name, i) ensures FirstCorrelated(es, key, name) == Some(es[i].body) {
        if i > 0 {
          assert !Carries(es[0].body, key, name);
          assert FirstAt(es[1..], key, name, i - 1);
        }
      }
      if FirstCorrelated(es, key, name).Some? {
        if Carries(es[0].body, key, name) {
          assert FirstAt(es, key, name, 0);
        } else {
          var i :| FirstAt(es[1..], key, name, i);
          assert FirstAt(es, key, name, i + 1);
        }
      }
    }
  }

  lemma {:induction false} FirstCorrelatedSpec(es: seq<Event>, key: Digest, name: EventName)
    requires IsSuccess(name)
    ensures FirstCorrelated(es, key, name).Some? <==> name in Named(es, key)
    ensures FirstCorrelated(es, key, name).Some? ==>
      exists i :: 0 <= i < |es| && es[i].body == FirstCorrelated(es, key, name).value
                  && es[i].body.name == name && es[i].body.bindings.idempotencyKey == key
  {
    NamedMember(es, key, name);
    if es != [] {
      FirstCorrelatedSpec(es[1..], key, name);
      NamedMember(es[1..], key, name);
      assert forall i :: 0 <= i < |es[1..]| ==> es[1..][i] == es[i + 1];
      assert forall i :: 1 <= i < |es| ==> es[i] == es[1..][i - 1];
    }
  }

  // ---------------------------------------------------------------- the audit of ledgers of any origin

  /** The started and the consumed event name one receipt, which is bound to the envelope and authenticated. */
  ghost predicate ReceiptSound(h: Digests, env: Environment, st: Store, e: Envelope) {
    var key := h.key(KeyOf(e));
    exists i, k, ref :: FirstAt(st.events, key, ContinuationStarted, i) && FirstAt(st.events, key, ResumeConsumed, k)
      && ref in st.artifacts && st.artifacts[ref].receipt.Some?
      && var r := st.artifacts[ref].receipt.value;
      && st.events[i].body.receipt == st.events[k].body.receipt
      && st.events[k].body.receipt == Some(ReceiptBinding(r.invocationId, ref, h.receipt(r)))
      && ReceiptBound(h, r, e) && CapabilityCorrelates(st.capability, e, r)
      && EvidenceHolds(env, r.identityRef) && EvidenceHolds(env, r.duplicateRef)
  }

  lemma ReceiptErrorsIff(h: Digests, env: Environment, st: Store, e: Envelope, wake: Id)
    ensures ReceiptErrors(h, env, st, e, wake) == [] <==> ReceiptSound(h, env, st, e)
  {
    hide FirstCorrelated, EvidenceErrors, EvidenceHolds, ReceiptBound, CapabilityCorrelates, FirstAt;
    var key := h.key(KeyOf(e));
    FirstCorrelatedAt(st.events, key, ContinuationStarted);
    FirstCorrelatedAt(st.events, key, ResumeConsumed);
    forall ref { EvidenceErrorsEmpty(env, wake, ref); }
    FirstInRange(st.events, key, ContinuationStarted);
    FirstInRange(st.events, key, ResumeConsumed);
  }

  /**
   * The audit and the store agree on receipts: a receipt with an invocation and a turn is
   * bound and authenticated in the audit's eyes exactly if the capability fits the
   * envelope and `consume` would have validated the receipt.
   */
  lemma AuditAgreesOnReceipts(h: Digests, c: Option<Capability>, e: Envelope, r: Receipt)
    ensures ReceiptBound(h, r, e) && CapabilityCorrelates(c, e, r) && r.invocationId != "" && r.turnId != "" <==>
      CapabilityFits(c, e, true) && ValidReceipt(h, r, e, c.value)
  {
  }

  lemma FirstInRange(es: seq<Event>, key: Digest, name: EventName)
    ensures forall i :: FirstAt(es, key, name, i) ==> 0 <= i < |es|
  {
  }

  /**
   * What the audit demands of a pending event: its wake's envelope and payload are there
   * and bound to it, the control contract is unchanged, every success event with the
   * envelope's key is bound to the envelope, these events stand in the order of
   * SUCCESS_EVENTS, a marker is the envelope's own, and once the wake is consumed there
   * is no marker and the receipt is sound.
   */
  ghost predicate WakeSound(h: Digests, env: Environment, st: Store, pending: EventBody) {
    var wake := pending.bindings.key.wakeId;
    && wake in st.artifacts && st.artifacts[wake].payload.Some?
    && var a, e := st.artifacts[wake], st.artifacts[wake].envelope;
    var names := Named(st.events, h.key(KeyOf(e)));
    && pending.bindings.envelopeDigest == h.envelope(e) && pending.bindings.idempotencyKey == h.key(KeyOf(e))
    && h.payload(a.payload.value) == e.payloadDigest
    && e.controlContractRef in env.files && env.files[e.controlContractRef].bytesDigest == e.controlContractDigest
    && (forall i: nat :: i < |st.events| ==> !MisboundAt(h, st.events, e, i))
    && names <= SUCCESS
    && (a.marker.Some? ==> a.marker == Some(IntentOf(h, e)) && ResumeConsumed !in names)
    && (ResumeConsumed in names ==> ReceiptSound(h, env, st, e))
  }

  lemma WakeErrorsIff(h: Digests, env: Environment, st: Store, pending: EventBody)
    ensures WakeErrors(h, env, st, pending) == [] <==> WakeSound(h, env, st, pending)
  {
    hide ReceiptErrors, ReceiptSound, CorrelationErrors, Named;
    var wake := pending.bindings.key.wakeId;
    if wake in st.artifacts && st.artifacts[wake].payload.Some? {
      var e := st.artifacts[wake].envelope;
      CorrelationErrorsEmpty(h, st.events, e, wake, |st.events|);
      ReceiptErrorsIff(h, env, st, e, wake);
    }
  }

  /**
   * The audit on any ledger: it passes exactly if every event is numbered, of this task
   * and sealed, every success event has a pending one of its key, and every pending
   * event is sound.
   */
  lemma AuditIff(h: Digests, env: Environment, st: Store, taskId: string)
    ensures AuditErrors(h, env, st, taskId) == [] <==>
      && (forall i: nat :: i < |st.events| ==>
            && st.events[i].body.sequence == i + 1 && st.events[i].body.bindings.key.taskId == taskId
            && st.events[i].eventId == h.event(st.events[i].body))
      && (forall i: nat :: i < |st.events| && IsSuccess(st.events[i].body.name) ==>
            exists k: nat :: k < |st.events| && Carries(st.events[k].body, st.events[i].body.bindings.idempotencyKey,
                                                        ResumePending))
      && (forall i: nat :: i < |st.events| && st.events[i].body.name.ResumePending? ==>
            WakeSound(h, env, st, st.events[i].body))
  {
    hide PendingErrors, OrphanErrors, EventErrors, WakeErrors, WakeSound, PendingKeys, SomeSuccess, IsSuccess;
    EventErrorsEmpty(h, taskId, st.events, |st.events|);
    PendingErrorsEmpty(h, env, st, |st.events|);
    OrphanErrorsEmpty(st.events, PendingKeys(st.events), |st.events|);
    forall i: nat | i < |st.events| { WakeErrorsIff(h, env, st, st.events[i].body); }
    forall key { PendingKeysAre(st.events, key); }
    if SomeSuccess(st.events) && PendingKeys(st.events) == {} { BypassIsOrphan(st.events); }
  }

  lemma PendingKeysAre(es: seq<Event>, key: Digest)
    ensures key in PendingKeys(es) <==> exists k: nat :: k < |es| && Carries(es[k].body, key, ResumePending)
  {
  }

  /** Success events without any pending one are reported one by one as well. */
  lemma BypassIsOrphan(es: seq<Event>)
    requires SomeSuccess(es) && PendingKeys(es) == {}
    ensures exists i: nat :: i < |es| && IsSuccess(es[i].body.name)
                             && es[i].body.bindings.idempotencyKey !in PendingKeys(es)
  {
    hide IsSuccess;
    var ev :| ev in es && IsSuccess(ev.body.name);
    var i: nat :| i < |es| && es[i] == ev;
  }

  /** What an error about a wake says of the ledger and the files. */
  ghost predicate WakeFault(h: Digests, env: Environment, st: Store, pending: EventBody, x: AuditError) {
    var wake := pending.bindings.key.wakeId;
    if wake !in st.artifacts || st.artifacts[wake].payload.None? then x == ArtifactMissing(wake)
    else
      var a, e := st.artifacts[wake], st.artifacts[wake].envelope;
      var key, names := h.key(KeyOf(e)), Named(st.events, h.key(KeyOf(e)));
      match x
      case PendingUnbound(w) =>
        w == wake && !(pending.bindings.envelopeDigest == h.envelope(e) && pending.bindings.idempotencyKey == key)
      case PayloadMismatch(w) => w == wake && h.payload(a.payload.value) != e.payloadDigest
      case ContractMismatch(w) => w == wake && !ContractHolds(env, e)
      case Uncorrelated(w) =>
        && w == wake
        && exists i: nat :: i < |st.events| && MisboundAt(h, st.events, e, i)
      case OutOfOrder(w) => w == wake && !(names <= SUCCESS)
      case IntentMismatch(w) => w == wake && a.marker.Some? && a.marker.value != IntentOf(h, e)
      case InflightRetained(w) => w == wake && a.marker.Some? && ResumeConsumed in names
      case _ => ResumeConsumed in names && x in ReceiptErrors(h, env, st, e, wake)
  }

  /** Which check fires, on any ledger: an error about a wake is reported exactly for its own cause. */
  lemma WakeReports(h: Digests, env: Environment, st: Store, pending: EventBody, x: AuditError)
    ensures x in WakeErrors(h, env, st, pending) <==> WakeFault(h, env, st, pending, x)
  {
    hide ReceiptErrors, CorrelationErrors, ContractHolds, Named, IsSuccess;
    var wake := pending.bindings.key.wakeId;
    if wake in st.artifacts && st.artifacts[wake].payload.Some? {
      var e := st.artifacts[wake].envelope;
      CorrelationReports(h, st.events, e, wake, x);
      if x in ReceiptErrors(h, env, st, e, wake) { ReceiptKinds(h, env, st, e, wake, x); }
    }
  }

  lemma CorrelationReports(h: Digests, es: seq<Event>, e: Envelope, wake: Id, x: AuditError)
    ensures x in CorrelationErrors(h, es, e, wake, |es|) <==>
      x == Uncorrelated(wake) && exists i: nat :: i < |es| && MisboundAt(h, es, e, i)
  {
    hide CorrelationErrors, MisboundAt;
    CorrelationErrorsEmpty(h, es, e, wake, |es|);
    var errors := CorrelationErrors(h, es, e, wake, |es|);
    assert errors != [] ==> errors[0] in errors;
  }

  lemma ReceiptKinds(h: Digests, env: Environment, st: Store, e: Envelope, wake: Id, x: AuditError)
    requires x in ReceiptErrors(h, env, st, e, wake)
    ensures || x.ReceiptMissing? || x.ReceiptEventMismatch? || x.ReceiptUnbound? || x.CapabilityMismatch?
            || x.EvidenceMissing? || x.EvidenceMalformed? || x.EvidenceMismatch?
  {
    hide FirstCorrelated, ReceiptBound, CapabilityCorrelates;
  }

  /** The record of a name under a key: nothing, or the first such event. */
  ghost predicate FirstIs(es: seq<Event>, key: Digest, name: EventName, b: Option<EventBody>) {
    if b.None? then forall i :: 0 <= i < |es| ==> !Carries(es[i].body, key, name)
    else exists i :: FirstAt(es, key, name, i) && es[i].body == b.value
  }

  lemma FirstCorrelatedIs(es: seq<Event>, key: Digest, name: EventName)
    ensures FirstIs(es, key, name, FirstCorrelated(es, key, name))
  {
    FirstCorrelatedAt(es, key, name);
    var found := FirstCorrelated(es, key, name);
    if found.None? {
      NeverCarried(es, key, name);
    }
  }

  lemma {:induction false} NeverCarried(es: seq<Event>, key: Digest, name: EventName)
    requires FirstCorrelated(es, key, name).None?
    ensures forall i :: 0 <= i < |es| ==> !Carries(es[i].body, key, name)
  {
    if es != [] {
      NeverCarried(es[1..], key, name);
      assert forall i :: 1 <= i < |es| ==> es[i] == es[1..][i - 1];
    }
  }

  /** What an error about an evidence file says: it is missing, not JSON, or not what its name promises. */
  predicate EvidenceFault(env: Environment, wake: Id, ref: string, x: AuditError) {
    match x
    case EvidenceMissing(w) => w == wake && ref !in env.files
    case EvidenceMalformed(w) =>
      w == wake && ref in env.files && env.addressed(ref).Some? && env.files[ref].valueDigest.None?
    case EvidenceMismatch(w) =>
      && w == wake && ref in env.files && env.addressed(ref).Some? && env.files[ref].valueDigest.Some?
      && env.files[ref].valueDigest != env.addressed(ref)
    case _ => false
  }

  lemma EvidenceReports(env: Environment, wake: Id, ref: string, x: AuditError)
    ensures x in EvidenceErrors(env, wake, ref) <==> EvidenceFault(env, wake, ref, x)
  {
  }

  /** What an error about a receipt says, given the first started and the first consumed event under the key. */
  ghost predicate ReceiptFault(
      h: Digests, env: Environment, st: Store, e: Envelope, wake: Id,
      started: Option<EventBody>, consumed: Option<EventBody>, x: AuditError)
  {
    if !(consumed.Some? && consumed.value.receipt.Some?) then x == ReceiptMissing(wake)
    else
      var ref := consumed.value.receipt.value.receiptRef;
      if ref !in st.artifacts || st.artifacts[ref].receipt.None? then x == ReceiptMissing(wake)
      else
        var r := st.artifacts[ref].receipt.value;
        var rb := Some(ReceiptBinding(r.invocationId, ref, h.receipt(r)));
        match x
        case ReceiptEventMismatch(w) =>
          w == wake && !(started.Some? && started.value.receipt == rb && consumed.value.receipt == rb)
        case ReceiptUnbound(w) => w == wake && !ReceiptBound(h, r, e)
        case CapabilityMismatch(w) => w == wake && !CapabilityCorrelates(st.capability, e, r)
        case _ => EvidenceFault(env, wake, r.identityRef, x) || EvidenceFault(env, wake, r.duplicateRef, x)
  }

  lemma ReceiptReports(
      h: Digests, env: Environment, st: Store, e: Envelope, wake: Id,
      started: Option<EventBody>, consumed: Option<EventBody>, x: AuditError)
    requires FirstIs(st.events, h.key(KeyOf(e)), ContinuationStarted, started)
    requires FirstIs(st.events, h.key(KeyOf(e)), ResumeConsumed, consumed)
    ensures x in ReceiptErrors(h, env, st, e, wake) <==> ReceiptFault(h, env, st, e, wake, started, consumed, x)
  {
    hide FirstCorrelated, ReceiptBound, CapabilityCorrelates, FirstIs, EvidenceErrors;
    var key := h.key(KeyOf(e));
    forall ref { EvidenceReports(env, wake, ref, x); }
    FirstCorrelatedUnique(st.events, key, ContinuationStarted, started);
    FirstCorrelatedUnique(st.events, key, ResumeConsumed, consumed);
  }

  lemma FirstCorrelatedUnique(es: seq<Event>, key: Digest, name: EventName, b: Option<EventBody>)
    requires FirstIs(es, key, name, b)
    ensures FirstCorrelated(es, key, name) == b
  {
    hide FirstCorrelated;
    FirstCorrelatedAt(es, key, name);
  }

  // ---------------------------------------------------------------- the audit of real ledgers

  /** Every event that carries a persisted envelope's key is bound to that envelope. */
  lemma BoundToEnvelope(h: Digests, st: Store, wake: Id, i: nat)
    requires KeyInjective(h) && StoreInv(h, st) && wake in st.artifacts && i < |st.events|
    requires IsSuccess(st.events[i].body.name)
    requires st.events[i].body.bindings.idempotencyKey == h.key(KeyOf(st.artifacts[wake].envelope))
    ensures st.events[i].body.bindings == BindingsOf(h, st.artifacts[wake].envelope)
    ensures st.events[i].body.bindings.key.wakeId == wake
  {
    assert EventOk(h, st, i);
    assert ArtifactOk(h, st, wake);
    assert ArtifactOk(h, st, st.events[i].body.bindings.key.wakeId);
  }

  /** The started and consumed events of a consumed wake name the receipt on disk. */
  lemma CorrelatedNamesReceipt(h: Digests, st: Store, wake: Id, name: EventName)
    requires KeyInjective(h) && StoreInv(h, st) && wake in st.artifacts
    requires (name.ContinuationStarted? || name.ResumeConsumed?) && name in Chain(h, st, wake)
    ensures var a := st.artifacts[wake];
      a.receipt.Some? && NamesReceipt(FirstCorrelated(st.events, h.key(KeyOf(a.envelope)), name),
                                      ReceiptBindingOf(h, a.envelope, a.receipt.value))
  {
    var key := h.key(KeyOf(st.artifacts[wake].envelope));
    FirstCorrelatedSpec(st.events, key, name);
    var i: nat :| i < |st.events| && st.events[i].body == FirstCorrelated(st.events, key, name).value
                  && st.events[i].body.name == name && st.events[i].body.bindings.idempotencyKey == key;
    BoundToEnvelope(h, st, wake, i);
    assert EventOk(h, st, i);
  }

  lemma EvidenceErrorsEmpty(env: Environment, wake: Id, ref: string)
    ensures EvidenceErrors(env, wake, ref) == [] <==> EvidenceHolds(env, ref)
  {
  }

  /** Of all the checks on a receipt, only those of the evidence files can fail. */
  lemma ReceiptErrorsAre(h: Digests, env: Environment, st: Store, wake: Id)
    requires KeyInjective(h) && StoreInv(h, st) && wake in st.artifacts && ResumeConsumed in Chain(h, st, wake)
    ensures var a := st.artifacts[wake];
      && a.receipt.Some?
      && ReceiptErrors(h, env, st, a.envelope, wake)
         == EvidenceErrors(env, wake, a.receipt.value.identityRef)
            + EvidenceErrors(env, wake, a.receipt.value.duplicateRef)
  {
    hide Named, FirstCorrelated, EvidenceErrors;
    assert ArtifactOk(h, st, wake) && ChainOk(h, st, wake);
    FullChain(Chain(h, st, wake));
    CorrelatedNamesReceipt(h, st, wake, ContinuationStarted);
    CorrelatedNamesReceipt(h, st, wake, ResumeConsumed);
  }

  /** What the audit can find wrong with a wake whose ledger the store wrote. */
  ghost predicate WakeClean(h: Digests, env: Environment, st: Store, wake: Id)
    requires wake in st.artifacts
  {
    var a := st.artifacts[wake];
    && ContractHolds(env, a.envelope)
    && (ResumeConsumed in Chain(h, st, wake) ==>
          && a.marker.None?
          && (a.receipt.Some? ==> EvidenceHolds(env, a.receipt.value.identityRef)
                                  && EvidenceHolds(env, a.receipt.value.duplicateRef)))
  }

  lemma WakeErrorsAre(h: Digests, env: Environment, st: Store, i: nat)
    requires KeyInjective(h) && StoreInv(h, st) && i < |st.events| && st.events[i].body.name.ResumePending?
    ensures var wake := st.events[i].body.bindings.key.wakeId;
      && wake in st.artifacts
      && (WakeErrors(h, env, st, st.events[i].body) == [] <==> WakeClean(h, env, st, wake))
  {
    hide ReceiptErrors, Named, CorrelationErrors, ContractHolds, EvidenceErrors, EvidenceHolds;
    assert EventOk(h, st, i);
    var wake := st.events[i].body.bindings.key.wakeId;
    var e := st.artifacts[wake].envelope;
    assert ArtifactOk(h, st, wake) && ChainOk(h, st, wake);
    NamedMember(st.events, h.key(KeyOf(e)), ResumePending);
    forall k: nat | k < |st.events|
      ensures !MisboundAt(h, st.events, e, k)
    {
      if IsSuccess(st.events[k].body.name) && st.events[k].body.bindings.idempotencyKey == h.key(KeyOf(e)) {
        BoundToEnvelope(h, st, wake, k);
      }
    }
    CorrelationErrorsEmpty(h, st.events, e, wake, |st.events|);
    if ResumeConsumed in Chain(h, st, wake) {
      ReceiptErrorsAre(h, env, st, wake);
      var r := st.artifacts[wake].receipt.value;
      EvidenceErrorsEmpty(env, wake, r.identityRef);
      EvidenceErrorsEmpty(env, wake, r.duplicateRef);
    }
  }

  /** Every success event has a pending event of its key. */
  lemma PendingForSuccess(h: Digests, st: Store, i: nat) returns (k: nat)
    requires KeyInjective(h) && StoreInv(h, st) && i < |st.events| && IsSuccess(st.events[i].body.name)
    ensures k < |st.events| && st.events[k].body.name.ResumePending?
    ensures st.events[k].body.bindings.idempotencyKey == st.events[i].body.bindings.idempotencyKey
    ensures st.events[k].body.bindings.key.wakeId == st.events[i].body.bindings.key.wakeId
  {
    assert EventOk(h, st, i);
    var wake := st.events[i].body.bindings.key.wakeId;
    var key := h.key(KeyOf(st.artifacts[wake].envelope));
    assert ChainOk(h, st, wake);
    NamedMember(st.events, key, st.events[i].body.name);
    assert Chain(h, st, wake)[0] == SUCCESS[0];
    NamedMember(st.events, key, ResumePending);
    k :| k < |st.events| && st.events[k].body.name == ResumePending && st.events[k].body.bindings.idempotencyKey == key;
    BoundToEnvelope(h, st, wake, k);
  }

  lemma NoOrphans(h: Digests, st: Store)
    requires KeyInjective(h) && StoreInv(h, st)
    ensures OrphanErrors(st.events, PendingKeys(st.events), |st.events|) == []
    ensures !(SomeSuccess(st.events) && PendingKeys(st.events) == {})
  {
    forall i: nat | i < |st.events| && IsSuccess(st.events[i].body.name)
      ensures st.events[i].body.bindings.idempotencyKey in PendingKeys(st.events)
    {
      var k := PendingForSuccess(h, st, i);
      assert st.events[k] in st.events;
    }
    OrphanErrorsEmpty(st.events, PendingKeys(st.events), |st.events|);
  }

  /** The wake has been acknowledged at all: its first event is in the ledger. */
  ghost predicate Pended(h: Digests, st: Store, wake: Id) {
    wake in st.artifacts && ResumePending in Chain(h, st, wake)
  }

  /**
   * No event names another task; and of every pending wake the control contract is
   * unchanged, and once it is consumed its marker is gone and its evidence in place.
   */
  ghost predicate AuditClean(h: Digests, env: Environment, st: Store) {
    && (forall i: nat :: i < |st.events| ==> st.events[i].body.bindings.key.taskId == st.taskId)
    && (forall wake :: Pended(h, st, wake) ==> WakeClean(h, env, st, wake))
  }

  /** The wakes the second loop visits are those with a pending event of their own. */
  lemma PendedIffEvent(h: Digests, st: Store, wake: Id)
    requires KeyInjective(h) && StoreInv(h, st)
    ensures Pended(h, st, wake) <==>
      exists i: nat :: i < |st.events| && st.events[i].body.name.ResumePending?
                       && st.events[i].body.bindings.key.wakeId == wake
  {
    if Pended(h, st, wake) {
      var key := h.key(KeyOf(st.artifacts[wake].envelope));
      NamedMember(st.events, key, ResumePending);
      var i: nat :| i < |st.events| && st.events[i].body.name == ResumePending
                    && st.events[i].body.bindings.idempotencyKey == key;
      BoundToEnvelope(h, st, wake, i);
    }
    if i: nat :| i < |st.events| && st.events[i].body.name.ResumePending?
                 && st.events[i].body.bindings.key.wakeId == wake {
      assert EventOk(h, st, i);
      NamedMember(st.events, h.key(KeyOf(st.artifacts[wake].envelope)), ResumePending);
    }
  }

  lemma WakesDecide(h: Digests, env: Environment, st: Store)
    requires KeyInjective(h) && StoreInv(h, st)
    ensures PendingErrors(h, env, st, |st.events|) == [] <==>
      forall wake :: Pended(h, st, wake) ==> WakeClean(h, env, st, wake)
  {
    hide WakeErrors, WakeClean, StoreInv, Pended;
    PendingErrorsEmpty(h, env, st, |st.events|);
    forall i: nat | i < |st.events| && st.events[i].body.name.ResumePending?
      ensures var wake := st.events[i].body.bindings.key.wakeId;
        && wake in st.artifacts && Pended(h, st, wake)
        && (WakeErrors(h, env, st, st.events[i].body) == [] <==> WakeClean(h, env, st, wake))
    {
      WakeErrorsAre(h, env, st, i);
      PendedIffEvent(h, st, st.events[i].body.bindings.key.wakeId);
    }
    forall wake | Pended(h, st, wake)
      ensures exists i: nat :: i < |st.events| && st.events[i].body.name.ResumePending?
                               && st.events[i].body.bindings.key.wakeId == wake
    {
      PendedIffEvent(h, st, wake);
    }
    forall wake | Pended(h, st, wake) ensures wake in st.artifacts { PendedHasArtifact(h, st, wake); }
  }

  lemma PendedHasArtifact(h: Digests, st: Store, wake: Id)
    requires Pended(h, st, wake)
    ensures wake in st.artifacts
  {
  }

  lemma TasksDecide(h: Digests, st: Store)
    requires CoreInv(h, st)
    ensures EventErrors(h, st.taskId, st.events, |st.events|) == [] <==>
      forall i: nat :: i < |st.events| ==> st.events[i].body.bindings.key.taskId == st.taskId
  {
    hide EventErrors;
    EventErrorsEmpty(h, st.taskId, st.events, |st.events|);
    forall i: nat | i < |st.events|
      ensures st.events[i].body.sequence == i + 1 && st.events[i].eventId == h.event(st.events[i].body)
    {
      assert EventOk(h, st, i);
    }
  }

  /** The audit passes on a ledger the store built exactly when it is clean. */
  lemma AuditPassesIff(h: Digests, env: Environment, st: Store)
    requires KeyInjective(h) && StoreInv(h, st)
    ensures AuditErrors(h, env, st, st.taskId) == [] <==> AuditClean(h, env, st)
  {
    hide PendingErrors, OrphanErrors, EventErrors, Pended, WakeClean, StoreInv;
    TasksDecide(h, st) by { StoreHasCore(h, st); }
    WakesDecide(h, env, st);
    NoOrphans(h, st);
    assert |AuditErrors(h, env, st, st.taskId)|
        == |EventErrors(h, st.taskId, st.events, |st.events|)| + |PendingErrors(h, env, st, |st.events|)|;
  }

  /**
   * Over every run, and whatever other writers have done to their files since: the
   * audit's correlation, order, receipt and capability checks never fire. It passes
   * exactly when the ledger and those files are clean.
   */
  lemma AuditOfRuns(h: Digests, env: Environment, w: World, steps: seq<Step>)
    requires KeyInjective(h) && Empty(w)
    ensures var st := Run(h, w, steps).store; AuditErrors(h, env, st, st.taskId) == [] <==> AuditClean(h, env, st)
  {
    hide AuditErrors, AuditClean;
    RunKeeps(h, w, steps);
    AuditPassesIff(h, env, Run(h, w, steps).store);
  }

  lemma AuditOfInv(h: Digests, env: Environment, w: World)
    requires KeyInjective(h) && WorldInv(h, w)
    ensures AuditErrors(h, env, w.store, w.store.taskId) == [] <==> AuditClean(h, env, w.store)
  {
    AuditPassesIff(h, env, w.store);
  }

  /** The sections that record the envelope they refuse: `pending`, `receive` and `claim`, also within `consume`. */
  predicate Records(w: World, s: Step) {
    || s.PendingStep? || s.ReceiveStep? || s.ClaimStep?
    || (s.ConsumeClaim? && s.p !in w.processes)
  }

  /** Each of them records an envelope of another task under that task. */
  lemma ForeignRecorded(h: Digests, w: World, s: Step)
    requires Records(w, s) && s.points >= 1 && s.envelope.taskId != w.store.taskId
    ensures Next(h, w, s).store == RejectAt(h, w.store, s.envelope, s.points)
  {
    hide Has;
  }

  /** One refused cross-task envelope is recorded under its own task: the audit fails from then on. */
  lemma ForeignRejectionPoisons(h: Digests, env: Environment, w: World, s: Step, steps: seq<Step>)
    requires KeyInjective(h) && WorldInv(h, w)
    requires Records(w, s) && s.points >= 1 && s.envelope.taskId != w.store.taskId
    ensures var st := Run(h, Next(h, w, s), steps).store; AuditErrors(h, env, st, st.taskId) != []
  {
    hide AuditErrors, Chain, WorldInv, WakeClean, Pended, Next;
    var w1 := Next(h, w, s);
    StepKeeps(h, w, s);
    RunKeeps(h, w1, steps);
    ForeignRecorded(h, w, s);
    var st, n := Run(h, w1, steps).store, |w.store.events|;
    assert w1.store.events[n].body.bindings.key.taskId == s.envelope.taskId;
    assert st.events[n] == w1.store.events[n];
    AuditOfInv(h, env, Run(h, w1, steps));
  }

  /**
   * A control contract that is rewritten after `pending` fails the audit, at any later
   * point of the run, for as long as its digest is not the envelope's.
   */
  lemma RewrittenContractFails(h: Digests, env: Environment, w: World, wake: Id, steps: seq<Step>)
    requires KeyInjective(h) && WorldInv(h, w) && Pended(h, w.store, wake)
    requires !ContractHolds(env, w.store.artifacts[wake].envelope)
    ensures var st := Run(h, w, steps).store; AuditErrors(h, env, st, st.taskId) != []
  {
    hide AuditErrors, WorldInv, Named;
    RunKeeps(h, w, steps);
    var st := Run(h, w, steps).store;
    assert WakeAdvances(w.store, st, wake);
    PrefixMember(Chain(h, w.store, wake), Chain(h, st, wake), ResumePending);
    assert Pended(h, st, wake) && !WakeClean(h, env, st, wake);
    AuditOfInv(h, env, Run(h, w, steps));
  }

  /** A kill between the consumed event and the removal of the marker leaves both behind. */
  lemma KillBeforeUnlinkRetainsMarker(h: Digests, env: Environment, st: Store, e: Envelope, r: Receipt)
    requires KeyInjective(h) && StoreInv(h, st) && Finalizable(h, st, e, r, true)
    requires CapabilityFits(st.capability, e, true) && ValidReceipt(h, r, e, st.capability.value)
    requires ResumeAccepted in Chain(h, st, e.wakeId) && st.artifacts[e.wakeId].marker.Some?
    ensures AuditErrors(h, env, Finalize(h, st, e, r, true, 3), st.taskId) != []
  {
    hide AuditErrors, Named, ValidReceipt, CapabilityFits, StoreInv, Finalize;
    FinalizeKeeps(h, st, e, r, true, 3);
    var st' := Finalize(h, st, e, r, true, 3);
    assert WakeAdvances(st, st', e.wakeId);
    MarkedAndConsumed(h, env, st', e.wakeId);
    AuditPassesIff(h, env, st');
  }

  lemma MarkedAndConsumed(h: Digests, env: Environment, st: Store, wake: Id)
    requires StoreInv(h, st) && wake in st.artifacts && st.artifacts[wake].marker.Some?
    requires ResumeConsumed in Chain(h, st, wake)
    ensures Pended(h, st, wake) && !WakeClean(h, env, st, wake)
  {
    hide Named;
    assert ChainOk(h, st, wake);
    FullChain(Chain(h, st, wake));
  }

  // ---------------------------------------------------------------- a retained marker stays

  /** Consumed, still marked, and no call is on its way to finalize this wake. */
  ghost predicate Stuck(h: Digests, w: World, wake: Id) {
    && wake in w.store.artifacts && w.store.artifacts[wake].marker.Some?
    && ResumeConsumed in Chain(h, w.store, wake)
    && forall p :: p in w.processes && w.processes[p].envelope.wakeId == wake ==> w.processes[p].Claimed?
  }

  lemma LedgerSectionsKeepArtifacts(
      h: Digests, st: Store, e: Envelope, payload: Payload, current: bool, points: nat, wake: Id)
    requires wake in st.artifacts
    ensures wake in Pending(h, st, e, payload, current, points).artifacts
         && Pending(h, st, e, payload, current, points).artifacts[wake] == st.artifacts[wake]
    ensures Receive(h, st, e, payload, current, points).artifacts == st.artifacts
    ensures Claim(h, st, e, current, points).artifacts == st.artifacts
  {
    hide Has, Persisted;
  }

  lemma FinalizeIsLocal(h: Digests, st: Store, e: Envelope, r: Receipt, current: bool, points: nat, wake: Id)
    requires wake in st.artifacts && wake != e.wakeId
    ensures wake in Finalize(h, st, e, r, current, points).artifacts
         && Finalize(h, st, e, r, current, points).artifacts[wake] == st.artifacts[wake]
  {
    hide Has, ReceiptConflict;
  }

  /** A decision taken on a consumed wake touches nothing. */
  lemma DecisionKeepsMarker(h: Digests, w: World, s: Step, wake: Id)
    requires KeyInjective(h) && WorldInv(h, w) && Stuck(h, w, wake)
    requires s.ConsumeDecide? && s.p in w.processes && w.processes[s.p].Claimed?
    ensures wake in DecideConsume(h, w, s).store.artifacts
         && DecideConsume(h, w, s).store.artifacts[wake] == w.store.artifacts[wake]
    ensures w.processes[s.p].envelope.wakeId == wake ==> s.p !in DecideConsume(h, w, s).processes
  {
    hide StoreInv, InvocationsOk, Has, First, ValidReceipt, CapabilityFits, Named, Finalize;
    var q := w.processes[s.p];
    if q.envelope.wakeId == wake {
      HasIffInChain(h, w.store, q.envelope, ResumeConsumed);
    } else {
      forall r { FinalizeIsLocal(h, w.store, q.envelope, r, s.stillCurrent, s.points, wake); }
    }
  }

  /** Only a finalization under way could remove the marker of a stuck wake. */
  lemma OnlyFinalizeUnmarks(h: Digests, w: World, s: Step, wake: Id)
    requires KeyInjective(h) && WorldInv(h, w) && Stuck(h, w, wake)
    ensures wake in Next(h, w, s).store.artifacts
         && Next(h, w, s).store.artifacts[wake].marker == w.store.artifacts[wake].marker
  {
    hide WorldInv, Chain, Pending, Receive, Claim, DecideConsume, Finalize, Append, Persisted, ValidReceipt, Claimable;
    match s {
      case PendingStep(e, payload, current, points) =>
        LedgerSectionsKeepArtifacts(h, w.store, e, payload, current, points, wake);
      case ReceiveStep(e, payload, current, points) =>
        LedgerSectionsKeepArtifacts(h, w.store, e, payload, current, points, wake);
      case ClaimStep(e, current, points) => LedgerSectionsKeepArtifacts(h, w.store, e, 0, current, points, wake);
      case ConsumeClaim(_, e, _, current, points) =>
        LedgerSectionsKeepArtifacts(h, w.store, e, 0, current, points, wake);
      case ConsumeDecide(p, _, _, _, _) =>
        if p in w.processes && w.processes[p].Claimed? { DecisionKeepsMarker(h, w, s, wake); }
      case Settle(p, current, _, points) =>
        if p in w.processes && w.processes[p].Returned? {
          FinalizeIsLocal(h, w.store, w.processes[p].envelope, w.processes[p].receipt, current, points, wake);
          AppendKeepsArtifacts(h, w.store, ContinuationRejected, w.processes[p].envelope);
        }
      case RejectStep(e, _) => AppendKeepsArtifacts(h, w.store, ContinuationRejected, e);
      case FailStep(e, _) => AppendKeepsArtifacts(h, w.store, ContinuationFailed, e);
      case SupersedeStep(e, _) => AppendKeepsArtifacts(h, w.store, ContinuationSuperseded, e);
      case ProviderCall(p, _, _) =>
        if p in w.processes { AppendKeepsArtifacts(h, w.store, ContinuationFailed, w.processes[p].envelope); }
      case _ =>
    }
  }

  lemma AppendKeepsArtifacts(h: Digests, st: Store, name: EventName, e: Envelope)
    ensures Append(h, st, name, e, None).artifacts == st.artifacts
  {
  }

  lemma StuckStays(h: Digests, w: World, s: Step, wake: Id)
    requires KeyInjective(h) && WorldInv(h, w) && Stuck(h, w, wake)
    ensures Stuck(h, Next(h, w, s), wake)
  {
    hide WorldInv, Persisted, ValidReceipt, Chain, Finalize, Pending, Receive, Claim, Claimable, Append, Decide;
    OnlyFinalizeUnmarks(h, w, s, wake);
    StepKeeps(h, w, s);
    var w' := Next(h, w, s);
    assert WakeAdvances(w.store, w'.store, wake);
    PrefixMember(Chain(h, w.store, wake), Chain(h, w'.store, wake), ResumeConsumed);
    if s.ConsumeDecide? && s.p in w.processes && w.processes[s.p].Claimed? {
      DecisionKeepsMarker(h, w, s, wake);
    }
  }

  /** Nothing the store can do later makes the audit pass again. */
  lemma {:induction false} RetainedMarkerIsForever(h: Digests, env: Environment, w: World, wake: Id, steps: seq<Step>)
    requires KeyInjective(h) && WorldInv(h, w) && Stuck(h, w, wake)
    ensures var st := Run(h, w, steps).store; AuditErrors(h, env, st, st.taskId) != []
    decreases |steps|
  {
    hide AuditErrors, WorldInv, Chain, Next, WakeClean, Pended;
    if steps == [] {
      Parts(h, w);
      MarkedAndConsumed(h, env, w.store, wake);
      AuditOfInv(h, env, w);
    } else {
      StepKeeps(h, w, steps[0]);
      StuckStays(h, w, steps[0], wake);
      RetainedMarkerIsForever(h, env, Next(h, w, steps[0]), wake, steps[1..]);
    }
  }
}

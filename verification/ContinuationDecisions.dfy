/**
 * When the sections of the continuation store go through: each as an if-and-only-if
 * over the store it finds, and the run that delivers one wake.
 */
module ContinuationDecisions {
  import opened Wrappers
  import opened ContinuationStore
  import opened ContinuationRuns
  import opened ContinuationInvocations

  // ---------------------------------------------------------------- what ties records to an envelope

  /** An invocation key separates envelopes by task, suspension, epoch, wake and generation. */
  lemma SameKeyIff(a: Envelope, b: Envelope)
    ensures KeyOf(a) == KeyOf(b) <==>
      && a.taskId == b.taskId && a.suspensionId == b.suspensionId && a.suspensionEpoch == b.suspensionEpoch
      && a.wakeId == b.wakeId && a.generation == b.generation
  {
  }

  /** An event of one envelope matches another exactly when these fields and the envelope digests agree. */
  lemma MatchesIff(h: Digests, a: Envelope, b: Envelope)
    ensures BindingsOf(h, a) == BindingsOf(h, b) <==>
      && KeyOf(a) == KeyOf(b) && a.wakeEventId == b.wakeEventId && h.envelope(a) == h.envelope(b)
      && a.payloadDigest == b.payloadDigest && a.controlContractDigest == b.controlContractDigest
      && a.target == b.target
  {
  }

  /** The marker of one envelope is that of another exactly when these fields and both digests agree. */
  lemma MarkerIff(h: Digests, a: Envelope, b: Envelope)
    ensures IntentOf(h, a) == IntentOf(h, b) <==>
      && a.taskId == b.taskId && a.wakeId == b.wakeId && a.generation == b.generation && a.target == b.target
      && h.key(KeyOf(a)) == h.key(KeyOf(b)) && h.envelope(a) == h.envelope(b)
  {
  }

  // ---------------------------------------------------------------- pending, receive, claim, register

  /** The store with one more event that takes nothing from the artifacts. */
  predicate OneEvent(st: Store, st': Store, name: EventName) {
    && st' == st.(events := st'.events) && |st'.events| == |st.events| + 1 && st.events <= st'.events
    && st'.events[|st.events|].body.name == name
  }

  lemma AppendHas(h: Digests, st: Store, name: EventName, e: Envelope, receipt: Option<ReceiptBinding>)
    ensures OneEvent(st, Append(h, st, name, e, receipt), name)
    ensures forall n, f: Envelope :: Has(h, Append(h, st, name, e, receipt).events, n, f) <==>
      Has(h, st.events, n, f) || (n == name && BindingsOf(h, e) == BindingsOf(h, f))
  {
    hide BindingsOf;
    var st' := Append(h, st, name, e, receipt);
    forall n, f: Envelope
      ensures Has(h, st'.events, n, f) <==>
        Has(h, st.events, n, f) || (n == name && BindingsOf(h, e) == BindingsOf(h, f))
    {
      if Has(h, st.events, n, f) {
        var i :| 0 <= i < |st.events| && st.events[i].body.name == n && st.events[i].body.bindings == BindingsOf(h, f);
        assert st'.events[i] == st.events[i];
      }
      assert st'.events[|st.events|].body.bindings == BindingsOf(h, e);
    }
  }

  /** On a reachable store nothing but another envelope of the same wake conflicts. */
  lemma ConflictIff(h: Digests, st: Store, e: Envelope)
    requires CoreInv(h, st)
    ensures Conflicting(st, e) <==>
      e.wakeId in st.artifacts && KeyOf(st.artifacts[e.wakeId].envelope) == KeyOf(e)
      && st.artifacts[e.wakeId].envelope != e
  {
    if Conflicting(st, e) {
      var w :| w in st.artifacts && KeyOf(st.artifacts[w].envelope) == KeyOf(e) && st.artifacts[w].envelope != e;
      assert ArtifactOk(h, st, w);
    }
  }

  /** A new wake of this task, for a suspension that is current, with the payload its digest names. */
  predicate NewWake(h: Digests, st: Store, e: Envelope, payload: Payload, current: bool) {
    && e.taskId == st.taskId && e.suspensionEpoch >= 1 && e.generation >= 1 && current
    && h.payload(payload) == e.payloadDigest && e.wakeId !in st.artifacts
  }

  /**
   * `pending`, run to its end: the envelope is persisted afterwards exactly if it is valid,
   * carries the digest of the payload, and its wake is new or was persisted like this
   * before. A new wake gets its two files and one event, a repeated one nothing, and
   * everything else leaves one rejection.
   */
  lemma PendingIff(h: Digests, st: Store, e: Envelope, payload: Payload, current: bool, points: nat)
    requires CoreInv(h, st) && points >= 3
    ensures var st' := Pending(h, st, e, payload, current, points);
      var again := Persisted(h, st, e, Some(payload), current);
      && (Persisted(h, st', e, Some(payload), current) <==> NewWake(h, st, e, payload, current) || again)
      && (if NewWake(h, st, e, payload, current) then
            && st'.artifacts == st.artifacts[e.wakeId := Artifact(e, Some(payload), None, None)]
            && OneEvent(st, st'.(artifacts := st.artifacts), ResumePending)
          else if again then st' == st
          else OneEvent(st, st', ContinuationRejected))
  {
    hide Has, CoreInv, Append, BindingsOf;
    ConflictIff(h, st, e);
    AppendHas(h, st, ContinuationRejected, e, None);
    var st2 := st.(artifacts := st.artifacts[e.wakeId := Artifact(e, Some(payload), None, None)]);
    AppendHas(h, st2, ResumePending, e, None);
  }

  /**
   * `receive`, run to its end: the digest is verified exactly if the envelope is persisted
   * with this payload, or has been verified before. Artifacts stay as they are.
   */
  lemma ReceiveIff(h: Digests, st: Store, e: Envelope, payload: Payload, current: bool, points: nat)
    requires points >= 2
    ensures var st' := Receive(h, st, e, payload, current, points);
      var persisted := Persisted(h, st, e, Some(payload), current);
      && st' == st.(events := st'.events) && st.events <= st'.events
      && (Has(h, st'.events, ResumeReceived, e) <==> persisted || Has(h, st.events, ResumeReceived, e))
      && (Has(h, st'.events, DigestVerified, e) <==> persisted || Has(h, st.events, DigestVerified, e))
      && (!persisted ==> OneEvent(st, st', ContinuationRejected))
  {
    hide Has, Append, BindingsOf, Persisted;
    AppendHas(h, st, ContinuationRejected, e, None);
    AppendHas(h, st, ResumeReceived, e, None);
    AppendHas(h, AppendMissing(h, st, ResumeReceived, e), DigestVerified, e, None);
  }

  /**
   * `claim`, run to its end, on a store as every run leaves it: the wake is accepted
   * exactly if it is persisted and verified, or was accepted before.
   */
  lemma ClaimIff(h: Digests, st: Store, e: Envelope, current: bool, points: nat)
    requires KeyInjective(h) && StoreInv(h, st) && points >= 1
    ensures var st' := Claim(h, st, e, current, points);
      var ok := Persisted(h, st, e, None, current) && Has(h, st.events, DigestVerified, e);
      && (Claimable(h, st, e, current) <==> ok)
      && (Has(h, st'.events, ResumeAccepted, e) <==> ok || Has(h, st.events, ResumeAccepted, e))
      && (!ok ==> OneEvent(st, st', ContinuationRejected))
      && st' == st.(events := st'.events)
  {
    hide Has, Append, BindingsOf, Persisted, StoreInv, ClaimConflict;
    AppendHas(h, st, ContinuationRejected, e, None);
    AppendHas(h, st, ResumeAccepted, e, None);
    if Persisted(h, st, e, None, current) { AcceptedIsVerified(h, st, e, current); }
  }

  lemma AcceptedIsVerified(h: Digests, st: Store, e: Envelope, current: bool)
    requires KeyInjective(h) && StoreInv(h, st) && Persisted(h, st, e, None, current)
    ensures !ClaimConflict(h, st.events, e)
    ensures Has(h, st.events, ResumeAccepted, e) ==> Has(h, st.events, DigestVerified, e)
  {
    hide Named, Has;
    HasIffInChain(h, st, e, ResumeAccepted);
    HasIffInChain(h, st, e, DigestVerified);
    assert ChainOk(h, st, e.wakeId);
    var chain := Chain(h, st, e.wakeId);
    if ResumeAccepted in chain {
      var k :| 0 <= k < |chain| && chain[k] == ResumeAccepted;
      assert SUCCESS[k] == ResumeAccepted;
      assert chain[2] == SUCCESS[2];
    }
    forall i: nat | i < |st.events| && st.events[i].body.name == ResumeAccepted
                    && st.events[i].body.bindings.idempotencyKey == h.key(KeyOf(e))
      ensures st.events[i].body.bindings == BindingsOf(h, e)
    {
      assert EventOk(h, st, i);
    }
  }

  /** A capability is registered exactly if its proofs are complete and none, or the same, is there. */
  lemma RegisterIff(st: Store, c: Capability)
    ensures Register(st, c).capability == Some(c) <==>
      st.capability == Some(c)
      || (st.capability.None? && c.automaticFull && c.invocationReceipt && c.duplicateSuppression)
    ensures Register(st, c) == st || Register(st, c) == st.(capability := Some(c))
    ensures st.capability.Some? ==> Register(st, c) == st
  {
  }

  // ---------------------------------------------------------------- a killed pending

  /** The wake's directory exists without the event that would make it persisted. */
  ghost predicate Stranded(h: Digests, st: Store, wake: Id) {
    && wake in st.artifacts
    && forall i :: 0 <= i < |st.events| ==>
         !(st.events[i].body.name == ResumePending && st.events[i].body.bindings.key.wakeId == wake)
  }

  /**
   * A `pending` killed after its first write cannot be repeated: the retry succeeds if
   * and only if the first call wrote nothing or all three of its records.
   */
  lemma PendingRetryIff(h: Digests, st: Store, e: Envelope, payload: Payload, points: nat)
    requires CoreInv(h, st) && NewWake(h, st, e, payload, true)
    ensures var st1 := Pending(h, st, e, payload, true, points);
      var st2 := Pending(h, st1, e, payload, true, 3);
      && (Persisted(h, st2, e, Some(payload), true) <==> points == 0 || points >= 3)
      && (Stranded(h, st1, e.wakeId) <==> points == 1 || points == 2)
  {
    hide CoreInv, Append, Persisted;
    var st1 := Pending(h, st, e, payload, true, points);
    PendingCore(h, st, e, payload, true, points);
    ConflictIff(h, st, e);
    NewIsSilent(h, st, e);
    PendingIff(h, st1, e, payload, true, 3);
    if points >= 3 {
      PendingIff(h, st, e, payload, true, points);
      PendingLast(h, st, e, payload, points);
    } else if points > 0 {
      assert st1.events == st.events;
      StrandedNotPersisted(h, st1, e, Some(payload), true);
    }
  }

  lemma PendingLast(h: Digests, st: Store, e: Envelope, payload: Payload, points: nat)
    requires CoreInv(h, st) && NewWake(h, st, e, payload, true) && points >= 3
    ensures !Stranded(h, Pending(h, st, e, payload, true, points), e.wakeId)
  {
    hide CoreInv;
    ConflictIff(h, st, e);
    var st1 := Pending(h, st, e, payload, true, points);
    assert st1.events[|st.events|].body.name == ResumePending;
  }

  lemma NewIsSilent(h: Digests, st: Store, e: Envelope)
    requires CoreInv(h, st) && e.wakeId !in st.artifacts
    ensures forall i :: 0 <= i < |st.events| ==>
      !(st.events[i].body.name == ResumePending && st.events[i].body.bindings.key.wakeId == e.wakeId)
  {
    forall i: nat | i < |st.events| && st.events[i].body.name == ResumePending
      ensures st.events[i].body.bindings.key.wakeId != e.wakeId
    {
      assert EventOk(h, st, i);
    }
  }

  lemma StrandedNotPersisted(h: Digests, st: Store, e: Envelope, payload: Option<Payload>, current: bool)
    requires Stranded(h, st, e.wakeId)
    ensures !Persisted(h, st, e, payload, current)
  {
  }

  lemma StrandedAppend(h: Digests, st: Store, name: EventName, e: Envelope, receipt: Option<ReceiptBinding>, wake: Id)
    requires Stranded(h, st, wake) && (name.ResumePending? ==> e.wakeId != wake)
    ensures Stranded(h, Append(h, st, name, e, receipt), wake)
  {
  }

  lemma StrandedFinalize(h: Digests, st: Store, e: Envelope, r: Receipt, current: bool, points: nat, wake: Id)
    requires Stranded(h, st, wake)
    ensures Stranded(h, Finalize(h, st, e, r, current, points), wake)
  {
    hide Persisted, Has, ReceiptConflict, Append, BindingsOf;
    PersistedWake(h, st, e, current);
    if Finalizable(h, st, e, r, current) && points > 0 {
      var rb := ReceiptBindingOf(h, e, r);
      var st1 := st.(artifacts := st.artifacts[e.wakeId := st.artifacts[e.wakeId].(receipt := Some(r))]);
      StrandedAppend(h, st1, ContinuationStarted, e, Some(rb), wake);
      var st2 := AppendReceipt(h, st1, ContinuationStarted, e, rb);
      StrandedAppend(h, st2, ResumeConsumed, e, Some(rb), wake);
    }
  }

  lemma StrandedReceive(h: Digests, st: Store, e: Envelope, payload: Payload, current: bool, points: nat, wake: Id)
    requires Stranded(h, st, wake)
    ensures Stranded(h, Receive(h, st, e, payload, current, points), wake)
  {
    hide Persisted, Has, Append, Stranded;
    StrandedAppend(h, st, ContinuationRejected, e, None, wake);
    StrandedAppend(h, st, ResumeReceived, e, None, wake);
    StrandedAppend(h, AppendMissing(h, st, ResumeReceived, e), DigestVerified, e, None, wake);
    StrandedAppend(h, st, DigestVerified, e, None, wake);
  }

  lemma StrandedPending(h: Digests, st: Store, e: Envelope, payload: Payload, current: bool, points: nat, wake: Id)
    requires Stranded(h, st, wake)
    ensures Stranded(h, Pending(h, st, e, payload, current, points), wake)
  {
    hide Persisted, Has, Append, Conflicting;
    StrandedAppend(h, st, ContinuationRejected, e, None, wake);
    if e.wakeId !in st.artifacts {
      var st2 := st.(artifacts := st.artifacts[e.wakeId := Artifact(e, Some(payload), None, None)]);
      StrandedAppend(h, st2, ResumePending, e, None, wake);
    }
  }

  lemma StrandedClaim(h: Digests, st: Store, e: Envelope, current: bool, points: nat, wake: Id)
    requires Stranded(h, st, wake)
    ensures Stranded(h, Claim(h, st, e, current, points), wake)
  {
    hide Claimable, Has, Append, Stranded;
    StrandedAppend(h, st, ContinuationRejected, e, None, wake);
    StrandedAppend(h, st, ResumeAccepted, e, None, wake);
  }

  lemma StrandedDecide(h: Digests, w: World, s: Step, wake: Id)
    requires Stranded(h, w.store, wake) && s.ConsumeDecide? && s.p in w.processes && w.processes[s.p].Claimed?
    ensures Stranded(h, DecideConsume(h, w, s).store, wake)
  {
    hide Finalize, ValidReceipt, Has, First;
    var q := w.processes[s.p];
    var decision := Decide(h, w.store, q.envelope, q.hasReconcile, s.current, s.filesPresent);
    if decision.FinishReceipt? {
      StrandedFinalize(h, w.store, q.envelope, decision.receipt, s.stillCurrent, s.points, wake);
    }
  }

  lemma StrandedSettle(h: Digests, w: World, s: Step, wake: Id)
    requires Stranded(h, w.store, wake) && s.Settle? && s.p in w.processes && w.processes[s.p].Returned?
    ensures Stranded(h, SettleConsume(h, w, s).store, wake)
  {
    hide Finalize, ValidReceipt, Append;
    var q := w.processes[s.p];
    StrandedAppend(h, w.store, ContinuationRejected, q.envelope, None, wake);
    StrandedFinalize(h, w.store, q.envelope, q.receipt, s.current, s.points, wake);
  }

  lemma StrandedStep(h: Digests, w: World, s: Step, wake: Id)
    requires Stranded(h, w.store, wake)
    ensures Stranded(h, Next(h, w, s).store, wake)
  {
    hide Append, Pending, Receive, Claim, Claimable, Persisted, ValidEnvelope, DecideConsume, SettleConsume;
    match s {
      case PendingStep(e, payload, current, points) => StrandedPending(h, w.store, e, payload, current, points, wake);
      case ReceiveStep(e, payload, current, points) => StrandedReceive(h, w.store, e, payload, current, points, wake);
      case ClaimStep(e, current, points) => StrandedClaim(h, w.store, e, current, points, wake);
      case RejectStep(e, _) => StrandedAppend(h, w.store, ContinuationRejected, e, None, wake);
      case FailStep(e, _) => StrandedAppend(h, w.store, ContinuationFailed, e, None, wake);
      case SupersedeStep(e, _) => StrandedAppend(h, w.store, ContinuationSuperseded, e, None, wake);
      case RegisterStep(_) =>
      case ConsumeClaim(_, e, _, current, points) => StrandedClaim(h, w.store, e, current, points, wake);
      case ConsumeDecide(p, _, _, _, _) =>
        if p in w.processes && w.processes[p].Claimed? { StrandedDecide(h, w, s, wake); }
      case ProviderCall(p, _, _) =>
        if p in w.processes && w.processes[p].Calling? {
          StrandedAppend(h, w.store, ContinuationFailed, w.processes[p].envelope, None, wake);
        }
      case Settle(p, _, _, _) =>
        if p in w.processes && w.processes[p].Returned? { StrandedSettle(h, w, s, wake); }
      case Die(_) =>
    }
  }

  /** No run ever persists the envelope of a stranded wake: it is lost to every later call. */
  lemma {:induction false} StrandedForever(h: Digests, w: World, steps: seq<Step>, e: Envelope, current: bool)
    requires Stranded(h, w.store, e.wakeId)
    ensures Stranded(h, Run(h, w, steps).store, e.wakeId)
    ensures !Persisted(h, Run(h, w, steps).store, e, None, current)
    decreases |steps|
  {
    hide Stranded, Persisted, Next;
    if steps == [] {
      StrandedNotPersisted(h, w.store, e, None, current);
    } else {
      StrandedStep(h, w, steps[0], e.wakeId);
      StrandedForever(h, Next(h, w, steps[0]), steps[1..], e, current);
    }
  }

  // ---------------------------------------------------------------- consumed wakes, and deliverable ones

  /**
   * What a later `consume` of a consumed wake returns: its receipt, as long as contract and
   * suspension are current and the evidence files are present, and otherwise nothing.
   */
  lemma ConsumedReturns(
      h: Digests, w: World, i: nat, steps: seq<Step>, hasReconcile: bool, current: bool, filesPresent: bool)
    requires KeyInjective(h) && WorldInv(h, w)
    requires i < |w.store.events| && w.store.events[i].body.name.ResumeConsumed?
    ensures var wake, st := w.store.events[i].body.bindings.key.wakeId, Run(h, w, steps).store;
      && wake in w.store.artifacts && w.store.artifacts[wake].receipt.Some?
      && var e := w.store.artifacts[wake].envelope;
      Decide(h, st, e, hasReconcile, current, filesPresent)
      == if current && filesPresent then Return(w.store.artifacts[wake].receipt.value) else Raise
  {
    hide WorldInv, CoreWorldInv, Persisted, CapabilityFits, ValidReceipt, Decide, ValidEnvelope, Has;
    var wake, st := w.store.events[i].body.bindings.key.wakeId, Run(h, w, steps).store;
    InvParts(h, w);
    ConsumedIsFinal(h, w, i, steps, hasReconcile, current, filesPresent);
    RunKeeps(h, w, steps);
    InvParts(h, Run(h, w, steps));
    RunCore(h, w, steps);
    assert EventOk(h, w.store, i);
    var e := w.store.artifacts[wake].envelope;
    assert ArtifactOk(h, w.store, wake) && WakeAdvances(w.store, st, wake);
    assert st.events[i] == w.store.events[i];
    ConsumedStaysReadable(h, st, e, i, current, filesPresent);
    DecisionIs(h, st, e, hasReconcile, current, filesPresent);
  }

  lemma InvParts(h: Digests, w: World)
    requires WorldInv(h, w)
    ensures CoreWorldInv(h, w) && StoreInv(h, w.store)
  {
  }

  lemma ConsumedStaysReadable(h: Digests, st: Store, e: Envelope, i: nat, current: bool, filesPresent: bool)
    requires KeyInjective(h) && StoreInv(h, st)
    requires e.wakeId in st.artifacts && st.artifacts[e.wakeId].envelope == e
    requires i < |st.events| && st.events[i].body.name == ResumeConsumed
    requires st.events[i].body.bindings == BindingsOf(h, e)
    ensures Has(h, st.events, ResumeConsumed, e)
    ensures Reads(h, st, e, current, filesPresent) <==> current && filesPresent
  {
    hide Named, ValidReceipt;
    assert Has(h, st.events, ResumeConsumed, e);
    assert EventOk(h, st, i) && ArtifactOk(h, st, e.wakeId) && ChainOk(h, st, e.wakeId);
    HasIffInChain(h, st, e, ResumeConsumed);
    FullChain(Chain(h, st, e.wakeId));
    assert SUCCESS[0] == ResumePending;
    HasIffInChain(h, st, e, ResumePending);
  }

  /** The receipt a provider returns for an invocation of its own. */
  function ReceiptFor(h: Digests, e: Envelope, c: Capability, invocationId: string, turnId: string): Receipt {
    Receipt(KeyOf(e), h.key(KeyOf(e)), e.payloadDigest, e.target.durableBoundaryRef, c.adapterId, c.adapterVersion,
            c.providerId, invocationId, turnId, c.identityRef, c.duplicateRef, 0, 0, true)
  }

  /** Such a receipt is valid exactly if it names its invocation and turn; and every valid one is of this form. */
  lemma ValidReceiptIff(h: Digests, r: Receipt, e: Envelope, c: Capability)
    ensures ValidReceipt(h, r, e, c) <==>
      && r == ReceiptFor(h, e, c, r.invocationId, r.turnId).(startedAt := r.startedAt, consumedAt := r.consumedAt)
      && r.invocationId != "" && r.turnId != ""
  {
  }

  lemma PersistedStays(h: Digests, st: Store, st': Store, e: Envelope, payload: Option<Payload>)
    requires Persisted(h, st, e, payload, true) && st'.taskId == st.taskId && st.events <= st'.events
    requires e.wakeId in st'.artifacts && st'.artifacts[e.wakeId].envelope == e
    requires st'.artifacts[e.wakeId].payload == st.artifacts[e.wakeId].payload
    ensures Persisted(h, st', e, payload, true)
  {
    var i :| 0 <= i < |st.events| && st.events[i].body.name == ResumePending
             && st.events[i].body.bindings == BindingsOf(h, e);
    assert st'.events[i] == st.events[i];
  }

  lemma AnyPayload(h: Digests, st: Store, e: Envelope, payload: Payload)
    requires Persisted(h, st, e, Some(payload), true)
    ensures Persisted(h, st, e, None, true)
  {
  }

  /** Pending and received: the wake is verified, and nothing else has changed. */
  lemma Delivered(h: Digests, w: World, e: Envelope, payload: Payload) returns (w2: World)
    requires KeyInjective(h) && WorldInv(h, w) && NewWake(h, w.store, e, payload, true)
    ensures w2 == Next(h, Next(h, w, PendingStep(e, payload, true, 3)), ReceiveStep(e, payload, true, 2))
    ensures WorldInv(h, w2) && w2 == w.(store := w2.store)
    ensures w2.store.artifacts == w.store.artifacts[e.wakeId := Artifact(e, Some(payload), None, None)]
    ensures w2.store.capability == w.store.capability
    ensures Persisted(h, w2.store, e, None, true) && Has(h, w2.store.events, DigestVerified, e)
  {
    hide WorldInv, Persisted, Has, Pending, Receive, CoreInv;
    InvParts(h, w);
    var w1 := Next(h, w, PendingStep(e, payload, true, 3));
    PendingIff(h, w.store, e, payload, true, 3);
    StepKeeps(h, w, PendingStep(e, payload, true, 3));
    w2 := Next(h, w1, ReceiveStep(e, payload, true, 2));
    ReceiveIff(h, w1.store, e, payload, true, 2);
    StepKeeps(h, w1, ReceiveStep(e, payload, true, 2));
    PersistedHere(h, w1.store, e, payload);
    PersistedStays(h, w1.store, w2.store, e, Some(payload));
    AnyPayload(h, w2.store, e, payload);
  }

  lemma PersistedHere(h: Digests, st: Store, e: Envelope, payload: Payload)
    requires Persisted(h, st, e, Some(payload), true)
    ensures e.wakeId in st.artifacts && st.artifacts[e.wakeId].envelope == e
  {
  }

  /**
   * A verified wake without a receipt, with a capability that fits and a process to consume
   * it; where a marker stands from an earlier process, this one must be able to reconcile.
   */
  ghost predicate Consumable(h: Digests, w: World, p: Pid, e: Envelope, hasReconcile: bool) {
    && WorldInv(h, w) && p !in w.processes && CapabilityFits(w.store.capability, e, true)
    && Persisted(h, w.store, e, None, true) && Has(h, w.store.events, DigestVerified, e)
    && w.store.artifacts[e.wakeId].receipt.None? && (w.store.artifacts[e.wakeId].marker.Some? ==> hasReconcile)
  }

  lemma ClaimStepIs(h: Digests, w: World, p: Pid, e: Envelope, hasReconcile: bool)
    requires p !in w.processes && Claimable(h, w.store, e, true)
    ensures Next(h, w, ConsumeClaim(p, e, hasReconcile, true, 1))
         == w.(store := Claim(h, w.store, e, true, 1), processes := w.processes[p := Claimed(e, hasReconcile)])
  {
    hide Claimable, Claim;
  }

  lemma DecideStepIs(h: Digests, w: World, p: Pid, e: Envelope, hasReconcile: bool)
    requires p in w.processes && w.processes[p] == Claimed(e, hasReconcile)
    requires Decide(h, w.store, e, hasReconcile, true, true).CallProvider?
    ensures e.wakeId in w.store.artifacts && w.store.capability.Some?
    ensures var again := Decide(h, w.store, e, hasReconcile, true, true).reconcileOnly;
      Next(h, w, ConsumeDecide(p, true, true, true, 1))
      == w.(store := if again then w.store else WriteMarker(h, w.store, e),
            processes := w.processes[p := Calling(e, w.store.capability.value, again, hasReconcile)])
  {
    hide Has, First, ValidReceipt;
  }

  /** Claim and decision: the marker stands and the process is about to invoke, or to reconcile. */
  lemma SetsOut(h: Digests, w: World, p: Pid, e: Envelope, hasReconcile: bool) returns (w2: World)
    requires KeyInjective(h) && Consumable(h, w, p, e, hasReconcile)
    ensures w2 == Next(h, Next(h, w, ConsumeClaim(p, e, hasReconcile, true, 1)), ConsumeDecide(p, true, true, true, 1))
    ensures WorldInv(h, w2) && w2 == w.(store := w2.store, processes := w2.processes)
    ensures var again := w.store.artifacts[e.wakeId].marker.Some?;
      w2.processes == w.processes[p := Calling(e, w.store.capability.value, again, hasReconcile)]
    ensures w2.store.artifacts
         == w.store.artifacts[e.wakeId := w.store.artifacts[e.wakeId].(marker := Some(IntentOf(h, e)))]
    ensures w2.store.capability == w.store.capability && Persisted(h, w2.store, e, None, true)
  {
    hide WorldInv, Persisted, Has, Claim, Claimable, CapabilityFits, Decide, CoreInv, Next, StoreInv, Advances;
    PersistedWake(h, w.store, e, true);
    InvParts(h, w);
    var claim, decide := ConsumeClaim(p, e, hasReconcile, true, 1), ConsumeDecide(p, true, true, true, 1);
    var w1 := Next(h, w, claim);
    ClaimIff(h, w.store, e, true, 1);
    ClaimStepIs(h, w, p, e, hasReconcile);
    StepKeeps(h, w, claim);
    EventsKept(h, w.store, w1.store);
    InvParts(h, w1);
    PersistedStays(h, w.store, w1.store, e, None);
    StoreHasCore(h, w1.store);
    DecisionIs(h, w1.store, e, hasReconcile, true, true);
    DecideStepIs(h, w1, p, e, hasReconcile);
    ArtifactIntent(h, w1.store, e.wakeId);
    w2 := Next(h, w1, decide);
    StepKeeps(h, w1, decide);
    PersistedStays(h, w1.store, w2.store, e, None);
  }

  lemma EventsKept(h: Digests, st: Store, st': Store)
    requires Advances(h, st, st')
    ensures st.events <= st'.events
  {
  }

  lemma FinalizeArtifacts(h: Digests, st: Store, e: Envelope, r: Receipt, points: nat)
    requires CoreInv(h, st) && Finalizable(h, st, e, r, true) && points >= 4
    requires CapabilityFits(st.capability, e, true) && ValidReceipt(h, r, e, st.capability.value)
    ensures Finalize(h, st, e, r, true, points).artifacts
         == st.artifacts[e.wakeId := st.artifacts[e.wakeId].(receipt := Some(r), marker := None)]
  {
    hide CoreInv, ValidReceipt, Has, ReceiptConflict, Append, CoreAdvances;
    PersistedWake(h, st, e, true);
    var rb, a := ReceiptBindingOf(h, e, r), st.artifacts[e.wakeId].(receipt := Some(r));
    var st1 := st.(artifacts := st.artifacts[e.wakeId := a]);
    ArtifactIntent(h, st, e.wakeId);
    WriteArtifact(h, st, e.wakeId, a);
    AppendReceiptCore(h, st1, ContinuationStarted, e, r);
    var st2 := AppendReceipt(h, st1, ContinuationStarted, e, rb);
    AppendReceiptCore(h, st2, ResumeConsumed, e, r);
    NoReceiptConflict(h, st1, e, ContinuationStarted, r);
    NoReceiptConflict(h, st2, e, ResumeConsumed, r);
  }

  lemma CallStepIs(h: Digests, w: World, p: Pid, r: Receipt)
    requires p in w.processes && w.processes[p].Calling?
    ensures var q := w.processes[p];
      Next(h, w, ProviderCall(p, Some(r), 0))
      == w.(invocations := if q.reconcileOnly then w.invocations
                           else w.invocations[q.envelope.wakeId := Invocations(w, q.envelope.wakeId) + 1],
            processes := w.processes[p := Returned(q.envelope, q.capability, r)])
  {
  }

  lemma SettleStepIs(h: Digests, w: World, p: Pid)
    requires p in w.processes && w.processes[p].Returned?
    requires ValidReceipt(h, w.processes[p].receipt, w.processes[p].envelope, w.processes[p].capability)
    ensures var q := w.processes[p];
      Next(h, w, Settle(p, true, true, 4))
      == w.(store := Finalize(h, w.store, q.envelope, q.receipt, true, 4), processes := w.processes - {p})
  {
    hide Finalize, ValidReceipt;
  }

  /** The call and its settlement: the receipt is kept, the marker is gone, the chain is complete. */
  lemma Settles(h: Digests, w: World, p: Pid, e: Envelope, r: Receipt) returns (w2: World)
    requires KeyInjective(h) && WorldInv(h, w) && p in w.processes && w.processes[p].Calling?
    requires w.processes[p].envelope == e && Persisted(h, w.store, e, None, true)
    requires w.store.artifacts[e.wakeId].receipt.None?
    requires ValidReceipt(h, r, e, w.processes[p].capability)
    ensures w2 == Next(h, Next(h, w, ProviderCall(p, Some(r), 0)), Settle(p, true, true, 4))
    ensures WorldInv(h, w2) && w2.processes == w.processes - {p}
    ensures w2.invocations == if w.processes[p].reconcileOnly then w.invocations else w.invocations[e.wakeId := 1]
    ensures w2.store.artifacts
         == w.store.artifacts[e.wakeId := w.store.artifacts[e.wakeId].(receipt := Some(r), marker := None)]
    ensures Chain(h, w2.store, e.wakeId) == SUCCESS
  {
    hide WorldInv, Persisted, ValidReceipt, CapabilityFits, CoreInv, Finalize, Accepted, Named, StoreInv, Next,
         Advances, ProcessOk;
    PersistedWake(h, w.store, e, true);
    InvParts(h, w);
    Parts(h, w);
    ReadyToInvoke(h, w, p);
    var w1 := Next(h, w, ProviderCall(p, Some(r), 0));
    CallStepIs(h, w, p, r);
    StepKeeps(h, w, ProviderCall(p, Some(r), 0));
    w2 := Next(h, w1, Settle(p, true, true, 4));
    SettleStepIs(h, w1, p);
    StepKeeps(h, w1, Settle(p, true, true, 4));
    assert w1.processes - {p} == w.processes - {p};
    StoreHasCore(h, w.store);
    FinalizeArtifacts(h, w.store, e, r, 4);
    AcceptedInChain(h, w.store, w.processes[p]);
    FinalizeKeeps(h, w.store, e, r, true, 4);
    InvParts(h, w2);
    ChainPrefix(h, w2.store, e.wakeId);
    FullChain(Chain(h, w2.store, e.wakeId));
  }

  lemma ReadyToInvoke(h: Digests, w: World, p: Pid)
    requires WorldInv(h, w) && p in w.processes && w.processes[p].Calling?
    ensures AboutToInvoke(w.processes[p]) ==> Invocations(w, w.processes[p].envelope.wakeId) == 0
    ensures w.store.capability == Some(w.processes[p].capability)
    ensures CapabilityFits(w.store.capability, w.processes[p].envelope, true)
  {
    hide CoreInv, ChainInv, Accepted, Spent;
  }

  lemma AcceptedInChain(h: Digests, st: Store, q: Process)
    requires Accepted(h, st, q)
    ensures q.envelope.wakeId in st.artifacts && ResumeAccepted in Chain(h, st, q.envelope.wakeId)
  {
  }

  lemma ChainPrefix(h: Digests, st: Store, wake: Id)
    requires StoreInv(h, st) && wake in st.artifacts
    ensures Chain(h, st, wake) <= SUCCESS
  {
    assert ChainOk(h, st, wake);
  }

  lemma RunCons(h: Digests, w: World, s: Step, rest: seq<Step>)
    ensures Run(h, w, [s] + rest) == Run(h, Next(h, w, s), rest)
  {
    assert ([s] + rest)[1..] == rest;
  }

  lemma RunTwo(h: Digests, w: World, s: Step, t: Step, rest: seq<Step>)
    ensures Run(h, w, [s, t] + rest) == Run(h, Next(h, Next(h, w, s), t), rest)
  {
    assert [s, t] + rest == [s] + ([t] + rest);
    RunCons(h, w, s, [t] + rest);
    RunCons(h, Next(h, w, s), t, rest);
  }

  /** The steps of one `consume` call. */
  function Consumption(p: Pid, e: Envelope, hasReconcile: bool, r: Receipt): seq<Step> {
    [ConsumeClaim(p, e, hasReconcile, true, 1), ConsumeDecide(p, true, true, true, 1),
     ProviderCall(p, Some(r), 0), Settle(p, true, true, 4)]
  }

  /**
   * A consumable wake is consumed: by one invocation if nobody has set out on it, and
   * without any, by reconciliation, if an earlier process left its marker.
   */
  lemma ConsumeSucceeds(h: Digests, w: World, p: Pid, e: Envelope, hasReconcile: bool, r: Receipt)
    requires KeyInjective(h) && Consumable(h, w, p, e, hasReconcile) && w.store.capability.Some?
    requires ValidReceipt(h, r, e, w.store.capability.value)
    ensures e.wakeId in w.store.artifacts
    ensures var w', a := Run(h, w, Consumption(p, e, hasReconcile, r)), w.store.artifacts[e.wakeId];
      && w'.store.artifacts == w.store.artifacts[e.wakeId := a.(receipt := Some(r), marker := None)]
      && w'.processes == w.processes
      && w'.invocations == (if a.marker.Some? then w.invocations else w.invocations[e.wakeId := 1])
      && Chain(h, w'.store, e.wakeId) == SUCCESS && WorldInv(h, w')
  {
    hide WorldInv, Persisted, Has, CapabilityFits, ValidReceipt, Next, Run, Named, KeyInjective;
    PersistedWake(h, w.store, e, true);
    var claim, decide := ConsumeClaim(p, e, hasReconcile, true, 1), ConsumeDecide(p, true, true, true, 1);
    var call, settle := ProviderCall(p, Some(r), 0), Settle(p, true, true, 4);
    var w2 := SetsOut(h, w, p, e, hasReconcile);
    var w4 := Settles(h, w2, p, e, r);
    assert Consumption(p, e, hasReconcile, r) == [claim, decide] + ([call, settle] + []);
    RunTwo(h, w, claim, decide, [call, settle] + []);
    RunTwo(h, w2, call, settle, []);
    RunNone(h, w4);
    assert w2.processes - {p} == w.processes;
  }

  /**
   * A wake is deliverable: from any world a run has led to, a new wake whose capability
   * fits is pending, received, claimed, invoked once and consumed with the provider's
   * receipt, whether or not the caller can reconcile; every other wake is as before.
   */
  lemma DeliverySucceeds(
      h: Digests, w: World, p: Pid, e: Envelope, payload: Payload, hasReconcile: bool, r: Receipt)
    requires KeyInjective(h) && WorldInv(h, w) && NewWake(h, w.store, e, payload, true) && p !in w.processes
    requires CapabilityFits(w.store.capability, e, true) && ValidReceipt(h, r, e, w.store.capability.value)
    ensures var w' := Run(h, w, [PendingStep(e, payload, true, 3), ReceiveStep(e, payload, true, 2)]
                                + Consumption(p, e, hasReconcile, r));
      && w'.store.artifacts == w.store.artifacts[e.wakeId := Artifact(e, Some(payload), None, Some(r))]
      && w'.processes == w.processes && w'.invocations == w.invocations[e.wakeId := 1]
      && Chain(h, w'.store, e.wakeId) == SUCCESS && WorldInv(h, w')
  {
    hide WorldInv, Persisted, Has, ValidReceipt, Next, Run, Named, KeyInjective, Consumption;
    var w2 := Delivered(h, w, e, payload);
    RunTwo(h, w, PendingStep(e, payload, true, 3), ReceiveStep(e, payload, true, 2),
           Consumption(p, e, hasReconcile, r));
    ConsumeSucceeds(h, w2, p, e, hasReconcile, r);
  }

  lemma RunNone(h: Digests, w: World)
    ensures Run(h, w, []) == w
  {
  }
}

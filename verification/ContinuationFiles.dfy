/**
 * The continuation store as the object it is in the source: methods that append to
 * the ledger and write artifacts step by step, each proved against its function.
 */
module ContinuationFiles {
  import opened Wrappers
  import opened ContinuationStore

  class ContinuationFileStore {
    const h: Digests
    const taskId: string
    var events: seq<Event>
    var artifacts: map<Id, Artifact>
    var capability: Option<Capability>

    function Snapshot(): Store
      reads this
    {
      Store(taskId, events, artifacts, capability)
    }

    constructor (h: Digests, taskId: string)
      ensures this.h == h && Snapshot() == Store(taskId, [], map[], None)
    {
      this.h, this.taskId := h, taskId;
      events, artifacts, capability := [], map[], None;
    }

    /** `any(... self._matches(...))` over the ledger. */
    method HasEvent(name: EventName, e: Envelope) returns (found: bool)
      ensures found == Has(h, events, name, e)
    {
      for i := 0 to |events|
        invariant forall k :: 0 <= k < i ==>
          !(events[k].body.name == name && events[k].body.bindings == BindingsOf(h, e))
      {
        if events[i].body.name == name && events[i].body.bindings == BindingsOf(h, e) { return true; }
      }
      found := false;
    }

    /** `next(event for event in events if ...)`. */
    method FirstEvent(name: EventName, e: Envelope) returns (found: Option<Event>)
      ensures found == First(h, events, name, e)
    {
      for i := 0 to |events|
        invariant First(h, events, name, e) == First(h, events[i..], name, e)
      {
        assert events[i..][1..] == events[i + 1..];
        if events[i].body.name == name && events[i].body.bindings == BindingsOf(h, e) { return Some(events[i]); }
      }
      found := None;
    }

    method AppendEvent(name: EventName, e: Envelope, receipt: Option<ReceiptBinding>)
      modifies this`events
      ensures Snapshot() == Append(h, old(Snapshot()), name, e, receipt)
    {
      var body := EventBody(|events| + 1, name, BindingsOf(h, e), receipt);
      events := events + [Event(body, h.event(body))];
    }

    method Reject(e: Envelope, points: nat)
      modifies this`events
      ensures Snapshot() == RejectAt(h, old(Snapshot()), e, points)
    {
      if points > 0 { AppendEvent(ContinuationRejected, e, None); }
    }

    /** `_persisted`. */
    method IsPersisted(e: Envelope, payload: Option<Payload>, current: bool) returns (ok: bool)
      ensures ok == Persisted(h, Snapshot(), e, payload, current)
    {
      if !ValidEnvelope(Snapshot(), e, current) || e.wakeId !in artifacts { return false; }
      var a := artifacts[e.wakeId];
      if a.envelope != e || a.payload.None? || h.payload(a.payload.value) != e.payloadDigest { return false; }
      if payload.Some? && payload != a.payload { return false; }
      ok := HasEvent(ResumePending, e);
    }

    method PendingEnvelope(e: Envelope, payload: Payload, current: bool, points: nat)
      modifies this
      ensures Snapshot() == Pending(h, old(Snapshot()), e, payload, current, points)
    {
      if !ValidEnvelope(Snapshot(), e, current) || h.payload(payload) != e.payloadDigest || Conflicting(Snapshot(), e) {
        Reject(e, points);
        return;
      }
      if e.wakeId in artifacts {
        var persisted := IsPersisted(e, Some(payload), current);
        if !persisted { Reject(e, points); }
        return;
      }
      if points == 0 { return; }
      artifacts := artifacts[e.wakeId := Artifact(e, None, None, None)];
      if points == 1 { return; }
      artifacts := artifacts[e.wakeId := artifacts[e.wakeId].(payload := Some(payload))];
      assert artifacts == old(artifacts)[e.wakeId := Artifact(e, Some(payload), None, None)];
      if points == 2 { return; }
      AppendEvent(ResumePending, e, None);
    }

    method AppendIfMissing(name: EventName, e: Envelope)
      modifies this`events
      ensures Snapshot() == AppendMissing(h, old(Snapshot()), name, e)
    {
      var present := HasEvent(name, e);
      if !present { AppendEvent(name, e, None); }
    }

    method ReceiveEnvelope(e: Envelope, payload: Payload, current: bool, points: nat)
      modifies this`events
      ensures Snapshot() == Receive(h, old(Snapshot()), e, payload, current, points)
    {
      var persisted := IsPersisted(e, Some(payload), current);
      if !persisted { Reject(e, points); return; }
      if points == 0 { return; }
      AppendIfMissing(ResumeReceived, e);
      if points == 1 { return; }
      AppendIfMissing(DigestVerified, e);
    }

    /** The first accepted event with this key that is bound to another envelope. */
    method HasClaimConflict(e: Envelope) returns (found: bool)
      ensures found == ClaimConflict(h, events, e)
    {
      for i := 0 to |events|
        invariant forall k :: 0 <= k < i ==>
          !(events[k].body.name == ResumeAccepted && events[k].body.bindings.idempotencyKey == h.key(KeyOf(e))
            && events[k].body.bindings != BindingsOf(h, e))
      {
        var b := events[i].body;
        if b.name == ResumeAccepted && b.bindings.idempotencyKey == h.key(KeyOf(e)) && b.bindings != BindingsOf(h, e) {
          return true;
        }
      }
      found := false;
    }

    method ClaimEnvelope(e: Envelope, current: bool, points: nat) returns (claimed: bool)
      modifies this`events
      ensures claimed == Claimable(h, old(Snapshot()), e, current)
      ensures Snapshot() == Claim(h, old(Snapshot()), e, current, points)
    {
      var persisted := IsPersisted(e, None, current);
      if !persisted { Reject(e, points); return false; }
      var conflict := HasClaimConflict(e);
      if conflict { Reject(e, points); return false; }
      var prior := HasEvent(ResumeAccepted, e);
      if prior { return true; }
      var verified := HasEvent(DigestVerified, e);
      if !verified { Reject(e, points); return false; }
      if points > 0 { AppendEvent(ResumeAccepted, e, None); }
      claimed := true;
    }

    /** One receipt-bearing event of the finalization; false when it is committed with another receipt. */
    method AppendReceiptEvent(name: EventName, e: Envelope, rb: ReceiptBinding) returns (ok: bool)
      modifies this`events
      ensures ok == !ReceiptConflict(h, old(events), name, e, rb)
      ensures Snapshot() == if ok then AppendReceipt(h, old(Snapshot()), name, e, rb) else old(Snapshot())
    {
      FirstIsHas(h, events, name, e);
      var first := FirstEvent(name, e);
      ok := first.None? || first.value.body.receipt == Some(rb);
      if ok && first.None? { AppendEvent(name, e, Some(rb)); }
    }

    /** `_finalize_receipt_locked`, killed after `points` writes. */
    method FinalizeReceipt(e: Envelope, r: Receipt, current: bool, points: nat)
      modifies this
      ensures Snapshot() == Finalize(h, old(Snapshot()), e, r, current, points)
    {
      var persisted := IsPersisted(e, None, current);
      if !persisted || points == 0 { return; }
      if artifacts[e.wakeId].receipt.Some? && artifacts[e.wakeId].receipt != Some(r) { return; }
      var rb := ReceiptBindingOf(h, e, r);
      artifacts := artifacts[e.wakeId := artifacts[e.wakeId].(receipt := Some(r))];
      if points == 1 { return; }
      var ok := AppendReceiptEvent(ContinuationStarted, e, rb);
      if !ok || points == 2 { return; }
      ok := AppendReceiptEvent(ResumeConsumed, e, rb);
      if !ok || points == 3 { return; }
      artifacts := artifacts[e.wakeId := artifacts[e.wakeId].(marker := None)];
    }

    /** The decision of `consume`, and the marker it leaves before the provider is called. */
    method DecideInvocation(e: Envelope, hasReconcile: bool, current: bool, filesPresent: bool, points: nat)
        returns (d: Decision)
      modifies this`artifacts
      ensures d == Decide(h, old(Snapshot()), e, hasReconcile, current, filesPresent)
      ensures d == CallProvider(false) <==>
        && Persisted(h, old(Snapshot()), e, None, current) && CapabilityFits(capability, e, filesPresent)
        && (forall i :: 0 <= i < |events| ==>
              !(events[i].body.name == ResumeConsumed && events[i].body.bindings == BindingsOf(h, e)))
        && old(artifacts)[e.wakeId].receipt.None? && old(artifacts)[e.wakeId].marker.None?
      ensures d == CallProvider(false) && points > 0 ==>
        artifacts == old(artifacts)[e.wakeId := old(artifacts)[e.wakeId].(marker := Some(IntentOf(h, e)))]
      ensures d != CallProvider(false) || points == 0 ==> artifacts == old(artifacts)
      ensures Snapshot() == if d == CallProvider(false) && points > 0 then WriteMarker(h, old(Snapshot()), e)
                            else old(Snapshot())
    {
      var persisted := IsPersisted(e, None, current);
      if !persisted || !CapabilityFits(capability, e, filesPresent) { return Raise; }
      FirstIsHas(h, events, ResumeConsumed, e);
      var prior := FirstEvent(ResumeConsumed, e);
      var a, c := artifacts[e.wakeId], capability.value;
      if prior.Some? {
        if a.receipt.None? || !ValidReceipt(h, a.receipt.value, e, c) { return Raise; }
        var recorded := prior.value.body.receipt;
        if recorded.None? || recorded.value.receiptDigest != h.receipt(a.receipt.value) { return Raise; }
        return Return(a.receipt.value);
      }
      if a.receipt.Some? {
        return if ValidReceipt(h, a.receipt.value, e, c) then FinishReceipt(a.receipt.value) else Raise;
      }
      if a.marker.Some? {
        return if hasReconcile then CallProvider(true) else Raise;
      }
      if points > 0 {
        artifacts := artifacts[e.wakeId := a.(marker := Some(IntentOf(h, e)))];
      }
      d := CallProvider(false);
    }
  }
}

/**
 * Runs of the continuation store: any number of processes in any interleaving, each
 * of which may die at any write or while the provider is being called.
 */
module ContinuationRuns {
  import opened Wrappers
  import opened ContinuationStore

  // ---------------------------------------------------------------- the acknowledgement chain

  /** The names of the success events that carry an idempotency key, in ledger order. */
  function Named(es: seq<Event>, key: Digest): seq<EventName> {
    if es == [] then []
    else
      var last := es[|es| - 1].body;
      Named(es[..|es| - 1], key)
      + if IsSuccess(last.name) && last.bindings.idempotencyKey == key then [last.name] else []
  }

  ghost predicate KeyInjective(h: Digests) {
    forall a, b :: h.key(a) == h.key(b) ==> a == b
  }

  lemma NamedAppend(es: seq<Event>, ev: Event, key: Digest)
    ensures Named(es + [ev], key) == Named(es, key) +
      if IsSuccess(ev.body.name) && ev.body.bindings.idempotencyKey == key then [ev.body.name] else []
  {
    assert (es + [ev])[..|es + [ev]| - 1] == es;
  }

  lemma {:induction false} NamedMember(es: seq<Event>, key: Digest, name: EventName)
    ensures name in Named(es, key) <==>
      exists i :: 0 <= i < |es| && es[i].body.name == name && IsSuccess(name)
                  && es[i].body.bindings.idempotencyKey == key
  {
    if es != [] {
      var init, last := es[..|es| - 1], es[|es| - 1];
      NamedMember(init, key, name);
      assert forall i :: 0 <= i < |init| ==> init[i] == es[i];
    }
  }

  predicate InChain(ev: Event, key: Digest) {
    IsSuccess(ev.body.name) && ev.body.bindings.idempotencyKey == key
  }

  /** These are the positions of a chain: in order, with its names, and no event of the key left out. */
  ghost predicate PositionsOf(es: seq<Event>, key: Digest, at: seq<nat>, names: seq<EventName>) {
    && |at| == |names|
    && (forall k :: 0 <= k < |at| ==> at[k] < |es| && InChain(es[at[k]], key) && es[at[k]].body.name == names[k])
    && (forall j, k :: 0 <= j < k < |at| ==> at[j] < at[k])
    && (forall i: nat :: i < |es| && InChain(es[i], key) ==> i in at)
  }

  lemma PositionsGrow(es: seq<Event>, ev: Event, key: Digest, at: seq<nat>, names: seq<EventName>)
    requires PositionsOf(es, key, at, names)
    ensures !InChain(ev, key) ==> PositionsOf(es + [ev], key, at, names)
    ensures InChain(ev, key) ==> PositionsOf(es + [ev], key, at + [|es|], names + [ev.body.name])
  {
    hide InChain;
    var all := es + [ev];
    forall i: nat | i < |all| && InChain(all[i], key) ensures i in at + [|es|] {
      if i < |es| { assert i in at; } else { assert (at + [|es|])[|at|] == i; }
    }
  }

  /** The chain is read off the ledger in order: every success event under the key, each once. */
  lemma {:induction false} NamedPositions(es: seq<Event>, key: Digest) returns (at: seq<nat>)
    ensures PositionsOf(es, key, at, Named(es, key))
  {
    hide PositionsOf;
    at := [];
    if es == [] {
      NoPositions(key);
    } else {
      var init, last := es[..|es| - 1], es[|es| - 1];
      at := NamedPositions(init, key);
      PositionsGrow(init, last, key, at, Named(init, key));
      assert es == init + [last];
      assert Named(es, key) == if InChain(last, key) then Named(init, key) + [last.body.name] else Named(init, key);
      if InChain(last, key) { at := at + [|init|]; }
    }
  }

  lemma NoPositions(key: Digest)
    ensures PositionsOf([], key, [], Named([], key))
  {
  }

  /** A prefix of the success chain that has the event before `i` but not event `i` ends there. */
  lemma PrefixEndsAt(s: seq<EventName>, i: nat)
    requires s <= SUCCESS && i < |SUCCESS|
    requires i > 0 ==> SUCCESS[i - 1] in s
    requires SUCCESS[i] !in s
    ensures s == SUCCESS[..i]
  {
    if i > 0 {
      var k :| 0 <= k < |s| && s[k] == SUCCESS[i - 1];
      assert s[k] == SUCCESS[k] && k == i - 1;
    }
  }

  // ---------------------------------------------------------------- store invariant

  /** Event `i` is numbered, sealed, and, if a success, bound to the envelope persisted for its wake. */
  ghost predicate EventOk(h: Digests, st: Store, i: nat)
    requires i < |st.events|
  {
    var ev := st.events[i];
    var w := ev.body.bindings.key.wakeId;
    && ev.body.sequence == i + 1
    && ev.eventId == h.event(ev.body)
    && (IsSuccess(ev.body.name) ==> w in st.artifacts && ev.body.bindings == BindingsOf(h, st.artifacts[w].envelope))
    && (ev.body.name.ContinuationStarted? || ev.body.name.ResumeConsumed? ==>
          && w in st.artifacts && st.artifacts[w].receipt.Some?
          && ev.body.receipt == Some(ReceiptBindingOf(h, st.artifacts[w].envelope, st.artifacts[w].receipt.value)))
  }

  /** A wake's artifacts agree with one another, and its receipt with the capability. */
  ghost predicate ArtifactOk(h: Digests, st: Store, w: Id)
    requires w in st.artifacts
  {
    var a := st.artifacts[w];
    && a.envelope.wakeId == w
    && a.envelope.taskId == st.taskId && a.envelope.suspensionEpoch >= 1 && a.envelope.generation >= 1
    && (a.payload.Some? ==> h.payload(a.payload.value) == a.envelope.payloadDigest)
    && (a.marker.Some? ==> a.marker == Some(IntentOf(h, a.envelope)))
    && (a.receipt.Some? ==> st.capability.Some? && CapabilityFits(st.capability, a.envelope, true)
                            && ValidReceipt(h, a.receipt.value, a.envelope, st.capability.value))
  }

  /** What holds for every digest function. */
  ghost predicate CoreInv(h: Digests, st: Store) {
    && (forall i: nat :: i < |st.events| ==> EventOk(h, st, i))
    && (forall w :: w in st.artifacts ==> ArtifactOk(h, st, w))
  }

  /** The acknowledgement chain of one wake. */
  function Chain(h: Digests, st: Store, w: Id): seq<EventName>
    requires w in st.artifacts
  {
    Named(st.events, h.key(KeyOf(st.artifacts[w].envelope)))
  }

  ghost predicate ChainOk(h: Digests, st: Store, w: Id)
    requires w in st.artifacts
  {
    Chain(h, st, w) <= SUCCESS && (ResumePending in Chain(h, st, w) ==> st.artifacts[w].payload.Some?)
  }

  /** What holds as well when invocation keys do not collide. */
  ghost predicate ChainInv(h: Digests, st: Store) {
    forall w :: w in st.artifacts ==> ChainOk(h, st, w)
  }

  ghost predicate StoreInv(h: Digests, st: Store) {
    CoreInv(h, st) && ChainInv(h, st)
  }

  /** For a persisted envelope, matching events are exactly the events of its chain. */
  lemma HasIffInChain(h: Digests, st: Store, e: Envelope, name: EventName)
    requires KeyInjective(h) && StoreInv(h, st) && IsSuccess(name)
    requires e.wakeId in st.artifacts && st.artifacts[e.wakeId].envelope == e
    ensures Has(h, st.events, name, e) <==> name in Chain(h, st, e.wakeId)
  {
    var key := h.key(KeyOf(e));
    NamedMember(st.events, key, name);
    if name in Chain(h, st, e.wakeId) {
      var i: nat :| i < |st.events| && st.events[i].body.name == name
                    && st.events[i].body.bindings.idempotencyKey == key;
      assert EventOk(h, st, i);
    }
  }

  /** No success event carries the key of an envelope that is not persisted. */
  lemma NoChainWithoutArtifact(h: Digests, st: Store, e: Envelope)
    requires KeyInjective(h) && StoreInv(h, st) && e.wakeId !in st.artifacts
    ensures Named(st.events, h.key(KeyOf(e))) == []
  {
    var key := h.key(KeyOf(e));
    forall i: nat | i < |st.events| && IsSuccess(st.events[i].body.name)
      ensures st.events[i].body.bindings.idempotencyKey != key
    {
      assert EventOk(h, st, i);
    }
    if Named(st.events, key) != [] {
      NamedMember(st.events, key, Named(st.events, key)[0]);
    }
  }

  // ---------------------------------------------------------------- what no section takes back

  ghost predicate WakeAdvances(st: Store, st': Store, w: Id)
    requires w in st.artifacts
  {
    && w in st'.artifacts
    && var a, a' := st.artifacts[w], st'.artifacts[w];
    && a'.envelope == a.envelope
    && (a.payload.Some? ==> a'.payload == a.payload)
    && (a.receipt.Some? ==> a'.receipt == a.receipt)
    && (a.marker.Some? ==> a'.marker.Some? || a'.receipt.Some?)
  }

  ghost predicate CoreAdvances(st: Store, st': Store) {
    && st'.taskId == st.taskId
    && (st.capability.Some? ==> st'.capability == st.capability)
    && st.events <= st'.events
    && (forall w :: w in st.artifacts ==> WakeAdvances(st, st', w))
  }

  ghost predicate ChainGrows(h: Digests, st: Store, st': Store) {
    forall w :: w in st.artifacts ==> w in st'.artifacts && Chain(h, st, w) <= Chain(h, st', w)
  }

  ghost predicate CoreKeeps(h: Digests, st: Store, st': Store) {
    CoreInv(h, st') && CoreAdvances(st, st')
  }

  ghost predicate Advances(h: Digests, st: Store, st': Store) {
    CoreAdvances(st, st') && ChainGrows(h, st, st')
  }

  /** Both halves of what each section is proved to keep. */
  ghost predicate Keeps(h: Digests, st: Store, st': Store) {
    StoreInv(h, st') && Advances(h, st, st')
  }

  lemma CoreAdvancesTransitive(st: Store, st1: Store, st2: Store)
    requires CoreAdvances(st, st1) && CoreAdvances(st1, st2)
    ensures CoreAdvances(st, st2)
  {
    forall w | w in st.artifacts ensures WakeAdvances(st, st2, w) {
      assert WakeAdvances(st, st1, w) && WakeAdvances(st1, st2, w);
    }
  }

  lemma PrefixTransitive(a: seq<EventName>, b: seq<EventName>, c: seq<EventName>)
    requires a <= b && b <= c
    ensures a <= c
  {
    assert forall i :: 0 <= i < |a| ==> a[i] == b[i] && b[i] == c[i];
  }

  lemma AdvancesTransitive(h: Digests, st: Store, st1: Store, st2: Store)
    requires Advances(h, st, st1) && Advances(h, st1, st2)
    ensures Advances(h, st, st2)
  {
    hide CoreAdvances, Chain;
    CoreAdvancesTransitive(st, st1, st2);
    forall w | w in st.artifacts ensures w in st2.artifacts && Chain(h, st, w) <= Chain(h, st2, w) {
      PrefixTransitive(Chain(h, st, w), Chain(h, st1, w), Chain(h, st2, w));
    }
  }

  lemma CoreKeepsItself(h: Digests, st: Store)
    requires CoreInv(h, st)
    ensures CoreKeeps(h, st, st)
  {
  }

  lemma KeepsItself(h: Digests, st: Store)
    requires StoreInv(h, st)
    ensures Keeps(h, st, st)
  {
  }

  // ---------------------------------------------------------------- one write at a time, for every digest function

  /** An event may be appended if, as a success, it is bound to what is persisted. */
  lemma AppendCore(h: Digests, st: Store, name: EventName, e: Envelope, receipt: Option<ReceiptBinding>)
    requires CoreInv(h, st)
    requires IsSuccess(name) ==> e.wakeId in st.artifacts && st.artifacts[e.wakeId].envelope == e
    requires name.ContinuationStarted? || name.ResumeConsumed? ==>
      && st.artifacts[e.wakeId].receipt.Some?
      && receipt == Some(ReceiptBindingOf(h, e, st.artifacts[e.wakeId].receipt.value))
    ensures CoreKeeps(h, st, Append(h, st, name, e, receipt))
  {
    var st' := Append(h, st, name, e, receipt);
    forall i: nat | i < |st'.events| ensures EventOk(h, st', i) {
      if i < |st.events| { assert EventOk(h, st, i); }
    }
    forall w | w in st'.artifacts ensures ArtifactOk(h, st', w) { assert ArtifactOk(h, st, w); }
  }

  /** A write to one wake's artifacts that keeps what the ledger relies on. */
  lemma WriteArtifact(h: Digests, st: Store, w: Id, a: Artifact)
    requires CoreInv(h, st) && w in st.artifacts
    requires a.envelope == st.artifacts[w].envelope && a.payload == st.artifacts[w].payload
    requires a.marker.Some? ==> a.marker == Some(IntentOf(h, a.envelope))
    requires st.artifacts[w].receipt.Some? ==> a.receipt == st.artifacts[w].receipt
    requires st.artifacts[w].marker.Some? ==> a.marker.Some? || a.receipt.Some?
    requires a.receipt.Some? ==> st.capability.Some? && CapabilityFits(st.capability, a.envelope, true)
                                 && ValidReceipt(h, a.receipt.value, a.envelope, st.capability.value)
    ensures CoreKeeps(h, st, st.(artifacts := st.artifacts[w := a]))
  {
    var st' := st.(artifacts := st.artifacts[w := a]);
    forall i: nat | i < |st'.events| ensures EventOk(h, st', i) { assert EventOk(h, st, i); }
    forall v | v in st'.artifacts ensures ArtifactOk(h, st', v) { assert ArtifactOk(h, st, v); }
  }

  lemma CreateArtifact(h: Digests, st: Store, e: Envelope, payload: Option<Payload>)
    requires CoreInv(h, st) && e.wakeId !in st.artifacts && ValidEnvelope(st, e, true)
    requires payload.Some? ==> h.payload(payload.value) == e.payloadDigest
    ensures CoreKeeps(h, st, st.(artifacts := st.artifacts[e.wakeId := Artifact(e, payload, None, None)]))
  {
    var st' := st.(artifacts := st.artifacts[e.wakeId := Artifact(e, payload, None, None)]);
    forall i: nat | i < |st'.events| ensures EventOk(h, st', i) { assert EventOk(h, st, i); }
    forall v | v in st'.artifacts ensures ArtifactOk(h, st', v) {
      if v != e.wakeId { assert ArtifactOk(h, st, v); }
    }
  }

  // ---------------------------------------------------------------- every section, for every digest function

  lemma RejectCore(h: Digests, st: Store, e: Envelope, points: nat)
    requires CoreInv(h, st)
    ensures CoreKeeps(h, st, RejectAt(h, st, e, points))
  {
    CoreKeepsItself(h, st);
    AppendCore(h, st, ContinuationRejected, e, None);
  }

  lemma PendingCore(h: Digests, st: Store, e: Envelope, payload: Payload, current: bool, points: nat)
    requires CoreInv(h, st)
    ensures CoreKeeps(h, st, Pending(h, st, e, payload, current, points))
  {
    hide CoreInv, CoreAdvances, Append, Has, RejectAt;
    CoreKeepsItself(h, st);
    RejectCore(h, st, e, points);
    if e.wakeId !in st.artifacts && ValidEnvelope(st, e, current) && h.payload(payload) == e.payloadDigest {
      CreateArtifact(h, st, e, None);
      CreateArtifact(h, st, e, Some(payload));
      var st2 := st.(artifacts := st.artifacts[e.wakeId := Artifact(e, Some(payload), None, None)]);
      AppendCore(h, st2, ResumePending, e, None);
      CoreAdvancesTransitive(st, st2, Append(h, st2, ResumePending, e, None));
    }
  }

  lemma AppendMissingCore(h: Digests, st: Store, name: EventName, e: Envelope)
    requires CoreInv(h, st) && !name.ContinuationStarted? && !name.ResumeConsumed?
    requires e.wakeId in st.artifacts && st.artifacts[e.wakeId].envelope == e
    ensures CoreKeeps(h, st, AppendMissing(h, st, name, e)) && AppendMissing(h, st, name, e).artifacts == st.artifacts
  {
    hide Has;
    CoreKeepsItself(h, st);
    AppendCore(h, st, name, e, None);
  }

  lemma ReceiveCore(h: Digests, st: Store, e: Envelope, payload: Payload, current: bool, points: nat)
    requires CoreInv(h, st)
    ensures CoreKeeps(h, st, Receive(h, st, e, payload, current, points))
  {
    hide CoreInv, CoreAdvances, AppendMissing, Has, RejectAt;
    CoreKeepsItself(h, st);
    RejectCore(h, st, e, points);
    if Persisted(h, st, e, Some(payload), current) && points >= 1 {
      AppendMissingCore(h, st, ResumeReceived, e);
      var st1 := AppendMissing(h, st, ResumeReceived, e);
      AppendMissingCore(h, st1, DigestVerified, e);
      CoreAdvancesTransitive(st, st1, AppendMissing(h, st1, DigestVerified, e));
    }
  }

  lemma ClaimCore(h: Digests, st: Store, e: Envelope, current: bool, points: nat)
    requires CoreInv(h, st)
    ensures CoreKeeps(h, st, Claim(h, st, e, current, points))
  {
    hide CoreInv, CoreAdvances, AppendMissing, Has, RejectAt;
    CoreKeepsItself(h, st);
    RejectCore(h, st, e, points);
    if Claimable(h, st, e, current) { AppendMissingCore(h, st, ResumeAccepted, e); }
  }

  lemma AppendReceiptCore(h: Digests, st: Store, name: EventName, e: Envelope, r: Receipt)
    requires CoreInv(h, st) && (name.ContinuationStarted? || name.ResumeConsumed?)
    requires e.wakeId in st.artifacts && st.artifacts[e.wakeId].envelope == e
    requires st.artifacts[e.wakeId].receipt == Some(r)
    ensures var st' := AppendReceipt(h, st, name, e, ReceiptBindingOf(h, e, r));
      CoreKeeps(h, st, st') && st'.artifacts == st.artifacts
  {
    hide Has;
    CoreKeepsItself(h, st);
    AppendCore(h, st, name, e, Some(ReceiptBindingOf(h, e, r)));
  }

  /** The receipt, the two events that name it, and the removal of the marker, killed anywhere. */
  lemma FinalizeCore(h: Digests, st: Store, e: Envelope, r: Receipt, current: bool, points: nat)
    requires CoreInv(h, st)
    requires CapabilityFits(st.capability, e, true) && ValidReceipt(h, r, e, st.capability.value)
    ensures CoreKeeps(h, st, Finalize(h, st, e, r, current, points))
  {
    hide CoreAdvances, CoreInv, ValidReceipt, AppendReceipt, Has, ReceiptConflict;
    CoreKeepsItself(h, st);
    if Finalizable(h, st, e, r, current) && points > 0 {
      var rb, a := ReceiptBindingOf(h, e, r), st.artifacts[e.wakeId].(receipt := Some(r));
      var st1 := st.(artifacts := st.artifacts[e.wakeId := a]);
      ArtifactIntent(h, st, e.wakeId);
      WriteArtifact(h, st, e.wakeId, a);
      AppendReceiptCore(h, st1, ContinuationStarted, e, r);
      var st2 := AppendReceipt(h, st1, ContinuationStarted, e, rb);
      CoreAdvancesTransitive(st, st1, st2);
      AppendReceiptCore(h, st2, ResumeConsumed, e, r);
      var st3 := AppendReceipt(h, st2, ResumeConsumed, e, rb);
      CoreAdvancesTransitive(st, st2, st3);
      AppendKeepsCapability(h, st1, ContinuationStarted, e, rb);
      AppendKeepsCapability(h, st2, ResumeConsumed, e, rb);
      WriteArtifact(h, st3, e.wakeId, a.(marker := None));
      CoreAdvancesTransitive(st, st3, st3.(artifacts := st3.artifacts[e.wakeId := a.(marker := None)]));
    }
  }

  lemma ArtifactIntent(h: Digests, st: Store, w: Id)
    requires CoreInv(h, st) && w in st.artifacts
    ensures st.artifacts[w].marker.Some? ==> st.artifacts[w].marker == Some(IntentOf(h, st.artifacts[w].envelope))
  {
    assert ArtifactOk(h, st, w);
  }

  lemma AppendKeepsCapability(h: Digests, st: Store, name: EventName, e: Envelope, rb: ReceiptBinding)
    ensures AppendReceipt(h, st, name, e, rb).capability == st.capability
  {
  }

  // ---------------------------------------------------------------- the chains, when keys do not collide

  /** Events that do not succeed leave every chain alone. */
  lemma AppendOther(h: Digests, st: Store, name: EventName, e: Envelope)
    requires StoreInv(h, st) && !IsSuccess(name)
    ensures Keeps(h, st, Append(h, st, name, e, None))
  {
    hide CoreInv, CoreAdvances;
    AppendCore(h, st, name, e, None);
    var st' := Append(h, st, name, e, None);
    forall w | w in st.artifacts ensures ChainOk(h, st', w) && Chain(h, st', w) == Chain(h, st, w) {
      assert ChainOk(h, st, w);
      NamedAppend(st.events, st'.events[|st.events|], h.key(KeyOf(st.artifacts[w].envelope)));
    }
  }

  /** So do writes to the artifacts of a wake. */
  lemma WriteKeeps(h: Digests, st: Store, w: Id, a: Artifact)
    requires StoreInv(h, st) && w in st.artifacts && CoreKeeps(h, st, st.(artifacts := st.artifacts[w := a]))
    ensures Keeps(h, st, st.(artifacts := st.artifacts[w := a]))
    ensures forall v :: v in st.artifacts ==> Chain(h, st.(artifacts := st.artifacts[w := a]), v) == Chain(h, st, v)
  {
    hide CoreInv, Named;
    var st' := st.(artifacts := st.artifacts[w := a]);
    forall v | v in st.artifacts ensures ChainOk(h, st', v) && Chain(h, st', v) == Chain(h, st, v) {
      assert ChainOk(h, st, v) && WakeAdvances(st, st', v);
    }
  }

  lemma CreateKeeps(h: Digests, st: Store, e: Envelope, payload: Option<Payload>)
    requires KeyInjective(h) && StoreInv(h, st) && e.wakeId !in st.artifacts && ValidEnvelope(st, e, true)
    requires payload.Some? ==> h.payload(payload.value) == e.payloadDigest
    ensures var st' := st.(artifacts := st.artifacts[e.wakeId := Artifact(e, payload, None, None)]);
      Keeps(h, st, st') && Chain(h, st', e.wakeId) == []
  {
    hide Named;
    var st' := st.(artifacts := st.artifacts[e.wakeId := Artifact(e, payload, None, None)]);
    CreateArtifact(h, st, e, payload);
    NoChainWithoutArtifact(h, st, e);
    forall v | v in st'.artifacts ensures ChainOk(h, st', v) {
      if v != e.wakeId { assert ChainOk(h, st, v) && Chain(h, st', v) == Chain(h, st, v); }
    }
  }

  /** The next success event of a persisted envelope extends its chain by one and no other. */
  lemma AppendSuccess(h: Digests, st: Store, e: Envelope, i: nat, receipt: Option<ReceiptBinding>)
    requires KeyInjective(h) && StoreInv(h, st) && i < |SUCCESS|
    requires e.wakeId in st.artifacts && st.artifacts[e.wakeId].envelope == e
    requires st.artifacts[e.wakeId].payload.Some?
    requires Chain(h, st, e.wakeId) == SUCCESS[..i]
    requires i >= 4 ==> st.artifacts[e.wakeId].receipt.Some?
                        && receipt == Some(ReceiptBindingOf(h, e, st.artifacts[e.wakeId].receipt.value))
    ensures var st' := Append(h, st, SUCCESS[i], e, receipt);
      && Keeps(h, st, st')
      && Chain(h, st', e.wakeId) == SUCCESS[..i + 1]
      && (forall w :: w in st.artifacts && w != e.wakeId ==> Chain(h, st', w) == Chain(h, st, w))
  {
    hide CoreAdvances, Named;
    var st' := Append(h, st, SUCCESS[i], e, receipt);
    var ev := st'.events[|st.events|];
    assert SUCCESS[..i + 1] == SUCCESS[..i] + [SUCCESS[i]];
    AppendCore(h, st, SUCCESS[i], e, receipt);
    forall w | w in st.artifacts
      ensures Chain(h, st', w) == if w == e.wakeId then SUCCESS[..i + 1] else Chain(h, st, w)
    {
      assert ArtifactOk(h, st, w);
      NamedAppend(st.events, ev, h.key(KeyOf(st.artifacts[w].envelope)));
    }
    forall w | w in st.artifacts ensures ChainOk(h, st', w) {
      assert ChainOk(h, st, w);
    }
  }

  lemma RejectKeeps(h: Digests, st: Store, e: Envelope, points: nat)
    requires StoreInv(h, st)
    ensures Keeps(h, st, RejectAt(h, st, e, points))
  {
    hide StoreInv, Advances;
    KeepsItself(h, st);
    AppendOther(h, st, ContinuationRejected, e);
  }

  /** Appending event `i` of the chain, unless it is there, once event `i - 1` is. */
  lemma AppendStep(h: Digests, st: Store, e: Envelope, i: nat, receipt: Option<ReceiptBinding>)
    requires KeyInjective(h) && StoreInv(h, st) && i < |SUCCESS|
    requires e.wakeId in st.artifacts && st.artifacts[e.wakeId].envelope == e && st.artifacts[e.wakeId].payload.Some?
    requires i > 0 ==> SUCCESS[i - 1] in Chain(h, st, e.wakeId)
    requires i >= 4 ==> st.artifacts[e.wakeId].receipt.Some?
                        && receipt == Some(ReceiptBindingOf(h, e, st.artifacts[e.wakeId].receipt.value))
    ensures var st' := if Has(h, st.events, SUCCESS[i], e) then st else Append(h, st, SUCCESS[i], e, receipt);
      && Keeps(h, st, st') && st'.artifacts == st.artifacts && st'.capability == st.capability
      && SUCCESS[i] in Chain(h, st', e.wakeId)
  {
    hide Named, Has, CoreInv, CoreAdvances;
    KeepsItself(h, st);
    HasIffInChain(h, st, e, SUCCESS[i]);
    assert ChainOk(h, st, e.wakeId);
    if !Has(h, st.events, SUCCESS[i], e) {
      PrefixEndsAt(Chain(h, st, e.wakeId), i);
      AppendSuccess(h, st, e, i, receipt);
      assert SUCCESS[..i + 1][i] == SUCCESS[i];
    }
  }

  lemma PersistedFacts(h: Digests, st: Store, e: Envelope, payload: Option<Payload>, current: bool)
    requires KeyInjective(h) && StoreInv(h, st) && Persisted(h, st, e, payload, current)
    ensures ResumePending in Chain(h, st, e.wakeId)
  {
    HasIffInChain(h, st, e, ResumePending);
  }

  lemma PendingKeeps(h: Digests, st: Store, e: Envelope, payload: Payload, current: bool, points: nat)
    requires KeyInjective(h) && StoreInv(h, st)
    ensures Keeps(h, st, Pending(h, st, e, payload, current, points))
  {
    hide StoreInv, Advances, Append, Has, Named, RejectAt;
    KeepsItself(h, st);
    RejectKeeps(h, st, e, points);
    if e.wakeId !in st.artifacts && ValidEnvelope(st, e, current) && h.payload(payload) == e.payloadDigest {
      CreateKeeps(h, st, e, None);
      CreateKeeps(h, st, e, Some(payload));
      var st2 := st.(artifacts := st.artifacts[e.wakeId := Artifact(e, Some(payload), None, None)]);
      AppendSuccess(h, st2, e, 0, None);
      AdvancesTransitive(h, st, st2, Append(h, st2, ResumePending, e, None));
    }
  }

  lemma ReceiveKeeps(h: Digests, st: Store, e: Envelope, payload: Payload, current: bool, points: nat)
    requires KeyInjective(h) && StoreInv(h, st)
    ensures Keeps(h, st, Receive(h, st, e, payload, current, points))
  {
    hide StoreInv, Advances, Append, Has, Named;
    RejectKeeps(h, st, e, points);
    KeepsItself(h, st);
    if Persisted(h, st, e, Some(payload), current) && points >= 1 {
      PersistedFacts(h, st, e, Some(payload), current);
      AppendStep(h, st, e, 1, None);
      var st1 := AppendMissing(h, st, ResumeReceived, e);
      AppendStep(h, st1, e, 2, None);
      AdvancesTransitive(h, st, st1, AppendMissing(h, st1, DigestVerified, e));
    }
  }

  lemma ClaimKeeps(h: Digests, st: Store, e: Envelope, current: bool, points: nat)
    requires KeyInjective(h) && StoreInv(h, st)
    ensures Keeps(h, st, Claim(h, st, e, current, points))
    ensures Claimable(h, st, e, current) && points >= 1 ==>
            ResumeAccepted in Chain(h, Claim(h, st, e, current, points), e.wakeId)
  {
    hide StoreInv, Advances, Append, Has, Named;
    RejectKeeps(h, st, e, points);
    KeepsItself(h, st);
    if Claimable(h, st, e, current) {
      HasIffInChain(h, st, e, ResumeAccepted);
      HasIffInChain(h, st, e, DigestVerified);
      if !Has(h, st.events, ResumeAccepted, e) {
        AppendStep(h, st, e, 3, None);
      }
    }
  }

  /** A committed started or consumed event always names the one receipt on disk. */
  lemma NoReceiptConflict(h: Digests, st: Store, e: Envelope, name: EventName, r: Receipt)
    requires CoreInv(h, st) && (name.ContinuationStarted? || name.ResumeConsumed?)
    requires e.wakeId in st.artifacts && st.artifacts[e.wakeId].envelope == e
    requires st.artifacts[e.wakeId].receipt == Some(r)
    ensures !ReceiptConflict(h, st.events, name, e, ReceiptBindingOf(h, e, r))
  {
    FirstIsHas(h, st.events, name, e);
    var first := First(h, st.events, name, e);
    if first.Some? {
      var i: nat :| i < |st.events| && st.events[i] == first.value && st.events[i].body.name == name
                    && st.events[i].body.bindings == BindingsOf(h, e);
      assert EventOk(h, st, i);
    }
  }

  /** The first write of finalization: the receipt, once. */
  lemma ReceiptWriteKeeps(h: Digests, st: Store, e: Envelope, r: Receipt, current: bool)
    requires StoreInv(h, st) && Finalizable(h, st, e, r, current)
    requires CapabilityFits(st.capability, e, true) && ValidReceipt(h, r, e, st.capability.value)
    ensures var st1 := st.(artifacts := st.artifacts[e.wakeId := st.artifacts[e.wakeId].(receipt := Some(r))]);
      Keeps(h, st, st1) && Chain(h, st1, e.wakeId) == Chain(h, st, e.wakeId)
  {
    assert ArtifactOk(h, st, e.wakeId);
    WriteArtifact(h, st, e.wakeId, st.artifacts[e.wakeId].(receipt := Some(r)));
    WriteKeeps(h, st, e.wakeId, st.artifacts[e.wakeId].(receipt := Some(r)));
  }

  lemma MarkerRemovalKeeps(h: Digests, st: Store, w: Id)
    requires StoreInv(h, st) && w in st.artifacts && st.artifacts[w].receipt.Some?
    ensures var st' := st.(artifacts := st.artifacts[w := st.artifacts[w].(marker := None)]);
      Keeps(h, st, st') && Chain(h, st', w) == Chain(h, st, w)
  {
    assert ArtifactOk(h, st, w);
    WriteArtifact(h, st, w, st.artifacts[w].(marker := None));
    WriteKeeps(h, st, w, st.artifacts[w].(marker := None));
  }

  /** Finalization, killed anywhere, keeps the invariant; completed, it leaves the wake consumed and unmarked. */
  lemma FinalizeKeeps(h: Digests, st: Store, e: Envelope, r: Receipt, current: bool, points: nat)
    requires KeyInjective(h) && StoreInv(h, st)
    requires CapabilityFits(st.capability, e, true) && ValidReceipt(h, r, e, st.capability.value)
    requires e.wakeId in st.artifacts ==> ResumeAccepted in Chain(h, st, e.wakeId)
    ensures Keeps(h, st, Finalize(h, st, e, r, current, points))
    ensures Finalizable(h, st, e, r, current) && points >= 3 ==>
      var st' := Finalize(h, st, e, r, current, points);
      && ResumeConsumed in Chain(h, st', e.wakeId)
      && st'.artifacts[e.wakeId].receipt == Some(r)
      && st'.artifacts[e.wakeId].marker == if points == 3 then st.artifacts[e.wakeId].marker else None
  {
    hide StoreInv, Advances, ValidReceipt, CapabilityFits, Append, Has, ReceiptConflict, Named;
    KeepsItself(h, st);
    if Finalizable(h, st, e, r, current) && points > 0 {
      var rb := ReceiptBindingOf(h, e, r);
      var st1 := st.(artifacts := st.artifacts[e.wakeId := st.artifacts[e.wakeId].(receipt := Some(r))]);
      ReceiptWriteKeeps(h, st, e, r, current);
      StoreHasCore(h, st1);
      NoReceiptConflict(h, st1, e, ContinuationStarted, r);
      AppendStep(h, st1, e, 4, Some(rb));
      var st2 := AppendReceipt(h, st1, ContinuationStarted, e, rb);
      AdvancesTransitive(h, st, st1, st2);
      StoreHasCore(h, st2);
      NoReceiptConflict(h, st2, e, ResumeConsumed, r);
      AppendStep(h, st2, e, 5, Some(rb));
      var st3 := AppendReceipt(h, st2, ResumeConsumed, e, rb);
      AdvancesTransitive(h, st, st2, st3);
      MarkerRemovalKeeps(h, st3, e.wakeId);
      AdvancesTransitive(h, st, st3,
                         st3.(artifacts := st3.artifacts[e.wakeId := st3.artifacts[e.wakeId].(marker := None)]));
    }
  }

  lemma StoreHasCore(h: Digests, st: Store)
    requires StoreInv(h, st)
    ensures CoreInv(h, st)
  {
  }

  // ---------------------------------------------------------------- the decision of consume

  /** `consume` gets as far as its decision. */
  predicate Reads(h: Digests, st: Store, e: Envelope, current: bool, filesPresent: bool) {
    Persisted(h, st, e, None, current) && CapabilityFits(st.capability, e, filesPresent)
  }

  /**
   * When the provider is invoked, on a store of any origin: exactly if the envelope is
   * persisted, the capability fits, no consumed event matches, and neither a receipt nor
   * a marker stands; whether the caller can reconcile makes no difference.
   */
  lemma InvokesIff(h: Digests, st: Store, e: Envelope, hasReconcile: bool, current: bool, filesPresent: bool)
    ensures Decide(h, st, e, hasReconcile, current, filesPresent) == CallProvider(false) <==>
      && Persisted(h, st, e, None, current) && CapabilityFits(st.capability, e, filesPresent)
      && (forall i :: 0 <= i < |st.events| ==>
            !(st.events[i].body.name == ResumeConsumed && st.events[i].body.bindings == BindingsOf(h, e)))
      && st.artifacts[e.wakeId].receipt.None? && st.artifacts[e.wakeId].marker.None?
  {
    hide Persisted, CapabilityFits, ValidReceipt, First;
    PersistedWake(h, st, e, current);
  }

  lemma PersistedWake(h: Digests, st: Store, e: Envelope, current: bool)
    ensures Persisted(h, st, e, None, current) ==> e.wakeId in st.artifacts && st.artifacts[e.wakeId].envelope == e
  {
  }

  /** A consumed event that matches a persisted envelope names the receipt on disk, and that receipt is valid. */
  lemma ConsumedReceipt(h: Digests, st: Store, e: Envelope)
    requires CoreInv(h, st) && e.wakeId in st.artifacts && st.artifacts[e.wakeId].envelope == e
    requires Has(h, st.events, ResumeConsumed, e)
    ensures var first, a := First(h, st.events, ResumeConsumed, e), st.artifacts[e.wakeId];
      && a.receipt.Some? && first.Some?
      && first.value.body.receipt == Some(ReceiptBindingOf(h, e, a.receipt.value))
  {
    FirstIsHas(h, st.events, ResumeConsumed, e);
    var first := First(h, st.events, ResumeConsumed, e);
    var i: nat :| i < |st.events| && st.events[i] == first.value && st.events[i].body.name == ResumeConsumed
                  && st.events[i].body.bindings == BindingsOf(h, e);
    assert EventOk(h, st, i);
  }

  /**
   * Every decision of `consume` on a store as runs leave it: it raises where it cannot
   * read; it returns the receipt of a consumed wake and finishes one that stands
   * unconsumed; under a marker it reconciles if it can and raises otherwise; and only
   * where there is neither does it invoke the provider.
   */
  lemma DecisionIs(h: Digests, st: Store, e: Envelope, hasReconcile: bool, current: bool, filesPresent: bool)
    requires CoreInv(h, st)
    ensures Decide(h, st, e, hasReconcile, current, filesPresent) ==
      if !Reads(h, st, e, current, filesPresent) then Raise
      else
        var a := st.artifacts[e.wakeId];
        if a.receipt.Some? then
          if Has(h, st.events, ResumeConsumed, e) then Return(a.receipt.value) else FinishReceipt(a.receipt.value)
        else if a.marker.None? then CallProvider(false)
        else if hasReconcile then CallProvider(true) else Raise
  {
    hide Persisted, CapabilityFits, ValidReceipt, First, Has;
    PersistedWake(h, st, e, current);
    if Reads(h, st, e, current, filesPresent) {
      assert ArtifactOk(h, st, e.wakeId);
      if Has(h, st.events, ResumeConsumed, e) { ConsumedReceipt(h, st, e); }
    }
  }
}

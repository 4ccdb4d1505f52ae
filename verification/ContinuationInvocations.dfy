/** Concurrent `consume` calls: at most one provider invocation per persisted envelope. */
module ContinuationInvocations {
  import opened Wrappers
  import opened ContinuationStore
  import opened ContinuationRuns

  type Pid = nat

  /** Where a `consume` call stands between its locked sections. */
  datatype Process =
    | Claimed(envelope: Envelope, hasReconcile: bool)
    | Calling(envelope: Envelope, capability: Capability, reconcileOnly: bool, hasReconcile: bool)
    | Returned(envelope: Envelope, capability: Capability, receipt: Receipt)

  /** The store, the `consume` calls under way, and how often each wake's provider has been invoked. */
  datatype World = World(store: Store, processes: map<Pid, Process>, invocations: map<Id, nat>)

  /**
   * One step. `current`, `stillCurrent` and `filesPresent` are the state of files other
   * writers own; `points` is the number of writes before the process is killed; an
   * absent provider result is an exception.
   */
  datatype Step =
    | PendingStep(envelope: Envelope, payload: Payload, current: bool, points: nat)
    | ReceiveStep(envelope: Envelope, payload: Payload, current: bool, points: nat)
    | ClaimStep(envelope: Envelope, current: bool, points: nat)
    | RejectStep(envelope: Envelope, current: bool)
    | FailStep(envelope: Envelope, current: bool)
    | SupersedeStep(envelope: Envelope, current: bool)
    | RegisterStep(capability: Capability)
    | ConsumeClaim(p: Pid, envelope: Envelope, hasReconcile: bool, current: bool, points: nat)
    | ConsumeDecide(p: Pid, current: bool, stillCurrent: bool, filesPresent: bool, points: nat)
    | ProviderCall(p: Pid, result: Option<Receipt>, points: nat)
    | Settle(p: Pid, current: bool, filesPresent: bool, points: nat)
    | Die(p: Pid)

  function Invocations(w: World, wake: Id): nat {
    if wake in w.invocations then w.invocations[wake] else 0
  }

  function Without(m: map<Pid, Process>, p: Pid): map<Pid, Process> {
    m - {p}
  }

  function FailAt(h: Digests, st: Store, name: EventName, e: Envelope, happens: bool): Store {
    if happens then Append(h, st, name, e, None) else st
  }

  /** The first locked section of `consume`. */
  function BeginConsume(h: Digests, w: World, s: Step): World
    requires s.ConsumeClaim?
  {
    var st := Claim(h, w.store, s.envelope, s.current, s.points);
    if Claimable(h, w.store, s.envelope, s.current) && s.points >= 1
    then w.(store := st, processes := w.processes[s.p := Claimed(s.envelope, s.hasReconcile)])
    else w.(store := st)
  }

  /** The second locked section of `consume`: return, finish, or set out to call the provider. */
  function DecideConsume(h: Digests, w: World, s: Step): World
    requires s.ConsumeDecide? && s.p in w.processes && w.processes[s.p].Claimed?
  {
    var q := w.processes[s.p];
    var e := q.envelope;
    match Decide(h, w.store, e, q.hasReconcile, s.current, s.filesPresent)
    case Raise => w.(processes := Without(w.processes, s.p))
    case Return(_) => w.(processes := Without(w.processes, s.p))
    case FinishReceipt(r) =>
      w.(store := Finalize(h, w.store, e, r, s.stillCurrent, s.points), processes := Without(w.processes, s.p))
    case CallProvider(reconcileOnly) =>
      var calling := Calling(e, w.store.capability.value, reconcileOnly, q.hasReconcile);
      if reconcileOnly then w.(processes := w.processes[s.p := calling])
      else if s.points == 0 then w.(processes := Without(w.processes, s.p))
      else w.(store := WriteMarker(h, w.store, e), processes := w.processes[s.p := calling])
  }

  /** The unlocked provider call; its exception is recorded only when there is no reconciliation. */
  function CallProviderStep(h: Digests, w: World, s: Step): World
    requires s.ProviderCall? && s.p in w.processes && w.processes[s.p].Calling?
  {
    var q := w.processes[s.p];
    var wake := q.envelope.wakeId;
    var w1 := if q.reconcileOnly then w else w.(invocations := w.invocations[wake := Invocations(w, wake) + 1]);
    if s.result.Some? then w1.(processes := w.processes[s.p := Returned(q.envelope, q.capability, s.result.value)])
    else w1.(store := FailAt(h, w.store, ContinuationFailed, q.envelope, !q.hasReconcile && s.points >= 1),
             processes := Without(w.processes, s.p))
  }

  /** The last locked section: reject an invalid receipt, finalize a valid one. */
  function SettleConsume(h: Digests, w: World, s: Step): World
    requires s.Settle? && s.p in w.processes && w.processes[s.p].Returned?
  {
    var q := w.processes[s.p];
    var st := if s.filesPresent && ValidReceipt(h, q.receipt, q.envelope, q.capability)
              then Finalize(h, w.store, q.envelope, q.receipt, s.current, s.points)
              else RejectAt(h, w.store, q.envelope, s.points);
    w.(store := st, processes := Without(w.processes, s.p))
  }

  function Next(h: Digests, w: World, s: Step): World {
    var st := w.store;
    match s
    case PendingStep(e, payload, current, points) => w.(store := Pending(h, st, e, payload, current, points))
    case ReceiveStep(e, payload, current, points) => w.(store := Receive(h, st, e, payload, current, points))
    case ClaimStep(e, current, points) => w.(store := Claim(h, st, e, current, points))
    case RejectStep(e, current) =>
      w.(store := FailAt(h, st, ContinuationRejected, e, ValidEnvelope(st, e, current)))
    case FailStep(e, current) =>
      w.(store := FailAt(h, st, ContinuationFailed, e, Persisted(h, st, e, None, current)))
    case SupersedeStep(e, current) =>
      w.(store := FailAt(h, st, ContinuationSuperseded, e, Persisted(h, st, e, None, current)))
    case RegisterStep(c) => w.(store := Register(st, c))
    case ConsumeClaim(p, _, _, _, _) => if p in w.processes then w else BeginConsume(h, w, s)
    case ConsumeDecide(p, _, _, _, _) =>
      if p in w.processes && w.processes[p].Claimed? then DecideConsume(h, w, s) else w
    case ProviderCall(p, _, _) =>
      if p in w.processes && w.processes[p].Calling? then CallProviderStep(h, w, s) else w
    case Settle(p, _, _, _) =>
      if p in w.processes && w.processes[p].Returned? then SettleConsume(h, w, s) else w
    case Die(p) => w.(processes := Without(w.processes, p))
  }

  function Run(h: Digests, w: World, steps: seq<Step>): World
    decreases |steps|
  {
    if steps == [] then w else Run(h, Next(h, w, steps[0]), steps[1..])
  }

  // ---------------------------------------------------------------- what holds for every digest function

  /** The wake's invocation has been set out on: its marker stands, or its receipt does. */
  predicate Spent(st: Store, wake: Id) {
    wake in st.artifacts && (st.artifacts[wake].marker.Some? || st.artifacts[wake].receipt.Some?)
  }

  predicate AboutToInvoke(q: Process) {
    q.Calling? && !q.reconcileOnly
  }

  /** A call under way works on what is persisted, with the capability that is registered. */
  predicate ProcessOk(st: Store, q: Process) {
    var e := q.envelope;
    && e.wakeId in st.artifacts && st.artifacts[e.wakeId].envelope == e && st.artifacts[e.wakeId].payload.Some?
    && (!q.Claimed? ==> st.capability == Some(q.capability) && CapabilityFits(st.capability, e, true))
  }

  ghost predicate InvocationsOk(w: World) {
    && (forall wake :: wake in w.invocations ==>
          w.invocations[wake] <= 1 && (w.invocations[wake] == 1 ==> Spent(w.store, wake)))
    && (forall p :: p in w.processes && AboutToInvoke(w.processes[p]) ==>
          Invocations(w, w.processes[p].envelope.wakeId) == 0 && Spent(w.store, w.processes[p].envelope.wakeId))
    && (forall p, q :: p in w.processes && q in w.processes && p != q ==>
          AboutToInvoke(w.processes[p]) && AboutToInvoke(w.processes[q]) ==>
          w.processes[p].envelope.wakeId != w.processes[q].envelope.wakeId)
  }

  ghost predicate CoreWorldInv(h: Digests, w: World) {
    && CoreInv(h, w.store)
    && (forall p :: p in w.processes ==> ProcessOk(w.store, w.processes[p]))
    && InvocationsOk(w)
  }

  lemma ProcessStays(st: Store, st': Store, q: Process)
    requires CoreAdvances(st, st') && ProcessOk(st, q)
    ensures ProcessOk(st', q)
  {
    assert WakeAdvances(st, st', q.envelope.wakeId);
  }

  lemma SpentStays(st: Store, st': Store, wake: Id)
    requires CoreAdvances(st, st') && Spent(st, wake)
    ensures Spent(st', wake)
  {
    assert WakeAdvances(st, st', wake);
  }

  /** The store changes as proved, processes may leave or move on without setting out to invoke. */
  lemma WorldAdvances(h: Digests, w: World, w': World)
    requires CoreWorldInv(h, w) && CoreKeeps(h, w.store, w'.store) && w'.invocations == w.invocations
    requires forall p :: p in w'.processes ==>
      || (p in w.processes && w'.processes[p] == w.processes[p])
      || (!AboutToInvoke(w'.processes[p]) && ProcessOk(w'.store, w'.processes[p]))
    ensures CoreWorldInv(h, w')
  {
    hide CoreInv, CoreAdvances, CapabilityFits;
    forall p | p in w'.processes ensures ProcessOk(w'.store, w'.processes[p]) {
      if p in w.processes && w'.processes[p] == w.processes[p] {
        ProcessStays(w.store, w'.store, w.processes[p]);
      }
    }
    forall wake | Spent(w.store, wake) ensures Spent(w'.store, wake) {
      SpentStays(w.store, w'.store, wake);
    }
  }

  // ---------------------------------------------------------------- the steps of consume

  lemma OtherCore(h: Digests, st: Store, name: EventName, e: Envelope, happens: bool)
    requires CoreInv(h, st) && !IsSuccess(name)
    ensures CoreKeeps(h, st, FailAt(h, st, name, e, happens))
  {
    CoreKeepsItself(h, st);
    AppendCore(h, st, name, e, None);
  }

  lemma RegisterCore(h: Digests, st: Store, c: Capability)
    requires CoreInv(h, st)
    ensures CoreKeeps(h, st, Register(st, c))
  {
    var st' := Register(st, c);
    forall i: nat | i < |st'.events| ensures EventOk(h, st', i) { assert EventOk(h, st, i); }
    forall v | v in st'.artifacts ensures ArtifactOk(h, st', v) { assert ArtifactOk(h, st, v); }
  }

  lemma MarkerCore(h: Digests, st: Store, e: Envelope)
    requires CoreInv(h, st) && e.wakeId in st.artifacts && st.artifacts[e.wakeId].envelope == e
    ensures CoreKeeps(h, st, WriteMarker(h, st, e)) && Spent(WriteMarker(h, st, e), e.wakeId)
  {
    assert ArtifactOk(h, st, e.wakeId);
    WriteArtifact(h, st, e.wakeId, st.artifacts[e.wakeId].(marker := Some(IntentOf(h, e))));
  }

  lemma BeginCore(h: Digests, w: World, s: Step)
    requires CoreWorldInv(h, w) && s.ConsumeClaim? && s.p !in w.processes
    ensures CoreWorldInv(h, BeginConsume(h, w, s)) && CoreAdvances(w.store, BeginConsume(h, w, s).store)
  {
    hide CoreInv, CoreAdvances, Append, Has, AppendMissing, RejectAt;
    var e, st := s.envelope, Claim(h, w.store, s.envelope, s.current, s.points);
    ClaimCore(h, w.store, e, s.current, s.points);
    if Claimable(h, w.store, e, s.current) && s.points >= 1 {
      ProcessStays(w.store, st, Claimed(e, s.hasReconcile));
    }
    WorldAdvances(h, w, BeginConsume(h, w, s));
  }

  /** A decision to invoke means that nobody has set out on this wake before. */
  lemma InvokeMeansUnspent(h: Digests, st: Store, e: Envelope, hasReconcile: bool, current: bool, filesPresent: bool)
    requires Decide(h, st, e, hasReconcile, current, filesPresent) == CallProvider(false)
    ensures !Spent(st, e.wakeId)
    ensures e.wakeId in st.artifacts && st.artifacts[e.wakeId].envelope == e
    ensures CapabilityFits(st.capability, e, true)
  {
    hide ValidReceipt, Has, First;
  }

  /** The wake just set out on is the process's own; every other process keeps its wake to itself. */
  lemma SetOutInvocations(w: World, w': World, p: Pid, calling: Process)
    requires InvocationsOk(w) && CoreAdvances(w.store, w'.store) && calling.Calling?
    requires !Spent(w.store, calling.envelope.wakeId) && Spent(w'.store, calling.envelope.wakeId)
    requires w'.invocations == w.invocations && w'.processes == w.processes[p := calling]
    ensures InvocationsOk(w')
  {
    hide CoreAdvances, Spent;
    forall wake | Spent(w.store, wake) ensures Spent(w'.store, wake) {
      SpentStays(w.store, w'.store, wake);
    }
  }

  lemma SetOutCore(h: Digests, w: World, s: Step)
    requires CoreWorldInv(h, w)
    requires s.ConsumeDecide? && s.p in w.processes && w.processes[s.p].Claimed? && s.points > 0
    requires var q := w.processes[s.p];
      Decide(h, w.store, q.envelope, q.hasReconcile, s.current, s.filesPresent) == CallProvider(false)
    ensures CoreWorldInv(h, DecideConsume(h, w, s)) && CoreAdvances(w.store, DecideConsume(h, w, s).store)
  {
    hide CoreInv, CoreAdvances, Decide, Spent, InvocationsOk;
    var q, w' := w.processes[s.p], DecideConsume(h, w, s);
    var e := q.envelope;
    InvokeMeansUnspent(h, w.store, e, q.hasReconcile, s.current, s.filesPresent);
    MarkerCore(h, w.store, e);
    SetOutInvocations(w, w', s.p, w'.processes[s.p]);
    forall p | p in w'.processes ensures ProcessOk(w'.store, w'.processes[p]) {
      ProcessStays(w.store, w'.store, w.processes[p]);
    }
  }

  lemma DecideCore(h: Digests, w: World, s: Step)
    requires CoreWorldInv(h, w)
    requires s.ConsumeDecide? && s.p in w.processes && w.processes[s.p].Claimed?
    ensures CoreWorldInv(h, DecideConsume(h, w, s)) && CoreAdvances(w.store, DecideConsume(h, w, s).store)
  {
    hide CoreInv, CoreAdvances, Finalize, Append, Has;
    var q := w.processes[s.p];
    CoreKeepsItself(h, w.store);
    match Decide(h, w.store, q.envelope, q.hasReconcile, s.current, s.filesPresent) {
      case FinishReceipt(r) =>
        FinalizeCore(h, w.store, q.envelope, r, s.stillCurrent, s.points);
        WorldAdvances(h, w, DecideConsume(h, w, s));
      case CallProvider(reconcileOnly) =>
        if !reconcileOnly && s.points > 0 { SetOutCore(h, w, s); }
        else { WorldAdvances(h, w, DecideConsume(h, w, s)); }
      case _ => WorldAdvances(h, w, DecideConsume(h, w, s));
    }
  }

  /** The call itself is where the count moves, from 0 to 1. */
  lemma CallInvocations(h: Digests, w: World, s: Step)
    requires InvocationsOk(w) && s.ProviderCall? && s.p in w.processes && w.processes[s.p].Calling?
    requires CoreAdvances(w.store, CallProviderStep(h, w, s).store)
    ensures InvocationsOk(CallProviderStep(h, w, s))
  {
    hide CoreAdvances, Append, Spent;
    var w' := CallProviderStep(h, w, s);
    forall wake | Spent(w.store, wake) ensures Spent(w'.store, wake) {
      SpentStays(w.store, w'.store, wake);
    }
  }

  lemma CallCore(h: Digests, w: World, s: Step)
    requires CoreWorldInv(h, w)
    requires s.ProviderCall? && s.p in w.processes && w.processes[s.p].Calling?
    ensures CoreWorldInv(h, CallProviderStep(h, w, s)) && CoreAdvances(w.store, CallProviderStep(h, w, s).store)
  {
    hide CoreInv, CoreAdvances, CapabilityFits, Append, InvocationsOk;
    var q, w' := w.processes[s.p], CallProviderStep(h, w, s);
    CoreKeepsItself(h, w.store);
    OtherCore(h, w.store, ContinuationFailed, q.envelope, !q.hasReconcile && s.points >= 1);
    CallInvocations(h, w, s);
    forall p | p in w'.processes ensures ProcessOk(w'.store, w'.processes[p]) {
      ProcessStays(w.store, w'.store, w.processes[p]);
    }
  }

  lemma SettleCore(h: Digests, w: World, s: Step)
    requires CoreWorldInv(h, w)
    requires s.Settle? && s.p in w.processes && w.processes[s.p].Returned?
    ensures CoreWorldInv(h, SettleConsume(h, w, s)) && CoreAdvances(w.store, SettleConsume(h, w, s).store)
  {
    hide CoreInv, CoreAdvances, Finalize, RejectAt, CapabilityFits;
    var q := w.processes[s.p];
    RejectCore(h, w.store, q.envelope, s.points);
    if s.filesPresent && ValidReceipt(h, q.receipt, q.envelope, q.capability) {
      FinalizeCore(h, w.store, q.envelope, q.receipt, s.current, s.points);
    }
    WorldAdvances(h, w, SettleConsume(h, w, s));
  }

  /** The sections that involve no `consume` call. */
  lemma PlainStepCore(h: Digests, w: World, s: Step)
    requires CoreWorldInv(h, w) && !s.ConsumeClaim? && !s.ConsumeDecide? && !s.ProviderCall? && !s.Settle?
    ensures CoreWorldInv(h, Next(h, w, s)) && CoreAdvances(w.store, Next(h, w, s).store)
  {
    hide CoreInv, CoreAdvances, Pending, Receive, Claim, FailAt, Register, ProcessOk, Persisted;
    CoreKeepsItself(h, w.store);
    match s {
      case PendingStep(e, payload, current, points) => PendingCore(h, w.store, e, payload, current, points);
      case ReceiveStep(e, payload, current, points) => ReceiveCore(h, w.store, e, payload, current, points);
      case ClaimStep(e, current, points) => ClaimCore(h, w.store, e, current, points);
      case RejectStep(e, current) =>
        OtherCore(h, w.store, ContinuationRejected, e, ValidEnvelope(w.store, e, current));
      case FailStep(e, current) =>
        OtherCore(h, w.store, ContinuationFailed, e, Persisted(h, w.store, e, None, current));
      case SupersedeStep(e, current) =>
        OtherCore(h, w.store, ContinuationSuperseded, e, Persisted(h, w.store, e, None, current));
      case RegisterStep(c) => RegisterCore(h, w.store, c);
      case _ =>
    }
    WorldAdvances(h, w, Next(h, w, s));
  }

  lemma StepCore(h: Digests, w: World, s: Step)
    requires CoreWorldInv(h, w)
    ensures CoreWorldInv(h, Next(h, w, s)) && CoreAdvances(w.store, Next(h, w, s).store)
  {
    hide CoreWorldInv, CoreAdvances, BeginConsume, DecideConsume, CallProviderStep, SettleConsume, Pending, Receive,
         Claim, FailAt, Register, Persisted;
    ItselfAdvances(w.store);
    match s {
      case ConsumeClaim(p, _, _, _, _) => if p !in w.processes { BeginCore(h, w, s); }
      case ConsumeDecide(p, _, _, _, _) => if p in w.processes && w.processes[p].Claimed? { DecideCore(h, w, s); }
      case ProviderCall(p, _, _) => if p in w.processes && w.processes[p].Calling? { CallCore(h, w, s); }
      case Settle(p, _, _, _) => if p in w.processes && w.processes[p].Returned? { SettleCore(h, w, s); }
      case _ => PlainStepCore(h, w, s);
    }
  }

  lemma ItselfAdvances(st: Store)
    ensures CoreAdvances(st, st)
  {
  }

  lemma {:induction false} RunCore(h: Digests, w: World, steps: seq<Step>)
    requires CoreWorldInv(h, w)
    ensures CoreWorldInv(h, Run(h, w, steps)) && CoreAdvances(w.store, Run(h, w, steps).store)
    decreases |steps|
  {
    hide CoreWorldInv, CoreAdvances, Next;
    ItselfAdvances(w.store);
    if steps != [] {
      var w1 := Next(h, w, steps[0]);
      StepCore(h, w, steps[0]);
      RunCore(h, w1, steps[1..]);
      CoreAdvancesTransitive(w.store, w1.store, Run(h, w, steps).store);
    }
  }

  /** A store that has not been written to. */
  predicate Empty(w: World) {
    w.store.events == [] && w.store.artifacts == map[] && w.processes == map[] && w.invocations == map[]
  }

  /**
   * At-most-once invocation, over every interleaving with every kind of death, whatever
   * the digest function and however its keys collide.
   */
  lemma AtMostOnce(h: Digests, w: World, steps: seq<Step>, wake: Id)
    requires Empty(w)
    ensures Invocations(Run(h, w, steps), wake) <= 1
  {
    RunCore(h, w, steps);
  }

  /** A consumed event is backed by a receipt that the capability authenticates and the event digests. */
  lemma ConsumedMeansProven(h: Digests, w: World, steps: seq<Step>, i: nat)
    requires Empty(w) && i < |Run(h, w, steps).store.events|
    requires Run(h, w, steps).store.events[i].body.name.ResumeConsumed?
    ensures var st := Run(h, w, steps).store;
      var b := st.events[i].body;
      && b.bindings.key.wakeId in st.artifacts
      && var a := st.artifacts[b.bindings.key.wakeId];
      && b.bindings == BindingsOf(h, a.envelope)
      && a.receipt.Some? && st.capability.Some?
      && ValidReceipt(h, a.receipt.value, a.envelope, st.capability.value)
      && b.receipt == Some(ReceiptBindingOf(h, a.envelope, a.receipt.value))
  {
    RunCore(h, w, steps);
    var st := Run(h, w, steps).store;
    assert EventOk(h, st, i);
    assert ArtifactOk(h, st, st.events[i].body.bindings.key.wakeId);
  }

  /**
   * Once consumed, always consumed by the same receipt: whatever runs next, the receipt
   * stays, and a `consume` call that starts returns that receipt if the envelope reads as
   * persisted and the evidence files are present, and raises otherwise, without calling
   * the provider. This too holds for every digest function.
   */
  lemma ConsumedIsFinal(
      h: Digests, w: World, i: nat, steps: seq<Step>, hasReconcile: bool, current: bool, filesPresent: bool)
    requires CoreWorldInv(h, w) && i < |w.store.events| && w.store.events[i].body.name.ResumeConsumed?
    ensures var wake, st := w.store.events[i].body.bindings.key.wakeId, Run(h, w, steps).store;
      && wake in w.store.artifacts && wake in st.artifacts
      && var a := w.store.artifacts[wake];
      && a.receipt.Some? && st.artifacts[wake].receipt == a.receipt
      && Decide(h, st, a.envelope, hasReconcile, current, filesPresent)
         == if Persisted(h, st, a.envelope, None, current) && filesPresent then Return(a.receipt.value) else Raise
  {
    hide Persisted, ValidReceipt, Decide, CoreAdvances;
    RunCore(h, w, steps);
    var wake, st := w.store.events[i].body.bindings.key.wakeId, Run(h, w, steps).store;
    assert EventOk(h, w.store, i);
    assert ArtifactOk(h, w.store, wake);
    ConsumedWake(w.store, st, wake, i);
    var e := w.store.artifacts[wake].envelope;
    assert Has(h, st.events, ResumeConsumed, e);
    DecisionIs(h, st, e, hasReconcile, current, filesPresent);
  }

  lemma ConsumedWake(st: Store, st': Store, wake: Id, i: nat)
    requires CoreAdvances(st, st') && wake in st.artifacts && i < |st.events|
    ensures wake in st'.artifacts && st'.artifacts[wake].envelope == st.artifacts[wake].envelope
    ensures st.artifacts[wake].receipt.Some? ==> st'.artifacts[wake].receipt == st.artifacts[wake].receipt
    ensures i < |st'.events| && st'.events[i] == st.events[i]
    ensures st.capability.Some? ==> st'.capability == st.capability
  {
    assert WakeAdvances(st, st', wake);
  }

  // ---------------------------------------------------------------- the chains, when keys do not collide

  ghost predicate Accepted(h: Digests, st: Store, q: Process) {
    q.envelope.wakeId in st.artifacts && ResumeAccepted in Chain(h, st, q.envelope.wakeId)
  }

  ghost predicate WorldInv(h: Digests, w: World) {
    && CoreWorldInv(h, w) && ChainInv(h, w.store)
    && (forall p :: p in w.processes ==> Accepted(h, w.store, w.processes[p]))
  }

  lemma PrefixMember(s: seq<EventName>, t: seq<EventName>, n: EventName)
    requires s <= t && n in s
    ensures n in t
  {
    var i :| 0 <= i < |s| && s[i] == n;
    assert t[i] == n;
  }

  lemma AcceptedStays(h: Digests, st: Store, st': Store, q: Process)
    requires ChainGrows(h, st, st') && Accepted(h, st, q)
    ensures Accepted(h, st', q)
  {
    PrefixMember(Chain(h, st, q.envelope.wakeId), Chain(h, st', q.envelope.wakeId), ResumeAccepted);
  }

  lemma OtherKeeps(h: Digests, st: Store, name: EventName, e: Envelope, happens: bool)
    requires StoreInv(h, st) && !IsSuccess(name)
    ensures Keeps(h, st, FailAt(h, st, name, e, happens))
  {
    KeepsItself(h, st);
    AppendOther(h, st, name, e);
  }

  /** What every step does to the store, chains included. */
  lemma StepKeepsStore(h: Digests, w: World, s: Step)
    requires KeyInjective(h) && WorldInv(h, w)
    ensures Keeps(h, w.store, Next(h, w, s).store)
  {
    hide StoreInv, Advances, CoreWorldInv, Pending, Receive, Claim, FailAt, Finalize, RejectAt, Persisted, Decide,
         Named, BeginConsume, DecideConsume, SettleConsume, CallProviderStep, Accepted;
    Parts(h, w);
    KeepsItself(h, w.store);
    match s {
      case PendingStep(e, payload, current, points) => PendingKeeps(h, w.store, e, payload, current, points);
      case ReceiveStep(e, payload, current, points) => ReceiveKeeps(h, w.store, e, payload, current, points);
      case ClaimStep(e, current, points) => ClaimKeeps(h, w.store, e, current, points);
      case RejectStep(e, current) =>
        OtherKeeps(h, w.store, ContinuationRejected, e, ValidEnvelope(w.store, e, current));
      case FailStep(e, current) =>
        OtherKeeps(h, w.store, ContinuationFailed, e, Persisted(h, w.store, e, None, current));
      case SupersedeStep(e, current) =>
        OtherKeeps(h, w.store, ContinuationSuperseded, e, Persisted(h, w.store, e, None, current));
      case RegisterStep(c) => RegisterKeeps(h, w.store, c);
      case ConsumeClaim(p, e, _, current, points) =>
        BeginStores(h, w, s);
        ClaimKeeps(h, w.store, e, current, points);
      case ConsumeDecide(p, _, _, _, _) =>
        if p in w.processes && w.processes[p].Claimed? { DecideKeeps(h, w, s); }
      case ProviderCall(p, _, points) =>
        if p in w.processes && w.processes[p].Calling? {
          CallStores(h, w, s);
          var q := w.processes[p];
          OtherKeeps(h, w.store, ContinuationFailed, q.envelope, !q.hasReconcile && points >= 1);
        }
      case Settle(p, _, _, _) => if p in w.processes && w.processes[p].Returned? { SettleKeeps(h, w, s); }
      case Die(_) =>
    }
  }

  lemma Parts(h: Digests, w: World)
    requires WorldInv(h, w)
    ensures StoreInv(h, w.store)
    ensures forall p :: p in w.processes ==> ProcessOk(w.store, w.processes[p]) && Accepted(h, w.store, w.processes[p])
  {
  }

  lemma BeginStores(h: Digests, w: World, s: Step)
    requires s.ConsumeClaim?
    ensures BeginConsume(h, w, s).store == Claim(h, w.store, s.envelope, s.current, s.points)
  {
    hide Claim, Claimable;
  }

  lemma CallStores(h: Digests, w: World, s: Step)
    requires s.ProviderCall? && s.p in w.processes && w.processes[s.p].Calling?
    ensures var q, st' := w.processes[s.p], CallProviderStep(h, w, s).store;
      st' == w.store || st' == FailAt(h, w.store, ContinuationFailed, q.envelope, !q.hasReconcile && s.points >= 1)
  {
  }

  lemma RegisterKeeps(h: Digests, st: Store, c: Capability)
    requires StoreInv(h, st)
    ensures Keeps(h, st, Register(st, c))
  {
    hide CoreInv, Named;
    RegisterCore(h, st, c);
    var st' := Register(st, c);
    forall v | v in st'.artifacts ensures ChainOk(h, st', v) && Chain(h, st', v) == Chain(h, st, v) {
      assert ChainOk(h, st, v);
    }
  }

  lemma MarkerKeeps(h: Digests, st: Store, e: Envelope)
    requires StoreInv(h, st) && e.wakeId in st.artifacts && st.artifacts[e.wakeId].envelope == e
    ensures Keeps(h, st, WriteMarker(h, st, e))
  {
    MarkerCore(h, st, e);
    WriteKeeps(h, st, e.wakeId, st.artifacts[e.wakeId].(marker := Some(IntentOf(h, e))));
  }

  lemma DecideKeeps(h: Digests, w: World, s: Step)
    requires KeyInjective(h) && StoreInv(h, w.store)
    requires s.ConsumeDecide? && s.p in w.processes && w.processes[s.p].Claimed?
    requires ProcessOk(w.store, w.processes[s.p]) && Accepted(h, w.store, w.processes[s.p])
    ensures Keeps(h, w.store, DecideConsume(h, w, s).store)
  {
    hide StoreInv, Advances, Chain, Finalize, Append, Has, ValidReceipt;
    var q := w.processes[s.p];
    KeepsItself(h, w.store);
    match Decide(h, w.store, q.envelope, q.hasReconcile, s.current, s.filesPresent) {
      case FinishReceipt(r) => FinalizeKeeps(h, w.store, q.envelope, r, s.stillCurrent, s.points);
      case CallProvider(_) => MarkerKeeps(h, w.store, q.envelope);
      case _ =>
    }
  }

  lemma SettleKeeps(h: Digests, w: World, s: Step)
    requires KeyInjective(h) && StoreInv(h, w.store)
    requires s.Settle? && s.p in w.processes && w.processes[s.p].Returned?
    requires ProcessOk(w.store, w.processes[s.p]) && Accepted(h, w.store, w.processes[s.p])
    ensures Keeps(h, w.store, SettleConsume(h, w, s).store)
  {
    hide StoreInv, Advances, Chain, Finalize, RejectAt, CapabilityFits;
    var q := w.processes[s.p];
    RejectKeeps(h, w.store, q.envelope, s.points);
    if s.filesPresent && ValidReceipt(h, q.receipt, q.envelope, q.capability) {
      FinalizeKeeps(h, w.store, q.envelope, q.receipt, s.current, s.points);
    }
  }

  /** Only a claim that was acknowledged brings a process into the world. */
  lemma NewProcess(h: Digests, w: World, s: Step, p: Pid)
    requires p in Next(h, w, s).processes
    ensures var q := Next(h, w, s).processes[p];
      || (p in w.processes && w.processes[p].envelope == q.envelope)
      || (s.ConsumeClaim? && q.envelope == s.envelope && s.points >= 1 && Claimable(h, w.store, s.envelope, s.current)
          && Next(h, w, s).store == Claim(h, w.store, s.envelope, s.current, s.points))
  {
    hide Pending, Receive, Claim, Claimable, FailAt, Register, Persisted, Decide, Finalize, RejectAt, ValidReceipt,
         WriteMarker;
  }

  lemma StepKeeps(h: Digests, w: World, s: Step)
    requires KeyInjective(h) && WorldInv(h, w)
    ensures WorldInv(h, Next(h, w, s)) && Advances(h, w.store, Next(h, w, s).store)
  {
    hide CoreWorldInv, CoreInv, ChainInv, CoreAdvances, ChainGrows, Chain, Next, Claim, Claimable, ProcessOk;
    var w' := Next(h, w, s);
    Parts(h, w);
    StepCore(h, w, s);
    StepKeepsStore(h, w, s);
    forall p | p in w'.processes ensures Accepted(h, w'.store, w'.processes[p]) {
      NewProcess(h, w, s, p);
      if p in w.processes && w.processes[p].envelope == w'.processes[p].envelope {
        AcceptedStays(h, w.store, w'.store, w.processes[p]);
      } else {
        ClaimKeeps(h, w.store, s.envelope, s.current, s.points);
        ClaimedWake(h, w.store, s.envelope, s.current, s.points);
      }
    }
  }

  lemma ClaimedWake(h: Digests, st: Store, e: Envelope, current: bool, points: nat)
    requires Claimable(h, st, e, current)
    ensures e.wakeId in Claim(h, st, e, current, points).artifacts
  {
  }

  lemma ItselfAdvancesChains(h: Digests, st: Store)
    ensures Advances(h, st, st)
  {
  }

  lemma {:induction false} RunKeeps(h: Digests, w: World, steps: seq<Step>)
    requires KeyInjective(h) && WorldInv(h, w)
    ensures WorldInv(h, Run(h, w, steps)) && Advances(h, w.store, Run(h, w, steps).store)
    decreases |steps|
  {
    hide WorldInv, Advances, Next;
    ItselfAdvancesChains(h, w.store);
    if steps != [] {
      var w1 := Next(h, w, steps[0]);
      StepKeeps(h, w, steps[0]);
      RunKeeps(h, w1, steps[1..]);
      AdvancesTransitive(h, w.store, w1.store, Run(h, w, steps).store);
    }
  }

  /**
   * The acknowledgement chain of every persisted envelope is a prefix of the success
   * events in order, and every success event of the ledger belongs to such a chain.
   */
  lemma AcknowledgementChain(h: Digests, w: World, steps: seq<Step>, wake: Id)
    requires KeyInjective(h) && Empty(w) && wake in Run(h, w, steps).store.artifacts
    ensures Chain(h, Run(h, w, steps).store, wake) <= SUCCESS
    ensures forall i: nat :: i < |Run(h, w, steps).store.events| ==>
      var st, b := Run(h, w, steps).store, Run(h, w, steps).store.events[i].body;
      IsSuccess(b.name) && b.bindings.idempotencyKey == h.key(KeyOf(st.artifacts[wake].envelope)) ==>
        b.bindings == BindingsOf(h, st.artifacts[wake].envelope)
  {
    RunKeeps(h, w, steps);
    var st := Run(h, w, steps).store;
    assert ChainOk(h, st, wake) && ArtifactOk(h, st, wake);
    forall i: nat | i < |st.events| && IsSuccess(st.events[i].body.name)
                    && st.events[i].body.bindings.idempotencyKey == h.key(KeyOf(st.artifacts[wake].envelope))
      ensures st.events[i].body.bindings == BindingsOf(h, st.artifacts[wake].envelope)
    {
      assert EventOk(h, st, i);
      assert ArtifactOk(h, st, st.events[i].body.bindings.key.wakeId);
    }
  }

  /** The chain of a consumed wake is complete, and no run adds to it. */
  lemma ConsumedChainIsFull(h: Digests, w: World, wake: Id, steps: seq<Step>)
    requires KeyInjective(h) && WorldInv(h, w)
    requires wake in w.store.artifacts && ResumeConsumed in Chain(h, w.store, wake)
    ensures wake in Run(h, w, steps).store.artifacts && Chain(h, Run(h, w, steps).store, wake) == SUCCESS
  {
    hide Advances, Named;
    RunKeeps(h, w, steps);
    ConsumedHasReceipt(h, w.store, wake);
    FinalWake(h, w.store, Run(h, w, steps).store, wake);
  }

  lemma ConsumedHasReceipt(h: Digests, st: Store, wake: Id)
    requires StoreInv(h, st) && wake in st.artifacts && ResumeConsumed in Chain(h, st, wake) && KeyInjective(h)
    ensures st.artifacts[wake].receipt.Some? && st.artifacts[wake].envelope.wakeId == wake
  {
    var key := h.key(KeyOf(st.artifacts[wake].envelope));
    NamedMember(st.events, key, ResumeConsumed);
    var i: nat :| i < |st.events| && st.events[i].body.name == ResumeConsumed
                  && st.events[i].body.bindings.idempotencyKey == key;
    assert EventOk(h, st, i);
    assert ArtifactOk(h, st, wake);
    assert ArtifactOk(h, st, st.events[i].body.bindings.key.wakeId);
  }

  lemma FinalWake(h: Digests, st: Store, st': Store, wake: Id)
    requires StoreInv(h, st') && Advances(h, st, st')
    requires wake in st.artifacts && st.artifacts[wake].receipt.Some? && ResumeConsumed in Chain(h, st, wake)
    ensures wake in st'.artifacts && st'.artifacts[wake].receipt == st.artifacts[wake].receipt
    ensures st'.artifacts[wake].envelope == st.artifacts[wake].envelope
    ensures Chain(h, st', wake) == SUCCESS
  {
    assert WakeAdvances(st, st', wake);
    PrefixMember(Chain(h, st, wake), Chain(h, st', wake), ResumeConsumed);
    assert ChainOk(h, st', wake);
    FullChain(Chain(h, st', wake));
  }

  lemma FullChain(s: seq<EventName>)
    requires s <= SUCCESS && ResumeConsumed in s
    ensures s == SUCCESS
  {
    var k :| 0 <= k < |s| && s[k] == ResumeConsumed;
    assert SUCCESS[k] == ResumeConsumed;
  }

  /**
   * A process that died after the receipt was written is finished by a later
   * `consume` without calling the provider: the decision is to finish, and finishing
   * completes the chain and removes the marker.
   */
  lemma ReceiptFinishesWithoutProvider(h: Digests, st: Store, e: Envelope, hasReconcile: bool)
    requires KeyInjective(h) && StoreInv(h, st) && Persisted(h, st, e, None, true)
    requires st.artifacts[e.wakeId].receipt.Some? && !Has(h, st.events, ResumeConsumed, e)
    requires ResumeAccepted in Chain(h, st, e.wakeId)
    ensures var r := st.artifacts[e.wakeId].receipt.value;
      && Decide(h, st, e, hasReconcile, true, true) == FinishReceipt(r)
      && var st' := Finalize(h, st, e, r, true, 4);
         e.wakeId in st'.artifacts && Chain(h, st', e.wakeId) == SUCCESS && st'.artifacts[e.wakeId].marker.None?
  {
    hide Named, Advances;
    assert ArtifactOk(h, st, e.wakeId);
    var r := st.artifacts[e.wakeId].receipt.value;
    FinalizeKeeps(h, st, e, r, true, 4);
    var st' := Finalize(h, st, e, r, true, 4);
    assert ChainOk(h, st', e.wakeId);
    FullChain(Chain(h, st', e.wakeId));
  }
}

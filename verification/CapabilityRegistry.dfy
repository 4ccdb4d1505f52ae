/**
 * `reconcile_capabilities`: the registry as a cache of the observation ledger. The
 * two transitions of a reconciliation go through the journal; the observations and
 * the registry are written between them, without the lock.
 */
module CapabilityRegistry {
  import opened Wrappers
  import opened ControlTypes
  import opened TransitionContract
  import opened TransitionJournal
  import opened LeaderOperations
  import opened ControlRuns
  import opened ReconcileKeys
  import opened CapabilityEntries

  datatype Registry = Registry(revision: nat, lastSequence: nat, entries: Entries)

  // ---------------------------------------------------------------- processes

  /** Where a `reconcile_capabilities` call stands between its transitions. */
  datatype Job =
    | Started(observations: seq<Observation>, epoch: int)
    | Observing(observations: seq<Observation>, revision: nat, sequence: nat, entries: Entries, epoch: int)
    | Written(revision: nat)

  datatype Root = Root(core: World, observations: seq<Record>, registry: Registry, jobs: map<Pid, Job>)

  /**
   * One step. `StartCall` and `FinishCall` are the two transitions of a call, submitted
   * on the state its process has read; between them it reads the registry, appends its
   * observations and writes the registry. `Abort` is its death.
   */
  datatype Move =
    | Other(step: Step)
    | StartCall(p: Pid, obs: seq<Observation>, z: Stamps, recoverPoints: nat, commitPoints: nat)
    | ReadRegistry(p: Pid)
    | Observe(p: Pid)
    | WriteRegistry(p: Pid)
    | FinishCall(p: Pid, z: Stamps, recoverPoints: nat, commitPoints: nat)
    | Abort(p: Pid)

  /** A step of the control plane that is not one of a reconciliation's own; no other key has their prefix. */
  predicate Foreign(s: Step) {
    s.Call? ==> !s.op.StartReconciliation? && !s.op.FinishReconciliation? && !(KEY_PREFIX <= s.key)
  }

  /** The revision and the epoch a process has read. */
  function ReadRevision(w: World, p: Pid): int {
    if p in w.views then w.views[p].state.body.revision else -1
  }

  function ReadEpoch(w: World, p: Pid): int {
    if p in w.views then w.views[p].state.body.activeLeaderEpoch else 0
  }

  /** The first transition, under the key of the revision that was read. */
  function StartStep(w: World, m: Move): Step
    requires m.StartCall?
  {
    Call(m.p, StartReconciliation(|m.obs|), StartKey(ReadRevision(w, m.p)), m.z, m.recoverPoints, m.commitPoints)
  }

  /** The second transition, under the key of the registry revision that was written. */
  function FinishStep(m: Move, revision: nat): Step
    requires m.FinishCall?
  {
    Call(m.p, FinishReconciliation(revision), FinishKey(revision), m.z, m.recoverPoints, m.commitPoints)
  }

  /** The call goes on after its start: a replayed result is returned like a new one. */
  predicate Proceeds(h: Digests, r: Root, m: Move)
    requires m.StartCall?
  {
    && m.p !in r.jobs
    && var outcome := OutcomeOf(h, r.core, StartStep(r.core, m));
    outcome.Accepted? || outcome.Replayed?
  }

  predicate Known(l: Layer) {
    !l.UnknownLayer?
  }

  predicate AllKnown(batch: seq<Observation>) {
    forall i :: 0 <= i < |batch| ==> Known(batch[i].layer)
  }

  /** Unless it dies, the call will write the registry and complete. */
  predicate CanComplete(job: Job) {
    job.Written? || AllKnown(job.observations)
  }

  /** The call will abort before it records anything more. */
  predicate Inert(job: Job) {
    !job.Written? && job.observations != [] && !Known(job.observations[0].layer)
  }

  /** The call of a process ends without another transition, and with it what the process has read. */
  function Leave(r: Root, p: Pid): Root {
    r.(core := Forget(r.core, p), jobs := r.jobs - {p})
  }

  /** One turn of the loop over observations; an unknown layer aborts the call. */
  function ObserveNext(r: Root, p: Pid): Root
    requires p in r.jobs && r.jobs[p].Observing? && r.jobs[p].observations != []
  {
    var job := r.jobs[p];
    var o := job.observations[0];
    if !Known(o.layer) then Leave(r, p)
    else
      var record := Record(o, job.sequence + 1, job.epoch);
      r.(observations := r.observations + [record],
         jobs := r.jobs[p := job.(observations := job.observations[1..], sequence := job.sequence + 1,
                                  entries := Apply(job.entries, record))])
  }

  function Next(h: Digests, r: Root, m: Move): Root {
    match m
    case Other(s) => if Foreign(s) then r.(core := ControlRuns.Next(h, r.core, s)) else r
    case StartCall(p, obs, _, _, _) =>
      if p in r.jobs then r
      else
        r.(core := ControlRuns.Next(h, r.core, StartStep(r.core, m)),
           jobs := if Proceeds(h, r, m) then r.jobs[p := Started(obs, ReadEpoch(r.core, p))] else r.jobs)
    case ReadRegistry(p) =>
      if p in r.jobs && r.jobs[p].Started?
      then
        var job := r.jobs[p];
        r.(jobs := r.jobs[p := Observing(job.observations, r.registry.revision, r.registry.lastSequence,
                                         r.registry.entries, job.epoch)])
      else r
    case Observe(p) =>
      if p in r.jobs && r.jobs[p].Observing? && r.jobs[p].observations != [] then ObserveNext(r, p) else r
    case WriteRegistry(p) =>
      if p in r.jobs && r.jobs[p].Observing? && r.jobs[p].observations == []
      then
        var job := r.jobs[p];
        r.(registry := Registry(job.revision + 1, job.sequence, job.entries),
           jobs := r.jobs[p := Written(job.revision + 1)])
      else r
    case FinishCall(p, _, _, _) =>
      if p in r.jobs && r.jobs[p].Written?
      then r.(core := ControlRuns.Next(h, r.core, FinishStep(m, r.jobs[p].revision)), jobs := r.jobs - {p})
      else r
    case Abort(p) => Leave(r, p)
  }

  function Run(h: Digests, r: Root, moves: seq<Move>): Root
    decreases |moves|
  {
    if moves == [] then r else Run(h, Next(h, r, moves[0]), moves[1..])
  }

  // ---------------------------------------------------------------- the cache

  /** The state that recovery will leave on disk. */
  function Current(r: Root): StateBody {
    Recovered(r.core.disk).state.body
  }

  predicate Reconciling(r: Root) {
    Current(r).status == ReconcilingCapabilities
  }

  /** Every observation of the ledger has made it into the registry. */
  predicate Registered(r: Root) {
    r.registry.lastSequence == |r.observations|
  }

  /** The registry holds exactly what the ledger says, at the revision the state records. */
  ghost predicate CacheExact(r: Root) {
    && r.registry.entries == Fold(r.observations)
    && Registered(r)
    && r.registry.revision == Current(r).registryRevision
  }

  /** What the registry is for: whenever the installation is not reconciling, it is an exact cache. */
  ghost predicate CacheValid(r: Root) {
    !Reconciling(r) ==> CacheExact(r)
  }

  /** No call at work will record anything more. */
  predicate Idle(r: Root) {
    forall p :: p in r.jobs ==> Inert(r.jobs[p])
  }

  /** No call at work will complete. */
  predicate Doomed(r: Root) {
    forall p :: p in r.jobs ==> !CanComplete(r.jobs[p])
  }

  /**
   * The condition to check before a call starts: the revision it has read is still
   * current; or it will record nothing; or a reconciliation is open, and then, if the
   * batch is known, nobody else is at work on it and every observation is registered,
   * and if it is not, nobody else is about to complete it.
   */
  predicate StartOk(r: Root, m: Move)
    requires m.StartCall?
  {
    || ReadRevision(r.core, m.p) == Current(r).revision
    || (m.obs != [] && !Known(m.obs[0].layer))
    || (Reconciling(r) && if AllKnown(m.obs) then Idle(r) && Registered(r) else Doomed(r))
  }

  /** Every call of the run that goes on after its start was right to start. */
  predicate StartsOk(h: Digests, r: Root, moves: seq<Move>)
    decreases |moves|
  {
    moves == [] ||
    (&& (moves[0].StartCall? && Proceeds(h, r, moves[0]) ==> StartOk(r, moves[0]))
     && StartsOk(h, Next(h, r, moves[0]), moves[1..]))
  }

  // ---------------------------------------------------------------- keys and starts on record

  /** Message `i` is the start of a reconciliation of `count` observations, made from revision `i`. */
  ghost predicate StartRecorded(h: Digests, g: State, d: Disk, i: int, count: nat) {
    && 0 <= i < |d.messages| == |d.events|
    && d.messages[i].body.idempotencyKey == StartKey(i)
    && var q := Prepare(StartReconciliation(count), View(StateAt(h, g, d.events, i), None, None), StartKey(i));
    && q.Some? && MessageContent(d.messages[i].body) == ContentOf(q.value)
  }

  /** A start key is on record only for the start made from its revision. */
  ghost predicate KeyLawAt(h: Digests, g: State, d: Disk, i: nat)
    requires i < |d.messages|
  {
    forall v :: d.messages[i].body.idempotencyKey == StartKey(v) ==>
      v == i && exists count: nat :: StartRecorded(h, g, d, i, count)
  }

  ghost predicate KeyLaw(h: Digests, g: State, d: Disk) {
    forall i: nat :: i < |d.messages| ==> KeyLawAt(h, g, d, i)
  }

  /** No completion on record is for a later registry revision than `revision`. */
  ghost predicate FinishedUpTo(ms: seq<Message>, revision: int) {
    forall i, k :: 0 <= i < |ms| && ms[i].body.idempotencyKey == FinishKey(k) ==> k <= revision
  }

  // ---------------------------------------------------------------- invariant

  /** What the one call that is about to complete relies on. */
  ghost predicate JobExact(r: Root, job: Job) {
    match job
    case Started(_, _) => Registered(r)
    case Observing(_, revision, sequence, entries, _) =>
      && entries == Fold(r.observations) && sequence == |r.observations| && Numbered(r.observations)
      && revision == r.registry.revision
    case Written(revision) =>
      Registered(r) && revision == r.registry.revision > Current(r).registryRevision
  }

  ghost predicate RegistryInv(r: Root) {
    && (!Reconciling(r) ==> Idle(r) && CacheExact(r))
    && r.registry.lastSequence <= |r.observations|
    && (Registered(r) ==> r.registry.entries == Fold(r.observations) && Numbered(r.observations))
    && r.registry.revision >= Current(r).registryRevision
    && FinishedUpTo(Recovered(r.core.disk).messages, Current(r).registryRevision)
    && (forall p :: p in r.jobs && CanComplete(r.jobs[p]) ==> JobExact(r, r.jobs[p]))
    && (forall p, q :: p in r.jobs && q in r.jobs && p != q && CanComplete(r.jobs[p]) ==> Inert(r.jobs[q]))
  }

  ghost predicate RootInv(h: Digests, g: State, r: Root) {
    WorldInv(h, g, r.core) && KeyLaw(h, g, Recovered(r.core.disk)) && RegistryInv(r)
  }

  // ---------------------------------------------------------------- what a commit does to the keys on record

  /** The requests of a reconciliation depend on the state that was read and on nothing else. */
  lemma ReconcileRequests(v: View, key: string, count: nat, revision: int)
    ensures var q := Prepare(StartReconciliation(count), v, key);
      && q == Prepare(StartReconciliation(count), View(v.state, None, None), key)
      && (q.Some? <==> (v.state.body.status == Active || v.state.body.status == Degraded) && count > 0)
      && (q.Some? ==>
            && q.value.targetStatus == ReconcilingCapabilities && q.value.idempotencyKey == key
            && q.value.expectedRevision == v.state.body.revision
            && q.value.payload.registryRevision == Some(v.state.body.registryRevision))
    ensures var q := Prepare(FinishReconciliation(revision), v, key);
      && q.Some? && q.value.targetStatus == Active && q.value.idempotencyKey == key
      && q.value.payload.registryRevision == Some(revision)
      && q.value.expectedRevision == v.state.body.revision && q.value.epoch == v.state.body.activeLeaderEpoch
      && q.value.messageKind == ResultReconcile
  {
  }

  /** Only a reconciliation's own calls enter or leave the reconciling status or touch the revision. */
  lemma ForeignOperations(op: Operation, v: View, key: string)
    requires Prepare(op, v, key).Some? && !op.StartReconciliation? && !op.FinishReconciliation?
    ensures var q := Prepare(op, v, key).value;
      && q.targetStatus != ReconcilingCapabilities
      && q.payload.registryRevision.None?
      && (!op.Initialize? ==> v.state.body.status != ReconcilingCapabilities)
      && (op.Initialize? ==> q.targetStatus == Bootstrapping)
  {
    hide TailMatches, HasLeader;
  }

  lemma KeyLawExtends(h: Digests, g: State, d: Disk, d': Disk)
    requires KeyLaw(h, g, d) && |d.messages| == |d.events| && |d'.messages| == |d'.events| == |d.messages| + 1
    requires d.messages <= d'.messages && d.events <= d'.events && KeyLawAt(h, g, d', |d.messages|)
    ensures KeyLaw(h, g, d')
  {
    hide Prepare;
    forall i: nat | i < |d'.messages| ensures KeyLawAt(h, g, d', i) {
      if i < |d.messages| {
        assert KeyLawAt(h, g, d, i);
        forall count: nat | StartRecorded(h, g, d, i, count) ensures StartRecorded(h, g, d', i, count) {}
      }
    }
  }

  /** The recovered ledgers have one message and one event per revision. */
  lemma LedgerLengths(h: Digests, g: State, w: World)
    requires WorldInv(h, g, w)
    ensures var d := Recovered(w.disk);
      |d.messages| == |d.events| == d.state.body.revision && d.state == StateAt(h, g, d.events, |d.events|)
  {
    hide CommitUpTo, HistoryGood, LinkedAt, DiskInv;
    InvRecovers(h, g, w.disk);
    RevisionAt(h, g, Recovered(w.disk), |Recovered(w.disk).events|);
  }

  lemma CommitKeepsKeys(h: Digests, g: State, w: World, s: Step)
    requires WorldInv(h, g, w) && KeyLaw(h, g, Recovered(w.disk)) && s.Call? && Committed(h, w, s)
    requires s.op.StartReconciliation? ==> s.key == StartKey(ReadRevision(w, s.p))
    requires !s.op.StartReconciliation? ==> forall v :: s.key != StartKey(v)
    ensures KeyLaw(h, g, Recovered(ControlRuns.Next(h, w, s).disk))
  {
    hide WorldInv, CommitUpTo, Extended, ControlRuns.Next, Refusal, FindMessage, KeyLaw, Prepare;
    var d, q := Recovered(w.disk), RequestOf(w, s).value;
    var d', n := Extended(h, d, q, s.z), |d.messages|;
    LedgerLengths(h, g, w);
    ExtendedFacts(h, d, q, s.z);
    RequestKey(s.op, w.views[s.p], s.key);
    if s.op.StartReconciliation? {
      ReconcileRequests(w.views[s.p], s.key, s.op.observationCount, 0);
      assert StartRecorded(h, g, d', n, s.op.observationCount);
      forall v | d'.messages[n].body.idempotencyKey == StartKey(v) ensures v == n { StartKeyInjective(v, n); }
    }
    assert KeyLawAt(h, g, d', n);
    KeyLawExtends(h, g, d, d');
  }

  lemma FinishesExtend(ms: seq<Message>, ms': seq<Message>, revision: int, revision': int)
    requires FinishedUpTo(ms, revision) && revision <= revision'
    requires ms <= ms' && |ms'| == |ms| + 1
    requires forall k :: ms'[|ms|].body.idempotencyKey == FinishKey(k) ==> k <= revision'
    ensures FinishedUpTo(ms', revision')
  {
    hide FinishKey;
  }

  // ---------------------------------------------------------------- every move keeps the invariant

  /** The invariant sees the control plane only through the disk that recovery stands for. */
  lemma SameDiskKeeps(h: Digests, g: State, r: Root, core: World)
    requires RootInv(h, g, r) && WorldInv(h, g, core) && Recovered(core.disk) == Recovered(r.core.disk)
    ensures RootInv(h, g, r.(core := core))
  {
    hide WorldInv, KeyLaw, Fold, FinishedUpTo, CommitUpTo;
    var r' := r.(core := core);
    forall p | p in r'.jobs && CanComplete(r'.jobs[p])
      ensures JobExact(r', r'.jobs[p])
    {
      assert JobExact(r, r.jobs[p]);
    }
  }

  lemma ForeignMove(h: Digests, g: State, r: Root, s: Step)
    requires RootInv(h, g, r) && Foreign(s)
    ensures RootInv(h, g, r.(core := ControlRuns.Next(h, r.core, s)))
  {
    hide WorldInv, KeyLaw, Fold, FinishedUpTo, CommitUpTo, ControlRuns.Next, FindMessage, Prepare, Extended,
         RegistryInv;
    StepKeepsInv(h, g, r.core, s);
    if s.Call? {
      CallEffect(h, g, r.core, s);
      if Committed(h, r.core, s) {
        ForeignCommit(h, g, r, s);
      } else {
        SameDiskKeeps(h, g, r, ControlRuns.Next(h, r.core, s));
      }
    } else {
      QuietStep(h, g, r.core, s);
      SameDiskKeeps(h, g, r, ControlRuns.Next(h, r.core, s));
    }
  }

  lemma QuietStep(h: Digests, g: State, w: World, s: Step)
    requires WorldInv(h, g, w) && !s.Call?
    ensures Recovered(ControlRuns.Next(h, w, s).disk) == Recovered(w.disk)
  {
    hide CommitUpTo, ViewInv, DiskInv, CommitAccepts;
    if s.Recover? && w.disk.journal.Some? { CommitKeepsInv(h, g, w.disk, s.points); }
  }

  lemma ForeignCommit(h: Digests, g: State, r: Root, s: Step)
    requires RootInv(h, g, r) && s.Call? && Foreign(s) && Committed(h, r.core, s)
    requires WorldInv(h, g, ControlRuns.Next(h, r.core, s))
    ensures RootInv(h, g, r.(core := ControlRuns.Next(h, r.core, s)))
  {
    hide WorldInv, KeyLaw, Fold, FinishedUpTo, CommitUpTo, ControlRuns.Next, FindMessage, Prepare, Extended;
    var d, q := Recovered(r.core.disk), RequestOf(r.core, s).value;
    var d' := Extended(h, d, q, s.z);
    ForeignOperations(s.op, r.core.views[s.p], s.key);
    RequestKey(s.op, r.core.views[s.p], s.key);
    forall v ensures s.key != StartKey(v) && s.key != FinishKey(v) { KeysApart(v, v); }
    ExtendedFacts(h, d, q, s.z);
    CommitKeepsKeys(h, g, r.core, s);
    FinishesExtend(d.messages, d'.messages, d.state.body.registryRevision, d.state.body.registryRevision);
  }

  /** A start key that is still to come is not on record. */
  lemma CurrentStartIsNew(h: Digests, g: State, w: World)
    requires WorldInv(h, g, w) && KeyLaw(h, g, Recovered(w.disk))
    ensures FindMessage(Recovered(w.disk).messages, StartKey(Recovered(w.disk).state.body.revision)).None?
  {
    hide WorldInv, CommitUpTo, StartRecorded;
    var d := Recovered(w.disk);
    LedgerLengths(h, g, w);
    FindMessageSpec(d.messages, StartKey(d.state.body.revision));
    forall i | 0 <= i < |d.messages| ensures d.messages[i].body.idempotencyKey != StartKey(d.state.body.revision) {
      assert KeyLawAt(h, g, d, i);
    }
  }

  lemma StartMove(h: Digests, g: State, r: Root, m: Move)
    requires RootInv(h, g, r) && m.StartCall? && m.p !in r.jobs && (Proceeds(h, r, m) ==> StartOk(r, m))
    ensures RootInv(h, g, Next(h, r, m))
  {
    hide WorldInv, KeyLaw, Fold, FinishedUpTo, CommitUpTo, ControlRuns.Next, FindMessage, Prepare, Extended, OutcomeOf,
         RegistryInv;
    var s := StartStep(r.core, m);
    StepKeepsInv(h, g, r.core, s);
    CallEffect(h, g, r.core, s);
    if Committed(h, r.core, s) {
      StartCommit(h, g, r, m);
    } else {
      SameDiskKeeps(h, g, r, ControlRuns.Next(h, r.core, s));
      if Proceeds(h, r, m) {
        RequestKey(s.op, r.core.views[m.p], s.key);
        CurrentStartIsNew(h, g, r.core);
        ReconcileRequests(r.core.views[m.p], s.key, |m.obs|, 0);
        Joins(h, g, r.(core := ControlRuns.Next(h, r.core, s)), m);
      }
    }
  }

  lemma Joins(h: Digests, g: State, r: Root, m: Move)
    requires RootInv(h, g, r) && m.StartCall? && m.p !in r.jobs && m.obs != []
    requires || !Known(m.obs[0].layer)
             || (Reconciling(r) && if AllKnown(m.obs) then Idle(r) && Registered(r) else Doomed(r))
    ensures forall epoch :: RootInv(h, g, r.(jobs := r.jobs[m.p := Started(m.obs, epoch)]))
  {
    hide WorldInv, KeyLaw, Fold, FinishedUpTo, CommitUpTo;
    forall epoch ensures RootInv(h, g, r.(jobs := r.jobs[m.p := Started(m.obs, epoch)])) {
      var r' := r.(jobs := r.jobs[m.p := Started(m.obs, epoch)]);
      forall p | p in r'.jobs && CanComplete(r'.jobs[p]) ensures JobExact(r', r'.jobs[p]) {
        if p != m.p { assert JobExact(r, r.jobs[p]); }
      }
    }
  }

  lemma StartCommit(h: Digests, g: State, r: Root, m: Move)
    requires RootInv(h, g, r) && m.StartCall? && m.p !in r.jobs && Committed(h, r.core, StartStep(r.core, m))
    requires WorldInv(h, g, ControlRuns.Next(h, r.core, StartStep(r.core, m)))
    ensures RootInv(h, g, Next(h, r, m)) && Reconciling(Next(h, r, m))
  {
    hide WorldInv, KeyLaw, Fold, FinishedUpTo, CommitUpTo, ControlRuns.Next, FindMessage, Prepare, Extended, OutcomeOf,
         Refusal;
    var s := StartStep(r.core, m);
    var d, q := Recovered(r.core.disk), RequestOf(r.core, s).value;
    var d' := Extended(h, d, q, s.z);
    ReconcileRequests(r.core.views[m.p], s.key, |m.obs|, 0);
    ExtendedFacts(h, d, q, s.z);
    CommitKeepsKeys(h, g, r.core, s);
    forall k ensures s.key != FinishKey(k) { KeysApart(ReadRevision(r.core, m.p), k); }
    FinishesExtend(d.messages, d'.messages, d.state.body.registryRevision, d.state.body.registryRevision);
  }

  lemma JobEnds(h: Digests, g: State, r: Root, p: Pid)
    requires RootInv(h, g, r)
    ensures RootInv(h, g, r.(jobs := r.jobs - {p}))
  {
    hide WorldInv, KeyLaw, Fold, FinishedUpTo, CommitUpTo, AllKnown;
    var r' := r.(jobs := r.jobs - {p});
    forall q | q in r'.jobs && CanComplete(r'.jobs[q])
      ensures JobExact(r', r'.jobs[q])
    {
      assert JobExact(r, r.jobs[q]);
    }
  }

  lemma ForgetKeeps(h: Digests, g: State, w: World, p: Pid)
    requires WorldInv(h, g, w)
    ensures WorldInv(h, g, Forget(w, p))
  {
    hide DiskInv, ViewInv, CommitUpTo;
  }

  lemma LeaveMove(h: Digests, g: State, r: Root, p: Pid)
    requires RootInv(h, g, r)
    ensures RootInv(h, g, Leave(r, p))
  {
    hide RootInv, CommitUpTo;
    JobEnds(h, g, r, p);
    RootCore(h, g, r);
    ForgetKeeps(h, g, r.core, p);
    SameDiskKeeps(h, g, r.(jobs := r.jobs - {p}), Forget(r.core, p));
  }

  lemma RootCore(h: Digests, g: State, r: Root)
    requires RootInv(h, g, r)
    ensures WorldInv(h, g, r.core) && KeyLaw(h, g, Recovered(r.core.disk))
  {
  }

  lemma FinishMove(h: Digests, g: State, r: Root, m: Move)
    requires RootInv(h, g, r) && m.FinishCall? && m.p in r.jobs && r.jobs[m.p].Written?
    ensures RootInv(h, g, Next(h, r, m))
  {
    hide WorldInv, KeyLaw, Fold, FinishedUpTo, CommitUpTo, ControlRuns.Next, FindMessage, Prepare, Extended, OutcomeOf,
         Refusal;
    var revision := r.jobs[m.p].revision;
    var s := FinishStep(m, revision);
    StepKeepsInv(h, g, r.core, s);
    CallEffect(h, g, r.core, s);
    assert JobExact(r, r.jobs[m.p]);
    if !Committed(h, r.core, s) {
      SameDiskKeeps(h, g, r, ControlRuns.Next(h, r.core, s));
      JobEnds(h, g, r.(core := ControlRuns.Next(h, r.core, s)), m.p);
    } else {
      var d, q := Recovered(r.core.disk), RequestOf(r.core, s).value;
      var d' := Extended(h, d, q, s.z);
      ReconcileRequests(r.core.views[m.p], s.key, 0, revision);
      ExtendedFacts(h, d, q, s.z);
      forall v ensures s.key != StartKey(v) { KeysApart(v, revision); }
      CommitKeepsKeys(h, g, r.core, s);
      forall k | s.key == FinishKey(k) ensures k <= revision { FinishKeyInjective(k, revision); }
      FinishesExtend(d.messages, d'.messages, d.state.body.registryRevision, revision);
    }
  }

  lemma KnownRest(batch: seq<Observation>)
    requires batch != [] && Known(batch[0].layer)
    ensures AllKnown(batch) <==> AllKnown(batch[1..])
  {
    assert forall i :: 1 <= i < |batch| ==> batch[i] == batch[1..][i - 1];
  }

  lemma ObserveMove(h: Digests, g: State, r: Root, p: Pid)
    requires RootInv(h, g, r) && p in r.jobs && r.jobs[p].Observing? && r.jobs[p].observations != []
    ensures RootInv(h, g, ObserveNext(r, p))
  {
    hide WorldInv, KeyLaw, Apply, FinishedUpTo, CommitUpTo, AllKnown;
    var r', batch := ObserveNext(r, p), r.jobs[p].observations;
    if Known(batch[0].layer) {
      assert !Inert(r.jobs[p]);
      KnownRest(batch);
      assert r'.observations[..|r'.observations| - 1] == r.observations;
      if CanComplete(r.jobs[p]) { assert JobExact(r, r.jobs[p]); }
    } else {
      LeaveMove(h, g, r, p);
    }
  }

  lemma WriteMove(h: Digests, g: State, r: Root, p: Pid)
    requires RootInv(h, g, r) && p in r.jobs && r.jobs[p].Observing? && r.jobs[p].observations == []
    ensures RootInv(h, g, Next(h, r, WriteRegistry(p)))
  {
    hide WorldInv, KeyLaw, Fold, FinishedUpTo, CommitUpTo;
    assert JobExact(r, r.jobs[p]);
  }

  lemma ReadMove(h: Digests, g: State, r: Root, p: Pid)
    requires RootInv(h, g, r) && p in r.jobs && r.jobs[p].Started?
    ensures RootInv(h, g, Next(h, r, ReadRegistry(p)))
  {
    hide WorldInv, KeyLaw, Fold, FinishedUpTo, CommitUpTo, AllKnown, ControlRuns.Next, ObserveNext, OutcomeOf, Apply;
    var r' := Next(h, r, ReadRegistry(p));
    forall q | q in r'.jobs && CanComplete(r'.jobs[q])
      ensures JobExact(r', r'.jobs[q])
    {
      assert JobExact(r, r.jobs[q]);
    }
  }

  /** No move breaks the invariant, as long as a call that goes on was right to start. */
  lemma MoveKeeps(h: Digests, g: State, r: Root, m: Move)
    requires RootInv(h, g, r) && (m.StartCall? && Proceeds(h, r, m) ==> StartOk(r, m))
    ensures RootInv(h, g, Next(h, r, m))
  {
    hide RootInv, CommitUpTo, ControlRuns.Next, OutcomeOf, ObserveNext, Proceeds;
    match m {
      case Other(s) => if Foreign(s) { ForeignMove(h, g, r, s); }
      case StartCall(p, _, _, _, _) => if p !in r.jobs { StartMove(h, g, r, m); }
      case Observe(p) =>
        if p in r.jobs && r.jobs[p].Observing? && r.jobs[p].observations != [] { ObserveMove(h, g, r, p); }
      case WriteRegistry(p) =>
        if p in r.jobs && r.jobs[p].Observing? && r.jobs[p].observations == [] { WriteMove(h, g, r, p); }
      case ReadRegistry(p) => if p in r.jobs && r.jobs[p].Started? { ReadMove(h, g, r, p); }
      case Abort(p) => LeaveMove(h, g, r, p);
      case FinishCall(p, _, _, _) => if p in r.jobs && r.jobs[p].Written? { FinishMove(h, g, r, m); }
    }
  }

  /**
   * The registry is a cache of its ledger: over every run whose calls were right to
   * start, and wherever calls die or an unknown layer aborts a batch, whenever the
   * installation is not reconciling the entries are the fold of the ledger, so that each
   * shows the last record of every layer, the records are numbered without a gap, the
   * last sequence is their number and the revision is the state's.
   */
  lemma {:induction false} RegistryIsCache(h: Digests, g: State, r: Root, moves: seq<Move>)
    requires RootInv(h, g, r) && StartsOk(h, r, moves)
    ensures RootInv(h, g, Run(h, r, moves)) && CacheValid(Run(h, r, moves))
    ensures var r' := Run(h, r, moves);
      !Reconciling(r') ==> Latest(r'.observations, r'.registry.entries) && Numbered(r'.observations)
    decreases |moves|
  {
    hide Next, WorldInv, Proceeds, StartOk, KeyLaw, JobExact, FinishedUpTo, CommitUpTo, Fold, Latest, Numbered;
    if moves == [] {
      FoldIsLatest(r.observations);
    } else {
      MoveKeeps(h, g, r, moves[0]);
      RegistryIsCache(h, g, Next(h, r, moves[0]), moves[1..]);
    }
  }

  /** The registry `init` writes. */
  lemma InitialRegistryExact(h: Digests, g: State, w: World)
    requires Initial(h, g, w)
    ensures RootInv(h, g, Root(w, [], Registry(0, 0, map[]), map[]))
  {
    InitialInv(h, g, w);
  }

  // ---------------------------------------------------------------- a batch, start to end

  /** The records a batch appends: those before its first unknown layer. */
  function Records(batch: seq<Observation>, sequence: int, epoch: int): seq<Record>
    decreases |batch|
  {
    if batch == [] || !Known(batch[0].layer) then []
    else [Record(batch[0], sequence + 1, epoch)] + Records(batch[1..], sequence + 1, epoch)
  }

  lemma {:induction false} RecordsSplit(b: seq<Observation>, c: seq<Observation>, sequence: int, epoch: int)
    requires AllKnown(b)
    ensures |Records(b, sequence, epoch)| == |b|
    ensures Records(b + c, sequence, epoch) == Records(b, sequence, epoch) + Records(c, sequence + |b|, epoch)
    decreases |b|
  {
    if b == [] {
      assert b + c == c;
    } else {
      RecordsSplit(b[1..], c, sequence + 1, epoch);
      assert (b + c)[1..] == b[1..] + c;
    }
  }

  /** A batch goes on where the ledger stops. */
  lemma RecordsNumbered(rs: seq<Record>, batch: seq<Observation>, epoch: int)
    requires Numbered(rs)
    ensures Numbered(rs + Records(batch, |rs|, epoch))
  {
    RecordsAt(batch, |rs|, epoch);
  }

  /** The records of a batch are its observations up to the first unknown layer, numbered and in the epoch read. */
  lemma {:induction false} RecordsAt(batch: seq<Observation>, sequence: int, epoch: int)
    ensures var rs := Records(batch, sequence, epoch);
      && |rs| <= |batch| && (|rs| < |batch| ==> !Known(batch[|rs|].layer))
      && forall i :: 0 <= i < |rs| ==>
           Known(batch[i].layer) && rs[i] == Record(batch[i], sequence + i + 1, epoch)
    decreases |batch|
  {
    if batch != [] && Known(batch[0].layer) {
      RecordsAt(batch[1..], sequence + 1, epoch);
    }
  }

  lemma {:induction false} ApplyAllSplit(entries: Entries, a: seq<Record>, b: seq<Record>)
    ensures ApplyAll(entries, a + b) == ApplyAll(ApplyAll(entries, a), b)
    decreases |b|
  {
    if b == [] {
      assert a + b == a;
    } else {
      assert (a + b)[..|a + b| - 1] == a + b[..|b| - 1];
      ApplyAllSplit(entries, a, b[..|b| - 1]);
    }
  }

  /** The observation ledger and the registry, as the middle of `reconcile_capabilities` writes them. */
  class RegistryFiles {
    var observations: seq<Record>
    var registry: Registry

    constructor ()
      ensures observations == [] && registry == Registry(0, 0, map[])
    {
      observations, registry := [], Registry(0, 0, map[]);
    }

    /** The entries and the last sequence are those of the ledger. */
    predicate Exact()
      reads this
    {
      && registry.entries == Fold(observations) && registry.lastSequence == |observations|
      && Numbered(observations)
    }

    /**
     * The loop over the batch and the registry write. An unknown layer leaves the
     * records before it in the ledger and the registry as it was.
     */
    method Reconcile(batch: seq<Observation>, epoch: int) returns (ok: bool)
      modifies this
      ensures ok <==> AllKnown(batch)
      ensures observations == old(observations) + Records(batch, old(registry.lastSequence), epoch)
      ensures ok ==> registry.revision == old(registry.revision) + 1
      ensures ok ==> registry.lastSequence == old(registry.lastSequence) + |batch|
      ensures old(Exact()) && ok ==> Exact() && Latest(observations, registry.entries)
      ensures !ok ==> registry == old(registry)
    {
      hide Apply, ApplyAll, Records, AllKnown, Numbered, Latest;
      var sequence, entries := registry.lastSequence, registry.entries;
      ghost var first, before := registry.lastSequence, observations;
      EmptyBatch(batch[..0], first, epoch, entries);
      for i := 0 to |batch|
        invariant registry == old(registry) && AllKnown(batch[..i])
        invariant sequence == first + i && |observations| == |before| + i
        invariant observations == before + Records(batch[..i], first, epoch)
        invariant entries == ApplyAll(registry.entries, Records(batch[..i], first, epoch))
      {
        BatchStep(batch, i, first, epoch, registry.entries);
        if !Known(batch[i].layer) {
          return false;
        }
        sequence := sequence + 1;
        var record := Record(batch[i], sequence, epoch);
        observations := observations + [record];
        entries := Apply(entries, record);
      }
      assert batch[..|batch|] == batch;
      ApplyAllSplit(map[], before, Records(batch, first, epoch));
      registry := Registry(registry.revision + 1, sequence, entries);
      FoldIsLatest(observations);
      if old(Exact()) { RecordsNumbered(before, batch, epoch); }
      ok := true;
    }
  }

  lemma EmptyBatch(batch: seq<Observation>, first: int, epoch: int, entries: Entries)
    requires batch == []
    ensures AllKnown(batch) && Records(batch, first, epoch) == [] && ApplyAll(entries, []) == entries
  {
  }

  /** One turn of the loop: the record it adds, or the unknown layer it stops at. */
  lemma BatchStep(batch: seq<Observation>, i: nat, first: int, epoch: int, entries: Entries)
    requires i < |batch| && AllKnown(batch[..i])
    ensures !Known(batch[i].layer) ==>
      !AllKnown(batch) && Records(batch, first, epoch) == Records(batch[..i], first, epoch)
    ensures Known(batch[i].layer) ==>
      var done, record := Records(batch[..i], first, epoch), Record(batch[i], first + i + 1, epoch);
      && AllKnown(batch[..i + 1])
      && Records(batch[..i + 1], first, epoch) == done + [record]
      && ApplyAll(entries, done + [record]) == Apply(ApplyAll(entries, done), record)
  {
    hide Apply;
    assert batch == batch[..i] + batch[i..];
    RecordsSplit(batch[..i], batch[i..], first, epoch);
    assert batch[..i + 1] == batch[..i] + [batch[i]];
    RecordsSplit(batch[..i], [batch[i]], first, epoch);
    var done, record := Records(batch[..i], first, epoch), Record(batch[i], first + i + 1, epoch);
    assert (done + [record])[..|done|] == done;
  }
}

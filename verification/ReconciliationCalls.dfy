/**
 * Whole calls of `reconcile_capabilities`: when a start is replayed, exactly when a call
 * leaves the registry an exact cache, and exactly when an open reconciliation can end.
 */
module ReconciliationCalls {
  import opened Wrappers
  import opened ControlTypes
  import opened TransitionContract
  import opened TransitionJournal
  import opened LeaderOperations
  import opened ControlRuns
  import opened ReconcileKeys
  import opened CapabilityEntries
  import opened CapabilityRegistry

  // ---------------------------------------------------------------- runs in pieces

  lemma {:induction false} RunSplit(h: Digests, r: Root, a: seq<Move>, b: seq<Move>)
    ensures CapabilityRegistry.Run(h, r, a + b) == CapabilityRegistry.Run(h, CapabilityRegistry.Run(h, r, a), b)
    decreases |a|
  {
    hide CapabilityRegistry.Next;
    if a == [] {
      assert a + b == b;
    } else {
      assert (a + b)[0] == a[0] && (a + b)[1..] == a[1..] + b;
      RunSplit(h, CapabilityRegistry.Next(h, r, a[0]), a[1..], b);
    }
  }

  lemma RunOne(h: Digests, r: Root, m: Move)
    ensures CapabilityRegistry.Run(h, r, [m]) == CapabilityRegistry.Next(h, r, m)
  {
    hide CapabilityRegistry.Next;
    assert CapabilityRegistry.Run(h, CapabilityRegistry.Next(h, r, m), [m][1..]) == CapabilityRegistry.Next(h, r, m);
  }

  function Observes(p: Pid, n: nat): seq<Move> {
    if n == 0 then [] else [Observe(p)] + Observes(p, n - 1)
  }

  lemma {:induction false} IdleObserves(h: Digests, r: Root, p: Pid, n: nat)
    requires p !in r.jobs
    ensures CapabilityRegistry.Run(h, r, Observes(p, n)) == r
  {
    if n > 0 {
      assert Observes(p, n)[1..] == Observes(p, n - 1);
      IdleObserves(h, r, p, n - 1);
    }
  }

  /** The job once its loop has got through a known batch. */
  function JobDone(job: Job): Job
    requires job.Observing?
  {
    var n, records := |job.observations|, Records(job.observations, job.sequence, job.epoch);
    Observing([], job.revision, job.sequence + n, ApplyAll(job.entries, records), job.epoch)
  }

  /** What the loop of a call leaves behind: its records, and its job or, at an unknown layer, none. */
  function Observed(r: Root, p: Pid): Root
    requires p in r.jobs && r.jobs[p].Observing?
  {
    var job := r.jobs[p];
    var recorded := r.(observations := r.observations + Records(job.observations, job.sequence, job.epoch));
    if AllKnown(job.observations) then recorded.(jobs := r.jobs[p := JobDone(job)]) else Leave(recorded, p)
  }

  lemma ObservedNothing(r: Root, p: Pid)
    requires p in r.jobs && r.jobs[p].Observing? && r.jobs[p].observations == []
    ensures Observed(r, p) == r
  {
    hide Apply;
    assert r.jobs[p := r.jobs[p]] == r.jobs;
  }

  lemma ObservedOne(r: Root, p: Pid)
    requires p in r.jobs && r.jobs[p].Observing?
    requires r.jobs[p].observations != [] && Known(r.jobs[p].observations[0].layer)
    ensures Observed(ObserveNext(r, p), p) == Observed(r, p)
  {
    hide Apply;
    var job := r.jobs[p];
    var batch := job.observations;
    var record, rest := Record(batch[0], job.sequence + 1, job.epoch), Records(batch[1..], job.sequence + 1, job.epoch);
    assert batch == [batch[0]] + batch[1..];
    ApplyAllSplit(job.entries, [record], rest);
    assert [record][..0] == [];
    assert ApplyAll(job.entries, [record]) == Apply(ApplyAll(job.entries, []), record);
    assert r.observations + [record] + rest == r.observations + ([record] + rest);
  }

  /** The loop of a call that nobody interleaves with. */
  lemma {:induction false} ObservesRun(h: Digests, r: Root, p: Pid)
    requires p in r.jobs && r.jobs[p].Observing?
    ensures CapabilityRegistry.Run(h, r, Observes(p, |r.jobs[p].observations|)) == Observed(r, p)
    decreases |r.jobs[p].observations|
  {
    hide Apply, ApplyAll, CapabilityRegistry.Next, Observed;
    var batch := r.jobs[p].observations;
    if batch == [] {
      ObservedNothing(r, p);
    } else {
      ObserveMoves(h, r, p);
      assert Observes(p, |batch|)[1..] == Observes(p, |batch| - 1);
      if Known(batch[0].layer) {
        ObservedOne(r, p);
        ObservesRun(h, ObserveNext(r, p), p);
      } else {
        IdleObserves(h, ObserveNext(r, p), p, |batch| - 1);
        ObservedStop(r, p);
      }
    }
  }

  lemma ObserveMoves(h: Digests, r: Root, p: Pid)
    requires p in r.jobs && r.jobs[p].Observing? && r.jobs[p].observations != []
    ensures CapabilityRegistry.Next(h, r, Observe(p)) == ObserveNext(r, p)
  {
  }

  lemma ObservedStop(r: Root, p: Pid)
    requires p in r.jobs && r.jobs[p].Observing?
    requires r.jobs[p].observations != [] && !Known(r.jobs[p].observations[0].layer)
    ensures Observed(r, p) == ObserveNext(r, p)
  {
    hide Apply, ApplyAll;
    assert r.observations + [] == r.observations;
  }

  // ---------------------------------------------------------------- identifiers not drawn yet

  lemma {:induction false} UnusedMessageId(ms: seq<Message>) returns (id: Id)
    ensures forall i :: 0 <= i < |ms| ==> ms[i].body.messageId < id
  {
    id := 0;
    if ms != [] {
      var last := ms[|ms| - 1].body.messageId;
      var below := UnusedMessageId(ms[..|ms| - 1]);
      id := if below > last then below else last + 1;
    }
  }

  lemma {:induction false} UnusedEventId(es: seq<Event>) returns (id: Id)
    ensures forall i :: 0 <= i < |es| ==> es[i].body.eventId < id
  {
    id := 0;
    if es != [] {
      var last := es[|es| - 1].body.eventId;
      var below := UnusedEventId(es[..|es| - 1]);
      id := if below > last then below else last + 1;
    }
  }

  lemma FreshStamps(d: Disk) returns (z: Stamps)
    requires d.journal.None?
    ensures Fresh(d, z)
  {
    var m := UnusedMessageId(d.messages);
    var e := UnusedEventId(d.events);
    z := Stamps(m, e, 0, 0);
  }

  // ---------------------------------------------------------------- the completion

  /** The states from which the transition table lets a completion lead to active. */
  predicate Completable(s: StateBody) {
    s.activeLeaderEpoch >= 1 && Legal(s.status, Active)
  }

  lemma FinishRefusal(h: Digests, g: State, d: Disk, revision: int, key: string)
    requires Consistent(h, g, d) && HistoryGood(h, g, d.events)
    ensures var q := Prepare(FinishReconciliation(revision), View(d.state, None, None), key);
      q.Some? && (Refusal(d.state.body, q.value).None? <==> Completable(d.state.body))
  {
    hide LinkedAt, LedgersAgree;
    assert GoodAt(h, g, d.events, |d.events|);
  }

  /**
   * A completion submitted from the state just read, under a new key and not killed, is
   * accepted if and only if the state is completable: reconciling, but also restarting,
   * rotating, migrating, awaiting rollback, or blocked after an activation.
   */
  lemma FinishIff(h: Digests, g: State, w: World, s: Step)
    requires WorldInv(h, g, w) && w.disk.journal.None?
    requires s.Call? && s.op.FinishReconciliation? && s.commitPoints > COMMIT_POINTS
    requires s.p in w.views && w.views[s.p] == View(w.disk.state, None, None)
    requires FindMessage(w.disk.messages, s.key).None? && Fresh(w.disk, s.z)
    ensures OutcomeOf(h, w, s).Accepted? <==> Completable(w.disk.state.body)
    ensures var b' := Recovered(ControlRuns.Next(h, w, s).disk).state.body;
      if Completable(w.disk.state.body) then b'.status == Active && b'.registryRevision == s.op.registryRevision
      else b' == w.disk.state.body
  {
    hide Prepare, CommitUpTo, Submit, HistoryGood, FindMessage, LedgersAgree, Fresh, Extended, Refusal, Completable,
         DiskInv;
    var d, v, revision := w.disk, w.views[s.p], s.op.registryRevision;
    InvRecovers(h, g, d);
    FinishRefusal(h, g, d, revision, s.key);
    CallEffect(h, g, w, s);
    if Completable(d.state.body) {
      SubmitOnRead(h, g, d, s.op, s.key, s.z, s.recoverPoints, s.commitPoints);
      ReconcileRequests(v, s.key, 0, revision);
      ExtendedFacts(h, d, RequestOf(w, s).value, s.z);
    }
  }

  /** The state read again, and the completion. */
  function Finishing(p: Pid, z: Stamps): seq<Move> {
    [Other(ReadState(p))] + [FinishCall(p, z, COMMIT_POINTS, COMMIT_POINTS + 1)]
  }

  /** What is left of a call once it has read the registry. */
  function Rest(p: Pid, n: nat, z: Stamps): seq<Move> {
    Observes(p, n) + ([WriteRegistry(p)] + Finishing(p, z))
  }

  /** What a completion does to the state. */
  predicate CompletesTo(b: StateBody, revision: nat, b': StateBody) {
    if Completable(b) then b'.status == Active && b'.registryRevision == revision else b' == b
  }

  lemma FinishingRun(h: Digests, g: State, r: Root, p: Pid, z: Stamps)
    requires WorldInv(h, g, r.core) && r.core.disk.journal.None? && Fresh(r.core.disk, z)
    requires p in r.jobs && r.jobs[p].Written?
    requires FindMessage(r.core.disk.messages, FinishKey(r.jobs[p].revision)).None?
    ensures var r' := CapabilityRegistry.Run(h, r, Finishing(p, z));
      && r' == r.(core := r'.core, jobs := r.jobs - {p})
      && CompletesTo(Current(r), r.jobs[p].revision, Current(r'))
  {
    hide WorldInv, CommitUpTo, FindMessage, Fresh, CallDisk, OutcomeOf, Completable, CapabilityRegistry.Run;
    var read := CapabilityRegistry.Next(h, r, Other(ReadState(p)));
    var m := FinishCall(p, z, COMMIT_POINTS, COMMIT_POINTS + 1);
    StepKeepsInv(h, g, r.core, ReadState(p));
    RunSplit(h, r, [Other(ReadState(p))], [m]);
    RunOne(h, r, Other(ReadState(p)));
    RunOne(h, read, m);
    FinishIff(h, g, read.core, FinishStep(m, r.jobs[p].revision));
  }

  lemma IdleFinishing(h: Digests, r: Root, p: Pid, z: Stamps)
    requires p !in r.jobs
    ensures var r' := CapabilityRegistry.Run(h, r, [WriteRegistry(p)] + Finishing(p, z));
      r' == r.(core := r'.core) && r'.core.disk == r.core.disk
  {
    hide CommitUpTo, CapabilityRegistry.Run;
    var read := CapabilityRegistry.Next(h, r, Other(ReadState(p)));
    RunSplit(h, r, [WriteRegistry(p)], Finishing(p, z));
    RunOne(h, r, WriteRegistry(p));
    RunSplit(h, r, [Other(ReadState(p))], [FinishCall(p, z, COMMIT_POINTS, COMMIT_POINTS + 1)]);
    RunOne(h, r, Other(ReadState(p)));
    RunOne(h, read, FinishCall(p, z, COMMIT_POINTS, COMMIT_POINTS + 1));
  }

  /** The rest of a call run alone: what it leaves of ledger, registry and state. */
  lemma RestRun(h: Digests, g: State, r: Root, p: Pid, z: Stamps)
    requires WorldInv(h, g, r.core) && r.core.disk.journal.None? && Fresh(r.core.disk, z)
    requires p in r.jobs && r.jobs[p].Observing?
    requires FindMessage(r.core.disk.messages, FinishKey(r.jobs[p].revision + 1)).None?
    ensures var job, r' := r.jobs[p], CapabilityRegistry.Run(h, r, Rest(p, |r.jobs[p].observations|, z));
      var records := Records(job.observations, job.sequence, job.epoch);
      && r'.observations == r.observations + records && r'.jobs == r.jobs - {p}
      && if AllKnown(job.observations)
         then && r'.registry == Registry(job.revision + 1, job.sequence + |job.observations|,
                                         ApplyAll(job.entries, records))
              && CompletesTo(Current(r), job.revision + 1, Current(r'))
         else r'.registry == r.registry && Current(r') == Current(r)
  {
    hide WorldInv, CommitUpTo, FindMessage, Fresh, Records, ApplyAll, CompletesTo, CapabilityRegistry.Run,
         CapabilityRegistry.Next;
    var job, n := r.jobs[p], |r.jobs[p].observations|;
    var observed := Observed(r, p);
    RunSplit(h, r, Observes(p, n), [WriteRegistry(p)] + Finishing(p, z));
    ObservesRun(h, r, p);
    if AllKnown(job.observations) {
      var written := observed.(registry := Registry(job.revision + 1, job.sequence + n, JobDone(job).entries),
                               jobs := observed.jobs[p := Written(job.revision + 1)]);
      WriteMoves(h, observed, p);
      RunSplit(h, observed, [WriteRegistry(p)], Finishing(p, z));
      RunOne(h, observed, WriteRegistry(p));
      FinishingRun(h, g, written, p, z);
      assert written.jobs - {p} == r.jobs - {p};
    } else {
      IdleFinishing(h, observed, p, z);
    }
  }

  lemma WriteMoves(h: Digests, r: Root, p: Pid)
    requires p in r.jobs && r.jobs[p].Observing? && r.jobs[p].observations == []
    ensures var job := r.jobs[p];
      CapabilityRegistry.Next(h, r, WriteRegistry(p)) ==
        r.(registry := Registry(job.revision + 1, job.sequence, job.entries),
           jobs := r.jobs[p := Written(job.revision + 1)])
  {
  }

  // ---------------------------------------------------------------- a whole call, over every status

  /** A call from its start to its completion, with nobody in between. */
  function WholeCall(m: Move, z: Stamps): seq<Move>
    requires m.StartCall?
  {
    [m] + ([ReadRegistry(m.p)] + Rest(m.p, |m.obs|, z))
  }

  /** A call goes on either on a new start, from the current revision, or on a replayed one, from an earlier one. */
  lemma StartCases(h: Digests, g: State, r: Root, m: Move)
    requires WorldInv(h, g, r.core) && KeyLaw(h, g, Recovered(r.core.disk)) && m.StartCall? && Proceeds(h, r, m)
    ensures var r' := CapabilityRegistry.Next(h, r, m);
      && m.p !in r.jobs && m.obs != [] && r'.core.disk.journal.None?
      && WorldInv(h, g, r'.core) && KeyLaw(h, g, Recovered(r'.core.disk))
      && r' == r.(core := r'.core, jobs := r.jobs[m.p := Started(m.obs, ReadEpoch(r.core, m.p))])
      && Current(r').registryRevision == Current(r).registryRevision
      && if ReadRevision(r.core, m.p) == Current(r).revision
         then Reconciling(r') && !Reconciling(r) else Recovered(r'.core.disk) == Recovered(r.core.disk)
  {
    hide WorldInv, KeyLaw, CommitUpTo, ControlRuns.Next, FindMessage, Prepare, Extended, OutcomeOf, Refusal;
    var s := StartStep(r.core, m);
    StepKeepsInv(h, g, r.core, s);
    CallEffect(h, g, r.core, s);
    CurrentStartIsNew(h, g, r.core);
    ReconcileRequests(r.core.views[m.p], s.key, |m.obs|, 0);
    if Committed(h, r.core, s) {
      ExtendedFacts(h, Recovered(r.core.disk), RequestOf(r.core, s).value, s.z);
      CommitKeepsKeys(h, g, r.core, s);
    }
  }

  lemma FinishIsNew(ms: seq<Message>, revision: int, k: int)
    requires FinishedUpTo(ms, revision) && k > revision
    ensures FindMessage(ms, FinishKey(k)).None?
  {
    FindMessageSpec(ms, FinishKey(k));
  }

  /** Starting leaves no completion on record for a later revision. */
  lemma StartKeepsFinishes(h: Digests, g: State, r: Root, m: Move)
    requires RootInv(h, g, r) && m.StartCall? && Proceeds(h, r, m)
    ensures var r' := CapabilityRegistry.Next(h, r, m);
      FinishedUpTo(Recovered(r'.core.disk).messages, Current(r').registryRevision)
  {
    hide WorldInv, KeyLaw, CommitUpTo, ControlRuns.Next, FinishedUpTo, JobExact, Fold, Proceeds,
         CapabilityRegistry.Next;
    StartCases(h, g, r, m);
    if ReadRevision(r.core, m.p) == Current(r).revision { MoveKeeps(h, g, r, m); }
  }

  lemma ReconcilingCompletable(h: Digests, g: State, w: World)
    requires WorldInv(h, g, w) && Recovered(w.disk).state.body.status == ReconcilingCapabilities
    ensures Completable(Recovered(w.disk).state.body)
  {
    hide CommitUpTo, LinkedAt, DiskInv;
    var d := Recovered(w.disk);
    InvRecovers(h, g, w.disk);
    assert GoodAt(h, g, d.events, |d.events|);
  }

  /** A started call that reads the registry. */
  lemma ReadMoves(h: Digests, r: Root, m: Move, epoch: int)
    requires m.StartCall? && m.p in r.jobs && r.jobs[m.p] == Started(m.obs, epoch)
    ensures CapabilityRegistry.Next(h, r, ReadRegistry(m.p)) ==
      r.(jobs := r.jobs[m.p := Observing(m.obs, r.registry.revision, r.registry.lastSequence,
                                         r.registry.entries, epoch)])
  {
  }

  /** What a whole call leaves of ledger, registry and state. */
  lemma WholeCallRun(h: Digests, g: State, r: Root, m: Move, z: Stamps)
    requires RootInv(h, g, r) && m.StartCall? && Proceeds(h, r, m)
    requires Fresh(CapabilityRegistry.Next(h, r, m).core.disk, z)
    ensures var started, r' := CapabilityRegistry.Next(h, r, m), CapabilityRegistry.Run(h, r, WholeCall(m, z));
      var records := Records(m.obs, r.registry.lastSequence, ReadEpoch(r.core, m.p));
      && r'.observations == r.observations + records
      && if AllKnown(m.obs)
         then && r'.registry == Registry(r.registry.revision + 1, r.registry.lastSequence + |m.obs|,
                                         ApplyAll(r.registry.entries, records))
              && CompletesTo(Current(started), r.registry.revision + 1, Current(r'))
         else r'.registry == r.registry && Current(r') == Current(started)
  {
    hide WorldInv, KeyLaw, CommitUpTo, FindMessage, Fresh, Records, ApplyAll, CompletesTo, CapabilityRegistry.Run,
         CapabilityRegistry.Next, FinishedUpTo, JobExact, Fold, Proceeds, Rest, AllKnown;
    var started := CapabilityRegistry.Next(h, r, m);
    StartCases(h, g, r, m);
    StartKeepsFinishes(h, g, r, m);
    FinishIsNew(started.core.disk.messages, Current(started).registryRevision, r.registry.revision + 1);
    ReadMoves(h, started, m, ReadEpoch(r.core, m.p));
    var read := CapabilityRegistry.Next(h, started, ReadRegistry(m.p));
    RunSplit(h, r, [m], [ReadRegistry(m.p)] + Rest(m.p, |m.obs|, z));
    RunOne(h, r, m);
    RunSplit(h, started, [ReadRegistry(m.p)], Rest(m.p, |m.obs|, z));
    RunOne(h, started, ReadRegistry(m.p));
    RestRun(h, g, read, m.p, z);
  }

  /** How many records a batch leaves in the ledger. */
  lemma RecordCount(batch: seq<Observation>, sequence: int, epoch: int)
    requires batch != []
    ensures var n := |Records(batch, sequence, epoch)|;
      (AllKnown(batch) ==> n == |batch|) && (n == 0 <==> !Known(batch[0].layer))
  {
    if AllKnown(batch) { RecordsSplit(batch, [], sequence, epoch); }
  }

  /**
   * A call with nobody in between leaves the cache valid exactly as follows, by the
   * status it finds. A start from the current revision always does. One that joins an
   * open reconciliation does unless it completes over observations nobody registered.
   * A replayed one does, in a status that a completion may end, if the whole batch is
   * known or nothing of it is recorded, and in any other status only in the latter case.
   */
  lemma WholeCallIff(h: Digests, g: State, r: Root, m: Move, z: Stamps)
    requires RootInv(h, g, r) && m.StartCall? && Proceeds(h, r, m)
    requires Fresh(CapabilityRegistry.Next(h, r, m).core.disk, z)
    ensures m.obs != []
    ensures CacheValid(CapabilityRegistry.Run(h, r, WholeCall(m, z))) <==>
      if ReadRevision(r.core, m.p) == Current(r).revision then true
      else if Reconciling(r) then !AllKnown(m.obs) || Registered(r)
      else if Completable(Current(r)) then AllKnown(m.obs) || !Known(m.obs[0].layer)
      else !Known(m.obs[0].layer)
  {
    hide WorldInv, KeyLaw, CommitUpTo, Fresh, Records, ApplyAll, CapabilityRegistry.Run, CapabilityRegistry.Next,
         FinishedUpTo, Proceeds, WholeCall, Completable, AllKnown, Known;
    var started, r' := CapabilityRegistry.Next(h, r, m), CapabilityRegistry.Run(h, r, WholeCall(m, z));
    var records := Records(m.obs, r.registry.lastSequence, ReadEpoch(r.core, m.p));
    StartCases(h, g, r, m);
    WholeCallRun(h, g, r, m, z);
    RecordCount(m.obs, r.registry.lastSequence, ReadEpoch(r.core, m.p));
    ApplyAllSplit(map[], r.observations, records);
    if Reconciling(started) { ReconcilingCompletable(h, g, started.core); }
    assert records == [] ==> r'.observations == r.observations;
  }

  // ---------------------------------------------------------------- exactly when it is safe to start

  /** No call of the run starts. */
  predicate NoStarts(moves: seq<Move>) {
    forall i :: 0 <= i < |moves| ==> !moves[i].StartCall?
  }

  lemma {:induction false} NoStartsOk(h: Digests, r: Root, moves: seq<Move>)
    requires NoStarts(moves)
    ensures StartsOk(h, r, moves)
    decreases |moves|
  {
    hide CapabilityRegistry.Next, Proceeds, StartOk;
    if moves != [] { NoStartsOk(h, CapabilityRegistry.Next(h, r, moves[0]), moves[1..]); }
  }

  lemma {:induction false} ObservesStartNothing(p: Pid, n: nat)
    ensures NoStarts(Observes(p, n))
  {
    if n > 0 { ObservesStartNothing(p, n - 1); }
  }

  lemma RestStartsNothing(p: Pid, n: nat, z: Stamps)
    ensures NoStarts(Rest(p, n, z))
  {
    ObservesStartNothing(p, n);
  }

  /** A started call reads the registry and records its first observation. */
  lemma FirstRecord(h: Digests, r: Root, m: Move, epoch: int) returns (moves: seq<Move>)
    requires m.StartCall? && m.p in r.jobs && r.jobs[m.p] == Started(m.obs, epoch)
    requires m.obs != [] && Known(m.obs[0].layer)
    ensures NoStarts(moves)
    ensures var r' := CapabilityRegistry.Run(h, r, moves);
      && r'.core == r.core && r'.registry == r.registry && |r'.observations| == |r.observations| + 1
      && forall q :: q in r.jobs && q != m.p ==> q in r'.jobs && r'.jobs[q] == r.jobs[q]
  {
    hide CapabilityRegistry.Run, CapabilityRegistry.Next, Apply;
    var p := m.p;
    var read := CapabilityRegistry.Next(h, r, ReadRegistry(p));
    ReadMoves(h, r, m, epoch);
    ObserveMoves(h, read, p);
    RunSplit(h, r, [ReadRegistry(p)], [Observe(p)]);
    RunOne(h, r, ReadRegistry(p));
    RunOne(h, read, Observe(p));
    moves := [ReadRegistry(p)] + [Observe(p)];
  }

  /** A call that has read the registry completes, over observations it has not seen. */
  lemma CompletesBlindly(h: Digests, g: State, r: Root, q: Pid) returns (moves: seq<Move>)
    requires WorldInv(h, g, r.core) && r.core.disk.journal.None? && Reconciling(r)
    requires q in r.jobs && r.jobs[q].Observing? && AllKnown(r.jobs[q].observations)
    requires r.jobs[q].sequence < |r.observations|
    requires FinishedUpTo(r.core.disk.messages, Current(r).registryRevision)
    requires r.jobs[q].revision >= Current(r).registryRevision
    ensures NoStarts(moves) && !CacheValid(CapabilityRegistry.Run(h, r, moves))
  {
    hide WorldInv, CommitUpTo, Fresh, FindMessage, FinishedUpTo, CapabilityRegistry.Run, Rest, Completable, Records,
         ApplyAll, Fold;
    var job, n := r.jobs[q], |r.jobs[q].observations|;
    var z := FreshStamps(r.core.disk);
    FinishIsNew(r.core.disk.messages, Current(r).registryRevision, job.revision + 1);
    RestRun(h, g, r, q, z);
    ReconcilingCompletable(h, g, r.core);
    RecordsSplit(job.observations, [], job.sequence, job.epoch);
    RestStartsNothing(q, n, z);
    moves := Rest(q, n, z);
  }

  lemma TwoParts(h: Digests, r: Root, a: seq<Move>, b: seq<Move>)
    requires NoStarts(a) && NoStarts(b) && !CacheValid(CapabilityRegistry.Run(h, CapabilityRegistry.Run(h, r, a), b))
    ensures NoStarts(a + b) && !CacheValid(CapabilityRegistry.Run(h, r, a + b))
  {
    hide CapabilityRegistry.Run, CacheValid;
    RunSplit(h, r, a, b);
  }

  /** What the runs below start from: an open reconciliation with no completion on record for a later revision. */
  ghost predicate Open(h: Digests, g: State, r: Root) {
    && WorldInv(h, g, r.core) && r.core.disk.journal.None? && Reconciling(r)
    && FinishedUpTo(r.core.disk.messages, Current(r).registryRevision)
    && r.registry.lastSequence <= |r.observations| && r.registry.revision >= Current(r).registryRevision
  }

  /** Another call is about to complete: this one records an observation, the other completes without it. */
  lemma RecordBreaks(h: Digests, g: State, r: Root, m: Move, epoch: int, q: Pid) returns (moves: seq<Move>)
    requires Open(h, g, r) && m.StartCall? && m.p in r.jobs && r.jobs[m.p] == Started(m.obs, epoch)
    requires m.obs != [] && Known(m.obs[0].layer)
    requires q in r.jobs && q != m.p && CanComplete(r.jobs[q]) && JobExact(r, r.jobs[q])
    ensures NoStarts(moves) && !CacheValid(CapabilityRegistry.Run(h, r, moves))
  {
    hide WorldInv, CommitUpTo, FinishedUpTo, CapabilityRegistry.Run, CapabilityRegistry.Next, Fold, FindMessage, Fresh,
         Completable, AllKnown;
    var first := FirstRecord(h, r, m, epoch);
    var r1 := CapabilityRegistry.Run(h, r, first);
    if r.jobs[q].Observing? {
      var rest := CompletesBlindly(h, g, r1, q);
      TwoParts(h, r, first, rest);
      moves := first + rest;
    } else if r.jobs[q].Started? {
      var job := r.jobs[q];
      var twin := StartCall(q, job.observations, m.z, 0, 0);
      ReadMoves(h, r1, twin, job.epoch);
      RunOne(h, r1, ReadRegistry(q));
      var rest := CompletesBlindly(h, g, CapabilityRegistry.Next(h, r1, ReadRegistry(q)), q);
      TwoParts(h, r1, [ReadRegistry(q)], rest);
      TwoParts(h, r, first, [ReadRegistry(q)] + rest);
      moves := first + ([ReadRegistry(q)] + rest);
    } else {
      var z := FreshStamps(r.core.disk);
      FinishIsNew(r.core.disk.messages, Current(r).registryRevision, r.jobs[q].revision);
      FinishingRun(h, g, r1, q, z);
      ReconcilingCompletable(h, g, r.core);
      TwoParts(h, r, first, Finishing(q, z));
      moves := first + Finishing(q, z);
    }
  }

  /** This call will complete, over observations that are not registered or that another call adds meanwhile. */
  lemma CompleteBreaks(h: Digests, g: State, r: Root, m: Move, epoch: int, q: Pid) returns (moves: seq<Move>)
    requires Open(h, g, r) && m.StartCall? && m.p in r.jobs && r.jobs[m.p] == Started(m.obs, epoch) && AllKnown(m.obs)
    requires !Registered(r) || (&& q in r.jobs && q != m.p && !r.jobs[q].Written? && r.jobs[q].observations != []
                                && Known(r.jobs[q].observations[0].layer))
    ensures NoStarts(moves) && !CacheValid(CapabilityRegistry.Run(h, r, moves))
  {
    hide WorldInv, CommitUpTo, FinishedUpTo, CapabilityRegistry.Run, CapabilityRegistry.Next, Fold, AllKnown, Apply;
    ReadMoves(h, r, m, epoch);
    RunOne(h, r, ReadRegistry(m.p));
    var read := CapabilityRegistry.Next(h, r, ReadRegistry(m.p));
    if !Registered(r) {
      var rest := CompletesBlindly(h, g, read, m.p);
      TwoParts(h, r, [ReadRegistry(m.p)], rest);
      moves := [ReadRegistry(m.p)] + rest;
    } else {
      var added := AddsRecord(h, read, q);
      var rest := CompletesBlindly(h, g, CapabilityRegistry.Run(h, read, added), m.p);
      TwoParts(h, read, added, rest);
      TwoParts(h, r, [ReadRegistry(m.p)], added + rest);
      moves := [ReadRegistry(m.p)] + (added + rest);
    }
  }

  /** A call at work records its next observation. */
  lemma AddsRecord(h: Digests, r: Root, q: Pid) returns (moves: seq<Move>)
    requires q in r.jobs && !r.jobs[q].Written?
    requires r.jobs[q].observations != [] && Known(r.jobs[q].observations[0].layer)
    ensures NoStarts(moves)
    ensures var r' := CapabilityRegistry.Run(h, r, moves);
      && r'.core == r.core && r'.registry == r.registry && |r'.observations| == |r.observations| + 1
      && forall p :: p in r.jobs && p != q ==> p in r'.jobs && r'.jobs[p] == r.jobs[p]
  {
    hide CapabilityRegistry.Run, CapabilityRegistry.Next, Apply;
    if r.jobs[q].Started? {
      var job := r.jobs[q];
      moves := FirstRecord(h, r, StartCall(q, job.observations, Stamps(0, 0, 0, 0), 0, 0), job.epoch);
    } else {
      ObserveMoves(h, r, q);
      RunOne(h, r, Observe(q));
      moves := [Observe(q)];
    }
  }

  /** A call that was not right to start can break the cache without any further start. */
  lemma BreakingRun(h: Digests, g: State, r: Root, m: Move) returns (moves: seq<Move>)
    requires RootInv(h, g, r) && m.StartCall? && Proceeds(h, r, m) && !StartOk(r, m)
    ensures NoStarts(moves) && !CacheValid(CapabilityRegistry.Run(h, CapabilityRegistry.Next(h, r, m), moves))
  {
    hide WorldInv, KeyLaw, CommitUpTo, FinishedUpTo, CapabilityRegistry.Run, CapabilityRegistry.Next, Fold, Proceeds;
    StartCases(h, g, r, m);
    var started, epoch := CapabilityRegistry.Next(h, r, m), ReadEpoch(r.core, m.p);
    if !Reconciling(r) {
      moves := FirstRecord(h, started, m, epoch);
    } else if exists q :: q in r.jobs && CanComplete(r.jobs[q]) {
      var q :| q in r.jobs && CanComplete(r.jobs[q]);
      SameJob(r, started, r.jobs[q]);
      moves := RecordBreaks(h, g, started, m, epoch, q);
    } else if !Registered(r) {
      moves := CompleteBreaks(h, g, started, m, epoch, m.p);
    } else {
      var q :| q in r.jobs && !Inert(r.jobs[q]);
      moves := CompleteBreaks(h, g, started, m, epoch, q);
    }
  }

  lemma SameJob(r: Root, r': Root, job: Job)
    requires JobExact(r, job) && Current(r') == Current(r)
    requires r'.registry == r.registry && r'.observations == r.observations
    ensures JobExact(r', job)
  {
  }

  /**
   * The condition is exact: a call that goes on was right to start if and only if no
   * continuation without further starts, kills included, ever shows a registry that is
   * not an exact cache while the installation is not reconciling.
   */
  lemma StartSafeIff(h: Digests, g: State, r: Root, m: Move)
    requires RootInv(h, g, r) && m.StartCall? && Proceeds(h, r, m)
    ensures StartOk(r, m) <==>
      forall moves :: NoStarts(moves) ==>
        CacheValid(CapabilityRegistry.Run(h, CapabilityRegistry.Next(h, r, m), moves))
  {
    hide RootInv, CapabilityRegistry.Run, CapabilityRegistry.Next, Proceeds, StartOk, CacheValid;
    if StartOk(r, m) {
      MoveKeeps(h, g, r, m);
      var started := CapabilityRegistry.Next(h, r, m);
      forall moves | NoStarts(moves) ensures CacheValid(CapabilityRegistry.Run(h, started, moves)) {
        NoStartsOk(h, started, moves);
        RegistryIsCache(h, g, started, moves);
      }
    } else {
      var moves := BreakingRun(h, g, r, m);
    }
  }

  // ---------------------------------------------------------------- completions outside a reconciliation

  /** In a run whose calls were right to start, whoever completes does so while reconciling. */
  lemma CompletesWhileReconciling(h: Digests, g: State, r: Root, p: Pid)
    requires RootInv(h, g, r) && p in r.jobs && r.jobs[p].Written?
    ensures Reconciling(r)
  {
    assert !Inert(r.jobs[p]);
  }

  /**
   * A call on a replayed start, run alone while nothing is reconciling, changes the
   * status if and only if its batch is known and the status is one a completion may end;
   * it then ends a restart, rotation, migration or block without its own transition.
   */
  lemma StaleCallEnds(h: Digests, g: State, r: Root, m: Move, z: Stamps)
    requires RootInv(h, g, r) && m.StartCall? && Proceeds(h, r, m) && !Reconciling(r)
    requires ReadRevision(r.core, m.p) != Current(r).revision && Fresh(CapabilityRegistry.Next(h, r, m).core.disk, z)
    ensures var after := Current(CapabilityRegistry.Run(h, r, WholeCall(m, z)));
      && (after.status != Current(r).status <==> AllKnown(m.obs) && Completable(Current(r)))
      && (after.status != Current(r).status ==> after.status == Active)
  {
    hide RootInv, CommitUpTo, CapabilityRegistry.Run, CapabilityRegistry.Next, Proceeds, WholeCall, AllKnown, Records,
         Fresh, WorldInv, KeyLaw, Completable, ApplyAll;
    RootCore(h, g, r);
    StartCases(h, g, r, m);
    WholeCallRun(h, g, r, m, z);
    CompletableIsNotActive(Current(r));
  }

  lemma CompletableIsNotActive(b: StateBody)
    ensures Completable(b) ==> b.status != Active
  {
  }

  // ---------------------------------------------------------------- who can replay a start

  /**
   * The state is one from which a reconciliation of `count` observations was started: a
   * process that holds it and brings as many has its start replayed.
   */
  ghost predicate StartedFrom(h: Digests, g: State, r: Root, s: State, count: nat) {
    && (s.body.status == Active || s.body.status == Degraded) && count > 0
    && StartRecorded(h, g, Recovered(r.core.disk), s.body.revision, count)
  }

  /**
   * A start is replayed whenever the state that was read is one from which as many
   * observations were started before, however much has happened since. Key and content
   * of the two requests agree because both are formed from that state.
   */
  lemma StaleStartIsReplayed(h: Digests, g: State, r: Root, m: Move)
    requires WorldInv(h, g, r.core) && m.StartCall? && m.p in r.core.views && Fresh(Recovered(r.core.disk), m.z)
    requires StartedFrom(h, g, r, r.core.views[m.p].state, |m.obs|)
    requires m.recoverPoints == m.commitPoints == COMMIT_POINTS
    ensures OutcomeOf(h, r.core, StartStep(r.core, m)).Replayed?
  {
    hide Prepare, CommitUpTo, Submit, Fresh, DiskInv, StateAt;
    var s, d, v := StartStep(r.core, m), Recovered(r.core.disk), r.core.views[m.p];
    var i := v.state.body.revision;
    assert ViewInv(h, g, d.events, v);
    ReconcileRequests(v, s.key, |m.obs|, 0);
    RetryAfterRun(h, g, r.core, i, [], RequestOf(r.core, s).value, s.z);
  }

  /** An accepted start is on record for the state it was made from. */
  lemma StartIsRecorded(h: Digests, g: State, r: Root, m: Move)
    requires WorldInv(h, g, r.core) && m.StartCall? && m.p !in r.jobs
    requires OutcomeOf(h, r.core, StartStep(r.core, m)).Accepted?
    ensures m.p in r.core.views
    ensures StartedFrom(h, g, CapabilityRegistry.Next(h, r, m), r.core.views[m.p].state, |m.obs|)
  {
    hide WorldInv, CommitUpTo, ControlRuns.Next, FindMessage, Prepare, Extended, OutcomeOf, Refusal;
    var s := StartStep(r.core, m);
    var d, q := Recovered(r.core.disk), RequestOf(r.core, s);
    CallEffect(h, g, r.core, s);
    ReconcileRequests(r.core.views[m.p], s.key, |m.obs|, 0);
    ExtendedFacts(h, d, q.value, s.z);
    LedgerLengths(h, g, r.core);
  }

  /** What is on record stays on record. */
  lemma {:induction false} StartedFromStays(h: Digests, g: State, r: Root, moves: seq<Move>, s: State, count: nat)
    requires WorldInv(h, g, r.core) && StartedFrom(h, g, r, s, count)
    ensures WorldInv(h, g, CapabilityRegistry.Run(h, r, moves).core)
    ensures StartedFrom(h, g, CapabilityRegistry.Run(h, r, moves), s, count)
    decreases |moves|
  {
    hide WorldInv, ControlRuns.Next, OutcomeOf, Apply, CommitUpTo, Prepare;
    if moves != [] {
      var m := moves[0];
      var r' := CapabilityRegistry.Next(h, r, m);
      match m {
        case Other(step) => StepKeepsInv(h, g, r.core, step);
        case StartCall(_, _, _, _, _) => StepKeepsInv(h, g, r.core, StartStep(r.core, m));
        case FinishCall(p, _, _, _) =>
          if p in r.jobs && r.jobs[p].Written? { StepKeepsInv(h, g, r.core, FinishStep(m, r.jobs[p].revision)); }
        case Observe(p) => ForgetKeeps(h, g, r.core, p);
        case Abort(p) => ForgetKeeps(h, g, r.core, p);
        case _ =>
      }
      LedgerLengths(h, g, r'.core);
      StartedFromStays(h, g, r', moves[1..], s, count);
    }
  }

  /**
   * The run in which the cache diverges: two processes read one state, the first
   * reconciles, the second calls with as many observations once the installation is
   * active or degraded again.
   */
  lemma StaleCallDiverges(h: Digests, g: State, r: Root, m: Move, moves: seq<Move>, late: Move, z: Stamps)
    requires RootInv(h, g, r) && m.StartCall? && m.p !in r.jobs
    requires OutcomeOf(h, r.core, StartStep(r.core, m)).Accepted?
    requires StartsOk(h, CapabilityRegistry.Next(h, r, m), moves)
    requires late.StartCall? && |late.obs| == |m.obs| && late.obs != [] && Known(late.obs[0].layer)
    requires late.recoverPoints == late.commitPoints == COMMIT_POINTS
    requires var r' := CapabilityRegistry.Run(h, CapabilityRegistry.Next(h, r, m), moves);
      && (Current(r').status == Active || Current(r').status == Degraded)
      && late.p in r'.core.views && late.p !in r'.jobs && Fresh(Recovered(r'.core.disk), late.z)
      && m.p in r.core.views && r'.core.views[late.p].state == r.core.views[m.p].state
      && Fresh(CapabilityRegistry.Next(h, r', late).core.disk, z)
    ensures var r' := CapabilityRegistry.Run(h, CapabilityRegistry.Next(h, r, m), moves);
      !CacheValid(CapabilityRegistry.Run(h, r', WholeCall(late, z)))
  {
    hide RootInv, CommitUpTo, CapabilityRegistry.Run, CapabilityRegistry.Next, WholeCall, StartsOk, Fresh, CacheValid,
         StartedFrom, OutcomeOf, WorldInv, KeyLaw;
    var r1 := CapabilityRegistry.Next(h, r, m);
    var r' := CapabilityRegistry.Run(h, r1, moves);
    RootCore(h, g, r);
    StartIsRecorded(h, g, r, m);
    AcceptedIsCurrent(h, g, r, m);
    MoveKeeps(h, g, r, m);
    RegistryIsCache(h, g, r1, moves);
    RootCore(h, g, r1);
    StartedFromStays(h, g, r1, moves, r.core.views[m.p].state, |m.obs|);
    StaleStartIsReplayed(h, g, r', late);
    RootCore(h, g, r');
    ReplayedIsStale(h, g, r', late);
    WholeCallIff(h, g, r', late, z);
  }

  lemma AcceptedIsCurrent(h: Digests, g: State, r: Root, m: Move)
    requires WorldInv(h, g, r.core) && m.StartCall? && OutcomeOf(h, r.core, StartStep(r.core, m)).Accepted?
    ensures StartOk(r, m)
  {
    hide WorldInv, CommitUpTo, ControlRuns.Next, FindMessage, Prepare, Extended, OutcomeOf, Refusal;
    CallEffect(h, g, r.core, StartStep(r.core, m));
  }

  lemma ReplayedIsStale(h: Digests, g: State, r: Root, m: Move)
    requires WorldInv(h, g, r.core) && KeyLaw(h, g, Recovered(r.core.disk)) && m.StartCall?
    requires OutcomeOf(h, r.core, StartStep(r.core, m)).Replayed?
    ensures ReadRevision(r.core, m.p) != Current(r).revision
  {
    hide WorldInv, KeyLaw, CommitUpTo, ControlRuns.Next, FindMessage, Prepare, Extended, OutcomeOf;
    var s := StartStep(r.core, m);
    CallEffect(h, g, r.core, s);
    RequestKey(s.op, r.core.views[m.p], s.key);
    CurrentStartIsNew(h, g, r.core);
  }

  // ---------------------------------------------------------------- how an open reconciliation ends

  /** An open reconciliation that no call at work will complete. */
  predicate Stranded(r: Root) {
    Reconciling(r) && Doomed(r)
  }

  /** A process has read a state, is not at work on a reconciliation, and has not submitted yet. */
  predicate Holds(r: Root, p: Pid) {
    p in r.core.views && p !in r.jobs
  }

  /** Some process holds, or can still read, a state from which a reconciliation was started. */
  ghost predicate Held(h: Digests, g: State, r: Root) {
    || (exists count: nat :: StartedFrom(h, g, r, r.core.disk.state, count))
    || (exists p, count: nat :: Holds(r, p) && StartedFrom(h, g, r, r.core.views[p].state, count))
  }

  /** Whoever can go on after a start made while reconciling holds such a state. */
  lemma GoingOnIsHeld(h: Digests, g: State, r: Root, m: Move)
    requires WorldInv(h, g, r.core) && KeyLaw(h, g, Recovered(r.core.disk)) && Reconciling(r)
    requires m.StartCall? && Proceeds(h, r, m)
    ensures Held(h, g, r)
  {
    hide WorldInv, CommitUpTo, ControlRuns.Next, Prepare, Extended, OutcomeOf, StateAt;
    var s, d := StartStep(r.core, m), Recovered(r.core.disk);
    StartCases(h, g, r, m);
    CallEffect(h, g, r.core, s);
    ReconcileRequests(r.core.views[m.p], s.key, |m.obs|, 0);
    FindMessageSpec(d.messages, s.key);
    var i: nat :| i < |d.messages| && d.messages[i].body.idempotencyKey == s.key;
    assert KeyLawAt(h, g, d, i);
    var count: nat :| StartRecorded(h, g, d, i, count);
    RecordedCount(h, g, d, i, count);
    assert Holds(r, m.p) && StartedFrom(h, g, r, r.core.views[m.p].state, count);
  }

  lemma RecordedCount(h: Digests, g: State, d: Disk, i: int, count: nat)
    requires StartRecorded(h, g, d, i, count)
    ensures count > 0
  {
  }

  /** Nothing but a completion is admitted while reconciling. */
  lemma ReconcilingRefuses(h: Digests, g: State, w: World, s: Step)
    requires WorldInv(h, g, w) && Recovered(w.disk).state.body.status == ReconcilingCapabilities
    requires s.Call? && !s.op.FinishReconciliation? && RequestOf(w, s).Some?
    ensures !Admitted(h, Recovered(w.disk), RequestOf(w, s).value)
  {
    hide WorldInv, CommitUpTo, Prepare, Sound, EarlyOutcome;
    var d, q := Recovered(w.disk), RequestOf(w, s).value;
    CallIsSound(h, g, w, s);
    AdmittedNotRefused(h, d, q);
    if s.op.StartReconciliation? {
      ReconcileRequests(w.views[s.p], s.key, s.op.observationCount, 0);
    } else {
      ForeignOperations(s.op, w.views[s.p], s.key);
    }
  }

  /** A submission that is not admitted shows the state it found, or the one recovery leads to. */
  lemma SubmitShows(h: Digests, d: Disk, q: Request, z: Stamps, recoverPoints: nat, commitPoints: nat)
    requires Recoverable(h, d) && Recovered(d).journal.None? && !Admitted(h, Recovered(d), q)
    ensures var s := Submit(h, d, q, z, recoverPoints, commitPoints).0.state; s == d.state || s == Recovered(d).state
  {
    hide CommitAccepts, MatchingMessages, MatchingEvents, EarlyOutcome;
  }

  /** What a step other than a completion does to what can be read while reconciling. */
  lemma ReconcilingStep(h: Digests, g: State, w: World, s: Step)
    requires WorldInv(h, g, w) && Recovered(w.disk).state.body.status == ReconcilingCapabilities
    requires s.Call? ==> !s.op.FinishReconciliation?
    ensures var w' := ControlRuns.Next(h, w, s);
      && Recovered(w'.disk) == Recovered(w.disk)
      && (w'.disk.state == w.disk.state || w'.disk.state == Recovered(w.disk).state)
      && forall p :: p in w'.views ==>
           w'.views[p].state == w.disk.state || (p in w.views && w'.views[p].state == w.views[p].state)
  {
    hide Submit, CommitUpTo, Prepare, Admitted, Fresh, DiskInv, ViewInv, CommitAccepts, Extended, Sound;
    InvRecovers(h, g, w.disk);
    if s.Call? {
      if RequestOf(w, s).Some? && Fresh(Recovered(w.disk), s.z) {
        var q := RequestOf(w, s).value;
        ReconcilingRefuses(h, g, w, s);
        CallIsSound(h, g, w, s);
        SubmitIsAtomic(h, g, w.disk, q, s.z, s.recoverPoints, s.commitPoints);
        SubmitShows(h, w.disk, q, s.z, s.recoverPoints, s.commitPoints);
      }
    } else if s.Recover? && w.disk.journal.Some? {
      CommitKeepsInv(h, g, w.disk, s.points);
      CommitShows(w.disk, s.points);
    }
  }

  lemma CommitShows(d: Disk, points: nat)
    requires d.journal.Some? && Recovered(d).journal.None?
    ensures CommitUpTo(d, points).state == d.state || CommitUpTo(d, points).state == Recovered(d).state
  {
  }

  /** What every run keeps when nobody holds a state to replay a start from. */
  ghost predicate StrandedInv(h: Digests, g: State, r: Root) {
    WorldInv(h, g, r.core) && KeyLaw(h, g, Recovered(r.core.disk)) && Stranded(r) && !Held(h, g, r)
  }

  lemma StrandedCore(h: Digests, g: State, r: Root, s: Step)
    requires StrandedInv(h, g, r) && (s.Call? ==> !s.op.FinishReconciliation?)
    ensures StrandedInv(h, g, r.(core := ControlRuns.Next(h, r.core, s)))
  {
    hide WorldInv, KeyLaw, CommitUpTo, ControlRuns.Next, StartRecorded;
    var r' := r.(core := ControlRuns.Next(h, r.core, s));
    StepKeepsInv(h, g, r.core, s);
    ReconcilingStep(h, g, r.core, s);
    forall t: State, count: nat ensures StartedFrom(h, g, r', t, count) <==> StartedFrom(h, g, r, t, count) {}
    forall p | Holds(r', p) && p in r.core.views ensures Holds(r, p) {}
  }

  /** The moves of calls at work change neither the state nor who can complete. */
  lemma StrandedJobs(h: Digests, g: State, r: Root, m: Move)
    requires StrandedInv(h, g, r) && (m.ReadRegistry? || m.Observe? || m.WriteRegistry? || m.FinishCall? || m.Abort?)
    ensures StrandedInv(h, g, CapabilityRegistry.Next(h, r, m))
  {
    hide WorldInv, KeyLaw, CommitUpTo, ControlRuns.Next, StartRecorded, Apply, AllKnown;
    var r' := CapabilityRegistry.Next(h, r, m);
    assert AllKnown([]) by { EmptyBatch([], 0, 0, map[]); }
    if m.Observe? && m.p in r.jobs && r.jobs[m.p].Observing? && r.jobs[m.p].observations != [] {
      if Known(r.jobs[m.p].observations[0].layer) { KnownRest(r.jobs[m.p].observations); }
    }
    ForgetKeeps(h, g, r.core, m.p);
    assert r'.core.disk == r.core.disk;
    forall t: State, count: nat ensures StartedFrom(h, g, r', t, count) <==> StartedFrom(h, g, r, t, count) {}
    forall p | Holds(r', p) ensures Holds(r, p) && r'.core.views[p] == r.core.views[p] {}
  }

  lemma StrandedMove(h: Digests, g: State, r: Root, m: Move)
    requires StrandedInv(h, g, r)
    ensures StrandedInv(h, g, CapabilityRegistry.Next(h, r, m))
  {
    hide StrandedInv, CommitUpTo, ControlRuns.Next, OutcomeOf, ObserveNext, Proceeds;
    match m {
      case Other(s) => if Foreign(s) { StrandedCore(h, g, r, s); }
      case StartCall(p, _, _, _, _) =>
        if p !in r.jobs {
          StrandedCore(h, g, r, StartStep(r.core, m));
          if Proceeds(h, r, m) {
            StrandedParts(h, g, r);
            GoingOnIsHeld(h, g, r, m);
          }
        }
      case _ => StrandedJobs(h, g, r, m);
    }
  }

  lemma StrandedParts(h: Digests, g: State, r: Root)
    requires StrandedInv(h, g, r)
    ensures WorldInv(h, g, r.core) && KeyLaw(h, g, Recovered(r.core.disk)) && Reconciling(r) && !Held(h, g, r)
  {
  }

  /** Then the reconciliation is open for good, over every run. */
  lemma {:induction false} StrandedForever(h: Digests, g: State, r: Root, moves: seq<Move>)
    requires StrandedInv(h, g, r)
    ensures Reconciling(CapabilityRegistry.Run(h, r, moves))
    decreases |moves|
  {
    hide CapabilityRegistry.Next, StrandedInv, CommitUpTo;
    StrandedParts(h, g, r);
    if moves != [] {
      StrandedMove(h, g, r, moves[0]);
      StrandedForever(h, g, CapabilityRegistry.Next(h, r, moves[0]), moves[1..]);
    }
  }

  function KnownBatch(n: nat): seq<Observation> {
    seq(n, _ => Observation(OfficialClaim, "", "", None))
  }

  /** A process that holds such a state leads out, with any known batch of the recorded size. */
  lemma HolderLeadsOut(h: Digests, g: State, r: Root, p: Pid, count: nat) returns (moves: seq<Move>)
    requires RootInv(h, g, r) && Reconciling(r) && p !in r.jobs
    requires p in r.core.views && StartedFrom(h, g, r, r.core.views[p].state, count)
    ensures !Reconciling(CapabilityRegistry.Run(h, r, moves))
  {
    hide RootInv, CommitUpTo, CapabilityRegistry.Run, CapabilityRegistry.Next, WholeCall, Fresh, OutcomeOf, WorldInv,
         KeyLaw, Completable, Records, StartRecorded;
    RootCore(h, g, r);
    InvRecovers(h, g, r.core.disk) by { CoreDisk(h, g, r.core); }
    var z := FreshStamps(Recovered(r.core.disk));
    var m := StartCall(p, KnownBatch(count), z, COMMIT_POINTS, COMMIT_POINTS);
    StaleStartIsReplayed(h, g, r, m);
    ReplayedIsStale(h, g, r, m);
    StartCases(h, g, r, m);
    var started := CapabilityRegistry.Next(h, r, m);
    var z' := FreshStamps(started.core.disk);
    WholeCallRun(h, g, r, m, z');
    ReconcilingCompletable(h, g, started.core);
    var after := Current(CapabilityRegistry.Run(h, r, WholeCall(m, z')));
    CompletableIsActive(Current(started), r.registry.revision + 1, after);
    moves := WholeCall(m, z');
  }

  lemma CoreDisk(h: Digests, g: State, w: World)
    requires WorldInv(h, g, w)
    ensures DiskInv(h, g, w.disk)
  {
  }

  lemma CompletableIsActive(b: StateBody, revision: nat, b': StateBody)
    requires Completable(b) && CompletesTo(b, revision, b')
    ensures b'.status == Active
  {
  }

  lemma LeadsOut(h: Digests, g: State, r: Root) returns (moves: seq<Move>)
    requires RootInv(h, g, r) && Reconciling(r) && Held(h, g, r)
    ensures !Reconciling(CapabilityRegistry.Run(h, r, moves))
  {
    hide RootInv, CommitUpTo, CapabilityRegistry.Run, StartRecorded, CallDisk;
    if p, count: nat :| Holds(r, p) && StartedFrom(h, g, r, r.core.views[p].state, count) {
      moves := HolderLeadsOut(h, g, r, p, count);
    } else {
      // A new process reads what state.json still shows.
      var count: nat :| StartedFrom(h, g, r, r.core.disk.state, count);
      var p := UnusedPid(r.jobs.Keys);
      var read := Other(ReadState(p));
      var r1 := CapabilityRegistry.Next(h, r, read);
      MoveKeeps(h, g, r, read);
      RunOne(h, r, read);
      assert StartedFrom(h, g, r1, r1.core.views[p].state, count);
      var rest := HolderLeadsOut(h, g, r1, p, count);
      RunSplit(h, r, [read], rest);
      moves := [read] + rest;
    }
  }

  lemma {:induction false} PidsBelow(n: nat) returns (pids: set<Pid>)
    ensures |pids| == n && forall p: Pid :: p in pids <==> p < n
  {
    pids := {};
    if n > 0 {
      pids := PidsBelow(n - 1);
      pids := pids + {n - 1};
    }
  }

  lemma UnusedPid(used: set<Pid>) returns (p: Pid)
    ensures p !in used
  {
    var pids := PidsBelow(|used| + 1);
    if forall q :: q in pids ==> q in used {
      SubsetSize(pids, used);
    }
    p :| p in pids && p !in used;
  }

  /**
   * An open reconciliation that no call at work will complete can end if and only if some
   * process that has not submitted yet holds, or state.json still shows, a state from
   * which a reconciliation was started. Otherwise no run of any processes leads out of it.
   */
  lemma StrandedIff(h: Digests, g: State, r: Root)
    requires RootInv(h, g, r) && Stranded(r)
    ensures (exists moves :: !Reconciling(CapabilityRegistry.Run(h, r, moves))) <==> Held(h, g, r)
  {
    hide CapabilityRegistry.Run, Held, CommitUpTo, WorldInv, KeyLaw, RegistryInv;
    if Held(h, g, r) {
      var moves := LeadsOut(h, g, r);
    } else {
      forall moves ensures Reconciling(CapabilityRegistry.Run(h, r, moves)) { StrandedForever(h, g, r, moves); }
    }
  }

  /**
   * The layers are checked after the start has been committed: a batch with an unknown
   * layer leaves the reconciliation open with nobody to complete it.
   */
  lemma UnknownLayerStrands(h: Digests, g: State, r: Root, p: Pid)
    requires RootInv(h, g, r) && Reconciling(r) && p in r.jobs && r.jobs[p].Observing?
    requires forall q :: q in r.jobs && q != p ==> !CanComplete(r.jobs[q])
    ensures var r' := CapabilityRegistry.Run(h, r, Observes(p, |r.jobs[p].observations|));
      && RootInv(h, g, r')
      && (Stranded(r') <==> !AllKnown(r.jobs[p].observations))
  {
    hide RootInv, CapabilityRegistry.Run, CommitUpTo, Apply, ApplyAll, Records;
    ObservesStartNothing(p, |r.jobs[p].observations|);
    NoStartsOk(h, r, Observes(p, |r.jobs[p].observations|));
    RegistryIsCache(h, g, r, Observes(p, |r.jobs[p].observations|));
    ObservesRun(h, r, p);
    if AllKnown(r.jobs[p].observations) {
      assert p in Observed(r, p).jobs && CanComplete(Observed(r, p).jobs[p]);
    }
  }

  /** A call right to start, with a known batch and not killed, completes with an exact registry. */
  lemma KnownCallCompletes(h: Digests, g: State, r: Root, m: Move, z: Stamps)
    requires RootInv(h, g, r) && m.StartCall? && Proceeds(h, r, m) && StartOk(r, m) && AllKnown(m.obs)
    requires Fresh(CapabilityRegistry.Next(h, r, m).core.disk, z)
    ensures var r' := CapabilityRegistry.Run(h, r, WholeCall(m, z)); Current(r').status == Active && CacheExact(r')
  {
    hide WorldInv, KeyLaw, CommitUpTo, Fresh, Records, ApplyAll, CapabilityRegistry.Run, CapabilityRegistry.Next,
         FinishedUpTo, Proceeds, WholeCall, Completable, CacheExact, Fold;
    var started := CapabilityRegistry.Next(h, r, m);
    StartCases(h, g, r, m);
    WholeCallRun(h, g, r, m, z);
    ReconcilingCompletable(h, g, started.core);
    var after := Current(CapabilityRegistry.Run(h, r, WholeCall(m, z)));
    CompletableIsActive(Current(started), r.registry.revision + 1, after);
    WholeCallIff(h, g, r, m, z);
  }

  /** A call up to the end of its loop. */
  function UpToLoop(m: Move): seq<Move>
    requires m.StartCall?
  {
    [m] + ([ReadRegistry(m.p)] + Observes(m.p, |m.obs|))
  }

  /** What a lone call leaves once its loop is over. */
  lemma LoneLoop(h: Digests, g: State, r: Root, m: Move)
    requires RootInv(h, g, r) && r.jobs == map[] && m.StartCall?
    requires OutcomeOf(h, r.core, StartStep(r.core, m)).Accepted?
    ensures var r' := CapabilityRegistry.Run(h, r, UpToLoop(m));
      && RootInv(h, g, r') && Reconciling(r') && r'.core.disk.journal.None?
      && (Stranded(r') <==> !AllKnown(m.obs))
      && (AllKnown(m.obs) ==> r'.jobs.Keys == {m.p} && r'.jobs[m.p].Observing? && r'.jobs[m.p].observations == [])
      && (!AllKnown(m.obs) ==> r'.core.views.Keys <= r.core.views.Keys - {m.p})
  {
    hide RootInv, CommitUpTo, CapabilityRegistry.Run, CapabilityRegistry.Next, OutcomeOf, Records, ApplyAll, StartOk,
         WorldInv, KeyLaw, AllKnown;
    RootCore(h, g, r);
    AcceptedIsCurrent(h, g, r, m);
    MoveKeeps(h, g, r, m);
    StartCases(h, g, r, m);
    StartForgets(h, r, m);
    AcceptedReconciles(h, g, r, m);
    var started := CapabilityRegistry.Next(h, r, m);
    ReadMoves(h, started, m, ReadEpoch(r.core, m.p));
    MoveKeeps(h, g, started, ReadRegistry(m.p));
    var read := CapabilityRegistry.Next(h, started, ReadRegistry(m.p));
    RunSplit(h, r, [m], [ReadRegistry(m.p)] + Observes(m.p, |m.obs|));
    RunOne(h, r, m);
    RunSplit(h, started, [ReadRegistry(m.p)], Observes(m.p, |m.obs|));
    RunOne(h, started, ReadRegistry(m.p));
    UnknownLayerStrands(h, g, read, m.p);
    ObservesRun(h, read, m.p);
  }

  lemma StartForgets(h: Digests, r: Root, m: Move)
    requires m.StartCall? && m.p !in r.jobs
    ensures CapabilityRegistry.Next(h, r, m).core.views == r.core.views - {m.p}
  {
    hide CallDisk, OutcomeOf;
  }

  lemma AcceptedReconciles(h: Digests, g: State, r: Root, m: Move)
    requires WorldInv(h, g, r.core) && m.StartCall? && m.p !in r.jobs
    requires OutcomeOf(h, r.core, StartStep(r.core, m)).Accepted?
    ensures Reconciling(CapabilityRegistry.Next(h, r, m))
  {
    hide WorldInv, CommitUpTo, ControlRuns.Next, FindMessage, Prepare, Extended, OutcomeOf, Refusal;
    var s := StartStep(r.core, m);
    CallEffect(h, g, r.core, s);
    ReconcileRequests(r.core.views[m.p], s.key, |m.obs|, 0);
    ExtendedFacts(h, Recovered(r.core.disk), RequestOf(r.core, s).value, s.z);
  }

  /**
   * One process and no other: after the loop of its call the installation is reconciling
   * for good, whatever processes come and read afterwards, if and only if the batch has
   * an unknown layer.
   */
  lemma LoneCallStrandsIff(h: Digests, g: State, r: Root, m: Move)
    requires RootInv(h, g, r) && r.jobs == map[] && m.StartCall? && r.core.views.Keys <= {m.p}
    requires OutcomeOf(h, r.core, StartStep(r.core, m)).Accepted?
    ensures (forall moves :: Reconciling(CapabilityRegistry.Run(h, CapabilityRegistry.Run(h, r, UpToLoop(m)), moves)))
       <==> !AllKnown(m.obs)
  {
    hide RootInv, CommitUpTo, CapabilityRegistry.Run, CapabilityRegistry.Next, OutcomeOf, UpToLoop, StartRecorded,
         AllKnown, Doomed;
    LoneLoop(h, g, r, m);
    var r' := CapabilityRegistry.Run(h, r, UpToLoop(m));
    if AllKnown(m.obs) {
      var moves := JobLeadsOut(h, g, r', m.p);
    } else {
      StrandedIff(h, g, r');
    }
  }

  /** A call at the end of its loop writes the registry and completes. */
  lemma JobLeadsOut(h: Digests, g: State, r: Root, p: Pid) returns (moves: seq<Move>)
    requires RootInv(h, g, r) && Reconciling(r) && r.core.disk.journal.None?
    requires r.jobs.Keys == {p} && r.jobs[p].Observing? && r.jobs[p].observations == []
    ensures !Reconciling(CapabilityRegistry.Run(h, r, moves))
  {
    hide WorldInv, KeyLaw, CommitUpTo, CapabilityRegistry.Run, FinishedUpTo, Fresh, FindMessage, Rest, Completable,
         Records, ApplyAll, Fold;
    var job := r.jobs[p];
    assert AllKnown(job.observations) && JobExact(r, job);
    var z := FreshStamps(r.core.disk);
    FinishIsNew(r.core.disk.messages, Current(r).registryRevision, job.revision + 1);
    RestRun(h, g, r, p, z);
    ReconcilingCompletable(h, g, r.core);
    moves := Rest(p, 0, z);
  }
}

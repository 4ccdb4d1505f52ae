/**
 * `KernelStore`: the journal of accepted Kernel entries, the authenticated checkpoint
 * and the hash-chained effect ledger. The Kernel reducer is any function.
 */
module KernelStore {
  import opened Wrappers

  type Id = int
  type Digest = int

  datatype Obligation = AdapterCancel(detail: string) | OtherObligation(text: string)

  datatype AcceptedEvent = AcceptedEvent(eventId: Id, resultId: Id, resultDigest: Digest)

  /** Kernel State; `rest` stands for work items, suspension and control. */
  datatype State = State(revision: nat, acceptedEvents: seq<AcceptedEvent>, rest: int)

  datatype Event = Event(eventId: Id, body: int)

  datatype Accepted = Accepted(resultId: Id, state: State, resultDigest: Digest, obligations: seq<Obligation>)

  /** A canonical ReplayEntry with an accepted Result. */
  datatype Entry = Entry(event: Event, evidence: seq<int>, result: Accepted)

  datatype CheckpointRoot = CheckpointRoot(
    state: State, acceptedEntryCount: nat, prefixDigest: Digest, policyDigest: Digest)

  datatype Authentication = Authentication(statement: int)

  datatype EffectStatus = Fulfilled | BlockedEffect

  datatype EffectBody = EffectBody(
    effectId: Digest, obligation: Obligation, status: EffectStatus, proofRef: string, proofDigest: Digest,
    ledgerRevision: int, priorRecordDigest: Digest)

  datatype EffectRecord = EffectRecord(body: EffectBody, recordDigest: Digest)

  /** The reducer, the validity of roots and authentications, and the digests; all arbitrary. */
  datatype Kernel = Kernel(
    reduce: (State, Event, seq<int>) -> Option<Accepted>,
    genesisValid: State -> bool,
    authentic: (CheckpointRoot, Authentication) -> bool,
    prefixDigest: seq<Entry> -> Digest,
    effectId: Obligation -> Digest,
    recordDigest: EffectBody -> Digest,
    emptyLedgerDigest: Digest)

  datatype Store = Store(
    genesis: Option<State>, entries: seq<Entry>,
    checkpoint: Option<(CheckpointRoot, Authentication)>, effects: seq<EffectRecord>)

  // ---------------------------------------------------------------- replay

  datatype Replayed = Replayed(state: State, applied: seq<Digest>)

  /** The loop of `replay`: recompute each entry and compare its result. */
  function Replay(k: Kernel, s: State, es: seq<Entry>): Option<Replayed> {
    if es == [] then Some(Replayed(s, []))
    else
      var n := |es| - 1;
      var before := Replay(k, s, es[..n]);
      if before.None? then None
      else
        var r := k.reduce(before.value.state, es[n].event, es[n].evidence);
        if r != Some(es[n].result) then None
        else Some(Replayed(r.value.state, before.value.applied + [r.value.resultDigest]))
  }

  function GenesisReplay(k: Kernel, g: State, es: seq<Entry>): Option<Replayed> {
    if k.genesisValid(g) then Replay(k, g, es) else None
  }

  datatype Recovery = Recovery(replay: Replayed, usedCheckpoint: bool)

  /** The checkpoint stands for a prefix of this journal. */
  predicate CheckpointFits(k: Kernel, g: State, es: seq<Entry>, root: CheckpointRoot) {
    && root.acceptedEntryCount <= |es|
    && var prefix := es[..root.acceptedEntryCount];
    && root.prefixDigest == k.prefixDigest(prefix)
    && var r := GenesisReplay(k, g, prefix);
    && r.Some? && r.value.state == root.state
  }

  /** `_recover_unlocked`; None when it raises. */
  function Recover(k: Kernel, st: Store, es: seq<Entry>): Option<Recovery> {
    if st.genesis.None? then None
    else
      var g := st.genesis.value;
      var full := GenesisReplay(k, g, es);
      if full.None? then None
      else if st.checkpoint.None? then Some(Recovery(full.value, false))
      else
        var (root, auth) := st.checkpoint.value;
        if !CheckpointFits(k, g, es, root) || !k.authentic(root, auth) then None
        else
          var recovered := Replay(k, root.state, es[root.acceptedEntryCount..]);
          if recovered.None? || recovered.value.state != full.value.state then None
          else Some(Recovery(recovered.value, true))
  }

  // ---------------------------------------------------------------- journal and checkpoint writes

  function FindEntry(es: seq<Entry>, id: Id): Option<Entry> {
    if es == [] then None
    else if es[0].event.eventId == id then Some(es[0])
    else FindEntry(es[1..], id)
  }

  /** `initialize`. */
  function Initialize(k: Kernel, st: Store, g: State): Store {
    if k.genesisValid(g) && st.genesis.None? && st.entries == [] && st.checkpoint.None? && st.effects == []
    then st.(genesis := Some(g)) else st
  }

  /** `append`: one atomic replacement of the journal, or nothing. */
  function AppendEntry(k: Kernel, st: Store, e: Entry): Store {
    if st.genesis.None? || FindEntry(st.entries, e.event.eventId).Some? then st
    else if GenesisReplay(k, st.genesis.value, st.entries + [e]).None? then st
    else st.(entries := st.entries + [e])
  }

  /** `persist_checkpoint`. */
  function PersistCheckpoint(k: Kernel, st: Store, root: CheckpointRoot, auth: Authentication): Store {
    if st.genesis.Some? && CheckpointFits(k, st.genesis.value, st.entries, root) && k.authentic(root, auth)
    then st.(checkpoint := Some((root, auth))) else st
  }

  // ---------------------------------------------------------------- effects

  /** The obligations of the entries, each once, in the order they were first accepted. */
  function Dedup(seen: seq<Obligation>, os: seq<Obligation>): (r: seq<Obligation>)
    ensures seen <= r
  {
    if os == [] then seen
    else
      var r := Dedup(seen, os[..|os| - 1]);
      if os[|os| - 1] in r then r else r + [os[|os| - 1]]
  }

  /** `_accepted_obligations`. */
  function AcceptedObligations(es: seq<Entry>): seq<Obligation> {
    if es == [] then [] else Dedup(AcceptedObligations(es[..|es| - 1]), es[|es| - 1].result.obligations)
  }

  function PriorDigest(k: Kernel, rs: seq<EffectRecord>, i: nat): Digest
    requires i <= |rs|
  {
    if i == 0 then k.emptyLedgerDigest else rs[i - 1].recordDigest
  }

  /** The binding checks of `_load_effects` on one record. */
  predicate RecordLoads(k: Kernel, r: EffectRecord, revision: int, priorDigest: Digest) {
    && r.body.obligation.AdapterCancel?
    && r.body.effectId == k.effectId(r.body.obligation)
    && r.body.ledgerRevision == revision
    && r.body.priorRecordDigest == priorDigest
    && r.recordDigest == k.recordDigest(r.body)
  }

  /** `_load_effects` does not raise. */
  ghost predicate EffectsLoad(k: Kernel, rs: seq<EffectRecord>) {
    && (forall i: nat :: i < |rs| ==> RecordLoads(k, rs[i], i + 1, PriorDigest(k, rs, i)))
    && UniqueEffects(rs)
  }

  /** Record `i` is of a cancellation, carries its effect, its position and its digest, and names the one before. */
  predicate ChainedAt(k: Kernel, rs: seq<EffectRecord>, i: nat)
    requires i < |rs|
  {
    var b := rs[i].body;
    && b.obligation.AdapterCancel? && b.effectId == k.effectId(b.obligation) && b.ledgerRevision == i + 1
    && b.priorRecordDigest == (if i == 0 then k.emptyLedgerDigest else rs[i - 1].recordDigest)
    && rs[i].recordDigest == k.recordDigest(b)
  }

  /** The hash chain is intact, and no effect occurs twice. */
  ghost predicate Chained(k: Kernel, rs: seq<EffectRecord>) {
    && (forall i: nat :: i < |rs| ==> ChainedAt(k, rs, i))
    && (forall i, j :: 0 <= i < j < |rs| ==> rs[i].body.effectId != rs[j].body.effectId)
  }

  lemma EffectsLoadIff(k: Kernel, rs: seq<EffectRecord>)
    ensures EffectsLoad(k, rs) <==> Chained(k, rs)
  {
    forall i: nat | i < |rs|
      ensures RecordLoads(k, rs[i], i + 1, PriorDigest(k, rs, i)) <==> ChainedAt(k, rs, i)
    {
    }
  }

  function EffectIds(rs: seq<EffectRecord>): set<Digest> {
    set r | r in rs :: r.body.effectId
  }

  ghost predicate UniqueEffects(rs: seq<EffectRecord>) {
    forall i, j :: 0 <= i < j < |rs| ==> rs[i].body.effectId != rs[j].body.effectId
  }

  lemma UniqueEffectsStep(rs: seq<EffectRecord>, i: nat)
    requires i < |rs|
    ensures EffectIds(rs[..i + 1]) == EffectIds(rs[..i]) + {rs[i].body.effectId}
    ensures UniqueEffects(rs[..i + 1]) <==> UniqueEffects(rs[..i]) && rs[i].body.effectId !in EffectIds(rs[..i])
    ensures UniqueEffects(rs) ==> UniqueEffects(rs[..i + 1])
  {
    var prefix := rs[..i];
    assert rs[..i + 1] == prefix + [rs[i]];
    if UniqueEffects(rs[..i + 1]) {
      forall r | r in prefix ensures r.body.effectId != rs[i].body.effectId {
        var j :| 0 <= j < i && prefix[j] == r;
        assert rs[..i + 1][j] == r && rs[..i + 1][i] == rs[i];
      }
    }
  }

  function FindEffect(rs: seq<EffectRecord>, id: Digest): Option<EffectRecord> {
    if rs == [] then None else if rs[0].body.effectId == id then Some(rs[0]) else FindEffect(rs[1..], id)
  }

  /** The digests of the proof files under the proof root, if the store has one. */
  type Proofs = Option<map<string, Digest>>

  /** A proof file is there with the digest on record; without a proof root nobody looks. */
  predicate ProofHolds(proofs: Proofs, proofRef: string, proofDigest: Digest) {
    proofs.Some? ==> proofRef in proofs.value && proofs.value[proofRef] == proofDigest
  }

  /** `_validate_effect_proofs` does not raise. */
  predicate ProofsHold(proofs: Proofs, rs: seq<EffectRecord>) {
    forall r :: r in rs ==> ProofHolds(proofs, r.body.proofRef, r.body.proofDigest)
  }

  /** What `record_effect` is called with, and the proof files it finds. */
  datatype Effect = Effect(
    obligation: Obligation, status: EffectStatus, proofRef: string, proofDigest: Digest, proofs: Proofs)

  function NextRecord(k: Kernel, rs: seq<EffectRecord>, x: Effect): EffectRecord {
    var body := EffectBody(k.effectId(x.obligation), x.obligation, x.status, x.proofRef, x.proofDigest,
                           |rs| + 1, PriorDigest(k, rs, |rs|));
    EffectRecord(body, k.recordDigest(body))
  }

  /** `record_effect`: one atomic replacement of the ledger, or nothing. */
  function RecordEffect(k: Kernel, st: Store, x: Effect): Store {
    if !x.obligation.AdapterCancel? || !ProofHolds(x.proofs, x.proofRef, x.proofDigest)
       || Recover(k, st, st.entries).None? || x.obligation !in AcceptedObligations(st.entries)
    then st
    else if FindEffect(st.effects, k.effectId(x.obligation)).Some? then st
    else st.(effects := st.effects + [NextRecord(k, st.effects, x)])
  }

  /** `by_obligation`: the last record of an obligation. */
  function ByObligation(rs: seq<EffectRecord>): map<Obligation, EffectRecord> {
    if rs == [] then map[] else ByObligation(rs[..|rs| - 1])[rs[|rs| - 1].body.obligation := rs[|rs| - 1]]
  }

  datatype Reconciliation = Reconciliation(
    pending: seq<Obligation>, fulfilled: seq<EffectRecord>, blocked: seq<EffectRecord>)

  function Unrecorded(os: seq<Obligation>, recorded: map<Obligation, EffectRecord>): seq<Obligation> {
    if os == [] then []
    else
      var init, o := Unrecorded(os[..|os| - 1], recorded), os[|os| - 1];
      if o in recorded then init else init + [o]
  }

  function WithStatus(
      os: seq<Obligation>, recorded: map<Obligation, EffectRecord>, status: EffectStatus): seq<EffectRecord>
  {
    if os == [] then []
    else
      var init, o := WithStatus(os[..|os| - 1], recorded, status), os[|os| - 1];
      if o in recorded && recorded[o].body.status == status then init + [recorded[o]] else init
  }

  /** `_reconcile_effects_unlocked`; None when a record has no accepted obligation or its proof has changed. */
  function Reconcile(es: seq<Entry>, rs: seq<EffectRecord>, proofs: Proofs): Option<Reconciliation> {
    var os := AcceptedObligations(es);
    if (exists r :: r in rs && r.body.obligation !in os) || !ProofsHold(proofs, rs) then None
    else
      var recorded := ByObligation(rs);
      Some(Reconciliation(Unrecorded(os, recorded), WithStatus(os, recorded, Fulfilled),
                          WithStatus(os, recorded, BlockedEffect)))
  }

  // ---------------------------------------------------------------- replay lemmas

  /** Replay from the state of a prefix is replay of the whole, result digests included. */
  lemma {:induction false} ReplaySplits(k: Kernel, s: State, a: seq<Entry>, b: seq<Entry>)
    requires Replay(k, s, a).Some?
    ensures var whole, rest := Replay(k, s, a + b), Replay(k, Replay(k, s, a).value.state, b);
      && (whole.Some? <==> rest.Some?)
      && (whole.Some? ==> whole.value == Replayed(rest.value.state, Replay(k, s, a).value.applied + rest.value.applied))
    decreases |b|
  {
    if b == [] {
      assert a + b == a;
    } else {
      var n := |b| - 1;
      ReplaySplits(k, s, a, b[..n]);
      assert (a + b)[..|a + b| - 1] == a + b[..n];
    }
  }

  /** Every prefix of a replayable journal replays. */
  lemma {:induction false} PrefixReplays(k: Kernel, s: State, es: seq<Entry>, n: nat)
    requires Replay(k, s, es).Some? && n <= |es|
    ensures Replay(k, s, es[..n]).Some?
    decreases |es|
  {
    if n == |es| {
      assert es[..n] == es;
    } else {
      PrefixReplays(k, s, es[..|es| - 1], n);
      assert es[..|es| - 1][..n] == es[..n];
    }
  }

  /** The state entry `i` was accepted on: the root, or the result of the entry before. */
  function StateBefore(s: State, es: seq<Entry>, i: nat): State
    requires i <= |es|
  {
    if i == 0 then s else es[i - 1].result.state
  }

  /** The result of entry `i` is the one the reducer gives on the state of the entry before. */
  predicate ResultHolds(k: Kernel, s: State, es: seq<Entry>, i: nat)
    requires i < |es|
  {
    k.reduce(StateBefore(s, es, i), es[i].event, es[i].evidence) == Some(es[i].result)
  }

  /** Replay passes exactly if every result holds, and ends in the state of the last one. */
  lemma {:induction false} ReplayIff(k: Kernel, s: State, es: seq<Entry>)
    ensures Replay(k, s, es).Some? <==> forall i: nat :: i < |es| ==> ResultHolds(k, s, es, i)
    ensures Replay(k, s, es).Some? ==> Replay(k, s, es).value.state == StateBefore(s, es, |es|)
    decreases |es|
  {
    hide ResultHolds;
    if es != [] {
      var n := |es| - 1;
      ReplayIff(k, s, es[..n]);
      forall i: nat | i < n ensures ResultHolds(k, s, es[..n], i) <==> ResultHolds(k, s, es, i) {
        PrefixHolds(k, s, es, n, i);
      }
      LastHolds(k, s, es);
    }
  }

  lemma PrefixHolds(k: Kernel, s: State, es: seq<Entry>, n: nat, i: nat)
    requires i < n <= |es|
    ensures ResultHolds(k, s, es[..n], i) <==> ResultHolds(k, s, es, i)
  {
    assert StateBefore(s, es[..n], i) == StateBefore(s, es, i);
  }

  lemma LastHolds(k: Kernel, s: State, es: seq<Entry>)
    requires es != []
    ensures var n := |es| - 1;
      && StateBefore(s, es[..n], n) == StateBefore(s, es, n)
      && (ResultHolds(k, s, es, n) <==>
            k.reduce(StateBefore(s, es, n), es[n].event, es[n].evidence) == Some(es[n].result))
  {
  }

  /** What a replay returns as applied: the result digest of every entry, in order. */
  lemma {:induction false} AppliedIs(k: Kernel, s: State, es: seq<Entry>)
    requires Replay(k, s, es).Some?
    ensures |Replay(k, s, es).value.applied| == |es|
    ensures forall i :: 0 <= i < |es| ==> Replay(k, s, es).value.applied[i] == es[i].result.resultDigest
    decreases |es|
  {
    if es != [] { AppliedIs(k, s, es[..|es| - 1]); }
  }

  // ---------------------------------------------------------------- invariant

  /** No event identity is accepted twice. */
  ghost predicate UniqueEvents(es: seq<Entry>) {
    forall i, j :: 0 <= i < j < |es| ==> es[i].event.eventId != es[j].event.eventId
  }

  lemma {:induction false} FindEntrySpec(es: seq<Entry>, id: Id)
    ensures FindEntry(es, id).None? <==> forall i :: 0 <= i < |es| ==> es[i].event.eventId != id
    ensures FindEntry(es, id).Some? ==> FindEntry(es, id).value in es && FindEntry(es, id).value.event.eventId == id
  {
    if es != [] {
      FindEntrySpec(es[1..], id);
      assert es == [es[0]] + es[1..];
    }
  }

  ghost predicate JournalInv(k: Kernel, st: Store) {
    && UniqueEvents(st.entries)
    && (st.genesis.None? ==> st.entries == [] && st.checkpoint.None? && st.effects == [])
    && (st.genesis.Some? ==> GenesisReplay(k, st.genesis.value, st.entries).Some?)
    && (st.checkpoint.Some? ==>
          && CheckpointFits(k, st.genesis.value, st.entries, st.checkpoint.value.0)
          && k.authentic(st.checkpoint.value.0, st.checkpoint.value.1))
  }

  ghost predicate EffectsInv(k: Kernel, st: Store) {
    && EffectsLoad(k, st.effects)
    && (forall i :: 0 <= i < |st.effects| ==> st.effects[i].body.obligation in AcceptedObligations(st.entries))
  }

  /** A persisted checkpoint stays a valid prefix as the journal grows. */
  lemma CheckpointSurvivesAppend(k: Kernel, g: State, es: seq<Entry>, e: Entry, root: CheckpointRoot)
    requires CheckpointFits(k, g, es, root)
    ensures CheckpointFits(k, g, es + [e], root)
  {
    assert (es + [e])[..root.acceptedEntryCount] == es[..root.acceptedEntryCount];
  }

  lemma ObligationsGrow(es: seq<Entry>, e: Entry)
    ensures AcceptedObligations(es) <= AcceptedObligations(es + [e])
  {
    assert (es + [e])[..|es + [e]| - 1] == es;
  }

  /**
   * Recovery agrees with full replay: on every store the operations produce it never
   * raises and returns the state of replaying the whole journal from genesis, whether
   * or not a checkpoint is used. From a checkpoint, the applied results are the
   * suffix of the full ones.
   */
  lemma RecoverAgreesWithReplay(k: Kernel, st: Store)
    requires JournalInv(k, st) && st.genesis.Some?
    ensures var full, r := Replay(k, st.genesis.value, st.entries), Recover(k, st, st.entries);
      && r.Some? && r.value.usedCheckpoint == st.checkpoint.Some?
      && r.value.replay.state == full.value.state
      && (st.checkpoint.None? ==> r.value.replay == full.value)
      && (st.checkpoint.Some? ==>
            var count := st.checkpoint.value.0.acceptedEntryCount;
            var prefix := Replay(k, st.genesis.value, st.entries[..count]);
            full.value.applied == prefix.value.applied + r.value.replay.applied)
  {
    if st.checkpoint.Some? {
      var count := st.checkpoint.value.0.acceptedEntryCount;
      ReplaySplits(k, st.genesis.value, st.entries[..count], st.entries[count..]);
      assert st.entries[..count] + st.entries[count..] == st.entries;
    }
  }

  /**
   * When recovery succeeds, on a store of any origin: a valid genesis, results that all
   * hold, and a checkpoint, if there is one, that is authentic and has the digest and the
   * state of a prefix of the journal.
   */
  lemma RecoverIff(k: Kernel, st: Store, es: seq<Entry>)
    ensures Recover(k, st, es).Some? <==>
      && st.genesis.Some? && k.genesisValid(st.genesis.value)
      && (forall i: nat :: i < |es| ==> ResultHolds(k, st.genesis.value, es, i))
      && (st.checkpoint.Some? ==>
            var root := st.checkpoint.value.0;
            && k.authentic(root, st.checkpoint.value.1) && root.acceptedEntryCount <= |es|
            && root.prefixDigest == k.prefixDigest(es[..root.acceptedEntryCount])
            && root.state == StateBefore(st.genesis.value, es, root.acceptedEntryCount))
  {
    hide Replay, ResultHolds;
    if st.genesis.Some? {
      var g := st.genesis.value;
      ReplayIff(k, g, es);
      if Replay(k, g, es).Some? && st.checkpoint.Some? && st.checkpoint.value.0.acceptedEntryCount <= |es| {
        var n := st.checkpoint.value.0.acceptedEntryCount;
        PrefixReplays(k, g, es, n);
        ReplayIff(k, g, es[..n]);
        assert StateBefore(g, es[..n], n) == StateBefore(g, es, n);
        ReplaySplits(k, g, es[..n], es[n..]);
        assert es[..n] + es[n..] == es;
      }
    }
  }

  // ---------------------------------------------------------------- runs

  datatype Step =
    | InitializeStep(genesis: State)
    | AppendStep(entry: Entry)
    | CheckpointStep(root: CheckpointRoot, auth: Authentication)
    | EffectStep(effect: Effect)

  function Next(k: Kernel, st: Store, s: Step): Store {
    match s
    case InitializeStep(g) => Initialize(k, st, g)
    case AppendStep(e) => AppendEntry(k, st, e)
    case CheckpointStep(root, auth) => PersistCheckpoint(k, st, root, auth)
    case EffectStep(x) => RecordEffect(k, st, x)
  }

  function Run(k: Kernel, st: Store, steps: seq<Step>): Store
    decreases |steps|
  {
    if steps == [] then st else Run(k, Next(k, st, steps[0]), steps[1..])
  }

  lemma JournalStepKeeps(k: Kernel, st: Store, s: Step)
    requires JournalInv(k, st)
    ensures JournalInv(k, Next(k, st, s))
  {
    if s.AppendStep? { FindEntrySpec(st.entries, s.entry.event.eventId); }
    if s.AppendStep? && st.checkpoint.Some? {
      CheckpointSurvivesAppend(k, st.genesis.value, st.entries, s.entry, st.checkpoint.value.0);
    }
    if s.InitializeStep? { assert Replay(k, s.genesis, []).Some?; }
  }

  lemma {:induction false} FindEffectSpec(rs: seq<EffectRecord>, id: Digest)
    ensures FindEffect(rs, id).None? <==> forall i :: 0 <= i < |rs| ==> rs[i].body.effectId != id
    ensures FindEffect(rs, id).Some? ==>
      exists i :: 0 <= i < |rs| && rs[i] == FindEffect(rs, id).value && rs[i].body.effectId == id
  {
    if rs != [] {
      FindEffectSpec(rs[1..], id);
      assert rs == [rs[0]] + rs[1..];
    }
  }

  /** The ledger extended by the next record still loads. */
  lemma RecordKeepsChain(k: Kernel, rs: seq<EffectRecord>, x: Effect)
    requires EffectsLoad(k, rs) && x.obligation.AdapterCancel? && FindEffect(rs, k.effectId(x.obligation)).None?
    ensures EffectsLoad(k, rs + [NextRecord(k, rs, x)])
  {
    FindEffectSpec(rs, k.effectId(x.obligation));
    var rs' := rs + [NextRecord(k, rs, x)];
    forall i: nat | i < |rs'| ensures RecordLoads(k, rs'[i], i + 1, PriorDigest(k, rs', i)) {
      assert PriorDigest(k, rs', i) == PriorDigest(k, rs, i);
      if i < |rs| { assert RecordLoads(k, rs[i], i + 1, PriorDigest(k, rs, i)); }
    }
  }

  lemma EffectStepKeeps(k: Kernel, st: Store, s: Step)
    requires JournalInv(k, st) && EffectsInv(k, st)
    ensures EffectsInv(k, Next(k, st, s))
    ensures st.effects <= Next(k, st, s).effects && st.entries <= Next(k, st, s).entries
  {
    match s {
      case AppendStep(e) => ObligationsGrow(st.entries, e);
      case EffectStep(x) => if Next(k, st, s) != st { RecordKeepsChain(k, st.effects, x); }
      case _ =>
    }
  }

  /** What every interleaving of the operations keeps: neither ledger loses a record, and both stay loadable. */
  lemma {:induction false} RunKeeps(k: Kernel, st: Store, steps: seq<Step>)
    requires JournalInv(k, st) && EffectsInv(k, st)
    ensures var st' := Run(k, st, steps);
      JournalInv(k, st') && EffectsInv(k, st') && st.effects <= st'.effects && st.entries <= st'.entries
    decreases |steps|
  {
    if steps != [] {
      JournalStepKeeps(k, st, steps[0]);
      EffectStepKeeps(k, st, steps[0]);
      RunKeeps(k, Next(k, st, steps[0]), steps[1..]);
    }
  }

  const EMPTY := Store(None, [], None, [])

  /** In every run from an empty store, recovery succeeds and agrees with full genesis replay. */
  lemma RunRecovers(k: Kernel, steps: seq<Step>)
    requires Run(k, EMPTY, steps).genesis.Some?
    ensures var st := Run(k, EMPTY, steps);
      && Recover(k, st, st.entries).Some?
      && Replay(k, st.genesis.value, st.entries).Some?
      && Recover(k, st, st.entries).value.replay.state == Replay(k, st.genesis.value, st.entries).value.state
  {
    RunKeeps(k, EMPTY, steps);
    RecoverAgreesWithReplay(k, Run(k, EMPTY, steps));
  }

  // ---------------------------------------------------------------- when a write is accepted

  /** A store is initialized exactly if the genesis is valid and nothing has been written yet. */
  lemma InitializeIff(k: Kernel, st: Store, g: State)
    requires JournalInv(k, st)
    ensures Initialize(k, st, g) == if st.genesis.None? && k.genesisValid(g) then st.(genesis := Some(g)) else st
  {
  }

  /** No entry of the journal has this event identity. */
  predicate NewEvent(es: seq<Entry>, id: Id) {
    forall i :: 0 <= i < |es| ==> es[i].event.eventId != id
  }

  /**
   * An entry is appended exactly if its event identity is new and its result is the one
   * the reducer gives for it on the last accepted state.
   */
  lemma AppendIff(k: Kernel, st: Store, e: Entry)
    requires JournalInv(k, st)
    ensures AppendEntry(k, st, e) ==
      if && st.genesis.Some? && NewEvent(st.entries, e.event.eventId)
         && k.reduce(StateBefore(st.genesis.value, st.entries, |st.entries|), e.event, e.evidence) == Some(e.result)
      then st.(entries := st.entries + [e]) else st
  {
    hide Replay, FindEntry, CheckpointFits;
    FindEntrySpec(st.entries, e.event.eventId);
    if st.genesis.Some? {
      var g, es := st.genesis.value, st.entries + [e];
      ReplayIff(k, g, st.entries);
      assert es[..|es| - 1] == st.entries;
      ReplayStep(k, g, es);
    }
  }

  lemma ReplayStep(k: Kernel, s: State, es: seq<Entry>)
    requires es != []
    ensures var n := |es| - 1;
      Replay(k, s, es).Some? <==>
        && Replay(k, s, es[..n]).Some?
        && k.reduce(Replay(k, s, es[..n]).value.state, es[n].event, es[n].evidence) == Some(es[n].result)
  {
  }

  /** Some accepted entry obliges to this. */
  ghost predicate Obliged(es: seq<Entry>, o: Obligation) {
    exists i :: 0 <= i < |es| && o in es[i].result.obligations
  }

  /** No record of the ledger is of this effect. */
  predicate NewEffect(rs: seq<EffectRecord>, id: Digest) {
    forall i :: 0 <= i < |rs| ==> rs[i].body.effectId != id
  }

  /**
   * An effect is recorded exactly if its obligation is an adapter cancellation of some
   * accepted entry, its proof is in place, and its effect has no record yet.
   */
  lemma RecordIff(k: Kernel, st: Store, x: Effect)
    requires JournalInv(k, st)
    ensures RecordEffect(k, st, x) ==
      if && x.obligation.AdapterCancel? && Obliged(st.entries, x.obligation)
         && ProofHolds(x.proofs, x.proofRef, x.proofDigest) && NewEffect(st.effects, k.effectId(x.obligation))
      then st.(effects := st.effects + [NextRecord(k, st.effects, x)]) else st
  {
    hide Recover, FindEffect, AcceptedObligations, ProofHolds, Replay;
    ObligationsDistinct(st.entries);
    FindEffectSpec(st.effects, k.effectId(x.obligation));
    if st.genesis.Some? { RecoverAgreesWithReplay(k, st); }
  }

  /** A record holds what it was made for, its place in the ledger and the digest of the record before. */
  lemma NextRecordIs(k: Kernel, rs: seq<EffectRecord>, x: Effect)
    ensures var r := NextRecord(k, rs, x);
      && r.body.obligation == x.obligation && r.body.status == x.status
      && r.body.proofRef == x.proofRef && r.body.proofDigest == x.proofDigest
      && RecordLoads(k, r, |rs| + 1, if rs == [] then k.emptyLedgerDigest else rs[|rs| - 1].recordDigest)
         == x.obligation.AdapterCancel?
  {
  }

  // ---------------------------------------------------------------- reconciliation

  ghost predicate Distinct(os: seq<Obligation>) {
    forall i, j :: 0 <= i < j < |os| ==> os[i] != os[j]
  }

  lemma {:induction false} DedupDistinct(seen: seq<Obligation>, os: seq<Obligation>)
    requires Distinct(seen)
    ensures Distinct(Dedup(seen, os))
    ensures forall o :: o in Dedup(seen, os) <==> o in seen || o in os
    decreases |os|
  {
    if os != [] {
      DedupDistinct(seen, os[..|os| - 1]);
      assert os == os[..|os| - 1] + [os[|os| - 1]];
    }
  }

  /** The deduplicated obligations are distinct, and are those of some accepted entry. */
  lemma {:induction false} ObligationsDistinct(es: seq<Entry>)
    ensures Distinct(AcceptedObligations(es))
    ensures forall o :: o in AcceptedObligations(es) <==>
      exists i :: 0 <= i < |es| && o in es[i].result.obligations
  {
    if es != [] {
      var init := es[..|es| - 1];
      ObligationsDistinct(init);
      DedupDistinct(AcceptedObligations(init), es[|es| - 1].result.obligations);
      assert forall i :: 0 <= i < |init| ==> init[i] == es[i];
    }
  }

  lemma ObligationsUnique(k: Kernel, rs: seq<EffectRecord>)
    requires EffectsLoad(k, rs)
    ensures forall i: nat :: i < |rs| ==> rs[i].body.effectId == k.effectId(rs[i].body.obligation)
    ensures forall i, j :: 0 <= i < j < |rs| ==> rs[i].body.obligation != rs[j].body.obligation
  {
    forall i: nat | i < |rs| ensures rs[i].body.effectId == k.effectId(rs[i].body.obligation) {
      assert RecordLoads(k, rs[i], i + 1, PriorDigest(k, rs, i));
    }
  }

  lemma {:induction false} ByObligationSpec(rs: seq<EffectRecord>)
    requires forall i, j :: 0 <= i < j < |rs| ==> rs[i].body.obligation != rs[j].body.obligation
    ensures forall i :: 0 <= i < |rs| ==>
      rs[i].body.obligation in ByObligation(rs) && ByObligation(rs)[rs[i].body.obligation] == rs[i]
    ensures forall o :: o in ByObligation(rs) ==> ByObligation(rs)[o] in rs && ByObligation(rs)[o].body.obligation == o
  {
    if rs != [] {
      ByObligationSpec(rs[..|rs| - 1]);
      assert rs == rs[..|rs| - 1] + [rs[|rs| - 1]];
    }
  }

  function ObligationsOf(rs: seq<EffectRecord>): seq<Obligation> {
    if rs == [] then [] else ObligationsOf(rs[..|rs| - 1]) + [rs[|rs| - 1].body.obligation]
  }

  lemma ObligationsOfAppend(rs: seq<EffectRecord>, r: EffectRecord)
    ensures ObligationsOf(rs + [r]) == ObligationsOf(rs) + [r.body.obligation]
  {
    assert (rs + [r])[..|rs + [r]| - 1] == rs;
  }

  /** Three lists hold the elements of `os` between them, with multiplicity. */
  ghost predicate Partition(u: seq<Obligation>, f: seq<Obligation>, b: seq<Obligation>, os: seq<Obligation>) {
    multiset(u) + multiset(f) + multiset(b) == multiset(os)
  }

  lemma PartitionGrows(u: seq<Obligation>, f: seq<Obligation>, b: seq<Obligation>, os: seq<Obligation>, o: Obligation)
    requires Partition(u, f, b, os)
    ensures Partition(u + [o], f, b, os + [o])
    ensures Partition(u, f + [o], b, os + [o]) && Partition(u, f, b + [o], os + [o])
  {
  }

  lemma UnrecordedStep(os: seq<Obligation>, recorded: map<Obligation, EffectRecord>, o: Obligation)
    ensures Unrecorded(os + [o], recorded) ==
      if o in recorded then Unrecorded(os, recorded) else Unrecorded(os, recorded) + [o]
  {
    assert (os + [o])[..|os + [o]| - 1] == os;
  }

  lemma WithStatusStep(
      os: seq<Obligation>, recorded: map<Obligation, EffectRecord>, o: Obligation, status: EffectStatus)
    requires o in recorded ==> recorded[o].body.obligation == o
    ensures ObligationsOf(WithStatus(os + [o], recorded, status)) ==
      if o in recorded && recorded[o].body.status == status then ObligationsOf(WithStatus(os, recorded, status)) + [o]
      else ObligationsOf(WithStatus(os, recorded, status))
  {
    assert (os + [o])[..|os + [o]| - 1] == os;
    if o in recorded { ObligationsOfAppend(WithStatus(os, recorded, status), recorded[o]); }
  }

  /** Pending, fulfilled and blocked split the obligations: nothing is lost, nothing counted twice. */
  lemma {:induction false} PartitionOf(os: seq<Obligation>, recorded: map<Obligation, EffectRecord>)
    requires forall o :: o in recorded ==> recorded[o].body.obligation == o
    ensures Partition(Unrecorded(os, recorded), ObligationsOf(WithStatus(os, recorded, Fulfilled)),
                      ObligationsOf(WithStatus(os, recorded, BlockedEffect)), os)
  {
    hide Partition, Unrecorded, WithStatus, ObligationsOf;
    if os == [] {
      PartitionOfNone(recorded);
    } else {
      PartitionOf(os[..|os| - 1], recorded);
      PartitionStep(os[..|os| - 1], recorded, os[|os| - 1]);
      assert os == os[..|os| - 1] + [os[|os| - 1]];
    }
  }

  lemma PartitionOfNone(recorded: map<Obligation, EffectRecord>)
    ensures Partition(Unrecorded([], recorded), ObligationsOf(WithStatus([], recorded, Fulfilled)),
                      ObligationsOf(WithStatus([], recorded, BlockedEffect)), [])
  {
  }

  lemma PartitionStep(os: seq<Obligation>, recorded: map<Obligation, EffectRecord>, o: Obligation)
    requires o in recorded ==> recorded[o].body.obligation == o
    requires Partition(Unrecorded(os, recorded), ObligationsOf(WithStatus(os, recorded, Fulfilled)),
                       ObligationsOf(WithStatus(os, recorded, BlockedEffect)), os)
    ensures Partition(Unrecorded(os + [o], recorded), ObligationsOf(WithStatus(os + [o], recorded, Fulfilled)),
                      ObligationsOf(WithStatus(os + [o], recorded, BlockedEffect)), os + [o])
  {
    hide Partition, Unrecorded, WithStatus, ObligationsOf;
    UnrecordedStep(os, recorded, o);
    WithStatusStep(os, recorded, o, Fulfilled);
    WithStatusStep(os, recorded, o, BlockedEffect);
    PartitionGrows(Unrecorded(os, recorded), ObligationsOf(WithStatus(os, recorded, Fulfilled)),
                   ObligationsOf(WithStatus(os, recorded, BlockedEffect)), os, o);
  }

  /** `part` is `whole` with some elements left out. */
  predicate InOrder(part: seq<Obligation>, whole: seq<Obligation>)
    decreases |whole|
  {
    if part == [] then true
    else if whole == [] then false
    else if part[|part| - 1] == whole[|whole| - 1] then InOrder(part[..|part| - 1], whole[..|whole| - 1])
    else InOrder(part, whole[..|whole| - 1])
  }

  lemma {:induction false} LeavingOutMore(part: seq<Obligation>, whole: seq<Obligation>)
    requires InOrder(part, whole) && part != []
    ensures InOrder(part[..|part| - 1], whole)
    decreases |whole|
  {
    var init := whole[..|whole| - 1];
    if part[|part| - 1] == whole[|whole| - 1] {
      if |part| > 1 && part[|part| - 2] == whole[|whole| - 1] {
        LeavingOutMore(part[..|part| - 1], init);
      }
    } else {
      LeavingOutMore(part, init);
      if |part| > 1 && part[|part| - 2] == whole[|whole| - 1] {
        LeavingOutMore(part[..|part| - 1], init);
      }
    }
  }

  /** An element may be left out of the whole or kept in both. */
  lemma InOrderGrows(part: seq<Obligation>, whole: seq<Obligation>, o: Obligation)
    requires InOrder(part, whole)
    ensures InOrder(part, whole + [o]) && InOrder(part + [o], whole + [o])
  {
    assert (whole + [o])[..|whole + [o]| - 1] == whole && (part + [o])[..|part + [o]| - 1] == part;
    if part != [] { LeavingOutMore(part, whole); }
  }

  /** Each of the three lists keeps the order of acceptance. */
  lemma {:induction false} AcceptanceOrder(os: seq<Obligation>, recorded: map<Obligation, EffectRecord>)
    requires forall o :: o in recorded ==> recorded[o].body.obligation == o
    ensures InOrder(Unrecorded(os, recorded), os)
    ensures InOrder(ObligationsOf(WithStatus(os, recorded, Fulfilled)), os)
    ensures InOrder(ObligationsOf(WithStatus(os, recorded, BlockedEffect)), os)
  {
    hide InOrder;
    if os == [] {
      NothingInOrder();
    } else {
      var init, o := os[..|os| - 1], os[|os| - 1];
      assert os == init + [o];
      AcceptanceOrder(init, recorded);
      UnrecordedStep(init, recorded, o);
      WithStatusStep(init, recorded, o, Fulfilled);
      WithStatusStep(init, recorded, o, BlockedEffect);
      InOrderGrows(Unrecorded(init, recorded), init, o);
      InOrderGrows(ObligationsOf(WithStatus(init, recorded, Fulfilled)), init, o);
      InOrderGrows(ObligationsOf(WithStatus(init, recorded, BlockedEffect)), init, o);
    }
  }

  lemma NothingInOrder()
    ensures InOrder([], [])
  {
  }

  /**
   * Conservation: in every run the effect ledger loads, reconciliation succeeds exactly
   * when the proof files are as they were recorded, and its three lists partition the
   * deduplicated obligations, each in the order of acceptance.
   */
  lemma RunReconciles(k: Kernel, steps: seq<Step>, proofs: Proofs)
    ensures var st := Run(k, EMPTY, steps);
      var os, r := AcceptedObligations(st.entries), Reconcile(st.entries, st.effects, proofs);
      && EffectsLoad(k, st.effects)
      && (r.Some? <==> ProofsHold(proofs, st.effects))
      && (r.Some? ==>
            && Partition(r.value.pending, ObligationsOf(r.value.fulfilled), ObligationsOf(r.value.blocked), os)
            && InOrder(r.value.pending, os) && InOrder(ObligationsOf(r.value.fulfilled), os)
            && InOrder(ObligationsOf(r.value.blocked), os))
  {
    hide Partition, InOrder, ObligationsOf, Unrecorded, WithStatus, AcceptedObligations, ByObligation, ProofsHold;
    RunKeeps(k, EMPTY, steps);
    var st := Run(k, EMPTY, steps);
    ObligationsUnique(k, st.effects);
    ByObligationSpec(st.effects);
    PartitionOf(AcceptedObligations(st.entries), ByObligation(st.effects));
    AcceptanceOrder(AcceptedObligations(st.entries), ByObligation(st.effects));
  }

  lemma {:induction false} UnrecordedIs(os: seq<Obligation>, recorded: map<Obligation, EffectRecord>, o: Obligation)
    ensures o in Unrecorded(os, recorded) <==> o in os && o !in recorded
  {
    if os != [] {
      UnrecordedIs(os[..|os| - 1], recorded, o);
      assert os == os[..|os| - 1] + [os[|os| - 1]];
    }
  }

  lemma {:induction false} WithStatusIs(
      os: seq<Obligation>, recorded: map<Obligation, EffectRecord>, status: EffectStatus, r: EffectRecord)
    ensures r in WithStatus(os, recorded, status) <==>
      r.body.status == status && exists o :: o in os && o in recorded && recorded[o] == r
  {
    if os != [] {
      WithStatusIs(os[..|os| - 1], recorded, status, r);
      assert os == os[..|os| - 1] + [os[|os| - 1]];
    }
  }

  /**
   * What reconciliation reports, on a ledger that loads: pending are the accepted
   * obligations without a record, and fulfilled and blocked are the records by status.
   */
  lemma ReconcileIs(k: Kernel, es: seq<Entry>, rs: seq<EffectRecord>, proofs: Proofs, o: Obligation, r: EffectRecord)
    requires EffectsLoad(k, rs) && Reconcile(es, rs, proofs).Some?
    ensures var c := Reconcile(es, rs, proofs).value;
      && (o in c.pending <==> Obliged(es, o) && forall i :: 0 <= i < |rs| ==> rs[i].body.obligation != o)
      && (r in c.fulfilled <==> r in rs && r.body.status == Fulfilled)
      && (r in c.blocked <==> r in rs && r.body.status == BlockedEffect)
  {
    hide Unrecorded, WithStatus, AcceptedObligations, ByObligation, EffectsLoad;
    var os, recorded := AcceptedObligations(es), ByObligation(rs);
    ObligationsUnique(k, rs);
    ByObligationSpec(rs);
    ObligationsDistinct(es);
    UnrecordedIs(os, recorded, o);
    WithStatusIs(os, recorded, Fulfilled, r);
    WithStatusIs(os, recorded, BlockedEffect, r);
    if r in rs {
      var i :| 0 <= i < |rs| && rs[i] == r;
      assert recorded[r.body.obligation] == r;
    }
  }

  /** Reconciliation raises exactly if a record has no accepted obligation or its proof has changed. */
  lemma ReconcilesIff(es: seq<Entry>, rs: seq<EffectRecord>, proofs: Proofs)
    ensures Reconcile(es, rs, proofs).Some? <==>
      forall r :: r in rs ==>
        && Obliged(es, r.body.obligation)
        && (proofs.Some? ==> r.body.proofRef in proofs.value && proofs.value[r.body.proofRef] == r.body.proofDigest)
  {
    hide Unrecorded, WithStatus, AcceptedObligations, ByObligation;
    ObligationsDistinct(es);
  }

  /** `o` struck from a list, the order of the others kept. */
  function Strike(os: seq<Obligation>, o: Obligation): seq<Obligation> {
    if os == [] then []
    else if os[|os| - 1] == o then Strike(os[..|os| - 1], o)
    else Strike(os[..|os| - 1], o) + [os[|os| - 1]]
  }

  lemma StrikeAppend(os: seq<Obligation>, last: Obligation, o: Obligation)
    ensures Strike(os + [last], o) == if last == o then Strike(os, o) else Strike(os, o) + [last]
  {
    assert (os + [last])[..|os + [last]| - 1] == os;
  }

  lemma {:induction false} RecordingStrikes(
      os: seq<Obligation>, recorded: map<Obligation, EffectRecord>, o: Obligation, r: EffectRecord)
    requires o !in recorded
    ensures Unrecorded(os, recorded[o := r]) == Strike(Unrecorded(os, recorded), o)
    ensures forall status :: status != r.body.status ==>
      WithStatus(os, recorded[o := r], status) == WithStatus(os, recorded, status)
  {
    if os != [] {
      var init, last := os[..|os| - 1], os[|os| - 1];
      RecordingStrikes(init, recorded, o, r);
      StrikeAppend(Unrecorded(init, recorded), last, o);
    }
  }

  /**
   * A new recording takes exactly its own obligation out of pending, keeps the order
   * of the rest, enters the list of its status and leaves the other list alone.
   */
  lemma RecordingMovesOne(k: Kernel, st: Store, x: Effect)
    requires JournalInv(k, st) && EffectsInv(k, st) && ProofsHold(x.proofs, st.effects)
    requires RecordEffect(k, st, x) != st
    ensures var st', record := RecordEffect(k, st, x), NextRecord(k, st.effects, x);
      var before, after := Reconcile(st.entries, st.effects, x.proofs), Reconcile(st'.entries, st'.effects, x.proofs);
      && before.Some? && after.Some?
      && var r, r' := before.value, after.value;
      && x.obligation in r.pending
      && r'.pending == Strike(r.pending, x.obligation)
      && (x.status == Fulfilled ==> record in r'.fulfilled && r'.blocked == r.blocked)
      && (x.status == BlockedEffect ==> record in r'.blocked && r'.fulfilled == r.fulfilled)
  {
    hide Recover, JournalInv, AcceptedObligations, EffectsLoad, FindEffect, Unrecorded, WithStatus, Strike;
    var st', record, o := RecordEffect(k, st, x), NextRecord(k, st.effects, x), x.obligation;
    EffectStepKeeps(k, st, EffectStep(x));
    assert st'.effects[..|st'.effects| - 1] == st.effects;
    NotYetRecorded(k, st.effects, o);
    var os, recorded := AcceptedObligations(st.entries), ByObligation(st.effects);
    RecordingStrikes(os, recorded, o, record);
    UnrecordedMember(os, recorded, o);
    RecordedMember(os, recorded[o := record], o);
  }

  lemma {:induction false} RecordedMember(os: seq<Obligation>, recorded: map<Obligation, EffectRecord>, o: Obligation)
    requires o in os && o in recorded
    ensures recorded[o] in WithStatus(os, recorded, recorded[o].body.status)
  {
    if os[|os| - 1] != o {
      assert os == os[..|os| - 1] + [os[|os| - 1]];
      RecordedMember(os[..|os| - 1], recorded, o);
    }
  }

  lemma NotYetRecorded(k: Kernel, rs: seq<EffectRecord>, o: Obligation)
    requires EffectsLoad(k, rs) && FindEffect(rs, k.effectId(o)).None?
    ensures o !in ByObligation(rs)
  {
    ObligationsUnique(k, rs);
    ByObligationSpec(rs);
    FindEffectSpec(rs, k.effectId(o));
    assert forall r :: r in rs ==> r.body.obligation != o;
  }

  lemma {:induction false} UnrecordedMember(os: seq<Obligation>, recorded: map<Obligation, EffectRecord>, o: Obligation)
    requires o in os && o !in recorded
    ensures o in Unrecorded(os, recorded)
  {
    if os[|os| - 1] != o {
      assert os == os[..|os| - 1] + [os[|os| - 1]];
      UnrecordedMember(os[..|os| - 1], recorded, o);
    }
  }

  /** Once recorded, an obligation keeps its record, and so its status, in every later run. */
  lemma StatusIsFinal(k: Kernel, st: Store, steps: seq<Step>, o: Obligation)
    requires JournalInv(k, st) && EffectsInv(k, st) && o in ByObligation(st.effects)
    ensures o in ByObligation(Run(k, st, steps).effects)
         && ByObligation(Run(k, st, steps).effects)[o] == ByObligation(st.effects)[o]
  {
    hide Run, JournalInv, AcceptedObligations, ByObligation, RecordLoads;
    RunKeeps(k, st, steps);
    var rs, rs' := st.effects, Run(k, st, steps).effects;
    ObligationsUnique(k, rs);
    ByObligationSpec(rs);
    ObligationsUnique(k, rs');
    ByObligationSpec(rs');
    var i: nat :| i < |rs| && rs[i] == ByObligation(rs)[o];
    assert rs'[i] == rs[i];
  }
}

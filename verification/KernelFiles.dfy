/** The Kernel store as an object over its four files, its loops proved against `KernelStore`. */
module KernelFiles {
  import opened Wrappers
  import opened KernelStore

  datatype AppendResult = Appended(recovery: Recovery) | AlreadyPresent(recovery: Recovery) | Conflict | Invalid

  datatype RecordResult = Recorded(record: EffectRecord) | PriorRecord(record: EffectRecord) | EffectConflict | Refused

  /** `replay` from a root state. */
  method ReplayEntries(k: Kernel, s: State, es: seq<Entry>) returns (r: Option<Replayed>)
    ensures r == Replay(k, s, es)
  {
    var current, applied := s, [];
    for i := 0 to |es|
      invariant Replay(k, s, es[..i]) == Some(Replayed(current, applied))
    {
      assert es[..i + 1][..i] == es[..i];
      var recomputed := k.reduce(current, es[i].event, es[i].evidence);
      if recomputed != Some(es[i].result) {
        if Replay(k, s, es).Some? { PrefixReplays(k, s, es, i + 1); }
        return None;
      }
      current, applied := recomputed.value.state, applied + [recomputed.value.resultDigest];
    }
    assert es[..|es|] == es;
    r := Some(Replayed(current, applied));
  }

  class KernelFileStore {
    const k: Kernel
    var genesis: Option<State>
    var entries: seq<Entry>
    var checkpoint: Option<(CheckpointRoot, Authentication)>
    var effects: seq<EffectRecord>

    function Snapshot(): Store
      reads this
    {
      Store(genesis, entries, checkpoint, effects)
    }

    constructor (k: Kernel)
      ensures this.k == k && Snapshot() == EMPTY
    {
      this.k := k;
      genesis, entries, checkpoint, effects := None, [], None, [];
    }

    /** `_recover_unlocked` on a journal that is, or is about to be, on disk. */
    method RecoverEntries(es: seq<Entry>) returns (r: Option<Recovery>)
      ensures r == Recover(k, Snapshot(), es)
    {
      if genesis.None? || !k.genesisValid(genesis.value) { return None; }
      var full := ReplayEntries(k, genesis.value, es);
      if full.None? { return None; }
      if checkpoint.None? { return Some(Recovery(full.value, false)); }
      var (root, auth) := checkpoint.value;
      if root.acceptedEntryCount > |es| { return None; }
      var prefix := es[..root.acceptedEntryCount];
      if root.prefixDigest != k.prefixDigest(prefix) { return None; }
      var prefixReplay := ReplayEntries(k, genesis.value, prefix);
      if prefixReplay.None? || prefixReplay.value.state != root.state || !k.authentic(root, auth) { return None; }
      var recovered := ReplayEntries(k, root.state, es[root.acceptedEntryCount..]);
      if recovered.None? || recovered.value.state != full.value.state { return None; }
      r := Some(Recovery(recovered.value, true));
    }

    /** `append`: an exact retry is a no-op, a reused event identity a conflict. */
    method Append(e: Entry) returns (r: AppendResult)
      requires JournalInv(k, Snapshot())
      modifies this`entries
      ensures Snapshot() == AppendEntry(k, old(Snapshot()), e)
      ensures JournalInv(k, Snapshot())
      ensures entries == if r.Appended? then old(entries) + [e] else old(entries)
      ensures r.Appended? <==>
        && genesis.Some? && NewEvent(old(entries), e.event.eventId)
        && k.reduce(StateBefore(genesis.value, old(entries), |old(entries)|), e.event, e.evidence) == Some(e.result)
      ensures r.AlreadyPresent? <==> genesis.Some? && e in old(entries)
      ensures r.Conflict? <==> genesis.Some? && e !in old(entries) && !NewEvent(old(entries), e.event.eventId)
      ensures r.Appended? || r.AlreadyPresent? ==>
        r.recovery.replay.state == Replay(k, genesis.value, entries).value.state
    {
      JournalStepKeeps(k, Snapshot(), AppendStep(e));
      AppendIff(k, Snapshot(), e);
      FindEntrySpec(entries, e.event.eventId);
      if genesis.None? { return Invalid; }
      RecoverAgreesWithReplay(k, Snapshot());
      var found := FindById(e.event.eventId);
      if found.Some? {
        if found.value != e { return Conflict; }
        var recovery := RecoverEntries(entries);
        return AlreadyPresent(recovery.value);
      }
      var replayed := ReplayEntries(k, genesis.value, entries + [e]);
      if !k.genesisValid(genesis.value) || replayed.None? { return Invalid; }
      entries := entries + [e];
      RecoverAgreesWithReplay(k, Snapshot());
      var recovery := RecoverEntries(entries);
      r := Appended(recovery.value);
    }

    method FindById(id: Id) returns (found: Option<Entry>)
      ensures found == FindEntry(entries, id)
    {
      for i := 0 to |entries|
        invariant FindEntry(entries, id) == FindEntry(entries[i..], id)
      {
        assert entries[i..][1..] == entries[i + 1..];
        if entries[i].event.eventId == id { return Some(entries[i]); }
      }
      found := None;
    }

    /** `_load_effects`. */
    method LoadEffects() returns (ok: bool)
      ensures ok <==> EffectsLoad(k, effects)
      ensures ok <==> Chained(k, effects)
    {
      hide Chained, RecordLoads, UniqueEffects;
      EffectsLoadIff(k, effects);
      var priorDigest := k.emptyLedgerDigest;
      for i := 0 to |effects|
        invariant priorDigest == PriorDigest(k, effects, i)
        invariant forall j: nat :: j < i ==> RecordLoads(k, effects[j], j + 1, PriorDigest(k, effects, j))
      {
        if !RecordLoads(k, effects[i], i + 1, priorDigest) { return false; }
        priorDigest := effects[i].recordDigest;
      }
      ok := NoDuplicateEffect();
    }

    method NoDuplicateEffect() returns (ok: bool)
      ensures ok <==> UniqueEffects(effects)
    {
      var ids: set<Digest> := {};
      for i := 0 to |effects|
        invariant ids == EffectIds(effects[..i]) && UniqueEffects(effects[..i])
      {
        UniqueEffectsStep(effects, i);
        if effects[i].body.effectId in ids { return false; }
        ids := ids + {effects[i].body.effectId};
      }
      assert effects[..|effects|] == effects;
      ok := true;
    }

    /** `_accepted_obligations`: two nested loops over a list and a set. */
    method ListObligations() returns (obligations: seq<Obligation>)
      ensures obligations == AcceptedObligations(entries)
    {
      obligations := [];
      var seen: set<Obligation> := {};
      for i := 0 to |entries|
        invariant obligations == AcceptedObligations(entries[..i])
        invariant seen == set o | o in obligations
      {
        var os := entries[i].result.obligations;
        ghost var before := obligations;
        for j := 0 to |os|
          invariant obligations == Dedup(before, os[..j])
          invariant seen == set o | o in obligations
        {
          assert os[..j + 1][..j] == os[..j];
          if os[j] !in seen {
            obligations, seen := obligations + [os[j]], seen + {os[j]};
          }
        }
        assert os[..|os|] == os;
        assert entries[..i + 1][..i] == entries[..i];
      }
      assert entries[..|entries|] == entries;
    }

    /** `record_effect`. */
    method Record(x: Effect) returns (r: RecordResult)
      requires JournalInv(k, Snapshot()) && EffectsInv(k, Snapshot())
      modifies this`effects
      ensures Snapshot() == RecordEffect(k, old(Snapshot()), x)
      ensures EffectsInv(k, Snapshot())
      ensures effects == if r.Recorded? then old(effects) + [NextRecord(k, old(effects), x)] else old(effects)
      ensures r.Recorded? <==>
        && x.obligation.AdapterCancel? && Obliged(entries, x.obligation)
        && ProofHolds(x.proofs, x.proofRef, x.proofDigest) && NewEffect(old(effects), k.effectId(x.obligation))
      ensures r.Recorded? || r.PriorRecord? ==>
        && r.record in effects && r.record.body.obligation == x.obligation && r.record.body.status == x.status
        && r.record.body.proofRef == x.proofRef && r.record.body.proofDigest == x.proofDigest
        && ProofHolds(x.proofs, x.proofRef, x.proofDigest)
    {
      hide JournalInv, EffectsInv, Recover, AcceptedObligations, FindEffect;
      var o := x.obligation;
      EffectStepKeeps(k, Snapshot(), EffectStep(x));
      RecordIff(k, Snapshot(), x);
      if !o.AdapterCancel? || !ProofHolds(x.proofs, x.proofRef, x.proofDigest) { return Refused; }
      var recovery := RecoverEntries(entries);
      var obligations := ListObligations();
      if recovery.None? || o !in obligations { return Refused; }
      var prior := FindByEffect(k.effectId(o));
      if prior.Some? {
        FindEffectSpec(effects, k.effectId(o));
        var b := prior.value.body;
        if b.obligation == o && b.status == x.status && b.proofRef == x.proofRef && b.proofDigest == x.proofDigest {
          return PriorRecord(prior.value);
        }
        return EffectConflict;
      }
      var candidate := NextRecord(k, effects, x);
      effects := effects + [candidate];
      r := Recorded(candidate);
    }

    method FindByEffect(id: Digest) returns (found: Option<EffectRecord>)
      ensures found == FindEffect(effects, id)
    {
      for i := 0 to |effects|
        invariant FindEffect(effects, id) == FindEffect(effects[i..], id)
      {
        assert effects[i..][1..] == effects[i + 1..];
        if effects[i].body.effectId == id { return Some(effects[i]); }
      }
      found := None;
    }

    /** `persist_checkpoint`. */
    method SaveCheckpoint(root: CheckpointRoot, auth: Authentication) returns (ok: bool)
      requires JournalInv(k, Snapshot())
      modifies this`checkpoint
      ensures Snapshot() == PersistCheckpoint(k, old(Snapshot()), root, auth)
      ensures JournalInv(k, Snapshot())
      ensures checkpoint == if ok then Some((root, auth)) else old(checkpoint)
      ensures ok <==>
        && genesis.Some? && k.authentic(root, auth) && root.acceptedEntryCount <= |entries|
        && root.prefixDigest == k.prefixDigest(entries[..root.acceptedEntryCount])
        && root.state == StateBefore(genesis.value, entries, root.acceptedEntryCount)
    {
      JournalStepKeeps(k, Snapshot(), CheckpointStep(root, auth));
      if genesis.None? || !k.genesisValid(genesis.value) || root.acceptedEntryCount > |entries| { return false; }
      var prefix := entries[..root.acceptedEntryCount];
      if root.prefixDigest != k.prefixDigest(prefix) { return false; }
      PrefixReplays(k, genesis.value, entries, root.acceptedEntryCount);
      ReplayIff(k, genesis.value, prefix);
      assert StateBefore(genesis.value, prefix, |prefix|) == StateBefore(genesis.value, entries, |prefix|);
      var replayed := ReplayEntries(k, genesis.value, prefix);
      if replayed.None? || replayed.value.state != root.state || !k.authentic(root, auth) { return false; }
      checkpoint := Some((root, auth));
      ok := true;
    }
  }
}

/**
 * `InstallationCore` as the source has it: an object over the files of the control
 * root. Each assignment to a field is one atomic file replacement, and every method
 * is proved against the functions of `TransitionJournal` and `LedgerReplay`.
 */
module InstallationControl {
  import opened Wrappers
  import opened ControlTypes
  import opened TransitionContract
  import opened TransitionJournal
  import opened LedgerReplay

  lemma NoEventsYet(es: seq<Event>)
    requires es == []
    ensures OneToOne(es) && Referenced(es) == {} && EventIds(es) == {}
  {
  }

  class InstallationCore {
    const h: Digests
    var messages: seq<Message>
    var events: seq<Event>
    var state: State
    var installation: Installation
    var journal: Option<Journal>

    /** What is on disk. */
    function Snapshot(): Disk
      reads this
    {
      Disk(messages, events, state, installation, journal)
    }

    /** The files `init` creates before it submits the first transition. */
    constructor (h: Digests, installationId: Id, now: Timestamp)
      ensures this.h == h
      ensures exists g: State :: g.body.installationId == installationId && Consistent(h, g, Snapshot())
      ensures events == [] && messages == []
    {
      this.h := h;
      messages, events, journal := [], [], None;
      state := Seal(h, EmptyState(installationId, now).body);
      installation := Installation(installationId, Stable030, 0, Uninitialized, now);
      new;
      assert Consistent(h, state, Snapshot());
    }

    /** `_commit_transition_journal_unlocked`, killed after `points` of its write points. */
    method CommitJournal(points: nat) returns (accepted: bool)
      requires journal.Some?
      modifies this
      ensures accepted == old(CommitAccepts(h, Snapshot()) && (SameInstallation(Snapshot()) || points < 4))
      ensures Snapshot() == old(if CommitAccepts(h, Snapshot()) then CommitUpTo(Snapshot(), points) else Snapshot())
    {
      var j := journal.value;
      accepted := CommitAccepts(h, Snapshot());
      if !accepted || points == 0 { return; }
      if MatchingMessages(messages, j.body.message.body.messageId) == [] {
        messages := messages + [j.body.message];
      }
      if points == 1 { return; }
      if MatchingEvents(events, j.body.event.body.eventId) == [] {
        events := events + [j.body.event];
      }
      if points == 2 { return; }
      if state != j.body.nextState {
        state := j.body.nextState;
      }
      if points == 3 { return; }
      if installation != j.body.installation {
        if installation.installationId != j.body.installation.installationId { return false; }
        installation := j.body.installation;
      }
      if points == 4 { return; }
      journal := None;
    }

    /** `_find_message`: the first ledger record with this key. */
    method FindByKey(key: string) returns (found: Option<Message>)
      ensures found == FindMessage(messages, key)
    {
      for i := 0 to |messages|
        invariant FindMessage(messages, key) == FindMessage(messages[i..], key)
      {
        assert messages[i..][1..] == messages[i + 1..];
        if messages[i].body.idempotencyKey == key {
          return Some(messages[i]);
        }
      }
      found := None;
    }

    /** `_transition_unlocked`, killed in recovery or after `commitPoints` writes of its own. */
    method Transition(q: Request, z: Stamps, recoverPoints: nat, commitPoints: nat) returns (r: Outcome)
      modifies this
      ensures (Snapshot(), r) == old(Submit(h, Snapshot(), q, z, recoverPoints, commitPoints))
    {
      if journal.Some? {
        var recovered := CommitJournal(recoverPoints);
        if !recovered { return Refused(RegistryInconsistent); }
        if recoverPoints < COMMIT_POINTS { return Killed; }
      }
      assert Snapshot() == old(Recovered(Snapshot()));
      var existing := FindByKey(q.idempotencyKey);
      if existing.Some? {
        if existing.value.body.contentDigest != h.content(ContentOf(q)) {
          return Refused(IdempotencyConflict);
        }
        return Replayed(existing.value.body.result);
      }
      if state.projectionDigest != h.state(state.body) { return Refused(RegistryInconsistent); }
      var refusal := Refusal(state.body, q);
      if refusal.Some? { return Refused(refusal.value); }
      if commitPoints == 0 { return Killed; }
      journal := Some(BuildJournal(h, Snapshot(), q, z));
      var result := journal.value.body.message.body.result;
      var accepted := CommitJournal(commitPoints - 1);
      if !accepted { return Refused(RegistryInconsistent); }
      r := if commitPoints - 1 >= COMMIT_POINTS then Accepted(result) else Killed;
    }

    /** The first loop of `replay`: message sequence, digests and unique identifiers. */
    method IndexMessages() returns (ok: bool, byId: map<Id, Message>)
      ensures ok <==>
        && (forall i: nat :: i < |messages| ==> MessageReplays(h, messages[i], i))
        && (forall i, j :: 0 <= i < j < |messages| ==> messages[i].body.messageId != messages[j].body.messageId)
      ensures ok ==> byId == ById(messages)
    {
      byId := map[];
      for i := 0 to |messages|
        invariant byId == ById(messages[..i])
        invariant byId.Keys == set k | 0 <= k < i :: messages[k].body.messageId
        invariant forall k: nat :: k < i ==> MessageReplays(h, messages[k], k)
        invariant forall k, l :: 0 <= k < l < i ==> messages[k].body.messageId != messages[l].body.messageId
      {
        var m := messages[i];
        if !MessageReplays(h, m, i) || m.body.messageId in byId {
          return false, byId;
        }
        byId := byId[m.body.messageId := m];
        assert messages[..i + 1][..i] == messages[..i];
      }
      assert messages[..|messages|] == messages;
      ok := true;
    }

    /** The second loop of `replay`: the state the events lead to, and the messages they accept. */
    method ReplayEvents(byId: map<Id, Message>, now: Timestamp)
        returns (ok: bool, current: State, referenced: set<Id>)
      requires byId == ById(messages)
      ensures ok <==> EventsReplay(h, Snapshot(), now)
      ensures ok ==> current == ReplayedAt(h, Snapshot(), now, |events|) && referenced == Referenced(events)
    {
      hide EventReplays, OneToOne, Referenced, EventIds;
      NoEventsYet(events[..0]);
      current := EmptyState(installation.installationId, now);
      var previousDigest: Option<Digest> := None;
      var previousRevision := 0;
      var eventIds: set<Id> := {};
      referenced := {};
      ghost var d := Snapshot();
      for i := 0 to |events|
        invariant current == ReplayedAt(h, d, now, i)
        invariant previousDigest == current.body.lastEventDigest && previousRevision == current.body.revision
        invariant eventIds == EventIds(events[..i]) && referenced == Referenced(events[..i])
        invariant OneToOne(events[..i])
        invariant forall k: nat :: k < i ==> EventReplaysAt(h, d, now, k)
      {
        var e := events[i];
        OneToOneStep(events, i);
        if e.body.eventId in eventIds || e.body.acceptedMessageId in referenced {
          return false, current, referenced;
        }
        eventIds, referenced := eventIds + {e.body.eventId}, referenced + {e.body.acceptedMessageId};
        var replays := ReplayEvent(byId, e, current, previousDigest, previousRevision, i);
        assert replays == EventReplaysAt(h, d, now, i);
        if !replays { return false, current, referenced; }
        current, previousDigest, previousRevision := StateAfter(h, e), Some(e.eventDigest), e.body.newRevision;
      }
      assert events[..|events|] == events;
      ok := true;
    }

    /** `replay`. */
    method Replay(now: Timestamp) returns (r: Option<State>)
      ensures r == if ReplayAccepts(h, Snapshot(), now) then Some(state) else None
    {
      if journal.Some? { return None; }
      var indexed, byId := IndexMessages();
      if !indexed { return None; }
      var ok, current, referenced := ReplayEvents(byId, now);
      if !ok || referenced != byId.Keys { return None; }
      if events == [] { current := Seal(h, current.body); }
      if state.projectionDigest != h.state(state.body) || state != current { return None; }
      r := Some(current);
    }

    /** The body of `replay`'s second loop. */
    method ReplayEvent(byId: map<Id, Message>, e: Event, current: State,
                       previousDigest: Option<Digest>, previousRevision: int, i: nat) returns (ok: bool)
      requires previousDigest == current.body.lastEventDigest && previousRevision == current.body.revision
      ensures ok == EventReplays(h, byId, e, current, i)
      ensures ok ==> StateAfter(h, e).body.revision == e.body.newRevision
    {
      if e.body.installationSequence != i + 1 || e.body.acceptedMessageId !in byId { return false; }
      var m, p := byId[e.body.acceptedMessageId].body, e.body.stateProjection;
      if m.eventId != e.body.eventId || e.body.priorEventDigest != previousDigest || e.eventDigest != h.event(e.body) {
        return false;
      }
      if !Validate(m, e.body, p.body, current.body, true) { return false; }
      ok := && p.projectionDigest == h.state(p.body)
            && e.body.priorRevision == previousRevision
            && e.body.newRevision == previousRevision + 1
            && p.body.revision == e.body.newRevision
            && p.body.lastEventId == Some(e.body.eventId)
            && p.body.lastEventDigest == e.body.priorEventDigest
            && p.body.updatedAt == e.body.occurredAt
            && p.body.installationId == e.body.installationId
            && m.expectedStateRevision == e.body.priorRevision
            && m.senderPrincipalId == e.body.actorPrincipalId
            && m.leaderEpoch == e.body.leaderEpoch
            && m.contentDigest == h.content(MessageContent(m))
            && e.body.payload == m.payload
            && m.result == TransitionResult(m.messageId, e.body.eventId, e.body.newRevision, p.body.status);
    }
  }
}

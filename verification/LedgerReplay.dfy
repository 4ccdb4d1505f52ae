/** `replay()`: the state derived from the two ledgers alone, and its agreement with state.json. */
module LedgerReplay {
  import opened Wrappers
  import opened ControlTypes
  import opened TransitionContract
  import opened TransitionJournal

  /** `message_by_id`. */
  function ById(ms: seq<Message>): map<Id, Message> {
    if ms == [] then map[]
    else ById(ms[..|ms| - 1])[ms[|ms| - 1].body.messageId := ms[|ms| - 1]]
  }

  predicate MessageReplays(h: Digests, m: Message, i: nat) {
    m.body.installationSequence == i + 1 && m.messageDigest == h.message(m.body)
  }

  /** The checks on event number `i`, replayed against the state `current`. */
  predicate EventReplays(h: Digests, byId: map<Id, Message>, e: Event, current: State, i: nat) {
    && e.body.installationSequence == i + 1
    && e.body.acceptedMessageId in byId
    && var m := byId[e.body.acceptedMessageId].body;
    var p := e.body.stateProjection;
    && m.eventId == e.body.eventId
    && e.body.priorEventDigest == current.body.lastEventDigest
    && e.eventDigest == h.event(e.body)
    && Validate(m, e.body, p.body, current.body, true)
    && p.projectionDigest == h.state(p.body)
    && e.body.priorRevision == current.body.revision
    && e.body.newRevision == current.body.revision + 1
    && p.body.revision == e.body.newRevision
    && p.body.lastEventId == Some(e.body.eventId)
    && p.body.lastEventDigest == e.body.priorEventDigest
    && p.body.updatedAt == e.body.occurredAt
    && p.body.installationId == e.body.installationId
    && m.expectedStateRevision == e.body.priorRevision
    && m.senderPrincipalId == e.body.actorPrincipalId
    && m.leaderEpoch == e.body.leaderEpoch
    && m.contentDigest == h.content(MessageContent(m))
    && e.body.payload == m.payload
    && m.result == TransitionResult(m.messageId, e.body.eventId, e.body.newRevision, p.body.status)
  }

  /** The replayed state before event number `i`; the empty state reads the clock. */
  function ReplayedAt(h: Digests, d: Disk, now: Timestamp, i: nat): State
    requires i <= |d.events|
  {
    if i == 0 then EmptyState(d.installation.installationId, now) else StateAfter(h, d.events[i - 1])
  }

  predicate EventReplaysAt(h: Digests, d: Disk, now: Timestamp, i: nat)
    requires i < |d.events|
  {
    EventReplays(h, ById(d.messages), d.events[i], ReplayedAt(h, d, now, i), i)
  }

  /** Every event replays, and no event identity or accepted message occurs twice. */
  ghost predicate EventsReplay(h: Digests, d: Disk, now: Timestamp) {
    && (forall i: nat :: i < |d.events| ==> EventReplaysAt(h, d, now, i))
    && OneToOne(d.events)
  }

  ghost predicate OneToOne(es: seq<Event>) {
    forall i, j :: 0 <= i < j < |es| ==>
      && es[i].body.eventId != es[j].body.eventId
      && es[i].body.acceptedMessageId != es[j].body.acceptedMessageId
  }

  /** `replay()` raises nothing: what it demands of the ledgers and of state.json. */
  ghost predicate ReplayAccepts(h: Digests, d: Disk, now: Timestamp) {
    var n := |d.events|;
    && d.journal.None?
    && (forall i: nat :: i < |d.messages| ==> MessageReplays(h, d.messages[i], i))
    && (forall i, j :: 0 <= i < j < |d.messages| ==> d.messages[i].body.messageId != d.messages[j].body.messageId)
    && EventsReplay(h, d, now)
    && Referenced(d.events) == ById(d.messages).Keys
    && d.state.projectionDigest == h.state(d.state.body)
    && d.state == if n == 0 then Seal(h, ReplayedAt(h, d, now, 0).body) else ReplayedAt(h, d, now, n)
  }

  function Referenced(es: seq<Event>): set<Id> {
    set e | e in es :: e.body.acceptedMessageId
  }

  function EventIds(es: seq<Event>): set<Id> {
    set e | e in es :: e.body.eventId
  }

  /** Adding an event keeps the ledger one-to-one exactly when both its identities are new. */
  lemma OneToOneStep(es: seq<Event>, i: nat)
    requires i < |es|
    ensures Referenced(es[..i + 1]) == Referenced(es[..i]) + {es[i].body.acceptedMessageId}
    ensures EventIds(es[..i + 1]) == EventIds(es[..i]) + {es[i].body.eventId}
    ensures OneToOne(es[..i + 1]) <==>
      && OneToOne(es[..i])
      && es[i].body.eventId !in EventIds(es[..i])
      && es[i].body.acceptedMessageId !in Referenced(es[..i])
    ensures OneToOne(es) ==> OneToOne(es[..i + 1])
  {
    var prefix := es[..i];
    assert es[..i + 1] == prefix + [es[i]];
    if OneToOne(es[..i + 1]) {
      forall e | e in prefix
        ensures e.body.eventId != es[i].body.eventId && e.body.acceptedMessageId != es[i].body.acceptedMessageId
      {
        var k :| 0 <= k < i && prefix[k] == e;
        assert es[..i + 1][k] == e && es[..i + 1][i] == es[i];
      }
    }
  }

  lemma {:induction false} ByIdSpec(ms: seq<Message>)
    requires forall i, j :: 0 <= i < j < |ms| ==> ms[i].body.messageId != ms[j].body.messageId
    ensures forall i :: 0 <= i < |ms| ==> ms[i].body.messageId in ById(ms) && ById(ms)[ms[i].body.messageId] == ms[i]
    ensures ById(ms).Keys == set m | m in ms :: m.body.messageId
  {
    if ms != [] {
      ByIdSpec(ms[..|ms| - 1]);
      assert ms == ms[..|ms| - 1] + [ms[|ms| - 1]];
    }
  }

  /** One record of agreeing ledgers replays, whichever clock reading the empty state carries. */
  lemma LinkedReplays(h: Digests, g: State, d: Disk, now: Timestamp, i: nat)
    requires Consistent(h, g, d) && i < |d.events|
    ensures EventReplaysAt(h, d, now, i)
  {
    ByIdSpec(d.messages);
    assert LinkedAt(h, g, d.messages, d.events, i);
    var m, e, prior := d.messages[i].body, d.events[i].body, StateAt(h, g, d.events, i).body;
    assert ById(d.messages)[m.messageId] == d.messages[i];
    StrictImpliesLegacy(m, e, e.stateProjection.body, prior);
    ValidateIgnoresStamps(m, e, e.stateProjection.body, prior, true, None, None, now);
  }

  lemma LinkedMessageReplays(h: Digests, g: State, d: Disk, i: nat)
    requires Consistent(h, g, d) && i < |d.messages|
    ensures MessageReplays(h, d.messages[i], i)
  {
    assert LinkedAt(h, g, d.messages, d.events, i);
  }

  lemma PersistedStateReplays(h: Digests, g: State, d: Disk, now: Timestamp)
    requires Consistent(h, g, d) && d.events != []
    ensures ReplayedAt(h, d, now, |d.events|) == d.state && d.state.projectionDigest == h.state(d.state.body)
  {
  }

  lemma AcceptedInOrder(h: Digests, g: State, d: Disk)
    requires Consistent(h, g, d)
    ensures forall i :: 0 <= i < |d.events| ==> d.events[i].body.acceptedMessageId == d.messages[i].body.messageId
  {
    forall i: nat | i < |d.events|
      ensures d.events[i].body.acceptedMessageId == d.messages[i].body.messageId
    {
      assert LinkedAt(h, g, d.messages, d.events, i);
    }
  }

  lemma ReferencedAll(h: Digests, g: State, d: Disk)
    requires Consistent(h, g, d)
    ensures Referenced(d.events) == ById(d.messages).Keys
  {
    ByIdSpec(d.messages);
    AcceptedInOrder(h, g, d);
    forall id | id in ById(d.messages).Keys
      ensures id in Referenced(d.events)
    {
      var i :| 0 <= i < |d.messages| && d.messages[i].body.messageId == id;
      assert d.events[i] in d.events;
    }
  }

  /**
   * Replay refines the incremental state: on every consistent disk that holds an
   * event, replay accepts both ledgers and derives exactly the persisted state.
   */
  lemma ReplayRefines(h: Digests, g: State, d: Disk, now: Timestamp)
    requires Consistent(h, g, d) && d.events != []
    ensures ReplayAccepts(h, d, now)
    ensures ReplayedAt(h, d, now, |d.events|) == d.state
  {
    forall i: nat | i < |d.events| { LinkedReplays(h, g, d, now, i); }
    forall i: nat | i < |d.messages| { LinkedMessageReplays(h, g, d, i); }
    AcceptedInOrder(h, g, d);
    ReferencedAll(h, g, d);
    PersistedStateReplays(h, g, d, now);
  }

  /** Before the first event, replay compares the clock: it accepts only if the second has not changed. */
  lemma ReplayOfEmptyLedgers(h: Digests, g: State, d: Disk, now: Timestamp)
    requires Consistent(h, g, d) && d.events == []
    ensures ReplayAccepts(h, d, now) <==> now == g.body.updatedAt
  {
    assert ById(d.messages).Keys == {};
  }

  /** What replay proves of ledgers it did not write: an unbroken digest chain, contiguous revisions, legal steps. */
  lemma ReplaySound(h: Digests, d: Disk, now: Timestamp, i: nat)
    requires ReplayAccepts(h, d, now) && i < |d.events|
    ensures ReplayedAt(h, d, now, i + 1).body.revision == ReplayedAt(h, d, now, i).body.revision + 1
    ensures d.events[i].body.priorEventDigest == if i == 0 then None else Some(d.events[i - 1].eventDigest)
    ensures LegalStep(ReplayedAt(h, d, now, i).body.status, d.events[i].body.eventKind,
                      ReplayedAt(h, d, now, i + 1).body.status, true)
  {
    assert EventReplaysAt(h, d, now, i);
  }

  /** What replay leaves unchecked about the `i`-th message and event. */
  ghost predicate UncheckedAt(h: Digests, g: State, d: Disk, i: nat)
    requires i < |d.events| == |d.messages|
  {
    var m, e, prior := d.messages[i].body, d.events[i].body, StateAt(h, g, d.events, i).body;
    && e.acceptedMessageId == m.messageId
    && m.leaderEpoch == prior.activeLeaderEpoch
    && m.resultRevision == i + 1
    && m.installationId == e.installationId
    && (e.eventKind == LeaderRestartRequested ==>
          && prior.status != Blocked
          && (m.payload.selectedLeader.Some? ==> m.payload.selectedLeader.value == prior.selectedLeader))
  }

  /**
   * All that stands between ledgers that replay accepts and consistent ones: the messages
   * stand in the order of their events, under distinct idempotency keys, each with the
   * epoch in force, its own revision and installation, and no restart uses the tolerance
   * for old ledgers.
   */
  ghost predicate Unchecked(h: Digests, g: State, d: Disk) {
    && |d.messages| == |d.events|
    && (forall i: nat :: i < |d.events| ==> UncheckedAt(h, g, d, i))
    && (forall i, j :: 0 <= i < j < |d.messages| ==>
          d.messages[i].body.idempotencyKey != d.messages[j].body.idempotencyKey)
  }

  /** The state that `init` wrote for this installation, whenever that was. */
  ghost predicate GenesisOf(h: Digests, g: State, d: Disk) {
    IsGenesis(h, g) && g.body.installationId == d.installation.installationId
  }

  lemma {:induction false} ReplayCounts(h: Digests, d: Disk, now: Timestamp, i: nat)
    requires ReplayAccepts(h, d, now) && i <= |d.events|
    ensures ReplayedAt(h, d, now, i).body.revision == i
    ensures ReplayedAt(h, d, now, i).body.installationId == d.installation.installationId
  {
    hide ById, Referenced, MessageReplays;
    if i > 0 {
      ReplayCounts(h, d, now, i - 1);
      assert EventReplaysAt(h, d, now, i - 1);
    }
  }

  /** Strict validation is legacy validation without the tolerated restart. */
  lemma LegacyTolerance(m: MessageBody, e: EventBody, projection: StateBody, prior: StateBody)
    ensures Validate(m, e, projection, prior, false) <==>
      && Validate(m, e, projection, prior, true)
      && (e.eventKind == LeaderRestartRequested ==>
            && prior.status != Blocked
            && (m.payload.selectedLeader.Some? ==> m.payload.selectedLeader.value == prior.selectedLeader))
  {
  }

  lemma ReplayedIsLinked(h: Digests, g: State, d: Disk, now: Timestamp, i: nat)
    requires GenesisOf(h, g, d) && ReplayAccepts(h, d, now) && Unchecked(h, g, d) && i < |d.events|
    ensures LinkedAt(h, g, d.messages, d.events, i)
  {
    hide ById, Referenced, Validate;
    ByIdSpec(d.messages);
    ReplayCounts(h, d, now, i);
    ReplayCounts(h, d, now, i + 1);
    assert EventReplaysAt(h, d, now, i) && UncheckedAt(h, g, d, i) && MessageReplays(h, d.messages[i], i);
    var m, e, prior := d.messages[i].body, d.events[i].body, StateAt(h, g, d.events, i).body;
    assert ById(d.messages)[m.messageId] == d.messages[i];
    LegacyTolerance(m, e, e.stateProjection.body, prior);
    if i == 0 {
      ValidateIgnoresStamps(m, e, e.stateProjection.body, prior, true, None, None, now);
      assert prior.(lastEventId := None, lastEventDigest := None, updatedAt := now) == ReplayedAt(h, d, now, 0).body;
    }
  }

  /**
   * Replay and consistency on ledgers of any origin: a disk with at least one event is
   * consistent exactly when replay accepts it and `Unchecked` holds.
   */
  lemma ReplayIffConsistent(h: Digests, g: State, d: Disk, now: Timestamp)
    requires GenesisOf(h, g, d) && d.events != []
    ensures Consistent(h, g, d) <==> ReplayAccepts(h, d, now) && Unchecked(h, g, d)
  {
    hide ReplayAccepts, Linked, ById, Referenced;
    if Consistent(h, g, d) {
      ReplayRefines(h, g, d, now);
      forall i: nat | i < |d.events|
        ensures UncheckedAt(h, g, d, i)
      {
        LinkedIsUnchecked(h, g, d, i);
      }
    }
    if ReplayAccepts(h, d, now) && Unchecked(h, g, d) {
      forall i: nat | i < |d.events| { ReplayedIsLinked(h, g, d, now, i); }
      AcceptedIdentities(h, d, now);
      ReplayCounts(h, d, now, |d.events|);
    }
  }

  lemma LinkedIsUnchecked(h: Digests, g: State, d: Disk, i: nat)
    requires Consistent(h, g, d) && i < |d.events|
    ensures UncheckedAt(h, g, d, i)
  {
    assert LinkedAt(h, g, d.messages, d.events, i);
    var m, e, prior := d.messages[i].body, d.events[i].body, StateAt(h, g, d.events, i).body;
    LegacyTolerance(m, e, e.stateProjection.body, prior);
  }

  lemma AcceptedIdentities(h: Digests, d: Disk, now: Timestamp)
    requires ReplayAccepts(h, d, now)
    ensures forall i, j :: 0 <= i < j < |d.messages| ==> d.messages[i].body.messageId != d.messages[j].body.messageId
    ensures forall i, j :: 0 <= i < j < |d.events| ==> d.events[i].body.eventId != d.events[j].body.eventId
    ensures d.journal.None?
    ensures d.events != [] ==> d.state == ReplayedAt(h, d, now, |d.events|)
  {
    hide ById, Referenced, MessageReplays, EventReplays;
  }
}

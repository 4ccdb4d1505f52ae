/**
 * The write-ahead journal of the control plane: `_commit_transition_journal_unlocked`,
 * `_recover_transition_unlocked` and `_transition_unlocked`, with a kill between any
 * two atomic file replacements.
 */
module TransitionJournal {
  import opened Wrappers
  import opened ControlTypes
  import opened TransitionContract

  /** The control root: two ledgers, two projections and at most one pending journal. */
  datatype Disk = Disk(
    messages: seq<Message>, events: seq<Event>, state: State, installation: Installation,
    journal: Option<Journal>)

  // ---------------------------------------------------------------- commit checks

  function MatchingMessages(ms: seq<Message>, id: Id): seq<Message> {
    if ms == [] then []
    else MatchingMessages(ms[..|ms| - 1], id)
         + if ms[|ms| - 1].body.messageId == id then [ms[|ms| - 1]] else []
  }

  function MatchingEvents(es: seq<Event>, id: Id): seq<Event> {
    if es == [] then []
    else MatchingEvents(es[..|es| - 1], id)
         + if es[|es| - 1].body.eventId == id then [es[|es| - 1]] else []
  }

  /** The digest and field checks on the journal alone. */
  predicate JournalConsistent(h: Digests, j: Journal) {
    var m, e, next, inst := j.body.message, j.body.event, j.body.nextState, j.body.installation;
    var projection := Seal(h, next.body.(lastEventDigest := e.body.priorEventDigest));
    && j.journalDigest == h.journal(j.body)
    && m.messageDigest == h.message(m.body)
    && m.body.contentDigest == h.content(MessageContent(m.body))
    && e.eventDigest == h.event(e.body)
    && next.projectionDigest == h.state(next.body)
    && m.body.eventId == e.body.eventId
    && e.body.acceptedMessageId == m.body.messageId
    && e.body.newRevision == next.body.revision
    && m.body.senderPrincipalId == e.body.actorPrincipalId
    && m.body.leaderEpoch == e.body.leaderEpoch
    && m.body.result == TransitionResult(m.body.messageId, e.body.eventId, next.body.revision, next.body.status)
    && m.body.resultRevision == next.body.revision
    && e.body.newRevision == e.body.priorRevision + 1
    && m.body.expectedStateRevision == e.body.priorRevision
    && m.body.installationId == e.body.installationId
    && next.body.installationId == e.body.installationId
    && inst.installationId == e.body.installationId
    && inst.installationStatus == next.body.status
    && inst.activeLeaderEpoch == next.body.activeLeaderEpoch
    && e.body.occurredAt == next.body.updatedAt
    && e.body.payload == m.body.payload
    && e.body.stateProjection == projection
  }

  /** The journal's message is absent from the ledger, or is its last record. */
  predicate MessageLedgerAccepts(ms: seq<Message>, m: Message) {
    var matching := MatchingMessages(ms, m.body.messageId);
    && (matching != [] ==> matching == [m] && ms != [] && ms[|ms| - 1] == m)
    && m.body.installationSequence == if matching != [] then |ms| else |ms| + 1
  }

  predicate EventLedgerAccepts(es: seq<Event>, e: Event) {
    var matching := MatchingEvents(es, e.body.eventId);
    var n := |es|;
    && (matching != [] ==> matching == [e] && es != [] && es[n - 1] == e)
    && e.body.installationSequence == (if matching != [] then n else n + 1)
    && e.body.priorEventDigest ==
       if matching != [] then (if n > 1 then Some(es[n - 2].eventDigest) else None)
       else (if n > 0 then Some(es[n - 1].eventDigest) else None)
  }

  /** `_empty_state`: the clock reading it carries is checked by nobody. */
  function EmptyState(installationId: Id, now: Timestamp): State {
    State(StateBody(installationId, 0, Uninitialized, None, None, 0, 0, [], None, None, now), 0)
  }

  /** The state before the journal's event, or None when the persisted state fits neither side. */
  function PriorState(h: Digests, d: Disk, j: Journal): Option<State> {
    var e := j.body.event;
    var n := |d.events|;
    if d.state.body.revision == e.body.priorRevision then Some(d.state)
    else if d.state == j.body.nextState && MatchingEvents(d.events, e.body.eventId) != [] then
      if n > 1 then Some(StateAfter(h, d.events[n - 2]))
      else Some(EmptyState(e.body.installationId, 0))
    else None
  }

  /** `_commit_transition_journal_unlocked` gets past the checks that precede its first write. */
  predicate CommitAccepts(h: Digests, d: Disk)
    requires d.journal.Some?
  {
    var j := d.journal.value;
    var m, e := j.body.message, j.body.event;
    var prior := PriorState(h, d, j);
    && JournalConsistent(h, j)
    && MessageLedgerAccepts(d.messages, m)
    && EventLedgerAccepts(d.events, e)
    && prior.Some?
    && Validate(m.body, e.body, j.body.nextState.body.(lastEventDigest := e.body.priorEventDigest),
                prior.value.body, false)
  }

  /** The check that comes last, after the ledgers and the state have been written. */
  predicate SameInstallation(d: Disk)
    requires d.journal.Some?
  {
    d.installation.installationId == d.journal.value.body.installation.installationId
  }

  // ---------------------------------------------------------------- the atomic writes

  /** The number of write points of a commit; a process that reaches the last one is done. */
  const COMMIT_POINTS: nat := 5

  function WriteMessage(d: Disk, j: Journal): Disk {
    if MatchingMessages(d.messages, j.body.message.body.messageId) == []
    then d.(messages := d.messages + [j.body.message]) else d
  }

  function WriteEvent(d: Disk, j: Journal): Disk {
    if MatchingEvents(d.events, j.body.event.body.eventId) == []
    then d.(events := d.events + [j.body.event]) else d
  }

  /**
   * The disk after a commit was killed having passed `points` of its write points:
   * message, event, state, installation, and removal of the journal. It raises before
   * the fourth when installation.json is that of another installation.
   */
  function CommitUpTo(d: Disk, points: nat): Disk
    requires d.journal.Some?
  {
    var j := d.journal.value;
    var d1 := if points >= 1 then WriteMessage(d, j) else d;
    var d2 := if points >= 2 then WriteEvent(d1, j) else d1;
    var d3 := if points >= 3 then d2.(state := j.body.nextState) else d2;
    if points < 4 || !SameInstallation(d) then d3
    else
      var d4 := d3.(installation := j.body.installation);
      if points >= COMMIT_POINTS then d4.(journal := None) else d4
  }

  // ---------------------------------------------------------------- transition

  datatype Outcome =
    | Killed
    | Refused(error: Error)
    | Replayed(result: TransitionResult)
    | Accepted(result: TransitionResult)

  function FindMessage(ms: seq<Message>, key: string): Option<Message> {
    if ms == [] then None
    else if ms[0].body.idempotencyKey == key then Some(ms[0])
    else FindMessage(ms[1..], key)
  }

  function BuildJournal(h: Digests, d: Disk, q: Request, z: Stamps): Journal {
    var s := d.state.body;
    var e := BuildEvent(h, s, q, z, |d.events| + 1);
    var next := StateAfter(h, e);
    var inst := d.installation.(installationStatus := next.body.status,
                                activeLeaderEpoch := next.body.activeLeaderEpoch);
    var body := JournalBody(BuildMessage(h, s, q, z, |d.messages| + 1), e, next, inst);
    Journal(body, h.journal(body))
  }

  /** `_recover_transition_unlocked` on a disk whose pending journal, if any, is acceptable. */
  function Recovered(d: Disk): Disk {
    if d.journal.Some? then CommitUpTo(d, COMMIT_POINTS) else d
  }

  /** A pending journal is absent or would be committed by the next recovery. */
  predicate Recoverable(h: Digests, d: Disk) {
    d.journal.Some? ==> CommitAccepts(h, d) && SameInstallation(d)
  }

  /**
   * `_transition` under the lock. The process is killed inside recovery after
   * `recoverPoints` writes, or, counting the journal write first, after
   * `commitPoints` writes of its own; large numbers mean it is not killed.
   */
  function Submit(h: Digests, d: Disk, q: Request, z: Stamps, recoverPoints: nat, commitPoints: nat): (Disk, Outcome) {
    if d.journal.Some? && !CommitAccepts(h, d) then (d, Refused(RegistryInconsistent))
    else if d.journal.Some? && !SameInstallation(d) && recoverPoints >= 4
    then (CommitUpTo(d, recoverPoints), Refused(RegistryInconsistent))
    else if d.journal.Some? && recoverPoints < COMMIT_POINTS then (CommitUpTo(d, recoverPoints), Killed)
    else SubmitRecovered(h, Recovered(d), q, z, commitPoints)
  }

  /** What a call returns without writing: a replayed result or a refusal. */
  function EarlyOutcome(h: Digests, d: Disk, q: Request): (r: Option<Outcome>)
    ensures r.Some? ==> r.value.Refused? || r.value.Replayed?
  {
    var existing := FindMessage(d.messages, q.idempotencyKey);
    if existing.Some? then
      if existing.value.body.contentDigest != h.content(ContentOf(q)) then Some(Refused(IdempotencyConflict))
      else Some(Replayed(existing.value.body.result))
    else if d.state.projectionDigest != h.state(d.state.body) then Some(Refused(RegistryInconsistent))
    else if Refusal(d.state.body, q).Some? then Some(Refused(Refusal(d.state.body, q).value))
    else None
  }

  function SubmitRecovered(h: Digests, d: Disk, q: Request, z: Stamps, commitPoints: nat): (Disk, Outcome) {
    var early := EarlyOutcome(h, d, q);
    if early.Some? then (d, early.value)
    else if commitPoints == 0 then (d, Killed)
    else CommitNew(h, d.(journal := Some(BuildJournal(h, d, q, z))), commitPoints - 1)
  }

  /** The commit that follows the journal write. */
  function CommitNew(h: Digests, d: Disk, points: nat): (Disk, Outcome)
    requires d.journal.Some?
  {
    if !CommitAccepts(h, d) then (d, Refused(RegistryInconsistent))
    else (CommitUpTo(d, points),
          if points >= COMMIT_POINTS then Accepted(d.journal.value.body.message.body.result) else Killed)
  }

  /** The request gets past every check that precedes the journal write. */
  predicate Admitted(h: Digests, d: Disk, q: Request) {
    d.journal.None? && EarlyOutcome(h, d, q).None?
  }

  // ---------------------------------------------------------------- consistent disks

  /** The state after the first `i` events of a ledger that grew from `genesis`. */
  function StateAt(h: Digests, genesis: State, es: seq<Event>, i: nat): State
    requires i <= |es|
  {
    if i == 0 then genesis else StateAfter(h, es[i - 1])
  }

  /** The state that `init` writes before the first transition. */
  ghost predicate IsGenesis(h: Digests, g: State) {
    && g.body == EmptyState(g.body.installationId, g.body.updatedAt).body
    && g.projectionDigest == h.state(g.body)
  }

  /** The `i`-th message and event belong together and lead on from `prior`. */
  ghost predicate Linked(h: Digests, m: Message, e: Event, prior: State, i: nat) {
    && m.body.installationSequence == i + 1
    && e.body.installationSequence == i + 1
    && m.messageDigest == h.message(m.body)
    && m.body.contentDigest == h.content(MessageContent(m.body))
    && e.eventDigest == h.event(e.body)
    && m.body.eventId == e.body.eventId
    && e.body.acceptedMessageId == m.body.messageId
    && prior.body.revision == i
    && e.body.priorRevision == i
    && e.body.newRevision == i + 1
    && m.body.expectedStateRevision == i
    && m.body.senderPrincipalId == e.body.actorPrincipalId
    && m.body.leaderEpoch == e.body.leaderEpoch
    && m.body.leaderEpoch == prior.body.activeLeaderEpoch
    && m.body.result == TransitionResult(m.body.messageId, e.body.eventId, i + 1, e.body.stateProjection.body.status)
    && m.body.resultRevision == i + 1
    && m.body.installationId == e.body.installationId
    && e.body.installationId == prior.body.installationId
    && e.body.payload == m.body.payload
    && e.body.stateProjection == Seal(h, e.body.stateProjection.body)
    && e.body.priorEventDigest == prior.body.lastEventDigest
    && Validate(m.body, e.body, e.body.stateProjection.body, prior.body, false)
  }

  ghost predicate LinkedAt(h: Digests, g: State, ms: seq<Message>, es: seq<Event>, i: nat)
    requires i < |es| == |ms|
  {
    Linked(h, ms[i], es[i], StateAt(h, g, es, i), i)
  }

  /** The two ledgers, record by record, tell one history that starts at `g`. */
  ghost predicate LedgersAgree(h: Digests, g: State, ms: seq<Message>, es: seq<Event>) {
    && IsGenesis(h, g)
    && |ms| == |es|
    && (forall i: nat :: i < |es| ==> LinkedAt(h, g, ms, es, i))
    && (forall i, j :: 0 <= i < j < |ms| ==> ms[i].body.messageId != ms[j].body.messageId)
    && (forall i, j :: 0 <= i < j < |es| ==> es[i].body.eventId != es[j].body.eventId)
    && (forall i, j :: 0 <= i < j < |ms| ==> ms[i].body.idempotencyKey != ms[j].body.idempotencyKey)
  }

  /** A disk between transitions. */
  ghost predicate Consistent(h: Digests, g: State, d: Disk) {
    && d.journal.None?
    && LedgersAgree(h, g, d.messages, d.events)
    && d.state == StateAt(h, g, d.events, |d.events|)
    && d.state.body.installationId == g.body.installationId
    && d.installation.installationId == g.body.installationId
  }

  predicate Fresh(d: Disk, z: Stamps) {
    && (forall i :: 0 <= i < |d.messages| ==> d.messages[i].body.messageId != z.messageId)
    && (forall i :: 0 <= i < |d.events| ==> d.events[i].body.eventId != z.eventId)
    && (d.journal.Some? ==>
          && d.journal.value.body.message.body.messageId != z.messageId
          && d.journal.value.body.event.body.eventId != z.eventId)
  }

  /** `j` is a journal that extends the consistent disk `d` by one linked record. */
  ghost predicate Fits(h: Digests, g: State, d: Disk, j: Journal) {
    var m, e := j.body.message, j.body.event;
    && Consistent(h, g, d)
    && Linked(h, m, e, d.state, |d.events|)
    && j.body.nextState == StateAfter(h, e)
    && j.body.installation == d.installation.(installationStatus := j.body.nextState.body.status,
                                              activeLeaderEpoch := j.body.nextState.body.activeLeaderEpoch)
    && j.journalDigest == h.journal(j.body)
    && Fresh(d, Stamps(m.body.messageId, e.body.eventId, 0, 0))
    && (forall i :: 0 <= i < |d.messages| ==> d.messages[i].body.idempotencyKey != m.body.idempotencyKey)
  }

  /** The disk on which the journal `j` has been applied up to `points`. */
  function Partial(d: Disk, j: Journal, points: nat): Disk {
    Disk(if points >= 1 then d.messages + [j.body.message] else d.messages,
         if points >= 2 then d.events + [j.body.event] else d.events,
         if points >= 3 then j.body.nextState else d.state,
         if points >= 4 then j.body.installation else d.installation,
         if points >= COMMIT_POINTS then None else Some(j))
  }

  // ---------------------------------------------------------------- ledger lemmas

  lemma {:induction false} NoMatchingMessages(ms: seq<Message>, id: Id)
    requires forall i :: 0 <= i < |ms| ==> ms[i].body.messageId != id
    ensures MatchingMessages(ms, id) == []
  {
    if ms != [] { NoMatchingMessages(ms[..|ms| - 1], id); }
  }

  lemma {:induction false} NoMatchingEvents(es: seq<Event>, id: Id)
    requires forall i :: 0 <= i < |es| ==> es[i].body.eventId != id
    ensures MatchingEvents(es, id) == []
  {
    if es != [] { NoMatchingEvents(es[..|es| - 1], id); }
  }

  lemma MatchingAfterAppend(ms: seq<Message>, m: Message, es: seq<Event>, e: Event)
    requires forall i :: 0 <= i < |ms| ==> ms[i].body.messageId != m.body.messageId
    requires forall i :: 0 <= i < |es| ==> es[i].body.eventId != e.body.eventId
    ensures MatchingMessages(ms, m.body.messageId) == [] && MatchingEvents(es, e.body.eventId) == []
    ensures MatchingMessages(ms + [m], m.body.messageId) == [m]
    ensures MatchingEvents(es + [e], e.body.eventId) == [e]
  {
    NoMatchingMessages(ms, m.body.messageId);
    NoMatchingEvents(es, e.body.eventId);
    assert (ms + [m])[..|ms + [m]| - 1] == ms;
    assert (es + [e])[..|es + [e]| - 1] == es;
  }

  lemma {:induction false} FindMessageSpec(ms: seq<Message>, key: string)
    ensures FindMessage(ms, key).None? <==>
            forall i :: 0 <= i < |ms| ==> ms[i].body.idempotencyKey != key
    ensures FindMessage(ms, key).Some? ==>
            FindMessage(ms, key).value in ms && FindMessage(ms, key).value.body.idempotencyKey == key
  {
    if ms != [] {
      FindMessageSpec(ms[1..], key);
      assert ms == [ms[0]] + ms[1..];
    }
  }

  // ---------------------------------------------------------------- crash convergence

  /** A commit resumed on a partly applied journal continues where the killed one stopped. */
  lemma CommitResumes(h: Digests, g: State, d: Disk, j: Journal, done: nat, points: nat)
    requires Fits(h, g, d, j) && done < COMMIT_POINTS
    ensures CommitUpTo(Partial(d, j, done), points) == Partial(d, j, if points > done then points else done)
  {
    hide MatchingEvents, MatchingMessages, Linked, LedgersAgree;
    MatchingAfterAppend(d.messages, j.body.message, d.events, j.body.event);
  }

  lemma FittingJournalConsistent(h: Digests, g: State, d: Disk, j: Journal)
    requires Fits(h, g, d, j)
    ensures JournalConsistent(h, j)
    ensures j.body.nextState.body.(lastEventDigest := j.body.event.body.priorEventDigest)
         == j.body.event.body.stateProjection.body
  {
    var e := j.body.event.body;
    assert j.body.nextState.body.(lastEventDigest := e.priorEventDigest) == e.stateProjection.body;
  }

  lemma LastEventDigest(h: Digests, g: State, d: Disk)
    requires Consistent(h, g, d)
    ensures d.state.body.lastEventDigest
         == if d.events == [] then None else Some(d.events[|d.events| - 1].eventDigest)
  {
  }

  lemma MessageLedgerAcceptsPartial(h: Digests, g: State, d: Disk, j: Journal, done: nat)
    requires Fits(h, g, d, j)
    ensures MessageLedgerAccepts(Partial(d, j, done).messages, j.body.message)
  {
    hide MatchingEvents, MatchingMessages, Validate, LinkedAt;
    MatchingAfterAppend(d.messages, j.body.message, d.events, j.body.event);
  }

  lemma EventLedgerAcceptsPartial(h: Digests, g: State, d: Disk, j: Journal, done: nat)
    requires Fits(h, g, d, j)
    ensures EventLedgerAccepts(Partial(d, j, done).events, j.body.event)
  {
    hide MatchingEvents, MatchingMessages, Validate, LedgersAgree;
    MatchingAfterAppend(d.messages, j.body.message, d.events, j.body.event);
    LastEventDigest(h, g, d);
    assert |d.events| > 0 ==> (d.events + [j.body.event])[|d.events| - 1] == d.events[|d.events| - 1];
  }

  lemma FittingRevision(h: Digests, g: State, d: Disk, j: Journal)
    requires Fits(h, g, d, j)
    ensures j.body.nextState.body.revision == |d.events| + 1
  {
    hide LedgersAgree;
  }

  /** Whichever side of the state write a kill fell on, the contract is checked against the same prior. */
  lemma PriorStateOfPartial(h: Digests, g: State, d: Disk, j: Journal, done: nat)
    requires Fits(h, g, d, j) && done < COMMIT_POINTS
    ensures PriorState(h, Partial(d, j, done), j) == Some(d.state)
         || (d.events == [] && PriorState(h, Partial(d, j, done), j) == Some(EmptyState(g.body.installationId, 0)))
  {
    hide LedgersAgree, Validate, MatchingMessages, MatchingEvents;
    MatchingAfterAppend(d.messages, j.body.message, d.events, j.body.event);
    var n, p := |d.events|, Partial(d, j, done);
    assert d.state.body.revision == n;
    if done >= 3 {
      FittingRevision(h, g, d, j);
      if n > 0 {
        assert p.events[n - 1] == d.events[n - 1];
      }
    }
  }

  /** No partial application of a fitting journal is ever refused. */
  lemma PartialAccepted(h: Digests, g: State, d: Disk, j: Journal, done: nat)
    requires Fits(h, g, d, j) && done < COMMIT_POINTS
    ensures CommitAccepts(h, Partial(d, j, done))
  {
    FittingJournalConsistent(h, g, d, j);
    MessageLedgerAcceptsPartial(h, g, d, j, done);
    EventLedgerAcceptsPartial(h, g, d, j, done);
    PriorStateOfPartial(h, g, d, j, done);
    var e := j.body.event.body;
    ValidateIgnoresStamps(j.body.message.body, e, e.stateProjection.body, d.state.body, false, None, None, 0);
  }

  /** One attempt: the pending journal is validated afresh, then applied until the kill. */
  function Attempt(h: Digests, d: Disk, points: nat): Disk {
    if d.journal.Some? && CommitAccepts(h, d) then CommitUpTo(d, points) else d
  }

  /** Any number of attempts, each killed after its own number of writes. */
  function Attempts(h: Digests, d: Disk, kills: seq<nat>): Disk
    decreases |kills|
  {
    if kills == [] then d else Attempts(h, Attempt(h, d, kills[0]), kills[1..])
  }

  lemma {:induction false} AttemptsArePartial(h: Digests, g: State, d: Disk, j: Journal, done: nat, kills: seq<nat>)
      returns (reached: nat)
    requires Fits(h, g, d, j)
    ensures Attempts(h, Partial(d, j, done), kills) == Partial(d, j, reached)
    decreases |kills|
  {
    hide Fits, CommitAccepts, CommitUpTo;
    if kills == [] { return done; }
    if done < COMMIT_POINTS {
      PartialAccepted(h, g, d, j, done);
      CommitResumes(h, g, d, j, done, kills[0]);
      reached := AttemptsArePartial(h, g, d, j, if kills[0] > done then kills[0] else done, kills[1..]);
    } else {
      reached := AttemptsArePartial(h, g, d, j, done, kills[1..]);
    }
  }

  /**
   * What the commit checks leave open. A journal of any origin with identifiers of its
   * own extends a consistent disk by one linked record exactly when the commit accepts
   * it and the four things that it does not check hold: the epoch is the one in force,
   * the idempotency key is new, the next state names its event, and installation.json
   * keeps its other fields.
   */
  lemma FitsIffAccepted(h: Digests, g: State, d: Disk, j: Journal)
    requires Consistent(h, g, d)
    requires Fresh(d, Stamps(j.body.message.body.messageId, j.body.event.body.eventId, 0, 0))
    ensures var m, e, next := j.body.message.body, j.body.event, j.body.nextState.body;
      Fits(h, g, d, j) <==>
        && CommitAccepts(h, d.(journal := Some(j)))
        && m.leaderEpoch == d.state.body.activeLeaderEpoch
        && FindMessage(d.messages, m.idempotencyKey).None?
        && next.lastEventDigest == Some(e.eventDigest)
        && j.body.installation.activeProtocolVersion == d.installation.activeProtocolVersion
        && j.body.installation.createdAt == d.installation.createdAt
  {
    hide LedgersAgree, FindMessage, Validate;
    var m, e := j.body.message.body, j.body.event;
    assert d.(journal := Some(j)) == Partial(d, j, 0);
    if Fits(h, g, d, j) { PartialAccepted(h, g, d, j, 0); }
    FindMessageSpec(d.messages, m.idempotencyKey);
    MatchingAfterAppend(d.messages, j.body.message, d.events, e);
    LastEventDigest(h, g, d);
    StateCounts(h, g, d);
    if CommitAccepts(h, d.(journal := Some(j))) {
      ValidatedProjection(m, e.body, j.body.nextState.body.(lastEventDigest := e.body.priorEventDigest), d.state.body);
    }
  }

  lemma StateCounts(h: Digests, g: State, d: Disk)
    requires Consistent(h, g, d)
    ensures d.state.body.revision == |d.events| == |d.messages|
  {
    if d.events != [] { assert LinkedAt(h, g, d.messages, d.events, |d.events| - 1); }
  }

  lemma ValidatedProjection(m: MessageBody, e: EventBody, projection: StateBody, prior: StateBody)
    requires Validate(m, e, projection, prior, false)
    ensures projection.installationId == prior.installationId && e.priorRevision == prior.revision
  {
  }

  /** Agreeing ledgers stay so when one linked, fresh record is added to each. */
  lemma LedgersExtend(h: Digests, g: State, ms: seq<Message>, es: seq<Event>, m: Message, e: Event)
    requires LedgersAgree(h, g, ms, es)
    requires Linked(h, m, e, StateAt(h, g, es, |es|), |es|)
    requires forall i :: 0 <= i < |ms| ==> ms[i].body.messageId != m.body.messageId
    requires forall i :: 0 <= i < |es| ==> es[i].body.eventId != e.body.eventId
    requires forall i :: 0 <= i < |ms| ==> ms[i].body.idempotencyKey != m.body.idempotencyKey
    ensures LedgersAgree(h, g, ms + [m], es + [e])
  {
    var ms', es' := ms + [m], es + [e];
    forall i: nat | i < |es'|
      ensures LinkedAt(h, g, ms', es', i)
    {
      if i < |es| {
        assert LinkedAt(h, g, ms, es, i);
      }
    }
  }

  /** Applying a fitting journal completely gives a consistent disk one record longer. */
  lemma FitsExtends(h: Digests, g: State, d: Disk, j: Journal)
    requires Fits(h, g, d, j)
    ensures Consistent(h, g, Partial(d, j, COMMIT_POINTS))
  {
    LedgersExtend(h, g, d.messages, d.events, j.body.message, j.body.event);
  }

  /**
   * Crash convergence. However often and wherever the commit of a fitting journal
   * and its recoveries are killed, one recovery that runs to its end leaves exactly
   * the disk of a commit that was never killed: the message and the event appended
   * once each, the next state, the projected installation and no journal.
   */
  lemma CrashConvergence(h: Digests, g: State, d: Disk, j: Journal, kills: seq<nat>)
    requires Fits(h, g, d, j)
    ensures var crashed := Attempts(h, d.(journal := Some(j)), kills);
            && Recoverable(h, crashed)
            && Recovered(crashed) == Disk(d.messages + [j.body.message], d.events + [j.body.event],
                                          j.body.nextState, j.body.installation, None)
            && Consistent(h, g, Recovered(crashed))
  {
    assert d.(journal := Some(j)) == Partial(d, j, 0);
    var reached := AttemptsArePartial(h, g, d, j, 0, kills);
    FitsExtends(h, g, d, j);
    if reached < COMMIT_POINTS {
      PartialAccepted(h, g, d, j, reached);
      CommitResumes(h, g, d, j, reached, COMMIT_POINTS);
    }
  }

  // ---------------------------------------------------------------- no self-inflicted wedge

  /** The journal built for an admitted, conforming request with fresh identifiers fits its disk. */
  lemma BuiltJournalFits(h: Digests, g: State, d: Disk, q: Request, z: Stamps)
    requires Consistent(h, g, d) && Admitted(h, d, q) && Fresh(d, z) && Conforming(q, d.state.body)
    ensures Fits(h, g, d, BuildJournal(h, d, q, z))
  {
    var n, s := |d.events|, d.state.body;
    if n > 0 {
      assert LinkedAt(h, g, d.messages, d.events, n - 1);
    }
    ValidateIffConforming(h, s, q, z, n + 1);
    FindMessageSpec(d.messages, q.idempotencyKey);
  }

  /**
   * The journal is on disk before the contract is checked. It is accepted by the
   * commit that follows, and by every later recovery, exactly when the request
   * conforms to the contract.
   */
  lemma WedgeIffNotConforming(h: Digests, g: State, d: Disk, q: Request, z: Stamps)
    requires Consistent(h, g, d) && Admitted(h, d, q) && Fresh(d, z)
    ensures CommitAccepts(h, d.(journal := Some(BuildJournal(h, d, q, z)))) <==> Conforming(q, d.state.body)
  {
    var j := BuildJournal(h, d, q, z);
    if Conforming(q, d.state.body) {
      BuiltJournalFits(h, g, d, q, z);
      assert d.(journal := Some(j)) == Partial(d, j, 0);
      PartialAccepted(h, g, d, j, 0);
    } else {
      ValidateIffConforming(h, d.state.body, q, z, |d.events| + 1);
      var e := j.body.event.body;
      assert j.body.nextState.body.(lastEventDigest := e.priorEventDigest) == NextBody(d.state.body, q, z);
      ValidateIffConforming(h, d.state.body, q, z, |d.messages| + 1);
    }
  }

  /** A request that no principal of its contract has sent. */
  function ForeignInit(key: string): Request {
    Request(InstallationInitialized, CommandInit, "operator", BootstrapController, 0, 0,
            Payload(None, None, None, None, None, map[]), Bootstrapping, key, None)
  }

  /** An instance: on a new installation it is admitted, journaled, and then refused by every recovery. */
  lemma WedgingRequest(h: Digests, g: State, d: Disk, key: string, z: Stamps)
    requires Consistent(h, g, d) && d.events == [] && Fresh(d, z)
    ensures Admitted(h, d, ForeignInit(key))
    ensures !CommitAccepts(h, d.(journal := Some(BuildJournal(h, d, ForeignInit(key), z))))
  {
    WedgeIffNotConforming(h, g, d, ForeignInit(key), z);
  }

  /** A refused journal is never removed: every later transition fails and writes nothing. */
  lemma {:induction false} WedgedForever(h: Digests, d: Disk, calls: seq<(Request, Stamps, nat, nat)>)
    requires d.journal.Some? && !CommitAccepts(h, d)
    ensures SubmitAll(h, d, calls).0 == d
    ensures forall i :: 0 <= i < |calls| ==> SubmitAll(h, d, calls).1[i] == Refused(RegistryInconsistent)
    decreases |calls|
  {
    if calls != [] {
      WedgedForever(h, d, calls[1..]);
      assert calls == [calls[0]] + calls[1..];
    }
  }

  function SubmitAll(h: Digests, d: Disk, calls: seq<(Request, Stamps, nat, nat)>): (r: (Disk, seq<Outcome>))
    ensures |r.1| == |calls|
    decreases |calls|
  {
    if calls == [] then (d, [])
    else
      var first := Submit(h, d, calls[0].0, calls[0].1, calls[0].2, calls[0].3);
      var rest := SubmitAll(h, first.0, calls[1..]);
      (rest.0, [first.1] + rest.1)
  }
}

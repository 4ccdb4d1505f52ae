/**
 * What a call of an operation achieves in a run, stated by what the operation is for,
 * and the runs that bring an installation up, replace its leader and undo a failed restart.
 */
module OperationRuns {
  import opened Wrappers
  import opened ControlTypes
  import opened TransitionContract
  import opened TransitionJournal
  import opened LeaderOperations
  import opened ControlRuns

  /** What the operation of a call is judged on: `init` assumes a new installation and reads nothing. */
  function Judged(w: World, s: Step): View
    requires s.Call?
  {
    if s.op.Initialize? || s.p !in w.views then View(Recovered(w.disk).state, None, None) else w.views[s.p]
  }

  /** The process of the call lives until its commit is through. */
  predicate Survives(w: World, s: Step)
    requires s.Call?
  {
    (w.disk.journal.Some? ==> s.recoverPoints >= COMMIT_POINTS) && s.commitPoints > COMMIT_POINTS
  }

  /**
   * Nothing else decides whether a call is accepted: it has read a state and nobody has
   * moved the installation since, its key is new, and that state enables the operation.
   */
  ghost predicate Acceptable(w: World, s: Step)
    requires s.Call?
  {
    && s.p in w.views
    && (s.op.Initialize? || w.views[s.p].state == Recovered(w.disk).state)
    && FindMessage(Recovered(w.disk).messages, s.key).None?
    && Enabled(s.op, Judged(w, s))
  }

  /** The state once the operation is recorded as the event `e`. */
  function Recorded(op: Operation, s: StateBody, e: Event): StateBody {
    Reached(op, s).(revision := s.revision + 1, updatedAt := e.body.occurredAt,
                    lastEventId := Some(e.body.eventId), lastEventDigest := Some(e.eventDigest))
  }

  /**
   * One message under the key and one event by the principal of the operation have been
   * added, the state is the recorded one, and installation.json follows it.
   */
  ghost predicate Achieved(op: Operation, key: string, z: Stamps, d: Disk, d': Disk) {
    && |d'.messages| == |d.messages| + 1 && d.messages <= d'.messages
    && |d'.events| == |d.events| + 1 && d.events <= d'.events
    && var m, e := d'.messages[|d.messages|].body, d'.events[|d.events|];
    && m.idempotencyKey == key && m.messageId == z.messageId && m.sentAt == z.sentAt
    && e.body.eventId == z.eventId && e.body.occurredAt == z.updatedAt
    && e.body.eventKind == KindOf(op, d.state.body) && e.body.actorPrincipalId == ActorOf(op, d.state.body)
    && (op.FailActivation? ==>
          && OperationKey in e.body.payload.details
          && e.body.payload.details[OperationKey] == ActivationTag(op.activation))
    && d'.state.body == Recorded(op, d.state.body, e)
    && d'.installation == d.installation.(installationStatus := d'.state.body.status,
                                          activeLeaderEpoch := d'.state.body.activeLeaderEpoch)
  }

  lemma JudgedIsGood(h: Digests, g: State, w: World, s: Step)
    requires WorldInv(h, g, w) && s.Call?
    ensures GoodView(Judged(w, s))
    ensures RequestOf(w, s).Some? ==> RequestOf(w, s) == Prepare(s.op, Judged(w, s), s.key)
  {
    hide Prepare, CommitUpTo, DiskInv, LedgersAgree, GoodState, StateAt;
    InvRecovers(h, g, w.disk);
    var d := Recovered(w.disk);
    assert GoodAt(h, g, d.events, |d.events|);
    if s.p in w.views && s.op.Initialize? { InitializeIgnoresView(s.op, w.views[s.p], Judged(w, s), s.key); }
  }

  lemma ExtendedAchieves(h: Digests, d: Disk, op: Operation, v: View, key: string, z: Stamps)
    requires GoodView(v) && v.state == d.state && Accepts(op, v, key)
    ensures Achieved(op, key, z, d, Extended(h, d, Prepare(op, v, key).value, z))
  {
    hide Prepare, Refusal, Enabled, Reached, GoodState, NextBody, ActorOf, KindOf;
    OperationMeaning(op, v, key, z);
    OperationDocuments(op, v, key);
    RequestKey(op, v, key);
  }

  lemma EnabledIsPrepared(h: Digests, g: State, w: World, s: Step)
    requires WorldInv(h, g, w) && s.Call? && s.p in w.views
    ensures Enabled(s.op, Judged(w, s)) <==> Accepts(s.op, Judged(w, s), s.key)
    ensures RequestOf(w, s) == Prepare(s.op, Judged(w, s), s.key)
  {
    hide Prepare, Refusal, Enabled, WorldInv, GoodView;
    JudgedIsGood(h, g, w, s);
    OperationEnabled(s.op, Judged(w, s), s.key);
    if s.op.Initialize? { InitializeIgnoresView(s.op, w.views[s.p], Judged(w, s), s.key); }
  }

  /** An acceptable call that survives is accepted and achieves its operation. */
  lemma AcceptableAchieves(h: Digests, g: State, w: World, s: Step)
    requires WorldInv(h, g, w) && s.Call? && Acceptable(w, s) && Fresh(Recovered(w.disk), s.z) && Survives(w, s)
    ensures OutcomeOf(h, w, s).Accepted? && Next(h, w, s).disk.journal.None?
    ensures Achieved(s.op, s.key, s.z, Recovered(w.disk), Next(h, w, s).disk)
  {
    hide Prepare, Refusal, Enabled, WorldInv, GoodView, FindMessage, DiskInv, CommitUpTo, Extended, Achieved,
         SubmitRecovered, LedgersAgree, HistoryGood, Fresh, CommitAccepts;
    var d, v := Recovered(w.disk), Judged(w, s);
    assert DiskInv(h, g, w.disk) by { InvariantOfDisk(h, g, w); }
    InvRecovers(h, g, w.disk);
    JudgedIsGood(h, g, w, s);
    EnabledIsPrepared(h, g, w, s);
    SubmitOnView(h, g, d, s.op, v, s.key, s.z, s.recoverPoints, s.commitPoints);
    ExtendedAchieves(h, d, s.op, v, s.key, s.z);
    ExtendedFacts(h, d, Prepare(s.op, v, s.key).value, s.z);
  }

  lemma InvariantOfDisk(h: Digests, g: State, w: World)
    requires WorldInv(h, g, w)
    ensures DiskInv(h, g, w.disk)
  {
  }

  lemma AcceptedSurvives(h: Digests, w: World, s: Step)
    requires s.Call? && OutcomeOf(h, w, s).Accepted? && Recoverable(h, w.disk)
    ensures Survives(w, s) && Fresh(Recovered(w.disk), s.z) && s.p in w.views
  {
    hide Prepare, Refusal, CommitUpTo, BuildJournal, CommitAccepts, FindMessage, Fresh;
  }

  /**
   * Acceptance, exactly. Under any interleaving a call is accepted if and only if it is
   * acceptable, its identifiers are new and its process is not killed; and then it
   * achieves what its operation is for: the leader selected by `SelectLeader` and
   * `RotateLeader` is the candidate, the one activated is the one provisioned, and so on.
   */
  lemma AcceptedIff(h: Digests, g: State, w: World, s: Step)
    requires WorldInv(h, g, w) && s.Call?
    ensures OutcomeOf(h, w, s).Accepted? <==> Acceptable(w, s) && Fresh(Recovered(w.disk), s.z) && Survives(w, s)
    ensures OutcomeOf(h, w, s).Accepted? ==> Achieved(s.op, s.key, s.z, Recovered(w.disk), Next(h, w, s).disk)
  {
    hide Prepare, Refusal, Enabled, FindMessage, WorldInv, DiskInv, Next, OutcomeOf, CommitUpTo, Fresh, Achieved;
    if OutcomeOf(h, w, s).Accepted? {
      InvariantOfDisk(h, g, w);
      InvRecovers(h, g, w.disk);
      AcceptedSurvives(h, w, s);
      CallEffect(h, g, w, s);
      EnabledIsPrepared(h, g, w, s);
      RequestKey(s.op, Judged(w, s), s.key);
    }
    if Acceptable(w, s) && Fresh(Recovered(w.disk), s.z) && Survives(w, s) {
      AcceptableAchieves(h, g, w, s);
    }
  }

  /**
   * Who leads, after an accepted call: a selection and a rotation put the chosen candidate
   * on record as the selected leader, and an activation makes the leader that was
   * provisioned the active one, in a new epoch. No other call changes either of them.
   */
  lemma LeaderAfterCall(h: Digests, g: State, w: World, s: Step)
    requires WorldInv(h, g, w) && s.Call? && OutcomeOf(h, w, s).Accepted?
    ensures var before, after := Recovered(w.disk).state.body, Recovered(Next(h, w, s).disk).state.body;
      && after.selectedLeader == (if s.op.SelectLeader? || s.op.RotateLeader? then Some(s.op.candidate)
                                  else before.selectedLeader)
      && after.activeLeader == (if s.op.ActivateLeader? then Some(s.op.provisioned) else before.activeLeader)
      && after.activeLeaderEpoch == before.activeLeaderEpoch + (if s.op.ActivateLeader? then 1 else 0)
  {
    hide Next, OutcomeOf, CommitUpTo, WorldInv, Acceptable, Fresh, Extended, Refusal, Prepare, FindMessage;
    AcceptedIff(h, g, w, s);
    CallEffect(h, g, w, s);
  }

  // ---------------------------------------------------------------- one process, turn after turn

  /** A call with everything an operation may read before it; an activation writes the binding first. */
  datatype Turn = Turn(op: Operation, written: Option<Binding>, key: string, z: Stamps)

  function TurnSteps(p: Pid, t: Turn): seq<Step> {
    [ReadState(p), ReadBinding(p), ReadTail(p)]
    + (if t.written.Some? then [WriteBinding(p, t.written.value)] else [])
    + [Call(p, t.op, t.key, t.z, COMMIT_POINTS, COMMIT_POINTS + 1)]
  }

  function StepsOf(p: Pid, turns: seq<Turn>): seq<Step> {
    if turns == [] then [] else TurnSteps(p, turns[0]) + StepsOf(p, turns[1..])
  }

  /** All that a process reads of a world without a pending journal. */
  function FullView(w: World): View {
    View(w.disk.state, w.binding, if w.disk.events == [] then None else Some(w.disk.events[|w.disk.events| - 1]))
  }

  function After(h: Digests, w: World, p: Pid, t: Turn): World {
    Run(h, w, TurnSteps(p, t))
  }

  lemma {:induction false} RunConcat(h: Digests, w: World, a: seq<Step>, b: seq<Step>)
    ensures Run(h, w, a + b) == Run(h, Run(h, w, a), b)
    decreases |a|
  {
    if a == [] {
      assert a + b == b;
    } else {
      assert (a + b)[1..] == a[1..] + b;
      RunConcat(h, Next(h, w, a[0]), a[1..], b);
    }
  }

  lemma FirstTurn(h: Digests, w: World, p: Pid, turns: seq<Turn>)
    requires turns != []
    ensures Run(h, w, StepsOf(p, turns)) == Run(h, After(h, w, p, turns[0]), StepsOf(p, turns[1..]))
  {
    RunConcat(h, w, TurnSteps(p, turns[0]), StepsOf(p, turns[1..]));
  }

  /** The world in which the process has read everything and written the binding it prepared. */
  function Prepared(w: World, p: Pid, written: Option<Binding>): World {
    var fits := written.Some? && written.value.leaderEpoch == w.disk.state.body.activeLeaderEpoch + 1;
    w.(views := w.views[p := FullView(w)], binding := if fits then written else w.binding)
  }

  lemma RunCons(h: Digests, w: World, s: Step, rest: seq<Step>)
    ensures Run(h, w, [s] + rest) == Run(h, Next(h, w, s), rest)
  {
    assert ([s] + rest)[1..] == rest;
  }

  lemma TurnIsCall(h: Digests, w: World, p: Pid, t: Turn)
    ensures After(h, w, p, t)
         == Next(h, Prepared(w, p, t.written), Call(p, t.op, t.key, t.z, COMMIT_POINTS, COMMIT_POINTS + 1))
  {
    hide CallDisk, CommitAccepts, CommitUpTo, Run;
    var call := Call(p, t.op, t.key, t.z, COMMIT_POINTS, COMMIT_POINTS + 1);
    var writes := if t.written.Some? then [WriteBinding(p, t.written.value), call] else [call];
    var w1 := Next(h, w, ReadState(p));
    var w2 := Next(h, w1, ReadBinding(p));
    var w3 := Next(h, w2, ReadTail(p));
    assert w3.views == w.views[p := FullView(w)];
    assert TurnSteps(p, t) == [ReadState(p)] + ([ReadBinding(p)] + ([ReadTail(p)] + writes));
    RunCons(h, w, ReadState(p), [ReadBinding(p)] + ([ReadTail(p)] + writes));
    RunCons(h, w1, ReadBinding(p), [ReadTail(p)] + writes);
    RunCons(h, w2, ReadTail(p), writes);
    if t.written.Some? {
      assert writes == [WriteBinding(p, t.written.value)] + [call];
      RunCons(h, w3, WriteBinding(p, t.written.value), [call]);
    }
    RunSingle(h, Prepared(w, p, t.written), call);
  }

  lemma RunSingle(h: Digests, w: World, s: Step)
    ensures Run(h, w, [s]) == Next(h, w, s)
  {
  }

  /** The keys and identifiers of the coming turns are new, and differ from each other. */
  ghost predicate NewTo(d: Disk, turns: seq<Turn>) {
    && (forall t :: t in turns ==> FindMessage(d.messages, t.key).None? && Fresh(d, t.z))
    && (forall i, j :: 0 <= i < j < |turns| ==>
          && turns[i].key != turns[j].key
          && turns[i].z.messageId != turns[j].z.messageId && turns[i].z.eventId != turns[j].z.eventId)
  }

  /** No other process is at work. */
  ghost predicate Ready(h: Digests, g: State, w: World, turns: seq<Turn>) {
    WorldInv(h, g, w) && w.disk.journal.None? && NewTo(w.disk, turns)
  }

  lemma PreparedInv(h: Digests, g: State, w: World, p: Pid, written: Option<Binding>)
    requires WorldInv(h, g, w) && w.disk.journal.None?
    ensures WorldInv(h, g, Prepared(w, p, written))
  {
    hide StateAt, LedgersAgree, HistoryGood, DiskInv;
    PersistedStateIsHistory(h, g, w.disk);
  }

  /** Keys and identifiers other than those just recorded stay new. */
  lemma StayNew(op: Operation, d: Disk, d': Disk, turns: seq<Turn>)
    requires turns != [] && NewTo(d, turns) && d.journal.None? && d'.journal.None?
    requires Achieved(op, turns[0].key, turns[0].z, d, d')
    ensures NewTo(d', turns[1..])
  {
    hide FindMessage, Recorded, ActorOf, KindOf;
    var m, e := d'.messages[|d.messages|], d'.events[|d.events|];
    assert d'.messages == d.messages + [m] && d'.events == d.events + [e];
    forall t | t in turns[1..]
      ensures FindMessage(d'.messages, t.key).None? && Fresh(d', t.z)
    {
      var i :| 0 < i < |turns| && turns[i] == t;
      assert t in turns;
      FindMessageSpec(d.messages, t.key);
      FindMessageSpec(d'.messages, t.key);
    }
  }

  /** A turn whose operation is enabled succeeds, and leaves the process ready for the next one. */
  lemma TurnSucceeds(h: Digests, g: State, w: World, p: Pid, turns: seq<Turn>)
    requires turns != [] && Ready(h, g, w, turns) && Enabled(turns[0].op, FullView(w))
    ensures var t, w' := turns[0], After(h, w, p, turns[0]);
      && Ready(h, g, w', turns[1..])
      && Achieved(t.op, t.key, t.z, w.disk, w'.disk)
      && w'.binding == Prepared(w, p, t.written).binding
      && TailMatches(FullView(w'))
  {
    hide WorldInv, DiskInv, Run, CallDisk, FindMessage, Fresh, Achieved, CommitUpTo, OutcomeOf, Enabled, NewTo,
         CommitAccepts, TailMatches;
    var t := turns[0];
    var call := Call(p, t.op, t.key, t.z, COMMIT_POINTS, COMMIT_POINTS + 1);
    var prepared, w' := Prepared(w, p, t.written), After(h, w, p, t);
    TurnIsCall(h, w, p, t);
    PreparedInv(h, g, w, p, t.written);
    FirstIsNew(w.disk, turns);
    InitializeByStatus(t.op, FullView(w), Judged(prepared, call));
    AcceptableAchieves(h, g, prepared, call);
    StepKeepsInv(h, g, prepared, call);
    StayNew(t.op, w.disk, w'.disk, turns);
    TailAfter(t.op, t.key, t.z, w.disk, w');
  }

  lemma FirstIsNew(d: Disk, turns: seq<Turn>)
    requires turns != [] && NewTo(d, turns)
    ensures FindMessage(d.messages, turns[0].key).None? && Fresh(d, turns[0].z)
  {
  }

  lemma InitializeByStatus(op: Operation, v: View, v': View)
    requires Enabled(op, v) && v.state == v'.state && (op.Initialize? || v == v')
    ensures Enabled(op, v')
  {
  }

  lemma TailAfter(op: Operation, key: string, z: Stamps, d: Disk, w: World)
    requires Achieved(op, key, z, d, w.disk)
    ensures TailMatches(FullView(w))
  {
    hide Reached, ActorOf, KindOf;
  }

  /** One turn of a run: where it leaves the state, and that the run goes on from there. */
  lemma Advance(h: Digests, g: State, w: World, p: Pid, turns: seq<Turn>, i: nat) returns (w': World)
    requires i < |turns| && Ready(h, g, w, turns[i..]) && Enabled(turns[i].op, FullView(w))
    ensures Run(h, w, StepsOf(p, turns[i..])) == Run(h, w', StepsOf(p, turns[i + 1..]))
    ensures Ready(h, g, w', turns[i + 1..])
    ensures w'.binding == Prepared(w, p, turns[i].written).binding
    ensures TailMatches(FullView(w')) && FullView(w').tail.Some?
    ensures var e := FullView(w').tail.value;
      && w'.disk.state.body == Recorded(turns[i].op, w.disk.state.body, e)
      && e.body.eventKind == KindOf(turns[i].op, w.disk.state.body)
      && (turns[i].op.FailActivation? ==>
            && OperationKey in e.body.payload.details
            && e.body.payload.details[OperationKey] == ActivationTag(turns[i].op.activation))
  {
    hide Ready, Run, After, StepsOf, Recorded, Prepared, KindOf;
    w' := After(h, w, p, turns[i]);
    assert turns[i..][1..] == turns[i + 1..];
    FirstTurn(h, w, p, turns[i..]);
    TurnSucceeds(h, g, w, p, turns[i..]);
  }

  /** A run whose turns are over. */
  lemma TurnsOver(h: Digests, g: State, w: World, p: Pid, turns: seq<Turn>)
    requires Ready(h, g, w, turns[|turns|..])
    ensures Run(h, w, StepsOf(p, turns[|turns|..])) == w && w.disk.journal.None?
  {
  }

  /** The operations that bring a new installation up, with the leader of their choice. */
  function BringUp(root: string, count: nat, candidate: SelectedLeader, leader: ActiveLeader): seq<Operation> {
    [Initialize(root), StartDiscovery, CompleteDiscovery(count), SelectLeader(candidate), StartLeader,
     ActivateLeader(leader, true)]
  }

  /** The turns carry out these operations, and the last one writes the binding. */
  predicate Carries(turns: seq<Turn>, ops: seq<Operation>, binding: Option<Binding>) {
    && |turns| == |ops|
    && (forall i :: 0 <= i < |turns| ==> turns[i].op == ops[i])
    && (forall i :: 0 <= i < |turns| - 1 ==> turns[i].written.None?)
    && (turns != [] ==> turns[|turns| - 1].written == binding)
  }

  /**
   * The bootstrap sequence is accepted step by step: from a new installation it ends
   * active, in the first epoch, under the provisioned leader of the selected candidate,
   * with nothing blocked and nothing pending.
   */
  lemma BringUpSucceeds(
      h: Digests, g: State, w: World, p: Pid, turns: seq<Turn>,
      root: string, count: nat, candidate: SelectedLeader, leader: ActiveLeader, b: Binding)
    requires Initial(h, g, w) && NewTo(w.disk, turns)
    requires Carries(turns, BringUp(root, count, candidate, leader), Some(b)) && b.leaderEpoch == 1
    requires candidate.principalId != "" && leader.principalId == candidate.principalId && leader.generation == 1
    ensures var w' := Run(h, w, StepsOf(p, turns));
      var s := w'.disk.state.body;
      && w'.disk.journal.None? && w'.binding == Some(b)
      && s == g.body.(revision := 6, status := Active, selectedLeader := Some(candidate),
                      activeLeader := Some(leader), activeLeaderEpoch := 1,
                      lastEventId := s.lastEventId, lastEventDigest := s.lastEventDigest, updatedAt := s.updatedAt)
  {
    hide Run, StepsOf, Ready, Initial, Carries;
    assert turns[0..] == turns;
    NewIsReady(h, g, w, turns);
    CarriedOut(turns, BringUp(root, count, candidate, leader), Some(b));
    var w3 := DiscoverySucceeds(h, g, w, p, turns, root, count);
    SelectionSucceeds(h, g, w3, p, turns, candidate, leader, b);
  }

  /** The first half: the installation is initialized and its candidates are discovered. */
  lemma DiscoverySucceeds(
      h: Digests, g: State, w: World, p: Pid, turns: seq<Turn>, root: string, count: nat) returns (w': World)
    requires |turns| == 6 && Ready(h, g, w, turns[0..]) && w.disk.state.body.status.Uninitialized?
    requires turns[0].op == Initialize(root) && turns[1].op == StartDiscovery && turns[2].op == CompleteDiscovery(count)
    ensures Run(h, w, StepsOf(p, turns[0..])) == Run(h, w', StepsOf(p, turns[3..])) && Ready(h, g, w', turns[3..])
    ensures var s, s' := w.disk.state.body, w'.disk.state.body;
      s' == s.(revision := s.revision + 3, status := AwaitingLeaderSelection,
               lastEventId := s'.lastEventId, lastEventDigest := s'.lastEventDigest, updatedAt := s'.updatedAt)
  {
    hide Run, StepsOf, Ready, TailMatches, KindOf;
    var w1 := Advance(h, g, w, p, turns, 0);
    var w2 := Advance(h, g, w1, p, turns, 1);
    w' := Advance(h, g, w2, p, turns, 2);
  }

  /** The second half: a candidate is selected, started and activated. */
  lemma SelectionSucceeds(
      h: Digests, g: State, w: World, p: Pid, turns: seq<Turn>,
      candidate: SelectedLeader, leader: ActiveLeader, b: Binding)
    requires |turns| == 6 && Ready(h, g, w, turns[3..])
    requires turns[3].op == SelectLeader(candidate) && turns[4].op == StartLeader
    requires turns[5].op == ActivateLeader(leader, true)
    requires turns[3].written.None? && turns[4].written.None? && turns[5].written == Some(b)
    requires b.leaderEpoch == 1 && w.disk.state.body.activeLeaderEpoch == 0
    requires w.disk.state.body.status.AwaitingLeaderSelection?
    requires candidate.principalId != "" && leader.principalId == candidate.principalId && leader.generation == 1
    ensures var w' := Run(h, w, StepsOf(p, turns[3..]));
      var s, s' := w.disk.state.body, w'.disk.state.body;
      && w'.disk.journal.None? && w'.binding == Some(b)
      && s' == s.(revision := s.revision + 3, status := Active, selectedLeader := Some(candidate),
                  activeLeader := Some(leader), activeLeaderEpoch := 1, activeBlockers := [],
                  lastEventId := s'.lastEventId, lastEventDigest := s'.lastEventDigest, updatedAt := s'.updatedAt)
  {
    hide Run, StepsOf, Ready, TailMatches, KindOf;
    var w1 := Advance(h, g, w, p, turns, 3);
    var w2 := Advance(h, g, w1, p, turns, 4);
    var w3 := Advance(h, g, w2, p, turns, 5);
    TurnsOver(h, g, w3, p, turns);
  }

  lemma CarriedOut(turns: seq<Turn>, ops: seq<Operation>, binding: Option<Binding>)
    requires Carries(turns, ops, binding) && ops != []
    ensures |turns| == |ops| && turns[|turns| - 1].written == binding
    ensures forall i :: 0 <= i < |turns| ==> turns[i].op == ops[i]
    ensures forall i :: 0 <= i < |turns| - 1 ==> turns[i].written.None?
  {
  }

  lemma NewIsReady(h: Digests, g: State, w: World, turns: seq<Turn>)
    requires Initial(h, g, w) && NewTo(w.disk, turns)
    ensures Ready(h, g, w, turns) && w.disk.state == g
    ensures g.body
         == StateBody(g.body.installationId, 0, Uninitialized, None, None, 0, 0, [], None, None, g.body.updatedAt)
  {
    InitialInv(h, g, w);
  }

  /**
   * A restart that fails is undone by restoring the leader: the three calls are accepted
   * and leave the leader, the epoch, the registry revision and the status as they were.
   */
  lemma FailedRestartIsUndone(h: Digests, g: State, w: World, p: Pid, turns: seq<Turn>, adapterId: string)
    requires Ready(h, g, w, turns) && Enabled(RestartLeader, FullView(w))
    requires Carries(turns, [RestartLeader, FailActivation(RestartActivation, adapterId), RestoreLeader], None)
    ensures var w' := Run(h, w, StepsOf(p, turns));
      var s, s' := w.disk.state.body, w'.disk.state.body;
      && w'.disk.journal.None? && w'.binding == w.binding
      && s' == s.(revision := s.revision + 3, activeBlockers := [], lastEventId := s'.lastEventId,
                  lastEventDigest := s'.lastEventDigest, updatedAt := s'.updatedAt)
  {
    hide Run, StepsOf, Ready, TailMatches, Carries;
    assert turns[0..] == turns;
    CarriedOut(turns, [RestartLeader, FailActivation(RestartActivation, adapterId), RestoreLeader], None);
    var w1 := Advance(h, g, w, p, turns, 0);
    var w2 := Advance(h, g, w1, p, turns, 1);
    var w3 := Advance(h, g, w2, p, turns, 2);
    TurnsOver(h, g, w3, p, turns);
  }

  /**
   * A rotation goes through: from an active or a degraded installation it ends active, in
   * the next epoch, under the leader provisioned for the candidate, with its binding.
   */
  lemma RotationSucceeds(
      h: Digests, g: State, w: World, p: Pid, turns: seq<Turn>,
      candidate: SelectedLeader, leader: ActiveLeader, b: Binding)
    requires Ready(h, g, w, turns) && Enabled(RotateLeader(candidate), FullView(w))
    requires Carries(turns, [RotateLeader(candidate), ActivateLeader(leader, true)], Some(b))
    requires leader.principalId == candidate.principalId && leader.generation == w.binding.value.generation + 1
    requires b.leaderEpoch == w.disk.state.body.activeLeaderEpoch + 1
    ensures var w' := Run(h, w, StepsOf(p, turns));
      var s, s' := w.disk.state.body, w'.disk.state.body;
      && w'.disk.journal.None? && w'.binding == Some(b)
      && s' == s.(revision := s.revision + 2, status := Active, selectedLeader := Some(candidate),
                  activeLeader := Some(leader), activeLeaderEpoch := s.activeLeaderEpoch + 1, activeBlockers := [],
                  lastEventId := s'.lastEventId, lastEventDigest := s'.lastEventDigest, updatedAt := s'.updatedAt)
  {
    hide Run, StepsOf, Ready, TailMatches, KindOf, Carries;
    assert turns[0..] == turns;
    CarriedOut(turns, [RotateLeader(candidate), ActivateLeader(leader, true)], Some(b));
    var w1 := Advance(h, g, w, p, turns, 0);
    var w2 := Advance(h, g, w1, p, turns, 1);
    TurnsOver(h, g, w2, p, turns);
  }

  /**
   * A first start that fails can be tried again: blocked, approved for recovery, and then
   * activated, the installation ends as if the start had succeeded at once.
   */
  lemma FailedStartIsRecovered(
      h: Digests, g: State, w: World, p: Pid, turns: seq<Turn>, adapterId: string, session: string,
      leader: ActiveLeader, b: Binding)
    requires Ready(h, g, w, turns) && w.binding.None? && session != ""
    requires Enabled(ActivateLeader(leader, true), FullView(w)) && w.disk.state.body.status.ActivatingLeader?
    requires Carries(turns, [FailActivation(StartActivation, adapterId), RecoverStart(session, true, true),
                             ActivateLeader(leader, true)], Some(b)) && b.leaderEpoch == 1
    ensures var w' := Run(h, w, StepsOf(p, turns));
      var s, s' := w.disk.state.body, w'.disk.state.body;
      && w'.disk.journal.None? && w'.binding == Some(b)
      && s' == Reached(ActivateLeader(leader, true), s)
                 .(revision := s.revision + 3, lastEventId := s'.lastEventId,
                   lastEventDigest := s'.lastEventDigest, updatedAt := s'.updatedAt)
  {
    hide Run, StepsOf, Ready, TailMatches, KindOf, Carries;
    assert turns[0..] == turns;
    StartingEpoch(h, g, w, turns);
    CarriedOut(turns, [FailActivation(StartActivation, adapterId), RecoverStart(session, true, true),
                       ActivateLeader(leader, true)], Some(b));
    var w1 := Advance(h, g, w, p, turns, 0);
    var w2 := Advance(h, g, w1, p, turns, 1);
    var w3 := Advance(h, g, w2, p, turns, 2);
    TurnsOver(h, g, w3, p, turns);
  }

  lemma StartingEpoch(h: Digests, g: State, w: World, turns: seq<Turn>)
    requires Ready(h, g, w, turns) && w.disk.state.body.status.ActivatingLeader?
    ensures w.disk.state.body.activeLeaderEpoch == 0
  {
    hide StateAt, LedgersAgree, NewTo;
    assert GoodAt(h, g, w.disk.events, |w.disk.events|);
  }
}

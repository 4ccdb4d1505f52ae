/**
 * Runs of the control plane: any number of processes that read without the lock,
 * submit under it, and die at any write, in any interleaving.
 */
module ControlRuns {
  import opened Wrappers
  import opened ControlTypes
  import opened TransitionContract
  import opened TransitionJournal
  import opened LedgerReplay
  import opened LeaderOperations

  // ---------------------------------------------------------------- the journaled disk as an atomic one

  /** Every state of the history is good, and every event obeys the laws of epoch and leader. */
  ghost predicate HistoryGood(h: Digests, g: State, es: seq<Event>) {
    && (forall i: nat :: i <= |es| ==> GoodAt(h, g, es, i))
    && (forall i: nat :: i < |es| ==> AuthorityLawAt(h, g, es, i))
  }

  ghost predicate GoodAt(h: Digests, g: State, es: seq<Event>, i: nat)
    requires i <= |es|
  {
    GoodState(StateAt(h, g, es, i).body)
  }

  ghost predicate AuthorityLawAt(h: Digests, g: State, es: seq<Event>, i: nat)
    requires i < |es|
  {
    AuthorityLaw(StateAt(h, g, es, i).body, es[i].body.eventKind, StateAt(h, g, es, i + 1).body)
  }

  /** The disk holds the journal `j` on top of `base`, applied up to `done`. */
  ghost predicate PendingOn(h: Digests, g: State, base: Disk, j: Journal, done: nat, d: Disk) {
    && done < COMMIT_POINTS
    && Fits(h, g, base, j)
    && HistoryGood(h, g, base.events + [j.body.event])
    && d == Partial(base, j, done)
  }

  /** What every reachable disk satisfies, whether or not a journal is pending. */
  ghost predicate DiskInv(h: Digests, g: State, d: Disk) {
    if d.journal.None? then Consistent(h, g, d) && HistoryGood(h, g, d.events)
    else exists base: Disk, done: nat :: PendingOn(h, g, base, d.journal.value, done, d)
  }

  lemma ConsistentIsInv(h: Digests, g: State, d: Disk)
    requires Consistent(h, g, d) && HistoryGood(h, g, d.events)
    ensures DiskInv(h, g, d)
  {
  }

  /** A reachable disk can always be recovered, to a consistent disk. */
  lemma InvRecovers(h: Digests, g: State, d: Disk)
    requires DiskInv(h, g, d)
    ensures Recoverable(h, d)
    ensures Consistent(h, g, Recovered(d)) && HistoryGood(h, g, Recovered(d).events)
    ensures d.events <= Recovered(d).events
  {
    hide HistoryGood, LedgersAgree, CommitAccepts;
    if d.journal.Some? {
      var j := d.journal.value;
      var base: Disk, done: nat :| PendingOn(h, g, base, j, done, d);
      PartialAccepted(h, g, base, j, done);
      CommitResumes(h, g, base, j, done, COMMIT_POINTS);
      FitsExtends(h, g, base, j);
    }
  }

  /** A recovery or commit killed anywhere keeps the invariant and the disk it stands for. */
  lemma CommitKeepsInv(h: Digests, g: State, d: Disk, points: nat)
    requires DiskInv(h, g, d) && d.journal.Some?
    ensures DiskInv(h, g, CommitUpTo(d, points))
    ensures Recovered(CommitUpTo(d, points)) == Recovered(d)
  {
    var j := d.journal.value;
    var base: Disk, done: nat :| PendingOn(h, g, base, j, done, d);
    CommitResumes(h, g, base, j, done, points);
    CommitResumes(h, g, base, j, done, COMMIT_POINTS);
    var reached := if points > done then points else done;
    if reached < COMMIT_POINTS {
      assert PendingOn(h, g, base, j, reached, CommitUpTo(d, points));
      CommitResumes(h, g, base, j, reached, COMMIT_POINTS);
    } else {
      FitsExtends(h, g, base, j);
    }
  }

  /** The consistent disk `d` after the request has been committed as a whole. */
  function Extended(h: Digests, d: Disk, q: Request, z: Stamps): Disk {
    Partial(d, BuildJournal(h, d, q, z), COMMIT_POINTS)
  }

  /** The request is good against the state it would be committed on. */
  ghost predicate Sound(h: Digests, d: Disk, q: Request, z: Stamps) {
    Admitted(h, d, q) ==>
      && Conforming(q, d.state.body)
      && GoodState(NextBody(d.state.body, q, z))
      && AuthorityLaw(d.state.body, q.eventKind, NextBody(d.state.body, q, z))
  }

  lemma StampsKeepGood(h: Digests, s: StateBody, q: Request, z: Stamps, n: int)
    ensures GoodState(NextBody(s, q, z)) <==> GoodState(StateAfter(h, BuildEvent(h, s, q, z, n)).body)
  {
  }

  lemma HistoryExtends(h: Digests, g: State, d: Disk, q: Request, z: Stamps)
    requires Consistent(h, g, d) && HistoryGood(h, g, d.events)
    requires Admitted(h, d, q) && Sound(h, d, q, z)
    ensures HistoryGood(h, g, Extended(h, d, q, z).events)
  {
    hide LedgersAgree, EarlyOutcome, Conforming, GoodState;
    var es, es' := d.events, Extended(h, d, q, z).events;
    StampsKeepGood(h, d.state.body, q, z, |es| + 1);
    forall i: nat | i <= |es'|
      ensures GoodAt(h, g, es', i)
    {
      if i <= |es| { assert GoodAt(h, g, es, i); }
    }
    forall i: nat | i < |es'|
      ensures AuthorityLawAt(h, g, es', i)
    {
      if i < |es| { assert AuthorityLawAt(h, g, es, i); }
    }
  }

  /** The journal just written for a sound request will be committed, by this process or by a later one. */
  lemma JournalCommits(h: Digests, g: State, d: Disk, q: Request, z: Stamps)
    requires Consistent(h, g, d) && HistoryGood(h, g, d.events)
    requires Admitted(h, d, q) && Fresh(d, z) && Sound(h, d, q, z)
    ensures var pending := d.(journal := Some(BuildJournal(h, d, q, z)));
      DiskInv(h, g, pending) && CommitAccepts(h, pending) && Recovered(pending) == Extended(h, d, q, z)
  {
    var j := BuildJournal(h, d, q, z);
    BuiltJournalFits(h, g, d, q, z);
    HistoryExtends(h, g, d, q, z);
    var pending := d.(journal := Some(j));
    assert PendingOn(h, g, d, j, 0, pending);
    PartialAccepted(h, g, d, j, 0);
    CommitResumes(h, g, d, j, 0, COMMIT_POINTS);
  }

  /** All or nothing: `d'` stands for the same ledgers as `d`, or for those extended by the request. */
  ghost predicate AllOrNothing(h: Digests, d: Disk, q: Request, z: Stamps, d': Disk, r: Outcome) {
    && (|| Recovered(d') == Recovered(d)
        || (Admitted(h, Recovered(d), q) && Recovered(d') == Extended(h, Recovered(d), q, z)))
    && (r.Accepted? ==> Admitted(h, Recovered(d), q) && Recovered(d') == Extended(h, Recovered(d), q, z))
    && (r.Refused? || r.Replayed? ==> Recovered(d') == Recovered(d))
  }

  lemma SubmitRecoveredIsAtomic(h: Digests, g: State, d: Disk, q: Request, z: Stamps, commitPoints: nat)
    requires Consistent(h, g, d) && HistoryGood(h, g, d.events) && Fresh(d, z) && Sound(h, d, q, z)
    ensures var (d', r) := SubmitRecovered(h, d, q, z, commitPoints);
      DiskInv(h, g, d') && AllOrNothing(h, d, q, z, d', r)
  {
    hide DiskInv, Extended, BuildJournal, CommitAccepts, CommitUpTo, LedgersAgree, HistoryGood, EarlyOutcome, Sound;
    ConsistentIsInv(h, g, d);
    if Admitted(h, d, q) && commitPoints > 0 {
      JournalCommits(h, g, d, q, z);
      CommitKeepsInv(h, g, d.(journal := Some(BuildJournal(h, d, q, z))), commitPoints - 1);
    }
  }

  /**
   * A journaled transition is atomic. Wherever the submitting process dies, the
   * disk that recovery will produce is either unchanged or extended by exactly
   * this request; it is extended if the caller saw acceptance, and unchanged if
   * the caller saw a refusal or a replayed result.
   */
  lemma SubmitIsAtomic(h: Digests, g: State, d: Disk, q: Request, z: Stamps, recoverPoints: nat, commitPoints: nat)
    requires DiskInv(h, g, d) && Fresh(Recovered(d), z) && Sound(h, Recovered(d), q, z)
    ensures var (d', r) := Submit(h, d, q, z, recoverPoints, commitPoints);
      DiskInv(h, g, d') && AllOrNothing(h, d, q, z, d', r)
  {
    hide Extended, CommitAccepts, CommitUpTo, LedgersAgree, HistoryGood, SubmitRecovered, Sound;
    InvRecovers(h, g, d);
    if d.journal.Some? && recoverPoints < COMMIT_POINTS {
      CommitKeepsInv(h, g, d, recoverPoints);
    } else {
      SubmitRecoveredIsAtomic(h, g, Recovered(d), q, z, commitPoints);
      assert Recovered(Recovered(d)) == Recovered(d);
    }
  }

  // ---------------------------------------------------------------- read and submit under one lock

  lemma RequestKey(op: Operation, v: View, key: string)
    requires Prepare(op, v, key).Some?
    ensures Prepare(op, v, key).value.idempotencyKey == key
  {
  }

  /** A request prepared from the state on disk, under a new key, is admitted and sound. */
  lemma AdmittedOnRead(h: Digests, g: State, d: Disk, op: Operation, v: View, key: string, z: Stamps)
    requires Consistent(h, g, d) && HistoryGood(h, g, d.events) && FindMessage(d.messages, key).None?
    requires v.state == d.state && GoodView(v) && Accepts(op, v, key)
    ensures var q := Prepare(op, v, key).value; Admitted(h, d, q) && Sound(h, d, q, z)
  {
    hide Prepare, Refusal, FindMessage, LinkedAt, Conforming, NextBody, AuthorityLaw;
    RequestKey(op, v, key);
    OperationConforms(op, v, key);
    OperationPreserves(op, v, key, z);
    OperationObeys(op, v, key, z);
  }

  /** Such a submission is accepted unless its process dies, and then it is all or nothing. */
  lemma SubmitOnView(
      h: Digests, g: State, d: Disk, op: Operation, v: View, key: string, z: Stamps, recoverPoints: nat, points: nat)
    requires Consistent(h, g, d) && HistoryGood(h, g, d.events) && FindMessage(d.messages, key).None? && Fresh(d, z)
    requires v.state == d.state && GoodView(v) && Accepts(op, v, key)
    ensures var q := Prepare(op, v, key).value;
      var (d', r) := Submit(h, d, q, z, recoverPoints, points);
      && DiskInv(h, g, d')
      && (r.Accepted? <==> points > COMMIT_POINTS) && (r.Killed? <==> points <= COMMIT_POINTS)
      && (Recovered(d') == d || Recovered(d') == Extended(h, d, q, z))
      && (points > COMMIT_POINTS ==> d' == Extended(h, d, q, z))
  {
    hide Prepare, Sound, BuildJournal, CommitAccepts, HistoryGood, FindMessage, LedgersAgree, EarlyOutcome, Fresh,
         WriteMessage, WriteEvent, Extended, DiskInv;
    var q := Prepare(op, v, key).value;
    AdmittedOnRead(h, g, d, op, v, key, z);
    JournalCommits(h, g, d, q, z);
    ConsistentIsInv(h, g, d);
    SubmitIsAtomic(h, g, d, q, z, recoverPoints, points);
  }

  lemma SubmitOnRead(
      h: Digests, g: State, d: Disk, op: Operation, key: string, z: Stamps, recoverPoints: nat, points: nat)
    requires Consistent(h, g, d) && HistoryGood(h, g, d.events) && FindMessage(d.messages, key).None? && Fresh(d, z)
    requires var q := Prepare(op, View(d.state, None, None), key); q.Some? && Refusal(d.state.body, q.value).None?
    ensures var q := Prepare(op, View(d.state, None, None), key).value;
      var (d', r) := Submit(h, d, q, z, recoverPoints, points);
      && DiskInv(h, g, d')
      && (r.Accepted? <==> points > COMMIT_POINTS) && (r.Killed? <==> points <= COMMIT_POINTS)
      && (Recovered(d') == d || Recovered(d') == Extended(h, d, q, z))
      && (points > COMMIT_POINTS ==> d' == Extended(h, d, q, z))
  {
    hide Prepare, Refusal, Submit, FindMessage, LedgersAgree, Fresh, Extended, DiskInv;
    assert GoodAt(h, g, d.events, |d.events|);
    SubmitOnView(h, g, d, op, View(d.state, None, None), key, z, recoverPoints, points);
  }

  // ---------------------------------------------------------------- processes

  type Pid = nat

  /** Neither ledger loses or changes a record. */
  predicate Grows(d: Disk, d': Disk) {
    d.messages <= d'.messages && d.events <= d'.events
  }

  datatype World = World(disk: Disk, binding: Option<Binding>, views: map<Pid, View>)

  /**
   * One step of one process. Reads take no lock; `Call` is the locked section of an
   * operation on what the process has read, with the identifiers it drew, and the
   * writes it got to make; `Recover` is the recovery other entry points begin with.
   * What a process has read feeds one submission: every operation reads anew.
   */
  datatype Step =
    | ReadState(p: Pid)
    | ReadBinding(p: Pid)
    | ReadTail(p: Pid)
    | WriteBinding(p: Pid, written: Binding)
    | Recover(points: nat)
    | Die(p: Pid)
    | Call(p: Pid, op: Operation, key: string, z: Stamps, recoverPoints: nat, commitPoints: nat)

  /** The request of a call, if the process has read a state and does not refuse on it. */
  function RequestOf(w: World, s: Step): Option<Request> {
    if s.Call? && s.p in w.views then Prepare(s.op, w.views[s.p], s.key) else None
  }

  /** The disk after a call. Identifiers are random UUIDs: drawing one twice is not a step. */
  function CallDisk(h: Digests, w: World, s: Step): Disk
    requires s.Call?
  {
    var q := RequestOf(w, s);
    if q.Some? && Fresh(Recovered(w.disk), s.z)
    then Submit(h, w.disk, q.value, s.z, s.recoverPoints, s.commitPoints).0 else w.disk
  }

  /** A process that has submitted, or died, no longer holds what it read. */
  function Forget(w: World, p: Pid): World {
    w.(views := w.views - {p})
  }

  function Next(h: Digests, w: World, s: Step): World {
    match s
    case ReadState(p) => w.(views := w.views[p := View(w.disk.state, None, None)])
    case ReadBinding(p) =>
      if p in w.views then w.(views := w.views[p := w.views[p].(binding := w.binding)]) else w
    case ReadTail(p) =>
      if p in w.views && w.disk.events != []
      then w.(views := w.views[p := w.views[p].(tail := Some(w.disk.events[|w.disk.events| - 1]))]) else w
    case WriteBinding(p, b) =>
      if p in w.views && b.leaderEpoch == w.views[p].state.body.activeLeaderEpoch + 1
      then w.(binding := Some(b)) else w
    case Recover(points) =>
      if w.disk.journal.Some? && CommitAccepts(h, w.disk) then w.(disk := CommitUpTo(w.disk, points)) else w
    case Die(p) => Forget(w, p)
    case Call(p, _, _, _, _, _) => Forget(w.(disk := CallDisk(h, w, s)), p)
  }

  function Run(h: Digests, w: World, steps: seq<Step>): World
    decreases |steps|
  {
    if steps == [] then w else Run(h, Next(h, w, steps[0]), steps[1..])
  }

  /** A view is a state of the history, read at some moment; the binding was written by an activation. */
  ghost predicate ViewInv(h: Digests, g: State, es: seq<Event>, v: View) {
    && 0 <= v.state.body.revision <= |es|
    && v.state == StateAt(h, g, es, v.state.body.revision)
    && GoodView(v)
  }

  ghost predicate WorldInv(h: Digests, g: State, w: World) {
    && DiskInv(h, g, w.disk)
    && (w.binding.Some? ==> w.binding.value.leaderEpoch >= 1)
    && (forall p :: p in w.views ==> ViewInv(h, g, Recovered(w.disk).events, w.views[p]))
  }

  lemma RevisionAt(h: Digests, g: State, d: Disk, i: nat)
    requires Consistent(h, g, d) && i <= |d.events|
    ensures StateAt(h, g, d.events, i).body.revision == i
  {
    if i < |d.events| {
      assert LinkedAt(h, g, d.messages, d.events, i);
    } else if i > 0 {
      assert LinkedAt(h, g, d.messages, d.events, i - 1);
    }
  }

  /** Any state of a good history may have been read. */
  lemma HistoryIsViewable(h: Digests, g: State, d: Disk, i: nat)
    requires Consistent(h, g, d) && HistoryGood(h, g, d.events) && i <= |d.events|
    ensures ViewInv(h, g, d.events, View(StateAt(h, g, d.events, i), None, None))
  {
    hide GoodState, LinkedAt, LedgersAgree;
    RevisionAt(h, g, d, i);
    assert GoodAt(h, g, d.events, i);
  }

  /** A partly applied journal shows the state before or the state after its event. */
  lemma PendingState(h: Digests, g: State, base: Disk, j: Journal, done: nat)
    requires Fits(h, g, base, j) && done < COMMIT_POINTS
    ensures Recovered(Partial(base, j, done)) == Partial(base, j, COMMIT_POINTS)
    ensures Partial(base, j, done).state
         == StateAt(h, g, base.events + [j.body.event], if done >= 3 then |base.events| + 1 else |base.events|)
  {
    hide LedgersAgree, Linked, CommitUpTo;
    CommitResumes(h, g, base, j, done, COMMIT_POINTS);
  }

  /** The state on disk is a state of the history, even while a journal is pending. */
  lemma PersistedStateIsHistory(h: Digests, g: State, d: Disk)
    requires DiskInv(h, g, d)
    ensures ViewInv(h, g, Recovered(d).events, View(d.state, None, None))
  {
    hide HistoryGood, LedgersAgree, CommitUpTo, CommitAccepts, Fits, StateAt, ViewInv;
    InvRecovers(h, g, d);
    if d.journal.Some? {
      var j := d.journal.value;
      var base: Disk, done: nat :| PendingOn(h, g, base, j, done, d);
      PendingState(h, g, base, j, done);
      HistoryIsViewable(h, g, Recovered(d), if done >= 3 then |base.events| + 1 else |base.events|);
    } else {
      HistoryIsViewable(h, g, d, |d.events|);
    }
  }

  /** Same revision, same state: a process whose revision is still current has read the current state. */
  lemma NoABA(h: Digests, g: State, w: World, p: Pid)
    requires WorldInv(h, g, w) && p in w.views
    requires w.views[p].state.body.revision == Recovered(w.disk).state.body.revision
    ensures w.views[p].state == Recovered(w.disk).state
  {
    InvRecovers(h, g, w.disk);
    RevisionAt(h, g, Recovered(w.disk), |Recovered(w.disk).events|);
  }

  lemma AdmittedNotRefused(h: Digests, d: Disk, q: Request)
    ensures Admitted(h, d, q) ==> Refusal(d.state.body, q).None? && q.expectedRevision == d.state.body.revision
  {
  }

  /** Whatever a process submits is sound against the state it would be committed on. */
  lemma CallIsSound(h: Digests, g: State, w: World, s: Step)
    requires WorldInv(h, g, w) && RequestOf(w, s).Some?
    ensures Sound(h, Recovered(w.disk), RequestOf(w, s).value, s.z)
    ensures Admitted(h, Recovered(w.disk), RequestOf(w, s).value) && !s.op.Initialize? ==>
            w.views[s.p].state == Recovered(w.disk).state
  {
    hide Prepare, CommitUpTo, Conforming, NextBody, AuthorityLaw, LedgersAgree, GoodState, Refusal, EarlyOutcome,
         DiskInv;
    var d, q := Recovered(w.disk), RequestOf(w, s).value;
    AdmittedNotRefused(h, d, q);
    InvRecovers(h, g, w.disk);
    if Admitted(h, d, q) {
      RequestCarriesReadRevision(s.op, w.views[s.p], s.key);
      var v := w.views[s.p];
      if s.op.Initialize? {
        v := View(d.state, None, None);
        InitializeIgnoresView(s.op, w.views[s.p], v, s.key);
        assert GoodAt(h, g, d.events, |d.events|);
      } else {
        NoABA(h, g, w, s.p);
      }
      OperationConforms(s.op, v, s.key);
      OperationPreserves(s.op, v, s.key, s.z);
      OperationObeys(s.op, v, s.key, s.z);
    }
  }

  lemma ViewsSurvive(h: Digests, g: State, es: seq<Event>, es': seq<Event>, v: View)
    requires ViewInv(h, g, es, v) && es <= es'
    ensures ViewInv(h, g, es', v)
  {
  }

  lemma CallKeepsDiskInv(h: Digests, g: State, w: World, s: Step)
    requires WorldInv(h, g, w) && s.Call?
    ensures DiskInv(h, g, CallDisk(h, w, s))
    ensures Grows(Recovered(w.disk), Recovered(CallDisk(h, w, s)))
  {
    hide Submit, CommitUpTo, BuildJournal, Prepare, Sound, Fresh, DiskInv, Admitted;
    if RequestOf(w, s).Some? && Fresh(Recovered(w.disk), s.z) {
      CallIsSound(h, g, w, s);
      SubmitIsAtomic(h, g, w.disk, RequestOf(w, s).value, s.z, s.recoverPoints, s.commitPoints);
    }
  }

  lemma StepKeepsDiskInv(h: Digests, g: State, w: World, s: Step)
    requires WorldInv(h, g, w)
    ensures DiskInv(h, g, Next(h, w, s).disk)
    ensures Grows(Recovered(w.disk), Recovered(Next(h, w, s).disk))
  {
    hide CallDisk, CommitUpTo, CommitAccepts, DiskInv, ViewInv;
    if s.Call? {
      CallKeepsDiskInv(h, g, w, s);
    } else if s.Recover? && w.disk.journal.Some? {
      CommitKeepsInv(h, g, w.disk, s.points);
    }
  }

  /** No step of any process breaks the invariant. */
  lemma StepKeepsInv(h: Digests, g: State, w: World, s: Step)
    requires WorldInv(h, g, w)
    ensures WorldInv(h, g, Next(h, w, s))
    ensures Grows(Recovered(w.disk), Recovered(Next(h, w, s).disk))
  {
    hide CallDisk, CommitUpTo, CommitAccepts, DiskInv, StateAt;
    var w' := Next(h, w, s);
    StepKeepsDiskInv(h, g, w, s);
    PersistedStateIsHistory(h, g, w.disk);
    forall p | p in w'.views
      ensures ViewInv(h, g, Recovered(w'.disk).events, w'.views[p])
    {
      if p in w.views {
        ViewsSurvive(h, g, Recovered(w.disk).events, Recovered(w'.disk).events, w.views[p]);
      }
    }
  }

  /** The world `init` leaves behind before its first transition. */
  ghost predicate Initial(h: Digests, g: State, w: World) {
    && Consistent(h, g, w.disk) && w.disk.events == []
    && w.binding.None? && w.views == map[]
  }

  /** Every reachable world satisfies the invariant, and its history only grows. */
  lemma {:induction false} RunsKeepInv(h: Digests, g: State, w: World, steps: seq<Step>)
    requires WorldInv(h, g, w)
    ensures WorldInv(h, g, Run(h, w, steps))
    ensures Grows(Recovered(w.disk), Recovered(Run(h, w, steps).disk))
    decreases |steps|
  {
    if steps != [] {
      StepKeepsInv(h, g, w, steps[0]);
      RunsKeepInv(h, g, Next(h, w, steps[0]), steps[1..]);
    }
  }

  lemma InitialInv(h: Digests, g: State, w: World)
    requires Initial(h, g, w)
    ensures WorldInv(h, g, w)
  {
    assert GoodAt(h, g, w.disk.events, 0);
  }

  // ---------------------------------------------------------------- what every run guarantees

  /** A world reached from initialization by some interleaving, with some kills. */
  ghost predicate Reachable(h: Digests, g: State, w0: World, steps: seq<Step>, w: World) {
    Initial(h, g, w0) && w == Run(h, w0, steps)
  }

  lemma ReachableInv(h: Digests, g: State, w0: World, steps: seq<Step>, w: World)
    requires Reachable(h, g, w0, steps, w)
    ensures WorldInv(h, g, w)
  {
    InitialInv(h, g, w0);
    RunsKeepInv(h, g, w0, steps);
  }

  /** No run wedges the control plane, and the state on disk is always a good one. */
  lemma ReachableStateGood(h: Digests, g: State, w0: World, steps: seq<Step>, w: World)
    requires Reachable(h, g, w0, steps, w)
    ensures GoodState(w.disk.state.body)
    ensures Recoverable(h, w.disk) && Consistent(h, g, Recovered(w.disk))
  {
    ReachableInv(h, g, w0, steps, w);
    PersistedStateIsHistory(h, g, w.disk);
    InvRecovers(h, g, w.disk);
  }

  /**
   * The history of every run, event by event: the installation moved along
   * LEGAL_TRANSITIONS, the event carries the epoch in force before it, the epoch grew
   * by one at a leader activation and not at all otherwise, the leader activated is the
   * one selected, and a rotation ends with another leader than it began with.
   */
  lemma ReachableHistory(h: Digests, g: State, w0: World, steps: seq<Step>, w: World, i: nat)
    requires Reachable(h, g, w0, steps, w) && i < |w.disk.events|
    ensures var prior, next := StateAt(h, g, w.disk.events, i).body, StateAt(h, g, w.disk.events, i + 1).body;
      && Legal(prior.status, next.status)
      && w.disk.events[i].body.leaderEpoch == prior.activeLeaderEpoch
      && AuthorityLaw(prior, w.disk.events[i].body.eventKind, next)
      && GoodState(prior) && GoodState(next)
  {
    hide CommitUpTo, DiskInv, GoodState, AuthorityLaw, Run, Initial;
    ReachableInv(h, g, w0, steps, w);
    InvRecovers(h, g, w.disk);
    var full := Recovered(w.disk);
    assert LinkedAt(h, g, full.messages, full.events, i);
    assert GoodAt(h, g, full.events, i) && GoodAt(h, g, full.events, i + 1) && AuthorityLawAt(h, g, full.events, i);
  }

  /** In every run, once an event exists and no journal is pending, replay returns the persisted state. */
  lemma ReachableReplays(h: Digests, g: State, w0: World, steps: seq<Step>, w: World, now: Timestamp)
    requires Reachable(h, g, w0, steps, w) && w.disk.journal.None? && w.disk.events != []
    ensures ReplayAccepts(h, w.disk, now) && ReplayedAt(h, w.disk, now, |w.disk.events|) == w.disk.state
  {
    hide ReplayAccepts, ReplayedAt;
    ReachableInv(h, g, w0, steps, w);
    ReplayRefines(h, g, w.disk, now);
  }

  /**
   * Fencing under concurrency: a call that adds to the ledgers was prepared from
   * exactly the state it is committed on, although it read that state without the
   * lock, and its event carries the epoch of that state.
   */
  lemma FencedAcceptance(h: Digests, g: State, w: World, s: Step)
    requires WorldInv(h, g, w) && s.Call?
    requires Recovered(Next(h, w, s).disk) != Recovered(w.disk)
    ensures var d, d' := Recovered(w.disk), Recovered(Next(h, w, s).disk);
      && s.p in w.views
      && (s.op.Initialize? || w.views[s.p].state == d.state)
      && |d'.events| == |d.events| + 1
      && d'.events[|d.events|].body.leaderEpoch == d.state.body.activeLeaderEpoch
  {
    hide Prepare, CommitUpTo, Submit, DiskInv, GoodState, LedgersAgree, ViewInv, Sound;
    assert RequestOf(w, s).Some? && Fresh(Recovered(w.disk), s.z);
    CallIsSound(h, g, w, s);
    SubmitIsAtomic(h, g, w.disk, RequestOf(w, s).value, s.z, s.recoverPoints, s.commitPoints);
  }

  // ---------------------------------------------------------------- what a call returns

  function OutcomeOf(h: Digests, w: World, s: Step): Outcome
    requires s.Call?
  {
    var q := RequestOf(w, s);
    if q.Some? && Fresh(Recovered(w.disk), s.z)
    then Submit(h, w.disk, q.value, s.z, s.recoverPoints, s.commitPoints).1 else Refused(IllegalTransition)
  }

  /** What one committed request changes on a disk. */
  lemma ExtendedFacts(h: Digests, d: Disk, q: Request, z: Stamps)
    ensures var d', revision := Extended(h, d, q, z), q.payload.registryRevision;
      && d'.journal.None?
      && d'.state.body.status == q.targetStatus && d'.state.body.revision == d.state.body.revision + 1
      && d'.state.body.registryRevision == (if revision.Some? then revision.value else d.state.body.registryRevision)
      && |d'.events| == |d.events| + 1 && d.events <= d'.events
      && |d'.messages| == |d.messages| + 1 && d.messages <= d'.messages
      && d'.messages[|d.messages|].body.idempotencyKey == q.idempotencyKey
      && MessageContent(d'.messages[|d.messages|].body) == ContentOf(q)
  {
  }

  /** The request was committed: it passed every check, on the state its process had read. */
  ghost predicate Committed(h: Digests, w: World, s: Step)
    requires s.Call?
  {
    && RequestOf(w, s).Some?
    && var d, q := Recovered(w.disk), RequestOf(w, s).value;
    && Refusal(d.state.body, q).None?
    && FindMessage(d.messages, q.idempotencyKey).None?
    && (s.op.Initialize? || w.views[s.p].state == d.state)
    && Recovered(Next(h, w, s).disk) == Extended(h, d, q, s.z)
  }

  /** What a call does to the disk that recovery stands for: nothing, or exactly its request. */
  lemma CallEffect(h: Digests, g: State, w: World, s: Step)
    requires WorldInv(h, g, w) && s.Call?
    ensures Committed(h, w, s) || Recovered(Next(h, w, s).disk) == Recovered(w.disk)
    ensures OutcomeOf(h, w, s).Accepted? ==> Committed(h, w, s) && Next(h, w, s).disk.journal.None?
    ensures OutcomeOf(h, w, s).Replayed? ==>
      && RequestOf(w, s).Some?
      && FindMessage(Recovered(w.disk).messages, RequestOf(w, s).value.idempotencyKey).Some?
      && Next(h, w, s).disk == Recovered(w.disk) && Next(h, w, s).disk.journal.None?
  {
    hide Prepare, CommitUpTo, DiskInv, Refusal, Submit, Admitted, Sound, Fresh, Extended, LedgersAgree, ViewInv;
    InvRecovers(h, g, w.disk);
    if RequestOf(w, s).Some? && Fresh(Recovered(w.disk), s.z) {
      CallIsSound(h, g, w, s);
      SubmitIsAtomic(h, g, w.disk, RequestOf(w, s).value, s.z, s.recoverPoints, s.commitPoints);
      SubmitReturns(h, w.disk, RequestOf(w, s).value, s.z, s.recoverPoints, s.commitPoints);
    }
  }

  lemma SubmitReturns(h: Digests, d: Disk, q: Request, z: Stamps, recoverPoints: nat, commitPoints: nat)
    requires Recoverable(h, d) && Recovered(d).journal.None?
    ensures var (d', r) := Submit(h, d, q, z, recoverPoints, commitPoints);
      && (r.Accepted? ==> d'.journal.None?)
      && (r.Replayed? ==> d' == Recovered(d) && FindMessage(d'.messages, q.idempotencyKey).Some?)
    ensures Admitted(h, Recovered(d), q) ==>
      Refusal(Recovered(d).state.body, q).None? && FindMessage(Recovered(d).messages, q.idempotencyKey).None?
  {
    hide CommitAccepts, WriteMessage, WriteEvent, Refusal, BuildJournal, FindMessage;
    BuiltForSame(h, Recovered(d), q, z);
  }

  /** A journal is built for the installation it will be committed to. */
  lemma BuiltForSame(h: Digests, d: Disk, q: Request, z: Stamps)
    ensures SameInstallation(d.(journal := Some(BuildJournal(h, d, q, z))))
  {
  }

  // ---------------------------------------------------------------- an initialization that was killed

  /** On an installation without events nothing but its initialization is ever admitted. */
  lemma UninitializedRefuses(op: Operation, v: View, key: string)
    requires GoodView(v) && v.state.body.status == Uninitialized && !op.Initialize? && Prepare(op, v, key).Some?
    ensures Refusal(v.state.body, Prepare(op, v, key).value).Some?
  {
  }

  predicate NoInitialize(steps: seq<Step>) {
    forall i :: 0 <= i < |steps| ==> !(steps[i].Call? && steps[i].op.Initialize?)
  }

  lemma UninitializedStep(h: Digests, g: State, w: World, s: Step)
    requires WorldInv(h, g, w) && Consistent(h, g, w.disk) && w.disk.events == [] && !(s.Call? && s.op.Initialize?)
    ensures Next(h, w, s).disk == w.disk
  {
    hide Prepare, DiskInv, LinkedAt, Refusal, Fresh, CommitUpTo;
    if s.Call? && RequestOf(w, s).Some? {
      var q := RequestOf(w, s).value;
      CallIsSound(h, g, w, s);
      AdmittedNotRefused(h, w.disk, q);
      if Admitted(h, w.disk, q) { UninitializedRefuses(s.op, w.views[s.p], s.key); }
    }
  }

  /**
   * `init` is not restartable. A kill after it has written its files and before its
   * first transition leaves a root that no later step changes, since a second `init`
   * only reports the status of an existing installation; and it reports that status if
   * and only if the clock still shows the second of the first one.
   */
  lemma {:induction false} KilledInitIsStuck(h: Digests, g: State, w: World, steps: seq<Step>, now: Timestamp)
    requires WorldInv(h, g, w) && Consistent(h, g, w.disk) && w.disk.events == [] && NoInitialize(steps)
    ensures Run(h, w, steps).disk == w.disk
    ensures ReplayAccepts(h, Run(h, w, steps).disk, now) <==> now == g.body.updatedAt
    decreases |steps|
  {
    hide WorldInv, Consistent, Next, ReplayAccepts;
    if steps == [] {
      ReplayOfEmptyLedgers(h, g, w.disk, now);
    } else {
      StepKeepsInv(h, g, w, steps[0]);
      UninitializedStep(h, g, w, steps[0]);
      KilledInitIsStuck(h, g, Next(h, w, steps[0]), steps[1..], now);
    }
  }

  // ---------------------------------------------------------------- idempotency keys

  lemma {:induction false} FindMessageUnique(ms: seq<Message>, i: nat)
    requires i < |ms|
    requires forall j, k :: 0 <= j < k < |ms| ==> ms[j].body.idempotencyKey != ms[k].body.idempotencyKey
    ensures FindMessage(ms, ms[i].body.idempotencyKey) == Some(ms[i])
  {
    if i > 0 {
      FindMessageUnique(ms[1..], i - 1);
    }
  }

  /**
   * Idempotency over runs. A message accepted at any point of a run is found again
   * after any further steps: a retry with the same content returns the original
   * result, and a retry with other content is refused, unless the digests collide.
   * Neither changes the ledgers or the state, however far the revision has moved.
   */
  lemma RetryAfterRun(h: Digests, g: State, w: World, i: nat, steps: seq<Step>, q: Request, z: Stamps)
    requires WorldInv(h, g, w) && i < |Recovered(w.disk).messages|
    requires q.idempotencyKey == Recovered(w.disk).messages[i].body.idempotencyKey
    ensures var m, later := Recovered(w.disk).messages[i].body, Run(h, w, steps).disk;
      && (ContentOf(q) == MessageContent(m) ==>
            Submit(h, later, q, z, COMMIT_POINTS, COMMIT_POINTS) == (Recovered(later), Replayed(m.result)))
      && (h.content(ContentOf(q)) != h.content(MessageContent(m)) ==>
            Submit(h, later, q, z, COMMIT_POINTS, COMMIT_POINTS)
            == (Recovered(later), Refused(IdempotencyConflict)))
  {
    hide CommitUpTo, CommitNew, BuildJournal, DiskInv, CommitAccepts, HistoryGood;
    RunsKeepInv(h, g, w, steps);
    var later := Run(h, w, steps).disk;
    InvRecovers(h, g, later);
    var full := Recovered(later);
    assert full.messages[i] == Recovered(w.disk).messages[i];
    FindMessageUnique(full.messages, i);
    assert LinkedAt(h, g, full.messages, full.events, i);
  }
}

/**
 * `_migrate_draft_apply_unlocked`: the promotion of a 0.3.0-draft installation, with
 * a kill between (or inside) any two of its file replacements, and rerun at will.
 */
module DraftMigration {
  import opened Wrappers
  import opened ControlTypes
  import opened TransitionContract
  import opened TransitionJournal
  import opened LedgerReplay
  import opened LeaderOperations
  import opened ControlRuns

  datatype ManifestBody = ManifestBody(
    activeProtocolVersion: Version, readVersions: seq<Version>, writeVersions: seq<Version>,
    migrationPaths: seq<(Version, Version)>, implementationId: string)

  datatype Manifest = Manifest(body: ManifestBody, manifestDigest: Digest)

  /** The bytes of the control root that a plan inventories and a snapshot holds. */
  datatype Checkpoint = Checkpoint(
    messages: seq<Message>, events: seq<Event>, state: State, installation: Installation,
    manifest: Manifest, others: map<string, string>)

  datatype ReceiptStatus = AppliedStatus | RolledBackStatus | BlockedStatus

  datatype Receipt = Receipt(
    migrationId: string, planDigest: Digest, installationId: Id, status: ReceiptStatus, createdAt: Timestamp)

  /** The digests that are not those of the ledgers; `files` stands for the digests and lengths of all files. */
  datatype Hashes = Hashes(
    ledgers: Digests, manifest: ManifestBody -> Digest, receipt: Receipt -> Digest, files: Checkpoint -> Digest)

  datatype Plan = Plan(
    migrationId: string, planDigest: Digest, installationId: Id, refs: set<string>, fingerprint: Digest,
    expectedRevision: int, expectedRegistryRevision: int, expectedEpoch: int)

  /** The control root. `orphans` are temporary files that an interrupted replacement left in it. */
  datatype Files = Files(
    disk: Disk, manifest: Manifest, others: map<string, string>, orphans: set<string>,
    snapshot: Option<Checkpoint>, receipt: Option<Receipt>)

  const CORE_REFS := {"installation.json", "protocol-manifest.json", "state.json", "messages.jsonl", "events.jsonl"}

  function ContentOfRoot(x: Files): Checkpoint {
    Checkpoint(x.disk.messages, x.disk.events, x.disk.state, x.disk.installation, x.manifest, x.others)
  }

  // ---------------------------------------------------------------- the transform

  function StableInstallation(i: Installation): Installation {
    i.(activeProtocolVersion := Stable030)
  }

  function StableManifest(e: Hashes, m: Manifest): Manifest {
    var body := m.body.(activeProtocolVersion := Stable030, readVersions := [Stable030, Legacy020],
                        writeVersions := [Stable030],
                        migrationPaths := [(Legacy020, Stable030), (Draft030, Stable030)]);
    Manifest(body, e.manifest(body))
  }

  predicate SnapshotValid(e: Hashes, plan: Plan, c: Checkpoint) {
    CORE_REFS + c.others.Keys == plan.refs && e.files(c) == plan.fingerprint
  }

  predicate SameAuthority(a: StateBody, b: StateBody) {
    && a.installationId == b.installationId && a.registryRevision == b.registryRevision
    && a.activeLeaderEpoch == b.activeLeaderEpoch && a.selectedLeader == b.selectedLeader
    && a.activeLeader == b.activeLeader
  }

  /** `validate_checkpoint` raises nothing. */
  ghost predicate CheckpointValid(e: Hashes, plan: Plan, x: Files, now: Timestamp) {
    && x.snapshot.Some? && SnapshotValid(e, plan, x.snapshot.value)
    && x.others == x.snapshot.value.others
    && SameAuthority(x.disk.state.body, x.snapshot.value.state.body)
    && x.disk.state.body.activeLeaderEpoch == plan.expectedEpoch
    && x.disk.state.body.registryRevision == plan.expectedRegistryRevision
    && ReplayAccepts(e.ledgers, x.disk, now)
  }

  /** `validate_stable_files` raises nothing. */
  predicate StableFiles(e: Hashes, x: Files, c: Checkpoint) {
    x.disk.installation == StableInstallation(c.installation) && x.manifest == StableManifest(e, c.manifest)
  }

  predicate HasApplied(plan: Plan, r: Option<Receipt>) {
    && r.Some? && r.value.migrationId == plan.migrationId && r.value.planDigest == plan.planDigest
    && r.value.status == AppliedStatus
  }

  // ---------------------------------------------------------------- one attempt

  datatype Result = Died | Raised | Returned(receipt: Receipt)

  /** The random identifiers and the clock readings of one attempt. */
  datatype Draws = Draws(approval: Stamps, activation: Stamps, createdAt: Timestamp, now: Timestamp)

  function ApplyKey(plan: Plan): string { "migration-apply-" + plan.migrationId }

  function CompleteKey(plan: Plan): string { "migration-complete-" + plan.migrationId }

  /** What `_transition_unlocked` does for the caller that just read the state. */
  function Transition(e: Hashes, x: Files, op: Operation, key: string, z: Stamps, points: nat): (Files, Outcome) {
    var q := Prepare(op, View(x.disk.state, None, None), key);
    if q.None? then (x, Refused(IllegalTransition))
    else
      var (d, r) := Submit(e.ledgers, x.disk, q.value, z, COMMIT_POINTS, points);
      (x.(disk := d), r)
  }

  function Activate(e: Hashes, plan: Plan, x: Files, receipt: Receipt, w: Draws, points: nat): (Files, Result) {
    var op := ActivateMigration(plan.migrationId, e.receipt(receipt));
    var (x', r) := Transition(e, x, op, CompleteKey(plan), w.activation, points);
    (x', if r.Killed? then Died else if r.Refused? then Raised else Returned(receipt))
  }

  /** The three replacements that promote the installation, from the checkpointed originals. */
  function Promote(e: Hashes, plan: Plan, x: Files, c: Checkpoint, w: Draws, points: nat): (Files, Result) {
    if c.installation.installationId != plan.installationId
       || c.installation.activeProtocolVersion != Draft030 || c.manifest.body.activeProtocolVersion != Draft030
       || c.manifest.manifestDigest != e.manifest(c.manifest.body)
    then (x, Raised)
    else if points == 0 then (x, Died)
    else
      var x1 := x.(disk := x.disk.(installation := StableInstallation(c.installation)));
      if points == 1 then (x1, Died)
      else
        var x2 := x1.(manifest := StableManifest(e, c.manifest));
        if points == 2 then (x2, Died)
        else
          var receipt := Receipt(plan.migrationId, plan.planDigest, plan.installationId, AppliedStatus, w.createdAt);
          Activate(e, plan, x2.(receipt := Some(receipt)), receipt, w, points - 3)
  }

  function ApproveOperation(plan: Plan): Operation {
    ApproveMigration(plan.migrationId, plan.planDigest)
  }

  /** The snapshot and the approval, taken while the installation is still active. */
  function Approve(e: Hashes, plan: Plan, x: Files, w: Draws, points: nat): (Files, Result) {
    var s, c := x.disk.state.body, ContentOfRoot(x);
    if s.revision != plan.expectedRevision || s.registryRevision != plan.expectedRegistryRevision
       || s.activeLeaderEpoch != plan.expectedEpoch || e.files(c) != plan.fingerprint
       || (x.snapshot.Some? && !(SnapshotValid(e, plan, x.snapshot.value) && x.snapshot.value == c))
    then (x, Raised)
    else if x.snapshot.None? && points == 0 then (x, Died)
    else
      var left := if x.snapshot.None? then points - 1 else points;
      var x1 := x.(snapshot := Some(c));
      var (x2, r) := Transition(e, x1, ApproveOperation(plan), ApplyKey(plan), w.approval, left);
      if r.Killed? then (x2, Died) else if r.Refused? then (x2, Raised)
      else Promote(e, plan, x2, c, w, if left > COMMIT_POINTS then left - COMMIT_POINTS - 1 else 0)
  }

  ghost function AttemptRecovered(e: Hashes, plan: Plan, x: Files, w: Draws, points: nat): (Files, Result) {
    var status := x.disk.state.body.status;
    if CORE_REFS + x.others.Keys + x.orphans != plan.refs || (status != Active && status != Migrating) then (x, Raised)
    else if HasApplied(plan, x.receipt) then
      var receipt := x.receipt.value;
      if receipt.installationId != plan.installationId || !CheckpointValid(e, plan, x, w.now)
         || !StableFiles(e, x, x.snapshot.value)
      then (x, Raised)
      else if status == Active then (x, Returned(receipt))
      else Activate(e, plan, x, receipt, w, points)
    else if status == Active then Approve(e, plan, x, w, points)
    else if !CheckpointValid(e, plan, x, w.now) then (x, Raised)
    else Promote(e, plan, x, x.snapshot.value, w, points)
  }

  /** A kill after `points` replacements, and the temporary files it leaves in the control root. */
  datatype Kill = Kill(points: nat, leftovers: set<string>)

  ghost function Attempt(e: Hashes, plan: Plan, x: Files, w: Draws, k: Kill): (Files, Result) {
    var (x', r) :=
      if x.disk.journal.None? then AttemptRecovered(e, plan, x, w, k.points)
      else if !CommitAccepts(e.ledgers, x.disk) then (x, Raised)
      else if !SameInstallation(x.disk) && k.points >= 4 then (x.(disk := CommitUpTo(x.disk, k.points)), Raised)
      else if k.points < COMMIT_POINTS then (x.(disk := CommitUpTo(x.disk, k.points)), Died)
      else AttemptRecovered(e, plan, x.(disk := Recovered(x.disk)), w, k.points - COMMIT_POINTS);
    (if r.Died? then x'.(orphans := x'.orphans + k.leftovers) else x', r)
  }

  /** No identifier is drawn twice. */
  predicate FreshDraws(d: Disk, w: Draws) {
    && Fresh(d, w.approval) && Fresh(d, w.activation)
    && w.approval.messageId != w.activation.messageId && w.approval.eventId != w.activation.eventId
  }

  /**
   * Identifiers are random, and a temporary file is created under a name no file has:
   * an attempt that draws one twice is not a step.
   */
  predicate Possible(plan: Plan, x: Files, w: Draws, k: Kill) {
    FreshDraws(Recovered(x.disk), w) && k.leftovers !! plan.refs
  }

  /** Any number of attempts, one after the other. */
  ghost function Attempts(e: Hashes, plan: Plan, x: Files, tries: seq<(Draws, Kill)>): Files
    decreases |tries|
  {
    if tries == [] then x
    else
      var (w, k) := tries[0];
      var x' := if Possible(plan, x, w, k) then Attempt(e, plan, x, w, k).0 else x;
      Attempts(e, plan, x', tries[1..])
  }

  // ---------------------------------------------------------------- where a migration can be

  /** The plan was made for the checkpoint `c`, an active draft installation. */
  ghost predicate PlanOf(e: Hashes, plan: Plan, c: Checkpoint) {
    var s := c.state.body;
    && SnapshotValid(e, plan, c)
    && s.status == Active
    && plan.expectedRevision == s.revision && plan.expectedRegistryRevision == s.registryRevision
    && plan.expectedEpoch == s.activeLeaderEpoch && plan.installationId == c.installation.installationId
    && c.installation.installationStatus == Active && c.installation.activeLeaderEpoch == s.activeLeaderEpoch
    && c.installation.activeProtocolVersion == Draft030 && c.manifest.body.activeProtocolVersion == Draft030
    && c.manifest.manifestDigest == e.manifest(c.manifest.body)
  }

  ghost predicate NotSubmitted(ms: seq<Message>, key: string) {
    forall i :: 0 <= i < |ms| ==> ms[i].body.idempotencyKey != key
  }

  ghost predicate NotStarted(plan: Plan, c: Checkpoint, x: Files) {
    && ContentOfRoot(x) == c && !HasApplied(plan, x.receipt)
    && (x.snapshot.None? || x.snapshot == Some(c))
    && NotSubmitted(x.disk.messages, ApplyKey(plan)) && NotSubmitted(x.disk.messages, CompleteKey(plan))
  }

  /** The event records the approval of this plan. */
  predicate Approves(plan: Plan, ev: Event) {
    && ev.body.eventKind == MigrationApplyApproved
    && ev.body.payload.details == map[MigrationId := Text(plan.migrationId), PlanDigest := Number(plan.planDigest)]
  }

  /** The event records the activation under this receipt. */
  predicate Activates(e: Hashes, plan: Plan, receipt: Receipt, ev: Event) {
    && ev.body.eventKind == MigrationActivated
    && ev.body.payload.details
       == map[MigrationId := Text(plan.migrationId), ReceiptDigest := Number(e.receipt(receipt))]
  }

  ghost predicate UnderWay(e: Hashes, plan: Plan, c: Checkpoint, x: Files) {
    && x.disk.state.body.status == Migrating
    && x.snapshot == Some(c)
    && |x.disk.events| == |c.events| + 1 && c.events <= x.disk.events && Approves(plan, x.disk.events[|c.events|])
    && NotSubmitted(x.disk.messages, CompleteKey(plan))
    && (HasApplied(plan, x.receipt) ==> StableFiles(e, x, c) && x.receipt.value.installationId == plan.installationId)
  }

  /** Migrated: active, with both documents the stable transform of the originals, by exactly two transitions. */
  ghost predicate Migrated(e: Hashes, plan: Plan, c: Checkpoint, x: Files) {
    && x.disk.state.body.status == Active
    && x.snapshot == Some(c)
    && |x.disk.events| == |c.events| + 2 && c.events <= x.disk.events && Approves(plan, x.disk.events[|c.events|])
    && StableFiles(e, x, c)
    && HasApplied(plan, x.receipt) && x.receipt.value.installationId == plan.installationId
    && Activates(e, plan, x.receipt.value, x.disk.events[|c.events| + 1])
  }

  ghost predicate Phase(e: Hashes, plan: Plan, c: Checkpoint, x: Files) {
    && SameAuthority(x.disk.state.body, c.state.body)
    && (NotStarted(plan, c, x) || UnderWay(e, plan, c, x) || Migrated(e, plan, c, x))
  }

  function Settled(x: Files): Files {
    x.(disk := Recovered(x.disk))
  }

  /** What holds after any attempts: recovery leads to one of the three phases. */
  ghost predicate MigrationInv(e: Hashes, g: State, plan: Plan, c: Checkpoint, x: Files) {
    && PlanOf(e, plan, c)
    && DiskInv(e.ledgers, g, x.disk)
    && c.installation.installationId == g.body.installationId
    && x.others == c.others && x.orphans !! plan.refs
    && Phase(e, plan, c, Settled(x))
  }

  // ---------------------------------------------------------------- each stage keeps the invariant

  lemma KeysDiffer(plan: Plan)
    ensures ApplyKey(plan) != CompleteKey(plan)
  {
    assert ApplyKey(plan)[10] == 'a' && CompleteKey(plan)[10] == 'c';
  }

  lemma ApprovePrepared(e: Hashes, g: State, d: Disk, id: string, digest: Digest, key: string)
    requires Consistent(e.ledgers, g, d) && HistoryGood(e.ledgers, g, d.events) && d.state.body.status == Active
    ensures var q := Prepare(ApproveMigration(id, digest), View(d.state, None, None), key);
      && q.Some? && Refusal(d.state.body, q.value).None? && q.value.targetStatus == Migrating
      && q.value.eventKind == MigrationApplyApproved
      && q.value.payload == Details(map[MigrationId := Text(id), PlanDigest := Number(digest)])
      && q.value.idempotencyKey == key
  {
    assert GoodAt(e.ledgers, g, d.events, |d.events|);
  }

  lemma ActivatePrepared(e: Hashes, g: State, d: Disk, id: string, digest: Digest, key: string)
    requires Consistent(e.ledgers, g, d) && HistoryGood(e.ledgers, g, d.events) && d.state.body.status == Migrating
    ensures var q := Prepare(ActivateMigration(id, digest), View(d.state, None, None), key);
      && q.Some? && Refusal(d.state.body, q.value).None? && q.value.targetStatus == Active
      && q.value.eventKind == MigrationActivated
      && q.value.payload == Details(map[MigrationId := Text(id), ReceiptDigest := Number(digest)])
      && q.value.idempotencyKey == key
  {
    assert GoodAt(e.ledgers, g, d.events, |d.events|);
  }

  /** What a committed migration request changes on a disk. */
  ghost predicate GrownBy(d: Disk, q: Request, z: Stamps, d': Disk) {
    && d'.journal.None?
    && d'.state.body.status == q.targetStatus && SameAuthority(d'.state.body, d.state.body)
    && d'.installation == d.installation.(installationStatus := q.targetStatus,
                                          activeLeaderEpoch := d.state.body.activeLeaderEpoch)
    && |d'.events| == |d.events| + 1 && d.events <= d'.events
    && d'.events[|d.events|].body.eventKind == q.eventKind && d'.events[|d.events|].body.payload == q.payload
    && |d'.messages| == |d.messages| + 1 && d.messages <= d'.messages
    && d'.messages[|d.messages|].body.idempotencyKey == q.idempotencyKey
    && d'.messages[|d.messages|].body.messageId == z.messageId && d'.events[|d.events|].body.eventId == z.eventId
  }

  lemma ExtendedBy(h: Digests, d: Disk, q: Request, z: Stamps, details: map<DetailKey, Detail>)
    requires q.payload == Details(details)
    ensures GrownBy(d, q, z, Extended(h, d, q, z))
  {
  }

  lemma ApprovalStarts(e: Hashes, plan: Plan, c: Checkpoint, x: Files, w: Draws, q: Request, d': Disk)
    requires NotStarted(plan, c, x) && x.snapshot == Some(c) && FreshDraws(x.disk, w) && x.disk.journal.None?
    requires GrownBy(x.disk, q, w.approval, d') && q.targetStatus == Migrating
    requires q.eventKind == MigrationApplyApproved && q.idempotencyKey == ApplyKey(plan)
    requires q.payload == Details(map[MigrationId := Text(plan.migrationId), PlanDigest := Number(plan.planDigest)])
    ensures UnderWay(e, plan, c, x.(disk := d')) && Fresh(d', w.activation)
    ensures SameAuthority(d'.state.body, c.state.body)
  {
    KeysDiffer(plan);
  }

  lemma ApproveStep(e: Hashes, g: State, plan: Plan, c: Checkpoint, x: Files, w: Draws, points: nat)
    requires MigrationInv(e, g, plan, c, x) && x.disk.journal.None? && NotStarted(plan, c, x) && x.snapshot == Some(c)
    requires FreshDraws(x.disk, w)
    ensures var (x', r) := Transition(e, x, ApproveOperation(plan), ApplyKey(plan), w.approval, points);
      && x' == x.(disk := x'.disk)
      && MigrationInv(e, g, plan, c, x')
      && (r.Accepted? <==> points > COMMIT_POINTS) && (r.Killed? <==> points <= COMMIT_POINTS)
      && (r.Accepted? ==> x'.disk.journal.None? && UnderWay(e, plan, c, x') && Fresh(x'.disk, w.activation))
  {
    hide Prepare, Submit, CommitUpTo, Extended, HistoryGood, LedgersAgree, DiskInv, FindMessage, PlanOf, GrownBy,
         UnderWay, GoodState, FreshDraws, Fresh, SameAuthority;
    FreshApproval(x.disk, w);
    var h, d := e.ledgers, x.disk;
    InvRecovers(h, g, d);
    ActiveAtStart(e, plan, c, x);
    ApprovePrepared(e, g, d, plan.migrationId, plan.planDigest, ApplyKey(plan));
    FindMessageSpec(d.messages, ApplyKey(plan));
    SubmitOnRead(h, g, d, ApproveOperation(plan), ApplyKey(plan), w.approval, COMMIT_POINTS, points);
    var q := Prepare(ApproveOperation(plan), View(d.state, None, None), ApplyKey(plan)).value;
    ExtendedBy(h, d, q, w.approval, map[MigrationId := Text(plan.migrationId), PlanDigest := Number(plan.planDigest)]);
    ApprovalStarts(e, plan, c, x, w, q, Extended(h, d, q, w.approval));
    GrownSettled(d, q, w.approval, Extended(h, d, q, w.approval));
  }

  lemma GrownSettled(d: Disk, q: Request, z: Stamps, d': Disk)
    requires GrownBy(d, q, z, d')
    ensures d'.journal.None?
  {
  }

  lemma FreshApproval(d: Disk, w: Draws)
    requires FreshDraws(d, w)
    ensures Fresh(d, w.approval)
  {
  }

  lemma ActiveAtStart(e: Hashes, plan: Plan, c: Checkpoint, x: Files)
    requires PlanOf(e, plan, c) && NotStarted(plan, c, x)
    ensures x.disk.state.body.status == Active
  {
  }

  lemma ActivateStep(e: Hashes, g: State, plan: Plan, c: Checkpoint, x: Files, w: Draws, points: nat)
    requires MigrationInv(e, g, plan, c, x) && x.disk.journal.None? && UnderWay(e, plan, c, x)
    requires HasApplied(plan, x.receipt) && Fresh(x.disk, w.activation)
    ensures var (x', r) := Activate(e, plan, x, x.receipt.value, w, points);
      && x' == x.(disk := x'.disk)
      && MigrationInv(e, g, plan, c, x')
      && r == (if points > COMMIT_POINTS then Returned(x.receipt.value) else Died)
      && (r.Returned? ==> x'.disk.journal.None? && Migrated(e, plan, c, x'))
  {
    hide Prepare, Submit, CommitUpTo, Extended, HistoryGood, LedgersAgree, DiskInv, FindMessage, PlanOf, GrownBy,
         Migrated, UnderWay, GoodState, Fresh, SameAuthority;
    var h, d := e.ledgers, x.disk;
    var digest := e.receipt(x.receipt.value);
    InvRecovers(h, g, d);
    MigratingNow(e, plan, c, x);
    ActivatePrepared(e, g, d, plan.migrationId, digest, CompleteKey(plan));
    FindMessageSpec(d.messages, CompleteKey(plan));
    var op := ActivateMigration(plan.migrationId, digest);
    SubmitOnRead(h, g, d, op, CompleteKey(plan), w.activation, COMMIT_POINTS, points);
    var q := Prepare(op, View(d.state, None, None), CompleteKey(plan)).value;
    ExtendedBy(h, d, q, w.activation, map[MigrationId := Text(plan.migrationId), ReceiptDigest := Number(digest)]);
    ActivationEnds(e, plan, c, x, w, q, Extended(h, d, q, w.activation));
    GrownSettled(d, q, w.activation, Extended(h, d, q, w.activation));
  }

  lemma MigratingNow(e: Hashes, plan: Plan, c: Checkpoint, x: Files)
    requires UnderWay(e, plan, c, x)
    ensures x.disk.state.body.status == Migrating && NotSubmitted(x.disk.messages, CompleteKey(plan))
  {
  }

  lemma ActivationEnds(e: Hashes, plan: Plan, c: Checkpoint, x: Files, w: Draws, q: Request, d': Disk)
    requires PlanOf(e, plan, c) && SameAuthority(x.disk.state.body, c.state.body)
    requires UnderWay(e, plan, c, x) && HasApplied(plan, x.receipt)
    requires GrownBy(x.disk, q, w.activation, d') && q.targetStatus == Active && q.eventKind == MigrationActivated
    requires q.payload == Details(map[MigrationId := Text(plan.migrationId),
                                      ReceiptDigest := Number(e.receipt(x.receipt.value))])
    ensures Migrated(e, plan, c, x.(disk := d')) && SameAuthority(d'.state.body, c.state.body)
  {
    hide PlanOf;
    OriginalProjects(e, plan, c, x);
  }

  /** The stable installation already projects the state that activation leads to. */
  lemma OriginalProjects(e: Hashes, plan: Plan, c: Checkpoint, x: Files)
    requires PlanOf(e, plan, c) && SameAuthority(x.disk.state.body, c.state.body) && StableFiles(e, x, c)
    ensures x.disk.installation.(installationStatus := Active, activeLeaderEpoch := x.disk.state.body.activeLeaderEpoch)
         == StableInstallation(c.installation)
  {
  }

  lemma InstallationWritten(e: Hashes, g: State, plan: Plan, c: Checkpoint, x: Files, i: Installation, m: Manifest)
    requires MigrationInv(e, g, plan, c, x) && x.disk.journal.None? && UnderWay(e, plan, c, x)
    requires !HasApplied(plan, x.receipt) && i.installationId == c.installation.installationId
    ensures var x' := x.(disk := x.disk.(installation := i), manifest := m);
      MigrationInv(e, g, plan, c, x') && UnderWay(e, plan, c, x')
  {
    hide HistoryGood, LedgersAgree, PlanOf, CommitUpTo;
    var x' := x.(disk := x.disk.(installation := i), manifest := m);
    assert Consistent(e.ledgers, g, x'.disk);
    assert UnderWay(e, plan, c, Settled(x'));
  }

  /** The state after an attempt that was not killed any more. */
  ghost predicate Concluded(e: Hashes, plan: Plan, c: Checkpoint, x: Files, r: Result) {
    r.Returned? && x.disk.journal.None? && Migrated(e, plan, c, x) && x.receipt == Some(r.receipt)
  }

  lemma PromoteKeeps(e: Hashes, g: State, plan: Plan, c: Checkpoint, x: Files, w: Draws, points: nat)
    requires MigrationInv(e, g, plan, c, x) && x.disk.journal.None? && UnderWay(e, plan, c, x)
    requires !HasApplied(plan, x.receipt) && Fresh(x.disk, w.activation)
    ensures var (x', r) := Promote(e, plan, x, c, w, points);
      && MigrationInv(e, g, plan, c, x') && x'.orphans == x.orphans && x'.others == x.others
      && (if points > COMMIT_POINTS + 3 then Concluded(e, plan, c, x', r) else r.Died?)
  {
    hide DiskInv, CommitUpTo, Activate, UnderWay, Fresh, Phase, SnapshotValid, Migrated;
    var i, m := StableInstallation(c.installation), StableManifest(e, c.manifest);
    InstallationWritten(e, g, plan, c, x, i, x.manifest);
    InstallationWritten(e, g, plan, c, x, i, m);
    if points > 2 {
      var receipt := Receipt(plan.migrationId, plan.planDigest, plan.installationId, AppliedStatus, w.createdAt);
      var x3 := x.(disk := x.disk.(installation := i), manifest := m, receipt := Some(receipt));
      ReceiptWritten(e, g, plan, c, x.(disk := x.disk.(installation := i), manifest := m), receipt);
      SameLedgers(x.disk, x3.disk, w.activation);
      ActivateStep(e, g, plan, c, x3, w, points - 3);
    }
  }

  lemma SameLedgers(d: Disk, d': Disk, z: Stamps)
    requires Fresh(d, z) && d' == d.(installation := d'.installation)
    ensures Fresh(d', z)
  {
  }

  lemma ReceiptWritten(e: Hashes, g: State, plan: Plan, c: Checkpoint, x: Files, receipt: Receipt)
    requires MigrationInv(e, g, plan, c, x) && x.disk.journal.None? && UnderWay(e, plan, c, x)
    requires StableFiles(e, x, c) && receipt.installationId == plan.installationId
    ensures var x' := x.(receipt := Some(receipt)); MigrationInv(e, g, plan, c, x') && UnderWay(e, plan, c, x')
  {
    hide DiskInv, PlanOf, CommitUpTo;
    assert UnderWay(e, plan, c, Settled(x.(receipt := Some(receipt))));
  }

  lemma SnapshotWritten(e: Hashes, g: State, plan: Plan, c: Checkpoint, x: Files)
    requires MigrationInv(e, g, plan, c, x) && x.disk.journal.None? && NotStarted(plan, c, x)
    ensures var x' := x.(snapshot := Some(c)); MigrationInv(e, g, plan, c, x') && NotStarted(plan, c, x')
  {
    hide DiskInv, PlanOf, CommitUpTo;
    assert NotStarted(plan, c, Settled(x.(snapshot := Some(c))));
  }

  lemma ApproveKeeps(e: Hashes, g: State, plan: Plan, c: Checkpoint, x: Files, w: Draws, points: nat)
    requires MigrationInv(e, g, plan, c, x) && x.disk.journal.None? && NotStarted(plan, c, x) && FreshDraws(x.disk, w)
    ensures var (x', r) := Approve(e, plan, x, w, points);
      && MigrationInv(e, g, plan, c, x') && x'.orphans == x.orphans && x'.others == x.others
      && (r.Died? || Concluded(e, plan, c, x', r))
      && (points > 2 * COMMIT_POINTS + 5 ==> Concluded(e, plan, c, x', r))
  {
    hide DiskInv, CommitUpTo, Transition, Promote, UnderWay, FreshDraws, Phase, Migrated;
    SnapshotWritten(e, g, plan, c, x);
    if !(x.snapshot.None? && points == 0) {
      var left := if x.snapshot.None? then points - 1 else points;
      var x1 := x.(snapshot := Some(c));
      ApproveStep(e, g, plan, c, x1, w, left);
      var (x2, r) := Transition(e, x1, ApproveOperation(plan), ApplyKey(plan), w.approval, left);
      if r.Accepted? {
        PromoteKeeps(e, g, plan, c, x2, w, left - COMMIT_POINTS - 1);
      }
    }
  }

  // ---------------------------------------------------------------- convergence

  lemma CheckpointHolds(e: Hashes, g: State, plan: Plan, c: Checkpoint, x: Files, now: Timestamp)
    requires MigrationInv(e, g, plan, c, x) && x.disk.journal.None?
    requires UnderWay(e, plan, c, x) || Migrated(e, plan, c, x)
    ensures CheckpointValid(e, plan, x, now)
  {
    hide ReplayAccepts, ReplayedAt, CommitUpTo, HistoryGood, LedgersAgree;
    InvRecovers(e.ledgers, g, x.disk);
    ReplayRefines(e.ledgers, g, x.disk, now);
  }

  /** An attempt after recovery: refused exactly while an orphan is in the root, and otherwise only a kill stops it. */
  lemma AttemptRecoveredKeeps(e: Hashes, g: State, plan: Plan, c: Checkpoint, x: Files, w: Draws, points: nat)
    requires MigrationInv(e, g, plan, c, x) && x.disk.journal.None? && FreshDraws(x.disk, w)
    ensures var (x', r) := AttemptRecovered(e, plan, x, w, points);
      && MigrationInv(e, g, plan, c, x') && x'.orphans == x.orphans
      && (x.orphans != {} ==> x' == x && r.Raised?)
      && (x.orphans == {} ==> r.Died? || Concluded(e, plan, c, x', r))
      && (x.orphans == {} && points > 2 * COMMIT_POINTS + 5 ==> Concluded(e, plan, c, x', r))
  {
    hide DiskInv, CommitUpTo, Approve, Promote, Activate, CheckpointValid, PlanOf, StableInstallation, StableManifest;
    RefsOfRoot(e, plan, c, x);
    if x.orphans == {} {
      if NotStarted(plan, c, x) {
        ActiveAtStart(e, plan, c, x);
        ApproveKeeps(e, g, plan, c, x, w, points);
      } else {
        CheckpointHolds(e, g, plan, c, x, w.now);
        if UnderWay(e, plan, c, x) {
          if HasApplied(plan, x.receipt) {
            ActivateStep(e, g, plan, c, x, w, points);
          } else {
            PromoteKeeps(e, g, plan, c, x, w, points);
          }
        }
      }
    }
  }

  lemma RefsOfRoot(e: Hashes, plan: Plan, c: Checkpoint, x: Files)
    requires PlanOf(e, plan, c) && x.others == c.others && x.orphans !! plan.refs
    ensures CORE_REFS + x.others.Keys + x.orphans == plan.refs <==> x.orphans == {}
  {
    if x.orphans != {} {
      var name :| name in x.orphans;
      assert name in CORE_REFS + x.others.Keys + x.orphans && name !in plan.refs;
    }
  }

  /** One attempt, killed anywhere or not at all. */
  lemma AttemptKeeps(e: Hashes, g: State, plan: Plan, c: Checkpoint, x: Files, w: Draws, k: Kill)
    requires MigrationInv(e, g, plan, c, x) && Possible(plan, x, w, k)
    ensures var (x', r) := Attempt(e, plan, x, w, k);
      && MigrationInv(e, g, plan, c, x')
      && x'.orphans == x.orphans + (if r.Died? then k.leftovers else {})
      && (x.orphans != {} ==> !r.Returned? && Settled(x').(orphans := {}) == Settled(x).(orphans := {}))
      && (x.orphans == {} && k.points > 3 * COMMIT_POINTS + 5 ==> Concluded(e, plan, c, x', r))
  {
    hide DiskInv, CommitUpTo, AttemptRecovered, PlanOf, Phase, FreshDraws, CommitAccepts, Migrated;
    InvRecovers(e.ledgers, g, x.disk);
    if x.disk.journal.None? {
      AttemptRecoveredKeeps(e, g, plan, c, x, w, k.points);
      OrphansIgnored(e, g, plan, c, AttemptRecovered(e, plan, x, w, k.points).0, k.leftovers);
    } else if k.points < COMMIT_POINTS {
      CommitKeepsInv(e.ledgers, g, x.disk, k.points);
      OrphansIgnored(e, g, plan, c, x.(disk := CommitUpTo(x.disk, k.points)), k.leftovers);
    } else {
      SettledKeeps(e, g, plan, c, x);
      AttemptRecoveredKeeps(e, g, plan, c, Settled(x), w, k.points - COMMIT_POINTS);
      OrphansIgnored(e, g, plan, c, AttemptRecovered(e, plan, Settled(x), w, k.points - COMMIT_POINTS).0, k.leftovers);
    }
  }

  lemma OrphansIgnored(e: Hashes, g: State, plan: Plan, c: Checkpoint, x: Files, leftovers: set<string>)
    requires MigrationInv(e, g, plan, c, x) && leftovers !! plan.refs
    ensures MigrationInv(e, g, plan, c, x.(orphans := x.orphans + leftovers))
  {
    hide DiskInv, CommitUpTo, PlanOf;
  }

  lemma SettledKeeps(e: Hashes, g: State, plan: Plan, c: Checkpoint, x: Files)
    requires MigrationInv(e, g, plan, c, x)
    ensures MigrationInv(e, g, plan, c, Settled(x)) && Settled(x).disk.journal.None?
  {
    hide CommitUpTo, PlanOf, Phase, HistoryGood, LedgersAgree;
    InvRecovers(e.ledgers, g, x.disk);
  }

  /** The control root when the plan is fixed. */
  ghost predicate Planned(e: Hashes, g: State, plan: Plan, x: Files) {
    && Consistent(e.ledgers, g, x.disk) && HistoryGood(e.ledgers, g, x.disk.events)
    && PlanOf(e, plan, ContentOfRoot(x))
    && x.orphans == {} && x.snapshot.None? && !HasApplied(plan, x.receipt)
    && NotSubmitted(x.disk.messages, ApplyKey(plan)) && NotSubmitted(x.disk.messages, CompleteKey(plan))
  }

  lemma PlannedInv(e: Hashes, g: State, plan: Plan, x: Files)
    requires Planned(e, g, plan, x)
    ensures MigrationInv(e, g, plan, ContentOfRoot(x), x)
  {
    hide HistoryGood, LedgersAgree;
    ConsistentIsInv(e.ledgers, g, x.disk);
    assert NotStarted(plan, ContentOfRoot(x), Settled(x));
  }

  lemma {:induction false} AttemptsKeep(
      e: Hashes, g: State, plan: Plan, c: Checkpoint, x: Files, tries: seq<(Draws, Kill)>)
    requires MigrationInv(e, g, plan, c, x)
    ensures MigrationInv(e, g, plan, c, Attempts(e, plan, x, tries))
    ensures x.orphans == {} && (forall i :: 0 <= i < |tries| ==> tries[i].1.leftovers == {}) ==>
            Attempts(e, plan, x, tries).orphans == {}
    decreases |tries|
  {
    hide MigrationInv, Attempt, Possible;
    if tries != [] {
      var (w, k) := tries[0];
      if Possible(plan, x, w, k) {
        AttemptKeeps(e, g, plan, c, x, w, k);
        AttemptsKeep(e, g, plan, c, Attempt(e, plan, x, w, k).0, tries[1..]);
      } else {
        AttemptsKeep(e, g, plan, c, x, tries[1..]);
      }
      assert tries == [tries[0]] + tries[1..];
    }
  }

  /**
   * Convergence. Whatever attempts were killed after the plan was fixed, and
   * wherever, an attempt that is not killed returns the receipt and leaves the
   * installation active, with its two documents the stable transform of the
   * originals and exactly two transitions later, if and only if no kill left a
   * temporary file in the control root.
   */
  lemma MigrationConverges(e: Hashes, g: State, plan: Plan, x0: Files, tries: seq<(Draws, Kill)>, w: Draws, k: Kill)
    requires Planned(e, g, plan, x0)
    requires var x := Attempts(e, plan, x0, tries); Possible(plan, x, w, k) && k.points > 3 * COMMIT_POINTS + 5
    ensures var x := Attempts(e, plan, x0, tries);
      var (x', r) := Attempt(e, plan, x, w, k);
      && (r.Returned? <==> x.orphans == {})
      && (r.Returned? ==>
            x'.disk.journal.None? && Migrated(e, plan, ContentOfRoot(x0), x') && x'.receipt == Some(r.receipt))
      && (Migrated(e, plan, ContentOfRoot(x0), Settled(x')) <==>
            x.orphans == {} || Migrated(e, plan, ContentOfRoot(x0), Settled(x)))
  {
    hide MigrationInv, Attempt, Attempts, Possible, Migrated, CommitUpTo;
    var c, x := ContentOfRoot(x0), Attempts(e, plan, x0, tries);
    PlannedInv(e, g, plan, x0);
    AttemptsKeep(e, g, plan, c, x0, tries);
    AttemptKeeps(e, g, plan, c, x, w, k);
    MigratedIgnoresOrphans(e, plan, c, Settled(x), Settled(Attempt(e, plan, x, w, k).0));
  }

  /** Every field of the installation but its version is the original's. */
  predicate OnlyVersionChanged(i: Installation, i': Installation) {
    && i'.activeProtocolVersion == Stable030
    && i'.installationId == i.installationId && i'.installationStatus == i.installationStatus
    && i'.activeLeaderEpoch == i.activeLeaderEpoch && i'.createdAt == i.createdAt
  }

  /**
   * What the migration has made of the control root: installation.json says 0.3.0 and is
   * otherwise the original; the manifest reads 0.3.0 and 0.2.0, writes 0.3.0, lists both
   * migration paths, keeps its implementation and carries its own digest; the state is two
   * revisions on, active, with the same leaders, epoch and registry revision; the ledger
   * has grown by the approval of the plan and the activation of the receipt; and no other
   * file has changed.
   */
  lemma MigrationResult(e: Hashes, g: State, plan: Plan, x0: Files, tries: seq<(Draws, Kill)>, w: Draws, k: Kill)
    requires Planned(e, g, plan, x0)
    requires var x := Attempts(e, plan, x0, tries); Possible(plan, x, w, k) && k.points > 3 * COMMIT_POINTS + 5
    requires Attempts(e, plan, x0, tries).orphans == {}
    ensures var (x', r) := Attempt(e, plan, Attempts(e, plan, x0, tries), w, k);
      var s, s', n := x0.disk.state.body, x'.disk.state.body, |x0.disk.events|;
      var m, m' := x0.manifest.body, x'.manifest.body;
      && OnlyVersionChanged(x0.disk.installation, x'.disk.installation)
      && m'.activeProtocolVersion == Stable030 && m'.readVersions == [Stable030, Legacy020]
      && m'.writeVersions == [Stable030] && m'.implementationId == m.implementationId
      && m'.migrationPaths == [(Legacy020, Stable030), (Draft030, Stable030)]
      && x'.manifest.manifestDigest == e.manifest(m')
      && s'.status == Active && s'.revision == s.revision + 2 && s'.installationId == s.installationId
      && s'.selectedLeader == s.selectedLeader && s'.activeLeader == s.activeLeader
      && s'.activeLeaderEpoch == s.activeLeaderEpoch && s'.registryRevision == s.registryRevision
      && |x'.disk.events| == n + 2 && x0.disk.events <= x'.disk.events
      && x'.receipt.Some? && r == Returned(x'.receipt.value)
      && r.receipt.migrationId == plan.migrationId && r.receipt.planDigest == plan.planDigest
      && r.receipt.installationId == plan.installationId && r.receipt.status == AppliedStatus
      && Approves(plan, x'.disk.events[n]) && Activates(e, plan, r.receipt, x'.disk.events[n + 1])
      && x'.others == x0.others
  {
    hide MigrationInv, Attempt, Attempts, Possible, CommitUpTo, Approves, Activates, Planned;
    var c, x := ContentOfRoot(x0), Attempts(e, plan, x0, tries);
    PlannedInv(e, g, plan, x0);
    AttemptsKeep(e, g, plan, c, x0, tries);
    AttemptKeeps(e, g, plan, c, x, w, k);
    MigrationConverges(e, g, plan, x0, tries, w, k);
    RevisionsOfRoot(e, g, plan, x0, Attempt(e, plan, x, w, k).0);
  }

  lemma RevisionsOfRoot(e: Hashes, g: State, plan: Plan, x0: Files, x: Files)
    requires Planned(e, g, plan, x0) && MigrationInv(e, g, plan, ContentOfRoot(x0), x) && x.disk.journal.None?
    ensures x0.disk.state.body.revision == |x0.disk.events| && x.disk.state.body.revision == |x.disk.events|
    ensures SameAuthority(x.disk.state.body, x0.disk.state.body) && x.others == x0.others
  {
    hide LinkedAt, HistoryGood, CommitUpTo, PlanOf;
    RevisionAt(e.ledgers, g, x0.disk, |x0.disk.events|);
    RevisionAt(e.ledgers, g, x.disk, |x.disk.events|);
  }

  /**
   * What an attempt insists on before it returns a receipt, on a control root of any
   * origin: the inventory of the plan, and the revision, registry revision, epoch and file
   * digests of the plan; once the installation has left that state, a valid snapshot,
   * untouched other files, unchanged leaders and ledgers that replay; and for a receipt
   * that is already there the two stable documents.
   */
  lemma ReturnedMeansChecked(e: Hashes, plan: Plan, x: Files, w: Draws, points: nat)
    requires AttemptRecovered(e, plan, x, w, points).1.Returned?
    ensures var s := x.disk.state.body;
      && CORE_REFS + x.others.Keys + x.orphans == plan.refs && (s.status == Active || s.status == Migrating)
      && s.activeLeaderEpoch == plan.expectedEpoch && s.registryRevision == plan.expectedRegistryRevision
      && (s.status == Active && !HasApplied(plan, x.receipt) ==>
            s.revision == plan.expectedRevision && e.files(ContentOfRoot(x)) == plan.fingerprint)
      && (s.status == Migrating || HasApplied(plan, x.receipt) ==>
            && x.snapshot.Some?
            && var c := x.snapshot.value;
            && CORE_REFS + c.others.Keys == plan.refs && e.files(c) == plan.fingerprint && x.others == c.others
            && s.installationId == c.state.body.installationId && s.selectedLeader == c.state.body.selectedLeader
            && s.activeLeader == c.state.body.activeLeader && ReplayAccepts(e.ledgers, x.disk, w.now))
      && (HasApplied(plan, x.receipt) ==>
            && x.receipt.value.planDigest == plan.planDigest && x.receipt.value.installationId == plan.installationId
            && OnlyVersionChanged(x.snapshot.value.installation, x.disk.installation)
            && x.manifest == StableManifest(e, x.snapshot.value.manifest))
  {
    hide ReplayAccepts, Transition, StableManifest, Activate, Promote;
  }

  lemma MigratedIgnoresOrphans(e: Hashes, plan: Plan, c: Checkpoint, x: Files, x': Files)
    ensures x.(orphans := {}) == x'.(orphans := {}) ==> (Migrated(e, plan, c, x) <==> Migrated(e, plan, c, x'))
  {
  }

  /** Kills that fall between two replacements leave nothing behind, so the migration converges. */
  lemma CleanKillsConverge(e: Hashes, g: State, plan: Plan, x0: Files, tries: seq<(Draws, Kill)>, w: Draws, k: Kill)
    requires Planned(e, g, plan, x0) && (forall i :: 0 <= i < |tries| ==> tries[i].1.leftovers == {})
    requires var x := Attempts(e, plan, x0, tries); Possible(plan, x, w, k) && k.points > 3 * COMMIT_POINTS + 5
    ensures Attempt(e, plan, Attempts(e, plan, x0, tries), w, k).1.Returned?
  {
    hide MigrationInv, Attempt, Attempts, Possible, Planned;
    PlannedInv(e, g, plan, x0);
    assert x0.orphans == {} by { OrphanFree(e, g, plan, x0); }
    AttemptsKeep(e, g, plan, ContentOfRoot(x0), x0, tries);
    MigrationConverges(e, g, plan, x0, tries, w, k);
  }

  lemma OrphanFree(e: Hashes, g: State, plan: Plan, x: Files)
    requires Planned(e, g, plan, x)
    ensures x.orphans == {}
  {
  }

  /** An orphan is for good: no attempt ever returns again, and none changes more than recovery would. */
  lemma {:induction false} OrphanBlocksForever(
      e: Hashes, g: State, plan: Plan, c: Checkpoint, x: Files, tries: seq<(Draws, Kill)>)
    requires MigrationInv(e, g, plan, c, x) && x.orphans != {}
    ensures var x' := Attempts(e, plan, x, tries);
      x'.orphans != {} && Settled(x').(orphans := {}) == Settled(x).(orphans := {})
    decreases |tries|
  {
    hide MigrationInv, Attempt, Possible, CommitUpTo;
    if tries != [] {
      var (w, k) := tries[0];
      if Possible(plan, x, w, k) {
        AttemptKeeps(e, g, plan, c, x, w, k);
        var x1 := Attempt(e, plan, x, w, k).0;
        assert x1.orphans != {} by {
          var name :| name in x.orphans;
          assert name in x1.orphans;
        }
        OrphanBlocksForever(e, g, plan, c, x1, tries[1..]);
      } else {
        OrphanBlocksForever(e, g, plan, c, x, tries[1..]);
      }
    }
  }

  /** An instance: a kill while the approval journal is being written leaves its temporary file, for good. */
  lemma KillInsideReplacement(
      e: Hashes, g: State, plan: Plan, x: Files, w: Draws, name: string, tries: seq<(Draws, Kill)>)
    requires Planned(e, g, plan, x) && FreshDraws(x.disk, w) && name !in plan.refs
    ensures var killed := Attempt(e, plan, x, w, Kill(1, {name}));
      && killed.1.Died? && name in killed.0.orphans
      && !Migrated(e, plan, ContentOfRoot(x), Settled(Attempts(e, plan, killed.0, tries)))
  {
    hide MigrationInv, Attempts, CommitUpTo, Recoverable, HistoryGood, LedgersAgree, Possible;
    var c, k := ContentOfRoot(x), Kill(1, {name});
    var killed := Attempt(e, plan, x, w, k).0;
    PlannedInv(e, g, plan, x);
    KillAtApproval(e, g, plan, x, w, k);
    AttemptKeeps(e, g, plan, c, x, w, k) by { PossibleKill(plan, x, w, k); }
    assert name in killed.orphans;
    OrphanBlocksForever(e, g, plan, c, killed, tries);
    MigratedIgnoresOrphans(e, plan, c, Settled(killed), Settled(Attempts(e, plan, killed, tries)));
  }

  lemma PossibleKill(plan: Plan, x: Files, w: Draws, k: Kill)
    requires FreshDraws(x.disk, w) && x.disk.journal.None? && k.leftovers !! plan.refs
    ensures Possible(plan, x, w, k)
  {
  }

  /** One replacement into a planned migration, only the snapshot has been taken. */
  lemma KillAtApproval(e: Hashes, g: State, plan: Plan, x: Files, w: Draws, k: Kill)
    requires Planned(e, g, plan, x) && FreshDraws(x.disk, w) && k.points == 1
    ensures var (x', r) := Attempt(e, plan, x, w, k);
      && r.Died? && x' == x.(snapshot := Some(ContentOfRoot(x)), orphans := k.leftovers)
      && !Migrated(e, plan, ContentOfRoot(x), Settled(x'))
  {
    hide HistoryGood, LedgersAgree, Prepare, EarlyOutcome, BuildJournal, CommitAccepts, Refusal;
    var c, x1 := ContentOfRoot(x), x.(snapshot := Some(ContentOfRoot(x)));
    PlannedInv(e, g, plan, x);
    SnapshotWritten(e, g, plan, c, x);
    ApproveStep(e, g, plan, c, x1, w, 0);
    ActiveAtStart(e, plan, c, x);
    RefsOfRoot(e, plan, c, x);
    ApprovePrepared(e, g, x.disk, plan.migrationId, plan.planDigest, ApplyKey(plan));
  }
}

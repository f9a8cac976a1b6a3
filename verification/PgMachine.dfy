/** The delivery owner as a machine over its durable writes and database commands.

    Every numbered effect of `execute` is one step, so a crash (`Stop`) can fall between any two,
    a write-once file can tear (`Tear`), and clients act in between with the sessions and
    privileges the server grants at that moment. An act that is not enabled leaves the world as it
    is; a check that fails leaves the process where it is until it stops. */
module PgMachine {
  import opened Prelude
  import opened PgData

  datatype Disk = Disk(ops: map<Key, Operation>, manifests: set<Manifest>, backups: map<Key, Backup>,
                       generation: nat, current: Option<Manifest>, confirmed: Option<Manifest>,
                       generationStaged: bool, currentStaged: bool, confirmedStaged: bool)

  /** `writerConnect` and `readerConnect` are effective privileges, PUBLIC grants included. */
  datatype Pg = Pg(dbs: map<Db, Content>, writerLogin: bool, readerLogin: bool,
                   writerConnect: set<Db>, readerConnect: set<Db>,
                   writerSessions: set<Db>, readerSessions: set<Db>)

  /** The local variables of one `execute`, lost in a crash. */
  datatype Memory = Memory(command: Command, gen: nat, previous: Option<Manifest>, source: Db,
                           descriptor: Descriptor, candidate: string, folder: Key, before: Content,
                           snap: Snapshot, applied: seq<Migration>, after: Content, failed: bool,
                           receipt: Receipt)

  datatype LeasePc = StageGeneration | SetGeneration | MakeDir | WriteIntent
  datatype DrainPc = StopApp | DisableLogin | RevokeEach(todo: set<Db>) | Terminate | CheckDrained
  datatype BackupPc = FingerprintSource | DumpSource | RecheckSource | WriteSnapshot
                    | CreateDrill | SealDrill | RestoreDrill | CheckDrill | WriteVerified
  datatype CopyPc = CreateTarget | SealTarget | RestoreTarget | CheckTarget
  datatype MigratePc = RunMigration | CheckMigration | CheckFailedMigration
  datatype PublishPc = WriteManifest | StageCurrent | SetCurrent
  datatype StartPc = GrantReader | CheckScopeClosed | StartApp | Observe
  datatype ReleasePc = CheckRelease | WriteProof | StageConfirmed | SetConfirmed | GrantWriter | CheckScopeOpen

  /** The next effect of `execute`. */
  datatype Pc =
    | Leasing(lease: LeasePc)
    | Checkpoint(phase: Phase)
    | Draining(drain: DrainPc)
    | BackingUp(backup: BackupPc)
    | Copying(copy: CopyPc)
    | Migrating(migration: MigratePc)
    | Publishing(publication: PublishPc)
    | Starting(start: StartPc)
    | Releasing(release: ReleasePc)
    | WriteResult

  datatype Process = Idle | Active(m: Memory, pc: Pc) | Reconciling(key: Key, receipt: Receipt)
  datatype Start = Start(key: Key, gen: nat)

  /** `log` and `starts` are history: what was promised, and which operations began under which lease. */
  datatype World = World(disk: Disk, pg: Pg, app: Option<Manifest>, process: Process,
                         log: seq<Event>, starts: seq<Start>)

  datatype Replies = Replies(version: Reply, database: Reply, health: Reply, acceptance: Reply, endVersion: Reply)

  /** What the outside world answers to an effect whose outcome the owner does not decide. */
  datatype Choice =
    | Proceed
    | Chosen(db: Db)
    | Yields(content: Content)
    | Ran(applied: nat, succeeded: bool)
    | Saw(sound: bool, replies: Replies)

  datatype ClientAct = OpenWriter(db: Db) | CommitWrite(db: Db, write: Write) | CloseWriter(db: Db)
                     | OpenReader(db: Db) | CloseReader(db: Db)

  datatype Act =
    | Begin(command: Command)
    | Go(choice: Choice)
    | Tear
    | Stop
    | Reconcile(key: Key, command: Command, sound: bool, replies: Replies)
    | Client(act: ClientAct)

  // --- derived views ----------------------------------------------------------------------

  function DatabaseOf(manifest: Option<Manifest>): Db {
    if manifest.None? then InitialDb else manifest.value.database
  }

  /** The database clients may write: the confirmed manifest's, or the initial one. */
  function Serving(w: World): Db {
    DatabaseOf(w.disk.confirmed)
  }

  function Terminal(op: Operation): File<Receipt> {
    if op.reconciled.Missing? then op.result else op.reconciled
  }

  /** The journal holds a final outcome other than `unknown`. */
  predicate Known(op: Operation) {
    && op.intent.Whole?
    && Terminal(op).Whole?
    && Terminal(op).value.status != Unknown
  }

  predicate AllKnown(ops: map<Key, Operation>) {
    forall k :: k in ops ==> Known(ops[k])
  }

  function Target(m: Memory): Db {
    MadeDb(m.command.key, if m.command.action.Deploy? then Candidate else Restored)
  }

  function DrillDb(m: Memory): Db {
    MadeDb(m.command.key, Drill)
  }

  function IntentOf(m: Memory): Intent {
    Intent(m.command, m.gen, InitialReceipt(m.command, m.gen, m.previous), m.candidate, m.descriptor, m.source)
  }

  function ManifestOf(m: Memory): Manifest {
    Manifest(m.command.key, m.candidate, m.descriptor, Target(m), m.gen, m.folder,
             m.snap.fingerprint, m.after, m.command.action.Restore?)
  }

  predicate Quiescent(pg: Pg) {
    && !pg.writerLogin && !pg.readerLogin
    && pg.writerConnect == {} && pg.readerConnect == {}
    && pg.writerSessions == {} && pg.readerSessions == {}
  }

  predicate Scope(pg: Pg, target: Db, writerEnabled: bool) {
    && pg.readerConnect == {target}
    && pg.writerConnect == (if writerEnabled then {target} else {})
    && pg.writerSessions <= {target} && pg.readerSessions <= {target}
  }

  // --- observation ------------------------------------------------------------------------

  function ReplyTo(replies: Replies, name: ProbeName): Reply {
    match name
    case VersionProbe => replies.version
    case DatabaseProbe => replies.database
    case HealthProbe => replies.health
    case AcceptanceProbe => replies.acceptance
    case EndVersionProbe => replies.endVersion
  }

  function Expected(manifest: Manifest, version: nat, name: ProbeName): Body {
    match name
    case VersionProbe => ManifestBody(manifest)
    case DatabaseProbe => IdentityBody(manifest.database, version)
    case HealthProbe => HealthBody
    case AcceptanceProbe => AcceptanceBody
    case EndVersionProbe => ManifestBody(manifest)
  }

  function Probed(reply: Reply, expected: Body): Probe {
    match reply
    case Silent => Probe(Unavailable, None, None)
    case Refused(code) => Probe(Failed, Some(code), None)
    case Answered(code, body) =>
      Probe(if code == 200 && body == expected then Verified else Failed, Some(code), Some(body))
  }

  /** `observe`: identity unknown beats a failed check, which beats an unavailable one. */
  function Observed(base: Receipt, manifest: Manifest, content: Content, replies: Replies): Receipt {
    var version := if content.history == [] then 0 else content.history[|content.history| - 1].version;
    var probes := map name | name in ALL_PROBES :: Probed(ReplyTo(replies, name), Expected(manifest, version, name));
    var status :=
      if probes[VersionProbe].status.Unavailable? || probes[EndVersionProbe].status.Unavailable? then Unknown
      else if exists name :: name in ALL_PROBES && probes[name].status.Failed? then Failed
      else if exists name :: name in ALL_PROBES && probes[name].status.Unavailable? then Unavailable
      else Verified;
    var reason := match status
      case Unknown => "serving_identity_unknown"
      case Failed => "application_check_failed"
      case Unavailable => "application_check_unavailable"
      case Verified => VERIFIED_REASON;
    base.(status := status, reason := reason, probes := probes, image := Some(manifest.descriptor.image),
          database := Some(manifest.database), fingerprint := Some(content))
  }

  /** The whole of `observe`, whose own checks turn every doubt into `unknown`. */
  function ObserveIn(w: World, base: Receipt, manifest: Manifest, published: bool, sound: bool,
                     replies: Replies): Receipt {
    if && sound
       && w.app == Some(manifest)
       && manifest.database in w.pg.dbs
       && (published ==> w.pg.dbs[manifest.database] == manifest.fingerprint)
       && HasSchema(w.pg.dbs[manifest.database], manifest.descriptor.targetSchema)
    then Observed(base, manifest, w.pg.dbs[manifest.database], replies)
    else base.(status := Unknown, reason := "database_or_engine_outcome_unknown")
  }

  // --- small updates ----------------------------------------------------------------------

  function At(w: World, m: Memory, pc: Pc): World {
    w.(process := Active(m, pc))
  }

  function OperationOf(w: World, m: Memory): Operation {
    if m.command.key in w.disk.ops then w.disk.ops[m.command.key] else EMPTY_OPERATION
  }

  function Journal(w: World, m: Memory, op: Operation): World {
    w.(disk := w.disk.(ops := w.disk.ops[m.command.key := op]))
  }

  function AfterPhase(m: Memory, phase: Phase): Pc {
    match phase
    case DrainIntent => Draining(StopApp)
    case Drained => if m.command.action.Deploy? then Checkpoint(BackupIntent) else Checkpoint(RestoreBackupVerified)
    case BackupIntent => BackingUp(FingerprintSource)
    case BackupCreated => BackingUp(CreateDrill)
    case DrillIntent => BackingUp(RestoreDrill)
    case BackupVerified => Copying(CreateTarget)
    case RestoreBackupVerified => Copying(CreateTarget)
    case CopyIntent => Copying(RestoreTarget)
    case CopyVerified => if m.command.action.Deploy? then Checkpoint(MigrationIntent) else Publishing(WriteManifest)
    case MigrationIntent => Migrating(RunMigration)
    case MigrationVerified => Publishing(WriteManifest)
    case MigrationFailed => WriteResult
    case ApplicationIntent => Starting(StartApp)
    case ApplicationStarted => Starting(Observe)
    case ReleaseIntent => Releasing(GrantWriter)
    case WritesReleased => WriteResult
  }

  // --- one effect of `execute` ------------------------------------------------------------

  function StepLease(w: World, m: Memory, pc: LeasePc): World {
    match pc
    case StageGeneration =>
      if w.disk.generationStaged then w
      else At(w.(disk := w.disk.(generationStaged := true)), m, Leasing(SetGeneration))
    case SetGeneration =>
      At(w.(disk := w.disk.(generation := m.gen, generationStaged := false)), m, Leasing(MakeDir))
    case MakeDir =>
      At(Journal(w, m, EMPTY_OPERATION).(starts := w.starts + [Start(m.command.key, m.gen)]), m, Leasing(WriteIntent))
    case WriteIntent =>
      At(Journal(w, m, OperationOf(w, m).(intent := Whole(IntentOf(m)))), m, Checkpoint(DrainIntent))
  }

  function StepCheckpoint(w: World, m: Memory, phase: Phase): World {
    var op := OperationOf(w, m);
    var marked := op.(phases := op.phases + {phase});
    var noted := if phase.ReleaseIntent? then marked.(release := Whole(ReleaseNote(Target(m), m.gen))) else marked;
    At(Journal(w, m, noted), m, AfterPhase(m, phase))
  }

  function StepDrain(w: World, m: Memory, pc: DrainPc, choice: Choice): World {
    match pc
    case StopApp => At(w.(app := None), m, Draining(DisableLogin))
    case DisableLogin =>
      At(w.(pg := w.pg.(writerLogin := false, readerLogin := false,
                        writerConnect := w.pg.writerConnect - {m.source},
                        readerConnect := w.pg.readerConnect - {m.source})), m, Draining(RevokeEach(w.pg.dbs.Keys)))
    case RevokeEach(todo) =>
      if todo == {} then At(w, m, Draining(Terminate))
      else if choice.Chosen? && choice.db in todo then
        At(w.(pg := w.pg.(writerConnect := w.pg.writerConnect - {choice.db},
                          readerConnect := w.pg.readerConnect - {choice.db})), m,
                            Draining(RevokeEach(todo - {choice.db})))
      else w
    case Terminate => At(w.(pg := w.pg.(writerSessions := {}, readerSessions := {})), m, Draining(CheckDrained))
    case CheckDrained => if Quiescent(w.pg) then At(w, m, Checkpoint(Drained)) else w
  }

  function StepBackup(w: World, m: Memory, pc: BackupPc, choice: Choice): World {
    match pc
    case FingerprintSource =>
      if m.source in w.pg.dbs && w.pg.dbs[m.source].history != [] && w.pg.writerSessions == {} && Quiescent(w.pg)
      then At(w, m.(before := w.pg.dbs[m.source]), BackingUp(DumpSource)) else w
    case DumpSource =>
      if choice.Yields? && m.folder !in w.disk.backups then
        At(w.(disk := w.disk.(backups := w.disk.backups[m.folder := Backup(Some(choice.content), None, false)])),
           m.(snap := Snapshot(m.source, m.before, m.previous, choice.content, m.gen)), BackingUp(RecheckSource))
      else w
    case RecheckSource =>
      if m.source in w.pg.dbs && w.pg.dbs[m.source] == m.before && Quiescent(w.pg)
      then At(w, m, BackingUp(WriteSnapshot)) else w
    case WriteSnapshot =>
      At(w.(disk := w.disk.(backups := w.disk.backups[m.folder := Backup(Some(m.snap.dump), Some(m.snap), false)])),
         m, Checkpoint(BackupCreated))
    case CreateDrill => CreateDatabase(w, m, DrillDb(m), BackingUp(SealDrill))
    case SealDrill => SealDatabase(w, m, DrillDb(m), Checkpoint(DrillIntent))
    case RestoreDrill => RestoreInto(w, m, DrillDb(m), BackingUp(CheckDrill), choice)
    case CheckDrill =>
      if && DrillDb(m) in w.pg.dbs && m.source in w.pg.dbs
         && w.pg.dbs[DrillDb(m)] == m.before && w.pg.dbs[m.source] == m.before
      then At(w, m, BackingUp(WriteVerified)) else w
    case WriteVerified =>
      At(w.(disk := w.disk.(backups := w.disk.backups[m.folder := Backup(Some(m.snap.dump), Some(m.snap), true)])),
         m, Checkpoint(BackupVerified))
  }

  /** CREATE DATABASE grants CONNECT to PUBLIC until the next statement revokes it. */
  function CreateDatabase(w: World, m: Memory, name: Db, next: Pc): World {
    if name in w.pg.dbs then w
    else At(w.(pg := w.pg.(dbs := w.pg.dbs[name := Content(0, [])],
                           writerConnect := w.pg.writerConnect + {name},
                           readerConnect := w.pg.readerConnect + {name})), m, next)
  }

  function SealDatabase(w: World, m: Memory, name: Db, next: Pc): World {
    At(w.(pg := w.pg.(writerConnect := w.pg.writerConnect - {name},
                      readerConnect := w.pg.readerConnect - {name})), m, next)
  }

  /** pg_restore may leave anything behind; the fingerprint check that follows decides. */
  function RestoreInto(w: World, m: Memory, name: Db, next: Pc, choice: Choice): World {
    if choice.Yields? && name in w.pg.dbs && w.pg.writerSessions == {}
    then At(w.(pg := w.pg.(dbs := w.pg.dbs[name := choice.content])), m, next) else w
  }

  function StepCopy(w: World, m: Memory, pc: CopyPc, choice: Choice): World {
    match pc
    case CreateTarget => CreateDatabase(w, m, Target(m), Copying(SealTarget))
    case SealTarget => SealDatabase(w, m, Target(m), Checkpoint(CopyIntent))
    case RestoreTarget => RestoreInto(w, m, Target(m), Copying(CheckTarget), choice)
    case CheckTarget =>
      if Target(m) in w.pg.dbs && w.pg.dbs[Target(m)] == m.snap.fingerprint
      then At(w, m.(after := m.snap.fingerprint, applied := []), Checkpoint(CopyVerified)) else w
  }

  function StepMigrate(P: Policy, w: World, m: Memory, pc: MigratePc, choice: Choice): World {
    match pc
    case RunMigration =>
      if !choice.Ran? || Target(m) !in w.pg.dbs || w.pg.writerSessions != {} then w
      else
        var content := w.pg.dbs[Target(m)];
        var pending := Pending(m.descriptor.migrations, content.history);
        if choice.succeeded then
          At(w.(pg := w.pg.(dbs := w.pg.dbs[Target(m) := MigratedBy(P, content, pending)])),
             m.(applied := pending), Migrating(CheckMigration))
        else if choice.applied <= |pending| then
          At(w.(pg := w.pg.(dbs := w.pg.dbs[Target(m) := MigratedBy(P, content, pending[..choice.applied])])),
             m, Migrating(CheckFailedMigration))
        else w
    case CheckMigration =>
      if Target(m) in w.pg.dbs && AtTarget(w.pg.dbs[Target(m)], m.descriptor)
      then At(w, m.(after := w.pg.dbs[Target(m)]), Checkpoint(MigrationVerified)) else w
    case CheckFailedMigration =>
      if Target(m) in w.pg.dbs && w.pg.dbs[Target(m)] == m.snap.fingerprint && w.pg.writerSessions == {}
      then At(w, m.(failed := true, after := m.snap.fingerprint, applied := []), Publishing(WriteManifest)) else w
  }

  function PublishedReceipt(m: Memory): Receipt {
    var base := InitialReceipt(m.command, m.gen, m.previous).(manifest := Some(ManifestOf(m)));
    if m.failed then
      base.(status := Failed, reason := "migration_failed_source_snapshot_preserved",
            database := Some(Target(m)), fingerprint := Some(m.after))
    else base
  }

  function StepPublish(w: World, m: Memory, pc: PublishPc): World {
    match pc
    case WriteManifest =>
      At(w.(disk := w.disk.(manifests := w.disk.manifests + {ManifestOf(m)})), m, Publishing(StageCurrent))
    case StageCurrent =>
      if w.disk.currentStaged then w
      else At(w.(disk := w.disk.(currentStaged := true)), m, Publishing(SetCurrent))
    case SetCurrent =>
      At(w.(disk := w.disk.(current := Some(ManifestOf(m)), currentStaged := false)),
         m.(receipt := PublishedReceipt(m)), if m.failed then Checkpoint(MigrationFailed) else Starting(GrantReader))
  }

  function StepStart(w: World, m: Memory, pc: StartPc, choice: Choice): World {
    match pc
    case GrantReader =>
      if w.pg.writerSessions != {} then w
      else At(w.(pg := w.pg.(readerConnect := w.pg.readerConnect + {Target(m)}, readerLogin := true)),
              m, Starting(CheckScopeClosed))
    case CheckScopeClosed => if Scope(w.pg, Target(m), false) then At(w, m, Checkpoint(ApplicationIntent)) else w
    case StartApp => At(w.(app := Some(ManifestOf(m))), m, Checkpoint(ApplicationStarted))
    case Observe =>
      if !choice.Saw? then w
      else
        var receipt := ObserveIn(w, m.receipt, ManifestOf(m), true, choice.sound, choice.replies);
        At(w, m.(receipt := receipt), if receipt.status.Verified? then Releasing(CheckRelease) else WriteResult)
  }

  function StepRelease(w: World, m: Memory, pc: ReleasePc): World {
    match pc
    case CheckRelease =>
      if w.pg.writerSessions == {} && Scope(w.pg, Target(m), false) then At(w, m, Releasing(WriteProof)) else w
    case WriteProof =>
      At(Journal(w, m, OperationOf(w, m).(proof := Whole(m.receipt))), m, Releasing(StageConfirmed))
    case StageConfirmed =>
      if w.disk.confirmedStaged then w
      else At(w.(disk := w.disk.(confirmedStaged := true)), m, Releasing(SetConfirmed))
    case SetConfirmed =>
      At(w.(disk := w.disk.(confirmed := Some(ManifestOf(m)), confirmedStaged := false),
            log := w.log + AppliedEvents(m.applied)), m, Checkpoint(ReleaseIntent))
    case GrantWriter =>
      At(w.(pg := w.pg.(writerConnect := w.pg.writerConnect + {Target(m)}, writerLogin := true)), m,
        Releasing(CheckScopeOpen))
    case CheckScopeOpen => if Scope(w.pg, Target(m), true) then At(w, m, Checkpoint(WritesReleased)) else w
  }

  function StepResult(w: World, m: Memory): World {
    Journal(w, m, OperationOf(w, m).(result := Whole(m.receipt))).(process := Idle)
  }

  function Advance(P: Policy, w: World, m: Memory, pc: Pc, choice: Choice): World {
    match pc
    case Leasing(lease) => StepLease(w, m, lease)
    case Checkpoint(phase) => StepCheckpoint(w, m, phase)
    case Draining(drain) => StepDrain(w, m, drain, choice)
    case BackingUp(backup) => StepBackup(w, m, backup, choice)
    case Copying(copy) => StepCopy(w, m, copy, choice)
    case Migrating(migration) => StepMigrate(P, w, m, migration, choice)
    case Publishing(publication) => StepPublish(w, m, publication)
    case Starting(start) => StepStart(w, m, start, choice)
    case Releasing(release) => StepRelease(w, m, release)
    case WriteResult => StepResult(w, m)
  }

  // --- starting, tearing, reconciling -----------------------------------------------------

  predicate DeployReady(w: World, command: Command) {
    var source := Serving(w);
    && source in w.pg.dbs
    && HasSchema(w.pg.dbs[source], command.descriptor.sourceSchema)
    && w.pg.dbs[source].history == UpTo(command.descriptor.migrations, command.descriptor.sourceSchema.version)
  }

  /** The failed candidate is still current, its outcome is known, it never released writes, and
      the verified backup still matches both the source database and the confirmed manifest. */
  predicate RestoreReady(w: World) {
    && w.disk.confirmed.Some? && w.disk.current.Some?
    && var current := w.disk.current.value;
       && current.key in w.disk.ops
       && var failed := w.disk.ops[current.key];
          && failed.release.Missing?
          && failed.result.Whole?
          && (failed.result.value.status.Failed? || failed.result.value.status.Unavailable?)
          && !w.pg.writerLogin && w.pg.writerSessions == {}
          && current.database in w.pg.dbs
          && failed.result.value.fingerprint == Some(w.pg.dbs[current.database])
          && current.folder in w.disk.backups
          && var backup := w.disk.backups[current.folder];
             && backup.verified && backup.snapshot.Some?
             && backup.dump == Some(backup.snapshot.value.dump)
             && backup.snapshot.value.source in w.pg.dbs
             && w.pg.dbs[backup.snapshot.value.source] == backup.snapshot.value.fingerprint
             && backup.snapshot.value.previous == w.disk.confirmed
  }

  predicate CanBegin(w: World, command: Command) {
    && w.process.Idle?
    && command.key !in w.disk.ops
    && |w.disk.ops| <= 128
    && AllKnown(w.disk.ops)
    && w.disk.current == command.expected
    && if command.action.Deploy? then DeployReady(w, command) else RestoreReady(w)
  }

  function FirstMemory(w: World, command: Command): Memory
    requires CanBegin(w, command)
  {
    var gen := w.disk.generation + 1;
    var previous := w.disk.confirmed;
    var receipt := InitialReceipt(command, gen, previous);
    if command.action.Deploy? then
      var none := Snapshot(Serving(w), Content(0, []), previous, Content(0, []), gen);
      Memory(command, gen, previous, Serving(w), command.descriptor, command.candidate, command.key,
             Content(0, []), none, [], Content(0, []), false, receipt)
    else
      var current := w.disk.current.value;
      var snap := w.disk.backups[current.folder].snapshot.value;
      Memory(command, gen, previous, snap.source, previous.value.descriptor, previous.value.candidate,
             current.folder, Content(0, []), snap, [], Content(0, []), false, receipt)
  }

  /** A crash inside a write: the file exists, is unreadable, and the process is gone. */
  function TearWrite(w: World, m: Memory, pc: Pc): World {
    var op := OperationOf(w, m);
    match pc
    case Leasing(WriteIntent) => Journal(w, m, op.(intent := Torn)).(process := Idle)
    case Releasing(WriteProof) => Journal(w, m, op.(proof := Torn)).(process := Idle)
    case WriteResult => Journal(w, m, op.(result := Torn)).(process := Idle)
    case Checkpoint(ReleaseIntent) => Journal(w, m, op.(release := Torn)).(process := Idle)
    case _ => w
  }

  // --- readback ---------------------------------------------------------------------------

  /** `validate_receipt` without its document constants. */
  predicate ValidReceipt(manifests: set<Manifest>, key: Key, intent: Intent, item: Receipt, postRelease: bool) {
    && item.command == intent.command && item.gen == intent.gen
    && item.previous == intent.receipt.previous
    && (item.status.Verified? ==>
          && item.manifest.Some? && item.manifest.value in manifests
          && var manifest := item.manifest.value;
             && manifest.key == key && manifest.gen == intent.gen
             && manifest.candidate == intent.candidate && manifest.descriptor == intent.descriptor
             && item.database == Some(manifest.database) && item.image == Some(manifest.descriptor.image)
             && item.reason == VERIFIED_REASON
             && item.fingerprint.Some?
             && AtTarget(item.fingerprint.value, manifest.descriptor)
             && (!postRelease ==> item.fingerprint.value == manifest.fingerprint)
             && item.probes.Keys == ALL_PROBES
             && forall name :: name in ALL_PROBES ==>
                  item.probes[name] == Probe(Verified, Some(200),
                    Some(Expected(manifest, manifest.descriptor.targetSchema.version, name))))
  }

  predicate ProofFor(op: Operation, manifest: Option<Manifest>) {
    op.proof.Whole? && op.proof.value.manifest == manifest
  }

  datatype Report = Report(receipt: Receipt, reconciled: Option<Receipt>, current: Option<Manifest>,
                           confirmed: Option<Manifest>, reconciliationNeeded: bool)

  /** `readback`: rejects an unreadable file, a changed command or an unproved verified receipt. */
  function Readback(w: World, key: Key, command: Command): Result<Report> {
    if key !in w.disk.ops || !w.disk.ops[key].intent.Whole? then Rejected("journal_file_unavailable")
    else
      var op := w.disk.ops[key];
      var intent := op.intent.value;
      if intent.command != command then Rejected("original_input_or_policy_changed")
      else if op.result.Torn? || op.reconciled.Torn? || op.proof.Torn? then Rejected("journal_file_unavailable")
      else
        var receipt := if op.result.Whole? then op.result.value else intent.receipt;
        if op.proof.Whole? && !(op.proof.value.status.Verified?
             && ValidReceipt(w.disk.manifests, key, intent, op.proof.value, false))
        then Rejected("verified_evidence_incomplete")
        else if !ValidReceipt(w.disk.manifests, key, intent, receipt, false)
             || (receipt.status.Verified? && !ProofFor(op, receipt.manifest))
        then Rejected("receipt_binding_mismatch")
        else if op.reconciled.Whole?
             && (!ValidReceipt(w.disk.manifests, key, intent, op.reconciled.value, true)
                 || (op.reconciled.value.status.Verified? && !ProofFor(op, op.reconciled.value.manifest)))
        then Rejected("receipt_binding_mismatch")
        else
          var reconciled := if op.reconciled.Whole? then Some(op.reconciled.value) else None;
          var latest := if reconciled.Some? then reconciled.value else receipt;
          Ok(Report(receipt, reconciled, w.disk.current, w.disk.confirmed, latest.status.Unknown?))
  }

  /** Everything `reconcile` demands before it looks at the running application. */
  predicate CanReconcile(w: World, key: Key, command: Command) {
    && w.process.Idle?
    && Readback(w, key, command).Ok?
    && Readback(w, key, command).value.reconciliationNeeded
    && var op := w.disk.ops[key];
       && op.release.Whole?
       && w.disk.current.Some? && w.disk.confirmed == w.disk.current
       && var manifest := w.disk.current.value;
          && manifest in w.disk.manifests
          && manifest.key == key
          && w.pg.writerLogin && manifest.database in w.pg.writerConnect
          && op.release.value == ReleaseNote(manifest.database, op.intent.value.gen)
          && ProofFor(op, Some(manifest))
          && Scope(w.pg, manifest.database, true)
  }

  /** Only a completed release can be observed as successful; the receipt is written next. */
  function StartReconcile(w: World, key: Key, command: Command, sound: bool, replies: Replies): World {
    if !CanReconcile(w, key, command) then w
    else
      var manifest := w.disk.current.value;
      var receipt := ObserveIn(w, w.disk.ops[key].intent.value.receipt, manifest, false, sound, replies);
      if receipt.status.Verified? then w.(process := Reconciling(key, receipt.(manifest := Some(manifest))))
      else w
  }

  function WriteReconciled(w: World, key: Key, file: File<Receipt>): World {
    if key !in w.disk.ops then w
    else w.(disk := w.disk.(ops := w.disk.ops[key := w.disk.ops[key].(reconciled := file)]), process := Idle)
  }

  // --- clients ----------------------------------------------------------------------------

  function ClientStep(P: Policy, w: World, act: ClientAct): World {
    match act
    case OpenWriter(db) =>
      if w.pg.writerLogin && db in w.pg.writerConnect && db in w.pg.dbs
      then w.(pg := w.pg.(writerSessions := w.pg.writerSessions + {db})) else w
    case CommitWrite(db, write) =>
      if db in w.pg.writerSessions && db in w.pg.dbs
      then w.(pg := w.pg.(dbs := w.pg.dbs[db := Written(P, w.pg.dbs[db], write)]), log := w.log + [Wrote(write)])
      else w
    case CloseWriter(db) => w.(pg := w.pg.(writerSessions := w.pg.writerSessions - {db}))
    case OpenReader(db) =>
      if w.pg.readerLogin && db in w.pg.readerConnect && db in w.pg.dbs
      then w.(pg := w.pg.(readerSessions := w.pg.readerSessions + {db})) else w
    case CloseReader(db) => w.(pg := w.pg.(readerSessions := w.pg.readerSessions - {db}))
  }

  // --- runs -------------------------------------------------------------------------------

  function Perform(P: Policy, w: World, act: Act): World {
    match act
    case Begin(command) =>
      if CanBegin(w, command) then At(w, FirstMemory(w, command), Leasing(StageGeneration)) else w
    case Go(choice) =>
      (match w.process
       case Idle => w
       case Active(m, pc) => Advance(P, w, m, pc, choice)
       case Reconciling(key, receipt) => WriteReconciled(w, key, Whole(receipt)))
    case Tear =>
      (match w.process
       case Idle => w
       case Active(m, pc) => TearWrite(w, m, pc)
       case Reconciling(key, receipt) => WriteReconciled(w, key, Torn))
    case Stop => w.(process := Idle)
    case Reconcile(key, command, sound, replies) => StartReconcile(w, key, command, sound, replies)
    case Client(c) => ClientStep(P, w, c)
  }

  function Run(P: Policy, w: World, acts: seq<Act>): World
    decreases |acts|
  {
    if acts == [] then w else Perform(P, Run(P, w, acts[..|acts| - 1]), acts[|acts| - 1])
  }

  /** A freshly enrolled target: one database, no journal, no pointer. */
  predicate Enrolled(P: Policy, w: World) {
    && w.disk == Disk(map[], {}, map[], 0, None, None, false, false, false)
    && w.pg.dbs == map[InitialDb := P.initial]
    && w.pg.writerConnect <= {InitialDb} && w.pg.writerSessions <= {InitialDb}
    && w.app.None? && w.process.Idle? && w.log == [] && w.starts == []
  }
}

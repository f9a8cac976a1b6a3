/** What holds at every point of every run of the delivery owner, crash points included. */
module PgInvariant {
  import opened Prelude
  import opened PgData
  import opened PgMachine

  /** Program order of `execute`. */
  function Rank(pc: Pc): nat {
    match pc
    case Leasing(lease) =>
      (match lease
       case StageGeneration => 0
       case SetGeneration => 1
       case MakeDir => 2
       case WriteIntent => 3)
    case Checkpoint(phase) => PhaseRank(phase)
    case Draining(drain) =>
      (match drain
       case StopApp => 5
       case DisableLogin => 6
       case RevokeEach(_) => 7
       case Terminate => 8
       case CheckDrained => 9)
    case BackingUp(backup) =>
      (match backup
       case FingerprintSource => 12
       case DumpSource => 13
       case RecheckSource => 14
       case WriteSnapshot => 15
       case CreateDrill => 17
       case SealDrill => 18
       case RestoreDrill => 20
       case CheckDrill => 21
       case WriteVerified => 22)
    case Copying(copy) =>
      (match copy
       case CreateTarget => 24
       case SealTarget => 25
       case RestoreTarget => 27
       case CheckTarget => 28)
    case Migrating(migration) =>
      (match migration
       case RunMigration => 31
       case CheckMigration => 32
       case CheckFailedMigration => 32)
    case Publishing(publication) =>
      (match publication
       case WriteManifest => 34
       case StageCurrent => 35
       case SetCurrent => 36)
    case Starting(start) =>
      (match start
       case GrantReader => 38
       case CheckScopeClosed => 39
       case StartApp => 41
       case Observe => 43)
    case Releasing(release) =>
      (match release
       case CheckRelease => 44
       case WriteProof => 45
       case StageConfirmed => 46
       case SetConfirmed => 47
       case GrantWriter => 49
       case CheckScopeOpen => 50)
    case WriteResult => 52
  }

  function PhaseRank(phase: Phase): nat {
    match phase
    case DrainIntent => 4
    case Drained => 10
    case BackupIntent => 11
    case BackupCreated => 16
    case DrillIntent => 19
    case BackupVerified => 23
    case RestoreBackupVerified => 23
    case CopyIntent => 26
    case CopyVerified => 29
    case MigrationIntent => 30
    case MigrationVerified => 33
    case MigrationFailed => 37
    case ApplicationIntent => 40
    case ApplicationStarted => 42
    case ReleaseIntent => 48
    case WritesReleased => 51
  }

  // --- the database clients reach ---------------------------------------------------------

  /** The serving database holds exactly the acknowledged history, at the confirmed schema. */
  ghost predicate ServingHolds(P: Policy, confirmed: Option<Manifest>, dbs: map<Db, Content>, log: seq<Event>) {
    var serving := DatabaseOf(confirmed);
    && serving in dbs
    && dbs[serving] == Replay(P, log)
    && (confirmed.Some? ==> AtTarget(dbs[serving], confirmed.value.descriptor))
  }

  /** Nothing but the serving database is open to the writer. */
  ghost predicate WriterConfined(confirmed: Option<Manifest>, pg: Pg) {
    && (pg.writerLogin ==> pg.writerConnect <= {DatabaseOf(confirmed)})
    && pg.writerSessions <= {DatabaseOf(confirmed)}
  }

  /** A confirmed manifest already has its verified-checks file. */
  ghost predicate ConfirmedProved(confirmed: Option<Manifest>, ops: map<Key, Operation>) {
    confirmed.Some? ==>
      && confirmed.value.key in ops
      && var proof := ops[confirmed.value.key].proof;
         proof.Whole? && proof.value.status.Verified? && proof.value.manifest == confirmed
  }

  // --- the journal ------------------------------------------------------------------------

  ghost predicate OperationSound(manifests: set<Manifest>, key: Key, op: Operation) {
    match op.intent
    case Whole(intent) =>
      && intent.command.key == key
      && intent.receipt == InitialReceipt(intent.command, intent.gen, intent.receipt.previous)
      && (op.proof.Whole? ==>
            op.proof.value.status.Verified? && ValidReceipt(manifests, key, intent, op.proof.value, false))
      && (op.result.Whole? ==>
            && ValidReceipt(manifests, key, intent, op.result.value, false)
            && (op.result.value.status.Verified? ==> ProofFor(op, op.result.value.manifest)))
      && (op.reconciled.Whole? ==>
            && op.reconciled.value.status.Verified?
            && ValidReceipt(manifests, key, intent, op.reconciled.value, true)
            && ProofFor(op, op.reconciled.value.manifest))
    case _ =>
      op.proof.Missing? && op.release.Missing? && op.result.Missing? && op.reconciled.Missing?
  }

  ghost predicate JournalSound(manifests: set<Manifest>, ops: map<Key, Operation>) {
    forall k :: k in ops ==> OperationSound(manifests, k, ops[k])
  }

  ghost predicate BackupsSound(backups: map<Key, Backup>) {
    forall f :: f in backups && backups[f].snapshot.Some? ==>
      backups[f].snapshot.value.source == DatabaseOf(backups[f].snapshot.value.previous)
  }

  /** Leases strictly increase, keys never repeat, and the two accounts of the journal agree. */
  ghost predicate LeasesSound(starts: seq<Start>, generation: nat, ops: map<Key, Operation>) {
    && (forall i, j :: 0 <= i < j < |starts| ==> starts[i].gen < starts[j].gen && starts[i].key != starts[j].key)
    && (forall i :: 0 <= i < |starts| ==> starts[i].gen <= generation && starts[i].key in ops)
    && (forall k :: k in ops && ops[k].intent.Whole? ==> Start(k, ops[k].intent.value.gen) in starts)
  }

  /** At most one operation lacks a known outcome, and it is the one at work. */
  ghost predicate OneUnknown(ops: map<Key, Operation>) {
    forall j, k :: j in ops && k in ops && !Known(ops[j]) && !Known(ops[k]) ==> j == k
  }

  ghost predicate AtWork(ops: map<Key, Operation>, process: Process) {
    match process
    case Idle => true
    case Active(m, pc) =>
      if Rank(pc) <= 2 then AllKnown(ops) && m.command.key !in ops
      else m.command.key in ops && OthersKnown(ops, m.command.key)
    case Reconciling(key, _) => key in ops && OthersKnown(ops, key)
  }

  ghost predicate OthersKnown(ops: map<Key, Operation>, key: Key) {
    forall k :: k in ops && k != key ==> Known(ops[k])
  }

  // --- the process at work ----------------------------------------------------------------

  ghost predicate LeaseFacts(starts: seq<Start>, generation: nat, m: Memory, pc: Pc) {
    if Rank(pc) <= 1 then m.gen == generation + 1
    else
      && m.gen == generation
      && (Rank(pc) == 2 ==> forall i :: 0 <= i < |starts| ==> starts[i].gen < m.gen)
      && (Rank(pc) >= 3 ==> Start(m.command.key, m.gen) in starts)
  }

  /** What the operation directory holds when control is at `pc`. */
  ghost predicate JournalFacts(ops: map<Key, Operation>, m: Memory, pc: Pc) {
    var r := Rank(pc);
    r >= 3 && m.command.key in ops ==>
      var op := ops[m.command.key];
      && op.result.Missing? && op.reconciled.Missing?
      && (r == 3 ==> op == EMPTY_OPERATION)
      && (r >= 4 ==> op.intent == Whole(IntentOf(m)))
      && (ProofWritten(m, pc) ==> op.proof == Whole(m.receipt))
      && (r <= 45 || (r == 52 && !m.receipt.status.Verified?) ==> op.proof.Missing? && op.release.Missing?)
  }

  /** The proof is on disk, or control is past it. */
  ghost predicate ProofWritten(m: Memory, pc: Pc) {
    46 <= Rank(pc) <= 51 || (Rank(pc) == 52 && m.receipt.status.Verified?)
  }

  /** The confirmed pointer already names this operation's manifest. */
  ghost predicate Flipped(m: Memory, pc: Pc) {
    48 <= Rank(pc) <= 51 || (Rank(pc) == 52 && m.receipt.status.Verified?)
  }

  /** No client can write: drained, and not yet released again. */
  ghost predicate Closed(m: Memory, pc: Pc) {
    && (Rank(pc) >= 10 || m.command.action.Restore?)
    && (Rank(pc) <= 49 || (Rank(pc) == 52 && !m.receipt.status.Verified?))
  }

  ghost predicate SourceFacts(confirmed: Option<Manifest>, pg: Pg, m: Memory, pc: Pc) {
    && m.source == DatabaseOf(m.previous)
    && confirmed == (if Flipped(m, pc) then Some(ManifestOf(m)) else m.previous)
    && (Closed(m, pc) ==> !pg.writerLogin && pg.writerSessions == {})
    && (45 <= Rank(pc) <= 49 ==> pg.writerConnect == {})
    && (m.command.action.Restore? ==>
          && m.previous.Some? && m.descriptor == m.previous.value.descriptor
          && m.candidate == m.previous.value.candidate)
  }

  /** The snapshot is the drained source's content. */
  ghost predicate SnapshotFacts(dbs: map<Db, Content>, m: Memory, pc: Pc) {
    var r := Rank(pc);
    !Flipped(m, pc) && m.source in dbs ==>
      && (m.command.action.Deploy? && 13 <= r ==> dbs[m.source] == m.before)
      && (m.command.action.Deploy? && 14 <= r ==> m.snap.source == m.source && m.snap.fingerprint == m.before)
      && (m.command.action.Deploy? && 14 <= r <= 22 ==> m.snap.previous == m.previous)
      && (m.command.action.Restore? ==> dbs[m.source] == m.snap.fingerprint)
  }

  /** The new database is the snapshot, then the snapshot migrated, then what is published. */
  ghost predicate TargetFacts(P: Policy, dbs: map<Db, Content>, m: Memory, pc: Pc) {
    var r := Rank(pc);
    && (m.command.action.Restore? ==> !(11 <= r <= 22) && !(30 <= r <= 33) && !m.failed)
    && (18 <= r <= 21 ==> DrillDb(m) in dbs && DrillDb(m) != m.source)
    && (r >= 25 ==> Target(m) in dbs && Target(m) != m.source)
    && (29 <= r <= 31 ==> dbs[Target(m)] == m.snap.fingerprint && !m.failed)
    && (29 <= r && m.command.action.Restore? ==>
          m.applied == [] && m.after == m.snap.fingerprint && AtTarget(m.after, m.descriptor))
    && (pc == Migrating(CheckMigration) ==>
          dbs[Target(m)] == MigratedBy(P, m.snap.fingerprint, m.applied) && !m.failed)
    && (r >= 33 && !Flipped(m, pc) ==>
          dbs[Target(m)] == m.after && m.after == MigratedBy(P, m.snap.fingerprint, m.applied))
    && (r >= 33 && !m.failed ==> AtTarget(m.after, m.descriptor))
    && (r >= 32 && m.command.action.Deploy? && !m.failed && pc != Migrating(CheckFailedMigration) ==>
          m.applied == Pending(m.descriptor.migrations, m.snap.fingerprint.history))
    && (m.failed ==> 34 <= r <= 37 || (r == 52 && m.receipt.status.Failed?))
    && (r == 37 ==> m.failed)
  }

  ghost predicate ReceiptFacts(manifests: set<Manifest>, m: Memory, pc: Pc) {
    var r := Rank(pc);
    && (r >= 35 ==> ManifestOf(m) in manifests)
    && (37 <= r <= 43 ==> m.receipt == PublishedReceipt(m))
    && (r >= 44 ==> ValidReceipt(manifests, m.command.key, IntentOf(m), m.receipt, false))
    && (44 <= r <= 51 ==> m.receipt.status.Verified?)
    && (r >= 44 && m.receipt.status.Verified? ==> m.receipt.manifest == Some(ManifestOf(m)))
  }

  ghost predicate ActiveFacts(P: Policy, w: World, m: Memory, pc: Pc) {
    && LeaseFacts(w.starts, w.disk.generation, m, pc)
    && JournalFacts(w.disk.ops, m, pc)
    && SourceFacts(w.disk.confirmed, w.pg, m, pc)
    && SnapshotFacts(w.pg.dbs, m, pc)
    && TargetFacts(P, w.pg.dbs, m, pc)
    && ReceiptFacts(w.disk.manifests, m, pc)
  }

  ghost predicate ReconcileFacts(disk: Disk, key: Key, receipt: Receipt) {
    key in disk.ops ==>
      var op := disk.ops[key];
      && op.intent.Whole? && op.reconciled.Missing? && !Known(op)
      && receipt.status.Verified?
      && ValidReceipt(disk.manifests, key, op.intent.value, receipt, true)
      && ProofFor(op, receipt.manifest)
  }

  ghost predicate ProcessFacts(P: Policy, w: World) {
    match w.process
    case Idle => true
    case Active(m, pc) => ActiveFacts(P, w, m, pc)
    case Reconciling(key, receipt) => ReconcileFacts(w.disk, key, receipt)
  }

  ghost predicate Inv(P: Policy, w: World) {
    && ServingHolds(P, w.disk.confirmed, w.pg.dbs, w.log)
    && WriterConfined(w.disk.confirmed, w.pg)
    && ConfirmedProved(w.disk.confirmed, w.disk.ops)
    && JournalSound(w.disk.manifests, w.disk.ops)
    && BackupsSound(w.disk.backups)
    && LeasesSound(w.starts, w.disk.generation, w.disk.ops)
    && OneUnknown(w.disk.ops)
    && AtWork(w.disk.ops, w.process)
    && ProcessFacts(P, w)
  }
}

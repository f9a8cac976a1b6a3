/** Every step of the delivery owner keeps the invariant. */
module PgProofs {
  import opened Prelude
  import opened PgData
  import opened PgMachine
  import opened PgInvariant

  lemma EnrolledInv(P: Policy, w: World)
    requires Enrolled(P, w)
    ensures Inv(P, w)
  {
  }

  // --- the operation directory ------------------------------------------------------------

  /** Writing files of the operation at work keeps every account of the journal. */
  lemma OwnDirectoryUpdate(w: World, key: Key, op: Operation)
    requires JournalSound(w.disk.manifests, w.disk.ops) && LeasesSound(w.starts, w.disk.generation, w.disk.ops)
    requires ConfirmedProved(w.disk.confirmed, w.disk.ops)
    requires key in w.disk.ops && OthersKnown(w.disk.ops, key)
    requires OperationSound(w.disk.manifests, key, op)
    requires op.intent.Whole? ==> Start(key, op.intent.value.gen) in w.starts
    requires w.disk.ops[key].proof.Whole? ==> op.proof == w.disk.ops[key].proof
    ensures var ops := w.disk.ops[key := op];
            && JournalSound(w.disk.manifests, ops) && LeasesSound(w.starts, w.disk.generation, ops)
            && ConfirmedProved(w.disk.confirmed, ops) && OneUnknown(ops) && OthersKnown(ops, key)
  {
    hide OperationSound, Known;
  }

  /** A manifest file that appears never invalidates a receipt. */
  lemma ManifestAdded(manifests: set<Manifest>, added: Manifest, ops: map<Key, Operation>)
    requires JournalSound(manifests, ops)
    ensures JournalSound(manifests + {added}, ops)
  {
    hide AtTarget;
  }

  // --- clients ----------------------------------------------------------------------------

  lemma ClientServing(P: Policy, w: World, act: ClientAct)
    requires ServingHolds(P, w.disk.confirmed, w.pg.dbs, w.log) && WriterConfined(w.disk.confirmed, w.pg)
    ensures var v := ClientStep(P, w, act);
            ServingHolds(P, v.disk.confirmed, v.pg.dbs, v.log) && WriterConfined(v.disk.confirmed, v.pg)
  {
    if act.CommitWrite? {
      WrittenReplay(P, w.log, act.write);
    }
  }

  lemma ClientFacts(P: Policy, w: World, act: ClientAct)
    requires ProcessFacts(P, w) && WriterConfined(w.disk.confirmed, w.pg)
    ensures ProcessFacts(P, ClientStep(P, w, act))
  {
    hide AtTarget, MigratedBy, ValidReceipt, HasSchema, ReconcileFacts;
    if w.process.Active? && act.CommitWrite? && act.db in w.pg.writerSessions {
      var m, pc := w.process.m, w.process.pc;
      assert !Closed(m, pc);
      assert act.db == DatabaseOf(w.disk.confirmed);
    }
  }

  lemma ClientKeeps(P: Policy, w: World, act: ClientAct)
    requires Inv(P, w)
    ensures Inv(P, ClientStep(P, w, act))
  {
    hide JournalSound, BackupsSound, LeasesSound, ConfirmedProved, ServingHolds, OneUnknown, AtWork,
         WriterConfined, ProcessFacts;
    ClientServing(P, w, act);
    ClientFacts(P, w, act);
  }

  // --- leases and the journal -------------------------------------------------------------

  lemma LeasePlace(w: World, m: Memory, pc: Pc)
    requires LeaseFacts(w.starts, w.disk.generation, m, pc) && JournalFacts(w.disk.ops, m, pc)
    requires LeasesSound(w.starts, w.disk.generation, w.disk.ops) && pc.Leasing? && w.process == Active(m, pc)
    ensures var v := StepLease(w, m, pc.lease);
            && v.process.Active? && v.process.m == m
            && LeaseFacts(v.starts, v.disk.generation, m, v.process.pc) && JournalFacts(v.disk.ops, m, v.process.pc)
  {
  }

  lemma LeaseData(P: Policy, w: World, m: Memory, pc: Pc)
    requires TargetFacts(P, w.pg.dbs, m, pc) && ReceiptFacts(w.disk.manifests, m, pc)
    requires pc.Leasing? && w.process == Active(m, pc)
    ensures var v := StepLease(w, m, pc.lease);
            && v.process.Active? && v.process.m == m && var next := v.process.pc;
            && TargetFacts(P, v.pg.dbs, m, next) && ReceiptFacts(v.disk.manifests, m, next)
  {
    hide ManifestOf, AtTarget, MigratedBy, ValidReceipt, IntentOf, OperationOf;
  }

  lemma LeaseSource(w: World, m: Memory, pc: Pc)
    requires SourceFacts(w.disk.confirmed, w.pg, m, pc) && SnapshotFacts(w.pg.dbs, m, pc)
    requires pc.Leasing? && w.process == Active(m, pc)
    ensures var v := StepLease(w, m, pc.lease);
            && v.process.Active? && v.process.m == m && var next := v.process.pc;
            && SourceFacts(v.disk.confirmed, v.pg, m, next) && SnapshotFacts(v.pg.dbs, m, next)
  {
    hide ManifestOf, IntentOf, OperationOf;
  }

  lemma MakeDirJournal(w: World, m: Memory)
    requires JournalSound(w.disk.manifests, w.disk.ops) && LeasesSound(w.starts, w.disk.generation, w.disk.ops)
    requires ConfirmedProved(w.disk.confirmed, w.disk.ops)
    requires AllKnown(w.disk.ops) && m.command.key !in w.disk.ops
    requires LeaseFacts(w.starts, w.disk.generation, m, Leasing(MakeDir))
    ensures var v := StepLease(w, m, MakeDir);
            && JournalSound(v.disk.manifests, v.disk.ops) && LeasesSound(v.starts, v.disk.generation, v.disk.ops)
            && ConfirmedProved(v.disk.confirmed, v.disk.ops) && OneUnknown(v.disk.ops) && AtWork(v.disk.ops, v.process)
  {
    hide ValidReceipt, Known;
  }

  lemma IntentJournal(w: World, m: Memory)
    requires JournalSound(w.disk.manifests, w.disk.ops) && LeasesSound(w.starts, w.disk.generation, w.disk.ops)
    requires ConfirmedProved(w.disk.confirmed, w.disk.ops)
    requires AtWork(w.disk.ops, Active(m, Leasing(WriteIntent)))
    requires LeaseFacts(w.starts, w.disk.generation, m, Leasing(WriteIntent))
    requires JournalFacts(w.disk.ops, m, Leasing(WriteIntent))
    ensures var v := StepLease(w, m, WriteIntent);
            && JournalSound(v.disk.manifests, v.disk.ops) && LeasesSound(v.starts, v.disk.generation, v.disk.ops)
            && ConfirmedProved(v.disk.confirmed, v.disk.ops) && OneUnknown(v.disk.ops) && AtWork(v.disk.ops, v.process)
  {
    hide JournalSound, LeasesSound, ConfirmedProved, OneUnknown, OthersKnown, ValidReceipt;
    OwnDirectoryUpdate(w, m.command.key, OperationOf(w, m).(intent := Whole(IntentOf(m))));
  }

  lemma GenerationJournal(w: World, m: Memory, pc: LeasePc)
    requires LeasesSound(w.starts, w.disk.generation, w.disk.ops) && AtWork(w.disk.ops, w.process)
    requires w.process == Active(m, Leasing(pc)) && (pc.StageGeneration? || pc.SetGeneration?)
    requires LeaseFacts(w.starts, w.disk.generation, m, Leasing(pc))
    ensures var v := StepLease(w, m, pc);
            && v.disk.ops == w.disk.ops && v.disk.manifests == w.disk.manifests && v.disk.confirmed == w.disk.confirmed
            && LeasesSound(v.starts, v.disk.generation, v.disk.ops) && AtWork(v.disk.ops, v.process)
  {
    hide AllKnown;
  }

  lemma LeaseKeeps(P: Policy, w: World, m: Memory, pc: Pc)
    requires Inv(P, w) && w.process == Active(m, pc) && pc.Leasing?
    ensures Inv(P, StepLease(w, m, pc.lease))
  {
    hide JournalSound, BackupsSound, LeasesSound, ConfirmedProved, ServingHolds, OneUnknown, AllKnown, OthersKnown,
         WriterConfined, LeaseFacts, JournalFacts, SourceFacts, SnapshotFacts, TargetFacts, ReceiptFacts;
    LeasePlace(w, m, pc);
    LeaseSource(w, m, pc);
    LeaseData(P, w, m, pc);
    match pc.lease
    case MakeDir => MakeDirJournal(w, m);
    case WriteIntent => IntentJournal(w, m);
    case _ => GenerationJournal(w, m, pc.lease);
  }

  // --- checkpoints ------------------------------------------------------------------------

  lemma CheckpointPlace(w: World, m: Memory, phase: Phase)
    requires AtWork(w.disk.ops, w.process) && w.process == Active(m, Checkpoint(phase))
    requires JournalFacts(w.disk.ops, m, Checkpoint(phase))
    requires phase.MigrationFailed? ==> m.receipt.status.Failed?
    requires phase.WritesReleased? ==> m.receipt.status.Verified?
    ensures JournalFacts(StepCheckpoint(w, m, phase).disk.ops, m, AfterPhase(m, phase))
  {
    hide OthersKnown, IntentOf, Target;
  }

  lemma CheckpointLease(w: World, m: Memory, phase: Phase)
    requires LeaseFacts(w.starts, w.disk.generation, m, Checkpoint(phase))
    ensures LeaseFacts(w.starts, w.disk.generation, m, AfterPhase(m, phase))
  {
    hide Rank, PhaseRank, AfterPhase;
    PhaseRanks(m, phase);
  }

  lemma PhaseRanks(m: Memory, phase: Phase)
    ensures Rank(Checkpoint(phase)) >= 4 && Rank(AfterPhase(m, phase)) >= 5
  {
  }

  lemma CheckpointSource(w: World, m: Memory, phase: Phase)
    requires SourceFacts(w.disk.confirmed, w.pg, m, Checkpoint(phase))
    requires phase.MigrationFailed? ==> m.receipt.status.Failed?
    requires phase.WritesReleased? ==> m.receipt.status.Verified?
    ensures SourceFacts(w.disk.confirmed, w.pg, m, AfterPhase(m, phase))
  {
    hide ManifestOf;
  }

  lemma CheckpointSnapshot(w: World, m: Memory, phase: Phase)
    requires SnapshotFacts(w.pg.dbs, m, Checkpoint(phase))
    requires phase.MigrationFailed? ==> m.receipt.status.Failed?
    requires phase.WritesReleased? ==> m.receipt.status.Verified?
    requires m.command.action.Restore? ==> !(11 <= PhaseRank(phase) <= 22) && !(30 <= PhaseRank(phase) <= 33)
    ensures SnapshotFacts(w.pg.dbs, m, AfterPhase(m, phase))
  {
    hide ManifestOf;
  }

  lemma CheckpointTarget(P: Policy, w: World, m: Memory, phase: Phase)
    requires TargetFacts(P, w.pg.dbs, m, Checkpoint(phase))
    requires phase.MigrationFailed? ==> m.receipt.status.Failed?
    requires phase.WritesReleased? ==> m.receipt.status.Verified?
    ensures TargetFacts(P, w.pg.dbs, m, AfterPhase(m, phase))
  {
    hide AtTarget, ManifestOf;
  }

  lemma CheckpointReceipt(P: Policy, w: World, m: Memory, phase: Phase)
    requires TargetFacts(P, w.pg.dbs, m, Checkpoint(phase)) && ReceiptFacts(w.disk.manifests, m, Checkpoint(phase))
    ensures ReceiptFacts(w.disk.manifests, m, AfterPhase(m, phase))
    ensures phase.MigrationFailed? ==> m.receipt.status.Failed?
    ensures phase.WritesReleased? ==> m.receipt.status.Verified?
  {
    hide AtTarget, HasSchema, MigratedBy, ManifestOf;
  }

  lemma CheckpointJournal(w: World, m: Memory, phase: Phase)
    requires JournalSound(w.disk.manifests, w.disk.ops) && LeasesSound(w.starts, w.disk.generation, w.disk.ops)
    requires ConfirmedProved(w.disk.confirmed, w.disk.ops)
    requires AtWork(w.disk.ops, w.process) && JournalFacts(w.disk.ops, m, Checkpoint(phase))
    requires w.process == Active(m, Checkpoint(phase))
    ensures var v := StepCheckpoint(w, m, phase);
            && JournalSound(v.disk.manifests, v.disk.ops) && LeasesSound(v.starts, v.disk.generation, v.disk.ops)
            && ConfirmedProved(v.disk.confirmed, v.disk.ops) && OneUnknown(v.disk.ops) && AtWork(v.disk.ops, v.process)
  {
    hide ValidReceipt, LeasesSound, ConfirmedProved, OneUnknown, OthersKnown, ManifestOf, Rank, PhaseRank, AfterPhase;
    PhaseRanks(m, phase);
    var v := StepCheckpoint(w, m, phase);
    var op := v.disk.ops[m.command.key];
    assert OperationSound(w.disk.manifests, m.command.key, w.disk.ops[m.command.key]);
    assert op.intent == w.disk.ops[m.command.key].intent && op.intent.Whole?;
    IntentStarted(w, m.command.key);
    OwnDirectoryUpdate(w, m.command.key, op);
  }

  lemma IntentStarted(w: World, key: Key)
    requires LeasesSound(w.starts, w.disk.generation, w.disk.ops)
    requires key in w.disk.ops && w.disk.ops[key].intent.Whole?
    ensures Start(key, w.disk.ops[key].intent.value.gen) in w.starts
  {
  }

  lemma CheckpointKeeps(P: Policy, w: World, m: Memory, phase: Phase)
    requires Inv(P, w) && w.process == Active(m, Checkpoint(phase))
    ensures Inv(P, StepCheckpoint(w, m, phase))
  {
    hide JournalSound, BackupsSound, LeasesSound, ConfirmedProved, ServingHolds, OneUnknown, AtWork,
         WriterConfined, LeaseFacts, JournalFacts, SourceFacts, SnapshotFacts, ReceiptFacts, AfterPhase, AtTarget;
    CheckpointReceipt(P, w, m, phase);
    CheckpointPlace(w, m, phase);
    CheckpointLease(w, m, phase);
    CheckpointSource(w, m, phase);
    CheckpointSnapshot(w, m, phase);
    CheckpointTarget(P, w, m, phase);
    CheckpointJournal(w, m, phase);
  }

  // --- steps that leave the journal alone ---------------------------------------------------

  ghost predicate SameOperation(m: Memory, n: Memory) {
    && n.command == m.command && n.gen == m.gen && n.previous == m.previous && n.source == m.source
    && n.descriptor == m.descriptor && n.candidate == m.candidate && n.folder == m.folder
  }

  /** Drained, not yet released, and no proof written. */
  ghost predicate Middle(m: Memory, pc: Pc) {
    10 <= Rank(pc) <= 45 || (Rank(pc) == 52 && !m.receipt.status.Verified?)
  }

  ghost predicate Frame(w: World, v: World, m: Memory, n: Memory) {
    && v.disk.ops == w.disk.ops && v.starts == w.starts && v.disk.generation == w.disk.generation
    && v.disk.confirmed == w.disk.confirmed && v.log == w.log
    && v.pg.writerLogin == w.pg.writerLogin && v.pg.writerSessions == w.pg.writerSessions
    && SameOperation(m, n)
  }

  /** In the middle of an operation only the databases, the backups and the manifests move. */
  lemma MiddleFacts(w: World, v: World, m: Memory, n: Memory, pc: Pc, next: Pc)
    requires AtWork(w.disk.ops, w.process) && w.process == Active(m, pc) && v.process == Active(n, next)
    requires Frame(w, v, m, n) && Middle(m, pc) && Middle(n, next)
    requires LeaseFacts(w.starts, w.disk.generation, m, pc) && JournalFacts(w.disk.ops, m, pc)
    requires SourceFacts(w.disk.confirmed, w.pg, m, pc)
    requires Rank(next) == 45 ==> v.pg.writerConnect == {}
    ensures LeaseFacts(v.starts, v.disk.generation, n, next) && JournalFacts(v.disk.ops, n, next)
    ensures SourceFacts(v.disk.confirmed, v.pg, n, next) && AtWork(v.disk.ops, v.process)
    ensures WriterConfined(w.disk.confirmed, w.pg) ==> WriterConfined(v.disk.confirmed, v.pg)
  {
    hide OthersKnown, Rank, ManifestOf;
  }

  lemma MiddleKeeps(P: Policy, w: World, v: World, m: Memory, n: Memory, pc: Pc, next: Pc)
    requires Inv(P, w) && w.process == Active(m, pc) && v.process == Active(n, next)
    requires Frame(w, v, m, n) && Middle(m, pc) && Middle(n, next)
    requires Rank(next) == 45 ==> v.pg.writerConnect == {}
    requires v.disk.manifests == w.disk.manifests && BackupsSound(v.disk.backups)
    requires m.source in w.pg.dbs && m.source in v.pg.dbs && v.pg.dbs[m.source] == w.pg.dbs[m.source]
    requires SnapshotFacts(v.pg.dbs, n, next) && TargetFacts(P, v.pg.dbs, n, next)
    requires ReceiptFacts(v.disk.manifests, n, next)
    ensures Inv(P, v)
  {
    hide JournalSound, BackupsSound, LeasesSound, ConfirmedProved, OneUnknown, AtWork, WriterConfined,
         LeaseFacts, JournalFacts, SnapshotFacts, TargetFacts, ReceiptFacts, Rank, Replay, AtTarget;
    MiddleFacts(w, v, m, n, pc, next);
    SourceIsServing(w, m, pc);
  }

  lemma SourceIsServing(w: World, m: Memory, pc: Pc)
    requires SourceFacts(w.disk.confirmed, w.pg, m, pc) && Middle(m, pc)
    ensures m.source == Serving(w) && !w.pg.writerLogin && w.pg.writerSessions == {}
  {
    hide Rank;
  }

  // --- drain ------------------------------------------------------------------------------

  lemma DrainPlace(w: World, m: Memory, pc: Pc, choice: Choice)
    requires LeaseFacts(w.starts, w.disk.generation, m, pc) && JournalFacts(w.disk.ops, m, pc)
    requires AtWork(w.disk.ops, w.process) && w.process == Active(m, pc) && pc.Draining?
    ensures var v := StepDrain(w, m, pc.drain, choice);
            && v.process.Active? && v.process.m == m && 5 <= Rank(v.process.pc) <= 10
            && v.disk == w.disk && v.starts == w.starts && v.log == w.log && v.pg.dbs == w.pg.dbs
            && LeaseFacts(v.starts, v.disk.generation, m, v.process.pc) && JournalFacts(v.disk.ops, m, v.process.pc)
            && AtWork(v.disk.ops, v.process)
  {
    hide OthersKnown, IntentOf;
  }

  lemma DrainSource(w: World, m: Memory, pc: Pc, choice: Choice)
    requires SourceFacts(w.disk.confirmed, w.pg, m, pc) && WriterConfined(w.disk.confirmed, w.pg)
    requires w.process == Active(m, pc) && pc.Draining?
    ensures var v := StepDrain(w, m, pc.drain, choice);
            && v.process.Active?
            && SourceFacts(w.disk.confirmed, v.pg, m, v.process.pc) && WriterConfined(w.disk.confirmed, v.pg)
  {
    hide ManifestOf;
  }

  lemma DrainData(P: Policy, dbs: map<Db, Content>, manifests: set<Manifest>, m: Memory, pc: Pc, next: Pc)
    requires SnapshotFacts(dbs, m, pc) && TargetFacts(P, dbs, m, pc) && ReceiptFacts(manifests, m, pc)
    requires pc.Draining? && 5 <= Rank(next) <= 10 && !next.Migrating?
    ensures SnapshotFacts(dbs, m, next) && TargetFacts(P, dbs, m, next) && ReceiptFacts(manifests, m, next)
  {
    hide ManifestOf, AtTarget, MigratedBy, ValidReceipt;
  }

  lemma DrainKeeps(P: Policy, w: World, m: Memory, pc: Pc, choice: Choice)
    requires Inv(P, w) && w.process == Active(m, pc) && pc.Draining?
    ensures Inv(P, StepDrain(w, m, pc.drain, choice))
  {
    hide JournalSound, BackupsSound, LeasesSound, ConfirmedProved, ServingHolds, OneUnknown, AtWork, WriterConfined,
         LeaseFacts, JournalFacts, SourceFacts, SnapshotFacts, TargetFacts, ReceiptFacts, StepDrain, Rank;
    DrainPlace(w, m, pc, choice);
    DrainSource(w, m, pc, choice);
    DrainNext(w, m, pc, choice);
    DrainData(P, w.pg.dbs, w.disk.manifests, m, pc, StepDrain(w, m, pc.drain, choice).process.pc);
  }

  lemma DrainNext(w: World, m: Memory, pc: Pc, choice: Choice)
    requires w.process == Active(m, pc) && pc.Draining?
    ensures var v := StepDrain(w, m, pc.drain, choice);
            v.process.Active? && !v.process.pc.Migrating? && v.app in {w.app, None}
              && v == World(w.disk, v.pg, v.app, v.process, w.log, w.starts)
  {
  }

  // --- backup -----------------------------------------------------------------------------

  lemma BackupFrame(w: World, m: Memory, pc: BackupPc, choice: Choice)
    requires w.process == Active(m, BackingUp(pc)) && m.source in w.pg.dbs
    requires 18 <= Rank(BackingUp(pc)) <= 21 ==> DrillDb(m) != m.source
    ensures var v := StepBackup(w, m, pc, choice);
            && v.process.Active? && Frame(w, v, m, v.process.m) && v.disk.manifests == w.disk.manifests
            && 12 <= Rank(v.process.pc) <= 23
            && m.source in v.pg.dbs && v.pg.dbs[m.source] == w.pg.dbs[m.source]
  {
    hide Quiescent;
  }

  lemma BackupSnapshot(w: World, m: Memory, pc: BackupPc, choice: Choice)
    requires w.process == Active(m, BackingUp(pc)) && m.source in w.pg.dbs && m.command.action.Deploy?
    requires 18 <= Rank(BackingUp(pc)) <= 21 ==> DrillDb(m) != m.source
    requires SnapshotFacts(w.pg.dbs, m, BackingUp(pc))
    ensures var v := StepBackup(w, m, pc, choice);
            v.process.Active? && SnapshotFacts(v.pg.dbs, v.process.m, v.process.pc)
  {
    hide ManifestOf;
  }

  lemma BackupTarget(P: Policy, w: World, m: Memory, pc: BackupPc, choice: Choice)
    requires w.process == Active(m, BackingUp(pc)) && m.source in w.pg.dbs && m.command.action.Deploy?
    requires TargetFacts(P, w.pg.dbs, m, BackingUp(pc))
    ensures var v := StepBackup(w, m, pc, choice);
            v.process.Active? && TargetFacts(P, v.pg.dbs, v.process.m, v.process.pc)
  {
    hide AtTarget, MigratedBy, ManifestOf;
  }

  lemma BackupFolders(w: World, m: Memory, pc: BackupPc, choice: Choice)
    requires BackupsSound(w.disk.backups) && SnapshotFacts(w.pg.dbs, m, BackingUp(pc))
    requires SourceFacts(w.disk.confirmed, w.pg, m, BackingUp(pc))
    requires m.source in w.pg.dbs && m.command.action.Deploy?
    ensures BackupsSound(StepBackup(w, m, pc, choice).disk.backups)
  {
    hide ManifestOf, Target;
  }

  /** Only a deployment backs up, and its source exists. */
  lemma BackupPlaces(P: Policy, w: World, m: Memory, pc: BackupPc)
    requires SourceFacts(w.disk.confirmed, w.pg, m, BackingUp(pc)) && TargetFacts(P, w.pg.dbs, m, BackingUp(pc))
    requires ServingHolds(P, w.disk.confirmed, w.pg.dbs, w.log)
    ensures m.source in w.pg.dbs && m.command.action.Deploy? && Middle(m, BackingUp(pc))
    ensures 18 <= Rank(BackingUp(pc)) <= 21 ==> DrillDb(m) != m.source
  {
    hide ManifestOf, AtTarget, MigratedBy, Replay;
  }

  lemma BackupKeeps(P: Policy, w: World, m: Memory, pc: Pc, choice: Choice)
    requires Inv(P, w) && w.process == Active(m, pc) && pc.BackingUp?
    ensures Inv(P, StepBackup(w, m, pc.backup, choice))
  {
    hide JournalSound, BackupsSound, LeasesSound, ConfirmedProved, ServingHolds, OneUnknown, AtWork, WriterConfined,
         LeaseFacts, JournalFacts, SourceFacts, SnapshotFacts, TargetFacts, ReceiptFacts, StepBackup, Rank, Frame;
    BackupPlaces(P, w, m, pc.backup);
    BackupFrame(w, m, pc.backup, choice);
    BackupSnapshot(w, m, pc.backup, choice);
    BackupTarget(P, w, m, pc.backup, choice);
    BackupFolders(w, m, pc.backup, choice);
    var v := StepBackup(w, m, pc.backup, choice);
    EarlyReceipt(v.disk.manifests, v.process.m, v.process.pc);
    MiddleKeeps(P, w, v, m, v.process.m, pc, v.process.pc);
  }

  /** Before publication there is nothing to say about a receipt. */
  lemma EarlyReceipt(manifests: set<Manifest>, m: Memory, pc: Pc)
    requires Rank(pc) <= 34
    ensures ReceiptFacts(manifests, m, pc)
  {
    hide Rank;
  }

  // --- copy -------------------------------------------------------------------------------

  lemma CopyFrame(w: World, m: Memory, pc: CopyPc, choice: Choice)
    requires w.process == Active(m, Copying(pc)) && m.source in w.pg.dbs
    requires Rank(Copying(pc)) >= 25 ==> Target(m) != m.source
    ensures var v := StepCopy(w, m, pc, choice);
            && v.process.Active? && Frame(w, v, m, v.process.m) && v.disk == w.disk
            && 24 <= Rank(v.process.pc) <= 29
            && m.source in v.pg.dbs && v.pg.dbs[m.source] == w.pg.dbs[m.source]
  {
  }

  lemma CopySnapshot(w: World, m: Memory, pc: CopyPc, choice: Choice)
    requires w.process == Active(m, Copying(pc)) && m.source in w.pg.dbs
    requires Rank(Copying(pc)) >= 25 ==> Target(m) != m.source
    requires SnapshotFacts(w.pg.dbs, m, Copying(pc))
    ensures var v := StepCopy(w, m, pc, choice);
            v.process.Active? && SnapshotFacts(v.pg.dbs, v.process.m, v.process.pc)
  {
    hide ManifestOf;
  }

  lemma CopyTarget(P: Policy, w: World, m: Memory, pc: CopyPc, choice: Choice)
    requires w.process == Active(m, Copying(pc)) && m.source in w.pg.dbs
    requires TargetFacts(P, w.pg.dbs, m, Copying(pc))
    requires m.command.action.Restore? ==> AtTarget(m.snap.fingerprint, m.descriptor)
    ensures var v := StepCopy(w, m, pc, choice);
            v.process.Active? && TargetFacts(P, v.pg.dbs, v.process.m, v.process.pc)
  {
    hide AtTarget, MigratedBy, ManifestOf;
  }

  /** A restored snapshot is at the confirmed manifest's schema, because its source still is. */
  lemma CopyPlaces(P: Policy, w: World, m: Memory, pc: CopyPc)
    requires SourceFacts(w.disk.confirmed, w.pg, m, Copying(pc)) && TargetFacts(P, w.pg.dbs, m, Copying(pc))
    requires SnapshotFacts(w.pg.dbs, m, Copying(pc)) && ServingHolds(P, w.disk.confirmed, w.pg.dbs, w.log)
    ensures m.source in w.pg.dbs && Middle(m, Copying(pc))
    ensures Rank(Copying(pc)) >= 25 ==> Target(m) != m.source
    ensures m.command.action.Restore? ==> AtTarget(m.snap.fingerprint, m.descriptor)
  {
    hide ManifestOf, AtTarget, MigratedBy, Replay;
  }

  lemma CopyKeeps(P: Policy, w: World, m: Memory, pc: Pc, choice: Choice)
    requires Inv(P, w) && w.process == Active(m, pc) && pc.Copying?
    ensures Inv(P, StepCopy(w, m, pc.copy, choice))
  {
    hide JournalSound, BackupsSound, LeasesSound, ConfirmedProved, ServingHolds, OneUnknown, AtWork, WriterConfined,
         LeaseFacts, JournalFacts, SourceFacts, SnapshotFacts, TargetFacts, ReceiptFacts, StepCopy, Rank, Frame,
         AtTarget;
    CopyPlaces(P, w, m, pc.copy);
    CopyFrame(w, m, pc.copy, choice);
    CopySnapshot(w, m, pc.copy, choice);
    CopyTarget(P, w, m, pc.copy, choice);
    var v := StepCopy(w, m, pc.copy, choice);
    EarlyReceipt(v.disk.manifests, v.process.m, v.process.pc);
    MiddleKeeps(P, w, v, m, v.process.m, pc, v.process.pc);
  }

  // --- migration --------------------------------------------------------------------------

  lemma MigrateFrame(P: Policy, w: World, m: Memory, pc: MigratePc, choice: Choice)
    requires w.process == Active(m, Migrating(pc)) && m.source in w.pg.dbs && Target(m) != m.source
    ensures var v := StepMigrate(P, w, m, pc, choice);
            && v.process.Active? && Frame(w, v, m, v.process.m) && v.disk == w.disk
            && 31 <= Rank(v.process.pc) <= 34
            && m.source in v.pg.dbs && v.pg.dbs[m.source] == w.pg.dbs[m.source]
  {
    hide MigratedBy, Pending, AtTarget;
  }

  lemma MigrateSnapshot(P: Policy, w: World, m: Memory, pc: MigratePc, choice: Choice)
    requires w.process == Active(m, Migrating(pc)) && m.source in w.pg.dbs && Target(m) != m.source
    requires SnapshotFacts(w.pg.dbs, m, Migrating(pc))
    ensures var v := StepMigrate(P, w, m, pc, choice);
            v.process.Active? && SnapshotFacts(v.pg.dbs, v.process.m, v.process.pc)
  {
    hide ManifestOf, MigratedBy, Pending, AtTarget;
  }

  lemma MigrateTarget(P: Policy, w: World, m: Memory, pc: MigratePc, choice: Choice)
    requires w.process == Active(m, Migrating(pc)) && TargetFacts(P, w.pg.dbs, m, Migrating(pc))
    ensures var v := StepMigrate(P, w, m, pc, choice);
            v.process.Active? && TargetFacts(P, v.pg.dbs, v.process.m, v.process.pc)
  {
    hide AtTarget, Pending, ManifestOf;
  }

  lemma MigratePlaces(P: Policy, w: World, m: Memory, pc: MigratePc)
    requires SourceFacts(w.disk.confirmed, w.pg, m, Migrating(pc)) && TargetFacts(P, w.pg.dbs, m, Migrating(pc))
    requires ServingHolds(P, w.disk.confirmed, w.pg.dbs, w.log)
    ensures m.source in w.pg.dbs && Middle(m, Migrating(pc)) && Target(m) != m.source
  {
    hide ManifestOf, AtTarget, MigratedBy, Replay;
  }

  lemma MigrateKeeps(P: Policy, w: World, m: Memory, pc: Pc, choice: Choice)
    requires Inv(P, w) && w.process == Active(m, pc) && pc.Migrating?
    ensures Inv(P, StepMigrate(P, w, m, pc.migration, choice))
  {
    hide JournalSound, BackupsSound, LeasesSound, ConfirmedProved, ServingHolds, OneUnknown, AtWork, WriterConfined,
         LeaseFacts, JournalFacts, SourceFacts, SnapshotFacts, TargetFacts, ReceiptFacts, StepMigrate, Rank, Frame;
    MigratePlaces(P, w, m, pc.migration);
    MigrateFrame(P, w, m, pc.migration, choice);
    MigrateSnapshot(P, w, m, pc.migration, choice);
    MigrateTarget(P, w, m, pc.migration, choice);
    var v := StepMigrate(P, w, m, pc.migration, choice);
    EarlyReceipt(v.disk.manifests, v.process.m, v.process.pc);
    MiddleKeeps(P, w, v, m, v.process.m, pc, v.process.pc);
  }

  // --- publication ------------------------------------------------------------------------

  lemma PublishFrame(w: World, m: Memory, pc: PublishPc)
    requires w.process == Active(m, Publishing(pc))
    ensures var v := StepPublish(w, m, pc);
            && v.process.Active? && Frame(w, v, m, v.process.m) && v.pg == w.pg
            && 34 <= Rank(v.process.pc) <= 38
            && v.disk.backups == w.disk.backups
            && v.disk.manifests == (if pc.WriteManifest? then w.disk.manifests + {ManifestOf(m)} else w.disk.manifests)
  {
    hide ManifestOf, PublishedReceipt;
  }

  lemma PublishData(P: Policy, w: World, m: Memory, pc: PublishPc)
    requires w.process == Active(m, Publishing(pc))
    requires SnapshotFacts(w.pg.dbs, m, Publishing(pc)) && TargetFacts(P, w.pg.dbs, m, Publishing(pc))
    ensures var v := StepPublish(w, m, pc);
            && v.process.Active?
            && SnapshotFacts(v.pg.dbs, v.process.m, v.process.pc) && TargetFacts(P, v.pg.dbs, v.process.m, v.process.pc)
  {
    hide ManifestOf, PublishedReceipt, AtTarget, MigratedBy;
  }

  lemma PublishReceipt(w: World, m: Memory, pc: PublishPc)
    requires w.process == Active(m, Publishing(pc)) && ReceiptFacts(w.disk.manifests, m, Publishing(pc))
    ensures var v := StepPublish(w, m, pc);
            v.process.Active? && ReceiptFacts(v.disk.manifests, v.process.m, v.process.pc)
  {
    hide ValidReceipt;
  }

  lemma PublishKeeps(P: Policy, w: World, m: Memory, pc: Pc)
    requires Inv(P, w) && w.process == Active(m, pc) && pc.Publishing?
    ensures Inv(P, StepPublish(w, m, pc.publication))
  {
    hide JournalSound, BackupsSound, LeasesSound, ConfirmedProved, OneUnknown, AtWork, WriterConfined,
         LeaseFacts, JournalFacts, SnapshotFacts, TargetFacts, ReceiptFacts, StepPublish, Rank, AtTarget, Replay,
         ManifestOf;
    PublishFrame(w, m, pc.publication);
    PublishData(P, w, m, pc.publication);
    PublishReceipt(w, m, pc.publication);
    ManifestAdded(w.disk.manifests, ManifestOf(m), w.disk.ops);
    var v := StepPublish(w, m, pc.publication);
    assert Middle(m, pc) by { assert 34 <= Rank(pc) <= 36 by { PublishRank(pc); } }
    MiddleFacts(w, v, m, v.process.m, pc, v.process.pc);
  }

  lemma PublishRank(pc: Pc)
    requires pc.Publishing?
    ensures 34 <= Rank(pc) <= 36
  {
  }
}

/** The second half of `execute`: serving, observing, confirming and releasing writes; then
    crashes, torn files, reconciliation and the start of an operation. */
module PgRelease {
  import opened Prelude
  import opened PgData
  import opened PgMachine
  import opened PgInvariant
  import opened PgProofs

  // --- observation ------------------------------------------------------------------------

  /** A verified observation carries all five probes, each answered 200 with the expected body. */
  lemma ObservedProbes(base: Receipt, manifest: Manifest, content: Content, replies: Replies, name: ProbeName)
    requires Observed(base, manifest, content, replies).status.Verified? && content.history != []
    ensures var r := Observed(base, manifest, content, replies);
            && r.probes.Keys == ALL_PROBES
            && r.probes[name] == Probe(Verified, Some(200),
                 Some(Expected(manifest, content.history[|content.history| - 1].version, name)))
            && r.reason == VERIFIED_REASON
  {
    var probes := Observed(base, manifest, content, replies).probes;
    assert name in ALL_PROBES;
    assert !probes[name].status.Failed? && !probes[name].status.Unavailable?;
  }

  /** An observation keeps the command, the lease and the previous manifest of its base receipt. */
  lemma ObservedBinding(w: World, base: Receipt, manifest: Manifest, published: bool, sound: bool, replies: Replies)
    ensures var r := ObserveIn(w, base, manifest, published, sound, replies);
            r.command == base.command && r.gen == base.gen && r.previous == base.previous && r.manifest == base.manifest
  {
  }

  /** A verified observation of a database at its target schema is a valid receipt. */
  lemma ObservedValid(w: World, base: Receipt, manifest: Manifest, published: bool, sound: bool, replies: Replies,
                      key: Key, intent: Intent)
    requires base.command == intent.command && base.gen == intent.gen && base.previous == intent.receipt.previous
    requires manifest in w.disk.manifests && manifest.key == key && manifest.gen == intent.gen
    requires manifest.candidate == intent.candidate && manifest.descriptor == intent.descriptor
    requires manifest.database in w.pg.dbs && AtTarget(w.pg.dbs[manifest.database], manifest.descriptor)
    requires ObserveIn(w, base, manifest, published, sound, replies).status.Verified? && !base.status.Verified?
    ensures var r := ObserveIn(w, base, manifest, published, sound, replies).(manifest := Some(manifest));
            ValidReceipt(w.disk.manifests, key, intent, r, !published)
  {
    var content := w.pg.dbs[manifest.database];
    assert ObserveIn(w, base, manifest, published, sound, replies) == Observed(base, manifest, content, replies);
    forall name | name in ALL_PROBES
      ensures Observed(base, manifest, content, replies).probes.Keys == ALL_PROBES
      ensures Observed(base, manifest, content, replies).probes[name]
           == Probe(Verified, Some(200), Some(Expected(manifest, manifest.descriptor.targetSchema.version, name)))
      ensures Observed(base, manifest, content, replies).reason == VERIFIED_REASON
    {
      ObservedProbes(base, manifest, content, replies, name);
    }
    assert VersionProbe in ALL_PROBES;
  }

  // --- serving ----------------------------------------------------------------------------

  lemma StartPlace(w: World, m: Memory, pc: Pc, choice: Choice)
    requires LeaseFacts(w.starts, w.disk.generation, m, pc) && JournalFacts(w.disk.ops, m, pc)
    requires AtWork(w.disk.ops, w.process)
    requires pc.Starting? && w.process == Active(m, pc)
    ensures var v := StepStart(w, m, pc.start, choice);
            && v.process.Active? && var n, next := v.process.m, v.process.pc;
            && LeaseFacts(v.starts, v.disk.generation, n, next) && JournalFacts(v.disk.ops, n, next)
            && AtWork(v.disk.ops, v.process)
  {
    hide OthersKnown, ManifestOf, ObserveIn;
  }

  lemma StartSource(w: World, m: Memory, pc: Pc, choice: Choice)
    requires SourceFacts(w.disk.confirmed, w.pg, m, pc) && SnapshotFacts(w.pg.dbs, m, pc)
    requires pc.Starting? && w.process == Active(m, pc)
    ensures var v := StepStart(w, m, pc.start, choice);
            && v.process.Active? && var n, next := v.process.m, v.process.pc;
            && SourceFacts(v.disk.confirmed, v.pg, n, next) && SnapshotFacts(v.pg.dbs, n, next)
  {
    hide ManifestOf, ObserveIn;
  }

  lemma StartTarget(P: Policy, w: World, m: Memory, pc: Pc, choice: Choice)
    requires TargetFacts(P, w.pg.dbs, m, pc)
    requires pc.Starting? && w.process == Active(m, pc)
    ensures var v := StepStart(w, m, pc.start, choice);
            && v.process.Active? && var n, next := v.process.m, v.process.pc;
            TargetFacts(P, v.pg.dbs, n, next)
  {
    hide AtTarget, MigratedBy, ManifestOf, ObserveIn;
  }

  /** What `observe` returns is bound to the intent, and valid when it says verified. */
  lemma ObservationSound(P: Policy, w: World, m: Memory, choice: Choice)
    requires TargetFacts(P, w.pg.dbs, m, Starting(Observe)) && ReceiptFacts(w.disk.manifests, m, Starting(Observe))
    requires choice.Saw?
    ensures var receipt := ObserveIn(w, m.receipt, ManifestOf(m), true, choice.sound, choice.replies);
            && ValidReceipt(w.disk.manifests, m.command.key, IntentOf(m), receipt, false)
            && (receipt.status.Verified? ==> receipt.manifest == Some(ManifestOf(m)))
  {
    hide MigratedBy, ObserveIn, AtTarget;
    var receipt := ObserveIn(w, m.receipt, ManifestOf(m), true, choice.sound, choice.replies);
    ObservedBinding(w, m.receipt, ManifestOf(m), true, choice.sound, choice.replies);
    if receipt.status.Verified? {
      ObservedValid(w, m.receipt, ManifestOf(m), true, choice.sound, choice.replies, m.command.key, IntentOf(m));
      assert receipt.(manifest := Some(ManifestOf(m))) == receipt;
    }
  }

  lemma StartReceipt(P: Policy, w: World, m: Memory, pc: Pc, choice: Choice)
    requires TargetFacts(P, w.pg.dbs, m, pc) && ReceiptFacts(w.disk.manifests, m, pc)
    requires pc.Starting? && w.process == Active(m, pc)
    ensures var v := StepStart(w, m, pc.start, choice);
            && v.process.Active? && var n, next := v.process.m, v.process.pc;
            ReceiptFacts(v.disk.manifests, n, next)
  {
    hide ObserveIn, ValidReceipt, TargetFacts, PublishedReceipt;
    if pc == Starting(Observe) && choice.Saw? {
      ObservationSound(P, w, m, choice);
    }
  }

  lemma StartKeeps(P: Policy, w: World, m: Memory, pc: Pc, choice: Choice)
    requires Inv(P, w) && w.process == Active(m, pc)
    requires pc.Starting?
    ensures Inv(P, StepStart(w, m, pc.start, choice))
  {
    hide JournalSound, BackupsSound, LeasesSound, ConfirmedProved, ServingHolds, OneUnknown, AtWork,
         LeaseFacts, JournalFacts, SourceFacts, SnapshotFacts, TargetFacts, ReceiptFacts, ObserveIn;
    StartPlace(w, m, pc, choice);
    StartSource(w, m, pc, choice);
    StartTarget(P, w, m, pc, choice);
    StartReceipt(P, w, m, pc, choice);
  }

  // --- confirming and releasing -----------------------------------------------------------

  lemma ReleasePlace(w: World, m: Memory, pc: Pc)
    requires LeaseFacts(w.starts, w.disk.generation, m, pc) && JournalFacts(w.disk.ops, m, pc)
    requires AtWork(w.disk.ops, w.process) && pc.Releasing? && w.process == Active(m, pc)
    ensures var v := StepRelease(w, m, pc.release);
            && v.process.Active? && var n, next := v.process.m, v.process.pc;
            && LeaseFacts(v.starts, v.disk.generation, n, next) && JournalFacts(v.disk.ops, n, next)
  {
    hide OthersKnown, ManifestOf, IntentOf, Scope, AppliedEvents;
  }

  lemma ReleaseSource(w: World, m: Memory, pc: Pc)
    requires SourceFacts(w.disk.confirmed, w.pg, m, pc) && pc.Releasing? && w.process == Active(m, pc)
    ensures var v := StepRelease(w, m, pc.release);
            && v.process.Active? && v.process.m == m && SourceFacts(v.disk.confirmed, v.pg, m, v.process.pc)
  {
    hide ManifestOf, OperationOf, AppliedEvents;
  }

  lemma ReleaseSnapshot(w: World, m: Memory, pc: Pc)
    requires SnapshotFacts(w.pg.dbs, m, pc) && pc.Releasing? && w.process == Active(m, pc)
    ensures var v := StepRelease(w, m, pc.release);
            && v.process.Active? && SnapshotFacts(v.pg.dbs, v.process.m, v.process.pc)
  {
    hide ManifestOf, OperationOf, AppliedEvents, Scope;
  }

  lemma ReleaseReceipt(w: World, m: Memory, pc: Pc)
    requires ReceiptFacts(w.disk.manifests, m, pc)
    requires pc.Releasing? && w.process == Active(m, pc)
    ensures var v := StepRelease(w, m, pc.release);
            && v.process.Active? && var n, next := v.process.m, v.process.pc;
            ReceiptFacts(v.disk.manifests, n, next)
  {
    hide ManifestOf, ValidReceipt, PublishedReceipt, Scope, AppliedEvents;
  }

  lemma ReleaseTarget(P: Policy, w: World, m: Memory, pc: Pc)
    requires TargetFacts(P, w.pg.dbs, m, pc)
    requires pc.Releasing? && w.process == Active(m, pc)
    ensures var v := StepRelease(w, m, pc.release);
            && v.process.Active? && var n, next := v.process.m, v.process.pc;
            TargetFacts(P, v.pg.dbs, n, next)
  {
    hide ManifestOf, AtTarget, MigratedBy, OperationOf, AppliedEvents, Scope;
  }

  /** The moment the pointer flips, the new database already is the acknowledged history. */
  lemma ConfirmServing(P: Policy, w: World, m: Memory)
    requires ServingHolds(P, w.disk.confirmed, w.pg.dbs, w.log)
    requires SourceFacts(w.disk.confirmed, w.pg, m, Releasing(SetConfirmed))
    requires SnapshotFacts(w.pg.dbs, m, Releasing(SetConfirmed))
    requires TargetFacts(P, w.pg.dbs, m, Releasing(SetConfirmed))
    ensures ServingHolds(P, Some(ManifestOf(m)), w.pg.dbs, w.log + AppliedEvents(m.applied))
  {
    hide AtTarget;
    MigratedReplay(P, w.log, m.applied);
  }

  lemma ReleaseServing(P: Policy, w: World, m: Memory, pc: Pc)
    requires ServingHolds(P, w.disk.confirmed, w.pg.dbs, w.log) && WriterConfined(w.disk.confirmed, w.pg)
    requires SourceFacts(w.disk.confirmed, w.pg, m, pc) && SnapshotFacts(w.pg.dbs, m, pc)
    requires TargetFacts(P, w.pg.dbs, m, pc)
    requires pc.Releasing? && w.process == Active(m, pc)
    ensures var v := StepRelease(w, m, pc.release);
            ServingHolds(P, v.disk.confirmed, v.pg.dbs, v.log) && WriterConfined(v.disk.confirmed, v.pg)
  {
    hide AtTarget, MigratedBy, Replay, OperationOf, AppliedEvents, Scope;
    if pc == Releasing(SetConfirmed) {
      ConfirmServing(P, w, m);
    }
  }

  /** The proof goes to disk before the pointer that relies on it. */
  lemma ProofJournal(w: World, m: Memory)
    requires JournalSound(w.disk.manifests, w.disk.ops) && LeasesSound(w.starts, w.disk.generation, w.disk.ops)
    requires ConfirmedProved(w.disk.confirmed, w.disk.ops)
    requires AtWork(w.disk.ops, w.process) && JournalFacts(w.disk.ops, m, Releasing(WriteProof))
    requires ReceiptFacts(w.disk.manifests, m, Releasing(WriteProof)) && w.process == Active(m, Releasing(WriteProof))
    ensures var v := StepRelease(w, m, WriteProof);
            && JournalSound(v.disk.manifests, v.disk.ops) && LeasesSound(v.starts, v.disk.generation, v.disk.ops)
            && ConfirmedProved(v.disk.confirmed, v.disk.ops) && OneUnknown(v.disk.ops) && AtWork(v.disk.ops, v.process)
  {
    hide ValidReceipt, LeasesSound, OneUnknown, OthersKnown, ConfirmedProved, ManifestOf, PublishedReceipt;
    var key := m.command.key;
    assert OperationSound(w.disk.manifests, key, w.disk.ops[key]);
    IntentStarted(w, key);
    OwnDirectoryUpdate(w, key, w.disk.ops[key].(proof := Whole(m.receipt)));
  }

  lemma PointerJournal(w: World, m: Memory, pc: Pc)
    requires ConfirmedProved(w.disk.confirmed, w.disk.ops) && AtWork(w.disk.ops, w.process)
    requires pc == Releasing(SetConfirmed) ==> ConfirmedProved(Some(ManifestOf(m)), w.disk.ops)
    requires pc.Releasing? && pc != Releasing(WriteProof) && w.process == Active(m, pc)
    ensures var v := StepRelease(w, m, pc.release);
            && v.disk.manifests == w.disk.manifests && v.disk.ops == w.disk.ops && v.starts == w.starts
            && v.disk.generation == w.disk.generation
            && ConfirmedProved(v.disk.confirmed, v.disk.ops) && AtWork(v.disk.ops, v.process)
  {
    hide OthersKnown, ConfirmedProved, ManifestOf, AppliedEvents, Scope;
  }

  lemma ConfirmProved(w: World, m: Memory)
    requires AtWork(w.disk.ops, w.process) && w.process == Active(m, Releasing(SetConfirmed))
    requires JournalFacts(w.disk.ops, m, Releasing(SetConfirmed))
    requires ReceiptFacts(w.disk.manifests, m, Releasing(SetConfirmed))
    ensures ConfirmedProved(Some(ManifestOf(m)), w.disk.ops)
  {
    hide ValidReceipt, OthersKnown, IntentOf, PublishedReceipt;
  }

  lemma ReleaseKeeps(P: Policy, w: World, m: Memory, pc: Pc)
    requires Inv(P, w) && w.process == Active(m, pc)
    requires pc.Releasing?
    ensures Inv(P, StepRelease(w, m, pc.release))
  {
    hide JournalSound, BackupsSound, LeasesSound, ConfirmedProved, ServingHolds, OneUnknown, AtWork,
         WriterConfined, LeaseFacts, JournalFacts, SourceFacts, SnapshotFacts, TargetFacts, ReceiptFacts, ManifestOf;
    ReleasePlace(w, m, pc);
    ReleaseSource(w, m, pc);
    ReleaseSnapshot(w, m, pc);
    ReleaseReceipt(w, m, pc);
    ReleaseTarget(P, w, m, pc);
    ReleaseServing(P, w, m, pc);
    if pc == Releasing(WriteProof) {
      ProofJournal(w, m);
    } else {
      if pc == Releasing(SetConfirmed) {
        ConfirmProved(w, m);
      }
      PointerJournal(w, m, pc);
    }
  }

  lemma ResultKeeps(P: Policy, w: World, m: Memory)
    requires Inv(P, w) && w.process == Active(m, WriteResult)
    ensures Inv(P, StepResult(w, m))
  {
    hide ValidReceipt, BackupsSound, LeasesSound, ConfirmedProved, ServingHolds, OneUnknown, OthersKnown,
         WriterConfined, LeaseFacts, SourceFacts, SnapshotFacts, TargetFacts, IntentOf;
    var key := m.command.key;
    assert OperationSound(w.disk.manifests, key, w.disk.ops[key]);
    IntentStarted(w, key);
    OwnDirectoryUpdate(w, key, w.disk.ops[key].(result := Whole(m.receipt)));
  }

  // --- torn files -------------------------------------------------------------------------

  lemma TearKeeps(P: Policy, w: World, m: Memory, pc: Pc)
    requires Inv(P, w) && w.process == Active(m, pc)
    ensures Inv(P, TearWrite(w, m, pc))
  {
    hide ValidReceipt, BackupsSound, LeasesSound, ConfirmedProved, ServingHolds, OneUnknown, OthersKnown,
         WriterConfined, LeaseFacts, SourceFacts, SnapshotFacts, TargetFacts, IntentOf;
    var v := TearWrite(w, m, pc);
    if v != w {
      var key := m.command.key;
      assert OperationSound(w.disk.manifests, key, w.disk.ops[key]);
      if pc != Leasing(WriteIntent) {
        IntentStarted(w, key);
      }
      OwnDirectoryUpdate(w, key, v.disk.ops[key]);
    }
  }

  // --- reconciliation ---------------------------------------------------------------------

  lemma ReconcileStarts(P: Policy, w: World, key: Key, command: Command, sound: bool, replies: Replies)
    requires Inv(P, w)
    ensures Inv(P, StartReconcile(w, key, command, sound, replies))
  {
    hide ValidReceipt, BackupsSound, LeasesSound, WriterConfined, ObserveIn, AtTarget, Replay;
    var v := StartReconcile(w, key, command, sound, replies);
    if v != w {
      var op, manifest := w.disk.ops[key], w.disk.current.value;
      var base := op.intent.value.receipt;
      assert OperationSound(w.disk.manifests, key, op);
      assert !Known(op) && op.reconciled.Missing?;
      ProofBinds(w, key);
      ObservedBinding(w, base, manifest, false, sound, replies);
      ObservedValid(w, base, manifest, false, sound, replies, key, op.intent.value);
    }
  }

  /** The proof ties the confirmed manifest to the intent of its own operation. */
  lemma ProofBinds(w: World, key: Key)
    requires JournalSound(w.disk.manifests, w.disk.ops) && key in w.disk.ops
    requires w.disk.ops[key].intent.Whole? && w.disk.ops[key].proof.Whole?
    requires w.disk.ops[key].proof.value.manifest.Some?
    ensures var manifest := w.disk.ops[key].proof.value.manifest.value;
            var intent := w.disk.ops[key].intent.value;
            && manifest in w.disk.manifests && manifest.key == key && manifest.gen == intent.gen
            && manifest.candidate == intent.candidate && manifest.descriptor == intent.descriptor
  {
    hide AtTarget;
    assert OperationSound(w.disk.manifests, key, w.disk.ops[key]);
  }

  lemma ReconcileKeeps(P: Policy, w: World, key: Key, receipt: Receipt, file: File<Receipt>)
    requires Inv(P, w) && w.process == Reconciling(key, receipt)
    requires file == Whole(receipt) || file.Torn?
    ensures Inv(P, WriteReconciled(w, key, file))
  {
    hide ValidReceipt, BackupsSound, LeasesSound, ConfirmedProved, ServingHolds, OneUnknown, OthersKnown,
         WriterConfined;
    assert OperationSound(w.disk.manifests, key, w.disk.ops[key]);
    IntentStarted(w, key);
    OwnDirectoryUpdate(w, key, w.disk.ops[key].(reconciled := file));
  }

  // --- starting ---------------------------------------------------------------------------

  lemma BeginKeeps(P: Policy, w: World, command: Command)
    requires Inv(P, w) && CanBegin(w, command)
    ensures Inv(P, At(w, FirstMemory(w, command), Leasing(StageGeneration)))
  {
    hide JournalSound, LeasesSound, ConfirmedProved, ServingHolds, OneUnknown, WriterConfined, Known,
         HasSchema, UpTo;
  }

  // --- every act --------------------------------------------------------------------------

  lemma AdvanceKeeps(P: Policy, w: World, m: Memory, pc: Pc, choice: Choice)
    requires Inv(P, w) && w.process == Active(m, pc)
    ensures Inv(P, Advance(P, w, m, pc, choice))
  {
    hide Inv, StepLease, StepCheckpoint, StepDrain, StepBackup, StepCopy, StepMigrate, StepPublish, StepStart,
         StepRelease, StepResult;
    match pc
    case Leasing(_) => LeaseKeeps(P, w, m, pc);
    case Checkpoint(phase) => CheckpointKeeps(P, w, m, phase);
    case Draining(_) => DrainKeeps(P, w, m, pc, choice);
    case BackingUp(_) => BackupKeeps(P, w, m, pc, choice);
    case Copying(_) => CopyKeeps(P, w, m, pc, choice);
    case Migrating(_) => MigrateKeeps(P, w, m, pc, choice);
    case Publishing(_) => PublishKeeps(P, w, m, pc);
    case Starting(_) => StartKeeps(P, w, m, pc, choice);
    case Releasing(_) => ReleaseKeeps(P, w, m, pc);
    case WriteResult => ResultKeeps(P, w, m);
  }

  lemma StopKeeps(P: Policy, w: World)
    requires Inv(P, w)
    ensures Inv(P, w.(process := Idle))
  {
  }

  /** Every act keeps the invariant, in whatever state it falls. */
  lemma PerformKeeps(P: Policy, w: World, act: Act)
    requires Inv(P, w)
    ensures Inv(P, Perform(P, w, act))
  {
    hide Inv, Advance, TearWrite, WriteReconciled, StartReconcile, ClientStep, CanBegin;
    match act
    case Begin(command) =>
      if CanBegin(w, command) {
        BeginKeeps(P, w, command);
      }
    case Go(choice) =>
      if w.process.Active? {
        AdvanceKeeps(P, w, w.process.m, w.process.pc, choice);
      } else if w.process.Reconciling? {
        ReconcileKeeps(P, w, w.process.key, w.process.receipt, Whole(w.process.receipt));
      }
    case Tear =>
      if w.process.Active? {
        TearKeeps(P, w, w.process.m, w.process.pc);
      } else if w.process.Reconciling? {
        ReconcileKeeps(P, w, w.process.key, w.process.receipt, Torn);
      }
    case Stop => StopKeeps(P, w);
    case Reconcile(key, command, sound, replies) => ReconcileStarts(P, w, key, command, sound, replies);
    case Client(c) => ClientKeeps(P, w, c);
  }
}

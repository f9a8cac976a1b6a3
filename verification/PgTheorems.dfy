/** What the delivery owner promises, over every run of operations, client writes and crashes. */
module PgTheorems {
  import opened Prelude
  import opened PgData
  import opened PgMachine
  import opened PgInvariant
  import opened PgProofs
  import opened PgRelease

  lemma {:induction false} Always(P: Policy, w: World, acts: seq<Act>)
    requires Enrolled(P, w)
    ensures Inv(P, Run(P, w, acts))
    decreases |acts|
  {
    hide Inv, Perform;
    if acts == [] {
      EnrolledInv(P, w);
    } else {
      Always(P, w, acts[..|acts| - 1]);
      PerformKeeps(P, Run(P, w, acts[..|acts| - 1]), acts[|acts| - 1]);
    }
  }

  // --- no acknowledged write is lost ------------------------------------------------------

  /** A client could commit to `db` now, or after logging in. */
  predicate WriterReaches(w: World, db: Db) {
    db in w.pg.writerSessions || (w.pg.writerLogin && db in w.pg.writerConnect)
  }

  lemma AdvanceGrowsLog(P: Policy, w: World, m: Memory, pc: Pc, choice: Choice)
    requires w.process == Active(m, pc)
    ensures w.log <= Advance(P, w, m, pc, choice).log
  {
    hide MigratedBy, Pending, AtTarget, ObserveIn, ManifestOf, Quiescent, Scope, AppliedEvents;
  }

  lemma LogGrows(P: Policy, w: World, act: Act)
    ensures w.log <= Perform(P, w, act).log
  {
    hide Advance, CanBegin, CanReconcile, ObserveIn;
    if act.Go? && w.process.Active? {
      AdvanceGrowsLog(P, w, w.process.m, w.process.pc, act.choice);
    }
  }

  lemma {:induction false} LogOnlyGrows(P: Policy, w: World, acts: seq<Act>, k: nat)
    requires k <= |acts|
    ensures Run(P, w, acts[..k]).log <= Run(P, w, acts).log
    decreases |acts|
  {
    hide Perform;
    if k == |acts| {
      assert acts[..k] == acts;
    } else {
      var prefix := acts[..|acts| - 1];
      assert prefix[..k] == acts[..k];
      LogOnlyGrows(P, w, prefix, k);
      LogGrows(P, Run(P, w, prefix), acts[|acts| - 1]);
    }
  }

  /** At every point of every run, any database a writer can reach holds every write ever
      acknowledged up to that point, in order, with the confirmed migrations applied. */
  lemma NoAcknowledgedWriteLost(P: Policy, w: World, acts: seq<Act>, k: nat, db: Db)
    requires Enrolled(P, w) && k <= |acts|
    ensures Run(P, w, acts[..k]).log <= Run(P, w, acts).log
    ensures var v := Run(P, w, acts);
            WriterReaches(v, db) ==> db in v.pg.dbs && v.pg.dbs[db] == Replay(P, v.log)
  {
    hide Run, Replay, ProcessFacts, JournalSound, LeasesSound, OneUnknown, AtWork, BackupsSound, ConfirmedProved,
      AtTarget;
    Always(P, w, acts);
    LogOnlyGrows(P, w, acts, k);
  }

  /** A committed write is acknowledged only on the serving database, and enters the history there. */
  lemma CommitIsRemembered(P: Policy, w: World, db: Db, write: Write)
    requires Inv(P, w) && db in w.pg.writerSessions && db in w.pg.dbs
    ensures var v := Perform(P, w, Client(CommitWrite(db, write)));
            && v.log == w.log + [Wrote(write)]
            && db == Serving(v) && v.pg.dbs == w.pg.dbs[db := Replay(P, v.log)]
  {
    hide ProcessFacts, JournalSound, LeasesSound, OneUnknown, AtWork, BackupsSound, ConfirmedProved, AtTarget, Replay;
    WrittenReplay(P, w.log, write);
  }

  /** The pointer flip hands the service from the drained source to a database with the source's
      content carried through the descriptor's pending migrations (deploy) or unchanged (restore). */
  lemma ConfirmationCarries(P: Policy, w: World, acts: seq<Act>)
    requires Enrolled(P, w)
    requires var u := Run(P, w, acts); u.process.Active? && u.process.pc == Releasing(SetConfirmed)
    ensures var u := Run(P, w, acts);
            var v := Perform(P, u, Go(Proceed));
            var m := u.process.m;
            && Serving(u) in u.pg.dbs && Serving(v) in v.pg.dbs && Serving(v) != Serving(u)
            && v.disk.confirmed == Some(ManifestOf(m))
            && !WriterReaches(u, Serving(u)) && !WriterReaches(v, Serving(v))
            && v.pg.dbs[Serving(v)] ==
                 (if m.command.action.Restore? then u.pg.dbs[Serving(u)]
                  else MigratedBy(P, u.pg.dbs[Serving(u)],
                    Pending(m.descriptor.migrations, u.pg.dbs[Serving(u)].history)))
  {
    hide Run, Replay, JournalSound, LeasesSound, OneUnknown, AtWork, BackupsSound, ConfirmedProved, AtTarget,
         LeaseFacts, JournalFacts, ReceiptFacts, Pending;
    Always(P, w, acts);
  }

  // --- the writer and the proof -----------------------------------------------------------

  /** In every reachable state, every crash point included, the writer reaches at most the
      confirmed manifest's database (the initial one before any confirmation), and a confirmed
      manifest already has its verified-checks proof on disk. */
  lemma WriterConfinedToConfirmed(P: Policy, w: World, acts: seq<Act>, db: Db)
    requires Enrolled(P, w)
    ensures var v := Run(P, w, acts);
            && (WriterReaches(v, db) ==>
                  db == (if v.disk.confirmed.None? then InitialDb else v.disk.confirmed.value.database))
            && (v.disk.confirmed.Some? ==>
                  && v.disk.confirmed.value.key in v.disk.ops
                  && var op := v.disk.ops[v.disk.confirmed.value.key];
                     op.proof.Whole? && op.proof.value.status.Verified? && op.proof.value.manifest == v.disk.confirmed)
  {
    hide Run, Replay, ProcessFacts, JournalSound, LeasesSound, OneUnknown, AtWork, BackupsSound, ServingHolds;
    Always(P, w, acts);
  }

  // --- readback ---------------------------------------------------------------------------

  /** Readback accepts a journal with an intent exactly when it is asked with the journalled
      command and no receipt file was torn by a crash; it then reports a verified receipt only
      with a proof for the same manifest. */
  lemma ReadbackAcceptsOwnJournal(P: Policy, w: World, acts: seq<Act>, key: Key, command: Command)
    requires Enrolled(P, w)
    requires var v := Run(P, w, acts); key in v.disk.ops && v.disk.ops[key].intent.Whole?
    ensures var v := Run(P, w, acts);
            var op := v.disk.ops[key];
            var read := Readback(v, key, command);
            && (read.Ok? <==> command == op.intent.value.command
                              && !op.result.Torn? && !op.reconciled.Torn? && !op.proof.Torn?)
            && (read.Ok? ==>
                  && (read.value.receipt.status.Verified? ==> ProofFor(op, read.value.receipt.manifest))
                  && (read.value.reconciled.Some? ==> ProofFor(op, read.value.reconciled.value.manifest))
                  && (read.value.reconciliationNeeded <==> !Known(op)))
  {
    hide Run, Replay, ProcessFacts, LeasesSound, OneUnknown, AtWork, BackupsSound, ServingHolds, AtTarget,
         ConfirmedProved;
    Always(P, w, acts);
    var v := Run(P, w, acts);
    assert OperationSound(v.disk.manifests, key, v.disk.ops[key]);
  }

  // --- leases and outcomes ----------------------------------------------------------------

  /** Leases strictly increase, no key starts twice, at most one operation lacks a known outcome. */
  lemma LeasesAndOutcomes(P: Policy, w: World, acts: seq<Act>, i: nat, j: nat, a: Key, b: Key)
    requires Enrolled(P, w)
    ensures var v := Run(P, w, acts);
            && (i < j < |v.starts| ==> v.starts[i].gen < v.starts[j].gen && v.starts[i].key != v.starts[j].key)
            && (a in v.disk.ops && b in v.disk.ops && !Known(v.disk.ops[a]) && !Known(v.disk.ops[b]) ==> a == b)
            && (a in v.disk.ops && v.disk.ops[a].intent.Whole? ==> Start(a, v.disk.ops[a].intent.value.gen) in v.starts)
  {
    hide Run, ProcessFacts, JournalSound, AtWork, BackupsSound, ServingHolds, ConfirmedProved, Known;
    Always(P, w, acts);
  }

  /** Nothing in the journal and no lease changes. */
  predicate SameJournal(w: World, v: World) {
    v.disk.ops == w.disk.ops && v.starts == w.starts
  }

  lemma DrainingJournal(w: World, m: Memory, drain: DrainPc, choice: Choice)
    ensures SameJournal(w, StepDrain(w, m, drain, choice))
  {
    hide Quiescent;
  }

  lemma BackingUpJournal(w: World, m: Memory, backup: BackupPc, choice: Choice)
    ensures SameJournal(w, StepBackup(w, m, backup, choice))
  {
    hide Quiescent;
  }

  lemma CopyingJournal(w: World, m: Memory, copy: CopyPc, choice: Choice)
    ensures SameJournal(w, StepCopy(w, m, copy, choice))
  {
  }

  lemma MigratingJournal(P: Policy, w: World, m: Memory, migration: MigratePc, choice: Choice)
    ensures SameJournal(w, StepMigrate(P, w, m, migration, choice))
  {
    hide MigratedBy, Pending, AtTarget;
  }

  lemma PublishingJournal(w: World, m: Memory, publication: PublishPc)
    ensures SameJournal(w, StepPublish(w, m, publication))
  {
    hide ManifestOf, PublishedReceipt;
  }

  lemma StartingJournal(w: World, m: Memory, start: StartPc, choice: Choice)
    ensures SameJournal(w, StepStart(w, m, start, choice))
  {
    hide ManifestOf, ObserveIn, Scope;
  }

  /** The operation at work may write in its own directory, and only making it records a start. */
  ghost predicate OwnDirectory(w: World, v: World, m: Memory, pc: Pc, k: Key) {
    && (k in w.disk.ops && k != m.command.key ==> k in v.disk.ops && v.disk.ops[k] == w.disk.ops[k])
    && (k in v.disk.ops && k !in w.disk.ops ==>
          && k == m.command.key && Rank(pc) >= 2
          && (pc == Leasing(MakeDir) ==> v.starts == w.starts + [Start(k, m.gen)]))
  }

  lemma LeasingJournal(w: World, m: Memory, lease: LeasePc, k: Key)
    ensures OwnDirectory(w, StepLease(w, m, lease), m, Leasing(lease), k)
  {
    hide IntentOf;
  }

  lemma CheckpointJournal(w: World, m: Memory, phase: Phase, k: Key)
    ensures OwnDirectory(w, StepCheckpoint(w, m, phase), m, Checkpoint(phase), k)
  {
    hide AfterPhase;
  }

  lemma ReleasingJournal(w: World, m: Memory, release: ReleasePc, k: Key)
    ensures OwnDirectory(w, StepRelease(w, m, release), m, Releasing(release), k)
  {
    hide ManifestOf, Scope, AppliedEvents;
  }

  /** A step writes only in the directory of the operation at work. */
  lemma AdvanceOwnDirectory(P: Policy, w: World, m: Memory, pc: Pc, choice: Choice, k: Key)
    requires w.process == Active(m, pc)
    ensures OwnDirectory(w, Advance(P, w, m, pc, choice), m, pc, k)
  {
    hide StepLease, StepCheckpoint, StepDrain, StepBackup, StepCopy, StepMigrate, StepPublish, StepStart, StepRelease;
    match pc {
      case Leasing(lease) => LeasingJournal(w, m, lease, k);
      case Checkpoint(phase) => CheckpointJournal(w, m, phase, k);
      case Draining(drain) => DrainingJournal(w, m, drain, choice);
      case BackingUp(backup) => BackingUpJournal(w, m, backup, choice);
      case Copying(copy) => CopyingJournal(w, m, copy, choice);
      case Migrating(migration) => MigratingJournal(P, w, m, migration, choice);
      case Publishing(publication) => PublishingJournal(w, m, publication);
      case Starting(start) => StartingJournal(w, m, start, choice);
      case Releasing(release) => ReleasingJournal(w, m, release, k);
      case WriteResult =>
    }
  }

  ghost predicate Settled(u: World, v: World, k: Key) {
    && (k in v.disk.ops && k !in u.disk.ops ==>
          AllKnown(u.disk.ops) && v.starts == u.starts + [Start(k, u.disk.generation)])
    && (k in u.disk.ops && Known(u.disk.ops[k]) ==> k in v.disk.ops && v.disk.ops[k] == u.disk.ops[k])
  }

  lemma AdvanceSettles(P: Policy, u: World, m: Memory, pc: Pc, choice: Choice, k: Key)
    requires u.process == Active(m, pc) && AtWork(u.disk.ops, u.process)
    requires LeaseFacts(u.starts, u.disk.generation, m, pc) && JournalFacts(u.disk.ops, m, pc)
    ensures Settled(u, Advance(P, u, m, pc, choice), k)
  {
    AdvanceOwnDirectory(P, u, m, pc, choice, k);
    hide Advance;
    WorkingIsUnknown(u.disk.ops, m, pc);
    hide JournalFacts, Known;
  }

  lemma WorkingIsUnknown(ops: map<Key, Operation>, m: Memory, pc: Pc)
    requires JournalFacts(ops, m, pc)
    ensures Rank(pc) >= 3 && m.command.key in ops ==> !Known(ops[m.command.key])
  {
  }

  lemma TearSettles(u: World, m: Memory, pc: Pc, k: Key)
    requires u.process == Active(m, pc) && AtWork(u.disk.ops, u.process) && JournalFacts(u.disk.ops, m, pc)
    ensures Settled(u, TearWrite(u, m, pc), k)
  {
    WorkingIsUnknown(u.disk.ops, m, pc);
    hide JournalFacts, Known;
  }

  lemma ReconcileSettles(u: World, key: Key, receipt: Receipt, file: File<Receipt>, k: Key)
    requires ReconcileFacts(u.disk, key, receipt)
    ensures Settled(u, WriteReconciled(u, key, file), k)
  {
    hide ValidReceipt, ProofFor, Known;
  }

  lemma InvParts(P: Policy, u: World)
    requires Inv(P, u)
    ensures AtWork(u.disk.ops, u.process)
    ensures u.process.Active? ==>
              LeaseFacts(u.starts, u.disk.generation, u.process.m, u.process.pc)
                && JournalFacts(u.disk.ops, u.process.m, u.process.pc)
    ensures u.process.Reconciling? ==> ReconcileFacts(u.disk, u.process.key, u.process.receipt)
  {
    hide JournalSound, LeasesSound, BackupsSound, ServingHolds, ConfirmedProved, WriterConfined, OneUnknown,
         SourceFacts, SnapshotFacts, TargetFacts, ReceiptFacts, LeaseFacts, JournalFacts, ReconcileFacts, AtWork;
  }

  lemma ClientJournal(P: Policy, u: World, act: ClientAct)
    ensures SameJournal(u, ClientStep(P, u, act))
  {
  }

  /** No operation starts while another lacks a known outcome, and a known outcome is final. */
  lemma StartsOnlyWhenSettled(P: Policy, w: World, acts: seq<Act>, act: Act, k: Key)
    requires Enrolled(P, w)
    ensures Settled(Run(P, w, acts), Perform(P, Run(P, w, acts), act), k)
  {
    Always(P, w, acts);
    var u := Run(P, w, acts);
    InvParts(P, u);
    hide Run, Inv, LeaseFacts, JournalFacts, ReconcileFacts, AtWork, Advance, TearWrite, WriteReconciled, ClientStep,
         CanBegin, FirstMemory, CanReconcile, ObserveIn, Known, AllKnown;
    match act {
      case Go(choice) =>
        if u.process.Active? {
          AdvanceSettles(P, u, u.process.m, u.process.pc, choice, k);
        } else if u.process.Reconciling? {
          ReconcileSettles(u, u.process.key, u.process.receipt, Whole(u.process.receipt), k);
        }
      case Tear =>
        if u.process.Active? {
          TearSettles(u, u.process.m, u.process.pc, k);
        } else if u.process.Reconciling? {
          ReconcileSettles(u, u.process.key, u.process.receipt, Torn, k);
        }
      case Client(c) => ClientJournal(P, u, c);
      case _ =>
    }
  }
}

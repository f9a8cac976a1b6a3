/** The delivery owner as its methods run it: each one changes the disk and the server step by step,
    and what it does is a run of the machine, also when one of its checks fails halfway. */
module PgOwner {
  import opened Prelude
  import opened PgData
  import opened PgMachine
  import opened PgInvariant
  import opened PgRelease

  // --- undisturbed runs -------------------------------------------------------------------------

  /** `v` comes from `u` by effects of the owner alone. */
  ghost predicate Reaches(P: Policy, u: World, v: World) {
    exists acts :: OwnerOnly(acts) && v == Run(P, u, acts)
  }

  predicate OwnerOnly(acts: seq<Act>) {
    forall i :: 0 <= i < |acts| ==> acts[i].Go?
  }

  lemma ReachesSelf(P: Policy, u: World)
    ensures Reaches(P, u, u)
  {
    assert u == Run(P, u, []);
  }

  /** One more effect. */
  lemma Then(P: Policy, start: World, u: World, m: Memory, pc: Pc, choice: Choice)
    requires Reaches(P, start, u) && u.process == Active(m, pc)
    ensures Reaches(P, start, Advance(P, u, m, pc, choice))
  {
    hide Advance;
    var acts :| OwnerOnly(acts) && u == Run(P, start, acts);
    var more := acts + [Go(choice)];
    assert more[..|acts|] == acts;
    assert Run(P, start, more) == Perform(P, u, Go(choice));
    assert OwnerOnly(more);
  }

  lemma {:induction false} RunConcat(P: Policy, u: World, a: seq<Act>, b: seq<Act>)
    ensures Run(P, u, a + b) == Run(P, Run(P, u, a), b)
    decreases |b|
  {
    hide Perform;
    if b == [] {
      assert a + b == a;
    } else {
      RunConcat(P, u, a, b[..|b| - 1]);
      assert (a + b)[..|a + b| - 1] == a + b[..|b| - 1];
    }
  }

  lemma ReachesOn(P: Policy, u: World, v: World, x: World)
    requires Reaches(P, u, v) && Reaches(P, v, x)
    ensures Reaches(P, u, x)
  {
    hide Run;
    var a :| OwnerOnly(a) && v == Run(P, u, a);
    var b :| OwnerOnly(b) && x == Run(P, v, b);
    RunConcat(P, u, a, b);
    assert OwnerOnly(a + b);
  }

  lemma {:induction false} RunKeeps(P: Policy, u: World, acts: seq<Act>)
    requires Inv(P, u)
    ensures Inv(P, Run(P, u, acts))
    decreases |acts|
  {
    hide Inv, Perform;
    if acts != [] {
      RunKeeps(P, u, acts[..|acts| - 1]);
      PerformKeeps(P, Run(P, u, acts[..|acts| - 1]), acts[|acts| - 1]);
    }
  }

  lemma ReachesKeeps(P: Policy, u: World, v: World)
    requires Inv(P, u) && Reaches(P, u, v)
    ensures Inv(P, v)
  {
    hide Inv, Run;
    var acts :| OwnerOnly(acts) && v == Run(P, u, acts);
    RunKeeps(P, u, acts);
  }

  // --- what each stage needs ------------------------------------------------------------------------

  /** The migration runner's answer leads on: a success that arrives at the target schema, or a
      failure that left the copy untouched. */
  predicate MigrationAnswers(P: Policy, content: Content, d: Descriptor, snapshot: Content, applied: nat,
                             succeeded: bool) {
    var pending := Pending(d.migrations, content.history);
    if succeeded then AtTarget(MigratedBy(P, content, pending), d)
    else applied <= |pending| && MigratedBy(P, content, pending[..applied]) == snapshot
  }

  predicate Deliverable(disk: Disk, pg: Pg, m: Memory) {
    !disk.currentStaged && !disk.confirmedStaged && (m.failed || ReadyToServe(pg, Target(m)))
  }

  /** The application serves the published manifest and says so. */
  predicate TrueReport(pg: Pg, m: Memory, outside: Outside) {
    && Target(m) in pg.dbs && pg.dbs[Target(m)] == m.after && HasSchema(m.after, m.descriptor.targetSchema)
    && outside.sound && outside.replies == Truthful(ManifestOf(m), m.descriptor.targetSchema.version)
  }

  /** What a verified backup adds to memory. */
  function Backed(m: Memory, content: Content, dump: Content): Memory {
    m.(before := content, snap := Snapshot(m.source, content, m.previous, dump, m.gen))
  }

  predicate Drainable(pg: Pg, source: Db) {
    pg.writerConnect + pg.readerConnect <= {source} + pg.dbs.Keys
  }

  /** The source can be drained and, for a deploy, backed up and restored in the drill. */
  predicate Securable(disk: Disk, pg: Pg, m: Memory, outside: Outside) {
    && Drainable(pg, m.source)
    && (m.command.action.Deploy? ==>
          && m.source in pg.dbs && pg.dbs[m.source].history != [] && m.folder !in disk.backups
          && DrillDb(m) !in pg.dbs && outside.drill == pg.dbs[m.source])
  }

  predicate Buildable(P: Policy, pg: Pg, m: Memory, outside: Outside) {
    && Target(m) !in pg.dbs && pg.writerSessions == {} && outside.restored == m.snap.fingerprint
    && (m.command.action.Deploy? ==>
          MigrationAnswers(P, m.snap.fingerprint, m.descriptor, m.snap.fingerprint, outside.applied, outside.succeeded))
  }

  /** Memory when the target database is ready to be published. */
  function BuiltMemory(P: Policy, m: Memory, outside: Outside): Memory {
    var copied := m.(after := m.snap.fingerprint, applied := []);
    if m.command.action.Restore? then copied
    else if outside.succeeded then
      var pending := Pending(m.descriptor.migrations, m.snap.fingerprint.history);
      copied.(applied := pending, after := MigratedBy(P, m.snap.fingerprint, pending))
    else copied.(failed := true)
  }

  lemma BuiltFromCopy(P: Policy, m: Memory, outside: Outside)
    ensures var copied := m.(after := m.snap.fingerprint, applied := []);
            && BuiltMemory(P, copied, outside) == BuiltMemory(P, m, outside)
            && (m.command.action.Restore? ==> BuiltMemory(P, m, outside) == copied)
  {
  }

  /** The answers of an application that serves exactly this manifest. */
  function Truthful(manifest: Manifest, version: nat): Replies {
    Replies(Answered(200, Expected(manifest, version, VersionProbe)),
            Answered(200, Expected(manifest, version, DatabaseProbe)),
            Answered(200, Expected(manifest, version, HealthProbe)),
            Answered(200, Expected(manifest, version, AcceptanceProbe)),
            Answered(200, Expected(manifest, version, EndVersionProbe)))
  }

  lemma ProbeVerifiedExactly(reply: Reply, expected: Body)
    ensures Probed(reply, expected).status.Verified? <==> reply == Answered(200, expected)
  {
  }

  function VersionOf(content: Content): nat {
    if content.history == [] then 0 else content.history[|content.history| - 1].version
  }

  lemma AllProbesVerified(base: Receipt, manifest: Manifest, content: Content, replies: Replies)
    ensures var receipt := Observed(base, manifest, content, replies);
            && receipt.probes.Keys == ALL_PROBES
            && (receipt.status.Verified? <==> forall name :: name in ALL_PROBES ==>
                  receipt.probes[name].status.Verified?)
            && forall name :: name in ALL_PROBES ==>
                 receipt.probes[name] == Probed(ReplyTo(replies, name), Expected(manifest, VersionOf(content), name))
  {
    hide ReplyTo, Expected;
  }

  lemma TruthfulExactly(replies: Replies, manifest: Manifest, version: nat)
    ensures replies == Truthful(manifest, version) <==>
              forall name :: name in ALL_PROBES ==>
                  ReplyTo(replies, name) == Answered(200, Expected(manifest, version, name))
  {
    hide Expected;
    if forall name :: name in ALL_PROBES ==>
         ReplyTo(replies, name) == Answered(200, Expected(manifest, version, name)) {
      assert VersionProbe in ALL_PROBES && DatabaseProbe in ALL_PROBES && HealthProbe in ALL_PROBES;
      assert AcceptanceProbe in ALL_PROBES && EndVersionProbe in ALL_PROBES;
      assert ReplyTo(replies, VersionProbe) == replies.version && ReplyTo(replies, DatabaseProbe) == replies.database;
      assert ReplyTo(replies, HealthProbe) == replies.health && ReplyTo(replies, AcceptanceProbe) == replies.acceptance;
      assert ReplyTo(replies, EndVersionProbe) == replies.endVersion;
    }
  }

  /** The checks are verified exactly when all five probes are answered with what this manifest serves. */
  lemma VerifiedExactly(base: Receipt, manifest: Manifest, content: Content, replies: Replies)
    ensures Observed(base, manifest, content, replies).status.Verified? <==>
              replies == Truthful(manifest, VersionOf(content))
  {
    hide Observed, Truthful, ReplyTo, Expected, Probed;
    AllProbesVerified(base, manifest, content, replies);
    TruthfulExactly(replies, manifest, VersionOf(content));
    forall name | name in ALL_PROBES
      ensures Observed(base, manifest, content, replies).probes[name].status.Verified?
         <==> ReplyTo(replies, name) == Answered(200, Expected(manifest, VersionOf(content), name))
    {
      ProbeVerifiedExactly(ReplyTo(replies, name), Expected(manifest, VersionOf(content), name));
    }
  }

  lemma TruthIsVerified(w: World, base: Receipt, manifest: Manifest, replies: Replies)
    requires w.app == Some(manifest) && manifest.database in w.pg.dbs
    requires w.pg.dbs[manifest.database] == manifest.fingerprint
    requires HasSchema(manifest.fingerprint, manifest.descriptor.targetSchema)
    requires replies == Truthful(manifest, manifest.descriptor.targetSchema.version)
    ensures ObserveIn(w, base, manifest, true, true, replies).status.Verified?
  {
    var version := manifest.descriptor.targetSchema.version;
    forall name | name in ALL_PROBES
      ensures Probed(ReplyTo(replies, name), Expected(manifest, version, name)).status.Verified?
    {
    }
  }

  /** Nobody but a reader of the target is, or may get, connected. */
  predicate ReadyToServe(pg: Pg, target: Db) {
    pg.writerSessions == {} && pg.writerConnect == {} && pg.readerConnect <= {target} && pg.readerSessions <= {target}
  }

  lemma EmptiedExactly(writers: set<Db>, readers: set<Db>, closed: set<Db>, leftWriters: set<Db>, leftReaders: set<Db>)
    requires leftWriters == writers - closed && leftReaders == readers - closed
    ensures leftWriters == {} && leftReaders == {} <==> writers + readers <= closed
  {
    if leftWriters == {} && leftReaders == {} {
      forall db | db in writers + readers
        ensures db in closed
      {
        assert db !in leftWriters && db !in leftReaders;
      }
    }
  }

  lemma OneMoreRevoked(connect: set<Db>, dbs: set<Db>, todo: set<Db>, db: Db)
    requires db in todo && todo <= dbs
    ensures connect - (dbs - todo) - {db} == connect - (dbs - (todo - {db}))
  {
  }

  // --- the owner --------------------------------------------------------------------------------

  class Owner {
    var disk: Disk
    var pg: Pg
    var app: Option<Manifest>
    ghost var log: seq<Event>
    ghost var starts: seq<Start>

    constructor (P: Policy, server: Pg)
      requires server.dbs == map[InitialDb := P.initial] && server.writerConnect <= {InitialDb}
      requires server.writerSessions <= {InitialDb}
      ensures Enrolled(P, At(Idle))
    {
      disk := Disk(map[], {}, map[], 0, None, None, false, false, false);
      pg := server;
      app := None;
      log, starts := [], [];
    }

    /** The world with control at `process`. */
    ghost function At(process: Process): World
      reads this
    {
      World(disk, pg, app, process, log, starts)
    }

    /** Leases the next generation and opens the operation directory with its intent. */
    method Lease(P: Policy, m: Memory) returns (ok: bool, ghost at: Process)
      modifies this
      ensures Reaches(P, old(At(Active(m, Leasing(StageGeneration)))), At(at))
      ensures pg == old(pg) && app == old(app) && (ok <==> !old(disk.generationStaged))
      ensures ok ==>
                at == Active(m, Checkpoint(DrainIntent))
                  && disk.(ops := old(disk.ops)) == old(disk).(generation := m.gen)
      ensures ok ==> m.command.key in disk.ops && disk.ops[m.command.key].intent == Whole(IntentOf(m))
    {
      hide Reaches, IntentOf;
      ghost var start := At(Active(m, Leasing(StageGeneration)));
      ReachesSelf(P, start);
      if disk.generationStaged {
        return false, start.process;
      }
      Then(P, start, start, m, Leasing(StageGeneration), Proceed);
      disk := disk.(generationStaged := true);
      Then(P, start, At(Active(m, Leasing(SetGeneration))), m, Leasing(SetGeneration), Proceed);
      disk := disk.(generation := m.gen, generationStaged := false);
      Then(P, start, At(Active(m, Leasing(MakeDir))), m, Leasing(MakeDir), Proceed);
      disk := disk.(ops := disk.ops[m.command.key := EMPTY_OPERATION]);
      starts := starts + [Start(m.command.key, m.gen)];
      Then(P, start, At(Active(m, Leasing(WriteIntent))), m, Leasing(WriteIntent), Proceed);
      disk := disk.(ops := disk.ops[m.command.key := disk.ops[m.command.key].(intent := Whole(IntentOf(m)))]);
      return true, Active(m, Checkpoint(DrainIntent));
    }

    /** Notes a phase in the operation directory. */
    method Mark(P: Policy, m: Memory, phase: Phase, ghost start: World)
      requires m.command.key in disk.ops && Reaches(P, start, At(Active(m, Checkpoint(phase))))
      modifies this`disk
      ensures Reaches(P, start, At(Active(m, AfterPhase(m, phase))))
      ensures m.command.key in disk.ops && phase in disk.ops[m.command.key].phases
      ensures disk.ops[m.command.key].proof == old(disk.ops)[m.command.key].proof
      ensures disk.(ops := old(disk.ops)) == old(disk)
    {
      hide Reaches, AfterPhase;
      Then(P, start, At(Active(m, Checkpoint(phase))), m, Checkpoint(phase), Proceed);
      var op := disk.ops[m.command.key];
      op := op.(phases := op.phases + {phase});
      if phase.ReleaseIntent? {
        op := op.(release := Whole(ReleaseNote(Target(m), m.gen)));
      }
      disk := disk.(ops := disk.ops[m.command.key := op]);
    }

    /** Creates a database under a new name and takes back the privileges PUBLIC got with it. */
    method MakeDatabase(P: Policy, m: Memory, drill: bool, ghost start: World) returns (ok: bool, ghost at: Process)
      requires Reaches(P, start, At(Active(m, if drill then BackingUp(CreateDrill) else Copying(CreateTarget))))
      modifies this`pg
      ensures Reaches(P, start, At(at)) && pg.writerSessions == old(pg.writerSessions)
      ensures ok ==> at == Active(m, Checkpoint(if drill then DrillIntent else CopyIntent))
      ensures var name := if drill then DrillDb(m) else Target(m);
              && (ok <==> name !in old(pg.dbs))
              && (ok ==>
                    pg == old(pg).(dbs := old(pg.dbs)[name := Content(0, [])],
                      writerConnect := old(pg.writerConnect) - {name},
                                        readerConnect := old(pg.readerConnect) - {name}))
    {
      hide Reaches;
      var name := if drill then DrillDb(m) else Target(m);
      if name in pg.dbs {
        return false, Active(m, if drill then BackingUp(CreateDrill) else Copying(CreateTarget));
      }
      if drill {
        Then(P, start, At(Active(m, BackingUp(CreateDrill))), m, BackingUp(CreateDrill), Proceed);
      } else {
        Then(P, start, At(Active(m, Copying(CreateTarget))), m, Copying(CreateTarget), Proceed);
      }
      pg :=
        pg.(dbs := pg.dbs[name := Content(0, [])], writerConnect := pg.writerConnect + {name},
          readerConnect := pg.readerConnect + {name});
      if drill {
        Then(P, start, At(Active(m, BackingUp(SealDrill))), m, BackingUp(SealDrill), Proceed);
      } else {
        Then(P, start, At(Active(m, Copying(SealTarget))), m, Copying(SealTarget), Proceed);
      }
      pg := pg.(writerConnect := pg.writerConnect - {name}, readerConnect := pg.readerConnect - {name});
      return true, Active(m, Checkpoint(if drill then DrillIntent else CopyIntent));
    }

    /** Revokes CONNECT on every database, one after another. */
    method RevokeAll(P: Policy, m: Memory, ghost start: World)
      requires Reaches(P, start, At(Active(m, Draining(RevokeEach(pg.dbs.Keys)))))
      modifies this`pg
      ensures Reaches(P, start, At(Active(m, Draining(Terminate))))
      ensures pg == old(pg).(writerConnect := old(pg.writerConnect) - old(pg.dbs).Keys,
              readerConnect := old(pg.readerConnect) - old(pg.dbs).Keys)
    {
      hide Reaches, Quiescent, StepLease, StepCheckpoint, StepBackup, StepCopy, StepMigrate, StepPublish, StepStart,
        StepRelease;
      var dbs := pg.dbs.Keys;
      var todo := dbs;
      while todo != {}
        invariant Reaches(P, start, At(Active(m, Draining(RevokeEach(todo))))) && todo <= dbs
        invariant pg == old(pg).(writerConnect := old(pg.writerConnect) - (dbs - todo),
                  readerConnect := old(pg.readerConnect) - (dbs - todo))
        decreases |todo|
      {
        var db :| db in todo;
        Then(P, start, At(Active(m, Draining(RevokeEach(todo)))), m, Draining(RevokeEach(todo)), Chosen(db));
        OneMoreRevoked(old(pg.writerConnect), dbs, todo, db);
        OneMoreRevoked(old(pg.readerConnect), dbs, todo, db);
        pg := pg.(writerConnect := pg.writerConnect - {db}, readerConnect := pg.readerConnect - {db});
        todo := todo - {db};
      }
      Then(P, start, At(Active(m, Draining(RevokeEach({})))), m, Draining(RevokeEach({})), Proceed);
      assert dbs - {} == dbs;
    }

    /** Stops the application and shuts both roles out of every database. */
    method Drain(P: Policy, m: Memory) returns (ok: bool, ghost at: Process)
      modifies this
      ensures Reaches(P, old(At(Active(m, Draining(StopApp)))), At(at))
      ensures disk == old(disk) && pg.dbs == old(pg.dbs) && log == old(log)
      ensures ok <==> Drainable(old(pg), m.source)
      ensures ok ==> at == Active(m, Checkpoint(Drained)) && Quiescent(pg) && app.None?
    {
      hide Reaches, StepLease, StepCheckpoint, StepBackup, StepCopy, StepMigrate, StepPublish, StepStart, StepRelease;
      ghost var start := At(Active(m, Draining(StopApp)));
      ReachesSelf(P, start);
      Then(P, start, start, m, Draining(StopApp), Proceed);
      app := None;
      Then(P, start, At(Active(m, Draining(DisableLogin))), m, Draining(DisableLogin), Proceed);
      pg :=
        pg.(writerLogin := false, readerLogin := false, writerConnect := pg.writerConnect - {m.source},
          readerConnect := pg.readerConnect - {m.source});
      RevokeAll(P, m, start);
      Then(P, start, At(Active(m, Draining(Terminate))), m, Draining(Terminate), Proceed);
      pg := pg.(writerSessions := {}, readerSessions := {});
      EmptiedExactly(old(pg.writerConnect), old(pg.readerConnect), {m.source} + pg.dbs.Keys, pg.writerConnect,
        pg.readerConnect);
      if !Quiescent(pg) {
        return false, Active(m, Draining(CheckDrained));
      }
      Then(P, start, At(Active(m, Draining(CheckDrained))), m, Draining(CheckDrained), Proceed);
      return true, Active(m, Checkpoint(Drained));
    }

    /** Dumps the drained source and proves that it did not move meanwhile. */
    method TakeSnapshot(P: Policy, m: Memory, dump: Content, ghost start: World)
      returns (ok: bool, n: Memory, ghost at: Process)
      requires Reaches(P, start, At(Active(m, BackingUp(FingerprintSource))))
      modifies this`disk
      ensures Reaches(P, start, At(at)) && disk.(backups := old(disk.backups)) == old(disk) && n.command == m.command
      ensures ok <==>
                m.source in pg.dbs && pg.dbs[m.source].history != [] && Quiescent(pg) && m.folder !in old(disk.backups)
      ensures ok ==> at == Active(n, Checkpoint(BackupCreated)) && n == Backed(m, pg.dbs[m.source], dump)
      ensures ok ==> disk.backups == old(disk.backups)[m.folder := Backup(Some(dump), Some(n.snap), false)]
    {
      hide Reaches, StepLease, StepCheckpoint, StepDrain, StepCopy, StepMigrate, StepPublish, StepStart, StepRelease;
      n := m;
      if m.source !in pg.dbs || pg.dbs[m.source].history == [] || !Quiescent(pg) {
        return false, n, Active(m, BackingUp(FingerprintSource));
      }
      Then(P, start, At(Active(m, BackingUp(FingerprintSource))), m, BackingUp(FingerprintSource), Proceed);
      n := n.(before := pg.dbs[m.source]);
      if m.folder in disk.backups {
        return false, n, Active(n, BackingUp(DumpSource));
      }
      Then(P, start, At(Active(n, BackingUp(DumpSource))), n, BackingUp(DumpSource), Yields(dump));
      disk := disk.(backups := disk.backups[m.folder := Backup(Some(dump), None, false)]);
      n := n.(snap := Snapshot(m.source, n.before, m.previous, dump, m.gen));
      Then(P, start, At(Active(n, BackingUp(RecheckSource))), n, BackingUp(RecheckSource), Proceed);
      Then(P, start, At(Active(n, BackingUp(WriteSnapshot))), n, BackingUp(WriteSnapshot), Proceed);
      disk := disk.(backups := disk.backups[m.folder := Backup(Some(n.snap.dump), Some(n.snap), false)]);
      return true, n, Active(n, Checkpoint(BackupCreated));
    }

    /** Backs the drained source up and rehearses the restore. */
    method BackUp(P: Policy, m: Memory, dump: Content, drill: Content, ghost start: World)
      returns (ok: bool, n: Memory, ghost at: Process)
      requires m.command.key in disk.ops && Reaches(P, start, At(Active(m, BackingUp(FingerprintSource))))
      modifies this
      ensures Reaches(P, start, At(at)) && m.command.key in disk.ops
      ensures n.command == m.command && disk.(ops := old(disk.ops), backups := old(disk.backups)) == old(disk)
      ensures ok <==> && m.source in old(pg.dbs) && old(pg.dbs)[m.source].history != [] && Quiescent(old(pg))
                      && m.folder !in old(disk.backups) && DrillDb(m) !in old(pg.dbs) && drill == old(pg.dbs)[m.source]
      ensures ok ==> at == Active(n, Checkpoint(BackupVerified)) && n == Backed(m, old(pg.dbs)[m.source], dump)
      ensures ok ==> m.folder in disk.backups && disk.backups[m.folder] == Backup(Some(dump), Some(n.snap), true)
      ensures ok ==> Quiescent(pg) && pg.dbs == old(pg.dbs)[DrillDb(m) := drill]
    {
      hide Reaches, Advance;
      ok, n, at := TakeSnapshot(P, m, dump, start);
      if ok {
        ok, at := Rehearse(P, n, drill, start);
      }
    }

    /** Restores the dump into a fresh drill database and compares it with the source. */
    method Rehearse(P: Policy, m: Memory, drill: Content, ghost start: World) returns (ok: bool, ghost at: Process)
      requires m.command.key in disk.ops && Reaches(P, start, At(Active(m, Checkpoint(BackupCreated))))
      requires m.source in pg.dbs && pg.writerSessions == {}
      modifies this
      ensures Reaches(P, start, At(at)) && m.command.key in disk.ops
      ensures disk.(ops := old(disk.ops), backups := old(disk.backups)) == old(disk) && app == old(app)
      ensures ok <==> DrillDb(m) !in old(pg.dbs) && drill == m.before == old(pg.dbs)[m.source]
      ensures ok ==>
                at == Active(m, Checkpoint(BackupVerified))
                  && disk.backups == old(disk.backups)[m.folder := Backup(Some(m.snap.dump), Some(m.snap), true)]
      ensures ok ==> pg.dbs == old(pg.dbs)[DrillDb(m) := drill] && (Quiescent(old(pg)) ==> Quiescent(pg))
    {
      hide Reaches, Advance;
      Mark(P, m, BackupCreated, start);
      var made, stopped := MakeDatabase(P, m, true, start);
      if !made {
        return false, stopped;
      }
      Mark(P, m, DrillIntent, start);
      ok, at := CompareDrill(P, m, drill, start);
      assert ok ==> pg.dbs == old(pg.dbs)[DrillDb(m) := drill];
    }

    method CompareDrill(P: Policy, m: Memory, drill: Content, ghost start: World) returns (ok: bool, ghost at: Process)
      requires Reaches(P, start, At(Active(m, BackingUp(RestoreDrill)))) && m.source in pg.dbs && DrillDb(m) in pg.dbs
      requires pg.writerSessions == {}
      modifies this
      ensures Reaches(P, start, At(at)) && disk.(backups := old(disk.backups)) == old(disk) && app == old(app)
      ensures pg == old(pg).(dbs := pg.dbs)
      ensures (m.source != DrillDb(m) ==> (ok <==> drill == m.before == old(pg.dbs)[m.source]))
      ensures ok ==>
                at == Active(m, Checkpoint(BackupVerified))
                  && disk.backups == old(disk.backups)[m.folder := Backup(Some(m.snap.dump), Some(m.snap), true)]
      ensures ok ==> drill == m.before && pg.dbs == old(pg.dbs)[DrillDb(m) := drill]
    {
      hide Reaches, StepLease, StepCheckpoint, StepDrain, StepCopy, StepMigrate, StepPublish, StepStart, StepRelease;
      Then(P, start, At(Active(m, BackingUp(RestoreDrill))), m, BackingUp(RestoreDrill), Yields(drill));
      pg := pg.(dbs := pg.dbs[DrillDb(m) := drill]);
      if drill != m.before || pg.dbs[m.source] != m.before {
        return false, Active(m, BackingUp(CheckDrill));
      }
      Then(P, start, At(Active(m, BackingUp(CheckDrill))), m, BackingUp(CheckDrill), Proceed);
      Then(P, start, At(Active(m, BackingUp(WriteVerified))), m, BackingUp(WriteVerified), Proceed);
      disk := disk.(backups := disk.backups[m.folder := Backup(Some(m.snap.dump), Some(m.snap), true)]);
      return true, Active(m, Checkpoint(BackupVerified));
    }

    /** Restores the snapshot into a new database and compares it with the snapshot's fingerprint. */
    method CopySnapshot(P: Policy, m: Memory, restored: Content, ghost start: World)
      returns (ok: bool, n: Memory, ghost at: Process)
      requires m.command.key in disk.ops && Reaches(P, start, At(Active(m, Copying(CreateTarget))))
      modifies this
      ensures Reaches(P, start, At(at)) && m.command.key in disk.ops
      ensures n.command == m.command && disk.(ops := old(disk.ops)) == old(disk)
      ensures pg.writerSessions == old(pg.writerSessions)
      ensures ok <==> Target(m) !in old(pg.dbs) && old(pg.writerSessions) == {} && restored == m.snap.fingerprint
      ensures ok ==> at == Active(n, Checkpoint(CopyVerified)) && n == m.(after := m.snap.fingerprint, applied := [])
      ensures ok && Quiescent(old(pg)) ==> Quiescent(pg)
      ensures ok ==> pg.dbs == old(pg.dbs)[Target(m) := m.snap.fingerprint]
    {
      hide Reaches, StepLease, StepCheckpoint, StepDrain, StepBackup, StepMigrate, StepPublish, StepStart, StepRelease;
      n := m;
      var made, stopped := MakeDatabase(P, m, false, start);
      if !made {
        return false, n, stopped;
      }
      Mark(P, m, CopyIntent, start);
      if pg.writerSessions != {} {
        return false, n, Active(m, Copying(RestoreTarget));
      }
      var name := Target(m);
      Then(P, start, At(Active(m, Copying(RestoreTarget))), m, Copying(RestoreTarget), Yields(restored));
      pg := pg.(dbs := pg.dbs[name := restored]);
      if restored != m.snap.fingerprint {
        return false, n, Active(m, Copying(CheckTarget));
      }
      Then(P, start, At(Active(m, Copying(CheckTarget))), m, Copying(CheckTarget), Proceed);
      n := m.(after := m.snap.fingerprint, applied := []);
      assert pg.dbs == old(pg.dbs)[name := restored];
      return true, n, Active(n, Checkpoint(CopyVerified));
    }

    /** Runs the pending migrations; a failed run is accepted only if it left the copy as it was. */
    method Migrate(P: Policy, m: Memory, applied: nat, succeeded: bool) returns (ok: bool, n: Memory, ghost at: Process)
      modifies this
      ensures Reaches(P, old(At(Active(m, Migrating(RunMigration)))), At(at))
      ensures n.command == m.command && disk == old(disk) && app == old(app)
      ensures ok <==>
                Target(m) in old(pg.dbs) && old(pg.writerSessions) == {}
                  && MigrationAnswers(P, old(pg.dbs)[Target(m)], m.descriptor, m.snap.fingerprint, applied, succeeded)
      ensures ok ==> pg == old(pg).(dbs := old(pg.dbs)[Target(m) := n.after])
      ensures ok && succeeded ==>
                at == Active(n, Checkpoint(MigrationVerified)) && n.failed == m.failed
                  && AtTarget(n.after, m.descriptor)
      ensures ok && succeeded ==>
                n.applied == Pending(m.descriptor.migrations, old(pg.dbs)[Target(m)].history)
                  && n.after == MigratedBy(P, old(pg.dbs)[Target(m)], n.applied)
      ensures ok && succeeded ==> n == m.(applied := n.applied, after := n.after)
      ensures ok && !succeeded ==>
                at == Active(n, Publishing(WriteManifest))
                  && n == m.(failed := true, applied := [], after := m.snap.fingerprint)
    {
      hide Reaches, MigratedBy, Pending, AtTarget;
      n := m;
      ghost var start := At(Active(m, Migrating(RunMigration)));
      ReachesSelf(P, start);
      var name := Target(m);
      if name !in pg.dbs || pg.writerSessions != {} {
        return false, n, start.process;
      }
      var pending := Pending(m.descriptor.migrations, pg.dbs[name].history);
      if succeeded {
        Then(P, start, start, m, Migrating(RunMigration), Ran(0, true));
        pg := pg.(dbs := pg.dbs[name := MigratedBy(P, pg.dbs[name], pending)]);
        n := m.(applied := pending);
        if !AtTarget(pg.dbs[name], m.descriptor) {
          return false, n, Active(n, Migrating(CheckMigration));
        }
        Then(P, start, At(Active(n, Migrating(CheckMigration))), n, Migrating(CheckMigration), Proceed);
        n := n.(after := pg.dbs[name]);
        return true, n, Active(n, Checkpoint(MigrationVerified));
      }
      if applied > |pending| {
        return false, n, start.process;
      }
      Then(P, start, start, m, Migrating(RunMigration), Ran(applied, false));
      pg := pg.(dbs := pg.dbs[name := MigratedBy(P, pg.dbs[name], pending[..applied])]);
      if pg.dbs[name] != m.snap.fingerprint {
        return false, n, Active(n, Migrating(CheckFailedMigration));
      }
      Then(P, start, At(Active(n, Migrating(CheckFailedMigration))), n, Migrating(CheckFailedMigration), Proceed);
      n := m.(failed := true, after := m.snap.fingerprint, applied := []);
      return true, n, Active(n, Publishing(WriteManifest));
    }

    /** Writes the manifest and moves the current pointer to it. */
    method Publish(P: Policy, m: Memory) returns (ok: bool, n: Memory, ghost at: Process)
      modifies this
      ensures Reaches(P, old(At(Active(m, Publishing(WriteManifest)))), At(at))
      ensures n.command == m.command && pg == old(pg) && app == old(app) && disk.confirmed == old(disk.confirmed)
      ensures disk.ops == old(disk.ops)
      ensures ok <==> !old(disk.currentStaged)
      ensures ok ==> disk.(manifests := old(disk.manifests), current := old(disk.current)) == old(disk)
      ensures ok ==>
                at == Active(n, if m.failed then Checkpoint(MigrationFailed) else Starting(GrantReader))
                  && n == m.(receipt := PublishedReceipt(m))
      ensures ok ==> ManifestOf(m) in disk.manifests && disk.current == Some(ManifestOf(m))
    {
      hide Reaches, ManifestOf, PublishedReceipt;
      n := m;
      ghost var start := At(Active(m, Publishing(WriteManifest)));
      ReachesSelf(P, start);
      Then(P, start, start, m, Publishing(WriteManifest), Proceed);
      disk := disk.(manifests := disk.manifests + {ManifestOf(m)});
      if disk.currentStaged {
        return false, n, Active(m, Publishing(StageCurrent));
      }
      Then(P, start, At(Active(m, Publishing(StageCurrent))), m, Publishing(StageCurrent), Proceed);
      disk := disk.(currentStaged := true);
      Then(P, start, At(Active(m, Publishing(SetCurrent))), m, Publishing(SetCurrent), Proceed);
      disk := disk.(current := Some(ManifestOf(m)), currentStaged := false);
      n := m.(receipt := PublishedReceipt(m));
      return true, n, Active(n, if m.failed then Checkpoint(MigrationFailed) else Starting(GrantReader));
    }

    /** Opens the target, and nothing else, to the reader. */
    method OpenReader(P: Policy, m: Memory, ghost start: World) returns (ok: bool, ghost at: Process)
      requires Reaches(P, start, At(Active(m, Starting(GrantReader))))
      modifies this`pg
      ensures Reaches(P, start, At(at)) && pg.dbs == old(pg.dbs) && pg.writerSessions == old(pg.writerSessions)
      ensures ok <==> ReadyToServe(old(pg), Target(m))
      ensures ok ==> at == Active(m, Checkpoint(ApplicationIntent)) && Scope(pg, Target(m), false)
    {
      hide Reaches, ManifestOf, ObserveIn, StepLease, StepCheckpoint, StepDrain, StepBackup, StepCopy, StepMigrate,
        StepPublish, StepRelease;
      if pg.writerSessions != {} {
        return false, Active(m, Starting(GrantReader));
      }
      Then(P, start, At(Active(m, Starting(GrantReader))), m, Starting(GrantReader), Proceed);
      pg := pg.(readerConnect := pg.readerConnect + {Target(m)}, readerLogin := true);
      if !Scope(pg, Target(m), false) {
        return false, Active(m, Starting(CheckScopeClosed));
      }
      Then(P, start, At(Active(m, Starting(CheckScopeClosed))), m, Starting(CheckScopeClosed), Proceed);
      return true, Active(m, Checkpoint(ApplicationIntent));
    }

    method Launch(P: Policy, m: Memory, ghost start: World)
      requires Reaches(P, start, At(Active(m, Starting(StartApp))))
      modifies this`app
      ensures Reaches(P, start, At(Active(m, Checkpoint(ApplicationStarted)))) && app == Some(ManifestOf(m))
    {
      hide Reaches, ManifestOf, ObserveIn, StepLease, StepCheckpoint, StepDrain, StepBackup, StepCopy, StepMigrate,
        StepPublish, StepRelease;
      Then(P, start, At(Active(m, Starting(StartApp))), m, Starting(StartApp), Proceed);
      app := Some(ManifestOf(m));
    }

    /** Opens the target to the reader and starts the application on it. */
    method StartApplication(P: Policy, m: Memory, ghost start: World) returns (ok: bool, ghost at: Process)
      requires m.command.key in disk.ops && Reaches(P, start, At(Active(m, Starting(GrantReader))))
      modifies this
      ensures Reaches(P, start, At(at)) && m.command.key in disk.ops && disk.(ops := old(disk.ops)) == old(disk)
      ensures pg.dbs == old(pg.dbs)
      ensures (ok <==> ReadyToServe(old(pg), Target(m))) && pg.writerSessions == old(pg.writerSessions)
      ensures ok ==> at == Active(m, Starting(Observe)) && app == Some(ManifestOf(m)) && Scope(pg, Target(m), false)
    {
      hide Reaches, ManifestOf, Advance, Scope;
      ok, at := OpenReader(P, m, start);
      if !ok {
        return;
      }
      Mark(P, m, ApplicationIntent, start);
      Launch(P, m, start);
      Mark(P, m, ApplicationStarted, start);
      at := Active(m, Starting(Observe));
    }

    /** Starts the application and observes it; only a verified observation goes on to the release. */
    method Serve(P: Policy, m: Memory, sound: bool, replies: Replies) returns (ok: bool, n: Memory, ghost at: Process)
      requires m.command.key in disk.ops
      modifies this
      ensures Reaches(P, old(At(Active(m, Starting(GrantReader)))), At(at)) && m.command.key in disk.ops
      ensures n.command == m.command && disk.(ops := old(disk.ops)) == old(disk) && pg.dbs == old(pg.dbs)
      ensures (ok <==> ReadyToServe(old(pg), Target(m))) && pg.writerSessions == old(pg.writerSessions)
      ensures ok ==>
                at == Active(n, if n.receipt.status.Verified? then Releasing(CheckRelease) else WriteResult)
                  && app == Some(ManifestOf(m))
      ensures ok ==>
                n == m.(receipt := ObserveIn(At(Idle), m.receipt, ManifestOf(m), true, sound, replies))
                  && Scope(pg, Target(m), false)
    {
      hide Reaches, ManifestOf, ObserveIn, Scope, StepLease, StepCheckpoint, StepDrain, StepBackup, StepCopy,
        StepMigrate, StepPublish, StepRelease;
      n := m;
      ghost var start := At(Active(m, Starting(GrantReader)));
      ReachesSelf(P, start);
      ok, at := StartApplication(P, m, start);
      if !ok {
        return;
      }
      ghost var u := At(Active(m, Starting(Observe)));
      Then(P, start, u, m, Starting(Observe), Saw(sound, replies));
      ObserveAnyProcess(u, At(Idle), m.receipt, ManifestOf(m), sound, replies);
      var receipt := Observation(m.receipt, ManifestOf(m), sound, replies);
      n := m.(receipt := receipt);
      return true, n, Active(n, if receipt.status.Verified? then Releasing(CheckRelease) else WriteResult);
    }

    /** The read-only observation of the running application. */
    method Observation(base: Receipt, manifest: Manifest, sound: bool, replies: Replies) returns (receipt: Receipt)
      ensures receipt == ObserveIn(At(Idle), base, manifest, true, sound, replies)
      ensures receipt.status.Verified? <==>
                && sound && app == Some(manifest)
                && manifest.database in pg.dbs && pg.dbs[manifest.database] == manifest.fingerprint
                && HasSchema(manifest.fingerprint, manifest.descriptor.targetSchema)
                && replies == Truthful(manifest, manifest.descriptor.targetSchema.version)
      ensures receipt.status.Verified? ==>
                receipt.database == Some(manifest.database) && receipt.fingerprint == Some(manifest.fingerprint)
      ensures receipt.command == base.command && receipt.gen == base.gen && receipt.manifest == base.manifest
    {
      if manifest.database in pg.dbs {
        VerifiedExactly(base, manifest, pg.dbs[manifest.database], replies);
      }
      hide Observed;
      if !sound || app != Some(manifest) || manifest.database !in pg.dbs
        || pg.dbs[manifest.database] != manifest.fingerprint
        || !HasSchema(pg.dbs[manifest.database], manifest.descriptor.targetSchema) {
        return base.(status := Unknown, reason := "database_or_engine_outcome_unknown");
      }
      return Observed(base, manifest, pg.dbs[manifest.database], replies);
    }

    /** Writes the proof, moves the confirmed pointer, and only then opens the target to the writer. */
    method Release(P: Policy, m: Memory) returns (ok: bool, ghost at: Process)
      requires m.command.key in disk.ops
      modifies this
      ensures Reaches(P, old(At(Active(m, Releasing(CheckRelease)))), At(at)) && m.command.key in disk.ops
      ensures pg.dbs == old(pg.dbs) && app == old(app) && disk.current == old(disk.current)
      ensures ok <==> old(pg.writerSessions) == {} && Scope(old(pg), Target(m), false) && !old(disk.confirmedStaged)
      ensures disk.confirmed != old(disk.confirmed) ==>
                disk.confirmed == Some(ManifestOf(m)) && disk.ops[m.command.key].proof == Whole(m.receipt)
      ensures ok ==>
                at == Active(m, WriteResult) && disk.confirmed == Some(ManifestOf(m))
                  && disk.ops[m.command.key].proof == Whole(m.receipt)
      ensures ok ==> pg.writerLogin && pg.writerConnect == {Target(m)} && log == old(log) + AppliedEvents(m.applied)
    {
      hide Reaches, ManifestOf, AppliedEvents;
      ghost var start := At(Active(m, Releasing(CheckRelease)));
      ReachesSelf(P, start);
      if pg.writerSessions != {} || !Scope(pg, Target(m), false) {
        return false, start.process;
      }
      Then(P, start, start, m, Releasing(CheckRelease), Proceed);
      Then(P, start, At(Active(m, Releasing(WriteProof))), m, Releasing(WriteProof), Proceed);
      disk := disk.(ops := disk.ops[m.command.key := disk.ops[m.command.key].(proof := Whole(m.receipt))]);
      if disk.confirmedStaged {
        return false, Active(m, Releasing(StageConfirmed));
      }
      Then(P, start, At(Active(m, Releasing(StageConfirmed))), m, Releasing(StageConfirmed), Proceed);
      disk := disk.(confirmedStaged := true);
      Then(P, start, At(Active(m, Releasing(SetConfirmed))), m, Releasing(SetConfirmed), Proceed);
      disk := disk.(confirmed := Some(ManifestOf(m)), confirmedStaged := false);
      log := log + AppliedEvents(m.applied);
      ok, at := OpenWriter(P, m, start);
    }

    method OpenWriter(P: Policy, m: Memory, ghost start: World) returns (ok: bool, ghost at: Process)
      requires m.command.key in disk.ops && Reaches(P, start, At(Active(m, Checkpoint(ReleaseIntent))))
      modifies this
      ensures Reaches(P, start, At(at)) && m.command.key in disk.ops
      ensures pg.dbs == old(pg.dbs) && app == old(app) && disk.confirmed == old(disk.confirmed)
      ensures disk.current == old(disk.current) && log == old(log)
      ensures disk.ops[m.command.key].proof == old(disk.ops)[m.command.key].proof
      ensures ok <==> Scope(old(pg).(writerConnect := old(pg.writerConnect) + {Target(m)}), Target(m), true)
      ensures ok ==> at == Active(m, WriteResult) && pg.writerLogin && pg.writerConnect == {Target(m)}
    {
      hide Reaches, Advance;
      Mark(P, m, ReleaseIntent, start);
      ok, at := GrantWriting(P, m, start);
      if ok {
        Mark(P, m, WritesReleased, start);
        at := Active(m, WriteResult);
      }
    }

    method GrantWriting(P: Policy, m: Memory, ghost start: World) returns (ok: bool, ghost at: Process)
      requires Reaches(P, start, At(Active(m, Releasing(GrantWriter))))
      modifies this`pg
      ensures Reaches(P, start, At(at)) && pg.dbs == old(pg.dbs)
      ensures ok <==> Scope(old(pg).(writerConnect := old(pg.writerConnect) + {Target(m)}), Target(m), true)
      ensures ok ==> at == Active(m, Checkpoint(WritesReleased)) && pg.writerLogin && pg.writerConnect == {Target(m)}
    {
      hide Reaches, ManifestOf, StepLease, StepCheckpoint, StepDrain, StepBackup, StepCopy, StepMigrate, StepPublish,
        StepStart;
      Then(P, start, At(Active(m, Releasing(GrantWriter))), m, Releasing(GrantWriter), Proceed);
      pg := pg.(writerConnect := pg.writerConnect + {Target(m)}, writerLogin := true);
      if !Scope(pg, Target(m), true) {
        return false, Active(m, Releasing(CheckScopeOpen));
      }
      Then(P, start, At(Active(m, Releasing(CheckScopeOpen))), m, Releasing(CheckScopeOpen), Proceed);
      return true, Active(m, Checkpoint(WritesReleased));
    }

    /** Drains the source and, for a deploy, backs it up and rehearses the restore. */
    method Secure(P: Policy, m: Memory, outside: Outside, ghost start: World)
      returns (ok: bool, n: Memory, ghost at: Process)
      requires m.command.key in disk.ops && Reaches(P, start, At(Active(m, Checkpoint(DrainIntent))))
      modifies this
      ensures Reaches(P, start, At(at)) && n.command == m.command && m.command.key in disk.ops
      ensures disk.(ops := old(disk.ops), backups := old(disk.backups)) == old(disk)
      ensures ok <==> Securable(old(disk), old(pg), m, outside)
      ensures ok ==> at == Active(n, Copying(CreateTarget)) && Quiescent(pg)
      ensures ok && m.command.action.Deploy? ==>
                n == Backed(m, old(pg.dbs)[m.source], outside.dump)
                  && pg.dbs == old(pg.dbs)[DrillDb(m) := outside.drill]
      ensures ok && m.command.action.Restore? ==> n == m && pg.dbs == old(pg.dbs)
    {
      hide Reaches, Advance, Quiescent;
      n := m;
      Mark(P, m, DrainIntent, start);
      ghost var u := At(Active(m, Draining(StopApp)));
      ok, at := Drain(P, m);
      ReachesOn(P, start, u, At(at));
      if !ok {
        return;
      }
      Mark(P, m, Drained, start);
      if m.command.action.Restore? {
        Mark(P, m, RestoreBackupVerified, start);
        return true, n, Active(n, Copying(CreateTarget));
      }
      Mark(P, m, BackupIntent, start);
      ok, n, at := BackUp(P, m, outside.dump, outside.drill, start);
      if ok {
        Mark(P, n, BackupVerified, start);
        at := Active(n, Copying(CreateTarget));
      }
    }

    /** Copies the snapshot and, for a deploy, migrates the copy. */
    method Build(P: Policy, m: Memory, outside: Outside, ghost start: World)
      returns (ok: bool, n: Memory, ghost at: Process)
      requires m.command.key in disk.ops && Reaches(P, start, At(Active(m, Copying(CreateTarget))))
      modifies this
      ensures Reaches(P, start, At(at)) && n.command == m.command && m.command.key in disk.ops
      ensures disk.(ops := old(disk.ops)) == old(disk)
      ensures ok <==> Buildable(P, old(pg), m, outside)
      ensures ok ==> at == Active(n, Publishing(WriteManifest)) && n == BuiltMemory(P, m, outside)
      ensures ok ==> pg.dbs == old(pg.dbs)[Target(m) := n.after] && (Quiescent(old(pg)) ==> Quiescent(pg))
    {
      hide Reaches, Advance, MigrationAnswers, BuiltMemory;
      BuiltFromCopy(P, m, outside);
      ok, n, at := CopySnapshot(P, m, outside.restored, start);
      if !ok {
        return;
      }
      Mark(P, n, CopyVerified, start);
      if n.command.action.Restore? {
        at := Active(n, Publishing(WriteManifest));
        return;
      }
      Mark(P, n, MigrationIntent, start);
      ok, n, at := RunMigrations(P, n, outside, start);
    }

    method RunMigrations(P: Policy, m: Memory, outside: Outside, ghost start: World)
      returns (ok: bool, n: Memory, ghost at: Process)
      requires m.command.key in disk.ops && Reaches(P, start, At(Active(m, Migrating(RunMigration)))) && m.applied == []
      requires Target(m) in pg.dbs && pg.dbs[Target(m)] == m.snap.fingerprint == m.after && pg.writerSessions == {}
      requires m.command.action.Deploy?
      modifies this
      ensures Reaches(P, start, At(at)) && n.command == m.command && m.command.key in disk.ops
      ensures disk.(ops := old(disk.ops)) == old(disk)
      ensures ok <==>
                MigrationAnswers(P, m.snap.fingerprint, m.descriptor, m.snap.fingerprint, outside.applied,
                  outside.succeeded)
      ensures ok ==>
                at == Active(n, Publishing(WriteManifest)) && n == BuiltMemory(P, m, outside)
                  && pg == old(pg).(dbs := old(pg.dbs)[Target(m) := n.after])
    {
      hide Reaches, Advance, MigratedBy, Pending, AtTarget;
      ghost var v := At(Active(m, Migrating(RunMigration)));
      ok, n, at := Migrate(P, m, outside.applied, outside.succeeded);
      ReachesOn(P, start, v, At(at));
      if ok && outside.succeeded {
        Mark(P, n, MigrationVerified, start);
        at := Active(n, Publishing(WriteManifest));
      }
    }

    /** Writes the final receipt; the operation is over. */
    method Finish(P: Policy, m: Memory, ghost start: World)
      requires m.command.key in disk.ops && Reaches(P, start, At(Active(m, WriteResult)))
      modifies this`disk
      ensures Reaches(P, start, At(Idle)) && disk.(ops := old(disk.ops)) == old(disk)
      ensures disk.ops == old(disk.ops)[m.command.key := old(disk.ops)[m.command.key].(result := Whole(m.receipt))]
    {
      hide Reaches, StepLease, StepCheckpoint, StepDrain, StepBackup, StepCopy, StepMigrate, StepPublish, StepStart,
        StepRelease;
      Then(P, start, At(Active(m, WriteResult)), m, WriteResult, Proceed);
      disk := disk.(ops := disk.ops[m.command.key := disk.ops[m.command.key].(result := Whole(m.receipt))]);
    }

    /** Publishes, serves and releases; a failed migration ends with its failed receipt. */
    method Deliver(P: Policy, m: Memory, outside: Outside, ghost start: World) returns (ok: bool, ghost at: Process)
      requires m.command.key in disk.ops && Reaches(P, start, At(Active(m, Publishing(WriteManifest))))
      modifies this
      ensures Reaches(P, start, At(at)) && pg.dbs == old(pg.dbs)
      ensures disk.confirmed != old(disk.confirmed) ==> Proved(m.command.key)
      ensures Deliverable(old(disk), old(pg), m) ==> ok
      ensures ok ==>
                at == Idle && m.command.key in disk.ops && disk.ops[m.command.key].result.Whole?
                  && disk.current == Some(ManifestOf(m))
      ensures ok && !m.failed && TrueReport(old(pg), m, outside) ==>
                disk.ops[m.command.key].result.value.status.Verified?
      ensures ok && disk.ops[m.command.key].result.value.status.Verified? ==>
                disk.confirmed == disk.current && Proved(m.command.key) && pg.writerLogin
                  && pg.writerConnect == {Target(m)}
    {
      hide Reaches, Advance, ObserveIn, AppliedEvents;
      var n: Memory;
      ghost var u := At(Active(m, Publishing(WriteManifest)));
      ok, n, at := Publish(P, m);
      ReachesOn(P, start, u, At(at));
      if !ok {
        return;
      }
      if n.failed {
        Mark(P, n, MigrationFailed, start);
        Finish(P, n, start);
        return true, Idle;
      }
      ghost var v := At(Active(n, Starting(GrantReader)));
      ghost var published := n;
      ok, n, at := Serve(P, n, outside.sound, outside.replies);
      ReachesOn(P, start, v, At(at));
      if !ok {
        return;
      }
      if TrueReport(old(pg), m, outside) {
        TruthIsVerified(At(Idle), published.receipt, ManifestOf(m), outside.replies);
      }
      if n.receipt.status.Verified? {
        ghost var x := At(Active(n, Releasing(CheckRelease)));
        ok, at := Release(P, n);
        ReachesOn(P, start, x, At(at));
        if !ok {
          return;
        }
      }
      Finish(P, n, start);
      return true, Idle;
    }

    /** The confirmed manifest is this operation's and its proof is on disk. */
    ghost predicate Proved(key: Key)
      reads this
    {
      && disk.confirmed.Some? && disk.confirmed.value.key == key && key in disk.ops && disk.ops[key].proof.Whole?
    }

    /** One operation from its first check to its receipt.  Wherever it stops, the world it leaves
        behind is one the machine reaches, so everything proved of the machine holds there; and if
        nothing stands in its way it ends verified, with the carried content open for writing. */
    method Execute(P: Policy, command: Command, outside: Outside) returns (ok: bool, ghost at: Process)
      modifies this
      ensures !old(CanBegin(At(Idle), command)) ==> !ok && at == Idle && At(Idle) == old(At(Idle))
      ensures old(CanBegin(At(Idle), command)) ==>
                Reaches(P, old(At(Active(FirstMemory(At(Idle), command), Leasing(StageGeneration)))), At(at))
      ensures old(Inv(P, At(Idle))) ==> Inv(P, At(at))
      ensures ok ==> at == Idle && command.key in disk.ops && disk.ops[command.key].result.Whole? && disk.current.Some?
      ensures ok && disk.ops[command.key].result.value.status.Verified? ==>
                disk.confirmed == disk.current && Proved(command.key) && pg.writerLogin
                  && pg.writerConnect == {disk.current.value.database}
      ensures old(CanBegin(At(Idle), command)) ==>
                var m := old(FirstMemory(At(Idle), command));
                Favourable(P, old(disk), old(pg), m, outside) ==>
                  && ok && disk.ops[command.key].result.value.status.Verified? && disk.current.value.database in pg.dbs
                  && pg.dbs[disk.current.value.database] == FinalMemory(P, old(pg), m, outside).after
    {
      hide Reaches, Inv, Advance, Securable, Buildable, BuiltMemory, TrueReport, Deliverable;
      var now := World(disk, pg, app, Idle, [], []);
      ghost var before := At(Idle);
      HistoryIsNotRead(now, before, command);
      if !CanBegin(now, command) {
        return false, Idle;
      }
      var m := FirstMemory(now, command);
      ghost var start := At(Active(m, Leasing(StageGeneration)));
      FirstStepKeeps(P, before, command);
      hide CanBegin, FirstMemory;
      ok, at := Attempt(P, m, outside, start);
      if old(Inv(P, At(Idle))) {
        ReachesKeeps(P, start, At(at));
      }
    }

    /** Looks again at an operation without a known outcome; writes a receipt only when the completed
        release is observed to serve. */
    method ReconcileOperation(P: Policy, key: Key, command: Command, sound: bool, replies: Replies)
      returns (wrote: bool)
      modifies this`disk
      ensures wrote <==> old(StartReconcile(At(Idle), key, command, sound, replies)).process.Reconciling?
      ensures !wrote ==> disk == old(disk)
      ensures wrote ==> old(CanReconcile(At(Idle), key, command)) && key in disk.ops && disk.ops[key].reconciled.Whole?
      ensures wrote ==> At(Idle) == Perform(P, old(StartReconcile(At(Idle), key, command, sound, replies)), Go(Proceed))
      ensures old(Inv(P, At(Idle))) ==> Inv(P, At(Idle))
    {
      hide Inv, ObserveIn, CanReconcile;
      var now := World(disk, pg, app, Idle, [], []);
      ghost var before := At(Idle);
      ReconcileReadsNoHistory(now, before, key, command, sound, replies);
      if !CanReconcile(now, key, command) {
        return false;
      }
      CurrentWhenReconciling(now, key, command);
      var manifest := disk.current.value;
      var receipt := ObserveIn(now, disk.ops[key].intent.value.receipt, manifest, false, sound, replies);
      if !receipt.status.Verified? {
        return false;
      }
      receipt := receipt.(manifest := Some(manifest));
      ghost var u := Perform(P, before, Reconcile(key, command, sound, replies));
      assert u == At(Reconciling(key, receipt));
      if Inv(P, before) {
        PerformKeeps(P, before, Reconcile(key, command, sound, replies));
        PerformKeeps(P, u, Go(Proceed));
      }
      disk := disk.(ops := disk.ops[key := disk.ops[key].(reconciled := Whole(receipt))]);
      return true;
    }

    /** The stages in a row. */
    method Attempt(P: Policy, m: Memory, outside: Outside, ghost start: World) returns (ok: bool, ghost at: Process)
      requires start == At(Active(m, Leasing(StageGeneration))) && m.command.key !in disk.ops && !m.failed
      modifies this
      ensures Reaches(P, start, At(at))
      ensures ok ==>
                at == Idle && m.command.key in disk.ops && disk.ops[m.command.key].result.Whole? && disk.current.Some?
      ensures ok && disk.ops[m.command.key].result.value.status.Verified? ==>
                disk.confirmed == disk.current && Proved(m.command.key) && pg.writerLogin
                  && pg.writerConnect == {disk.current.value.database}
      ensures Favourable(P, old(disk), old(pg), m, outside) ==>
                && ok && disk.ops[m.command.key].result.value.status.Verified? && disk.current.value.database in pg.dbs
                && pg.dbs[disk.current.value.database] == FinalMemory(P, old(pg), m, outside).after
    {
      hide Reaches, Advance, MigratedBy, Pending, AtTarget, MigrationAnswers, Truthful;
      ok, at := Lease(P, m);
      var n := m;
      if ok {
        ok, n, at := Secure(P, m, outside, start);
      }
      if ok {
        ok, n, at := Build(P, n, outside, start);
      }
      if ok {
        ok, at := Deliver(P, n, outside, start);
      }
    }
  }

  /** Memory once the source is secured and the target built. */
  function FinalMemory(P: Policy, pg: Pg, m: Memory, outside: Outside): Memory {
    var secured := if m.command.action.Deploy? && m.source in pg.dbs then Backed(m, pg.dbs[m.source], outside.dump)
      else m;
    BuiltMemory(P, secured, outside)
  }

  /** Nothing is left over from a torn pointer, the names are free, and the outside answers truly. */
  predicate Favourable(P: Policy, disk: Disk, pg: Pg, m: Memory, outside: Outside) {
    var last := FinalMemory(P, pg, m, outside);
    && !disk.generationStaged && !disk.currentStaged && !disk.confirmedStaged
    && Securable(disk, pg, m, outside) && Target(m) !in pg.dbs && !last.failed
    && outside.restored == last.snap.fingerprint
    && (m.command.action.Deploy? ==>
          MigrationAnswers(P, last.snap.fingerprint, m.descriptor, last.snap.fingerprint, outside.applied,
            outside.succeeded))
    && HasSchema(last.after, m.descriptor.targetSchema)
    && outside.sound && outside.replies == Truthful(ManifestOf(last), m.descriptor.targetSchema.version)
  }

  /** What the outside world answers during one operation. */
  datatype Outside = Outside(dump: Content, drill: Content, restored: Content, applied: nat, succeeded: bool,
                             sound: bool, replies: Replies)

  lemma HistoryIsNotRead(u: World, v: World, command: Command)
    requires u.disk == v.disk && u.pg == v.pg && u.process == v.process
    ensures CanBegin(u, command) <==> CanBegin(v, command)
    ensures CanBegin(u, command) ==> FirstMemory(u, command) == FirstMemory(v, command)
  {
  }

  lemma ReconcileReadsNoHistory(u: World, v: World, key: Key, command: Command, sound: bool, replies: Replies)
    requires u.disk == v.disk && u.pg == v.pg && u.app == v.app && u.process == v.process
    ensures CanReconcile(u, key, command) <==> CanReconcile(v, key, command)
    ensures forall base, manifest :: ObserveIn(u, base, manifest, false, sound, replies)
                                  == ObserveIn(v, base, manifest, false, sound, replies)
  {
    hide Observed;
  }

  lemma CurrentWhenReconciling(w: World, key: Key, command: Command)
    requires CanReconcile(w, key, command)
    ensures w.disk.current.Some? && key in w.disk.ops && w.disk.ops[key].intent.Whole?
  {
  }

  lemma FirstStepKeeps(P: Policy, w: World, command: Command)
    requires CanBegin(w, command)
    ensures Inv(P, w) ==> Inv(P, w.(process := Active(FirstMemory(w, command), Leasing(StageGeneration))))
  {
    hide Inv, CanBegin, FirstMemory;
    if Inv(P, w) {
      PerformKeeps(P, w, Begin(command));
    }
  }

  lemma ObserveAnyProcess(u: World, v: World, base: Receipt, manifest: Manifest, sound: bool, replies: Replies)
    requires u.app == v.app && u.pg == v.pg
    ensures ObserveIn(u, base, manifest, true, sound, replies) == ObserveIn(v, base, manifest, true, sound, replies)
  {
    hide Observed;
  }
}

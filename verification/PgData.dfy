/** What the isolated PostgreSQL delivery owner keeps: database contents, migrations,
    manifests, receipts and the write-once files of an operation directory.

    A digest stands for the value it was taken of (collision-free hashing), so a manifest
    reference is the manifest itself and a fingerprint is the content it describes. */
module PgData {
  import opened Prelude

  type Key = string

  /** Codes of table states and of committed client writes; `Policy` says how they act. */
  type Rows = nat
  type Write = nat

  datatype Migration = Migration(version: nat, sql: string, catalog: string)
  datatype Schema = Schema(version: nat, catalog: string)
  datatype Content = Content(rows: Rows, history: seq<Migration>)

  /** The database engine: what a committed write and a migration do to a table state. */
  datatype Policy = Policy(initial: Content, write: (Rows, Write) -> Rows, migrate: (Rows, string) -> Rows)

  datatype Kind = Drill | Candidate | Restored
  datatype Db = InitialDb | MadeDb(key: Key, kind: Kind)

  datatype Descriptor = Descriptor(image: string, sourceSchema: Schema, targetSchema: Schema,
                                   migrations: seq<Migration>)

  datatype Manifest = Manifest(key: Key, candidate: string, descriptor: Descriptor, database: Db, gen: nat,
                               folder: Key, sourceSnapshot: Content, fingerprint: Content, restored: bool)

  datatype Action = Deploy | Restore
  datatype Command = Command(key: Key, action: Action, expected: Option<Manifest>,
                             descriptor: Descriptor, candidate: string)

  datatype Snapshot = Snapshot(source: Db, fingerprint: Content, previous: Option<Manifest>,
                               dump: Content, gen: nat)
  datatype Backup = Backup(dump: Option<Content>, snapshot: Option<Snapshot>, verified: bool)

  // --- receipts ---------------------------------------------------------------------------

  datatype Status = Verified | Failed | Unavailable | Unknown
  datatype ProbeName = VersionProbe | DatabaseProbe | HealthProbe | AcceptanceProbe | EndVersionProbe
  datatype Body = ManifestBody(manifest: Manifest) | IdentityBody(database: Db, version: nat)
                | HealthBody | AcceptanceBody | OtherBody(code: nat)
  datatype Reply = Silent | Refused(code: nat) | Answered(code: nat, body: Body)
  datatype Probe = Probe(status: Status, http: Option<nat>, body: Option<Body>)

  datatype Receipt = Receipt(command: Command, gen: nat, previous: Option<Manifest>, status: Status,
                             reason: string, manifest: Option<Manifest>, database: Option<Db>,
                             fingerprint: Option<Content>, image: Option<string>,
                             probes: map<ProbeName, Probe>)

  const ALL_PROBES: set<ProbeName> :=
    {VersionProbe, DatabaseProbe, HealthProbe, AcceptanceProbe, EndVersionProbe}
  const VERIFIED_REASON := "isolated_image_database_application_checks_verified"

  function InitialReceipt(command: Command, gen: nat, previous: Option<Manifest>): Receipt {
    Receipt(command, gen, previous, Unknown, "critical_effect_not_finalized", None, None, None, None, map[])
  }

  // --- the operation directory ------------------------------------------------------------

  /** A write-once file: a crash inside the write leaves it torn, and nothing repairs it. */
  datatype File<+T> = Missing | Torn | Whole(value: T)

  datatype Phase = DrainIntent | Drained | BackupIntent | BackupCreated | DrillIntent | BackupVerified
                 | RestoreBackupVerified | CopyIntent | CopyVerified | MigrationIntent | MigrationVerified
                 | MigrationFailed | ApplicationIntent | ApplicationStarted | ReleaseIntent | WritesReleased

  datatype Intent = Intent(command: Command, gen: nat, receipt: Receipt, candidate: string,
                           descriptor: Descriptor, source: Db)
  datatype ReleaseNote = ReleaseNote(database: Db, gen: nat)
  datatype Operation = Operation(intent: File<Intent>, phases: set<Phase>, proof: File<Receipt>,
                                 release: File<ReleaseNote>, result: File<Receipt>, reconciled: File<Receipt>)

  const EMPTY_OPERATION := Operation(Missing, {}, Missing, Missing, Missing, Missing)

  // --- contents ---------------------------------------------------------------------------

  /** The migrations whose version does not exceed `version`, in descriptor order. */
  function UpTo(migrations: seq<Migration>, version: nat): seq<Migration> {
    if migrations == [] then []
    else (if migrations[0].version <= version then [migrations[0]] else []) + UpTo(migrations[1..], version)
  }

  /** The migrations the runner still has to apply to a database with history `done`. */
  function Pending(migrations: seq<Migration>, done: seq<Migration>): seq<Migration> {
    if migrations == [] then []
    else (if migrations[0] in done then [] else [migrations[0]]) + Pending(migrations[1..], done)
  }

  predicate HasSchema(content: Content, schema: Schema) {
    && content.history != []
    && var last := content.history[|content.history| - 1];
       schema == Schema(last.version, last.catalog)
  }

  /** The catalog and the whole migration history are the descriptor's at its target version. */
  predicate AtTarget(content: Content, descriptor: Descriptor) {
    && HasSchema(content, descriptor.targetSchema)
    && content.history == UpTo(descriptor.migrations, descriptor.targetSchema.version)
  }

  function Migrated(P: Policy, content: Content, migration: Migration): Content {
    Content(P.migrate(content.rows, migration.sql), content.history + [migration])
  }

  function MigratedBy(P: Policy, content: Content, migrations: seq<Migration>): Content
    decreases |migrations|
  {
    if migrations == [] then content
    else MigratedBy(P, Migrated(P, content, migrations[0]), migrations[1..])
  }

  function Written(P: Policy, content: Content, write: Write): Content {
    content.(rows := P.write(content.rows, write))
  }

  // --- the acknowledged history -----------------------------------------------------------

  /** Everything the service has promised to keep, in order: every acknowledged client write,
      and the migrations of every confirmed delivery. */
  datatype Event = Wrote(write: Write) | Applied(migration: Migration)

  function Replay(P: Policy, log: seq<Event>): Content {
    if log == [] then P.initial
    else
      var before := Replay(P, log[..|log| - 1]);
      match log[|log| - 1]
      case Wrote(write) => Written(P, before, write)
      case Applied(migration) => Migrated(P, before, migration)
  }

  function AppliedEvents(migrations: seq<Migration>): seq<Event> {
    seq(|migrations|, i requires 0 <= i < |migrations| => Applied(migrations[i]))
  }

  /** Migrating the replayed content is replaying the history with the migrations appended. */
  lemma {:induction false} MigratedReplay(P: Policy, log: seq<Event>, migrations: seq<Migration>)
    ensures MigratedBy(P, Replay(P, log), migrations) == Replay(P, log + AppliedEvents(migrations))
    decreases |migrations|
  {
    if migrations == [] {
      assert log + AppliedEvents(migrations) == log;
    } else {
      var first := log + [Applied(migrations[0])];
      assert first[..|first| - 1] == log;
      MigratedReplay(P, first, migrations[1..]);
      assert first + AppliedEvents(migrations[1..]) == log + AppliedEvents(migrations);
    }
  }

  lemma WrittenReplay(P: Policy, log: seq<Event>, write: Write)
    ensures Replay(P, log + [Wrote(write)]) == Written(P, Replay(P, log), write)
  {
    assert (log + [Wrote(write)])[..|log|] == log;
  }
}

/** Job artifacts: a file on disk and a row in the database that must agree across failed steps,
    commits whose reply is lost, crashes and retention. */
module ArtifactStore {
  import opened Prelude

  type Id = nat
  type Session = nat
  type UploadId = nat
  type Bytes = seq<nat>
  type Hash = Bytes -> nat

  const MAX_BYTES: nat := 50 * 1024 * 1024

  /** Rows of before digests were recorded have none. */
  datatype Row = Row(digest: Option<nat>, expires: nat, purged: bool, session: Option<Session>)

  datatype SessionState = Open | Completed(artifact: Id) | Closed

  /** Where an upload stands: admitted, file created, file written, commit sent, reply lost. */
  datatype Stage = Admitted | Created(id: Id) | Written(id: Id) | Waiting(id: Id) | Unsure(id: Id)

  datatype Upload = Upload(session: Option<Session>, body: Bytes, expires: nat, stage: Stage)

  /** A transaction the database was asked to commit and has not decided yet. */
  datatype Pending = Pending(id: Id, row: Row)

  /** `locks` are session row locks and `owners` the upload each generated id was made for;
      `answers` is the history of artifacts reported for a session. */
  datatype State = State(files: map<Id, Bytes>, rows: map<Id, Row>, sessions: map<Session, SessionState>,
                         locks: map<Session, UploadId>, uploads: map<UploadId, Upload>, sent: map<UploadId, Pending>,
                         begun: set<UploadId>, owners: map<Id, UploadId>, now: nat, answers: seq<(Session, Id)>)

  datatype Act =
    | Pass(time: nat)
    | SetSession(key: Session, open: bool)
    | Begin(upload: UploadId, session: Option<Session>, body: Bytes, expires: nat)
    | Create(upload: UploadId, id: Id)
    | Write(upload: UploadId)
    | Fail(upload: UploadId)
    | Die(upload: UploadId)
    | Send(upload: UploadId)
    | Decide(upload: UploadId, commits: bool)
    | Reply(upload: UploadId)
    | Lose(upload: UploadId)
    | Readback(upload: UploadId, reachable: bool)
    | Remove(id: Id)
    | Mark(id: Id)

  predicate Downloadable(s: State, id: Id) {
    id in s.rows && !s.rows[id].purged && s.rows[id].expires > s.now
  }

  predicate Expired(s: State, id: Id) {
    id in s.rows && !s.rows[id].purged && s.rows[id].expires <= s.now
  }

  predicate Active(stage: Stage) {
    stage.Admitted? || stage.Created? || stage.Written?
  }

  /** Drops the upload and the locks its transaction held. */
  function Ended(s: State, u: UploadId): State {
    s.(uploads := s.uploads - {u}, locks := map k | k in s.locks && s.locks[k] != u :: s.locks[k])
  }

  function Admit(s: State, u: UploadId, up: Upload): State {
    s.(begun := s.begun + {u}, uploads := s.uploads[u := up],
       locks := if up.session.Some? then s.locks[up.session.value := u] else s.locks)
  }

  predicate MayBegin(s: State, session: Option<Session>) {
    session.Some? ==> session.value in s.sessions && s.sessions[session.value].Open?
  }

  /** A completed session answers with its artifact; an open one is locked for the transaction. */
  function BeginStep(s: State, u: UploadId, session: Option<Session>, body: Bytes, expires: nat): State {
    if u in s.begun || body == [] || |body| > MAX_BYTES || (session.Some? && session.value in s.locks) then s
    else if MayBegin(s, session) then Admit(s, u, Upload(session, body, expires, Admitted))
    else if session.value in s.sessions && s.sessions[session.value].Completed? then
      s.(answers := s.answers + [(session.value, s.sessions[session.value].artifact)])
    else s
  }

  function At(s: State, u: UploadId, stage: Stage): State
    requires u in s.uploads
  {
    s.(uploads := s.uploads[u := s.uploads[u].(stage := stage)])
  }

  /** Identifiers are fresh; the file is created exclusively and may be left part written. */
  function CreateStep(s: State, u: UploadId, id: Id): State {
    if u in s.uploads && s.uploads[u].stage.Admitted? && id !in s.owners && id !in s.files
    then At(s.(files := s.files[id := []], owners := s.owners[id := u]), u, Created(id))
    else s
  }

  function WriteStep(s: State, u: UploadId): State {
    if u in s.uploads && s.uploads[u].stage.Created?
    then At(s.(files := s.files[s.uploads[u].stage.id := s.uploads[u].body]), u, Written(s.uploads[u].stage.id))
    else s
  }

  /** An error before the commit: the transaction rolls back and the guard removes the file. */
  function FailStep(s: State, u: UploadId): State {
    if u in s.uploads && Active(s.uploads[u].stage) then
      var stage := s.uploads[u].stage;
      Ended(s.(files := if stage.Admitted? then s.files else s.files - {stage.id}), u)
    else s
  }

  /** The process dies: no guard runs, and a commit already sent stays undecided. */
  function DieStep(s: State, u: UploadId): State {
    if u in s.sent then s.(uploads := s.uploads - {u}) else Ended(s, u)
  }

  function SendStep(hash: Hash, s: State, u: UploadId): State {
    if u in s.uploads && s.uploads[u].stage.Written? then
      var up := s.uploads[u];
      At(s.(sent := s.sent[u := Pending(up.stage.id, Row(Some(hash(up.body)), up.expires, false, up.session))]), u,
        Waiting(up.stage.id))
    else s
  }

  function Committed(s: State, u: UploadId): State
    requires u in s.sent
  {
    var p := s.sent[u];
    s.(rows := s.rows[p.id := p.row],
       sessions := if p.row.session.Some? then s.sessions[p.row.session.value := Completed(p.id)] else s.sessions)
  }

  function DecideStep(s: State, u: UploadId, commits: bool): State {
    if u !in s.sent then s
    else
      var t := if commits then Committed(s, u) else s;
      t.(sent := s.sent - {u}, locks := map k | k in s.locks && s.locks[k] != u :: s.locks[k])
  }

  function ReplyStep(s: State, u: UploadId): State {
    if u in s.uploads && s.uploads[u].stage.Waiting? && u !in s.sent && s.uploads[u].stage.id in s.rows then
      var up := s.uploads[u];
      s.(uploads := s.uploads - {u},
         answers := if up.session.Some? then s.answers + [(up.session.value, up.stage.id)] else s.answers)
    else s
  }

  /** After a commit error the file goes only if the row is proved absent.  With `late`, the
      database may still decide the transaction after that readback. */
  function ReadbackStep(late: bool, s: State, u: UploadId, reachable: bool): State {
    if u in s.uploads && s.uploads[u].stage.Unsure? && (late || u !in s.sent) then
      var id := s.uploads[u].stage.id;
      s.(uploads := s.uploads - {u}, files := if reachable && id !in s.rows then s.files - {id} else s.files)
    else s
  }

  function LoseStep(s: State, u: UploadId): State {
    if u in s.uploads && s.uploads[u].stage.Waiting? then At(s, u, Unsure(s.uploads[u].stage.id)) else s
  }

  /** Retention removes an expired artifact's file, and marks the row once the file is gone; a crash
      in between leaves the row unmarked. */
  function RemoveStep(s: State, id: Id): State {
    if Expired(s, id) then s.(files := s.files - {id}) else s
  }

  function MarkStep(s: State, id: Id): State {
    if Expired(s, id) && id !in s.files then s.(rows := s.rows[id := s.rows[id].(purged := true)]) else s
  }

  function SessionStep(s: State, k: Session, open: bool): State {
    if open then (if k in s.sessions then s else s.(sessions := s.sessions[k := Open]))
    else if k in s.sessions && s.sessions[k].Open? && k !in s.locks then s.(sessions := s.sessions[k := Closed])
    else s
  }

  function Perform(late: bool, hash: Hash, s: State, act: Act): State {
    match act
    case Pass(time) => s.(now := s.now + time)
    case SetSession(k, open) => SessionStep(s, k, open)
    case Begin(u, session, body, expires) => BeginStep(s, u, session, body, expires)
    case Create(u, id) => CreateStep(s, u, id)
    case Write(u) => WriteStep(s, u)
    case Fail(u) => FailStep(s, u)
    case Die(u) => DieStep(s, u)
    case Send(u) => SendStep(hash, s, u)
    case Decide(u, commits) => DecideStep(s, u, commits)
    case Reply(u) => ReplyStep(s, u)
    case Lose(u) => LoseStep(s, u)
    case Readback(u, reachable) => ReadbackStep(late, s, u, reachable)
    case Remove(id) => RemoveStep(s, id)
    case Mark(id) => MarkStep(s, id)
  }

  const EMPTY := State(map[], map[], map[], map[], map[], map[], {}, map[], 0, [])

  function Run(late: bool, hash: Hash, acts: seq<Act>): State {
    if acts == [] then EMPTY else Perform(late, hash, Run(late, hash, acts[..|acts| - 1]), acts[|acts| - 1])
  }

  // --- what every step keeps: ownership ---------------------------------------------------------------

  predicate Owned(owners: map<Id, UploadId>, id: Id, u: UploadId) {
    id in owners && owners[id] == u
  }

  /** An upload owns its id from the moment it made one, and has no row before its commit is sent. */
  ghost predicate UploadOwns(owners: map<Id, UploadId>, rows: map<Id, Row>, u: UploadId, stage: Stage) {
    match stage
    case Admitted => u !in owners.Values
    case Created(id) => Owned(owners, id, u) && id !in rows
    case Written(id) => Owned(owners, id, u) && id !in rows
    case Waiting(id) => Owned(owners, id, u)
    case Unsure(id) => Owned(owners, id, u)
  }

  ghost predicate OwnerInv(s: State) {
    && (forall u :: u in s.uploads ==> u in s.begun && UploadOwns(s.owners, s.rows, u, s.uploads[u].stage))
    && (forall u :: u in s.sent ==> u in s.begun && Owned(s.owners, s.sent[u].id, u) && s.sent[u].id !in s.rows)
    && (forall u :: u in s.sent && u in s.uploads ==>
          !Active(s.uploads[u].stage) && s.sent[u].id == s.uploads[u].stage.id)
    && (forall id :: id in s.rows ==> id in s.owners)
    && s.owners.Values <= s.begun
    && OneEach(s.owners)
  }

  ghost predicate OneEach(owners: map<Id, UploadId>) {
    forall i, j :: i in owners && j in owners && owners[i] == owners[j] ==> i == j
  }

  lemma OwnerAdmit(s: State, u: UploadId, up: Upload)
    requires OwnerInv(s) && u !in s.begun && up.stage.Admitted?
    ensures OwnerInv(Admit(s, u, up))
  {
    hide OneEach;
    var t := Admit(s, u, up);
    forall v | v in t.uploads
      ensures v in t.begun && UploadOwns(t.owners, t.rows, v, t.uploads[v].stage)
    {
      if v != u {
        assert UploadOwns(s.owners, s.rows, v, s.uploads[v].stage);
      }
    }
  }

  lemma OwnerBegin(s: State, u: UploadId, session: Option<Session>, body: Bytes, expires: nat)
    requires OwnerInv(s)
    ensures OwnerInv(BeginStep(s, u, session, body, expires))
  {
    hide OwnerInv, Admit;
    if u !in s.begun && MayBegin(s, session) {
      OwnerAdmit(s, u, Upload(session, body, expires, Admitted));
    } else {
      OwnerFrame(s, BeginStep(s, u, session, body, expires));
    }
  }

  lemma NewOwner(owners: map<Id, UploadId>, id: Id, u: UploadId)
    requires OneEach(owners) && id !in owners && u !in owners.Values
    ensures OneEach(owners[id := u]) && owners[id := u].Values == owners.Values + {u}
  {
    var more := owners[id := u];
    forall v | v in owners.Values
      ensures v in more.Values
    {
      var k :| k in owners && owners[k] == v;
      assert more[k] == v;
    }
    assert more[id] == u;
  }

  lemma OwnerCreate(s: State, u: UploadId, id: Id)
    requires OwnerInv(s)
    ensures OwnerInv(CreateStep(s, u, id))
  {
    if u in s.uploads && s.uploads[u].stage.Admitted? && id !in s.owners && id !in s.files {
      assert UploadOwns(s.owners, s.rows, u, s.uploads[u].stage);
      NewOwner(s.owners, id, u);
      hide OneEach;
      forall v | v in s.uploads && v != u
        ensures UploadOwns(s.owners[id := u], s.rows, v, s.uploads[v].stage)
      {
        assert UploadOwns(s.owners, s.rows, v, s.uploads[v].stage);
      }
    }
  }

  lemma OwnerSend(hash: Hash, s: State, u: UploadId)
    requires OwnerInv(s)
    ensures OwnerInv(SendStep(hash, s, u))
  {
  }

  lemma OwnerDecide(s: State, u: UploadId, commits: bool)
    requires OwnerInv(s)
    ensures OwnerInv(DecideStep(s, u, commits))
  {
    if u in s.sent && commits {
      forall v | v in s.uploads
        ensures UploadOwns(s.owners, s.rows[s.sent[u].id := s.sent[u].row], v, s.uploads[v].stage)
      {
        assert UploadOwns(s.owners, s.rows, v, s.uploads[v].stage);
      }
    }
  }

  /** Steps that make no id and decide no commit only drop uploads or move them along. */
  predicate MovesAlong(was: Stage, stage: Stage) {
    || stage == was
    || (was.Created? && stage == Written(was.id))
    || (was.Waiting? && stage == Unsure(was.id))
  }

  lemma OwnerFrame(s: State, t: State)
    requires OwnerInv(s) && t.owners == s.owners && t.begun == s.begun && t.sent == s.sent && t.rows.Keys == s.rows.Keys
    requires forall u :: u in t.uploads ==> u in s.uploads && MovesAlong(s.uploads[u].stage, t.uploads[u].stage)
    ensures OwnerInv(t)
  {
    hide OneEach;
    forall u | u in t.uploads
      ensures UploadOwns(t.owners, t.rows, u, t.uploads[u].stage)
    {
      assert UploadOwns(s.owners, s.rows, u, s.uploads[u].stage);
    }
  }

  lemma OwnerFail(s: State, u: UploadId)
    requires OwnerInv(s)
    ensures OwnerInv(FailStep(s, u))
  {
    hide OwnerInv;
    OwnerFrame(s, FailStep(s, u));
  }

  lemma OwnerDie(s: State, u: UploadId)
    requires OwnerInv(s)
    ensures OwnerInv(DieStep(s, u))
  {
    hide OwnerInv;
    OwnerFrame(s, DieStep(s, u));
  }

  lemma OwnerReply(s: State, u: UploadId)
    requires OwnerInv(s)
    ensures OwnerInv(ReplyStep(s, u))
  {
    hide OwnerInv;
    OwnerFrame(s, ReplyStep(s, u));
  }

  lemma OwnerLose(s: State, u: UploadId)
    requires OwnerInv(s)
    ensures OwnerInv(LoseStep(s, u))
  {
    hide OwnerInv;
    OwnerFrame(s, LoseStep(s, u));
  }

  lemma OwnerReadback(late: bool, s: State, u: UploadId, reachable: bool)
    requires OwnerInv(s)
    ensures OwnerInv(ReadbackStep(late, s, u, reachable))
  {
    hide OwnerInv;
    OwnerFrame(s, ReadbackStep(late, s, u, reachable));
  }

  lemma OwnerWrite(s: State, u: UploadId)
    requires OwnerInv(s)
    ensures OwnerInv(WriteStep(s, u))
  {
    hide OwnerInv;
    OwnerFrame(s, WriteStep(s, u));
  }

  lemma OwnerSession(s: State, k: Session, open: bool)
    requires OwnerInv(s)
    ensures OwnerInv(SessionStep(s, k, open))
  {
    hide OwnerInv;
    OwnerFrame(s, SessionStep(s, k, open));
  }

  lemma OwnerRemove(s: State, id: Id)
    requires OwnerInv(s)
    ensures OwnerInv(RemoveStep(s, id))
  {
    hide OwnerInv;
    OwnerFrame(s, RemoveStep(s, id));
  }

  lemma OwnerMark(s: State, id: Id)
    requires OwnerInv(s)
    ensures OwnerInv(MarkStep(s, id))
  {
    hide OwnerInv;
    OwnerFrame(s, MarkStep(s, id));
  }

  lemma OwnerKeeps(late: bool, hash: Hash, s: State, act: Act)
    requires OwnerInv(s)
    ensures OwnerInv(Perform(late, hash, s, act))
  {
    hide OwnerInv, BeginStep, CreateStep, WriteStep, FailStep, DieStep, SendStep, DecideStep, ReplyStep, LoseStep,
      ReadbackStep,
      RemoveStep, MarkStep, SessionStep;
    match act {
      case Pass(time) => OwnerFrame(s, s.(now := s.now + time));
      case SetSession(k, open) => OwnerSession(s, k, open);
      case Begin(u, session, body, expires) => OwnerBegin(s, u, session, body, expires);
      case Create(u, id) => OwnerCreate(s, u, id);
      case Write(u) => OwnerWrite(s, u);
      case Fail(u) => OwnerFail(s, u);
      case Die(u) => OwnerDie(s, u);
      case Send(u) => OwnerSend(hash, s, u);
      case Decide(u, commits) => OwnerDecide(s, u, commits);
      case Reply(u) => OwnerReply(s, u);
      case Lose(u) => OwnerLose(s, u);
      case Readback(u, reachable) => OwnerReadback(late, s, u, reachable);
      case Remove(id) => OwnerRemove(s, id);
      case Mark(id) => OwnerMark(s, id);
    }
  }

  // --- files ------------------------------------------------------------------------------------------

  predicate Intact(hash: Hash, files: map<Id, Bytes>, id: Id, row: Row) {
    id in files && row.digest == Some(hash(files[id]))
  }

  ghost predicate RowsIntact(hash: Hash, files: map<Id, Bytes>, rows: map<Id, Row>, now: nat) {
    forall id :: id in rows && !rows[id].purged && rows[id].expires > now ==> Intact(hash, files, id, rows[id])
  }

  ghost predicate SentIntact(hash: Hash, files: map<Id, Bytes>, sent: map<UploadId, Pending>) {
    forall u :: u in sent ==> Intact(hash, files, sent[u].id, sent[u].row)
  }

  ghost predicate WrittenIntact(files: map<Id, Bytes>, uploads: map<UploadId, Upload>) {
    forall u :: u in uploads && uploads[u].stage.Written? ==>
        uploads[u].stage.id in files && files[uploads[u].stage.id] == uploads[u].body
  }

  ghost predicate FileInv(hash: Hash, s: State) {
    RowsIntact(hash, s.files, s.rows, s.now) && SentIntact(hash, s.files, s.sent) && WrittenIntact(s.files, s.uploads)
  }

  /** The file of an id that has no row, no undecided commit and no other upload may change freely. */
  lemma FileChanges(hash: Hash, s: State, files: map<Id, Bytes>, id: Id, uploads: map<UploadId, Upload>, u: UploadId)
    requires OwnerInv(s) && FileInv(hash, s) && id !in s.rows && Owned(s.owners, id, u) && u !in s.sent
    requires forall k :: k != id ==> (k in files <==> k in s.files) && (k in files ==> files[k] == s.files[k])
    requires forall v :: v in uploads && v != u ==> v in s.uploads && uploads[v] == s.uploads[v]
    requires u in uploads && uploads[u].stage.Written? ==>
              uploads[u].stage.id in files && files[uploads[u].stage.id] == uploads[u].body
    ensures RowsIntact(hash, files, s.rows, s.now) && SentIntact(hash, files, s.sent) && WrittenIntact(files, uploads)
  {
    assert forall v :: v in s.uploads ==> UploadOwns(s.owners, s.rows, v, s.uploads[v].stage);
  }

  lemma FileCreate(hash: Hash, s: State, u: UploadId, id: Id)
    requires OwnerInv(s) && FileInv(hash, s)
    ensures FileInv(hash, CreateStep(s, u, id))
  {
    assert forall v :: v in s.uploads ==> UploadOwns(s.owners, s.rows, v, s.uploads[v].stage);
  }

  lemma FileWrite(hash: Hash, s: State, u: UploadId)
    requires OwnerInv(s) && FileInv(hash, s)
    ensures FileInv(hash, WriteStep(s, u))
  {
    if u in s.uploads && s.uploads[u].stage.Created? {
      var t := WriteStep(s, u);
      assert UploadOwns(s.owners, s.rows, u, s.uploads[u].stage);
      FileChanges(hash, s, t.files, s.uploads[u].stage.id, t.uploads, u);
    }
  }

  lemma FileFail(hash: Hash, s: State, u: UploadId)
    requires OwnerInv(s) && FileInv(hash, s)
    ensures FileInv(hash, FailStep(s, u))
  {
    if u in s.uploads && (s.uploads[u].stage.Created? || s.uploads[u].stage.Written?) {
      var t := FailStep(s, u);
      assert UploadOwns(s.owners, s.rows, u, s.uploads[u].stage);
      FileChanges(hash, s, t.files, s.uploads[u].stage.id, t.uploads, u);
    }
  }

  lemma FileReadback(hash: Hash, s: State, u: UploadId, reachable: bool)
    requires OwnerInv(s) && FileInv(hash, s)
    ensures FileInv(hash, ReadbackStep(false, s, u, reachable))
  {
    if u in s.uploads && s.uploads[u].stage.Unsure? && u !in s.sent && reachable && s.uploads[u].stage.id !in s.rows {
      var t := ReadbackStep(false, s, u, reachable);
      assert UploadOwns(s.owners, s.rows, u, s.uploads[u].stage);
      FileChanges(hash, s, t.files, s.uploads[u].stage.id, t.uploads, u);
    }
  }

  lemma FileRemove(hash: Hash, s: State, id: Id)
    requires OwnerInv(s) && FileInv(hash, s)
    ensures FileInv(hash, RemoveStep(s, id))
  {
    assert forall v :: v in s.uploads ==> UploadOwns(s.owners, s.rows, v, s.uploads[v].stage);
  }

  lemma FileFrame(hash: Hash, s: State, t: State)
    requires FileInv(hash, s) && t.files == s.files && t.now >= s.now
    requires forall id :: id in t.rows && !t.rows[id].purged ==> id in s.rows && s.rows[id] == t.rows[id]
    requires t.sent == s.sent
    requires forall u :: u in t.uploads && t.uploads[u].stage.Written? ==>
              u in s.uploads && s.uploads[u] == t.uploads[u]
    ensures FileInv(hash, t)
  {
    hide Intact;
  }

  lemma FileDie(hash: Hash, s: State, u: UploadId)
    requires FileInv(hash, s)
    ensures FileInv(hash, DieStep(s, u))
  {
    hide FileInv;
    FileFrame(hash, s, DieStep(s, u));
  }

  lemma FileReply(hash: Hash, s: State, u: UploadId)
    requires FileInv(hash, s)
    ensures FileInv(hash, ReplyStep(s, u))
  {
    hide FileInv;
    FileFrame(hash, s, ReplyStep(s, u));
  }

  lemma FileLose(hash: Hash, s: State, u: UploadId)
    requires FileInv(hash, s)
    ensures FileInv(hash, LoseStep(s, u))
  {
    hide FileInv;
    FileFrame(hash, s, LoseStep(s, u));
  }

  lemma FileMark(hash: Hash, s: State, id: Id)
    requires FileInv(hash, s)
    ensures FileInv(hash, MarkStep(s, id))
  {
    hide FileInv;
    FileFrame(hash, s, MarkStep(s, id));
  }

  lemma FileSession(hash: Hash, s: State, k: Session, open: bool)
    requires FileInv(hash, s)
    ensures FileInv(hash, SessionStep(s, k, open))
  {
    hide FileInv;
    FileFrame(hash, s, SessionStep(s, k, open));
  }

  lemma FileBegin(hash: Hash, s: State, u: UploadId, session: Option<Session>, body: Bytes, expires: nat)
    requires FileInv(hash, s)
    ensures FileInv(hash, BeginStep(s, u, session, body, expires))
  {
    hide FileInv;
    FileFrame(hash, s, Admit(s, u, Upload(session, body, expires, Admitted)));
    hide Admit;
    if u in s.begun || !MayBegin(s, session) {
      FileFrame(hash, s, BeginStep(s, u, session, body, expires));
    }
  }

  lemma FileKeeps(hash: Hash, s: State, act: Act)
    requires OwnerInv(s) && FileInv(hash, s)
    ensures FileInv(hash, Perform(false, hash, s, act))
  {
    hide OwnerInv, FileInv, BeginStep, CreateStep, WriteStep, FailStep, DieStep, SendStep, DecideStep, ReplyStep,
      LoseStep, ReadbackStep,
      RemoveStep, MarkStep, SessionStep;
    match act {
      case Pass(time) => FileFrame(hash, s, s.(now := s.now + time));
      case SetSession(k, open) => FileSession(hash, s, k, open);
      case Begin(u, session, body, expires) => FileBegin(hash, s, u, session, body, expires);
      case Create(u, id) => FileCreate(hash, s, u, id);
      case Write(u) => FileWrite(hash, s, u);
      case Fail(u) => FileFail(hash, s, u);
      case Die(u) => FileDie(hash, s, u);
      case Send(u) => FileSend(hash, s, u);
      case Decide(u, commits) => FileDecide(hash, s, u, commits);
      case Reply(u) => FileReply(hash, s, u);
      case Lose(u) => FileLose(hash, s, u);
      case Readback(u, reachable) => FileReadback(hash, s, u, reachable);
      case Remove(id) => FileRemove(hash, s, id);
      case Mark(id) => FileMark(hash, s, id);
    }
  }

  lemma FileSend(hash: Hash, s: State, u: UploadId)
    requires FileInv(hash, s)
    ensures FileInv(hash, SendStep(hash, s, u))
  {
  }

  lemma FileDecide(hash: Hash, s: State, u: UploadId, commits: bool)
    requires FileInv(hash, s)
    ensures FileInv(hash, DecideStep(s, u, commits))
  {
  }

  // --- sessions ---------------------------------------------------------------------------------------

  /** An open transaction in a session holds the session's row lock, and the session is open. */
  ghost predicate Locking(locks: map<Session, UploadId>, sessions: map<Session, SessionState>, u: UploadId,
                          session: Option<Session>) {
    session.Some? ==>
      && session.value in locks && locks[session.value] == u
      && session.value in sessions && sessions[session.value].Open?
  }

  predicate IsCompleted(sessions: map<Session, SessionState>, k: Session, id: Id) {
    k in sessions && sessions[k] == Completed(id)
  }

  ghost predicate UploadsLock(s: State) {
    && (forall u :: u in s.uploads && Active(s.uploads[u].stage) ==>
          Locking(s.locks, s.sessions, u, s.uploads[u].session))
    && (forall u :: u in s.sent ==> Locking(s.locks, s.sessions, u, s.sent[u].row.session))
  }

  /** A reply names the artifact its own transaction inserted. */
  ghost predicate RepliesMatch(s: State) {
    && (forall u :: u in s.uploads && !Active(s.uploads[u].stage) && s.uploads[u].stage.id in s.rows ==>
          s.rows[s.uploads[u].stage.id].session == s.uploads[u].session)
    && (forall u :: u in s.uploads && u in s.sent ==> s.sent[u].row.session == s.uploads[u].session)
  }

  ghost predicate RowsComplete(s: State) {
    && (forall id :: id in s.rows && s.rows[id].session.Some? ==> IsCompleted(s.sessions, s.rows[id].session.value, id))
    && (forall i :: 0 <= i < |s.answers| ==> IsCompleted(s.sessions, s.answers[i].0, s.answers[i].1))
    && (forall k :: k in s.sessions && s.sessions[k].Completed? ==>
          s.sessions[k].artifact in s.rows && s.rows[s.sessions[k].artifact].session == Some(k))
  }

  ghost predicate SessionInv(s: State) {
    UploadsLock(s) && RepliesMatch(s) && RowsComplete(s)
  }

  /** Ending a transaction frees only its own locks. */
  lemma SessionEnds(s: State, u: UploadId)
    requires OwnerInv(s) && SessionInv(s) && u !in s.sent
    ensures SessionInv(Ended(s, u))
  {
    hide OneEach, IsCompleted;
    var t := Ended(s, u);
    assert UploadsLock(t);
    hide UploadsLock;
  }

  lemma SessionFail(s: State, u: UploadId)
    requires OwnerInv(s) && SessionInv(s)
    ensures SessionInv(FailStep(s, u))
  {
    if u in s.uploads && Active(s.uploads[u].stage) {
      SessionEnds(s, u);
    }
  }

  lemma SessionDie(s: State, u: UploadId)
    requires OwnerInv(s) && SessionInv(s)
    ensures SessionInv(DieStep(s, u))
  {
    if u !in s.sent {
      SessionEnds(s, u);
    }
  }

  lemma SessionReply(s: State, u: UploadId)
    requires OwnerInv(s) && SessionInv(s)
    ensures SessionInv(ReplyStep(s, u))
  {
    hide OneEach;
  }

  lemma SessionLose(s: State, u: UploadId)
    requires OwnerInv(s) && SessionInv(s)
    ensures SessionInv(LoseStep(s, u))
  {
    hide OneEach;
  }

  lemma SessionReadback(late: bool, s: State, u: UploadId, reachable: bool)
    requires OwnerInv(s) && SessionInv(s)
    ensures SessionInv(ReadbackStep(late, s, u, reachable))
  {
    hide OneEach;
  }

  lemma SessionWrite(s: State, u: UploadId)
    requires OwnerInv(s) && SessionInv(s)
    ensures SessionInv(WriteStep(s, u))
  {
    hide OneEach;
  }

  lemma SessionSet(s: State, k: Session, open: bool)
    requires OwnerInv(s) && SessionInv(s)
    ensures SessionInv(SessionStep(s, k, open))
  {
    hide OneEach;
  }

  lemma SessionRemove(s: State, id: Id)
    requires OwnerInv(s) && SessionInv(s)
    ensures SessionInv(RemoveStep(s, id))
  {
    hide OneEach;
  }

  lemma SessionMark(s: State, id: Id)
    requires OwnerInv(s) && SessionInv(s)
    ensures SessionInv(MarkStep(s, id))
  {
    hide OneEach;
  }

  lemma SessionAdmit(s: State, u: UploadId, up: Upload)
    requires OwnerInv(s) && SessionInv(s) && u !in s.begun && up.stage.Admitted?
    requires up.session.Some? ==>
              up.session.value !in s.locks && up.session.value in s.sessions && s.sessions[up.session.value].Open?
    ensures SessionInv(Admit(s, u, up))
  {
    hide OneEach, IsCompleted;
  }

  lemma SessionBegin(s: State, u: UploadId, session: Option<Session>, body: Bytes, expires: nat)
    requires OwnerInv(s) && SessionInv(s)
    ensures SessionInv(BeginStep(s, u, session, body, expires))
  {
    hide Admit, OwnerInv;
    if u !in s.begun && !(session.Some? && session.value in s.locks) && MayBegin(s, session) {
      hide SessionInv;
      SessionAdmit(s, u, Upload(session, body, expires, Admitted));
    }
  }

  lemma SessionCreate(s: State, u: UploadId, id: Id)
    requires OwnerInv(s) && SessionInv(s)
    ensures SessionInv(CreateStep(s, u, id))
  {
    hide OneEach;
  }

  lemma SessionSend(hash: Hash, s: State, u: UploadId)
    requires OwnerInv(s) && SessionInv(s)
    ensures SessionInv(SendStep(hash, s, u))
  {
    hide OneEach;
  }

  lemma CommitLocks(s: State, u: UploadId)
    requires UploadsLock(s) && u in s.sent && (u in s.uploads ==> !Active(s.uploads[u].stage))
    ensures UploadsLock(DecideStep(s, u, true))
  {
    assert Locking(s.locks, s.sessions, u, s.sent[u].row.session);
  }

  lemma CommitReplies(s: State, u: UploadId)
    requires OwnerInv(s) && RepliesMatch(s) && u in s.sent
    ensures RepliesMatch(DecideStep(s, u, true))
  {
    hide OneEach;
  }

  lemma CommitRows(s: State, u: UploadId)
    requires RowsComplete(s) && u in s.sent && s.sent[u].id !in s.rows
    requires Locking(s.locks, s.sessions, u, s.sent[u].row.session)
    ensures RowsComplete(DecideStep(s, u, true))
  {
  }

  lemma SessionCommit(s: State, u: UploadId)
    requires OwnerInv(s) && SessionInv(s) && u in s.sent
    ensures SessionInv(DecideStep(s, u, true))
  {
    assert Locking(s.locks, s.sessions, u, s.sent[u].row.session);
    CommitLocks(s, u);
    CommitReplies(s, u);
    CommitRows(s, u);
    hide DecideStep;
  }

  lemma SessionDecide(s: State, u: UploadId, commits: bool)
    requires OwnerInv(s) && SessionInv(s)
    ensures SessionInv(DecideStep(s, u, commits))
  {
    hide OneEach;
    if u in s.sent && commits {
      SessionCommit(s, u);
    }
  }

  lemma SessionKeeps(late: bool, hash: Hash, s: State, act: Act)
    requires OwnerInv(s) && SessionInv(s)
    ensures SessionInv(Perform(late, hash, s, act))
  {
    hide OwnerInv, SessionInv, BeginStep, CreateStep, WriteStep, FailStep, DieStep, SendStep, DecideStep, ReplyStep,
      LoseStep, ReadbackStep,
      RemoveStep, MarkStep, SessionStep;
    match act {
      case Pass(time) => SessionPass(s, time);
      case SetSession(k, open) => SessionSet(s, k, open);
      case Begin(u, session, body, expires) => SessionBegin(s, u, session, body, expires);
      case Create(u, id) => SessionCreate(s, u, id);
      case Write(u) => SessionWrite(s, u);
      case Fail(u) => SessionFail(s, u);
      case Die(u) => SessionDie(s, u);
      case Send(u) => SessionSend(hash, s, u);
      case Decide(u, commits) => SessionDecide(s, u, commits);
      case Reply(u) => SessionReply(s, u);
      case Lose(u) => SessionLose(s, u);
      case Readback(u, reachable) => SessionReadback(late, s, u, reachable);
      case Remove(id) => SessionRemove(s, id);
      case Mark(id) => SessionMark(s, id);
    }
  }

  lemma SessionPass(s: State, time: nat)
    requires SessionInv(s)
    ensures SessionInv(s.(now := s.now + time))
  {
  }

  // --- results ----------------------------------------------------------------------------------------

  lemma StartSound(late: bool, hash: Hash)
    ensures Run(late, hash, []) == EMPTY && OwnerInv(EMPTY) && SessionInv(EMPTY) && FileInv(hash, EMPTY)
  {
  }

  lemma {:induction false} Always(late: bool, hash: Hash, acts: seq<Act>)
    ensures OwnerInv(Run(late, hash, acts)) && SessionInv(Run(late, hash, acts))
    ensures !late ==> FileInv(hash, Run(late, hash, acts))
    decreases |acts|
  {
    hide Perform, OwnerInv, SessionInv, FileInv;
    if acts == [] {
      StartSound(late, hash);
    } else {
      var before, act := Run(late, hash, acts[..|acts| - 1]), acts[|acts| - 1];
      Always(late, hash, acts[..|acts| - 1]);
      OwnerKeeps(late, hash, before, act);
      SessionKeeps(late, hash, before, act);
      if !late {
        FileKeeps(hash, before, act);
      }
    }
  }

  /** In every run of uploads, failing steps, crashes, lost replies and retention passes, an artifact
      that can still be downloaded has its file, with the recorded digest. */
  lemma DownloadsAreIntact(hash: Hash, acts: seq<Act>, id: Id)
    ensures var s := Run(false, hash, acts);
            Downloadable(s, id) ==> id in s.files && s.rows[id].digest == Some(hash(s.files[id]))
  {
    Always(false, hash, acts);
  }

  /** A session yields at most one artifact, and every answer for it names that one; this needs no
      assumption on late decisions. */
  lemma OneArtifactPerSession(late: bool, hash: Hash, acts: seq<Act>, a: Id, b: Id, k: Session, i: nat)
    ensures var s := Run(late, hash, acts);
            && (a in s.rows && b in s.rows && s.rows[a].session == s.rows[b].session == Some(k) ==> a == b)
            && (i < |s.answers| && s.answers[i].0 == k ==>
                  s.answers[i].1 in s.rows && s.rows[s.answers[i].1].session == Some(k))
  {
    hide Run;
    Always(late, hash, acts);
    var s := Run(late, hash, acts);
    if a in s.rows && b in s.rows && s.rows[a].session == s.rows[b].session == Some(k) {
      assert IsCompleted(s.sessions, k, a) && IsCompleted(s.sessions, k, b);
    }
    if i < |s.answers| {
      assert IsCompleted(s.sessions, s.answers[i].0, s.answers[i].1);
    }
  }

  lemma Snoc(late: bool, hash: Hash, acts: seq<Act>, act: Act) returns (more: seq<Act>)
    ensures Run(late, hash, more) == Perform(late, hash, Run(late, hash, acts), act)
  {
    more := acts + [act];
    assert more[..|acts|] == acts;
  }

  function Sample(files: map<Id, Bytes>, sent: map<UploadId, Pending>, owners: map<Id, UploadId>, stage: Stage): State {
    State(files, map[], map[], map[], map[0 := Upload(None, [7], 1, stage)], sent, {0}, owners, 0, [])
  }

  lemma SampleCreated(hash: Hash)
    ensures CreateStep(BeginStep(EMPTY, 0, None, [7], 1), 0, 0) == Sample(map[0 := []], map[], map[0 := 0], Created(0))
  {
    assert BeginStep(EMPTY, 0, None, [7], 1) == Sample(map[], map[], map[], Admitted);
  }

  lemma SampleLost(hash: Hash)
    ensures LoseStep(SendStep(hash, WriteStep(Sample(map[0 := []], map[], map[0 := 0], Created(0)), 0), 0), 0)
         == Sample(map[0 := [7]], map[0 := Pending(0, Row(Some(hash([7])), 1, false, None))], map[0 := 0], Unsure(0))
  {
    var written := WriteStep(Sample(map[0 := []], map[], map[0 := 0], Created(0)), 0);
    assert written == Sample(map[0 := [7]], map[], map[0 := 0], Written(0));
  }

  lemma SentAndLost(hash: Hash) returns (acts: seq<Act>)
    ensures Run(true, hash, acts) == Sample(map[0 := [7]], map[0 := Pending(0, Row(Some(hash([7])), 1, false, None))],
            map[0 := 0], Unsure(0))
  {
    hide Run, BeginStep, CreateStep, WriteStep, SendStep, LoseStep, Sample;
    acts := [];
    StartSound(true, hash);
    acts := Snoc(true, hash, acts, Begin(0, None, [7], 1));
    acts := Snoc(true, hash, acts, Create(0, 0));
    acts := Snoc(true, hash, acts, Write(0));
    acts := Snoc(true, hash, acts, Send(0));
    acts := Snoc(true, hash, acts, Lose(0));
    SampleCreated(hash);
    SampleLost(hash);
  }

  /** If the database may decide after the readback, the file can be gone when the row appears. */
  lemma LateCommitLosesFile(hash: Hash) returns (acts: seq<Act>)
    ensures var s := Run(true, hash, acts);
            Downloadable(s, 0) && 0 !in s.files
  {
    hide Run;
    acts := SentAndLost(hash);
    acts := Snoc(true, hash, acts, Readback(0, true));
    acts := Snoc(true, hash, acts, Decide(0, true));
  }

  /** What a readback must satisfy before the call: the transaction is decided, or the database
      cannot be reached, so that nothing is removed. */
  predicate Timely(s: State, act: Act) {
    act.Readback? && act.upload in s.uploads && s.uploads[act.upload].stage.Unsure? ==>
        act.upload !in s.sent || !act.reachable
  }

  /** A readback keeps the files of undecided transactions exactly when it is timely. */
  lemma ReadbackExactly(hash: Hash, s: State, u: UploadId, reachable: bool)
    requires OwnerInv(s) && FileInv(hash, s)
    ensures var t := ReadbackStep(true, s, u, reachable);
            SentIntact(hash, t.files, t.sent) <==> Timely(s, Readback(u, reachable))
  {
    if u in s.uploads && s.uploads[u].stage.Unsure? {
      if u in s.sent && reachable {
        assert !Intact(hash, ReadbackStep(true, s, u, reachable).files, s.sent[u].id, s.sent[u].row);
      } else {
        TimelyKeeps(hash, s, Readback(u, reachable));
      }
    }
  }

  lemma TimelyKeeps(hash: Hash, s: State, act: Act)
    requires OwnerInv(s) && FileInv(hash, s) && Timely(s, act)
    ensures FileInv(hash, Perform(true, hash, s, act))
  {
    hide OwnerInv, FileInv, BeginStep, CreateStep, WriteStep, FailStep, DieStep, SendStep, DecideStep, ReplyStep,
      LoseStep,
      RemoveStep, MarkStep, SessionStep;
    if act.Readback? && act.upload in s.uploads && s.uploads[act.upload].stage.Unsure? && act.upload in s.sent {
      FileFrame(hash, s, Perform(true, hash, s, act));
    } else {
      FileKeeps(hash, s, act);
    }
  }

  ghost predicate AllTimely(hash: Hash, acts: seq<Act>) {
    forall k :: 0 <= k < |acts| ==> Timely(Run(true, hash, acts[..k]), acts[k])
  }

  lemma {:induction false} TimelyAlways(hash: Hash, acts: seq<Act>)
    requires AllTimely(hash, acts)
    ensures FileInv(hash, Run(true, hash, acts))
    decreases |acts|
  {
    hide Perform, OwnerInv, FileInv, SessionInv, Timely;
    if acts == [] {
      StartSound(true, hash);
    } else {
      var n := |acts| - 1;
      assert forall k :: 0 <= k < n ==> acts[..n][..k] == acts[..k] && acts[..n][k] == acts[k];
      TimelyAlways(hash, acts[..n]);
      Always(true, hash, acts[..n]);
      TimelyKeeps(hash, Run(true, hash, acts[..n]), acts[n]);
    }
  }

  /** Even if the database may decide late: a run whose readbacks were all timely leaves every
      downloadable artifact its file. */
  lemma TimelyRunsAreIntact(hash: Hash, acts: seq<Act>, id: Id)
    requires AllTimely(hash, acts)
    ensures var s := Run(true, hash, acts);
            Downloadable(s, id) ==> id in s.files && s.rows[id].digest == Some(hash(s.files[id]))
  {
    TimelyAlways(hash, acts);
  }

  /** And any other readback can lose one: if the transaction then commits before it expires, the
      artifact can be asked for and its file is gone. */
  lemma UntimelyReadbackLosesFile(hash: Hash, acts: seq<Act>, u: UploadId)
    requires var s := Run(true, hash, acts);
             u in s.uploads && s.uploads[u].stage.Unsure? && u in s.sent && s.sent[u].row.expires > s.now
               && !s.sent[u].row.purged
    ensures var s := Run(true, hash, acts);
            var t := Perform(true, hash, Perform(true, hash, s, Readback(u, true)), Decide(u, true));
            Downloadable(t, s.sent[u].id) && s.sent[u].id !in t.files
  {
    hide Run;
    Always(true, hash, acts);
    hide SessionInv, FileInv;
  }

  ghost predicate AlwaysIntact(late: bool, hash: Hash) {
    forall acts, id :: Downloadable(Run(late, hash, acts), id) ==>
        Intact(hash, Run(late, hash, acts).files, id, Run(late, hash, acts).rows[id])
  }

  /** Downloads are intact in every run exactly when a lost commit is decided by readback time. */
  lemma IntactExactly(late: bool, hash: Hash)
    ensures AlwaysIntact(late, hash) <==> !late
  {
    if late {
      var acts := LateCommitLosesFile(hash);
      assert Downloadable(Run(late, hash, acts), 0);
    } else {
      forall acts, id | Downloadable(Run(late, hash, acts), id)
        ensures Intact(hash, Run(late, hash, acts).files, id, Run(late, hash, acts).rows[id])
      {
        DownloadsAreIntact(hash, acts, id);
      }
    }
  }

  /** Retention never takes away what can be downloaded, and marks a row only after its file is gone. */
  lemma RetentionIsSafe(hash: Hash, acts: seq<Act>, act: Act, id: Id)
    requires act.Remove? || act.Mark?
    ensures var s, t := Run(false, hash, acts), Perform(false, hash, Run(false, hash, acts), act);
            && (Downloadable(s, id) <==> Downloadable(t, id))
            && (Downloadable(s, id) ==> id in t.files && t.files[id] == s.files[id])
            && (id in s.rows && !s.rows[id].purged && t.rows[id].purged ==> id !in t.files)
  {
    hide Run;
    Always(false, hash, acts);
    hide OwnerInv, SessionInv;
  }

  // --- the retention pass and downloads -------------------------------------------------------------------

  function Gone(candidates: seq<Id>, stuck: set<Id>): set<Id> {
    set i | 0 <= i < |candidates| && candidates[i] !in stuck :: candidates[i]
  }

  function Marked(rows: map<Id, Row>, gone: set<Id>): map<Id, Row> {
    map id | id in rows :: if id in gone then rows[id].(purged := true) else rows[id]
  }

  lemma OneMoreGone(candidates: seq<Id>, i: nat, stuck: set<Id>)
    requires i < |candidates| && forall j, k :: 0 <= j < k < |candidates| ==> candidates[j] != candidates[k]
    ensures Gone(candidates[..i + 1], stuck)
         == Gone(candidates[..i], stuck) + if candidates[i] in stuck then {} else {candidates[i]}
    ensures candidates[i] !in Gone(candidates[..i], stuck)
  {
    assert candidates[..i + 1] == candidates[..i] + [candidates[i]];
  }

  lemma OneMoreMarked(rows: map<Id, Row>, gone: set<Id>, id: Id)
    requires id in rows
    ensures id in Marked(rows, gone)
    ensures Marked(rows, gone)[id := Marked(rows, gone)[id].(purged := true)] == Marked(rows, gone + {id})
  {
  }

  class Store {
    var files: map<Id, Bytes>
    var rows: map<Id, Row>

    constructor ()
      ensures files == map[] && rows == map[]
    {
      files, rows := map[], map[];
    }

    /** One retention pass: `stuck` files cannot be removed and keep their rows. */
    method PurgeExpired(candidates: seq<Id>, stuck: set<Id>, now: nat) returns (purged: nat)
      requires forall i :: 0 <= i < |candidates| ==>
                candidates[i] in rows && !rows[candidates[i]].purged && rows[candidates[i]].expires <= now
      requires forall i, j :: 0 <= i < j < |candidates| ==> candidates[i] != candidates[j]
      modifies this
      ensures files == old(files) - Gone(candidates, stuck) && purged == |Gone(candidates, stuck)|
      ensures rows == Marked(old(rows), Gone(candidates, stuck))
    {
      purged := 0;
      assert Gone([], stuck) == {} && rows == Marked(rows, {});
      hide Gone, Marked;
      for i := 0 to |candidates|
        invariant files == old(files) - Gone(candidates[..i], stuck) && purged == |Gone(candidates[..i], stuck)|
        invariant rows == Marked(old(rows), Gone(candidates[..i], stuck))
      {
        var id := candidates[i];
        OneMoreGone(candidates, i, stuck);
        if id !in stuck {
          OneMoreMarked(old(rows), Gone(candidates[..i], stuck), id);
          files := files - {id};
          rows := rows[id := rows[id].(purged := true)];
          purged := purged + 1;
        }
      }
      assert candidates[..|candidates|] == candidates;
    }

    /** A download answers the file's bytes exactly when the row is in force, the file is there and a
        recorded digest, if there is one, is theirs. */
    method Download(hash: Hash, id: Id, now: nat) returns (r: Result<Bytes>)
      ensures r.Ok? <==>
                && id in rows && !rows[id].purged && rows[id].expires > now && id in files
                && (rows[id].digest.Some? ==> hash(files[id]) == rows[id].digest.value)
      ensures r.Ok? ==> r.value == files[id]
      ensures id in rows && !rows[id].purged && rows[id].expires > now && Intact(hash, files, id, rows[id]) ==>
                r == Ok(files[id])
    {
      if id !in rows || rows[id].purged || rows[id].expires <= now || id !in files {
        return Rejected("not found");
      }
      if rows[id].digest.Some? && hash(files[id]) != rows[id].digest.value {
        return Rejected("artifact checksum mismatch");
      }
      return Ok(files[id]);
    }
  }
}

/** Environment deployments: the fence that admits one unresolved deployment per environment and
    never lets an older pipeline take effect after a newer one. */
module DeploymentFence {
  import opened Prelude

  type EnvId = nat
  type Attempt = nat
  type TxId = nat
  type Images = map<string, string>

  /** `Running` is known to every query, but nothing modelled here enters it. */
  datatype Phase = Unprepared | Prepared | Running | Held | Finished

  /** What the live readback observed; `revision` is the installed release revision. */
  datatype Result = Deployed | Failed | NoEffect | Superseded

  datatype Observation = Observation(result: Result, revision: Option<int>)

  datatype Rollback = Rollback(revision: int, expectedCurrent: int, source: nat)

  datatype Offer = Offer(env: EnvId, order: int, attempt: Attempt, lease: nat, generation: int,
                         commit: string, images: Images, rollback: Option<Rollback>)

  /** One deployment; its id is its position in the append-only table. */
  datatype Row = Row(env: EnvId, rollbackOf: Option<nat>, phase: Phase, offer: Option<Offer>,
                     receipt: Option<Observation>, success: bool)

  predicate Unresolved(row: Row) {
    row.phase.Prepared? || row.phase.Running? || row.phase.Held?
  }

  /** The finished deployments that may have changed the environment. */
  predicate Effective(row: Row) {
    row.phase.Finished? && row.offer.Some? && row.receipt.Some?
      && (row.receipt.value.result.Deployed? || row.receipt.value.result.Failed?)
  }

  predicate Active(rows: seq<Row>, env: EnvId) {
    exists i :: 0 <= i < |rows| && rows[i].env == env && Unresolved(rows[i])
  }

  predicate AttemptUsed(rows: seq<Row>, attempt: Attempt) {
    exists i :: 0 <= i < |rows| && rows[i].offer.Some? && rows[i].offer.value.attempt == attempt
  }

  function Max(a: int, b: int): int {
    if a < b then b else a
  }

  function LatestOrder(rows: seq<Row>, env: EnvId): int {
    if rows == [] then 0
    else
      var row, rest := rows[|rows| - 1], LatestOrder(rows[..|rows| - 1], env);
      if row.env == env && Effective(row) then Max(rest, row.offer.value.order) else rest
  }

  function CurrentRevision(rows: seq<Row>, env: EnvId): int {
    if rows == [] then 0
    else
      var row, rest := rows[|rows| - 1], CurrentRevision(rows[..|rows| - 1], env);
      if row.env == env && Effective(row) && row.receipt.value.revision.Some?
        then Max(rest, row.receipt.value.revision.value) else rest
  }

  lemma {:induction false} LatestBounds(rows: seq<Row>, env: EnvId, i: nat)
    requires i < |rows| && rows[i].env == env && Effective(rows[i])
    ensures rows[i].offer.value.order <= LatestOrder(rows, env)
    ensures rows[i].receipt.value.revision.Some? ==> rows[i].receipt.value.revision.value <= CurrentRevision(rows, env)
    decreases |rows|
  {
    if i < |rows| - 1 {
      LatestBounds(rows[..|rows| - 1], env, i);
    }
  }

  lemma {:induction false} LatestAtMost(rows: seq<Row>, env: EnvId, order: int)
    requires order >= 0
    requires forall i :: 0 <= i < |rows| && rows[i].env == env && Effective(rows[i]) ==>
              rows[i].offer.value.order <= order
    ensures LatestOrder(rows, env) <= order
    decreases |rows|
  {
    if rows != [] {
      LatestAtMost(rows[..|rows| - 1], env, order);
    }
  }

  // --- preparation ------------------------------------------------------------------------------

  /** A claim for a deployment job.  `images` is what its producers published, if all of them did;
      `admitted` stands for approvals and the workspace session. */
  datatype Request = Request(env: EnvId, order: int, attempt: Attempt, lease: nat, generation: int, commit: string,
                             keys: set<string>, images: Option<Images>, requested: Option<nat>, admitted: bool)

  /** The owner-requested row this pipeline was triggered for, if it is of this environment. */
  function Target(rows: seq<Row>, req: Request): Option<nat> {
    if req.requested.Some? && req.requested.value < |rows| && rows[req.requested.value].env == req.env
    then req.requested else None
  }

  predicate Qualified(rows: seq<Row>, req: Request, source: nat) {
    && source < |rows| && rows[source].env == req.env && rows[source].success && rows[source].phase.Finished?
    && rows[source].offer.Some? && rows[source].receipt.Some? && rows[source].receipt.value.result.Deployed?
    && rows[source].receipt.value.revision.Some?
    && rows[source].offer.value.commit == req.commit && rows[source].offer.value.images.Keys == req.keys
  }

  predicate ValidOffer(o: Offer) {
    && o.order > 0 && o.generation > 0 && 0 < |o.images| <= 16
    && (o.rollback.Some? ==>
          o.rollback.value.revision > 0 && o.rollback.value.expectedCurrent >= o.rollback.value.revision)
  }

  /** Refused, superseded by a newer pipeline, or offered. */
  datatype Decision = Refuse | Stale | Grant(offer: Offer)

  function Drafted(rows: seq<Row>, req: Request): Option<Offer> {
    var target := Target(rows, req);
    var base := Offer(req.env, req.order, req.attempt, req.lease, req.generation, req.commit, map[], None);
    if target.Some? && rows[target.value].rollbackOf.Some? then
      var source := rows[target.value].rollbackOf.value;
      if Qualified(rows, req, source) then
        Some(base.(images := rows[source].offer.value.images,
                   rollback :=
                     Some(Rollback(rows[source].receipt.value.revision.value, CurrentRevision(rows, req.env), source))))
      else None
    else if req.images.Some? then Some(base.(images := req.images.value))
    else None
  }

  function Decide(rows: seq<Row>, req: Request): Decision {
    if !req.admitted || Active(rows, req.env) then Refuse
    else if req.order < LatestOrder(rows, req.env) then Stale
    else
      var offer := Drafted(rows, req);
      if offer.None? || !ValidOffer(offer.value) || AttemptUsed(rows, req.attempt) then Refuse else Grant(offer.value)
  }

  /** A requested row without an attempt is taken over, otherwise a new row is inserted. */
  function Written(rows: seq<Row>, req: Request, offer: Offer): seq<Row> {
    var target := Target(rows, req);
    if target.Some? && rows[target.value].offer.None? then
      rows[target.value := rows[target.value].(phase := Prepared, offer := Some(offer))]
    else
      rows + [Row(req.env, if target.Some? then rows[target.value].rollbackOf else None, Prepared, Some(offer), None,
        false)]
  }

  // --- completion and reconciliation --------------------------------------------------------------

  predicate Validates(o: Observation) {
    (o.revision.Some? ==> o.revision.value > 0) && (o.result.Deployed? ==> o.revision.Some?)
  }

  predicate Completes(rows: seq<Row>, i: nat, attempt: Attempt, lease: nat, generation: int, success: bool,
                      obs: Option<Observation>) {
    && i < |rows| && rows[i].offer.Some? && rows[i].offer.value.attempt == attempt
    && rows[i].offer.value.lease == lease && rows[i].offer.value.generation == generation
    && obs.Some? && Validates(obs.value) && (success ==> obs.value.result.Deployed?)
  }

  function FinishRow(row: Row, success: bool, obs: Observation): Row {
    row.(phase := Finished, receipt := Some(obs), success := success)
  }

  function HoldRow(row: Row, live: set<Attempt>): Row {
    if (row.phase.Prepared? || row.phase.Running?) && !(row.offer.Some? && row.offer.value.attempt in live)
    then row.(phase := Held) else row
  }

  function Reconciled(rows: seq<Row>, live: set<Attempt>): (r: seq<Row>)
    ensures |r| == |rows| && forall i :: 0 <= i < |rows| ==> r[i] == HoldRow(rows[i], live)
  {
    seq(|rows|, i requires 0 <= i < |rows| => HoldRow(rows[i], live))
  }

  // --- racing transactions ------------------------------------------------------------------------

  datatype Tx = Closed | Locked(req: Request) | Granted(req: Request, offer: Offer)

  datatype Effect = Effect(env: EnvId, order: int, row: nat)

  /** `locks` are the environment row locks; `effects` is the history of effective finishes. */
  datatype State = State(rows: seq<Row>, locks: map<EnvId, TxId>, txs: map<TxId, Tx>, effects: seq<Effect>)

  datatype Act =
    | Ask(env: EnvId, rollbackOf: Option<nat>)
    | Lock(tx: TxId, req: Request)
    | Look(tx: TxId)
    | Commit(tx: TxId)
    | Abort(tx: TxId)
    | Reconcile(live: set<Attempt>)
    | Finish(row: nat, attempt: Attempt, lease: nat, generation: int, success: bool, obs: Option<Observation>)

  function TxOf(s: State, tx: TxId): Tx {
    if tx in s.txs then s.txs[tx] else Closed
  }

  function Release(s: State, tx: TxId): State {
    s.(locks := map env | env in s.locks && s.locks[env] != tx :: s.locks[env], txs := s.txs[tx := Closed])
  }

  function LookStep(s: State, tx: TxId): State {
    var t := TxOf(s, tx);
    if !t.Locked? then s
    else
      var d := Decide(s.rows, t.req);
      if d.Grant? then s.(txs := s.txs[tx := Granted(t.req, d.offer)]) else Release(s, tx)
  }

  /** The unique attempt index refuses a second row for one attempt. */
  function CommitStep(s: State, tx: TxId): State {
    var t := TxOf(s, tx);
    if !t.Granted? then s
    else if AttemptUsed(s.rows, t.offer.attempt) then Release(s, tx)
    else Release(s, tx).(rows := Written(s.rows, t.req, t.offer))
  }

  /** Nothing in a completion asks whether the row was finished before. */
  function FinishStep(s: State, i: nat, attempt: Attempt, lease: nat, generation: int, success: bool,
                      obs: Option<Observation>): State {
    if !Completes(s.rows, i, attempt, lease, generation, success, obs) then s
    else
      var row := FinishRow(s.rows[i], success, obs.value);
      s.(rows := s.rows[i := row],
         effects := if Effective(row) then s.effects + [Effect(row.env, row.offer.value.order, i)] else s.effects)
  }

  function Perform(s: State, act: Act): State {
    match act
    case Ask(env, rollbackOf) => s.(rows := s.rows + [Row(env, rollbackOf, Unprepared, None, None, false)])
    case Lock(tx, req) =>
      if TxOf(s, tx).Closed? && req.env !in s.locks
        then s.(locks := s.locks[req.env := tx], txs := s.txs[tx := Locked(req)]) else s
    case Look(tx) => LookStep(s, tx)
    case Commit(tx) => CommitStep(s, tx)
    case Abort(tx) => Release(s, tx)
    case Reconcile(live) => s.(rows := Reconciled(s.rows, live))
    case Finish(i, attempt, lease, generation, success, obs) => FinishStep(s, i, attempt, lease, generation, success,
      obs)
  }

  const EMPTY := State([], map[], map[], [])

  function Run(acts: seq<Act>): State {
    if acts == [] then EMPTY else Perform(Run(acts[..|acts| - 1]), acts[|acts| - 1])
  }

  // --- what every step keeps ------------------------------------------------------------------------

  ghost predicate OneUnresolved(rows: seq<Row>) {
    forall i, j :: 0 <= i < j < |rows| && Unresolved(rows[i]) && Unresolved(rows[j]) ==> rows[i].env != rows[j].env
  }

  ghost predicate AttemptsDiffer(rows: seq<Row>) {
    forall i, j :: 0 <= i < j < |rows| && rows[i].offer.Some? && rows[j].offer.Some? ==>
      rows[i].offer.value.attempt != rows[j].offer.value.attempt
  }

  predicate RowSound(row: Row) {
    && (row.phase.Unprepared? <==> row.offer.None?)
    && (row.offer.Some? ==> row.offer.value.env == row.env && ValidOffer(row.offer.value))
    && (row.phase.Finished? ==> row.receipt.Some? && Validates(row.receipt.value))
    && (row.success ==> row.phase.Finished? && row.receipt.value.result.Deployed?)
  }

  ghost predicate RowsSound(rows: seq<Row>) {
    forall i :: 0 <= i < |rows| ==> RowSound(rows[i])
  }

  /** A rollback reinstalls images and revision of an earlier successful deployment of the environment. */
  predicate RollbackSound(rows: seq<Row>, o: Offer) {
    o.rollback.Some? ==>
      var source := o.rollback.value.source;
      && source < |rows| && rows[source].env == o.env && rows[source].success && rows[source].phase.Finished?
        && Effective(rows[source])
      && rows[source].offer.value.images == o.images && rows[source].offer.value.commit == o.commit
      && rows[source].receipt.value.revision == Some(o.rollback.value.revision)
  }

  ghost predicate RollbacksSound(rows: seq<Row>) {
    forall i :: 0 <= i < |rows| && rows[i].offer.Some? ==> RollbackSound(rows, rows[i].offer.value)
  }

  /** Every effect is still on record. */
  predicate EffectOnRecord(rows: seq<Row>, e: Effect) {
    e.row < |rows| && rows[e.row].env == e.env && Effective(rows[e.row]) && rows[e.row].offer.value.order == e.order
  }

  ghost predicate EffectsOnRecord(rows: seq<Row>, effects: seq<Effect>) {
    forall k :: 0 <= k < |effects| ==> EffectOnRecord(rows, effects[k])
  }

  ghost predicate NotBehind(effects: seq<Effect>, env: EnvId, order: int) {
    forall k :: 0 <= k < |effects| && effects[k].env == env ==> effects[k].order <= order
  }

  ghost predicate Ascending(effects: seq<Effect>) {
    forall j, k :: 0 <= j < k < |effects| && effects[j].env == effects[k].env ==> effects[j].order <= effects[k].order
  }

  ghost predicate UnresolvedNotBehind(rows: seq<Row>, effects: seq<Effect>) {
    forall i :: 0 <= i < |rows| && Unresolved(rows[i]) && rows[i].offer.Some? ==>
        NotBehind(effects, rows[i].env, rows[i].offer.value.order)
  }

  /** A transaction past its checks still sees the environment it checked. */
  ghost predicate GrantSound(rows: seq<Row>, effects: seq<Effect>, req: Request, o: Offer) {
    && o.env == req.env && ValidOffer(o) && RollbackSound(rows, o)
    && !Active(rows, req.env) && NotBehind(effects, req.env, o.order)
  }

  ghost predicate TxSound(s: State, tx: TxId, t: Tx) {
    match t
    case Closed => true
    case Locked(req) => req.env in s.locks && s.locks[req.env] == tx
    case Granted(req, o) => req.env in s.locks && s.locks[req.env] == tx && GrantSound(s.rows, s.effects, req, o)
  }

  ghost predicate Inv(s: State) {
    && OneUnresolved(s.rows) && AttemptsDiffer(s.rows) && RowsSound(s.rows) && RollbacksSound(s.rows)
    && EffectsOnRecord(s.rows, s.effects) && Ascending(s.effects) && UnresolvedNotBehind(s.rows, s.effects)
    && forall tx :: tx in s.txs ==> TxSound(s, tx, s.txs[tx])
  }

  lemma DraftSound(rows: seq<Row>, effects: seq<Effect>, req: Request)
    requires RowsSound(rows) && EffectsOnRecord(rows, effects) && Decide(rows, req).Grant?
    ensures GrantSound(rows, effects, req, Decide(rows, req).offer)
  {
    hide LatestOrder, CurrentRevision;
    forall k | 0 <= k < |effects| && effects[k].env == req.env
      ensures effects[k].order <= req.order
    {
      assert EffectOnRecord(rows, effects[k]);
      LatestBounds(rows, req.env, effects[k].row);
    }
  }

  /** Finished rows never change again. */
  ghost predicate Extends(rows: seq<Row>, more: seq<Row>) {
    |rows| <= |more| && forall i :: 0 <= i < |rows| && rows[i].phase.Finished? ==> more[i] == rows[i]
  }

  lemma ExtendsKeeps(rows: seq<Row>, more: seq<Row>, effects: seq<Effect>)
    requires Extends(rows, more)
    ensures EffectsOnRecord(rows, effects) ==> EffectsOnRecord(more, effects)
    ensures forall o :: RollbackSound(rows, o) ==> RollbackSound(more, o)
  {
    if EffectsOnRecord(rows, effects) {
      forall k | 0 <= k < |effects|
        ensures EffectOnRecord(more, effects[k])
      {
        assert EffectOnRecord(rows, effects[k]);
      }
    }
  }

  lemma AskKeeps(s: State, act: Act)
    requires Inv(s) && act.Ask?
    ensures Inv(Perform(s, act))
  {
    var t := Perform(s, act);
    assert forall i :: 0 <= i < |s.rows| ==> t.rows[i] == s.rows[i];
    ExtendsKeeps(s.rows, t.rows, s.effects);
    hide RollbackSound, EffectOnRecord, ValidOffer, NotBehind;
    assert forall env :: Active(t.rows, env) ==> Active(s.rows, env);
    assert forall tx :: tx in t.txs ==> TxSound(s, tx, t.txs[tx]);
  }

  lemma LocksKeep(s: State, act: Act)
    requires Inv(s) && (act.Lock? || act.Look? || act.Abort?)
    ensures Inv(Perform(s, act))
  {
    hide GrantSound, Decide, OneUnresolved, RollbacksSound, AttemptsDiffer, UnresolvedNotBehind, Ascending;
    if act.Look? && TxOf(s, act.tx).Locked? && Decide(s.rows, TxOf(s, act.tx).req).Grant? {
      DraftSound(s.rows, s.effects, TxOf(s, act.tx).req);
    }
  }

  lemma WrittenExtends(rows: seq<Row>, req: Request, o: Offer)
    requires RowsSound(rows)
    ensures Extends(rows, Written(rows, req, o))
    ensures var more := Written(rows, req, o);
            && |more| > 0
            && exists at :: 0 <= at < |more| && WrittenAt(rows, more, at, req, o)
  {
    var target := Target(rows, req);
    var at := if target.Some? && rows[target.value].offer.None? then target.value else |rows|;
    assert target.Some? ==> RowSound(rows[target.value]);
    assert WrittenAt(rows, Written(rows, req, o), at, req, o);
  }

  /** `at` is the one row a commit wrote; every other row is as before. */
  ghost predicate WrittenAt(rows: seq<Row>, more: seq<Row>, at: int, req: Request, o: Offer) {
    && |rows| <= |more| <= |rows| + 1 && 0 <= at < |more|
    && (at < |rows| ==> rows[at].phase.Unprepared? && !rows[at].success)
    && (|more| > |rows| ==> at == |rows|)
    && more[at].phase.Prepared? && more[at].offer == Some(o) && more[at].env == req.env && !more[at].success
    && forall i :: 0 <= i < |rows| && i != at ==> more[i] == rows[i]
  }

  lemma CommitRows(rows: seq<Row>, more: seq<Row>, at: int, s: State, req: Request, o: Offer)
    requires Inv(s) && rows == s.rows && WrittenAt(rows, more, at, req, o) && Extends(rows, more)
    requires GrantSound(rows, s.effects, req, o) && !AttemptUsed(rows, o.attempt)
    ensures OneUnresolved(more) && AttemptsDiffer(more) && RowsSound(more) && RollbacksSound(more)
    ensures EffectsOnRecord(more, s.effects) && UnresolvedNotBehind(more, s.effects)
  {
    hide ValidOffer, Effective, NotBehind, TxSound, RollbackSound, EffectOnRecord;
    ExtendsKeeps(rows, more, s.effects);
    forall i | 0 <= i < |rows| && Unresolved(rows[i])
      ensures rows[i].env != req.env
    {
    }
    assert forall i :: 0 <= i < |more| && i != at ==> i < |rows| && more[i] == rows[i];
  }

  lemma OthersKeep(rows: seq<Row>, more: seq<Row>, at: int, effects: seq<Effect>, req: Request, o: Offer,
                   other: Request, p: Offer)
    requires WrittenAt(rows, more, at, req, o) && Extends(rows, more) && other.env != req.env
    requires GrantSound(rows, effects, other, p)
    ensures GrantSound(more, effects, other, p)
  {
    ExtendsKeeps(rows, more, effects);
  }

  lemma CommitKeeps(s: State, tx: TxId)
    requires Inv(s)
    ensures Inv(CommitStep(s, tx))
  {
    var t := TxOf(s, tx);
    if t.Granted? && !AttemptUsed(s.rows, t.offer.attempt) {
      var more := Written(s.rows, t.req, t.offer);
      WrittenExtends(s.rows, t.req, t.offer);
      var at :| 0 <= at < |more| && WrittenAt(s.rows, more, at, t.req, t.offer);
      hide Written, WrittenAt, Extends, GrantSound;
      assert TxSound(s, tx, t);
      CommitRows(s.rows, more, at, s, t.req, t.offer);
      hide OneUnresolved, RollbacksSound, AttemptsDiffer, UnresolvedNotBehind, Ascending, RowsSound, EffectsOnRecord;
      var u := CommitStep(s, tx);
      forall x | x in u.txs
        ensures TxSound(u, x, u.txs[x])
      {
        if x != tx {
          assert TxSound(s, x, s.txs[x]);
          if s.txs[x].Granted? {
            OthersKeep(s.rows, more, at, s.effects, t.req, t.offer, s.txs[x].req, s.txs[x].offer);
          }
        }
      }
    } else if t.Granted? {
      LocksKeep(s, Abort(tx));
    }
  }

  lemma ReconcileKeeps(s: State, live: set<Attempt>)
    requires Inv(s)
    ensures Inv(s.(rows := Reconciled(s.rows, live)))
  {
    var more := Reconciled(s.rows, live);
    assert forall i :: 0 <= i < |more| ==> more[i] == HoldRow(s.rows[i], live);
    assert forall i :: 0 <= i < |more| ==>
        && more[i].env == s.rows[i].env && more[i].offer == s.rows[i].offer
        && (Unresolved(more[i]) <==> Unresolved(s.rows[i]));
    ExtendsKeeps(s.rows, more, s.effects);
    forall i | 0 <= i < |more|
      ensures RowSound(more[i])
    {
      assert RowSound(s.rows[i]);
    }
    hide HoldRow, Reconciled, RowSound, RollbackSound, EffectOnRecord, ValidOffer, NotBehind, Unresolved;
    assert forall env :: Active(more, env) ==> Active(s.rows, env);
    forall tx | tx in s.txs
      ensures TxSound(s.(rows := more), tx, s.txs[tx])
    {
      assert TxSound(s, tx, s.txs[tx]);
    }
  }

  lemma FinishRows(s: State, i: nat, success: bool, obs: Observation)
    requires Inv(s) && i < |s.rows| && s.rows[i].offer.Some? && Unresolved(s.rows[i]) && Validates(obs)
    requires (success ==> obs.result.Deployed?)
    ensures var more := s.rows[i := FinishRow(s.rows[i], success, obs)];
            && OneUnresolved(more) && AttemptsDiffer(more) && RowsSound(more) && RollbacksSound(more)
            && EffectsOnRecord(more, s.effects)
  {
    hide ValidOffer, Validates, NotBehind, TxSound, RollbackSound, EffectOnRecord;
    ExtendsKeeps(s.rows, s.rows[i := FinishRow(s.rows[i], success, obs)], s.effects);
    assert RowSound(s.rows[i]);
  }

  lemma FinishEffects(s: State, i: nat, success: bool, obs: Observation)
    requires Inv(s) && i < |s.rows| && s.rows[i].offer.Some? && Unresolved(s.rows[i])
    requires Effective(FinishRow(s.rows[i], success, obs))
    ensures var more := s.rows[i := FinishRow(s.rows[i], success, obs)];
            var effects := s.effects + [Effect(s.rows[i].env, s.rows[i].offer.value.order, i)];
            && EffectsOnRecord(more, effects) && Ascending(effects) && UnresolvedNotBehind(more, effects)
  {
    var more := s.rows[i := FinishRow(s.rows[i], success, obs)];
    var effects := s.effects + [Effect(s.rows[i].env, s.rows[i].offer.value.order, i)];
    ExtendsKeeps(s.rows, more, s.effects);
    hide RowsSound, RollbacksSound, TxSound, AttemptsDiffer;
    forall k | 0 <= k < |effects|
      ensures EffectOnRecord(more, effects[k])
    {
      if k < |s.effects| {
        assert EffectOnRecord(more, s.effects[k]);
      }
    }
    assert NotBehind(s.effects, s.rows[i].env, s.rows[i].offer.value.order);
    forall j | 0 <= j < |more| && Unresolved(more[j]) && more[j].offer.Some?
      ensures NotBehind(effects, more[j].env, more[j].offer.value.order)
    {
      assert j != i && more[j].env != s.rows[i].env;
      assert NotBehind(s.effects, more[j].env, more[j].offer.value.order);
    }
  }

  lemma FinishGrants(s: State, i: nat, row: Row, effects: seq<Effect>, req: Request, o: Offer)
    requires i < |s.rows| && s.rows[i].env == row.env && Unresolved(s.rows[i]) && GrantSound(s.rows, s.effects, req, o)
    requires !Unresolved(row)
    requires effects == s.effects
             || (row.offer.Some? && effects == s.effects + [Effect(row.env, row.offer.value.order, i)])
    ensures GrantSound(s.rows[i := row], effects, req, o)
  {
    assert row.env != req.env;
    ExtendsKeeps(s.rows, s.rows[i := row], s.effects);
  }

  /** An accepted completion finds its deployment unresolved. */
  predicate Resolves(s: State, act: Act) {
    act.Finish? && Completes(s.rows, act.row, act.attempt, act.lease, act.generation, act.success, act.obs) ==>
      Unresolved(s.rows[act.row])
  }

  lemma FinishKeeps(s: State, i: nat, attempt: Attempt, lease: nat, generation: int, success: bool,
                    obs: Option<Observation>)
    requires Inv(s) && Resolves(s, Finish(i, attempt, lease, generation, success, obs))
    ensures Inv(FinishStep(s, i, attempt, lease, generation, success, obs))
  {
    if Completes(s.rows, i, attempt, lease, generation, success, obs) {
      FinishRows(s, i, success, obs.value);
      var row := FinishRow(s.rows[i], success, obs.value);
      var t := FinishStep(s, i, attempt, lease, generation, success, obs);
      if Effective(row) {
        FinishEffects(s, i, success, obs.value);
      }
      hide GrantSound, OneUnresolved, RollbacksSound, AttemptsDiffer, Ascending, RowsSound, EffectsOnRecord;
      forall x | x in s.txs
        ensures TxSound(t, x, s.txs[x])
      {
        assert TxSound(s, x, s.txs[x]);
        if s.txs[x].Granted? {
          FinishGrants(s, i, row, t.effects, s.txs[x].req, s.txs[x].offer);
        }
      }
    }
  }

  lemma StepKeeps(s: State, act: Act)
    requires Inv(s) && Resolves(s, act)
    ensures Inv(Perform(s, act))
  {
    hide Inv, FinishStep, CommitStep, Reconciled, LookStep, Release, Resolves;
    match act {
      case Ask(_, _) => AskKeeps(s, act);
      case Commit(tx) => CommitKeeps(s, tx);
      case Reconcile(live) => ReconcileKeeps(s, live);
      case Finish(i, attempt, lease, generation, success, obs) => FinishKeeps(s, i, attempt, lease, generation,
        success, obs);
      case _ => LocksKeep(s, act);
    }
  }

  /** Every accepted completion of the run finds its deployment unresolved. */
  ghost predicate Resolving(acts: seq<Act>) {
    forall k :: 0 <= k < |acts| ==> Resolves(Run(acts[..k]), acts[k])
  }

  lemma ResolvingFront(acts: seq<Act>)
    requires Resolving(acts) && acts != []
    ensures Resolving(acts[..|acts| - 1]) && Resolves(Run(acts[..|acts| - 1]), acts[|acts| - 1])
  {
    hide Run, Resolves;
    var front := acts[..|acts| - 1];
    forall k | 0 <= k < |front|
      ensures Resolves(Run(front[..k]), front[k])
    {
      assert front[..k] == acts[..k] && front[k] == acts[k];
    }
  }

  lemma {:induction false} Always(acts: seq<Act>)
    requires Resolving(acts)
    ensures Inv(Run(acts))
    decreases |acts|
  {
    hide Perform, Inv, Resolves;
    if acts != [] {
      ResolvingFront(acts);
      hide Resolving;
      Always(acts[..|acts| - 1]);
      StepKeeps(Run(acts[..|acts| - 1]), acts[|acts| - 1]);
    } else {
      EmptySound();
    }
  }

  lemma EmptySound()
    ensures Inv(EMPTY)
  {
  }

  // --- one unresolved deployment, in every run ----------------------------------------------------

  /** The part of the invariant that repeated completions cannot break. */
  ghost predicate FenceInv(s: State) {
    && OneUnresolved(s.rows)
    && (forall i :: 0 <= i < |s.rows| ==> (s.rows[i].phase.Unprepared? <==> s.rows[i].offer.None?))
    && forall tx :: tx in s.txs ==> TxFenced(s, tx, s.txs[tx])
  }

  ghost predicate TxFenced(s: State, tx: TxId, t: Tx) {
    match t
    case Closed => true
    case Locked(req) => req.env in s.locks && s.locks[req.env] == tx
    case Granted(req, _) => req.env in s.locks && s.locks[req.env] == tx && !Active(s.rows, req.env)
  }

  /** Nothing becomes unresolved outside one environment. */
  ghost predicate UnresolvedOnlyIn(rows: seq<Row>, more: seq<Row>, env: EnvId) {
    && |rows| <= |more|
    && (forall i :: 0 <= i < |rows| ==> more[i].env == rows[i].env)
    && (forall i :: 0 <= i < |more| && Unresolved(more[i]) && more[i].env != env ==> i < |rows| && Unresolved(rows[i]))
  }

  lemma FenceCommit(s: State, tx: TxId)
    requires FenceInv(s)
    ensures FenceInv(CommitStep(s, tx))
  {
    hide AttemptUsed;
    var t := TxOf(s, tx);
    if t.Granted? {
      assert TxFenced(s, tx, t);
      var u := CommitStep(s, tx);
      assert UnresolvedOnlyIn(s.rows, u.rows, t.req.env);
      assert OneUnresolved(u.rows);
      forall x | x in u.txs
        ensures TxFenced(u, x, u.txs[x])
      {
        if x != tx {
          assert TxFenced(s, x, s.txs[x]);
        }
      }
    }
  }

  /** Steps that make no deployment unresolved keep the fence. */
  lemma FenceFrame(s: State, t: State)
    requires FenceInv(s) && |t.rows| >= |s.rows|
    requires forall i :: 0 <= i < |t.rows| ==> (t.rows[i].phase.Unprepared? <==> t.rows[i].offer.None?)
    requires forall i :: 0 <= i < |t.rows| && Unresolved(t.rows[i]) ==>
              i < |s.rows| && Unresolved(s.rows[i]) && t.rows[i].env == s.rows[i].env
    requires t.txs == s.txs && t.locks == s.locks
    ensures FenceInv(t)
  {
    hide Unresolved;
    forall x | x in t.txs
      ensures TxFenced(t, x, t.txs[x])
    {
      assert TxFenced(s, x, s.txs[x]);
    }
  }

  lemma FenceLocks(s: State, act: Act)
    requires FenceInv(s) && (act.Lock? || act.Look? || act.Abort?)
    ensures FenceInv(Perform(s, act))
  {
    hide OneUnresolved, Drafted, ValidOffer, LatestOrder, AttemptUsed;
  }

  lemma FenceKeeps(s: State, act: Act)
    requires FenceInv(s)
    ensures FenceInv(Perform(s, act))
  {
    hide FenceInv, LookStep, Release, CommitStep;
    match act {
      case Ask(_, _) => FenceAsk(s, act);
      case Commit(tx) => FenceCommit(s, tx);
      case Reconcile(live) => FenceReconcile(s, live);
      case Finish(i, attempt, lease, generation, success, obs) => FenceFinish(s, i, attempt, lease, generation,
        success, obs);
      case _ => FenceLocks(s, act);
    }
  }

  lemma FenceAsk(s: State, act: Act)
    requires FenceInv(s) && act.Ask?
    ensures FenceInv(Perform(s, act))
  {
    FenceFrame(s, Perform(s, act));
  }

  lemma FenceReconcile(s: State, live: set<Attempt>)
    requires FenceInv(s)
    ensures FenceInv(s.(rows := Reconciled(s.rows, live)))
  {
    FenceFrame(s, s.(rows := Reconciled(s.rows, live)));
  }

  lemma FenceFinish(s: State, i: nat, attempt: Attempt, lease: nat, generation: int, success: bool,
                    obs: Option<Observation>)
    requires FenceInv(s)
    ensures FenceInv(FinishStep(s, i, attempt, lease, generation, success, obs))
  {
    FenceFrame(s, FinishStep(s, i, attempt, lease, generation, success, obs));
  }

  lemma {:induction false} FenceAlways(acts: seq<Act>)
    ensures FenceInv(Run(acts))
    decreases |acts|
  {
    hide Perform;
    if acts != [] {
      hide FenceInv;
      FenceAlways(acts[..|acts| - 1]);
      FenceKeeps(Run(acts[..|acts| - 1]), acts[|acts| - 1]);
    }
  }

  // --- results ------------------------------------------------------------------------------------

  /** However preparations, lease losses and completions race, repeated completions included, an
      environment never has two unresolved deployments. */
  lemma OneUnresolvedAlways(acts: seq<Act>, i: nat, j: nat)
    ensures var s := Run(acts);
            i < j < |s.rows| && s.rows[i].env == s.rows[j].env ==> !(Unresolved(s.rows[i]) && Unresolved(s.rows[j]))
  {
    FenceAlways(acts);
  }

  /** While every accepted completion finds its deployment unresolved, effects follow pipeline order. */
  lemma FenceHolds(acts: seq<Act>, i: nat, j: nat)
    requires Resolving(acts)
    ensures var s := Run(acts);
            && (i < j < |s.rows| && s.rows[i].env == s.rows[j].env ==>
                  !(Unresolved(s.rows[i]) && Unresolved(s.rows[j])))
            && (i < j < |s.effects| && s.effects[i].env == s.effects[j].env ==>
                  s.effects[i].order <= s.effects[j].order)
  {
    Always(acts);
  }

  /** Every effect stays on record, and while a deployment is unresolved it is at least as new as
      every effect its environment has had. */
  lemma EffectsStayOnRecord(acts: seq<Act>, k: nat, i: nat)
    requires Resolving(acts)
    ensures var s := Run(acts);
            k < |s.effects| ==>
              && EffectOnRecord(s.rows, s.effects[k])
              && (i < |s.rows| && Unresolved(s.rows[i]) && s.rows[i].env == s.effects[k].env ==>
                    s.rows[i].offer.Some? && s.effects[k].order <= s.rows[i].offer.value.order)
  {
    Always(acts);
    var s := Run(acts);
    if i < |s.rows| && Unresolved(s.rows[i]) {
      assert RowSound(s.rows[i]);
      assert NotBehind(s.effects, s.rows[i].env, s.rows[i].offer.value.order);
    }
  }

  /** A rollback reinstalls exactly the images, commit and revision of an earlier successful
      deployment of its own environment, and never one newer than the release it replaces. */
  lemma RollbackRestores(acts: seq<Act>, i: nat)
    requires Resolving(acts)
    ensures var s := Run(acts);
            i < |s.rows| && s.rows[i].offer.Some? && s.rows[i].offer.value.rollback.Some? ==>
              var rollback := s.rows[i].offer.value.rollback.value;
              RollbackSound(s.rows, s.rows[i].offer.value) && 0 < rollback.revision <= rollback.expectedCurrent
  {
    Always(acts);
    var s := Run(acts);
    if i < |s.rows| && s.rows[i].offer.Some? {
      assert RowSound(s.rows[i]);
    }
  }

  /** A qualified rollback is never refused for its revisions. */
  lemma QualifiedRollbackIsValid(acts: seq<Act>, req: Request, source: nat)
    requires Resolving(acts)
    ensures var rows := Run(acts).rows;
            Qualified(rows, req, source) ==>
                0 < rows[source].receipt.value.revision.value <= CurrentRevision(rows, req.env)
  {
    Always(acts);
    var s := Run(acts);
    if Qualified(s.rows, req, source) {
      assert RowSound(s.rows[source]);
      LatestBounds(s.rows, req.env, source);
    }
  }

  /** In every run only a completion resolves a deployment (losing the lease does not), and a finished
      deployment changes only by another completion of its attempt. */
  lemma OnlyCompletionResolves(acts: seq<Act>, act: Act, i: nat)
    ensures var s, t := Run(acts), Perform(Run(acts), act);
            i < |s.rows| ==>
              && i < |t.rows|
              && (Unresolved(s.rows[i]) && !Unresolved(t.rows[i]) ==>
                    act.Finish? && act.row == i && t.rows[i].phase.Finished?)
              && (s.rows[i].phase.Finished? && t.rows[i] != s.rows[i] ==>
                    act.Finish? && act.row == i && !Resolves(s, act))
  {
    hide Run, LatestOrder, CurrentRevision, OneUnresolved, AttemptUsed;
    FenceAlways(acts);
  }

  // --- completions and pipeline order ---------------------------------------------------------------

  /** What an accepted completion must satisfy before the call: it records no effect, or one that is
      not behind the environment's effects so far. */
  ghost predicate KeepsOrder(s: State, act: Act) {
    act.Finish? && Completes(s.rows, act.row, act.attempt, act.lease, act.generation, act.success, act.obs)
    && (act.obs.value.result.Deployed? || act.obs.value.result.Failed?) ==>
      NotBehind(s.effects, s.rows[act.row].env, s.rows[act.row].offer.value.order)
  }

  /** One step keeps the order exactly when it satisfies that. */
  lemma StepOrderedExactly(s: State, act: Act)
    requires Ascending(s.effects)
    ensures Ascending(Perform(s, act).effects) <==> KeepsOrder(s, act)
  {
    hide LookStep, CommitStep, Release, Reconciled;
    if act.Finish? && Completes(s.rows, act.row, act.attempt, act.lease, act.generation, act.success, act.obs) {
      var row := FinishRow(s.rows[act.row], act.success, act.obs.value);
      AppendAscends(s.effects, Effect(row.env, row.offer.value.order, act.row));
    } else {
      EffectsSame(s, act);
    }
  }

  lemma AppendAscends(effects: seq<Effect>, e: Effect)
    requires Ascending(effects)
    ensures Ascending(effects + [e]) <==> NotBehind(effects, e.env, e.order)
  {
    var more := effects + [e];
    if Ascending(more) {
      forall k | 0 <= k < |effects| && effects[k].env == e.env
        ensures effects[k].order <= e.order
      {
        assert more[k] == effects[k] && more[|effects|] == e;
      }
    }
  }

  lemma EffectsSame(s: State, act: Act)
    requires !(act.Finish? && Completes(s.rows, act.row, act.attempt, act.lease, act.generation, act.success, act.obs))
    ensures Perform(s, act).effects == s.effects
  {
  }

  lemma EffectsGrow(s: State, act: Act)
    ensures s.effects <= Perform(s, act).effects
  {
    if !(act.Finish? && Completes(s.rows, act.row, act.attempt, act.lease, act.generation, act.success, act.obs)) {
      EffectsSame(s, act);
    }
  }

  ghost predicate KeepingOrder(acts: seq<Act>) {
    forall k :: 0 <= k < |acts| ==> KeepsOrder(Run(acts[..k]), acts[k])
  }

  /** On the code as it is: the effects of a run follow pipeline order exactly when every accepted
      completion in it kept the order. */
  lemma {:induction false} OrderedExactly(acts: seq<Act>)
    ensures Ascending(Run(acts).effects) <==> KeepingOrder(acts)
    decreases |acts|
  {
    hide Perform, KeepsOrder;
    if acts != [] {
      var n := |acts| - 1;
      var front := acts[..n];
      OrderedExactly(front);
      assert forall k :: 0 <= k < n ==> front[..k] == acts[..k] && front[k] == acts[k];
      EffectsGrow(Run(front), acts[n]);
      if Ascending(Run(front).effects) {
        StepOrderedExactly(Run(front), acts[n]);
      }
    }
  }

  /** Completions that find their deployments unresolved keep the order. */
  lemma ResolvingKeepsOrder(acts: seq<Act>)
    requires Resolving(acts)
    ensures KeepingOrder(acts)
  {
    Always(acts);
    OrderedExactly(acts);
  }

  // --- the order as the table tells it --------------------------------------------------------------

  ghost predicate EffectiveListed(rows: seq<Row>, effects: seq<Effect>) {
    forall i :: 0 <= i < |rows| && Effective(rows[i]) ==> exists k :: 0 <= k < |effects| && effects[k].row == i
  }

  predicate OrderPositive(offer: Option<Offer>) {
    offer.Some? ==> offer.value.order > 0
  }

  /** The table shows exactly the effects there were. */
  ghost predicate RecordInv(s: State) {
    && EffectsOnRecord(s.rows, s.effects) && EffectiveListed(s.rows, s.effects)
    && (forall i :: 0 <= i < |s.rows| ==> OrderPositive(s.rows[i].offer))
    && (forall tx :: tx in s.txs && s.txs[tx].Granted? ==> s.txs[tx].offer.order > 0)
  }

  /** An accepted completion without effect of a deployment recorded as effective. */
  predicate Forgets(s: State, act: Act) {
    && act.Finish? && Completes(s.rows, act.row, act.attempt, act.lease, act.generation, act.success, act.obs)
    && Effective(s.rows[act.row]) && (act.obs.value.result.NoEffect? || act.obs.value.result.Superseded?)
  }

  /** While the table shows the effects, the query that preparation makes tells what is not behind them. */
  lemma QueryTellsOrder(s: State, env: EnvId, order: int)
    requires RecordInv(s) && order >= 0
    ensures NotBehind(s.effects, env, order) <==> LatestOrder(s.rows, env) <= order
  {
    if NotBehind(s.effects, env, order) {
      forall i | 0 <= i < |s.rows| && s.rows[i].env == env && Effective(s.rows[i])
        ensures s.rows[i].offer.value.order <= order
      {
        var k :| 0 <= k < |s.effects| && s.effects[k].row == i;
        assert EffectOnRecord(s.rows, s.effects[k]);
      }
      LatestAtMost(s.rows, env, order);
    }
    if LatestOrder(s.rows, env) <= order {
      forall k | 0 <= k < |s.effects| && s.effects[k].env == env
        ensures s.effects[k].order <= order
      {
        assert EffectOnRecord(s.rows, s.effects[k]);
        LatestBounds(s.rows, env, s.effects[k].row);
      }
    }
  }

  /** Steps that leave effective rows alone, and make no other row effective, keep the record. */
  lemma RecordFrame(s: State, t: State)
    requires RecordInv(s) && t.effects == s.effects && |s.rows| <= |t.rows|
    requires forall i :: 0 <= i < |s.rows| && Effective(s.rows[i]) ==> t.rows[i] == s.rows[i]
    requires forall i :: 0 <= i < |t.rows| && Effective(t.rows[i]) ==> i < |s.rows| && Effective(s.rows[i])
    requires forall i :: 0 <= i < |t.rows| ==> OrderPositive(t.rows[i].offer)
    requires forall tx :: tx in t.txs && t.txs[tx].Granted? ==> t.txs[tx].offer.order > 0
    ensures RecordInv(t)
  {
    hide Effective;
    forall k | 0 <= k < |t.effects|
      ensures EffectOnRecord(t.rows, t.effects[k])
    {
      assert EffectOnRecord(s.rows, s.effects[k]);
    }
  }

  lemma RecordOthers(s: State, act: Act)
    requires RecordInv(s) && !act.Finish?
    ensures RecordInv(Perform(s, act))
  {
    hide LatestOrder, CurrentRevision, AttemptUsed, Active, Drafted, EffectsOnRecord, EffectiveListed;
    RecordFrame(s, Perform(s, act));
  }

  lemma RecordFinish(s: State, act: Act)
    requires RecordInv(s) && !Forgets(s, act) && act.Finish?
    requires Completes(s.rows, act.row, act.attempt, act.lease, act.generation, act.success, act.obs)
    ensures RecordInv(Perform(s, act))
  {
    var t := Perform(s, act);
    if Effective(t.rows[act.row]) {
      forall k | 0 <= k < |t.effects|
        ensures EffectOnRecord(t.rows, t.effects[k])
      {
        if k < |s.effects| {
          assert EffectOnRecord(s.rows, s.effects[k]);
        }
      }
      forall i | 0 <= i < |t.rows| && Effective(t.rows[i])
        ensures exists k :: 0 <= k < |t.effects| && t.effects[k].row == i
      {
        if i == act.row {
          assert t.effects[|s.effects|].row == i;
        } else {
          var k :| 0 <= k < |s.effects| && s.effects[k].row == i;
          assert t.effects[k].row == i;
        }
      }
    } else {
      RecordFrame(s, t);
    }
  }

  /** A step keeps the table true to the effects exactly when it forgets none. */
  lemma RecordKeptExactly(s: State, act: Act)
    requires RecordInv(s)
    ensures RecordInv(Perform(s, act)) <==> !Forgets(s, act)
  {
    hide RecordInv;
    if Forgets(s, act) {
      ForgottenIsOffRecord(s, act);
    } else if act.Finish? {
      if Completes(s.rows, act.row, act.attempt, act.lease, act.generation, act.success, act.obs) {
        RecordFinish(s, act);
      }
    } else {
      RecordOthers(s, act);
    }
  }

  lemma ForgottenIsOffRecord(s: State, act: Act)
    requires RecordInv(s) && Forgets(s, act)
    ensures !RecordInv(Perform(s, act))
  {
    var k :| 0 <= k < |s.effects| && s.effects[k].row == act.row;
    assert !EffectOnRecord(Perform(s, act).rows, s.effects[k]);
  }

  ghost predicate Remembering(acts: seq<Act>) {
    forall k :: 0 <= k < |acts| ==> !Forgets(Run(acts[..k]), acts[k])
  }

  lemma {:induction false} RecordAlways(acts: seq<Act>, n: nat)
    requires Remembering(acts) && n <= |acts|
    ensures RecordInv(Run(acts[..n]))
  {
    hide Perform, RecordInv, Forgets;
    if n == 0 {
      EmptyRecord();
    } else {
      RecordAlways(acts, n - 1);
      assert acts[..n][..n - 1] == acts[..n - 1];
      RecordKeptExactly(Run(acts[..n - 1]), acts[n - 1]);
    }
  }

  lemma EmptyRecord()
    ensures RecordInv(Run([]))
  {
  }

  /** An accepted completion with effect passes the query that preparation makes. */
  predicate PassesQuery(s: State, act: Act) {
    act.Finish? && Completes(s.rows, act.row, act.attempt, act.lease, act.generation, act.success, act.obs)
    && (act.obs.value.result.Deployed? || act.obs.value.result.Failed?) ==>
      LatestOrder(s.rows, s.rows[act.row].env) <= s.rows[act.row].offer.value.order
  }

  lemma GuardIsQuery(s: State, act: Act)
    requires RecordInv(s)
    ensures KeepsOrder(s, act) <==> PassesQuery(s, act)
  {
    if act.Finish? && Completes(s.rows, act.row, act.attempt, act.lease, act.generation, act.success, act.obs) {
      assert OrderPositive(s.rows[act.row].offer);
      QueryTellsOrder(s, s.rows[act.row].env, s.rows[act.row].offer.value.order);
    }
  }

  ghost predicate PassingQueries(acts: seq<Act>) {
    forall k :: 0 <= k < |acts| ==> PassesQuery(Run(acts[..k]), acts[k])
  }

  /** On the table alone: in every run that forgets no effect, effects follow pipeline order exactly
      when every accepted completion with effect passes the query that preparation makes. */
  lemma OrderedByQueryExactly(acts: seq<Act>)
    requires Remembering(acts)
    ensures Ascending(Run(acts).effects) <==> PassingQueries(acts)
  {
    hide Run, Perform, KeepsOrder, PassesQuery, RecordInv, Ascending;
    OrderedExactly(acts);
    forall k | 0 <= k < |acts|
      ensures KeepsOrder(Run(acts[..k]), acts[k]) <==> PassesQuery(Run(acts[..k]), acts[k])
    {
      RecordAlways(acts, k);
      GuardIsQuery(Run(acts[..k]), acts[k]);
    }
  }

  // --- one completion per attempt -------------------------------------------------------------------

  ghost predicate Accepted(acts: seq<Act>, k: nat) {
    k < |acts| && acts[k].Finish? &&
    Completes(Run(acts[..k]).rows, acts[k].row, acts[k].attempt, acts[k].lease, acts[k].generation, acts[k].success,
      acts[k].obs)
  }

  /** One completion is accepted per attempt. */
  ghost predicate OncePerAttempt(acts: seq<Act>) {
    forall j, k :: 0 <= j < k && Accepted(acts, j) && Accepted(acts, k) ==> acts[j].attempt != acts[k].attempt
  }

  lemma AcceptedFront(acts: seq<Act>, n: nat, k: nat)
    requires k < n <= |acts|
    ensures Accepted(acts[..n], k) <==> Accepted(acts, k)
  {
    hide Run;
    assert acts[..n][..k] == acts[..k];
  }

  /** A finished row has an accepted completion behind it. */
  lemma {:induction false} FinishedByCompletion(acts: seq<Act>, i: nat) returns (k: nat)
    requires i < |Run(acts).rows| && Run(acts).rows[i].phase.Finished?
    ensures Accepted(acts, k) && Run(acts).rows[i].offer.Some?
    ensures acts[k].attempt == Run(acts).rows[i].offer.value.attempt
    decreases |acts|
  {
    hide Perform, Run, LatestOrder, CurrentRevision, AttemptUsed;
    RunLast(acts);
    var n := |acts| - 1;
    var s, act := Run(acts[..n]), acts[n];
    FenceAlways(acts[..n]);
    if act.Finish? && act.row == i && Accepted(acts, n) {
      k := n;
      FinishTakes(s, act);
    } else {
      assert acts[..n + 1] == acts;
      assert !(act.Finish? && act.row == i
        && Completes(s.rows, i, act.attempt, act.lease, act.generation, act.success, act.obs));
      StaysAsBefore(s, act, i);
      k := FinishedByCompletion(acts[..n], i);
      AcceptedFront(acts, n, k);
    }
  }

  lemma RunLast(acts: seq<Act>)
    ensures acts == [] ==> Run(acts).rows == []
    ensures acts != [] ==> Run(acts) == Perform(Run(acts[..|acts| - 1]), acts[|acts| - 1])
  {
  }

  lemma FinishTakes(s: State, act: Act)
    requires act.Finish? && Completes(s.rows, act.row, act.attempt, act.lease, act.generation, act.success, act.obs)
    ensures Perform(s, act).rows[act.row].offer == s.rows[act.row].offer
  {
  }

  lemma StaysAsBefore(s: State, act: Act, i: nat)
    requires FenceInv(s) && i < |Perform(s, act).rows| && Perform(s, act).rows[i].phase.Finished?
    requires !(act.Finish? && act.row == i
             && Completes(s.rows, i, act.attempt, act.lease, act.generation, act.success, act.obs))
    ensures i < |s.rows| && Perform(s, act).rows[i] == s.rows[i]
  {
    hide LatestOrder, CurrentRevision, AttemptUsed, OneUnresolved;
  }

  /** Accepting one completion per attempt is enough for all of the above. */
  lemma OnceResolves(acts: seq<Act>)
    requires OncePerAttempt(acts)
    ensures Resolving(acts)
  {
    hide Perform, Run;
    forall k | 0 <= k < |acts|
      ensures Resolves(Run(acts[..k]), acts[k])
    {
      var s, act := Run(acts[..k]), acts[k];
      if Accepted(acts, k) {
        FenceAlways(acts[..k]);
        if s.rows[act.row].phase.Finished? {
          var j := FinishedByCompletion(acts[..k], act.row);
          AcceptedFront(acts, k, j);
        }
      }
    }
  }

  // --- runs that lose the order ---------------------------------------------------------------------

  lemma Snoc(acts: seq<Act>, act: Act) returns (more: seq<Act>)
    ensures Run(more) == Perform(Run(acts), act)
  {
    more := acts + [act];
    assert more[..|acts|] == acts;
  }

  function SampleOffer(order: int, attempt: Attempt): Offer {
    Offer(0, order, attempt, 0, 1, "", map["app" := "image"], None)
  }

  function SampleRow(order: int, attempt: Attempt, phase: Phase, receipt: Option<Observation>, success: bool): Row {
    Row(0, None, phase, Some(SampleOffer(order, attempt)), receipt, success)
  }

  function SampleRequest(order: int, attempt: Attempt): Request {
    Request(0, order, attempt, 0, 1, "", {"app"}, Some(map["app" := "image"]), None, true)
  }

  lemma Admitted(acts: seq<Act>, order: int, attempt: Attempt) returns (more: seq<Act>)
    requires var s := Run(acts);
             && s.locks == map[] && TxOf(s, 0).Closed? && order > 0
             && !Active(s.rows, 0) && !AttemptUsed(s.rows, attempt) && LatestOrder(s.rows, 0) <= order
    ensures var s, t := Run(acts), Run(more);
            && t.rows == s.rows + [SampleRow(order, attempt, Prepared, None, false)] && t.locks == map[]
            && TxOf(t, 0).Closed? && t.effects == s.effects
  {
    hide Run, LatestOrder, CurrentRevision, Active, AttemptUsed;
    var req := SampleRequest(order, attempt);
    assert |SampleOffer(order, attempt).images| == 1;
    assert Decide(Run(acts).rows, req) == Grant(SampleOffer(order, attempt));
    more := Snoc(acts, Lock(0, req));
    more := Snoc(more, Look(0));
    more := Snoc(more, Commit(0));
  }

  lemma FirstFinished(order: int, result: Result, revision: Option<int>) returns (acts: seq<Act>)
    requires order > 0 && Validates(Observation(result, revision))
    ensures var s := Run(acts);
            && s.rows == [SampleRow(order, 0, Finished, Some(Observation(result, revision)), false)]
            && s.locks == map[] && TxOf(s, 0).Closed?
            && s.effects == if result.Deployed? || result.Failed? then [Effect(0, order, 0)] else []
  {
    hide Run;
    acts := [];
    RunLast(acts);
    assert Run(acts) == EMPTY by { RunEmpty(); }
    acts := Admitted(acts, order, 0);
    acts := Snoc(acts, Finish(0, 0, 0, 1, false, Some(Observation(result, revision))));
  }

  lemma RunEmpty()
    ensures Run([]) == EMPTY
  {
  }

  lemma TwoDescend()
    ensures !Ascending([Effect(0, 2, 1), Effect(0, 1, 0)]) && !Ascending([Effect(0, 2, 0), Effect(0, 1, 1)])
  {
    var e, f := [Effect(0, 2, 1), Effect(0, 1, 0)], [Effect(0, 2, 0), Effect(0, 1, 1)];
    assert e[0].env == e[1].env && e[0].order > e[1].order;
    assert f[0].env == f[1].env && f[0].order > f[1].order;
  }

  /** An attempt that reported no effect may report a deployed release later, in the failed completion
      that the termination path accepts, after a newer pipeline has been deployed. */
  lemma RepeatedCompletionReorders() returns (acts: seq<Act>)
    ensures !Ascending(Run(acts).effects)
  {
    hide Run, Ascending, Decide;
    var deployed := Observation(Deployed, Some(1));
    acts := FirstFinished(1, NoEffect, None);
    acts := Admitted(acts, 2, 1);
    acts := Snoc(acts, Finish(1, 1, 0, 1, true, Some(deployed)));
    acts := Snoc(acts, Finish(0, 0, 0, 1, false, Some(deployed)));
    assert Run(acts).effects == [Effect(0, 2, 1), Effect(0, 1, 0)];
    TwoDescend();
  }

  /** The environment's other effective deployments have at most this order. */
  ghost predicate OthersAtMost(rows: seq<Row>, at: nat, order: int)
    requires at < |rows|
  {
    forall j :: 0 <= j < |rows| && j != at && rows[j].env == rows[at].env && Effective(rows[j]) ==>
      rows[j].offer.value.order <= order
  }

  /** A repeated completion without effect takes an effective deployment out of the aggregate the
      fence reads, so every pipeline not behind the other deployments is admitted again. */
  lemma RepeatedCompletionForgets(s: State, act: Act, order: int)
    requires Forgets(s, act) && order >= 0
    requires OthersAtMost(s.rows, act.row, order)
    ensures var t := Perform(s, act);
            t.effects == s.effects && !Effective(t.rows[act.row]) && LatestOrder(t.rows, s.rows[act.row].env) <= order
  {
    var t := Perform(s, act);
    LatestAtMost(t.rows, s.rows[act.row].env, order);
  }

  /** So an older pipeline takes effect after a newer one. */
  lemma ForgottenEffectReorders() returns (acts: seq<Act>)
    ensures !Ascending(Run(acts).effects)
  {
    hide Run, Ascending, Decide, LatestOrder;
    acts := FirstFinished(2, Deployed, Some(1));
    var again := Finish(0, 0, 0, 1, false, Some(Observation(NoEffect, None)));
    RepeatedCompletionForgets(Run(acts), again, 1);
    acts := Snoc(acts, again);
    assert Run(acts).rows == [SampleRow(2, 0, Finished, Some(Observation(NoEffect, None)), false)];
    acts := Admitted(acts, 1, 1);
    acts := Snoc(acts, Finish(1, 1, 0, 1, true, Some(Observation(Deployed, Some(2)))));
    assert Run(acts).effects == [Effect(0, 2, 0), Effect(0, 1, 1)];
    TwoDescend();
  }

  /** Where effects were forgotten, no look at the table can decide: two runs end in the same rows, and one
      completion keeps the order of the first and breaks the order of the second. */
  lemma TableCannotTell() returns (acts: seq<Act>, others: seq<Act>, act: Act)
    ensures Run(acts).rows == Run(others).rows
    ensures Ascending(Run(acts).effects) && Ascending(Run(others).effects)
    ensures Ascending(Perform(Run(acts), act).effects) && !Ascending(Perform(Run(others), act).effects)
  {
    hide Run, Ascending, Decide, LatestOrder;
    var nothing := Observation(NoEffect, None);
    acts := FirstFinished(2, NoEffect, None);
    others := FirstFinished(2, Deployed, Some(1));
    others := Snoc(others, Finish(0, 0, 0, 1, false, Some(nothing)));
    assert Run(others).rows == [SampleRow(2, 0, Finished, Some(nothing), false)];
    LatestAtMost(Run(acts).rows, 0, 1);
    acts := Admitted(acts, 1, 1);
    others := Admitted(others, 1, 1);
    act := Finish(1, 1, 0, 1, true, Some(Observation(Deployed, Some(2))));
    assert Perform(Run(acts), act).effects == [Effect(0, 1, 1)];
    assert Perform(Run(others), act).effects == [Effect(0, 2, 0), Effect(0, 1, 1)];
    FewAscend(Effect(0, 1, 1));
    FewAscend(Effect(0, 2, 0));
    TwoDescend();
  }

  lemma FewAscend(e: Effect)
    ensures Ascending([]) && Ascending([e])
  {
  }

  // --- the handlers -------------------------------------------------------------------------------

  class Deployments {
    var rows: seq<Row>

    constructor ()
      ensures rows == []
    {
      rows := [];
    }

    /** The two aggregate queries behind the fence. */
    method Fence(env: EnvId, attempt: Attempt) returns (active: bool, latest: int, current: int, used: bool)
      ensures active <==> Active(rows, env)
      ensures latest == LatestOrder(rows, env) && current == CurrentRevision(rows, env)
      ensures used <==> AttemptUsed(rows, attempt)
    {
      active, latest, current, used := false, 0, 0, false;
      for i := 0 to |rows|
        invariant active <==> Active(rows[..i], env)
        invariant used <==> AttemptUsed(rows[..i], attempt)
        invariant latest == LatestOrder(rows[..i], env) && current == CurrentRevision(rows[..i], env)
      {
        var row := rows[i];
        assert rows[..i + 1][..i] == rows[..i] && rows[..i + 1][i] == row;
        if row.env == env && Unresolved(row) {
          active := true;
        }
        if row.offer.Some? && row.offer.value.attempt == attempt {
          used := true;
        }
        if row.env == env && Effective(row) {
          latest := Max(latest, row.offer.value.order);
          if row.receipt.value.revision.Some? {
            current := Max(current, row.receipt.value.revision.value);
          }
        }
      }
      assert rows[..|rows|] == rows;
    }

    /** One preparation under the environment lock: lock, look and commit of the machine in a row. */
    method Prepare(req: Request) returns (decision: Decision)
      modifies this
      ensures decision == Decide(old(rows), req)
      ensures rows == if decision.Grant? then Written(old(rows), req, decision.offer) else old(rows)
    {
      var active, latest, current, used := Fence(req.env, req.attempt);
      if !req.admitted || active {
        return Refuse;
      }
      if req.order < latest {
        return Stale;
      }
      var target := Target(rows, req);
      var images, rollback := req.images, None;
      if target.Some? && rows[target.value].rollbackOf.Some? {
        var source := rows[target.value].rollbackOf.value;
        if !Qualified(rows, req, source) {
          return Refuse;
        }
        images := Some(rows[source].offer.value.images);
        rollback := Some(Rollback(rows[source].receipt.value.revision.value, current, source));
      }
      if images.None? {
        return Refuse;
      }
      var offer :=
        Offer(req.env, req.order, req.attempt, req.lease, req.generation, req.commit, images.value, rollback);
      if !ValidOffer(offer) || used {
        return Refuse;
      }
      if target.Some? && rows[target.value].offer.None? {
        rows := rows[target.value := rows[target.value].(phase := Prepared, offer := Some(offer))];
      } else {
        rows :=
          rows + [Row(req.env, if target.Some? then rows[target.value].rollbackOf else None, Prepared, Some(offer),
            None, false)];
      }
      decision := Grant(offer);
    }

    /** Finds the attempt's row; a completion without one is fine only without an observation. */
    method Complete(attempt: Attempt, lease: nat, generation: int, success: bool, obs: Option<Observation>)
      returns (accepted: bool, row: Option<nat>)
      modifies this
      ensures row.None? ==> !AttemptUsed(old(rows), attempt) && rows == old(rows) && (accepted <==> obs.None?)
      ensures row.Some? ==>
                row.value < |old(rows)| && old(rows)[row.value].offer.Some?
                  && old(rows)[row.value].offer.value.attempt == attempt
      ensures row.Some? ==> (accepted <==> Completes(old(rows), row.value, attempt, lease, generation, success, obs))
      ensures row.Some? ==>
                rows == if accepted then old(rows)[row.value := FinishRow(old(rows)[row.value], success, obs.value)]
                  else old(rows)
    {
      for i := 0 to |rows|
        invariant rows == old(rows) && !AttemptUsed(rows[..i], attempt)
      {
        if rows[i].offer.Some? && rows[i].offer.value.attempt == attempt {
          row := Some(i);
          accepted := Completes(rows, i, attempt, lease, generation, success, obs);
          if accepted {
            rows := rows[i := rows[i].(phase := Finished, receipt := obs, success := success)];
          }
          return;
        }
      }
      assert rows[..|rows|] == rows;
      return obs.None?, None;
    }

    method HoldLost(live: set<Attempt>)
      modifies this
      ensures rows == Reconciled(old(rows), live)
      ensures forall i :: 0 <= i < |rows| && (rows[i].phase.Prepared? || rows[i].phase.Running?) ==>
                rows[i].offer.Some? && rows[i].offer.value.attempt in live
      ensures forall i :: 0 <= i < |rows| ==>
                && (Unresolved(rows[i]) <==> Unresolved(old(rows)[i]))
                && rows[i].(phase := old(rows)[i].phase) == old(rows)[i]
    {
      for i := 0 to |rows|
        invariant |rows| == |old(rows)|
        invariant forall k :: 0 <= k < i ==> rows[k] == HoldRow(old(rows)[k], live)
        invariant forall k :: i <= k < |rows| ==> rows[k] == old(rows)[k]
      {
        var row := rows[i];
        if (row.phase.Prepared? || row.phase.Running?) && !(row.offer.Some? && row.offer.value.attempt in live) {
          rows := rows[i := row.(phase := Held)];
        }
      }
    }
  }
}

/** The outbox: rows claimed under a lease by any number of workers, delivered with retries.

    Time is in milliseconds. `limit` is the longest one delivery may take; the HTTP client
    gives up after ten seconds. */
module Outbox {
  const LEASE: nat := 300_000
  const MAX_ATTEMPTS: nat := 8
  const BATCH: nat := 20

  type Id = nat
  type WorkerId = nat

  datatype Row = Row(attempts: nat, nextAt: nat, delivered: bool, failed: bool)
  type Rows = map<Id, Row>

  predicate Due(row: Row, now: nat) {
    !row.delivered && !row.failed && row.nextAt <= now && row.attempts < MAX_ATTEMPTS
  }

  /** The row still waits for an outcome and has attempts left. */
  predicate Open(row: Row) {
    !row.delivered && !row.failed && row.attempts < MAX_ATTEMPTS
  }

  // --- retry delay ------------------------------------------------------------------------

  function Pow2(n: nat): nat {
    if n == 0 then 1 else 2 * Pow2(n - 1)
  }

  /** Seconds until the next attempt: doubling from 15, capped at an hour. */
  function NextDelay(attempts: nat): nat {
    var secs := 15 * Pow2(if attempts < 8 then attempts else 8);
    if secs < 3600 then secs else 3600
  }

  lemma {:induction false} Pow2Grows(a: nat, b: nat)
    requires a <= b
    ensures 1 <= Pow2(a) <= Pow2(b)
  {
    if a < b {
      Pow2Grows(a, b - 1);
    } else if a > 0 {
      Pow2Grows(a - 1, a - 1);
    }
  }

  /** Retries never come sooner, and always between fifteen seconds and an hour. */
  lemma DelayBacksOff(a: nat, b: nat)
    requires a <= b
    ensures 15 <= NextDelay(a) <= NextDelay(b) <= 3600
  {
    Pow2Grows(0, if a < 8 then a else 8);
    Pow2Grows(if a < 8 then a else 8, if b < 8 then b else 8);
  }

  // --- row updates ------------------------------------------------------------------------

  function ClaimRow(row: Row, now: nat): Row {
    row.(attempts := row.attempts + 1, nextAt := now + LEASE)
  }

  /** The one UPDATE that bumps attempts and pushes the batch one lease ahead. */
  function ClaimRows(rows: Rows, ids: set<Id>, now: nat): Rows {
    map id | id in rows :: if id in ids then ClaimRow(rows[id], now) else rows[id]
  }

  /** A message for an unsupported channel is retried one doubling later than a failed send. */
  datatype Outcome = Delivered | Undelivered(unsupported: bool) | Unrecorded

  /** The exponent of the delay after a failed attempt. */
  function Step(attempt: nat, unsupported: bool): nat {
    if unsupported || attempt == 0 then attempt else attempt - 1
  }

  /** What the worker writes after one delivery; an update that errors is ignored. */
  function Settled(row: Row, attempt: nat, outcome: Outcome, now: nat): Row {
    match outcome
    case Delivered => row.(delivered := true, failed := false)
    case Undelivered(unsupported) =>
      if attempt >= MAX_ATTEMPTS then row.(failed := true)
      else row.(nextAt := now + 1000 * NextDelay(Step(attempt, unsupported)))
    case Unrecorded => row
  }

  // --- workers ----------------------------------------------------------------------------

  datatype Claim = Claim(id: Id, attempt: nat)

  /** `claims[at]` is being sent since `since`; the earlier ones are settled. */
  datatype Worker = Idle | Busy(claimedAt: nat, claims: seq<Claim>, at: nat, since: nat)

  datatype State = State(now: nat, rows: Rows, workers: map<WorkerId, Worker>, claimed: map<Id, nat>)

  datatype Act =
    | Pass(time: nat)
    | Enqueue(id: Id)
    | ClaimDue(worker: WorkerId, ids: seq<Id>)
    | Settle(worker: WorkerId, outcome: Outcome)
    | Die(worker: WorkerId)

  predicate Distinct(ids: seq<Id>) {
    forall i, j :: 0 <= i < j < |ids| ==> ids[i] != ids[j]
  }

  function IdSet(ids: seq<Id>): set<Id> {
    set id | id in ids
  }

  function WorkerOf(s: State, worker: WorkerId): Worker {
    if worker in s.workers then s.workers[worker] else Idle
  }

  predicate CanClaim(s: State, worker: WorkerId, ids: seq<Id>) {
    && WorkerOf(s, worker).Idle? && 1 <= |ids| <= BATCH && Distinct(ids)
    && forall i :: 0 <= i < |ids| ==> ids[i] in s.rows && Due(s.rows[ids[i]], s.now)
  }

  /** No delivery in progress outlives its limit. */
  predicate InTime(s: State, later: nat, limit: nat) {
    forall w :: w in s.workers && s.workers[w].Busy? ==> later <= s.workers[w].since + limit
  }

  function Counted(claimed: map<Id, nat>, ids: set<Id>): map<Id, nat> {
    map id | id in claimed.Keys + ids :: (if id in claimed then claimed[id] else 0) + (if id in ids then 1 else 0)
  }

  function ClaimsOf(rows: Rows, ids: seq<Id>): (claims: seq<Claim>)
    requires forall i :: 0 <= i < |ids| ==> ids[i] in rows
    ensures |claims| == |ids| && forall i :: 0 <= i < |ids| ==> claims[i] == Claim(ids[i], rows[ids[i]].attempts + 1)
  {
    seq(|ids|, i requires 0 <= i < |ids| => Claim(ids[i], rows[ids[i]].attempts + 1))
  }

  function Claimed(s: State, worker: WorkerId, ids: seq<Id>): State
    requires CanClaim(s, worker, ids)
  {
    State(s.now, ClaimRows(s.rows, IdSet(ids), s.now),
      s.workers[worker := Busy(s.now, ClaimsOf(s.rows, ids), 0, s.now)],
          Counted(s.claimed, IdSet(ids)))
  }

  function Advanced(w: Worker, now: nat): Worker
    requires w.Busy?
  {
    if w.at + 1 < |w.claims| then w.(at := w.at + 1, since := now) else Idle
  }

  function SettleStep(s: State, worker: WorkerId, outcome: Outcome): State {
    var w := WorkerOf(s, worker);
    if w.Idle? || w.at >= |w.claims| || w.claims[w.at].id !in s.rows then s
    else
      var claim := w.claims[w.at];
      s.(rows := s.rows[claim.id := Settled(s.rows[claim.id], claim.attempt, outcome, s.now)],
         workers := s.workers[worker := Advanced(w, s.now)])
  }

  function Perform(s: State, act: Act, limit: nat): State {
    match act
    case Pass(time) => if InTime(s, s.now + time, limit) then s.(now := s.now + time) else s
    case Enqueue(id) =>
      if id in s.rows then s else s.(rows := s.rows[id := Row(0, s.now, false, false)], claimed := s.claimed[id := 0])
    case ClaimDue(worker, ids) => if CanClaim(s, worker, ids) then Claimed(s, worker, ids) else s
    case Settle(worker, outcome) => SettleStep(s, worker, outcome)
    case Die(worker) => s.(workers := s.workers[worker := Idle])
  }

  function Run(s: State, acts: seq<Act>, limit: nat): State
    decreases |acts|
  {
    if acts == [] then s else Perform(Run(s, acts[..|acts| - 1], limit), acts[|acts| - 1], limit)
  }

  const EMPTY := State(0, map[], map[], map[])

  // --- invariant --------------------------------------------------------------------------

  ghost predicate RowSound(row: Row, count: nat) {
    row.attempts == count <= MAX_ATTEMPTS && !(row.delivered && row.failed)
  }

  ghost predicate RowsSound(s: State) {
    s.claimed.Keys == s.rows.Keys && forall id :: id in s.rows ==> RowSound(s.rows[id], s.claimed[id])
  }

  /** A claim not yet settled still holds its row under the worker's own lease. */
  ghost predicate Held(rows: Rows, claim: Claim, claimedAt: nat) {
    && claim.id in rows && var row := rows[claim.id];
    && !row.delivered && !row.failed && row.nextAt == claimedAt + LEASE && row.attempts == claim.attempt
  }

  ghost predicate WorkerSound(s: State, w: Worker, limit: nat) {
    w.Busy? ==>
      && w.at < |w.claims| <= BATCH
      && w.since <= s.now <= w.since + limit && w.since <= w.claimedAt + limit * w.at
      && (forall i :: w.at <= i < |w.claims| ==> Held(s.rows, w.claims[i], w.claimedAt))
      && (forall i, j :: w.at <= i < j < |w.claims| ==> w.claims[i].id != w.claims[j].id)
  }

  ghost predicate Apart(v: Worker, w: Worker) {
    v.Busy? && w.Busy? ==>
      forall i, j :: v.at <= i < |v.claims| && w.at <= j < |w.claims| ==> v.claims[i].id != w.claims[j].id
  }

  ghost predicate Inv(s: State, limit: nat) {
    && RowsSound(s)
    && (forall w :: w in s.workers ==> WorkerSound(s, s.workers[w], limit))
    && (forall v, w :: v in s.workers && w in s.workers && v != w ==> Apart(s.workers[v], s.workers[w]))
  }

  /** While a worker holds a claim its lease has not run out. */
  lemma LeaseOutlastsWork(s: State, w: Worker, limit: nat)
    requires w.Busy? && WorkerSound(s, w, limit) && BATCH * limit < LEASE
    ensures s.now < w.claimedAt + LEASE
  {
    var at, n := w.at, |w.claims|;
    assert limit * at + limit == limit * (at + 1) <= limit * BATCH by {
      MulMono(limit, at + 1, BATCH);
    }
  }

  lemma MulMono(x: nat, a: nat, b: nat)
    requires a <= b
    ensures x * a <= x * b
  {
  }

  lemma PassKeeps(s: State, time: nat, limit: nat)
    requires Inv(s, limit)
    ensures Inv(Perform(s, Pass(time), limit), limit)
  {
  }

  lemma EnqueueKeeps(s: State, id: Id, limit: nat)
    requires Inv(s, limit)
    ensures Inv(Perform(s, Enqueue(id), limit), limit)
  {
    var t := Perform(s, Enqueue(id), limit);
    forall w | w in t.workers
      ensures WorkerSound(t, t.workers[w], limit)
    {
      assert WorkerSound(s, s.workers[w], limit);
    }
  }

  /** A due row is under nobody's lease. */
  lemma DueIsFree(s: State, w: Worker, i: nat, id: Id, limit: nat)
    requires w.Busy? && WorkerSound(s, w, limit) && BATCH * limit < LEASE && w.at <= i < |w.claims|
    requires id in s.rows && Due(s.rows[id], s.now)
    ensures w.claims[i].id != id
  {
    LeaseOutlastsWork(s, w, limit);
    assert Held(s.rows, w.claims[i], w.claimedAt);
  }

  lemma ClaimKeeps(s: State, worker: WorkerId, ids: seq<Id>, limit: nat)
    requires Inv(s, limit) && CanClaim(s, worker, ids) && BATCH * limit < LEASE
    ensures Inv(Claimed(s, worker, ids), limit)
  {
    var t := Claimed(s, worker, ids);
    var claims := t.workers[worker].claims;
    forall i | 0 <= i < |claims|
      ensures Held(t.rows, claims[i], s.now)
    {
      assert ids[i] in IdSet(ids);
    }
    assert WorkerSound(t, t.workers[worker], limit);
    forall w | w in t.workers
      ensures WorkerSound(t, t.workers[w], limit)
      ensures w != worker ==> Apart(t.workers[worker], t.workers[w]) && Apart(t.workers[w], t.workers[worker])
    {
      if w != worker && t.workers[w].Busy? {
        var other := s.workers[w];
        assert WorkerSound(s, other, limit);
        forall i, j | other.at <= i < |other.claims| && 0 <= j < |ids|
          ensures other.claims[i].id != ids[j]
        {
          DueIsFree(s, other, i, ids[j], limit);
        }
        forall i | other.at <= i < |other.claims|
          ensures Held(t.rows, other.claims[i], other.claimedAt)
        {
          assert Held(s.rows, other.claims[i], other.claimedAt);
          assert other.claims[i].id !in IdSet(ids);
        }
      }
    }
    RowsClaimed(s, worker, ids);
  }

  lemma RowsClaimed(s: State, worker: WorkerId, ids: seq<Id>)
    requires RowsSound(s) && CanClaim(s, worker, ids)
    ensures RowsSound(Claimed(s, worker, ids))
  {
    var t := Claimed(s, worker, ids);
    assert IdSet(ids) <= s.rows.Keys;
    forall id | id in t.rows
      ensures RowSound(t.rows[id], t.claimed[id])
    {
      assert RowSound(s.rows[id], s.claimed[id]);
      if id in IdSet(ids) {
        var i :| 0 <= i < |ids| && ids[i] == id;
      }
    }
  }

  lemma SettleKeeps(s: State, worker: WorkerId, outcome: Outcome, limit: nat)
    requires Inv(s, limit)
    ensures Inv(SettleStep(s, worker, outcome), limit)
  {
    var t := SettleStep(s, worker, outcome);
    var me := WorkerOf(s, worker);
    if t != s {
      var claim := me.claims[me.at];
      assert WorkerSound(s, me, limit);
      assert Held(s.rows, me.claims[me.at], me.claimedAt);
      assert RowSound(s.rows[claim.id], s.claimed[claim.id]);
      forall w | w in t.workers
        ensures WorkerSound(t, t.workers[w], limit)
      {
        var mine := if w == worker then me else s.workers[w];
        assert WorkerSound(s, mine, limit);
        if t.workers[w].Busy? {
          forall i | t.workers[w].at <= i < |t.workers[w].claims|
            ensures Held(t.rows, t.workers[w].claims[i], t.workers[w].claimedAt)
          {
            assert Held(s.rows, mine.claims[i], mine.claimedAt);
            assert w != worker ==> Apart(s.workers[worker], s.workers[w]);
          }
          if w == worker {
            assert limit * me.at + limit == limit * (me.at + 1);
          }
        }
      }
      forall v, w | v in t.workers && w in t.workers && v != w
        ensures Apart(t.workers[v], t.workers[w])
      {
        assert Apart(s.workers[v], s.workers[w]);
      }
    }
  }

  lemma DieKeeps(s: State, worker: WorkerId, limit: nat)
    requires Inv(s, limit)
    ensures Inv(Perform(s, Die(worker), limit), limit)
  {
    var t := Perform(s, Die(worker), limit);
    forall w | w in t.workers
      ensures WorkerSound(t, t.workers[w], limit)
    {
      assert w != worker ==> WorkerSound(s, s.workers[w], limit);
    }
    forall v, w | v in t.workers && w in t.workers && v != w
      ensures Apart(t.workers[v], t.workers[w])
    {
      assert v != worker && w != worker ==> Apart(s.workers[v], s.workers[w]);
    }
  }

  lemma {:induction false} Always(acts: seq<Act>, limit: nat)
    requires BATCH * limit < LEASE
    ensures Inv(Run(EMPTY, acts, limit), limit)
    decreases |acts|
  {
    if acts != [] {
      var prefix := acts[..|acts| - 1];
      Always(prefix, limit);
      var s := Run(EMPTY, prefix, limit);
      match acts[|acts| - 1]
      case Pass(time) => PassKeeps(s, time, limit);
      case Enqueue(id) => EnqueueKeeps(s, id, limit);
      case ClaimDue(worker, ids) =>
        if CanClaim(s, worker, ids) {
          ClaimKeeps(s, worker, ids, limit);
        }
      case Settle(worker, outcome) => SettleKeeps(s, worker, outcome, limit);
      case Die(worker) => DieKeeps(s, worker, limit);
    }
  }

  // --- exclusive delivery -----------------------------------------------------------------

  predicate Sending(s: State, worker: WorkerId, id: Id) {
    var w := WorkerOf(s, worker);
    w.Busy? && w.at < |w.claims| && w.claims[w.at].id == id
  }

  /** Over every interleaving: a row is claimed at most eight times, is never sent by two workers
      at once, and never ends both delivered and failed. */
  lemma DeliveryIsExclusive(acts: seq<Act>, limit: nat, v: WorkerId, w: WorkerId, id: Id)
    requires BATCH * limit < LEASE
    ensures var s := Run(EMPTY, acts, limit);
            && (Sending(s, v, id) && Sending(s, w, id) ==> v == w)
            && (id in s.rows ==>
                  && id in s.claimed && s.claimed[id] == s.rows[id].attempts <= MAX_ATTEMPTS
                  && !(s.rows[id].delivered && s.rows[id].failed))
  {
    hide Run;
    Always(acts, limit);
    var s := Run(EMPTY, acts, limit);
    if id in s.rows {
      assert RowSound(s.rows[id], s.claimed[id]);
    }
    if v in s.workers && w in s.workers && v != w {
      assert Apart(s.workers[v], s.workers[w]);
    }
  }

  /** An outcome is final: later acts neither claim, re-send nor relabel the row. */
  lemma OutcomeIsFinal(acts: seq<Act>, act: Act, limit: nat, id: Id)
    requires BATCH * limit < LEASE
    ensures var s := Run(EMPTY, acts, limit);
            id in s.rows && (s.rows[id].delivered || s.rows[id].failed) ==>
              && id in Perform(s, act, limit).rows && Perform(s, act, limit).rows[id] == s.rows[id]
              && forall w :: w in s.workers ==> !Sending(s, w, id)
  {
    hide Run;
    Always(acts, limit);
    var s := Run(EMPTY, acts, limit);
    if id in s.rows && (s.rows[id].delivered || s.rows[id].failed) {
      forall w | w in s.workers
        ensures !Sending(s, w, id)
      {
        if s.workers[w].Busy? {
          assert WorkerSound(s, s.workers[w], limit);
          assert Held(s.rows, s.workers[w].claims[s.workers[w].at], s.workers[w].claimedAt);
        }
      }
      if act.ClaimDue? && CanClaim(s, act.worker, act.ids) {
        assert forall i :: 0 <= i < |act.ids| ==> act.ids[i] != id;
      }
      if act.Settle? && act.worker in s.workers {
        assert !Sending(s, act.worker, id);
      }
    }
  }

  /** A send that does not deliver fails the row exactly when all eight claims are spent; otherwise
      the row cannot be claimed for fifteen seconds, and can be after an hour. */
  lemma UndeliveredEndsOrWaits(acts: seq<Act>, limit: nat, w: WorkerId, id: Id, unsupported: bool, later: nat)
    requires BATCH * limit < LEASE
    ensures var s := Run(EMPTY, acts, limit);
            Sending(s, w, id) ==>
              var t := Perform(s, Settle(w, Undelivered(unsupported)), limit);
              && id in s.claimed && id in t.rows && !t.rows[id].delivered && s.claimed[id] >= 1
              && (t.rows[id].failed <==> s.claimed[id] == MAX_ATTEMPTS)
              && (Due(t.rows[id], later) ==> later >= s.now + 15_000)
              && (!t.rows[id].failed && later >= s.now + 3_600_000 ==> Due(t.rows[id], later))
  {
    hide Run;
    Always(acts, limit);
    var s := Run(EMPTY, acts, limit);
    if Sending(s, w, id) {
      var worker := s.workers[w];
      var claim := worker.claims[worker.at];
      assert WorkerSound(s, worker, limit);
      assert Held(s.rows, claim, worker.claimedAt);
      assert RowSound(s.rows[id], s.claimed[id]);
      ClaimedAtLeastOnce(acts, limit, w);
      DelayBacksOff(Step(claim.attempt, unsupported), claim.attempt);
    }
  }

  lemma {:induction false} ClaimedAtLeastOnce(acts: seq<Act>, limit: nat, w: WorkerId)
    ensures var worker := WorkerOf(Run(EMPTY, acts, limit), w);
            worker.Busy? ==> forall i :: 0 <= i < |worker.claims| ==> worker.claims[i].attempt >= 1
    decreases |acts|
  {
    if acts != [] {
      ClaimedAtLeastOnce(acts[..|acts| - 1], limit, w);
    }
  }

  // --- the exact time bound ---------------------------------------------------------------

  ghost predicate Exclusive(limit: nat) {
    forall acts, v, w, id :: Sending(Run(EMPTY, acts, limit), v, id) && Sending(Run(EMPTY, acts, limit), w, id) ==>
        v == w
  }

  lemma RunSnoc(s: State, acts: seq<Act>, act: Act, limit: nat)
    ensures Run(s, acts + [act], limit) == Perform(Run(s, acts, limit), act, limit)
  {
    assert (acts + [act])[..|acts|] == acts;
  }

  const SLOW: nat := 15_000

  lemma FirstHolds(ids: seq<Id>, n: nat)
    requires |ids| == n && forall i :: 0 <= i < n ==> ids[i] == i
    ensures forall i :: i in ids <==> 0 <= i < n
  {
    forall i | 0 <= i < n
      ensures i in ids
    {
      assert ids[i] == i;
    }
  }

  function First(n: nat): (ids: seq<Id>)
    ensures |ids| == n && forall i :: 0 <= i < n ==> ids[i] == i
    ensures forall i :: i in ids <==> 0 <= i < n
  {
    var ids := seq(n, i => i);
    FirstHolds(ids, n);
    ids
  }

  /** `n` messages, of which `tries` workers in a row claimed all and died. */
  function Queued(n: nat, tries: nat): State {
    State(tries * LEASE, map i | i in First(n) :: Row(tries, tries * LEASE, false, false),
          if tries == 0 then map[] else map[0 := Idle], map i | i in First(n) :: tries)
  }

  lemma {:induction false} QueueFills(n: nat, limit: nat) returns (acts: seq<Act>)
    ensures Run(EMPTY, acts, limit) == Queued(n, 0)
  {
    if n == 0 {
      acts := [];
    } else {
      acts := QueueFills(n - 1, limit);
      RunSnoc(EMPTY, acts, Enqueue(n - 1), limit);
      acts := acts + [Enqueue(n - 1)];
      assert Run(EMPTY, acts, limit).rows == Queued(n, 0).rows;
      assert Run(EMPTY, acts, limit).claimed == Queued(n, 0).claimed;
    }
  }

  /** Worker 0 then claimed all of them and has delivered the first `k`, each at the bound. */
  function Slogging(n: nat, tries: nat, k: nat): State {
    State(tries * LEASE + k * SLOW, map i | i in First(n) :: Row(tries + 1, (tries + 1) * LEASE, i < k, false),
          map[0 := Busy(tries * LEASE, seq(n, i requires 0 <= i < n => Claim(i, tries + 1)), k,
                        tries * LEASE + k * SLOW)],
          map i | i in First(n) :: tries + 1)
  }

  lemma AllMayBeClaimed(n: nat, tries: nat)
    requires 1 <= n <= BATCH && tries < MAX_ATTEMPTS
    ensures CanClaim(Queued(n, tries), 0, First(n))
    ensures forall i :: i in IdSet(First(n)) <==> i in First(n)
  {
  }

  lemma ClaimedRows(n: nat, tries: nat)
    requires forall i :: i in IdSet(First(n)) <==> i in First(n)
    ensures ClaimRows(Queued(n, tries).rows, IdSet(First(n)), tries * LEASE) == Slogging(n, tries, 0).rows
  {
    hide IdSet, First;
    assert tries * LEASE + LEASE == (tries + 1) * LEASE;
  }

  lemma ClaimedCounts(n: nat, tries: nat)
    requires forall i :: i in IdSet(First(n)) <==> i in First(n)
    ensures Counted(Queued(n, tries).claimed, IdSet(First(n))) == Slogging(n, tries, 0).claimed
  {
    hide IdSet, First;
  }

  lemma ClaimsMade(n: nat, tries: nat)
    ensures ClaimsOf(Queued(n, tries).rows, First(n)) == Slogging(n, tries, 0).workers[0].claims
  {
  }

  lemma ClaimsAll(n: nat, tries: nat, limit: nat)
    requires 1 <= n <= BATCH && tries < MAX_ATTEMPTS
    ensures Perform(Queued(n, tries), ClaimDue(0, First(n)), limit) == Slogging(n, tries, 0)
  {
    AllMayBeClaimed(n, tries);
    ClaimedRows(n, tries);
    ClaimedCounts(n, tries);
    ClaimsMade(n, tries);
    hide CanClaim, IdSet, First, ClaimRows, Counted, ClaimsOf;
    assert Claimed(Queued(n, tries), 0, First(n)).workers == Slogging(n, tries, 0).workers;
  }

  lemma DiesHolding(n: nat, tries: nat, limit: nat)
    ensures Perform(Perform(Slogging(n, tries, 0), Die(0), limit), Pass(LEASE), limit) == Queued(n, tries + 1)
  {
    var t := Perform(Slogging(n, tries, 0), Die(0), limit);
    assert t.workers == map[0 := Idle];
    assert t.rows == Queued(n, tries + 1).rows && t.claimed == Queued(n, tries + 1).claimed;
  }

  lemma {:induction false} WorkersKeepDying(n: nat, tries: nat, limit: nat) returns (acts: seq<Act>)
    requires 1 <= n <= BATCH && tries <= MAX_ATTEMPTS
    ensures Run(EMPTY, acts, limit) == Queued(n, tries)
    decreases tries
  {
    hide Run, Perform, Queued, Slogging;
    if tries == 0 {
      acts := QueueFills(n, limit);
    } else {
      acts := WorkersKeepDying(n, tries - 1, limit);
      RunSnoc(EMPTY, acts, ClaimDue(0, First(n)), limit);
      ClaimsAll(n, tries - 1, limit);
      acts := acts + [ClaimDue(0, First(n))];
      RunSnoc(EMPTY, acts, Die(0), limit);
      RunSnoc(EMPTY, acts + [Die(0)], Pass(LEASE), limit);
      DiesHolding(n, tries - 1, limit);
      acts := acts + [Die(0)] + [Pass(LEASE)];
    }
  }

  lemma SlogOn(tries: nat, k: nat, limit: nat)
    requires k < BATCH - 1 && limit >= SLOW
    ensures Perform(Perform(Slogging(BATCH, tries, k), Pass(SLOW), limit), Settle(0, Delivered), limit)
         == Slogging(BATCH, tries, k + 1)
  {
    var s := Perform(Slogging(BATCH, tries, k), Pass(SLOW), limit);
    assert s == Slogging(BATCH, tries, k).(now := tries * LEASE + (k + 1) * SLOW);
    var t := Perform(s, Settle(0, Delivered), limit);
    assert t.rows == Slogging(BATCH, tries, k + 1).rows;
    assert t.workers == Slogging(BATCH, tries, k + 1).workers;
  }

  lemma {:induction false} SlogFrom(acts: seq<Act>, tries: nat, k: nat, limit: nat) returns (more: seq<Act>)
    requires k < BATCH && limit >= SLOW && Run(EMPTY, acts, limit) == Slogging(BATCH, tries, k)
    ensures Run(EMPTY, more, limit) == Slogging(BATCH, tries, BATCH - 1)
    decreases BATCH - k
  {
    hide Run, Perform, Slogging;
    if k == BATCH - 1 {
      more := acts;
    } else {
      RunSnoc(EMPTY, acts, Pass(SLOW), limit);
      RunSnoc(EMPTY, acts + [Pass(SLOW)], Settle(0, Delivered), limit);
      SlogOn(tries, k, limit);
      more := SlogFrom(acts + [Pass(SLOW)] + [Settle(0, Delivered)], tries, k + 1, limit);
    }
  }

  /** Worker 0 is still sending the last message and worker 1 has claimed it again. */
  ghost predicate Overlapping(s: State, tries: nat) {
    var id := BATCH - 1;
    && Sending(s, 0, id) && Sending(s, 1, id) && id in s.rows && !s.rows[id].failed
    && WorkerOf(s, 1).claims[WorkerOf(s, 1).at].attempt == tries + 2
  }

  lemma SecondClaim(tries: nat, limit: nat)
    requires limit >= SLOW && tries + 1 < MAX_ATTEMPTS
    ensures var s := Perform(Slogging(BATCH, tries, BATCH - 1), Pass(SLOW), limit);
            Overlapping(Perform(s, ClaimDue(1, [BATCH - 1]), limit), tries)
  {
    var s := Perform(Slogging(BATCH, tries, BATCH - 1), Pass(SLOW), limit);
    assert s == Slogging(BATCH, tries, BATCH - 1).(now := (tries + 1) * LEASE);
    assert CanClaim(s, 1, [BATCH - 1]);
    hide First;
  }

  /** Twenty deliveries of fifteen seconds use up the lease: a second worker claims the last row
      while the first is still sending it. */
  lemma SlowWorkersOverlap(tries: nat, limit: nat) returns (acts: seq<Act>)
    requires BATCH * limit >= LEASE && tries + 1 < MAX_ATTEMPTS
    ensures Overlapping(Run(EMPTY, acts, limit), tries)
  {
    hide Run, Perform, Overlapping, Slogging, Queued;
    acts := WorkersKeepDying(BATCH, tries, limit);
    RunSnoc(EMPTY, acts, ClaimDue(0, First(BATCH)), limit);
    ClaimsAll(BATCH, tries, limit);
    acts := SlogFrom(acts + [ClaimDue(0, First(BATCH))], tries, 0, limit);
    RunSnoc(EMPTY, acts, Pass(SLOW), limit);
    RunSnoc(EMPTY, acts + [Pass(SLOW)], ClaimDue(1, [BATCH - 1]), limit);
    SecondClaim(tries, limit);
    acts := acts + [Pass(SLOW)] + [ClaimDue(1, [BATCH - 1])];
  }

  /** No two workers ever send one message at once exactly when a full batch fits in the lease. */
  lemma ExclusiveExactly(limit: nat)
    ensures Exclusive(limit) <==> BATCH * limit < LEASE
  {
    if BATCH * limit < LEASE {
      forall acts, v, w, id | Sending(Run(EMPTY, acts, limit), v, id) && Sending(Run(EMPTY, acts, limit), w, id)
        ensures v == w
      {
        DeliveryIsExclusive(acts, limit, v, w, id);
      }
    } else {
      var acts := SlowWorkersOverlap(0, limit);
    }
  }

  ghost predicate NeverBoth(limit: nat) {
    forall acts, id :: id in Run(EMPTY, acts, limit).rows ==>
      !(Run(EMPTY, acts, limit).rows[id].delivered && Run(EMPTY, acts, limit).rows[id].failed)
  }

  /** A row with an outcome is never changed by a later act. */
  ghost predicate Final(limit: nat) {
    forall acts, act, id :: id in Run(EMPTY, acts, limit).rows && HasOutcome(Run(EMPTY, acts, limit), id) ==>
      StaysSame(Run(EMPTY, acts, limit), act, limit, id)
  }

  predicate HasOutcome(s: State, id: Id) {
    id in s.rows && (s.rows[id].delivered || s.rows[id].failed)
  }

  predicate StaysSame(s: State, act: Act, limit: nat, id: Id)
    requires id in s.rows
  {
    id in Perform(s, act, limit).rows && Perform(s, act, limit).rows[id] == s.rows[id]
  }

  lemma DeliversThenFails(s: State, limit: nat)
    requires Overlapping(s, MAX_ATTEMPTS - 2)
    ensures var t := Perform(s, Settle(0, Delivered), limit);
            && HasOutcome(t, BATCH - 1) && !StaysSame(t, Settle(1, Undelivered(false)), limit, BATCH - 1)
            && var u := Perform(t, Settle(1, Undelivered(false)), limit);
               BATCH - 1 in u.rows && u.rows[BATCH - 1].delivered && u.rows[BATCH - 1].failed
  {
  }

  /** A seventh attempt delivers while the eighth, already claimed, fails the same message. */
  lemma SlowWorkersDisagree(limit: nat) returns (acts: seq<Act>)
    requires BATCH * limit >= LEASE
    ensures var t := Run(EMPTY, acts, limit);
            HasOutcome(t, BATCH - 1) && !StaysSame(t, Settle(1, Undelivered(false)), limit, BATCH - 1)
    ensures var u := Run(EMPTY, acts + [Settle(1, Undelivered(false))], limit);
            BATCH - 1 in u.rows && u.rows[BATCH - 1].delivered && u.rows[BATCH - 1].failed
  {
    hide Run, Perform, Overlapping, StaysSame;
    acts := SlowWorkersOverlap(MAX_ATTEMPTS - 2, limit);
    DeliversThenFails(Run(EMPTY, acts, limit), limit);
    RunSnoc(EMPTY, acts, Settle(0, Delivered), limit);
    acts := acts + [Settle(0, Delivered)];
    RunSnoc(EMPTY, acts, Settle(1, Undelivered(false)), limit);
  }

  /** No message ever ends both delivered and failed, and no outcome is ever changed, exactly under
      the same bound. */
  lemma OutcomesExactly(limit: nat)
    ensures NeverBoth(limit) <==> BATCH * limit < LEASE
    ensures Final(limit) <==> BATCH * limit < LEASE
  {
    hide Run, Perform;
    if BATCH * limit < LEASE {
      forall acts, id | id in Run(EMPTY, acts, limit).rows
        ensures !(Run(EMPTY, acts, limit).rows[id].delivered && Run(EMPTY, acts, limit).rows[id].failed)
      {
        DeliveryIsExclusive(acts, limit, 0, 0, id);
      }
      forall acts, act, id | id in Run(EMPTY, acts, limit).rows && HasOutcome(Run(EMPTY, acts, limit), id)
        ensures StaysSame(Run(EMPTY, acts, limit), act, limit, id)
      {
        OutcomeIsFinal(acts, act, limit, id);
      }
    } else {
      var acts := SlowWorkersDisagree(limit);
      var more := acts + [Settle(1, Undelivered(false))];
      assert BATCH - 1 in Run(EMPTY, more, limit).rows;
      assert HasOutcome(Run(EMPTY, acts, limit), BATCH - 1);
    }
  }

  // --- messages without an outcome --------------------------------------------------------

  /** All attempts are spent, no outcome was recorded and nobody is still working on the row. */
  ghost predicate Stranded(s: State, id: Id) {
    && id in s.rows && s.rows[id].attempts >= MAX_ATTEMPTS && !s.rows[id].delivered && !s.rows[id].failed
    && forall w :: w in s.workers && s.workers[w].Busy? ==>
         forall i :: s.workers[w].at <= i < |s.workers[w].claims| ==> s.workers[w].claims[i].id != id
  }

  lemma StrandedStep(s: State, act: Act, limit: nat, id: Id)
    requires Stranded(s, id)
    ensures Stranded(Perform(s, act, limit), id)
  {
    if act.ClaimDue? && CanClaim(s, act.worker, act.ids) {
      assert forall i :: 0 <= i < |act.ids| ==> act.ids[i] != id;
    }
  }

  /** Such a message never terminates, whatever happens later. */
  lemma {:induction false} StrandedForever(s: State, acts: seq<Act>, limit: nat, id: Id)
    requires Stranded(s, id)
    ensures Stranded(Run(s, acts, limit), id)
    decreases |acts|
  {
    if acts != [] {
      StrandedForever(s, acts[..|acts| - 1], limit, id);
      StrandedStep(Run(s, acts[..|acts| - 1], limit), acts[|acts| - 1], limit, id);
    }
  }

  /** Eight workers that die in turn after claiming strand a message for good. */
  lemma MessagesCanStrand(limit: nat) returns (acts: seq<Act>)
    ensures Stranded(Run(EMPTY, acts, limit), 0)
  {
    acts := WorkersKeepDying(1, MAX_ATTEMPTS, limit);
  }

  /** Claims always name messages that exist. */
  ghost predicate ClaimsExist(s: State) {
    forall w :: w in s.workers && s.workers[w].Busy? ==>
      forall i :: 0 <= i < |s.workers[w].claims| ==> s.workers[w].claims[i].id in s.rows
  }

  lemma ClaimsKeepExisting(s: State, act: Act, limit: nat)
    requires ClaimsExist(s)
    ensures ClaimsExist(Perform(s, act, limit))
  {
    hide Due, Settled;
  }

  lemma {:induction false} ClaimsAlwaysExist(acts: seq<Act>, limit: nat)
    ensures ClaimsExist(Run(EMPTY, acts, limit))
    decreases |acts|
  {
    hide Perform;
    if acts != [] {
      ClaimsAlwaysExist(acts[..|acts| - 1], limit);
      ClaimsKeepExisting(Run(EMPTY, acts[..|acts| - 1], limit), acts[|acts| - 1], limit);
    }
  }

  lemma {:induction false} RunThen(s: State, acts: seq<Act>, more: seq<Act>, limit: nat)
    ensures Run(s, acts + more, limit) == Run(Run(s, acts, limit), more, limit)
    decreases |more|
  {
    hide Perform;
    if more == [] {
      assert acts + more == acts;
    } else {
      RunThen(s, acts, more[..|more| - 1], limit);
      assert (acts + more)[..|acts + more| - 1] == acts + more[..|more| - 1];
    }
  }

  lemma RunOne(s: State, act: Act, limit: nat)
    ensures Run(s, [act], limit) == Perform(s, act, limit)
  {
    assert [act][..0] == [];
  }

  /** A worker that has claimed the message delivers up to it. */
  lemma {:induction false} HolderDelivers(s: State, w: WorkerId, i: nat, limit: nat) returns (more: seq<Act>)
    requires ClaimsExist(s) && w in s.workers && s.workers[w].Busy? && s.workers[w].at <= i < |s.workers[w].claims|
    ensures HasOutcome(Run(s, more, limit), s.workers[w].claims[i].id)
    decreases i - s.workers[w].at
  {
    hide Run;
    var act := Settle(w, Delivered);
    RunOne(s, act, limit);
    more := [act];
    if s.workers[w].at < i {
      ClaimsKeepExisting(s, act, limit);
      var rest := HolderDelivers(Perform(s, act, limit), w, i, limit);
      RunThen(s, [act], rest, limit);
      more := [act] + rest;
    }
  }

  predicate Nobody(s: State) {
    forall w :: w in s.workers ==> s.workers[w].Idle?
  }

  lemma {:induction false} AllDie(s: State, alive: set<WorkerId>, limit: nat) returns (more: seq<Act>)
    requires forall w :: w in s.workers && w !in alive ==> s.workers[w].Idle?
    ensures Nobody(Run(s, more, limit))
    ensures Run(s, more, limit).rows == s.rows && Run(s, more, limit).now == s.now
    decreases |alive|
  {
    if alive == {} {
      more := [];
    } else {
      hide Run;
      var w :| w in alive;
      RunOne(s, Die(w), limit);
      var rest := AllDie(Perform(s, Die(w), limit), alive - {w}, limit);
      RunThen(s, [Die(w)], rest, limit);
      more := [Die(w)] + rest;
    }
  }

  lemma TimePasses(s: State, id: Id, limit: nat) returns (act: Act)
    requires Nobody(s) && id in s.rows && Open(s.rows[id])
    ensures var t := Perform(s, act, limit); Nobody(t) && t.rows == s.rows && Due(t.rows[id], t.now)
  {
    act := Pass(if s.rows[id].nextAt <= s.now then 0 else s.rows[id].nextAt - s.now);
  }

  lemma ClaimsAndDelivers(s: State, id: Id, limit: nat)
    requires Nobody(s) && id in s.rows && Due(s.rows[id], s.now)
    ensures HasOutcome(Perform(Perform(s, ClaimDue(0, [id]), limit), Settle(0, Delivered), limit), id)
  {
    assert CanClaim(s, 0, [id]);
  }

  /** With an attempt left, a message can be claimed once nobody else is at work, and delivered. */
  lemma RetryDelivers(s: State, id: Id, limit: nat) returns (more: seq<Act>)
    requires id in s.rows && Open(s.rows[id])
    ensures HasOutcome(Run(s, more, limit), id)
  {
    hide Run, Perform;
    more := AllDie(s, s.workers.Keys, limit);
    var wait := TimePasses(Run(s, more, limit), id, limit);
    RunSnoc(s, more, wait, limit);
    more := more + [wait];
    ClaimsAndDelivers(Run(s, more, limit), id, limit);
    RunSnoc(s, more, ClaimDue(0, [id]), limit);
    RunSnoc(s, more + [ClaimDue(0, [id])], Settle(0, Delivered), limit);
    more := more + [ClaimDue(0, [id])] + [Settle(0, Delivered)];
  }

  /** From every reachable state, whatever the limit, a message can still get an outcome exactly when
      it is not stranded. */
  lemma CanEndExactly(acts: seq<Act>, limit: nat, id: Id)
    requires id in Run(EMPTY, acts, limit).rows
    ensures var s := Run(EMPTY, acts, limit);
            (exists more :: HasOutcome(Run(s, more, limit), id)) <==> !Stranded(s, id)
  {
    hide Run;
    var s := Run(EMPTY, acts, limit);
    if Stranded(s, id) {
      forall more
        ensures !HasOutcome(Run(s, more, limit), id)
      {
        StrandedForever(s, more, limit, id);
      }
    } else if HasOutcome(s, id) {
      RunNothing(s, limit);
      assert HasOutcome(Run(s, [], limit), id);
    } else if Open(s.rows[id]) {
      var more := RetryDelivers(s, id, limit);
    } else {
      ClaimsAlwaysExist(acts, limit);
      var w, i :| w in s.workers && s.workers[w].Busy? && s.workers[w].at <= i < |s.workers[w].claims|
        && s.workers[w].claims[i].id == id;
      var more := HolderDelivers(s, w, i, limit);
    }
  }

  lemma RunNothing(s: State, limit: nat)
    ensures Run(s, [], limit) == s
  {
  }

  // --- quiet windows ----------------------------------------------------------------------

  /** The reference predicate, which wraps past midnight. */
  predicate InQuietWindow(now: int, start: int, end: int) {
    if start < 0 || end < 0 || start == end then false
    else if start < end then start <= now < end
    else now >= start || now < end
  }

  /** The claim query's own test: BETWEEN start AND end - 1. */
  predicate SqlQuiet(now: int, start: int, end: int) {
    start >= 0 && start <= now <= end - 1
  }

  /** The two agree on every minute of the day exactly when the window does not wrap midnight
      into a minute that exists. */
  lemma QuietGateExactly(start: int, end: int)
    ensures (forall now :: 0 <= now < 1440 ==> (SqlQuiet(now, start, end) <==> InQuietWindow(now, start, end)))
       <==> !(start > end && end >= 0 && (start < 1440 || end > 0))
  {
    if start > end && end >= 0 && (start < 1440 || end > 0) {
      var now := if start < 1440 then start else 0;
      assert InQuietWindow(now, start, end) && !SqlQuiet(now, start, end);
    }
  }

  // --- one delivery pass ------------------------------------------------------------------

  /** The acts of one worker alone: claim, then time and an outcome for each claimed row. */
  function PassActs(ids: seq<Id>, outcomes: seq<Outcome>, delays: seq<nat>, n: nat): seq<Act>
    requires n <= |ids| == |outcomes| == |delays|
  {
    if n == 0 then [ClaimDue(0, ids)]
    else PassActs(ids, outcomes, delays, n - 1) + [Pass(delays[n - 1])] + [Settle(0, outcomes[n - 1])]
  }

  lemma OneDelivery(s: State, delay: nat, outcome: Outcome, limit: nat)
    requires s.workers.Keys == {0} && s.workers[0].Busy? && s.workers[0].at < |s.workers[0].claims|
    requires s.workers[0].since == s.now && delay <= limit && s.workers[0].claims[s.workers[0].at].id in s.rows
    ensures var w, now := s.workers[0], s.now + delay;
            var claim := w.claims[w.at];
            Perform(Perform(s, Pass(delay), limit), Settle(0, outcome), limit)
            == State(now, s.rows[claim.id := Settled(s.rows[claim.id], claim.attempt, outcome, now)],
                     map[0 := if w.at + 1 < |w.claims| then Busy(w.claimedAt, w.claims, w.at + 1, now) else Idle],
                     s.claimed)
  {
    assert Perform(s, Pass(delay), limit) == s.(now := s.now + delay);
  }

  function Clock(now: nat, delays: seq<nat>, n: nat): nat
    requires n <= |delays|
  {
    if n == 0 then now else Clock(now, delays, n - 1) + delays[n - 1]
  }

  /** The table after the first `n` outcomes of one batch were recorded. */
  function Sent(rows: Rows, ids: seq<Id>, outcomes: seq<Outcome>, delays: seq<nat>, now: nat, n: nat): (r: Rows)
    requires n <= |ids| == |outcomes| == |delays| && forall i :: 0 <= i < |ids| ==> ids[i] in rows
    ensures r.Keys == rows.Keys
  {
    if n == 0 then ClaimRows(rows, IdSet(ids), now)
    else
      var before, id := Sent(rows, ids, outcomes, delays, now, n - 1), ids[n - 1];
      before[id := Settled(before[id], rows[id].attempts + 1, outcomes[n - 1], Clock(now, delays, n))]
  }

  ghost predicate Midway(s: State, rows: Rows, ids: seq<Id>, outcomes: seq<Outcome>, delays: seq<nat>, now: nat, n: nat)
    requires n <= |ids| == |outcomes| == |delays| && forall i :: 0 <= i < |ids| ==> ids[i] in rows
  {
    && s.rows == Sent(rows, ids, outcomes, delays, now, n) && s.now == Clock(now, delays, n)
    && s.workers == map[0 := if n < |ids| then Busy(now, ClaimsOf(rows, ids), n, s.now) else Idle]
  }

  lemma MidwayStart(rows: Rows, ids: seq<Id>, outcomes: seq<Outcome>, delays: seq<nat>, now: nat, limit: nat)
    requires CanClaim(State(now, rows, map[], map[]), 0, ids) && |ids| == |outcomes| == |delays|
    ensures Run(State(now, rows, map[], map[]), [], limit) == State(now, rows, map[], map[])
    ensures Midway(Perform(State(now, rows, map[], map[]), ClaimDue(0, ids), limit), rows, ids, outcomes, delays, now,
            0)
  {
  }

  lemma MidwayStep(s: State, rows: Rows, ids: seq<Id>, outcomes: seq<Outcome>, delays: seq<nat>, now: nat, n: nat,
                   limit: nat)
    requires n < |ids| == |outcomes| == |delays| && delays[n] <= limit && forall i :: 0 <= i < |ids| ==> ids[i] in rows
    requires Midway(s, rows, ids, outcomes, delays, now, n)
    ensures Midway(Perform(Perform(s, Pass(delays[n]), limit), Settle(0, outcomes[n]), limit),
                   rows, ids, outcomes, delays, now, n + 1)
  {
    hide Perform, Settled, ClaimRows;
    OneDelivery(s, delays[n], outcomes[n], limit);
  }

  /** The pass of a worker that nobody disturbs is a run of the machine above. */
  lemma {:induction false} PassIsRun(rows: Rows, ids: seq<Id>, outcomes: seq<Outcome>, delays: seq<nat>, now: nat,
                                     n: nat, limit: nat)
    requires CanClaim(State(now, rows, map[], map[]), 0, ids) && n <= |ids| == |outcomes| == |delays|
    requires forall i :: 0 <= i < |delays| ==> delays[i] <= limit
    ensures Midway(Run(State(now, rows, map[], map[]), PassActs(ids, outcomes, delays, n), limit), rows, ids,
            outcomes, delays, now, n)
  {
    hide Run, Perform, Sent, Midway, ClaimsOf, Distinct, Due;
    var start := State(now, rows, map[], map[]);
    if n == 0 {
      RunSnoc(start, [], ClaimDue(0, ids), limit);
      MidwayStart(rows, ids, outcomes, delays, now, limit);
      assert [] + [ClaimDue(0, ids)] == [ClaimDue(0, ids)];
    } else {
      PassIsRun(rows, ids, outcomes, delays, now, n - 1, limit);
      var acts := PassActs(ids, outcomes, delays, n - 1);
      RunSnoc(start, acts, Pass(delays[n - 1]), limit);
      RunSnoc(start, acts + [Pass(delays[n - 1])], Settle(0, outcomes[n - 1]), limit);
      MidwayStep(Run(start, acts, limit), rows, ids, outcomes, delays, now, n - 1, limit);
    }
  }

  function DeliveredCount(outcomes: seq<Outcome>): nat {
    if outcomes == [] then 0
    else DeliveredCount(outcomes[..|outcomes| - 1]) + (if outcomes[|outcomes| - 1].Delivered? then 1 else 0)
  }

  class Table {
    var rows: Rows

    constructor ()
      ensures rows == map[]
    {
      rows := map[];
    }

    method ClaimBatch(ids: seq<Id>, now: nat) returns (claims: seq<Claim>)
      requires Distinct(ids) && forall i :: 0 <= i < |ids| ==> ids[i] in rows
      modifies this
      ensures rows == ClaimRows(old(rows), IdSet(ids), now)
      ensures |claims| == |ids|
      ensures forall i :: 0 <= i < |ids| ==> claims[i] == Claim(ids[i], old(rows)[ids[i]].attempts + 1)
    {
      claims := [];
      for i := 0 to |ids|
        invariant |claims| == i
        invariant forall k :: 0 <= k < i ==> claims[k] == Claim(ids[k], old(rows)[ids[k]].attempts + 1)
        invariant rows == ClaimRows(old(rows), IdSet(ids[..i]), now)
      {
        assert ids[..i + 1] == ids[..i] + [ids[i]];
        assert IdSet(ids[..i + 1]) == IdSet(ids[..i]) + {ids[i]};
        assert ids[i] !in IdSet(ids[..i]);
        rows := rows[ids[i] := ClaimRow(rows[ids[i]], now)];
        claims := claims + [Claim(ids[i], rows[ids[i]].attempts)];
      }
      assert ids[..|ids|] == ids;
    }

    /** The last attempt ends the row for good; an earlier one leaves it due again after fifteen
        seconds at the soonest and an hour at the latest. */
    method RecordFailed(id: Id, attempt: nat, unsupported: bool, now: nat)
      requires id in rows
      modifies this
      ensures rows == old(rows)[id := Settled(old(rows)[id], attempt, Undelivered(unsupported), now)]
      ensures attempt >= MAX_ATTEMPTS ==> forall later :: !Due(rows[id], later)
      ensures attempt < MAX_ATTEMPTS ==>
                forall later: nat :: Due(rows[id], later) <==> Open(old(rows)[id]) && later >= rows[id].nextAt
      ensures attempt < MAX_ATTEMPTS ==> now + 15_000 <= rows[id].nextAt <= now + 3_600_000
    {
      DelayBacksOff(Step(attempt, unsupported), Step(attempt, unsupported));
      if attempt >= MAX_ATTEMPTS {
        rows := rows[id := rows[id].(failed := true)];
      } else {
        rows := rows[id := rows[id].(nextAt := now + 1000 * NextDelay(Step(attempt, unsupported)))];
      }
    }

    /** Whatever the outcome, no other row and no attempt count changes, a delivered row is never due
        again, and a row that is not delivered is never taken for one. */
    method Record(claim: Claim, outcome: Outcome, now: nat)
      requires claim.id in rows
      modifies this
      ensures rows == old(rows)[claim.id := Settled(old(rows)[claim.id], claim.attempt, outcome, now)]
      ensures rows[claim.id].attempts == old(rows)[claim.id].attempts
      ensures rows[claim.id].delivered <==> outcome.Delivered? || old(rows)[claim.id].delivered
      ensures outcome.Delivered? ==> !rows[claim.id].failed && forall later :: !Due(rows[claim.id], later)
      ensures outcome.Unrecorded? ==> rows == old(rows)
    {
      match outcome {
        case Delivered => rows := rows[claim.id := rows[claim.id].(delivered := true, failed := false)];
        case Undelivered(unsupported) => RecordFailed(claim.id, claim.attempt, unsupported, now);
        case Unrecorded => assert rows == rows[claim.id := rows[claim.id]];
      }
    }

    method DeliverDue(ids: seq<Id>, now: nat, outcomes: seq<Outcome>, delays: seq<nat>) returns (delivered: nat)
      requires |ids| <= BATCH && Distinct(ids)
      requires forall i :: 0 <= i < |ids| ==> ids[i] in rows && Due(rows[ids[i]], now)
      requires |ids| == |outcomes| == |delays|
      modifies this
      ensures rows == Sent(old(rows), ids, outcomes, delays, now, |ids|)
      ensures delivered == DeliveredCount(outcomes)
    {
      hide Due, Open, Settled;
      var claims := ClaimBatch(ids, now);
      delivered := 0;
      var clock := now;
      for i := 0 to |ids|
        invariant clock == Clock(now, delays, i) && rows.Keys == old(rows).Keys
        invariant rows == Sent(old(rows), ids, outcomes, delays, now, i)
        invariant delivered == DeliveredCount(outcomes[..i])
      {
        clock := clock + delays[i];
        Record(claims[i], outcomes[i], clock);
        if outcomes[i].Delivered? {
          delivered := delivered + 1;
        }
        assert outcomes[..i + 1][..i] == outcomes[..i];
      }
      assert outcomes[..|ids|] == outcomes;
    }
  }
}

/** Cron slots: the search for the next slot, and racing schedulers that claim slots by
    compare-and-swap on the schedule's next fire time. */
module Scheduler {
  import opened Prelude

  /** Nanoseconds, so that truncating to the minute is exact. */
  type Time = int
  type CronId = nat
  type WorkerId = nat

  const MINUTE: int := 60_000_000_000
  const WINDOW: int := 366 * 5 * 24 * 60 * MINUTE

  /** A parsed expression decides every minute; calendar arithmetic stays abstract. */
  type Crons = (CronId, Time) -> bool

  /** A cron slot: a whole minute the expression matches. */
  predicate Slot(crons: Crons, cron: CronId, t: Time) {
    t % MINUTE == 0 && crons(cron, t)
  }

  ghost predicate NoSlotBetween(crons: Crons, cron: CronId, after: Time, before: Time) {
    forall t :: after < t < before ==> !Slot(crons, cron, t)
  }

  function Search(crons: Crons, cron: CronId, candidate: Time, deadline: Time): Option<Time>
    decreases deadline - candidate
  {
    if candidate > deadline then None
    else if crons(cron, candidate) then Some(candidate)
    else Search(crons, cron, candidate + MINUTE, deadline)
  }

  function Truncated(t: Time): Time {
    t - t % MINUTE
  }

  function Next(crons: Crons, cron: CronId, after: Time): Option<Time> {
    Search(crons, cron, Truncated(after + MINUTE), after + WINDOW)
  }

  /** The loop returns the least slot strictly after `after` inside the search window, or nothing
      when the window holds no slot. */
  method NextFireAfter(crons: Crons, cron: CronId, after: Time) returns (r: Option<Time>)
    ensures r.Some? ==> Slot(crons, cron, r.value) && after < r.value <= after + WINDOW
    ensures NoSlotBetween(crons, cron, after, if r.Some? then r.value else after + WINDOW + 1)
    ensures r == Next(crons, cron, after)
  {
    var candidate := after + MINUTE;
    candidate := candidate - candidate % MINUTE;
    var deadline := after + WINDOW;
    while candidate <= deadline
      invariant candidate % MINUTE == 0 && after < candidate
      invariant NoSlotBetween(crons, cron, after, candidate)
      invariant Search(crons, cron, candidate, deadline) == Next(crons, cron, after)
      decreases deadline - candidate
    {
      if crons(cron, candidate) {
        return Some(candidate);
      }
      SkipMinute(crons, cron, after, candidate);
      candidate := candidate + MINUTE;
    }
    return None;
  }

  lemma SkipMinute(crons: Crons, cron: CronId, after: Time, candidate: Time)
    requires candidate % MINUTE == 0 && !crons(cron, candidate) && NoSlotBetween(crons, cron, after, candidate)
    ensures NoSlotBetween(crons, cron, after, candidate + MINUTE)
  {
    forall t | after < t < candidate + MINUTE
      ensures !Slot(crons, cron, t)
    {
      if candidate < t {
        NotWhole(candidate, t);
      }
    }
  }

  lemma NotWhole(minute: Time, t: Time)
    requires minute % MINUTE == 0 && minute < t < minute + MINUTE
    ensures t % MINUTE != 0
  {
  }

  lemma {:induction false} SearchLeast(crons: Crons, cron: CronId, after: Time, candidate: Time, deadline: Time)
    requires candidate % MINUTE == 0 && after < candidate && NoSlotBetween(crons, cron, after, candidate)
    ensures var r := Search(crons, cron, candidate, deadline);
            r.Some? ==> Slot(crons, cron, r.value) && after < r.value && NoSlotBetween(crons, cron, after, r.value)
    decreases deadline - candidate
  {
    if candidate <= deadline && !crons(cron, candidate) {
      SkipMinute(crons, cron, after, candidate);
      SearchLeast(crons, cron, after, candidate + MINUTE, deadline);
    }
  }

  lemma NextIsLeast(crons: Crons, cron: CronId, after: Time)
    ensures var r := Next(crons, cron, after);
            r.Some? ==> Slot(crons, cron, r.value) && after < r.value && NoSlotBetween(crons, cron, after, r.value)
  {
    var first := Truncated(after + MINUTE);
    assert first % MINUTE == 0 && after < first <= after + MINUTE;
    forall t | after < t < first
      ensures !Slot(crons, cron, t)
    {
      NotWhole(first - MINUTE, t);
    }
    SearchLeast(crons, cron, after, first, after + WINDOW);
  }

  // --- the tables and the schedulers -------------------------------------------------------

  datatype Status = Pending | Triggered | Failed

  datatype Row = Row(enabled: bool, cron: CronId, next: Option<Time>, error: bool)

  /** `Read` is a possibly stale copy of the row, `Firing` and `Created` of one pending fire; then one
      update of the schedule itself is left, to clear its error or to stop it. */
  datatype Worker =
    | Idle
    | Read(cron: CronId, next: Option<Time>)
    | Firing(slot: Time)
    | Created(slot: Time)
    | Recorded
    | Refused

  /** `first` is the slot the current stretch started at, `stretches` how many there were; both are
      history.  `fires` is keyed by slot and `pipelines` by the slot's idempotency key, the unique
      keys of their tables. */
  datatype State = State(row: Row, fires: map<Time, Status>, pipelines: seq<Time>, now: Time,
                         workers: map<WorkerId, Worker>, first: Time, stretches: nat)

  /** An update that fails is ignored: `written` says whether it reached the table. */
  datatype Reply = Made | ServerError(committed: bool) | ClientError(written: bool)

  datatype Act =
    | Pass(time: nat)
    | Save(cron: CronId, enabled: bool, clock: Time)
    | ReadDue(worker: WorkerId)
    | Materialize(worker: WorkerId, clock: Time)
    | ReadPending(worker: WorkerId, slot: Time)
    | Create(worker: WorkerId, reply: Reply)
    | Record(worker: WorkerId, written: bool)
    | Clear(worker: WorkerId)
    | Stop(worker: WorkerId)
    | Die(worker: WorkerId)

  function WorkerOf(s: State, w: WorkerId): Worker {
    if w in s.workers then s.workers[w] else Idle
  }

  function Stretch(s: State, next: Option<Time>): State {
    if next.None? then s else s.(first := next.value, stretches := s.stretches + 1)
  }

  /** Saving a schedule recomputes its next slot; an expression without a slot is refused. */
  function SaveStep(crons: Crons, s: State, cron: CronId, enabled: bool, clock: Time): State {
    var next := if enabled then Next(crons, cron, clock) else None;
    if enabled && next.None? then s
    else Stretch(s.(row := Row(enabled, cron, next, false)), next)
  }

  function Errored(row: Row): Row {
    row.(next := None, error := true)
  }

  function MaterializeStep(crons: Crons, s: State, read: Worker, clock: Time): State
    requires read.Read?
  {
    match read.next
    case None =>
      var next := Next(crons, read.cron, clock);
      if next.None? then s.(row := Errored(s.row))
      else if s.row.enabled && s.row.next.None? then Stretch(s.(row := s.row.(next := next, error := false)), next)
      else s
    case Some(slot) =>
      var following := Next(crons, read.cron, slot);
      if following.None? then s.(row := Errored(s.row))
      else if s.row.enabled && s.row.next == Some(slot) then
        s.(row := s.row.(next := following, error := false),
           fires := if slot in s.fires then s.fires else s.fires[slot := Pending])
      else s
  }

  /** Pipeline creation is idempotent per key. */
  function Ensured(pipelines: seq<Time>, slot: Time): seq<Time> {
    if slot in pipelines then pipelines else pipelines + [slot]
  }

  function CreateStep(s: State, w: WorkerId, slot: Time, reply: Reply): State {
    match reply
    case Made => s.(pipelines := Ensured(s.pipelines, slot), workers := s.workers[w := Created(slot)])
    case ServerError(committed) =>
      s.(pipelines := if committed then Ensured(s.pipelines, slot) else s.pipelines, workers := s.workers[w := Idle])
    case ClientError(written) =>
      s.(fires := if written && slot in s.fires then s.fires[slot := Failed] else s.fires,
         workers := s.workers[w := Refused])
  }

  function RecordStep(s: State, w: WorkerId, slot: Time, written: bool): State {
    s.(fires := if written && slot in s.fires && s.fires[slot] == Pending then s.fires[slot := Triggered] else s.fires,
       workers := s.workers[w := Recorded])
  }

  function Perform(crons: Crons, s: State, act: Act): State {
    match act
    case Pass(time) => s.(now := s.now + time)
    case Save(cron, enabled, clock) => SaveStep(crons, s, cron, enabled, clock)
    case ReadDue(w) =>
      if s.row.enabled && !s.row.error && (s.row.next.None? || s.row.next.value <= s.now)
      then s.(workers := s.workers[w := Read(s.row.cron, s.row.next)]) else s
    case Materialize(w, clock) =>
      var worker := WorkerOf(s, w);
      if worker.Read? then MaterializeStep(crons, s, worker, clock).(workers := s.workers[w := Idle]) else s
    case ReadPending(w, slot) =>
      if slot in s.fires && s.fires[slot] == Pending then s.(workers := s.workers[w := Firing(slot)]) else s
    case Create(w, reply) =>
      var worker := WorkerOf(s, w);
      if worker.Firing? then CreateStep(s, w, worker.slot, reply) else s
    case Record(w, written) =>
      var worker := WorkerOf(s, w);
      if worker.Created? then RecordStep(s, w, worker.slot, written) else s
    case Clear(w) =>
      if WorkerOf(s, w).Recorded? then s.(row := s.row.(error := false), workers := s.workers[w := Idle]) else s
    case Stop(w) => if WorkerOf(s, w).Refused? then s.(row := Errored(s.row), workers := s.workers[w := Idle]) else s
    case Die(w) => s.(workers := s.workers[w := Idle])
  }

  const EMPTY := State(Row(false, 0, None, false), map[], [], 0, map[], 0, 0)

  function Run(crons: Crons, acts: seq<Act>): State {
    if acts == [] then EMPTY else Perform(crons, Run(crons, acts[..|acts| - 1]), acts[|acts| - 1])
  }

  /** Every save in the run keeps one expression. */
  predicate OneCron(acts: seq<Act>, cron: CronId) {
    forall i :: 0 <= i < |acts| && acts[i].Save? ==> acts[i].cron == cron
  }

  // --- slots -------------------------------------------------------------------------------

  /** From `first` up to `next` the recorded fires are exactly the slots. */
  ghost predicate Exact(crons: Crons, cron: CronId, fires: map<Time, Status>, first: Time, next: Time) {
    && first <= next && Slot(crons, cron, next)
    && forall t :: first <= t < next ==> (t in fires <==> Slot(crons, cron, t))
  }

  ghost predicate AllSlots(crons: Crons, cron: CronId, fires: map<Time, Status>) {
    forall t :: t in fires ==> Slot(crons, cron, t)
  }

  ghost predicate Within(fires: map<Time, Status>, first: Time, next: Time) {
    forall t :: t in fires ==> first <= t < next
  }

  ghost predicate SlotInv(crons: Crons, cron: CronId, s: State) {
    && (s.stretches > 0 || s.row.next.Some? || s.row.enabled ==> s.row.cron == cron)
    && (forall w :: w in s.workers && s.workers[w].Read? ==> s.workers[w].cron == cron)
    && (s.row.next.Some? ==> s.stretches > 0 && Exact(crons, cron, s.fires, s.first, s.row.next.value))
    && AllSlots(crons, cron, s.fires)
    && (s.stretches == 0 ==> s.fires == map[])
    && (s.stretches == 1 && s.row.next.Some? ==> Within(s.fires, s.first, s.row.next.value))
    && (forall w :: w in s.workers && (s.workers[w].Firing? || s.workers[w].Created?) ==> s.workers[w].slot in s.fires)
  }

  lemma MaterializeKeeps(crons: Crons, cron: CronId, s: State, w: WorkerId, clock: Time)
    requires SlotInv(crons, cron, s)
    ensures SlotInv(crons, cron, Perform(crons, s, Materialize(w, clock)))
  {
    hide Next;
    var worker := WorkerOf(s, w);
    if worker.Read? {
      NextIsLeast(crons, cron, clock);
      if worker.next.Some? {
        NextIsLeast(crons, cron, worker.next.value);
      }
    }
  }

  lemma StepKeeps(crons: Crons, cron: CronId, s: State, act: Act)
    requires SlotInv(crons, cron, s) && (act.Save? ==> act.cron == cron)
    ensures SlotInv(crons, cron, Perform(crons, s, act))
  {
    hide Next;
    match act {
      case Save(_, enabled, clock) => NextIsLeast(crons, cron, clock);
      case Materialize(w, clock) => MaterializeKeeps(crons, cron, s, w, clock);
      case _ =>
    }
  }

  lemma {:induction false} SlotsAlways(crons: Crons, cron: CronId, acts: seq<Act>)
    requires OneCron(acts, cron)
    ensures SlotInv(crons, cron, Run(crons, acts))
    decreases |acts|
  {
    if acts != [] {
      SlotsAlways(crons, cron, acts[..|acts| - 1]);
      StepKeeps(crons, cron, Run(crons, acts[..|acts| - 1]), acts[|acts| - 1]);
    }
  }

  /** With any number of schedulers racing on stale reads, dying, failing and retrying: since the
      stretch began, the recorded fires are exactly the cron slots before the next fire time; and
      while no error or save started a second stretch, there is no other fire at all. */
  lemma FiresAreConsecutiveSlots(crons: Crons, cron: CronId, acts: seq<Act>, t: Time)
    requires OneCron(acts, cron)
    ensures var s := Run(crons, acts);
            s.row.next.Some? ==>
              && (s.first <= t < s.row.next.value ==> (t in s.fires <==> Slot(crons, cron, t)))
              && (s.stretches == 1 ==> (t in s.fires <==> Slot(crons, cron, t) && s.first <= t < s.row.next.value))
  {
    SlotsAlways(crons, cron, acts);
  }

  // --- saves that change the expression -------------------------------------------------------

  /** The fires since the stretch began are exactly the slots of the row's own expression. */
  ghost predicate SlotsExact(crons: Crons, s: State) {
    s.row.next.Some? ==> Exact(crons, s.row.cron, s.fires, s.first, s.row.next.value)
  }

  ghost predicate FiresBefore(fires: map<Time, Status>, next: Option<Time>) {
    next.Some? ==> forall t :: t in fires ==> t < next.value
  }

  /** What a reader's copy must satisfy before it moves the row: its expression, possibly of before a
      save, agrees with the row's about the slot that follows, or arms the row at one of its slots. */
  predicate Harmless(crons: Crons, s: State, act: Act) {
    act.Materialize? && WorkerOf(s, act.worker).Read? && s.row.enabled && s.row.next == WorkerOf(s, act.worker).next ==>
      var read := WorkerOf(s, act.worker);
      match read.next
      case Some(slot) => Next(crons, read.cron, slot).Some? ==>
          Next(crons, read.cron, slot) == Next(crons, s.row.cron, slot)
      case None => Next(crons, read.cron, act.clock).Some? ==>
          Slot(crons, s.row.cron, Next(crons, read.cron, act.clock).value)
  }

  /** The fire time at which a save or a re-arming reader starts the schedule, from a clock it read
      some time before. */
  function Start(crons: Crons, s: State, act: Act): Option<Time> {
    match act
    case Save(cron, enabled, clock) => if enabled then Next(crons, cron, clock) else None
    case Materialize(w, clock) =>
      var read := WorkerOf(s, w);
      if read.Read? && read.next.None? && s.row.enabled && s.row.next.None? then Next(crons, read.cron, clock) else None
    case _ => None
  }

  /** It lies after every recorded fire. */
  ghost predicate StartFits(crons: Crons, s: State, act: Act) {
    FiresBefore(s.fires, Start(crons, s, act))
  }

  /** It still lies ahead when it is written. */
  predicate StartAhead(crons: Crons, s: State, act: Act) {
    Start(crons, s, act).Some? ==> Start(crons, s, act).value > s.now
  }

  lemma {:induction false} SearchFinds(crons: Crons, cron: CronId, after: Time, candidate: Time, deadline: Time,
                                       slot: Time)
    requires candidate % MINUTE == 0 && after < candidate <= slot <= deadline && Slot(crons, cron, slot)
    requires NoSlotBetween(crons, cron, after, slot)
    ensures Search(crons, cron, candidate, deadline) == Some(slot)
    decreases slot - candidate
  {
    if candidate < slot {
      assert !Slot(crons, cron, candidate);
      if slot < candidate + MINUTE {
        NotWhole(candidate, slot);
      }
      SearchFinds(crons, cron, after, candidate + MINUTE, deadline, slot);
    }
  }

  /** The next slot is the one slot inside the window that nothing precedes. */
  lemma NextExactly(crons: Crons, cron: CronId, after: Time, slot: Time)
    ensures Next(crons, cron, after) == Some(slot) <==>
              Slot(crons, cron, slot) && after < slot <= after + WINDOW && NoSlotBetween(crons, cron, after, slot)
  {
    NextIsLeast(crons, cron, after);
    NextInWindow(crons, cron, Truncated(after + MINUTE), after + WINDOW);
    if Slot(crons, cron, slot) && after < slot <= after + WINDOW && NoSlotBetween(crons, cron, after, slot) {
      var first := Truncated(after + MINUTE);
      if slot < first {
        NotWhole(first - MINUTE, slot);
      }
      SearchFinds(crons, cron, after, first, after + WINDOW, slot);
    }
  }

  lemma {:induction false} NextInWindow(crons: Crons, cron: CronId, candidate: Time, deadline: Time)
    ensures var r := Search(crons, cron, candidate, deadline); r.Some? ==> r.value <= deadline
    decreases deadline - candidate
  {
    if candidate <= deadline && !crons(cron, candidate) {
      NextInWindow(crons, cron, candidate + MINUTE, deadline);
    }
  }

  /** Moving on from `slot` to `n` keeps the fires exact iff `n` is the expression's own next slot. */
  lemma MovingExactly(crons: Crons, cron: CronId, fires: map<Time, Status>, first: Time, slot: Time, status: Status,
                      n: Time)
    requires Exact(crons, cron, fires, first, slot) && FiresBefore(fires, Some(slot)) && slot < n <= slot + WINDOW
    ensures Exact(crons, cron, fires[slot := status], first, n) <==> Next(crons, cron, slot) == Some(n)
  {
    hide Next;
    NextExactly(crons, cron, slot, n);
    if Exact(crons, cron, fires[slot := status], first, n) {
      forall t | slot < t < n
        ensures !Slot(crons, cron, t)
      {
        assert t !in fires[slot := status];
      }
    }
  }

  /** One step keeps the fires exact precisely when it is harmless. */
  lemma StepExactly(crons: Crons, s: State, act: Act)
    requires SlotsExact(crons, s) && FiresBefore(s.fires, s.row.next)
    ensures SlotsExact(crons, Perform(crons, s, act)) <==> Harmless(crons, s, act)
  {
    hide Next, Exact, FiresBefore;
    match act {
      case Save(cron, enabled, clock) =>
        NextIsLeast(crons, cron, clock);
        SaveExact(crons, s, cron, enabled, clock);
      case Materialize(w, clock) => MaterializeExactly(crons, s, w, clock);
      case Create(w, reply) => KeysExact(crons, s, act);
      case Record(w, _) => KeysExact(crons, s, act);
      case _ =>
    }
  }

  lemma StartsExact(crons: Crons, cron: CronId, fires: map<Time, Status>, next: Time)
    ensures Exact(crons, cron, fires, next, next) <==> Slot(crons, cron, next)
  {
  }

  lemma SaveExact(crons: Crons, s: State, cron: CronId, enabled: bool, clock: Time)
    requires SlotsExact(crons, s)
    ensures SlotsExact(crons, SaveStep(crons, s, cron, enabled, clock))
  {
    hide Next, Exact;
    NextIsLeast(crons, cron, clock);
    var next := Next(crons, cron, clock);
    if next.Some? {
      StartsExact(crons, cron, s.fires, next.value);
    }
  }

  lemma MaterializeExactly(crons: Crons, s: State, w: WorkerId, clock: Time)
    requires SlotsExact(crons, s) && FiresBefore(s.fires, s.row.next)
    ensures SlotsExact(crons, Perform(crons, s, Materialize(w, clock))) <==> Harmless(crons, s, Materialize(w, clock))
  {
    hide Next, Exact, FiresBefore;
    var read := WorkerOf(s, w);
    if read.Read? && read.next.Some? && s.row.enabled && s.row.next == read.next {
      var slot := read.next.value;
      var following := Next(crons, read.cron, slot);
      if following.Some? {
        NextExactly(crons, read.cron, slot, following.value);
        SlotNotYetFired(s.fires, slot);
        MovingExactly(crons, s.row.cron, s.fires, s.first, slot, Pending, following.value);
      }
    } else if read.Read? && read.next.None? {
      var next := Next(crons, read.cron, clock);
      if next.Some? {
        StartsExact(crons, s.row.cron, s.fires, next.value);
      }
    }
  }

  lemma SlotNotYetFired(fires: map<Time, Status>, slot: Time)
    requires FiresBefore(fires, Some(slot))
    ensures slot !in fires
  {
  }

  /** Pipeline steps change no slot. */
  lemma KeysExact(crons: Crons, s: State, act: Act)
    requires SlotsExact(crons, s) && (act.Create? || act.Record?)
    ensures SlotsExact(crons, Perform(crons, s, act))
  {
    var worker := WorkerOf(s, act.worker);
  }

  // --- recorded fires lie before the next one ---------------------------------------------------

  /** Fires, and the slots that workers are about to record, are due and lie before the next fire time. */
  ghost predicate PastInv(s: State) {
    && FiresBefore(s.fires, s.row.next)
    && (forall t :: t in s.fires ==> t <= s.now)
    && (forall w :: w in s.workers && s.workers[w].Read? && s.workers[w].next.Some? ==>
          s.workers[w].next.value <= s.now)
    && (forall w :: w in s.workers && (s.workers[w].Firing? || s.workers[w].Created?) ==> s.workers[w].slot in s.fires)
  }

  lemma PastKeeps(crons: Crons, s: State, act: Act)
    requires PastInv(s) && StartFits(crons, s, act)
    ensures PastInv(Perform(crons, s, act))
  {
    hide Next, Slot;
    match act {
      case Save(cron, enabled, clock) => NextIsLeast(crons, cron, clock);
      case Materialize(w, clock) =>
        var read := WorkerOf(s, w);
        if read.Read? {
          NextIsLeast(crons, read.cron, if read.next.Some? then read.next.value else clock);
        }
      case _ =>
    }
  }

  ghost predicate StartsFit(crons: Crons, acts: seq<Act>) {
    forall k :: 0 <= k < |acts| ==> StartFits(crons, Run(crons, acts[..k]), acts[k])
  }

  lemma {:induction false} PastAlways(crons: Crons, acts: seq<Act>)
    requires StartsFit(crons, acts)
    ensures PastInv(Run(crons, acts))
    decreases |acts|
  {
    hide Perform, StartFits;
    if acts != [] {
      var n := |acts| - 1;
      assert forall k :: 0 <= k < n ==> acts[..n][..k] == acts[..k] && acts[..n][k] == acts[k];
      PastAlways(crons, acts[..n]);
      PastKeeps(crons, Run(crons, acts[..n]), acts[n]);
    }
  }

  /** Every fire time a save or a re-arming reader writes still lies ahead. */
  ghost predicate StartsAhead(crons: Crons, acts: seq<Act>) {
    forall k :: 0 <= k < |acts| ==> StartAhead(crons, Run(crons, acts[..k]), acts[k])
  }

  /** A clock reading that is not behind the database's time at the write is enough. */
  lemma CurrentReadingStartsAhead(crons: Crons, s: State, act: Act)
    requires act.Save? || act.Materialize? ==> act.clock >= s.now
    ensures StartAhead(crons, s, act)
  {
    hide Next;
    if act.Save? {
      NextIsLeast(crons, act.cron, act.clock);
    } else if act.Materialize? && WorkerOf(s, act.worker).Read? {
      NextIsLeast(crons, WorkerOf(s, act.worker).cron, act.clock);
    }
  }

  /** Then it lies after every recorded fire, since no fire lies in the future. */
  lemma {:induction false} StartsAheadFit(crons: Crons, acts: seq<Act>)
    requires StartsAhead(crons, acts)
    ensures StartsFit(crons, acts)
    decreases |acts|
  {
    hide Perform;
    if acts != [] {
      var n := |acts| - 1;
      assert forall k :: 0 <= k < n ==> acts[..n][..k] == acts[..k] && acts[..n][k] == acts[k];
      StartsAheadFit(crons, acts[..n]);
      PastAlways(crons, acts[..n]);
      forall k | 0 <= k < |acts|
        ensures StartFits(crons, Run(crons, acts[..k]), acts[k])
      {
        if k < n {
          assert StartFits(crons, Run(crons, acts[..n][..k]), acts[..n][k]);
        }
      }
    }
  }

  ghost predicate AlwaysExact(crons: Crons, acts: seq<Act>) {
    forall k :: 0 <= k <= |acts| ==> SlotsExact(crons, Run(crons, acts[..k]))
  }

  ghost predicate AlwaysHarmless(crons: Crons, acts: seq<Act>) {
    forall k :: 0 <= k < |acts| ==> Harmless(crons, Run(crons, acts[..k]), acts[k])
  }

  /** Saves may change the expression at any time: throughout a run the recorded fires of the stretch
      are exactly the slots of the expression in force if and only if every stale reader that moved
      the row was harmless. */
  lemma {:induction false} ExactExactly(crons: Crons, acts: seq<Act>)
    requires StartsFit(crons, acts)
    ensures AlwaysExact(crons, acts) <==> AlwaysHarmless(crons, acts)
    decreases |acts|
  {
    hide Perform, StartFits, SlotsExact, Harmless;
    if acts == [] {
      StartExact(crons);
      assert acts[..0] == [];
    } else {
      var n := |acts| - 1;
      var front := acts[..n];
      assert forall k :: 0 <= k <= n ==> front[..k] == acts[..k];
      assert forall k :: 0 <= k < n ==> front[k] == acts[k];
      ExactExactly(crons, front);
      PastAlways(crons, front);
      assert front[..n] == front && acts[..n + 1] == acts;
      if SlotsExact(crons, Run(crons, front)) {
        StepExactly(crons, Run(crons, front), acts[n]);
      }
      AlwaysExactSnoc(crons, acts);
    }
  }

  lemma AlwaysExactSnoc(crons: Crons, acts: seq<Act>)
    requires acts != []
    ensures var front := acts[..|acts| - 1];
            AlwaysExact(crons, acts) <==> AlwaysExact(crons, front) && SlotsExact(crons, Run(crons, acts))
    ensures var front := acts[..|acts| - 1];
            AlwaysExact(crons, front) ==> SlotsExact(crons, Run(crons, front))
    ensures var n := |acts| - 1;
            AlwaysHarmless(crons, acts) <==>
                AlwaysHarmless(crons, acts[..n]) && Harmless(crons, Run(crons, acts[..n]), acts[n])
  {
    hide Run, SlotsExact, Harmless;
    var n := |acts| - 1;
    var front := acts[..n];
    assert forall k :: 0 <= k <= n ==> front[..k] == acts[..k];
    assert forall k :: 0 <= k < n ==> front[k] == acts[k];
    assert acts[..n + 1] == acts && front[..n] == front;
    if AlwaysExact(crons, acts) {
      assert SlotsExact(crons, Run(crons, acts[..n + 1]));
      forall k | 0 <= k <= |front|
        ensures SlotsExact(crons, Run(crons, front[..k]))
      {
        assert SlotsExact(crons, Run(crons, acts[..k]));
      }
    }
    if AlwaysExact(crons, front) && SlotsExact(crons, Run(crons, acts)) {
      forall k | 0 <= k <= |acts|
        ensures SlotsExact(crons, Run(crons, acts[..k]))
      {
        if k <= n {
          assert SlotsExact(crons, Run(crons, front[..k]));
        }
      }
    }
    if AlwaysHarmless(crons, front) && Harmless(crons, Run(crons, front), acts[n]) {
      forall k | 0 <= k < |acts|
        ensures Harmless(crons, Run(crons, acts[..k]), acts[k])
      {
        if k < n {
          assert Harmless(crons, Run(crons, front[..k]), front[k]);
        }
      }
    }
    if AlwaysHarmless(crons, acts) {
      forall k | 0 <= k < |front|
        ensures Harmless(crons, Run(crons, front[..k]), front[k])
      {
        assert Harmless(crons, Run(crons, acts[..k]), acts[k]);
      }
    }
  }

  lemma StartExact(crons: Crons)
    ensures SlotsExact(crons, Run(crons, []))
  {
  }

  /** A reader whose copy has the expression in force is harmless. */
  lemma CurrentReaderIsHarmless(crons: Crons, s: State, w: WorkerId, clock: Time)
    requires WorkerOf(s, w).Read? ==> WorkerOf(s, w).cron == s.row.cron
    ensures Harmless(crons, s, Materialize(w, clock))
  {
    hide Next;
    NextIsLeast(crons, s.row.cron, clock);
  }

  // --- starts that lie ahead ------------------------------------------------------------------------

  /** Copies with a slot lie behind the row, or at it with the expression in force. */
  ghost predicate ReadersBehind(s: State) {
    forall w :: w in s.workers && s.workers[w].Read? && s.workers[w].next.Some? && s.row.next.Some? ==>
      || s.workers[w].next.value < s.row.next.value
      || (s.workers[w].next == s.row.next && s.workers[w].cron == s.row.cron)
  }

  lemma ReadersKeep(crons: Crons, s: State, act: Act)
    requires PastInv(s) && ReadersBehind(s) && StartAhead(crons, s, act)
    ensures ReadersBehind(Perform(crons, s, act))
  {
    hide Next, Slot;
    match act {
      case Save(cron, enabled, clock) => NextIsLeast(crons, cron, clock);
      case Materialize(w, clock) =>
        var read := WorkerOf(s, w);
        if read.Read? {
          NextIsLeast(crons, read.cron, if read.next.Some? then read.next.value else clock);
        }
      case _ =>
    }
  }

  lemma {:induction false} ReadersAlwaysBehind(crons: Crons, acts: seq<Act>)
    requires StartsAhead(crons, acts)
    ensures ReadersBehind(Run(crons, acts))
    decreases |acts|
  {
    hide Perform;
    if acts != [] {
      var n := |acts| - 1;
      assert forall k :: 0 <= k < n ==> acts[..n][..k] == acts[..k] && acts[..n][k] == acts[k];
      ReadersAlwaysBehind(crons, acts[..n]);
      StartsAheadFit(crons, acts[..n]);
      PastAlways(crons, acts[..n]);
      ReadersKeep(crons, Run(crons, acts[..n]), acts[n]);
    }
  }

  /** Every reader that arms a schedule without a next fire time holds the expression in force. */
  ghost predicate ArmedCurrently(crons: Crons, acts: seq<Act>) {
    forall k :: 0 <= k < |acts| && acts[k].Materialize? ==>
      var s := Run(crons, acts[..k]);
      var read := WorkerOf(s, acts[k].worker);
      read.Read? && read.next.None? && s.row.next.None? && s.row.enabled ==> read.cron == s.row.cron
  }

  /** Then the compare-and-swap itself turns every stale copy of a slot away, whatever saves happen;
      only a stale reader that re-arms an errored schedule could do harm. */
  lemma StartsAheadAreExact(crons: Crons, acts: seq<Act>)
    requires StartsAhead(crons, acts) && ArmedCurrently(crons, acts)
    ensures AlwaysExact(crons, acts)
  {
    hide Perform, Run, Next;
    StartsAheadFit(crons, acts);
    forall k | 0 <= k < |acts|
      ensures Harmless(crons, Run(crons, acts[..k]), acts[k])
    {
      var s, act := Run(crons, acts[..k]), acts[k];
      if act.Materialize? && WorkerOf(s, act.worker).Read? && s.row.enabled
        && s.row.next == WorkerOf(s, act.worker).next {
        StartsAheadFront(crons, acts, k);
        ReadersAlwaysBehind(crons, acts[..k]);
        CurrentReaderIsHarmless(crons, s, act.worker, act.clock);
      }
    }
    hide Harmless;
    ExactExactly(crons, acts);
  }

  lemma StartsAheadFront(crons: Crons, acts: seq<Act>, n: nat)
    requires StartsAhead(crons, acts) && n <= |acts|
    ensures StartsAhead(crons, acts[..n])
  {
    hide Run;
    assert forall k :: 0 <= k < n ==> acts[..n][..k] == acts[..k] && acts[..n][k] == acts[k];
  }

  // --- runs that lose slots -----------------------------------------------------------------------

  lemma Snoc(crons: Crons, acts: seq<Act>, act: Act) returns (more: seq<Act>)
    ensures Run(crons, more) == Perform(crons, Run(crons, acts), act)
  {
    more := acts + [act];
    assert more[..|acts|] == acts;
  }

  /** A stale reader moves the schedule on by the old expression, here past a slot of the new one: the
      save started it at a slot of both that had come due since its clock was read. */
  lemma StaleReaderSkipsSlot() returns (crons: Crons, acts: seq<Act>)
    ensures var s := Run(crons, acts);
            && s.row.cron == 1 && s.row.next.Some? && s.stretches == 2
            && s.first < MINUTE * 2 < s.row.next.value && Slot(crons, 1, MINUTE * 2) && MINUTE * 2 !in s.fires
  {
    crons := (cron, t) => cron == 1 || t == MINUTE || t == MINUTE * 3;
    assert Truncated(MINUTE) == MINUTE && Truncated(MINUTE * 2) == MINUTE * 2;
    assert Search(crons, 0, MINUTE * 3, MINUTE + WINDOW) == Some(MINUTE * 3);
    assert Search(crons, 0, MINUTE * 2, MINUTE + WINDOW) == Some(MINUTE * 3);
    acts := [];
    acts := Snoc(crons, acts, Save(0, true, 0));
    acts := Snoc(crons, acts, Pass(MINUTE));
    acts := Snoc(crons, acts, ReadDue(0));
    acts := Snoc(crons, acts, Save(1, true, 0));
    acts := Snoc(crons, acts, Materialize(0, 0));
  }

  predicate EveryMinuteThenOne(cron: CronId, t: Time) {
    cron == 0 || t == MINUTE * 100
  }

  lemma NextMinute(crons: Crons, minute: Time)
    requires minute % MINUTE == 0 && forall t :: crons(0, t)
    ensures Next(crons, 0, minute) == Some(minute + MINUTE)
  {
    assert Truncated(minute + MINUTE) == minute + MINUTE;
  }

  /** Expression 0, which matches every minute, has fired twice. */
  lemma TwoFires(crons: Crons) returns (acts: seq<Act>)
    requires forall t :: crons(0, t)
    ensures Run(crons, acts)
         == State(Row(true, 0, Some(MINUTE * 3), false), map[MINUTE := Pending, MINUTE * 2 := Pending], [], MINUTE * 2,
                  map[0 := Idle], MINUTE, 1)
  {
    NextMinute(crons, 0);
    NextMinute(crons, MINUTE);
    NextMinute(crons, MINUTE * 2);
    hide Run, Next;
    acts := [];
    assert Run(crons, acts) == EMPTY by { RunNothing(crons); }
    acts := Snoc(crons, acts, Save(0, true, 0));
    acts := Snoc(crons, acts, Pass(MINUTE * 2));
    acts := Snoc(crons, acts, ReadDue(0));
    acts := Snoc(crons, acts, Materialize(0, MINUTE * 2));
    acts := Snoc(crons, acts, ReadDue(0));
    acts := Snoc(crons, acts, Materialize(0, MINUTE * 2));
    assert Run(crons, acts).fires == map[MINUTE := Pending, MINUTE * 2 := Pending];
    assert Run(crons, acts).workers == map[0 := Idle];
  }

  /** Its first fire has its pipeline, and its second is held by workers 1 and 3. */
  lemma TwoFiresHeld() returns (acts: seq<Act>)
    ensures Run(EveryMinuteThenOne, acts)
         == State(Row(true, 0, Some(MINUTE * 3), false), map[MINUTE := Pending, MINUTE * 2 := Pending], [MINUTE],
                  MINUTE * 2, map[0 := Created(MINUTE), 1 := Firing(MINUTE * 2), 3 := Firing(MINUTE * 2)], MINUTE, 1)
  {
    hide Run, Next;
    var crons := EveryMinuteThenOne;
    acts := TwoFires(crons);
    acts := Snoc(crons, acts, ReadPending(0, MINUTE));
    acts := Snoc(crons, acts, Create(0, Made));
    acts := Snoc(crons, acts, ReadPending(1, MINUTE * 2));
    acts := Snoc(crons, acts, ReadPending(3, MINUTE * 2));
    assert Run(crons, acts).workers == map[0 := Created(MINUTE), 1 := Firing(MINUTE * 2), 3 := Firing(MINUTE * 2)];
  }

  /** It is refused to both; worker 1 has stopped the schedule and worker 3 is about to. */
  lemma TwoFiresOneRefused() returns (acts: seq<Act>)
    ensures Run(EveryMinuteThenOne, acts)
         == State(Row(true, 0, None, true), map[MINUTE := Triggered, MINUTE * 2 := Failed], [MINUTE], MINUTE * 2,
                  map[0 := Recorded, 1 := Idle, 3 := Refused], MINUTE, 1)
  {
    hide Run, Next;
    var crons := EveryMinuteThenOne;
    acts := TwoFiresHeld();
    acts := Snoc(crons, acts, Create(1, ClientError(true)));
    acts := Snoc(crons, acts, Stop(1));
    acts := Snoc(crons, acts, Create(3, ClientError(true)));
    acts := Snoc(crons, acts, Record(0, true));
    assert Run(crons, acts).fires == map[MINUTE := Triggered, MINUTE * 2 := Failed];
    assert Run(crons, acts).workers == map[0 := Recorded, 1 := Idle, 3 := Refused];
  }

  lemma RunNothing(crons: Crons)
    ensures Run(crons, []) == EMPTY
  {
  }

  /** The one harmful reader left: it copied a schedule that an error had stopped, and re-arms it by
      the old expression after a save and a second error. */
  lemma ArmingReaderMisfires() returns (acts: seq<Act>)
    ensures var s := Run(EveryMinuteThenOne, acts);
            s.row.cron == 1 && s.row.next == Some(MINUTE * 3) && !SlotsExact(EveryMinuteThenOne, s)
  {
    hide Run;
    var crons := EveryMinuteThenOne;
    acts := TwoFiresOneRefused();
    assert Truncated(MINUTE * 3) == MINUTE * 3;
    OnlySlot();
    hide Next, Search;
    assert Next(crons, 0, MINUTE * 2) == Some(MINUTE * 3) by { NextMinute(crons, MINUTE * 2); }
    acts := Snoc(crons, acts, Clear(0));
    acts := Snoc(crons, acts, ReadDue(2));
    acts := Snoc(crons, acts, Save(1, true, MINUTE * 2));
    acts := Snoc(crons, acts, Stop(3));
    acts := Snoc(crons, acts, Materialize(2, MINUTE * 2));
  }

  lemma OnlySlot()
    ensures Next(EveryMinuteThenOne, 1, MINUTE * 2) == Some(MINUTE * 100)
  {
    NextExactly(EveryMinuteThenOne, 1, MINUTE * 2, MINUTE * 100);
  }

  predicate EveryMinuteThenOdd(cron: CronId, t: Time) {
    cron == 0 || t == MINUTE || t == MINUTE * 3
  }

  /** A start before a recorded fire mixes in fires of the old expression, without any stale reader. */
  lemma LaggingClockMixesFires() returns (acts: seq<Act>)
    ensures var s := Run(EveryMinuteThenOdd, acts);
            && s.row.cron == 1 && s.row.next.Some? && s.first <= MINUTE * 2 < s.row.next.value
            && MINUTE * 2 in s.fires && !Slot(EveryMinuteThenOdd, 1, MINUTE * 2)
  {
    var crons := EveryMinuteThenOdd;
    NextExactly(crons, 1, 0, MINUTE);
    NextExactly(crons, 1, MINUTE, MINUTE * 3);
    hide Run, Next, Search;
    acts := TwoFires(crons);
    acts := Snoc(crons, acts, Save(1, true, 0));
    acts := Snoc(crons, acts, ReadDue(0));
    acts := Snoc(crons, acts, Materialize(0, MINUTE * 2));
  }

  // --- pipelines ---------------------------------------------------------------------------

  ghost predicate Distinct(s: seq<Time>) {
    forall i, j :: 0 <= i < j < |s| ==> s[i] != s[j]
  }

  ghost predicate PipelineInv(s: State) {
    && Distinct(s.pipelines)
    && (forall t :: t in s.pipelines ==> t in s.fires)
    && (forall t :: t in s.fires && s.fires[t] == Triggered ==> t in s.pipelines)
    && (forall w :: w in s.workers && s.workers[w].Firing? ==> s.workers[w].slot in s.fires)
    && (forall w :: w in s.workers && s.workers[w].Created? ==>
          s.workers[w].slot in s.fires && s.workers[w].slot in s.pipelines)
  }

  lemma PipelineKeeps(crons: Crons, s: State, act: Act)
    requires PipelineInv(s)
    ensures PipelineInv(Perform(crons, s, act))
  {
    hide Next;
  }

  lemma {:induction false} PipelinesAlways(crons: Crons, acts: seq<Act>)
    ensures PipelineInv(Run(crons, acts))
    decreases |acts|
  {
    if acts != [] {
      PipelinesAlways(crons, acts[..|acts| - 1]);
      PipelineKeeps(crons, Run(crons, acts[..|acts| - 1]), acts[|acts| - 1]);
    }
  }

  /** In every run, edits and errors included, a slot has at most one pipeline, pipelines stem only
      from recorded fires, and a fire marked triggered has its pipeline. */
  lemma OnePipelinePerSlot(crons: Crons, acts: seq<Act>, i: nat, j: nat, t: Time)
    ensures var s := Run(crons, acts);
            && (i < |s.pipelines| && j < |s.pipelines| && s.pipelines[i] == s.pipelines[j] ==> i == j)
            && (t in s.pipelines ==> t in s.fires)
            && (t in s.fires && s.fires[t] == Triggered ==> t in s.pipelines)
  {
    PipelinesAlways(crons, acts);
  }

  /** The key text of a fire. */
  function FireKey(schedule: string, slot: string): string {
    "schedule:" + schedule + ":" + slot
  }

  /** Different fires have different keys: schedule ids are UUID text and hold no colon. */
  lemma FireKeyInjective(a: string, s: string, b: string, t: string)
    requires ':' !in a && ':' !in b
    ensures FireKey(a, s) == FireKey(b, t) <==> a == b && s == t
  {
    var p: string := "schedule:";
    var x, y := FireKey(a, s), FireKey(b, t);
    assert x[|p|..] == a + ":" + s && y[|p|..] == b + ":" + t;
    if x == y {
      var u := x[|p|..];
      assert u[|a|] == ':' && u[|b|] == ':';
      assert a == u[..|a|] && b == u[..|b|];
      assert s == u[|a| + 1..] && t == u[|b| + 1..];
    }
  }
}

/** The Helm adapter: a durable marker precedes every submission, and readback classifies what an
    attempt did from the marker and the live release. */
module HelmReadback {
  import opened Prelude

  type Workspace = nat
  type ProcId = nat

  /** The `_forge` values a release carries. */
  datatype Meta = Meta(deployment: string, attempt: nat, pipeline: nat, lease: nat, generation: int,
                       commit: string, order: int, images: map<string, string>)

  datatype Rollback = Rollback(revision: nat, expectedCurrent: nat, metadata: Meta)

  datatype Offer = Offer(meta: Meta, rollback: Option<Rollback>)

  function Expected(o: Offer): Meta {
    if o.rollback.Some? then o.rollback.value.metadata else o.meta
  }

  datatype Identity = Identity(deployment: string, attempt: nat, lease: nat, generation: int, commit: string)

  function IdentityOf(o: Offer): Identity {
    Identity(o.meta.deployment, o.meta.attempt, o.meta.lease, o.meta.generation, o.meta.commit)
  }

  /** Created exclusively, then written and synced: a crash in between leaves a torn file. */
  datatype Marker = Missing | Torn | Whole(owner: Identity)

  datatype Status = Pending | Live | Broken

  datatype Revision = Revision(meta: Option<Meta>, description: string)

  /** Revisions are numbered from one; the version is the newest. */
  datatype Release = Release(revisions: seq<Revision>, status: Status)

  function Version(r: Release): nat {
    |r.revisions|
  }

  function LiveMeta(r: Release): Option<Meta> {
    if r.revisions == [] then None else r.revisions[|r.revisions| - 1].meta
  }

  const HISTORY_MAX: nat := 20

  function Description(o: Offer): string {
    "forge:" + o.meta.deployment
  }

  /** Whether the retained history names the deployment. */
  predicate InHistory(r: Release, o: Offer) {
    exists i :: 0 <= i < |r.revisions| && |r.revisions| - i <= HISTORY_MAX
      && r.revisions[i].description == Description(o)
  }

  function OrderOf(meta: Option<Meta>): int {
    if meta.Some? then meta.value.order else -1
  }

  // --- readback -----------------------------------------------------------------------------------

  datatype Verdict = Unavailable | NoEffect | Superseded | Uncertain | Failed(version: nat) | Deployed(version: nat)

  /** What `effect_marker` answers without creating: present, absent, or an error for a marker that
      is torn or of another execution. */
  datatype Presence = Absent | Present | Foreign

  function MarkerSays(m: Marker, o: Offer): Presence {
    match m
    case Missing => Absent
    case Torn => Foreign
    case Whole(owner) => if owner == IdentityOf(o) then Present else Foreign
  }

  function ByMarker(m: Marker, o: Offer, absent: Verdict): Verdict {
    match MarkerSays(m, o)
    case Absent => absent
    case Present => Uncertain
    case Foreign => Unavailable
  }

  function Proved(r: Release, healthy: bool): Verdict {
    match r.status
    case Pending => Uncertain
    case Broken => Failed(Version(r))
    case Live => if healthy then Deployed(Version(r)) else Failed(Version(r))
  }

  /** `seen` is the release read first; `m` and `history` are read afterwards. */
  function Readback(seen: Option<Release>, m: Marker, history: Option<Release>, o: Offer, healthy: bool): Verdict {
    if seen.None? then ByMarker(m, o, NoEffect)
    else
      var r := seen.value;
      if o.rollback.Some? then
        if Version(r) == o.rollback.value.expectedCurrent then ByMarker(m, o, NoEffect)
        else if Version(r) != o.rollback.value.expectedCurrent + 1 || LiveMeta(r) != Some(Expected(o)) then Uncertain
        else Proved(r, healthy)
      else if LiveMeta(r) != Some(o.meta) then
        ByMarker(m, o,
                 if history.None? then Unavailable
                 else if InHistory(history.value, o) then Uncertain
                 else if OrderOf(LiveMeta(r)) > o.meta.order then Superseded
                 else NoEffect)
      else Proved(r, healthy)
  }

  // --- apply --------------------------------------------------------------------------------------

  datatype Preflight = Refuse | JustRead | Go

  function Check(seen: Option<Release>, o: Offer): Preflight {
    if o.rollback.Some? then
      if seen.None? then Refuse
      else if Version(seen.value) == o.rollback.value.expectedCurrent + 1 && LiveMeta(seen.value) == Some(Expected(o))
        then JustRead
      else if Version(seen.value) != o.rollback.value.expectedCurrent || seen.value.status.Pending? then Refuse
      else Go
    else if seen.None? then Go
    else
      var meta := LiveMeta(seen.value);
      if meta.None? then Refuse
      else if meta.value.deployment == o.meta.deployment then JustRead
      else if seen.value.status.Pending? || meta.value.order > o.meta.order then Refuse
      else if meta.value.order == o.meta.order && meta.value.pipeline != o.meta.pipeline then Refuse
      else Go
  }

  // --- processes, crashes and the cluster -------------------------------------------------------------

  datatype Proc =
    | Idle
    | Ready(offer: Offer)
    | Writing(offer: Offer)
    | Marked(offer: Offer)
    | Reading(offer: Offer, seen: Option<Release>)

  /** `submitted` is the history of Helm submissions; any of them may still take effect. */
  datatype State = State(markers: map<Workspace, Marker>, release: Option<Release>, submitted: seq<Offer>,
                         procs: map<ProcId, Proc>)

  datatype Act =
    | Apply(proc: ProcId, offer: Offer)
    | Create(proc: ProcId)
    | Write(proc: ProcId)
    | Submit(proc: ProcId)
    | Read(proc: ProcId, offer: Offer)
    | Crash(proc: ProcId)
    | Land(index: nat)
    | Settle(status: Status)
    | Uninstall
    | Outside(copied: Option<nat>, description: string)

  type Home = nat -> Workspace

  function MarkerAt(s: State, w: Workspace): Marker {
    if w in s.markers then s.markers[w] else Missing
  }

  function ProcOf(s: State, p: ProcId): Proc {
    if p in s.procs then s.procs[p] else Idle
  }

  function Moved(s: State, p: ProcId, proc: Proc): State {
    s.(procs := s.procs[p := proc])
  }

  function ApplyStep(s: State, p: ProcId, o: Offer): State {
    match Check(s.release, o)
    case Refuse => Moved(s, p, Idle)
    case JustRead => Moved(s, p, Reading(o, s.release))
    case Go => Moved(s, p, Ready(o))
  }

  function CreateStep(home: Home, s: State, p: ProcId): State {
    var proc := ProcOf(s, p);
    if !proc.Ready? then s
    else
      var o, w := proc.offer, home(proc.offer.meta.attempt);
      match MarkerSays(MarkerAt(s, w), o)
      case Absent => Moved(s.(markers := s.markers[w := Torn]), p, Writing(o))
      case Present => Moved(s, p, Marked(o))
      case Foreign => Moved(s, p, Idle)
  }

  function WriteStep(home: Home, s: State, p: ProcId): State {
    var proc := ProcOf(s, p);
    if !proc.Writing? then s
    else Moved(s.(markers := s.markers[home(proc.offer.meta.attempt) := Whole(IdentityOf(proc.offer))]), p,
      Marked(proc.offer))
  }

  /** Acknowledged or not; the readback that follows is a step of its own. */
  function SubmitStep(s: State, p: ProcId): State {
    var proc := ProcOf(s, p);
    if !proc.Marked? then s
    else Moved(s.(submitted := s.submitted + [proc.offer]), p, Idle)
  }

  /** A submission takes effect as a new revision; a rollback reinstalls the values that the
      retained revision really has. */
  function LandStep(s: State, o: Offer): State {
    var revisions := if s.release.Some? then s.release.value.revisions else [];
    if o.rollback.None? then s.(release := Some(Release(revisions + [Revision(Some(o.meta), Description(o))], Pending)))
    else
      var n := o.rollback.value.revision;
      if 1 <= n <= |revisions| && |revisions| - n < HISTORY_MAX
      then s.(release := Some(Release(revisions + [Revision(revisions[n - 1].meta, "rollback")], Pending)))
      else s
  }

  /** Someone else may change the release, but only with values it already had or none of Forge's. */
  function OutsideStep(s: State, copied: Option<nat>, description: string): State {
    var revisions := if s.release.Some? then s.release.value.revisions else [];
    var meta := if copied.Some? && copied.value < |revisions| then revisions[copied.value].meta else None;
    s.(release := Some(Release(revisions + [Revision(meta, description)], Live)))
  }

  function Perform(home: Home, s: State, act: Act): State {
    match act
    case Apply(p, o) => ApplyStep(s, p, o)
    case Create(p) => CreateStep(home, s, p)
    case Write(p) => WriteStep(home, s, p)
    case Submit(p) => SubmitStep(s, p)
    case Read(p, o) => Moved(s, p, Reading(o, s.release))
    case Crash(p) => Moved(s, p, Idle)
    case Land(i) => if i < |s.submitted| then LandStep(s, s.submitted[i]) else s
    case Settle(status) => if s.release.Some? then s.(release := Some(s.release.value.(status := status))) else s
    case Uninstall => s.(release := None)
    case Outside(copied, description) => OutsideStep(s, copied, description)
  }

  const EMPTY := State(map[], None, [], map[])

  function Run(home: Home, acts: seq<Act>): State {
    if acts == [] then EMPTY else Perform(home, Run(home, acts[..|acts| - 1]), acts[|acts| - 1])
  }

  // --- what every step keeps --------------------------------------------------------------------------

  /** The attempt's workspace holds the attempt's own marker. */
  predicate Noted(home: Home, s: State, o: Offer) {
    MarkerAt(s, home(o.meta.attempt)) == Whole(IdentityOf(o))
  }

  ghost predicate ProcSound(home: Home, s: State, proc: Proc) {
    match proc
    case Marked(o) => Noted(home, s, o)
    case Writing(o) => MarkerAt(s, home(o.meta.attempt)) == Torn
    case Reading(_, seen) => seen.Some? ==> MetasSubmitted(s.submitted, seen.value)
    case _ => true
  }

  ghost predicate OneWriter(home: Home, procs: map<ProcId, Proc>) {
    forall p, q :: p in procs && q in procs && p != q && procs[p].Writing? && procs[q].Writing? ==>
      home(procs[p].offer.meta.attempt) != home(procs[q].offer.meta.attempt)
  }

  predicate Upgraded(submitted: seq<Offer>, m: Meta) {
    exists i :: 0 <= i < |submitted| && submitted[i].rollback.None? && submitted[i].meta == m
  }

  /** Only submitted upgrades put `_forge` values on the release. */
  ghost predicate MetasSubmitted(submitted: seq<Offer>, r: Release) {
    forall i :: 0 <= i < |r.revisions| && r.revisions[i].meta.Some? ==> Upgraded(submitted, r.revisions[i].meta.value)
  }

  ghost predicate Inv(home: Home, s: State) {
    && (forall i :: 0 <= i < |s.submitted| ==> Noted(home, s, s.submitted[i]))
    && (forall p :: p in s.procs ==> ProcSound(home, s, s.procs[p]))
    && OneWriter(home, s.procs)
    && (s.release.Some? ==> MetasSubmitted(s.submitted, s.release.value))
  }

  lemma SubmittedGrows(submitted: seq<Offer>, o: Offer, r: Release)
    requires MetasSubmitted(submitted, r)
    ensures MetasSubmitted(submitted + [o], r)
  {
    forall i | 0 <= i < |r.revisions| && r.revisions[i].meta.Some?
      ensures Upgraded(submitted + [o], r.revisions[i].meta.value)
    {
      var k :| 0 <= k < |submitted| && submitted[k].rollback.None? && submitted[k].meta == r.revisions[i].meta.value;
      assert (submitted + [o])[k] == submitted[k];
    }
  }

  lemma SubmitKeeps(home: Home, s: State, p: ProcId)
    requires Inv(home, s)
    ensures Inv(home, SubmitStep(s, p))
  {
    var proc := ProcOf(s, p);
    if proc.Marked? {
      var t := SubmitStep(s, p);
      hide MetasSubmitted;
      assert ProcSound(home, s, proc);
      if s.release.Some? {
        SubmittedGrows(s.submitted, proc.offer, s.release.value);
      }
      forall q | q in t.procs
        ensures ProcSound(home, t, t.procs[q])
      {
        if q != p {
          assert ProcSound(home, s, s.procs[q]);
          if s.procs[q].Reading? && s.procs[q].seen.Some? {
            SubmittedGrows(s.submitted, proc.offer, s.procs[q].seen.value);
          }
        }
      }
    }
  }

  lemma MarkerKeeps(home: Home, s: State, act: Act)
    requires Inv(home, s) && (act.Create? || act.Write?)
    ensures Inv(home, Perform(home, s, act))
  {
    hide MetasSubmitted;
    var t := Perform(home, s, act);
    var proc := ProcOf(s, act.proc);
    forall q | q in t.procs
      ensures ProcSound(home, t, t.procs[q])
    {
      if q != act.proc {
        assert ProcSound(home, s, s.procs[q]);
      }
    }
  }

  lemma LandKeeps(home: Home, s: State, i: nat)
    requires Inv(home, s) && i < |s.submitted|
    ensures Inv(home, LandStep(s, s.submitted[i]))
  {
    var o := s.submitted[i];
    assert o.rollback.None? ==> Upgraded(s.submitted, o.meta);
    var t := LandStep(s, o);
    hide Upgraded;
    assert t.release.Some? ==> MetasSubmitted(t.submitted, t.release.value);
    hide MetasSubmitted, LandStep;
  }

  lemma ReleaseKeeps(home: Home, s: State, act: Act)
    requires Inv(home, s) && (act.Settle? || act.Uninstall? || act.Outside?)
    ensures Inv(home, Perform(home, s, act))
  {
    hide Upgraded;
    var t := Perform(home, s, act);
    assert t.release.Some? ==> MetasSubmitted(t.submitted, t.release.value);
    hide MetasSubmitted, OutsideStep;
    assert forall p :: p in t.procs ==> ProcSound(home, s, t.procs[p]);
  }

  lemma MoveKeeps(home: Home, s: State, p: ProcId, proc: Proc)
    requires Inv(home, s) && (proc.Idle? || proc.Ready? || (proc.Reading? && proc.seen == s.release))
    ensures Inv(home, Moved(s, p, proc))
  {
    hide MetasSubmitted;
    var t := Moved(s, p, proc);
    forall q | q in t.procs
      ensures ProcSound(home, t, t.procs[q])
    {
      if q != p {
        assert ProcSound(home, s, s.procs[q]);
      }
    }
  }

  lemma StepKeeps(home: Home, s: State, act: Act)
    requires Inv(home, s)
    ensures Inv(home, Perform(home, s, act))
  {
    hide Inv, LandStep, OutsideStep, CreateStep, WriteStep, SubmitStep, Moved;
    match act {
      case Apply(p, o) =>
        MoveKeeps(home, s, p, Idle);
        MoveKeeps(home, s, p, Ready(o));
        MoveKeeps(home, s, p, Reading(o, s.release));
      case Create(_) => MarkerKeeps(home, s, act);
      case Write(_) => MarkerKeeps(home, s, act);
      case Submit(p) => SubmitKeeps(home, s, p);
      case Read(p, o) => MoveKeeps(home, s, p, Reading(o, s.release));
      case Crash(p) => MoveKeeps(home, s, p, Idle);
      case Land(i) =>
        if i < |s.submitted| {
          LandKeeps(home, s, i);
        }
      case _ => ReleaseKeeps(home, s, act);
    }
  }

  lemma {:induction false} Always(home: Home, acts: seq<Act>)
    ensures Inv(home, Run(home, acts))
    decreases |acts|
  {
    hide Perform, Inv;
    if acts != [] {
      Always(home, acts[..|acts| - 1]);
      StepKeeps(home, Run(home, acts[..|acts| - 1]), acts[|acts| - 1]);
    } else {
      StartSound(home);
    }
  }

  lemma StartSound(home: Home)
    ensures Inv(home, Run(home, []))
  {
  }

  // --- results --------------------------------------------------------------------------------------------

  /** In every crash and retry history, whatever the release looks like and whoever else changed it:
      readback answers no-effect or superseded only while nothing was ever submitted from the
      attempt's workspace; so what may have been submitted is uncertain, failed, proved or an error. */
  lemma ReadbackSound(home: Home, acts: seq<Act>, p: ProcId, healthy: bool, history: Option<Release>, i: nat)
    ensures var s := Run(home, acts);
            ProcOf(s, p).Reading? ==>
              var o := ProcOf(s, p).offer;
              var verdict := Readback(ProcOf(s, p).seen, MarkerAt(s, home(o.meta.attempt)), history, o, healthy);
              (verdict.NoEffect? || verdict.Superseded?) && i < |s.submitted| ==>
                home(s.submitted[i].meta.attempt) != home(o.meta.attempt)
  {
    hide Run, InHistory;
    Always(home, acts);
    var s := Run(home, acts);
    if i < |s.submitted| {
      assert Noted(home, s, s.submitted[i]);
    }
  }

  /** A deployed verdict is proved: the live release carries the expected values at the expected
      version, it is healthy, and for an upgrade those values come from a submission of exactly
      this offer's metadata. */
  lemma DeployedIsProved(home: Home, acts: seq<Act>, p: ProcId, healthy: bool, history: Option<Release>)
    ensures var s := Run(home, acts);
            ProcOf(s, p).Reading? ==>
              var o, seen := ProcOf(s, p).offer, ProcOf(s, p).seen;
              var verdict := Readback(seen, MarkerAt(s, home(o.meta.attempt)), history, o, healthy);
              verdict.Deployed? ==>
                && healthy && seen.Some? && LiveMeta(seen.value) == Some(Expected(o)) && seen.value.status.Live?
                && verdict.version == Version(seen.value) && Upgraded(s.submitted, Expected(o))
                && (o.rollback.Some? ==> verdict.version == o.rollback.value.expectedCurrent + 1)
  {
    hide Run, InHistory;
    Always(home, acts);
    var s := Run(home, acts);
    if p in s.procs {
      assert ProcSound(home, s, s.procs[p]);
    }
  }

  /** What the other answers mean: superseded names a release of a newer pipeline, no-effect on an
      upgrade leaves none newer, failed is about values this offer's metadata put there, and an
      attempt without a marker on an absent release is told that it had no effect. */
  lemma VerdictsMean(home: Home, acts: seq<Act>, p: ProcId, healthy: bool, history: Option<Release>)
    ensures var s := Run(home, acts);
            ProcOf(s, p).Reading? ==>
              var o, seen := ProcOf(s, p).offer, ProcOf(s, p).seen;
              var marker := MarkerAt(s, home(o.meta.attempt));
              var verdict := Readback(seen, marker, history, o, healthy);
              && (verdict.Superseded? ==>
                    seen.Some? && o.rollback.None? && OrderOf(LiveMeta(seen.value)) > o.meta.order)
              && (verdict.NoEffect? && seen.Some? && o.rollback.None? ==>
                    OrderOf(LiveMeta(seen.value)) <= o.meta.order && LiveMeta(seen.value) != Some(o.meta))
              && (verdict.NoEffect? && seen.Some? && o.rollback.Some? ==>
                    Version(seen.value) == o.rollback.value.expectedCurrent)
              && (verdict.Failed? ==>
                    seen.Some? && Upgraded(s.submitted, Expected(o)) && LiveMeta(seen.value) == Some(Expected(o))
                      && !(healthy && seen.value.status.Live?))
              && (marker.Missing? && seen.None? ==> verdict.NoEffect?)
  {
    hide Run, InHistory;
    Always(home, acts);
    var s := Run(home, acts);
    if p in s.procs {
      assert ProcSound(home, s, s.procs[p]);
    }
  }

  // --- attempts that never applied ------------------------------------------------------------------

  /** The workspaces from which an apply was begun. */
  function Homes(home: Home, acts: seq<Act>): set<Workspace> {
    if acts == [] then {}
    else
      var last := acts[|acts| - 1];
      Homes(home, acts[..|acts| - 1]) + if last.Apply? then {home(last.offer.meta.attempt)} else {}
  }

  predicate FromHomes(home: Home, homes: set<Workspace>, proc: Proc) {
    proc.Ready? || proc.Writing? || proc.Marked? ==> home(proc.offer.meta.attempt) in homes
  }

  ghost predicate HomesInv(home: Home, s: State, homes: set<Workspace>) {
    && (forall p :: p in s.procs ==> FromHomes(home, homes, s.procs[p]))
    && (forall w :: w in s.markers ==> w in homes)
    && (forall i :: 0 <= i < |s.submitted| ==> home(s.submitted[i].meta.attempt) in homes)
  }

  lemma HomesKeep(home: Home, s: State, act: Act, homes: set<Workspace>)
    requires HomesInv(home, s, homes) && (act.Apply? ==> home(act.offer.meta.attempt) in homes)
    ensures HomesInv(home, Perform(home, s, act), homes)
  {
    hide Check, MarkerSays, LandStep, OutsideStep;
    if act.Land? && act.index < |s.submitted| {
      LandOnlyReleases(s, s.submitted[act.index]);
    } else if act.Outside? {
      OutsideOnlyReleases(s, act.copied, act.description);
    }
  }

  lemma LandOnlyReleases(s: State, o: Offer)
    ensures LandStep(s, o) == s.(release := LandStep(s, o).release)
  {
  }

  lemma OutsideOnlyReleases(s: State, copied: Option<nat>, description: string)
    ensures OutsideStep(s, copied, description) == s.(release := OutsideStep(s, copied, description).release)
  {
  }

  lemma {:induction false} HomesAlways(home: Home, acts: seq<Act>)
    ensures HomesInv(home, Run(home, acts), Homes(home, acts))
    decreases |acts|
  {
    hide Perform;
    if acts != [] {
      var front := acts[..|acts| - 1];
      HomesAlways(home, front);
      HomesKeep(home, Run(home, front), acts[|acts| - 1], Homes(home, acts));
    }
  }

  /** The converse of soundness: an attempt from whose workspace nothing was ever applied, and whose
      deployment the readable history does not name, is told so: superseded if the live release is
      of a newer pipeline, no-effect otherwise. */
  lemma UntouchedIsTold(home: Home, acts: seq<Act>, p: ProcId, healthy: bool, history: Release)
    ensures var s := Run(home, acts);
            ProcOf(s, p).Reading? ==>
              var o, seen := ProcOf(s, p).offer, ProcOf(s, p).seen;
              var verdict := Readback(seen, MarkerAt(s, home(o.meta.attempt)), Some(history), o, healthy);
              home(o.meta.attempt) !in Homes(home, acts) && o.rollback.None? && !InHistory(history, o) ==>
                verdict == (if seen.Some? && OrderOf(LiveMeta(seen.value)) > o.meta.order then Superseded else NoEffect)
  {
    hide Run, InHistory;
    Always(home, acts);
    HomesAlways(home, acts);
    hide Homes;
    var s := Run(home, acts);
    if p in s.procs && s.procs[p].Reading? {
      var o := s.procs[p].offer;
      assert ProcSound(home, s, s.procs[p]);
      if home(o.meta.attempt) !in Homes(home, acts) && s.procs[p].seen.Some? {
        assert !Upgraded(s.submitted, o.meta);
      }
    }
  }

  // --- submitting once ------------------------------------------------------------------------------

  /** The process has made its marker, or found it, and goes on to submit. */
  predicate Committed(proc: Proc) {
    proc.Writing? || proc.Marked?
  }

  predicate SubmittedFrom(home: Home, s: State, w: Workspace) {
    exists i :: 0 <= i < |s.submitted| && home(s.submitted[i].meta.attempt) == w
  }

  ghost predicate CommittedFrom(home: Home, s: State, w: Workspace) {
    exists p :: p in s.procs && Committed(s.procs[p]) && home(s.procs[p].offer.meta.attempt) == w
  }

  /** The branch of the marker step that a retry takes: its own marker is there already. */
  predicate FindsOwnMarker(home: Home, s: State, act: Act) {
    act.Create? && ProcOf(s, act.proc).Ready?
    && var o := ProcOf(s, act.proc).offer;
       MarkerSays(MarkerAt(s, home(o.meta.attempt)), o).Present?
  }

  /** It does so although the workspace has submitted, or another process is about to. */
  ghost predicate Repeats(home: Home, s: State, act: Act) {
    FindsOwnMarker(home, s, act)
    && var w := home(ProcOf(s, act.proc).offer.meta.attempt);
       SubmittedFrom(home, s, w) || CommittedFrom(home, s, w)
  }

  ghost predicate SubmissionsDiffer(home: Home, submitted: seq<Offer>) {
    forall i, j :: 0 <= i < j < |submitted| ==> home(submitted[i].meta.attempt) != home(submitted[j].meta.attempt)
  }

  ghost predicate CommittedDiffer(home: Home, procs: map<ProcId, Proc>) {
    forall p, q :: p in procs && q in procs && p != q && Committed(procs[p]) && Committed(procs[q]) ==>
      home(procs[p].offer.meta.attempt) != home(procs[q].offer.meta.attempt)
  }

  ghost predicate NoneCommittedAgain(home: Home, s: State) {
    forall p, i :: p in s.procs && Committed(s.procs[p]) && 0 <= i < |s.submitted| ==>
      home(s.submitted[i].meta.attempt) != home(s.procs[p].offer.meta.attempt)
  }

  /** Submissions, made or certain to be tried, come from pairwise different workspaces. */
  ghost predicate Once(home: Home, s: State) {
    SubmissionsDiffer(home, s.submitted) && CommittedDiffer(home, s.procs) && NoneCommittedAgain(home, s)
  }

  lemma OnceMoved(home: Home, s: State, p: ProcId, proc: Proc)
    requires Once(home, s) && !Committed(proc)
    ensures Once(home, Moved(s, p, proc))
  {
  }

  /** A workspace without a marker has neither submitted nor begun to. */
  lemma MissingIsUnused(home: Home, s: State, w: Workspace)
    requires Inv(home, s) && MarkerAt(s, w).Missing?
    ensures !SubmittedFrom(home, s, w) && !CommittedFrom(home, s, w)
  {
    hide MetasSubmitted;
  }

  /** Committing a process that was not keeps the workspaces apart exactly when its own is unused. */
  lemma CommitsOnceExactly(home: Home, s: State, p: ProcId, proc: Proc)
    requires Once(home, s) && ProcOf(s, p).Ready? && Committed(proc)
    ensures var w := home(proc.offer.meta.attempt);
            Once(home, Moved(s, p, proc)) <==> !SubmittedFrom(home, s, w) && !CommittedFrom(home, s, w)
  {
    var w, t := home(proc.offer.meta.attempt), Moved(s, p, proc);
    if SubmittedFrom(home, s, w) {
      var i :| 0 <= i < |s.submitted| && home(s.submitted[i].meta.attempt) == w;
      assert t.submitted[i] == s.submitted[i] && t.procs[p] == proc;
      assert !NoneCommittedAgain(home, t);
    }
    if CommittedFrom(home, s, w) {
      var q :| q in s.procs && Committed(s.procs[q]) && home(s.procs[q].offer.meta.attempt) == w;
      assert t.procs[q] == s.procs[q] && t.procs[p] == proc;
      assert !CommittedDiffer(home, t.procs);
    }
  }

  lemma OnceSubmit(home: Home, s: State, p: ProcId)
    requires Once(home, s)
    ensures Once(home, SubmitStep(s, p))
  {
  }

  lemma OnceWrite(home: Home, s: State, p: ProcId)
    requires Once(home, s)
    ensures Once(home, WriteStep(home, s, p))
  {
  }

  lemma CreateOnceExactly(home: Home, s: State, p: ProcId)
    requires Inv(home, s) && Once(home, s)
    ensures Once(home, CreateStep(home, s, p)) <==> !Repeats(home, s, Create(p))
  {
    hide Inv, Once, SubmittedFrom, CommittedFrom, MarkerAt;
    var proc := ProcOf(s, p);
    if proc.Ready? {
      var w := home(proc.offer.meta.attempt);
      if MarkerSays(MarkerAt(s, w), proc.offer).Absent? {
        MissingIsUnused(home, s, w);
        CommitsOnceExactly(home, s, p, Writing(proc.offer));
        MarkersDoNotMatter(home, Moved(s, p, Writing(proc.offer)), s.markers[w := Torn]);
      } else if MarkerSays(MarkerAt(s, w), proc.offer).Present? {
        CommitsOnceExactly(home, s, p, Marked(proc.offer));
      } else {
        OnceMoved(home, s, p, Idle);
      }
    }
  }

  lemma MarkersDoNotMatter(home: Home, s: State, markers: map<Workspace, Marker>)
    ensures Once(home, s.(markers := markers)) <==> Once(home, s)
  {
  }

  lemma ReleaseDoesNotMatter(home: Home, s: State, act: Act)
    requires act.Land? || act.Settle? || act.Uninstall? || act.Outside?
    ensures Once(home, Perform(home, s, act)) <==> Once(home, s)
  {
    hide LandStep, OutsideStep;
    if act.Land? && act.index < |s.submitted| {
      LandOnlyReleases(s, s.submitted[act.index]);
    } else if act.Outside? {
      OutsideOnlyReleases(s, act.copied, act.description);
    }
  }

  /** One step keeps the workspaces apart exactly when it does not repeat one. */
  lemma StepOnceExactly(home: Home, s: State, act: Act)
    requires Inv(home, s) && Once(home, s)
    ensures Once(home, Perform(home, s, act)) <==> !Repeats(home, s, act)
  {
    hide Inv, Once, Moved, LandStep, OutsideStep, CreateStep, WriteStep, SubmitStep;
    match act {
      case Apply(p, o) =>
        OnceMoved(home, s, p, Idle);
        OnceMoved(home, s, p, Ready(o));
        OnceMoved(home, s, p, Reading(o, s.release));
      case Create(p) => CreateOnceExactly(home, s, p);
      case Write(p) => OnceWrite(home, s, p);
      case Submit(p) => OnceSubmit(home, s, p);
      case Read(p, o) => OnceMoved(home, s, p, Reading(o, s.release));
      case Crash(p) => OnceMoved(home, s, p, Idle);
      case _ => ReleaseDoesNotMatter(home, s, act);
    }
  }

  ghost predicate AlwaysOnce(home: Home, acts: seq<Act>) {
    forall k :: 0 <= k <= |acts| ==> Once(home, Run(home, acts[..k]))
  }

  ghost predicate NeverRepeats(home: Home, acts: seq<Act>) {
    forall k :: 0 <= k < |acts| ==> !Repeats(home, Run(home, acts[..k]), acts[k])
  }

  /** The exact condition, for every run: no workspace submits twice or is about to, at any point,
      exactly when no retry finds its own marker in a workspace already used. */
  lemma {:induction false} OnceExactly(home: Home, acts: seq<Act>)
    ensures AlwaysOnce(home, acts) <==> NeverRepeats(home, acts)
    decreases |acts|
  {
    hide Perform, Once, Repeats;
    if acts == [] {
      StartOnce(home);
      assert acts[..0] == [];
    } else {
      var n := |acts| - 1;
      OnceExactly(home, acts[..n]);
      Always(home, acts[..n]);
      if Once(home, Run(home, acts[..n])) {
        StepOnceExactly(home, Run(home, acts[..n]), acts[n]);
      }
      OnceSnoc(home, acts);
      RepeatsSnoc(home, acts);
    }
  }

  lemma StartOnce(home: Home)
    ensures Once(home, Run(home, []))
  {
  }

  lemma OnceSnoc(home: Home, acts: seq<Act>)
    requires acts != []
    ensures var front := acts[..|acts| - 1];
            && (AlwaysOnce(home, acts) <==> AlwaysOnce(home, front) && Once(home, Run(home, acts)))
            && (AlwaysOnce(home, front) ==> Once(home, Run(home, front)))
  {
    hide Run, Once;
    var n := |acts| - 1;
    var front := acts[..n];
    assert forall k :: 0 <= k <= n ==> front[..k] == acts[..k];
    assert acts[..n + 1] == acts && front[..n] == front;
    if AlwaysOnce(home, acts) {
      assert Once(home, Run(home, acts[..n + 1]));
      forall k | 0 <= k <= n
        ensures Once(home, Run(home, front[..k]))
      {
        assert Once(home, Run(home, acts[..k]));
      }
    }
    if AlwaysOnce(home, front) && Once(home, Run(home, acts)) {
      forall k | 0 <= k <= |acts|
        ensures Once(home, Run(home, acts[..k]))
      {
        if k <= n {
          assert Once(home, Run(home, front[..k]));
        }
      }
    }
  }

  lemma RepeatsSnoc(home: Home, acts: seq<Act>)
    requires acts != []
    ensures var n := |acts| - 1;
            NeverRepeats(home, acts) <==>
              NeverRepeats(home, acts[..n]) && !Repeats(home, Run(home, acts[..n]), acts[n])
  {
    hide Run, Repeats;
    var n := |acts| - 1;
    var front := acts[..n];
    assert forall k :: 0 <= k < n ==> front[..k] == acts[..k] && front[k] == acts[k];
    if NeverRepeats(home, acts) {
      forall k | 0 <= k < n
        ensures !Repeats(home, Run(home, front[..k]), front[k])
      {
        assert !Repeats(home, Run(home, acts[..k]), acts[k]);
      }
    }
    if NeverRepeats(home, front) && !Repeats(home, Run(home, front), acts[n]) {
      forall k | 0 <= k < |acts|
        ensures !Repeats(home, Run(home, acts[..k]), acts[k])
      {
        if k < n {
          assert !Repeats(home, Run(home, front[..k]), front[k]);
        }
      }
    }
  }

  /** So while no marker step finds its own marker, which is whether the file exists, every workspace
      submits at most once in every run. */
  lemma SubmitsOnce(home: Home, acts: seq<Act>, i: nat, j: nat)
    requires forall k :: 0 <= k < |acts| ==> !FindsOwnMarker(home, Run(home, acts[..k]), acts[k])
    ensures var submitted := Run(home, acts).submitted;
            i < j < |submitted| ==> home(submitted[i].meta.attempt) != home(submitted[j].meta.attempt)
  {
    hide Run, FindsOwnMarker;
    OnceExactly(home, acts);
    assert acts[..|acts|] == acts;
  }

  /** And in every reachable state where the step finds the marker in a workspace that has submitted,
      going on submits from there again, under the identity of the earlier submission. */
  lemma FoundMarkerSubmitsAgain(home: Home, acts: seq<Act>, p: ProcId, i: nat)
    requires var s := Run(home, acts);
             && FindsOwnMarker(home, s, Create(p)) && i < |s.submitted|
             && home(s.submitted[i].meta.attempt) == home(ProcOf(s, p).offer.meta.attempt)
    ensures var s := Run(home, acts);
            var t := Perform(home, Perform(home, s, Create(p)), Submit(p));
            && t.submitted == s.submitted + [ProcOf(s, p).offer]
            && IdentityOf(s.submitted[i]) == IdentityOf(ProcOf(s, p).offer)
  {
    hide Run;
    Always(home, acts);
    var s := Run(home, acts);
    assert Noted(home, s, s.submitted[i]);
    hide Inv;
  }

  /** The same if another process of the workspace is about to submit: both do. */
  lemma FoundMarkerSubmitsBoth(home: Home, acts: seq<Act>, p: ProcId, q: ProcId)
    requires var s := Run(home, acts);
             && FindsOwnMarker(home, s, Create(p)) && Committed(ProcOf(s, q))
             && home(ProcOf(s, q).offer.meta.attempt) == home(ProcOf(s, p).offer.meta.attempt)
    ensures var s := Run(home, acts);
            var t := Perform(home, Perform(home, Perform(home, s, Submit(q)), Create(p)), Submit(p));
            && t.submitted == s.submitted + [ProcOf(s, q).offer] + [ProcOf(s, p).offer]
            && IdentityOf(ProcOf(s, q).offer) == IdentityOf(ProcOf(s, p).offer)
  {
    hide Run;
    Always(home, acts);
    var s := Run(home, acts);
    assert ProcSound(home, s, s.procs[q]);
    hide Inv;
    var t := Perform(home, s, Submit(q));
    assert t.submitted == s.submitted + [ProcOf(s, q).offer];
  }

  lemma Snoc(home: Home, acts: seq<Act>, act: Act) returns (more: seq<Act>)
    ensures Run(home, more) == Perform(home, Run(home, acts), act)
  {
    more := acts + [act];
    assert more[..|acts|] == acts;
  }

  function Plain(n: nat): seq<Revision> {
    seq(n, _ => Revision(None, ""))
  }

  /** A live release with any number of revisions, none of them Forge's. */
  lemma {:induction false} Installed(home: Home, n: nat) returns (acts: seq<Act>)
    requires n >= 1
    ensures Run(home, acts) == State(map[], Some(Release(Plain(n), Live)), [], map[])
  {
    hide Run;
    if n == 1 {
      acts := [];
      assert Run(home, acts) == EMPTY by { StartEmpty(home); }
    } else {
      acts := Installed(home, n - 1);
    }
    acts := Snoc(home, acts, Outside(None, ""));
    assert Plain(n) == (if n == 1 then [] else Plain(n - 1)) + [Revision(None, "")];
  }

  /** The marker is not a promise to submit once: for every upgrade, and for every rollback that
      starts from an installed revision, a retry that finds its own marker submits again. */
  lemma RetrySubmitsAgain(home: Home, o: Offer) returns (acts: seq<Act>)
    requires o.rollback.Some? ==> o.rollback.value.expectedCurrent >= 1
    ensures Run(home, acts).submitted == [o, o]
  {
    hide Run;
    if o.rollback.Some? {
      acts := Installed(home, o.rollback.value.expectedCurrent);
      hide Plain;
    } else {
      acts := [];
      assert Run(home, acts) == EMPTY by { StartEmpty(home); }
    }
    var s := Run(home, acts);
    PlainLength(o);
    assert Check(s.release, o) == Go;
    acts := SubmitTwice(home, acts, o);
  }

  lemma PlainLength(o: Offer)
    ensures o.rollback.Some? ==> |Plain(o.rollback.value.expectedCurrent)| == o.rollback.value.expectedCurrent
  {
  }

  lemma SubmitTwice(home: Home, acts: seq<Act>, o: Offer) returns (more: seq<Act>)
    requires var s := Run(home, acts); s.markers == map[] && s.submitted == [] && Check(s.release, o) == Go
    ensures Run(home, more).submitted == [o, o]
  {
    hide Run, Check;
    more := Snoc(home, acts, Apply(0, o));
    more := Snoc(home, more, Create(0));
    more := Snoc(home, more, Write(0));
    more := Snoc(home, more, Submit(0));
    more := Snoc(home, more, Apply(0, o));
    more := Snoc(home, more, Create(0));
    more := Snoc(home, more, Submit(0));
  }

  lemma StartEmpty(home: Home)
    ensures Run(home, []) == EMPTY
  {
  }
}

/** Push and merge triggers: the first writer captures which configuration a commit runs under, and
    hooks, merges and redeliveries all create their pipeline under that one decision. */
module PushDecision {
  import opened Prelude

  type Repo = nat
  type Config = nat
  type HookId = nat

  const NUL: char := 0 as char

  // --- the idempotency key -----------------------------------------------------------------

  function Payload(storage: string, ref: string, rev: string): string {
    storage + [NUL] + ref + [NUL] + rev
  }

  lemma SplitAtNul(a: string, x: string, b: string, y: string)
    requires NUL !in a && NUL !in b
    ensures a + [NUL] + x == b + [NUL] + y <==> a == b && x == y
  {
    var u, v := a + [NUL] + x, b + [NUL] + y;
    if u == v {
      assert u[|a|] == NUL && u[|b|] == NUL;
      assert a == u[..|a|] && b == u[..|b|];
      assert x == u[|a| + 1..] && y == u[|b| + 1..];
    }
  }

  /** The joined text determines its three parts as soon as the first two hold no NUL. */
  lemma PayloadInjective(s: string, r: string, c: string, s': string, r': string, c': string)
    requires NUL !in s && NUL !in r && NUL !in s' && NUL !in r'
    ensures Payload(s, r, c) == Payload(s', r', c') <==> s == s' && r == r' && c == c'
  {
    assert Payload(s, r, c) == s + [NUL] + (r + [NUL] + c);
    assert Payload(s', r', c') == s' + [NUL] + (r' + [NUL] + c');
    SplitAtNul(s, r + [NUL] + c, s', r' + [NUL] + c');
    SplitAtNul(r, c, r', c');
  }

  /** Neither exclusion can be dropped. */
  lemma PayloadCollides()
    ensures Payload([NUL], "", "c") == Payload("", [NUL], "c")
    ensures Payload("s", [NUL], "") == Payload("s", "", [NUL])
  {
  }

  /** Catalogued repositories have distinct NUL-free storage names; the digest is any function. */
  datatype Env = Env(storage: Repo -> string, hash: string -> string)

  ghost predicate Sound(env: Env) {
    && (forall r :: NUL !in env.storage(r))
    && (forall r, s :: env.storage(r) == env.storage(s) ==> r == s)
  }

  /** Two texts with one digest. */
  predicate Collide(env: Env, x: string, y: string) {
    x != y && env.hash(x) == env.hash(y)
  }

  function Key(env: Env, repo: Repo, ref: string, rev: string): string {
    "git-push:" + env.hash(Payload(env.storage(repo), ref, rev))
  }

  /** The texts behind two keys collide. */
  predicate KeysCollide(env: Env, a: Repo, r: string, c: string, b: Repo, r': string, c': string) {
    Collide(env, Payload(env.storage(a), r, c), Payload(env.storage(b), r', c'))
  }

  /** Two keys are equal exactly when repository, ref and revision are, or a collision is at hand. */
  lemma KeysEqualExactly(env: Env, a: Repo, r: string, c: string, b: Repo, r': string, c': string)
    requires Sound(env) && NUL !in r && NUL !in r'
    ensures Key(env, a, r, c) == Key(env, b, r', c') <==>
              (a == b && r == r' && c == c') || KeysCollide(env, a, r, c, b, r', c')
  {
    var p: string := "git-push:";
    var x, y := env.hash(Payload(env.storage(a), r, c)), env.hash(Payload(env.storage(b), r', c'));
    assert (p + x)[|p|..] == x && (p + y)[|p|..] == y;
    PayloadInjective(env.storage(a), r, c, env.storage(b), r', c');
  }

  // --- revisions and refs --------------------------------------------------------------------

  predicate HexDigit(c: char) {
    '0' <= c <= '9' || 'a' <= c <= 'f' || 'A' <= c <= 'F'
  }

  predicate IsZeroObjectId(rev: string) {
    |rev| >= 40 && forall c :: c in rev ==> c == '0'
  }

  predicate IsProbableObjectId(rev: string) {
    |rev| >= 40 && forall c :: c in rev ==> HexDigit(c)
  }

  const HEADS: string := "refs/heads/"

  /** What a merge message must carry before its pipeline is created. */
  predicate MergeShape(ref: string, commit: string) {
    HEADS <= ref && |ref| > |HEADS| && |commit| in {40, 64} && forall c :: c in commit ==> HexDigit(c)
  }

  // --- the tables ------------------------------------------------------------------------------

  /** A repository's push policy; no refs means every ref. */
  datatype Policy = Policy(config: Option<Config>, refs: set<string>)

  datatype Pipeline = Pipeline(config: Config, repo: Repo, ref: string, commit: Option<string>, key: Option<string>)

  datatype Trigger = Trigger(repo: Repo, config: Config, ref: string, commit: string, key: string)

  datatype Hook =
    | Idle
    | Pushed(repo: Repo, ref: string, rev: Option<string>)
    | Captured(repo: Repo, ref: string, rev: Option<string>)
    | Chosen(pipeline: Pipeline)

  datatype State = State(policies: map<Repo, Policy>, bound: map<Config, Repo>,
                         decisions: map<(Repo, string), Option<Config>>, messages: set<Trigger>,
                         pipelines: seq<Pipeline>, hooks: map<HookId, Hook>)

  datatype Act =
    | SetPolicy(repo: Repo, policy: Policy)
    | Bind(config: Config, bound: Repo)
    | Push(hook: HookId, repo: Repo, ref: string, rev: Option<string>)
    | Capture(hook: HookId)
    | Choose(hook: HookId)
    | Create(hook: HookId)
    | Crash(hook: HookId)
    | Merge(repo: Repo, ref: string, commit: string, committed: bool)
    | Deliver(trigger: Trigger, confirmed: bool)

  /** The configuration the current policy selects for a ref. */
  function Selected(policies: map<Repo, Policy>, repo: Repo, ref: string): Option<Config> {
    if repo in policies && (policies[repo].refs == {} || ref in policies[repo].refs) then policies[repo].config
      else None
  }

  /** INSERT ... ON CONFLICT DO NOTHING. */
  function Insert(s: State, repo: Repo, ref: string, key: string): map<(Repo, string), Option<Config>> {
    if (repo, key) in s.decisions then s.decisions
    else s.decisions[(repo, key) := Selected(s.policies, repo, ref)]
  }

  /** The key of a push, if its new revision looks like an object id. */
  function PushKey(env: Env, repo: Repo, ref: string, rev: Option<string>): Option<string> {
    if rev.Some? && IsProbableObjectId(rev.value) then Some(Key(env, repo, ref, rev.value)) else None
  }

  predicate Has(pipelines: seq<Pipeline>, config: Config, key: string) {
    exists i :: 0 <= i < |pipelines| && pipelines[i].config == config && pipelines[i].key == Some(key)
  }

  /** Trigger receipts are unique per configuration, source and key; without a key every call creates. */
  function Ensured(pipelines: seq<Pipeline>, p: Pipeline): seq<Pipeline> {
    if p.key.Some? && Has(pipelines, p.config, p.key.value) then pipelines else pipelines + [p]
  }

  function HookOf(s: State, h: HookId): Hook {
    if h in s.hooks then s.hooks[h] else Idle
  }

  function At(s: State, h: HookId, hook: Hook): State {
    s.(hooks := s.hooks[h := hook])
  }

  /** Deleted refs trigger nothing; a ref with a NUL cannot be bound as a text parameter. */
  function PushStep(s: State, h: HookId, repo: Repo, ref: string, rev: Option<string>): State {
    if NUL in ref || (rev.Some? && IsZeroObjectId(rev.value)) then At(s, h, Idle) else At(s, h, Pushed(repo, ref, rev))
  }

  function CaptureStep(env: Env, s: State, h: HookId): State {
    var hook := HookOf(s, h);
    if !hook.Pushed? then s
    else
      var key := PushKey(env, hook.repo, hook.ref, hook.rev);
      At(if key.Some? then s.(decisions := Insert(s, hook.repo, hook.ref, key.value)) else s,
         h, Captured(hook.repo, hook.ref, hook.rev))
  }

  function ChooseStep(env: Env, s: State, h: HookId): State {
    var hook := HookOf(s, h);
    if !hook.Captured? then s
    else
      var key := PushKey(env, hook.repo, hook.ref, hook.rev);
      var config :=
        if key.None? then Selected(s.policies, hook.repo, hook.ref)
        else if (hook.repo, key.value) in s.decisions then s.decisions[(hook.repo, key.value)]
        else None;
      At(s, h, if config.None? then Idle else Chosen(Pipeline(config.value, hook.repo, hook.ref, hook.rev, key)))
  }

  function CreateStep(s: State, h: HookId): State {
    var hook := HookOf(s, h);
    if hook.Chosen? then At(s.(pipelines := Ensured(s.pipelines, hook.pipeline)), h, Idle) else s
  }

  /** A merge captures its decision in its own transaction; the message commits with the merge. */
  function MergeStep(env: Env, s: State, repo: Repo, ref: string, commit: string, committed: bool): State {
    if NUL in ref then s
    else
      var key := Key(env, repo, ref, commit);
      var t := s.(decisions := Insert(s, repo, ref, key));
      var config := t.decisions[(repo, key)];
      if config.Some? && config.value in s.bound && s.bound[config.value] == repo && committed
      then t.(messages := t.messages + {Trigger(repo, config.value, ref, commit, key)})
      else t
  }

  predicate Deliverable(env: Env, s: State, t: Trigger) {
    && t in s.messages && MergeShape(t.ref, t.commit) && NUL !in t.ref
    && t.config in s.bound && s.bound[t.config] == t.repo
    && t.key == Key(env, t.repo, t.ref, t.commit)
    && (t.repo, t.key) in s.decisions && s.decisions[(t.repo, t.key)] == Some(t.config)
  }

  function DeliverStep(env: Env, s: State, t: Trigger, confirmed: bool): State {
    if Deliverable(env, s, t) && confirmed
    then s.(pipelines := Ensured(s.pipelines, Pipeline(t.config, t.repo, t.ref, Some(t.commit), Some(t.key))))
    else s
  }

  /** Every message may be delivered again after a lost acknowledgement. */
  function Perform(env: Env, s: State, act: Act): State {
    match act
    case SetPolicy(repo, policy) =>
      if policy.config.Some? && !(policy.config.value in s.bound && s.bound[policy.config.value] == repo) then s
      else s.(policies := s.policies[repo := policy])
    case Bind(config, bound) => s.(bound := s.bound[config := bound])
    case Push(h, repo, ref, rev) => PushStep(s, h, repo, ref, rev)
    case Capture(h) => CaptureStep(env, s, h)
    case Choose(h) => ChooseStep(env, s, h)
    case Create(h) => CreateStep(s, h)
    case Crash(h) => At(s, h, Idle)
    case Merge(repo, ref, commit, committed) => MergeStep(env, s, repo, ref, commit, committed)
    case Deliver(t, confirmed) => DeliverStep(env, s, t, confirmed)
  }

  const EMPTY := State(map[], map[], map[], {}, [], map[])

  function Run(env: Env, acts: seq<Act>): State {
    if acts == [] then EMPTY else Perform(env, Run(env, acts[..|acts| - 1]), acts[|acts| - 1])
  }

  // --- what every step keeps -------------------------------------------------------------------

  /** A keyed pipeline was decided: its key names its commit, and the decision names its configuration. */
  predicate Decided(env: Env, decisions: map<(Repo, string), Option<Config>>, p: Pipeline) {
    p.key.Some? ==>
      && p.commit.Some? && NUL !in p.ref && p.key.value == Key(env, p.repo, p.ref, p.commit.value)
      && (p.repo, p.key.value) in decisions && decisions[(p.repo, p.key.value)] == Some(p.config)
  }

  /** A pipeline for something that looks like an object id has a key. */
  predicate ObjectsKeyed(p: Pipeline) {
    p.commit.Some? && IsProbableObjectId(p.commit.value) ==> p.key.Some?
  }

  ghost predicate Unique(pipelines: seq<Pipeline>) {
    forall i, j :: 0 <= i < j < |pipelines| && pipelines[i].key.Some? && pipelines[i].key == pipelines[j].key ==>
      pipelines[i].config != pipelines[j].config
  }

  ghost predicate HookSound(env: Env, decisions: map<(Repo, string), Option<Config>>, hook: Hook) {
    match hook
    case Idle => true
    case Pushed(_, ref, _) => NUL !in ref
    case Captured(_, ref, _) => NUL !in ref
    case Chosen(p) => Decided(env, decisions, p) && ObjectsKeyed(p)
  }

  ghost predicate Inv(env: Env, s: State) {
    && Unique(s.pipelines)
    && (forall i :: 0 <= i < |s.pipelines| ==> Decided(env, s.decisions, s.pipelines[i]))
    && (forall i :: 0 <= i < |s.pipelines| ==> ObjectsKeyed(s.pipelines[i]))
    && (forall h :: h in s.hooks ==> HookSound(env, s.decisions, s.hooks[h]))
  }

  lemma DecisionsGrow(env: Env, s: State, act: Act, k: (Repo, string))
    requires k in s.decisions
    ensures k in Perform(env, s, act).decisions && Perform(env, s, act).decisions[k] == s.decisions[k]
  {
    hide Key, IsProbableObjectId, IsZeroObjectId, MergeShape;
  }

  lemma EnsuredKeeps(env: Env, s: State, p: Pipeline, hooks: map<HookId, Hook>)
    requires Inv(env, s) && Decided(env, s.decisions, p)
    requires p.commit.Some? && IsProbableObjectId(p.commit.value) ==> p.key.Some?
    requires forall h :: h in hooks ==> HookSound(env, s.decisions, hooks[h])
    ensures Inv(env, s.(pipelines := Ensured(s.pipelines, p), hooks := hooks))
  {
    hide Key, IsProbableObjectId, HookSound;
  }

  lemma StepKeeps(env: Env, s: State, act: Act)
    requires Inv(env, s)
    ensures Inv(env, Perform(env, s, act))
  {
    hide Key, IsProbableObjectId, IsZeroObjectId, Selected, Unique, Ensured;
    match act {
      case Create(h) =>
        var hook := HookOf(s, h);
        if hook.Chosen? {
          EnsuredKeeps(env, s, hook.pipeline, s.hooks[h := Idle]);
        }
      case Deliver(t, confirmed) =>
        if Deliverable(env, s, t) && confirmed {
          EnsuredKeeps(env, s, Pipeline(t.config, t.repo, t.ref, Some(t.commit), Some(t.key)), s.hooks);
        }
      case _ =>
    }
  }

  lemma {:induction false} Always(env: Env, acts: seq<Act>)
    ensures Inv(env, Run(env, acts))
    decreases |acts|
  {
    if acts != [] {
      Always(env, acts[..|acts| - 1]);
      StepKeeps(env, Run(env, acts[..|acts| - 1]), acts[|acts| - 1]);
    }
  }

  // --- results ---------------------------------------------------------------------------------

  /** However hooks, merges, redeliveries, crashes and policy edits interleave, one repository, ref
      and commit has at most one pipeline, under the configuration its decision recorded; and two
      pipelines that share a key without being for the same commit exhibit a digest collision. */
  lemma OnePipelinePerCommit(env: Env, acts: seq<Act>, i: nat, j: nat)
    requires Sound(env)
    ensures var s := Run(env, acts);
            i < |s.pipelines| && j < |s.pipelines| && s.pipelines[i].key.Some? && s.pipelines[j].key.Some? ==>
              var p, q := s.pipelines[i], s.pipelines[j];
              && p.commit.Some? && q.commit.Some?
              && (p.repo == q.repo && p.ref == q.ref && p.commit == q.commit ==> i == j)
              && (p.key == q.key && i != j ==>
                    KeysCollide(env, p.repo, p.ref, p.commit.value, q.repo, q.ref, q.commit.value))
              && (p.repo, p.key.value) in s.decisions && s.decisions[(p.repo, p.key.value)] == Some(p.config)
  {
    hide Run;
    Always(env, acts);
    var s := Run(env, acts);
    if i < |s.pipelines| && j < |s.pipelines| && s.pipelines[i].key.Some? && s.pipelines[j].key.Some? {
      var p, q := s.pipelines[i], s.pipelines[j];
      assert Decided(env, s.decisions, p) && Decided(env, s.decisions, q);
      KeysEqualExactly(env, p.repo, p.ref, p.commit.value, q.repo, q.ref, q.commit.value);
      hide KeysCollide, Key;
    }
  }

  /** Every pipeline for something that looks like an object id went through a decision. */
  lemma CommitsAreDecided(env: Env, acts: seq<Act>, i: nat)
    ensures var s := Run(env, acts);
            i < |s.pipelines| && s.pipelines[i].commit.Some? && IsProbableObjectId(s.pipelines[i].commit.value) ==>
              s.pipelines[i].key.Some?
  {
    Always(env, acts);
  }

  /** `at` is the step that captured the decision for `k`: the policy of that moment selected it,
      for a ref that `k` is the key of. */
  ghost predicate CapturedAt(env: Env, acts: seq<Act>, at: nat, k: (Repo, string), ref: string,
                             config: Option<Config>) {
    && at < |acts| && k !in Run(env, acts[..at]).decisions && k in Run(env, acts[..at + 1]).decisions
    && config == Selected(Run(env, acts[..at]).policies, k.0, ref)
    && exists rev :: k.1 == Key(env, k.0, ref, rev)
  }

  lemma CapturesSelected(env: Env, s: State, act: Act, k: (Repo, string)) returns (ref: string)
    requires k !in s.decisions && k in Perform(env, s, act).decisions
    ensures Perform(env, s, act).decisions[k] == Selected(s.policies, k.0, ref)
    ensures exists rev :: k.1 == Key(env, k.0, ref, rev)
  {
    hide Key, IsProbableObjectId, IsZeroObjectId, MergeShape;
    if act.Capture? {
      var hook := HookOf(s, act.hook);
      ref := hook.ref;
      assert k.1 == Key(env, k.0, ref, hook.rev.value);
    } else {
      ref := act.ref;
      assert k.1 == Key(env, k.0, ref, act.commit);
    }
  }

  /** The decision in force is the one its first captor took, whatever the policy became since. */
  lemma {:induction false} FirstDecisionStands(env: Env, acts: seq<Act>, k: (Repo, string))
    returns (at: nat, ref: string)
    requires k in Run(env, acts).decisions
    ensures CapturedAt(env, acts, at, k, ref, Run(env, acts).decisions[k])
    decreases |acts|
  {
    hide Perform, Key, Selected;
    var n := |acts| - 1;
    var s := Run(env, acts[..n]);
    assert acts[..n + 1] == acts;
    if k in s.decisions {
      at, ref := FirstDecisionStands(env, acts[..n], k);
      assert acts[..n][..at] == acts[..at] && acts[..n][..at + 1] == acts[..at + 1];
      DecisionsGrow(env, s, acts[n], k);
    } else {
      at := n;
      ref := CapturesSelected(env, s, acts[n], k);
    }
  }

  // --- the handlers ----------------------------------------------------------------------------

  class Tables {
    var policies: map<Repo, Policy>
    var bound: map<Config, Repo>
    var decisions: map<(Repo, string), Option<Config>>
    var messages: set<Trigger>
    var pipelines: seq<Pipeline>

    constructor ()
      ensures View() == EMPTY
    {
      policies, bound, decisions, messages, pipelines := map[], map[], map[], {}, [];
    }

    function View(): State
      reads this
    {
      State(policies, bound, decisions, messages, pipelines, map[])
    }

    /** The decision is inserted once and then read back; without a key the policy is read afresh. */
    method PushDecisionForRef(repo: Repo, key: Option<string>, ref: string) returns (config: Option<Config>)
      modifies this`decisions
      ensures key.None? ==> decisions == old(decisions) && config == Selected(policies, repo, ref)
      ensures key.Some? ==>
                decisions == Insert(old(View()), repo, ref, key.value) && config == decisions[(repo, key.value)]
    {
      var selected :=
        if repo in policies && (policies[repo].refs == {} || ref in policies[repo].refs) then policies[repo].config
          else None;
      if key.None? {
        return selected;
      }
      if (repo, key.value) !in decisions {
        decisions := decisions[(repo, key.value) := selected];
      }
      config := decisions[(repo, key.value)];
    }

    method CreatePipeline(p: Pipeline)
      modifies this`pipelines
      ensures pipelines == Ensured(old(pipelines), p)
    {
      if p.key.Some? {
        for i := 0 to |pipelines|
          invariant !Has(pipelines[..i], p.config, p.key.value)
        {
          if pipelines[i].config == p.config && pipelines[i].key == p.key {
            return;
          }
        }
        assert pipelines[..|pipelines|] == pipelines;
      }
      pipelines := pipelines + [p];
    }

    /** One undisturbed hook is the four steps of the machine in a row. */
    method ProcessGitPush(env: Env, repo: Repo, ref: string, rev: Option<string>)
      modifies this
      ensures var pushed := PushStep(old(View()), 0, repo, ref, rev);
              View() == CreateStep(ChooseStep(env, CaptureStep(env, pushed, 0), 0), 0).(hooks := map[])
    {
      if NUL in ref || (rev.Some? && IsZeroObjectId(rev.value)) {
        return;
      }
      var key := PushKey(env, repo, ref, rev);
      var config := PushDecisionForRef(repo, key, ref);
      if config.Some? {
        CreatePipeline(Pipeline(config.value, repo, ref, rev, key));
      }
    }

    method EnqueueMerge(env: Env, repo: Repo, ref: string, commit: string, committed: bool)
      modifies this
      ensures View() == MergeStep(env, old(View()), repo, ref, commit, committed)
    {
      if NUL in ref {
        return;
      }
      var key := Key(env, repo, ref, commit);
      var config := PushDecisionForRef(repo, Some(key), ref);
      if config.Some? && config.value in bound && bound[config.value] == repo && committed {
        messages := messages + {Trigger(repo, config.value, ref, commit, key)};
      }
    }

    method DeliverMerge(env: Env, t: Trigger, confirmed: bool) returns (delivered: bool)
      requires t in messages
      modifies this
      ensures View() == DeliverStep(env, old(View()), t, confirmed)
      ensures delivered <==> Deliverable(env, old(View()), t) && confirmed
    {
      if NUL in t.ref || !MergeShape(t.ref, t.commit) || t.config !in bound || bound[t.config] != t.repo {
        return false;
      }
      var key := Key(env, t.repo, t.ref, t.commit);
      if key != t.key || (t.repo, key) !in decisions || decisions[(t.repo, key)] != Some(t.config) || !confirmed {
        return false;
      }
      CreatePipeline(Pipeline(t.config, t.repo, t.ref, Some(t.commit), Some(t.key)));
      delivered := true;
    }
  }
}

/** Closed deployment recipes: what the admission accepts and what the owner renders from it. */
module Recipe {
  import opened Prelude
  import Text
  import ServiceGraph

  // --- names and values ---------------------------------------------------------------------------

  predicate Lower(c: char) { 'a' <= c <= 'z' }
  predicate Upper(c: char) { 'A' <= c <= 'Z' }
  predicate Digit(c: char) { '0' <= c <= '9' }
  predicate Hex(c: char) { Digit(c) || 'a' <= c <= 'f' }
  predicate Control(c: char) { c < ' ' || c == 127 as char }

  predicate IsName(s: string) {
    && 1 <= |s| <= 63 && Lower(s[0])
    && forall i :: 1 <= i < |s| ==> Lower(s[i]) || Digit(s[i]) || s[i] == '_' || s[i] == '-'
  }

  predicate IsEnvName(s: string) {
    1 <= |s| <= 128 && Upper(s[0]) && forall i :: 1 <= i < |s| ==> Upper(s[i]) || Digit(s[i]) || s[i] == '_'
  }

  predicate IsBuildJob(s: string) {
    && 1 <= |s| <= 63 && (Lower(s[0]) || Upper(s[0]))
    && forall i :: 1 <= i < |s| ==>
          Lower(s[i]) || Upper(s[i]) || Digit(s[i]) || s[i] == '_' || s[i] == '.' || s[i] == '-'
  }

  const SHA: string := "sha256:"

  predicate IsImage(s: string) {
    |s| == |SHA| + 64 && SHA <= s && forall i :: |SHA| <= i < |s| ==> Hex(s[i])
  }

  predicate IsCommit(s: string) {
    |s| == 40 && forall i :: 0 <= i < |s| ==> Hex(s[i])
  }

  predicate IsNumber(s: string) {
    1 <= |s| <= 10 && '1' <= s[0] <= '9' && forall i :: 1 <= i < |s| ==> Digit(s[i])
  }

  function Value(s: string): int {
    if s == "" then 0 else 10 * Value(s[..|s| - 1]) + (s[|s| - 1] as int - '0' as int)
  }

  /** An explicit non-root `uid:gid`. */
  predicate IsUser(s: string) {
    var parts := Text.Split(s, ':');
    |parts| == 2 && IsNumber(parts[0]) && IsNumber(parts[1]) && Value(parts[0]) <= 2_147_483_647
      && Value(parts[1]) <= 2_147_483_647
  }

  /** The secret a value refers to: the whole value is `${NAME}`. */
  function SecretOf(value: string): Option<string> {
    if |value| > 3 && value[0] == '$' && value[1] == '{' && value[|value| - 1] == '}'
      && IsEnvName(value[2..|value| - 1])
    then Some(value[2..|value| - 1]) else None
  }

  predicate HasPrefixes(s: string, prefixes: seq<string>) {
    exists i :: 0 <= i < |prefixes| && prefixes[i] <= s
  }

  /** `target` is `root` or lies below it. */
  predicate Under(root: string, target: string) {
    target == root || root + "/" <= target
  }

  predicate UnderAny(roots: seq<string>, target: string) {
    exists i :: 0 <= i < |roots| && Under(roots[i], target)
  }

  predicate EndsWith(s: string, suffix: string) {
    |s| >= |suffix| && s[|s| - |suffix|..] == suffix
  }

  predicate CleanParts(path: string)
    requires |path| > 0
  {
    var parts := Text.Split(path[1..], '/');
    forall i :: 0 <= i < |parts| ==> parts[i] != "" && parts[i] != "." && parts[i] != ".."
  }

  predicate IsTarget(t: string) {
    && 1 < |t| <= 256 && t[0] == '/' && CleanParts(t)
    && (forall i :: 0 <= i < |t| ==> t[i] != '\\' && t[i] != '$' && t[i] != ':' && !Control(t[i]))
    && !UnderAny(["/proc", "/sys", "/dev", "/run", "/var/run"], t) && !EndsWith(t, ".sock")
  }

  predicate IsTmpfs(t: string) {
    && |t| > 1 && t[0] == '/' && CleanParts(t) && !UnderAny(["/proc", "/sys", "/dev"], t)
    && forall i :: 1 <= i < |t| ==>
          Lower(t[i]) || Upper(t[i]) || Digit(t[i]) || t[i] == '_' || t[i] == '/' || t[i] == '-'
  }

  // --- recipes --------------------------------------------------------------------------------------

  datatype Mount = Mount(source: string, target: string, readOnly: bool)

  datatype Service = Service(image: Option<string>, build: Option<string>, user: Option<string>, load: Load,
                             readOnly: Option<bool>,
                             environment: map<string, string>, mounts: seq<Mount>, dependsOn: seq<string>)

  datatype Load = Load(memory: int, cpus: real, pids: int)

  datatype Compose = Compose(services: map<string, Service>, volumes: set<string>)

  datatype Manifest = Manifest(schema: string, sourceCommit: string, images: map<string, string>)

  /** Digests pin their bytes, so the seal is modelled as naming the recipe and manifest themselves. */
  datatype Seal = Seal(sourceCommit: string, compose: Compose, manifest: Manifest, images: map<string, string>,
                       environment: map<string, set<string>>, secrets: set<string>, producers: map<string, string>)

  type Ref = (string, string, string)

  const SCHEMA: string := "forge/workspace-images/v1"
  const GIB: int := 1024 * 1024 * 1024
  const MIB: int := 1024 * 1024

  function Plus(a: Load, b: Load): Load {
    Load(a.memory + b.memory, a.cpus + b.cpus, a.pids + b.pids)
  }

  predicate Fits(a: Load, b: Load) {
    a.memory <= b.memory && a.cpus <= b.cpus && a.pids <= b.pids
  }

  const MOST := Load(4 * GIB, 4.0, 2048)

  /** The services' total, walking the dictionary in some order. */
  function Total(services: map<string, Service>, order: seq<string>): Load
    requires forall i :: 0 <= i < |order| ==> order[i] in services
  {
    if order == [] then Load(0, 0.0, 0)
    else Plus(Total(services, order[..|order| - 1]), services[order[|order| - 1]].load)
  }

  predicate Enumerates(order: seq<string>, services: map<string, Service>) {
    && (forall i :: 0 <= i < |order| ==> order[i] in services)
    && ServiceGraph.Distinct(order) && |order| == |services|
  }

  lemma EnumeratesAll(order: seq<string>, services: map<string, Service>)
    requires Enumerates(order, services)
    ensures forall name :: name in services ==> name in order
  {
    ServiceGraph.DistinctSize(order);
    var all := ServiceGraph.Elements(order);
    forall name | name in services
      ensures name in order
    {
      if name !in all {
        ServiceGraph.SubsetSize(all, services.Keys - {name});
      }
    }
  }

  lemma {:induction false} TotalWithout(services: map<string, Service>, order: seq<string>, i: nat)
    requires i < |order| && forall k :: 0 <= k < |order| ==> order[k] in services
    ensures Total(services, order) == Plus(Total(services, order[..i] + order[i + 1..]), services[order[i]].load)
    decreases |order|
  {
    var n := |order| - 1;
    if i == n {
      assert order[..i] + order[i + 1..] == order[..n];
    } else {
      TotalWithout(services, order[..n], i);
      var rest := order[..i] + order[i + 1..];
      assert rest[..|rest| - 1] == order[..n][..i] + order[..n][i + 1..] && rest[|rest| - 1] == order[n];
    }
  }

  lemma WithoutLast<T>(a: seq<T>, b: seq<T>) returns (i: nat)
    requires a != [] && multiset(a) == multiset(b)
    ensures i < |b| && b[i] == a[|a| - 1] && multiset(a[..|a| - 1]) == multiset(b[..i] + b[i + 1..])
  {
    var n := |a| - 1;
    assert a == a[..n] + [a[n]];
    assert a[n] in multiset(b);
    i :| 0 <= i < |b| && b[i] == a[n];
    assert b == b[..i] + [b[i]] + b[i + 1..];
    assert multiset(a[..n]) == multiset(a) - multiset{a[n]};
    assert multiset(b[..i] + b[i + 1..]) == multiset(b) - multiset{b[i]};
  }

  /** The order of the walk does not change the total. */
  lemma {:induction false} TotalPermutes(services: map<string, Service>, order: seq<string>, other: seq<string>)
    requires multiset(order) == multiset(other)
    requires (forall k :: 0 <= k < |order| ==> order[k] in services)
    requires (forall k :: 0 <= k < |other| ==> other[k] in services)
    ensures Total(services, order) == Total(services, other)
    decreases |order|
  {
    if order == [] {
      assert |multiset(other)| == 0;
    } else {
      var i := WithoutLast(order, other);
      TotalPermutes(services, order[..|order| - 1], other[..i] + other[i + 1..]);
      TotalWithout(services, other, i);
    }
  }

  // --- admission ------------------------------------------------------------------------------------

  predicate MountsOk(mounts: seq<Mount>, volumes: set<string>) {
    && |mounts| <= 8
    && (forall i :: 0 <= i < |mounts| ==> mounts[i].source in volumes && IsTarget(mounts[i].target))
    && forall i, j :: 0 <= i < j < |mounts| ==> mounts[i].target != mounts[j].target
  }

  predicate VariableOk(name: string, key: string, value: string, seal: Seal) {
    && IsEnvName(key) && name in seal.environment && key in seal.environment[name]
    && !HasPrefixes(key, ["DOCKER_", "CICD_RUNNER_"])
    && |value| <= 4096 && (forall i :: 0 <= i < |value| ==> !Control(value[i]))
    && if SecretOf(value).Some? then SecretOf(value).value in seal.secrets else '$' !in value
  }

  predicate EnvironmentOk(name: string, values: map<string, string>, seal: Seal) {
    |values| <= 32 && forall key :: key in values ==> VariableOk(name, key, values[key], seal)
  }

  function Refs(name: string, values: map<string, string>): set<Ref> {
    set key | key in values && SecretOf(values[key]).Some? :: (name, key, SecretOf(values[key]).value)
  }

  predicate SourceOk(name: string, s: Service, seal: Seal) {
    && s.image.Some? != s.build.Some? && name in seal.images && IsImage(seal.images[name])
    && if s.build.Some? then IsBuildJob(s.build.value) && name in seal.producers
      && seal.producers[name] == s.build.value
       else s.image.value == seal.images[name] && name !in seal.producers
  }

  predicate LoadOk(l: Load) {
    16 * MIB <= l.memory <= 2 * GIB && 0.1 <= l.cpus <= 2.0 && 16 <= l.pids <= 512
  }

  predicate DependsOk(name: string, depends: seq<string>, services: map<string, Service>) {
    && |depends| <= 7 && (forall i :: 0 <= i < |depends| ==> depends[i] in services && depends[i] != name)
    && forall i, j :: 0 <= i < j < |depends| ==> depends[i] != depends[j]
  }

  predicate ServiceOk(name: string, s: Service, compose: Compose, seal: Seal) {
    && IsName(name) && SourceOk(name, s, seal) && (s.user.Some? ==> IsUser(s.user.value)) && LoadOk(s.load)
    && DependsOk(name, s.dependsOn, compose.services) && MountsOk(s.mounts, compose.volumes)
      && EnvironmentOk(name, s.environment, seal)
  }

  function Graph(services: map<string, Service>): ServiceGraph.Graph {
    map name | name in services :: services[name].dependsOn
  }

  /** Everything but the services themselves. */
  predicate FrameOk(compose: Compose, manifest: Manifest, seal: Seal) {
    && IsCommit(seal.sourceCommit) && compose == seal.compose && manifest == seal.manifest
    && manifest.schema == SCHEMA && manifest.sourceCommit == seal.sourceCommit
    && 1 <= |compose.services| <= 8 && |compose.volumes| <= 8 && (forall v :: v in compose.volumes ==> IsName(v))
    && compose.services.Keys == manifest.images.Keys && manifest.images == seal.images
  }

  ghost predicate Admissible(compose: Compose, manifest: Manifest, seal: Seal, order: seq<string>)
    requires Enumerates(order, compose.services)
  {
    && FrameOk(compose, manifest, seal)
    && (forall name :: name in compose.services ==> ServiceOk(name, compose.services[name], compose, seal))
    && Fits(Total(compose.services, order), MOST)
    && ServiceGraph.Acyclic(Graph(compose.services))
  }

  method CheckEnvironment(name: string, values: map<string, string>, seal: Seal) returns (r: Option<set<Ref>>)
    ensures r.Some? <==> EnvironmentOk(name, values, seal)
    ensures r.Some? ==> r.value == Refs(name, values)
  {
    if |values| > 32 {
      return None;
    }
    var refs: set<Ref> := {};
    var left := values.Keys;
    while left != {}
      invariant left <= values.Keys
      invariant forall key :: key in values && key !in left ==> VariableOk(name, key, values[key], seal)
      invariant refs == set key | key in values && key !in left
                && SecretOf(values[key]).Some? :: (name, key, SecretOf(values[key]).value)
      decreases |left|
    {
      var key :| key in left;
      if !VariableOk(name, key, values[key], seal) {
        return None;
      }
      var secret := SecretOf(values[key]);
      if secret.Some? {
        refs := refs + {(name, key, secret.value)};
      }
      left := left - {key};
    }
    return Some(refs);
  }

  function AllRefs(services: map<string, Service>, order: seq<string>): set<Ref>
    requires forall i :: 0 <= i < |order| ==> order[i] in services
  {
    if order == [] then {}
    else AllRefs(services, order[..|order| - 1]) + Refs(order[|order| - 1], services[order[|order| - 1]].environment)
  }

  lemma {:induction false} RefsExactly(services: map<string, Service>, order: seq<string>, ref: Ref)
    requires forall i :: 0 <= i < |order| ==> order[i] in services
    ensures ref in AllRefs(services, order) <==>
            ref.0 in order && ref.1 in services[ref.0].environment
              && SecretOf(services[ref.0].environment[ref.1]) == Some(ref.2)
    decreases |order|
  {
    if order != [] {
      var n := |order| - 1;
      RefsExactly(services, order[..n], ref);
      assert order == order[..n] + [order[n]];
    }
  }

  /** Admission accepts exactly the admissible recipes and reports exactly their secret references. */
  method ValidateRecipe(compose: Compose, manifest: Manifest, seal: Seal, order: seq<string>)
    returns (r: Option<set<Ref>>)
    requires Enumerates(order, compose.services)
    ensures r.Some? <==> Admissible(compose, manifest, seal, order)
    ensures r.Some? ==> r.value == AllRefs(compose.services, order)
  {
    hide IsName, SourceOk, IsUser, LoadOk, DependsOk, MountsOk, ServiceGraph.Acyclic, Refs, Plus, Fits, EnvironmentOk;
    if !FrameOk(compose, manifest, seal) {
      return None;
    }
    var total, refs := Load(0, 0.0, 0), {};
    for i := 0 to |order|
      invariant forall k :: 0 <= k < i ==> ServiceOk(order[k], compose.services[order[k]], compose, seal)
      invariant total == Total(compose.services, order[..i]) && refs == AllRefs(compose.services, order[..i])
    {
      var name, s := order[i], compose.services[order[i]];
      assert order[..i + 1][..i] == order[..i];
      if !IsName(name) || !SourceOk(name, s, seal) || (s.user.Some? && !IsUser(s.user.value)) || !LoadOk(s.load) {
        return None;
      }
      total := Plus(total, s.load);
      if !DependsOk(name, s.dependsOn, compose.services) || !MountsOk(s.mounts, compose.volumes) {
        return None;
      }
      var found := CheckEnvironment(name, s.environment, seal);
      if found.None? {
        return None;
      }
      refs := refs + found.value;
    }
    assert order[..|order|] == order;
    if !Fits(total, MOST) {
      return None;
    }
    EnumeratesAll(order, compose.services);
    var acyclic, _, _ := ServiceGraph.Dependencies(Graph(compose.services));
    if !acyclic {
      return None;
    }
    return Some(refs);
  }

  // --- rendering ------------------------------------------------------------------------------------

  datatype Facts = Facts(imageId: string, defaultUser: Option<string>, volumes: set<string>, os: string,
                         architecture: string)

  datatype Owner = Owner(users: map<string, Option<string>>, tmpfs: map<string, set<string>>, facts: map<string, Facts>,
                         secrets: map<string, string>, quota: Load)

  datatype Rendered = Rendered(image: string, environment: map<string, string>, user: string, mounts: seq<Mount>,
                               tmpfs: set<string>)

  predicate ActualImage(f: Facts, image: string) {
    && f.imageId == image && f.os == "linux" && (f.architecture == "amd64" || f.architecture == "arm64")
      && |f.volumes| <= 8
    && (f.defaultUser.Some? ==> Printable(f.defaultUser.value))
  }

  predicate Printable(user: string) {
    |user| <= 128 && forall i :: 0 <= i < |user| ==> !Control(user[i]) && !(128 as char <= user[i] <= 159 as char)
  }

  function Targets(mounts: seq<Mount>): set<string> {
    set i | 0 <= i < |mounts| :: mounts[i].target
  }

  /** No path of the set continues another one. */
  predicate NoOverlap(paths: set<string>) {
    forall a, b :: a in paths && b in paths && a != b ==> !(b + "/" <= a)
  }

  predicate PathsOk(mounts: seq<Mount>, tmpfs: set<string>) {
    && |tmpfs| <= 4 && (forall t :: t in tmpfs ==> IsTmpfs(t))
    && Targets(mounts) * tmpfs == {} && NoOverlap(Targets(mounts) + tmpfs)
  }

  predicate SecretReady(value: string, secrets: map<string, string>) {
    SecretOf(value).Some? ==>
      SecretOf(value).value in secrets && |secrets[SecretOf(value).value]| <= 16 * 1024
        && (0 as char) !in secrets[SecretOf(value).value]
  }

  predicate SecretsReady(values: map<string, string>, secrets: map<string, string>) {
    forall key :: key in values ==> SecretReady(values[key], secrets)
  }

  function Revealed(value: string, secrets: map<string, string>): string {
    if SecretOf(value).Some? && SecretOf(value).value in secrets then secrets[SecretOf(value).value] else value
  }

  predicate UserMatches(user: Option<string>, s: Service, f: Facts) {
    user.Some? && IsUser(user.value) && user == (if s.user.Some? then s.user else f.defaultUser)
  }

  predicate RenderOk(name: string, s: Service, seal: Seal, owner: Owner)
    requires name in seal.images && name in owner.facts && name in owner.users && name in owner.tmpfs
  {
    && ActualImage(owner.facts[name], seal.images[name]) && UserMatches(owner.users[name], s, owner.facts[name])
    && PathsOk(s.mounts, owner.tmpfs[name]) && owner.facts[name].volumes <= Targets(s.mounts)
    && (s.readOnly.Some? ==> s.readOnly.value) && SecretsReady(s.environment, owner.secrets)
  }

  /** Reserved names, a complete owner policy, and a total within a quota that is itself bounded. */
  predicate PolicyOk(compose: Compose, owner: Owner, total: Load) {
    && compose.services.Keys !! {"job", "transfer"} && compose.volumes !! {"workspace", "cargo", "sources"}
    && owner.users.Keys == owner.tmpfs.Keys == owner.facts.Keys == compose.services.Keys
    && total.memory > 0 && total.cpus > 0.0 && total.pids > 0 && Fits(total, owner.quota) && Fits(owner.quota, MOST)
  }

  ghost predicate Renderable(compose: Compose, manifest: Manifest, seal: Seal, owner: Owner, order: seq<string>)
    requires Enumerates(order, compose.services)
  {
    && Admissible(compose, manifest, seal, order) && PolicyOk(compose, owner, Total(compose.services, order))
    && forall name :: name in compose.services ==> RenderOk(name, compose.services[name], seal, owner)
  }

  /** A variable that names a secret becomes that secret's value; every other one stays as it is. */
  ghost predicate EnvironmentPromised(was: map<string, string>, now: map<string, string>, allowed: set<string>,
                                      secrets: map<string, string>) {
    && now.Keys == was.Keys
    && (forall key, secret :: key in was && was[key] == "${" + secret + "}" && IsEnvName(secret) ==>
          secret in allowed && secret in secrets && now[key] == secrets[secret])
    && (forall key :: key in was && '$' !in was[key] ==> now[key] == was[key])
    && (forall key :: key in was && '$' in was[key] ==>
          exists secret :: was[key] == "${" + secret + "}" && IsEnvName(secret))
  }

  /** What one rendered service promises, stated without the code that renders it. */
  ghost predicate Promised(name: string, s: Service, r: Rendered, seal: Seal, owner: Owner) {
    && name in seal.images && r.image == seal.images[name] && IsImage(r.image)
    && EnvironmentPromised(s.environment, r.environment, seal.secrets, owner.secrets)
    && IsUser(r.user) && (s.user.Some? ==> r.user == s.user.value)
    && r.mounts == s.mounts && name in owner.tmpfs && r.tmpfs == owner.tmpfs[name]
    && Separate(r.mounts, r.tmpfs)
  }

  /** Mount and tmpfs targets are different places and none lies inside another, compared part by part. */
  ghost predicate Separate(mounts: seq<Mount>, tmpfs: set<string>) {
    && (forall i, j :: 0 <= i < |mounts| && 0 <= j < |mounts| && i != j ==> Apart(mounts[i].target, mounts[j].target))
    && (forall i, t :: 0 <= i < |mounts| && t in tmpfs ==> Apart(mounts[i].target, t) && Apart(t, mounts[i].target))
    && (forall t, u :: t in tmpfs && u in tmpfs && t != u ==> Apart(t, u))
  }

  predicate Apart(a: string, b: string) {
    !(Text.Split(a, '/') <= Text.Split(b, '/'))
  }

  lemma ApartExactly(a: string, b: string)
    ensures Apart(a, b) <==> a != b && !(a + "/" <= b)
  {
    Text.ContinuesExactly(b, a, '/');
    Text.SplitJoin(a, '/');
    Text.SplitJoin(b, '/');
    var p, q := Text.Split(a, '/'), Text.Split(b, '/');
    hide Text.Split, Text.Join;
    assert p <= q && |p| == |q| ==> p == q;
    assert a + "/" == a + ['/'];
  }

  lemma PathsSeparate(mounts: seq<Mount>, volumes: set<string>, tmpfs: set<string>)
    requires MountsOk(mounts, volumes) && PathsOk(mounts, tmpfs)
    ensures Separate(mounts, tmpfs)
  {
    hide Apart, IsTarget, IsTmpfs;
    var all := Targets(mounts) + tmpfs;
    assert forall i :: 0 <= i < |mounts| ==> mounts[i].target in all;
    forall a, b | a in all && b in all && a != b
      ensures Apart(a, b)
    {
      ApartExactly(a, b);
    }
    forall i, t | 0 <= i < |mounts| && t in tmpfs
      ensures mounts[i].target != t
    {
      assert mounts[i].target in Targets(mounts);
      ServiceGraph.DisjointMember(Targets(mounts), tmpfs, mounts[i].target);
    }
    forall i, j | 0 <= i < |mounts| && 0 <= j < |mounts| && i != j
      ensures mounts[i].target != mounts[j].target
    {
      if i < j {
        assert mounts[i].target != mounts[j].target;
      } else {
        assert mounts[j].target != mounts[i].target;
      }
    }
  }

  /** The secret a reference names is found exactly in values of the form `${NAME}`. */
  lemma SecretExactly(value: string, secret: string)
    ensures SecretOf(value) == Some(secret) <==> value == "${" + secret + "}" && IsEnvName(secret)
  {
    var ref := "${" + secret + "}";
    assert ref[2..|ref| - 1] == secret;
    if SecretOf(value) == Some(secret) {
      assert value == value[..2] + value[2..|value| - 1] + value[|value| - 1..];
      assert value[..2] == "${" && value[|value| - 1..] == "}";
    }
  }

  function RenderedService(s: Service, image: string, user: string, tmpfs: set<string>,
                           secrets: map<string, string>): Rendered {
    Rendered(image, map key | key in s.environment :: Revealed(s.environment[key], secrets), user, s.mounts, tmpfs)
  }

  lemma EnvironmentRenders(name: string, was: map<string, string>, seal: Seal, secrets: map<string, string>)
    requires EnvironmentOk(name, was, seal) && SecretsReady(was, secrets)
    ensures EnvironmentPromised(was, map key | key in was :: Revealed(was[key], secrets), seal.secrets, secrets)
  {
    hide IsEnvName, SecretOf, HasPrefixes;
    forall key, secret | key in was && was[key] == "${" + secret + "}" && IsEnvName(secret)
      ensures secret in seal.secrets && secret in secrets && Revealed(was[key], secrets) == secrets[secret]
    {
      SecretExactly(was[key], secret);
      assert VariableOk(name, key, was[key], seal) && SecretReady(was[key], secrets);
    }
    forall key | key in was && '$' !in was[key]
      ensures Revealed(was[key], secrets) == was[key]
    {
      NoDollar(was[key]);
    }
    forall key | key in was && '$' in was[key]
      ensures exists secret :: was[key] == "${" + secret + "}" && IsEnvName(secret)
    {
      assert VariableOk(name, key, was[key], seal);
      SecretExactly(was[key], SecretOf(was[key]).value);
    }
  }

  lemma RendersAsPromised(name: string, s: Service, compose: Compose, seal: Seal, owner: Owner)
    requires ServiceOk(name, s, compose, seal) && name in owner.facts && name in owner.users && name in owner.tmpfs
    requires RenderOk(name, s, seal, owner)
    ensures var image, user, tmpfs := seal.images[name], owner.users[name].value, owner.tmpfs[name];
            Promised(name, s, RenderedService(s, image, user, tmpfs, owner.secrets), seal, owner)
  {
    hide IsName, IsUser, IsImage, IsBuildJob, ActualImage, Separate, MountsOk, PathsOk, EnvironmentOk, SecretsReady,
      EnvironmentPromised, Revealed;
    PathsSeparate(s.mounts, compose.volumes, owner.tmpfs[name]);
    EnvironmentRenders(name, s.environment, seal, owner.secrets);
  }

  lemma NoDollar(value: string)
    requires '$' !in value
    ensures SecretOf(value).None?
  {
  }

  method RevealSecrets(values: map<string, string>, secrets: map<string, string>)
    returns (r: Option<map<string, string>>)
    ensures r.Some? <==> SecretsReady(values, secrets)
    ensures r.Some? ==> r.value == map key | key in values :: Revealed(values[key], secrets)
  {
    hide SecretOf;
    var environment := values;
    var left := values.Keys;
    while left != {}
      invariant left <= values.Keys && environment.Keys == values.Keys
      invariant forall key :: key in values && key !in left ==>
                SecretReady(values[key], secrets) && environment[key] == Revealed(values[key], secrets)
      invariant forall key :: key in left ==> environment[key] == values[key]
      decreases |left|
    {
      var key :| key in left;
      var secret := SecretOf(values[key]);
      if secret.Some? {
        if !SecretReady(values[key], secrets) {
          return None;
        }
        environment := environment[key := secrets[secret.value]];
      }
      left := left - {key};
    }
    return Some(environment);
  }

  method SumLoads(services: map<string, Service>, order: seq<string>) returns (total: Load)
    requires forall i :: 0 <= i < |order| ==> order[i] in services
    ensures total == Total(services, order)
  {
    total := Load(0, 0.0, 0);
    for i := 0 to |order|
      invariant total == Total(services, order[..i])
    {
      assert order[..i + 1][..i] == order[..i];
      total := Plus(total, services[order[i]].load);
    }
    assert order[..|order|] == order;
  }

  method RenderService(name: string, compose: Compose, seal: Seal, owner: Owner) returns (r: Option<Rendered>)
    requires name in compose.services && ServiceOk(name, compose.services[name], compose, seal)
    requires name in seal.images && name in owner.facts && name in owner.users && name in owner.tmpfs
    ensures r.Some? <==> RenderOk(name, compose.services[name], seal, owner)
    ensures r.Some? ==> Promised(name, compose.services[name], r.value, seal, owner)
  {
    hide ServiceOk, ActualImage, PathsOk, SecretsReady, Promised, Revealed, IsUser;
    var s, facts, user, paths := compose.services[name], owner.facts[name], owner.users[name], owner.tmpfs[name];
    if !ActualImage(facts, seal.images[name]) || !UserMatches(user, s, facts) || !PathsOk(s.mounts, paths)
       || !(facts.volumes <= Targets(s.mounts)) || (s.readOnly.Some? && !s.readOnly.value) {
      return None;
    }
    var environment := RevealSecrets(s.environment, owner.secrets);
    if environment.None? {
      return None;
    }
    RendersAsPromised(name, s, compose, seal, owner);
    return Some(Rendered(seal.images[name], environment.value, user.value, s.mounts, paths));
  }

  /** Renders exactly the renderable recipes, each service as promised and within the owner's quota. */
  method ResolveServices(compose: Compose, manifest: Manifest, seal: Seal, owner: Owner, order: seq<string>)
    returns (r: Option<map<string, Rendered>>)
    requires Enumerates(order, compose.services)
    ensures r.Some? <==> Renderable(compose, manifest, seal, owner, order)
    ensures r.Some? ==> r.value.Keys == compose.services.Keys && Fits(Total(compose.services, order), owner.quota)
    ensures r.Some? ==> forall name :: name in compose.services ==>
              Promised(name, compose.services[name], r.value[name], seal, owner)
  {
    hide ServiceOk, RenderOk, Promised, ServiceGraph.Acyclic, Fits, Total, AllRefs;
    var refs := ValidateRecipe(compose, manifest, seal, order);
    if refs.None? {
      return None;
    }
    var total := SumLoads(compose.services, order);
    if !PolicyOk(compose, owner, total) {
      return None;
    }
    var rendered: map<string, Rendered> := map[];
    for i := 0 to |order|
      invariant forall k :: 0 <= k < i ==> RenderOk(order[k], compose.services[order[k]], seal, owner)
      invariant rendered.Keys == set k | 0 <= k < i :: order[k]
      invariant forall k :: 0 <= k < i ==>
                Promised(order[k], compose.services[order[k]], rendered[order[k]], seal, owner)
    {
      var one := RenderService(order[i], compose, seal, owner);
      if one.None? {
        return None;
      }
      rendered := rendered[order[i] := one.value];
    }
    EnumeratesAll(order, compose.services);
    return Some(rendered);
  }

  // --- volumes --------------------------------------------------------------------------------------

  type Use = (string, string)

  /** The volumes a service mounts, each with the service's user. */
  function UsesOf(s: Rendered, n: nat): set<Use>
    requires n <= |s.mounts|
  {
    set j | 0 <= j < n :: (s.mounts[j].source, s.user)
  }

  function Uses(rendered: map<string, Rendered>, order: seq<string>): set<Use>
    requires forall i :: 0 <= i < |order| ==> order[i] in rendered
  {
    if order == [] then {}
    else
      var s := rendered[order[|order| - 1]];
      Uses(rendered, order[..|order| - 1]) + UsesOf(s, |s.mounts|)
  }

  /** No volume is mounted by services that run as different users. */
  ghost predicate OneUserEach(uses: set<Use>) {
    forall a, b :: a in uses && b in uses && a.0 == b.0 ==> a == b
  }

  function Mounted(uses: set<Use>): set<string> {
    set use | use in uses :: use.0
  }

  /** A dictionary as the set of its entries. */
  function Entries(users: map<string, string>): set<Use> {
    set v | v in users :: (v, users[v])
  }

  lemma OneMoreUse(users: map<string, string>, v: string, u: string)
    requires v !in users || users[v] == u
    ensures Entries(users[v := u]) == Entries(users) + {(v, u)}
  {
    var more := users[v := u];
    assert more[v] == u;
    forall w | w in users
      ensures (w, users[w]) in Entries(more)
    {
      assert more[w] == users[w];
    }
  }

  /** Accepted exactly when every volume's mounts agree on the user and the mounted volumes are the
      declared ones; then the answer gives each volume its user. */
  method VolumeUsers(rendered: map<string, Rendered>, order: seq<string>, volumes: set<string>)
    returns (r: Option<map<string, string>>)
    requires forall i :: 0 <= i < |order| ==> order[i] in rendered
    ensures r.Some? <==> OneUserEach(Uses(rendered, order)) && Mounted(Uses(rendered, order)) == volumes
    ensures r.Some? ==> Entries(r.value) == Uses(rendered, order) && r.value.Keys == volumes
  {
    var users: map<string, string> := map[];
    for i := 0 to |order|
      invariant Entries(users) == Uses(rendered, order[..i])
    {
      var s := rendered[order[i]];
      for j := 0 to |s.mounts|
        invariant Entries(users) == Uses(rendered, order[..i]) + UsesOf(s, j)
      {
        var v := s.mounts[j].source;
        assert UsesOf(s, j + 1) == UsesOf(s, j) + {(v, s.user)};
        if v in users && users[v] != s.user {
          assert (v, users[v]) in Entries(users);
          Disagree(rendered, order, i, j, users[v]);
          return None;
        }
        OneMoreUse(users, v, s.user);
        users := users[v := s.user];
      }
      assert order[..i + 1][..i] == order[..i] && order[..i + 1][i] == order[i];
    }
    assert order[..|order|] == order;
    GraphOf(users);
    if users.Keys != volumes {
      return None;
    }
    return Some(users);
  }

  lemma GraphOf(users: map<string, string>)
    ensures OneUserEach(Entries(users)) && Mounted(Entries(users)) == users.Keys
  {
    forall v | v in users
      ensures v in Mounted(Entries(users))
    {
      assert (v, users[v]) in Entries(users);
    }
  }

  lemma {:induction false} UsesGrow(rendered: map<string, Rendered>, order: seq<string>, n: nat)
    requires n <= |order| && forall i :: 0 <= i < |order| ==> order[i] in rendered
    ensures Uses(rendered, order[..n]) <= Uses(rendered, order)
    decreases |order|
  {
    if n < |order| {
      UsesGrow(rendered, order[..|order| - 1], n);
      assert order[..|order| - 1][..n] == order[..n];
    } else {
      assert order[..n] == order;
    }
  }

  lemma Disagree(rendered: map<string, Rendered>, order: seq<string>, i: nat, j: nat, user: string)
    requires i < |order| && forall k :: 0 <= k < |order| ==> order[k] in rendered
    requires j < |rendered[order[i]].mounts| && user != rendered[order[i]].user
    requires (rendered[order[i]].mounts[j].source, user) in Uses(rendered, order[..i]) + UsesOf(rendered[order[i]], j)
    ensures !OneUserEach(Uses(rendered, order))
  {
    var s := rendered[order[i]];
    var a, b := (s.mounts[j].source, user), (s.mounts[j].source, s.user);
    UsesGrow(rendered, order, i);
    UsesGrow(rendered, order, i + 1);
    assert order[..i + 1][i] == order[i];
    assert b in UsesOf(s, |s.mounts|);
    assert a in Uses(rendered, order) && b in Uses(rendered, order);
  }
}

/** What the container runtime holds: containers, volumes, and the passage from
  * run options to a container and back.
  */
module Containers {
  import opened Labels

  type ContainerId = string

  datatype MountKind = VolumeMount | BindMount | OtherMount

  datatype Mount = Mount(kind: MountKind, name: string, source: string, destination: string)

  datatype Container = Container(
    name: string, labels: LabelMap, image: string, command: seq<string>, env: seq<string>, stdin: bool,
    mounts: seq<Mount>, status: string, exitCode: int)

  /** `used` holds every container id ever given out: ids are not reused. */
  datatype World = World(
    containers: map<ContainerId, Container>, volumes: map<string, LabelMap>, used: set<ContainerId>)
  {
    ghost predicate Valid() {
      containers.Keys <= used
    }

    /** A new container, under an id never given out before. */
    function With(id: ContainerId, c: Container): World {
      this.(containers := containers[id := c], used := used + {id})
    }

    function WithVolume(name: string, labels: LabelMap): World {
      this.(volumes := volumes[name := labels])
    }

    function Without(id: ContainerId): World {
      this.(containers := containers - {id})
    }

    function WithoutVolume(name: string): World {
      this.(volumes := volumes - {name})
    }

    /** The containers a label query finds. */
    function Matching(query: LabelMap): set<ContainerId> {
      set id | id in containers && Matches(query, containers[id].labels)
    }

    function MatchingVolumes(query: LabelMap): set<string> {
      set name | name in volumes && Matches(query, volumes[name])
    }
  }

  datatype RunOpts = RunOpts(
    labels: LabelMap, image: string, command: seq<string>, volumes: map<string, string>,
    binds: map<string, string>, environ: map<string, string>, preserveStdin: bool)

  /** The mounted volumes by name; a later entry replaces an earlier one. */
  function VolumesOf(mounts: seq<Mount>): map<string, string> {
    if mounts == [] then map[]
    else
      var m := mounts[|mounts| - 1];
      var before := VolumesOf(mounts[..|mounts| - 1]);
      if m.kind.VolumeMount? then before[m.name := m.destination] else before
  }

  function BindsOf(mounts: seq<Mount>): map<string, string> {
    if mounts == [] then map[]
    else
      var m := mounts[|mounts| - 1];
      var before := BindsOf(mounts[..|mounts| - 1]);
      if m.kind.BindMount? then before[m.source := m.destination] else before
  }

  /** The name in an environment entry: what comes before its first '='. */
  function EnvName(entry: string): string {
    entry[..FirstEquals(entry)]
  }

  /** The value in an environment entry: lost unless the entry has exactly one '='. */
  function EnvValue(entry: string): string {
    var i := FirstEquals(entry);
    if i < |entry| && '=' !in entry[i + 1..] then entry[i + 1..] else ""
  }

  /** The environment by name; a later entry replaces an earlier one. */
  function EnvironOf(env: seq<string>): map<string, string> {
    if env == [] then map[]
    else
      var entry := env[|env| - 1];
      EnvironOf(env[..|env| - 1])[EnvName(entry) := EnvValue(entry)]
  }

  /** The run options read back from an inspected container. */
  function OptsOf(c: Container): RunOpts {
    RunOpts(c.labels, c.image, c.command, VolumesOf(c.mounts), BindsOf(c.mounts), EnvironOf(c.env), c.stdin)
  }

  /** `mounts` lists each requested volume once, in any order. */
  ghost predicate Mounted(volumes: map<string, string>, mounts: seq<Mount>) {
    && |mounts| == |volumes|
    && (forall m :: m in mounts ==> m.kind.VolumeMount? && m.name in volumes && m.destination == volumes[m.name])
    && (forall i, j :: 0 <= i < j < |mounts| ==> mounts[i].name != mounts[j].name)
  }

  /** The new container's mounts come from the requested volumes alone: requested bind mounts are dropped. */
  method BuildPodmanVolumes(volumes: map<string, string>) returns (mounts: seq<Mount>)
    ensures Mounted(volumes, mounts)
  {
    mounts := [];
    var pending := volumes.Keys;
    while pending != {}
      invariant pending <= volumes.Keys && |mounts| + |pending| == |volumes.Keys|
      invariant forall m :: m in mounts ==>
        m.kind.VolumeMount? && m.name in volumes && m.name !in pending && m.destination == volumes[m.name]
      invariant forall i, j :: 0 <= i < j < |mounts| ==> mounts[i].name != mounts[j].name
      decreases |pending|
    {
      var name :| name in pending;
      mounts := mounts + [Mount(VolumeMount, name, "", volumes[name])];
      pending := pending - {name};
    }
  }

  method BuildContainerFromInspection(c: Container) returns (opts: RunOpts)
    ensures opts == OptsOf(c)
  {
    var environ: map<string, string> := map[];
    for i := 0 to |c.env|
      invariant environ == EnvironOf(c.env[..i])
    {
      assert c.env[..i + 1][..i] == c.env[..i];
      environ := environ[EnvName(c.env[i]) := EnvValue(c.env[i])];
    }
    assert c.env[..|c.env|] == c.env;
    var volumes: map<string, string>, binds: map<string, string> := map[], map[];
    for i := 0 to |c.mounts|
      invariant volumes == VolumesOf(c.mounts[..i]) && binds == BindsOf(c.mounts[..i])
    {
      var m := c.mounts[i];
      assert c.mounts[..i + 1][..i] == c.mounts[..i];
      if m.kind == VolumeMount {
        volumes := volumes[m.name := m.destination];
      } else if m.kind == BindMount {
        binds := binds[m.source := m.destination];
      }
    }
    assert c.mounts[..|c.mounts|] == c.mounts;
    opts := RunOpts(c.labels, c.image, c.command, volumes, binds, environ, c.stdin);
  }

  /** Reading a created container back yields the requested volumes, for every order of its mounts. */
  lemma {:induction false} MountsReadBack(volumes: map<string, string>, mounts: seq<Mount>)
    requires Mounted(volumes, mounts)
    ensures VolumesOf(mounts) == volumes && BindsOf(mounts) == map[]
    decreases |mounts|
  {
    if mounts == [] {
      assert volumes == map[];
    } else {
      var front, m := mounts[..|mounts| - 1], mounts[|mounts| - 1];
      var rest := volumes - {m.name};
      assert m in mounts;
      assert rest.Keys == volumes.Keys - {m.name} && |rest| == |rest.Keys|;
      forall n | n in front ensures n in mounts && n.name != m.name { }
      MountsReadBack(rest, front);
      assert volumes == rest[m.name := m.destination];
    }
  }

  function EnvEntry(name: string, value: string): string {
    name + "=" + value
  }

  /** Entry `i` is the requested one, and no later entry has its name. */
  predicate LastEntry(env: seq<string>, name: string, value: string, i: nat) {
    && i < |env| && env[i] == EnvEntry(name, value)
    && forall j :: i < j < |env| ==> EnvName(env[j]) != name
  }

  /** The environment of a container holds the requested entries, whatever its image adds before them. */
  ghost predicate Injected(environ: map<string, string>, env: seq<string>) {
    forall name :: name in environ ==> exists i :: LastEntry(env, name, environ[name], i)
  }

  lemma EntryParts(name: string, value: string)
    requires '=' !in name
    ensures EnvName(EnvEntry(name, value)) == name
    ensures EnvValue(EnvEntry(name, value)) == if '=' in value then "" else value
  {
    var entry := EnvEntry(name, value);
    var i := FirstEquals(entry);
    assert entry[..|name|] == name && entry[|name|] == '=' && entry[|name| + 1..] == value;
    assert forall j :: 0 <= j < |name| ==> entry[j] == name[j] && name[j] in name;
    assert i == |name|;
  }

  lemma {:induction false} LastEntryWins(env: seq<string>, name: string, value: string, i: nat)
    requires '=' !in name && LastEntry(env, name, value, i)
    ensures name in EnvironOf(env) && EnvironOf(env)[name] == EnvValue(EnvEntry(name, value))
    decreases |env|
  {
    var n := |env| - 1;
    if i == n {
      EntryParts(name, value);
    } else {
      assert EnvName(env[n]) != name;
      LastEntryWins(env[..n], name, value, i);
    }
  }

  lemma {:induction false} NamesHaveNoEquals(env: seq<string>, name: string)
    requires name in EnvironOf(env)
    ensures '=' !in name
    decreases |env|
  {
    var n := |env| - 1;
    if name != EnvName(env[n]) {
      NamesHaveNoEquals(env[..n], name);
    }
  }

  /** A requested variable is read back with its value if and only if neither its name nor its value has a '='. */
  lemma EnvironReadBack(environ: map<string, string>, env: seq<string>, name: string)
    requires Injected(environ, env) && name in environ
    ensures name in EnvironOf(env) <==> '=' !in name
    ensures name in EnvironOf(env) ==> (EnvironOf(env)[name] == environ[name] <==> '=' !in environ[name])
  {
    var i :| LastEntry(env, name, environ[name], i);
    if name in EnvironOf(env) {
      NamesHaveNoEquals(env, name);
    }
    if '=' !in name {
      LastEntryWins(env, name, environ[name], i);
      EntryParts(name, environ[name]);
    }
  }
}

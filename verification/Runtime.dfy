/** The container runtime behind the executor: an object whose calls may fail
  * and whose contents outlive every executor.
  */
module Runtime {
  import opened Wrappers
  import opened Labels
  import opened Containers
  import opened CommandResults
  import opened Recovery

  datatype ContainerState = ContainerState(status: string, exitCode: int)

  class PodmanRuntime {
    var world: World
    const env: Env
    /** Every destroy call made, in order. */
    ghost var attempts: seq<ContainerId>

    constructor (world: World, env: Env)
      ensures this.world == world && this.env == env && attempts == []
    {
      this.world, this.env, attempts := world, env, [];
    }

    method CreateVolume(name: string, labels: LabelMap) returns (created: Option<string>)
      modifies this`world
      ensures created == if env.createFails || name in old(world).volumes then None else Some(name)
      ensures world == if created.None? then old(world) else old(world).WithVolume(name, labels)
    {
      if env.createFails || name in world.volumes {
        return None;
      }
      world := world.WithVolume(name, labels);
      created := Some(name);
    }

    /** Deleting a volume that does not exist succeeds. */
    method DeleteVolume(name: string) returns (ok: bool)
      modifies this`world
      ensures ok == !DeleteRefused(env, name)
      ensures world == if ok then old(world).WithoutVolume(name) else old(world)
    {
      if DeleteRefused(env, name) {
        return false;
      }
      if name in world.volumes {
        world := world.WithoutVolume(name);
      } else {
        assert world.volumes - {name} == world.volumes;
      }
      ok := true;
    }

    method ExistsContainer(id: ContainerId) returns (exists_: Option<bool>)
      ensures exists_ == if env.existsFails(id) then None else Some(id in world.containers)
    {
      exists_ := if env.existsFails(id) then None else Some(id in world.containers);
    }

    /** Removing a container that does not exist is an error. */
    method DestroyContainer(id: ContainerId) returns (ok: bool)
      modifies this
      ensures ok == DestroyWorks(env, old(world), id)
      ensures world == AfterDestroy(env, old(world), id)
      ensures attempts == old(attempts) + [id]
    {
      attempts := attempts + [id];
      ok := id in world.containers && !env.destroyFails(id);
      if ok {
        world := world.Without(id);
      }
    }

    method GetState(id: ContainerId) returns (state: Option<ContainerState>)
      ensures state == if id !in world.containers || env.inspectFails(id) then None
        else Some(ContainerState(world.containers[id].status, world.containers[id].exitCode))
    {
      if id !in world.containers || env.inspectFails(id) {
        return None;
      }
      state := Some(ContainerState(world.containers[id].status, world.containers[id].exitCode));
    }

    /** Lists what the filters accept; that is what matches the query when no key contains '='. */
    method GetVolumesByLabels(query: LabelMap) returns (names: Option<seq<string>>)
      requires env.Valid()
      ensures names.None? <==> env.listVolumesFails
      ensures names.Some? ==>
        IsListing(names.value, set n | n in world.volumes && FiltersAccept(query, world.volumes[n]))
      ensures names.Some? && NoEquals(query) ==> names.value == env.arrange(world.MatchingVolumes(query))
    {
      var filters := BuildLabelFilters(query);
      if env.listVolumesFails {
        return None;
      }
      var found := set n | n in world.volumes && AcceptsAll(filters, world.volumes[n]);
      forall n | n in world.volumes
        ensures AcceptsAll(filters, world.volumes[n]) == FiltersAccept(query, world.volumes[n])
        ensures NoEquals(query) ==> (AcceptsAll(filters, world.volumes[n]) <==> Matches(query, world.volumes[n]))
      {
        FiltersAre(query, filters, world.volumes[n]);
      }
      assert found == set n | n in world.volumes && FiltersAccept(query, world.volumes[n]);
      assert NoEquals(query) ==> found == world.MatchingVolumes(query);
      names := Some(env.arrange(found));
    }

    /** The containers the filters accept, each rebuilt from its inspection. */
    method GetContainersByLabels(query: LabelMap) returns (list: Option<seq<Handle>>)
      requires env.Valid()
      ensures list.None? <==> env.listFails(query)
      ensures list.Some? ==>
        && IsListing(Ids(list.value),
             set id | id in world.containers && FiltersAccept(query, world.containers[id].labels))
        && forall i :: 0 <= i < |list.value| ==>
          list.value[i].id in world.containers && list.value[i].opts == OptsOf(world.containers[list.value[i].id])
      ensures list.Some? && NoEquals(query) ==> list.value == Listed(env, world, query)
    {
      var filters := BuildLabelFilters(query);
      if env.listFails(query) {
        return None;
      }
      var found := set id | id in world.containers && AcceptsAll(filters, world.containers[id].labels);
      forall id | id in world.containers
        ensures AcceptsAll(filters, world.containers[id].labels) == FiltersAccept(query, world.containers[id].labels)
        ensures NoEquals(query) ==>
          (AcceptsAll(filters, world.containers[id].labels) <==> Matches(query, world.containers[id].labels))
      {
        FiltersAre(query, filters, world.containers[id].labels);
      }
      assert found == set id | id in world.containers && FiltersAccept(query, world.containers[id].labels);
      assert NoEquals(query) ==> found == world.Matching(query);
      var ids := env.arrange(found);
      var handles := BuildContainers(ids);
      assert Ids(handles) == ids;
      list := Some(handles);
    }

    method BuildContainers(ids: seq<ContainerId>) returns (handles: seq<Handle>)
      requires forall id :: id in ids ==> id in world.containers
      ensures handles == HandlesOf(world, ids)
    {
      handles := [];
      for i := 0 to |ids|
        invariant handles == HandlesOf(world, ids)[..i]
      {
        var opts := BuildContainerFromInspection(world.containers[ids[i]]);
        handles := handles + [Handle(ids[i], opts)];
      }
      assert HandlesOf(world, ids)[..|ids|] == HandlesOf(world, ids);
    }

    /** `id` is the fresh identifier the runtime gives out, `vars` the environment it sets:
      * its image's, then the requested one. Requested binds are not passed on.
      */
    method CreateContainer(name: string, id: ContainerId, opts: RunOpts, vars: seq<string>) returns (ok: bool)
      requires id !in world.used && Injected(opts.environ, vars)
      modifies this`world
      ensures ok == !env.createFails
      ensures !ok ==> world == old(world)
      ensures ok ==>
        && id in world.containers && world == old(world).With(id, world.containers[id])
        && Built(world.containers[id], name, opts) && world.containers[id].env == vars
    {
      if env.createFails {
        return false;
      }
      var mounts := BuildPodmanVolumes(opts.volumes);
      world := world.With(id,
        Container(name, opts.labels, opts.image, opts.command, vars, opts.preserveStdin, mounts, "created", 0));
      ok := true;
    }
  }

  ghost predicate NoEquals(query: LabelMap) {
    forall k :: k in query ==> '=' !in k
  }

  /** Each filter of the query accepts the labels. */
  predicate FiltersAccept(query: LabelMap, labels: LabelMap) {
    forall k :: k in query ==> FilterAccepts(Filter(k, query[k]), labels)
  }

  lemma FiltersAre(query: LabelMap, filters: seq<string>, labels: LabelMap)
    requires IsFilterList(query, filters)
    ensures AcceptsAll(filters, labels) == FiltersAccept(query, labels)
    ensures NoEquals(query) ==> (AcceptsAll(filters, labels) <==> Matches(query, labels))
  {
    if NoEquals(query) {
      FiltersSelectMatches(query, filters, labels);
    }
    if AcceptsAll(filters, labels) {
      forall k | k in query ensures FilterAccepts(Filter(k, query[k]), labels) {
        assert Filter(k, query[k]) in filters;
      }
    }
  }

  /** What the runtime makes of run options. */
  ghost predicate Built(c: Container, name: string, opts: RunOpts) {
    && c.name == name && c.labels == opts.labels && c.image == opts.image && c.command == opts.command
    && c.stdin == opts.preserveStdin
    && Mounted(opts.volumes, c.mounts) && Injected(opts.environ, c.env)
    && c.status == "created"
  }

  /** Reading a created container back gives the options it was made from, but for the
    * binds, for what the image adds to the environment, and for variables with a '=' in
    * name or value.
    */
  lemma OptionsReadBack(c: Container, name: string, opts: RunOpts)
    requires Built(c, name, opts)
    ensures OptsOf(c) == opts.(binds := map[], environ := OptsOf(c).environ)
    ensures forall v :: v in opts.environ ==>
      ((v in OptsOf(c).environ && OptsOf(c).environ[v] == opts.environ[v]) <==>
        ('=' !in v && '=' !in opts.environ[v]))
  {
    MountsReadBack(opts.volumes, c.mounts);
    forall v | v in opts.environ
      ensures (v in OptsOf(c).environ && OptsOf(c).environ[v] == opts.environ[v]) <==>
        ('=' !in v && '=' !in opts.environ[v])
    {
      EnvironReadBack(opts.environ, c.env, v);
    }
  }

  lemma CreatedIsStartable()
    ensures IsStartable("created")
  {
    assert Lower("created") == "created";
  }
}

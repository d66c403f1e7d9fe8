/** What recovery leaves behind. */
module RecoveryTheorems {
  import opened Wrappers
  import opened Labels
  import opened Containers
  import opened CommandResults
  import opened Recovery

  // --- one store

  function AdoptedSet(a: Option<Adopted>): set<ContainerId> {
    if a.Some? then {a.value.container} else {}
  }

  /** The scan's failures: what makes recovery of a store give up. */
  ghost predicate GivesUp(env: Env, world: World, listed: seq<Handle>, volume: string, k: nat) {
    RejectedBefore(env, world, listed, volume, k) || DestroyRefused(env, listed, k)
  }

  /** Recovering a store, for every listing and every pattern of failures: only the
    * first usable container can be adopted; every other one gets exactly one
    * destroy attempt; recovery fails exactly when an earlier container was rejected
    * or a destroy failed, and then the first usable one gets its attempt too.
    */
  lemma StoreRecovery(cfg: Config, env: Env, world: World, support: bool, volume: string) returns (k: nat)
    requires env.Valid() && !env.listFails(QueryLabels(cfg, support))
    ensures var listed := Listed(env, world, QueryLabels(cfg, support));
      var out := RecoverStore(cfg, env, world, support, volume);
      var up := GivesUp(env, world, listed, volume, k);
      && FirstUsable(env, world, listed, volume, k)
      && (out.failed <==> up)
      && out.adopted
         == (if k < |listed| && !up then Some(CheckContainer(env, world.containers, listed[k], volume).cmd) else None)
      && out.attempts == Without(listed, k) + (if k < |listed| && up then [listed[k].id] else [])
      && out.world == world.(containers := world.containers - Destroyed(env, listed, k)
            - (if k < |listed| && up && !env.destroyFails(listed[k].id) then {listed[k].id} else {}))
  {
    var listed := Listed(env, world, QueryLabels(cfg, support));
    assert FreshList(world, listed);
    hide Listed, FirstUsable, Without, Destroyed, CheckContainer, Concluded, FreshList, Partitioned, ScanAll,
      QueryLabels, GivesUp;
    k := ScanPartitions(env, world, listed, volume);
    ConcludesPartition(env, world, listed, volume, k, ScanAll(env, world, listed, volume));
  }

  /** After the scan: a failure costs the kept container its one attempt too. */
  lemma ConcludesPartition(env: Env, world: World, listed: seq<Handle>, volume: string, k: nat, sc: Scan)
    requires FreshList(world, listed) && Partitioned(env, world, listed, volume, k, sc)
    ensures var out := Concluded(env, sc);
      var up := GivesUp(env, world, listed, volume, k);
      && FirstUsable(env, world, listed, volume, k)
      && (out.failed <==> up)
      && out.adopted
         == (if k < |listed| && !up then Some(CheckContainer(env, world.containers, listed[k], volume).cmd) else None)
      && out.attempts == Without(listed, k) + (if k < |listed| && up then [listed[k].id] else [])
      && out.world == world.(containers := world.containers - Destroyed(env, listed, k)
            - (if k < |listed| && up && !env.destroyFails(listed[k].id) then {listed[k].id} else {}))
  {
    KeptIsThere(env, world, listed, k);
    if k < |listed| {
      AdoptedContainer(env, world, listed[k], volume);
    }
    hide RejectedBefore, DestroyRefused, Destroyed, Without, CheckContainer, FreshList;
    assert world.containers - Destroyed(env, listed, k) - {} == world.containers - Destroyed(env, listed, k);
    assert sc.attempts + [] == sc.attempts;
  }

  lemma KeptIsThere(env: Env, world: World, listed: seq<Handle>, k: nat)
    requires FreshList(world, listed)
    ensures k < |listed| ==> listed[k].id in world.containers && listed[k].id !in Destroyed(env, listed, k)
  { }

  /** When no destroy call fails, all listed containers but the kept one are gone. */
  lemma DestroyedAll(env: Env, listed: seq<Handle>, k: nat)
    requires !DestroyRefused(env, listed, k)
    ensures forall i :: 0 <= i < |listed| && i != k ==> listed[i].id in Destroyed(env, listed, k)
    ensures forall id :: id in Destroyed(env, listed, k) ==>
      exists i :: 0 <= i < |listed| && i != k && listed[i].id == id
  {
    forall i | 0 <= i < |listed| && i != k ensures listed[i].id in Destroyed(env, listed, k) { }
  }

  /** Whatever fails: only containers of the role disappear, and the adopted one is still there. */
  ghost predicate StoreKept(query: LabelMap, before: World, out: Scan) {
    && out.world.volumes == before.volumes && out.world.used == before.used
    && (out.adopted.Some? ==> out.adopted.value.container in out.world.Matching(query))
    && (forall id :: id in out.world.containers ==>
         id in before.containers && out.world.containers[id] == before.containers[id])
    && (forall id :: id in before.containers && id !in before.Matching(query) ==> id in out.world.containers)
  }

  /** What is left of a role's containers after its store was recovered. */
  ghost predicate StoreLeft(query: LabelMap, before: World, out: Scan) {
    && StoreKept(query, before, out)
    && out.world.Matching(query) == (if out.adopted.Some? then {out.adopted.value.container} else {})
    && (out.failed ==> out.adopted.None?)
  }

  /** When no destroy call fails, the destroyed containers are the matching ones but the kept one. */
  lemma DestroyedIs(env: Env, world: World, query: LabelMap, k: nat)
    requires env.Valid() && !DestroyRefused(env, Listed(env, world, query), k)
    ensures var listed := Listed(env, world, query);
      Destroyed(env, listed, k) == world.Matching(query) - if k < |listed| then {listed[k].id} else {}
  {
    var listed := Listed(env, world, query);
    DestroyedAll(env, listed, k);
    forall id | id in world.Matching(query) && (k < |listed| ==> id != listed[k].id)
      ensures id in Destroyed(env, listed, k)
    {
      var i :| 0 <= i < |listed| && listed[i].id == id;
    }
  }

  lemma DestroyedMatch(env: Env, world: World, query: LabelMap, k: nat)
    requires env.Valid()
    ensures var listed := Listed(env, world, query);
      && Destroyed(env, listed, k) <= world.Matching(query)
      && (k < |listed| ==> listed[k].id in world.Matching(query) && listed[k].id !in Destroyed(env, listed, k))
  { }

  lemma AdoptedContainer(env: Env, world: World, h: Handle, volume: string)
    ensures var check := CheckContainer(env, world.containers, h, volume); check.Usable? ==> check.cmd.container == h.id
  { }

  /** The containers a recovered store gave up: all matching ones but the adopted one if no destroy call failed. */
  lemma StoreRemoves(cfg: Config, env: Env, world: World, support: bool,
      volume: string) returns (gone: set<ContainerId>)
    requires env.Valid()
    ensures var query := QueryLabels(cfg, support);
      var out := RecoverStore(cfg, env, world, support, volume);
      && gone <= world.Matching(query)
      && out.world == world.(containers := world.containers - gone)
      && (out.adopted.Some? ==> out.adopted.value.container in world.Matching(query) - gone)
      && (out.failed ==> out.adopted.None?)
      && (!out.failed || env.Working() ==> gone == world.Matching(query) - AdoptedSet(out.adopted))
  {
    var query := QueryLabels(cfg, support);
    if env.listFails(query) {
      gone := {};
      assert world.containers - {} == world.containers;
    } else {
      var listed := Listed(env, world, query);
      var k := StoreRecovery(cfg, env, world, support, volume);
      DestroyedMatch(env, world, query, k);
      if k < |listed| {
        AdoptedContainer(env, world, listed[k], volume);
      }
      if !DestroyRefused(env, listed, k) {
        DestroyedIs(env, world, query, k);
      }
      WorkingRefusesNothing(env, listed, k);
      hide QueryLabels, Destroyed, Listed, RecoverStore, FirstUsable, CheckContainer, Without, RejectedBefore,
        DestroyRefused, World.Matching;
      var out := RecoverStore(cfg, env, world, support, volume);
      var last := if k < |listed| && out.failed && !env.destroyFails(listed[k].id) then {listed[k].id} else {};
      gone := Destroyed(env, listed, k) + last;
      assert world.containers - Destroyed(env, listed, k) - last == world.containers - gone;
    }
  }

  lemma WorkingRefusesNothing(env: Env, listed: seq<Handle>, k: nat)
    ensures env.Working() ==> !DestroyRefused(env, listed, k)
  { }

  /** Whatever fails, recovering a store touches no other role's container. */
  lemma StoreKeeps(cfg: Config, env: Env, world: World, support: bool, volume: string)
    requires env.Valid()
    ensures StoreKept(QueryLabels(cfg, support), world, RecoverStore(cfg, env, world, support, volume))
  {
    var gone := StoreRemoves(cfg, env, world, support, volume);
    hide RecoverStore, QueryLabels, Matches;
  }

  /** A store recovered without failure, or while deletion works, leaves its adopted container only. */
  lemma StoreLeaves(cfg: Config, env: Env, world: World, support: bool, volume: string)
    requires env.Valid()
    requires env.Working() || !RecoverStore(cfg, env, world, support, volume).failed
    ensures StoreLeft(QueryLabels(cfg, support), world, RecoverStore(cfg, env, world, support, volume))
  {
    StoreKeeps(cfg, env, world, support, volume);
    var gone := StoreRemoves(cfg, env, world, support, volume);
    hide RecoverStore, QueryLabels, Matches, StoreKept;
  }

  // --- the volume

  lemma {:induction false} PickedFirst(listed: seq<string>)
    requires "" !in listed
    ensures PickVolume(listed) == if listed == [] then ("", false) else (listed[0], |listed| >= 2)
    decreases |listed|
  {
    if listed != [] {
      PickedFirst(listed[..|listed| - 1]);
    }
  }

  ghost function Deletable(env: Env, listed: seq<string>): set<string> {
    set n | n in listed && !env.deleteFails(n)
  }

  lemma {:induction false} DeletedAll(env: Env, world: World, listed: seq<string>)
    ensures DeleteAll(env, world, listed) == world.(volumes := world.volumes - Deletable(env, listed))
    decreases |listed|
  {
    if listed == [] {
      assert world.volumes - {} == world.volumes;
    } else {
      var front, last := listed[..|listed| - 1], listed[|listed| - 1];
      DeletedAll(env, world, front);
      assert Deletable(env, listed) == Deletable(env, front) + if env.deleteFails(last) then {} else {last};
      assert world.volumes - Deletable(env, front) - {last} == world.volumes - (Deletable(env, front) + {last});
    }
  }

  /** The run's volumes. */
  function RunVolumes(cfg: Config, world: World): set<string> {
    world.MatchingVolumes(CommonLabels(cfg))
  }

  /** Recovering the volume when the listing works: none or one is taken; of several each one is
    * deleted, whichever other deletions fail.
    */
  lemma VolumeRecovery(cfg: Config, env: Env, world: World)
    requires env.Valid() && !env.listVolumesFails && "" !in world.volumes
    ensures var v := RecoverVolume(cfg, env, world);
      && (v.failed <==> |RunVolumes(cfg, world)| >= 2)
      && (v.failed ==> v.volume == "")
      && (!v.failed ==> v.world == world && RunVolumes(cfg, world) == if v.volume == "" then {} else {v.volume})
      && v.world == world.(volumes := v.world.volumes)
      && (v.failed ==> forall n :: n in v.world.volumes <==>
            n in world.volumes && !(n in RunVolumes(cfg, world) && !env.deleteFails(n)))
      && (env.Working() ==> v.failed ==> RunVolumes(cfg, v.world) == {})
  {
    var names := RunVolumes(cfg, world);
    var listed := env.arrange(names);
    ListingSize(listed, names);
    PickedFirst(listed);
    DeletedAll(env, world, listed);
    if |listed| >= 1 {
      assert listed[0] in names;
      if |listed| == 1 {
        assert names == {listed[0]};
      }
    }
  }

  lemma {:induction false} ListingSize(listed: seq<string>, names: set<string>)
    requires IsListing(listed, names)
    ensures |listed| == |names|
    decreases |listed|
  {
    if listed == [] {
      assert names == {};
    } else {
      var front, last := listed[..|listed| - 1], listed[|listed| - 1];
      assert last in listed;
      forall n ensures n in front <==> n in names - {last} {
        if n in names - {last} {
          assert n in listed;
        }
      }
      ListingSize(front, names - {last});
    }
  }

  // --- the executor

  /** The run's containers of one role. */
  function RoleContainers(cfg: Config, world: World, support: bool): set<ContainerId> {
    world.Matching(QueryLabels(cfg, support))
  }

  lemma RolesApart(cfg: Config, world: World)
    ensures RoleContainers(cfg, world, false) !! RoleContainers(cfg, world, true)
  {
    DistinctKeys();
    assert CONTAINER_TYPE in QueryLabels(cfg, false) && CONTAINER_TYPE in QueryLabels(cfg, true);
    assert |PAYLOAD| == 7 && |SUPPORT| == 7;
  }

  /** Destroying a store's adopted command removes its container and nothing else. */
  lemma ClearsPlaced(env: Env, world: World, adopted: Option<Adopted>)
    requires env.Working()
    ensures var (w, failed) := ClearStore(env, world, Place(adopted));
      && !failed
      && w == world.(containers := world.containers - if adopted.Some? then {adopted.value.container} else {})
  {
    assert world.containers - {} == world.containers;
    if adopted.Some? {
      assert adopted.value.container !in world.containers ==>
        world.containers - {adopted.value.container} == world.containers;
    }
  }

  /** The adopted command is what the container's labels, mounts and state say. */
  ghost predicate Describes(a: Adopted, containers: map<ContainerId, Container>, support: bool, volume: string) {
    && a.container in containers
    && a.support == support
    && CommandIdOf(containers[a.container].labels) == Some(a.id)
    && volume in VolumesOf(containers[a.container].mounts)
    && a.result == Inspected(PENDING, containers[a.container].status, containers[a.container].exitCode)
  }

  lemma MatchedRole(cfg: Config, labels: LabelMap, support: bool)
    requires Matches(QueryLabels(cfg, support), labels)
    ensures RoleOf(labels) == Some(support)
  {
    DistinctKeys();
    assert CONTAINER_TYPE in QueryLabels(cfg, support) && |PAYLOAD| == 7 && |SUPPORT| == 7;
  }

  lemma StoreAdopts(cfg: Config, env: Env, world: World, support: bool, volume: string)
    requires env.Valid()
    ensures var out := RecoverStore(cfg, env, world, support, volume);
      out.adopted.Some? ==> Describes(out.adopted.value, world.containers, support, volume)
  {
    if !env.listFails(QueryLabels(cfg, support)) {
      var listed := Listed(env, world, QueryLabels(cfg, support));
      var k := StoreRecovery(cfg, env, world, support, volume);
      if k < |listed| {
        assert listed[k].id in world.Matching(QueryLabels(cfg, support));
        MatchedRole(cfg, world.containers[listed[k].id].labels, support);
      }
      hide GivesUp, QueryLabels, Destroyed, RoleOf, CommandIdOf, VolumesOf, RejectedBefore, DestroyRefused, Without,
        Matches;
    }
  }

  // --- the two stores one after the other

  function StoreOf(o: Executor, support: bool): Contents {
    if support then o.support else o.payload
  }

  function AdoptedIn(store: Contents): Option<Adopted> {
    if store.current.Some? then store.current else store.previous
  }

  /** Resources of others stay as they were. */
  ghost predicate OthersKept(cfg: Config, before: World, after: World) {
    && after.used == before.used
    && (forall id :: id in after.containers ==>
         id in before.containers && after.containers[id] == before.containers[id])
    && (forall id ::
         id in before.containers
         && id !in RoleContainers(cfg, before, false) && id !in RoleContainers(cfg, before, true) ==>
          id in after.containers)
    && (forall n :: n in after.volumes ==> n in before.volumes && after.volumes[n] == before.volumes[n])
    && (forall n :: n in before.volumes && n !in RunVolumes(cfg, before) ==> n in after.volumes)
  }

  /** After both stores were recovered from `before`: only adopted containers of the run are left. */
  ghost predicate BothLeft(cfg: Config, before: World, after: World, support: Option<Adopted>,
      payload: Option<Adopted>) {
    && RoleContainers(cfg, after, true) == AdoptedSet(support)
    && RoleContainers(cfg, after, false) == AdoptedSet(payload)
    && after.volumes == before.volumes && after.used == before.used
    && (forall id :: id in after.containers ==>
         id in before.containers && after.containers[id] == before.containers[id])
    && (forall id ::
         id in before.containers
         && id !in RoleContainers(cfg, before, false) && id !in RoleContainers(cfg, before, true) ==>
          id in after.containers)
  }

  lemma SecondStoreKeepsFirst(cfg: Config, before: World, s: Scan, p: Scan)
    requires StoreLeft(QueryLabels(cfg, true), before, s) && StoreLeft(QueryLabels(cfg, false), s.world, p)
    ensures BothLeft(cfg, before, p.world, s.adopted, p.adopted)
  {
    RolesApart(cfg, s.world);
    RolesApart(cfg, before);
    hide QueryLabels, Matches;
    assert forall id :: id in RoleContainers(cfg, s.world, true) ==> id in p.world.containers;
  }

  lemma StoresLeave(cfg: Config, env: Env, before: World, volume: string)
    requires env.Valid()
    requires env.Working() || !RecoverStore(cfg, env, before, true, volume).failed
    requires env.Working() ||
      !RecoverStore(cfg, env, RecoverStore(cfg, env, before, true, volume).world, false, volume).failed
    ensures var s := RecoverStore(cfg, env, before, true, volume);
      var p := RecoverStore(cfg, env, s.world, false, volume);
      && BothLeft(cfg, before, p.world, s.adopted, p.adopted)
      && (s.failed ==> s.adopted.None?) && (p.failed ==> p.adopted.None?)
      && (s.adopted.Some? ==> Describes(s.adopted.value, p.world.containers, true, volume))
      && (p.adopted.Some? ==> Describes(p.adopted.value, p.world.containers, false, volume))
  {
    var s := RecoverStore(cfg, env, before, true, volume);
    StoreLeaves(cfg, env, before, true, volume);
    StoreLeaves(cfg, env, s.world, false, volume);
    StoreAdopts(cfg, env, before, true, volume);
    StoreAdopts(cfg, env, s.world, false, volume);
    var p := RecoverStore(cfg, env, s.world, false, volume);
    SecondStoreKeepsFirst(cfg, before, s, p);
    hide RecoverStore, QueryLabels, CommandIdOf, VolumesOf, Inspected, Matches;
    if s.adopted.Some? {
      assert s.adopted.value.container in RoleContainers(cfg, p.world, true);
    }
    if p.adopted.Some? {
      assert p.adopted.value.container in RoleContainers(cfg, p.world, false);
    }
  }

  // --- all or nothing

  /** The store holds exactly the role's one remaining container, if any, taken over
    * in the right slot with what its labels, mounts and state say.
    */
  ghost predicate RoleTaken(cfg: Config, o: Executor, support: bool) {
    var store := StoreOf(o, support);
    && (store.current.None? || store.previous.None?)
    && RoleContainers(cfg, o.world, support) == AdoptedSet(AdoptedIn(store))
    && (AdoptedIn(store).Some? ==> Describes(AdoptedIn(store).value, o.world.containers, support, o.volumeName))
    && (store.current.Some? ==> store.current.value.result == PENDING)
    && (store.previous.Some? ==> store.previous.value.result.finished)
  }

  /** Success: one volume at most, and per role at most one container, all taken
    * over. Failure: no resource of the run is left and the executor holds none.
    */
  ghost predicate AllOrNothing(cfg: Config, before: World, o: Executor) {
    if o.failed then
      && o.payload == Contents(None, None) && o.support == Contents(None, None) && o.volumeName == "" && !o.recovered
      && RoleContainers(cfg, o.world, false) == {} && RoleContainers(cfg, o.world, true) == {}
      && RunVolumes(cfg, o.world) == {}
    else
      && RunVolumes(cfg, o.world) == RunVolumes(cfg, before) == (if o.volumeName == "" then {} else {o.volumeName})
      && (o.recovered <==> RunVolumes(cfg, before) != {})
      && RoleTaken(cfg, o, false) && RoleTaken(cfg, o, true)
  }

  lemma Placed(adopted: Option<Adopted>, containers: map<ContainerId, Container>, support: bool, volume: string)
    requires adopted.Some? ==> Describes(adopted.value, containers, support, volume)
    ensures AdoptedIn(Place(adopted)) == adopted
    ensures Place(adopted).current.None? || Place(adopted).previous.None?
    ensures Place(adopted).current.Some? ==> Place(adopted).current.value.result == PENDING
    ensures Place(adopted).previous.Some? ==> Place(adopted).previous.value.result.finished
  { }

  /** The world after a failed recovery. */
  lemma CleanedUp(cfg: Config, env: Env, before: World, mid: World, s: Option<Adopted>, p: Option<Adopted>,
      volume: string)
    requires env.Working() && BothLeft(cfg, before, mid, s, p)
    ensures var w1 := ClearStore(env, mid, Place(p)).0;
      var w2 := ClearStore(env, w1, Place(s)).0;
      var w := if volume != "" && !env.deleteFails(volume) then w2.WithoutVolume(volume) else w2;
      && RoleContainers(cfg, w, false) == {} && RoleContainers(cfg, w, true) == {}
      && w.volumes == (if volume != "" then before.volumes - {volume} else before.volumes)
  {
    ClearsPlaced(env, mid, p);
    ClearsPlaced(env, ClearStore(env, mid, Place(p)).0, s);
    hide ClearStore, QueryLabels, Matches;
  }

  lemma RunVolumesOf(cfg: Config, a: World, b: World, gone: set<string>)
    requires b.volumes == a.volumes - gone
    ensures RunVolumes(cfg, b) == RunVolumes(cfg, a) - gone
  { }

  /** The three recoveries of an initialisation, by name. */
  function Volumes(cfg: Config, env: Env, before: World): VolumeScan
    requires env.Valid()
  {
    RecoverVolume(cfg, env, before)
  }

  function Supports(cfg: Config, env: Env, before: World): Scan
    requires env.Valid()
  {
    RecoverStore(cfg, env, Volumes(cfg, env, before).world, true, Volumes(cfg, env, before).volume)
  }

  function Payloads(cfg: Config, env: Env, before: World): Scan
    requires env.Valid()
  {
    RecoverStore(cfg, env, Supports(cfg, env, before).world, false, Volumes(cfg, env, before).volume)
  }

  lemma InitUnfolds(cfg: Config, env: Env, before: World)
    requires env.Valid()
    ensures var v, s, p, o := Volumes(cfg, env, before), Supports(cfg, env, before), Payloads(cfg, env, before),
      Init(cfg, env, before);
      && (o.failed <==> v.failed || s.failed || p.failed)
      && (!o.failed ==> o == Executor(p.world, Place(p.adopted), Place(s.adopted), v.volume, v.volume != "", false))
      && (o.failed ==>
            var w2 := ClearStore(env, ClearStore(env, p.world, Place(p.adopted)).0, Place(s.adopted)).0;
            o == Executor(if v.volume != "" && !env.deleteFails(v.volume) then w2.WithoutVolume(v.volume) else w2,
              Place(None), Place(None), "", false, true))
  {
    hide RecoverVolume, RecoverStore, ClearStore, Place;
  }

  /** The success half, for every pattern of failures: a recovery that did not fail took
    * over the one volume and per role the one container left.
    */
  lemma InitSucceeds(cfg: Config, env: Env, before: World)
    requires env.Valid() && "" !in before.volumes && !Init(cfg, env, before).failed
    requires !env.listVolumesFails || RunVolumes(cfg, before) == {}
    ensures AllOrNothing(cfg, before, Init(cfg, env, before))
  {
    hide RecoverStore, Init, Describes, CommonLabels, QueryLabels, Place, Inspected, Listed, ClearStore, RecoverVolume,
      Env.Valid, Env.Working, RoleContainers, RunVolumes, World.Matching, World.MatchingVolumes;
    InitUnfolds(cfg, env, before);
    var v, s, p := Volumes(cfg, env, before), Supports(cfg, env, before), Payloads(cfg, env, before);
    VolumeTaken(cfg, env, before);
    StoresLeave(cfg, env, v.world, v.volume);
    Placed(p.adopted, p.world.containers, false, v.volume);
    Placed(s.adopted, p.world.containers, true, v.volume);
    assert before.volumes - {} == before.volumes;
    RunVolumesOf(cfg, before, p.world, {});
  }

  lemma VolumeTaken(cfg: Config, env: Env, before: World)
    requires env.Valid() && "" !in before.volumes && !RecoverVolume(cfg, env, before).failed
    requires !env.listVolumesFails || RunVolumes(cfg, before) == {}
    ensures var v := RecoverVolume(cfg, env, before);
      v.world == before && RunVolumes(cfg, before) == if v.volume == "" then {} else {v.volume}
  {
    if !env.listVolumesFails {
      VolumeRecovery(cfg, env, before);
    }
  }

  /** The failure half, when listing and deletion work: nothing of the run is left. */
  lemma InitFails(cfg: Config, env: Env, before: World)
    requires env.Valid() && env.Working() && "" !in before.volumes && Init(cfg, env, before).failed
    requires !env.listVolumesFails || RunVolumes(cfg, before) == {}
    ensures AllOrNothing(cfg, before, Init(cfg, env, before))
  {
    var v := RecoverVolume(cfg, env, before);
    if !env.listVolumesFails {
      VolumeRecovery(cfg, env, before);
    }
    StoresLeave(cfg, env, v.world, v.volume);
    var s := RecoverStore(cfg, env, v.world, true, v.volume);
    var p := RecoverStore(cfg, env, s.world, false, v.volume);
    CleanedUp(cfg, env, v.world, p.world, s.adopted, p.adopted, v.volume);
    var o := Init(cfg, env, before);
    assert v.world.volumes - {} == v.world.volumes;
    RunVolumesOf(cfg, v.world, o.world, if v.volume != "" then {v.volume} else {});
    hide RecoverStore, Describes, CommonLabels, QueryLabels, Place, Matches, ClearStore;
  }

  lemma ClearKeepsVolumes(env: Env, world: World, store: Contents)
    ensures ClearStore(env, world, store).0.volumes == world.volumes
  { }

  /** Recovering a store leaves the volumes alone, whatever fails. */
  lemma StoreKeepsVolumes(cfg: Config, env: Env, world: World, support: bool, volume: string)
    requires env.Valid()
    ensures RecoverStore(cfg, env, world, support, volume).world.volumes == world.volumes
  {
    StoreKeeps(cfg, env, world, support, volume);
    hide RecoverStore, World.Matching;
  }

  /** A swallowed listing failure breaks it, whatever else works or fails: the run's
    * volumes stay, unknown to the executor.
    */
  lemma UnlistedVolumesStay(cfg: Config, env: Env, before: World)
    requires env.Valid() && env.listVolumesFails && RunVolumes(cfg, before) != {}
    ensures !AllOrNothing(cfg, before, Init(cfg, env, before))
    ensures RunVolumes(cfg, Init(cfg, env, before).world) == RunVolumes(cfg, before)
    ensures Init(cfg, env, before).volumeName == ""
  {
    InitUnfolds(cfg, env, before);
    var s, p := Supports(cfg, env, before), Payloads(cfg, env, before);
    assert Volumes(cfg, env, before) == VolumeScan(before, "", false);
    hide Init, RecoverStore, RecoverVolume, CommonLabels, QueryLabels, Matches, ClearStore, RoleTaken, Place, Volumes;
    StoreKeepsVolumes(cfg, env, before, true, "");
    StoreKeepsVolumes(cfg, env, s.world, false, "");
    ClearKeepsVolumes(env, p.world, Place(p.adopted));
    ClearKeepsVolumes(env, ClearStore(env, p.world, Place(p.adopted)).0, Place(s.adopted));
    assert before.volumes - {} == before.volumes;
    RunVolumesOf(cfg, before, Init(cfg, env, before).world, {});
  }

  /** Recovery is all or nothing exactly when the volume listing works or there was no
    * volume to list: whatever else fails if it succeeded, and with container listing
    * and deletion working if it did not.
    */
  lemma InitAllOrNothing(cfg: Config, env: Env, before: World)
    requires env.Valid() && "" !in before.volumes
    requires env.Working() || !Init(cfg, env, before).failed
    ensures AllOrNothing(cfg, before, Init(cfg, env, before))
       <==> (!env.listVolumesFails || RunVolumes(cfg, before) == {})
  {
    hide Init, AllOrNothing, RunVolumes;
    if !env.listVolumesFails || RunVolumes(cfg, before) == {} {
      if Init(cfg, env, before).failed {
        InitFails(cfg, env, before);
      } else {
        InitSucceeds(cfg, env, before);
      }
    } else {
      UnlistedVolumesStay(cfg, env, before);
    }
  }

  lemma OthersKeptTransitive(cfg: Config, a: World, b: World, c: World)
    requires OthersKept(cfg, a, b) && OthersKept(cfg, b, c)
    ensures OthersKept(cfg, a, c)
  {
    hide QueryLabels, CommonLabels, Matches;
  }

  lemma StoreKeepsOthers(cfg: Config, env: Env, world: World, support: bool, volume: string)
    requires env.Valid()
    ensures OthersKept(cfg, world, RecoverStore(cfg, env, world, support, volume).world)
  {
    StoreKeeps(cfg, env, world, support, volume);
    hide RecoverStore, QueryLabels, CommonLabels, Matches;
  }

  /** What recovery adopts is the run's. */
  lemma AdoptsOurs(cfg: Config, env: Env, world: World, support: bool, volume: string)
    requires env.Valid()
    ensures AdoptedSet(RecoverStore(cfg, env, world, support, volume).adopted) <= RoleContainers(cfg, world, support)
  {
    StoreKeeps(cfg, env, world, support, volume);
    hide RecoverStore, QueryLabels, Matches;
  }

  /** Clearing a store removes an adopted container at most. */
  lemma ClearRemoves(env: Env, world: World, adopted: Option<Adopted>)
    ensures var w := ClearStore(env, world, Place(adopted)).0;
      w == world || w == world.(containers := world.containers - AdoptedSet(adopted))
  { }

  lemma ClearKeepsOthers(cfg: Config, env: Env, before: World, world: World, adopted: Option<Adopted>)
    requires OthersKept(cfg, before, world)
    requires AdoptedSet(adopted) <= RoleContainers(cfg, before, false) + RoleContainers(cfg, before, true)
    ensures OthersKept(cfg, before, ClearStore(env, world, Place(adopted)).0)
  {
    ClearRemoves(env, world, adopted);
    hide ClearStore, Place, RoleContainers, RunVolumes;
  }

  /** A role's containers in what is left were the role's before. */
  lemma RolesShrink(cfg: Config, before: World, after: World, support: bool)
    requires OthersKept(cfg, before, after)
    ensures RoleContainers(cfg, after, support) <= RoleContainers(cfg, before, support)
  {
    hide QueryLabels, Matches;
  }

  lemma VolumeKeepsOthers(cfg: Config, before: World, after: World, gone: set<string>)
    requires gone <= RunVolumes(cfg, before) && after == before.(volumes := before.volumes - gone)
    ensures OthersKept(cfg, before, after)
  {
    hide QueryLabels, CommonLabels, Matches;
  }

  lemma DeletingKeepsOthers(cfg: Config, before: World, world: World, volume: string)
    requires OthersKept(cfg, before, world) && volume in RunVolumes(cfg, before)
    ensures OthersKept(cfg, before, world.WithoutVolume(volume))
  {
    hide RoleContainers;
  }

  /** The stores' part of recovery, and the clean-up after it, only remove what is the run's. */
  lemma StoresKeepOthers(cfg: Config, env: Env, before: World)
    requires env.Valid() && "" !in before.volumes
    ensures var s, p := Supports(cfg, env, before), Payloads(cfg, env, before);
      && OthersKept(cfg, before, p.world)
      && OthersKept(cfg, before, ClearStore(env, ClearStore(env, p.world, Place(p.adopted)).0, Place(s.adopted)).0)
  {
    var v, s, p := Volumes(cfg, env, before), Supports(cfg, env, before), Payloads(cfg, env, before);
    VolumeStays(cfg, env, before);
    hide RecoverStore, RecoverVolume, ClearStore, Place, OthersKept, RoleContainers, RunVolumes, AdoptedSet;
    var gone :| gone <= RunVolumes(cfg, before) && v.world.volumes == before.volumes - gone;
    VolumeKeepsOthers(cfg, before, v.world, gone);
    StoreKeepsOthers(cfg, env, v.world, true, v.volume);
    OthersKeptTransitive(cfg, before, v.world, s.world);
    StoreKeepsOthers(cfg, env, s.world, false, v.volume);
    OthersKeptTransitive(cfg, before, s.world, p.world);
    AdoptsOurs(cfg, env, v.world, true, v.volume);
    AdoptsOurs(cfg, env, s.world, false, v.volume);
    RolesShrink(cfg, before, v.world, true);
    RolesShrink(cfg, before, s.world, false);
    ClearKeepsOthers(cfg, env, before, p.world, p.adopted);
    ClearKeepsOthers(cfg, env, before, ClearStore(env, p.world, Place(p.adopted)).0, s.adopted);
  }

  /** Whatever happens, whichever calls fail, recovery only ever removes resources of its own run. */
  lemma InitKeepsOthers(cfg: Config, env: Env, before: World)
    requires env.Valid() && "" !in before.volumes
    ensures OthersKept(cfg, before, Init(cfg, env, before).world)
  {
    InitUnfolds(cfg, env, before);
    StoresKeepOthers(cfg, env, before);
    VolumeStays(cfg, env, before);
    hide Init, RecoverStore, RecoverVolume, ClearStore, Place, OthersKept, RoleContainers, RunVolumes;
    var v, s, p := Volumes(cfg, env, before), Supports(cfg, env, before), Payloads(cfg, env, before);
    if v.volume != "" {
      DeletingKeepsOthers(cfg, before,
        ClearStore(env, ClearStore(env, p.world, Place(p.adopted)).0, Place(s.adopted)).0, v.volume);
    }
  }

  lemma VolumeStays(cfg: Config, env: Env, before: World)
    requires env.Valid() && "" !in before.volumes
    ensures var v := RecoverVolume(cfg, env, before);
      && v.world == before.(volumes := v.world.volumes)
      && (v.volume != "" ==> v.volume in RunVolumes(cfg, before))
      && exists gone :: gone <= RunVolumes(cfg, before) && v.world.volumes == before.volumes - gone
  {
    var names := RunVolumes(cfg, before);
    var listed := env.arrange(names);
    DeletedAll(env, before, listed);
    PickedFirst(listed);
    assert before.volumes - {} == before.volumes;
    assert Deletable(env, listed) <= names;
    if listed != [] {
      assert listed[0] in names;
    }
  }
}

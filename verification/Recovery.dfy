/** Crash recovery as functions of the runtime's contents: what a new executor
  * adopts, what it destroys, and what is left afterwards.
  */
module Recovery {
  import opened Wrappers
  import opened Uuids
  import opened Labels
  import opened Containers
  import opened CommandResults

  /** How the runtime answers while one operation of the executor runs: which
    * calls fail, and in what order a listing comes. No container or volume is
    * asked about, destroyed or deleted twice within one operation, so failures
    * may depend on the target alone.
    */
  datatype Env = Env(
    listVolumesFails: bool, listFails: LabelMap -> bool, inspectFails: string -> bool, existsFails: string -> bool,
    destroyFails: string -> bool, deleteFails: string -> bool, createFails: bool, arrange: set<string> -> seq<string>)
  {
    ghost predicate Valid() {
      forall names :: IsListing(arrange(names), names)
    }

    /** Listing, existence checks and deletion work; reading a container's state may still fail. */
    ghost predicate Working() {
      && (forall query :: !listFails(query))
      && (forall id :: !existsFails(id) && !destroyFails(id) && !deleteFails(id))
    }
  }

  ghost predicate IsListing(listed: seq<string>, names: set<string>) {
    && (forall n :: n in listed <==> n in names)
    && (forall i, j :: 0 <= i < j < |listed| ==> listed[i] != listed[j])
  }

  datatype Handle = Handle(id: ContainerId, opts: RunOpts)

  /** A command rebuilt from a container: it is finished if the container has ended. */
  datatype Adopted = Adopted(id: Uuid, support: bool, container: ContainerId, result: CommandResult)

  datatype Check = Rejected | Unreadable | Usable(cmd: Adopted)

  /** Is this container one whose command can be taken over? */
  function CheckContainer(env: Env, containers: map<ContainerId, Container>, h: Handle, volume: string): Check {
    if volume !in h.opts.volumes then Rejected
    else if CommandIdOf(h.opts.labels).None? || RoleOf(h.opts.labels).None? then Rejected
    else if h.id !in containers || env.inspectFails(h.id) then Unreadable
    else
      var k := containers[h.id];
      Usable(Adopted(CommandIdOf(h.opts.labels).value, RoleOf(h.opts.labels).value, h.id,
        Inspected(PENDING, k.status, k.exitCode)))
  }

  // --- one store

  /** `attempts` lists the destroy calls made, in order. */
  datatype Scan = Scan(world: World, attempts: seq<ContainerId>, adopted: Option<Adopted>, failed: bool)

  predicate DestroyWorks(env: Env, world: World, id: ContainerId) {
    id in world.containers && !env.destroyFails(id)
  }

  function AfterDestroy(env: Env, world: World, id: ContainerId): World {
    if DestroyWorks(env, world, id) then world.Without(id) else world
  }

  function Discard(env: Env, sc: Scan, id: ContainerId): Scan {
    Scan(AfterDestroy(env, sc.world, id), sc.attempts + [id], sc.adopted, sc.failed || !DestroyWorks(env, sc.world, id))
  }

  /** One listed container: the first usable one is kept, every other one is destroyed. */
  function ScanOne(env: Env, sc: Scan, h: Handle, volume: string): Scan {
    if sc.adopted.Some? then Discard(env, sc, h.id)
    else
      match CheckContainer(env, sc.world.containers, h, volume)
      case Usable(cmd) => sc.(adopted := Some(cmd))
      case Unreadable => Discard(env, sc, h.id)
      case Rejected => Discard(env, sc.(failed := true), h.id)
  }

  function ScanAll(env: Env, world: World, listed: seq<Handle>, volume: string): Scan {
    if listed == [] then Scan(world, [], None, false)
    else
      var n := |listed| - 1;
      ScanOne(env, ScanAll(env, world, listed[..n], volume), listed[n], volume)
  }

  /** After the scan: a failure also costs the container that was kept. */
  function Concluded(env: Env, sc: Scan): Scan {
    if sc.failed && sc.adopted.Some? then Discard(env, sc, sc.adopted.value.container).(adopted := None)
    else sc
  }

  function HandlesOf(world: World, ids: seq<ContainerId>): (handles: seq<Handle>)
    requires forall id :: id in ids ==> id in world.containers
    ensures |handles| == |ids|
    ensures forall i :: 0 <= i < |ids| ==> handles[i] == Handle(ids[i], OptsOf(world.containers[ids[i]]))
  {
    seq(|ids|, i requires 0 <= i < |ids| => Handle(ids[i], OptsOf(world.containers[ids[i]])))
  }

  /** The containers a query lists, in the runtime's order. */
  function Listed(env: Env, world: World, query: LabelMap): (handles: seq<Handle>)
    requires env.Valid()
    ensures forall i :: 0 <= i < |handles| ==>
      handles[i].id in world.containers && handles[i].opts == OptsOf(world.containers[handles[i].id])
    ensures forall i, j :: 0 <= i < j < |handles| ==> handles[i].id != handles[j].id
    ensures forall id :: id in world.Matching(query) <==> exists i :: 0 <= i < |handles| && handles[i].id == id
  {
    var ids := env.arrange(world.Matching(query));
    HandlesOf(world, ids)
  }

  function RecoverStore(cfg: Config, env: Env, world: World, support: bool, volume: string): Scan
    requires env.Valid()
  {
    if env.listFails(QueryLabels(cfg, support)) then Scan(world, [], None, true)
    else Concluded(env, ScanAll(env, world, Listed(env, world, QueryLabels(cfg, support)), volume))
  }

  // --- the volume

  datatype VolumeScan = VolumeScan(world: World, volume: string, failed: bool)

  /** The first named volume of the list, and whether others come after it. */
  function PickVolume(listed: seq<string>): (string, bool) {
    if listed == [] then ("", false)
    else
      var n := |listed| - 1;
      var (target, several) := PickVolume(listed[..n]);
      if target == "" then (listed[n], several) else (target, true)
  }

  predicate DeleteRefused(env: Env, name: string) {
    env.deleteFails(name)
  }

  function DeleteAll(env: Env, world: World, listed: seq<string>): World {
    if listed == [] then world
    else
      var n := |listed| - 1;
      var before := DeleteAll(env, world, listed[..n]);
      if DeleteRefused(env, listed[n]) then before else before.WithoutVolume(listed[n])
  }

  /** A failed listing counts as no volume; several volumes are all deleted. */
  function RecoverVolume(cfg: Config, env: Env, world: World): VolumeScan
    requires env.Valid()
  {
    if env.listVolumesFails then VolumeScan(world, "", false)
    else
      var listed := env.arrange(world.MatchingVolumes(CommonLabels(cfg)));
      var (target, several) := PickVolume(listed);
      if several then VolumeScan(DeleteAll(env, world, listed), "", true) else VolumeScan(world, target, false)
  }

  // --- the executor

  /** The contents of a command store. */
  datatype Contents = Contents(current: Option<Adopted>, previous: Option<Adopted>)

  /** A finished command becomes the previous one, any other the current one. */
  function Place(adopted: Option<Adopted>): Contents {
    match adopted
    case None => Contents(None, None)
    case Some(cmd) => if cmd.result.finished then Contents(None, Some(cmd)) else Contents(Some(cmd), None)
  }

  /** Destroying a stored command's container: its existence is checked first. */
  function ClearOne(env: Env, world: World, cmd: Option<Adopted>): (World, bool) {
    match cmd
    case None => (world, false)
    case Some(a) =>
      if env.existsFails(a.container) then (world, true)
      else if a.container !in world.containers then (world, false)
      else (AfterDestroy(env, world, a.container), env.destroyFails(a.container))
  }

  /** Clearing a store destroys both commands' containers and reports whether either failed. */
  function ClearStore(env: Env, world: World, store: Contents): (World, bool) {
    var (w1, failed1) := ClearOne(env, world, store.current);
    var (w2, failed2) := ClearOne(env, w1, store.previous);
    (w2, failed1 || failed2)
  }

  datatype Executor = Executor(
    world: World, payload: Contents, support: Contents, volumeName: string, recovered: bool, failed: bool)

  function Init(cfg: Config, env: Env, world: World): Executor
    requires env.Valid()
  {
    var v := RecoverVolume(cfg, env, world);
    var s := RecoverStore(cfg, env, v.world, true, v.volume);
    var p := RecoverStore(cfg, env, s.world, false, v.volume);
    if v.failed || s.failed || p.failed then
      var (w1, _) := ClearStore(env, p.world, Place(p.adopted));
      var (w2, _) := ClearStore(env, w1, Place(s.adopted));
      Executor(if v.volume != "" && !DeleteRefused(env, v.volume) then w2.WithoutVolume(v.volume) else w2,
        Place(None), Place(None), "", false, true)
    else
      Executor(p.world, Place(p.adopted), Place(s.adopted), v.volume, v.volume != "", false)
  }

  // --- the recovery loop partitions the list

  function Ids(listed: seq<Handle>): seq<ContainerId> {
    seq(|listed|, i requires 0 <= i < |listed| => listed[i].id)
  }

  /** Every listed container exists and is listed once. */
  ghost predicate FreshList(world: World, listed: seq<Handle>) {
    && (forall i :: 0 <= i < |listed| ==> listed[i].id in world.containers)
    && (forall i, j :: 0 <= i < j < |listed| ==> listed[i].id != listed[j].id)
  }

  /** `k` is the first usable container of the list, or its length when there is none. */
  ghost predicate FirstUsable(env: Env, world: World, listed: seq<Handle>, volume: string, k: nat) {
    && k <= |listed|
    && (forall j :: 0 <= j < k ==> !CheckContainer(env, world.containers, listed[j], volume).Usable?)
    && (k < |listed| ==> CheckContainer(env, world.containers, listed[k], volume).Usable?)
  }

  /** A container before the kept one failed its checks. */
  ghost predicate RejectedBefore(env: Env, world: World, listed: seq<Handle>, volume: string, k: nat) {
    exists j :: 0 <= j < |listed| && j < k && CheckContainer(env, world.containers, listed[j], volume).Rejected?
  }

  /** A container that is not kept could not be destroyed. */
  ghost predicate DestroyRefused(env: Env, listed: seq<Handle>, k: nat) {
    exists i :: 0 <= i < |listed| && i != k && env.destroyFails(listed[i].id)
  }

  function Without(listed: seq<Handle>, k: nat): seq<ContainerId> {
    if k < |listed| then Ids(listed[..k]) + Ids(listed[k + 1..]) else Ids(listed)
  }

  ghost function Destroyed(env: Env, listed: seq<Handle>, k: nat): set<ContainerId> {
    set i | 0 <= i < |listed| && i != k && !env.destroyFails(listed[i].id) :: listed[i].id
  }

  ghost predicate Partitioned(env: Env, world: World, listed: seq<Handle>, volume: string, k: nat, sc: Scan) {
    && FirstUsable(env, world, listed, volume, k)
    && sc.attempts == Without(listed, k)
    && sc.adopted == (if k < |listed| then Some(CheckContainer(env, world.containers, listed[k], volume).cmd) else None)
    && (sc.failed <==> RejectedBefore(env, world, listed, volume, k) || DestroyRefused(env, listed, k))
    && sc.world == world.(containers := world.containers - Destroyed(env, listed, k))
  }

  /** Where the kept container is after one more container is looked at. */
  function NextKept(k: nat, n: nat, usable: bool): nat {
    if k < n then k else if usable then n else n + 1
  }

  lemma WithoutStep(front: seq<Handle>, h: Handle, k: nat, usable: bool)
    requires k <= |front|
    ensures Without(front + [h], NextKept(k, |front|, usable))
         == Without(front, k) + if NextKept(k, |front|, usable) == |front| then [] else [h.id]
  {
    var all := front + [h];
    if k < |front| {
      assert all[..k] == front[..k] && all[k + 1..] == front[k + 1..] + [h];
      assert Ids(front[k + 1..] + [h]) == Ids(front[k + 1..]) + [h.id];
    } else if usable {
      assert all[..|front|] == front && all[|front| + 1..] == [];
    }
  }

  lemma RejectedStep(env: Env, world: World, front: seq<Handle>, h: Handle, volume: string, k: nat)
    requires k <= |front|
    ensures var check := CheckContainer(env, world.containers, h, volume);
      RejectedBefore(env, world, front + [h], volume, NextKept(k, |front|, check.Usable?))
      == (RejectedBefore(env, world, front, volume, k) || (k == |front| && check.Rejected?))
  {
    var all := front + [h];
    assert all[|front|] == h && forall i :: 0 <= i < |front| ==> all[i] == front[i];
    if RejectedBefore(env, world, front, volume, k) {
      var j :| 0 <= j < |front| && j < k && CheckContainer(env, world.containers, front[j], volume).Rejected?;
      assert CheckContainer(env, world.containers, all[j], volume).Rejected?;
    }
  }

  lemma RefusedStep(env: Env, front: seq<Handle>, h: Handle, k: nat, usable: bool)
    requires k <= |front|
    ensures DestroyRefused(env, front + [h], NextKept(k, |front|, usable))
         == (DestroyRefused(env, front, k) || (NextKept(k, |front|, usable) != |front| && env.destroyFails(h.id)))
  {
    var all := front + [h];
    assert all[|front|] == h && forall i :: 0 <= i < |front| ==> all[i] == front[i];
    if DestroyRefused(env, front, k) {
      var i :| 0 <= i < |front| && i != k && env.destroyFails(front[i].id);
      assert env.destroyFails(all[i].id);
    }
  }

  lemma DestroyedStep(env: Env, front: seq<Handle>, h: Handle, k: nat, usable: bool)
    requires k <= |front|
    ensures Destroyed(env, front + [h], NextKept(k, |front|, usable))
         == Destroyed(env, front, k)
              + if NextKept(k, |front|, usable) == |front| || env.destroyFails(h.id) then {} else {h.id}
  {
    var all, n, k' := front + [h], |front|, NextKept(k, |front|, usable);
    assert all[n] == h && forall i :: 0 <= i < n ==> all[i] == front[i];
    forall id | id in Destroyed(env, front, k) ensures id in Destroyed(env, all, k') {
      var i :| 0 <= i < n && i != k && !env.destroyFails(front[i].id) && front[i].id == id;
      assert all[i].id == id;
    }
  }

  /** Destroying other containers does not change what is said about this one. */
  lemma StillListed(env: Env, world: World, front: seq<Handle>, h: Handle, volume: string, k: nat)
    requires FreshList(world, front + [h])
    ensures h.id !in Destroyed(env, front, k) && h.id in world.containers && FreshList(world, front)
    ensures CheckContainer(env, world.containers - Destroyed(env, front, k), h, volume)
         == CheckContainer(env, world.containers, h, volume)
  {
    var all := front + [h];
    assert all[|front|] == h && forall i :: 0 <= i < |front| ==> all[i] == front[i];
  }

  lemma FirstUsableStep(env: Env, world: World, front: seq<Handle>, h: Handle, volume: string, k: nat)
    requires FirstUsable(env, world, front, volume, k)
    ensures FirstUsable(env, world, front + [h], volume,
      NextKept(k, |front|, CheckContainer(env, world.containers, h, volume).Usable?))
  {
    var all := front + [h];
    assert all[|front|] == h && forall i :: 0 <= i < |front| ==> all[i] == front[i];
  }

  /** One more destroy call: the container joins those that are gone, unless the call fails. */
  lemma DestroyMore(env: Env, world: World, gone: set<ContainerId>, id: ContainerId)
    requires id in world.containers && id !in gone
    ensures var before := world.(containers := world.containers - gone);
      && DestroyWorks(env, before, id) == !env.destroyFails(id)
      && AfterDestroy(env, before, id)
        == world.(containers := world.containers - (gone + if env.destroyFails(id) then {} else {id}))
  {
    assert world.containers - gone - {id} == world.containers - (gone + {id});
    assert gone + {} == gone;
  }

  lemma PartitionStep(env: Env, world: World, front: seq<Handle>, h: Handle, volume: string, k: nat, sc: Scan)
    requires FreshList(world, front + [h]) && Partitioned(env, world, front, volume, k, sc)
    ensures Partitioned(env, world, front + [h], volume,
      NextKept(k, |front|, CheckContainer(env, world.containers, h, volume).Usable?), ScanOne(env, sc, h, volume))
  {
    var usable := CheckContainer(env, world.containers, h, volume).Usable?;
    StillListed(env, world, front, h, volume, k);
    FirstUsableStep(env, world, front, h, volume, k);
    WithoutStep(front, h, k, usable);
    RejectedStep(env, world, front, h, volume, k);
    RefusedStep(env, front, h, k, usable);
    DestroyedStep(env, front, h, k, usable);
    DestroyMore(env, world, Destroyed(env, front, k), h.id);
    hide FirstUsable, Without, RejectedBefore, DestroyRefused, Destroyed, CheckContainer, AfterDestroy, DestroyWorks,
      FreshList;
    assert (front + [h])[|front|] == h;
    assert k < |front| ==> (front + [h])[k] == front[k];
    assert Destroyed(env, front, k) + {} == Destroyed(env, front, k);
    assert Without(front, k) + [] == Without(front, k);
  }

  /** For every list and every pattern of failures, the scan keeps the first usable
    * container alone and tries to destroy each other one exactly once, in order.
    */
  lemma {:induction false} ScanPartitions(env: Env, world: World, listed: seq<Handle>, volume: string) returns (k: nat)
    requires FreshList(world, listed)
    ensures Partitioned(env, world, listed, volume, k, ScanAll(env, world, listed, volume))
    decreases |listed|
  {
    if listed == [] {
      k := 0;
      assert world.containers - {} == world.containers;
    } else {
      var front, h := listed[..|listed| - 1], listed[|listed| - 1];
      assert listed == front + [h];
      StillListed(env, world, front, h, volume, 0);
      k := ScanPartitions(env, world, front, volume);
      PartitionStep(env, world, front, h, volume, k, ScanAll(env, world, front, volume));
      k := NextKept(k, |front|, CheckContainer(env, world.containers, h, volume).Usable?);
    }
  }
}

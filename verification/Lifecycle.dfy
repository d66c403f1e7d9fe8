/** An executor's life from one recovery to the next: recovery builds a state
  * the protocol may start from, and a run never has more than its one volume.
  */
module Lifecycle {
  import opened Wrappers
  import opened Uuids
  import opened Labels
  import opened Containers
  import opened CommandResults
  import opened Protocol
  import opened ProtocolInvariant
  import opened StepProofs
  import opened ProtocolRuns
  import opened ProtocolWitness
  import opened RoundTrip
  import opened RoundTripTheorems
  import opened RoundTripWitness
  import Recovery
  import RecoveryTheorems

  // --- from recovery to the protocol

  /** An adopted command: a finished one has its channel closed and its once spent. */
  function Rebuilt(a: Recovery.Adopted): Command {
    Command(a.id, a.support, a.container, if a.result.finished then RecoveredFinished else RecoveredRunning,
      a.result, a.result.finished, if a.result.finished then 1 else 0, 0, {}, false, false, false, false, false, None)
  }

  function RebuiltIn(store: Recovery.Contents): seq<Command> {
    match RecoveryTheorems.AdoptedIn(store)
    case None => []
    case Some(a) => [Rebuilt(a)]
  }

  function SlotsAt(store: Recovery.Contents, c: CommandRef): Slots {
    Slots(if store.current.Some? then Some(c) else None,
      if store.current.None? && store.previous.Some? then Some(c) else None, None)
  }

  /** The executor recovery returned, with `n` idle callers. */
  function Resumed(cfg: Config, o: Recovery.Executor, n: nat): State {
    State(
      Shared(cfg, o.world, SlotsAt(o.payload, 0), SlotsAt(o.support, |RebuiltIn(o.payload)|), o.volumeName,
        RebuiltIn(o.payload) + RebuiltIn(o.support), {}, {}, {}, false),
      map[], seq(n, _ => Idle(NoReply)))
  }

  lemma RebuiltRecovered(a: Recovery.Adopted, containers: map<ContainerId, Container>, support: bool, volume: string)
    requires RecoveryTheorems.Describes(a, containers, support, volume)
    ensures Recovered(Rebuilt(a)) && Rebuilt(a).support == support && Rebuilt(a).container in containers
  { }

  /** What a successful recovery hands over is a state the protocol may start from. */
  lemma ResumedStarts(cfg: Config, o: Recovery.Executor, n: nat)
    requires RecoveryTheorems.RoleTaken(cfg, o, false) && RecoveryTheorems.RoleTaken(cfg, o, true) && o.world.Valid()
    ensures Start(Resumed(cfg, o, n))
  {
    RecoveryTheorems.RolesApart(cfg, o.world);
    hide RecoveryTheorems.RoleContainers, Recovered, Rebuilt, RecoveryTheorems.Describes;
    var p, s := RecoveryTheorems.AdoptedIn(o.payload), RecoveryTheorems.AdoptedIn(o.support);
    if p.Some? {
      RebuiltRecovered(p.value, o.world.containers, false, o.volumeName);
      RebuiltPlain(p.value);
    }
    if s.Some? {
      RebuiltRecovered(s.value, o.world.containers, true, o.volumeName);
      RebuiltPlain(s.value);
    }
  }

  lemma RebuiltPlain(a: Recovery.Adopted)
    ensures Rebuilt(a).container == a.container
    ensures Rebuilt(a).origin == if a.result.finished then RecoveredFinished else RecoveredRunning
  { }

  /** A recovery that did not fail starts a protocol run that knows the run's only volume,
    * whichever calls failed on the way, unless a failed listing hid a volume.
    */
  lemma RecoveryStarts(cfg: Config, env: Recovery.Env, world: World, n: nat)
    requires env.Valid() && "" !in world.volumes && world.Valid() && !Recovery.Init(cfg, env, world).failed
    requires !env.listVolumesFails || RecoveryTheorems.RunVolumes(cfg, world) == {}
    ensures var s := Resumed(cfg, Recovery.Init(cfg, env, world), n);
      Start(s) && VolumeOk(cfg, s.shared.world.volumes, s.shared.volumeName)
  {
    RecoveryTheorems.InitAllOrNothing(cfg, env, world);
    RecoveryTheorems.InitKeepsOthers(cfg, env, world);
    hide Recovery.Init, RecoveryTheorems.RoleTaken, Start, Matches, CommonLabels, RecoveryTheorems.RoleContainers;
    var o := Recovery.Init(cfg, env, world);
    ResumedStarts(cfg, o, n);
    OneMatch(cfg, o.world, o.volumeName);
  }

  lemma OneMatch(cfg: Config, world: World, volumeName: string)
    requires "" !in world.volumes
    ensures VolumeOk(cfg, world.volumes, volumeName)
       <==> RecoveryTheorems.RunVolumes(cfg, world) == if volumeName == "" then {} else {volumeName}
  {
    hide Matches, CommonLabels;
    if RecoveryTheorems.RunVolumes(cfg, world) == if volumeName == "" then {} else {volumeName} {
      forall n | n in world.volumes ensures Matches(CommonLabels(cfg), world.volumes[n]) <==> n == volumeName {
        assert n in RecoveryTheorems.RunVolumes(cfg, world) <==> Matches(CommonLabels(cfg), world.volumes[n]);
      }
      assert volumeName != "" ==> volumeName in RecoveryTheorems.RunVolumes(cfg, world);
    }
  }

  // --- recovering again

  lemma ListsAdopted(cfg: Config, env: Recovery.Env, o: Recovery.Executor, support: bool)
    requires RecoveryTheorems.RoleTaken(cfg, o, support) && Readable(env)
    ensures var listed := Recovery.Listed(env, o.world, QueryLabels(cfg, support));
      var a := RecoveryTheorems.AdoptedIn(RecoveryTheorems.StoreOf(o, support));
      && |listed| == (if a.Some? then 1 else 0)
      && forall i :: 0 <= i < |listed| ==> a.Some? && listed[i].id == a.value.container
  {
    var query := QueryLabels(cfg, support);
    RecoveryTheorems.ListingSize(env.arrange(o.world.Matching(query)), o.world.Matching(query));
    hide QueryLabels, Matches, RecoveryTheorems.Describes, Readable;
    var listed := Recovery.Listed(env, o.world, query);
    forall i | 0 <= i < |listed|
      ensures listed[i].id in
        RecoveryTheorems.AdoptedSet(RecoveryTheorems.AdoptedIn(RecoveryTheorems.StoreOf(o, support)))
    {
      assert listed[i].id in RecoveryTheorems.RoleContainers(cfg, o.world, support);
    }
  }

  /** The adopted container passes its checks again. */
  lemma UsableAgain(cfg: Config, env: Recovery.Env, o: Recovery.Executor, support: bool)
    requires RecoveryTheorems.RoleTaken(cfg, o, support) && Readable(env)
    requires RecoveryTheorems.AdoptedIn(RecoveryTheorems.StoreOf(o, support)).Some?
    ensures var a := RecoveryTheorems.AdoptedIn(RecoveryTheorems.StoreOf(o, support)).value;
      && a.container in o.world.containers
      && Recovery.CheckContainer(env, o.world.containers,
           Recovery.Handle(a.container, OptsOf(o.world.containers[a.container])), o.volumeName)
        == Recovery.Usable(a)
  {
    var a := RecoveryTheorems.AdoptedIn(RecoveryTheorems.StoreOf(o, support)).value;
    assert a.container in RecoveryTheorems.RoleContainers(cfg, o.world, support);
    RecoveryTheorems.MatchedRole(cfg, o.world.containers[a.container].labels, support);
    hide QueryLabels, Matches, CommandIdOf, VolumesOf, Inspected;
  }

  lemma RetakesStore(cfg: Config, env: Recovery.Env, o: Recovery.Executor, support: bool)
    requires RecoveryTheorems.RoleTaken(cfg, o, support) && Readable(env)
    ensures var out := Recovery.RecoverStore(cfg, env, o.world, support, o.volumeName);
      out.world == o.world && !out.failed && Recovery.Place(out.adopted) == RecoveryTheorems.StoreOf(o, support)
  {
    ListsAdopted(cfg, env, o, support);
    if RecoveryTheorems.AdoptedIn(RecoveryTheorems.StoreOf(o, support)).Some? {
      UsableAgain(cfg, env, o, support);
    }
    hide QueryLabels, Recovery.RecoverStore, Recovery.CheckContainer, Readable, RecoveryTheorems.Describes,
      RecoveryTheorems.RoleContainers;
    AtMostOneListed(cfg, env, o.world, support, o.volumeName);
  }

  /** Recovery is idempotent: a second executor over what the first one left takes over
    * the same volume and the same commands, or finds nothing after a failed recovery.
    */
  lemma RecoveryIsIdempotent(cfg: Config, env: Recovery.Env, again: Recovery.Env, before: World)
    requires env.Valid() && "" !in before.volumes && Readable(again)
    requires env.Working() || !Recovery.Init(cfg, env, before).failed
    requires !env.listVolumesFails || RecoveryTheorems.RunVolumes(cfg, before) == {}
    ensures var o := Recovery.Init(cfg, env, before);
      Recovery.Init(cfg, again, o.world)
      == if o.failed then
        Recovery.Executor(o.world, Recovery.Contents(None, None), Recovery.Contents(None, None), "", false, false)
         else o
  {
    RecoveryTheorems.InitAllOrNothing(cfg, env, before);
    RecoveryTheorems.InitKeepsOthers(cfg, env, before);
    var o := Recovery.Init(cfg, env, before);
    if o.failed {
      NothingLeft(cfg, o);
      hide Recovery.Init;
      InitFindsNothing(cfg, again, o.world);
    } else {
      RetakesAll(cfg, again, o);
      SuccessNames(cfg, env, before);
    }
  }

  lemma SuccessNames(cfg: Config, env: Recovery.Env, before: World)
    requires env.Valid() && !Recovery.Init(cfg, env, before).failed
    ensures var o := Recovery.Init(cfg, env, before); o.recovered <==> o.volumeName != ""
  {
    RecoveryTheorems.InitUnfolds(cfg, env, before);
    hide Recovery.Init;
  }

  lemma NothingLeft(cfg: Config, o: Recovery.Executor)
    requires RecoveryTheorems.RoleContainers(cfg, o.world, false) == {}
    requires RecoveryTheorems.RoleContainers(cfg, o.world, true) == {}
    requires RecoveryTheorems.RunVolumes(cfg, o.world) == {} && "" !in o.world.volumes
    ensures NoneFound(cfg, o.world)
  {
    hide QueryLabels, CommonLabels, Matches;
    forall id | id in o.world.containers
      ensures !Matches(QueryLabels(cfg, false), o.world.containers[id].labels)
      ensures !Matches(QueryLabels(cfg, true), o.world.containers[id].labels)
    {
      assert id !in RecoveryTheorems.RoleContainers(cfg, o.world, false)
        && id !in RecoveryTheorems.RoleContainers(cfg, o.world, true);
    }
    forall n | n in o.world.volumes ensures !Matches(CommonLabels(cfg), o.world.volumes[n]) {
      assert n !in RecoveryTheorems.RunVolumes(cfg, o.world);
    }
  }

  lemma RetakesAll(cfg: Config, env: Recovery.Env, o: Recovery.Executor)
    requires RecoveryTheorems.RoleTaken(cfg, o, false) && RecoveryTheorems.RoleTaken(cfg, o, true) && Readable(env)
    requires RecoveryTheorems.RunVolumes(cfg, o.world) == (if o.volumeName == "" then {} else {o.volumeName})
    requires "" !in o.world.volumes
    ensures Recovery.Init(cfg, env, o.world)
      == Recovery.Executor(o.world, o.payload, o.support, o.volumeName, o.volumeName != "", false)
  {
    RetakesStore(cfg, env, o, false);
    RetakesStore(cfg, env, o, true);
    RecoveryTheorems.VolumeRecovery(cfg, env, o.world);
    RecoveryTheorems.InitUnfolds(cfg, env, o.world);
    hide Recovery.Init, Recovery.RecoverStore, Recovery.RecoverVolume, Recovery.Place, RecoveryTheorems.RunVolumes,
      RecoveryTheorems.RoleTaken, Readable;
  }

  // --- the next crash

  /** Recovery over a runtime without resources of the run starts from scratch. */
  lemma FreshInitIsScratch(cfg: Config, env: Recovery.Env, world: World, n: nat)
    requires NoneFound(cfg, world) && Readable(env) && world.Valid()
    ensures FromScratch(Resumed(cfg, Recovery.Init(cfg, env, world), n))
  {
    InitFindsNothing(cfg, env, world);
    hide Recovery.Init, Matches, QueryLabels, CommonLabels;
    assert world.Matching(QueryLabels(cfg, false)) == {} && world.Matching(QueryLabels(cfg, true)) == {};
    assert world.MatchingVolumes(CommonLabels(cfg)) == {};
  }

  /** The role's containers are those of the rebuilt commands. */
  lemma RoleRebuilt(cfg: Config, o: Recovery.Executor, support: bool, id: ContainerId)
    requires RecoveryTheorems.RoleTaken(cfg, o, support) && id in o.world.containers
    requires Matches(QueryLabels(cfg, support), o.world.containers[id].labels)
    ensures var cmds := RebuiltIn(o.payload) + RebuiltIn(o.support);
      exists c :: 0 <= c < |cmds| && cmds[c].container == id
  {
    hide Matches, QueryLabels, RecoveryTheorems.Describes;
    assert id in RecoveryTheorems.RoleContainers(cfg, o.world, support);
    var cmds := RebuiltIn(o.payload) + RebuiltIn(o.support);
    assert cmds[if support then |RebuiltIn(o.payload)| else 0].container == id;
  }

  lemma AdoptedIsOurs(cfg: Config, o: Recovery.Executor, support: bool)
    requires RecoveryTheorems.RoleTaken(cfg, o, support)
    requires RecoveryTheorems.AdoptedIn(RecoveryTheorems.StoreOf(o, support)).Some?
    ensures var a := RecoveryTheorems.AdoptedIn(RecoveryTheorems.StoreOf(o, support)).value;
      && a.container in o.world.containers && a.support == support
      && Bears(cfg, o.world.containers[a.container].labels, a.id, support)
      && o.volumeName in VolumesOf(o.world.containers[a.container].mounts)
  {
    var a := RecoveryTheorems.AdoptedIn(RecoveryTheorems.StoreOf(o, support)).value;
    hide Matches, QueryLabels, CommandIdOf, VolumesOf;
    assert a.container in RecoveryTheorems.RoleContainers(cfg, o.world, support);
  }

  /** Only rebuilt commands' containers carry the run's labels. */
  lemma ResumedOurs(cfg: Config, o: Recovery.Executor)
    requires RecoveryTheorems.RoleTaken(cfg, o, false) && RecoveryTheorems.RoleTaken(cfg, o, true)
    ensures OnlyOurs(cfg, RebuiltIn(o.payload) + RebuiltIn(o.support), None, None, o.world.containers)
  {
    hide Matches, QueryLabels, RecoveryTheorems.RoleTaken, RebuiltIn;
    var cmds := RebuiltIn(o.payload) + RebuiltIn(o.support);
    forall id | id in o.world.containers
      ensures OursIfMatching(cfg, o.world.containers[id].labels, cmds, None, None, id)
    {
      if Matches(QueryLabels(cfg, false), o.world.containers[id].labels) {
        RoleRebuilt(cfg, o, false, id);
      } else if Matches(QueryLabels(cfg, true), o.world.containers[id].labels) {
        RoleRebuilt(cfg, o, true, id);
      }
    }
  }

  /** The rebuilt commands of one store are labelled for it and mount the volume. */
  ghost predicate StoreFits(cfg: Config, o: Recovery.Executor, support: bool) {
    var cmds := RebuiltIn(RecoveryTheorems.StoreOf(o, support));
    && Labelled(cfg, cmds, o.world.containers)
    && (forall c :: 0 <= c < |cmds| ==> MountsVolume(o.world.containers, cmds[c].container, o.volumeName))
  }

  lemma RebuiltFits(cfg: Config, o: Recovery.Executor, support: bool)
    requires RecoveryTheorems.RoleTaken(cfg, o, support)
    ensures StoreFits(cfg, o, support)
  {
    if RecoveryTheorems.AdoptedIn(RecoveryTheorems.StoreOf(o, support)).Some? {
      AdoptedIsOurs(cfg, o, support);
    }
    hide Bears, VolumesOf, RecoveryTheorems.RoleTaken;
  }

  /** A recovered executor that holds the run's volume starts inside the window. */
  lemma ResumedWindow(cfg: Config, o: Recovery.Executor, n: nat)
    requires KeepsCommon(cfg) && RecoveryTheorems.RoleTaken(cfg, o, false) && RecoveryTheorems.RoleTaken(cfg, o, true)
    requires VolumeOk(cfg, o.world.volumes, o.volumeName) && o.volumeName != ""
    ensures WindowInv(Resumed(cfg, o, n))
  {
    ResumedOurs(cfg, o);
    RebuiltFits(cfg, o, false);
    RebuiltFits(cfg, o, true);
    hide KeepsCommon, VolumeOk, OnlyOurs, LabelledFor, MountsVolume, RecoveryTheorems.RoleTaken;
  }

  /** No container mounts a volume without a name. */
  ghost predicate MountsNamed(world: World) {
    forall id :: id in world.containers ==> "" !in VolumesOf(world.containers[id].mounts)
  }

  /** A recovery that took over a command took over its volume. */
  lemma NoVolumeNoCommand(cfg: Config, env: Recovery.Env, world: World, support: bool)
    requires env.Valid() && "" !in world.volumes && MountsNamed(world)
      && Recovery.Init(cfg, env, world).volumeName == ""
    requires RecoveryTheorems.RoleTaken(cfg, Recovery.Init(cfg, env, world), support)
    ensures RecoveryTheorems.StoreOf(Recovery.Init(cfg, env, world), support) == Recovery.Contents(None, None)
    ensures RecoveryTheorems.RoleContainers(cfg, Recovery.Init(cfg, env, world).world, support) == {}
  {
    RecoveryTheorems.InitKeepsOthers(cfg, env, world);
    hide Recovery.Init, QueryLabels, Matches, CommandIdOf, Inspected, VolumesOf, RecoveryTheorems.RunVolumes;
    AdoptedMounts(cfg, Recovery.Init(cfg, env, world), support);
  }

  lemma AdoptedMounts(cfg: Config, o: Recovery.Executor, support: bool)
    requires RecoveryTheorems.RoleTaken(cfg, o, support)
    ensures var a := RecoveryTheorems.AdoptedIn(RecoveryTheorems.StoreOf(o, support));
      a.Some? ==>
        a.value.container in o.world.containers
        && o.volumeName in VolumesOf(o.world.containers[a.value.container].mounts)
  {
    if RecoveryTheorems.AdoptedIn(RecoveryTheorems.StoreOf(o, support)).Some? {
      AdoptedIsOurs(cfg, o, support);
    }
  }

  lemma EmptyStart(cfg: Config, o: Recovery.Executor, n: nat)
    requires Start(Resumed(cfg, o, n)) && o.volumeName == ""
    requires o.payload == o.support == Recovery.Contents(None, None)
    requires RecoveryTheorems.RoleContainers(cfg, o.world, false) == {}
    requires RecoveryTheorems.RoleContainers(cfg, o.world, true) == {}
    requires RecoveryTheorems.RunVolumes(cfg, o.world) == {}
    ensures FromScratch(Resumed(cfg, o, n))
  {
    hide QueryLabels, CommonLabels, Matches, Start;
  }

  /** Wherever it starts, a recovered executor starts inside the window. */
  lemma RecoveredWindow(cfg: Config, first: Recovery.Env, world: World, n: nat)
    requires KeepsCommon(cfg) && world.Valid() && "" !in world.volumes
    requires first.Valid() && (!first.listVolumesFails || RecoveryTheorems.RunVolumes(cfg, world) == {})
    requires !Recovery.Init(cfg, first, world).failed
    requires Recovery.Init(cfg, first, world).volumeName != "" || MountsNamed(world)
    ensures var s := Resumed(cfg, Recovery.Init(cfg, first, world), n); Start(s) && WindowInv(s)
  {
    var o := Recovery.Init(cfg, first, world);
    RecoveryTheorems.InitAllOrNothing(cfg, first, world);
    RecoveryStarts(cfg, first, world, n);
    if o.volumeName == "" {
      NoVolumeNoCommand(cfg, first, world, false);
      NoVolumeNoCommand(cfg, first, world, true);
      hide Recovery.Init, Start, WindowInv, KeepsCommon, RecoveryTheorems.RoleTaken;
      EmptyStart(cfg, o, n);
      RecoveryTheorems.InitKeepsOthers(cfg, first, world);
      ScratchWindow(Resumed(cfg, o, n));
    } else {
      hide Recovery.Init, Start, WindowInv, KeepsCommon, VolumeOk, RecoveryTheorems.RoleTaken;
      ResumedWindow(cfg, o, n);
    }
  }

  /** The round trip for a recovered executor, and so for any number of crashes: from
    * every state of every disciplined run of it, recovery takes over everything if and
    * only if no Destroy has forgotten a command whose container it failed to remove and
    * no role has both a newer command's container and the one of a finished command
    * adopted before.
    */
  lemma ResumedRoundTrip(cfg: Config, first: Recovery.Env, world: World, n: nat, labels: seq<Label>, env: Recovery.Env)
    requires KeepsCommon(cfg) && world.Valid() && "" !in world.volumes
    requires first.Valid() && (!first.listVolumesFails || RecoveryTheorems.RunVolumes(cfg, world) == {})
    requires var o := Recovery.Init(cfg, first, world);
      && !o.failed && (o.volumeName != "" || MountsNamed(world))
      && DisciplinedRun(Resumed(cfg, o, n), labels) && Run(Resumed(cfg, o, n), labels).Some?
    requires Readable(env)
    ensures var sh := Run(Resumed(cfg, Recovery.Init(cfg, first, world), n), labels).value.shared;
      SameExecutor(sh, Recovery.Init(sh.cfg, env, sh.world)) <==>
        (NothingForgotten(sh) && Sole(sh, false) && Sole(sh, true))
  {
    var o := Recovery.Init(cfg, first, world);
    hide Recovery.Init, Run, DisciplinedRun, Start, WindowInv, SharedInv, Readable, NothingForgotten,
      SameExecutor, Sole, KeepsCommon, MountsNamed;
    RecoveredWindow(cfg, first, world, n);
    StartInv(Resumed(cfg, o, n));
    RunWindow(Resumed(cfg, o, n), labels);
    EndsInWindow(Run(Resumed(cfg, o, n), labels).value);
    TakenOverWhenSole(Run(Resumed(cfg, o, n), labels).value.shared, env);
  }

  /** The exception is reached by one Execute: from every recovered executor whose
    * finished payload command still has its container, a disciplined run leads to two
    * containers of the role.
    */
  lemma ExecuteBesideFinished(s: State, t: ThreadId, id: Uuid, container: ContainerId,
      made: Container) returns (labels: seq<Label>)
    requires Start(s) && t < |s.threads| && s.shared.volumeName != ""
    requires s.shared.payload.current.None? && Exists(s.shared, Oldest(s.shared, false))
    requires MayCreate(s.shared, false, id, container, made)
    ensures DisciplinedRun(s, labels) && Run(s, labels).Some? && !Sole(Run(s, labels).value.shared, false)
  {
    hide StepOf, StartSlots, Recovered, Sole, Exists, WithSlots, Push;
    StillOldest(s.shared, id, container, made);
    labels := ExecuteRuns(s, t, false, 0, id, container, made);
    assert Disciplined(s, labels[0]) by { ExecuteAllowed(s, t); }
    OneCall(s, labels);
  }

  lemma StillOldest(sh: Shared, id: Uuid, container: ContainerId, made: Container)
    requires sh.world.Valid() && sh.payload.current.None? && Exists(sh, Oldest(sh, false))
    requires container !in sh.world.used
    ensures var c := |sh.cmds|;
      !Sole(WithSlots(sh, false, Push(SlotsOf(sh, false), c))
        .(world := sh.world.With(container, made), cmds := sh.cmds + [NewCommand(id, false, container, 0)]), false)
  { }

  // --- one volume per run

  /** The volume's part of the invariant: it changes hands only inside Prepare and Destroy. */
  ghost predicate VolumeInv(s: State) {
    && KeepsCommon(s.shared.cfg)
    && VolumeOk(s.shared.cfg, s.shared.world.volumes, s.shared.volumeName)
    && (forall t :: 0 <= t < |s.threads| ==> PcVolume(s.shared, s.threads[t]))
    && (forall t, u ::
         0 <= t < |s.threads| && 0 <= u < |s.threads|
         && InLifecycle(s.threads[t]) && InLifecycle(s.threads[u]) ==>
           t == u)
  }

  predicate PcVolume(sh: Shared, pc: Pc) {
    && (InLifecycle(pc) ==> sh.busy)
    && (pc.Preparing? ==> sh.volumeName == "")
  }

  predicate SameVolumes(sh: Shared, sh': Shared) {
    sh'.cfg == sh.cfg && sh'.world.volumes == sh.world.volumes && sh'.volumeName == sh.volumeName && sh'.busy == sh.busy
  }

  /** What a step does to the volume. */
  ghost predicate VolumeStep(sh: Shared, pc: Pc, e: Effect) {
    && e.shared.cfg == sh.cfg
    && VolumeOk(sh.cfg, e.shared.world.volumes, e.shared.volumeName)
    && PcVolume(e.shared, e.pc)
    && (e.spawned.Some? ==> e.spawned.value.Routine?)
    && (SameVolumes(sh, e.shared) || InLifecycle(pc) || (InLifecycle(e.pc) && !sh.busy))
    && (InLifecycle(e.pc) ==> InLifecycle(pc) || !sh.busy)
  }

  lemma ExecuteVolume(sh: Shared, pc: Pc, choice: Choice, e: Effect)
    requires pc.Executing? && ExecuteStep(sh, pc.support, pc.context, pc.ex, choice) == Some(e)
    ensures SameVolumes(sh, e.shared) && !InLifecycle(e.pc) && (e.spawned.Some? ==> e.spawned.value.Routine?)
  {
    hide MayCreate;
  }

  lemma DestroyCallVolume(sh: Shared, pc: Pc, choice: Choice, e: Effect)
    requires pc.Destroying? && IsCall(pc.ds) && DestroyCallStep(sh, pc.support, pc.failing, pc.ds, choice) == Some(e)
    ensures SameVolumes(sh, e.shared) && e.pc.Destroying? && e.spawned.None?
  { }

  lemma DestroyVolume(sh: Shared, pc: Pc, choice: Choice, e: Effect)
    requires VolumeOk(sh.cfg, sh.world.volumes, sh.volumeName) && PcVolume(sh, pc)
    requires pc.Destroying? && !IsCall(pc.ds) && DestroyStep(sh, pc.support, pc.failing, pc.ds, choice) == Some(e)
    ensures VolumeStep(sh, pc, e)
  {
    if sh.volumeName != "" {
      VolumeRemoved(sh.cfg, sh.world.volumes, sh.volumeName);
    }
    hide VolumeOk;
  }

  lemma PrepareVolume(sh: Shared, pc: Pc, choice: Choice, e: Effect)
    requires KeepsCommon(sh.cfg) && VolumeOk(sh.cfg, sh.world.volumes, sh.volumeName) && PcVolume(sh, pc)
    requires pc.Preparing? && PrepareStep(sh, choice) == Some(e)
    ensures VolumeStep(sh, pc, e)
  {
    if choice.VolumeMade? && choice.name != "" && choice.name !in sh.world.volumes {
      VolumeAdded(sh.cfg, sh.world.volumes, choice.name);
    }
    hide VolumeOk, KeepsCommon, ResourceLabels;
  }

  lemma StepVolume(sh: Shared, pc: Pc, choice: Choice, e: Effect)
    requires KeepsCommon(sh.cfg) && VolumeOk(sh.cfg, sh.world.volumes, sh.volumeName) && PcVolume(sh, pc)
    requires StepOf(sh, pc, choice) == Some(e)
    ensures VolumeStep(sh, pc, e)
  {
    hide KeepsCommon, VolumeOk, ExecuteStep, PrepareStep, DestroyStep, CallStep, RunStep, JudgeStep, ClearStep;
    match pc
    case Idle(_) =>
    case Executing(_, _, _) => ExecuteVolume(sh, pc, choice, e);
    case Preparing => PrepareVolume(sh, pc, choice, e);
    case Destroying(_, _, ds) =>
      if IsCall(ds) {
        CallIsStep(sh, pc, choice);
        DestroyCallVolume(sh, pc, choice, e);
      } else {
        DestroyVolume(sh, pc, choice, e);
      }
    case Getting(_, _) =>
    case Calling(_, _) =>
      CallCalm(sh, pc, choice, e);
      CallSpawns(sh, pc, choice, e);
    case Routine(_, _, _, _) => RoutineCalm(sh, pc, choice, e);
  }

  lemma CallIsStep(sh: Shared, pc: Pc, choice: Choice)
    requires pc.Destroying? && IsCall(pc.ds)
    ensures DestroyStep(sh, pc.support, pc.failing, pc.ds, choice)
      == DestroyCallStep(sh, pc.support, pc.failing, pc.ds, choice)
  { }

  lemma VolumeAfter(s: State, t: ThreadId, e: Effect)
    requires VolumeInv(s) && t < |s.threads| && VolumeStep(s.shared, s.threads[t], e)
    ensures VolumeInv(Apply(s, t, e))
  {
    hide VolumeOk, KeepsCommon;
    var s' := Apply(s, t, e);
    forall u | 0 <= u < |s'.threads|
      ensures PcVolume(s'.shared, s'.threads[u])
      ensures InLifecycle(s'.threads[u]) ==> u < |s.threads| && (u == t || s'.threads[u] == s.threads[u])
    {
      if u < |s.threads| && u != t {
        assert PcVolume(s.shared, s.threads[u]) && PcVolume(s.shared, s.threads[t]);
      }
    }
    forall u, v | 0 <= u < |s'.threads| && 0 <= v < |s'.threads|
      && InLifecycle(s'.threads[u]) && InLifecycle(s'.threads[v])
      ensures u == v
    {
      if u != t {
        assert PcVolume(s.shared, s.threads[u]);
      }
      if v != t {
        assert PcVolume(s.shared, s.threads[v]);
      }
    }
  }

  lemma NextVolume(s: State, l: Label)
    requires VolumeInv(s) && Next(s, l).Some?
    ensures VolumeInv(Next(s, l).value)
  {
    hide VolumeOk, KeepsCommon, StepOf, VolumeStep, PcVolume;
    if l.Thread? {
      var e := StepOf(s.shared, s.threads[l.t], l.choice).value;
      assert PcVolume(s.shared, s.threads[l.t]);
      StepVolume(s.shared, s.threads[l.t], l.choice, e);
      VolumeAfter(s, l.t, e);
    } else {
      OutsideVolume(s, l);
    }
  }

  lemma OutsideVolume(s: State, l: Label)
    requires VolumeInv(s) && !l.Thread? && OutsideStep(s.shared, l).Some?
    ensures VolumeInv(s.(shared := OutsideStep(s.shared, l).value))
  {
    hide VolumeOk, KeepsCommon;
  }

  lemma {:induction false} RunVolume(s: State, labels: seq<Label>)
    requires VolumeInv(s) && Run(s, labels).Some?
    ensures VolumeInv(Run(s, labels).value)
    decreases |labels|
  {
    hide VolumeInv, Next;
    if labels != [] {
      NextVolume(s, labels[0]);
      RunVolume(Next(s, labels[0]).value, labels[1..]);
    }
  }

  /** A successful recovery names the run's only volume, unless a failed listing hid a volume. */
  lemma InitNamesVolume(cfg: Config, env: Recovery.Env, world: World)
    requires env.Valid() && "" !in world.volumes && !Recovery.Init(cfg, env, world).failed
    requires !env.listVolumesFails || RecoveryTheorems.RunVolumes(cfg, world) == {}
    ensures var o := Recovery.Init(cfg, env, world); VolumeOk(cfg, o.world.volumes, o.volumeName)
  {
    RecoveryTheorems.InitUnfolds(cfg, env, world);
    RecoveryTheorems.VolumeTaken(cfg, env, world);
    hide Recovery.Init, Recovery.RecoverStore, Recovery.RecoverVolume, Matches, CommonLabels, Recovery.Place;
    var v, o := RecoveryTheorems.Volumes(cfg, env, world), Recovery.Init(cfg, env, world);
    RecoveryTheorems.StoreKeepsVolumes(cfg, env, v.world, true, v.volume);
    RecoveryTheorems.StoreKeepsVolumes(cfg, env, RecoveryTheorems.Supports(cfg, env, world).world, false, v.volume);
    OneMatch(cfg, world, v.volume);
  }

  /** One volume per run: after a recovery that succeeded and overlooked no volume, however
    * Prepare, Destroy, their failing calls and everything else interleave, the
    * run's volumes are exactly the one the executor names, or none.
    */
  lemma OneVolume(cfg: Config, env: Recovery.Env, world: World, n: nat, labels: seq<Label>)
    requires KeepsCommon(cfg) && env.Valid() && "" !in world.volumes && !Recovery.Init(cfg, env, world).failed
    requires !env.listVolumesFails || RecoveryTheorems.RunVolumes(cfg, world) == {}
    requires Run(Resumed(cfg, Recovery.Init(cfg, env, world), n), labels).Some?
    ensures var sh := Run(Resumed(cfg, Recovery.Init(cfg, env, world), n), labels).value.shared;
      && RecoveryTheorems.RunVolumes(cfg, sh.world) == (if sh.volumeName == "" then {} else {sh.volumeName})
      && sh.cfg == cfg
  {
    var s := Resumed(cfg, Recovery.Init(cfg, env, world), n);
    InitNamesVolume(cfg, env, world);
    hide Recovery.Init, VolumeOk, KeepsCommon, Run, Recovery.Env.Valid;
    ResumedVolume(s);
    RunVolume(s, labels);
    RunConfig(s, labels);
    var sh := Run(s, labels).value.shared;
    NoUnnamed(cfg, sh.world.volumes, sh.volumeName);
    OneMatch(cfg, sh.world, sh.volumeName);
  }

  lemma NoUnnamed(cfg: Config, volumes: map<string, LabelMap>, volumeName: string)
    requires VolumeOk(cfg, volumes, volumeName)
    ensures "" !in volumes
  { }

  lemma ResumedVolume(s: State)
    requires KeepsCommon(s.shared.cfg) && VolumeOk(s.shared.cfg, s.shared.world.volumes, s.shared.volumeName)
    requires forall t :: 0 <= t < |s.threads| ==> s.threads[t] == Idle(NoReply)
    ensures VolumeInv(s)
  { }

  lemma {:induction false} RunConfig(s: State, labels: seq<Label>)
    requires VolumeInv(s) && Run(s, labels).Some?
    ensures Run(s, labels).value.shared.cfg == s.shared.cfg
    decreases |labels|
  {
    if labels != [] {
      NextVolume(s, labels[0]);
      NextConfig(s, labels[0]);
      hide Next, VolumeInv;
      RunConfig(Next(s, labels[0]).value, labels[1..]);
    }
  }

  lemma NextConfig(s: State, l: Label)
    requires VolumeInv(s) && Next(s, l).Some?
    ensures Next(s, l).value.shared.cfg == s.shared.cfg
  {
    hide VolumeOk, KeepsCommon, StepOf;
    if l.Thread? {
      assert PcVolume(s.shared, s.threads[l.t]);
      StepVolume(s.shared, s.threads[l.t], l.choice, StepOf(s.shared, s.threads[l.t], l.choice).value);
    }
  }

  /** A volume listing that failed unnoticed breaks it: the next Prepare makes a second volume. */
  lemma UnlistedVolumeDoubles(cfg: Config, env: Recovery.Env, world: World, n: nat, name: string)
    requires env.Valid() && env.listVolumesFails
    requires KeepsCommon(cfg) && RecoveryTheorems.RunVolumes(cfg, world) != {} && n > 0
    requires name != "" && name !in Recovery.Init(cfg, env, world).world.volumes
    ensures var end := Run(Resumed(cfg, Recovery.Init(cfg, env, world), n),
      [Thread(0, Begin(Prepare)), Thread(0, VolumeMade(name))]);
      && end.Some?
      && RecoveryTheorems.RunVolumes(cfg, end.value.shared.world) == RecoveryTheorems.RunVolumes(cfg, world) + {name}
      && |RecoveryTheorems.RunVolumes(cfg, end.value.shared.world)| >= 2
  {
    RecoveryTheorems.UnlistedVolumesStay(cfg, env, world);
    QueryFindsVolume(cfg);
    hide Recovery.Init, CommonLabels, ResourceLabels, Matches, KeepsCommon, RebuiltIn, SlotsAt;
    var s := Resumed(cfg, Recovery.Init(cfg, env, world), n);
    PreparesVolume(s, name);
    var before, after := s.shared.world, s.shared.world.WithVolume(name, ResourceLabels(cfg, map[]));
    assert RecoveryTheorems.RunVolumes(cfg, after) == RecoveryTheorems.RunVolumes(cfg, before) + {name};
  }

  lemma PreparesVolume(s: State, name: string)
    requires |s.threads| > 0 && s.threads[0].Idle? && !s.shared.busy && s.shared.volumeName == ""
    requires name != "" && name !in s.shared.world.volumes
    ensures var end := Run(s, [Thread(0, Begin(Prepare)), Thread(0, VolumeMade(name))]);
      && end.Some?
      && end.value.shared.world == s.shared.world.WithVolume(name, ResourceLabels(s.shared.cfg, map[]))
  {
    var labels := [Thread(0, Begin(Prepare)), Thread(0, VolumeMade(name))];
    assert labels[1..] == [labels[1]] && labels[1..][1..] == [];
    var s1 := Next(s, labels[0]).value;
    var s2 := Next(s1, labels[1]).value;
    assert Run(s2, []) == Some(s2);
    assert Run(s1, labels[1..]) == Some(s2);
  }
}

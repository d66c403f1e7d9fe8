/** The executor as the object its callers hold: methods that update command
  * stores, results and the runtime, each tied to the recovery functions or the
  * protocol's judgements.
  */
module Executors {
  import opened Wrappers
  import opened Uuids
  import opened Labels
  import opened Containers
  import opened CommandResults
  import opened PodmanAttach
  import opened Recovery
  import opened Runtime
  import Protocol
  import opened RecoveryTheorems

  /** What a caller asks to be run. */
  datatype ExecutorCommand = ExecutorCommand(
    command: seq<string>, script: string, imageName: string, environ: map<string, string>, isSupport: bool)

  /** A command and its result; `closed` and `once` stand for its channel and its sync.Once,
    * `routines` for the attach routines started for it.
    */
  class AttachedCommand {
    const id: Uuid
    const cmd: ExecutorCommand
    const support: bool
    const container: ContainerId
    var finished: bool
    var killed: bool
    var code: int
    var error: Option<Failure>
    var closed: bool
    var once: bool
    var routines: nat

    constructor (id: Uuid, cmd: ExecutorCommand, container: ContainerId)
      ensures this.id == id && this.cmd == cmd && this.support == cmd.isSupport && this.container == container
      ensures Result() == PENDING && !closed && !once && routines == 0
    {
      this.id, this.cmd, this.support, this.container := id, cmd, cmd.isSupport, container;
      finished, killed, code, error := false, false, 0, None;
      closed, once, routines := false, false, 0;
    }

    function Result(): CommandResult
      reads this
    {
      CommandResult(finished, killed, code, error)
    }

    function Value(): Adopted
      reads this
    {
      Adopted(id, support, container, Result())
    }

    /** A finished command is done: its channel is closed and attaching to it is pointless. */
    predicate Sealed()
      reads this
    {
      closed == finished && once == finished
    }

    method SetStateError(e: Failure)
      modifies this`finished, this`code, this`error
      ensures Result() == Failed(old(Result()), e)
    {
      finished, code, error := true, 1, Some(e);
    }

    method SetStateKilled()
      modifies this`finished, this`code, this`killed
      ensures Result() == Killed(old(Result()))
    {
      code, killed, finished := 1, true, true;
    }

    method SetStateFromContainerState(runtime: PodmanRuntime)
      modifies this`finished, this`code, this`error
      ensures Result() ==
        if container !in runtime.world.containers || runtime.env.inspectFails(container) then
          Failed(old(Result()), InspectFailure)
        else Inspected(old(Result()), runtime.world.containers[container].status,
          runtime.world.containers[container].exitCode)
    {
      var state := runtime.GetState(container);
      if state.None? {
        SetStateError(InspectFailure);
      } else if IsEnded(state.value.status) {
        code, finished := state.value.exitCode, true;
      }
    }

    /** Execute starts the routine of a new command without spending its once. */
    method StartRoutine()
      modifies this`routines
      ensures routines == old(routines) + 1
    {
      routines := routines + 1;
    }

    /** AttachWait on an unfinished command starts a routine the first time only. */
    method AttachOnce()
      modifies this`once, this`routines
      ensures once && routines == old(routines) + if old(once) then 0 else 1
    {
      if !once {
        once := true;
        StartRoutine();
      }
    }

    /** The unfinished command's container exists and the runtime says so and tells its state. */
    predicate Seen(runtime: PodmanRuntime)
      reads this, runtime
    {
      && !finished && container in runtime.world.containers
      && !runtime.env.existsFails(container) && !runtime.env.inspectFails(container)
    }

    predicate StatusIn(runtime: PodmanRuntime, words: set<string>)
      requires container in runtime.world.containers
      reads this, runtime
    {
      Lower(runtime.world.containers[container].status) in words
    }

    /** How the routine of a recovered command should run it, from what the runtime says of its container. */
    method PreFlightCheck(runtime: PodmanRuntime) returns (requiresStart: bool, canAttach: bool)
      ensures (if requiresStart then StartAndAttach else if canAttach then AttachOnly else NoRun)
        == if Seen(runtime) then Protocol.ModeFor(runtime.world.containers[container].status) else NoRun
      ensures requiresStart <==> Seen(runtime) && StatusIn(runtime, {"created", "configured"})
      ensures canAttach <==> Seen(runtime) && StatusIn(runtime, {"running"})
      ensures !(requiresStart && canAttach)
    {
      if finished {
        return false, false;
      }
      var there := runtime.ExistsContainer(container);
      if there != Some(true) {
        return false, false;
      }
      var state := runtime.GetState(container);
      if state.None? {
        return false, false;
      }
      StatusesApart(state.value.status);
      if Lower(state.value.status) == "exited" {
        return false, false;
      }
      requiresStart, canAttach := IsStartable(state.value.status), IsRunning(state.value.status);
    }
  }

  lemma StatusesApart(status: string)
    ensures IsEnded(status) ==> !IsStartable(status) && !IsRunning(status)
    ensures IsStartable(status) ==> !IsRunning(status)
  {
    assert "running"[0] == 'r' && "created"[0] == 'c' && "configured"[0] == 'c' && "stopped"[0] == 's'
      && "exited"[0] == 'e';
  }

  /** The command's container still exists, or nobody could tell. */
  predicate Remains(runtime: PodmanRuntime, cmd: AttachedCommand?)
    reads runtime
  {
    cmd != null && (runtime.env.existsFails(cmd.container) || cmd.container in runtime.world.containers)
  }

  /** Containers are only removed, and only by calls that work. */
  predicate OnlyRemoves(env: Env, before: World, after: World) {
    && (forall id :: id in after.containers ==>
         id in before.containers && after.containers[id] == before.containers[id])
    && (forall id :: id in before.containers && id !in after.containers ==>
          !env.existsFails(id) && !env.destroyFails(id))
  }

  function ValueOf(cmd: AttachedCommand?): Option<Adopted>
    reads cmd
  {
    if cmd == null then None else Some(cmd.Value())
  }

  class CmdSyncStore {
    var currentCmd: AttachedCommand?
    var previousCmd: AttachedCommand?

    constructor ()
      ensures currentCmd == null && previousCmd == null
    {
      currentCmd, previousCmd := null, null;
    }

    function Values(): Contents
      reads this, currentCmd, previousCmd
    {
      Contents(ValueOf(currentCmd), ValueOf(previousCmd))
    }

    method Clear(cmd: AttachedCommand?)
      modifies this
      ensures cmd == null ==> currentCmd == null && previousCmd == null
      ensures cmd != null && cmd == old(currentCmd) ==> currentCmd == null && previousCmd == old(previousCmd)
      ensures cmd != null && cmd != old(currentCmd) ==>
        currentCmd == old(currentCmd) && previousCmd == if old(previousCmd) == cmd then null else old(previousCmd)
    {
      if cmd == null {
        currentCmd, previousCmd := null, null;
      } else if cmd == currentCmd {
        currentCmd := null;
      } else if cmd == previousCmd {
        previousCmd := null;
      }
    }

    method Push(cmd: AttachedCommand)
      modifies this
      ensures currentCmd == cmd
      ensures previousCmd == if old(currentCmd) != null then old(currentCmd) else old(previousCmd)
    {
      if currentCmd != null {
        previousCmd := currentCmd;
      }
      currentCmd := cmd;
    }
  }

  class ContainerExecutor {
    const cfg: Config
    const runtime: PodmanRuntime
    const payloadCmd: CmdSyncStore
    const supportCmd: CmdSyncStore
    var volumeName: string
    var recovered: bool

    ghost predicate Valid() {
      payloadCmd != supportCmd && runtime.env.Valid()
    }

    /** The executor's value, as the recovery functions describe it. */
    ghost function Value(failed: bool): Recovery.Executor
      reads this, runtime, payloadCmd, supportCmd
      reads payloadCmd.currentCmd, payloadCmd.previousCmd, supportCmd.currentCmd, supportCmd.previousCmd
    {
      Executor(runtime.world, payloadCmd.Values(), supportCmd.Values(), volumeName, recovered, failed)
    }

    /** An executor over an existing runtime, before it looks for earlier resources. */
    constructor (cfg: Config, runtime: PodmanRuntime)
      requires runtime.env.Valid()
      ensures Valid() && fresh(payloadCmd) && fresh(supportCmd)
      ensures this.cfg == cfg && this.runtime == runtime
      ensures Value(false) == Executor(runtime.world, Contents(None, None), Contents(None, None), "", false, false)
    {
      this.cfg, this.runtime := cfg, runtime;
      payloadCmd := new CmdSyncStore();
      supportCmd := new CmdSyncStore();
      volumeName, recovered := "", false;
    }

    function GetStore(support: bool): (store: CmdSyncStore)
      ensures store == if support then supportCmd else payloadCmd
    {
      if support then supportCmd else payloadCmd
    }

    // --- recovery

    method InitVolume() returns (volume: string, failed: bool)
      requires Valid()
      modifies runtime`world
      ensures VolumeScan(runtime.world, volume, failed) == RecoverVolume(cfg, runtime.env, old(runtime.world))
    {
      NoEqualsInQueries(cfg, false);
      var found := runtime.GetVolumesByLabels(CommonLabels(cfg));
      if found.None? {
        return "", false;
      }
      var volumes := found.value;
      volume, failed := "", false;
      for i := 0 to |volumes|
        invariant (volume, failed) == PickVolume(volumes[..i])
      {
        assert volumes[..i + 1][..i] == volumes[..i];
        if volume == "" {
          volume := volumes[i];
        } else {
          failed := true;
        }
      }
      assert volumes[..|volumes|] == volumes;
      if !failed {
        return;
      }
      for i := 0 to |volumes|
        invariant runtime.world == DeleteAll(runtime.env, old(runtime.world), volumes[..i])
      {
        assert volumes[..i + 1][..i] == volumes[..i];
        var ok := runtime.DeleteVolume(volumes[i]);
      }
      volume := "";
    }

    /** The command of an existing container, None when the container's state cannot be read. */
    method NewCommandFromContainer(h: Handle) returns (cmd: AttachedCommand?, rejected: bool)
      ensures rejected ==> cmd == null
      ensures rejected <==> CommandIdOf(h.opts.labels).None? || RoleOf(h.opts.labels).None?
      ensures cmd != null ==>
        && fresh(cmd) && cmd.Sealed() && cmd.routines == 0
        && cmd.cmd == ExecutorCommand(h.opts.command, "", h.opts.image, h.opts.environ, RoleOf(h.opts.labels).value)
      ensures forall volume :: volume in h.opts.volumes ==>
        CheckContainer(runtime.env, runtime.world.containers, h, volume)
        == if rejected then Rejected else if cmd == null then Unreadable else Usable(cmd.Value())
    {
      if CommandIdOf(h.opts.labels).None? || RoleOf(h.opts.labels).None? {
        return null, true;
      }
      rejected := false;
      var command := ExecutorCommand(h.opts.command, "", h.opts.image, h.opts.environ, RoleOf(h.opts.labels).value);
      var instance := new AttachedCommand(CommandIdOf(h.opts.labels).value, command, h.id);
      instance.SetStateFromContainerState(runtime);
      if instance.error.Some? {
        return null, false;
      }
      if instance.finished {
        instance.closed, instance.once := true, true;
      }
      cmd := instance;
    }

    /** One listed container: adopt it if nothing is adopted yet and it is usable, else destroy it. */
    method ScanItem(adopted: AttachedCommand?, item: Handle,
        volume: string) returns (cmd: AttachedCommand?, failed: bool)
      requires Valid()
      modifies runtime
      ensures var out := ScanOne(runtime.env, Scan(old(runtime.world), [], ValueOf(adopted), false), item, volume);
        && runtime.world == out.world && failed == out.failed && ValueOf(cmd) == out.adopted
        && runtime.attempts == old(runtime.attempts) + out.attempts
      ensures cmd == adopted || (adopted == null && fresh(cmd) && cmd.Sealed())
    {
      cmd, failed := adopted, false;
      if adopted == null {
        failed := volume !in item.opts.volumes;
        if !failed {
          cmd, failed := NewCommandFromContainer(item);
        }
        if cmd != null {
          return;
        }
      }
      var ok := runtime.DestroyContainer(item.id);
      failed := failed || !ok;
    }

    /** The loop over the listed containers is the scan; a failure also costs the adopted one. */
    method ScanContainers(items: seq<Handle>, volume: string) returns (cmd: AttachedCommand?, failed: bool)
      requires Valid()
      modifies runtime
      ensures var out := Concluded(runtime.env, ScanAll(runtime.env, old(runtime.world), items, volume));
        && runtime.world == out.world && failed == out.failed && out.adopted == (if failed then None else ValueOf(cmd))
        && runtime.attempts == old(runtime.attempts) + out.attempts
      ensures cmd != null ==> fresh(cmd) && cmd.Sealed()
    {
      hide ScanOne, CheckContainer, CommandIdOf, RoleOf;
      cmd, failed := null, false;
      ghost var tried: seq<ContainerId> := [];
      for i := 0 to |items|
        invariant runtime.attempts == old(runtime.attempts) + tried
        invariant Scan(runtime.world, tried, ValueOf(cmd), failed)
          == ScanAll(runtime.env, old(runtime.world), items[..i], volume)
        invariant cmd != null ==> fresh(cmd) && cmd.Sealed()
      {
        assert items[..i + 1][..i] == items[..i];
        ghost var before := Scan(runtime.world, tried, ValueOf(cmd), failed);
        var itemFailed;
        cmd, itemFailed := ScanItem(cmd, items[i], volume);
        ScanOneExtends(runtime.env, before, items[i], volume);
        tried := ScanOne(runtime.env, before, items[i], volume).attempts;
        failed := failed || itemFailed;
      }
      assert items[..|items|] == items;
      if failed && cmd != null {
        var ok := runtime.DestroyContainer(cmd.container);
      }
    }

    method InitStore(support: bool, volume: string) returns (failed: bool)
      requires Valid() && GetStore(support).currentCmd == null && GetStore(support).previousCmd == null
      modifies runtime, GetStore(support)
      ensures var out := RecoverStore(cfg, runtime.env, old(runtime.world), support, volume);
        && runtime.world == out.world && failed == out.failed
        && runtime.attempts == old(runtime.attempts) + out.attempts
        && GetStore(support).Values() == Place(out.adopted)
      ensures Adopts(GetStore(support))
    {
      NoEqualsInQueries(cfg, support);
      var list := runtime.GetContainersByLabels(QueryLabels(cfg, support));
      if list.None? {
        return true;
      }
      var containerCommand;
      containerCommand, failed := ScanContainers(list.value, volume);
      if failed || containerCommand == null {
        return;
      }
      var store := GetStore(support);
      if containerCommand.finished {
        store.previousCmd := containerCommand;
      } else {
        store.currentCmd := containerCommand;
      }
    }

    /** Takes over the volume, then the support store, then the payload store. */
    method RecoverParts() returns (volume: string, failed: bool)
      requires Valid() && payloadCmd.Values() == supportCmd.Values() == Contents(None, None)
      modifies runtime, payloadCmd, supportCmd
      ensures var v, s, p := Volumes(cfg, runtime.env, old(runtime.world)),
          Supports(cfg, runtime.env, old(runtime.world)), Payloads(cfg, runtime.env, old(runtime.world));
        && volume == v.volume && failed == (v.failed || s.failed || p.failed) && runtime.world == p.world
        && payloadCmd.Values() == Place(p.adopted) && supportCmd.Values() == Place(s.adopted)
      ensures Adopts(payloadCmd) && Adopts(supportCmd)
    {
      hide RecoverVolume, RecoverStore, Place;
      var volumeFailed;
      volume, volumeFailed := InitVolume();
      var supportFailed := InitStore(true, volume);
      var payloadFailed := InitStore(false, volume);
      failed := volumeFailed || supportFailed || payloadFailed;
    }

    /** Looks for resources of an earlier executor of the same run; on any failure removes them all. */
    method Init() returns (failed: bool)
      requires Valid()
      requires payloadCmd.Values() == supportCmd.Values() == Contents(None, None) && volumeName == "" && !recovered
      modifies this, runtime, payloadCmd, supportCmd
      ensures Value(failed) == Recovery.Init(cfg, runtime.env, old(runtime.world))
      ensures Adopts(payloadCmd) && Adopts(supportCmd)
    {
      InitUnfolds(cfg, runtime.env, runtime.world);
      assert Place(None) == Contents(None, None);
      hide Recovery.Init, Recovery.ClearStore, Place, Volumes, Supports, Payloads;
      var volume;
      volume, failed := RecoverParts();
      if failed {
        DestroyUnrecoverable(volume);
      } else if volume != "" {
        recovered, volumeName := true, volume;
      }
    }

    /** A failed recovery removes what it adopted and the volume it found. */
    method DestroyUnrecoverable(volume: string)
      requires Valid()
      modifies runtime, payloadCmd, supportCmd
      ensures var (w1, _) := ClearStore(runtime.env, old(runtime.world), old(payloadCmd.Values()));
        var (w2, _) := ClearStore(runtime.env, w1, old(supportCmd.Values()));
        runtime.world == if volume != "" && !DeleteRefused(runtime.env, volume) then w2.WithoutVolume(volume) else w2
      ensures payloadCmd.Values() == supportCmd.Values() == Contents(None, None)
    {
      hide Recovery.ClearStore;
      var failed := DestroyContainers();
      if volume != "" {
        var ok := runtime.DeleteVolume(volume);
      }
    }

    // --- the life cycle

    method Prepare(name: string) returns (ok: bool)
      requires name != ""
      modifies this`volumeName, runtime`world
      ensures old(volumeName) != "" ==> ok && volumeName == old(volumeName) && runtime.world == old(runtime.world)
      ensures old(volumeName) == "" ==>
        && ok == !(runtime.env.createFails || name in old(runtime.world).volumes)
        && volumeName == (if ok then name else "")
        && runtime.world == if ok then old(runtime.world).WithVolume(name, ResourceLabels(cfg, map[]))
             else old(runtime.world)
    {
      if volumeName != "" {
        return true;
      }
      var labels := BuildResourceLabels(cfg, map[]);
      var created := runtime.CreateVolume(name, labels);
      ok := created.Some?;
      if ok {
        volumeName := created.value;
      }
    }

    method DestroyRunningCmdResources(cmd: AttachedCommand) returns (failed: bool)
      modifies runtime
      ensures (runtime.world, failed) == ClearOne(runtime.env, old(runtime.world), Some(cmd.Value()))
      ensures failed <==> Remains(runtime, cmd)
      ensures runtime.world == old(runtime.world) || runtime.world == old(runtime.world).Without(cmd.container)
      ensures OnlyRemoves(runtime.env, old(runtime.world), runtime.world)
      ensures failed ==> runtime.env.existsFails(cmd.container) || runtime.env.destroyFails(cmd.container)
    {
      var exists_ := runtime.ExistsContainer(cmd.container);
      if exists_.None? {
        return true;
      }
      if exists_.value {
        var ok := runtime.DestroyContainer(cmd.container);
        return !ok;
      }
      failed := false;
    }

    /** Both commands are forgotten even if one of the containers could not be destroyed. */
    method ClearCmdStore(store: CmdSyncStore) returns (failed: bool)
      modifies runtime, store
      ensures (runtime.world, failed) == ClearStore(runtime.env, old(runtime.world), old(store.Values()))
      ensures failed <==> Remains(runtime, old(store.currentCmd)) || Remains(runtime, old(store.previousCmd))
      ensures OnlyRemoves(runtime.env, old(runtime.world), runtime.world)
      ensures forall cmd :: cmd in {old(store.currentCmd), old(store.previousCmd)} && Remains(runtime, cmd) ==>
        runtime.env.existsFails(cmd.container) || runtime.env.destroyFails(cmd.container)
      ensures store.currentCmd == null && store.previousCmd == null
    {
      failed := false;
      if store.currentCmd != null {
        failed := DestroyRunningCmdResources(store.currentCmd);
      }
      if store.previousCmd != null {
        var previousFailed := DestroyRunningCmdResources(store.previousCmd);
        failed := previousFailed || failed;
      }
      store.Clear(null);
    }

    /** Some of the commands' containers still exists, or nobody could tell. */
    predicate AnyRemains(a: AttachedCommand?, b: AttachedCommand?, c: AttachedCommand?, d: AttachedCommand?)
      reads runtime
    {
      Remains(runtime, a) || Remains(runtime, b) || Remains(runtime, c) || Remains(runtime, d)
    }

    method DestroyContainers() returns (failed: bool)
      requires Valid()
      modifies runtime, payloadCmd, supportCmd
      ensures var (w1, failed1) := ClearStore(runtime.env, old(runtime.world), old(payloadCmd.Values()));
        var (w2, failed2) := ClearStore(runtime.env, w1, old(supportCmd.Values()));
        runtime.world == w2 && failed == (failed1 || failed2)
      ensures failed <==> AnyRemains(old(payloadCmd.currentCmd), old(payloadCmd.previousCmd),
        old(supportCmd.currentCmd), old(supportCmd.previousCmd))
      ensures payloadCmd.Values() == supportCmd.Values() == Contents(None, None)
    {
      hide Recovery.ClearStore;
      var payloadFailed := ClearCmdStore(payloadCmd);
      var supportFailed := ClearCmdStore(supportCmd);
      failed := payloadFailed || supportFailed;
    }

    /** A volume that cannot be deleted keeps its name, so that a later Destroy tries again. */
    method Destroy() returns (failed: bool)
      requires Valid()
      modifies this`volumeName, runtime, payloadCmd, supportCmd
      ensures var (w1, failed1) := ClearStore(runtime.env, old(runtime.world), old(payloadCmd.Values()));
        var (w2, failed2) := ClearStore(runtime.env, w1, old(supportCmd.Values()));
        var kept := old(volumeName) != "" && DeleteRefused(runtime.env, old(volumeName));
        && failed == (failed1 || failed2 || kept)
        && volumeName == (if kept then old(volumeName) else "")
        && runtime.world == if old(volumeName) != "" && !kept then w2.WithoutVolume(old(volumeName)) else w2
      ensures failed <==> volumeName != "" || AnyRemains(old(payloadCmd.currentCmd), old(payloadCmd.previousCmd),
        old(supportCmd.currentCmd), old(supportCmd.previousCmd))
      ensures volumeName == "" ==> old(volumeName) == "" || old(volumeName) !in runtime.world.volumes
      ensures payloadCmd.Values() == supportCmd.Values() == Contents(None, None)
    {
      hide Recovery.ClearStore;
      failed := DestroyContainers();
      if volumeName != "" {
        var ok := runtime.DeleteVolume(volumeName);
        if !ok {
          return true;
        }
        volumeName := "";
      }
    }

    // --- commands

    /** Frees the slot of `cmd` if it is the current one; a failing runtime call keeps it. */
    method ClearCmdStoreFromCmd(cmd: AttachedCommand, ignoreAlreadyCleared: bool) returns (failed: bool)
      requires Valid()
      modifies runtime, GetStore(cmd.support)
      ensures var store := GetStore(cmd.support);
        store.previousCmd == old(store.previousCmd) &&
        if old(store.currentCmd) != cmd then
          && failed == !(old(store.currentCmd) == null && ignoreAlreadyCleared)
          && store.currentCmd == old(store.currentCmd) && runtime.world == old(runtime.world)
        else
          && (runtime.world, failed) == ClearOne(runtime.env, old(runtime.world), Some(cmd.Value()))
          && store.currentCmd == if failed then cmd else null
      ensures old(GetStore(cmd.support).currentCmd) == cmd ==> (failed <==> Remains(runtime, cmd))
    {
      var store := GetStore(cmd.support);
      if !ignoreAlreadyCleared && store.currentCmd == null {
        return true;
      } else if store.currentCmd == null {
        return false;
      }
      if store.currentCmd != cmd {
        return true;
      }
      failed := DestroyRunningCmdResources(cmd);
      if !failed {
        store.Clear(cmd);
      }
    }

    /** `id` is a fresh command id; `container` the id the runtime gives the new container and
      * `vars` its environment. An empty image name means the support image, which only
      * support commands have. The requested environment is not passed on.
      */
    method RequestContainer(id: Uuid, container: ContainerId, vars: seq<string>, command: ExecutorCommand,
        supportImage: Option<string>, imagePresent: bool) returns (ok: bool)
      requires container !in runtime.world.used
      modifies runtime`world
      ensures ok <==> ImageFor(command, supportImage).Some? && imagePresent && !runtime.env.createFails
      ensures !ok ==> runtime.world == old(runtime.world)
      ensures ok ==>
        && container in runtime.world.containers
        && runtime.world == old(runtime.world).With(container, runtime.world.containers[container])
        && MadeFor(cfg, volumeName, id, vars, command, supportImage, runtime.world.containers[container])
      ensures command.imageName == "" && !(command.isSupport && supportImage.Some?) ==> !ok
    {
      var resolved := ImageFor(command, supportImage);
      if resolved.None? || !imagePresent {
        return false;
      }
      var labels := BuildContainerLabels(cfg, id, command.isSupport);
      ok := runtime.CreateContainer(ContainerName(id, command.isSupport), container,
        RunOpts(labels, resolved.value, command.command, Protocol.RequestedVolumes(cfg, volumeName), cfg.extraMounts,
          map[], command.script != ""), vars);
      CreatedIsStartable();
    }

    /** Refused while a command of the role is current; otherwise the new command becomes
      * the current one, with its routine started, exactly when its container could be made.
      */
    method Execute(id: Uuid, container: ContainerId, vars: seq<string>, command: ExecutorCommand,
        supportImage: Option<string>, imagePresent: bool) returns (cmd: AttachedCommand?)
      requires Valid() && container !in runtime.world.used
      modifies runtime`world, GetStore(command.isSupport)
      ensures cmd != null <==>
        && old(GetStore(command.isSupport).currentCmd) == null
        && ImageFor(command, supportImage).Some? && imagePresent && !runtime.env.createFails
      ensures var store := GetStore(command.isSupport);
        && store.currentCmd == (if cmd != null then cmd else old(store.currentCmd))
        && store.previousCmd == old(store.previousCmd)
      ensures cmd == null ==> runtime.world == old(runtime.world)
      ensures cmd != null ==>
        && fresh(cmd) && cmd.cmd == command && cmd.Value() == Adopted(id, command.isSupport, container, PENDING)
        && !cmd.closed && !cmd.once && cmd.routines == 1
        && container in runtime.world.containers
        && runtime.world == old(runtime.world).With(container, runtime.world.containers[container])
        && MadeFor(cfg, volumeName, id, vars, command, supportImage, runtime.world.containers[container])
    {
      hide MadeFor;
      cmd := null;
      var store := GetStore(command.isSupport);
      if store.currentCmd != null {
        return;
      }
      var ok := RequestContainer(id, container, vars, command, supportImage, imagePresent);
      if ok {
        cmd := new AttachedCommand(id, command, container);
        store.Push(cmd);
        cmd.StartRoutine();
      }
    }

    /** Writes the result of a run, judged by how it ended and by what the runtime says of the container. */
    method SetStateFromRun(cmd: AttachedCommand, end: RunEnd)
      modifies cmd
      ensures cmd.Result() == Judged(runtime.env, runtime.world, old(cmd.Value()), end)
      ensures end.Errored? ==> cmd.Result() == CommandResult(true, old(cmd.killed), 1, Some(RunFailure))
      ensures end.Aborted? ==> cmd.Result() == CommandResult(true, true, 1, old(cmd.error))
      ensures end.Completed? ==>
        cmd.Result() ==
        if runtime.env.existsFails(cmd.container) then CommandResult(true, true, 1, Some(CheckFailure))
        else if cmd.container !in runtime.world.containers then CommandResult(true, true, 1, old(cmd.error))
        else if runtime.env.inspectFails(cmd.container) then
          CommandResult(true, old(cmd.killed), 1, Some(InspectFailure))
        else
          var made := runtime.world.containers[cmd.container];
          if Lower(made.status) == "exited" || Lower(made.status) == "stopped" then
            CommandResult(true, old(cmd.killed), made.exitCode, old(cmd.error))
          else old(cmd.Result())
    {
      match end {
        case Completed =>
          var exists_ := runtime.ExistsContainer(cmd.container);
          if exists_.None? {
            cmd.SetStateError(CheckFailure);
          }
          if exists_ == Some(true) {
            cmd.SetStateFromContainerState(runtime);
          } else {
            cmd.SetStateKilled();
          }
        case Aborted => cmd.SetStateKilled();
        case Errored => cmd.SetStateError(RunFailure);
      }
    }

    /** The end of a routine with nobody else at work: the result is the protocol's
      * judgement of the run, and the slot is freed unless a runtime call fails.
      */
    method PostRunSetState(cmd: AttachedCommand, end: RunEnd) returns (failed: bool)
      requires Valid()
      modifies cmd, runtime, GetStore(cmd.support)
      ensures cmd.Result() == Judged(runtime.env, old(runtime.world), old(cmd.Value()), end)
      ensures var store := GetStore(cmd.support);
        store.previousCmd == old(store.previousCmd) &&
        if old(store.currentCmd) != cmd then
          failed && store.currentCmd == old(store.currentCmd) && runtime.world == old(runtime.world)
        else
          && (runtime.world, store.currentCmd != null) == ClearOne(runtime.env, old(runtime.world), Some(cmd.Value()))
          && store.currentCmd in {null, cmd}
          && (store.currentCmd != null || cmd.error.Some? <==> failed)
          && (store.currentCmd == null <==> !Remains(runtime, cmd))
    {
      hide Judged;
      SetStateFromRun(cmd, end);
      var clearFailed := ClearCmdStoreFromCmd(cmd, false);
      failed := cmd.error.Some? || clearFailed;
    }

    method Kill(cmd: AttachedCommand) returns (failed: bool)
      modifies runtime
      ensures if cmd.finished then !failed && runtime.world == old(runtime.world)
        else (runtime.world, failed) == ClearOne(runtime.env, old(runtime.world), Some(cmd.Value()))
      ensures !cmd.finished ==> (failed <==> Remains(runtime, cmd))
    {
      if cmd.finished {
        return false;
      }
      failed := DestroyRunningCmdResources(cmd);
    }
  }

  function ImageFor(command: ExecutorCommand, supportImage: Option<string>): Option<string> {
    if command.imageName != "" then Some(command.imageName)
    else if command.isSupport then supportImage
    else None
  }

  const NAME_PREFIX := "automation-executor"

  function ContainerName(id: Uuid, support: bool): string {
    NAME_PREFIX + "-" + RoleName(support) + "-" + ShortForm(id)
  }

  /** The container of a new command: of its image and named and labelled for it, with
    * the executor's mounts, ready to start; its environment is the one the runtime sets,
    * whatever the command asked for.
    */
  ghost predicate MadeFor(cfg: Config, volumeName: string, id: Uuid, vars: seq<string>, command: ExecutorCommand,
    supportImage: Option<string>, made: Container)
  {
    && ImageFor(command, supportImage) == Some(made.image)
    && made.name == ContainerName(id, command.isSupport)
    && made.labels == ContainerLabels(cfg, id, command.isSupport) && IsStartable(made.status)
    && Mounted(Protocol.RequestedVolumes(cfg, volumeName), made.mounts)
    && made.stdin == (command.script != "") && made.command == command.command && made.env == vars
  }

  /** What a new container is, word by word. Its image is the one asked for, or the support
    * image when a support command asks for none. Its name is the executor's prefix, the role
    * and the first ten digits of the command's id. It mounts the configured volumes where
    * they are configured and the executor's volume at the workspace. Its labels are told by
    * LabelsTell.
    */
  lemma NewContainerTells(cfg: Config, volumeName: string, id: Uuid, vars: seq<string>, command: ExecutorCommand,
      supportImage: Option<string>, made: Container)
    requires MadeFor(cfg, volumeName, id, vars, command, supportImage, made)
    ensures if command.imageName != "" then made.image == command.imageName
      else command.isSupport && supportImage == Some(made.image)
    ensures made.name[..28] == if command.isSupport then "automation-executor-support-"
      else "automation-executor-payload-"
    ensures |made.name| == 38 && forall i :: 0 <= i < 10 ==> HexValue(made.name[28 + i]) == Some(id[i])
    ensures VolumesOf(made.mounts).Keys == cfg.extraMounts.Keys + {volumeName}
    ensures forall v :: v in VolumesOf(made.mounts) ==>
      VolumesOf(made.mounts)[v] == if v == volumeName then cfg.workspace else cfg.extraMounts[v]
    ensures made.stdin == (command.script != "") && made.command == command.command && made.env == vars
    ensures Lower(made.status) == "created" || Lower(made.status) == "configured"
  {
    NameTells(id, command.isSupport);
    MountsTell(cfg, volumeName, made.mounts);
    hide ContainerName, ContainerLabels, VolumesOf, Mounted, HexValue, Lower, Protocol.RequestedVolumes;
  }

  lemma MountsTell(cfg: Config, volumeName: string, mounts: seq<Mount>)
    requires Mounted(Protocol.RequestedVolumes(cfg, volumeName), mounts)
    ensures VolumesOf(mounts).Keys == cfg.extraMounts.Keys + {volumeName}
    ensures forall v :: v in VolumesOf(mounts) ==>
      VolumesOf(mounts)[v] == if v == volumeName then cfg.workspace else cfg.extraMounts[v]
  {
    MountsReadBack(Protocol.RequestedVolumes(cfg, volumeName), mounts);
  }

  lemma NameTells(id: Uuid, support: bool)
    ensures var name := ContainerName(id, support);
      && |name| == 38
      && name[..28] == (if support then "automation-executor-support-" else "automation-executor-payload-")
      && forall i :: 0 <= i < 10 ==> HexValue(name[28 + i]) == Some(id[i])
  {
    var prefix := if support then "automation-executor-support-" else "automation-executor-payload-";
    assert NAME_PREFIX + "-" + RoleName(support) + "-" == prefix;
    assert ContainerName(id, support) == prefix + ShortForm(id);
    ShortDigits(id);
  }

  /** The protocol's judgement of a run, when the runtime answers as `env` says. */
  function Judged(env: Env, world: World, a: Adopted, end: RunEnd): CommandResult {
    var there := a.container in world.containers;
    match Protocol.JudgeEnd(a.result, there, end,
      if env.existsFails(a.container) then Protocol.CallFails else Protocol.CallWorks)
    case Judgement(r, _) => r
    case _ =>
      match Protocol.JudgeState(a.result, world.containers, a.container,
        if env.inspectFails(a.container) then Protocol.CallFails else Protocol.CallWorks)
      case Judgement(r, _) => r
      case _ => a.result
  }

  /** What the judgement of a run says. A run error is the result's error, whatever the
    * runtime holds; an aborted run is a kill. After a run without error: a failed existence
    * check is an error and a kill, a missing container a kill, a failed inspection an error;
    * an ended container gives its exit code, and any other leaves the result as it was.
    */
  lemma JudgedTells(env: Env, world: World, a: Adopted, end: RunEnd)
    ensures var r, r' := a.result, Judged(env, world, a, end);
      match end
      case Errored => r' == CommandResult(true, r.killed, 1, Some(RunFailure))
      case Aborted => r' == CommandResult(true, true, 1, r.error)
      case Completed =>
        if env.existsFails(a.container) then r' == CommandResult(true, true, 1, Some(CheckFailure))
        else if a.container !in world.containers then r' == CommandResult(true, true, 1, r.error)
        else if env.inspectFails(a.container) then r' == CommandResult(true, r.killed, 1, Some(InspectFailure))
        else
          var made := world.containers[a.container];
          if Lower(made.status) == "exited" || Lower(made.status) == "stopped" then
            r' == CommandResult(true, r.killed, made.exitCode, r.error)
          else r' == r
  { }

  /** An executor without options or without a workspace is refused before the runtime is asked anything. */
  method NewContainerExecutor(opts: Option<Config>,
      runtime: PodmanRuntime) returns (e: ContainerExecutor?, failed: bool)
    requires runtime.env.Valid()
    modifies runtime
    ensures opts.None? || opts.value.workspace == "" ==> e == null && failed && runtime.world == old(runtime.world)
    ensures opts.Some? && opts.value.workspace != "" ==>
      && e != null && fresh(e) && e.Valid() && e.runtime == runtime && e.cfg == opts.value
      && e.Value(failed) == Recovery.Init(opts.value, runtime.env, old(runtime.world))
      && Adopts(e.payloadCmd) && Adopts(e.supportCmd)
  {
    if opts.None? || opts.value.workspace == "" {
      return null, true;
    }
    e := new ContainerExecutor(opts.value, runtime);
    failed := e.Init();
  }

  /** Scanning adds to the attempts made before and to what failed before. */
  lemma ScanOneExtends(env: Env, sc: Scan, h: Handle, volume: string)
    ensures var one := ScanOne(env, Scan(sc.world, [], sc.adopted, false), h, volume);
      ScanOne(env, sc, h, volume) == Scan(one.world, sc.attempts + one.attempts, one.adopted, sc.failed || one.failed)
  { }

  /** A store right after recovery: only a finished command is the previous one, with its channel closed. */
  ghost predicate Adopts(store: CmdSyncStore)
    reads store, store.currentCmd, store.previousCmd
  {
    && (store.currentCmd != null ==> store.currentCmd.Sealed() && !store.currentCmd.closed)
    && (store.previousCmd != null ==> store.previousCmd.Sealed() && store.previousCmd.closed)
  }
}

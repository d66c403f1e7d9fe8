/** The executor as a step relation. Client threads call the executor and its
  * commands; every command may have background attach routines; all of them
  * share two command stores, the commands' result records and a container
  * runtime whose calls may fail. A step is one shared access: a lock, an
  * unlock, a read or write under a lock, or one runtime call.
  */
module Protocol {
  import opened Wrappers
  import opened Uuids
  import opened Labels
  import opened Containers
  import opened CommandResults
  import opened PodmanAttach

  type ThreadId = nat
  type CommandRef = nat
  type ContextId = nat

  datatype Origin = Executed | RecoveredRunning | RecoveredFinished

  /** How the post-run step of a routine judged its run. */
  datatype Verdict =
    | RunWasAborted | RunFailed | CheckFailed | ContainerGone | StateUnreadable | Ended(code: int) | NotEnded

  /** A command. The fields after `once` record its history. */
  datatype Command = Command(
    id: Uuid, support: bool, container: ContainerId, origin: Origin, result: CommandResult, once: bool,
    closes: nat, routines: nat, contexts: set<ContextId>, killAsked: bool, destroyAsked: bool,
    clearing: bool, clearFailed: bool, cleared: bool, verdict: Option<Verdict>)

  /** A created container whose command is not in the store yet. */
  datatype Created = Created(id: Uuid, container: ContainerId)

  /** The two slots of a command store. `inHand` records the container an
    * Execute has created and not pushed yet, while it holds the store's mutex.
    */
  datatype Slots = Slots(current: Option<CommandRef>, previous: Option<CommandRef>, inHand: Option<Created>)

  /** Every mutex: one per store, one per command. */
  datatype LockId = StoreLock(support: bool) | CommandLock(c: CommandRef)

  // --- program counters

  datatype Operation =
    | Execute(support: bool, context: ContextId)
    | Prepare
    | Destroy
    | GetRunning(support: bool)
    | GetState(c: CommandRef)
    | Wait(c: CommandRef)
    | AttachWait(c: CommandRef, context: ContextId)
    | Kill(c: CommandRef)

  /** `Saw` is the result a call returns; `waited` tells Wait and AttachWait from State. */
  datatype Reply =
    | NoReply | Refused | Failing | Done | Started(c: CommandRef)
    | Saw(c: CommandRef, result: CommandResult, waited: bool)

  datatype ExecutePoint =
    | ExLock | ExCheck | ExImage | ExCreate | ExPush(id: Uuid, container: ContainerId) | ExUnlock(reply: Reply)

  datatype DestroyPoint =
    | DsLock | DsStart | DsCurrentExists | DsCurrentDestroy | DsPreviousExists | DsPreviousDestroy
    | DsClear | DsUnlock | DsVolume

  datatype Intent = ToWait | ToAttach(context: ContextId) | ToKill

  datatype CallPoint =
    | ClCheckLock(intent: Intent) | ClCheckRead(intent: Intent) | ClOnce(context: ContextId) | ClDone
    | ClStateLock(waited: bool) | ClStateRead(waited: bool) | ClKillExists | ClKillDestroy

  datatype RoutinePoint =
    | RtBegin(isNew: bool) | RtExists | RtInspect | RtRun(mode: RunMode)
    | RtLock(end: RunEnd) | RtCheck(end: RunEnd) | RtState
    | RtClearLock | RtClearTest | RtClearExists | RtClearDestroy | RtClearForget | RtClearUnlock
    | RtUnlock | RtClose | RtDone

  datatype Pc =
    | Idle(reply: Reply)
    | Executing(support: bool, context: ContextId, ex: ExecutePoint)
    | Preparing
    | Destroying(support: bool, failing: bool, ds: DestroyPoint)
    | Getting(support: bool, locked: bool)
    | Calling(c: CommandRef, cl: CallPoint)
    | Routine(c: CommandRef, support: bool, context: ContextId, rt: RoutinePoint)

  /** What all threads share. `ended`: contexts that ended. `lost`: containers
    * forgotten by a Destroy whose runtime call failed. `outside`: containers
    * removed by others. `busy`: some thread is inside Prepare or Destroy, which
    * callers run one at a time.
    */
  datatype Shared = Shared(
    cfg: Config, world: World, payload: Slots, support: Slots, volumeName: string, cmds: seq<Command>,
    ended: set<ContextId>, lost: set<ContainerId>, outside: set<ContainerId>, busy: bool)

  /** `owner` maps each locked mutex to the thread that locked it. */
  datatype State = State(shared: Shared, owner: map<LockId, ThreadId>, threads: seq<Pc>)

  /** The outcome of the shared access a thread is about to make. */
  datatype Choice =
    | Begin(op: Operation)
    | Step
    | CallFails
    | CallWorks
    | Made(id: Uuid, container: ContainerId, made: Container)
    | VolumeMade(name: string)
    | RunReturns(end: RunEnd)

  datatype Label =
    | Thread(t: ThreadId, choice: Choice)
    | EndContext(context: ContextId)
    | ChangeStatus(container: ContainerId, status: string, exitCode: int)
    | RemoveOutside(container: ContainerId)

  datatype LockChange = Keep | Take(lock: LockId) | Free(lock: LockId)

  /** What one step of a thread does: the new shared part, its next program
    * counter, at most one lock taken or freed, at most one routine started.
    */
  datatype Effect = Effect(shared: Shared, pc: Pc, lock: LockChange, spawned: Option<Pc>)

  // --- helpers

  function SlotsOf(sh: Shared, support: bool): Slots {
    if support then sh.support else sh.payload
  }

  function WithSlots(sh: Shared, support: bool, slots: Slots): Shared {
    if support then sh.(support := slots) else sh.(payload := slots)
  }

  function WithCommand(sh: Shared, c: CommandRef, cmd: Command): Shared
    requires c < |sh.cmds|
  {
    sh.(cmds := sh.cmds[c := cmd])
  }

  function WithoutContainer(sh: Shared, id: ContainerId): Shared {
    sh.(world := sh.world.Without(id))
  }

  function Push(slots: Slots, c: CommandRef): Slots {
    Slots(Some(c), if slots.current.Some? then slots.current else slots.previous, None)
  }

  /** Forgets one command, wherever it is. */
  function Forget(slots: Slots, c: CommandRef): Slots {
    if slots.current == Some(c) then slots.(current := None)
    else if slots.previous == Some(c) then slots.(previous := None)
    else slots
  }

  function RequestedVolumes(cfg: Config, volumeName: string): map<string, string> {
    cfg.extraMounts[volumeName := cfg.workspace]
  }

  function NewCommand(id: Uuid, support: bool, container: ContainerId, context: ContextId): Command {
    Command(id, support, container, Executed, PENDING, false, 0, 1, {context}, false, false, false, false, false, None)
  }

  function Moved(sh: Shared, pc: Pc): Option<Effect> {
    Some(Effect(sh, pc, Keep, None))
  }

  function Locked(sh: Shared, pc: Pc, lock: LockId): Option<Effect> {
    Some(Effect(sh, pc, Take(lock), None))
  }

  function Unlocked(sh: Shared, pc: Pc, lock: LockId): Option<Effect> {
    Some(Effect(sh, pc, Free(lock), None))
  }

  // --- one step of each kind of thread

  function BeginStep(sh: Shared, op: Operation): Option<Effect> {
    match op
    case Execute(support, x) => Moved(sh, Executing(support, x, ExLock))
    case Prepare =>
      if sh.busy then None
      else if sh.volumeName != "" then Moved(sh, Idle(Done))
      else Moved(sh.(busy := true), Preparing)
    case Destroy => if sh.busy then None else Moved(sh.(busy := true), Destroying(false, false, DsLock))
    case GetRunning(support) => Moved(sh, Getting(support, false))
    case GetState(c) => if c >= |sh.cmds| then None else Moved(sh, Calling(c, ClStateLock(false)))
    case Wait(c) => if c >= |sh.cmds| then None else Moved(sh, Calling(c, ClCheckLock(ToWait)))
    case AttachWait(c, x) => if c >= |sh.cmds| then None else Moved(sh, Calling(c, ClCheckLock(ToAttach(x))))
    case Kill(c) => if c >= |sh.cmds| then None else Moved(sh, Calling(c, ClCheckLock(ToKill)))
  }

  ghost function ExecuteStep(sh: Shared, support: bool, x: ContextId, ex: ExecutePoint,
      choice: Choice): Option<Effect> {
    match ex
    case ExLock => Locked(sh, Executing(support, x, ExCheck), StoreLock(support))
    case ExCheck =>
      Moved(sh, Executing(support, x, if SlotsOf(sh, support).current.Some? then ExUnlock(Refused) else ExImage))
    case ExImage =>
      if choice.CallFails? then Moved(sh, Executing(support, x, ExUnlock(Failing)))
      else if choice.CallWorks? then Moved(sh, Executing(support, x, ExCreate))
      else None
    case ExCreate =>
      if choice.CallFails? then Moved(sh, Executing(support, x, ExUnlock(Failing)))
      else if choice.Made? && MayCreate(sh, support, choice.id, choice.container, choice.made) then
        Moved(WithSlots(sh, support, SlotsOf(sh, support).(inHand := Some(Created(choice.id, choice.container))))
            .(world := sh.world.With(choice.container, choice.made)),
          Executing(support, x, ExPush(choice.id, choice.container)))
      else None
    case ExPush(id, container) =>
      var c := |sh.cmds|;
      var pushed := WithSlots(sh, support, Push(SlotsOf(sh, support), c));
      Some(Effect(pushed.(cmds := sh.cmds + [NewCommand(id, support, container, x)]),
        Executing(support, x, ExUnlock(Started(c))), Keep, Some(Routine(c, support, x, RtBegin(true)))))
    case ExUnlock(reply) => Unlocked(sh, Idle(reply), StoreLock(support))
  }

  /** The runtime may create this container: fresh ids, the requested labels and volumes, ready to start. */
  ghost predicate MayCreate(sh: Shared, support: bool, id: Uuid, container: ContainerId, made: Container) {
    && !IsNil(id)
    && container !in sh.world.used
    && made.labels == ContainerLabels(sh.cfg, id, support)
    && Mounted(RequestedVolumes(sh.cfg, sh.volumeName), made.mounts)
    && IsStartable(made.status)
  }

  function PrepareStep(sh: Shared, choice: Choice): Option<Effect> {
    if choice.CallFails? then Moved(sh.(busy := false), Idle(Failing))
    else if choice.VolumeMade? && choice.name != "" && choice.name !in sh.world.volumes then
      Moved(sh.(busy := false, volumeName := choice.name,
          world := sh.world.WithVolume(choice.name, ResourceLabels(sh.cfg, map[]))),
        Idle(Done))
    else None
  }

  predicate OnCurrent(ds: DestroyPoint) {
    ds.DsCurrentExists? || ds.DsCurrentDestroy?
  }

  function AfterCurrent(slots: Slots): DestroyPoint {
    if slots.previous.Some? then DsPreviousExists else DsClear
  }

  /** The command a Destroy is dealing with. */
  function DestroyTarget(slots: Slots, ds: DestroyPoint): Option<CommandRef> {
    if OnCurrent(ds) then slots.current else slots.previous
  }

  /** One runtime call of a Destroy: a failed call leaves the container behind, to be forgotten. */
  function DestroyCallStep(sh: Shared, support: bool, failing: bool, ds: DestroyPoint, choice: Choice): Option<Effect> {
    var slots := SlotsOf(sh, support);
    var target := DestroyTarget(slots, ds);
    if target.None? || target.value >= |sh.cmds| then None
    else
      var c := target.value;
      var container := sh.cmds[c].container;
      var next := if OnCurrent(ds) then AfterCurrent(slots) else DsClear;
      if choice.CallFails? then
        Moved(sh.(lost := sh.lost + {container}), Destroying(support, true, next))
      else if !choice.CallWorks? then None
      else if ds.DsCurrentDestroy? || ds.DsPreviousDestroy? then
        Moved(WithoutContainer(sh, container), Destroying(support, failing, next))
      else if container !in sh.world.containers then Moved(sh, Destroying(support, failing, next))
      else Moved(WithCommand(sh, c, sh.cmds[c].(destroyAsked := true)),
        Destroying(support, failing, if OnCurrent(ds) then DsCurrentDestroy else DsPreviousDestroy))
  }

  function DestroyStep(sh: Shared, support: bool, failing: bool, ds: DestroyPoint, choice: Choice): Option<Effect> {
    match ds
    case DsLock => Locked(sh, Destroying(support, failing, DsStart), StoreLock(support))
    case DsStart =>
      var slots := SlotsOf(sh, support);
      Moved(sh, Destroying(support, failing, if slots.current.Some? then DsCurrentExists else AfterCurrent(slots)))
    case DsClear => Moved(WithSlots(sh, support, Slots(None, None, None)), Destroying(support, failing, DsUnlock))
    case DsUnlock =>
      Unlocked(sh, Destroying(true, failing, if support then DsVolume else DsLock), StoreLock(support))
    case DsVolume =>
      if sh.volumeName == "" then Moved(sh.(busy := false), Idle(if failing then Failing else Done))
      else if choice.CallFails? then Moved(sh.(busy := false), Idle(Failing))
      else if choice.CallWorks? then
        Moved(sh.(busy := false, volumeName := "", world := sh.world.WithoutVolume(sh.volumeName)),
          Idle(if failing then Failing else Done))
      else None
    case _ => DestroyCallStep(sh, support, failing, ds, choice)
  }

  function GetStep(sh: Shared, support: bool, locked: bool): Option<Effect> {
    if locked then
      var current := SlotsOf(sh, support).current;
      Unlocked(sh, Idle(if current.Some? then Started(current.value) else Done), StoreLock(support))
    else Locked(sh, Getting(support, true), StoreLock(support))
  }

  /** Where a call goes after reading the result under the command's mutex. */
  function AfterCheck(c: CommandRef, r: CommandResult, intent: Intent): Pc {
    match intent
    case ToKill => if r.finished then Idle(Done) else Calling(c, ClKillExists)
    case ToWait => if r.finished || r.error.Some? then Calling(c, ClStateLock(true)) else Calling(c, ClDone)
    case ToAttach(x) => if r.finished || r.error.Some? then Calling(c, ClStateLock(true)) else Calling(c, ClOnce(x))
  }

  function CallStep(sh: Shared, c: CommandRef, cl: CallPoint, choice: Choice): Option<Effect>
    requires c < |sh.cmds|
  {
    var cmd := sh.cmds[c];
    match cl
    case ClCheckLock(intent) => Locked(sh, Calling(c, ClCheckRead(intent)), CommandLock(c))
    case ClCheckRead(intent) => Unlocked(sh, AfterCheck(c, cmd.result, intent), CommandLock(c))
    case ClOnce(x) =>
      if cmd.once then Moved(sh, Calling(c, ClDone))
      else
        Some(Effect(
          WithCommand(sh, c, cmd.(once := true, routines := cmd.routines + 1, contexts := cmd.contexts + {x})),
          Calling(c, ClDone), Keep, Some(Routine(c, cmd.support, x, RtBegin(false)))))
    case ClDone => if cmd.closes == 0 then None else Moved(sh, Calling(c, ClStateLock(true)))
    case ClStateLock(waited) => Locked(sh, Calling(c, ClStateRead(waited)), CommandLock(c))
    case ClStateRead(waited) => Unlocked(sh, Idle(Saw(c, cmd.result, waited)), CommandLock(c))
    case ClKillExists =>
      if choice.CallFails? then Moved(sh, Idle(Failing))
      else if !choice.CallWorks? then None
      else if cmd.container !in sh.world.containers then Moved(sh, Idle(Done))
      else Moved(WithCommand(sh, c, cmd.(killAsked := true)), Calling(c, ClKillDestroy))
    case ClKillDestroy =>
      if choice.CallFails? then Moved(sh, Idle(Failing))
      else if !choice.CallWorks? then None
      else Moved(WithoutContainer(sh, cmd.container), Idle(Done))
  }

  /** Before the run of an adopted command: should it be started, attached to, or neither? */
  function ModeFor(status: string): RunMode {
    if IsStartable(status) then StartAndAttach else if IsRunning(status) then AttachOnly else NoRun
  }

  predicate InRun(rt: RoutinePoint) {
    rt.RtBegin? || rt.RtExists? || rt.RtInspect? || rt.RtRun?
  }

  function RunStep(sh: Shared, c: CommandRef, support: bool, x: ContextId, rt: RoutinePoint,
      choice: Choice): Option<Effect>
    requires c < |sh.cmds| && InRun(rt)
  {
    var cmd := sh.cmds[c];
    var present := cmd.container in sh.world.containers;
    match rt
    case RtBegin(isNew) =>
      Moved(sh, Routine(c, support, x,
        if isNew then RtRun(StartAndAttach) else if cmd.result.finished then RtRun(NoRun) else RtExists))
    case RtExists =>
      if choice.CallFails? then Moved(sh, Routine(c, support, x, RtRun(NoRun)))
      else if !choice.CallWorks? then None
      else Moved(sh, Routine(c, support, x, if present then RtInspect else RtRun(NoRun)))
    case RtInspect =>
      if choice.CallFails? then Moved(sh, Routine(c, support, x, RtRun(NoRun)))
      else if !choice.CallWorks? || !present then None
      else Moved(sh, Routine(c, support, x, RtRun(ModeFor(sh.world.containers[cmd.container].status))))
    case RtRun(mode) =>
      if !choice.RunReturns? || !MayReturn(mode, x in sh.ended, choice.end) then None
      else Moved(sh, Routine(c, support, x, RtLock(choice.end)))
  }

  predicate InJudge(rt: RoutinePoint) {
    rt.RtLock? || rt.RtCheck? || rt.RtState?
  }

  /** The answer to how a run ended: not yet known, look at the state too, or a verdict. */
  datatype Judgement = NoAnswer | StillThere | Judgement(result: CommandResult, verdict: Verdict)

  /** A failed existence check counts as an error and, since the container is then
    * taken as gone, as a kill.
    */
  function JudgeEnd(r: CommandResult, present: bool, end: RunEnd, choice: Choice): Judgement {
    match end
    case Aborted => Judgement(Killed(r), RunWasAborted)
    case Errored => Judgement(Failed(r, RunFailure), RunFailed)
    case Completed =>
      if choice.CallFails? then Judgement(Killed(Failed(r, CheckFailure)), CheckFailed)
      else if !choice.CallWorks? then NoAnswer
      else if present then StillThere
      else Judgement(Killed(r), ContainerGone)
  }

  function JudgeState(r: CommandResult, containers: map<ContainerId, Container>, id: ContainerId,
      choice: Choice): Judgement {
    if choice.CallFails? then Judgement(Failed(r, InspectFailure), StateUnreadable)
    else if !choice.CallWorks? || id !in containers then NoAnswer
    else
      var k := containers[id];
      Judgement(Inspected(r, k.status, k.exitCode), if IsEnded(k.status) then Ended(k.exitCode) else NotEnded)
  }

  function Settle(sh: Shared, c: CommandRef, support: bool, x: ContextId, j: Judgement): Option<Effect>
    requires c < |sh.cmds|
  {
    match j
    case NoAnswer => None
    case StillThere => Moved(sh, Routine(c, support, x, RtState))
    case Judgement(r, verdict) =>
      Moved(WithCommand(sh, c, sh.cmds[c].(result := r, verdict := Some(verdict), clearing := true)),
        Routine(c, support, x, RtClearLock))
  }

  /** The post-run step: under the command's mutex, judge the run and write the result. */
  function JudgeStep(sh: Shared, c: CommandRef, support: bool, x: ContextId, rt: RoutinePoint,
      choice: Choice): Option<Effect>
    requires c < |sh.cmds| && InJudge(rt)
  {
    var r := sh.cmds[c].result;
    var id := sh.cmds[c].container;
    match rt
    case RtLock(end) => Locked(sh, Routine(c, support, x, RtCheck(end)), CommandLock(c))
    case RtCheck(end) => Settle(sh, c, support, x, JudgeEnd(r, id in sh.world.containers, end, choice))
    case RtState => Settle(sh, c, support, x, JudgeState(r, sh.world.containers, id, choice))
  }

  function ClearingOver(sh: Shared, c: CommandRef, support: bool, x: ContextId, failed: bool): Option<Effect>
    requires c < |sh.cmds|
  {
    Moved(WithCommand(sh, c, sh.cmds[c].(clearing := false, clearFailed := failed || sh.cmds[c].clearFailed)),
      Routine(c, support, x, RtClearUnlock))
  }

  /** Still under the command's mutex: free the slot, then release both locks and close the channel. */
  function ClearStep(sh: Shared, c: CommandRef, support: bool, x: ContextId, rt: RoutinePoint,
      choice: Choice): Option<Effect>
    requires c < |sh.cmds| && !InRun(rt) && !InJudge(rt)
  {
    var cmd := sh.cmds[c];
    match rt
    case RtClearLock => Locked(sh, Routine(c, support, x, RtClearTest), StoreLock(support))
    case RtClearTest =>
      if SlotsOf(sh, support).current == Some(c) then Moved(sh, Routine(c, support, x, RtClearExists))
      else ClearingOver(sh, c, support, x, false)
    case RtClearExists =>
      if choice.CallFails? then ClearingOver(sh, c, support, x, true)
      else if !choice.CallWorks? then None
      else Moved(sh, Routine(c, support, x,
        if cmd.container in sh.world.containers then RtClearDestroy else RtClearForget))
    case RtClearDestroy =>
      if choice.CallFails? then ClearingOver(sh, c, support, x, true)
      else if !choice.CallWorks? then None
      else Moved(WithoutContainer(WithCommand(sh, c, cmd.(cleared := true)), cmd.container),
        Routine(c, support, x, RtClearForget))
    case RtClearForget =>
      ClearingOver(WithSlots(sh, support, Forget(SlotsOf(sh, support), c)), c, support, x, false)
    case RtClearUnlock => Unlocked(sh, Routine(c, support, x, RtUnlock), StoreLock(support))
    case RtUnlock => Unlocked(sh, Routine(c, support, x, RtClose), CommandLock(c))
    case RtClose => Moved(WithCommand(sh, c, cmd.(closes := cmd.closes + 1)), Routine(c, support, x, RtDone))
    case RtDone => None
  }

  /** What a thread at `pc` does next, locks permitting. */
  ghost function StepOf(sh: Shared, pc: Pc, choice: Choice): Option<Effect> {
    match pc
    case Idle(_) => if choice.Begin? then BeginStep(sh, choice.op) else None
    case Executing(support, x, ex) => ExecuteStep(sh, support, x, ex, choice)
    case Preparing => PrepareStep(sh, choice)
    case Destroying(support, failing, ds) => DestroyStep(sh, support, failing, ds, choice)
    case Getting(support, locked) => GetStep(sh, support, locked)
    case Calling(c, cl) => if c >= |sh.cmds| then None else CallStep(sh, c, cl, choice)
    case Routine(c, support, x, rt) =>
      if c >= |sh.cmds| then None
      else if InRun(rt) then RunStep(sh, c, support, x, rt, choice)
      else if InJudge(rt) then JudgeStep(sh, c, support, x, rt, choice)
      else ClearStep(sh, c, support, x, rt, choice)
  }

  function ChangeLock(owner: map<LockId, ThreadId>, t: ThreadId, change: LockChange): map<LockId, ThreadId> {
    match change
    case Keep => owner
    case Take(lock) => owner[lock := t]
    case Free(lock) => owner - {lock}
  }

  function Apply(s: State, t: ThreadId, e: Effect): State
    requires t < |s.threads|
  {
    State(e.shared, ChangeLock(s.owner, t, e.lock),
      s.threads[t := e.pc] + if e.spawned.Some? then [e.spawned.value] else [])
  }

  function OutsideStep(sh: Shared, l: Label): Option<Shared>
    requires !l.Thread?
  {
    match l
    case EndContext(x) => Some(sh.(ended := sh.ended + {x}))
    case ChangeStatus(id, status, exitCode) =>
      if id !in sh.world.containers then None
      else Some(sh.(world := sh.world.(containers :=
        sh.world.containers[id := sh.world.containers[id].(status := status, exitCode := exitCode)])))
    case RemoveOutside(id) =>
      if id !in sh.world.containers then None
      else Some(WithoutContainer(sh, id).(outside := sh.outside + {id}))
  }

  /** The step labelled `l`, or None when it cannot happen: a mutex is taken only while nobody holds it. */
  ghost function Next(s: State, l: Label): Option<State> {
    if l.Thread? then
      if l.t >= |s.threads| then None
      else
        match StepOf(s.shared, s.threads[l.t], l.choice) {
          case None => None
          case Some(e) => if e.lock.Take? && e.lock.lock in s.owner then None else Some(Apply(s, l.t, e))
        }
    else
      match OutsideStep(s.shared, l)
      case None => None
      case Some(sh) => Some(s.(shared := sh))
  }

  ghost function Run(s: State, labels: seq<Label>): Option<State>
    decreases |labels|
  {
    if labels == [] then Some(s)
    else match Next(s, labels[0])
      case None => None
      case Some(s') => Run(s', labels[1..])
  }

  // --- where runs start

  /** A command as recovery builds it. */
  predicate Recovered(cmd: Command) {
    && cmd.routines == 0 && cmd.contexts == {}
    && !cmd.killAsked && !cmd.destroyAsked && !cmd.clearing && !cmd.clearFailed && !cmd.cleared && cmd.verdict.None?
    && !cmd.result.killed && cmd.result.error.None?
    && match cmd.origin
       case Executed => false
       case RecoveredRunning => cmd.result == PENDING && !cmd.once && cmd.closes == 0
       case RecoveredFinished => cmd.result.finished && cmd.once && cmd.closes == 1
  }

  /** A store holds exactly the recovered commands of its role: one to resume or one already finished. */
  ghost predicate StartSlots(sh: Shared, support: bool) {
    var slots := SlotsOf(sh, support);
    && slots.inHand.None?
    && (slots.current.Some? ==>
          && slots.current.value < |sh.cmds|
          && sh.cmds[slots.current.value].support == support
          && sh.cmds[slots.current.value].origin == RecoveredRunning)
    && (slots.previous.Some? ==>
          && slots.previous.value < |sh.cmds|
          && sh.cmds[slots.previous.value].support == support
          && sh.cmds[slots.previous.value].origin == RecoveredFinished)
    && (forall c :: 0 <= c < |sh.cmds| && sh.cmds[c].support == support ==>
          slots.current == Some(c) || slots.previous == Some(c))
  }

  /** An executor just built by recovery, before any call. */
  ghost predicate Start(s: State) {
    var sh := s.shared;
    && sh.world.Valid()
    && s.owner == map[] && !sh.busy && sh.lost == {} && sh.outside == {}
    && (forall t :: 0 <= t < |s.threads| ==> s.threads[t] == Idle(NoReply))
    && (forall c :: 0 <= c < |sh.cmds| ==> Recovered(sh.cmds[c]) && sh.cmds[c].container in sh.world.containers)
    && (forall c, d :: 0 <= c < d < |sh.cmds| ==> sh.cmds[c].container != sh.cmds[d].container)
    && StartSlots(sh, false) && StartSlots(sh, true)
  }

  /** An executor that found no resources of its run. */
  ghost predicate FromScratch(s: State) {
    && Start(s)
    && s.shared.cmds == [] && s.shared.volumeName == ""
    && s.shared.world.Matching(QueryLabels(s.shared.cfg, false)) == {}
    && s.shared.world.Matching(QueryLabels(s.shared.cfg, true)) == {}
    && s.shared.world.MatchingVolumes(CommonLabels(s.shared.cfg)) == {}
  }
}

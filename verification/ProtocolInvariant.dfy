/** The inductive invariant of the executor protocol, in the rely-guarantee
  * style: what holds of the shared part, what each thread may assume at its
  * program counter, what a step promises the other threads, and what a mutex
  * protects while nobody holds it.
  */
module ProtocolInvariant {
  import opened Wrappers
  import opened Containers
  import opened CommandResults
  import opened PodmanAttach
  import opened Protocol

  // --- what a program counter says on its own

  /** The routine has judged its run and still has to free the slot. */
  predicate Clearing(rt: RoutinePoint) {
    rt.RtClearLock? || rt.RtClearTest? || rt.RtClearExists? || rt.RtClearDestroy? || rt.RtClearForget?
  }

  predicate Unjudged(rt: RoutinePoint) {
    InRun(rt) || InJudge(rt)
  }

  /** Only locks to release and the channel to close are left. */
  predicate PastClearing(rt: RoutinePoint) {
    rt.RtClearUnlock? || rt.RtUnlock? || rt.RtClose? || rt.RtDone?
  }

  predicate HoldsStore(rt: RoutinePoint) {
    rt.RtClearTest? || rt.RtClearExists? || rt.RtClearDestroy? || rt.RtClearForget? || rt.RtClearUnlock?
  }

  predicate HoldsCommand(rt: RoutinePoint) {
    rt.RtCheck? || rt.RtState? || Clearing(rt) || rt.RtClearUnlock? || rt.RtUnlock?
  }

  /** At most one mutex of each kind. */
  datatype Locks = Locks(store: Option<bool>, command: Option<CommandRef>)
  {
    predicate Has(l: LockId) {
      match l
      case StoreLock(support) => store == Some(support)
      case CommandLock(c) => command == Some(c)
    }

    function Add(l: LockId): Locks {
      match l
      case StoreLock(support) => this.(store := Some(support))
      case CommandLock(c) => this.(command := Some(c))
    }

    function Drop(l: LockId): Locks {
      match l
      case StoreLock(_) => this.(store := None)
      case CommandLock(_) => this.(command := None)
    }

    predicate Apart(other: Locks) {
      (store.None? || store != other.store) && (command.None? || command != other.command)
    }
  }

  /** The mutexes a thread holds between its locks and unlocks. */
  function Held(pc: Pc): Locks {
    match pc
    case Executing(support, _, ex) => Locks(if ex.ExLock? then None else Some(support), None)
    case Destroying(support, _, ds) => Locks(if ds.DsLock? || ds.DsVolume? then None else Some(support), None)
    case Getting(support, locked) => Locks(if locked then Some(support) else None, None)
    case Calling(c, cl) => Locks(None, if cl.ClCheckRead? || cl.ClStateRead? then Some(c) else None)
    case Routine(c, support, _, rt) =>
      Locks(if HoldsStore(rt) then Some(support) else None, if HoldsCommand(rt) then Some(c) else None)
    case _ => Locks(None, None)
  }

  predicate Holds(pc: Pc, l: LockId) {
    Held(pc).Has(l)
  }

  /** The mutex a thread is about to lock. */
  function Wanted(pc: Pc): Option<LockId> {
    match pc
    case Executing(support, _, ExLock) => Some(StoreLock(support))
    case Destroying(support, _, DsLock) => Some(StoreLock(support))
    case Getting(support, false) => Some(StoreLock(support))
    case Calling(c, ClCheckLock(_)) => Some(CommandLock(c))
    case Calling(c, ClStateLock(_)) => Some(CommandLock(c))
    case Routine(c, _, _, RtLock(_)) => Some(CommandLock(c))
    case Routine(_, support, _, RtClearLock) => Some(StoreLock(support))
    case _ => None
  }

  /** A routine of `c` that has not finished. */
  predicate IsLive(pc: Pc, c: CommandRef) {
    pc.Routine? && pc.c == c && !pc.rt.RtDone?
  }

  function Live(threads: seq<Pc>, c: CommandRef): nat {
    if threads == [] then 0
    else Live(threads[..|threads| - 1], c) + if IsLive(threads[|threads| - 1], c) then 1 else 0
  }

  // --- commands

  /** AttachWait ran a second routine for a command that Execute already attached. */
  predicate Doubled(cmd: Command) {
    cmd.origin.Executed? && cmd.once
  }

  /** Recovery already settled it, or a routine has judged its run. */
  predicate Settled(cmd: Command) {
    cmd.origin.RecoveredFinished? || cmd.verdict.Some?
  }

  /** The result each verdict leads to. */
  function ResultOf(v: Verdict): CommandResult {
    match v
    case RunWasAborted => CommandResult(true, true, 1, None)
    case RunFailed => CommandResult(true, false, 1, Some(RunFailure))
    case CheckFailed => CommandResult(true, true, 1, Some(CheckFailure))
    case ContainerGone => CommandResult(true, true, 1, None)
    case StateUnreadable => CommandResult(true, false, 1, Some(InspectFailure))
    case Ended(code) => CommandResult(true, false, code, None)
    case NotEnded => PENDING
  }

  function Count(b: bool): nat {
    if b then 1 else 0
  }

  predicate CommandOk(cmd: Command) {
    && (!cmd.result.finished ==> cmd.result == PENDING)
    && (cmd.result.killed || cmd.result.error.Some? ==> cmd.result.finished)
    && (cmd.origin.RecoveredFinished? ==>
          cmd.once && cmd.result.finished && !cmd.result.killed && cmd.result.error.None? && cmd.verdict.None?)
    && cmd.routines == Count(cmd.origin.Executed?) + Count(cmd.once && !cmd.origin.RecoveredFinished?)
    && (!Doubled(cmd) && cmd.verdict.Some? ==> cmd.result == ResultOf(cmd.verdict.value))
    && (cmd.verdict.None? && !cmd.origin.RecoveredFinished? ==> cmd.result == PENDING)
    && (cmd.clearing || cmd.cleared ==> cmd.verdict.Some?)
    && (cmd.closes > 0 ==> Settled(cmd))
    && (cmd.clearFailed ==> cmd.verdict.Some?)
    && (cmd.verdict.Some? ==> cmd.routines > 0)
  }

  // --- the shared part

  function SlotsFor(payload: Slots, support: Slots, isSupport: bool): Slots {
    if isSupport then support else payload
  }

  ghost predicate SlotsOk(cmds: seq<Command>, slots: Slots, support: bool, used: set<ContainerId>) {
    && (slots.current.Some? ==>
          && slots.current.value < |cmds|
          && cmds[slots.current.value].support == support
          && !cmds[slots.current.value].origin.RecoveredFinished?)
    && (slots.previous.Some? ==>
          && slots.previous.value < |cmds|
          && cmds[slots.previous.value].support == support
          && cmds[slots.previous.value].origin.RecoveredFinished?)
    && (slots.inHand.Some? ==> slots.current.None? && slots.inHand.value.container in used)
  }

  predicate IsInHand(hand: Option<Created>, id: ContainerId) {
    hand.Some? && hand.value.container == id
  }

  /** No two commands share a container, and none has one still in an Execute's hands. */
  ghost predicate ContainersApart(cmds: seq<Command>, hand: Option<Created>, hand': Option<Created>,
      used: set<ContainerId>) {
    && (forall c :: 0 <= c < |cmds| ==> cmds[c].container in used)
    && (forall c, d :: 0 <= c < d < |cmds| ==> cmds[c].container != cmds[d].container)
    && (forall c :: 0 <= c < |cmds| ==> !IsInHand(hand, cmds[c].container) && !IsInHand(hand', cmds[c].container))
    && (hand.Some? ==> !IsInHand(hand', hand.value.container))
  }

  /** The container in an Execute's hands still exists, unless others removed it. */
  predicate HandThere(hand: Option<Created>, containers: map<ContainerId, Container>, outside: set<ContainerId>) {
    hand.Some? ==> hand.value.container in containers || hand.value.container in outside
  }

  predicate InSlots(slots: Slots, c: CommandRef) {
    slots.current == Some(c) || slots.previous == Some(c)
  }

  /** The container no longer exists, or a Destroy gave up on it. */
  predicate Given(id: ContainerId, containers: map<ContainerId, Container>, lost: set<ContainerId>) {
    id !in containers || id in lost
  }

  /** A container that still exists belongs to a command in a slot, or was lost by a failing Destroy. */
  ghost predicate Accounted(cmds: seq<Command>, payload: Slots, support: Slots,
    containers: map<ContainerId, Container>, lost: set<ContainerId>)
  {
    forall c :: 0 <= c < |cmds| ==>
      InSlots(SlotsFor(payload, support, cmds[c].support), c) || Given(cmds[c].container, containers, lost)
  }

  predicate IsCurrent(cmd: Command, c: CommandRef, payload: Slots, support: Slots) {
    SlotsFor(payload, support, cmd.support).current == Some(c)
  }

  /** A finished command has left its slot, is being cleared, or could not be cleared. */
  ghost predicate FinishedLeave(cmds: seq<Command>, payload: Slots, support: Slots) {
    forall c :: 0 <= c < |cmds| && cmds[c].result.finished && IsCurrent(cmds[c], c, payload, support) ==>
      cmds[c].clearing || cmds[c].clearFailed
  }

  /** Once its channel is closed, a command has left its slot or could not be cleared. */
  ghost predicate ClosedLeave(cmds: seq<Command>, payload: Slots, support: Slots) {
    forall c :: 0 <= c < |cmds| && cmds[c].closes > 0 && IsCurrent(cmds[c], c, payload, support) ==>
      cmds[c].clearFailed
  }

  predicate SlotLeft(sh: Shared, c: CommandRef)
    requires c < |sh.cmds|
  {
    !IsCurrent(sh.cmds[c], c, sh.payload, sh.support) || sh.cmds[c].clearFailed
  }

  /** Somebody asked for the end of the command's container. */
  predicate Requested(cmd: Command, outside: set<ContainerId>) {
    cmd.killAsked || cmd.destroyAsked || cmd.container in outside
  }

  ghost predicate ContextEnded(cmd: Command, ended: set<ContextId>) {
    exists x :: x in cmd.contexts && x in ended
  }

  ghost predicate AttributedOne(cmd: Command, containers: map<ContainerId, Container>,
    outside: set<ContainerId>, ended: set<ContextId>)
  {
    && (cmd.container !in containers ==> Requested(cmd, outside) || cmd.cleared)
    && (cmd.verdict == Some(RunWasAborted) ==> ContextEnded(cmd, ended))
    && (cmd.verdict == Some(ContainerGone) && !Doubled(cmd) ==> Requested(cmd, outside))
  }

  ghost predicate Attributed(cmds: seq<Command>, containers: map<ContainerId, Container>,
    outside: set<ContainerId>, ended: set<ContextId>)
  {
    forall c :: 0 <= c < |cmds| ==> AttributedOne(cmds[c], containers, outside, ended)
  }

  ghost predicate CommandsOk(cmds: seq<Command>) {
    forall c :: 0 <= c < |cmds| ==> CommandOk(cmds[c])
  }

  ghost predicate SharedInv(sh: Shared) {
    && sh.world.Valid()
    && SlotsOk(sh.cmds, sh.payload, false, sh.world.used)
    && SlotsOk(sh.cmds, sh.support, true, sh.world.used)
    && ContainersApart(sh.cmds, sh.payload.inHand, sh.support.inHand, sh.world.used)
    && HandThere(sh.payload.inHand, sh.world.containers, sh.outside)
    && HandThere(sh.support.inHand, sh.world.containers, sh.outside)
    && CommandsOk(sh.cmds)
    && Accounted(sh.cmds, sh.payload, sh.support, sh.world.containers, sh.lost)
    && FinishedLeave(sh.cmds, sh.payload, sh.support)
    && ClosedLeave(sh.cmds, sh.payload, sh.support)
    && Attributed(sh.cmds, sh.world.containers, sh.outside, sh.ended)
  }

  // --- what each thread relies on

  /** What an Execute is about to answer: a command of its role is current, or it just made
    * one, or it could not.
    */
  ghost predicate AnswerOk(sh: Shared, support: bool, x: ContextId, reply: Reply) {
    var current := SlotsOf(sh, support).current;
    match reply
    case Refused => current.Some?
    case Failing => current.None?
    case Started(c) =>
      && current == Some(c) && c < |sh.cmds|
      && sh.cmds[c].support == support && sh.cmds[c].origin.Executed? && x in sh.cmds[c].contexts
    case _ => false
  }

  ghost predicate ExecuteOk(sh: Shared, support: bool, x: ContextId, ex: ExecutePoint) {
    var slots := SlotsOf(sh, support);
    && (ex.ExImage? || ex.ExCreate? ==> slots.current.None?)
    && (ex.ExPush? ==> slots.inHand == Some(Created(ex.id, ex.container)))
    && (!ex.ExLock? && !ex.ExPush? ==> slots.inHand.None?)
    && (ex.ExUnlock? ==> AnswerOk(sh, support, x, ex.reply))
  }

  /** The container no longer exists, or the Destroy that gave up on it knows. */
  predicate GivenUp(sh: Shared, c: CommandRef, failing: bool)
    requires c < |sh.cmds|
  {
    || sh.cmds[c].container !in sh.world.containers
    || (failing && sh.cmds[c].container in sh.lost)
  }

  ghost predicate DestroyOk(sh: Shared, support: bool, failing: bool, ds: DestroyPoint) {
    var slots := SlotsOf(sh, support);
    && (!ds.DsLock? && !ds.DsVolume? ==> slots.inHand.None?)
    && (OnCurrent(ds) ==> slots.current.Some?)
    && (ds.DsPreviousExists? || ds.DsPreviousDestroy? ==> slots.previous.Some?)
    && (ds.DsPreviousExists? || ds.DsPreviousDestroy? || ds.DsClear? ==>
          slots.current.Some? ==> slots.current.value < |sh.cmds| && GivenUp(sh, slots.current.value, failing))
    && (ds.DsClear? ==>
          slots.previous.Some? ==> slots.previous.value < |sh.cmds| && GivenUp(sh, slots.previous.value, failing))
    && (ds.DsCurrentDestroy? ==> slots.current.value < |sh.cmds| && sh.cmds[slots.current.value].destroyAsked)
    && (ds.DsPreviousDestroy? ==> slots.previous.value < |sh.cmds| && sh.cmds[slots.previous.value].destroyAsked)
  }

  ghost predicate CallOk(sh: Shared, c: CommandRef, cl: CallPoint) {
    && c < |sh.cmds|
    && (cl.ClCheckRead? || cl.ClStateRead? ==> !sh.cmds[c].clearing)
    && (cl.ClKillDestroy? ==> sh.cmds[c].killAsked)
    && ((cl.ClStateLock? || cl.ClStateRead?) && cl.waited ==> Settled(sh.cmds[c]))
  }

  ghost predicate RoutineOk(sh: Shared, c: CommandRef, support: bool, x: ContextId, rt: RoutinePoint) {
    && c < |sh.cmds|
    && sh.cmds[c].support == support
    && !sh.cmds[c].origin.RecoveredFinished?
    && x in sh.cmds[c].contexts && sh.cmds[c].routines > 0
    && (rt == RtLock(Aborted) || rt == RtCheck(Aborted) ==> x in sh.ended)
    && (HoldsCommand(rt) ==> sh.cmds[c].clearing == Clearing(rt))
    && (Unjudged(rt) ==> Doubled(sh.cmds[c]) || sh.cmds[c].verdict.None?)
    && (!Unjudged(rt) ==> sh.cmds[c].verdict.Some?)
    && (sh.cmds[c].clearFailed ==> Doubled(sh.cmds[c]) || PastClearing(rt))
    && (HoldsStore(rt) ==> SlotsOf(sh, support).inHand.None?)
    && (rt.RtClearExists? || rt.RtClearDestroy? || rt.RtClearForget? ==> SlotsOf(sh, support).current == Some(c))
    && (rt.RtClearForget? ==> sh.cmds[c].container !in sh.world.containers)
    && (!Unjudged(rt) && !Clearing(rt) ==> SlotLeft(sh, c))
  }

  ghost predicate ThreadOk(sh: Shared, pc: Pc) {
    match pc
    case Idle(reply) =>
      reply.Saw? ==>
        && reply.c < |sh.cmds|
        && (reply.result.finished ==> SlotLeft(sh, reply.c))
        && (reply.waited || reply.result.finished ==>
             Settled(sh.cmds[reply.c])
             && (Doubled(sh.cmds[reply.c]) || reply.result == sh.cmds[reply.c].result))
    case Executing(support, x, ex) => ExecuteOk(sh, support, x, ex)
    case Preparing => true
    case Destroying(support, failing, ds) => DestroyOk(sh, support, failing, ds)
    case Getting(support, locked) => locked ==> SlotsOf(sh, support).inHand.None?
    case Calling(c, cl) => CallOk(sh, c, cl)
    case Routine(c, support, x, rt) => RoutineOk(sh, c, support, x, rt)
  }

  /** What a mutex protects, true while nobody holds it. */
  ghost predicate FreeOk(sh: Shared, lock: LockId) {
    match lock
    case StoreLock(support) => SlotsOf(sh, support).inHand.None?
    case CommandLock(c) => c < |sh.cmds| ==> !sh.cmds[c].clearing
  }

  // --- what a step promises

  /** A routine of `c` about to write its result, under the command's mutex. */
  predicate IsJudging(pc: Pc, c: CommandRef) {
    pc.Routine? && pc.c == c && (pc.rt.RtCheck? || pc.rt.RtState?)
  }

  /** The thread is inside a Kill of `c`. */
  predicate InKill(pc: Pc, c: CommandRef) {
    pc.Calling? && pc.c == c
    && (pc.cl == ClCheckLock(ToKill) || pc.cl == ClCheckRead(ToKill) || pc.cl.ClKillExists? || pc.cl.ClKillDestroy?)
  }

  /** An AttachWait that read `c` unfinished and is about to run its once. */
  predicate AtOnce(pc: Pc, c: CommandRef) {
    pc.Calling? && pc.c == c && pc.cl.ClOnce?
  }

  /** Fixed fields stay and history grows. */
  predicate Evolves(a: Command, b: Command) {
    && a.id == b.id && a.support == b.support && a.container == b.container && a.origin == b.origin
    && (a.result.finished ==> b.result.finished)
    && (a.once ==> b.once) && (a.killAsked ==> b.killAsked) && (a.destroyAsked ==> b.destroyAsked)
    && (a.clearFailed ==> b.clearFailed) && (a.cleared ==> b.cleared) && (a.verdict.Some? ==> b.verdict.Some?)
    && a.contexts <= b.contexts && a.closes <= b.closes && a.routines <= b.routines
  }

  /** Only a routine of the command judges, clears or closes it, and only a Kill or Destroy records a request. */
  predicate Permitted(a: Command, b: Command, pc: Pc, c: CommandRef) {
    && (a.result != b.result || a.verdict != b.verdict ==> IsJudging(pc, c) && (Doubled(a) || !Settled(a)))
    && (a.closes != b.closes || a.cleared != b.cleared ==> IsLive(pc, c))
    && (a.clearing != b.clearing || a.clearFailed != b.clearFailed ==> IsLive(pc, c) && Holds(pc, CommandLock(c)))
    && (a.killAsked != b.killAsked ==> InKill(pc, c))
    && (a.once != b.once ==> AtOnce(pc, c))
    && (a.contexts != b.contexts ==> AtOnce(pc, c) && b.contexts == a.contexts + {pc.cl.context})
    && (a.destroyAsked != b.destroyAsked ==> pc.Destroying?)
  }

  ghost predicate SlotsPromise(sh: Shared, sh': Shared, support: bool, pc: Pc) {
    var a, b := SlotsOf(sh, support), SlotsOf(sh', support);
    && (a != b ==> Holds(pc, StoreLock(support)))
    && (b.current == a.current || b.current.None? || b.current.value >= |sh.cmds|)
  }

  ghost predicate WorldPromise(sh: Shared, sh': Shared) {
    && sh.world.used <= sh'.world.used
    && (forall id :: id in sh'.world.containers && id in sh.world.used ==> id in sh.world.containers)
    && sh.lost <= sh'.lost && sh.ended <= sh'.ended && sh.outside <= sh'.outside
  }

  ghost predicate CommandsPromise(sh: Shared, sh': Shared, pc: Pc) {
    && |sh.cmds| <= |sh'.cmds|
    && (forall c :: 0 <= c < |sh.cmds| ==>
          Evolves(sh.cmds[c], sh'.cmds[c]) && Permitted(sh.cmds[c], sh'.cmds[c], pc, c))
    && (forall c :: |sh.cmds| <= c < |sh'.cmds| ==>
          pc.Executing? && sh'.cmds[c].contexts == {pc.context}
            && sh'.cmds[c].origin.Executed? && sh'.cmds[c].verdict.None? && !sh'.cmds[c].once
            && !sh'.cmds[c].clearing && !sh'.cmds[c].clearFailed
            && !sh'.cmds[c].killAsked && !sh'.cmds[c].destroyAsked)
  }

  ghost predicate Promise(sh: Shared, sh': Shared, pc: Pc) {
    && sh.cfg == sh'.cfg
    && CommandsPromise(sh, sh', pc)
    && SlotsPromise(sh, sh', false, pc)
    && SlotsPromise(sh, sh', true, pc)
    && WorldPromise(sh, sh')
  }

  // --- locks and routine counts

  /** A mutex names the one thread whose program counter lies between its lock and its unlock. */
  ghost predicate LocksAgree(owner: map<LockId, ThreadId>, threads: seq<Pc>) {
    && (forall l :: l in owner ==> owner[l] < |threads| && Holds(threads[owner[l]], l))
    && (forall t, l :: 0 <= t < |threads| && Holds(threads[t], l) ==> l in owner && owner[l] == t)
  }

  /** Routines started are routines still live plus channels closed. */
  ghost predicate CountsAgree(sh: Shared, threads: seq<Pc>) {
    forall c :: 0 <= c < |sh.cmds| ==>
      Live(threads, c) + sh.cmds[c].closes == sh.cmds[c].routines + Count(sh.cmds[c].origin.RecoveredFinished?)
  }

  ghost predicate Inv(s: State) {
    && SharedInv(s.shared)
    && LocksAgree(s.owner, s.threads)
    && CountsAgree(s.shared, s.threads)
    && (forall t :: 0 <= t < |s.threads| ==> ThreadOk(s.shared, s.threads[t]))
    && (forall l :: l !in s.owner ==> FreeOk(s.shared, l))
  }
}

/** Every step keeps the invariant: the generic lemmas about locks, routine
  * counts and interference, used once for all kinds of step.
  */
module Interference {
  import opened Wrappers
  import opened Protocol
  import opened ProtocolInvariant

  /** The step holds on to the right mutexes, and a new routine starts with none. */
  ghost predicate LockDiscipline(pc: Pc, e: Effect) {
    && (match e.lock
        case Keep => Held(e.pc) == Held(pc)
        case Take(l) => Held(e.pc) == Held(pc).Add(l) && Held(pc) == Held(e.pc).Drop(l) && Wanted(pc) == Some(l)
        case Free(l) => Held(e.pc) == Held(pc).Drop(l) && Holds(pc, l))
    && (e.spawned.Some? ==> Held(e.spawned.value) == Locks(None, None))
  }

  lemma LocksKept(s: State, t: ThreadId, e: Effect)
    requires t < |s.threads| && LocksAgree(s.owner, s.threads) && LockDiscipline(s.threads[t], e)
    requires e.lock.Take? ==> e.lock.lock !in s.owner
    ensures LocksAgree(Apply(s, t, e).owner, Apply(s, t, e).threads)
  {
    var s' := Apply(s, t, e);
    hide StepOf, Held, LockDiscipline;
    forall l | l in s'.owner
      ensures s'.owner[l] < |s'.threads| && Holds(s'.threads[s'.owner[l]], l)
    {
      OwnerHolds(s, t, e, l);
    }
    forall u, l | 0 <= u < |s'.threads| && Holds(s'.threads[u], l)
      ensures l in s'.owner && s'.owner[l] == u
    {
      HolderOwns(s, t, e, u, l);
    }
  }

  lemma OwnerHolds(s: State, t: ThreadId, e: Effect, l: LockId)
    requires t < |s.threads| && LocksAgree(s.owner, s.threads) && LockDiscipline(s.threads[t], e)
    requires e.lock.Take? ==> e.lock.lock !in s.owner
    requires l in Apply(s, t, e).owner
    ensures var s' := Apply(s, t, e); s'.owner[l] < |s'.threads| && Holds(s'.threads[s'.owner[l]], l)
  {
    assert e.lock == Take(l) || l in s.owner;
  }

  lemma HolderOwns(s: State, t: ThreadId, e: Effect, u: ThreadId, l: LockId)
    requires t < |s.threads| && LocksAgree(s.owner, s.threads) && LockDiscipline(s.threads[t], e)
    requires e.lock.Take? ==> e.lock.lock !in s.owner
    requires u < |Apply(s, t, e).threads| && Holds(Apply(s, t, e).threads[u], l)
    ensures var s' := Apply(s, t, e); l in s'.owner && s'.owner[l] == u
  {
    var s' := Apply(s, t, e);
    if u == t {
      assert s'.threads[u] == e.pc;
      StepperHolds(s.threads[t], e, l);
    } else {
      var mover := s.threads[t];
      SpawnedHoldsNothing(mover, e, l);
      assert u < |s.threads| && s'.threads[u] == s.threads[u];
      assert Holds(s.threads[u], l);
      assert l in s.owner && s.owner[l] == u;
      assert !Holds(mover, l);
      StepperLetsGo(mover, e, l);
      assert e.lock != Free(l);
    }
  }

  /** What the stepping thread holds afterwards it took just now or held before. */
  lemma StepperHolds(pc: Pc, e: Effect, l: LockId)
    requires LockDiscipline(pc, e) && Holds(e.pc, l)
    ensures match e.lock
      case Keep => Holds(pc, l)
      case Take(lock) => l == lock || Holds(pc, l)
      case Free(lock) => l != lock && Holds(pc, l)
  { }

  /** The stepping thread frees only what it holds. */
  lemma StepperLetsGo(pc: Pc, e: Effect, l: LockId)
    requires LockDiscipline(pc, e)
    ensures e.lock == Free(l) ==> Holds(pc, l)
  { }

  lemma SpawnedHoldsNothing(pc: Pc, e: Effect, l: LockId)
    requires LockDiscipline(pc, e)
    ensures e.spawned.Some? ==> !Holds(e.spawned.value, l)
  { }

  /** No two threads hold the same mutex. */
  lemma HoldersDiffer(owner: map<LockId, ThreadId>, threads: seq<Pc>, t: ThreadId, u: ThreadId)
    requires LocksAgree(owner, threads) && t < |threads| && u < |threads| && t != u
    ensures Held(threads[t]).Apart(Held(threads[u]))
  {
    forall l | Holds(threads[t], l) ensures !Holds(threads[u], l) {
      assert owner[l] == t;
    }
    var held := Held(threads[t]);
    if held.store.Some? {
      assert Holds(threads[t], StoreLock(held.store.value));
    }
    if held.command.Some? {
      assert Holds(threads[t], CommandLock(held.command.value));
    }
  }

  // --- counting live routines

  lemma {:induction false} LiveAppend(threads: seq<Pc>, pc: Pc, c: CommandRef)
    ensures Live(threads + [pc], c) == Live(threads, c) + Count(IsLive(pc, c))
  {
    assert (threads + [pc])[..|threads|] == threads;
  }

  lemma {:induction false} LiveUpdate(threads: seq<Pc>, t: ThreadId, pc: Pc, c: CommandRef)
    requires t < |threads|
    ensures Live(threads[t := pc], c) == Live(threads, c) - Count(IsLive(threads[t], c)) + Count(IsLive(pc, c))
    decreases |threads|
  {
    var n := |threads| - 1;
    if t == n {
      assert threads[t := pc][..n] == threads[..n];
    } else {
      LiveUpdate(threads[..n], t, pc, c);
      assert threads[t := pc][..n] == threads[..n][t := pc];
    }
  }

  /** Two live routines of one command count as two. */
  lemma {:induction false} LiveTwo(threads: seq<Pc>, t: ThreadId, u: ThreadId, c: CommandRef)
    requires t < |threads| && u < |threads| && t != u && IsLive(threads[t], c) && IsLive(threads[u], c)
    ensures Live(threads, c) >= 2
    decreases |threads|
  {
    var n := |threads| - 1;
    if t == n {
      LiveOne(threads[..n], u, c);
    } else if u == n {
      LiveOne(threads[..n], t, c);
    } else {
      LiveTwo(threads[..n], t, u, c);
    }
  }

  lemma {:induction false} LiveOne(threads: seq<Pc>, t: ThreadId, c: CommandRef)
    requires t < |threads| && IsLive(threads[t], c)
    ensures Live(threads, c) >= 1
    decreases |threads|
  {
    var n := |threads| - 1;
    if t != n {
      LiveOne(threads[..n], t, c);
    }
  }

  lemma {:induction false} LiveNone(threads: seq<Pc>, c: CommandRef)
    requires forall t :: 0 <= t < |threads| ==> !IsLive(threads[t], c)
    ensures Live(threads, c) == 0
    decreases |threads|
  {
    if threads != [] {
      LiveNone(threads[..|threads| - 1], c);
    }
  }

  /** What a step must do for the routine count of command `c` to stay right. */
  ghost predicate CountDiscipline(sh: Shared, pc: Pc, e: Effect) {
    && |sh.cmds| <= |e.shared.cmds|
    && (forall c :: 0 <= c < |e.shared.cmds| ==>
          var before := if c < |sh.cmds| then sh.cmds[c].routines - sh.cmds[c].closes else 0;
          e.shared.cmds[c].routines - e.shared.cmds[c].closes - before
            == Count(IsLive(e.pc, c)) - Count(IsLive(pc, c)) + Count(e.spawned.Some? && IsLive(e.spawned.value, c)))
    && (forall c :: 0 <= c < |sh.cmds| ==> e.shared.cmds[c].origin == sh.cmds[c].origin)
    && (forall c :: |sh.cmds| <= c < |e.shared.cmds| ==> e.shared.cmds[c].origin.Executed?)
  }

  lemma CountsKept(s: State, t: ThreadId, e: Effect)
    requires t < |s.threads| && CountsAgree(s.shared, s.threads) && CountDiscipline(s.shared, s.threads[t], e)
    requires forall u :: 0 <= u < |s.threads| && s.threads[u].Routine? ==> s.threads[u].c < |s.shared.cmds|
    ensures CountsAgree(e.shared, Apply(s, t, e).threads)
  {
    forall c | 0 <= c < |e.shared.cmds|
      ensures Live(Apply(s, t, e).threads, c) + e.shared.cmds[c].closes
           == e.shared.cmds[c].routines + Count(e.shared.cmds[c].origin.RecoveredFinished?)
    {
      LiveUpdate(s.threads, t, e.pc, c);
      if e.spawned.Some? {
        LiveAppend(s.threads[t := e.pc], e.spawned.value, c);
      } else {
        assert s.threads[t := e.pc] + [] == s.threads[t := e.pc];
      }
      if c >= |s.shared.cmds| {
        LiveNone(s.threads, c);
      }
    }
  }

  // --- interference

  /** Two live routines of a command exist only when it was attached twice. */
  lemma SoleRoutine(s: State, t: ThreadId, u: ThreadId, c: CommandRef)
    requires CountsAgree(s.shared, s.threads) && CommandsOk(s.shared.cmds) && c < |s.shared.cmds|
    requires t < |s.threads| && u < |s.threads| && t != u
    requires IsLive(s.threads[t], c) && IsLive(s.threads[u], c)
    ensures Doubled(s.shared.cmds[c])
  {
    LiveTwo(s.threads, t, u, c);
  }

  /** What a thread at `pc` relies on survives a step of another thread at `other`. */
  lemma Stable(sh: Shared, sh': Shared, pc: Pc, other: Pc)
    requires SharedInv(sh) && ThreadOk(sh, pc) && Promise(sh, sh', other) && Held(pc).Apart(Held(other))
    requires forall c :: 0 <= c < |sh.cmds| && IsLive(pc, c) && IsLive(other, c) ==> Doubled(sh.cmds[c])
    ensures ThreadOk(sh', pc)
  {
    match pc
    case Idle(_) =>
    case Executing(_, _, _) =>
    case Preparing =>
    case Destroying(_, _, _) => StableDestroy(sh, sh', pc, other);
    case Getting(_, _) =>
    case Calling(_, _) =>
    case Routine(_, _, _, _) => StableRoutine(sh, sh', pc, other);
  }

  lemma GivenStays(sh: Shared, sh': Shared, c: CommandRef, failing: bool)
    requires SharedInv(sh) && WorldPromise(sh, sh') && c < |sh.cmds| && c < |sh'.cmds|
    requires GivenUp(sh, c, failing) && sh.cmds[c].container == sh'.cmds[c].container
    ensures GivenUp(sh', c, failing)
  { }

  lemma StableDestroy(sh: Shared, sh': Shared, pc: Pc, other: Pc)
    requires SharedInv(sh) && pc.Destroying? && ThreadOk(sh, pc) && Promise(sh, sh', other)
    requires Held(pc).Apart(Held(other))
    ensures ThreadOk(sh', pc)
  {
    var slots := SlotsOf(sh, pc.support);
    if Holds(pc, StoreLock(pc.support)) {
      assert slots == SlotsOf(sh', pc.support);
      if slots.current.Some? && GivenUp(sh, slots.current.value, pc.failing) {
        GivenStays(sh, sh', slots.current.value, pc.failing);
      }
      if slots.previous.Some? && GivenUp(sh, slots.previous.value, pc.failing) {
        GivenStays(sh, sh', slots.previous.value, pc.failing);
      }
    }
  }

  lemma StableRoutine(sh: Shared, sh': Shared, pc: Pc, other: Pc)
    requires SharedInv(sh) && pc.Routine? && ThreadOk(sh, pc) && Promise(sh, sh', other) && Held(pc).Apart(Held(other))
    requires IsLive(pc, pc.c) && IsLive(other, pc.c) ==> pc.c < |sh.cmds| && Doubled(sh.cmds[pc.c])
    ensures ThreadOk(sh', pc)
  {
    var c := pc.c;
    assert Evolves(sh.cmds[c], sh'.cmds[c]) && Permitted(sh.cmds[c], sh'.cmds[c], other, c);
    if HoldsStore(pc.rt) {
      assert Holds(pc, StoreLock(pc.support));
      assert SlotsOf(sh, pc.support) == SlotsOf(sh', pc.support);
    }
    if HoldsCommand(pc.rt) {
      assert Holds(pc, CommandLock(c));
    }
  }
}

/** Each kind of step keeps the shared invariant, keeps its promise to the other threads and lands on a good program
    counter. */
module StepProofs {
  import opened Wrappers
  import opened Containers
  import opened CommandResults
  import opened Protocol
  import opened ProtocolInvariant
  import opened Interference

  /** What the step owes the other threads and the shared invariant. */
  ghost predicate SharedStep(sh: Shared, pc: Pc, e: Effect) {
    && CountDiscipline(sh, pc, e)
    && Promise(sh, e.shared, pc)
    && SharedInv(e.shared)
  }

  /** What the step owes its own thread. */
  ghost predicate LocalStep(sh: Shared, pc: Pc, e: Effect) {
    && ThreadOk(e.shared, e.pc)
    && (e.spawned.Some? ==> ThreadOk(e.shared, e.spawned.value))
    && (e.lock.Free? ==> FreeOk(e.shared, e.lock.lock))
  }

  /** The step can happen: a lock it takes is free. */
  ghost predicate Ready(sh: Shared, pc: Pc, e: Effect) {
    && ThreadOk(sh, pc)
    && (e.lock.Take? ==> FreeOk(sh, e.lock.lock))
  }

  // --- each thread lands on a program counter it may be at

  lemma BeginLocal(sh: Shared, pc: Pc, op: Operation, e: Effect)
    requires pc.Idle? && BeginStep(sh, op) == Some(e)
    ensures LocalStep(sh, pc, e) && LockDiscipline(pc, e)
  { }

  lemma PrepareLocal(sh: Shared, pc: Pc, choice: Choice, e: Effect)
    requires pc.Preparing? && PrepareStep(sh, choice) == Some(e)
    ensures LocalStep(sh, pc, e) && LockDiscipline(pc, e)
  { }

  lemma GetLocal(sh: Shared, pc: Pc, e: Effect)
    requires pc.Getting? && Ready(sh, pc, e) && GetStep(sh, pc.support, pc.locked) == Some(e)
    ensures LocalStep(sh, pc, e) && LockDiscipline(pc, e)
  { }

  lemma ExecuteLocal(sh: Shared, pc: Pc, choice: Choice, e: Effect)
    requires pc.Executing? && Ready(sh, pc, e) && ExecuteStep(sh, pc.support, pc.context, pc.ex, choice) == Some(e)
    ensures LocalStep(sh, pc, e)
  { }

  lemma ExecuteLocks(sh: Shared, pc: Pc, choice: Choice, e: Effect)
    requires pc.Executing? && ExecuteStep(sh, pc.support, pc.context, pc.ex, choice) == Some(e)
    ensures LockDiscipline(pc, e)
  { }

  predicate IsCall(ds: DestroyPoint) {
    OnCurrent(ds) || ds.DsPreviousExists? || ds.DsPreviousDestroy?
  }

  lemma DestroyCallLocal(sh: Shared, pc: Pc, choice: Choice, e: Effect)
    requires pc.Destroying? && IsCall(pc.ds) && Ready(sh, pc, e)
    requires DestroyCallStep(sh, pc.support, pc.failing, pc.ds, choice) == Some(e)
    ensures LocalStep(sh, pc, e) && LockDiscipline(pc, e)
  {
    DestroyCallLocks(sh, pc, choice, e);
    hide LockDiscipline;
    if pc.ds.DsCurrentDestroy? || pc.ds.DsPreviousDestroy? {
      DestroyedLocal(sh, pc, choice, e);
    } else {
      CheckedLocal(sh, pc, choice, e);
    }
  }

  lemma DestroyCallLocks(sh: Shared, pc: Pc, choice: Choice, e: Effect)
    requires pc.Destroying? && IsCall(pc.ds)
    requires DestroyCallStep(sh, pc.support, pc.failing, pc.ds, choice) == Some(e)
    ensures LockDiscipline(pc, e) && e.spawned.None? && e.lock.Keep? && e.pc.Destroying?
  { }

  lemma DestroyedLocal(sh: Shared, pc: Pc, choice: Choice, e: Effect)
    requires pc.Destroying? && (pc.ds.DsCurrentDestroy? || pc.ds.DsPreviousDestroy?) && Ready(sh, pc, e)
    requires DestroyCallStep(sh, pc.support, pc.failing, pc.ds, choice) == Some(e)
    ensures ThreadOk(e.shared, e.pc)
  { }

  lemma CheckedLocal(sh: Shared, pc: Pc, choice: Choice, e: Effect)
    requires pc.Destroying? && (pc.ds.DsCurrentExists? || pc.ds.DsPreviousExists?) && Ready(sh, pc, e)
    requires DestroyCallStep(sh, pc.support, pc.failing, pc.ds, choice) == Some(e)
    ensures ThreadOk(e.shared, e.pc)
  { }

  lemma DestroyLocal(sh: Shared, pc: Pc, choice: Choice, e: Effect)
    requires pc.Destroying? && !IsCall(pc.ds) && Ready(sh, pc, e)
    requires DestroyStep(sh, pc.support, pc.failing, pc.ds, choice) == Some(e)
    ensures LocalStep(sh, pc, e)
  { }

  lemma DestroyLocks(sh: Shared, pc: Pc, choice: Choice, e: Effect)
    requires pc.Destroying? && !IsCall(pc.ds)
    requires DestroyStep(sh, pc.support, pc.failing, pc.ds, choice) == Some(e)
    ensures LockDiscipline(pc, e)
  { }

  predicate IsKillCall(cl: CallPoint) {
    cl.ClKillExists? || cl.ClKillDestroy?
  }

  lemma KillLocal(sh: Shared, pc: Pc, choice: Choice, e: Effect)
    requires pc.Calling? && pc.c < |sh.cmds| && IsKillCall(pc.cl)
    requires Ready(sh, pc, e) && CallStep(sh, pc.c, pc.cl, choice) == Some(e)
    ensures LocalStep(sh, pc, e)
  { }

  lemma CallLocal(sh: Shared, pc: Pc, choice: Choice, e: Effect)
    requires pc.Calling? && !IsKillCall(pc.cl) && pc.c < |sh.cmds| && CommandOk(sh.cmds[pc.c])
    requires sh.cmds[pc.c].result.finished ==> sh.cmds[pc.c].clearing || SlotLeft(sh, pc.c)
    requires Ready(sh, pc, e) && CallStep(sh, pc.c, pc.cl, choice) == Some(e)
    ensures LocalStep(sh, pc, e)
  { }

  lemma CallLocks(sh: Shared, pc: Pc, choice: Choice, e: Effect)
    requires pc.Calling? && pc.c < |sh.cmds| && CallStep(sh, pc.c, pc.cl, choice) == Some(e)
    ensures LockDiscipline(pc, e)
  { }

  lemma RunLocal(sh: Shared, pc: Pc, choice: Choice, e: Effect)
    requires pc.Routine? && pc.c < |sh.cmds| && InRun(pc.rt) && Ready(sh, pc, e)
    requires RunStep(sh, pc.c, pc.support, pc.context, pc.rt, choice) == Some(e)
    ensures LocalStep(sh, pc, e) && LockDiscipline(pc, e)
  { }

  lemma JudgeLockGood(sh: Shared, pc: Pc, choice: Choice, e: Effect)
    requires pc.Routine? && pc.c < |sh.cmds| && pc.rt.RtLock? && Ready(sh, pc, e)
    requires JudgeStep(sh, pc.c, pc.support, pc.context, pc.rt, choice) == Some(e)
    ensures LocalStep(sh, pc, e) && LockDiscipline(pc, e)
  { }

  lemma SettleLocal(sh: Shared, pc: Pc, j: Judgement, e: Effect)
    requires pc.Routine? && pc.c < |sh.cmds| && (pc.rt.RtCheck? || pc.rt.RtState?) && ThreadOk(sh, pc)
    requires Settle(sh, pc.c, pc.support, pc.context, j) == Some(e)
    ensures LocalStep(sh, pc, e) && LockDiscipline(pc, e)
  { }

  lemma ClearTestLocal(sh: Shared, pc: Pc, choice: Choice, e: Effect)
    requires pc.Routine? && pc.c < |sh.cmds| && (pc.rt.RtClearLock? || pc.rt.RtClearTest?) && Ready(sh, pc, e)
    requires ClearStep(sh, pc.c, pc.support, pc.context, pc.rt, choice) == Some(e)
    ensures LocalStep(sh, pc, e)
  { }

  lemma ClearSlotLocal(sh: Shared, pc: Pc, choice: Choice, e: Effect)
    requires pc.Routine? && pc.c < |sh.cmds| && Ready(sh, pc, e)
    requires pc.rt.RtClearExists? || pc.rt.RtClearDestroy? || pc.rt.RtClearForget?
    requires ClearStep(sh, pc.c, pc.support, pc.context, pc.rt, choice) == Some(e)
    ensures LocalStep(sh, pc, e)
  {
    hide ClearStep, LocalStep;
    match pc.rt
    case RtClearExists => ClearExistsLocal(sh, pc, choice, e);
    case RtClearDestroy => ClearDestroyLocal(sh, pc, choice, e);
    case RtClearForget => ClearForgetLocal(sh, pc, choice, e);
  }

  lemma ClearExistsLocal(sh: Shared, pc: Pc, choice: Choice, e: Effect)
    requires pc.Routine? && pc.c < |sh.cmds| && Ready(sh, pc, e) && pc.rt.RtClearExists?
    requires ClearStep(sh, pc.c, pc.support, pc.context, pc.rt, choice) == Some(e)
    ensures LocalStep(sh, pc, e)
  { }

  lemma ClearDestroyLocal(sh: Shared, pc: Pc, choice: Choice, e: Effect)
    requires pc.Routine? && pc.c < |sh.cmds| && Ready(sh, pc, e) && pc.rt.RtClearDestroy?
    requires ClearStep(sh, pc.c, pc.support, pc.context, pc.rt, choice) == Some(e)
    ensures LocalStep(sh, pc, e)
  { }

  lemma ClearForgetLocal(sh: Shared, pc: Pc, choice: Choice, e: Effect)
    requires pc.Routine? && pc.c < |sh.cmds| && Ready(sh, pc, e) && pc.rt.RtClearForget?
    requires ClearStep(sh, pc.c, pc.support, pc.context, pc.rt, choice) == Some(e)
    ensures LocalStep(sh, pc, e)
  { }

  lemma LeaveLocal(sh: Shared, pc: Pc, choice: Choice, e: Effect)
    requires pc.Routine? && pc.c < |sh.cmds| && !Clearing(pc.rt) && !InRun(pc.rt) && !InJudge(pc.rt) && Ready(sh, pc, e)
    requires ClearStep(sh, pc.c, pc.support, pc.context, pc.rt, choice) == Some(e)
    ensures LocalStep(sh, pc, e)
  { }

  lemma ClearLocks(sh: Shared, pc: Pc, choice: Choice, e: Effect)
    requires pc.Routine? && pc.c < |sh.cmds| && !InRun(pc.rt) && !InJudge(pc.rt)
    requires ClearStep(sh, pc.c, pc.support, pc.context, pc.rt, choice) == Some(e)
    ensures LockDiscipline(pc, e)
  { }

  // --- each kind of change to the shared part keeps the invariant and the promise

  /** Commands and slots untouched: the promise is about the runtime alone. */
  lemma QuietPromise(sh: Shared, sh': Shared, pc: Pc)
    requires sh'.cmds == sh.cmds && sh'.payload == sh.payload && sh'.support == sh.support && sh'.cfg == sh.cfg
    requires WorldPromise(sh, sh')
    ensures Promise(sh, sh', pc)
  { }

  ghost predicate SameRoutines(pc: Pc, pc': Pc) {
    forall c :: IsLive(pc', c) == IsLive(pc, c)
  }

  lemma QuietCount(sh: Shared, pc: Pc, e: Effect)
    requires e.shared.cmds == sh.cmds && e.spawned.None? && SameRoutines(pc, e.pc)
    ensures CountDiscipline(sh, pc, e)
  { }

  /** A step that changes nothing shared and ends no routine. */
  lemma MoveShared(sh: Shared, pc: Pc, e: Effect)
    requires SharedInv(sh) && e.shared == sh && e.spawned.None? && SameRoutines(pc, e.pc)
    ensures SharedStep(sh, pc, e)
  {
    QuietPromise(sh, sh, pc);
    QuietCount(sh, pc, e);
  }

  /** Prepare and Destroy change the volume and nothing the commands depend on. */
  lemma VolumeShared(sh: Shared, pc: Pc, e: Effect)
    requires SharedInv(sh) && e.spawned.None? && SameRoutines(pc, e.pc)
    requires e.shared.cmds == sh.cmds && e.shared.payload == sh.payload && e.shared.support == sh.support
    requires e.shared.cfg == sh.cfg && e.shared.world.containers == sh.world.containers
    requires e.shared.world.used == sh.world.used
    requires e.shared.ended == sh.ended && e.shared.lost == sh.lost && e.shared.outside == sh.outside
    ensures SharedStep(sh, pc, e)
  {
    QuietPromise(sh, e.shared, pc);
    QuietCount(sh, pc, e);
  }

  lemma ShrinkAccounts(cmds: seq<Command>, payload: Slots, support: Slots,
      containers: map<ContainerId, Container>, lost: set<ContainerId>, id: ContainerId)
    requires Accounted(cmds, payload, support, containers, lost)
    ensures Accounted(cmds, payload, support, containers - {id}, lost)
  { }

  lemma ShrinkAttributed(cmds: seq<Command>, containers: map<ContainerId, Container>,
      outside: set<ContainerId>, ended: set<ContextId>, id: ContainerId)
    requires Attributed(cmds, containers, outside, ended)
    requires forall c :: 0 <= c < |cmds| && cmds[c].container == id ==> Requested(cmds[c], outside) || cmds[c].cleared
    ensures Attributed(cmds, containers - {id}, outside, ended)
  { }

  lemma RemoveKeeps(sh: Shared, id: ContainerId)
    requires SharedInv(sh)
    requires forall c :: 0 <= c < |sh.cmds| && sh.cmds[c].container == id ==>
      Requested(sh.cmds[c], sh.outside) || sh.cmds[c].cleared
    requires IsInHand(sh.payload.inHand, id) || IsInHand(sh.support.inHand, id) ==> id in sh.outside
    ensures SharedInv(WithoutContainer(sh, id))
  {
    ShrinkAccounts(sh.cmds, sh.payload, sh.support, sh.world.containers, sh.lost, id);
    ShrinkAttributed(sh.cmds, sh.world.containers, sh.outside, sh.ended, id);
  }

  /** A command's container goes away on somebody's request. */
  lemma RemoveShared(sh: Shared, pc: Pc, c: CommandRef, e: Effect)
    requires SharedInv(sh) && c < |sh.cmds| && Requested(sh.cmds[c], sh.outside)
    requires e.shared == WithoutContainer(sh, sh.cmds[c].container) && e.spawned.None? && SameRoutines(pc, e.pc)
    ensures SharedStep(sh, pc, e)
  {
    RemoveKeeps(sh, sh.cmds[c].container);
    QuietPromise(sh, e.shared, pc);
    QuietCount(sh, pc, e);
  }

  lemma LostShared(sh: Shared, pc: Pc, id: ContainerId, e: Effect)
    requires SharedInv(sh) && e.shared == sh.(lost := sh.lost + {id}) && e.spawned.None? && SameRoutines(pc, e.pc)
    ensures SharedStep(sh, pc, e)
  {
    QuietPromise(sh, e.shared, pc);
    QuietCount(sh, pc, e);
  }

  lemma GrowContainers(cmds: seq<Command>, payload: Slots, support: Slots, world: World, lost: set<ContainerId>,
      outside: set<ContainerId>, ended: set<ContextId>, id: ContainerId, made: Container)
    requires id !in world.used && forall c :: 0 <= c < |cmds| ==> cmds[c].container in world.used
    requires Accounted(cmds, payload, support, world.containers, lost)
    requires Attributed(cmds, world.containers, outside, ended)
    ensures Accounted(cmds, payload, support, world.containers[id := made], lost)
    ensures Attributed(cmds, world.containers[id := made], outside, ended)
  { }

  /** The part of the invariant about slots does not depend on what is in hand. */
  lemma HandIsApart(cmds: seq<Command>, payload: Slots, support: Slots, payload': Slots, support': Slots,
      containers: map<ContainerId, Container>, lost: set<ContainerId>)
    requires payload.current == payload'.current && payload.previous == payload'.previous
    requires support.current == support'.current && support.previous == support'.previous
    requires Accounted(cmds, payload, support, containers, lost)
    requires FinishedLeave(cmds, payload, support) && ClosedLeave(cmds, payload, support)
    ensures Accounted(cmds, payload', support', containers, lost)
    ensures FinishedLeave(cmds, payload', support') && ClosedLeave(cmds, payload', support')
  { }

  lemma CreateShared(sh: Shared, pc: Pc, id: ContainerId, made: Container, created: Created, e: Effect)
    requires SharedInv(sh) && ThreadOk(sh, pc) && pc.Executing? && pc.ex.ExCreate?
    requires created.container !in sh.world.used && e.spawned.None? && e.pc.Executing?
    requires e.shared == WithSlots(sh, pc.support, SlotsOf(sh, pc.support).(inHand := Some(created)))
               .(world := sh.world.With(created.container, made))
    ensures SharedStep(sh, pc, e)
  {
    CreatePromise(sh, pc, made, created, e);
    GrowContainers(sh.cmds, sh.payload, sh.support, sh.world, sh.lost, sh.outside, sh.ended, created.container, made);
    HandIsApart(sh.cmds, sh.payload, sh.support, e.shared.payload, e.shared.support, e.shared.world.containers,
      sh.lost);
    QuietCount(sh, pc, e);
    hide Promise, CountDiscipline, Accounted, Attributed, FinishedLeave, ClosedLeave, CommandsOk, SameRoutines;
  }

  lemma CreatePromise(sh: Shared, pc: Pc, made: Container, created: Created, e: Effect)
    requires sh.world.Valid() && pc.Executing? && pc.ex.ExCreate? && created.container !in sh.world.used
    requires e.shared == WithSlots(sh, pc.support, SlotsOf(sh, pc.support).(inHand := Some(created)))
               .(world := sh.world.With(created.container, made))
    ensures Promise(sh, e.shared, pc)
  { }

  /** Pushing a new command into an empty slot: the old commands keep their places. */
  lemma PushKeeps(cmds: seq<Command>, cmd: Command, payload: Slots, support: Slots, containers: map<ContainerId,
      Container>,
      lost: set<ContainerId>, outside: set<ContainerId>, ended: set<ContextId>)
    requires SlotsFor(payload, support, cmd.support).current.None?
    requires !cmd.result.finished && cmd.closes == 0 && cmd.verdict.None? && CommandOk(cmd)
    requires cmd.container in containers || cmd.container in outside
    requires CommandsOk(cmds) && Accounted(cmds, payload, support, containers, lost)
    requires FinishedLeave(cmds, payload, support) && ClosedLeave(cmds, payload, support)
    requires Attributed(cmds, containers, outside, ended)
    requires SlotsIn(payload, |cmds|) && SlotsIn(support, |cmds|)
    ensures var cmds' := cmds + [cmd];
      var payload' := if cmd.support then payload else Push(payload, |cmds|);
      var support' := if cmd.support then Push(support, |cmds|) else support;
      && CommandsOk(cmds') && Accounted(cmds', payload', support', containers, lost)
      && FinishedLeave(cmds', payload', support') && ClosedLeave(cmds', payload', support')
      && Attributed(cmds', containers, outside, ended)
  { }

  predicate SlotsIn(slots: Slots, n: nat) {
    (slots.current.Some? ==>
           slots.current.value < n) && (slots.previous.Some? ==>
           slots.previous.value < n)
  }

  lemma PushPromise(sh: Shared, pc: Pc, choice: Choice, e: Effect)
    requires ThreadOk(sh, pc) && pc.Executing? && pc.ex.ExPush?
    requires ExecuteStep(sh, pc.support, pc.context, pc.ex, choice) == Some(e)
    ensures Promise(sh, e.shared, pc)
  { }

  lemma PushCount(sh: Shared, pc: Pc, choice: Choice, e: Effect)
    requires pc.Executing? && pc.ex.ExPush?
    requires ExecuteStep(sh, pc.support, pc.context, pc.ex, choice) == Some(e)
    ensures CountDiscipline(sh, pc, e)
  { }

  lemma PushInv(sh: Shared, pc: Pc, choice: Choice, e: Effect)
    requires SharedInv(sh) && ThreadOk(sh, pc) && pc.Executing? && pc.ex.ExPush?
    requires ExecuteStep(sh, pc.support, pc.context, pc.ex, choice) == Some(e)
    ensures SharedInv(e.shared)
  {
    var cmd := NewCommand(pc.ex.id, pc.support, pc.ex.container, pc.context);
    PushKeeps(sh.cmds, cmd, sh.payload, sh.support, sh.world.containers, sh.lost, sh.outside, sh.ended);
  }

  lemma ForgetAccounts(cmds: seq<Command>, payload: Slots, support: Slots, containers: map<ContainerId, Container>,
      lost: set<ContainerId>, isSupport: bool)
    requires Accounted(cmds, payload, support, containers, lost)
    requires FinishedLeave(cmds, payload, support) && ClosedLeave(cmds, payload, support)
    requires var slots := SlotsFor(payload, support, isSupport);
      && (slots.current.Some? ==>
           slots.current.value < |cmds|
           && Given(cmds[slots.current.value].container, containers, lost))
      && (slots.previous.Some? ==>
           slots.previous.value < |cmds|
           && Given(cmds[slots.previous.value].container, containers, lost))
    ensures var payload', support' :=
        if isSupport then payload else Slots(None, None, None), if isSupport then Slots(None, None, None) else support;
      && Accounted(cmds, payload', support', containers, lost)
      && FinishedLeave(cmds, payload', support') && ClosedLeave(cmds, payload', support')
  { }

  lemma ForgottenShared(sh: Shared, pc: Pc, e: Effect)
    requires SharedInv(sh) && ThreadOk(sh, pc) && pc.Destroying? && pc.ds.DsClear?
    requires e.shared == WithSlots(sh, pc.support, Slots(None, None, None)) && e.spawned.None? && e.pc.Destroying?
    ensures SharedStep(sh, pc, e)
  {
    ForgottenPromise(sh, pc, e);
    QuietCount(sh, pc, e);
    ForgetAccounts(sh.cmds, sh.payload, sh.support, sh.world.containers, sh.lost, pc.support);
    hide Promise, CountDiscipline, Accounted, Attributed, FinishedLeave, ClosedLeave, CommandsOk;
  }

  lemma ForgottenPromise(sh: Shared, pc: Pc, e: Effect)
    requires pc.Destroying? && pc.ds.DsClear? && e.shared == WithSlots(sh, pc.support, Slots(None, None, None))
    ensures Promise(sh, e.shared, pc)
  { }

  // --- changes to one command's record

  /** The new record agrees with everything the invariant says about one command. */
  ghost predicate GoodEdit(sh: Shared, c: CommandRef, cmd: Command)
    requires c < |sh.cmds|
  {
    && cmd.container == sh.cmds[c].container && cmd.support == sh.cmds[c].support && cmd.origin == sh.cmds[c].origin
    && CommandOk(cmd)
    && AttributedOne(cmd, sh.world.containers, sh.outside, sh.ended)
    && (IsCurrent(cmd, c, sh.payload, sh.support) ==>
          && (cmd.result.finished ==> cmd.clearing || cmd.clearFailed)
          && (cmd.closes > 0 ==> cmd.clearFailed))
  }

  /** Everything the invariant says about one command. */
  lemma KnownCommand(sh: Shared, c: CommandRef)
    requires SharedInv(sh) && c < |sh.cmds|
    ensures GoodEdit(sh, c, sh.cmds[c])
  { }

  lemma EditKeeps(sh: Shared, c: CommandRef, cmd: Command)
    requires SharedInv(sh) && c < |sh.cmds| && GoodEdit(sh, c, cmd)
    ensures SharedInv(WithCommand(sh, c, cmd))
  { }

  lemma EditPromise(sh: Shared, c: CommandRef, cmd: Command, pc: Pc)
    requires c < |sh.cmds| && Evolves(sh.cmds[c], cmd) && Permitted(sh.cmds[c], cmd, pc, c)
    ensures Promise(sh, WithCommand(sh, c, cmd), pc)
  { }

  lemma EditCount(sh: Shared, c: CommandRef, cmd: Command, pc: Pc, e: Effect)
    requires c < |sh.cmds| && e.shared.cmds == sh.cmds[c := cmd] && cmd.origin == sh.cmds[c].origin
    requires e.spawned.Some? ==> e.spawned.value.Routine? && e.spawned.value.c == c && e.spawned.value.rt.RtBegin?
    requires forall d :: d != c ==> IsLive(e.pc, d) == IsLive(pc, d)
    requires cmd.routines - cmd.closes - sh.cmds[c].routines + sh.cmds[c].closes
          == Count(IsLive(e.pc, c)) - Count(IsLive(pc, c)) + Count(e.spawned.Some?)
    ensures CountDiscipline(sh, pc, e)
  { }

  lemma EditShared(sh: Shared, c: CommandRef, cmd: Command, pc: Pc, e: Effect)
    requires SharedInv(sh) && c < |sh.cmds| && GoodEdit(sh, c, cmd)
    requires Evolves(sh.cmds[c], cmd) && Permitted(sh.cmds[c], cmd, pc, c)
    requires cmd.routines == sh.cmds[c].routines && cmd.closes == sh.cmds[c].closes
    requires e.shared == WithCommand(sh, c, cmd) && e.spawned.None? && SameRoutines(pc, e.pc)
    ensures SharedStep(sh, pc, e)
  {
    EditKeeps(sh, c, cmd);
    EditPromise(sh, c, cmd, pc);
    EditCount(sh, c, cmd, pc, e);
  }

  /** A request to end the command's container is recorded. */
  lemma AskShared(sh: Shared, c: CommandRef, cmd: Command, pc: Pc, e: Effect)
    requires SharedInv(sh) && c < |sh.cmds|
    requires (cmd == sh.cmds[c].(killAsked := true) && InKill(pc, c))
      || (cmd == sh.cmds[c].(destroyAsked := true) && pc.Destroying?)
    requires e.shared == WithCommand(sh, c, cmd) && e.spawned.None? && SameRoutines(pc, e.pc)
    ensures SharedStep(sh, pc, e)
  {
    EditShared(sh, c, cmd, pc, e);
  }

  lemma OnceShared(sh: Shared, pc: Pc, choice: Choice, e: Effect)
    requires SharedInv(sh) && pc.Calling? && pc.c < |sh.cmds| && pc.cl.ClOnce? && !sh.cmds[pc.c].once
    requires CallStep(sh, pc.c, pc.cl, choice) == Some(e)
    ensures SharedStep(sh, pc, e)
  {
    var c, cmd := pc.c, sh.cmds[pc.c];
    var fired := cmd.(once := true, routines := cmd.routines + 1, contexts := cmd.contexts + {pc.cl.context});
    KnownCommand(sh, c);
    hide SharedInv, Promise, CountDiscipline;
    assert forall x :: x in cmd.contexts ==> x in fired.contexts;
    EditKeeps(sh, c, fired);
    EditPromise(sh, c, fired, pc);
    EditCount(sh, c, fired, pc, e);
  }

  /** What the routine's verdict and result must satisfy when it writes them. */
  predicate GoodVerdict(r: CommandResult, r': CommandResult, v: Verdict) {
    match v
    case RunWasAborted => r' == Killed(r)
    case RunFailed => r' == Failed(r, RunFailure)
    case CheckFailed => r' == Killed(Failed(r, CheckFailure))
    case ContainerGone => r' == Killed(r)
    case StateUnreadable => r' == Failed(r, InspectFailure)
    case Ended(code) => r' == r.(finished := true, code := code)
    case NotEnded => r' == r
  }

  lemma JudgedShared(sh: Shared, pc: Pc, r: CommandResult, v: Verdict, e: Effect)
    requires SharedInv(sh) && ThreadOk(sh, pc) && pc.Routine? && (pc.rt.RtCheck? || pc.rt.RtState?)
    requires GoodVerdict(sh.cmds[pc.c].result, r, v)
    requires v == RunWasAborted ==> pc.context in sh.ended
    requires v == ContainerGone ==> sh.cmds[pc.c].container !in sh.world.containers
    requires Settle(sh, pc.c, pc.support, pc.context, Judgement(r, v)) == Some(e)
    ensures SharedStep(sh, pc, e)
  {
    var c, cmd := pc.c, sh.cmds[pc.c];
    var judged := cmd.(result := r, verdict := Some(v), clearing := true);
    KnownCommand(sh, c);
    hide SharedInv, Promise, CountDiscipline, SharedStep;
    JudgedOk(cmd, judged);
    EditShared(sh, c, judged, pc, e);
  }

  lemma JudgedOk(cmd: Command, judged: Command)
    requires CommandOk(cmd) && !cmd.origin.RecoveredFinished? && (Doubled(cmd) || cmd.verdict.None?)
    requires judged.verdict.Some?
    requires judged == cmd.(result := judged.result, verdict := judged.verdict, clearing := true)
    requires GoodVerdict(cmd.result, judged.result, judged.verdict.value) && cmd.routines > 0
    ensures CommandOk(judged)
  { }

  /** The routine removes its own command's container, and records it. */
  lemma ClearDestroyShared(sh: Shared, pc: Pc, e: Effect)
    requires SharedInv(sh) && ThreadOk(sh, pc) && pc.Routine? && pc.rt.RtClearDestroy? && e.spawned.None?
    requires SameRoutines(pc, e.pc)
    requires e.shared == WithoutContainer(WithCommand(sh, pc.c, sh.cmds[pc.c].(cleared := true)),
      sh.cmds[pc.c].container)
    ensures SharedStep(sh, pc, e)
  {
    var c, cmd := pc.c, sh.cmds[pc.c].(cleared := true);
    var e1 := e.(shared := WithCommand(sh, c, cmd));
    hide SharedInv, Promise, CountDiscipline;
    ClearedGood(sh, pc, cmd);
    hide ThreadOk, GoodEdit, Evolves, Permitted, SharedStep;
    EditShared(sh, c, cmd, pc, e1);
    assert SharedInv(e1.shared) && Promise(sh, e1.shared, pc) && CountDiscipline(sh, pc, e1) by {
      StepParts(sh, pc, e1);
    }
    RemoveKeeps(e1.shared, cmd.container);
    SamePromise(sh, e1.shared, e.shared, pc);
    SameCount(sh, pc, e1, e);
    StepOfParts(sh, pc, e);
  }

  lemma ClearedGood(sh: Shared, pc: Pc, cmd: Command)
    requires SharedInv(sh) && ThreadOk(sh, pc) && pc.Routine? && pc.rt.RtClearDestroy?
    requires cmd == sh.cmds[pc.c].(cleared := true)
    ensures GoodEdit(sh, pc.c, cmd) && Evolves(sh.cmds[pc.c], cmd) && Permitted(sh.cmds[pc.c], cmd, pc, pc.c)
  {
    KnownCommand(sh, pc.c);
    hide SharedInv;
  }

  lemma StepParts(sh: Shared, pc: Pc, e: Effect)
    requires SharedStep(sh, pc, e)
    ensures SharedInv(e.shared) && Promise(sh, e.shared, pc) && CountDiscipline(sh, pc, e)
  { }

  lemma StepOfParts(sh: Shared, pc: Pc, e: Effect)
    requires SharedInv(e.shared) && Promise(sh, e.shared, pc) && CountDiscipline(sh, pc, e)
    ensures SharedStep(sh, pc, e)
  { }

  lemma SameCount(sh: Shared, pc: Pc, a: Effect, b: Effect)
    requires CountDiscipline(sh, pc, a) && b.shared.cmds == a.shared.cmds && b.pc == a.pc && b.spawned == a.spawned
    ensures CountDiscipline(sh, pc, b)
  { }

  /** Taking a container away on top of a kept promise keeps it. */
  lemma SamePromise(sh: Shared, mid: Shared, sh': Shared, pc: Pc)
    requires Promise(sh, mid, pc) && exists id :: sh' == WithoutContainer(mid, id)
    ensures Promise(sh, sh', pc)
  { }

  lemma ForgetKeeps(sh: Shared, support: bool, c: CommandRef)
    requires SharedInv(sh) && c < |sh.cmds| && sh.cmds[c].support == support
    requires SlotsOf(sh, support).current == Some(c) && sh.cmds[c].container !in sh.world.containers
    ensures SharedInv(WithSlots(sh, support, Forget(SlotsOf(sh, support), c)))
  { }

  /** The end of the clearing: the slot was another's, the clearing failed, or the slot is freed now. */
  lemma ClearingOverShared(sh: Shared, mid: Shared, pc: Pc, failed: bool, e: Effect)
    requires SharedInv(sh) && SharedInv(mid) && ThreadOk(sh, pc) && pc.Routine? && Clearing(pc.rt)
    requires mid == sh || (HoldsStore(pc.rt) && mid == WithSlots(sh, pc.support, Forget(SlotsOf(sh, pc.support), pc.c)))
    requires failed || SlotsOf(mid, pc.support).current != Some(pc.c)
    requires ClearingOver(mid, pc.c, pc.support, pc.context, failed) == Some(e)
    ensures SharedStep(sh, pc, e)
  {
    var c, cmd := pc.c, sh.cmds[pc.c];
    var over := cmd.(clearing := false, clearFailed := failed || cmd.clearFailed);
    assert mid.cmds == sh.cmds && mid.world == sh.world && mid.outside == sh.outside && mid.ended == sh.ended;
    OverGood(mid, pc, over, failed);
    OverAllowed(sh, pc, over, failed);
    hide SharedInv, Promise, CountDiscipline, Forget, ThreadOk, GoodEdit, Evolves, Permitted;
    EditKeeps(mid, c, over);
    EditCount(sh, c, over, pc, e);
    OverPromise(sh, mid, pc, over);
  }

  lemma OverGood(mid: Shared, pc: Pc, over: Command, failed: bool)
    requires SharedInv(mid) && pc.Routine? && pc.c < |mid.cmds| && mid.cmds[pc.c].support == pc.support
    requires mid.cmds[pc.c].verdict.Some? && (failed || SlotsOf(mid, pc.support).current != Some(pc.c))
    requires over == mid.cmds[pc.c].(clearing := false, clearFailed := failed || mid.cmds[pc.c].clearFailed)
    ensures GoodEdit(mid, pc.c, over)
  {
    KnownCommand(mid, pc.c);
    hide SharedInv;
  }

  lemma OverAllowed(sh: Shared, pc: Pc, over: Command, failed: bool)
    requires ThreadOk(sh, pc) && pc.Routine? && Clearing(pc.rt)
    requires over == sh.cmds[pc.c].(clearing := false, clearFailed := failed || sh.cmds[pc.c].clearFailed)
    ensures Evolves(sh.cmds[pc.c], over) && Permitted(sh.cmds[pc.c], over, pc, pc.c)
  { }

  lemma OverPromise(sh: Shared, mid: Shared, pc: Pc, cmd: Command)
    requires pc.Routine? && Clearing(pc.rt) && pc.c < |sh.cmds|
    requires mid == sh || (HoldsStore(pc.rt) && mid == WithSlots(sh, pc.support, Forget(SlotsOf(sh, pc.support), pc.c)))
    requires Evolves(sh.cmds[pc.c], cmd) && Permitted(sh.cmds[pc.c], cmd, pc, pc.c)
    ensures Promise(sh, WithCommand(mid, pc.c, cmd), pc)
  {
    EditPromise(sh, pc.c, cmd, pc);
    if mid != sh {
      SlotsOnTop(sh, WithCommand(sh, pc.c, cmd), pc, pc.support, Forget(SlotsOf(sh, pc.support), pc.c));
    }
  }

  /** Changing the slots under their mutex, on top of a kept promise, keeps it. */
  lemma SlotsOnTop(sh: Shared, mid: Shared, pc: Pc, support: bool, slots: Slots)
    requires Promise(sh, mid, pc) && Holds(pc, StoreLock(support))
    requires slots.current.None? || slots.current == SlotsOf(sh, support).current
    ensures Promise(sh, WithSlots(mid, support, slots), pc)
  { }

  lemma CloseShared(sh: Shared, pc: Pc, choice: Choice, e: Effect)
    requires SharedInv(sh) && ThreadOk(sh, pc) && pc.Routine? && pc.rt.RtClose?
    requires ClearStep(sh, pc.c, pc.support, pc.context, pc.rt, choice) == Some(e)
    ensures SharedStep(sh, pc, e)
  {
    var c, cmd := pc.c, sh.cmds[pc.c];
    var closed := cmd.(closes := cmd.closes + 1);
    ClosedGood(sh, pc, closed);
    hide SharedInv, Promise, CountDiscipline, GoodEdit, Evolves, Permitted, ThreadOk;
    EditKeeps(sh, c, closed);
    EditPromise(sh, c, closed, pc);
    EditCount(sh, c, closed, pc, e);
  }

  lemma ClosedGood(sh: Shared, pc: Pc, closed: Command)
    requires SharedInv(sh) && ThreadOk(sh, pc) && pc.Routine? && pc.rt.RtClose?
    requires closed == sh.cmds[pc.c].(closes := sh.cmds[pc.c].closes + 1)
    ensures GoodEdit(sh, pc.c, closed) && Evolves(sh.cmds[pc.c], closed) && Permitted(sh.cmds[pc.c], closed, pc, pc.c)
  {
    KnownCommand(sh, pc.c);
    hide SharedInv;
  }

  // --- all steps of a thread

  ghost predicate GoodStep(sh: Shared, pc: Pc, e: Effect) {
    SharedStep(sh, pc, e) && LocalStep(sh, pc, e) && LockDiscipline(pc, e)
  }

  lemma BeginGood(sh: Shared, pc: Pc, op: Operation, e: Effect)
    requires SharedInv(sh) && pc.Idle? && BeginStep(sh, op) == Some(e)
    ensures GoodStep(sh, pc, e)
  {
    BeginLocal(sh, pc, op, e);
    VolumeShared(sh, pc, e);
  }

  lemma PrepareGood(sh: Shared, pc: Pc, choice: Choice, e: Effect)
    requires SharedInv(sh) && pc.Preparing? && PrepareStep(sh, choice) == Some(e)
    ensures GoodStep(sh, pc, e)
  {
    PrepareLocal(sh, pc, choice, e);
    VolumeShared(sh, pc, e);
  }

  lemma GetGood(sh: Shared, pc: Pc, e: Effect)
    requires SharedInv(sh) && pc.Getting? && Ready(sh, pc, e) && GetStep(sh, pc.support, pc.locked) == Some(e)
    ensures GoodStep(sh, pc, e)
  {
    GetLocal(sh, pc, e);
    MoveShared(sh, pc, e);
  }

  lemma ExecuteGood(sh: Shared, pc: Pc, choice: Choice, e: Effect)
    requires SharedInv(sh) && pc.Executing? && Ready(sh, pc, e)
    requires ExecuteStep(sh, pc.support, pc.context, pc.ex, choice) == Some(e)
    ensures GoodStep(sh, pc, e)
  {
    ExecuteLocal(sh, pc, choice, e);
    ExecuteLocks(sh, pc, choice, e);
    if pc.ex.ExPush? {
      PushInv(sh, pc, choice, e);
      PushPromise(sh, pc, choice, e);
      PushCount(sh, pc, choice, e);
    } else if e.shared == sh {
      MoveShared(sh, pc, e);
    } else {
      CreateShared(sh, pc, choice.container, choice.made, Created(choice.id, choice.container), e);
    }
  }

  lemma DestroyGood(sh: Shared, pc: Pc, choice: Choice, e: Effect)
    requires SharedInv(sh) && pc.Destroying? && Ready(sh, pc, e)
    requires DestroyStep(sh, pc.support, pc.failing, pc.ds, choice) == Some(e)
    ensures GoodStep(sh, pc, e)
  {
    if IsCall(pc.ds) {
      DestroyCallGood(sh, pc, choice, e);
    } else {
      DestroyOtherGood(sh, pc, choice, e);
    }
  }

  lemma DestroyOtherGood(sh: Shared, pc: Pc, choice: Choice, e: Effect)
    requires SharedInv(sh) && pc.Destroying? && !IsCall(pc.ds) && Ready(sh, pc, e)
    requires DestroyStep(sh, pc.support, pc.failing, pc.ds, choice) == Some(e)
    ensures GoodStep(sh, pc, e)
  {
    DestroyLocal(sh, pc, choice, e);
    DestroyLocks(sh, pc, choice, e);
    DestroyOtherShape(sh, pc, choice, e);
    hide SharedInv, LocalStep, LockDiscipline, SharedStep, DestroyStep;
    if pc.ds.DsClear? {
      ForgottenShared(sh, pc, e);
    } else {
      VolumeShared(sh, pc, e);
    }
  }

  /** A Destroy's step without a container call: it forgets a store, or only the volume changes. */
  lemma DestroyOtherShape(sh: Shared, pc: Pc, choice: Choice, e: Effect)
    requires pc.Destroying? && !IsCall(pc.ds) && DestroyStep(sh, pc.support, pc.failing, pc.ds, choice) == Some(e)
    ensures e.spawned.None? && SameRoutines(pc, e.pc)
    ensures if pc.ds.DsClear? then e.pc.Destroying? && e.shared == WithSlots(sh, pc.support, Slots(None, None, None))
      else
        && e.shared.cmds == sh.cmds && e.shared.payload == sh.payload && e.shared.support == sh.support
        && e.shared.cfg == sh.cfg && e.shared.world.containers == sh.world.containers
        && e.shared.world.used == sh.world.used && e.shared.ended == sh.ended && e.shared.lost == sh.lost
        && e.shared.outside == sh.outside
  { }

  lemma DestroyCallGood(sh: Shared, pc: Pc, choice: Choice, e: Effect)
    requires SharedInv(sh) && pc.Destroying? && IsCall(pc.ds) && Ready(sh, pc, e)
    requires DestroyCallStep(sh, pc.support, pc.failing, pc.ds, choice) == Some(e)
    ensures GoodStep(sh, pc, e)
  {
    DestroyCallLocal(sh, pc, choice, e);
    var c := DestroyTarget(SlotsOf(sh, pc.support), pc.ds).value;
    var cmd := sh.cmds[c];
    if choice.CallFails? {
      LostShared(sh, pc, cmd.container, e);
    } else if pc.ds.DsCurrentDestroy? || pc.ds.DsPreviousDestroy? {
      RemoveShared(sh, pc, c, e);
    } else if cmd.container !in sh.world.containers {
      MoveShared(sh, pc, e);
    } else {
      AskShared(sh, c, cmd.(destroyAsked := true), pc, e);
    }
  }

  lemma FinishedCall(sh: Shared, pc: Pc)
    requires SharedInv(sh) && pc.Calling? && pc.c < |sh.cmds|
    ensures CommandOk(sh.cmds[pc.c])
    ensures sh.cmds[pc.c].result.finished ==> sh.cmds[pc.c].clearing || SlotLeft(sh, pc.c)
  { }

  lemma CallGood(sh: Shared, pc: Pc, choice: Choice, e: Effect)
    requires SharedInv(sh) && pc.Calling? && Ready(sh, pc, e) && CallStep(sh, pc.c, pc.cl, choice) == Some(e)
    ensures GoodStep(sh, pc, e)
  {
    FinishedCall(sh, pc);
    hide SharedInv, LocalStep, LockDiscipline, SharedStep;
    if IsKillCall(pc.cl) {
      KillLocal(sh, pc, choice, e);
    } else {
      CallLocal(sh, pc, choice, e);
    }
    CallLocks(sh, pc, choice, e);
    CallShared(sh, pc, choice, e);
  }

  lemma CallShared(sh: Shared, pc: Pc, choice: Choice, e: Effect)
    requires SharedInv(sh) && ThreadOk(sh, pc) && pc.Calling? && pc.c < |sh.cmds|
    requires CallStep(sh, pc.c, pc.cl, choice) == Some(e)
    ensures SharedStep(sh, pc, e)
  {
    hide SharedInv, SharedStep;
    var c := pc.c;
    if e.spawned.Some? {
      OnceShared(sh, pc, choice, e);
    } else if e.shared == sh {
      MoveShared(sh, pc, e);
    } else if pc.cl.ClKillExists? {
      AskShared(sh, c, sh.cmds[c].(killAsked := true), pc, e);
    } else {
      RemoveShared(sh, pc, c, e);
    }
  }

  lemma RunGood(sh: Shared, pc: Pc, choice: Choice, e: Effect)
    requires SharedInv(sh) && pc.Routine? && InRun(pc.rt) && Ready(sh, pc, e)
    requires RunStep(sh, pc.c, pc.support, pc.context, pc.rt, choice) == Some(e)
    ensures GoodStep(sh, pc, e)
  {
    RunLocal(sh, pc, choice, e);
    MoveShared(sh, pc, e);
  }

  lemma SettleGood(sh: Shared, pc: Pc, j: Judgement, e: Effect)
    requires SharedInv(sh) && pc.Routine? && ThreadOk(sh, pc) && (pc.rt.RtCheck? || pc.rt.RtState?)
    requires j.Judgement? ==> GoodVerdict(sh.cmds[pc.c].result, j.result, j.verdict)
    requires j.Judgement? && j.verdict == RunWasAborted ==> pc.context in sh.ended
    requires j.Judgement? && j.verdict == ContainerGone ==> sh.cmds[pc.c].container !in sh.world.containers
    requires Settle(sh, pc.c, pc.support, pc.context, j) == Some(e)
    ensures GoodStep(sh, pc, e)
  {
    SettleLocal(sh, pc, j, e);
    if j.StillThere? {
      MoveShared(sh, pc, e);
    } else {
      JudgedShared(sh, pc, j.result, j.verdict, e);
    }
  }

  lemma JudgeGood(sh: Shared, pc: Pc, choice: Choice, e: Effect)
    requires SharedInv(sh) && pc.Routine? && InJudge(pc.rt) && Ready(sh, pc, e)
    requires JudgeStep(sh, pc.c, pc.support, pc.context, pc.rt, choice) == Some(e)
    ensures GoodStep(sh, pc, e)
  {
    hide SharedInv, SharedStep, LocalStep, LockDiscipline, Settle;
    var cmd := sh.cmds[pc.c];
    match pc.rt
    case RtLock(_) =>
      JudgeLockGood(sh, pc, choice, e);
      MoveShared(sh, pc, e);
    case RtCheck(end) =>
      SettleGood(sh, pc, JudgeEnd(cmd.result, cmd.container in sh.world.containers, end, choice), e);
    case RtState =>
      SettleGood(sh, pc, JudgeState(cmd.result, sh.world.containers, cmd.container, choice), e);
    case _ =>
  }

  lemma ClearGood(sh: Shared, pc: Pc, choice: Choice, e: Effect)
    requires SharedInv(sh) && pc.Routine? && !InRun(pc.rt) && !InJudge(pc.rt) && Ready(sh, pc, e)
    requires ClearStep(sh, pc.c, pc.support, pc.context, pc.rt, choice) == Some(e)
    ensures GoodStep(sh, pc, e)
  {
    ClearLocks(sh, pc, choice, e);
    if Clearing(pc.rt) {
      if pc.rt.RtClearLock? || pc.rt.RtClearTest? {
        ClearTestLocal(sh, pc, choice, e);
      } else {
        ClearSlotLocal(sh, pc, choice, e);
      }
      if e.pc.rt.RtClearUnlock? {
        var forget := pc.rt.RtClearForget?;
        var mid := if forget then WithSlots(sh, pc.support, Forget(SlotsOf(sh, pc.support), pc.c)) else sh;
        if forget {
          ForgetKeeps(sh, pc.support, pc.c);
        }
        ClearingOverShared(sh, mid, pc, !forget && !pc.rt.RtClearTest?, e);
      } else if pc.rt.RtClearDestroy? {
        ClearDestroyShared(sh, pc, e);
      } else {
        MoveShared(sh, pc, e);
      }
    } else {
      LeaveLocal(sh, pc, choice, e);
      if pc.rt.RtClose? {
        CloseShared(sh, pc, choice, e);
      } else {
        MoveShared(sh, pc, e);
      }
    }
  }
}

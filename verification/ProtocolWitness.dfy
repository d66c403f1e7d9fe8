/** Runs that exist: a routine can always finish, a command attached twice can
  * close its channel twice, and a Kill can leave a finished command in its slot.
  */
module ProtocolWitness {
  import opened Wrappers
  import opened Uuids
  import opened Containers
  import opened CommandResults
  import opened PodmanAttach
  import opened Protocol
  import opened ProtocolInvariant
  import opened ProtocolRuns

  // --- a routine can always finish

  /** Steps left to a routine, at most. */
  function StepsLeft(rt: RoutinePoint): nat {
    match rt
    case RtBegin(_) => 15
    case RtExists => 14
    case RtInspect => 13
    case RtRun(_) => 12
    case RtLock(_) => 11
    case RtCheck(_) => 10
    case RtState => 9
    case RtClearLock => 8
    case RtClearTest => 7
    case RtClearExists => 6
    case RtClearDestroy => 5
    case RtClearForget => 4
    case RtClearUnlock => 3
    case RtUnlock => 2
    case RtClose => 1
    case RtDone => 0
  }

  /** Every runtime call fails, and so does the run. */
  function Unlucky(rt: RoutinePoint): Choice {
    if rt.RtRun? then RunReturns(if rt.mode.NoRun? then Completed else Errored) else CallFails
  }

  /** One step of the routine of `c` towards its end. */
  ghost predicate Advances(sh: Shared, pc: Pc, e: Effect) {
    && pc.Routine? && pc.c < |sh.cmds|
    && e.pc.Routine? && e.pc.c == pc.c && StepsLeft(e.pc.rt) < StepsLeft(pc.rt) && e.spawned.None?
    && |e.shared.cmds| == |sh.cmds|
    && e.shared.cmds[pc.c].closes == sh.cmds[pc.c].closes + Count(e.pc.rt.RtDone?)
    && e.shared.cmds[pc.c].once == sh.cmds[pc.c].once
    && e.shared.world == sh.world
    && (!Unjudged(pc.rt) ==> !Unjudged(e.pc.rt) && e.shared.cmds[pc.c].result == sh.cmds[pc.c].result)
    && e.shared.cmds[pc.c].container == sh.cmds[pc.c].container
  }

  lemma UnluckyRun(sh: Shared, pc: Pc)
    requires pc.Routine? && pc.c < |sh.cmds| && Unjudged(pc.rt)
    ensures StepOf(sh, pc, Unlucky(pc.rt)).Some? && Advances(sh, pc, StepOf(sh, pc, Unlucky(pc.rt)).value)
  { }

  lemma UnluckySlot(sh: Shared, pc: Pc)
    requires pc.Routine? && pc.c < |sh.cmds| && (pc.rt.RtClearExists? || pc.rt.RtClearDestroy? || pc.rt.RtClearForget?)
    ensures ClearStep(sh, pc.c, pc.support, pc.context, pc.rt, CallFails).Some?
    ensures Advances(sh, pc, ClearStep(sh, pc.c, pc.support, pc.context, pc.rt, CallFails).value)
  { }

  lemma UnluckyTest(sh: Shared, pc: Pc)
    requires pc.Routine? && pc.c < |sh.cmds| && (pc.rt.RtClearLock? || pc.rt.RtClearTest?)
    ensures ClearStep(sh, pc.c, pc.support, pc.context, pc.rt, CallFails).Some?
    ensures Advances(sh, pc, ClearStep(sh, pc.c, pc.support, pc.context, pc.rt, CallFails).value)
  { }

  lemma UnluckyLeave(sh: Shared, pc: Pc)
    requires pc.Routine? && pc.c < |sh.cmds| && (pc.rt.RtClearUnlock? || pc.rt.RtUnlock? || pc.rt.RtClose?)
    ensures ClearStep(sh, pc.c, pc.support, pc.context, pc.rt, CallFails).Some?
    ensures Advances(sh, pc, ClearStep(sh, pc.c, pc.support, pc.context, pc.rt, CallFails).value)
  { }

  lemma UnluckyClear(sh: Shared, pc: Pc)
    requires pc.Routine? && pc.c < |sh.cmds| && !Unjudged(pc.rt) && !pc.rt.RtDone?
    ensures StepOf(sh, pc, Unlucky(pc.rt)).Some? && Advances(sh, pc, StepOf(sh, pc, Unlucky(pc.rt)).value)
  {
    hide ClearStep, Advances;
    if pc.rt.RtClearExists? || pc.rt.RtClearDestroy? || pc.rt.RtClearForget? {
      UnluckySlot(sh, pc);
    } else if pc.rt.RtClearLock? || pc.rt.RtClearTest? {
      UnluckyTest(sh, pc);
    } else {
      UnluckyLeave(sh, pc);
    }
  }

  lemma UnluckyEffect(sh: Shared, pc: Pc)
    requires pc.Routine? && pc.c < |sh.cmds| && !pc.rt.RtDone?
    ensures StepOf(sh, pc, Unlucky(pc.rt)).Some? && Advances(sh, pc, StepOf(sh, pc, Unlucky(pc.rt)).value)
  {
    if Unjudged(pc.rt) {
      UnluckyRun(sh, pc);
    } else {
      UnluckyClear(sh, pc);
    }
  }

  lemma TakesWanted(sh: Shared, pc: Pc, choice: Choice, e: Effect)
    requires pc.Routine? && pc.c < |sh.cmds| && StepOf(sh, pc, choice) == Some(e) && e.lock.Take?
    ensures !Holds(pc, e.lock.lock)
  { }

  /** Nobody but `t` holds a mutex. */
  predicate OnlyHolder(s: State, t: ThreadId) {
    forall l :: l in s.owner ==> s.owner[l] == t
  }

  lemma UnluckyEnabled(s: State, t: ThreadId)
    requires Inv(s) && t < |s.threads| && s.threads[t].Routine? && !s.threads[t].rt.RtDone? && OnlyHolder(s, t)
    ensures s.threads[t].c < |s.shared.cmds|
    ensures StepOf(s.shared, s.threads[t], Unlucky(s.threads[t].rt)).Some?
    ensures var e := StepOf(s.shared, s.threads[t], Unlucky(s.threads[t].rt)).value;
      Advances(s.shared, s.threads[t], e) && Next(s, Thread(t, Unlucky(s.threads[t].rt))) == Some(Apply(s, t, e))
  {
    var pc := s.threads[t];
    assert ThreadOk(s.shared, pc);
    UnluckyEffect(s.shared, pc);
    var e := StepOf(s.shared, pc, Unlucky(pc.rt)).value;
    if e.lock.Take? {
      TakesWanted(s.shared, pc, Unlucky(pc.rt), e);
    }
  }

  /** Other threads where they were. */
  predicate OthersStay(s: State, s': State, t: ThreadId) {
    && |s'.threads| == |s.threads|
    && forall u :: 0 <= u < |s.threads| && u != t ==> s'.threads[u] == s.threads[u]
  }

  /** From every state in which no other thread holds a mutex, a live routine can
    * run to its end by itself, even if every runtime call fails: it closes the
    * channel and releases its mutexes.
    */
  lemma {:induction false} RoutineFinishesAlone(s: State, t: ThreadId) returns (labels: seq<Label>)
    requires Inv(s) && t < |s.threads| && s.threads[t].Routine? && !s.threads[t].rt.RtDone? && OnlyHolder(s, t)
    ensures Run(s, labels).Some?
    ensures var s' := Run(s, labels).value; var c := s.threads[t].c;
      && Inv(s') && OthersStay(s, s', t) && s'.owner == map[]
      && c < |s.shared.cmds| == |s'.shared.cmds|
      && s'.shared.cmds[c].closes == s.shared.cmds[c].closes + 1
      && s'.threads[t].Routine? && s'.threads[t].rt.RtDone?
      && s'.shared.world == s.shared.world && s'.shared.cmds[c].container == s.shared.cmds[c].container
      && (!Unjudged(s.threads[t].rt) ==> s'.shared.cmds[c].result == s.shared.cmds[c].result)
    decreases StepsLeft(s.threads[t].rt)
  {
    hide StepOf, SharedInv, ThreadOk, FreeOk, LocksAgree, CountsAgree, Unlucky;
    var l := Thread(t, Unlucky(s.threads[t].rt));
    UnluckyEnabled(s, t);
    NextKept(s, l);
    var s1 := Next(s, l).value;
    if s1.threads[t].rt.RtDone? {
      labels := [l];
      assert Run(s1, []) == Some(s1);
      NoHolder(s1, t);
    } else {
      var rest := RoutineFinishesAlone(s1, t);
      labels := [l] + rest;
    }
  }

  lemma NoHolder(s: State, t: ThreadId)
    requires Inv(s) && t < |s.threads| && OnlyHolder(s, t) && s.threads[t].Routine? && s.threads[t].rt.RtDone?
    ensures s.owner == map[]
  {
    assert forall l :: !Holds(s.threads[t], l);
    forall l ensures l !in s.owner { }
  }

  // --- a command attached twice

  /** Thread `t` at `pc` over the given shared part and locks; the other threads as in `s`. */
  function At(s: State, t: ThreadId, sh: Shared, owner: map<LockId, ThreadId>, pc: Pc): State
    requires t < |s.threads|
  {
    State(sh, owner, s.threads[t := pc])
  }

  /** One step of thread `t` that starts no routine, in front of a run. */
  lemma StepThen(s: State, t: ThreadId, sh: Shared, owner: map<LockId, ThreadId>, pc: Pc, choice: Choice, e: Effect,
      labels: seq<Label>)
    requires t < |s.threads| && StepOf(sh, pc, choice) == Some(e) && e.spawned.None?
    requires e.lock.Take? ==> e.lock.lock !in owner
    ensures Run(At(s, t, sh, owner, pc), [Thread(t, choice)] + labels)
         == Run(At(s, t, e.shared, ChangeLock(owner, t, e.lock), e.pc), labels)
  {
    var a := At(s, t, sh, owner, pc);
    assert ([Thread(t, choice)] + labels)[1..] == labels;
    assert a.threads[t := e.pc] + [] == s.threads[t := e.pc];
    assert Apply(a, t, e) == At(s, t, e.shared, ChangeLock(owner, t, e.lock), e.pc);
  }

  /** Execute locks a free store, finds its slot empty and has its image. */
  lemma ExecuteReserves(s: State, t: ThreadId, support: bool, x: ContextId, labels: seq<Label>)
    requires t < |s.threads| && s.threads[t].Idle?
    requires StoreLock(support) !in s.owner && SlotsOf(s.shared, support).current.None?
    ensures Run(s, [Thread(t, Begin(Execute(support, x)))]
      + ([Thread(t, Step)] + ([Thread(t, Step)] + ([Thread(t, CallWorks)] + labels))))
         == Run(At(s, t, s.shared, s.owner[StoreLock(support) := t], Executing(support, x, ExCreate)), labels)
  {
    var sh, held := s.shared, s.owner[StoreLock(support) := t];
    var l3 := [Thread(t, CallWorks)] + labels;
    var l2 := [Thread(t, Step)] + l3;
    var l1 := [Thread(t, Step)] + l2;
    assert s == At(s, t, sh, s.owner, s.threads[t]);
    StepThen(s, t, sh, s.owner, s.threads[t], Begin(Execute(support, x)),
      Moved(sh, Executing(support, x, ExLock)).value, l1);
    StepThen(s, t, sh, s.owner, Executing(support, x, ExLock), Step,
      Locked(sh, Executing(support, x, ExCheck), StoreLock(support)).value, l2);
    StepThen(s, t, sh, held, Executing(support, x, ExCheck), Step, Moved(sh, Executing(support, x, ExImage)).value, l3);
    StepThen(s, t, sh, held, Executing(support, x, ExImage), CallWorks,
      Moved(sh, Executing(support, x, ExCreate)).value, labels);
  }

  /** The state after an Execute that created `container` and started command |cmds|. */
  function AfterExecute(s: State, t: ThreadId, support: bool, x: ContextId, id: Uuid, container: ContainerId,
      made: Container): State
    requires t < |s.threads|
  {
    var c := |s.shared.cmds|;
    State(
      WithSlots(s.shared, support, Push(SlotsOf(s.shared, support), c))
        .(world := s.shared.world.With(container, made),
          cmds := s.shared.cmds + [NewCommand(id, support, container, x)]),
      s.owner,
      s.threads[t := Idle(Started(c))] + [Routine(c, support, x, RtBegin(true))])
  }

  lemma PushThen(s: State, t: ThreadId, sh: Shared, owner: map<LockId, ThreadId>, support: bool, x: ContextId,
      id: Uuid, container: ContainerId, labels: seq<Label>)
    requires t < |s.threads|
    ensures var c := |sh.cmds|;
      Run(At(s, t, sh, owner, Executing(support, x, ExPush(id, container))),
        [Thread(t, Step)] + ([Thread(t, Step)] + labels))
      == Run(State(WithSlots(sh, support, Push(SlotsOf(sh, support), c))
        .(cmds := sh.cmds + [NewCommand(id, support, container, x)]),
                   owner - {StoreLock(support)},
                   s.threads[t := Idle(Started(c))] + [Routine(c, support, x, RtBegin(true))]), labels)
  {
    var c := |sh.cmds|;
    var a := At(s, t, sh, owner, Executing(support, x, ExPush(id, container)));
    var rest := [Thread(t, Step)] + labels;
    assert ([Thread(t, Step)] + rest)[1..] == rest;
    var e := ExecuteStep(sh, support, x, ExPush(id, container), Step).value;
    var b := Apply(a, t, e);
    assert b.threads == s.threads[t := e.pc] + [e.spawned.value];
    assert b == At(b, t, b.shared, owner, e.pc);
    StepThen(b, t, b.shared, owner, e.pc, Step, Unlocked(b.shared, Idle(Started(c)), StoreLock(support)).value, labels);
    assert b.threads[t := Idle(Started(c))] == s.threads[t := Idle(Started(c))] + [e.spawned.value];
  }

  /** The runtime creates the container while the store is locked. */
  function Reserved(sh: Shared, support: bool, id: Uuid, container: ContainerId, made: Container): Shared {
    WithSlots(sh, support, SlotsOf(sh, support).(inHand := Some(Created(id, container))))
      .(world := sh.world.With(container, made))
  }

  lemma CreateThen(s: State, t: ThreadId, owner: map<LockId, ThreadId>, support: bool, x: ContextId,
      id: Uuid, container: ContainerId, made: Container, labels: seq<Label>)
    requires t < |s.threads| && MayCreate(s.shared, support, id, container, made)
    ensures Run(At(s, t, s.shared, owner, Executing(support, x, ExCreate)),
      [Thread(t, Made(id, container, made))] + labels)
         == Run(At(s, t, Reserved(s.shared, support, id, container, made), owner,
           Executing(support, x, ExPush(id, container))), labels)
  {
    hide MayCreate;
    var e := Moved(Reserved(s.shared, support, id, container, made),
      Executing(support, x, ExPush(id, container))).value;
    StepThen(s, t, s.shared, owner, Executing(support, x, ExCreate), Made(id, container, made), e, labels);
  }

  lemma PushedReserved(sh: Shared, support: bool, x: ContextId, id: Uuid, container: ContainerId, made: Container)
    ensures var r := Reserved(sh, support, id, container, made); var c := |sh.cmds|;
      WithSlots(r, support, Push(SlotsOf(r, support), c)).(cmds := r.cmds + [NewCommand(id, support, container, x)])
      == WithSlots(sh, support, Push(SlotsOf(sh, support), c))
           .(world := sh.world.With(container, made), cmds := sh.cmds + [NewCommand(id, support, container, x)])
  { }

  /** A run of one Execute whose runtime calls work. */
  lemma ExecuteRuns(s: State, t: ThreadId, support: bool, x: ContextId, id: Uuid, container: ContainerId,
      made: Container)
      returns (labels: seq<Label>)
    requires t < |s.threads| && s.threads[t].Idle?
    requires StoreLock(support) !in s.owner && SlotsOf(s.shared, support).current.None?
    requires MayCreate(s.shared, support, id, container, made)
    ensures Run(s, labels) == Some(AfterExecute(s, t, support, x, id, container, made))
    ensures labels != [] && labels[0] == Thread(t, Begin(Execute(support, x)))
    ensures forall i :: 1 <= i < |labels| ==> labels[i].Thread? && !labels[i].choice.Begin?
  {
    hide MayCreate;
    var held := s.owner[StoreLock(support) := t];
    var last := [Thread(t, Step)] + ([Thread(t, Step)] + []);
    var create := [Thread(t, Made(id, container, made))] + last;
    ExecuteReserves(s, t, support, x, create);
    CreateThen(s, t, held, support, x, id, container, made, last);
    PushThen(s, t, Reserved(s.shared, support, id, container, made), held, support, x, id, container, []);
    PushedReserved(s.shared, support, x, id, container, made);
    assert held - {StoreLock(support)} == s.owner;
    labels := [Thread(t, Begin(Execute(support, x)))]
      + ([Thread(t, Step)] + ([Thread(t, Step)] + ([Thread(t, CallWorks)] + create)));
  }

  /** A run of AttachWait on an unfinished command up to its wait: it starts a routine. */
  lemma AttachRuns(s: State, t: ThreadId, c: CommandRef, x: ContextId) returns (labels: seq<Label>)
    requires t < |s.threads| && s.threads[t].Idle? && c < |s.shared.cmds| && CommandLock(c) !in s.owner
    requires s.shared.cmds[c].result == PENDING && !s.shared.cmds[c].once
    ensures Run(s, labels).Some?
    ensures var s' := Run(s, labels).value; var cmd := s.shared.cmds[c];
      && s'.owner == s.owner
      && s'.shared == WithCommand(s.shared, c,
           cmd.(once := true, routines := cmd.routines + 1, contexts := cmd.contexts + {x}))
      && s'.threads == s.threads[t := Calling(c, ClDone)] + [Routine(c, cmd.support, x, RtBegin(false))]
  {
    var sh, held, intent := s.shared, s.owner[CommandLock(c) := t], ToAttach(x);
    var l3 := [Thread(t, Step)];
    var l2 := [Thread(t, Step)] + l3;
    var l1 := [Thread(t, Step)] + l2;
    assert s == At(s, t, sh, s.owner, s.threads[t]);
    StepThen(s, t, sh, s.owner, s.threads[t], Begin(AttachWait(c, x)), Moved(sh, Calling(c, ClCheckLock(intent))).value,
      l1);
    StepThen(s, t, sh, s.owner, Calling(c, ClCheckLock(intent)), Step,
      Locked(sh, Calling(c, ClCheckRead(intent)), CommandLock(c)).value, l2);
    StepThen(s, t, sh, held, Calling(c, ClCheckRead(intent)), Step,
      Unlocked(sh, Calling(c, ClOnce(x)), CommandLock(c)).value, l3);
    assert held - {CommandLock(c)} == s.owner;
    labels := [Thread(t, Begin(AttachWait(c, x)))] + l1;
    var a := At(s, t, sh, s.owner, Calling(c, ClOnce(x)));
    var e := CallStep(sh, c, ClOnce(x), Step).value;
    assert a.threads[t := e.pc] == s.threads[t := e.pc];
    assert Next(a, Thread(t, Step)) == Some(Apply(a, t, e));
    assert Run(a, l3) == Run(Apply(a, t, e), []);
  }

  /** Two live routines of one command close its channel twice: the second close panics. */
  lemma TwoRoutinesCloseTwice(s: State, t: ThreadId, u: ThreadId) returns (labels: seq<Label>)
    requires Inv(s) && s.owner == map[] && t < |s.threads| && u < |s.threads| && t != u
    requires s.threads[t].Routine? && !s.threads[t].rt.RtDone? && s.threads[u].Routine? && !s.threads[u].rt.RtDone?
    requires s.threads[t].c == s.threads[u].c
    ensures Run(s, labels).Some? && s.threads[t].c < |s.shared.cmds| <= |Run(s, labels).value.shared.cmds|
    ensures Run(s, labels).value.shared.cmds[s.threads[t].c].closes == s.shared.cmds[s.threads[t].c].closes + 2
  {
    var first := RoutineFinishesAlone(s, t);
    var s1 := Run(s, first).value;
    var second := RoutineFinishesAlone(s1, u);
    labels := first + second;
    RunSplit(s, first, second);
  }

  /** Execute, then AttachWait on the unfinished command: two routines, no mutex held. */
  lemma AttachAfterExecute(s: State, t: ThreadId, u: ThreadId, id: Uuid, container: ContainerId, made: Container)
      returns (labels: seq<Label>)
    requires t < |s.threads| && u < |s.threads| && t != u && s.threads[t].Idle? && s.threads[u].Idle?
    requires s.owner == map[] && s.shared.payload.current.None? && MayCreate(s.shared, false, id, container, made)
    ensures Run(s, labels).Some?
    ensures var s' := Run(s, labels).value; var n, c := |s.threads|, |s.shared.cmds|;
      && s'.owner == map[] && |s'.threads| == n + 2
      && s'.threads[n] == Routine(c, false, 0, RtBegin(true))
      && s'.threads[n + 1] == Routine(c, false, 0, RtBegin(false))
      && |s'.shared.cmds| == c + 1 && s'.shared.cmds[c].closes == 0
      && s'.shared.cmds[c].result == PENDING && s'.shared.cmds[c].container == container
      && container in s'.shared.world.containers
  {
    hide MayCreate;
    var c := |s.shared.cmds|;
    var l1 := ExecuteRuns(s, t, false, 0, id, container, made);
    var s1 := AfterExecute(s, t, false, 0, id, container, made);
    var l2 := AttachRuns(s1, u, c, 0);
    RunSplit(s, l1, l2);
    labels := l1 + l2;
  }

  /** Without the restriction the close-once guarantee fails: from every freshly
    * built executor with an empty payload slot and two idle callers, an Execute
    * and an AttachWait on its unfinished command lead to a run that closes one
    * channel twice.
    */
  lemma AttachingTwiceClosesTwice(s: State, t: ThreadId, u: ThreadId, id: Uuid, container: ContainerId, made: Container)
      returns (labels: seq<Label>)
    requires Start(s) && t < |s.threads| && u < |s.threads| && t != u
    requires s.shared.payload.current.None? && MayCreate(s.shared, false, id, container, made)
    ensures Run(s, labels).Some?
    ensures exists c :: 0 <= c < |Run(s, labels).value.shared.cmds| && Run(s, labels).value.shared.cmds[c].closes == 2
  {
    hide MayCreate;
    var first := AttachAfterExecute(s, t, u, id, container, made);
    StartInv(s);
    RunKept(s, first);
    var second := TwoRoutinesCloseTwice(Run(s, first).value, |s.threads|, |s.threads| + 1);
    RunSplit(s, first, second);
    labels := first + second;
  }

  // --- a command attached twice, killed with another exit code than 1

  /** The second routine finds nothing to run. */
  lemma SkipsRun(s: State, t: ThreadId, c: CommandRef, x: ContextId, labels: seq<Label>)
    requires t < |s.threads| && s.threads[t] == Routine(c, false, x, RtBegin(false)) && c < |s.shared.cmds|
    requires !s.shared.cmds[c].result.finished
    ensures Run(s, [Thread(t, Step)] + ([Thread(t, CallFails)] + labels))
         == Run(At(s, t, s.shared, s.owner, Routine(c, false, x, RtRun(NoRun))), labels)
  {
    hide Run, Next, MayCreate;
    var sh := s.shared;
    assert s == At(s, t, sh, s.owner, s.threads[t]);
    StepThen(s, t, sh, s.owner, s.threads[t], Step, Moved(sh, Routine(c, false, x, RtExists)).value,
      [Thread(t, CallFails)] + labels);
    StepThen(s, t, sh, s.owner, Routine(c, false, x, RtExists), CallFails,
      Moved(sh, Routine(c, false, x, RtRun(NoRun))).value,
      labels);
  }

  function AbortedShared(sh: Shared, c: CommandRef): Shared
    requires c < |sh.cmds|
  {
    var cmd := sh.cmds[c];
    WithCommand(sh, c, cmd.(result := Killed(cmd.result), verdict := Some(RunWasAborted), clearing := true))
  }

  lemma RunAborts(sh: Shared, c: CommandRef, x: ContextId)
    requires c < |sh.cmds|
    ensures JudgeStep(sh, c, false, x, RtCheck(Aborted), Step)
      == Moved(AbortedShared(sh, c), Routine(c, false, x, RtClearLock))
  { }

  /** The first routine's run is aborted: the command is killed. */
  lemma AbortedRunReaches(s: State, t: ThreadId, c: CommandRef, x: ContextId, labels: seq<Label>)
    requires t < |s.threads| && s.threads[t] == Routine(c, false, x, RtBegin(true)) && c < |s.shared.cmds|
    requires CommandLock(c) !in s.owner && x in s.shared.ended
    ensures Run(s, [Thread(t, Step)]
      + ([Thread(t, RunReturns(Aborted))] + ([Thread(t, Step)] + ([Thread(t, Step)] + labels))))
         == Run(At(s, t, AbortedShared(s.shared, c), s.owner[CommandLock(c) := t], Routine(c, false, x, RtClearLock)),
           labels)
  {
    hide Run, Next, MayCreate, AbortedShared;
    RunAborts(s.shared, c, x);
    var sh, held := s.shared, s.owner[CommandLock(c) := t];
    var l3 := [Thread(t, Step)] + labels;
    var l2 := [Thread(t, Step)] + l3;
    var l1 := [Thread(t, RunReturns(Aborted))] + l2;
    assert s == At(s, t, sh, s.owner, s.threads[t]);
    StepThen(s, t, sh, s.owner, s.threads[t], Step, Moved(sh, Routine(c, false, x, RtRun(StartAndAttach))).value, l1);
    StepThen(s, t, sh, s.owner, Routine(c, false, x, RtRun(StartAndAttach)), RunReturns(Aborted),
      Moved(sh, Routine(c, false, x, RtLock(Aborted))).value, l2);
    StepThen(s, t, sh, s.owner, Routine(c, false, x, RtLock(Aborted)), Step,
      Locked(sh, Routine(c, false, x, RtCheck(Aborted)), CommandLock(c)).value, l3);
    StepThen(s, t, sh, held, Routine(c, false, x, RtCheck(Aborted)), Step,
      Moved(AbortedShared(sh, c), Routine(c, false, x, RtClearLock)).value, labels);
  }

  function InspectedShared(sh: Shared, c: CommandRef, code: int): Shared
    requires c < |sh.cmds|
  {
    var cmd := sh.cmds[c];
    WithCommand(sh, c,
      cmd.(result := cmd.result.(finished := true, code := code), verdict := Some(Ended(code)), clearing := true))
  }

  lemma RunInspects(sh: Shared, c: CommandRef, x: ContextId)
    requires c < |sh.cmds| && sh.cmds[c].container in sh.world.containers
    requires IsEnded(sh.world.containers[sh.cmds[c].container].status)
    ensures JudgeStep(sh, c, false, x, RtCheck(Completed), CallWorks) == Moved(sh, Routine(c, false, x, RtState))
    ensures JudgeStep(sh, c, false, x, RtState, CallWorks)
      == Moved(InspectedShared(sh, c, sh.world.containers[sh.cmds[c].container].exitCode),
        Routine(c, false, x, RtClearLock))
  { }

  /** The second routine reads the exit code of the ended container. */
  lemma SecondJudges(s: State, t: ThreadId, c: CommandRef, x: ContextId, labels: seq<Label>)
    requires t < |s.threads| && s.threads[t] == Routine(c, false, x, RtRun(NoRun)) && c < |s.shared.cmds|
    requires CommandLock(c) !in s.owner && s.shared.cmds[c].container in s.shared.world.containers
    requires IsEnded(s.shared.world.containers[s.shared.cmds[c].container].status)
    ensures var code := s.shared.world.containers[s.shared.cmds[c].container].exitCode;
      Run(s, [Thread(t, RunReturns(Completed))]
        + ([Thread(t, Step)] + ([Thread(t, CallWorks)] + ([Thread(t, CallWorks)] + labels))))
      == Run(At(s, t, InspectedShared(s.shared, c, code), s.owner[CommandLock(c) := t],
        Routine(c, false, x, RtClearLock)), labels)
  {
    hide Run, Next, MayCreate, InspectedShared, IsEnded;
    RunInspects(s.shared, c, x);
    var sh, held := s.shared, s.owner[CommandLock(c) := t];
    var code := sh.world.containers[sh.cmds[c].container].exitCode;
    var l3 := [Thread(t, CallWorks)] + labels;
    var l2 := [Thread(t, CallWorks)] + l3;
    var l1 := [Thread(t, Step)] + l2;
    assert s == At(s, t, sh, s.owner, s.threads[t]);
    StepThen(s, t, sh, s.owner, s.threads[t], RunReturns(Completed),
      Moved(sh, Routine(c, false, x, RtLock(Completed))).value, l1);
    StepThen(s, t, sh, s.owner, Routine(c, false, x, RtLock(Completed)), Step,
      Locked(sh, Routine(c, false, x, RtCheck(Completed)), CommandLock(c)).value, l2);
    StepThen(s, t, sh, held, Routine(c, false, x, RtCheck(Completed)), CallWorks,
      Moved(sh, Routine(c, false, x, RtState)).value, l3);
    StepThen(s, t, sh, held, Routine(c, false, x, RtState), CallWorks,
      Moved(InspectedShared(sh, c, code), Routine(c, false, x, RtClearLock)).value, labels);
  }

  /** The state after the first routine judged its aborted run and the second one skipped its own. */
  function OneAborted(s: State, t: ThreadId, u: ThreadId, c: CommandRef): State
    requires t < |s.threads| && u < |s.threads| && c < |s.shared.cmds|
  {
    State(AbortedShared(s.shared.(ended := s.shared.ended + {0}), c), s.owner[CommandLock(c) := t],
      s.threads[u := Routine(c, false, 0, RtRun(NoRun))][t := Routine(c, false, 0, RtClearLock)])
  }

  lemma FirstAborts(s: State, t: ThreadId, u: ThreadId, c: CommandRef) returns (labels: seq<Label>)
    requires t < |s.threads| && u < |s.threads| && t != u && s.owner == map[]
    requires s.threads[t] == Routine(c, false, 0, RtBegin(true)) && s.threads[u] == Routine(c, false, 0, RtBegin(false))
    requires c < |s.shared.cmds| && !s.shared.cmds[c].result.finished
    ensures Run(s, labels) == Some(OneAborted(s, t, u, c))
  {
    var end, skip := [EndContext(0)], [Thread(u, Step)] + ([Thread(u, CallFails)] + []);
    var abort := [Thread(t, Step)] + ([Thread(t, RunReturns(Aborted))]
      + ([Thread(t, Step)] + ([Thread(t, Step)] + [])));
    var s1 := s.(shared := s.shared.(ended := s.shared.ended + {0}));
    ContextEnds(s);
    SkipsRun(s1, u, c, 0, []);
    var s2 := At(s1, u, s1.shared, s1.owner, Routine(c, false, 0, RtRun(NoRun)));
    AbortedRunReaches(s2, t, c, 0, []);
    NoLabels(s2);
    NoLabels(OneAborted(s, t, u, c));
    hide Run, AbortedShared;
    RunSplit(s, end, skip);
    RunSplit(s, end + skip, abort);
    labels := end + skip + abort;
  }

  lemma NoLabels(s: State)
    ensures Run(s, []) == Some(s)
  { }

  /** Two routines of one command, no mutex held: the first is aborted and ends, then the second reads `code`. */
  lemma TwoRoutinesDisagree(s: State, t: ThreadId, u: ThreadId, c: CommandRef, code: int) returns (labels: seq<Label>)
    requires Inv(s) && s.owner == map[] && t < |s.threads| && u < |s.threads| && t != u
    requires s.threads[t] == Routine(c, false, 0, RtBegin(true)) && s.threads[u] == Routine(c, false, 0, RtBegin(false))
    requires c < |s.shared.cmds| && s.shared.cmds[c].result == PENDING
    requires s.shared.cmds[c].container in s.shared.world.containers
    ensures Run(s, labels).Some? && c < |Run(s, labels).value.shared.cmds|
    ensures Run(s, labels).value.shared.cmds[c].result == CommandResult(true, true, code, None)
  {
    hide Inv, Run, IsEnded, InspectedShared;
    var first := FirstAborts(s, t, u, c);
    RunKept(s, first);
    var finish := RoutineFinishesAlone(OneAborted(s, t, u, c), t);
    labels := SecondReads(s, first, finish, u, c, code);
  }

  lemma ContextEnds(s: State)
    ensures Run(s, [EndContext(0)]) == Some(s.(shared := s.shared.(ended := s.shared.ended + {0})))
  {
    var s1 := s.(shared := s.shared.(ended := s.shared.ended + {0}));
    assert Next(s, EndContext(0)) == Some(s1) && Run(s1, []) == Some(s1);
  }

  /** The state with the container of `c` ended with `code`. */
  function EndedIn(s: State, c: CommandRef, code: int): State
    requires c < |s.shared.cmds| && s.shared.cmds[c].container in s.shared.world.containers
  {
    var id := s.shared.cmds[c].container;
    s.(shared := s.shared.(world := s.shared.world.(containers :=
      s.shared.world.containers[id := s.shared.world.containers[id].(status := "exited", exitCode := code)])))
  }

  lemma ContainerEnds(s: State, c: CommandRef, code: int)
    requires c < |s.shared.cmds| && s.shared.cmds[c].container in s.shared.world.containers
    ensures Run(s, [ChangeStatus(s.shared.cmds[c].container, "exited", code)]) == Some(EndedIn(s, c, code))
    ensures IsEnded("exited")
  {
    var s1 := EndedIn(s, c, code);
    assert Next(s, ChangeStatus(s.shared.cmds[c].container, "exited", code)) == Some(s1) && Run(s1, []) == Some(s1);
    assert Lower("exited") == "exited";
  }

  lemma SecondReads(s: State, first: seq<Label>, finish: seq<Label>, u: ThreadId, c: CommandRef, code: int)
      returns (labels: seq<Label>)
    requires Run(s, first).Some? && Run(Run(s, first).value, finish).Some?
    requires var s4 := Run(Run(s, first).value, finish).value;
      && u < |s4.threads| && s4.threads[u] == Routine(c, false, 0, RtRun(NoRun)) && s4.owner == map[]
      && c < |s4.shared.cmds| && s4.shared.cmds[c].container in s4.shared.world.containers
      && s4.shared.cmds[c].result == CommandResult(true, true, 1, None)
    ensures Run(s, labels).Some? && c < |Run(s, labels).value.shared.cmds|
    ensures Run(s, labels).value.shared.cmds[c].result == CommandResult(true, true, code, None)
  {
    var s4 := Run(Run(s, first).value, finish).value;
    var change := [ChangeStatus(s4.shared.cmds[c].container, "exited", code)];
    var read := [Thread(u, RunReturns(Completed))]
      + ([Thread(u, Step)] + ([Thread(u, CallWorks)] + ([Thread(u, CallWorks)] + [])));
    ContainerEnds(s4, c, code);
    var s5 := EndedIn(s4, c, code);
    SecondJudges(s5, u, c, 0, []);
    RunSplit(s, first, finish);
    RunSplit(s, first + finish, change);
    RunSplit(s, first + finish + change, read);
    labels := first + finish + change + read;
    var s6 := At(s5, u, InspectedShared(s5.shared, c, code), s5.owner[CommandLock(c) := u],
      Routine(c, false, 0, RtClearLock));
    assert Run(s6, []) == Some(s6);
  }

  /** A command attached twice can end killed with any exit code: from every freshly built
    * executor with a free payload slot there is a run in which the first routine is
    * aborted and the second one then reads the exit code of the ended container.
    */
  lemma KilledWithAnyCode(s: State, t: ThreadId, u: ThreadId, id: Uuid, container: ContainerId, made: Container,
      code: int)
      returns (labels: seq<Label>)
    requires Start(s) && t < |s.threads| && u < |s.threads| && t != u
    requires s.shared.payload.current.None? && MayCreate(s.shared, false, id, container, made)
    ensures Run(s, labels).Some? && |s.shared.cmds| < |Run(s, labels).value.shared.cmds|
    ensures Run(s, labels).value.shared.cmds[|s.shared.cmds|].result == CommandResult(true, true, code, None)
  {
    hide MayCreate;
    var first := AttachAfterExecute(s, t, u, id, container, made);
    StartInv(s);
    RunKept(s, first);
    hide Start, Run, Inv;
    var second := TwoRoutinesDisagree(Run(s, first).value, |s.threads|, |s.threads| + 1, |s.shared.cmds|, code);
    RunSplit(s, first, second);
    labels := first + second;
  }

  // --- a run that ends before its container does

  lemma StartableGoesOn(status: string)
    requires IsStartable(status)
    ensures !IsEnded(status)
  {
    assert "created"[0] == 'c' && "configured"[0] == 'c' && "stopped"[0] == 's' && "exited"[0] == 'e';
  }

  /** The command is judged, its result as it was. */
  function UnendedShared(sh: Shared, c: CommandRef): Shared
    requires c < |sh.cmds|
  {
    WithCommand(sh, c, sh.cmds[c].(verdict := Some(NotEnded), clearing := true))
  }

  lemma UnendedJudged(sh: Shared, c: CommandRef, x: ContextId)
    requires c < |sh.cmds| && sh.cmds[c].container in sh.world.containers
    requires !IsEnded(sh.world.containers[sh.cmds[c].container].status)
    ensures JudgeStep(sh, c, false, x, RtCheck(Completed), CallWorks) == Moved(sh, Routine(c, false, x, RtState))
    ensures JudgeStep(sh, c, false, x, RtState, CallWorks)
      == Moved(UnendedShared(sh, c), Routine(c, false, x, RtClearLock))
  {
    assert sh.cmds[c].(result := sh.cmds[c].result) == sh.cmds[c];
  }

  /** The run returns no error, but the inspection sees the container not ended. */
  lemma UnendedReaches(s: State, t: ThreadId, c: CommandRef, x: ContextId, labels: seq<Label>)
    requires t < |s.threads| && s.threads[t] == Routine(c, false, x, RtBegin(true)) && c < |s.shared.cmds|
    requires CommandLock(c) !in s.owner && s.shared.cmds[c].container in s.shared.world.containers
    requires !IsEnded(s.shared.world.containers[s.shared.cmds[c].container].status)
    ensures Run(s, [Thread(t, Step)] + ([Thread(t, RunReturns(Completed))]
        + ([Thread(t, Step)] + ([Thread(t, CallWorks)] + ([Thread(t, CallWorks)] + labels)))))
      == Run(At(s, t, UnendedShared(s.shared, c), s.owner[CommandLock(c) := t], Routine(c, false, x, RtClearLock)),
           labels)
  {
    hide Run, Next, MayCreate, UnendedShared, IsEnded;
    UnendedJudged(s.shared, c, x);
    var sh, held := s.shared, s.owner[CommandLock(c) := t];
    var l4 := [Thread(t, CallWorks)] + labels;
    var l3 := [Thread(t, CallWorks)] + l4;
    var l2 := [Thread(t, Step)] + l3;
    var l1 := [Thread(t, RunReturns(Completed))] + l2;
    assert s == At(s, t, sh, s.owner, s.threads[t]);
    StepThen(s, t, sh, s.owner, s.threads[t], Step, Moved(sh, Routine(c, false, x, RtRun(StartAndAttach))).value, l1);
    StepThen(s, t, sh, s.owner, Routine(c, false, x, RtRun(StartAndAttach)), RunReturns(Completed),
      Moved(sh, Routine(c, false, x, RtLock(Completed))).value, l2);
    StepThen(s, t, sh, s.owner, Routine(c, false, x, RtLock(Completed)), Step,
      Locked(sh, Routine(c, false, x, RtCheck(Completed)), CommandLock(c)).value, l3);
    StepThen(s, t, sh, held, Routine(c, false, x, RtCheck(Completed)), CallWorks,
      Moved(sh, Routine(c, false, x, RtState)).value, l4);
    StepThen(s, t, sh, held, Routine(c, false, x, RtState), CallWorks,
      Moved(UnendedShared(sh, c), Routine(c, false, x, RtClearLock)).value, labels);
  }

  /** A Wait on a command whose channel is closed. */
  lemma WaitReturns(s: State, u: ThreadId, c: CommandRef) returns (labels: seq<Label>)
    requires u < |s.threads| && s.threads[u].Idle? && s.owner == map[]
    requires c < |s.shared.cmds| && s.shared.cmds[c].result == PENDING && s.shared.cmds[c].closes > 0
    ensures Run(s, labels) == Some(At(s, u, s.shared, s.owner, Idle(Saw(c, PENDING, true))))
  {
    hide Run, Next, MayCreate;
    var sh, held := s.shared, s.owner[CommandLock(c) := u];
    var l5 := [Thread(u, Step)] + [];
    var l4 := [Thread(u, Step)] + l5;
    var l3 := [Thread(u, Step)] + l4;
    var l2 := [Thread(u, Step)] + l3;
    var l1 := [Thread(u, Step)] + l2;
    assert s == At(s, u, sh, s.owner, s.threads[u]);
    StepThen(s, u, sh, s.owner, s.threads[u], Begin(Wait(c)), Moved(sh, Calling(c, ClCheckLock(ToWait))).value, l1);
    StepThen(s, u, sh, s.owner, Calling(c, ClCheckLock(ToWait)), Step,
      Locked(sh, Calling(c, ClCheckRead(ToWait)), CommandLock(c)).value, l2);
    StepThen(s, u, sh, held, Calling(c, ClCheckRead(ToWait)), Step,
      Unlocked(sh, Calling(c, ClDone), CommandLock(c)).value, l3);
    assert held - {CommandLock(c)} == s.owner;
    StepThen(s, u, sh, s.owner, Calling(c, ClDone), Step, Moved(sh, Calling(c, ClStateLock(true))).value, l4);
    StepThen(s, u, sh, s.owner, Calling(c, ClStateLock(true)), Step,
      Locked(sh, Calling(c, ClStateRead(true)), CommandLock(c)).value, l5);
    StepThen(s, u, sh, held, Calling(c, ClStateRead(true)), Step,
      Unlocked(sh, Idle(Saw(c, PENDING, true)), CommandLock(c)).value, []);
    NoLabels(At(s, u, sh, s.owner, Idle(Saw(c, PENDING, true))));
    labels := [Thread(u, Begin(Wait(c)))] + l1;
  }

  /** The routine of the command just executed closes its channel on an unfinished result. */
  lemma UnendedCloses(s: State, n: ThreadId, c: CommandRef) returns (labels: seq<Label>)
    requires Inv(s) && s.owner == map[] && n < |s.threads| && s.threads[n] == Routine(c, false, 0, RtBegin(true))
    requires c < |s.shared.cmds| && s.shared.cmds[c].result == PENDING && s.shared.cmds[c].closes == 0
    requires s.shared.cmds[c].container in s.shared.world.containers
    requires !IsEnded(s.shared.world.containers[s.shared.cmds[c].container].status)
    ensures Run(s, labels).Some?
    ensures var s' := Run(s, labels).value;
      && s'.owner == map[] && OthersStay(s, s', n)
      && c < |s'.shared.cmds| && s'.shared.cmds[c].result == PENDING && s'.shared.cmds[c].closes == 1
  {
    hide Run, Inv, IsEnded, UnendedShared;
    var judge := [Thread(n, Step)] + ([Thread(n, RunReturns(Completed))]
      + ([Thread(n, Step)] + ([Thread(n, CallWorks)] + ([Thread(n, CallWorks)] + []))));
    var mid := At(s, n, UnendedShared(s.shared, c), s.owner[CommandLock(c) := n], Routine(c, false, 0, RtClearLock));
    UnendedReaches(s, n, c, 0, []);
    NoLabels(mid);
    RunKept(s, judge);
    StaysPending(s.shared, c);
    var finish := RoutineFinishesAlone(mid, n);
    RunSplit(s, judge, finish);
    labels := judge + finish;
  }

  lemma StaysPending(sh: Shared, c: CommandRef)
    requires c < |sh.cmds|
    ensures var sh' := UnendedShared(sh, c);
      |sh'.cmds| == |sh.cmds| && sh'.cmds[c].result == sh.cmds[c].result && sh'.cmds[c].closes == sh.cmds[c].closes
  { }

  /** A command can stay unfinished for good: from every freshly built executor with a free
    * payload slot there is a run of Execute and Wait in which the command's run returns no
    * error while its container has not ended, its routine closes the channel, and Wait
    * returns an unfinished result.
    */
  lemma WaitReturnsUnfinished(s: State, t: ThreadId, id: Uuid, container: ContainerId, made: Container)
      returns (labels: seq<Label>)
    requires Start(s) && t < |s.threads|
    requires s.shared.payload.current.None? && MayCreate(s.shared, false, id, container, made)
    ensures Run(s, labels).Some?
    ensures var s' := Run(s, labels).value; var c := |s.shared.cmds|;
      && t < |s'.threads| && s'.threads[t] == Idle(Saw(c, PENDING, true))
      && c < |s'.shared.cmds| && s'.shared.cmds[c].result == PENDING && s'.shared.cmds[c].closes == 1
  {
    var c, n := |s.shared.cmds|, |s.threads|;
    StartableGoesOn(made.status);
    StartInv(s);
    var first := ExecuteRuns(s, t, false, 0, id, container, made);
    RunKept(s, first);
    hide Run, Inv, IsEnded, MayCreate, Start, IsStartable;
    var s1 := AfterExecute(s, t, false, 0, id, container, made);
    JustExecuted(s, t, id, container, made);
    var second := UnendedCloses(s1, n, c);
    var s2 := Run(s1, second).value;
    assert s2.threads[t] == s1.threads[t];
    var third := WaitReturns(s2, t, c);
    RunSplit(s, first, second);
    RunSplit(s, first + second, third);
    labels := first + second + third;
  }

  lemma JustExecuted(s: State, t: ThreadId, id: Uuid, container: ContainerId, made: Container)
    requires t < |s.threads|
    ensures var s1 := AfterExecute(s, t, false, 0, id, container, made); var c := |s.shared.cmds|;
      && c < |s1.shared.cmds| && s1.shared.cmds[c] == NewCommand(id, false, container, 0)
      && container in s1.shared.world.containers && s1.shared.world.containers[container] == made
      && |s1.threads| == |s.threads| + 1 && s1.threads[|s.threads|] == Routine(c, false, 0, RtBegin(true))
      && s1.threads[t] == Idle(Started(c))
  { }

  // --- a Kill racing with the routine's clear step

  /** Kill up to its destroy call. */
  lemma KillReaches(s: State, u: ThreadId, c: CommandRef, labels: seq<Label>)
    requires u < |s.threads| && s.threads[u].Idle? && c < |s.shared.cmds| && CommandLock(c) !in s.owner
    requires !s.shared.cmds[c].result.finished && s.shared.cmds[c].container in s.shared.world.containers
    ensures Run(s, [Thread(u, Begin(Kill(c)))]
      + ([Thread(u, Step)] + ([Thread(u, Step)] + ([Thread(u, CallWorks)] + labels))))
         == Run(At(s, u, WithCommand(s.shared, c, s.shared.cmds[c].(killAsked := true)), s.owner,
           Calling(c, ClKillDestroy)), labels)
  {
    hide Run, Next, MayCreate;
    var sh, held := s.shared, s.owner[CommandLock(c) := u];
    var l3 := [Thread(u, CallWorks)] + labels;
    var l2 := [Thread(u, Step)] + l3;
    var l1 := [Thread(u, Step)] + l2;
    assert s == At(s, u, sh, s.owner, s.threads[u]);
    StepThen(s, u, sh, s.owner, s.threads[u], Begin(Kill(c)), Moved(sh, Calling(c, ClCheckLock(ToKill))).value, l1);
    StepThen(s, u, sh, s.owner, Calling(c, ClCheckLock(ToKill)), Step,
      Locked(sh, Calling(c, ClCheckRead(ToKill)), CommandLock(c)).value, l2);
    StepThen(s, u, sh, held, Calling(c, ClCheckRead(ToKill)), Step,
      Unlocked(sh, Calling(c, ClKillExists), CommandLock(c)).value, l3);
    assert held - {CommandLock(c)} == s.owner;
    StepThen(s, u, sh, s.owner, Calling(c, ClKillExists), CallWorks,
      Moved(WithCommand(sh, c, sh.cmds[c].(killAsked := true)), Calling(c, ClKillDestroy)).value, labels);
  }

  /** A routine whose run failed, up to its clearing. */
  lemma FailedRunReaches(s: State, t: ThreadId, c: CommandRef, support: bool, x: ContextId, labels: seq<Label>)
    requires t < |s.threads| && s.threads[t] == Routine(c, support, x, RtBegin(true)) && c < |s.shared.cmds|
    requires CommandLock(c) !in s.owner
    ensures Run(s, [Thread(t, Step)]
      + ([Thread(t, RunReturns(Errored))] + ([Thread(t, Step)] + ([Thread(t, Step)] + labels))))
         == Run(At(s, t, FailedShared(s.shared, c), s.owner[CommandLock(c) := t],
           Routine(c, support, x, RtClearLock)), labels)
  {
    hide Run, Next, MayCreate, FailedShared;
    RunFails(s.shared, c, support, x);
    var sh, held := s.shared, s.owner[CommandLock(c) := t];
    var l3 := [Thread(t, Step)] + labels;
    var l2 := [Thread(t, Step)] + l3;
    var l1 := [Thread(t, RunReturns(Errored))] + l2;
    assert s == At(s, t, sh, s.owner, s.threads[t]);
    StepThen(s, t, sh, s.owner, s.threads[t], Step, Moved(sh, Routine(c, support, x, RtRun(StartAndAttach))).value, l1);
    StepThen(s, t, sh, s.owner, Routine(c, support, x, RtRun(StartAndAttach)), RunReturns(Errored),
      Moved(sh, Routine(c, support, x, RtLock(Errored))).value, l2);
    StepThen(s, t, sh, s.owner, Routine(c, support, x, RtLock(Errored)), Step,
      Locked(sh, Routine(c, support, x, RtCheck(Errored)), CommandLock(c)).value, l3);
    StepThen(s, t, sh, held, Routine(c, support, x, RtCheck(Errored)), Step,
      Moved(FailedShared(sh, c), Routine(c, support, x, RtClearLock)).value, labels);
  }

  lemma RunFails(sh: Shared, c: CommandRef, support: bool, x: ContextId)
    requires c < |sh.cmds|
    ensures JudgeStep(sh, c, support, x, RtCheck(Errored), Step)
      == Moved(FailedShared(sh, c), Routine(c, support, x, RtClearLock))
  { }

  function FailedShared(sh: Shared, c: CommandRef): Shared
    requires c < |sh.cmds|
  {
    var cmd := sh.cmds[c];
    WithCommand(sh, c, cmd.(result := Failed(cmd.result, RunFailure), verdict := Some(RunFailed), clearing := true))
  }

  /** The routine of the current command, up to its destroy call. */
  lemma ClearReaches(s: State, t: ThreadId, sh: Shared, owner: map<LockId, ThreadId>, c: CommandRef, support: bool,
      x: ContextId, labels: seq<Label>)
    requires t < |s.threads| && c < |sh.cmds| && StoreLock(support) !in owner
    requires SlotsOf(sh, support).current == Some(c) && sh.cmds[c].container in sh.world.containers
    ensures Run(At(s, t, sh, owner, Routine(c, support, x, RtClearLock)),
      [Thread(t, Step)] + ([Thread(t, Step)] + ([Thread(t, CallWorks)] + labels)))
         == Run(At(s, t, sh, owner[StoreLock(support) := t], Routine(c, support, x, RtClearDestroy)), labels)
  {
    hide Run, Next, MayCreate;
    var held := owner[StoreLock(support) := t];
    var l3 := [Thread(t, CallWorks)] + labels;
    var l2 := [Thread(t, Step)] + l3;
    StepThen(s, t, sh, owner, Routine(c, support, x, RtClearLock), Step,
      Locked(sh, Routine(c, support, x, RtClearTest), StoreLock(support)).value, l2);
    StepThen(s, t, sh, held, Routine(c, support, x, RtClearTest), Step,
      Moved(sh, Routine(c, support, x, RtClearExists)).value, l3);
    StepThen(s, t, sh, held, Routine(c, support, x, RtClearExists), CallWorks,
      Moved(sh, Routine(c, support, x, RtClearDestroy)).value, labels);
  }

  /** The two destroy calls of the race: the Kill's works, the routine's fails. */
  lemma RaceSteps(sh: Shared, sh': Shared, pc: Pc)
    requires pc.Routine? && pc.c < |sh.cmds| && pc.c < |sh'.cmds| && pc.rt.RtClearDestroy?
    ensures StepOf(sh, Calling(pc.c, ClKillDestroy), CallWorks)
      == Moved(WithoutContainer(sh, sh.cmds[pc.c].container), Idle(Done))
    ensures StepOf(sh', pc, CallFails) == ClearingOver(sh', pc.c, pc.support, pc.context, true)
  { }

  lemma AboutToDestroy(s: State, t: ThreadId)
    requires Inv(s) && t < |s.threads| && s.threads[t].Routine? && s.threads[t].rt.RtClearDestroy?
    ensures s.threads[t].c < |s.shared.cmds|
    ensures var c := s.threads[t].c; IsCurrent(s.shared.cmds[c], c, s.shared.payload, s.shared.support)
  {
    hide SharedInv, LocksAgree, CountsAgree, FreeOk;
    assert ThreadOk(s.shared, s.threads[t]);
  }

  /** Wherever a Kill is about to destroy the container that the routine is about
    * to destroy too: if the Kill comes first and the routine's call then fails, as
    * destroying a missing container does, the command keeps its slot although its
    * container is gone and no Destroy lost anything.
    */
  lemma KillBeatsClear(s: State, t: ThreadId, u: ThreadId, c: CommandRef)
    requires Inv(s) && t < |s.threads| && u < |s.threads| && t != u && c < |s.shared.cmds|
    requires s.threads[t].Routine? && s.threads[t].c == c && s.threads[t].rt.RtClearDestroy?
    requires s.threads[u] == Calling(c, ClKillDestroy)
    ensures var s' := Run(s, [Thread(u, CallWorks), Thread(t, CallFails)]);
      && s'.Some? && c < |s'.value.shared.cmds|
      && IsCurrent(s'.value.shared.cmds[c], c, s'.value.shared.payload, s'.value.shared.support)
      && s'.value.shared.cmds[c].clearFailed
      && s'.value.shared.cmds[c].result == s.shared.cmds[c].result
      && s'.value.shared.cmds[c].container !in s'.value.shared.world.containers
      && s'.value.shared.lost == s.shared.lost && s'.value.shared.outside == s.shared.outside
  {
    var sh, pc := s.shared, s.threads[t];
    AboutToDestroy(s, t);
    var e1 := Moved(WithoutContainer(sh, sh.cmds[c].container), Idle(Done)).value;
    var s1 := Apply(s, u, e1);
    RaceSteps(sh, s1.shared, pc);
    hide StepOf, Inv, Forget;
    assert s1.threads[t] == pc;
    var e2 := ClearingOver(s1.shared, c, pc.support, pc.context, true).value;
    var l := [Thread(u, CallWorks), Thread(t, CallFails)];
    assert l[1..] == [Thread(t, CallFails)] && l[1..][1..] == [];
    assert Run(s, l) == Run(s1, l[1..]);
    assert Run(s1, l[1..]) == Run(Apply(s1, t, e2), []);
  }

  /** Execute, a Kill stopped before its destroy call, and the routine before its own. */
  lemma RaceIsReached(s: State, t: ThreadId, u: ThreadId, id: Uuid, container: ContainerId, made: Container)
      returns (labels: seq<Label>)
    requires Start(s) && t < |s.threads| && u < |s.threads| && t != u
    requires s.shared.payload.current.None? && MayCreate(s.shared, false, id, container, made)
    ensures Run(s, labels).Some?
    ensures var s' := Run(s, labels).value; var c, r := |s.shared.cmds|, |s.threads|;
      && c < |s'.shared.cmds| && r < |s'.threads| && u < |s'.threads|
      && s'.threads[r] == Routine(c, false, 0, RtClearDestroy) && s'.threads[u] == Calling(c, ClKillDestroy)
      && s'.shared.cmds[c].result.finished && s'.shared.lost == {} && s'.shared.outside == {}
  {
    hide MayCreate;
    var c, r := |s.shared.cmds|, |s.threads|;
    var first := ExecuteRuns(s, t, false, 0, id, container, made);
    var s1 := AfterExecute(s, t, false, 0, id, container, made);
    var k := [Thread(u, Begin(Kill(c)))] + ([Thread(u, Step)] + ([Thread(u, Step)] + ([Thread(u, CallWorks)] + [])));
    KillReaches(s1, u, c, []);
    var sh2 := WithCommand(s1.shared, c, s1.shared.cmds[c].(killAsked := true));
    var s2 := At(s1, u, sh2, s1.owner, Calling(c, ClKillDestroy));
    assert Run(s1, k) == Some(s2);
    var third := ClearingBegins(s2, r, c, 0);
    RunSplit(s, first, k);
    RunSplit(s, first + k, third);
    labels := first + k + third;
  }

  lemma ClearingBegins(s: State, t: ThreadId, c: CommandRef, x: ContextId) returns (labels: seq<Label>)
    requires t < |s.threads| && s.threads[t] == Routine(c, false, x, RtBegin(true)) && c < |s.shared.cmds|
    requires s.owner == map[] && s.shared.payload.current == Some(c)
    requires s.shared.cmds[c].container in s.shared.world.containers
    ensures Run(s, labels).Some?
    ensures var s' := Run(s, labels).value;
      && s'.shared == FailedShared(s.shared, c)
      && s'.threads == s.threads[t := Routine(c, false, x, RtClearDestroy)]
  {
    var last := [Thread(t, Step)] + ([Thread(t, Step)] + ([Thread(t, CallWorks)] + []));
    labels := [Thread(t, Step)] + ([Thread(t, RunReturns(Errored))] + ([Thread(t, Step)] + ([Thread(t, Step)] + last)));
    FailedRunReaches(s, t, c, false, x, last);
    ClearReaches(s, t, FailedShared(s.shared, c), s.owner[CommandLock(c) := t], c, false, x, []);
  }

  /** So "a finished command has left its slot" can fail without any fault of the
    * runtime but the refusal to destroy a container twice: from every freshly built
    * executor there is a run to a finished command that is still current.
    */
  lemma FinishedMayKeepSlot(s: State, t: ThreadId, u: ThreadId, id: Uuid, container: ContainerId, made: Container)
      returns (labels: seq<Label>)
    requires Start(s) && t < |s.threads| && u < |s.threads| && t != u
    requires s.shared.payload.current.None? && MayCreate(s.shared, false, id, container, made)
    ensures Run(s, labels).Some?
    ensures var sh := Run(s, labels).value.shared; var c := |s.shared.cmds|;
      && c < |sh.cmds| && sh.cmds[c].result.finished && sh.cmds[c].clearFailed
      && IsCurrent(sh.cmds[c], c, sh.payload, sh.support)
      && sh.cmds[c].container !in sh.world.containers && sh.lost == {} && sh.outside == {}
  {
    hide MayCreate;
    var first := RaceIsReached(s, t, u, id, container, made);
    StartInv(s);
    RunKept(s, first);
    var race := [Thread(u, CallWorks), Thread(|s.threads|, CallFails)];
    KillBeatsClear(Run(s, first).value, |s.threads|, u, |s.shared.cmds|);
    RunSplit(s, first, race);
    labels := first + race;
  }
}

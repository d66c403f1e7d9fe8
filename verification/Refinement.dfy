/** The object's methods against the protocol: what a method does alone is what
  * the protocol's steps do when no other thread steps in between and every
  * runtime call is answered as the method's runtime would answer it.
  */
module Refinement {
  import opened Wrappers
  import opened Containers
  import opened CommandResults
  import opened PodmanAttach
  import opened Protocol
  import opened ProtocolInvariant
  import opened ProtocolRuns
  import opened ProtocolWitness
  import Recovery
  import Executors

  /** The answer of a runtime call that fails or works. */
  function Answer(fails: bool): Choice {
    if fails then CallFails else CallWorks
  }

  /** A command as the object holds it. */
  function ValueOf(cmd: Command): Recovery.Adopted {
    Recovery.Adopted(cmd.id, cmd.support, cmd.container, cmd.result)
  }

  // --- one step of a routine

  lemma JudgeThen(s: State, t: ThreadId, sh: Shared, owner: map<LockId, ThreadId>, pc: Pc, choice: Choice, e: Effect,
      labels: seq<Label>)
    requires t < |s.threads| && pc.Routine? && pc.c < |sh.cmds| && InJudge(pc.rt)
    requires JudgeStep(sh, pc.c, pc.support, pc.context, pc.rt, choice) == Some(e)
    requires e.spawned.None? && (e.lock.Take? ==> e.lock.lock !in owner)
    ensures Run(At(s, t, sh, owner, pc), [Thread(t, choice)] + labels)
         == Run(At(s, t, e.shared, ChangeLock(owner, t, e.lock), e.pc), labels)
  {
    hide JudgeStep, Run, Next, MayCreate;
    StepThen(s, t, sh, owner, pc, choice, e, labels);
  }

  lemma ClearThen(s: State, t: ThreadId, sh: Shared, owner: map<LockId, ThreadId>, pc: Pc, choice: Choice, e: Effect,
      labels: seq<Label>)
    requires t < |s.threads| && pc.Routine? && pc.c < |sh.cmds| && !InRun(pc.rt) && !InJudge(pc.rt)
    requires ClearStep(sh, pc.c, pc.support, pc.context, pc.rt, choice) == Some(e)
    requires e.spawned.None? && (e.lock.Take? ==> e.lock.lock !in owner)
    ensures Run(At(s, t, sh, owner, pc), [Thread(t, choice)] + labels)
         == Run(At(s, t, e.shared, ChangeLock(owner, t, e.lock), e.pc), labels)
  {
    hide ClearStep, Run, Next, MayCreate;
    StepThen(s, t, sh, owner, pc, choice, e, labels);
  }

  lemma CallThen(s: State, t: ThreadId, sh: Shared, owner: map<LockId, ThreadId>, pc: Pc, choice: Choice, e: Effect,
      labels: seq<Label>)
    requires t < |s.threads| && pc.Calling? && pc.c < |sh.cmds| && CallStep(sh, pc.c, pc.cl, choice) == Some(e)
    requires e.spawned.None? && (e.lock.Take? ==> e.lock.lock !in owner)
    ensures Run(At(s, t, sh, owner, pc), [Thread(t, choice)] + labels)
         == Run(At(s, t, e.shared, ChangeLock(owner, t, e.lock), e.pc), labels)
  {
    hide CallStep, Run, Next, MayCreate;
    StepThen(s, t, sh, owner, pc, choice, e, labels);
  }

  // --- the post-run step

  /** Its labels: lock the command, check its container, and look at the state if it is there. */
  function JudgeLabels(t: ThreadId, env: Recovery.Env, sh: Shared, c: CommandRef, end: RunEnd): seq<Label>
    requires c < |sh.cmds|
  {
    var id := sh.cmds[c].container;
    var inspects := end == Completed && !env.existsFails(id) && id in sh.world.containers;
    [Thread(t, Step)] + ([Thread(t, Answer(env.existsFails(id)))]
      + if inspects then [Thread(t, Answer(env.inspectFails(id)))] else [])
  }

  /** What the post-run step makes of the shared part. */
  ghost predicate JudgedBy(env: Recovery.Env, sh: Shared, c: CommandRef, end: RunEnd, sh': Shared)
    requires c < |sh.cmds|
  {
    exists v ::
      sh' == WithCommand(sh, c, sh.cmds[c].(
        result := Executors.Judged(env, sh.world, ValueOf(sh.cmds[c]), end), verdict := Some(v), clearing := true))
  }

  lemma CheckAlone(env: Recovery.Env, sh: Shared, c: CommandRef, support: bool, x: ContextId, end: RunEnd)
    requires c < |sh.cmds|
    ensures var id := sh.cmds[c].container;
      var e := JudgeStep(sh, c, support, x, RtCheck(end), Answer(env.existsFails(id)));
      && e.Some? && e.value.lock == Keep && e.value.spawned.None?
      && if end == Completed && !env.existsFails(id) && id in sh.world.containers then
           e.value.shared == sh && e.value.pc == Routine(c, support, x, RtState)
         else
           JudgedBy(env, sh, c, end, e.value.shared) && e.value.pc == Routine(c, support, x, RtClearLock)
  {
    var id := sh.cmds[c].container;
    var j := JudgeEnd(sh.cmds[c].result, id in sh.world.containers, end, Answer(env.existsFails(id)));
    if j.Judgement? {
      assert j.result == Executors.Judged(env, sh.world, ValueOf(sh.cmds[c]), end);
    }
  }

  lemma StateAlone(env: Recovery.Env, sh: Shared, c: CommandRef, support: bool, x: ContextId)
    requires c < |sh.cmds| && sh.cmds[c].container in sh.world.containers && !env.existsFails(sh.cmds[c].container)
    ensures var e := JudgeStep(sh, c, support, x, RtState, Answer(env.inspectFails(sh.cmds[c].container)));
      && e.Some? && e.value.lock == Keep && e.value.spawned.None?
      && JudgedBy(env, sh, c, Completed, e.value.shared) && e.value.pc == Routine(c, support, x, RtClearLock)
  {
    var id := sh.cmds[c].container;
    var j := JudgeState(sh.cmds[c].result, sh.world.containers, id, Answer(env.inspectFails(id)));
    assert j.result == Executors.Judged(env, sh.world, ValueOf(sh.cmds[c]), Completed);
  }

  /** The post-run step of a routine alone writes exactly the result that the method writes. */
  lemma JudgeRefines(s: State, t: ThreadId, env: Recovery.Env)
    requires t < |s.threads| && s.threads[t].Routine? && s.threads[t].rt.RtLock?
    requires s.threads[t].c < |s.shared.cmds| && CommandLock(s.threads[t].c) !in s.owner
    ensures var pc := s.threads[t];
      var s' := Run(s, JudgeLabels(t, env, s.shared, pc.c, pc.rt.end));
      && s'.Some? && JudgedBy(env, s.shared, pc.c, pc.rt.end, s'.value.shared)
      && s'.value == At(s, t, s'.value.shared, s.owner[CommandLock(pc.c) := t], pc.(rt := RtClearLock))
  {
    var pc, sh := s.threads[t], s.shared;
    var c, support, x, end := pc.c, pc.support, pc.context, pc.rt.end;
    var id, held := sh.cmds[c].container, s.owner[CommandLock(c) := t];
    var e := JudgeStep(sh, c, support, x, RtCheck(end), Answer(env.existsFails(id)));
    CheckAlone(env, sh, c, support, x, end);
    hide Run, JudgedBy, JudgeEnd, JudgeState, Settle;
    var rest := if end == Completed && !env.existsFails(id) && id in sh.world.containers
      then [Thread(t, Answer(env.inspectFails(id)))] else [];
    assert s == At(s, t, sh, s.owner, pc);
    JudgeThen(s, t, sh, s.owner, pc, Step, Locked(sh, Routine(c, support, x, RtCheck(end)), CommandLock(c)).value,
      [Thread(t, Answer(env.existsFails(id)))] + rest);
    JudgeThen(s, t, sh, held, Routine(c, support, x, RtCheck(end)), Answer(env.existsFails(id)), e.value, rest);
    if rest == [] {
      NoLabels(At(s, t, e.value.shared, held, e.value.pc));
    } else {
      StateAlone(env, sh, c, support, x);
      var f := JudgeStep(sh, c, support, x, RtState, Answer(env.inspectFails(id)));
      JudgeThen(s, t, sh, held, Routine(c, support, x, RtState), Answer(env.inspectFails(id)), f.value, []);
      assert rest + [] == rest;
      NoLabels(At(s, t, f.value.shared, held, f.value.pc));
    }
  }

  // --- freeing the slot

  /** What freeing the slot of the current command makes of the shared part. */
  function Cleared(env: Recovery.Env, sh: Shared, c: CommandRef, support: bool): Shared
    requires c < |sh.cmds|
  {
    var (world, failed) := Recovery.ClearOne(env, sh.world, Some(ValueOf(sh.cmds[c])));
    var cmd := sh.cmds[c];
    var there := cmd.container in sh.world.containers;
    var slots := if failed then SlotsOf(sh, support) else SlotsOf(sh, support).(current := None);
    WithSlots(sh, support, slots).(world := world, cmds := sh.cmds[c := cmd.(
      clearing := false, clearFailed := failed || cmd.clearFailed, cleared := cmd.cleared || (there && !failed))])
  }

  /** Its labels: lock the store, find the command current, check its container, destroy it if
    * it is there, and forget the command unless a call failed.
    */
  function ClearLabels(t: ThreadId, env: Recovery.Env, sh: Shared, c: CommandRef): seq<Label>
    requires c < |sh.cmds|
  {
    var id := sh.cmds[c].container;
    [Thread(t, Step)] + ([Thread(t, Step)] + ([Thread(t, Answer(env.existsFails(id)))] +
      if env.existsFails(id) then []
      else if id !in sh.world.containers then [Thread(t, Step)]
      else [Thread(t, Answer(env.destroyFails(id)))] + if env.destroyFails(id) then [] else [Thread(t, Step)]))
  }

  lemma ClearFailsAlone(env: Recovery.Env, sh: Shared, c: CommandRef, support: bool, x: ContextId)
    requires c < |sh.cmds| && SlotsOf(sh, support).current == Some(c)
    requires env.existsFails(sh.cmds[c].container)
      || (sh.cmds[c].container in sh.world.containers && env.destroyFails(sh.cmds[c].container))
    ensures ClearingOver(sh, c, support, x, true)
      == Moved(Cleared(env, sh, c, support), Routine(c, support, x, RtClearUnlock))
  {
    assert WithSlots(sh, support, SlotsOf(sh, support)) == sh;
  }

  lemma ClearGoneAlone(env: Recovery.Env, sh: Shared, c: CommandRef, support: bool, x: ContextId)
    requires c < |sh.cmds| && SlotsOf(sh, support).current == Some(c)
    requires !env.existsFails(sh.cmds[c].container) && sh.cmds[c].container !in sh.world.containers
    ensures ClearStep(sh, c, support, x, RtClearForget, Step)
      == Moved(Cleared(env, sh, c, support), Routine(c, support, x, RtClearUnlock))
  { }

  lemma ClearWorksAlone(env: Recovery.Env, sh: Shared, c: CommandRef, support: bool, x: ContextId)
    requires c < |sh.cmds| && SlotsOf(sh, support).current == Some(c)
    requires var id := sh.cmds[c].container;
      !env.existsFails(id) && !env.destroyFails(id) && id in sh.world.containers
    ensures var mid := WithoutContainer(WithCommand(sh, c, sh.cmds[c].(cleared := true)), sh.cmds[c].container);
      && |mid.cmds| == |sh.cmds|
      && ClearStep(mid, c, support, x, RtClearForget, Step)
        == Moved(Cleared(env, sh, c, support), Routine(c, support, x, RtClearUnlock))
  {
    var cmd := sh.cmds[c];
    var done := cmd.(clearing := false, cleared := true);
    assert sh.cmds[c := cmd.(cleared := true)][c := done] == sh.cmds[c := done];
  }

  /** Freeing the current command's slot alone does to runtime and slot exactly what the method does. */
  lemma ClearRefines(s: State, t: ThreadId, env: Recovery.Env)
    requires t < |s.threads| && s.threads[t].Routine? && s.threads[t].rt.RtClearLock?
    requires s.threads[t].c < |s.shared.cmds| && StoreLock(s.threads[t].support) !in s.owner
    requires SlotsOf(s.shared, s.threads[t].support).current == Some(s.threads[t].c)
    ensures var pc := s.threads[t];
      Run(s, ClearLabels(t, env, s.shared, pc.c))
      == Some(At(s, t, Cleared(env, s.shared, pc.c, pc.support), s.owner[StoreLock(pc.support) := t],
           pc.(rt := RtClearUnlock)))
  {
    var pc, sh := s.threads[t], s.shared;
    var c, support, x := pc.c, pc.support, pc.context;
    var id, held := sh.cmds[c].container, s.owner[StoreLock(support) := t];
    var end := Cleared(env, sh, c, support);
    var last := [Thread(t, Step)] + [];
    var labels := ClearLabels(t, env, sh, c);
    hide Run, Cleared, Forget, ClearingOver;
    var rest := labels[2..];
    assert labels == [Thread(t, Step)] + ([Thread(t, Step)] + rest);
    assert s == At(s, t, sh, s.owner, pc);
    ClearThen(s, t, sh, s.owner, pc, Step, Locked(sh, Routine(c, support, x, RtClearTest), StoreLock(support)).value,
      [Thread(t, Step)] + rest);
    ClearThen(s, t, sh, held, Routine(c, support, x, RtClearTest), Step,
      Moved(sh, Routine(c, support, x, RtClearExists)).value, rest);
    NoLabels(At(s, t, end, held, Routine(c, support, x, RtClearUnlock)));
    CheckedClears(s, t, env, held);
  }

  /** From the existence check on. */
  lemma CheckedClears(s: State, t: ThreadId, env: Recovery.Env, held: map<LockId, ThreadId>)
    requires t < |s.threads| && s.threads[t].Routine? && s.threads[t].rt.RtClearLock?
    requires s.threads[t].c < |s.shared.cmds|
    requires SlotsOf(s.shared, s.threads[t].support).current == Some(s.threads[t].c)
    ensures var pc := s.threads[t];
      |ClearLabels(t, env, s.shared, pc.c)| >= 2 &&
      Run(At(s, t, s.shared, held, pc.(rt := RtClearExists)), ClearLabels(t, env, s.shared, pc.c)[2..])
      == Some(At(s, t, Cleared(env, s.shared, pc.c, pc.support), held, pc.(rt := RtClearUnlock)))
  {
    var pc, sh := s.threads[t], s.shared;
    var c, support, x := pc.c, pc.support, pc.context;
    var id := sh.cmds[c].container;
    var end := At(s, t, Cleared(env, sh, c, support), held, Routine(c, support, x, RtClearUnlock));
    var over := Moved(end.shared, Routine(c, support, x, RtClearUnlock)).value;
    var exists_, destroy, forget := [Thread(t, Answer(env.existsFails(id)))], [Thread(t, Answer(env.destroyFails(id)))],
      [Thread(t, Step)];
    var labels := ClearLabels(t, env, sh, c)[2..];
    hide Run, Cleared, Forget, ClearingOver;
    NoLabels(end);
    if env.existsFails(id) {
      ClearFailsAlone(env, sh, c, support, x);
      assert labels == exists_ + [];
      ClearThen(s, t, sh, held, Routine(c, support, x, RtClearExists), CallFails, over, []);
    } else if id !in sh.world.containers {
      ClearGoneAlone(env, sh, c, support, x);
      assert labels == exists_ + (forget + []);
      ClearThen(s, t, sh, held, Routine(c, support, x, RtClearExists), CallWorks,
        Moved(sh, Routine(c, support, x, RtClearForget)).value, forget + []);
      ClearThen(s, t, sh, held, Routine(c, support, x, RtClearForget), Step, over, []);
    } else {
      DestroyedClears(s, t, env, held);
      assert labels == exists_ + (destroy + if env.destroyFails(id) then [] else forget);
      ClearThen(s, t, sh, held, Routine(c, support, x, RtClearExists), CallWorks,
        Moved(sh, Routine(c, support, x, RtClearDestroy)).value, destroy + if env.destroyFails(id) then [] else forget);
    }
  }

  /** From the destroy call on. */
  lemma DestroyedClears(s: State, t: ThreadId, env: Recovery.Env, held: map<LockId, ThreadId>)
    requires t < |s.threads| && s.threads[t].Routine?
    requires s.threads[t].c < |s.shared.cmds|
    requires SlotsOf(s.shared, s.threads[t].support).current == Some(s.threads[t].c)
    requires var id := s.shared.cmds[s.threads[t].c].container;
      !env.existsFails(id) && id in s.shared.world.containers
    ensures var pc := s.threads[t];
      var fails := env.destroyFails(s.shared.cmds[pc.c].container);
      Run(At(s, t, s.shared, held, pc.(rt := RtClearDestroy)),
        [Thread(t, Answer(fails))] + if fails then [] else [Thread(t, Step)])
      == Some(At(s, t, Cleared(env, s.shared, pc.c, pc.support), held, pc.(rt := RtClearUnlock)))
  {
    var pc, sh := s.threads[t], s.shared;
    var c, support, x := pc.c, pc.support, pc.context;
    var id := sh.cmds[c].container;
    var end := At(s, t, Cleared(env, sh, c, support), held, Routine(c, support, x, RtClearUnlock));
    var over := Moved(end.shared, Routine(c, support, x, RtClearUnlock)).value;
    hide Run, Cleared, Forget, ClearingOver;
    NoLabels(end);
    if env.destroyFails(id) {
      ClearFailsAlone(env, sh, c, support, x);
      ClearThen(s, t, sh, held, Routine(c, support, x, RtClearDestroy), CallFails, over, []);
    } else {
      ClearWorksAlone(env, sh, c, support, x);
      var mid := WithoutContainer(WithCommand(sh, c, sh.cmds[c].(cleared := true)), id);
      var forget := [Thread(t, Step)];
      assert forget == forget + [];
      ClearThen(s, t, sh, held, Routine(c, support, x, RtClearDestroy), CallWorks,
        Moved(mid, Routine(c, support, x, RtClearForget)).value, forget);
      ClearThen(s, t, mid, held, Routine(c, support, x, RtClearForget), Step, over, []);
    }
  }

  // --- Kill

  /** Its labels: read the result, check the container, destroy it if it is there. */
  function KillLabels(t: ThreadId, env: Recovery.Env, sh: Shared, c: CommandRef): seq<Label>
    requires c < |sh.cmds|
  {
    var id := sh.cmds[c].container;
    [Thread(t, Begin(Kill(c)))] + ([Thread(t, Step)] + ([Thread(t, Step)] + if sh.cmds[c].result.finished then [] else
      [Thread(t, Answer(env.existsFails(id)))]
      + if env.existsFails(id) || id !in sh.world.containers then [] else [Thread(t, Answer(env.destroyFails(id)))]))
  }

  /** What the Kill of an unfinished command makes of the runtime, and what it answers. */
  function Killing(env: Recovery.Env, sh: Shared, c: CommandRef): (World, bool)
    requires c < |sh.cmds|
  {
    if sh.cmds[c].result.finished then (sh.world, false)
    else Recovery.ClearOne(env, sh.world, Some(ValueOf(sh.cmds[c])))
  }

  lemma KillReads(s: State, t: ThreadId, c: CommandRef, labels: seq<Label>)
    requires t < |s.threads| && s.threads[t].Idle? && c < |s.shared.cmds| && CommandLock(c) !in s.owner
    ensures Run(s, [Thread(t, Begin(Kill(c)))] + ([Thread(t, Step)] + ([Thread(t, Step)] + labels)))
      == Run(At(s, t, s.shared, s.owner,
           if s.shared.cmds[c].result.finished then Idle(Done) else Calling(c, ClKillExists)), labels)
  {
    hide Run, Next, MayCreate;
    var sh, held := s.shared, s.owner[CommandLock(c) := t];
    var l2 := [Thread(t, Step)] + labels;
    var l1 := [Thread(t, Step)] + l2;
    var read := if sh.cmds[c].result.finished then Idle(Done) else Calling(c, ClKillExists);
    assert s == At(s, t, sh, s.owner, s.threads[t]);
    StepThen(s, t, sh, s.owner, s.threads[t], Begin(Kill(c)), Moved(sh, Calling(c, ClCheckLock(ToKill))).value, l1);
    CallThen(s, t, sh, s.owner, Calling(c, ClCheckLock(ToKill)), Step,
      Locked(sh, Calling(c, ClCheckRead(ToKill)), CommandLock(c)).value, l2);
    CallThen(s, t, sh, held, Calling(c, ClCheckRead(ToKill)), Step, Unlocked(sh, read, CommandLock(c)).value, labels);
    assert held - {CommandLock(c)} == s.owner;
  }

  /** What a Kill alone leaves: the runtime as the method leaves it, and its answer. */
  ghost predicate KilledBy(s: State, t: ThreadId, c: CommandRef, env: Recovery.Env, s': Option<State>)
    requires t < |s.threads| && c < |s.shared.cmds|
  {
    var (world, failed) := Killing(env, s.shared, c);
    exists cmds ::
      s' == Some(At(s, t, s.shared.(world := world, cmds := cmds), s.owner, Idle(if failed then Failing else Done)))
  }

  /** From the existence check on, when nothing is destroyed. */
  lemma KillKeeps(s: State, t: ThreadId, c: CommandRef, env: Recovery.Env)
    requires t < |s.threads| && c < |s.shared.cmds| && !s.shared.cmds[c].result.finished
    requires env.existsFails(s.shared.cmds[c].container)
      || s.shared.cmds[c].container !in s.shared.world.containers
    ensures KilledBy(s, t, c, env, Run(At(s, t, s.shared, s.owner, Calling(c, ClKillExists)),
      [Thread(t, Answer(env.existsFails(s.shared.cmds[c].container)))]))
  {
    var sh := s.shared;
    var answer := Answer(env.existsFails(sh.cmds[c].container));
    var e := CallStep(sh, c, ClKillExists, answer).value;
    assert e.shared == sh.(world := Killing(env, sh, c).0, cmds := e.shared.cmds);
    assert e.pc == Idle(if Killing(env, sh, c).1 then Failing else Done);
    hide Run, Next, MayCreate, CallStep;
    assert [Thread(t, answer)] == [Thread(t, answer)] + [];
    CallThen(s, t, sh, s.owner, Calling(c, ClKillExists), answer, e, []);
    NoLabels(At(s, t, e.shared, s.owner, e.pc));
  }

  /** From the existence check on, when the container is to be destroyed. */
  lemma KillDestroys(s: State, t: ThreadId, c: CommandRef, env: Recovery.Env)
    requires t < |s.threads| && c < |s.shared.cmds| && !s.shared.cmds[c].result.finished
    requires !env.existsFails(s.shared.cmds[c].container) && s.shared.cmds[c].container in s.shared.world.containers
    ensures KilledBy(s, t, c, env, Run(At(s, t, s.shared, s.owner, Calling(c, ClKillExists)),
      [Thread(t, CallWorks)] + [Thread(t, Answer(env.destroyFails(s.shared.cmds[c].container)))]))
  {
    var sh, id := s.shared, s.shared.cmds[c].container;
    var answer := Answer(env.destroyFails(id));
    var asked := WithCommand(sh, c, sh.cmds[c].(killAsked := true));
    var e := CallStep(asked, c, ClKillDestroy, answer).value;
    assert CallStep(sh, c, ClKillExists, CallWorks) == Moved(asked, Calling(c, ClKillDestroy));
    assert e.shared == sh.(world := Killing(env, sh, c).0, cmds := e.shared.cmds);
    hide Run, Next, MayCreate, CallStep;
    assert [Thread(t, answer)] == [Thread(t, answer)] + [];
    CallThen(s, t, sh, s.owner, Calling(c, ClKillExists), CallWorks, Moved(asked, Calling(c, ClKillDestroy)).value,
      [Thread(t, answer)]);
    CallThen(s, t, asked, s.owner, Calling(c, ClKillDestroy), answer, e, []);
    NoLabels(At(s, t, e.shared, s.owner, e.pc));
  }

  /** A Kill alone does to the runtime what the method does, and answers alike. */
  lemma KillRefines(s: State, t: ThreadId, c: CommandRef, env: Recovery.Env)
    requires t < |s.threads| && s.threads[t].Idle? && c < |s.shared.cmds| && CommandLock(c) !in s.owner
    ensures KilledBy(s, t, c, env, Run(s, KillLabels(t, env, s.shared, c)))
  {
    var sh, id := s.shared, s.shared.cmds[c].container;
    var rest := KillLabels(t, env, sh, c)[3..];
    assert KillLabels(t, env, sh, c) == [Thread(t, Begin(Kill(c)))] + ([Thread(t, Step)] + ([Thread(t, Step)] + rest));
    KillReads(s, t, c, rest);
    if sh.cmds[c].result.finished {
      assert rest == [];
      NoLabels(At(s, t, sh, s.owner, Idle(Done)));
      assert sh == sh.(world := sh.world, cmds := sh.cmds);
    } else if env.existsFails(id) || id !in sh.world.containers {
      hide Run, KilledBy;
      assert rest == [Thread(t, Answer(env.existsFails(id)))];
      KillKeeps(s, t, c, env);
    } else {
      hide Run, KilledBy;
      assert rest == [Thread(t, CallWorks)] + [Thread(t, Answer(env.destroyFails(id)))];
      KillDestroys(s, t, c, env);
    }
  }
}

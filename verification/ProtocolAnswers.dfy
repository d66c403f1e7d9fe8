/** What the calls of an executor answer: the result in the record, the current
  * command, whether a command could be made, whether everything was destroyed;
  * and how a routine chooses to run its container.
  */
module ProtocolAnswers {
  import opened Wrappers
  import opened CommandResults
  import opened PodmanAttach
  import opened Protocol
  import opened ProtocolInvariant
  import opened ProtocolRuns
  import opened ProtocolEvents
  import opened ProtocolAttaching
  import opened ProtocolTheorems
  import opened ProtocolSlots
  import opened ProtocolWitness

  // --- every answer is true when it is given

  /** What a call that answers `reply` by its last step says of the state of that step. */
  predicate AnswerTrue(sh: Shared, pc: Pc, choice: Choice, sh': Shared, reply: Reply) {
    match pc
    case Idle(_) => choice == Begin(Prepare) && reply == Done && sh'.volumeName != "" && sh' == sh
    case Executing(support, x, _) =>
      var current := SlotsOf(sh, support).current;
      && (reply.Started? || reply.Refused? || reply.Failing?)
      && (reply.Refused? ==> current.Some?)
      && (reply.Failing? ==> current.None?)
      && (reply.Started? ==>
            && current == Some(reply.c) && reply.c < |sh.cmds|
            && sh.cmds[reply.c].support == support && sh.cmds[reply.c].origin.Executed?
            && x in sh.cmds[reply.c].contexts)
    case Preparing =>
      && (reply.Failing? || reply.Done?)
      && (reply.Failing? ==> choice.CallFails? && sh'.volumeName == sh.volumeName && sh'.world == sh.world)
      && (reply.Done? ==> sh'.volumeName != "" && sh'.volumeName in sh'.world.volumes)
    case Destroying(_, failing, _) =>
      && (reply.Failing? || reply.Done?)
      && (reply.Done? ==> !failing && sh'.volumeName == "")
      && (reply.Done? && sh.volumeName != "" ==> sh.volumeName !in sh'.world.volumes)
      && (reply.Failing? ==> failing || (sh.volumeName != "" && choice.CallFails?))
    case Getting(support, _) =>
      reply == if SlotsOf(sh, support).current.Some? then Started(SlotsOf(sh, support).current.value) else Done
    case Calling(c, cl) =>
      && c < |sh.cmds|
      && (reply.Saw? || reply.Failing? || reply.Done?)
      && (reply.Saw? ==> reply.c == c && reply.result == sh.cmds[c].result)
      && (reply.Failing? ==> choice.CallFails? && (cl.ClKillExists? || cl.ClKillDestroy?))
      && (reply.Done? ==>
            InKill(pc, c) && (sh.cmds[c].result.finished || sh'.cmds == sh.cmds)
            && (sh.cmds[c].result.finished || sh.cmds[c].container !in sh'.world.containers))
    case Routine(_, _, _, _) => false
  }

  lemma ExecuteAnswers(sh: Shared, pc: Pc, choice: Choice, e: Effect)
    requires pc.Executing? && ThreadOk(sh, pc) && e.pc.Idle?
    requires ExecuteStep(sh, pc.support, pc.context, pc.ex, choice) == Some(e)
    ensures AnswerTrue(sh, pc, choice, e.shared, e.pc.reply)
  {
    hide MayCreate;
  }

  lemma CallAnswers(sh: Shared, pc: Pc, choice: Choice, e: Effect)
    requires pc.Calling? && pc.c < |sh.cmds| && e.pc.Idle? && CallStep(sh, pc.c, pc.cl, choice) == Some(e)
    ensures AnswerTrue(sh, pc, choice, e.shared, e.pc.reply)
  { }

  lemma DestroyAnswers(sh: Shared, pc: Pc, choice: Choice, e: Effect)
    requires pc.Destroying? && e.pc.Idle? && DestroyStep(sh, pc.support, pc.failing, pc.ds, choice) == Some(e)
    ensures AnswerTrue(sh, pc, choice, e.shared, e.pc.reply)
  { }

  lemma StepAnswers(sh: Shared, pc: Pc, choice: Choice, e: Effect)
    requires ThreadOk(sh, pc) && StepOf(sh, pc, choice) == Some(e) && e.pc.Idle?
    ensures AnswerTrue(sh, pc, choice, e.shared, e.pc.reply)
  {
    hide ExecuteStep, CallStep, DestroyStep, RunStep, JudgeStep, ClearStep;
    match pc
    case Executing(_, _, _) => ExecuteAnswers(sh, pc, choice, e);
    case Calling(_, _) => CallAnswers(sh, pc, choice, e);
    case Destroying(_, _, _) => DestroyAnswers(sh, pc, choice, e);
    case Routine(_, _, _, _) => RoutineEnters(sh, pc, choice, e);
    case _ =>
  }

  /** The step by which thread `t` answers a call. */
  ghost predicate Answers(s: State, t: ThreadId, choice: Choice) {
    && t < |s.threads| && Next(s, Thread(t, choice)).Some?
    && Next(s, Thread(t, choice)).value.threads[t].Idle?
  }

  /** Every answer is true of the state in which it is given. State, Wait and AttachWait answer
    * the command's result, all of it. Execute answers that a command of its role is current,
    * or the current command, which it made, or that none is. GetRunning answers the
    * current command. Prepare answers that the volume exists, or that the call failed. Kill
    * answers that the command was finished or its container is gone, or that a call failed.
    * Destroy answers that nothing of it failed and the volume is gone, or that something did.
    */
  lemma AnswersAreTrue(s: State, labels: seq<Label>, t: ThreadId, choice: Choice)
    requires Start(s) && Run(s, labels).Some? && Answers(Run(s, labels).value, t, choice)
    ensures var s1 := Run(s, labels).value;
      var s2 := Next(s1, Thread(t, choice)).value;
      AnswerTrue(s1.shared, s1.threads[t], choice, s2.shared, s2.threads[t].reply)
  {
    hide SharedInv, LocksAgree, CountsAgree, FreeOk, StepOf, AnswerTrue, ThreadOk, Start;
    StartInv(s);
    RunKept(s, labels);
    var s1 := Run(s, labels).value;
    assert ThreadOk(s1.shared, s1.threads[t]);
    StepAnswers(s1.shared, s1.threads[t], choice, StepOf(s1.shared, s1.threads[t], choice).value);
  }

  /** After the post-run step of a command, every answer about it is its result of then, unless
    * an AttachWait attached it again.
    */
  lemma SettledAnswers(s: State, before: seq<Label>, after: seq<Label>, u: ThreadId, choice: Choice, c: CommandRef)
    requires Start(s) && Run(s, before).Some? && Run(Run(s, before).value, after).Some?
    requires c < |Run(s, before).value.shared.cmds| && Settled(Run(s, before).value.shared.cmds[c])
    requires var s2 := Run(Run(s, before).value, after).value;
      && Answers(s2, u, choice) && Next(s2, Thread(u, choice)).value.threads[u].reply.Saw?
      && Next(s2, Thread(u, choice)).value.threads[u].reply.c == c
      && !Reattached(s, before + after, c)
    ensures var s2 := Run(Run(s, before).value, after).value;
      Next(s2, Thread(u, choice)).value.threads[u].reply.result == Run(s, before).value.shared.cmds[c].result
  {
    hide Start, Inv, Reattached, Follows, StepOf, Settled;
    var s1 := Run(s, before).value;
    StartInv(s);
    RunKept(s, before);
    RunFollows(s1, after);
    var s2 := Run(s1, after).value;
    KnownLater(s1.shared, s2.shared, c);
    ReattachedOver(s, before, after, c);
    ResultStays(s1, after, c);
    RunSplit(s, before, after);
    AnswersAreTrue(s, before + after, u, choice);
    SawFromCall(s2, u, choice);
  }

  /** Two answers about one command agree: once any call has answered that it is finished, every
    * later answer about it is the same, in its code, its kill flag and its error, unless an
    * AttachWait attached the command again.
    */
  lemma LaterAnswersAgree(s: State, before: seq<Label>, after: seq<Label>, t: ThreadId, u: ThreadId, choice: Choice)
    requires Start(s) && Run(s, before).Some? && Run(Run(s, before).value, after).Some?
    requires var s1 := Run(s, before).value;
      t < |s1.threads| && s1.threads[t].Idle? && s1.threads[t].reply.Saw?
      && (s1.threads[t].reply.waited || s1.threads[t].reply.result.finished)
    requires var s2 := Run(Run(s, before).value, after).value;
      && Answers(s2, u, choice) && Next(s2, Thread(u, choice)).value.threads[u].reply.Saw?
      && Next(s2, Thread(u, choice)).value.threads[u].reply.c == Run(s, before).value.threads[t].reply.c
      && !Reattached(s, before + after, Run(s, before).value.threads[t].reply.c)
    ensures var s2 := Run(Run(s, before).value, after).value;
      Next(s2, Thread(u, choice)).value.threads[u].reply.result == Run(s, before).value.threads[t].reply.result
  {
    hide Start, Inv, Reattached, Follows, StepOf, Settled, Answers;
    var s1 := Run(s, before).value;
    StartInv(s);
    RunKept(s, before);
    var c := s1.threads[t].reply.c;
    SeenIsSettled(s1, t);
    RunFollows(s1, after);
    KnownLater(s1.shared, Run(s1, after).value.shared, c);
    ReattachedOver(s, before, after, c);
    SettledAnswers(s, before, after, u, choice, c);
  }

  lemma SeenIsSettled(s: State, t: ThreadId)
    requires Inv(s) && t < |s.threads| && s.threads[t].Idle? && s.threads[t].reply.Saw?
    requires s.threads[t].reply.waited || s.threads[t].reply.result.finished
    ensures var reply := s.threads[t].reply;
      && reply.c < |s.shared.cmds| && Settled(s.shared.cmds[reply.c])
      && (Doubled(s.shared.cmds[reply.c]) || reply.result == s.shared.cmds[reply.c].result)
  {
    hide SharedInv, LocksAgree, CountsAgree, FreeOk;
    assert ThreadOk(s.shared, s.threads[t]);
  }

  /** Only State, Wait and AttachWait answer with a result. */
  lemma SawFromCall(s: State, t: ThreadId, choice: Choice)
    requires Inv(s) && Answers(s, t, choice) && Next(s, Thread(t, choice)).value.threads[t].reply.Saw?
    ensures s.threads[t].Calling?
  {
    hide SharedInv, LocksAgree, CountsAgree, FreeOk, StepOf;
    assert ThreadOk(s.shared, s.threads[t]);
    StepAnswers(s.shared, s.threads[t], choice, StepOf(s.shared, s.threads[t], choice).value);
  }

  /** State can always be asked: while the command's mutex is free it answers the record in three steps. */
  lemma StateReturns(s: State, t: ThreadId, c: CommandRef) returns (labels: seq<Label>)
    requires t < |s.threads| && s.threads[t].Idle? && CommandLock(c) !in s.owner && c < |s.shared.cmds|
    ensures Run(s, labels) == Some(At(s, t, s.shared, s.owner, Idle(Saw(c, s.shared.cmds[c].result, false))))
    ensures |labels| == 3 && labels[0] == Thread(t, Begin(GetState(c)))
  {
    hide Run, Next, MayCreate;
    var sh, held := s.shared, s.owner[CommandLock(c) := t];
    var answer := Idle(Saw(c, sh.cmds[c].result, false));
    var l2 := [Thread(t, Step)] + [];
    var l1 := [Thread(t, Step)] + l2;
    assert s == At(s, t, sh, s.owner, s.threads[t]);
    StepThen(s, t, sh, s.owner, s.threads[t], Begin(GetState(c)), Moved(sh, Calling(c, ClStateLock(false))).value, l1);
    StepThen(s, t, sh, s.owner, Calling(c, ClStateLock(false)), Step,
      Locked(sh, Calling(c, ClStateRead(false)), CommandLock(c)).value, l2);
    StepThen(s, t, sh, held, Calling(c, ClStateRead(false)), Step, Unlocked(sh, answer, CommandLock(c)).value, []);
    assert held - {CommandLock(c)} == s.owner;
    NoLabels(At(s, t, sh, s.owner, answer));
    labels := [Thread(t, Begin(GetState(c)))] + l1;
  }

  // --- what a Destroy answers

  /** A runtime call of thread `t`'s Destroy fails. */
  predicate FailsInDestroy(s: State, l: Label, t: ThreadId) {
    && l.Thread? && l.t == t && Stepping(s, l).Some? && Stepping(s, l).value.Destroying? && l.choice.CallFails?
    && (DestroyedContainer(s.shared, Stepping(s, l).value).Some?
        || (Stepping(s, l).value.ds.DsVolume? && s.shared.volumeName != ""))
  }

  ghost predicate FailedInDestroy(s: State, labels: seq<Label>, t: ThreadId)
    decreases |labels|
  {
    labels != [] && (FailsInDestroy(s, labels[0], t)
      || (Next(s, labels[0]).Some? && FailedInDestroy(Next(s, labels[0]).value, labels[1..], t)))
  }

  /** The thread begins no call in these steps. */
  predicate BeginsNothing(labels: seq<Label>, t: ThreadId) {
    forall i :: 0 <= i < |labels| && labels[i].Thread? && labels[i].t == t ==> !labels[i].choice.Begin?
  }

  /** What a Destroy at `pc` has to say of its calls so far. */
  function Trouble(pc: Pc): Option<bool> {
    match pc
    case Destroying(_, failing, _) => Some(failing)
    case Idle(reply) => Some(reply.Failing?)
    case _ => None
  }

  lemma DestroyTells(sh: Shared, pc: Pc, choice: Choice, e: Effect)
    requires pc.Destroying? && DestroyStep(sh, pc.support, pc.failing, pc.ds, choice) == Some(e)
    ensures e.pc.Destroying? || (e.pc.Idle? && (e.pc.reply == Done || e.pc.reply == Failing))
    ensures Trouble(e.pc) == Some(pc.failing || (choice.CallFails?
      && (DestroyedContainer(sh, pc).Some? || (pc.ds.DsVolume? && sh.volumeName != ""))))
  { }

  lemma NextTells(s: State, l: Label, t: ThreadId)
    requires Next(s, l).Some? && t < |s.threads|
    requires s.threads[t].Destroying? || (s.threads[t].Idle? && (l.Thread? && l.t == t ==> !l.choice.Begin?))
    ensures var s' := Next(s, l).value;
      && t < |s'.threads| && (s'.threads[t].Destroying? || s'.threads[t].Idle?)
      && (Trouble(s'.threads[t]).value <==> Trouble(s.threads[t]).value || FailsInDestroy(s, l, t))
  {
    hide DestroyStep, OutsideStep, DestroyedContainer;
    if l.Thread? && l.t == t {
      if s.threads[t].Destroying? {
        DestroyTells(s.shared, s.threads[t], l.choice, StepOf(s.shared, s.threads[t], l.choice).value);
      }
    } else {
      hide StepOf;
    }
  }

  /** A Destroy answers that it failed if and only if one of its runtime calls did. */
  lemma {:induction false} DestroyAnswersAll(s: State, labels: seq<Label>, t: ThreadId)
    requires Run(s, labels).Some? && t < |s.threads| && BeginsNothing(labels, t)
    requires s.threads[t].Destroying? || s.threads[t].Idle?
    ensures var s' := Run(s, labels).value;
      && t < |s'.threads| && (s'.threads[t].Destroying? || s'.threads[t].Idle?)
      && (Trouble(s'.threads[t]).value <==> Trouble(s.threads[t]).value || FailedInDestroy(s, labels, t))
    decreases |labels|
  {
    hide Next, FailsInDestroy, Trouble;
    if labels != [] {
      NextTells(s, labels[0], t);
      assert forall i :: 0 <= i < |labels[1..]| ==> labels[1..][i] == labels[i + 1];
      DestroyAnswersAll(Next(s, labels[0]).value, labels[1..], t);
    }
  }

  /** A command that a Destroy forgets while its container exists is one of its failures: the
    * container of every command forgotten by a Destroy that has not failed so far is gone.
    */
  lemma ForgetsOnlyGone(s: State, labels: seq<Label>, l: Label, c: CommandRef)
    requires Start(s) && Run(s, labels).Some? && Forgets(Run(s, labels).value, l, c)
    ensures var s1 := Run(s, labels).value;
      s1.shared.cmds[c].container in s1.shared.world.containers ==> s1.threads[l.t].failing
  {
    hide LocksAgree, CountsAgree, FreeOk, ContainersApart, CommandsOk, Accounted, Attributed, FinishedLeave,
      ClosedLeave;
    StartInv(s);
    RunKept(s, labels);
    var s1 := Run(s, labels).value;
    assert ThreadOk(s1.shared, s1.threads[l.t]);
  }

  // --- how a routine runs its container

  /** A routine is started with its command by the Execute that made it, and starts the container
    * at once; or by the AttachWait that finds the once unspent, and looks first.
    */
  lemma RoutinesStart(s: State, t: ThreadId, choice: Choice)
    requires Next(s, Thread(t, choice)).Some? && |Next(s, Thread(t, choice)).value.threads| > |s.threads|
    ensures var s' := Next(s, Thread(t, choice)).value;
      var pc, pc', routine := s.threads[t], s'.threads[t], s'.threads[|s.threads|];
      && |s'.threads| == |s.threads| + 1
      && (if pc.Executing? then
            && |s'.shared.cmds| == |s.shared.cmds| + 1 && pc' == pc.(ex := ExUnlock(Started(|s.shared.cmds|)))
            && SlotsOf(s'.shared, pc.support).current == Some(|s.shared.cmds|)
            && routine == Routine(|s.shared.cmds|, pc.support, pc.context, RtBegin(true))
          else
            && pc.Calling? && pc.cl.ClOnce? && pc.c < |s.shared.cmds| && pc.c < |s'.shared.cmds|
            && !s.shared.cmds[pc.c].once && s'.shared.cmds[pc.c].once
            && routine == Routine(pc.c, s.shared.cmds[pc.c].support, pc.cl.context, RtBegin(false)))
  {
    hide DestroyStep, JudgeStep, ClearStep, RunStep, MayCreate;
    var pc := s.threads[t];
    var e := StepOf(s.shared, pc, choice).value;
    if pc.Routine? {
      RoutineSpawnsNone(s.shared, pc, choice, e);
    } else if pc.Destroying? {
      DestroySpawnsNone(s.shared, pc, choice, e);
    }
  }

  lemma DestroySpawnsNone(sh: Shared, pc: Pc, choice: Choice, e: Effect)
    requires pc.Destroying? && DestroyStep(sh, pc.support, pc.failing, pc.ds, choice) == Some(e)
    ensures e.spawned.None?
  { }

  lemma RoutineSpawnsNone(sh: Shared, pc: Pc, choice: Choice, e: Effect)
    requires pc.Routine? && StepOf(sh, pc, choice) == Some(e)
    ensures e.spawned.None?
  {
    hide JudgeEnd, JudgeState;
  }

  /** How a routine at `pc` decides to run its command's container. */
  lemma ModeTells(sh: Shared, pc: Pc, choice: Choice, e: Effect)
    requires pc.Routine? && pc.c < |sh.cmds| && (pc.rt.RtBegin? || pc.rt.RtExists? || pc.rt.RtInspect?)
    requires StepOf(sh, pc, choice) == Some(e) && e.pc.Routine? && e.pc.rt.RtRun?
    ensures var id, mode := sh.cmds[pc.c].container, e.pc.rt.mode;
      && (pc.rt == RtBegin(true) ==> mode == StartAndAttach)
      && (pc.rt == RtBegin(false) ==> sh.cmds[pc.c].result.finished && mode == NoRun)
      && (choice.CallFails? && !pc.rt.RtBegin? ==> mode == NoRun)
      && (pc.rt.RtExists? ==> mode == NoRun && (choice.CallFails? || id !in sh.world.containers))
      && (pc.rt.RtInspect? && !choice.CallFails? ==>
            && id in sh.world.containers
            && (mode == StartAndAttach <==> Lower(sh.world.containers[id].status) in {"created", "configured"})
            && (mode == AttachOnly <==> Lower(sh.world.containers[id].status) == "running"))
  {
    if pc.rt.RtInspect? && !choice.CallFails? {
      assert "running"[0] == 'r' && "created"[0] == 'c' && "configured"[0] == 'c';
    }
    hide Lower;
  }
}

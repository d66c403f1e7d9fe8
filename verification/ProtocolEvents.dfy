/** What may be said of a run by looking at its steps: which calls were made,
  * which runtime calls failed, what an inspection saw, what a Destroy forgot.
  */
module ProtocolEvents {
  import opened Wrappers
  import opened Containers
  import opened CommandResults
  import opened PodmanAttach
  import opened Protocol
  import opened ProtocolInvariant
  import opened ProtocolRuns

  /** The program counter of the thread that makes step `l`. */
  function Stepping(s: State, l: Label): Option<Pc> {
    if l.Thread? && l.t < |s.threads| then Some(s.threads[l.t]) else None
  }

  // --- attaching

  predicate Unfinished(sh: Shared, c: CommandRef) {
    c < |sh.cmds| && sh.cmds[c].origin.Executed? && !sh.cmds[c].result.finished
  }

  /** AttachWait is called on `c`, which Execute made and which is unfinished. */
  predicate CallsUnfinished(s: State, l: Label, c: CommandRef) {
    && Stepping(s, l).Some? && Stepping(s, l).value.Idle?
    && l.choice.Begin? && l.choice.op.AttachWait? && l.choice.op.c == c
    && Unfinished(s.shared, c)
  }

  /** The thread is inside an AttachWait of `c`, before or at its check. */
  predicate InCheck(pc: Pc, c: CommandRef) {
    pc.Calling? && pc.c == c && (pc.cl.ClCheckLock? || pc.cl.ClCheckRead?) && pc.cl.intent.ToAttach?
  }

  /** The check of an AttachWait reads `c`, which Execute made, as unfinished. */
  predicate ReadsUnfinished(s: State, l: Label, c: CommandRef) {
    && Stepping(s, l).Some? && InCheck(Stepping(s, l).value, c) && Stepping(s, l).value.cl.ClCheckRead?
    && Unfinished(s.shared, c)
  }

  /** An AttachWait of `c` runs its once. */
  predicate RunsOnce(s: State, l: Label, c: CommandRef) {
    Stepping(s, l).Some? && AtOnce(Stepping(s, l).value, c)
  }

  /** Such an AttachWait runs its once on a command that Execute made. */
  predicate Reattaches(s: State, l: Label, c: CommandRef) {
    RunsOnce(s, l, c) && c < |s.shared.cmds| && s.shared.cmds[c].origin.Executed?
  }

  // --- judging

  /** The run of the routine of `c` returns. */
  predicate ReturnsRun(s: State, l: Label, c: CommandRef, end: RunEnd) {
    && Stepping(s, l).Some? && Stepping(s, l).value.Routine? && Stepping(s, l).value.c == c
    && Stepping(s, l).value.rt.RtRun? && l.choice == RunReturns(end)
  }

  /** The post-run step of a routine of `c` at `pc` is answered in the way that calls for
    * the verdict: by how the run returned, or after a run without error by the existence
    * check and then by the inspection.
    */
  predicate AnswersAs(sh: Shared, pc: Pc, choice: Choice, c: CommandRef, verdict: Verdict) {
    && pc.Routine? && pc.c == c && c < |sh.cmds|
    && var id, containers := sh.cmds[c].container, sh.world.containers;
    match verdict
    case RunWasAborted => pc.rt == RtCheck(Aborted)
    case RunFailed => pc.rt == RtCheck(Errored)
    case CheckFailed => pc.rt == RtCheck(Completed) && choice.CallFails?
    case ContainerGone => pc.rt == RtCheck(Completed) && choice.CallWorks? && id !in containers
    case StateUnreadable => pc.rt.RtState? && choice.CallFails?
    case Ended(code) =>
      pc.rt.RtState? && choice.CallWorks? && id in containers && IsEnded(containers[id].status)
      && containers[id].exitCode == code
    case NotEnded => pc.rt.RtState? && choice.CallWorks? && id in containers && !IsEnded(containers[id].status)
  }

  predicate JudgesAs(s: State, l: Label, c: CommandRef, verdict: Verdict) {
    Stepping(s, l).Some? && AnswersAs(s.shared, Stepping(s, l).value, l.choice, c, verdict)
  }

  // --- clearing and destroying

  /** A runtime call of the clearing of `c` fails. */
  predicate FailsClearing(s: State, l: Label, c: CommandRef) {
    && Stepping(s, l).Some? && Stepping(s, l).value.Routine? && Stepping(s, l).value.c == c
    && (Stepping(s, l).value.rt.RtClearExists? || Stepping(s, l).value.rt.RtClearDestroy?)
    && l.choice.CallFails?
  }

  predicate IsDestroyCall(ds: DestroyPoint) {
    OnCurrent(ds) || ds.DsPreviousExists? || ds.DsPreviousDestroy?
  }

  /** The container a Destroy at `pc` is asking the runtime about. */
  function DestroyedContainer(sh: Shared, pc: Pc): Option<ContainerId>
    requires pc.Destroying?
  {
    var target := DestroyTarget(SlotsOf(sh, pc.support), pc.ds);
    if IsDestroyCall(pc.ds) && target.Some? && target.value < |sh.cmds| then Some(sh.cmds[target.value].container)
    else None
  }

  /** A Destroy's runtime call about the container fails. */
  predicate FailsDestroying(s: State, l: Label, id: ContainerId) {
    && Stepping(s, l).Some? && Stepping(s, l).value.Destroying?
    && DestroyedContainer(s.shared, Stepping(s, l).value) == Some(id)
    && l.choice.CallFails?
  }

  /** A Destroy forgets the commands of the store. */
  predicate ForgetsStore(s: State, l: Label, support: bool) {
    && Stepping(s, l).Some? && Stepping(s, l).value.Destroying?
    && Stepping(s, l).value.support == support && Stepping(s, l).value.ds.DsClear?
  }

  /** A Destroy forgets `c`, which its store held. */
  predicate Forgets(s: State, l: Label, c: CommandRef) {
    && c < |s.shared.cmds| && ForgetsStore(s, l, s.shared.cmds[c].support)
    && InSlots(SlotsOf(s.shared, s.shared.cmds[c].support), c)
  }

  // --- over a run

  datatype Event =
    | CallOnUnfinished(c: CommandRef)
    | CheckReadsUnfinished(c: CommandRef)
    | AttachRunsOnce(c: CommandRef)
    | SecondAttach(c: CommandRef)
    | RunReturned(c: CommandRef, end: RunEnd)
    | JudgedAs(c: CommandRef, verdict: Verdict)
    | FailedClearing(c: CommandRef)
    | FailedDestroy(container: ContainerId)
    | StoreForgetting(support: bool)
    | Forgetting(c: CommandRef)

  /** Step `l` from `s` is such an event. */
  predicate Occurs(s: State, l: Label, event: Event) {
    match event
    case CallOnUnfinished(c) => CallsUnfinished(s, l, c)
    case CheckReadsUnfinished(c) => ReadsUnfinished(s, l, c)
    case AttachRunsOnce(c) => RunsOnce(s, l, c)
    case SecondAttach(c) => Reattaches(s, l, c)
    case RunReturned(c, end) => ReturnsRun(s, l, c, end)
    case JudgedAs(c, verdict) => JudgesAs(s, l, c, verdict)
    case FailedClearing(c) => FailsClearing(s, l, c)
    case FailedDestroy(id) => FailsDestroying(s, l, id)
    case StoreForgetting(support) => ForgetsStore(s, l, support)
    case Forgetting(c) => Forgets(s, l, c)
  }

  /** Some step of the run is such an event. */
  ghost predicate Happened(s: State, labels: seq<Label>, event: Event)
    decreases |labels|
  {
    labels != [] && (Occurs(s, labels[0], event)
      || (Next(s, labels[0]).Some? && Happened(Next(s, labels[0]).value, labels[1..], event)))
  }

  // --- what the record of a state says of the run that led to it

  /** What the shared part keeps of an event. */
  predicate Recorded(sh: Shared, event: Event) {
    match event
    case AttachRunsOnce(c) => c < |sh.cmds| && sh.cmds[c].once
    case JudgedAs(c, verdict) => c < |sh.cmds| && sh.cmds[c].verdict == Some(verdict)
    case FailedClearing(c) => c < |sh.cmds| && sh.cmds[c].clearFailed
    case FailedDestroy(id) => id in sh.lost
    case _ => false
  }

  /** Events whose record lasts; a verdict only does while no second routine overwrites it. */
  predicate Lasts(sh: Shared, event: Event) {
    match event
    case AttachRunsOnce(_) => true
    case JudgedAs(c, _) => c < |sh.cmds| ==> !Doubled(sh.cmds[c])
    case FailedClearing(_) => true
    case FailedDestroy(_) => true
    case _ => false
  }

  /** No context ends, nothing is lost by a Destroy or removed from outside. */
  predicate StaysInside(sh: Shared, sh': Shared) {
    sh'.ended == sh.ended && sh'.lost == sh.lost && sh'.outside == sh.outside
  }

  lemma RunEnters(sh: Shared, pc: Pc, choice: Choice, e: Effect)
    requires pc.Routine? && pc.c < |sh.cmds| && InRun(pc.rt)
    requires RunStep(sh, pc.c, pc.support, pc.context, pc.rt, choice) == Some(e)
    ensures e.pc.Routine? && e.pc.c == pc.c && e.spawned.None? && StaysInside(sh, e.shared)
  { }

  lemma JudgeEnters(sh: Shared, pc: Pc, choice: Choice, e: Effect)
    requires pc.Routine? && pc.c < |sh.cmds| && InJudge(pc.rt)
    requires JudgeStep(sh, pc.c, pc.support, pc.context, pc.rt, choice) == Some(e)
    ensures e.pc.Routine? && e.pc.c == pc.c && e.spawned.None? && StaysInside(sh, e.shared)
  {
    hide JudgeEnd, JudgeState;
  }

  lemma ClearEnters(sh: Shared, pc: Pc, choice: Choice, e: Effect)
    requires pc.Routine? && pc.c < |sh.cmds| && !InRun(pc.rt) && !InJudge(pc.rt)
    requires ClearStep(sh, pc.c, pc.support, pc.context, pc.rt, choice) == Some(e)
    ensures e.pc.Routine? && e.pc.c == pc.c && e.spawned.None? && StaysInside(sh, e.shared)
  {
    hide Forget, SlotsOf;
  }

  lemma RoutineEnters(sh: Shared, pc: Pc, choice: Choice, e: Effect)
    requires pc.Routine? && pc.c < |sh.cmds| && StepOf(sh, pc, choice) == Some(e)
    ensures e.pc.Routine? && e.pc.c == pc.c && e.spawned.None? && StaysInside(sh, e.shared)
  {
    hide RunStep, JudgeStep, ClearStep;
    if InRun(pc.rt) {
      RunEnters(sh, pc, choice, e);
    } else if InJudge(pc.rt) {
      JudgeEnters(sh, pc, choice, e);
    } else {
      ClearEnters(sh, pc, choice, e);
    }
  }

  lemma DestroyLoses(sh: Shared, pc: Pc, choice: Choice, e: Effect)
    requires pc.Destroying? && DestroyStep(sh, pc.support, pc.failing, pc.ds, choice) == Some(e)
    ensures var id := DestroyedContainer(sh, pc);
      e.shared.lost == sh.lost + if choice.CallFails? && id.Some? then {id.value} else {}
  { }

  lemma OthersLose(sh: Shared, pc: Pc, choice: Choice, e: Effect)
    requires !pc.Destroying? && !pc.Routine? && StepOf(sh, pc, choice) == Some(e)
    ensures e.shared.lost == sh.lost
  {
    hide MayCreate;
  }

  lemma StepLoses(sh: Shared, pc: Pc, choice: Choice, e: Effect, id: ContainerId)
    requires StepOf(sh, pc, choice) == Some(e)
    ensures id in e.shared.lost <==>
      id in sh.lost || (pc.Destroying? && DestroyedContainer(sh, pc) == Some(id) && choice.CallFails?)
  {
    hide ExecuteStep, PrepareStep, DestroyStep, CallStep, RunStep, JudgeStep, ClearStep, BeginStep, GetStep,
      DestroyedContainer;
    if pc.Destroying? {
      DestroyLoses(sh, pc, choice, e);
    } else if pc.Routine? {
      RoutineEnters(sh, pc, choice, e);
    } else {
      OthersLose(sh, pc, choice, e);
    }
  }

  lemma Settles(sh: Shared, c: CommandRef, support: bool, x: ContextId, j: Judgement, e: Effect)
    requires c < |sh.cmds| && Settle(sh, c, support, x, j) == Some(e)
    ensures |e.shared.cmds| == |sh.cmds|
    ensures e.shared.cmds[c].verdict == if j.Judgement? then Some(j.verdict) else sh.cmds[c].verdict
  { }

  /** What the post-run step writes, told by what it was answered. */
  lemma CheckWrites(sh: Shared, pc: Pc, choice: Choice, e: Effect, v: Verdict)
    requires pc.Routine? && pc.c < |sh.cmds| && pc.rt.RtCheck? && sh.cmds[pc.c].verdict.None?
    requires JudgeStep(sh, pc.c, pc.support, pc.context, pc.rt, choice) == Some(e)
    ensures |e.shared.cmds| == |sh.cmds|
    ensures e.shared.cmds[pc.c].verdict == Some(v) <==> AnswersAs(sh, pc, choice, pc.c, v)
  {
    hide Settle, IsEnded;
    var j := JudgeEnd(sh.cmds[pc.c].result, sh.cmds[pc.c].container in sh.world.containers, pc.rt.end, choice);
    Settles(sh, pc.c, pc.support, pc.context, j, e);
    hide JudgeStep;
  }

  lemma StateWrites(sh: Shared, pc: Pc, choice: Choice, e: Effect, v: Verdict)
    requires pc.Routine? && pc.c < |sh.cmds| && pc.rt.RtState? && sh.cmds[pc.c].verdict.None?
    requires JudgeStep(sh, pc.c, pc.support, pc.context, pc.rt, choice) == Some(e)
    ensures |e.shared.cmds| == |sh.cmds|
    ensures e.shared.cmds[pc.c].verdict == Some(v) <==> AnswersAs(sh, pc, choice, pc.c, v)
  {
    hide Settle, IsEnded;
    var j := JudgeState(sh.cmds[pc.c].result, sh.world.containers, sh.cmds[pc.c].container, choice);
    Settles(sh, pc.c, pc.support, pc.context, j, e);
    hide JudgeStep;
  }

  predicate ClearingFailing(pc: Pc, choice: Choice, c: CommandRef) {
    pc.Routine? && pc.c == c && (pc.rt.RtClearExists? || pc.rt.RtClearDestroy?) && choice.CallFails?
  }

  /** A first judgement is what the step was answered. */
  lemma FirstVerdict(sh: Shared, pc: Pc, choice: Choice, e: Effect, c: CommandRef, v: Verdict)
    requires c < |sh.cmds| && sh.cmds[c].verdict.None? && IsJudging(pc, c) && StepOf(sh, pc, choice) == Some(e)
    ensures |e.shared.cmds| == |sh.cmds|
    ensures e.shared.cmds[c].verdict == Some(v) <==> AnswersAs(sh, pc, choice, c, v)
  {
    assert !InRun(pc.rt) && InJudge(pc.rt);
    assert JudgeStep(sh, c, pc.support, pc.context, pc.rt, choice) == Some(e);
    hide JudgeStep, StepOf, AnswersAs;
    if pc.rt.RtCheck? {
      CheckWrites(sh, pc, choice, e, v);
    } else {
      StateWrites(sh, pc, choice, e, v);
    }
  }

  lemma StepJudges(sh: Shared, pc: Pc, choice: Choice, e: Effect, c: CommandRef, v: Verdict)
    requires ThreadOk(sh, pc) && CommandsPromise(sh, e.shared, pc) && StepOf(sh, pc, choice) == Some(e)
    requires c < |e.shared.cmds| && !Doubled(e.shared.cmds[c])
    ensures e.shared.cmds[c].verdict == Some(v) <==>
      (c < |sh.cmds| && sh.cmds[c].verdict == Some(v)) || AnswersAs(sh, pc, choice, c, v)
  {
    hide StepOf, IsEnded;
    if c < |sh.cmds| {
      assert Evolves(sh.cmds[c], e.shared.cmds[c]) && Permitted(sh.cmds[c], e.shared.cmds[c], pc, c);
      if IsJudging(pc, c) {
        FirstVerdict(sh, pc, choice, e, c, v);
      }
    }
  }

  lemma PromiseAt(s: State, t: ThreadId, choice: Choice, e: Effect)
    requires Inv(s) && t < |s.threads| && StepOf(s.shared, s.threads[t], choice) == Some(e)
    requires e.lock.Take? ==> e.lock.lock !in s.owner
    ensures Promise(s.shared, e.shared, s.threads[t]) && SharedInv(s.shared) && ThreadOk(s.shared, s.threads[t])
  {
    hide StepOf, SharedInv, LocksAgree, CountsAgree, Promise, ThreadOk, FreeOk;
    StepGood(s.shared, s.threads[t], choice, e);
  }

  lemma OnceSpent(sh: Shared, pc: Pc, choice: Choice, e: Effect)
    requires pc.Calling? && pc.cl.ClOnce? && pc.c < |sh.cmds| && CallStep(sh, pc.c, pc.cl, choice) == Some(e)
    ensures |e.shared.cmds| == |sh.cmds| && e.shared.cmds[pc.c].once && e.pc == Calling(pc.c, ClDone)
  { }

  lemma StepAttaches(sh: Shared, pc: Pc, choice: Choice, e: Effect, c: CommandRef)
    requires ThreadOk(sh, pc) && CommandsPromise(sh, e.shared, pc) && StepOf(sh, pc, choice) == Some(e)
    ensures (c < |e.shared.cmds| && e.shared.cmds[c].once) <==> (c < |sh.cmds| && sh.cmds[c].once) || AtOnce(pc, c)
  {
    hide ExecuteStep, PrepareStep, DestroyStep, GetStep, CallStep, RunStep, JudgeStep, ClearStep, BeginStep;
    if c < |sh.cmds| {
      assert Evolves(sh.cmds[c], e.shared.cmds[c]) && Permitted(sh.cmds[c], e.shared.cmds[c], pc, c);
    }
    if AtOnce(pc, c) {
      OnceSpent(sh, pc, choice, e);
    }
  }

  lemma ThreadRecords(s: State, t: ThreadId, choice: Choice, e: Effect, event: Event)
    requires Inv(s) && t < |s.threads| && StepOf(s.shared, s.threads[t], choice) == Some(e)
    requires e.lock.Take? ==> e.lock.lock !in s.owner
    requires Lasts(e.shared, event)
    ensures Recorded(e.shared, event) <==> Recorded(s.shared, event) || Occurs(s, Thread(t, choice), event)
  {
    hide StepOf, Inv, Promise, SharedInv, ThreadOk, IsEnded, DestroyedContainer;
    PromiseAt(s, t, choice, e);
    var sh, pc := s.shared, s.threads[t];
    assert CommandsPromise(sh, e.shared, pc) by { CommandsPart(sh, e.shared, pc); }
    hide CommandsPromise;
    match event
    case AttachRunsOnce(c) => StepAttaches(sh, pc, choice, e, c);
    case JudgedAs(c, v) => JudgedAt(s, t, choice, e, c, v);
    case FailedClearing(c) => StepFailsClearing(sh, pc, choice, e, c);
    case FailedDestroy(id) => StepLoses(sh, pc, choice, e, id);
  }

  lemma StepFailsClearing(sh: Shared, pc: Pc, choice: Choice, e: Effect, c: CommandRef)
    requires ThreadOk(sh, pc) && CommandsPromise(sh, e.shared, pc) && StepOf(sh, pc, choice) == Some(e)
    ensures (c < |e.shared.cmds| && e.shared.cmds[c].clearFailed) <==>
      (c < |sh.cmds| && sh.cmds[c].clearFailed) || ClearingFailing(pc, choice, c)
  {
    hide RunStep, JudgeStep, ClearStep, ExecuteStep, PrepareStep, CallStep, DestroyStep, BeginStep, GetStep;
    if c < |sh.cmds| {
      assert Evolves(sh.cmds[c], e.shared.cmds[c]) && Permitted(sh.cmds[c], e.shared.cmds[c], pc, c);
      if e.shared.cmds[c].clearFailed && !sh.cmds[c].clearFailed {
        FailsOnlyThere(sh, pc, choice, e);
      }
    }
    if ClearingFailing(pc, choice, c) {
      FailingSets(sh, pc, e);
    }
  }

  lemma FailingSets(sh: Shared, pc: Pc, e: Effect)
    requires pc.Routine? && pc.c < |sh.cmds| && (pc.rt.RtClearExists? || pc.rt.RtClearDestroy?)
    requires ClearStep(sh, pc.c, pc.support, pc.context, pc.rt, CallFails) == Some(e)
    ensures pc.c < |e.shared.cmds| && e.shared.cmds[pc.c].clearFailed
  { }

  lemma OverKeepsFlag(sh: Shared, c: CommandRef, support: bool, x: ContextId)
    requires c < |sh.cmds|
    ensures var over := ClearingOver(sh, c, support, x, false).value.shared.cmds;
      |over| == |sh.cmds| && over[c].clearFailed == sh.cmds[c].clearFailed
  { }

  lemma EditedAt(sh: Shared, c: CommandRef, cmd: Command)
    requires c < |sh.cmds|
    ensures |WithCommand(sh, c, cmd).cmds| == |sh.cmds| && WithCommand(sh, c, cmd).cmds[c] == cmd
  { }

  lemma SlotsKeepCommands(sh: Shared, support: bool, slots: Slots)
    ensures WithSlots(sh, support, slots).cmds == sh.cmds
  { }

  lemma ClearWithoutFault(sh: Shared, pc: Pc, choice: Choice, e: Effect)
    requires pc.Routine? && pc.c < |sh.cmds| && !InRun(pc.rt) && !InJudge(pc.rt) && !choice.CallFails?
    requires ClearStep(sh, pc.c, pc.support, pc.context, pc.rt, choice) == Some(e)
    ensures pc.c < |e.shared.cmds| && e.shared.cmds[pc.c].clearFailed == sh.cmds[pc.c].clearFailed
  {
    hide Forget, WithSlots, SlotsOf, WithCommand, ClearingOver;
    var c, cmd := pc.c, sh.cmds[pc.c];
    match pc.rt
    case RtClearTest => OverKeepsFlag(sh, c, pc.support, pc.context);
    case RtClearDestroy => EditedAt(sh, c, cmd.(cleared := true));
    case RtClearForget =>
      var slots := Forget(SlotsOf(sh, pc.support), c);
      SlotsKeepCommands(sh, pc.support, slots);
      OverKeepsFlag(WithSlots(sh, pc.support, slots), c, pc.support, pc.context);
    case RtClose => EditedAt(sh, c, cmd.(closes := cmd.closes + 1));
    case _ =>
  }

  lemma RunClearsNothing(sh: Shared, pc: Pc, choice: Choice, e: Effect)
    requires pc.Routine? && pc.c < |sh.cmds| && InRun(pc.rt)
    requires RunStep(sh, pc.c, pc.support, pc.context, pc.rt, choice) == Some(e)
    ensures e.shared == sh
  { }

  lemma JudgeClearsNothing(sh: Shared, pc: Pc, choice: Choice, e: Effect)
    requires pc.Routine? && pc.c < |sh.cmds| && InJudge(pc.rt)
    requires JudgeStep(sh, pc.c, pc.support, pc.context, pc.rt, choice) == Some(e)
    ensures pc.c < |e.shared.cmds| && e.shared.cmds[pc.c].clearFailed == sh.cmds[pc.c].clearFailed
  {
    hide JudgeEnd, JudgeState;
  }

  /** Clearing fails only at a failing call. */
  lemma FailsOnlyThere(sh: Shared, pc: Pc, choice: Choice, e: Effect)
    requires pc.Routine? && pc.c < |sh.cmds| && StepOf(sh, pc, choice) == Some(e)
    requires pc.c < |e.shared.cmds| && e.shared.cmds[pc.c].clearFailed && !sh.cmds[pc.c].clearFailed
    ensures (pc.rt.RtClearExists? || pc.rt.RtClearDestroy?) && choice.CallFails?
  {
    hide RunStep, JudgeStep, ClearStep;
    if InRun(pc.rt) {
      RunClearsNothing(sh, pc, choice, e);
    } else if InJudge(pc.rt) {
      JudgeClearsNothing(sh, pc, choice, e);
    } else if !choice.CallFails? {
      ClearWithoutFault(sh, pc, choice, e);
    } else {
      FailingElsewhere(sh, pc, e);
    }
  }

  lemma FailingElsewhere(sh: Shared, pc: Pc, e: Effect)
    requires pc.Routine? && pc.c < |sh.cmds| && !InRun(pc.rt) && !InJudge(pc.rt)
    requires ClearStep(sh, pc.c, pc.support, pc.context, pc.rt, CallFails) == Some(e)
    requires pc.c < |e.shared.cmds| && e.shared.cmds[pc.c].clearFailed && !sh.cmds[pc.c].clearFailed
    ensures pc.rt.RtClearExists? || pc.rt.RtClearDestroy?
  {
    hide Forget, WithSlots, SlotsOf, WithCommand, ClearingOver;
    match pc.rt
    case RtClearTest => OverKeepsFlag(sh, pc.c, pc.support, pc.context);
    case RtClearForget =>
      var slots := Forget(SlotsOf(sh, pc.support), pc.c);
      SlotsKeepCommands(sh, pc.support, slots);
      OverKeepsFlag(WithSlots(sh, pc.support, slots), pc.c, pc.support, pc.context);
    case RtClose => EditedAt(sh, pc.c, sh.cmds[pc.c].(closes := sh.cmds[pc.c].closes + 1));
    case _ =>
  }

  lemma CommandsPart(sh: Shared, sh': Shared, pc: Pc)
    requires Promise(sh, sh', pc)
    ensures CommandsPromise(sh, sh', pc)
  { }

  lemma JudgedAt(s: State, t: ThreadId, choice: Choice, e: Effect, c: CommandRef, v: Verdict)
    requires t < |s.threads| && StepOf(s.shared, s.threads[t], choice) == Some(e) && ThreadOk(s.shared, s.threads[t])
    requires CommandsPromise(s.shared, e.shared, s.threads[t])
    requires c < |e.shared.cmds| ==> !Doubled(e.shared.cmds[c])
    ensures Recorded(e.shared, JudgedAs(c, v)) <==>
      Recorded(s.shared, JudgedAs(c, v)) || Occurs(s, Thread(t, choice), JudgedAs(c, v))
  {
    hide StepOf, IsEnded, Permitted, Evolves;
    var pc := s.threads[t];
    if c < |e.shared.cmds| {
      StepJudges(s.shared, pc, choice, e, c, v);
    } else {
      assert pc.Routine? ==> pc.c != c;
    }
  }

  lemma OutsideRecords(s: State, l: Label, event: Event)
    requires !l.Thread? && OutsideStep(s.shared, l).Some?
    ensures Recorded(OutsideStep(s.shared, l).value, event) == Recorded(s.shared, event) && !Occurs(s, l, event)
    ensures OutsideStep(s.shared, l).value.cmds == s.shared.cmds
  { }

  lemma NextRecords(s: State, l: Label, event: Event)
    requires Inv(s) && Next(s, l).Some? && Lasts(Next(s, l).value.shared, event)
    ensures Recorded(Next(s, l).value.shared, event) <==> Recorded(s.shared, event) || Occurs(s, l, event)
  {
    hide StepOf, Inv, OutsideStep, Recorded, Occurs, Lasts;
    if l.Thread? {
      ThreadRecords(s, l.t, l.choice, StepOf(s.shared, s.threads[l.t], l.choice).value, event);
    } else {
      OutsideRecords(s, l, event);
    }
  }

  lemma LastedBefore(sh: Shared, sh': Shared, event: Event)
    requires Follows(sh, sh') && Lasts(sh', event)
    ensures Lasts(sh, event)
  {
    if event.JudgedAs? && event.c < |sh.cmds| {
      assert Evolves(sh.cmds[event.c], sh'.cmds[event.c]);
    }
  }

  /** The record of a state says exactly what happened on the way to it. */
  lemma {:induction false} RunRecords(s: State, labels: seq<Label>, event: Event)
    requires Inv(s) && Run(s, labels).Some? && Lasts(Run(s, labels).value.shared, event)
    ensures Recorded(Run(s, labels).value.shared, event) <==> Recorded(s.shared, event) || Happened(s, labels, event)
    decreases |labels|
  {
    hide Inv, Next, Recorded, Occurs, Lasts, Follows;
    if labels != [] {
      var s' := Next(s, labels[0]).value;
      NextKept(s, labels[0]);
      RunFollows(s', labels[1..]);
      LastedBefore(s'.shared, Run(s', labels[1..]).value.shared, event);
      NextRecords(s, labels[0], event);
      RunRecords(s', labels[1..], event);
    }
  }

  /** From a freshly built executor: what the record says of a once, a verdict or a lost
    * container is what happened in the run.
    */
  lemma StartRecords(s: State, labels: seq<Label>, event: Event)
    requires Start(s) && Run(s, labels).Some? && Lasts(Run(s, labels).value.shared, event)
    requires event.AttachRunsOnce? && event.c < |s.shared.cmds| ==> !s.shared.cmds[event.c].origin.RecoveredFinished?
    ensures Recorded(Run(s, labels).value.shared, event) <==> Happened(s, labels, event)
  {
    StartInv(s);
    RunRecords(s, labels, event);
    hide Inv, Run, Happened;
    if !event.FailedDestroy? && event.c < |s.shared.cmds| {
      assert Recovered(s.shared.cmds[event.c]);
    }
  }

  // --- runs in which no runtime call fails

  predicate FaultFree(labels: seq<Label>) {
    forall i :: 0 <= i < |labels| && labels[i].Thread? ==> !labels[i].choice.CallFails?
  }

  lemma {:induction false} NoFaultNoFailure(s: State, labels: seq<Label>, event: Event)
    requires FaultFree(labels) && (event.FailedClearing? || event.FailedDestroy?)
    ensures !Happened(s, labels, event)
    decreases |labels|
  {
    hide Next;
    if labels != [] && Next(s, labels[0]).Some? {
      assert forall i :: 0 <= i < |labels[1..]| ==> labels[1..][i] == labels[i + 1];
      NoFaultNoFailure(Next(s, labels[0]).value, labels[1..], event);
    }
  }
}

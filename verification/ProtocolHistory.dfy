/** Who ended a command: what a killed or aborted result says about the calls made earlier in the run. */
module ProtocolHistory {
  import opened Wrappers
  import opened Containers
  import opened CommandResults
  import opened PodmanAttach
  import opened Protocol
  import opened ProtocolInvariant
  import opened Interference
  import opened ProtocolRuns
  import opened ProtocolEvents
  import opened ProtocolAttaching
  import opened ProtocolTheorems

  // --- entering a Kill or a Destroy takes a call

  lemma BeginEnters(sh: Shared, op: Operation, e: Effect, c: CommandRef)
    requires BeginStep(sh, op) == Some(e)
    ensures InKill(e.pc, c) ==> op == Kill(c)
    ensures e.pc.Destroying? ==> op == Destroy
    ensures !e.pc.Routine? && e.spawned.None? && e.shared.cmds == sh.cmds && e.shared.ended == sh.ended
  { }

  lemma CallEnters(sh: Shared, pc: Pc, choice: Choice, e: Effect, c: CommandRef)
    requires pc.Calling? && pc.c < |sh.cmds| && CallStep(sh, pc.c, pc.cl, choice) == Some(e)
    ensures InKill(e.pc, c) ==> InKill(pc, c)
    ensures !e.pc.Destroying? && !e.pc.Routine?
    ensures e.spawned.Some? ==> e.spawned.value.Routine? && e.spawned.value.rt.RtBegin?
  { }

  lemma OthersEnter(sh: Shared, pc: Pc, choice: Choice, e: Effect)
    requires pc.Executing? || pc.Preparing? || pc.Destroying? || pc.Getting?
    requires StepOf(sh, pc, choice) == Some(e)
    ensures e.pc.Executing? || e.pc.Destroying? || e.pc.Getting? || e.pc.Idle?
    ensures e.pc.Destroying? ==> pc.Destroying?
    ensures e.spawned.Some? ==> e.spawned.value.Routine? && e.spawned.value.rt.RtBegin?
  { }

  lemma StepEnters(sh: Shared, pc: Pc, choice: Choice, e: Effect, c: CommandRef)
    requires StepOf(sh, pc, choice) == Some(e)
    ensures InKill(e.pc, c) ==> InKill(pc, c) || choice == Begin(Kill(c))
    ensures e.pc.Destroying? ==> pc.Destroying? || choice == Begin(Destroy)
    ensures e.spawned.Some? ==> e.spawned.value.Routine? && e.spawned.value.rt.RtBegin?
  {
    match pc
    case Idle(_) => BeginEnters(sh, choice.op, e, c);
    case Calling(_, _) => CallEnters(sh, pc, choice, e, c);
    case Routine(_, _, _, _) => RoutineEnters(sh, pc, choice, e);
    case _ => OthersEnter(sh, pc, choice, e);
  }

  ghost predicate KillUnderway(s: State, c: CommandRef) {
    (c < |s.shared.cmds| && s.shared.cmds[c].killAsked) || exists t :: 0 <= t < |s.threads| && InKill(s.threads[t], c)
  }

  ghost predicate DestroyUnderway(s: State, c: CommandRef) {
    (c < |s.shared.cmds| && s.shared.cmds[c].destroyAsked)
    || exists t :: 0 <= t < |s.threads| && s.threads[t].Destroying?
  }

  ghost predicate BeganIn(labels: seq<Label>, op: Operation) {
    exists i, t :: 0 <= i < |labels| && labels[i] == Thread(t, Begin(op))
  }

  lemma NextUnderway(s: State, l: Label, c: CommandRef)
    requires Inv(s) && Next(s, l).Some?
    ensures KillUnderway(Next(s, l).value, c) ==> KillUnderway(s, c) || (l.Thread? && l.choice == Begin(Kill(c)))
    ensures DestroyUnderway(Next(s, l).value, c) ==> DestroyUnderway(s, c) || (l.Thread? && l.choice == Begin(Destroy))
  {
    if l.Thread? {
      var pc := s.threads[l.t];
      var e := StepOf(s.shared, pc, l.choice).value;
      StepGood(s.shared, pc, l.choice, e);
      StepEnters(s.shared, pc, l.choice, e, c);
      UnderwayStep(s, l.t, e, c);
    }
  }

  lemma UnderwayStep(s: State, t: ThreadId, e: Effect, c: CommandRef)
    requires t < |s.threads| && CommandsPromise(s.shared, e.shared, s.threads[t])
    requires e.spawned.Some? ==> e.spawned.value.Routine?
    ensures KillUnderway(Apply(s, t, e), c) ==> KillUnderway(s, c) || InKill(e.pc, c)
    ensures DestroyUnderway(Apply(s, t, e), c) ==> DestroyUnderway(s, c) || e.pc.Destroying?
  {
    var s' := Apply(s, t, e);
    assert s'.threads[t] == e.pc;
    if c < |s.shared.cmds| {
      assert Permitted(s.shared.cmds[c], e.shared.cmds[c], s.threads[t], c);
    }
    forall u | 0 <= u < |s'.threads|
      ensures s'.threads[u] == e.pc || (u < |s.threads| && s'.threads[u] == s.threads[u]) || s'.threads[u].Routine? { }
  }

  lemma {:induction false} RunUnderway(s: State, labels: seq<Label>, c: CommandRef)
    requires Inv(s) && Run(s, labels).Some?
    ensures KillUnderway(Run(s, labels).value, c) ==> KillUnderway(s, c) || BeganIn(labels, Kill(c))
    ensures DestroyUnderway(Run(s, labels).value, c) ==> DestroyUnderway(s, c) || BeganIn(labels, Destroy)
    decreases |labels|
  {
    if labels != [] {
      NextKept(s, labels[0]);
      NextUnderway(s, labels[0], c);
      RunUnderway(Next(s, labels[0]).value, labels[1..], c);
      BeganLater(labels, Kill(c));
      BeganLater(labels, Destroy);
    }
  }

  lemma BeganLater(labels: seq<Label>, op: Operation)
    requires labels != []
    ensures BeganIn(labels[1..], op) || (labels[0].Thread? && labels[0].choice == Begin(op)) ==> BeganIn(labels, op)
  {
    if BeganIn(labels[1..], op) {
      var i, t :| 0 <= i < |labels[1..]| && labels[1..][i] == Thread(t, Begin(op));
      assert labels[i + 1] == Thread(t, Begin(op));
    } else if labels[0].Thread? && labels[0].choice == Begin(op) {
      assert labels[0] == Thread(labels[0].t, Begin(op));
    }
  }

  lemma {:induction false} RunContexts(s: State, labels: seq<Label>, x: ContextId)
    requires Inv(s) && Run(s, labels).Some? && x in Run(s, labels).value.shared.ended
    ensures x in s.shared.ended || EndContext(x) in labels
    decreases |labels|
  {
    if labels != [] {
      NextKept(s, labels[0]);
      NextContexts(s, labels[0]);
      RunContexts(Next(s, labels[0]).value, labels[1..], x);
    }
  }

  lemma NextContexts(s: State, l: Label)
    requires Next(s, l).Some?
    ensures Next(s, l).value.shared.ended == s.shared.ended + if l.EndContext? then {l.context} else {}
  {
    hide StepOf;
    if l.Thread? {
      StepStaysInside(s.shared, s.threads[l.t], l.choice, StepOf(s.shared, s.threads[l.t], l.choice).value);
    }
  }

  /** A thread's step ends no context and removes nothing from outside. */
  lemma StepStaysInside(sh: Shared, pc: Pc, choice: Choice, e: Effect)
    requires StepOf(sh, pc, choice) == Some(e)
    ensures e.shared.ended == sh.ended && e.shared.outside == sh.outside
  {
    if pc.Routine? {
      RoutineEnters(sh, pc, choice, e);
    } else if pc.Destroying? {
      DestroyEndsNothing(sh, pc, choice, e);
    } else {
      hide MayCreate, AfterCheck, Push, DestroyStep;
    }
  }

  lemma DestroyEndsNothing(sh: Shared, pc: Pc, choice: Choice, e: Effect)
    requires pc.Destroying? && DestroyStep(sh, pc.support, pc.failing, pc.ds, choice) == Some(e)
    ensures e.shared.ended == sh.ended && e.shared.outside == sh.outside
  { }

  lemma {:induction false} RunRemoves(s: State, labels: seq<Label>, id: ContainerId)
    requires Run(s, labels).Some?
    ensures id in Run(s, labels).value.shared.outside <==> id in s.shared.outside || RemoveOutside(id) in labels
    decreases |labels|
  {
    hide Next;
    if labels != [] {
      NextRemoves(s, labels[0]);
      RunRemoves(Next(s, labels[0]).value, labels[1..], id);
      assert labels == [labels[0]] + labels[1..];
    }
  }

  lemma NextRemoves(s: State, l: Label)
    requires Next(s, l).Some?
    ensures Next(s, l).value.shared.outside == s.shared.outside + if l.RemoveOutside? then {l.container} else {}
  {
    hide StepOf;
    if l.Thread? {
      StepStaysInside(s.shared, s.threads[l.t], l.choice, StepOf(s.shared, s.threads[l.t], l.choice).value);
    }
  }

  // --- the contexts a command ran under

  /** The thread is an Execute under `x`, or an AttachWait of `c` under `x` that has not run its once. */
  predicate CarriesContext(pc: Pc, c: CommandRef, x: ContextId) {
    || (pc.Executing? && pc.context == x)
    || (InCheck(pc, c) && pc.cl.intent.context == x)
    || (AtOnce(pc, c) && pc.cl.context == x)
  }

  /** Execute, or AttachWait of `c`, is called under `x`. */
  predicate StartsUnder(choice: Choice, c: CommandRef, x: ContextId) {
    choice.Begin? && ((choice.op.Execute? && choice.op.context == x) || choice.op == AttachWait(c, x))
  }

  ghost predicate BegunUnder(labels: seq<Label>, c: CommandRef, x: ContextId) {
    exists i :: 0 <= i < |labels| && labels[i].Thread? && StartsUnder(labels[i].choice, c, x)
  }

  ghost predicate ContextUnderway(s: State, c: CommandRef, x: ContextId) {
    || (c < |s.shared.cmds| && x in s.shared.cmds[c].contexts)
    || exists t :: 0 <= t < |s.threads| && CarriesContext(s.threads[t], c, x)
  }

  lemma CallCarries(sh: Shared, pc: Pc, choice: Choice, e: Effect, c: CommandRef, x: ContextId)
    requires pc.Calling? && pc.c < |sh.cmds| && CallStep(sh, pc.c, pc.cl, choice) == Some(e)
    ensures CarriesContext(e.pc, c, x) ==> CarriesContext(pc, c, x)
  { }

  lemma ExecuteCarries(sh: Shared, pc: Pc, choice: Choice, e: Effect, c: CommandRef, x: ContextId)
    requires pc.Executing? && ExecuteStep(sh, pc.support, pc.context, pc.ex, choice) == Some(e)
    ensures CarriesContext(e.pc, c, x) ==> pc.context == x
  {
    hide MayCreate;
  }

  lemma BeginCarries(sh: Shared, op: Operation, e: Effect, c: CommandRef, x: ContextId)
    requires BeginStep(sh, op) == Some(e)
    ensures CarriesContext(e.pc, c, x) ==> StartsUnder(Begin(op), c, x)
  { }

  lemma OthersCarry(sh: Shared, pc: Pc, choice: Choice, e: Effect, c: CommandRef, x: ContextId)
    requires pc.Preparing? || pc.Destroying? || pc.Getting?
    requires StepOf(sh, pc, choice) == Some(e)
    ensures !CarriesContext(e.pc, c, x)
  { }

  lemma StepCarries(sh: Shared, pc: Pc, choice: Choice, e: Effect, c: CommandRef, x: ContextId)
    requires StepOf(sh, pc, choice) == Some(e)
    ensures CarriesContext(e.pc, c, x) ==> CarriesContext(pc, c, x) || StartsUnder(choice, c, x)
    ensures e.spawned.Some? ==> e.spawned.value.Routine?
  {
    StepEnters(sh, pc, choice, e, c);
    match pc
    case Idle(_) => BeginCarries(sh, choice.op, e, c, x);
    case Executing(_, _, _) => ExecuteCarries(sh, pc, choice, e, c, x);
    case Calling(_, _) => CallCarries(sh, pc, choice, e, c, x);
    case Routine(_, _, _, _) => RoutineEnters(sh, pc, choice, e);
    case _ => OthersCarry(sh, pc, choice, e, c, x);
  }

  lemma NextUnder(s: State, l: Label, c: CommandRef, x: ContextId)
    requires Inv(s) && Next(s, l).Some? && ContextUnderway(Next(s, l).value, c, x)
    ensures ContextUnderway(s, c, x) || (l.Thread? && StartsUnder(l.choice, c, x))
  {
    hide StepOf, Inv, OutsideStep, StartsUnder, Promise, CommandsPromise, SharedInv, ThreadOk;
    if l.Thread? {
      var e := StepOf(s.shared, s.threads[l.t], l.choice).value;
      PromiseOf(s, l.t, l.choice, e);
      StepCarries(s.shared, s.threads[l.t], l.choice, e, c, x);
      UnderBackward(s, l.t, e, c, x);
    } else {
      OutsideCommands(s.shared, l);
    }
  }

  lemma UnderBackward(s: State, t: ThreadId, e: Effect, c: CommandRef, x: ContextId)
    requires t < |s.threads| && CommandsPromise(s.shared, e.shared, s.threads[t])
    requires e.spawned.Some? ==> e.spawned.value.Routine?
    requires ContextUnderway(Apply(s, t, e), c, x)
    ensures ContextUnderway(s, c, x) || CarriesContext(e.pc, c, x)
  {
    var s' := Apply(s, t, e);
    if c < |e.shared.cmds| && x in e.shared.cmds[c].contexts {
      if c < |s.shared.cmds| {
        assert Permitted(s.shared.cmds[c], e.shared.cmds[c], s.threads[t], c);
      }
    } else {
      var u :| 0 <= u < |s'.threads| && CarriesContext(s'.threads[u], c, x);
      assert u < |s.threads|;
      assert u != t ==> s'.threads[u] == s.threads[u];
    }
  }

  lemma {:induction false} RunUnder(s: State, labels: seq<Label>, c: CommandRef, x: ContextId)
    requires Inv(s) && Run(s, labels).Some? && ContextUnderway(Run(s, labels).value, c, x)
    ensures ContextUnderway(s, c, x) || BegunUnder(labels, c, x)
    decreases |labels|
  {
    hide Inv, Next, ContextUnderway, StartsUnder;
    if labels != [] {
      NextKept(s, labels[0]);
      RunUnder(Next(s, labels[0]).value, labels[1..], c, x);
      UnderLater(labels, c, x);
      if ContextUnderway(Next(s, labels[0]).value, c, x) {
        NextUnder(s, labels[0], c, x);
      }
    }
  }

  lemma UnderLater(labels: seq<Label>, c: CommandRef, x: ContextId)
    requires labels != []
    ensures BegunUnder(labels[1..], c, x) || (labels[0].Thread? && StartsUnder(labels[0].choice, c, x)) ==>
      BegunUnder(labels, c, x)
  {
    if BegunUnder(labels[1..], c, x) {
      var i :| 0 <= i < |labels[1..]| && labels[1..][i].Thread? && StartsUnder(labels[1..][i].choice, c, x);
      assert labels[i + 1] == labels[1..][i];
    }
  }

  lemma NotUnder(s: State, c: CommandRef, x: ContextId)
    requires Start(s)
    ensures !ContextUnderway(s, c, x)
  {
    if c < |s.shared.cmds| {
      assert Recovered(s.shared.cmds[c]);
    }
  }

  // --- who killed

  /** What a killed result goes back to: the request that explains each verdict. */
  lemma KilledVerdict(s: State, c: CommandRef)
    requires Inv(s) && c < |s.shared.cmds| && s.shared.cmds[c].result.killed && !Doubled(s.shared.cmds[c])
    ensures var sh := s.shared;
      || sh.cmds[c].verdict == Some(CheckFailed)
      || (sh.cmds[c].verdict == Some(RunWasAborted) && ContextEnded(sh.cmds[c], sh.ended))
      || Requested(sh.cmds[c], sh.outside)
  {
    var sh := s.shared;
    assert CommandOk(sh.cmds[c]) && AttributedOne(sh.cmds[c], sh.world.containers, sh.outside, sh.ended);
  }

  /** A killed result is never spontaneous: somebody called Kill on that command
    * or Destroy, or a context it ran under, named by a call of Execute or of its
    * AttachWait, ended; unless the existence check after its run failed, others removed
    * its container, or an AttachWait attached it again.
    */
  lemma KilledByRequest(s: State, labels: seq<Label>, c: CommandRef)
    requires Start(s) && Run(s, labels).Some? && c < |Run(s, labels).value.shared.cmds|
    requires var cmd := Run(s, labels).value.shared.cmds[c];
      && cmd.result.killed && !Reattached(s, labels, c)
      && !Happened(s, labels, JudgedAs(c, CheckFailed)) && RemoveOutside(cmd.container) !in labels
    ensures BeganIn(labels, Kill(c)) || BeganIn(labels, Destroy)
      || exists x :: BegunUnder(labels, c, x) && x in Run(s, labels).value.shared.cmds[c].contexts
           && (x in s.shared.ended || EndContext(x) in labels)
  {
    hide Start, Reattached, Happened, Inv, KillUnderway, DestroyUnderway, BeganIn;
    StartInv(s);
    RunKept(s, labels);
    var sh := Run(s, labels).value.shared;
    DoubledByAttachWait(s, labels, c);
    StartRecords(s, labels, JudgedAs(c, CheckFailed));
    RunRemoves(s, labels, sh.cmds[c].container);
    assert s.shared.outside == {} by { NothingOutside(s); }
    KilledVerdict(Run(s, labels).value, c);
    RunUnderway(s, labels, c);
    NothingUnderway(s, c);
    AskedIsUnderway(Run(s, labels).value, c);
    if ContextEnded(sh.cmds[c], sh.ended) {
      var x :| x in sh.cmds[c].contexts && x in sh.ended;
      RunContexts(s, labels, x);
      RunUnder(s, labels, c, x);
      NotUnder(s, c, x);
    }
  }

  lemma AskedIsUnderway(s: State, c: CommandRef)
    requires c < |s.shared.cmds|
    ensures s.shared.cmds[c].killAsked ==> KillUnderway(s, c)
    ensures s.shared.cmds[c].destroyAsked ==> DestroyUnderway(s, c)
  { }

  lemma NothingOutside(s: State)
    requires Start(s)
    ensures s.shared.outside == {}
  { }

  lemma NothingUnderway(s: State, c: CommandRef)
    requires Start(s)
    ensures !KillUnderway(s, c) && !DestroyUnderway(s, c)
  {
    if c < |s.shared.cmds| {
      assert Recovered(s.shared.cmds[c]);
    }
  }

  // --- from the end of a run to its judgement

  /** How the run ended that led to the verdict. */
  function EndOf(v: Verdict): RunEnd {
    match v
    case RunWasAborted => Aborted
    case RunFailed => Errored
    case _ => Completed
  }

  /** A routine of `c` whose run ended so is on its way to judge it. */
  predicate Carries(pc: Pc, c: CommandRef, end: RunEnd) {
    && pc.Routine? && pc.c == c
    && (pc.rt == RtLock(end) || pc.rt == RtCheck(end) || (pc.rt.RtState? && end == Completed))
  }

  predicate Says(sh: Shared, c: CommandRef, end: RunEnd) {
    c < |sh.cmds| && sh.cmds[c].verdict.Some? && EndOf(sh.cmds[c].verdict.value) == end
  }

  /** The end of a run is on its way into the record, or is there. */
  ghost predicate Brought(s: State, c: CommandRef, end: RunEnd) {
    Says(s.shared, c, end) || exists t :: 0 <= t < |s.threads| && Carries(s.threads[t], c, end)
  }

  predicate ReturnsAs(pc: Pc, choice: Choice, c: CommandRef, end: RunEnd) {
    pc.Routine? && pc.c == c && pc.rt.RtRun? && choice == RunReturns(end)
  }

  lemma RunCarries(sh: Shared, pc: Pc, choice: Choice, e: Effect, end: RunEnd)
    requires pc.Routine? && pc.c < |sh.cmds| && InRun(pc.rt)
    requires RunStep(sh, pc.c, pc.support, pc.context, pc.rt, choice) == Some(e)
    ensures Carries(e.pc, pc.c, end) <==> ReturnsAs(pc, choice, pc.c, end)
  { }

  /** A verdict answers the end it was asked about. */
  lemma AnsweredEnd(sh: Shared, pc: Pc, choice: Choice, c: CommandRef, v: Verdict, end: RunEnd)
    requires AnswersAs(sh, pc, choice, c, v)
    ensures Carries(pc, c, end) <==> end == EndOf(v)
  { }

  lemma JudgeCarries(sh: Shared, pc: Pc, choice: Choice, e: Effect, end: RunEnd)
    requires pc.Routine? && pc.c < |sh.cmds| && InJudge(pc.rt) && Carries(pc, pc.c, end)
    requires JudgeStep(sh, pc.c, pc.support, pc.context, pc.rt, choice) == Some(e)
    ensures Carries(e.pc, pc.c, end) || Says(e.shared, pc.c, end)
  { }

  lemma JudgeBrings(sh: Shared, pc: Pc, choice: Choice, e: Effect, end: RunEnd)
    requires pc.Routine? && pc.c < |sh.cmds| && InJudge(pc.rt) && Carries(e.pc, pc.c, end)
    requires JudgeStep(sh, pc.c, pc.support, pc.context, pc.rt, choice) == Some(e)
    ensures Carries(pc, pc.c, end)
  {
    hide JudgeState;
  }

  lemma ClearCarries(sh: Shared, pc: Pc, choice: Choice, e: Effect, c: CommandRef, end: RunEnd)
    requires pc.Routine? && pc.c < |sh.cmds| && !InRun(pc.rt) && !InJudge(pc.rt)
    requires ClearStep(sh, pc.c, pc.support, pc.context, pc.rt, choice) == Some(e)
    ensures !Carries(pc, c, end) && !Carries(e.pc, c, end)
  {
    hide Forget, SlotsOf;
  }

  /** What one routine's step does to an end on its way. */
  lemma StepBrings(sh: Shared, pc: Pc, choice: Choice, e: Effect, c: CommandRef, end: RunEnd)
    requires pc.Routine? && pc.c < |sh.cmds| && StepOf(sh, pc, choice) == Some(e)
    ensures Carries(pc, c, end) ==> Carries(e.pc, c, end) || Says(e.shared, c, end)
    ensures ReturnsAs(pc, choice, c, end) ==> Carries(e.pc, c, end)
    ensures Carries(e.pc, c, end) ==> Carries(pc, c, end) || ReturnsAs(pc, choice, c, end)
    ensures e.pc.Routine? && e.pc.c == pc.c && e.spawned.None?
  {
    RoutineEnters(sh, pc, choice, e);
    hide RunStep, JudgeStep, ClearStep, Says;
    if InRun(pc.rt) {
      RunCarries(sh, pc, choice, e, end);
    } else if InJudge(pc.rt) {
      if Carries(pc, pc.c, end) {
        JudgeCarries(sh, pc, choice, e, end);
      }
      if Carries(e.pc, pc.c, end) {
        JudgeBrings(sh, pc, choice, e, end);
      }
    } else {
      ClearCarries(sh, pc, choice, e, c, end);
    }
  }

  /** What every step does to it, whichever thread makes it. */
  ghost predicate Brings(sh: Shared, pc: Pc, choice: Choice, e: Effect, c: CommandRef, end: RunEnd) {
    && (Carries(pc, c, end) ==> Carries(e.pc, c, end) || Says(e.shared, c, end))
    && (ReturnsAs(pc, choice, c, end) ==> Carries(e.pc, c, end))
    && (Carries(e.pc, c, end) ==> Carries(pc, c, end) || ReturnsAs(pc, choice, c, end))
    && (e.spawned.Some? ==> !Carries(e.spawned.value, c, end))
    && (Says(e.shared, c, end) ==> Says(sh, c, end) || Carries(pc, c, end))
    && (Says(sh, c, end) && c < |e.shared.cmds| && !Doubled(e.shared.cmds[c]) ==> Says(e.shared, c, end))
  }

  lemma SaysOnly(sh: Shared, pc: Pc, choice: Choice, e: Effect, c: CommandRef, end: RunEnd)
    requires ThreadOk(sh, pc) && CommandsPromise(sh, e.shared, pc) && StepOf(sh, pc, choice) == Some(e)
    requires c < |e.shared.cmds| && !Doubled(e.shared.cmds[c])
    ensures Says(e.shared, c, end) ==> Says(sh, c, end) || Carries(pc, c, end)
    ensures Says(sh, c, end) ==> Says(e.shared, c, end)
  {
    hide StepOf, AnswersAs, ThreadOk;
    if Says(e.shared, c, end) {
      var v := e.shared.cmds[c].verdict.value;
      StepJudges(sh, pc, choice, e, c, v);
      if AnswersAs(sh, pc, choice, c, v) {
        AnsweredEnd(sh, pc, choice, c, v, end);
      }
    }
    if Says(sh, c, end) {
      StepJudges(sh, pc, choice, e, c, sh.cmds[c].verdict.value);
    }
  }

  lemma StepBringsAny(sh: Shared, pc: Pc, choice: Choice, e: Effect, c: CommandRef, end: RunEnd)
    requires ThreadOk(sh, pc) && CommandsPromise(sh, e.shared, pc) && StepOf(sh, pc, choice) == Some(e)
    requires c < |e.shared.cmds| && !Doubled(e.shared.cmds[c])
    ensures Brings(sh, pc, choice, e, c, end)
  {
    SaysOnly(sh, pc, choice, e, c, end);
    StepEnters(sh, pc, choice, e, c);
    if pc.Routine? {
      StepBrings(sh, pc, choice, e, c, end);
    } else {
      StaysNoRoutine(sh, pc, choice, e);
    }
    hide StepOf;
  }

  lemma StaysNoRoutine(sh: Shared, pc: Pc, choice: Choice, e: Effect)
    requires !pc.Routine? && StepOf(sh, pc, choice) == Some(e)
    ensures !e.pc.Routine?
  {
    match pc
    case Idle(_) => BeginEnters(sh, choice.op, e, 0);
    case Calling(_, _) => CallEnters(sh, pc, choice, e, 0);
    case _ => OthersEnter(sh, pc, choice, e);
  }

  lemma BroughtApplied(s: State, t: ThreadId, choice: Choice, e: Effect, c: CommandRef, end: RunEnd)
    requires t < |s.threads| && Brings(s.shared, s.threads[t], choice, e, c, end)
    requires c < |e.shared.cmds| && !Doubled(e.shared.cmds[c])
    ensures Brought(Apply(s, t, e), c, end) <==>
      Brought(s, c, end) || ReturnsAs(s.threads[t], choice, c, end)
  {
    hide Carries, Says, ReturnsAs;
    var s' := Apply(s, t, e);
    assert s'.threads[t] == e.pc;
    assert forall u :: 0 <= u < |s.threads| && u != t ==> s'.threads[u] == s.threads[u];
    if Brought(s', c, end) && !Says(s'.shared, c, end) {
      var u :| 0 <= u < |s'.threads| && Carries(s'.threads[u], c, end);
      assert u < |s.threads|;
    }
    if Brought(s, c, end) && !Says(s.shared, c, end) {
      var u :| 0 <= u < |s.threads| && Carries(s.threads[u], c, end);
      assert u != t ==> Carries(s'.threads[u], c, end);
    }
  }

  lemma NextBrought(s: State, l: Label, c: CommandRef, end: RunEnd)
    requires Inv(s) && Next(s, l).Some?
    requires c < |Next(s, l).value.shared.cmds| && !Doubled(Next(s, l).value.shared.cmds[c])
    ensures Brought(Next(s, l).value, c, end) <==> Brought(s, c, end) || ReturnsRun(s, l, c, end)
  {
    hide StepOf, Inv, OutsideStep, Brings, Carries, CommandsPromise, SharedInv, ThreadOk, Promise;
    if l.Thread? {
      var e := StepOf(s.shared, s.threads[l.t], l.choice).value;
      PromiseAt(s, l.t, l.choice, e);
      CommandsPart(s.shared, e.shared, s.threads[l.t]);
      StepBringsAny(s.shared, s.threads[l.t], l.choice, e, c, end);
      BroughtApplied(s, l.t, l.choice, e, c, end);
    } else {
      OutsideCommands(s.shared, l);
    }
  }

  lemma {:induction false} RunBrought(s: State, labels: seq<Label>, c: CommandRef, end: RunEnd)
    requires Inv(s) && Run(s, labels).Some?
    requires c < |Run(s, labels).value.shared.cmds| && !Doubled(Run(s, labels).value.shared.cmds[c])
    ensures Brought(Run(s, labels).value, c, end) <==> Brought(s, c, end) || Happened(s, labels, RunReturned(c, end))
    decreases |labels|
  {
    hide Inv, Next, Brought, ReturnsRun, Follows;
    if labels != [] {
      var s' := Next(s, labels[0]).value;
      NextKept(s, labels[0]);
      RunFollows(s', labels[1..]);
      RunBrought(s', labels[1..], c, end);
      if c < |s'.shared.cmds| {
        KnownLater(s'.shared, Run(s', labels[1..]).value.shared, c);
        NextBrought(s, labels[0], c, end);
      } else {
        NextFollows(s, labels[0]);
        NotYetBrought(s, labels[0], s', c, end);
      }
    }
  }

  /** A command not made yet has no run. */
  lemma NotYetBrought(s: State, l: Label, s': State, c: CommandRef, end: RunEnd)
    requires Inv(s) && Inv(s') && Follows(s.shared, s'.shared) && c >= |s'.shared.cmds|
    ensures !Brought(s, c, end) && !Brought(s', c, end) && !ReturnsRun(s, l, c, end)
  {
    hide SharedInv, LocksAgree, CountsAgree, FreeOk;
    forall u | 0 <= u < |s.threads| ensures !(s.threads[u].Routine? && s.threads[u].c == c) {
      assert ThreadOk(s.shared, s.threads[u]);
    }
    forall u | 0 <= u < |s'.threads| ensures !Carries(s'.threads[u], c, end) {
      assert ThreadOk(s'.shared, s'.threads[u]);
    }
  }

  /** Once the channel of a command with one routine is closed, its run's end is in the record. */
  lemma ClosedSays(s: State, c: CommandRef, end: RunEnd)
    requires Inv(s) && c < |s.shared.cmds| && s.shared.cmds[c].closes > 0
    requires !Doubled(s.shared.cmds[c]) && !s.shared.cmds[c].origin.RecoveredFinished?
    ensures Brought(s, c, end) <==> Says(s.shared, c, end)
  {
    assert CommandOk(s.shared.cmds[c]);
    assert Live(s.threads, c) + s.shared.cmds[c].closes == s.shared.cmds[c].routines;
    if t :| 0 <= t < |s.threads| && Carries(s.threads[t], c, end) {
      LiveOne(s.threads, t, c);
    }
  }

  /** How a run ended decides what becomes of its command: once its channel is closed, unless
    * an AttachWait attached it again, its run ended in exactly one way, and its result is the
    * one for that end: an aborted run is a kill, a failed one an error; after a run without
    * error the answers of the runtime decide.
    */
  lemma RunDecides(s: State, labels: seq<Label>, c: CommandRef)
    requires Start(s) && Run(s, labels).Some? && c < |Run(s, labels).value.shared.cmds|
    requires var cmd := Run(s, labels).value.shared.cmds[c];
      cmd.closes > 0 && !cmd.origin.RecoveredFinished? && !Reattached(s, labels, c)
    ensures var r := Run(s, labels).value.shared.cmds[c].result;
      && (Happened(s, labels, RunReturned(c, Aborted)) ==> r == CommandResult(true, true, 1, None))
      && (Happened(s, labels, RunReturned(c, Errored)) ==> r == CommandResult(true, false, 1, Some(RunFailure)))
      && (Happened(s, labels, RunReturned(c, Completed)) <==>
            !Happened(s, labels, RunReturned(c, Aborted)) && !Happened(s, labels, RunReturned(c, Errored)))
      && !(Happened(s, labels, RunReturned(c, Aborted)) && Happened(s, labels, RunReturned(c, Errored)))
  {
    hide Start, Reattached, Happened, Inv, Brought;
    StartInv(s);
    RunKept(s, labels);
    var s' := Run(s, labels).value;
    DoubledByAttachWait(s, labels, c);
    forall end ensures Happened(s, labels, RunReturned(c, end)) <==> Says(s'.shared, c, end) {
      RunBrought(s, labels, c, end);
      NothingBrought(s, c, end);
      ClosedSays(s', c, end);
    }
    SettledVerdict(s', c);
    SharedOf(s');
    CommandIsOk(s'.shared, c);
  }

  lemma NothingBrought(s: State, c: CommandRef, end: RunEnd)
    requires Start(s)
    ensures !Brought(s, c, end)
  {
    if c < |s.shared.cmds| {
      assert Recovered(s.shared.cmds[c]);
    }
  }

  lemma SharedOf(s: State)
    requires Inv(s)
    ensures SharedInv(s.shared)
  { }

  lemma SettledVerdict(s: State, c: CommandRef)
    requires Inv(s) && c < |s.shared.cmds| && s.shared.cmds[c].closes > 0
    requires !s.shared.cmds[c].origin.RecoveredFinished?
    ensures s.shared.cmds[c].verdict.Some?
  {
    CommandIsOk(s.shared, c);
  }

  /** What the answers after a run say becomes the result, unless an AttachWait attached the
    * command again; a command that was never judged is as recovery or Execute made it.
    */
  lemma ResultTells(s: State, labels: seq<Label>, c: CommandRef)
    requires Start(s) && Run(s, labels).Some? && c < |Run(s, labels).value.shared.cmds| && !Reattached(s, labels, c)
    ensures var r := Run(s, labels).value.shared.cmds[c].result;
      && (Happened(s, labels, JudgedAs(c, RunWasAborted)) ==> r == CommandResult(true, true, 1, None))
      && (Happened(s, labels, JudgedAs(c, RunFailed)) ==> r == CommandResult(true, false, 1, Some(RunFailure)))
      && (Happened(s, labels, JudgedAs(c, CheckFailed)) ==> r == CommandResult(true, true, 1, Some(CheckFailure)))
      && (Happened(s, labels, JudgedAs(c, ContainerGone)) ==> r == CommandResult(true, true, 1, None))
      && (Happened(s, labels, JudgedAs(c, StateUnreadable)) ==>
            r == CommandResult(true, false, 1, Some(InspectFailure)))
      && (forall code :: Happened(s, labels, JudgedAs(c, Ended(code))) ==> r == CommandResult(true, false, code, None))
      && (Happened(s, labels, JudgedAs(c, NotEnded)) ==> r == CommandResult(false, false, 0, None))
      && (Run(s, labels).value.shared.cmds[c].origin.RecoveredFinished?
            || (exists v :: Happened(s, labels, JudgedAs(c, v)))
            || r == CommandResult(false, false, 0, None))
  {
    hide Start, Reattached, Happened, Inv, Run;
    StartInv(s);
    RunKept(s, labels);
    var sh := Run(s, labels).value.shared;
    DoubledByAttachWait(s, labels, c);
    forall v ensures Happened(s, labels, JudgedAs(c, v)) <==> sh.cmds[c].verdict == Some(v) {
      StartRecords(s, labels, JudgedAs(c, v));
    }
    SharedOf(Run(s, labels).value);
    CommandIsOk(sh, c);
  }

  /** An aborted run ends cleanly: its context had ended, and once the command's
    * channel is closed the command is finished, killed, with code 1 and no error.
    * If no runtime call of its clearing failed, its slot is free and its container is
    * gone, unless a Destroy's call about it failed.
    */
  lemma AbortedRunEndsClean(s: State, before: seq<Label>, after: seq<Label>, t: ThreadId)
    requires Start(s) && Run(s, before).Some? && Run(Run(s, before).value, after).Some?
    requires var s1 := Run(s, before).value;
      t < |s1.threads| && s1.threads[t].Routine? && s1.threads[t].rt == RtLock(Aborted)
    requires var c, sh := Run(s, before).value.threads[t].c, Run(Run(s, before).value, after).value.shared;
      c < |sh.cmds| ==> sh.cmds[c].closes > 0 && !Reattached(s, before + after, c)
    ensures var s1 := Run(s, before).value;
      var c, sh := s1.threads[t].c, Run(s1, after).value.shared;
      && c < |sh.cmds|
      && ContextEnded(sh.cmds[c], sh.ended) && s1.threads[t].context in s1.shared.ended
      && sh.cmds[c].result == CommandResult(true, true, 1, None)
      && (!Happened(s, before + after, FailedClearing(c)) ==>
            && SlotsOf(sh, sh.cmds[c].support).current != Some(c)
            && (sh.cmds[c].container in sh.world.containers ==>
                  Happened(s, before + after, FailedDestroy(sh.cmds[c].container))))
  {
    hide Start, Reattached, Inv, Follows, ContextEnded, Brought, Happened;
    StartInv(s);
    RunKept(s, before);
    var s1 := Run(s, before).value;
    var c := s1.threads[t].c;
    AbortCarried(s1, t);
    RunFollows(s1, after);
    KnownLater(s1.shared, Run(s1, after).value.shared, c);
    ReattachedOver(s, before, after, c);
    RunSplit(s, before, after);
    hide Run;
    RunBrought(s1, after, c, Aborted);
    ClosedAbort(Run(s1, after).value, c);
    StartRecords(s, before + after, FailedClearing(c));
    StartRecords(s, before + after, FailedDestroy(Run(s1, after).value.shared.cmds[c].container));
  }

  lemma AbortCarried(s: State, t: ThreadId)
    requires Inv(s) && t < |s.threads| && s.threads[t].Routine? && s.threads[t].rt == RtLock(Aborted)
    ensures var c := s.threads[t].c;
      && c < |s.shared.cmds| && !s.shared.cmds[c].origin.RecoveredFinished?
      && s.threads[t].context in s.shared.ended && Brought(s, c, Aborted)
  {
    hide SharedInv, LocksAgree, CountsAgree, FreeOk;
    assert ThreadOk(s.shared, s.threads[t]) && Carries(s.threads[t], s.threads[t].c, Aborted);
  }

  lemma ClosedAbort(s: State, c: CommandRef)
    requires Inv(s) && Brought(s, c, Aborted) && c < |s.shared.cmds|
    requires s.shared.cmds[c].closes > 0 && !Doubled(s.shared.cmds[c]) && !s.shared.cmds[c].origin.RecoveredFinished?
    ensures ContextEnded(s.shared.cmds[c], s.shared.ended)
    ensures s.shared.cmds[c].result == CommandResult(true, true, 1, None)
    ensures !s.shared.cmds[c].clearFailed ==>
      && SlotsOf(s.shared, s.shared.cmds[c].support).current != Some(c)
      && Given(s.shared.cmds[c].container, s.shared.world.containers, s.shared.lost)
  {
    var sh := s.shared;
    var cmd := sh.cmds[c];
    assert CommandOk(cmd) && AttributedOne(cmd, sh.world.containers, sh.outside, sh.ended);
    ClosedSays(s, c, Aborted);
    assert InSlots(SlotsFor(sh.payload, sh.support, cmd.support), c)
      || Given(cmd.container, sh.world.containers, sh.lost);
  }

  /** A run that returned no error while the container was already gone ends as killed,
    * for good, unless an AttachWait attached the command again.
    */
  lemma MissingContainerIsKilled(s: State, before: seq<Label>, after: seq<Label>, t: ThreadId)
    requires Start(s) && Run(s, before).Some?
    requires var s1 := Run(s, before).value;
      && t < |s1.threads| && s1.threads[t].Routine? && s1.threads[t].rt == RtCheck(Completed)
      && (s1.threads[t].c < |s1.shared.cmds| ==>
           s1.shared.cmds[s1.threads[t].c].container !in s1.shared.world.containers)
      && Next(s1, Thread(t, CallWorks)).Some?
      && Run(Next(s1, Thread(t, CallWorks)).value, after).Some?
    ensures var s1 := Run(s, before).value;
      var c, sh := s1.threads[t].c, Run(Next(s1, Thread(t, CallWorks)).value, after).value.shared;
      && c < |sh.cmds|
      && (!Reattached(s, before + ([Thread(t, CallWorks)] + after), c) ==>
            sh.cmds[c].result == CommandResult(true, true, 1, None))
  {
    hide SharedInv, LocksAgree, CountsAgree, StepOf, MayCreate, Reattached;
    StartInv(s);
    RunKept(s, before);
    var s1 := Run(s, before).value;
    var s2 := Next(s1, Thread(t, CallWorks)).value;
    var c := s1.threads[t].c;
    assert ThreadOk(s1.shared, s1.threads[t]);
    NextFollows(s1, Thread(t, CallWorks));
    GoneVerdict(s1.shared, s1.threads[t], StepOf(s1.shared, s1.threads[t], CallWorks).value);
    RunFollows(s2, after);
    var last := Run(s2, after).value.shared;
    assert ([Thread(t, CallWorks)] + after)[1..] == after;
    ReattachedOver(s, before, [Thread(t, CallWorks)] + after, c);
    if !Doubled(last.cmds[c]) {
      ResultStays(s2, after, c);
      CommandIsOk(last, c);
    }
  }

  lemma GoneVerdict(sh: Shared, pc: Pc, e: Effect)
    requires pc.Routine? && pc.c < |sh.cmds| && pc.rt == RtCheck(Completed)
    requires sh.cmds[pc.c].container !in sh.world.containers && StepOf(sh, pc, CallWorks) == Some(e)
    ensures |e.shared.cmds| == |sh.cmds| && e.shared.cmds[pc.c].verdict == Some(ContainerGone)
  { }
}

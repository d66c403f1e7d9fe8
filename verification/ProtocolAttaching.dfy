/** When a command is attached twice, told by the calls of the run: AttachWait
  * found a command that Execute had made unfinished, and went on to its once.
  */
module ProtocolAttaching {
  import opened Wrappers
  import opened Protocol
  import opened ProtocolInvariant
  import opened ProtocolRuns
  import opened ProtocolEvents

  /** AttachWait is called on `c` in the run while it is unfinished, Execute having made it. */
  ghost predicate CalledUnfinished(s: State, labels: seq<Label>, c: CommandRef) {
    Happened(s, labels, CallOnUnfinished(c))
  }

  /** The check of an AttachWait reads it unfinished. */
  ghost predicate SeenUnfinished(s: State, labels: seq<Label>, c: CommandRef) {
    Happened(s, labels, CheckReadsUnfinished(c))
  }

  /** An AttachWait attaches it again. */
  ghost predicate Reattached(s: State, labels: seq<Label>, c: CommandRef) {
    Happened(s, labels, SecondAttach(c))
  }

  // --- attached twice exactly when such a step happened

  /** The command was attached twice, by the record the model keeps. */
  predicate DoubledIn(sh: Shared, c: CommandRef) {
    c < |sh.cmds| && Doubled(sh.cmds[c])
  }

  lemma StepDoubles(sh: Shared, pc: Pc, choice: Choice, e: Effect, c: CommandRef)
    requires CommandsPromise(sh, e.shared, pc) && StepOf(sh, pc, choice) == Some(e)
    ensures DoubledIn(e.shared, c) <==>
      DoubledIn(sh, c) || (AtOnce(pc, c) && c < |sh.cmds| && sh.cmds[c].origin.Executed?)
  {
    hide ExecuteStep, PrepareStep, DestroyStep, GetStep, CallStep, RunStep, JudgeStep, ClearStep, BeginStep;
    if c < |sh.cmds| {
      assert Evolves(sh.cmds[c], e.shared.cmds[c]) && Permitted(sh.cmds[c], e.shared.cmds[c], pc, c);
      if AtOnce(pc, c) {
        OnceSpent(sh, pc, choice, e);
      }
    }
  }

  lemma NextDoubles(s: State, l: Label, c: CommandRef)
    requires Inv(s) && Next(s, l).Some?
    ensures DoubledIn(Next(s, l).value.shared, c) <==> DoubledIn(s.shared, c) || Reattaches(s, l, c)
  {
    hide StepOf, SharedInv, LocksAgree, CountsAgree, DoubledIn, AtOnce, Promise;
    if l.Thread? {
      var e := StepOf(s.shared, s.threads[l.t], l.choice).value;
      PromiseOf(s, l.t, l.choice, e);
      StepDoubles(s.shared, s.threads[l.t], l.choice, e, c);
    } else {
      OutsideCommands(s.shared, l);
      SameDoubled(s.shared, OutsideStep(s.shared, l).value, c);
    }
  }

  lemma SameDoubled(sh: Shared, sh': Shared, c: CommandRef)
    requires sh'.cmds == sh.cmds
    ensures DoubledIn(sh', c) == DoubledIn(sh, c)
  { }

  lemma OutsideCommands(sh: Shared, l: Label)
    requires !l.Thread? && OutsideStep(sh, l).Some?
    ensures OutsideStep(sh, l).value.cmds == sh.cmds
  { }

  lemma PromiseOf(s: State, t: ThreadId, choice: Choice, e: Effect)
    requires Inv(s) && t < |s.threads| && StepOf(s.shared, s.threads[t], choice) == Some(e)
    requires e.lock.Take? ==> e.lock.lock !in s.owner
    ensures CommandsPromise(s.shared, e.shared, s.threads[t])
  {
    hide StepOf, SharedInv, LocksAgree, CountsAgree, CommandsPromise, ThreadOk, FreeOk;
    StepGood(s.shared, s.threads[t], choice, e);
  }

  /** The record says attached twice exactly when it said so before or a step of the run attached it again. */
  lemma {:induction false} RunDoubles(s: State, labels: seq<Label>, c: CommandRef)
    requires Inv(s) && Run(s, labels).Some?
    ensures DoubledIn(Run(s, labels).value.shared, c) <==> DoubledIn(s.shared, c) || Reattached(s, labels, c)
    decreases |labels|
  {
    hide Inv, Next, DoubledIn, Reattaches;
    if labels != [] {
      NextKept(s, labels[0]);
      NextDoubles(s, labels[0], c);
      RunDoubles(Next(s, labels[0]).value, labels[1..], c);
    }
  }

  /** From a freshly built executor: attached twice if and only if an AttachWait attached the command again. */
  lemma DoubledByAttachWait(s: State, labels: seq<Label>, c: CommandRef)
    requires Start(s) && Run(s, labels).Some?
    ensures DoubledIn(Run(s, labels).value.shared, c) <==> Reattached(s, labels, c)
  {
    StartInv(s);
    RunDoubles(s, labels, c);
    hide Inv, Run, Reattached;
    if c < |s.shared.cmds| {
      assert Recovered(s.shared.cmds[c]);
    }
  }

  // --- every such AttachWait had read the command unfinished

  ghost predicate Underway(s: State, c: CommandRef) {
    exists t :: 0 <= t < |s.threads| && AtOnce(s.threads[t], c)
  }

  /** Attached twice, or about to be. */
  ghost predicate Committed(s: State, c: CommandRef) {
    c < |s.shared.cmds| && s.shared.cmds[c].origin.Executed? && (s.shared.cmds[c].once || Underway(s, c))
  }

  lemma EntersOnce(sh: Shared, pc: Pc, choice: Choice, e: Effect, c: CommandRef)
    requires pc.Calling? && pc.c < |sh.cmds| && CallStep(sh, pc.c, pc.cl, choice) == Some(e)
    requires CommandOk(sh.cmds[pc.c])
    ensures AtOnce(e.pc, c) <==> InCheck(pc, c) && pc.cl.ClCheckRead? && !sh.cmds[c].result.finished
    ensures InCheck(e.pc, c) ==> InCheck(pc, c) && pc.cl.ClCheckLock?
    ensures InCheck(pc, c) && pc.cl.ClCheckRead? ==> e.shared == sh
  { }

  lemma BeginsCheck(sh: Shared, op: Operation, e: Effect, c: CommandRef)
    requires BeginStep(sh, op) == Some(e)
    ensures !AtOnce(e.pc, c) && e.shared.cmds == sh.cmds
    ensures InCheck(e.pc, c) ==> op.AttachWait? && op.c == c && c < |sh.cmds|
  { }

  lemma OthersStayOut(sh: Shared, pc: Pc, choice: Choice, e: Effect, c: CommandRef)
    requires !pc.Idle? && !pc.Calling? && StepOf(sh, pc, choice) == Some(e)
    ensures !AtOnce(e.pc, c) && !InCheck(e.pc, c)
  {
    hide MayCreate, WithCommand, WithoutContainer, WithSlots, JudgeEnd, JudgeState, Forget, Push;
  }

  lemma SpawnsRoutine(sh: Shared, pc: Pc, choice: Choice, e: Effect)
    requires StepOf(sh, pc, choice) == Some(e) && e.spawned.Some?
    ensures e.spawned.value.Routine?
  {
    hide MayCreate, WithCommand, WithoutContainer, WithSlots, JudgeEnd, JudgeState, Forget, Push;
  }

  predicate BeginsOn(sh: Shared, pc: Pc, choice: Choice, c: CommandRef) {
    pc.Idle? && choice.Begin? && choice.op.AttachWait? && choice.op.c == c && c < |sh.cmds|
  }

  /** How one thread's step gets to the once of an AttachWait, or to its check. */
  ghost predicate Approaches(sh: Shared, pc: Pc, choice: Choice, e: Effect, c: CommandRef) {
    && (e.spawned.Some? ==> e.spawned.value.Routine?)
    && (AtOnce(e.pc, c) ==> InCheck(pc, c) && pc.cl.ClCheckRead? && c < |sh.cmds| && !sh.cmds[c].result.finished)
    && (InCheck(pc, c) && pc.cl.ClCheckRead? && c < |sh.cmds| && !sh.cmds[c].result.finished ==> AtOnce(e.pc, c))
    && (InCheck(e.pc, c) && !InCheck(pc, c) ==> BeginsOn(sh, pc, choice, c) && e.shared.cmds == sh.cmds)
    && (AtOnce(pc, c) ==> c < |e.shared.cmds| && e.shared.cmds[c].once)
  }

  lemma StepApproaches(sh: Shared, pc: Pc, choice: Choice, e: Effect, c: CommandRef)
    requires ThreadOk(sh, pc) && CommandsOk(sh.cmds) && StepOf(sh, pc, choice) == Some(e)
    ensures Approaches(sh, pc, choice, e, c)
  {
    if e.spawned.Some? {
      SpawnsRoutine(sh, pc, choice, e);
    }
    if pc.Calling? {
      EntersOnce(sh, pc, choice, e, c);
      if AtOnce(pc, c) {
        OnceSpent(sh, pc, choice, e);
      }
    } else if pc.Idle? {
      BeginsCheck(sh, choice.op, e, c);
    } else {
      OthersStayOut(sh, pc, choice, e, c);
    }
    hide StepOf, CallStep, BeginStep;
  }

  /** What all lemmas below need of the thread that steps. */
  lemma ApproachOf(s: State, t: ThreadId, choice: Choice, e: Effect, c: CommandRef)
    requires Inv(s) && t < |s.threads| && StepOf(s.shared, s.threads[t], choice) == Some(e)
    ensures Approaches(s.shared, s.threads[t], choice, e, c)
  {
    hide StepOf, LocksAgree, CountsAgree, Approaches, ThreadOk, FreeOk;
    assert ThreadOk(s.shared, s.threads[t]) && CommandsOk(s.shared.cmds);
    StepApproaches(s.shared, s.threads[t], choice, e, c);
  }

  lemma OnceKnown(s: State, t: ThreadId, c: CommandRef)
    requires Inv(s) && t < |s.threads| && (AtOnce(s.threads[t], c) || InCheck(s.threads[t], c))
    ensures c < |s.shared.cmds|
  {
    hide SharedInv, LocksAgree, CountsAgree, FreeOk;
    assert ThreadOk(s.shared, s.threads[t]);
  }

  lemma CommitsOnward(s: State, t: ThreadId, choice: Choice, e: Effect, c: CommandRef)
    requires Inv(s) && t < |s.threads| && Approaches(s.shared, s.threads[t], choice, e, c)
    requires CommandsPromise(s.shared, e.shared, s.threads[t])
    requires Committed(s, c) || ReadsUnfinished(s, Thread(t, choice), c)
    ensures Committed(Apply(s, t, e), c)
  {
    hide Inv, AtOnce, InCheck, Permitted;
    var s' := Apply(s, t, e);
    assert Evolves(s.shared.cmds[c], e.shared.cmds[c]);
    assert s'.threads[t] == e.pc;
    if Underway(s, c) {
      var u :| 0 <= u < |s.threads| && AtOnce(s.threads[u], c);
      assert u != t ==> s'.threads[u] == s.threads[u];
    }
  }

  lemma CommitsBackward(s: State, t: ThreadId, choice: Choice, e: Effect, c: CommandRef)
    requires Inv(s) && t < |s.threads| && Approaches(s.shared, s.threads[t], choice, e, c)
    requires CommandsPromise(s.shared, e.shared, s.threads[t])
    requires Committed(Apply(s, t, e), c)
    ensures Committed(s, c) || ReadsUnfinished(s, Thread(t, choice), c)
  {
    hide Inv, InCheck;
    var s' := Apply(s, t, e);
    if Underway(s', c) {
      var u :| 0 <= u < |s'.threads| && AtOnce(s'.threads[u], c);
      assert u < |s.threads|;
      if u != t {
        OnceKnown(s, u, c);
      }
    }
    if c < |s.shared.cmds| {
      assert Evolves(s.shared.cmds[c], e.shared.cmds[c])
        && Permitted(s.shared.cmds[c], e.shared.cmds[c], s.threads[t], c);
    }
  }

  lemma NextCommits(s: State, l: Label, c: CommandRef)
    requires Inv(s) && Next(s, l).Some?
    ensures Committed(Next(s, l).value, c) <==> Committed(s, c) || ReadsUnfinished(s, l, c)
  {
    hide StepOf, Inv, CommandsPromise, Approaches, Committed, ReadsUnfinished;
    if l.Thread? {
      var e := StepOf(s.shared, s.threads[l.t], l.choice).value;
      PromiseOf(s, l.t, l.choice, e);
      ApproachOf(s, l.t, l.choice, e, c);
      if Committed(s, c) || ReadsUnfinished(s, l, c) {
        CommitsOnward(s, l.t, l.choice, e, c);
      }
      if Committed(Apply(s, l.t, e), c) {
        CommitsBackward(s, l.t, l.choice, e, c);
      }
    } else {
      OutsideCommands(s.shared, l);
      SameCommitted(s, l, c);
    }
  }

  lemma SameCommitted(s: State, l: Label, c: CommandRef)
    requires !l.Thread? && OutsideStep(s.shared, l).Some? && OutsideStep(s.shared, l).value.cmds == s.shared.cmds
    ensures Committed(s.(shared := OutsideStep(s.shared, l).value), c) == Committed(s, c)
    ensures !ReadsUnfinished(s, l, c)
  {
    hide OutsideStep;
    assert Underway(s.(shared := OutsideStep(s.shared, l).value), c) == Underway(s, c);
  }

  lemma {:induction false} RunCommits(s: State, labels: seq<Label>, c: CommandRef)
    requires Inv(s) && Run(s, labels).Some?
    ensures Committed(Run(s, labels).value, c) <==> Committed(s, c) || SeenUnfinished(s, labels, c)
    decreases |labels|
  {
    hide Inv, Next, Committed, ReadsUnfinished;
    if labels != [] {
      NextKept(s, labels[0]);
      NextCommits(s, labels[0], c);
      RunCommits(Next(s, labels[0]).value, labels[1..], c);
    }
  }

  // --- and was called while the command was unfinished

  /** An AttachWait of the unfinished command has begun. */
  ghost predicate Approached(s: State, c: CommandRef) {
    || Committed(s, c)
    || (Unfinished(s.shared, c) && exists t :: 0 <= t < |s.threads| && InCheck(s.threads[t], c))
  }

  lemma CallsBackward(s: State, t: ThreadId, choice: Choice, e: Effect, c: CommandRef)
    requires Inv(s) && t < |s.threads| && Approaches(s.shared, s.threads[t], choice, e, c)
    requires CommandsPromise(s.shared, e.shared, s.threads[t])
    requires Unfinished(e.shared, c)
    requires exists u :: 0 <= u < |Apply(s, t, e).threads| && InCheck(Apply(s, t, e).threads[u], c)
    ensures Approached(s, c) || CallsUnfinished(s, Thread(t, choice), c)
  {
    hide Inv, AtOnce, Committed;
    var s' := Apply(s, t, e);
    var u :| 0 <= u < |s'.threads| && InCheck(s'.threads[u], c);
    assert u < |s.threads|;
    if u != t || InCheck(s.threads[t], c) {
      OnceKnown(s, u, c);
      assert Evolves(s.shared.cmds[c], e.shared.cmds[c]);
      assert InCheck(s.threads[u], c);
    }
  }

  lemma NextCalls(s: State, l: Label, c: CommandRef)
    requires Inv(s) && Next(s, l).Some? && Approached(Next(s, l).value, c)
    ensures Approached(s, c) || CallsUnfinished(s, l, c)
  {
    hide StepOf, Inv, CommandsPromise, Approaches, Committed, CallsUnfinished, InCheck, Unfinished;
    NextCommits(s, l, c);
    if Committed(Next(s, l).value, c) {
      ReadingIsApproached(s, l, c);
    } else if l.Thread? {
      var e := StepOf(s.shared, s.threads[l.t], l.choice).value;
      PromiseOf(s, l.t, l.choice, e);
      ApproachOf(s, l.t, l.choice, e, c);
      CallsBackward(s, l.t, l.choice, e, c);
    } else {
      OutsideCommands(s.shared, l);
      SameUnfinished(s.shared, OutsideStep(s.shared, l).value, c);
    }
  }

  lemma SameUnfinished(sh: Shared, sh': Shared, c: CommandRef)
    requires sh'.cmds == sh.cmds
    ensures Unfinished(sh', c) == Unfinished(sh, c)
  { }

  lemma ReadingIsApproached(s: State, l: Label, c: CommandRef)
    ensures ReadsUnfinished(s, l, c) ==> Approached(s, c)
  { }

  lemma {:induction false} RunCalls(s: State, labels: seq<Label>, c: CommandRef)
    requires Inv(s) && Run(s, labels).Some? && Approached(Run(s, labels).value, c)
    ensures Approached(s, c) || CalledUnfinished(s, labels, c)
    decreases |labels|
  {
    hide Inv, Next, Approached, CallsUnfinished;
    if labels != [] {
      NextKept(s, labels[0]);
      RunCalls(Next(s, labels[0]).value, labels[1..], c);
      if Approached(Next(s, labels[0]).value, c) {
        NextCalls(s, labels[0], c);
      }
    }
  }

  /** The command Execute made is attached again, or an AttachWait is about to do it,
    * if and only if some AttachWait's check read it unfinished; and then AttachWait was
    * called on it while it was unfinished.
    */
  lemma ReattachedWhenSeenUnfinished(s: State, labels: seq<Label>, c: CommandRef)
    requires Start(s) && Run(s, labels).Some?
    requires c < |Run(s, labels).value.shared.cmds| && Run(s, labels).value.shared.cmds[c].origin.Executed?
    ensures Reattached(s, labels, c) || Underway(Run(s, labels).value, c) <==> SeenUnfinished(s, labels, c)
    ensures SeenUnfinished(s, labels, c) ==> CalledUnfinished(s, labels, c)
  {
    StartInv(s);
    NothingBegun(s, c);
    DoubledByAttachWait(s, labels, c);
    RunCommits(s, labels, c);
    hide Start, Inv, Run, SeenUnfinished, CalledUnfinished, Reattached;
    if SeenUnfinished(s, labels, c) {
      RunCalls(s, labels, c);
    }
  }

  lemma NothingBegun(s: State, c: CommandRef)
    requires Start(s)
    ensures !Approached(s, c)
  {
    if c < |s.shared.cmds| {
      assert Recovered(s.shared.cmds[c]);
    }
  }

  /** Without a call of AttachWait on a command that Execute made and that is unfinished, none is attached twice. */
  lemma NeverReattached(s: State, labels: seq<Label>, c: CommandRef)
    requires Start(s) && Run(s, labels).Some? && !CalledUnfinished(s, labels, c)
    ensures !Reattached(s, labels, c)
  {
    DoubledByAttachWait(s, labels, c);
    if DoubledIn(Run(s, labels).value.shared, c) {
      ReattachedWhenSeenUnfinished(s, labels, c);
    }
  }
}

/** The invariant holds in every state of every run. */
module ProtocolRuns {
  import opened Wrappers
  import opened Containers
  import opened Protocol
  import opened ProtocolInvariant
  import opened Interference
  import opened StepProofs

  lemma StepGood(sh: Shared, pc: Pc, choice: Choice, e: Effect)
    requires SharedInv(sh) && Ready(sh, pc, e) && StepOf(sh, pc, choice) == Some(e)
    ensures GoodStep(sh, pc, e)
  {
    match pc
    case Idle(_) => BeginGood(sh, pc, choice.op, e);
    case Executing(_, _, _) => ExecuteGood(sh, pc, choice, e);
    case Preparing => PrepareGood(sh, pc, choice, e);
    case Destroying(_, _, _) => DestroyGood(sh, pc, choice, e);
    case Getting(_, _) => GetGood(sh, pc, e);
    case Calling(_, _) => CallGood(sh, pc, choice, e);
    case Routine(_, _, _, rt) =>
      if InRun(rt) {
        RunGood(sh, pc, choice, e);
      } else if InJudge(rt) {
        JudgeGood(sh, pc, choice, e);
      } else {
        ClearGood(sh, pc, choice, e);
      }
  }

  /** The other threads keep what they rely on. */
  lemma OthersStable(s: State, t: ThreadId, e: Effect, u: ThreadId)
    requires Inv(s) && t < |s.threads| && GoodStep(s.shared, s.threads[t], e)
    requires u < |s.threads| && u != t
    ensures ThreadOk(e.shared, s.threads[u])
  {
    HoldersDiffer(s.owner, s.threads, u, t);
    forall c | 0 <= c < |s.shared.cmds| && IsLive(s.threads[u], c) && IsLive(s.threads[t], c)
      ensures Doubled(s.shared.cmds[c])
    {
      SoleRoutine(s, t, u, c);
    }
    Stable(s.shared, e.shared, s.threads[u], s.threads[t]);
  }

  /** What an unheld mutex protects is untouched by a thread that does not hold it. */
  lemma FreeStable(sh: Shared, sh': Shared, pc: Pc, lock: LockId)
    requires Promise(sh, sh', pc) && FreeOk(sh, lock) && !Holds(pc, lock)
    ensures FreeOk(sh', lock)
  {
    if lock.CommandLock? && lock.c < |sh.cmds| {
      assert Permitted(sh.cmds[lock.c], sh'.cmds[lock.c], pc, lock.c);
    }
  }

  lemma FreeKept(s: State, t: ThreadId, e: Effect, lock: LockId)
    requires Inv(s) && t < |s.threads| && GoodStep(s.shared, s.threads[t], e)
    requires lock !in Apply(s, t, e).owner
    ensures FreeOk(e.shared, lock)
  {
    if lock !in s.owner {
      FreeStable(s.shared, e.shared, s.threads[t], lock);
    }
  }

  lemma RoutinesKnown(s: State)
    requires Inv(s)
    ensures forall u :: 0 <= u < |s.threads| && s.threads[u].Routine? ==> s.threads[u].c < |s.shared.cmds|
  {
    hide SharedInv;
    forall u | 0 <= u < |s.threads| && s.threads[u].Routine? ensures s.threads[u].c < |s.shared.cmds| {
      assert ThreadOk(s.shared, s.threads[u]);
    }
  }

  lemma ThreadStepKept(s: State, t: ThreadId, choice: Choice, e: Effect)
    requires Inv(s) && t < |s.threads| && StepOf(s.shared, s.threads[t], choice) == Some(e)
    requires e.lock.Take? ==> e.lock.lock !in s.owner
    ensures Inv(Apply(s, t, e))
  {
    hide SharedInv, ThreadOk, FreeOk, StepOf, LocksAgree, CountsAgree, Promise, CommandsPromise;
    var s' := Apply(s, t, e);
    StepGood(s.shared, s.threads[t], choice, e);
    LocksKept(s, t, e);
    RoutinesKnown(s);
    CountsKept(s, t, e);
    forall u | 0 <= u < |s'.threads| ensures ThreadOk(s'.shared, s'.threads[u]) {
      if u < |s.threads| && u != t {
        OthersStable(s, t, e, u);
      }
    }
    forall lock | lock !in s'.owner ensures FreeOk(s'.shared, lock) {
      FreeKept(s, t, e, lock);
    }
  }

  // --- steps of the environment

  lemma OutsideKept(s: State, l: Label)
    requires Inv(s) && !l.Thread? && OutsideStep(s.shared, l).Some?
    ensures Inv(s.(shared := OutsideStep(s.shared, l).value))
  {
    var sh' := OutsideStep(s.shared, l).value;
    OutsideShared(s.shared, l);
    QuietPromise(s.shared, sh', Preparing);
    forall u | 0 <= u < |s.threads| ensures ThreadOk(sh', s.threads[u]) {
      Stable(s.shared, sh', s.threads[u], Preparing);
    }
    forall lock | lock !in s.owner ensures FreeOk(sh', lock) {
      FreeStable(s.shared, sh', Preparing, lock);
    }
  }

  lemma OutsideShared(sh: Shared, l: Label)
    requires SharedInv(sh) && !l.Thread? && OutsideStep(sh, l).Some?
    ensures SharedInv(OutsideStep(sh, l).value)
  {
    match l
    case EndContext(x) => EndKeeps(sh.cmds, sh.world.containers, sh.outside, sh.ended, x);
    case ChangeStatus(id, status, exitCode) =>
      var k := sh.world.containers[id].(status := status, exitCode := exitCode);
      RelabelKeeps(sh, id, k);
    case RemoveOutside(id) =>
      OutsideKeeps(sh, id);
      RemoveKeeps(sh.(outside := sh.outside + {id}), id);
  }

  lemma EndKeeps(cmds: seq<Command>, containers: map<ContainerId, Container>, outside: set<ContainerId>,
      ended: set<ContextId>, x: ContextId)
    requires Attributed(cmds, containers, outside, ended)
    ensures Attributed(cmds, containers, outside, ended + {x})
  {
    forall c | 0 <= c < |cmds| ensures AttributedOne(cmds[c], containers, outside, ended + {x}) {
      assert AttributedOne(cmds[c], containers, outside, ended);
      if cmds[c].verdict == Some(RunWasAborted) {
        var y :| y in cmds[c].contexts && y in ended;
        assert y in ended + {x};
      }
    }
  }

  lemma RelabelKeeps(sh: Shared, id: ContainerId, k: Container)
    requires SharedInv(sh) && id in sh.world.containers
    ensures SharedInv(sh.(world := sh.world.(containers := sh.world.containers[id := k])))
  { }

  lemma OutsideKeeps(sh: Shared, id: ContainerId)
    requires SharedInv(sh)
    ensures SharedInv(sh.(outside := sh.outside + {id}))
  { }

  // --- runs

  lemma NextKept(s: State, l: Label)
    requires Inv(s) && Next(s, l).Some?
    ensures Inv(Next(s, l).value)
  {
    if l.Thread? {
      ThreadStepKept(s, l.t, l.choice, StepOf(s.shared, s.threads[l.t], l.choice).value);
    } else {
      OutsideKept(s, l);
    }
  }

  lemma StartShared(s: State)
    requires Start(s)
    ensures SharedInv(s.shared)
  {
    var sh := s.shared;
    forall c | 0 <= c < |sh.cmds|
      ensures CommandOk(sh.cmds[c]) && InSlots(SlotsFor(sh.payload, sh.support, sh.cmds[c].support), c)
        && AttributedOne(sh.cmds[c], sh.world.containers, sh.outside, sh.ended)
    {
      assert Recovered(sh.cmds[c]);
    }
    StartLeave(s);
  }

  lemma StartLeave(s: State)
    requires Start(s)
    ensures FinishedLeave(s.shared.cmds, s.shared.payload, s.shared.support)
    ensures ClosedLeave(s.shared.cmds, s.shared.payload, s.shared.support)
  {
    var sh := s.shared;
    forall c | 0 <= c < |sh.cmds| && IsCurrent(sh.cmds[c], c, sh.payload, sh.support)
      ensures !sh.cmds[c].result.finished && sh.cmds[c].closes == 0
    {
      assert Recovered(sh.cmds[c]);
    }
  }

  lemma StartInv(s: State)
    requires Start(s)
    ensures Inv(s)
  {
    StartShared(s);
    forall c | 0 <= c < |s.shared.cmds|
      ensures Live(s.threads, c) == 0 && Recovered(s.shared.cmds[c])
    {
      LiveNone(s.threads, c);
    }
    assert LocksAgree(s.owner, s.threads);
    forall l ensures FreeOk(s.shared, l) {
      if l.CommandLock? && l.c < |s.shared.cmds| {
        assert Recovered(s.shared.cmds[l.c]);
      }
    }
  }

  /** Every state of every run from a freshly built executor satisfies the invariant. */
  lemma {:induction false} RunKept(s: State, labels: seq<Label>)
    requires Inv(s) && Run(s, labels).Some?
    ensures Inv(Run(s, labels).value)
    decreases |labels|
  {
    if labels != [] {
      NextKept(s, labels[0]);
      RunKept(Next(s, labels[0]).value, labels[1..]);
    }
  }

  // --- from one step to a run

  /** What every step promises, whoever makes it. */
  ghost predicate Follows(sh: Shared, sh': Shared) {
    && |sh.cmds| <= |sh'.cmds|
    && (forall c :: 0 <= c < |sh.cmds| ==> Evolves(sh.cmds[c], sh'.cmds[c]))
    && (forall c :: |sh.cmds| <= c < |sh'.cmds| ==> sh'.cmds[c].origin.Executed?)
    && sh.cfg == sh'.cfg
    && (forall c :: 0 <= c < |sh.cmds| && IsCurrent(sh'.cmds[c], c, sh'.payload, sh'.support) ==>
          IsCurrent(sh.cmds[c], c, sh.payload, sh.support))
  }

  lemma StepFollows(sh: Shared, sh': Shared, pc: Pc)
    requires Promise(sh, sh', pc)
    ensures Follows(sh, sh')
  { }

  lemma OutsideFollows(sh: Shared, l: Label)
    requires !l.Thread? && OutsideStep(sh, l).Some?
    ensures Follows(sh, OutsideStep(sh, l).value)
  { }

  lemma NextFollows(s: State, l: Label)
    requires Inv(s) && Next(s, l).Some?
    ensures Inv(Next(s, l).value) && Follows(s.shared, Next(s, l).value.shared)
  {
    hide SharedInv, ThreadOk, FreeOk, LocksAgree, CountsAgree, StepOf, OutsideStep, Promise, Follows;
    NextKept(s, l);
    if l.Thread? {
      var e := StepOf(s.shared, s.threads[l.t], l.choice).value;
      StepGood(s.shared, s.threads[l.t], l.choice, e);
      StepFollows(s.shared, e.shared, s.threads[l.t]);
    } else {
      OutsideFollows(s.shared, l);
    }
  }

  lemma {:induction false} RunFollows(s: State, labels: seq<Label>)
    requires Inv(s) && Run(s, labels).Some?
    ensures Inv(Run(s, labels).value) && Follows(s.shared, Run(s, labels).value.shared)
    decreases |labels|
  {
    if labels != [] {
      NextFollows(s, labels[0]);
      RunFollows(Next(s, labels[0]).value, labels[1..]);
      FollowsTransitive(s.shared, Next(s, labels[0]).value.shared, Run(s, labels).value.shared);
    }
  }

  lemma FollowsTransitive(a: Shared, b: Shared, c: Shared)
    requires Follows(a, b) && Follows(b, c)
    ensures Follows(a, c)
  { }

  lemma {:induction false} RunSplit(s: State, before: seq<Label>, after: seq<Label>)
    requires Run(s, before).Some?
    ensures Run(s, before + after) == Run(Run(s, before).value, after)
    decreases |before|
  {
    if before == [] {
      assert before + after == after;
    } else {
      assert (before + after)[1..] == before[1..] + after;
      RunSplit(Next(s, before[0]).value, before[1..], after);
    }
  }
}

/** When a finished command stays its store's current one: exactly while a
  * failed clearing is not made up for by a Destroy.
  */
module ProtocolSlots {
  import opened Wrappers
  import opened Protocol
  import opened ProtocolInvariant
  import opened ProtocolRuns
  import opened ProtocolEvents
  import opened ProtocolAttaching
  import opened ProtocolTheorems

  ghost predicate StoreForgotten(s: State, labels: seq<Label>, support: bool) {
    Happened(s, labels, StoreForgetting(support))
  }

  /** In the run a call of the clearing of `c` failed, and no Destroy of the store came after it. */
  ghost predicate ClearingFailed(s: State, labels: seq<Label>, c: CommandRef, support: bool)
    decreases |labels|
  {
    labels != [] && Next(s, labels[0]).Some? &&
    var s', rest := Next(s, labels[0]).value, labels[1..];
    (FailsClearing(s, labels[0], c) && !StoreForgotten(s', rest, support)) || ClearingFailed(s', rest, c, support)
  }

  /** The command is current although its clearing is over. */
  predicate Kept(sh: Shared, c: CommandRef) {
    c < |sh.cmds| && sh.cmds[c].clearFailed && IsCurrent(sh.cmds[c], c, sh.payload, sh.support)
  }

  // --- one step

  lemma FailingKeeps(sh: Shared, pc: Pc, choice: Choice, e: Effect)
    requires ThreadOk(sh, pc) && pc.Routine? && (pc.rt.RtClearExists? || pc.rt.RtClearDestroy?) && choice.CallFails?
    requires ClearStep(sh, pc.c, pc.support, pc.context, pc.rt, choice) == Some(e)
    ensures Kept(e.shared, pc.c)
  { }

  /** A routine past its clearing frees no slot. */
  lemma PastFreesNothing(sh: Shared, pc: Pc, choice: Choice, e: Effect)
    requires pc.Routine? && pc.c < |sh.cmds| && PastClearing(pc.rt)
    requires ClearStep(sh, pc.c, pc.support, pc.context, pc.rt, choice) == Some(e)
    ensures e.shared.payload == sh.payload && e.shared.support == sh.support
  { }

  lemma ForgetsAll(sh: Shared, pc: Pc, choice: Choice, e: Effect)
    requires pc.Destroying? && pc.ds.DsClear? && DestroyStep(sh, pc.support, pc.failing, pc.ds, choice) == Some(e)
    ensures SlotsOf(e.shared, pc.support).current.None? && e.shared.cmds == sh.cmds
  { }

  lemma PushesEmptySlot(sh: Shared, pc: Pc)
    requires SharedInv(sh) && pc.Executing? && ThreadOk(sh, pc)
    ensures PushesEmpty(sh, pc)
  {
    hide ContainersApart, HandThere, CommandsOk, Accounted, FinishedLeave, ClosedLeave, Attributed;
  }

  lemma StaysKept(sh: Shared, pc: Pc, choice: Choice, e: Effect, c: CommandRef)
    requires SharedInv(sh) && ThreadOk(sh, pc) && StepOf(sh, pc, choice) == Some(e) && Promise(sh, e.shared, pc)
    requires Kept(sh, c) && !Doubled(sh.cmds[c])
    requires !(pc.Destroying? && pc.support == sh.cmds[c].support && pc.ds.DsClear?)
    ensures Kept(e.shared, c)
  {
    var support := sh.cmds[c].support;
    assert Evolves(sh.cmds[c], e.shared.cmds[c]);
    if pc.Executing? {
      PushesEmptySlot(sh, pc);
    }
    if SlotsOf(e.shared, support).current != Some(c) {
      FreeingStep(sh, pc, choice, e, support, c);
      hide StepOf, SharedInv, Promise;
      if pc.Routine? && pc.c == c {
        RoutineIsPast(sh, pc, choice, e);
        PastFreesNothing(sh, pc, choice, e);
      }
    }
  }

  /** The routine of a kept command is past its clearing. */
  lemma RoutineIsPast(sh: Shared, pc: Pc, choice: Choice, e: Effect)
    requires pc.Routine? && ThreadOk(sh, pc) && pc.c < |sh.cmds| && sh.cmds[pc.c].clearFailed && !Doubled(sh.cmds[pc.c])
    requires StepOf(sh, pc, choice) == Some(e)
    ensures PastClearing(pc.rt) && !InRun(pc.rt) && !InJudge(pc.rt)
    ensures ClearStep(sh, pc.c, pc.support, pc.context, pc.rt, choice) == Some(e)
  {
    hide ClearStep;
  }

  lemma BecomesKept(sh: Shared, pc: Pc, choice: Choice, e: Effect, c: CommandRef)
    requires ThreadOk(sh, pc) && StepOf(sh, pc, choice) == Some(e) && Promise(sh, e.shared, pc)
    requires Kept(e.shared, c)
    ensures c < |sh.cmds| && IsCurrent(sh.cmds[c], c, sh.payload, sh.support)
    ensures !(pc.Destroying? && pc.support == sh.cmds[c].support && pc.ds.DsClear?)
    ensures Kept(sh, c) ||
      (pc.Routine? && pc.c == c && (pc.rt.RtClearExists? || pc.rt.RtClearDestroy?) && choice.CallFails?)
  {
    assert c < |sh.cmds|;
    assert Evolves(sh.cmds[c], e.shared.cmds[c]) && Permitted(sh.cmds[c], e.shared.cmds[c], pc, c);
    hide RunStep, JudgeStep, ClearStep, ExecuteStep, PrepareStep, CallStep, DestroyStep, Evolves;
    if pc.Destroying? && pc.ds.DsClear? {
      ForgetsAll(sh, pc, choice, e);
    }
    if !sh.cmds[c].clearFailed {
      FailsOnlyThere(sh, pc, choice, e);
    }
  }

  lemma StepKeeps(sh: Shared, pc: Pc, choice: Choice, e: Effect, c: CommandRef)
    requires SharedInv(sh) && ThreadOk(sh, pc) && StepOf(sh, pc, choice) == Some(e) && Promise(sh, e.shared, pc)
    requires c < |e.shared.cmds| && !Doubled(e.shared.cmds[c])
    ensures var support := e.shared.cmds[c].support;
      var forgets := pc.Destroying? && pc.support == support && pc.ds.DsClear?;
      var fails := pc.Routine? && pc.c == c && (pc.rt.RtClearExists? || pc.rt.RtClearDestroy?) && choice.CallFails?;
      Kept(e.shared, c) <==> (Kept(sh, c) && !forgets) || fails
  {
    hide StepOf, SharedInv, Kept;
    if Kept(e.shared, c) {
      BecomesKept(sh, pc, choice, e, c);
      SupportFixed(sh, e.shared, pc, c);
    } else {
      if Kept(sh, c) {
        KeptIsCommand(sh, c);
        SupportFixed(sh, e.shared, pc, c);
        if !(pc.Destroying? && pc.support == sh.cmds[c].support && pc.ds.DsClear?) {
          StaysKept(sh, pc, choice, e, c);
        }
      }
      if pc.Routine? && pc.c == c && (pc.rt.RtClearExists? || pc.rt.RtClearDestroy?) && choice.CallFails? {
        ClearingIsStep(sh, pc, choice, e);
        FailingKeeps(sh, pc, choice, e);
      }
    }
  }

  lemma KeptIsCommand(sh: Shared, c: CommandRef)
    requires Kept(sh, c)
    ensures c < |sh.cmds| && CurrentIn(sh, c)
  { }

  lemma ClearingIsStep(sh: Shared, pc: Pc, choice: Choice, e: Effect)
    requires ThreadOk(sh, pc) && pc.Routine? && (pc.rt.RtClearExists? || pc.rt.RtClearDestroy?)
      && StepOf(sh, pc, choice) == Some(e)
    ensures pc.c < |sh.cmds| && !InRun(pc.rt) && !InJudge(pc.rt)
    ensures ClearStep(sh, pc.c, pc.support, pc.context, pc.rt, choice) == Some(e)
  {
    hide ClearStep;
  }

  lemma SupportFixed(sh: Shared, sh': Shared, pc: Pc, c: CommandRef)
    requires Promise(sh, sh', pc) && c < |sh.cmds|
    ensures c < |sh'.cmds| && sh'.cmds[c].support == sh.cmds[c].support
    ensures Doubled(sh.cmds[c]) ==> Doubled(sh'.cmds[c])
  {
    assert Evolves(sh.cmds[c], sh'.cmds[c]);
  }

  // --- runs

  lemma NextKeeps(s: State, l: Label, c: CommandRef)
    requires Inv(s) && Next(s, l).Some?
    requires c < |Next(s, l).value.shared.cmds| && !Doubled(Next(s, l).value.shared.cmds[c])
    ensures Kept(Next(s, l).value.shared, c) <==>
      (Kept(s.shared, c) && !ForgetsStore(s, l, Next(s, l).value.shared.cmds[c].support)) || FailsClearing(s, l, c)
  {
    hide StepOf, Inv, Kept, OutsideStep;
    if l.Thread? {
      var e := StepOf(s.shared, s.threads[l.t], l.choice).value;
      PromiseAt(s, l.t, l.choice, e);
      StepKeeps(s.shared, s.threads[l.t], l.choice, e, c);
    } else {
      OutsideKeepsSlots(s.shared, l);
      SameKept(s.shared, OutsideStep(s.shared, l).value, c);
    }
  }

  lemma OutsideKeepsSlots(sh: Shared, l: Label)
    requires !l.Thread? && OutsideStep(sh, l).Some?
    ensures var sh' := OutsideStep(sh, l).value;
      sh'.cmds == sh.cmds && sh'.payload == sh.payload && sh'.support == sh.support
  { }

  lemma SameKept(sh: Shared, sh': Shared, c: CommandRef)
    requires sh'.cmds == sh.cmds && sh'.payload == sh.payload && sh'.support == sh.support
    ensures Kept(sh', c) == Kept(sh, c)
  { }

  /** A command that does not exist yet is neither kept nor being cleared. */
  lemma NotYetKept(s: State, l: Label, c: CommandRef)
    requires Inv(s) && c >= |s.shared.cmds|
    ensures !Kept(s.shared, c) && !FailsClearing(s, l, c)
  {
    hide SharedInv, LocksAgree, CountsAgree, FreeOk;
    if Stepping(s, l).Some? {
      assert ThreadOk(s.shared, s.threads[l.t]);
    }
  }

  lemma {:induction false} RunKeeps(s: State, labels: seq<Label>, c: CommandRef, support: bool)
    requires Inv(s) && Run(s, labels).Some?
    requires var sh := Run(s, labels).value.shared;
      c < |sh.cmds| && !Doubled(sh.cmds[c]) && sh.cmds[c].support == support
    ensures Kept(Run(s, labels).value.shared, c) <==>
      (Kept(s.shared, c) && !StoreForgotten(s, labels, support)) || ClearingFailed(s, labels, c, support)
    decreases |labels|
  {
    hide Inv, Next, Kept, ForgetsStore, FailsClearing, Follows;
    if labels != [] {
      var s' := Next(s, labels[0]).value;
      NextKept(s, labels[0]);
      RunFollows(s', labels[1..]);
      RunKeeps(s', labels[1..], c, support);
      if c < |s'.shared.cmds| {
        SameCommandLater(s'.shared, Run(s', labels[1..]).value.shared, c);
        NextKeeps(s, labels[0], c);
      } else {
        NextFollows(s, labels[0]);
        NoCommandBefore(s.shared, s'.shared, c);
        NotYetKept(s, labels[0], c);
        NotYetKept(s', labels[0], c);
      }
    }
  }

  lemma NoCommandBefore(sh: Shared, sh': Shared, c: CommandRef)
    requires Follows(sh, sh') && c >= |sh'.cmds|
    ensures c >= |sh.cmds|
  { }

  lemma SameCommandLater(sh: Shared, sh': Shared, c: CommandRef)
    requires Follows(sh, sh') && c < |sh.cmds|
    ensures c < |sh'.cmds| && sh'.cmds[c].support == sh.cmds[c].support
    ensures Doubled(sh.cmds[c]) ==> Doubled(sh'.cmds[c])
  {
    assert Evolves(sh.cmds[c], sh'.cmds[c]);
  }

  /** "Finished implies slot free", exactly: a command once seen finished is its store's
    * current one, in any later state, if and only if a runtime call of its clearing
    * failed and no Destroy has forgotten the store since; unless an AttachWait attached
    * the command again.
    */
  lemma FinishedKeepsSlotWhen(s: State, before: seq<Label>, after: seq<Label>, t: ThreadId)
    requires Start(s) && Run(s, before).Some? && Run(Run(s, before).value, after).Some?
    requires var s1 := Run(s, before).value;
      && t < |s1.threads| && s1.threads[t].Idle? && s1.threads[t].reply.Saw? && s1.threads[t].reply.result.finished
      && !Reattached(s, before + after, s1.threads[t].reply.c)
    ensures var c := Run(s, before).value.threads[t].reply.c;
      var sh := Run(Run(s, before).value, after).value.shared;
      && c < |sh.cmds|
      && (SlotsOf(sh, sh.cmds[c].support).current == Some(c) <==>
            ClearingFailed(s, before + after, c, sh.cmds[c].support))
  {
    hide Start, Reattached, ClearingFailed, StoreForgotten, Inv, Follows;
    StartInv(s);
    RunKept(s, before);
    var s1 := Run(s, before).value;
    var c := s1.threads[t].reply.c;
    RunFollows(s1, after);
    SeenLeaves(s1, t, Run(s1, after).value.shared);
    ReattachedOver(s, before, after, c);
    RunSplit(s, before, after);
    var sh := Run(s, before + after).value.shared;
    NothingKept(s, c);
    hide Run;
    RunKeeps(s, before + after, c, sh.cmds[c].support);
  }

  lemma NothingKept(s: State, c: CommandRef)
    requires Start(s)
    ensures !Kept(s.shared, c)
  {
    if c < |s.shared.cmds| {
      assert Recovered(s.shared.cmds[c]);
    }
  }

  // --- a kept command blocks its role

  lemma PushNeedsFreeSlot(sh: Shared, pc: Pc, choice: Choice, e: Effect, c: CommandRef)
    requires SharedInv(sh) && ThreadOk(sh, pc) && StepOf(sh, pc, choice) == Some(e)
    requires c < |sh.cmds| && IsCurrent(sh.cmds[c], c, sh.payload, sh.support)
    ensures forall d :: |sh.cmds| <= d < |e.shared.cmds| ==> e.shared.cmds[d].support != sh.cmds[c].support
  {
    if pc.Executing? {
      PushesEmptySlot(sh, pc);
      hide SharedInv, MayCreate;
    } else {
      AddsNoCommand(sh, pc, choice, e);
    }
  }

  lemma ClearAddsNone(sh: Shared, pc: Pc, choice: Choice, e: Effect)
    requires pc.Routine? && pc.c < |sh.cmds| && !InRun(pc.rt) && !InJudge(pc.rt)
    requires ClearStep(sh, pc.c, pc.support, pc.context, pc.rt, choice) == Some(e)
    ensures |e.shared.cmds| == |sh.cmds|
  {
    hide Forget, SlotsOf;
  }

  lemma JudgeAddsNone(sh: Shared, pc: Pc, choice: Choice, e: Effect)
    requires pc.Routine? && pc.c < |sh.cmds| && InJudge(pc.rt)
    requires JudgeStep(sh, pc.c, pc.support, pc.context, pc.rt, choice) == Some(e)
    ensures |e.shared.cmds| == |sh.cmds|
  {
    hide JudgeEnd, JudgeState;
  }

  lemma DestroyAddsNone(sh: Shared, pc: Pc, choice: Choice, e: Effect)
    requires pc.Destroying? && DestroyStep(sh, pc.support, pc.failing, pc.ds, choice) == Some(e)
    ensures |e.shared.cmds| == |sh.cmds|
  { }

  lemma AddsNoCommand(sh: Shared, pc: Pc, choice: Choice, e: Effect)
    requires !pc.Executing? && StepOf(sh, pc, choice) == Some(e)
    ensures |e.shared.cmds| == |sh.cmds|
  {
    hide RunStep, JudgeStep, ClearStep, DestroyStep;
    if pc.Destroying? {
      DestroyAddsNone(sh, pc, choice, e);
    } else if pc.Routine? {
      if InRun(pc.rt) {
        RunClearsNothing(sh, pc, choice, e);
      } else if InJudge(pc.rt) {
        JudgeAddsNone(sh, pc, choice, e);
      } else {
        ClearAddsNone(sh, pc, choice, e);
      }
    }
  }

  predicate CurrentIn(sh: Shared, c: CommandRef) {
    c < |sh.cmds| && IsCurrent(sh.cmds[c], c, sh.payload, sh.support)
  }

  /** No command of the role of `c` was made from one state to the other. */
  ghost predicate NoneMade(sh: Shared, sh': Shared, c: CommandRef)
    requires c < |sh.cmds|
  {
    forall d :: |sh.cmds| <= d < |sh'.cmds| ==> sh'.cmds[d].support != sh.cmds[c].support
  }

  lemma NextMakesNone(s: State, l: Label, c: CommandRef)
    requires Inv(s) && Next(s, l).Some? && CurrentIn(s.shared, c)
    ensures NoneMade(s.shared, Next(s, l).value.shared, c)
  {
    hide StepOf, Inv, OutsideStep;
    if l.Thread? {
      var e := StepOf(s.shared, s.threads[l.t], l.choice).value;
      PromiseAt(s, l.t, l.choice, e);
      PushNeedsFreeSlot(s.shared, s.threads[l.t], l.choice, e, c);
    } else {
      OutsideKeepsSlots(s.shared, l);
    }
  }

  lemma WasCurrent(sh: Shared, sh': Shared, c: CommandRef)
    requires Follows(sh, sh') && CurrentIn(sh', c) && c < |sh.cmds|
    ensures CurrentIn(sh, c) && sh'.cmds[c].support == sh.cmds[c].support
  {
    assert Evolves(sh.cmds[c], sh'.cmds[c]);
  }

  lemma NoneMadeTransitive(a: Shared, b: Shared, c: Shared, x: CommandRef)
    requires x < |a.cmds| && Follows(a, b) && Follows(b, c) && |a.cmds| <= |b.cmds|
    requires NoneMade(a, b, x) && NoneMade(b, c, x)
    ensures NoneMade(a, c, x)
  {
    assert Evolves(a.cmds[x], b.cmds[x]);
    forall d | |a.cmds| <= d < |c.cmds| ensures c.cmds[d].support != a.cmds[x].support {
      if d < |b.cmds| {
        assert Evolves(b.cmds[d], c.cmds[d]);
      }
    }
  }

  /** While a command stays current, no Execute of its role makes a new one, however many are called. */
  lemma {:induction false} CurrentBlocksRole(s: State, labels: seq<Label>, c: CommandRef)
    requires Inv(s) && Run(s, labels).Some? && c < |s.shared.cmds| && CurrentIn(Run(s, labels).value.shared, c)
    ensures NoneMade(s.shared, Run(s, labels).value.shared, c)
    decreases |labels|
  {
    hide Inv, Next, Follows, CurrentIn, NoneMade;
    if labels == [] {
      assert NoneMade(s.shared, s.shared, c) by { NoneMadeHere(s.shared, c); }
    } else {
      var s' := Next(s, labels[0]).value;
      var sh := Run(s', labels[1..]).value.shared;
      NextFollows(s, labels[0]);
      RunFollows(s', labels[1..]);
      SameCommandLater(s.shared, s'.shared, c);
      WasCurrent(s'.shared, sh, c);
      WasCurrent(s.shared, s'.shared, c);
      NextMakesNone(s, labels[0], c);
      CurrentBlocksRole(s', labels[1..], c);
      CommandsGrow(s.shared, s'.shared);
      NoneMadeTransitive(s.shared, s'.shared, sh, c);
    }
  }

  lemma NoneMadeHere(sh: Shared, c: CommandRef)
    requires c < |sh.cmds|
    ensures NoneMade(sh, sh, c)
  { }

  lemma CommandsGrow(sh: Shared, sh': Shared)
    requires Follows(sh, sh')
    ensures |sh.cmds| <= |sh'.cmds|
  { }

  /** A finished command that kept its slot refuses every Execute of its role until a
    * Destroy forgets the store.
    */
  lemma KeptRefusesExecute(s: State, before: seq<Label>, after: seq<Label>, c: CommandRef)
    requires Start(s) && Run(s, before).Some? && Run(Run(s, before).value, after).Some?
    requires var s1 := Run(s, before).value;
      && Kept(s1.shared, c) && !StoreForgotten(s1, after, s1.shared.cmds[c].support)
      && !Reattached(s, before + after, c)
    ensures var sh, sh' := Run(s, before).value.shared, Run(Run(s, before).value, after).value.shared;
      && Kept(sh', c)
      && forall d :: |sh.cmds| <= d < |sh'.cmds| ==> sh'.cmds[d].support != sh.cmds[c].support
  {
    hide Start, Reattached, StoreForgotten, Inv, Kept, Follows;
    StartInv(s);
    RunKept(s, before);
    ReattachedOver(s, before, after, c);
    var s1 := Run(s, before).value;
    RunFollows(s1, after);
    KeptIsCommand(s1.shared, c);
    SameCommandLater(s1.shared, Run(s1, after).value.shared, c);
    RunKeeps(s1, after, c, s1.shared.cmds[c].support);
    KeptIsCommand(Run(s1, after).value.shared, c);
    CurrentBlocksRole(s1, after, c);
  }
}

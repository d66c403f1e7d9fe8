/** Which commands a Destroy forgot, and what becomes of a recovered command
  * that nobody attaches.
  */
module ProtocolForgetting {
  import opened Wrappers
  import opened CommandResults
  import opened Protocol
  import opened ProtocolInvariant
  import opened ProtocolRuns
  import opened ProtocolEvents
  import opened ProtocolTheorems
  import opened ProtocolSlots
  import opened ProtocolWitness

  /** The command, if it was made already, is in the store of its role. */
  predicate InStore(sh: Shared, c: CommandRef) {
    c < |sh.cmds| ==> InSlots(SlotsOf(sh, sh.cmds[c].support), c)
  }

  predicate ForgetsAt(sh: Shared, pc: Pc, c: CommandRef) {
    && c < |sh.cmds| && pc.Destroying? && pc.support == sh.cmds[c].support && pc.ds.DsClear?
    && InSlots(SlotsOf(sh, sh.cmds[c].support), c)
  }

  lemma ExecuteForgetsNothing(sh: Shared, pc: Pc, choice: Choice, e: Effect, support: bool)
    requires pc.Executing? && PushesEmpty(sh, pc)
    requires ExecuteStep(sh, pc.support, pc.context, pc.ex, choice) == Some(e)
    ensures SlotsOf(e.shared, support).previous == SlotsOf(sh, support).previous
    ensures SlotsOf(e.shared, support).current == SlotsOf(sh, support).current
      || (SlotsOf(sh, support).current.None? && SlotsOf(e.shared, support).current == Some(|sh.cmds|))
  {
    hide MayCreate;
  }

  /** A new command is in its store. */
  lemma ExecuteStores(sh: Shared, pc: Pc, choice: Choice, e: Effect, c: CommandRef)
    requires pc.Executing? && ExecuteStep(sh, pc.support, pc.context, pc.ex, choice) == Some(e)
    requires |sh.cmds| <= c < |e.shared.cmds|
    ensures InStore(e.shared, c)
  {
    hide MayCreate;
  }

  lemma DestroyForgets(sh: Shared, pc: Pc, choice: Choice, e: Effect, support: bool)
    requires pc.Destroying? && DestroyStep(sh, pc.support, pc.failing, pc.ds, choice) == Some(e)
    ensures SlotsOf(e.shared, support)
      == if pc.ds.DsClear? && pc.support == support then Slots(None, None, None) else SlotsOf(sh, support)
  { }

  lemma OthersForgetNothing(sh: Shared, pc: Pc, choice: Choice, e: Effect)
    requires pc.Idle? || pc.Preparing? || pc.Getting? || pc.Calling?
    requires StepOf(sh, pc, choice) == Some(e)
    ensures e.shared.payload == sh.payload && e.shared.support == sh.support
  { }

  /** A routine frees a slot only after its command's container is gone. */
  lemma RoutineForgets(sh: Shared, pc: Pc, choice: Choice, e: Effect, support: bool)
    requires pc.Routine? && ThreadOk(sh, pc) && StepOf(sh, pc, choice) == Some(e)
    ensures SlotsOf(e.shared, support) == SlotsOf(sh, support) ||
      (SlotsOf(sh, support).current == Some(pc.c) && pc.c < |sh.cmds|
        && sh.cmds[pc.c].container !in sh.world.containers
        && SlotsOf(e.shared, support) == SlotsOf(sh, support).(current := None))
  {
    hide OnlyOwn, RunStep, JudgeStep, ClearStep;
    if !InRun(pc.rt) && !InJudge(pc.rt) {
      ClearForgets(sh, pc, choice, e, support);
    } else if InRun(pc.rt) {
      RunClearsNothing(sh, pc, choice, e);
    } else {
      JudgeForgetsNothing(sh, pc, choice, e);
    }
  }

  lemma JudgeForgetsNothing(sh: Shared, pc: Pc, choice: Choice, e: Effect)
    requires pc.Routine? && pc.c < |sh.cmds| && InJudge(pc.rt)
    requires JudgeStep(sh, pc.c, pc.support, pc.context, pc.rt, choice) == Some(e)
    ensures e.shared.payload == sh.payload && e.shared.support == sh.support
  {
    hide JudgeEnd, JudgeState;
  }

  lemma ClearForgets(sh: Shared, pc: Pc, choice: Choice, e: Effect, support: bool)
    requires pc.Routine? && ThreadOk(sh, pc) && !InRun(pc.rt) && !InJudge(pc.rt)
    requires ClearStep(sh, pc.c, pc.support, pc.context, pc.rt, choice) == Some(e)
    ensures SlotsOf(e.shared, support) == SlotsOf(sh, support) ||
      (SlotsOf(sh, support).current == Some(pc.c)
        && sh.cmds[pc.c].container !in sh.world.containers
        && SlotsOf(e.shared, support) == SlotsOf(sh, support).(current := None))
  { }

  /** Its container exists, or it never had a routine. */
  predicate Anchored(sh: Shared, c: CommandRef) {
    c < |sh.cmds| ==> sh.cmds[c].container in sh.world.containers || sh.cmds[c].routines == 0
  }

  /** Such a command leaves its store only when a Destroy forgets it. */
  lemma StepForgets(sh: Shared, pc: Pc, choice: Choice, e: Effect, c: CommandRef)
    requires SharedInv(sh) && ThreadOk(sh, pc) && StepOf(sh, pc, choice) == Some(e) && Promise(sh, e.shared, pc)
    requires c < |e.shared.cmds| && Anchored(e.shared, c)
    ensures InStore(e.shared, c) <==> InStore(sh, c) && !ForgetsAt(sh, pc, c)
  {
    if c < |sh.cmds| {
      var support := sh.cmds[c].support;
      WasAnchored(sh, e.shared, pc, c);
      if pc.Executing? {
        PushesEmptySlot(sh, pc);
        ExecuteForgetsNothing(sh, pc, choice, e, support);
      } else if pc.Destroying? {
        DestroyForgets(sh, pc, choice, e, support);
      } else if pc.Routine? {
        RoutineForgets(sh, pc, choice, e, support);
      } else {
        OthersForgetNothing(sh, pc, choice, e);
      }
      hide StepOf, SharedInv, Promise;
    } else if pc.Executing? {
      ExecuteStores(sh, pc, choice, e, c);
    } else {
      AddsNoCommand(sh, pc, choice, e);
      assert false;
    }
  }

  lemma WasAnchored(sh: Shared, sh': Shared, pc: Pc, c: CommandRef)
    requires SharedInv(sh) && Promise(sh, sh', pc) && c < |sh.cmds| && Anchored(sh', c)
    ensures c < |sh'.cmds| && sh'.cmds[c].container == sh.cmds[c].container && sh'.cmds[c].support == sh.cmds[c].support
    ensures Anchored(sh, c)
  {
    assert Evolves(sh.cmds[c], sh'.cmds[c]);
  }

  lemma NextForgets(s: State, l: Label, c: CommandRef)
    requires Inv(s) && Next(s, l).Some? && c < |Next(s, l).value.shared.cmds| && Anchored(Next(s, l).value.shared, c)
    ensures InStore(Next(s, l).value.shared, c) <==> InStore(s.shared, c) && !Forgets(s, l, c)
    ensures Anchored(s.shared, c)
  {
    hide StepOf, Inv, OutsideStep, InStore, SharedInv, ThreadOk, Promise;
    if l.Thread? {
      var e := StepOf(s.shared, s.threads[l.t], l.choice).value;
      PromiseAt(s, l.t, l.choice, e);
      StepForgets(s.shared, s.threads[l.t], l.choice, e, c);
      if c < |s.shared.cmds| {
        WasAnchored(s.shared, e.shared, s.threads[l.t], c);
      }
    } else {
      OutsideForgetsNothing(s.shared, l, c);
    }
  }

  lemma OutsideForgetsNothing(sh: Shared, l: Label, c: CommandRef)
    requires !l.Thread? && OutsideStep(sh, l).Some? && Anchored(OutsideStep(sh, l).value, c)
    ensures InStore(OutsideStep(sh, l).value, c) == InStore(sh, c)
    ensures Anchored(sh, c)
  { }

  lemma {:induction false} RunForgets(s: State, labels: seq<Label>, c: CommandRef)
    requires Inv(s) && Run(s, labels).Some? && Anchored(Run(s, labels).value.shared, c)
    ensures InStore(Run(s, labels).value.shared, c) <==> InStore(s.shared, c) && !Happened(s, labels, Forgetting(c))
    ensures Anchored(s.shared, c)
    decreases |labels|
  {
    hide Inv, Next, InStore, Forgets, Anchored;
    if labels != [] {
      var s' := Next(s, labels[0]).value;
      NextKept(s, labels[0]);
      RunForgets(s', labels[1..], c);
      if c < |s'.shared.cmds| {
        NextForgets(s, labels[0], c);
      } else {
        NextFollows(s, labels[0]);
        NotMadeYet(s, labels[0], s'.shared, c);
      }
    }
  }

  lemma NotMadeYet(s: State, l: Label, sh: Shared, c: CommandRef)
    requires Follows(s.shared, sh) && c >= |sh.cmds|
    ensures c >= |s.shared.cmds| && InStore(s.shared, c) && InStore(sh, c) && !Forgets(s, l, c) && Anchored(s.shared, c)
  { }

  lemma StartsInStore(s: State, c: CommandRef)
    requires Start(s)
    ensures InStore(s.shared, c)
  { }

  /** A command whose container exists is in its store unless a Destroy has forgotten it;
    * and then a runtime call of a Destroy about that container failed.
    */
  lemma ForgottenWhen(s: State, labels: seq<Label>, c: CommandRef)
    requires Start(s) && Run(s, labels).Some?
    requires var sh := Run(s, labels).value.shared; c < |sh.cmds| && sh.cmds[c].container in sh.world.containers
    ensures var sh := Run(s, labels).value.shared;
      && (InSlots(SlotsOf(sh, sh.cmds[c].support), c) <==> !Happened(s, labels, Forgetting(c)))
      && (Happened(s, labels, Forgetting(c)) ==> Happened(s, labels, FailedDestroy(sh.cmds[c].container)))
  {
    StartInv(s);
    RunForgets(s, labels, c);
    assert InStore(s.shared, c) by { StartsInStore(s, c); }
    ContainersAccounted(s, labels);
  }

  // --- a recovered command that nobody attaches

  /** A Wait or AttachWait of `c` has returned to this thread. */
  predicate HasWaited(pc: Pc, c: CommandRef) {
    pc.Idle? && pc.reply.Saw? && pc.reply.waited && pc.reply.c == c
  }

  lemma NeverRan(s: State, c: CommandRef)
    requires Inv(s) && c < |s.shared.cmds| && s.shared.cmds[c].origin.RecoveredRunning? && !s.shared.cmds[c].once
    ensures var cmd := s.shared.cmds[c]; cmd.result == PENDING && cmd.closes == 0 && cmd.routines == 0
    ensures forall t :: 0 <= t < |s.threads| ==> !HasWaited(s.threads[t], c)
  {
    assert CommandOk(s.shared.cmds[c]);
    forall t | 0 <= t < |s.threads| ensures !HasWaited(s.threads[t], c) {
      assert ThreadOk(s.shared, s.threads[t]);
    }
  }

  lemma RunningStarts(s: State, c: CommandRef)
    requires Start(s) && c < |s.shared.cmds| && s.shared.cmds[c].origin.RecoveredRunning?
    ensures IsCurrent(s.shared.cmds[c], c, s.shared.payload, s.shared.support)
  { }

  lemma RunningIsCurrent(sh: Shared, c: CommandRef)
    requires SharedInv(sh) && c < |sh.cmds| && sh.cmds[c].origin.RecoveredRunning?
    ensures CurrentIn(sh, c) <==> InStore(sh, c)
  {
    hide ContainersApart, HandThere, CommandsOk, Accounted, FinishedLeave, ClosedLeave, Attributed;
  }

  /** A running command that recovery took over and that no AttachWait attaches stays
    * unfinished, whatever becomes of its container: no Wait on it returns, it stays its
    * store's current command until a Destroy forgets it, and until then every Execute of
    * its role is refused.
    */
  lemma UnattachedBlocksRole(s: State, labels: seq<Label>, c: CommandRef)
    requires Start(s) && Run(s, labels).Some? && c < |s.shared.cmds| && s.shared.cmds[c].origin.RecoveredRunning?
    requires !Happened(s, labels, AttachRunsOnce(c))
    ensures var s' := Run(s, labels).value; var sh := s'.shared;
      && c < |sh.cmds| && sh.cmds[c].result == PENDING && sh.cmds[c].closes == 0
      && (forall t :: 0 <= t < |s'.threads| ==> !HasWaited(s'.threads[t], c))
      && (CurrentIn(sh, c) <==> !Happened(s, labels, Forgetting(c)))
      && (CurrentIn(sh, c) ==> NoneMade(s.shared, sh, c))
  {
    hide Start, Happened, Inv, Follows, CurrentIn, InStore, NoneMade;
    StartInv(s);
    RunFollows(s, labels);
    var s' := Run(s, labels).value;
    KnownLater(s.shared, s'.shared, c);
    StartRecords(s, labels, AttachRunsOnce(c));
    NeverRan(s', c);
    RunForgets(s, labels, c);
    StartsInStore(s, c);
    assert SharedInv(s'.shared) by { SharedPart(s'); }
    RunningIsCurrent(s'.shared, c);
    if CurrentIn(s'.shared, c) {
      CurrentBlocksRole(s, labels, c);
    }
  }

  lemma SharedPart(s: State)
    requires Inv(s)
    ensures SharedInv(s.shared)
  { }

  /** So a Kill of such a command blocks its role: from every recovered executor, a Kill whose
    * calls work removes the container and leaves the command current and unfinished.
    */
  lemma KilledStaysCurrent(s: State, t: ThreadId, c: CommandRef) returns (labels: seq<Label>)
    requires Start(s) && t < |s.threads| && c < |s.shared.cmds| && s.shared.cmds[c].origin.RecoveredRunning?
    ensures Run(s, labels).Some? && !Happened(s, labels, AttachRunsOnce(c))
    ensures var sh := Run(s, labels).value.shared;
      && c < |sh.cmds| && sh.cmds[c].container == s.shared.cmds[c].container
      && sh.cmds[c].container !in sh.world.containers
      && CurrentIn(sh, c) && sh.cmds[c].result == PENDING
  {
    RunningIsThere(s, t, c);
    var last := [Thread(t, CallWorks)] + [];
    var asked := WithCommand(s.shared, c, s.shared.cmds[c].(killAsked := true));
    var end := At(s, t, WithoutContainer(asked, asked.cmds[c].container), s.owner, Idle(Done));
    hide Run, Start, Happened;
    KillReaches(s, t, c, last);
    StepThen(s, t, asked, s.owner, Calling(c, ClKillDestroy), CallWorks,
      Moved(WithoutContainer(asked, asked.cmds[c].container), Idle(Done)).value, []);
    NoLabels(end);
    labels := [Thread(t, Begin(Kill(c)))] + ([Thread(t, Step)] + ([Thread(t, Step)] + ([Thread(t, CallWorks)] + last)));
    assert Run(s, labels) == Some(end);
    StartRecords(s, labels, AttachRunsOnce(c));
  }

  lemma RunningIsThere(s: State, t: ThreadId, c: CommandRef)
    requires Start(s) && t < |s.threads| && c < |s.shared.cmds| && s.shared.cmds[c].origin.RecoveredRunning?
    ensures s.threads[t] == Idle(NoReply) && s.owner == map[] && CurrentIn(s.shared, c)
    ensures var cmd := s.shared.cmds[c];
      cmd.result == PENDING && !cmd.once && cmd.container in s.shared.world.containers
  {
    RunningStarts(s, c);
    assert Recovered(s.shared.cmds[c]);
  }
}

/** What holds over whole runs of the executor. */
module ProtocolTheorems {
  import opened Wrappers
  import opened CommandResults
  import opened Protocol
  import opened ProtocolInvariant
  import opened Interference
  import opened ProtocolRuns
  import opened ProtocolEvents
  import opened ProtocolAttaching

  // --- finished implies slot free

  /** Once any caller has seen a command finished, then in every later state the
    * command is not in its store's current slot, unless a runtime call of its clearing failed.
    */
  lemma FinishedImpliesSlotFree(s: State, before: seq<Label>, after: seq<Label>, t: ThreadId)
    requires Start(s) && Run(s, before).Some? && Run(Run(s, before).value, after).Some?
    requires var s1 := Run(s, before).value;
      t < |s1.threads| && s1.threads[t].Idle? && s1.threads[t].reply.Saw? && s1.threads[t].reply.result.finished
    ensures var c := Run(s, before).value.threads[t].reply.c;
      var sh := Run(Run(s, before).value, after).value.shared;
      && c < |sh.cmds|
      && (SlotsOf(sh, sh.cmds[c].support).current != Some(c) || Happened(s, before + after, FailedClearing(c)))
  {
    hide Start, Inv, Happened, Follows;
    StartInv(s);
    RunKept(s, before);
    var s1 := Run(s, before).value;
    RunFollows(s1, after);
    SeenLeaves(s1, t, Run(s1, after).value.shared);
    RunSplit(s, before, after);
    StartRecords(s, before + after, FailedClearing(s1.threads[t].reply.c));
  }

  lemma SeenLeaves(s: State, t: ThreadId, sh: Shared)
    requires Inv(s) && Follows(s.shared, sh)
    requires t < |s.threads| && s.threads[t].Idle? && s.threads[t].reply.Saw? && s.threads[t].reply.result.finished
    ensures var c := s.threads[t].reply.c;
      c < |sh.cmds| && (sh.cmds[c].clearFailed || SlotsOf(sh, sh.cmds[c].support).current != Some(c))
  {
    hide SharedInv, LocksAgree, CountsAgree, FreeOk;
    assert ThreadOk(s.shared, s.threads[t]);
    assert Evolves(s.shared.cmds[s.threads[t].reply.c], sh.cmds[s.threads[t].reply.c]);
  }

  /** In runs without faults, a command once seen finished is out of its slot for good. */
  lemma FaultFreeFinishedSlotFree(s: State, before: seq<Label>, after: seq<Label>, t: ThreadId)
    requires Start(s) && Run(s, before).Some? && Run(Run(s, before).value, after).Some?
    requires FaultFree(before) && FaultFree(after)
    requires var s1 := Run(s, before).value;
      t < |s1.threads| && s1.threads[t].Idle? && s1.threads[t].reply.Saw? && s1.threads[t].reply.result.finished
    ensures var c := Run(s, before).value.threads[t].reply.c;
      var sh := Run(Run(s, before).value, after).value.shared;
      c < |sh.cmds| && SlotsOf(sh, sh.cmds[c].support).current != Some(c)
  {
    hide Start, Run;
    FinishedImpliesSlotFree(s, before, after, t);
    assert forall i :: |before| <= i < |before + after| ==> (before + after)[i] == after[i - |before|];
    NoFaultNoFailure(s, before + after, FailedClearing(Run(s, before).value.threads[t].reply.c));
  }

  // --- close once, coherence, finality

  lemma NextFinal(s: State, l: Label, c: CommandRef)
    requires Inv(s) && Next(s, l).Some? && c < |s.shared.cmds| && Settled(s.shared.cmds[c])
    ensures var sh := Next(s, l).value.shared;
      && c < |sh.cmds| && Settled(sh.cmds[c])
      && (!Doubled(sh.cmds[c]) ==>
           sh.cmds[c].result == s.shared.cmds[c].result
           && sh.cmds[c].verdict == s.shared.cmds[c].verdict)
  {
    NextFollows(s, l);
    if l.Thread? {
      var e := StepOf(s.shared, s.threads[l.t], l.choice).value;
      StepGood(s.shared, s.threads[l.t], l.choice, e);
      assert Permitted(s.shared.cmds[c], e.shared.cmds[c], s.threads[l.t], c);
    }
  }

  lemma {:induction false} ResultStays(s: State, labels: seq<Label>, c: CommandRef)
    requires Inv(s) && Run(s, labels).Some? && c < |s.shared.cmds| && Settled(s.shared.cmds[c])
    requires c < |Run(s, labels).value.shared.cmds| && !Doubled(Run(s, labels).value.shared.cmds[c])
    ensures Run(s, labels).value.shared.cmds[c].result == s.shared.cmds[c].result
    ensures Run(s, labels).value.shared.cmds[c].verdict == s.shared.cmds[c].verdict
    decreases |labels|
  {
    if labels != [] {
      var s' := Next(s, labels[0]).value;
      NextFinal(s, labels[0], c);
      NextFollows(s, labels[0]);
      RunFollows(s', labels[1..]);
      ResultStays(s', labels[1..], c);
    }
  }

  /** What the record says of a run in two parts is what the calls of the whole run say. */
  lemma ReattachedOver(s: State, before: seq<Label>, after: seq<Label>, c: CommandRef)
    requires Start(s) && Run(s, before).Some? && Run(Run(s, before).value, after).Some?
    ensures DoubledIn(Run(Run(s, before).value, after).value.shared, c) <==> Reattached(s, before + after, c)
  {
    hide Start, Reattached, DoubledIn;
    RunSplit(s, before, after);
    hide Run;
    DoubledByAttachWait(s, before + after, c);
  }

  /** After the post-run step of its routine, a command's result never changes again,
    * unless an AttachWait attached it again.
    */
  lemma ResultIsFinal(s: State, before: seq<Label>, after: seq<Label>, c: CommandRef)
    requires Start(s) && Run(s, before).Some? && Run(Run(s, before).value, after).Some?
    requires var sh := Run(s, before).value.shared; c < |sh.cmds| && Settled(sh.cmds[c])
    requires !Reattached(s, before + after, c)
    ensures var sh, sh' := Run(s, before).value.shared, Run(Run(s, before).value, after).value.shared;
      && c < |sh'.cmds| && sh'.cmds[c].result == sh.cmds[c].result && sh'.cmds[c].verdict == sh.cmds[c].verdict
  {
    hide Start, Reattached, Inv, Settled, Follows;
    StartInv(s);
    RunKept(s, before);
    var s1 := Run(s, before).value;
    RunFollows(s1, after);
    KnownLater(s1.shared, Run(s1, after).value.shared, c);
    ReattachedOver(s, before, after, c);
    ResultStays(s1, after, c);
  }

  /** What Wait and AttachWait return is the command's last word: the post-run step
    * was over, no later state has another result, and it says finished exactly unless
    * the inspection after a run that ended without an error saw a container that had not
    * ended; unless an AttachWait attached the command again.
    */
  lemma WaitSeesFinal(s: State, before: seq<Label>, after: seq<Label>, t: ThreadId)
    requires Start(s) && Run(s, before).Some? && Run(Run(s, before).value, after).Some?
    requires var s1 := Run(s, before).value;
      t < |s1.threads| && s1.threads[t].Idle? && s1.threads[t].reply.Saw? && s1.threads[t].reply.waited
    ensures var reply := Run(s, before).value.threads[t].reply;
      var sh := Run(Run(s, before).value, after).value.shared;
      && reply.c < |sh.cmds|
      && (!Reattached(s, before + after, reply.c) ==>
            && sh.cmds[reply.c].result == reply.result
            && (reply.result.finished <==> !Happened(s, before, JudgedAs(reply.c, NotEnded))))
  {
    hide Inv, Start, Follows, Settled, Reattached, Happened;
    StartInv(s);
    RunKept(s, before);
    var s1 := Run(s, before).value;
    RunFollows(s1, after);
    WaitedReply(s1, t);
    var c, sh := s1.threads[t].reply.c, Run(s1, after).value.shared;
    KnownLater(s1.shared, sh, c);
    ReattachedOver(s, before, after, c);
    if !Doubled(sh.cmds[c]) {
      ResultStays(s1, after, c);
      SettledIsOk(s1, c);
      StartRecords(s, before, JudgedAs(c, NotEnded));
    }
  }

  lemma WaitedReply(s: State, t: ThreadId)
    requires Inv(s) && t < |s.threads| && s.threads[t].Idle? && s.threads[t].reply.Saw? && s.threads[t].reply.waited
    ensures var reply := s.threads[t].reply;
      && reply.c < |s.shared.cmds| && Settled(s.shared.cmds[reply.c])
      && (Doubled(s.shared.cmds[reply.c]) || reply.result == s.shared.cmds[reply.c].result)
  {
    hide SharedInv, LocksAgree, CountsAgree;
    assert ThreadOk(s.shared, s.threads[t]);
  }

  lemma KnownLater(sh: Shared, sh': Shared, c: CommandRef)
    requires Follows(sh, sh') && c < |sh.cmds|
    ensures c < |sh'.cmds| && (Doubled(sh.cmds[c]) ==> Doubled(sh'.cmds[c]))
      && (Settled(sh.cmds[c]) ==> Settled(sh'.cmds[c]))
    ensures sh'.cmds[c].origin == sh.cmds[c].origin
  { }

  lemma SettledIsOk(s: State, c: CommandRef)
    requires Inv(s) && c < |s.shared.cmds| && Settled(s.shared.cmds[c]) && !Doubled(s.shared.cmds[c])
    ensures s.shared.cmds[c].result.finished <==> s.shared.cmds[c].verdict != Some(NotEnded)
  {
    CommandIsOk(s.shared, c);
  }

  lemma CommandIsOk(sh: Shared, c: CommandRef)
    requires SharedInv(sh) && c < |sh.cmds|
    ensures CommandOk(sh.cmds[c])
  { }

  /** At most one routine is started for a command if and only if no AttachWait of the
    * run attached it again after Execute; then its channel is closed at most once and no
    * two routines of it are ever live. In particular this holds when AttachWait is never
    * called on a command that Execute made while it is unfinished.
    */
  lemma AttachedOnce(s: State, labels: seq<Label>, c: CommandRef)
    requires Start(s) && Run(s, labels).Some? && c < |Run(s, labels).value.shared.cmds|
    ensures var cmd := Run(s, labels).value.shared.cmds[c];
      && (cmd.routines <= 1 <==> !Reattached(s, labels, c))
      && cmd.closes <= cmd.routines + Count(cmd.origin.RecoveredFinished?)
      && (!Reattached(s, labels, c) ==> cmd.closes <= 1)
    ensures var s' := Run(s, labels).value;
      !Reattached(s, labels, c) ==>
        forall t, u ::
          0 <= t < |s'.threads| && 0 <= u < |s'.threads|
          && IsLive(s'.threads[t], c) && IsLive(s'.threads[u], c) ==>
            t == u
    ensures !CalledUnfinished(s, labels, c) ==> !Reattached(s, labels, c)
  {
    hide Start, Reattached, CalledUnfinished;
    StartInv(s);
    RunKept(s, labels);
    DoubledByAttachWait(s, labels, c);
    if !CalledUnfinished(s, labels, c) {
      NeverReattached(s, labels, c);
    }
    var s' := Run(s, labels).value;
    CommandIsOk(s'.shared, c);
    if !Doubled(s'.shared.cmds[c]) {
      forall t, u | 0 <= t < |s'.threads| && 0 <= u < |s'.threads|
        && IsLive(s'.threads[t], c) && IsLive(s'.threads[u], c)
        ensures t == u
      {
        if t != u {
          SoleRoutine(s', t, u, c);
        }
      }
    }
  }

  /** Results are coherent in every state; killed and failed commands have exit code 1
    * and a judged command has the result of its verdict, unless an AttachWait attached
    * the command again (then a killed one can have any code: see KilledWithAnyCode).
    */
  lemma ResultsCoherent(s: State, labels: seq<Label>, c: CommandRef)
    requires Start(s) && Run(s, labels).Some? && c < |Run(s, labels).value.shared.cmds|
    ensures var cmd := Run(s, labels).value.shared.cmds[c];
      && (!cmd.result.finished ==> cmd.result == PENDING)
      && (cmd.result.killed || cmd.result.error.Some? ==> cmd.result.finished)
      && (!Reattached(s, labels, c) && (cmd.result.killed || cmd.result.error.Some?) ==> cmd.result.code == 1)
      && (!Reattached(s, labels, c) && cmd.verdict.Some? ==> cmd.result == ResultOf(cmd.verdict.value))
  {
    hide Start, Reattached;
    StartInv(s);
    RunKept(s, labels);
    DoubledByAttachWait(s, labels, c);
    CommandIsOk(Run(s, labels).value.shared, c);
  }

  // --- container accounting and store shape

  /** Every container of this executor's commands that still exists is its
    * store's current or previous command's, or a Destroy's call about it failed;
    * a container in an Execute's hands belongs to no command and its slot is
    * empty. Two existing containers of new commands of one role mean such a failure.
    */
  lemma ContainersAccounted(s: State, labels: seq<Label>)
    requires Start(s) && Run(s, labels).Some?
    ensures var sh := Run(s, labels).value.shared;
      && (forall c :: 0 <= c < |sh.cmds| && sh.cmds[c].container in sh.world.containers ==>
            || SlotsOf(sh, sh.cmds[c].support).current == Some(c)
            || SlotsOf(sh, sh.cmds[c].support).previous == Some(c)
            || Happened(s, labels, FailedDestroy(sh.cmds[c].container)))
      && (forall support :: SlotsOf(sh, support).inHand.Some? ==>
            && SlotsOf(sh, support).current.None?
            && forall c :: 0 <= c < |sh.cmds| ==> sh.cmds[c].container != SlotsOf(sh, support).inHand.value.container)
      && (forall c, d :: 0 <= c < d < |sh.cmds| ==> sh.cmds[c].container != sh.cmds[d].container)
    ensures var sh := Run(s, labels).value.shared;
      forall c, d :: 0 <= c < |sh.cmds| && 0 <= d < |sh.cmds| && SameRoleThere(sh, c, d) && c != d ==>
        Happened(s, labels, FailedDestroy(sh.cmds[c].container))
        || Happened(s, labels, FailedDestroy(sh.cmds[d].container))
  {
    hide Start, Happened;
    StartInv(s);
    RunKept(s, labels);
    var sh := Run(s, labels).value.shared;
    forall id ensures id in sh.lost <==> Happened(s, labels, FailedDestroy(id)) {
      StartRecords(s, labels, FailedDestroy(id));
    }
    hide Run, Inv;
    AccountedIn(Run(s, labels).value);
  }

  lemma AccountedIn(s: State)
    requires Inv(s)
    ensures var sh := s.shared;
      && (forall c :: 0 <= c < |sh.cmds| && sh.cmds[c].container in sh.world.containers ==>
            || SlotsOf(sh, sh.cmds[c].support).current == Some(c)
            || SlotsOf(sh, sh.cmds[c].support).previous == Some(c)
            || sh.cmds[c].container in sh.lost)
      && (forall support :: SlotsOf(sh, support).inHand.Some? ==>
            && SlotsOf(sh, support).current.None?
            && forall c :: 0 <= c < |sh.cmds| ==> sh.cmds[c].container != SlotsOf(sh, support).inHand.value.container)
      && (forall c, d :: 0 <= c < d < |sh.cmds| ==> sh.cmds[c].container != sh.cmds[d].container)
    ensures var sh := s.shared;
      forall c, d :: 0 <= c < |sh.cmds| && 0 <= d < |sh.cmds| && SameRoleThere(sh, c, d) && c != d ==>
        sh.cmds[c].container in sh.lost || sh.cmds[d].container in sh.lost
  {
    hide LocksAgree, CountsAgree, ThreadOk, FreeOk, CommandsOk, FinishedLeave, ClosedLeave, Attributed, HandThere;
    var sh := s.shared;
    forall c | 0 <= c < |sh.cmds|
      ensures InSlots(SlotsFor(sh.payload, sh.support, sh.cmds[c].support), c)
           || Given(sh.cmds[c].container, sh.world.containers, sh.lost)
    { }
  }

  /** Two new commands of one role whose containers both exist. */
  predicate SameRoleThere(sh: Shared, c: CommandRef, d: CommandRef)
    requires c < |sh.cmds| && d < |sh.cmds|
  {
    StillThere(sh, c) && StillThere(sh, d) && sh.cmds[c].support == sh.cmds[d].support
  }

  predicate StillThere(sh: Shared, c: CommandRef)
    requires c < |sh.cmds|
  {
    sh.cmds[c].origin.Executed? && sh.cmds[c].container in sh.world.containers
  }

  /** Commands sit in the store of their role; the previous slot only ever holds
    * a finished command adopted at recovery, which never had a routine.
    */
  lemma StoresShaped(s: State, labels: seq<Label>, support: bool)
    requires Start(s) && Run(s, labels).Some?
    ensures var sh := Run(s, labels).value.shared; var slots := SlotsOf(sh, support);
      && (slots.current.Some? ==>
            && slots.current.value < |sh.cmds|
            && sh.cmds[slots.current.value].support == support
            && !sh.cmds[slots.current.value].origin.RecoveredFinished?)
      && (slots.previous.Some? ==>
            && slots.previous.value < |sh.cmds|
            && sh.cmds[slots.previous.value].support == support
            && sh.cmds[slots.previous.value].origin.RecoveredFinished?
            && sh.cmds[slots.previous.value].result.finished
            && sh.cmds[slots.previous.value].routines == 0)
    ensures |s.shared.cmds| == 0 ==> SlotsOf(Run(s, labels).value.shared, support).previous.None?
  {
    StartInv(s);
    RunFollows(s, labels);
    var sh := Run(s, labels).value.shared;
    var slots := SlotsOf(sh, support);
    if slots.previous.Some? {
      assert CommandOk(sh.cmds[slots.previous.value]);
    }
  }

  // --- stale routines are harmless

  /** The step's own share of the runtime and the stores: what a routine of `c` may touch. */
  ghost predicate OnlyOwn(sh: Shared, sh': Shared, c: CommandRef)
    requires c < |sh.cmds|
  {
    && (forall id :: id in sh.world.containers && id != sh.cmds[c].container ==>
          id in sh'.world.containers && sh'.world.containers[id] == sh.world.containers[id])
    && sh'.world.volumes == sh.world.volumes && sh'.volumeName == sh.volumeName && sh'.lost == sh.lost
    && (forall support :: SlotsOf(sh', support) == SlotsOf(sh, support)
          || (SlotsOf(sh, support).current == Some(c)
               && SlotsOf(sh', support) == SlotsOf(sh, support).(current := None)))
  }

  lemma OwnEdit(sh: Shared, c: CommandRef, cmd: Command)
    requires c < |sh.cmds|
    ensures OnlyOwn(sh, WithCommand(sh, c, cmd), c)
  { }

  lemma OwnRemove(sh: Shared, c: CommandRef, cmd: Command)
    requires c < |sh.cmds|
    ensures OnlyOwn(sh, WithoutContainer(WithCommand(sh, c, cmd), sh.cmds[c].container), c)
  { }

  lemma OwnForget(sh: Shared, c: CommandRef, cmd: Command, support: bool)
    requires c < |sh.cmds| && SlotsOf(sh, support).current == Some(c)
    ensures |WithSlots(sh, support, Forget(SlotsOf(sh, support), c)).cmds| == |sh.cmds|
    ensures OnlyOwn(sh, WithCommand(WithSlots(sh, support, Forget(SlotsOf(sh, support), c)), c, cmd), c)
  { }

  lemma OwnNothing(sh: Shared, c: CommandRef)
    requires c < |sh.cmds|
    ensures OnlyOwn(sh, sh, c)
  { }

  lemma ClearTouchesOwn(sh: Shared, pc: Pc, choice: Choice, e: Effect)
    requires pc.Routine? && ThreadOk(sh, pc) && !InRun(pc.rt) && !InJudge(pc.rt)
    requires ClearStep(sh, pc.c, pc.support, pc.context, pc.rt, choice) == Some(e)
    ensures OnlyOwn(sh, e.shared, pc.c)
  {
    hide OnlyOwn, WithCommand, WithoutContainer, WithSlots, Forget;
    var c, cmd := pc.c, sh.cmds[pc.c];
    OwnNothing(sh, c);
    match pc.rt
    case RtClearTest => OwnEdit(sh, c, cmd.(clearing := false, clearFailed := false || cmd.clearFailed));
    case RtClearExists => OwnEdit(sh, c, cmd.(clearing := false, clearFailed := true || cmd.clearFailed));
    case RtClearDestroy =>
      OwnEdit(sh, c, cmd.(clearing := false, clearFailed := true || cmd.clearFailed));
      OwnRemove(sh, c, cmd.(cleared := true));
    case RtClearForget =>
      var slots := Forget(SlotsOf(sh, pc.support), c);
      SlotsKeepCommands(sh, pc.support, slots);
      OwnForget(sh, c, cmd.(clearing := false, clearFailed := false || cmd.clearFailed), pc.support);
    case RtClose => OwnEdit(sh, c, cmd.(closes := cmd.closes + 1));
    case _ =>
  }

  lemma RunTouchesNothing(sh: Shared, pc: Pc, choice: Choice, e: Effect)
    requires pc.Routine? && pc.c < |sh.cmds| && InRun(pc.rt)
    requires RunStep(sh, pc.c, pc.support, pc.context, pc.rt, choice) == Some(e)
    ensures OnlyOwn(sh, e.shared, pc.c)
  { }

  lemma JudgeTouchesNothing(sh: Shared, pc: Pc, choice: Choice, e: Effect)
    requires pc.Routine? && pc.c < |sh.cmds| && InJudge(pc.rt)
    requires JudgeStep(sh, pc.c, pc.support, pc.context, pc.rt, choice) == Some(e)
    ensures OnlyOwn(sh, e.shared, pc.c)
  { }

  lemma RoutineTouchesOwn(sh: Shared, pc: Pc, choice: Choice, e: Effect)
    requires pc.Routine? && ThreadOk(sh, pc) && StepOf(sh, pc, choice) == Some(e)
    ensures OnlyOwn(sh, e.shared, pc.c)
  {
    if InRun(pc.rt) {
      RunTouchesNothing(sh, pc, choice, e);
    } else if InJudge(pc.rt) {
      JudgeTouchesNothing(sh, pc, choice, e);
    } else {
      ClearTouchesOwn(sh, pc, choice, e);
    }
  }

  /** In every reachable state, however late a routine runs, its step removes no
    * container but its own command's, frees no slot but its own command's, and
    * leaves every other command's container alone.
    */
  lemma StaleRoutinesHarmless(s: State, labels: seq<Label>, t: ThreadId, choice: Choice)
    requires Start(s) && Run(s, labels).Some?
    requires var s1 := Run(s, labels).value;
      t < |s1.threads| && s1.threads[t].Routine? && Next(s1, Thread(t, choice)).Some?
    ensures var s1 := Run(s, labels).value;
      var sh, sh', c := s1.shared, Next(s1, Thread(t, choice)).value.shared, s1.threads[t].c;
      && c < |sh.cmds| && OnlyOwn(sh, sh', c)
      && forall d :: 0 <= d < |sh.cmds| && d != c ==>
        (sh.cmds[d].container in sh.world.containers <==> sh.cmds[d].container in sh'.world.containers)
  {
    StartInv(s);
    RunKept(s, labels);
    var s1 := Run(s, labels).value;
    var e := StepOf(s1.shared, s1.threads[t], choice).value;
    assert ThreadOk(s1.shared, s1.threads[t]);
    RoutineTouchesOwn(s1.shared, s1.threads[t], choice, e);
    StepGood(s1.shared, s1.threads[t], choice, e);
  }

  lemma ExecuteFreesNothing(sh: Shared, pc: Pc, choice: Choice, e: Effect, support: bool)
    requires pc.Executing? && ThreadOk(sh, pc)
    requires ExecuteStep(sh, pc.support, pc.context, pc.ex, choice) == Some(e)
    requires SlotsOf(sh, support).current.Some? && PushesEmpty(sh, pc)
    ensures SlotsOf(e.shared, support).current == SlotsOf(sh, support).current
  { }

  lemma DestroyFreesAtClear(sh: Shared, pc: Pc, choice: Choice, e: Effect, support: bool)
    requires pc.Destroying? && DestroyStep(sh, pc.support, pc.failing, pc.ds, choice) == Some(e)
    requires SlotsOf(e.shared, support).current != SlotsOf(sh, support).current
    ensures pc.support == support && pc.ds.DsClear?
  { }

  lemma CallFreesNothing(sh: Shared, pc: Pc, choice: Choice, e: Effect)
    requires pc.Calling? && pc.c < |sh.cmds| && CallStep(sh, pc.c, pc.cl, choice) == Some(e)
    ensures e.shared.payload == sh.payload && e.shared.support == sh.support
  { }

  lemma FreeingStep(sh: Shared, pc: Pc, choice: Choice, e: Effect, support: bool, c: CommandRef)
    requires ThreadOk(sh, pc) && StepOf(sh, pc, choice) == Some(e) && (pc.Executing? ==> PushesEmpty(sh, pc))
    requires SlotsOf(sh, support).current == Some(c) && SlotsOf(e.shared, support).current != Some(c)
    ensures (pc.Routine? && pc.c == c) || (pc.Destroying? && pc.support == support && pc.ds.DsClear?)
  {
    match pc
    case Executing(_, _, _) => ExecuteFreesNothing(sh, pc, choice, e, support);
    case Destroying(_, _, _) => DestroyFreesAtClear(sh, pc, choice, e, support);
    case Calling(_, _) => CallFreesNothing(sh, pc, choice, e);
    case Routine(_, _, _, _) => RoutineTouchesOwn(sh, pc, choice, e);
    case _ =>
  }

  /** What is in hand is in hand because the slot is empty. */
  predicate PushesEmpty(sh: Shared, pc: Pc)
    requires pc.Executing?
  {
    pc.ex.ExPush? ==> SlotsOf(sh, pc.support).current.None?
  }

  /** A command leaves its store's current slot only through its own routine or a Destroy. */
  lemma WhoFreesCurrent(s: State, labels: seq<Label>, l: Label, support: bool, c: CommandRef)
    requires Start(s) && Run(s, labels).Some? && Next(Run(s, labels).value, l).Some?
    requires SlotsOf(Run(s, labels).value.shared, support).current == Some(c)
    requires SlotsOf(Next(Run(s, labels).value, l).value.shared, support).current != Some(c)
    ensures l.Thread? && l.t < |Run(s, labels).value.threads|
    ensures var pc := Run(s, labels).value.threads[l.t];
      (pc.Routine? && pc.c == c) || (pc.Destroying? && pc.support == support && pc.ds.DsClear?)
  {
    StartInv(s);
    RunKept(s, labels);
    var s1 := Run(s, labels).value;
    assert ThreadOk(s1.shared, s1.threads[l.t]);
    FreeingStep(s1.shared, s1.threads[l.t], l.choice, StepOf(s1.shared, s1.threads[l.t], l.choice).value, support, c);
  }

  // --- no deadlock on mutexes

  /** Thread `t` waits for a mutex that thread `u` holds. */
  predicate WaitsFor(s: State, t: ThreadId, u: ThreadId) {
    && t < |s.threads| && u < |s.threads|
    && Wanted(s.threads[t]).Some?
    && Wanted(s.threads[t]).value in s.owner && s.owner[Wanted(s.threads[t]).value] == u
  }

  /** Command mutexes come before store mutexes: a thread that holds a store mutex
    * waits for none, one that holds a command mutex waits for a store mutex only.
    */
  function Rank(pc: Pc): nat {
    match Wanted(pc)
    case None => 0
    case Some(StoreLock(_)) => 1
    case Some(CommandLock(_)) => 2
  }

  lemma LockOrder(pc: Pc)
    ensures Held(pc).store.Some? ==> Wanted(pc).None?
    ensures Held(pc).command.Some? && Wanted(pc).Some? ==> Wanted(pc).value.StoreLock?
  { }

  lemma WaitingDescends(s: State, t: ThreadId, u: ThreadId)
    requires LocksAgree(s.owner, s.threads) && WaitsFor(s, t, u)
    ensures Rank(s.threads[u]) < Rank(s.threads[t])
  {
    LockOrder(s.threads[u]);
    assert Holds(s.threads[u], Wanted(s.threads[t]).value);
  }

  lemma {:induction false} ChainDescends(s: State, chain: seq<ThreadId>)
    requires LocksAgree(s.owner, s.threads) && |chain| >= 2
    requires forall i :: 0 <= i < |chain| - 1 ==> WaitsFor(s, chain[i], chain[i + 1])
    ensures chain[0] < |s.threads| && chain[|chain| - 1] < |s.threads|
    ensures Rank(s.threads[chain[|chain| - 1]]) < Rank(s.threads[chain[0]])
    decreases |chain|
  {
    WaitingDescends(s, chain[0], chain[1]);
    if |chain| > 2 {
      assert forall i :: 0 <= i < |chain[1..]| - 1 ==> WaitsFor(s, chain[1..][i], chain[1..][i + 1]);
      ChainDescends(s, chain[1..]);
    }
  }

  /** No reachable state has a cycle of threads waiting for each other's mutexes, of any length. */
  lemma NoWaitingCycle(s: State, labels: seq<Label>, chain: seq<ThreadId>)
    requires Start(s) && Run(s, labels).Some? && |chain| >= 2
    requires forall i :: 0 <= i < |chain| - 1 ==> WaitsFor(Run(s, labels).value, chain[i], chain[i + 1])
    ensures chain[0] != chain[|chain| - 1]
  {
    StartInv(s);
    RunKept(s, labels);
    ChainDescends(Run(s, labels).value, chain);
  }

  /** A thread that holds a mutex can make its next step, even if its runtime
    * call fails, unless that step takes a mutex, the one it wants.
    */
  lemma HolderSteps(sh: Shared, pc: Pc)
    requires SharedInv(sh) && ThreadOk(sh, pc) && (Held(pc).store.Some? || Held(pc).command.Some?)
    ensures StepOf(sh, pc, CallFails).Some?
    ensures StepOf(sh, pc, CallFails).value.lock.Take? ==> Wanted(pc) == Some(StepOf(sh, pc, CallFails).value.lock.lock)
  {
    hide SharedInv, MayCreate;
    if pc.Routine? {
      RoutineHolderSteps(sh, pc);
    } else if pc.Destroying? {
      DestroyHolderSteps(sh, pc);
    }
  }

  lemma RoutineHolderSteps(sh: Shared, pc: Pc)
    requires ThreadOk(sh, pc) && pc.Routine? && (Held(pc).store.Some? || Held(pc).command.Some?)
    ensures StepOf(sh, pc, CallFails).Some?
    ensures StepOf(sh, pc, CallFails).value.lock.Take? ==> Wanted(pc) == Some(StepOf(sh, pc, CallFails).value.lock.lock)
  { }

  lemma DestroyHolderSteps(sh: Shared, pc: Pc)
    requires SharedInv(sh) && ThreadOk(sh, pc) && pc.Destroying? && Held(pc).store.Some?
    ensures StepOf(sh, pc, CallFails).Some?
    ensures !StepOf(sh, pc, CallFails).value.lock.Take?
  {
    hide ContainersApart, HandThere, CommandsOk, Accounted, FinishedLeave, ClosedLeave, Attributed;
  }

  /** The holder of some mutex does not wait for another one: it can step as soon as its runtime call returns. */
  lemma FreeHolder(s: State) returns (l: LockId)
    requires Inv(s) && s.owner != map[]
    ensures l in s.owner && s.owner[l] < |s.threads|
    ensures Held(s.threads[s.owner[l]]).store.Some? || Held(s.threads[s.owner[l]]).command.Some?
    ensures Next(s, Thread(s.owner[l], CallFails)).Some?
  {
    l :| l in s.owner;
    var t := s.owner[l];
    HolderSteps(s.shared, s.threads[t]);
    LockOrder(s.threads[t]);
    if Next(s, Thread(t, CallFails)).None? {
      l := Wanted(s.threads[t]).value;
      assert l in s.owner && l.StoreLock?;
      HolderSteps(s.shared, s.threads[s.owner[l]]);
      LockOrder(s.threads[s.owner[l]]);
    }
  }

  /** While any mutex is held, some holder can step as soon as its runtime call returns. */
  lemma SomeHolderSteps(s: State, labels: seq<Label>)
    requires Start(s) && Run(s, labels).Some? && Run(s, labels).value.owner != map[]
    ensures var s1 := Run(s, labels).value;
      exists l :: l in s1.owner && s1.owner[l] < |s1.threads| && Next(s1, Thread(s1.owner[l], CallFails)).Some?
  {
    hide Start, Inv, Next;
    StartInv(s);
    RunKept(s, labels);
    var l := FreeHolder(Run(s, labels).value);
  }
}

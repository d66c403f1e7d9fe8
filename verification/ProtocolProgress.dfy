/** From every reachable state the holders of mutexes can release them, and then
  * any routine can run to its end.
  */
module ProtocolProgress {
  import opened Wrappers
  import opened Protocol
  import opened ProtocolInvariant
  import opened ProtocolRuns
  import opened ProtocolTheorems
  import opened ProtocolWitness

  // --- steps left until a thread holds no mutex

  function ExecuteLeft(ex: ExecutePoint): nat {
    match ex
    case ExLock => 0
    case ExCheck => 3
    case ExImage => 2
    case ExCreate => 2
    case ExPush(_, _) => 2
    case ExUnlock(_) => 1
  }

  function DestroyLeft(ds: DestroyPoint): nat {
    match ds
    case DsLock => 0
    case DsStart => 5
    case DsCurrentExists => 4
    case DsCurrentDestroy => 4
    case DsPreviousExists => 3
    case DsPreviousDestroy => 3
    case DsClear => 2
    case DsUnlock => 1
    case DsVolume => 0
  }

  /** Steps left to a thread, at most, while every runtime call fails: none if it holds no mutex. */
  function HoldsFor(pc: Pc): nat {
    match pc
    case Executing(_, _, ex) => ExecuteLeft(ex)
    case Destroying(_, _, ds) => DestroyLeft(ds)
    case Getting(_, locked) => if locked then 1 else 0
    case Calling(_, cl) => if cl.ClCheckRead? || cl.ClStateRead? then 1 else 0
    case Routine(_, _, _, rt) => if HoldsStore(rt) || HoldsCommand(rt) then StepsLeft(rt) else 0
    case _ => 0
  }

  predicate HoldsSome(pc: Pc) {
    Held(pc).store.Some? || Held(pc).command.Some?
  }

  function TotalHeld(threads: seq<Pc>): nat {
    if threads == [] then 0 else TotalHeld(threads[..|threads| - 1]) + HoldsFor(threads[|threads| - 1])
  }

  lemma {:induction false} TotalUpdated(threads: seq<Pc>, t: nat, pc: Pc)
    requires t < |threads|
    ensures TotalHeld(threads[t := pc]) == TotalHeld(threads) - HoldsFor(threads[t]) + HoldsFor(pc)
    decreases |threads|
  {
    var n := |threads| - 1;
    if t == n {
      assert threads[t := pc][..n] == threads[..n];
    } else {
      assert threads[t := pc][..n] == threads[..n][t := pc];
      TotalUpdated(threads[..n], t, pc);
    }
  }

  lemma TotalAppended(threads: seq<Pc>, pc: Pc)
    ensures TotalHeld(threads + [pc]) == TotalHeld(threads) + HoldsFor(pc)
  {
    assert (threads + [pc])[..|threads|] == threads;
  }

  // --- a holder's step, every call failing

  /** The step brings its thread closer to holding nothing and changes no container. */
  ghost predicate Releases(sh: Shared, pc: Pc, e: Effect) {
    && HoldsFor(e.pc) < HoldsFor(pc)
    && (e.spawned.Some? ==> HoldsFor(e.spawned.value) == 0)
    && e.shared.world == sh.world
    && (forall c :: 0 <= c < |sh.cmds| && c < |e.shared.cmds| ==> e.shared.cmds[c].closes == sh.cmds[c].closes)
    && (pc.Routine? ==> e.pc.Routine? && e.pc.c == pc.c && !e.pc.rt.RtDone?)
  }

  lemma ExecuteReleases(sh: Shared, pc: Pc, e: Effect)
    requires pc.Executing? && HoldsSome(pc) && ExecuteStep(sh, pc.support, pc.context, pc.ex, CallFails) == Some(e)
    ensures Releases(sh, pc, e)
  {
    hide MayCreate;
  }

  lemma DestroyReleases(sh: Shared, pc: Pc, e: Effect)
    requires pc.Destroying? && HoldsSome(pc) && DestroyStep(sh, pc.support, pc.failing, pc.ds, CallFails) == Some(e)
    ensures Releases(sh, pc, e)
  { }

  lemma CallReleases(sh: Shared, pc: Pc, e: Effect)
    requires pc.Calling? && HoldsSome(pc) && pc.c < |sh.cmds| && CallStep(sh, pc.c, pc.cl, CallFails) == Some(e)
    ensures Releases(sh, pc, e)
  { }

  lemma RoutineReleases(sh: Shared, pc: Pc, e: Effect)
    requires pc.Routine? && HoldsSome(pc) && StepOf(sh, pc, CallFails) == Some(e)
    ensures Releases(sh, pc, e)
  {
    assert Unlucky(pc.rt) == CallFails;
    UnluckyEffect(sh, pc);
    UnluckyOthers(sh, pc, e);
    hide StepOf;
  }

  lemma UnluckyOthers(sh: Shared, pc: Pc, e: Effect)
    requires pc.Routine? && HoldsSome(pc) && StepOf(sh, pc, CallFails) == Some(e)
    ensures forall c :: 0 <= c < |sh.cmds| && c < |e.shared.cmds| && c != pc.c ==>
      e.shared.cmds[c].closes == sh.cmds[c].closes
  {
    hide JudgeEnd, JudgeState, Forget, SlotsOf;
  }

  lemma StepReleases(sh: Shared, pc: Pc, e: Effect)
    requires HoldsSome(pc) && StepOf(sh, pc, CallFails) == Some(e)
    ensures Releases(sh, pc, e)
  {
    hide Releases;
    match pc
    case Executing(_, _, _) => ExecuteReleases(sh, pc, e);
    case Destroying(_, _, _) => DestroyReleases(sh, pc, e);
    case Calling(_, _) => CallReleases(sh, pc, e);
    case Routine(_, _, _, _) => RoutineReleases(sh, pc, e);
    case Getting(_, _) => GetReleases(sh, pc, e);
  }

  lemma GetReleases(sh: Shared, pc: Pc, e: Effect)
    requires pc.Getting? && HoldsSome(pc) && StepOf(sh, pc, CallFails) == Some(e)
    ensures Releases(sh, pc, e)
  { }

  // --- releasing every mutex

  predicate LiveRoutine(pc: Pc, c: CommandRef) {
    pc.Routine? && pc.c == c && !pc.rt.RtDone?
  }

  /** Live routines stay live, no channel is closed and no container changes. */
  ghost predicate OnlyReleases(s: State, s': State) {
    && s'.shared.world == s.shared.world
    && |s.shared.cmds| <= |s'.shared.cmds| && |s.threads| <= |s'.threads|
    && (forall c :: 0 <= c < |s.shared.cmds| ==> s'.shared.cmds[c].closes == s.shared.cmds[c].closes)
    && (forall t :: 0 <= t < |s.threads| && s.threads[t].Routine? && !s.threads[t].rt.RtDone? ==>
          LiveRoutine(s'.threads[t], s.threads[t].c))
  }

  lemma OnlyReleasesTransitive(a: State, b: State, c: State)
    requires OnlyReleases(a, b) && OnlyReleases(b, c)
    ensures OnlyReleases(a, c)
  { }

  lemma ReleaseApplied(s: State, t: ThreadId, e: Effect)
    requires t < |s.threads| && Releases(s.shared, s.threads[t], e) && |s.shared.cmds| <= |e.shared.cmds|
    ensures OnlyReleases(s, Apply(s, t, e)) && TotalHeld(Apply(s, t, e).threads) < TotalHeld(s.threads)
  {
    TotalUpdated(s.threads, t, e.pc);
    if e.spawned.Some? {
      TotalAppended(s.threads[t := e.pc], e.spawned.value);
    } else {
      assert s.threads[t := e.pc] + [] == s.threads[t := e.pc];
    }
  }

  /** Some holder takes a step towards releasing its mutexes. */
  lemma HolderReleases(s: State) returns (l: Label)
    requires Inv(s) && s.owner != map[]
    ensures Next(s, l).Some? && Inv(Next(s, l).value)
    ensures OnlyReleases(s, Next(s, l).value) && TotalHeld(Next(s, l).value.threads) < TotalHeld(s.threads)
  {
    hide StepOf, SharedInv, ThreadOk, FreeOk, LocksAgree, CountsAgree, OnlyReleases, Releases, Follows;
    var held := FreeHolder(s);
    var t := s.owner[held];
    l := Thread(t, CallFails);
    NextFollows(s, l);
    var e := StepOf(s.shared, s.threads[t], CallFails).value;
    StepReleases(s.shared, s.threads[t], e);
    assert |s.shared.cmds| <= |e.shared.cmds| by { CommandsStay(s.shared, e.shared); }
    ReleaseApplied(s, t, e);
  }

  lemma CommandsStay(sh: Shared, sh': Shared)
    requires Follows(sh, sh')
    ensures |sh.cmds| <= |sh'.cmds|
  { }

  /** Whatever mutexes are held, their holders can release all of them, even if every runtime call fails. */
  lemma {:induction false} ReleaseAll(s: State) returns (labels: seq<Label>)
    requires Inv(s)
    ensures Run(s, labels).Some?
    ensures var s' := Run(s, labels).value; Inv(s') && s'.owner == map[] && OnlyReleases(s, s')
    decreases TotalHeld(s.threads)
  {
    hide Inv, OnlyReleases, Next;
    if s.owner == map[] {
      labels := [];
      assert OnlyReleases(s, s) by { ReleasesNothing(s); }
    } else {
      var l := HolderReleases(s);
      var s1 := Next(s, l).value;
      var rest := ReleaseAll(s1);
      labels := [l] + rest;
      assert labels[1..] == rest;
      OnlyReleasesTransitive(s, s1, Run(s1, rest).value);
    }
  }

  lemma ReleasesNothing(s: State)
    ensures OnlyReleases(s, s)
  { }

  /** From every reachable state, whatever mutexes are held and by whom, every live routine
    * can run to its end even if every runtime call fails: it closes its channel once, and
    * in the end no mutex is held.
    */
  lemma RoutineCanFinish(s: State, before: seq<Label>, t: ThreadId) returns (labels: seq<Label>)
    requires Start(s) && Run(s, before).Some?
    requires var s1 := Run(s, before).value; t < |s1.threads| && s1.threads[t].Routine? && !s1.threads[t].rt.RtDone?
    ensures Run(s, before + labels).Some?
    ensures var s1, s2 := Run(s, before).value, Run(s, before + labels).value; var c := s1.threads[t].c;
      && s2.owner == map[] && t < |s2.threads| && s2.threads[t].Routine? && s2.threads[t].rt.RtDone?
      && c < |s1.shared.cmds| <= |s2.shared.cmds|
      && s2.shared.cmds[c].closes == s1.shared.cmds[c].closes + 1
      && s2.shared.world == s1.shared.world
  {
    hide Inv, Start, OnlyReleases, Run;
    StartInv(s);
    RunKept(s, before);
    var s1 := Run(s, before).value;
    var release := ReleaseAll(s1);
    var s2 := Run(s1, release).value;
    StaysLive(s1, s2, t);
    var finish := RoutineFinishesAlone(s2, t);
    RunSplit(s, before, release);
    RunSplit(s, before + release, finish);
    labels := release + finish;
    assert before + labels == before + release + finish;
  }

  lemma StaysLive(s: State, s': State, t: ThreadId)
    requires Inv(s) && OnlyReleases(s, s')
    requires t < |s.threads| && s.threads[t].Routine? && !s.threads[t].rt.RtDone?
    ensures var c := s.threads[t].c;
      && c < |s.shared.cmds| <= |s'.shared.cmds| && s'.shared.cmds[c].closes == s.shared.cmds[c].closes
      && t < |s'.threads| && LiveRoutine(s'.threads[t], c) && s'.shared.world == s.shared.world
  {
    hide SharedInv, LocksAgree, CountsAgree, FreeOk;
    assert ThreadOk(s.shared, s.threads[t]);
  }
}

/** A run after which recovery takes over the wrong container: a Destroy whose
  * runtime calls fail forgets a container, and one more Execute puts a second
  * one beside it.
  */
module RoundTripWitness {
  import opened Wrappers
  import opened Uuids
  import opened Labels
  import opened Containers
  import opened Protocol
  import opened ProtocolInvariant
  import opened ProtocolRuns
  import opened ProtocolSlots
  import opened ProtocolWitness
  import opened RoundTrip
  import opened RoundTripTheorems
  import Recovery
  import RecoveryTheorems

  // --- runs in parts

  lemma {:induction false} DisciplinedAppend(s: State, before: seq<Label>, after: seq<Label>)
    requires Run(s, before).Some? && DisciplinedRun(s, before) && DisciplinedRun(Run(s, before).value, after)
    ensures DisciplinedRun(s, before + after)
    decreases |before|
  {
    hide Disciplined, Next;
    if before == [] {
      assert before + after == after;
    } else {
      assert (before + after)[1..] == before[1..] + after;
      DisciplinedAppend(Next(s, before[0]).value, before[1..], after);
    }
  }

  lemma {:induction false} NoCallsBegin(s: State, labels: seq<Label>)
    requires forall i :: 0 <= i < |labels| ==> labels[i].Thread? && !labels[i].choice.Begin?
    ensures DisciplinedRun(s, labels)
    decreases |labels|
  {
    if labels != [] && Next(s, labels[0]).Some? {
      assert forall i :: 0 <= i < |labels[1..]| ==> labels[1..][i] == labels[i + 1];
      NoCallsBegin(Next(s, labels[0]).value, labels[1..]);
    }
  }

  /** One call that may begin, and its steps. */
  lemma OneCall(s: State, labels: seq<Label>)
    requires labels != [] && Disciplined(s, labels[0])
    requires forall i :: 1 <= i < |labels| ==> labels[i].Thread? && !labels[i].choice.Begin?
    ensures DisciplinedRun(s, labels)
  {
    hide Next, Disciplined;
    if Next(s, labels[0]).Some? {
      NoCallsBegin(Next(s, labels[0]).value, labels[1..]);
    }
  }

  // --- Prepare

  function Prepared(sh: Shared, name: string): Shared {
    sh.(volumeName := name, world := sh.world.WithVolume(name, ResourceLabels(sh.cfg, map[])))
  }

  lemma PrepareRuns(s: State, t: ThreadId, name: string) returns (labels: seq<Label>)
    requires t < |s.threads| && s.threads[t].Idle? && !s.shared.busy && s.shared.volumeName == ""
    requires name != "" && name !in s.shared.world.volumes
    ensures Run(s, labels) == Some(At(s, t, Prepared(s.shared, name), s.owner, Idle(Done)))
    ensures DisciplinedRun(s, labels)
  {
    hide Run, Next, Disciplined, ResourceLabels;
    var sh := s.shared;
    assert s == At(s, t, sh, s.owner, s.threads[t]);
    var l1 := [Thread(t, VolumeMade(name))] + [];
    StepThen(s, t, sh, s.owner, s.threads[t], Begin(Prepare), Moved(sh.(busy := true), Preparing).value, l1);
    PrepareWorks(sh, name);
    StepThen(s, t, sh.(busy := true), s.owner, Preparing, VolumeMade(name), Moved(Prepared(sh, name), Idle(Done)).value,
      []);
    labels := [Thread(t, Begin(Prepare))] + l1;
    NoLabels(At(s, t, Prepared(sh, name), s.owner, Idle(Done)));
    assert Disciplined(s, labels[0]) by { PrepareAllowed(s, t); }
    OneCall(s, labels);
  }

  lemma PrepareAllowed(s: State, t: ThreadId)
    ensures Disciplined(s, Thread(t, Begin(Prepare)))
  { }

  lemma PrepareWorks(sh: Shared, name: string)
    requires !sh.busy && name != "" && name !in sh.world.volumes
    ensures PrepareStep(sh.(busy := true), VolumeMade(name)) == Moved(Prepared(sh, name), Idle(Done))
  { }

  // --- a Destroy whose calls fail

  /** What such a Destroy leaves: empty stores, the containers and the volume as they were. */
  function Emptied(sh: Shared, container: ContainerId): Shared {
    sh.(payload := Slots(None, None, None), support := Slots(None, None, None), lost := sh.lost + {container})
  }

  /** It holds one payload command and nothing else. */
  predicate OnePayload(sh: Shared, c: CommandRef) {
    c < |sh.cmds| && sh.payload == Slots(Some(c), None, None) && sh.support == Slots(None, None, None)
  }

  lemma DestroySteps(sh: Shared, c: CommandRef)
    requires OnePayload(sh, c)
    ensures DestroyStep(sh, false, false, DsStart, Step) == Moved(sh, Destroying(false, false, DsCurrentExists))
    ensures DestroyStep(sh, false, false, DsCurrentExists, CallFails)
      == Moved(sh.(lost := sh.lost + {sh.cmds[c].container}), Destroying(false, true, DsClear))
    ensures DestroyStep(sh.(lost := sh.lost + {sh.cmds[c].container}), false, true, DsClear, Step)
      == Moved(Emptied(sh, sh.cmds[c].container), Destroying(false, true, DsUnlock))
  { }

  lemma PayloadDestroyed(s: State, t: ThreadId, sh: Shared, c: CommandRef, labels: seq<Label>)
    requires t < |s.threads| && StoreLock(false) !in s.owner && OnePayload(sh, c)
    ensures Run(At(s, t, sh, s.owner, Destroying(false, false, DsLock)), [Thread(t, Step)] + ([Thread(t, Step)]
        + ([Thread(t, CallFails)] + ([Thread(t, Step)] + ([Thread(t, Step)] + labels)))))
      == Run(At(s, t, Emptied(sh, sh.cmds[c].container), s.owner, Destroying(true, true, DsLock)), labels)
  {
    hide Run, Next, OnePayload, Emptied;
    DestroySteps(sh, c);
    assert c < |sh.cmds| by { IsOne(sh, c); }
    var held := s.owner[StoreLock(false) := t];
    var l5 := [Thread(t, Step)] + labels;
    var l4 := [Thread(t, Step)] + l5;
    var l3 := [Thread(t, CallFails)] + l4;
    var l2 := [Thread(t, Step)] + l3;
    var lost, end := sh.(lost := sh.lost + {sh.cmds[c].container}), Emptied(sh, sh.cmds[c].container);
    StepThen(s, t, sh, s.owner, Destroying(false, false, DsLock), Step,
      Locked(sh, Destroying(false, false, DsStart), StoreLock(false)).value, l2);
    StepThen(s, t, sh, held, Destroying(false, false, DsStart), Step,
      Moved(sh, Destroying(false, false, DsCurrentExists)).value, l3);
    StepThen(s, t, sh, held, Destroying(false, false, DsCurrentExists), CallFails,
      Moved(lost, Destroying(false, true, DsClear)).value, l4);
    StepThen(s, t, lost, held, Destroying(false, true, DsClear), Step,
      Moved(end, Destroying(false, true, DsUnlock)).value, l5);
    StepThen(s, t, end, held, Destroying(false, true, DsUnlock), Step,
      Unlocked(end, Destroying(true, true, DsLock), StoreLock(false)).value, labels);
    assert held - {StoreLock(false)} == s.owner;
  }

  lemma IsOne(sh: Shared, c: CommandRef)
    requires OnePayload(sh, c)
    ensures c < |sh.cmds|
  { }

  lemma SupportDestroyed(s: State, t: ThreadId, sh: Shared, labels: seq<Label>)
    requires t < |s.threads| && StoreLock(true) !in s.owner
    requires sh.support == Slots(None, None, None) && sh.volumeName != ""
    ensures Run(At(s, t, sh, s.owner, Destroying(true, true, DsLock)), [Thread(t, Step)] + ([Thread(t, Step)]
        + ([Thread(t, Step)] + ([Thread(t, Step)] + ([Thread(t, CallFails)] + labels)))))
      == Run(At(s, t, sh.(busy := false), s.owner, Idle(Failing)), labels)
  {
    hide Run, Next;
    var held := s.owner[StoreLock(true) := t];
    var l5 := [Thread(t, CallFails)] + labels;
    var l4 := [Thread(t, Step)] + l5;
    var l3 := [Thread(t, Step)] + l4;
    var l2 := [Thread(t, Step)] + l3;
    assert WithSlots(sh, true, Slots(None, None, None)) == sh;
    StepThen(s, t, sh, s.owner, Destroying(true, true, DsLock), Step,
      Locked(sh, Destroying(true, true, DsStart), StoreLock(true)).value, l2);
    StepThen(s, t, sh, held, Destroying(true, true, DsStart), Step, Moved(sh, Destroying(true, true, DsClear)).value,
      l3);
    StepThen(s, t, sh, held, Destroying(true, true, DsClear), Step, Moved(sh, Destroying(true, true, DsUnlock)).value,
      l4);
    StepThen(s, t, sh, held, Destroying(true, true, DsUnlock), Step,
      Unlocked(sh, Destroying(true, true, DsVolume), StoreLock(true)).value, l5);
    assert held - {StoreLock(true)} == s.owner;
    StepThen(s, t, sh, s.owner, Destroying(true, true, DsVolume), CallFails,
      Moved(sh.(busy := false), Idle(Failing)).value, labels);
  }

  lemma DestroyFails(s: State, t: ThreadId, c: CommandRef) returns (labels: seq<Label>)
    requires t < |s.threads| && s.threads[t].Idle? && s.owner == map[] && !s.shared.busy && s.shared.volumeName != ""
    requires OnePayload(s.shared, c) && forall u :: 0 <= u < |s.threads| ==> !s.threads[u].Executing?
    ensures c < |s.shared.cmds|
    ensures Run(s, labels) == Some(At(s, t, Emptied(s.shared, s.shared.cmds[c].container), s.owner, Idle(Failing)))
    ensures DisciplinedRun(s, labels)
  {
    hide Run, Next, Disciplined;
    var sh := s.shared;
    var busy := sh.(busy := true);
    var end := Emptied(sh, sh.cmds[c].container);
    assert s == At(s, t, sh, s.owner, s.threads[t]);
    var supports := [Thread(t, Step)] + ([Thread(t, Step)]
      + ([Thread(t, Step)] + ([Thread(t, Step)] + ([Thread(t, CallFails)] + []))));
    var payloads := [Thread(t, Step)] + ([Thread(t, Step)]
      + ([Thread(t, CallFails)] + ([Thread(t, Step)] + ([Thread(t, Step)] + supports))));
    StepThen(s, t, sh, s.owner, s.threads[t], Begin(Destroy), Moved(busy, Destroying(false, false, DsLock)).value,
      payloads);
    PayloadDestroyed(s, t, busy, c, supports);
    SupportDestroyed(s, t, Emptied(busy, sh.cmds[c].container), []);
    NoLabels(At(s, t, end, s.owner, Idle(Failing)));
    labels := [Thread(t, Begin(Destroy))] + payloads;
    assert Disciplined(s, labels[0]) by { DestroyAllowed(s, t); }
    OneCall(s, labels);
  }

  lemma DestroyAllowed(s: State, t: ThreadId)
    requires forall u :: 0 <= u < |s.threads| ==> !s.threads[u].Executing?
    ensures Disciplined(s, Thread(t, Begin(Destroy)))
  { }

  // --- the run

  lemma ExecuteDisciplined(s: State, t: ThreadId, id: Uuid, container: ContainerId, made: Container)
      returns (labels: seq<Label>)
    requires t < |s.threads| && s.threads[t].Idle? && s.owner == map[] && !s.shared.busy && s.shared.volumeName != ""
    requires s.shared.payload.current.None? && MayCreate(s.shared, false, id, container, made)
    ensures Run(s, labels) == Some(AfterExecute(s, t, false, 0, id, container, made)) && DisciplinedRun(s, labels)
  {
    hide MayCreate, Run, Next, Disciplined;
    labels := ExecuteRuns(s, t, false, 0, id, container, made);
    assert Disciplined(s, labels[0]) by { ExecuteAllowed(s, t); }
    OneCall(s, labels);
  }

  lemma ExecuteAllowed(s: State, t: ThreadId)
    requires !s.shared.busy && s.shared.volumeName != ""
    ensures Disciplined(s, Thread(t, Begin(Execute(false, 0))))
  { }

  /** Two payload commands' containers, both mounting the volume: the first one's was
    * forgotten, the second one is current.
    */
  predicate Beside(sh: Shared, forgotten: ContainerId, running: ContainerId) {
    && |sh.cmds| == 2 && sh.cmds[0].container == forgotten && sh.cmds[1].container == running
    && !sh.cmds[0].support && !sh.cmds[1].support
    && Forgotten(sh, 0) && CurrentIn(sh, 1) && running in sh.world.containers
    && MountsVolume(sh.world.containers, forgotten, sh.volumeName)
    && MountsVolume(sh.world.containers, running, sh.volumeName)
  }

  /** The state after Prepare and one Execute. */
  function FirstStarted(s: State, t: ThreadId, name: string, id: Uuid, container: ContainerId, made: Container): State
    requires t < |s.threads|
  {
    AfterExecute(At(s, t, Prepared(s.shared, name), s.owner, Idle(Done)), t, false, 0, id, container, made)
  }

  /** The state after a Destroy whose calls fail. */
  function FirstForgotten(s: State, t: ThreadId, name: string, id: Uuid, container: ContainerId, made: Container): State
    requires t < |s.threads|
  {
    var s2 := FirstStarted(s, t, name, id, container, made);
    At(s2, t, Emptied(s2.shared, container), s2.owner, Idle(Failing))
  }

  lemma PrepareAndExecute(s: State, t: ThreadId, name: string, id: Uuid, container: ContainerId, made: Container)
      returns (labels: seq<Label>)
    requires FromScratch(s) && t < |s.threads| && name != "" && name !in s.shared.world.volumes
    requires MayCreate(Prepared(s.shared, name), false, id, container, made)
    ensures Run(s, labels) == Some(FirstStarted(s, t, name, id, container, made)) && DisciplinedRun(s, labels)
  {
    hide MayCreate, Run, DisciplinedRun, Prepared, AfterExecute;
    PreparedIsReady(s, name);
    var prepare := PrepareRuns(s, t, name);
    var s1 := At(s, t, Prepared(s.shared, name), s.owner, Idle(Done));
    var execute := ExecuteDisciplined(s1, t, id, container, made);
    RunSplit(s, prepare, execute);
    DisciplinedAppend(s, prepare, execute);
    labels := prepare + execute;
  }

  lemma PreparedIsReady(s: State, name: string)
    requires FromScratch(s)
    ensures var sh := Prepared(s.shared, name); !sh.busy && sh.payload.current.None? && sh.volumeName == name
    ensures s.owner == map[] && !s.shared.busy && s.shared.volumeName == ""
    ensures forall t :: 0 <= t < |s.threads| ==> s.threads[t] == Idle(NoReply)
  { }

  lemma StartedHoldsOne(s: State, t: ThreadId, name: string, id: Uuid, container: ContainerId, made: Container)
    requires FromScratch(s) && t < |s.threads| && name != ""
    ensures var s2 := FirstStarted(s, t, name, id, container, made);
      && OnePayload(s2.shared, 0) && s2.shared.cmds[0].container == container
      && s2.owner == map[] && !s2.shared.busy && s2.shared.volumeName != ""
      && t < |s2.threads| && s2.threads[t].Idle?
      && forall u :: 0 <= u < |s2.threads| ==> !s2.threads[u].Executing?
  {
    PreparedIsReady(s, name);
    ScratchSlots(s);
  }

  lemma ScratchSlots(s: State)
    requires FromScratch(s)
    ensures s.shared.cmds == [] && s.shared.payload == Slots(None, None, None)
    ensures s.shared.support == Slots(None, None, None)
  { }

  lemma StillCreatable(s: State, t: ThreadId, name: string, id: Uuid, container: ContainerId, made: Container,
      id': Uuid, container': ContainerId, made': Container)
    requires t < |s.threads| && MayCreate(Prepared(s.shared, name), false, id', container', made')
    requires container != container'
    ensures MayCreate(FirstForgotten(s, t, name, id, container, made).shared, false, id', container', made')
  { }

  /** The shared part after the second Execute. */
  lemma EndsShared(s: State, t: ThreadId, name: string, id: Uuid, container: ContainerId, made: Container,
      id': Uuid, container': ContainerId, made': Container)
    requires FromScratch(s) && t < |s.threads|
    ensures var s3 := FirstForgotten(s, t, name, id, container, made);
      var sh := AfterExecute(s3, t, false, 0, id', container', made').shared;
      && sh.cmds == [NewCommand(id, false, container, 0), NewCommand(id', false, container', 0)]
      && sh.payload == Slots(Some(1), None, None) && sh.volumeName == name
      && sh.world.containers == s.shared.world.containers[container := made][container' := made']
  {
    ScratchSlots(s);
    hide FromScratch, ContainerLabels, ResourceLabels;
  }

  lemma EndsBeside(s: State, t: ThreadId, name: string, id: Uuid, container: ContainerId, made: Container,
      id': Uuid, container': ContainerId, made': Container)
    requires FromScratch(s) && t < |s.threads| && container != container'
    requires MayCreate(Prepared(s.shared, name), false, id, container, made)
    requires MayCreate(Prepared(s.shared, name), false, id', container', made')
    ensures var s3 := FirstForgotten(s, t, name, id, container, made);
      Beside(AfterExecute(s3, t, false, 0, id', container', made').shared, container, container')
  {
    EndsShared(s, t, name, id, container, made, id', container', made');
    MadeMounts(s.shared, name, id, container, made);
    MadeMounts(s.shared, name, id', container', made');
    hide VolumesOf, FromScratch, MayCreate, FirstForgotten, AfterExecute, Prepared;
  }

  lemma MadeMounts(sh: Shared, name: string, id: Uuid, container: ContainerId, made: Container)
    requires MayCreate(Prepared(sh, name), false, id, container, made)
    ensures name in VolumesOf(made.mounts)
  {
    RequestMounts(sh.cfg, name, made.mounts);
  }

  /** From every executor that found nothing of its run: Prepare, Execute, a Destroy whose
    * calls about the container and the volume fail, and another Execute, all as callers
    * should call them, leave the forgotten container beside the running one.
    */
  lemma DestroyLeavesTwo(s: State, t: ThreadId, name: string, id: Uuid, container: ContainerId, made: Container,
      id': Uuid, container': ContainerId, made': Container) returns (labels: seq<Label>)
    requires FromScratch(s) && KeepsCommon(s.shared.cfg) && "" !in s.shared.world.volumes
    requires t < |s.threads| && name != "" && name !in s.shared.world.volumes && container != container'
    requires MayCreate(Prepared(s.shared, name), false, id, container, made)
    requires MayCreate(Prepared(s.shared, name), false, id', container', made')
    ensures DisciplinedRun(s, labels) && Run(s, labels).Some?
    ensures var sh := Run(s, labels).value.shared; SharedInv(sh) && Window(sh) && Beside(sh, container, container')
  {
    hide FromScratch, MayCreate, KeepsCommon, Run, DisciplinedRun, OnePayload, Emptied, AfterExecute, FirstStarted,
      Beside,
      Inv, WindowInv;
    var start := PrepareAndExecute(s, t, name, id, container, made);
    StartedHoldsOne(s, t, name, id, container, made);
    var s2 := FirstStarted(s, t, name, id, container, made);
    var destroy := DestroyFails(s2, t, 0);
    var s3 := FirstForgotten(s, t, name, id, container, made);
    StillCreatable(s, t, name, id, container, made, id', container', made');
    assert s3.threads[t].Idle? && s3.owner == map[];
    EmptiedIsReady(s2.shared, container);
    var again := ExecuteDisciplined(s3, t, id', container', made');
    RunSplit(s, start, destroy);
    DisciplinedAppend(s, start, destroy);
    RunSplit(s, start + destroy, again);
    DisciplinedAppend(s, start + destroy, again);
    labels := start + destroy + again;
    EndsBeside(s, t, name, id, container, made, id', container', made');
    ScratchWindow(s);
    RunWindow(s, labels);
    EndsInWindow(Run(s, labels).value);
  }

  lemma EmptiedIsReady(sh: Shared, container: ContainerId)
    ensures var e := Emptied(sh, container);
      e.payload.current.None? && e.busy == sh.busy && e.volumeName == sh.volumeName
  { }

  lemma EndsInWindow(s: State)
    requires Inv(s) && WindowInv(s)
    ensures SharedInv(s.shared) && Window(s.shared)
  { }

  /** If the process dies there and the runtime lists the forgotten container first, recovery
    * takes over the forgotten command and destroys the running one's container.
    */
  lemma RunningIsDestroyed(sh: Shared, env: Recovery.Env, forgotten: ContainerId, running: ContainerId)
    requires SharedInv(sh) && Window(sh) && Beside(sh, forgotten, running) && Readable(env)
    requires var ids := env.arrange(RecoveryTheorems.RoleContainers(sh.cfg, sh.world, false));
      ids != [] && ids[0] == forgotten
    requires forall id :: id in RecoveryTheorems.RoleContainers(sh.cfg, sh.world, false) && id != forgotten ==>
      !env.destroyFails(id)
    ensures var out := Recovery.RecoverStore(sh.cfg, env, sh.world, false, sh.volumeName);
      && !out.failed && out.adopted.Some? && out.adopted.value.container == forgotten
      && running !in out.world.containers
  {
    hide SharedInv, Window, Recovery.RecoverStore, Survivor, Owned, RecoveryTheorems.RoleContainers, Beside,
      MountsVolume;
    BesideMounts(sh, forgotten, running);
    FirstSurvives(sh, env, forgotten);
    BothListed(sh, forgotten, running);
    FirstListedSurvives(sh, env, false);
  }

  lemma BesideMounts(sh: Shared, forgotten: ContainerId, running: ContainerId)
    requires Beside(sh, forgotten, running)
    ensures MountsVolume(sh.world.containers, forgotten, sh.volumeName)
  { }

  lemma FirstSurvives(sh: Shared, env: Recovery.Env, id: ContainerId)
    requires var ids := env.arrange(RecoveryTheorems.RoleContainers(sh.cfg, sh.world, false)); ids != [] && ids[0] == id
    requires MountsVolume(sh.world.containers, id, sh.volumeName)
    ensures Survivor(sh, env, false) == Some(id)
  { }

  lemma BothListed(sh: Shared, forgotten: ContainerId, running: ContainerId)
    requires SharedInv(sh) && Window(sh) && Beside(sh, forgotten, running)
    ensures running in RecoveryTheorems.RoleContainers(sh.cfg, sh.world, false) && running != forgotten
    ensures running in sh.world.containers
  {
    hide CommandIdOf, QueryLabels, Matches, OnlyOurs, VolumeOk, SlotMounted, KeepsCommon, HandLabelled, FinishedLeave,
      ClosedLeave, Attributed, CommandsOk, HandThere, Accounted;
    assert LabelledFor(sh.cfg, sh.world.containers, sh.cmds[1].container, sh.cmds[1].id, sh.cmds[1].support);
  }
}

/** Crash recovery read against the protocol: from every state between Prepare
  * and Destroy, a fresh executor over the same runtime takes over what exists.
  */
module RoundTrip {
  import opened Wrappers
  import opened Uuids
  import opened Labels
  import opened Containers
  import opened CommandResults
  import opened PodmanAttach
  import opened Protocol
  import opened ProtocolInvariant
  import opened StepProofs
  import opened ProtocolRuns

  // --- how callers must use the executor

  /** Execute only between Prepare and Destroy: never without a volume, never beside a Destroy. */
  ghost predicate Disciplined(s: State, l: Label) {
    l.Thread? && l.t < |s.threads| && s.threads[l.t].Idle? && l.choice.Begin? ==>
      && (l.choice.op.Execute? ==> s.shared.volumeName != "" && !s.shared.busy)
      && (l.choice.op.Destroy? ==> forall u :: 0 <= u < |s.threads| ==> !s.threads[u].Executing?)
  }

  ghost predicate DisciplinedRun(s: State, labels: seq<Label>)
    decreases |labels|
  {
    labels == [] || (Disciplined(s, labels[0])
      && (Next(s, labels[0]).Some? ==> DisciplinedRun(Next(s, labels[0]).value, labels[1..])))
  }

  // --- what holds in such runs

  /** Labels that the queries of the role find and that name the command. */
  predicate Bears(cfg: Config, labels: LabelMap, cmd: Uuid, support: bool) {
    Matches(QueryLabels(cfg, support), labels) && CommandIdOf(labels) == Some(cmd)
  }

  /** A container of this run: labelled for its command and role. */
  predicate LabelledFor(cfg: Config, containers: map<ContainerId, Container>, id: ContainerId, cmd: Uuid,
      support: bool) {
    id in containers ==> Bears(cfg, containers[id].labels, cmd, support)
  }

  ghost predicate Labelled(cfg: Config, cmds: seq<Command>, containers: map<ContainerId, Container>) {
    forall c :: 0 <= c < |cmds| ==>
      LabelledFor(cfg, containers, cmds[c].container, cmds[c].id, cmds[c].support)
  }

  ghost predicate HandLabelled(cfg: Config, containers: map<ContainerId, Container>, hand: Option<Created>,
      support: bool) {
    hand.Some? ==> LabelledFor(cfg, containers, hand.value.container, hand.value.id, support)
  }

  ghost predicate IsOurs(cmds: seq<Command>, hand: Option<Created>, hand': Option<Created>, id: ContainerId) {
    (exists c :: 0 <= c < |cmds| && cmds[c].container == id) || IsInHand(hand, id) || IsInHand(hand', id)
  }

  /** Only this executor's containers carry the run's labels. */
  ghost predicate OnlyOurs(cfg: Config, cmds: seq<Command>, hand: Option<Created>, hand': Option<Created>,
    containers: map<ContainerId, Container>)
  {
    forall id :: id in containers ==>
      OursIfMatching(cfg, containers[id].labels, cmds, hand, hand', id)
  }

  ghost predicate OursIfMatching(cfg: Config, labels: LabelMap, cmds: seq<Command>, hand: Option<Created>,
      hand': Option<Created>, id: ContainerId) {
    Matches(QueryLabels(cfg, false), labels) || Matches(QueryLabels(cfg, true), labels) ==>
      IsOurs(cmds, hand, hand', id)
  }

  ghost predicate VolumeOk(cfg: Config, volumes: map<string, LabelMap>, volumeName: string) {
    && "" !in volumes
    && (volumeName != "" ==> volumeName in volumes)
    && (forall n :: n in volumes ==> (Matches(CommonLabels(cfg), volumes[n]) <==> n == volumeName))
  }

  predicate MountsVolume(containers: map<ContainerId, Container>, id: ContainerId, volumeName: string) {
    id in containers ==> volumeName in VolumesOf(containers[id].mounts)
  }

  /** What a store refers to mounts the executor's volume. */
  ghost predicate SlotMounted(cmds: seq<Command>, slots: Slots, containers: map<ContainerId, Container>,
      volumeName: string) {
    && (slots.current.Some? ==>
          slots.current.value < |cmds| && MountsVolume(containers, cmds[slots.current.value].container, volumeName))
    && (slots.previous.Some? ==>
          slots.previous.value < |cmds| && MountsVolume(containers, cmds[slots.previous.value].container, volumeName))
    && (slots.inHand.Some? ==> MountsVolume(containers, slots.inHand.value.container, volumeName))
  }

  predicate Empty(slots: Slots) {
    slots.current.None? && slots.previous.None? && slots.inHand.None?
  }

  ghost predicate Window(sh: Shared) {
    && KeepsCommon(sh.cfg)
    && Labelled(sh.cfg, sh.cmds, sh.world.containers)
    && HandLabelled(sh.cfg, sh.world.containers, sh.payload.inHand, false)
    && HandLabelled(sh.cfg, sh.world.containers, sh.support.inHand, true)
    && OnlyOurs(sh.cfg, sh.cmds, sh.payload.inHand, sh.support.inHand, sh.world.containers)
    && VolumeOk(sh.cfg, sh.world.volumes, sh.volumeName)
    && SlotMounted(sh.cmds, sh.payload, sh.world.containers, sh.volumeName)
    && SlotMounted(sh.cmds, sh.support, sh.world.containers, sh.volumeName)
    && (sh.volumeName == "" ==> Empty(sh.payload) && Empty(sh.support))
  }

  predicate InLifecycle(pc: Pc) {
    pc.Preparing? || pc.Destroying?
  }

  ghost predicate PcWindow(sh: Shared, pc: Pc) {
    match pc
    case Executing(_, _, _) => !sh.busy && sh.volumeName != ""
    case Preparing => sh.busy && sh.volumeName == ""
    case Destroying(support, _, ds) =>
      && sh.busy
      && (support ==> Empty(sh.payload))
      && (ds.DsUnlock? || ds.DsVolume? ==> Empty(SlotsOf(sh, support)))
      && (ds.DsVolume? ==> support)
    case _ => true
  }

  ghost predicate WindowInv(s: State) {
    && Window(s.shared)
    && (forall t :: 0 <= t < |s.threads| ==> PcWindow(s.shared, s.threads[t]))
    && (forall t, u ::
         0 <= t < |s.threads| && 0 <= u < |s.threads|
         && InLifecycle(s.threads[t]) && InLifecycle(s.threads[u]) ==>
           t == u)
  }

  // --- steps that leave the window as it is

  ghost predicate CalmSlots(a: Slots, b: Slots) {
    a.inHand == b.inHand && (a.current == b.current || b.current.None?)
      && (a.previous == b.previous || b.previous.None?)
  }

  /** Slots only lose commands, containers only disappear or change state. */
  ghost predicate Calm(sh: Shared, sh': Shared) {
    && sh'.cfg == sh.cfg && sh'.volumeName == sh.volumeName && sh'.busy == sh.busy
    && sh'.world.volumes == sh.world.volumes
    && |sh'.cmds| == |sh.cmds|
    && (forall c :: 0 <= c < |sh.cmds| ==> Evolves(sh.cmds[c], sh'.cmds[c]))
    && CalmSlots(sh.payload, sh'.payload) && CalmSlots(sh.support, sh'.support)
    && (forall id :: id in sh'.world.containers ==>
          && id in sh.world.containers
          && sh'.world.containers[id].labels == sh.world.containers[id].labels
          && sh'.world.containers[id].mounts == sh.world.containers[id].mounts)
  }

  lemma CalmKeeps(sh: Shared, sh': Shared)
    requires Window(sh) && Calm(sh, sh')
    ensures Window(sh')
  {
    hide QueryLabels, CommandIdOf, CommonLabels, Matches, VolumesOf, KeepsCommon;
    forall id | id in sh'.world.containers
      ensures OursIfMatching(sh'.cfg, sh'.world.containers[id].labels, sh'.cmds, sh'.payload.inHand,
        sh'.support.inHand, id)
    {
      assert OursIfMatching(sh.cfg, sh.world.containers[id].labels, sh.cmds, sh.payload.inHand, sh.support.inHand, id);
      if c :| 0 <= c < |sh.cmds| && sh.cmds[c].container == id {
        assert sh'.cmds[c].container == id;
      }
    }
  }

  lemma CalmPc(sh: Shared, sh': Shared, pc: Pc)
    requires PcWindow(sh, pc) && Calm(sh, sh')
    ensures PcWindow(sh', pc)
  { }

  /** One command's history grows. */
  lemma EditCalm(sh: Shared, c: CommandRef, cmd: Command)
    requires c < |sh.cmds| && Evolves(sh.cmds[c], cmd)
    ensures Calm(sh, WithCommand(sh, c, cmd))
  { }

  lemma RemoveCalm(sh: Shared, id: ContainerId)
    ensures Calm(sh, WithoutContainer(sh, id))
  { }

  lemma CalmTransitive(a: Shared, b: Shared, c: Shared)
    requires Calm(a, b) && Calm(b, c)
    ensures Calm(a, c)
  { }

  lemma SlotsCalm(sh: Shared, support: bool, slots: Slots)
    requires CalmSlots(SlotsOf(sh, support), slots)
    ensures Calm(sh, WithSlots(sh, support, slots))
  { }

  lemma CallCalm(sh: Shared, pc: Pc, choice: Choice, e: Effect)
    requires pc.Calling? && pc.c < |sh.cmds| && CallStep(sh, pc.c, pc.cl, choice) == Some(e)
    ensures Calm(sh, e.shared) && !e.pc.Executing? && !InLifecycle(e.pc)
  {
    hide Calm, WithCommand, WithoutContainer;
    StaysCalm(sh);
    var cmd := sh.cmds[pc.c];
    match pc.cl
    case ClOnce(x) => EditCalm(sh, pc.c,
      cmd.(once := true, routines := cmd.routines + 1, contexts := cmd.contexts + {x}));
    case ClKillExists => EditCalm(sh, pc.c, cmd.(killAsked := true));
    case ClKillDestroy => RemoveCalm(sh, cmd.container);
    case _ =>
  }

  lemma StaysCalm(sh: Shared)
    ensures Calm(sh, sh)
  { }

  lemma RunCalm(sh: Shared, pc: Pc, choice: Choice, e: Effect)
    requires pc.Routine? && pc.c < |sh.cmds| && InRun(pc.rt)
    requires RunStep(sh, pc.c, pc.support, pc.context, pc.rt, choice) == Some(e)
    ensures Calm(sh, e.shared) && e.pc.Routine? && e.spawned.None?
  { }

  lemma SettleCalm(sh: Shared, pc: Pc, j: Judgement, e: Effect)
    requires pc.Routine? && pc.c < |sh.cmds| && Settle(sh, pc.c, pc.support, pc.context, j) == Some(e)
    requires j.Judgement? && sh.cmds[pc.c].result.finished ==> j.result.finished
    ensures Calm(sh, e.shared) && e.pc.Routine? && e.spawned.None?
  {
    hide Calm, WithCommand;
    StaysCalm(sh);
    if j.Judgement? {
      EditCalm(sh, pc.c, sh.cmds[pc.c].(result := j.result, verdict := Some(j.verdict), clearing := true));
    }
  }

  /** A judgement never takes a finished result back. */
  lemma JudgementFinishes(r: CommandResult, present: bool, end: RunEnd, containers: map<ContainerId, Container>,
      id: ContainerId, choice: Choice)
    ensures var j := JudgeEnd(r, present, end, choice); j.Judgement? && r.finished ==> j.result.finished
    ensures var j := JudgeState(r, containers, id, choice); j.Judgement? && r.finished ==> j.result.finished
  { }

  lemma JudgeCalm(sh: Shared, pc: Pc, choice: Choice, e: Effect)
    requires pc.Routine? && pc.c < |sh.cmds| && InJudge(pc.rt)
    requires JudgeStep(sh, pc.c, pc.support, pc.context, pc.rt, choice) == Some(e)
    ensures Calm(sh, e.shared) && e.pc.Routine? && e.spawned.None?
  {
    hide Calm, Settle, JudgeEnd, JudgeState;
    StaysCalm(sh);
    var r, id := sh.cmds[pc.c].result, sh.cmds[pc.c].container;
    match pc.rt
    case RtLock(_) =>
    case RtCheck(end) =>
      JudgementFinishes(r, id in sh.world.containers, end, sh.world.containers, id, choice);
      SettleCalm(sh, pc, JudgeEnd(r, id in sh.world.containers, end, choice), e);
    case RtState =>
      JudgementFinishes(r, id in sh.world.containers, Completed, sh.world.containers, id, choice);
      SettleCalm(sh, pc, JudgeState(r, sh.world.containers, id, choice), e);
    case _ =>
  }

  lemma OverCalm(sh: Shared, c: CommandRef, support: bool, x: ContextId, failed: bool)
    requires c < |sh.cmds|
    ensures Calm(sh, ClearingOver(sh, c, support, x, failed).value.shared)
  {
    EditCalm(sh, c, sh.cmds[c].(clearing := false, clearFailed := failed || sh.cmds[c].clearFailed));
  }

  lemma ClearCalm(sh: Shared, pc: Pc, choice: Choice, e: Effect)
    requires pc.Routine? && pc.c < |sh.cmds| && !InRun(pc.rt) && !InJudge(pc.rt)
    requires ClearStep(sh, pc.c, pc.support, pc.context, pc.rt, choice) == Some(e)
    ensures Calm(sh, e.shared) && e.pc.Routine? && e.spawned.None?
  {
    hide Calm, WithCommand, WithoutContainer, WithSlots;
    StaysCalm(sh);
    var c, cmd := pc.c, sh.cmds[pc.c];
    match pc.rt
    case RtClearTest => OverCalm(sh, c, pc.support, pc.context, false);
    case RtClearExists => OverCalm(sh, c, pc.support, pc.context, true);
    case RtClearDestroy =>
      OverCalm(sh, c, pc.support, pc.context, true);
      RemovedCalm(sh, c);
    case RtClearForget => ForgottenCalm(sh, c, pc.support, pc.context);
    case RtClose => EditCalm(sh, c, cmd.(closes := cmd.closes + 1));
    case _ =>
  }

  lemma RemovedCalm(sh: Shared, c: CommandRef)
    requires c < |sh.cmds|
    ensures Calm(sh, WithoutContainer(WithCommand(sh, c, sh.cmds[c].(cleared := true)), sh.cmds[c].container))
  {
    var mid := WithCommand(sh, c, sh.cmds[c].(cleared := true));
    EditCalm(sh, c, sh.cmds[c].(cleared := true));
    RemoveCalm(mid, sh.cmds[c].container);
    CalmTransitive(sh, mid, WithoutContainer(mid, sh.cmds[c].container));
  }

  lemma ForgottenCalm(sh: Shared, c: CommandRef, support: bool, x: ContextId)
    requires c < |sh.cmds|
    ensures |WithSlots(sh, support, Forget(SlotsOf(sh, support), c)).cmds| == |sh.cmds|
    ensures Calm(sh,
      ClearingOver(WithSlots(sh, support, Forget(SlotsOf(sh, support), c)), c, support, x, false).value.shared)
  {
    var mid := WithSlots(sh, support, Forget(SlotsOf(sh, support), c));
    SlotsCalm(sh, support, Forget(SlotsOf(sh, support), c));
    OverCalm(mid, c, support, x, false);
    hide Calm;
    CalmTransitive(sh, mid, ClearingOver(mid, c, support, x, false).value.shared);
  }

  lemma RoutineCalm(sh: Shared, pc: Pc, choice: Choice, e: Effect)
    requires pc.Routine? && StepOf(sh, pc, choice) == Some(e)
    ensures Calm(sh, e.shared) && e.pc.Routine? && e.spawned.None?
  {
    if InRun(pc.rt) {
      RunCalm(sh, pc, choice, e);
    } else if InJudge(pc.rt) {
      JudgeCalm(sh, pc, choice, e);
    } else {
      ClearCalm(sh, pc, choice, e);
    }
  }

  lemma LostCalm(sh: Shared, id: ContainerId)
    ensures Calm(sh, sh.(lost := sh.lost + {id}))
  { }

  lemma DestroyCallCalm(sh: Shared, pc: Pc, choice: Choice, e: Effect)
    requires pc.Destroying? && IsCall(pc.ds) && PcWindow(sh, pc)
    requires DestroyCallStep(sh, pc.support, pc.failing, pc.ds, choice) == Some(e)
    ensures Calm(sh, e.shared) && PcWindow(e.shared, e.pc) && e.pc.Destroying?
  {
    hide WindowInv;
    var slots := SlotsOf(sh, pc.support);
    var c := DestroyTarget(slots, pc.ds).value;
    LostCalm(sh, sh.cmds[c].container);
    RemoveCalm(sh, sh.cmds[c].container);
    EditCalm(sh, c, sh.cmds[c].(destroyAsked := true));
    StaysCalm(sh);
    hide Calm, WithCommand, WithoutContainer;
    DestroyCallTurns(sh, pc, choice, e);
  }

  /** A Destroy's runtime call leaves the volume, the stores and the lock on the life cycle alone. */
  lemma DestroyCallTurns(sh: Shared, pc: Pc, choice: Choice, e: Effect)
    requires pc.Destroying? && IsCall(pc.ds) && PcWindow(sh, pc)
    requires DestroyCallStep(sh, pc.support, pc.failing, pc.ds, choice) == Some(e)
    ensures PcWindow(e.shared, e.pc) && e.pc.Destroying?
  { }

  lemma DestroyCalm(sh: Shared, pc: Pc, choice: Choice, e: Effect)
    requires pc.Destroying? && !IsCall(pc.ds) && !pc.ds.DsVolume? && ThreadOk(sh, pc) && PcWindow(sh, pc)
    requires DestroyStep(sh, pc.support, pc.failing, pc.ds, choice) == Some(e)
    ensures Calm(sh, e.shared) && PcWindow(e.shared, e.pc) && e.pc.Destroying?
  {
    StaysCalm(sh);
    ForgetCalm(sh, pc);
    hide Calm;
  }

  lemma ForgetCalm(sh: Shared, pc: Pc)
    requires pc.Destroying? && ThreadOk(sh, pc)
    ensures pc.ds.DsClear? ==> Calm(sh, WithSlots(sh, pc.support, Slots(None, None, None)))
  { }

  // --- the volume comes and goes

  lemma VolumeAdded(cfg: Config, volumes: map<string, LabelMap>, name: string)
    requires KeepsCommon(cfg) && VolumeOk(cfg, volumes, "") && name != "" && name !in volumes
    ensures VolumeOk(cfg, volumes[name := ResourceLabels(cfg, map[])], name)
  {
    QueryFindsVolume(cfg);
    hide Matches, CommonLabels, ResourceLabels, KeepsCommon;
  }

  lemma VolumeRemoved(cfg: Config, volumes: map<string, LabelMap>, name: string)
    requires VolumeOk(cfg, volumes, name) && name != ""
    ensures VolumeOk(cfg, volumes - {name}, "")
  {
    hide Matches, CommonLabels;
  }

  lemma PrepareWindow(sh: Shared, pc: Pc, choice: Choice, e: Effect)
    requires pc.Preparing? && Window(sh) && PcWindow(sh, pc) && PrepareStep(sh, choice) == Some(e)
    ensures Window(e.shared) && e.pc.Idle? && e.spawned.None?
  {
    if choice.VolumeMade? {
      VolumeAdded(sh.cfg, sh.world.volumes, choice.name);
    }
    hide ResourceLabels, CommonLabels, Bears, QueryLabels, Matches, VolumesOf, VolumeOk, KeepsCommon;
  }

  lemma DestroyVolumeWindow(sh: Shared, pc: Pc, choice: Choice, e: Effect)
    requires pc.Destroying? && pc.ds.DsVolume? && Window(sh) && PcWindow(sh, pc)
    requires DestroyStep(sh, pc.support, pc.failing, pc.ds, choice) == Some(e)
    ensures Window(e.shared) && e.pc.Idle? && e.spawned.None?
  {
    if sh.volumeName != "" {
      VolumeRemoved(sh.cfg, sh.world.volumes, sh.volumeName);
    }
    hide ResourceLabels, CommonLabels, Bears, QueryLabels, Matches, VolumesOf, VolumeOk, KeepsCommon;
  }

  // --- an Execute adds one of ours

  lemma RequestMounts(cfg: Config, volumeName: string, mounts: seq<Mount>)
    requires Mounted(RequestedVolumes(cfg, volumeName), mounts)
    ensures volumeName in VolumesOf(mounts)
  {
    MountsReadBack(RequestedVolumes(cfg, volumeName), mounts);
  }

  /** The container just made carries its labels and mounts the volume. */
  ghost predicate Proper(cfg: Config, volumeName: string, support: bool, id: Uuid, made: Container) {
    Bears(cfg, made.labels, id, support) && volumeName in VolumesOf(made.mounts)
  }

  lemma MadeProper(sh: Shared, support: bool, id: Uuid, container: ContainerId, made: Container)
    requires MayCreate(sh, support, id, container, made) && Window(sh)
    ensures Proper(sh.cfg, sh.volumeName, support, id, made) && container !in sh.world.used
  {
    RequestMounts(sh.cfg, sh.volumeName, made.mounts);
    QueryFindsContainer(sh.cfg, id, support, support);
    LabelsReadBack(sh.cfg, id, support);
    hide KeepsCommon, Matches, QueryLabels, ContainerLabels, CommandIdOf, VolumesOf;
  }

  lemma StillOnlyOurs(cfg: Config, cmds: seq<Command>, hand: Option<Created>, hand': Option<Created>, support: bool,
      world: World, created: Created, made: Container)
    requires OnlyOurs(cfg, cmds, hand, hand', world.containers)
    requires if support then hand'.None? else hand.None?
    ensures OnlyOurs(cfg, cmds, if support then hand else Some(created), if support then Some(created) else hand',
      world.With(created.container, made).containers)
  {
    hide Matches, QueryLabels;
    var after := world.With(created.container, made).containers;
    forall k | k in after
      ensures OursIfMatching(cfg, after[k].labels, cmds,
        if support then hand else Some(created), if support then Some(created) else hand', k)
    {
      if k != created.container {
        assert OursIfMatching(cfg, world.containers[k].labels, cmds, hand, hand', k);
      }
    }
  }

  /** What is said about labels and mounts stays true when a new container is added. */
  lemma GrownWindow(sh: Shared, containers: map<ContainerId, Container>, id: ContainerId, made: Container)
    requires SharedInv(sh) && Window(sh) && id !in sh.world.used && containers == sh.world.containers[id := made]
    ensures Labelled(sh.cfg, sh.cmds, containers)
    ensures HandLabelled(sh.cfg, containers, sh.payload.inHand, false)
    ensures HandLabelled(sh.cfg, containers, sh.support.inHand, true)
    ensures SlotMounted(sh.cmds, sh.payload, containers, sh.volumeName)
    ensures SlotMounted(sh.cmds, sh.support, containers, sh.volumeName)
  {
    hide Bears, VolumesOf, VolumeOk, KeepsCommon, OnlyOurs, Accounted, FinishedLeave, ClosedLeave, Attributed,
      CommandsOk, HandThere;
  }

  /** A fresh container in hand: everything said about the others stays true. */
  lemma CreatedWindow(sh: Shared, support: bool, created: Created, made: Container)
    requires Window(sh) && SharedInv(sh) && SlotsOf(sh, support).inHand.None?
    requires sh.volumeName != "" && Proper(sh.cfg, sh.volumeName, support, created.id, made)
    requires created.container !in sh.world.used
    ensures Window(WithSlots(sh, support, SlotsOf(sh, support).(inHand := Some(created)))
      .(world := sh.world.With(created.container, made)))
  {
    StillOnlyOurs(sh.cfg, sh.cmds, sh.payload.inHand, sh.support.inHand, support, sh.world, created, made);
    GrownWindow(sh, sh.world.With(created.container, made).containers, created.container, made);
    hide Bears, VolumesOf, VolumeOk, KeepsCommon, OnlyOurs, Labelled, SharedInv;
  }

  /** The container in hand becomes the current command's. */
  lemma PushedWindow(sh: Shared, support: bool, x: ContextId, hand: Created)
    requires Window(sh) && SharedInv(sh) && SlotsOf(sh, support).inHand == Some(hand) && sh.volumeName != ""
    ensures Window(WithSlots(sh, support, Push(SlotsOf(sh, support), |sh.cmds|))
      .(cmds := sh.cmds + [NewCommand(hand.id, support, hand.container, x)]))
  {
    hide ResourceLabels, CommonLabels, Bears, QueryLabels, Matches, VolumesOf, VolumeOk, KeepsCommon;
    var c := |sh.cmds|;
    var sh' := WithSlots(sh, support, Push(SlotsOf(sh, support), c))
      .(cmds := sh.cmds + [NewCommand(hand.id, support, hand.container, x)]);
    assert sh'.cmds[c].container == hand.container;
    forall k | k in sh'.world.containers
      ensures OursIfMatching(sh'.cfg, sh'.world.containers[k].labels, sh'.cmds, sh'.payload.inHand,
        sh'.support.inHand, k)
    {
      assert OursIfMatching(sh.cfg, sh.world.containers[k].labels, sh.cmds, sh.payload.inHand, sh.support.inHand, k);
      if d :| 0 <= d < c && sh.cmds[d].container == k {
        assert sh'.cmds[d].container == k;
      }
    }
  }

  // --- every step of a disciplined run keeps the window

  /** What a step owes the window and its own thread. */
  ghost predicate OwnWindow(sh: Shared, pc: Pc, e: Effect) {
    && Window(e.shared) && PcWindow(e.shared, e.pc)
    && (InLifecycle(e.pc) ==> InLifecycle(pc) || !sh.busy)
    && (e.spawned.Some? ==> e.spawned.value.Routine?)
  }

  /** Why the other threads' part of the window stays. */
  ghost predicate SpareOthers(sh: Shared, pc: Pc, e: Effect) {
    || Calm(sh, e.shared)
    || (pc.Executing? && e.shared.busy == sh.busy && e.shared.volumeName == sh.volumeName)
    || (InLifecycle(pc) && sh.busy)
    || (InLifecycle(e.pc) && !sh.busy)
  }

  lemma BeginWindow(sh: Shared, op: Operation, e: Effect)
    requires Window(sh) && BeginStep(sh, op) == Some(e)
    requires op.Execute? ==> sh.volumeName != "" && !sh.busy
    ensures OwnWindow(sh, Idle(NoReply), e) && SpareOthers(sh, Idle(NoReply), e)
    ensures InLifecycle(e.pc) ==> op.Destroy? || sh.volumeName == ""
  {
    StaysCalm(sh);
    hide Labelled, OnlyOurs, VolumeOk, SlotMounted, HandLabelled, KeepsCommon, Calm;
  }

  lemma ExecuteMoves(sh: Shared, pc: Pc, choice: Choice, e: Effect)
    requires pc.Executing? && !pc.ex.ExCreate? && !pc.ex.ExPush?
    requires ExecuteStep(sh, pc.support, pc.context, pc.ex, choice) == Some(e)
    ensures e.shared == sh && !InLifecycle(e.pc) && e.spawned.None?
  { }

  lemma ExecuteWindow(sh: Shared, pc: Pc, choice: Choice, e: Effect)
    requires Window(sh) && SharedInv(sh) && pc.Executing? && ThreadOk(sh, pc) && PcWindow(sh, pc)
    requires ExecuteStep(sh, pc.support, pc.context, pc.ex, choice) == Some(e)
    ensures OwnWindow(sh, pc, e) && SpareOthers(sh, pc, e) && (InLifecycle(e.pc) ==> InLifecycle(pc))
  {
    hide Window, SharedInv, Calm, MayCreate;
    StaysCalm(sh);
    if pc.ex.ExCreate? {
      if choice.Made? {
        MadeProper(sh, pc.support, choice.id, choice.container, choice.made);
        CreatedWindow(sh, pc.support, Created(choice.id, choice.container), choice.made);
      }
    } else if pc.ex.ExPush? {
      PushedWindow(sh, pc.support, pc.context, Created(pc.ex.id, pc.ex.container));
    } else {
      ExecuteMoves(sh, pc, choice, e);
    }
  }

  lemma PcStepWindow(sh: Shared, pc: Pc, choice: Choice, e: Effect)
    requires Window(sh) && SharedInv(sh) && ThreadOk(sh, pc) && PcWindow(sh, pc) && !pc.Idle?
    requires StepOf(sh, pc, choice) == Some(e)
    ensures OwnWindow(sh, pc, e) && SpareOthers(sh, pc, e) && (InLifecycle(e.pc) ==> InLifecycle(pc))
  {
    hide Window, SharedInv, Calm, ExecuteStep, PrepareStep, DestroyStep, DestroyCallStep, CallStep, RunStep, JudgeStep,
      ClearStep;
    match pc
    case Executing(_, _, _) => ExecuteWindow(sh, pc, choice, e);
    case Preparing => PrepareWindow(sh, pc, choice, e);
    case Destroying(_, _, ds) => DestroyWindow(sh, pc, choice, e);
    case Getting(_, _) =>
      StaysCalm(sh);
    case Calling(_, _) =>
      CallCalm(sh, pc, choice, e);
      CalmKeeps(sh, e.shared);
      CallSpawns(sh, pc, choice, e);
    case Routine(_, _, _, _) =>
      RoutineCalm(sh, pc, choice, e);
      CalmKeeps(sh, e.shared);
  }

  lemma CallSpawns(sh: Shared, pc: Pc, choice: Choice, e: Effect)
    requires pc.Calling? && pc.c < |sh.cmds| && CallStep(sh, pc.c, pc.cl, choice) == Some(e)
    ensures e.spawned.Some? ==> e.spawned.value.Routine?
  { }

  lemma DestroyWindow(sh: Shared, pc: Pc, choice: Choice, e: Effect)
    requires Window(sh) && pc.Destroying? && ThreadOk(sh, pc) && PcWindow(sh, pc)
    requires DestroyStep(sh, pc.support, pc.failing, pc.ds, choice) == Some(e)
    ensures OwnWindow(sh, pc, e) && SpareOthers(sh, pc, e) && (InLifecycle(e.pc) ==> InLifecycle(pc))
  {
    if pc.ds.DsVolume? {
      DestroyVolumeWindow(sh, pc, choice, e);
      hide Window;
    } else {
      if IsCall(pc.ds) {
        DestroyCallCalm(sh, pc, choice, e);
      } else {
        DestroyCalm(sh, pc, choice, e);
      }
      CalmKeeps(sh, e.shared);
      hide Window, Calm;
    }
  }

  /** Callers run the life cycle one at a time, and never beside an Execute. */
  ghost predicate OthersAllow(s: State, t: ThreadId, e: Effect) {
    && (forall u, v ::
         0 <= u < |s.threads| && 0 <= v < |s.threads|
         && InLifecycle(s.threads[u]) && InLifecycle(s.threads[v]) ==>
           u == v)
    && (InLifecycle(e.pc) && !s.shared.busy ==> forall u :: 0 <= u < |s.threads| ==> !s.threads[u].Executing?)
  }

  lemma OthersWindow(s: State, t: ThreadId, e: Effect, u: ThreadId)
    requires WindowInv(s) && t < |s.threads| && u < |s.threads| && u != t
    requires SpareOthers(s.shared, s.threads[t], e) && OthersAllow(s, t, e)
    ensures PcWindow(e.shared, s.threads[u])
  {
    hide Window, Calm;
    if Calm(s.shared, e.shared) {
      CalmPc(s.shared, e.shared, s.threads[u]);
    }
    assert PcWindow(s.shared, s.threads[u]) && PcWindow(s.shared, s.threads[t]);
  }

  lemma WindowAfter(s: State, t: ThreadId, e: Effect)
    requires WindowInv(s) && t < |s.threads|
    requires OwnWindow(s.shared, s.threads[t], e) && SpareOthers(s.shared, s.threads[t], e) && OthersAllow(s, t, e)
    ensures WindowInv(Apply(s, t, e))
  {
    hide Window, SpareOthers;
    var s' := Apply(s, t, e);
    forall u | 0 <= u < |s.threads| && u != t ensures PcWindow(e.shared, s.threads[u]) {
      OthersWindow(s, t, e, u);
    }
    forall u | 0 <= u < |s'.threads|
      ensures PcWindow(s'.shared, s'.threads[u])
      ensures InLifecycle(s'.threads[u]) ==> u < |s.threads| && (u == t || s'.threads[u] == s.threads[u])
    { }
    forall u, v | 0 <= u < |s'.threads| && 0 <= v < |s'.threads|
      && InLifecycle(s'.threads[u]) && InLifecycle(s'.threads[v])
      ensures u == v
    {
      if u != t {
        assert PcWindow(s.shared, s.threads[u]);
      }
      if v != t {
        assert PcWindow(s.shared, s.threads[v]);
      }
    }
  }

  lemma OutsideCalm(sh: Shared, l: Label)
    requires !l.Thread? && OutsideStep(sh, l).Some?
    ensures Calm(sh, OutsideStep(sh, l).value)
  { }

  lemma OutsideWindow(s: State, l: Label)
    requires WindowInv(s) && !l.Thread? && OutsideStep(s.shared, l).Some?
    ensures WindowInv(s.(shared := OutsideStep(s.shared, l).value))
  {
    var sh := OutsideStep(s.shared, l).value;
    OutsideCalm(s.shared, l);
    hide Window, Calm, OutsideStep;
    CalmKeeps(s.shared, sh);
    forall u | 0 <= u < |s.threads| ensures PcWindow(sh, s.threads[u]) {
      CalmPc(s.shared, sh, s.threads[u]);
    }
  }

  lemma NextWindow(s: State, l: Label)
    requires Inv(s) && WindowInv(s) && Disciplined(s, l) && Next(s, l).Some?
    ensures WindowInv(Next(s, l).value)
  {
    hide Window, OutsideStep, SharedInv, StepOf, OwnWindow, SpareOthers, LocksAgree, CountsAgree;
    if l.Thread? {
      var pc := s.threads[l.t];
      var e := StepOf(s.shared, pc, l.choice).value;
      assert PcWindow(s.shared, pc) && ThreadOk(s.shared, pc);
      ThreadAllows(s, l, e);
      WindowAfter(s, l.t, e);
    } else {
      OutsideWindow(s, l);
    }
  }

  lemma ThreadAllows(s: State, l: Label, e: Effect)
    requires Inv(s) && WindowInv(s) && Disciplined(s, l) && l.Thread? && l.t < |s.threads|
    requires StepOf(s.shared, s.threads[l.t], l.choice) == Some(e)
    ensures OwnWindow(s.shared, s.threads[l.t], e) && SpareOthers(s.shared, s.threads[l.t], e) && OthersAllow(s, l.t, e)
  {
    hide Window, SharedInv, LocksAgree, CountsAgree, Calm, BeginStep, ExecuteStep, PrepareStep, DestroyStep, CallStep,
      RunStep, JudgeStep, ClearStep;
    var pc := s.threads[l.t];
    assert PcWindow(s.shared, pc) && ThreadOk(s.shared, pc);
    if pc.Idle? {
      BeginWindow(s.shared, l.choice.op, e);
      forall u | 0 <= u < |s.threads| && s.threads[u].Executing? ensures s.shared.volumeName != "" {
        assert PcWindow(s.shared, s.threads[u]);
      }
    } else {
      PcStepWindow(s.shared, pc, l.choice, e);
      assert InLifecycle(pc) ==> s.shared.busy;
    }
  }

  lemma {:induction false} RunWindow(s: State, labels: seq<Label>)
    requires Inv(s) && WindowInv(s) && DisciplinedRun(s, labels) && Run(s, labels).Some?
    ensures Inv(Run(s, labels).value) && WindowInv(Run(s, labels).value)
    decreases |labels|
  {
    hide Inv, WindowInv, Next, Disciplined;
    if labels != [] {
      NextKept(s, labels[0]);
      NextWindow(s, labels[0]);
      RunWindow(Next(s, labels[0]).value, labels[1..]);
    }
  }

  lemma ScratchWindow(s: State)
    requires FromScratch(s) && KeepsCommon(s.shared.cfg) && "" !in s.shared.world.volumes
    ensures Inv(s) && WindowInv(s)
  {
    StartInv(s);
    var sh := s.shared;
    hide Inv, Matches, QueryLabels, CommonLabels, KeepsCommon;
    forall id | id in sh.world.containers
      ensures OursIfMatching(sh.cfg, sh.world.containers[id].labels, sh.cmds, sh.payload.inHand, sh.support.inHand, id)
    {
      assert id !in sh.world.Matching(QueryLabels(sh.cfg, false))
        && id !in sh.world.Matching(QueryLabels(sh.cfg, true));
    }
    forall n | n in sh.world.volumes ensures !Matches(CommonLabels(sh.cfg), sh.world.volumes[n]) {
      assert n !in sh.world.MatchingVolumes(CommonLabels(sh.cfg));
    }
  }
}

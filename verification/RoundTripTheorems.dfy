/** What a fresh executor takes over, in every state of every disciplined run. */
module RoundTripTheorems {
  import opened Wrappers
  import opened Uuids
  import opened Labels
  import opened Containers
  import opened CommandResults
  import opened Protocol
  import opened ProtocolInvariant
  import opened ProtocolTheorems
  import opened ProtocolForgetting
  import opened ProtocolEvents
  import opened ProtocolRuns
  import StepProofs
  import opened RoundTrip
  import Recovery
  import RecoveryTheorems

  /** The command of a role that is running or being created. */
  function Newest(sh: Shared, support: bool): Option<Created> {
    var slots := SlotsOf(sh, support);
    if slots.current.Some? && slots.current.value < |sh.cmds| then
      Some(Created(sh.cmds[slots.current.value].id, sh.cmds[slots.current.value].container))
    else slots.inHand
  }

  /** The finished command of a role that an earlier recovery adopted. */
  function Oldest(sh: Shared, support: bool): Option<Created> {
    var slots := SlotsOf(sh, support);
    if slots.previous.Some? && slots.previous.value < |sh.cmds| then
      Some(Created(sh.cmds[slots.previous.value].id, sh.cmds[slots.previous.value].container))
    else None
  }

  predicate Exists(sh: Shared, cmd: Option<Created>) {
    cmd.Some? && cmd.value.container in sh.world.containers
  }

  /** A role's command whose container still exists, the newer one if both do. */
  function Existing(sh: Shared, support: bool): Option<Created> {
    if Exists(sh, Newest(sh, support)) then Newest(sh, support)
    else if Exists(sh, Oldest(sh, support)) then Oldest(sh, support)
    else None
  }

  /** At most one container of the role still exists. */
  predicate Sole(sh: Shared, support: bool) {
    !Exists(sh, Newest(sh, support)) || !Exists(sh, Oldest(sh, support))
  }

  /** The store of a fresh executor holds exactly the existing command: same id,
    * role and container, as the previous one if its container has ended.
    */
  predicate TakenOver(sh: Shared, store: Recovery.Contents, support: bool) {
    match Existing(sh, support)
    case None => store == Recovery.Contents(None, None)
    case Some(created) =>
      created.container in sh.world.containers &&
      var cmd := AdoptedAs(sh, created, support);
      store == if IsEnded(sh.world.containers[created.container].status) then Recovery.Contents(None, Some(cmd))
        else Recovery.Contents(Some(cmd), None)
  }

  /** The store of its role has no place for the command any more, but its container exists. */
  predicate Forgotten(sh: Shared, c: CommandRef) {
    && c < |sh.cmds| && sh.cmds[c].container in sh.world.containers
    && !InSlots(SlotsFor(sh.payload, sh.support, sh.cmds[c].support), c)
  }

  /** Every command whose container exists is still in its store. */
  ghost predicate NothingForgotten(sh: Shared) {
    forall c :: 0 <= c < |sh.cmds| ==> !Forgotten(sh, c)
  }

  // --- which containers carry the run's labels

  /** What is known of a role's command whose container exists. */
  predicate IsOf(sh: Shared, created: Created, support: bool) {
    && created.container in sh.world.containers
    && Bears(sh.cfg, sh.world.containers[created.container].labels, created.id, support)
    && sh.volumeName in VolumesOf(sh.world.containers[created.container].mounts)
  }

  lemma ExistingLabels(sh: Shared, support: bool)
    requires SharedInv(sh) && Window(sh)
    ensures Exists(sh, Newest(sh, support)) ==> IsOf(sh, Newest(sh, support).value, support)
    ensures Exists(sh, Oldest(sh, support)) ==> IsOf(sh, Oldest(sh, support).value, support)
  {
    hide Bears, VolumesOf, OnlyOurs, VolumeOk, KeepsCommon, Accounted, FinishedLeave, ClosedLeave, Attributed,
      CommandsOk, ContainersApart;
  }

  lemma NewestIsNotOldest(sh: Shared, support: bool)
    requires SharedInv(sh) && Newest(sh, support).Some? && Oldest(sh, support).Some?
    ensures Newest(sh, support).value.container != Oldest(sh, support).value.container
  {
    hide Accounted, FinishedLeave, ClosedLeave, Attributed, CommandsOk, HandThere;
    var slots := SlotsOf(sh, support);
    if slots.current.Some? {
      assert slots.current.value != slots.previous.value;
    }
  }

  /** The container found for a role is one of its commands'. */
  ghost predicate IsKnown(sh: Shared, support: bool, id: ContainerId) {
    || (Newest(sh, support).Some? && Newest(sh, support).value.container == id)
    || (Oldest(sh, support).Some? && Oldest(sh, support).value.container == id)
  }

  lemma FoundIsKnown(sh: Shared, support: bool, id: ContainerId)
    requires SharedInv(sh) && Window(sh) && NothingForgotten(sh) && id in sh.world.containers
    requires Matches(QueryLabels(sh.cfg, support), sh.world.containers[id].labels)
    ensures IsKnown(sh, support, id)
  {
    assert OursIfMatching(sh.cfg, sh.world.containers[id].labels, sh.cmds, sh.payload.inHand, sh.support.inHand, id);
    RecoveryTheorems.MatchedRole(sh.cfg, sh.world.containers[id].labels, support);
    if c :| 0 <= c < |sh.cmds| && sh.cmds[c].container == id {
      assert LabelledFor(sh.cfg, sh.world.containers, id, sh.cmds[c].id, sh.cmds[c].support);
      RecoveryTheorems.MatchedRole(sh.cfg, sh.world.containers[id].labels, sh.cmds[c].support);
      FoundInSlot(sh, c, support);
    } else {
      var h := IsInHand(sh.support.inHand, id);
      assert Bears(sh.cfg, sh.world.containers[id].labels, SlotsOf(sh, h).inHand.value.id, h);
      RecoveryTheorems.MatchedRole(sh.cfg, sh.world.containers[id].labels, h);
      hide Bears, QueryLabels, Matches;
    }
  }

  lemma FoundInSlot(sh: Shared, c: CommandRef, support: bool)
    requires SharedInv(sh) && Window(sh) && NothingForgotten(sh)
    requires c < |sh.cmds| && sh.cmds[c].support == support && sh.cmds[c].container in sh.world.containers
    ensures IsKnown(sh, support, sh.cmds[c].container)
    ensures var created := Some(Created(sh.cmds[c].id, sh.cmds[c].container));
      created == Newest(sh, support) || created == Oldest(sh, support)
  {
    hide Bears, QueryLabels, Matches, VolumesOf, OnlyOurs, VolumeOk, KeepsCommon, FinishedLeave, ClosedLeave,
      Attributed, CommandsOk, ContainersApart;
    assert !Forgotten(sh, c);
  }

  function ContainerOf(sh: Shared, cmd: Option<Created>): set<ContainerId> {
    if Exists(sh, cmd) then {cmd.value.container} else {}
  }

  lemma RoleFound(sh: Shared, support: bool)
    requires SharedInv(sh) && Window(sh) && NothingForgotten(sh)
    ensures RecoveryTheorems.RoleContainers(sh.cfg, sh.world, support)
         == ContainerOf(sh, Newest(sh, support)) + ContainerOf(sh, Oldest(sh, support))
  {
    ExistingLabels(sh, support);
    forall id | id in RecoveryTheorems.RoleContainers(sh.cfg, sh.world, support)
      ensures id in ContainerOf(sh, Newest(sh, support)) + ContainerOf(sh, Oldest(sh, support))
    {
      FoundIsKnown(sh, support, id);
    }
    hide QueryLabels, Matches, VolumesOf, CommandIdOf, Window, SharedInv, Newest, Oldest;
  }

  // --- recovering one store

  /** Listing and inspecting work; nothing is asked of destroying. */
  ghost predicate Readable(env: Recovery.Env) {
    env.Valid() && !env.listVolumesFails && (forall q :: !env.listFails(q)) && (forall id :: !env.inspectFails(id))
  }

  /** Recovering a store that lists at most one container, all of them usable. */
  lemma AtMostOneListed(cfg: Config, env: Recovery.Env, world: World, support: bool, volume: string)
    requires Readable(env)
    requires var listed := Recovery.Listed(env, world, QueryLabels(cfg, support));
      |listed| <= 1 && forall i :: 0 <= i < |listed| ==>
        Recovery.CheckContainer(env, world.containers, listed[i], volume).Usable?
    ensures var listed := Recovery.Listed(env, world, QueryLabels(cfg, support));
      var out := Recovery.RecoverStore(cfg, env, world, support, volume);
      && out.world == world && !out.failed
      && out.adopted == if |listed| == 0 then None
           else Some(Recovery.CheckContainer(env, world.containers, listed[0], volume).cmd)
  {
    var listed := Recovery.Listed(env, world, QueryLabels(cfg, support));
    var k := RecoveryTheorems.StoreRecovery(cfg, env, world, support, volume);
    hide QueryLabels, Recovery.Listed, Recovery.CheckContainer, Recovery.RecoverStore, Recovery.Without;
    assert k == 0;
    assert Recovery.Destroyed(env, listed, k) == {};
    assert world.containers - {} - {} == world.containers;
  }

  /** The command rebuilt from an existing container. */
  function AdoptedAs(sh: Shared, created: Created, support: bool): Recovery.Adopted
    requires created.container in sh.world.containers
  {
    var k := sh.world.containers[created.container];
    Recovery.Adopted(created.id, support, created.container, Inspected(PENDING, k.status, k.exitCode))
  }

  /** An existing container passes its checks and is rebuilt as the command it belongs to. */
  lemma IsUsable(sh: Shared, env: Recovery.Env, created: Created, support: bool)
    requires Readable(env) && IsOf(sh, created, support)
    ensures Recovery.CheckContainer(env, sh.world.containers,
        Recovery.Handle(created.container, OptsOf(sh.world.containers[created.container])), sh.volumeName)
      == Recovery.Usable(AdoptedAs(sh, created, support))
  {
    RecoveryTheorems.MatchedRole(sh.cfg, sh.world.containers[created.container].labels, support);
    hide QueryLabels, Matches, VolumesOf, CommandIdOf, RoleOf, Inspected, IsEnded;
  }

  lemma StoreTaken(sh: Shared, env: Recovery.Env, support: bool)
    requires SharedInv(sh) && Window(sh) && NothingForgotten(sh) && Readable(env) && Sole(sh, support)
    ensures var out := Recovery.RecoverStore(sh.cfg, env, sh.world, support, sh.volumeName);
      out.world == sh.world && !out.failed && TakenOver(sh, Recovery.Place(out.adopted), support)
  {
    hide Window, SharedInv, QueryLabels, Recovery.RecoverStore, Newest, Oldest, Recovery.CheckContainer, VolumesOf,
      IsEnded, IsOf;
    ListedIsExisting(sh, env, support);
    ExistingLabels(sh, support);
    if Existing(sh, support).Some? {
      IsUsable(sh, env, Existing(sh, support).value, support);
    }
    AtMostOneListed(sh.cfg, env, sh.world, support, sh.volumeName);
    InspectedEnds(sh);
  }

  /** A command is finished exactly when its container has ended. */
  lemma InspectedEnds(sh: Shared)
    ensures forall id :: id in sh.world.containers ==>
      (Inspected(PENDING, sh.world.containers[id].status, sh.world.containers[id].exitCode).finished
       <==> IsEnded(sh.world.containers[id].status))
  { }

  lemma ListedIsExisting(sh: Shared, env: Recovery.Env, support: bool)
    requires SharedInv(sh) && Window(sh) && NothingForgotten(sh) && Readable(env) && Sole(sh, support)
    ensures var listed := Recovery.Listed(env, sh.world, QueryLabels(sh.cfg, support));
      |listed| == (if Existing(sh, support).Some? then 1 else 0)
      && forall i :: 0 <= i < |listed| ==>
           Existing(sh, support).Some? && listed[i].id == Existing(sh, support).value.container
  {
    var listed := Recovery.Listed(env, sh.world, QueryLabels(sh.cfg, support));
    RoleFound(sh, support);
    hide Window, SharedInv, Newest, Oldest, QueryLabels, Matches;
    forall i | 0 <= i < |listed|
      ensures Existing(sh, support).Some? && listed[i].id == Existing(sh, support).value.container {
      assert listed[i].id in RecoveryTheorems.RoleContainers(sh.cfg, sh.world, support);
    }
    RecoveryTheorems.ListingSize(env.arrange(sh.world.Matching(QueryLabels(sh.cfg, support))),
      sh.world.Matching(QueryLabels(sh.cfg, support)));
  }

  // --- the round trip

  /** The fresh executor holds what the running one had. */
  predicate SameExecutor(sh: Shared, o: Recovery.Executor) {
    && !o.failed && o.volumeName == sh.volumeName && (o.recovered <==> sh.volumeName != "")
    && o.world == sh.world
    && TakenOver(sh, o.payload, false) && TakenOver(sh, o.support, true)
  }

  lemma VolumeFound(sh: Shared, env: Recovery.Env)
    requires Window(sh) && Readable(env)
    ensures Recovery.RecoverVolume(sh.cfg, env, sh.world) == Recovery.VolumeScan(sh.world, sh.volumeName, false)
  {
    RecoveryTheorems.VolumeRecovery(sh.cfg, env, sh.world);
    VolumesOfRun(sh);
    hide Recovery.RecoverVolume, Window, RecoveryTheorems.RunVolumes;
  }

  lemma VolumesOfRun(sh: Shared)
    requires Window(sh)
    ensures RecoveryTheorems.RunVolumes(sh.cfg, sh.world) == if sh.volumeName == "" then {} else {sh.volumeName}
  {
    hide Matches, CommonLabels, SlotMounted, Labelled, OnlyOurs, HandLabelled, KeepsCommon;
  }

  lemma StateTakenOver(sh: Shared, env: Recovery.Env)
    requires SharedInv(sh) && Window(sh) && NothingForgotten(sh) && Readable(env) && Sole(sh, false) && Sole(sh, true)
    ensures SameExecutor(sh, Recovery.Init(sh.cfg, env, sh.world))
  {
    hide Window, SharedInv, NothingForgotten, Sole, Recovery.RecoverVolume, Recovery.RecoverStore, TakenOver,
      Recovery.Place,
      QueryLabels;
    VolumeFound(sh, env);
    StoreTaken(sh, env, true);
    StoreTaken(sh, env, false);
    RecoveryTheorems.InitUnfolds(sh.cfg, env, sh.world);
  }

  /** Crash recovery round trip. Take any executor started without earlier
    * resources, any interleaving of its callers and routines that runs Execute
    * only between Prepare and Destroy, any failures on the way, and a crash in any
    * state, even with a container made and not stored yet. Then however the runtime
    * orders its answers, a fresh executor takes over the same volume and, per role,
    * the command whose container still exists, if and only if no Destroy has
    * forgotten a command whose container it failed to remove. If so, these are all
    * the commands whose containers exist.
    */
  lemma RecoveryRoundTrip(s: State, labels: seq<Label>, env: Recovery.Env)
    requires FromScratch(s) && KeepsCommon(s.shared.cfg) && "" !in s.shared.world.volumes
    requires DisciplinedRun(s, labels) && Run(s, labels).Some? && Readable(env)
    ensures var sh := Run(s, labels).value.shared;
      SameExecutor(sh, Recovery.Init(sh.cfg, env, sh.world)) <==> NothingForgotten(sh)
    ensures var sh := Run(s, labels).value.shared;
      NothingForgotten(sh) ==>
        forall c :: 0 <= c < |sh.cmds| && sh.cmds[c].container in sh.world.containers ==>
          Existing(sh, sh.cmds[c].support) == Some(Created(sh.cmds[c].id, sh.cmds[c].container))
  {
    ScratchWindow(s);
    RunWindow(s, labels);
    var sh := Run(s, labels).value.shared;
    NeverPrevious(s, labels);
    hide SharedInv, Window, NothingForgotten, Recovery.Init, SameExecutor, Newest, Oldest, Forgotten;
    TakenOverWhenSole(sh, env);
    if NothingForgotten(sh) {
      forall c | 0 <= c < |sh.cmds| && sh.cmds[c].container in sh.world.containers
        ensures Existing(sh, sh.cmds[c].support) == Some(Created(sh.cmds[c].id, sh.cmds[c].container))
      {
        FoundInSlot(sh, c, sh.cmds[c].support);
      }
    }
  }

  lemma NeverPrevious(s: State, labels: seq<Label>)
    requires FromScratch(s) && Run(s, labels).Some?
    ensures forall support ::
      Oldest(Run(s, labels).value.shared, support).None? && Sole(Run(s, labels).value.shared, support)
  {
    hide Run, Start;
    StoresShaped(s, labels, false);
    StoresShaped(s, labels, true);
  }

  // --- a command adopted as finished beside a newer one

  lemma BothFound(sh: Shared, support: bool)
    requires SharedInv(sh) && Window(sh) && NothingForgotten(sh) && !Sole(sh, support)
    ensures var a, b := Newest(sh, support).value.container, Oldest(sh, support).value.container;
      a != b && RecoveryTheorems.RoleContainers(sh.cfg, sh.world, support) == {a, b}
  {
    RoleFound(sh, support);
    NewestIsNotOldest(sh, support);
    hide Window, SharedInv, Newest, Oldest, RecoveryTheorems.RoleContainers;
  }

  /** The command recovery keeps of two: the one whose container is listed first. */
  function Kept(sh: Shared, env: Recovery.Env, support: bool): Option<Created> {
    var ids := env.arrange(sh.world.Matching(QueryLabels(sh.cfg, support)));
    if Exists(sh, Newest(sh, support)) && ids != [] && ids[0] == Newest(sh, support).value.container then
      Newest(sh, support)
    else Oldest(sh, support)
  }

  function Dropped(sh: Shared, env: Recovery.Env, support: bool): Option<Created> {
    if Kept(sh, env, support) == Newest(sh, support) then Oldest(sh, support) else Newest(sh, support)
  }

  lemma TwoListed(sh: Shared, env: Recovery.Env, support: bool)
    requires SharedInv(sh) && Window(sh) && NothingForgotten(sh) && Readable(env) && !Sole(sh, support)
    ensures var listed := Recovery.Listed(env, sh.world, QueryLabels(sh.cfg, support));
      && Exists(sh, Kept(sh, env, support)) && Exists(sh, Dropped(sh, env, support))
      && |listed| == 2
      && listed[0].id == Kept(sh, env, support).value.container
      && listed[1].id == Dropped(sh, env, support).value.container
  {
    BothFound(sh, support);
    hide Window, SharedInv, Newest, Oldest, QueryLabels, Matches, NothingForgotten, Readable;
    var a, b := Newest(sh, support).value.container, Oldest(sh, support).value.container;
    PairListed(env, sh.world, QueryLabels(sh.cfg, support), a, b);
  }

  lemma PairListed(env: Recovery.Env, world: World, query: LabelMap, a: ContainerId, b: ContainerId)
    requires env.Valid() && world.Matching(query) == {a, b} && a != b
    ensures var ids, listed := env.arrange(world.Matching(query)), Recovery.Listed(env, world, query);
      && |ids| == |listed| == 2 && listed[0].id == ids[0] && listed[1].id == ids[1]
      && (ids == [a, b] || ids == [b, a])
  {
    hide Matches;
    var found := world.Matching(query);
    var ids := env.arrange(found);
    RecoveryTheorems.ListingSize(ids, found);
    assert ids[0] in found && ids[1] in found;
  }

  /** In particular, when a finished command adopted earlier still has its container
    * beside a newer command's, recovery keeps one and destroys the other, be it the
    * running one.
    */
  lemma OneOfTwoSurvives(sh: Shared, env: Recovery.Env, support: bool)
    requires SharedInv(sh) && Window(sh) && NothingForgotten(sh) && Readable(env) && !Sole(sh, support)
    requires Dropped(sh, env, support).Some? ==> !env.destroyFails(Dropped(sh, env, support).value.container)
    ensures var out := Recovery.RecoverStore(sh.cfg, env, sh.world, support, sh.volumeName);
      var kept, dropped := Kept(sh, env, support), Dropped(sh, env, support);
      && Exists(sh, kept) && Exists(sh, dropped) && {kept, dropped} == {Newest(sh, support), Oldest(sh, support)}
      && !out.failed && out.adopted == Some(AdoptedAs(sh, kept.value, support))
      && out.attempts == [dropped.value.container]
      && out.world == sh.world.Without(dropped.value.container)
  {
    var listed := Recovery.Listed(env, sh.world, QueryLabels(sh.cfg, support));
    TwoListed(sh, env, support);
    ExistingLabels(sh, support);
    hide Window, SharedInv, QueryLabels, Newest, Oldest, IsOf;
    var kept, dropped := Kept(sh, env, support), Dropped(sh, env, support);
    IsUsable(sh, env, kept.value, support);
    hide Kept, Dropped;
    KeepsFirst(sh.cfg, env, sh.world, support, sh.volumeName);
  }

  /** Two listed containers, the first usable: the second is destroyed. */
  lemma KeepsFirst(cfg: Config, env: Recovery.Env, world: World, support: bool, volume: string)
    requires env.Valid() && !env.listFails(QueryLabels(cfg, support))
    requires var listed := Recovery.Listed(env, world, QueryLabels(cfg, support));
      && |listed| == 2 && !env.destroyFails(listed[1].id)
      && Recovery.CheckContainer(env, world.containers, listed[0], volume).Usable?
    ensures var listed := Recovery.Listed(env, world, QueryLabels(cfg, support));
      var out := Recovery.RecoverStore(cfg, env, world, support, volume);
      && !out.failed && out.adopted == Some(Recovery.CheckContainer(env, world.containers, listed[0], volume).cmd)
      && out.attempts == [listed[1].id]
      && out.world == world.Without(listed[1].id)
  {
    var listed := Recovery.Listed(env, world, QueryLabels(cfg, support));
    var k := RecoveryTheorems.StoreRecovery(cfg, env, world, support, volume);
    hide QueryLabels, Recovery.Listed, Recovery.CheckContainer, Recovery.RecoverStore;
    assert k == 0;
    assert listed[..0] == [] && listed[1..] == [listed[1]];
    RecoveryTheorems.DestroyedAll(env, listed, k);
    assert Recovery.Destroyed(env, listed, k) == {listed[1].id};
    assert world.containers - {listed[1].id} - {} == world.containers - {listed[1].id};
  }

  /** The condition of the round trip, told by the calls of the run: no Destroy has forgotten a
    * command whose container still exists.
    */
  lemma NothingForgottenWhen(s: State, labels: seq<Label>)
    requires Start(s) && Run(s, labels).Some?
    ensures var sh := Run(s, labels).value.shared;
      NothingForgotten(sh) <==>
        forall c :: 0 <= c < |sh.cmds| && sh.cmds[c].container in sh.world.containers ==>
          !Happened(s, labels, Forgetting(c))
  {
    hide Start, Run, Happened;
    var sh := Run(s, labels).value.shared;
    forall c | 0 <= c < |sh.cmds| && sh.cmds[c].container in sh.world.containers
      ensures Forgotten(sh, c) <==> Happened(s, labels, Forgetting(c))
    {
      ForgottenWhen(s, labels, c);
    }
  }

  // --- what the listing decides

  /** The container belongs to this command of the executor, or is in an Execute's hands for it. */
  ghost predicate Owned(sh: Shared, created: Created, support: bool) {
    || SlotsOf(sh, support).inHand == Some(created)
    || exists c :: 0 <= c < |sh.cmds| && sh.cmds[c].container == created.container
         && sh.cmds[c].id == created.id && sh.cmds[c].support == support
  }

  /** The identifier a container of the run carries. */
  function OwnerId(sh: Shared, id: ContainerId): Uuid
    requires id in sh.world.containers && CommandIdOf(sh.world.containers[id].labels).Some?
  {
    CommandIdOf(sh.world.containers[id].labels).value
  }

  lemma RoleIsOwned(sh: Shared, support: bool, id: ContainerId)
    requires SharedInv(sh) && Window(sh) && id in RecoveryTheorems.RoleContainers(sh.cfg, sh.world, support)
    ensures id in sh.world.containers && CommandIdOf(sh.world.containers[id].labels).Some?
    ensures RoleOf(sh.world.containers[id].labels) == Some(support)
    ensures Owned(sh, Created(OwnerId(sh, id), id), support)
  {
    assert OursIfMatching(sh.cfg, sh.world.containers[id].labels, sh.cmds, sh.payload.inHand, sh.support.inHand, id);
    RecoveryTheorems.MatchedRole(sh.cfg, sh.world.containers[id].labels, support);
    if c :| 0 <= c < |sh.cmds| && sh.cmds[c].container == id {
      assert LabelledFor(sh.cfg, sh.world.containers, id, sh.cmds[c].id, sh.cmds[c].support);
      RecoveryTheorems.MatchedRole(sh.cfg, sh.world.containers[id].labels, sh.cmds[c].support);
    } else {
      var h := IsInHand(sh.support.inHand, id);
      assert Bears(sh.cfg, sh.world.containers[id].labels, SlotsOf(sh, h).inHand.value.id, h);
      RecoveryTheorems.MatchedRole(sh.cfg, sh.world.containers[id].labels, h);
      hide Bears, QueryLabels, Matches;
    }
  }

  /** A container of the role is usable exactly when it mounts the executor's volume; otherwise it is rejected. */
  lemma RoleIsChecked(sh: Shared, env: Recovery.Env, support: bool, id: ContainerId)
    requires SharedInv(sh) && Window(sh) && Readable(env)
    requires id in RecoveryTheorems.RoleContainers(sh.cfg, sh.world, support)
    ensures id in sh.world.containers && CommandIdOf(sh.world.containers[id].labels).Some?
    ensures Owned(sh, Created(OwnerId(sh, id), id), support)
    ensures Recovery.CheckContainer(env, sh.world.containers,
        Recovery.Handle(id, OptsOf(sh.world.containers[id])), sh.volumeName)
      == if MountsVolume(sh.world.containers, id, sh.volumeName) then
           Recovery.Usable(AdoptedAs(sh, Created(OwnerId(sh, id), id), support))
         else Recovery.Rejected
  {
    RoleIsOwned(sh, support, id);
    hide SharedInv, Window, QueryLabels, Matches, VolumesOf, CommandIdOf, RoleOf, Inspected, IsEnded, Owned;
  }

  /** The container recovery keeps of a role: the one listed first, if it mounts the volume. */
  function Survivor(sh: Shared, env: Recovery.Env, support: bool): Option<ContainerId> {
    var ids := env.arrange(sh.world.Matching(QueryLabels(sh.cfg, support)));
    if ids != [] && MountsVolume(sh.world.containers, ids[0], sh.volumeName) then Some(ids[0]) else None
  }

  function SetOf(id: Option<ContainerId>): set<ContainerId> {
    if id.Some? then {id.value} else {}
  }

  lemma ListedIsChecked(sh: Shared, env: Recovery.Env, support: bool)
    requires SharedInv(sh) && Window(sh) && Readable(env)
    ensures var listed := Recovery.Listed(env, sh.world, QueryLabels(sh.cfg, support));
      forall i :: 0 <= i < |listed| ==>
        && listed[i].id in RecoveryTheorems.RoleContainers(sh.cfg, sh.world, support)
        && listed[i].id in sh.world.containers && CommandIdOf(sh.world.containers[listed[i].id].labels).Some?
        && Owned(sh, Created(OwnerId(sh, listed[i].id), listed[i].id), support)
        && Recovery.CheckContainer(env, sh.world.containers, listed[i], sh.volumeName)
          == if MountsVolume(sh.world.containers, listed[i].id, sh.volumeName) then
               Recovery.Usable(AdoptedAs(sh, Created(OwnerId(sh, listed[i].id), listed[i].id), support))
             else Recovery.Rejected
  {
    var listed := Recovery.Listed(env, sh.world, QueryLabels(sh.cfg, support));
    hide SharedInv, Window, Readable, Matches, QueryLabels, Recovery.CheckContainer, MountsVolume, Owned, CommandIdOf;
    forall i | 0 <= i < |listed|
      ensures listed[i].id in RecoveryTheorems.RoleContainers(sh.cfg, sh.world, support)
    { }
    forall i | 0 <= i < |listed|
      ensures listed[i].id in sh.world.containers && CommandIdOf(sh.world.containers[listed[i].id].labels).Some?
      ensures Owned(sh, Created(OwnerId(sh, listed[i].id), listed[i].id), support)
      ensures Recovery.CheckContainer(env, sh.world.containers, listed[i], sh.volumeName)
          == if MountsVolume(sh.world.containers, listed[i].id, sh.volumeName) then
               Recovery.Usable(AdoptedAs(sh, Created(OwnerId(sh, listed[i].id), listed[i].id), support))
             else Recovery.Rejected
    {
      RoleIsChecked(sh, env, support, listed[i].id);
    }
  }

  lemma FirstIsKept(env: Recovery.Env, world: World, listed: seq<Recovery.Handle>, volume: string, k: nat)
    requires Recovery.FirstUsable(env, world, listed, volume, k)
    requires forall i :: 0 <= i < |listed| ==>
      !Recovery.CheckContainer(env, world.containers, listed[i], volume).Unreadable?
    ensures |listed| > 0 && Recovery.CheckContainer(env, world.containers, listed[0], volume).Usable? ==>
      k == 0 && !Recovery.RejectedBefore(env, world, listed, volume, k)
    ensures |listed| > 0 && !Recovery.CheckContainer(env, world.containers, listed[0], volume).Usable? ==>
      Recovery.RejectedBefore(env, world, listed, volume, k)
    ensures |listed| == 0 ==> !Recovery.RejectedBefore(env, world, listed, volume, k)
  {
    if |listed| > 0 && !Recovery.CheckContainer(env, world.containers, listed[0], volume).Usable? {
      assert Recovery.CheckContainer(env, world.containers, listed[0], volume).Rejected?;
    }
  }

  /** With every state readable, the container listed first decides: it is kept, or all are given up. */
  lemma FirstDecides(cfg: Config, env: Recovery.Env, world: World, support: bool, volume: string,
      first: Option<ContainerId>)
    requires env.Valid() && !env.listFails(QueryLabels(cfg, support))
    requires var listed := Recovery.Listed(env, world, QueryLabels(cfg, support));
      && (forall i :: 0 <= i < |listed| ==>
            !Recovery.CheckContainer(env, world.containers, listed[i], volume).Unreadable?
            && (first != Some(listed[i].id) ==> !env.destroyFails(listed[i].id)))
      && first == if |listed| > 0 && Recovery.CheckContainer(env, world.containers, listed[0], volume).Usable?
           then Some(listed[0].id) else None
    ensures var listed := Recovery.Listed(env, world, QueryLabels(cfg, support));
      var out := Recovery.RecoverStore(cfg, env, world, support, volume);
      && (out.failed <==> first.None? && |listed| > 0)
      && out.world == world.(containers := world.containers - (world.Matching(QueryLabels(cfg,
           support)) - SetOf(first)))
      && (first.None? ==> out.adopted.None?)
      && (first.Some? ==>
            |listed| > 0 && first == Some(listed[0].id) && out.adopted ==
              Some(Recovery.CheckContainer(env, world.containers, listed[0], volume).cmd))
  {
    hide QueryLabels, Recovery.CheckContainer, Recovery.RecoverStore, Recovery.Listed, World.Matching,
      Recovery.RejectedBefore, Recovery.DestroyRefused, Recovery.Destroyed, Recovery.Without;
    var query := QueryLabels(cfg, support);
    var listed := Recovery.Listed(env, world, query);
    var k := RecoveryTheorems.StoreRecovery(cfg, env, world, support, volume);
    FirstIsKept(env, world, listed, volume, k);
    NoneRefused(env, listed, k, first);
    RecoveryTheorems.DestroyedIs(env, world, query, k);
    RecoveryTheorems.DestroyedMatch(env, world, query, k);
    GivenUpAll(world, world.Matching(query), if k < |listed| then {listed[k].id} else {});
  }

  lemma NoneRefused(env: Recovery.Env, listed: seq<Recovery.Handle>, k: nat, first: Option<ContainerId>)
    requires forall i :: 0 <= i < |listed| ==> first == Some(listed[i].id) || !env.destroyFails(listed[i].id)
    requires first.Some? ==> k == 0 && |listed| > 0 && first == Some(listed[0].id)
    requires forall i, j :: 0 <= i < j < |listed| ==> listed[i].id != listed[j].id
    ensures !Recovery.DestroyRefused(env, listed, k)
  { }

  lemma GivenUpAll(world: World, found: set<ContainerId>, kept: set<ContainerId>)
    requires kept <= found
    ensures world.containers - (found - kept) - kept == world.containers - found
    ensures world.containers - (found - kept) - {} == world.containers - (found - kept)
    ensures found - {} == found
  { }

  /** In every state of a disciplined run, whatever was forgotten: recovery keeps the
    * container of a role that is listed first, be it a forgotten command's, takes over
    * its command and destroys every other one, be it the running command's; unless the
    * first one does not mount the volume, the volume having been replaced since: then
    * recovery fails and destroys them all.
    */
  lemma FirstListedSurvives(sh: Shared, env: Recovery.Env, support: bool)
    requires SharedInv(sh) && Window(sh) && Readable(env)
    requires forall id :: id in RecoveryTheorems.RoleContainers(sh.cfg, sh.world, support) ==>
      Survivor(sh, env, support) == Some(id) || !env.destroyFails(id)
    ensures var role := RecoveryTheorems.RoleContainers(sh.cfg, sh.world, support);
      var out := Recovery.RecoverStore(sh.cfg, env, sh.world, support, sh.volumeName);
      var survivor := Survivor(sh, env, support);
      && (out.failed <==> survivor.None? && role != {})
      && out.world == sh.world.(containers := sh.world.containers - (role - SetOf(survivor)))
      && (survivor.None? ==> out.adopted.None?)
      && (survivor.Some? ==>
            && survivor.value in role && survivor.value in sh.world.containers
            && out.adopted.Some? && Owned(sh, Created(out.adopted.value.id, survivor.value), support)
            && out.adopted.value == AdoptedAs(sh, Created(out.adopted.value.id, survivor.value), support))
  {
    hide SharedInv, Window, Matches, QueryLabels, Recovery.CheckContainer, MountsVolume, Owned, CommandIdOf,
      Recovery.RecoverStore, Recovery.Listed, Survivor, World.Matching;
    var query := QueryLabels(sh.cfg, support);
    var listed := Recovery.Listed(env, sh.world, query);
    ListedIsChecked(sh, env, support);
    SurvivorListed(sh, env, support);
    FirstDecides(sh.cfg, env, sh.world, support, sh.volumeName, Survivor(sh, env, support));
    SomeListed(env, sh.world, query);
  }

  lemma SomeListed(env: Recovery.Env, world: World, query: LabelMap)
    requires env.Valid()
    ensures |Recovery.Listed(env, world, query)| > 0 <==> world.Matching(query) != {}
  {
    var listed := Recovery.Listed(env, world, query);
    if |listed| > 0 {
      assert listed[0].id in world.Matching(query);
    }
  }

  lemma SurvivorListed(sh: Shared, env: Recovery.Env, support: bool)
    requires env.Valid()
    ensures var listed := Recovery.Listed(env, sh.world, QueryLabels(sh.cfg, support));
      Survivor(sh, env, support)
      == if |listed| > 0 && MountsVolume(sh.world.containers, listed[0].id, sh.volumeName) then Some(listed[0].id)
         else None
  { }

  /** A forgotten command's container is found, and is not the one recovery should take over. */
  lemma ForgottenIsFound(sh: Shared, c: CommandRef)
    requires SharedInv(sh) && Window(sh) && Forgotten(sh, c)
    ensures sh.cmds[c].container in RecoveryTheorems.RoleContainers(sh.cfg, sh.world, sh.cmds[c].support)
    ensures sh.cmds[c].container !in ContainerOf(sh, Existing(sh, sh.cmds[c].support))
  {
    hide CommandIdOf, QueryLabels, Matches, OnlyOurs, VolumeOk, SlotMounted, KeepsCommon, HandLabelled, FinishedLeave,
      ClosedLeave, Attributed, CommandsOk, HandThere, Accounted;
    assert LabelledFor(sh.cfg, sh.world.containers, sh.cmds[c].container, sh.cmds[c].id, sh.cmds[c].support);
  }

  /** Whoever takes everything over leaves no other container of the role. */
  lemma TakenIsExisting(sh: Shared, o: Recovery.Executor, support: bool)
    requires o.world == sh.world && RecoveryTheorems.RoleTaken(sh.cfg, o, support)
    requires TakenOver(sh, RecoveryTheorems.StoreOf(o, support), support)
    ensures RecoveryTheorems.RoleContainers(sh.cfg, sh.world, support) == ContainerOf(sh, Existing(sh, support))
  {
    hide QueryLabels, Matches, RecoveryTheorems.Describes, RecoveryTheorems.RoleContainers, Newest, Oldest, Inspected,
      IsEnded;
  }

  lemma SameTakesRoles(sh: Shared, env: Recovery.Env, support: bool)
    requires Window(sh) && Readable(env) && SameExecutor(sh, Recovery.Init(sh.cfg, env, sh.world))
    ensures RecoveryTheorems.RoleContainers(sh.cfg, sh.world, support) == ContainerOf(sh, Existing(sh, support))
  {
    assert "" !in sh.world.volumes;
    hide Window, Newest, Oldest, Recovery.Init, RecoveryTheorems.RoleContainers, TakenOver,
      RecoveryTheorems.RunVolumes, RecoveryTheorems.Describes, Existing, RecoveryTheorems.RoleTaken;
    RecoveryTheorems.InitSucceeds(sh.cfg, env, sh.world);
    TakenIsExisting(sh, Recovery.Init(sh.cfg, env, sh.world), support);
  }

  /** Recovery takes over everything if and only if no command whose container exists was
    * forgotten and each role has at most one container left.
    */
  lemma TakenOverWhenSole(sh: Shared, env: Recovery.Env)
    requires SharedInv(sh) && Window(sh) && Readable(env)
    ensures SameExecutor(sh, Recovery.Init(sh.cfg, env, sh.world))
       <==> NothingForgotten(sh) && Sole(sh, false) && Sole(sh, true)
  {
    assert env.Valid();
    hide Window, SharedInv, Readable, Recovery.Init, SameExecutor, Forgotten, Newest, Oldest,
      RecoveryTheorems.RoleContainers;
    if !NothingForgotten(sh) {
      var c :| 0 <= c < |sh.cmds| && Forgotten(sh, c);
      ForgottenIsFound(sh, c);
      if SameExecutor(sh, Recovery.Init(sh.cfg, env, sh.world)) {
        SameTakesRoles(sh, env, sh.cmds[c].support);
      }
    } else if Sole(sh, false) && Sole(sh, true) {
      StateTakenOver(sh, env);
    } else {
      var support := Sole(sh, false);
      BothFound(sh, support);
      if SameExecutor(sh, Recovery.Init(sh.cfg, env, sh.world)) {
        SameTakesRoles(sh, env, support);
      }
    }
  }

  // --- nothing is lost without a fault

  lemma FaultFreeLosesNothing(s: State, labels: seq<Label>)
    requires Start(s) && Run(s, labels).Some? && FaultFree(labels)
    ensures Run(s, labels).value.shared.lost == {}
  {
    forall id ensures id !in Run(s, labels).value.shared.lost {
      StartRecords(s, labels, FailedDestroy(id));
      NoFaultNoFailure(s, labels, FailedDestroy(id));
    }
  }

  lemma NothingLost(sh: Shared)
    requires SharedInv(sh) && sh.lost == {}
    ensures NothingForgotten(sh)
  { }

  /** In a run without faults the round trip needs no more than the callers' discipline and the labels kept. */
  lemma FaultFreeRoundTrip(s: State, labels: seq<Label>, env: Recovery.Env)
    requires FromScratch(s) && KeepsCommon(s.shared.cfg) && "" !in s.shared.world.volumes
    requires DisciplinedRun(s, labels) && Run(s, labels).Some? && FaultFree(labels) && Readable(env)
    ensures var sh := Run(s, labels).value.shared; SameExecutor(sh, Recovery.Init(sh.cfg, env, sh.world))
  {
    FaultFreeLosesNothing(s, labels);
    StartInv(s);
    RunKept(s, labels);
    hide Start, SameExecutor, Readable, DisciplinedRun, Run, NothingForgotten, SharedInv;
    NothingLost(Run(s, labels).value.shared);
    RecoveryRoundTrip(s, labels, env);
  }

  // --- configured labels that replace a common one lose everything

  /** No query of the run finds anything. */
  ghost predicate NoneFound(cfg: Config, world: World) {
    && "" !in world.volumes
    && (forall id :: id in world.containers ==> !Matches(QueryLabels(cfg, false), world.containers[id].labels))
    && (forall id :: id in world.containers ==> !Matches(QueryLabels(cfg, true), world.containers[id].labels))
    && (forall n :: n in world.volumes ==> !Matches(CommonLabels(cfg), world.volumes[n]))
  }

  /** Resources only disappear or change state. */
  ghost predicate Shrinks(a: World, b: World) {
    && (forall id :: id in b.containers ==> id in a.containers && b.containers[id].labels == a.containers[id].labels)
    && (forall n :: n in b.volumes ==> n in a.volumes && b.volumes[n] == a.volumes[n])
  }

  lemma DestroyCallShrinks(sh: Shared, pc: Pc, choice: Choice, e: Effect)
    requires pc.Destroying? && DestroyCallStep(sh, pc.support, pc.failing, pc.ds, choice) == Some(e)
    ensures e.shared.cfg == sh.cfg && Shrinks(sh.world, e.shared.world)
  {
    hide DestroyTarget, OnCurrent, AfterCurrent, SlotsOf;
  }

  lemma DestroyShrinks(sh: Shared, pc: Pc, choice: Choice, e: Effect)
    requires pc.Destroying? && DestroyStep(sh, pc.support, pc.failing, pc.ds, choice) == Some(e)
    ensures e.shared.cfg == sh.cfg && Shrinks(sh.world, e.shared.world)
  {
    hide DestroyCallStep;
    if StepProofs.IsCall(pc.ds) {
      DestroyCallShrinks(sh, pc, choice, e);
    }
  }

  lemma RoutineShrinks(sh: Shared, pc: Pc, choice: Choice, e: Effect)
    requires pc.Routine? && StepOf(sh, pc, choice) == Some(e)
    ensures e.shared.cfg == sh.cfg && Shrinks(sh.world, e.shared.world)
  {
    RoutineCalm(sh, pc, choice, e);
    hide StepOf;
  }

  lemma CallShrinks(sh: Shared, pc: Pc, choice: Choice, e: Effect)
    requires pc.Calling? && StepOf(sh, pc, choice) == Some(e)
    ensures e.shared.cfg == sh.cfg && Shrinks(sh.world, e.shared.world)
  {
    CallCalm(sh, pc, choice, e);
    hide StepOf;
  }

  lemma MadeUnfound(cfg: Config, world: World, id: Uuid, support: bool, container: ContainerId, made: Container)
    requires !KeepsCommon(cfg) && NoneFound(cfg, world) && made.labels == ContainerLabels(cfg, id, support)
    ensures NoneFound(cfg, world.With(container, made))
  {
    QueryFindsContainer(cfg, id, support, false);
    QueryFindsContainer(cfg, id, support, true);
    hide KeepsCommon, Matches, ContainerLabels, QueryLabels, CommonLabels;
  }

  lemma PushMakesNothing(sh: Shared, pc: Pc, choice: Choice, e: Effect)
    requires pc.Executing? && ExecuteStep(sh, pc.support, pc.context, pc.ex, choice) == Some(e)
    ensures e.shared.cfg == sh.cfg
    ensures e.shared.world == sh.world ||
      (choice.Made? && MayCreate(sh, pc.support, choice.id, choice.container, choice.made)
        && e.shared.world == sh.world.With(choice.container, choice.made))
  {
    hide MayCreate, SlotsOf, Push;
  }

  lemma MayCreateLabels(sh: Shared, support: bool, id: Uuid, container: ContainerId, made: Container)
    requires MayCreate(sh, support, id, container, made)
    ensures made.labels == ContainerLabels(sh.cfg, id, support)
  { }

  lemma CreateUnfound(sh: Shared, pc: Pc, choice: Choice, e: Effect)
    requires !KeepsCommon(sh.cfg) && NoneFound(sh.cfg, sh.world)
    requires pc.Executing? && ExecuteStep(sh, pc.support, pc.context, pc.ex, choice) == Some(e)
    ensures e.shared.cfg == sh.cfg && NoneFound(sh.cfg, e.shared.world)
  {
    hide KeepsCommon, NoneFound, MayCreate, ExecuteStep, ContainerLabels;
    PushMakesNothing(sh, pc, choice, e);
    if e.shared.world != sh.world {
      MayCreateLabels(sh, pc.support, choice.id, choice.container, choice.made);
      MadeUnfound(sh.cfg, sh.world, choice.id, pc.support, choice.container, choice.made);
    }
  }

  lemma PrepareUnfound(sh: Shared, choice: Choice, e: Effect)
    requires !KeepsCommon(sh.cfg) && NoneFound(sh.cfg, sh.world) && PrepareStep(sh, choice) == Some(e)
    ensures e.shared.cfg == sh.cfg && NoneFound(sh.cfg, e.shared.world)
  {
    QueryFindsVolume(sh.cfg);
    hide KeepsCommon, Matches, ResourceLabels, CommonLabels, QueryLabels;
  }

  lemma StepUnfound(sh: Shared, pc: Pc, choice: Choice, e: Effect)
    requires !KeepsCommon(sh.cfg) && NoneFound(sh.cfg, sh.world) && StepOf(sh, pc, choice) == Some(e)
    ensures e.shared.cfg == sh.cfg && NoneFound(sh.cfg, e.shared.world)
  {
    hide KeepsCommon, Matches, QueryLabels, CommonLabels, ExecuteStep, PrepareStep, DestroyStep, CallStep, RunStep,
      JudgeStep, ClearStep;
    match pc
    case Destroying(_, _, _) => DestroyShrinks(sh, pc, choice, e);
    case Routine(_, _, _, _) => RoutineShrinks(sh, pc, choice, e);
    case Calling(_, _) => CallShrinks(sh, pc, choice, e);
    case Executing(_, _, _) => CreateUnfound(sh, pc, choice, e);
    case Preparing => PrepareUnfound(sh, choice, e);
    case _ =>
  }

  lemma NextUnfound(s: State, l: Label)
    requires !KeepsCommon(s.shared.cfg) && NoneFound(s.shared.cfg, s.shared.world) && Next(s, l).Some?
    ensures Next(s, l).value.shared.cfg == s.shared.cfg && NoneFound(s.shared.cfg, Next(s, l).value.shared.world)
  {
    hide KeepsCommon, Matches, QueryLabels, CommonLabels, StepOf;
    if l.Thread? {
      StepUnfound(s.shared, s.threads[l.t], l.choice, StepOf(s.shared, s.threads[l.t], l.choice).value);
    }
  }

  lemma {:induction false} RunUnfound(s: State, labels: seq<Label>)
    requires !KeepsCommon(s.shared.cfg) && NoneFound(s.shared.cfg, s.shared.world) && Run(s, labels).Some?
    ensures Run(s, labels).value.shared.cfg == s.shared.cfg
    ensures NoneFound(s.shared.cfg, Run(s, labels).value.shared.world)
    decreases |labels|
  {
    hide KeepsCommon, NoneFound, Next;
    if labels != [] {
      NextUnfound(s, labels[0]);
      RunUnfound(Next(s, labels[0]).value, labels[1..]);
    }
  }

  lemma ScratchUnfound(s: State)
    requires FromScratch(s) && "" !in s.shared.world.volumes
    ensures NoneFound(s.shared.cfg, s.shared.world)
  {
    hide Matches, QueryLabels, CommonLabels, Start;
    var cfg, world := s.shared.cfg, s.shared.world;
    forall id | id in world.containers
      ensures !Matches(QueryLabels(cfg, false), world.containers[id].labels)
      ensures !Matches(QueryLabels(cfg, true), world.containers[id].labels)
    {
      assert id !in world.Matching(QueryLabels(cfg, false)) && id !in world.Matching(QueryLabels(cfg, true));
    }
    forall n | n in world.volumes ensures !Matches(CommonLabels(cfg), world.volumes[n]) {
      assert n !in world.MatchingVolumes(CommonLabels(cfg));
    }
  }

  lemma NoneTaken(cfg: Config, env: Recovery.Env, world: World, support: bool)
    requires NoneFound(cfg, world) && Readable(env)
    ensures Recovery.RecoverStore(cfg, env, world, support, "") == Recovery.Scan(world, [], None, false)
  {
    hide Matches, QueryLabels, CommonLabels, Recovery.CheckContainer;
    var query := QueryLabels(cfg, support);
    assert world.Matching(query) == {};
    RecoveryTheorems.ListingSize(env.arrange(world.Matching(query)), world.Matching(query));
    assert Recovery.Listed(env, world, query) == [];
  }

  lemma InitFindsNothing(cfg: Config, env: Recovery.Env, world: World)
    requires NoneFound(cfg, world) && Readable(env)
    ensures Recovery.Init(cfg, env, world)
         == Recovery.Executor(world, Recovery.Contents(None, None), Recovery.Contents(None, None), "", false, false)
  {
    hide Matches, QueryLabels, CommonLabels;
    RecoveryTheorems.VolumeRecovery(cfg, env, world);
    assert RecoveryTheorems.RunVolumes(cfg, world) == {};
    NoneTaken(cfg, env, world, true);
    NoneTaken(cfg, env, world, false);
    hide Recovery.RecoverVolume, Recovery.RecoverStore, Recovery.Init, NoneFound, Readable, RecoveryTheorems.RunVolumes;
    RecoveryTheorems.InitUnfolds(cfg, env, world);
  }

  /** With a volume prepared, a fresh executor takes over what exists if and only if the
    * configured labels leave the two common ones as they are and no Destroy has forgotten
    * a command whose container it failed to remove.
    */
  lemma RoundTripNeedsCommonLabels(s: State, labels: seq<Label>, env: Recovery.Env)
    requires FromScratch(s) && "" !in s.shared.world.volumes && DisciplinedRun(s, labels) && Run(s, labels).Some?
    requires Readable(env) && Run(s, labels).value.shared.volumeName != ""
    ensures var sh := Run(s, labels).value.shared;
      SameExecutor(sh, Recovery.Init(sh.cfg, env, sh.world)) <==> KeepsCommon(s.shared.cfg) && NothingForgotten(sh)
  {
    hide Start, KeepsCommon, DisciplinedRun, Readable, NoneFound, Run, NothingForgotten;
    if KeepsCommon(s.shared.cfg) {
      hide SameExecutor;
      RecoveryRoundTrip(s, labels, env);
    } else {
      ScratchUnfound(s);
      RunUnfound(s, labels);
      var sh := Run(s, labels).value.shared;
      InitFindsNothing(sh.cfg, env, sh.world);
    }
  }
}

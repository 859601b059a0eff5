/**
 Docker as the agent sees it, and the artifact storage built on it.

 Every command may fail, with or without having taken effect, and may take any time.  A
 volume that a container mounts cannot be removed.  Commands issued for cleanup never
 fail for reasons of their own when `cleanupReliable` is set; all others always may.
 */
module DockerHost {
  import opened Outcome
  import ArtifactCopy

  // ---------- Labels, names and plans ----------

  type Labels = map<string, string>

  predicate LabelsContain(actual: Labels, expected: Labels) {
    forall key | key in expected :: key in actual && actual[key] == expected[key]
  }

  const MANAGED_LABEL := "com.burd.managed"
  const JOB_LABEL := "com.burd.job_id"
  const LEASE_LABEL := "com.burd.lease_id"
  const PROVIDER_LABEL := "com.burd.provider_id"
  const DEVICE_LABEL := "com.burd.device_id"
  const SESSION_LABEL := "com.burd.session_id"
  const GPU_LABEL := "com.burd.gpu_uuid"
  const BACKEND_LABEL := "com.burd.runtime_backend"
  const ROLE_LABEL := "com.burd.artifact_role"

  datatype Identity = Identity(
    jobId: string, leaseId: string, providerId: string, deviceId: string, sessionId: string, gpuUuid: string)

  // The labels of every container and volume made for one assignment.
  function PlanLabels(id: Identity, backend: string): Labels {
    map[
      MANAGED_LABEL := "true", JOB_LABEL := id.jobId, LEASE_LABEL := id.leaseId,
      PROVIDER_LABEL := id.providerId, DEVICE_LABEL := id.deviceId, SESSION_LABEL := id.sessionId,
      GPU_LABEL := id.gpuUuid, BACKEND_LABEL := backend]
  }

  datatype PlanRecord = Plan(
    name: string, labels: Labels, artifactWorkspace: bool, inputs: nat, outputs: nat, inputBytes: nat, outputBytes: nat)

  type Plan = p: PlanRecord | ROLE_LABEL !in p.labels witness PlanRecord.Plan("", map[], false, 0, 0, 0, 0)

  datatype HelperRole = Import | Export | Anchor
  datatype VolumeRole = Input | Output

  function HelperText(role: HelperRole): string {
    match role case Import => "import" case Export => "export" case Anchor => "anchor"
  }

  function VolumeText(role: VolumeRole): string {
    match role case Input => "input" case Output => "output"
  }

  function HelperName(plan: Plan, role: HelperRole): string {
    plan.name + "-helper-" + HelperText(role)
  }

  function VolumeName(plan: Plan, role: VolumeRole): string {
    plan.name + "-artifact-" + VolumeText(role)
  }

  function RoleLabels(plan: Plan, text: string): Labels {
    plan.labels[ROLE_LABEL := text]
  }

  // The containers a plan has a name for.
  datatype Slot = Workload | Helper(role: HelperRole)

  function SlotName(plan: Plan, slot: Slot): string {
    match slot case Workload => plan.name case Helper(role) => HelperName(plan, role)
  }

  function SlotLabels(plan: Plan, slot: Slot): Labels {
    match slot case Workload => plan.labels case Helper(role) => RoleLabels(plan, HelperText(role))
  }

  predicate Owned(plan: Plan, labels: Labels) {
    LabelsContain(labels, plan.labels)
  }

  lemma {:induction false} RoleLabelsAreOwned(plan: Plan, text: string, labels: Labels)
    requires LabelsContain(labels, RoleLabels(plan, text))
    ensures Owned(plan, labels)
  {
    forall key | key in plan.labels ensures key in labels && labels[key] == plan.labels[key] {
      assert key in RoleLabels(plan, text);
    }
  }

  lemma {:induction false} NamesDiffer(plan: Plan)
    ensures HelperName(plan, Import) != HelperName(plan, Export)
    ensures HelperName(plan, Import) != HelperName(plan, Anchor)
    ensures HelperName(plan, Export) != HelperName(plan, Anchor)
    ensures VolumeName(plan, Input) != VolumeName(plan, Output)
    ensures forall role :: HelperName(plan, role) != plan.name
  {
    var n := |plan.name + "-helper-"|;
    assert HelperName(plan, Import)[n] == 'i' && HelperName(plan, Export)[n] == 'e';
    assert HelperName(plan, Anchor)[n] == 'a';
    var v := |plan.name + "-artifact-"|;
    assert VolumeName(plan, Input)[v] == 'i' && VolumeName(plan, Output)[v] == 'o';
    forall role ensures HelperName(plan, role) != plan.name {
      assert |HelperName(plan, role)| > |plan.name|;
    }
  }

  // No resource can carry the labels of two assignments that differ anywhere, so what one
  // of them owns the other never does, whatever their hashed names.
  lemma {:induction false} OwnersAreUnique(a: Identity, b: Identity, backendA: string, backendB: string,
                                           planA: Plan, planB: Plan, labels: Labels)
    requires planA.labels == PlanLabels(a, backendA) && planB.labels == PlanLabels(b, backendB)
    requires Owned(planA, labels) && Owned(planB, labels)
    ensures a == b
  {
    var keys := {JOB_LABEL, LEASE_LABEL, PROVIDER_LABEL, DEVICE_LABEL, SESSION_LABEL, GPU_LABEL};
    forall key | key in keys ensures planA.labels[key] == planB.labels[key] {
      assert labels[key] == planA.labels[key];
    }
    assert planA.labels[JOB_LABEL] == planB.labels[JOB_LABEL];
    assert planA.labels[LEASE_LABEL] == planB.labels[LEASE_LABEL];
    assert planA.labels[PROVIDER_LABEL] == planB.labels[PROVIDER_LABEL];
    assert planA.labels[DEVICE_LABEL] == planB.labels[DEVICE_LABEL];
    assert planA.labels[SESSION_LABEL] == planB.labels[SESSION_LABEL];
    assert planA.labels[GPU_LABEL] == planB.labels[GPU_LABEL];
  }

  // What a resource of an assignment is labelled with, key by key.
  lemma {:induction false} LabelsName(plan: Plan, id: Identity, backend: string, labels: Labels)
    requires plan.labels == PlanLabels(id, backend) && Owned(plan, labels)
    ensures "com.burd.managed" in labels && labels["com.burd.managed"] == "true"
    ensures "com.burd.job_id" in labels && labels["com.burd.job_id"] == id.jobId
    ensures "com.burd.lease_id" in labels && labels["com.burd.lease_id"] == id.leaseId
    ensures "com.burd.provider_id" in labels && labels["com.burd.provider_id"] == id.providerId
    ensures "com.burd.device_id" in labels && labels["com.burd.device_id"] == id.deviceId
    ensures "com.burd.session_id" in labels && labels["com.burd.session_id"] == id.sessionId
    ensures "com.burd.gpu_uuid" in labels && labels["com.burd.gpu_uuid"] == id.gpuUuid
    ensures "com.burd.runtime_backend" in labels && labels["com.burd.runtime_backend"] == backend
  {
    assert forall key | key in plan.labels :: labels[key] == plan.labels[key];
    assert MANAGED_LABEL in plan.labels && JOB_LABEL in plan.labels && LEASE_LABEL in plan.labels;
    assert PROVIDER_LABEL in plan.labels && DEVICE_LABEL in plan.labels && SESSION_LABEL in plan.labels;
    assert GPU_LABEL in plan.labels && BACKEND_LABEL in plan.labels;
  }

  // ---------- The world ----------

  datatype Access = ReadOnly | Writable

  // The volumes a container mounts, and how.
  type Mounts = map<string, Access>

  datatype Container = Container(labels: Labels, mounts: Mounts)

  // The driver and options of a volume: memory of a given size, owner and mode, or anything else.
  datatype Settings = Tmpfs(bytes: nat, owner: nat, mode: nat) | OtherSettings(text: string)

  datatype Volume = Volume(labels: Labels, settings: Settings)

  datatype World = World(containers: map<string, Container>, volumes: map<string, Volume>)

  function VolumeSettings(plan: Plan, role: VolumeRole): Settings {
    match role
    case Input => Tmpfs(ArtifactCopy.VolumeCapacity(plan.inputBytes), 0, 755)
    case Output => Tmpfs(ArtifactCopy.VolumeCapacity(plan.outputBytes), 1000, 700)
  }

  predicate Mounted(w: World, volume: string) {
    exists n | n in w.containers :: volume in w.containers[n].mounts
  }

  predicate WellFormed(w: World) {
    forall n | n in w.containers :: w.containers[n].mounts.Keys <= w.volumes.Keys
  }

  // From `a` to `b` nothing changed but what the plan owns: resources without all its
  // labels are as they were, and whatever is new carries them.
  ghost predicate Keeps(plan: Plan, a: World, b: World) {
    && (forall n | n in a.containers && !Owned(plan, a.containers[n].labels) ::
          n in b.containers && b.containers[n] == a.containers[n])
    && (forall n | n in b.containers && !Owned(plan, b.containers[n].labels) ::
          n in a.containers && a.containers[n] == b.containers[n])
    && (forall n | n in a.volumes && !Owned(plan, a.volumes[n].labels) ::
          n in b.volumes && b.volumes[n] == a.volumes[n])
    && (forall n | n in b.volumes && !Owned(plan, b.volumes[n].labels) ::
          n in a.volumes && a.volumes[n] == b.volumes[n])
  }

  // What carries another assignment's labels does not carry the plan's.
  ghost predicate Apart(mine: Plan, other: Plan) {
    forall labels: Labels | Owned(other, labels) :: !Owned(mine, labels)
  }

  lemma {:induction false} ApartContainers(mine: Plan, other: Plan, before: World, after: World)
    requires Apart(mine, other) && Keeps(mine, before, after)
    ensures OwnedContainers(other, before) == OwnedContainers(other, after)
  {
    forall n ensures n in OwnedContainers(other, before) <==> n in OwnedContainers(other, after) {}
  }

  lemma {:induction false} ApartVolumes(mine: Plan, other: Plan, before: World, after: World)
    requires Apart(mine, other) && Keeps(mine, before, after)
    ensures OwnedVolumes(other, before) == OwnedVolumes(other, after)
  {
    forall n ensures n in OwnedVolumes(other, before) <==> n in OwnedVolumes(other, after) {}
  }

  // Whatever another assignment owns, before or after, is left exactly as it was.
  lemma {:induction false} OtherAssignmentsUntouched(a: Identity, b: Identity, backendA: string, backendB: string,
                                                     mine: Plan, other: Plan, before: World, after: World)
    requires a != b && mine.labels == PlanLabels(a, backendA) && other.labels == PlanLabels(b, backendB)
    requires Keeps(mine, before, after)
    ensures OwnedContainers(other, before) == OwnedContainers(other, after)
    ensures OwnedVolumes(other, before) == OwnedVolumes(other, after)
  {
    assert Apart(mine, other) by {
      forall labels: Labels | Owned(other, labels) ensures !Owned(mine, labels) {
        if Owned(mine, labels) {
          OwnersAreUnique(a, b, backendA, backendB, mine, other, labels);
        }
      }
    }
    ApartContainers(mine, other, before, after);
    ApartVolumes(mine, other, before, after);
  }

  function OwnedContainers(plan: Plan, w: World): map<string, Container> {
    map n | n in w.containers && Owned(plan, w.containers[n].labels) :: w.containers[n]
  }

  function OwnedVolumes(plan: Plan, w: World): map<string, Volume> {
    map n | n in w.volumes && Owned(plan, w.volumes[n].labels) :: w.volumes[n]
  }

  function WithoutContainer(w: World, name: string): World {
    w.(containers := w.containers - {name})
  }

  function WithoutVolume(w: World, name: string): World {
    w.(volumes := w.volumes - {name})
  }

  function WithContainer(w: World, name: string, c: Container): World {
    w.(containers := w.containers[name := c])
  }

  function WithVolume(w: World, name: string, v: Volume): World {
    w.(volumes := w.volumes[name := v])
  }

  // ---------- The plan's own resources ----------

  // Whatever stands under a name of the plan is what the plan puts there.
  predicate SlotMatches(plan: Plan, w: World, slot: Slot) {
    var name := SlotName(plan, slot);
    name in w.containers ==> LabelsContain(w.containers[name].labels, SlotLabels(plan, slot))
  }

  predicate VolumeMatches(plan: Plan, w: World, role: VolumeRole) {
    var name := VolumeName(plan, role);
    name in w.volumes ==> LabelsContain(w.volumes[name].labels, RoleLabels(plan, VolumeText(role)))
  }

  ghost predicate IsHelper(plan: Plan, name: string) {
    exists role: HelperRole :: name == HelperName(plan, role)
  }

  predicate IsWorkload(plan: Plan, w: World, name: string) {
    name == plan.name && name in w.containers && Owned(plan, w.containers[name].labels)
  }

  predicate MountsNone(plan: Plan, c: Container) {
    VolumeName(plan, Input) !in c.mounts && VolumeName(plan, Output) !in c.mounts
  }

  ghost predicate NoConflict(plan: Plan, w: World) {
    && (forall role: HelperRole :: SlotMatches(plan, w, Helper(role)))
    && (forall role: VolumeRole :: VolumeMatches(plan, w, role))
  }

  // Everything under the plan's artifact names is its own, down to who mounts its volumes.
  ghost predicate Mine(plan: Plan, w: World) {
    && NoConflict(plan, w)
    && forall n | n in w.containers && !IsHelper(plan, n) && !IsWorkload(plan, w, n) ::
         MountsNone(plan, w.containers[n])
  }

  // What a reliable cleanup needs, and all it needs.
  ghost predicate Removable(plan: Plan, w: World) {
    NoConflict(plan, w) && forall n | n in w.containers && !IsHelper(plan, n) :: MountsNone(plan, w.containers[n])
  }

  ghost predicate NoArtifacts(plan: Plan, w: World) {
    && (forall role: HelperRole :: HelperName(plan, role) !in w.containers)
    && (forall role: VolumeRole :: VolumeName(plan, role) !in w.volumes)
  }

  // The plan's workload container is gone, and with it everything the plan stored.
  ghost predicate NothingLeft(plan: Plan, w: World) {
    && !IsWorkload(plan, w, plan.name)
    && (plan.artifactWorkspace ==> NoArtifacts(plan, w))
  }

  ghost predicate OtherContainersKept(plan: Plan, a: World, b: World) {
    forall n | !IsHelper(plan, n) ::
      (n in a.containers <==> n in b.containers) && (n in a.containers ==> a.containers[n] == b.containers[n])
  }

  // Where nothing stands under the artifact names, nothing is in the way.
  lemma {:induction false} NoArtifactsIsMine(plan: Plan, w: World)
    requires WellFormed(w) && NoArtifacts(plan, w)
    ensures Mine(plan, w)
  {
    forall role: HelperRole ensures SlotMatches(plan, w, Helper(role)) {
      assert HelperName(plan, role) !in w.containers;
    }
    forall role: VolumeRole ensures VolumeMatches(plan, w, role) {
      assert VolumeName(plan, role) !in w.volumes;
    }
    forall n | n in w.containers ensures MountsNone(plan, w.containers[n]) {
      assert w.containers[n].mounts.Keys <= w.volumes.Keys;
      assert VolumeName(plan, Input) !in w.volumes && VolumeName(plan, Output) !in w.volumes;
    }
  }

  // Once the workload is gone, nothing stands in the way of a reliable cleanup.
  lemma {:induction false} MineIsRemovable(plan: Plan, w: World)
    requires Mine(plan, w) && !IsWorkload(plan, w, plan.name)
    ensures Removable(plan, w)
  {
  }

  // A stranger's container under a helper's name is in the way.
  lemma {:induction false} ForeignHelperBlocks(plan: Plan, w: World, role: HelperRole)
    requires HelperName(plan, role) in w.containers && !Owned(plan, w.containers[HelperName(plan, role)].labels)
    ensures !Mine(plan, w)
  {
    if SlotMatches(plan, w, Helper(role)) {
      RoleLabelsAreOwned(plan, HelperText(role), w.containers[HelperName(plan, role)].labels);
    }
  }

  // And it is still there after anything that keeps what the plan does not own.
  lemma {:induction false} ForeignHelperStays(plan: Plan, before: World, after: World, role: HelperRole)
    requires HelperName(plan, role) in before.containers
    requires !Owned(plan, before.containers[HelperName(plan, role)].labels) && Keeps(plan, before, after)
    ensures HelperName(plan, role) in after.containers
    ensures after.containers[HelperName(plan, role)] == before.containers[HelperName(plan, role)]
    ensures !NoArtifacts(plan, after)
  {
  }

  const EXAMPLE_PLAN: Plan := PlanRecord.Plan("burd-job", map[MANAGED_LABEL := "true"], true, 1, 0, 1, 0)

  // A container without labels, under the name of the import helper.
  function ExampleWorld(): World {
    World(map[HelperName(EXAMPLE_PLAN, Import) := Container(map[], map[])], map[])
  }

  // From this world preparation cannot succeed and no cleanup can leave nothing, however reliable.
  lemma {:induction false} StrangerInTheWay(after: World)
    requires Keeps(EXAMPLE_PLAN, ExampleWorld(), after)
    ensures WellFormed(ExampleWorld()) && !Mine(EXAMPLE_PLAN, ExampleWorld()) && !NothingLeft(EXAMPLE_PLAN, after)
  {
    assert MANAGED_LABEL in EXAMPLE_PLAN.labels;
    assert !Owned(EXAMPLE_PLAN, map[]);
    ForeignHelperBlocks(EXAMPLE_PLAN, ExampleWorld(), Import);
    ForeignHelperStays(EXAMPLE_PLAN, ExampleWorld(), after, Import);
  }

  // ---------- The four changes the plan makes ----------

  // Removing what is its own, or adding it where nothing stands, clears nothing out of the plan's
  // way and puts nothing there.
  lemma {:induction false} ContainerGoes(plan: Plan, w: World, slot: Slot)
    requires SlotMatches(plan, w, slot)
    ensures var v := WithoutContainer(w, SlotName(plan, slot)); Mine(plan, v) == Mine(plan, w)
  {
    var v := WithoutContainer(w, SlotName(plan, slot));
    forall role: HelperRole ensures SlotMatches(plan, v, Helper(role)) == SlotMatches(plan, w, Helper(role)) {
      if SlotName(plan, Helper(role)) == SlotName(plan, slot) {
        SlotsDiffer(plan, Helper(role), slot);
      }
    }
    forall role: VolumeRole ensures VolumeMatches(plan, v, role) == VolumeMatches(plan, w, role) {}
    StrangersStay(plan, w, v, slot);
  }

  lemma {:induction false} ContainerComes(plan: Plan, w: World, slot: Slot, mounts: Mounts)
    requires SlotName(plan, slot) !in w.containers
    ensures var v := WithContainer(w, SlotName(plan, slot), Container(SlotLabels(plan, slot), mounts));
            Mine(plan, v) == Mine(plan, w)
  {
    var v := WithContainer(w, SlotName(plan, slot), Container(SlotLabels(plan, slot), mounts));
    forall role: HelperRole ensures SlotMatches(plan, v, Helper(role)) == SlotMatches(plan, w, Helper(role)) {
      if SlotName(plan, Helper(role)) == SlotName(plan, slot) {
        SlotsDiffer(plan, Helper(role), slot);
      }
    }
    forall role: VolumeRole ensures VolumeMatches(plan, v, role) == VolumeMatches(plan, w, role) {}
    StrangersStay(plan, v, w, slot);
  }

  // The containers that are neither helper nor workload are the same with and without a slot's own.
  lemma {:induction false} StrangersStay(plan: Plan, w: World, v: World, slot: Slot)
    requires SlotMatches(plan, w, slot) && v == WithoutContainer(w, SlotName(plan, slot))
    ensures forall n :: (n in w.containers && !IsHelper(plan, n) && !IsWorkload(plan, w, n))
                   <==> (n in v.containers && !IsHelper(plan, n) && !IsWorkload(plan, v, n))
  {
    var name := SlotName(plan, slot);
    if name in w.containers {
      match slot
      case Workload => assert IsWorkload(plan, w, name);
      case Helper(role) => assert IsHelper(plan, name);
    }
  }

  lemma {:induction false} VolumeGoes(plan: Plan, w: World, role: VolumeRole)
    requires VolumeMatches(plan, w, role)
    ensures var v := WithoutVolume(w, VolumeName(plan, role)); Mine(plan, v) == Mine(plan, w)
  {
    var v := WithoutVolume(w, VolumeName(plan, role));
    forall other: HelperRole ensures SlotMatches(plan, v, Helper(other)) == SlotMatches(plan, w, Helper(other)) {}
    forall other: VolumeRole ensures VolumeMatches(plan, v, other) == VolumeMatches(plan, w, other) {
      SameVolume(plan, role, other);
    }
  }

  lemma {:induction false} VolumeComes(plan: Plan, w: World, role: VolumeRole, settings: Settings)
    requires VolumeName(plan, role) !in w.volumes
    ensures var v := WithVolume(w, VolumeName(plan, role), Volume(RoleLabels(plan, VolumeText(role)), settings));
            Mine(plan, v) == Mine(plan, w)
  {
    var v := WithVolume(w, VolumeName(plan, role), Volume(RoleLabels(plan, VolumeText(role)), settings));
    forall other: HelperRole ensures SlotMatches(plan, v, Helper(other)) == SlotMatches(plan, w, Helper(other)) {}
    forall other: VolumeRole ensures VolumeMatches(plan, v, other) == VolumeMatches(plan, w, other) {
      SameVolume(plan, role, other);
    }
  }

  lemma {:induction false} SameVolume(plan: Plan, a: VolumeRole, b: VolumeRole)
    ensures VolumeName(plan, a) == VolumeName(plan, b) ==> a == b
  {
    NamesDiffer(plan);
  }

  lemma {:induction false} SlotsDiffer(plan: Plan, a: Slot, b: Slot)
    ensures SlotName(plan, a) == SlotName(plan, b) ==> a == b
  {
    NamesDiffer(plan);
    if a.Helper? && b.Workload? {
      assert HelperName(plan, a.role) != plan.name;
    } else if a.Workload? && b.Helper? {
      assert HelperName(plan, b.role) != plan.name;
    }
  }

  // ---------- Commands ----------

  datatype Code =
    | CommandCancelled | CommandTimedOut
    | HelperNameConflict | VolumeNameConflict
    | VolumeCreateInvalid | AnchorMissing | AnchorNameConflict | AnchorNotRunning
    | HelperFailed | HelperCleanupFailed
    | OtherCode(text: string)

  datatype ContainerState = ContainerState(running: bool, exitCode: Option<int>, oomKilled: bool)

  // A deadline, and whether the command belongs to cleanup.
  datatype Control = Control(until: int, cleanup: bool)

  const HELPER_POLL_INTERVAL: nat := 25_000_000
  const HELPER_CLEANUP_TIMEOUT: nat := 10_000_000_000

  datatype Command = Verify | Start | Logs | CopyIn | CopyOut | Terminate | Kill

  // What Docker was asked to do, with which container or volume, and how it ended; of what is to be
  // created also its name and what it is to be.
  datatype Deed =
    | FoundContainer(slot: Slot, labels: Result<Option<Labels>, Code>)
    | CreatedContainer(slot: Slot, name: string, made: Container, result: Result<(), Code>)
    | RemovedContainer(slot: Slot, result: Result<(), Code>)
    | Inspected(slot: Slot, seen: Result<ContainerState, Code>)
    | Commanded(command: Command, slot: Slot, result: Result<(), Code>)
    | FoundVolume(role: VolumeRole, volume: Result<Option<Volume>, Code>)
    | CreatedVolume(role: VolumeRole, name: string, kept: Volume, result: Result<(), Code>)
    | RemovedVolume(role: VolumeRole, result: Result<(), Code>)

  // A command Docker was given: when, when it came back, whether the job was cancelled when it was given,
  // and under which control.
  datatype Act = Act(at: int, end: int, cancelled: bool, control: Control, deed: Deed)

  // Everything Docker was asked to do, the latest last.
  datatype History = Nothing | After(earlier: History, act: Act)

  predicate OnVolume(d: Deed) {
    d.FoundVolume? || d.CreatedVolume? || d.RemovedVolume?
  }

  // The command concerns the artifacts alone, and was given from some time on under a control or as cleanup.
  predicate Internal(act: Act, control: Control, from: int) {
    && act.at >= from && (act.control == control || act.control.cleanup)
    && (OnVolume(act.deed) || act.deed.slot != Workload)
  }

  // Between two points Docker was asked for nothing but that.
  predicate Inner(a: History, b: History, control: Control, from: int) {
    a == b || (b.After? && Internal(b.act, control, from) && Inner(a, b.earlier, control, from))
  }

  lemma {:induction false} InnerJoins(plan: Plan, a: History, b: History, c: History,
                                      control: Control, from: int, later: int)
    requires Inner(a, b, control, from) && Inner(b, c, control, later) && from <= later
    ensures Inner(a, c, control, from)
    ensures Faults(plan, a) <= Faults(plan, b) <= Faults(plan, c)
  {
    FaultsGrow(plan, a, b, control, from);
    if b != c {
      InnerJoins(plan, a, b, c.earlier, control, from, later);
    }
  }

  // What goes wrong with the artifacts: a command fails; what has a name is not the plan's, or not as it
  // should be; the anchor is not there or not running; a helper exits badly or is still running at its
  // deadline.
  predicate GoesWrong(plan: Plan, act: Act) {
    match act.deed
    case FoundContainer(slot, found) =>
      || found.Err?
      || (slot != Workload && (if found.value.None? then slot == Helper(Anchor)
                               else !LabelsContain(found.value.value, SlotLabels(plan, slot))))
    case CreatedContainer(_, _, _, result) => result.Err?
    case RemovedContainer(_, result) => result.Err?
    case Commanded(_, _, result) => result.Err?
    case Inspected(slot, seen) =>
      || seen.Err?
      || (slot == Helper(Anchor) && !seen.value.running)
      || (slot != Helper(Anchor) && slot != Workload
          && (if seen.value.running then act.end >= act.control.until
              else seen.value.exitCode != Some(0) || seen.value.oomKilled))
    case FoundVolume(role, found) =>
      || found.Err? || found.value.None? || found.value.value.settings != VolumeSettings(plan, role)
      || !LabelsContain(found.value.value.labels, RoleLabels(plan, VolumeText(role)))
    case CreatedVolume(_, _, _, result) => result.Err?
    case RemovedVolume(_, result) => result.Err?
  }

  // How much of that there was.
  function Faults(plan: Plan, h: History): nat {
    if h.Nothing? then 0 else Faults(plan, h.earlier) + if GoesWrong(plan, h.act) then 1 else 0
  }

  lemma {:induction false} FaultsGrow(plan: Plan, a: History, b: History, control: Control, from: int)
    requires Inner(a, b, control, from)
    ensures Faults(plan, a) <= Faults(plan, b)
  {
    if a != b {
      FaultsGrow(plan, a, b.earlier, control, from);
    }
  }

  predicate Succeeded(act: Act, command: Command, slot: Slot) {
    act.deed.Commanded? && act.deed.command == command && act.deed.slot == slot && act.deed.result.Ok?
  }

  // What is asked of Docker for each helper and each volume, written out: names, labels, mounts, size,
  // owner and mode.
  function HelperDeed(plan: Plan, role: HelperRole): Deed {
    var input, output := plan.name + "-artifact-input", plan.name + "-artifact-output";
    match role
    case Import => CreatedContainer(
      Helper(Import), plan.name + "-helper-import",
      Container(plan.labels["com.burd.artifact_role" := "import"], map[input := Writable]), Ok(()))
    case Export => CreatedContainer(
      Helper(Export), plan.name + "-helper-export",
      Container(plan.labels["com.burd.artifact_role" := "export"], map[output := ReadOnly]), Ok(()))
    case Anchor => CreatedContainer(
      Helper(Anchor), plan.name + "-helper-anchor",
      Container(plan.labels["com.burd.artifact_role" := "anchor"], map[input := ReadOnly, output := ReadOnly]), Ok(()))
  }

  function VolumeDeed(plan: Plan, role: VolumeRole): Deed {
    match role
    case Input => CreatedVolume(
      Input, plan.name + "-artifact-input",
      Volume(
        plan.labels["com.burd.artifact_role" := "input"],
        Tmpfs(ArtifactCopy.VolumeCapacity(plan.inputBytes), 0, 755)),
      Ok(()))
    case Output => CreatedVolume(
      Output, plan.name + "-artifact-output",
      Volume(
        plan.labels["com.burd.artifact_role" := "output"],
        Tmpfs(ArtifactCopy.VolumeCapacity(plan.outputBytes), 1000, 700)),
      Ok(()))
  }

  lemma {:induction false} NamesWrittenOut(plan: Plan)
    ensures VolumeName(plan, Input) == plan.name + "-artifact-input"
    ensures VolumeName(plan, Output) == plan.name + "-artifact-output"
    ensures HelperName(plan, Import) == plan.name + "-helper-import"
    ensures HelperName(plan, Export) == plan.name + "-helper-export"
    ensures HelperName(plan, Anchor) == plan.name + "-helper-anchor"
  {
    assert plan.name + "-artifact-" + "input" == plan.name + ("-artifact-" + "input");
    assert plan.name + "-artifact-" + "output" == plan.name + ("-artifact-" + "output");
    assert plan.name + "-helper-" + "import" == plan.name + ("-helper-" + "import");
    assert plan.name + "-helper-" + "export" == plan.name + ("-helper-" + "export");
    assert plan.name + "-helper-" + "anchor" == plan.name + ("-helper-" + "anchor");
  }

  lemma {:induction false} HelperIsAsked(plan: Plan, role: HelperRole)
    ensures HelperDeed(plan, role) == CreatedContainer(
      Helper(role), HelperName(plan, role), Container(SlotLabels(plan, Helper(role)), HelperMounts(plan, role)), Ok(()))
  {
    NamesWrittenOut(plan);
  }

  lemma {:induction false} VolumeIsAsked(plan: Plan, role: VolumeRole)
    ensures VolumeDeed(plan, role) == CreatedVolume(
      role, VolumeName(plan, role), Volume(RoleLabels(plan, VolumeText(role)), VolumeSettings(plan, role)), Ok(()))
  {
    NamesWrittenOut(plan);
  }

  // How often something was done.
  function Times(h: History, d: Deed): nat {
    if h.Nothing? then 0 else Times(h.earlier, d) + if h.act.deed == d then 1 else 0
  }

  lemma {:induction false} TimesGrow(a: History, b: History, control: Control, from: int, d: Deed)
    requires Inner(a, b, control, from)
    ensures Times(a, d) <= Times(b, d)
  {
    if a != b {
      TimesGrow(a, b.earlier, control, from, d);
    }
  }

  // Between two points both volumes were made.
  predicate VolumesMade(plan: Plan, a: History, b: History) {
    && Times(b, VolumeDeed(plan, Input)) > Times(a, VolumeDeed(plan, Input))
    && Times(b, VolumeDeed(plan, Output)) > Times(a, VolumeDeed(plan, Output))
  }

  // And the anchor, last seen running.
  predicate StorageMade(plan: Plan, a: History, b: History) {
    && VolumesMade(plan, a, b) && Times(b, HelperDeed(plan, Anchor)) > Times(a, HelperDeed(plan, Anchor))
    && b.After? && SeenRunning(b.act, Helper(Anchor))
  }

  predicate Removed(act: Act, slot: Slot) {
    act.deed.RemovedContainer? && act.deed.slot == slot && act.deed.result.Ok?
  }

  predicate SeenRunning(act: Act, slot: Slot) {
    act.deed.Inspected? && act.deed.slot == slot && act.deed.seen.Ok? && act.deed.seen.value.running
  }

  predicate SeenDone(act: Act, slot: Slot) {
    && act.deed.Inspected? && act.deed.slot == slot && act.deed.seen.Ok?
    && !act.deed.seen.value.running && act.deed.seen.value.exitCode == Some(0) && !act.deed.seen.value.oomKilled
  }

  // A container just seen running is not looked at again for 25 milliseconds, or until its time is up.
  predicate Rested(h: History, slot: Slot, next: int) {
    h.After? && SeenRunning(h.act, slot) ==> next >= Min(h.act.end + 25_000_000, h.act.control.until)
  }

  // A helper was started, seen running any number of times, and then seen to have exited well.
  predicate Ran(a: History, b: History, slot: Slot) {
    b.After? && SeenDone(b.act, slot) && StartedAndSeen(a, b.earlier, slot) && Rested(b.earlier, slot, b.act.at)
  }

  predicate StartedAndSeen(a: History, b: History, slot: Slot) {
    && b.After?
    && (|| (b.earlier == a && Succeeded(b.act, Start, slot))
        || (SeenRunning(b.act, slot) && StartedAndSeen(a, b.earlier, slot) && Rested(b.earlier, slot, b.act.at)))
  }

  // Inputs go into the helper before it runs, outputs come out of it after.
  ghost predicate CopiedAndRan(a: History, b: History, role: HelperRole) {
    if role == Import then
      exists act :: Succeeded(act, CopyIn, Helper(role)) && Ran(After(a, act), b, Helper(role))
    else
      b.After? && Succeeded(b.act, CopyOut, Helper(role)) && Ran(a, b.earlier, Helper(role))
  }

  predicate AnchorSeen(a: History, b: History) {
    && b.After? && SeenRunning(b.act, Helper(Anchor))
    && b.earlier.After? && b.earlier.act.deed.FoundContainer? && b.earlier.act.deed.slot == Helper(Anchor)
    && b.earlier.earlier == a
  }

  // Files were moved through a helper: the anchor was seen running, the helper made, run and removed, the
  // last with ten seconds of its own.
  ghost predicate Moved(plan: Plan, a: History, b: History, role: HelperRole) {
    && b.After? && Removed(b.act, Helper(role)) && b.act.control == Control(b.act.at + 10_000_000_000, true)
    && exists made: History ::
      && made.After? && made.act.deed == HelperDeed(plan, role) && AnchorSeen(a, made.earlier)
      && CopiedAndRan(made, b.earlier, role)
  }

  // ---------- Attempts to remove ----------

  datatype Target = HelperTarget(helper: HelperRole) | VolumeTarget(volume: VolumeRole)

  predicate OwnHelper(plan: Plan, role: HelperRole, found: Result<Option<Labels>, Code>) {
    found.Ok? && found.value.Some? && LabelsContain(found.value.value, SlotLabels(plan, Helper(role)))
  }

  predicate OwnVolume(plan: Plan, role: VolumeRole, found: Result<Option<Volume>, Code>) {
    found.Ok? && found.value.Some? && LabelsContain(found.value.value.labels, RoleLabels(plan, VolumeText(role)))
  }

  // What a look alone comes to: nothing there is fine, something that is not the plan's own is a conflict.
  function Judged<T>(found: Result<Option<T>, Code>, conflict: Code): Result<(), Code> {
    if found.Err? then Err(found.error) else if found.value.None? then Ok(()) else Err(conflict)
  }

  // It is looked up, and removed exactly if it is there and the plan's own.
  predicate HelperTried(plan: Plan, role: HelperRole, a: History, b: History, result: Result<(), Code>) {
    b.After? &&
    if b.act.deed.RemovedContainer? then
      && b.act.deed == RemovedContainer(Helper(role), result)
      && b.earlier.After? && b.earlier.earlier == a && b.earlier.act.deed.FoundContainer?
      && b.earlier.act.deed.slot == Helper(role) && OwnHelper(plan, role, b.earlier.act.deed.labels)
    else
      && b.earlier == a && b.act.deed.FoundContainer? && b.act.deed.slot == Helper(role)
      && !OwnHelper(plan, role, b.act.deed.labels) && result == Judged(b.act.deed.labels, HelperNameConflict)
  }

  predicate VolumeTried(plan: Plan, role: VolumeRole, a: History, b: History, result: Result<(), Code>) {
    b.After? &&
    if b.act.deed.RemovedVolume? then
      && b.act.deed == RemovedVolume(role, result)
      && b.earlier.After? && b.earlier.earlier == a && b.earlier.act.deed.FoundVolume?
      && b.earlier.act.deed.role == role && OwnVolume(plan, role, b.earlier.act.deed.volume)
    else
      && b.earlier == a && b.act.deed.FoundVolume? && b.act.deed.role == role
      && !OwnVolume(plan, role, b.act.deed.volume) && result == Judged(b.act.deed.volume, VolumeNameConflict)
  }

  predicate Tried(plan: Plan, target: Target, a: History, b: History, result: Result<(), Code>) {
    match target
    case HelperTarget(role) => HelperTried(plan, role, a, b, result)
    case VolumeTarget(role) => VolumeTried(plan, role, a, b, result)
  }

  const HELPER_ROLES: seq<HelperRole> := [Import, Export, Anchor]
  const VOLUME_ROLES: seq<VolumeRole> := [Input, Output]

  const TARGETS: seq<Target> := [
    HelperTarget(Import), HelperTarget(Export), HelperTarget(Anchor), VolumeTarget(Input), VolumeTarget(Output)]

  // The error a result adds to the first one so far.
  function FirstOf(earlier: Option<Code>, result: Result<(), Code>): Option<Code> {
    if earlier.None? && result.Err? then Some(result.error) else earlier
  }

  // Where the latest attempt began, and what it came to.
  function TryStart(b: History): History
    requires b.After?
  {
    if (b.act.deed.RemovedContainer? || b.act.deed.RemovedVolume?) && b.earlier.After? then b.earlier.earlier
    else b.earlier
  }

  function TryResult(b: History): Result<(), Code>
    requires b.After?
  {
    match b.act.deed
    case RemovedContainer(_, result) => result
    case RemovedVolume(_, result) => result
    case FoundContainer(_, labels) => Judged(labels, HelperNameConflict)
    case FoundVolume(_, volume) => Judged(volume, VolumeNameConflict)
    case _ => Ok(())
  }

  // The first n removals were tried in order, whatever came of each.
  predicate Swept(plan: Plan, n: nat, a: History, b: History)
    requires n <= |TARGETS|
  {
    if n == 0 then a == b else
      && b.After? && Tried(plan, TARGETS[n - 1], TryStart(b), b, TryResult(b))
      && Swept(plan, n - 1, a, TryStart(b))
  }

  // The first error among them.
  function FirstError(n: nat, b: History): Option<Code> {
    if n == 0 || b.Nothing? then None else FirstOf(FirstError(n - 1, TryStart(b)), TryResult(b))
  }

  lemma {:induction false} SweepNext(plan: Plan, n: nat, a: History, mid: History, b: History, result: Result<(), Code>)
    requires n < |TARGETS| && Swept(plan, n, a, mid) && Tried(plan, TARGETS[n], mid, b, result)
    ensures Swept(plan, n + 1, a, b) && FirstError(n + 1, b) == FirstOf(FirstError(n, mid), result)
  {
    assert TryStart(b) == mid && TryResult(b) == result;
  }

  class Docker {
    const plan: Plan
    const cleanupReliable: bool
    ghost const origin: World
    ghost const mine: bool           // nothing stood in the plan's way to begin with
    var world: World
    var now: int
    var cancelled: bool
    var log: History

    ghost predicate Valid()
      reads this
    {
      WellFormed(world) && Keeps(plan, origin, world) && mine == Mine(plan, world)
    }

    constructor (plan: Plan, cleanupReliable: bool, world: World, now: int)
      requires WellFormed(world)
      ensures Valid() && this.plan == plan && this.cleanupReliable == cleanupReliable
      ensures this.world == world && origin == world && mine == Mine(plan, world)
      ensures this.now == now && log == Nothing
    {
      this.plan, this.cleanupReliable, this.world, this.now := plan, cleanupReliable, world, now;
      origin, mine, log := world, Mine(plan, world), Nothing;
      cancelled := *;
    }

    // Time passes, and the job may be cancelled meanwhile.
    method Elapse()
      modifies this`now, this`cancelled
      ensures now >= old(now) && (old(cancelled) ==> cancelled)
    {
      var spent: int := *;
      now := if spent > 0 then now + spent else now;
      if * {
        cancelled := true;
      }
    }

    method Sleep(duration: nat)
      modifies this`now, this`cancelled
      ensures now >= old(now) + duration && (old(cancelled) ==> cancelled)
    {
      now := now + duration;
      Elapse();
    }

    method FindContainer(slot: Slot, control: Control) returns (r: Result<Option<Labels>, Code>)
      modifies this`now, this`cancelled, this`log
      ensures now >= old(now) && (old(cancelled) ==> cancelled)
      ensures log == After(old(log), Act(old(now), now, old(cancelled), control, FoundContainer(slot, r)))
      ensures r.Ok? ==> (r.value.Some? <==> SlotName(plan, slot) in world.containers)
      ensures r.Ok? && r.value.Some? ==> r.value.value == world.containers[SlotName(plan, slot)].labels
      ensures control.cleanup && cleanupReliable ==> r.Ok?
    {
      var name, at, late := SlotName(plan, slot), now, cancelled;
      Elapse();
      var code: Code := *;
      r := Err(code);
      var answered: bool := *;
      if (control.cleanup && cleanupReliable) || answered {
        r := Ok(if name in world.containers then Some(world.containers[name].labels) else None);
      }
      log := After(log, Act(at, now, late, control, FoundContainer(slot, r)));
    }

    method FindVolume(role: VolumeRole, control: Control) returns (r: Result<Option<Volume>, Code>)
      modifies this`now, this`cancelled, this`log
      ensures now >= old(now) && (old(cancelled) ==> cancelled)
      ensures log == After(old(log), Act(old(now), now, old(cancelled), control, FoundVolume(role, r)))
      ensures r.Ok? ==> (r.value.Some? <==> VolumeName(plan, role) in world.volumes)
      ensures r.Ok? && r.value.Some? ==> r.value.value == world.volumes[VolumeName(plan, role)]
      ensures control.cleanup && cleanupReliable ==> r.Ok?
    {
      var name, at, late := VolumeName(plan, role), now, cancelled;
      Elapse();
      var code: Code := *;
      r := Err(code);
      var answered: bool := *;
      if (control.cleanup && cleanupReliable) || answered {
        r := Ok(if name in world.volumes then Some(world.volumes[name]) else None);
      }
      log := After(log, Act(at, now, late, control, FoundVolume(role, r)));
    }

    // docker rm --force
    method RemoveContainer(slot: Slot, control: Control) returns (r: Result<(), Code>)
      requires Valid() && SlotMatches(plan, world, slot)
      modifies this`world, this`now, this`cancelled, this`log
      ensures Valid() && now >= old(now) && (old(cancelled) ==> cancelled)
      ensures log == After(old(log), Act(old(now), now, old(cancelled), control, RemovedContainer(slot, r)))
      ensures world == WithoutContainer(old(world), SlotName(plan, slot)) || (r.Err? && world == old(world))
      ensures control.cleanup && cleanupReliable ==> r.Ok?
    {
      var at, late := now, cancelled;
      Elapse();
      var code: Code := *;
      r := Err(code);
      var done: bool := *;
      if (control.cleanup && cleanupReliable) || done {
        SlotIsOwned(plan, world, slot);
        ContainerGoes(plan, world, slot);
        world := WithoutContainer(world, SlotName(plan, slot));
        var reported: bool := *;
        if (control.cleanup && cleanupReliable) || reported {
          r := Ok(());
        }
      }
      log := After(log, Act(at, now, late, control, RemovedContainer(slot, r)));
    }

    // docker volume rm
    method RemoveVolume(role: VolumeRole, control: Control) returns (r: Result<(), Code>)
      requires Valid() && VolumeMatches(plan, world, role)
      modifies this`world, this`now, this`cancelled, this`log
      ensures Valid() && now >= old(now) && (old(cancelled) ==> cancelled)
      ensures log == After(old(log), Act(old(now), now, old(cancelled), control, RemovedVolume(role, r)))
      ensures world == old(world)
           || (&& world == WithoutVolume(old(world), VolumeName(plan, role))
               && !Mounted(old(world), VolumeName(plan, role)))
      ensures r.Ok? ==>
        world == WithoutVolume(old(world), VolumeName(plan, role)) && !Mounted(old(world), VolumeName(plan, role))
      ensures control.cleanup && cleanupReliable && !Mounted(old(world), VolumeName(plan, role)) ==> r.Ok?
    {
      var name, at, late := VolumeName(plan, role), now, cancelled;
      Elapse();
      var code: Code := *;
      r := Err(code);
      var done: bool := *;
      if !Mounted(world, name) && ((control.cleanup && cleanupReliable) || done) {
        VolumeIsOwned(plan, world, role);
        VolumeGoes(plan, world, role);
        world := WithoutVolume(world, name);
        var reported: bool := *;
        if (control.cleanup && cleanupReliable) || reported {
          r := Ok(());
        }
      }
      log := After(log, Act(at, now, late, control, RemovedVolume(role, r)));
    }

    // docker create: refused when the name is taken or a volume is missing.
    method CreateContainer(slot: Slot, mounts: Mounts, control: Control) returns (r: Result<(), Code>)
      requires Valid()
      modifies this`world, this`now, this`cancelled, this`log
      ensures Valid() && now >= old(now) && (old(cancelled) ==> cancelled)
      ensures log == After(old(log), Act(old(now), now, old(cancelled), control,
        CreatedContainer(slot, SlotName(plan, slot), Container(SlotLabels(plan, slot), mounts), r)))
      ensures world == old(world) || ContainerAdded(plan, old(world), world, slot, mounts)
      ensures r.Ok? ==> r == Ok(()) && ContainerAdded(plan, old(world), world, slot, mounts)
    {
      var name, at, late := SlotName(plan, slot), now, cancelled;
      Elapse();
      var code: Code := *;
      r := Err(code);
      var done: bool := *;
      if done && name !in world.containers && mounts.Keys <= world.volumes.Keys {
        SlotLabelsAreOwned(plan, slot);
        ContainerComes(plan, world, slot, mounts);
        world := WithContainer(world, name, Container(SlotLabels(plan, slot), mounts));
        var reported: bool := *;
        if reported {
          r := Ok(());
        }
      }
      log := After(log, Act(at, now, late, control, CreatedContainer(
        slot, name, Container(SlotLabels(plan, slot), mounts), r)));
    }

    // docker volume create: an existing volume keeps its own labels and options.
    method CreateVolume(role: VolumeRole, control: Control) returns (r: Result<(), Code>)
      requires Valid()
      modifies this`world, this`now, this`cancelled, this`log
      ensures Valid() && now >= old(now) && (old(cancelled) ==> cancelled)
      ensures log == After(old(log), Act(old(now), now, old(cancelled), control, CreatedVolume(
        role, VolumeName(plan, role), Volume(RoleLabels(plan, VolumeText(role)), VolumeSettings(plan, role)), r)))
      ensures world == old(world) || VolumeAdded(plan, old(world), world, role)
      ensures r.Ok? ==> r == Ok(())
    {
      var name, at, late := VolumeName(plan, role), now, cancelled;
      Elapse();
      var code: Code := *;
      r := Err(code);
      var done: bool := *;
      if done {
        if name !in world.volumes {
          RoleLabelsAreOwned(plan, VolumeText(role), RoleLabels(plan, VolumeText(role)));
          VolumeComes(plan, world, role, VolumeSettings(plan, role));
          world := WithVolume(world, name, Volume(RoleLabels(plan, VolumeText(role)), VolumeSettings(plan, role)));
        }
        var reported: bool := *;
        if reported {
          r := Ok(());
        }
      }
      log := After(log, Act(at, now, late, control, CreatedVolume(
        role, name, Volume(RoleLabels(plan, VolumeText(role)), VolumeSettings(plan, role)), r)));
    }

    // A look at a container, which may answer anything.
    method Inspect(slot: Slot, control: Control) returns (r: Result<ContainerState, Code>)
      modifies this`now, this`cancelled, this`log
      ensures now >= old(now) && (old(cancelled) ==> cancelled)
      ensures log == After(old(log), Act(old(now), now, old(cancelled), control, Inspected(slot, r)))
      ensures r.Ok? && r.value.running ==> r.value.exitCode == None
    {
      var at, late := now, cancelled;
      Elapse();
      var running: bool := *;
      var exitCode: int := *;
      var oomKilled: bool := *;
      r := Ok(ContainerState(running, if running then None else Some(exitCode), oomKilled));
      if * {
        var code: Code := *;
        r := Err(code);
      }
      log := After(log, Act(at, now, late, control, Inspected(slot, r)));
    }

    // Any other command on a container already there.
    method Perform(command: Command, slot: Slot, control: Control) returns (r: Result<(), Code>)
      modifies this`now, this`cancelled, this`log
      ensures now >= old(now) && (old(cancelled) ==> cancelled)
      ensures log == After(old(log), Act(old(now), now, old(cancelled), control, Commanded(command, slot, r)))
    {
      var at, late := now, cancelled;
      Elapse();
      r := Ok(());
      if * {
        var code: Code := *;
        r := Err(code);
      }
      log := After(log, Act(at, now, late, control, Commanded(command, slot, r)));
    }

    // ---------- Artifact storage ----------

    // remove_owned_helper: by name, and only if the labels say it is the plan's own.
    method RemoveOwnedHelper(role: HelperRole, control: Control) returns (r: Result<(), Code>)
      requires Valid()
      modifies this`world, this`now, this`cancelled, this`log
      ensures Valid() && now >= old(now) && (old(cancelled) ==> cancelled)
      ensures HelperTried(plan, role, old(log), log, r) && Inner(old(log), log, control, old(now))
      ensures HelperStep(plan, old(world), world, role, r, control.cleanup && cleanupReliable)
      ensures r.Err? ==> Faults(plan, log) > Faults(plan, old(log))
    {
      var existing := FindContainer(Helper(role), control);
      if existing.Err? {
        r := Err(existing.error);
      } else if existing.value.None? {
        r := Ok(());
      } else if !LabelsContain(existing.value.value, SlotLabels(plan, Helper(role))) {
        r := Err(HelperNameConflict);
      } else {
        r := RemoveContainer(Helper(role), control);
      }
    }

    // remove_owned_volume.
    method RemoveOwnedVolume(role: VolumeRole, control: Control) returns (r: Result<(), Code>)
      requires Valid()
      modifies this`world, this`now, this`cancelled, this`log
      ensures Valid() && now >= old(now) && (old(cancelled) ==> cancelled)
      ensures VolumeTried(plan, role, old(log), log, r) && Inner(old(log), log, control, old(now))
      ensures VolumeStep(plan, old(world), world, role, r, control.cleanup && cleanupReliable)
      ensures r.Err? ==> Faults(plan, log) > Faults(plan, old(log))
    {
      var existing := FindVolume(role, control);
      if existing.Err? {
        r := Err(existing.error);
      } else if existing.value.None? {
        r := Ok(());
      } else if !LabelsContain(existing.value.value.labels, RoleLabels(plan, VolumeText(role))) {
        r := Err(VolumeNameConflict);
      } else {
        r := RemoveVolume(role, control);
      }
    }

    method SweepOneHelper(i: nat, control: Control, ghost start: History) returns (r: Result<(), Code>)
      requires Valid() && i < |HELPER_ROLES| && Swept(plan, i, start, log)
      modifies this`world, this`now, this`cancelled, this`log
      ensures Valid() && now >= old(now) && (old(cancelled) ==> cancelled)
      ensures Swept(plan, i + 1, start, log) && FirstError(i + 1, log) == FirstOf(FirstError(i, old(log)), r)
      ensures Inner(old(log), log, control, old(now))
      ensures HelperStep(plan, old(world), world, HELPER_ROLES[i], r, control.cleanup && cleanupReliable)
    {
      r := RemoveOwnedHelper(HELPER_ROLES[i], control);
      SweepNext(plan, i, start, old(log), log, r);
    }

    // The helpers' half of cleanup_artifact_storage.
    method CleanupHelpers(control: Control) returns (first: Option<Code>)
      requires Valid()
      modifies this`world, this`now, this`cancelled, this`log
      ensures Valid() && now >= old(now) && (old(cancelled) ==> cancelled)
      ensures Swept(plan, |HELPER_ROLES|, old(log), log) && first == FirstError(|HELPER_ROLES|, log)
      ensures Inner(old(log), log, control, old(now))
      ensures HelpersDone(plan, old(world), world, |HELPER_ROLES|, first, control.cleanup && cleanupReliable)
    {
      hide Mine, Keeps, WellFormed, Tried, HelperStep;
      first := None;
      ghost var sure := control.cleanup && cleanupReliable;
      for i := 0 to |HELPER_ROLES|
        invariant Valid() && now >= old(now) && (old(cancelled) ==> cancelled)
        invariant Swept(plan, i, old(log), log) && first == FirstError(i, log)
        invariant Inner(old(log), log, control, old(now))
        invariant HelpersDone(plan, old(world), world, i, first, sure)
      {
        ghost var before, at, mid := world, now, log;
        var r := SweepOneHelper(i, control, old(log));
        NextHelperDone(plan, old(world), before, world, i, first, r, sure);
        InnerJoins(plan, old(log), mid, log, control, old(now), at);
        first := FirstOf(first, r);
      }
    }

    method SweepOneVolume(i: nat, control: Control, ghost start: History) returns (r: Result<(), Code>)
      requires Valid() && i < |VOLUME_ROLES| && Swept(plan, |HELPER_ROLES| + i, start, log)
      modifies this`world, this`now, this`cancelled, this`log
      ensures Valid() && now >= old(now) && (old(cancelled) ==> cancelled)
      ensures Swept(plan, |HELPER_ROLES| + i + 1, start, log)
      ensures FirstError(|HELPER_ROLES| + i + 1, log) == FirstOf(FirstError(|HELPER_ROLES| + i, old(log)), r)
      ensures Inner(old(log), log, control, old(now))
      ensures VolumeStep(plan, old(world), world, VOLUME_ROLES[i], r, control.cleanup && cleanupReliable)
    {
      r := RemoveOwnedVolume(VOLUME_ROLES[i], control);
      SweepNext(plan, |HELPER_ROLES| + i, start, old(log), log, r);
    }

    // The volumes' half, after what the helpers' half came to.
    method CleanupVolumes(control: Control, earlier: Option<Code>, ghost start: History) returns (first: Option<Code>)
      requires Valid() && Swept(plan, |HELPER_ROLES|, start, log) && earlier == FirstError(|HELPER_ROLES|, log)
      modifies this`world, this`now, this`cancelled, this`log
      ensures Valid() && now >= old(now) && (old(cancelled) ==> cancelled)
      ensures Swept(plan, |TARGETS|, start, log) && first == FirstError(|TARGETS|, log)
      ensures Inner(old(log), log, control, old(now))
      ensures VolumesDone(plan, old(world), world, |VOLUME_ROLES|, earlier, first, control.cleanup && cleanupReliable)
    {
      first := earlier;
      ghost var sure := control.cleanup && cleanupReliable;
      for i := 0 to |VOLUME_ROLES|
        invariant Valid() && now >= old(now) && (old(cancelled) ==> cancelled)
        invariant Swept(plan, |HELPER_ROLES| + i, start, log) && first == FirstError(|HELPER_ROLES| + i, log)
        invariant Inner(old(log), log, control, old(now))
        invariant VolumesDone(plan, old(world), world, i, earlier, first, sure)
      {
        ghost var before, at, mid := world, now, log;
        var r := SweepOneVolume(i, control, start);
        NextVolumeDone(plan, old(world), before, world, i, earlier, first, r, sure);
        InnerJoins(plan, old(log), mid, log, control, old(now), at);
        first := FirstOf(first, r);
      }
    }

    // cleanup_artifact_storage: all five removals are tried, and the first error is returned.
    method CleanupArtifactStorage(control: Control) returns (r: Result<(), Code>)
      requires Valid()
      modifies this`world, this`now, this`cancelled, this`log
      ensures Valid() && now >= old(now) && (old(cancelled) ==> cancelled)
      ensures !plan.artifactWorkspace ==> r.Ok? && world == old(world) && log == old(log)
      ensures plan.artifactWorkspace ==>
        Swept(plan, |TARGETS|, old(log), log) && FirstOf(None, r) == FirstError(|TARGETS|, log)
      ensures Inner(old(log), log, control, old(now))
      ensures plan.artifactWorkspace && r.Ok? ==> NoArtifacts(plan, world) && Removable(plan, old(world))
      ensures control.cleanup && cleanupReliable && Removable(plan, old(world)) ==> r.Ok?
      ensures OtherContainersKept(plan, old(world), world)
    {
      if !plan.artifactWorkspace {
        return Ok(());
      }
      var first := CleanupHelpers(control);
      ghost var between, at, mid := world, now, log;
      first := CleanupVolumes(control, first, old(log));
      SweptIsGone(plan, old(world), between, world);
      InnerJoins(plan, old(log), mid, log, control, old(now), at);
      r := if first.Some? then Err(first.value) else Ok(());
    }

    // The five removals that open prepare_artifact_storage.
    method ClearArtifactNames(control: Control) returns (r: Result<(), Code>)
      requires Valid()
      modifies this`world, this`now, this`cancelled, this`log
      ensures Valid() && now >= old(now) && (old(cancelled) ==> cancelled)
      ensures Inner(old(log), log, control, old(now))
      ensures r.Ok? ==> NoArtifacts(plan, world)
      ensures OtherContainersKept(plan, old(world), world)
      ensures r.Err? ==> Faults(plan, log) > Faults(plan, old(log))
    {
      r := ClearHelpers(control);
      if r.Ok? {
        ghost var at, mid := now, log;
        r := ClearVolumes(control);
        InnerJoins(plan, old(log), mid, log, control, old(now), at);
        if r.Ok? {
          AllRoles(plan, world);
        }
      }
    }

    method ClearHelpers(control: Control) returns (r: Result<(), Code>)
      requires Valid()
      modifies this`world, this`now, this`cancelled, this`log
      ensures Valid() && now >= old(now) && (old(cancelled) ==> cancelled)
      ensures Inner(old(log), log, control, old(now))
      ensures r.Ok? ==> HelperName(plan, Import) !in world.containers && HelperName(plan, Export) !in world.containers
      ensures r.Ok? ==> HelperName(plan, Anchor) !in world.containers
      ensures OtherContainersKept(plan, old(world), world)
      ensures r.Err? ==> Faults(plan, log) > Faults(plan, old(log))
    {
      NamesDiffer(plan);
      r := ClearFileHelpers(control);
      if r.Ok? {
        ghost var at, mid := now, log;
        r := RemoveOwnedHelper(Anchor, control);
        InnerJoins(plan, old(log), mid, log, control, old(now), at);
      }
    }

    method ClearFileHelpers(control: Control) returns (r: Result<(), Code>)
      requires Valid()
      modifies this`world, this`now, this`cancelled, this`log
      ensures Valid() && now >= old(now) && (old(cancelled) ==> cancelled)
      ensures Inner(old(log), log, control, old(now))
      ensures r.Ok? ==> HelperName(plan, Import) !in world.containers && HelperName(plan, Export) !in world.containers
      ensures OtherContainersKept(plan, old(world), world)
      ensures r.Err? ==> Faults(plan, log) > Faults(plan, old(log))
    {
      NamesDiffer(plan);
      r := RemoveOwnedHelper(Import, control);
      if r.Ok? {
        ghost var at, mid := now, log;
        r := RemoveOwnedHelper(Export, control);
        InnerJoins(plan, old(log), mid, log, control, old(now), at);
      }
    }

    method ClearVolumes(control: Control) returns (r: Result<(), Code>)
      requires Valid()
      modifies this`world, this`now, this`cancelled, this`log
      ensures Valid() && now >= old(now) && (old(cancelled) ==> cancelled)
      ensures Inner(old(log), log, control, old(now))
      ensures world.containers == old(world).containers
      ensures r.Ok? ==> VolumeName(plan, Input) !in world.volumes && VolumeName(plan, Output) !in world.volumes
      ensures r.Err? ==> Faults(plan, log) > Faults(plan, old(log))
    {
      NamesDiffer(plan);
      r := RemoveOwnedVolume(Input, control);
      if r.Err? { return; }
      ghost var at, mid := now, log;
      r := RemoveOwnedVolume(Output, control);
      InnerJoins(plan, old(log), mid, log, control, old(now), at);
    }

    // create_artifact_volume: made, then looked at again before it is trusted.
    method CreateArtifactVolume(role: VolumeRole, control: Control) returns (r: Result<(), Code>)
      requires Valid()
      modifies this`world, this`now, this`cancelled, this`log
      ensures Valid() && now >= old(now) && (old(cancelled) ==> cancelled)
      ensures Inner(old(log), log, control, old(now))
      ensures world == old(world) || VolumeAdded(plan, old(world), world, role)
      ensures r.Ok? ==> VolumeReady(plan, world, role)
      ensures r.Ok? ==> Times(log, VolumeDeed(plan, role)) > Times(old(log), VolumeDeed(plan, role))
      ensures r.Err? ==> Faults(plan, log) > Faults(plan, old(log))
    {
      VolumeIsAsked(plan, role);
      r := CreateVolume(role, control);
      if r.Err? {
        return;
      }
      var created := FindVolume(role, control);
      if created.Err? {
        r := Err(created.error);
      } else if created.value.None?
                || created.value.value.settings != VolumeSettings(plan, role)
                || !LabelsContain(created.value.value.labels, RoleLabels(plan, VolumeText(role))) {
        r := Err(VolumeCreateInvalid);
      }
    }

    // ensure_artifact_anchor_running: there, the plan's own, and just seen running.
    method EnsureAnchorRunning(control: Control) returns (r: Result<(), Code>)
      modifies this`now, this`cancelled, this`log
      ensures now >= old(now) && (old(cancelled) ==> cancelled)
      ensures Inner(old(log), log, control, old(now))
      ensures r.Ok? ==> HelperName(plan, Anchor) in world.containers && SlotMatches(plan, world, Helper(Anchor))
      ensures r.Ok? ==> AnchorSeen(old(log), log)
      ensures r.Err? ==> Faults(plan, log) > Faults(plan, old(log))
    {
      var existing := FindContainer(Helper(Anchor), control);
      if existing.Err? {
        return Err(existing.error);
      } else if existing.value.None? {
        return Err(AnchorMissing);
      } else if !LabelsContain(existing.value.value, SlotLabels(plan, Helper(Anchor))) {
        return Err(AnchorNameConflict);
      }
      var state := Inspect(Helper(Anchor), control);
      if state.Err? {
        r := Err(state.error);
      } else {
        r := if state.value.running then Ok(()) else Err(AnchorNotRunning);
      }
    }

    // prepare_artifact_storage: from any world at all, success means that both volumes and the
    // anchor are there, the five names are the plan's own and nobody else mounts its volumes.
    method PrepareArtifactStorage(control: Control) returns (r: Result<(), Code>)
      requires Valid()
      modifies this`world, this`now, this`cancelled, this`log
      ensures Valid() && now >= old(now) && (old(cancelled) ==> cancelled)
      ensures Inner(old(log), log, control, old(now))
      ensures !plan.artifactWorkspace ==> r.Ok? && world == old(world) && log == old(log)
      ensures r.Ok? && plan.artifactWorkspace ==> mine && StorageReady(plan, world)
      ensures r.Ok? && plan.artifactWorkspace ==> StorageMade(plan, old(log), log)
      ensures OtherContainersKept(plan, old(world), world)
      ensures r.Err? ==> Faults(plan, log) > Faults(plan, old(log))
    {
      if !plan.artifactWorkspace {
        return Ok(());
      }
      r := ClearArtifactNames(control);
      if r.Ok? {
        NoArtifactsIsMine(plan, world);
        ghost var at, mid := now, log;
        r := BuildArtifactStorage(control);
        InnerJoins(plan, old(log), mid, log, control, old(now), at);
        StorageWasMade(plan, old(log), mid, log, control, old(now));
      }
    }

    method BuildArtifactStorage(control: Control) returns (r: Result<(), Code>)
      requires Valid()
      modifies this`world, this`now, this`cancelled, this`log
      ensures Valid() && now >= old(now) && (old(cancelled) ==> cancelled)
      ensures Inner(old(log), log, control, old(now))
      ensures r.Ok? ==> StorageReady(plan, world) && StorageMade(plan, old(log), log)
      ensures OtherContainersKept(plan, old(world), world)
      ensures r.Err? ==> Faults(plan, log) > Faults(plan, old(log))
    {
      r := CreateArtifactVolumes(control);
      if r.Ok? {
        ghost var at, mid := now, log;
        r := CreateArtifactAnchor(control);
        InnerJoins(plan, old(log), mid, log, control, old(now), at);
        StorageIsMade(plan, old(log), mid, log, control, old(now), at);
      }
    }

    // Both volumes, or an attempt not to leave the first one behind.
    method CreateArtifactVolumes(control: Control) returns (r: Result<(), Code>)
      requires Valid()
      modifies this`world, this`now, this`cancelled, this`log
      ensures Valid() && now >= old(now) && (old(cancelled) ==> cancelled)
      ensures Inner(old(log), log, control, old(now))
      ensures world.containers == old(world).containers
      ensures r.Ok? ==> VolumeReady(plan, world, Input) && VolumeReady(plan, world, Output)
      ensures r.Ok? ==> VolumesMade(plan, old(log), log)
      ensures r.Err? ==> Faults(plan, log) > Faults(plan, old(log))
    {
      NamesDiffer(plan);
      r := CreateArtifactVolume(Input, control);
      if r.Err? {
        return;
      }
      ghost var at, mid := now, log;
      r := CreateArtifactVolume(Output, control);
      InnerJoins(plan, old(log), mid, log, control, old(now), at);
      TimesGrow(old(log), mid, control, old(now), VolumeDeed(plan, Output));
      TimesGrow(mid, log, control, at, VolumeDeed(plan, Input));
      if r.Err? {
        at, mid := now, log;
        var cleanup := Control(now + HELPER_CLEANUP_TIMEOUT, true);
        var _ := RemoveOwnedVolume(Input, cleanup);
        CleanupIsInner(mid, log, cleanup, control, at);
        InnerJoins(plan, old(log), mid, log, control, old(now), at);
      }
    }

    method StartAnchor(control: Control) returns (r: Result<(), Code>)
      requires Valid()
      modifies this`now, this`cancelled, this`log
      ensures now >= old(now) && (old(cancelled) ==> cancelled)
      ensures Inner(old(log), log, control, old(now))
      ensures r.Ok? ==> log.After? && SeenRunning(log.act, Helper(Anchor))
      ensures r.Err? ==> Faults(plan, log) > Faults(plan, old(log))
    {
      r := Perform(Start, Helper(Anchor), control);
      if r.Ok? {
        ghost var at, mid := now, log;
        r := EnsureAnchorRunning(control);
        InnerJoins(plan, old(log), mid, log, control, old(now), at);
      }
    }

    method CreateArtifactAnchor(control: Control) returns (r: Result<(), Code>)
      requires Valid()
      modifies this`world, this`now, this`cancelled, this`log
      ensures Valid() && now >= old(now) && (old(cancelled) ==> cancelled)
      ensures Inner(old(log), log, control, old(now))
      ensures world == old(world) || HelperAdded(plan, old(world), world, Anchor)
      ensures r.Ok? ==> HelperAdded(plan, old(world), world, Anchor)
      ensures r.Ok? ==> log.After? && SeenRunning(log.act, Helper(Anchor))
      ensures r.Ok? ==> Times(log, HelperDeed(plan, Anchor)) > Times(old(log), HelperDeed(plan, Anchor))
      ensures r.Err? ==> Faults(plan, log) > Faults(plan, old(log))
    {
      HelperIsAsked(plan, Anchor);
      r := CreateContainer(Helper(Anchor), HelperMounts(plan, Anchor), control);
      if r.Ok? {
        ghost var at, mid := now, log;
        r := StartAnchor(control);
        InnerJoins(plan, old(log), mid, log, control, old(now), at);
        TimesGrow(mid, log, control, at, HelperDeed(plan, Anchor));
      }
    }

    // run_artifact_helper: it ends because every poll brings the deadline closer.
    method RunArtifactHelper(slot: Slot, control: Control) returns (r: Result<(), Code>)
      requires slot != Workload && slot != Helper(Anchor)
      modifies this`now, this`cancelled, this`log
      ensures now >= old(now) && (old(cancelled) ==> cancelled)
      ensures Inner(old(log), log, control, old(now))
      ensures r.Ok? ==> Ran(old(log), log, slot)
      ensures r.Err? ==> Faults(plan, log) > Faults(plan, old(log))
    {
      r := Perform(Start, slot, control);
      if r.Err? {
        return;
      }
      while true
        invariant now >= old(now) && (old(cancelled) ==> cancelled)
        invariant Inner(old(log), log, control, old(now))
        invariant StartedAndSeen(old(log), log, slot) && Rested(log, slot, now)
        invariant Faults(plan, log) >= Faults(plan, old(log))
        decreases control.until - now
      {
        var state := Inspect(slot, control);
        if state.Err? {
          return Err(state.error);
        }
        if !state.value.running {
          r := if state.value.exitCode == Some(0) && !state.value.oomKilled then Ok(()) else Err(HelperFailed);
          return;
        }
        if control.until <= now {
          return Err(CommandTimedOut);
        }
        Sleep(Min(HELPER_POLL_INTERVAL, control.until - now));
      }
    }

    // What stage_inputs and collect_outputs share: the anchor is checked, a helper made, run
    // and removed; the copy through it comes before the run for inputs and after it for outputs.
    method MoveThroughHelper(role: HelperRole, control: Control) returns (r: Result<(), Code>)
      requires Valid() && role != Anchor
      modifies this`world, this`now, this`cancelled, this`log
      ensures Valid() && now >= old(now) && (old(cancelled) ==> cancelled)
      ensures Inner(old(log), log, control, old(now))
      ensures OtherContainersKept(plan, old(world), world)
      ensures r.Ok? ==> HelperName(plan, role) !in world.containers && Moved(plan, old(log), log, role)
      ensures r.Err? ==> Faults(plan, log) > Faults(plan, old(log))
    {
      r := MakeHelper(role, control);
      if r.Ok? {
        ghost var at, made := now, log;
        r := UseHelper(role, control);
        InnerJoins(plan, old(log), made, log, control, old(now), at);
      }
    }

    method MakeHelper(role: HelperRole, control: Control) returns (r: Result<(), Code>)
      requires Valid()
      modifies this`world, this`now, this`cancelled, this`log
      ensures Valid() && now >= old(now) && (old(cancelled) ==> cancelled)
      ensures Inner(old(log), log, control, old(now))
      ensures world == old(world) || HelperAdded(plan, old(world), world, role)
      ensures r.Ok? ==> HelperAdded(plan, old(world), world, role)
      ensures r.Ok? ==> log.After? && log.act.deed == HelperDeed(plan, role) && AnchorSeen(old(log), log.earlier)
      ensures r.Err? ==> Faults(plan, log) > Faults(plan, old(log))
    {
      HelperIsAsked(plan, role);
      r := EnsureAnchorRunning(control);
      if r.Ok? {
        r := CreateContainer(Helper(role), HelperMounts(plan, role), control);
      }
    }

    // The helper just made is run, and removed whatever came of it.
    method UseHelper(role: HelperRole, control: Control) returns (r: Result<(), Code>)
      requires Valid() && role != Anchor
      requires HelperName(plan, role) in world.containers && SlotMatches(plan, world, Helper(role))
      modifies this`world, this`now, this`cancelled, this`log
      ensures Valid() && now >= old(now) && (old(cancelled) ==> cancelled)
      ensures Inner(old(log), log, control, old(now))
      ensures world == WithoutContainer(old(world), HelperName(plan, role)) || (r.Err? && world == old(world))
      ensures log.After? && log.act.deed.RemovedContainer? && log.act.deed.slot == Helper(role)
      ensures log.act.control == Control(log.act.at + 10_000_000_000, true)
      ensures r.Ok? ==> log.act.deed.result.Ok? && CopiedAndRan(old(log), log.earlier, role)
      ensures r.Err? ==> Faults(plan, log) > Faults(plan, old(log))
    {
      var ran := RunAndCopy(role, control);
      FaultsGrow(plan, old(log), log, control, old(now));
      r := FinishArtifactHelper(role, ran);
    }

    method RunAndCopy(role: HelperRole, control: Control) returns (r: Result<(), Code>)
      requires role != Anchor
      modifies this`now, this`cancelled, this`log
      ensures now >= old(now) && (old(cancelled) ==> cancelled)
      ensures Inner(old(log), log, control, old(now))
      ensures r.Ok? ==> CopiedAndRan(old(log), log, role)
      ensures r.Err? ==> Faults(plan, log) > Faults(plan, old(log))
    {
      r := Ok(());
      if role == Import {
        r := Perform(CopyIn, Helper(role), control);
      }
      if r.Ok? {
        ghost var at, mid := now, log;
        r := RunArtifactHelper(Helper(role), control);
        InnerJoins(plan, old(log), mid, log, control, old(now), at);
      }
      if role == Export && r.Ok? {
        r := Perform(CopyOut, Helper(role), control);
      }
    }

    // finish_artifact_helper: the helper is always removed; its own failure is the one reported.
    method FinishArtifactHelper(role: HelperRole, result: Result<(), Code>) returns (r: Result<(), Code>)
      requires Valid() && SlotMatches(plan, world, Helper(role))
      modifies this`world, this`now, this`cancelled, this`log
      ensures Valid() && now >= old(now) && (old(cancelled) ==> cancelled)
      ensures log.After? && log.earlier == old(log)
      ensures var act := log.act;
        && act.at == old(now) && act.control == Control(old(now) + 10_000_000_000, true)
        && act.deed.RemovedContainer? && act.deed.slot == Helper(role)
        && r == if result.Err? then result else if act.deed.result.Err? then Err(HelperCleanupFailed) else Ok(())
      ensures world == WithoutContainer(old(world), HelperName(plan, role)) || (r.Err? && world == old(world))
    {
      var cleanup := RemoveContainer(Helper(role), Control(now + HELPER_CLEANUP_TIMEOUT, true));
      r := if result.Err? then result else if cleanup.Err? then Err(HelperCleanupFailed) else Ok(());
    }

    method StageInputs(control: Control) returns (r: Result<(), Code>)
      requires Valid()
      modifies this`world, this`now, this`cancelled, this`log
      ensures Valid() && now >= old(now) && (old(cancelled) ==> cancelled)
      ensures Inner(old(log), log, control, old(now))
      ensures OtherContainersKept(plan, old(world), world)
      ensures r.Ok? && plan.inputs > 0 ==> Moved(plan, old(log), log, Import)
      ensures plan.inputs == 0 ==> r.Ok? && world == old(world) && log == old(log)
      ensures r.Err? ==> Faults(plan, log) > Faults(plan, old(log))
    {
      if plan.inputs == 0 {
        return Ok(());
      }
      r := MoveThroughHelper(Import, control);
    }

    method CollectOutputs(control: Control) returns (r: Result<(), Code>)
      requires Valid()
      modifies this`world, this`now, this`cancelled, this`log
      ensures Valid() && now >= old(now) && (old(cancelled) ==> cancelled)
      ensures Inner(old(log), log, control, old(now))
      ensures OtherContainersKept(plan, old(world), world)
      ensures r.Ok? && plan.outputs > 0 ==> Moved(plan, old(log), log, Export)
      ensures plan.outputs == 0 ==> r.Ok? && world == old(world) && log == old(log)
      ensures r.Err? ==> Faults(plan, log) > Faults(plan, old(log))
    {
      if plan.outputs == 0 {
        return Ok(());
      }
      r := MoveThroughHelper(Export, control);
    }
  }

  lemma {:induction false} StorageIsMade(plan: Plan, a: History, mid: History, b: History,
                                         control: Control, from: int, later: int)
    requires Inner(a, mid, control, from) && Inner(mid, b, control, later)
    ensures VolumesMade(plan, a, mid) && b.After? && SeenRunning(b.act, Helper(Anchor)) ==>
      Times(b, HelperDeed(plan, Anchor)) > Times(mid, HelperDeed(plan, Anchor)) ==> StorageMade(plan, a, b)
  {
    TimesGrow(a, mid, control, from, HelperDeed(plan, Anchor));
    TimesGrow(mid, b, control, later, VolumeDeed(plan, Input));
    TimesGrow(mid, b, control, later, VolumeDeed(plan, Output));
  }

  lemma {:induction false} StorageWasMade(plan: Plan, a: History, mid: History, b: History, control: Control, from: int)
    requires Inner(a, mid, control, from)
    ensures StorageMade(plan, mid, b) ==> StorageMade(plan, a, b)
  {
    TimesGrow(a, mid, control, from, HelperDeed(plan, Anchor));
    TimesGrow(a, mid, control, from, VolumeDeed(plan, Input));
    TimesGrow(a, mid, control, from, VolumeDeed(plan, Output));
  }

  // What is given as cleanup is in place under any control.
  lemma {:induction false} CleanupIsInner(a: History, b: History, cleanup: Control, control: Control, from: int)
    requires Inner(a, b, cleanup, from) && cleanup.cleanup
    ensures Inner(a, b, control, from)
  {
    if a != b {
      CleanupIsInner(a, b.earlier, cleanup, control, from);
    }
  }

  lemma {:induction false} SlotIsOwned(plan: Plan, w: World, slot: Slot)
    requires SlotMatches(plan, w, slot)
    ensures SlotName(plan, slot) in w.containers ==> Owned(plan, w.containers[SlotName(plan, slot)].labels)
  {
    if slot.Helper? && SlotName(plan, slot) in w.containers {
      RoleLabelsAreOwned(plan, HelperText(slot.role), w.containers[SlotName(plan, slot)].labels);
    }
  }

  lemma {:induction false} SlotLabelsAreOwned(plan: Plan, slot: Slot)
    ensures Owned(plan, SlotLabels(plan, slot))
  {
    if slot.Helper? {
      RoleLabelsAreOwned(plan, HelperText(slot.role), SlotLabels(plan, slot));
    }
  }

  lemma {:induction false} VolumeIsOwned(plan: Plan, w: World, role: VolumeRole)
    requires VolumeMatches(plan, w, role)
    ensures VolumeName(plan, role) in w.volumes ==> Owned(plan, w.volumes[VolumeName(plan, role)].labels)
  {
    if VolumeName(plan, role) in w.volumes {
      RoleLabelsAreOwned(plan, VolumeText(role), w.volumes[VolumeName(plan, role)].labels);
    }
  }

  predicate VolumeReady(plan: Plan, w: World, role: VolumeRole) {
    var name := VolumeName(plan, role);
    && name in w.volumes && w.volumes[name].settings == VolumeSettings(plan, role)
    && LabelsContain(w.volumes[name].labels, RoleLabels(plan, VolumeText(role)))
  }

  predicate StorageReady(plan: Plan, w: World) {
    && VolumeReady(plan, w, Input) && VolumeReady(plan, w, Output)
    && HelperName(plan, Anchor) in w.containers
    && w.containers[HelperName(plan, Anchor)].mounts == HelperMounts(plan, Anchor)
  }

  function HelperMounts(plan: Plan, role: HelperRole): Mounts {
    match role
    case Import => map[VolumeName(plan, Input) := Writable]
    case Export => map[VolumeName(plan, Output) := ReadOnly]
    case Anchor => map[VolumeName(plan, Input) := ReadOnly, VolumeName(plan, Output) := ReadOnly]
  }

  predicate ContainerAdded(plan: Plan, a: World, b: World, slot: Slot, mounts: Mounts) {
    && SlotName(plan, slot) !in a.containers && mounts.Keys <= a.volumes.Keys
    && b == WithContainer(a, SlotName(plan, slot), Container(SlotLabels(plan, slot), mounts))
  }

  predicate HelperAdded(plan: Plan, a: World, b: World, role: HelperRole) {
    ContainerAdded(plan, a, b, Helper(role), HelperMounts(plan, role))
  }

  predicate VolumeAdded(plan: Plan, a: World, b: World, role: VolumeRole) {
    && VolumeName(plan, role) !in a.volumes
    && b == WithVolume(
         a, VolumeName(plan, role), Volume(RoleLabels(plan, VolumeText(role)), VolumeSettings(plan, role)))
  }

  // ---------- Sweeping ----------

  // What an attempt to remove a helper may do, and, where cleanup is sure to work, when it succeeds.
  ghost predicate HelperStep(plan: Plan, a: World, b: World, role: HelperRole, r: Result<(), Code>, sure: bool) {
    var own := SlotMatches(plan, a, Helper(role));
    && (b == a || (own && b == WithoutContainer(a, HelperName(plan, role))))
    && (r.Ok? ==> own && HelperName(plan, role) !in b.containers)
    && (sure ==> (r.Ok? <==> own))
  }

  ghost predicate VolumeRemovable(plan: Plan, w: World, role: VolumeRole) {
    VolumeMatches(plan, w, role) && !Mounted(w, VolumeName(plan, role))
  }

  ghost predicate VolumesRemovable(plan: Plan, w: World) {
    forall role: VolumeRole :: VolumeRemovable(plan, w, role)
  }

  ghost predicate VolumeStep(plan: Plan, a: World, b: World, role: VolumeRole, r: Result<(), Code>, sure: bool) {
    && (b == a || (VolumeMatches(plan, a, role) && b == WithoutVolume(a, VolumeName(plan, role))))
    && (r.Ok? ==> VolumeName(plan, role) !in b.volumes && VolumeRemovable(plan, a, role))
    && (sure && VolumeRemovable(plan, a, role) ==> r.Ok?)
  }

  ghost predicate OnlyHelpersGone(plan: Plan, a: World, b: World) {
    && b.volumes == a.volumes
    && (forall n | n in b.containers :: n in a.containers && b.containers[n] == a.containers[n])
    && (forall n | n in a.containers && !IsHelper(plan, n) :: n in b.containers)
  }

  ghost predicate LaterHelpersKept(plan: Plan, a: World, b: World, i: nat) {
    forall k | i <= k < |HELPER_ROLES| ::
      var name := HelperName(plan, HELPER_ROLES[k]);
      name in a.containers <==> name in b.containers
  }

  ghost predicate HelpersSwept(plan: Plan, a: World, b: World, i: nat) {
    forall k | 0 <= k < i && k < |HELPER_ROLES| ::
      HelperName(plan, HELPER_ROLES[k]) !in b.containers && SlotMatches(plan, a, Helper(HELPER_ROLES[k]))
  }

  lemma {:induction false} HelperNamesDiffer(plan: Plan, k: nat, l: nat)
    requires k < l < |HELPER_ROLES|
    ensures HelperName(plan, HELPER_ROLES[k]) != HelperName(plan, HELPER_ROLES[l])
  {
    NamesDiffer(plan);
  }

  // One removal under the name of helper `i` leaves the other helpers alone.
  lemma {:induction false} SweepHelper(plan: Plan, start: World, a: World, b: World, i: nat)
    requires i < |HELPER_ROLES|
    requires OnlyHelpersGone(plan, start, a) && LaterHelpersKept(plan, start, a, i)
    requires b == a || b == WithoutContainer(a, HelperName(plan, HELPER_ROLES[i]))
    ensures OnlyHelpersGone(plan, start, b) && LaterHelpersKept(plan, start, b, i + 1)
    ensures SlotMatches(plan, a, Helper(HELPER_ROLES[i])) == SlotMatches(plan, start, Helper(HELPER_ROLES[i]))
    ensures HelpersSwept(plan, start, a, i) ==> HelpersSwept(plan, start, b, i)
  {
    forall k | i < k < |HELPER_ROLES| ensures HelperName(plan, HELPER_ROLES[i]) != HelperName(plan, HELPER_ROLES[k]) {
      HelperNamesDiffer(plan, i, k);
    }
  }

  // Where the sweep of the helpers stands after the first `i`.
  ghost predicate HelpersDone(plan: Plan, start: World, w: World, i: nat, first: Option<Code>, sure: bool) {
    && OnlyHelpersGone(plan, start, w) && LaterHelpersKept(plan, start, w, i)
    && (first.None? ==> HelpersSwept(plan, start, w, i))
    && (sure && NoConflict(plan, start) ==> first.None?)
  }

  lemma {:induction false} NextHelperDone(plan: Plan, start: World, a: World, b: World, i: nat,
                                          first: Option<Code>, r: Result<(), Code>, sure: bool)
    requires i < |HELPER_ROLES| && HelpersDone(plan, start, a, i, first, sure)
    requires HelperStep(plan, a, b, HELPER_ROLES[i], r, sure)
    ensures HelpersDone(plan, start, b, i + 1, FirstOf(first, r), sure)
  {
    SweepHelper(plan, start, a, b, i);
    if sure && NoConflict(plan, start) {
      assert SlotMatches(plan, start, Helper(HELPER_ROLES[i]));
    }
  }

  ghost predicate LaterVolumesKept(plan: Plan, a: World, b: World, i: nat) {
    forall k | i <= k < |VOLUME_ROLES| ::
      var name := VolumeName(plan, VOLUME_ROLES[k]);
      (name in a.volumes <==> name in b.volumes) && (name in a.volumes ==> a.volumes[name] == b.volumes[name])
  }

  ghost predicate VolumesSwept(plan: Plan, a: World, b: World, i: nat) {
    forall k | 0 <= k < i && k < |VOLUME_ROLES| ::
      VolumeName(plan, VOLUME_ROLES[k]) !in b.volumes && VolumeRemovable(plan, a, VOLUME_ROLES[k])
  }

  lemma {:induction false} SweepVolume(plan: Plan, start: World, a: World, b: World, i: nat)
    requires i < |VOLUME_ROLES| && start.containers == a.containers && LaterVolumesKept(plan, start, a, i)
    requires b == a || b == WithoutVolume(a, VolumeName(plan, VOLUME_ROLES[i]))
    ensures start.containers == b.containers && LaterVolumesKept(plan, start, b, i + 1)
    ensures VolumeRemovable(plan, a, VOLUME_ROLES[i]) == VolumeRemovable(plan, start, VOLUME_ROLES[i])
    ensures VolumesSwept(plan, start, a, i) ==> VolumesSwept(plan, start, b, i)
  {
    NamesDiffer(plan);
    assert forall name :: Mounted(a, name) == Mounted(start, name);
  }

  ghost predicate VolumesDone(plan: Plan, start: World, w: World, i: nat,
                              earlier: Option<Code>, first: Option<Code>, sure: bool)
  {
    && w.containers == start.containers && LaterVolumesKept(plan, start, w, i)
    && (earlier.Some? ==> first == earlier) && (first.None? ==> VolumesSwept(plan, start, w, i))
    && (sure && VolumesRemovable(plan, start) ==> first == earlier)
  }

  lemma {:induction false} NextVolumeDone(plan: Plan, start: World, a: World, b: World, i: nat,
                                          earlier: Option<Code>, first: Option<Code>, r: Result<(), Code>, sure: bool)
    requires i < |VOLUME_ROLES| && VolumesDone(plan, start, a, i, earlier, first, sure)
    requires VolumeStep(plan, a, b, VOLUME_ROLES[i], r, sure)
    ensures VolumesDone(plan, start, b, i + 1, earlier, FirstOf(first, r), sure)
  {
    SweepVolume(plan, start, a, b, i);
    if sure && VolumesRemovable(plan, start) {
      assert VolumeRemovable(plan, start, VOLUME_ROLES[i]);
    }
  }

  function HelperIndex(role: HelperRole): (k: nat)
    ensures k < |HELPER_ROLES| && HELPER_ROLES[k] == role
  {
    match role case Import => 0 case Export => 1 case Anchor => 2
  }

  function VolumeIndex(role: VolumeRole): (k: nat)
    ensures k < |VOLUME_ROLES| && VOLUME_ROLES[k] == role
  {
    match role case Input => 0 case Output => 1
  }

  // Sweeping the helpers and then the volumes leaves nothing, and needs exactly `Removable`.
  lemma {:induction false} SweptIsGone(plan: Plan, a: World, b: World, c: World)
    requires OnlyHelpersGone(plan, a, b) && b.containers == c.containers
    ensures OtherContainersKept(plan, a, c)
    ensures HelpersSwept(plan, a, b, |HELPER_ROLES|) && VolumesSwept(plan, b, c, |VOLUME_ROLES|)
            ==> NoArtifacts(plan, c) && Removable(plan, a)
    ensures HelpersSwept(plan, a, b, |HELPER_ROLES|) && Removable(plan, a)
            ==> VolumesRemovable(plan, b)
  {
    if HelpersSwept(plan, a, b, |HELPER_ROLES|) {
      forall role: HelperRole ensures HelperName(plan, role) !in b.containers && SlotMatches(plan, a, Helper(role)) {
        var k := HelperIndex(role);
      }
      if VolumesSwept(plan, b, c, |VOLUME_ROLES|) {
        forall role: VolumeRole ensures VolumeName(plan, role) !in c.volumes && VolumeRemovable(plan, b, role) {
          var k := VolumeIndex(role);
        }
        forall role: VolumeRole ensures VolumeMatches(plan, a, role) {
          assert VolumeRemovable(plan, b, role);
        }
        assert VolumeRemovable(plan, b, Input) && VolumeRemovable(plan, b, Output);
      }
      if Removable(plan, a) {
        forall role: VolumeRole ensures VolumeRemovable(plan, b, role) {
          assert VolumeMatches(plan, a, role);
          forall n | n in b.containers ensures VolumeName(plan, role) !in b.containers[n].mounts {
            assert !IsHelper(plan, n);
          }
        }
      }
    }
  }

  lemma {:induction false} AllRoles(plan: Plan, w: World)
    requires HelperName(plan, Import) !in w.containers && HelperName(plan, Export) !in w.containers
    requires HelperName(plan, Anchor) !in w.containers
    requires VolumeName(plan, Input) !in w.volumes && VolumeName(plan, Output) !in w.volumes
    ensures NoArtifacts(plan, w)
  {
    forall role: HelperRole ensures HelperName(plan, role) !in w.containers {
      match role case Import => case Export => case Anchor =>
    }
    forall role: VolumeRole ensures VolumeName(plan, role) !in w.volumes {
      match role case Input => case Output =>
    }
  }
}

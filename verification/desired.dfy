/** What the controller wants the cluster to hold for an event.
  * The builders of internal/controller: reconciler.go, stormservice.go, podgroup.go,
  * modelclaim.go and aibrix_routing.go. */
module Desired {
  import opened Prelude
  import opened Events
  import opened Topology
  import opened EngineArgs
  import opened Objects
  import opened Cluster
  import opened EngineReady
  import opened Reconcile
  import opened Steps
  import History
  import Optimistic

  /** The controller's configuration. */
  datatype Config = Config(
    dynamic: bool,
    aibrix: bool,
    scheduler: string,
    priorityClasses: map<string, string>,
    queue: string,
    acceleratorLabel: string,
    policyAnnotation: string,
    placementPolicy: string,
    poolSelector: map<string, string>,
    claim: string,
    mountPath: string,
    storageClass: string,
    namespace: string,
    gatewayNamespace: string,
    gateway: string,
    claimName: string -> string,
    routeName: string -> string)

  // -------------------------------------------------------------- node labels

  const ACCELERATOR_LABEL := "go-taas.com/accelerator"
  const FALLBACK_LABEL := "gpu-vendor"

  function ConfiguredLabel(cfg: Config): string {
    if cfg.acceleratorLabel == "" then ACCELERATOR_LABEL else cfg.acceleratorLabel
  }

  /** hasNodeLabel. */
  predicate SomeNodeHas(nodes: seq<Labels>, key: string) { exists n :: n in nodes && key in n }

  /** The key the nodes carry the vendor under: the configured one unless only the
    * fallback is there. */
  function VendorLabel(configured: string, nodes: seq<Labels>): string {
    if !SomeNodeHas(nodes, configured) && SomeNodeHas(nodes, FALLBACK_LABEL) then FALLBACK_LABEL else configured
  }

  const CARD_LABELS: seq<string> :=
    ["nvidia.com/gpu.product", "nvidia.com/gpu.model", "iluvatar.ai/gpu.product", "iluvatar.ai/product",
     "metax-tech.com/gpu.product", "metax-tech.com/product", "go-taas.com/accelerator-type", "gpu-product"]

  predicate SomeNodeSays(nodes: seq<Labels>, key: string, value: string) {
    exists n :: n in nodes && key in n && n[key] == value
  }

  /** The first candidate key under which some node reports the card, or "". */
  function CardLabel(keys: seq<string>, nodes: seq<Labels>, card: string): string {
    if keys == [] then ""
    else if SomeNodeSays(nodes, keys[0], card) then keys[0]
    else CardLabel(keys[1..], nodes, card)
  }

  method FindVendorLabel(configured: string, nodes: seq<Labels>) returns (key: string)
    ensures key == VendorLabel(configured, nodes)
  {
    var found := HasNodeLabel(nodes, configured);
    if found { return configured; }
    var fallback := HasNodeLabel(nodes, FALLBACK_LABEL);
    return if fallback then FALLBACK_LABEL else configured;
  }

  method HasNodeLabel(nodes: seq<Labels>, key: string) returns (found: bool)
    ensures found == SomeNodeHas(nodes, key)
  {
    for i := 0 to |nodes|
      invariant forall j :: 0 <= j < i ==> key !in nodes[j]
    {
      if key in nodes[i] { return true; }
    }
    return false;
  }

  method FindCardLabel(keys: seq<string>, nodes: seq<Labels>, card: string) returns (key: string)
    ensures key == CardLabel(keys, nodes, card)
  {
    var k := 0;
    while k < |keys|
      invariant 0 <= k <= |keys| && CardLabel(keys, nodes, card) == CardLabel(keys[k..], nodes, card)
    {
      for i := 0 to |nodes|
        invariant forall j :: 0 <= j < i ==> !(keys[k] in nodes[j] && nodes[j][keys[k]] == card)
      {
        if keys[k] in nodes[i] && nodes[i][keys[k]] == card { return keys[k]; }
      }
      k := k + 1;
    }
    return "";
  }

  // ------------------------------------------------------------------ labels

  function ResourceLabels(evt: ChangeEvent): map<string, string> {
    map["app.kubernetes.io/managed-by" := "taas-controller",
        "go-taas.com/service-id" := evt.serviceId,
        "app" := evt.name]
  }

  const MODEL_NAME := "model.aibrix.ai/name"
  const MODEL_PORT := "model.aibrix.ai/port"
  const MODEL_SERVICE := "model.aibrix.ai/service-name"
  const ROLE_LABEL := "go-taas.com/role"
  const GROUP_ANNOTATION := "scheduling.k8s.io/group-name"
  const VOLCANO := "volcano"

  predicate LabelEdge(c: char) { 'a' <= c <= 'z' || 'A' <= c <= 'Z' || '0' <= c <= '9' }

  /** Kubernetes' IsValidLabelValue. */
  predicate LabelValue(s: string) {
    |s| <= 63 && (s == "" || (LabelEdge(s[0]) && LabelEdge(s[|s| - 1])
                              && forall i :: 0 <= i < |s| ==> LabelEdge(s[i]) || s[i] in {'-', '_', '.'}))
  }

  function RoutingLabels(model: string): map<string, string> {
    var port := map[MODEL_PORT := "8000"];
    if LabelValue(model) then port[MODEL_NAME := model] else port
  }

  function RoutingAnnotations(model: string, service: string): map<string, string> {
    map[MODEL_NAME := model, MODEL_PORT := "8000", MODEL_SERVICE := service]
  }

  function ServiceName(evt: ChangeEvent): string { evt.name + "-svc" }

  // -------------------------------------------------------------------- pods

  predicate Sliced(evt: ChangeEvent) { evt.poolId != "" && evt.sliceTemplateId != "" }

  function NodeSelector(cfg: Config, evt: ChangeEvent, pick: Pick): map<string, string> {
    var vendor := map[pick.vendor := evt.accelerator];
    var carded := evt.acceleratorType != "" && pick.card != "";
    var card := if carded then vendor[pick.card := evt.acceleratorType] else vendor;
    if Sliced(evt) then card + cfg.poolSelector else card
  }

  function NormalPriority(priority: string): string {
    if priority == "high" || priority == "low" then priority else "normal"
  }

  function PriorityClass(cfg: Config, evt: ChangeEvent): string {
    var p := NormalPriority(evt.priority);
    if p in cfg.priorityClasses then cfg.priorityClasses[p] else ""
  }

  /** buildPodTemplate: the labels and annotations are those its caller adds. */
  function TemplateWith(
    cfg: Config, evt: ChangeEvent, pick: Pick, command: Command, labels: map<string, string>,
    annotations: map<string, string>): Template
  {
    Template(evt.image, command, if Sliced(evt) then SliceResources(evt) else PodResources(evt),
             NodeSelector(cfg, evt, pick), cfg.scheduler, PriorityClass(cfg, evt),
             cfg.claim, cfg.mountPath, Distributed(evt), labels, annotations)
  }

  /** The annotations a shared device needs. */
  function SliceAnnotations(cfg: Config, evt: ChangeEvent): map<string, string> {
    if Sliced(evt) then map[cfg.policyAnnotation := cfg.placementPolicy] else map[]
  }

  predicate Ganged(cfg: Config) { cfg.dynamic && cfg.scheduler == VOLCANO }

  function PodLabels(evt: ChangeEvent): map<string, string> {
    ResourceLabels(evt) + RoutingLabels(ServedModelName(evt))
  }

  function PodAnnotations(evt: ChangeEvent): map<string, string> {
    RoutingAnnotations(ServedModelName(evt), ServiceName(evt))
  }

  /** A gang-scheduled pod joins its group through an annotation. */
  function Joined(cfg: Config, evt: ChangeEvent, template: Template): Template {
    if Ganged(cfg) then template.(annotations := template.annotations[GROUP_ANNOTATION := evt.name]) else template
  }

  function RoleWith(
    cfg: Config, evt: ChangeEvent, pick: Pick, command: Command, role: StormRole, stateful: bool): Role
  {
    Role(role.name, role.replicas, role.podGroupSize, stateful,
         Joined(cfg, evt, TemplateWith(cfg, evt, pick, command, PodLabels(evt)[ROLE_LABEL := role.name],
                                       PodAnnotations(evt) + SliceAnnotations(cfg, evt))))
  }

  predicate Stateful(roles: seq<StormRole>) { exists r :: r in roles && r.podGroupSize > 1 }

  function PickAt(picks: seq<Pick>, i: nat): Pick { if i < |picks| then picks[i] else Pick("", "") }

  function Build<T>(n: nat, make: nat -> T): seq<T> { if n == 0 then [] else Build(n - 1, make) + [make(n - 1)] }

  lemma {:induction false} BuildAt<T>(n: nat, make: nat -> T, i: nat)
    requires i < n
    ensures |Build(n, make)| == n && Build(n, make)[i] == make(i)
  {
    if n == 1 {
    } else {
      BuildAt(n - 1, make, if i < n - 1 then i else 0);
    }
  }

  function RoleAt(roles: seq<StormRole>, i: nat): StormRole {
    if i < |roles| then roles[i] else StormRole("", 0, 0, "")
  }

  ghost function RoleOf(cfg: Config, evt: ChangeEvent, picks: seq<Pick>, i: nat): Role {
    var role := RoleAt(StormRoles(evt), i);
    RoleWith(cfg, evt, PickAt(picks, i), CommandOf(evt, cfg.mountPath, role), role, Stateful(StormRoles(evt)))
  }

  ghost function RoleMaker(cfg: Config, evt: ChangeEvent, picks: seq<Pick>): nat -> Role {
    (i: nat) => RoleOf(cfg, evt, picks, i)
  }

  /** buildStormService. */
  ghost function StormOf(cfg: Config, evt: ChangeEvent, picks: seq<Pick>): Content {
    Storm(ClampReplicas(evt.replicas), Stateful(StormRoles(evt)), Build(|StormRoles(evt)|, RoleMaker(cfg, evt, picks)),
          PodLabels(evt), PodAnnotations(evt))
  }

  method IsStateful(roles: seq<StormRole>) returns (stateful: bool)
    ensures stateful == Stateful(roles)
  {
    stateful := false;
    for i := 0 to |roles|
      invariant stateful <==> exists j :: 0 <= j < i && roles[j].podGroupSize > 1
    {
      if roles[i].podGroupSize > 1 { stateful := true; }
    }
  }

  method BuildRole(cfg: Config, evt: ChangeEvent, picks: seq<Pick>, i: nat, role: StormRole, stateful: bool)
    returns (built: Role)
    requires role == RoleAt(StormRoles(evt), i) && stateful == Stateful(StormRoles(evt))
    ensures built == RoleMaker(cfg, evt, picks)(i)
  {
    var command := EngineCommand(evt, cfg.mountPath, role);
    built := RoleWith(cfg, evt, PickAt(picks, i), command, role, stateful);
  }

  method BuildRoles(
    cfg: Config, evt: ChangeEvent, picks: seq<Pick>, stormRoles: seq<StormRole>, stateful: bool,
    ghost make: nat -> Role)
    returns (roles: seq<Role>)
    requires stormRoles == StormRoles(evt) && stateful == Stateful(StormRoles(evt)) && make
        == RoleMaker(cfg, evt, picks)
    ensures roles == Build(|stormRoles|, make)
  {
    roles := [];
    for i := 0 to |stormRoles|
      invariant roles == Build(i, make)
    {
      var role := BuildRole(cfg, evt, picks, i, stormRoles[i], stateful);
      roles := roles + [role];
    }
  }

  method BuildStorm(cfg: Config, evt: ChangeEvent, picks: seq<Pick>) returns (storm: Content)
    ensures storm == StormOf(cfg, evt, picks)
  {
    var stormRoles := StormRoles(evt);
    var stateful := IsStateful(stormRoles);
    var roles := BuildRoles(cfg, evt, picks, stormRoles, stateful, RoleMaker(cfg, evt, picks));
    storm := Storm(ClampReplicas(evt.replicas), stateful, roles, PodLabels(evt), PodAnnotations(evt));
  }

  /** A merge patch of the replica count. */
  function Pinned(replicas: int, c: Content): Content {
    match c
    case Storm(_, stateful, roles, labels, annotations) => Storm(replicas, stateful, roles, labels, annotations)
    case Workload(_, template) => Workload(replicas, template)
    case _ => c
  }

  /** A role whose replica spans several pods, and no other, runs the rendezvous
    * command, for exactly that many pods; and the storm is then stateful, so its pods
    * have the stable names they meet under. */
  lemma SpanningRolesRendezvous(cfg: Config, evt: ChangeEvent, picks: seq<Pick>, i: nat)
    requires KnownEngine(evt.engine) && i < |StormRoles(evt)|
    ensures var storm := StormOf(cfg, evt, picks);
            && i < |storm.roles|
            && var role := storm.roles[i];
            && (role.podGroupSize > 1 <==> role.template.command.Rendezvous?)
            && (role.podGroupSize > 1 ==>
                  role.template.command.nodes == role.podGroupSize && storm.stateful && role.stateful)
  {
    BuildAt(|StormRoles(evt)|, RoleMaker(cfg, evt, picks), i);
  }

  lemma RoleDevices(cfg: Config, evt: ChangeEvent, picks: seq<Pick>, i: nat)
    requires !Sliced(evt)
    ensures var role := RoleOf(cfg, evt, picks, i);
            role.template.resources == PodResources(evt) && role.podGroupSize == RoleAt(StormRoles(evt), i).podGroupSize
  {
  }

  lemma RolesSpanWorkers(evt: ChangeEvent, i: nat)
    requires Distributed(evt) && i < |StormRoles(evt)|
    ensures RoleAt(StormRoles(evt), i).podGroupSize == WorkerPods(evt, evt.topology)
  {
  }

  lemma PodDevices(evt: ChangeEvent, gpu: string)
    requires KnownAccelerator(evt.accelerator) && gpu == GpuResource(evt.accelerator)
    ensures gpu in PodResources(evt).limits && PodResources(evt).limits[gpu] == GpuPerPod(evt)
  {
  }

  /** The pods of one replica of a distributed role own exactly the devices its
    * parallelism needs, if and only if the split is even and fits. */
  lemma StormOwnsItsDevices(cfg: Config, evt: ChangeEvent, picks: seq<Pick>, i: nat, gpu: string)
    requires Distributed(evt) && KnownAccelerator(evt.accelerator) && gpu == GpuResource(evt.accelerator)
    requires !Sliced(evt) && i < |StormRoles(evt)|
    ensures var storm := StormOf(cfg, evt, picks);
            && i < |storm.roles|
            && gpu in storm.roles[i].template.resources.limits
            && (storm.roles[i].podGroupSize * storm.roles[i].template.resources.limits[gpu] == Parallelism(evt)
              <==> SplitsEvenly(evt))
  {
    BuildAt(|StormRoles(evt)|, RoleMaker(cfg, evt, picks), i);
    RoleDevices(cfg, evt, picks, i);
    RolesSpanWorkers(evt, i);
    PodDevices(evt, gpu);
    PodsMatchParallelism(evt);
  }

  lemma LabelsApart(evt: ChangeEvent, key: string)
    requires key in ResourceLabels(evt)
    ensures key != ROLE_LABEL && key != MODEL_NAME && key != MODEL_PORT
  {
    assert |ROLE_LABEL| == 16 && |MODEL_NAME| == 20 && |MODEL_PORT| == 20;
    assert |"app.kubernetes.io/managed-by"| == 28 && |"go-taas.com/service-id"| == 22 && |"app"| == 3;
  }

  lemma LaidOver(base: map<string, string>, over: map<string, string>, k: string, v: string, key: string)
    requires key in base && key !in over && key != k
    ensures var m := (base + over)[k := v]; key in m && m[key] == base[key]
  {
  }

  lemma RoleLabels(cfg: Config, evt: ChangeEvent, picks: seq<Pick>, i: nat)
    ensures RoleOf(cfg, evt, picks, i).template.labels == PodLabels(evt)[ROLE_LABEL := RoleAt(StormRoles(evt), i).name]
  {
  }

  /** Every pod of the storm carries the Service's whole selector, so the Service
    * reaches it. */
  lemma ServiceSelectsEveryPod(cfg: Config, evt: ChangeEvent, picks: seq<Pick>, i: nat, key: string)
    requires i < |StormRoles(evt)| && key in ServiceOf(evt).selector
    ensures var storm := StormOf(cfg, evt, picks);
            && i < |storm.roles| && key in storm.roles[i].template.labels
            && storm.roles[i].template.labels[key] == ServiceOf(evt).selector[key]
  {
    var routing := RoutingLabels(ServedModelName(evt));
    LabelsApart(evt, key);
    assert key !in routing;
    LaidOver(ResourceLabels(evt), routing, ROLE_LABEL, RoleAt(StormRoles(evt), i).name, key);
    RoleLabels(cfg, evt, picks, i);
    BuildAt(|StormRoles(evt)|, RoleMaker(cfg, evt, picks), i);
  }

  /** Every pod of a gang-scheduled storm joins the PodGroup the controller writes. */
  lemma GangPodsJoinTheirGroup(cfg: Config, evt: ChangeEvent, picks: seq<Pick>, i: nat)
    requires Ganged(cfg) && i < |StormRoles(evt)|
    ensures var storm := StormOf(cfg, evt, picks);
            && i < |storm.roles| && GROUP_ANNOTATION in storm.roles[i].template.annotations
            && storm.roles[i].template.annotations[GROUP_ANNOTATION] == GroupKey(evt).name
  {
    BuildAt(|StormRoles(evt)|, RoleMaker(cfg, evt, picks), i);
  }

  // ------------------------------------------------------- the other objects

  const PLAIN_ROLE: StormRole := StormRole(WORKER, 0, 1, "")

  /** buildDeployment. */
  ghost function WorkloadOf(cfg: Config, evt: ChangeEvent, pick: Pick): Content {
    Workload(ClampReplicas(evt.replicas),
             TemplateWith(cfg, evt, pick, CommandOf(evt, cfg.mountPath, PLAIN_ROLE), PodLabels(evt),
                          SliceAnnotations(cfg, evt) + PodAnnotations(evt)))
  }

  method BuildDeployment(cfg: Config, evt: ChangeEvent, pick: Pick) returns (workload: Content)
    ensures workload == WorkloadOf(cfg, evt, pick)
  {
    var command := EngineCommand(evt, cfg.mountPath, PLAIN_ROLE);
    workload := Workload(ClampReplicas(evt.replicas),
                         TemplateWith(cfg, evt, pick, command, PodLabels(evt),
                           SliceAnnotations(cfg, evt) + PodAnnotations(evt)));
  }

  lemma LaidUnder(base: map<string, string>, over: map<string, string>, key: string)
    requires key in base && key !in over
    ensures key in base + over && (base + over)[key] == base[key]
  {
  }

  lemma DeploymentMetadata(cfg: Config, evt: ChangeEvent, pick: Pick)
    ensures var pods := WorkloadOf(cfg, evt, pick).template;
            && pods.labels == PodLabels(evt)
            && pods.annotations == SliceAnnotations(cfg, evt) + PodAnnotations(evt)
            && !pods.command.Rendezvous? && (pods.command.ImageDefault? <==> !KnownEngine(evt.engine))
  {
  }

  /** The Service's selector picks these pods, and they name the model they serve. */
  predicate ServedPods(evt: ChangeEvent, pods: Template) {
    && (forall key :: key in ServiceOf(evt).selector ==>
          key in pods.labels && pods.labels[key] == ServiceOf(evt).selector[key])
    && MODEL_NAME in pods.annotations && pods.annotations[MODEL_NAME] == ServedModelName(evt)
  }

  lemma PatchServes(evt: ChangeEvent, before: Template, pods: Template)
    requires ServedPods(evt, pods) && !pods.command.Rendezvous?
    ensures ServedPods(evt, MergedTemplate(before, pods))
    ensures MergedTemplate(before, pods).command.Rendezvous?
        <==> before.command.Rendezvous? && pods.command.ImageDefault?
  {
  }

  lemma MergedInto(before: Content, spec: Content)
    requires before.Workload? && spec.Workload?
    ensures MergedWorkload(spec, before).template == MergedTemplate(before.template, spec.template)
  {
  }

  lemma CreatedPodsAreServed(cfg: Config, evt: ChangeEvent, pick: Pick)
    ensures ServedPods(evt, WorkloadOf(cfg, evt, pick).template)
  {
    DeploymentMetadata(cfg, evt, pick);
    forall key | key in ServiceOf(evt).selector
      ensures key in PodLabels(evt) && PodLabels(evt)[key] == ServiceOf(evt).selector[key]
    {
      SelectorOnPods(evt, key);
    }
  }

  /** A Deployment's pods are reached through the Service just as a storm's are, so a
    * service that moves to a StormService is reached before and after: in the
    * Deployment as created, and in any other one once patched. Created, they run the
    * engine by themselves; patched, they wait for others if and only if they did so
    * before and the engine is unknown, which leaves the command out of the patch. */
  lemma DeploymentPodsAreServed(cfg: Config, evt: ChangeEvent, pick: Pick, before: Content)
    requires before.Workload?
    ensures ServedPods(evt, WorkloadOf(cfg, evt, pick).template)
    ensures !WorkloadOf(cfg, evt, pick).template.command.Rendezvous?
    ensures var pods := MergedWorkload(WorkloadOf(cfg, evt, pick), before).template;
            && ServedPods(evt, pods)
            && (pods.command.Rendezvous? <==> before.template.command.Rendezvous? && !KnownEngine(evt.engine))
  {
    var spec := WorkloadOf(cfg, evt, pick);
    DeploymentMetadata(cfg, evt, pick);
    CreatedPodsAreServed(cfg, evt, pick);
    MergedInto(before, spec);
    PatchServes(evt, before.template, spec.template);
  }

  lemma SelectorOnPods(evt: ChangeEvent, key: string)
    requires key in ServiceOf(evt).selector
    ensures key in PodLabels(evt) && PodLabels(evt)[key] == ServiceOf(evt).selector[key]
  {
    var routing := RoutingLabels(ServedModelName(evt));
    LabelsApart(evt, key);
    assert key !in routing;
    LaidUnder(ResourceLabels(evt), routing, key);
  }

  function OldIfEmpty(old_: string, new_: string): string { if new_ == "" then old_ else new_ }

  /** A strategic merge patch lays maps over the old ones and never takes a key out; what
    * is empty is not in the patch, so the old stays. */
  function MergedTemplate(old_: Template, new_: Template): Template {
    new_.(image := OldIfEmpty(old_.image, new_.image),
          command := if new_.command.ImageDefault? then old_.command else new_.command,
          scheduler := OldIfEmpty(old_.scheduler, new_.scheduler),
          priorityClass := OldIfEmpty(old_.priorityClass, new_.priorityClass),
          resources := Resources(old_.resources.limits + new_.resources.limits,
            old_.resources.requests + new_.resources.requests),
          nodeSelector := old_.nodeSelector + new_.nodeSelector,
          sharedMemory := old_.sharedMemory || new_.sharedMemory,
          labels := old_.labels + new_.labels,
          annotations := old_.annotations + new_.annotations)
  }

  function MergedWorkload(spec: Content, c: Content): (merged: Content)
    ensures c.Workload? ==> merged.Workload?
  {
    if c.Workload? && spec.Workload? then Workload(spec.replicas, MergedTemplate(c.template, spec.template)) else c
  }

  /** buildService. */
  function ServiceOf(evt: ChangeEvent): Content {
    Front(ResourceLabels(evt), ResourceLabels(evt), map[80 := Port("http", 8000), 8000 := Port("engine", 8000)])
  }

  /** The patch carries the Service's spec and not its metadata. */
  function MergedService(spec: Content, c: Content): Content {
    if c.Front? && spec.Front? then Front(c.labels, c.selector + spec.selector, c.ports + spec.ports) else c
  }

  function PinPatch(evt: ChangeEvent): Content -> Content { (c: Content) => Pinned(ClampReplicas(evt.replicas), c) }

  function ServicePatch(evt: ChangeEvent): Content -> Content { (c: Content) => MergedService(ServiceOf(evt), c) }

  function WorkloadPatch(spec: Content): Content -> Content { (c: Content) => MergedWorkload(spec, c) }

  function GroupOf(cfg: Config, evt: ChangeEvent): Content {
    Gang(BuildPodGroup(evt, PriorityClass(cfg, evt), cfg.queue), ResourceLabels(evt))
  }

  /** applyAIBrixAutoscaler and buildPodAutoscaler. */
  function ScalerOf(evt: ChangeEvent): Content {
    var policy := if evt.autoscaling.Some? then evt.autoscaling.value else Policy(true, 1, 10, 32);
    var target := ClampReplicas(policy.targetConcurrency);
    Scaler(evt.name, ClampReplicas(policy.minReplicas), AtLeastOne(ClampReplicas(policy.maxReplicas)),
           if target < 1 then 32 else target)
  }

  function ClaimOf(cfg: Config, evt: ChangeEvent): Content {
    Claim(evt.name, evt.engine, ModelDir(cfg.mountPath, evt.weightPath), ClampReplicas(evt.replicas),
      ResourceLabels(evt))
  }

  function GatewayNamespace(cfg: Config): string {
    if cfg.gatewayNamespace == "" then "aibrix-system" else cfg.gatewayNamespace
  }

  function GatewayName(cfg: Config): string { if cfg.gateway == "" then "aibrix-eg" else cfg.gateway }

  function RouteLabels(evt: ChangeEvent): map<string, string> {
    map["app.kubernetes.io/managed-by" := "taas-controller", "go-taas.com/service-id" := evt.serviceId]
  }

  function RouteOf(cfg: Config, evt: ChangeEvent): Content {
    Route(ServedModelName(evt), ServiceName(evt), GatewayName(cfg), RouteLabels(evt))
  }

  function GrantName(cfg: Config): string {
    GatewayNamespace(cfg) + "-reserved-referencegrant-in-" + cfg.namespace
  }

  function ClaimKey(cfg: Config, evt: ChangeEvent): Key { Key(ModelClaim, cfg.claimName(evt.name)) }

  function RouteKey(cfg: Config, evt: ChangeEvent): Key { Key(HTTPRoute, cfg.routeName(ServedModelName(evt))) }

  function GrantKey(cfg: Config): Key { Key(ReferenceGrant, GrantName(cfg)) }

  function GrantOf(cfg: Config): Content { Grant(GatewayNamespace(cfg), cfg.namespace) }

  function WeightsKey(cfg: Config): Key { Key(WeightsClaim, cfg.claim) }

  // ------------------------------------------------------------------- setup

  /** The protocol's setup for a configuration. */
  ghost function SetupOf(cfg: Config, env: Env): Setup {
    Setup(
      cfg.dynamic, Ganged(cfg), cfg.aibrix, Optimistic.ATTEMPTS, Watcher(env), ConfiguredLabel(cfg),
      (nodes: seq<Labels>) => VendorLabel(ConfiguredLabel(cfg), nodes),
      (nodes: seq<Labels>, card: string) => CardLabel(CARD_LABELS, nodes, card),
      (evt: ChangeEvent) => |StormRoles(evt)|,
      (evt: ChangeEvent, picks: seq<Pick>) => StormOf(cfg, evt, picks),
      (evt: ChangeEvent) => PinPatch(evt),
      (evt: ChangeEvent, pick: Pick) => WorkloadOf(cfg, evt, pick),
      (evt: ChangeEvent, pick: Pick) => WorkloadPatch(WorkloadOf(cfg, evt, pick)),
      (evt: ChangeEvent) => GroupOf(cfg, evt),
      (evt: ChangeEvent) => ServiceOf(evt),
      (evt: ChangeEvent) => ServicePatch(evt),
      (evt: ChangeEvent) => ScalerOf(evt),
      (evt: ChangeEvent) => ClaimKey(cfg, evt),
      (evt: ChangeEvent) => ClaimOf(cfg, evt),
      (evt: ChangeEvent) => RouteKey(cfg, evt),
      (evt: ChangeEvent) => RouteOf(cfg, evt),
      GrantKey(cfg),
      GrantOf(cfg),
      WeightsKey(cfg),
      Weights(cfg.storageClass))
  }

  lemma SetupIsProper(cfg: Config, env: Env)
    ensures Proper(env, SetupOf(cfg, env))
  {
    WatcherIsLawful(env);
  }

  lemma ServiceIsStable(e: ChangeEvent, e': ChangeEvent)
    requires History.SameService(e, e')
    ensures MergedService(ServiceOf(e), ServiceOf(e')) == ServiceOf(e)
  {
    assert ResourceLabels(e') == ResourceLabels(e);
    assert ResourceLabels(e) + ResourceLabels(e) == ResourceLabels(e);
  }

  /** Patching a Service this controller wrote for an earlier event, or pinning a
    * storm it just wrote, gives exactly what the event wants. */
  lemma SetupIsStable(cfg: Config, env: Env)
    ensures History.Stable(SetupOf(cfg, env))
  {
    var d := SetupOf(cfg, env);
    forall e, e' | History.SameService(e, e') ensures d.servicePatch(e)(d.service(e')) == d.service(e) {
      ServiceIsStable(e, e');
    }
    forall e, picks ensures d.pin(e)(d.storm(e, picks)) == d.storm(e, picks) {
      assert d.pin(e)(d.storm(e, picks)) == Pinned(ClampReplicas(e.replicas), StormOf(cfg, e, picks));
    }
  }

  /** So the theorems about setups are about every configuration: what holds of a
    * lawful, stable setup holds of this one ... */
  lemma ConfiguredScene(cfg: Config, env: Env, svc: ChangeEvent, nodes: seq<Labels>)
    requires cfg.dynamic && History.Quiet(env, svc, nodes)
    ensures History.Scene(env, SetupOf(cfg, env), svc, nodes)
  {
    SetupIsProper(cfg, env);
    SetupIsStable(cfg, env);
  }

  /** ... and what is wanted does not depend on how the world behaves. */
  lemma WantsAreFixed(cfg: Config, env: Env, other: Env)
    ensures History.SameWants(SetupOf(cfg, env), SetupOf(cfg, other))
  {
  }

  /** Every retried write makes up to five attempts, so it survives four clashes: while
    * the object is there and nothing else fails, it succeeds if and only if one of the
    * five is not hit by another writer. */
  lemma FourClashesAreSurvived(cfg: Config, env: Env, w: World, key: Key, content: Content, pause: bool)
    requires Versioned(w.store) && key in w.store.objects
    requires Optimistic.OnlyWriters(env, |w.log|, |w.log| + 15, key)
    ensures Optimistic.Apply(env, w, key, content, SetupOf(cfg, env).attempts, pause).1.None?
       <==> exists a: nat :: a < 5 && !Rewrites(env(Optimistic.WriteTurn(|w.log|, a, pause)).others, key)
  {
    Optimistic.ApplySucceedsUnlessAllHit(env, w, key, content, 5, pause);
  }
}

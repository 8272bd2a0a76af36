/** What a service's pods run, where they may run and how they are found, whichever
  * object owns them; and what the objects around them say. */
module Pods {
  import opened Prelude
  import opened Events
  import opened Topology
  import opened EngineArgs
  import opened Objects
  import opened Cluster
  import opened Reconcile
  import opened Desired
  import Aftermath
  import History
  import Optimistic
  import Steps
  import Text

  // ------------------------------------------------------------ the pods run

  predicate SharesCards(evt: ChangeEvent) { evt.poolId != "" && evt.sliceTemplateId != "" }

  /** The value a node must have under the label key, if any. */
  function Wants(cfg: Config, evt: ChangeEvent, pick: Pick, key: string): Option<string> {
    if SharesCards(evt) && key in cfg.poolSelector then Some(cfg.poolSelector[key])
    else if key == pick.card && pick.card != "" && evt.acceleratorType != "" then Some(evt.acceleratorType)
    else if key == pick.vendor then Some(evt.accelerator)
    else None
  }

  /** The event's image, with the configured weights mounted, placed by the configured
    * scheduler. */
  predicate RunsImage(cfg: Config, evt: ChangeEvent, pods: Template) {
    && pods.image == evt.image && pods.claim == cfg.claim && pods.mountPath == cfg.mountPath
    && pods.scheduler == cfg.scheduler
    && (pods.sharedMemory <==> evt.topology == "multinode" || evt.topology == "distributed" || evt.topology == "pd")
    && var level := if evt.priority == "high" || evt.priority == "low" then evt.priority else "normal";
       pods.priorityClass == if level in cfg.priorityClasses then cfg.priorityClasses[level] else ""
  }

  /** On nodes with the wanted labels and no others, for the devices asked for. */
  ghost predicate RunsThere(cfg: Config, evt: ChangeEvent, pick: Pick, pods: Template) {
    && (forall key :: key in pods.nodeSelector <==> Wants(cfg, evt, pick, key).Some?)
    && (forall key :: key in pods.nodeSelector ==> pods.nodeSelector[key] == Wants(cfg, evt, pick, key).value)
    && pods.resources == if SharesCards(evt) then SliceResources(evt) else PodResources(evt)
  }

  lemma SelectorMeans(cfg: Config, evt: ChangeEvent, pick: Pick, key: string)
    ensures var selector := NodeSelector(cfg, evt, pick);
            && (key in selector <==> Wants(cfg, evt, pick, key).Some?)
            && (key in selector ==> selector[key] == Wants(cfg, evt, pick, key).value)
  {
  }

  lemma TemplateRuns(
    cfg: Config, evt: ChangeEvent, pick: Pick, command: Command, labels: map<string, string>,
    annotations: map<string, string>)
    ensures var pods := TemplateWith(cfg, evt, pick, command, labels, annotations);
            RunsImage(cfg, evt, pods) && RunsThere(cfg, evt, pick, pods)
  {
    forall key
      ensures key in NodeSelector(cfg, evt, pick) <==> Wants(cfg, evt, pick, key).Some?
      ensures key in NodeSelector(cfg, evt, pick) ==>
                NodeSelector(cfg, evt, pick)[key] == Wants(cfg, evt, pick, key).value
    {
      SelectorMeans(cfg, evt, pick, key);
    }
  }

  lemma RoleRuns(cfg: Config, evt: ChangeEvent, picks: seq<Pick>, i: nat)
    ensures var pods := RoleOf(cfg, evt, picks, i).template;
            && RunsImage(cfg, evt, pods) && RunsThere(cfg, evt, PickAt(picks, i), pods)
            && pods.command == CommandOf(evt, cfg.mountPath, RoleAt(StormRoles(evt), i))
  {
    var role := RoleAt(StormRoles(evt), i);
    TemplateRuns(cfg, evt, PickAt(picks, i), CommandOf(evt, cfg.mountPath, role),
                 PodLabels(evt)[ROLE_LABEL := role.name], PodAnnotations(evt) + SliceAnnotations(cfg, evt));
  }

  /** A storm has one role for each the topology asks for, and its pods run the event's
    * image with the role's command, on the nodes picked for that role. */
  lemma StormPodsRun(cfg: Config, evt: ChangeEvent, picks: seq<Pick>, i: nat)
    requires |picks| == |StormRoles(evt)| && i < |picks|
    ensures var storm := StormOf(cfg, evt, picks);
            && |storm.roles| == |picks| && storm.replicas == ClampReplicas(evt.replicas)
            && var role, asked := storm.roles[i], StormRoles(evt)[i];
            && (role.name, role.replicas, role.podGroupSize) == (asked.name, asked.replicas, asked.podGroupSize)
            && RunsImage(cfg, evt, role.template) && RunsThere(cfg, evt, picks[i], role.template)
            && role.template.command == CommandOf(evt, cfg.mountPath, asked)
  {
    BuildAt(|StormRoles(evt)|, RoleMaker(cfg, evt, picks), i);
    RoleRuns(cfg, evt, picks, i);
  }

  /** A Deployment's pods run the same on one pod each ... */
  lemma DeploymentPodsRun(cfg: Config, evt: ChangeEvent, pick: Pick)
    ensures var workload := WorkloadOf(cfg, evt, pick);
            && workload.replicas == ClampReplicas(evt.replicas)
            && RunsImage(cfg, evt, workload.template) && RunsThere(cfg, evt, pick, workload.template)
            && workload.template.command == CommandOf(evt, cfg.mountPath, StormRole("worker", 0, 1, ""))
  {
    TemplateRuns(cfg, evt, pick, CommandOf(evt, cfg.mountPath, PLAIN_ROLE), PodLabels(evt),
                 SliceAnnotations(cfg, evt) + PodAnnotations(evt));
  }

  /** ... and so do those of one patched: what the event leaves empty stays as it was,
    * and of node labels, resources and shared memory only what it does not mention. */
  lemma PatchedPodsRun(cfg: Config, evt: ChangeEvent, pick: Pick, before: Content)
    requires before.Workload?
    ensures var after := MergedWorkload(WorkloadOf(cfg, evt, pick), before);
            && after.replicas == ClampReplicas(evt.replicas)
            && var old_, pods := before.template, after.template;
            && pods.image == (if evt.image == "" then old_.image else evt.image)
            && pods.command == (if evt.engine == "vllm" || evt.engine == "sglang"
                                then CommandOf(evt, cfg.mountPath, StormRole("worker", 0, 1, "")) else old_.command)
            && pods.claim == cfg.claim && pods.mountPath == cfg.mountPath
            && pods.scheduler == (if cfg.scheduler == "" then old_.scheduler else cfg.scheduler)
            && (forall key ::
                  key in pods.nodeSelector <==> Wants(cfg, evt, pick, key).Some? || key in old_.nodeSelector)
            && (forall key :: key in pods.nodeSelector ==>
                  pods.nodeSelector[key] == if Wants(cfg, evt, pick, key).Some? then Wants(cfg, evt, pick, key).value
                                            else old_.nodeSelector[key])
  {
    DeploymentPodsRun(cfg, evt, pick);
  }

  // -------------------------------------------------------- the pods are found

  /** The name clients address the model by. */
  function ModelName(evt: ChangeEvent): string {
    if Text.TrimSpace(evt.modelName) != "" then Text.TrimSpace(evt.modelName) else evt.name
  }

  predicate Alphanumeric(c: char) { 'a' <= c <= 'z' || 'A' <= c <= 'Z' || '0' <= c <= '9' }

  /** What a label value may be. */
  predicate CanBeLabel(s: string) {
    s == "" || (
      && |s| < 64 && Alphanumeric(s[0]) && Alphanumeric(s[|s| - 1])
      && forall c :: c in s ==> Alphanumeric(c) || c == '-' || c == '_' || c == '.')
  }

  lemma LabelValueMeans(s: string)
    ensures LabelValue(s) <==> CanBeLabel(s)
  {
    if LabelValue(s) {
      forall c | c in s ensures Alphanumeric(c) || c == '-' || c == '_' || c == '.' {
        var i :| 0 <= i < |s| && s[i] == c;
      }
    }
    if CanBeLabel(s) {
      forall i | 0 <= i < |s| ensures LabelEdge(s[i]) || s[i] in {'-', '_', '.'} { assert s[i] in s; }
    }
  }

  /** The labels pods are found by. */
  predicate Found(evt: ChangeEvent, labels: map<string, string>) {
    && "app" in labels && labels["app"] == evt.name
    && "go-taas.com/service-id" in labels && labels["go-taas.com/service-id"] == evt.serviceId
    && "app.kubernetes.io/managed-by" in labels && labels["app.kubernetes.io/managed-by"] == "taas-controller"
  }

  /** The labels and annotations the gateway finds the model by. */
  predicate Routed(evt: ChangeEvent, labels: map<string, string>) {
    && "model.aibrix.ai/port" in labels && labels["model.aibrix.ai/port"] == "8000"
    && ("model.aibrix.ai/name" in labels <==> CanBeLabel(ModelName(evt)))
    && ("model.aibrix.ai/name" in labels ==> labels["model.aibrix.ai/name"] == ModelName(evt))
  }

  predicate Announced(evt: ChangeEvent, annotations: map<string, string>) {
    && "model.aibrix.ai/name" in annotations && annotations["model.aibrix.ai/name"] == ModelName(evt)
    && "model.aibrix.ai/port" in annotations && annotations["model.aibrix.ai/port"] == "8000"
    && "model.aibrix.ai/service-name" in annotations
    && annotations["model.aibrix.ai/service-name"] == evt.name + "-svc"
  }

  lemma NamesDiffer()
    ensures MODEL_NAME != MODEL_PORT && MODEL_NAME != MODEL_SERVICE && MODEL_PORT != MODEL_SERVICE
    ensures MODEL_NAME != GROUP_ANNOTATION && MODEL_PORT != GROUP_ANNOTATION && MODEL_SERVICE != GROUP_ANNOTATION
  {
    assert |MODEL_NAME| == 20 && |MODEL_PORT| == 20 && |MODEL_SERVICE| == 28 && |GROUP_ANNOTATION| == 28;
    assert MODEL_NAME[16] == 'n' && MODEL_PORT[16] == 'p';
    assert MODEL_SERVICE[0] == 'm' && GROUP_ANNOTATION[0] == 's';
  }

  lemma RoutingMeans(evt: ChangeEvent)
    ensures Routed(evt, RoutingLabels(ServedModelName(evt)))
    ensures Announced(evt, PodAnnotations(evt))
  {
    NamesDiffer();
    LabelValueMeans(ServedModelName(evt));
  }

  lemma ResourceLabelsMean(evt: ChangeEvent)
    ensures Found(evt, ResourceLabels(evt))
    ensures forall key :: key in ResourceLabels(evt) ==> key != ROLE_LABEL && key != MODEL_NAME && key != MODEL_PORT
    ensures ROLE_LABEL != MODEL_NAME && ROLE_LABEL != MODEL_PORT
  {
    assert |"app.kubernetes.io/managed-by"| == 28 && |"go-taas.com/service-id"| == 22 && |"app"| == 3;
    assert |ROLE_LABEL| == 16 && |MODEL_NAME| == 20 && |MODEL_PORT| == 20;
  }

  lemma LabelsMean(evt: ChangeEvent, role: string)
    ensures Found(evt, PodLabels(evt)) && Routed(evt, PodLabels(evt))
    ensures var named := PodLabels(evt)[ROLE_LABEL := role]; Found(evt, named) && Routed(evt, named)
  {
    ResourceLabelsMean(evt);
    RoutingMeans(evt);
  }

  /** A shared card's pods say how they want to be placed. */
  predicate Placed(cfg: Config, evt: ChangeEvent, annotations: map<string, string>) {
    SharesCards(evt) ==>
      cfg.policyAnnotation in annotations && annotations[cfg.policyAnnotation] == cfg.placementPolicy
  }

  /** The configured annotation is not one of those the controller writes itself. */
  predicate OwnAnnotation(name: string) {
    && name != "model.aibrix.ai/name" && name != "model.aibrix.ai/port" && name != "model.aibrix.ai/service-name"
    && name != "scheduling.k8s.io/group-name"
  }

  lemma AnnotationsMean(cfg: Config, evt: ChangeEvent, group: string)
    requires SharesCards(evt) ==> OwnAnnotation(cfg.policyAnnotation)
    ensures var a := PodAnnotations(evt) + SliceAnnotations(cfg, evt);
            && Announced(evt, a) && Placed(cfg, evt, a)
            && Announced(evt, a[GROUP_ANNOTATION := group]) && Placed(cfg, evt, a[GROUP_ANNOTATION := group])
    ensures var a := SliceAnnotations(cfg, evt) + PodAnnotations(evt); Announced(evt, a) && Placed(cfg, evt, a)
  {
    RoutingMeans(evt);
    NamesDiffer();
  }

  lemma RoleMetadata(cfg: Config, evt: ChangeEvent, picks: seq<Pick>, i: nat)
    ensures var pods := RoleOf(cfg, evt, picks, i).template;
            var a := PodAnnotations(evt) + SliceAnnotations(cfg, evt);
            && pods.labels == PodLabels(evt)[ROLE_LABEL := RoleAt(StormRoles(evt), i).name]
            && pods.annotations
                == if cfg.dynamic && cfg.scheduler == "volcano" then a[GROUP_ANNOTATION := evt.name] else a
  {
  }

  /** The pods of a storm carry what the Service, the gateway and the gang scheduler look
    * for, the gang's name if and only if Volcano schedules them, and their role. */
  lemma StormPodsAreFound(cfg: Config, evt: ChangeEvent, picks: seq<Pick>, i: nat)
    requires i < |StormRoles(evt)| && (SharesCards(evt) ==> OwnAnnotation(cfg.policyAnnotation))
    ensures var storm := StormOf(cfg, evt, picks);
            && i < |storm.roles|
            && var role := storm.roles[i]; var pods := role.template;
            && Found(evt, pods.labels) && Routed(evt, pods.labels)
            && "go-taas.com/role" in pods.labels && pods.labels["go-taas.com/role"] == role.name
            && Announced(evt, pods.annotations) && Placed(cfg, evt, pods.annotations)
            && ("scheduling.k8s.io/group-name" in pods.annotations <==> cfg.dynamic && cfg.scheduler == "volcano")
            && (cfg.dynamic && cfg.scheduler == "volcano" ==>
                  pods.annotations["scheduling.k8s.io/group-name"] == evt.name)
  {
    BuildAt(|StormRoles(evt)|, RoleMaker(cfg, evt, picks), i);
    RoleMetadata(cfg, evt, picks, i);
    LabelsMean(evt, RoleAt(StormRoles(evt), i).name);
    AnnotationsMean(cfg, evt, evt.name);
    NoGroupYet(cfg, evt);
  }

  lemma NoGroupYet(cfg: Config, evt: ChangeEvent)
    requires SharesCards(evt) ==> OwnAnnotation(cfg.policyAnnotation)
    ensures GROUP_ANNOTATION !in PodAnnotations(evt) + SliceAnnotations(cfg, evt)
  {
    NamesDiffer();
  }

  /** The storm itself carries the same labels and announcements; it is stateful, in every
    * role, if and only if some role spans several pods. */
  lemma StormIsFound(cfg: Config, evt: ChangeEvent, picks: seq<Pick>, i: nat)
    requires i < |StormRoles(evt)|
    ensures var storm := StormOf(cfg, evt, picks);
            && Found(evt, storm.labels) && Routed(evt, storm.labels) && Announced(evt, storm.annotations)
            && (storm.stateful <==> exists asked :: asked in StormRoles(evt) && asked.podGroupSize > 1)
            && i < |storm.roles| && storm.roles[i].stateful == storm.stateful
  {
    LabelsMean(evt, "");
    RoutingMeans(evt);
    BuildAt(|StormRoles(evt)|, RoleMaker(cfg, evt, picks), i);
  }

  /** A Deployment's pods carry the same, but for gang and role. */
  lemma DeploymentPodsAreFound(cfg: Config, evt: ChangeEvent, pick: Pick)
    requires SharesCards(evt) ==> OwnAnnotation(cfg.policyAnnotation)
    ensures var pods := WorkloadOf(cfg, evt, pick).template;
            && Found(evt, pods.labels) && Routed(evt, pods.labels)
            && Announced(evt, pods.annotations) && Placed(cfg, evt, pods.annotations)
  {
    DeploymentMetadata(cfg, evt, pick);
    LabelsMean(evt, "");
    AnnotationsMean(cfg, evt, "");
  }

  // --------------------------------------------------- the objects around them

  /** A Service has the pods it selects answer on the two ports clients and the gateway
    * use, both on the port the engine is told to listen on. */
  lemma ServiceReachesEngine(evt: ChangeEvent, mountPath: string, role: StormRole)
    ensures var s := ServiceOf(evt);
            && s.ports == map[80 := Port("http", 8000), 8000 := Port("engine", 8000)]
            && s.labels == s.selector && Found(evt, s.selector) && |s.selector| == 3
            && (evt.engine == "vllm" || evt.engine == "sglang" ==>
                  Passes(ArgsOf(CommandOf(evt, mountPath, role)), "--port", "8000"))
  {
    ResourceLabelsMean(evt);
    CommandMeans(evt, mountPath, role);
  }

  /** The route sends the model's requests to the very Service the pods announce and
    * the upsert writes, through the configured gateway or AIBrix's own. */
  lemma RouteLeadsToService(cfg: Config, evt: ChangeEvent)
    ensures var route := RouteOf(cfg, evt);
            && route.model == ModelName(evt) && RouteKey(cfg, evt) == Key(HTTPRoute, cfg.routeName(ModelName(evt)))
            && ServiceKey(evt) == Key(Service, route.backend) && route.backend == evt.name + "-svc"
            && route.gateway == (if cfg.gateway == "" then "aibrix-eg" else cfg.gateway)
            && "go-taas.com/service-id" in route.labels && route.labels["go-taas.com/service-id"] == evt.serviceId
    ensures var from := if cfg.gatewayNamespace == "" then "aibrix-system" else cfg.gatewayNamespace;
            && GrantOf(cfg) == Grant(from, cfg.namespace)
            && GrantKey(cfg) == Key(ReferenceGrant, from + "-reserved-referencegrant-in-" + cfg.namespace)
  {
  }

  /** The model claim speaks of the weights the pods load, and selects the pods the
    * Service selects; the weights are on the one claim every pod mounts. */
  lemma ClaimNamesTheWeights(cfg: Config, evt: ChangeEvent)
    ensures var claim := ClaimOf(cfg, evt);
            && claim.model == evt.name && claim.engine == evt.engine && claim.replicas == ClampReplicas(evt.replicas)
            && claim.artifact == ModelDir(cfg.mountPath, evt.weightPath) && claim.selector == ServiceOf(evt).selector
            && ClaimKey(cfg, evt) == Key(ModelClaim, cfg.claimName(evt.name))
            && WeightsKey(cfg) == Key(WeightsClaim, cfg.claim)
  {
  }

  /** The autoscaler drives the StormService, between the policy's bounds and to the
    * policy's concurrency where those make sense: no fewer than none, at most at least
    * one, and 32 for want of a target. Without a policy it is one to ten at 32. */
  lemma ScalerMeans(evt: ChangeEvent)
    ensures var s := ScalerOf(evt);
            && StormKey(evt) == Key(StormService, s.target) && s.target == evt.name
            && match evt.autoscaling
               case None => s.minReplicas == 1 && s.maxReplicas == 10 && s.concurrency == 32
               case Some(policy) =>
                 && s.minReplicas == Max(0, Min(policy.minReplicas, 0x7FFF_FFFF))
                 && s.maxReplicas == Max(1, Min(policy.maxReplicas, 0x7FFF_FFFF))
                 && s.concurrency == if policy.targetConcurrency < 1 then 32
                                     else Min(policy.targetConcurrency, 0x7FFF_FFFF)
  {
  }

  /** The gang is written for the service's own group, in the configured queue, with the
    * class its pods have. */
  lemma GangMeans(cfg: Config, evt: ChangeEvent)
    ensures var g := GroupOf(cfg, evt);
            && g.group.queue == cfg.queue && g.labels == ServiceOf(evt).selector
            && g.group.priorityClass == PriorityClass(cfg, evt)
            && (Ganged(cfg) <==> cfg.dynamic && cfg.scheduler == "volcano")
  {
  }

  // ------------------------------------------------------------ the label keys

  /** The vendor is looked for under the configured key, or under "gpu-vendor" if some
    * node has that one and none the configured one. */
  lemma VendorLabelMeans(cfg: Config, nodes: seq<Labels>)
    ensures var configured := if cfg.acceleratorLabel == "" then "go-taas.com/accelerator" else cfg.acceleratorLabel;
            VendorLabel(ConfiguredLabel(cfg), nodes)
            == if (exists n :: n in nodes && "gpu-vendor" in n) && (forall n :: n in nodes ==> configured !in n)
               then "gpu-vendor" else configured
  {
  }

  /** Some node reports the card under the key. */
  predicate Reports(nodes: seq<Labels>, key: string, card: string) {
    exists n :: n in nodes && key in n && n[key] == card
  }

  lemma {:induction false} CardLabelIs(keys: seq<string>, nodes: seq<Labels>, card: string) returns (i: nat)
    ensures i <= |keys| && forall j :: 0 <= j < i ==> !Reports(nodes, keys[j], card)
    ensures if i == |keys| then CardLabel(keys, nodes, card) == ""
            else CardLabel(keys, nodes, card) == keys[i] && Reports(nodes, keys[i], card)
  {
    if keys == [] || Reports(nodes, keys[0], card) {
      i := 0;
    } else {
      i := CardLabelIs(keys[1..], nodes, card);
      i := i + 1;
    }
  }

  /** The card is looked for under eight keys, in this order; the answer is the first
    * under which some node reports it, or none if no node does. */
  lemma CardLabelMeans(nodes: seq<Labels>, card: string) returns (i: nat)
    ensures CARD_LABELS == [
              "nvidia.com/gpu.product", "nvidia.com/gpu.model", "iluvatar.ai/gpu.product", "iluvatar.ai/product",
              "metax-tech.com/gpu.product", "metax-tech.com/product", "go-taas.com/accelerator-type", "gpu-product"]
    ensures i <= |CARD_LABELS| && forall j :: 0 <= j < i ==> !Reports(nodes, CARD_LABELS[j], card)
    ensures if i == |CARD_LABELS| then CardLabel(CARD_LABELS, nodes, card) == ""
            else CardLabel(CARD_LABELS, nodes, card) == CARD_LABELS[i] && Reports(nodes, CARD_LABELS[i], card)
  {
    i := CardLabelIs(CARD_LABELS, nodes, card);
  }

  // ------------------------------------------------------------- from end to end

  /** What the nodes say a role's pods are to be pinned by. */
  ghost function NodesPick(cfg: Config, nodes: seq<Labels>, evt: ChangeEvent): Pick {
    Pick(VendorLabel(ConfiguredLabel(cfg), nodes),
         if evt.acceleratorType == "" then "" else CardLabel(CARD_LABELS, nodes, evt.acceleratorType))
  }

  /** The storm runs the event's image in every role the topology asks for, with that
    * role's command, on the nodes that have what the event asks for. */
  ghost predicate StormRuns(cfg: Config, nodes: seq<Labels>, evt: ChangeEvent, storm: Content) {
    && storm.Storm? && storm.replicas == ClampReplicas(evt.replicas) && |storm.roles| == |StormRoles(evt)|
    && forall i :: 0 <= i < |storm.roles| ==> RoleRunsThere(cfg, nodes, evt, storm.roles[i], StormRoles(evt)[i])
  }

  ghost predicate RoleRunsThere(cfg: Config, nodes: seq<Labels>, evt: ChangeEvent, role: Role, asked: StormRole) {
    && (role.name, role.replicas, role.podGroupSize) == (asked.name, asked.replicas, asked.podGroupSize)
    && RunsImage(cfg, evt, role.template) && RunsThere(cfg, evt, NodesPick(cfg, nodes, evt), role.template)
    && role.template.command == CommandOf(evt, cfg.mountPath, asked)
  }

  lemma PickRuns(cfg: Config, nodes: seq<Labels>, evt: ChangeEvent, picks: seq<Pick>, i: nat)
    requires |picks| == |StormRoles(evt)| && i < |picks| && picks[i] == NodesPick(cfg, nodes, evt)
    ensures var storm := StormOf(cfg, evt, picks);
            i < |storm.roles| && RoleRunsThere(cfg, nodes, evt, storm.roles[i], StormRoles(evt)[i])
  {
    StormPodsRun(cfg, evt, picks, i);
  }

  lemma PicksRun(cfg: Config, nodes: seq<Labels>, evt: ChangeEvent, picks: seq<Pick>)
    requires |picks| == |StormRoles(evt)| && forall i :: 0 <= i < |picks| ==> picks[i] == NodesPick(cfg, nodes, evt)
    ensures StormRuns(cfg, nodes, evt, StormOf(cfg, evt, picks))
  {
    BuildAll(cfg, evt, picks);
    forall i | 0 <= i < |StormRoles(evt)|
      ensures RoleRunsThere(cfg, nodes, evt, StormOf(cfg, evt, picks).roles[i], StormRoles(evt)[i])
    {
      PickRuns(cfg, nodes, evt, picks, i);
    }
  }

  lemma PicksOfNodes(cfg: Config, env: Env, nodes: seq<Labels>, evt: ChangeEvent, picks: seq<Pick>)
    requires History.PicksOf(SetupOf(cfg, env), nodes, evt, picks)
    ensures |picks| == |StormRoles(evt)| && forall i :: 0 <= i < |picks| ==> picks[i] == NodesPick(cfg, nodes, evt)
  {
  }

  lemma BuildAll(cfg: Config, evt: ChangeEvent, picks: seq<Pick>)
    ensures |StormOf(cfg, evt, picks).roles| == |StormRoles(evt)|
  {
    BuildAt(|StormRoles(evt)|, RoleMaker(cfg, evt, picks), 0);
  }

  /** In every configuration with a dynamic client, an undisturbed deploying event
    * leaves a StormService whose pods run what the event says, and no Deployment. */
  lemma DeployRuns(cfg: Config, env: Env, d: Setup, nodes: seq<Labels>, evt: ChangeEvent, w: World)
    requires d == SetupOf(cfg, env) && ProperKeys(d) && cfg.dynamic && History.Quiet(env, evt, nodes)
    requires History.Start(d, nodes, evt, w) && evt.serviceId != "" && evt.name != ""
    requires evt.eventType == "upsert" || evt.eventType == "update_version" || evt.eventType == "rollback"
    ensures var objects := Handle(env, d, Change(evt), w).0.store.objects;
            && Key(StormService, evt.name) in objects && Key(Deployment, evt.name) !in objects
            && StormRuns(cfg, nodes, evt, objects[Key(StormService, evt.name)].content)
  {
    ConfiguredScene(cfg, env, evt, nodes);
    History.DeployWrites(env, d, nodes, evt, w);
    var s := Handle(env, d, Change(evt), w).0.store;
    var picks :| History.PicksOf(d, nodes, evt, picks)
                 && Optimistic.Stores(s, Key(StormService, evt.name), d.storm(evt, picks));
    PicksOfNodes(cfg, env, nodes, evt, picks);
    PicksRun(cfg, nodes, evt, picks);
  }

  /** Pinning sets the replica count and touches nothing else. */
  lemma PinMeans(evt: ChangeEvent, c: Content)
    ensures var n := ClampReplicas(evt.replicas);
            PinPatch(evt)(c)
            == match c
               case Storm(_, stateful, roles, labels, annotations) => Storm(n, stateful, roles, labels, annotations)
               case Workload(_, template) => Workload(n, template)
               case _ => c
  {
  }

  lemma PinnedRuns(cfg: Config, evt: ChangeEvent, pick: Pick)
    ensures var c := PinPatch(evt)(WorkloadOf(cfg, evt, pick));
            && c.Workload? && c.replicas == ClampReplicas(evt.replicas)
            && RunsImage(cfg, evt, c.template) && RunsThere(cfg, evt, pick, c.template)
  {
    PinMeans(evt, WorkloadOf(cfg, evt, pick));
    DeploymentPodsRun(cfg, evt, pick);
  }

  /** In every configuration without one, a successful upsert of a new service leaves a
    * Deployment whose pods run what the event says, as many as it says. */
  lemma ClientlessDeployRuns(cfg: Config, env: Env, d: Setup, nodes: seq<Labels>, evt: ChangeEvent, w: World)
    requires d == SetupOf(cfg, env) && Steps.Proper(env, d) && !cfg.dynamic
    requires Aftermath.Calm(env, Key(Deployment, evt.name)) && (forall i {:trigger env(i)} :: env(i).nodes == nodes)
    requires History.Remembers(d, nodes, w.memory) && Key(Deployment, evt.name) !in w.store.objects
    requires !(evt.autoscaling.Some? && evt.autoscaling.value.enabled)
    ensures var (w', err) := Upsert(env, d, evt, w);
            var key := Key(Deployment, evt.name);
            err.None? ==>
              && key in w'.store.objects
              && var c := w'.store.objects[key].content;
              && c.Workload? && c.replicas == ClampReplicas(evt.replicas)
              && RunsImage(cfg, evt, c.template) && RunsThere(cfg, evt, NodesPick(cfg, nodes, evt), c.template)
  {
    Aftermath.ClientlessUpsertDeploys(env, d, nodes, evt, w);
    PinnedRuns(cfg, evt, NodesPick(cfg, nodes, evt));
    assert History.PickIn(d, nodes, evt) == NodesPick(cfg, nodes, evt);
  }
}

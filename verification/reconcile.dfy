/** The reconcile protocol: one change event becomes a fixed list of steps on the
  * cluster, cut short by the first failure that matters.
  * applyUpsert, applyDelete and reportFailure of internal/controller/reconciler.go,
  * with the create-or-update steps they call. */
module Reconcile {
  import opened Prelude
  import opened Errors
  import opened Events
  import opened Objects
  import opened Cluster
  import opened Optimistic
  import opened EngineReady

  type Labels = map<string, string>

  /** The node label keys one role's pods are pinned by: vendor and card model. */
  datatype Pick = Pick(vendor: string, card: string)

  /** The controller's configuration, and what it wants the cluster to hold. The
    * steps below do not depend on what is wanted, so neither do their properties. */
  datatype Setup = Setup(
    dynamic: bool,
    gang: bool,
    aibrix: bool,
    attempts: nat,
    watch: Watch,
    configured: string,
    vendorKey: seq<Labels> -> string,
    cardKey: (seq<Labels>, string) -> string,
    roles: ChangeEvent -> nat,
    storm: (ChangeEvent, seq<Pick>) -> Content,
    pin: ChangeEvent -> (Content -> Content),
    workload: (ChangeEvent, Pick) -> Content,
    workloadPatch: (ChangeEvent, Pick) -> (Content -> Content),
    group: ChangeEvent -> Content,
    service: ChangeEvent -> Content,
    servicePatch: ChangeEvent -> (Content -> Content),
    scaler: ChangeEvent -> Content,
    claimKey: ChangeEvent -> Key,
    claim: ChangeEvent -> Content,
    routeKey: ChangeEvent -> Key,
    route: ChangeEvent -> Content,
    grantKey: Key,
    grant: Content,
    weightsKey: Key,
    weights: Content)

  function DeploymentKey(evt: ChangeEvent): Key { Key(Deployment, evt.name) }
  function StormKey(evt: ChangeEvent): Key { Key(StormService, evt.name) }
  function GroupKey(evt: ChangeEvent): Key { Key(PodGroup, evt.name) }
  function ServiceKey(evt: ChangeEvent): Key { Key(Service, evt.name + "-svc") }
  function HPAKey(evt: ChangeEvent): Key { Key(Autoscaler, "hpa-" + evt.name) }
  function ScalerKey(evt: ChangeEvent): Key { Key(PodAutoscaler, "hpa-" + evt.name) }

  /** The shared and best-effort objects are of kinds of their own. */
  ghost predicate ProperKeys(d: Setup) {
    && d.attempts >= 1
    && d.grantKey.kind == ReferenceGrant && d.weightsKey.kind == WeightsClaim
    && (forall evt :: d.claimKey(evt).kind == ModelClaim)
    && (forall evt :: d.routeKey(evt).kind == HTTPRoute)
    && (forall n :: KeepsTime(d.watch.pass(n), d.watch.wait(n), n))
  }

  // ------------------------------------------------------------- label lookups

  /** acceleratorLabelKeyFor: looked up once; a failed listing is not remembered. */
  function VendorKey(env: Env, d: Setup, w: World): (World, string) {
    if w.memory.accelerator != "" then (w, w.memory.accelerator)
    else
      var turn, w1 := env(|w.log|), Note(env, w, NodesListed);
      if turn.fault then (w1, d.configured)
      else
        var key := d.vendorKey(turn.nodes);
        (w1.(memory := w1.memory.(accelerator := key)), key)
  }

  /** cardTypeLabelKeyFor. */
  function CardKey(env: Env, d: Setup, w: World, cardType: string): (World, string) {
    if cardType == "" then (w, "")
    else if cardType in w.memory.cards then (w, w.memory.cards[cardType])
    else
      var turn, w1 := env(|w.log|), Note(env, w, NodesListed);
      if turn.fault then (w1, "")
      else
        var key := d.cardKey(turn.nodes, cardType);
        (w1.(memory := w1.memory.(cards := w1.memory.cards[cardType := key])), key)
  }

  /** Every answer of the nodes is asked for once: later look-ups repeat it without a
    * call. A listing that fails is not remembered, and the configured key, or no card
    * key, is used meanwhile. */
  lemma LookedUpOnce(env: Env, d: Setup, w: World, card: string)
    ensures var (w1, key) := VendorKey(env, d, w);
            && (w.memory.accelerator == "" && env(|w.log|).fault ==> key == d.configured && w1.memory == w.memory)
            && (w.memory.accelerator == "" && !env(|w.log|).fault ==>
                  key == d.vendorKey(env(|w.log|).nodes) && w1.memory.accelerator == key)
            && (w1.memory.accelerator != "" ==> VendorKey(env, d, w1) == (w1, key))
            && (w.memory.accelerator == "" ==> |w1.log| == |w.log| + 1 && w1.log[|w.log|].what == NodesListed)
    ensures card != "" ==>
              var (w1, key) := CardKey(env, d, w, card);
              && (card !in w.memory.cards && env(|w.log|).fault ==> key == "" && w1.memory == w.memory)
              && (card !in w.memory.cards && !env(|w.log|).fault ==>
                    key == d.cardKey(env(|w.log|).nodes, card) && card in w1.memory.cards)
              && (card in w1.memory.cards ==> CardKey(env, d, w1, card) == (w1, key))
              && (card !in w.memory.cards ==> |w1.log| == |w.log| + 1 && w1.log[|w.log|].what == NodesListed)
    ensures CardKey(env, d, w, "") == (w, "")
  {
  }

  function PickFor(env: Env, d: Setup, w: World, evt: ChangeEvent): (World, Pick) {
    var (w1, vendor) := VendorKey(env, d, w);
    var (w2, card) := CardKey(env, d, w1, evt.acceleratorType);
    (w2, Pick(vendor, card))
  }

  function Picks(env: Env, d: Setup, w: World, evt: ChangeEvent, n: nat): (World, seq<Pick>) {
    if n == 0 then (w, [])
    else
      var (w1, front) := Picks(env, d, w, evt, n - 1);
      var (w2, last) := PickFor(env, d, w1, evt);
      (w2, front + [last])
  }

  // -------------------------------------------------------------------- steps

  datatype Action =
    | Say(status: Status)
    | EnsureWeights
    | WriteStorm | WriteGroup | WriteDeployment | WriteService | WriteRoute | WriteClaim | WriteScaler
    | DropDeployment | DropService | DropHPA | DropStorm | DropClaim | DropRoute | DropScaler | DropGroup
    | PinStorm | PinDeployment
    | AwaitEngine

  /** Deleting what is not there is no error. */
  function Drop(env: Env, w: World, key: Key): (World, Option<Error>) {
    var (w1, reply) := Call(env, w, Delete(key));
    (w1, if reply == Refused(NotFound) then None else AsError(reply))
  }

  /** createOrUpdateService and createOrUpdateDeployment: patch what exists. */
  function CreateOrPatch(
    env: Env, w: World, key: Key, content: Content, change: Content -> Content): (World, Option<Error>)
  {
    var (w1, made) := Call(env, w, Create(key, content));
    if made != Refused(AlreadyExists) then (w1, AsError(made))
    else
      var (w2, patched) := Call(env, w1, Patch(key, change));
      (w2, AsError(patched))
  }

  /** ensureWeightsPVC: an existing claim is left as it is. */
  function Ensure(env: Env, w: World, key: Key, content: Content): (World, Option<Error>) {
    var (w1, got) := Call(env, w, Get(key));
    if got != Refused(NotFound) then (w1, AsError(got))
    else
      var (w2, made) := Call(env, w1, Create(key, content));
      (w2, if made == Refused(AlreadyExists) then None else AsError(made))
  }

  function ApplyStorm(env: Env, d: Setup, w: World, evt: ChangeEvent): (World, Option<Error>)
    requires d.attempts >= 1
  {
    var (w1, picks) := Picks(env, d, w, evt, d.roles(evt));
    Apply(env, w1, StormKey(evt), d.storm(evt, picks), d.attempts, false)
  }

  function ApplyWorkload(env: Env, d: Setup, w: World, evt: ChangeEvent): (World, Option<Error>) {
    var (w1, pick) := PickFor(env, d, w, evt);
    CreateOrPatch(env, w1, DeploymentKey(evt), d.workload(evt, pick), d.workloadPatch(evt, pick))
  }

  /** applyModelRoute: the grant, then the route. */
  function ApplyRoute(env: Env, d: Setup, w: World, evt: ChangeEvent): World {
    if !d.dynamic then w
    else
      var (w1, granted) := ApplyOnce(env, w, d.grantKey, d.grant);
      if granted.Some? then w1 else ApplyOnce(env, w1, d.routeKey(evt), d.route(evt)).0
  }

  const NO_CLIENT: Error := Text("dynamic client unavailable")

  /** applyAIBrixAutoscaler. */
  function ApplyScaler(env: Env, d: Setup, w: World, evt: ChangeEvent): (World, Option<Error>)
    requires d.attempts >= 1
  {
    if !d.dynamic then (w, Some(NO_CLIENT)) else Apply(env, w, ScalerKey(evt), d.scaler(evt), d.attempts, true)
  }

  /** pinStormServiceReplicas: a missing storm is no error; pinDeploymentReplicas: a
    * missing Deployment is. */
  function Pin(env: Env, d: Setup, w: World, evt: ChangeEvent, key: Key, mayMiss: bool): (World, Option<Error>) {
    var (w1, reply) := Call(env, w, Patch(key, d.pin(evt)));
    (w1, if mayMiss && reply == Refused(NotFound) then None else AsError(reply))
  }

  /** What one step does, and the error that ends the event, if any. */
  ghost function Do(env: Env, d: Setup, evt: ChangeEvent, a: Action, w: World): (World, Option<Error>)
    requires ProperKeys(d)
  {
    match a
    case Say(status) => (Publish(env, w, status).0, None)
    case EnsureWeights => Ensure(env, w, d.weightsKey, d.weights)
    case WriteStorm => ApplyStorm(env, d, w, evt)
    case WriteGroup => ApplyOnce(env, w, GroupKey(evt), d.group(evt))
    case WriteDeployment => ApplyWorkload(env, d, w, evt)
    case WriteService => CreateOrPatch(env, w, ServiceKey(evt), d.service(evt), d.servicePatch(evt))
    case WriteRoute => (ApplyRoute(env, d, w, evt), None)
    case WriteClaim => (if d.dynamic then ApplyOnce(env, w, d.claimKey(evt), d.claim(evt)).0 else w, None)
    case WriteScaler => ApplyScaler(env, d, w, evt)
    case DropDeployment => Drop(env, w, DeploymentKey(evt))
    case DropService => Drop(env, w, ServiceKey(evt))
    case DropHPA => Drop(env, w, HPAKey(evt))
    case DropStorm => if !d.dynamic then (w, None) else Drop(env, w, StormKey(evt))
    case DropClaim => (if d.dynamic then Drop(env, w, d.claimKey(evt)).0 else w, None)
    case DropRoute => (if d.dynamic then Drop(env, w, d.routeKey(evt)).0 else w, None)
    case DropScaler => (if d.dynamic then Drop(env, w, ScalerKey(evt)).0 else w, None)
    case DropGroup => (if d.dynamic then Drop(env, w, GroupKey(evt)).0 else w, None)
    case PinStorm => Pin(env, d, w, evt, StormKey(evt), true)
    case PinDeployment => Pin(env, d, w, evt, DeploymentKey(evt), false)
    case AwaitEngine => Await(d.watch, w)
  }

  datatype Halt = Completed | Stopped(at: Action, err: Error)

  ghost function Run(env: Env, d: Setup, evt: ChangeEvent, plan: seq<Action>, w: World): (World, Halt)
    requires ProperKeys(d)
  {
    if plan == [] then (w, Completed)
    else
      var (w1, err) := Do(env, d, evt, plan[0], w);
      if err.Some? then (w1, Stopped(plan[0], err.value)) else Run(env, d, evt, plan[1..], w1)
  }

  // -------------------------------------------------------------------- plans

  function ServePlan(d: Setup): seq<Action> {
    if !d.dynamic then [WriteDeployment]
    else if d.gang then [WriteStorm, WriteGroup, DropDeployment]
    else [WriteStorm, DropDeployment]
  }

  function ExposePlan(d: Setup): seq<Action> {
    if d.aibrix then [WriteService, WriteRoute, WriteClaim] else [WriteService, WriteRoute]
  }

  predicate Scales(evt: ChangeEvent) { evt.autoscaling.Some? && evt.autoscaling.value.enabled }

  function ScalePlan(d: Setup, evt: ChangeEvent): seq<Action> {
    if Scales(evt) then [DropHPA, WriteScaler]
    else [DropHPA, DropScaler, if d.dynamic then PinStorm else PinDeployment]
  }

  /** Everything an upsert writes. */
  function WritePlan(d: Setup, evt: ChangeEvent): seq<Action> {
    [EnsureWeights] + ServePlan(d) + ExposePlan(d) + ScalePlan(d, evt)
  }

  function UpsertPlan(d: Setup, evt: ChangeEvent): seq<Action> {
    [Say(Queued)] + WritePlan(d, evt) + [AwaitEngine, Say(Running)]
  }

  const TEARDOWN: seq<Action> :=
    [DropDeployment, DropService, DropHPA, DropStorm, DropClaim, DropRoute, DropScaler, DropGroup]

  // ------------------------------------------------------------------- events

  /** reportFailure: permanent once the platform knows, retryable until then. */
  function ReportFailure(env: Env, w: World, cause: Error): (World, Option<Error>) {
    var (w1, err) := Publish(env, w, Failed);
    (w1, if err.Some? then Some(Wrapped(err.value)) else Permanent(Some(Wrapped(cause))))
  }

  /** A failed autoscaler write first drops the stale autoscaler. */
  ghost function Conclude(env: Env, d: Setup, evt: ChangeEvent, w: World, halt: Halt): (World, Option<Error>)
    requires ProperKeys(d)
  {
    match halt
    case Completed => (w, None)
    case Stopped(at, err) =>
      var w1 := if at == WriteScaler then Do(env, d, evt, DropScaler, w).0 else w;
      ReportFailure(env, w1, err)
  }

  /** applyUpsert. */
  ghost function Upsert(env: Env, d: Setup, evt: ChangeEvent, w: World): (World, Option<Error>)
    requires ProperKeys(d)
  {
    var (w1, halt) := Run(env, d, evt, UpsertPlan(d, evt), w);
    Conclude(env, d, evt, w1, halt)
  }

  /** applyDelete. */
  ghost function Teardown(env: Env, d: Setup, evt: ChangeEvent, w: World): (World, Option<Error>)
    requires ProperKeys(d)
  {
    var (w1, halt) := Run(env, d, evt, TEARDOWN, w);
    (w1, if halt.Completed? then None else Some(Wrapped(halt.err)))
  }

  datatype Message = Malformed | Change(evt: ChangeEvent)

  datatype Task = Invalid | Undeploy | Deploy

  /** What a message asks for. */
  function TaskOf(msg: Message): Task {
    if msg.Malformed? || msg.evt.serviceId == "" || msg.evt.name == "" then Invalid
    else if msg.evt.eventType == "delete" then Undeploy
    else if msg.evt.eventType in {"upsert", "update_version", "rollback"} then Deploy
    else Invalid
  }

  /** ApplyInferServiceChange. */
  ghost function Handle(env: Env, d: Setup, msg: Message, w: World): (World, Option<Error>)
    requires ProperKeys(d)
  {
    match TaskOf(msg)
    case Invalid => (w, Permanent(Some(Text("invalid change event"))))
    case Undeploy => Teardown(env, d, msg.evt, w)
    case Deploy => Upsert(env, d, msg.evt, w)
  }

  /** Any messages in any order, redeliveries included. */
  ghost function HandleAll(env: Env, d: Setup, msgs: seq<Message>, w: World): World
    requires ProperKeys(d)
  {
    if msgs == [] then w
    else
      var before := HandleAll(env, d, msgs[..|msgs| - 1], w);
      Handle(env, d, msgs[|msgs| - 1], before).0
  }
}

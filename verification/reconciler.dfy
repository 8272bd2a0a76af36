/** The controller's own methods, step by step on the cluster, and proof that they do
  * what the protocol says. internal/controller/reconciler.go and its neighbours. */
module Reconciler {
  import opened Prelude
  import opened Errors
  import opened Events
  import opened Objects
  import opened Cluster
  import opened Optimistic
  import opened EngineReady
  import opened Reconcile
  import opened Steps
  import opened Desired

  /** The setup says what the configuration's builders build. */
  ghost predicate Realises(cfg: Config, d: Setup) {
    && d.dynamic == cfg.dynamic && d.gang == Ganged(cfg) && d.aibrix == cfg.aibrix
    && d.configured == ConfiguredLabel(cfg)
    && (forall nodes {:trigger VendorLabel(d.configured, nodes)} ::
      d.vendorKey(nodes) == VendorLabel(d.configured, nodes))
    && (forall nodes, t {:trigger CardLabel(CARD_LABELS, nodes, t)} ::
      d.cardKey(nodes, t) == CardLabel(CARD_LABELS, nodes, t))
    && (forall evt {:trigger d.roles(evt)} :: d.roles(evt) == |Topology.StormRoles(evt)|)
    && (forall evt, picks {:trigger StormOf(cfg, evt, picks)} :: d.storm(evt, picks) == StormOf(cfg, evt, picks))
    && (forall evt, pick {:trigger WorkloadOf(cfg, evt, pick)} :: d.workload(evt, pick) == WorkloadOf(cfg, evt, pick))
  }

  /** ... and the watch is the controller's own. */
  ghost predicate Drives(env: Env, cfg: Config, d: Setup) {
    && ProperKeys(d) && Realises(cfg, d)
    && (forall evt {:trigger ServicePatch(evt)} :: d.servicePatch(evt) == ServicePatch(evt))
    && (forall evt {:trigger ServiceOf(evt)} :: d.service(evt) == ServiceOf(evt))
    && (forall evt {:trigger PinPatch(evt)} :: d.pin(evt) == PinPatch(evt))
    && (forall evt, pick {:trigger d.workloadPatch(evt, pick)} ::
      d.workloadPatch(evt, pick) == WorkloadPatch(WorkloadOf(cfg, evt, pick)))
    && (forall evt {:trigger GroupOf(cfg, evt)} :: d.group(evt) == GroupOf(cfg, evt))
    && (forall evt {:trigger ScalerOf(evt)} :: d.scaler(evt) == ScalerOf(evt))
    && (forall evt {:trigger ClaimOf(cfg, evt)} :: d.claim(evt) == ClaimOf(cfg, evt))
    && (forall evt {:trigger ClaimKey(cfg, evt)} :: d.claimKey(evt) == ClaimKey(cfg, evt))
    && (forall evt {:trigger RouteOf(cfg, evt)} :: d.route(evt) == RouteOf(cfg, evt))
    && (forall evt {:trigger RouteKey(cfg, evt)} :: d.routeKey(evt) == RouteKey(cfg, evt))
    && d.grantKey == GrantKey(cfg) && d.grant == GrantOf(cfg)
    && d.weightsKey == WeightsKey(cfg) && d.weights == Weights(cfg.storageClass)
    && (forall n: nat {:trigger d.watch.pass(n)} :: Shows(env, n, d.watch.pass(n), d.watch.wait(n)))
  }

  lemma ConfiguredRealises(cfg: Config, env: Env)
    ensures Realises(cfg, SetupOf(cfg, env))
  {
  }

  lemma ConfiguredShows(cfg: Config, env: Env, n: nat)
    ensures var watch := SetupOf(cfg, env).watch; Shows(env, n, watch.pass(n), watch.wait(n))
  {
    WatcherShows(env, n);
  }

  lemma ConfiguredDrives(cfg: Config, env: Env)
    ensures Drives(env, cfg, SetupOf(cfg, env))
  {
    SetupIsProper(cfg, env);
    ConfiguredRealises(cfg, env);
    forall n: nat ensures var watch := SetupOf(cfg, env).watch; Shows(env, n, watch.pass(n), watch.wait(n)) {
      ConfiguredShows(cfg, env, n);
    }
  }

  // ------------------------------------------------------------ label caches

  method LookUpVendor(c: Controller, cfg: Config, ghost d: Setup) returns (key: string)
    requires Realises(cfg, d)
    modifies c
    ensures (c.View(), key) == VendorKey(c.env, d, old(c.View()))
  {
    if c.accelerator != "" { return c.accelerator; }
    var turn := c.env(|c.log|);
    c.Observe(NodesListed);
    if turn.fault { return ConfiguredLabel(cfg); }
    key := FindVendorLabel(ConfiguredLabel(cfg), turn.nodes);
    c.accelerator := key;
  }

  method LookUpCard(c: Controller, cfg: Config, cardType: string, ghost d: Setup) returns (key: string)
    requires Realises(cfg, d)
    modifies c
    ensures (c.View(), key) == CardKey(c.env, d, old(c.View()), cardType)
  {
    if cardType == "" { return ""; }
    if cardType in c.cards { return c.cards[cardType]; }
    var turn := c.env(|c.log|);
    c.Observe(NodesListed);
    if turn.fault { return ""; }
    key := FindCardLabel(CARD_LABELS, turn.nodes, cardType);
    c.cards := c.cards[cardType := key];
  }

  method PickRole(c: Controller, cfg: Config, evt: ChangeEvent, ghost d: Setup) returns (pick: Pick)
    requires Realises(cfg, d)
    modifies c
    ensures (c.View(), pick) == PickFor(c.env, d, old(c.View()), evt)
  {
    var vendor := LookUpVendor(c, cfg, d);
    var card := LookUpCard(c, cfg, evt.acceleratorType, d);
    pick := Pick(vendor, card);
  }

  method PickRoles(c: Controller, cfg: Config, evt: ChangeEvent, n: nat, ghost d: Setup) returns (picks: seq<Pick>)
    requires Realises(cfg, d)
    modifies c
    ensures (c.View(), picks) == Picks(c.env, d, old(c.View()), evt, n)
  {
    picks := [];
    for i := 0 to n
      invariant (c.View(), picks) == Picks(c.env, d, old(c.View()), evt, i)
    {
      var pick := PickRole(c, cfg, evt, d);
      picks := picks + [pick];
    }
  }

  // -------------------------------------------------------------- the writes

  /** A delete that takes absence for success. */
  method DeleteObject(c: Controller, key: Key) returns (err: Option<Error>)
    modifies c`objects, c`revision, c`now, c`log
    ensures (c.View(), err) == Drop(c.env, old(c.View()), key)
  {
    var reply := c.Send(Delete(key));
    err := if reply == Refused(NotFound) then None else AsError(reply);
  }

  method CreateOrUpdate(c: Controller, key: Key, content: Content, change: Content -> Content)
    returns (err: Option<Error>)
    modifies c`objects, c`revision, c`now, c`log
    ensures (c.View(), err) == CreateOrPatch(c.env, old(c.View()), key, content, change)
  {
    var made := c.Send(Create(key, content));
    if made == Fine { return None; }
    if made != Refused(AlreadyExists) { return AsError(made); }
    var patched := c.Send(Patch(key, change));
    err := AsError(patched);
  }

  /** ensureWeightsPVC. */
  method EnsureWeightsPVC(c: Controller, key: Key, content: Content) returns (err: Option<Error>)
    modifies c`objects, c`revision, c`now, c`log
    ensures (c.View(), err) == Ensure(c.env, old(c.View()), key, content)
  {
    var got := c.Send(Get(key));
    if got != Refused(NotFound) { return AsError(got); }
    var made := c.Send(Create(key, content));
    err := if made == Refused(AlreadyExists) then None else AsError(made);
  }

  method WriteStormService(c: Controller, cfg: Config, evt: ChangeEvent, attempts: nat, ghost d: Setup)
    returns (err: Option<Error>)
    requires Realises(cfg, d) && attempts == d.attempts >= 1
    modifies c
    ensures (c.View(), err) == ApplyStorm(c.env, d, old(c.View()), evt)
  {
    var picks := PickRoles(c, cfg, evt, |Topology.StormRoles(evt)|, d);
    var storm := BuildStorm(cfg, evt, picks);
    err := ApplyWithRetry(c, StormKey(evt), storm, attempts, false);
  }

  method WriteDeploymentObject(c: Controller, cfg: Config, evt: ChangeEvent, ghost d: Setup)
    returns (err: Option<Error>)
    requires Drives(c.env, cfg, d)
    modifies c
    ensures (c.View(), err) == ApplyWorkload(c.env, d, old(c.View()), evt)
  {
    var pick := PickRole(c, cfg, evt, d);
    var workload := BuildDeployment(cfg, evt, pick);
    err := CreateOrUpdate(c, DeploymentKey(evt), workload, WorkloadPatch(workload));
  }

  /** applyModelRoute; its failures are only logged. */
  method WriteModelRoute(c: Controller, cfg: Config, evt: ChangeEvent, ghost d: Setup)
    requires Drives(c.env, cfg, d)
    modifies c
    ensures c.View() == ApplyRoute(c.env, d, old(c.View()), evt)
  {
    if !cfg.dynamic { return; }
    var granted := ApplyObject(c, GrantKey(cfg), GrantOf(cfg));
    if granted.Some? { return; }
    var ignored := ApplyObject(c, RouteKey(cfg, evt), RouteOf(cfg, evt));
  }

  /** Deleting what only an AIBrix cluster has; failures are only logged. */
  method DeleteQuietly(c: Controller, cfg: Config, key: Key)
    modifies c`objects, c`revision, c`now, c`log
    ensures c.View() == if cfg.dynamic then Drop(c.env, old(c.View()), key).0 else old(c.View())
  {
    if cfg.dynamic { var ignored := DeleteObject(c, key); }
  }

  /** applyAIBrixAutoscaler. */
  method WriteAutoscaler(c: Controller, cfg: Config, evt: ChangeEvent, attempts: nat, ghost d: Setup)
    returns (err: Option<Error>)
    requires Drives(c.env, cfg, d) && attempts == d.attempts
    modifies c
    ensures (c.View(), err) == ApplyScaler(c.env, d, old(c.View()), evt)
  {
    if !cfg.dynamic { return Some(NO_CLIENT); }
    err := ApplyWithRetry(c, ScalerKey(evt), ScalerOf(evt), attempts, true);
  }

  /** pinStormServiceReplicas and pinDeploymentReplicas. */
  method PinReplicas(c: Controller, cfg: Config, evt: ChangeEvent, key: Key, mayMiss: bool, ghost d: Setup)
    returns (err: Option<Error>)
    requires Drives(c.env, cfg, d)
    modifies c
    ensures (c.View(), err) == Pin(c.env, d, old(c.View()), evt, key, mayMiss)
  {
    var reply := c.Send(Patch(key, PinPatch(evt)));
    err := if mayMiss && reply == Refused(NotFound) then None else AsError(reply);
  }

  // --------------------------------------------------------------- the phases

  /** What a phase does: it carries a plan out, or stops in it. */
  ghost predicate Carries(env: Env, d: Setup, evt: ChangeEvent, plan: seq<Action>, w: World, w': World, halt: Halt)
    requires ProperKeys(d)
  {
    Run(env, d, evt, plan, w) == (w', halt)
  }

  lemma OneCarries(env: Env, d: Setup, evt: ChangeEvent, a: Action, w: World, w': World, err: Option<Error>)
    requires ProperKeys(d) && Do(env, d, evt, a, w) == (w', err)
    ensures Carries(env, d, evt, [a], w, w', if err.Some? then Stopped(a, err.value) else Completed)
  {
    RunOne(env, d, evt, a, w);
  }

  lemma CarriesOn(
    env: Env, d: Setup, evt: ChangeEvent, p: seq<Action>, q: seq<Action>, w: World, mid: World, w': World, halt: Halt)
    requires ProperKeys(d) && Carries(env, d, evt, p, w, mid, Completed) && Carries(env, d, evt, q, mid, w', halt)
    ensures Carries(env, d, evt, p + q, w, w', halt)
  {
    RunThrough(env, d, evt, p, q, w);
  }

  lemma CarriesNoFurther(
    env: Env, d: Setup, evt: ChangeEvent, p: seq<Action>, q: seq<Action>, w: World, mid: World, halt: Halt)
    requires ProperKeys(d) && Carries(env, d, evt, p, w, mid, halt) && halt.Stopped?
    ensures Carries(env, d, evt, p + q, w, mid, halt)
  {
    RunThrough(env, d, evt, p, q, w);
  }

  /** One deletion. */
  method PerformDeletion(c: Controller, cfg: Config, evt: ChangeEvent, a: Action, ghost d: Setup)
    returns (err: Option<Error>)
    requires Drives(c.env, cfg, d) && Deletion(a)
    modifies c
    ensures (c.View(), err) == Do(c.env, d, evt, a, old(c.View()))
  {
    err := None;
    match a
    case DropDeployment => err := DeleteObject(c, DeploymentKey(evt));
    case DropService => err := DeleteObject(c, ServiceKey(evt));
    case DropHPA => err := DeleteObject(c, HPAKey(evt));
    case DropStorm => if cfg.dynamic { err := DeleteObject(c, StormKey(evt)); }
    case DropClaim => DeleteQuietly(c, cfg, ClaimKey(cfg, evt));
    case DropRoute => DeleteQuietly(c, cfg, RouteKey(cfg, evt));
    case DropScaler => DeleteQuietly(c, cfg, ScalerKey(evt));
    case DropGroup => DeleteQuietly(c, cfg, GroupKey(evt));
    case _ =>
  }

  predicate Writing(a: Action) {
    match a
    case EnsureWeights | WriteStorm | WriteGroup | WriteDeployment => true
    case WriteService | WriteRoute | WriteClaim | WriteScaler => true
    case _ => false
  }

  /** One object written. */
  method PerformWrite(c: Controller, cfg: Config, evt: ChangeEvent, a: Action, attempts: nat, ghost d: Setup)
    returns (err: Option<Error>)
    requires Drives(c.env, cfg, d) && attempts == d.attempts && Writing(a)
    modifies c
    ensures (c.View(), err) == Do(c.env, d, evt, a, old(c.View()))
  {
    err := None;
    match a
    case EnsureWeights => err := EnsureWeightsPVC(c, WeightsKey(cfg), Weights(cfg.storageClass));
    case WriteStorm => err := WriteStormService(c, cfg, evt, attempts, d);
    case WriteGroup => err := ApplyObject(c, GroupKey(evt), GroupOf(cfg, evt));
    case WriteDeployment => err := WriteDeploymentObject(c, cfg, evt, d);
    case WriteService => err := CreateOrUpdate(c, ServiceKey(evt), ServiceOf(evt), ServicePatch(evt));
    case WriteRoute => WriteModelRoute(c, cfg, evt, d);
    case WriteClaim => if cfg.dynamic { var ignored := ApplyObject(c, ClaimKey(cfg, evt), ClaimOf(cfg, evt)); }
    case WriteScaler => err := WriteAutoscaler(c, cfg, evt, attempts, d);
    case _ =>
  }

  /** What neither writes nor deletes a whole object. */
  method PerformOther(c: Controller, cfg: Config, evt: ChangeEvent, a: Action, ghost d: Setup)
    returns (err: Option<Error>)
    requires Drives(c.env, cfg, d) && !Writing(a) && !Deletion(a)
    modifies c
    ensures (c.View(), err) == Do(c.env, d, evt, a, old(c.View()))
  {
    err := None;
    match a
    case Say(status) => var ignored := c.Announce(status);
    case PinStorm => err := PinReplicas(c, cfg, evt, StormKey(evt), true, d);
    case PinDeployment => err := PinReplicas(c, cfg, evt, DeploymentKey(evt), false, d);
    case AwaitEngine => err := AwaitEngineReady(c, d.watch);
    case _ =>
  }

  /** One step, in the words of the protocol. */
  method Perform(c: Controller, cfg: Config, evt: ChangeEvent, a: Action, attempts: nat, ghost d: Setup)
    returns (err: Option<Error>)
    requires Drives(c.env, cfg, d) && attempts == d.attempts
    modifies c
    ensures (c.View(), err) == Do(c.env, d, evt, a, old(c.View()))
  {
    if Writing(a) {
      err := PerformWrite(c, cfg, evt, a, attempts, d);
    } else if Deletion(a) {
      err := PerformDeletion(c, cfg, evt, a, d);
    } else {
      err := PerformOther(c, cfg, evt, a, d);
    }
  }

  /** The next step after those in `done`, unless one of them failed. */
  method Then(
    c: Controller, cfg: Config, evt: ChangeEvent, so: Halt, a: Action, attempts: nat, ghost d: Setup,
    ghost done: seq<Action>, ghost w0: World)
    returns (halt: Halt)
    requires Drives(c.env, cfg, d) && attempts == d.attempts && Carries(c.env, d, evt, done, w0, c.View(), so)
    modifies c
    ensures Carries(c.env, d, evt, done + [a], w0, c.View(), halt)
  {
    ghost var mid := c.View();
    if so.Stopped? {
      CarriesNoFurther(c.env, d, evt, done, [a], w0, mid, so);
      return so;
    }
    var err := Perform(c, cfg, evt, a, attempts, d);
    halt := if err.Some? then Stopped(a, err.value) else Completed;
    OneCarries(c.env, d, evt, a, mid, c.View(), err);
    CarriesOn(c.env, d, evt, done, [a], w0, mid, c.View(), halt);
  }

  lemma ServeInSteps(d: Setup, done: seq<Action>)
    ensures d.dynamic && d.gang ==> done + [WriteStorm] + [WriteGroup] + [DropDeployment] == done + ServePlan(d)
    ensures d.dynamic && !d.gang ==> done + [WriteStorm] + [DropDeployment] == done + ServePlan(d)
    ensures !d.dynamic ==> done + [WriteDeployment] == done + ServePlan(d)
  {
  }

  lemma ExposeInSteps(d: Setup, done: seq<Action>)
    ensures d.aibrix ==> done + [WriteService] + [WriteRoute] + [WriteClaim] == done + ExposePlan(d)
    ensures !d.aibrix ==> done + [WriteService] + [WriteRoute] == done + ExposePlan(d)
  {
  }

  function PinOf(dynamic: bool): Action { if dynamic then PinStorm else PinDeployment }

  lemma ScaleInSteps(d: Setup, evt: ChangeEvent, done: seq<Action>)
    ensures Scales(evt) ==> done + [DropHPA] + [WriteScaler] == done + ScalePlan(d, evt)
    ensures !Scales(evt) ==> done + [DropHPA] + [DropScaler] + [PinOf(d.dynamic)] == done + ScalePlan(d, evt)
  {
  }

  /** The serving object, and away with the old one. */
  method WriteServing(
    c: Controller, cfg: Config, evt: ChangeEvent, so: Halt, attempts: nat, ghost d: Setup, ghost done: seq<Action>,
    ghost w0: World)
    returns (halt: Halt)
    requires Drives(c.env, cfg, d) && attempts == d.attempts && Carries(c.env, d, evt, done, w0, c.View(), so)
    modifies c
    ensures Carries(c.env, d, evt, done + ServePlan(d), w0, c.View(), halt)
  {
    halt := so;
    ghost var now := done;
    if cfg.dynamic {
      halt := Then(c, cfg, evt, halt, WriteStorm, attempts, d, now, w0);
      now := now + [WriteStorm];
      if Ganged(cfg) {
        halt := Then(c, cfg, evt, halt, WriteGroup, attempts, d, now, w0);
        now := now + [WriteGroup];
      }
      halt := Then(c, cfg, evt, halt, DropDeployment, attempts, d, now, w0);
      now := now + [DropDeployment];
    } else {
      halt := Then(c, cfg, evt, halt, WriteDeployment, attempts, d, now, w0);
      now := now + [WriteDeployment];
    }
    ServeInSteps(d, done);
  }

  /** The Service, and best-effort what routes to it. */
  method WriteExposure(
    c: Controller, cfg: Config, evt: ChangeEvent, so: Halt, attempts: nat, ghost d: Setup, ghost done: seq<Action>,
    ghost w0: World)
    returns (halt: Halt)
    requires Drives(c.env, cfg, d) && attempts == d.attempts && Carries(c.env, d, evt, done, w0, c.View(), so)
    modifies c
    ensures Carries(c.env, d, evt, done + ExposePlan(d), w0, c.View(), halt)
  {
    halt := Then(c, cfg, evt, so, WriteService, attempts, d, done, w0);
    ghost var now := done + [WriteService];
    halt := Then(c, cfg, evt, halt, WriteRoute, attempts, d, now, w0);
    now := now + [WriteRoute];
    if cfg.aibrix {
      halt := Then(c, cfg, evt, halt, WriteClaim, attempts, d, now, w0);
      now := now + [WriteClaim];
    }
    ExposeInSteps(d, done);
  }

  /** One autoscaler at most. */
  method WriteScaling(
    c: Controller, cfg: Config, evt: ChangeEvent, so: Halt, attempts: nat, ghost d: Setup, ghost done: seq<Action>,
    ghost w0: World)
    returns (halt: Halt)
    requires Drives(c.env, cfg, d) && attempts == d.attempts && Carries(c.env, d, evt, done, w0, c.View(), so)
    modifies c
    ensures Carries(c.env, d, evt, done + ScalePlan(d, evt), w0, c.View(), halt)
  {
    halt := Then(c, cfg, evt, so, DropHPA, attempts, d, done, w0);
    ghost var now := done + [DropHPA];
    if Scales(evt) {
      halt := Then(c, cfg, evt, halt, WriteScaler, attempts, d, now, w0);
      now := now + [WriteScaler];
    } else {
      halt := Then(c, cfg, evt, halt, DropScaler, attempts, d, now, w0);
      now := now + [DropScaler];
      var pin := PinOf(cfg.dynamic);
      halt := Then(c, cfg, evt, halt, pin, attempts, d, now, w0);
      now := now + [pin];
    }
    ScaleInSteps(d, evt, done);
  }

  /** reportFailure. */
  method Report(c: Controller, cause: Error) returns (err: Option<Error>)
    modifies c`objects, c`revision, c`now, c`log
    ensures (c.View(), err) == ReportFailure(c.env, old(c.View()), cause)
  {
    var failed := c.Announce(Failed);
    err := if failed.Some? then Some(Wrapped(failed.value)) else Permanent(Some(Wrapped(cause)));
  }

  method Abandon(c: Controller, cfg: Config, evt: ChangeEvent, halt: Halt, ghost d: Setup) returns (err: Option<Error>)
    requires Drives(c.env, cfg, d)
    modifies c
    ensures (c.View(), err) == Conclude(c.env, d, evt, old(c.View()), halt)
  {
    if halt.Completed? { return None; }
    if halt.at == WriteScaler { var ignored := PerformDeletion(c, cfg, evt, DropScaler, d); }
    err := Report(c, halt.err);
  }

  lemma NothingCarried(env: Env, d: Setup, evt: ChangeEvent, w: World)
    requires ProperKeys(d)
    ensures Carries(env, d, evt, [], w, w, Completed)
  {
  }

  lemma PlanInPhases(d: Setup, evt: ChangeEvent)
    ensures [] + [Say(Queued)] + [EnsureWeights] + ServePlan(d) + ExposePlan(d) + ScalePlan(d, evt) + [AwaitEngine]
        + [Say(Running)]
         == UpsertPlan(d, evt)
  {
  }

  method CarryUpsertOut(c: Controller, cfg: Config, evt: ChangeEvent, attempts: nat, ghost d: Setup)
    returns (halt: Halt)
    requires Drives(c.env, cfg, d) && attempts == d.attempts
    modifies c
    ensures Carries(c.env, d, evt, UpsertPlan(d, evt), old(c.View()), c.View(), halt)
  {
    ghost var w0 := c.View();
    ghost var now: seq<Action> := [];
    NothingCarried(c.env, d, evt, w0);
    halt := Then(c, cfg, evt, Completed, Say(Queued), attempts, d, now, w0);
    now := now + [Say(Queued)];
    halt := Then(c, cfg, evt, halt, EnsureWeights, attempts, d, now, w0);
    now := now + [EnsureWeights];
    halt := WriteServing(c, cfg, evt, halt, attempts, d, now, w0);
    now := now + ServePlan(d);
    halt := WriteExposure(c, cfg, evt, halt, attempts, d, now, w0);
    now := now + ExposePlan(d);
    halt := WriteScaling(c, cfg, evt, halt, attempts, d, now, w0);
    now := now + ScalePlan(d, evt);
    halt := Then(c, cfg, evt, halt, AwaitEngine, attempts, d, now, w0);
    now := now + [AwaitEngine];
    halt := Then(c, cfg, evt, halt, Say(Running), attempts, d, now, w0);
    PlanInPhases(d, evt);
  }

  /** applyUpsert. */
  method ApplyUpsert(c: Controller, cfg: Config, evt: ChangeEvent, attempts: nat, ghost d: Setup)
    returns (err: Option<Error>)
    requires Drives(c.env, cfg, d) && attempts == d.attempts
    modifies c
    ensures (c.View(), err) == Upsert(c.env, d, evt, old(c.View()))
  {
    var halt := CarryUpsertOut(c, cfg, evt, attempts, d);
    err := Abandon(c, cfg, evt, halt, d);
  }

  lemma OneMoreStep(plan: seq<Action>, i: nat)
    requires i < |plan|
    ensures plan[..i + 1] == plan[..i] + [plan[i]]
  {
  }

  lemma AllSteps(plan: seq<Action>)
    ensures plan[..|plan|] == plan
  {
  }

  /** One step after the other, until one fails. */
  method CarryOut(c: Controller, cfg: Config, evt: ChangeEvent, plan: seq<Action>, attempts: nat, ghost d: Setup)
    returns (halt: Halt)
    requires Drives(c.env, cfg, d) && attempts == d.attempts
    modifies c
    ensures Carries(c.env, d, evt, plan, old(c.View()), c.View(), halt)
  {
    ghost var w0 := c.View();
    NothingCarried(c.env, d, evt, w0);
    halt := Completed;
    for i := 0 to |plan|
      invariant Carries(c.env, d, evt, plan[..i], w0, c.View(), halt)
    {
      halt := Then(c, cfg, evt, halt, plan[i], attempts, d, plan[..i], w0);
      OneMoreStep(plan, i);
    }
    AllSteps(plan);
  }

  /** applyDelete: the first four deletions must succeed, the others may fail. */
  method ApplyDelete(c: Controller, cfg: Config, evt: ChangeEvent, attempts: nat, ghost d: Setup)
    returns (err: Option<Error>)
    requires Drives(c.env, cfg, d) && attempts == d.attempts
    modifies c
    ensures (c.View(), err) == Teardown(c.env, d, evt, old(c.View()))
  {
    var halt := CarryOut(c, cfg, evt, TEARDOWN, attempts, d);
    err := if halt.Completed? then None else Some(Wrapped(halt.err));
  }

  /** What a message asks for, if it is a change event that says. */
  method ReadTask(msg: Message) returns (task: Task)
    ensures task == TaskOf(msg)
  {
    if msg.Malformed? { return Invalid; }
    if msg.evt.serviceId == "" || msg.evt.name == "" { return Invalid; }
    match msg.evt.eventType
    case "delete" => return Undeploy;
    case "upsert" => return Deploy;
    case "update_version" => return Deploy;
    case "rollback" => return Deploy;
    case _ => return Invalid;
  }

  /** ApplyInferServiceChange. */
  method ApplyInferServiceChange(c: Controller, cfg: Config, msg: Message, attempts: nat, ghost d: Setup)
    returns (err: Option<Error>)
    requires Drives(c.env, cfg, d) && attempts == d.attempts
    modifies c
    ensures (c.View(), err) == Handle(c.env, d, msg, old(c.View()))
  {
    var task := ReadTask(msg);
    match task
    case Invalid => err := Permanent(Some(Text("invalid change event")));
    case Undeploy => err := ApplyDelete(c, cfg, msg.evt, attempts, d);
    case Deploy => err := ApplyUpsert(c, cfg, msg.evt, attempts, d);
  }
}

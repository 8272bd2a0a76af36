/** What an event leaves besides the objects of the service alone: the claim, the route
  * and its grant, and, without a dynamic client, the Deployment. */
module Aftermath {
  import opened Prelude
  import opened Errors
  import opened Events
  import opened Objects
  import opened Cluster
  import opened Optimistic
  import opened EngineReady
  import opened Reconcile
  import opened Steps
  import opened Trace
  import History

  /** No call fails, and nobody else writes the object. */
  ghost predicate Calm(env: Env, key: Key) {
    forall i {:trigger env(i)} :: !env(i).fault && !Mentions(env(i).others, key)
  }

  lemma CalmTurn(env: Env, w: World, key: Key)
    requires Calm(env, key)
    ensures !env(|w.log|).fault && Same(w.store, Begun(env, w), key)
  {
    MeddledKey(w.store, env(|w.log|).others, key);
  }

  lemma CalmStretch(env: Env, w: World, w': World, scope: Scope, key: Key)
    requires Calm(env, key) && Stretch(env, w, w', scope) && key !in scope.writes && key !in scope.drops
    ensures Same(w.store, w'.store, key)
  {
    forall i | |w.log| <= i < |w'.log| ensures !Mentions(env(i).others, key) && !Touches(w'.log[i], key) {
      assert Within(scope, w'.log[i].what);
    }
    StaysSame(env, w, w', key);
  }

  lemma CalmOnce(env: Env, w: World, key: Key, content: Content)
    requires Calm(env, key)
    ensures var (w', err) := ApplyOnce(env, w, key, content); err.None? && Stores(w'.store, key, content)
  {
    CalmTurn(env, w, key);
    CalmTurn(env, Call(env, w, Get(key)).0, key);
  }

  lemma CalmPatch(env: Env, w: World, key: Key, content: Content, change: Content -> Content)
    requires Calm(env, key)
    ensures Stores(CreateOrPatch(env, w, key, content, change).0.store, key,
                   if key in w.store.objects then change(w.store.objects[key].content) else content)
  {
    CalmTurn(env, w, key);
    CalmTurn(env, Call(env, w, Create(key, content)).0, key);
  }

  ghost predicate Spares(d: Setup, evt: ChangeEvent, a: Action, key: Key) {
    key !in ScopeOf(d, evt, a).writes && key !in ScopeOf(d, evt, a).drops
  }

  lemma SparesKeeps(env: Env, d: Setup, evt: ChangeEvent, a: Action, w: World, key: Key, want: Option<Content>)
    requires Proper(env, d) && Calm(env, key) && Spares(d, evt, a, key) && History.Holds(w.store, key, want)
    ensures History.Holds(Do(env, d, evt, a, w).0.store, key, want)
  {
    var w' := Do(env, d, evt, a, w).0;
    DoStretch(env, d, evt, a, w);
    CalmStretch(env, w, w', ScopeOf(d, evt, a), key);
    History.SameHolds(w.store, w'.store, key, want);
  }

  /** A completed plan leaves an object as the one step about it does. */
  lemma {:induction false} PlanLeaves(
    env: Env, d: Setup, evt: ChangeEvent, plan: seq<Action>, w: World, a: Action, key: Key, want: Option<Content>)
    requires Proper(env, d) && Calm(env, key)
    requires forall b :: b in plan && b != a ==> Spares(d, evt, b, key)
    requires forall v :: History.Holds(Do(env, d, evt, a, v).0.store, key, want)
    requires a in plan || History.Holds(w.store, key, want)
    ensures var (w', halt) := Run(env, d, evt, plan, w); halt.Completed? ==> History.Holds(w'.store, key, want)
  {
    if plan == [] {
    } else {
      var (w1, err) := Do(env, d, evt, plan[0], w);
      if plan[0] != a && History.Holds(w.store, key, want) { SparesKeeps(env, d, evt, plan[0], w, key, want); }
      if err.None? { PlanLeaves(env, d, evt, plan[1..], w1, a, key, want); }
    }
  }

  // ------------------------------------------------------ best-effort objects

  lemma ApplyRouteWrites(env: Env, d: Setup, evt: ChangeEvent, w: World, w1: World)
    requires d.dynamic && d.grantKey != d.routeKey(evt) && Calm(env, d.grantKey) && Calm(env, d.routeKey(evt))
    requires ApplyOnce(env, w, d.grantKey, d.grant) == (w1, None) && Stores(w1.store, d.grantKey, d.grant)
    ensures var w' := ApplyRoute(env, d, w, evt);
            Stores(w'.store, d.grantKey, d.grant) && Stores(w'.store, d.routeKey(evt), d.route(evt))
  {
    CalmOnce(env, w1, d.routeKey(evt), d.route(evt));
    ApplyOnceStretch(env, w1, d.routeKey(evt), d.route(evt));
    CalmStretch(env, w1, ApplyOnce(env, w1, d.routeKey(evt), d.route(evt)).0, Scope({d.routeKey(evt)}, {}, {}),
                d.grantKey);
  }

  /** Undisturbed, the step about the route writes it and its grant. */
  lemma RouteWrites(env: Env, d: Setup, evt: ChangeEvent, w: World)
    requires ProperKeys(d) && d.dynamic && Calm(env, d.grantKey) && Calm(env, d.routeKey(evt))
    ensures var w' := Do(env, d, evt, WriteRoute, w).0;
            Stores(w'.store, d.grantKey, d.grant) && Stores(w'.store, d.routeKey(evt), d.route(evt))
  {
    assert d.grantKey != d.routeKey(evt);
    CalmOnce(env, w, d.grantKey, d.grant);
    ApplyRouteWrites(env, d, evt, w, ApplyOnce(env, w, d.grantKey, d.grant).0);
  }

  lemma PlannedOrSaid(d: Setup, evt: ChangeEvent, b: Action)
    requires b in UpsertPlan(d, evt)
    ensures Upserts(b) || b.Say? || b == AwaitEngine
  {
    assert b in [Say(Queued)] || b in WritePlan(d, evt) || b in [AwaitEngine, Say(Running)];
    if b in WritePlan(d, evt) { PlannedActions(d, evt, b); }
  }

  /** The step that is about one of these objects. */
  function About(d: Setup, evt: ChangeEvent, key: Key): Option<Action> {
    match key.kind
    case ReferenceGrant | HTTPRoute => Some(WriteRoute)
    case ModelClaim => Some(WriteClaim)
    case _ => None
  }

  lemma OthersSpare(d: Setup, evt: ChangeEvent, b: Action, key: Key)
    requires ProperKeys(d) && (Upserts(b) || b.Say? || b == AwaitEngine)
    requires About(d, evt, key).Some? && About(d, evt, key) != Some(b)
    ensures Spares(d, evt, b, key)
  {
  }

  lemma UpsertLeaves(env: Env, d: Setup, evt: ChangeEvent, w: World, a: Action, key: Key, want: Content)
    requires Proper(env, d) && Calm(env, key) && a in UpsertPlan(d, evt) && About(d, evt, key) == Some(a)
    requires forall v :: Stores(Do(env, d, evt, a, v).0.store, key, want)
    ensures var (w', err) := Upsert(env, d, evt, w); err.None? ==> Stores(w'.store, key, want)
  {
    forall b | b in UpsertPlan(d, evt) && b != a ensures Spares(d, evt, b, key) {
      PlannedOrSaid(d, evt, b);
      OthersSpare(d, evt, b, key);
    }
    forall v ensures History.Holds(Do(env, d, evt, a, v).0.store, key, Some(want)) {
      assert Stores(Do(env, d, evt, a, v).0.store, key, want);
    }
    PlanLeaves(env, d, evt, UpsertPlan(d, evt), w, a, key, Some(want));
  }

  lemma ExposurePlanned(d: Setup, evt: ChangeEvent)
    ensures WriteRoute in UpsertPlan(d, evt) && (d.aibrix ==> WriteClaim in UpsertPlan(d, evt))
  {
    assert WriteRoute in ExposePlan(d) && (d.aibrix ==> WriteClaim in ExposePlan(d));
    assert forall a :: a in ExposePlan(d) ==> a in WritePlan(d, evt);
    assert forall a :: a in WritePlan(d, evt) ==> a in UpsertPlan(d, evt);
  }

  /** The objects whose failures an upsert only logs are written all the same, each as
    * wanted, when nothing fails and nobody else writes them. */
  lemma BestEffortIsWritten(env: Env, d: Setup, evt: ChangeEvent, w: World)
    requires Proper(env, d) && d.dynamic
    requires Calm(env, d.grantKey) && Calm(env, d.routeKey(evt)) && Calm(env, d.claimKey(evt))
    ensures var (w', err) := Upsert(env, d, evt, w);
            err.None? ==>
              && Stores(w'.store, d.grantKey, d.grant)
              && Stores(w'.store, d.routeKey(evt), d.route(evt))
              && (d.aibrix ==> Stores(w'.store, d.claimKey(evt), d.claim(evt)))
  {
    ExposurePlanned(d, evt);
    forall v
      ensures Stores(Do(env, d, evt, WriteRoute, v).0.store, d.grantKey, d.grant)
      ensures Stores(Do(env, d, evt, WriteRoute, v).0.store, d.routeKey(evt), d.route(evt))
    {
      RouteWrites(env, d, evt, v);
    }
    UpsertLeaves(env, d, evt, w, WriteRoute, d.grantKey, d.grant);
    UpsertLeaves(env, d, evt, w, WriteRoute, d.routeKey(evt), d.route(evt));
    if d.aibrix { ClaimIsWritten(env, d, evt, w); }
  }

  lemma ClaimWrites(env: Env, d: Setup, evt: ChangeEvent, w: World)
    requires ProperKeys(d) && d.dynamic && Calm(env, d.claimKey(evt))
    ensures Stores(Do(env, d, evt, WriteClaim, w).0.store, d.claimKey(evt), d.claim(evt))
  {
    CalmOnce(env, w, d.claimKey(evt), d.claim(evt));
  }

  lemma ClaimIsWritten(env: Env, d: Setup, evt: ChangeEvent, w: World)
    requires Proper(env, d) && d.dynamic && d.aibrix && Calm(env, d.claimKey(evt))
    ensures var (w', err) := Upsert(env, d, evt, w); err.None? ==> Stores(w'.store, d.claimKey(evt), d.claim(evt))
  {
    ExposurePlanned(d, evt);
    forall v ensures Stores(Do(env, d, evt, WriteClaim, v).0.store, d.claimKey(evt), d.claim(evt)) {
      ClaimWrites(env, d, evt, v);
    }
    UpsertLeaves(env, d, evt, w, WriteClaim, d.claimKey(evt), d.claim(evt));
  }

  lemma DropRemoves(env: Env, d: Setup, evt: ChangeEvent, a: Action, w: World, key: Key)
    requires ProperKeys(d) && d.dynamic && Calm(env, key)
    requires (a == DropClaim && key == d.claimKey(evt)) || (a == DropRoute && key == d.routeKey(evt))
    ensures key !in Do(env, d, evt, a, w).0.store.objects
  {
    CalmTurn(env, w, key);
  }

  lemma OthersSpareToo(d: Setup, evt: ChangeEvent, a: Action, b: Action, key: Key)
    requires ProperKeys(d) && b in TEARDOWN && b != a
    requires (a == DropClaim && key == d.claimKey(evt)) || (a == DropRoute && key == d.routeKey(evt))
    ensures Spares(d, evt, b, key)
  {
    assert Deletion(b);
  }

  /** ... and a delete takes the claim and the route away. */
  lemma BestEffortIsRemoved(env: Env, d: Setup, evt: ChangeEvent, w: World, key: Key)
    requires Proper(env, d) && d.dynamic && Calm(env, key) && (key == d.claimKey(evt) || key == d.routeKey(evt))
    ensures var (w', err) := Teardown(env, d, evt, w); err.None? ==> key !in w'.store.objects
  {
    var a := if key == d.claimKey(evt) then DropClaim else DropRoute;
    assert a in TEARDOWN;
    forall v ensures History.Holds(Do(env, d, evt, a, v).0.store, key, None) { DropRemoves(env, d, evt, a, v, key); }
    forall b | b in TEARDOWN && b != a ensures Spares(d, evt, b, key) { OthersSpareToo(d, evt, a, b, key); }
    PlanLeaves(env, d, evt, TEARDOWN, w, a, key, None);
  }

  // ------------------------------------------------ without a dynamic client

  lemma SpareKeeps(env: Env, d: Setup, evt: ChangeEvent, a: Action, w: World, key: Key)
    requires Proper(env, d) && Calm(env, key) && Spares(d, evt, a, key)
    ensures Same(w.store, Do(env, d, evt, a, w).0.store, key)
  {
    DoStretch(env, d, evt, a, w);
    CalmStretch(env, w, Do(env, d, evt, a, w).0, ScopeOf(d, evt, a), key);
  }

  lemma {:induction false} RunKeeps(env: Env, d: Setup, evt: ChangeEvent, plan: seq<Action>, w: World, key: Key)
    requires Proper(env, d) && Calm(env, key) && forall a :: a in plan ==> Spares(d, evt, a, key)
    ensures Same(w.store, Run(env, d, evt, plan, w).0.store, key)
  {
    if plan == [] {
    } else {
      var (w1, err) := Do(env, d, evt, plan[0], w);
      SpareKeeps(env, d, evt, plan[0], w, key);
      if err.None? { RunKeeps(env, d, evt, plan[1..], w1, key); }
    }
  }

  lemma ContentKept(a: Store, b: Store, key: Key)
    requires Same(a, b, key)
    ensures ContentAt(a, key) == ContentAt(b, key)
  {
  }

  function ContentAt(s: Store, key: Key): Option<Content> {
    if key in s.objects then Some(s.objects[key].content) else None
  }

  /** What becomes of a Deployment: created, or patched if there was one. */
  function Rewritten(d: Setup, evt: ChangeEvent, pick: Pick, before: Option<Content>): Content {
    if before.None? then d.workload(evt, pick) else d.workloadPatch(evt, pick)(before.value)
  }

  lemma CoherentPick(env: Env, d: Setup, nodes: seq<Labels>, evt: ChangeEvent, w: World)
    requires (forall i {:trigger env(i)} :: !env(i).fault && env(i).nodes == nodes)
    requires History.Remembers(d, nodes, w.memory)
    ensures PickFor(env, d, w, evt).1 == History.PickIn(d, nodes, evt)
  {
    assert !env(|w.log|).fault && env(|w.log|).nodes == nodes;
    var w1 := VendorKey(env, d, w).0;
    assert !env(|w1.log|).fault && env(|w1.log|).nodes == nodes;
  }

  lemma WorkloadWrites(env: Env, d: Setup, nodes: seq<Labels>, evt: ChangeEvent, w: World)
    requires ProperKeys(d) && Calm(env, DeploymentKey(evt)) && (forall i {:trigger env(i)} :: env(i).nodes == nodes)
    requires History.Remembers(d, nodes, w.memory)
    ensures ContentAt(Do(env, d, evt, WriteDeployment, w).0.store, DeploymentKey(evt))
         == Some(Rewritten(d, evt, History.PickIn(d, nodes, evt), ContentAt(w.store, DeploymentKey(evt))))
  {
    var key := DeploymentKey(evt);
    var (w1, pick) := PickFor(env, d, w, evt);
    CoherentPick(env, d, nodes, evt, w);
    PickForStretch(env, d, w, evt);
    CalmStretch(env, w, w1, NOTHING, key);
    CalmPatch(env, w1, key, d.workload(evt, pick), d.workloadPatch(evt, pick));
  }

  lemma PinWrites(env: Env, d: Setup, evt: ChangeEvent, w: World)
    requires ProperKeys(d) && Calm(env, DeploymentKey(evt)) && ContentAt(w.store, DeploymentKey(evt)).Some?
    ensures ContentAt(Do(env, d, evt, PinDeployment, w).0.store, DeploymentKey(evt))
         == Some(d.pin(evt)(ContentAt(w.store, DeploymentKey(evt)).value))
  {
    CalmTurn(env, w, DeploymentKey(evt));
  }

  /** The parts of an upsert's plan before, between and after the two steps about the
    * Deployment. */
  const BEFORE: seq<Action> := [Say(Queued), EnsureWeights]
  const AFTER: seq<Action> := [AwaitEngine, Say(Running)]

  function Between(d: Setup): seq<Action> { ExposePlan(d) + [DropHPA, DropScaler] }

  predicate Aside(a: Action) {
    && (Upserts(a) || a.Say? || a == AwaitEngine)
    && a != WriteDeployment && a != PinDeployment && a != DropDeployment
  }

  lemma ClientlessPlan(d: Setup, evt: ChangeEvent)
    requires !d.dynamic && !Scales(evt)
    ensures UpsertPlan(d, evt) == BEFORE + ([WriteDeployment] + (Between(d) + ([PinDeployment] + AFTER)))
    ensures (forall a :: a in BEFORE ==> Aside(a)) && (forall a :: a in Between(d) ==> Aside(a))
    ensures forall a :: a in AFTER ==> Aside(a)
  {
  }

  lemma SparesDeployment(d: Setup, evt: ChangeEvent, a: Action)
    requires ProperKeys(d) && Aside(a)
    ensures Spares(d, evt, a, DeploymentKey(evt))
  {
  }

  lemma AsideKeeps(env: Env, d: Setup, evt: ChangeEvent, plan: seq<Action>, w: World)
    requires Proper(env, d) && Calm(env, DeploymentKey(evt)) && forall a :: a in plan ==> Aside(a)
    ensures ContentAt(Run(env, d, evt, plan, w).0.store, DeploymentKey(evt)) == ContentAt(w.store, DeploymentKey(evt))
  {
    forall a | a in plan ensures Spares(d, evt, a, DeploymentKey(evt)) { SparesDeployment(d, evt, a); }
    RunKeeps(env, d, evt, plan, w, DeploymentKey(evt));
    ContentKept(w.store, Run(env, d, evt, plan, w).0.store, DeploymentKey(evt));
  }

  /** A step, then some that leave the Deployment alone. */
  lemma StepThenAside(
    env: Env, d: Setup, evt: ChangeEvent, a: Action, aside: seq<Action>, rest: seq<Action>, w: World)
    returns (w2: World)
    requires Proper(env, d) && Calm(env, DeploymentKey(evt)) && forall b :: b in aside ==> Aside(b)
    ensures ContentAt(w2.store, DeploymentKey(evt)) == ContentAt(Do(env, d, evt, a, w).0.store, DeploymentKey(evt))
    ensures Run(env, d, evt, [a] + (aside + rest), w).1.Completed? ==>
              Run(env, d, evt, [a] + (aside + rest), w) == Run(env, d, evt, rest, w2)
  {
    var w1 := Do(env, d, evt, a, w).0;
    assert ([a] + (aside + rest))[1..] == aside + rest;
    AsideKeeps(env, d, evt, aside, w1);
    RunThrough(env, d, evt, aside, rest, w1);
    w2 := Run(env, d, evt, aside, w1).0;
  }

  lemma PinnedLast(env: Env, d: Setup, evt: ChangeEvent, w: World)
    requires Proper(env, d) && Calm(env, DeploymentKey(evt)) && ContentAt(w.store, DeploymentKey(evt)).Some?
    ensures var (w', halt) := Run(env, d, evt, [PinDeployment] + AFTER, w);
            var pinned := d.pin(evt)(ContentAt(w.store, DeploymentKey(evt)).value);
            halt.Completed? ==> Stores(w'.store, DeploymentKey(evt), pinned)
  {
    var w2 := StepThenAside(env, d, evt, PinDeployment, AFTER, [], w);
    assert AFTER + [] == AFTER;
    PinWrites(env, d, evt, w);
  }

  /** Without a dynamic client a successful upsert leaves the Deployment as wanted,
    * created or patched, and then pinned to the replica count ... */
  lemma ClientlessUpsertDeploys(env: Env, d: Setup, nodes: seq<Labels>, evt: ChangeEvent, w: World)
    requires Proper(env, d) && !d.dynamic && Calm(env, Key(Deployment, evt.name))
    requires (forall i {:trigger env(i)} :: env(i).nodes == nodes) && History.Remembers(d, nodes, w.memory)
    requires !(evt.autoscaling.Some? && evt.autoscaling.value.enabled)
    ensures var (w', err) := Upsert(env, d, evt, w);
            var key := Key(Deployment, evt.name);
            var written := Rewritten(d, evt, History.PickIn(d, nodes, evt), ContentAt(w.store, key));
            err.None? ==> Stores(w'.store, key, d.pin(evt)(written))
  {
    var rest := Between(d) + ([PinDeployment] + AFTER);
    ClientlessPlan(d, evt);
    RunThrough(env, d, evt, BEFORE, [WriteDeployment] + rest, w);
    AsideKeeps(env, d, evt, BEFORE, w);
    History.RunRemembers(env, d, nodes, evt, BEFORE, w);
    var w1 := Run(env, d, evt, BEFORE, w).0;
    var w2 := StepThenAside(env, d, evt, WriteDeployment, Between(d), [PinDeployment] + AFTER, w1);
    WorkloadWrites(env, d, nodes, evt, w1);
    PinnedLast(env, d, evt, w2);
  }

  /** ... and one that is to scale by itself fails, for want of the client. */
  lemma ClientlessScalingFails(env: Env, d: Setup, evt: ChangeEvent, w: World)
    requires ProperKeys(d) && !d.dynamic && evt.autoscaling.Some? && evt.autoscaling.value.enabled
    ensures Upsert(env, d, evt, w).1.Some?
  {
    FailingStep(env, d, evt, UpsertPlan(d, evt), w, WriteScaler);
    assert WriteScaler in ScalePlan(d, evt);
    assert forall a :: a in ScalePlan(d, evt) ==> a in WritePlan(d, evt);
    assert forall a :: a in WritePlan(d, evt) ==> a in UpsertPlan(d, evt);
  }

  lemma {:induction false} FailingStep(
    env: Env, d: Setup, evt: ChangeEvent, plan: seq<Action>, w: World, a: Action)
    requires ProperKeys(d) && forall v :: Do(env, d, evt, a, v).1.Some?
    ensures a in plan ==> Run(env, d, evt, plan, w).1.Stopped?
  {
    if plan == [] {
    } else {
      var (w1, err) := Do(env, d, evt, plan[0], w);
      if err.None? { FailingStep(env, d, evt, plan[1..], w1, a); }
    }
  }
}

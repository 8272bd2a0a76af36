/** History independence: what a service's objects end up as depends on the last
  * recognised event alone, so redelivering or replaying events is harmless. */
module History {
  import opened Prelude
  import opened Errors
  import opened Events
  import opened Objects
  import opened Cluster
  import opened Optimistic
  import opened EngineReady
  import opened Reconcile
  import opened Steps
  import opened Trace
  import opened Migration

  predicate SameService(a: ChangeEvent, b: ChangeEvent) { a.serviceId == b.serviceId && a.name == b.name }

  /** The objects that belong to the service alone. */
  predicate Mine(svc: ChangeEvent, key: Key) {
    || key == DeploymentKey(svc) || key == StormKey(svc) || key == GroupKey(svc)
    || key == ServiceKey(svc) || key == HPAKey(svc) || key == ScalerKey(svc)
  }

  /** Every API call succeeds, the nodes stay the same, and nobody else writes the
    * service's objects. Pods, time and the broker may do anything. */
  ghost predicate Quiet(env: Env, svc: ChangeEvent, nodes: seq<Labels>) {
    && (forall i {:trigger env(i)} :: !env(i).fault && env(i).nodes == nodes)
    && (forall i, key {:trigger Mentions(env(i).others, key)} :: Mine(svc, key) ==> !Mentions(env(i).others, key))
  }

  /** What the label caches may hold when the nodes are these. */
  ghost predicate Remembers(d: Setup, nodes: seq<Labels>, m: Memory) {
    && (m.accelerator == "" || m.accelerator == d.vendorKey(nodes))
    && forall t :: t in m.cards ==> m.cards[t] == d.cardKey(nodes, t)
  }

  /** What an upsert wants does not depend on earlier events of the service. */
  ghost predicate Stable(d: Setup) {
    && (forall e, e' :: SameService(e, e') ==> d.servicePatch(e)(d.service(e')) == d.service(e))
    && (forall e, picks :: d.pin(e)(d.storm(e, picks)) == d.storm(e, picks))
  }

  /** The Service there is, if any, becomes the wanted one when patched. */
  ghost predicate ServiceFits(d: Setup, svc: ChangeEvent, s: Store) {
    ServiceKey(svc) in s.objects ==>
      forall e :: SameService(e, svc) ==> d.servicePatch(e)(s.objects[ServiceKey(svc)].content) == d.service(e)
  }

  ghost predicate Fit(d: Setup, nodes: seq<Labels>, svc: ChangeEvent, w: World) {
    Remembers(d, nodes, w.memory) && ServiceFits(d, svc, w.store)
  }

  function PickIn(d: Setup, nodes: seq<Labels>, evt: ChangeEvent): Pick {
    Pick(d.vendorKey(nodes), if evt.acceleratorType == "" then "" else d.cardKey(nodes, evt.acceleratorType))
  }

  function Copies(p: Pick, n: nat): seq<Pick> { if n == 0 then [] else Copies(p, n - 1) + [p] }

  /** What an upsert alone makes of one of the service's objects. */
  function Wanted(d: Setup, nodes: seq<Labels>, evt: ChangeEvent, key: Key): Option<Content> {
    match key.kind
    case StormService => Some(d.storm(evt, Copies(PickIn(d, nodes, evt), d.roles(evt))))
    case PodGroup => if d.gang then Some(d.group(evt)) else None
    case Service => Some(d.service(evt))
    case PodAutoscaler => if Scales(evt) then Some(d.scaler(evt)) else None
    case _ => None
  }

  predicate Holds(s: Store, key: Key, want: Option<Content>) {
    if want.None? then key !in s.objects else Stores(s, key, want.value)
  }

  // ------------------------------------------------------- calls, undisturbed

  lemma QuietTurn(env: Env, svc: ChangeEvent, nodes: seq<Labels>, w: World, key: Key)
    requires Quiet(env, svc, nodes) && Mine(svc, key)
    ensures !env(|w.log|).fault && env(|w.log|).nodes == nodes
    ensures Same(w.store, Begun(env, w), key)
  {
    assert !Mentions(env(|w.log|).others, key);
    MeddledKey(w.store, env(|w.log|).others, key);
  }

  lemma QuietDrop(env: Env, svc: ChangeEvent, nodes: seq<Labels>, w: World, key: Key)
    requires Quiet(env, svc, nodes) && Mine(svc, key)
    ensures var (w', err) := Drop(env, w, key); err.None? && key !in w'.store.objects && w'.memory == w.memory
  {
    QuietTurn(env, svc, nodes, w, key);
  }

  lemma QuietAttempt(env: Env, svc: ChangeEvent, nodes: seq<Labels>, w: World, key: Key, content: Content)
    requires Quiet(env, svc, nodes) && Mine(svc, key)
    ensures var (w', outcome) := Attempt(env, w, key, content);
            outcome == Settled(None) && Stores(w'.store, key, content) && w'.memory == w.memory
  {
    var w1 := Call(env, w, Get(key)).0;
    QuietTurn(env, svc, nodes, w, key);
    QuietTurn(env, svc, nodes, w1, key);
  }

  lemma QuietApply(
    env: Env, svc: ChangeEvent, nodes: seq<Labels>, w: World, key: Key, content: Content, left: nat, pause: bool)
    requires Quiet(env, svc, nodes) && Mine(svc, key) && left >= 1
    ensures var (w', err) := Apply(env, w, key, content, left, pause);
            err.None? && Stores(w'.store, key, content) && w'.memory == w.memory
  {
    QuietAttempt(env, svc, nodes, w, key, content);
  }

  lemma QuietCreateOrPatch(
    env: Env, svc: ChangeEvent, nodes: seq<Labels>, w: World, key: Key, content: Content, change: Content -> Content)
    requires Quiet(env, svc, nodes) && Mine(svc, key)
    ensures var (w', err) := CreateOrPatch(env, w, key, content, change);
            && err.None? && w'.memory == w.memory
            && Stores(w'.store, key, if key in w.store.objects then change(w.store.objects[key].content) else content)
  {
    var w1 := Call(env, w, Create(key, content)).0;
    QuietTurn(env, svc, nodes, w, key);
    QuietTurn(env, svc, nodes, w1, key);
  }

  lemma QuietEnsure(env: Env, svc: ChangeEvent, nodes: seq<Labels>, w: World, key: Key, content: Content)
    requires Quiet(env, svc, nodes)
    ensures var (w', err) := Ensure(env, w, key, content); err.None? && w'.memory == w.memory
  {
    assert !env(|w.log|).fault && !env(|w.log| + 1).fault;
  }

  /** With coherent caches every look-up gives the nodes' answer and keeps them so. */
  lemma QuietPick(env: Env, d: Setup, svc: ChangeEvent, nodes: seq<Labels>, w: World, evt: ChangeEvent)
    requires Quiet(env, svc, nodes) && Remembers(d, nodes, w.memory)
    ensures var (w', pick) := PickFor(env, d, w, evt); pick == PickIn(d, nodes, evt) && Remembers(d, nodes, w'.memory)
  {
    assert !env(|w.log|).fault && env(|w.log|).nodes == nodes;
    var w1 := VendorKey(env, d, w).0;
    assert !env(|w1.log|).fault && env(|w1.log|).nodes == nodes;
  }

  lemma {:induction false} QuietPicks(
    env: Env, d: Setup, svc: ChangeEvent, nodes: seq<Labels>, w: World, evt: ChangeEvent, n: nat)
    requires Quiet(env, svc, nodes) && Remembers(d, nodes, w.memory)
    ensures var (w', picks) := Picks(env, d, w, evt, n);
        picks == Copies(PickIn(d, nodes, evt), n) && Remembers(d, nodes, w'.memory)
  {
    if n == 0 {
    } else {
      QuietPicks(env, d, svc, nodes, w, evt, n - 1);
      QuietPick(env, d, svc, nodes, Picks(env, d, w, evt, n - 1).0, evt);
    }
  }

  // ----------------------------------------------------------- label caches

  lemma PickRemembers(env: Env, d: Setup, nodes: seq<Labels>, w: World, evt: ChangeEvent)
    requires (forall i :: env(i).nodes == nodes) && Remembers(d, nodes, w.memory)
    ensures Remembers(d, nodes, PickFor(env, d, w, evt).0.memory)
  {
  }

  lemma {:induction false} PicksRemember(env: Env, d: Setup, nodes: seq<Labels>, w: World, evt: ChangeEvent, n: nat)
    requires (forall i :: env(i).nodes == nodes) && Remembers(d, nodes, w.memory)
    ensures Remembers(d, nodes, Picks(env, d, w, evt, n).0.memory)
  {
    if n == 0 {
    } else {
      PicksRemember(env, d, nodes, w, evt, n - 1);
      PickRemembers(env, d, nodes, Picks(env, d, w, evt, n - 1).0, evt);
    }
  }

  lemma ApplyStepMemory(env: Env, w: World, key: Key, content: Content, left: nat, pause: bool)
    returns (w2: World, done: bool, err: Option<Error>)
    requires left >= 1
    ensures Apply(env, w, key, content, left, pause)
        == if done || left == 1 then (w2, err) else Apply(env, w2, key, content, left - 1, pause)
    ensures w2.memory == w.memory
  {
    var (w1, outcome) := Attempt(env, w, key, content);
    if outcome.Settled? { return w1, true, outcome.err; }
    if left == 1 { return w1, true, Some(Api(Conflict)); }
    w2, done, err := Backoff(env, w1, pause), pause && Abandons(env, w1), Some(Wrapped(Text("context done")));
  }

  lemma {:induction false} ApplyMemory(env: Env, w: World, key: Key, content: Content, left: nat, pause: bool)
    requires left >= 1
    ensures Apply(env, w, key, content, left, pause).0.memory == w.memory
    decreases left
  {
    var w2, done, err := ApplyStepMemory(env, w, key, content, left, pause);
    if !done && left > 1 { ApplyMemory(env, w2, key, content, left - 1, pause); }
  }

  /** No step, failing or not, puts into the caches what the nodes do not say. */
  lemma DoRemembers(env: Env, d: Setup, nodes: seq<Labels>, evt: ChangeEvent, a: Action, w: World)
    requires Proper(env, d) && (forall i :: env(i).nodes == nodes) && Remembers(d, nodes, w.memory)
    ensures Remembers(d, nodes, Do(env, d, evt, a, w).0.memory)
  {
    match a
    case WriteStorm =>
      var (w1, picks) := Picks(env, d, w, evt, d.roles(evt));
      PicksRemember(env, d, nodes, w, evt, d.roles(evt));
      ApplyMemory(env, w1, StormKey(evt), d.storm(evt, picks), d.attempts, false);
    case WriteDeployment => PickRemembers(env, d, nodes, w, evt);
    case WriteScaler => ApplyMemory(env, w, ScalerKey(evt), d.scaler(evt), d.attempts, true);
    case AwaitEngine => var after, k := AwaitEnds(env, d.watch, w);
    case _ =>
  }

  lemma {:induction false} RunRemembers(
    env: Env, d: Setup, nodes: seq<Labels>, evt: ChangeEvent, plan: seq<Action>, w: World)
    requires Proper(env, d) && (forall i :: env(i).nodes == nodes) && Remembers(d, nodes, w.memory)
    ensures Remembers(d, nodes, Run(env, d, evt, plan, w).0.memory)
  {
    if plan == [] {
    } else {
      var (w1, err) := Do(env, d, evt, plan[0], w);
      DoRemembers(env, d, nodes, evt, plan[0], w);
      if err.None? { RunRemembers(env, d, nodes, evt, plan[1..], w1); }
    }
  }

  lemma ConcludeMemory(env: Env, d: Setup, evt: ChangeEvent, w: World, halt: Halt)
    requires ProperKeys(d)
    ensures Conclude(env, d, evt, w, halt).0.memory == w.memory
  {
  }

  lemma HandleRemembers(env: Env, d: Setup, nodes: seq<Labels>, msg: Message, w: World)
    requires Proper(env, d) && (forall i :: env(i).nodes == nodes) && Remembers(d, nodes, w.memory)
    ensures Remembers(d, nodes, Handle(env, d, msg, w).0.memory)
  {
    match TaskOf(msg)
    case Invalid =>
    case Undeploy => RunRemembers(env, d, nodes, msg.evt, TEARDOWN, w);
    case Deploy =>
      var plan := UpsertPlan(d, msg.evt);
      var run := Run(env, d, msg.evt, plan, w);
      RunRemembers(env, d, nodes, msg.evt, plan, w);
      ConcludeMemory(env, d, msg.evt, run.0, run.1);
  }

  // ------------------------------------------------------------ one step each

  lemma Untouched(env: Env, svc: ChangeEvent, nodes: seq<Labels>, w: World, w': World, scope: Scope, key: Key)
    requires Quiet(env, svc, nodes) && Mine(svc, key) && Stretch(env, w, w', scope)
    requires key !in scope.writes && key !in scope.drops
    ensures Same(w.store, w'.store, key)
  {
    forall i | |w.log| <= i < |w'.log| ensures !Mentions(env(i).others, key) && !Touches(w'.log[i], key) {
      assert Within(scope, w'.log[i].what);
    }
    StaysSame(env, w, w', key);
  }

  /** The object a step is about. */
  function Goal(evt: ChangeEvent, a: Action): Option<Key> {
    match a
    case WriteStorm | PinStorm => Some(StormKey(evt))
    case WriteGroup => Some(GroupKey(evt))
    case WriteService => Some(ServiceKey(evt))
    case DropDeployment => Some(DeploymentKey(evt))
    case DropHPA => Some(HPAKey(evt))
    case WriteScaler | DropScaler => Some(ScalerKey(evt))
    case DropService => Some(ServiceKey(evt))
    case DropStorm => Some(StormKey(evt))
    case DropGroup => Some(GroupKey(evt))
    case _ => None
  }

  predicate WithClient(a: Action) { a != WriteDeployment && a != PinDeployment }

  lemma OutsideGoal(d: Setup, svc: ChangeEvent, evt: ChangeEvent, a: Action, key: Key)
    requires ProperKeys(d) && SameService(evt, svc) && WithClient(a) && Mine(svc, key) && Goal(evt, a) != Some(key)
    ensures key !in ScopeOf(d, evt, a).writes && key !in ScopeOf(d, evt, a).drops
  {
  }

  /** The steps an upsert with a dynamic client takes before it waits. */
  predicate Expected(d: Setup, evt: ChangeEvent, a: Action) {
    match a
    case EnsureWeights | WriteStorm | WriteService | WriteRoute | WriteClaim | DropDeployment | DropHPA => true
    case WriteGroup => d.gang
    case WriteScaler => Scales(evt)
    case DropScaler | PinStorm => !Scales(evt)
    case _ => false
  }

  /** The quiet setting every lemma below works in. */
  ghost predicate Setting(env: Env, d: Setup, svc: ChangeEvent, nodes: seq<Labels>, evt: ChangeEvent) {
    Proper(env, d) && d.dynamic && Stable(d) && Quiet(env, svc, nodes) && SameService(evt, svc)
  }

  ghost predicate AsWanted(d: Setup, nodes: seq<Labels>, evt: ChangeEvent, s: Store, key: Key) {
    Holds(s, key, Wanted(d, nodes, evt, key))
  }

  lemma StormAsWanted(env: Env, d: Setup, svc: ChangeEvent, nodes: seq<Labels>, evt: ChangeEvent, w: World)
    requires Setting(env, d, svc, nodes, evt) && Remembers(d, nodes, w.memory)
    ensures var (w', err) := ApplyStorm(env, d, w, evt); err.None? && AsWanted(d, nodes, evt, w'.store, StormKey(evt))
  {
    var (w1, picks) := Picks(env, d, w, evt, d.roles(evt));
    QuietPicks(env, d, svc, nodes, w, evt, d.roles(evt));
    QuietApply(env, svc, nodes, w1, StormKey(evt), d.storm(evt, picks), d.attempts, false);
  }

  lemma ServiceAsWanted(env: Env, d: Setup, svc: ChangeEvent, nodes: seq<Labels>, evt: ChangeEvent, w: World)
    requires Setting(env, d, svc, nodes, evt) && ServiceFits(d, svc, w.store)
    ensures var (w', err) := CreateOrPatch(env, w, ServiceKey(evt), d.service(evt), d.servicePatch(evt));
            err.None? && AsWanted(d, nodes, evt, w'.store, ServiceKey(evt))
  {
    QuietCreateOrPatch(env, svc, nodes, w, ServiceKey(evt), d.service(evt), d.servicePatch(evt));
  }

  lemma PinnedAsWanted(env: Env, d: Setup, svc: ChangeEvent, nodes: seq<Labels>, evt: ChangeEvent, w: World)
    requires Setting(env, d, svc, nodes, evt) && AsWanted(d, nodes, evt, w.store, StormKey(evt))
    ensures var (w', err) := Do(env, d, evt, PinStorm, w); err.None? && AsWanted(d, nodes, evt, w'.store, StormKey(evt))
  {
    QuietTurn(env, svc, nodes, w, StormKey(evt));
  }

  lemma DropAsWanted(env: Env, d: Setup, svc: ChangeEvent, nodes: seq<Labels>, evt: ChangeEvent, a: Action, w: World)
    requires Setting(env, d, svc, nodes, evt) && Expected(d, evt, a)
    requires a == DropDeployment || a == DropHPA || a == DropScaler
    ensures var (w', err) := Do(env, d, evt, a, w); err.None? && AsWanted(d, nodes, evt, w'.store, Goal(evt, a).value)
  {
    QuietDrop(env, svc, nodes, w, Goal(evt, a).value);
  }

  lemma GroupAsWanted(env: Env, d: Setup, svc: ChangeEvent, nodes: seq<Labels>, evt: ChangeEvent, w: World)
    requires Setting(env, d, svc, nodes, evt) && d.gang
    ensures var (w', err) := ApplyOnce(env, w, GroupKey(evt), d.group(evt));
            err.None? && AsWanted(d, nodes, evt, w'.store, GroupKey(evt))
  {
    QuietAttempt(env, svc, nodes, w, GroupKey(evt), d.group(evt));
  }

  lemma ScalerAsWanted(env: Env, d: Setup, svc: ChangeEvent, nodes: seq<Labels>, evt: ChangeEvent, w: World)
    requires Setting(env, d, svc, nodes, evt) && Scales(evt)
    ensures var (w', err) := ApplyScaler(env, d, w, evt); err.None? && AsWanted(d, nodes, evt, w'.store, ScalerKey(evt))
  {
    QuietApply(env, svc, nodes, w, ScalerKey(evt), d.scaler(evt), d.attempts, true);
  }

  lemma ReachesGoal(env: Env, d: Setup, svc: ChangeEvent, nodes: seq<Labels>, evt: ChangeEvent, a: Action, w: World)
    requires Setting(env, d, svc, nodes, evt) && Fit(d, nodes, svc, w) && Expected(d, evt, a)
    requires a == PinStorm ==> AsWanted(d, nodes, evt, w.store, StormKey(evt))
    ensures var (w', err) := Do(env, d, evt, a, w);
            err.None? && (Goal(evt, a).Some? ==> AsWanted(d, nodes, evt, w'.store, Goal(evt, a).value))
  {
    match a
    case EnsureWeights => QuietEnsure(env, svc, nodes, w, d.weightsKey, d.weights);
    case WriteStorm => StormAsWanted(env, d, svc, nodes, evt, w);
    case WriteService => ServiceAsWanted(env, d, svc, nodes, evt, w);
    case WriteGroup => GroupAsWanted(env, d, svc, nodes, evt, w);
    case WriteScaler => ScalerAsWanted(env, d, svc, nodes, evt, w);
    case DropDeployment | DropHPA | DropScaler => DropAsWanted(env, d, svc, nodes, evt, a, w);
    case PinStorm => PinnedAsWanted(env, d, svc, nodes, evt, w);
    case _ =>
  }

  lemma SameHolds(a: Store, b: Store, key: Key, want: Option<Content>)
    requires Same(a, b, key)
    ensures Holds(a, key, want) ==> Holds(b, key, want)
  {
  }

  /** A quiet step succeeds, settles its own object, and unsettles none. */
  lemma QuietStep(
    env: Env, d: Setup, svc: ChangeEvent, nodes: seq<Labels>, evt: ChangeEvent, a: Action, w: World, key: Key)
    requires Setting(env, d, svc, nodes, evt) && Fit(d, nodes, svc, w) && Expected(d, evt, a) && Mine(svc, key)
    requires a == PinStorm ==> AsWanted(d, nodes, evt, w.store, StormKey(evt))
    ensures var (w', err) := Do(env, d, evt, a, w);
            && err.None?
            && (AsWanted(d, nodes, evt, w.store, key) || Goal(evt, a) == Some(key)
              ==> AsWanted(d, nodes, evt, w'.store, key))
  {
    var w' := Do(env, d, evt, a, w).0;
    ReachesGoal(env, d, svc, nodes, evt, a, w);
    if Goal(evt, a) != Some(key) {
      DoStretch(env, d, evt, a, w);
      OutsideGoal(d, svc, evt, a, key);
      Untouched(env, svc, nodes, w, w', ScopeOf(d, evt, a), key);
      SameHolds(w.store, w'.store, key, Wanted(d, nodes, evt, key));
    }
  }

  lemma ServiceNowFits(d: Setup, svc: ChangeEvent, nodes: seq<Labels>, evt: ChangeEvent, s: Store)
    requires Stable(d) && SameService(evt, svc) && AsWanted(d, nodes, evt, s, ServiceKey(evt))
    ensures ServiceFits(d, svc, s)
  {
    forall e | SameService(e, svc) ensures d.servicePatch(e)(s.objects[ServiceKey(svc)].content) == d.service(e) {
      assert SameService(e, evt);
    }
  }

  lemma ServiceStillFits(d: Setup, svc: ChangeEvent, s: Store, s': Store)
    requires ServiceFits(d, svc, s) && Same(s, s', ServiceKey(svc))
    ensures ServiceFits(d, svc, s')
  {
  }

  lemma StaysFit(env: Env, d: Setup, svc: ChangeEvent, nodes: seq<Labels>, evt: ChangeEvent, a: Action, w: World)
    requires Setting(env, d, svc, nodes, evt) && Fit(d, nodes, svc, w) && Expected(d, evt, a)
    requires a == PinStorm ==> AsWanted(d, nodes, evt, w.store, StormKey(evt))
    ensures Fit(d, nodes, svc, Do(env, d, evt, a, w).0)
  {
    var w', key := Do(env, d, evt, a, w).0, ServiceKey(svc);
    DoRemembers(env, d, nodes, evt, a, w);
    if a == WriteService {
      ReachesGoal(env, d, svc, nodes, evt, a, w);
      ServiceNowFits(d, svc, nodes, evt, w'.store);
    } else {
      DoStretch(env, d, evt, a, w);
      OutsideGoal(d, svc, evt, a, key);
      Untouched(env, svc, nodes, w, w', ScopeOf(d, evt, a), key);
      ServiceStillFits(d, svc, w.store, w'.store);
    }
  }

  ghost predicate Plans(d: Setup, evt: ChangeEvent, plan: seq<Action>) { forall a :: a in plan ==> Expected(d, evt, a) }

  predicate Settles(evt: ChangeEvent, plan: seq<Action>, key: Key) {
    exists a :: a in plan && Goal(evt, a) == Some(key)
  }

  lemma SettledSooner(evt: ChangeEvent, a: Action, rest: seq<Action>, key: Key)
    ensures Settles(evt, [a] + rest, key) <==> Goal(evt, a) == Some(key) || Settles(evt, rest, key)
  {
    assert a in [a] + rest;
  }

  /** The first of some quiet steps, and what is left to do. */
  lemma QuietRunStep(
    env: Env, d: Setup, svc: ChangeEvent, nodes: seq<Labels>, evt: ChangeEvent, a: Action, rest: seq<Action>, w: World,
    key: Key)
    returns (w1: World)
    requires Setting(env, d, svc, nodes, evt) && Fit(d, nodes, svc, w) && Expected(d, evt, a) && Mine(svc, key)
    requires a == PinStorm ==> AsWanted(d, nodes, evt, w.store, StormKey(evt))
    ensures Run(env, d, evt, [a] + rest, w) == Run(env, d, evt, rest, w1) && Fit(d, nodes, svc, w1)
    ensures AsWanted(d, nodes, evt, w.store, StormKey(evt)) ==> AsWanted(d, nodes, evt, w1.store, StormKey(evt))
    ensures AsWanted(d, nodes, evt, w.store, key) || Goal(evt, a) == Some(key)
        ==> AsWanted(d, nodes, evt, w1.store, key)
  {
    QuietStep(env, d, svc, nodes, evt, a, w, key);
    QuietStep(env, d, svc, nodes, evt, a, w, StormKey(evt));
    StaysFit(env, d, svc, nodes, evt, a, w);
    w1 := Do(env, d, evt, a, w).0;
    assert ([a] + rest)[1..] == rest;
  }

  /** A quiet run completes, and settles what its steps are about. */
  lemma {:induction false} QuietRun(
    env: Env, d: Setup, svc: ChangeEvent, nodes: seq<Labels>, evt: ChangeEvent, plan: seq<Action>, w: World, key: Key)
    requires Setting(env, d, svc, nodes, evt) && Fit(d, nodes, svc, w) && Plans(d, evt, plan) && Mine(svc, key)
    requires PinStorm in plan ==> AsWanted(d, nodes, evt, w.store, StormKey(evt))
    ensures var (w', halt) := Run(env, d, evt, plan, w);
            && halt.Completed? && Fit(d, nodes, svc, w')
            && (AsWanted(d, nodes, evt, w.store, key) || Settles(evt, plan, key)
                ==> AsWanted(d, nodes, evt, w'.store, key))
  {
    if plan != [] {
      var a, rest := plan[0], plan[1..];
      assert plan == [a] + rest;
      var w1 := QuietRunStep(env, d, svc, nodes, evt, a, rest, w, key);
      QuietRun(env, d, svc, nodes, evt, rest, w1, key);
      SettledSooner(evt, a, rest, key);
    }
  }

  // ---------------------------------------------------------- whole upserts

  ghost predicate Untroubled(env: Env, svc: ChangeEvent, nodes: seq<Labels>, w: World, w': World) {
    w'.memory == w.memory && forall key :: Mine(svc, key) ==> Same(w.store, w'.store, key)
  }

  lemma SpeakingOnly(env: Env, svc: ChangeEvent, nodes: seq<Labels>, w: World, w': World, says: set<Status>)
    requires Quiet(env, svc, nodes) && Stretch(env, w, w', Scope({}, {}, says)) && w'.memory == w.memory
    ensures Untroubled(env, svc, nodes, w, w')
  {
    forall key | Mine(svc, key) ensures Same(w.store, w'.store, key) {
      Untouched(env, svc, nodes, w, w', Scope({}, {}, says), key);
    }
  }

  lemma PublishOnly(env: Env, svc: ChangeEvent, nodes: seq<Labels>, w: World, status: Status)
    requires Quiet(env, svc, nodes)
    ensures Untroubled(env, svc, nodes, w, Publish(env, w, status).0)
  {
    PublishMeans(env, w, status);
    SpeakingOnly(env, svc, nodes, w, Publish(env, w, status).0, {status});
  }

  lemma AwaitOnly(env: Env, watch: Watch, svc: ChangeEvent, nodes: seq<Labels>, w: World)
    requires Quiet(env, svc, nodes) && Lawful(env, watch)
    ensures Untroubled(env, svc, nodes, w, Await(watch, w).0)
  {
    var after, k := AwaitEnds(env, watch, w);
    SpeakingOnly(env, svc, nodes, w, Await(watch, w).0, {Starting});
  }

  /** However the wait ends, the objects are not touched any more. */
  lemma FinishOnly(env: Env, d: Setup, svc: ChangeEvent, nodes: seq<Labels>, evt: ChangeEvent, w: World)
    requires Quiet(env, svc, nodes) && Proper(env, d)
    ensures Untroubled(env, svc, nodes, w, Finish(env, d, evt, (w, Completed)).0)
  {
    var (w3, err) := Await(d.watch, w);
    AwaitOnly(env, d.watch, svc, nodes, w);
    PublishOnly(env, svc, nodes, w3, Failed);
    PublishOnly(env, svc, nodes, w3, Running);
  }

  lemma FitLater(
    d: Setup, env: Env, svc: ChangeEvent, nodes: seq<Labels>, evt: ChangeEvent, w: World, w': World, key: Key)
    requires Untroubled(env, svc, nodes, w, w') && Fit(d, nodes, svc, w) && Mine(svc, key)
    ensures Fit(d, nodes, svc, w')
    ensures AsWanted(d, nodes, evt, w.store, key) ==> AsWanted(d, nodes, evt, w'.store, key)
  {
    assert Same(w.store, w'.store, ServiceKey(svc));
    SameHolds(w.store, w'.store, key, Wanted(d, nodes, evt, key));
  }

  /** A run of writes whose replicas are pinned only once the storm is there. */
  lemma QuietWrites(
    env: Env, d: Setup, svc: ChangeEvent, nodes: seq<Labels>, evt: ChangeEvent, front: seq<Action>, rest: seq<Action>,
    w: World, key: Key)
    requires Setting(env, d, svc, nodes, evt) && Fit(d, nodes, svc, w) && Mine(svc, key)
    requires Plans(d, evt, front) && Plans(d, evt, rest) && PinStorm !in front && WriteStorm in front
    ensures var (w', halt) := Run(env, d, evt, front + rest, w);
            && halt.Completed? && Fit(d, nodes, svc, w')
            && (AsWanted(d, nodes, evt, w.store, key) || (exists a :: a in front + rest && Goal(evt, a) == Some(key))
                ==> AsWanted(d, nodes, evt, w'.store, key))
  {
    RunThrough(env, d, evt, front, rest, w);
    QuietRun(env, d, svc, nodes, evt, front, w, key);
    QuietRun(env, d, svc, nodes, evt, front, w, StormKey(evt));
    assert Goal(evt, WriteStorm) == Some(StormKey(evt));
    QuietRun(env, d, svc, nodes, evt, rest, Run(env, d, evt, front, w).0, key);
    assert forall a :: a in front + rest <==> a in front || a in rest;
  }

  lemma QuietUpsert(
    env: Env, d: Setup, svc: ChangeEvent, nodes: seq<Labels>, evt: ChangeEvent, front: seq<Action>, rest: seq<Action>,
    w: World, key: Key)
    requires Setting(env, d, svc, nodes, evt) && Fit(d, nodes, svc, w) && Mine(svc, key)
    requires Plans(d, evt, front) && Plans(d, evt, rest) && PinStorm !in front && WriteStorm in front
    requires AsWanted(d, nodes, evt, w.store, key) || (exists a :: a in front + rest && Goal(evt, a) == Some(key))
    ensures var w' := Finish(env, d, evt, Run(env, d, evt, front + rest, Publish(env, w, Queued).0)).0;
            AsWanted(d, nodes, evt, w'.store, key) && Fit(d, nodes, svc, w')
  {
    var w1 := Publish(env, w, Queued).0;
    PublishOnly(env, svc, nodes, w, Queued);
    FitLater(d, env, svc, nodes, evt, w, w1, key);
    QuietWrites(env, d, svc, nodes, evt, front, rest, w1, key);
    var w2 := Run(env, d, evt, front + rest, w1).0;
    FinishOnly(env, d, svc, nodes, evt, w2);
    FitLater(d, env, svc, nodes, evt, w2, Finish(env, d, evt, (w2, Completed)).0, key);
  }

  lemma WritesExpected(d: Setup, evt: ChangeEvent, rest: seq<Action>)
    requires d.dynamic && rest == MiddlePlan(d) + TailPlan(d, evt)
    ensures Plans(d, evt, [EnsureWeights] + [WriteStorm]) && Plans(d, evt, rest)
  {
    forall a | a in rest ensures Expected(d, evt, a) {
      assert a in MiddlePlan(d) || a in ExposePlan(d) || a in ScalePlan(d, evt);
    }
  }

  function SettlerOf(svc: ChangeEvent, evt: ChangeEvent, key: Key): Action {
    match key.kind
    case StormService => WriteStorm
    case Deployment => DropDeployment
    case Service => WriteService
    case Autoscaler => DropHPA
    case PodGroup => WriteGroup
    case _ => if Scales(evt) then WriteScaler else DropScaler
  }

  lemma SettlerPlanned(d: Setup, svc: ChangeEvent, evt: ChangeEvent, key: Key)
    requires d.dynamic && Mine(svc, key) && (d.gang || key != GroupKey(svc))
    ensures var a := SettlerOf(svc, evt, key);
            a == WriteStorm || a in MiddlePlan(d) || a in ExposePlan(d) || a in ScalePlan(d, evt)
  {
  }

  lemma GoalsCovered(d: Setup, svc: ChangeEvent, evt: ChangeEvent, rest: seq<Action>, key: Key)
    requires d.dynamic && SameService(evt, svc) && Mine(svc, key) && rest == MiddlePlan(d) + TailPlan(d, evt)
    requires d.gang || key != GroupKey(svc)
    ensures exists a :: a in [EnsureWeights] + [WriteStorm] + rest && Goal(evt, a) == Some(key)
  {
    var a := SettlerOf(svc, evt, key);
    SettlerPlanned(d, svc, evt, key);
    assert a in [EnsureWeights] + [WriteStorm] + rest;
    assert Goal(evt, a) == Some(key);
  }

  lemma QuietUpsertOf(
    env: Env, d: Setup, svc: ChangeEvent, nodes: seq<Labels>, evt: ChangeEvent, front: seq<Action>, rest: seq<Action>,
    w: World, key: Key)
    requires Setting(env, d, svc, nodes, evt) && Fit(d, nodes, svc, w) && Mine(svc, key)
    requires WritePlan(d, evt) == front + rest
    requires Plans(d, evt, front) && Plans(d, evt, rest) && PinStorm !in front && WriteStorm in front
    requires AsWanted(d, nodes, evt, w.store, key) || (exists a :: a in front + rest && Goal(evt, a) == Some(key))
    ensures var w' := Upsert(env, d, evt, w).0; AsWanted(d, nodes, evt, w'.store, key) && Fit(d, nodes, svc, w')
  {
    UpsertInParts(env, d, evt, front + rest, w);
    QuietUpsert(env, d, svc, nodes, evt, front, rest, w, key);
  }

  /** An undisturbed upsert leaves each of the service's objects as this event alone
    * wants it, whatever was there before. */
  lemma UpsertConverges(env: Env, d: Setup, svc: ChangeEvent, nodes: seq<Labels>, evt: ChangeEvent, w: World, key: Key)
    requires Setting(env, d, svc, nodes, evt) && Fit(d, nodes, svc, w) && Mine(svc, key)
    requires d.gang || GroupKey(svc) !in w.store.objects
    ensures var w' := Upsert(env, d, evt, w).0; AsWanted(d, nodes, evt, w'.store, key) && Fit(d, nodes, svc, w')
  {
    var rest := MiddlePlan(d) + TailPlan(d, evt);
    DynamicPlan(d, evt);
    WritesExpected(d, evt, rest);
    if d.gang || key != GroupKey(svc) { GoalsCovered(d, svc, evt, rest, key); }
    QuietUpsertOf(env, d, svc, nodes, evt, [EnsureWeights] + [WriteStorm], rest, w, key);
  }

  // --------------------------------------------------------------- teardowns

  lemma QuietDeletion(
    env: Env, d: Setup, svc: ChangeEvent, nodes: seq<Labels>, evt: ChangeEvent, a: Action, w: World, key: Key)
    requires Setting(env, d, svc, nodes, evt) && Deletion(a) && Mine(svc, key)
    ensures var (w', err) := Do(env, d, evt, a, w);
            && err.None?
            && (key !in w.store.objects || Goal(evt, a) == Some(key) ==> key !in w'.store.objects)
  {
    var w' := Do(env, d, evt, a, w).0;
    if Goal(evt, a).Some? {
      QuietDrop(env, svc, nodes, w, Goal(evt, a).value);
    }
    if Goal(evt, a) != Some(key) {
      DoStretch(env, d, evt, a, w);
      OutsideGoal(d, svc, evt, a, key);
      Untouched(env, svc, nodes, w, w', ScopeOf(d, evt, a), key);
    }
  }

  /** The first of some deletions, and what is left to do. */
  lemma QuietDeletionStep(
    env: Env, d: Setup, svc: ChangeEvent, nodes: seq<Labels>, evt: ChangeEvent, a: Action, rest: seq<Action>, w: World,
    key: Key)
    returns (w1: World)
    requires Setting(env, d, svc, nodes, evt) && Deletion(a) && Mine(svc, key)
    ensures Run(env, d, evt, [a] + rest, w) == Run(env, d, evt, rest, w1)
    ensures key !in w.store.objects || Goal(evt, a) == Some(key) ==> key !in w1.store.objects
  {
    QuietDeletion(env, d, svc, nodes, evt, a, w, key);
    w1 := Do(env, d, evt, a, w).0;
    assert ([a] + rest)[1..] == rest;
  }

  lemma {:induction false} QuietDeletions(
    env: Env, d: Setup, svc: ChangeEvent, nodes: seq<Labels>, evt: ChangeEvent, plan: seq<Action>, w: World, key: Key)
    requires Setting(env, d, svc, nodes, evt) && (forall a :: a in plan ==> Deletion(a)) && Mine(svc, key)
    ensures var (w', halt) := Run(env, d, evt, plan, w);
            halt.Completed? && (key !in w.store.objects || Settles(evt, plan, key) ==> key !in w'.store.objects)
  {
    if plan != [] {
      var a, rest := plan[0], plan[1..];
      assert plan == [a] + rest;
      var w1 := QuietDeletionStep(env, d, svc, nodes, evt, a, rest, w, key);
      QuietDeletions(env, d, svc, nodes, evt, rest, w1, key);
      SettledSooner(evt, a, rest, key);
    }
  }

  lemma TeardownSettles(svc: ChangeEvent, evt: ChangeEvent, key: Key)
    requires SameService(evt, svc) && Mine(svc, key)
    ensures Settles(evt, TEARDOWN, key) && forall a :: a in TEARDOWN ==> Deletion(a)
  {
    var a := match key.kind
      case StormService => DropStorm
      case Deployment => DropDeployment
      case Service => DropService
      case Autoscaler => DropHPA
      case PodGroup => DropGroup
      case _ => DropScaler;
    assert a in TEARDOWN && Goal(evt, a) == Some(key);
  }

  /** An undisturbed delete leaves none of the service's objects. */
  lemma TeardownConverges(
    env: Env, d: Setup, svc: ChangeEvent, nodes: seq<Labels>, evt: ChangeEvent, w: World, key: Key)
    requires Setting(env, d, svc, nodes, evt) && Mine(svc, key)
    ensures key !in Teardown(env, d, evt, w).0.store.objects
  {
    TeardownSettles(svc, evt, key);
    QuietDeletions(env, d, svc, nodes, evt, TEARDOWN, w, key);
  }

  // --------------------------------------------------------- other services

  lemma NamesApart(svc: ChangeEvent, evt: ChangeEvent, key: Key)
    requires evt.name != svc.name && Mine(svc, key)
    ensures !Mine(evt, key)
  {
    assert (evt.name + "-svc")[..|evt.name|] == evt.name && (svc.name + "-svc")[..|svc.name|] == svc.name;
    assert ("hpa-" + evt.name)[4..] == evt.name && ("hpa-" + svc.name)[4..] == svc.name;
    assert |evt.name + "-svc"| == |svc.name + "-svc"| ==> |evt.name| == |svc.name|;
  }

  lemma OutsideMine(d: Setup, svc: ChangeEvent, evt: ChangeEvent, key: Key)
    requires ProperKeys(d) && Mine(svc, key) && !Mine(evt, key)
    ensures key !in UpsertScope(d, evt).writes && key !in UpsertScope(d, evt).drops
        && key !in TeardownScope(d, evt).drops
  {
  }

  predicate About(svc: ChangeEvent, msg: Message) { TaskOf(msg) != Invalid && msg.evt.name == svc.name }

  /** Messages about other services, and messages that say nothing, leave the
    * service's objects alone. */
  lemma OthersTouchNothing(env: Env, d: Setup, svc: ChangeEvent, nodes: seq<Labels>, msg: Message, w: World, key: Key)
    requires Proper(env, d) && Quiet(env, svc, nodes) && Mine(svc, key) && !About(svc, msg)
    ensures Same(w.store, Handle(env, d, msg, w).0.store, key)
  {
    match TaskOf(msg)
    case Invalid =>
    case Undeploy =>
      NamesApart(svc, msg.evt, key);
      OutsideMine(d, svc, msg.evt, key);
      TeardownStretch(env, d, msg.evt, w);
      Untouched(env, svc, nodes, w, Teardown(env, d, msg.evt, w).0, TeardownScope(d, msg.evt), key);
    case Deploy =>
      NamesApart(svc, msg.evt, key);
      OutsideMine(d, svc, msg.evt, key);
      UpsertTrace(env, d, msg.evt, w);
      Untouched(env, svc, nodes, w, Upsert(env, d, msg.evt, w).0, Speaking(UpsertScope(d, msg.evt)), key);
  }

  // -------------------------------------------------------------- histories

  /** Where a history may start, legacy objects included: coherent caches, a Service
    * that patching turns into the wanted one, and no PodGroup unless gangs are on. */
  ghost predicate Start(d: Setup, nodes: seq<Labels>, svc: ChangeEvent, w: World) {
    Fit(d, nodes, svc, w) && (d.gang || GroupKey(svc) !in w.store.objects)
  }

  ghost predicate Scene(env: Env, d: Setup, svc: ChangeEvent, nodes: seq<Labels>) {
    Proper(env, d) && d.dynamic && Stable(d) && Quiet(env, svc, nodes)
  }

  /** A service's name is its own. */
  ghost predicate OwnName(svc: ChangeEvent, msg: Message) { About(svc, msg) ==> SameService(msg.evt, svc) }

  function WantedAfter(d: Setup, nodes: seq<Labels>, msg: Message, key: Key): Option<Content>
    requires msg.Change?
  {
    if TaskOf(msg) == Undeploy then None else Wanted(d, nodes, msg.evt, key)
  }

  lemma EventDecides(env: Env, d: Setup, svc: ChangeEvent, nodes: seq<Labels>, msg: Message, w: World, key: Key)
    requires Scene(env, d, svc, nodes) && Start(d, nodes, svc, w) && Mine(svc, key) && About(svc, msg)
        && OwnName(svc, msg)
    ensures Holds(Handle(env, d, msg, w).0.store, key, WantedAfter(d, nodes, msg, key))
  {
    if TaskOf(msg) == Undeploy {
      TeardownConverges(env, d, svc, nodes, msg.evt, w, key);
    } else {
      UpsertConverges(env, d, svc, nodes, msg.evt, w, key);
    }
  }

  lemma StaysStart(env: Env, d: Setup, svc: ChangeEvent, nodes: seq<Labels>, msg: Message, w: World)
    requires Scene(env, d, svc, nodes) && Start(d, nodes, svc, w) && OwnName(svc, msg)
    ensures Start(d, nodes, svc, Handle(env, d, msg, w).0)
  {
    HandleRemembers(env, d, nodes, msg, w);
    if About(svc, msg) {
      EventDecides(env, d, svc, nodes, msg, w, GroupKey(svc));
      if TaskOf(msg) == Undeploy {
        TeardownConverges(env, d, svc, nodes, msg.evt, w, ServiceKey(svc));
      } else {
        UpsertConverges(env, d, svc, nodes, msg.evt, w, ServiceKey(svc));
      }
    } else {
      OthersTouchNothing(env, d, svc, nodes, msg, w, ServiceKey(svc));
      OthersTouchNothing(env, d, svc, nodes, msg, w, GroupKey(svc));
    }
  }

  /** The last message that the service's objects heed. */
  ghost predicate LastAbout(svc: ChangeEvent, msgs: seq<Message>, k: nat) {
    k < |msgs| && About(svc, msgs[k]) && forall j :: k < j < |msgs| ==> !About(svc, msgs[j])
  }

  lemma {:induction false} LastDecides(
    env: Env, d: Setup, svc: ChangeEvent, nodes: seq<Labels>, msgs: seq<Message>, w: World, k: nat, key: Key)
    requires Scene(env, d, svc, nodes) && Start(d, nodes, svc, w) && Mine(svc, key)
    requires (forall m :: m in msgs ==> OwnName(svc, m)) && LastAbout(svc, msgs, k)
    ensures Holds(HandleAll(env, d, msgs, w).store, key, WantedAfter(d, nodes, msgs[k], key))
  {
    var n := |msgs| - 1;
    var before := HandleAll(env, d, msgs[..n], w);
    if k == n {
      AllStart(env, d, svc, nodes, msgs[..n], w);
      EventDecides(env, d, svc, nodes, msgs[n], before, key);
    } else {
      LastDecides(env, d, svc, nodes, msgs[..n], w, k, key);
      OthersTouchNothing(env, d, svc, nodes, msgs[n], before, key);
      SameHolds(before.store, HandleAll(env, d, msgs, w).store, key, WantedAfter(d, nodes, msgs[k], key));
    }
  }

  lemma {:induction false} AllStart(
    env: Env, d: Setup, svc: ChangeEvent, nodes: seq<Labels>, msgs: seq<Message>, w: World)
    requires Scene(env, d, svc, nodes) && Start(d, nodes, svc, w)
    requires forall m :: m in msgs ==> OwnName(svc, m)
    ensures Start(d, nodes, svc, HandleAll(env, d, msgs, w))
  {
    if msgs == [] {
    } else {
      var n := |msgs| - 1;
      AllStart(env, d, svc, nodes, msgs[..n], w);
      StaysStart(env, d, svc, nodes, msgs[n], HandleAll(env, d, msgs[..n], w));
    }
  }

  ghost predicate Agree(a: Store, b: Store, key: Key) {
    && (key in a.objects <==> key in b.objects)
    && (key in a.objects ==> a.objects[key].content == b.objects[key].content)
  }

  /** The two want the same things of the cluster. */
  ghost predicate SameWants(a: Setup, b: Setup) { b == a.(watch := b.watch) }

  lemma BothAsWanted(a: Store, b: Store, key: Key, want: Option<Content>)
    requires Holds(a, key, want) && Holds(b, key, want)
    ensures Agree(a, b, key)
  {
  }

  lemma WantsAlike(d: Setup, d': Setup, nodes: seq<Labels>, svc: ChangeEvent, msg: Message, w: World, key: Key)
    requires SameWants(d, d') && msg.Change?
    ensures WantedAfter(d', nodes, msg, key) == WantedAfter(d, nodes, msg, key)
    ensures Start(d, nodes, svc, w) ==> Start(d', nodes, svc, w)
  {
  }

  /** History independence: after any messages, about this service and others, in
    * any order and from any start, each of the service's objects is what the last
    * recognised message about it produces alone from an empty namespace, whatever
    * pods, clock and broker do in either run. */
  lemma HistoryIndependence(
    env: Env, d: Setup, alone: Env, d': Setup, svc: ChangeEvent, nodes: seq<Labels>, msgs: seq<Message>, w: World,
    empty: World, k: nat, key: Key)
    requires Scene(env, d, svc, nodes) && Scene(alone, d', svc, nodes) && SameWants(d, d')
    requires Start(d, nodes, svc, w) && empty.store.objects == map[] && empty.memory == Memory("", map[])
    requires (forall m :: m in msgs ==> OwnName(svc, m)) && LastAbout(svc, msgs, k) && Mine(svc, key)
    ensures Agree(HandleAll(env, d, msgs, w).store, Handle(alone, d', msgs[k], empty).0.store, key)
  {
    LastDecides(env, d, svc, nodes, msgs, w, k, key);
    assert msgs[k] in msgs;
    EventDecides(alone, d', svc, nodes, msgs[k], empty, key);
    WantsAlike(d, d', nodes, svc, msgs[k], w, key);
    BothAsWanted(HandleAll(env, d, msgs, w).store, Handle(alone, d', msgs[k], empty).0.store, key,
                 WantedAfter(d, nodes, msgs[k], key));
  }

  /** In particular, delivering a message again changes nothing. */
  lemma RedeliveryIsHarmless(
    env: Env, d: Setup, again: Env, d': Setup, svc: ChangeEvent, nodes: seq<Labels>, msg: Message, w: World, key: Key)
    requires Scene(env, d, svc, nodes) && Scene(again, d', svc, nodes) && SameWants(d, d')
    requires Start(d, nodes, svc, w) && OwnName(svc, msg) && Mine(svc, key)
    ensures var once := Handle(env, d, msg, w).0; Agree(once.store, Handle(again, d', msg, once).0.store, key)
  {
    var once := Handle(env, d, msg, w).0;
    StaysStart(env, d, svc, nodes, msg, w);
    if About(svc, msg) {
      WantsAlike(d, d', nodes, svc, msg, once, key);
      EventDecides(env, d, svc, nodes, msg, w, key);
      EventDecides(again, d', svc, nodes, msg, once, key);
      BothAsWanted(once.store, Handle(again, d', msg, once).0.store, key, WantedAfter(d, nodes, msg, key));
    } else {
      OthersTouchNothing(again, d', svc, nodes, msg, once, key);
    }
  }

  // -------------------------------------------------- what each event asks for

  /** The six objects of the service of this name. */
  predicate IsObjectOf(name: string, key: Key) {
    || key == Key(Deployment, name) || key == Key(Service, name + "-svc") || key == Key(Autoscaler, "hpa-" + name)
    || key == Key(StormService, name) || key == Key(PodGroup, name) || key == Key(PodAutoscaler, "hpa-" + name)
  }

  /** What a role's pods are pinned by: the nodes' vendor key, and the key of the card
    * if one is asked for. */
  ghost predicate PicksOf(d: Setup, nodes: seq<Labels>, evt: ChangeEvent, picks: seq<Pick>) {
    && |picks| == d.roles(evt)
    && forall i :: 0 <= i < |picks| ==>
         && picks[i].vendor == d.vendorKey(nodes)
         && picks[i].card == if evt.acceleratorType == "" then "" else d.cardKey(nodes, evt.acceleratorType)
  }

  lemma {:induction false} CopiesAre(p: Pick, n: nat)
    ensures |Copies(p, n)| == n && forall i :: 0 <= i < n ==> Copies(p, n)[i] == p
  {
    if n == 0 {
    } else {
      CopiesAre(p, n - 1);
    }
  }

  /** The service's objects as a deploying event wants them. */
  ghost predicate Deployed(d: Setup, nodes: seq<Labels>, evt: ChangeEvent, s: Store) {
    && (exists picks :: PicksOf(d, nodes, evt, picks) && Stores(s, Key(StormService, evt.name), d.storm(evt, picks)))
    && Stores(s, Key(Service, evt.name + "-svc"), d.service(evt))
    && Key(Deployment, evt.name) !in s.objects && Key(Autoscaler, "hpa-" + evt.name) !in s.objects
    && (if d.gang then Stores(s, Key(PodGroup, evt.name), d.group(evt)) else Key(PodGroup, evt.name) !in s.objects)
    && (if evt.autoscaling.Some? && evt.autoscaling.value.enabled
        then Stores(s, Key(PodAutoscaler, "hpa-" + evt.name), d.scaler(evt))
        else Key(PodAutoscaler, "hpa-" + evt.name) !in s.objects)
  }

  lemma AllAsWanted(d: Setup, nodes: seq<Labels>, evt: ChangeEvent, s: Store)
    requires forall key :: Mine(evt, key) ==> AsWanted(d, nodes, evt, s, key)
    ensures Deployed(d, nodes, evt, s)
  {
    var picks := Copies(PickIn(d, nodes, evt), d.roles(evt));
    CopiesAre(PickIn(d, nodes, evt), d.roles(evt));
    assert PicksOf(d, nodes, evt, picks);
    assert AsWanted(d, nodes, evt, s, StormKey(evt)) && AsWanted(d, nodes, evt, s, ServiceKey(evt));
    assert AsWanted(d, nodes, evt, s, DeploymentKey(evt)) && AsWanted(d, nodes, evt, s, HPAKey(evt));
    assert AsWanted(d, nodes, evt, s, GroupKey(evt)) && AsWanted(d, nodes, evt, s, ScalerKey(evt));
  }

  /** Undisturbed, each of the three deploying events leaves the service deployed. */
  lemma DeployWrites(env: Env, d: Setup, nodes: seq<Labels>, evt: ChangeEvent, w: World)
    requires Scene(env, d, evt, nodes) && Start(d, nodes, evt, w) && evt.serviceId != "" && evt.name != ""
    requires evt.eventType == "upsert" || evt.eventType == "update_version" || evt.eventType == "rollback"
    ensures Deployed(d, nodes, evt, Handle(env, d, Change(evt), w).0.store)
  {
    var w' := Handle(env, d, Change(evt), w).0;
    assert w' == Upsert(env, d, evt, w).0;
    forall key | Mine(evt, key) ensures AsWanted(d, nodes, evt, w'.store, key) {
      UpsertConverges(env, d, evt, nodes, evt, w, key);
    }
    AllAsWanted(d, nodes, evt, w'.store);
  }

  /** Undisturbed, a delete succeeds and leaves none of the service's objects. */
  lemma DeleteClears(env: Env, d: Setup, nodes: seq<Labels>, evt: ChangeEvent, w: World, key: Key)
    requires Scene(env, d, evt, nodes) && IsObjectOf(evt.name, key)
    requires evt.eventType == "delete" && evt.serviceId != "" && evt.name != ""
    ensures var (w', err) := Handle(env, d, Change(evt), w); err.None? && key !in w'.store.objects
  {
    TeardownSettles(evt, evt, key);
    QuietDeletions(env, d, evt, nodes, evt, TEARDOWN, w, key);
  }

  lemma DeletionsGrow(env: Env, d: Setup, evt: ChangeEvent, plan: seq<Action>, w: World)
    requires Proper(env, d) && forall a :: a in plan ==> Deletion(a)
    ensures w.log <= Run(env, d, evt, plan, w).0.log
  {
    forall a | a in plan ensures Narrower(ScopeOf(d, evt, a), TeardownScope(d, evt)) { assert Deletion(a); }
    RunStretch(env, d, evt, plan, w, TeardownScope(d, evt));
  }

  lemma DropAsks(env: Env, w: World, key: Key)
    ensures var w' := Drop(env, w, key).0; |w'.log| == |w.log| + 1 && Deletes(w'.log[|w.log|], key)
  {
  }

  lemma DropsFirst(env: Env, d: Setup, evt: ChangeEvent, plan: seq<Action>, w: World)
    requires Proper(env, d) && plan != [] && plan[0] == DropDeployment && forall a :: a in plan ==> Deletion(a)
    ensures var w' := Run(env, d, evt, plan, w).0;
            |w'.log| > |w.log| && Deletes(w'.log[|w.log|], Key(Deployment, evt.name))
  {
    var (w1, err) := Do(env, d, evt, plan[0], w);
    DropAsks(env, w, DeploymentKey(evt));
    if err.None? {
      DeletionsGrow(env, d, evt, plan[1..], w1);
    }
  }

  /** Whatever the client and the cluster: a delete of a named service begins by deleting
    * its Deployment ... */
  lemma DeleteDropsFirst(env: Env, d: Setup, evt: ChangeEvent, w: World)
    requires Proper(env, d) && evt.eventType == "delete" && evt.serviceId != "" && evt.name != ""
    ensures var w' := Handle(env, d, Change(evt), w).0;
            |w'.log| > |w.log| && Deletes(w'.log[|w.log|], Key(Deployment, evt.name))
  {
    assert TaskOf(Change(evt)) == Undeploy;
    DropsFirst(env, d, evt, TEARDOWN, w);
  }

  /** ... a deploying event by publishing "queued" ... */
  lemma DeployAnnounces(env: Env, d: Setup, evt: ChangeEvent, w: World)
    requires Proper(env, d) && evt.serviceId != "" && evt.name != ""
    requires evt.eventType == "upsert" || evt.eventType == "update_version" || evt.eventType == "rollback"
    ensures var w' := Handle(env, d, Change(evt), w).0;
            Notices(w'.log, |w.log|) != [] && Notices(w'.log, |w.log|)[0].status == Queued
  {
    assert TaskOf(Change(evt)) == Deploy;
    UpsertTrace(env, d, evt, w);
  }

  /** ... and any other message makes no call, changes nothing and is rejected. */
  lemma OthersAreRejected(env: Env, d: Setup, msg: Message, w: World)
    requires ProperKeys(d)
    requires msg.Malformed? || msg.evt.serviceId == "" || msg.evt.name == ""
        || (msg.evt.eventType != "delete" && msg.evt.eventType != "upsert"
            && msg.evt.eventType != "update_version" && msg.evt.eventType != "rollback")
    ensures var (w', err) := Handle(env, d, msg, w); w' == w && VerdictOf(err) == Reject
  {
    assert TaskOf(msg) == Invalid;
    MarkIsSeenThroughWrapping(Text("invalid change event"));
  }
}

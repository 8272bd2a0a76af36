/** Migration safety: an upsert never leaves a service without a serving object on
  * its way from a Deployment to a StormService, nor with two autoscalers, in any
  * state in between and whatever step fails. */
module Migration {
  import opened Prelude
  import opened Errors
  import opened Events
  import opened Objects
  import opened Cluster
  import opened Reconcile
  import opened Steps
  import opened Trace

  /** Once a state is good, every later state is. */
  ghost predicate Persists(w: World, w': World, good: Store -> bool)
    requires |w.log| <= |w'.log|
  {
    && (good(w.store) ==> good(w'.store))
    && forall i, j {:trigger Prior(|w.log|, w.store, w'.log, i), w'.log[j]} ::
         (|w.log| <= i <= j < |w'.log| && good(Prior(|w.log|, w.store, w'.log, i))) ==>
           good(w'.log[j].before) && good(w'.log[j].after)
  }

  ghost predicate Always(w: World, w': World, good: Store -> bool) {
    good(w.store) && good(w'.store) && Throughout(w, w', good)
  }

  ghost predicate StepKeeps(w: World, w': World, good: Store -> bool)
    requires |w.log| <= |w'.log|
  {
    forall i: nat {:trigger Prior(|w.log|, w.store, w'.log, i)} ::
      (|w.log| <= i < |w'.log| && good(Prior(|w.log|, w.store, w'.log, i))) ==>
        good(w'.log[i].before) && good(w'.log[i].after)
  }

  lemma PersistsFrom(log: seq<Entry>, start: nat, first: Store, good: Store -> bool, i: nat)
    requires start <= i <= |log| && good(Prior(start, first, log, i))
    requires forall k: nat {:trigger Prior(start, first, log, k)} ::
               start <= k < |log| && good(Prior(start, first, log, k)) ==> good(log[k].before) && good(log[k].after)
    ensures forall j :: i <= j < |log| ==> good(log[j].before) && good(log[j].after)
    ensures good(Prior(start, first, log, |log|))
  {
    forall k: nat | i <= k < |log| && good(Prior(i, Prior(start, first, log, i), log, k))
      ensures good(log[k].before) && good(log[k].after)
    {
      assert Prior(i, Prior(start, first, log, i), log, k) == Prior(start, first, log, k);
    }
    Kept(i, Prior(start, first, log, i), log, good, |log|);
  }

  lemma KeptPersists(env: Env, w: World, w': World, good: Store -> bool)
    requires Reached(env, w, w') && StepKeeps(w, w', good)
    ensures Persists(w, w', good)
  {
    forall i: nat | |w.log| <= i <= |w'.log| && good(Prior(|w.log|, w.store, w'.log, i))
      ensures forall j :: i <= j < |w'.log| ==> good(w'.log[j].before) && good(w'.log[j].after)
      ensures good(w'.store)
    {
      PersistsFrom(w'.log, |w.log|, w.store, good, i);
    }
    assert Prior(|w.log|, w.store, w'.log, |w.log|) == w.store;
  }

  lemma PersistsThenAlways(env: Env, a: World, b: World, c: World, good: Store -> bool)
    requires Reached(env, a, b) && Reached(env, b, c) && Persists(a, b, good) && Always(b, c, good)
    ensures a.log <= c.log && Persists(a, c, good)
  {
    ReachedThrough(env, a, b, c);
    forall i, j | |a.log| <= i <= j < |c.log| && good(Prior(|a.log|, a.store, c.log, i))
      ensures good(c.log[j].before) && good(c.log[j].after)
    {
      if j < |b.log| {
        assert c.log[j] == b.log[j];
        assert Prior(|a.log|, a.store, c.log, i) == Prior(|a.log|, a.store, b.log, i);
      }
    }
  }

  lemma NotRemoved(env: Env, w: World, w': World, scope: Scope, key: Key)
    requires Stretch(env, w, w', scope) && NeverRemoved(env, key) && key !in scope.drops
    ensures NobodyRemoves(env, w, w', key)
  {
    forall i | |w.log| <= i < |w'.log| ensures !Removes(env(i).others, key) && !Deletes(w'.log[i], key) {
      assert Within(scope, w'.log[i].what);
    }
  }

  lemma NotInserted(env: Env, w: World, w': World, scope: Scope, key: Key)
    requires Stretch(env, w, w', scope) && NeverInserted(env, key) && key !in scope.writes
    ensures NobodyInserts(env, w, w', key)
  {
    forall i | |w.log| <= i < |w'.log| ensures !Inserts(env(i).others, key) && !Creates(w'.log[i], key) {
      assert Within(scope, w'.log[i].what);
    }
  }

  ghost function Either(a: Key, b: Key): Store -> bool { (s: Store) => a in s.objects || b in s.objects }

  ghost function NotBoth(a: Key, b: Key): Store -> bool { (s: Store) => !(a in s.objects && b in s.objects) }

  /** While neither is deleted, one of the two stays. */
  lemma EitherPersists(env: Env, w: World, w': World, scope: Scope, a: Key, b: Key)
    requires Stretch(env, w, w', scope) && NeverRemoved(env, a) && NeverRemoved(env, b)
    requires a !in scope.drops && b !in scope.drops
    ensures Persists(w, w', Either(a, b))
  {
    NotRemoved(env, w, w', scope, a);
    NotRemoved(env, w, w', scope, b);
    forall i: nat | |w.log| <= i < |w'.log| && Either(a, b)(Prior(|w.log|, w.store, w'.log, i))
      ensures Either(a, b)(w'.log[i].before) && Either(a, b)(w'.log[i].after)
    {
      StepKey(env, w, w', a, i);
      StepKey(env, w, w', b, i);
    }
    KeptPersists(env, w, w', Either(a, b));
  }

  lemma HeldAlways(env: Env, w: World, w': World, scope: Scope, a: Key, b: Key)
    requires Stretch(env, w, w', scope) && NeverRemoved(env, b) && b !in scope.drops && b in w.store.objects
    ensures Always(w, w', Either(a, b)) && b in w'.store.objects
  {
    NotRemoved(env, w, w', scope, b);
    StaysPresent(env, w, w', b);
    forall i | |w.log| <= i < |w'.log| ensures Either(a, b)(w'.log[i].before) && Either(a, b)(w'.log[i].after) {
      assert Holding(b)(w'.log[i].before) && Holding(b)(w'.log[i].after);
    }
  }

  lemma AbsentAlways(env: Env, w: World, w': World, scope: Scope, a: Key, b: Key)
    requires Stretch(env, w, w', scope) && NeverInserted(env, a) && a !in scope.writes && a !in w.store.objects
    ensures a !in w'.store.objects
    ensures Always(w, w', NotBoth(a, b)) && Always(w, w', NotBoth(b, a))
  {
    NotInserted(env, w, w', scope, a);
    StaysAbsent(env, w, w', a);
    forall i | |w.log| <= i < |w'.log|
      ensures NotBoth(a, b)(w'.log[i].before) && NotBoth(a, b)(w'.log[i].after)
      ensures NotBoth(b, a)(w'.log[i].before) && NotBoth(b, a)(w'.log[i].after)
    {
      assert Lacking(a)(w'.log[i].before) && Lacking(a)(w'.log[i].after);
    }
  }

  // ------------------------------------------------------------ plans in two

  /** The rest of an upsert from some point of its writes on. */
  ghost function Rest(env: Env, d: Setup, evt: ChangeEvent, writes: seq<Action>, w: World): (World, Option<Error>)
    requires ProperKeys(d)
  {
    Finish(env, d, evt, Run(env, d, evt, writes, w))
  }

  lemma RestStretch(env: Env, d: Setup, evt: ChangeEvent, writes: seq<Action>, scope: Scope, w: World)
    requires Proper(env, d) && Covers(d, evt, writes, scope)
    ensures Stretch(env, w, Rest(env, d, evt, writes, w).0, Speaking(scope))
  {
    var run := Run(env, d, evt, writes, w);
    RunStretch(env, d, evt, writes, w, scope);
    SaysNothing(env, scope, w, run.0);
    var said := FinishEnds(env, d, evt, writes, scope, run);
    StretchThrough(env, w, run.0, Finish(env, d, evt, run).0, Speaking(scope));
  }

  /** An upsert either stops within the first part of its writes, or completes that
    * part and goes on with the rest. */
  lemma UpsertSplits(env: Env, d: Setup, evt: ChangeEvent, p: seq<Action>, q: seq<Action>, scope: Scope, w: World)
    returns (mid: World, ended: bool)
    requires Proper(env, d) && WritePlan(d, evt) == p + q && Covers(d, evt, p, scope)
    ensures Run(env, d, evt, p, Publish(env, w, Queued).0).0 == mid
    ensures ended <==> Run(env, d, evt, p, Publish(env, w, Queued).0).1.Stopped?
    ensures ended ==> Stretch(env, w, Upsert(env, d, evt, w).0, Speaking(scope)) && Upsert(env, d, evt, w).1.Some?
    ensures !ended ==> Stretch(env, w, mid, Speaking(scope)) && Upsert(env, d, evt, w) == Rest(env, d, evt, q, mid)
  {
    var w1 := Publish(env, w, Queued).0;
    var (wp, halt) := Run(env, d, evt, p, w1);
    UpsertInParts(env, d, evt, p + q, w);
    RunThrough(env, d, evt, p, q, w1);
    mid, ended := wp, halt.Stopped?;
    if ended { TraceOf(env, d, evt, p, scope, w); } else { OpeningSays(env, d, evt, p, scope, w); }
  }

  // ---------------------------------------------------- the serving object

  function FrontPlan(): seq<Action> { [EnsureWeights] + [WriteStorm] }

  function MiddlePlan(d: Setup): seq<Action> { if d.gang then [WriteGroup, DropDeployment] else [DropDeployment] }

  function TailPlan(d: Setup, evt: ChangeEvent): seq<Action> { ExposePlan(d) + ScalePlan(d, evt) }

  lemma Regroup(a: seq<Action>, b: seq<Action>, c: seq<Action>, d: seq<Action>, e: seq<Action>)
    ensures a + (b + c) + d + e == (a + b) + (c + (d + e))
  {
  }

  lemma DynamicPlan(d: Setup, evt: ChangeEvent)
    requires d.dynamic
    ensures WritePlan(d, evt) == FrontPlan() + (MiddlePlan(d) + TailPlan(d, evt))
  {
    var serve, middle, expose, scale := ServePlan(d), MiddlePlan(d), ExposePlan(d), ScalePlan(d, evt);
    assert serve == [WriteStorm] + middle;
    Regroup([EnsureWeights], [WriteStorm], middle, expose, scale);
    assert [EnsureWeights] + serve + expose + scale == ([EnsureWeights] + [WriteStorm]) + (middle + (expose + scale));
    assert [EnsureWeights] + [WriteStorm] == FrontPlan();
    assert WritePlan(d, evt) == [EnsureWeights] + serve + expose + scale;
    assert TailPlan(d, evt) == expose + scale;
    assert WritePlan(d, evt) == FrontPlan() + (middle + (expose + scale));
  }

  /** Before the storm is written: nothing that serves may be deleted. */
  function FrontScope(d: Setup, evt: ChangeEvent): Scope {
    Scope({d.weightsKey, StormKey(evt)}, {ScalerKey(evt)}, {})
  }

  /** After the old Deployment is deleted: it is not written again. */
  function TailScope(d: Setup, evt: ChangeEvent): Scope {
    Scope({StormKey(evt), ServiceKey(evt), ScalerKey(evt), d.grantKey, d.routeKey(evt), d.claimKey(evt)},
          {HPAKey(evt), ScalerKey(evt)}, {})
  }

  lemma FrontCovered(d: Setup, evt: ChangeEvent)
    ensures Covers(d, evt, FrontPlan(), FrontScope(d, evt))
  {
  }

  predicate TailAction(a: Action) {
    match a
    case WriteService | WriteRoute | WriteClaim | DropHPA | WriteScaler | DropScaler | PinStorm => true
    case _ => false
  }

  lemma TailCovered(d: Setup, evt: ChangeEvent, tail: seq<Action>)
    requires d.dynamic && tail == TailPlan(d, evt)
    ensures Covers(d, evt, tail, TailScope(d, evt))
  {
    forall a | a in tail ensures Narrower(ScopeOf(d, evt, a), TailScope(d, evt)) {
      assert a in ExposePlan(d) || a in ScalePlan(d, evt);
      assert TailAction(a);
    }
  }

  lemma RestCovered(d: Setup, evt: ChangeEvent, rest: seq<Action>)
    requires d.dynamic && rest == MiddlePlan(d) + TailPlan(d, evt)
    ensures Covers(d, evt, rest, UpsertScope(d, evt))
  {
    DynamicPlan(d, evt);
    forall a | a in rest ensures Narrower(ScopeOf(d, evt, a), UpsertScope(d, evt)) {
      assert a in FrontPlan() + rest;
      PlannedActions(d, evt, a);
      UpsertingScope(d, evt, a);
    }
    UpsertingScope(d, evt, DropScaler);
  }

  lemma StormWritten(env: Env, d: Setup, evt: ChangeEvent, w: World)
    requires ProperKeys(d)
    ensures var (w', err) := Do(env, d, evt, WriteStorm, w); err.None? ==> StormKey(evt) in w'.store.objects
  {
    ApplyStormStretch(env, d, w, evt);
    assert Do(env, d, evt, WriteStorm, w) == ApplyStorm(env, d, w, evt);
  }

  lemma WritesStormLast(env: Env, d: Setup, evt: ChangeEvent, front: seq<Action>, w: World)
    requires ProperKeys(d)
    ensures var (mid, halt) := Run(env, d, evt, front + [WriteStorm], w);
        halt.Completed? ==> StormKey(evt) in mid.store.objects
  {
    RunThrough(env, d, evt, front, [WriteStorm], w);
    var w1 := Run(env, d, evt, front, w).0;
    RunOne(env, d, evt, WriteStorm, w1);
    StormWritten(env, d, evt, w1);
    var (w2, err) := Do(env, d, evt, WriteStorm, w1);
    assert Run(env, d, evt, [WriteStorm], w1).0 == w2;
    assert Run(env, d, evt, [WriteStorm], w1).1.Completed? <==> err.None?;
  }

  lemma ServingAround(
    env: Env, d: Setup, evt: ChangeEvent, front: seq<Action>, rest: seq<Action>, before: Scope, after: Scope, w: World)
    requires Proper(env, d) && NeverRemoved(env, DeploymentKey(evt)) && NeverRemoved(env, StormKey(evt))
    requires WritePlan(d, evt) == front + [WriteStorm] + rest
    requires Covers(d, evt, front + [WriteStorm], before) && Covers(d, evt, rest, after)
    requires DeploymentKey(evt) !in before.drops && StormKey(evt) !in before.drops && StormKey(evt) !in after.drops
    ensures var w' := Upsert(env, d, evt, w).0;
            w.log <= w'.log && Persists(w, w', Either(DeploymentKey(evt), StormKey(evt)))
  {
    var p := front + [WriteStorm];
    var mid, ended := UpsertSplits(env, d, evt, p, rest, before, w);
    var w' := Upsert(env, d, evt, w).0;
    if ended {
      EitherPersists(env, w, w', Speaking(before), DeploymentKey(evt), StormKey(evt));
    } else {
      EitherPersists(env, w, mid, Speaking(before), DeploymentKey(evt), StormKey(evt));
      WritesStormLast(env, d, evt, front, Publish(env, w, Queued).0);
      RestStretch(env, d, evt, rest, after, mid);
      HeldAlways(env, mid, w', Speaking(after), DeploymentKey(evt), StormKey(evt));
      PersistsThenAlways(env, w, mid, w', Either(DeploymentKey(evt), StormKey(evt)));
    }
  }

  /** The writes around the storm's and around the old Deployment's deletion, with what
    * each part may touch. */
  lemma PlanAroundStorm(d: Setup, evt: ChangeEvent)
    returns (front: seq<Action>, tail: seq<Action>, before: Scope, after: Scope, last: Scope)
    requires ProperKeys(d) && d.dynamic
    ensures WritePlan(d, evt) == [EnsureWeights] + [WriteStorm] + (front + [DropDeployment] + tail)
    ensures Covers(d, evt, [EnsureWeights] + [WriteStorm], before)
    ensures Covers(d, evt, front + [DropDeployment] + tail, after) && Covers(d, evt, tail, last)
    ensures DeploymentKey(evt) !in before.drops && StormKey(evt) !in before.drops
    ensures StormKey(evt) !in after.drops && DeploymentKey(evt) !in last.writes
  {
    front := if d.gang then [WriteGroup] else [];
    tail := TailPlan(d, evt);
    before, after, last := FrontScope(d, evt), UpsertScope(d, evt), TailScope(d, evt);
    assert MiddlePlan(d) == front + [DropDeployment];
    DynamicPlan(d, evt);
    FrontCovered(d, evt);
    RestCovered(d, evt, front + [DropDeployment] + tail);
    TailCovered(d, evt, tail);
  }

  /** Once a Deployment or a StormService of the service exists, at least one of the
    * two exists in every later state of the upsert, whichever step fails. */
  lemma ServingPersists(env: Env, d: Setup, evt: ChangeEvent, w: World)
    requires Proper(env, d) && d.dynamic
    requires NeverRemoved(env, DeploymentKey(evt)) && NeverRemoved(env, StormKey(evt))
    ensures var w' := Upsert(env, d, evt, w).0;
            w.log <= w'.log && Persists(w, w', Either(DeploymentKey(evt), StormKey(evt)))
  {
    var front, tail, before, after, last := PlanAroundStorm(d, evt);
    ServingAround(env, d, evt, [EnsureWeights], front + [DropDeployment] + tail, before, after, w);
  }

  lemma PersistsThrough(env: Env, a: World, b: World, c: World, good: Store -> bool)
    requires Reached(env, a, b) && Reached(env, b, c) && Persists(a, b, good) && Persists(b, c, good)
    ensures Reached(env, a, c) && Persists(a, c, good)
  {
    ReachedThrough(env, a, b, c);
    forall i, j | |a.log| <= i <= j < |c.log| && good(Prior(|a.log|, a.store, c.log, i))
      ensures good(c.log[j].before) && good(c.log[j].after)
    {
      if i <= |b.log| { assert Prior(|a.log|, a.store, c.log, i) == Prior(|a.log|, a.store, b.log, i); }
      if j < |b.log| {
        assert c.log[j] == b.log[j];
      } else if i <= |b.log| {
        assert good(b.store);
        assert Prior(|b.log|, b.store, c.log, |b.log|) == b.store;
      } else {
        assert Prior(|b.log|, b.store, c.log, i) == Prior(|a.log|, a.store, c.log, i);
      }
    }
  }

  lemma OtherDrops(d: Setup, svc: ChangeEvent, evt: ChangeEvent)
    requires ProperKeys(d) && evt.name != svc.name
    ensures DeploymentKey(svc) !in UpsertScope(d, evt).drops && StormKey(svc) !in UpsertScope(d, evt).drops
    ensures DeploymentKey(svc) !in TeardownScope(d, evt).drops && StormKey(svc) !in TeardownScope(d, evt).drops
  {
  }

  predicate Undeploys(svc: ChangeEvent, msg: Message) { TaskOf(msg) == Undeploy && msg.evt.name == svc.name }

  lemma HandleServes(env: Env, d: Setup, svc: ChangeEvent, msg: Message, w: World)
    requires Proper(env, d) && d.dynamic && !Undeploys(svc, msg)
    requires NeverRemoved(env, DeploymentKey(svc)) && NeverRemoved(env, StormKey(svc))
    ensures var w' := Handle(env, d, msg, w).0;
            Reached(env, w, w') && Persists(w, w', Either(DeploymentKey(svc), StormKey(svc)))
  {
    var w' := Handle(env, d, msg, w).0;
    HandleReaches(env, d, msg, w);
    match TaskOf(msg)
    case Invalid =>
    case Undeploy =>
      OtherDrops(d, svc, msg.evt);
      TeardownStretch(env, d, msg.evt, w);
      EitherPersists(env, w, w', TeardownScope(d, msg.evt), DeploymentKey(svc), StormKey(svc));
    case Deploy =>
      if msg.evt.name == svc.name {
        ServingPersists(env, d, msg.evt, w);
      } else {
        OtherDrops(d, svc, msg.evt);
        UpsertTrace(env, d, msg.evt, w);
        EitherPersists(env, w, w', Speaking(UpsertScope(d, msg.evt)), DeploymentKey(svc), StormKey(svc));
      }
  }

  /** And so through any messages, about this service and others, until one deletes the
    * service: once it has a serving object, every later state has one. */
  lemma {:induction false} ServedUntilDeleted(env: Env, d: Setup, svc: ChangeEvent, msgs: seq<Message>, w: World)
    requires Proper(env, d) && d.dynamic && forall msg :: msg in msgs ==> !Undeploys(svc, msg)
    requires NeverRemoved(env, DeploymentKey(svc)) && NeverRemoved(env, StormKey(svc))
    ensures var w' := HandleAll(env, d, msgs, w);
            Reached(env, w, w') && Persists(w, w', Either(DeploymentKey(svc), StormKey(svc)))
  {
    if msgs == [] {
      StretchStays(env, w, NOTHING);
    } else {
      var n := |msgs| - 1;
      var before := HandleAll(env, d, msgs[..n], w);
      ServedUntilDeleted(env, d, svc, msgs[..n], w);
      HandleServes(env, d, svc, msgs[n], before);
      PersistsThrough(env, w, before, Handle(env, d, msgs[n], before).0, Either(DeploymentKey(svc), StormKey(svc)));
    }
  }

  lemma DropsDeploymentLast(env: Env, d: Setup, evt: ChangeEvent, front: seq<Action>, w: World)
    requires ProperKeys(d)
    ensures var (mid, halt) := Run(env, d, evt, front + [DropDeployment], w);
        halt.Completed? ==> DeploymentKey(evt) !in mid.store.objects
  {
    RunThrough(env, d, evt, front, [DropDeployment], w);
    var w1 := Run(env, d, evt, front, w).0;
    RunOne(env, d, evt, DropDeployment, w1);
    DropStretch(env, w1, DeploymentKey(evt));
  }

  /** What the rest of a successful upsert leaves, once the storm is there. */
  lemma RestMigrates(
    env: Env, d: Setup, evt: ChangeEvent, front: seq<Action>, tail: seq<Action>, after: Scope, last: Scope, mid: World)
    requires Proper(env, d) && NeverInserted(env, DeploymentKey(evt)) && NeverRemoved(env, StormKey(evt))
    requires Covers(d, evt, front + [DropDeployment] + tail, after) && Covers(d, evt, tail, last)
    requires StormKey(evt) !in after.drops && DeploymentKey(evt) !in last.writes
    requires StormKey(evt) in mid.store.objects
    ensures var (w', err) := Rest(env, d, evt, front + [DropDeployment] + tail, mid);
            err.None? ==> StormKey(evt) in w'.store.objects && DeploymentKey(evt) !in w'.store.objects
  {
    var middle := front + [DropDeployment];
    var (w', err) := Rest(env, d, evt, middle + tail, mid);
    RestStretch(env, d, evt, middle + tail, after, mid);
    HeldAlways(env, mid, w', Speaking(after), DeploymentKey(evt), StormKey(evt));
    RunThrough(env, d, evt, middle, tail, mid);
    var (dropped, halt) := Run(env, d, evt, middle, mid);
    DropsDeploymentLast(env, d, evt, front, mid);
    RestStretch(env, d, evt, tail, last, dropped);
    if halt.Completed? {
      AbsentAlways(env, dropped, w', Speaking(last), DeploymentKey(evt), StormKey(evt));
    }
  }

  /** A successful upsert ends with the StormService and without a Deployment. */
  lemma SuccessIsMigrated(env: Env, d: Setup, evt: ChangeEvent, w: World)
    requires Proper(env, d) && d.dynamic
    requires NeverInserted(env, DeploymentKey(evt)) && NeverRemoved(env, StormKey(evt))
    ensures var (w', err) := Upsert(env, d, evt, w);
            err.None? ==> StormKey(evt) in w'.store.objects && DeploymentKey(evt) !in w'.store.objects
  {
    var front, tail, before, after, last := PlanAroundStorm(d, evt);
    var rest := front + [DropDeployment] + tail;
    var mid, ended := UpsertSplits(env, d, evt, [EnsureWeights] + [WriteStorm], rest, before, w);
    if !ended {
      WritesStormLast(env, d, evt, [EnsureWeights], Publish(env, w, Queued).0);
      RestMigrates(env, d, evt, front, tail, after, last, mid);
    }
  }

  // --------------------------------------------------------- the autoscalers

  /** Everything up to the deletion of the old autoscaler. */
  function UnscaledPlan(d: Setup): seq<Action> { [EnsureWeights] + ServePlan(d) + ExposePlan(d) + [DropHPA] }

  function ScalingPlan(d: Setup, evt: ChangeEvent): seq<Action> {
    if Scales(evt) then [WriteScaler] else [DropScaler, if d.dynamic then PinStorm else PinDeployment]
  }

  lemma PlanAroundHPA(d: Setup, evt: ChangeEvent)
    ensures WritePlan(d, evt) == UnscaledPlan(d) + ScalingPlan(d, evt)
  {
    var p := [EnsureWeights] + ServePlan(d) + ExposePlan(d);
    assert ScalePlan(d, evt) == [DropHPA] + ScalingPlan(d, evt);
    assert p + ([DropHPA] + ScalingPlan(d, evt)) == (p + [DropHPA]) + ScalingPlan(d, evt);
  }

  predicate UnscaledAction(a: Action) {
    match a
    case EnsureWeights | WriteStorm | WriteGroup | WriteDeployment | WriteService | WriteRoute | WriteClaim => true
    case DropDeployment | DropHPA => true
    case _ => false
  }

  /** Neither autoscaler may be written. */
  function UnscaledScope(d: Setup, evt: ChangeEvent): Scope {
    Scope({d.weightsKey, StormKey(evt), GroupKey(evt), DeploymentKey(evt), ServiceKey(evt),
           d.grantKey, d.routeKey(evt), d.claimKey(evt)},
          {DeploymentKey(evt), HPAKey(evt), ScalerKey(evt)}, {})
  }

  lemma UnscaledCovered(d: Setup, evt: ChangeEvent, plan: seq<Action>)
    requires plan == UnscaledPlan(d)
    ensures Covers(d, evt, plan, UnscaledScope(d, evt))
  {
    forall a | a in plan ensures Narrower(ScopeOf(d, evt, a), UnscaledScope(d, evt)) {
      assert a == EnsureWeights || a in ServePlan(d) || a in ExposePlan(d) || a == DropHPA;
      assert UnscaledAction(a);
    }
  }

  lemma ScalingCovered(d: Setup, evt: ChangeEvent, plan: seq<Action>)
    requires plan == ScalingPlan(d, evt)
    ensures Covers(d, evt, plan, UpsertScope(d, evt))
  {
    forall a | a in plan ensures Narrower(ScopeOf(d, evt, a), UpsertScope(d, evt)) {
      assert Upserts(a);
      UpsertingScope(d, evt, a);
    }
    UpsertingScope(d, evt, DropScaler);
  }

  lemma DropsLast(env: Env, d: Setup, evt: ChangeEvent, front: seq<Action>, w: World)
    requires ProperKeys(d)
    ensures var (mid, halt) := Run(env, d, evt, front + [DropHPA], w);
        halt.Completed? ==> HPAKey(evt) !in mid.store.objects
  {
    RunThrough(env, d, evt, front, [DropHPA], w);
    var w1 := Run(env, d, evt, front, w).0;
    RunOne(env, d, evt, DropHPA, w1);
    DropStretch(env, w1, HPAKey(evt));
  }

  /** While neither autoscaler is created, at most one of them stays at most one. */
  lemma StaysNotBoth(env: Env, w: World, w': World, scope: Scope, a: Key, b: Key)
    requires Stretch(env, w, w', scope) && NeverInserted(env, a) && NeverInserted(env, b)
    requires a !in scope.writes && b !in scope.writes && NotBoth(a, b)(w.store)
    ensures Always(w, w', NotBoth(a, b))
  {
    if a !in w.store.objects {
      AbsentAlways(env, w, w', scope, a, b);
    } else {
      AbsentAlways(env, w, w', scope, b, a);
    }
  }

  lemma AlwaysThrough(env: Env, a: World, b: World, c: World, good: Store -> bool)
    requires Reached(env, a, b) && Reached(env, b, c) && Always(a, b, good) && Always(b, c, good)
    ensures Always(a, c, good)
  {
    forall i | |a.log| <= i < |c.log| ensures good(c.log[i].before) && good(c.log[i].after) {
      if i < |b.log| { assert c.log[i] == b.log[i]; }
    }
  }

  lemma NeverBothAround(
    env: Env, d: Setup, evt: ChangeEvent, p: seq<Action>, q: seq<Action>, unscaled: Scope, scope: Scope, w: World)
    requires Proper(env, d) && NeverInserted(env, HPAKey(evt)) && NeverInserted(env, ScalerKey(evt))
    requires NotBoth(HPAKey(evt), ScalerKey(evt))(w.store)
    requires WritePlan(d, evt) == p + q && Covers(d, evt, p, unscaled) && Covers(d, evt, q, scope)
    requires HPAKey(evt) !in unscaled.writes && ScalerKey(evt) !in unscaled.writes && HPAKey(evt) !in scope.writes
    requires var (mid, halt) := Run(env, d, evt, p, Publish(env, w, Queued).0);
        halt.Completed? ==> HPAKey(evt) !in mid.store.objects
    ensures Always(w, Upsert(env, d, evt, w).0, NotBoth(HPAKey(evt), ScalerKey(evt)))
  {
    var mid, ended := UpsertSplits(env, d, evt, p, q, unscaled, w);
    var w' := Upsert(env, d, evt, w).0;
    if ended {
      StaysNotBoth(env, w, w', Speaking(unscaled), HPAKey(evt), ScalerKey(evt));
    } else {
      StaysNotBoth(env, w, mid, Speaking(unscaled), HPAKey(evt), ScalerKey(evt));
      RestStretch(env, d, evt, q, scope, mid);
      AbsentAlways(env, mid, w', Speaking(scope), HPAKey(evt), ScalerKey(evt));
      AlwaysThrough(env, w, mid, w', NotBoth(HPAKey(evt), ScalerKey(evt)));
    }
  }

  /** The writes around the deletion of the old autoscaler, with what each part may
    * touch: neither autoscaler before it, and not the old one after it. */
  lemma ScalingInTwo(d: Setup, evt: ChangeEvent)
    returns (front: seq<Action>, q: seq<Action>, unscaled: Scope, scope: Scope)
    requires ProperKeys(d)
    ensures WritePlan(d, evt) == front + [DropHPA] + q
    ensures Covers(d, evt, front + [DropHPA], unscaled) && Covers(d, evt, q, scope)
    ensures HPAKey(evt) !in unscaled.writes && ScalerKey(evt) !in unscaled.writes && HPAKey(evt) !in scope.writes
  {
    front, q := [EnsureWeights] + ServePlan(d) + ExposePlan(d), ScalingPlan(d, evt);
    unscaled, scope := UnscaledScope(d, evt), UpsertScope(d, evt);
    PlanAroundHPA(d, evt);
    UnscaledCovered(d, evt, front + [DropHPA]);
    ScalingCovered(d, evt, q);
  }

  /** From a state without both, no state of an upsert holds both a Kubernetes
    * autoscaler and an AIBrix one for the service. */
  lemma UpsertNeverBoth(env: Env, d: Setup, evt: ChangeEvent, w: World)
    requires Proper(env, d) && NeverInserted(env, HPAKey(evt)) && NeverInserted(env, ScalerKey(evt))
    requires NotBoth(HPAKey(evt), ScalerKey(evt))(w.store)
    ensures Always(w, Upsert(env, d, evt, w).0, NotBoth(HPAKey(evt), ScalerKey(evt)))
  {
    var front, q, unscaled, scope := ScalingInTwo(d, evt);
    DropsLast(env, d, evt, front, Publish(env, w, Queued).0);
    NeverBothAround(env, d, evt, front + [DropHPA], q, unscaled, scope, w);
  }

  lemma OtherNames(a: ChangeEvent, b: ChangeEvent)
    requires a.name != b.name
    ensures ScalerKey(a) != ScalerKey(b)
  {
    assert ("hpa-" + a.name)[4..] == a.name && ("hpa-" + b.name)[4..] == b.name;
  }

  /** An upsert of another service writes neither of this one's autoscalers. */
  lemma OtherWrites(d: Setup, svc: ChangeEvent, evt: ChangeEvent)
    requires ProperKeys(d) && evt.name != svc.name
    ensures HPAKey(svc) !in UpsertScope(d, evt).writes && ScalerKey(svc) !in UpsertScope(d, evt).writes
  {
    OtherNames(evt, svc);
  }

  lemma OtherUpsertNeverBoth(env: Env, d: Setup, svc: ChangeEvent, evt: ChangeEvent, w: World)
    requires Proper(env, d) && NeverInserted(env, HPAKey(svc)) && NeverInserted(env, ScalerKey(svc))
        && evt.name != svc.name
    requires NotBoth(HPAKey(svc), ScalerKey(svc))(w.store)
    ensures Always(w, Upsert(env, d, evt, w).0, NotBoth(HPAKey(svc), ScalerKey(svc)))
  {
    OtherWrites(d, svc, evt);
    UpsertTrace(env, d, evt, w);
    StaysNotBoth(env, w, Upsert(env, d, evt, w).0, Speaking(UpsertScope(d, evt)), HPAKey(svc), ScalerKey(svc));
  }

  lemma TeardownNeverBoth(env: Env, d: Setup, svc: ChangeEvent, evt: ChangeEvent, w: World)
    requires Proper(env, d) && NeverInserted(env, HPAKey(svc)) && NeverInserted(env, ScalerKey(svc))
    requires NotBoth(HPAKey(svc), ScalerKey(svc))(w.store)
    ensures Always(w, Teardown(env, d, evt, w).0, NotBoth(HPAKey(svc), ScalerKey(svc)))
  {
    TeardownStretch(env, d, evt, w);
    StaysNotBoth(env, w, Teardown(env, d, evt, w).0, TeardownScope(d, evt), HPAKey(svc), ScalerKey(svc));
  }

  lemma SameKeys(a: ChangeEvent, b: ChangeEvent)
    requires a.name == b.name
    ensures HPAKey(a) == HPAKey(b) && ScalerKey(a) == ScalerKey(b)
  {
  }

  lemma HandleReaches(env: Env, d: Setup, msg: Message, w: World)
    requires Proper(env, d)
    ensures Reached(env, w, Handle(env, d, msg, w).0)
  {
    match TaskOf(msg)
    case Invalid => StretchStays(env, w, NOTHING);
    case Undeploy => TeardownStretch(env, d, msg.evt, w);
    case Deploy => UpsertTrace(env, d, msg.evt, w);
  }

  lemma HandleNeverBoth(env: Env, d: Setup, svc: ChangeEvent, msg: Message, w: World)
    requires Proper(env, d) && NeverInserted(env, HPAKey(svc)) && NeverInserted(env, ScalerKey(svc))
    requires NotBoth(HPAKey(svc), ScalerKey(svc))(w.store)
    ensures Always(w, Handle(env, d, msg, w).0, NotBoth(HPAKey(svc), ScalerKey(svc)))
  {
    match TaskOf(msg)
    case Invalid =>
    case Undeploy => TeardownNeverBoth(env, d, svc, msg.evt, w);
    case Deploy =>
      if msg.evt.name == svc.name {
        SameKeys(msg.evt, svc);
        UpsertNeverBoth(env, d, msg.evt, w);
      } else {
        OtherUpsertNeverBoth(env, d, svc, msg.evt, w);
      }
  }

  /** No state reached by any messages, about this service or others, holds both
    * autoscalers for the service. */
  lemma {:induction false} NeverBothAutoscalers(env: Env, d: Setup, svc: ChangeEvent, msgs: seq<Message>, w: World)
    requires Proper(env, d) && NeverInserted(env, HPAKey(svc)) && NeverInserted(env, ScalerKey(svc))
    requires NotBoth(HPAKey(svc), ScalerKey(svc))(w.store)
    ensures Reached(env, w, HandleAll(env, d, msgs, w))
    ensures Always(w, HandleAll(env, d, msgs, w), NotBoth(HPAKey(svc), ScalerKey(svc)))
  {
    if msgs == [] {
      StretchStays(env, w, NOTHING);
    } else {
      var n := |msgs| - 1;
      var before := HandleAll(env, d, msgs[..n], w);
      NeverBothAutoscalers(env, d, svc, msgs[..n], w);
      HandleReaches(env, d, msgs[n], before);
      HandleNeverBoth(env, d, svc, msgs[n], before);
      var after := Handle(env, d, msgs[n], before).0;
      ReachedThrough(env, w, before, after);
      AlwaysThrough(env, w, before, after, NotBoth(HPAKey(svc), ScalerKey(svc)));
    }
  }
}

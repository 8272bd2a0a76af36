/** What each step of the reconcile protocol may do, and what its success leaves. */
module Steps {
  import opened Prelude
  import opened Errors
  import opened Events
  import opened Objects
  import opened Cluster
  import opened Optimistic
  import opened EngineReady
  import opened Reconcile

  /** What one step may write, delete and announce. */
  function ScopeOf(d: Setup, evt: ChangeEvent, a: Action): Scope {
    match a
    case Say(status) => Scope({}, {}, {status})
    case EnsureWeights => Scope({d.weightsKey}, {}, {})
    case WriteStorm => Scope({StormKey(evt)}, {}, {})
    case WriteGroup => Scope({GroupKey(evt)}, {}, {})
    case WriteDeployment => Scope({DeploymentKey(evt)}, {}, {})
    case WriteService => Scope({ServiceKey(evt)}, {}, {})
    case WriteRoute => Scope({d.grantKey, d.routeKey(evt)}, {}, {})
    case WriteClaim => Scope({d.claimKey(evt)}, {}, {})
    case WriteScaler => Scope({ScalerKey(evt)}, {}, {})
    case DropDeployment => Scope({}, {DeploymentKey(evt)}, {})
    case DropService => Scope({}, {ServiceKey(evt)}, {})
    case DropHPA => Scope({}, {HPAKey(evt)}, {})
    case DropStorm => Scope({}, {StormKey(evt)}, {})
    case DropClaim => Scope({}, {d.claimKey(evt)}, {})
    case DropRoute => Scope({}, {d.routeKey(evt)}, {})
    case DropScaler => Scope({}, {ScalerKey(evt)}, {})
    case DropGroup => Scope({}, {GroupKey(evt)}, {})
    case PinStorm => Scope({StormKey(evt)}, {}, {})
    case PinDeployment => Scope({DeploymentKey(evt)}, {}, {})
    case AwaitEngine => SAYS_STARTING
  }

  lemma DropStretch(env: Env, w: World, key: Key)
    ensures var (w', err) := Drop(env, w, key);
            Stretch(env, w, w', Scope({}, {key}, {})) && (err.None? ==> key !in w'.store.objects)
  {
    StretchCall(env, w, Delete(key), Scope({}, {key}, {}));
  }

  lemma CreateOrPatchStretch(env: Env, w: World, key: Key, content: Content, change: Content -> Content)
    ensures Stretch(env, w, CreateOrPatch(env, w, key, content, change).0, Scope({key}, {}, {}))
  {
    var scope := Scope({key}, {}, {});
    var (w1, made) := Call(env, w, Create(key, content));
    StretchCall(env, w, Create(key, content), scope);
    if made == Refused(AlreadyExists) {
      StretchCall(env, w1, Patch(key, change), scope);
      StretchThrough(env, w, w1, Call(env, w1, Patch(key, change)).0, scope);
    }
  }

  lemma EnsureStretch(env: Env, w: World, key: Key, content: Content)
    ensures Stretch(env, w, Ensure(env, w, key, content).0, Scope({key}, {}, {}))
  {
    var scope := Scope({key}, {}, {});
    var (w1, got) := Call(env, w, Get(key));
    StretchCall(env, w, Get(key), scope);
    if got == Refused(NotFound) {
      StretchCall(env, w1, Create(key, content), scope);
      StretchThrough(env, w, w1, Call(env, w1, Create(key, content)).0, scope);
    }
  }

  /** An existing claim is never written, not even one created just now by somebody
    * else; and only a failing call is an error, not losing that race. */
  lemma EnsureKeepsClaims(env: Env, w: World, key: Key, content: Content)
    ensures var (w', err) := Ensure(env, w, key, content);
            && (forall i ::
                  |w.log| <= i < |w'.log| && key in w'.log[i].before.objects ==> w'.log[i].after == w'.log[i].before)
            && (err.None? ==> key in w'.store.objects)
            && (err.Some? <==> env(|w.log|).fault || (key !in Begun(env, w).objects && env(|w.log| + 1).fault))
  {
    var (w1, got) := Call(env, w, Get(key));
    assert got == Refused(NotFound) ==> |w1.log| == |w.log| + 1;
  }

  lemma ApplyOnceStretch(env: Env, w: World, key: Key, content: Content)
    ensures var (w', err) := ApplyOnce(env, w, key, content);
            Stretch(env, w, w', Scope({key}, {}, {})) && (err.None? ==> Stores(w'.store, key, content))
  {
    AttemptStretch(env, w, key, content);
  }

  const NOTHING: Scope := Scope({}, {}, {})

  lemma PickForStretch(env: Env, d: Setup, w: World, evt: ChangeEvent)
    ensures Stretch(env, w, PickFor(env, d, w, evt).0, NOTHING)
  {
    var w1 := VendorKey(env, d, w).0;
    StretchNote(env, w, NodesListed, NOTHING);
    assert Stretch(env, w, w1, NOTHING) by { StretchStays(env, w, NOTHING); }
    StretchNote(env, w1, NodesListed, NOTHING);
    var w2 := CardKey(env, d, w1, evt.acceleratorType).0;
    assert Stretch(env, w1, w2, NOTHING) by { StretchStays(env, w1, NOTHING); }
    StretchThrough(env, w, w1, w2, NOTHING);
  }

  lemma {:induction false} PicksStretch(env: Env, d: Setup, w: World, evt: ChangeEvent, n: nat)
    ensures Stretch(env, w, Picks(env, d, w, evt, n).0, NOTHING)
  {
    if n == 0 {
      StretchStays(env, w, NOTHING);
    } else {
      var w1 := Picks(env, d, w, evt, n - 1).0;
      PicksStretch(env, d, w, evt, n - 1);
      PickForStretch(env, d, w1, evt);
      StretchThrough(env, w, w1, PickFor(env, d, w1, evt).0, NOTHING);
    }
  }

  lemma ApplyStormStretch(env: Env, d: Setup, w: World, evt: ChangeEvent)
    requires d.attempts >= 1
    ensures var (w', err) := ApplyStorm(env, d, w, evt);
            Stretch(env, w, w', Scope({StormKey(evt)}, {}, {})) && (err.None? ==> StormKey(evt) in w'.store.objects)
  {
    var scope := Scope({StormKey(evt)}, {}, {});
    var (w1, picks) := Picks(env, d, w, evt, d.roles(evt));
    PicksStretch(env, d, w, evt, d.roles(evt));
    StretchWidens(env, w, w1, NOTHING, scope);
    ApplyStretch(env, w1, StormKey(evt), d.storm(evt, picks), d.attempts, false);
    StretchThrough(env, w, w1, ApplyStorm(env, d, w, evt).0, scope);
  }

  lemma ApplyWorkloadStretch(env: Env, d: Setup, w: World, evt: ChangeEvent)
    ensures Stretch(env, w, ApplyWorkload(env, d, w, evt).0, Scope({DeploymentKey(evt)}, {}, {}))
  {
    var scope := Scope({DeploymentKey(evt)}, {}, {});
    var (w1, pick) := PickFor(env, d, w, evt);
    PickForStretch(env, d, w, evt);
    StretchWidens(env, w, w1, NOTHING, scope);
    CreateOrPatchStretch(env, w1, DeploymentKey(evt), d.workload(evt, pick), d.workloadPatch(evt, pick));
    StretchThrough(env, w, w1, ApplyWorkload(env, d, w, evt).0, scope);
  }

  lemma ApplyRouteStretch(env: Env, d: Setup, w: World, evt: ChangeEvent)
    ensures Stretch(env, w, ApplyRoute(env, d, w, evt), Scope({d.grantKey, d.routeKey(evt)}, {}, {}))
  {
    var scope := Scope({d.grantKey, d.routeKey(evt)}, {}, {});
    StretchStays(env, w, scope);
    if d.dynamic {
      var (w1, granted) := ApplyOnce(env, w, d.grantKey, d.grant);
      ApplyOnceStretch(env, w, d.grantKey, d.grant);
      StretchWidens(env, w, w1, Scope({d.grantKey}, {}, {}), scope);
      if granted.None? {
        var w2 := ApplyOnce(env, w1, d.routeKey(evt), d.route(evt)).0;
        ApplyOnceStretch(env, w1, d.routeKey(evt), d.route(evt));
        StretchWidens(env, w1, w2, Scope({d.routeKey(evt)}, {}, {}), scope);
        StretchThrough(env, w, w1, w2, scope);
      }
    }
  }

  ghost predicate Proper(env: Env, d: Setup) { ProperKeys(d) && Lawful(env, d.watch) }

  /** No step does anything outside its scope. */
  lemma DoStretch(env: Env, d: Setup, evt: ChangeEvent, a: Action, w: World)
    requires Proper(env, d)
    ensures Stretch(env, w, Do(env, d, evt, a, w).0, ScopeOf(d, evt, a))
  {
    StretchStays(env, w, ScopeOf(d, evt, a));
    match a
    case Say(status) =>
      StretchNote(env, w, Published(status, env(|w.log|).publishError.None?), ScopeOf(d, evt, a));
    case EnsureWeights => EnsureStretch(env, w, d.weightsKey, d.weights);
    case WriteStorm => ApplyStormStretch(env, d, w, evt);
    case WriteGroup => ApplyOnceStretch(env, w, GroupKey(evt), d.group(evt));
    case WriteDeployment => ApplyWorkloadStretch(env, d, w, evt);
    case WriteService => CreateOrPatchStretch(env, w, ServiceKey(evt), d.service(evt), d.servicePatch(evt));
    case WriteRoute => ApplyRouteStretch(env, d, w, evt);
    case WriteClaim => ApplyOnceStretch(env, w, d.claimKey(evt), d.claim(evt));
    case WriteScaler => ApplyStretch(env, w, ScalerKey(evt), d.scaler(evt), d.attempts, true);
    case DropDeployment => DropStretch(env, w, DeploymentKey(evt));
    case DropService => DropStretch(env, w, ServiceKey(evt));
    case DropHPA => DropStretch(env, w, HPAKey(evt));
    case DropStorm => DropStretch(env, w, StormKey(evt));
    case DropClaim => DropStretch(env, w, d.claimKey(evt));
    case DropRoute => DropStretch(env, w, d.routeKey(evt));
    case DropScaler => DropStretch(env, w, ScalerKey(evt));
    case DropGroup => DropStretch(env, w, GroupKey(evt));
    case PinStorm => StretchCall(env, w, Patch(StormKey(evt), d.pin(evt)), ScopeOf(d, evt, a));
    case PinDeployment => StretchCall(env, w, Patch(DeploymentKey(evt), d.pin(evt)), ScopeOf(d, evt, a));
    case AwaitEngine => var after, k := AwaitEnds(env, d.watch, w);
  }

  // ------------------------------------------------------------- whole plans

  lemma {:induction false} RunThrough(env: Env, d: Setup, evt: ChangeEvent, p: seq<Action>, q: seq<Action>, w: World)
    requires ProperKeys(d)
    ensures var (w1, halt) := Run(env, d, evt, p, w);
            Run(env, d, evt, p + q, w) == if halt.Completed? then Run(env, d, evt, q, w1) else (w1, halt)
  {
    if p == [] {
      assert p + q == q;
    } else {
      var (w1, err) := Do(env, d, evt, p[0], w);
      assert (p + q)[1..] == p[1..] + q;
      if err.None? { RunThrough(env, d, evt, p[1..], q, w1); }
    }
  }

  lemma RunOne(env: Env, d: Setup, evt: ChangeEvent, a: Action, w: World)
    requires ProperKeys(d)
    ensures var (w1, err) := Do(env, d, evt, a, w);
            Run(env, d, evt, [a], w) == (w1, if err.Some? then Stopped(a, err.value) else Completed)
  {
    assert [a][1..] == [];
  }

  ghost predicate AllWithin(d: Setup, evt: ChangeEvent, plan: seq<Action>, scope: Scope) {
    forall a :: a in plan ==> Narrower(ScopeOf(d, evt, a), scope)
  }

  /** A run stays within a scope that covers its steps. */
  lemma {:induction false} RunStretch(env: Env, d: Setup, evt: ChangeEvent, plan: seq<Action>, w: World, scope: Scope)
    requires Proper(env, d) && AllWithin(d, evt, plan, scope)
    ensures Stretch(env, w, Run(env, d, evt, plan, w).0, scope)
  {
    if plan == [] {
      StretchStays(env, w, scope);
    } else {
      var (w1, err) := Do(env, d, evt, plan[0], w);
      DoStretch(env, d, evt, plan[0], w);
      assert Narrower(ScopeOf(d, evt, plan[0]), scope);
      StretchWidens(env, w, w1, ScopeOf(d, evt, plan[0]), scope);
      if err.None? {
        RunStretch(env, d, evt, plan[1..], w1, scope);
        StretchThrough(env, w, w1, Run(env, d, evt, plan[1..], w1).0, scope);
      }
    }
  }

  /** A run in parts: the announcement, the writes, the wait, the conclusion. */
  lemma RunInParts(env: Env, d: Setup, evt: ChangeEvent, writes: seq<Action>, w: World)
    requires ProperKeys(d)
    ensures var w1 := Publish(env, w, Queued).0;
            var (w2, halt) := Run(env, d, evt, writes, w1);
            var (w3, err) := Await(d.watch, w2);
            Run(env, d, evt, [Say(Queued)] + writes + [AwaitEngine, Say(Running)], w)
            == if halt.Stopped? then (w2, halt)
               else if err.Some? then (w3, Stopped(AwaitEngine, err.value))
               else (Publish(env, w3, Running).0, Completed)
  {
    var w1 := Publish(env, w, Queued).0;
    var w2 := Run(env, d, evt, writes, w1).0;
    RunThrough(env, d, evt, [Say(Queued)] + writes, [AwaitEngine, Say(Running)], w);
    RunThrough(env, d, evt, [Say(Queued)], writes, w);
    RunOne(env, d, evt, Say(Queued), w);
    assert [AwaitEngine, Say(Running)] == [AwaitEngine] + [Say(Running)];
    RunThrough(env, d, evt, [AwaitEngine], [Say(Running)], w2);
    RunOne(env, d, evt, AwaitEngine, w2);
    RunOne(env, d, evt, Say(Running), Await(d.watch, w2).0);
  }

  ghost function Finish(env: Env, d: Setup, evt: ChangeEvent, run: (World, Halt)): (World, Option<Error>)
    requires ProperKeys(d)
  {
    if run.1.Stopped? then Conclude(env, d, evt, run.0, run.1)
    else
      var (w3, err) := Await(d.watch, run.0);
      if err.Some? then ReportFailure(env, w3, err.value) else (Publish(env, w3, Running).0, None)
  }

  lemma UpsertInParts(env: Env, d: Setup, evt: ChangeEvent, writes: seq<Action>, w: World)
    requires ProperKeys(d) && UpsertPlan(d, evt) == [Say(Queued)] + writes + [AwaitEngine, Say(Running)]
    ensures Upsert(env, d, evt, w) == Finish(env, d, evt, Run(env, d, evt, writes, Publish(env, w, Queued).0))
  {
    RunInParts(env, d, evt, writes, w);
  }

  /** Between two calls the grant was written as wanted. */
  ghost predicate Granted(d: Setup, log: seq<Entry>, from: nat, to: nat)
    requires to <= |log|
  {
    exists j :: from <= j < to && Wrote(log[j]) && log[j].what.req.key == d.grantKey
      && Stores(log[j].after, d.grantKey, d.grant)
  }

  lemma OnceGrants(env: Env, d: Setup, w: World)
    ensures var (w', err) := ApplyOnce(env, w, d.grantKey, d.grant);
            && w.log <= w'.log
            && (forall i :: |w.log| <= i < |w'.log| ==> Asks(w'.log[i], d.grantKey))
            && (err.None? <==> Granted(d, w'.log, |w.log|, |w'.log|))
  {
    var (w', err) := ApplyOnce(env, w, d.grantKey, d.grant);
    if err.None? { assert Wrote(w'.log[|w'.log| - 1]); }
  }

  lemma OnceAsks(env: Env, w: World, key: Key, content: Content)
    ensures var w' := ApplyOnce(env, w, key, content).0;
            w.log < w'.log && forall i :: |w.log| <= i < |w'.log| ==> Asks(w'.log[i], key)
  {
  }

  /** Every call from `from` on is about the one object. */
  ghost predicate OnlyAsks(log: seq<Entry>, from: nat, key: Key) { forall i :: from <= i < |log| ==> Asks(log[i], key) }

  /** Requests about a key wait for the grant, and come once it was written. */
  ghost predicate GrantFirst(d: Setup, log: seq<Entry>, from: nat, key: Key) {
    && (forall i :: from <= i < |log| && Asks(log[i], key) ==> Granted(d, log, from, i))
    && (from <= |log| && Granted(d, log, from, |log|) ==> Asked(log, from, key))
  }

  lemma GrantThenRoute(d: Setup, key: Key, a: seq<Entry>, b: seq<Entry>, from: nat)
    requires from <= |a| && a < b && key != d.grantKey
    requires OnlyAsks(a, from, d.grantKey) && Granted(d, a, from, |a|) && OnlyAsks(b, |a|, key)
    ensures GrantFirst(d, b, from, key)
  {
    var j :| from <= j < |a| && Wrote(a[j]) && a[j].what.req.key == d.grantKey
             && Stores(a[j].after, d.grantKey, d.grant);
    assert b[j] == a[j];
    assert Asks(b[|a|], key);
    forall i | from <= i < |a| ensures !Asks(b[i], key) { assert b[i] == a[i]; }
  }

  lemma NoGrantNoRoute(d: Setup, key: Key, log: seq<Entry>, from: nat)
    requires key != d.grantKey && OnlyAsks(log, from, d.grantKey)
    requires from <= |log| ==> !Granted(d, log, from, |log|)
    ensures GrantFirst(d, log, from, key)
  {
  }

  /** The route waits for the grant: no request about it goes out before the grant was
    * written in this very event, and once it was, one does. */
  lemma RouteWaitsForGrant(env: Env, d: Setup, w: World, evt: ChangeEvent)
    requires ProperKeys(d)
    ensures var w' := ApplyRoute(env, d, w, evt); w.log <= w'.log && GrantFirst(d, w'.log, |w.log|, d.routeKey(evt))
  {
    if d.dynamic {
      var (w1, granted) := ApplyOnce(env, w, d.grantKey, d.grant);
      OnceGrants(env, d, w);
      assert d.grantKey != d.routeKey(evt);
      if granted.None? {
        OnceAsks(env, w1, d.routeKey(evt), d.route(evt));
        GrantThenRoute(d, d.routeKey(evt), w1.log, ApplyRoute(env, d, w, evt).log, |w.log|);
      } else {
        NoGrantNoRoute(d, d.routeKey(evt), w1.log, |w.log|);
      }
    }
  }

  /** The object some steps call about first, whatever comes of it. */
  function FirstAbout(d: Setup, evt: ChangeEvent, a: Action): Option<Key> {
    match a
    case EnsureWeights => Some(d.weightsKey)
    case WriteService => Some(ServiceKey(evt))
    case WriteRoute => if d.dynamic then Some(d.grantKey) else None
    case WriteClaim => if d.dynamic then Some(d.claimKey(evt)) else None
    case _ => None
  }

  predicate Asks(e: Entry, key: Key) { e.what.Called? && e.what.req.key == key }

  ghost predicate Asked(log: seq<Entry>, from: nat, key: Key) { exists i :: from <= i < |log| && Asks(log[i], key) }

  ghost predicate AsksNow(w: World, w': World, key: Key) { |w.log| < |w'.log| && Asks(w'.log[|w.log|], key) }

  lemma EnsureAsks(env: Env, w: World, key: Key, content: Content)
    ensures AsksNow(w, Ensure(env, w, key, content).0, key)
  {
  }

  lemma CreateOrPatchAsks(env: Env, w: World, key: Key, content: Content, change: Content -> Content)
    ensures AsksNow(w, CreateOrPatch(env, w, key, content, change).0, key)
  {
  }

  lemma RouteAsks(env: Env, d: Setup, w: World, evt: ChangeEvent)
    requires d.dynamic
    ensures AsksNow(w, ApplyRoute(env, d, w, evt), d.grantKey)
  {
    var (w1, granted) := ApplyOnce(env, w, d.grantKey, d.grant);
    OnceAsks(env, w, d.grantKey, d.grant);
    if granted.None? {
      OnceAsks(env, w1, d.routeKey(evt), d.route(evt));
      assert ApplyRoute(env, d, w, evt).log[|w.log|] == w1.log[|w.log|];
    }
  }

  lemma AsksFirst(env: Env, d: Setup, evt: ChangeEvent, a: Action, w: World, key: Key)
    requires ProperKeys(d) && FirstAbout(d, evt, a) == Some(key)
    ensures AsksNow(w, Do(env, d, evt, a, w).0, key)
  {
    match a
    case EnsureWeights => EnsureAsks(env, w, d.weightsKey, d.weights);
    case WriteService => CreateOrPatchAsks(env, w, ServiceKey(evt), d.service(evt), d.servicePatch(evt));
    case WriteRoute => RouteAsks(env, d, w, evt);
    case WriteClaim => OnceAsks(env, w, d.claimKey(evt), d.claim(evt));
    case _ =>
  }

  /** A completed run has turned to every object its steps are to try, the best-effort
    * ones included. */
  lemma {:induction false} CompletedRunAsked(
    env: Env, d: Setup, evt: ChangeEvent, plan: seq<Action>, w: World, a: Action, key: Key)
    requires Proper(env, d) && a in plan && FirstAbout(d, evt, a) == Some(key)
    ensures var (w', halt) := Run(env, d, evt, plan, w); halt.Completed? ==> Asked(w'.log, |w.log|, key)
  {
    var (w1, err) := Do(env, d, evt, plan[0], w);
    var (w', halt) := Run(env, d, evt, plan, w);
    if err.None? {
      RunLogs(env, d, evt, plan[1..], w1);
      if plan[0] == a {
        AsksFirst(env, d, evt, a, w, key);
        assert w'.log[|w.log|] == w1.log[|w.log|];
      } else {
        RunLogs(env, d, evt, [plan[0]], w);
        RunOne(env, d, evt, plan[0], w);
        CompletedRunAsked(env, d, evt, plan[1..], w1, a, key);
      }
    }
  }

  /** A run only adds to the log. */
  lemma {:induction false} RunLogs(env: Env, d: Setup, evt: ChangeEvent, plan: seq<Action>, w: World)
    requires Proper(env, d)
    ensures w.log <= Run(env, d, evt, plan, w).0.log
  {
    if plan == [] {
    } else {
      var (w1, err) := Do(env, d, evt, plan[0], w);
      DoStretch(env, d, evt, plan[0], w);
      if err.None? {
        RunLogs(env, d, evt, plan[1..], w1);
        PrefixOfPrefix(w.log, w1.log, Run(env, d, evt, plan[1..], w1).0.log);
      }
    }
  }

  /** Everything a teardown may delete; it writes and says nothing. */
  function TeardownScope(d: Setup, evt: ChangeEvent): Scope {
    Scope({}, {DeploymentKey(evt), ServiceKey(evt), HPAKey(evt), StormKey(evt), ScalerKey(evt), GroupKey(evt),
               d.claimKey(evt), d.routeKey(evt)}, {})
  }

  predicate Deletion(a: Action) {
    match a
    case DropDeployment | DropService | DropHPA | DropStorm | DropClaim | DropRoute | DropScaler | DropGroup => true
    case _ => false
  }

  lemma TeardownStretch(env: Env, d: Setup, evt: ChangeEvent, w: World)
    requires Proper(env, d)
    ensures Stretch(env, w, Teardown(env, d, evt, w).0, TeardownScope(d, evt))
  {
    forall a | a in TEARDOWN ensures Narrower(ScopeOf(d, evt, a), TeardownScope(d, evt)) { assert Deletion(a); }
    RunStretch(env, d, evt, TEARDOWN, w, TeardownScope(d, evt));
  }

  // -------------------------------------------------------- which steps fail

  /** What the controller attempts and only logs when it fails. */
  predicate BestEffort(d: Setup, a: Action) {
    || a.Say? || a == WriteRoute || a == WriteClaim
    || a == DropClaim || a == DropRoute || a == DropScaler || a == DropGroup
    || (a == DropStorm && !d.dynamic)
  }

  lemma BestEffortNeverFails(env: Env, d: Setup, evt: ChangeEvent, a: Action, w: World)
    requires ProperKeys(d) && BestEffort(d, a)
    ensures Do(env, d, evt, a, w).1.None?
  {
  }

  lemma AttemptFails(env: Env, w: World, key: Key, content: Content)
    requires forall i :: env(i).fault
    ensures Attempt(env, w, key, content).1 == Settled(Some(Api(Fault)))
  {
  }

  /** Any other step fails when its calls do. */
  lemma MandatoryStepFails(env: Env, d: Setup, evt: ChangeEvent, a: Action, w: World)
    requires ProperKeys(d) && !BestEffort(d, a) && a != AwaitEngine && forall i :: env(i).fault
    ensures Do(env, d, evt, a, w).1.Some?
  {
    match a
    case WriteStorm =>
      var (w1, picks) := Picks(env, d, w, evt, d.roles(evt));
      AttemptFails(env, w1, StormKey(evt), d.storm(evt, picks));
    case WriteGroup => AttemptFails(env, w, GroupKey(evt), d.group(evt));
    case WriteScaler => if d.dynamic { AttemptFails(env, w, ScalerKey(evt), d.scaler(evt)); }
    case _ =>
  }

  /** A replica count cannot be pinned on what is not there: of a StormService that is no
    * error, of a Deployment it is. */
  lemma PinningWhatIsGone(env: Env, d: Setup, evt: ChangeEvent, w: World)
    requires ProperKeys(d) && !env(|w.log|).fault
    ensures Key(StormService, evt.name) !in Begun(env, w).objects ==> Do(env, d, evt, PinStorm, w).1 == None
    ensures Key(Deployment, evt.name) !in Begun(env, w).objects ==>
              Do(env, d, evt, PinDeployment, w).1 == Some(Api(NotFound))
  {
  }

  ghost predicate OnlyLists(w: World, w': World) {
    w.log <= w'.log && forall i :: |w.log| <= i < |w'.log| ==> w'.log[i].what == NodesListed
  }

  lemma PickOnlyLists(env: Env, d: Setup, w: World, evt: ChangeEvent)
    ensures OnlyLists(w, PickFor(env, d, w, evt).0)
  {
  }

  lemma OnlyListsThrough(a: World, b: World, c: World)
    requires OnlyLists(a, b) && OnlyLists(b, c)
    ensures OnlyLists(a, c)
  {
    PrefixOfPrefix(a.log, b.log, c.log);
    forall i | |a.log| <= i < |b.log| ensures c.log[i] == b.log[i] { }
  }

  lemma {:induction false} PicksOnlyList(env: Env, d: Setup, w: World, evt: ChangeEvent, n: nat)
    ensures OnlyLists(w, Picks(env, d, w, evt, n).0)
  {
    if n == 0 {
    } else {
      var w1 := Picks(env, d, w, evt, n - 1).0;
      PicksOnlyList(env, d, w, evt, n - 1);
      PickOnlyLists(env, d, w1, evt);
      OnlyListsThrough(w, w1, PickFor(env, d, w1, evt).0);
    }
  }

  lemma UnpausedAfterLists(w: World, w1: World, w2: World, key: Key)
    requires OnlyLists(w, w1) && w1.log <= w2.log && Paused(w2.log, |w1.log|, key, false)
    ensures Paused(w2.log, |w.log|, key, false)
  {
    forall i | |w.log| <= i < |w1.log| ensures w2.log[i] == w1.log[i] { }
  }

  /** A storm's retries follow at once ... */
  lemma StormsNeverPause(env: Env, d: Setup, evt: ChangeEvent, w: World)
    requires ProperKeys(d)
    ensures Paused(Do(env, d, evt, WriteStorm, w).0.log, |w.log|, StormKey(evt), false)
  {
    var (w1, picks) := Picks(env, d, w, evt, d.roles(evt));
    PicksOnlyList(env, d, w, evt, d.roles(evt));
    RetriesPause(env, w1, StormKey(evt), d.storm(evt, picks), d.attempts, false);
    UnpausedAfterLists(w, w1, ApplyStorm(env, d, w, evt).0, StormKey(evt));
  }

  /** ... and each of an autoscaler's after a pause, the last pause being the one the
    * context's end cuts short. */
  lemma ScalersPause(env: Env, d: Setup, evt: ChangeEvent, w: World)
    requires ProperKeys(d) && d.dynamic
    ensures PausedRun(env, w, Do(env, d, evt, WriteScaler, w).0, ScalerKey(evt), true)
  {
    RetriesPause(env, w, ScalerKey(evt), d.scaler(evt), d.attempts, true);
  }
}

/** The statuses one upsert publishes, for every behaviour of pods, API and broker. */
module Trace {
  import opened Prelude
  import opened Errors
  import opened Events
  import opened Objects
  import opened Cluster
  import opened EngineReady
  import opened Reconcile
  import opened Steps

  /** Everything an upsert may write or delete. */
  function UpsertScope(d: Setup, evt: ChangeEvent): Scope {
    Scope({d.weightsKey, StormKey(evt), GroupKey(evt), DeploymentKey(evt), ServiceKey(evt), ScalerKey(evt),
           d.grantKey, d.routeKey(evt), d.claimKey(evt)},
          {DeploymentKey(evt), HPAKey(evt), ScalerKey(evt)}, {})
  }

  predicate Upserts(a: Action) {
    match a
    case EnsureWeights | WriteStorm | WriteGroup | WriteDeployment => true
    case WriteService | WriteRoute | WriteClaim | WriteScaler => true
    case DropDeployment | DropHPA | DropScaler | PinStorm | PinDeployment => true
    case _ => false
  }

  lemma PlannedActions(d: Setup, evt: ChangeEvent, a: Action)
    requires a in WritePlan(d, evt)
    ensures Upserts(a)
  {
    assert a == EnsureWeights || a in ServePlan(d) || a in ExposePlan(d) || a in ScalePlan(d, evt);
  }

  lemma UpsertingScope(d: Setup, evt: ChangeEvent, a: Action)
    requires Upserts(a)
    ensures Narrower(ScopeOf(d, evt, a), UpsertScope(d, evt))
  {
  }

  lemma WritePlanScope(d: Setup, evt: ChangeEvent, plan: seq<Action>)
    requires plan == WritePlan(d, evt)
    ensures AllWithin(d, evt, plan, UpsertScope(d, evt))
  {
    forall a | a in plan ensures Narrower(ScopeOf(d, evt, a), UpsertScope(d, evt)) {
      PlannedActions(d, evt, a);
      UpsertingScope(d, evt, a);
    }
  }

  /** What was said last, and what the broker is told. */
  ghost predicate Concluded(notice: Notice, err: Option<Error>, publishError: Option<Error>) {
    && notice.ok == publishError.None?
    && match err
       case None => notice.status == Running
       case Some(e) => notice.status == Failed && if notice.ok then e.Marked? else e == Wrapped(publishError.value)
  }

  /** queued, then "starting" at most once, then running or failed, never both. */
  ghost predicate TraceShape(env: Env, w: World, w': World, err: Option<Error>) {
    var notices := Notices(w'.log, |w.log|);
    && 2 <= |notices| <= 3
    && |w.log| < |w'.log|
    && notices[0].status == Queued
    && (|notices| == 3 ==> notices[1].status == Starting)
    && Concluded(notices[|notices| - 1], err, env(|w'.log| - 1).publishError)
  }

  lemma PublishMeans(env: Env, w: World, status: Status)
    ensures var (w', err) := Publish(env, w, status);
            && err == env(|w.log|).publishError && |w'.log| == |w.log| + 1
            && Stretch(env, w, w', Scope({}, {}, {status}))
            && Notices(w'.log, |w.log|) == [Notice(status, err.None?)]
  {
    var (w', err) := Publish(env, w, status);
    StretchNote(env, w, Published(status, err.None?), Scope({}, {}, {status}));
    assert Notices(w'.log, |w'.log|) == [];
  }

  const EVERY_STATUS: set<Status> := {Queued, Starting, Running, Failed}

  /** The scope covers the writes, silently, and dropping the autoscaler. */
  ghost predicate Covers(d: Setup, evt: ChangeEvent, writes: seq<Action>, scope: Scope) {
    scope.says == {} && AllWithin(d, evt, writes, scope) && Narrower(ScopeOf(d, evt, DropScaler), scope)
  }

  function Speaking(scope: Scope): Scope { scope.(says := EVERY_STATUS) }

  /** `w'` follows `w` by notices `said` and within the scope. */
  ghost predicate Says(env: Env, scope: Scope, w: World, w': World, said: seq<Notice>) {
    Stretch(env, w, w', Speaking(scope)) && Notices(w'.log, |w.log|) == said
  }

  lemma SaysThrough(env: Env, scope: Scope, a: World, b: World, c: World, p: seq<Notice>, q: seq<Notice>)
    requires Says(env, scope, a, b, p) && Says(env, scope, b, c, q)
    ensures Says(env, scope, a, c, p + q)
  {
    StretchThrough(env, a, b, c, Speaking(scope));
    NoticesThrough(b.log, c.log, |a.log|);
  }

  function NoticeOf(env: Env, w: World, status: Status): Notice { Notice(status, env(|w.log|).publishError.None?) }

  lemma SaysOne(env: Env, scope: Scope, w: World, status: Status)
    ensures Says(env, scope, w, Publish(env, w, status).0, [NoticeOf(env, w, status)])
    ensures |Publish(env, w, status).0.log| == |w.log| + 1
  {
    PublishMeans(env, w, status);
    StretchWidens(env, w, Publish(env, w, status).0, Scope({}, {}, {status}), Speaking(scope));
  }

  lemma SaysNothing(env: Env, scope: Scope, w: World, w': World)
    requires Stretch(env, w, w', scope) && scope.says == {}
    ensures Says(env, scope, w, w', [])
  {
    NoNotices(env, w, w', scope, |w.log|);
    StretchWidens(env, w, w', scope, Speaking(scope));
  }

  lemma WaitSays(env: Env, scope: Scope, watch: Watch, w: World) returns (said: seq<Notice>)
    requires Lawful(env, watch)
    ensures Says(env, scope, w, Await(watch, w).0, said) && MayStart(said)
    ensures Await(watch, w).1.None? ==> EndsReady(env, Await(watch, w).0.log, |w.log|)
  {
    var after, k := AwaitEnds(env, watch, w);
    StretchWidens(env, w, Await(watch, w).0, SAYS_STARTING, Speaking(scope));
    said := Notices(Await(watch, w).0.log, |w.log|);
  }

  predicate MayStart(said: seq<Notice>) { said == [] || (|said| == 1 && said[0].status == Starting) }

  /** `w'` ends an event: what was said since `w` is at most "starting" and then the
    * outcome, which matches the error. */
  ghost predicate Ending(env: Env, scope: Scope, w: World, w': World, err: Option<Error>, said: seq<Notice>) {
    && Says(env, scope, w, w', said)
    && said != [] && MayStart(said[..|said| - 1])
    && |w.log| < |w'.log| && Concluded(said[|said| - 1], err, env(|w'.log| - 1).publishError)
  }

  lemma ReportEnds(env: Env, scope: Scope, w: World, cause: Error)
    ensures var (w', err) := ReportFailure(env, w, cause);
        err.Some? && Ending(env, scope, w, w', err, [NoticeOf(env, w, Failed)])
  {
    SaysOne(env, scope, w, Failed);
  }

  lemma EndsLater(
    env: Env, scope: Scope, a: World, b: World, c: World, err: Option<Error>, p: seq<Notice>, last: Notice)
    requires Says(env, scope, a, b, p) && Ending(env, scope, b, c, err, [last]) && MayStart(p)
    ensures Ending(env, scope, a, c, err, p + [last])
  {
    SaysThrough(env, scope, a, b, c, p, [last]);
    assert (p + [last])[..|p|] == p;
  }

  lemma ReadyStays(env: Env, log: seq<Entry>, e: Entry, from: nat)
    requires EndsReady(env, log, from) && !Lists(e)
    ensures EndsReady(env, log + [e], from)
  {
    var i: nat :| from <= i && ReadyAt(env, log, i) && forall j :: i < j < |log| ==> !Lists(log[j]);
    assert ReadyAt(env, log + [e], i);
  }

  lemma RunningEnds(env: Env, scope: Scope, w: World)
    ensures Ending(env, scope, w, Publish(env, w, Running).0, None, [NoticeOf(env, w, Running)])
  {
    SaysOne(env, scope, w, Running);
  }

  lemma DropScalerSilently(env: Env, d: Setup, evt: ChangeEvent, writes: seq<Action>, scope: Scope, w: World)
    requires Proper(env, d) && Covers(d, evt, writes, scope)
    ensures Says(env, scope, w, Do(env, d, evt, DropScaler, w).0, [])
  {
    var w' := Do(env, d, evt, DropScaler, w).0;
    DoStretch(env, d, evt, DropScaler, w);
    StretchWidens(env, w, w', ScopeOf(d, evt, DropScaler), scope);
    SaysNothing(env, scope, w, w');
  }

  predicate Drops(log: seq<Entry>, from: nat, key: Key) { exists i :: from <= i < |log| && Deletes(log[i], key) }

  lemma DropFirst(env: Env, d: Setup, evt: ChangeEvent, w: World)
    requires ProperKeys(d)
    ensures var w' := Do(env, d, evt, DropScaler, w).0;
            w.log <= w'.log && (d.dynamic ==> |w.log| < |w'.log| && Deletes(w'.log[|w.log|], ScalerKey(evt)))
              && (!d.dynamic ==> w' == w)
  {
  }

  /** What a stopped upsert still does: if it was the autoscaler's write that failed, it
    * asks for the stale autoscaler to be deleted, and not otherwise; then it publishes
    * "failed", once, and nothing else. */
  lemma ConcludeEnds(env: Env, d: Setup, evt: ChangeEvent, writes: seq<Action>, scope: Scope, w: World, halt: Halt)
    returns (said: seq<Notice>)
    requires Proper(env, d) && Covers(d, evt, writes, scope) && halt.Stopped?
    ensures var (w', err) := Conclude(env, d, evt, w, halt);
            && err.Some? && Ending(env, scope, w, w', err, said)
            && |said| == 1 && said[0].status == Failed
            && (Drops(w'.log, |w.log|, ScalerKey(evt)) <==> halt.at == WriteScaler && d.dynamic)
  {
    var w' := Conclude(env, d, evt, w, halt).0;
    DropFirst(env, d, evt, w);
    if halt.at == WriteScaler {
      var w1 := Do(env, d, evt, DropScaler, w).0;
      DropScalerSilently(env, d, evt, writes, scope, w);
      ReportEnds(env, scope, w1, halt.err);
      var (w', err) := ReportFailure(env, w1, halt.err);
      EndsLater(env, scope, w, w1, w', err, [], NoticeOf(env, w1, Failed));
      said := [] + [NoticeOf(env, w1, Failed)];
    } else {
      ReportEnds(env, scope, w, halt.err);
      said := [NoticeOf(env, w, Failed)];
    }
  }

  lemma FinishEnds(env: Env, d: Setup, evt: ChangeEvent, writes: seq<Action>, scope: Scope, run: (World, Halt))
    returns (said: seq<Notice>)
    requires Proper(env, d) && Covers(d, evt, writes, scope)
    ensures var (w', err) := Finish(env, d, evt, run);
            Ending(env, scope, run.0, w', err, said) && (err.None? ==> EndsReady(env, w'.log, |run.0.log|))
  {
    var w := run.0;
    if run.1.Stopped? {
      said := ConcludeEnds(env, d, evt, writes, scope, w, run.1);
    } else {
      var (w3, failed) := Await(d.watch, w);
      var p := WaitSays(env, scope, d.watch, w);
      var (w', err) := Finish(env, d, evt, run);
      if failed.Some? {
        ReportEnds(env, scope, w3, failed.value);
        EndsLater(env, scope, w, w3, w', err, p, NoticeOf(env, w3, Failed));
        said := p + [NoticeOf(env, w3, Failed)];
      } else {
        RunningEnds(env, scope, w3);
        EndsLater(env, scope, w, w3, w', None, p, NoticeOf(env, w3, Running));
        ReadyStays(env, w3.log, w'.log[|w3.log|], |w.log|);
        said := p + [NoticeOf(env, w3, Running)];
      }
    }
  }

  lemma ReadySooner(env: Env, log: seq<Entry>, from: nat, sooner: nat)
    requires EndsReady(env, log, from) && sooner <= from
    ensures EndsReady(env, log, sooner)
  {
  }

  /** The announcement and the writes say "queued" and no more. */
  lemma OpeningSays(env: Env, d: Setup, evt: ChangeEvent, writes: seq<Action>, scope: Scope, w: World)
    requires Proper(env, d) && Covers(d, evt, writes, scope)
    ensures Says(env, scope, w, Run(env, d, evt, writes, Publish(env, w, Queued).0).0, [NoticeOf(env, w, Queued)])
  {
    var w1 := Publish(env, w, Queued).0;
    var w2 := Run(env, d, evt, writes, w1).0;
    SaysOne(env, scope, w, Queued);
    RunStretch(env, d, evt, writes, w1, scope);
    SaysNothing(env, scope, w1, w2);
    SaysThrough(env, scope, w, w1, w2, [NoticeOf(env, w, Queued)], []);
    assert [NoticeOf(env, w, Queued)] + [] == [NoticeOf(env, w, Queued)];
  }

  lemma OpeningAndEnding(
    env: Env, scope: Scope, a: World, b: World, c: World, err: Option<Error>, first: Notice, said: seq<Notice>)
    requires Says(env, scope, a, b, [first]) && Ending(env, scope, b, c, err, said) && first.status == Queued
    requires err.None? ==> EndsReady(env, c.log, |b.log|)
    ensures TraceShape(env, a, c, err) && Stretch(env, a, c, Speaking(scope))
    ensures err.None? ==> EndsReady(env, c.log, |a.log|)
  {
    SaysThrough(env, scope, a, b, c, [first], said);
    var notices := Notices(c.log, |a.log|);
    assert notices == [first] + said;
    assert notices[|notices| - 1] == said[|said| - 1];
    if |said| == 2 { assert notices[1] == said[..1][0]; }
    if err.None? { ReadySooner(env, c.log, |b.log|, |a.log|); }
  }

  lemma TraceOf(env: Env, d: Setup, evt: ChangeEvent, writes: seq<Action>, scope: Scope, w: World)
    requires Proper(env, d) && Covers(d, evt, writes, scope)
    ensures var (w', err) := Finish(env, d, evt, Run(env, d, evt, writes, Publish(env, w, Queued).0));
            && TraceShape(env, w, w', err)
            && (err.None? ==> EndsReady(env, w'.log, |w.log|))
            && Stretch(env, w, w', Speaking(scope))
  {
    OpeningSays(env, d, evt, writes, scope, w);
    var run := Run(env, d, evt, writes, Publish(env, w, Queued).0);
    var (w', err) := Finish(env, d, evt, run);
    var said := FinishEnds(env, d, evt, writes, scope, run);
    OpeningAndEnding(env, scope, w, run.0, w', err, NoticeOf(env, w, Queued), said);
  }

  /** Every upsert publishes queued, then "starting" at most once, then exactly one
    * of running and failed: running if and only if it returns no error, and then
    * its last pod listing had no terminal live pod and an answering one. A failure
    * is marked permanent if and only if its "failed" was published. */
  lemma UpsertTrace(env: Env, d: Setup, evt: ChangeEvent, w: World)
    requires Proper(env, d)
    ensures var (w', err) := Upsert(env, d, evt, w);
            && TraceShape(env, w, w', err)
            && (err.None? ==> EndsReady(env, w'.log, |w.log|))
            && Stretch(env, w, w', Speaking(UpsertScope(d, evt)))
  {
    var writes := WritePlan(d, evt);
    WritePlanScope(d, evt, writes);
    UpsertingScope(d, evt, DropScaler);
    UpsertInParts(env, d, evt, writes, w);
    TraceOf(env, d, evt, writes, UpsertScope(d, evt), w);
  }

  lemma FinishCompleted(env: Env, d: Setup, evt: ChangeEvent, run: (World, Halt))
    requires ProperKeys(d)
    ensures Finish(env, d, evt, run).1.None? ==> run.1.Completed?
  {
  }

  lemma SuccessTried(env: Env, d: Setup, evt: ChangeEvent, w: World, a: Action, key: Key)
    requires Proper(env, d) && a in WritePlan(d, evt) && FirstAbout(d, evt, a) == Some(key)
    ensures var (w', err) := Upsert(env, d, evt, w); err.None? ==> Asked(w'.log, |w.log|, key)
  {
    var writes := WritePlan(d, evt);
    WritePlanScope(d, evt, writes);
    UpsertingScope(d, evt, DropScaler);
    TriedOf(env, d, evt, writes, UpsertScope(d, evt), w, a, key);
    UpsertInParts(env, d, evt, writes, w);
  }

  /** What a successful upsert is to turn to, best-effort objects included. */
  predicate ToBeTried(d: Setup, evt: ChangeEvent, key: Key) {
    || key == d.weightsKey || key == Key(Service, evt.name + "-svc")
    || (d.dynamic && key == d.grantKey) || (d.dynamic && d.aibrix && key == d.claimKey(evt))
  }

  lemma PlannedFor(d: Setup, evt: ChangeEvent, key: Key) returns (a: Action)
    requires ToBeTried(d, evt, key)
    ensures a in WritePlan(d, evt) && FirstAbout(d, evt, a) == Some(key)
  {
    a := if key == d.weightsKey then EnsureWeights else if key == ServiceKey(evt) then WriteService
         else if d.dynamic && key == d.grantKey then WriteRoute else WriteClaim;
    assert a == EnsureWeights || a in ExposePlan(d);
  }

  /** An upsert that returns no error has turned to every object it is to try: the
    * weights claim, the Service, and, best-effort, the grant and the model claim. */
  lemma SuccessTriedEverything(env: Env, d: Setup, evt: ChangeEvent, w: World, key: Key)
    requires Proper(env, d) && ToBeTried(d, evt, key)
    ensures var (w', err) := Upsert(env, d, evt, w); err.None? ==> Asked(w'.log, |w.log|, key)
  {
    var a := PlannedFor(d, evt, key);
    SuccessTried(env, d, evt, w, a, key);
  }

  lemma TriedOf(env: Env, d: Setup, evt: ChangeEvent, writes: seq<Action>, scope: Scope, w: World, a: Action, key: Key)
    requires Proper(env, d) && Covers(d, evt, writes, scope) && a in writes && FirstAbout(d, evt, a) == Some(key)
    ensures var (w', err) := Finish(env, d, evt, Run(env, d, evt, writes, Publish(env, w, Queued).0));
            err.None? ==> Asked(w'.log, |w.log|, key)
  {
    var w1 := Publish(env, w, Queued).0;
    var run := Run(env, d, evt, writes, w1);
    var (w', err) := Finish(env, d, evt, run);
    CompletedRunAsked(env, d, evt, writes, w1, a, key);
    FinishCompleted(env, d, evt, run);
    var said := FinishEnds(env, d, evt, writes, scope, run);
    if err.None? {
      var i :| |w1.log| <= i < |run.0.log| && Asks(run.0.log[i], key);
      assert w'.log[i] == run.0.log[i];
    }
  }
}

/** One consumer session: the broker's queue on one side, the reconcile protocol on
  * the other. A message leaves its queue for good only when it may.
  * subscribeOnce of pkg/mq/rabbitmq.go with internal/controller/reconciler.go. */
module Session {
  import opened Prelude
  import opened Errors
  import opened Events
  import opened Objects
  import opened Cluster
  import opened EngineReady
  import opened Reconcile
  import opened Steps
  import opened Trace
  import Migration
  import Broker

  // ----------------------------------------------------------------- upserts

  predicate SaidFailed(log: seq<Entry>, from: nat) {
    exists i :: from <= i < |log| && log[i].what == Published(Failed, true)
  }

  lemma {:induction false} HeardMeansSaid(log: seq<Entry>, from: nat)
    requires Notice(Failed, true) in Notices(log, from)
    ensures SaidFailed(log, from)
    decreases |log| - from
  {
    if from < |log| && log[from].what != Published(Failed, true) {
      assert Notice(Failed, true) in Notices(log, from + 1);
      HeardMeansSaid(log, from + 1);
    }
  }

  lemma {:induction false} SaidMeansHeard(log: seq<Entry>, from: nat)
    requires SaidFailed(log, from)
    ensures Notice(Failed, true) in Notices(log, from)
    decreases |log| - from
  {
    if log[from].what == Published(Failed, true) {
      assert Heard(log[from]) == [Notice(Failed, true)];
    } else {
      SaidMeansHeard(log, from + 1);
    }
  }

  /** The failure is published exactly by the last call of an upsert that failed. */
  lemma FailureIsSaid(env: Env, w: World, w': World, err: Option<Error>)
    requires TraceShape(env, w, w', err)
    ensures SaidFailed(w'.log, |w.log|) <==> err.Some? && env(|w'.log| - 1).publishError.None?
  {
    var notices := Notices(w'.log, |w.log|);
    var last := notices[|notices| - 1];
    if SaidFailed(w'.log, |w.log|) {
      SaidMeansHeard(w'.log, |w.log|);
      var k :| 0 <= k < |notices| && notices[k] == Notice(Failed, true);
      assert k == |notices| - 1;
    }
    if err.Some? && last.ok {
      assert last == Notice(Failed, true);
      HeardMeansSaid(w'.log, |w.log|);
    }
  }

  /** An upsert's message is acked if and only if it returned no error, and then its
    * last pod listing found the engine ready. After an error it is rejected if and
    * only if "failed" was published or never can be, the publish error being marked
    * permanent; and requeued if and only if publishing again may help. */
  lemma UpsertVerdict(env: Env, d: Setup, evt: ChangeEvent, w: World)
    requires Proper(env, d)
    ensures var (w', err) := Upsert(env, d, evt, w);
            |w'.log| > |w.log| &&
            var broken := env(|w'.log| - 1).publishError;
            && (VerdictOf(err) == Ack <==> err.None?)
            && (err.None? ==> EndsReady(env, w'.log, |w.log|))
            && (err.Some? ==>
                 && (SaidFailed(w'.log, |w.log|) <==> broken.None?)
                 && (VerdictOf(err) == Reject <==> broken.None? || IsPermanent(broken.value))
                 && (VerdictOf(err) == Requeue <==> broken.Some? && !IsPermanent(broken.value)))
  {
    UpsertTrace(env, d, evt, w);
    var (w', err) := Upsert(env, d, evt, w);
    FailureIsSaid(env, w, w', err);
  }

  // --------------------------------------------------------------- teardowns

  /** A call found the object gone, or made it so. */
  ghost predicate SeenGone(log: seq<Entry>, from: nat, key: Key) {
    exists i :: from <= i < |log| && Deletes(log[i], key) && key !in log[i].after.objects
  }

  lemma {:induction false} DeletionErrors(env: Env, d: Setup, evt: ChangeEvent, plan: seq<Action>, w: World)
    requires ProperKeys(d) && forall a :: a in plan ==> Deletion(a)
    ensures var halt := Run(env, d, evt, plan, w).1; halt.Stopped? ==> halt.err.Api?
  {
    if plan == [] {
    } else {
      var (w1, err) := Do(env, d, evt, plan[0], w);
      assert Deletion(plan[0]);
      assert err.Some? ==> err.value.Api?;
      if err.None? { DeletionErrors(env, d, evt, plan[1..], w1); }
    }
  }

  /** The object a mandatory deletion is about. */
  function Victim(evt: ChangeEvent, a: Action): Option<Key> {
    match a
    case DropDeployment => Some(DeploymentKey(evt))
    case DropService => Some(ServiceKey(evt))
    case DropHPA => Some(HPAKey(evt))
    case DropStorm => Some(StormKey(evt))
    case _ => None
  }

  lemma DropSees(env: Env, w: World, key: Key)
    ensures var (w', err) := Drop(env, w, key);
            |w'.log| == |w.log| + 1 && Deletes(w'.log[|w.log|], key)
              && (err.None? ==> key !in w'.log[|w.log|].after.objects)
  {
  }

  lemma SeenLater(a: seq<Entry>, b: seq<Entry>, from: nat, key: Key)
    requires SeenGone(a, from, key) && a <= b
    ensures SeenGone(b, from, key)
  {
    var i :| from <= i < |a| && Deletes(a[i], key) && key !in a[i].after.objects;
    assert b[i] == a[i];
  }

  /** A completed run has seen every one of its victims gone. */
  lemma {:induction false} VictimsSeenGone(env: Env, d: Setup, evt: ChangeEvent, plan: seq<Action>, w: World, a: Action)
    requires Proper(env, d) && d.dynamic && a in plan && Victim(evt, a).Some? && (forall b :: b in plan ==> Deletion(b))
    ensures var (w', halt) := Run(env, d, evt, plan, w);
        halt.Completed? ==> SeenGone(w'.log, |w.log|, Victim(evt, a).value)
  {
    var (w1, err) := Do(env, d, evt, plan[0], w);
    var (w', halt) := Run(env, d, evt, plan, w);
    if err.None? {
      RestLogs(env, d, evt, plan[1..], w1);
      DoStretch(env, d, evt, plan[0], w);
      if plan[0] == a {
        DropSees(env, w, Victim(evt, a).value);
        assert SeenGone(w1.log, |w.log|, Victim(evt, a).value);
        SeenLater(w1.log, w'.log, |w.log|, Victim(evt, a).value);
      } else {
        VictimsSeenGone(env, d, evt, plan[1..], w1, a);
      }
    }
  }

  lemma RestLogs(env: Env, d: Setup, evt: ChangeEvent, plan: seq<Action>, w: World)
    requires Proper(env, d) && forall b :: b in plan ==> Deletion(b)
    ensures Stretch(env, w, Run(env, d, evt, plan, w).0, TeardownScope(d, evt))
  {
    forall a | a in plan ensures Narrower(ScopeOf(d, evt, a), TeardownScope(d, evt)) { assert Deletion(a); }
    RunStretch(env, d, evt, plan, w, TeardownScope(d, evt));
  }

  lemma GoneForGood(env: Env, w: World, w': World, scope: Scope, key: Key)
    requires Stretch(env, w, w', scope) && scope.writes == {} && NeverInserted(env, key) && key !in w.store.objects
    ensures key !in w'.store.objects
  {
    forall i | |w.log| <= i < |w'.log| ensures !Inserts(env(i).others, key) && !Creates(w'.log[i], key) {
      assert Within(scope, w'.log[i].what);
    }
    StaysAbsent(env, w, w', key);
  }

  /** ... and unless somebody creates it again, it stays gone. */
  lemma {:induction false} VictimsStayGone(env: Env, d: Setup, evt: ChangeEvent, plan: seq<Action>, w: World, a: Action)
    requires Proper(env, d) && d.dynamic && a in plan && Victim(evt, a).Some? && (forall b :: b in plan ==> Deletion(b))
    requires NeverInserted(env, Victim(evt, a).value)
    ensures var (w', halt) := Run(env, d, evt, plan, w); halt.Completed? ==> Victim(evt, a).value !in w'.store.objects
  {
    var (w1, err) := Do(env, d, evt, plan[0], w);
    var (w', halt) := Run(env, d, evt, plan, w);
    if err.None? {
      RestLogs(env, d, evt, plan[1..], w1);
      if plan[0] == a {
        DropStretch(env, w, Victim(evt, a).value);
        GoneForGood(env, w1, w', TeardownScope(d, evt), Victim(evt, a).value);
      } else {
        VictimsStayGone(env, d, evt, plan[1..], w1, a);
      }
    }
  }

  /** The object was seen gone since, and is gone unless somebody created it again. */
  ghost predicate TornDown(env: Env, w: World, w': World, key: Key) {
    SeenGone(w'.log, |w.log|, key) && (NeverInserted(env, key) ==> key !in w'.store.objects)
  }

  /** What serves the service, by the key. */
  predicate Serves(evt: ChangeEvent, key: Key) {
    key == DeploymentKey(evt) || key == ServiceKey(evt) || key == HPAKey(evt) || key == StormKey(evt)
  }

  /** Nothing that serves the service is left. */
  ghost predicate NothingServes(env: Env, w: World, w': World, evt: ChangeEvent) {
    forall key :: Serves(evt, key) ==> TornDown(env, w, w', key)
  }

  function DeletionOf(key: Key): Action {
    match key.kind
    case Deployment => DropDeployment
    case Service => DropService
    case Autoscaler => DropHPA
    case _ => DropStorm
  }

  lemma VictimTornDown(env: Env, d: Setup, evt: ChangeEvent, plan: seq<Action>, w: World, a: Action, key: Key)
    requires Proper(env, d) && d.dynamic && a in plan && Victim(evt, a) == Some(key)
        && (forall b :: b in plan ==> Deletion(b))
    ensures var (w', halt) := Run(env, d, evt, plan, w); halt.Completed? ==> TornDown(env, w, w', key)
  {
    VictimsSeenGone(env, d, evt, plan, w, a);
    if NeverInserted(env, key) { VictimsStayGone(env, d, evt, plan, w, a); }
  }

  /** What applyDelete returns after its deletions. */
  function DeleteError(halt: Halt): Option<Error> { if halt.Completed? then None else Some(Wrapped(halt.err)) }

  /** An API error is no reason to give a message up. */
  lemma DeleteErrorRetries(halt: Halt)
    requires halt.Stopped? ==> halt.err.Api?
    ensures VerdictOf(DeleteError(halt)) == if halt.Completed? then Ack else Requeue
  {
    if halt.Stopped? {
      assert !IsPermanent(halt.err);
      assert !IsPermanent(Wrapped(halt.err));
    }
  }

  ghost predicate DeletesAll(plan: seq<Action>) {
    && (forall a :: a in plan ==> Deletion(a))
    && DropDeployment in plan && DropService in plan && DropHPA in plan && DropStorm in plan
  }

  lemma RunTearsDown(env: Env, d: Setup, evt: ChangeEvent, plan: seq<Action>, w: World)
    requires Proper(env, d) && d.dynamic && DeletesAll(plan)
    ensures var (w', halt) := Run(env, d, evt, plan, w);
            && VerdictOf(DeleteError(halt)) != Reject
            && (VerdictOf(DeleteError(halt)) == Ack ==> NothingServes(env, w, w', evt))
  {
    DeletionErrors(env, d, evt, plan, w);
    var (w', halt) := Run(env, d, evt, plan, w);
    DeleteErrorRetries(halt);
    if halt.Completed? {
      forall key | Serves(evt, key) ensures TornDown(env, w, w', key) {
        VictimTornDown(env, d, evt, plan, w, DeletionOf(key), key);
      }
    }
  }

  /** A delete is acked only with the service's Deployment, Service, autoscaler and
    * StormService all seen gone; it is never rejected. */
  lemma TeardownVerdict(env: Env, d: Setup, evt: ChangeEvent, w: World)
    requires Proper(env, d) && d.dynamic
    ensures var (w', err) := Teardown(env, d, evt, w);
            VerdictOf(err) != Reject && (VerdictOf(err) == Ack ==> NothingServes(env, w, w', evt))
  {
    assert DeletesAll(TEARDOWN);
    RunTearsDown(env, d, evt, TEARDOWN, w);
    var halt := Run(env, d, evt, TEARDOWN, w).1;
    assert Teardown(env, d, evt, w).1 == DeleteError(halt);
  }

  // ------------------------------------------------ without a dynamic client

  /** All a delete may touch without a dynamic client. */
  function WithoutStorm(evt: ChangeEvent): Scope { Scope({}, {DeploymentKey(evt), ServiceKey(evt), HPAKey(evt)}, {}) }

  lemma WithoutClient(env: Env, d: Setup, evt: ChangeEvent, a: Action, w: World)
    requires Proper(env, d) && !d.dynamic && Deletion(a)
    ensures Stretch(env, w, Do(env, d, evt, a, w).0, WithoutStorm(evt))
  {
    var scope := WithoutStorm(evt);
    StretchStays(env, w, scope);
    if a == DropDeployment || a == DropService || a == DropHPA {
      DoStretch(env, d, evt, a, w);
      StretchWidens(env, w, Do(env, d, evt, a, w).0, ScopeOf(d, evt, a), scope);
    }
  }

  lemma {:induction false} RunWithoutClient(env: Env, d: Setup, evt: ChangeEvent, plan: seq<Action>, w: World)
    requires Proper(env, d) && !d.dynamic && forall a :: a in plan ==> Deletion(a)
    ensures Stretch(env, w, Run(env, d, evt, plan, w).0, WithoutStorm(evt))
  {
    var scope := WithoutStorm(evt);
    if plan == [] {
      StretchStays(env, w, scope);
    } else {
      var (w1, err) := Do(env, d, evt, plan[0], w);
      WithoutClient(env, d, evt, plan[0], w);
      if err.None? {
        RunWithoutClient(env, d, evt, plan[1..], w1);
        StretchThrough(env, w, w1, Run(env, d, evt, plan[1..], w1).0, scope);
      }
    }
  }

  /** One of the next n calls fails. */
  ghost predicate SomeFault(env: Env, from: nat, n: nat) { exists i :: from <= i < from + n && env(i).fault }

  lemma DropFails(env: Env, w: World, key: Key)
    ensures var (w', err) := Drop(env, w, key); |w'.log| == |w.log| + 1 && (err.Some? <==> env(|w.log|).fault)
  {
  }

  predicate NeedsClient(a: Action) {
    a == DropStorm || a == DropClaim || a == DropRoute || a == DropScaler || a == DropGroup
  }

  /** Without the client these deletions do nothing, and report no error. */
  lemma {:induction false} NothingDone(env: Env, d: Setup, evt: ChangeEvent, plan: seq<Action>, w: World)
    requires ProperKeys(d) && !d.dynamic && forall a :: a in plan ==> NeedsClient(a)
    ensures Run(env, d, evt, plan, w) == (w, Completed)
  {
    if plan == [] {
    } else {
      assert NeedsClient(plan[0]);
      NothingDone(env, d, evt, plan[1..], w);
    }
  }

  lemma RunDropFirst(env: Env, d: Setup, evt: ChangeEvent, a: Action, rest: seq<Action>, w: World)
    requires ProperKeys(d) && (a == DropDeployment || a == DropService || a == DropHPA)
    ensures var w1 := Do(env, d, evt, a, w).0;
            && |w1.log| == |w.log| + 1
            && Run(env, d, evt, [a] + rest, w).0 == (if env(|w.log|).fault then w1 else Run(env, d, evt, rest, w1).0)
            && Run(env, d, evt, [a] + rest, w).1.Completed?
              == (!env(|w.log|).fault && Run(env, d, evt, rest, w1).1.Completed?)
  {
    DropFails(env, w, Victim(evt, a).value);
    assert ([a] + rest)[1..] == rest;
  }

  lemma ThreeDrops(env: Env, d: Setup, evt: ChangeEvent, rest: seq<Action>, w: World)
    requires ProperKeys(d) && !d.dynamic && forall a :: a in rest ==> NeedsClient(a)
    ensures var (w', halt) := Run(env, d, evt, [DropDeployment] + ([DropService] + ([DropHPA] + rest)), w);
            && (halt.Completed? <==> !SomeFault(env, |w.log|, 3))
            && |w'.log| <= |w.log| + 3 && (halt.Completed? ==> |w'.log| == |w.log| + 3)
  {
    var n := |w.log|;
    var w1 := Do(env, d, evt, DropDeployment, w).0;
    var w2 := Do(env, d, evt, DropService, w1).0;
    RunDropFirst(env, d, evt, DropDeployment, [DropService] + ([DropHPA] + rest), w);
    RunDropFirst(env, d, evt, DropService, [DropHPA] + rest, w1);
    RunDropFirst(env, d, evt, DropHPA, rest, w2);
    NothingDone(env, d, evt, rest, Do(env, d, evt, DropHPA, w2).0);
    assert SomeFault(env, n, 3) <==> env(n).fault || env(n + 1).fault || env(n + 2).fault;
  }

  lemma DeletesOnly(env: Env, d: Setup, evt: ChangeEvent, plan: seq<Action>, w: World)
    requires ProperKeys(d) && forall a :: a in plan ==> Deletion(a)
    ensures VerdictOf(DeleteError(Run(env, d, evt, plan, w).1)) == Ack <==> Run(env, d, evt, plan, w).1.Completed?
  {
    DeletionErrors(env, d, evt, plan, w);
    DeleteErrorRetries(Run(env, d, evt, plan, w).1);
  }

  /** Without a dynamic client a delete calls the API at most three times, and is acked if
    * and only if none of the three fails. */
  lemma AckWithoutClient(env: Env, d: Setup, evt: ChangeEvent, w: World)
    requires ProperKeys(d) && !d.dynamic
    ensures var (w', err) := Teardown(env, d, evt, w);
            && (VerdictOf(err) == Ack <==> !SomeFault(env, |w.log|, 3))
            && |w'.log| <= |w.log| + 3 && (VerdictOf(err) == Ack ==> |w'.log| == |w.log| + 3)
  {
    var rest := [DropStorm, DropClaim, DropRoute, DropScaler, DropGroup];
    assert TEARDOWN == [DropDeployment] + ([DropService] + ([DropHPA] + rest));
    assert forall a :: a in TEARDOWN ==> Deletion(a);
    ThreeDrops(env, d, evt, rest, w);
    DeletesOnly(env, d, evt, TEARDOWN, w);
    assert Teardown(env, d, evt, w).1 == DeleteError(Run(env, d, evt, TEARDOWN, w).1);
  }

  lemma TeardownWithoutClient(env: Env, d: Setup, evt: ChangeEvent, w: World)
    requires Proper(env, d) && !d.dynamic
    ensures var w' := Teardown(env, d, evt, w).0;
            Stretch(env, w, w', WithoutStorm(evt)) && !SeenGone(w'.log, |w.log|, StormKey(evt))
  {
    assert forall a :: a in TEARDOWN ==> Deletion(a);
    RunWithoutClient(env, d, evt, TEARDOWN, w);
    var w' := Teardown(env, d, evt, w).0;
    forall i | |w.log| <= i < |w'.log| ensures !Deletes(w'.log[i], StormKey(evt)) {
      assert Within(WithoutStorm(evt), w'.log[i].what);
    }
  }

  /** The dynamic client is needed for this: an acked delete has seen everything that
    * serves gone if and only if the controller has one; without it such a delete
    * never looks at the StormService. */
  lemma AckedDeleteIsDone(env: Env, d: Setup, evt: ChangeEvent, w: World)
    requires Proper(env, d) && VerdictOf(Teardown(env, d, evt, w).1) == Ack
    ensures NothingServes(env, w, Teardown(env, d, evt, w).0, evt) <==> d.dynamic
  {
    if d.dynamic {
      TeardownVerdict(env, d, evt, w);
    } else {
      TeardownWithoutClient(env, d, evt, w);
      assert Serves(evt, StormKey(evt));
    }
  }

  /** Without it a delete changes nothing about the StormService: unless others do, it is
    * there afterwards if and only if it was before. */
  lemma StormUntouched(env: Env, d: Setup, evt: ChangeEvent, w: World)
    requires Proper(env, d) && !d.dynamic && NeverRemoved(env, StormKey(evt)) && NeverInserted(env, StormKey(evt))
    ensures StormKey(evt) in Teardown(env, d, evt, w).0.store.objects <==> StormKey(evt) in w.store.objects
  {
    var w' := Teardown(env, d, evt, w).0;
    TeardownWithoutClient(env, d, evt, w);
    if StormKey(evt) in w.store.objects {
      Migration.NotRemoved(env, w, w', WithoutStorm(evt), StormKey(evt));
      StaysPresent(env, w, w', StormKey(evt));
    } else {
      GoneForGood(env, w, w', WithoutStorm(evt), StormKey(evt));
    }
  }

  /** So without it, when the three calls succeed and others leave the StormService
    * in place, the delete is acked and the StormService still there. */
  lemma StormOutlivesDelete(env: Env, d: Setup, evt: ChangeEvent, w: World)
    requires Proper(env, d) && !d.dynamic && !SomeFault(env, |w.log|, 3)
    requires NeverRemoved(env, StormKey(evt)) && StormKey(evt) in w.store.objects
    ensures var (w', err) := Teardown(env, d, evt, w);
            VerdictOf(err) == Ack && StormKey(evt) in w'.store.objects && !NothingServes(env, w, w', evt)
  {
    var w' := Teardown(env, d, evt, w).0;
    AckWithoutClient(env, d, evt, w);
    AckedDeleteIsDone(env, d, evt, w);
    TeardownWithoutClient(env, d, evt, w);
    Migration.NotRemoved(env, w, w', WithoutStorm(evt), StormKey(evt));
    StaysPresent(env, w, w', StormKey(evt));
  }

  // ---------------------------------------------------------------- sessions

  type Queues = Broker.State<Message>

  /** A message that left its queue for good, with the calls made for it. */
  datatype Outcome = Outcome(msg: Message, verdict: Verdict, before: World, after: World)

  datatype Session = Session(queues: Queues, world: World, outcomes: seq<Outcome>)

  /** What may happen: any step of the broker, except that only the consumer settles
    * its deliveries, or the consumer serving the head of its queue. */
  datatype Event = Traffic(step: Broker.Step<Message>) | Serve

  function QueueOf(s: Session, name: string): seq<Message> {
    if name in s.queues.queues then s.queues.queues[name].waiting else []
  }

  function Settle(queues: Queues, name: string, msg: Message, verdict: Verdict): Queues {
    Broker.Next(Broker.Next(queues, Broker.OnQueue(name, Broker.Deliver)),
      Broker.OnQueue(name, Broker.Settle(msg, verdict)))
  }

  /** What becomes of the head once its handler has returned. */
  function Returned(name: string, s: Session, msg: Message, result: (World, Option<Error>)): Session {
    var verdict := VerdictOf(result.1);
    Session(Settle(s.queues, name, msg, verdict), result.0,
            s.outcomes + if verdict == Requeue then [] else [Outcome(msg, verdict, s.world, result.0)])
  }

  /** One turn of subscribeOnce's loop: deliver, handle, then ack, reject or requeue. */
  ghost function ServeHead(env: Env, d: Setup, name: string, s: Session): Session
    requires ProperKeys(d)
  {
    if QueueOf(s, name) == [] then s
    else
      var msg := QueueOf(s, name)[0];
      Returned(name, s, msg, Handle(env, d, msg, s.world))
  }

  ghost function OneEvent(env: Env, d: Setup, name: string, s: Session, event: Event): Session
    requires ProperKeys(d)
  {
    match event
    case Serve => ServeHead(env, d, name, s)
    case Traffic(step) => if step.OnQueue? && step.queue == name then s else s.(queues := Broker.Next(s.queues, step))
  }

  /** Any session: messages arrive and are served in any interleaving. */
  ghost function Serving(env: Env, d: Setup, name: string, s: Session, events: seq<Event>): Session
    requires ProperKeys(d)
  {
    if events == [] then s
    else OneEvent(env, d, name, Serving(env, d, name, s, events[..|events| - 1]), events[|events| - 1])
  }

  /** Why a message was allowed to leave its queue. */
  ghost predicate Justified(env: Env, o: Outcome) {
    match TaskOf(o.msg)
    case Invalid => o.verdict == Reject && o.after == o.before
    case Deploy =>
      || (o.verdict == Ack && EndsReady(env, o.after.log, |o.before.log|))
      || (o.verdict == Reject && SaidFailed(o.after.log, |o.before.log|))
    case Undeploy =>
      o.verdict == Ack && NothingServes(env, o.before, o.after, o.msg.evt)
  }

  /** Publishing never fails for a reason marked permanent. */
  ghost predicate PublishMayRetry(env: Env) {
    forall i {:trigger env(i)} :: env(i).publishError.Some? ==> !IsPermanent(env(i).publishError.value)
  }

  /** Every publish goes through the RabbitMQ client. */
  ghost predicate PublishesByRabbit(env: Env) {
    forall i {:trigger env(i)} :: env(i).publishError.Some? ==>
      exists fault :: env(i).publishError.value == Broker.PublishError(fault)
  }

  /** What that client returns never carries the mark, which is mq's own. */
  lemma RabbitMayRetry(env: Env)
    requires PublishesByRabbit(env)
    ensures PublishMayRetry(env)
  {
    forall i | env(i).publishError.Some? ensures !IsPermanent(env(i).publishError.value) {
      var fault :| env(i).publishError.value == Broker.PublishError(fault);
      Broker.PublishMayBeRetried(fault);
    }
  }

  /** Whether the controller can do what the message's departure would need. */
  predicate CanSettle(d: Setup, msg: Message) { d.dynamic || TaskOf(msg) != Undeploy }

  ghost predicate JustIffAble(env: Env, d: Setup, o: Outcome) { Justified(env, o) <==> CanSettle(d, o.msg) }

  lemma HandledJustly(env: Env, d: Setup, msg: Message, w: World)
    requires Proper(env, d) && PublishMayRetry(env)
    ensures var (w', err) := Handle(env, d, msg, w);
            VerdictOf(err) != Requeue ==> JustIffAble(env, d, Outcome(msg, VerdictOf(err), w, w'))
  {
    match TaskOf(msg)
    case Invalid =>
    case Undeploy =>
      if d.dynamic { TeardownVerdict(env, d, msg.evt, w); }
      if VerdictOf(Teardown(env, d, msg.evt, w).1) == Ack { AckedDeleteIsDone(env, d, msg.evt, w); }
    case Deploy =>
      UpsertVerdict(env, d, msg.evt, w);
      var w' := Upsert(env, d, msg.evt, w).0;
      assert env(|w'.log| - 1).publishError.Some? ==> !IsPermanent(env(|w'.log| - 1).publishError.value);
  }

  /** In every session, whatever arrives and whatever the cluster does, each message
    * that left the queue for good was rightly let go: a deploy after a pod listing
    * that found the engine ready, or after its "failed" was published; a delete with
    * everything that serves gone; anything else because no retry could help. Only a
    * delete without a dynamic client is the exception, and always is one. */
  lemma {:induction false} EveryDepartureIsJust(env: Env, d: Setup, name: string, s: Session, events: seq<Event>)
    requires Proper(env, d) && PublishMayRetry(env)
    requires forall o :: o in s.outcomes ==> JustIffAble(env, d, o)
    ensures forall o :: o in Serving(env, d, name, s, events).outcomes ==> JustIffAble(env, d, o)
  {
    if events == [] {
    } else {
      var n := |events| - 1;
      var before := Serving(env, d, name, s, events[..n]);
      EveryDepartureIsJust(env, d, name, s, events[..n]);
      if events[n].Serve? && QueueOf(before, name) != [] {
        HandledJustly(env, d, QueueOf(before, name)[0], before.world);
      }
    }
  }

  /** What that says of a message, by its type: a deploying event was acked after a
    * listing with the engine ready or rejected after its "failed" was published; a
    * delete was acked, with a client after the four objects that serve were seen gone;
    * anything else was rejected without a call. */
  lemma DeparturesMean(env: Env, d: Setup, o: Outcome)
    requires JustIffAble(env, d, o)
    ensures if o.msg.Malformed? || o.msg.evt.serviceId == "" || o.msg.evt.name == ""
            then o.verdict == Reject && o.after == o.before
            else if o.msg.evt.eventType == "delete"
            then d.dynamic ==>
                   && o.verdict == Ack
                   && TornDown(env, o.before, o.after, Key(Deployment, o.msg.evt.name))
                   && TornDown(env, o.before, o.after, Key(StormService, o.msg.evt.name))
                   && TornDown(env, o.before, o.after, Key(Service, o.msg.evt.name + "-svc"))
                   && TornDown(env, o.before, o.after, Key(Autoscaler, "hpa-" + o.msg.evt.name))
            else if o.msg.evt.eventType == "upsert" || o.msg.evt.eventType == "update_version"
              || o.msg.evt.eventType == "rollback"
            then
              || (o.verdict == Ack && EndsReady(env, o.after.log, |o.before.log|))
              || (o.verdict == Reject && SaidFailed(o.after.log, |o.before.log|))
            else o.verdict == Reject && o.after == o.before
  {
    if o.msg.Change? && TaskOf(o.msg) == Undeploy && d.dynamic {
      var evt := o.msg.evt;
      assert Serves(evt, DeploymentKey(evt)) && Serves(evt, StormKey(evt));
      assert Serves(evt, ServiceKey(evt)) && Serves(evt, HPAKey(evt));
    }
  }

  // -------------------------------------------------------------- accounting

  function Gone(outcomes: seq<Outcome>, verdict: Verdict): multiset<Message> {
    if outcomes == [] then multiset{}
    else
      var last := outcomes[|outcomes| - 1];
      Gone(outcomes[..|outcomes| - 1], verdict) + if last.verdict == verdict then multiset{last.msg} else multiset{}
  }

  /** The queue's books agree with the session's outcomes. */
  ghost predicate Booked(name: string, s: Session) {
    name in s.queues.queues &&
    var q := s.queues.queues[name];
    q.unacked == multiset{} && q.acked == Gone(s.outcomes, Ack) && q.rejected == Gone(s.outcomes, Reject)
  }

  lemma SettledHead(q: Broker.Queue<Message>, verdict: Verdict)
    requires q.waiting != [] && q.unacked == multiset{}
    ensures var msg := q.waiting[0];
            var q' := Broker.Moved(Broker.Moved(q, Broker.Deliver), Broker.Settle(msg, verdict));
            && q'.unacked == multiset{}
            && q'.acked == q.acked + (if verdict == Ack then multiset{msg} else multiset{})
            && q'.rejected == q.rejected + (if verdict == Reject then multiset{msg} else multiset{})
            && q'.waiting == if verdict == Requeue then q.waiting else q.waiting[1..]
  {
    var msg := q.waiting[0];
    assert multiset{} + multiset{msg} - multiset{msg} == multiset{};
    assert [msg] + q.waiting[1..] == q.waiting;
  }

  lemma GoneGrows(outcomes: seq<Outcome>, o: Outcome, verdict: Verdict)
    ensures Gone(outcomes + [o], verdict) == Gone(outcomes, verdict)
        + if o.verdict == verdict then multiset{o.msg} else multiset{}
  {
    assert (outcomes + [o])[..|outcomes|] == outcomes;
  }

  lemma SettleIsBooked(name: string, s: Session, w': World, verdict: Verdict)
    requires Booked(name, s) && QueueOf(s, name) != []
    ensures var msg := QueueOf(s, name)[0];
            Booked(name, Session(Settle(s.queues, name, msg, verdict), w',
                                 s.outcomes + if verdict == Requeue then [] else [Outcome(msg, verdict, s.world, w')]))
  {
    var msg := QueueOf(s, name)[0];
    SettledHead(s.queues.queues[name], verdict);
    GoneGrows(s.outcomes, Outcome(msg, verdict, s.world, w'), Ack);
    GoneGrows(s.outcomes, Outcome(msg, verdict, s.world, w'), Reject);
    assert s.outcomes + [] == s.outcomes;
  }

  lemma ServeIsBooked(env: Env, d: Setup, name: string, s: Session)
    requires ProperKeys(d) && Booked(name, s)
    ensures Booked(name, ServeHead(env, d, name, s))
  {
    if QueueOf(s, name) != [] {
      var (w', err) := Handle(env, d, QueueOf(s, name)[0], s.world);
      SettleIsBooked(name, s, w', VerdictOf(err));
    }
  }

  lemma SettleConserves(queues: Queues, name: string, msg: Message, verdict: Verdict)
    requires Broker.Conserved(queues)
    ensures Broker.Conserved(Settle(queues, name, msg, verdict))
  {
    var one := Broker.OnQueue(name, Broker.Deliver);
    Broker.StepConserves(queues, one);
    Broker.StepConserves(Broker.Next(queues, one), Broker.OnQueue(name, Broker.Settle(msg, verdict)));
  }

  lemma TrafficIsBooked(name: string, s: Session, step: Broker.Step<Message>)
    requires Booked(name, s) && !(step.OnQueue? && step.queue == name)
    ensures Booked(name, s.(queues := Broker.Next(s.queues, step)))
  {
  }

  lemma EventIsBooked(env: Env, d: Setup, name: string, s: Session, event: Event)
    requires ProperKeys(d) && Booked(name, s) && Broker.Conserved(s.queues)
    ensures var t := OneEvent(env, d, name, s, event); Booked(name, t) && Broker.Conserved(t.queues)
  {
    match event
    case Serve =>
      ServeIsBooked(env, d, name, s);
      if QueueOf(s, name) != [] {
        var msg := QueueOf(s, name)[0];
        SettleConserves(s.queues, name, msg, VerdictOf(Handle(env, d, msg, s.world).1));
      }
    case Traffic(step) =>
      if !(step.OnQueue? && step.queue == name) {
        TrafficIsBooked(name, s, step);
        Broker.StepConserves(s.queues, step);
      }
  }

  /** What the books say. */
  lemma BooksAddUp(name: string, s: Session)
    requires Booked(name, s) && Broker.Conserved(s.queues)
    ensures var q := s.queues.queues[name];
            Broker.Owed(q.bound, s.queues.published, |s.queues.published|)
            == Gone(s.outcomes, Ack) + Gone(s.outcomes, Reject) + multiset(q.waiting)
  {
    assert Broker.Balanced(s.queues.queues[name], s.queues.published);
  }

  lemma {:induction false} StaysBooked(env: Env, d: Setup, name: string, s: Session, events: seq<Event>)
    requires ProperKeys(d) && Booked(name, s) && Broker.Conserved(s.queues)
    ensures var t := Serving(env, d, name, s, events); Booked(name, t) && Broker.Conserved(t.queues)
  {
    if events == [] {
    } else {
      var n := |events| - 1;
      StaysBooked(env, d, name, s, events[..n]);
      EventIsBooked(env, d, name, Serving(env, d, name, s, events[..n]), events[n]);
    }
  }

  /** The outcomes are exactly the messages the broker has for good: it acked and
    * rejected those and no others, and still has every other message it was owed. */
  lemma OutcomesAreTheDepartures(env: Env, d: Setup, name: string, s: Session, events: seq<Event>)
    requires ProperKeys(d) && Booked(name, s) && Broker.Conserved(s.queues)
    ensures var t := Serving(env, d, name, s, events);
            && Booked(name, t) && Broker.Conserved(t.queues)
            && var q := t.queues.queues[name];
               Broker.Owed(q.bound, t.queues.published, |t.queues.published|)
               == Gone(t.outcomes, Ack) + Gone(t.outcomes, Reject) + multiset(q.waiting)
  {
    StaysBooked(env, d, name, s, events);
    BooksAddUp(name, Serving(env, d, name, s, events));
  }
}

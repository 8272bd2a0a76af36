/** One consumer serves its queue in order, so the last message published about a
  * service is the one its objects are left by.
  * subscribeOnce of pkg/mq/rabbitmq.go with internal/controller/reconciler.go. */
module InOrder {
  import opened Prelude
  import opened Errors
  import opened Events
  import opened Objects
  import opened Cluster
  import opened Reconcile
  import opened Session
  import Broker
  import History

  type Published = Broker.Published<Message>

  function DueOne(bound: map<string, nat>, p: Published, at: nat): seq<Message> {
    if p.subject in bound && bound[p.subject] <= at then [p.body] else []
  }

  /** What a queue was owed, of the first n messages, in the order of their publication. */
  function Due(bound: map<string, nat>, published: seq<Published>, n: nat): seq<Message>
    requires n <= |published|
  {
    if n == 0 then [] else Due(bound, published, n - 1) + DueOne(bound, published[n - 1], n - 1)
  }

  /** The messages that left for good, in the order they did. */
  function Left(outcomes: seq<Outcome>): seq<Message> {
    if outcomes == [] then [] else Left(outcomes[..|outcomes| - 1]) + [outcomes[|outcomes| - 1].msg]
  }

  /** What left and what waits is, in this order, what was due. */
  ghost predicate Ordered(name: string, s: Session) {
    && name in s.queues.queues
    && var q, published := s.queues.queues[name], s.queues.published;
    && q.unacked == multiset{}
    && (forall subject :: subject in q.bound ==> q.bound[subject] <= |published|)
    && Left(s.outcomes) + q.waiting == Due(q.bound, published, |published|)
  }

  // ------------------------------------------------------------- publishing

  lemma {:induction false} DuePrefix(bound: map<string, nat>, published: seq<Published>, p: Published, n: nat)
    requires n <= |published|
    ensures Due(bound, published + [p], n) == Due(bound, published, n)
  {
    if n == 0 {
    } else {
      DuePrefix(bound, published, p, n - 1);
    }
  }

  lemma DueGrows(bound: map<string, nat>, published: seq<Published>, p: Published)
    ensures Due(bound, published + [p], |published| + 1)
         == Due(bound, published, |published|) + DueOne(bound, p, |published|)
  {
    DuePrefix(bound, published, p, |published|);
  }

  lemma {:induction false} DueBefore(
    bound: map<string, nat>, subject: string, now: nat, published: seq<Published>, n: nat)
    requires n <= |published| && n <= now && subject !in bound
    ensures Due(bound[subject := now], published, n) == Due(bound, published, n)
  {
    if n == 0 {
    } else {
      DueBefore(bound, subject, now, published, n - 1);
    }
  }

  lemma PublishOrdered(name: string, s: Session, subject: string, body: Message)
    requires Ordered(name, s)
    ensures Ordered(name, s.(queues := Broker.Next(s.queues, Broker.Publish(subject, body))))
  {
    var q := s.queues.queues[name];
    DueGrows(q.bound, s.queues.published, Broker.Published(subject, body));
    assert Left(s.outcomes) + (q.waiting + [body]) == Left(s.outcomes) + q.waiting + [body];
  }

  lemma BindOrdered(name: string, s: Session, subject: string, group: string)
    requires Ordered(name, s)
    ensures Ordered(name, s.(queues := Broker.Next(s.queues, Broker.Bind(subject, group))))
  {
    var q, n := s.queues.queues[name], |s.queues.published|;
    if subject !in q.bound { DueBefore(q.bound, subject, n, s.queues.published, n); }
  }

  lemma TrafficOrdered(name: string, s: Session, step: Broker.Step<Message>)
    requires Ordered(name, s) && !(step.OnQueue? && step.queue == name)
    ensures Ordered(name, s.(queues := Broker.Next(s.queues, step)))
  {
    match step
    case Publish(subject, body) => PublishOrdered(name, s, subject, body);
    case Bind(subject, group) => BindOrdered(name, s, subject, group);
    case OnQueue(other, move) =>
  }

  // ----------------------------------------------------------------- serving

  lemma LeftGrows(outcomes: seq<Outcome>, o: Outcome)
    ensures Left(outcomes + [o]) == Left(outcomes) + [o.msg]
  {
    assert (outcomes + [o])[..|outcomes|] == outcomes;
  }

  lemma SettledQueue(queues: Queues, name: string, verdict: Verdict)
    requires name in queues.queues && queues.queues[name].waiting != [] && queues.queues[name].unacked == multiset{}
    ensures var q := queues.queues[name];
            var after := Settle(queues, name, q.waiting[0], verdict);
            && after.published == queues.published && name in after.queues
            && after.queues[name].bound == q.bound && after.queues[name].unacked == multiset{}
            && after.queues[name].waiting == if verdict == Requeue then q.waiting else q.waiting[1..]
  {
    SettledHead(queues.queues[name], verdict);
  }

  /** A settled head leaves; a requeued one is the head again. */
  ghost predicate HeadMoved(name: string, s: Session, t: Session, verdict: Verdict)
    requires QueueOf(s, name) != []
  {
    if verdict == Requeue then t.outcomes == s.outcomes && QueueOf(t, name) == QueueOf(s, name)
    else Left(t.outcomes) == Left(s.outcomes) + [QueueOf(s, name)[0]] && QueueOf(t, name) == QueueOf(s, name)[1..]
  }

  lemma ReturnedMoves(name: string, s: Session, result: (World, Option<Error>))
    requires Ordered(name, s) && QueueOf(s, name) != []
    ensures var t := Returned(name, s, QueueOf(s, name)[0], result);
            t.world == result.0 && Ordered(name, t) && HeadMoved(name, s, t, VerdictOf(result.1))
  {
    var waiting, verdict := QueueOf(s, name), VerdictOf(result.1);
    SettledQueue(s.queues, name, verdict);
    LeftGrows(s.outcomes, Outcome(waiting[0], verdict, s.world, result.0));
    assert Left(s.outcomes) + waiting == Left(s.outcomes) + [waiting[0]] + waiting[1..];
    assert s.outcomes + [] == s.outcomes;
  }

  lemma EventOrdered(env: Env, d: Setup, name: string, s: Session, event: Event)
    requires ProperKeys(d) && Ordered(name, s)
    ensures Ordered(name, OneEvent(env, d, name, s, event))
  {
    match event
    case Serve =>
      if QueueOf(s, name) != [] { ReturnedMoves(name, s, Handle(env, d, QueueOf(s, name)[0], s.world)); }
    case Traffic(step) =>
      if !(step.OnQueue? && step.queue == name) { TrafficOrdered(name, s, step); }
  }

  /** In every session, whatever is published and bound meanwhile and however often a
    * message is retried: what left and what waits is, in this order, what the queue was
    * owed, so no message overtakes another. */
  lemma {:induction false} ServedInOrder(env: Env, d: Setup, name: string, s: Session, events: seq<Event>)
    requires ProperKeys(d) && Ordered(name, s)
    ensures Ordered(name, Serving(env, d, name, s, events))
  {
    if events == [] {
    } else {
      var n := |events| - 1;
      ServedInOrder(env, d, name, s, events[..n]);
      EventOrdered(env, d, name, Serving(env, d, name, s, events[..n]), events[n]);
    }
  }

  // ----------------------------------------------------- the last message wins

  /** The object is as the last of the messages about the service wants it. */
  ghost predicate Current(
    d: Setup, nodes: seq<Labels>, svc: ChangeEvent, s: Store, key: Key, msgs: seq<Message>)
  {
    forall k: nat :: History.LastAbout(svc, msgs, k) ==>
      msgs[k].Change? && History.Holds(s, key, History.WantedAfter(d, nodes, msgs[k], key))
  }

  /** The head is about the service and was tried before: the object is as it wants. */
  ghost predicate Retrying(
    d: Setup, nodes: seq<Labels>, svc: ChangeEvent, s: Store, key: Key, waiting: seq<Message>)
  {
    && waiting != [] && History.About(svc, waiting[0]) && waiting[0].Change?
    && History.Holds(s, key, History.WantedAfter(d, nodes, waiting[0], key))
  }

  ghost predicate Keeps(d: Setup, nodes: seq<Labels>, svc: ChangeEvent, name: string, s: Session, key: Key) {
    && Ordered(name, s) && History.Start(d, nodes, svc, s.world)
    && (forall m :: m in QueueOf(s, name) ==> History.OwnName(svc, m))
    && (Current(d, nodes, svc, s.world.store, key, Left(s.outcomes))
        || Retrying(d, nodes, svc, s.world.store, key, QueueOf(s, name)))
  }

  lemma CurrentWith(
    d: Setup, nodes: seq<Labels>, svc: ChangeEvent, s: Store, s': Store, key: Key, msgs: seq<Message>, msg: Message)
    requires if History.About(svc, msg)
             then msg.Change? && History.Holds(s', key, History.WantedAfter(d, nodes, msg, key))
             else Current(d, nodes, svc, s, key, msgs) && Same(s, s', key)
    ensures Current(d, nodes, svc, s', key, msgs + [msg])
  {
    var more := msgs + [msg];
    forall k: nat | History.LastAbout(svc, more, k)
      ensures more[k].Change? && History.Holds(s', key, History.WantedAfter(d, nodes, more[k], key))
    {
      if History.About(svc, msg) {
        assert more[|msgs|] == msg && !(k < |msgs|);
      } else {
        assert k < |msgs| && forall j :: k < j < |msgs| ==> more[j] == msgs[j];
        assert History.LastAbout(svc, msgs, k);
        History.SameHolds(s, s', key, History.WantedAfter(d, nodes, msgs[k], key));
      }
    }
  }

  lemma CurrentSame(d: Setup, nodes: seq<Labels>, svc: ChangeEvent, s: Store, s': Store, key: Key, msgs: seq<Message>)
    requires Current(d, nodes, svc, s, key, msgs) && Same(s, s', key)
    ensures Current(d, nodes, svc, s', key, msgs)
  {
    forall k: nat | History.LastAbout(svc, msgs, k)
      ensures History.Holds(s', key, History.WantedAfter(d, nodes, msgs[k], key))
    {
      History.SameHolds(s, s', key, History.WantedAfter(d, nodes, msgs[k], key));
    }
  }

  /** What handling the head makes of the object. */
  lemma HeadHandled(
    env: Env, d: Setup, svc: ChangeEvent, nodes: seq<Labels>, msg: Message, w: World, key: Key)
    requires History.Scene(env, d, svc, nodes) && History.Start(d, nodes, svc, w) && History.Mine(svc, key)
    requires History.OwnName(svc, msg)
    ensures var w' := Handle(env, d, msg, w).0;
            && History.Start(d, nodes, svc, w')
            && if History.About(svc, msg)
               then msg.Change? && History.Holds(w'.store, key, History.WantedAfter(d, nodes, msg, key))
               else Same(w.store, w'.store, key)
  {
    History.StaysStart(env, d, svc, nodes, msg, w);
    if History.About(svc, msg) {
      History.EventDecides(env, d, svc, nodes, msg, w, key);
    } else {
      History.OthersTouchNothing(env, d, svc, nodes, msg, w, key);
    }
  }

  lemma MovedKeeps(
    d: Setup, svc: ChangeEvent, nodes: seq<Labels>, name: string, s: Session, t: Session, key: Key, verdict: Verdict)
    requires Keeps(d, nodes, svc, name, s, key) && QueueOf(s, name) != []
    requires Ordered(name, t) && HeadMoved(name, s, t, verdict) && History.Start(d, nodes, svc, t.world)
    requires var msg := QueueOf(s, name)[0];
             if History.About(svc, msg)
             then msg.Change? && History.Holds(t.world.store, key, History.WantedAfter(d, nodes, msg, key))
             else Same(s.world.store, t.world.store, key)
    ensures Keeps(d, nodes, svc, name, t, key)
  {
    var msg := QueueOf(s, name)[0];
    if verdict != Requeue {
      CurrentWith(d, nodes, svc, s.world.store, t.world.store, key, Left(s.outcomes), msg);
    } else if !History.About(svc, msg) {
      CurrentSame(d, nodes, svc, s.world.store, t.world.store, key, Left(s.outcomes));
    }
  }

  lemma HeadKeeps(env: Env, d: Setup, svc: ChangeEvent, nodes: seq<Labels>, name: string, s: Session, key: Key)
    requires History.Scene(env, d, svc, nodes) && History.Mine(svc, key)
    requires Keeps(d, nodes, svc, name, s, key) && QueueOf(s, name) != []
    ensures Keeps(d, nodes, svc, name, ServeHead(env, d, name, s), key)
  {
    var msg := QueueOf(s, name)[0];
    var result := Handle(env, d, msg, s.world);
    HeadHandled(env, d, svc, nodes, msg, s.world, key);
    ReturnedMoves(name, s, result);
    MovedKeeps(d, svc, nodes, name, s, Returned(name, s, msg, result), key, VerdictOf(result.1));
  }

  /** Whoever publishes about the service knows its id. */
  ghost predicate Publishes(svc: ChangeEvent, event: Event) {
    event.Traffic? && event.step.Publish? ==> History.OwnName(svc, event.step.body)
  }

  lemma TrafficWaits(name: string, s: Session, step: Broker.Step<Message>)
    requires name in s.queues.queues && !(step.OnQueue? && step.queue == name)
    ensures var t := s.(queues := Broker.Next(s.queues, step));
            QueueOf(t, name) == QueueOf(s, name)
            || (step.Publish? && QueueOf(t, name) == QueueOf(s, name) + [step.body])
  {
  }

  lemma TrafficKeeps(
    d: Setup, svc: ChangeEvent, nodes: seq<Labels>, name: string, s: Session, step: Broker.Step<Message>, key: Key)
    requires Keeps(d, nodes, svc, name, s, key) && !(step.OnQueue? && step.queue == name)
    requires Publishes(svc, Traffic(step))
    ensures Keeps(d, nodes, svc, name, s.(queues := Broker.Next(s.queues, step)), key)
  {
    TrafficOrdered(name, s, step);
    TrafficWaits(name, s, step);
  }

  lemma {:induction false} StaysKept(
    env: Env, d: Setup, svc: ChangeEvent, nodes: seq<Labels>, name: string, s: Session, events: seq<Event>, key: Key)
    requires History.Scene(env, d, svc, nodes) && History.Mine(svc, key) && Keeps(d, nodes, svc, name, s, key)
    requires forall event :: event in events ==> Publishes(svc, event)
    ensures Keeps(d, nodes, svc, name, Serving(env, d, name, s, events), key)
  {
    if events == [] {
    } else {
      var n := |events| - 1;
      var before := Serving(env, d, name, s, events[..n]);
      StaysKept(env, d, svc, nodes, name, s, events[..n], key);
      assert Publishes(svc, events[n]);
      match events[n]
      case Serve => if QueueOf(before, name) != [] { HeadKeeps(env, d, svc, nodes, name, before, key); }
      case Traffic(step) =>
        if !(step.OnQueue? && step.queue == name) { TrafficKeeps(d, svc, nodes, name, before, step, key); }
    }
  }

  /** What a queue was owed so far, in order. */
  function DueTo(name: string, s: Session): seq<Message>
    requires name in s.queues.queues
  {
    Due(s.queues.queues[name].bound, s.queues.published, |s.queues.published|)
  }

  /** From the publisher to the cluster: in every undisturbed session that has served all
    * it was owed, each of the service's objects is as the last message published about
    * the service wants it, however messages arrived, were refused and were retried. */
  lemma LastPublishedWins(
    env: Env, d: Setup, svc: ChangeEvent, nodes: seq<Labels>, name: string, s: Session, events: seq<Event>, key: Key,
    k: nat)
    requires History.Scene(env, d, svc, nodes) && History.Mine(svc, key) && History.Start(d, nodes, svc, s.world)
    requires Ordered(name, s) && s.outcomes == [] && (forall m :: m in QueueOf(s, name) ==> History.OwnName(svc, m))
    requires forall event :: event in events ==> Publishes(svc, event)
    requires QueueOf(Serving(env, d, name, s, events), name) == []
    ensures var t := Serving(env, d, name, s, events);
            && Ordered(name, t)
            && (History.LastAbout(svc, DueTo(name, t), k) ==>
                  && DueTo(name, t)[k].Change?
                  && History.Holds(t.world.store, key, History.WantedAfter(d, nodes, DueTo(name, t)[k], key)))
  {
    var t := Serving(env, d, name, s, events);
    StaysKept(env, d, svc, nodes, name, s, events, key);
    assert Left(t.outcomes) + [] == Left(t.outcomes);
  }
}

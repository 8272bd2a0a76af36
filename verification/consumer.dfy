/** The consumer loop of pkg/mq/rabbitmq.go: one unacked delivery at a time, settled
  * by what the handler returned. */
module Consumer {
  import opened Prelude
  import opened Errors
  import opened Cluster
  import opened Reconcile
  import opened Reconciler
  import Desired
  import Session
  import Broker

  /** How the set-up of a consumer ends; binding comes before its last steps. */
  datatype Opening = Open | Failed(err: Error, bound: bool)

  /** What the consumer's select sees last: the context is over, or the AMQP channel. */
  datatype End = Done | ChannelClosed

  const CHANNEL_CLOSED: Error := Text("mq: consume channel closed")

  class Channel {
    const subject: string
    const group: string
    const name: string := Broker.QueueName(subject, group)
    const controller: Controller
    var queues: Session.Queues
    ghost var outcomes: seq<Session.Outcome>

    constructor (subject: string, group: string, controller: Controller, queues: Session.Queues)
      ensures this.subject == subject && this.group == group
      ensures this.controller == controller && this.queues == queues && outcomes == []
    {
      this.subject, this.group := subject, group;
      this.controller, this.queues, outcomes := controller, queues, [];
    }

    ghost function State(): Session.Session
      reads this, controller
    {
      Session.Session(queues, controller.View(), outcomes)
    }

    method Settle(msg: Message, verdict: Verdict)
      modifies this`queues
      ensures queues == Session.Settle(old(queues), name, msg, verdict)
    {
      queues := Broker.Next(queues, Broker.OnQueue(name, Broker.Deliver));
      match verdict
      case Ack => queues := Broker.Next(queues, Broker.OnQueue(name, Broker.Settle(msg, Ack)));
      case Reject => queues := Broker.Next(queues, Broker.OnQueue(name, Broker.Settle(msg, Reject)));
      case Requeue => queues := Broker.Next(queues, Broker.OnQueue(name, Broker.Settle(msg, Requeue)));
    }

    /** No error acks the delivery, a permanent one rejects it, any other puts it back
      * at the head of the queue. */
    method Conclude(msg: Message, err: Option<Error>, ghost before: World)
      modifies this
      ensures State() == Session.Returned(name, Session.Session(old(queues), before, old(outcomes)), msg,
          (controller.View(), err))
    {
      var verdict := if err.None? then Ack else if IsPermanent(err.value) then Reject else Requeue;
      Settle(msg, verdict);
      if verdict != Requeue {
        outcomes := outcomes + [Session.Outcome(msg, verdict, before, controller.View())];
      }
    }

    /** The handler at work. */
    method Work(cfg: Desired.Config, msg: Message, attempts: nat, ghost d: Setup) returns (err: Option<Error>)
      requires ProperKeys(d) && d == Desired.SetupOf(cfg, controller.env) && attempts == d.attempts
      modifies controller
      ensures (controller.View(), err) == Handle(controller.env, d, msg, old(controller.View()))
    {
      ConfiguredDrives(cfg, controller.env);
      err := ApplyInferServiceChange(controller, cfg, msg, attempts, d);
    }

    /** One delivery. */
    method ServeOne(cfg: Desired.Config, attempts: nat, ghost d: Setup)
      requires ProperKeys(d) && d == Desired.SetupOf(cfg, controller.env) && attempts == d.attempts
      modifies this, controller
      ensures State() == Session.ServeHead(controller.env, d, name, old(State()))
    {
      if name !in queues.queues || queues.queues[name].waiting == [] { return; }
      var msg := queues.queues[name].waiting[0];
      ghost var before := controller.View();
      var err := Work(cfg, msg, attempts, d);
      Conclude(msg, err, before);
    }

    /** What the select saw, unless it was an end: the session so far, and this. */
    method Turn(cfg: Desired.Config, event: Session.Event, attempts: nat, ghost d: Setup,
                ghost start: Session.Session, ghost past: seq<Session.Event>)
      requires ProperKeys(d) && d == Desired.SetupOf(cfg, controller.env) && attempts == d.attempts
      requires State() == Session.Serving(controller.env, d, name, start, past)
      modifies this, controller
      ensures State() == Session.Serving(controller.env, d, name, start, past + [event])
    {
      ServingOn(controller.env, d, name, start, past, event);
      match event
      case Serve => ServeOne(cfg, attempts, d);
      case Traffic(step) =>
        if !(step.OnQueue? && step.queue == name) { queues := Broker.Next(queues, step); }
    }

    /** The select loop: deliveries, and the broker at work elsewhere, as they come. */
    method ServeAll(cfg: Desired.Config, events: seq<Session.Event>, attempts: nat, ghost d: Setup)
      requires ProperKeys(d) && d == Desired.SetupOf(cfg, controller.env) && attempts == d.attempts
      modifies this, controller
      ensures State() == Session.Serving(controller.env, d, name, old(State()), events)
    {
      ghost var start := State();
      for i := 0 to |events|
        invariant State() == Session.Serving(controller.env, d, name, start, events[..i])
      {
        Turn(cfg, events[i], attempts, d, start, events[..i]);
        OneMore(events, i);
      }
      AllOfThem(events);
    }

    /** Declaring the queue and binding it to the subject. */
    method Bind()
      modifies this`queues
      ensures queues == Broker.Next(old(queues), Broker.Bind(subject, group))
    {
      queues := Broker.Next(queues, Broker.Bind(subject, group));
    }

    /** subscribeOnce: bind the queue, then serve its deliveries until the context is done,
      * which is no error, or the AMQP channel closes, which is one. */
    method SubscribeOnce(
      cfg: Desired.Config, opening: Opening, events: seq<Session.Event>, end: End, attempts: nat, ghost d: Setup)
      returns (err: Option<Error>)
      requires ProperKeys(d) && d == Desired.SetupOf(cfg, controller.env) && attempts == d.attempts
      modifies this, controller
      ensures err == if opening.Failed? then Some(opening.err) else if end.Done? then None else Some(CHANNEL_CLOSED)
      ensures State() == Subscribed(controller.env, d, subject, group, old(State()), opening, events)
    {
      if opening.Failed? {
        if opening.bound { Bind(); }
        return Some(opening.err);
      }
      Bind();
      ServeAll(cfg, events, attempts, d);
      err := if end.Done? then None else Some(CHANNEL_CLOSED);
    }
  }

  lemma OneMore(events: seq<Session.Event>, i: nat)
    requires i < |events|
    ensures events[..i + 1] == events[..i] + [events[i]]
  {
  }

  lemma AllOfThem(events: seq<Session.Event>)
    ensures events[..|events|] == events
  {
  }

  lemma ServingOn(env: Env, d: Setup, name: string, s: Session.Session, past: seq<Session.Event>, event: Session.Event)
    requires ProperKeys(d)
    ensures Session.Serving(env, d, name, s, past + [event])
         == Session.OneEvent(env, d, name, Session.Serving(env, d, name, s, past), event)
  {
    assert (past + [event])[..|past|] == past;
  }

  ghost function Bound(s: Session.Session, subject: string, group: string): Session.Session {
    s.(queues := Broker.Next(s.queues, Broker.Bind(subject, group)))
  }

  /** The session a subscription makes. */
  ghost function Subscribed(
    env: Env, d: Setup, subject: string, group: string, s: Session.Session, opening: Opening,
    events: seq<Session.Event>): Session.Session
    requires ProperKeys(d)
  {
    if opening.Failed? then if opening.bound then Bound(s, subject, group) else s
    else Session.Serving(env, d, Broker.QueueName(subject, group), Bound(s, subject, group), events)
  }

  lemma BoundIsBooked(s: Session.Session, subject: string, group: string)
    requires Broker.Conserved(s.queues) && s.outcomes == [] && Broker.QueueName(subject, group) !in s.queues.queues
    ensures var t := Bound(s, subject, group);
            Broker.Conserved(t.queues) && Session.Booked(Broker.QueueName(subject, group), t)
  {
    Broker.StepConserves(s.queues, Broker.Bind(subject, group));
  }

  /** A controller of any configuration that subscribes with a new queue: every message
    * its queue was owed since is still waiting, or was rightly acked or rejected, but
    * for the deletes of a controller without a dynamic client. */
  lemma ConfiguredSession(
    cfg: Desired.Config, env: Env, subject: string, group: string, s: Session.Session, events: seq<Session.Event>)
    requires Session.PublishMayRetry(env) && Broker.Conserved(s.queues)
    requires s.outcomes == [] && Broker.QueueName(subject, group) !in s.queues.queues
    ensures ProperKeys(Desired.SetupOf(cfg, env))
    ensures var d, name := Desired.SetupOf(cfg, env), Broker.QueueName(subject, group);
            var t := Subscribed(env, d, subject, group, s, Open, events);
            && name in t.queues.queues
            && (forall o :: o in t.outcomes ==> Session.JustIffAble(env, d, o))
            && var q := t.queues.queues[name];
               Broker.Owed(q.bound, t.queues.published, |t.queues.published|)
               == Session.Gone(t.outcomes, Ack) + Session.Gone(t.outcomes, Reject) + multiset(q.waiting)
  {
    Desired.SetupIsProper(cfg, env);
    BoundIsBooked(s, subject, group);
    var d := Desired.SetupOf(cfg, env);
    Session.EveryDepartureIsJust(env, d, Broker.QueueName(subject, group), Bound(s, subject, group), events);
    Session.OutcomesAreTheDepartures(env, d, Broker.QueueName(subject, group), Bound(s, subject, group), events);
  }
}

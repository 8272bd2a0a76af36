/** The message broker: queues per subject and consumer group.
  * pkg/mq/rabbitmq.go and the subjects of pkg/mq/mq.go. */
module Broker {
  import opened Errors

  // ------------------------------------------------------------- queue names

  const SUBJECTS: set<string> := INFER + IMAGE + RUNTIME + FAULT + SINGLES

  const INFER: set<string> :=
    {"infer.services.changes", "infer.services.status", "infer.services.concurrency", "infer.routing.policies"}
  const IMAGE: set<string> := {"image.warmups", "image.warmup.status"}
  const RUNTIME: set<string> := {"runtime.health", "runtime.scheme", "runtime.models.changes"}
  const FAULT: set<string> := {"fault.signals", "fault.actions"}
  const SINGLES: set<string> :=
    {"accelerator.inventory", "metering.events", "billing.settlements", "webhook.events", "notification.events",
     "cluster.health", "quota.orgs.concurrency"}

  function Suffix(group: string): string { if group == "" then "" else "." + group }

  /** subscribeOnce: the queue is named after the subject and the group. */
  function QueueName(subject: string, group: string): string { "taas." + (subject + Suffix(group)) }

  function At(s: string, i: nat): char { if i < |s| then s[i] else ' ' }

  /** The only subject whose queues can have a name that goes on like this. */
  function SubjectOf(s: string): string {
    var c := At(s, 0);
    if c == 'i' then
      if At(s, 1) == 'm' then if At(s, 12) == 's' then "image.warmups" else "image.warmup.status"
      else if At(s, 6) == 'r' then "infer.routing.policies"
      else if At(s, 15) == 's' then "infer.services.status"
      else if At(s, 16) == 'h' then "infer.services.changes"
      else "infer.services.concurrency"
    else if c == 'r' then
      if At(s, 8) == 'h' then "runtime.health"
      else if At(s, 8) == 's' then "runtime.scheme"
      else "runtime.models.changes"
    else if c == 'f' then if At(s, 6) == 's' then "fault.signals" else "fault.actions"
    else if c == 'a' then "accelerator.inventory"
    else if c == 'm' then "metering.events"
    else if c == 'b' then "billing.settlements"
    else if c == 'w' then "webhook.events"
    else if c == 'n' then "notification.events"
    else if c == 'c' then "cluster.health"
    else "quota.orgs.concurrency"
  }

  lemma AtPrefix(s: string, rest: string)
    ensures forall i: nat :: i < |s| ==> At(s + rest, i) == At(s, i) == s[i]
  {
  }

  lemma InferRecognised(s: string, rest: string)
    requires s in INFER
    ensures SubjectOf(s + rest) == s
  {
    AtPrefix(s, rest);
    assert |s| >= 21;
  }

  lemma ImageRecognised(s: string, rest: string)
    requires s in IMAGE
    ensures SubjectOf(s + rest) == s
  {
    AtPrefix(s, rest);
    assert |s| >= 13;
  }

  lemma RuntimeRecognised(s: string, rest: string)
    requires s in RUNTIME + FAULT
    ensures SubjectOf(s + rest) == s
  {
    AtPrefix(s, rest);
    assert |s| >= 13;
  }

  lemma SingleRecognised(s: string, rest: string)
    requires s in SINGLES
    ensures SubjectOf(s + rest) == s
  {
    AtPrefix(s, rest);
    assert |s| >= 14;
  }

  lemma Recognised(s: string, rest: string)
    requires s in SUBJECTS
    ensures SubjectOf(s + rest) == s
  {
    if s in INFER { InferRecognised(s, rest); }
    else if s in IMAGE { ImageRecognised(s, rest); }
    else if s in SINGLES { SingleRecognised(s, rest); }
    else { RuntimeRecognised(s, rest); }
  }

  lemma Cancel(prefix: string, x: string, y: string)
    requires prefix + x == prefix + y
    ensures x == y
  {
    assert (prefix + x)[|prefix|..] == x && (prefix + y)[|prefix|..] == y;
  }

  lemma SuffixesDiffer(g: string, h: string)
    requires Suffix(g) == Suffix(h)
    ensures g == h
  {
    if g != "" && h != "" { Cancel(".", g, h); }
  }

  /** Whatever the groups are called, two queues of platform subjects have one name
    * only when they are for one subject and one group. */
  lemma QueueNamesDiffer(s: string, g: string, t: string, h: string)
    requires s in SUBJECTS && t in SUBJECTS && QueueName(s, g) == QueueName(t, h)
    ensures s == t && g == h
  {
    Cancel("taas.", s + Suffix(g), t + Suffix(h));
    assert s == t by { Recognised(s, Suffix(g)); Recognised(t, Suffix(h)); }
    Cancel(s, Suffix(g), Suffix(h));
    SuffixesDiffer(g, h);
  }

  /** The names the platform's consumers declare. */
  lemma QueueNameMeans(subject: string, group: string)
    ensures QueueName(subject, "") == "taas." + subject
    ensures group != "" ==> QueueName(subject, group) == "taas." + subject + "." + group
  {
    assert subject + "" == subject;
    assert "taas." + (subject + ("." + group)) == "taas." + subject + "." + group;
  }

  // -------------------------------------------------------------- publishing

  /** Where Publish of the RabbitMQ client stops. The cause is the AMQP library's or
    * the context's; neither can make mq's permanent mark, whose type mq keeps to
    * itself. */
  datatype PublishFault =
    | ClientClosed
    | Dial(cause: string)
    | OpenChannel(cause: string)
    | DeclareExchange(cause: string)
    | OpenPublishChannel(cause: string)
    | Send(cause: string)

  /** What it returns then. */
  function PublishError(fault: PublishFault): Error {
    match fault
    case ClientClosed => Text("mq: rabbitmq client closed")
    case Send(cause) => Text(cause)
    case _ => Wrapped(Text(fault.cause))
  }

  lemma PublishMayBeRetried(fault: PublishFault)
    ensures !IsPermanent(PublishError(fault))
  {
    if fault.Send? || fault.ClientClosed? {
    } else {
      assert !IsPermanent(Text(fault.cause));
    }
  }

  // ------------------------------------------------------------------ queues

  /** One queue: since when it gets which subjects, and where its messages are. */
  datatype Queue<T> = Queue(
    bound: map<string, nat>,
    waiting: seq<T>,
    unacked: multiset<T>,
    acked: multiset<T>,
    rejected: multiset<T>)

  datatype Published<T> = Published(subject: string, body: T)

  datatype State<T> = State(queues: map<string, Queue<T>>, published: seq<Published<T>>)

  /** What may happen to the messages of one queue: the head is delivered, a delivery
    * is settled, or a lost consumer's deliveries come back. */
  datatype Move<T> = Deliver | Settle(body: T, verdict: Verdict) | Disconnect(order: seq<T>)

  datatype Step<T> =
    | Publish(subject: string, body: T)
    | Bind(subject: string, group: string)
    | OnQueue(queue: string, move: Move<T>)

  function Arrive<T>(q: Queue<T>, subject: string, body: T): Queue<T> {
    if subject in q.bound then q.(waiting := q.waiting + [body]) else q
  }

  /** Declaring an existing queue returns it; binding adds the subject to it. */
  function Bound<T>(queues: map<string, Queue<T>>, name: string, subject: string, now: nat): Queue<T> {
    var q := if name in queues then queues[name] else Queue(map[], [], multiset{}, multiset{}, multiset{});
    if subject in q.bound then q else q.(bound := q.bound[subject := now])
  }

  /** ack, reject or requeue; a requeued message goes back to the head. */
  function Settled<T(==)>(q: Queue<T>, body: T, verdict: Verdict): Queue<T> {
    var left := q.(unacked := q.unacked - multiset{body});
    match verdict
    case Ack => left.(acked := left.acked + multiset{body})
    case Reject => left.(rejected := left.rejected + multiset{body})
    case Requeue => left.(waiting := [body] + left.waiting)
  }

  /** A move that is not possible changes nothing. */
  function Moved<T(==)>(q: Queue<T>, move: Move<T>): Queue<T> {
    match move
    case Deliver =>
      if q.waiting == [] then q else q.(waiting := q.waiting[1..], unacked := q.unacked + multiset{q.waiting[0]})
    case Settle(body, verdict) => if body in q.unacked then Settled(q, body, verdict) else q
    case Disconnect(order) =>
      if multiset(order) == q.unacked then q.(waiting := order + q.waiting, unacked := multiset{}) else q
  }

  function Next<T(==)>(s: State<T>, step: Step<T>): State<T> {
    match step
    case Publish(subject, body) =>
      State(map name | name in s.queues ::
        Arrive(s.queues[name], subject, body), s.published + [Published(subject, body)])
    case Bind(subject, group) =>
      var name := QueueName(subject, group);
      s.(queues := s.queues[name := Bound(s.queues, name, subject, |s.published|)])
    case OnQueue(name, move) =>
      if name in s.queues then s.(queues := s.queues[name := Moved(s.queues[name], move)]) else s
  }

  function Run<T(==)>(s: State<T>, steps: seq<Step<T>>): State<T> {
    if steps == [] then s else Next(Run(s, steps[..|steps| - 1]), steps[|steps| - 1])
  }

  // ------------------------------------------------------------ conservation

  function OwedOne<T>(bound: map<string, nat>, p: Published<T>, at: nat): multiset<T> {
    if p.subject in bound && bound[p.subject] <= at then multiset{p.body} else multiset{}
  }

  /** What a queue was owed, of the first n messages: those of its subjects published
    * since it was bound to them. */
  function Owed<T>(bound: map<string, nat>, published: seq<Published<T>>, n: nat): multiset<T>
    requires n <= |published|
  {
    if n == 0 then multiset{} else Owed(bound, published, n - 1) + OwedOne(bound, published[n - 1], n - 1)
  }

  function Accounted<T>(q: Queue<T>): multiset<T> { q.acked + q.rejected + multiset(q.waiting) + q.unacked }

  ghost predicate Balanced<T>(q: Queue<T>, published: seq<Published<T>>) {
    && (forall subject :: subject in q.bound ==> q.bound[subject] <= |published|)
    && Owed(q.bound, published, |published|) == Accounted(q)
  }

  /** In every queue, what was owed is acked, rejected, waiting or unacked. */
  ghost predicate Conserved<T>(s: State<T>) {
    forall name :: name in s.queues ==> Balanced(s.queues[name], s.published)
  }

  lemma {:induction false} OwedPrefix<T>(bound: map<string, nat>, published: seq<Published<T>>, p: Published<T>, n: nat)
    requires n <= |published|
    ensures Owed(bound, published + [p], n) == Owed(bound, published, n)
  {
    if n == 0 {
    } else {
      OwedPrefix(bound, published, p, n - 1);
    }
  }

  lemma OwedOneLater<T>(bound: map<string, nat>, subject: string, since: nat, p: Published<T>, at: nat)
    requires subject !in bound && at < since
    ensures OwedOne(bound[subject := since], p, at) == OwedOne(bound, p, at)
  {
  }

  lemma {:induction false} BindingNow<T>(
    bound: map<string, nat>, subject: string, since: nat, later: map<string, nat>, published: seq<Published<T>>, n: nat)
    requires n <= since && n <= |published| && subject !in bound && later == bound[subject := since]
    ensures Owed(later, published, n) == Owed(bound, published, n)
  {
    if n > 0 {
      BindingNow(bound, subject, since, later, published, n - 1);
      OwedOneLater(bound, subject, since, published[n - 1], n - 1);
    }
  }

  lemma {:induction false} NothingOwed<T>(published: seq<Published<T>>, n: nat)
    requires n <= |published|
    ensures Owed(map[], published, n) == multiset{}
  {
    if n == 0 {
    } else {
      NothingOwed(published, n - 1);
    }
  }

  lemma ArriveAccounts<T>(q: Queue<T>, subject: string, body: T)
    ensures Arrive(q, subject, body).bound == q.bound
    ensures Accounted(Arrive(q, subject, body)) == Accounted(q)
        + if subject in q.bound then multiset{body} else multiset{}
  {
    assert multiset(q.waiting + [body]) == multiset(q.waiting) + multiset{body};
  }

  lemma OwedGrows<T>(bound: map<string, nat>, published: seq<Published<T>>, p: Published<T>)
    ensures Owed(bound, published + [p], |published| + 1)
        == Owed(bound, published, |published|) + OwedOne(bound, p, |published|)
  {
    OwedPrefix(bound, published, p, |published|);
  }

  lemma PublishBalances<T>(q: Queue<T>, published: seq<Published<T>>, subject: string, body: T)
    requires Balanced(q, published)
    ensures Balanced(Arrive(q, subject, body), published + [Published(subject, body)])
  {
    OwedGrows(q.bound, published, Published(subject, body));
    ArriveAccounts(q, subject, body);
  }

  lemma BindBalances<T>(queues: map<string, Queue<T>>, name: string, subject: string, published: seq<Published<T>>)
    requires name in queues ==> Balanced(queues[name], published)
    ensures Balanced(Bound(queues, name, subject, |published|), published)
  {
    var q := if name in queues then queues[name] else Queue(map[], [], multiset{}, multiset{}, multiset{});
    NothingOwed(published, |published|);
    if subject !in q.bound {
      BindingNow(q.bound, subject, |published|, q.bound[subject := |published|], published, |published|);
    }
  }

  lemma DeliverAccounts<T>(q: Queue<T>)
    ensures Accounted(Moved(q, Deliver)) == Accounted(q)
  {
    if q.waiting != [] { assert q.waiting == [q.waiting[0]] + q.waiting[1..]; }
  }

  lemma SettleAccounts<T>(q: Queue<T>, body: T, verdict: Verdict)
    requires body in q.unacked
    ensures Settled(q, body, verdict).bound == q.bound && Accounted(Settled(q, body, verdict)) == Accounted(q)
  {
    assert q.unacked == (q.unacked - multiset{body}) + multiset{body};
    assert multiset([body] + q.waiting) == multiset{body} + multiset(q.waiting);
  }

  lemma DisconnectAccounts<T>(q: Queue<T>, order: seq<T>)
    ensures Accounted(Moved(q, Disconnect(order))) == Accounted(q)
  {
    assert multiset(order + q.waiting) == multiset(order) + multiset(q.waiting);
  }

  /** Moves within a queue lose and duplicate nothing. */
  lemma MoveAccounts<T>(q: Queue<T>, move: Move<T>)
    ensures Moved(q, move).bound == q.bound && Accounted(Moved(q, move)) == Accounted(q)
  {
    match move
    case Deliver => DeliverAccounts(q);
    case Settle(body, verdict) => if body in q.unacked { SettleAccounts(q, body, verdict); }
    case Disconnect(order) => DisconnectAccounts(q, order);
  }

  lemma PublishConserves<T>(s: State<T>, subject: string, body: T)
    requires Conserved(s)
    ensures Conserved(Next(s, Publish(subject, body)))
  {
    forall name | name in s.queues
      ensures Balanced(Arrive(s.queues[name], subject, body), s.published + [Published(subject, body)])
    {
      PublishBalances(s.queues[name], s.published, subject, body);
    }
  }

  lemma BindConserves<T>(s: State<T>, subject: string, group: string)
    requires Conserved(s)
    ensures Conserved(Next(s, Bind(subject, group)))
  {
    BindBalances(s.queues, QueueName(subject, group), subject, s.published);
  }

  lemma StepConserves<T>(s: State<T>, step: Step<T>)
    requires Conserved(s)
    ensures Conserved(Next(s, step))
  {
    match step
    case Publish(subject, body) => PublishConserves(s, subject, body);
    case Bind(subject, group) => BindConserves(s, subject, group);
    case OnQueue(name, move) => if name in s.queues { MoveAccounts(s.queues[name], move); }
  }

  /** Conservation: after any steps, every message a queue was owed is in exactly one
    * place. */
  lemma {:induction false} QueueConservation<T>(s: State<T>, steps: seq<Step<T>>)
    requires s.queues == map[]
    ensures Conserved(Run(s, steps))
  {
    if steps == [] {
    } else {
      QueueConservation(s, steps[..|steps| - 1]);
      StepConserves(Run(s, steps[..|steps| - 1]), steps[|steps| - 1]);
    }
  }

  // --------------------------------------------------------- group isolation

  /** Only platform subjects are bound. */
  predicate OnPlatform<T>(step: Step<T>) { step.Bind? ==> step.subject in SUBJECTS }

  function Sent<T>(step: Step<T>, subject: string): multiset<T> {
    if step.Publish? && step.subject == subject then multiset{step.body} else multiset{}
  }

  /** Every message the steps publish on a subject. */
  function On<T>(steps: seq<Step<T>>, subject: string): multiset<T> {
    if steps == [] then multiset{} else On(steps[..|steps| - 1], subject) + Sent(steps[|steps| - 1], subject)
  }

  /** The queue is bound to this subject and no other. */
  ghost predicate FedBy<T>(s: State<T>, name: string, subject: string) {
    name in s.queues && s.queues[name].bound.Keys == {subject}
  }

  ghost predicate Receives<T>(s: State<T>, t: State<T>, name: string, subject: string, more: multiset<T>)
    requires FedBy(s, name, subject)
  {
    FedBy(t, name, subject) && Accounted(t.queues[name]) == Accounted(s.queues[name]) + more
  }

  lemma PublishReceives<T>(s: State<T>, t: string, body: T, name: string, subject: string)
    requires FedBy(s, name, subject)
    ensures Receives(s, Next(s, Publish(t, body)), name, subject, if t == subject then multiset{body} else multiset{})
  {
    ArriveAccounts(s.queues[name], t, body);
  }

  lemma MoveReceives<T>(s: State<T>, queue: string, move: Move<T>, name: string, subject: string)
    requires FedBy(s, name, subject)
    ensures Receives(s, Next(s, OnQueue(queue, move)), name, subject, multiset{})
  {
    MoveAccounts(s.queues[name], move);
  }

  lemma BindReceives<T>(s: State<T>, t: string, h: string, name: string, subject: string)
    requires FedBy(s, name, subject) && (QueueName(t, h) == name ==> t == subject)
    ensures Receives(s, Next(s, Bind(t, h)), name, subject, multiset{})
  {
  }

  lemma StepReceives<T>(s: State<T>, step: Step<T>, subject: string, group: string, name: string)
    requires name == QueueName(subject, group) && subject in SUBJECTS && OnPlatform(step) && FedBy(s, name, subject)
    ensures Receives(s, Next(s, step), name, subject, Sent(step, subject))
  {
    match step
    case Publish(t, body) => PublishReceives(s, t, body, name, subject);
    case Bind(t, h) =>
      if QueueName(t, h) == name { QueueNamesDiffer(t, h, subject, group); }
      BindReceives(s, t, h, name, subject);
    case OnQueue(queue, move) => MoveReceives(s, queue, move, name, subject);
  }

  /** Group isolation: each group's queue takes every message of its subject, and no
    * other, whatever the other groups and queues do meanwhile. */
  lemma {:induction false} EveryGroupReceives<T>(
    s: State<T>, steps: seq<Step<T>>, subject: string, group: string, name: string)
    requires name == QueueName(subject, group) && subject in SUBJECTS
    requires (forall step :: step in steps ==> OnPlatform(step)) && FedBy(s, name, subject)
    ensures Receives(s, Run(s, steps), name, subject, On(steps, subject))
  {
    if steps == [] {
    } else {
      var n := |steps| - 1;
      EveryGroupReceives(s, steps[..n], subject, group, name);
      StepReceives(Run(s, steps[..n]), steps[n], subject, group, name);
    }
  }

  /** Binding a group for the first time gives it an empty queue of its own. */
  lemma FirstBinding<T>(s: State<T>, subject: string, group: string, name: string)
    requires name == QueueName(subject, group) && name !in s.queues
    ensures var t := Next(s, Bind(subject, group)); FedBy(t, name, subject) && Accounted(t.queues[name]) == multiset{}
  {
  }

  /** So two groups bound to one subject each get every later message on it. */
  lemma TwoGroupsBothReceive<T>(s: State<T>, steps: seq<Step<T>>, subject: string, g: string, h: string)
    requires subject in SUBJECTS && g != h && (forall step :: step in steps ==> OnPlatform(step))
    requires QueueName(subject, g) !in s.queues && QueueName(subject, h) !in s.queues
    ensures var after := Run(Next(Next(s, Bind(subject, g)), Bind(subject, h)), steps);
            && QueueName(subject, g) != QueueName(subject, h)
            && QueueName(subject, g) in after.queues && QueueName(subject, h) in after.queues
            && Accounted(after.queues[QueueName(subject, g)]) == On(steps, subject)
            && Accounted(after.queues[QueueName(subject, h)]) == On(steps, subject)
  {
    var mine, other := QueueName(subject, g), QueueName(subject, h);
    assert mine != other by { if mine == other { QueueNamesDiffer(subject, g, subject, h); } }
    var one := Next(s, Bind(subject, g));
    var both := Next(one, Bind(subject, h));
    FirstBinding(s, subject, g, mine);
    FirstBinding(one, subject, h, other);
    StepReceives(one, Bind(subject, h), subject, g, mine);
    EveryGroupReceives(both, steps, subject, g, mine);
    EveryGroupReceives(both, steps, subject, h, other);
  }
}

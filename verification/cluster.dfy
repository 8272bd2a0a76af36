/** The cluster as its clients see it: versioned objects behind an API where every
  * call may fail, and where other clients write between any two of ours. */
module Cluster {
  import opened Prelude
  import opened Errors
  import opened Objects
  import opened PodStatus

  /** `version` is the resource version: no two writes share one. */
  datatype Stored = Stored(version: nat, content: Content)

  datatype Store = Store(objects: map<Key, Stored>, revision: nat)

  /** A write by another client. */
  datatype Other = Rewrite(key: Key, content: Content) | Insert(key: Key, content: Content) | Remove(key: Key)

  datatype Status = Queued | Starting | Running | Failed

  /** Everything the world may do around one of our calls. */
  datatype Turn = Turn(
    others: seq<Other>,
    fault: bool,
    publishError: Option<Error>,
    elapsed: nat,
    nodes: seq<map<string, string>>,
    pods: seq<Pod>,
    answering: set<string>,
    cancelled: bool,
    doneFirst: bool)

  /** The world's moves, by the number of calls made before. */
  type Env = nat -> Turn

  datatype Request =
    | Get(key: Key)
    | Create(key: Key, content: Content)
    | Update(key: Key, version: nat, content: Content)
    | Patch(key: Key, change: Content -> Content)
    | Delete(key: Key)

  datatype Reply = Found(stored: Stored) | Fine | Refused(reason: Reason)

  datatype What =
    | Called(req: Request, reply: Reply)
    | NodesListed
    | PodsListed(pods: Option<seq<Pod>>)
    | Probed(host: Option<string>)
    | Published(status: Status, ok: bool)
    | Waited

  /** One call, with the store as the call met it and as it left it. */
  datatype Entry = Entry(what: What, before: Store, after: Store)

  /** The label keys the controller has looked up: "" when none yet. */
  datatype Memory = Memory(accelerator: string, cards: map<string, string>)

  datatype World = World(store: Store, now: nat, log: seq<Entry>, memory: Memory)

  // ------------------------------------------------------------- the server

  function Put(s: Store, key: Key, content: Content): Store {
    Store(s.objects[key := Stored(s.revision + 1, content)], s.revision + 1)
  }

  function Meddle1(s: Store, x: Other): Store {
    match x
    case Rewrite(key, content) => if key in s.objects then Put(s, key, content) else s
    case Insert(key, content) => if key in s.objects then s else Put(s, key, content)
    case Remove(key) => s.(objects := s.objects - {key})
  }

  function Meddle(s: Store, others: seq<Other>): Store {
    if others == [] then s else Meddle1(Meddle(s, others[..|others| - 1]), others[|others| - 1])
  }

  /** The API server: a stale version conflicts, and an error writes nothing. */
  function Serve(s: Store, req: Request, fault: bool): (Store, Reply) {
    if fault then (s, Refused(Fault))
    else match req
      case Get(key) => (s, if key in s.objects then Found(s.objects[key]) else Refused(NotFound))
      case Create(key, content) =>
        if key in s.objects then (s, Refused(AlreadyExists)) else (Put(s, key, content), Fine)
      case Update(key, version, content) =>
        if key !in s.objects then (s, Refused(NotFound))
        else if s.objects[key].version != version then (s, Refused(Conflict))
        else (Put(s, key, content), Fine)
      case Patch(key, change) =>
        if key !in s.objects then (s, Refused(NotFound))
        else (Put(s, key, change(s.objects[key].content)), Fine)
      case Delete(key) =>
        if key !in s.objects then (s, Refused(NotFound)) else (s.(objects := s.objects - {key}), Fine)
  }

  // ------------------------------------------------------------ one call each

  function Begun(env: Env, w: World): Store { Meddle(w.store, env(|w.log|).others) }

  function Record(env: Env, w: World, what: What, after: Store): World {
    World(after, w.now + env(|w.log|).elapsed, w.log + [Entry(what, Begun(env, w), after)], w.memory)
  }

  function Call(env: Env, w: World, req: Request): (World, Reply) {
    var (after, reply) := Serve(Begun(env, w), req, env(|w.log|).fault);
    (Record(env, w, Called(req, reply), after), reply)
  }

  /** Any call that leaves the objects alone. */
  function Note(env: Env, w: World, what: What): World { Record(env, w, what, Begun(env, w)) }

  function Publish(env: Env, w: World, status: Status): (World, Option<Error>) {
    var e := env(|w.log|).publishError;
    (Note(env, w, Published(status, e.None?)), e)
  }

  // ---------------------------------------------------------------- histories

  ghost predicate Linked(turn: Turn, prior: Store, e: Entry) {
    && e.before == Meddle(prior, turn.others)
    && match e.what
       case Called(req, reply) => (e.after, reply) == Serve(e.before, req, turn.fault)
       case _ => e.after == e.before
  }

  type Rule = (nat, Store, Entry) -> bool

  ghost function Links(env: Env): Rule { (i: nat, s: Store, e: Entry) => Linked(env(i), s, e) }

  /** The store call `i` found when the first of them found `first`. */
  function Prior(start: nat, first: Store, log: seq<Entry>, i: nat): Store
    requires start <= i <= |log|
  {
    if i == start then first else log[i - 1].after
  }

  ghost predicate Follows(rule: Rule, start: nat, first: Store, log: seq<Entry>)
    requires start <= |log|
  {
    forall i: nat {:trigger Prior(start, first, log, i)} ::
      start <= i < |log| ==> rule(i, Prior(start, first, log, i), log[i])
  }

  /** `w'` is reached from `w` by calls, and the log tells all of them. */
  ghost predicate Reached(env: Env, w: World, w': World) { ReachedBy(Links(env), w, w') }

  ghost predicate ReachedBy(rule: Rule, w: World, w': World) {
    && w.log <= w'.log
    && w'.store == Prior(|w.log|, w.store, w'.log, |w'.log|)
    && w.now <= w'.now
    && Follows(rule, |w.log|, w.store, w'.log)
  }

  lemma CallReaches(env: Env, w: World, req: Request)
    ensures Reached(env, w, Call(env, w, req).0)
  {
  }

  lemma NoteReaches(env: Env, w: World, what: What)
    requires !what.Called?
    ensures Reached(env, w, Note(env, w, what))
  {
  }

  lemma FollowsThrough(rule: Rule, start: nat, first: Store, log: seq<Entry>, mid: nat, second: Store, log': seq<Entry>)
    requires start <= mid == |log| && log <= log' && second == Prior(start, first, log, mid)
    requires Follows(rule, start, first, log) && Follows(rule, mid, second, log')
    ensures Follows(rule, start, first, log')
    ensures Prior(start, first, log', |log'|) == Prior(mid, second, log', |log'|)
  {
    forall i: nat | start <= i < |log'| ensures rule(i, Prior(start, first, log', i), log'[i]) {
      if i < mid {
        assert log'[i] == log[i] && Prior(start, first, log', i) == Prior(start, first, log, i);
      } else {
        assert Prior(start, first, log', i) == Prior(mid, second, log', i);
      }
    }
  }

  lemma PrefixOfPrefix(a: seq<Entry>, b: seq<Entry>, c: seq<Entry>)
    requires a <= b <= c
    ensures a <= c
  {
  }

  lemma ReachedByThrough(rule: Rule, a: World, b: World, c: World)
    requires ReachedBy(rule, a, b) && ReachedBy(rule, b, c)
    ensures ReachedBy(rule, a, c)
  {
    PrefixOfPrefix(a.log, b.log, c.log);
    FollowsThrough(rule, |a.log|, a.store, b.log, |b.log|, b.store, c.log);
  }

  lemma ReachedThrough(env: Env, a: World, b: World, c: World)
    requires Reached(env, a, b) && Reached(env, b, c)
    ensures Reached(env, a, c)
  {
    ReachedByThrough(Links(env), a, b, c);
  }

  /** What every call keeps holds in every state. */
  lemma {:induction false} Kept(start: nat, first: Store, log: seq<Entry>, good: Store -> bool, n: nat)
    requires start <= n <= |log| && good(first)
    requires forall i: nat ::
               start <= i < n && good(Prior(start, first, log, i)) ==> good(log[i].before) && good(log[i].after)
    ensures good(Prior(start, first, log, n))
    ensures forall i :: start <= i < n ==> good(log[i].before) && good(log[i].after)
  {
    if n == start {
    } else {
      Kept(start, first, log, good, n - 1);
    }
  }

  // -------------------------------------------------------- one key over time

  predicate Inserts(others: seq<Other>, key: Key) { exists x :: x in others && x.Insert? && x.key == key }

  predicate Removes(others: seq<Other>, key: Key) { exists x :: x in others && x.Remove? && x.key == key }

  predicate Mentions(others: seq<Other>, key: Key) { exists x :: x in others && x.key == key }

  predicate Same(a: Store, b: Store, key: Key) {
    if key in a.objects then key in b.objects && b.objects[key] == a.objects[key] else key !in b.objects
  }

  lemma {:induction false} MeddledKey(s: Store, others: seq<Other>, key: Key)
    ensures !Removes(others, key) && key in s.objects ==> key in Meddle(s, others).objects
    ensures !Inserts(others, key) && key !in s.objects ==> key !in Meddle(s, others).objects
    ensures !Mentions(others, key) ==> Same(s, Meddle(s, others), key)
  {
    if others == [] {
    } else {
      var front, last := others[..|others| - 1], others[|others| - 1];
      MeddledKey(s, front, key);
      assert others == front + [last];
      assert last in others;
    }
  }

  /** No other client ever takes the object away ... */
  ghost predicate NeverRemoved(env: Env, key: Key) {
    forall i {:trigger env(i)} :: !Removes(env(i).others, key)
  }

  /** ... or brings it into being; they may rewrite it as they like. */
  ghost predicate NeverInserted(env: Env, key: Key) {
    forall i {:trigger env(i)} :: !Inserts(env(i).others, key)
  }

  predicate Deletes(e: Entry, key: Key) { e.what.Called? && e.what.req.Delete? && e.what.req.key == key }

  predicate Creates(e: Entry, key: Key) { e.what.Called? && e.what.req.Create? && e.what.req.key == key }

  predicate Touches(e: Entry, key: Key) { e.what.Called? && !e.what.req.Get? && e.what.req.key == key }

  lemma LinkedKey(turn: Turn, prior: Store, e: Entry, key: Key)
    requires Linked(turn, prior, e)
    ensures !Removes(turn.others, key) && key in prior.objects ==> key in e.before.objects
    ensures !Deletes(e, key) && key in e.before.objects ==> key in e.after.objects
    ensures !Inserts(turn.others, key) && key !in prior.objects ==> key !in e.before.objects
    ensures !Creates(e, key) && key !in e.before.objects ==> key !in e.after.objects
    ensures !Mentions(turn.others, key) ==> Same(prior, e.before, key)
    ensures !Touches(e, key) ==> Same(e.before, e.after, key)
  {
    MeddledKey(prior, turn.others, key);
  }

  lemma StepKey(env: Env, w: World, w': World, key: Key, i: nat)
    requires Reached(env, w, w') && |w.log| <= i < |w'.log|
    ensures var prior, e, others := Prior(|w.log|, w.store, w'.log, i), w'.log[i], env(i).others;
            && (!Removes(others, key) && !Deletes(e, key) && key in prior.objects
                ==> key in e.before.objects && key in e.after.objects)
            && (!Inserts(others, key) && !Creates(e, key) && key !in prior.objects
                ==> key !in e.before.objects && key !in e.after.objects)
            && (!Mentions(others, key) && !Touches(e, key)
              ==> Same(prior, e.before, key) && Same(e.before, e.after, key))
  {
    assert Links(env)(i, Prior(|w.log|, w.store, w'.log, i), w'.log[i]);
    LinkedKey(env(i), Prior(|w.log|, w.store, w'.log, i), w'.log[i], key);
  }

  /** No state after `w` up to `w'` breaks `good`. */
  ghost predicate Throughout(w: World, w': World, good: Store -> bool) {
    forall i :: |w.log| <= i < |w'.log| ==> good(w'.log[i].before) && good(w'.log[i].after)
  }

  ghost predicate NobodyRemoves(env: Env, w: World, w': World, key: Key) {
    forall i :: |w.log| <= i < |w'.log| ==> !Removes(env(i).others, key) && !Deletes(w'.log[i], key)
  }

  ghost predicate NobodyInserts(env: Env, w: World, w': World, key: Key) {
    forall i :: |w.log| <= i < |w'.log| ==> !Inserts(env(i).others, key) && !Creates(w'.log[i], key)
  }

  ghost predicate NobodyTouches(env: Env, w: World, w': World, key: Key) {
    forall i :: |w.log| <= i < |w'.log| ==> !Mentions(env(i).others, key) && !Touches(w'.log[i], key)
  }

  ghost function Holding(key: Key): Store -> bool { (s: Store) => key in s.objects }

  ghost function Lacking(key: Key): Store -> bool { (s: Store) => key !in s.objects }

  ghost function Unchanged(key: Key, s0: Store): Store -> bool { (s: Store) => Same(s0, s, key) }

  /** An object nobody deletes is there in every state from then on ... */
  lemma StaysPresent(env: Env, w: World, w': World, key: Key)
    requires Reached(env, w, w') && NobodyRemoves(env, w, w', key)
    requires key in w.store.objects
    ensures key in w'.store.objects && Throughout(w, w', Holding(key))
  {
    forall i: nat | |w.log| <= i < |w'.log| && Holding(key)(Prior(|w.log|, w.store, w'.log, i))
      ensures Holding(key)(w'.log[i].before) && Holding(key)(w'.log[i].after)
    {
      StepKey(env, w, w', key, i);
    }
    Kept(|w.log|, w.store, w'.log, Holding(key), |w'.log|);
  }

  /** ... one nobody creates stays away ... */
  lemma StaysAbsent(env: Env, w: World, w': World, key: Key)
    requires Reached(env, w, w') && NobodyInserts(env, w, w', key)
    requires key !in w.store.objects
    ensures key !in w'.store.objects && Throughout(w, w', Lacking(key))
  {
    forall i: nat | |w.log| <= i < |w'.log| && Lacking(key)(Prior(|w.log|, w.store, w'.log, i))
      ensures Lacking(key)(w'.log[i].before) && Lacking(key)(w'.log[i].after)
    {
      StepKey(env, w, w', key, i);
    }
    Kept(|w.log|, w.store, w'.log, Lacking(key), |w'.log|);
  }

  /** ... and one nobody writes is the same throughout. */
  lemma StaysSame(env: Env, w: World, w': World, key: Key)
    requires Reached(env, w, w') && NobodyTouches(env, w, w', key)
    ensures Same(w.store, w'.store, key) && Throughout(w, w', Unchanged(key, w.store))
  {
    forall i: nat | |w.log| <= i < |w'.log| && Unchanged(key, w.store)(Prior(|w.log|, w.store, w'.log, i))
      ensures Unchanged(key, w.store)(w'.log[i].before) && Unchanged(key, w.store)(w'.log[i].after)
    {
      StepKey(env, w, w', key, i);
    }
    Kept(|w.log|, w.store, w'.log, Unchanged(key, w.store), |w'.log|);
  }

  // ------------------------------------------------------------------ scopes

  /** What a stretch of calls may write, delete and announce. */
  datatype Scope = Scope(writes: set<Key>, drops: set<Key>, says: set<Status>)

  predicate Within(scope: Scope, what: What) {
    match what
    case Called(req, _) => if req.Delete? then req.key in scope.drops else req.Get? || req.key in scope.writes
    case Published(status, _) => status in scope.says
    case _ => true
  }

  ghost predicate Stretch(env: Env, w: World, w': World, scope: Scope) {
    && Reached(env, w, w')
    && forall i :: |w.log| <= i < |w'.log| ==> Within(scope, w'.log[i].what)
  }

  predicate Narrower(a: Scope, b: Scope) { a.writes <= b.writes && a.drops <= b.drops && a.says <= b.says }

  lemma StretchWidens(env: Env, w: World, w': World, a: Scope, b: Scope)
    requires Stretch(env, w, w', a) && Narrower(a, b)
    ensures Stretch(env, w, w', b)
  {
    forall i | |w.log| <= i < |w'.log| ensures Within(b, w'.log[i].what) { assert Within(a, w'.log[i].what); }
  }

  lemma StretchThrough(env: Env, a: World, b: World, c: World, scope: Scope)
    requires Stretch(env, a, b, scope) && Stretch(env, b, c, scope)
    ensures Stretch(env, a, c, scope)
  {
    ReachedThrough(env, a, b, c);
    forall i | |a.log| <= i < |c.log| ensures Within(scope, c.log[i].what) {
      if i < |b.log| { assert c.log[i] == b.log[i]; }
    }
  }

  lemma StretchStays(env: Env, w: World, scope: Scope)
    ensures Stretch(env, w, w, scope)
  {
  }

  lemma StretchCall(env: Env, w: World, req: Request, scope: Scope)
    requires forall reply :: Within(scope, Called(req, reply))
    ensures Stretch(env, w, Call(env, w, req).0, scope)
  {
    CallReaches(env, w, req);
  }

  lemma StretchNote(env: Env, w: World, what: What, scope: Scope)
    requires !what.Called? && Within(scope, what)
    ensures Stretch(env, w, Note(env, w, what), scope)
  {
    NoteReaches(env, w, what);
  }

  datatype Notice = Notice(status: Status, ok: bool)

  function Heard(e: Entry): seq<Notice> {
    if e.what.Published? then [Notice(e.what.status, e.what.ok)] else []
  }

  /** Every status the calls from `from` on tried to publish. */
  function Notices(log: seq<Entry>, from: nat): seq<Notice>
    decreases |log| - from
  {
    if from >= |log| then [] else Heard(log[from]) + Notices(log, from + 1)
  }

  lemma {:induction false} NoticesThrough(a: seq<Entry>, b: seq<Entry>, from: nat)
    requires a <= b && from <= |a|
    ensures Notices(b, from) == Notices(a, from) + Notices(b, |a|)
    decreases |a| - from
  {
    if from == |a| {
    } else {
      NoticesThrough(a, b, from + 1);
      assert Heard(a[from]) + (Notices(a, from + 1) + Notices(b, |a|))
          == (Heard(a[from]) + Notices(a, from + 1)) + Notices(b, |a|);
    }
  }

  lemma {:induction false} NoNotices(env: Env, w: World, w': World, scope: Scope, from: nat)
    requires Stretch(env, w, w', scope) && scope.says == {} && |w.log| <= from
    ensures Notices(w'.log, from) == []
    decreases |w'.log| - from
  {
    if from >= |w'.log| {
    } else {
      assert Within(scope, w'.log[from].what);
      NoNotices(env, w, w', scope, from + 1);
    }
  }

  // ---------------------------------------------------------------- versions

  /** Every resource version was handed out already. */
  ghost predicate Versioned(s: Store) {
    forall key :: key in s.objects ==> s.objects[key].version <= s.revision
  }

  predicate Rewrites(others: seq<Other>, key: Key) { exists x :: x in others && x.Rewrite? && x.key == key }

  /** Others' writes never reuse a version: what they wrote can be told apart. */
  lemma {:induction false} MeddledVersions(s: Store, others: seq<Other>, key: Key)
    requires Versioned(s)
    ensures var t := Meddle(s, others);
            && Versioned(t) && s.revision <= t.revision
            && (key in t.objects ==>
                  (key in s.objects && t.objects[key] == s.objects[key]) || t.objects[key].version > s.revision)
            && (key in s.objects && !Removes(others, key) ==>
                  key in t.objects && (t.objects[key] == s.objects[key] <==> !Rewrites(others, key)))
  {
    if others == [] {
    } else {
      var front, last := others[..|others| - 1], others[|others| - 1];
      MeddledVersions(s, front, key);
      assert others == front + [last];
      assert last in others;
    }
  }

  lemma ServedVersions(s: Store, req: Request, fault: bool)
    requires Versioned(s)
    ensures Versioned(Serve(s, req, fault).0) && s.revision <= Serve(s, req, fault).0.revision
  {
  }

  // ------------------------------------------------------------- the client

  /** The controller at work: the cluster's store moves under its calls. */
  class Controller {
    const env: Env
    var objects: map<Key, Stored>
    var revision: nat
    var now: nat
    var log: seq<Entry>
    var accelerator: string
    var cards: map<string, string>

    function View(): World
      reads this
    {
      World(Store(objects, revision), now, log, Memory(accelerator, cards))
    }

    constructor (env: Env, store: Store)
      ensures this.env == env
      ensures View() == World(store, 0, [], Memory("", map[]))
    {
      this.env := env;
      objects, revision, now, log := store.objects, store.revision, 0, [];
      accelerator, cards := "", map[];
    }

    method PutObject(key: Key, content: Content)
      modifies `objects, `revision
      ensures Store(objects, revision) == Put(old(Store(objects, revision)), key, content)
    {
      revision := revision + 1;
      objects := objects[key := Stored(revision, content)];
    }

    /** Other clients write before our call is served. */
    method Yield()
      modifies `objects, `revision
      ensures Store(objects, revision) == Begun(env, old(View()))
    {
      var others := env(|log|).others;
      for i := 0 to |others|
        invariant Store(objects, revision) == Meddle(old(Store(objects, revision)), others[..i])
      {
        assert others[..i + 1][..i] == others[..i];
        match others[i]
        case Rewrite(key, content) => if key in objects { PutObject(key, content); }
        case Insert(key, content) => if key !in objects { PutObject(key, content); }
        case Remove(key) => objects := objects - {key};
      }
      assert others[..|others|] == others;
    }

    /** One API request. */
    method Send(req: Request) returns (reply: Reply)
      modifies `objects, `revision, `now, `log
      ensures (View(), reply) == Call(env, old(View()), req)
    {
      var turn := env(|log|);
      Yield();
      var before := Store(objects, revision);
      if turn.fault {
        reply := Refused(Fault);
      } else {
        match req
        case Get(key) =>
          if key in objects { reply := Found(objects[key]); } else { reply := Refused(NotFound); }
        case Create(key, content) =>
          if key in objects { reply := Refused(AlreadyExists); } else { PutObject(key, content); reply := Fine; }
        case Update(key, version, content) =>
          if key !in objects { reply := Refused(NotFound); }
          else if objects[key].version != version { reply := Refused(Conflict); }
          else { PutObject(key, content); reply := Fine; }
        case Patch(key, change) =>
          if key !in objects { reply := Refused(NotFound); }
          else { PutObject(key, change(objects[key].content)); reply := Fine; }
        case Delete(key) =>
          if key !in objects { reply := Refused(NotFound); } else { objects := objects - {key}; reply := Fine; }
      }
      now := now + turn.elapsed;
      log := log + [Entry(Called(req, reply), before, Store(objects, revision))];
    }

    /** A call that writes nothing. */
    method Observe(what: What)
      modifies `objects, `revision, `now, `log
      ensures View() == Note(env, old(View()), what)
    {
      var turn := env(|log|);
      Yield();
      var seen := Store(objects, revision);
      now := now + turn.elapsed;
      log := log + [Entry(what, seen, seen)];
    }

    /** publishStatus on the status subject. */
    method Announce(status: Status) returns (err: Option<Error>)
      modifies `objects, `revision, `now, `log
      ensures (View(), err) == Publish(env, old(View()), status)
    {
      err := env(|log|).publishError;
      Observe(Published(status, err.None?));
    }
  }
}

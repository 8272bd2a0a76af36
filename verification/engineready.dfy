/** Following a deploy until its engine answers: internal/controller/engine_ready.go. */
module EngineReady {
  import opened Prelude
  import opened Errors
  import opened PodStatus
  import opened Cluster

  /** engineReadyTimeout and engineProbeInterval, in milliseconds. */
  const TIMEOUT: nat := 1_200_000
  const TICK: nat := 3_000

  /** ctx.Err() != nil. */
  function Expired(env: Env, w: World, deadline: nat): bool { w.now >= deadline || env(|w.log|).cancelled }

  function ListPods(env: Env, w: World): (World, Option<seq<Pod>>) {
    var pods := if env(|w.log|).fault then None else Some(env(|w.log|).pods);
    (Note(env, w, PodsListed(pods)), pods)
  }

  predicate CanAnswer(p: Pod, hosts: set<string>) { Live(p) && p.ip != "" && p.ip in hosts }

  /** The first live pod that answers. */
  function Answerer(pods: seq<Pod>, hosts: set<string>): Option<string> {
    if pods == [] then None
    else if CanAnswer(pods[0], hosts) then Some(pods[0].ip)
    else Answerer(pods[1..], hosts)
  }

  lemma {:induction false} AnswererIs(pods: seq<Pod>, hosts: set<string>)
    ensures var host := Answerer(pods, hosts);
            && (host.Some? ==> exists p :: p in pods && CanAnswer(p, hosts) && p.ip == host.value)
            && (host.None? ==> forall p :: p in pods ==> !CanAnswer(p, hosts))
  {
    if pods == [] {
    } else {
      AnswererIs(pods[1..], hosts);
      assert pods == [pods[0]] + pods[1..];
    }
  }

  function Probe(env: Env, w: World, pods: seq<Pod>): (World, bool) {
    var host := Answerer(pods, env(|w.log|).answering);
    (Note(env, w, Probed(host)), host.Some?)
  }

  /** select on the context and the ticker: the n-th tick cannot come before n
    * intervals have passed, and the context is done at its deadline at the latest. */
  function WaitTick(env: Env, w: World, deadline: nat, n: nat): (World, bool) {
    var turn, later := env(|w.log|), Note(env, w, Waited);
    var tick := Max(later.now, deadline - TIMEOUT + TICK * (n + 1));
    var done := if turn.cancelled then later.now else Max(later.now, deadline);
    var ticked := tick < done || (tick == done && !turn.doneFirst);
    (later.(now := if ticked then tick else done), ticked)
  }

  /** `starting` tells whether "starting" was announced by then. */
  datatype Looked = Over(err: Option<Error>, starting: bool) | Again(starting: bool)

  const NOT_READY: Error := Text("not ready within the timeout")

  /** One pass of the loop, up to its wait. */
  function Look(env: Env, w: World, deadline: nat, starting: bool): (World, Looked) {
    var (w1, listed) := ListPods(env, w);
    if listed.None? then
      (w1, Over(Some(if Expired(env, w1, deadline) then NOT_READY else Wrapped(Api(Fault))), starting))
    else if listed.value == [] then
      (w1, if Expired(env, w1, deadline) then Over(Some(NOT_READY), starting) else Again(starting))
    else LookAt(env, w1, deadline, starting, listed.value)
  }

  /** "starting" is announced when the newest pod is placed, if it was not before. */
  function Announced(env: Env, w: World, starting: bool, pods: seq<Pod>): (World, bool)
    requires pods != []
  {
    if Newest(pods).node != "" && !starting then (Publish(env, w, Starting).0, true) else (w, starting)
  }

  function LookAt(env: Env, w: World, deadline: nat, starting: bool, pods: seq<Pod>): (World, Looked)
    requires pods != []
  {
    var reason := FailureAmong(pods);
    if reason != "" then (w, Over(Some(Text(reason)), starting))
    else
      var (w2, after) := Announced(env, w, starting, pods);
      var (w3, up) := Probe(env, w2, pods);
      if up then (w3, Over(None, after))
      else (w3, if Expired(env, w3, deadline) then Over(Some(NOT_READY), after) else Again(after))
  }

  lemma LookTakesTime(env: Env, w: World, deadline: nat, starting: bool)
    ensures var (w', looked) := Look(env, w, deadline, starting);
            w'.now >= w.now && (looked.Again? ==> w'.now < deadline)
  {
  }

  lemma TicksTakeTime(env: Env, w: World, deadline: nat, n: nat)
    ensures var (w', ticked) := WaitTick(env, w, deadline, n);
            ticked ==> w'.now >= deadline - TIMEOUT + TICK * (n + 1)
  {
  }

  /** The ticks come every three seconds from the start on, one that is late at once. */
  lemma TicksAreRegular(env: Env, w: World, start: nat, n: nat)
    ensures var (w', ticked) := WaitTick(env, w, start + 20 * 60 * 1000, n);
            ticked ==> w'.now == Max(w.now + env(|w.log|).elapsed, start + 3 * 1000 * (n + 1))
  {
  }

  type Pass = (World, bool) -> (World, Looked)

  type Wait = (World, nat) -> (World, bool)

  /** A pass goes on only before the deadline, and the n-th tick comes no sooner
    * than n intervals after the start. */
  ghost predicate KeepsTime(pass: Pass, wait: Wait, deadline: nat) {
    && (forall w, s :: pass(w, s).0.now >= w.now && (pass(w, s).1.Again? ==> pass(w, s).0.now < deadline))
    && (forall w, n: nat :: wait(w, n).1 ==> wait(w, n).0.now >= deadline - TIMEOUT + TICK * (n + 1))
  }

  /** The loop's deadline, and the ticks it has received. */
  datatype Clock = Clock(deadline: nat, ticks: nat)

  /** The n-th tick is at least n intervals after the start. */
  ghost predicate OnTime(w: World, clock: Clock) {
    TIMEOUT <= clock.deadline && w.now >= clock.deadline - TIMEOUT + TICK * clock.ticks
  }

  /** The loop from one tick on. The time left bounds the ticks to come. */
  ghost function Loop(pass: Pass, wait: Wait, w: World, clock: Clock, starting: bool): (World, Option<Error>)
    requires OnTime(w, clock) && KeepsTime(pass, wait, clock.deadline)
    decreases TIMEOUT - TICK * clock.ticks
  {
    var (w1, looked) := pass(w, starting);
    if looked.Over? then (w1, looked.err)
    else
      var (w2, ticked) := wait(w1, clock.ticks);
      if !ticked then (w2, Some(NOT_READY)) else Loop(pass, wait, w2, clock.(ticks := clock.ticks + 1), looked.starting)
  }

  ghost function Looks(env: Env, deadline: nat): Pass {
    (w: World, starting: bool) => Look(env, w, deadline, starting)
  }

  ghost function Waits(env: Env, deadline: nat): Wait {
    (w: World, n: nat) => WaitTick(env, w, deadline, n)
  }

  lemma TimeIsKept(env: Env, deadline: nat)
    ensures KeepsTime(Looks(env, deadline), Waits(env, deadline), deadline)
  {
    forall w, s
      ensures var (w', looked) := Look(env, w, deadline, s); w'.now >= w.now && (looked.Again? ==> w'.now < deadline)
    {
      LookTakesTime(env, w, deadline, s);
    }
    forall w, n: nat
      ensures var (w', ticked) := WaitTick(env, w, deadline, n);
        ticked ==> w'.now >= deadline - TIMEOUT + TICK * (n + 1)
    {
      TicksTakeTime(env, w, deadline, n);
    }
  }

  /** How the loop looks and waits, for a given deadline. */
  datatype Watch = Watch(pass: nat -> Pass, wait: nat -> Wait)

  ghost function Watcher(env: Env): Watch { Watch((d: nat) => Looks(env, d), (d: nat) => Waits(env, d)) }

  /** awaitEngineReady: the deadline is set when the loop starts. */
  ghost function Await(watch: Watch, w: World): (World, Option<Error>)
    requires forall d :: KeepsTime(watch.pass(d), watch.wait(d), d)
  {
    Loop(watch.pass(w.now + TIMEOUT), watch.wait(w.now + TIMEOUT), w, Clock(w.now + TIMEOUT, 0), false)
  }

  // ------------------------------------------------------------ what it means

  predicate Lists(e: Entry) { e.what.PodsListed? }

  /** Right after call `i`, which listed pods of which no live one was terminal, a
    * live pod of that list answered. */
  ghost predicate ReadyAt(env: Env, log: seq<Entry>, i: nat) {
    && i < |log| && log[i].what.PodsListed? && log[i].what.pods.Some?
    && NoneTerminal(log[i].what.pods.value)
    && exists j: nat, p :: i < j < |log| && j <= i + 2 && p in log[i].what.pods.value
                         && log[j].what == Probed(Some(p.ip)) && CanAnswer(p, env(j).answering)
  }

  /** The last listing since `from` found the engine ready. */
  ghost predicate EndsReady(env: Env, log: seq<Entry>, from: nat) {
    exists i: nat :: from <= i && ReadyAt(env, log, i) && forall j :: i < j < |log| ==> !Lists(log[j])
  }

  const SAYS_STARTING := Scope({}, {}, {Starting})

  ghost predicate StartingOnce(notices: seq<Notice>, before: bool, after: bool) {
    || (notices == [] && after == before)
    || (|notices| == 1 && notices[0].status == Starting && !before && after)
  }

  function Listings(log: seq<Entry>, from: nat): nat
    decreases |log| - from
  {
    if from >= |log| then 0 else (if Lists(log[from]) then 1 else 0) + Listings(log, from + 1)
  }

  lemma {:induction false} ListingsThrough(a: seq<Entry>, b: seq<Entry>, from: nat)
    requires a <= b && from <= |a|
    ensures Listings(b, from) == Listings(a, from) + Listings(b, |a|)
    decreases |a| - from
  {
    if from == |a| {
    } else {
      ListingsThrough(a, b, from + 1);
    }
  }

  /** "starting" is only announced right after a listing whose newest pod is placed. */
  ghost predicate Placed(log: seq<Entry>, i: nat)
    requires i < |log|
  {
    && i > 0 && log[i - 1].what.PodsListed? && log[i - 1].what.pods.Some?
    && exists p :: IsNewest(log[i - 1].what.pods.value, p) && p.node != ""
  }

  ghost predicate StartsJustly(log: seq<Entry>, from: nat) {
    forall i :: from <= i < |log| && log[i].what.Published? ==> Placed(log, i)
  }

  lemma JustlyThrough(a: seq<Entry>, b: seq<Entry>, from: nat)
    requires a <= b && from <= |a| && StartsJustly(a, from) && StartsJustly(b, |a|)
    ensures StartsJustly(b, from)
  {
    forall i | from <= i < |b| && b[i].what.Published? ensures Placed(b, i) {
      if i < |a| {
        assert b[i] == a[i];
        assert Placed(a, i);
        assert b[i - 1] == a[i - 1];
      }
    }
  }

  /** A stretch that announces "starting" at most once and lists `k` times. */
  ghost predicate Watched(env: Env, w: World, w': World, before: bool, after: bool, k: nat) {
    && Stretch(env, w, w', SAYS_STARTING)
    && StartingOnce(Notices(w'.log, |w.log|), before, after)
    && Listings(w'.log, |w.log|) == k
    && StartsJustly(w'.log, |w.log|)
    && w'.memory == w.memory
  }

  lemma WatchedThrough(env: Env, a: World, b: World, c: World, p: bool, q: bool, r: bool, j: nat, k: nat)
    requires Watched(env, a, b, p, q, j) && Watched(env, b, c, q, r, k)
    ensures Watched(env, a, c, p, r, j + k)
  {
    StretchThrough(env, a, b, c, SAYS_STARTING);
    NoticesThrough(b.log, c.log, |a.log|);
    ListingsThrough(b.log, c.log, |a.log|);
    JustlyThrough(b.log, c.log, |a.log|);
  }

  lemma ListPodsMeans(env: Env, w: World)
    ensures Watched(env, w, ListPods(env, w).0, false, false, 1)
    ensures Watched(env, w, ListPods(env, w).0, true, true, 1)
  {
    var (w1, listed) := ListPods(env, w);
    StretchNote(env, w, PodsListed(listed), SAYS_STARTING);
    assert Notices(w1.log, |w1.log|) == [];
    assert Listings(w1.log, |w1.log|) == 0;
  }

  lemma ProbeMeans(env: Env, w: World, pods: seq<Pod>)
    ensures var (w', up) := Probe(env, w, pods);
            && Watched(env, w, w', false, false, 0) && Watched(env, w, w', true, true, 0)
            && |w'.log| == |w.log| + 1 && !Lists(w'.log[|w.log|])
            && (up ==>
                  exists p :: p in pods && CanAnswer(p, env(|w.log|).answering)
                              && w'.log[|w.log|].what == Probed(Some(p.ip)))
  {
    var (w', up) := Probe(env, w, pods);
    StretchNote(env, w, Probed(Answerer(pods, env(|w.log|).answering)), SAYS_STARTING);
    AnswererIs(pods, env(|w.log|).answering);
    assert Notices(w'.log, |w'.log|) == [];
    assert Listings(w'.log, |w'.log|) == 0;
  }

  lemma AnnouncedMeans(env: Env, w: World, starting: bool, pods: seq<Pod>)
    requires pods != [] && w.log != [] && w.log[|w.log| - 1].what == PodsListed(Some(pods))
    ensures var (w', after) := Announced(env, w, starting, pods);
            && Watched(env, w, w', starting, after, 0)
            && |w'.log| <= |w.log| + 1 && forall i :: |w.log| <= i < |w'.log| ==> !Lists(w'.log[i])
  {
    var (w', after) := Announced(env, w, starting, pods);
    var err := env(|w.log|).publishError;
    StretchNote(env, w, Published(Starting, err.None?), SAYS_STARTING);
    StretchStays(env, w, SAYS_STARTING);
    NewestIs(pods);
    assert Notices(w'.log, |w'.log|) == [];
    assert Listings(w'.log, |w'.log|) == 0;
  }

  /** The part of a pass that follows the listing. */
  lemma LookAtWatched(env: Env, w: World, deadline: nat, starting: bool, pods: seq<Pod>)
    requires pods != [] && w.log != [] && w.log[|w.log| - 1].what == PodsListed(Some(pods))
    ensures var (w', looked) := LookAt(env, w, deadline, starting, pods);
        Watched(env, w, w', starting, looked.starting, 0)
  {
    if FailureAmong(pods) != "" {
      StretchStays(env, w, SAYS_STARTING);
      assert Watched(env, w, w, starting, starting, 0);
    } else {
      var (w2, after) := Announced(env, w, starting, pods);
      AnnouncedMeans(env, w, starting, pods);
      ProbeMeans(env, w2, pods);
      WatchedThrough(env, w, w2, Probe(env, w2, pods).0, starting, after, after, 0, 0);
    }
  }

  lemma LookAtReady(env: Env, w: World, deadline: nat, starting: bool, pods: seq<Pod>)
    requires pods != [] && w.log != [] && w.log[|w.log| - 1].what == PodsListed(Some(pods))
    ensures var (w', looked) := LookAt(env, w, deadline, starting, pods);
            looked.Over? && looked.err.None? ==>
              ReadyAt(env, w'.log, |w.log| - 1) && forall i :: |w.log| <= i < |w'.log| ==> !Lists(w'.log[i])
  {
    FirstReasonIs(pods, LiveFailure);
    if FailureAmong(pods) == "" {
      var (w2, after) := Announced(env, w, starting, pods);
      var (w3, up) := Probe(env, w2, pods);
      AnswererIs(pods, env(|w2.log|).answering);
      if up {
        var p :| p in pods && CanAnswer(p, env(|w2.log|).answering) && w3.log[|w2.log|].what == Probed(Some(p.ip));
        assert w3.log[|w.log| - 1] == w.log[|w.log| - 1];
        assert |w.log| - 1 < |w2.log| <= |w.log| + 1;
      }
    }
  }

  /** One pass lists once, announces "starting" only the first time a pod is placed,
    * and is over without an error only when it found the engine ready. */
  lemma LookMeans(env: Env, w: World, deadline: nat, starting: bool)
    ensures var (w', looked) := Look(env, w, deadline, starting); GoodPass(env, w, starting, w', looked)
  {
    var (w1, listed) := ListPods(env, w);
    ListPodsMeans(env, w);
    if listed.Some? && listed.value != [] {
      LookAtWatched(env, w1, deadline, starting, listed.value);
      LookAtReady(env, w1, deadline, starting, listed.value);
      var (w', looked) := LookAt(env, w1, deadline, starting, listed.value);
      WatchedThrough(env, w, w1, w', starting, starting, looked.starting, 1, 0);
      if looked.Over? && looked.err.None? { assert ReadyAt(env, w'.log, |w.log|); }
    }
  }

  lemma WaitTickMeans(env: Env, w: World, deadline: nat, n: nat, starting: bool)
    ensures Watched(env, w, WaitTick(env, w, deadline, n).0, starting, starting, 0)
  {
    var later := Note(env, w, Waited);
    StretchNote(env, w, Waited, SAYS_STARTING);
    assert Notices(later.log, |later.log|) == [];
    assert Listings(later.log, |later.log|) == 0;
  }

  ghost predicate GoodPass(env: Env, w: World, before: bool, w': World, looked: Looked) {
    && Watched(env, w, w', before, looked.starting, 1)
    && (looked.Over? && looked.err.None? ==> EndsReady(env, w'.log, |w.log|))
  }

  /** A relation between two states, "starting" announced before and after, and
    * the number of passes made. */
  type Relation = (World, World, bool, bool, nat) -> bool

  /** Relations that compose, with a property of how a run ends. */
  ghost predicate Composes(rel: Relation, ends: (World, World) -> bool) {
    && (forall a, b, c, p, q, r, j: nat, k: nat {:trigger rel(a, b, p, q, j), rel(b, c, q, r, k)} ::
          rel(a, b, p, q, j) && rel(b, c, q, r, k) ==> rel(a, c, p, r, j + k))
    && (forall a, b, c, p, q, j: nat {:trigger rel(a, b, p, q, j), ends(b, c)} ::
      rel(a, b, p, q, j) && ends(b, c) ==> ends(a, c))
  }

  ghost predicate Behaves(pass: Pass, wait: Wait, rel: Relation, ends: (World, World) -> bool) {
    && (forall w, s :: rel(w, pass(w, s).0, s, pass(w, s).1.starting, 1))
    && (forall w, s :: pass(w, s).1.Over? && pass(w, s).1.err.None? ==> ends(w, pass(w, s).0))
    && (forall w, n: nat, s :: rel(w, wait(w, n).0, s, s, 0))
  }

  /** What relates the two ends of every pass relates the two ends of the loop, and
    * the loop makes at most one pass more than there are intervals. */
  lemma {:induction false} LoopMeans(
    pass: Pass, wait: Wait, rel: Relation, ends: (World, World) -> bool, w: World, clock: Clock, starting: bool)
    returns (after: bool, k: nat)
    requires OnTime(w, clock) && KeepsTime(pass, wait, clock.deadline)
    requires Behaves(pass, wait, rel, ends) && Composes(rel, ends)
    ensures var (w', err) := Loop(pass, wait, w, clock, starting);
            rel(w, w', starting, after, k) && (err.None? ==> ends(w, w'))
    ensures k >= 1 && TICK * (clock.ticks + k) <= Max(TIMEOUT, TICK * clock.ticks) + TICK
    decreases TIMEOUT - TICK * clock.ticks
  {
    var (w1, looked) := pass(w, starting);
    assert rel(w, pass(w, starting).0, starting, pass(w, starting).1.starting, 1);
    after, k := looked.starting, 1;
    if looked.Again? {
      var (w2, ticked) := wait(w1, clock.ticks);
      assert rel(w1, wait(w1, clock.ticks).0, after, after, 0);
      assert rel(w, w2, starting, after, 1);
      if ticked {
        var later := clock.(ticks := clock.ticks + 1);
        var (w', err) := Loop(pass, wait, w2, later, looked.starting);
        after, k := LoopMeans(pass, wait, rel, ends, w2, later, looked.starting);
        assert rel(w, w', starting, after, 1 + k);
        assert err.None? ==> ends(w2, w');
        k := 1 + k;
      }
    }
  }

  ghost function Watching(env: Env): Relation {
    (a: World, b: World, p: bool, q: bool, k: nat) => Watched(env, a, b, p, q, k)
  }

  ghost function Readies(env: Env): (World, World) -> bool {
    (a: World, b: World) => |a.log| <= |b.log| && EndsReady(env, b.log, |a.log|)
  }

  lemma LooksBehave(env: Env, deadline: nat)
    ensures Behaves(Looks(env, deadline), Waits(env, deadline), Watching(env), Readies(env))
  {
    forall w, s
      ensures GoodPass(env, w, s, Look(env, w, deadline, s).0, Look(env, w, deadline, s).1)
    {
      LookMeans(env, w, deadline, s);
    }
    forall w, n: nat, s
      ensures Watched(env, w, WaitTick(env, w, deadline, n).0, s, s, 0)
    {
      WaitTickMeans(env, w, deadline, n, s);
    }
  }

  lemma ReadyLater(env: Env, a: World, b: World, c: World, p: bool, q: bool, j: nat)
    requires Watched(env, a, b, p, q, j) && Readies(env)(b, c)
    ensures Readies(env)(a, c)
  {
  }

  lemma WatchingComposes(env: Env)
    ensures Composes(Watching(env), Readies(env))
  {
    forall a, b, c, p, q, r, j: nat, k: nat | Watched(env, a, b, p, q, j) && Watched(env, b, c, q, r, k)
      ensures Watched(env, a, c, p, r, j + k)
    {
      WatchedThrough(env, a, b, c, p, q, r, j, k);
    }
    forall a, b, c, p, q, j: nat | Watched(env, a, b, p, q, j) && Readies(env)(b, c) ensures Readies(env)(a, c) {
      ReadyLater(env, a, b, c, p, q, j);
    }
  }

  lemma LoopWatched(env: Env, pass: Pass, wait: Wait, w: World, clock: Clock, starting: bool)
    returns (w': World, err: Option<Error>, after: bool, k: nat)
    requires OnTime(w, clock) && KeepsTime(pass, wait, clock.deadline)
    requires Behaves(pass, wait, Watching(env), Readies(env))
    ensures (w', err) == Loop(pass, wait, w, clock, starting)
    ensures Watched(env, w, w', starting, after, k)
    ensures err.None? ==> Readies(env)(w, w')
    ensures TICK * (clock.ticks + k) <= Max(TIMEOUT, TICK * clock.ticks) + TICK
  {
    WatchingComposes(env);
    var result := Loop(pass, wait, w, clock, starting);
    after, k := LoopMeans(pass, wait, Watching(env), Readies(env), w, clock, starting);
    w', err := result.0, result.1;
    assert Watching(env)(w, w', starting, after, k);
  }

  /** A watch that keeps time, looks truly and composes. */
  ghost predicate Lawful(env: Env, watch: Watch) {
    forall d :: KeepsTime(watch.pass(d), watch.wait(d), d)
      && Behaves(watch.pass(d), watch.wait(d), Watching(env), Readies(env))
  }

  lemma WatcherIsLawful(env: Env)
    ensures Lawful(env, Watcher(env))
  {
    forall d: nat
      ensures KeepsTime(Looks(env, d), Waits(env, d), d)
          && Behaves(Looks(env, d), Waits(env, d), Watching(env), Readies(env))
    {
      TimeIsKept(env, d);
      LooksBehave(env, d);
    }
  }

  /** The loop ends within 400 ticks, so after at most 401 listings; it announces
    * "starting" at most once, with the newest pod placed, and nothing else, writes
    * nothing, and ends without an
    * error only if its last listing found the engine ready. */
  lemma AwaitEnds(env: Env, watch: Watch, w: World) returns (after: bool, k: nat)
    requires Lawful(env, watch)
    ensures var (w', err) := Await(watch, w);
            Watched(env, w, w', false, after, k) && (err.None? ==> EndsReady(env, w'.log, |w.log|))
    ensures k <= 401
  {
    var d := w.now + TIMEOUT;
    var w', err;
    w', err, after, k := LoopWatched(env, watch.pass(d), watch.wait(d), w, Clock(d, 0), false);
  }

  // ------------------------------------------------------ what decides it

  /** A live pod with an address answers. */
  predicate SomeAnswers(pods: seq<Pod>, hosts: set<string>) {
    exists p :: p in pods && !p.deleting && p.ip != "" && p.ip in hosts
  }

  /** The deadline has passed, or the context was cancelled around the last call. */
  ghost predicate Late(env: Env, w: World, deadline: nat) {
    w.now >= deadline || env(|w.log|).cancelled || (w.log != [] && env(|w.log| - 1).cancelled)
  }

  lemma AnswererMeans(pods: seq<Pod>, hosts: set<string>)
    ensures Answerer(pods, hosts).Some? <==> SomeAnswers(pods, hosts)
  {
    AnswererIs(pods, hosts);
    if SomeAnswers(pods, hosts) {
      var p :| p in pods && !p.deleting && p.ip != "" && p.ip in hosts;
      assert CanAnswer(p, hosts);
    }
  }

  /** What one pass makes of a listing: a dead live pod ends it with that pod's reason;
    * without one an answer ends it well, "starting" was announced if the newest pod is
    * placed, and short of an answer it goes on until it is late. */
  lemma ListingDecides(env: Env, w: World, deadline: nat, starting: bool, pods: seq<Pod>)
    requires pods != []
    ensures var (w', looked) := LookAt(env, w, deadline, starting, pods);
            if SomeDead(pods) then
              looked.Over? && looked.err.Some? && looked.err.value.Text?
              && exists p :: p in pods && !p.deleting && Dead(p) && TellsWhy(p, looked.err.value.text)
            else
              && |w'.log| > 0 && looked.starting == (starting || Newest(pods).node != "")
              && if SomeAnswers(pods, env(|w'.log| - 1).answering) then looked == Over(None, looked.starting)
                 else if w'.now >= deadline || env(|w'.log|).cancelled
                 then looked == Over(Some(NOT_READY), looked.starting)
                 else looked == Again(looked.starting)
  {
    FailureAmongMeans(pods);
    if !SomeDead(pods) {
      var w2 := Announced(env, w, starting, pods).0;
      AnswererMeans(pods, env(|w2.log|).answering);
    }
  }

  /** The last call listed no pods for an error, or a live pod that is dead. */
  ghost predicate SawFailure(w: World) {
    && w.log != [] && w.log[|w.log| - 1].what.PodsListed?
    && var pods := w.log[|w.log| - 1].what.pods;
       pods.Some? ==> SomeDead(pods.value)
  }

  ghost predicate FailedJustly(env: Env, w: World, deadline: nat) { Late(env, w, deadline) || SawFailure(w) }

  lemma LookFailsJustly(env: Env, w: World, deadline: nat, starting: bool)
    ensures var (w', looked) := Look(env, w, deadline, starting);
            looked.Over? && looked.err.Some? ==> FailedJustly(env, w', deadline)
  {
    var (w1, listed) := ListPods(env, w);
    if listed.Some? && listed.value != [] { ListingDecides(env, w1, deadline, starting, listed.value); }
  }

  lemma WaitFailsJustly(env: Env, w: World, deadline: nat, n: nat)
    ensures var (w', ticked) := WaitTick(env, w, deadline, n); !ticked ==> FailedJustly(env, w', deadline)
  {
  }

  ghost predicate PartsFailJustly(env: Env, pass: Pass, wait: Wait, deadline: nat) {
    && (forall w, s :: pass(w, s).1.Over? && pass(w, s).1.err.Some? ==> FailedJustly(env, pass(w, s).0, deadline))
    && (forall w, n: nat :: !wait(w, n).1 ==> FailedJustly(env, wait(w, n).0, deadline))
  }

  lemma WatcherFailsJustly(env: Env, deadline: nat)
    ensures PartsFailJustly(env, Watcher(env).pass(deadline), Watcher(env).wait(deadline), deadline)
  {
    forall w, s
      ensures var (w', looked) := Look(env, w, deadline, s);
        looked.Over? && looked.err.Some? ==> FailedJustly(env, w', deadline)
    {
      LookFailsJustly(env, w, deadline, s);
    }
    forall w, n: nat
      ensures var (w', ticked) := WaitTick(env, w, deadline, n); !ticked ==> FailedJustly(env, w', deadline)
    {
      WaitFailsJustly(env, w, deadline, n);
    }
  }

  /** The loop ends with an error only where one of its parts does. */
  lemma {:induction false} LoopFails(env: Env, pass: Pass, wait: Wait, w: World, clock: Clock, starting: bool)
    requires OnTime(w, clock) && KeepsTime(pass, wait, clock.deadline)
    requires PartsFailJustly(env, pass, wait, clock.deadline)
    ensures var (w', err) := Loop(pass, wait, w, clock, starting); err.Some? ==> FailedJustly(env, w', clock.deadline)
    decreases TIMEOUT - TICK * clock.ticks
  {
    var (w1, looked) := pass(w, starting);
    assert pass(w, starting).1.Over? && pass(w, starting).1.err.Some? ==> FailedJustly(env, w1, clock.deadline);
    if looked.Again? {
      var (w2, ticked) := wait(w1, clock.ticks);
      assert !wait(w1, clock.ticks).1 ==> FailedJustly(env, w2, clock.deadline);
      if ticked { LoopFails(env, pass, wait, w2, clock.(ticks := clock.ticks + 1), looked.starting); }
    }
  }

  lemma LoopFailed(env: Env, pass: Pass, wait: Wait, w: World, clock: Clock, starting: bool)
    returns (w': World, err: Option<Error>)
    requires OnTime(w, clock) && KeepsTime(pass, wait, clock.deadline)
    requires PartsFailJustly(env, pass, wait, clock.deadline)
    ensures (w', err) == Loop(pass, wait, w, clock, starting) && (err.Some? ==> FailedJustly(env, w', clock.deadline))
  {
    LoopFails(env, pass, wait, w, clock, starting);
    var both := Loop(pass, wait, w, clock, starting);
    w', err := both.0, both.1;
  }

  lemma AwaitIsLoop(watch: Watch, w: World) returns (clock: Clock, starting: bool)
    requires forall d :: KeepsTime(watch.pass(d), watch.wait(d), d)
    ensures clock.deadline == w.now + 20 * 60 * 1000 && OnTime(w, clock)
    ensures KeepsTime(watch.pass(clock.deadline), watch.wait(clock.deadline), clock.deadline)
    ensures Await(watch, w) == Loop(watch.pass(clock.deadline), watch.wait(clock.deadline), w, clock, starting)
  {
    clock, starting := Clock(w.now + TIMEOUT, 0), false;
  }

  /** A deploy is given up only for a reason: twenty minutes have passed or the context
    * was cancelled, the pods could not be listed, or a live pod of the last listing is
    * dead. */
  lemma AwaitFailsJustly(env: Env, watch: Watch, w: World)
    requires Lawful(env, watch) && watch == Watcher(env)
    ensures var (w', err) := Await(watch, w); err.Some? ==> FailedJustly(env, w', w.now + 20 * 60 * 1000)
  {
    var clock, starting := AwaitIsLoop(watch, w);
    var d := clock.deadline;
    WatcherFailsJustly(env, d);
    var w', err := LoopFailed(env, watch.pass(d), watch.wait(d), w, clock, starting);
  }

  // ------------------------------------------------------------- the method

  /** anyPodAnswers: the first live pod whose engine answers. */
  method AnyPodAnswers(c: Controller, pods: seq<Pod>) returns (up: bool)
    modifies c`objects, c`revision, c`now, c`log
    ensures (c.View(), up) == Probe(c.env, old(c.View()), pods)
  {
    var hosts := c.env(|c.log|).answering;
    var host: Option<string> := None;
    var i := 0;
    while i < |pods|
      invariant 0 <= i <= |pods|
      invariant host.None? && Answerer(pods[i..], hosts) == Answerer(pods, hosts)
    {
      if !pods[i].deleting && pods[i].ip != "" && pods[i].ip in hosts {
        host := Some(pods[i].ip);
        break;
      }
      i := i + 1;
    }
    assert host == Answerer(pods, hosts);
    c.Observe(Probed(host));
    up := host.Some?;
  }

  method LookAtPods(c: Controller, deadline: nat, starting: bool, pods: seq<Pod>) returns (looked: Looked)
    requires pods != []
    modifies c`objects, c`revision, c`now, c`log
    ensures (c.View(), looked) == LookAt(c.env, old(c.View()), deadline, starting, pods)
  {
    var newest := NewestPod(pods);
    var reason := FailureIn(pods);
    if reason != "" { return Over(Some(Text(reason)), starting); }
    var after := starting;
    if newest.node != "" && !starting {
      var ignored := c.Announce(Starting);
      after := true;
    }
    var up := AnyPodAnswers(c, pods);
    if up { return Over(None, after); }
    if c.now >= deadline || c.env(|c.log|).cancelled { return Over(Some(NOT_READY), after); }
    looked := Again(after);
  }

  method LookOnce(c: Controller, deadline: nat, starting: bool) returns (looked: Looked)
    modifies c`objects, c`revision, c`now, c`log
    ensures (c.View(), looked) == Look(c.env, old(c.View()), deadline, starting)
  {
    var listed := if c.env(|c.log|).fault then None else Some(c.env(|c.log|).pods);
    c.Observe(PodsListed(listed));
    var expired := c.now >= deadline || c.env(|c.log|).cancelled;
    if listed.None? { return Over(Some(if expired then NOT_READY else Wrapped(Api(Fault))), starting); }
    if listed.value == [] { return if expired then Over(Some(NOT_READY), starting) else Again(starting); }
    looked := LookAtPods(c, deadline, starting, listed.value);
  }

  method WaitOnce(c: Controller, deadline: nat, n: nat) returns (ticked: bool)
    modifies c`objects, c`revision, c`now, c`log
    ensures (c.View(), ticked) == WaitTick(c.env, old(c.View()), deadline, n)
  {
    var turn := c.env(|c.log|);
    c.Observe(Waited);
    var tick := Max(c.now, deadline - TIMEOUT + TICK * (n + 1));
    var done := if turn.cancelled then c.now else Max(c.now, deadline);
    ticked := tick < done || (tick == done && !turn.doneFirst);
    c.now := if ticked then tick else done;
  }

  /** The watch is this one: what it says of a look or a wait is what they do. */
  ghost predicate Shows(env: Env, deadline: nat, pass: Pass, wait: Wait) {
    && (forall w, s {:trigger Look(env, w, deadline, s)} :: pass(w, s) == Look(env, w, deadline, s))
    && (forall w, n: nat {:trigger WaitTick(env, w, deadline, n)} :: wait(w, n) == WaitTick(env, w, deadline, n))
  }

  method LookNow(c: Controller, deadline: nat, starting: bool, ghost pass: Pass, ghost wait: Wait)
    returns (looked: Looked)
    requires Shows(c.env, deadline, pass, wait)
    modifies c`objects, c`revision, c`now, c`log
    ensures (c.View(), looked) == pass(old(c.View()), starting)
  {
    looked := LookOnce(c, deadline, starting);
  }

  method WaitNow(c: Controller, deadline: nat, n: nat, ghost pass: Pass, ghost wait: Wait) returns (ticked: bool)
    requires Shows(c.env, deadline, pass, wait)
    modifies c`objects, c`revision, c`now, c`log
    ensures (c.View(), ticked) == wait(old(c.View()), n)
  {
    ticked := WaitOnce(c, deadline, n);
  }

  /** One turn of the loop: over, or one tick later. */
  method WatchOnce(c: Controller, clock: Clock, starting: bool, ghost pass: Pass, ghost wait: Wait)
    returns (done: bool, err: Option<Error>, after: bool)
    requires OnTime(c.View(), clock) && KeepsTime(pass, wait, clock.deadline)
        && Shows(c.env, clock.deadline, pass, wait)
    modifies c`objects, c`revision, c`now, c`log
    ensures !done ==> TICK * clock.ticks < TIMEOUT && OnTime(c.View(), clock.(ticks := clock.ticks + 1))
    ensures Loop(pass, wait, old(c.View()), clock, starting)
         == if done then (c.View(), err) else Loop(pass, wait, c.View(), clock.(ticks := clock.ticks + 1), after)
  {
    var looked := LookNow(c, clock.deadline, starting, pass, wait);
    if looked.Over? { return true, looked.err, starting; }
    var ticked := WaitNow(c, clock.deadline, clock.ticks, pass, wait);
    if !ticked { return true, Some(NOT_READY), starting; }
    return false, None, looked.starting;
  }

  /** awaitEngineReady. */
  method AwaitEngineReady(c: Controller, ghost watch: Watch) returns (err: Option<Error>)
    requires forall d :: KeepsTime(watch.pass(d), watch.wait(d), d) && Shows(c.env, d, watch.pass(d), watch.wait(d))
    modifies c`objects, c`revision, c`now, c`log
    ensures (c.View(), err) == Await(watch, old(c.View()))
  {
    var clock, starting := Clock(c.now + TIMEOUT, 0), false;
    ghost var pass, wait := watch.pass(clock.deadline), watch.wait(clock.deadline);
    while true
      invariant OnTime(c.View(), clock) && clock.deadline == old(c.now) + TIMEOUT
      invariant Loop(pass, wait, c.View(), clock, starting) == Await(watch, old(c.View()))
      decreases TIMEOUT - TICK * clock.ticks
    {
      var done, answer, after := WatchOnce(c, clock, starting, pass, wait);
      if done { return answer; }
      clock, starting := clock.(ticks := clock.ticks + 1), after;
    }
  }

  lemma WatcherShows(env: Env, d: nat)
    ensures Shows(env, d, Watcher(env).pass(d), Watcher(env).wait(d))
  {
  }
}

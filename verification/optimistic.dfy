/** Create-or-update under optimistic concurrency: read, then write over the version
  * just read, and read again when somebody else wrote first.
  * applyStormService, applyPodAutoscaler, applyPodGroup, applyModelClaim and
  * applyUnstructuredObject of internal/controller. */
module Optimistic {
  import opened Prelude
  import opened Errors
  import opened Objects
  import opened Cluster

  /** maxAttempts. */
  const ATTEMPTS: nat := 5

  function AsError(reply: Reply): Option<Error> {
    if reply.Refused? then Some(Api(reply.reason)) else None
  }

  /** The backoff's select: the context's end is only seen when it has come. */
  function Abandons(env: Env, w: World): bool {
    env(|w.log|).cancelled && env(|w.log|).doneFirst
  }

  datatype Outcome = Settled(err: Option<Error>) | Clashed

  /** One attempt: somebody else's write in between is a clash. */
  function Attempt(env: Env, w: World, key: Key, content: Content): (World, Outcome) {
    var (w1, got) := Call(env, w, Get(key));
    if got.Found? then
      var (w2, put) := Call(env, w1, Update(key, got.stored.version, content));
      (w2, if put == Refused(Conflict) then Clashed else Settled(AsError(put)))
    else if got == Refused(NotFound) then
      var (w2, made) := Call(env, w1, Create(key, content));
      (w2, Settled(AsError(made)))
    else (w1, Settled(AsError(got)))
  }

  function Backoff(env: Env, w: World, pause: bool): World { if pause then Note(env, w, Waited) else w }

  /** What `left` more attempts do. Only applyPodAutoscaler pauses between them. */
  function Apply(env: Env, w: World, key: Key, content: Content, left: nat, pause: bool): (World, Option<Error>)
    requires left >= 1
    decreases left
  {
    var (w1, outcome) := Attempt(env, w, key, content);
    if outcome.Settled? then (w1, outcome.err)
    else if left == 1 then (w1, Some(Api(Conflict)))
    else if pause && Abandons(env, w1) then (Backoff(env, w1, pause), Some(Wrapped(Text("context done"))))
    else Apply(env, Backoff(env, w1, pause), key, content, left - 1, pause)
  }

  method AttemptOnce(c: Controller, key: Key, content: Content) returns (outcome: Outcome)
    modifies c`objects, c`revision, c`now, c`log
    ensures (c.View(), outcome) == Attempt(c.env, old(c.View()), key, content)
  {
    var got := c.Send(Get(key));
    if got == Refused(NotFound) {
      var made := c.Send(Create(key, content));
      return Settled(AsError(made));
    }
    if !got.Found? { return Settled(AsError(got)); }
    var put := c.Send(Update(key, got.stored.version, content));
    outcome := if put == Refused(Conflict) then Clashed else Settled(AsError(put));
  }

  /** One attempt only. */
  function ApplyOnce(env: Env, w: World, key: Key, content: Content): (World, Option<Error>) {
    var (w1, outcome) := Attempt(env, w, key, content);
    (w1, if outcome.Settled? then outcome.err else Some(Api(Conflict)))
  }

  /** applyPodGroup, applyModelClaim and applyUnstructuredObject: one attempt only. */
  method ApplyObject(c: Controller, key: Key, content: Content) returns (err: Option<Error>)
    modifies c`objects, c`revision, c`now, c`log
    ensures (c.View(), err) == ApplyOnce(c.env, old(c.View()), key, content)
  {
    var outcome := AttemptOnce(c, key, content);
    err := if outcome.Settled? then outcome.err else Some(Api(Conflict));
  }

  /** One turn of the loop: done, or one attempt less to go. */
  method Round(c: Controller, key: Key, content: Content, left: nat, pause: bool)
    returns (done: bool, err: Option<Error>)
    requires left >= 1
    modifies c`objects, c`revision, c`now, c`log
    ensures !done ==> left > 1
    ensures Apply(c.env, old(c.View()), key, content, left, pause)
         == if done then (c.View(), err) else Apply(c.env, c.View(), key, content, left - 1, pause)
  {
    var outcome := AttemptOnce(c, key, content);
    if outcome.Settled? { return true, outcome.err; }
    if left == 1 { return true, Some(Api(Conflict)); }
    if !pause { return false, None; }
    var abandoned := c.env(|c.log|).cancelled && c.env(|c.log|).doneFirst;
    c.Observe(Waited);
    if abandoned { return true, Some(Wrapped(Text("context done"))); }
    return false, None;
  }

  /** applyStormService, and with a pause applyPodAutoscaler. */
  method ApplyWithRetry(c: Controller, key: Key, content: Content, attempts: nat, pause: bool)
    returns (err: Option<Error>)
    requires attempts >= 1
    modifies c`objects, c`revision, c`now, c`log
    ensures (c.View(), err) == Apply(c.env, old(c.View()), key, content, attempts, pause)
  {
    var left := attempts;
    while true
      invariant 1 <= left <= attempts
      invariant Apply(c.env, c.View(), key, content, left, pause)
          == Apply(c.env, old(c.View()), key, content, attempts, pause)
      decreases left
    {
      var done, answer := Round(c, key, content, left, pause);
      if done { return answer; }
      left := left - 1;
    }
  }

  // ------------------------------------------------------------- atomicity

  predicate Wrote(e: Entry) { e.what.Called? && !e.what.req.Get? && e.what.reply.Fine? }

  predicate Read(e: Entry, key: Key) { e.what.Called? && e.what.req == Get(key) }

  ghost predicate WroteNothing(from: nat, log: seq<Entry>) {
    forall i :: from <= i < |log| ==> !Wrote(log[i])
  }

  /** `write` put `content` over the very object `read` found, or where it found none. */
  ghost predicate Overwrites(read: Entry, write: Entry, key: Key, content: Content) {
    && Read(read, key) && Wrote(write)
    && (if read.what.reply.Found? then
          && write.what.req == Update(key, read.what.reply.stored.version, content)
          && key in write.before.objects && write.before.objects[key] == read.what.reply.stored
        else
          read.what.reply == Refused(NotFound) && write.what.req == Create(key, content)
            && key !in write.before.objects)
    && write.after == Put(write.before, key, content)
  }

  /** The last call wrote, over what the call before it read, and no other did. */
  ghost predicate WroteOnce(from: nat, log: seq<Entry>, key: Key, content: Content) {
    && from + 2 <= |log|
    && (forall i :: from <= i < |log| - 1 ==> !Wrote(log[i]))
    && Overwrites(log[|log| - 2], log[|log| - 1], key, content)
  }

  function Reads(log: seq<Entry>, from: nat, key: Key): nat
    decreases |log| - from
  {
    if from >= |log| then 0 else (if Read(log[from], key) then 1 else 0) + Reads(log, from + 1, key)
  }

  lemma CallVersions(env: Env, w: World, req: Request)
    requires Versioned(w.store)
    ensures Versioned(Begun(env, w)) && Versioned(Call(env, w, req).0.store)
  {
    MeddledVersions(w.store, env(|w.log|).others, req.key);
    ServedVersions(Begun(env, w), req, env(|w.log|).fault);
  }

  ghost predicate Atomic(from: nat, log: seq<Entry>, key: Key, content: Content, err: Option<Error>) {
    if err.None? then WroteOnce(from, log, key, content) else WroteNothing(from, log)
  }

  lemma TwoCallsAreAtomic(log: seq<Entry>, read: Entry, write: Entry, key: Key, content: Content, err: Option<Error>)
    requires Read(read, key) && !Wrote(read) && !Read(write, key)
    requires if err.None? then Overwrites(read, write, key, content) else !Wrote(write)
    ensures var log' := log + [read] + [write]; Atomic(|log|, log', key, content, err) && Reads(log', |log|, key) == 1
  {
    var log' := log + [read] + [write];
    assert log'[|log|] == read && log'[|log| + 1] == write;
    assert Reads(log', |log| + 2, key) == 0;
    assert Reads(log', |log| + 1, key) == 0;
  }

  /** Reading, then writing at the version read: the write goes through only if
    * nobody wrote in between. */
  lemma ReadThenWrite(env: Env, w: World, key: Key, content: Content)
    requires Versioned(w.store)
    requires var (w1, got) := Call(env, w, Get(key)); got.Found? || got == Refused(NotFound)
    ensures var (w1, got) := Call(env, w, Get(key));
            var req := if got.Found? then Update(key, got.stored.version, content) else Create(key, content);
            var (w2, answer) := Call(env, w1, req);
            && Versioned(w2.store)
            && if answer.Fine? then Overwrites(w1.log[|w.log|], w2.log[|w1.log|], key, content)
               else !Wrote(w2.log[|w1.log|]) && answer.Refused?
  {
    var (w1, got) := Call(env, w, Get(key));
    var req := if got.Found? then Update(key, got.stored.version, content) else Create(key, content);
    CallVersions(env, w, Get(key));
    CallVersions(env, w1, req);
    MeddledVersions(w1.store, env(|w1.log|).others, key);
  }

  lemma AttemptIsAtomic(env: Env, w: World, key: Key, content: Content)
    requires Versioned(w.store)
    ensures var (w', outcome) := Attempt(env, w, key, content);
            && Versioned(w'.store) && w.log < w'.log
            && Atomic(|w.log|, w'.log, key, content, if outcome.Settled? then outcome.err else Some(Api(Conflict)))
            && Reads(w'.log, |w.log|, key) == 1
  {
    var (w1, got) := Call(env, w, Get(key));
    if got.Found? || got == Refused(NotFound) {
      ReadThenWrite(env, w, key, content);
      var req := if got.Found? then Update(key, got.stored.version, content) else Create(key, content);
      var (w2, answer) := Call(env, w1, req);
      assert w2.log == w.log + [w1.log[|w.log|]] + [w2.log[|w1.log|]];
      TwoCallsAreAtomic(w.log, w1.log[|w.log|], w2.log[|w1.log|], key, content, AsError(answer));
    } else {
      CallVersions(env, w, Get(key));
      assert Reads(w1.log, |w1.log|, key) == 0;
    }
  }

  lemma {:induction false} ReadsExtend(a: seq<Entry>, b: seq<Entry>, from: nat, key: Key)
    requires a <= b && from <= |a|
    ensures Reads(b, from, key) == Reads(a, from, key) + Reads(b, |a|, key)
    decreases |a| - from
  {
    if from == |a| {
    } else {
      ReadsExtend(a, b, from + 1, key);
    }
  }

  /** Waiting writes nothing and reads nothing. */
  lemma BackoffIsIdle(env: Env, w: World, pause: bool, from: nat, key: Key)
    requires Versioned(w.store) && from <= |w.log|
    ensures var w' := Backoff(env, w, pause);
            && Versioned(w'.store) && w.log <= w'.log && Reads(w'.log, from, key) == Reads(w.log, from, key)
            && (forall i :: |w.log| <= i < |w'.log| ==> !Wrote(w'.log[i]))
  {
    var w' := Backoff(env, w, pause);
    MeddledVersions(w.store, env(|w.log|).others, key);
    ReadsExtend(w.log, w'.log, from, key);
    if pause { assert Reads(w'.log, |w'.log|, key) == 0; }
  }

  ghost predicate AtomicRun(w: World, w': World, key: Key, content: Content, err: Option<Error>, most: nat) {
    w.log <= w'.log && Atomic(|w.log|, w'.log, key, content, err) && Reads(w'.log, |w.log|, key) <= most
  }

  ghost predicate IdleRun(w: World, w': World, key: Key) {
    Versioned(w'.store) && w.log <= w'.log && WroteNothing(|w.log|, w'.log) && Reads(w'.log, |w.log|, key) <= 1
  }

  lemma IdleThenAtomic(a: World, b: World, c: World, key: Key, content: Content, err: Option<Error>, most: nat)
    requires IdleRun(a, b, key) && AtomicRun(b, c, key, content, err, most)
    ensures AtomicRun(a, c, key, content, err, most + 1)
  {
    PrefixOfPrefix(a.log, b.log, c.log);
    assert forall i :: |a.log| <= i < |b.log| ==> c.log[i] == b.log[i];
    ReadsExtend(b.log, c.log, |a.log|, key);
  }

  /** One attempt either ends the matter or writes nothing and leaves one fewer. */
  lemma ApplyStep(env: Env, w: World, key: Key, content: Content, left: nat, pause: bool)
    returns (w2: World, done: bool, err: Option<Error>)
    requires left >= 1 && Versioned(w.store)
    ensures Apply(env, w, key, content, left, pause)
        == if done || left == 1 then (w2, err) else Apply(env, w2, key, content, left - 1, pause)
    ensures if done || left == 1 then AtomicRun(w, w2, key, content, err, 1) else IdleRun(w, w2, key)
  {
    var (w1, outcome) := Attempt(env, w, key, content);
    AttemptIsAtomic(env, w, key, content);
    if outcome.Settled? { return w1, true, outcome.err; }
    if left == 1 { return w1, true, Some(Api(Conflict)); }
    w2 := Backoff(env, w1, pause);
    BackoffIsIdle(env, w1, pause, |w.log|, key);
    done, err := pause && Abandons(env, w1), Some(Wrapped(Text("context done")));
  }

  /** Success means exactly one write, of this content, over what this attempt had
    * read; failure means none; and the object is read at most once per attempt. */
  lemma {:induction false} ApplyIsAtomic(env: Env, w: World, key: Key, content: Content, left: nat, pause: bool)
    requires left >= 1 && Versioned(w.store)
    ensures var (w', err) := Apply(env, w, key, content, left, pause); AtomicRun(w, w', key, content, err, left)
    decreases left
  {
    var w2, done, err := ApplyStep(env, w, key, content, left, pause);
    if !done && left > 1 {
      var (w', err') := Apply(env, w2, key, content, left - 1, pause);
      ApplyIsAtomic(env, w2, key, content, left - 1, pause);
      IdleThenAtomic(w, w2, w', key, content, err', left - 1);
    }
  }

  // ------------------------------------------------------------------- scope

  predicate Stores(s: Store, key: Key, content: Content) { key in s.objects && s.objects[key].content == content }

  lemma AttemptStretch(env: Env, w: World, key: Key, content: Content)
    ensures var (w', outcome) := Attempt(env, w, key, content);
            && Stretch(env, w, w', Scope({key}, {}, {}))
            && (outcome == Settled(None) ==> Stores(w'.store, key, content))
  {
    var scope := Scope({key}, {}, {});
    var (w1, got) := Call(env, w, Get(key));
    StretchCall(env, w, Get(key), scope);
    if got.Found? || got == Refused(NotFound) {
      var req := if got.Found? then Update(key, got.stored.version, content) else Create(key, content);
      StretchCall(env, w1, req, scope);
      StretchThrough(env, w, w1, Call(env, w1, req).0, scope);
    }
  }

  /** As ApplyStep, saying what the attempt may do and what its success leaves. */
  lemma StretchStep(env: Env, w: World, key: Key, content: Content, left: nat, pause: bool)
    returns (w2: World, done: bool, err: Option<Error>)
    requires left >= 1
    ensures Apply(env, w, key, content, left, pause)
        == if done || left == 1 then (w2, err) else Apply(env, w2, key, content, left - 1, pause)
    ensures Stretch(env, w, w2, Scope({key}, {}, {}))
    ensures (done || left == 1) && err.None? ==> Stores(w2.store, key, content)
  {
    var scope := Scope({key}, {}, {});
    var (w1, outcome) := Attempt(env, w, key, content);
    AttemptStretch(env, w, key, content);
    if outcome.Settled? { return w1, true, outcome.err; }
    if left == 1 { return w1, true, Some(Api(Conflict)); }
    w2 := Backoff(env, w1, pause);
    if pause { StretchNote(env, w1, Waited, scope); } else { StretchStays(env, w1, scope); }
    StretchThrough(env, w, w1, w2, scope);
    done, err := pause && Abandons(env, w1), Some(Wrapped(Text("context done")));
  }

  /** Only this object is written, nothing is deleted, and success leaves it in place. */
  lemma {:induction false} ApplyStretch(env: Env, w: World, key: Key, content: Content, left: nat, pause: bool)
    requires left >= 1
    ensures var (w', err) := Apply(env, w, key, content, left, pause);
            && Stretch(env, w, w', Scope({key}, {}, {}))
            && (err.None? ==> Stores(w'.store, key, content))
    decreases left
  {
    var w2, done, err := StretchStep(env, w, key, content, left, pause);
    if !done && left > 1 {
      ApplyStretch(env, w2, key, content, left - 1, pause);
      StretchThrough(env, w, w2, Apply(env, w2, key, content, left - 1, pause).0, Scope({key}, {}, {}));
    }
  }

  // --------------------------------------------------------------- progress

  /** The call that writes in attempt number `a`, counting from 0. */
  function WriteTurn(from: nat, a: nat, pause: bool): nat { from + (if pause then 3 * a else 2 * a) + 1 }

  /** Nothing but other writers gets in the way before this many calls. */
  ghost predicate OnlyWriters(env: Env, from: nat, to: nat, key: Key) {
    forall i {:trigger env(i)} :: from <= i < to ==> !env(i).fault && !env(i).cancelled && !Removes(env(i).others, key)
  }

  lemma AttemptClashes(env: Env, w: World, key: Key, content: Content)
    requires Versioned(w.store) && key in w.store.objects
    requires OnlyWriters(env, |w.log|, |w.log| + 2, key)
    ensures var (w', outcome) := Attempt(env, w, key, content);
            && |w'.log| == |w.log| + 2 && Versioned(w'.store) && key in w'.store.objects
            && outcome == if Rewrites(env(|w.log| + 1).others, key) then Clashed else Settled(None)
  {
    AttemptIsAtomic(env, w, key, content);
    var (w1, got) := Call(env, w, Get(key));
    CallVersions(env, w, Get(key));
    MeddledVersions(w.store, env(|w.log|).others, key);
    MeddledVersions(w1.store, env(|w1.log|).others, key);
  }

  /** While the object is there and nothing else fails, the write succeeds exactly
    * when some attempt is not hit by another writer: so with five attempts any four
    * hits are survived. */
  lemma {:induction false} ApplySucceedsUnlessAllHit(
    env: Env, w: World, key: Key, content: Content, left: nat, pause: bool)
    requires left >= 1 && Versioned(w.store) && key in w.store.objects
    requires OnlyWriters(env, |w.log|, |w.log| + 3 * left, key)
    ensures Apply(env, w, key, content, left, pause).1.None?
       <==> exists a: nat :: a < left && !Rewrites(env(WriteTurn(|w.log|, a, pause)).others, key)
    decreases left
  {
    AttemptClashes(env, w, key, content);
    var (w1, outcome) := Attempt(env, w, key, content);
    assert WriteTurn(|w.log|, 0, pause) == |w.log| + 1;
    if outcome.Clashed? && left > 1 {
      var w2 := Backoff(env, w1, pause);
      MeddledVersions(w1.store, env(|w1.log|).others, key);
      ApplySucceedsUnlessAllHit(env, w2, key, content, left - 1, pause);
      forall a: nat ensures WriteTurn(|w2.log|, a, pause) == WriteTurn(|w.log|, a + 1, pause) { }
      forall a: nat | a < left && !Rewrites(env(WriteTurn(|w.log|, a, pause)).others, key)
        ensures a > 0 && !Rewrites(env(WriteTurn(|w2.log|, a - 1, pause)).others, key) { }
    }
  }

  // ------------------------------------------------------------------ pauses

  /** Without pauses nothing is waited for; with them every read but the first follows a
    * wait. */
  ghost predicate Paused(log: seq<Entry>, from: nat, key: Key, pause: bool) {
    if pause then forall i :: from < i < |log| && Read(log[i], key) ==> log[i - 1].what.Waited?
    else forall i :: from <= i < |log| ==> !log[i].what.Waited?
  }

  lemma AttemptReadsFirst(env: Env, w: World, key: Key, content: Content)
    ensures var w' := Attempt(env, w, key, content).0;
            && w.log <= w'.log && |w'.log| > |w.log|
            && (forall i :: |w.log| <= i < |w'.log| ==> !w'.log[i].what.Waited?)
            && (forall i :: |w.log| < i < |w'.log| ==> !Read(w'.log[i], key))
  {
  }

  /** Only the last wait may have met the context's end. */
  ghost predicate WaitsOn(env: Env, log: seq<Entry>, from: nat) {
    forall i :: from <= i < |log| - 1 && log[i].what.Waited? ==> !(env(i).cancelled && env(i).doneFirst)
  }

  ghost predicate PausedRun(env: Env, w: World, w': World, key: Key, pause: bool) {
    && w.log <= w'.log && |w'.log| > |w.log|
    && Paused(w'.log, |w.log|, key, pause) && WaitsOn(env, w'.log, |w.log|)
  }

  /** More may follow a run that ended with a wait, if there are waits at all. */
  ghost predicate MayGoOn(env: Env, w: World, pause: bool) {
    pause ==> w.log != [] && var i := |w.log| - 1; w.log[i].what.Waited? && !(env(i).cancelled && env(i).doneFirst)
  }

  lemma PausedThrough(env: Env, a: World, b: World, c: World, key: Key, pause: bool)
    requires PausedRun(env, a, b, key, pause) && PausedRun(env, b, c, key, pause) && MayGoOn(env, b, pause)
    ensures PausedRun(env, a, c, key, pause)
  {
    forall i | |a.log| <= i < |b.log| ensures c.log[i] == b.log[i] { }
    PrefixOfPrefix(a.log, b.log, c.log);
  }

  lemma AttemptIsPaused(env: Env, w: World, key: Key, content: Content, pause: bool)
    ensures PausedRun(env, w, Attempt(env, w, key, content).0, key, pause)
  {
    AttemptReadsFirst(env, w, key, content);
  }

  lemma BackoffIsPaused(env: Env, w: World, w1: World, key: Key, pause: bool)
    requires PausedRun(env, w, w1, key, pause) && !w1.log[|w1.log| - 1].what.Waited?
    ensures var w2 := Backoff(env, w1, pause);
            PausedRun(env, w, w2, key, pause) && (!(pause && Abandons(env, w1)) ==> MayGoOn(env, w2, pause))
  {
  }

  lemma PausedStep(env: Env, w: World, key: Key, content: Content, left: nat, pause: bool)
    returns (w2: World, done: bool, err: Option<Error>)
    requires left >= 1
    ensures Apply(env, w, key, content, left, pause)
        == if done || left == 1 then (w2, err) else Apply(env, w2, key, content, left - 1, pause)
    ensures PausedRun(env, w, w2, key, pause) && (!done && left > 1 ==> MayGoOn(env, w2, pause))
  {
    var (w1, outcome) := Attempt(env, w, key, content);
    AttemptIsPaused(env, w, key, content, pause);
    AttemptReadsFirst(env, w, key, content);
    if outcome.Settled? { return w1, true, outcome.err; }
    if left == 1 { return w1, true, Some(Api(Conflict)); }
    BackoffIsPaused(env, w, w1, key, pause);
    w2, done, err := Backoff(env, w1, pause), pause && Abandons(env, w1), Some(Wrapped(Text("context done")));
  }

  /** Retries that pause are each waited for, others follow at once; and a wait that the
    * context's end cuts short is the last. */
  lemma {:induction false} RetriesPause(env: Env, w: World, key: Key, content: Content, left: nat, pause: bool)
    requires left >= 1
    ensures PausedRun(env, w, Apply(env, w, key, content, left, pause).0, key, pause)
    decreases left
  {
    var w2, done, err := PausedStep(env, w, key, content, left, pause);
    if !done && left > 1 {
      RetriesPause(env, w2, key, content, left - 1, pause);
      PausedThrough(env, w, w2, Apply(env, w2, key, content, left - 1, pause).0, key, pause);
    }
  }
}

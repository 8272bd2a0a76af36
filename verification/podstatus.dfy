/** What a pod's status says about the engine inside it.
  * internal/controller/engine_ready.go. */
module PodStatus {
  import opened Prelude
  import Text

  datatype Waiting = Waiting(reason: string, message: string)

  datatype Container = Container(waiting: Option<Waiting>, terminated: Option<string>)

  datatype Condition = Condition(kind: string, status: string, reason: string, message: string)

  datatype Pod = Pod(
    created: int, deleting: bool, node: string, ip: string,
    containers: seq<Container>, conditions: seq<Condition>)

  predicate NeverStarts(reason: string) {
    reason in {"ImagePullBackOff", "ErrImagePull", "InvalidImageName",
               "CreateContainerError", "CreateContainerConfigError", "RunContainerError"}
  }

  function ContainerFailure(c: Container): string {
    if c.waiting.Some? && NeverStarts(c.waiting.value.reason) then
      if c.waiting.value.message != "" then c.waiting.value.reason + ": " + c.waiting.value.message
      else c.waiting.value.reason
    else if c.terminated.Some? && Text.TrimSpace(c.terminated.value) == "OOMKilled" then
      "OOMKilled: the engine ran out of memory while loading the model"
    else ""
  }

  function ConditionFailure(c: Condition): string {
    if c.kind == "PodScheduled" && c.status == "False" && c.reason == "Unschedulable" && c.message != ""
    then "Unschedulable: " + c.message else ""
  }

  /** The first non-empty text, "" when there is none. */
  function First(texts: seq<string>): string {
    if texts == [] then "" else if texts[0] != "" then texts[0] else First(texts[1..])
  }

  /** terminalPodFailure: why the pod can never become ready, "" when it may. */
  function Failure(p: Pod): string {
    First(Texts(p))
  }

  /** What its containers, then its conditions, have to say. */
  function Texts(p: Pod): seq<string> {
    seq(|p.containers|, i requires 0 <= i < |p.containers| => ContainerFailure(p.containers[i]))
    + seq(|p.conditions|, i requires 0 <= i < |p.conditions| => ConditionFailure(p.conditions[i]))
  }

  // --------------------------------------------------- what ends a deploy

  /** The container waits for something that never comes. */
  predicate WaitsInVain(c: Container) {
    && c.waiting.Some?
    && var reason := c.waiting.value.reason;
       || reason == "ImagePullBackOff" || reason == "ErrImagePull" || reason == "InvalidImageName"
       || reason == "CreateContainerError" || reason == "CreateContainerConfigError" || reason == "RunContainerError"
  }

  /** The engine did not fit into memory. */
  predicate WasKilled(c: Container) { c.terminated.Some? && Text.TrimSpace(c.terminated.value) == "OOMKilled" }

  /** No node can take the pod, and the scheduler says why. */
  predicate CannotBePlaced(c: Condition) {
    c.kind == "PodScheduled" && c.status == "False" && c.reason == "Unschedulable" && c.message != ""
  }

  predicate Hopeless(c: Container) { WaitsInVain(c) || WasKilled(c) }

  predicate Dead(p: Pod) {
    (exists c :: c in p.containers && Hopeless(c)) || (exists c :: c in p.conditions && CannotBePlaced(c))
  }

  /** What is said of a container: what it waits for comes before how it ended. */
  predicate Explains(c: Container, text: string) {
    if WaitsInVain(c) then
      var w := c.waiting.value;
      text == if w.message == "" then w.reason else w.reason + ": " + w.message
    else
      WasKilled(c) && text == "OOMKilled: the engine ran out of memory while loading the model"
  }

  lemma ContainerFailureMeans(c: Container)
    ensures ContainerFailure(c) != "" <==> Hopeless(c)
    ensures Hopeless(c) ==> Explains(c, ContainerFailure(c))
  {
  }

  lemma ConditionFailureMeans(c: Condition)
    ensures ConditionFailure(c) != "" <==> CannotBePlaced(c)
    ensures CannotBePlaced(c) ==> ConditionFailure(c) == "Unschedulable: " + c.message
  {
  }

  lemma {:induction false} FirstAt(texts: seq<string>) returns (k: nat)
    ensures k <= |texts| && forall j :: 0 <= j < k ==> texts[j] == ""
    ensures if k < |texts| then texts[k] != "" && First(texts) == texts[k] else First(texts) == ""
  {
    if texts == [] || texts[0] != "" {
      k := 0;
    } else {
      k := FirstAt(texts[1..]);
      assert forall j :: 0 < j <= k && j < |texts| ==> texts[j] == texts[1..][j - 1];
      k := k + 1;
    }
  }

  lemma TextAt(p: Pod, k: nat)
    requires k < |p.containers| + |p.conditions|
    ensures |Texts(p)| == |p.containers| + |p.conditions|
    ensures if k < |p.containers| then
              var c := p.containers[k];
              (Texts(p)[k] != "" <==> Hopeless(c)) && (Hopeless(c) ==> Explains(c, Texts(p)[k]))
            else
              var c := p.conditions[k - |p.containers|];
              && (Texts(p)[k] != "" <==> CannotBePlaced(c))
              && (CannotBePlaced(c) ==> Texts(p)[k] == "Unschedulable: " + c.message)
  {
    if k < |p.containers| {
      ContainerFailureMeans(p.containers[k]);
    } else {
      ConditionFailureMeans(p.conditions[k - |p.containers|]);
    }
  }

  lemma NoContainerBefore(p: Pod, k: nat)
    requires k <= |p.containers| && |Texts(p)| >= |p.containers|
    requires forall j :: 0 <= j < k ==> Texts(p)[j] == ""
    ensures forall j :: 0 <= j < k ==> !Hopeless(p.containers[j])
  {
    forall j | 0 <= j < k ensures !Hopeless(p.containers[j]) { TextAt(p, j); }
  }

  lemma NoConditionBefore(p: Pod, k: nat)
    requires k <= |p.conditions| && |Texts(p)| >= |p.containers| + k
    requires forall j :: |p.containers| <= j < |p.containers| + k ==> Texts(p)[j] == ""
    ensures forall j :: 0 <= j < k ==> !CannotBePlaced(p.conditions[j])
  {
    forall j | 0 <= j < k ensures !CannotBePlaced(p.conditions[j]) { TextAt(p, |p.containers| + j); }
  }

  predicate TellsWhy(p: Pod, text: string) {
    if exists c :: c in p.containers && Hopeless(c) then
      exists i :: 0 <= i < |p.containers| && Explains(p.containers[i], text)
                  && forall j :: 0 <= j < i ==> !Hopeless(p.containers[j])
    else
      exists i :: 0 <= i < |p.conditions| && CannotBePlaced(p.conditions[i])
                  && text == "Unschedulable: " + p.conditions[i].message
                  && forall j :: 0 <= j < i ==> !CannotBePlaced(p.conditions[j])
  }

  lemma ContainerTells(p: Pod, k: nat, text: string)
    requires k < |p.containers| && Hopeless(p.containers[k]) && Explains(p.containers[k], text)
    requires forall j :: 0 <= j < k ==> !Hopeless(p.containers[j])
    ensures Dead(p) && TellsWhy(p, text)
  {
    assert p.containers[k] in p.containers;
  }

  lemma ConditionTells(p: Pod, k: nat)
    requires k < |p.conditions| && CannotBePlaced(p.conditions[k])
    requires forall j :: 0 <= j < |p.containers| ==> !Hopeless(p.containers[j])
    requires forall j :: 0 <= j < k ==> !CannotBePlaced(p.conditions[j])
    ensures Dead(p) && TellsWhy(p, "Unschedulable: " + p.conditions[k].message)
  {
    assert p.conditions[k] in p.conditions;
  }

  /** A pod is given up exactly when one of its containers can never run or no node
    * can take it; nothing else, such as a container still being created, counts. The
    * reason given is that of the first such container or, if there is none, the
    * scheduler's. */
  lemma FailureMeans(p: Pod)
    ensures Failure(p) != "" <==> Dead(p)
    ensures Dead(p) ==> TellsWhy(p, Failure(p))
  {
    var n := |p.containers|;
    var k := FirstAt(Texts(p));
    if k < |Texts(p)| { TextAt(p, k); }
    if k < n {
      NoContainerBefore(p, k);
      ContainerTells(p, k, Texts(p)[k]);
    } else {
      NoContainerBefore(p, n);
      NoConditionBefore(p, k - n);
      if k < |Texts(p)| { ConditionTells(p, k - n); }
    }
  }

  /** A pod on its way out says nothing about the desired spec. */
  predicate Live(p: Pod) { !p.deleting }

  function LiveFailure(p: Pod): string { if Live(p) then Failure(p) else "" }

  /** No live pod of the list is beyond help. */
  ghost predicate NoneTerminal(pods: seq<Pod>) { AllSilent(pods, LiveFailure) }

  ghost predicate AllSilent(pods: seq<Pod>, why: Pod -> string) {
    forall p :: p in pods ==> why(p) == ""
  }

  /** The first reason a pod of the list gives, "" when none does. */
  function FirstReason(pods: seq<Pod>, why: Pod -> string): string {
    if pods == [] then ""
    else
      var before := FirstReason(pods[..|pods| - 1], why);
      if before != "" then before else why(pods[|pods| - 1])
  }

  lemma {:induction false} FirstReasonIs(pods: seq<Pod>, why: Pod -> string)
    ensures FirstReason(pods, why) == "" <==> AllSilent(pods, why)
  {
    if pods == [] {
    } else {
      FirstReasonIs(pods[..|pods| - 1], why);
      assert pods == pods[..|pods| - 1] + [pods[|pods| - 1]];
    }
  }

  lemma {:induction false} ReasonStands(pods: seq<Pod>, why: Pod -> string, n: nat)
    requires n <= |pods| && FirstReason(pods[..n], why) != ""
    ensures FirstReason(pods, why) == FirstReason(pods[..n], why)
    decreases |pods|
  {
    if n == |pods| {
      assert pods[..n] == pods;
    } else {
      var front := pods[..|pods| - 1];
      assert front[..n] == pods[..n];
      ReasonStands(front, why, n);
    }
  }

  lemma {:induction false} ReasonIsSomeones(pods: seq<Pod>, why: Pod -> string)
    requires FirstReason(pods, why) != ""
    ensures exists p :: p in pods && FirstReason(pods, why) == why(p)
  {
    if pods == [] {
    } else {
      var front := pods[..|pods| - 1];
      if FirstReason(front, why) != "" {
        ReasonIsSomeones(front, why);
        var p :| p in front && FirstReason(front, why) == why(p);
        assert p in pods;
      }
    }
  }

  /** A live pod of the list is dead. */
  predicate SomeDead(pods: seq<Pod>) { exists p :: p in pods && !p.deleting && Dead(p) }

  lemma NoneTerminalMeans(pods: seq<Pod>)
    ensures NoneTerminal(pods) <==> !SomeDead(pods)
  {
    forall p | p in pods ensures LiveFailure(p) == "" <==> p.deleting || !Dead(p) { FailureMeans(p); }
  }

  /** What is said of a list is said of a live pod of it that is dead. */
  lemma FailureAmongMeans(pods: seq<Pod>)
    ensures FailureAmong(pods) != "" <==> SomeDead(pods)
    ensures SomeDead(pods) ==> exists p :: p in pods && !p.deleting && Dead(p) && TellsWhy(p, FailureAmong(pods))
  {
    FirstReasonIs(pods, LiveFailure);
    NoneTerminalMeans(pods);
    if SomeDead(pods) {
      ReasonIsSomeones(pods, LiveFailure);
      var p :| p in pods && FailureAmong(pods) == LiveFailure(p);
      FailureMeans(p);
    }
  }

  /** terminalPodFailureIn: the first live pod's failure. */
  function FailureAmong(pods: seq<Pod>): string { FirstReason(pods, LiveFailure) }

  method FailureIn(pods: seq<Pod>) returns (reason: string)
    ensures reason == FailureAmong(pods)
  {
    for i := 0 to |pods|
      invariant FailureAmong(pods[..i]) == ""
    {
      assert pods[..i + 1][..i] == pods[..i];
      if pods[i].deleting { continue; }
      reason := Failure(pods[i]);
      if reason != "" {
        ReasonStands(pods, LiveFailure, i + 1);
        return;
      }
    }
    assert pods[..|pods|] == pods;
    reason := "";
  }

  /** The most recently created pod; the first of several of one age. */
  ghost predicate IsNewest(pods: seq<Pod>, p: Pod) {
    exists i :: 0 <= i < |pods| && pods[i] == p && NewestAt(pods, i)
  }

  ghost predicate NewestAt(pods: seq<Pod>, i: nat)
    requires i < |pods|
  {
    && (forall j :: 0 <= j < |pods| ==> pods[j].created <= pods[i].created)
    && (forall j :: 0 <= j < i ==> pods[j].created < pods[i].created)
  }

  function Newest(pods: seq<Pod>): Pod
    requires pods != []
  {
    if |pods| == 1 then pods[0]
    else
      var best, last := Newest(pods[..|pods| - 1]), pods[|pods| - 1];
      if last.created > best.created then last else best
  }

  lemma {:induction false} NewestIs(pods: seq<Pod>)
    requires pods != []
    ensures IsNewest(pods, Newest(pods))
  {
    if |pods| == 1 {
      assert NewestAt(pods, 0);
    } else {
      var front, last := pods[..|pods| - 1], pods[|pods| - 1];
      NewestIs(front);
      var i :| 0 <= i < |front| && front[i] == Newest(front) && NewestAt(front, i);
      assert if last.created > Newest(front).created then NewestAt(pods, |pods| - 1) else NewestAt(pods, i);
    }
  }

  /** newestPod. */
  method NewestPod(pods: seq<Pod>) returns (newest: Pod)
    requires pods != []
    ensures newest == Newest(pods)
  {
    newest := pods[0];
    for i := 1 to |pods|
      invariant newest == Newest(pods[..i])
    {
      assert pods[..i + 1][..i] == pods[..i];
      if pods[i].created > newest.created { newest := pods[i]; }
    }
    assert pods[..|pods|] == pods;
  }
}

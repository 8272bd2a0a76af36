# A verified model of go-taas

This project models, in Dafny, the parts of go-taas where a mistake costs the most,
and proves what they promise for every input, every run and every behaviour of the
world around them.

**The reconcile protocol.** A message about an inference service makes the controller
write a StormService, Service, PodGroup, PodAutoscaler, routes and claims, remove the
Deployment and HPA an older controller left, follow the pods until the engine answers,
and publish statuses. The cluster (`cluster.dfy`) is a store of versioned objects. Every
call takes one turn of an arbitrary environment: other clients write first, the call may
fail, time passes, pods and nodes are whatever they are. `reconcile.dfy` gives the
protocol as a list of steps for each event, cut short by the first failure that matters;
`reconciler.dfy` and `consumer.dfy` are the controller's own methods, which update the
cluster object by object and are proved to do what the protocol says. The protocol is
stated for any desired state (`Setup`); `desired.dfy` builds the real one. The theorems:

- `optimistic.dfy`: create-or-update under concurrent writers writes exactly once, over
  the version it read, or not at all, and succeeds exactly when some attempt is not hit.
- `engineready.dfy`: the polling loop ends, and ends well only on an engine that answers.
- `trace.dfy`: the statuses of an upsert have one shape, whatever happens.
- `migration.dfy`: moving from a Deployment to a StormService never leaves a service
  without either, nor with two autoscalers, in any state in between.
- `history.dfy`, `aftermath.dfy`: what a service's objects become depends on its last event
  alone; what each type of event leaves, with a dynamic client and without.
- `broker.dfy`, `session.dfy`, `inorder.dfy`: no message is lost, groups do not steal from
  each other, a message leaves its queue only when it may and none overtakes another; so
  an undisturbed session that has served its queue leaves a service as the last message
  published about it wants it.

**Desired state** (`topology.dfy`, `engineargs.dfy`, `desired.dfy`, `pods.dfy`): topology to
roles, pods, gang reservations and the engine command line; what the pods of a
StormService and of a Deployment run, where, and how they are found.
**Money** (`decimal.dfy`, `nano.dfy`, `amounts.dfy`): exact XNO amounts, their decimal
notation, settlement with one rounding, and immutability in the heap.
**Accelerators** (`inventory.dfy`, `fleets.dfy`, `cardtypes.dfy`, `projection.dfy`): from
pods and nodes to the console's views.
**Names and keys** (`routename.dfy`, `imageref.dfy`, `apikey.dfy`).

Go's map iteration and `sort.Slice` are nondeterministic methods (`ordering.dfy`), so
what is proved of their callers holds for every order. `Env` stands for everything the
controller does not decide.

## What the proofs found

- An acked delete has seen everything that serves gone if and only if the controller has
  a dynamic client (`Session.AckedDeleteIsDone`). Without one the delete is acked once
  its API calls succeed (`Session.AckWithoutClient`), with the StormService still there
  (`Session.StormOutlivesDelete`). The client the controller starts with always has one
  (pkg/k8s/client.go:43-48); only a reconciler built over other clientsets
  (internal/controller/reconciler.go:227) gets there.
- The inventory sees nothing of an `iluvatar` pod's devices: the controller requests them
  as `iluvatar.ai/vgpu`, which the inventory does not count
  (`Inventory.RequestedIsCounted`).
- A gang reserves exactly the devices of a replica only if the split is even and the pods
  of the replica fit an int32 (`Topology.GangReservesParallelism`).
- The token `--flag` stands on a command line once if the flag is emitted, and once more
  for every flag the operator gave that very word for a value (`EngineArgs.FlagCount`):
  so at most once if and only if no operator value spells an emitted flag, and at most
  one spells another (`EngineArgs.FlagAppearsOnce`). `EngineArgs.FlagAppearsTwice` is a
  deployment that breaks this.
- The card-type list names the summary's pairs, and is the same for every map order, if
  and only if the names joined by a NUL tell the pairs apart
  (`CardTypes.ListAgreesWithSummary`, `CardTypes.ListIsUnique`); in the two-node fleet of
  `CardTypes.NulConfusesKeys` it leaves one out. A snapshot message can bring that fleet
  about, its vendors being free text; the controller's own snapshots name one of four.
- Two models can share a route name without any collision of hashes: whatever name is
  hashed, a model that is called like the result takes it (`RouteName.HashedNameIsTaken`);
  `RouteName.NamesCollide` says exactly when names coincide.

## Model

| member | source | states |
|---|---|---|
| Optimistic.ApplyIsAtomic | internal/controller/stormservice.go:257-283 | with others writing between any two calls: success is exactly one write of the desired content, over the very object this attempt read; an error is no write; at most one read per attempt |
| Optimistic.ApplySucceedsUnlessAllHit | internal/controller/modelclaim.go:256-287 | while the object persists and nothing else fails, the write succeeds if and only if some attempt is not hit by another writer |
| Optimistic.RetriesPause | internal/controller/modelclaim.go:256-287 | retries that pause each follow a wait, others follow at once, and a wait the context's end cuts short is the last |
| Optimistic.AttemptIsAtomic | internal/controller/stormservice.go:265-278 | one read-then-write attempt is atomic: a stale version writes nothing |
| Optimistic.ReadThenWrite | internal/controller/aibrix_routing.go:249-265 | writing at the version read goes through only if nobody wrote in between |
| Optimistic.ApplyStretch | internal/controller/stormservice.go:257-283 | only the named object is written, nothing is deleted, and success leaves it with the desired content |
| Optimistic.ApplyWithRetry | internal/controller/modelclaim.go:256-287 | the retry loop, with or without its backoff, does what the specification of its attempts says |
| Optimistic.ApplyObject | internal/controller/podgroup.go:146-163 | the single-attempt form used for PodGroup, ModelClaim, route and grant |
| EngineReady.AwaitEnds | internal/controller/engine_ready.go:58-133 | the loop ends after at most 401 listings, writes nothing, announces "starting" at most once and only with the newest pod placed, and returns no error only if its last listing had no terminal live pod and a live pod of it answered |
| EngineReady.ListingDecides | internal/controller/engine_ready.go:67-132 | what one pass makes of a listing: a failed one or a dead live pod ends the wait with an error, an answering live pod without one, and any other listing is followed by the next tick unless the 20 minutes are over or the context is done |
| EngineReady.AwaitFailsJustly | internal/controller/engine_ready.go:58-133 | the wait is given up only after 20 minutes, a cancelled context, a failed listing or a listing with a dead live pod |
| EngineReady.TicksAreRegular | internal/controller/engine_ready.go:67-132 | the ticks come every three seconds, a late one at once |
| EngineReady.LoopMeans | internal/controller/engine_ready.go:67-132 | the remaining time bounds the passes still to come; what relates the two ends of each pass relates the two ends of the loop |
| EngineReady.LookMeans | internal/controller/engine_ready.go:70-128 | one pass lists once and is over without an error only on a ready engine |
| EngineReady.AnyPodAnswers | internal/controller/engine_ready.go:138-149 | probes live pods with an address in order; the first that answers wins |
| EngineReady.AnswererIs | internal/controller/engine_ready.go:138-149 | an answer comes from a live pod that answers, and none only if none does |
| EngineReady.AwaitEngineReady | internal/controller/engine_ready.go:58-133 | the method's loop is the specified one |
| PodStatus.FailureIn | internal/controller/engine_ready.go:206-216 | the method's scan is the specified one |
| PodStatus.FailureMeans | internal/controller/engine_ready.go:221-246 | a pod is dead if and only if a container waits for one of the six reasons or ended "OOMKilled", or no node can take it and the scheduler says why; the text reported is the first such container's, else the first such condition's |
| PodStatus.FirstReasonIs | internal/controller/engine_ready.go:206-216 | the scan is empty exactly when no pod of the list gives a reason |
| PodStatus.NewestPod | internal/controller/engine_ready.go:192-200 | the running maximum finds the newest pod |
| PodStatus.NewestIs | internal/controller/engine_ready.go:192-200 | that pod is of the list, none is newer, and of equals it is the first |
| Trace.UpsertTrace | internal/controller/reconciler.go:686-810 | every upsert tries to publish queued, then starting at most once, then exactly one of running and failed; running if and only if it returns no error, and then the last listing was ready; an error is marked permanent if and only if its failed was published |
| Trace.SuccessTriedEverything | internal/controller/reconciler.go:698-766 | a successful upsert has turned to the weights claim, the Service and, best-effort, the grant and the model claim |
| Trace.ConcludeEnds | internal/controller/reconciler.go:773-781 | a stopped upsert asks for the stale autoscaler to be deleted if and only if it was the autoscaler's write that failed; then it publishes "failed" exactly once and nothing else |
| Aftermath.BestEffortIsWritten | internal/controller/reconciler.go:740-761 | undisturbed, a successful upsert leaves the grant and the route and, in the AIBrix scheme, the model claim as wanted |
| Aftermath.BestEffortIsRemoved | internal/controller/reconciler.go:630-666 | undisturbed, a successful delete leaves neither model claim nor route |
| Aftermath.ClientlessUpsertDeploys | internal/controller/reconciler.go:698-805 | without a dynamic client an undisturbed successful upsert leaves the Deployment as wanted, created or patched, and pinned to the replica count |
| Aftermath.ClientlessScalingFails | internal/controller/reconciler.go:768-792 | without one an upsert that is to scale by itself fails |
| Migration.ServingPersists | internal/controller/reconciler.go:707-734 | once a Deployment or a StormService exists, one of the two exists in every later state, whichever step fails, as long as no other client deletes them |
| Migration.ServedUntilDeleted | internal/controller/reconciler.go:308-339 | nor is a service ever without both again, through any messages about it and others, until one deletes it |
| Migration.SuccessIsMigrated | internal/controller/reconciler.go:707-734 | a successful upsert ends with the StormService and no Deployment, unless another client deletes the one or creates the other |
| Migration.UpsertNeverBoth | internal/controller/reconciler.go:768-792 | from a state without both, no state of an upsert holds both an HPA and a PodAutoscaler, as long as no other client creates one |
| Migration.NeverBothAutoscalers | internal/controller/reconciler.go:308-339 | nor does any state reached by any sequence of messages, about this service or others |
| History.HistoryIndependence | internal/controller/reconciler.go:630-810 | undisturbed, after any messages about this service and others and from any coherent start with legacy objects, each of the six objects is what the last recognised message about it makes alone from an empty namespace |
| History.RedeliveryIsHarmless | internal/controller/reconciler.go:308-339 | handling a message again leaves the six objects as they are |
| History.UpsertConverges | internal/controller/reconciler.go:686-810 | an undisturbed upsert leaves every object as this event wants it, whatever was there before and however the wait ends |
| History.TeardownConverges | internal/controller/reconciler.go:630-666 | an undisturbed delete leaves none of the six |
| History.OthersTouchNothing | internal/controller/reconciler.go:308-339 | messages about other services, and invalid ones, leave a service's objects alone |
| History.DeployWrites | internal/controller/reconciler.go:322-336 | undisturbed, handling an "upsert", "update_version" or "rollback" of a named service leaves StormService and Service as wanted, the PodGroup and the PodAutoscaler if and only if they are wanted, and neither Deployment nor HPA |
| History.DeleteClears | internal/controller/reconciler.go:319-321 | undisturbed, handling a "delete" of one succeeds and leaves none of the six |
| History.DeployAnnounces | internal/controller/reconciler.go:322-336 | whatever the cluster and the client, one of those three begins by publishing "queued" |
| History.DeleteDropsFirst | internal/controller/reconciler.go:319-321 | and a "delete" by deleting the Deployment |
| History.OthersAreRejected | internal/controller/reconciler.go:309-318 | a malformed message, one without id or name, and one of any other type makes no call, changes nothing and is rejected |
| History.HandleRemembers | internal/controller/reconciler.go:1596-1673 | no event, failing or not, puts into the label caches what the nodes do not say |
| History.QuietPicks | internal/controller/reconciler.go:1596-1673 | with coherent caches every look-up gives the nodes' answer |
| Session.EveryDepartureIsJust | pkg/mq/rabbitmq.go:269-305 | in every session a deploy leaves its queue only after a ready listing or after its failed was published, a delete only with everything that serves seen gone, anything else only because no retry helps; the deletes of a controller without a dynamic client, and they alone, are different |
| Session.DeparturesMean | pkg/mq/rabbitmq.go:269-305 | what that says of a message, type by type and object by object |
| Session.RabbitMayRetry | pkg/mq/rabbitmq.go:103-169 | the hypothesis of that theorem: the RabbitMQ client never returns an error marked permanent |
| Session.OutcomesAreTheDepartures | pkg/mq/rabbitmq.go:269-305 | the messages acked and rejected are exactly the session's outcomes; every other message owed is still waiting |
| InOrder.ServedInOrder | pkg/mq/rabbitmq.go:269-305 | whatever is published and bound meanwhile and however often a message is retried, what left and what waits is, in this order, what the queue was owed |
| InOrder.LastPublishedWins | internal/controller/reconciler.go:308-339 | an undisturbed session that has served all it was owed leaves each of a service's objects as the last message published about the service wants it |
| Session.UpsertVerdict | internal/controller/reconciler.go:878-891 | an upsert's message is acked if and only if it returns no error; after an error it is rejected if and only if failed was published, or publishing failed for a permanent reason, and requeued otherwise |
| Session.TeardownVerdict | internal/controller/reconciler.go:630-666 | a delete is never rejected, and acked only with Deployment, Service, HPA and StormService seen gone, and gone unless created again |
| Session.AckedDeleteIsDone | internal/controller/stormservice.go:286-295 | an acked delete has seen everything that serves gone if and only if there is a dynamic client |
| Session.AckWithoutClient | internal/controller/reconciler.go:630-666 | without one a delete makes at most three API calls and is acked if and only if none of the three fails |
| Session.StormOutlivesDelete | internal/controller/stormservice.go:286-295 | then it is acked with the StormService still there |
| Session.StormUntouched | internal/controller/stormservice.go:286-295 | without one, and left alone by others, the StormService is there after a delete if and only if it was before |
| Broker.QueueConservation | pkg/mq/rabbitmq.go:233-305 | after any steps, every message a queue was owed since binding is acked, rejected, waiting or unacked, and only once |
| Broker.EveryGroupReceives | pkg/mq/rabbitmq.go:221-247 | a group's queue takes every message of its subject and no other, whatever other groups do |
| Broker.TwoGroupsBothReceive | pkg/mq/mq.go:87-92 | two groups bound to one subject each get every later message on it |
| Broker.QueueNamesDiffer | pkg/mq/mq.go:168-188 | queue names of platform subjects never collide, whatever the groups are called |
| Broker.QueueNameMeans | pkg/mq/rabbitmq.go:229-232 | "taas." and the subject, and a dot and the group if there is one |
| Broker.MoveAccounts | pkg/mq/rabbitmq.go:287-303 | deliver, ack, reject, requeue and a lost consumer neither lose nor duplicate a message |
| Errors.MarkIsSeenThroughWrapping | pkg/mq/mq.go:24-35 | an error rejects its message exactly when the permanent mark is somewhere in its chain |
| Consumer.Channel.ServeOne | pkg/mq/rabbitmq.go:276-304 | one delivery is settled by what the handler returned |
| Consumer.Channel.SubscribeOnce | pkg/mq/rabbitmq.go:202-307 | a failed set-up is the error returned; else the queue is bound and served until the context is done, which is no error, or the channel closes, which is one |
| Consumer.ConfiguredSession | pkg/mq/rabbitmq.go:202-307 | for every configuration, of all messages a new queue was owed each is waiting or was justly acked or rejected, but for the deletes of a controller without a dynamic client |
| Reconciler.ApplyInferServiceChange | internal/controller/reconciler.go:308-339 | the method's dispatch is the one History.DeployWrites, DeleteClears and OthersAreRejected speak of |
| Reconciler.ApplyUpsert | internal/controller/reconciler.go:686-810 | the method carries out the plan and concludes as specified |
| Reconciler.ApplyDelete | internal/controller/reconciler.go:630-666 | the method's deletions are the specified ones, in order |
| Reconciler.Abandon | internal/controller/reconciler.go:773-781 | a stopped upsert drops a stale autoscaler if its write failed, then reports |
| Reconciler.Report | internal/controller/reconciler.go:878-891 | permanent once the failure is published, retryable until then |
| Steps.EnsureKeepsClaims | internal/controller/reconciler.go:969-1006 | an existing claim is never written, not even one created since it was looked for; losing that race is no error, only a failed call is; success leaves a claim in place |
| Reconciler.EnsureWeightsPVC | internal/controller/reconciler.go:969-1006 | the method makes exactly those calls |
| Reconciler.CreateOrUpdate | internal/controller/reconciler.go:947-964 | create, or patch what exists |
| Reconciler.LookUpVendor | internal/controller/reconciler.go:1639-1673 | the vendor key is looked up once; a failed listing is not remembered |
| Reconciler.LookUpCard | internal/controller/reconciler.go:1596-1631 | the card key is looked up once per card type |
| Reconcile.LookedUpOnce | internal/controller/reconciler.go:1596-1673 | an answer of the nodes is asked for once and repeated without a call; a failed listing is not remembered, and meanwhile the configured key, or no card key, is used |
| Reconciler.WriteStormService | internal/controller/stormservice.go:158-283 | label keys per role, then the storm, then the retry loop |
| Reconciler.WriteServing | internal/controller/reconciler.go:707-740 | storm, gang and removal of the old Deployment, or the Deployment alone |
| Reconciler.WriteScaling | internal/controller/reconciler.go:771-792 | the HPA goes first; then one PodAutoscaler or pinned replicas |
| Steps.RouteWaitsForGrant | internal/controller/aibrix_routing.go:282-290 | no request about the route goes out before the grant was written, and once it was, one does |
| Reconciler.WriteModelRoute | internal/controller/aibrix_routing.go:282-290 | the method makes exactly those calls |
| Cluster.Controller.Send | internal/controller/stormservice.go:263-273 | one API request after other clients' writes: conflict, not-found and already-exists as the store says |
| Cluster.MeddledVersions | internal/controller/modelclaim.go:251-255 | other writers never reuse a version, so what they wrote can be told apart |
| Steps.DoStretch | internal/controller/reconciler.go:698-805 | every step writes, deletes and publishes only what is its own |
| Steps.RunInParts | internal/controller/reconciler.go:686-810 | an upsert is announcement, writes, wait and conclusion, each reached only if the one before succeeded |
| Steps.BestEffortNeverFails | internal/controller/reconciler.go:740-790 | a failed status, route, model claim or best-effort deletion never ends an event |
| Steps.MandatoryStepFails | internal/controller/reconciler.go:698-805 | any other step fails when its calls do |
| Steps.PinningWhatIsGone | internal/controller/stormservice.go:297-313 | pinning the replicas of a missing StormService is no error, of a missing Deployment it is |
| Steps.StormsNeverPause | internal/controller/stormservice.go:257-283 | a storm's retries follow at once |
| Steps.ScalersPause | internal/controller/modelclaim.go:256-287 | an autoscaler's each follow a pause |
| Desired.ConfiguredScene | internal/controller/reconciler.go:227-305 | every configuration with a dynamic client is a lawful, stable setup |
| Desired.WantsAreFixed | internal/controller/stormservice.go:158-234 | what is wanted does not depend on how the world behaves |
| Desired.SetupIsStable | internal/controller/reconciler.go:947-964 | patching an earlier Service of the service, or pinning a storm just written, gives exactly what the event wants |
| Desired.FourClashesAreSurvived | internal/controller/modelclaim.go:256-287 | in every configuration a retried write succeeds if and only if one of five attempts is not hit |
| Desired.ServiceSelectsEveryPod | internal/controller/reconciler.go:1484-1511 | every pod of the storm carries the Service's whole selector |
| Desired.SpanningRolesRendezvous | internal/controller/stormservice.go:164-207 | exactly the roles that span several pods run the rendezvous command, for that many pods, in a stateful storm |
| Desired.StormOwnsItsDevices | internal/controller/stormservice.go:95-148 | the pods of a distributed replica own exactly tp×pp devices if and only if the split is even and fits |
| Desired.GangPodsJoinTheirGroup | internal/controller/stormservice.go:187-193 | every gang-scheduled pod names the PodGroup the controller writes |
| Desired.FindVendorLabel | internal/controller/reconciler.go:1639-1683 | the configured key, unless only the fallback is on a node |
| Desired.FindCardLabel | internal/controller/reconciler.go:1614-1624 | the first candidate key under which some node reports the card |
| Desired.BuildStorm | internal/controller/stormservice.go:158-234 | the storm the event wants, role by role |
| Desired.DeploymentPodsAreServed | internal/controller/reconciler.go:1010-1043 | the pods of a Deployment, created or patched, carry the Service's selector and the model's name; created, they run the engine by themselves, and patched too unless an unknown engine leaves a rendezvous command in place |
| Desired.BuildDeployment | internal/controller/reconciler.go:1010-1043 | the builder makes that Deployment, for every order of the argument maps |
| Pods.StormPodsRun | internal/controller/stormservice.go:158-234 | one role for each the topology asks for; its pods run the event's image with that role's command, from the configured claim and mount, by the configured scheduler and priority class, on the nodes picked for it and for the devices asked for |
| Pods.DeploymentPodsRun | internal/controller/reconciler.go:1010-1043 | a Deployment's pods run the same, one pod to a replica |
| Pods.PatchedPodsRun | internal/controller/reconciler.go:926-943 | and so do those of a patched one, where the event's empty image, an unknown engine and node labels not mentioned leave the old in place |
| Pods.DeployRuns | internal/controller/reconciler.go:308-339 | in every configuration with a dynamic client, an undisturbed deploying event leaves a StormService that runs what the event says, and no Deployment |
| Pods.ClientlessDeployRuns | internal/controller/reconciler.go:698-805 | in every one without, a successful upsert of a new service leaves a Deployment that does |
| Pods.PinMeans | internal/controller/reconciler.go:855-865 | pinning sets the replica count of a StormService or Deployment and changes nothing else |
| Pods.StormPodsAreFound | internal/controller/stormservice.go:158-207 | a storm's pods carry the Service's labels, the model's name and port, their role, and the gang's name if and only if Volcano schedules them |
| Pods.StormIsFound | internal/controller/stormservice.go:158-234 | so does the storm, which is stateful if and only if some role spans several pods |
| Pods.DeploymentPodsAreFound | internal/controller/reconciler.go:1010-1043 | a Deployment's pods carry the same, but for role and gang |
| Pods.ServiceReachesEngine | internal/controller/reconciler.go:1484-1511 | ports 80 and 8000 both lead to the port that the command line gives every known engine |
| Pods.RouteLeadsToService | internal/controller/aibrix_routing.go:166-246 | the route sends the served model's requests to the Service the upsert writes; the grant lets the gateway's namespace do so |
| Pods.ClaimNamesTheWeights | internal/controller/modelclaim.go:64-92 | the model claim names the directory the engine loads and selects what the Service selects |
| Pods.ScalerMeans | internal/controller/reconciler.go:833-851 | the autoscaler drives the StormService between the policy's bounds, at most at least one, to its concurrency or 32; without a policy one to ten at 32 |
| Pods.GangMeans | internal/controller/podgroup.go:74-143 | gangs if and only if Volcano schedules and there is a dynamic client; in the configured queue, with the pods' priority class |
| Pods.VendorLabelMeans | internal/controller/reconciler.go:1639-1683 | "gpu-vendor" if and only if a node has it and none the configured key |
| Pods.CardLabelMeans | internal/controller/reconciler.go:1579-1631 | the first of eight keys under which some node reports the card, none if there is none |
| Events.ClampReplicas | internal/controller/reconciler.go:1723-1731 | the nearest count an int32 holds |
| Topology.PodsMatchParallelism | internal/controller/stormservice.go:95-120 | pods × gpu_per_pod = tp×pp if and only if the split is even and representable, with Go's wrap-around |
| Topology.GangReservesParallelism | internal/controller/podgroup.go:107-143 | minResources reserves exactly the devices of one replica, twice that for PD, if and only if the split is even and the pods fit |
| Topology.GangReservesEveryRequest | internal/controller/podgroup.go:179-192 | every request is reserved once per pod and nothing else is |
| Topology.ScaleResourceList | internal/controller/podgroup.go:179-192 | repeated addition is multiplication, for every key |
| Topology.CountPodsPerReplica | internal/controller/podgroup.go:59-72 | the sum of the roles' pod group sizes in int32 arithmetic |
| Topology.RolesMean | internal/controller/stormservice.go:127-148 | a prefill and a decode role with the event's own counts, or one worker; only the pair's roles tell the engine which they are |
| Topology.PodResourcesMean | internal/controller/reconciler.go:1138-1211 | devices under the vendor's resource name, as many as the pod owns; CPU and memory requests where the event sets them |
| Topology.SliceResourcesMean | internal/controller/reconciler.go:1217-1263 | a shared card: memory and compute under the vendor's names, requested and limited alike |
| EngineArgs.BuiltArgsContents | internal/controller/reconciler.go:1367-1469 | which flags are emitted: each at most once, the operator's as set, a derived one only where the operator is silent |
| EngineArgs.ExplicitValueWins | internal/controller/reconciler.go:1360-1366 | an explicit value that is neither blank nor a switch is the one emitted |
| EngineArgs.FlagCount | internal/controller/reconciler.go:1441-1469 | how often the token of a flag stands on the rendered command line, counted in the topology and the operator's maps |
| EngineArgs.FlagAppearsOnce | internal/controller/reconciler.go:1441-1469 | it stands there at most once if and only if the operator's values spell it at most once, and not at all where the flag is emitted |
| EngineArgs.FlagAppearsTwice | internal/controller/reconciler.go:1441-1469 | a deployment whose line holds one twice |
| EngineArgs.OverriddenValue | internal/controller/reconciler.go:1536-1555 | a flag takes its value from the last override for the role that sets it |
| EngineArgs.SharedValue | internal/controller/reconciler.go:1536-1555 | and from the shared map when none does |
| EngineArgs.ArgsForRole | internal/controller/reconciler.go:1536-1555 | the merge loop lays the overrides over the shared map in order |
| EngineArgs.AppendEngineArgs | internal/controller/reconciler.go:1441-1469 | the appended tokens do not depend on map order |
| EngineArgs.EngineCommand | internal/controller/reconciler.go:1293-1327 | one command for every iteration order |
| EngineArgs.CommandMeans | internal/controller/reconciler.go:1293-1327 | the engine's own server with weights, port, host and served name, then the role's flags; in one pod, or in as many as the role spans; an unknown engine is left to its image |
| EngineArgs.ModelDirMeans | internal/controller/reconciler.go:1475-1481 | the weights are below the mount point, one slash apart |
| EngineArgs.ArgumentsArePassed | internal/controller/reconciler.go:1293-1469 | every argument built for the role is on its line, a flag followed at once by its value |
| EngineArgs.TensorFlagMeans | internal/controller/reconciler.go:1386-1388 | where the operator is silent a distributed event passes tensor-parallel-size, tp-size for sglang, if and only if it is above one, with that number |
| EngineArgs.PipelineFlagMeans | internal/controller/reconciler.go:1389-1391 | and the pipeline flag likewise, with the pipeline size |
| EngineArgs.KvFlagMeans | internal/controller/reconciler.go:1392-1422 | a vLLM pair's roles, and no others, get a transfer configuration: kv_consumer for decode, kv_producer for prefill |
| EngineArgs.DisaggregationFlagMeans | internal/controller/reconciler.go:1367-1422 | an SGLang pair's roles are told their own names |
| EngineArgs.OperatorArgMeans | internal/controller/reconciler.go:1441-1458 | what each value of the operator's map emits: nothing, the bare flag, or the flag with the trimmed value |
| EngineArgs.ExtrasMean | internal/controller/reconciler.go:1536-1555 | a free-form argument is one of the event's or of an override for the role |
| Nano.ParseIsExact | pkg/nano/nano.go:88-163 | parsing accepts exactly the numerals of at most 30 fraction digits and yields exactly their worth |
| Nano.ParseFormat | pkg/nano/nano.go:169-193 | printing any non-negative amount and parsing it back loses nothing, and the print is canonical |
| Nano.CanonicalIsFixpoint | pkg/nano/nano.go:157-193 | the canonical strings are exactly those parse and print return unchanged |
| Nano.FormatIsInjective | pkg/nano/nano.go:169-193 | different amounts print differently, negative ones included |
| Nano.SignOf | pkg/nano/nano.go:169-193 | a negative amount prints with a sign and does not parse |
| Nano.SettlementIsFloor | pkg/nano/nano.go:256-266 | the settlement is the floor of the exact sum |
| Nano.OneRounding | pkg/nano/nano.go:238-255 | it exceeds the per-term-truncated sum by 0 to 3 raw |
| Nano.BatchedSettlement | pkg/nano/nano.go:256-266 | settling n calls one by one pays less than settling their totals by at most n−1 raw |
| Nano.SettlementIsMonotone | pkg/nano/nano.go:231-266 | more tokens or higher rates never settle for less, nor does a negative rate lower it |
| Amounts.Package.ParseXNO | pkg/nano/nano.go:88-163 | the in-place parser is the exact one |
| Amounts.Package.Format | pkg/nano/nano.go:169-193 | the padding loop prints the specified string |
| Amounts.Package.Settlement | pkg/nano/nano.go:256-266 | the in-place settlement is the specified one |
| Amounts.Package.Raw | pkg/nano/nano.go:51-56 | the caller gets a fresh integer |
| Amounts.Package.NewRaw | pkg/nano/nano.go:68-77 | the amount keeps a copy |
| Amounts.Caller.Run | pkg/nano/nano.go:47-77 | no sequence of operations and caller mutations changes an existing amount |
| Inventory.FleetConservation | internal/controller/inventory.go:154-285 | the fleet's allocation is what scheduled, unfinished pods on listed nodes request of what those nodes advertise; with the free devices it is all they advertise |
| Inventory.AllocatedByNode | internal/controller/inventory.go:183-209 | per node and resource the sum over the pods, for every iteration order |
| Inventory.NodeToInventory | internal/controller/inventory.go:231-285 | allocated plus free is the summed accelerator allocatable |
| Inventory.ListNodes | internal/controller/inventory.go:154-176 | a failed pod list counts as no pods; every node is reported with its own share |
| Inventory.RequestedIsCounted | internal/controller/inventory.go:183-228 | of a pod the controller makes the inventory counts the devices requested and nothing else; of an iluvatar pod it counts nothing |
| Inventory.PodDemandMeans | internal/controller/inventory.go:183-228 | a scheduled pod that has neither succeeded nor failed holds, of the six known resources, what its containers request, or where they do not, limit |
| Inventory.ReportMeans | internal/controller/inventory.go:231-285 | a node has one kind of row for each known resource it advertises: the advertised number, what its pods hold, the card its labels name or "gpu" |
| Fleets.IngestedIs | services/accelerator/snapshot_consumer.go:124-151 | a node is cached if its id is not empty, from the last entry with it |
| Fleets.IngestedSum | services/accelerator/snapshot_consumer.go:124-153 | with distinct ids no node is lost or counted twice |
| Fleets.HealthMeans | services/accelerator/snapshot_consumer.go:162-188 | when a node is healthy, unknown and degraded, each if and only if |
| Fleets.IngestedNode | services/accelerator/snapshot_consumer.go:124-153 | the cached node is what was sent, with its health by that rule |
| CardTypes.SummaryConserves | services/accelerator/projection.go:202-245 | the rows' totals and allocations add up to the fleet's positive-allocatable resources, and Free = Total − Allocated |
| CardTypes.SummaryCountsTheCluster | services/accelerator/projection.go:202-245 | from cluster to console the totals are what the nodes advertise |
| CardTypes.SummaryHoldsWhatPodsHold | services/accelerator/projection.go:202-245 | and the allocated devices are what the pods hold of the resources with something to give |
| CardTypes.SummaryHoldsEveryRequest | services/accelerator/projection.go:202-245 | where all have, they are what scheduled, unfinished pods of listed nodes request |
| CardTypes.SummaryIsUnique | services/accelerator/projection.go:233-244 | one summary for every map order |
| CardTypes.Summarise | services/accelerator/projection.go:202-245 | one row per pair present, with its sums, sorted |
| CardTypes.NodeCountMeans | services/accelerator/projection.go:202-232 | a row's node count counts resources of the pair, so a node that lists a pair twice counts twice |
| CardTypes.SummaryIsOrdered | services/accelerator/projection.go:233-244 | by vendor, then fewest free devices, then card type, strictly |
| CardTypes.ListAgreesWithSummary | services/accelerator/card_types_provider.go:22-49 | the list names the summary's pairs if and only if joined keys tell the pairs apart |
| CardTypes.PlainVendorsTellApart | services/accelerator/card_types_provider.go:32-35 | they do when no vendor contains a NUL |
| CardTypes.NulConfusesKeys | services/accelerator/card_types_provider.go:32-35 | a fleet where they do not: its summary has a row for either pair, its list leaves one out |
| CardTypes.ConfusedIsIngested | services/accelerator/snapshot_consumer.go:124-151 | a snapshot message that brings this fleet about |
| CardTypes.ListIsUnique | services/accelerator/card_types_provider.go:38-48 | one list for every map order if and only if joined keys tell the pairs apart |
| CardTypes.Distinct | services/accelerator/card_types_provider.go:22-49 | one pair per joined key present, sorted |
| CardTypes.ListIsOrdered | services/accelerator/card_types_provider.go:38-48 | by vendor, then card type, strictly |
| Projection.PagesPartition | services/accelerator/projection.go:151-168 | with distinct names successive pages concatenate to the one sorted listing, with a constant total |
| Projection.ListingIsUnique | services/accelerator/projection.go:131-152 | one listing for every map order and tie-breaking |
| Projection.ListedAndCPUNodes | services/accelerator/projection.go:123-195 | the unfiltered total plus the CPU-only nodes is the number of cached nodes |
| Projection.ProjectionCache.List | services/accelerator/projection.go:123-169 | a page of the sorted matching nodes and their number |
| Projection.ListingMeans | services/accelerator/projection.go:123-152 | a listing has exactly the nodes with a device to give, of the vendor and health asked for where those are known words, with the trimmed search text in the name; in name order |
| Projection.PageMeans | services/accelerator/projection.go:153-168 | a page is the listing from the offset on, at most limit entries; no limit is twenty, a negative offset none |
| Projection.ProjectionCache.CPUNodeCount | services/accelerator/projection.go:175-185 | counts the nodes without cards |
| Projection.ProjectionCache.Replace | services/accelerator/projection.go:104-108 | the whole cache is swapped |
| Projection.Handle | services/accelerator/snapshot_consumer.go:115-156 | a well-formed snapshot replaces the cache, a malformed one leaves it |
| RouteName.RouteNameIsValid | internal/controller/aibrix_routing.go:136-164 | for every model name the route name is a DNS-1123 subdomain of at most 253 characters |
| RouteName.ModelRouteName | internal/controller/aibrix_routing.go:136-164 | the sanitising loop computes the specified name |
| RouteName.SanitizedContents | internal/controller/aibrix_routing.go:141-153 | usable characters stay in order with single dashes between them |
| RouteName.BaseMeans | internal/controller/aibrix_routing.go:141-157 | the readable part has all usable characters of the lowered name in order, or is "model" |
| RouteName.RouteNameMeans | internal/controller/aibrix_routing.go:136-164 | the model's own name with "-router" where valid, else the readable part, of which at most 233 characters and no dashes at the cut, twelve digits of the digest, "-router" |
| RouteName.SubdomainMeans | internal/controller/aibrix_routing.go:136-140 | the validity rule character by character: at most 253, letters and digits at both ends and beside every dot |
| RouteName.NamesCollide | internal/controller/aibrix_routing.go:136-164 | exactly when two models share a route name: used as they are, hashed, or one of each |
| RouteName.HashedNameIsTaken | internal/controller/aibrix_routing.go:136-164 | every hashed name is also some other model's own |
| ImageReference.JoinOfParse | pkg/registry/importer.go:70-116 | joining a parsed reference gives the trimmed string, completed with ":latest", which parses to the same triple |
| ImageReference.ParseOfJoin | pkg/registry/importer.go:70-116 | parsing a joined triple returns it if and only if the triple is recoverable |
| ImageReference.ParseMeans | pkg/registry/importer.go:70-98 | the host is the text before the first slash if that has a dot or a colon or is "localhost", else there is none; the tag is what follows the last colon unless a slash does, else "latest" |
| ImageReference.LastRepoName | pkg/registry/importer.go:101-107 | the last path segment, which holds no slash |
| ApiKey.GenerateAPIKey | services/auth/apikey_crypto.go:37-56 | for every byte stream, "sk-" and the image of the first 43 accepted bytes in order, or an error if it has fewer |
| ApiKey.FourPreimages | services/auth/apikey_crypto.go:45-51 | every symbol has exactly four accepted bytes |
| ApiKey.SourcesAreAll | services/auth/apikey_crypto.go:37-56 | exactly which accepted byte strings give a secret |
| ApiKey.Unbiased | services/auth/apikey_crypto.go:37-56 | every secret of length n has exactly 4^n accepted byte strings |
| ApiKey.IsValidDigest | services/auth/apikey_crypto.go:69-79 | accepts exactly 64 lower-case hex characters |

## Left out

- JSON decoding: a message is malformed or carries an event; quantities and label values are already read off.
- Ambiguous API errors: a call that returns an error is taken to have written nothing, as a rejected Kubernetes request does; a lost response to a write that went through is not modelled.
- Kubernetes beyond versioned create, get, update, patch and delete: finalizers, garbage collection and the AIBrix and Volcano controllers are the environment's writes.
- A controller without a status publisher: publishing always takes a turn and may fail.
- The text of the failure reason (cut at 512 bytes) and the extra pod listing that only explains a timeout.
- The probe's port, its two paths and its 3-second timeout: a probe pass over a pod list is one call that finds which hosts answer.
- The serving scheme is fixed configuration; the cache that learns it from the broker is not part of this model.
- The rendezvous wrapper is `Rendezvous(nodes, args)`: its shell script and quoting are not part of this model.
- Engine container ports, volumes and JSON shapes of the objects; only the fields the properties speak of are kept, and the two dozen path matches of a route are not.
- Route names and model claim names of best-effort objects are functions of the configuration in the protocol; RouteName proves the route name's grammar, and nothing is claimed of the claim name's.
- History.HistoryIndependence: best-effort objects (routes, grants, model claims) are not part of it, because the code only logs their failures and route names follow the served model name; Aftermath.BestEffortIsWritten and BestEffortIsRemoved are what is promised of them.
- Session.EveryDepartureIsJust: speaks of one bound session; the queue is auto-delete and non-durable, so what is waiting is lost with the last consumer.
- Connecting, reconnecting and closing the RabbitMQ client: its set-up succeeds or fails as a whole. The in-memory client, which has no queue to lose a message from, is not part of this model.
- Optimistic.ApplyWithRetry: after a conflict the object carries a resource version, so if it vanishes then, an API server refuses to create it anew; here such a create may succeed or fail, and the theorems hold either way.
- Inventory.AllocatedByNode: quantities are unbounded integers; int64 overflow of the sums is not modelled. The same holds of the views' sums and of `offset + limit`.
- Vendor, readiness, driver and device-plugin look-ups on node labels: a node comes with their results (the vendor look-up follows map order when labels contradict each other).
- Projection.ProjectionCache.List: lower-casing is a parameter, because nothing about it matters.
- Image warm-up, runtime model registration, health reporting and the HPA concurrency metric: the same steps with easier claims.
- Argon2, SHA-256, HTTP and gRPC handlers, GORM, Redis, skopeo and hub transfers: libraries and I/O.

/** The serving layout: topology to roles, pods, gang size and gang resources.
  * internal/controller/stormservice.go, podgroup.go and reconciler.go. */
module Topology {
  import opened Prelude
  import opened Events

  const WORKER := "worker"
  const PREFILL := "prefill"
  const DECODE := "decode"
  const PD := "pd"

  predicate IsMultiNode(topology: string) {
    topology == "multinode" || topology == "distributed"
  }

  predicate Distributed(evt: ChangeEvent) {
    IsMultiNode(evt.topology) || evt.topology == PD
  }

  datatype StormRole = StormRole(name: string, replicas: int, podGroupSize: int, engineRole: string)

  function AtLeastOne(n: int): int { if n < 1 then 1 else n }

  /** Two's complement wrap-around of Go's int and int32. */
  function Wrap64(n: int): Int64 {
    (n + 0x8000_0000_0000_0000) % 0x1_0000_0000_0000_0000 - 0x8000_0000_0000_0000
  }

  function Wrap32(n: int): int {
    (n + 0x8000_0000) % 0x1_0000_0000 - 0x8000_0000
  }

  /** Go's integer division truncates toward zero. */
  function Quotient(a: int, b: int): int
    requires b > 0
  {
    if a >= 0 then a / b else -((-a) / b)
  }

  /** Devices one replica needs. */
  function Parallelism(evt: ChangeEvent): (n: int)
    ensures n >= 1
  {
    var tp, pp := AtLeastOne(evt.tensorParallelSize), AtLeastOne(evt.pipelineParallelSize);
    assert tp * pp >= 1;
    tp * pp
  }

  function GpuPerPod(evt: ChangeEvent): int { AtLeastOne(evt.gpuPerPod) }

  function WorkerPods(evt: ChangeEvent, topology: string): (pods: int)
    ensures 1 <= pods <= MAX_INT32
  {
    if !IsMultiNode(topology) && topology != PD then 1
    else ClampReplicas(AtLeastOne(Quotient(Wrap64(Parallelism(evt)), GpuPerPod(evt))))
  }

  function StormRoles(evt: ChangeEvent): seq<StormRole> {
    if IsMultiNode(evt.topology) then
      [StormRole(WORKER, 1, WorkerPods(evt, evt.topology), "")]
    else if evt.topology == PD then
      var podGroup := WorkerPods(evt, PD);
      [StormRole(PREFILL, AtLeastOne(ClampReplicas(evt.prefillReplicas)), podGroup, PREFILL),
       StormRole(DECODE, AtLeastOne(ClampReplicas(evt.decodeReplicas)), podGroup, DECODE)]
    else
      [StormRole(WORKER, 1, 1, "")]
  }

  /** The roles a topology asks for: a prefill/decode pair with the event's own counts,
    * or one worker; and only the pair's roles tell the engine which they are. */
  lemma RolesMean(evt: ChangeEvent, role: StormRole)
    ensures role in StormRoles(evt) <==>
              if evt.topology == "pd" then
                || (role.name == "prefill" && role.engineRole == "prefill" && role.podGroupSize == WorkerPods(evt, "pd")
                    && role.replicas == Max(1, ClampReplicas(evt.prefillReplicas)))
                || (role.name == "decode" && role.engineRole == "decode" && role.podGroupSize == WorkerPods(evt, "pd")
                    && role.replicas == Max(1, ClampReplicas(evt.decodeReplicas)))
              else
                && role.name == "worker" && role.engineRole == "" && role.replicas == 1
                && role.podGroupSize == if evt.topology == "multinode" || evt.topology == "distributed"
                                        then WorkerPods(evt, evt.topology) else 1
  {
    assert "pd" != "multinode" && "pd" != "distributed" by { assert |"pd"| == 2 && |"multinode"| == 9; }
  }

  /** The split of a replica over its pods is even and representable. */
  predicate SplitsEvenly(evt: ChangeEvent) {
    && Parallelism(evt) <= MAX_INT64
    && Parallelism(evt) % GpuPerPod(evt) == 0
    && Parallelism(evt) / GpuPerPod(evt) <= MAX_INT32
  }

  /** A distributed replica's pods own exactly the devices its parallelism needs
    * when, and only when, the split is even and fits. */
  lemma PodsMatchParallelism(evt: ChangeEvent)
    requires Distributed(evt)
    ensures WorkerPods(evt, evt.topology) * GpuPerPod(evt) == Parallelism(evt) <==> SplitsEvenly(evt)
  {
    var x, p, pods := Parallelism(evt), GpuPerPod(evt), WorkerPods(evt, evt.topology);
    if SplitsEvenly(evt) {
      QuotientIsPositive(x, p);
    } else if pods * p == x {
      PodsBound(Wrap64(x), p, pods);
      ExactQuotient(x, p, pods);
    }
  }

  lemma QuotientIsPositive(x: int, p: int)
    requires x >= 1 && p >= 1 && x % p == 0
    ensures x / p >= 1 && (x / p) * p == x
  {
  }

  lemma QuotientFits(w: nat, p: int)
    requires p >= 1
    ensures (w / p) * p <= w
  {
  }

  lemma FewerFit(a: int, b: int, p: int)
    requires a <= b && p >= 1
    ensures a * p <= b * p
  {
  }

  lemma PodsBound(w: Int64, p: Int64, pods: int)
    requires p >= 1 && pods == ClampReplicas(AtLeastOne(Quotient(w, p)))
    ensures pods * p <= MAX_INT64
    ensures pods > 1 ==> pods * p <= w
  {
    if pods > 1 {
      QuotientFits(w, p);
      FewerFit(pods, w / p, p);
    } else {
      assert pods == 1;
    }
  }

  lemma SignedMultiple(a: int, p: int)
    requires p >= 1
    ensures a >= 1 ==> a * p >= p
    ensures a <= -1 ==> a * p <= -p
  {
  }

  lemma ExactQuotient(x: int, p: int, pods: int)
    requires p >= 1 && pods * p == x
    ensures x % p == 0 && x / p == pods
  {
    var d := pods - x / p;
    assert d * p == x % p;
    SignedMultiple(d, p);
  }

  // ------------------------------------------------------------ gang sizing

  /** podsPerReplica, in int32 arithmetic. */
  function PodsPerReplica(evt: ChangeEvent): (n: int)
    ensures 1 <= n <= MAX_INT32
  {
    AtLeastOne(TotalPods(StormRoles(evt)))
  }

  function TotalPods(roles: seq<StormRole>): (n: int)
    ensures -0x8000_0000 <= n <= MAX_INT32
  {
    if roles == [] then 0
    else Wrap32(TotalPods(roles[..|roles| - 1]) + AtLeastOne(roles[|roles| - 1].podGroupSize))
  }

  method CountPodsPerReplica(evt: ChangeEvent) returns (total: int)
    ensures total == PodsPerReplica(evt)
  {
    total := 0;
    var roles := StormRoles(evt);
    for i := 0 to |roles|
      invariant total == TotalPods(roles[..i])
    {
      assert roles[..i + 1][..i] == roles[..i];
      if roles[i].podGroupSize < 1 {
        total := Wrap32(total + 1);
      } else {
        total := Wrap32(total + roles[i].podGroupSize);
      }
    }
    assert roles[..|roles|] == roles;
    if total < 1 { total := 1; }
  }

  // -------------------------------------------------------------- resources

  /** Requested quantities by resource name; cpu in milli-units, memory in bytes. */
  datatype Resources = Resources(limits: map<string, int>, requests: map<string, int>)

  const CPU := "cpu"
  const MEMORY := "memory"

  /** gpuResourceName: the device plugin's resource, "" when unknown. */
  function GpuResource(accelerator: string): string {
    if accelerator == "nvidia" then "nvidia.com/gpu"
    else if accelerator == "iluvatar" then "iluvatar.ai/vgpu"
    else if accelerator == "metax" then "metax-tech.com/gpu"
    else ""
  }

  function PodResources(evt: ChangeEvent): Resources {
    var name := GpuResource(evt.accelerator);
    var devices := if name == "" then map[] else map[name := GpuPerPod(evt)];
    var withCpu := if evt.cpuMilli > 0 then devices[CPU := evt.cpuMilli as int] else devices;
    var bytes: int := Wrap64(evt.memoryMiB * 0x10_0000);
    var withMemory := if evt.memoryMiB > 0 then withCpu[MEMORY := bytes] else withCpu;
    Resources(devices, withMemory)
  }

  /** sliceResources: a share of a card instead of whole ones. */
  function SliceResources(evt: ChangeEvent): Resources {
    var a := evt.accelerator;
    var mem := if a == "nvidia" then "nvidia.com/gpumem" else if a == "iluvatar" then "iluvatar.ai/vgpu-mem"
               else if a == "metax" then "metax-tech.com/gpu-mem" else "";
    var core := if a == "nvidia" then "nvidia.com/gpucores" else if a == "iluvatar" then "iluvatar.ai/vgpu-cores"
                else if a == "metax" then "metax-tech.com/gpu-cores" else "";
    if mem == "" || core == "" then Resources(map[], map[])
    else
      var share := map[mem := evt.sliceMemoryMiB * 0x10_0000, core := evt.sliceComputePct as int];
      Resources(share, share)
  }

  /** What one pod asks for: devices by the name its vendor's plugin gives them, as many
    * as the pod is to own, and CPU and memory where the event sets them. */
  lemma PodResourcesMean(evt: ChangeEvent, res: string)
    ensures var r := PodResources(evt);
            && (res in r.limits <==>
                  || (evt.accelerator == "nvidia" && res == "nvidia.com/gpu")
                  || (evt.accelerator == "iluvatar" && res == "iluvatar.ai/vgpu")
                  || (evt.accelerator == "metax" && res == "metax-tech.com/gpu"))
            && (res in r.limits ==> r.limits[res] == Max(1, evt.gpuPerPod))
            && (res in r.requests <==>
                  res in r.limits || (res == "cpu" && evt.cpuMilli > 0) || (res == "memory" && evt.memoryMiB > 0))
            && (res in r.requests ==>
                  r.requests[res] == if res == "memory" then Wrap64(evt.memoryMiB * 1024 * 1024)
                                     else if res == "cpu" then evt.cpuMilli as int else Max(1, evt.gpuPerPod))
  {
    assert |"cpu"| == 3 && |"memory"| == 6;
    assert |"nvidia.com/gpu"| == 14 && |"iluvatar.ai/vgpu"| == 16 && |"metax-tech.com/gpu"| == 18;
  }

  /** A share of a card: memory and compute under the vendor's names, requested and
    * limited alike, and nothing of an unknown vendor's. */
  lemma SliceResourcesMean(evt: ChangeEvent, res: string)
    ensures var r := SliceResources(evt);
            && r.limits == r.requests
            && (res in r.limits <==>
                  || (evt.accelerator == "nvidia" && (res == "nvidia.com/gpumem" || res == "nvidia.com/gpucores"))
                  || (evt.accelerator == "iluvatar"
                      && (res == "iluvatar.ai/vgpu-mem" || res == "iluvatar.ai/vgpu-cores"))
                  || (evt.accelerator == "metax"
                      && (res == "metax-tech.com/gpu-mem" || res == "metax-tech.com/gpu-cores")))
            && (res == "nvidia.com/gpumem" || res == "iluvatar.ai/vgpu-mem" || res == "metax-tech.com/gpu-mem" ==>
                  res in r.limits ==> r.limits[res] == evt.sliceMemoryMiB * 1024 * 1024)
            && (res == "nvidia.com/gpucores" || res == "iluvatar.ai/vgpu-cores" || res == "metax-tech.com/gpu-cores" ==>
                  res in r.limits ==> r.limits[res] == evt.sliceComputePct as int)
  {
    assert |"nvidia.com/gpumem"| == 17 && |"nvidia.com/gpucores"| == 19;
    assert |"iluvatar.ai/vgpu-mem"| == 20 && |"iluvatar.ai/vgpu-cores"| == 22;
    assert |"metax-tech.com/gpu-mem"| == 22 && |"metax-tech.com/gpu-cores"| == 24;
  }

  function ScaleResources(resources: map<string, int>, count: int): map<string, int> {
    if count < 1 then map[] else map name | name in resources :: resources[name] * count
  }

  /** scaleResourceList adds each quantity up, count times. */
  method ScaleResourceList(resources: map<string, int>, count: int) returns (out: map<string, int>)
    ensures out == ScaleResources(resources, count)
  {
    out := map[];
    if |resources| == 0 || count < 1 { return; }
    var left := resources.Keys;
    while left != {}
      invariant left <= resources.Keys
      invariant out == ScaleResources(map name | name in resources && name !in left :: resources[name], count)
      decreases left
    {
      var name :| name in left;
      var total := resources[name];
      for i := 1 to count
        invariant total == resources[name] * i
      {
        total := total + resources[name];
      }
      out := out[name := total];
      left := left - {name};
    }
    assert (map name | name in resources && name !in {} :: resources[name]) == resources;
  }

  datatype PodGroup = PodGroup(minMember: int, priorityClass: string, minResources: map<string, int>, queue: string)

  /** buildPodGroup. */
  function BuildPodGroup(evt: ChangeEvent, priorityClass: string, queue: string): PodGroup {
    var r := PodResources(evt);
    var requested := if |r.requests| == 0 then r.limits else r.requests;
    PodGroup(PodsPerReplica(evt), priorityClass, ScaleResources(requested, PodsPerReplica(evt)), queue)
  }

  predicate KnownAccelerator(accelerator: string) { GpuResource(accelerator) != "" }

  /** How many replica-sized pod groups one storm replica holds. */
  function Groups(evt: ChangeEvent): int { if evt.topology == PD then 2 else 1 }

  lemma TotalOne(r: StormRole)
    requires 1 <= r.podGroupSize <= MAX_INT32
    ensures TotalPods([r]) == r.podGroupSize
  {
    assert [r][..0] == [];
  }

  lemma TotalTwo(r: StormRole, q: StormRole)
    requires 1 <= r.podGroupSize == q.podGroupSize <= MAX_INT32
    ensures var n := 2 * r.podGroupSize; AtLeastOne(TotalPods([r, q])) == if n <= MAX_INT32 then n else 1
  {
    TotalOne(r);
    assert [r, q][..1] == [r];
  }

  lemma PodsOfGroups(evt: ChangeEvent)
    requires Distributed(evt)
    ensures var pods := Groups(evt) * WorkerPods(evt, evt.topology);
            PodsPerReplica(evt) == if pods <= MAX_INT32 then pods else 1
  {
    var roles := StormRoles(evt);
    if evt.topology == PD {
      TotalTwo(roles[0], roles[1]);
    } else {
      TotalOne(roles[0]);
    }
  }

  lemma ReservedDevices(evt: ChangeEvent, priorityClass: string, queue: string)
    requires KnownAccelerator(evt.accelerator)
    ensures var g, gpu := BuildPodGroup(evt, priorityClass, queue), GpuResource(evt.accelerator);
            gpu in g.minResources && g.minResources[gpu] == GpuPerPod(evt) * PodsPerReplica(evt)
  {
    var gpu := GpuResource(evt.accelerator);
    assert gpu != CPU && gpu != MEMORY;
    assert gpu in PodResources(evt).requests;
  }

  lemma ManyPodsNeedManyDevices(evt: ChangeEvent)
    requires Distributed(evt)
    ensures var pods := WorkerPods(evt, evt.topology); pods > 1 ==> pods * GpuPerPod(evt) <= Parallelism(evt)
  {
    PodsBound(Wrap64(Parallelism(evt)), GpuPerPod(evt), WorkerPods(evt, evt.topology));
  }

  lemma Regrouped(groups: int, pods: int, p: int, x: int)
    requires groups >= 1 && p >= 1
    ensures p * (groups * pods) == groups * x <==> pods * p == x
  {
    assert p * (groups * pods) == groups * (pods * p);
    var d := pods * p - x;
    assert groups * (pods * p) - groups * x == groups * d;
    SignedMultiple(d, groups);
  }

  lemma GangArithmetic(groups: int, pods: int, p: int, x: int, members: int, even: bool)
    requires 1 <= groups <= 2 && p >= 1 && 1 <= pods <= MAX_INT32
    requires members == if groups * pods <= MAX_INT32 then groups * pods else 1
    requires pods * p == x <==> even
    requires pods > 1 ==> pods * p <= x
    ensures p * members == groups * x <==> even && groups * pods <= MAX_INT32
  {
    if groups * pods <= MAX_INT32 {
      Regrouped(groups, pods, p, x);
    } else {
      assert groups == 2 && pods * p >= 2 * p;
    }
  }

  /** The gang reserves exactly the devices of one replica: its parallelism, and
    * twice that for a prefill/decode pair. It does so when the split is even and
    * the pods of the replica can be counted in an int32, and never otherwise. */
  lemma GangReservesParallelism(evt: ChangeEvent, priorityClass: string, queue: string)
    requires Distributed(evt) && KnownAccelerator(evt.accelerator)
    ensures var g, gpu := BuildPodGroup(evt, priorityClass, queue), GpuResource(evt.accelerator);
            && gpu in g.minResources
            && (g.minResources[gpu] == Groups(evt) * Parallelism(evt)
                <==> SplitsEvenly(evt) && Groups(evt) * WorkerPods(evt, evt.topology) <= MAX_INT32)
  {
    ReservedDevices(evt, priorityClass, queue);
    PodsOfGroups(evt);
    PodsMatchParallelism(evt);
    ManyPodsNeedManyDevices(evt);
    GangArithmetic(Groups(evt), WorkerPods(evt, evt.topology), GpuPerPod(evt), Parallelism(evt),
                   PodsPerReplica(evt), SplitsEvenly(evt));
  }

  /** Every request of a pod is reserved once per pod of the replica, and nothing
    * else is reserved. */
  lemma GangReservesEveryRequest(evt: ChangeEvent, priorityClass: string, queue: string)
    ensures var g := BuildPodGroup(evt, priorityClass, queue);
            && g.minResources.Keys == PodResources(evt).requests.Keys
            && forall name :: name in g.minResources ==>
                 g.minResources[name] == PodResources(evt).requests[name] * g.minMember
  {
  }
}

/** The desired-state change event of internal/controller/reconciler.go. */
module Events {
  import opened Prelude
  import Text

  /** Go's int and int64. */
  type Int64 = n: int | -0x8000_0000_0000_0000 <= n < 0x8000_0000_0000_0000

  const MAX_INT32: int := 0x7FFF_FFFF
  const MAX_INT64: int := 0x7FFF_FFFF_FFFF_FFFF

  datatype Policy = Policy(enabled: bool, minReplicas: Int64, maxReplicas: Int64, targetConcurrency: Int64)

  /** One role's override of the engine arguments. */
  datatype RoleArgs = RoleArgs(role: string, engineArgs: map<string, string>, extraArgs: seq<string>)

  datatype ChangeEvent = ChangeEvent(
    eventType: string,
    serviceId: string,
    name: string,
    modelName: string,
    weightPath: string,
    image: string,
    engine: string,
    replicas: Int64,
    accelerator: string,
    acceleratorType: string,
    autoscaling: Option<Policy>,
    poolId: string,
    sliceTemplateId: string,
    sliceMemoryMiB: Int64,
    sliceComputePct: Int64,
    engineArgs: map<string, string>,
    extraArgs: seq<string>,
    roleEngineArgs: seq<RoleArgs>,
    topology: string,
    tensorParallelSize: Int64,
    pipelineParallelSize: Int64,
    prefillReplicas: Int64,
    decodeReplicas: Int64,
    gpuPerPod: Int64,
    cpuMilli: Int64,
    memoryMiB: Int64,
    priority: string)

  /** servedModelName. */
  function ServedModelName(evt: ChangeEvent): string {
    var name := Text.TrimSpace(evt.modelName);
    if name != "" then name else evt.name
  }

  /** clampReplicas: the nearest count an int32 can hold. */
  function ClampReplicas(n: int): (r: int)
    ensures 0 <= r <= MAX_INT32
    ensures 0 <= n <= MAX_INT32 ==> r == n
    ensures n < 0 ==> r == 0
    ensures n > MAX_INT32 ==> r == MAX_INT32
  {
    if n < 0 then 0 else if n > MAX_INT32 then MAX_INT32 else n
  }
}

/** The objects the controller keeps in the cluster. */
module Objects {
  import Topology
  import EngineArgs

  datatype Kind =
    | Deployment | Service | Autoscaler | StormService | PodGroup | PodAutoscaler
    | WeightsClaim | ModelClaim | HTTPRoute | ReferenceGrant

  datatype Key = Key(kind: Kind, name: string)

  /** One role of a StormService: its pods' template. */
  datatype Template = Template(
    image: string, command: EngineArgs.Command, resources: Topology.Resources,
    nodeSelector: map<string, string>, scheduler: string, priorityClass: string,
    claim: string, mountPath: string, sharedMemory: bool,
    labels: map<string, string>, annotations: map<string, string>)

  datatype Role = Role(name: string, replicas: int, podGroupSize: int, stateful: bool, template: Template)

  datatype Port = Port(name: string, target: int)

  /** `Foreign` is anything this controller would not write. */
  datatype Content =
    | Storm(replicas: int, stateful: bool, roles: seq<Role>, labels: map<string, string>,
      annotations: map<string, string>)
    | Workload(replicas: int, template: Template)
    | Front(labels: map<string, string>, selector: map<string, string>, ports: map<int, Port>)
    | Gang(group: Topology.PodGroup, labels: map<string, string>)
    | Scaler(target: string, minReplicas: int, maxReplicas: int, concurrency: int)
    | Claim(model: string, engine: string, artifact: string, replicas: int, selector: map<string, string>)
    | Route(model: string, backend: string, gateway: string, labels: map<string, string>)
    | Grant(from: string, to: string)
    | Weights(storageClass: string)
    | Foreign(data: string)
}

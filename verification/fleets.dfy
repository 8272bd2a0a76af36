/** services/accelerator/snapshot_consumer.go: how a snapshot becomes the cache. */
module Fleets {
  import opened Ordering
  import opened SortedKeys
  import opened Inventory

  datatype CacheNode = CacheNode(
    nodeId: string, name: string, vendor: string, health: string,
    gpusAllocated: int, gpusFree: int, resources: seq<ResourceRow>)

  type Fleet = map<string, CacheNode>

  /** computeHealth: the driver version plays no part. */
  function Health(vendor: string, readiness: string, devicePlugin: string): string {
    if vendor == "unspecified" then
      if readiness == "ready" then "healthy" else if readiness == "not_ready" then "degraded" else "unknown"
    else if readiness == "unknown" || devicePlugin == "unknown" then "unknown"
    else if readiness == "ready" && devicePlugin == "healthy" then "healthy"
    else "degraded"
  }

  function Cached(inv: InventoryNode): CacheNode {
    CacheNode(inv.nodeId, inv.name, inv.vendor, Health(inv.vendor, inv.readiness, inv.devicePlugin),
              inv.gpusAllocated, inv.gpusFree, inv.resources)
  }

  /** The cache a snapshot leaves: nodes without an id are skipped, and the last
    * of several entries with one id stands. */
  function Ingested(snap: seq<InventoryNode>): Fleet {
    if snap == [] then map[]
    else
      var before, last := Ingested(snap[..|snap| - 1]), snap[|snap| - 1];
      if last.nodeId == "" then before else before[last.nodeId := Cached(last)]
  }

  ghost predicate LastWithId(snap: seq<InventoryNode>, id: string, k: nat) {
    k < |snap| && snap[k].nodeId == id && forall j :: k < j < |snap| ==> snap[j].nodeId != id
  }

  lemma {:induction false} IngestedIs(snap: seq<InventoryNode>, id: string)
    ensures id in Ingested(snap) <==> id != "" && exists k: nat :: LastWithId(snap, id, k)
    ensures forall k: nat :: id != "" && LastWithId(snap, id, k) ==> Ingested(snap)[id] == Cached(snap[k])
  {
    if snap != [] {
      var n := |snap| - 1;
      IngestedIs(snap[..n], id);
      forall k: nat
        ensures LastWithId(snap, id, k) <==> if snap[n].nodeId == id then k == n else LastWithId(snap[..n], id, k)
      {
        if snap[n].nodeId != id && LastWithId(snap[..n], id, k) { assert snap[..n][k] == snap[k]; }
      }
      if snap[n].nodeId == id { assert LastWithId(snap, id, n); }
    }
  }

  /** What the console shows of a node's health: a node without a vendor goes by its
    * readiness alone, any other is healthy when ready with a healthy device plugin, and
    * degraded unless one of the two is unknown. */
  predicate Shows(health: string, vendor: string, readiness: string, devicePlugin: string) {
    && (health == "healthy" <==> readiness == "ready" && (vendor == "unspecified" || devicePlugin == "healthy"))
    && (health == "unknown" <==> if vendor == "unspecified" then readiness != "ready" && readiness != "not_ready"
                                 else readiness == "unknown" || devicePlugin == "unknown")
    && (health == "healthy" || health == "unknown" || health == "degraded")
  }

  lemma HealthMeans(vendor: string, readiness: string, devicePlugin: string)
    ensures Shows(Health(vendor, readiness, devicePlugin), vendor, readiness, devicePlugin)
  {
    assert |"healthy"| == 7 && |"unknown"| == 7 && |"degraded"| == 8 && "healthy"[0] == 'h' && "unknown"[0] == 'u';
    assert |"ready"| == 5 && |"not_ready"| == 9;
  }

  /** A cached node is the last one the snapshot has under its id: its names, counts and
    * resources as they were sent, and its health by the rule above. */
  lemma IngestedNode(snap: seq<InventoryNode>, id: string, k: nat)
    requires id != "" && LastWithId(snap, id, k)
    ensures id in Ingested(snap)
    ensures var node, sent := Ingested(snap)[id], snap[k];
            && node.nodeId == id && node.name == sent.name && node.vendor == sent.vendor
            && node.gpusAllocated == sent.gpusAllocated && node.gpusFree == sent.gpusFree
            && node.resources == sent.resources
            && Shows(node.health, sent.vendor, sent.readiness, sent.devicePlugin)
  {
    IngestedIs(snap, id);
    HealthMeans(snap[k].vendor, snap[k].readiness, snap[k].devicePlugin);
  }

  ghost function OnNode(fleet: Fleet, f: CacheNode -> int): string -> int {
    (id: string) => if id in fleet then f(fleet[id]) else 0
  }

  ghost function FleetSum(fleet: Fleet, f: CacheNode -> int): int {
    SumOver(fleet.Keys, OnNode(fleet, f))
  }

  lemma FleetGrows(fleet: Fleet, id: string, n: CacheNode, f: CacheNode -> int)
    requires id !in fleet
    ensures FleetSum(fleet[id := n], f) == FleetSum(fleet, f) + f(n)
  {
    var more := fleet[id := n];
    SumOverAdjoin(fleet.Keys, id, OnNode(more, f));
    SumOverSame(fleet.Keys, OnNode(more, f), OnNode(fleet, f));
    assert more.Keys == fleet.Keys + {id};
  }

  /** Conservation through ingestion: with distinct, non-empty ids no node is lost
    * or counted twice. */
  lemma {:induction false} IngestedSum(snap: seq<InventoryNode>, f: CacheNode -> int)
    requires forall i, j :: 0 <= i < j < |snap| ==> snap[i].nodeId != snap[j].nodeId
    requires forall inv :: inv in snap ==> inv.nodeId != ""
    ensures FleetSum(Ingested(snap), f) == Sum(snap, (inv: InventoryNode) => f(Cached(inv)))
  {
    if snap == [] {
    } else {
      var n := |snap| - 1;
      var front, last := snap[..n], snap[n];
      IngestedSum(front, f);
      IngestedIs(front, last.nodeId);
      FleetGrows(Ingested(front), last.nodeId, Cached(last), f);
    }
  }
}

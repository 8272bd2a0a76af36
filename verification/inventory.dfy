/** internal/controller/inventory.go: pods and nodes become per-node accelerator
  * sums. Quantities are unbounded integers here. */
module Inventory {
  import opened Prelude
  import opened Ordering
  import opened SortedKeys
  import opened Events
  import opened Topology

  /** cardTypeFromResource: "" for a resource that is no accelerator. */
  function CardType(resource: string): string {
    if resource in {"nvidia.com/gpu", "iluvatar.com/gpu", "iluvatar.ai/gpu",
                    "metax.com/gpu", "metax-tech.com/gpu", "metax-tech.com/vgpu"}
    then "gpu" else ""
  }

  predicate IsAccelerator(resource: string) { CardType(resource) != "" }

  datatype Pod = Pod(nodeName: string, phase: string, containers: seq<Resources>)

  /** A cluster node, with what its labels and conditions say already read off. */
  datatype Node = Node(
    uid: string, name: string, vendor: string, cardModel: string, readiness: string, devicePlugin: string,
    allocatable: map<string, int>)

  datatype ResourceRow = ResourceRow(cardType: string, allocatable: int, held: int)

  datatype InventoryNode = InventoryNode(
    nodeId: string, name: string, vendor: string, readiness: string, devicePlugin: string,
    gpusAllocated: int, gpusFree: int, resources: seq<ResourceRow>)

  /** What is copied from the node unchanged. */
  predicate SameNode(inv: InventoryNode, n: Node) {
    inv.nodeId == n.uid && inv.name == n.name && inv.vendor == n.vendor
    && inv.readiness == n.readiness && inv.devicePlugin == n.devicePlugin
  }

  function Get(m: map<string, int>, k: string): int { if k in m then m[k] else 0 }

  // --------------------------------------------------- what a pod asks for

  /** requestedAccelerators: a limit counts as a request unless a request is set. */
  function Requested(r: Resources): map<string, int> {
    Picked(r.limits, IsAccelerator) + Picked(r.requests, IsAccelerator)
  }

  method RequestedAccelerators(r: Resources) returns (out: map<string, int>)
    ensures out == Requested(r)
  {
    out := map[];
    out := Overlay(out, r.limits, IsAccelerator);
    out := Overlay(out, r.requests, IsAccelerator);
  }

  /** A pod holds devices from its scheduling until it finishes. */
  predicate Holds(p: Pod) {
    p.nodeName != "" && p.phase != "Succeeded" && p.phase != "Failed"
  }

  function ContainerDemand(res: string): Resources -> int {
    (c: Resources) => Get(Requested(c), res)
  }

  function PodDemand(p: Pod, res: string): int {
    if Holds(p) then Sum(p.containers, ContainerDemand(res)) else 0
  }

  function DemandAt(node: string, res: string, p: Pod): int {
    if p.nodeName == node then PodDemand(p, res) else 0
  }

  function DemandOn(node: string, res: string): Pod -> int {
    (p: Pod) => DemandAt(node, res, p)
  }

  /** What the pods on a node hold of one resource. */
  function Allocated(pods: seq<Pod>, node: string, res: string): int {
    Sum(pods, DemandOn(node, res))
  }

  type Allocation = map<string, map<string, int>>

  function Lookup(a: Allocation, node: string, res: string): int {
    if node in a then Get(a[node], res) else 0
  }

  /** What one container asks for is added to its node's account. */
  method Charge(a: Allocation, node: string, container: Resources) returns (out: Allocation)
    ensures forall n, r :: Lookup(out, n, r) == Lookup(a, n, r) + if n == node then Get(Requested(container), r) else 0
  {
    out := a;
    var requested := RequestedAccelerators(container);
    var order := Range(requested.Keys);
    for i := 0 to |order|
      invariant forall n, r ::
                  Lookup(out, n, r) == Lookup(a, n, r) + if n == node && r in order[..i] then Get(requested, r) else 0
    {
      assert order[..i + 1] == order[..i] + [order[i]];
      assert order[i] !in order[..i];
      var name := order[i];
      if node !in out { out := out[node := map[]]; }
      out := out[node := out[node][name := Get(out[node], name) + requested[name]]];
    }
    assert order[..|order|] == order;
  }

  /** allocatedByNode. */
  method AllocatedByNode(pods: seq<Pod>) returns (out: Allocation)
    ensures forall n, r :: Lookup(out, n, r) == Allocated(pods, n, r)
  {
    out := map[];
    for i := 0 to |pods|
      invariant forall n, r :: Lookup(out, n, r) == Allocated(pods[..i], n, r)
    {
      assert pods[..i + 1][..i] == pods[..i];
      var p := pods[i];
      if p.nodeName != "" && p.phase != "Succeeded" && p.phase != "Failed" {
        out := ChargePod(out, p);
      }
      forall n, r ensures Lookup(out, n, r) == Allocated(pods[..i + 1], n, r) {
        assert Allocated(pods[..i + 1], n, r) == Allocated(pods[..i], n, r) + DemandOn(n, r)(p);
      }
    }
    assert pods[..|pods|] == pods;
  }

  method ChargePod(a: Allocation, p: Pod) returns (out: Allocation)
    requires Holds(p)
    ensures forall n, r :: Lookup(out, n, r) == Lookup(a, n, r) + if n == p.nodeName then PodDemand(p, r) else 0
  {
    out := a;
    var cs := p.containers;
    assert forall r :: Sum(cs[..0], ContainerDemand(r)) == 0;
    for i := 0 to |cs|
      invariant forall n, r :: Lookup(out, n, r) ==
                  Lookup(a, n, r) + if n == p.nodeName then Sum(cs[..i], ContainerDemand(r)) else 0
    {
      assert cs[..i + 1][..i] == cs[..i];
      out := Charge(out, p.nodeName, cs[i]);
    }
    assert cs[..|cs|] == cs;
  }

  // ------------------------------------------------------- what a node has

  ghost function AcceleratorKeys(n: Node): set<string> { KeysWhere(n.allocatable.Keys, IsAccelerator) }

  ghost function KeysWhere(keys: set<string>, keep: string -> bool): set<string> {
    set k | k in keys && keep(k)
  }

  function Filter(order: seq<string>, keep: string -> bool): seq<string> {
    if order == [] then []
    else Filter(order[..|order| - 1], keep) + if keep(order[|order| - 1]) then [order[|order| - 1]] else []
  }

  lemma {:induction false} FilterWalks(order: seq<string>, keys: set<string>, keep: string -> bool)
    requires Walks(order, keys)
    ensures Walks(Filter(order, keep), KeysWhere(keys, keep))
  {
    if order == [] {
    } else {
      var front, last := order[..|order| - 1], order[|order| - 1];
      assert order == front + [last];
      assert last !in front;
      FilterWalks(front, keys - {last}, keep);
      assert last !in Filter(front, keep);
    }
  }

  function RowOf(n: Node, held: map<string, int>, res: string): ResourceRow {
    ResourceRow(if n.cardModel != "" then n.cardModel else CardType(res), Get(n.allocatable, res), Get(held, res))
  }

  function RowsOf(n: Node, held: map<string, int>, order: seq<string>): seq<ResourceRow> {
    seq(|order|, i requires 0 <= i < |order| => RowOf(n, held, order[i]))
  }

  function Using(m: map<string, int>): string -> int { (k: string) => Get(m, k) }

  /** Everything the node advertises and everything held of it. */
  ghost function Capacity(n: Node): int { SumOver(AcceleratorKeys(n), Using(n.allocatable)) }

  ghost function InUse(n: Node, held: map<string, int>): int { SumOver(AcceleratorKeys(n), Using(held)) }

  /** nodeToInventory: one row per accelerator, in whatever order the map of
    * allocatable resources is walked; the counts do not depend on that order, and
    * what is free is what is advertised less what is held. */
  method NodeToInventory(n: Node, held: map<string, int>) returns (inv: InventoryNode, ghost order: seq<string>)
    ensures SameNode(inv, n)
    ensures Walks(order, AcceleratorKeys(n)) && inv.resources == RowsOf(n, held, order)
    ensures inv.gpusAllocated == InUse(n, held)
    ensures inv.gpusAllocated + inv.gpusFree == Capacity(n)
  {
    var all := Range(n.allocatable.Keys);
    var rows: seq<ResourceRow> := [];
    var gpusAllocated, gpusFree := 0, 0;
    order := [];
    for i := 0 to |all|
      invariant order == Filter(all[..i], IsAccelerator)
      invariant rows == RowsOf(n, held, order)
      invariant gpusAllocated == Sum(order, Using(held))
      invariant gpusAllocated + gpusFree == Sum(order, Using(n.allocatable))
    {
      var name := all[i];
      assert all[..i + 1][..i] == all[..i];
      var cardType := CardType(name);
      if cardType != "" {
        var allocatable, used := n.allocatable[name], Get(held, name);
        rows := rows + [ResourceRow(if n.cardModel != "" then n.cardModel else cardType, allocatable, used)];
        gpusAllocated, gpusFree := gpusAllocated + used, gpusFree + (allocatable - used);
        SumPush(order, name, Using(held));
        SumPush(order, name, Using(n.allocatable));
        order := order + [name];
      }
    }
    assert all[..|all|] == all;
    FilterWalks(all, n.allocatable.Keys, IsAccelerator);
    SumOfWalk(order, AcceleratorKeys(n), Using(held));
    SumOfWalk(order, AcceleratorKeys(n), Using(n.allocatable));
    inv := InventoryNode(n.uid, n.name, n.vendor, n.readiness, n.devicePlugin, gpusAllocated, gpusFree, rows);
  }

  lemma SumPush(order: seq<string>, k: string, f: string -> int)
    ensures Sum(order + [k], f) == Sum(order, f) + f(k)
  {
    assert (order + [k])[..|order|] == order;
  }

  // ---------------------------------------------------- the whole snapshot

  ghost predicate Describes(inv: InventoryNode, n: Node, held: map<string, int>) {
    && SameNode(inv, n)
    && (exists order :: Walks(order, AcceleratorKeys(n)) && inv.resources == RowsOf(n, held, order))
    && inv.gpusAllocated == InUse(n, held)
    && inv.gpusAllocated + inv.gpusFree == Capacity(n)
  }

  /** `held` is one node's share of what the pods hold. */
  ghost predicate ShareOf(pods: seq<Pod>, node: string, held: map<string, int>) {
    forall r :: Get(held, r) == Allocated(pods, node, r)
  }

  ghost predicate Reports(inv: InventoryNode, n: Node, pods: seq<Pod>) {
    exists held :: ShareOf(pods, n.name, held) && Describes(inv, n, held)
  }

  ghost predicate Snapshot(nodes: seq<Node>, pods: seq<Pod>, snap: seq<InventoryNode>) {
    |snap| == |nodes| && forall i :: 0 <= i < |nodes| ==> Reports(snap[i], nodes[i], pods)
  }

  /** listNodes, given both lists; a failed pod list counts as no pods. */
  method ListNodes(nodes: seq<Node>, pods: Option<seq<Pod>>) returns (snap: seq<InventoryNode>)
    ensures Snapshot(nodes, if pods.Some? then pods.value else [], snap)
  {
    var allocated_: Allocation := map[];
    if pods.Some? { allocated_ := AllocatedByNode(pods.value); }
    ghost var ps := if pods.Some? then pods.value else [];
    snap := [];
    for i := 0 to |nodes|
      invariant |snap| == i
      invariant forall j :: 0 <= j < i ==> Reports(snap[j], nodes[j], ps)
    {
      var n := nodes[i];
      var held := if n.name in allocated_ then allocated_[n.name] else map[];
      var inv, order := NodeToInventory(n, held);
      assert ShareOf(ps, n.name, held) by {
        forall r ensures Get(held, r) == Allocated(ps, n.name, r) {
          assert Lookup(allocated_, n.name, r) == Get(held, r);
        }
      }
      assert Describes(inv, n, held);
      snap := snap + [inv];
    }
  }

  // --------------------------------------------------- fleet conservation

  ghost function FleetAllocated(snap: seq<InventoryNode>): int {
    Sum(snap, (inv: InventoryNode) => inv.gpusAllocated)
  }

  ghost function FleetSize(snap: seq<InventoryNode>): int {
    Sum(snap, (inv: InventoryNode) => inv.gpusAllocated + inv.gpusFree)
  }

  /** What one pod holds of everything a node advertises. */
  ghost function Share(n: Node, p: Pod): int {
    if p.nodeName == n.name then SumOver(AcceleratorKeys(n), (r: string) => PodDemand(p, r)) else 0
  }

  /** What one pod holds of everything its own node advertises: nothing when the
    * node is not listed. */
  ghost function Counted(nodes: seq<Node>, p: Pod): int {
    if i: nat :| i < |nodes| && nodes[i].name == p.nodeName then Share(nodes[i], p) else 0
  }

  ghost predicate DistinctNodes(nodes: seq<Node>) {
    forall i, j :: 0 <= i < j < |nodes| ==> nodes[i].name != nodes[j].name
  }

  function DemandsOf(node: string, p: Pod): string -> int { (r: string) => DemandAt(node, r, p) }

  /** One node's count is the sum of its pods' shares. */
  lemma NodeCount(n: Node, pods: seq<Pod>, held: map<string, int>)
    requires ShareOf(pods, n.name, held)
    ensures InUse(n, held) == Sum(pods, ShareOn(n))
  {
    var names := SortedNames(AcceleratorKeys(n));
    forall p ensures Share(n, p) == Sum(names, DemandsOf(n.name, p)) {
      if p.nodeName == n.name {
        SumSame(names, DemandsOf(n.name, p), (r: string) => PodDemand(p, r));
      } else {
        SumZero(names, DemandsOf(n.name, p));
      }
    }
    SumExchange(names, pods, r => DemandOn(n.name, r), p => DemandsOf(n.name, p), Using(held), ShareOn(n));
  }

  lemma CountedAt(nodes: seq<Node>, p: Pod, i: nat)
    requires DistinctNodes(nodes) && i < |nodes| && nodes[i].name == p.nodeName
    ensures Counted(nodes, p) == Share(nodes[i], p)
  {
  }

  ghost function ShareWith(p: Pod): Node -> int { (n: Node) => Share(n, p) }

  ghost function ShareOn(n: Node): Pod -> int { (p: Pod) => Share(n, p) }

  /** A pod counts on its own node and nowhere else. */
  lemma {:induction false} CountedOnce(nodes: seq<Node>, p: Pod)
    requires DistinctNodes(nodes)
    ensures Sum(nodes, ShareWith(p)) == Counted(nodes, p)
  {
    if nodes == [] {
    } else {
      var k := |nodes| - 1;
      var front := nodes[..k];
      CountedOnce(front, p);
      if nodes[k].name == p.nodeName {
        CountedAt(nodes, p, k);
        assert forall i: nat :: i < k ==> front[i].name != p.nodeName;
      } else if i: nat :| i < k && front[i].name == p.nodeName {
        CountedAt(nodes, p, i);
        CountedAt(front, p, i);
      } else {
        assert forall i: nat :: i < |nodes| ==> i == k || nodes[i] == front[i];
      }
    }
  }

  ghost function NodeTotal(pods: seq<Pod>): Node -> int { (n: Node) => Sum(pods, ShareOn(n)) }

  ghost function PodTotal(nodes: seq<Node>): Pod -> int { (p: Pod) => Counted(nodes, p) }

  /** The fleet's allocation is exactly what the scheduled, unfinished pods of
    * listed nodes request of the accelerators those nodes advertise, whatever
    * order the pods, nodes and resource maps are walked in; with what is free it
    * makes up everything the nodes advertise. */
  lemma FleetConservation(nodes: seq<Node>, pods: seq<Pod>, snap: seq<InventoryNode>)
    requires Snapshot(nodes, pods, snap) && DistinctNodes(nodes)
    ensures FleetAllocated(snap) == Sum(pods, PodTotal(nodes))
    ensures FleetSize(snap) == Sum(nodes, (n: Node) => Capacity(n))
  {
    SnapshotSums(nodes, pods, snap);
    forall p ensures Counted(nodes, p) == Sum(nodes, ShareWith(p)) { CountedOnce(nodes, p); }
    SumExchange(nodes, pods, n => ShareOn(n), p => ShareWith(p), NodeTotal(pods), PodTotal(nodes));
  }

  lemma {:induction false} SnapshotSums(nodes: seq<Node>, pods: seq<Pod>, snap: seq<InventoryNode>)
    requires Snapshot(nodes, pods, snap)
    ensures FleetAllocated(snap) == Sum(nodes, NodeTotal(pods))
    ensures FleetSize(snap) == Sum(nodes, (n: Node) => Capacity(n))
  {
    if nodes == [] {
    } else {
      var k := |nodes| - 1;
      SnapshotSums(nodes[..k], pods, snap[..k]);
      assert Reports(snap[k], nodes[k], pods);
      var held :| ShareOf(pods, nodes[k].name, held) && Describes(snap[k], nodes[k], held);
      NodeCount(nodes[k], pods, held);
    }
  }

  lemma VendorsCounted(accelerator: string)
    ensures IsAccelerator(GpuResource(accelerator)) <==> accelerator == "nvidia" || accelerator == "metax"
    ensures !IsAccelerator(CPU) && !IsAccelerator(MEMORY)
  {
    assert |"iluvatar.ai/vgpu"| == 16 && |"iluvatar.ai/gpu"| == 15 && |"iluvatar.com/gpu"| == 16;
    assert "iluvatar.ai/vgpu"[9] != "iluvatar.com/gpu"[9];
  }

  lemma OneContainer(p: Pod, container: Resources, res: string)
    requires Holds(p) && p.containers == [container]
    ensures PodDemand(p, res) == Get(Requested(container), res)
  {
    assert p.containers[..0] == [];
    assert Sum(p.containers, ContainerDemand(res)) == ContainerDemand(res)(container);
  }

  lemma EngineRequests(evt: ChangeEvent, res: string)
    requires KnownAccelerator(evt.accelerator)
    ensures Get(Requested(PodResources(evt)), res)
         == if res == GpuResource(evt.accelerator) && evt.accelerator != "iluvatar" then GpuPerPod(evt) else 0
  {
    VendorsCounted(evt.accelerator);
  }

  /** What the inventory sees of a pod the controller makes: the devices it requests,
    * and nothing else; but nothing at all of an "iluvatar" pod, whose devices go by a
    * resource name the inventory does not know. */
  lemma RequestedIsCounted(evt: ChangeEvent, p: Pod, res: string)
    requires KnownAccelerator(evt.accelerator) && Holds(p) && p.containers == [PodResources(evt)]
    ensures PodDemand(p, res)
         == if res == GpuResource(evt.accelerator) && evt.accelerator != "iluvatar" then GpuPerPod(evt) else 0
  {
    OneContainer(p, PodResources(evt), res);
    EngineRequests(evt, res);
  }

  // ------------------------------------------------------------- what counts

  /** The six resource names the collector knows. */
  predicate KnownResource(res: string) {
    || res == "nvidia.com/gpu" || res == "iluvatar.com/gpu" || res == "iluvatar.ai/gpu"
    || res == "metax.com/gpu" || res == "metax-tech.com/gpu" || res == "metax-tech.com/vgpu"
  }

  lemma AcceleratorsAre(res: string)
    ensures IsAccelerator(res) <==> KnownResource(res)
    ensures CardType(res) == if KnownResource(res) then "gpu" else ""
  {
  }

  /** A container's request of a known resource, or its limit where it requests none. */
  function Wanted(c: Resources, res: string): int {
    if !KnownResource(res) then 0
    else if res in c.requests then c.requests[res]
    else if res in c.limits then c.limits[res]
    else 0
  }

  lemma RequestedMeans(c: Resources, res: string)
    ensures Get(Requested(c), res) == Wanted(c, res)
  {
    AcceleratorsAre(res);
  }

  ghost function Wanting(res: string): Resources -> int { (c: Resources) => Wanted(c, res) }

  /** A scheduled pod that has neither succeeded nor failed holds what its containers want;
    * any other holds nothing. */
  lemma PodDemandMeans(p: Pod, res: string)
    ensures PodDemand(p, res) == if p.nodeName == "" || p.phase == "Succeeded" || p.phase == "Failed" then 0
                                 else Sum(p.containers, Wanting(res))
  {
    forall c | c in p.containers ensures ContainerDemand(res)(c) == Wanting(res)(c) { RequestedMeans(c, res); }
    SumSame(p.containers, ContainerDemand(res), Wanting(res));
  }

  predicate IsRowOf(row: ResourceRow, n: Node, res: string, held: int) {
    && row.allocatable == Get(n.allocatable, res) && row.held == held
    && row.cardType == if n.cardModel == "" then "gpu" else n.cardModel
  }

  lemma RowMeans(n: Node, held: map<string, int>, res: string, row: ResourceRow)
    requires KnownResource(res)
    ensures row == RowOf(n, held, res) <==> IsRowOf(row, n, res, Get(held, res))
  {
    AcceleratorsAre(res);
  }

  lemma AdvertisedIn(n: Node, order: seq<string>, res: string)
    requires Walks(order, AcceleratorKeys(n))
    ensures res in order <==> res in n.allocatable && KnownResource(res)
  {
    AcceleratorsAre(res);
  }

  lemma RowsMean(n: Node, held: map<string, int>, order: seq<string>, row: ResourceRow)
    requires Walks(order, AcceleratorKeys(n))
    ensures row in RowsOf(n, held, order) <==> exists res :: res in order && IsRowOf(row, n, res, Get(held, res))
  {
    forall i | 0 <= i < |order|
      ensures RowsOf(n, held, order)[i] == row <==> IsRowOf(row, n, order[i], Get(held, order[i]))
    {
      AdvertisedIn(n, order, order[i]);
      RowMeans(n, held, order[i], row);
    }
    if res :| res in order && IsRowOf(row, n, res, Get(held, res)) {
      var i :| 0 <= i < |order| && order[i] == res;
      assert RowsOf(n, held, order)[i] == row;
    }
  }

  /** A reported node has a row for each known resource it advertises, and no other:
    * what it advertises, what its pods hold, and the card its labels name, or "gpu". */
  lemma ReportMeans(inv: InventoryNode, n: Node, pods: seq<Pod>, row: ResourceRow)
    requires Reports(inv, n, pods)
    ensures row in inv.resources <==>
              exists res ::
                res in n.allocatable && KnownResource(res) && IsRowOf(row, n, res, Allocated(pods, n.name, res))
  {
    var held :| ShareOf(pods, n.name, held) && Describes(inv, n, held);
    var order :| Walks(order, AcceleratorKeys(n)) && inv.resources == RowsOf(n, held, order);
    RowsMean(n, held, order, row);
    forall res
      ensures res in order <==> res in n.allocatable && KnownResource(res)
      ensures Get(held, res) == Allocated(pods, n.name, res)
    {
      AdvertisedIn(n, order, res);
    }
  }
}

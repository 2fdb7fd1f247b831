/**
 What an agent measures and posts: node capacity, pod requests, enforced instructions.
 The loops are the collector's own; each is proved to compute a simple formula.
 */
module Collector {
  import opened Quantities
  import opened Instructions

  /** One list of requests or capacities; a resource may be missing from it. */
  datatype Requests = Requests(cpu: Option<int>, memory: Option<int>, gpu: Option<int>)

  datatype PodPhase = PodPending | PodRunning | PodSucceeded | PodFailed | PodUnknown

  datatype Pod = Pod(phase: PodPhase, containers: seq<Requests>, inits: seq<Requests>, overhead: Option<Requests>)

  /** A node condition: its kind is Ready or not, its status is True or not. */
  datatype Condition = Condition(isReady: bool, holds: bool)

  datatype Node = Node(conditions: seq<Condition>, capacity: Requests, allocatable: Requests)

  datatype Measured = Measured(
    capacity: ResourceQuantities, allocatable: ResourceQuantities,
    inUse: ResourceQuantities, available: ResourceQuantities)

  datatype Kind = OfCpu | OfMemory | OfGpu

  // ----- the formulas -----

  function Field(r: Requests, k: Kind): Option<int> {
    match k
    case OfCpu => r.cpu
    case OfMemory => r.memory
    case OfGpu => r.gpu
  }

  function Ask(r: Requests, k: Kind): int {
    if Field(r, k).Some? then Field(r, k).value else 0
  }

  function Total(rs: seq<Requests>, k: Kind): int {
    if |rs| == 0 then 0 else Total(rs[..|rs| - 1], k) + Ask(Last(rs), k)
  }

  /** The largest request, or zero. */
  function Peak(rs: seq<Requests>, k: Kind): int {
    if |rs| == 0 then 0 else Max(Ask(Last(rs), k), Peak(rs[..|rs| - 1], k))
  }

  /** Containers run together, init containers one by one before them. */
  function PodUse(p: Pod, k: Kind): int {
    Max(Peak(p.inits, k), Total(p.containers, k)) + (if p.overhead.Some? then Ask(p.overhead.value, k) else 0)
  }

  predicate Occupies(p: Pod) {
    p.phase == PodRunning || p.phase == PodPending
  }

  function InUse(pods: seq<Pod>, k: Kind): int {
    if |pods| == 0 then 0
    else InUse(pods[..|pods| - 1], k) + (if Occupies(Last(pods)) then PodUse(Last(pods), k) else 0)
  }

  predicate NamesGpu(p: Pod) {
    || (exists r :: r in p.containers && r.gpu.Some?)
    || (exists r :: r in p.inits && r.gpu.Some?)
    || (p.overhead.Some? && p.overhead.value.gpu.Some?)
  }

  predicate AnyGpuPod(pods: seq<Pod>) {
    exists p :: p in pods && Occupies(p) && NamesGpu(p)
  }

  /** The first Ready condition decides. */
  predicate Ready(conditions: seq<Condition>) {
    |conditions| > 0 && (if conditions[0].isReady then conditions[0].holds else Ready(conditions[1..]))
  }

  function OnReady(nodes: seq<Node>, k: Kind): int {
    if |nodes| == 0 then 0
    else OnReady(nodes[..|nodes| - 1], k)
         + (if Ready(Last(nodes).conditions) then Ask(Last(nodes).allocatable, k) else 0)
  }

  function CapacityOnReady(nodes: seq<Node>, k: Kind): int {
    if |nodes| == 0 then 0
    else CapacityOnReady(nodes[..|nodes| - 1], k)
         + (if Ready(Last(nodes).conditions) then Ask(Last(nodes).capacity, k) else 0)
  }

  predicate AnyGpuNode(nodes: seq<Node>) {
    exists n :: n in nodes && Ready(n.conditions) && n.capacity.gpu.Some?
  }

  function Value(t: Text): int {
    if t.Number? then t.value else 0
  }

  /** A CPU text that does not parse drops the whole instruction; a bad memory text only its memory. */
  function Share(i: ProviderInstruction, k: Resource): int {
    if i.cpu.Malformed? then 0 else if k.Cpu? then Value(i.cpu) else Value(i.memory)
  }

  function ReservedSum(list: seq<ProviderInstruction>, now: int, k: Resource): int {
    if |list| == 0 then 0
    else ReservedSum(list[..|list| - 1], now, k) + (if Counts(Last(list), now) then Share(Last(list), k) else 0)
  }

  function ReservedAt(list: seq<ProviderInstruction>, now: int): Amount {
    Amount(ReservedSum(list, now, Cpu), ReservedSum(list, now, Memory))
  }

  // ----- what the formulas mean -----

  lemma {:induction false} PeakIsLargest(rs: seq<Requests>, k: Kind)
    ensures Peak(rs, k) >= 0
    ensures forall r :: r in rs ==> Ask(r, k) <= Peak(rs, k)
    ensures Peak(rs, k) == 0 || exists r :: r in rs && Ask(r, k) == Peak(rs, k)
  {
    if |rs| > 0 {
      PeakIsLargest(rs[..|rs| - 1], k);
      assert forall r :: r in rs <==> r in rs[..|rs| - 1] || r == Last(rs);
    }
  }

  predicate NonNegative(r: Requests) {
    Ask(r, OfCpu) >= 0 && Ask(r, OfMemory) >= 0 && Ask(r, OfGpu) >= 0
  }

  /** A pod never uses less than nothing: init maxima start at zero, and overhead is not negative. */
  lemma {:induction false} UseIsNonNegative(pods: seq<Pod>, k: Kind)
    requires forall p :: p in pods && p.overhead.Some? ==> NonNegative(p.overhead.value)
    ensures InUse(pods, k) >= 0
  {
    if |pods| > 0 {
      UseIsNonNegative(pods[..|pods| - 1], k);
      PeakIsLargest(Last(pods).inits, k);
      assert Last(pods) in pods;
    }
  }

  // ----- the formulas, one element at a time and spelled out -----

  /** What one list of requests asks for. */
  lemma AskExactly(r: Requests)
    ensures Ask(r, OfCpu) == (if r.cpu.Some? then r.cpu.value else 0)
    ensures Ask(r, OfMemory) == (if r.memory.Some? then r.memory.value else 0)
    ensures Ask(r, OfGpu) == (if r.gpu.Some? then r.gpu.value else 0)
  {
  }

  /** A container adds what it asks for. */
  lemma AddingContainer(rs: seq<Requests>, r: Requests, k: Kind)
    ensures Total([], k) == 0 && Total(rs + [r], k) == Total(rs, k) + Ask(r, k)
  {
    assert (rs + [r])[..|rs|] == rs;
  }

  /**
   A pod occupies its overhead and the least amount, not negative, that covers its containers
   together and each of its init containers alone.
   */
  lemma PodUseExactly(p: Pod, k: Kind, least: int)
    requires least == PodUse(p, k) - (if p.overhead.Some? then Ask(p.overhead.value, k) else 0)
    ensures least >= 0 && least >= Total(p.containers, k) && forall r :: r in p.inits ==> least >= Ask(r, k)
    ensures least == 0 || least == Total(p.containers, k) || exists r :: r in p.inits && least == Ask(r, k)
  {
    PeakIsLargest(p.inits, k);
  }

  /** A Running or Pending pod adds what it occupies, any other nothing. */
  lemma AddingPod(pods: seq<Pod>, p: Pod, k: Kind)
    ensures InUse([], k) == 0
    ensures InUse(pods + [p], k)
         == InUse(pods, k) + (if p.phase == PodRunning || p.phase == PodPending then PodUse(p, k) else 0)
  {
    assert (pods + [p])[..|pods|] == pods;
  }

  /** Without init containers and overhead that is exactly the sum of its containers' requests. */
  lemma PlainPodAdds(pods: seq<Pod>, p: Pod, k: Kind)
    requires p.phase == PodRunning || p.phase == PodPending
    requires p.inits == [] && p.overhead.None? && Total(p.containers, k) >= 0
    ensures InUse(pods + [p], k) == InUse(pods, k) + Total(p.containers, k)
  {
    AddingPod(pods, p, k);
  }

  lemma {:induction false} OrderOfPods(a: seq<Pod>, b: seq<Pod>, k: Kind)
    ensures InUse(a + b, k) == InUse(a, k) + InUse(b, k)
  {
    if |b| == 0 {
      assert a + b == a;
    } else {
      var front, p := b[..|b| - 1], Last(b);
      OrderOfPods(a, front, k);
      assert a + b == (a + front) + [p] && b == front + [p];
      AddingPod(a + front, p, k);
      AddingPod(front, p, k);
    }
  }

  /** A node is ready when its first condition of kind Ready is true. */
  lemma {:induction false} ReadyExactly(conditions: seq<Condition>)
    ensures Ready(conditions) <==>
      exists i :: 0 <= i < |conditions| && conditions[i].isReady && conditions[i].holds
        && forall j :: 0 <= j < i ==> !conditions[j].isReady
  {
    if |conditions| > 0 && !conditions[0].isReady {
      ReadyExactly(conditions[1..]);
      if Ready(conditions) {
        var i :| 0 <= i < |conditions[1..]| && conditions[1..][i].isReady && conditions[1..][i].holds
          && forall j :: 0 <= j < i ==> !conditions[1..][j].isReady;
        assert conditions[i + 1] == conditions[1..][i];
        forall j | 0 <= j < i + 1 ensures !conditions[j].isReady {
          if j > 0 {
            assert conditions[j] == conditions[1..][j - 1];
          }
        }
      } else {
        forall i | 0 <= i < |conditions| && conditions[i].isReady && conditions[i].holds
          ensures exists j :: 0 <= j < i && conditions[j].isReady
        {
          var tail := conditions[1..];
          assert conditions[i] == tail[i - 1];
          var j :| 0 <= j < i - 1 && tail[j].isReady;
          assert conditions[j + 1] == tail[j];
        }
      }
    }
  }

  /** A ready node adds its allocatable and its capacity, any other nothing. */
  lemma AddingNode(nodes: seq<Node>, n: Node, k: Kind)
    ensures OnReady([], k) == 0 && CapacityOnReady([], k) == 0
    ensures OnReady(nodes + [n], k) == OnReady(nodes, k) + (if Ready(n.conditions) then Ask(n.allocatable, k) else 0)
    ensures CapacityOnReady(nodes + [n], k)
         == CapacityOnReady(nodes, k) + (if Ready(n.conditions) then Ask(n.capacity, k) else 0)
  {
    assert (nodes + [n])[..|nodes|] == nodes;
  }

  /**
   An instruction adds its amounts when it is enforced and its deadline, if any, is not past. A CPU
   text that does not parse drops it whole, a missing text counts nothing.
   */
  lemma AddingInstruction(list: seq<ProviderInstruction>, i: ProviderInstruction, now: int)
    ensures ReservedSum([], now, Cpu) == 0 && ReservedSum([], now, Memory) == 0
    ensures var counts := i.enforced && !(i.expiresAt.Some? && i.expiresAt.value < now);
      && ReservedSum(list + [i], now, Cpu)
         == ReservedSum(list, now, Cpu) + (if counts && i.cpu.Number? then i.cpu.value else 0)
      && ReservedSum(list + [i], now, Memory)
         == ReservedSum(list, now, Memory)
            + (if counts && !i.cpu.Malformed? && i.memory.Number? then i.memory.value else 0)
  {
    assert (list + [i])[..|list|] == list;
  }

  // ----- the loops -----

  method IsNodeReady(node: Node) returns (ready: bool)
    ensures ready == Ready(node.conditions)
  {
    for i := 0 to |node.conditions|
      invariant Ready(node.conditions[i..]) == Ready(node.conditions)
    {
      assert node.conditions[i..][1..] == node.conditions[i + 1..];
      if node.conditions[i].isReady {
        return node.conditions[i].holds;
      }
    }
    ready := false;
  }

  method SumContainers(rs: seq<Requests>) returns (cpu: int, memory: int, gpu: int, named: bool)
    ensures cpu == Total(rs, OfCpu) && memory == Total(rs, OfMemory) && gpu == Total(rs, OfGpu)
    ensures named <==> exists r :: r in rs && r.gpu.Some?
  {
    cpu, memory, gpu, named := 0, 0, 0, false;
    for i := 0 to |rs|
      invariant cpu == Total(rs[..i], OfCpu) && memory == Total(rs[..i], OfMemory) && gpu == Total(rs[..i], OfGpu)
      invariant named <==> exists r :: r in rs[..i] && r.gpu.Some?
    {
      assert rs[..i + 1][..i] == rs[..i] && Last(rs[..i + 1]) == rs[i];
      assert forall r :: r in rs[..i + 1] <==> r in rs[..i] || r == rs[i];
      if rs[i].cpu.Some? {
        cpu := cpu + rs[i].cpu.value;
      }
      if rs[i].memory.Some? {
        memory := memory + rs[i].memory.value;
      }
      if rs[i].gpu.Some? {
        gpu := gpu + rs[i].gpu.value;
        named := true;
      }
    }
    assert rs[..|rs|] == rs;
  }

  method MaxInits(rs: seq<Requests>) returns (cpu: int, memory: int, gpu: int, named: bool)
    ensures cpu == Peak(rs, OfCpu) && memory == Peak(rs, OfMemory) && gpu == Peak(rs, OfGpu)
    ensures named <==> exists r :: r in rs && r.gpu.Some?
  {
    cpu, memory, gpu, named := 0, 0, 0, false;
    for i := 0 to |rs|
      invariant cpu == Peak(rs[..i], OfCpu) && memory == Peak(rs[..i], OfMemory) && gpu == Peak(rs[..i], OfGpu)
      invariant cpu >= 0 && memory >= 0 && gpu >= 0
      invariant named <==> exists r :: r in rs[..i] && r.gpu.Some?
    {
      assert rs[..i + 1][..i] == rs[..i] && Last(rs[..i + 1]) == rs[i];
      assert forall r :: r in rs[..i + 1] <==> r in rs[..i] || r == rs[i];
      if rs[i].cpu.Some? && rs[i].cpu.value > cpu {
        cpu := rs[i].cpu.value;
      }
      if rs[i].memory.Some? && rs[i].memory.value > memory {
        memory := rs[i].memory.value;
      }
      if rs[i].gpu.Some? {
        if rs[i].gpu.value > gpu {
          gpu := rs[i].gpu.value;
        }
        named := true;
      }
    }
    assert rs[..|rs|] == rs;
  }

  /** Until some counted pod has named a GPU, there is nothing to add. */
  lemma {:induction false} NoGpuNoUse(rs: seq<Requests>)
    requires forall r :: r in rs ==> r.gpu.None?
    ensures Total(rs, OfGpu) == 0 && Peak(rs, OfGpu) == 0
  {
    if |rs| > 0 {
      assert Last(rs) in rs;
      NoGpuNoUse(rs[..|rs| - 1]);
    }
  }

  /** calculateAllocatedResources. The flag is raised when the first GPU request is met, midway through the list. */
  method CalculateAllocated(pods: seq<Pod>) returns (inUse: ResourceQuantities)
    ensures inUse.amount == Amount(InUse(pods, OfCpu), InUse(pods, OfMemory))
    ensures inUse.gpu.Some? <==> AnyGpuPod(pods)
    ensures inUse.gpu.Some? ==> inUse.gpu.value == InUse(pods, OfGpu)
  {
    var cpu, memory, gpu, hasGpu := 0, 0, 0, false;
    for i := 0 to |pods|
      invariant cpu == InUse(pods[..i], OfCpu) && memory == InUse(pods[..i], OfMemory) && gpu == InUse(pods[..i], OfGpu)
      invariant hasGpu <==> AnyGpuPod(pods[..i])
    {
      var pod := pods[i];
      assert pods[..i + 1][..i] == pods[..i] && Last(pods[..i + 1]) == pod;
      assert forall p :: p in pods[..i + 1] <==> p in pods[..i] || p == pod;
      if pod.phase != PodRunning && pod.phase != PodPending {
        continue;
      }
      var addCpu, addMemory, addGpu, named := Contribution(pod, hasGpu);
      cpu, memory, gpu := cpu + addCpu, memory + addMemory, gpu + addGpu;
      hasGpu := hasGpu || named;
    }
    assert pods[..|pods|] == pods;
    inUse := ResourceQuantities(Amount(cpu, memory), if hasGpu then Some(gpu) else None);
  }

  /** One pod's turn, with the flag as raised by the pods before it. */
  method Contribution(pod: Pod, before: bool) returns (cpu: int, memory: int, gpu: int, named: bool)
    ensures cpu == PodUse(pod, OfCpu) && memory == PodUse(pod, OfMemory) && gpu == PodUse(pod, OfGpu)
    ensures named <==> NamesGpu(pod)
  {
    var containersCpu, containersMemory, containersGpu, inContainers := SumContainers(pod.containers);
    var initCpu, initMemory, initGpu, inInits := MaxInits(pod.inits);
    cpu := if initCpu > containersCpu then initCpu else containersCpu;
    memory := if initMemory > containersMemory then initMemory else containersMemory;
    gpu := 0;
    named := inContainers || inInits;
    if before || named {
      gpu := if initGpu > containersGpu then initGpu else containersGpu;
    }
    if !named {
      NoGpuNoUse(pod.containers);
      NoGpuNoUse(pod.inits);
    }
    if pod.overhead.Some? {
      var o := pod.overhead.value;
      if o.cpu.Some? {
        cpu := cpu + o.cpu.value;
      }
      if o.memory.Some? {
        memory := memory + o.memory.value;
      }
      if o.gpu.Some? {
        gpu := gpu + o.gpu.value;
        named := true;
      }
    }
  }

  /** calculateReservedResources: enforced and not past expiry, parsed one field at a time. */
  method CalculateReserved(list: seq<ProviderInstruction>, now: int) returns (reserved: Amount)
    ensures reserved == ReservedAt(list, now)
  {
    var cpu, memory := 0, 0;
    for n := 0 to |list|
      invariant cpu == ReservedSum(list[..n], now, Cpu) && memory == ReservedSum(list[..n], now, Memory)
    {
      var i := list[n];
      assert list[..n + 1][..n] == list[..n] && Last(list[..n + 1]) == i;
      if !i.enforced {
        continue;
      }
      if i.expiresAt.Some? && i.expiresAt.value < now {
        continue;
      }
      if i.cpu != Missing {
        if i.cpu.Malformed? {
          continue;
        }
        cpu := cpu + i.cpu.value;
      }
      if i.memory != Missing {
        if i.memory.Malformed? {
          continue;
        }
        memory := memory + i.memory.value;
      }
    }
    assert list[..|list|] == list;
    reserved := Amount(cpu, memory);
  }

  /** CollectClusterResources: nothing without nodes, otherwise sums over ready nodes and a clamped remainder. */
  method CollectClusterResources(nodes: seq<Node>, pods: seq<Pod>, list: seq<ProviderInstruction>, now: int)
    returns (result: Option<Measured>)
    ensures result.None? <==> nodes == []
    ensures result.Some? ==> MeasuredRight(result.value, nodes, pods, list, now)
  {
    if |nodes| == 0 {
      return None;
    }
    var capacity, allocatable := SumNodes(nodes);
    var inUse := CalculateAllocated(pods);
    var reserved := CalculateReserved(list, now);
    var cpu := allocatable.amount.cpu - inUse.amount.cpu - reserved.cpu;
    var memory := allocatable.amount.memory - inUse.amount.memory - reserved.memory;
    if cpu < 0 {
      cpu := 0;
    }
    if memory < 0 {
      memory := 0;
    }
    var gpu := None;
    if allocatable.gpu.Some? {
      var left := allocatable.gpu.value;
      if inUse.gpu.Some? {
        left := left - inUse.gpu.value;
      }
      gpu := Some(if left < 0 then 0 else left);
    }
    result := Some(Measured(capacity, allocatable, inUse, ResourceQuantities(Amount(cpu, memory), gpu)));
  }

  method SumNodes(nodes: seq<Node>) returns (capacity: ResourceQuantities, allocatable: ResourceQuantities)
    ensures capacity.amount == Amount(CapacityOnReady(nodes, OfCpu), CapacityOnReady(nodes, OfMemory))
    ensures allocatable.amount == Amount(OnReady(nodes, OfCpu), OnReady(nodes, OfMemory))
    ensures capacity.gpu == if AnyGpuNode(nodes) then Some(CapacityOnReady(nodes, OfGpu)) else None
    ensures allocatable.gpu == if AnyGpuNode(nodes) then Some(OnReady(nodes, OfGpu)) else None
  {
    var total, free := Requests(Some(0), Some(0), Some(0)), Requests(Some(0), Some(0), Some(0));
    var hasGpu := false;
    for n := 0 to |nodes|
      invariant total == Requests(Some(CapacityOnReady(nodes[..n], OfCpu)), Some(CapacityOnReady(nodes[..n], OfMemory)),
                                  Some(CapacityOnReady(nodes[..n], OfGpu)))
      invariant free == Requests(Some(OnReady(nodes[..n], OfCpu)), Some(OnReady(nodes[..n], OfMemory)),
                                 Some(OnReady(nodes[..n], OfGpu)))
      invariant hasGpu <==> AnyGpuNode(nodes[..n])
    {
      var node := nodes[n];
      assert nodes[..n + 1][..n] == nodes[..n] && Last(nodes[..n + 1]) == node;
      assert forall m :: m in nodes[..n + 1] <==> m in nodes[..n] || m == node;
      var ready := IsNodeReady(node);
      if !ready {
        continue;
      }
      total := Plus(total, node.capacity);
      free := Plus(free, node.allocatable);
      hasGpu := hasGpu || node.capacity.gpu.Some?;
    }
    assert nodes[..|nodes|] == nodes;
    capacity := ResourceQuantities(Amount(total.cpu.value, total.memory.value), if hasGpu then total.gpu else None);
    allocatable := ResourceQuantities(Amount(free.cpu.value, free.memory.value), if hasGpu then free.gpu else None);
  }

  function Plus(sum: Requests, r: Requests): Requests {
    Requests(Some(Ask(sum, OfCpu) + Ask(r, OfCpu)), Some(Ask(sum, OfMemory) + Ask(r, OfMemory)),
             Some(Ask(sum, OfGpu) + Ask(r, OfGpu)))
  }

  /** Everything a posted measurement promises. */
  predicate MeasuredRight(m: Measured, nodes: seq<Node>, pods: seq<Pod>, list: seq<ProviderInstruction>, now: int) {
    && m.capacity.amount == Amount(CapacityOnReady(nodes, OfCpu), CapacityOnReady(nodes, OfMemory))
    && m.allocatable.amount == Amount(OnReady(nodes, OfCpu), OnReady(nodes, OfMemory))
    && m.inUse.amount == Amount(InUse(pods, OfCpu), InUse(pods, OfMemory))
    && (m.inUse.gpu.Some? <==> AnyGpuPod(pods)) && (m.inUse.gpu.Some? ==> m.inUse.gpu.value == InUse(pods, OfGpu))
    && m.capacity.gpu == (if AnyGpuNode(nodes) then Some(CapacityOnReady(nodes, OfGpu)) else None)
    && m.allocatable.gpu == (if AnyGpuNode(nodes) then Some(OnReady(nodes, OfGpu)) else None)
    && m.available.amount == Amount(
         Max(0, OnReady(nodes, OfCpu) - InUse(pods, OfCpu) - ReservedSum(list, now, Cpu)),
         Max(0, OnReady(nodes, OfMemory) - InUse(pods, OfMemory) - ReservedSum(list, now, Memory)))
    && m.available.gpu == (if AnyGpuNode(nodes)
                           then Some(Max(0, OnReady(nodes, OfGpu)
                                            - (if AnyGpuPod(pods) then InUse(pods, OfGpu) else 0)))
                           else None)
  }
}

/**
 The resource block of an advertisement and its in-place updates
 (internal/resource of the broker).
 */
module Availability {
  import opened Quantities

  /** `inUse` is the field the Go record calls Allocated (a reserved word here). */
  datatype Metrics = Metrics(
    allocatable: ResourceQuantities,
    inUse: ResourceQuantities,
    reserved: Option<ResourceQuantities>,
    available: ResourceQuantities)

  /** The lock ledger, with an absent block read as zero. */
  function ReservedAmount(m: Metrics): Amount {
    if m.reserved.None? then ZERO else m.reserved.value.amount
  }

  /** What the README calls Available. */
  function Headroom(m: Metrics): Amount {
    Amount(m.allocatable.amount.cpu - m.inUse.amount.cpu - ReservedAmount(m).cpu,
           m.allocatable.amount.memory - m.inUse.amount.memory - ReservedAmount(m).memory)
  }

  /** The stored Available field agrees with the formula. */
  predicate Consistent(m: Metrics) {
    m.available.amount == Headroom(m)
  }

  /** Recalculation dereferences the in-use GPU count whenever the allocatable one is set. */
  predicate GpuComplete(m: Metrics) {
    m.allocatable.gpu.Some? ==> m.inUse.gpu.Some?
  }

  predicate CanReserve(m: Metrics, request: Amount) {
    request.AtMost(m.available.amount)
  }

  function CalculateAvailable(allocatable: int, inUse: int, reserved: Option<int>): int {
    allocatable - inUse - (if reserved.Some? then reserved.value else 0)
  }

  function Recalculated(m: Metrics): Metrics
    requires GpuComplete(m)
  {
    var gpu :=
      if m.allocatable.gpu.None? then m.available.gpu
      else Some(CalculateAvailable(m.allocatable.gpu.value, m.inUse.gpu.value,
                                   if m.reserved.Some? then m.reserved.value.gpu else None));
    m.(available := ResourceQuantities(Headroom(m), gpu))
  }

  function Locked(m: Metrics, request: Amount): Metrics
    requires GpuComplete(m)
  {
    var gpu := if m.reserved.Some? then m.reserved.value.gpu else None;
    Recalculated(m.(reserved := Some(ResourceQuantities(
      Amount(ReservedAmount(m).cpu + request.cpu, ReservedAmount(m).memory + request.memory), gpu))))
  }

  function Freed(m: Metrics, request: Amount): Metrics
    requires GpuComplete(m) && m.reserved.Some?
  {
    Recalculated(m.(reserved := Some(m.reserved.value.(
      amount := Amount(ReservedAmount(m).cpu - request.cpu, ReservedAmount(m).memory - request.memory)))))
  }

  /** A lock that passed CanReserve leaves Available non-negative exactly when the real headroom held the request. */
  lemma LockLeavesHeadroom(m: Metrics, request: Amount)
    requires GpuComplete(m) && CanReserve(m, request)
    ensures ZERO.AtMost(Locked(m, request).available.amount) <==> request.AtMost(Headroom(m))
    ensures Consistent(m) ==> ZERO.AtMost(Locked(m, request).available.amount)
    ensures Consistent(Locked(m, request))
  {
  }

  /**
   The window after a POST: the agent published max(0, A - L - lr) while the
   ledger holds R. A lock that passes CanReserve leaves at least lr - R.
   */
  lemma BoundedDeficit(m: Metrics, counted: Amount, request: Amount)
    requires GpuComplete(m) && request.Positive()
    requires m.available.amount == Amount(
      Max(0, m.allocatable.amount.cpu - m.inUse.amount.cpu - counted.cpu),
      Max(0, m.allocatable.amount.memory - m.inUse.amount.memory - counted.memory))
    requires CanReserve(m, request)
    ensures forall k :: Of(counted, k) - Of(ReservedAmount(m), k) <= Of(Locked(m, request).available.amount, k)
  {
  }

  /** The record the Go code mutates through a pointer. */
  class ResourceMetrics {
    var allocatable: ResourceQuantities
    var inUse: ResourceQuantities
    var reserved: Option<ResourceQuantities>
    var available: ResourceQuantities

    constructor (m: Metrics)
      ensures View() == m
    {
      allocatable, inUse, reserved, available := m.allocatable, m.inUse, m.reserved, m.available;
    }

    function View(): Metrics
      reads this
    {
      Metrics(allocatable, inUse, reserved, available)
    }

    method UpdateAvailableResources()
      requires GpuComplete(View())
      modifies this`available
      ensures Consistent(View())
      ensures View() == Recalculated(old(View()))
      ensures var r := if reserved.Some? then reserved.value.amount else Amount(0, 0);
        && available.amount.cpu == allocatable.amount.cpu - inUse.amount.cpu - r.cpu
        && available.amount.memory == allocatable.amount.memory - inUse.amount.memory - r.memory
      ensures if allocatable.gpu.None? then available.gpu == old(available.gpu)
        else available.gpu == Some(allocatable.gpu.value - inUse.gpu.value
          - (if reserved.Some? && reserved.value.gpu.Some? then reserved.value.gpu.value else 0))
    {
      var reservedCpu, reservedMemory := 0, 0;
      if reserved.Some? {
        reservedCpu := reserved.value.amount.cpu;
        reservedMemory := reserved.value.amount.memory;
      }
      var cpu := CalculateAvailable(allocatable.amount.cpu, inUse.amount.cpu, Some(reservedCpu));
      var memory := CalculateAvailable(allocatable.amount.memory, inUse.amount.memory, Some(reservedMemory));
      available := available.(amount := Amount(cpu, memory));
      if allocatable.gpu.Some? {
        var reservedGpu := 0;
        if reserved.Some? && reserved.value.gpu.Some? {
          reservedGpu := reserved.value.gpu.value;
        }
        var gpu := CalculateAvailable(allocatable.gpu.value, inUse.gpu.value, Some(reservedGpu));
        available := available.(gpu := Some(gpu));
      }
    }

    method AddReservation(request: Amount)
      requires GpuComplete(View())
      modifies this`reserved, this`available
      ensures View() == Locked(old(View()), request)
      ensures reserved.Some? && reserved.value.gpu == (if old(reserved).Some? then old(reserved).value.gpu else None)
      ensures var before := if old(reserved).Some? then old(reserved).value.amount else Amount(0, 0);
        && reserved.value.amount == Amount(before.cpu + request.cpu, before.memory + request.memory)
        && available.amount.cpu == allocatable.amount.cpu - inUse.amount.cpu - before.cpu - request.cpu
        && available.amount.memory == allocatable.amount.memory - inUse.amount.memory - before.memory - request.memory
    {
      if reserved.None? {
        reserved := Some(ResourceQuantities(ZERO, None));
      }
      var total := reserved.value.amount;
      reserved := Some(reserved.value.(amount := Amount(total.cpu + request.cpu, total.memory + request.memory)));
      UpdateAvailableResources();
    }

    /** Refuses, changing nothing, when there is no ledger to take from. */
    method RemoveReservation(request: Amount) returns (ok: bool)
      requires reserved.Some? ==> GpuComplete(View())
      modifies this`reserved, this`available
      ensures ok <==> old(reserved).Some?
      ensures View() == if ok then Freed(old(View()), request) else old(View())
      ensures ok ==>
        var before := old(reserved).value;
        && reserved == Some(ResourceQuantities(
             Amount(before.amount.cpu - request.cpu, before.amount.memory - request.memory), before.gpu))
        && available.amount.cpu == allocatable.amount.cpu - inUse.amount.cpu - before.amount.cpu + request.cpu
        && available.amount.memory
           == allocatable.amount.memory - inUse.amount.memory - before.amount.memory + request.memory
    {
      if reserved.None? {
        return false;
      }
      var total := reserved.value.amount;
      reserved := Some(reserved.value.(amount := Amount(total.cpu - request.cpu, total.memory - request.memory)));
      UpdateAvailableResources();
      ok := true;
    }
  }
}

/**
 Exact resource amounts. The Go code adds, subtracts and compares quantities
 without rounding, so unbounded integers are faithful.
 */
module Quantities {
  datatype Option<+T> = None | Some(value: T)

  /** Cluster names are only ever compared, so numbers stand for them; NO_ID is the empty name. */
  type ClusterId = nat

  const NO_ID: ClusterId := 0

  /** CPU and memory together. */
  datatype Amount = Amount(cpu: int, memory: int) {
    predicate AtMost(that: Amount) {
      cpu <= that.cpu && memory <= that.memory
    }

    predicate Positive() {
      cpu > 0 && memory > 0
    }
  }

  const ZERO := Amount(0, 0)

  datatype Resource = Cpu | Memory

  /** One component, so that sums over many amounts stay sums of integers. */
  function Of(a: Amount, k: Resource): int {
    if k.Cpu? then a.cpu else a.memory
  }

  /** CPU, memory and the optional GPU count. */
  datatype ResourceQuantities = ResourceQuantities(amount: Amount, gpu: Option<int>)

  function Max(a: int, b: int): int {
    if a > b then a else b
  }

  function Last<T>(s: seq<T>): T
    requires |s| > 0
  {
    s[|s| - 1]
  }
}

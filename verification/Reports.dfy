/** The caller's bounded buffer of execution reports. */
module Reports {
  import opened Types
  import opened BookSpec

  class ReportBuffer {
    const capacity: nat
    var entries: seq<ExecutionReport>

    ghost predicate Valid()
      reads this
    {
      |entries| <= capacity
    }

    constructor (capacity: nat)
      ensures this.capacity == capacity && entries == [] && Valid()
    {
      this.capacity := capacity;
      entries := [];
    }

    method Clear()
      modifies this
      ensures entries == [] && Valid()
    {
      entries := [];
    }

    method Push(report: ExecutionReport) returns (ok: bool)
      requires Valid()
      modifies this
      ensures Valid()
      ensures ok <==> old(|entries|) < capacity
      ensures entries == if ok then old(entries) + [report] else old(entries)
    {
      if |entries| >= capacity {
        return false;
      }
      entries := entries + [report];
      return true;
    }
  }

  /** The report a fill of `order` produces. */
  function ReportOf(order: NewOrder, fill: Fill): ExecutionReport {
    ExecutionReport(fill.maker, order.orderId, order.instrument, fill.price, fill.quantity, order.sequence)
  }

  function ReportsOf(order: NewOrder, fills: seq<Fill>): (r: seq<ExecutionReport>)
    ensures |r| == |fills|
    ensures forall k :: 0 <= k < |r| ==> r[k] == ReportOf(order, fills[k])
  {
    seq(|fills|, k requires 0 <= k < |fills| => ReportOf(order, fills[k]))
  }
}

/** backend/analytics/views.py: `dashboard_overview`, the fleet-wide counts. */
module AnalyticsViews {
  import opened MachineModels
  import opened MaintenanceModels
  import MaintenanceViews
  import Seqs

  datatype HealthCounts = HealthCounts(green: nat, yellow: nat, red: nat, critical: nat)

  datatype Overview = Overview(
    totalMachines: nat, operational: nat, underMaintenance: nat, down: nat,
    healthStatus: HealthCounts,
    pendingWorkOrders: nat, inProgressWorkOrders: nat, completedWorkOrders: nat,
    lowStockParts: nat)

  /** The health status of each machine, in order. */
  function HealthsOf(machines: seq<Machine>, today: int, now: int): (r: seq<HealthStatus>)
    reads machines
    ensures |r| == |machines|
    ensures forall i :: 0 <= i < |machines| ==> r[i] == machines[i].GetHealthStatus(today, now)
  {
    seq(|machines|, i requires 0 <= i < |machines| reads machines => machines[i].GetHealthStatus(today, now))
  }

  function HealthIs(h: HealthStatus): HealthStatus -> bool { (x: HealthStatus) => x == h }

  /** The number of machines whose health status is `h`. */
  function CountHealth(machines: seq<Machine>, h: HealthStatus, today: int, now: int): (n: nat)
    reads machines
    ensures n <= |machines|
  {
    Seqs.Count(HealthsOf(machines, today, now), HealthIs(h))
  }

  /** The four buckets the overview reports, as counts of each status. */
  function HealthCountsOf(machines: seq<Machine>, today: int, now: int): HealthCounts
    reads machines
  {
    HealthCounts(CountHealth(machines, Green, today, now), CountHealth(machines, Yellow, today, now),
                 CountHealth(machines, Red, today, now), CountHealth(machines, HealthStatus.Critical, today, now))
  }

  lemma {:induction false} HealthPartition(hs: seq<HealthStatus>)
    ensures Seqs.Count(hs, HealthIs(Green)) + Seqs.Count(hs, HealthIs(Yellow)) + Seqs.Count(hs, HealthIs(Red))
          + Seqs.Count(hs, HealthIs(HealthStatus.Critical)) + Seqs.Count(hs, HealthIs(Unknown)) == |hs|
    decreases |hs|
  {
    if hs != [] {
      HealthPartition(hs[..|hs| - 1]);
    }
  }

  /** Every machine lands in exactly one bucket, except UNKNOWN ones, which no bucket counts. */
  lemma HealthBucketsPartition(machines: seq<Machine>, today: int, now: int)
    ensures var c := HealthCountsOf(machines, today, now);
      c.green + c.yellow + c.red + c.critical + CountHealth(machines, Unknown, today, now) == |machines|
  {
    HealthPartition(HealthsOf(machines, today, now));
  }

  /** The status of each work order, in order. */
  function OrderStatusesOf(orders: seq<WorkOrder>): (r: seq<WorkOrderStatus>)
    reads orders
    ensures |r| == |orders|
    ensures forall i :: 0 <= i < |orders| ==> r[i] == orders[i].status
  {
    seq(|orders|, i requires 0 <= i < |orders| reads orders => orders[i].status)
  }

  function OrderStatusIs(s: WorkOrderStatus): WorkOrderStatus -> bool { (x: WorkOrderStatus) => x == s }

  /** `work_orders.filter(status=...).count()` */
  function CountOrders(orders: seq<WorkOrder>, s: WorkOrderStatus): (n: nat)
    reads orders
    ensures n <= |orders|
  {
    Seqs.Count(OrderStatusesOf(orders), OrderStatusIs(s))
  }

  lemma {:induction false} OrderStatusPartition(ss: seq<WorkOrderStatus>)
    ensures Seqs.Count(ss, OrderStatusIs(Pending)) + Seqs.Count(ss, OrderStatusIs(InProgress))
          + Seqs.Count(ss, OrderStatusIs(Completed)) + Seqs.Count(ss, OrderStatusIs(Cancelled)) == |ss|
    decreases |ss|
  {
    if ss != [] {
      OrderStatusPartition(ss[..|ss| - 1]);
    }
  }

  /** Pending, in progress and completed orders together are at most all orders
      (CANCELLED ones are not reported). */
  lemma OrderCountsBounded(orders: seq<WorkOrder>)
    ensures CountOrders(orders, Pending) + CountOrders(orders, InProgress) + CountOrders(orders, Completed)
            + CountOrders(orders, Cancelled) == |orders|
  {
    OrderStatusPartition(OrderStatusesOf(orders));
  }

  /** `dashboard_overview`: the loop over machines fills the health buckets;
      the other figures are counts of the three tables. */
  method DashboardOverview(machines: seq<Machine>, orders: seq<WorkOrder>, parts: seq<SparePart>,
                           today: int, now: int) returns (r: Overview)
    ensures r.healthStatus == HealthCountsOf(machines, today, now)
    ensures r.healthStatus.green + r.healthStatus.yellow + r.healthStatus.red + r.healthStatus.critical
            <= r.totalMachines == |machines|
    ensures r.operational == CountStatus(machines, Operational)
    ensures r.underMaintenance == CountStatus(machines, UnderMaintenance)
    ensures r.down == CountStatus(machines, Down)
    ensures r.pendingWorkOrders == CountOrders(orders, Pending)
    ensures r.inProgressWorkOrders == CountOrders(orders, InProgress)
    ensures r.completedWorkOrders == CountOrders(orders, Completed)
    ensures r.lowStockParts == |MaintenanceViews.LowStockParts(parts)|
  {
    var counts := HealthCounts(0, 0, 0, 0);
    for i := 0 to |machines|
      invariant counts == HealthCountsOf(machines[..i], today, now)
    {
      var status := machines[i].GetHealthStatus(today, now);
      assert HealthsOf(machines[..i + 1], today, now) == HealthsOf(machines[..i], today, now) + [status];
      if status == Green {
        counts := counts.(green := counts.green + 1);
      } else if status == Yellow {
        counts := counts.(yellow := counts.yellow + 1);
      } else if status == Red {
        counts := counts.(red := counts.red + 1);
      } else if status == HealthStatus.Critical {
        counts := counts.(critical := counts.critical + 1);
      }
    }
    assert machines[..|machines|] == machines;
    HealthBucketsPartition(machines, today, now);
    r := Overview(|machines|, CountStatus(machines, Operational), CountStatus(machines, UnderMaintenance),
                  CountStatus(machines, Down), counts,
                  CountOrders(orders, Pending), CountOrders(orders, InProgress), CountOrders(orders, Completed),
                  |MaintenanceViews.LowStockParts(parts)|);
  }
}

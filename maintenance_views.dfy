/** backend/maintenance/views.py: the work-order actions (start, complete, add
    parts) and the spare-part actions (low-stock list, restock). */
module MaintenanceViews {
  import opened Wrappers
  import opened MaintenanceModels
  import MachineModels

  /** The JSON reply of an action: a message and the new status, or a 400 error. */
  datatype ActionResult = Done(message: string, status: WorkOrderStatus) | BadRequest(error: string)

  const AlreadyStartedError: string := "Work order already started or completed"
  const AlreadyCompletedError: string := "Work order already completed"

  // ---------------------------------------------------------------------------
  // The work-order life cycle as a state machine

  datatype Action = Start | Complete

  /** The status an action moves an order to, or None when the action is refused
      (a refused action leaves the order as it was). */
  function Step(s: WorkOrderStatus, a: Action): Option<WorkOrderStatus>
  {
    match a
    case Start => if s == Pending then Some(InProgress) else None
    case Complete => if s == Completed then None else Some(Completed)
  }

  /** The status after a sequence of start / complete requests. */
  function Run(s: WorkOrderStatus, actions: seq<Action>): WorkOrderStatus
    decreases |actions|
  {
    if actions == [] then s else Run(Step(s, actions[0]).GetOr(s), actions[1..])
  }

  /** How many of the requests were start requests that succeeded. */
  function StartsAccepted(s: WorkOrderStatus, actions: seq<Action>): nat
    decreases |actions|
  {
    if actions == [] then 0
    else
      (if actions[0] == Start && Step(s, Start).Some? then 1 else 0)
      + StartsAccepted(Step(s, actions[0]).GetOr(s), actions[1..])
  }

  /** Neither action ever produces CANCELLED (or PENDING): an order that is not
      cancelled never becomes cancelled through them. */
  lemma {:induction false} RunNeverCancels(s: WorkOrderStatus, actions: seq<Action>)
    requires s != Cancelled
    ensures Run(s, actions) != Cancelled
    decreases |actions|
  {
    if actions != [] {
      RunNeverCancels(Step(s, actions[0]).GetOr(s), actions[1..]);
    }
  }

  /** COMPLETED is final for the two actions: no later start or complete
      request changes a COMPLETED order. */
  lemma {:induction false} CompletedIsFinal(actions: seq<Action>)
    ensures Run(Completed, actions) == Completed
    decreases |actions|
  {
    if actions != [] {
      CompletedIsFinal(actions[1..]);
    }
  }

  /** An order is started at most once, and only if it was PENDING. */
  lemma {:induction false} StartedAtMostOnce(s: WorkOrderStatus, actions: seq<Action>)
    ensures StartsAccepted(s, actions) <= (if s == Pending then 1 else 0)
    decreases |actions|
  {
    if actions != [] {
      StartedAtMostOnce(Step(s, actions[0]).GetOr(s), actions[1..]);
    }
  }

  // ---------------------------------------------------------------------------
  // start_work and complete_work

  /** `start_work`: only a PENDING order starts; it becomes IN_PROGRESS with a
      start time, and its machine goes UNDER_MAINTENANCE. */
  method StartWork(wo: WorkOrder, now: int) returns (r: ActionResult)
    modifies wo`status, wo`startedAt, wo.machine`status
    ensures r.Done? <==> old(wo.status) == Pending
    ensures r.Done? ==> Step(old(wo.status), Start) == Some(wo.status)
    ensures old(wo.status) != Pending ==>
      r == BadRequest(AlreadyStartedError) && wo.status == old(wo.status) &&
      wo.startedAt == old(wo.startedAt) && wo.machine.status == old(wo.machine.status)
    ensures old(wo.status) == Pending ==>
      r == Done("Work order started", InProgress) && wo.status == InProgress &&
      wo.startedAt == Some(now) && wo.machine.status == MachineModels.UnderMaintenance
  {
    if wo.status != Pending {
      return BadRequest(AlreadyStartedError);
    }
    wo.status := InProgress;
    wo.startedAt := Some(now);
    wo.machine.status := MachineModels.UnderMaintenance;
    r := Done("Work order started", wo.status);
  }

  /** The optional fields of a completion request. */
  datatype CompletionData = CompletionData(completionNotes: Option<string>, laborHours: Option<real>, laborCost: Option<int>)

  /** `complete_work`: every order that is not yet COMPLETED (PENDING,
      IN_PROGRESS or CANCELLED) becomes COMPLETED; absent labour figures keep
      their values, absent notes become empty; the machine becomes OPERATIONAL,
      maintained today, and next due today plus its frequency. */
  method CompleteWork(wo: WorkOrder, data: CompletionData, now: int, today: int) returns (r: ActionResult)
    modifies wo`status, wo`completedAt, wo`completionNotes, wo`laborHours, wo`laborCost
    modifies wo.machine`status, wo.machine`lastMaintenanceDate, wo.machine`nextMaintenanceDate
    ensures r.Done? <==> old(wo.status) != Completed
    ensures r.Done? ==> Step(old(wo.status), Complete) == Some(wo.status)
    ensures old(wo.status) == Completed ==>
      r == BadRequest(AlreadyCompletedError) && unchanged(wo) && unchanged(wo.machine)
    ensures old(wo.status) != Completed ==>
      r == Done("Work order completed", Completed) && wo.status == Completed &&
      wo.completedAt == Some(now) &&
      wo.completionNotes == data.completionNotes.GetOr("") &&
      wo.laborHours == data.laborHours.GetOr(old(wo.laborHours)) &&
      wo.laborCost == data.laborCost.GetOr(old(wo.laborCost)) &&
      wo.TotalCost() == wo.laborCost + old(wo.partsCost) &&
      wo.machine.status == MachineModels.Operational &&
      wo.machine.lastMaintenanceDate == Some(today) &&
      wo.machine.nextMaintenanceDate == Some(today + wo.machine.maintenanceFrequencyDays)
  {
    if wo.status == Completed {
      return BadRequest(AlreadyCompletedError);
    }
    wo.status := Completed;
    wo.completedAt := Some(now);
    wo.completionNotes := data.completionNotes.GetOr("");
    wo.laborHours := data.laborHours.GetOr(wo.laborHours);
    wo.laborCost := data.laborCost.GetOr(wo.laborCost);
    var machine := wo.machine;
    machine.status := MachineModels.Operational;
    machine.lastMaintenanceDate := Some(today);
    machine.CalculateNextMaintenance();
    r := Done("Work order completed", wo.status);
  }

  // ---------------------------------------------------------------------------
  // add_parts

  /** One entry of the request's `parts` list: data the usage serializer accepts
      (an existing part and an integer quantity), or data it rejects. */
  datatype PartRequest = UsageData(sparePart: SparePart, quantityUsed: int) | InvalidUsageData(errors: string)

  datatype AddPartsResult = PartsAdded(created: seq<SparePartUsage>) | PartsRejected(errors: string) | ServerError

  function PartsOf(reqs: seq<PartRequest>): set<SparePart>
  {
    set i | 0 <= i < |reqs| && reqs[i].UsageData? :: reqs[i].sparePart
  }

  /** How many entries come before the first invalid one. */
  function ValidPrefixLength(reqs: seq<PartRequest>): (n: nat)
    ensures n <= |reqs|
    ensures forall k :: 0 <= k < n ==> reqs[k].UsageData?
    ensures n < |reqs| ==> reqs[n].InvalidUsageData?
  {
    if reqs == [] || reqs[0].InvalidUsageData? then 0 else 1 + ValidPrefixLength(reqs[1..])
  }

  /** `used` are the usages of `wo` saved for the first |used| requests, in order. */
  ghost predicate Records(used: seq<SparePartUsage>, reqs: seq<PartRequest>, wo: WorkOrder)
  {
    |used| <= |reqs| &&
    forall k :: 0 <= k < |used| ==>
      reqs[k].UsageData? && used[k].workOrder == wo &&
      used[k].sparePart == reqs[k].sparePart && used[k].quantityUsed == reqs[k].quantityUsed
  }

  /** A usage saved for the next request extends the record by one. */
  lemma RecordsSnoc(used: seq<SparePartUsage>, u: SparePartUsage, reqs: seq<PartRequest>, wo: WorkOrder)
    requires Records(used, reqs, wo) && |used| < |reqs| && reqs[|used|].UsageData?
    requires u.workOrder == wo && u.sparePart == reqs[|used|].sparePart && u.quantityUsed == reqs[|used|].quantityUsed
    ensures Records(used + [u], reqs, wo)
  {
  }

  /** The loop of `add_parts`: saves the entries in order and stops at the first
      invalid one. What was saved before it stays saved. */
  method SaveRequestedParts(wo: WorkOrder, reqs: seq<PartRequest>) returns (created: seq<SparePartUsage>, rejected: Option<string>)
    requires wo.Valid()
    modifies wo`partsUsed, PartsOf(reqs)`quantityInStock
    ensures wo.Valid()
    ensures |created| == ValidPrefixLength(reqs) && Records(created, reqs, wo)
    ensures forall k :: 0 <= k < |created| ==> fresh(created[k]) && created[k].persisted
    ensures rejected == if |created| < |reqs| then Some(reqs[|created|].errors) else None
    ensures wo.partsUsed == old(wo.partsUsed) + created
    ensures forall p :: p in PartsOf(reqs) ==>
      p.quantityInStock == old(p.quantityInStock) - QuantityTaken(created, p)
  {
    created := [];
    var i := 0;
    while i < |reqs|
      invariant 0 <= i <= |reqs| && |created| == i
      invariant forall k :: 0 <= k < i ==> reqs[k].UsageData?
      invariant wo.Valid() && Records(created, reqs, wo)
      invariant forall k :: 0 <= k < |created| ==> fresh(created[k]) && created[k].persisted
      invariant wo.partsUsed == old(wo.partsUsed) + created
      invariant forall p :: p in PartsOf(reqs) ==>
        p.quantityInStock == old(p.quantityInStock) - QuantityTaken(created, p)
    {
      match reqs[i]
      case InvalidUsageData(errors) =>
        return created, Some(errors);
      case UsageData(part, quantity) =>
        var usage := new SparePartUsage(wo, part, quantity);
        usage.Save();
        forall p | p in PartsOf(reqs)
          ensures QuantityTaken(created + [usage], p) ==
            QuantityTaken(created, p) + (if part == p then quantity else 0)
        {
          QuantityTakenSnoc(created, usage, p);
        }
        RecordsSnoc(created, usage, reqs, wo);
        created := created + [usage];
      i := i + 1;
    }
    rejected := None;
  }

  /** `add_parts` as evidently intended: after the loop, the order's parts cost
      is the cost of all its usages; a rejected entry ends the request with a
      400 before that recomputation, keeping the earlier saves. */
  method AddParts(wo: WorkOrder, reqs: seq<PartRequest>) returns (r: AddPartsResult)
    requires wo.Valid()
    modifies wo`partsUsed, wo`partsCost, PartsOf(reqs)`quantityInStock
    ensures wo.Valid()
    ensures |wo.partsUsed| == |old(wo.partsUsed)| + ValidPrefixLength(reqs)
    ensures wo.partsUsed[..|old(wo.partsUsed)|] == old(wo.partsUsed)
    ensures Records(wo.partsUsed[|old(wo.partsUsed)|..], reqs, wo)
    ensures forall p :: p in PartsOf(reqs) ==>
      p.quantityInStock == old(p.quantityInStock) - QuantityTaken(wo.partsUsed[|old(wo.partsUsed)|..], p)
    ensures ValidPrefixLength(reqs) < |reqs| ==>
      r == PartsRejected(reqs[ValidPrefixLength(reqs)].errors) && wo.partsCost == old(wo.partsCost)
    ensures ValidPrefixLength(reqs) == |reqs| ==>
      r == PartsAdded(wo.partsUsed[|old(wo.partsUsed)|..]) &&
      wo.partsCost == PartsCost(wo.partsUsed) &&
      wo.partsCost == PartsCost(old(wo.partsUsed)) + PartsCost(r.created)
  {
    var created, rejected := SaveRequestedParts(wo, reqs);
    assert wo.partsUsed[|old(wo.partsUsed)|..] == created;
    if rejected.Some? {
      return PartsRejected(rejected.value);
    }
    wo.partsCost := PartsCost(wo.partsUsed);
    PartsCostAppend(old(wo.partsUsed), created);
    r := PartsAdded(created);
  }

  /** The parts-cost expression AS WRITTEN: it subscripts each usage row
      (`p['spare_part']`), which a model instance does not support, so it raises
      a TypeError (a 500 reply) as soon as the order has any usage; only the
      empty sum evaluates. */
  function PartsCostAsWritten(usages: seq<SparePartUsage>): (c: Option<int>)
    ensures c.Some? <==> usages == []
    ensures c.Some? ==> c.value == PartsCost(usages)
  {
    if usages == [] then Some(0) else None
  }

  /** `add_parts` as written: as AddParts, except for the failing cost expression. */
  method AddPartsAsWritten(wo: WorkOrder, reqs: seq<PartRequest>) returns (r: AddPartsResult)
    requires wo.Valid()
    modifies wo`partsUsed, wo`partsCost, PartsOf(reqs)`quantityInStock
    ensures wo.Valid()
    ensures |wo.partsUsed| == |old(wo.partsUsed)| + ValidPrefixLength(reqs)
    ensures wo.partsUsed[..|old(wo.partsUsed)|] == old(wo.partsUsed)
    ensures Records(wo.partsUsed[|old(wo.partsUsed)|..], reqs, wo)
    ensures forall p :: p in PartsOf(reqs) ==>
      p.quantityInStock == old(p.quantityInStock) - QuantityTaken(wo.partsUsed[|old(wo.partsUsed)|..], p)
    ensures ValidPrefixLength(reqs) < |reqs| ==>
      r == PartsRejected(reqs[ValidPrefixLength(reqs)].errors) && wo.partsCost == old(wo.partsCost)
    ensures ValidPrefixLength(reqs) == |reqs| && wo.partsUsed != [] ==>
      r == ServerError && wo.partsCost == old(wo.partsCost)
    ensures ValidPrefixLength(reqs) == |reqs| && wo.partsUsed == [] ==>
      r == PartsAdded([]) && wo.partsCost == 0
  {
    var created, rejected := SaveRequestedParts(wo, reqs);
    assert wo.partsUsed[|old(wo.partsUsed)|..] == created;
    if rejected.Some? {
      return PartsRejected(rejected.value);
    }
    match PartsCostAsWritten(wo.partsUsed)
    case None =>
      r := ServerError;
    case Some(cost) =>
      wo.partsCost := cost;
      r := PartsAdded(created);
  }

  /** The discrepancy on a concrete request: one valid entry (2 units of a part
      costing 10.00) on a fresh order. As written the reply is a 500 while the
      usage is saved and the stock already reduced; as intended the parts cost
      becomes 20.00. */
  method AddOnePartBothWays() returns (asWritten: AddPartsResult, stockAfter: int, intended: AddPartsResult, costAfter: int)
    ensures asWritten == ServerError && stockAfter == -2
    ensures intended.PartsAdded? && costAfter == 2000
  {
    var machine := new MachineModels.Machine("M-1", "Pump", 30, None, None);
    var part := new SparePart("P-1", "Seal", 1000);
    var wo := new WorkOrder("WO-1", machine, "Replace seal", 0);
    var reqs := [UsageData(part, 2)];
    assert reqs[1..] == [];
    assert ValidPrefixLength(reqs) == 1;
    assert part in PartsOf(reqs);
    asWritten := AddPartsAsWritten(wo, reqs);
    assert wo.partsUsed[0..] == wo.partsUsed;
    assert wo.partsUsed[..0] == [];
    assert QuantityTaken(wo.partsUsed, part) == 2;
    stockAfter := part.quantityInStock;
    var wo2 := new WorkOrder("WO-2", machine, "Replace seal", 0);
    intended := AddParts(wo2, reqs);
    assert wo2.partsUsed[0..] == wo2.partsUsed;
    assert wo2.partsUsed[..0] == [];
    costAfter := wo2.partsCost;
  }

  // ---------------------------------------------------------------------------
  // Spare parts

  /** The `low_stock` filter: the parts at or below their minimum, in the order
      of `parts` (the queryset's order, by `part_name`). */
  function LowStockParts(parts: seq<SparePart>): (r: seq<SparePart>)
    reads parts
    ensures |r| <= |parts|
    ensures forall i :: 0 <= i < |r| ==> r[i] in parts && r[i].LowStock()
    ensures forall i :: 0 <= i < |parts| && parts[i].LowStock() ==> parts[i] in r
  {
    if parts == [] then []
    else
      var last := parts[|parts| - 1];
      LowStockParts(parts[..|parts| - 1]) + (if last.LowStock() then [last] else [])
  }

  /** The filter works part by part, so the low-stock parts keep their relative order. */
  lemma {:induction false} LowStockPartsAppend(a: seq<SparePart>, b: seq<SparePart>)
    ensures LowStockParts(a + b) == LowStockParts(a) + LowStockParts(b)
    decreases |b|
  {
    if b == [] {
      assert a + b == a;
    } else {
      var init := b[..|b| - 1];
      var last := b[|b| - 1];
      LowStockPartsAppend(a, init);
      assert (a + b)[..|a + b| - 1] == a + init;
      assert (a + b)[|a + b| - 1] == last;
    }
  }

  datatype RestockResult = StockUpdated(partId: string, newStock: int) | InvalidQuantity

  /** `restock`: an absent quantity counts as 0; a quantity of 0 or less is
      refused with the stock unchanged; otherwise it is added to the stock. */
  method Restock(part: SparePart, quantity: Option<int>) returns (r: RestockResult)
    modifies part`quantityInStock
    ensures quantity.GetOr(0) <= 0 ==> r == InvalidQuantity && part.quantityInStock == old(part.quantityInStock)
    ensures quantity.GetOr(0) > 0 ==>
      part.quantityInStock == old(part.quantityInStock) + quantity.value &&
      r == StockUpdated(part.partId, part.quantityInStock)
  {
    var q := quantity.GetOr(0);
    if q <= 0 {
      return InvalidQuantity;
    }
    part.quantityInStock := part.quantityInStock + q;
    r := StockUpdated(part.partId, part.quantityInStock);
  }
}

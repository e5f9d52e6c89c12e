/** backend/maintenance/models.py: work orders, spare parts and the record of a
    part used on a work order. Money (`DecimalField` with two decimal places)
    is an integer number of cents. */
module MaintenanceModels {
  import opened Wrappers
  import MachineModels

  datatype WorkOrderStatus = Pending | InProgress | Completed | Cancelled
  datatype Priority = Low | Medium | High | Critical

  const DefaultStockLevel: int := 0
  const DefaultMinimumStockLevel: int := 5

  /** `is_low_stock`: at or below the minimum counts as low. */
  predicate IsLowStock(quantityInStock: int, minimumStockLevel: int)
  {
    quantityInStock <= minimumStockLevel
  }

  class SparePart {
    const partId: string
    const partName: string
    var quantityInStock: int
    var minimumStockLevel: int
    /** Unit cost in cents. */
    const unitCost: int

    /** A new part: stock 0, minimum level 5. */
    constructor (partId: string, partName: string, unitCost: int)
      ensures this.partId == partId && this.partName == partName && this.unitCost == unitCost
      ensures quantityInStock == DefaultStockLevel && minimumStockLevel == DefaultMinimumStockLevel
      ensures LowStock()
    {
      this.partId := partId;
      this.partName := partName;
      this.unitCost := unitCost;
      quantityInStock := DefaultStockLevel;
      minimumStockLevel := DefaultMinimumStockLevel;
    }

    predicate LowStock()
      reads this
    {
      IsLowStock(quantityInStock, minimumStockLevel)
    }
  }

  class WorkOrder {
    const workOrderId: string
    const machine: MachineModels.Machine
    const title: string
    const scheduledDate: int
    const priority: Priority
    var status: WorkOrderStatus
    var startedAt: Option<int>
    var completedAt: Option<int>
    var laborHours: real
    /** Labour and parts cost in cents. */
    var laborCost: int
    var partsCost: int
    var completionNotes: string
    /** The usages recorded against this order (the reverse relation `parts_used`). */
    var partsUsed: seq<SparePartUsage>

    /** Every recorded usage points back at this order. */
    ghost predicate Valid()
      reads this
    {
      forall i :: 0 <= i < |partsUsed| ==> partsUsed[i].workOrder == this
    }

    /** A new order: PENDING, MEDIUM priority, zero costs, nothing used yet. */
    constructor (workOrderId: string, machine: MachineModels.Machine, title: string, scheduledDate: int)
      ensures Valid()
      ensures this.workOrderId == workOrderId && this.machine == machine
      ensures this.title == title && this.scheduledDate == scheduledDate
      ensures status == Pending && priority == Medium
      ensures startedAt == None && completedAt == None
      ensures laborHours == 0.0 && laborCost == 0 && partsCost == 0
      ensures completionNotes == "" && partsUsed == []
    {
      this.workOrderId := workOrderId;
      this.machine := machine;
      this.title := title;
      this.scheduledDate := scheduledDate;
      priority := Medium;
      status := Pending;
      startedAt := None;
      completedAt := None;
      laborHours := 0.0;
      laborCost := 0;
      partsCost := 0;
      completionNotes := "";
      partsUsed := [];
    }

    /** `total_cost`, in cents. */
    function TotalCost(): int
      reads this
    {
      laborCost + partsCost
    }
  }

  class SparePartUsage {
    const workOrder: WorkOrder
    const sparePart: SparePart
    const quantityUsed: int
    /** Whether the row has been inserted (Django's `_state.adding` negated). */
    var persisted: bool

    constructor (workOrder: WorkOrder, sparePart: SparePart, quantityUsed: int)
      ensures this.workOrder == workOrder && this.sparePart == sparePart
      ensures this.quantityUsed == quantityUsed && !persisted
    {
      this.workOrder := workOrder;
      this.sparePart := sparePart;
      this.quantityUsed := quantityUsed;
      persisted := false;
    }

    /** `save`: the first save inserts the row into the order's usages; every
        save, the first or a later one, takes `quantityUsed` off the part's
        stock, with no lower bound. */
    method Save()
      requires workOrder.Valid()
      modifies this`persisted, workOrder`partsUsed, sparePart`quantityInStock
      ensures persisted && workOrder.Valid()
      ensures workOrder.partsUsed ==
        if old(persisted) then old(workOrder.partsUsed) else old(workOrder.partsUsed) + [this]
      ensures sparePart.quantityInStock == old(sparePart.quantityInStock) - quantityUsed
    {
      if !persisted {
        workOrder.partsUsed := workOrder.partsUsed + [this];
        persisted := true;
      }
      sparePart.quantityInStock := sparePart.quantityInStock - quantityUsed;
    }
  }

  /** The sum of `unit_cost * quantity_used` over some usages, in cents. */
  function PartsCost(usages: seq<SparePartUsage>): int
  {
    if usages == [] then 0
    else PartsCost(usages[..|usages| - 1]) + LineCost(usages[|usages| - 1])
  }

  function LineCost(u: SparePartUsage): int
  {
    u.sparePart.unitCost * u.quantityUsed
  }

  lemma {:induction false} PartsCostAppend(a: seq<SparePartUsage>, b: seq<SparePartUsage>)
    ensures PartsCost(a + b) == PartsCost(a) + PartsCost(b)
    decreases |b|
  {
    if b == [] {
      assert a + b == a;
    } else {
      assert (a + b)[..|a + b| - 1] == a + b[..|b| - 1];
      PartsCostAppend(a, b[..|b| - 1]);
    }
  }

  /** How much of `part` some usages take off its stock. */
  function QuantityTaken(usages: seq<SparePartUsage>, part: SparePart): int
  {
    if usages == [] then 0
    else
      var last := usages[|usages| - 1];
      QuantityTaken(usages[..|usages| - 1], part) + (if last.sparePart == part then last.quantityUsed else 0)
  }

  lemma QuantityTakenSnoc(usages: seq<SparePartUsage>, u: SparePartUsage, part: SparePart)
    ensures QuantityTaken(usages + [u], part) ==
      QuantityTaken(usages, part) + (if u.sparePart == part then u.quantityUsed else 0)
  {
    assert (usages + [u])[..|usages|] == usages;
  }
}

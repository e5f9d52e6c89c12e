/** backend/machines/models.py: the Machine record, its readings, the next-due
    rule and the health classification.

    Dates are whole day numbers; reading timestamps and "now" are instants in
    microseconds. They are parameters, since the source asks the clock. */
module MachineModels {
  import opened Wrappers
  import Seqs

  datatype MachineStatus = Operational | UnderMaintenance | Down | Decommissioned

  /** What `Machine.get_health_status` returns. */
  datatype HealthStatus = Unknown | Critical | Red | Yellow | Green

  /** A recorded reading. The numeric measurements (floats) are not modelled;
      only what the health rule and the notifications look at is. */
  datatype MachineReading = MachineReading(timestamp: int, isAnomaly: bool, anomalyReason: string)

  const MicrosPerDay: int := 86_400_000_000
  /** Anomalies this many days old or newer make a machine CRITICAL. */
  const AnomalyWindowDays: int := 7
  /** A machine due within this many days (inclusive) is YELLOW. */
  const DueSoonDays: int := 7

  predicate IsRecentAnomaly(r: MachineReading, now: int)
  {
    r.isAnomaly && r.timestamp >= now - AnomalyWindowDays * MicrosPerDay
  }

  /** `readings.filter(is_anomaly=True, timestamp__gte=now - 7 days).exists()` */
  predicate HasRecentAnomaly(readings: seq<MachineReading>, now: int)
  {
    exists i :: 0 <= i < |readings| && IsRecentAnomaly(readings[i], now)
  }

  /** The decision chain of `get_health_status`: no next date first, then a
      recent anomaly, then the number of days until the due date. */
  function HealthStatusOf(next: Option<int>, today: int, recentAnomaly: bool): (h: HealthStatus)
    ensures h == Unknown <==> next.None?
    ensures next.Some? ==> (h == Critical <==> recentAnomaly)
    ensures next.Some? && !recentAnomaly ==>
      (h == Red <==> next.value - today < 0) &&
      (h == Yellow <==> 0 <= next.value - today <= DueSoonDays) &&
      (h == Green <==> next.value - today > DueSoonDays)
  {
    if next.None? then Unknown
    else
      var daysUntil := next.value - today;
      if recentAnomaly then Critical
      else if daysUntil < 0 then Red
      else if daysUntil <= DueSoonDays then Yellow
      else Green
  }

  /** How bad a status is, for the "things only get worse as time passes" lemma. */
  function Urgency(h: HealthStatus): nat
  {
    match h
    case Green => 0
    case Yellow => 1
    case Red => 2
    case Critical => 3
    case Unknown => 0
  }

  /** Without anomalies a machine's status only moves GREEN -> YELLOW -> RED as days pass. */
  lemma HealthWorsensOverTime(next: Option<int>, today: int, later: int)
    requires today <= later
    ensures Urgency(HealthStatusOf(next, today, false)) <= Urgency(HealthStatusOf(next, later, false))
  {
  }

  /** Logging one anomalous reading at `now` makes any machine with a due date CRITICAL. */
  lemma {:induction false} AnomalyMakesCritical(next: Option<int>, readings: seq<MachineReading>, r: MachineReading, today: int, now: int)
    requires next.Some? && r.isAnomaly && r.timestamp == now
    ensures HealthStatusOf(next, today, HasRecentAnomaly(readings + [r], now)) == Critical
  {
    assert IsRecentAnomaly((readings + [r])[|readings|], now);
  }

  /** Logging a normal reading does not change whether a recent anomaly exists. */
  lemma {:induction false} NormalReadingKeepsStatus(readings: seq<MachineReading>, r: MachineReading, now: int)
    requires !r.isAnomaly
    ensures HasRecentAnomaly(readings + [r], now) == HasRecentAnomaly(readings, now)
  {
    if HasRecentAnomaly(readings, now) {
      var i :| 0 <= i < |readings| && IsRecentAnomaly(readings[i], now);
      assert (readings + [r])[i] == readings[i];
    }
    if HasRecentAnomaly(readings + [r], now) {
      var i :| 0 <= i < |readings + [r]| && IsRecentAnomaly((readings + [r])[i], now);
      assert i < |readings| && readings[i] == (readings + [r])[i];
    }
  }

  class Machine {
    const machineId: string
    const machineName: string
    var status: MachineStatus
    var maintenanceFrequencyDays: int
    var lastMaintenanceDate: Option<int>
    var nextMaintenanceDate: Option<int>
    /** The machine's readings (the reverse relation `readings`). */
    var readings: seq<MachineReading>

    /** A new machine: OPERATIONAL by default, no readings yet. */
    constructor (machineId: string, machineName: string, frequencyDays: int,
                 lastMaintenanceDate: Option<int>, nextMaintenanceDate: Option<int>)
      ensures this.machineId == machineId && this.machineName == machineName
      ensures status == Operational && maintenanceFrequencyDays == frequencyDays
      ensures this.lastMaintenanceDate == lastMaintenanceDate
      ensures this.nextMaintenanceDate == nextMaintenanceDate
      ensures readings == []
    {
      this.machineId := machineId;
      this.machineName := machineName;
      status := Operational;
      maintenanceFrequencyDays := frequencyDays;
      this.lastMaintenanceDate := lastMaintenanceDate;
      this.nextMaintenanceDate := nextMaintenanceDate;
      readings := [];
    }

    /** `calculate_next_maintenance`: next due = last maintenance + frequency;
        without a last maintenance date nothing changes. */
    method CalculateNextMaintenance()
      modifies this`nextMaintenanceDate
      ensures lastMaintenanceDate.Some? ==>
        nextMaintenanceDate == Some(lastMaintenanceDate.value + maintenanceFrequencyDays)
      ensures lastMaintenanceDate.None? ==> nextMaintenanceDate == old(nextMaintenanceDate)
    {
      if lastMaintenanceDate.Some? {
        nextMaintenanceDate := Some(lastMaintenanceDate.value + maintenanceFrequencyDays);
      }
    }

    /** `get_health_status`, with the clock passed in. */
    function GetHealthStatus(today: int, now: int): HealthStatus
      reads this
    {
      HealthStatusOf(nextMaintenanceDate, today, HasRecentAnomaly(readings, now))
    }
  }

  /** The status of each machine, in order. */
  function StatusesOf(machines: seq<Machine>): (r: seq<MachineStatus>)
    reads machines
    ensures |r| == |machines|
    ensures forall i :: 0 <= i < |machines| ==> r[i] == machines[i].status
  {
    seq(|machines|, i requires 0 <= i < |machines| reads machines => machines[i].status)
  }

  function StatusIs(s: MachineStatus): MachineStatus -> bool { (x: MachineStatus) => x == s }

  /** `machines.filter(status=...).count()` */
  function CountStatus(machines: seq<Machine>, s: MachineStatus): (n: nat)
    reads machines
    ensures n <= |machines|
  {
    Seqs.Count(StatusesOf(machines), StatusIs(s))
  }

  lemma {:induction false} StatusPartition(ss: seq<MachineStatus>)
    ensures Seqs.Count(ss, StatusIs(Operational)) + Seqs.Count(ss, StatusIs(UnderMaintenance))
          + Seqs.Count(ss, StatusIs(Down)) + Seqs.Count(ss, StatusIs(Decommissioned)) == |ss|
    decreases |ss|
  {
    if ss != [] {
      StatusPartition(ss[..|ss| - 1]);
    }
  }

  /** Every machine has exactly one of the four statuses. */
  lemma StatusCountsPartition(machines: seq<Machine>)
    ensures CountStatus(machines, Operational) + CountStatus(machines, UnderMaintenance)
          + CountStatus(machines, Down) + CountStatus(machines, Decommissioned) == |machines|
  {
    StatusPartition(StatusesOf(machines));
  }
}

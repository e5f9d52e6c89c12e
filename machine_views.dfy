/** backend/machines/views.py: the machine actions that compute something —
    the health reply, the score tiers, the dashboard — the next-date rule on
    creation, and the bulk reading upload. */
module MachineViews {
  import opened Wrappers
  import opened MachineModels
  import Seqs

  /** `days_until_maintenance`: next due date minus today, or None without a due date. */
  function DaysUntilMaintenance(next: Option<int>, today: int): (d: Option<int>)
    ensures d.None? <==> next.None?
    ensures d.Some? ==> today + d.value == next.value
  {
    match next
    case None => None
    case Some(date) => Some(date - today)
  }

  /** Negative days until due is what makes a machine without anomalies RED. */
  lemma RedIffNegativeDays(m: Machine, today: int, now: int)
    requires !HasRecentAnomaly(m.readings, now)
    ensures m.GetHealthStatus(today, now) == Red <==>
      (DaysUntilMaintenance(m.nextMaintenanceDate, today).Some? &&
       DaysUntilMaintenance(m.nextMaintenanceDate, today).value < 0)
  {
  }

  // ---------------------------------------------------------------------------
  // perform_create

  /** `perform_create`: a new machine gets a computed next date only when it has
      a last maintenance date and no next date was supplied. */
  method PerformCreate(m: Machine)
    modifies m`nextMaintenanceDate
    ensures old(m.lastMaintenanceDate.Some? && m.nextMaintenanceDate.None?) ==>
      m.nextMaintenanceDate == Some(m.lastMaintenanceDate.value + m.maintenanceFrequencyDays)
    ensures !old(m.lastMaintenanceDate.Some? && m.nextMaintenanceDate.None?) ==>
      m.nextMaintenanceDate == old(m.nextMaintenanceDate)
  {
    if m.lastMaintenanceDate.Some? && m.nextMaintenanceDate.None? {
      m.CalculateNextMaintenance();
    }
  }

  // ---------------------------------------------------------------------------
  // health (the `health` action)

  datatype HealthReply = HealthReply(
    machineId: string, machineName: string, status: MachineStatus, healthStatus: HealthStatus,
    daysUntilMaintenance: Option<int>, nextMaintenanceDate: Option<int>, recentAnomalies: nat)

  function Anomalous(): MachineReading -> bool { (r: MachineReading) => r.isAnomaly }

  /** The number of anomalous readings of any age. */
  function AnomalyCount(readings: seq<MachineReading>): (n: nat)
    ensures n <= |readings|
  {
    Seqs.Count(readings, Anomalous())
  }

  /** The `health` action's reply. */
  function HealthAction(m: Machine, today: int, now: int): (r: HealthReply)
    reads m
    ensures r.healthStatus == m.GetHealthStatus(today, now)
    ensures r.daysUntilMaintenance == DaysUntilMaintenance(m.nextMaintenanceDate, today)
    ensures r.recentAnomalies == AnomalyCount(m.readings)
  {
    HealthReply(m.machineId, m.machineName, m.status, m.GetHealthStatus(today, now),
                DaysUntilMaintenance(m.nextMaintenanceDate, today), m.nextMaintenanceDate,
                AnomalyCount(m.readings))
  }

  /** Despite its name, `recent_anomalies` counts old anomalies too: a machine
      whose only anomaly is older than the CRITICAL window reports one anomaly. */
  lemma OldAnomalyStillCounted(r: MachineReading, now: int)
    requires r.isAnomaly && r.timestamp < now - AnomalyWindowDays * MicrosPerDay
    ensures AnomalyCount([r]) == 1 && !HasRecentAnomaly([r], now)
  {
    assert [r][..0] == [];
  }

  // ---------------------------------------------------------------------------
  // health-score: the tier mapping from an integer score

  const MinReadingsForScore: int := 10
  const ScoreWindowDays: int := 30
  /** The predicted date for a HEALTHY machine with no due date. */
  const DefaultPredictedDays: int := 30

  datatype ScoreTier = CriticalTier | WarningTier | HealthyTier

  datatype HealthScoreReply =
    | InsufficientData(readingsCount: nat)
    | Scored(healthScore: int, status: ScoreTier, message: string,
             scheduledMaintenance: Option<int>, predictedMaintenance: int,
             daysUntilPredicted: int, readingsAnalyzed: nat)

  function InScoreWindow(now: int): MachineReading -> bool
  {
    (r: MachineReading) => r.timestamp >= now - ScoreWindowDays * MicrosPerDay
  }

  /** Readings taken in the last 30 days. */
  function WindowReadingCount(readings: seq<MachineReading>, now: int): (n: nat)
    ensures n <= |readings|
  {
    Seqs.Count(readings, InScoreWindow(now))
  }

  /** Below 60 CRITICAL, below 80 WARNING, otherwise HEALTHY. */
  function TierOf(score: int): (t: ScoreTier)
    ensures t == CriticalTier <==> score < 60
    ensures t == WarningTier <==> 60 <= score < 80
    ensures t == HealthyTier <==> score >= 80
  {
    if score < 60 then CriticalTier else if score < 80 then WarningTier else HealthyTier
  }

  function TierMessage(t: ScoreTier): string
  {
    match t
    case CriticalTier => "Immediate maintenance recommended"
    case WarningTier => "Schedule maintenance soon"
    case HealthyTier => "Machine operating normally"
  }

  /** Days until the predicted maintenance: 3, 7, or for a healthy machine its
      frequency when it has a due date and 30 otherwise. */
  function PredictedDays(t: ScoreTier, frequencyDays: int, hasNextDate: bool): int
  {
    match t
    case CriticalTier => 3
    case WarningTier => 7
    case HealthyTier => if hasNextDate then frequencyDays else DefaultPredictedDays
  }

  /** A higher score is never a worse tier. */
  function TierRank(t: ScoreTier): nat
  {
    match t
    case CriticalTier => 0
    case WarningTier => 1
    case HealthyTier => 2
  }

  lemma TierMonotone(s1: int, s2: int)
    requires s1 <= s2
    ensures TierRank(TierOf(s1)) <= TierRank(TierOf(s2))
  {
  }

  /** The `health-score` reply for a given model score (the score itself comes
      from an outside model fitted to the readings). */
  function HealthScore(m: Machine, score: int, now: int, today: int): (r: HealthScoreReply)
    reads m
    ensures r.InsufficientData? <==> WindowReadingCount(m.readings, now) < MinReadingsForScore
    ensures r.InsufficientData? ==> r.readingsCount == WindowReadingCount(m.readings, now)
    ensures r.Scored? ==>
      r.healthScore == score && r.status == TierOf(score) &&
      r.daysUntilPredicted == PredictedDays(r.status, m.maintenanceFrequencyDays, m.nextMaintenanceDate.Some?) &&
      r.predictedMaintenance == today + r.daysUntilPredicted &&
      r.scheduledMaintenance == m.nextMaintenanceDate
  {
    var count := WindowReadingCount(m.readings, now);
    if count < MinReadingsForScore then InsufficientData(count)
    else
      var tier := TierOf(score);
      var days := PredictedDays(tier, m.maintenanceFrequencyDays, m.nextMaintenanceDate.Some?);
      Scored(score, tier, TierMessage(tier), m.nextMaintenanceDate, today + days, days, count)
  }

  /** The predicted date is 3 days out for a critical score and 7 for a warning one. */
  lemma PredictionForLowScores(m: Machine, score: int, now: int, today: int)
    requires WindowReadingCount(m.readings, now) >= MinReadingsForScore && score < 80
    ensures HealthScore(m, score, now, today).predictedMaintenance ==
      today + (if score < 60 then 3 else 7)
  {
  }

  // ---------------------------------------------------------------------------
  // dashboard

  datatype DashboardRow = DashboardRow(
    machineId: string, machineName: string, status: MachineStatus, healthStatus: HealthStatus,
    nextMaintenanceDate: Option<int>, daysUntilMaintenance: Option<int>)

  datatype Summary = Summary(totalMachines: nat, operational: nat, underMaintenance: nat, down: nat)

  function RowOf(m: Machine, today: int, now: int): DashboardRow
    reads m
  {
    DashboardRow(m.machineId, m.machineName, m.status, m.GetHealthStatus(today, now),
                 m.nextMaintenanceDate, DaysUntilMaintenance(m.nextMaintenanceDate, today))
  }

  /** The `summary` counts: DECOMMISSIONED machines are only counted in the total. */
  function SummaryOf(machines: seq<Machine>): (r: Summary)
    reads machines
    ensures r.totalMachines == |machines|
    ensures r.operational + r.underMaintenance + r.down + CountStatus(machines, Decommissioned) == r.totalMachines
  {
    StatusCountsPartition(machines);
    Summary(|machines|, CountStatus(machines, Operational), CountStatus(machines, UnderMaintenance),
            CountStatus(machines, Down))
  }

  /** The `dashboard` action: one row per machine, in order, and the summary. */
  method Dashboard(machines: seq<Machine>, today: int, now: int) returns (rows: seq<DashboardRow>, summary: Summary)
    ensures |rows| == |machines|
    ensures forall i :: 0 <= i < |machines| ==> rows[i] == RowOf(machines[i], today, now)
    ensures summary == SummaryOf(machines)
    ensures summary.operational + summary.underMaintenance + summary.down <= summary.totalMachines
  {
    rows := [];
    for i := 0 to |machines|
      invariant |rows| == i
      invariant forall k :: 0 <= k < i ==> rows[k] == RowOf(machines[k], today, now)
    {
      var m := machines[i];
      rows := rows + [DashboardRow(m.machineId, m.machineName, m.status, m.GetHealthStatus(today, now),
                                   m.nextMaintenanceDate, DaysUntilMaintenance(m.nextMaintenanceDate, today))];
    }
    summary := SummaryOf(machines);
  }

  // ---------------------------------------------------------------------------
  // bulk_log

  /** One entry of a bulk upload: the machine code it names and whether the
      reading serializer accepts the rest of it. */
  datatype BulkItem = BulkItem(machineId: string, valid: bool)

  datatype BulkError = MachineNotFound(machineId: string) | InvalidReading(machineId: string)

  datatype BulkReply = BulkReply(created: nat, failed: nat, readings: seq<BulkItem>,
                                 errors: seq<BulkError>, httpStatus: int)

  const HttpCreated: int := 201
  const HttpBadRequest: int := 400

  predicate IsKnown(machines: seq<Machine>, machineId: string)
  {
    exists i :: 0 <= i < |machines| && machines[i].machineId == machineId
  }

  predicate IsAccepted(machines: seq<Machine>, item: BulkItem)
  {
    IsKnown(machines, item.machineId) && item.valid
  }

  function AcceptedBy(machines: seq<Machine>): BulkItem -> bool
  {
    item => IsAccepted(machines, item)
  }

  function RejectedBy(machines: seq<Machine>): BulkItem -> bool
  {
    item => !IsAccepted(machines, item)
  }

  function ErrorOf(machines: seq<Machine>): BulkItem -> BulkError
  {
    (item: BulkItem) => if IsKnown(machines, item.machineId) then InvalidReading(item.machineId) else MachineNotFound(item.machineId)
  }

  /** `bulk_log`: every entry is either created or reported as an error; the
      reply is 201 when at least one was created and 400 otherwise. */
  method BulkLog(machines: seq<Machine>, items: seq<BulkItem>) returns (reply: BulkReply)
    ensures reply.readings == Seqs.Filter(items, AcceptedBy(machines))
    ensures reply.errors == Seqs.Map(Seqs.Filter(items, RejectedBy(machines)), ErrorOf(machines))
    ensures reply.created == |reply.readings| && reply.failed == |reply.errors|
    ensures reply.created + reply.failed == |items|
    ensures reply.httpStatus == if reply.created > 0 then HttpCreated else HttpBadRequest
  {
    var created: seq<BulkItem> := [];
    var errors: seq<BulkError> := [];
    ghost var rejected: seq<BulkItem> := [];
    for i := 0 to |items|
      invariant created == Seqs.Filter(items[..i], AcceptedBy(machines))
      invariant rejected == Seqs.Filter(items[..i], RejectedBy(machines))
      invariant errors == Seqs.Map(rejected, ErrorOf(machines))
    {
      var item := items[i];
      Seqs.FilterSnoc(items, i, AcceptedBy(machines));
      Seqs.FilterSnoc(items, i, RejectedBy(machines));
      Seqs.MapSnoc(rejected, item, ErrorOf(machines));
      if IsKnown(machines, item.machineId) {
        if item.valid {
          created := created + [item];
        } else {
          errors := errors + [InvalidReading(item.machineId)];
          rejected := rejected + [item];
        }
      } else {
        errors := errors + [MachineNotFound(item.machineId)];
        rejected := rejected + [item];
      }
    }
    assert items[..|items|] == items;
    Seqs.FilterLengthIsCount(items, AcceptedBy(machines));
    Seqs.FilterLengthIsCount(items, RejectedBy(machines));
    Seqs.CountPartition(items, AcceptedBy(machines), RejectedBy(machines));
    reply := BulkReply(|created|, |errors|, created, errors,
                       if |created| > 0 then HttpCreated else HttpBadRequest);
  }
}

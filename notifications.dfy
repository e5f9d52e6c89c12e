/** backend/analytics/notifications.py: `get_notifications` builds one list
    from five queries (overdue machines, machines due soon, anomalies of the
    last 24 hours, low-stock parts, pending work orders that are due), sorts it
    by severity rank and timestamp with `reverse=True`, and counts it by
    severity. The query results are the `.values()` rows below. */
module Notifications {
  import opened Wrappers
  import Seqs

  // ---------------------------------------------------------------------------
  // Rows returned by the five queries

  datatype MachineRow = MachineRow(machineId: string, machineName: string, nextMaintenanceDate: Option<int>)
  datatype ReadingRow = ReadingRow(machineId: string, machineName: string, isAnomaly: bool,
                                   anomalyReason: string, timestamp: int)
  datatype PartRow = PartRow(partId: string, partName: string, quantityInStock: int, minimumStockLevel: int)
  datatype WorkOrderRow = WorkOrderRow(workOrderId: string, machineId: string, title: string,
                                       status: string, scheduledDate: int)

  // ---------------------------------------------------------------------------
  // Notifications

  datatype NotificationType = OverdueMaintenance | UpcomingMaintenance | AnomalyDetected | LowStock | PendingWorkOrder

  datatype Severity = Critical | High | Medium | Low

  /** What the notification is about: the key the source adds besides the common ones. */
  datatype Subject = MachineSubject(machineId: string) | PartSubject(partId: string) | WorkOrderSubject(workOrderId: string)

  /** The message, kept as the values interpolated into it. */
  datatype Detail =
    | OverdueBy(machineName: string, daysOverdue: int)
    | DueIn(machineName: string, daysUntil: int)
    | Reason(anomalyReason: string)
    | StockLevel(quantityInStock: int, minimumStockLevel: int)
    | ScheduledOn(title: string, machineId: string, scheduledDate: int)

  /** One notification; `timestamp` is the instant whose ISO form the source emits. */
  datatype Notification = Notification(kind: NotificationType, severity: Severity, title: string,
                                       message: Detail, subject: Subject, timestamp: int)

  datatype NotificationsReply = NotificationsReply(total: nat, critical: nat, high: nat, medium: nat,
                                                   notifications: seq<Notification>)

  const PendingStatus: string := "PENDING"
  const DueSoonDays: int := 3
  const AnomalyWindowMicros: int := 24 * 3600 * 1_000_000

  /** The severity each notification type is given. */
  function SeverityOf(kind: NotificationType): (s: Severity)
    ensures s != Low
  {
    match kind
    case OverdueMaintenance => High
    case UpcomingMaintenance => Medium
    case AnomalyDetected => Critical
    case LowStock => Medium
    case PendingWorkOrder => Medium
  }

  predicate WellTyped(n: Notification)
  {
    n.severity == SeverityOf(n.kind)
  }

  // ---------------------------------------------------------------------------
  // The query filters

  predicate IsOverdue(m: MachineRow, today: int)
  {
    m.nextMaintenanceDate.Some? && m.nextMaintenanceDate.value < today
  }

  predicate IsDueSoon(m: MachineRow, today: int)
  {
    m.nextMaintenanceDate.Some? && today <= m.nextMaintenanceDate.value <= today + DueSoonDays
  }

  predicate IsRecentAnomaly(r: ReadingRow, now: int)
  {
    r.isAnomaly && r.timestamp >= now - AnomalyWindowMicros
  }

  predicate IsLowStockRow(p: PartRow)
  {
    p.quantityInStock <= p.minimumStockLevel
  }

  predicate IsPendingDue(w: WorkOrderRow, today: int)
  {
    w.status == PendingStatus && w.scheduledDate <= today
  }

  function OverdueOn(today: int): MachineRow -> bool { m => IsOverdue(m, today) }
  function DueSoonOn(today: int): MachineRow -> bool { m => IsDueSoon(m, today) }
  function AnomalousSince(now: int): ReadingRow -> bool { r => IsRecentAnomaly(r, now) }
  function LowStockPart(): PartRow -> bool { p => IsLowStockRow(p) }
  function PendingDueOn(today: int): WorkOrderRow -> bool { w => IsPendingDue(w, today) }

  /** Overdue and due soon never both hold, and a machine without a due date is neither. */
  lemma OverdueAndDueSoonDisjoint(m: MachineRow, today: int)
    ensures !(IsOverdue(m, today) && IsDueSoon(m, today))
    ensures m.nextMaintenanceDate.None? ==> !IsOverdue(m, today) && !IsDueSoon(m, today)
  {
  }

  // ---------------------------------------------------------------------------
  // Building one notification per row

  /** The overdue notice; the days overdue are at least one for an overdue machine. */
  function OverdueNote(m: MachineRow, today: int, now: int): (n: Notification)
    ensures n.kind == OverdueMaintenance && WellTyped(n)
    ensures n.title == "Maintenance Overdue: " + m.machineId
    ensures n.message.OverdueBy? && n.message.machineName == m.machineName
    ensures IsOverdue(m, today) ==>
      n.message.daysOverdue >= 1 && today == m.nextMaintenanceDate.value + n.message.daysOverdue
    ensures n.subject == MachineSubject(m.machineId) && n.timestamp == now
  {
    Notification(OverdueMaintenance, High, "Maintenance Overdue: " + m.machineId,
                 OverdueBy(m.machineName, today - m.nextMaintenanceDate.GetOr(today)),
                 MachineSubject(m.machineId), now)
  }

  /** The due-soon notice; the days until due are 0 to 3 for a machine due soon. */
  function DueSoonNote(m: MachineRow, today: int, now: int): (n: Notification)
    ensures n.kind == UpcomingMaintenance && WellTyped(n)
    ensures n.title == "Maintenance Due Soon: " + m.machineId
    ensures n.message.DueIn? && n.message.machineName == m.machineName
    ensures IsDueSoon(m, today) ==>
      0 <= n.message.daysUntil <= DueSoonDays && today + n.message.daysUntil == m.nextMaintenanceDate.value
    ensures n.subject == MachineSubject(m.machineId) && n.timestamp == now
  {
    Notification(UpcomingMaintenance, Medium, "Maintenance Due Soon: " + m.machineId,
                 DueIn(m.machineName, m.nextMaintenanceDate.GetOr(today) - today),
                 MachineSubject(m.machineId), now)
  }

  /** An anomaly notification carries the reading's own timestamp, not the request time. */
  function AnomalyNote(r: ReadingRow): (n: Notification)
    ensures n.kind == AnomalyDetected && WellTyped(n)
    ensures n.title == "Anomaly Detected: " + r.machineId
    ensures n.message == Reason(r.anomalyReason)
    ensures n.subject == MachineSubject(r.machineId) && n.timestamp == r.timestamp
  {
    Notification(AnomalyDetected, Critical, "Anomaly Detected: " + r.machineId,
                 Reason(r.anomalyReason), MachineSubject(r.machineId), r.timestamp)
  }

  function LowStockNote(p: PartRow, now: int): (n: Notification)
    ensures n.kind == LowStock && WellTyped(n)
    ensures n.title == "Low Stock: " + p.partName
    ensures n.message == StockLevel(p.quantityInStock, p.minimumStockLevel)
    ensures n.subject == PartSubject(p.partId) && n.timestamp == now
  {
    Notification(LowStock, Medium, "Low Stock: " + p.partName,
                 StockLevel(p.quantityInStock, p.minimumStockLevel), PartSubject(p.partId), now)
  }

  function PendingNote(w: WorkOrderRow, now: int): (n: Notification)
    ensures n.kind == PendingWorkOrder && WellTyped(n)
    ensures n.title == "Pending Work Order: " + w.workOrderId
    ensures n.message == ScheduledOn(w.title, w.machineId, w.scheduledDate)
    ensures n.subject == WorkOrderSubject(w.workOrderId) && n.timestamp == now
  {
    Notification(PendingWorkOrder, Medium, "Pending Work Order: " + w.workOrderId,
                 ScheduledOn(w.title, w.machineId, w.scheduledDate), WorkOrderSubject(w.workOrderId), now)
  }


  /** The note builders of the five loops. Each takes the position the note
      gets in the list; `clock(p)` is what `timezone.now()` returns while the
      note at position `p` is built. An anomaly note reads no clock. */
  function OverdueNoteAt(today: int, clock: nat -> int): (f: (MachineRow, nat) -> Notification)
    ensures forall m: MachineRow, p: nat :: f(m, p) == OverdueNote(m, today, clock(p))
  {
    (m: MachineRow, p: nat) => OverdueNote(m, today, clock(p))
  }

  function DueSoonNoteAt(today: int, clock: nat -> int): (f: (MachineRow, nat) -> Notification)
    ensures forall m: MachineRow, p: nat :: f(m, p) == DueSoonNote(m, today, clock(p))
  {
    (m: MachineRow, p: nat) => DueSoonNote(m, today, clock(p))
  }

  function AnomalyNoteOf(): (f: (ReadingRow, nat) -> Notification)
    ensures forall r: ReadingRow, p: nat :: f(r, p) == AnomalyNote(r)
  {
    (r: ReadingRow, p: nat) => AnomalyNote(r)
  }

  function LowStockNoteAt(clock: nat -> int): (f: (PartRow, nat) -> Notification)
    ensures forall r: PartRow, p: nat :: f(r, p) == LowStockNote(r, clock(p))
  {
    (r: PartRow, p: nat) => LowStockNote(r, clock(p))
  }

  function PendingNoteAt(clock: nat -> int): (f: (WorkOrderRow, nat) -> Notification)
    ensures forall w: WorkOrderRow, p: nat :: f(w, p) == PendingNote(w, clock(p))
  {
    (w: WorkOrderRow, p: nat) => PendingNote(w, clock(p))
  }

  /** A clock that moves forward between any two readings. */
  ghost predicate Ticking(clock: nat -> int)
  {
    forall p, q :: 0 <= p < q ==> clock(p) < clock(q)
  }

  /** One loop: a note per row appended in row order, each built at the
      position it takes. */
  function Appended<R>(notes: seq<Notification>, rows: seq<R>, note: (R, nat) -> Notification): seq<Notification>
  {
    notes + Seqs.MapFrom(rows, |notes|, note)
  }

  /** The list after each of the five loops, in the order they run. */
  function AfterOverdue(machines: seq<MachineRow>, today: int, clock: nat -> int): seq<Notification>
  {
    Appended([], Seqs.Filter(machines, OverdueOn(today)), OverdueNoteAt(today, clock))
  }

  function AfterDueSoon(machines: seq<MachineRow>, today: int, clock: nat -> int): seq<Notification>
  {
    Appended(AfterOverdue(machines, today, clock), Seqs.Filter(machines, DueSoonOn(today)), DueSoonNoteAt(today, clock))
  }

  function AfterAnomalies(machines: seq<MachineRow>, readings: seq<ReadingRow>, today: int, now: int,
                          clock: nat -> int): seq<Notification>
  {
    Appended(AfterDueSoon(machines, today, clock), Seqs.Filter(readings, AnomalousSince(now)), AnomalyNoteOf())
  }

  function AfterLowStock(machines: seq<MachineRow>, readings: seq<ReadingRow>, parts: seq<PartRow>,
                         today: int, now: int, clock: nat -> int): seq<Notification>
  {
    Appended(AfterAnomalies(machines, readings, today, now, clock), Seqs.Filter(parts, LowStockPart()),
             LowStockNoteAt(clock))
  }

  /** The list before sorting. `today` and `now` are the readings taken for the
      query filters. */
  function Generated(machines: seq<MachineRow>, readings: seq<ReadingRow>, parts: seq<PartRow>,
                     orders: seq<WorkOrderRow>, today: int, now: int, clock: nat -> int): seq<Notification>
  {
    Appended(AfterLowStock(machines, readings, parts, today, now, clock), Seqs.Filter(orders, PendingDueOn(today)),
             PendingNoteAt(clock))
  }

  predicate AllWellTyped(s: seq<Notification>)
  {
    forall i :: 0 <= i < |s| ==> WellTyped(s[i])
  }

  lemma {:induction false} AppendedWellTyped<R>(notes: seq<Notification>, rows: seq<R>, note: (R, nat) -> Notification)
    requires AllWellTyped(notes)
    requires forall r, p :: WellTyped(note(r, p))
    ensures AllWellTyped(Appended(notes, rows, note))
  {
  }

  /** Every generated notification has the severity of its type. */
  lemma {:induction false} GeneratedWellTyped(machines: seq<MachineRow>, readings: seq<ReadingRow>, parts: seq<PartRow>,
                           orders: seq<WorkOrderRow>, today: int, now: int, clock: nat -> int)
    ensures AllWellTyped(Generated(machines, readings, parts, orders, today, now, clock))
  {
    AppendedWellTyped([], Seqs.Filter(machines, OverdueOn(today)), OverdueNoteAt(today, clock));
    AppendedWellTyped(AfterOverdue(machines, today, clock), Seqs.Filter(machines, DueSoonOn(today)),
                      DueSoonNoteAt(today, clock));
    AppendedWellTyped(AfterDueSoon(machines, today, clock), Seqs.Filter(readings, AnomalousSince(now)),
                      AnomalyNoteOf());
    AppendedWellTyped(AfterAnomalies(machines, readings, today, now, clock), Seqs.Filter(parts, LowStockPart()),
                      LowStockNoteAt(clock));
    AppendedWellTyped(AfterLowStock(machines, readings, parts, today, now, clock),
                      Seqs.Filter(orders, PendingDueOn(today)), PendingNoteAt(clock));
  }

  /** Every notification except an anomaly one carries the clock reading of its position. */
  predicate Stamped(s: seq<Notification>, clock: nat -> int)
  {
    forall p :: 0 <= p < |s| && s[p].kind != AnomalyDetected ==> s[p].timestamp == clock(p)
  }

  lemma {:induction false} AppendedStamped<R>(notes: seq<Notification>, rows: seq<R>, note: (R, nat) -> Notification,
                           clock: nat -> int)
    requires Stamped(notes, clock)
    requires forall r, p :: note(r, p).kind == AnomalyDetected || note(r, p).timestamp == clock(p)
    ensures Stamped(Appended(notes, rows, note), clock)
  {
    var s := Appended(notes, rows, note);
    forall p | 0 <= p < |s| && s[p].kind != AnomalyDetected
      ensures s[p].timestamp == clock(p)
    {
      if p >= |notes| {
        assert s[p] == note(rows[p - |notes|], p);
      }
    }
  }

  lemma {:induction false} GeneratedStamped(machines: seq<MachineRow>, readings: seq<ReadingRow>, parts: seq<PartRow>,
                         orders: seq<WorkOrderRow>, today: int, now: int, clock: nat -> int)
    ensures Stamped(Generated(machines, readings, parts, orders, today, now, clock), clock)
  {
    AppendedStamped([], Seqs.Filter(machines, OverdueOn(today)), OverdueNoteAt(today, clock), clock);
    AppendedStamped(AfterOverdue(machines, today, clock), Seqs.Filter(machines, DueSoonOn(today)),
                    DueSoonNoteAt(today, clock), clock);
    AppendedStamped(AfterDueSoon(machines, today, clock), Seqs.Filter(readings, AnomalousSince(now)),
                    AnomalyNoteOf(), clock);
    AppendedStamped(AfterAnomalies(machines, readings, today, now, clock), Seqs.Filter(parts, LowStockPart()),
                    LowStockNoteAt(clock), clock);
    AppendedStamped(AfterLowStock(machines, readings, parts, today, now, clock),
                    Seqs.Filter(orders, PendingDueOn(today)), PendingNoteAt(clock), clock);
  }

  // ---------------------------------------------------------------------------
  // The sort: key (rank, timestamp), descending, stable

  /** 'CRITICAL': 0, 'HIGH': 1, 'MEDIUM': 2, 'LOW': 3. */
  function Rank(s: Severity): nat
  {
    match s
    case Critical => 0
    case High => 1
    case Medium => 2
    case Low => 3
  }

  datatype SortKey = SortKey(rank: nat, timestamp: int)

  function KeyOf(n: Notification): SortKey
  {
    SortKey(Rank(n.severity), n.timestamp)
  }

  /** The tuple order on sort keys. */
  predicate KeyBelow(a: SortKey, b: SortKey)
  {
    a.rank < b.rank || (a.rank == b.rank && a.timestamp < b.timestamp)
  }

  predicate Below(a: Notification, b: Notification)
  {
    KeyBelow(KeyOf(a), KeyOf(b))
  }

  /** Non-increasing keys: what `sort(reverse=True)` produces. */
  predicate Descending(s: seq<Notification>)
  {
    forall i, j :: 0 <= i < j < |s| ==> !Below(s[i], s[j])
  }

  /** Places `x` in front of the first element whose key is not above its own;
      `x` thus precedes every element of equal key. */
  function Insert(x: Notification, s: seq<Notification>): (r: seq<Notification>)
    ensures |r| == |s| + 1
  {
    if s == [] then [x]
    else if !Below(x, s[0]) then [x] + s
    else [s[0]] + Insert(x, s[1..])
  }

  /** `list.sort(key=..., reverse=True)`: a stable sort by non-increasing key. */
  function SortBySeverity(s: seq<Notification>): (r: seq<Notification>)
    ensures |r| == |s|
  {
    if s == [] then [] else Insert(s[0], SortBySeverity(s[1..]))
  }

  lemma {:induction false} InsertDescending(x: Notification, s: seq<Notification>)
    requires Descending(s)
    ensures Descending(Insert(x, s))
    ensures s != [] ==> Insert(x, s)[0] == x || Insert(x, s)[0] == s[0]
  {
    if s == [] {
    } else if !Below(x, s[0]) {
      var r := [x] + s;
      forall i, j | 0 <= i < j < |r|
        ensures !Below(r[i], r[j])
      {
        if i == 0 {
          assert r[j] == s[j - 1];
          assert j - 1 == 0 || !Below(s[0], s[j - 1]);
        }
      }
    } else {
      InsertDescending(x, s[1..]);
      var t := Insert(x, s[1..]);
      var r := [s[0]] + t;
      forall i, j | 0 <= i < j < |r|
        ensures !Below(r[i], r[j])
      {
        if i == 0 {
          if r[j] == x {
          } else {
            assert r[j] in s[1..] by { InsertElements(x, s[1..]); }
          }
        }
      }
    }
  }

  /** Every element of `Insert(x, s)` is `x` or an element of `s`. */
  lemma {:induction false} InsertElements(x: Notification, s: seq<Notification>)
    ensures multiset(Insert(x, s)) == multiset{x} + multiset(s)
    ensures forall y :: y in Insert(x, s) ==> y == x || y in s
  {
    if s == [] {
    } else if !Below(x, s[0]) {
    } else {
      InsertElements(x, s[1..]);
      assert s == [s[0]] + s[1..];
      forall y | y in Insert(x, s)
        ensures y == x || y in s
      {
        if y != s[0] {
          assert y in Insert(x, s[1..]);
        }
      }
    }
  }

  /** The sorted list is in non-increasing (rank, timestamp) order: because of
      `reverse=True`, MEDIUM comes first and CRITICAL last. */
  lemma {:induction false} SortDescending(s: seq<Notification>)
    ensures Descending(SortBySeverity(s))
    decreases |s|
  {
    if s != [] {
      SortDescending(s[1..]);
      InsertDescending(s[0], SortBySeverity(s[1..]));
    }
  }

  /** So the severity rank never increases along the reply: MEDIUM before HIGH before CRITICAL. */
  lemma SortedRanksNonIncreasing(s: seq<Notification>)
    ensures var r := SortBySeverity(s);
      forall i, j :: 0 <= i < j < |r| ==> Rank(r[i].severity) >= Rank(r[j].severity)
  {
    SortDescending(s);
  }

  /** The sorted list is a permutation of the generated one. */
  lemma {:induction false} SortPermutes(s: seq<Notification>)
    ensures multiset(SortBySeverity(s)) == multiset(s)
    decreases |s|
  {
    if s != [] {
      SortPermutes(s[1..]);
      InsertElements(s[0], SortBySeverity(s[1..]));
      assert s == [s[0]] + s[1..];
    }
  }

  function KeyIs(k: SortKey): Notification -> bool { (n: Notification) => KeyOf(n) == k }

  lemma {:induction false} InsertStable(x: Notification, s: seq<Notification>, k: SortKey)
    ensures Seqs.Filter(Insert(x, s), KeyIs(k)) == Seqs.Filter([x], KeyIs(k)) + Seqs.Filter(s, KeyIs(k))
  {
    if s == [] {
      assert [x] + s == [x];
    } else if !Below(x, s[0]) {
      Seqs.FilterAppend([x], s, KeyIs(k));
    } else {
      InsertStable(x, s[1..], k);
      Seqs.FilterAppend([s[0]], Insert(x, s[1..]), KeyIs(k));
      Seqs.FilterAppend([s[0]], s[1..], KeyIs(k));
      assert s == [s[0]] + s[1..];
      if KeyOf(x) == k {
        assert [s[0]][..0] == [];
        assert Seqs.Filter([s[0]], KeyIs(k)) == [];
      }
    }
  }

  /** Stability: the notifications of any one key keep their generated order. */
  lemma {:induction false} SortStable(s: seq<Notification>, k: SortKey)
    ensures Seqs.Filter(SortBySeverity(s), KeyIs(k)) == Seqs.Filter(s, KeyIs(k))
    decreases |s|
  {
    if s != [] {
      SortStable(s[1..], k);
      InsertStable(s[0], SortBySeverity(s[1..]), k);
      Seqs.FilterAppend([s[0]], s[1..], KeyIs(k));
      assert s == [s[0]] + s[1..];
    }
  }

  /** Every element of a descending list is at most its head. */
  lemma {:induction false} HeadIsTop(s: seq<Notification>, y: Notification)
    requires Descending(s) && y in s
    ensures !Below(s[0], y)
  {
    var j :| 0 <= j < |s| && s[j] == y;
    assert j == 0 || !Below(s[0], s[j]);
  }

  /** Inserting an element the filter drops changes nothing the filter keeps. */
  lemma {:induction false} InsertFilterDropped(x: Notification, s: seq<Notification>, p: Notification -> bool)
    requires !p(x)
    ensures Seqs.Filter(Insert(x, s), p) == Seqs.Filter(s, p)
    decreases |s|
  {
    if s == [] {
      Seqs.FilterCons(x, [], p);
      assert [x] + [] == [x];
    } else if !Below(x, s[0]) {
      Seqs.FilterCons(x, s, p);
    } else {
      InsertFilterDropped(x, s[1..], p);
      Seqs.FilterCons(s[0], Insert(x, s[1..]), p);
      Seqs.FilterCons(s[0], s[1..], p);
      assert [s[0]] + s[1..] == s;
    }
  }

  /** The filtered list of a descending list starts no higher than it. */
  lemma FilterHeadBelowTop(x: Notification, s: seq<Notification>, p: Notification -> bool)
    requires Descending(s) && s != [] && !Below(x, s[0])
    ensures Seqs.Filter(s, p) != [] ==> !Below(x, Seqs.Filter(s, p)[0])
  {
    var f := Seqs.Filter(s, p);
    if f != [] {
      Seqs.FilterMembers(s, p);
      HeadIsTop(s, f[0]);
    }
  }

  /** The step of `InsertFilterKept` where `x` goes further in than the head. */
  lemma InsertFilterKeptStep(x: Notification, s: seq<Notification>, p: Notification -> bool)
    requires s != [] && Below(x, s[0]) && p(x)
    requires Seqs.Filter(Insert(x, s[1..]), p) == Insert(x, Seqs.Filter(s[1..], p))
    ensures Seqs.Filter(Insert(x, s), p) == Insert(x, Seqs.Filter(s, p))
  {
    var t := s[1..];
    var ft := Seqs.Filter(t, p);
    assert Insert(x, s) == [s[0]] + Insert(x, t);
    Seqs.FilterCons(s[0], Insert(x, t), p);
    Seqs.FilterCons(s[0], t, p);
    assert [s[0]] + t == s;
    if p(s[0]) {
      var f := [s[0]] + ft;
      assert f[0] == s[0] && f[1..] == ft;
      assert Insert(x, f) == [s[0]] + Insert(x, ft);
    } else {
      assert [] + ft == ft;
    }
  }

  /** Inserting into a descending list and then filtering is filtering and
      then inserting, for an element the filter keeps. */
  lemma {:induction false} InsertFilterKept(x: Notification, s: seq<Notification>, p: Notification -> bool)
    requires Descending(s) && p(x)
    ensures Seqs.Filter(Insert(x, s), p) == Insert(x, Seqs.Filter(s, p))
    decreases |s|
  {
    if s == [] {
      Seqs.FilterCons(x, [], p);
      assert [x] + [] == [x];
    } else if !Below(x, s[0]) {
      Seqs.FilterCons(x, s, p);
      FilterHeadBelowTop(x, s, p);
    } else {
      var t := s[1..];
      assert Descending(t) by {
        forall i, j | 0 <= i < j < |t|
          ensures !Below(t[i], t[j])
        {
          assert t[i] == s[i + 1] && t[j] == s[j + 1];
        }
      }
      InsertFilterKept(x, t, p);
      InsertFilterKeptStep(x, s, p);
    }
  }

  /** Sorting and filtering commute. */
  lemma {:induction false} SortFilter(s: seq<Notification>, p: Notification -> bool)
    ensures Seqs.Filter(SortBySeverity(s), p) == SortBySeverity(Seqs.Filter(s, p))
    decreases |s|
  {
    if s != [] {
      var t := s[1..];
      var ft := Seqs.Filter(t, p);
      SortFilter(t, p);
      assert SortBySeverity(s) == Insert(s[0], SortBySeverity(t));
      Seqs.FilterCons(s[0], t, p);
      assert [s[0]] + t == s;
      if p(s[0]) {
        SortDescending(t);
        InsertFilterKept(s[0], SortBySeverity(t), p);
        var f := [s[0]] + ft;
        assert f[0] == s[0] && f[1..] == ft;
        assert SortBySeverity(f) == Insert(s[0], SortBySeverity(ft));
      } else {
        InsertFilterDropped(s[0], SortBySeverity(t), p);
        assert [] + ft == ft;
      }
    }
  }

  /** `x` below every element goes to the end. */
  lemma {:induction false} InsertBelowAll(x: Notification, s: seq<Notification>)
    requires forall i :: 0 <= i < |s| ==> Below(x, s[i])
    ensures Insert(x, s) == s + [x]
    decreases |s|
  {
    if s != [] {
      InsertBelowAll(x, s[1..]);
      assert s == [s[0]] + s[1..];
    }
  }

  /** Strictly increasing keys along the list. */
  predicate Increasing(s: seq<Notification>)
  {
    forall i, j :: 0 <= i < j < |s| ==> Below(s[i], s[j])
  }

  /** A list whose keys strictly increase comes out reversed. */
  lemma {:induction false} SortIncreasing(s: seq<Notification>)
    requires Increasing(s)
    ensures SortBySeverity(s) == Seqs.Reverse(s)
    decreases |s|
  {
    if s != [] {
      var t := s[1..];
      assert Increasing(t) by {
        forall i, j | 0 <= i < j < |t|
          ensures Below(t[i], t[j])
        {
          assert t[i] == s[i + 1] && t[j] == s[j + 1];
        }
      }
      SortIncreasing(t);
      var r := Seqs.Reverse(t);
      forall i | 0 <= i < |r|
        ensures Below(s[0], r[i])
      {
        assert r[i] == s[|s| - 1 - i];
      }
      InsertBelowAll(s[0], r);
      assert SortBySeverity(s) == Insert(s[0], SortBySeverity(t));
      Seqs.ReverseCons(s);
    }
  }

  // ---------------------------------------------------------------------------
  // Counts

  function SeverityIs(sev: Severity): Notification -> bool { (n: Notification) => n.severity == sev }

  /** Without LOW notifications, the three counts add up to the total. */
  lemma {:induction false} CountsCoverAll(s: seq<Notification>)
    requires forall i :: 0 <= i < |s| ==> s[i].severity != Low
    ensures Seqs.Count(s, SeverityIs(Critical)) + Seqs.Count(s, SeverityIs(High))
            + Seqs.Count(s, SeverityIs(Medium)) == |s|
    decreases |s|
  {
    if s != [] {
      CountsCoverAll(s[..|s| - 1]);
    }
  }

  // ---------------------------------------------------------------------------
  // get_notifications

  /** One loop of `get_notifications`: appends one notification per query row,
      each built when the list has reached its position. */
  method AppendEach<R>(notes: seq<Notification>, rows: seq<R>, note: (R, nat) -> Notification)
    returns (result: seq<Notification>)
    ensures result == Appended(notes, rows, note)
  {
    result := notes;
    for i := 0 to |rows|
      invariant result == notes + Seqs.MapFrom(rows[..i], |notes|, note)
    {
      assert rows[..i + 1][..i] == rows[..i];
      result := result + [note(rows[i], |result|)];
    }
    assert rows[..|rows|] == rows;
  }

  /** The five loops of `get_notifications`, in order. */
  method CollectNotifications(machines: seq<MachineRow>, readings: seq<ReadingRow>, parts: seq<PartRow>,
                              orders: seq<WorkOrderRow>, today: int, now: int, clock: nat -> int)
    returns (notes: seq<Notification>)
    ensures notes == Generated(machines, readings, parts, orders, today, now, clock)
  {
    notes := AppendEach([], Seqs.Filter(machines, OverdueOn(today)), OverdueNoteAt(today, clock));
    assert notes == AfterOverdue(machines, today, clock);
    notes := AppendEach(notes, Seqs.Filter(machines, DueSoonOn(today)), DueSoonNoteAt(today, clock));
    assert notes == AfterDueSoon(machines, today, clock);
    notes := AppendEach(notes, Seqs.Filter(readings, AnomalousSince(now)), AnomalyNoteOf());
    assert notes == AfterAnomalies(machines, readings, today, now, clock);
    notes := AppendEach(notes, Seqs.Filter(parts, LowStockPart()), LowStockNoteAt(clock));
    assert notes == AfterLowStock(machines, readings, parts, today, now, clock);
    notes := AppendEach(notes, Seqs.Filter(orders, PendingDueOn(today)), PendingNoteAt(clock));
  }

  /** `get_notifications`: the collected list, sorted, with its counts. */
  method GetNotifications(machines: seq<MachineRow>, readings: seq<ReadingRow>, parts: seq<PartRow>,
                          orders: seq<WorkOrderRow>, today: int, now: int, clock: nat -> int)
    returns (reply: NotificationsReply)
    ensures reply.notifications == SortBySeverity(Generated(machines, readings, parts, orders, today, now, clock))
    ensures reply.total == |reply.notifications|
    ensures reply.critical == Seqs.Count(reply.notifications, SeverityIs(Critical))
    ensures reply.high == Seqs.Count(reply.notifications, SeverityIs(High))
    ensures reply.medium == Seqs.Count(reply.notifications, SeverityIs(Medium))
  {
    var notes := CollectNotifications(machines, readings, parts, orders, today, now, clock);
    var sorted := SortBySeverity(notes);
    reply := NotificationsReply(|sorted|, Seqs.Count(sorted, SeverityIs(Critical)),
                                Seqs.Count(sorted, SeverityIs(High)), Seqs.Count(sorted, SeverityIs(Medium)),
                                sorted);
  }

  /** Sorting keeps the severities, so without LOW the sorted counts still cover everything. */
  lemma SortedCountsCoverAll(s: seq<Notification>)
    requires AllWellTyped(s)
    ensures var sorted := SortBySeverity(s);
      Seqs.Count(sorted, SeverityIs(Critical)) + Seqs.Count(sorted, SeverityIs(High))
      + Seqs.Count(sorted, SeverityIs(Medium)) == |sorted|
  {
    var sorted := SortBySeverity(s);
    SortPermutes(s);
    forall i | 0 <= i < |sorted|
      ensures sorted[i].severity != Low
    {
      assert sorted[i] in multiset(s);
      var j :| 0 <= j < |s| && s[j] == sorted[i];
      assert WellTyped(s[j]);
      assert SeverityOf(sorted[i].kind) != Low;
    }
    CountsCoverAll(sorted);
  }

  /** The reply's `total` is `critical + high + medium`: no LOW notification is ever made. */
  lemma TotalIsSumOfCounts(machines: seq<MachineRow>, readings: seq<ReadingRow>, parts: seq<PartRow>,
                           orders: seq<WorkOrderRow>, today: int, now: int, clock: nat -> int)
    ensures var sorted := SortBySeverity(Generated(machines, readings, parts, orders, today, now, clock));
      Seqs.Count(sorted, SeverityIs(Critical)) + Seqs.Count(sorted, SeverityIs(High))
      + Seqs.Count(sorted, SeverityIs(Medium)) == |sorted|
  {
    GeneratedWellTyped(machines, readings, parts, orders, today, now, clock);
    SortedCountsCoverAll(Generated(machines, readings, parts, orders, today, now, clock));
  }

  // ---------------------------------------------------------------------------
  // The order within one severity

  /** In a list stamped from a ticking clock, the notifications of one
      severity other than CRITICAL come out of the sort newest first: in the
      reverse of their order in the list. */
  lemma {:induction false} NewestFirstOf(g: seq<Notification>, clock: nat -> int, sev: Severity)
    requires AllWellTyped(g) && Stamped(g, clock) && Ticking(clock) && sev != Critical
    ensures Seqs.Filter(SortBySeverity(g), SeverityIs(sev)) == Seqs.Reverse(Seqs.Filter(g, SeverityIs(sev)))
  {
    var before := (a: Notification, b: Notification) => a.severity == sev && b.severity == sev ==> Below(a, b);
    forall i, j | 0 <= i < j < |g|
      ensures before(g[i], g[j])
    {
      if g[i].severity == sev && g[j].severity == sev {
        assert WellTyped(g[i]) && WellTyped(g[j]);
        assert g[i].timestamp == clock(i) && g[j].timestamp == clock(j);
      }
    }
    Seqs.FilterKeepsOrder(g, SeverityIs(sev), before);
    var f := Seqs.Filter(g, SeverityIs(sev));
    assert Increasing(f) by {
      forall i, j | 0 <= i < j < |f|
        ensures Below(f[i], f[j])
      {
        assert before(f[i], f[j]);
        assert SeverityIs(sev)(f[i]) && SeverityIs(sev)(f[j]);
      }
    }
    SortIncreasing(f);
    SortFilter(g, SeverityIs(sev));
  }

  /** With a ticking clock, the notifications of one severity other than
      CRITICAL, which are all stamped from the clock, come out newest first:
      in the reverse of the order the loops made them. So among the MEDIUM ones
      pending orders precede low-stock parts, which precede machines due soon. */
  lemma {:induction false} NewestFirstWithinSeverity(machines: seq<MachineRow>, readings: seq<ReadingRow>,
                                                     parts: seq<PartRow>, orders: seq<WorkOrderRow>, today: int,
                                                     now: int, clock: nat -> int, sev: Severity)
    requires Ticking(clock) && sev != Critical
    ensures var g := Generated(machines, readings, parts, orders, today, now, clock);
      Seqs.Filter(SortBySeverity(g), SeverityIs(sev)) == Seqs.Reverse(Seqs.Filter(g, SeverityIs(sev)))
  {
    GeneratedWellTyped(machines, readings, parts, orders, today, now, clock);
    GeneratedStamped(machines, readings, parts, orders, today, now, clock);
    NewestFirstOf(Generated(machines, readings, parts, orders, today, now, clock), clock, sev);
  }

  // ---------------------------------------------------------------------------
  // Which rows give a notification

  /** A note one loop appended is of that loop's type; any other was there before. */
  lemma {:induction false} NotFromLoop<R>(notes: seq<Notification>, rows: seq<R>, note: (R, nat) -> Notification,
                       kind: NotificationType, n: Notification)
    requires forall r, p :: note(r, p).kind == kind
    requires n in Appended(notes, rows, note) && n.kind != kind
    ensures n in notes
  {
  }

  /** Sorting neither adds nor loses notifications. */
  lemma SortedMember(s: seq<Notification>, n: Notification)
    ensures n in SortBySeverity(s) <==> n in s
  {
    SortPermutes(s);
    assert n in multiset(SortBySeverity(s)) <==> n in multiset(s);
  }

  /** Only the first loop makes overdue notifications. */
  lemma {:induction false} OverdueFromFirstLoop(machines: seq<MachineRow>, readings: seq<ReadingRow>,
                                                parts: seq<PartRow>, orders: seq<WorkOrderRow>, today: int,
                                                now: int, clock: nat -> int, n: Notification)
    requires n in Generated(machines, readings, parts, orders, today, now, clock)
    requires n.kind == OverdueMaintenance
    ensures n in AfterOverdue(machines, today, clock)
  {
    NotFromLoop(AfterLowStock(machines, readings, parts, today, now, clock), Seqs.Filter(orders, PendingDueOn(today)),
                PendingNoteAt(clock), PendingWorkOrder, n);
    NotFromLoop(AfterAnomalies(machines, readings, today, now, clock), Seqs.Filter(parts, LowStockPart()),
                LowStockNoteAt(clock), LowStock, n);
    NotFromLoop(AfterDueSoon(machines, today, clock), Seqs.Filter(readings, AnomalousSince(now)),
                AnomalyNoteOf(), AnomalyDetected, n);
    NotFromLoop(AfterOverdue(machines, today, clock), Seqs.Filter(machines, DueSoonOn(today)),
                DueSoonNoteAt(today, clock), UpcomingMaintenance, n);
  }

  /** Every overdue notification in the reply was made from an overdue machine. */
  lemma {:induction false} OverdueNoteHasRow(machines: seq<MachineRow>, readings: seq<ReadingRow>, parts: seq<PartRow>,
                          orders: seq<WorkOrderRow>, today: int, now: int, clock: nat -> int, n: Notification)
    requires n in SortBySeverity(Generated(machines, readings, parts, orders, today, now, clock))
    requires n.kind == OverdueMaintenance
    ensures exists m :: m in machines && IsOverdue(m, today) && n.subject == MachineSubject(m.machineId)
  {
    SortedMember(Generated(machines, readings, parts, orders, today, now, clock), n);
    OverdueFromFirstLoop(machines, readings, parts, orders, today, now, clock, n);
    var rows := Seqs.Filter(machines, OverdueOn(today));
    var overdue := Seqs.MapFrom(rows, 0, OverdueNoteAt(today, clock));
    assert AfterOverdue(machines, today, clock) == overdue;
    Seqs.FilterMembers(machines, OverdueOn(today));
    var k :| 0 <= k < |overdue| && overdue[k] == n;
    assert rows[k] in machines && OverdueOn(today)(rows[k]);
    assert n.subject == MachineSubject(rows[k].machineId);
  }

  /** Every overdue machine has its notification in the reply. */
  lemma {:induction false} OverdueRowHasNote(machines: seq<MachineRow>, readings: seq<ReadingRow>, parts: seq<PartRow>,
                          orders: seq<WorkOrderRow>, today: int, now: int, clock: nat -> int, m: MachineRow)
    requires m in machines && IsOverdue(m, today)
    ensures exists p :: OverdueNote(m, today, clock(p))
                        in SortBySeverity(Generated(machines, readings, parts, orders, today, now, clock))
  {
    var rows := Seqs.Filter(machines, OverdueOn(today));
    Seqs.FilterMembers(machines, OverdueOn(today));
    var j :| 0 <= j < |machines| && machines[j] == m;
    var k :| 0 <= k < |rows| && rows[k] == m;
    var note := OverdueNote(m, today, clock(k));
    assert Seqs.MapFrom(rows, 0, OverdueNoteAt(today, clock))[k] == note;
    assert note in AfterOverdue(machines, today, clock);
    assert note in AfterDueSoon(machines, today, clock);
    assert note in AfterAnomalies(machines, readings, today, now, clock);
    assert note in AfterLowStock(machines, readings, parts, today, now, clock);
    assert note in Generated(machines, readings, parts, orders, today, now, clock);
    SortedMember(Generated(machines, readings, parts, orders, today, now, clock), note);
  }

  /** An OVERDUE_MAINTENANCE notification for machine `id` is in the reply
      exactly when some machine with that id has a due date before today. */
  lemma {:induction false} OverdueNotificationIff(machines: seq<MachineRow>, readings: seq<ReadingRow>, parts: seq<PartRow>,
                               orders: seq<WorkOrderRow>, today: int, now: int, clock: nat -> int, id: string)
    ensures (exists n :: n in SortBySeverity(Generated(machines, readings, parts, orders, today, now, clock)) &&
               n.kind == OverdueMaintenance && n.subject == MachineSubject(id))
        <==> (exists m :: m in machines && m.machineId == id && IsOverdue(m, today))
  {
    var sorted := SortBySeverity(Generated(machines, readings, parts, orders, today, now, clock));
    if exists n :: n in sorted && n.kind == OverdueMaintenance && n.subject == MachineSubject(id) {
      var n :| n in sorted && n.kind == OverdueMaintenance && n.subject == MachineSubject(id);
      OverdueNoteHasRow(machines, readings, parts, orders, today, now, clock, n);
    }
    if exists m :: m in machines && m.machineId == id && IsOverdue(m, today) {
      var m :| m in machines && m.machineId == id && IsOverdue(m, today);
      OverdueRowHasNote(machines, readings, parts, orders, today, now, clock, m);
      var p :| OverdueNote(m, today, clock(p)) in sorted;
      assert OverdueNote(m, today, clock(p)).subject == MachineSubject(id);
    }
  }

  /** Every pending-order notification in the reply was made from a pending, due order. */
  lemma {:induction false} PendingNoteHasRow(machines: seq<MachineRow>, readings: seq<ReadingRow>, parts: seq<PartRow>,
                          orders: seq<WorkOrderRow>, today: int, now: int, clock: nat -> int, n: Notification)
    requires n in SortBySeverity(Generated(machines, readings, parts, orders, today, now, clock))
    requires n.kind == PendingWorkOrder
    ensures exists w :: w in orders && IsPendingDue(w, today) && n.subject == WorkOrderSubject(w.workOrderId)
  {
    var before := AfterLowStock(machines, readings, parts, today, now, clock);
    SortedMember(Generated(machines, readings, parts, orders, today, now, clock), n);
    assert n !in before by {
      if n in before {
        NotFromLoop(AfterAnomalies(machines, readings, today, now, clock), Seqs.Filter(parts, LowStockPart()),
                    LowStockNoteAt(clock), LowStock, n);
        NotFromLoop(AfterDueSoon(machines, today, clock), Seqs.Filter(readings, AnomalousSince(now)),
                    AnomalyNoteOf(), AnomalyDetected, n);
        NotFromLoop(AfterOverdue(machines, today, clock), Seqs.Filter(machines, DueSoonOn(today)),
                    DueSoonNoteAt(today, clock), UpcomingMaintenance, n);
        NotFromLoop([], Seqs.Filter(machines, OverdueOn(today)), OverdueNoteAt(today, clock), OverdueMaintenance, n);
      }
    }
    var rows := Seqs.Filter(orders, PendingDueOn(today));
    var pending := Seqs.MapFrom(rows, |before|, PendingNoteAt(clock));
    assert n in pending;
    Seqs.FilterMembers(orders, PendingDueOn(today));
    var k :| 0 <= k < |pending| && pending[k] == n;
    assert rows[k] in orders && PendingDueOn(today)(rows[k]);
    assert n.subject == WorkOrderSubject(rows[k].workOrderId);
  }

  /** Every pending order scheduled no later than today has its notification in the reply. */
  lemma {:induction false} PendingRowHasNote(machines: seq<MachineRow>, readings: seq<ReadingRow>, parts: seq<PartRow>,
                          orders: seq<WorkOrderRow>, today: int, now: int, clock: nat -> int, w: WorkOrderRow)
    requires w in orders && IsPendingDue(w, today)
    ensures exists p :: PendingNote(w, clock(p))
                        in SortBySeverity(Generated(machines, readings, parts, orders, today, now, clock))
  {
    var before := AfterLowStock(machines, readings, parts, today, now, clock);
    var rows := Seqs.Filter(orders, PendingDueOn(today));
    Seqs.FilterMembers(orders, PendingDueOn(today));
    var j :| 0 <= j < |orders| && orders[j] == w;
    var k :| 0 <= k < |rows| && rows[k] == w;
    var note := PendingNote(w, clock(|before| + k));
    assert Seqs.MapFrom(rows, |before|, PendingNoteAt(clock))[k] == note;
    assert note in Generated(machines, readings, parts, orders, today, now, clock);
    SortedMember(Generated(machines, readings, parts, orders, today, now, clock), note);
  }

  /** A PENDING_WORK_ORDER notification for id `id` is in the reply exactly
      when some work order with that id is PENDING and scheduled no later than today. */
  lemma {:induction false} PendingNotificationIff(machines: seq<MachineRow>, readings: seq<ReadingRow>, parts: seq<PartRow>,
                               orders: seq<WorkOrderRow>, today: int, now: int, clock: nat -> int, id: string)
    ensures (exists n :: n in SortBySeverity(Generated(machines, readings, parts, orders, today, now, clock)) &&
               n.kind == PendingWorkOrder && n.subject == WorkOrderSubject(id))
        <==> (exists w :: w in orders && w.workOrderId == id && IsPendingDue(w, today))
  {
    var sorted := SortBySeverity(Generated(machines, readings, parts, orders, today, now, clock));
    if exists n :: n in sorted && n.kind == PendingWorkOrder && n.subject == WorkOrderSubject(id) {
      var n :| n in sorted && n.kind == PendingWorkOrder && n.subject == WorkOrderSubject(id);
      PendingNoteHasRow(machines, readings, parts, orders, today, now, clock, n);
    }
    if exists w :: w in orders && w.workOrderId == id && IsPendingDue(w, today) {
      var w :| w in orders && w.workOrderId == id && IsPendingDue(w, today);
      PendingRowHasNote(machines, readings, parts, orders, today, now, clock, w);
      var p :| PendingNote(w, clock(p)) in sorted;
      assert PendingNote(w, clock(p)).subject == WorkOrderSubject(id);
    }
  }
}

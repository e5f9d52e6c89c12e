/** frontend/components/dashboard/machine-card.tsx: the card's days-until-
    maintenance figure, its label and its progress bar, and the status badge
    lookup. `now` is `Date.now()` in milliseconds. */
module MachineCard {
  import opened Wrappers
  import Text

  const MsPerDay: int := 1000 * 60 * 60 * 24
  const ProgressWindowDays: int := 30

  /** `machine.nextMaint`: the empty string, a string `new Date` cannot parse,
      or one that denotes the instant `ms`. */
  datatype NextMaint = NoDate | Unparseable | DateAt(ms: int)

  /** `Math.ceil(a / b)` for a positive divisor. */
  function CeilDiv(a: int, b: int): (q: int)
    requires b > 0
    ensures (q - 1) * b < a <= q * b
  {
    -((-a) / b)
  }

  /** `daysUntilMaint`: 0 for an empty date, NaN (None) for one that does not
      parse, otherwise the whole days to that instant, rounded up. */
  function DaysUntilMaint(next: NextMaint, now: int): (d: Option<int>)
    ensures next.NoDate? ==> d == Some(0)
    ensures next.Unparseable? ==> d.None?
    ensures next.DateAt? ==> d.Some? && (d.value - 1) * MsPerDay < next.ms - now <= d.value * MsPerDay
  {
    match next
    case NoDate => Some(0)
    case Unparseable => None
    case DateAt(ms) => Some(CeilDiv(ms - now, MsPerDay))
  }

  /** `daysUntilMaint > 0`, which is false for NaN. */
  predicate IsAhead(d: Option<int>)
  {
    d.Some? && d.value > 0
  }

  /** `progressPercent`: 100 unless the date is ahead, then 100 less the share
      of 30 days still to go, not below 0. */
  function ProgressPercent(d: Option<int>): (p: real)
    ensures 0.0 <= p <= 100.0
    ensures !IsAhead(d) ==> p == 100.0
    ensures IsAhead(d) && d.value >= ProgressWindowDays ==> p == 0.0
    ensures IsAhead(d) && d.value < ProgressWindowDays ==>
      p == 100.0 - (d.value as real) / (ProgressWindowDays as real) * 100.0
  {
    if IsAhead(d) then
      var raw := 100.0 - (d.value as real) / (ProgressWindowDays as real) * 100.0;
      if raw > 0.0 then raw else 0.0
    else 100.0
  }

  /** The bar fills as the date gets nearer. */
  lemma ProgressGrowsAsDateNears(d1: int, d2: int)
    requires 0 < d1 <= d2
    ensures ProgressPercent(Some(d2)) <= ProgressPercent(Some(d1))
  {
  }

  /** The bar's width: `Math.min(progressPercent, 100)`, which is the percentage itself. */
  function BarWidth(d: Option<int>): (w: real)
    ensures w == ProgressPercent(d)
  {
    var p := ProgressPercent(d);
    if p < 100.0 then p else 100.0
  }

  /** The label: "N days" while the date is ahead, otherwise "Overdue". */
  function MaintenanceLabel(d: Option<int>): (text: string)
    ensures !IsAhead(d) <==> text == "Overdue"
  {
    if IsAhead(d) then
      var digits := Text.NatToDecimal(d.value);
      assert (digits + " days")[0] == digits[0];
      digits + " days"
    else "Overdue"
  }

  /** The label of an ahead date reads back as its number of days. */
  lemma LabelShowsDays(d: nat)
    requires d > 0
    ensures var s := MaintenanceLabel(Some(d));
      |s| > 5 && s[|s| - 5..] == " days" &&
      Text.DecimalValue(s[..|s| - 5]) == d
  {
    var s := MaintenanceLabel(Some(d));
    assert s[..|s| - 5] == Text.NatToDecimal(d);
    Text.DecimalRoundTrip(d);
  }

  /** A time earlier today, up to a day ago, rounds to 0 days and so shows as
      overdue with a full bar. */
  lemma DueTodayShowsOverdue(ms: int, now: int)
    requires now - MsPerDay < ms <= now
    ensures DaysUntilMaint(DateAt(ms), now) == Some(0)
    ensures MaintenanceLabel(DaysUntilMaint(DateAt(ms), now)) == "Overdue"
    ensures ProgressPercent(DaysUntilMaint(DateAt(ms), now)) == 100.0
  {
    assert 0 <= now - ms < MsPerDay;
    assert (now - ms) / MsPerDay == 0;
  }

  /** A card without a date shows "Overdue" and a full bar. */
  lemma EmptyDateIsOverdue(now: int)
    ensures MaintenanceLabel(DaysUntilMaint(NoDate, now)) == "Overdue"
    ensures ProgressPercent(DaysUntilMaint(NoDate, now)) == 100.0
  {
  }

  /** A date that does not parse behaves the same way (NaN is not > 0). */
  lemma UnparseableDateIsOverdue(now: int)
    ensures MaintenanceLabel(DaysUntilMaint(Unparseable, now)) == "Overdue"
    ensures ProgressPercent(DaysUntilMaint(Unparseable, now)) == 100.0
  {
  }

  datatype CardStatus = Healthy | Warning | Critical

  datatype StatusStyle = StatusStyle(badge: string, color: string)

  /** `statusConfig[machine.status]` (the icon is left out). */
  function StatusConfig(s: CardStatus): (style: StatusStyle)
    ensures s == Healthy <==> style.badge == "badge-success"
    ensures s == Warning <==> style.badge == "badge-warning"
    ensures s == Critical <==> style.badge == "badge-critical"
  {
    match s
    case Healthy => StatusStyle("badge-success", "text-success")
    case Warning => StatusStyle("badge-warning", "text-warning")
    case Critical => StatusStyle("badge-critical", "text-danger")
  }
}

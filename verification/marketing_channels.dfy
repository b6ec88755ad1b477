/** The marketing channels section of the reports page
    (src/app/reports/marketing-channels-section.tsx): the per-channel and
    overall metrics, the month navigation, and the add, edit and delete
    handlers against the `channels_report` table. */
module MarketingChannels {
  import opened Wrappers
  import opened Strings
  import opened Seqs
  import opened Rates

  /** A loaded `channels_report` row (`select('*')`); every figure is a
      JavaScript number. The stored `close_rate`, `cost_per_lead` and `roi`
      come with it. */
  datatype Channel = Channel(
    id: int, channelName: string, cost: real, leads: real, jobs: real, revenue: real, month: string,
    closeRate: real, costPerLead: real, roi: real)

  // ---------------------------------------------------------------------
  // Metrics
  // ---------------------------------------------------------------------

  datatype ChannelMetrics = ChannelMetrics(closeRate: real, costPerLead: real, costPerJob: real, roi: real)

  /** A positive divisor keeps the sign of the dividend. */
  lemma QuotientSign(a: real, b: real)
    requires b > 0.0
    ensures a / b >= 0.0 <==> a >= 0.0
  {
    assert (a / b) * b == a;
    if a / b < 0.0 {
      assert (a / b) * b < 0.0;
    }
  }

  /** `(revenue - cost) / cost * 100` when `cost > 0`, else 0: the return on
      the spend as a percentage, non-negative exactly when revenue covers cost. */
  function Roi(revenue: real, cost: real): (r: real)
    ensures cost > 0.0 ==> r * cost == (revenue - cost) * 100.0
    ensures cost <= 0.0 ==> r == 0.0
    ensures cost > 0.0 ==> (r >= 0.0 <==> revenue >= cost)
  {
    if cost > 0.0 then
      QuotientSign(revenue - cost, cost);
      Percent(revenue - cost, cost)
    else 0.0
  }

  /** `calculateChannelMetrics`: each figure is 0 when its divisor is not positive. */
  function Metrics(cost: real, leads: real, jobs: real, revenue: real): (r: ChannelMetrics)
    ensures leads > 0.0 ==> r.closeRate * leads == jobs * 100.0 && r.costPerLead * leads == cost
    ensures leads <= 0.0 ==> r.closeRate == 0.0 && r.costPerLead == 0.0
    ensures jobs > 0.0 ==> r.costPerJob * jobs == cost
    ensures jobs <= 0.0 ==> r.costPerJob == 0.0
    ensures cost <= 0.0 ==> r.roi == 0.0
    ensures cost > 0.0 ==> (r.roi >= 0.0 <==> revenue >= cost)
    ensures 0.0 <= jobs <= leads ==> 0.0 <= r.closeRate <= 100.0
  {
    ChannelMetrics(Percent(jobs, leads), Ratio(cost, leads), Ratio(cost, jobs), Roi(revenue, cost))
  }

  function ChannelMetricsOf(c: Channel): ChannelMetrics {
    Metrics(c.cost, c.leads, c.jobs, c.revenue)
  }

  /** The class of the ROI cell. */
  function RoiClass(roi: real): string {
    if roi >= 0.0 then "text-green-600" else "text-red-600"
  }

  /** A channel with spend shows its ROI in green exactly when its revenue
      covers the spend; one without spend always shows green. */
  lemma RoiGreenIffProfitable(c: Channel)
    ensures c.cost > 0.0 ==> (RoiClass(ChannelMetricsOf(c).roi) == "text-green-600" <==> c.revenue >= c.cost)
    ensures c.cost <= 0.0 ==> RoiClass(ChannelMetricsOf(c).roi) == "text-green-600"
  {
  }

  function Cost(c: Channel): real { c.cost }
  function Leads(c: Channel): real { c.leads }
  function Jobs(c: Channel): real { c.jobs }
  function Revenue(c: Channel): real { c.revenue }

  datatype Totals = Totals(
    totalCost: real, totalLeads: real, totalJobs: real, totalRevenue: real,
    overallCloseRate: real, overallCostPerLead: real, overallCostPerJob: real, overallROI: real)

  /** `calculateTotals`: the four column sums, and the overall rates, which are
      the per-channel metrics of one channel carrying those sums. */
  function CalculateTotals(channels: seq<Channel>): (r: Totals)
    ensures r.totalCost == Sum(channels, Cost) && r.totalLeads == Sum(channels, Leads)
    ensures r.totalJobs == Sum(channels, Jobs) && r.totalRevenue == Sum(channels, Revenue)
    ensures ChannelMetrics(r.overallCloseRate, r.overallCostPerLead, r.overallCostPerJob, r.overallROI)
      == Metrics(r.totalCost, r.totalLeads, r.totalJobs, r.totalRevenue)
  {
    var cost := Sum(channels, Cost);
    var leads := Sum(channels, Leads);
    var jobs := Sum(channels, Jobs);
    var revenue := Sum(channels, Revenue);
    Totals(cost, leads, jobs, revenue,
      if leads > 0.0 then jobs / leads * 100.0 else 0.0,
      if leads > 0.0 then cost / leads else 0.0,
      if jobs > 0.0 then cost / jobs else 0.0,
      if cost > 0.0 then (revenue - cost) / cost * 100.0 else 0.0)
  }

  /** The sums split over any split of the rows. */
  lemma TotalsOfConcat(a: seq<Channel>, b: seq<Channel>)
    ensures CalculateTotals(a + b).totalCost == CalculateTotals(a).totalCost + CalculateTotals(b).totalCost
    ensures CalculateTotals(a + b).totalLeads == CalculateTotals(a).totalLeads + CalculateTotals(b).totalLeads
    ensures CalculateTotals(a + b).totalJobs == CalculateTotals(a).totalJobs + CalculateTotals(b).totalJobs
    ensures CalculateTotals(a + b).totalRevenue == CalculateTotals(a).totalRevenue + CalculateTotals(b).totalRevenue
  {
    SumConcat(a, b, Cost);
    SumConcat(a, b, Leads);
    SumConcat(a, b, Jobs);
    SumConcat(a, b, Revenue);
  }

  /** With one row, the overall rates are that row's metrics. */
  lemma TotalsOfOneChannel(c: Channel)
    ensures var t := CalculateTotals([c]);
      ChannelMetrics(t.overallCloseRate, t.overallCostPerLead, t.overallCostPerJob, t.overallROI) == ChannelMetricsOf(c)
  {
    assert [c][1..] == [];
    assert Sum([c], Cost) == c.cost && Sum([c], Leads) == c.leads;
    assert Sum([c], Jobs) == c.jobs && Sum([c], Revenue) == c.revenue;
  }

  // ---------------------------------------------------------------------
  // Month navigation
  // ---------------------------------------------------------------------

  datatype Direction = Prev | Next

  /** `const [year, month] = s.split('-')`: the text before the first dash,
      and the text between it and the next dash, `None` when there is no dash. */
  function SplitYearMonth(s: string): (string, Option<string>) {
    var i := IndexOf(s, '-');
    if i == |s| then (s, None)
    else
      var rest := s[i + 1..];
      (s[..i], Some(rest[..IndexOf(rest, '-')]))
  }

  /** `Number(part)`, where a missing part is `undefined` and reads as `NaN` (`None`). */
  function NumberOf(part: Option<string>): Option<int> {
    if part.None? then None
    else
      var v := DecimalValue(part.value);
      if v.Some? then Some(v.value) else None
  }

  /** `new Date(year, m)` reads a year 0..99 as 1900..1999. */
  function FullYear(year: int): int {
    if 0 <= year <= 99 then 1900 + year else year
  }

  /** The year and month (1..12) one month away from `month` of `year`, the
      way `Date` rolls months over into years. */
  function Shift(year: int, month: int, dir: Direction): (r: (int, int))
    ensures 1 <= r.1 <= 12
    ensures (r.0 - FullYear(year)) * 12 + r.1 == month + (if dir == Next then 1 else -1)
  {
    var idx := FullYear(year) * 12 + (month - 1) + (if dir == Next then 1 else -1);
    (idx / 12, idx % 12 + 1)
  }

  /** What `String(NaN)` yields for both fields of an invalid date. */
  const InvalidMonth: string := "NaN-NaN"

  /** The year and month `navigateMonth` reads from `selected`, `None` when
      either reads as `NaN`. */
  function ParsedMonth(selected: string): Option<(int, int)> {
    var parts := SplitYearMonth(selected);
    var year := NumberOf(Some(parts.0));
    var month := NumberOf(parts.1);
    if year.None? || month.None? then None else Some((year.value, month.value))
  }

  /** `YYYY-MM` of a shifted month, which ends in a dash and the month's two digits. */
  function ShiftedMonthString(next: (int, int)): (r: string)
    requires 1 <= next.1 <= 12
    ensures r == MonthString(next.0, next.1)
    ensures r != InvalidMonth
    ensures |r| >= 4 && r[|r| - 3] == '-' && IsDigits(r[|r| - 2..]) && DigitsToNat(r[|r| - 2..]) == next.1
  {
    var r := MonthString(next.0, next.1);
    Pad2Month(next.1);
    assert r == IntToString(next.0) + "-" + Pad2(next.1);
    assert |IntToString(next.0)| >= 1;
    assert r[|r| - 2..] == Pad2(next.1);
    assert r[|r| - 1] != 'N';
    r
  }

  /** `navigateMonth(direction)`: the new `selectedMonth`. A month that does
      not parse gives `NaN-NaN`; otherwise the result is the month `Date`
      rolls to, written `YYYY-MM`. */
  function NavigateMonth(selected: string, dir: Direction): (r: string)
    ensures ParsedMonth(selected).None? <==> r == InvalidMonth
    ensures ParsedMonth(selected).Some? ==>
      var p := ParsedMonth(selected).value;
      r == MonthString(Shift(p.0, p.1, dir).0, Shift(p.0, p.1, dir).1)
    ensures r != InvalidMonth ==>
      && |r| >= 4 && r[|r| - 3] == '-'
      && IsDigits(r[|r| - 2..]) && 1 <= DigitsToNat(r[|r| - 2..]) <= 12
  {
    var p := ParsedMonth(selected);
    if p.None? then InvalidMonth
    else ShiftedMonthString(Shift(p.value.0, p.value.1, dir))
  }

  lemma {:induction false} NatToStringHasNoDash(n: nat)
    ensures IndexOf(NatToString(n), '-') == |NatToString(n)|
  {
    var s := NatToString(n);
    assert forall j :: 0 <= j < |s| ==> s[j] != '-';
    IndexOfAbsent(s, '-');
  }

  lemma {:induction false} IndexOfAbsent(s: string, c: char)
    requires forall j :: 0 <= j < |s| ==> s[j] != c
    ensures IndexOf(s, c) == |s|
  {
    if |s| > 0 {
      IndexOfAbsent(s[1..], c);
    }
  }

  lemma SplitOfDashed(y: string, p: string)
    requires IndexOf(y, '-') == |y| && IndexOf(p, '-') == |p|
    ensures SplitYearMonth(y + "-" + p) == (y, Some(p))
  {
    var d := "-" + p;
    var s := y + d;
    assert y + "-" + p == s;
    assert IndexOf(d, '-') == 0;
    IndexOfPast(y, d, '-');
    assert s[..|y|] == y;
    assert s[|y| + 1..] == p;
    assert p[..|p|] == p;
  }

  /** A month string the section builds splits back into its year and month. */
  lemma MonthStringSplits(year: nat, month: nat)
    requires 1 <= month <= 12
    ensures NumberOf(Some(SplitYearMonth(MonthString(year, month)).0)) == Some(year)
    ensures NumberOf(SplitYearMonth(MonthString(year, month)).1) == Some(month)
  {
    var y := NatToString(year);
    var p := Pad2(month);
    assert MonthString(year, month) == y + "-" + p;
    NatToStringHasNoDash(year);
    Pad2Month(month);
    IndexOfAbsent(p, '-');
    SplitOfDashed(y, p);
    DigitsRoundTrip(year);
  }

  lemma {:induction false} IndexOfPast(a: string, b: string, c: char)
    requires IndexOf(a, c) == |a|
    ensures IndexOf(a + b, c) == |a| + IndexOf(b, c)
  {
    if |a| > 0 {
      assert (a + b)[1..] == a[1..] + b;
      IndexOfPast(a[1..], b, c);
    } else {
      assert a + b == b;
    }
  }

  /** Below year 100 the `Date` constructor moves the year into the 1900s:
      stepping back from `99-12` lands in 1999. */
  lemma TwoDigitYearJumpsCentury()
    ensures NavigateMonth(MonthString(99, 12), Prev) == MonthString(1999, 11)
  {
    MonthStringSplits(99, 12);
    assert Shift(99, 12, Prev) == (1999, 11) by {
      DivMod12(1999, 10);
    }
  }

  /** The calendar month before or after `month` of `year`. */
  function CalendarStep(year: int, month: int, dir: Direction): (int, int) {
    match dir
    case Next => if month == 12 then (year + 1, 1) else (year, month + 1)
    case Prev => if month == 1 then (year - 1, 12) else (year, month - 1)
  }

  /** From a month of a year of three or more digits: `next` after December is
      January of the next year, `prev` before January is December of the year
      before, and otherwise the month moves by one within the year. */
  lemma NavigateFromMonth(year: nat, month: nat, dir: Direction)
    requires year >= 100 && 1 <= month <= 12
    ensures var step := CalendarStep(year, month, dir);
      NavigateMonth(MonthString(year, month), dir) == MonthString(step.0, step.1)
  {
    MonthStringSplits(year, month);
    ShiftIsCalendarStep(year, month, dir);
  }

  lemma ShiftIsCalendarStep(year: nat, month: nat, dir: Direction)
    requires year >= 100 && 1 <= month <= 12
    ensures Shift(year, month, dir) == CalendarStep(year, month, dir)
  {
    var step := CalendarStep(year, month, dir);
    var idx := year * 12 + (month - 1) + (if dir == Next then 1 else -1);
    assert idx == step.0 * 12 + (step.1 - 1);
    DivMod12(step.0, step.1 - 1);
  }

  lemma DivMod12(q: int, k: int)
    requires 0 <= k < 12
    ensures (q * 12 + k) / 12 == q && (q * 12 + k) % 12 == k
  {
  }

  /** For years from 101 on, `prev` then `next`, or `next` then `prev`, comes
      back to the month it started from. */
  lemma NavigateRoundTrip(year: nat, month: nat)
    requires year >= 101 && 1 <= month <= 12
    ensures NavigateMonth(NavigateMonth(MonthString(year, month), Prev), Next) == MonthString(year, month)
    ensures NavigateMonth(NavigateMonth(MonthString(year, month), Next), Prev) == MonthString(year, month)
  {
    var before := CalendarStep(year, month, Prev);
    var after := CalendarStep(year, month, Next);
    NavigateFromMonth(year, month, Prev);
    NavigateFromMonth(before.0, before.1, Next);
    NavigateFromMonth(year, month, Next);
    NavigateFromMonth(after.0, after.1, Prev);
  }

  /** The month step as evidently intended: the same month arithmetic on the
      year exactly as selected, with no reading of small years as 19xx. */
  function ShiftCorrected(year: int, month: int, dir: Direction): (r: (int, int))
    ensures 1 <= r.1 <= 12
    ensures (r.0 - year) * 12 + r.1 == month + (if dir == Next then 1 else -1)
  {
    var idx := year * 12 + (month - 1) + (if dir == Next then 1 else -1);
    (idx / 12, idx % 12 + 1)
  }

  /** `navigateMonth` with the corrected step. */
  function NavigateMonthCorrected(selected: string, dir: Direction): (r: string)
    ensures ParsedMonth(selected).None? <==> r == InvalidMonth
    ensures ParsedMonth(selected).Some? ==>
      var p := ParsedMonth(selected).value;
      r == MonthString(ShiftCorrected(p.0, p.1, dir).0, ShiftCorrected(p.0, p.1, dir).1)
  {
    var p := ParsedMonth(selected);
    if p.None? then InvalidMonth
    else ShiftedMonthString(ShiftCorrected(p.value.0, p.value.1, dir))
  }

  /** From year 100 on the written navigation already is the corrected one. */
  lemma CorrectedAgreesFromYear100(selected: string, dir: Direction)
    requires ParsedMonth(selected).Some? ==> ParsedMonth(selected).value.0 >= 100
    ensures NavigateMonthCorrected(selected, dir) == NavigateMonth(selected, dir)
  {
    var p := ParsedMonth(selected);
    if p.Some? {
      assert FullYear(p.value.0) == p.value.0;
      assert Shift(p.value.0, p.value.1, dir) == ShiftCorrected(p.value.0, p.value.1, dir);
    }
  }

  lemma ShiftCorrectedIsCalendarStep(year: nat, month: nat, dir: Direction)
    requires 1 <= month <= 12
    ensures ShiftCorrected(year, month, dir) == CalendarStep(year, month, dir)
  {
    var step := CalendarStep(year, month, dir);
    var idx := year * 12 + (month - 1) + (if dir == Next then 1 else -1);
    assert idx == step.0 * 12 + (step.1 - 1);
    DivMod12(step.0, step.1 - 1);
  }

  /** For every year, the corrected navigation moves exactly one calendar month. */
  lemma CorrectedNavigateFromMonth(year: nat, month: nat, dir: Direction)
    requires 1 <= month <= 12
    ensures var step := CalendarStep(year, month, dir);
      NavigateMonthCorrected(MonthString(year, month), dir) == MonthString(step.0, step.1)
  {
    MonthStringSplits(year, month);
    ShiftCorrectedIsCalendarStep(year, month, dir);
  }

  /** The corrected navigation comes back to where it started: `next` then
      `prev` always, and `prev` then `next` unless the first step leaves year 0. */
  lemma CorrectedRoundTrip(year: nat, month: nat)
    requires 1 <= month <= 12
    ensures NavigateMonthCorrected(NavigateMonthCorrected(MonthString(year, month), Next), Prev) == MonthString(year, month)
    ensures year >= 1 || month >= 2 ==>
      NavigateMonthCorrected(NavigateMonthCorrected(MonthString(year, month), Prev), Next) == MonthString(year, month)
  {
    var after := CalendarStep(year, month, Next);
    CorrectedNavigateFromMonth(year, month, Next);
    CorrectedNavigateFromMonth(after.0, after.1, Prev);
    assert CalendarStep(after.0, after.1, Prev) == (year, month);
    if year >= 1 || month >= 2 {
      var before := CalendarStep(year, month, Prev);
      assert before.0 >= 0;
      CorrectedNavigateFromMonth(year, month, Prev);
      CorrectedNavigateFromMonth(before.0, before.1, Next);
      assert CalendarStep(before.0, before.1, Next) == (year, month);
    }
  }

  // ---------------------------------------------------------------------
  // Add, edit and delete
  // ---------------------------------------------------------------------

  /** `Partial<ChannelData>`: the form state, and the payload sent to the table. */
  datatype Draft = Draft(
    id: Option<int>, channelName: Option<string>,
    cost: Option<real>, leads: Option<real>, jobs: Option<real>, revenue: Option<real>,
    month: Option<string>, closeRate: Option<real>, costPerLead: Option<real>, roi: Option<real>)

  const EmptyDraft := Draft(None, None, None, None, None, None, None, None, None, None)

  /** The form after a successful add. */
  function ResetDraft(month: string): (d: Draft)
    ensures d.month == Some(month) && d.channelName == Some("")
    ensures d.cost == d.leads == d.jobs == d.revenue == Some(0.0)
  {
    Draft(None, Some(""), Some(0.0), Some(0.0), Some(0.0), Some(0.0), Some(month), Some(0.0), Some(0.0), Some(0.0))
  }

  /** `{ ...channel }`: the form holds every column the row was loaded with,
      the stored derived ones included, so it is a complete payload. */
  function DraftOf(c: Channel): (d: Draft)
    ensures d.id == Some(c.id) && d.channelName == Some(c.channelName) && d.month == Some(c.month)
    ensures d.cost == Some(c.cost) && d.leads == Some(c.leads) && d.jobs == Some(c.jobs) && d.revenue == Some(c.revenue)
    ensures d.closeRate == Some(c.closeRate) && d.costPerLead == Some(c.costPerLead) && d.roi == Some(c.roi)
    ensures Complete(d)
  {
    Draft(Some(c.id), Some(c.channelName), Some(c.cost), Some(c.leads), Some(c.jobs), Some(c.revenue),
      Some(c.month), Some(c.closeRate), Some(c.costPerLead), Some(c.roi))
  }

  datatype Section = Section(selectedMonth: string, editingId: Option<int>, draft: Draft, isAddingNew: bool)

  /** The rows of `channels_report` as the payloads that wrote them. */
  type Table = map<int, Draft>

  /** A column of an update payload replaces the stored one; an absent column keeps it. */
  function Pick<T>(update: Option<T>, stored: Option<T>): (r: Option<T>)
    ensures update.Some? ==> r == update
    ensures update.None? ==> r == stored
  {
    if update.Some? then update else stored
  }

  /** Every column present. */
  predicate Complete(d: Draft) {
    && d.id.Some? && d.channelName.Some? && d.cost.Some? && d.leads.Some? && d.jobs.Some?
    && d.revenue.Some? && d.month.Some? && d.closeRate.Some? && d.costPerLead.Some? && d.roi.Some?
  }

  /** `update(payload)` on a stored row: an empty payload changes nothing, a
      complete one replaces the row, and a column the stored row lacks is taken
      from the payload. */
  function Merge(stored: Draft, update: Draft): (r: Draft)
    ensures update == EmptyDraft ==> r == stored
    ensures Complete(update) ==> r == update
    ensures Complete(stored) ==> Complete(r)
    ensures stored == EmptyDraft ==> r == update
  {
    Draft(Pick(update.id, stored.id), Pick(update.channelName, stored.channelName),
      Pick(update.cost, stored.cost), Pick(update.leads, stored.leads), Pick(update.jobs, stored.jobs),
      Pick(update.revenue, stored.revenue), Pick(update.month, stored.month),
      Pick(update.closeRate, stored.closeRate), Pick(update.costPerLead, stored.costPerLead), Pick(update.roi, stored.roi))
  }

  /** Sending the same payload twice stores what sending it once did. */
  lemma MergeIdempotent(stored: Draft, update: Draft)
    ensures Merge(Merge(stored, update), update) == Merge(stored, update)
  {
  }

  /** `!newChannel.channel_name`. */
  predicate NameMissing(d: Draft) {
    d.channelName.None? || d.channelName.value == ""
  }

  /** `handleAddChannel`, with `newId` the id the table assigns and `fails`
      whether the insert is rejected. An id already taken is a rejected insert. */
  function HandleAddChannel(sec: Section, table: Table, newId: int, fails: bool): (r: (Section, Table))
    ensures NameMissing(sec.draft) || fails || newId in table ==> r == (sec, table)
    ensures !NameMissing(sec.draft) && !fails && newId !in table ==>
      && r.1 == table[newId := sec.draft]
      && r.0 == sec.(draft := ResetDraft(sec.selectedMonth), isAddingNew := false)
  {
    if NameMissing(sec.draft) || fails || newId in table then (sec, table)
    else (sec.(draft := ResetDraft(sec.selectedMonth), isAddingNew := false), table[newId := sec.draft])
  }

  /** `handleEditStart`. */
  function HandleEditStart(sec: Section, c: Channel): (r: Section)
    ensures r.editingId == Some(c.id) && r.draft == DraftOf(c)
    ensures r.selectedMonth == sec.selectedMonth && r.isAddingNew == sec.isAddingNew
  {
    sec.(editingId := Some(c.id), draft := DraftOf(c))
  }

  /** `handleEditCancel`. */
  function HandleEditCancel(sec: Section): (r: Section)
    ensures r.editingId.None? && r.draft == EmptyDraft
    ensures r.selectedMonth == sec.selectedMonth && r.isAddingNew == sec.isAddingNew
  {
    sec.(editingId := None, draft := EmptyDraft)
  }

  /** `handleEditSave`: nothing happens without a row being edited; the update
      of a missing row fails like a rejected one (`.single()` finds no row). */
  function HandleEditSave(sec: Section, table: Table, fails: bool): (r: (Section, Table))
    ensures sec.editingId.None? || fails ==> r == (sec, table)
    ensures sec.editingId.Some? && sec.editingId.value !in table ==> r == (sec, table)
    ensures sec.editingId.Some? && !fails && sec.editingId.value in table ==>
      && r.1.Keys == table.Keys
      && (forall k :: k in table && k != sec.editingId.value ==> r.1[k] == table[k])
      && r.1[sec.editingId.value] == Merge(table[sec.editingId.value], sec.draft)
      && r.0 == sec.(editingId := None, draft := EmptyDraft)
  {
    if sec.editingId.None? || fails || sec.editingId.value !in table then (sec, table)
    else
      var id := sec.editingId.value;
      (sec.(editingId := None, draft := EmptyDraft), table[id := Merge(table[id], sec.draft)])
  }

  /** Saving an edit that was started from a loaded row writes that row's
      loaded values, every column included; when the stored row is still the
      loaded one, the table comes back unchanged. */
  lemma EditStartThenSave(sec: Section, table: Table, c: Channel)
    requires c.id in table
    ensures var saved := HandleEditSave(HandleEditStart(sec, c), table, false).1;
      && saved.Keys == table.Keys
      && saved[c.id] == DraftOf(c)
      && (table[c.id] == DraftOf(c) ==> saved == table)
  {
    var saved := HandleEditSave(HandleEditStart(sec, c), table, false).1;
    if table[c.id] == DraftOf(c) {
      assert saved == table[c.id := DraftOf(c)];
    }
  }

  /** `handleDeleteChannel`. */
  function HandleDeleteChannel(table: Table, id: int, fails: bool): (r: Table)
    ensures fails ==> r == table
    ensures !fails ==> r.Keys == table.Keys - {id} && forall k :: k in r ==> r[k] == table[k]
  {
    if fails then table else table - {id}
  }

  /** The navigation buttons: both the selected month and the form's month move. */
  function HandleNavigate(sec: Section, dir: Direction): (r: Section)
    ensures r.selectedMonth == NavigateMonth(sec.selectedMonth, dir)
    ensures r.draft == sec.draft.(month := Some(r.selectedMonth))
    ensures r.editingId == sec.editingId && r.isAddingNew == sec.isAddingNew
  {
    var m := NavigateMonth(sec.selectedMonth, dir);
    sec.(selectedMonth := m, draft := sec.draft.(month := Some(m)))
  }
}

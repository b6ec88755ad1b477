/** The business report (src/lib/reporting-service.ts): the revenue, job and
    client figures of one period, the two conversion summaries, the five best
    clients, the revenue per month and the job efficiency figures. */
module ReportingService {
  import opened Wrappers
  import opened Strings
  import opened Seqs
  import opened Rates
  import opened EntityStore
  import LeadConversion
  import QuoteConversion

  /** The fields of an `invoices` row the report reads; `createdAt` is the
      timestamp in the `toISOString` form. */
  datatype InvoiceRow = InvoiceRow(clientId: Option<int>, amount: real, status: string, createdAt: string)

  /** The fields of a `jobs` row the report reads; times in milliseconds since
      the epoch. `updatedMs` is `new Date(job.updated_at)`: `None` is the
      invalid date of a missing column, and the declared `jobs` table
      (src/lib/supabase.ts, lines 120-132) has no `updated_at`. */
  datatype JobRow = JobRow(status: string, startMs: int, endMs: int, updatedMs: Option<int>)

  /** A row as the declared schema delivers it: without `updated_at`. */
  predicate DeclaredJobRow(j: JobRow) {
    j.updatedMs.None?
  }

  /** The field of a `clients` row the report reads. */
  datatype ClientRow = ClientRow(status: string)

  /** What each of the four period queries returns: the rows created between
      the two instants, both ends included, in table order. */
  function PeriodRows<T(!new)>(rows: seq<T>, createdAt: T -> string, start: string, end: string): (r: seq<T>)
    ensures forall x :: x in r <==> x in rows && !LexLess(createdAt(x), start) && !LexLess(end, createdAt(x))
  {
    Filter(rows, (x: T) => !LexLess(createdAt(x), start) && !LexLess(end, createdAt(x)))
  }

  // ---------------------------------------------------------------------
  // Revenue, job and client figures
  // ---------------------------------------------------------------------

  datatype Revenue = Revenue(total: real, pending: real, paid: real, collectionRate: real)

  function Amount(i: InvoiceRow): real { i.amount }

  predicate IsPending(i: InvoiceRow) { i.status == "sent" || i.status == "draft" }

  predicate IsPaid(i: InvoiceRow) { i.status == "paid" }

  /** The revenue block: invoiced, outstanding and collected amounts, and the
      collected share of the invoiced total. Over non-negative amounts the
      outstanding and collected parts fit inside the total and the rate is a
      percentage. */
  function RevenueOf(invoices: seq<InvoiceRow>): (r: Revenue)
    ensures r.total == Sum(invoices, Amount)
    ensures r.pending == Sum(Filter(invoices, IsPending), Amount)
    ensures r.paid == Sum(Filter(invoices, IsPaid), Amount)
    ensures r.total > 0.0 ==> r.collectionRate * r.total == r.paid * 100.0
    ensures r.total <= 0.0 ==> r.collectionRate == 0.0
    ensures (forall i :: i in invoices ==> i.amount >= 0.0) ==>
      && 0.0 <= r.pending && 0.0 <= r.paid
      && r.pending + r.paid <= r.total
      && 0.0 <= r.collectionRate <= 100.0
  {
    var total := Sum(invoices, Amount);
    var pending := Sum(Filter(invoices, IsPending), Amount);
    var paid := Sum(Filter(invoices, IsPaid), Amount);
    RevenueParts(invoices);
    Revenue(total, pending, paid, Percent(paid, total))
  }

  /** With no negative amount, the pending and paid parts are non-negative and
      together within the total. */
  lemma RevenueParts(invoices: seq<InvoiceRow>)
    ensures (forall i :: i in invoices ==> i.amount >= 0.0) ==>
      var pending := Sum(Filter(invoices, IsPending), Amount);
      var paid := Sum(Filter(invoices, IsPaid), Amount);
      0.0 <= pending && 0.0 <= paid && pending + paid <= Sum(invoices, Amount)
  {
    if forall i :: i in invoices ==> i.amount >= 0.0 {
      SumDisjoint(invoices, Amount, IsPending, IsPaid);
      SumNonNegative(Filter(invoices, IsPending), Amount);
      SumNonNegative(Filter(invoices, IsPaid), Amount);
    }
  }

  predicate IsOverdue(i: InvoiceRow) { i.status == "overdue" }

  /** Over invoices whose statuses lie in the schema's domain, the pending and
      paid parts together with the overdue part make up the whole total. */
  lemma RevenuePartition(invoices: seq<InvoiceRow>)
    requires forall i :: i in invoices ==> i.status in InvoiceStatusDomain
    ensures Sum(Filter(invoices, IsPending), Amount) + Sum(Filter(invoices, IsPaid), Amount)
      + Sum(Filter(invoices, IsOverdue), Amount) == Sum(invoices, Amount)
  {
    forall i | i in invoices ensures IsPending(i) || IsPaid(i) || IsOverdue(i) {
      assert i.status in InvoiceStatusDomain;
    }
    ThreeWaySplit(invoices);
  }

  lemma {:induction false} ThreeWaySplit(invoices: seq<InvoiceRow>)
    requires forall i :: i in invoices ==> IsPending(i) || IsPaid(i) || IsOverdue(i)
    ensures Sum(Filter(invoices, IsPending), Amount) + Sum(Filter(invoices, IsPaid), Amount)
      + Sum(Filter(invoices, IsOverdue), Amount) == Sum(invoices, Amount)
  {
    if |invoices| > 0 {
      var rest := invoices[1..];
      var h := invoices[0];
      assert forall i :: i in rest ==> i in invoices;
      ThreeWaySplit(rest);
      assert h in invoices;
      SumConcat((if IsPending(h) then [h] else []), Filter(rest, IsPending), Amount);
      SumConcat((if IsPaid(h) then [h] else []), Filter(rest, IsPaid), Amount);
      SumConcat((if IsOverdue(h) then [h] else []), Filter(rest, IsOverdue), Amount);
    }
  }

  datatype JobMetrics = JobMetrics(total: nat, completed: nat, inProgress: nat, cancelled: nat, completionRate: real)

  predicate IsCompleted(j: JobRow) { j.status == "completed" }

  /** How many rows have `status`: none exactly when no row has it, all
      exactly when every row has it. */
  function CountJobs(jobs: seq<JobRow>, status: string): (r: nat)
    ensures r <= |jobs|
    ensures r == 0 <==> forall j :: j in jobs ==> j.status != status
    ensures r == |jobs| <==> forall j :: j in jobs ==> j.status == status
  {
    FilterCountExtremes(jobs, (j: JobRow) => j.status == status);
    |Filter(jobs, (j: JobRow) => j.status == status)|
  }

  /** Jobs in distinct statuses are counted apart, so the three counts never
      exceed the jobs of the period. */
  lemma {:induction false} JobCountsBounded(jobs: seq<JobRow>)
    ensures CountJobs(jobs, "completed") + CountJobs(jobs, "in_progress") + CountJobs(jobs, "cancelled") <= |jobs|
  {
    if |jobs| > 0 {
      JobCountsBounded(jobs[1..]);
    }
  }

  function JobMetricsFrom(total: nat, completed: nat, inProgress: nat, cancelled: nat): (r: JobMetrics)
    ensures r.total == total && r.completed == completed && r.inProgress == inProgress && r.cancelled == cancelled
    ensures IsPercentOf(r.completionRate, completed, total)
  {
    PercentOfCounts(completed, total);
    JobMetrics(total, completed, inProgress, cancelled, Percent(completed as real, total as real))
  }

  /** The jobs block: one count per tracked status, disjoint, and the completed
      share of the period's jobs. */
  function JobMetricsOf(jobs: seq<JobRow>): (r: JobMetrics)
    ensures r.total == |jobs|
    ensures r.completed == CountJobs(jobs, "completed")
    ensures r.inProgress == CountJobs(jobs, "in_progress")
    ensures r.cancelled == CountJobs(jobs, "cancelled")
    ensures r.completed + r.inProgress + r.cancelled <= r.total
    ensures IsPercentOf(r.completionRate, r.completed, r.total)
  {
    JobCountsBounded(jobs);
    JobMetricsFrom(|jobs|, CountJobs(jobs, "completed"), CountJobs(jobs, "in_progress"), CountJobs(jobs, "cancelled"))
  }

  datatype ClientMetrics = ClientMetrics(total: nat, active: nat, retentionRate: real)

  function ClientMetricsFrom(total: nat, active: nat): (r: ClientMetrics)
    ensures r.total == total && r.active == active
    ensures IsPercentOf(r.retentionRate, active, total)
  {
    PercentOfCounts(active, total);
    ClientMetrics(total, active, Percent(active as real, total as real))
  }

  /** The clients block: the active share of the period's new clients. */
  function ClientMetricsOf(clients: seq<ClientRow>): (r: ClientMetrics)
    ensures r.total == |clients|
    ensures r.active == |Filter(clients, (c: ClientRow) => c.status == "active")|
    ensures r.active <= r.total
    ensures IsPercentOf(r.retentionRate, r.active, r.total)
  {
    ClientMetricsFrom(|clients|, |Filter(clients, (c: ClientRow) => c.status == "active")|)
  }

  // ---------------------------------------------------------------------
  // Top clients
  // ---------------------------------------------------------------------

  /** The object key an invoice's `client_id` files its amount under. */
  function ClientKey(clientId: Option<int>): string {
    if clientId.Some? then IntToString(clientId.value) else "null"
  }

  /** Each invoice as a (client key, amount) pair, in list order. */
  function ClientAmounts(invoices: seq<InvoiceRow>): (r: seq<(string, real)>)
    ensures |r| == |invoices|
    ensures forall i :: 0 <= i < |invoices| ==> r[i] == (ClientKey(invoices[i].clientId), invoices[i].amount)
  {
    seq(|invoices|, i requires 0 <= i < |invoices| => (ClientKey(invoices[i].clientId), invoices[i].amount))
  }

  /** The comparator `(b - a)`: the larger total goes first. */
  predicate LargerFirst(a: (string, real), b: (string, real)) { a.1 > b.1 }

  /** The grouped client totals after the sort. */
  function RankedClients(invoices: seq<InvoiceRow>): (s: seq<(string, real)>)
    ensures DistinctKeys(s)
    ensures Keys(s) == Keys(ClientAmounts(invoices))
    ensures forall i :: 0 <= i < |s| ==> s[i].1 == SumOfKey(ClientAmounts(invoices), s[i].0)
    ensures forall i, j :: 0 <= i < j < |s| ==> s[i].1 >= s[j].1
  {
    var xs := ClientAmounts(invoices);
    var g := GroupSum(xs);
    var s := SortBy(g, LargerFirst);
    SortBySorted(g, LargerFirst);
    SortByMembers(g, LargerFirst);
    SortByDistinct(g, LargerFirst);
    KeysOfPermutation(s, g);
    forall i | 0 <= i < |s| ensures s[i].1 == SumOfKey(xs, s[i].0) {
      assert s[i] in s;
      var j :| 0 <= j < |g| && g[j] == s[i];
    }
    assert forall i, j :: 0 <= i < j < |s| ==> !LargerFirst(s[j], s[i]);
    s
  }

  /** `getTopPerformingClients`: at most five clients, one entry each, largest
      total first, each with every amount invoiced to it; a client left out has
      no more than any listed one, and fewer than five are listed only when
      every client is. */
  function TopPerformingClients(invoices: seq<InvoiceRow>): (r: seq<(string, real)>)
    ensures |r| <= 5
    ensures DistinctKeys(r)
    ensures Keys(r) <= Keys(ClientAmounts(invoices))
    ensures forall i :: 0 <= i < |r| ==> r[i].1 == SumOfKey(ClientAmounts(invoices), r[i].0)
    ensures forall i, j :: 0 <= i < j < |r| ==> r[i].1 >= r[j].1
    ensures |r| < 5 ==> Keys(r) == Keys(ClientAmounts(invoices))
    ensures forall k :: k in Keys(ClientAmounts(invoices)) && k !in Keys(r) ==>
      |r| == 5 && forall i :: 0 <= i < |r| ==> r[i].1 >= SumOfKey(ClientAmounts(invoices), k)
  {
    var xs := ClientAmounts(invoices);
    var s := RankedClients(invoices);
    var r := Take(s, 5);
    assert forall i :: 0 <= i < |r| ==> r[i] == s[i];
    assert Keys(r) <= Keys(s) by {
      forall k | k in Keys(r) ensures k in Keys(s) {
        var i :| 0 <= i < |r| && r[i].0 == k;
        assert s[i].0 == k;
      }
    }
    forall k | k in Keys(xs) && k !in Keys(r)
      ensures |r| == 5 && forall i :: 0 <= i < |r| ==> r[i].1 >= SumOfKey(xs, k)
    {
      var j :| 0 <= j < |s| && s[j].0 == k;
    }
    r
  }

  // ---------------------------------------------------------------------
  // Revenue trend
  // ---------------------------------------------------------------------

  /** `toISOString().slice(0, 7)`: the year and month of an instant. */
  function MonthKey(createdAt: string): (r: string)
    ensures |r| <= 7 && IsPrefix(r, createdAt)
  {
    Take(createdAt, 7)
  }

  function MonthAmounts(invoices: seq<InvoiceRow>): (r: seq<(string, real)>)
    ensures |r| == |invoices|
    ensures forall i :: 0 <= i < |invoices| ==> r[i] == (MonthKey(invoices[i].createdAt), invoices[i].amount)
  {
    seq(|invoices|, i requires 0 <= i < |invoices| => (MonthKey(invoices[i].createdAt), invoices[i].amount))
  }

  datatype MonthAmount = MonthAmount(month: string, amount: real)

  /** The comparator `a.localeCompare(b)` on the month keys. */
  predicate EarlierMonth(a: (string, real), b: (string, real)) { LexLess(a.0, b.0) }

  lemma EarlierMonthIsStrictWeakOrder()
    ensures StrictWeakOrder(EarlierMonth)
  {
    forall a: (string, real), b: (string, real) | EarlierMonth(a, b) ensures !EarlierMonth(b, a) {
      if LexLess(b.0, a.0) {
        LexTransitive(a.0, b.0, a.0);
        LexIrreflexive(a.0);
      }
    }
    forall a: (string, real), b: (string, real), c: (string, real) | !EarlierMonth(a, b) && !EarlierMonth(b, c)
      ensures !EarlierMonth(a, c)
    {
      LexTotal(a.0, b.0);
      LexTotal(b.0, c.0);
      if LexLess(a.0, c.0) && a.0 != b.0 && b.0 != c.0 {
        LexTransitive(c.0, b.0, a.0);
        LexTransitive(a.0, c.0, a.0);
        LexIrreflexive(a.0);
      }
    }
  }

  /** `calculateRevenueTrend`: one entry per month that has an invoice, in
      strictly ascending month order, each with everything invoiced that month. */
  function RevenueTrend(invoices: seq<InvoiceRow>): (r: seq<MonthAmount>)
    ensures forall i, j :: 0 <= i < j < |r| ==> LexLess(r[i].month, r[j].month)
    ensures forall m :: (exists i :: 0 <= i < |r| && r[i].month == m) <==> m in Keys(MonthAmounts(invoices))
    ensures forall i :: 0 <= i < |r| ==> r[i].amount == SumOfKey(MonthAmounts(invoices), r[i].month)
  {
    var s := SortedMonths(invoices);
    var r := seq(|s|, i requires 0 <= i < |s| => MonthAmount(s[i].0, s[i].1));
    MonthsListed(s, r);
    r
  }

  /** The entries built from the sorted pairs name exactly the pairs' keys. */
  lemma MonthsListed(s: seq<(string, real)>, r: seq<MonthAmount>)
    requires |r| == |s| && forall i :: 0 <= i < |s| ==> r[i].month == s[i].0
    ensures forall m :: (exists i :: 0 <= i < |r| && r[i].month == m) <==> m in Keys(s)
  {
    forall m ensures (exists i :: 0 <= i < |r| && r[i].month == m) <==> m in Keys(s) {
      if m in Keys(s) {
        var i :| 0 <= i < |s| && s[i].0 == m;
        assert r[i].month == m;
      }
    }
  }

  /** The grouped months after the sort. */
  function SortedMonths(invoices: seq<InvoiceRow>): (s: seq<(string, real)>)
    ensures DistinctKeys(s)
    ensures Keys(s) == Keys(MonthAmounts(invoices))
    ensures forall i, j :: 0 <= i < j < |s| ==> LexLess(s[i].0, s[j].0)
    ensures forall i :: 0 <= i < |s| ==> s[i].1 == SumOfKey(MonthAmounts(invoices), s[i].0)
    ensures SumValues(s) == SumValues(MonthAmounts(invoices))
  {
    var xs := MonthAmounts(invoices);
    var g := GroupSum(xs);
    var s := SortBy(g, EarlierMonth);
    EarlierMonthIsStrictWeakOrder();
    SortBySorted(g, EarlierMonth);
    SortByMembers(g, EarlierMonth);
    SortByDistinct(g, EarlierMonth);
    KeysOfPermutation(s, g);
    SortByKeepsTotal(g, EarlierMonth);
    GroupSumPreservesTotal(xs);
    forall i, j | 0 <= i < j < |s| ensures LexLess(s[i].0, s[j].0) {
      LexTotal(s[i].0, s[j].0);
    }
    forall i | 0 <= i < |s| ensures s[i].1 == SumOfKey(xs, s[i].0) {
      assert s[i] in s;
      var j :| 0 <= j < |g| && g[j] == s[i];
    }
    s
  }

  function TrendTotal(trend: seq<MonthAmount>): real {
    if |trend| == 0 then 0.0 else TrendTotal(trend[..|trend| - 1]) + trend[|trend| - 1].amount
  }

  /** The trend spreads the period's whole revenue over its months: the monthly
      amounts add up to the revenue total. */
  lemma TrendAddsUpToRevenue(invoices: seq<InvoiceRow>)
    ensures TrendTotal(RevenueTrend(invoices)) == RevenueOf(invoices).total
  {
    var s := SortedMonths(invoices);
    TrendTotalOfEntries(s);
    PairsTotal(invoices);
  }

  lemma {:induction false} TrendTotalOfEntries(s: seq<(string, real)>)
    ensures TrendTotal(seq(|s|, i requires 0 <= i < |s| => MonthAmount(s[i].0, s[i].1))) == SumValues(s)
  {
    if |s| > 0 {
      var n := |s| - 1;
      TrendTotalOfEntries(s[..n]);
      var r := seq(|s|, i requires 0 <= i < |s| => MonthAmount(s[i].0, s[i].1));
      assert r[..n] == seq(n, i requires 0 <= i < n => MonthAmount(s[..n][i].0, s[..n][i].1));
    }
  }

  lemma {:induction false} PairsTotal(invoices: seq<InvoiceRow>)
    ensures SumValues(MonthAmounts(invoices)) == Sum(invoices, Amount)
  {
    if |invoices| > 0 {
      var n := |invoices| - 1;
      PairsTotal(invoices[..n]);
      assert MonthAmounts(invoices)[..n] == MonthAmounts(invoices[..n]);
      assert invoices == invoices[..n] + [invoices[n]];
      SumSnoc(invoices[..n], invoices[n], Amount);
    }
  }

  // ---------------------------------------------------------------------
  // Job efficiency
  // ---------------------------------------------------------------------

  const MsPerDay: real := 86400000.0

  function Duration(j: JobRow): real { (j.endMs - j.startMs) as real }

  /** `completed <= end`; a comparison with an invalid date is false. */
  predicate OnTime(j: JobRow) { j.updatedMs.Some? && j.updatedMs.value <= j.endMs }

  function Completed(jobs: seq<JobRow>): (r: seq<JobRow>)
    ensures forall j :: j in r <==> j in jobs && j.status == "completed"
  {
    Filter(jobs, IsCompleted)
  }

  /** `total / count / (1000 * 60 * 60 * 24)`. */
  function AverageDays(total: real, count: nat): (r: real)
    requires count > 0
    ensures r * (count as real) * MsPerDay == total
    ensures total >= 0.0 ==> r >= 0.0
  {
    total / (count as real) / MsPerDay
  }

  /** The average length of a completed job in days; 0 when none completed. */
  function AverageJobDuration(jobs: seq<JobRow>): (r: real)
    ensures |Completed(jobs)| == 0 ==> r == 0.0
    ensures |Completed(jobs)| > 0 ==> r * (|Completed(jobs)| as real) * MsPerDay == Sum(Completed(jobs), Duration)
    ensures (forall j :: j in jobs && j.status == "completed" ==> j.startMs <= j.endMs) ==> r >= 0.0
  {
    var done := Completed(jobs);
    var total := Sum(done, Duration);
    CompletedDurationsNonNegative(jobs);
    if |done| > 0 then AverageDays(total, |done|) else 0.0
  }

  /** When no completed job ends before it starts, the completed jobs' total
      duration is not negative. */
  lemma CompletedDurationsNonNegative(jobs: seq<JobRow>)
    ensures (forall j :: j in jobs && j.status == "completed" ==> j.startMs <= j.endMs) ==>
      Sum(Completed(jobs), Duration) >= 0.0
  {
    if forall j :: j in jobs && j.status == "completed" ==> j.startMs <= j.endMs {
      SumNonNegative(Completed(jobs), Duration);
    }
  }

  /** `onTimeCompletion` as written: the on-time completed jobs divided by the
      completed jobs with no guard; `None` stands for the `NaN` of `0 / 0`. */
  function OnTimeCompletionAsWritten(jobs: seq<JobRow>): (r: Option<real>)
    ensures r.None? <==> |Completed(jobs)| == 0
    ensures r.Some? ==> IsPercentOf(r.value, |Filter(Completed(jobs), OnTime)|, |Completed(jobs)|)
  {
    var done := Completed(jobs);
    PercentOfCounts(|Filter(done, OnTime)|, |done|);
    if |done| == 0 then None else Some(Percent(|Filter(done, OnTime)| as real, |done| as real))
  }

  /** A period whose jobs are all still open, an empty one included, reports
      `NaN` as its on-time completion. */
  lemma {:induction false} OpenJobsGiveNaN(j: JobRow)
    requires j.status == "pending"
    ensures OnTimeCompletionAsWritten([]).None?
    ensures OnTimeCompletionAsWritten([j]).None?
  {
    assert Completed([j]) == [];
  }

  /** Rows of the declared schema are never on time, so wherever the written
      division yields a number, that number is 0. */
  lemma {:induction false} DeclaredSchemaOnTimeIsZero(jobs: seq<JobRow>)
    requires forall j :: j in jobs ==> DeclaredJobRow(j)
    ensures Filter(Completed(jobs), OnTime) == []
    ensures |Completed(jobs)| > 0 ==> OnTimeCompletionAsWritten(jobs) == Some(0.0)
  {
    FilterNone(Completed(jobs), OnTime);
  }

  /** With the completion time present, a period whose completed jobs all
      finished by their end date reports 100. */
  lemma AllOnTimeGivesHundred(jobs: seq<JobRow>)
    requires |Completed(jobs)| > 0
    requires forall j :: j in jobs && j.status == "completed" ==> j.updatedMs.Some? && j.updatedMs.value <= j.endMs
    ensures OnTimeCompletionAsWritten(jobs) == Some(100.0)
    ensures JobEfficiencyCorrected(jobs).onTimeCompletion == Some(100.0)
  {
    FilterAll(Completed(jobs), OnTime);
  }

  /** `onTimeCompletion` guarded like `averageJobDuration`: the on-time share of
      the completed jobs as a percentage, 0 when none completed. */
  function OnTimeCompletion(jobs: seq<JobRow>): (r: real)
    ensures IsPercentOf(r, |Filter(Completed(jobs), OnTime)|, |Completed(jobs)|)
  {
    var done := Completed(jobs);
    PercentOfCounts(|Filter(done, OnTime)|, |done|);
    Percent(|Filter(done, OnTime)| as real, |done| as real)
  }

  /** Wherever the unguarded division yields a number, the guarded one yields
      the same number. */
  lemma OnTimeCorrectionAgrees(jobs: seq<JobRow>)
    ensures OnTimeCompletionAsWritten(jobs).Some? ==> OnTimeCompletionAsWritten(jobs).value == OnTimeCompletion(jobs)
    ensures OnTimeCompletionAsWritten(jobs).None? ==> OnTimeCompletion(jobs) == 0.0
  {
  }

  /** The efficiency block; `onTimeCompletion` is `None` where the code yields `NaN`. */
  datatype Efficiency = Efficiency(averageJobDuration: real, onTimeCompletion: Option<real>)

  /** `calculateJobEfficiency` as written: the average duration is guarded,
      the on-time share is not, so a period without a completed job reports
      `NaN`. */
  function JobEfficiency(jobs: seq<JobRow>): (r: Efficiency)
    ensures r.averageJobDuration == AverageJobDuration(jobs)
    ensures r.onTimeCompletion.None? <==> |Completed(jobs)| == 0
    ensures r.onTimeCompletion.Some? ==>
      IsPercentOf(r.onTimeCompletion.value, |Filter(Completed(jobs), OnTime)|, |Completed(jobs)|)
    ensures (forall j :: j in jobs ==> DeclaredJobRow(j)) && |Completed(jobs)| > 0 ==> r.onTimeCompletion == Some(0.0)
  {
    var e := Efficiency(AverageJobDuration(jobs), OnTimeCompletionAsWritten(jobs));
    if forall j :: j in jobs ==> DeclaredJobRow(j) then
      DeclaredSchemaOnTimeIsZero(jobs);
      e
    else e
  }

  /** `calculateJobEfficiency` with the on-time share guarded like the
      average: always a number, and the written one wherever that is a number. */
  function JobEfficiencyCorrected(jobs: seq<JobRow>): (r: Efficiency)
    ensures r.averageJobDuration == AverageJobDuration(jobs)
    ensures r.onTimeCompletion.Some?
    ensures IsPercentOf(r.onTimeCompletion.value, |Filter(Completed(jobs), OnTime)|, |Completed(jobs)|)
    ensures JobEfficiency(jobs).onTimeCompletion.Some? ==> r == JobEfficiency(jobs)
  {
    OnTimeCorrectionAgrees(jobs);
    Efficiency(AverageJobDuration(jobs), Some(OnTimeCompletion(jobs)))
  }

  // ---------------------------------------------------------------------
  // The report
  // ---------------------------------------------------------------------

  datatype Report = Report(
    start: string,
    end: string,
    revenue: Revenue,
    jobs: JobMetrics,
    clients: ClientMetrics,
    leads: LeadConversion.ConversionStats,
    quotes: QuoteConversion.QuoteStats,
    topPerformingClients: seq<(string, real)>,
    revenueTrend: seq<MonthAmount>,
    jobEfficiency: Efficiency)

  /** A rejected summary fetch rejects the whole `Promise.all`; a query that
      came back without data makes the report throw 'Failed to fetch data for
      report'. */
  datatype ReportError = StatsFailed | DataMissing

  /** `generateBusinessReport(startDate, endDate)` given what the six
      concurrent requests returned (`None` for a query without data). */
  function GenerateBusinessReport(
    start: string, end: string,
    clients: Option<seq<ClientRow>>, jobs: Option<seq<JobRow>>,
    quotes: Option<seq<Quote>>, invoices: Option<seq<InvoiceRow>>,
    leadStats: Result<LeadConversion.ConversionStats, Error>,
    quoteStats: Result<QuoteConversion.QuoteStats, Error>): (r: Result<Report, ReportError>)
    ensures leadStats.Err? || quoteStats.Err? ==> r == Err(StatsFailed)
    ensures leadStats.Ok? && quoteStats.Ok? && (clients.None? || jobs.None? || quotes.None? || invoices.None?) ==>
      r == Err(DataMissing)
    ensures r.Ok? <==> leadStats.Ok? && quoteStats.Ok? && clients.Some? && jobs.Some? && quotes.Some? && invoices.Some?
    ensures r.Ok? ==>
      var rep := r.value;
      && rep.revenue == RevenueOf(invoices.value)
      && rep.jobs == JobMetricsOf(jobs.value)
      && rep.clients == ClientMetricsOf(clients.value)
      && rep.topPerformingClients == TopPerformingClients(invoices.value)
      && rep.revenueTrend == RevenueTrend(invoices.value)
      && rep.jobEfficiency == JobEfficiency(jobs.value)
    ensures r.Ok? ==>
      var rep := r.value;
      && rep.start == start && rep.end == end
      && rep.leads == leadStats.value && rep.quotes == quoteStats.value
      && rep.revenue.total == Sum(invoices.value, Amount)
      && rep.jobs.total == |jobs.value| && rep.clients.total == |clients.value|
      && rep.jobs.completed + rep.jobs.inProgress + rep.jobs.cancelled <= rep.jobs.total
      && IsPercentOf(rep.jobs.completionRate, rep.jobs.completed, rep.jobs.total)
      && IsPercentOf(rep.clients.retentionRate, rep.clients.active, rep.clients.total)
      && |rep.topPerformingClients| <= 5
      && (forall i :: 0 <= i < |rep.revenueTrend| ==>
            rep.revenueTrend[i].amount == SumOfKey(MonthAmounts(invoices.value), rep.revenueTrend[i].month))
      && (rep.jobEfficiency.onTimeCompletion.None? <==> |Completed(jobs.value)| == 0)
      && (rep.jobEfficiency.onTimeCompletion.Some? ==>
            IsPercentOf(rep.jobEfficiency.onTimeCompletion.value,
              |Filter(Completed(jobs.value), OnTime)|, |Completed(jobs.value)|))
  {
    if leadStats.Err? || quoteStats.Err? then Err(StatsFailed)
    else if clients.None? || jobs.None? || quotes.None? || invoices.None? then Err(DataMissing)
    else
      Ok(Report(
        start, end,
        RevenueOf(invoices.value),
        JobMetricsOf(jobs.value),
        ClientMetricsOf(clients.value),
        leadStats.value,
        quoteStats.value,
        TopPerformingClients(invoices.value),
        RevenueTrend(invoices.value),
        JobEfficiency(jobs.value)))
  }
}

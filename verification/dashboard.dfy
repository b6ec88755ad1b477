/** The dashboard (src/app/page.tsx): the summary counters computed from the
    four module lists, the demo figures that replace them, and the widget
    grid's layout with its persistence in the browser's storage. */
module Dashboard {
  import opened Wrappers
  import opened Seqs

  // ---------------------------------------------------------------------
  // Counters
  // ---------------------------------------------------------------------

  /** An invoice as the counters read it: `dueMs` is `new Date(due_date)` in
      milliseconds, `None` for an invalid date, which compares false. */
  datatype InvoiceRow = InvoiceRow(status: string, dueMs: Option<int>)

  /** What the four `getAll` calls and the month's channel reports return;
      `channelRevenues` is `None` when the reports come back null and holds
      each report's `revenue`, `None` where it is null. */
  datatype Loaded = Loaded(
    clientCount: nat, jobStatuses: seq<string>, quoteStatuses: seq<string>,
    invoices: seq<InvoiceRow>, channelRevenues: Option<seq<Option<real>>>)

  datatype Stats = Stats(
    activeJobs: nat, pendingQuotes: nat, unpaidInvoices: nat,
    totalClients: nat, totalRevenue: real, overdueInvoices: nat)

  /** The figures shown when every list is empty. */
  const EmptyDemo := Stats(8, 4, 3, 15, 45750.0, 1)

  /** The figures shown after a failed load. */
  const ErrorDemo := Stats(5, 3, 2, 12, 28900.0, 0)

  predicate Active(status: string) { status == "pending" || status == "in_progress" }
  predicate PendingQuote(status: string) { status == "draft" || status == "sent" }
  predicate Unpaid(x: InvoiceRow) { x.status == "sent" || x.status == "overdue" }
  predicate SentInvoice(x: InvoiceRow) { x.status == "sent" }
  predicate OverdueStatus(x: InvoiceRow) { x.status == "overdue" }

  /** `overdueInvoices`' test: sent, with a due date before `now`. */
  predicate PastDue(x: InvoiceRow, now: int) {
    x.status == "sent" && x.dueMs.Some? && x.dueMs.value < now
  }

  function RevenueOrZero(v: Option<real>): real { if v.Some? then v.value else 0.0 }

  /** `channelReports?.reduce((sum, c) => sum + (c.revenue || 0), 0) || 0`. */
  function MarketingRevenue(reports: Option<seq<Option<real>>>): (r: real)
    ensures reports.None? ==> r == 0.0
    ensures reports.Some? && (forall v :: v in reports.value && v.Some? ==> v.value >= 0.0) ==> r >= 0.0
  {
    if reports.None? then 0.0
    else
      assert (forall v :: v in reports.value && v.Some? ==> v.value >= 0.0) ==> Sum(reports.value, RevenueOrZero) >= 0.0 by {
        if forall v :: v in reports.value && v.Some? ==> v.value >= 0.0 {
          SumNonNegative(reports.value, RevenueOrZero);
        }
      }
      Sum(reports.value, RevenueOrZero)
  }

  predicate HasRealData(d: Loaded) {
    d.clientCount > 0 || |d.jobStatuses| > 0 || |d.quoteStatuses| > 0 || |d.invoices| > 0
  }

  /** `loadDashboardData`: a failed load shows the error figures and the
      message; a load with all four lists empty shows the demo figures; any
      other load shows the counts. */
  function LoadDashboard(data: Result<Loaded, string>, now: int): (r: (Stats, Option<string>))
    ensures data.Err? ==> r == (ErrorDemo, Some(data.error))
    ensures data.Ok? ==> r.1.None?
    ensures data.Ok? && !HasRealData(data.value) ==> r.0 == EmptyDemo
    ensures data.Ok? && HasRealData(data.value) ==>
      var d := data.value;
      && r.0.activeJobs == |Filter(d.jobStatuses, Active)|
      && r.0.pendingQuotes == |Filter(d.quoteStatuses, PendingQuote)|
      && r.0.unpaidInvoices == |Filter(d.invoices, Unpaid)|
      && r.0.totalClients == d.clientCount
      && r.0.totalRevenue == MarketingRevenue(d.channelRevenues)
      && r.0.overdueInvoices == |Filter(d.invoices, (x: InvoiceRow) => PastDue(x, now))|
  {
    if data.Err? then (ErrorDemo, Some(data.error))
    else
      var d := data.value;
      if !HasRealData(d) then (EmptyDemo, None)
      else
        (Stats(
          |Filter(d.jobStatuses, Active)|, |Filter(d.quoteStatuses, PendingQuote)|,
          |Filter(d.invoices, Unpaid)|, d.clientCount, MarketingRevenue(d.channelRevenues),
          |Filter(d.invoices, (x: InvoiceRow) => PastDue(x, now))|), None)
  }

  /** Every past-due invoice is unpaid, so the overdue counter never exceeds
      the unpaid one, whichever figures the dashboard shows. */
  lemma OverdueWithinUnpaid(data: Result<Loaded, string>, now: int)
    ensures LoadDashboard(data, now).0.overdueInvoices <= LoadDashboard(data, now).0.unpaidInvoices
  {
    if data.Ok? && HasRealData(data.value) {
      CountMonotone(data.value.invoices, (x: InvoiceRow) => PastDue(x, now), Unpaid);
    }
  }

  /** The unpaid counter is the sent invoices plus the overdue ones. */
  lemma {:induction false} UnpaidIsSentPlusOverdue(invoices: seq<InvoiceRow>)
    ensures |Filter(invoices, Unpaid)| == |Filter(invoices, SentInvoice)| + |Filter(invoices, OverdueStatus)|
  {
    if |invoices| > 0 {
      UnpaidIsSentPlusOverdue(invoices[1..]);
    }
  }

  /** An invoice stored as `overdue` is never counted as overdue: only `sent`
      ones with a past due date are. */
  lemma OverdueStatusNotCounted(invoices: seq<InvoiceRow>, now: int)
    requires forall x :: x in invoices ==> x.status == "overdue"
    ensures |Filter(invoices, (x: InvoiceRow) => PastDue(x, now))| == 0
  {
    var f := Filter(invoices, (x: InvoiceRow) => PastDue(x, now));
    if |f| > 0 {
      assert f[0] in invoices;
    }
  }

  // ---------------------------------------------------------------------
  // Layout
  // ---------------------------------------------------------------------

  /** A grid item; `minW`/`minH` are `None` where the object has no such key. */
  datatype LayoutItem = LayoutItem(i: string, x: int, y: int, w: int, h: int, minW: Option<int>, minH: Option<int>)

  function Item(i: string, x: int, y: int, w: int, h: int, minW: int, minH: int): LayoutItem {
    LayoutItem(i, x, y, w, h, Some(minW), Some(minH))
  }

  /** `defaultLayout` as written, with a `calendar` slot. */
  const DefaultLayoutAsWritten: seq<LayoutItem> := [
    Item("schedule", 0, 0, 8, 6, 4, 4),
    Item("activeJobs", 8, 0, 4, 3, 2, 2),
    Item("pendingQuotes", 8, 3, 4, 3, 2, 2),
    Item("unpaidInvoices", 0, 6, 4, 3, 2, 2),
    Item("totalClients", 4, 6, 4, 3, 2, 2),
    Item("calendar", 8, 6, 4, 6, 3, 4),
    Item("activity", 0, 9, 8, 6, 4, 4)
  ]

  /** The keys of the `widgets` object the grid renders. */
  const WidgetIds: set<string> :=
    {"schedule", "activeJobs", "pendingQuotes", "unpaidInvoices", "totalClients", "activity"}

  function Ids(layout: seq<LayoutItem>): set<string> {
    set k | 0 <= k < |layout| :: layout[k].i
  }

  /** The layout ids no widget renders. */
  function UnrenderedIds(layout: seq<LayoutItem>): (r: set<string>)
    ensures forall id :: id in r <==> id in Ids(layout) && id !in WidgetIds
  {
    Ids(layout) - WidgetIds
  }

  /** The written default layout reserves a slot that no widget fills. */
  lemma CalendarSlotIsEmpty()
    ensures UnrenderedIds(DefaultLayoutAsWritten) == {"calendar"}
  {
    assert DefaultLayoutAsWritten[5].i == "calendar";
    assert Ids(DefaultLayoutAsWritten) == WidgetIds + {"calendar"} by {
      forall id | id in Ids(DefaultLayoutAsWritten) ensures id in WidgetIds + {"calendar"} {
        var k :| 0 <= k < 7 && DefaultLayoutAsWritten[k].i == id;
      }
      assert DefaultLayoutAsWritten[0].i == "schedule";
      assert DefaultLayoutAsWritten[1].i == "activeJobs";
      assert DefaultLayoutAsWritten[2].i == "pendingQuotes";
      assert DefaultLayoutAsWritten[3].i == "unpaidInvoices";
      assert DefaultLayoutAsWritten[4].i == "totalClients";
      assert DefaultLayoutAsWritten[6].i == "activity";
    }
  }

  /** The default layout with one slot per widget: the written one without the
      empty `calendar` slot. */
  const DefaultLayout: seq<LayoutItem> := DefaultLayoutAsWritten[..5] + DefaultLayoutAsWritten[6..]

  /** Every slot of the corrected default has a widget and every widget a slot. */
  lemma DefaultLayoutMatchesWidgets()
    ensures UnrenderedIds(DefaultLayout) == {}
    ensures Ids(DefaultLayout) == WidgetIds
  {
    assert DefaultLayout == [
      Item("schedule", 0, 0, 8, 6, 4, 4),
      Item("activeJobs", 8, 0, 4, 3, 2, 2),
      Item("pendingQuotes", 8, 3, 4, 3, 2, 2),
      Item("unpaidInvoices", 0, 6, 4, 3, 2, 2),
      Item("totalClients", 4, 6, 4, 3, 2, 2),
      Item("activity", 0, 9, 8, 6, 4, 4)];
    forall id | id in Ids(DefaultLayout) ensures id in WidgetIds {
      var k :| 0 <= k < 6 && DefaultLayout[k].i == id;
    }
    assert DefaultLayout[0].i == "schedule";
    assert DefaultLayout[1].i == "activeJobs";
    assert DefaultLayout[2].i == "pendingQuotes";
    assert DefaultLayout[3].i == "unpaidInvoices";
    assert DefaultLayout[4].i == "totalClients";
    assert DefaultLayout[5].i == "activity";
  }

  /** `k` is the first position of `layout` holding `id`. */
  predicate FirstWithId(layout: seq<LayoutItem>, id: string, k: int) {
    0 <= k < |layout| && layout[k].i == id && forall j :: 0 <= j < k ==> layout[j].i != id
  }

  /** `newLayout.find(n => n.i === id)`. */
  function Find(newLayout: seq<LayoutItem>, id: string): (r: Option<LayoutItem>)
    ensures r.None? <==> forall k :: 0 <= k < |newLayout| ==> newLayout[k].i != id
    ensures r.Some? ==> r.value.i == id && (exists k :: FirstWithId(newLayout, id, k) && newLayout[k] == r.value)
  {
    if |newLayout| == 0 then None
    else if newLayout[0].i == id then Some(newLayout[0])
    else
      var r := Find(newLayout[1..], id);
      if r.Some? then
        var k :| FirstWithId(newLayout[1..], id, k) && newLayout[1..][k] == r.value;
        assert newLayout[k + 1] == r.value;
        assert FirstWithId(newLayout, id, k + 1) by {
          forall j | 0 <= j < k + 1 ensures newLayout[j].i != id {
            if j > 0 { assert newLayout[j] == newLayout[1..][j - 1]; }
          }
        }
        r
      else
        assert forall k :: 1 <= k < |newLayout| ==> newLayout[k] == newLayout[1..][k - 1];
        r
  }

  /** `{ ...item, ...n }`: the reported item's fields win, and a minimum the
      reported item has no key for is kept. */
  function Spread(item: LayoutItem, n: LayoutItem): (r: LayoutItem)
    ensures r.(minW := n.minW, minH := n.minH) == n
    ensures n.minW.None? ==> r.minW == item.minW
    ensures n.minH.None? ==> r.minH == item.minH
    ensures n.minW.Some? && n.minH.Some? ==> r == n
  {
    LayoutItem(n.i, n.x, n.y, n.w, n.h,
      if n.minW.Some? then n.minW else item.minW,
      if n.minH.Some? then n.minH else item.minH)
  }

  /** `handleLayoutChange`'s merge: the items and their order stay, each takes
      the position and size of the first reported item with its id, and an
      item the grid does not report is unchanged. */
  function MergeLayout(layout: seq<LayoutItem>, newLayout: seq<LayoutItem>): (r: seq<LayoutItem>)
    ensures |r| == |layout|
    ensures forall k :: 0 <= k < |layout| ==> r[k].i == layout[k].i
    ensures forall k :: 0 <= k < |layout| && Find(newLayout, layout[k].i).None? ==> r[k] == layout[k]
    ensures forall k :: 0 <= k < |layout| && Find(newLayout, layout[k].i).Some? ==>
      var n := Find(newLayout, layout[k].i).value;
      && r[k].x == n.x && r[k].y == n.y && r[k].w == n.w && r[k].h == n.h
      && (n.minW.None? ==> r[k].minW == layout[k].minW)
      && (n.minH.None? ==> r[k].minH == layout[k].minH)
  {
    seq(|layout|, k requires 0 <= k < |layout| =>
      var n := Find(newLayout, layout[k].i);
      if n.Some? then Spread(layout[k], n.value) else layout[k])
  }

  /** Reporting the same grid twice changes nothing the second time. */
  lemma MergeIdempotent(layout: seq<LayoutItem>, newLayout: seq<LayoutItem>)
    ensures MergeLayout(MergeLayout(layout, newLayout), newLayout) == MergeLayout(layout, newLayout)
  {
    var once := MergeLayout(layout, newLayout);
    var twice := MergeLayout(once, newLayout);
    forall k | 0 <= k < |layout| ensures twice[k] == once[k] {
      assert once[k].i == layout[k].i;
    }
  }

  /** What the browser's storage holds under `dashboardLayout`. */
  datatype Saved = Absent | Unreadable | Layout(items: seq<LayoutItem>)

  datatype Page = Page(layout: seq<LayoutItem>, saved: Saved)

  /** The mount effect: a readable saved layout replaces the default. */
  function Mount(saved: Saved): (p: Page)
    ensures p.saved == saved
    ensures saved.Layout? ==> p.layout == saved.items
    ensures !saved.Layout? ==> p.layout == DefaultLayout
  {
    Page(if saved.Layout? then saved.items else DefaultLayout, saved)
  }

  /** `handleLayoutChange`: merge and save, so a reload shows the same layout. */
  function HandleLayoutChange(p: Page, newLayout: seq<LayoutItem>): (r: Page)
    ensures r.layout == MergeLayout(p.layout, newLayout)
    ensures Mount(r.saved).layout == r.layout
    ensures Ids(r.layout) == Ids(p.layout)
  {
    var merged := MergeLayout(p.layout, newLayout);
    assert Ids(merged) == Ids(p.layout) by {
      forall id | id in Ids(p.layout) ensures id in Ids(merged) {
        var k :| 0 <= k < |p.layout| && p.layout[k].i == id;
        assert merged[k].i == id;
      }
    }
    Page(merged, Layout(merged))
  }

  /** `resetLayout`: the default comes back, and stays after a reload. */
  function ResetLayout(p: Page): (r: Page)
    ensures r.layout == DefaultLayout
    ensures Mount(r.saved) == r
  {
    Page(DefaultLayout, Absent)
  }
}

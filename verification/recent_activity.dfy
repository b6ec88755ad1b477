/** The dashboard's recent-activity widget
    (src/components/dashboard/RecentActivityWidget.tsx): the first few rows of
    each module become activity items, merged newest first and cut to ten,
    with demo items in place of an empty or failed load. */
module RecentActivity {
  import opened Wrappers
  import opened Strings
  import opened Seqs

  // ---------------------------------------------------------------------
  // Relative time
  // ---------------------------------------------------------------------

  /** The label `getRelativeTime` chooses; `OnDate` stands for the locale date. */
  datatype Relative = JustNow | Minutes(n: nat) | Hours(n: nat) | Days(n: nat) | OnDate

  /** `Math.floor((now - then) / 1000)`; with a positive divisor Dafny's
      division is the floor. */
  function ElapsedSeconds(nowMs: int, thenMs: int): int {
    (nowMs - thenMs) / 1000
  }

  /** `getRelativeTime`: under a minute (or in the future) is "just now", then
      whole minutes, hours and days below a week, then the date. */
  function RelativeTime(nowMs: int, thenMs: int): (r: Relative)
    ensures var e := ElapsedSeconds(nowMs, thenMs);
      && (r.JustNow? <==> e < 60)
      && (r.Minutes? <==> 60 <= e < 3600)
      && (r.Hours? <==> 3600 <= e < 86400)
      && (r.Days? <==> 86400 <= e < 604800)
      && (r.OnDate? <==> 604800 <= e)
    ensures r.Minutes? ==> 1 <= r.n <= 59
    ensures r.Hours? ==> 1 <= r.n <= 23
    ensures r.Days? ==> 1 <= r.n <= 6
  {
    var e := ElapsedSeconds(nowMs, thenMs);
    if e < 60 then JustNow
    else if e < 3600 then Minutes(e / 60)
    else if e < 86400 then Hours(e / 3600)
    else if e < 604800 then Days(e / 86400)
    else OnDate
  }

  /** The seconds one unit of a counted label stands for. */
  function UnitSeconds(r: Relative): nat
    requires r.Minutes? || r.Hours? || r.Days?
  {
    match r
    case Minutes(_) => 60
    case Hours(_) => 3600
    case Days(_) => 86400
  }

  /** A counted label rounds the elapsed time down to whole units. */
  lemma RelativeTimeRoundsDown(nowMs: int, thenMs: int)
    ensures var r := RelativeTime(nowMs, thenMs);
      r.Minutes? || r.Hours? || r.Days? ==>
        r.n * UnitSeconds(r) <= ElapsedSeconds(nowMs, thenMs) < (r.n + 1) * UnitSeconds(r)
  {
  }

  function Rank(r: Relative): nat {
    match r
    case JustNow => 0
    case Minutes(_) => 1
    case Hours(_) => 2
    case Days(_) => 3
    case OnDate => 4
  }

  /** An older timestamp never gets a label of a younger kind, nor a smaller
      count of the same kind. */
  lemma RelativeTimeMonotone(nowMs: int, older: int, newer: int)
    requires older <= newer
    ensures var a := RelativeTime(nowMs, older);
      var b := RelativeTime(nowMs, newer);
      Rank(a) >= Rank(b) && (Rank(a) == Rank(b) && (a.Minutes? || a.Hours? || a.Days?) ==> a.n >= b.n)
  {
    var e1 := ElapsedSeconds(nowMs, older);
    var e2 := ElapsedSeconds(nowMs, newer);
    assert e2 <= e1;
    assert e2 / 60 <= e1 / 60;
    assert e2 / 3600 <= e1 / 3600;
    assert e2 / 86400 <= e1 / 86400;
  }

  // ---------------------------------------------------------------------
  // Status text
  // ---------------------------------------------------------------------

  /** A job's status in an activity title. */
  function JobStatusText(status: string): (t: string)
    ensures status == "pending" ==> t == "scheduled"
    ensures status == "in_progress" ==> t == "started"
    ensures status != "pending" && status != "in_progress" ==> t == status
  {
    if status == "pending" then "scheduled"
    else if status == "in_progress" then "started"
    else if status == "completed" then "completed"
    else status
  }

  /** A quote's status in an activity title. */
  function QuoteStatusText(status: string): (t: string)
    ensures status == "draft" ==> t == "created"
    ensures status != "draft" ==> t == status
  {
    if status == "draft" then "created"
    else if status == "sent" then "sent"
    else if status == "accepted" then "accepted"
    else status
  }

  /** An invoice's status in an activity title: every branch names the status
      it tests, so the text is always the status itself. */
  function InvoiceStatusText(status: string): (t: string)
    ensures t == status
  {
    if status == "paid" then "paid"
    else if status == "sent" then "sent"
    else if status == "overdue" then "overdue"
    else status
  }

  /** The job text renames exactly the two statuses it maps to new words. */
  lemma JobStatusTextRenames(status: string)
    ensures JobStatusText(status) != status <==> status == "pending" || status == "in_progress"
  {
  }

  // ---------------------------------------------------------------------
  // Activity items
  // ---------------------------------------------------------------------

  datatype Kind = ClientKind | JobKind | QuoteKind | InvoiceKind

  /** An activity item; `timeMs` is its `created_at` in milliseconds. */
  datatype Item = Item(id: string, kind: Kind, title: string, timeMs: int)

  datatype ClientRow = ClientRow(id: int, name: string, createdMs: int)
  datatype StatusRow = StatusRow(id: int, status: string, title: string, createdMs: int)

  datatype Sources = Sources(clients: seq<ClientRow>, jobs: seq<StatusRow>, quotes: seq<StatusRow>, invoices: seq<StatusRow>)

  function ClientItem(c: ClientRow): Item {
    Item("client-" + IntToString(c.id), ClientKind, "New client added: " + c.name, c.createdMs)
  }

  function JobItem(j: StatusRow): Item {
    Item("job-" + IntToString(j.id), JobKind, "Job " + JobStatusText(j.status) + ": " + j.title, j.createdMs)
  }

  function QuoteItem(q: StatusRow): Item {
    Item("quote-" + IntToString(q.id), QuoteKind, "Quote " + QuoteStatusText(q.status) + ": #" + IntToString(q.id), q.createdMs)
  }

  function InvoiceItem(v: StatusRow): Item {
    Item("invoice-" + IntToString(v.id), InvoiceKind, "Invoice " + InvoiceStatusText(v.status) + ": #" + IntToString(v.id), v.createdMs)
  }

  /** `rows.forEach(row => recentActivities.push(f(row)))`. */
  function Items<T>(rows: seq<T>, f: T -> Item): (r: seq<Item>)
    ensures |r| == |rows|
    ensures forall i :: 0 <= i < |rows| ==> r[i] == f(rows[i])
  {
    seq(|rows|, i requires 0 <= i < |rows| => f(rows[i]))
  }

  function Min(a: nat, b: nat): nat { if a <= b then a else b }

  /** The items before sorting: the first 5 clients, 5 jobs, 3 quotes and 3
      invoices, in that order. */
  function Merged(src: Sources): (r: seq<Item>)
    ensures |r| == Min(|src.clients|, 5) + Min(|src.jobs|, 5) + Min(|src.quotes|, 3) + Min(|src.invoices|, 3)
  {
    Items(Take(src.clients, 5), ClientItem) + Items(Take(src.jobs, 5), JobItem)
      + Items(Take(src.quotes, 3), QuoteItem) + Items(Take(src.invoices, 3), InvoiceItem)
  }

  predicate OfKind(k: Kind, x: Item) { x.kind == k }

  lemma {:induction false} KindCount<T>(rows: seq<T>, f: T -> Item, k: Kind)
    requires forall t :: t in rows ==> f(t).kind == k
    ensures Filter(Items(rows, f), (x: Item) => OfKind(k, x)) == Items(rows, f)
  {
    forall x | x in Items(rows, f) ensures OfKind(k, x) {
      var i :| 0 <= i < |rows| && Items(rows, f)[i] == x;
      assert rows[i] in rows;
    }
    FilterAll(Items(rows, f), (x: Item) => OfKind(k, x));
  }

  lemma {:induction false} OtherKindCount<T>(rows: seq<T>, f: T -> Item, k: Kind)
    requires forall t :: t in rows ==> f(t).kind != k
    ensures Filter(Items(rows, f), (x: Item) => OfKind(k, x)) == []
  {
    forall x | x in Items(rows, f) ensures !OfKind(k, x) {
      var i :| 0 <= i < |rows| && Items(rows, f)[i] == x;
      assert rows[i] in rows;
    }
    FilterNone(Items(rows, f), (x: Item) => OfKind(k, x));
  }

  /** The merged items of one kind are exactly that module's contribution. */
  lemma MergedOfKind(src: Sources, k: Kind)
    ensures |Filter(Merged(src), (x: Item) => OfKind(k, x))| ==
      if k == ClientKind then Min(|src.clients|, 5)
      else if k == JobKind then Min(|src.jobs|, 5)
      else if k == QuoteKind then Min(|src.quotes|, 3)
      else Min(|src.invoices|, 3)
  {
    var c := Items(Take(src.clients, 5), ClientItem);
    var j := Items(Take(src.jobs, 5), JobItem);
    var q := Items(Take(src.quotes, 3), QuoteItem);
    var v := Items(Take(src.invoices, 3), InvoiceItem);
    var p := (x: Item) => OfKind(k, x);
    FilterConcat(c + j + q, v, p);
    FilterConcat(c + j, q, p);
    FilterConcat(c, j, p);
    if k == ClientKind { KindCount(Take(src.clients, 5), ClientItem, k); } else { OtherKindCount(Take(src.clients, 5), ClientItem, k); }
    if k == JobKind { KindCount(Take(src.jobs, 5), JobItem, k); } else { OtherKindCount(Take(src.jobs, 5), JobItem, k); }
    if k == QuoteKind { KindCount(Take(src.quotes, 3), QuoteItem, k); } else { OtherKindCount(Take(src.quotes, 3), QuoteItem, k); }
    if k == InvoiceKind { KindCount(Take(src.invoices, 3), InvoiceItem, k); } else { OtherKindCount(Take(src.invoices, 3), InvoiceItem, k); }
  }

  /** At most 5 clients, 5 jobs, 3 quotes and 3 invoices contribute, and each
      contributes as many items as it has rows up to that limit. */
  lemma MergedKindCounts(src: Sources)
    ensures |Filter(Merged(src), (x: Item) => OfKind(ClientKind, x))| == Min(|src.clients|, 5)
    ensures |Filter(Merged(src), (x: Item) => OfKind(JobKind, x))| == Min(|src.jobs|, 5)
    ensures |Filter(Merged(src), (x: Item) => OfKind(QuoteKind, x))| == Min(|src.quotes|, 3)
    ensures |Filter(Merged(src), (x: Item) => OfKind(InvoiceKind, x))| == Min(|src.invoices|, 3)
  {
    MergedOfKind(src, ClientKind);
    MergedOfKind(src, JobKind);
    MergedOfKind(src, QuoteKind);
    MergedOfKind(src, InvoiceKind);
  }

  // ---------------------------------------------------------------------
  // Newest first
  // ---------------------------------------------------------------------

  /** The comparator `b.time - a.time`: `a` goes first when it is newer. */
  predicate Newer(a: Item, b: Item) { a.timeMs > b.timeMs }

  lemma NewerIsStrictWeakOrder()
    ensures StrictWeakOrder(Newer)
  {
  }

  /** The ten items shown: the merged items newest first, cut to ten. */
  function Newest(items: seq<Item>): (r: seq<Item>)
    ensures |r| == Min(|items|, 10)
    ensures SortedBy(r, Newer)
    ensures multiset(r) <= multiset(items)
    ensures forall x, y :: x in items && multiset(r)[x] < multiset(items)[x] && y in r ==> !Newer(x, y)
  {
    var t := SortBy(items, Newer);
    NewerIsStrictWeakOrder();
    SortBySorted(items, Newer);
    var r := Take(t, 10);
    assert t == r + t[|r|..];
    assert multiset(t) == multiset(r) + multiset(t[|r|..]);
    forall x, y | x in items && multiset(r)[x] < multiset(items)[x] && y in r ensures !Newer(x, y) {
      assert x in multiset(t[|r|..]);
      var j :| 0 <= j < |t[|r|..]| && t[|r|..][j] == x;
      var i :| 0 <= i < |r| && r[i] == y;
      assert t[i] == y && t[|r| + j] == x;
    }
    r
  }

  /** The five demo items shown when there is no activity. */
  function DemoItems(nowMs: int): seq<Item> {
    [ Item("demo-client-1", ClientKind, "New client added: Smith Electronics", nowMs - 2 * 3600000),
      Item("demo-job-1", JobKind, "Job completed: Kitchen Rewiring", nowMs - 4 * 3600000),
      Item("demo-quote-1", QuoteKind, "Quote sent: Office Building Upgrade", nowMs - 6 * 3600000),
      Item("demo-invoice-1", InvoiceKind, "Invoice paid: #1234", nowMs - 8 * 3600000),
      Item("demo-job-2", JobKind, "Job started: Panel Installation", nowMs - 24 * 3600000) ]
  }

  /** The single item shown after a failed load. */
  function ErrorItem(nowMs: int): Item {
    Item("demo-error-1", ClientKind, "System Demo Mode", nowMs)
  }

  predicate NoRows(src: Sources) {
    |src.clients| == 0 && |src.jobs| == 0 && |src.quotes| == 0 && |src.invoices| == 0
  }

  /** `loadRecentActivity`: a failed load shows one demo item and the message;
      a load with no rows at all shows the five demo items; otherwise the
      newest ten merged items, newest first. */
  function LoadRecentActivity(data: Result<Sources, string>, nowMs: int): (r: (seq<Item>, Option<string>))
    ensures data.Err? ==> r == ([ErrorItem(nowMs)], Some(data.error))
    ensures data.Ok? ==> r.1.None? && 1 <= |r.0| <= 10 && SortedBy(r.0, Newer)
    ensures data.Ok? && NoRows(data.value) ==> r.0 == DemoItems(nowMs)
    ensures data.Ok? && !NoRows(data.value) ==> forall x :: x in r.0 ==> x in Merged(data.value)
    ensures data.Ok? && !NoRows(data.value) ==> r.0 == Newest(Merged(data.value))
    ensures data.Ok? && !NoRows(data.value) ==> |r.0| == Min(|Merged(data.value)|, 10)
  {
    if data.Err? then ([ErrorItem(nowMs)], Some(data.error))
    else
      var shown := Newest(Merged(data.value));
      if |shown| == 0 then
        DemoItemsNewestFirst(nowMs);
        (DemoItems(nowMs), None)
      else
        NewestAreMembers(Merged(data.value));
        (shown, None)
  }

  /** The demo items are listed newest first. */
  lemma DemoItemsNewestFirst(nowMs: int)
    ensures SortedBy(DemoItems(nowMs), Newer)
  {
    assert forall i, j :: 0 <= i < j < 5 ==> DemoItems(nowMs)[i].timeMs > DemoItems(nowMs)[j].timeMs;
  }

  /** Every item shown is one of the items given. */
  lemma NewestAreMembers(items: seq<Item>)
    ensures forall x :: x in Newest(items) ==> x in items
  {
    var r := Newest(items);
    forall x | x in r ensures x in items {
      assert x in multiset(r);
    }
  }
}

/** The invoices list page (src/app/invoices/page.tsx): the counts of the
    status bar, the search and the two select filters, the three money
    totals, and the inline status select. The page loads raw `invoices` rows
    (with lower-case statuses and no `clientName`, `jobTitle` or `paidAmount`
    column) but reads them as if they had the capitalised statuses and the
    extra fields of its demo type. */
module InvoicesPage {
  import opened Wrappers
  import opened Strings
  import opened Seqs
  import opened EntityStore
  import FlowStates

  /** The fields of a loaded row the page reads; a field the row lacks is `None`. */
  datatype Row = Row(id: int, status: string, amount: real, paidAmount: Option<real>,
    clientName: Option<string>, jobTitle: Option<string>)

  // ---------------------------------------------------------------------
  // Status bar
  // ---------------------------------------------------------------------

  /** How many rows have `status`: none exactly when no row has it, all
      exactly when every row has it. */
  function CountWithStatus(rows: seq<Row>, status: string): (r: nat)
    ensures r <= |rows|
    ensures r == 0 <==> forall x :: x in rows ==> x.status != status
    ensures r == |rows| <==> forall x :: x in rows ==> x.status == status
  {
    FilterCountExtremes(rows, (x: Row) => x.status == status);
    |Filter(rows, (x: Row) => x.status == status)|
  }

  /** The keys of the status bar: `All` and the invoice stage keys. */
  function StatusBarKeys(): set<string> {
    {"All"} + set k | k in FlowStates.InvoiceStatusOrder
  }

  /** `statusCounts`: `All` counts every row, every stage key the rows with
      exactly that status. */
  function StatusCounts(rows: seq<Row>): (r: map<string, nat>)
    ensures r.Keys == StatusBarKeys()
    ensures r["All"] == |rows|
    ensures forall k :: k in FlowStates.InvoiceStatusOrder ==> r[k] == CountWithStatus(rows, k)
  {
    map k | k in StatusBarKeys() :: if k == "All" then |rows| else CountWithStatus(rows, k)
  }

  // ---------------------------------------------------------------------
  // Filters
  // ---------------------------------------------------------------------

  predicate MatchesStatus(x: Row, statusFilter: string) {
    statusFilter == "All" || x.status == statusFilter
  }

  predicate MatchesOverdue(x: Row, overdueFilter: string) {
    || overdueFilter == "All"
    || (overdueFilter == "Overdue" && x.status == "Overdue")
    || (overdueFilter == "Not Overdue" && x.status != "Overdue")
  }

  /** `invoice.jobTitle && invoice.jobTitle.toLowerCase().includes(t)`. */
  predicate JobTitleMatches(x: Row, t: string) {
    x.jobTitle.Some? && x.jobTitle.value != "" && Contains(Lower(x.jobTitle.value), t)
  }

  predicate IdMatches(x: Row, t: string) {
    Contains(Lower(IntToString(x.id)), t)
  }

  /** The search as written: `None` when it reaches `invoice.clientName.toLowerCase()`
      on a row without that field, which throws a `TypeError`. */
  function SearchAsWritten(x: Row, term: string): (r: Option<bool>)
    ensures r.None? <==> !IdMatches(x, Lower(term)) && x.clientName.None?
    ensures r.Some? ==> (r.value <==>
      IdMatches(x, Lower(term)) || Contains(Lower(x.clientName.value), Lower(term)) || JobTitleMatches(x, Lower(term)))
  {
    var t := Lower(term);
    if IdMatches(x, t) then Some(true)
    else if x.clientName.None? then None
    else Some(Contains(Lower(x.clientName.value), t) || JobTitleMatches(x, t))
  }

  /** `filteredInvoices` as written: `None` when the search throws on some row. */
  function FilteredInvoicesAsWritten(rows: seq<Row>, term: string, statusFilter: string, overdueFilter: string): (r: Option<seq<Row>>)
    ensures r.None? <==> exists i :: 0 <= i < |rows| && SearchAsWritten(rows[i], term).None?
    ensures r.Some? ==> forall x :: x in r.value <==>
      x in rows && SearchAsWritten(x, term) == Some(true) && MatchesStatus(x, statusFilter) && MatchesOverdue(x, overdueFilter)
  {
    if |rows| == 0 then Some([])
    else
      var head := SearchAsWritten(rows[0], term);
      var tail := FilteredInvoicesAsWritten(rows[1..], term, statusFilter, overdueFilter);
      assert forall i :: 1 <= i < |rows| ==> rows[i] == rows[1..][i - 1];
      assert rows == [rows[0]] + rows[1..];
      if head.None? then None
      else if tail.None? then
        assert exists i :: 0 <= i < |rows| - 1 && SearchAsWritten(rows[1..][i], term).None?;
        None
      else
        var keep := head.value && MatchesStatus(rows[0], statusFilter) && MatchesOverdue(rows[0], overdueFilter);
        Some((if keep then [rows[0]] else []) + tail.value)
  }

  /** Any loaded row searched for text outside its id makes the page throw. */
  lemma SearchThrowsOnLoadedRows()
    ensures FilteredInvoicesAsWritten([Row(7, "sent", 100.0, None, None, None)], "smith", "All", "All").None?
  {
    var x := Row(7, "sent", 100.0, None, None, None);
    assert !IdMatches(x, Lower("smith")) by {
      assert Lower("smith") == "smith";
      assert IntToString(7) == "7";
      assert Lower("7") == "7";
      NotContainedInShorter("7", "smith");
    }
    assert SearchAsWritten(x, "smith").None?;
    assert [x][0] == x;
  }

  lemma {:induction false} NotContainedInShorter(s: string, t: string)
    requires |s| < |t|
    ensures !Contains(s, t)
  {
    ContainsIffOccurs(s, t);
    if exists i :: OccursAt(s, t, i) {
      var i :| OccursAt(s, t, i);
    }
  }

  /** The search as intended: a row without a client name simply does not
      match on it. The empty search matches every row, and a client name
      containing the text matches. */
  predicate Search(x: Row, term: string)
    ensures term == "" ==> Search(x, term)
    ensures x.clientName.Some? && Contains(Lower(x.clientName.value), Lower(term)) ==> Search(x, term)
  {
    EmptyIsContained(Lower(IntToString(x.id)));
    var t := Lower(term);
    IdMatches(x, t) || (x.clientName.Some? && Contains(Lower(x.clientName.value), t)) || JobTitleMatches(x, t)
  }

  /** `filteredInvoices` with the guarded search: the conjunction of the search,
      the status select and the overdue select, `All` constraining nothing. */
  function FilteredInvoices(rows: seq<Row>, term: string, statusFilter: string, overdueFilter: string): (r: seq<Row>)
    ensures forall x :: x in r <==>
      x in rows && Search(x, term) && MatchesStatus(x, statusFilter) && MatchesOverdue(x, overdueFilter)
    ensures statusFilter == "All" && overdueFilter == "All" && term == "" ==> r == rows
  {
    var p := (x: Row) => Search(x, term) && MatchesStatus(x, statusFilter) && MatchesOverdue(x, overdueFilter);
    assert statusFilter == "All" && overdueFilter == "All" && term == "" ==> Filter(rows, p) == rows by {
      if statusFilter == "All" && overdueFilter == "All" && term == "" {
        forall x | x in rows ensures p(x) {
          EmptyIsContained(Lower(IntToString(x.id)));
        }
        FilterAll(rows, p);
      }
    }
    Filter(rows, p)
  }

  /** Wherever the written search does not throw, it keeps the same rows as the
      guarded one. */
  lemma FilterCorrectionAgrees(rows: seq<Row>, term: string, statusFilter: string, overdueFilter: string)
    ensures var w := FilteredInvoicesAsWritten(rows, term, statusFilter, overdueFilter);
      w.Some? ==> forall x :: x in w.value <==> x in FilteredInvoices(rows, term, statusFilter, overdueFilter)
  {
    var w := FilteredInvoicesAsWritten(rows, term, statusFilter, overdueFilter);
    if w.Some? {
      forall x | x in rows ensures SearchAsWritten(x, term) == Some(true) <==> Search(x, term) {
        var i :| 0 <= i < |rows| && rows[i] == x;
      }
    }
  }

  // ---------------------------------------------------------------------
  // Totals
  // ---------------------------------------------------------------------

  function Amount(x: Row): real { x.amount }

  /** `inv.paidAmount || 0`. */
  function PaidOrZero(x: Row): real { if x.paidAmount.Some? then x.paidAmount.value else 0.0 }

  predicate Outstanding(x: Row) { x.status != "Paid" && x.status != "Draft" }
  predicate Overdue(x: Row) { x.status == "Overdue" }
  predicate Paid(x: Row) { x.status == "Paid" }

  datatype MoneyTotals = MoneyTotals(outstanding: real, overdue: real, paid: real)

  /** `totalOutstanding`, `totalOverdue` and `totalPaid` as written, against the
      capitalised stage names. Overdue rows are outstanding, so over
      non-negative amounts the overdue total never exceeds the outstanding one. */
  function TotalsAsWritten(rows: seq<Row>): (r: MoneyTotals)
    ensures r.outstanding == Sum(Filter(rows, Outstanding), Amount)
    ensures r.overdue == Sum(Filter(rows, Overdue), Amount)
    ensures r.paid == Sum(Filter(rows, Paid), PaidOrZero)
    ensures (forall x :: x in rows ==> x.amount >= 0.0) ==> r.overdue <= r.outstanding
  {
    assert (forall x :: x in rows ==> x.amount >= 0.0) ==>
      Sum(Filter(rows, Overdue), Amount) <= Sum(Filter(rows, Outstanding), Amount) by {
      if forall x :: x in rows ==> x.amount >= 0.0 {
        SumMonotone(rows, Amount, Overdue, Outstanding);
      }
    }
    MoneyTotals(Sum(Filter(rows, Outstanding), Amount), Sum(Filter(rows, Overdue), Amount), Sum(Filter(rows, Paid), PaidOrZero))
  }

  /** A status the `invoices` CHECK accepts, spelled out. */
  predicate StoredStatus(x: Row) {
    x.status == "draft" || x.status == "sent" || x.status == "paid" || x.status == "overdue"
  }

  lemma StoredRowsHaveStoredStatus(rows: seq<Row>)
    requires forall x :: x in rows ==> x.status in InvoiceStatusDomain
    ensures forall x :: x in rows ==> StoredStatus(x)
  {
  }

  /** Over rows as stored, with lower-case statuses, every row counts as
      outstanding, none as overdue or paid, and every stage count is 0. */
  lemma StoredRowsMiscount(rows: seq<Row>)
    requires forall x :: x in rows ==> x.status in InvoiceStatusDomain
    ensures TotalsAsWritten(rows).outstanding == Sum(rows, Amount)
    ensures TotalsAsWritten(rows).overdue == 0.0 && TotalsAsWritten(rows).paid == 0.0
    ensures forall k :: k in FlowStates.InvoiceStatusOrder ==> StatusCounts(rows)[k] == 0
  {
    StoredRowsHaveStoredStatus(rows);
    StoredTotalsMiscount(rows);
    StoredStageCountsZero(rows);
  }

  lemma StoredTotalsMiscount(rows: seq<Row>)
    requires forall x :: x in rows ==> StoredStatus(x)
    ensures TotalsAsWritten(rows).outstanding == Sum(rows, Amount)
    ensures TotalsAsWritten(rows).overdue == 0.0 && TotalsAsWritten(rows).paid == 0.0
  {
    FilterAll(rows, Outstanding);
    FilterNone(rows, Overdue);
    FilterNone(rows, Paid);
  }

  lemma StoredStageCountsZero(rows: seq<Row>)
    requires forall x :: x in rows ==> StoredStatus(x)
    ensures forall k :: k in FlowStates.InvoiceStatusOrder ==> StatusCounts(rows)[k] == 0
  {
    forall k | k in FlowStates.InvoiceStatusOrder ensures CountWithStatus(rows, k) == 0 {
      FilterNone(rows, (x: Row) => x.status == k);
    }
  }

  predicate OutstandingStored(x: Row) { x.status != "paid" && x.status != "draft" }
  predicate OverdueStored(x: Row) { x.status == "overdue" }
  predicate PaidStored(x: Row) { x.status == "paid" }

  /** The totals against the statuses the table stores. */
  function Totals(rows: seq<Row>): (r: MoneyTotals)
    ensures r.outstanding == Sum(Filter(rows, OutstandingStored), Amount)
    ensures r.overdue == Sum(Filter(rows, OverdueStored), Amount)
    ensures r.paid == Sum(Filter(rows, PaidStored), PaidOrZero)
    ensures (forall x :: x in rows ==> x.amount >= 0.0) ==> r.overdue <= r.outstanding
  {
    assert (forall x :: x in rows ==> x.amount >= 0.0) ==>
      Sum(Filter(rows, OverdueStored), Amount) <= Sum(Filter(rows, OutstandingStored), Amount) by {
      if forall x :: x in rows ==> x.amount >= 0.0 {
        SumMonotone(rows, Amount, OverdueStored, OutstandingStored);
      }
    }
    MoneyTotals(Sum(Filter(rows, OutstandingStored), Amount), Sum(Filter(rows, OverdueStored), Amount),
      Sum(Filter(rows, PaidStored), PaidOrZero))
  }

  /** Over stored rows the outstanding total is exactly the sent and overdue
      invoices, and a paid invoice's payment shows in the paid total. */
  lemma StoredOutstandingIsSentAndOverdue(rows: seq<Row>)
    requires forall x :: x in rows ==> x.status in InvoiceStatusDomain
    ensures Totals(rows).outstanding == Sum(Filter(rows, SentStored), Amount) + Totals(rows).overdue
  {
    StoredRowsHaveStoredStatus(rows);
    OutstandingSplits(rows);
  }

  predicate SentStored(x: Row) { x.status == "sent" }

  lemma {:induction false} OutstandingSplits(rows: seq<Row>)
    requires forall x :: x in rows ==> StoredStatus(x)
    ensures Sum(Filter(rows, OutstandingStored), Amount)
      == Sum(Filter(rows, SentStored), Amount) + Sum(Filter(rows, OverdueStored), Amount)
  {
    var sent := SentStored;
    if |rows| > 0 {
      var h := rows[0];
      var rest := rows[1..];
      assert h in rows;
      assert forall x :: x in rest ==> x in rows;
      OutstandingSplits(rest);
      SumConcat((if OutstandingStored(h) then [h] else []), Filter(rest, OutstandingStored), Amount);
      SumConcat((if sent(h) then [h] else []), Filter(rest, sent), Amount);
      SumConcat((if OverdueStored(h) then [h] else []), Filter(rest, OverdueStored), Amount);
    }
  }

  // ---------------------------------------------------------------------
  // Inline status select
  // ---------------------------------------------------------------------

  /** The select's options. */
  const SelectStatuses: set<string> := {"draft", "sent", "paid", "overdue"}

  /** The select's `onChange`: after the store update, the row with that id
      takes the lower-case status and nothing else changes; a failed update
      throws first and changes nothing. */
  function UpdateStatus(rows: seq<Row>, id: int, newStatus: string, fails: bool): (r: seq<Row>)
    ensures |r| == |rows|
    ensures fails ==> r == rows
    ensures !fails ==> forall i :: 0 <= i < |rows| ==>
      r[i] == (if rows[i].id == id then rows[i].(status := newStatus) else rows[i])
  {
    if fails then rows
    else seq(|rows|, i requires 0 <= i < |rows| => if rows[i].id == id then rows[i].(status := newStatus) else rows[i])
  }

  /** Whatever the select picks, the updated row counts as outstanding and never
      as overdue or paid in the totals as written. */
  lemma UpdatedRowCountsAsOutstanding(rows: seq<Row>, i: nat, newStatus: string)
    requires i < |rows| && newStatus in SelectStatuses
    ensures var x := UpdateStatus(rows, rows[i].id, newStatus, false)[i];
      Outstanding(x) && !Overdue(x) && !Paid(x)
  {
  }
}

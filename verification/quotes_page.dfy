/** The quotes list page: the invoice button gating, the inline status and
    delete updates of the loaded list, the search and status filter, and the
    insight counters (src/app/quotes/page.tsx). */
module QuotesPage {
  import opened Wrappers
  import opened Strings
  import opened Seqs
  import opened EntityStore
  import QuoteConversion

  /** `invoices.some(inv => inv.quote_id === quoteId)`. */
  function HasInvoice(invoices: seq<Invoice>, quoteId: int): (r: bool)
    ensures r <==> exists i :: 0 <= i < |invoices| && invoices[i].quoteId == Some(quoteId)
  {
    if |invoices| == 0 then false
    else invoices[0].quoteId == Some(quoteId) || HasInvoice(invoices[1..], quoteId)
  }

  /** The two controls in the actions cell that concern invoices. */
  datatype InvoiceControl = CreateInvoiceButton | InvoiceCreatedLabel

  /** The invoice controls shown for quote `q`. */
  function InvoiceControls(q: Quote, invoices: seq<Invoice>): (r: seq<InvoiceControl>)
    ensures q.status == "accepted" ==> |r| == 1
    ensures q.status != "accepted" ==> r == []
    ensures CreateInvoiceButton in r <==> q.status == "accepted" && !HasInvoice(invoices, q.id)
    ensures InvoiceCreatedLabel in r <==> q.status == "accepted" && HasInvoice(invoices, q.id)
  {
    (if q.status == "accepted" && !HasInvoice(invoices, q.id) then [CreateInvoiceButton] else [])
    + (if q.status == "accepted" && HasInvoice(invoices, q.id) then [InvoiceCreatedLabel] else [])
  }

  /** The loaded list `list` holds exactly the stored invoices, each under its id. */
  predicate ListsStore(list: seq<Invoice>, st: Store) {
    && (forall i :: 0 <= i < |list| ==> list[i].id in st.invoices && st.invoices[list[i].id] == list[i])
    && (forall k :: k in st.invoices ==> exists i :: 0 <= i < |list| && list[i] == st.invoices[k])
  }

  /** Against a list loaded from the store, the page finds an invoice exactly
      when the store files one under the quote. */
  lemma HasInvoiceMatchesStore(list: seq<Invoice>, st: Store, quoteId: int)
    requires ListsStore(list, st)
    ensures HasInvoice(list, quoteId) <==> exists k :: k in InvoicesForQuote(st.invoices, quoteId)
  {
    var filed := InvoicesForQuote(st.invoices, quoteId);
    if HasInvoice(list, quoteId) {
      var i :| 0 <= i < |list| && list[i].quoteId == Some(quoteId);
      assert list[i].id in filed;
    }
    if exists k :: k in filed {
      var k :| k in filed;
      var i :| 0 <= i < |list| && list[i] == st.invoices[k];
    }
  }

  /** Once the quote has been converted and the list reloaded, the accepted quote
      shows "Invoice Created" and no longer offers the button. */
  lemma ConversionClosesGate(st: Store, quoteId: int, newId: int, now: int, reloaded: seq<Invoice>)
    requires WellKeyed(st) && quoteId in st.quotes && newId !in st.invoices
    requires ListsStore(reloaded, QuoteConversion.ConvertQuoteToInvoice(st, quoteId, newId, now, NoConvertFaults).store)
    ensures var after := QuoteConversion.ConvertQuoteToInvoice(st, quoteId, newId, now, NoConvertFaults).store;
      InvoiceControls(after.quotes[quoteId], reloaded) == [InvoiceCreatedLabel]
  {
    QuoteConversion.RepeatConversionAddsInvoice(st, quoteId, newId, now);
    var after := QuoteConversion.ConvertQuoteToInvoice(st, quoteId, newId, now, NoConvertFaults).store;
    HasInvoiceMatchesStore(reloaded, after, quoteId);
    assert newId in InvoicesForQuote(after.invoices, quoteId);
  }

  /** `handleStatusChange`: after the store update succeeds, the matching rows
      take the new status and nothing else changes; a failure changes nothing. */
  function UpdateStatusInList(quotes: seq<Quote>, quoteId: int, newStatus: string, fails: bool): (r: seq<Quote>)
    ensures |r| == |quotes|
    ensures fails ==> r == quotes
    ensures !fails ==> forall i :: 0 <= i < |quotes| ==>
      && (quotes[i].id != quoteId ==> r[i] == quotes[i])
      && (quotes[i].id == quoteId ==> r[i].status == newStatus && r[i].(status := quotes[i].status) == quotes[i])
  {
    if fails then quotes
    else seq(|quotes|, i requires 0 <= i < |quotes| =>
           (if quotes[i].id == quoteId then quotes[i].(status := newStatus) else quotes[i]))
  }

  /** `handleDeleteQuote`: only a confirmed, successful delete removes rows. */
  function DeleteFromList(quotes: seq<Quote>, quoteId: int, confirmed: bool, fails: bool): (r: seq<Quote>)
    ensures !confirmed || fails ==> r == quotes
    ensures confirmed && !fails ==> forall q :: q in r <==> q in quotes && q.id != quoteId
  {
    if !confirmed || fails then quotes else Filter(quotes, (q: Quote) => q.id != quoteId)
  }

  /** `getClientName(clientId)`: the first loaded client with that id, else `Unknown`. */
  function ClientName(clients: seq<Client>, clientId: Option<int>): (r: string)
    ensures (exists i :: 0 <= i < |clients| && Some(clients[i].id) == clientId) ==>
      exists i :: 0 <= i < |clients| && clients[i].name == r && Some(clients[i].id) == clientId
    ensures (forall i :: 0 <= i < |clients| ==> Some(clients[i].id) != clientId) ==> r == "Unknown"
  {
    if |clients| == 0 then "Unknown"
    else if Some(clients[0].id) == clientId then clients[0].name
    else
      var r := ClientName(clients[1..], clientId);
      assert forall i :: 1 <= i < |clients| ==> clients[i] == clients[1..][i - 1];
      r
  }

  /** `(quote.notes || '')`. */
  function NotesOrEmpty(notes: Option<string>): string {
    if notes.Some? then notes.value else ""
  }

  predicate QuoteMatches(q: Quote, clients: seq<Client>, term: string, statusFilter: string) {
    var t := Lower(term);
    && (Contains(IntToString(q.id), t) || Contains(Lower(ClientName(clients, q.clientId)), t)
        || Contains(Lower(NotesOrEmpty(q.notes)), t))
    && (statusFilter == "All" || q.status == statusFilter)
  }

  /** `filteredQuotes`. */
  function FilteredQuotes(quotes: seq<Quote>, clients: seq<Client>, term: string, statusFilter: string): (r: seq<Quote>)
    ensures forall q :: q in r <==> q in quotes && QuoteMatches(q, clients, term, statusFilter)
  {
    Filter(quotes, (q: Quote) => QuoteMatches(q, clients, term, statusFilter))
  }

  /** With an empty search every quote matches it, so the status filter alone decides. */
  lemma EmptySearchFiltersByStatus(quotes: seq<Quote>, clients: seq<Client>, statusFilter: string)
    ensures forall q :: q in FilteredQuotes(quotes, clients, "", statusFilter) <==>
      q in quotes && (statusFilter == "All" || q.status == statusFilter)
    ensures statusFilter == "All" ==> FilteredQuotes(quotes, clients, "", statusFilter) == quotes
  {
    assert Lower("") == "";
    forall q: Quote ensures Contains(IntToString(q.id), "") {
      EmptyIsContained(IntToString(q.id));
    }
    if statusFilter == "All" {
      FilterAll(quotes, (q: Quote) => QuoteMatches(q, clients, "", statusFilter));
    }
  }

  /** The insight panel. */
  datatype Insights = Insights(readyForJobs: nat, pendingResponse: nat, drafts: nat, pipelineValue: real)

  /** How many quotes have a status `p` accepts: the length of
      `quotes.filter(q => p(q.status))`. */
  function CountStatus(quotes: seq<Quote>, p: string -> bool): (r: nat)
    ensures r <= |quotes|
    ensures r == |Filter(quotes, (q: Quote) => p(q.status))|
  {
    if |quotes| == 0 then 0 else (if p(quotes[0].status) then 1 else 0) + CountStatus(quotes[1..], p)
  }

  function Amount(q: Quote): real { q.amount }

  /** The panel counts the accepted quotes, the sent or reviewed ones and the
      drafts, and totals every quote's amount whatever its status. */
  function QuoteInsights(quotes: seq<Quote>): (r: Insights)
    ensures r.readyForJobs == |Filter(quotes, (q: Quote) => q.status == "accepted")|
    ensures r.pendingResponse == |Filter(quotes, (q: Quote) => q.status == "sent" || q.status == "reviewed")|
    ensures r.drafts == |Filter(quotes, (q: Quote) => q.status == "draft")|
    ensures r.readyForJobs + r.pendingResponse + r.drafts <= |quotes|
    ensures r.pipelineValue == Sum(quotes, Amount)
    ensures (forall q :: q in quotes ==> q.amount >= 0.0) ==> r.pipelineValue >= 0.0
  {
    InsightsDisjoint(quotes);
    SumNonNegativeIfAmounts(quotes);
    FilterSame(quotes, (q: Quote) => (s => s == "accepted")(q.status), (q: Quote) => q.status == "accepted");
    FilterSame(quotes, (q: Quote) => (s => s == "sent" || s == "reviewed")(q.status),
      (q: Quote) => q.status == "sent" || q.status == "reviewed");
    FilterSame(quotes, (q: Quote) => (s => s == "draft")(q.status), (q: Quote) => q.status == "draft");
    Insights(
      CountStatus(quotes, s => s == "accepted"),
      CountStatus(quotes, s => s == "sent" || s == "reviewed"),
      CountStatus(quotes, s => s == "draft"),
      Sum(quotes, Amount))
  }

  lemma SumNonNegativeIfAmounts(quotes: seq<Quote>)
    ensures (forall q :: q in quotes ==> q.amount >= 0.0) ==> Sum(quotes, Amount) >= 0.0
  {
    if forall q :: q in quotes ==> q.amount >= 0.0 {
      SumNonNegative(quotes, Amount);
    }
  }

  /** The three counted groups do not overlap. */
  lemma {:induction false} InsightsDisjoint(quotes: seq<Quote>)
    ensures CountStatus(quotes, s => s == "accepted") + CountStatus(quotes, s => s == "sent" || s == "reviewed")
      + CountStatus(quotes, s => s == "draft") <= |quotes|
  {
    if |quotes| > 0 {
      InsightsDisjoint(quotes[1..]);
    }
  }

  /** The schema has no `reviewed` quote status, so over stored rows the pending
      counter counts exactly the sent quotes. */
  lemma {:induction false} PendingIsSentInDomain(quotes: seq<Quote>)
    requires forall q :: q in quotes ==> q.status in QuoteStatusDomain
    ensures CountStatus(quotes, s => s == "sent" || s == "reviewed") == CountStatus(quotes, s => s == "sent")
  {
    var pending: string -> bool := s => s == "sent" || s == "reviewed";
    var sent: string -> bool := s => s == "sent";
    assert forall q :: q in quotes ==> pending(q.status) == sent(q.status);
    FilterSame(quotes, (q: Quote) => pending(q.status), (q: Quote) => sent(q.status));
  }
}

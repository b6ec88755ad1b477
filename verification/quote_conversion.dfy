/** Turning a quote into an invoice, and the quote status counts
    (src/lib/quote-conversion.ts). */
module QuoteConversion {
  import opened Wrappers
  import opened Strings
  import opened Rates
  import opened Seqs
  import opened EntityStore

  /** Thirty days in milliseconds. */
  const DueAfterMs: int := 30 * 24 * 60 * 60 * 1000

  const DefaultTerms := "Net 30"
  const NotesQuotePrefix := "Generated from quote #"
  const NotesOriginalMarker := ". Original notes: "

  /** `quote.terms || 'Net 30'`: an empty or missing value falls back. */
  function PaymentTerms(terms: Option<string>): (r: string)
    ensures terms.Some? && terms.value != "" ==> r == terms.value
    ensures terms.None? || terms.value == "" ==> r == DefaultTerms
    ensures r != ""
  {
    if terms.Some? && terms.value != "" then terms.value else DefaultTerms
  }

  function InvoiceNotes(q: Quote): string {
    NotesQuotePrefix + IntToString(q.id) + NotesOriginalMarker + Render(q.notes)
  }

  /** The invoice row built from a quote at instant `now`; `id` is the one the
      insert assigns. */
  function InvoiceFrom(q: Quote, id: int, now: int): (inv: Invoice)
    ensures inv.id == id && inv.quoteId == Some(q.id)
    ensures inv.clientId == q.clientId && inv.jobId == q.jobId && inv.amount == q.amount
    ensures inv.status == "draft"
    ensures inv.dueDate == Some(now + 2592000000)
    ensures inv.paymentTerms == Some(PaymentTerms(q.terms))
    ensures inv.notes == Some(InvoiceNotes(q))
  {
    Invoice(id, q.clientId, q.jobId, Some(q.id), q.amount, "draft", Some(now + DueAfterMs),
      Some(PaymentTerms(q.terms)), Some(InvoiceNotes(q)))
  }

  /** The quote number can be read back from the invoice notes, and the notes
      end with the quote's own notes. */
  lemma NotesRecordQuote(q: Quote)
    requires q.id >= 0
    ensures var n := InvoiceNotes(q);
      var k := |NatToString(q.id)|;
      && IsPrefix(NotesQuotePrefix, n)
      && |NotesQuotePrefix| + k <= |n|
      && IsDigits(n[|NotesQuotePrefix|..|NotesQuotePrefix| + k])
      && DigitsToNat(n[|NotesQuotePrefix|..|NotesQuotePrefix| + k]) == q.id
      && EndsWith(n, NotesOriginalMarker + Render(q.notes))
  {
    var n := InvoiceNotes(q);
    var d := NatToString(q.id);
    var p := NotesQuotePrefix;
    var tail := NotesOriginalMarker + Render(q.notes);
    assert n == p + d + tail;
    assert n[..|p|] == p;
    assert n[|p|..|p| + |d|] == d;
    assert n[|n| - |tail|..] == tail;
    DigitsRoundTrip(q.id);
  }

  /** `convertQuoteToInvoice(quoteId)` at instant `now`: fetch the quote, insert
      the invoice, then mark the quote `accepted`. */
  function ConvertQuoteToInvoice(st: Store, quoteId: int, newId: int, now: int, f: ConvertFaults): (r: Step<Invoice>)
    ensures f.fetch || quoteId !in st.quotes ==> r == Step(st, Err(FetchFailed))
    ensures !f.fetch && quoteId in st.quotes ==>
      var inv := InvoiceFrom(st.quotes[quoteId], newId, now);
      && (f.insert || newId in st.invoices ==> r == Step(st, Err(InsertFailed)))
      && (!f.insert && newId !in st.invoices ==>
            var inserted := st.(invoices := st.invoices[newId := inv]);
            && (f.update ==> r == Step(inserted, Err(UpdateFailed)))
            && (!f.update ==>
                  r == Step(inserted.(quotes := st.quotes[quoteId := st.quotes[quoteId].(status := "accepted")]), Ok(inv))))
  {
    if f.fetch || quoteId !in st.quotes then Step(st, Err(FetchFailed))
    else
      var ins := InsertInvoice(st, InvoiceFrom(st.quotes[quoteId], newId, now), f.insert);
      match ins.result
      case Err(e) => ins
      case Ok(inv) =>
        var upd := SetQuoteStatus(ins.store, quoteId, "accepted", f.update);
        match upd.result
        case Err(e) => Step(upd.store, Err(e))
        case Ok(_) => Step(upd.store, Ok(inv))
  }

  /** Nothing stops a second conversion of the same quote: each successful call
      files one more invoice under it, whatever its status. */
  lemma RepeatConversionAddsInvoice(st: Store, quoteId: int, newId: int, now: int)
    requires WellKeyed(st) && quoteId in st.quotes && newId !in st.invoices
    ensures var r := ConvertQuoteToInvoice(st, quoteId, newId, now, NoConvertFaults);
      && r.result.Ok?
      && InvoicesForQuote(r.store.invoices, quoteId) == InvoicesForQuote(st.invoices, quoteId) + {newId}
      && r.store.quotes[quoteId].status == "accepted"
  {
  }

  /** Two successive conversions of one quote leave two more invoices for it. */
  lemma TwoConversionsTwoInvoices(st: Store, quoteId: int, id1: int, id2: int, now1: int, now2: int)
    requires WellKeyed(st) && quoteId in st.quotes && id1 != id2 && id1 !in st.invoices && id2 !in st.invoices
    ensures var r1 := ConvertQuoteToInvoice(st, quoteId, id1, now1, NoConvertFaults);
      var r2 := ConvertQuoteToInvoice(r1.store, quoteId, id2, now2, NoConvertFaults);
      && r2.result.Ok?
      && InvoicesForQuote(r2.store.invoices, quoteId) == InvoicesForQuote(st.invoices, quoteId) + {id1, id2}
  {
    RepeatConversionAddsInvoice(st, quoteId, id1, now1);
    var r1 := ConvertQuoteToInvoice(st, quoteId, id1, now1, NoConvertFaults);
    assert WellKeyed(r1.store);
    RepeatConversionAddsInvoice(r1.store, quoteId, id2, now2);
  }

  /** The quote status counts and the share accepted. */
  datatype QuoteStats = QuoteStats(total: nat, draft: nat, sent: nat, accepted: nat, rejected: nat, acceptanceRate: real)

  /** The four counts never add up to more than the rows counted. */
  lemma {:induction false} QuoteCountsBounded(statuses: seq<string>)
    ensures CountEq(statuses, "draft") + CountEq(statuses, "sent") + CountEq(statuses, "accepted")
      + CountEq(statuses, "rejected") <= |statuses|
  {
    if |statuses| > 0 {
      QuoteCountsBounded(statuses[1..]);
    }
  }

  function QuoteStatsFrom(total: nat, draft: nat, sent: nat, accepted: nat, rejected: nat): (s: QuoteStats)
    ensures s == QuoteStats(total, draft, sent, accepted, rejected, s.acceptanceRate)
    ensures IsPercentOf(s.acceptanceRate, accepted, total)
  {
    PercentOfCounts(accepted, total);
    QuoteStats(total, draft, sent, accepted, rejected, Percent(accepted as real, total as real))
  }

  /** `getQuoteStats()` over the fetched `status` column. */
  function GetQuoteStats(statuses: seq<string>, fetchFails: bool): (r: Result<QuoteStats, Error>)
    ensures fetchFails <==> r.Err?
    ensures r.Ok? ==>
      var s := r.value;
      && s.total == |statuses|
      && s.draft == CountEq(statuses, "draft") && s.sent == CountEq(statuses, "sent")
      && s.accepted == CountEq(statuses, "accepted") && s.rejected == CountEq(statuses, "rejected")
      && s.draft + s.sent + s.accepted + s.rejected <= s.total
      && IsPercentOf(s.acceptanceRate, s.accepted, s.total)
  {
    if fetchFails then Err(FetchFailed)
    else
      QuoteCountsBounded(statuses);
      Ok(QuoteStatsFrom(|statuses|, CountEq(statuses, "draft"), CountEq(statuses, "sent"),
        CountEq(statuses, "accepted"), CountEq(statuses, "rejected")))
  }
}

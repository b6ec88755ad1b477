/** The new invoice form (src/app/invoices/new/page.tsx): its line items, the
    totals derived from them, and the payload the submit buttons send. */
module InvoiceForm {
  import opened Wrappers
  import opened Strings
  import opened Seqs
  import opened EntityStore

  datatype LineItem = LineItem(id: string, description: string, quantity: real, unitPrice: real)

  /** The row every new form and every "Add Line Item" starts with. */
  function BlankItem(id: string): LineItem {
    LineItem(id, "", 1.0, 0.0)
  }

  /** `handleAddLineItem`, with `id` the fresh identifier `crypto.randomUUID` returns. */
  function AddLineItem(items: seq<LineItem>, id: string): (r: seq<LineItem>)
    ensures |r| == |items| + 1
    ensures r[..|items|] == items
    ensures r[|items|] == BlankItem(id)
  {
    items + [BlankItem(id)]
  }

  /** `handleRemoveLineItem`: every row with that id goes, every other row stays. */
  function RemoveLineItem(items: seq<LineItem>, id: string): (r: seq<LineItem>)
    ensures forall x :: x in r <==> x in items && x.id != id
    ensures |r| <= |items|
  {
    Filter(items, (x: LineItem) => x.id != id)
  }

  /** Only rows after the first carry a remove button. */
  predicate HasRemoveButton(index: nat) {
    index > 0
  }

  predicate DistinctIds(items: seq<LineItem>) {
    forall i, j :: 0 <= i < j < |items| ==> items[i].id != items[j].id
  }

  /** With distinct ids, no remove button the form shows can delete the first row. */
  lemma FirstRowCannotBeRemoved(items: seq<LineItem>, index: nat)
    requires DistinctIds(items) && index < |items| && HasRemoveButton(index)
    ensures items[0] in RemoveLineItem(items, items[index].id)
  {
  }

  /** With distinct ids, the remove button of a later row deletes that row
      alone and keeps the others in order. */
  lemma LaterRowRemoved(items: seq<LineItem>, index: nat)
    requires DistinctIds(items) && index < |items| && HasRemoveButton(index)
    ensures RemoveLineItem(items, items[index].id) == items[..index] + items[index + 1..]
  {
    var id := items[index].id;
    var before, rest := items[..index], items[index + 1..];
    OtherIdsDiffer(items, index);
    assert items == before + ([items[index]] + rest);
    assert RemoveLineItem(items, id) == RemoveLineItem(before, id) + RemoveLineItem([items[index]] + rest, id) by {
      FilterConcat(before, [items[index]] + rest, (x: LineItem) => x.id != id);
    }
    assert RemoveLineItem([items[index]] + rest, id) == RemoveLineItem(rest, id) by {
      assert ([items[index]] + rest)[1..] == rest;
    }
    assert RemoveLineItem(before, id) == before by {
      FilterAll(before, (x: LineItem) => x.id != id);
    }
    assert RemoveLineItem(rest, id) == rest by {
      FilterAll(rest, (x: LineItem) => x.id != id);
    }
  }

  lemma OtherIdsDiffer(items: seq<LineItem>, index: nat)
    requires DistinctIds(items) && index < |items|
    ensures forall x :: x in items[..index] ==> x.id != items[index].id
    ensures forall x :: x in items[index + 1..] ==> x.id != items[index].id
  {
    forall x | x in items[..index] ensures x.id != items[index].id {
      var j :| 0 <= j < index && items[j] == x;
    }
    forall x | x in items[index + 1..] ensures x.id != items[index].id {
      var j :| index + 1 <= j < |items| && items[j] == x;
    }
  }

  datatype Field = Description | Quantity | UnitPrice

  /** `handleLineItemChange(id, field, text)`: the row with that id takes the
      new value in that field, the description verbatim and a number field as
      `number`, which stands for `Number(text)`; every other row is unchanged. */
  function LineItemChange(items: seq<LineItem>, id: string, field: Field, text: string, number: real): (r: seq<LineItem>)
    ensures |r| == |items|
    ensures forall i :: 0 <= i < |items| && items[i].id != id ==> r[i] == items[i]
    ensures forall i :: 0 <= i < |items| && items[i].id == id ==>
      && r[i].id == id
      && r[i].description == (if field == Description then text else items[i].description)
      && r[i].quantity == (if field == Quantity then number else items[i].quantity)
      && r[i].unitPrice == (if field == UnitPrice then number else items[i].unitPrice)
  {
    seq(|items|, i requires 0 <= i < |items| =>
      if items[i].id != id then items[i]
      else match field
        case Description => items[i].(description := text)
        case Quantity => items[i].(quantity := number)
        case UnitPrice => items[i].(unitPrice := number))
  }

  function LineTotal(x: LineItem): real { x.quantity * x.unitPrice }

  /** `calculateSubtotal`. */
  function Subtotal(items: seq<LineItem>): real {
    Sum(items, LineTotal)
  }

  /** A new blank row adds nothing to the subtotal. */
  lemma AddKeepsSubtotal(items: seq<LineItem>, id: string)
    ensures Subtotal(AddLineItem(items, id)) == Subtotal(items)
  {
    SumSnoc(items, BlankItem(id), LineTotal);
  }

  /** Changing a field of a row whose id is unique moves the subtotal by the
      change in that row's line total. */
  lemma {:induction false} ChangeMovesSubtotal(items: seq<LineItem>, k: nat, field: Field, text: string, number: real)
    requires DistinctIds(items) && k < |items|
    ensures var r := LineItemChange(items, items[k].id, field, text, number);
      Subtotal(r) == Subtotal(items) - LineTotal(items[k]) + LineTotal(r[k])
  {
    var r := LineItemChange(items, items[k].id, field, text, number);
    assert r == items[k := r[k]];
    SumUpdate(items, k, r[k], LineTotal);
  }

  datatype Amounts = Amounts(subtotal: real, taxAmount: real, grandTotal: real, amountDue: real)

  /** The summary block: tax is the rate's share of the subtotal, the grand total
      adds it, and the amount due takes the payments off the grand total. */
  function Totals(items: seq<LineItem>, taxRate: real, paymentsMade: real): (r: Amounts)
    ensures r.subtotal == Subtotal(items)
    ensures r.taxAmount * 100.0 == r.subtotal * taxRate
    ensures r.grandTotal == r.subtotal + r.taxAmount
    ensures r.amountDue + paymentsMade == r.grandTotal
    ensures taxRate == 0.0 ==> r.grandTotal == r.subtotal
  {
    var subtotal := Subtotal(items);
    var tax := subtotal * (taxRate / 100.0);
    Amounts(subtotal, tax, subtotal + tax, subtotal + tax - paymentsMade)
  }

  /** Non-negative lines, rate and payments no larger than the total keep every
      figure non-negative. */
  lemma TotalsNonNegative(items: seq<LineItem>, taxRate: real, paymentsMade: real)
    requires forall x :: x in items ==> x.quantity >= 0.0 && x.unitPrice >= 0.0
    requires taxRate >= 0.0 && 0.0 <= paymentsMade <= Totals(items, taxRate, paymentsMade).grandTotal
    ensures var t := Totals(items, taxRate, paymentsMade);
      0.0 <= t.subtotal <= t.grandTotal && 0.0 <= t.amountDue <= t.grandTotal
  {
    forall x | x in items ensures LineTotal(x) >= 0.0 {
      assert x.quantity * x.unitPrice >= 0.0;
    }
    SumNonNegative(items, LineTotal);
    var s := Subtotal(items);
    assert s * (taxRate / 100.0) >= 0.0;
  }

  /** The body of `invoiceOperations.create`. `clientId` is `None` for the `NaN`
      of an unreadable selection. */
  datatype Payload = Payload(
    clientId: Option<int>, amount: real, status: string, dueDate: string,
    paymentTerms: string, notes: string, jobId: Option<int>, quoteId: Option<int>)

  /** `param ? Number(param) : 0`: an absent or empty query parameter gives 0. */
  function IdFromQuery(param: Option<string>): (r: Option<int>)
    ensures param.None? || param.value == "" ==> r == Some(0)
  {
    if param.None? || param.value == "" then Some(0)
    else
      var v := DecimalValue(param.value);
      if v.Some? then Some(v.value) else None
  }

  datatype Form = Form(
    clientId: string, dueDate: string, items: seq<LineItem>,
    paymentTerms: string, notes: string, taxRate: real, paymentsMade: real)

  /** `handleSubmit(e, status)`: the invoice is created for the grand total
      with the button's status lower-cased. */
  function SubmitPayload(f: Form, button: string, jobParam: Option<string>, quoteParam: Option<string>): (p: Payload)
    ensures p.amount == Totals(f.items, f.taxRate, f.paymentsMade).grandTotal
    ensures p.status == Lower(button)
    ensures p.dueDate == f.dueDate && p.paymentTerms == f.paymentTerms && p.notes == f.notes
    ensures jobParam.None? ==> p.jobId == Some(0)
    ensures quoteParam.None? ==> p.quoteId == Some(0)
    ensures f.clientId == "" ==> p.clientId == Some(0)
  {
    var c := DecimalValue(f.clientId);
    Payload(
      if c.Some? then Some(c.value) else None,
      Totals(f.items, f.taxRate, f.paymentsMade).grandTotal,
      Lower(button), f.dueDate, f.paymentTerms, f.notes,
      IdFromQuery(jobParam), IdFromQuery(quoteParam))
  }

  /** The three buttons' labels. */
  const SubmitButtons: seq<string> := ["Draft", "Paid", "Sent"]

  /** Every button sends a status the `invoices` CHECK accepts. */
  lemma ButtonStatusesInDomain(f: Form, jobParam: Option<string>, quoteParam: Option<string>)
    ensures forall b :: b in SubmitButtons ==> SubmitPayload(f, b, jobParam, quoteParam).status in InvoiceStatusDomain
  {
    assert Lower("Draft") == "draft";
    assert Lower("Paid") == "paid";
    assert Lower("Sent") == "sent";
  }

  /** `handlePullFromJob`: the mock client and two job lines. */
  function PullFromJob(id1: string, id2: string): (r: (string, seq<LineItem>))
    ensures r.0 == "1" && |r.1| == 2 && Subtotal(r.1) == 450.0
  {
    var items := [LineItem(id1, "Job Task 1", 2.0, 100.0), LineItem(id2, "Job Materials", 1.0, 250.0)];
    assert items == [LineItem(id1, "Job Task 1", 2.0, 100.0)] + [LineItem(id2, "Job Materials", 1.0, 250.0)];
    SumConcat([LineItem(id1, "Job Task 1", 2.0, 100.0)], [LineItem(id2, "Job Materials", 1.0, 250.0)], LineTotal);
    ("1", items)
  }

  /** `handlePullFromQuote`: the mock client and two quote lines. */
  function PullFromQuote(id1: string, id2: string): (r: (string, seq<LineItem>))
    ensures r.0 == "2" && |r.1| == 2 && Subtotal(r.1) == 800.0
  {
    var items := [LineItem(id1, "Quote Service 1", 1.0, 500.0), LineItem(id2, "Quote Materials", 2.0, 150.0)];
    assert items == [LineItem(id1, "Quote Service 1", 1.0, 500.0)] + [LineItem(id2, "Quote Materials", 2.0, 150.0)];
    SumConcat([LineItem(id1, "Quote Service 1", 1.0, 500.0)], [LineItem(id2, "Quote Materials", 2.0, 150.0)], LineTotal);
    ("2", items)
  }
}

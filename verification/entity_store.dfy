/** The rows the conversion code reads and writes, and an abstract store of
    them: one map from id to record per table. Each store step either succeeds
    or fails, and the environment decides which through a fault flag, standing
    for the database calls (src/lib/supabase.ts, src/lib/supabase-client.ts). */
module EntityStore {
  import opened Wrappers

  /** A `leads` row; nullable columns are `Option`s. */
  datatype Lead = Lead(
    id: int,
    name: string,
    email: Option<string>,
    phone: Option<string>,
    source: Option<string>,
    status: string,
    notes: Option<string>,
    estimatedValue: Option<real>,
    assignedTo: Option<string>)

  /** A `clients` row; `leadId` links a client created from a lead. */
  datatype Client = Client(
    id: int,
    name: string,
    email: Option<string>,
    phone: Option<string>,
    notes: Option<string>,
    address: Option<string>,
    status: string,
    estimatedValue: Option<real>,
    source: Option<string>,
    assignedTo: Option<string>,
    leadId: Option<int>)

  /** A `quotes` row. */
  datatype Quote = Quote(
    id: int,
    clientId: Option<int>,
    jobId: Option<int>,
    amount: real,
    status: string,
    terms: Option<string>,
    notes: Option<string>)

  /** An `invoices` row; `dueDate` is in milliseconds since the epoch. */
  datatype Invoice = Invoice(
    id: int,
    clientId: Option<int>,
    jobId: Option<int>,
    quoteId: Option<int>,
    amount: real,
    status: string,
    dueDate: Option<int>,
    paymentTerms: Option<string>,
    notes: Option<string>)

  /** The CHECK constraint on `leads.status`. */
  const LeadStatusDomain: set<string> := {"new", "contacted", "qualified", "lost"}

  /** The CHECK constraint on `clients.status`. */
  const ClientStatusDomain: set<string> := {"active", "inactive", "prospective"}

  /** The CHECK constraint on `quotes.status`. */
  const QuoteStatusDomain: set<string> := {"draft", "sent", "accepted", "rejected"}

  /** The CHECK constraint on `invoices.status`. */
  const InvoiceStatusDomain: set<string> := {"draft", "sent", "paid", "overdue"}

  /** The lead statuses the rest of the code writes and counts: the CHECK domain
      together with `converted`. */
  const CorrectedLeadStatusDomain: set<string> := LeadStatusDomain + {"converted"}

  /** The four tables. `leadCheck` is the set of lead statuses the store accepts,
      or `None` when it accepts any (`Some(LeadStatusDomain)` is the declared
      schema). */
  datatype Store = Store(
    leads: map<int, Lead>,
    clients: map<int, Client>,
    quotes: map<int, Quote>,
    invoices: map<int, Invoice>,
    leadCheck: Option<set<string>>)

  /** `${value}` for a nullable column: a null renders as `null`. */
  function Render(s: Option<string>): string {
    match s
    case Some(v) => v
    case None => "null"
  }

  /** Why a store step failed. */
  datatype Error = FetchFailed | InsertFailed | UpdateFailed | DeleteFailed

  /** Which of the three store calls of a conversion (fetch the source row,
      insert the new row, update the source's status) fail. */
  datatype ConvertFaults = ConvertFaults(fetch: bool, insert: bool, update: bool)

  const NoConvertFaults := ConvertFaults(false, false, false)

  /** The store after a step, and what the step returned or why it threw. */
  datatype Step<T> = Step(store: Store, result: Result<T, Error>)

  /** Every row is filed under its own id. */
  predicate WellKeyed(st: Store) {
    && (forall k :: k in st.leads ==> st.leads[k].id == k)
    && (forall k :: k in st.clients ==> st.clients[k].id == k)
    && (forall k :: k in st.quotes ==> st.quotes[k].id == k)
    && (forall k :: k in st.invoices ==> st.invoices[k].id == k)
  }

  /** The store accepts `status` as a lead status. */
  predicate LeadStatusAllowed(st: Store, status: string) {
    st.leadCheck.None? || status in st.leadCheck.value
  }

  /** The clients whose `lead_id` is `leadId`. */
  function LinkedClients(clients: map<int, Client>, leadId: int): set<int> {
    set k | k in clients && clients[k].leadId == Some(leadId)
  }

  /** The invoices whose `quote_id` is `quoteId`. */
  function InvoicesForQuote(invoices: map<int, Invoice>, quoteId: int): set<int> {
    set k | k in invoices && invoices[k].quoteId == Some(quoteId)
  }

  /** `insert([row]).select().single()` on `clients`: refused when the fault
      flag is set or the id is taken; otherwise the row is added. */
  function InsertClient(st: Store, c: Client, fails: bool): (r: Step<Client>)
    ensures r.result.Err? <==> fails || c.id in st.clients
    ensures r.result.Err? ==> r.store == st
    ensures r.result.Ok? ==> r.result.value == c && r.store == st.(clients := st.clients[c.id := c])
  {
    if fails || c.id in st.clients then Step(st, Err(InsertFailed))
    else Step(st.(clients := st.clients[c.id := c]), Ok(c))
  }

  /** `insert([row]).select().single()` on `invoices`. */
  function InsertInvoice(st: Store, inv: Invoice, fails: bool): (r: Step<Invoice>)
    ensures r.result.Err? <==> fails || inv.id in st.invoices
    ensures r.result.Err? ==> r.store == st
    ensures r.result.Ok? ==> r.result.value == inv && r.store == st.(invoices := st.invoices[inv.id := inv])
  {
    if fails || inv.id in st.invoices then Step(st, Err(InsertFailed))
    else Step(st.(invoices := st.invoices[inv.id := inv]), Ok(inv))
  }

  /** `update({ status }).eq('id', id)` on `leads` without `.single()`: a
      missing row is not an error, a refused status is. */
  function SetLeadStatus(st: Store, id: int, status: string, fails: bool): (r: Step<()>)
    ensures r.result.Err? <==> fails || !LeadStatusAllowed(st, status)
    ensures r.result.Err? || id !in st.leads ==> r.store == st
    ensures r.result.Ok? && id in st.leads ==>
      r.store == st.(leads := st.leads[id := st.leads[id].(status := status)])
  {
    if fails || !LeadStatusAllowed(st, status) then Step(st, Err(UpdateFailed))
    else if id in st.leads then Step(st.(leads := st.leads[id := st.leads[id].(status := status)]), Ok(()))
    else Step(st, Ok(()))
  }

  /** `leadOperations.update(id, { status })`, which adds `.select().single()`:
      a missing row is an error too. */
  function UpdateLeadStatus(st: Store, id: int, status: string, fails: bool): (r: Step<()>)
    ensures r.result.Err? <==> fails || id !in st.leads || !LeadStatusAllowed(st, status)
    ensures r.result.Err? ==> r.store == st
    ensures r.result.Ok? ==> r.store == st.(leads := st.leads[id := st.leads[id].(status := status)])
  {
    if id !in st.leads then Step(st, Err(UpdateFailed)) else SetLeadStatus(st, id, status, fails)
  }

  /** `update({ status }).eq('id', id)` on `quotes` without `.single()`. */
  function SetQuoteStatus(st: Store, id: int, status: string, fails: bool): (r: Step<()>)
    ensures r.result.Err? <==> fails
    ensures r.result.Err? || id !in st.quotes ==> r.store == st
    ensures r.result.Ok? && id in st.quotes ==>
      r.store == st.(quotes := st.quotes[id := st.quotes[id].(status := status)])
  {
    if fails then Step(st, Err(UpdateFailed))
    else if id in st.quotes then Step(st.(quotes := st.quotes[id := st.quotes[id].(status := status)]), Ok(()))
    else Step(st, Ok(()))
  }

  /** `clientOperations.delete(id)`: `delete().eq('id', id)`. */
  function DeleteClient(st: Store, id: int, fails: bool): (r: Step<()>)
    ensures r.result.Err? <==> fails
    ensures r.result.Err? ==> r.store == st
    ensures r.result.Ok? ==> r.store == st.(clients := st.clients - {id})
  {
    if fails then Step(st, Err(DeleteFailed)) else Step(st.(clients := st.clients - {id}), Ok(()))
  }

  /** Adding a client linked to `l` adds exactly its id to `l`'s links and
      leaves every other lead's links alone. */
  lemma LinkedAfterInsert(clients: map<int, Client>, c: Client, l: int)
    requires c.id !in clients
    ensures LinkedClients(clients[c.id := c], l) ==
      LinkedClients(clients, l) + (if c.leadId == Some(l) then {c.id} else {})
  {
  }

  /** Removing a client removes at most that id from each lead's links. */
  lemma LinkedAfterDelete(clients: map<int, Client>, id: int, l: int)
    ensures LinkedClients(clients - {id}, l) == LinkedClients(clients, l) - {id}
  {
  }
}

/** Turning a lead into a client, undoing that, and the lead status counts
    (src/lib/lead-conversion.ts). */
module LeadConversion {
  import opened Wrappers
  import opened Strings
  import opened Seqs
  import opened Rates
  import opened EntityStore

  /** Which of the two store calls of `deleteClientByLeadId` fail (the lookup
      failing for a reason other than the row count). */
  datatype DeleteFaults = DeleteFaults(lookup: bool, delete: bool)

  const NoDeleteFaults := DeleteFaults(false, false)

  const NotesSourcePrefix := "Converted from lead. Source: "
  const NotesOriginalMarker := ". Original notes: "

  function ClientNotes(lead: Lead): string {
    NotesSourcePrefix + Render(lead.source) + NotesOriginalMarker + Render(lead.notes)
  }

  /** The client row built from a lead; `id` is the one the insert assigns. */
  function NewClientFrom(lead: Lead, id: int): (c: Client)
    ensures c.id == id && c.leadId == Some(lead.id)
    ensures c.name == lead.name && c.email == lead.email && c.phone == lead.phone
    ensures c.source == lead.source && c.estimatedValue == lead.estimatedValue && c.assignedTo == lead.assignedTo
    ensures c.status == "prospective" && c.address == Some("")
    ensures c.notes == Some(ClientNotes(lead))
  {
    Client(id, lead.name, lead.email, lead.phone, Some(ClientNotes(lead)), Some(""), "prospective",
      lead.estimatedValue, lead.source, lead.assignedTo, Some(lead.id))
  }

  /** The client's notes begin with the lead's source and end with the lead's
      own notes, so both can be read off them. */
  lemma NotesKeepSourceAndNotes(lead: Lead)
    ensures IsPrefix(NotesSourcePrefix + Render(lead.source), ClientNotes(lead))
    ensures EndsWith(ClientNotes(lead), NotesOriginalMarker + Render(lead.notes))
  {
    var n := ClientNotes(lead);
    var p := NotesSourcePrefix + Render(lead.source);
    var q := NotesOriginalMarker + Render(lead.notes);
    assert n == p + q;
    assert n[..|p|] == p;
    assert n[|n| - |q|..] == q;
  }

  /** The conversion steps, with the status written to the lead as a parameter:
      fetch the lead, insert the client, then mark the lead. */
  function ConvertMarking(st: Store, leadId: int, newId: int, f: ConvertFaults, mark: string): (r: Step<Client>)
    ensures f.fetch || leadId !in st.leads ==> r == Step(st, Err(FetchFailed))
    ensures !f.fetch && leadId in st.leads ==>
      var c := NewClientFrom(st.leads[leadId], newId);
      && (f.insert || newId in st.clients ==> r == Step(st, Err(InsertFailed)))
      && (!f.insert && newId !in st.clients ==>
            var inserted := st.(clients := st.clients[newId := c]);
            && (f.update || !LeadStatusAllowed(st, mark) ==> r == Step(inserted, Err(UpdateFailed)))
            && (!f.update && LeadStatusAllowed(st, mark) ==>
                  r == Step(inserted.(leads := st.leads[leadId := st.leads[leadId].(status := mark)]), Ok(c))))
  {
    if f.fetch || leadId !in st.leads then Step(st, Err(FetchFailed))
    else
      var lead := st.leads[leadId];
      var ins := InsertClient(st, NewClientFrom(lead, newId), f.insert);
      match ins.result
      case Err(e) => ins
      case Ok(c) =>
        var upd := SetLeadStatus(ins.store, leadId, mark, f.update);
        match upd.result
        case Err(e) => Step(upd.store, Err(e))
        case Ok(_) => Step(upd.store, Ok(c))
  }

  /** `convertLeadToClient(leadId)`: it succeeds exactly when the lead is found,
      the client row is accepted and the lead may be marked `converted`; it then
      returns the client built from the lead. */
  function ConvertLeadToClient(st: Store, leadId: int, newId: int, f: ConvertFaults): (r: Step<Client>)
    ensures r.result.Ok? <==>
      !f.fetch && leadId in st.leads && !f.insert && newId !in st.clients
      && !f.update && LeadStatusAllowed(st, "converted")
    ensures r.result.Ok? ==>
      && r.result.value == NewClientFrom(st.leads[leadId], newId)
      && r.store.leads == st.leads[leadId := st.leads[leadId].(status := "converted")]
    ensures r.result.Err? && (f.fetch || leadId !in st.leads || f.insert || newId in st.clients) ==> r.store == st
  {
    ConvertMarking(st, leadId, newId, f, "converted")
  }

  /** The columns of `clients` as the schema declares them (src/lib/supabase.ts,
      lines 107-118). */
  const DeclaredClientColumns: set<string> :=
    {"id", "created_at", "name", "email", "phone", "company", "notes", "address", "status", "lead_id"}

  /** The columns the conversion writes into its new client row. */
  const NewClientColumns: set<string> :=
    {"name", "email", "phone", "notes", "address", "status", "estimated_value", "source", "assigned_to", "lead_id"}

  /** An insert naming a column the table lacks is refused. */
  predicate InsertRefused(columns: set<string>) {
    !(NewClientColumns <= columns)
  }

  /** Against the declared `clients` table the new row names three columns the
      table lacks, so the insert is refused: the conversion fails and changes
      nothing. */
  lemma DeclaredClientsRefuseInsert(st: Store, leadId: int, newId: int, fetch: bool, update: bool)
    ensures NewClientColumns - DeclaredClientColumns == {"estimated_value", "source", "assigned_to"}
    ensures InsertRefused(DeclaredClientColumns)
    ensures var r := ConvertLeadToClient(st, leadId, newId, ConvertFaults(fetch, InsertRefused(DeclaredClientColumns), update));
      r.store == st && r.result.Err?
      && (r.result.error == InsertFailed <==> !fetch && leadId in st.leads)
  {
    assert "source" in NewClientColumns && "source" !in DeclaredClientColumns;
    var missing := NewClientColumns - DeclaredClientColumns;
    assert missing == {"estimated_value", "source", "assigned_to"} by {
      assert forall c :: c in missing <==> c in {"estimated_value", "source", "assigned_to"};
    }
  }

  /** Whatever happens, the conversion touches only the new client and the lead's
      status, and on success the lead is converted and linked to the returned client. */
  lemma ConvertEffects(st: Store, leadId: int, newId: int, f: ConvertFaults)
    requires WellKeyed(st)
    ensures var r := ConvertLeadToClient(st, leadId, newId, f);
      && r.store.quotes == st.quotes && r.store.invoices == st.invoices && r.store.leadCheck == st.leadCheck
      && r.store.leads.Keys == st.leads.Keys
      && (forall k :: k in st.leads && k != leadId ==> r.store.leads[k] == st.leads[k])
      && (forall k :: k in st.clients ==> k in r.store.clients && r.store.clients[k] == st.clients[k])
      && (r.result.Ok? ==>
            && r.store.leads[leadId] == st.leads[leadId].(status := "converted")
            && r.store.clients == st.clients[newId := r.result.value]
            && r.result.value.leadId == Some(leadId))
  {
  }

  /** Against the declared schema the conversion never succeeds, and when nothing
      else fails it stops after inserting the client: the lead keeps its status. */
  lemma DeclaredSchemaRefusesConversion(st: Store, leadId: int, newId: int)
    requires st.leadCheck == Some(LeadStatusDomain)
    requires WellKeyed(st) && leadId in st.leads && newId !in st.clients
    ensures ConvertLeadToClient(st, leadId, newId, NoConvertFaults).result.Err?
    ensures var r := ConvertLeadToClient(st, leadId, newId, NoConvertFaults);
      r.store.leads == st.leads && newId in r.store.clients && r.store.clients[newId].leadId == Some(leadId)
  {
  }

  /** The `clients` columns with the three the `Client` type
      (src/lib/supabase.ts, lines 9-21) carries and the table lacks. */
  const CorrectedClientColumns: set<string> := DeclaredClientColumns + {"estimated_value", "source", "assigned_to"}

  /** With those columns, and with `converted` admitted for leads, the
      conversion succeeds: the lead is converted and the returned client
      links it. */
  lemma CorrectedSchemaConverts(st: Store, leadId: int, newId: int)
    requires WellKeyed(st) && leadId in st.leads && newId !in st.clients && st.leadCheck == Some(CorrectedLeadStatusDomain)
    ensures !InsertRefused(CorrectedClientColumns)
    ensures var r := ConvertLeadToClient(st, leadId, newId, ConvertFaults(false, InsertRefused(CorrectedClientColumns), false));
      && r.result == Ok(NewClientFrom(st.leads[leadId], newId))
      && r.store.leads[leadId].status == "converted"
      && newId in r.store.clients && r.store.clients[newId].leadId == Some(leadId)
  {
    forall c | c in NewClientColumns ensures c in CorrectedClientColumns {
    }
    assert ConvertFaults(false, InsertRefused(CorrectedClientColumns), false) == NoConvertFaults;
    assert LeadStatusAllowed(st, "converted");
    var c := NewClientFrom(st.leads[leadId], newId);
    assert ConvertLeadToClient(st, leadId, newId, NoConvertFaults).store.clients == st.clients[newId := c];
  }

  /** `deleteClientByLeadId(leadId)`. The `.single()` lookup reports "no rows"
      (`PGRST116`) both for no match and for several; that code is ignored. */
  function DeleteClientByLeadId(st: Store, leadId: int, f: DeleteFaults): (r: Step<()>)
    ensures f.lookup ==> r == Step(st, Err(FetchFailed))
    ensures !f.lookup && |LinkedClients(st.clients, leadId)| != 1 ==> r == Step(st, Ok(()))
    ensures !f.lookup && |LinkedClients(st.clients, leadId)| == 1 ==>
      && (f.delete ==> r == Step(st, Err(DeleteFailed)))
      && (!f.delete ==> r == Step(st.(clients := st.clients - LinkedClients(st.clients, leadId)), Ok(())))
  {
    if f.lookup then Step(st, Err(FetchFailed))
    else
      var linked := LinkedClients(st.clients, leadId);
      if |linked| != 1 then Step(st, Ok(()))
      else
        // the one linked row, deleted by id
        if f.delete then Step(st, Err(DeleteFailed))
        else Step(st.(clients := st.clients - linked), Ok(()))
  }

  /** After a successful call no client is linked to the lead, unless several were. */
  lemma DeleteUnlinks(st: Store, leadId: int)
    requires |LinkedClients(st.clients, leadId)| <= 1
    ensures var r := DeleteClientByLeadId(st, leadId, NoDeleteFaults);
      r.result.Ok? && LinkedClients(r.store.clients, leadId) == {}
  {
    var linked := LinkedClients(st.clients, leadId);
    var r := DeleteClientByLeadId(st, leadId, NoDeleteFaults);
    if |linked| == 1 {
      LinkedAfterDeleteAll(st.clients, linked, leadId);
    } else {
      assert linked == {};
    }
  }

  lemma LinkedAfterDeleteAll(clients: map<int, Client>, ids: set<int>, l: int)
    ensures LinkedClients(clients - ids, l) == LinkedClients(clients, l) - ids
  {
  }

  /** A second call right after a successful one changes nothing. */
  lemma DeleteIdempotent(st: Store, leadId: int)
    ensures var once := DeleteClientByLeadId(st, leadId, NoDeleteFaults);
      once.result.Ok? && DeleteClientByLeadId(once.store, leadId, NoDeleteFaults) == Step(once.store, Ok(()))
  {
    var linked := LinkedClients(st.clients, leadId);
    if |linked| == 1 {
      LinkedAfterDeleteAll(st.clients, linked, leadId);
    }
  }

  /** The lead status counts and the share converted. */
  datatype ConversionStats = ConversionStats(
    total: nat, converted: nat, newLeads: nat, contacted: nat, qualified: nat, lost: nat, conversionRate: real)

  /** The statuses counted, in the order they appear in the stats. */
  const CountedStatuses: seq<string> := ["converted", "new", "contacted", "qualified", "lost"]

  /** The five counts never add up to more than the rows counted: a row has at
      most one status. */
  lemma {:induction false} CountedStatusesBounded(statuses: seq<string>)
    ensures CountEq(statuses, "converted") + CountEq(statuses, "new") + CountEq(statuses, "contacted")
      + CountEq(statuses, "qualified") + CountEq(statuses, "lost") <= |statuses|
  {
    if |statuses| > 0 {
      CountedStatusesBounded(statuses[1..]);
    }
  }

  /** The stats record for the given counts, with the rate derived from them. */
  function StatsFrom(total: nat, converted: nat, newLeads: nat, contacted: nat, qualified: nat, lost: nat): (s: ConversionStats)
    ensures s == ConversionStats(total, converted, newLeads, contacted, qualified, lost, s.conversionRate)
    ensures IsPercentOf(s.conversionRate, converted, total)
  {
    PercentOfCounts(converted, total);
    ConversionStats(total, converted, newLeads, contacted, qualified, lost, Percent(converted as real, total as real))
  }

  /** `getConversionStats()` over the fetched `status` column. */
  function GetConversionStats(statuses: seq<string>, fetchFails: bool): (r: Result<ConversionStats, Error>)
    ensures fetchFails <==> r.Err?
    ensures r.Ok? ==>
      var s := r.value;
      && s.total == |statuses|
      && s.converted == CountEq(statuses, "converted") && s.newLeads == CountEq(statuses, "new")
      && s.contacted == CountEq(statuses, "contacted") && s.qualified == CountEq(statuses, "qualified")
      && s.lost == CountEq(statuses, "lost")
      && s.converted + s.newLeads + s.contacted + s.qualified + s.lost <= s.total
      && IsPercentOf(s.conversionRate, s.converted, s.total)
  {
    if fetchFails then Err(FetchFailed)
    else
      CountedStatusesBounded(statuses);
      Ok(StatsFrom(|statuses|, CountEq(statuses, "converted"), CountEq(statuses, "new"),
        CountEq(statuses, "contacted"), CountEq(statuses, "qualified"), CountEq(statuses, "lost")))
  }
}

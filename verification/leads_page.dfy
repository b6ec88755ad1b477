/** The leads list page: the status drop-down, which creates or removes the
    client linked to a lead as the lead enters or leaves `qualified`, and the
    search and status filter (src/app/leads/page.tsx). */
module LeadsPage {
  import opened Wrappers
  import opened Strings
  import opened Seqs
  import opened EntityStore
  import opened LeadConversion

  const ConvertedMessage := "Lead converted to client!"
  const UpdatedMessage := "Lead status updated."
  const FailedMessage := "Failed to update status."

  /** What the environment decides during one status change: the id the client
      insert assigns, and which store calls fail. */
  datatype PageFaults = PageFaults(newClientId: int, convert: ConvertFaults, delete: DeleteFaults, updateFails: bool)

  function NoFaults(newClientId: int): PageFaults {
    PageFaults(newClientId, NoConvertFaults, NoDeleteFaults, false)
  }

  /** The store after a status change and the page state it leaves: the banner
      message, the row being updated, and whether the list was reloaded. */
  datatype StatusOutcome = StatusOutcome(store: Store, message: string, statusUpdating: Option<int>, reloaded: bool)

  /** `leads.find(l => l.id === id)`: the first listed lead with that id. */
  function FindLead(view: seq<Lead>, id: int): (r: Option<Lead>)
    ensures r.None? <==> forall i :: 0 <= i < |view| ==> view[i].id != id
    ensures r.Some? ==> r.value in view && r.value.id == id
  {
    if |view| == 0 then None
    else if view[0].id == id then Some(view[0])
    else FindLead(view[1..], id)
  }

  /** The statuses whose departure deletes the linked client. The page tests
      `qualified` only, though its comment names converted leads too. */
  const UnlinkFromAsWritten: set<string> := {"qualified"}
  const UnlinkFromCorrected: set<string> := {"qualified", "converted"}

  /** `handleStatusChange(leadId, newStatus)` over the listed leads `view`, with
      the statuses that trigger the client deletion as a parameter. */
  function StatusChangeWith(st: Store, view: seq<Lead>, leadId: int, newStatus: string, env: PageFaults,
                            unlinkFrom: set<string>): (r: StatusOutcome)
    ensures r.statusUpdating == None
    ensures r.reloaded <==> r.message != FailedMessage
    ensures newStatus == "qualified" ==> r.message in {ConvertedMessage, FailedMessage}
    ensures newStatus != "qualified" ==> r.message in {UpdatedMessage, FailedMessage}
    ensures r.store.quotes == st.quotes && r.store.invoices == st.invoices && r.store.leadCheck == st.leadCheck
    ensures r.store.leads.Keys == st.leads.Keys
    ensures forall k :: k in st.leads && k != leadId ==> r.store.leads[k] == st.leads[k]
    ensures r.reloaded ==> leadId in st.leads && r.store.leads[leadId].status == newStatus
  {
    var lead := FindLead(view, leadId);
    var wasLinked := lead.Some? && lead.value.status in unlinkFrom;
    if newStatus == "qualified" then
      var c := ConvertLeadToClient(st, leadId, env.newClientId, env.convert);
      if c.result.Err? then StatusOutcome(c.store, FailedMessage, None, false)
      else
        var u := UpdateLeadStatus(c.store, leadId, "qualified", env.updateFails);
        if u.result.Err? then StatusOutcome(u.store, FailedMessage, None, false)
        else StatusOutcome(u.store, ConvertedMessage, None, true)
    else
      var d := if wasLinked then DeleteClientByLeadId(st, leadId, env.delete) else Step(st, Ok(()));
      if d.result.Err? then StatusOutcome(d.store, FailedMessage, None, false)
      else
        var u := UpdateLeadStatus(d.store, leadId, newStatus, env.updateFails);
        if u.result.Err? then StatusOutcome(u.store, FailedMessage, None, false)
        else StatusOutcome(u.store, UpdatedMessage, None, true)
  }

  /** The page as written: moving a lead anywhere but `qualified` deletes a
      client only when the listed row was `qualified`, so a converted lead
      keeps its client. */
  function HandleStatusChange(st: Store, view: seq<Lead>, leadId: int, newStatus: string, env: PageFaults): (r: StatusOutcome)
    ensures newStatus != "qualified" && (FindLead(view, leadId).None? || FindLead(view, leadId).value.status != "qualified") ==>
      r.store.clients == st.clients
  {
    StatusChangeWith(st, view, leadId, newStatus, env, UnlinkFromAsWritten)
  }

  /** The page with converted leads unlinked as well: a successful move out of
      `qualified` or `converted` leaves no client linked, when at most one was. */
  function HandleStatusChangeCorrected(st: Store, view: seq<Lead>, leadId: int, newStatus: string, env: PageFaults): (r: StatusOutcome)
    ensures
      (&& newStatus != "qualified" && ViewAgrees(st, view, leadId) && r.reloaded
       && st.leads[leadId].status in {"qualified", "converted"} && |LinkedClients(st.clients, leadId)| <= 1)
      ==> LinkedClients(r.store.clients, leadId) == {}
  {
    var r := StatusChangeWith(st, view, leadId, newStatus, env, UnlinkFromCorrected);
    if newStatus != "qualified" && ViewAgrees(st, view, leadId) && r.reloaded then
      DemoteEffect(st, view, leadId, newStatus, env, UnlinkFromCorrected);
      r
    else r
  }

  /** The listed row for `leadId` is the stored one. */
  predicate ViewAgrees(st: Store, view: seq<Lead>, leadId: int) {
    leadId in st.leads && FindLead(view, leadId) == Some(st.leads[leadId])
  }

  /** The intended invariant: a lead is qualified exactly when one client is linked to it. */
  predicate LinkInvariant(st: Store) {
    forall id :: id in st.leads ==>
      |LinkedClients(st.clients, id)| == (if st.leads[id].status == "qualified" then 1 else 0)
  }

  /** Choosing `qualified` converts the lead and then writes `qualified` over
      `converted`; the new client is the only one added. */
  lemma QualifyNetEffect(st: Store, view: seq<Lead>, leadId: int, env: PageFaults, unlinkFrom: set<string>)
    requires WellKeyed(st)
    requires StatusChangeWith(st, view, leadId, "qualified", env, unlinkFrom).reloaded
    ensures var r := StatusChangeWith(st, view, leadId, "qualified", env, unlinkFrom);
      && r.message == ConvertedMessage
      && r.store.leads == st.leads[leadId := st.leads[leadId].(status := "qualified")]
      && env.newClientId !in st.clients
      && r.store.clients == st.clients[env.newClientId := NewClientFrom(st.leads[leadId], env.newClientId)]
      && LinkedClients(r.store.clients, leadId) == LinkedClients(st.clients, leadId) + {env.newClientId}
  {
    var c := NewClientFrom(st.leads[leadId], env.newClientId);
    LinkedAfterInsert(st.clients, c, leadId);
  }

  /** Leaving an unlinking status with at most one client linked removes it; a
      successful move that does not start from such a status creates and
      deletes no client. */
  lemma DemoteEffect(st: Store, view: seq<Lead>, leadId: int, newStatus: string, env: PageFaults, unlinkFrom: set<string>)
    requires newStatus != "qualified"
    requires ViewAgrees(st, view, leadId)
    requires StatusChangeWith(st, view, leadId, newStatus, env, unlinkFrom).reloaded
    ensures var r := StatusChangeWith(st, view, leadId, newStatus, env, unlinkFrom);
      && r.message == UpdatedMessage
      && r.store.leads == st.leads[leadId := st.leads[leadId].(status := newStatus)]
      && (st.leads[leadId].status !in unlinkFrom ==> r.store.clients == st.clients)
      && (st.leads[leadId].status in unlinkFrom && |LinkedClients(st.clients, leadId)| <= 1 ==>
            LinkedClients(r.store.clients, leadId) == {})
  {
    var linked := LinkedClients(st.clients, leadId);
    if st.leads[leadId].status in unlinkFrom && |linked| <= 1 {
      if |linked| == 1 {
        LinkedAfterDeleteAll(st.clients, linked, leadId);
      } else {
        assert linked == {};
      }
    }
  }

  /** Every status change that succeeds, starts from the listed row and moves the
      lead to a different status keeps the invariant. */
  lemma StatusChangeKeepsLinks(st: Store, view: seq<Lead>, leadId: int, newStatus: string, env: PageFaults, unlinkFrom: set<string>)
    requires WellKeyed(st) && LinkInvariant(st)
    requires "qualified" in unlinkFrom
    requires ViewAgrees(st, view, leadId) && newStatus != st.leads[leadId].status
    requires StatusChangeWith(st, view, leadId, newStatus, env, unlinkFrom).reloaded
    ensures LinkInvariant(StatusChangeWith(st, view, leadId, newStatus, env, unlinkFrom).store)
  {
    var r := StatusChangeWith(st, view, leadId, newStatus, env, unlinkFrom);
    if newStatus == "qualified" {
      QualifyNetEffect(st, view, leadId, env, unlinkFrom);
      var c := NewClientFrom(st.leads[leadId], env.newClientId);
      forall id | id in r.store.leads
        ensures |LinkedClients(r.store.clients, id)| == (if r.store.leads[id].status == "qualified" then 1 else 0)
      {
        LinkedAfterInsert(st.clients, c, id);
      }
    } else {
      DemoteEffect(st, view, leadId, newStatus, env, unlinkFrom);
      var linked := LinkedClients(st.clients, leadId);
      forall id | id in r.store.leads
        ensures |LinkedClients(r.store.clients, id)| == (if r.store.leads[id].status == "qualified" then 1 else 0)
      {
        if id != leadId && st.leads[leadId].status in unlinkFrom {
          LinkedAfterDeleteAll(st.clients, linked, id);
          assert LinkedClients(st.clients, id) !! linked;
        }
      }
    }
  }

  /** Against the declared schema, choosing `qualified` for a lead that is not
      qualified always fails after inserting the client: the lead keeps its
      status and now has a client linked, which breaks the invariant. */
  lemma DeclaredSchemaOrphansClient(st: Store, view: seq<Lead>, leadId: int, newClientId: int)
    requires WellKeyed(st) && LinkInvariant(st)
    requires st.leadCheck == Some(LeadStatusDomain)
    requires leadId in st.leads && st.leads[leadId].status != "qualified" && newClientId !in st.clients
    ensures var r := HandleStatusChange(st, view, leadId, "qualified", NoFaults(newClientId));
      && r.message == FailedMessage
      && r.store.leads == st.leads
      && LinkedClients(r.store.clients, leadId) == {newClientId}
      && !LinkInvariant(r.store)
  {
    var c := NewClientFrom(st.leads[leadId], newClientId);
    LinkedAfterInsert(st.clients, c, leadId);
  }

  /** With `converted` admitted, the same request succeeds and keeps the invariant. */
  lemma CorrectedSchemaQualifies(st: Store, view: seq<Lead>, leadId: int, newClientId: int)
    requires WellKeyed(st) && LinkInvariant(st)
    requires st.leadCheck == Some(CorrectedLeadStatusDomain)
    requires ViewAgrees(st, view, leadId) && st.leads[leadId].status != "qualified" && newClientId !in st.clients
    ensures var r := HandleStatusChange(st, view, leadId, "qualified", NoFaults(newClientId));
      && r.message == ConvertedMessage
      && r.store.leads[leadId].status == "qualified"
      && LinkedClients(r.store.clients, leadId) == {newClientId}
      && LinkInvariant(r.store)
  {
    QualifyNetEffect(st, view, leadId, NoFaults(newClientId), UnlinkFromAsWritten);
    StatusChangeKeepsLinks(st, view, leadId, "qualified", NoFaults(newClientId), UnlinkFromAsWritten);
  }

  /** A failure after the conversion is not rolled back: the client stays and
      the lead is left `converted`. */
  lemma FailedUpdateKeepsConversion(st: Store, view: seq<Lead>, leadId: int, newClientId: int)
    requires WellKeyed(st) && leadId in st.leads && newClientId !in st.clients
    requires LeadStatusAllowed(st, "converted")
    ensures var r := HandleStatusChange(st, view, leadId, "qualified", NoFaults(newClientId).(updateFails := true));
      && r.message == FailedMessage && r.statusUpdating == None
      && r.store.leads[leadId].status == "converted"
      && newClientId in LinkedClients(r.store.clients, leadId)
  {
  }

  /** A lead left `converted` is not treated as qualified, so demoting it keeps
      its client linked. */
  lemma ConvertedLeadKeepsClient(st: Store, view: seq<Lead>, leadId: int, newStatus: string, newClientId: int)
    requires ViewAgrees(st, view, leadId) && st.leads[leadId].status == "converted"
    requires newStatus != "qualified" && LeadStatusAllowed(st, newStatus)
    ensures var r := HandleStatusChange(st, view, leadId, newStatus, NoFaults(newClientId));
      && r.message == UpdatedMessage
      && r.store.leads[leadId].status == newStatus
      && LinkedClients(r.store.clients, leadId) == LinkedClients(st.clients, leadId)
  {
  }

  /** Unlinking converted leads too removes that client. */
  lemma CorrectedDemotionUnlinks(st: Store, view: seq<Lead>, leadId: int, newStatus: string, newClientId: int)
    requires ViewAgrees(st, view, leadId) && st.leads[leadId].status == "converted"
    requires |LinkedClients(st.clients, leadId)| <= 1
    requires newStatus != "qualified" && LeadStatusAllowed(st, newStatus)
    ensures var r := HandleStatusChangeCorrected(st, view, leadId, newStatus, NoFaults(newClientId));
      && r.message == UpdatedMessage
      && r.store.leads[leadId].status == newStatus
      && LinkedClients(r.store.clients, leadId) == {}
  {
    DemoteEffect(st, view, leadId, newStatus, NoFaults(newClientId), UnlinkFromCorrected);
  }

  // ---------------------------------------------------------------------
  // The list filter.
  // ---------------------------------------------------------------------

  /** `field?.toLowerCase().includes(term)`: a missing field does not match. */
  predicate FieldMatches(field: Option<string>, term: string) {
    field.Some? && Contains(Lower(field.value), Lower(term))
  }

  predicate LeadMatches(l: Lead, term: string, statusFilter: string) {
    && (term == "" || Contains(Lower(l.name), Lower(term)) || FieldMatches(l.email, term) || FieldMatches(l.phone, term))
    && (statusFilter == "all" || l.status == statusFilter)
  }

  /** `filteredLeads`. */
  function FilteredLeads(leads: seq<Lead>, term: string, statusFilter: string): (r: seq<Lead>)
    ensures forall l :: l in r <==> l in leads && LeadMatches(l, term, statusFilter)
    ensures term == "" && statusFilter == "all" ==> r == leads
  {
    var p := (l: Lead) => LeadMatches(l, term, statusFilter);
    assert term == "" && statusFilter == "all" ==> Filter(leads, p) == leads by {
      if term == "" && statusFilter == "all" {
        FilterAll(leads, p);
      }
    }
    Filter(leads, p)
  }

  /** Filtering the filtered list again with the same search and status keeps it whole. */
  lemma FilteredLeadsIdempotent(leads: seq<Lead>, term: string, statusFilter: string)
    ensures FilteredLeads(FilteredLeads(leads, term, statusFilter), term, statusFilter) == FilteredLeads(leads, term, statusFilter)
  {
    var r := FilteredLeads(leads, term, statusFilter);
    FilterAll(r, (l: Lead) => LeadMatches(l, term, statusFilter));
  }
}

/** The action buttons offered for a record in a given status, and what
    clicking one does (src/components/ui/FlowActions.tsx). This table is
    written independently of the status registry. */
module FlowActions {
  import opened Wrappers
  import FlowStates

  /** The three conversions that open the confirmation dialog. */
  datatype ConversionType = LeadToClient | QuoteToJob | JobToInvoice {
    function Name(): string {
      match this
      case LeadToClient => "leadToClient"
      case QuoteToJob => "quoteToJob"
      case JobToInvoice => "jobToInvoice"
    }
  }

  /** One button; `conversion` is set exactly for the buttons that open the dialog. */
  datatype Action = Action(
    key: string,
    caption: string,
    icon: string,
    variant: string,
    description: string,
    conversion: Option<ConversionType>)

  function Plain(key: string, caption: string, icon: string, variant: string, description: string): Action {
    Action(key, caption, icon, variant, description, None)
  }

  function LeadActions(status: string): seq<Action> {
    match status
    case "New" => [Plain("contact", "Contact Lead", "Send", "primary", "Reach out to the lead")]
    case "Contacted" => [
      Plain("qualify", "Mark Qualified", "CheckCircle", "success", "Lead shows genuine interest"),
      Plain("followUp", "Schedule Follow-up", "Clock", "secondary", "Set reminder for next contact")]
    case "Qualified" => [
      Action("convertToClient", "Convert to Client", "UserPlus", "success", "Create client record from this lead", Some(LeadToClient)),
      Plain("sendProposal", "Send Proposal", "FileText", "primary", "Send quote or proposal")]
    case "Proposal Sent" => [Plain("followUpProposal", "Follow Up", "Clock", "secondary", "Check on proposal status")]
    case _ => []
  }

  function ClientActions(status: string): seq<Action> {
    match status
    case "Prospective" => [Plain("createQuote", "Create Quote", "FileText", "primary", "Generate quote for services")]
    case "Active" => [Plain("createQuote", "New Quote", "FileText", "primary", "Create additional quote")]
    case "VIP" => [Plain("priorityService", "Priority Service", "AlertTriangle", "primary", "Fast-track service request")]
    case _ => []
  }

  function QuoteActions(status: string): seq<Action> {
    match status
    case "Draft" => [Plain("sendQuote", "Send Quote", "Send", "primary", "Email quote to client")]
    case "Sent" => [Plain("followUp", "Follow Up", "Clock", "secondary", "Check with client")]
    case "Reviewed" => [Plain("followUp", "Follow Up", "Clock", "secondary", "Discuss with client")]
    case "Approved" => [Action("createJob", "Create Job", "Briefcase", "success", "Schedule work order", Some(QuoteToJob))]
    case _ => []
  }

  function JobActions(status: string): seq<Action> {
    match status
    case "Scheduled" => [Plain("dispatch", "Dispatch", "ArrowRight", "primary", "Send technician to job")]
    case "Dispatched" => [Plain("startWork", "Start Work", "CheckCircle", "success", "Mark job as in progress")]
    case "In Progress" => [Plain("completeJob", "Mark Complete", "CheckCircle", "success", "Job finished successfully")]
    case "Completed" => [Plain("needsInvoicing", "Needs Invoicing", "DollarSign", "primary", "Ready for billing")]
    case "Needs Invoicing" => [Action("createInvoice", "Create Invoice", "DollarSign", "success", "Generate bill for client", Some(JobToInvoice))]
    case _ => []
  }

  function InvoiceActions(status: string): seq<Action> {
    match status
    case "Draft" => [Plain("sendInvoice", "Send Invoice", "Send", "primary", "Email to client")]
    case "Sent" => [Plain("followUp", "Follow Up", "Clock", "secondary", "Payment reminder")]
    case "Viewed" => [Plain("followUp", "Follow Up", "Clock", "secondary", "Check payment status")]
    case "Overdue" => [Plain("sendReminder", "Send Reminder", "AlertTriangle", "warning", "Overdue payment notice")]
    case _ => []
  }

  /** `getActions()` for the component's module and status. */
  function GetActions(m: string, status: string): seq<Action> {
    match m
    case "leads" => LeadActions(status)
    case "clients" => ClientActions(status)
    case "quotes" => QuoteActions(status)
    case "jobs" => JobActions(status)
    case "invoices" => InvoiceActions(status)
    case _ => []
  }

  /** The (module, status) pairs that have a case of their own. */
  const ActionPairs: set<(string, string)> := {
    ("leads", "New"), ("leads", "Contacted"), ("leads", "Qualified"), ("leads", "Proposal Sent"),
    ("clients", "Prospective"), ("clients", "Active"), ("clients", "VIP"),
    ("quotes", "Draft"), ("quotes", "Sent"), ("quotes", "Reviewed"), ("quotes", "Approved"),
    ("jobs", "Scheduled"), ("jobs", "Dispatched"), ("jobs", "In Progress"), ("jobs", "Completed"), ("jobs", "Needs Invoicing"),
    ("invoices", "Draft"), ("invoices", "Sent"), ("invoices", "Viewed"), ("invoices", "Overdue")}

  /** Every pair without a case of its own gets no buttons. */
  lemma ActionsOnlyForListedPairs(m: string, s: string)
    ensures GetActions(m, s) != [] <==> (m, s) in ActionPairs
  {
  }

  predicate HasConversion(actions: seq<Action>) {
    exists i :: 0 <= i < |actions| && actions[i].conversion.Some?
  }

  lemma LeadConversions(s: string)
    ensures HasConversion(LeadActions(s)) <==> s == "Qualified"
  {
    if HasConversion(LeadActions(s)) {
      var i :| 0 <= i < |LeadActions(s)| && LeadActions(s)[i].conversion.Some?;
    }
    if s == "Qualified" {
      assert LeadActions(s)[0].conversion.Some?;
    }
  }

  lemma ClientConversions(s: string)
    ensures !HasConversion(ClientActions(s))
  {
    if HasConversion(ClientActions(s)) {
      var i :| 0 <= i < |ClientActions(s)| && ClientActions(s)[i].conversion.Some?;
    }
  }

  lemma QuoteConversions(s: string)
    ensures HasConversion(QuoteActions(s)) <==> s == "Approved"
  {
    if HasConversion(QuoteActions(s)) {
      var i :| 0 <= i < |QuoteActions(s)| && QuoteActions(s)[i].conversion.Some?;
    }
    if s == "Approved" {
      assert QuoteActions(s)[0].conversion.Some?;
    }
  }

  lemma JobConversions(s: string)
    ensures HasConversion(JobActions(s)) <==> s == "Needs Invoicing"
  {
    if HasConversion(JobActions(s)) {
      var i :| 0 <= i < |JobActions(s)| && JobActions(s)[i].conversion.Some?;
    }
    if s == "Needs Invoicing" {
      assert JobActions(s)[0].conversion.Some?;
    }
  }

  lemma InvoiceConversions(s: string)
    ensures !HasConversion(InvoiceActions(s))
  {
    if HasConversion(InvoiceActions(s)) {
      var i :| 0 <= i < |InvoiceActions(s)| && InvoiceActions(s)[i].conversion.Some?;
    }
  }

  /** Exactly three pairs carry a conversion button, each of the matching kind. */
  lemma ConversionPairs(m: string, s: string)
    ensures HasConversion(GetActions(m, s)) <==>
      (m, s) in {("leads", "Qualified"), ("quotes", "Approved"), ("jobs", "Needs Invoicing")}
    ensures GetActions("leads", "Qualified")[0].conversion == Some(LeadToClient)
    ensures GetActions("quotes", "Approved")[0].conversion == Some(QuoteToJob)
    ensures GetActions("jobs", "Needs Invoicing")[0].conversion == Some(JobToInvoice)
  {
    if m == "leads" {
      LeadConversions(s);
    } else if m == "clients" {
      ClientConversions(s);
    } else if m == "quotes" {
      QuoteConversions(s);
    } else if m == "jobs" {
      JobConversions(s);
    } else if m == "invoices" {
      InvoiceConversions(s);
    } else {
      assert GetActions(m, s) == [];
    }
  }

  /** Per module: a status with buttons is a key of the registry table, and
      one with transitions unless it is the module's conversion stage. */
  lemma LeadButtonStages(s: string)
    ensures LeadActions(s) != [] ==> s in FlowStates.LeadStages && |FlowStates.LeadStages[s].allowedTransitions| > 0
  {
  }

  lemma ClientButtonStages(s: string)
    ensures ClientActions(s) != [] ==> s in FlowStates.ClientStages && |FlowStates.ClientStages[s].allowedTransitions| > 0
  {
  }

  lemma QuoteButtonStages(s: string)
    ensures QuoteActions(s) != [] ==> s in FlowStates.QuoteStages
    ensures QuoteActions(s) != [] && s != "Approved" ==> |FlowStates.QuoteStages[s].allowedTransitions| > 0
  {
  }

  lemma JobButtonStages(s: string)
    ensures JobActions(s) != [] ==> s in FlowStates.JobStages
    ensures JobActions(s) != [] && s != "Needs Invoicing" ==> |FlowStates.JobStages[s].allowedTransitions| > 0
  {
  }

  lemma InvoiceButtonStages(s: string)
    ensures InvoiceActions(s) != [] ==> s in FlowStates.InvoiceStages && |FlowStates.InvoiceStages[s].allowedTransitions| > 0
  {
  }

  lemma ButtonStages(m: string, s: string)
    ensures GetActions(m, s) != [] ==> FlowStates.GetStageInfo(m, s).Some?
    ensures GetActions(m, s) != [] && (m, s) != ("quotes", "Approved") && (m, s) != ("jobs", "Needs Invoicing") ==>
      |FlowStates.GetStageInfo(m, s).value.allowedTransitions| > 0
  {
    if m == "leads" {
      LeadButtonStages(s);
    } else if m == "clients" {
      ClientButtonStages(s);
    } else if m == "quotes" {
      QuoteButtonStages(s);
    } else if m == "jobs" {
      JobButtonStages(s);
    } else if m == "invoices" {
      InvoiceButtonStages(s);
    }
  }

  /** Every status that gets buttons is a key of its module's registry table. */
  lemma ActionStatusesAreStages(m: string, s: string)
    requires GetActions(m, s) != []
    ensures FlowStates.GetStageInfo(m, s).Some?
  {
    ButtonStages(m, s);
  }

  /** Of the stages the registry marks terminal, only quote Approved and job Needs
      Invoicing get buttons, and those buttons are conversions. */
  lemma TerminalStagesOnlyConvert(m: string, s: string)
    requires FlowStates.GetStageInfo(m, s).Some? && |FlowStates.GetStageInfo(m, s).value.allowedTransitions| == 0
    requires GetActions(m, s) != []
    ensures (m, s) in {("quotes", "Approved"), ("jobs", "Needs Invoicing")}
    ensures forall a :: a in GetActions(m, s) ==> a.conversion.Some?
  {
    ButtonStages(m, s);
  }

  predicate DistinctActionKeys(actions: seq<Action>) {
    forall i, j :: 0 <= i < j < |actions| ==> actions[i].key != actions[j].key
  }

  /** Within one list the buttons' keys, used as element keys, are distinct. */
  lemma ActionKeysDistinct(m: string, s: string)
    ensures DistinctActionKeys(GetActions(m, s))
  {
    if m == "leads" {
      LeadKeysDistinct(s);
    } else if m == "clients" {
      ClientKeysDistinct(s);
    } else if m == "quotes" {
      QuoteKeysDistinct(s);
    } else if m == "jobs" {
      JobKeysDistinct(s);
    } else if m == "invoices" {
      InvoiceKeysDistinct(s);
    }
  }

  lemma LeadKeysDistinct(s: string) ensures DistinctActionKeys(LeadActions(s)) {}
  lemma ClientKeysDistinct(s: string) ensures DistinctActionKeys(ClientActions(s)) {}
  lemma QuoteKeysDistinct(s: string) ensures DistinctActionKeys(QuoteActions(s)) {}
  lemma JobKeysDistinct(s: string) ensures DistinctActionKeys(JobActions(s)) {}
  lemma InvoiceKeysDistinct(s: string) ensures DistinctActionKeys(InvoiceActions(s)) {}

  // ---------------------------------------------------------------------
  // Clicking.
  // ---------------------------------------------------------------------

  /** The placeholder record shown in the dialog. */
  datatype SourceData = SourceData(id: string, name: string, email: string, phone: string, amount: Option<real>)

  /** The dialog state: `kind` and `source` are cleared when it closes. */
  datatype Modal = Modal(isOpen: bool, kind: Option<ConversionType>, source: Option<SourceData>)

  const ClosedModal := Modal(false, None, None)

  /** A call `onAction(action, entityId)` made by the component. */
  datatype Notice = Notice(action: string, entityId: string)

  /** What a handler leaves behind: the dialog state and the calls it made
      (none when the parent passed no `onAction`). */
  datatype Effect = Effect(modal: Modal, notices: seq<Notice>)

  function MockSource(entityId: string, kind: ConversionType): SourceData {
    SourceData(entityId, "Mock Client Name", "client@example.com", "555-0123",
      if kind == JobToInvoice then Some(1250.75) else None)
  }

  /** `handleActionClick(action)`. */
  function HandleActionClick(modal: Modal, a: Action, entityId: string, hasOnAction: bool): (r: Effect)
    ensures a.conversion.Some? ==>
      r.notices == [] && r.modal.isOpen && r.modal.kind == a.conversion && r.modal.source.Some?
      && r.modal.source.value.id == entityId
    ensures a.conversion.None? ==>
      r.modal == modal && r.notices == (if hasOnAction then [Notice(a.key, entityId)] else [])
  {
    match a.conversion
    case Some(kind) => Effect(Modal(true, Some(kind), Some(MockSource(entityId, kind))), [])
    case None => Effect(modal, if hasOnAction then [Notice(a.key, entityId)] else [])
  }

  /** `handleConversionConfirm(data)`, with `data.conversionType` as given by the dialog. */
  function HandleConversionConfirm(modal: Modal, dataConversionType: string, entityId: string, hasOnAction: bool): (r: Effect)
    ensures r.modal == ClosedModal && !r.modal.isOpen
    ensures |r.notices| == (if hasOnAction then 1 else 0)
    ensures hasOnAction ==> r.notices[0] == Notice(dataConversionType, entityId)
  {
    Effect(ClosedModal, if hasOnAction then [Notice(dataConversionType, entityId)] else [])
  }

  /** The dialog reports back the kind it was shown with, so a conversion click
      followed by a confirmation reports that conversion's name for the record. */
  lemma ClickThenConfirm(modal: Modal, a: Action, entityId: string)
    requires a.conversion.Some?
    ensures var shown := HandleActionClick(modal, a, entityId, true).modal;
      shown.kind.Some? &&
      HandleConversionConfirm(shown, shown.kind.value.Name(), entityId, true)
        == Effect(ClosedModal, [Notice(a.conversion.value.Name(), entityId)])
  {
  }
}

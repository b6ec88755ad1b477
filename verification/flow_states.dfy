/** The status registry of the CRM: one stage table per module (leads,
    clients, quotes, jobs, invoices), keyed by the status display name, and the
    lookups the badges and the transition check use (src/lib/flowStates.ts). */
module FlowStates {
  import opened Wrappers

  /** One stage of a module's workflow. `allowedTransitions` lists the stage
      ids it may move to. */
  datatype Stage = Stage(
    id: string,
    name: string,
    description: string,
    allowedTransitions: seq<string>,
    requiredFields: seq<string>,
    color: string,
    icon: string)

  /** A hand-off from a stage of one module to a stage of another. */
  datatype Transition = Transition(
    fromStage: string,
    toStage: string,
    action: string,
    description: string,
    confirmationRequired: bool)

  /** A suggested follow-up action. */
  datatype NextAction = NextAction(id: string, caption: string, action: string, priority: string, icon: string)

  const DefaultColor := "bg-gray-100 text-gray-700"

  /** `leadStages`. */
  const LeadStages: map<string, Stage> := map[
    "New" := Stage("new", "New Lead", "Recently received lead requiring initial contact",
      ["contacted", "closed-lost"],
      ["leadName", "contactPhone", "estimatedJobValue"],
      "bg-blue-100 text-blue-700", "UserPlus"),
    "Contacted" := Stage("contacted", "Contacted", "Lead has been contacted, awaiting response",
      ["qualified", "proposal-sent", "closed-lost", "on-hold"],
      ["leadName", "contactPhone", "estimatedJobValue", "contactNotes"],
      "bg-sky-100 text-sky-700", "Phone"),
    "Qualified" := Stage("qualified", "Qualified", "Lead meets criteria and is ready for proposal",
      ["proposal-sent", "closed-won", "closed-lost"],
      ["leadName", "contactPhone", "estimatedJobValue", "descriptionOfNeeds"],
      "bg-green-100 text-green-700", "CheckCircle"),
    "Proposal Sent" := Stage("proposal-sent", "Proposal Sent", "Quote has been sent to potential client",
      ["negotiation", "closed-won", "closed-lost"],
      ["leadName", "contactPhone", "estimatedJobValue", "proposalSentDate"],
      "bg-indigo-100 text-indigo-700", "FileText"),
    "Negotiation" := Stage("negotiation", "Negotiation", "In active negotiation with potential client",
      ["closed-won", "closed-lost", "on-hold"],
      ["leadName", "contactPhone", "estimatedJobValue", "negotiationNotes"],
      "bg-yellow-100 text-yellow-700", "MessageSquare"),
    "Closed-Won" := Stage("closed-won", "Closed-Won", "Successfully converted to client",
      [],
      ["leadName", "contactPhone", "estimatedJobValue", "clientId"],
      "bg-green-100 text-green-700", "Trophy"),
    "Closed-Lost" := Stage("closed-lost", "Closed-Lost", "Did not convert to client",
      [],
      ["leadName", "contactPhone", "estimatedJobValue", "lossReason"],
      "bg-red-100 text-red-700", "XCircle"),
    "On Hold" := Stage("on-hold", "On Hold", "Temporarily paused for future follow-up",
      ["contacted", "qualified", "closed-lost"],
      ["leadName", "contactPhone", "estimatedJobValue", "followUpDate"],
      "bg-gray-100 text-gray-700", "Pause")
  ]

  /** `clientStages`. */
  const ClientStages: map<string, Stage> := map[
    "Prospective" := Stage("prospective", "Prospective", "New client, no completed jobs yet",
      ["active", "inactive"],
      ["clientName", "contactPhone", "serviceAddress"],
      "bg-blue-100 text-blue-700", "UserCheck"),
    "Active" := Stage("active", "Active", "Client with completed or ongoing jobs",
      ["inactive", "vip"],
      ["clientName", "contactPhone", "serviceAddress", "lastJobDate"],
      "bg-green-100 text-green-700", "Users"),
    "Inactive" := Stage("inactive", "Inactive", "No recent activity or jobs",
      ["active", "prospective"],
      ["clientName", "contactPhone", "serviceAddress"],
      "bg-gray-100 text-gray-700", "UserX"),
    "VIP" := Stage("vip", "VIP", "High-value client requiring priority service",
      ["active", "inactive"],
      ["clientName", "contactPhone", "serviceAddress", "vipReason"],
      "bg-purple-100 text-purple-700", "Crown")
  ]

  /** `quoteStages`. */
  const QuoteStages: map<string, Stage> := map[
    "Draft" := Stage("draft", "Draft", "Quote being prepared",
      ["sent", "cancelled"],
      ["clientId", "lineItems", "totalAmount"],
      "bg-gray-100 text-gray-700", "Edit"),
    "Sent" := Stage("sent", "Sent", "Quote sent to client",
      ["reviewed", "expired", "revised"],
      ["clientId", "lineItems", "totalAmount", "sentDate"],
      "bg-blue-100 text-blue-700", "Send"),
    "Reviewed" := Stage("reviewed", "Reviewed", "Client has viewed the quote",
      ["approved", "rejected", "revised"],
      ["clientId", "lineItems", "totalAmount", "sentDate", "viewedDate"],
      "bg-yellow-100 text-yellow-700", "Eye"),
    "Approved" := Stage("approved", "Approved", "Quote approved by client",
      [],
      ["clientId", "lineItems", "totalAmount", "approvedDate", "jobId"],
      "bg-green-100 text-green-700", "CheckCircle"),
    "Rejected" := Stage("rejected", "Rejected", "Quote rejected by client",
      ["revised"],
      ["clientId", "lineItems", "totalAmount", "rejectedDate", "rejectionReason"],
      "bg-red-100 text-red-700", "XCircle"),
    "Expired" := Stage("expired", "Expired", "Quote validity period has passed",
      ["revised"],
      ["clientId", "lineItems", "totalAmount", "expiryDate"],
      "bg-gray-100 text-gray-700", "Clock"),
    "Revised" := Stage("revised", "Revised", "Quote has been updated",
      ["sent", "cancelled"],
      ["clientId", "lineItems", "totalAmount", "revisionNotes"],
      "bg-orange-100 text-orange-700", "RefreshCw")
  ]

  /** `jobStages`. */
  const JobStages: map<string, Stage> := map[
    "Scheduled" := Stage("scheduled", "Scheduled", "Job scheduled with technician assigned",
      ["dispatched", "on-hold", "cancelled"],
      ["clientId", "scheduledDate", "assignedTechnicians", "description"],
      "bg-blue-100 text-blue-700", "Calendar"),
    "Dispatched" := Stage("dispatched", "Dispatched", "Technician en route to job site",
      ["in-progress", "cancelled"],
      ["clientId", "scheduledDate", "assignedTechnicians", "dispatchTime"],
      "bg-teal-100 text-teal-700", "Truck"),
    "In Progress" := Stage("in-progress", "In Progress", "Work is currently being performed",
      ["completed", "on-hold", "cancelled"],
      ["clientId", "scheduledDate", "assignedTechnicians", "startTime"],
      "bg-yellow-100 text-yellow-700", "Wrench"),
    "On Hold" := Stage("on-hold", "On Hold", "Job temporarily paused",
      ["scheduled", "in-progress", "cancelled"],
      ["clientId", "scheduledDate", "assignedTechnicians", "holdReason"],
      "bg-gray-100 text-gray-700", "Pause"),
    "Completed" := Stage("completed", "Completed", "Work finished, awaiting invoice generation",
      ["needs-invoicing"],
      ["clientId", "scheduledDate", "assignedTechnicians", "completionTime", "customerSignature"],
      "bg-green-100 text-green-700", "CheckCircle"),
    "Cancelled" := Stage("cancelled", "Cancelled", "Job was cancelled",
      [],
      ["clientId", "scheduledDate", "assignedTechnicians", "cancellationReason"],
      "bg-red-100 text-red-700", "XCircle"),
    "Needs Invoicing" := Stage("needs-invoicing", "Needs Invoicing", "Job completed, invoice needs to be generated",
      [],
      ["clientId", "scheduledDate", "assignedTechnicians", "completionTime", "invoiceId"],
      "bg-purple-100 text-purple-700", "Receipt")
  ]

  /** `invoiceStages`. */
  const InvoiceStages: map<string, Stage> := map[
    "Draft" := Stage("draft", "Draft", "Invoice being prepared",
      ["sent", "cancelled"],
      ["clientId", "jobId", "lineItems", "totalAmount"],
      "bg-gray-100 text-gray-700", "Edit"),
    "Sent" := Stage("sent", "Sent", "Invoice sent to client",
      ["viewed", "overdue", "cancelled"],
      ["clientId", "jobId", "lineItems", "totalAmount", "sentDate"],
      "bg-blue-100 text-blue-700", "Send"),
    "Viewed" := Stage("viewed", "Viewed", "Client has viewed the invoice",
      ["paid", "disputed", "overdue"],
      ["clientId", "jobId", "lineItems", "totalAmount", "viewedDate"],
      "bg-yellow-100 text-yellow-700", "Eye"),
    "Paid" := Stage("paid", "Paid", "Invoice has been paid in full",
      [],
      ["clientId", "jobId", "lineItems", "totalAmount", "paidDate", "paymentMethod"],
      "bg-green-100 text-green-700", "CheckCircle"),
    "Overdue" := Stage("overdue", "Overdue", "Invoice payment is past due",
      ["paid", "disputed", "cancelled"],
      ["clientId", "jobId", "lineItems", "totalAmount", "dueDate"],
      "bg-red-100 text-red-700", "AlertTriangle"),
    "Disputed" := Stage("disputed", "Disputed", "Client has disputed the invoice",
      ["paid", "cancelled"],
      ["clientId", "jobId", "lineItems", "totalAmount", "disputeReason"],
      "bg-orange-100 text-orange-700", "MessageSquare"),
    "Cancelled" := Stage("cancelled", "Cancelled", "Invoice has been cancelled",
      [],
      ["clientId", "jobId", "lineItems", "totalAmount", "cancellationReason"],
      "bg-gray-100 text-gray-700", "XCircle")
  ]

  /** `invoiceStages` keys in declaration order, which is what `Object.keys` returns. */
  const InvoiceStatusOrder: seq<string> :=
    ["Draft", "Sent", "Viewed", "Paid", "Overdue", "Disputed", "Cancelled"]

  /** `crossModuleTransitions`. */
  const CrossModuleTransitions: seq<Transition> := [
    Transition("closed-won", "prospective", "Convert to Client", "Convert qualified lead to prospective client", true),
    Transition("prospective", "draft", "Create Quote", "Create new quote for client", false),
    Transition("approved", "scheduled", "Create Job", "Create job from approved quote", true),
    Transition("completed", "draft", "Generate Invoice", "Generate invoice from completed job", false)
  ]

  const ModuleNames: set<string> := {"leads", "clients", "quotes", "jobs", "invoices"}

  /** The table a module name selects, if any. */
  function Table(m: string): (r: Option<map<string, Stage>>)
    ensures r.Some? <==> m in ModuleNames
  {
    match m
    case "leads" => Some(LeadStages)
    case "clients" => Some(ClientStages)
    case "quotes" => Some(QuoteStages)
    case "jobs" => Some(JobStages)
    case "invoices" => Some(InvoiceStages)
    case _ => None
  }

  /** `getStageInfo(m, status)`: `stages[module]?.[status]`. */
  function GetStageInfo(m: string, status: string): (r: Option<Stage>)
    ensures r.Some? <==> m in ModuleNames && status in Table(m).value
    ensures r.Some? ==> r.value == Table(m).value[status]
  {
    match Table(m)
    case None => None
    case Some(t) => if status in t then Some(t[status]) else None
  }

  /** `validateTransition(m, fromStatus, toStatus)`: only a stage the module's
      table has, looked up by its key, allows anything, and then only the
      targets it lists. */
  predicate ValidateTransition(m: string, fromStatus: string, toStatus: string)
    ensures ValidateTransition(m, fromStatus, toStatus) ==>
      m in ModuleNames && fromStatus in Table(m).value && toStatus in Table(m).value[fromStatus].allowedTransitions
    ensures m !in ModuleNames || fromStatus !in Table(m).value ==> !ValidateTransition(m, fromStatus, toStatus)
  {
    match GetStageInfo(m, fromStatus)
    case None => false
    case Some(stage) => toStatus in stage.allowedTransitions
  }

  /** `getStatusColor(m, status)`: the stage colour, or grey when the stage
      is unknown or its colour is empty. */
  function GetStatusColor(m: string, status: string): (r: string)
    ensures GetStageInfo(m, status).Some? ==> r == GetStageInfo(m, status).value.color
    ensures GetStageInfo(m, status).None? ==> r == DefaultColor
  {
    match GetStageInfo(m, status)
    case Some(stage) =>
      ColorsNonEmpty(m);
      if stage.color != "" then stage.color else DefaultColor
    case None => DefaultColor
  }

  lemma ColorsNonEmpty(m: string)
    requires m in ModuleNames
    ensures forall k :: k in Table(m).value ==> Table(m).value[k].color != ""
  {
    if m == "leads" {
      LeadColors();
    } else if m == "clients" {
      ClientColors();
    } else if m == "quotes" {
      QuoteColors();
    } else if m == "jobs" {
      JobColors();
    } else {
      InvoiceColors();
    }
  }
  lemma LeadColors() ensures forall k :: k in LeadStages ==> LeadStages[k].color != "" {}
  lemma ClientColors() ensures forall k :: k in ClientStages ==> ClientStages[k].color != "" {}
  lemma QuoteColors() ensures forall k :: k in QuoteStages ==> QuoteStages[k].color != "" {}
  lemma JobColors() ensures forall k :: k in JobStages ==> JobStages[k].color != "" {}
  lemma InvoiceColors() ensures forall k :: k in InvoiceStages ==> InvoiceStages[k].color != "" {}

  /** The ids of a table's stages. */
  function Ids(t: map<string, Stage>): set<string> {
    set k | k in t :: t[k].id
  }

  /** Every transition target names a stage of the same table. */
  predicate TargetsAreIds(t: map<string, Stage>) {
    forall k, x :: k in t && x in t[k].allowedTransitions ==> x in Ids(t)
  }

  /** No transition target is also a key of the table. */
  predicate TargetsAreNotKeys(t: map<string, Stage>) {
    forall k, x :: k in t && x in t[k].allowedTransitions ==> x !in t
  }

  /** Distinct keys carry distinct ids. */
  predicate IdsUnique(t: map<string, Stage>) {
    forall a, b :: a in t && b in t && a != b ==> t[a].id != t[b].id
  }

  const ConvertToClientAction := NextAction("convert-to-client", "Convert to Client", "convertToClient", "high", "UserPlus")
  const CreateQuoteAction := NextAction("create-quote", "Create Quote", "createQuote", "medium", "FileText")
  const CreateJobAction := NextAction("create-job", "Create Job", "createJob", "high", "Briefcase")
  const GenerateInvoiceAction := NextAction("generate-invoice", "Generate Invoice", "generateInvoice", "high", "Receipt")

  /** The `switch (module)` of `getNextActions`, applied to the value it compares. */
  function ActionsFor(m: string, s: string): seq<NextAction> {
    match m
    case "leads" => if s == "qualified" then [ConvertToClientAction] else []
    case "clients" => if s == "prospective" || s == "active" then [CreateQuoteAction] else []
    case "quotes" => if s == "approved" then [CreateJobAction] else []
    case "jobs" => if s == "completed" then [GenerateInvoiceAction] else []
    case _ => []
  }

  /** `getNextActions(module, status)`: nothing for an unknown stage, otherwise
      the action the switch selects by comparing `status` itself. */
  function GetNextActions(m: string, status: string): (r: seq<NextAction>)
    ensures |r| <= 1
    ensures r != [] ==> m in ModuleNames && status in Table(m).value
    ensures GetStageInfo(m, status).Some? ==> r == ActionsFor(m, status)
  {
    match GetStageInfo(m, status)
    case None => []
    case Some(_) => ActionsFor(m, status)
  }
}

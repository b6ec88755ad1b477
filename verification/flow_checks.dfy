/** Properties of the status registry: which lookups succeed, which stages are
    terminal, how stage keys relate to transition targets, and the corrected
    registry (id-based transitions, a quote `Cancelled` stage, `getNextActions`
    switching on the stage id). */
module FlowChecks {
  import opened Wrappers
  import opened FlowStates

  // ---------------------------------------------------------------------
  // The declared status unions and the table keys.
  // ---------------------------------------------------------------------

  const LeadStatuses: set<string> :=
    {"New", "Contacted", "Qualified", "Proposal Sent", "Negotiation", "Closed-Won", "Closed-Lost", "On Hold"}
  const ClientStatuses: set<string> := {"Prospective", "Active", "Inactive", "VIP"}
  const QuoteStatuses: set<string> := {"Draft", "Sent", "Reviewed", "Approved", "Rejected", "Expired", "Revised"}
  const JobStatuses: set<string> :=
    {"Scheduled", "Dispatched", "In Progress", "On Hold", "Completed", "Cancelled", "Needs Invoicing"}
  const InvoiceStatuses: set<string> := {"Draft", "Sent", "Viewed", "Paid", "Overdue", "Disputed", "Cancelled"}

  /** Each table has exactly one entry per member of its declared status union. */
  lemma LeadKeys() ensures LeadStages.Keys == LeadStatuses {}
  lemma ClientKeys() ensures ClientStages.Keys == ClientStatuses {}
  lemma QuoteKeys() ensures QuoteStages.Keys == QuoteStatuses {}
  lemma JobKeys() ensures JobStages.Keys == JobStatuses {}
  lemma InvoiceKeys() ensures InvoiceStages.Keys == InvoiceStatuses {}

  /** `Object.keys(invoiceStages)` lists every invoice status once. */
  lemma InvoiceOrderIsKeys()
    ensures forall s :: s in InvoiceStatusOrder <==> s in InvoiceStages
    ensures forall i, j :: 0 <= i < j < |InvoiceStatusOrder| ==> InvoiceStatusOrder[i] != InvoiceStatusOrder[j]
  {
    InvoiceKeys();
  }

  /** A stage is found exactly for a known module and one of its status names. */
  lemma StageInfoDomain(m: string, s: string)
    ensures GetStageInfo(m, s).Some? <==>
      || (m == "leads" && s in LeadStatuses)
      || (m == "clients" && s in ClientStatuses)
      || (m == "quotes" && s in QuoteStatuses)
      || (m == "jobs" && s in JobStatuses)
      || (m == "invoices" && s in InvoiceStatuses)
  {
    if m == "leads" {
      LeadKeys();
    } else if m == "clients" {
      ClientKeys();
    } else if m == "quotes" {
      QuoteKeys();
    } else if m == "jobs" {
      JobKeys();
    } else if m == "invoices" {
      InvoiceKeys();
    }
  }

  // ---------------------------------------------------------------------
  // Terminal stages.
  // ---------------------------------------------------------------------

  predicate Terminal(st: Stage) {
    |st.allowedTransitions| == 0
  }

  lemma LeadTerminals()
    ensures forall k :: k in LeadStages ==> (Terminal(LeadStages[k]) <==> k in {"Closed-Won", "Closed-Lost"})
  {
  }

  lemma ClientTerminals()
    ensures forall k :: k in ClientStages ==> !Terminal(ClientStages[k])
  {
  }

  lemma QuoteTerminals()
    ensures forall k :: k in QuoteStages ==> (Terminal(QuoteStages[k]) <==> k == "Approved")
  {
  }

  lemma JobTerminals()
    ensures forall k :: k in JobStages ==> (Terminal(JobStages[k]) <==> k in {"Cancelled", "Needs Invoicing"})
  {
  }

  lemma InvoiceTerminals()
    ensures forall k :: k in InvoiceStages ==> (Terminal(InvoiceStages[k]) <==> k in {"Paid", "Cancelled"})
  {
  }

  /** The terminal stages are exactly these seven, and each rejects every target. */
  lemma TerminalStagesRejectAll(m: string, s: string, target: string)
    ensures (GetStageInfo(m, s).Some? && Terminal(GetStageInfo(m, s).value)) <==>
      (m, s) in {("leads", "Closed-Won"), ("leads", "Closed-Lost"), ("quotes", "Approved"),
                 ("jobs", "Cancelled"), ("jobs", "Needs Invoicing"), ("invoices", "Paid"), ("invoices", "Cancelled")}
    ensures GetStageInfo(m, s).Some? && Terminal(GetStageInfo(m, s).value) ==> !ValidateTransition(m, s, target)
  {
    if m == "leads" {
      LeadTerminals();
    } else if m == "clients" {
      ClientTerminals();
    } else if m == "quotes" {
      QuoteTerminals();
    } else if m == "jobs" {
      JobTerminals();
    } else if m == "invoices" {
      InvoiceTerminals();
    }
  }

  // ---------------------------------------------------------------------
  // Keys versus ids.
  // ---------------------------------------------------------------------

  /** The check accepts the lowercase id of a target from a capitalised key, and
      nothing else: neither a capitalised target nor a lowercase from-status. */
  lemma KeysVersusIds()
    ensures ValidateTransition("leads", "New", "contacted")
    ensures !ValidateTransition("leads", "New", "Contacted")
    ensures !ValidateTransition("leads", "new", "contacted")
  {
  }

  /** The ids each table's stages carry; the quote set includes the
      `cancelled` its transitions name. */
  const LeadIds: set<string> :=
    {"new", "contacted", "qualified", "proposal-sent", "negotiation", "closed-won", "closed-lost", "on-hold"}
  const ClientIds: set<string> := {"prospective", "active", "inactive", "vip"}
  const QuoteTargetIds: set<string> :=
    {"draft", "sent", "reviewed", "approved", "rejected", "expired", "revised", "cancelled"}
  const JobIds: set<string> :=
    {"scheduled", "dispatched", "in-progress", "on-hold", "completed", "cancelled", "needs-invoicing"}
  const InvoiceIds: set<string> := {"draft", "sent", "viewed", "paid", "overdue", "disputed", "cancelled"}

  /** Every transition target of `t` lies in `ids`. */
  predicate TargetsWithin(t: map<string, Stage>, ids: set<string>) {
    forall k, x :: k in t && x in t[k].allowedTransitions ==> x in ids
  }

  lemma LeadTargetsWithin() ensures TargetsWithin(LeadStages, LeadIds) {}
  lemma ClientTargetsWithin() ensures TargetsWithin(ClientStages, ClientIds) {}
  lemma QuoteTargetsWithin() ensures TargetsWithin(QuoteStages, QuoteTargetIds) {}
  lemma JobTargetsWithin() ensures TargetsWithin(JobStages, JobIds) {}
  lemma InvoiceTargetsWithin() ensures TargetsWithin(InvoiceStages, InvoiceIds) {}

  /** The id sets and the status sets share no member. */
  lemma LeadIdsNotStatuses() ensures forall x :: x in LeadIds ==> x !in LeadStatuses {}
  lemma ClientIdsNotStatuses() ensures forall x :: x in ClientIds ==> x !in ClientStatuses {}
  lemma QuoteIdsNotStatuses() ensures forall x :: x in QuoteTargetIds ==> x !in QuoteStatuses {}
  lemma JobIdsNotStatuses() ensures forall x :: x in JobIds ==> x !in JobStatuses {}
  lemma InvoiceIdsNotStatuses() ensures forall x :: x in InvoiceIds ==> x !in InvoiceStatuses {}

  /** Targets drawn from a set that shares nothing with the keys are not keys. */
  lemma NotKeysFrom(t: map<string, Stage>, ids: set<string>, keys: set<string>)
    requires t.Keys == keys && TargetsWithin(t, ids)
    requires forall x :: x in ids ==> x !in keys
    ensures TargetsAreNotKeys(t)
  {
  }

  lemma LeadNotKeys() ensures TargetsAreNotKeys(LeadStages) {
    LeadKeys();
    LeadTargetsWithin();
    LeadIdsNotStatuses();
    NotKeysFrom(LeadStages, LeadIds, LeadStatuses);
  }
  lemma ClientNotKeys() ensures TargetsAreNotKeys(ClientStages) {
    ClientKeys();
    ClientTargetsWithin();
    ClientIdsNotStatuses();
    NotKeysFrom(ClientStages, ClientIds, ClientStatuses);
  }
  lemma QuoteNotKeys() ensures TargetsAreNotKeys(QuoteStages) {
    QuoteKeys();
    QuoteTargetsWithin();
    QuoteIdsNotStatuses();
    NotKeysFrom(QuoteStages, QuoteTargetIds, QuoteStatuses);
  }
  lemma JobNotKeys() ensures TargetsAreNotKeys(JobStages) {
    JobKeys();
    JobTargetsWithin();
    JobIdsNotStatuses();
    NotKeysFrom(JobStages, JobIds, JobStatuses);
  }
  lemma InvoiceNotKeys() ensures TargetsAreNotKeys(InvoiceStages) {
    InvoiceKeys();
    InvoiceTargetsWithin();
    InvoiceIdsNotStatuses();
    NotKeysFrom(InvoiceStages, InvoiceIds, InvoiceStatuses);
  }

  /** No accepted target is itself accepted as a from-status, in any module: the
      check can never approve two steps in a row. */
  lemma TransitionsNeverChain(m: string, s: string, t: string, u: string)
    ensures ValidateTransition(m, s, t) ==> !ValidateTransition(m, t, u)
  {
    if ValidateTransition(m, s, t) {
      LeadNotKeys();
      ClientNotKeys();
      QuoteNotKeys();
      JobNotKeys();
      InvoiceNotKeys();
      assert GetStageInfo(m, t).None?;
    }
  }

  // ---------------------------------------------------------------------
  // Targets that name stages.
  // ---------------------------------------------------------------------

  lemma InIds(t: map<string, Stage>, k: string)
    requires k in t
    ensures t[k].id in Ids(t)
  {
  }

  lemma LeadTargetsAreIds() ensures TargetsAreIds(LeadStages) {
    var t := LeadStages;
    InIds(t, "New"); InIds(t, "Contacted"); InIds(t, "Qualified"); InIds(t, "Proposal Sent");
    InIds(t, "Negotiation"); InIds(t, "Closed-Won"); InIds(t, "Closed-Lost"); InIds(t, "On Hold");
    var ids := {"new", "contacted", "qualified", "proposal-sent", "negotiation", "closed-won", "closed-lost", "on-hold"};
    assert ids <= Ids(t);
    assert forall k, x :: k in t && x in t[k].allowedTransitions ==> x in ids;
  }

  lemma ClientTargetsAreIds() ensures TargetsAreIds(ClientStages) {
    var t := ClientStages;
    InIds(t, "Prospective"); InIds(t, "Active"); InIds(t, "Inactive"); InIds(t, "VIP");
    var ids := {"prospective", "active", "inactive", "vip"};
    assert ids <= Ids(t);
    assert forall k, x :: k in t && x in t[k].allowedTransitions ==> x in ids;
  }

  lemma JobTargetsAreIds() ensures TargetsAreIds(JobStages) {
    var t := JobStages;
    InIds(t, "Scheduled"); InIds(t, "Dispatched"); InIds(t, "In Progress"); InIds(t, "On Hold");
    InIds(t, "Completed"); InIds(t, "Cancelled"); InIds(t, "Needs Invoicing");
    var ids := {"scheduled", "dispatched", "in-progress", "on-hold", "completed", "cancelled", "needs-invoicing"};
    assert ids <= Ids(t);
    assert forall k, x :: k in t && x in t[k].allowedTransitions ==> x in ids;
  }

  lemma InvoiceTargetsAreIds() ensures TargetsAreIds(InvoiceStages) {
    var t := InvoiceStages;
    InIds(t, "Draft"); InIds(t, "Sent"); InIds(t, "Viewed"); InIds(t, "Paid");
    InIds(t, "Overdue"); InIds(t, "Disputed"); InIds(t, "Cancelled");
    var ids := {"draft", "sent", "viewed", "paid", "overdue", "disputed", "cancelled"};
    assert ids <= Ids(t);
    assert forall k, x :: k in t && x in t[k].allowedTransitions ==> x in ids;
  }

  /** The quote table sends Draft and Revised to `cancelled`, an id no quote stage has. */
  lemma QuoteCancelledDangles()
    ensures "cancelled" in QuoteStages["Draft"].allowedTransitions
    ensures "cancelled" in QuoteStages["Revised"].allowedTransitions
    ensures "cancelled" !in Ids(QuoteStages)
    ensures !TargetsAreIds(QuoteStages)
  {
    assert forall k :: k in QuoteStages ==> QuoteStages[k].id != "cancelled";
  }

  /** The quote table with the terminal `Cancelled` stage its transitions refer
      to, shaped like the invoice table's `Cancelled` stage. */
  const CorrectedQuoteStages: map<string, Stage> :=
    QuoteStages["Cancelled" := Stage("cancelled", "Cancelled", "Quote has been cancelled",
      [],
      ["clientId", "lineItems", "totalAmount", "cancellationReason"],
      "bg-gray-100 text-gray-700", "XCircle")]

  lemma CorrectedQuoteTargetsAreIds() ensures TargetsAreIds(CorrectedQuoteStages) {
    var t := CorrectedQuoteStages;
    InIds(t, "Draft"); InIds(t, "Sent"); InIds(t, "Reviewed"); InIds(t, "Approved");
    InIds(t, "Rejected"); InIds(t, "Expired"); InIds(t, "Revised"); InIds(t, "Cancelled");
    var ids := {"draft", "sent", "reviewed", "approved", "rejected", "expired", "revised", "cancelled"};
    assert ids <= Ids(t);
    assert forall k, x :: k in t && x in t[k].allowedTransitions ==> x in ids;
  }

  /** The registry with the corrected quote table. */
  function CorrectedTable(m: string): (r: Option<map<string, Stage>>)
    ensures r.Some? <==> m in ModuleNames
    ensures m != "quotes" ==> r == Table(m)
    ensures m == "quotes" ==> r == Some(CorrectedQuoteStages)
  {
    if m == "quotes" then Some(CorrectedQuoteStages) else Table(m)
  }

  /** In the corrected registry every transition target is a stage id of its module. */
  lemma CorrectedTargetsAreIds(m: string)
    requires m in ModuleNames
    ensures TargetsAreIds(CorrectedTable(m).value)
  {
    LeadTargetsAreIds();
    ClientTargetsAreIds();
    CorrectedQuoteTargetsAreIds();
    JobTargetsAreIds();
    InvoiceTargetsAreIds();
  }

  /** Ids that lead back to their own keys are distinct. */
  lemma UniqueByKeyOf(t: map<string, Stage>, keyOf: string -> string)
    requires forall k :: k in t ==> keyOf(t[k].id) == k
    ensures IdsUnique(t)
  {
  }

  /** The key of the lead stage with a given id. */
  function LeadKeyOf(id: string): string {
    match id
    case "new" => "New"
    case "contacted" => "Contacted"
    case "qualified" => "Qualified"
    case "proposal-sent" => "Proposal Sent"
    case "negotiation" => "Negotiation"
    case "closed-won" => "Closed-Won"
    case "closed-lost" => "Closed-Lost"
    case "on-hold" => "On Hold"
    case _ => ""
  }

  /** The key of the client stage with a given id. */
  function ClientKeyOf(id: string): string {
    match id
    case "prospective" => "Prospective"
    case "active" => "Active"
    case "inactive" => "Inactive"
    case "vip" => "VIP"
    case _ => ""
  }

  /** The key of the quote stage with a given id (the quote list includes the
      corrected table's `cancelled`). */
  function QuoteKeyOf(id: string): string {
    match id
    case "draft" => "Draft"
    case "sent" => "Sent"
    case "reviewed" => "Reviewed"
    case "approved" => "Approved"
    case "rejected" => "Rejected"
    case "expired" => "Expired"
    case "revised" => "Revised"
    case "cancelled" => "Cancelled"
    case _ => ""
  }

  /** The key of the job stage with a given id. */
  function JobKeyOf(id: string): string {
    match id
    case "scheduled" => "Scheduled"
    case "dispatched" => "Dispatched"
    case "in-progress" => "In Progress"
    case "on-hold" => "On Hold"
    case "completed" => "Completed"
    case "cancelled" => "Cancelled"
    case "needs-invoicing" => "Needs Invoicing"
    case _ => ""
  }

  /** The key of the invoice stage with a given id. */
  function InvoiceKeyOf(id: string): string {
    match id
    case "draft" => "Draft"
    case "sent" => "Sent"
    case "viewed" => "Viewed"
    case "paid" => "Paid"
    case "overdue" => "Overdue"
    case "disputed" => "Disputed"
    case "cancelled" => "Cancelled"
    case _ => ""
  }

  lemma LeadIdsUnique() ensures IdsUnique(LeadStages) { UniqueByKeyOf(LeadStages, LeadKeyOf); }
  lemma ClientIdsUnique() ensures IdsUnique(ClientStages) { UniqueByKeyOf(ClientStages, ClientKeyOf); }
  lemma QuoteIdsUnique() ensures IdsUnique(QuoteStages) { UniqueByKeyOf(QuoteStages, QuoteKeyOf); }
  lemma CorrectedQuoteIdsUnique() ensures IdsUnique(CorrectedQuoteStages) { UniqueByKeyOf(CorrectedQuoteStages, QuoteKeyOf); }
  lemma JobIdsUnique() ensures IdsUnique(JobStages) { UniqueByKeyOf(JobStages, JobKeyOf); }
  lemma InvoiceIdsUnique() ensures IdsUnique(InvoiceStages) { UniqueByKeyOf(InvoiceStages, InvoiceKeyOf); }

  /** The transition check stated on stage ids, as the targets are written:
      some stage with id `fromId` lists `toId`. */
  predicate ValidateTransitionById(m: string, fromId: string, toId: string) {
    match CorrectedTable(m)
    case None => false
    case Some(t) => exists k :: k in t && t[k].id == fromId && toId in t[k].allowedTransitions
  }

  /** Every target the id-based check accepts is itself a stage id it can start
      from, so transitions compose. */
  lemma IdTransitionsCompose(m: string, fromId: string, toId: string)
    ensures ValidateTransitionById(m, fromId, toId) ==> toId in Ids(CorrectedTable(m).value)
  {
    if ValidateTransitionById(m, fromId, toId) {
      CorrectedTargetsAreIds(m);
    }
  }

  /** On every stage of the original registry, the id-based check agrees with the
      key-based one asked about that stage's key. */
  lemma IdCheckAgreesOnKeys(m: string, k: string, toId: string)
    requires GetStageInfo(m, k).Some?
    ensures ValidateTransitionById(m, GetStageInfo(m, k).value.id, toId) <==> ValidateTransition(m, k, toId)
  {
    var t := CorrectedTable(m).value;
    assert k in t && t[k] == GetStageInfo(m, k).value;
    if m == "leads" {
      LeadIdsUnique();
    } else if m == "clients" {
      ClientIdsUnique();
    } else if m == "quotes" {
      CorrectedQuoteIdsUnique();
    } else if m == "jobs" {
      JobIdsUnique();
    } else {
      InvoiceIdsUnique();
    }
    UniqueIdFindsKey(t, k, toId);
  }

  /** With distinct ids, the only stage carrying `k`'s id is `k` itself. */
  lemma UniqueIdFindsKey(t: map<string, Stage>, k: string, toId: string)
    requires IdsUnique(t) && k in t
    ensures (exists j :: j in t && t[j].id == t[k].id && toId in t[j].allowedTransitions) <==>
      toId in t[k].allowedTransitions
  {
    if exists j :: j in t && t[j].id == t[k].id && toId in t[j].allowedTransitions {
      var j :| j in t && t[j].id == t[k].id && toId in t[j].allowedTransitions;
      assert j == k;
    }
  }

  /** The id-based check walks the lead pipeline step after step. */
  lemma IdTransitionsChainExample()
    ensures ValidateTransitionById("leads", "new", "contacted")
    ensures ValidateTransitionById("leads", "contacted", "qualified")
    ensures ValidateTransitionById("quotes", "draft", "cancelled")
  {
    assert LeadStages["New"].id == "new";
    assert LeadStages["Contacted"].id == "contacted";
    assert CorrectedQuoteStages["Draft"].id == "draft";
  }

  // ---------------------------------------------------------------------
  // Suggested next actions.
  // ---------------------------------------------------------------------

  /** `getNextActions` never suggests anything: the lookup succeeds only for a
      capitalised key, while every case compares the status with a lowercase id. */
  lemma NextActionsAlwaysEmpty(m: string, s: string)
    ensures GetNextActions(m, s) == []
  {
    StageInfoDomain(m, s);
  }

  /** `getNextActions` with the switch comparing the found stage's id. */
  function GetNextActionsById(m: string, status: string): (r: seq<NextAction>)
    ensures |r| <= 1
    ensures GetStageInfo(m, status).None? ==> r == []
  {
    match GetStageInfo(m, status)
    case None => []
    case Some(stage) => ActionsFor(m, stage.id)
  }

  lemma LeadNextActionsById(s: string)
    ensures GetNextActionsById("leads", s) == (if s == "Qualified" then [ConvertToClientAction] else [])
  {
    if s in LeadStages {
      assert GetNextActionsById("leads", s) == ActionsFor("leads", LeadStages[s].id);
      LeadIdsUnique();
      assert LeadStages["Qualified"].id == "qualified";
    }
  }

  lemma ClientNextActionsById(s: string)
    ensures GetNextActionsById("clients", s) == (if s in {"Prospective", "Active"} then [CreateQuoteAction] else [])
  {
    ClientKeys();
    assert forall k :: k in ClientStages && k !in {"Prospective", "Active"} ==> ClientStages[k].id !in {"prospective", "active"};
  }

  lemma QuoteNextActionsById(s: string)
    ensures GetNextActionsById("quotes", s) == (if s == "Approved" then [CreateJobAction] else [])
  {
    if s in QuoteStages {
      assert GetNextActionsById("quotes", s) == ActionsFor("quotes", QuoteStages[s].id);
      QuoteIdsUnique();
      assert QuoteStages["Approved"].id == "approved";
    }
  }

  lemma JobNextActionsById(s: string)
    ensures GetNextActionsById("jobs", s) == (if s == "Completed" then [GenerateInvoiceAction] else [])
  {
    if s in JobStages {
      assert GetNextActionsById("jobs", s) == ActionsFor("jobs", JobStages[s].id);
      JobIdsUnique();
      assert JobStages["Completed"].id == "completed";
    }
  }

  /** The corrected lookup suggests an action exactly at the five stages the
      switch names. */
  lemma NextActionsById(m: string, s: string)
    ensures GetNextActionsById(m, s) != [] <==>
      (m, s) in {("leads", "Qualified"), ("clients", "Prospective"), ("clients", "Active"),
                 ("quotes", "Approved"), ("jobs", "Completed")}
  {
    if m == "leads" {
      LeadNextActionsById(s);
    } else if m == "clients" {
      ClientNextActionsById(s);
    } else if m == "quotes" {
      QuoteNextActionsById(s);
    } else if m == "jobs" {
      JobNextActionsById(s);
    }
  }

  // ---------------------------------------------------------------------
  // Cross-module hand-offs.
  // ---------------------------------------------------------------------

  lemma IdOf(t: map<string, Stage>, k: string, id: string)
    requires k in t && t[k].id == id
    ensures id in Ids(t)
  {
  }

  /** The ids the hand-offs name, one table at a time. */
  lemma LeadHandOffIds() ensures "closed-won" in Ids(LeadStages) {
    IdOf(LeadStages, "Closed-Won", "closed-won");
  }
  lemma ClientHandOffIds() ensures "prospective" in Ids(ClientStages) {
    IdOf(ClientStages, "Prospective", "prospective");
  }
  lemma QuoteHandOffIds() ensures "draft" in Ids(QuoteStages) && "approved" in Ids(QuoteStages) {
    IdOf(QuoteStages, "Draft", "draft");
    IdOf(QuoteStages, "Approved", "approved");
  }
  lemma JobHandOffIds() ensures "scheduled" in Ids(JobStages) && "completed" in Ids(JobStages) {
    IdOf(JobStages, "Scheduled", "scheduled");
    IdOf(JobStages, "Completed", "completed");
  }
  lemma InvoiceHandOffIds() ensures "draft" in Ids(InvoiceStages) {
    IdOf(InvoiceStages, "Draft", "draft");
  }

  /** Each hand-off starts at a stage id of the module it leaves and ends at a
      stage id of the module it enters: lead to client, client to quote, quote
      to job, job to invoice. */
  lemma CrossModuleEndpointsAreIds()
    ensures |CrossModuleTransitions| == 4
    ensures CrossModuleTransitions[0].fromStage in Ids(LeadStages) && CrossModuleTransitions[0].toStage in Ids(ClientStages)
    ensures CrossModuleTransitions[1].fromStage in Ids(ClientStages) && CrossModuleTransitions[1].toStage in Ids(QuoteStages)
    ensures CrossModuleTransitions[2].fromStage in Ids(QuoteStages) && CrossModuleTransitions[2].toStage in Ids(JobStages)
    ensures CrossModuleTransitions[3].fromStage in Ids(JobStages) && CrossModuleTransitions[3].toStage in Ids(InvoiceStages)
  {
    LeadHandOffIds();
    ClientHandOffIds();
    QuoteHandOffIds();
    JobHandOffIds();
    InvoiceHandOffIds();
  }
}

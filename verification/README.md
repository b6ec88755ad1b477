# VoltFlow CRM core, modelled in Dafny

VoltFlow is a small CRM for a field-service business. Its records are leads,
clients, quotes, jobs and invoices, and each kind moves through a pipeline of
statuses. This project models the parts of the code that decide things:

- **Status registry.** `src/lib/flowStates.ts` has one stage table per module,
  with stage lookup, the transition check, the colour lookup, the next-action
  suggestions and the cross-module hand-offs.
- **Action buttons.** `src/components/ui/FlowActions.tsx` has a second,
  independent table of buttons per (module, status). Three of those buttons
  open a conversion dialog.
- **Conversions.** A lead becomes a client and a quote becomes an invoice
  (`src/lib/lead-conversion.ts`, `src/lib/quote-conversion.ts`). Both run over
  an abstract store of rows. Each store call can fail, and the caller decides
  which calls fail.
- **Pages that drive the conversions.** The leads page turns a lead's status
  change into a conversion or an unlinking. The quotes page gates its
  "Create Invoice" button.
- **Aggregations.** These are the report metrics, the lead-by-source summaries,
  the marketing-channel metrics and month navigation, the invoice form's
  totals, the invoice list's counts and totals, the dashboard counters and
  layout merge, the recent-activity feed, today's schedule, and the timestamp
  handling of the schedule-job route.

Money and rates are exact `real`s. Timestamps are `int` milliseconds, and the
current instant is always a parameter. Strings are compared exactly and
case-sensitively, as JavaScript `===` does.

There is one Dafny module per source file, plus four shared modules:

- `Wrappers`: `Option` and `Result`;
- `Strings`: ASCII lower-casing, substring search, decimal digits and
  lexicographic order;
- `Seqs`: filter, count, sum, group-by-key and insertion sort;
- `Rates`: the guarded percentage and quotient every report uses.

Where the code falls short of what it evidently means, the model keeps the
code as written. Next to it is a corrected definition with the intended
property proved. The "## Findings" table lists each such pair.

## Model

| member | source | states |
|---|---|---|
| FlowStates.Table | src/lib/flowStates.ts:389-400 | A module name selects a stage table exactly when it is one of leads, clients, quotes, jobs and invoices. |
| FlowStates.GetStageInfo | src/lib/flowStates.ts:389-400 | A stage is found iff the module is known and the status is one of its table's keys, and then it is that table's entry. |
| FlowStates.GetStatusColor | src/lib/flowStates.ts:466-469 | The colour is the found stage's colour, and grey (`bg-gray-100 text-gray-700`) when no stage is found. |
| FlowStates.ValidateTransition | src/lib/flowStates.ts:459-464 | Only a stage found by its key in a known module allows a transition, and then only to a target its `allowedTransitions` lists. An unknown module or status allows nothing. |
| FlowStates.GetNextActions | src/lib/flowStates.ts:402-457 | At most one action is suggested, and only for a stage found by its key; for a found stage it is the action the module's `switch` picks by comparing the status text. |
| FlowStates.ColorsNonEmpty | src/lib/flowStates.ts:40-355 | Every stage of every table has a non-empty colour, so the `\|\|` fallback only fires for an unknown stage. |
| FlowChecks.LeadKeys | src/lib/flowStates.ts:40-114 | The lead table has exactly one entry per member of the `LeadStatus` union. |
| FlowChecks.ClientKeys | src/lib/flowStates.ts:116-154 | The client table has exactly one entry per member of the `ClientStatus` union. |
| FlowChecks.QuoteKeys | src/lib/flowStates.ts:156-221 | The quote table has exactly one entry per member of the `QuoteStatus` union. |
| FlowChecks.JobKeys | src/lib/flowStates.ts:223-288 | The job table has exactly one entry per member of the `JobStatus` union. |
| FlowChecks.InvoiceKeys | src/lib/flowStates.ts:290-355 | The invoice table has exactly one entry per member of the `InvoiceStatus` union. |
| FlowChecks.InvoiceOrderIsKeys | src/app/invoices/page.tsx:58 | `Object.keys(invoiceStages)` lists every invoice status, and lists each one once. |
| FlowChecks.StageInfoDomain | src/lib/flowStates.ts:389-400 | A stage is found for exactly the 33 (module, status-name) pairs the five tables declare. |
| FlowChecks.LeadTerminals | src/lib/flowStates.ts:86-103 | The lead stages with no transitions are exactly Closed-Won and Closed-Lost. |
| FlowChecks.ClientTerminals | src/lib/flowStates.ts:116-154 | No client stage is terminal. |
| FlowChecks.QuoteTerminals | src/lib/flowStates.ts:184-192 | The only quote stage with no transitions is Approved. |
| FlowChecks.JobTerminals | src/lib/flowStates.ts:269-287 | The job stages with no transitions are exactly Cancelled and Needs Invoicing. |
| FlowChecks.InvoiceTerminals | src/lib/flowStates.ts:318-354 | The invoice stages with no transitions are exactly Paid and Cancelled. |
| FlowChecks.TerminalStagesRejectAll | src/lib/flowStates.ts:459-464 | The terminal stages across the registry are exactly those seven, and from each of them the transition check rejects every target. |
| FlowChecks.KeysVersusIds | src/lib/flowStates.ts:459-464 | `validateTransition('leads','New','contacted')` holds, while `('leads','New','Contacted')` and `('leads','new','contacted')` do not. |
| FlowChecks.LeadNotKeys | src/lib/flowStates.ts:40-114 | No lead transition target is a key of the lead table: targets are lowercase ids, keys are display names. |
| FlowChecks.ClientNotKeys | src/lib/flowStates.ts:116-154 | No client transition target is a key of the client table. |
| FlowChecks.QuoteNotKeys | src/lib/flowStates.ts:156-221 | No quote transition target is a key of the quote table. |
| FlowChecks.JobNotKeys | src/lib/flowStates.ts:223-288 | No job transition target is a key of the job table. |
| FlowChecks.InvoiceNotKeys | src/lib/flowStates.ts:290-355 | No invoice transition target is a key of the invoice table. |
| FlowChecks.TransitionsNeverChain | src/lib/flowStates.ts:459-464 | In every module, a target the check accepts is never itself accepted as a from-status, so no two transitions can be chained. |
| FlowChecks.LeadTargetsAreIds | src/lib/flowStates.ts:40-114 | Every lead transition target is the id of some lead stage. |
| FlowChecks.ClientTargetsAreIds | src/lib/flowStates.ts:116-154 | Every client transition target is the id of some client stage. |
| FlowChecks.JobTargetsAreIds | src/lib/flowStates.ts:223-288 | Every job transition target is the id of some job stage. |
| FlowChecks.InvoiceTargetsAreIds | src/lib/flowStates.ts:290-355 | Every invoice transition target is the id of some invoice stage. |
| FlowChecks.QuoteCancelledDangles | src/lib/flowStates.ts:156-221 | Quote Draft and Revised both allow `cancelled`, no quote stage has that id, and so not every quote target is a stage id. |
| FlowChecks.CorrectedQuoteTargetsAreIds | src/lib/flowStates.ts:156-221 | The quote table with a terminal Cancelled stage added has every target among its ids. |
| FlowChecks.CorrectedTable | src/lib/flowStates.ts:389-400 | The corrected registry serves the same five modules, and differs from the original only in the quote table. |
| FlowChecks.CorrectedTargetsAreIds | src/lib/flowStates.ts:40-355 | In the corrected registry every transition target of every module is a stage id of that module. |
| FlowChecks.LeadIdsUnique | src/lib/flowStates.ts:40-114 | No two lead stages share an id. |
| FlowChecks.ClientIdsUnique | src/lib/flowStates.ts:116-154 | No two client stages share an id. |
| FlowChecks.QuoteIdsUnique | src/lib/flowStates.ts:156-221 | No two quote stages share an id. |
| FlowChecks.CorrectedQuoteIdsUnique | src/lib/flowStates.ts:156-221 | The corrected quote table keeps its ids distinct. |
| FlowChecks.JobIdsUnique | src/lib/flowStates.ts:223-288 | No two job stages share an id. |
| FlowChecks.InvoiceIdsUnique | src/lib/flowStates.ts:290-355 | No two invoice stages share an id. |
| FlowChecks.IdTransitionsCompose | src/lib/flowStates.ts:459-464 | In the id-based check over the corrected registry, every accepted target is a stage id, which the check can start from in turn. |
| FlowChecks.IdCheckAgreesOnKeys | src/lib/flowStates.ts:459-464 | Starting from the id of a found stage, the id-based check accepts exactly the targets the key-based check accepts from that stage's key. |
| FlowChecks.IdTransitionsChainExample | src/lib/flowStates.ts:41-63 | The id-based check accepts new→contacted and then contacted→qualified, and quote draft→cancelled once the corrected table has that stage. |
| FlowChecks.NextActionsAlwaysEmpty | src/lib/flowStates.ts:402-457 | `getNextActions` returns the empty list for every module and status. |
| FlowChecks.GetNextActionsById | src/lib/flowStates.ts:402-457 | The lookup that compares the found stage's id suggests at most one action, and none for an unknown stage. |
| FlowChecks.LeadNextActionsById | src/lib/flowStates.ts:410-420 | For leads, that lookup suggests Convert to Client exactly at Qualified. |
| FlowChecks.ClientNextActionsById | src/lib/flowStates.ts:421-431 | For clients, it suggests Create Quote exactly at Prospective and Active. |
| FlowChecks.QuoteNextActionsById | src/lib/flowStates.ts:432-442 | For quotes, it suggests Create Job exactly at Approved. |
| FlowChecks.JobNextActionsById | src/lib/flowStates.ts:443-453 | For jobs, it suggests Generate Invoice exactly at Completed. |
| FlowChecks.NextActionsById | src/lib/flowStates.ts:402-457 | Over all modules, that lookup suggests something exactly at those five (module, status) pairs; invoices never get a suggestion. |
| FlowChecks.CrossModuleEndpointsAreIds | src/lib/flowStates.ts:357-387 | There are four hand-offs: lead→client, client→quote, quote→job and job→invoice. Each one starts at a stage id of the module it leaves and ends at a stage id of the module it enters. |
| FlowActions.ActionsOnlyForListedPairs | src/components/ui/FlowActions.tsx:34-289 | The button list is non-empty exactly for the 20 (module, status) pairs that have a case; every other pair, unknown modules included, gets none. |
| FlowActions.LeadConversions | src/components/ui/FlowActions.tsx:36-96 | Among lead statuses, only Qualified offers a conversion button. |
| FlowActions.ClientConversions | src/components/ui/FlowActions.tsx:98-132 | No client status offers a conversion button. |
| FlowActions.QuoteConversions | src/components/ui/FlowActions.tsx:134-180 | Among quote statuses, only Approved offers a conversion button. |
| FlowActions.JobConversions | src/components/ui/FlowActions.tsx:182-238 | Among job statuses, only Needs Invoicing offers a conversion button. |
| FlowActions.InvoiceConversions | src/components/ui/FlowActions.tsx:240-284 | No invoice status offers a conversion button. |
| FlowActions.ConversionPairs | src/components/ui/FlowActions.tsx:65-235 | Exactly three pairs carry a conversion: leads/Qualified→leadToClient, quotes/Approved→quoteToJob and jobs/Needs Invoicing→jobToInvoice. |
| FlowActions.ButtonStages | src/components/ui/FlowActions.tsx:34-289 | Every pair with buttons names a registry stage. That stage has transitions, except quotes/Approved and jobs/Needs Invoicing. |
| FlowActions.ActionStatusesAreStages | src/components/ui/FlowActions.tsx:34-289 | A status that gets any button is a key of its module's registry table. |
| FlowActions.TerminalStagesOnlyConvert | src/components/ui/FlowActions.tsx:166-235 | The only registry-terminal stages with buttons are quotes/Approved and jobs/Needs Invoicing, and all their buttons are conversions. |
| FlowActions.ActionKeysDistinct | src/components/ui/FlowActions.tsx:34-349 | Within any returned list, the button keys used as element keys are pairwise distinct. |
| FlowActions.HandleActionClick | src/components/ui/FlowActions.tsx:306-325 | A conversion button opens the dialog with its kind and the record's id, and makes no `onAction` call. Any other button leaves the dialog alone and calls `onAction(key, entityId)` exactly once, or not at all when the parent gave no handler. |
| FlowActions.HandleConversionConfirm | src/components/ui/FlowActions.tsx:327-340 | Confirming closes and clears the dialog. It reports `data.conversionType` with the record's id once, or not at all when the parent gave no handler. |
| FlowActions.ClickThenConfirm | src/components/ui/FlowActions.tsx:306-340 | Clicking a conversion button and then confirming the dialog it opened reports that conversion's name for the record and leaves the dialog closed. |
| EntityStore.InsertClient | src/lib/supabase-client.ts:6-18 | A client insert fails iff the store refuses it or the id is taken. A failed insert changes nothing; otherwise exactly that row is added and returned. |
| EntityStore.InsertInvoice | src/lib/supabase-client.ts:227-236 | An invoice insert fails iff the store refuses it or the id is taken. A failed insert changes nothing; otherwise exactly that row is added and returned. |
| EntityStore.SetLeadStatus | src/lib/lead-conversion.ts:36-39 | A bare status update on a lead fails iff the store refuses it or the status is outside the enforced CHECK domain. A missing row is no error; only that lead's status changes. (See also `src/lib/supabase.ts:141`.) |
| EntityStore.UpdateLeadStatus | src/lib/supabase-client.ts:140-150 | `leadOperations.update` fails also for a missing row; on success only that lead's status changes. |
| EntityStore.SetQuoteStatus | src/lib/quote-conversion.ts:34-37 | A bare quote status update fails only when the store refuses it; only that quote's status changes. |
| EntityStore.DeleteClient | src/lib/supabase-client.ts:53-60 | A client delete removes exactly the row with that id, or changes nothing when it fails. |
| EntityStore.LinkedAfterInsert | src/lib/lead-conversion.ts:29 | Adding a client that links lead `l` adds exactly its id to `l`'s linked clients; other leads' links are unchanged. |
| EntityStore.LinkedAfterDelete | src/lib/lead-conversion.ts:54-56 | Deleting a client removes at most that id from each lead's linked clients. |
| LeadConversion.NewClientFrom | src/lib/lead-conversion.ts:19-30 | The new client copies the lead's name, email, phone, source, estimated value and assignee. It has status `prospective`, an empty address, `lead_id` set to the lead, and the built notes. |
| LeadConversion.NotesKeepSourceAndNotes | src/lib/lead-conversion.ts:23 | The client notes begin with "Converted from lead. Source: " and the lead's source, and end with ". Original notes: " and the lead's notes; a null renders as `null`. |
| LeadConversion.ConvertMarking | src/lib/lead-conversion.ts:7-44 | A failed or empty fetch throws with the store untouched. A failed insert throws with the store untouched. A failed or refused status write throws after the client was inserted, and the lead is unchanged. Otherwise the client is inserted, the lead is marked, and the client is returned. |
| LeadConversion.ConvertLeadToClient | src/lib/lead-conversion.ts:7-44 | The conversion succeeds exactly when the lead is fetched, the client row is accepted and the store admits `converted`. It then returns the client built from the lead and marks the lead `converted`. A failed fetch or insert leaves the store untouched. |
| LeadConversion.DeclaredClientsRefuseInsert | src/lib/lead-conversion.ts:19-33 | The new client row names `estimated_value`, `source` and `assigned_to`, which the declared `clients` table lacks. So the insert is refused, and the conversion fails with the store untouched. (See also `src/lib/supabase.ts:107-118`.) |
| LeadConversion.CorrectedSchemaConverts | src/lib/lead-conversion.ts:7-44 | With those three columns added to `clients`, as the `Client` type has them, and with `converted` admitted for leads, the conversion succeeds: the lead is `converted` and the returned client links it. (See also `src/lib/supabase.ts:9-21`.) |
| LeadConversion.ConvertEffects | src/lib/lead-conversion.ts:7-44 | Whatever fails, the conversion touches only the new client and that lead's status. On success the lead is `converted` and the returned client links it. |
| LeadConversion.DeclaredSchemaRefusesConversion | src/lib/lead-conversion.ts:36-41 | With a `clients` table that accepts the insert, as the `Client` type describes it, and the leads CHECK constraint as declared, the conversion always fails. It fails after inserting the linked client, with the lead unchanged. (See also `src/lib/supabase.ts:141`.) |
| LeadConversion.DeleteClientByLeadId | src/lib/lead-conversion.ts:46-57 | A lookup error other than "no rows" propagates with nothing deleted. With zero or several linked clients it is a no-op, since `.single()` reports both as PGRST116. With exactly one, that client is deleted, or the delete error propagates. |
| LeadConversion.DeleteUnlinks | src/lib/lead-conversion.ts:46-57 | With at most one linked client, a successful call leaves the lead with no linked client. |
| LeadConversion.LinkedAfterDeleteAll | src/lib/lead-conversion.ts:46-57 | Deleting a set of clients removes exactly those clients from the ones linked to a lead. |
| LeadConversion.DeleteIdempotent | src/lib/lead-conversion.ts:46-57 | A second call right after a successful one succeeds and changes nothing. |
| LeadConversion.StatsFrom | src/lib/lead-conversion.ts:66-78 | The stats record carries the given counts, and its rate is converted×100/total: 0 for no rows and within 0..100. |
| LeadConversion.CountedStatusesBounded | src/lib/lead-conversion.ts:66-73 | The five status counts together never exceed the rows counted. |
| LeadConversion.GetConversionStats | src/lib/lead-conversion.ts:59-79 | A fetch error throws. Otherwise total is the row count and each field counts its exact status. The five counts add up to at most the total, and the rate is the converted share as a percentage. |
| QuoteConversion.PaymentTerms | src/lib/quote-conversion.ts:26 | The terms are the quote's own when non-empty, and `Net 30` when missing or empty; never empty. |
| QuoteConversion.InvoiceFrom | src/lib/quote-conversion.ts:19-28 | The invoice copies client, job and amount and links the quote. Its status is `draft`, it is due 2,592,000,000 ms after the conversion instant, and it carries the derived terms and notes. |
| QuoteConversion.NotesRecordQuote | src/lib/quote-conversion.ts:27 | The invoice notes start with "Generated from quote #" and the quote's number, which reads back as the quote id. They end with ". Original notes: " and the quote's notes. |
| QuoteConversion.ConvertQuoteToInvoice | src/lib/quote-conversion.ts:7-42 | A failed or empty fetch throws with no write. A failed insert throws with no write. A failed status update throws and leaves the inserted invoice. Otherwise the invoice is inserted, the quote becomes `accepted`, and the invoice is returned. |
| QuoteConversion.RepeatConversionAddsInvoice | src/lib/quote-conversion.ts:7-42 | Nothing stops converting a quote again: every successful call files one more invoice under that quote, whatever its status. |
| QuoteConversion.TwoConversionsTwoInvoices | src/lib/quote-conversion.ts:7-42 | Two successive conversions of one quote leave two more invoices linked to it. |
| QuoteConversion.QuoteStatsFrom | src/lib/quote-conversion.ts:51-62 | The stats record carries the given counts, and its rate is accepted×100/total: 0 for no rows and within 0..100. |
| QuoteConversion.QuoteCountsBounded | src/lib/quote-conversion.ts:51-58 | The four status counts together never exceed the rows counted. |
| QuoteConversion.GetQuoteStats | src/lib/quote-conversion.ts:44-63 | A fetch error throws. Otherwise total is the row count and each field counts its exact status. The four counts add up to at most the total, and the rate is the accepted share as a percentage. |
| Rates.Percent | src/lib/reporting-service.ts:84 | A guarded percentage: part×100/whole for a positive whole, 0 otherwise, and within 0..100 when 0 ≤ part ≤ whole. |
| Rates.PercentOfCounts | src/lib/lead-conversion.ts:77 | On counts, the guarded percentage is the part's share of the whole: 0 for an empty whole, within 0..100 when the part fits. |
| Rates.Ratio | src/app/reports/marketing-channels-section.tsx:57-58 | A guarded quotient: part/whole for a positive whole, 0 otherwise, and non-negative for a non-negative part. |
| LeadsPage.FindLead | src/app/leads/page.tsx:66 | `leads.find` yields a listed lead with that id, and nothing exactly when no listed lead has it. |
| LeadsPage.StatusChangeWith | src/app/leads/page.tsx:61-86 | The change always clears `statusUpdating`. It reloads exactly when it does not fail. Its message is the conversion message or the failure for `qualified`, and the update message or the failure otherwise. It touches no quote, invoice or other lead. On success the lead holds the chosen status. |
| LeadsPage.HandleStatusChange | src/app/leads/page.tsx:61-86 | As written, a move to any status but `qualified` deletes no client unless the listed row was `qualified`. So a lead listed as `converted` keeps its client. |
| LeadsPage.HandleStatusChangeCorrected | src/app/leads/page.tsx:73-76 | When converted leads are unlinked too, a successful move out of `qualified` or `converted` leaves no client linked, provided at most one was. |
| LeadsPage.QualifyNetEffect | src/app/leads/page.tsx:68-71 | Choosing `qualified` successfully leaves the lead stored as `qualified`, not `converted`. It adds exactly the one new client linked to the lead. |
| LeadsPage.DemoteEffect | src/app/leads/page.tsx:66-78 | A successful move to a status other than `qualified` writes that status. From a non-qualified status it creates and deletes no client. From `qualified`, with at most one client linked, it leaves none linked. |
| LeadsPage.StatusChangeKeepsLinks | src/app/leads/page.tsx:61-86 | A successful change to a different status keeps the invariant "a lead is qualified iff exactly one client links it". |
| LeadsPage.DeclaredSchemaOrphansClient | src/app/leads/page.tsx:68-71 | With a `clients` table that accepts the insert and the leads CHECK constraint as declared, choosing `qualified` fails after inserting the client. The lead keeps its status, a client now links it, and the invariant is broken. (See also `src/lib/lead-conversion.ts:36-41`; `src/lib/supabase.ts:141`.) |
| LeadsPage.CorrectedSchemaQualifies | src/app/leads/page.tsx:68-71 | With `converted` admitted by the constraint, the same request succeeds: exactly one client links the now-qualified lead, and the invariant holds. (See also `src/lib/supabase.ts:141`.) |
| LeadsPage.FailedUpdateKeepsConversion | src/app/leads/page.tsx:68-85 | If the final `qualified` write fails, nothing is rolled back: the message is the failure, the lead stays `converted`, and the new client stays linked. |
| LeadsPage.ConvertedLeadKeepsClient | src/app/leads/page.tsx:67-77 | Moving a lead stored as `converted` to another status keeps every client linked to it. |
| LeadsPage.CorrectedDemotionUnlinks | src/app/leads/page.tsx:73-76 | When converted leads are unlinked too, as the page's comment says, demoting a converted lead with at most one client leaves none linked. |
| LeadsPage.FilteredLeads | src/app/leads/page.tsx:101-111 | A lead is kept iff the case-folded term is empty or occurs in its name, email or phone, and the filter is `all` or equals its status. An empty term with `all` keeps the list as it is. |
| LeadsPage.FilteredLeadsIdempotent | src/app/leads/page.tsx:101-111 | Filtering the filtered list again with the same term and status changes nothing. |
| QuotesPage.HasInvoice | src/app/quotes/page.tsx:220 | `hasInvoice(q)` holds iff some loaded invoice has `quote_id = q`. |
| QuotesPage.InvoiceControls | src/app/quotes/page.tsx:372-385 | An accepted quote shows exactly one of "Create Invoice" (no invoice yet) and "Invoice Created" (one exists). Any other status shows neither. |
| QuotesPage.HasInvoiceMatchesStore | src/app/quotes/page.tsx:220 | On a list loaded from the store, `hasInvoice` finds an invoice iff the store files one under that quote. |
| QuotesPage.ConversionClosesGate | src/app/quotes/page.tsx:372-385 | After a successful conversion and a reload, the quote shows "Invoice Created" and no longer offers the button. (See also `src/lib/quote-conversion.ts:7-42`.) |
| QuotesPage.UpdateStatusInList | src/app/quotes/page.tsx:211-218 | After a successful update, the rows with that id take the new status and nothing else in them changes. Other rows are untouched, and a failed update changes nothing. |
| QuotesPage.DeleteFromList | src/app/quotes/page.tsx:171-179 | A confirmed, successful delete keeps exactly the quotes with a different id. A cancelled or failed delete leaves the list as it was. |
| QuotesPage.ClientName | src/app/quotes/page.tsx:148-151 | The name is a loaded client's name with that id when one exists, and `Unknown` when none does. |
| QuotesPage.FilteredQuotes | src/app/quotes/page.tsx:222-228 | A quote is kept iff the lower-cased term occurs in its id, its lower-cased client name or its lower-cased notes, and the filter is `All` or equals its status. |
| QuotesPage.EmptySearchFiltersByStatus | src/app/quotes/page.tsx:222-228 | With an empty search the status filter alone decides, and `All` keeps the list as it is. |
| QuotesPage.CountStatus | src/app/quotes/page.tsx:404-418 | A status counter is the number of quotes whose status the predicate accepts, the length of the filtered list, so it never exceeds the number of quotes. |
| QuotesPage.InsightsDisjoint | src/app/quotes/page.tsx:404-418 | The accepted, pending and draft counters count disjoint groups, so together they never exceed the quotes. |
| QuotesPage.PendingIsSentInDomain | src/app/quotes/page.tsx:404-418 | The table has no `reviewed` status, so over stored quotes the pending counter counts exactly the sent ones. |
| QuotesPage.QuoteInsights | src/app/quotes/page.tsx:404-425 | "Ready for jobs" is the number of accepted quotes, "pending response" the number of sent or reviewed ones, and "drafts" the number of drafts. The three add up to at most the number of quotes. The pipeline value is the sum of every quote's amount, whatever its status, and is non-negative when every amount is. |
| JobsPage.MapJobStatus | src/app/jobs/page.tsx:12-20 | pending→Scheduled, in_progress→In Progress, completed→Completed, cancelled→Cancelled, and anything else→Scheduled. |
| JobsPage.MappedStatusIsStage | src/app/jobs/page.tsx:12-120 | Every mapped status is a key of the job table, so the badge's stage lookup always succeeds. (See also `src/lib/flowStates.ts:223-288`.) |
| JobsPage.NoConversionFromJobsPage | src/app/jobs/page.tsx:12-127 | The page never shows Dispatched, On Hold or Needs Invoicing, so it never offers the job-to-invoice conversion. (See also `src/components/ui/FlowActions.tsx:224-235`.) |
| JobsPage.FilteredJobs | src/app/jobs/page.tsx:44-47 | A job is kept iff the lower-cased term occurs in its lower-cased client name or its description. An empty term keeps every job. |
| JobsPage.FilteredJobsIdempotent | src/app/jobs/page.tsx:44-47 | Searching the searched list again with the same term changes nothing. |
| InvoicesPage.CountWithStatus | src/app/invoices/page.tsx:59 | A per-status count never exceeds the number of rows. It is 0 exactly when no row has the status, and equals the number of rows exactly when every row has it. |
| InvoicesPage.StatusCounts | src/app/invoices/page.tsx:56-62 | The status bar has exactly the keys `All` and the invoice stage names. `All` is the number of rows, and each stage key counts the rows with exactly that status. |
| InvoicesPage.SearchAsWritten | src/app/invoices/page.tsx:101-103 | The search throws exactly when the id does not match and the row has no `clientName`. Otherwise it matches iff the term occurs in the id, the client name or a non-empty job title, all lower-cased. |
| InvoicesPage.FilteredInvoicesAsWritten | src/app/invoices/page.tsx:100-109 | The filter throws iff the search throws on some row. Otherwise it keeps exactly the rows that match the search, the status select and the overdue select. |
| InvoicesPage.SearchThrowsOnLoadedRows | src/app/invoices/page.tsx:72-103 | A loaded row has no `clientName`, so searching for text that is not in its id makes the page throw. |
| InvoicesPage.FilteredInvoices | src/app/invoices/page.tsx:100-109 | With the search guarded, a row is kept iff it matches the search, the status select and the overdue select, where `All` constrains nothing. With no term and both selects on `All` every row is kept. |
| InvoicesPage.Search | src/app/invoices/page.tsx:100-103 | The guarded search matches every row for the empty term, and matches any row whose client name contains the term, ignoring case. |
| InvoicesPage.FilterCorrectionAgrees | src/app/invoices/page.tsx:100-109 | Wherever the written filter does not throw, it keeps exactly the rows the guarded one keeps. |
| InvoicesPage.TotalsAsWritten | src/app/invoices/page.tsx:111-121 | Outstanding sums the amounts of rows neither `Paid` nor `Draft`, overdue sums the `Overdue` rows, and paid sums `paidAmount` (0 when missing) over `Paid` rows. Over non-negative amounts, overdue ≤ outstanding. |
| InvoicesPage.StoredRowsMiscount | src/app/invoices/page.tsx:56-121 | Over rows with the statuses the table stores, every row counts as outstanding, nothing as overdue or paid, and every stage count in the status bar is 0. (See also `src/lib/supabase.ts:165`.) |
| InvoicesPage.StoredTotalsMiscount | src/app/invoices/page.tsx:111-121 | Over rows with lower-case stored statuses, the outstanding card shows every amount, paid and draft included, while the overdue and paid cards show 0. |
| InvoicesPage.StoredStageCountsZero | src/app/invoices/page.tsx:56-62 | Over rows with lower-case stored statuses, every capitalised status in the bar counts 0. |
| InvoicesPage.Totals | src/app/invoices/page.tsx:111-121 | The totals against the stored lower-case statuses: outstanding excludes paid and draft, overdue counts `overdue`, paid counts `paid`, and overdue ≤ outstanding over non-negative amounts. (See also `src/lib/supabase.ts:165`.) |
| InvoicesPage.StoredOutstandingIsSentAndOverdue | src/app/invoices/page.tsx:111-117 | Over stored rows, the corrected outstanding total is exactly the sent invoices plus the overdue total. (See also `src/lib/supabase.ts:165`.) |
| InvoicesPage.OutstandingSplits | src/app/invoices/page.tsx:111-117 | Over stored rows, the corrected outstanding sum is the sent sum plus the overdue sum. |
| InvoicesPage.UpdateStatus | src/app/invoices/page.tsx:268-272 | After the store update, the row with that id takes the chosen status and every other row is unchanged. A failed update throws before the list changes. |
| InvoicesPage.UpdatedRowCountsAsOutstanding | src/app/invoices/page.tsx:111-278 | Whatever the select picks, the updated row counts as outstanding and never as overdue or paid in the totals as written. |
| InvoiceForm.AddLineItem | src/app/invoices/new/page.tsx:73-75 | Adding appends exactly one row with a fresh id, an empty description, quantity 1 and price 0. The existing rows stay as they were. |
| InvoiceForm.RemoveLineItem | src/app/invoices/new/page.tsx:77-79 | Removing keeps exactly the rows whose id differs from the given one. |
| InvoiceForm.FirstRowCannotBeRemoved | src/app/invoices/new/page.tsx:77-178 | With distinct ids, no remove button the form shows (rows after the first) can delete the first row. |
| InvoiceForm.LaterRowRemoved | src/app/invoices/new/page.tsx:178 | With distinct ids, the remove button of a row after the first deletes that row alone, and the other rows keep their order. |
| InvoiceForm.LineItemChange | src/app/invoices/new/page.tsx:81-85 | A change updates only the named field of the rows with that id: the description verbatim, quantity and price as numbers. Every other row, and every other field, is unchanged. |
| InvoiceForm.AddKeepsSubtotal | src/app/invoices/new/page.tsx:73-87 | Adding a blank row leaves the subtotal unchanged. |
| InvoiceForm.ChangeMovesSubtotal | src/app/invoices/new/page.tsx:81-87 | Changing a field of a row with a unique id moves the subtotal by exactly the change in that row's line total. |
| InvoiceForm.Totals | src/app/invoices/new/page.tsx:87-91 | The subtotal is the sum of quantity×price over the rows. Tax is the rate's percentage of it, the grand total adds the tax, and the amount due plus the payments equals the grand total. A zero rate gives a grand total equal to the subtotal. |
| InvoiceForm.TotalsNonNegative | src/app/invoices/new/page.tsx:87-199 | Non-negative rows and rate, with payments no larger than the grand total, give a non-negative subtotal no larger than the grand total, and an amount due between 0 and the grand total. |
| InvoiceForm.IdFromQuery | src/app/invoices/new/page.tsx:102-103 | An absent or empty query parameter gives id 0. |
| InvoiceForm.SubmitPayload | src/app/invoices/new/page.tsx:93-104 | The created invoice's amount is the grand total and its status is the button's label lower-cased. Due date, terms and notes are sent as entered. A missing job or quote parameter sends 0, and so does an empty client selection. |
| InvoiceForm.ButtonStatusesInDomain | src/app/invoices/new/page.tsx:98-221 | Every submit button sends a status the `invoices` CHECK constraint accepts. (See also `src/lib/supabase.ts:165`.) |
| InvoiceForm.PullFromJob | src/app/invoices/new/page.tsx:108-115 | Pulling from a job selects client `1` and loads two rows whose subtotal is 450. |
| InvoiceForm.PullFromQuote | src/app/invoices/new/page.tsx:117-124 | Pulling from a quote selects client `2` and loads two rows whose subtotal is 800. |
| Dashboard.MarketingRevenue | src/app/page.tsx:123-139 | The revenue figure is the sum of the month's channel revenues, a null revenue counting 0. It is 0 when the reports are null, and non-negative when every revenue is. |
| Dashboard.LoadDashboard | src/app/page.tsx:106-187 | A failed load shows the fixed error figures and the message. A load with all four lists empty shows the fixed demo figures. Any other load shows the counts of pending/in_progress jobs, draft/sent quotes and sent/overdue invoices, the client count, the marketing revenue, and the sent invoices due before `now`. |
| Dashboard.OverdueWithinUnpaid | src/app/page.tsx:134-183 | Whichever figures the dashboard shows, the overdue counter never exceeds the unpaid counter. |
| Dashboard.OverdueStatusNotCounted | src/app/page.tsx:141-145 | An invoice stored as `overdue` is never counted as overdue; only `sent` ones past their due date are. |
| Dashboard.UnpaidIsSentPlusOverdue | src/app/page.tsx:134-136 | The unpaid counter is the number of sent invoices plus the number of overdue ones. |
| Dashboard.UnrenderedIds | src/app/page.tsx:36-307 | A layout id is unrendered iff the layout has it and the widget map has no entry for it. |
| Dashboard.CalendarSlotIsEmpty | src/app/page.tsx:42-307 | The written default layout has exactly one slot that no widget fills: `calendar`. |
| Dashboard.DefaultLayoutMatchesWidgets | src/app/page.tsx:36-307 | Without the `calendar` slot, the default layout's ids are exactly the widget keys. |
| Dashboard.Find | src/app/page.tsx:192 | `newLayout.find` returns the first reported item with that id, and nothing exactly when none has it. |
| Dashboard.MergeLayout | src/app/page.tsx:189-194 | The merge keeps the existing items, their ids and their order. Each item takes the position and size of the first reported item with its id, and keeps a minimum the report lacks. An unreported item is unchanged. |
| Dashboard.Spread | src/app/page.tsx:193 | In `{ ...item, ...newItem }` every field the reported item carries wins. A minimum the report lacks is kept from the stored item, and a report with both minimums replaces the item outright. |
| Dashboard.MergeIdempotent | src/app/page.tsx:189-194 | Merging the same report twice gives the same layout as merging it once. |
| Dashboard.Mount | src/app/page.tsx:72-82 | A readable saved layout replaces the default; an absent or unreadable one leaves the default. |
| Dashboard.HandleLayoutChange | src/app/page.tsx:189-198 | A layout change shows the merged layout with the same set of ids, and saves it so that mounting again shows the same layout. |
| Dashboard.ResetLayout | src/app/page.tsx:200-203 | Reset restores the default layout exactly and removes the saved copy, so mounting again shows the default too. |
| RecentActivity.RelativeTime | src/components/dashboard/RecentActivityWidget.tsx:189-199 | The label is chosen by floored elapsed seconds: below 60 (a future time included) gives "Just now", below 3600 minutes, below 86400 hours, below 604800 days, and otherwise the date. The counts lie in 1..59, 1..23 and 1..6. |
| RecentActivity.RelativeTimeRoundsDown | src/components/dashboard/RecentActivityWidget.tsx:195-197 | A counted label is the elapsed time rounded down to whole minutes, hours or days. |
| RecentActivity.RelativeTimeMonotone | src/components/dashboard/RecentActivityWidget.tsx:189-199 | An older timestamp never gets a younger kind of label, nor a smaller count of the same kind. |
| RecentActivity.JobStatusText | src/components/dashboard/RecentActivityWidget.tsx:53-55 | A job's status reads `scheduled` for pending and `started` for in_progress; any other status passes through unchanged. |
| RecentActivity.QuoteStatusText | src/components/dashboard/RecentActivityWidget.tsx:70-72 | A quote's status reads `created` for draft; any other status passes through unchanged. |
| RecentActivity.InvoiceStatusText | src/components/dashboard/RecentActivityWidget.tsx:87-89 | Every branch returns the status it compares against, so an invoice's status text is always the status itself. |
| RecentActivity.JobStatusTextRenames | src/components/dashboard/RecentActivityWidget.tsx:53-55 | The job text differs from the status exactly for pending and in_progress. |
| RecentActivity.Items | src/components/dashboard/RecentActivityWidget.tsx:39-49 | Each row pushed yields exactly one item, in row order. |
| RecentActivity.Merged | src/components/dashboard/RecentActivityWidget.tsx:36-100 | Before sorting there are min(clients,5) + min(jobs,5) + min(quotes,3) + min(invoices,3) items. |
| RecentActivity.MergedOfKind | src/components/dashboard/RecentActivityWidget.tsx:36-100 | The merged items of one kind are exactly that module's share: at most 5 clients, 5 jobs, 3 quotes or 3 invoices. |
| RecentActivity.MergedKindCounts | src/components/dashboard/RecentActivityWidget.tsx:39-86 | At most 5 clients, 5 jobs, 3 quotes and 3 invoices contribute. Each kind contributes as many items as it has rows, up to its limit. |
| RecentActivity.NewerIsStrictWeakOrder | src/components/dashboard/RecentActivityWidget.tsx:104 | The comparator `b.time - a.time` is a valid ordering: newer first. |
| RecentActivity.Newest | src/components/dashboard/RecentActivityWidget.tsx:103-105 | The shown list has min(n,10) items, newest first, drawn from the merged items. Every item cut off is no newer than any item shown. |
| RecentActivity.LoadRecentActivity | src/components/dashboard/RecentActivityWidget.tsx:23-183 | A failed load shows the single demo item and the message. Otherwise 1 to 10 items are shown newest first: the five demo items when there are no rows at all, else exactly the ten newest of the merged items (all of them when fewer), as `Newest` orders them. |
| RecentActivity.DemoItemsNewestFirst | src/components/dashboard/RecentActivityWidget.tsx:110-156 | The five demo items are already listed newest first. |
| RecentActivity.NewestAreMembers | src/components/dashboard/RecentActivityWidget.tsx:103-105 | Every item shown is one of the merged items. |
| TodaysSchedule.OrElse | src/components/dashboard/TodaysScheduleWidget.tsx:39-45 | `x \|\| fallback` gives the value when present and non-empty, and the fallback otherwise. |
| TodaysSchedule.ToEntry | src/components/dashboard/TodaysScheduleWidget.tsx:35-47 | The client name falls back to `Unknown Client`. The time is the start, or `TBD` without one. The location is the service address, then the client's address, then `Location TBD`. |
| TodaysSchedule.EntryFieldsNeverEmpty | src/components/dashboard/TodaysScheduleWidget.tsx:39-45 | Every entry shows a non-empty client name and location. |
| TodaysSchedule.CompareAsWritten | src/components/dashboard/TodaysScheduleWidget.tsx:48-51 | The comparator is 0 when either job lacks a start date, and otherwise negative exactly when the first starts earlier. |
| TodaysSchedule.ComparatorInconsistent | src/components/dashboard/TodaysScheduleWidget.tsx:48-51 | Jobs at 1, without a start, and at 0 give ties 1~none and none~0 but 0 before 1, so the comparator is not a consistent ordering. |
| TodaysSchedule.EarlierIsStrictWeakOrder | src/components/dashboard/TodaysScheduleWidget.tsx:48-51 | Ascending start with start-less jobs last is a valid ordering. |
| TodaysSchedule.EarlierAgreesWhereDefined | src/components/dashboard/TodaysScheduleWidget.tsx:48-51 | Between two jobs that both have a start, that order and the written comparator agree. |
| TodaysSchedule.OpenEntries | src/components/dashboard/TodaysScheduleWidget.tsx:33-47 | The entries are exactly the pending and in_progress jobs, each mapped with its fallbacks. |
| TodaysSchedule.LoadSchedule | src/components/dashboard/TodaysScheduleWidget.tsx:24-60 | A failed load keeps the previous list and sets the message. Otherwise the list is a permutation of the open jobs' entries, earliest start first, with start-less jobs at the end. |
| TodaysSchedule.StatusLabel | src/components/dashboard/TodaysScheduleWidget.tsx:75-86 | pending→Scheduled, in_progress→In Progress, completed→Completed. |
| TodaysSchedule.StatusColor | src/components/dashboard/TodaysScheduleWidget.tsx:62-73 | pending is blue, in_progress is yellow, completed is green. |
| TodaysSchedule.BadgeFallback | src/components/dashboard/TodaysScheduleWidget.tsx:62-86 | A status is renamed, and coloured other than grey, exactly when it is one of the three known statuses; any other shows as itself in grey. |
| ScheduleJob.ToRfc3339AsWritten | src/app/api/schedule-job/route.ts:9-17 | The written helper's output always ends with `Z`, and an input already ending in `Z` is returned unchanged. |
| ScheduleJob.AsWrittenOnOrdinaryTimestamps | src/app/api/schedule-job/route.ts:11-15 | The doubled backslashes make both patterns match literal `\d` text. So on any input without a backslash the helper only appends a missing `Z`. |
| ScheduleJob.AsWrittenDropsSeconds | src/app/api/schedule-job/route.ts:13-14 | `2024-05-01T09:30` becomes `2024-05-01T09:30Z`, with no seconds. |
| ScheduleJob.AsWrittenIdempotent | src/app/api/schedule-job/route.ts:9-17 | Applying the written helper twice is the same as applying it once. |
| ScheduleJob.ToRfc3339 | src/app/api/schedule-job/route.ts:9-17 | With digit classes in the patterns, a time to the minute gets `:00Z` and then ends in `dd:dd:ddZ`. Any other input without `Z` gets a `Z`, and an input ending in `Z` is unchanged. |
| ScheduleJob.Rfc3339Idempotent | src/app/api/schedule-job/route.ts:9-17 | The corrected helper is idempotent. |
| ScheduleJob.Rfc3339CorrectionAgrees | src/app/api/schedule-job/route.ts:9-17 | On every input without a backslash that is not a time to the minute, the corrected and written helpers agree. |
| ScheduleJob.StartDateTime | src/app/api/schedule-job/route.ts:36 | A 16-character start gets `:00Z` appended; any other start is unchanged. |
| ScheduleJob.EventOf | src/app/api/schedule-job/route.ts:21-39 | An unparsable start fails. Otherwise the event starts at the normalised start and ends exactly 3,600,000 ms after it. |
| ScheduleJob.EndIsIgnored | src/app/api/schedule-job/route.ts:21-39 | The request's `end` has no effect on the event. |
| ReportingService.PeriodRows | src/lib/reporting-service.ts:17-42 | A period query returns exactly the rows created no earlier than the start and no later than the end, both compared as ISO strings. |
| ReportingService.RevenueOf | src/lib/reporting-service.ts:57-63 | The total is the sum of all amounts; pending sums `sent` and `draft`; paid sums `paid`. The collection rate is paid as a percentage of the total, and 0 for a total that is not positive (line 84). With no negative amount, pending and paid are non-negative and together within the total, and the rate lies in 0..100. |
| ReportingService.RevenueParts | src/lib/reporting-service.ts:57-63 | With no negative amount, the pending and paid sums are non-negative and together no larger than the total. |
| ReportingService.RevenuePartition | src/lib/reporting-service.ts:57-63 | Over statuses the invoice table allows, pending, paid and overdue together make up exactly the total. |
| ReportingService.CountJobs | src/lib/reporting-service.ts:67-69 | A per-status job count never exceeds the number of jobs. It is 0 exactly when no job has the status, and equals the number of jobs exactly when every job has it. |
| ReportingService.JobCountsBounded | src/lib/reporting-service.ts:66-69 | The completed, in-progress and cancelled counts together never exceed the period's jobs. |
| ReportingService.JobMetricsFrom | src/lib/reporting-service.ts:86-92 | The job block keeps the four counts, and its completion rate is the completed share of the total as a percentage, 0 with no jobs. |
| ReportingService.JobMetricsOf | src/lib/reporting-service.ts:66-92 | The total is the number of jobs, each count counts its own status, the counts fit within the total, and the rate is the completed percentage. |
| ReportingService.ClientMetricsFrom | src/lib/reporting-service.ts:93-97 | The client block keeps both counts, and its retention rate is the active share as a percentage, 0 with no clients. |
| ReportingService.ClientMetricsOf | src/lib/reporting-service.ts:72-97 | The total counts the period's clients, and the active count is the `active` ones, never more than the total. The retention rate is their percentage. |
| ReportingService.ClientAmounts | src/lib/reporting-service.ts:109-111 | Each invoice contributes its amount under its client's object key, and a missing client is filed under `null`. |
| ReportingService.RankedClients | src/lib/reporting-service.ts:108-115 | After grouping and the descending sort, every client appears once with the sum of all its invoices, ordered by non-increasing total. |
| ReportingService.TopPerformingClients | src/lib/reporting-service.ts:108-117 | At most five distinct clients, each with its full total, largest first. A client left out has no more than any listed one, and fewer than five are listed only when every client is. |
| ReportingService.MonthKey | src/lib/reporting-service.ts:122 | The month key is the first seven characters of the ISO timestamp. |
| ReportingService.MonthAmounts | src/lib/reporting-service.ts:121-125 | Each invoice contributes its amount under its month key, in list order. |
| ReportingService.EarlierMonthIsStrictWeakOrder | src/lib/reporting-service.ts:128 | The `localeCompare` comparator on month keys, modelled as code-point order, is a valid ordering. |
| ReportingService.RevenueTrend | src/lib/reporting-service.ts:119-130 | There is one entry per month that has an invoice, in strictly ascending month order, each carrying everything invoiced that month. |
| ReportingService.SortedMonths | src/lib/reporting-service.ts:121-128 | The grouped months are distinct, cover exactly the invoices' months, are strictly ascending, and keep the grand total. |
| ReportingService.TrendAddsUpToRevenue | src/lib/reporting-service.ts:57-130 | The monthly amounts of the trend add up to the report's revenue total. |
| ReportingService.Completed | src/lib/reporting-service.ts:133 | The completed jobs are exactly the jobs whose status is `completed`. |
| ReportingService.AverageDays | src/lib/reporting-service.ts:142 | Total ms over count over ms-per-day: the result times count times 86,400,000 gives back the total. |
| ReportingService.AverageJobDuration | src/lib/reporting-service.ts:132-143 | The average is 0 with no completed job. Otherwise, times the count and ms-per-day, it gives the summed durations. It is non-negative when no completed job ends before it starts. |
| ReportingService.OnTimeCompletionAsWritten | src/lib/reporting-service.ts:144-148 | The unguarded division is `NaN` exactly when no job is completed. Otherwise it is the on-time share of the completed jobs as a percentage, where a job is on time when it has a completion time no later than its end (a missing `updated_at` gives an invalid date, which compares false). |
| ReportingService.OpenJobsGiveNaN | src/lib/reporting-service.ts:144-148 | An empty period, and a period whose one job is pending, both report `NaN`. |
| ReportingService.OnTimeCompletion | src/lib/reporting-service.ts:141-148 | Guarded like the average: the on-time percentage of the completed jobs, 0 when none completed. |
| ReportingService.OnTimeCorrectionAgrees | src/lib/reporting-service.ts:141-148 | Where the written division gives a number, the guarded one gives the same number; where it gives `NaN`, the guarded one gives 0. |
| ReportingService.JobEfficiency | src/lib/reporting-service.ts:132-150 | The efficiency block carries the average duration. Its on-time figure is `NaN` exactly when no job is completed, and otherwise the on-time share of the completed jobs as a percentage. On rows of the declared `jobs` table, which has no `updated_at` column, that figure is 0 whenever some job is completed. (See also `src/lib/supabase.ts:120-132`.) |
| ReportingService.DeclaredSchemaOnTimeIsZero | src/lib/reporting-service.ts:144-148 | When no row has an `updated_at` value, no completed job counts as on time, so any period with a completed job reports 0 %. (See also `src/lib/supabase.ts:120-132`.) |
| ReportingService.AllOnTimeGivesHundred | src/lib/reporting-service.ts:144-148 | When every completed job carries a completion time no later than its end, both the written figure and the guarded one are 100 %. |
| ReportingService.JobEfficiencyCorrected | src/lib/reporting-service.ts:141-150 | With the division guarded, the on-time figure is always a number, the on-time percentage of the completed jobs. Wherever the written block has a number, the two blocks are equal. |
| ReportingService.GenerateBusinessReport | src/lib/reporting-service.ts:6-106 | A failed summary rejects the report. Otherwise a query without data throws. The report exists exactly when every request succeeded. It keeps the period and both summaries, totals all invoice amounts, and counts the period's jobs and clients with consistent rates. Its on-time figure is `NaN` exactly when no job in the period is completed. It lists at most five top clients and per-month amounts that match the invoices. Its revenue, job, client, top-client, trend and efficiency blocks are exactly `RevenueOf`, `JobMetricsOf`, `ClientMetricsOf`, `TopPerformingClients`, `RevenueTrend` and `JobEfficiency` of the fetched rows. |
| ReportsPage.LeadObservations | src/app/reports/page.tsx:88-95 | Each lead is observed under its source key, flagged when its status is qualified, converted or client. |
| ReportsPage.LeadBars | src/app/reports/page.tsx:84-103 | There is one bar per distinct source key, and the bars' sources are exactly the leads' keys. Each bar counts that source's leads (at least one) and the flagged ones among them (no more than the total). |
| ReportsPage.BarsCountEveryLead | src/app/reports/page.tsx:84-103 | The bars' totals add up to the number of leads: every lead is counted exactly once. |
| ReportsPage.DefaultMonth | src/app/reports/page.tsx:64-67 | The opening month is the year, a dash, and the month number padded to two digits, whose value is the zero-based month plus one. |
| LeadSourceReport.SourceKey | src/lib/supabase-client.ts:453 | A present, non-empty source is its own key; a missing or empty one is `Unknown`; the key is never empty. |
| LeadSourceReport.BumpKeepsSummary | src/lib/supabase-client.ts:452-459 | One step of the tally keeps the summary exact: distinct keys, the keys seen so far, and per key the count and the flagged count. |
| LeadSourceReport.Tally | src/lib/supabase-client.ts:451-459 | The summary has one entry per key that occurs, holding how many observations carry it (at least one) and how many of those are flagged (no more). |
| LeadSourceReport.TallyCountsEveryone | src/lib/supabase-client.ts:451-459 | The summary's totals add up to the number of observations. |
| LeadSourceReport.Observations | src/lib/supabase-client.ts:452-458 | Each row is observed under its source key and flagged when its status counts as converted. |
| LeadSourceReport.DaysFallInWindow | src/lib/supabase-client.ts:446-447 | Read as text, any timestamp written `month-DD…` with a day from 01 to 31 passes both the `>= month-01` and the `< month-32` bounds. |
| LeadSourceReport.Pad2Digits | src/lib/supabase-client.ts:446-447 | A day below 100 pads to its tens digit followed by its units digit. |
| LeadSourceReport.ToRow | src/lib/supabase-client.ts:461-466 | A chart row keeps the source and both counts, and its rate is the converted share as a percentage, 0 for an empty total. |
| LeadSourceReport.InMonth | src/lib/supabase-client.ts:443-447 | As intended, the query keeps exactly the leads whose creation stamp lies in the month's window, with the bounds compared as text. |
| LeadSourceReport.GetByMonth | src/lib/supabase-client.ts:441-467 | As intended, with the bounds compared as text: a failed query throws. Otherwise there is one row per distinct source among the month's leads, and the sources are exactly those leads' keys. Each row counts its leads (at least one) and the converted ones among them, with the matching percentage. |
| LeadSourceReport.SourcesOfObservations | src/lib/supabase-client.ts:452-454 | The keys observed are exactly the leads' source keys. |
| LeadSourceReport.ReportCountsEveryLead | src/lib/supabase-client.ts:441-467 | The rows' totals add up to the number of leads in the month's window. |
| LeadSourceReport.OtherMonthsOutsideWindow | src/lib/supabase-client.ts:446-447 | Read as text, a stamp that does not begin with the month lies outside the window, so the text window holds exactly that month's stamps. |
| LeadSourceReport.DaysInMonth | src/lib/supabase-client.ts:447 | A month has 28 to 31 days, and 31 exactly for January, March, May, July, August, October and December. |
| LeadSourceReport.NoDay32 | src/lib/supabase-client.ts:447 | No month has a 32nd day, so the upper bound `month-32` is never a date. |
| LeadSourceReport.FirstOfMonthIsDate | src/lib/supabase-client.ts:446 | For a four-digit year, the lower bound `month-01` is a date: only the upper bound is unreadable. |
| LeadSourceReport.GetByMonthAsWritten | src/lib/supabase-client.ts:441-448 | The `created_at` column is a timestamp, so the database reads each bound as a date. A failed call, or a bound that is not a date, throws. Otherwise the result is the text-window report. (See also `src/lib/supabase.ts:136`.) |
| LeadSourceReport.MonthQueryAlwaysFails | src/lib/supabase-client.ts:446-448 | Because `month-32` is never a date, the written query throws for every month. |
| MarketingChannels.Roi | src/app/reports/marketing-channels-section.tsx:59 | With spend, the ROI is the profit as a percentage of the spend, and it is non-negative exactly when revenue covers the spend; without spend it is 0. |
| MarketingChannels.Metrics | src/app/reports/marketing-channels-section.tsx:55-61 | Close rate and cost per lead invert against positive leads, and cost per job against positive jobs. Each is 0 when its divisor is not positive. ROI follows the spend rule, and the close rate lies in 0..100 when jobs do not exceed leads. |
| MarketingChannels.RoiGreenIffProfitable | src/app/reports/marketing-channels-section.tsx:332 | A channel with spend shows its ROI in green exactly when revenue covers spend; one without spend always shows green. |
| MarketingChannels.CalculateTotals | src/app/reports/marketing-channels-section.tsx:65-85 | The four totals are the column sums. The overall rates are exactly the per-channel metrics of one channel carrying those sums. |
| MarketingChannels.TotalsOfConcat | src/app/reports/marketing-channels-section.tsx:67-70 | Every column sum over two lists of rows joined together is the sum of the two lists' sums. |
| MarketingChannels.TotalsOfOneChannel | src/app/reports/marketing-channels-section.tsx:55-85 | For a single row, the overall rates coincide with that row's own metrics. |
| MarketingChannels.Shift | src/app/reports/marketing-channels-section.tsx:93-99 | Moving one month away gives a month from 1 to 12, exactly one month after or before the start counted in months, with a two-digit year read as 19xx. |
| MarketingChannels.NavigateMonth | src/app/reports/marketing-channels-section.tsx:91-99 | The result is `NaN-NaN` exactly when the month text does not split and parse into two numbers. Otherwise it is the `YYYY-MM` text of the month the date arithmetic steps to. |
| MarketingChannels.MonthStringSplits | src/app/reports/marketing-channels-section.tsx:92-99 | A month string the section builds splits and parses back into its own year and month. |
| MarketingChannels.TwoDigitYearJumpsCentury | src/app/reports/marketing-channels-section.tsx:92-99 | Stepping back from `99-12` yields `1999-11`: the `Date` constructor reads years 0 to 99 as 1900 to 1999. |
| MarketingChannels.NavigateFromMonth | src/app/reports/marketing-channels-section.tsx:91-100 | From any month of a year of three or more digits, navigation moves exactly one calendar month, rolling over December and January. |
| MarketingChannels.ShiftIsCalendarStep | src/app/reports/marketing-channels-section.tsx:93-99 | From year 100 on, the date arithmetic agrees with the plain calendar step. |
| MarketingChannels.NavigateRoundTrip | src/app/reports/marketing-channels-section.tsx:91-100 | From year 101 on, prev-then-next and next-then-prev both return to the starting month. |
| MarketingChannels.ShiftCorrected | src/app/reports/marketing-channels-section.tsx:93-99 | The corrected step keeps the year as given. It yields a month from 1 to 12 exactly one month after or before the start, counted in months. |
| MarketingChannels.NavigateMonthCorrected | src/app/reports/marketing-channels-section.tsx:91-99 | The corrected navigation gives `NaN-NaN` exactly when the month does not parse, and otherwise the text of the month one calendar step away. |
| MarketingChannels.ShiftCorrectedIsCalendarStep | src/app/reports/marketing-channels-section.tsx:93-99 | For every year, the corrected step is the plain calendar step, rolling over December and January. |
| MarketingChannels.CorrectedNavigateFromMonth | src/app/reports/marketing-channels-section.tsx:91-99 | From any month of any year, the corrected navigation moves exactly one calendar month. |
| MarketingChannels.CorrectedRoundTrip | src/app/reports/marketing-channels-section.tsx:91-99 | For every year, next-then-prev returns to the starting month. Prev-then-next does so too, except from January of year 0. |
| MarketingChannels.CorrectedAgreesFromYear100 | src/app/reports/marketing-channels-section.tsx:91-99 | From year 100 on, and for any text that does not parse, the written and the corrected navigation give the same month. |
| MarketingChannels.ResetDraft | src/app/reports/marketing-channels-section.tsx:131-143 | After an add, the form holds the selected month, an empty name and zero figures. |
| MarketingChannels.HandleAddChannel | src/app/reports/marketing-channels-section.tsx:129-145 | Without a name, or when the insert fails, nothing changes. Otherwise the table gains the form as a new row under the assigned id, the form resets to the selected month, and the add panel closes. |
| MarketingChannels.HandleEditStart | src/app/reports/marketing-channels-section.tsx:111-114 | Editing a row marks its id and copies the whole loaded row into the form, stored derived columns included, leaving the month and the add panel alone. |
| MarketingChannels.DraftOf | src/app/reports/marketing-channels-section.tsx:111-114 | The form copies every column of the loaded row, the stored `close_rate`, `cost_per_lead` and `roi` included, so it is a complete payload. (See also `src/lib/supabase-client.ts:388-410`.) |
| MarketingChannels.HandleEditCancel | src/app/reports/marketing-channels-section.tsx:124-127 | Cancelling clears the edited id and the form, leaving the month and the add panel alone. |
| MarketingChannels.HandleEditSave | src/app/reports/marketing-channels-section.tsx:116-122 | Nothing changes without an edited row, or when the update fails or finds no row. Otherwise the edited row alone takes the form's present columns over its stored ones, and the edit state clears. |
| MarketingChannels.Merge | src/lib/supabase-client.ts:421-430 | The update writes the payload's present columns over the stored row. An empty payload changes nothing, a complete one replaces the row, and a complete row stays complete. |
| MarketingChannels.MergeIdempotent | src/lib/supabase-client.ts:421-430 | Sending the same payload twice stores what sending it once did. |
| MarketingChannels.EditStartThenSave | src/app/reports/marketing-channels-section.tsx:111-122 | Starting an edit from a loaded row and saving it at once writes that row's loaded values back, every column included, and touches no other row. When the stored row is still the loaded one, the table is unchanged. |
| MarketingChannels.HandleDeleteChannel | src/app/reports/marketing-channels-section.tsx:147-150 | A failed delete keeps the table. Otherwise the table loses exactly that row, and every other row keeps its value. |
| MarketingChannels.HandleNavigate | src/app/reports/marketing-channels-section.tsx:91-102 | Navigation moves the selected month and the form's month together and touches nothing else. |

## Left out

- The database and its client library are abstracted. Every Supabase/PostgREST call becomes a read or a write on a store of maps, with a flag per call saying whether it fails. Row-level security, authentication and network errors beyond "the call failed" are not modelled.
- Rendering (JSX, class names other than those the model states, icons, charts, animations), `setTimeout` delays, `console` output and the `useEffect` scheduling are left out. Each handler is modelled as the state change it makes once its awaited calls have returned.
- `Promise.all` concurrency: each request's outcome is a parameter, and the model does not order the requests.
- JavaScript numbers are exact `real`s, so rounding, `toFixed` and `toLocaleString` formatting are left out. `NaN` is modelled as `None` where the code can produce it.
- Date parsing (`new Date(text)`) and the clock are parameters: a parse gives milliseconds or `None`, and `now` is passed in. `toISOString` strings are compared as plain text.
- `Number(text)` is approximated by plain decimal-digit parsing. Whitespace trimming, signs and exponents are left out, and every other text reads as `NaN`.
- `toLowerCase` is modelled by `Strings.Lower`, which lower-cases ASCII letters only. JavaScript also lower-cases other letters (`É` to `é`), so those searches compare case-sensitively in the model.
- LeadsPage.FilteredLeads: the case-folding is ASCII-only, as `Strings.Lower` above.
- QuotesPage.FilteredQuotes: the case-folding is ASCII-only, as `Strings.Lower` above.
- JobsPage.FilteredJobs: the case-folding is ASCII-only, as `Strings.Lower` above.
- InvoicesPage.SearchAsWritten: the case-folding is ASCII-only, as `Strings.Lower` above.
- A filter value compared with a timestamp column is read as a date only in the `YYYY-MM-DD` spelling. The other spellings PostgreSQL accepts are left out; the bounds the lead-source query builds use that spelling.
- The database's column checks are modelled only for the `clients` insert of the lead conversion and for the status CHECK constraints. Every other write is assumed to name existing columns.
- `localeCompare` is modelled as code-point order, which agrees with it on the ASCII `YYYY-MM` keys the code compares.
- `Object.entries` lists integer-like keys in ascending order before the others. The model keeps insertion order, and its contracts about the lead summaries, the client ranking and the month grouping state sets, counts and sort order rather than the position of ties.
- Prototype-key lookups (a status named `constructor` or `toString` reaching `Object.prototype`) are left out.
- The Google Calendar call, the credentials file and the response of the schedule-job route are left out; only the route's timestamp handling is modelled. The email route and the Meta Ads section are not part of this model.
- The saved dashboard layout in `localStorage` is read as one of: absent, a parsed list of items, or unreadable text. JSON parsing itself is left out.
- The text of activity descriptions (client names, amounts formatted with `toLocaleString`) is left out: activity items carry their kind, id, status and timestamp.
- TodaysSchedule.LoadSchedule: states the order the comparator evidently intends (earliest start first, jobs without a start last). The comparator as written is not a consistent ordering, and JavaScript's sort leaves the result unspecified for it.
- RecentActivity.Newest: does not state the relative order of items with equal timestamps, which the stable sort keeps from the merge order.
- ReportingService.TopPerformingClients: does not state the order among clients with equal totals, which depends on `Object.entries` order.
- ReportingService.RevenueTrend: assumes `localeCompare` agrees with code-point order on month keys, which holds for ASCII `YYYY-MM` text.
- MarketingChannels.NavigateMonth: the `Date` object's range is not modelled. Beyond year 275760 either way the code gives `NaN-NaN` where the model gives a month. Negative years are not parsed either, because the text is split at its first dash. The parse itself is the plain decimal approximation of `Number` above.
- MarketingChannels.NavigateMonthCorrected: the same range limit applies.
- InvoicesPage.UpdateStatus: states only the page's own list. The row written to the `invoices` table is not part of that member, and a failed update leaves the list as it was, because the handler throws before changing it.
- Dashboard.Mount: uses the corrected default layout, without the empty `calendar` slot. The written layout is kept as `DefaultLayoutAsWritten` for the finding below.
- MarketingChannels.DraftOf: the row's `channel` and `created_at` columns, which the form carries but nothing reads, are not part of the `Channel` model.
- Dashboard.ResetLayout: restores the corrected default layout, for the same reason.

## Findings

| source | as written | input that shows it | evidently intended | confidence | as-written member | corrected member |
|---|---|---|---|---|---|---|
| src/lib/flowStates.ts:459-464 | `validateTransition` looks the current status up by display key (`New`) but compares the target against ids (`contacted`), so a stage's own id is never a valid starting point and an accepted target is never a key | `validateTransition('leads','New','contacted')` is true, `('leads','new','contacted')` is false | keys and targets in one vocabulary: start from the stage id and accept the ids listed | not executed | FlowChecks.KeysVersusIds | FlowChecks.IdCheckAgreesOnKeys |
| src/lib/flowStates.ts:402-457 | `getNextActions` compares the display key with lowercase ids (`status === 'new'` against `New`), so no branch ever fires | every module and status gives `[]` | suggest an action at the stage whose id matches | not executed | FlowChecks.NextActionsAlwaysEmpty | FlowChecks.NextActionsById |
| src/lib/flowStates.ts:156-221 | quote Draft and Revised allow `cancelled`, but no quote stage has that id | `validateTransition('quotes','Draft','cancelled')` accepts a target that names no stage | every target names a stage of its module | not executed | FlowChecks.QuoteCancelledDangles | FlowChecks.CorrectedTargetsAreIds |
| src/lib/lead-conversion.ts:36-41 | with a `clients` table that accepts the insert, the conversion writes lead status `converted`, which the leads CHECK constraint (`src/lib/supabase.ts:141`) refuses, after the client row is already inserted | choosing `qualified` for a `new` lead inserts a client and then fails | the constraint admits `converted`, or the conversion does not write it | not executed | LeadsPage.DeclaredSchemaOrphansClient | LeadsPage.CorrectedSchemaQualifies |
| src/lib/lead-conversion.ts:19-30 | the new client row sends `estimated_value`, `source` and `assigned_to`, which the declared `clients` table (`src/lib/supabase.ts:107-118`) lacks | converting any lead: the insert is refused and the conversion throws | the table has the columns the `Client` type declares, or the row leaves them out | not executed | LeadConversion.DeclaredClientsRefuseInsert | LeadConversion.CorrectedSchemaConverts |
| src/app/leads/page.tsx:67-77 | the comment says previously qualified or converted leads lose their client, but the code checks only `qualified` | a lead stored as `converted` moved to `lost` keeps its client | unlink on demotion from `converted` too | not executed | LeadsPage.ConvertedLeadKeepsClient | LeadsPage.CorrectedDemotionUnlinks |
| src/lib/reporting-service.ts:144-148 | `onTimeCompletion` divides by the number of completed jobs with no guard, and the report carries the result | a period with no completed job gives `0 / 0 * 100`, which is `NaN` | 0 when no job completed, like `averageJobDuration` | not executed | ReportingService.JobEfficiency | ReportingService.JobEfficiencyCorrected |
| src/app/reports/marketing-channels-section.tsx:92-99 | `new Date(year, month - 1)` reads years 0 to 99 as 1900 to 1999 | `prev` from `99-12` gives `1999-11` | step one calendar month in the given year | not executed | MarketingChannels.TwoDigitYearJumpsCentury | MarketingChannels.CorrectedRoundTrip |
| src/app/invoices/page.tsx:100-103 | the search calls `clientName.toLowerCase()`, but rows loaded from the table have no `clientName` | any search text not found in the row's id throws a `TypeError` | skip a missing client name, as the job title already is skipped | not executed | InvoicesPage.SearchThrowsOnLoadedRows | InvoicesPage.FilterCorrectionAgrees |
| src/app/invoices/page.tsx:111-121 | the totals compare against capitalised statuses (`Paid`, `Draft`, `Overdue`), but the table (`src/lib/supabase.ts:165`) stores lower-case ones | a stored `paid` invoice counts as outstanding, and paid and overdue show 0 | compare with the stored statuses | not executed | InvoicesPage.StoredRowsMiscount | InvoicesPage.StoredOutstandingIsSentAndOverdue |
| src/app/page.tsx:36-44 | the default layout has a `calendar` slot that no widget renders | the written default layout leaves `calendar` empty | the layout lists only the rendered widgets | not executed | Dashboard.CalendarSlotIsEmpty | Dashboard.DefaultLayoutMatchesWidgets |
| src/components/dashboard/TodaysScheduleWidget.tsx:48-51 | the comparator returns 0 whenever one job has no start, so it is not a consistent ordering | jobs at 1, without a start, and at 0 | ascending start with start-less jobs last | not executed | TodaysSchedule.ComparatorInconsistent | TodaysSchedule.EarlierIsStrictWeakOrder |
| src/app/api/schedule-job/route.ts:9-17 | the regex literals double their backslashes, so `\\d` matches a literal backslash and `d`, and neither pattern matches a timestamp. The helper is never called: the POST handler normalises the start itself at line 36, so the route's behaviour is unaffected | `2024-05-01T09:30` becomes `2024-05-01T09:30Z`, with no seconds | digit classes, so a time to the minute gets `:00Z` | not executed | ScheduleJob.AsWrittenDropsSeconds | ScheduleJob.Rfc3339Idempotent |
| src/lib/supabase-client.ts:446-447 | `created_at` is a timestamp column (`src/lib/supabase.ts:136`), so the upper bound `month-32` is read as a date, and no month has a 32nd day | `getByMonth('2024-05')` filters on `2024-05-32`, which the database refuses, so the call throws | the first day of the next month as the exclusive bound, or a text comparison | not executed | LeadSourceReport.MonthQueryAlwaysFails | LeadSourceReport.OtherMonthsOutsideWindow |
| src/lib/reporting-service.ts:144-148 | the on-time test reads `job.updated_at`, which the declared `jobs` table (`src/lib/supabase.ts:120-132`) and the `Job` type lack, so `new Date(undefined)` is an invalid date and `completed <= end` is false | any period with a completed job reports 0 % on time | compare the end date with a completion time the table stores | not executed | ReportingService.DeclaredSchemaOnTimeIsZero | ReportingService.AllOnTimeGivesHundred |

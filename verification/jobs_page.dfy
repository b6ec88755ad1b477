/** The jobs list page: the translation of stored job statuses into registry
    stage keys, and the search filter (src/app/jobs/page.tsx). */
module JobsPage {
  import opened Wrappers
  import opened Strings
  import opened Seqs
  import FlowStates
  import FlowActions

  /** The fields of a job row the page reads. */
  datatype JobRow = JobRow(id: string, clientName: string, description: Option<string>, status: string)

  /** `mapJobStatus(status)`. */
  function MapJobStatus(status: string): (r: string)
    ensures status == "pending" ==> r == "Scheduled"
    ensures status == "in_progress" ==> r == "In Progress"
    ensures status == "completed" ==> r == "Completed"
    ensures status == "cancelled" ==> r == "Cancelled"
    ensures status !in {"pending", "in_progress", "completed", "cancelled"} ==> r == "Scheduled"
  {
    match status
    case "pending" => "Scheduled"
    case "in_progress" => "In Progress"
    case "completed" => "Completed"
    case "cancelled" => "Cancelled"
    case _ => "Scheduled"
  }

  /** The badge lookup always finds a stage: every result is a key of the job table. */
  lemma MappedStatusIsStage(status: string)
    ensures MapJobStatus(status) in FlowStates.JobStages
    ensures FlowStates.GetStageInfo("jobs", MapJobStatus(status)).Some?
  {
  }

  /** The page never shows Dispatched, On Hold or Needs Invoicing, so the job
      to invoice conversion button never appears on it. */
  lemma NoConversionFromJobsPage(status: string)
    ensures MapJobStatus(status) !in {"Dispatched", "On Hold", "Needs Invoicing"}
    ensures !FlowActions.HasConversion(FlowActions.GetActions("jobs", MapJobStatus(status)))
  {
    FlowActions.ConversionPairs("jobs", MapJobStatus(status));
  }

  /** `job.client_name.toLowerCase().includes(t) || job.description?.toLowerCase().includes(t)`. */
  predicate JobMatches(j: JobRow, term: string) {
    Contains(Lower(j.clientName), Lower(term))
    || (j.description.Some? && Contains(Lower(j.description.value), Lower(term)))
  }

  /** `filteredJobs`. */
  function FilteredJobs(jobs: seq<JobRow>, term: string): (r: seq<JobRow>)
    ensures forall j :: j in r <==> j in jobs && JobMatches(j, term)
    ensures term == "" ==> r == jobs
  {
    var p := (j: JobRow) => JobMatches(j, term);
    assert term == "" ==> Filter(jobs, p) == jobs by {
      if term == "" {
        forall j | j in jobs ensures p(j) {
          EmptyIsContained(Lower(j.clientName));
        }
        FilterAll(jobs, p);
      }
    }
    Filter(jobs, p)
  }

  /** Searching the searched list again with the same text keeps it whole. */
  lemma FilteredJobsIdempotent(jobs: seq<JobRow>, term: string)
    ensures FilteredJobs(FilteredJobs(jobs, term), term) == FilteredJobs(jobs, term)
  {
    var r := FilteredJobs(jobs, term);
    FilterAll(r, (j: JobRow) => JobMatches(j, term));
  }
}

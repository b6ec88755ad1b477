/** The dashboard's schedule widget
    (src/components/dashboard/TodaysScheduleWidget.tsx): the open jobs with
    their display fallbacks, ordered by start time, and the status badge. */
module TodaysSchedule {
  import opened Wrappers
  import opened Seqs

  /** A job as the widget reads it; an absent or empty `start_date` is `None`,
      and so is a null `clients` relation's name or address. */
  datatype JobRow = JobRow(
    id: int, status: string, startMs: Option<int>,
    clientName: Option<string>, serviceAddress: Option<string>, clientAddress: Option<string>)

  /** `x || fallback` on a string that may be missing: the empty string is falsy too. */
  function OrElse(x: Option<string>, fallback: string): (r: string)
    ensures x.Some? && x.value != "" ==> r == x.value
    ensures x.None? || x.value == "" ==> r == fallback
  {
    if x.Some? && x.value != "" then x.value else fallback
  }

  /** The time column: the start time, or `TBD` without one. The locale
      formatting of the time is not modelled. */
  datatype TimeLabel = At(ms: int) | Tbd

  datatype Entry = Entry(job: JobRow, clientName: string, time: TimeLabel, location: string)

  predicate Open(j: JobRow) { j.status == "pending" || j.status == "in_progress" }

  /** The `map` step: client name, time and location with their fallbacks. */
  function ToEntry(j: JobRow): (e: Entry)
    ensures e.job == j
    ensures e.clientName == OrElse(j.clientName, "Unknown Client")
    ensures e.time == (if j.startMs.Some? then At(j.startMs.value) else Tbd)
    ensures j.serviceAddress.Some? && j.serviceAddress.value != "" ==> e.location == j.serviceAddress.value
    ensures (j.serviceAddress.None? || j.serviceAddress.value == "") ==> e.location == OrElse(j.clientAddress, "Location TBD")
  {
    Entry(j, OrElse(j.clientName, "Unknown Client"),
      if j.startMs.Some? then At(j.startMs.value) else Tbd,
      OrElse(j.serviceAddress, OrElse(j.clientAddress, "Location TBD")))
  }

  /** Every entry names a client, a time and a location, never an empty one. */
  lemma EntryFieldsNeverEmpty(j: JobRow)
    ensures ToEntry(j).clientName != "" && ToEntry(j).location != ""
  {
  }

  // ---------------------------------------------------------------------
  // Ordering
  // ---------------------------------------------------------------------

  /** The comparator as written: 0 when either job lacks a start, otherwise
      the difference of the starts. */
  function CompareAsWritten(a: Entry, b: Entry): (r: int)
    ensures a.job.startMs.None? || b.job.startMs.None? ==> r == 0
    ensures a.job.startMs.Some? && b.job.startMs.Some? ==> (r < 0 <==> a.job.startMs.value < b.job.startMs.value)
  {
    if a.job.startMs.None? || b.job.startMs.None? then 0
    else a.job.startMs.value - b.job.startMs.value
  }

  predicate BeforeAsWritten(a: Entry, b: Entry) { CompareAsWritten(a, b) < 0 }

  function EntryAt(id: int, start: Option<int>): Entry {
    ToEntry(JobRow(id, "pending", start, None, None, None))
  }

  /** A job without a start ties with both a job at 1 and a job at 0, which do
      not tie with each other: ties are not transitive, so the comparator is
      not a consistent order and the result of the sort is left to the engine. */
  lemma ComparatorInconsistent()
    ensures !StrictWeakOrder(BeforeAsWritten)
    ensures var one, none, zero := EntryAt(1, Some(1)), EntryAt(2, None), EntryAt(3, Some(0));
      CompareAsWritten(one, none) == 0 && CompareAsWritten(none, zero) == 0 && CompareAsWritten(zero, one) < 0
  {
    var one, none, zero := EntryAt(1, Some(1)), EntryAt(2, None), EntryAt(3, Some(0));
    assert !BeforeAsWritten(zero, none) && !BeforeAsWritten(none, one) && BeforeAsWritten(zero, one);
  }

  /** The intended order: by ascending start, jobs without a start last. */
  predicate Earlier(a: Entry, b: Entry) {
    a.job.startMs.Some? && (b.job.startMs.None? || a.job.startMs.value < b.job.startMs.value)
  }

  lemma EarlierIsStrictWeakOrder()
    ensures StrictWeakOrder(Earlier)
  {
  }

  /** Between two jobs that both have a start the two orders agree. */
  lemma EarlierAgreesWhereDefined(a: Entry, b: Entry)
    requires a.job.startMs.Some? && b.job.startMs.Some?
    ensures Earlier(a, b) <==> BeforeAsWritten(a, b)
  {
  }

  /** The open jobs as entries, in the order they were loaded. */
  function OpenEntries(jobs: seq<JobRow>): (r: seq<Entry>)
    ensures |r| <= |jobs|
    ensures forall e :: e in r <==> e.job in jobs && Open(e.job) && e == ToEntry(e.job)
  {
    if |jobs| == 0 then []
    else
      var rest := OpenEntries(jobs[1..]);
      assert forall j :: j in jobs <==> j == jobs[0] || j in jobs[1..];
      if Open(jobs[0]) then [ToEntry(jobs[0])] + rest else rest
  }

  /** `loadTodaysSchedule` with the intended order: exactly the pending and
      in-progress jobs, whatever their date, earliest first and the ones
      without a start at the end. A failed load keeps the previous list and
      sets the message. */
  function LoadSchedule(data: Result<seq<JobRow>, string>, previous: seq<Entry>): (r: (seq<Entry>, Option<string>))
    ensures data.Err? ==> r == (previous, Some(data.error))
    ensures data.Ok? ==> r.1.None? && multiset(r.0) == multiset(OpenEntries(data.value))
    ensures data.Ok? ==> forall e :: e in r.0 <==> e.job in data.value && Open(e.job) && e == ToEntry(e.job)
    ensures data.Ok? ==> SortedBy(r.0, Earlier)
    ensures data.Ok? ==> forall i, j :: 0 <= i < j < |r.0| && r.0[i].job.startMs.None? ==> r.0[j].job.startMs.None?
  {
    if data.Err? then (previous, Some(data.error))
    else
      var open := OpenEntries(data.value);
      var sorted := SortBy(open, Earlier);
      EarlierIsStrictWeakOrder();
      SortBySorted(open, Earlier);
      SortByMembers(open, Earlier);
      (sorted, None)
  }

  // ---------------------------------------------------------------------
  // Status badge
  // ---------------------------------------------------------------------

  /** `getStatusLabel`. */
  function StatusLabel(status: string): (l: string)
    ensures status == "pending" ==> l == "Scheduled"
    ensures status == "in_progress" ==> l == "In Progress"
    ensures status == "completed" ==> l == "Completed"
  {
    match status
    case "pending" => "Scheduled"
    case "in_progress" => "In Progress"
    case "completed" => "Completed"
    case _ => status
  }

  const Grey := "bg-gray-100 text-gray-700"

  /** `getStatusColor`. */
  function StatusColor(status: string): (c: string)
    ensures status == "pending" ==> c == "bg-blue-100 text-blue-700"
    ensures status == "in_progress" ==> c == "bg-yellow-100 text-yellow-700"
    ensures status == "completed" ==> c == "bg-green-100 text-green-700"
  {
    match status
    case "pending" => "bg-blue-100 text-blue-700"
    case "in_progress" => "bg-yellow-100 text-yellow-700"
    case "completed" => "bg-green-100 text-green-700"
    case _ => Grey
  }

  /** The badge renames a status and colours it exactly when it is one of the
      three known statuses; any other status shows as itself, in grey. */
  lemma BadgeFallback(status: string)
    ensures StatusLabel(status) != status <==> status in {"pending", "in_progress", "completed"}
    ensures StatusColor(status) == Grey <==> status !in {"pending", "in_progress", "completed"}
  {
  }
}

/** The timestamp handling of the schedule-job route
    (src/app/api/schedule-job/route.ts): the `toRFC3339` helper, the
    normalisation of the request's start, and the one-hour event end. The
    calendar call itself is not part of this model. */
module ScheduleJob {
  import opened Wrappers
  import opened Strings

  // ---------------------------------------------------------------------
  // toRFC3339 as written
  // ---------------------------------------------------------------------

  /** Inside a regular-expression literal `\\d` is a backslash followed by `d`,
      so `/\\d{2}:\\d{2}:\\d{2}Z$/` matches the text `\dd:\dd:\ddZ` at the end. */
  const SecondsPattern: string := "\\dd:\\dd:\\ddZ"

  /** `/\\d{2}:\\d{2}$/` matches the text `\dd:\dd` at the end. */
  const MinutesPattern: string := "\\dd:\\dd"

  /** `toRFC3339` as written. */
  function ToRfc3339AsWritten(dt: string): (r: string)
    ensures EndsWith(r, "Z")
    ensures EndsWith(dt, "Z") ==> r == dt
  {
    if EndsWith(dt, SecondsPattern) then dt
    else if EndsWith(dt, MinutesPattern) then
      EndsWithLast(dt, MinutesPattern);
      EndsWithAppend(dt, ":00Z");
      dt + ":00Z"
    else if !EndsWith(dt, "Z") then
      EndsWithAppend(dt, "Z");
      dt + "Z"
    else dt
  }

  /** A suffix tells the last character. */
  lemma EndsWithLast(s: string, suffix: string)
    requires EndsWith(s, suffix) && |suffix| > 0
    ensures s[|s| - 1] == suffix[|suffix| - 1]
  {
    assert s[|s| - |suffix|..][|suffix| - 1] == s[|s| - 1];
  }

  lemma EndsWithAppend(s: string, t: string)
    ensures EndsWith(s + t, t)
  {
    assert (s + t)[|s + t| - |t|..] == t;
  }

  /** A string without a backslash ends with neither pattern. */
  lemma NoBackslashNoPattern(s: string, pattern: string)
    requires forall i :: 0 <= i < |s| ==> s[i] != '\\'
    requires |pattern| > 0 && pattern[0] == '\\'
    ensures !EndsWith(s, pattern)
  {
    SuffixHead(s, pattern);
  }

  /** A suffix tells the character where it starts. */
  lemma SuffixHead(s: string, suffix: string)
    ensures |suffix| > 0 && EndsWith(s, suffix) ==> s[|s| - |suffix|] == suffix[0]
  {
    if |suffix| > 0 && EndsWith(s, suffix) {
      assert s[|s| - |suffix|..][0] == s[|s| - |suffix|];
    }
  }

  /** On a timestamp with no backslash in it, the written helper only ever
      appends a missing `Z`: a 16-character `YYYY-MM-DDTHH:MM` gets no seconds. */
  lemma AsWrittenOnOrdinaryTimestamps(dt: string)
    requires forall i :: 0 <= i < |dt| ==> dt[i] != '\\'
    ensures ToRfc3339AsWritten(dt) == if EndsWith(dt, "Z") then dt else dt + "Z"
  {
    NoBackslashNoPattern(dt, SecondsPattern);
    NoBackslashNoPattern(dt, MinutesPattern);
  }

  /** The written helper leaves a minute-precision local time without seconds. */
  lemma AsWrittenDropsSeconds()
    ensures ToRfc3339AsWritten("2024-05-01T09:30") == "2024-05-01T09:30Z"
  {
    AsWrittenOnOrdinaryTimestamps("2024-05-01T09:30");
    assert !EndsWith("2024-05-01T09:30", "Z") by {
      EndsWithLastNot("2024-05-01T09:30", "Z");
    }
  }

  lemma EndsWithLastNot(s: string, suffix: string)
    requires |s| > 0 && |suffix| > 0 && s[|s| - 1] != suffix[|suffix| - 1]
    ensures !EndsWith(s, suffix)
  {
    if EndsWith(s, suffix) {
      EndsWithLast(s, suffix);
    }
  }

  /** Applying the written helper twice is applying it once. */
  lemma AsWrittenIdempotent(dt: string)
    ensures ToRfc3339AsWritten(ToRfc3339AsWritten(dt)) == ToRfc3339AsWritten(dt)
  {
  }

  // ---------------------------------------------------------------------
  // toRFC3339 as intended
  // ---------------------------------------------------------------------

  predicate Digit(c: char) { '0' <= c <= '9' }

  /** `s` ends with two digits, a colon and two digits. */
  predicate EndsWithHourMinute(s: string) {
    |s| >= 5 && Digit(s[|s| - 5]) && Digit(s[|s| - 4]) && s[|s| - 3] == ':'
      && Digit(s[|s| - 2]) && Digit(s[|s| - 1])
  }

  /** `s` ends with `dd:dd:ddZ`. */
  predicate EndsWithSecondsZ(s: string) {
    |s| >= 9 && s[|s| - 1] == 'Z' && EndsWithHourMinute(s[..|s| - 1])
      && s[|s| - 7] == ':' && Digit(s[|s| - 9]) && Digit(s[|s| - 8])
  }

  /** `toRFC3339` with digit classes in its patterns: a time to the minute gets
      `:00Z`, a time already to the second with `Z` stays, and anything else
      gets a missing `Z`. */
  function ToRfc3339(dt: string): (r: string)
    ensures EndsWith(r, "Z")
    ensures EndsWithHourMinute(dt) ==> r == dt + ":00Z" && EndsWithSecondsZ(r)
    ensures !EndsWithHourMinute(dt) && !EndsWith(dt, "Z") ==> r == dt + "Z"
    ensures EndsWith(dt, "Z") ==> r == dt
  {
    if EndsWithSecondsZ(dt) then dt
    else if EndsWithHourMinute(dt) then
      var r := dt + ":00Z";
      assert r[..|r| - 1] == dt + ":00";
      EndsWithAppend(dt, ":00Z");
      r
    else if !EndsWith(dt, "Z") then
      EndsWithAppend(dt, "Z");
      dt + "Z"
    else dt
  }

  /** Applying the intended helper twice is applying it once. */
  lemma Rfc3339Idempotent(dt: string)
    ensures ToRfc3339(ToRfc3339(dt)) == ToRfc3339(dt)
  {
    var r := ToRfc3339(dt);
    EndsWithLast(r, "Z");
    assert !EndsWithHourMinute(r);
  }

  /** The two agree on every input except a time to the minute, which only the
      intended one gives seconds. */
  lemma Rfc3339CorrectionAgrees(dt: string)
    requires forall i :: 0 <= i < |dt| ==> dt[i] != '\\'
    requires !EndsWithHourMinute(dt)
    ensures ToRfc3339(dt) == ToRfc3339AsWritten(dt)
  {
    AsWrittenOnOrdinaryTimestamps(dt);
  }

  // ---------------------------------------------------------------------
  // The event's start and end
  // ---------------------------------------------------------------------

  /** `start.length === 16 ? start + ':00Z' : start`. */
  function StartDateTime(start: string): (r: string)
    ensures |start| == 16 ==> r == start + ":00Z"
    ensures |start| != 16 ==> r == start
  {
    if |start| == 16 then start + ":00Z" else start
  }

  datatype EventTimes = EventTimes(startDateTime: string, endMs: int)

  /** The event's times. `parsedStartMs` is `new Date(startDateTime)` in
      milliseconds, `None` for an invalid date, on which `toISOString` throws
      and the route answers 500. The request's `end` is read but never used:
      the event always lasts one hour. */
  function EventOf(start: string, end: string, parsedStartMs: Option<int>): (r: Result<EventTimes, string>)
    ensures parsedStartMs.None? <==> r.Err?
    ensures r.Ok? ==> r.value.startDateTime == StartDateTime(start)
    ensures r.Ok? ==> r.value.endMs == parsedStartMs.value + 3600000
  {
    if parsedStartMs.None? then Err("Invalid time value")
    else Ok(EventTimes(StartDateTime(start), parsedStartMs.value + 60 * 60 * 1000))
  }

  /** Whatever `end` the request carries, the event is the same. */
  lemma EndIsIgnored(start: string, end1: string, end2: string, parsedStartMs: Option<int>)
    ensures EventOf(start, end1, parsedStartMs) == EventOf(start, end2, parsedStartMs)
  {
  }
}

/** Leads per source and how many of them converted, as the monthly lead
    conversion report computes them (src/lib/supabase-client.ts, lines
    440-467), together with the tally both it and the reports page use. */
module LeadSourceReport {
  import opened Wrappers
  import opened Strings
  import opened Seqs
  import opened Rates

  /** `lead.source || 'Unknown'`: a missing or empty source is grouped as `Unknown`. */
  function SourceKey(source: Option<string>): (r: string)
    ensures source.Some? && source.value != "" ==> r == source.value
    ensures source.None? || source.value == "" ==> r == "Unknown"
    ensures r != ""
  {
    if source.Some? && source.value != "" then source.value else "Unknown"
  }

  /** The statuses both reports count as converted. */
  predicate CountsAsConverted(status: string) {
    status == "qualified" || status == "converted" || status == "client"
  }

  // ---------------------------------------------------------------------
  // The tally: `summary[k] ??= {total: 0, hit: 0}; summary[k].total++; if (hit) summary[k].hit++`.
  // ---------------------------------------------------------------------

  /** How many observations carry key `k`. */
  function CountOfKey(obs: seq<(string, bool)>, k: string): nat {
    if |obs| == 0 then 0
    else CountOfKey(obs[..|obs| - 1], k) + (if obs[|obs| - 1].0 == k then 1 else 0)
  }

  /** How many observations carry key `k` and are flagged. */
  function FlaggedOfKey(obs: seq<(string, bool)>, k: string): nat {
    if |obs| == 0 then 0
    else FlaggedOfKey(obs[..|obs| - 1], k) + (if obs[|obs| - 1].0 == k && obs[|obs| - 1].1 then 1 else 0)
  }

  lemma {:induction false} AbsentKeyCountsNothing(obs: seq<(string, bool)>, k: string)
    requires k !in Keys(obs)
    ensures CountOfKey(obs, k) == 0 && FlaggedOfKey(obs, k) == 0
  {
    if |obs| > 0 {
      var n := |obs| - 1;
      assert obs == obs[..n] + [obs[n]];
      KeysSnoc(obs[..n], obs[n]);
      AbsentKeyCountsNothing(obs[..n], k);
    }
  }

  /** One step of the tally. */
  function Bump(acc: seq<(string, (nat, nat))>, e: (string, bool)): seq<(string, (nat, nat))> {
    var i := IndexOfKey(acc, e.0);
    var hit := if e.1 then 1 else 0;
    if i == |acc| then acc + [(e.0, (1, hit))]
    else acc[i := (e.0, (acc[i].1.0 + 1, acc[i].1.1 + hit))]
  }

  /** `t` is the summary of `obs`: one entry per key that occurs, holding the
      number of observations with that key and the number of them flagged. */
  predicate SummaryOf(t: seq<(string, (nat, nat))>, obs: seq<(string, bool)>) {
    && DistinctKeys(t)
    && Keys(t) == Keys(obs)
    && (forall i :: 0 <= i < |t| ==> t[i].1.0 == CountOfKey(obs, t[i].0) && t[i].1.1 == FlaggedOfKey(obs, t[i].0))
  }

  /** The summary object as its entries in first-appearance order. */
  function Tally(obs: seq<(string, bool)>): (r: seq<(string, (nat, nat))>)
    ensures SummaryOf(r, obs)
    ensures forall i :: 0 <= i < |r| ==> 1 <= r[i].1.0 && r[i].1.1 <= r[i].1.0
  {
    if |obs| == 0 then []
    else
      var pre := obs[..|obs| - 1];
      var e := obs[|obs| - 1];
      assert obs == pre + [e];
      var acc := Tally(pre);
      BumpKeepsSummary(acc, pre, e);
      Bump(acc, e)
  }

  lemma BumpKeepsSummary(acc: seq<(string, (nat, nat))>, pre: seq<(string, bool)>, e: (string, bool))
    requires SummaryOf(acc, pre)
    requires forall i :: 0 <= i < |acc| ==> 1 <= acc[i].1.0 && acc[i].1.1 <= acc[i].1.0
    ensures SummaryOf(Bump(acc, e), pre + [e])
    ensures var r := Bump(acc, e); forall i :: 0 <= i < |r| ==> 1 <= r[i].1.0 && r[i].1.1 <= r[i].1.0
  {
    var obs := pre + [e];
    var r := Bump(acc, e);
    assert obs[..|obs| - 1] == pre;
    KeysSnoc(pre, e);
    assert forall k :: CountOfKey(obs, k) == CountOfKey(pre, k) + (if e.0 == k then 1 else 0);
    assert forall k :: FlaggedOfKey(obs, k) == FlaggedOfKey(pre, k) + (if e.0 == k && e.1 then 1 else 0);
    var i := IndexOfKey(acc, e.0);
    if i == |acc| {
      KeysSnoc(acc, (e.0, (1, if e.1 then 1 else 0)));
      AbsentKeyCountsNothing(pre, e.0);
      assert forall j :: 0 <= j < |acc| ==> r[j] == acc[j] && r[j].0 != e.0;
    } else {
      assert forall j :: 0 <= j < |acc| && j != i ==> r[j] == acc[j] && r[j].0 != e.0;
      KeysUpdateSameKey(acc, i, r[i]);
    }
  }

  /** The totals column, added up. */
  function TotalCount(t: seq<(string, (nat, nat))>): nat {
    if |t| == 0 then 0 else TotalCount(t[..|t| - 1]) + t[|t| - 1].1.0
  }

  lemma {:induction false} TotalCountUpdate(t: seq<(string, (nat, nat))>, i: nat, e: (string, (nat, nat)))
    requires i < |t|
    ensures TotalCount(t[i := e]) == TotalCount(t) - t[i].1.0 + e.1.0
  {
    var n := |t| - 1;
    if i < n {
      assert t[i := e][..n] == t[..n][i := e];
      TotalCountUpdate(t[..n], i, e);
    } else {
      assert t[i := e][..n] == t[..n];
    }
  }

  /** Every observation is counted exactly once: the totals add up to the input length. */
  lemma {:induction false} TallyCountsEveryone(obs: seq<(string, bool)>)
    ensures TotalCount(Tally(obs)) == |obs|
  {
    if |obs| > 0 {
      var pre := obs[..|obs| - 1];
      var acc := Tally(pre);
      var e := obs[|obs| - 1];
      TallyCountsEveryone(pre);
      assert Tally(obs) == Bump(acc, e);
      BumpCountsOne(acc, e);
    }
  }

  /** One step of the tally adds one to the totals column. */
  lemma BumpCountsOne(acc: seq<(string, (nat, nat))>, e: (string, bool))
    ensures TotalCount(Bump(acc, e)) == TotalCount(acc) + 1
  {
    var i := IndexOfKey(acc, e.0);
    if i == |acc| {
      assert (acc + [(e.0, (1, if e.1 then 1 else 0))])[..|acc|] == acc;
    } else {
      TotalCountUpdate(acc, i, (e.0, (acc[i].1.0 + 1, acc[i].1.1 + if e.1 then 1 else 0)));
    }
  }

  // ---------------------------------------------------------------------
  // `getByMonth(month)`.
  // ---------------------------------------------------------------------

  /** The columns the report selects. */
  datatype LeadRow = LeadRow(id: int, source: Option<string>, status: string, createdAt: string)

  function Observe(l: LeadRow): (string, bool) {
    (SourceKey(l.source), CountsAsConverted(l.status))
  }

  function Observations(leads: seq<LeadRow>): (r: seq<(string, bool)>)
    ensures |r| == |leads|
    ensures forall i :: 0 <= i < |leads| ==> r[i] == Observe(leads[i])
  {
    seq(|leads|, i requires 0 <= i < |leads| => Observe(leads[i]))
  }

  /** The bounds of the date filter, `created_at >= month-01` and
      `created_at < month-32`, read as text: every stamp of the month lies
      between them and no stamp of another month does. */
  predicate InMonthWindow(createdAt: string, month: string) {
    !LexLess(createdAt, month + "-01") && LexLess(createdAt, month + "-32")
  }

  /** Any timestamp written `month-DD…` with a day 01..31 falls in the window. */
  lemma DaysFallInWindow(month: string, day: nat, rest: string)
    requires 1 <= day <= 31
    ensures InMonthWindow(month + "-" + Pad2(day) + rest, month)
  {
    var p := month + "-";
    var d := Pad2(day);
    Pad2Digits(day);
    assert month + "-" + d + rest == p + (d + rest);
    assert month + "-01" == p + "01";
    assert month + "-32" == p + "32";
    LexCommonPrefix(p, d + rest, "01");
    LexCommonPrefix(p, d + rest, "32");
    assert (d + rest)[0] == d[0];
    if day == 1 {
      assert d + rest == "01" + rest && "01" == "01" + [];
      LexCommonPrefix("01", rest, []);
    } else if day < 10 {
      assert (d + rest)[1..][0] == d[1];
      assert "01"[1..][0] == '1';
    }
  }

  /** A day of the month pads to its two decimal digits. */
  lemma Pad2Digits(day: nat)
    requires day < 100
    ensures Pad2(day) == [DigitChar(day / 10), DigitChar(day % 10)]
  {
    if day >= 10 {
      assert NatToString(day) == NatToString(day / 10) + [DigitChar(day % 10)];
    }
  }

  /** One row of the chart data. */
  datatype SourceRow = SourceRow(source: string, total: nat, converted: nat, conversionRate: real)

  function ToRow(e: (string, (nat, nat))): (r: SourceRow)
    ensures r.source == e.0 && r.total == e.1.0 && r.converted == e.1.1
    ensures IsPercentOf(r.conversionRate, r.converted, r.total)
  {
    PercentOfCounts(e.1.1, e.1.0);
    SourceRow(e.0, e.1.0, e.1.1, Percent(e.1.1 as real, e.1.0 as real))
  }

  /** The leads whose creation stamp falls in the month's window. */
  function InMonth(leads: seq<LeadRow>, month: string): (r: seq<LeadRow>)
    ensures forall l :: l in r <==> l in leads && InMonthWindow(l.createdAt, month)
  {
    Filter(leads, (l: LeadRow) => InMonthWindow(l.createdAt, month))
  }

  function SourcesOf(rows: seq<SourceRow>): set<string> {
    set i | 0 <= i < |rows| :: rows[i].source
  }

  /** The group keys of `leads`. */
  function LeadSources(leads: seq<LeadRow>): set<string> {
    set l | l in leads :: SourceKey(l.source)
  }

  /** `getByMonth(month)` as evidently intended: the leads created in the month,
      with the bounds compared as text, which on `toISOString` stamps is the
      order of the instants. A failed query throws. */
  function GetByMonth(leads: seq<LeadRow>, month: string, fails: bool): (r: Result<seq<SourceRow>, ()>)
    ensures fails <==> r.Err?
    ensures r.Ok? ==> var obs := Observations(InMonth(leads, month));
      && |r.value| == |Tally(obs)|
      && (forall i, j :: 0 <= i < j < |r.value| ==> r.value[i].source != r.value[j].source)
      && SourcesOf(r.value) == LeadSources(InMonth(leads, month))
      && (forall i :: 0 <= i < |r.value| ==>
            && r.value[i].total == CountOfKey(obs, r.value[i].source)
            && r.value[i].converted == FlaggedOfKey(obs, r.value[i].source)
            && 1 <= r.value[i].total && r.value[i].converted <= r.value[i].total
            && IsPercentOf(r.value[i].conversionRate, r.value[i].converted, r.value[i].total))
  {
    if fails then Err(())
    else
      var picked := InMonth(leads, month);
      var obs := Observations(picked);
      var t := Tally(obs);
      var rows := seq(|t|, i requires 0 <= i < |t| => ToRow(t[i]));
      SourcesOfObservations(picked);
      assert SourcesOf(rows) == Keys(t) by {
        forall k ensures k in SourcesOf(rows) <==> k in Keys(t) {
          if k in Keys(t) {
            var i :| 0 <= i < |t| && t[i].0 == k;
            assert rows[i].source == k;
          }
        }
      }
      Ok(rows)
  }

  lemma SourcesOfObservations(leads: seq<LeadRow>)
    ensures Keys(Observations(leads)) == LeadSources(leads)
  {
    var obs := Observations(leads);
    forall k ensures k in Keys(obs) <==> k in LeadSources(leads) {
      if k in Keys(obs) {
        var j :| 0 <= j < |obs| && obs[j].0 == k;
        assert leads[j] in leads;
      }
      if k in LeadSources(leads) {
        var l :| l in leads && SourceKey(l.source) == k;
        var j :| 0 <= j < |leads| && leads[j] == l;
        assert obs[j].0 == k;
      }
    }
  }

  /** The totals of the rows add up to the number of leads in the window. */
  lemma ReportCountsEveryLead(leads: seq<LeadRow>, month: string)
    ensures TotalCount(Tally(Observations(InMonth(leads, month)))) == |InMonth(leads, month)|
  {
    TallyCountsEveryone(Observations(InMonth(leads, month)));
  }

  /** A stamp that does not begin with `month` lies outside the window: its
      first difference from `month` decides both comparisons the same way. */
  lemma OtherMonthsOutsideWindow(createdAt: string, month: string)
    requires |createdAt| >= |month| && createdAt[..|month|] != month
    ensures !InMonthWindow(createdAt, month)
  {
    SameSideOfBothBounds(createdAt, month, "-01", "-32");
  }

  lemma {:induction false} SameSideOfBothBounds(c: string, m: string, t: string, u: string)
    requires |c| >= |m| && c[..|m|] != m
    ensures LexLess(c, m + t) <==> LexLess(c, m + u)
    decreases |m|
  {
    assert |m| > 0;
    if c[0] == m[0] {
      assert c[..|m|] == [c[0]] + c[1..][..|m| - 1];
      assert m == [m[0]] + m[1..];
      assert (m + t)[1..] == m[1..] + t;
      assert (m + u)[1..] == m[1..] + u;
      SameSideOfBothBounds(c[1..], m[1..], t, u);
    }
  }

  // ---------------------------------------------------------------------
  // The bounds as the database reads them
  // ---------------------------------------------------------------------

  predicate LeapYear(year: nat) {
    year % 4 == 0 && (year % 100 != 0 || year % 400 == 0)
  }

  /** The days of a month of the Gregorian calendar. */
  function DaysInMonth(year: nat, month: nat): (r: nat)
    requires 1 <= month <= 12
    ensures 28 <= r <= 31
    ensures r == 31 <==> month in {1, 3, 5, 7, 8, 10, 12}
  {
    if month == 2 then (if LeapYear(year) then 29 else 28)
    else if month == 4 || month == 6 || month == 9 || month == 11 then 30
    else 31
  }

  /** `created_at` is a `TIMESTAMP WITH TIME ZONE` column
      (src/lib/supabase.ts, line 136), so the database reads each bound as a
      date: `YYYY-MM-DD` with a month 1..12 and a day that month has. Any other
      bound is an error. */
  predicate IsCalendarDate(s: string) {
    && |s| == 10 && s[4] == '-' && s[7] == '-'
    && IsDigits(s[..4]) && IsDigits(s[5..7]) && IsDigits(s[8..])
    && 1 <= DigitsToNat(s[5..7]) <= 12
    && 1 <= DigitsToNat(s[8..]) <= DaysInMonth(DigitsToNat(s[..4]), DigitsToNat(s[5..7]))
  }

  /** No month has a 32nd day, so `month-32` is never a date. */
  lemma NoDay32(month: string)
    ensures !IsCalendarDate(month + "-32")
  {
    var s := month + "-32";
    if |s| == 10 && IsDigits(s[8..]) {
      assert s[8..] == "32";
      assert "32"[..1] == "3" && "3"[..0] == "";
      assert DigitsToNat("32") == 32;
    }
  }

  /** `getByMonth(month)` as written: a bound the database cannot read as a
      date makes the query fail, and `if (error) throw error` throws. */
  function GetByMonthAsWritten(leads: seq<LeadRow>, month: string, fails: bool): (r: Result<seq<SourceRow>, ()>)
    ensures fails || !IsCalendarDate(month + "-01") || !IsCalendarDate(month + "-32") ==> r.Err?
    ensures r.Ok? ==> r == GetByMonth(leads, month, false)
  {
    if fails || !IsCalendarDate(month + "-01") || !IsCalendarDate(month + "-32") then Err(())
    else GetByMonth(leads, month, false)
  }

  /** The upper bound is never a date, so the written query throws for every month. */
  lemma MonthQueryAlwaysFails(leads: seq<LeadRow>, month: string, fails: bool)
    ensures GetByMonthAsWritten(leads, month, fails) == Err(())
  {
    NoDay32(month);
  }

  /** The first of a real month is a date: the written query fails only
      because of its upper bound. */
  lemma FirstOfMonthIsDate(year: nat, month: nat)
    requires 1000 <= year <= 9999 && 1 <= month <= 12
    ensures IsCalendarDate(MonthString(year, month) + "-01")
  {
    var y := NatToString(year);
    var p := Pad2(month);
    Pad2Month(month);
    var s := MonthString(year, month) + "-01";
    assert s == y + "-" + p + "-01";
    assert |y| == 4 by { YearHasFourDigits(year); }
    DigitsRoundTrip(year);
    assert s[..4] == y && s[5..7] == p && s[8..] == "01";
    assert "01"[..1] == "0" && "0"[..0] == "";
  }

  lemma YearHasFourDigits(year: nat)
    requires 1000 <= year <= 9999
    ensures |NatToString(year)| == 4
  {
    assert |NatToString(year / 10)| == 3 by {
      assert |NatToString(year / 100)| == 2 by {
        assert |NatToString(year / 1000)| == 1;
      }
    }
  }
}

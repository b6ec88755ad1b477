/** The reports page: the lead chart's per-source summary and the month the
    page opens on (src/app/reports/page.tsx). */
module ReportsPage {
  import opened Strings
  import opened Seqs
  import opened EntityStore
  import opened LeadSourceReport

  /** One bar of the lead chart. */
  datatype LeadBar = LeadBar(source: string, total: nat, qualified: nat)

  function LeadObservations(leads: seq<Lead>): (r: seq<(string, bool)>)
    ensures |r| == |leads|
    ensures forall i :: 0 <= i < |leads| ==>
      r[i] == (SourceKey(leads[i].source), CountsAsConverted(leads[i].status))
  {
    seq(|leads|, i requires 0 <= i < |leads| => (SourceKey(leads[i].source), CountsAsConverted(leads[i].status)))
  }

  function BarSources(bars: seq<LeadBar>): set<string> {
    set i | 0 <= i < |bars| :: bars[i].source
  }

  function BarTotals(bars: seq<LeadBar>): nat {
    if |bars| == 0 then 0 else BarTotals(bars[..|bars| - 1]) + bars[|bars| - 1].total
  }

  /** `loadLeads` after the fetch: one bar per distinct source key. */
  function LeadBars(leads: seq<Lead>): (r: seq<LeadBar>)
    ensures forall i, j :: 0 <= i < j < |r| ==> r[i].source != r[j].source
    ensures BarSources(r) == set l | l in leads :: SourceKey(l.source)
    ensures forall i :: 0 <= i < |r| ==>
      && 1 <= r[i].total && r[i].qualified <= r[i].total
      && r[i].total == CountOfKey(LeadObservations(leads), r[i].source)
      && r[i].qualified == FlaggedOfKey(LeadObservations(leads), r[i].source)
  {
    var obs := LeadObservations(leads);
    var t := Tally(obs);
    var r := seq(|t|, i requires 0 <= i < |t| => LeadBar(t[i].0, t[i].1.0, t[i].1.1));
    assert BarSources(r) == Keys(t) by {
      forall k ensures k in BarSources(r) <==> k in Keys(t) {
        if k in Keys(t) {
          var i :| 0 <= i < |t| && t[i].0 == k;
          assert r[i].source == k;
        }
      }
    }
    assert Keys(obs) == set l | l in leads :: SourceKey(l.source) by {
      forall k ensures k in Keys(obs) <==> k in set l | l in leads :: SourceKey(l.source) {
        if k in Keys(obs) {
          var j :| 0 <= j < |obs| && obs[j].0 == k;
          assert leads[j] in leads;
        }
        if k in set l | l in leads :: SourceKey(l.source) {
          var l :| l in leads && SourceKey(l.source) == k;
          var j :| 0 <= j < |leads| && leads[j] == l;
          assert obs[j].0 == k;
        }
      }
    }
    r
  }

  /** The bars count every lead once. */
  lemma {:induction false} BarsCountEveryLead(leads: seq<Lead>)
    ensures BarTotals(LeadBars(leads)) == |leads|
  {
    var t := Tally(LeadObservations(leads));
    TallyCountsEveryone(LeadObservations(leads));
    BarTotalsMatch(t);
  }

  lemma {:induction false} BarTotalsMatch(t: seq<(string, (nat, nat))>)
    ensures BarTotals(seq(|t|, i requires 0 <= i < |t| => LeadBar(t[i].0, t[i].1.0, t[i].1.1))) == TotalCount(t)
  {
    if |t| > 0 {
      var n := |t| - 1;
      var r := seq(|t|, i requires 0 <= i < |t| => LeadBar(t[i].0, t[i].1.0, t[i].1.1));
      BarTotalsMatch(t[..n]);
      assert r[..n] == seq(n, i requires 0 <= i < n => LeadBar(t[..n][i].0, t[..n][i].1.0, t[..n][i].1.1));
    }
  }

  /** The month the page opens on, from the clock's year and zero-based month. */
  function DefaultMonth(year: int, monthIndex: nat): (r: string)
    requires monthIndex < 12
    ensures |r| >= 4 && r[|r| - 3] == '-' && r[..|r| - 3] == IntToString(year)
    ensures |r| >= 4 ==> IsDigits(r[|r| - 2..]) && DigitsToNat(r[|r| - 2..]) == monthIndex + 1
  {
    Pad2Month(monthIndex + 1);
    var r := MonthString(year, monthIndex + 1);
    assert r == IntToString(year) + "-" + Pad2(monthIndex + 1);
    IntToStringNonEmpty(year);
    r
  }

  lemma IntToStringNonEmpty(i: int)
    ensures |IntToString(i)| >= 1
  {
  }
}

/** The constraint filter: splits the analysis reports of a request into those that
    meet every constraint and those that do not. */
module Filtering {
  import opened Wrappers
  import opened QualityModel
  import opened Operators

  /** The part of an analysis report the filter reads: its normalised metrics. */
  datatype AnalysisReport = AnalysisReport(id: int, qualityMetricsReport: map<QualityMetric, real>)

  /** A user constraint on one metric. */
  datatype Constraint = Constraint(qualityMetric: QualityMetric, operator: QualityMetricOperator, threshold: real)

  /** Constraint.matchOperatorToCondition: whether a constraint accepts the value a
      report has for its metric (None when the report has no such entry, as the Java
      map lookup then yields null). */
  type Matcher = (Constraint, Option<real>) -> bool

  /** Map.get on the report's metrics: the stored value, or None for a metric the
      report does not hold. */
  function MetricValue(report: AnalysisReport, metric: QualityMetric): (v: Option<real>)
    ensures v.Some? <==> metric in report.qualityMetricsReport
    ensures v.Some? ==> v.value == report.qualityMetricsReport[metric]
  {
    if metric in report.qualityMetricsReport then Some(report.qualityMetricsReport[metric]) else None
  }

  /** The allMatch over the constraints: every constraint accepts the report. Like
      allMatch on an empty stream, it holds when there is no constraint. */
  predicate IsCompliant(report: AnalysisReport, constraints: seq<Constraint>, matches: Matcher)
    ensures constraints == [] ==> IsCompliant(report, constraints, matches)
  {
    forall i :: 0 <= i < |constraints| ==>
      matches(constraints[i], MetricValue(report, constraints[i].qualityMetric))
  }

  /** The reports whose compliance equals wanted, in input order: no more reports than
      the input, each of them an input report of the wanted compliance. */
  function Select(reports: seq<AnalysisReport>, constraints: seq<Constraint>, matches: Matcher,
                  wanted: bool): (selected: seq<AnalysisReport>)
    ensures |selected| <= |reports|
    ensures forall r :: r in selected ==> IsCompliant(r, constraints, matches) == wanted
  {
    if reports == [] then []
    else
      var init, last := reports[..|reports| - 1], reports[|reports| - 1];
      Select(init, constraints, matches, wanted)
        + (if IsCompliant(last, constraints, matches) == wanted then [last] else [])
  }

  /** xs is a subsequence of ys through the strictly increasing positions idx. */
  predicate Embeds<T(==)>(idx: seq<int>, xs: seq<T>, ys: seq<T>)
  {
    |idx| == |xs|
    && (forall k :: 0 <= k < |idx| ==> 0 <= idx[k] < |ys| && ys[idx[k]] == xs[k])
    && (forall k :: 0 <= k < |idx| - 1 ==> idx[k] < idx[k + 1])
  }

  /** xs is obtained from ys by deleting elements, keeping the order of the rest. */
  ghost predicate IsSubsequence<T>(xs: seq<T>, ys: seq<T>)
  {
    exists idx: seq<int> :: Embeds(idx, xs, ys)
  }

  /** Every report lands in exactly one of the two lists. */
  lemma {:induction false} SelectSizes(reports: seq<AnalysisReport>, constraints: seq<Constraint>, matches: Matcher)
    ensures |Select(reports, constraints, matches, true)| + |Select(reports, constraints, matches, false)| == |reports|
  {
    if reports != [] {
      SelectSizes(reports[..|reports| - 1], constraints, matches);
    }
  }

  /** Together the two lists hold the input reports, each as often as it occurs. */
  lemma {:induction false} SelectPartition(reports: seq<AnalysisReport>, constraints: seq<Constraint>, matches: Matcher)
    ensures multiset(Select(reports, constraints, matches, true)) + multiset(Select(reports, constraints, matches, false))
         == multiset(reports)
  {
    if reports != [] {
      var init, last := reports[..|reports| - 1], reports[|reports| - 1];
      assert reports == init + [last];
      SelectPartition(init, constraints, matches);
    }
  }

  /** A report is selected exactly when it is an input report of the wanted compliance. */
  lemma {:induction false} SelectMembers(reports: seq<AnalysisReport>, constraints: seq<Constraint>, matches: Matcher,
                                         wanted: bool, report: AnalysisReport)
    ensures report in Select(reports, constraints, matches, wanted) <==>
      (report in reports && IsCompliant(report, constraints, matches) == wanted)
  {
    if reports != [] {
      var init, last := reports[..|reports| - 1], reports[|reports| - 1];
      assert reports == init + [last];
      SelectMembers(init, constraints, matches, wanted, report);
    }
  }

  /** Each list keeps the relative order its members had in the input. */
  lemma {:induction false} SelectKeepsOrder(reports: seq<AnalysisReport>, constraints: seq<Constraint>, matches: Matcher,
                                            wanted: bool)
    ensures IsSubsequence(Select(reports, constraints, matches, wanted), reports)
  {
    var idx := SelectPositions(reports, constraints, matches, wanted);
  }

  /** The input positions of the selected reports. */
  lemma {:induction false} SelectPositions(reports: seq<AnalysisReport>, constraints: seq<Constraint>, matches: Matcher,
                                           wanted: bool)
    returns (idx: seq<int>)
    ensures Embeds(idx, Select(reports, constraints, matches, wanted), reports)
  {
    if reports == [] {
      idx := [];
    } else {
      var init, last := reports[..|reports| - 1], reports[|reports| - 1];
      var before := SelectPositions(init, constraints, matches, wanted);
      var selected := Select(init, constraints, matches, wanted);
      assert forall k :: 0 <= k < |before| ==> reports[before[k]] == init[before[k]];
      if IsCompliant(last, constraints, matches) == wanted {
        assert Select(reports, constraints, matches, wanted) == selected + [last];
        idx := before + [|init|];
      } else {
        assert Select(reports, constraints, matches, wanted) == selected;
        idx := before;
      }
    }
  }

  /** With no constraint every report is compliant: the compliant list is the input
      and the non-compliant list is empty. */
  lemma {:induction false} NoConstraintsAllCompliant(reports: seq<AnalysisReport>, matches: Matcher)
    ensures Select(reports, [], matches, true) == reports
    ensures Select(reports, [], matches, false) == []
  {
    if reports != [] {
      var init := reports[..|reports| - 1];
      NoConstraintsAllCompliant(init, matches);
      assert reports == init + [reports[|reports| - 1]];
    }
  }

  /** Adding a constraint can only move reports from the compliant list to the
      non-compliant one: the new compliant list is a subsequence of the old one and
      the old non-compliant list a subsequence of the new one. */
  lemma {:induction false} ExtraConstraintOnlyRemoves(reports: seq<AnalysisReport>, constraints: seq<Constraint>,
                                                      extra: Constraint, matches: Matcher)
    ensures IsSubsequence(Select(reports, constraints + [extra], matches, true), Select(reports, constraints, matches, true))
    ensures IsSubsequence(Select(reports, constraints, matches, false), Select(reports, constraints + [extra], matches, false))
  {
    var idxTrue := Narrowed(reports, constraints, extra, matches, true);
    var idxFalse := Narrowed(reports, constraints, extra, matches, false);
  }

  /** allMatch over one more constraint: a report meets constraints + [extra] exactly
      when it meets constraints and extra. */
  lemma ComplianceWithExtra(report: AnalysisReport, constraints: seq<Constraint>, extra: Constraint, matches: Matcher)
    ensures IsCompliant(report, constraints + [extra], matches) <==>
      IsCompliant(report, constraints, matches) && matches(extra, MetricValue(report, extra.qualityMetric))
  {
    var more := constraints + [extra];
    assert more[|constraints|] == extra;
    assert forall i :: 0 <= i < |constraints| ==> more[i] == constraints[i];
  }

  /** The positions behind ExtraConstraintOnlyRemoves: for wanted = true the compliant
      list under the extra constraint embeds into the old one; for wanted = false the
      old non-compliant list embeds into the new one. */
  lemma {:induction false} Narrowed(reports: seq<AnalysisReport>, constraints: seq<Constraint>, extra: Constraint,
                                    matches: Matcher, wanted: bool)
    returns (idx: seq<int>)
    ensures wanted ==> Embeds(idx, Select(reports, constraints + [extra], matches, true),
                                   Select(reports, constraints, matches, true))
    ensures !wanted ==> Embeds(idx, Select(reports, constraints, matches, false),
                                    Select(reports, constraints + [extra], matches, false))
  {
    var more := constraints + [extra];
    if reports == [] {
      idx := [];
    } else {
      var init, last := reports[..|reports| - 1], reports[|reports| - 1];
      var before := Narrowed(init, constraints, extra, matches, wanted);
      ComplianceWithExtra(last, constraints, extra, matches);
      var small := if wanted then Select(init, more, matches, true) else Select(init, constraints, matches, false);
      var large := if wanted then Select(init, constraints, matches, true) else Select(init, more, matches, false);
      var inSmall := if wanted then IsCompliant(last, more, matches) else !IsCompliant(last, constraints, matches);
      var inLarge := if wanted then IsCompliant(last, constraints, matches) else !IsCompliant(last, more, matches);
      assert inSmall ==> inLarge;
      var large' := large + (if inLarge then [last] else []);
      assert forall k :: 0 <= k < |before| ==> large'[before[k]] == large[before[k]];
      if inSmall {
        idx := before + [|large|];
      } else {
        idx := before;
      }
    }
  }

  /** filter: walks the reports once, appending each to the compliant list when
      every constraint accepts it and to the non-compliant list otherwise, and
      returns the two lists as [compliant, nonCompliant]. */
  method Filter(reports: seq<AnalysisReport>, constraints: seq<Constraint>, matches: Matcher)
    returns (result: seq<seq<AnalysisReport>>)
    ensures |result| == 2
    ensures result[0] == Select(reports, constraints, matches, true)
    ensures result[1] == Select(reports, constraints, matches, false)
    ensures |result[0]| + |result[1]| == |reports|
    ensures multiset(result[0]) + multiset(result[1]) == multiset(reports)
    ensures forall r :: r in result[0] <==> r in reports && IsCompliant(r, constraints, matches)
    ensures forall r :: r in result[1] <==> r in reports && !IsCompliant(r, constraints, matches)
    ensures constraints == [] ==> result[0] == reports && result[1] == []
  {
    var compliant: seq<AnalysisReport> := [];
    var nonCompliant: seq<AnalysisReport> := [];
    for i := 0 to |reports|
      invariant compliant == Select(reports[..i], constraints, matches, true)
      invariant nonCompliant == Select(reports[..i], constraints, matches, false)
    {
      assert reports[..i + 1][..i] == reports[..i];
      var isCompliant := IsCompliant(reports[i], constraints, matches);
      if isCompliant {
        compliant := compliant + [reports[i]];
      } else {
        nonCompliant := nonCompliant + [reports[i]];
      }
    }
    assert reports[..|reports|] == reports;
    SelectSizes(reports, constraints, matches);
    SelectPartition(reports, constraints, matches);
    forall r ensures r in compliant <==> r in reports && IsCompliant(r, constraints, matches) {
      SelectMembers(reports, constraints, matches, true, r);
    }
    forall r ensures r in nonCompliant <==> r in reports && !IsCompliant(r, constraints, matches) {
      SelectMembers(reports, constraints, matches, false, r);
    }
    if constraints == [] {
      NoConstraintsAllCompliant(reports, matches);
    }
    result := [compliant, nonCompliant];
  }
}

/** The metric normaliser: turns a raw quality-metrics report and the issue and hotspot
    lists of one analysis into a report of utility scores, where higher is better.
    Doubles are modelled as exact reals, so Math.pow(10, -k) is the exact 10^-k. */
module MetricCalculation {
  import opened QualityModel

  /** Remediation effort charged per line of code. */
  const LineCost: real := 0.06

  // ---------------------------------------------------------------------------
  // Simple utility transforms

  /** Utility of a duplication ratio. */
  function DuplicationUtf(duplication: real): (u: real)
    ensures 0.0 <= duplication <= 1.0 ==> 0.0 <= u <= 1.0
    ensures u == 1.0 <==> duplication == 0.0
  {
    1.0 - duplication
  }

  /** Utility of a technical-debt ratio. */
  function TechnicalDebtRatioUtf(technicalDebtRatio: real): (u: real)
    ensures 0.0 <= technicalDebtRatio <= 1.0 ==> 0.0 <= u <= 1.0
    ensures u == 1.0 <==> technicalDebtRatio == 0.0
  {
    1.0 - technicalDebtRatio
  }

  /** Utility of a complexity figure relative to the size of the project. */
  function ComplexityUtf(complexity: real, linesOfCode: real): (u: real)
    requires linesOfCode != 0.0
    ensures 0.0 <= complexity <= linesOfCode ==> 0.0 <= u <= 1.0
    ensures u == 1.0 <==> complexity == 0.0
  {
    1.0 - complexity / linesOfCode
  }

  /** Utility of a security remediation effort relative to the effort budget of the
      project's lines of code. */
  function SecurityRemediationEffortUtf(securityRemediationEffort: real, linesOfCode: real): (u: real)
    requires linesOfCode != 0.0
    ensures 0.0 <= securityRemediationEffort <= linesOfCode * LineCost ==> 0.0 <= u <= 1.0
    ensures u == 1.0 <==> securityRemediationEffort == 0.0
  {
    1.0 - securityRemediationEffort / (linesOfCode * LineCost)
  }

  /** Utility of a reliability remediation effort; the normaliser does not call it
      (its case in the switch is disabled), so it never reaches a report. */
  function ReliabilityRemediationEffortUtf(reliabilityRemediationEffort: real, linesOfCode: real): (u: real)
    requires linesOfCode != 0.0
    ensures 0.0 <= reliabilityRemediationEffort <= linesOfCode * LineCost ==> 0.0 <= u <= 1.0
    ensures u == 1.0 <==> reliabilityRemediationEffort == 0.0
  {
    1.0 - (reliabilityRemediationEffort / (linesOfCode * LineCost))
  }

  /** Larger complexity per line never gives a larger utility. */
  lemma ComplexityUtfAntitone(c1: real, c2: real, linesOfCode: real)
    requires linesOfCode > 0.0 && c1 <= c2
    ensures ComplexityUtf(c2, linesOfCode) <= ComplexityUtf(c1, linesOfCode)
  {
    DivMonotone(c1, c2, linesOfCode);
  }

  /** Larger remediation effort never gives a larger utility. */
  lemma SecurityRemediationEffortUtfAntitone(e1: real, e2: real, linesOfCode: real)
    requires linesOfCode > 0.0 && e1 <= e2
    ensures SecurityRemediationEffortUtf(e2, linesOfCode) <= SecurityRemediationEffortUtf(e1, linesOfCode)
  {
    DivMonotone(e1, e2, linesOfCode * LineCost);
  }

  lemma DivMonotone(a: real, b: real, d: real)
    requires d > 0.0 && a <= b
    ensures a / d <= b / d
  {
    assert b / d - a / d == (b - a) / d;
  }

  // ---------------------------------------------------------------------------
  // Damping of lower tiers

  /** The damping applied to the count of a lower tier: 0 for an empty tier, and
      1 / (1 + 1 / (1 + n)), which lies in [2/3, 1), otherwise. */
  function Utf(count: nat): (u: real)
    ensures count == 0 ==> u == 0.0
    ensures count >= 1 ==> 2.0 / 3.0 <= u < 1.0
  {
    if count == 0 then 0.0
    else
      UtfClosedForm(count);
      1.0 / (1.0 + 1.0 / (1.0 + count as real))
  }

  /** 1 / (1 + 1 / (1 + n)) == (n + 1) / (n + 2), which lies in [2/3, 1) for n >= 1. */
  lemma UtfClosedForm(count: nat)
    requires count >= 1
    ensures 1.0 / (1.0 + 1.0 / (1.0 + count as real)) == (count as real + 1.0) / (count as real + 2.0)
    ensures 2.0 / 3.0 <= (count as real + 1.0) / (count as real + 2.0) < 1.0
  {
    var n := count as real;
    assert 1.0 + 1.0 / (1.0 + n) == (n + 2.0) / (n + 1.0);
    FractionLessOrEqual(2.0, 3.0, n + 1.0, n + 2.0);
    FractionLess(n + 1.0, n + 2.0, 1.0, 1.0);
  }

  /** The damping strictly increases with the count, from 0 on. */
  lemma UtfStrictlyIncreasing(a: nat, b: nat)
    requires a < b
    ensures Utf(a) < Utf(b)
  {
    if a > 0 {
      var x, y := a as real, b as real;
      UtfClosedForm(a);
      UtfClosedForm(b);
      assert (x + 1.0) * (y + 2.0) < (y + 1.0) * (x + 2.0);
      FractionLess(x + 1.0, x + 2.0, y + 1.0, y + 2.0);
    }
  }

  lemma FractionLess(p: real, q: real, r: real, s: real)
    requires q > 0.0 && s > 0.0 && p * s < r * q
    ensures p / q < r / s
  {
    assert p / q == (p * s) / (q * s);
    assert r / s == (r * q) / (q * s);
  }

  lemma FractionLessOrEqual(p: real, q: real, r: real, s: real)
    requires q > 0.0 && s > 0.0 && p * s <= r * q
    ensures p / q <= r / s
  {
    assert p / q == (p * s) / (q * s);
    assert r / s == (r * q) / (q * s);
  }

  // ---------------------------------------------------------------------------
  // Counting findings

  /** Collectors.groupingBy(identity, counting()): every element that occurs is mapped
      to its number of occurrences; elements that do not occur have no key. */
  function GroupCount<T(!new)>(xs: seq<T>): (counts: map<T, nat>)
    ensures forall x :: x in counts <==> x in xs
    ensures forall x :: x in counts ==> counts[x] >= 1
  {
    if xs == [] then map[]
    else
      var init, last := xs[..|xs| - 1], xs[|xs| - 1];
      assert xs == init + [last];
      var rest := GroupCount(init);
      rest[last := if last in rest then rest[last] + 1 else 1]
  }

  /** Map.getOrDefault(key, 0L): the stored count of a present key, 0 for an absent one. */
  function CountOf<T>(counts: map<T, nat>, key: T): (n: nat)
    ensures key in counts ==> n == counts[key]
    ensures key !in counts ==> n == 0
  {
    if key in counts then counts[key] else 0
  }

  /** The count read from the grouping is the number of occurrences of the key. */
  lemma {:induction false} GroupCountMultiplicity<T(!new)>(xs: seq<T>, key: T)
    ensures CountOf(GroupCount(xs), key) == multiset(xs)[key]
  {
    if xs != [] {
      var init, last := xs[..|xs| - 1], xs[|xs| - 1];
      assert xs == init + [last];
      GroupCountMultiplicity(init, key);
      assert multiset(xs) == multiset(init) + multiset{last};
    }
  }

  /** Whether the list holds an issue of the given type and severity. */
  predicate HasIssue(issues: seq<IssueDetails>, issueType: string, severity: Severity)
  {
    exists i :: 0 <= i < |issues| && issues[i].issueType == issueType && issues[i].severity == severity
  }

  /** Whether the list holds a hotspot of the given vulnerability probability. */
  predicate HasHotspot(hotspots: seq<HotspotDetails>, probability: VulnerabilityProbability)
  {
    exists i :: 0 <= i < |hotspots| && hotspots[i].vulnerabilityProbability == probability
  }

  /** The severities of the issues whose type equals the given tag, in list order. */
  function SeveritiesOfType(issues: seq<IssueDetails>, issueType: string): (severities: seq<Severity>)
    ensures |severities| <= |issues|
    ensures forall s :: s in severities <==> HasIssue(issues, issueType, s)
  {
    if issues == [] then []
    else
      var rest := SeveritiesOfType(issues[1..], issueType);
      assert forall s :: HasIssue(issues, issueType, s) <==>
        (issues[0].issueType == issueType && issues[0].severity == s) || HasIssue(issues[1..], issueType, s)
      by {
        forall s | HasIssue(issues, issueType, s) && !(issues[0].issueType == issueType && issues[0].severity == s)
          ensures HasIssue(issues[1..], issueType, s)
        {
          var i :| 0 <= i < |issues| && issues[i].issueType == issueType && issues[i].severity == s;
          assert issues[1..][i - 1] == issues[i];
        }
        forall s | HasIssue(issues[1..], issueType, s) ensures HasIssue(issues, issueType, s) {
          var i :| 0 <= i < |issues[1..]| && issues[1..][i].issueType == issueType && issues[1..][i].severity == s;
          assert issues[i + 1] == issues[1..][i];
        }
      }
      (if issues[0].issueType == issueType then [issues[0].severity] else []) + rest
  }

  /** The number of issues of the given type per severity; only severities that occur
      have a key. */
  function CountSeverityByType(issues: seq<IssueDetails>, issueType: string): (counts: map<Severity, nat>)
    ensures forall s :: s in counts <==> HasIssue(issues, issueType, s)
    ensures forall s :: s in counts ==> counts[s] >= 1
  {
    GroupCount(SeveritiesOfType(issues, issueType))
  }

  /** The vulnerability probabilities of the hotspots, in list order. */
  function ProbabilitiesOf(hotspots: seq<HotspotDetails>): (probabilities: seq<VulnerabilityProbability>)
    ensures |probabilities| == |hotspots|
    ensures forall p :: p in probabilities <==> HasHotspot(hotspots, p)
  {
    var probabilities := seq(|hotspots|, k requires 0 <= k < |hotspots| => hotspots[k].vulnerabilityProbability);
    assert forall p :: p in probabilities <==> HasHotspot(hotspots, p) by {
      forall p | p in probabilities ensures HasHotspot(hotspots, p) {
        var k :| 0 <= k < |probabilities| && probabilities[k] == p;
        assert hotspots[k].vulnerabilityProbability == p;
      }
      forall p | HasHotspot(hotspots, p) ensures p in probabilities {
        var k :| 0 <= k < |hotspots| && hotspots[k].vulnerabilityProbability == p;
        assert probabilities[k] == p;
      }
    }
    probabilities
  }

  /** The number of hotspots per vulnerability probability; only probabilities that
      occur have a key. */
  function CountVulnerabilityProbabilityByType(hotspots: seq<HotspotDetails>): (counts: map<VulnerabilityProbability, nat>)
    ensures forall p :: p in counts <==> HasHotspot(hotspots, p)
    ensures forall p :: p in counts ==> counts[p] >= 1
  {
    GroupCount(ProbabilitiesOf(hotspots))
  }

  // ---------------------------------------------------------------------------
  // The quotient of the most severe populated tier

  /** unit * 1 / (count * correction): the part of a score that the most severe
      populated tier contributes, where correction is 1 plus the damped lower tiers. */
  function Share(unit: real, count: nat, correction: real): (s: real)
    requires unit > 0.0 && count >= 1 && correction >= 1.0
    ensures 0.0 < s <= unit / correction <= unit
  {
    var d := count as real * correction;
    ProductAtLeast(count as real, correction);
    FractionLessOrEqual(unit, d, unit, correction);
    FractionLessOrEqual(unit, correction, unit, 1.0);
    unit * 1.0 / d
  }

  /** n * k >= k when n >= 1 and k >= 0. */
  lemma ProductAtLeast(n: real, k: real)
    requires n >= 1.0 && k >= 0.0
    ensures n * k >= k
  {
    var e := n - 1.0;
    assert n * k == k + e * k;
    assert e * k >= 0.0;
  }

  /** A larger count of the deciding tier gives a strictly smaller share. */
  lemma ShareCountAntitone(unit: real, n: nat, m: nat, k: real)
    requires unit > 0.0 && 1 <= n < m && k >= 1.0
    ensures Share(unit, m, k) < Share(unit, n, k)
  {
    var x, y := n as real * k, m as real * k;
    assert y - x == (m as real - n as real) * k;
    assert (m as real - n as real) * k > 0.0;
    FractionLess(unit, y, unit, x);
  }

  /** A larger correction (more damped lower-tier findings) gives a strictly smaller
      share. */
  lemma ShareCorrectionAntitone(unit: real, n: nat, k: real, k': real)
    requires unit > 0.0 && n >= 1 && 1.0 <= k < k'
    ensures Share(unit, n, k') < Share(unit, n, k)
  {
    var x, y := n as real * k, n as real * k';
    assert y - x == n as real * (k' - k);
    assert n as real * (k' - k) > 0.0;
    FractionLess(unit, y, unit, x);
  }

  // ---------------------------------------------------------------------------
  // Severity cascade for bugs and vulnerabilities

  /** Issue counts per severity tier. */
  datatype SeverityTally = SeverityTally(blocker: nat, critical: nat, major: nat, minor: nat, info: nat)
  {
    /** This tally with one more issue of the given severity. */
    function Bump(s: Severity): SeverityTally
    {
      match s
      case BLOCKER => this.(blocker := blocker + 1)
      case CRITICAL => this.(critical := critical + 1)
      case MAJOR => this.(major := major + 1)
      case MINOR => this.(minor := minor + 1)
      case INFO => this.(info := info + 1)
    }
  }

  const NoIssues := SeverityTally(0, 0, 0, 0, 0)

  /** The factor beside the BLOCKER count: 1 plus the damped lower tiers; it is 1
      exactly when no lower tier is populated. */
  function BlockerCorrection(t: SeverityTally): (c: real)
    ensures 1.0 <= c < 1.1111
    ensures c == 1.0 <==> t.critical == 0 && t.major == 0 && t.minor == 0 && t.info == 0
  {
    1.0 + 0.1 * Utf(t.critical) + 0.01 * Utf(t.major) + 0.001 * Utf(t.minor) + 0.0001 * Utf(t.info)
  }

  /** The factor beside the CRITICAL count. */
  function CriticalCorrection(t: SeverityTally): (c: real)
    ensures 1.0 <= c < 1.111
    ensures c == 1.0 <==> t.major == 0 && t.minor == 0 && t.info == 0
  {
    1.0 + 0.1 * Utf(t.major) + 0.01 * Utf(t.minor) + 0.001 * Utf(t.info)
  }

  /** The factor beside the MAJOR count. */
  function MajorCorrection(t: SeverityTally): (c: real)
    ensures 1.0 <= c < 1.11
    ensures c == 1.0 <==> t.minor == 0 && t.info == 0
  {
    1.0 + 0.1 * Utf(t.minor) + 0.01 * Utf(t.info)
  }

  /** The factor beside the MINOR count. */
  function MinorCorrection(t: SeverityTally): (c: real)
    ensures 1.0 <= c < 1.1
    ensures c == 1.0 <==> t.info == 0
  {
    1.0 + 0.1 * Utf(t.info)
  }

  /** The tier cascade: the most severe populated tier picks a band of width 0.2 and
      its count divides the band's unit, while the lower tiers enter damped. */
  function SeverityCascade(t: SeverityTally): (score: real)
    ensures t.blocker > 0 ==> 0.0 < score <= 0.2
    ensures t.blocker == 0 && t.critical > 0 ==> 0.2 < score <= 0.4
    ensures t.blocker == 0 && t.critical == 0 && t.major > 0 ==> 0.4 < score <= 0.6
    ensures t.blocker == 0 && t.critical == 0 && t.major == 0 && t.minor > 0 ==> 0.6 < score <= 0.8
    ensures t.blocker == 0 && t.critical == 0 && t.major == 0 && t.minor == 0 && t.info > 0 ==> 0.8 < score <= 1.0
    ensures t == NoIssues ==> score == 1.0
  {
    if t.blocker > 0 then Share(0.2, t.blocker, BlockerCorrection(t))
    else if t.critical > 0 then Share(0.2, t.critical, CriticalCorrection(t)) + 0.2
    else if t.major > 0 then Share(0.2, t.major, MajorCorrection(t)) + 0.4
    else if t.minor > 0 then Share(0.2, t.minor, MinorCorrection(t)) + 0.6
    else if t.info > 0 then Share(0.2, t.info, 1.0) + 0.8
    else 1.0
  }

  /** One more issue never raises the score, and always lowers it unless the tally
      was empty and the new issue is INFO (a single INFO issue scores 1.0, as no issue
      does). */
  lemma {:induction false} SeverityCascadeAntitone(t: SeverityTally, s: Severity)
    ensures SeverityCascade(t.Bump(s)) <= SeverityCascade(t)
    ensures !(t == NoIssues && s == INFO) ==> SeverityCascade(t.Bump(s)) < SeverityCascade(t)
  {
    var u := t.Bump(s);
    if t.blocker > 0 {
      match s
      case BLOCKER => ShareCountAntitone(0.2, t.blocker, u.blocker, BlockerCorrection(t));
      case CRITICAL =>
        UtfStrictlyIncreasing(t.critical, u.critical);
        ShareCorrectionAntitone(0.2, t.blocker, BlockerCorrection(t), BlockerCorrection(u));
      case MAJOR =>
        UtfStrictlyIncreasing(t.major, u.major);
        ShareCorrectionAntitone(0.2, t.blocker, BlockerCorrection(t), BlockerCorrection(u));
      case MINOR =>
        UtfStrictlyIncreasing(t.minor, u.minor);
        ShareCorrectionAntitone(0.2, t.blocker, BlockerCorrection(t), BlockerCorrection(u));
      case INFO =>
        UtfStrictlyIncreasing(t.info, u.info);
        ShareCorrectionAntitone(0.2, t.blocker, BlockerCorrection(t), BlockerCorrection(u));
    } else if t.critical > 0 {
      match s
      case BLOCKER =>
      case CRITICAL => ShareCountAntitone(0.2, t.critical, u.critical, CriticalCorrection(t));
      case MAJOR =>
        UtfStrictlyIncreasing(t.major, u.major);
        ShareCorrectionAntitone(0.2, t.critical, CriticalCorrection(t), CriticalCorrection(u));
      case MINOR =>
        UtfStrictlyIncreasing(t.minor, u.minor);
        ShareCorrectionAntitone(0.2, t.critical, CriticalCorrection(t), CriticalCorrection(u));
      case INFO =>
        UtfStrictlyIncreasing(t.info, u.info);
        ShareCorrectionAntitone(0.2, t.critical, CriticalCorrection(t), CriticalCorrection(u));
    } else if t.major > 0 {
      match s
      case BLOCKER =>
      case CRITICAL =>
      case MAJOR => ShareCountAntitone(0.2, t.major, u.major, MajorCorrection(t));
      case MINOR =>
        UtfStrictlyIncreasing(t.minor, u.minor);
        ShareCorrectionAntitone(0.2, t.major, MajorCorrection(t), MajorCorrection(u));
      case INFO =>
        UtfStrictlyIncreasing(t.info, u.info);
        ShareCorrectionAntitone(0.2, t.major, MajorCorrection(t), MajorCorrection(u));
    } else if t.minor > 0 {
      match s
      case BLOCKER =>
      case CRITICAL =>
      case MAJOR =>
      case MINOR => ShareCountAntitone(0.2, t.minor, u.minor, MinorCorrection(t));
      case INFO =>
        UtfStrictlyIncreasing(t.info, u.info);
        ShareCorrectionAntitone(0.2, t.minor, MinorCorrection(t), MinorCorrection(u));
    } else if t.info > 0 {
      match s
      case BLOCKER =>
      case CRITICAL =>
      case MAJOR =>
      case MINOR =>
      case INFO => ShareCountAntitone(0.2, t.info, u.info, 1.0);
    }
  }

  /** Holding the lower tiers fixed, more issues in the most severe populated tier
      give a strictly lower score. */
  lemma SeverityCascadeTopTierStrict(t: SeverityTally, extra: nat)
    requires extra >= 1
    ensures t.blocker > 0 ==> SeverityCascade(t.(blocker := t.blocker + extra)) < SeverityCascade(t)
    ensures t.blocker == 0 && t.critical > 0 ==>
      SeverityCascade(t.(critical := t.critical + extra)) < SeverityCascade(t)
    ensures t.blocker == 0 && t.critical == 0 && t.major > 0 ==>
      SeverityCascade(t.(major := t.major + extra)) < SeverityCascade(t)
    ensures t.blocker == 0 && t.critical == 0 && t.major == 0 && t.minor > 0 ==>
      SeverityCascade(t.(minor := t.minor + extra)) < SeverityCascade(t)
    ensures t.blocker == 0 && t.critical == 0 && t.major == 0 && t.minor == 0 && t.info > 0 ==>
      SeverityCascade(t.(info := t.info + extra)) < SeverityCascade(t)
  {
    if t.blocker > 0 {
      ShareCountAntitone(0.2, t.blocker, t.blocker + extra, BlockerCorrection(t));
    } else if t.critical > 0 {
      ShareCountAntitone(0.2, t.critical, t.critical + extra, CriticalCorrection(t));
    } else if t.major > 0 {
      ShareCountAntitone(0.2, t.major, t.major + extra, MajorCorrection(t));
    } else if t.minor > 0 {
      ShareCountAntitone(0.2, t.minor, t.minor + extra, MinorCorrection(t));
    } else if t.info > 0 {
      ShareCountAntitone(0.2, t.info, t.info + extra, 1.0);
    }
  }

  /** Reads the five per-severity counts of a grouping with a default of 0; the tally is
      empty exactly when no severity has a positive count. */
  function TallyOfCounts(counts: map<Severity, nat>): (t: SeverityTally)
    ensures t == NoIssues <==> forall s :: CountOf(counts, s) == 0
  {
    var t := SeverityTally(CountOf(counts, BLOCKER), CountOf(counts, CRITICAL), CountOf(counts, MAJOR),
                           CountOf(counts, MINOR), CountOf(counts, INFO));
    assert t == NoIssues ==> forall s :: CountOf(counts, s) == 0 by {
      if t == NoIssues {
        forall s ensures CountOf(counts, s) == 0 {
          assert s.BLOCKER? || s.CRITICAL? || s.MAJOR? || s.MINOR? || s.INFO?;
        }
      }
    }
    t
  }

  /** The issue counts per severity for one type tag, read with a default of 0: a tier
      is populated exactly when an issue of the tag has that severity. */
  function SeverityTallyOf(issues: seq<IssueDetails>, issueType: string): (t: SeverityTally)
    ensures t.blocker > 0 <==> HasIssue(issues, issueType, BLOCKER)
    ensures t.critical > 0 <==> HasIssue(issues, issueType, CRITICAL)
    ensures t.major > 0 <==> HasIssue(issues, issueType, MAJOR)
    ensures t.minor > 0 <==> HasIssue(issues, issueType, MINOR)
    ensures t.info > 0 <==> HasIssue(issues, issueType, INFO)
    ensures t == NoIssues <==> forall s :: !HasIssue(issues, issueType, s)
  {
    TallyOfCounts(CountSeverityByType(issues, issueType))
  }

  /** The bug-severity or vulnerability-severity score of an issue list. */
  function ApplyMetricsUtf(issues: seq<IssueDetails>, issueType: string): (score: real)
    ensures 0.0 < score <= 1.0
    ensures (forall s :: !HasIssue(issues, issueType, s)) ==> score == 1.0
    ensures HasIssue(issues, issueType, BLOCKER) ==> 0.0 < score <= 0.2
    ensures (!HasIssue(issues, issueType, BLOCKER) && HasIssue(issues, issueType, CRITICAL))
      ==> 0.2 < score <= 0.4
    ensures (!HasIssue(issues, issueType, BLOCKER) && !HasIssue(issues, issueType, CRITICAL)
             && HasIssue(issues, issueType, MAJOR))
      ==> 0.4 < score <= 0.6
    ensures (!HasIssue(issues, issueType, BLOCKER) && !HasIssue(issues, issueType, CRITICAL)
             && !HasIssue(issues, issueType, MAJOR) && HasIssue(issues, issueType, MINOR))
      ==> 0.6 < score <= 0.8
    ensures (!HasIssue(issues, issueType, BLOCKER) && !HasIssue(issues, issueType, CRITICAL)
             && !HasIssue(issues, issueType, MAJOR) && !HasIssue(issues, issueType, MINOR)
             && HasIssue(issues, issueType, INFO))
      ==> 0.8 < score <= 1.0
  {
    SeverityCascade(SeverityTallyOf(issues, issueType))
  }

  lemma {:induction false} SeveritiesOfTypeAppend(a: seq<IssueDetails>, b: seq<IssueDetails>, issueType: string)
    ensures SeveritiesOfType(a + b, issueType) == SeveritiesOfType(a, issueType) + SeveritiesOfType(b, issueType)
  {
    if a == [] {
      assert a + b == b;
    } else {
      var head := if a[0].issueType == issueType then [a[0].severity] else [];
      assert (a + b)[0] == a[0];
      assert (a + b)[1..] == a[1..] + b;
      SeveritiesOfTypeAppend(a[1..], b, issueType);
      assert SeveritiesOfType(a + b, issueType) == head + SeveritiesOfType(a[1..] + b, issueType);
      assert SeveritiesOfType(a, issueType) == head + SeveritiesOfType(a[1..], issueType);
    }
  }

  lemma SeveritiesOfTypeSingle(x: IssueDetails, issueType: string)
    ensures SeveritiesOfType([x], issueType) == if x.issueType == issueType then [x.severity] else []
  {
    assert [x][1..] == [];
  }

  /** An issue whose type differs from the tag, wherever it stands in the list, does
      not change that tag's score. */
  lemma OtherTypesIgnored(before: seq<IssueDetails>, x: IssueDetails, after: seq<IssueDetails>, issueType: string)
    requires x.issueType != issueType
    ensures ApplyMetricsUtf(before + [x] + after, issueType) == ApplyMetricsUtf(before + after, issueType)
  {
    SeveritiesOfTypeAppend(before + [x], after, issueType);
    SeveritiesOfTypeAppend(before, [x], issueType);
    SeveritiesOfTypeSingle(x, issueType);
    SeveritiesOfTypeAppend(before, after, issueType);
    assert SeveritiesOfType(before + [x], issueType) + SeveritiesOfType(after, issueType)
        == SeveritiesOfType(before, issueType) + SeveritiesOfType(after, issueType);
  }

  lemma GroupCountAppend<T(!new)>(xs: seq<T>, y: T, key: T)
    ensures CountOf(GroupCount(xs + [y]), key) == CountOf(GroupCount(xs), key) + (if y == key then 1 else 0)
  {
    GroupCountMultiplicity(xs + [y], key);
    GroupCountMultiplicity(xs, key);
    assert multiset(xs + [y]) == multiset(xs) + multiset{y};
  }

  lemma TallyOfCountsAppend(severities: seq<Severity>, s: Severity)
    ensures TallyOfCounts(GroupCount(severities + [s])) == TallyOfCounts(GroupCount(severities)).Bump(s)
  {
    GroupCountAppend(severities, s, BLOCKER);
    GroupCountAppend(severities, s, CRITICAL);
    GroupCountAppend(severities, s, MAJOR);
    GroupCountAppend(severities, s, MINOR);
    GroupCountAppend(severities, s, INFO);
  }

  /** Appending an issue of the tag's type adds one to the tally of its severity. */
  lemma SeverityTallyAppend(issues: seq<IssueDetails>, x: IssueDetails, issueType: string)
    requires x.issueType == issueType
    ensures SeverityTallyOf(issues + [x], issueType) == SeverityTallyOf(issues, issueType).Bump(x.severity)
  {
    SeveritiesOfTypeAppend(issues, [x], issueType);
    SeveritiesOfTypeSingle(x, issueType);
    var before := SeveritiesOfType(issues, issueType);
    assert SeveritiesOfType(issues + [x], issueType) == before + [x.severity];
    TallyOfCountsAppend(before, x.severity);
  }

  /** One more issue of the tag's type never raises its score, and lowers it unless it
      is a single INFO issue on a list with no issue of the tag. */
  lemma MoreIssuesNeverRaiseScore(issues: seq<IssueDetails>, x: IssueDetails, issueType: string)
    requires x.issueType == issueType
    ensures ApplyMetricsUtf(issues + [x], issueType) <= ApplyMetricsUtf(issues, issueType)
    ensures !(x.severity == INFO && forall s :: !HasIssue(issues, issueType, s)) ==>
      ApplyMetricsUtf(issues + [x], issueType) < ApplyMetricsUtf(issues, issueType)
  {
    SeverityTallyAppend(issues, x, issueType);
    SeverityCascadeAntitone(SeverityTallyOf(issues, issueType), x.severity);
  }

  // ---------------------------------------------------------------------------
  // Hotspot priority

  /** Hotspot counts per vulnerability probability. */
  datatype ProbabilityTally = ProbabilityTally(high: nat, medium: nat, low: nat)
  {
    /** This tally with one more hotspot of the given probability. */
    function Bump(p: VulnerabilityProbability): ProbabilityTally
    {
      match p
      case HIGH => this.(high := high + 1)
      case MEDIUM => this.(medium := medium + 1)
      case LOW => this.(low := low + 1)
    }
  }

  /** The three-tier cascade with unit 0.33. In the MEDIUM branch the 0.33 stands
      inside the denominator, beside the damped LOW term, not after the quotient. */
  function HotspotCascade(t: ProbabilityTally): (score: real)
    ensures t.high > 0 ==> 0.0 < score <= 0.33
    ensures t.high == 0 && t.medium > 0 ==> 0.0 < score <= 0.33 / 1.33
    ensures t.high == 0 && t.medium == 0 && t.low > 0 ==> 0.66 < score <= 0.99
    ensures t == ProbabilityTally(0, 0, 0) ==> score == 1.0
  {
    if t.high > 0 then Share(0.33, t.high, HighCorrection(t))
    else if t.medium > 0 then
      FractionLessOrEqual(0.33, MediumCorrection(t), 0.33, 1.33);
      Share(0.33, t.medium, MediumCorrection(t))
    else if t.low > 0 then Share(0.33, t.low, 1.0) + 0.66
    else 1.0
  }

  /** The factor beside the HIGH count: 1 plus the damped lower tiers; it is 1
      exactly when no lower tier is populated. */
  function HighCorrection(t: ProbabilityTally): (c: real)
    ensures 1.0 <= c < 1.11
    ensures c == 1.0 <==> t.medium == 0 && t.low == 0
  {
    1.0 + 0.1 * Utf(t.medium) + 0.01 * Utf(t.low)
  }

  /** The factor beside the MEDIUM count, with the 0.33 inside the denominator: never below 1.33,
      and 1.33 exactly when there is no LOW hotspot. */
  function MediumCorrection(t: ProbabilityTally): (c: real)
    ensures 1.33 <= c < 1.43
    ensures c == 1.33 <==> t.low == 0
  {
    1.0 + 0.1 * Utf(t.low) + 0.33
  }

  /** On the tally level: a HIGH hotspot next to a MEDIUM one raises the priority
      score from 0.33 / 1.33 to 0.33 / (1 + 0.1 * 2/3). */
  lemma HighAfterMediumRaisesCascade()
    ensures HotspotCascade(ProbabilityTally(0, 1, 0)) == 0.33 / 1.33
    ensures HotspotCascade(ProbabilityTally(1, 1, 0)) == 0.33 / (1.0 + 0.1 * (2.0 / 3.0))
    ensures HotspotCascade(ProbabilityTally(1, 1, 0)) > HotspotCascade(ProbabilityTally(0, 1, 0))
  {
    UtfClosedForm(1);
    assert Utf(1) == 2.0 / 3.0;
    FractionLess(0.33, 1.33, 0.33, 1.0 + 0.1 * (2.0 / 3.0));
  }

  /** Where the cascade is monotone: one more MEDIUM or LOW hotspot always lowers the
      score; one more HIGH hotspot lowers it unless a MEDIUM one is present without
      any HIGH one (see HighAfterMediumRaisesCascade). */
  lemma {:induction false} HotspotCascadeAntitone(t: ProbabilityTally, p: VulnerabilityProbability)
    requires !(p == HIGH && t.high == 0 && t.medium > 0)
    ensures HotspotCascade(t.Bump(p)) < HotspotCascade(t)
  {
    var u := t.Bump(p);
    if t.high > 0 {
      match p
      case HIGH => ShareCountAntitone(0.33, t.high, u.high, HighCorrection(t));
      case MEDIUM =>
        UtfStrictlyIncreasing(t.medium, u.medium);
        ShareCorrectionAntitone(0.33, t.high, HighCorrection(t), HighCorrection(u));
      case LOW =>
        UtfStrictlyIncreasing(t.low, u.low);
        ShareCorrectionAntitone(0.33, t.high, HighCorrection(t), HighCorrection(u));
    } else if t.medium > 0 {
      match p
      case MEDIUM => ShareCountAntitone(0.33, t.medium, u.medium, MediumCorrection(t));
      case LOW =>
        UtfStrictlyIncreasing(t.low, u.low);
        ShareCorrectionAntitone(0.33, t.medium, MediumCorrection(t), MediumCorrection(u));
    } else if t.low > 0 {
      match p
      case HIGH =>
      case MEDIUM =>
      case LOW => ShareCountAntitone(0.33, t.low, u.low, 1.0);
    }
  }

  /** The hotspot counts per probability, read with a default of 0: a tier is
      populated exactly when some hotspot has that probability, and the tally is empty
      exactly when there is no hotspot. */
  function ProbabilityTallyOf(hotspots: seq<HotspotDetails>): (t: ProbabilityTally)
    ensures t.high > 0 <==> HasHotspot(hotspots, HIGH)
    ensures t.medium > 0 <==> HasHotspot(hotspots, MEDIUM)
    ensures t.low > 0 <==> HasHotspot(hotspots, LOW)
    ensures t == ProbabilityTally(0, 0, 0) <==> hotspots == []
  {
    var counts := CountVulnerabilityProbabilityByType(hotspots);
    assert hotspots != [] ==> HasHotspot(hotspots, hotspots[0].vulnerabilityProbability);
    ProbabilityTally(CountOf(counts, HIGH), CountOf(counts, MEDIUM), CountOf(counts, LOW))
  }

  /** The hotspot-priority score of a hotspot list. */
  function ApplyHotSpotPriorityUtf(hotspots: seq<HotspotDetails>): (score: real)
    ensures 0.0 < score <= 1.0
    ensures hotspots == [] ==> score == 1.0
    ensures HasHotspot(hotspots, HIGH) ==> 0.0 < score <= 0.33
    ensures !HasHotspot(hotspots, HIGH) && HasHotspot(hotspots, MEDIUM) ==> 0.0 < score <= 0.33 / 1.33
    ensures !HasHotspot(hotspots, HIGH) && !HasHotspot(hotspots, MEDIUM) && HasHotspot(hotspots, LOW) ==>
      0.66 < score <= 0.99
  {
    HotspotCascade(ProbabilityTallyOf(hotspots))
  }

  lemma ProbabilityTallyAppend(hotspots: seq<HotspotDetails>, x: HotspotDetails)
    ensures ProbabilityTallyOf(hotspots + [x]) == ProbabilityTallyOf(hotspots).Bump(x.vulnerabilityProbability)
  {
    var before := ProbabilitiesOf(hotspots);
    assert ProbabilitiesOf(hotspots + [x]) == before + [x.vulnerabilityProbability];
    GroupCountAppend(before, x.vulnerabilityProbability, HIGH);
    GroupCountAppend(before, x.vulnerabilityProbability, MEDIUM);
    GroupCountAppend(before, x.vulnerabilityProbability, LOW);
  }

  /** On the list level: a report with one MEDIUM hotspot scores lower than the same
      report with a HIGH hotspot added, so a more likely vulnerability can improve the
      hotspot priority. */
  lemma HighAfterMediumRaisesPriority()
    ensures ApplyHotSpotPriorityUtf([HotspotDetails(MEDIUM), HotspotDetails(HIGH)])
          > ApplyHotSpotPriorityUtf([HotspotDetails(MEDIUM)])
  {
    ProbabilityTallyAppend([], HotspotDetails(MEDIUM));
    ProbabilityTallyAppend([HotspotDetails(MEDIUM)], HotspotDetails(HIGH));
    assert [] + [HotspotDetails(MEDIUM)] == [HotspotDetails(MEDIUM)];
    assert [HotspotDetails(MEDIUM)] + [HotspotDetails(HIGH)] == [HotspotDetails(MEDIUM), HotspotDetails(HIGH)];
    assert ProbabilityTallyOf([]) == ProbabilityTally(0, 0, 0);
    HighAfterMediumRaisesCascade();
  }

  /** One more hotspot lowers the priority score, except for a HIGH hotspot added to a
      list with MEDIUM but no HIGH hotspots. */
  lemma MoreHotspotsLowerPriority(hotspots: seq<HotspotDetails>, x: HotspotDetails)
    requires !(x.vulnerabilityProbability == HIGH && !HasHotspot(hotspots, HIGH) && HasHotspot(hotspots, MEDIUM))
    ensures ApplyHotSpotPriorityUtf(hotspots + [x]) < ApplyHotSpotPriorityUtf(hotspots)
  {
    ProbabilityTallyAppend(hotspots, x);
    HotspotCascadeAntitone(ProbabilityTallyOf(hotspots), x.vulnerabilityProbability);
  }

  // ---------------------------------------------------------------------------
  // The normaliser

  /** Why the normaliser cannot produce a report. */
  datatype NormalizeError =
    | MissingLinesOfCode  // a value needs LINES_OF_CODE and the report has none
    | ZeroLinesOfCode     // a value would be divided by LINES_OF_CODE = 0

  /** The outcome of the normaliser: the new report, or why there is none. A datatype
      of its own rather than the generic Result, which made the real arithmetic of
      the proofs about it costlier. */
  datatype Normalized =
    | Success(value: map<QualityMetric, real>)
    | Failure(error: NormalizeError)

  /** The metrics the switch of the normaliser rewrites. */
  const Rewritten: set<QualityMetric> :=
    {DUPLICATION, TECHNICAL_DEBT_RATIO, CYCLOMATIC_COMPLEXITY, COGNITIVE_COMPLEXITY, SECURITY_REMEDIATION_EFFORT}

  /** The rewritten metrics whose utility is relative to LINES_OF_CODE. */
  const ScaledByLinesOfCode: set<QualityMetric> :=
    {CYCLOMATIC_COMPLEXITY, COGNITIVE_COMPLEXITY, SECURITY_REMEDIATION_EFFORT}

  /** The composite scores computed from the findings. */
  const Composite: set<QualityMetric> := {BUG_SEVERITY, VULNERABILITY_SEVERITY, HOTSPOT_PRIORITY}

  /** The LINES_OF_CODE entry of a report, or 0 when it has none. */
  function LinesOfCodeOrZero(metricsReport: map<QualityMetric, real>): real
  {
    if LINES_OF_CODE in metricsReport then metricsReport[LINES_OF_CODE] else 0.0
  }

  /** Whether the report holds a metric that the normaliser divides by LINES_OF_CODE. */
  predicate NeedsLinesOfCode(metricsReport: map<QualityMetric, real>)
  {
    CYCLOMATIC_COMPLEXITY in metricsReport || COGNITIVE_COMPLEXITY in metricsReport
      || SECURITY_REMEDIATION_EFFORT in metricsReport
  }

  /** Whether a raw value lies in the range for which its utility lies in [0, 1]:
      ratios in [0, 1], complexities at most one per line of code, security
      remediation effort within the budget of the lines of code. Metrics the
      normaliser drops or recomputes accept any value. */
  predicate InRange(metric: QualityMetric, value: real, linesOfCode: real)
  {
    if metric == COMMENT_RATE || metric == DUPLICATION || metric == TECHNICAL_DEBT_RATIO then
      0.0 <= value <= 1.0
    else if metric == CYCLOMATIC_COMPLEXITY || metric == COGNITIVE_COMPLEXITY then
      0.0 <= value <= linesOfCode
    else if metric == SECURITY_REMEDIATION_EFFORT then
      0.0 <= value <= linesOfCode * LineCost
    else true
  }

  /** A well-formed raw report: a positive line count when it has one, and every
      value in its range. */
  predicate ValidReport(metricsReport: map<QualityMetric, real>)
  {
    && (LINES_OF_CODE in metricsReport ==> metricsReport[LINES_OF_CODE] > 0.0)
    && forall k :: k in metricsReport ==> InRange(k, metricsReport[k], LinesOfCodeOrZero(metricsReport))
  }

  /** The utility one arm of the switch stores for a rewritten metric; it is 1 exactly
      when the raw value is 0, and lies in [0, 1] for a value in range. */
  function RewrittenValue(metric: QualityMetric, value: real, linesOfCode: real): (u: real)
    requires metric in Rewritten
    requires metric in ScaledByLinesOfCode ==> linesOfCode != 0.0
    ensures u == 1.0 <==> value == 0.0
    ensures InRange(metric, value, linesOfCode) ==> 0.0 <= u <= 1.0
  {
    if metric == DUPLICATION then DuplicationUtf(value)
    else if metric == TECHNICAL_DEBT_RATIO then TechnicalDebtRatioUtf(value)
    else if metric == SECURITY_REMEDIATION_EFFORT then SecurityRemediationEffortUtf(value, linesOfCode)
    else ComplexityUtf(value, linesOfCode)  // CYCLOMATIC_COMPLEXITY or COGNITIVE_COMPLEXITY
  }

  /** Storing the three composite scores leaves every other key as it was. */
  lemma CompositeUpdates(report: map<QualityMetric, real>, bug: real, vulnerability: real, hotspot: real)
    ensures var updated := report[BUG_SEVERITY := bug][VULNERABILITY_SEVERITY := vulnerability]
                                 [HOTSPOT_PRIORITY := hotspot];
      && (forall k :: k in updated <==> k in report || k in Composite)
      && (forall k :: k in report && k !in Composite ==> updated[k] == report[k])
      && (forall k :: k in Rewritten ==> k !in Composite)
      && COMMENT_RATE !in Composite
      && updated[BUG_SEVERITY] == bug
      && updated[VULNERABILITY_SEVERITY] == vulnerability
      && updated[HOTSPOT_PRIORITY] == hotspot
  {}

  /** The forEach of applyUtf: copies COMMENT_RATE and stores the utility of every
      metric the switch rewrites, failing on the first metric that needs a
      LINES_OF_CODE entry the report does not have or that is zero. */
  method RewriteMetrics(metricsReport: map<QualityMetric, real>)
    returns (r: Normalized)
    ensures r.Failure? <==>
      (NeedsLinesOfCode(metricsReport) &&
       (LINES_OF_CODE !in metricsReport || metricsReport[LINES_OF_CODE] == 0.0))
    ensures r.Failure? ==>
      r.error == if LINES_OF_CODE !in metricsReport then MissingLinesOfCode else ZeroLinesOfCode
    ensures r.Success? ==> forall k :: k in r.value <==>
      k in metricsReport && (k == COMMENT_RATE || k in Rewritten)
    ensures r.Success? && COMMENT_RATE in metricsReport ==>
      r.value[COMMENT_RATE] == metricsReport[COMMENT_RATE]
    ensures r.Success? ==> forall k :: k in metricsReport && k in Rewritten ==>
      r.value[k] == RewrittenValue(k, metricsReport[k], LinesOfCodeOrZero(metricsReport))
    ensures r.Success? && ValidReport(metricsReport) ==>
      forall k :: k in r.value ==> 0.0 <= r.value[k] <= 1.0
  {
    var updated: map<QualityMetric, real> := map[];
    var hasLinesOfCode := LINES_OF_CODE in metricsReport;
    var linesOfCode := LinesOfCodeOrZero(metricsReport);
    if COMMENT_RATE in metricsReport {
      updated := updated[COMMENT_RATE := metricsReport[COMMENT_RATE]];
    }

    // The forEach over the input report; its order does not affect the outcome.
    var pending := metricsReport.Keys;
    while pending != {}
      invariant pending <= metricsReport.Keys
      invariant forall k :: k in updated <==>
        k in metricsReport && (k == COMMENT_RATE || (k in Rewritten && k !in pending))
      invariant COMMENT_RATE in updated ==> updated[COMMENT_RATE] == metricsReport[COMMENT_RATE]
      invariant forall k :: k in metricsReport && k !in pending && k in ScaledByLinesOfCode ==>
        hasLinesOfCode && linesOfCode != 0.0
      invariant forall k :: k in updated && k in Rewritten ==>
        (k in ScaledByLinesOfCode ==> linesOfCode != 0.0) &&
        updated[k] == RewrittenValue(k, metricsReport[k], linesOfCode)
      decreases pending
    {
      var metric :| metric in pending;
      if metric in Rewritten {
        if metric in ScaledByLinesOfCode && !hasLinesOfCode {
          return Failure(MissingLinesOfCode);
        }
        if metric in ScaledByLinesOfCode && linesOfCode == 0.0 {
          return Failure(ZeroLinesOfCode);
        }
        updated := updated[metric := RewrittenValue(metric, metricsReport[metric], linesOfCode)];
      }
      pending := pending - {metric};
    }

    r := Success(updated);
  }

  /** applyUtf: builds a new report holding COMMENT_RATE as it was, the rewritten
      metrics of the input, and the three composite scores. Everything else
      (METHOD_SIZE, RELIABILITY_REMEDIATION_EFFORT, LINES_OF_CODE, and any composite
      score already in the input) is dropped or replaced. */
  method ApplyUtf(metricsReport: map<QualityMetric, real>, issuesDetails: seq<IssueDetails>,
                  hotspotsDetails: seq<HotspotDetails>)
    returns (r: Normalized)
    ensures r.Failure? <==>
      (NeedsLinesOfCode(metricsReport) &&
       (LINES_OF_CODE !in metricsReport || metricsReport[LINES_OF_CODE] == 0.0))
    ensures r.Failure? ==>
      r.error == if LINES_OF_CODE !in metricsReport then MissingLinesOfCode else ZeroLinesOfCode
    ensures r.Success? ==> forall k :: k in r.value <==>
      (k in metricsReport && (k == COMMENT_RATE || k in Rewritten)) || k in Composite
    ensures r.Success? && COMMENT_RATE in metricsReport ==>
      r.value[COMMENT_RATE] == metricsReport[COMMENT_RATE]
    ensures r.Success? ==> forall k :: k in metricsReport && k in Rewritten ==>
      r.value[k] == RewrittenValue(k, metricsReport[k], LinesOfCodeOrZero(metricsReport))
    ensures r.Success? ==> r.value[BUG_SEVERITY] == ApplyMetricsUtf(issuesDetails, "BUG")
    ensures r.Success? ==> r.value[VULNERABILITY_SEVERITY] == ApplyMetricsUtf(issuesDetails, "VULNERABILITY")
    ensures r.Success? ==> r.value[HOTSPOT_PRIORITY] == ApplyHotSpotPriorityUtf(hotspotsDetails)
    ensures r.Success? && ValidReport(metricsReport) ==>
      forall k :: k in r.value ==> 0.0 <= r.value[k] <= 1.0
  {
    var rewritten := RewriteMetrics(metricsReport);
    if rewritten.Failure? {
      return Failure(rewritten.error);
    }
    var bug := ApplyMetricsUtf(issuesDetails, "BUG");
    var vulnerability := ApplyMetricsUtf(issuesDetails, "VULNERABILITY");
    var hotspot := ApplyHotSpotPriorityUtf(hotspotsDetails);
    var updated := rewritten.value[BUG_SEVERITY := bug][VULNERABILITY_SEVERITY := vulnerability]
                                  [HOTSPOT_PRIORITY := hotspot];
    CompositeUpdates(rewritten.value, bug, vulnerability, hotspot);
    r := Success(updated);
  }
}

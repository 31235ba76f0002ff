/** The enumerations and finding records the normaliser reads: quality-metric keys,
    issue severities, hotspot vulnerability probabilities, and the two fields of an
    issue and the one field of a hotspot that the scores depend on. */
module QualityModel {

  /** The keys of a quality-metrics report. */
  datatype QualityMetric =
    | COMMENT_RATE
    | METHOD_SIZE
    | DUPLICATION
    | BUG_SEVERITY
    | TECHNICAL_DEBT_RATIO
    | RELIABILITY_REMEDIATION_EFFORT
    | CYCLOMATIC_COMPLEXITY
    | COGNITIVE_COMPLEXITY
    | VULNERABILITY_SEVERITY
    | HOTSPOT_PRIORITY
    | SECURITY_REMEDIATION_EFFORT
    | LINES_OF_CODE

  /** Issue severities, most severe first. */
  datatype Severity = BLOCKER | CRITICAL | MAJOR | MINOR | INFO

  /** Hotspot vulnerability probabilities, most likely first. */
  datatype VulnerabilityProbability = HIGH | MEDIUM | LOW

  /** The fields of a static-analysis issue that the normaliser reads. The type tag
      is a free string ("BUG", "VULNERABILITY", "CODE_SMELL", ...). */
  datatype IssueDetails = IssueDetails(issueType: string, severity: Severity)

  /** The field of a security hotspot that the normaliser reads. */
  datatype HotspotDetails = HotspotDetails(vulnerabilityProbability: VulnerabilityProbability)
}

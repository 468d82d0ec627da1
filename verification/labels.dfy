/** The four label mappers of the status page: each is a total switch over
    the raw service-status string, with every unrecognised string falling
    into the default branch. */
module Labels {

  /** The status strings the mappers recognise; every other string is
      treated as "maintenance / unknown". */
  const KnownStatuses: set<string> := {"ok", "low_performance", "warning", "error"}

  /** The lifecycle labels the engine itself writes into an incident's
      nested `status` field. */
  const LifecycleLabels: set<string> := {"in_progress", "verifying", "completed"}

  /** Severity rank of a service status: 0 for healthy up to 4 for
      maintenance or anything unrecognised. */
  function Severity(status: string): (rank: int)
    ensures 0 <= rank <= 4
    ensures rank == 0 <==> status == "ok"
    ensures rank == 1 <==> status == "low_performance"
    ensures rank == 2 <==> status == "warning"
    ensures rank == 3 <==> status == "error"
    ensures rank == 4 <==> status !in KnownStatuses
  {
    match status
    case "ok" => 0
    case "error" => 3
    case "warning" => 2
    case "low_performance" => 1
    case _ => 4
  }

  /** Impact label of a service status. */
  function Impact(status: string): (text: string)
    ensures text == ImpactOfRank(Severity(status))
  {
    match status
    case "ok" => "resolved"
    case "error" => "critical"
    case "warning" => "major"
    case "low_performance" => "minor"
    case _ => "maintenance"
  }

  /** Status label of a service status; written separately in the source,
      used for `impact_override` and for the notification decision. */
  function StatusLabel(status: string): (text: string)
    ensures text == ImpactOfRank(Severity(status))
  {
    match status
    case "ok" => "resolved"
    case "error" => "critical"
    case "warning" => "major"
    case "low_performance" => "minor"
    case _ => "maintenance"
  }

  /** Component-display label of a service status. */
  function ComponentStatus(status: string): (text: string)
    ensures text == ComponentStatusOfRank(Severity(status))
  {
    match status
    case "ok" => "operational"
    case "error" => "major_outage"
    case "warning" => "partial_outage"
    case "low_performance" => "degraded_performance"
    case _ => "under_maintenance"
  }

  /** Reference definitions by rank: the label every status of a given
      severity is meant to receive. */
  function ImpactOfRank(rank: int): string
    requires 0 <= rank <= 4
  {
    ["resolved", "minor", "major", "critical", "maintenance"][rank]
  }

  function ComponentStatusOfRank(rank: int): string
    requires 0 <= rank <= 4
  {
    ["operational", "degraded_performance", "partial_outage", "major_outage", "under_maintenance"][rank]
  }

  /** The canonical status string of each of the ranks 0..3 (rank 4 has no
      single status: it collects every unrecognised string). */
  function CanonicalStatus(rank: int): (status: string)
    requires 0 <= rank <= 3
    ensures status in KnownStatuses
  {
    ["ok", "low_performance", "warning", "error"][rank]
  }

  /** The severity of a recognised status is inverted by its canonical
      status, and conversely. */
  lemma SeverityRoundTrip(status: string, rank: int)
    ensures status in KnownStatuses ==> Severity(status) < 4 && CanonicalStatus(Severity(status)) == status
    ensures 0 <= rank <= 3 ==> Severity(CanonicalStatus(rank)) == rank
  {
  }

  /** The impact and status computations return the same label for every
      input. */
  lemma ImpactIsStatusLabel(status: string)
    ensures Impact(status) == StatusLabel(status)
  {
  }

  /** Two statuses receive the same impact label, the same component label
      and the same severity exactly together: the four mappers partition the
      strings into the same five classes. */
  lemma MappersAgree(a: string, b: string)
    ensures Severity(a) == Severity(b) <==> Impact(a) == Impact(b)
    ensures Severity(a) == Severity(b) <==> ComponentStatus(a) == ComponentStatus(b)
  {
  }

  /** Notifications are delivered exactly when the status label is
      "critical", which happens for the status "error" and nothing else. */
  lemma CriticalExactlyOnError(status: string)
    ensures StatusLabel(status) == "critical" <==> status == "error"
    ensures StatusLabel(status) == "critical" <==> Severity(status) == 3
  {
  }

  /** The lifecycle labels are not service statuses, so they all rank as
      unknown. */
  lemma LifecycleLabelsRankFour(lifecycle: string)
    requires lifecycle in LifecycleLabels
    ensures Severity(lifecycle) == 4
  {
  }
}

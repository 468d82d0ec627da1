/** The incident records the status page sends and tracks, and how the
    create and update payloads are assembled from a health report. */
module Payloads {
  import opened Optional
  import opened Labels
  import opened Narrative

  /** One health report: the service's key, its display name, its raw
      status and the error text it carries (possibly `undefined`). */
  datatype Report = Report(name: string, displayName: string, status: string, error: Option<string>)

  /** The part of the configuration the core reads: the component id of
      each service and the footer appended to creation bodies. */
  datatype Config = Config(components: map<string, string>, footerMessage: string)

  /** The nested `incident` object of a payload. Fields only one of the two
      payload shapes carries are `Option`s: `impactOverride` and
      `componentIds` exist on creation only, the nested `severity` on
      update only. Dates are abstract day numbers. */
  datatype Details = Details(
    name: string,
    status: string,
    body: string,
    impactOverride: Option<string>,
    componentIds: Option<seq<Option<string>>>,
    components: map<string, string>,
    deliverNotifications: bool,
    severity: Option<int>,
    scheduledFor: int,
    scheduledUntil: int,
    autoTransitionToMaintenance: bool,
    autoTransitionToOperational: bool)

  /** A payload as sent, and as kept by the tracker once the server has
      answered: `id` is absent on a creation payload. */
  datatype Incident = Incident(id: Option<string>, severity: int, incident: Details)

  /** The planned window of every incident, in days. */
  const WindowDays: int := 4

  /** Why an update could not be assembled: the narrative builder returned
      `undefined` and reading its `status` throws. */
  datatype Fault = MissingNarrative

  /** The component id configured for a service, if any. */
  function ComponentId(config: Config, service: string): Option<string>
  {
    if service in config.components then Some(config.components[service]) else None
  }

  /** A component id used as a computed object key: an absent id becomes
      the key "undefined". */
  function ComponentKey(config: Config, service: string): string
  {
    Render(ComponentId(config, service))
  }

  /** The incident name both payloads share. */
  function IncidentName(report: Report): string
  {
    report.displayName + " incident, " + Render(report.error)
  }

  /** The body of a newly created incident. */
  function CreationBody(config: Config, report: Report): string
  {
    Opening(report.displayName) + " is currently experiencing issues.\nThe error reported is: <b>"
      + Render(report.error) + "</b> and the status of the service is now <b>"
      + report.status + "</b>" + config.footerMessage
  }

  /** The payload POSTed when a service first leaves the healthy state. */
  function CreatePayload(config: Config, report: Report, now: int): (p: Incident)
    ensures p.id.None?
    ensures p.severity == Severity(report.status)
    ensures p.incident.severity.None?
    ensures p.incident.name == IncidentName(report)
    ensures p.incident.status == "in_progress"
    ensures p.incident.impactOverride == Some(StatusLabel(report.status))
    ensures p.incident.componentIds == Some([ComponentId(config, report.name)])
    ensures p.incident.components == map[ComponentKey(config, report.name) := ComponentStatus(report.status)]
    ensures report.name in config.components ==>
      && p.incident.componentIds == Some([Some(config.components[report.name])])
      && p.incident.components.Keys == {config.components[report.name]}
    ensures report.name !in config.components ==>
      && p.incident.componentIds == Some([None])
      && p.incident.components.Keys == {"undefined"}
    ensures p.incident.deliverNotifications <==> report.status == "error"
    ensures p.incident.scheduledFor == now
    ensures p.incident.scheduledUntil == p.incident.scheduledFor + WindowDays
    ensures !p.incident.autoTransitionToMaintenance && !p.incident.autoTransitionToOperational
    ensures Opening(report.displayName) <= p.incident.body
  {
    var status := report.status;
    Incident(
      None,
      Severity(status),
      Details(
        IncidentName(report),
        "in_progress",
        CreationBody(config, report),
        Some(StatusLabel(status)),
        Some([ComponentId(config, report.name)]),
        map[ComponentKey(config, report.name) := ComponentStatus(status)],
        StatusLabel(status) == "critical",
        None,
        now,
        now + WindowDays,
        false,
        false))
  }

  /** An assembled update payload, or the fault that stopped it. */
  datatype Result = Built(payload: Incident) | Failed(fault: Fault)

  /** The payload PUT when a tracked service changes severity. `previous`
      is the severity the narrative builder compares against; when it finds
      no narrative, assembling the payload fails. */
  function UpdatePayload(config: Config, tracked: Incident, report: Report, previous: int, now: int): (r: Result)
    ensures r.Failed? <==> UpdatedBody(report.displayName, Severity(report.status), previous).None?
    ensures r.Failed? ==> r.fault == MissingNarrative
    ensures r.Built? ==> var p := r.payload; var n := UpdatedBody(report.displayName, Severity(report.status), previous).value;
      && p.id == tracked.id
      && p.severity == Severity(report.status)
      && p.incident.severity == Some(p.severity)
      && p.incident.name == IncidentName(report)
      && p.incident.status == n.status
      && p.incident.body == n.body
      && p.incident.impactOverride.None?
      && p.incident.componentIds.None?
      && p.incident.components == map[ComponentKey(config, report.name) := ComponentStatus(report.status)]
      && (report.name in config.components ==> p.incident.components.Keys == {config.components[report.name]})
      && (report.name !in config.components ==> p.incident.components.Keys == {"undefined"})
      && (p.incident.deliverNotifications <==> report.status == "error")
      && p.incident.scheduledFor == now
      && p.incident.scheduledUntil == p.incident.scheduledFor + WindowDays
      && !p.incident.autoTransitionToMaintenance && !p.incident.autoTransitionToOperational
  {
    var status := report.status;
    match UpdatedBody(report.displayName, Severity(status), previous)
    case None => Failed(MissingNarrative)
    case Some(narrative) =>
      Built(Incident(
        tracked.id,
        Severity(status),
        Details(
          IncidentName(report),
          narrative.status,
          narrative.body,
          None,
          None,
          map[ComponentKey(config, report.name) := ComponentStatus(status)],
          StatusLabel(status) == "critical",
          Some(Severity(status)),
          now,
          now + WindowDays,
          false,
          false)))
  }

  /** The creation and update payloads of the same report agree on
      everything that does not depend on the tracked record or the
      narrative: severity, name, component map, notification flag and
      window. */
  lemma PayloadsAgree(config: Config, tracked: Incident, report: Report, previous: int, now: int)
    requires UpdatePayload(config, tracked, report, previous, now).Built?
    ensures var c := CreatePayload(config, report, now);
            var u := UpdatePayload(config, tracked, report, previous, now).payload;
      && c.severity == u.severity
      && c.incident.name == u.incident.name
      && c.incident.components == u.incident.components
      && c.incident.deliverNotifications == u.incident.deliverNotifications
      && c.incident.scheduledFor == u.incident.scheduledFor
      && c.incident.scheduledUntil == u.incident.scheduledUntil
  {
  }
}

/** The transition engine: for each health report it decides between
    nothing, a creation and an update, sends the payload, and on success
    writes the sent payload, carrying the server's id, back into the
    tracker. */
module Engine {
  import opened Optional
  import opened Labels
  import opened Narrative
  import opened Payloads

  /** Service name to the last incident payload the server accepted. */
  type Tracker = map<string, Incident>

  datatype Action = NoAction | Create | Update

  /** What the remote API answered: the id it assigned, or a failure. */
  datatype Response = Accepted(id: string) | Rejected

  datatype Request = Post(payload: Incident) | Put(payload: Incident)

  /** The observable effect of one report before the answer arrives:
      nothing, one request, or the exception thrown while assembling it. */
  datatype Dispatch = Idle | Sent(request: Request) | Crashed(fault: Fault)

  datatype StepResult = StepResult(dispatch: Dispatch, tracker: Tracker)

  /** The decision table of a report against the tracker. */
  function Decide(tracker: Tracker, report: Report): (a: Action)
    ensures a == Create <==> report.name !in tracker && Severity(report.status) != 0
    ensures a == Update <==> report.name in tracker && tracker[report.name].severity != Severity(report.status)
    ensures a == NoAction <==>
      || (report.name !in tracker && report.status == "ok")
      || (report.name in tracker && tracker[report.name].severity == Severity(report.status))
  {
    var severity := Severity(report.status);
    if report.name in tracker then
      if tracker[report.name].severity != severity then Update else NoAction
    else
      if severity != 0 then Create else NoAction
  }

  /** The severity the narrative builder treats as previous: the rank of
      the tracked record's lifecycle label, not its tracked severity. */
  function PreviousSeverity(tracker: Tracker, service: string): (rank: int)
    requires service in tracker
    ensures 0 <= rank <= 4
    ensures tracker[service].incident.status in LifecycleLabels ==> rank == 4
  {
    Severity(tracker[service].incident.status)
  }

  /** The request a report leads to, or the fault that prevents it. */
  function Plan(tracker: Tracker, config: Config, report: Report, now: int): (d: Dispatch)
    ensures Decide(tracker, report) == NoAction <==> d == Idle
    ensures Decide(tracker, report) == Create <==> d.Sent? && d.request.Post?
    ensures d.Sent? && d.request.Post? ==> d.request.payload == CreatePayload(config, report, now)
    ensures d.Crashed? <==>
      Decide(tracker, report) == Update &&
      UpdatedBody(report.displayName, Severity(report.status), PreviousSeverity(tracker, report.name)).None?
    ensures d.Sent? && d.request.Put? ==>
      && report.name in tracker
      && UpdatePayload(config, tracker[report.name], report, PreviousSeverity(tracker, report.name), now)
         == Built(d.request.payload)
  {
    match Decide(tracker, report)
    case NoAction => Idle
    case Create => Sent(Post(CreatePayload(config, report, now)))
    case Update =>
      match UpdatePayload(config, tracker[report.name], report, PreviousSeverity(tracker, report.name), now)
      case Built(p) => Sent(Put(p))
      case Failed(f) => Crashed(f)
  }

  /** The success callback of either request: the sent payload, with `id`
      set to the one the server answered, replaces the service's entry. */
  function Commit(tracker: Tracker, service: string, payload: Incident, response: Response): (t: Tracker)
    ensures response.Rejected? ==> t == tracker
    ensures response.Accepted? ==> service in t && t[service] == payload.(id := Some(response.id))
    ensures t.Keys == tracker.Keys + (if response.Accepted? then {service} else {})
    ensures forall other :: other != service && other in tracker ==> t[other] == tracker[other]
  {
    match response
    case Rejected => tracker
    case Accepted(id) => tracker[service := payload.(id := Some(id))]
  }

  /** One report processed end to end, the server's answer given. */
  function Step(tracker: Tracker, config: Config, report: Report, now: int, response: Response): (r: StepResult)
    ensures r.dispatch == Plan(tracker, config, report, now)
    ensures !r.dispatch.Sent? || response.Rejected? ==> r.tracker == tracker
    ensures r.dispatch.Sent? && response.Accepted? ==>
      r.tracker == tracker[report.name := r.dispatch.request.payload.(id := Some(response.id))]
    ensures tracker.Keys <= r.tracker.Keys
  {
    var d := Plan(tracker, config, report, now);
    match d
    case Sent(request) => StepResult(d, Commit(tracker, report.name, request.payload, response))
    case _ => StepResult(d, tracker)
  }

  /** An entry as this engine writes it (as opposed to one loaded from the
      store at start-up): it carries a server id, a lifecycle label that
      matches its severity, and a four-day window. */
  predicate EngineRecord(rec: Incident)
  {
    && rec.id.Some?
    && 0 <= rec.severity <= 4
    && rec.incident.status in LifecycleLabels
    && (rec.incident.status == "completed" <==> rec.severity == 0)
    && (rec.incident.status == "verifying" ==> 1 <= rec.severity <= 3)
    && (rec.incident.deliverNotifications <==> rec.severity == 3)
    && rec.incident.scheduledUntil == rec.incident.scheduledFor + WindowDays
  }

  predicate AllEngineRecords(tracker: Tracker)
  {
    forall service :: service in tracker ==> EngineRecord(tracker[service])
  }

  /** A step keeps every entry an engine record. */
  lemma StepKeepsEngineRecords(tracker: Tracker, config: Config, report: Report, now: int, response: Response)
    ensures AllEngineRecords(tracker) ==> AllEngineRecords(Step(tracker, config, report, now, response).tracker)
  {
    var r := Step(tracker, config, report, now, response);
    if AllEngineRecords(tracker) && r.dispatch.Sent? && response.Accepted? {
      var p := r.dispatch.request.payload;
      if r.dispatch.request.Put? {
        NarrativeAgainstUnknownPrevious(report.displayName, Severity(report.status));
      }
      assert EngineRecord(p.(id := Some(response.id)));
    }
  }

  /** One health-check cycle: a report, the day it arrives, and the answer
      the server gives if a request is sent. */
  datatype Event = Event(report: Report, now: int, response: Response)

  /** Reports processed strictly one at a time. */
  function Run(tracker: Tracker, config: Config, events: seq<Event>): (t: Tracker)
    ensures tracker.Keys <= t.Keys
    ensures AllEngineRecords(tracker) ==> AllEngineRecords(t)
    decreases |events|
  {
    if |events| == 0 then tracker
    else
      var e := events[0];
      var next := Step(tracker, config, e.report, e.now, e.response).tracker;
      StepKeepsEngineRecords(tracker, config, e.report, e.now, e.response);
      Run(next, config, events[1..])
  }

  /** Running a sequence processes its first event, then the rest. */
  lemma RunUnfold(tracker: Tracker, config: Config, e: Event, rest: seq<Event>)
    ensures Run(tracker, config, [e] + rest) == Run(Step(tracker, config, e.report, e.now, e.response).tracker, config, rest)
  {
    assert ([e] + rest)[1..] == rest;
  }

  /** Every entry the engine writes into an empty tracker is an engine
      record, whatever the reports and answers. */
  lemma RunFromEmptyWritesEngineRecords(config: Config, events: seq<Event>)
    ensures AllEngineRecords(Run(map[], config, events))
  {
  }

  /** The previous severity of an engine record is always 4: its
      lifecycle label is never a service status. */
  lemma PreviousOfEngineRecord(tracker: Tracker, service: string)
    requires service in tracker && EngineRecord(tracker[service])
    ensures PreviousSeverity(tracker, service) == 4
  {
  }

  /** A report of severity 4 against an engine record tracked at another
      severity finds no narrative: the update throws, nothing is sent and
      the tracker keeps its entry. */
  lemma MaintenanceUpdateCrashes(tracker: Tracker, config: Config, report: Report, now: int, response: Response)
    requires report.name in tracker && EngineRecord(tracker[report.name])
    requires tracker[report.name].severity != 4
    requires Severity(report.status) == 4
    ensures Step(tracker, config, report, now, response) == StepResult(Crashed(MissingNarrative), tracker)
  {
    NarrativeAgainstUnknownPrevious(report.displayName, 4);
  }

  /** Every other change of severity against an engine record is sent as
      an update that keeps the record's id, is labelled "completed" when
      the service is back to 0 and "verifying" otherwise, and on success
      becomes the entry with the server's id. */
  lemma UpdateOfEngineRecord(tracker: Tracker, config: Config, report: Report, now: int, response: Response)
    requires report.name in tracker && EngineRecord(tracker[report.name])
    requires Severity(report.status) != tracker[report.name].severity
    requires Severity(report.status) != 4
    ensures var r := Step(tracker, config, report, now, response);
      && r.dispatch.Sent? && r.dispatch.request.Put?
      && r.dispatch.request.payload.id == tracker[report.name].id
      && r.dispatch.request.payload.severity == Severity(report.status)
      && r.dispatch.request.payload.incident.status == (if report.status == "ok" then "completed" else "verifying")
      && (response.Accepted? ==> r.tracker[report.name].id == Some(response.id))
      && (response.Rejected? ==> r.tracker == tracker)
  {
    NarrativeAgainstUnknownPrevious(report.displayName, Severity(report.status));
  }

  /** Entries are never evicted, not even after a "completed" update, so
      once a service is tracked no later report creates an incident for it:
      a failure after recovery is sent as an update of the resolved entry. */
  lemma NeverCreatedAgain(tracker: Tracker, config: Config, events: seq<Event>, report: Report)
    requires report.name in tracker
    ensures report.name in Run(tracker, config, events)
    ensures Decide(Run(tracker, config, events), report) != Create
  {
  }
}

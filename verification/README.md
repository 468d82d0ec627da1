# Status-page incident state machine, in Dafny

A model of the incident state machine of the `StatusPage` class of
echo-status-page. The class turns each service health report into an
incident on a remote status page. It does three things with a report:
- it maps the raw service status to a severity rank and three labels;
- it decides whether to create an incident, update the tracked one, or do
  nothing;
- it assembles the payload, and when the server accepts it, stores the
  sent payload with the server's id in its tracker.

The tracker maps a service name to that service's incident.

Modules, one per part of the class:

- `Optional` (optional.dfy): `Option`, a field that may be `undefined`, and
  `Render`, which gives the text a template literal produces for it.
- `Labels` (labels.dfy): the four `switch` mappers `Severity`, `Impact`,
  `StatusLabel` and `ComponentStatus`, plus reference tables indexed by rank.
- `Narrative` (narrative.dfy): `UpdatedBody`, the guarded table of
  `_computeUpdatedBody`, returning `None` where the source returns
  `undefined`.
- `Payloads` (payloads.dfy): reports, configuration, the incident record,
  and the creation and update payload builders.
- `Engine` (engine.dfy): the decision table, the dispatch plan, the commit
  of a server answer into the tracker, one step, a run of steps, and the
  invariants of records the engine writes.
- `Scenarios` (scenarios.dfy): short concrete report sequences.

Behaviour reproduced as the code has it:

- The "previous severity" of an update is the rank of the tracked record's
  lifecycle label (`incident.status`), not its tracked `severity`. The
  engine only writes "in_progress", "verifying" and "completed", so for its
  own records that rank is always 4. An update to severity 4 against such a
  record therefore has no narrative (`Engine.MaintenanceUpdateCrashes`).
- When the narrative is missing, reading `bodyData.status` throws before
  any request is built. The model returns `Crashed(MissingNarrative)`.
  Nothing is sent and the tracker is unchanged. An update sent with
  undefined status and body would be another reading of the design; the
  code throws first, and the model follows the code.
- A "completed" update is stored like any other, so entries are never
  evicted. Once a service is tracked it is never created again
  (`Engine.NeverCreatedAgain`).
- Only the update payload carries a nested `severity`. Only the creation
  payload carries `impact_override` and `component_ids`.
- A service with no configured component id uses the computed key
  "undefined". An absent `error` is rendered as the text "undefined".

Times are abstract day numbers: `now` is a parameter, and the planned end
is `now + 4`. The server's answer to a request is an input,
`Accepted(id) | Rejected`.

## Model

| member | source | states |
|---|---|---|
| Labels.Severity | classes/statuspage.js:64-77 | the rank is in 0..4; it is 0 exactly for "ok", 1 for "low_performance", 2 for "warning", 3 for "error", and 4 exactly for every other string |
| Labels.Impact | classes/statuspage.js:19-32 | the impact label is the rank table's entry at the status's severity, so unknown strings get "maintenance" |
| Labels.StatusLabel | classes/statuspage.js:34-47 | the status label is the same rank-table entry as the impact label |
| Labels.ComponentStatus | classes/statuspage.js:49-62 | the component label is the component rank table's entry at the status's severity |
| Labels.SeverityRoundTrip | classes/statuspage.js:64-77 | severity and the canonical status of a rank are mutually inverse on the four recognised statuses and ranks 0..3 |
| Labels.ImpactIsStatusLabel | classes/statuspage.js:19-47 | the impact and status computations agree on every input |
| Labels.MappersAgree | classes/statuspage.js:19-77 | two statuses share a severity exactly when they share an impact label, and exactly when they share a component label |
| Labels.CriticalExactlyOnError | classes/statuspage.js:34-47 | the status label is "critical" exactly for "error", which is exactly severity 3, so notifications go out only on errors |
| Labels.LifecycleLabelsRankFour | classes/statuspage.js:64-82 | "in_progress", "verifying" and "completed" all fall into the default branch and rank 4 |
| Narrative.UpdatedBody | classes/statuspage.js:79-114 | a narrative exists exactly when cur=0 and prev≠0, or cur∈{1,2,3} and prev>1, or cur=4 and prev≠4; its label is "completed" exactly for cur 0, "verifying" exactly for 1..3, "in_progress" exactly for 4; its body names the service |
| Narrative.NarrativeAgainstUnknownPrevious | classes/statuspage.js:82-114 | against a previous rank of 4, a narrative exists for every current rank except 4 |
| Narrative.NarrativeOnEqualSeverities | classes/statuspage.js:84-114 | for equal severities a narrative exists exactly for ranks 2 and 3 |
| Narrative.NoNarrativeFromLowPrevious | classes/statuspage.js:90-107 | degraded current ranks 1..3 have no narrative when the previous rank is 0 or 1 |
| Payloads.CreatePayload | classes/statuspage.js:157-185 | the creation payload has no id; its severity is the report's; its status is "in_progress"; its impact override is the status label; it lists the one component id (undefined when none is configured) and maps that id, or the key "undefined", to the component label; it notifies exactly on "error"; its window runs from now to now+4 days |
| Payloads.UpdatePayload | classes/statuspage.js:131-155 | the update fails exactly when the narrative is missing; otherwise it keeps the tracked id; it carries the new severity at both levels; status and body come from the narrative; it has no component ids or impact override; its one component key is the configured id or "undefined"; it shares the name template and the 4-day window |
| Payloads.PayloadsAgree | classes/statuspage.js:131-185 | for the same report, creation and update payloads agree on severity, name, component map, notification flag and window |
| Engine.Decide | classes/statuspage.js:116-129 | untracked and rank 0 gives nothing; untracked and rank ≠ 0 gives create; tracked with equal severity gives nothing; tracked with a different severity gives update |
| Engine.PreviousSeverity | classes/statuspage.js:82 | the previous rank is in 0..4, and it is 4 whenever the tracked lifecycle label is one the engine writes |
| Engine.Plan | classes/statuspage.js:116-186 | nothing is sent exactly on a no-op decision; a POST of the creation payload is sent exactly on create; a crash happens exactly on an update without a narrative; a PUT carries the built update payload |
| Engine.Commit | classes/statuspage.js:188-222 | on acceptance the service's entry becomes the sent payload with the server's id; on rejection the tracker is unchanged; other services' entries never change |
| Engine.Step | classes/statuspage.js:116-222 | the tracker changes only when a request was sent and accepted, then exactly at the reported service; no entry is ever removed |
| Engine.StepKeepsEngineRecords | classes/statuspage.js:131-216 | a step keeps every entry an engine record: id present, rank 0..4, lifecycle label consistent with the rank, notification exactly at rank 3, 4-day window |
| Engine.Run | classes/statuspage.js:116-222 | processing reports one at a time never removes an entry and keeps every entry an engine record |
| Engine.RunFromEmptyWritesEngineRecords | classes/statuspage.js:157-216 | starting from an empty tracker, every entry written is an engine record |
| Engine.PreviousOfEngineRecord | classes/statuspage.js:82 | the previous rank of an engine record is always 4 |
| Engine.MaintenanceUpdateCrashes | classes/statuspage.js:108-141 | a rank-4 report against an engine record tracked at another rank throws, sends nothing and leaves the tracker unchanged |
| Engine.UpdateOfEngineRecord | classes/statuspage.js:82-155 | any other severity change against an engine record is sent as a PUT with the record's id; it is labelled "completed" for "ok" and "verifying" otherwise; on acceptance the entry gets the server's id |
| Engine.NeverCreatedAgain | classes/statuspage.js:116-129 | once a service is tracked, every later run keeps it tracked and never decides to create for it |
| Scenarios.FirstAcceptedReport | classes/statuspage.js:157-198 | a first non-"ok" report accepted with an id leaves exactly the creation payload with that id in the tracker |
| Scenarios.HealthyServiceInError | classes/statuspage.js:157-185 | an untracked service reporting "error" gets a POST of a critical, notifying, rank-3 incident for its component |
| Scenarios.ErrorThenOk | classes/statuspage.js:79-155 | an accepted "error" incident followed by "ok" is PUT as "completed" with the "back to normal" body under the same id |
| Scenarios.RepeatedWarningIsIdle | classes/statuspage.js:116-129 | the same severity twice in a row sends nothing and keeps the tracker |
| Scenarios.ErrorThenMaintenanceCrashes | classes/statuspage.js:82-141 | an accepted "error" incident followed by an unknown status throws instead of moving to maintenance |
| Scenarios.FailureAfterRecovery | classes/statuspage.js:116-216 | after "error" then "ok", the entry is kept as "completed" at rank 0, and a later "warning" is a "verifying" PUT on the old id |
| Scenarios.LowPerformanceRecordToWarning | classes/statuspage.js:90-141 | a record whose lifecycle label ranks 1, moved from rank 1 to 2, finds no narrative and throws |

## Left out

- The HTTP transport: URLs, headers and the axios POST/PUT calls (classes/statuspage.js:189-193, 207-211). The server's answer is an input instead.
- The constructor's asynchronous `db.init` / `getActiveIncidents` load and the `JSON.parse` of stored records (classes/statuspage.js:8-16). That storage format is not part of this model. A tracker may start from any map, and the engine-record invariants describe only entries the engine writes itself.
- The race between that load and the first reports, and re-entrancy of in-flight requests: reports are processed strictly one at a time.
- `db.addIncident` persistence of the server's answer, and all `console` output: they do not affect the tracker.
- A failure callback that itself throws when `error.response` is missing: the tracker is unchanged either way, which is what `Engine.Commit` states for a rejection.
- Real `Date` values and `setDate` calendar and daylight-saving behaviour: days are abstract integers.
- Entries restored from the store may lack a nested `incident` object, in which case reading `incident.status` throws; every tracked record here has one.
- A crash while assembling an update is assumed to be caught by whoever calls `updateStatusPage`, which is not part of this model. `Engine.Run` then goes on with the next report and the tracker unchanged. If the exception is not caught, the process may stop and lose the in-memory tracker. `Engine.Run`, `Engine.NeverCreatedAgain` and the crash scenarios rely on the first reading.
- Service names are assumed not to be names that every JavaScript object inherits, such as "constructor", "toString" or "__proto__". The tracker and the component table are plain objects. For such a name, `this.incidents[name]` is truthy even when nothing is tracked, so the source takes the update path and throws at `incident.status`, while `Engine.Decide` answers `Create`. `config.components[name]` has the same problem.

/** Concrete report sequences that pin the engine's behaviour down on
    small, named inputs. */
module Scenarios {
  import opened Optional
  import opened Labels
  import opened Narrative
  import opened Payloads
  import opened Engine

  const Api: Config := Config(map["api" := "cmp-1"], "")

  function ApiReport(status: string): Report
  {
    Report("api", "API", status, Some("timeout"))
  }

  /** A first non-"ok" report, accepted by the server, leaves exactly the
      creation payload with the server's id in the tracker. */
  lemma FirstAcceptedReport(status: string, now: int, id: string)
    requires status != "ok"
    ensures Run(map[], Api, [Event(ApiReport(status), now, Accepted(id))])
         == map["api" := CreatePayload(Api, ApiReport(status), now).(id := Some(id))]
  {
    var e := Event(ApiReport(status), now, Accepted(id));
    RunUnfold(map[], Api, e, []);
    assert Decide(map[], e.report) == Create;
    assert Plan(map[], Api, e.report, now) == Sent(Post(CreatePayload(Api, e.report, now)));
  }

  /** A healthy service reporting "error" gets a new critical incident that
      notifies subscribers. */
  lemma HealthyServiceInError(now: int)
    ensures var d := Plan(map[], Api, ApiReport("error"), now);
      && d.Sent? && d.request.Post?
      && d.request.payload.severity == 3
      && d.request.payload.incident.impactOverride == Some("critical")
      && d.request.payload.incident.deliverNotifications
      && d.request.payload.incident.componentIds == Some([Some("cmp-1")])
      && d.request.payload.incident.components == map["cmp-1" := "major_outage"]
  {
  }

  /** A created "error" incident that then reports "ok" is closed with the
      "back to normal" narrative under the same id. */
  lemma ErrorThenOk(now: int, later: int)
    ensures var t := Run(map[], Api, [Event(ApiReport("error"), now, Accepted("inc-1"))]);
            var d := Plan(t, Api, ApiReport("ok"), later);
      && d.Sent? && d.request.Put?
      && d.request.payload.id == Some("inc-1")
      && d.request.payload.incident.status == "completed"
      && d.request.payload.incident.body == Opening("API") + " is now back to normal."
  {
    FirstAcceptedReport("error", now, "inc-1");
    var t := Run(map[], Api, [Event(ApiReport("error"), now, Accepted("inc-1"))]);
    assert t["api"].incident.status == "in_progress";
    assert PreviousSeverity(t, "api") == 4;
    assert Decide(t, ApiReport("ok")) == Update;
    assert UpdatedBody("API", 0, 4) == Some(BodyData(Opening("API") + " is now back to normal.", "completed"));
  }

  /** The same severity twice in a row sends nothing. */
  lemma RepeatedWarningIsIdle(now: int, later: int)
    ensures var t := Run(map[], Api, [Event(ApiReport("warning"), now, Accepted("inc-1"))]);
      Step(t, Api, ApiReport("warning"), later, Accepted("inc-2")) == StepResult(Idle, t)
  {
    FirstAcceptedReport("warning", now, "inc-1");
  }

  /** A created "error" incident that then reports an unknown status throws
      in the update instead of moving to maintenance. */
  lemma ErrorThenMaintenanceCrashes(now: int, later: int)
    ensures var t := Run(map[], Api, [Event(ApiReport("error"), now, Accepted("inc-1"))]);
      Step(t, Api, ApiReport("maintenance"), later, Accepted("inc-2")) == StepResult(Crashed(MissingNarrative), t)
  {
    FirstAcceptedReport("error", now, "inc-1");
    var t := Run(map[], Api, [Event(ApiReport("error"), now, Accepted("inc-1"))]);
    MaintenanceUpdateCrashes(t, Api, ApiReport("maintenance"), later, Accepted("inc-2"));
  }

  /** A recovered service that fails again is updated to "verifying" on
      the old incident, not given a new one. */
  lemma FailureAfterRecovery(d0: int, d1: int, d2: int)
    ensures var t := Run(map[], Api, [Event(ApiReport("error"), d0, Accepted("inc-1")),
                                      Event(ApiReport("ok"), d1, Accepted("inc-1"))]);
            var d := Plan(t, Api, ApiReport("warning"), d2);
      && "api" in t && t["api"].severity == 0 && t["api"].incident.status == "completed"
      && d.Sent? && d.request.Put?
      && d.request.payload.id == Some("inc-1")
      && d.request.payload.incident.status == "verifying"
  {
    var events := [Event(ApiReport("error"), d0, Accepted("inc-1")), Event(ApiReport("ok"), d1, Accepted("inc-1"))];
    var t1 := map["api" := CreatePayload(Api, ApiReport("error"), d0).(id := Some("inc-1"))];
    RunUnfold(map[], Api, events[0], [events[1]]);
    FirstAcceptedReport("error", d0, "inc-1");
    RunUnfold(map[], Api, events[0], []);
    assert events == [events[0]] + [events[1]];
    RunUnfold(t1, Api, events[1], []);
    var t2 := Run(map[], Api, events);
    assert t2 == Step(t1, Api, ApiReport("ok"), d1, Accepted("inc-1")).tracker;
    UpdateOfEngineRecord(t1, Api, ApiReport("ok"), d1, Accepted("inc-1"));
    RunFromEmptyWritesEngineRecords(Api, events);
    UpdateOfEngineRecord(t2, Api, ApiReport("warning"), d2, Accepted("inc-1"));
  }

  /** A hypothetical tracked record whose lifecycle label is a service
      status ranks below 2; moving it from severity 1 to 2 then finds no
      narrative and the update throws. The engine never writes such a
      label: against its own records this change is sent as an update
      (`Engine.UpdateOfEngineRecord`). */
  lemma LowPerformanceRecordToWarning(tracked: Incident, now: int)
    requires tracked.severity == 1 && tracked.incident.status == "low_performance"
    ensures Plan(map["api" := tracked], Api, ApiReport("warning"), now) == Crashed(MissingNarrative)
  {
  }
}

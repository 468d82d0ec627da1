/** The narrative builder: the text and lifecycle label sent with an
    incident update, chosen from the current and the previous severity. */
module Narrative {
  import opened Optional
  import Labels

  /** The `{body, status}` pair of an update. */
  datatype BodyData = BodyData(body: string, status: string)

  /** The opening every narrative shares: it names the service. */
  function Opening(display: string): string
  {
    "The service \"" + display + "\""
  }

  /** The guarded table of the narrative builder. `None` is the source's
      fall-through, which returns `undefined`. */
  function UpdatedBody(display: string, current: int, previous: int): (r: Option<BodyData>)
    ensures r.Some? <==>
      || (current == 0 && previous != 0)
      || (current in {1, 2, 3} && previous > 1)
      || (current == 4 && previous != 4)
    ensures r.Some? ==> r.value.status in Labels.LifecycleLabels
    ensures r.Some? ==> (r.value.status == "completed" <==> current == 0)
    ensures r.Some? ==> (r.value.status == "verifying" <==> current in {1, 2, 3})
    ensures r.Some? ==> (r.value.status == "in_progress" <==> current == 4)
    ensures r.Some? ==> Opening(display) <= r.value.body
  {
    if current == 0 && previous != 0 then
      Some(BodyData(Opening(display) + " is now back to normal.", "completed"))
    else if current == 1 && previous > 1 then
      Some(BodyData(Opening(display) + " seems to be recovering, but the performance is still degraded.", "verifying"))
    else if current == 2 && previous > 1 then
      Some(BodyData(Opening(display) + " is now experiencing minor issues.", "verifying"))
    else if current == 3 && previous > 1 then
      Some(BodyData(Opening(display) + " is now experiencing major issues.", "verifying"))
    else if current == 4 && previous != 4 then
      Some(BodyData(Opening(display) + " is now under maintenance.", "in_progress"))
    else
      None
  }

  /** Against a previous severity of 4 (what every lifecycle label ranks
      as), a narrative exists for every current severity except 4 itself. */
  lemma NarrativeAgainstUnknownPrevious(display: string, current: int)
    requires 0 <= current <= 4
    ensures UpdatedBody(display, current, 4).Some? <==> current != 4
  {
  }

  /** Equal severities do not rule a narrative out: (2, 2) and (3, 3) both
      produce "verifying", while (1, 1), (0, 0) and (4, 4) produce nothing. */
  lemma NarrativeOnEqualSeverities(display: string, s: int)
    requires 0 <= s <= 4
    ensures UpdatedBody(display, s, s).Some? <==> s in {2, 3}
  {
  }

  /** A recovery from severity 1 leaves no narrative for any degraded
      current severity, and escalating from 0 or 1 into 1, 2 or 3 does
      neither. */
  lemma NoNarrativeFromLowPrevious(display: string, current: int, previous: int)
    requires current in {1, 2, 3} && previous <= 1
    ensures UpdatedBody(display, current, previous).None?
  {
  }
}

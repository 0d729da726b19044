/** The state and event identifiers of a per-range sync state machine and their diagnostic names. */
module FsmIds {

  /** `stateID`: a `uint8`; only 0..4 name a state. */
  newtype StateId = x: int | 0 <= x < 0x100

  /** `eventID`: a `uint8`; only 0..1 name an event. */
  newtype EventId = x: int | 0 <= x < 0x100

  const StateNew: StateId := 0
  const StateScheduled: StateId := 1
  const StateDataParsed: StateId := 2
  const StateSkipped: StateId := 3
  const StateSent: StateId := 4

  const EventTick: EventId := 0
  const EventDataReceived: EventId := 1

  /** True of the five declared states. */
  predicate IsKnownState(s: StateId) {
    s <= StateSent
  }

  /** True of the two declared events. */
  predicate IsKnownEvent(e: EventId) {
    e <= EventDataReceived
  }

  /** `stateID.String`: the name of a declared state, "stateUnknown" for any other byte. */
  function StateName(s: StateId): (r: string)
    ensures r == "stateUnknown" <==> !IsKnownState(s)
  {
    if s == StateNew then "new"
    else if s == StateScheduled then "scheduled"
    else if s == StateDataParsed then "dataParsed"
    else if s == StateSkipped then "skipped"
    else if s == StateSent then "sent"
    else "stateUnknown"
  }

  /** `eventID.String`: the name of a declared event, "eventUnknown" for any other byte. */
  function EventName(e: EventId): (r: string)
    ensures r == "eventUnknown" <==> !IsKnownEvent(e)
  {
    if e == EventTick then "tick"
    else if e == EventDataReceived then "dataReceived"
    else "eventUnknown"
  }

  /** Distinct declared states have distinct names, so a name identifies its state. */
  lemma StateNamesDistinct(s: StateId, t: StateId)
    requires IsKnownState(s) && IsKnownState(t) && s != t
    ensures StateName(s) != StateName(t)
  {
  }

  /** Distinct declared events have distinct names. */
  lemma EventNamesDistinct(e: EventId, f: EventId)
    requires IsKnownEvent(e) && IsKnownEvent(f) && e != f
    ensures EventName(e) != EventName(f)
  {
  }
}

/** Security events and signals, as far as the rules and the incident ledger look at them. */
module Events {
  import opened Basics

  datatype Severity = Low | Medium | High | Critical

  datatype SensorType = Agent | Tetragon | Falco | Hubble | Network | System | NativeSensor

  datatype Actor = Actor(userId: Option<string>, role: Option<string>)

  datatype Action = Action(isSuccess: bool, statusCode: Option<nat>, endpoint: Option<string>, verb: Option<string>)

  /** An event with its time in milliseconds. */
  datatype Event = Event(eventId: nat, at: I64, appId: string, eventType: string, severity: Severity,
                         actor: Option<Actor>, ip: Option<string>, processName: Option<string>, sensor: SensorType,
                         rawEventType: string, action: Option<Action>)
  {
    function UserId(): Option<string> {
      if actor.Some? then actor.value.userId else None
    }

    /** The endpoint of the action, or nothing. */
    function Endpoint(): string {
      if action.Some? && action.value.endpoint.Some? then action.value.endpoint.value else ""
    }

    function StatusCode(): Option<nat> {
      if action.Some? then action.value.statusCode else None
    }
  }

  datatype Signal = Signal(signalId: nat, ruleName: string, severity: Severity, riskWeight: U32,
                           matchedEventIds: seq<nat>)
}

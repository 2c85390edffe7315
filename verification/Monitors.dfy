/** Monitors and the pure state machine that classifies their health. */
module Monitors {
  import opened Common

  /** Durations are in nanoseconds; `settings` stands for the fields that nothing here inspects. */
  datatype Monitor = Monitor(
    id: Id, enabled: bool, deleted: bool, interval: int, timeout: int, notifications: bool, settings: string)

  datatype MonitorState = Unknown | Up | Down | Paused

  datatype StateInput = Success | Failure | Disable | Enable

  datatype Transition = Transition(
    from: MonitorState, to: MonitorState, emitStateChange: bool, openIncident: bool,
    resolveIncident: bool, notifyDown: bool, notifyRecovery: bool)

  /** The contract says what the flags mean: each is determined by the two endpoints. */
  function NextState(current: MonitorState, input: StateInput): (t: Transition)
    ensures t.from == current
    ensures t.emitStateChange <==> t.from != t.to
    ensures t.openIncident <==> t.from != Down && t.to == Down
    ensures t.resolveIncident <==> t.from == Down && t.to == Up
    ensures t.notifyDown == t.openIncident && t.notifyRecovery == t.resolveIncident
    ensures t.to == Paused <==> input == Disable || (current == Paused && input != Enable)
    ensures input == Enable ==> t.to == if current == Paused then Unknown else current
    ensures current != Paused && input == Success ==> t.to == Up
    ensures current != Paused && input == Failure ==> t.to == Down
  {
    var t := Transition(current, current, false, false, false, false, false);
    match input
    case Disable => (if current != Paused then t.(to := Paused, emitStateChange := true) else t)
    case Enable => (if current == Paused then t.(to := Unknown, emitStateChange := true) else t)
    case Success => (
      match current
      case Unknown => t.(to := Up, emitStateChange := true)
      case Down => t.(to := Up, emitStateChange := true, resolveIncident := true, notifyRecovery := true)
      case _ => t)
    case Failure => (
      match current
      case Unknown | Up => t.(to := Down, emitStateChange := true, openIncident := true, notifyDown := true)
      case _ => t)
  }
}

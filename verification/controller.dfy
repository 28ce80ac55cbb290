/**
 * The sensor half of the control window: four live counts of processes,
 * machines, queued signals and outstanding requests, which the window
 * displays. Drawing and buttons are not part of this model.
 */
module Controller {
  import opened Events

  class ControllerSensor {
    var numProcesses: int
    var numSignals: int
    var numMachines: int
    var numRequests: int

    /** PCController(...): all four counts start at 0. */
    constructor ()
      ensures numProcesses == 0 && numSignals == 0 && numMachines == 0 && numRequests == 0
    {
      numProcesses, numSignals, numMachines, numRequests := 0, 0, 0, 0;
    }

    /** PCController::NotifyOnEvent: exactly the nine actions whose handlers move a count. */
    predicate NotifyOnEvent(action: int)
    {
      action == TraceProcessCreate || action == TraceProcessStop ||
      action == TraceMachineCreate || action == TraceMachineStop ||
      action == TraceSignalConsume || action == TraceSignalReceive ||
      action == TraceServiceRequest || action == TraceServiceFinish ||
      action == TraceSignalDrop
    }

    static predicate Overrides(ev: Event)
    {
      ev.ProcessCreate? || ev.ProcessDelete? || ev.MachineCreate? || ev.MachineDelete? ||
      ev.SignalConsume? || ev.SignalDrop? || ev.SignalReceive? ||
      ev.ServiceRequest? || ev.ServiceFinish?
    }

    /**
     * How a handler moves the counts (processes, signals, machines,
     * requests): each overridden handler moves exactly one of them by one.
     */
    static function Delta(ev: Event): (d: (int, int, int, int))
      ensures (d != (0, 0, 0, 0)) <==> Overrides(ev)
      ensures Overrides(ev) ==>
        (if d.0 != 0 then 1 else 0) + (if d.1 != 0 then 1 else 0) +
        (if d.2 != 0 then 1 else 0) + (if d.3 != 0 then 1 else 0) == 1
      ensures -1 <= d.0 <= 1 && -1 <= d.1 <= 1 && -1 <= d.2 <= 1 && -1 <= d.3 <= 1
    {
      match ev
      case ProcessCreate(_, _) => (1, 0, 0, 0)
      case ProcessDelete(_) => (-1, 0, 0, 0)
      case SignalReceive(_, _) => (0, 1, 0, 0)
      case SignalConsume(_, _) => (0, -1, 0, 0)
      case SignalDrop(_, _) => (0, -1, 0, 0)
      case MachineCreate(_) => (0, 0, 1, 0)
      case MachineDelete(_) => (0, 0, -1, 0)
      case ServiceRequest(_, _) => (0, 0, 0, 1)
      case ServiceFinish(_, _) => (0, 0, 0, -1)
      case _ => (0, 0, 0, 0)
    }

    /** PCController::Reset does nothing. */
    method Reset()
      modifies this
      ensures unchanged(this)
    {
    }

    /** The nine Ev* handlers of PCController, applied through their count changes. */
    method Handle(ev: Event)
      modifies this
      ensures var d := Delta(ev);
        numProcesses == old(numProcesses) + d.0 && numSignals == old(numSignals) + d.1 &&
        numMachines == old(numMachines) + d.2 && numRequests == old(numRequests) + d.3
      ensures !Overrides(ev) ==> unchanged(this)
    {
      match ev
      case ProcessCreate(_, _) => numProcesses := numProcesses + 1;
      case ProcessDelete(_) => numProcesses := numProcesses - 1;
      case MachineCreate(_) => numMachines := numMachines + 1;
      case MachineDelete(_) => numMachines := numMachines - 1;
      case SignalConsume(_, _) => numSignals := numSignals - 1;
      case SignalDrop(_, _) => numSignals := numSignals - 1;
      case SignalReceive(_, _) => numSignals := numSignals + 1;
      case ServiceRequest(_, _) => numRequests := numRequests + 1;
      case ServiceFinish(_, _) => numRequests := numRequests - 1;
      case _ =>
    }
  }
}

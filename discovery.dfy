/**
 * The pluggable-discovery worker as the discovery manager sees it: an id, a
 * lifecycle state and the port snapshot it keeps while syncing. The driver
 * that talks to the worker process is not part of this model; each driver
 * call is reduced to the state change it makes when it succeeds.
 */
module Discovery {

  /** Lifecycle of one worker. */
  datatype State = Dead | Idling | Running | Syncing

  /** One discoverable attachment point (a serial device, a network board, ...). */
  datatype Port = Port(address: string, protocol: string, protocolLabel: string, properties: map<string, string>)

  /** An add/remove notification produced by a syncing worker. */
  datatype Event = Event(eventType: string, port: Port)

  /** A registered worker: its id, its state and the ports it reported while syncing. */
  datatype Discovery = Discovery(id: string, state: State, syncPorts: seq<Port>)

  /** The lifecycle calls the manager fans out to every worker. */
  datatype Op = Run | Start | StartSync | Stop | Quit

  /** The state a driver call leads to when the worker acknowledges it. */
  function Target(op: Op): State
  {
    match op
    case Run => Idling
    case Start => Running
    case StartSync => Syncing
    case Stop => Idling
    case Quit => Dead
  }

  /**
   * The worker after a driver call: on success it is in the target state of
   * the call; on failure it is left as it was.
   */
  function Step(d: Discovery, op: Op, ok: bool): (r: Discovery)
    ensures r.id == d.id && r.syncPorts == d.syncPorts
  {
    if ok then d.(state := Target(op)) else d
  }
}

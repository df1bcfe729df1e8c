/**
 * Stand-ins for the collaborators a Meteor delegates to: the
 * AtmosphereResource, its Broadcaster and the BroadcasterConfig's filter
 * list. They keep plain fields; what the real objects do with a delegated
 * call (suspending, writing, fanning out, running timers) is not modelled,
 * only that the call was made, in a log kept on the resource.
 */
module Collaborators {
  import opened Wrappers

  /** Broadcaster.SCOPE as far as build distinguishes it. */
  datatype Scope = Application | Request

  /** java.util.concurrent.TimeUnit. */
  datatype TimeUnit = Nanoseconds | Microseconds | Milliseconds | Seconds | Minutes | Hours | Days

  /** AtmosphereResource.TRANSPORT: the kinds named in Meteor's documentation, and the rest. */
  datatype TransportKind = LongPolling | Streaming | WebSocket | Jsonp | OtherTransport

  /** An arbitrary Java Object passed to broadcast or attach; `Null` is Java's null. */
  datatype Payload = Null | Value(text: string)

  /** Opaque external objects, identified by value. */
  datatype Filter = Filter(name: string)
  datatype Serializer = Serializer(name: string)
  datatype Listener = Listener(name: string)

  /** One call a Meteor delegated to its resource or to the resource's broadcaster. */
  datatype Call =
    | SuspendCall(timeout: int)
    | SuspendForCall(timeout: int, unit: TimeUnit)
    | ResumeCall
    | ResumeOnBroadcastCall(flag: bool)
    | BroadcastCall(target: Broadcaster, message: Payload)
    | ScheduleFixedCall(target: Broadcaster, message: Payload, period: int, unit: TimeUnit)
    | DelayCall(target: Broadcaster, message: Payload, delay: int, unit: TimeUnit)
    | AddListenerCall(listener: Listener)
    | RemoveListenerCall(listener: Listener)

  /** A Broadcaster: its scope and the filter list of its BroadcasterConfig. */
  class Broadcaster {
    var filters: seq<Filter>
    var scope: Scope

    constructor (scope: Scope)
      ensures filters == [] && this.scope == scope
    {
      filters := [];
      this.scope := scope;
    }
  }

  /**
   * An AtmosphereResource: its current broadcaster, its serializer (Java
   * null is `None`), its negotiated transport, and the log of every call
   * delegated to it or to its broadcaster.
   */
  class Resource {
    var broadcaster: Broadcaster
    var serializer: Option<Serializer>
    var transport: TransportKind
    var calls: seq<Call>

    constructor (b: Broadcaster, t: TransportKind)
      ensures broadcaster == b && serializer == None && transport == t && calls == []
    {
      broadcaster := b;
      serializer := None;
      transport := t;
      calls := [];
    }
  }
}

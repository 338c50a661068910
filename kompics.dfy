/**
 * The part of the Kompics runtime that the modelled components call. The runtime itself
 * (subscription matching, priority dispatch, the membrane registry) is not modelled: a
 * component's calls to `triggerEvent` are recorded, in order, in a trigger log, and a
 * membrane is the value the component builds before handing it to the registry.
 */
module Kompics {

  /** Dispatch priority of a triggered event. */
  datatype Priority = Low | Normal | High

  /** The priority the runtime gives `triggerEvent(event, channel)` when none is passed. */
  const DefaultPriority: Priority := Normal

  /** A channel, identified by the reference the runtime handed out for it. */
  datatype Channel = Channel(ref: nat)

  /** One call of `triggerEvent(event, channel, priority)`. */
  datatype Trigger<E> = Trigger(event: E, channel: Channel, priority: Priority)

  /**
   * A component membrane: the event types accepted from outside and the channel each is
   * routed to, the event types emitted and the channel each comes from, and whether it
   * has been sealed.
   */
  datatype Membrane<T> = Membrane(inChannels: seq<(T, Channel)>, outChannels: seq<(T, Channel)>, sealed: bool)

  function EmptyMembrane<T>(): Membrane<T> {
    Membrane([], [], false)
  }

  function InChannel<T>(m: Membrane<T>, eventType: T, channel: Channel): Membrane<T> {
    m.(inChannels := m.inChannels + [(eventType, channel)])
  }

  function OutChannel<T>(m: Membrane<T>, eventType: T, channel: Channel): Membrane<T> {
    m.(outChannels := m.outChannels + [(eventType, channel)])
  }

  function Seal<T>(m: Membrane<T>): Membrane<T> {
    m.(sealed := true)
  }
}

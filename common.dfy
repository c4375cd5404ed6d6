/**
 * Values shared by the blackboard's components: identifiers, events, filters,
 * channels and the entries the components write to their loggers.
 * Event, filter and channel are owned by collaborators outside the core; only
 * the parts the core looks at are modelled.
 */
module Common {

  datatype Option<+T> = None | Some(value: T)

  /** A GUID; `EmptyGuid` stands for `Guid.Empty`. */
  type Guid = nat

  const EmptyGuid: Guid := 0

  /** An event type code (the source's `Event.Type`). */
  type EventType = nat

  /**
   * A published event. `extData` is the opaque payload; `publishToDataBase`
   * marks a durable event, one the event store is asked to keep.
   */
  datatype Event = Event(
    kind: EventType,
    subject: Guid,
    source: Guid,
    extData: seq<bv8>,
    publishToDataBase: bool)

  /**
   * An event filter: `pass` is the filter's `IsPass` predicate, left
   * uninterpreted, and `host` the host the subscriber lives on.
   */
  datatype Filter = Filter(host: Guid, pass: Event -> bool)
  {
    /** `IsPass`. */
    predicate IsPass(e: Event) { pass(e) }
  }

  /**
   * A sender channel. `handle` tells channel objects apart; `commId` is
   * `Some(id)` exactly when the channel is also a health-aware
   * communication channel (it reports connection state and has an `ID`).
   */
  datatype Channel = Channel(handle: nat, commId: Option<Guid>)
  {
    predicate HealthAware() { commId.Some? }
  }

  /** One send of an event to a channel by a sequencer step, and whether it failed. */
  datatype Transmission = Transmission(channel: Channel, event: Event, failed: bool)

  /** The events of a transmission log, in order. */
  function Delivered(ds: seq<Transmission>): (es: seq<Event>)
    ensures |es| == |ds|
    ensures forall i :: 0 <= i < |ds| ==> es[i] == ds[i].event
  {
    if ds == [] then [] else Delivered(ds[..|ds| - 1]) + [ds[|ds| - 1].event]
  }

  /** Entries written to the components' loggers (warnings and errors only). */
  datatype LogEntry =
    | NullChannelOnAdd(cookie: Guid)
    | BacklogGrowing(subscriber: Guid, active: int, filter: Filter)
    | BacklogShrinking(subscriber: Guid, active: int, filter: Filter)
    | SendFailed(event: Event)
    | MissingSubject(kind: EventType)
    | MissingSource(kind: EventType)
    | StoreFailed(kind: EventType)
    | LocalPublishFailed(event: Event)
    | RemotePublishFailed(event: Event)
}

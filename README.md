# Blackboard event bus — a Dafny model

The Blackboard is an in-process publish/subscribe hub: components publish
events to it, and it keeps a durable copy of the events that ask for one.
It delivers every event to each local subscriber whose filter accepts it.
Remote processes reach the same operations through a service contract that
routes their calls onto sequencers, which are serial work queues.

The model follows the core's four source files:

- `common.dfy`: identifiers, events, filters, sender channels and log
  entries. Only the parts the core looks at are modelled.
- `event_store.dfy` (`EventListDB`, Events/EventList.cs): the pure
  admission of an event into the store:
  - durable events only;
  - warnings for a missing subject or source computer;
  - the parameter XML serialised, with a blank result normalised to null;
  - for a non-null event, every exception swallowed and logged.
- `delivery.dfy` (`SubscriberLocalEvents`): one subscriber's in-flight
  counter and its backlog warnings. The subscriber's sequencer is a FIFO
  queue of pending sends, drained one send at a time by `ProcessNext`:
  - each send uses the channel current when it runs;
  - a failing send is logged and swallowed.
  Value-level functions (`Accept`, `Refuse`, `Send`, `Run`) specify the class and
  carry the trace lemmas.
- `registry.dfy` (`LocalEventsSubscribersList`): the cookie → subscriber
  table. It provides:
  - upsert (`Add`);
  - delete and close (`Remove`);
  - lookup;
  - fan-out over a snapshot;
  - eviction when a health-aware channel disconnects.
  Functions over the table's contents (`AddEntry`, `RemoveEntry`, `Evict`,
  `Recipients`) specify the class methods, and the predicate `FanOut`
  specifies a fan-out's effect on the subscribers' lanes.
- `blackboard.dfy` (`Blackboard`): command handling plus the local and
  remote contracts. It has three sequencers:
  - publish (`_lastTask`): store, then fan out;
  - remote publish (`_publishEventTask`);
  - subscribe/unsubscribe (`_subsribeTask`).

Every lock region is one atomic method. Every sequencer is a `seq` field.
The blackboard's three are drained by `Step…` methods that run the oldest
unit of work; each subscriber's own is drained by `ProcessNext`.

Some behaviours of the code are modelled as written:

- `Add` with a new cookie and a channel that is not health-aware inserts the
  subscriber, then fails with a null reference when it attaches the
  state-change handler through a failed cast. The entry stays inserted, and
  the outcome is `NullReference`.
- `Add` with a new cookie and a health-aware channel attaches the handler
  twice: once in the insert branch and once in the common tail. The
  `handlers` field records both attachments. `EvictIsIdempotent` shows that
  the second run of the handler evicts nothing more.
- Eviction after a disconnection removes subscribers without closing their
  channels; only `Remove` closes.
- The store computes the normalised parameter string and then drops it, so
  admission changes no state, and the event passed by `ref` is never
  reassigned.
- A subscriber's `OnNewEvent` increments `_activeEventsCount` before it
  enqueues the send. When the enqueue throws, no send is queued, so nothing
  ever decrements the count again. `RunKeepsBacklog` shows the counter
  stays above the backlog by exactly the number of refused enqueues.
- The same exception ends the registry's fan-out at that subscriber. The
  subscribers later in the walk do not get the event, and the publish unit
  ends with the exception. `FanOutDelivers` and `FanOutRefusesOnce` state
  this.

## Model

| member | source | states |
|---|---|---|
| EventStore.FieldWarnings | Source/Aerotur.WebSpiders.Blackboard/Events/EventList.cs:39-47 | a missing-subject warning is logged iff the subject is the empty GUID; a missing-source warning iff the source computer is; each at most once, the subject warning first; nothing else is logged |
| EventStore.ParamsString | Source/Aerotur.WebSpiders.Blackboard/Events/EventList.cs:50-61 | null exactly when there is no XML or its text is empty or all white space; otherwise the text itself, which then holds a non-white-space character |
| EventStore.AddObject | Source/Aerotur.WebSpiders.Blackboard/Events/EventList.cs:34-63 | the field warnings are always logged first; it throws exactly when serialising the parameters throws, and otherwise yields the normalised parameter string |
| EventStore.AddEvent | Source/Aerotur.WebSpiders.Blackboard/Events/EventList.cs:73-91 | a non-durable event is returned at once with nothing logged; a durable one is warned about iff its fields are empty; a failure is swallowed iff serialisation throws, and it logs one store error after the warnings; it never throws |
| Delivery.Arrive | Source/Aerotur.WebSpiders.Blackboard/Subscribers/SubscriberLocalEvents.cs:59-78 | active grows by exactly one; the growth warning fires iff active − prev ≥ 40; the shrink warning fires iff the growth one does not and prev − active > 40; prev becomes active iff a warning fired; afterwards −40 ≤ active − prev < 40 |
| Delivery.Accept | Source/Aerotur.WebSpiders.Blackboard/Subscribers/SubscriberLocalEvents.cs:59-79 | an accepted arrival raises the counter by one, keeps the log's earlier entries, sends nothing yet and queues exactly one send of the event behind the pending ones; `AcceptKeepsOrder`, `RunKeepsOrder` and `Refuse`'s contract state the rest about it |
| Delivery.Send | Source/Aerotur.WebSpiders.Blackboard/Subscribers/SubscriberLocalEvents.cs:85-104 | the oldest pending event is sent on the given channel and leaves the queue; the counter drops by exactly one whether or not the send fails; a failure adds one error entry and nothing else; with nothing pending nothing changes |
| Delivery.Refuse | Source/Aerotur.WebSpiders.Blackboard/Subscribers/SubscriberLocalEvents.cs:59-79 | a refused enqueue leaves the queue as it was, while it updates the counters and warnings exactly as an accepted one does |
| Delivery.RunKeepsOrder | Source/Aerotur.WebSpiders.Blackboard/Subscribers/SubscriberLocalEvents.cs:55-104 | over any interleaving of arrivals, refused arrivals and sends, the events delivered followed by those still pending are exactly the events queued, in arrival order |
| Delivery.AcceptKeepsOrder | Source/Aerotur.WebSpiders.Blackboard/Subscribers/SubscriberLocalEvents.cs:79 | an arrival enqueues exactly one send, of that event, at the end |
| Delivery.SendKeepsOrder | Source/Aerotur.WebSpiders.Blackboard/Subscribers/SubscriberLocalEvents.cs:85-104 | a send moves the head of the pending events to the end of the delivered ones, so it neither loses nor reorders events |
| Delivery.RunKeepsBacklog | Source/Aerotur.WebSpiders.Blackboard/Subscribers/SubscriberLocalEvents.cs:59-103 | from a consistent start, every interleaving keeps the in-flight counter equal to the number of pending sends plus the number of refused enqueues, and the reference count non-negative |
| Delivery.DeliveredArrived | Source/Aerotur.WebSpiders.Blackboard/Subscribers/SubscriberLocalEvents.cs:55-104 | on a fresh subscriber the i-th send carries the i-th event that arrived |
| Delivery.Subscriber.constructor | Source/Aerotur.WebSpiders.Blackboard/Subscribers/SubscriberLocalEvents.cs:44-49 | stores id, filter and channel, with nothing pending and the counters at zero, so the counter equals the backlog; `id` is a constant and never changes |
| Delivery.Subscriber.OnNewEvent | Source/Aerotur.WebSpiders.Blackboard/Subscribers/SubscriberLocalEvents.cs:55-81 | it throws iff the enqueue is refused; the new state is `Accept` of the old one (counters updated and any warning logged, as in `Arrive`, and exactly one send of the event queued), or `Refuse` of it when refused; filter and channel are unchanged |
| Delivery.Subscriber.ProcessNext | Source/Aerotur.WebSpiders.Blackboard/Subscribers/SubscriberLocalEvents.cs:85-104 | the new state is `Send` of the old one on the channel the subscriber holds when the send runs, so a channel replaced by `Add` receives the sends still queued |
| Registry.AddEntry | Source/Aerotur.WebSpiders.Blackboard/Subscribers/LocalEventsSubscribersList.cs:73-99 | a new cookie with a null channel is refused, leaving the table unchanged; a new cookie with a channel adds exactly that entry, and the outcome is a null reference iff the channel is not health-aware; an existing cookie keeps the key set and size, gets the new filter, and changes channel only for a non-null one; all other entries are unchanged |
| Registry.RemoveEntry | Source/Aerotur.WebSpiders.Blackboard/Subscribers/LocalEventsSubscribersList.cs:119-134 | returns the entry iff the cookie was present; removes exactly that key, so the size drops by one; all other entries are unchanged |
| Registry.Evict | Source/Aerotur.WebSpiders.Blackboard/Subscribers/LocalEventsSubscribersList.cs:158-177 | a still-connected channel changes nothing; otherwise exactly the cookies bound to a health-aware channel with that ID are removed, and every kept entry is unchanged |
| Registry.RemoveIsIdempotent | Source/Aerotur.WebSpiders.Blackboard/Subscribers/LocalEventsSubscribersList.cs:119-134 | a second `Remove` of the same cookie finds nothing and changes nothing |
| Registry.AddThenRemove | Source/Aerotur.WebSpiders.Blackboard/Subscribers/LocalEventsSubscribersList.cs:67-135 | removing a cookie just added with a channel restores the table and returns the added entry |
| Registry.UpdatesCompose | Source/Aerotur.WebSpiders.Blackboard/Subscribers/LocalEventsSubscribersList.cs:73-98 | a filter-only `Add` followed by a full `Add` of the same cookie equals the full one alone, whether or not the cookie was present |
| Registry.EvictIsIdempotent | Source/Aerotur.WebSpiders.Blackboard/Subscribers/LocalEventsSubscribersList.cs:158-177 | running the eviction twice (the handler may be attached twice) equals running it once |
| Registry.FanOut | Source/Aerotur.WebSpiders.Blackboard/Subscribers/LocalEventsSubscribersList.cs:37-59 | the definition of one fan-out's effect on the lanes: a walk over every cookie once, in an open order, in which each recipient reached gets `Arrived` of the event and the first refusing recipient ends the walk; what it implies is stated by `FanOutDelivers` and `FanOutRefusesOnce` |
| Registry.FanOutDelivers | Source/Aerotur.WebSpiders.Blackboard/Subscribers/LocalEventsSubscribersList.cs:37-59 | a fan-out throws iff some recipient's enqueue is refused; one that does not throw gives every recipient `Accept` of the event once and leaves every other lane as it was |
| Registry.FanOutRefusesOnce | Source/Aerotur.WebSpiders.Blackboard/Subscribers/LocalEventsSubscribersList.cs:49-58 | only recipients' lanes change, and at most one refusing subscriber's lane changes: the first refusal ends the walk |
| Registry.EvictKeeps | Source/Aerotur.WebSpiders.Blackboard/Subscribers/LocalEventsSubscribersList.cs:164-168 | after a disconnection, an entry stays iff its channel is not the health-aware channel with that ID |
| Registry.SubscribersList.constructor | Source/Aerotur.WebSpiders.Blackboard/Subscribers/LocalEventsSubscribersList.cs:16-17 | the table starts empty, with no handler attached, nothing closed and nothing logged |
| Registry.SubscribersList.Count | Source/Aerotur.WebSpiders.Blackboard/Subscribers/LocalEventsSubscribersList.cs:24-31 | returns the number of entries and changes nothing |
| Registry.SubscribersList.GetSubscriber | Source/Aerotur.WebSpiders.Blackboard/Subscribers/LocalEventsSubscribersList.cs:142-153 | returns the subscriber stored under the cookie iff the cookie is present, otherwise null; changes nothing |
| Registry.SubscribersList.AttachHandler | Source/Aerotur.WebSpiders.Blackboard/Subscribers/LocalEventsSubscribersList.cs:101-105 | the common tail of `Add` attaches the handler once iff the given channel is health-aware and the insert branch did not throw |
| Registry.SubscribersList.AddNew | Source/Aerotur.WebSpiders.Blackboard/Subscribers/LocalEventsSubscribersList.cs:75-88 | the new-cookie branch plus the tail: the table and outcome are `AddEntry`'s; a new subscriber is fresh with an empty lane; a health-aware channel is attached twice; a null channel logs one error |
| Registry.SubscribersList.AddPresent | Source/Aerotur.WebSpiders.Blackboard/Subscribers/LocalEventsSubscribersList.cs:90-105 | the update branch plus the tail: the table is `AddEntry`'s, with the same subscriber objects; every lane, the updated one included, keeps its pending sends and counters; a health-aware channel is attached once; nothing is logged or closed |
| Registry.SubscribersList.Add | Source/Aerotur.WebSpiders.Blackboard/Subscribers/LocalEventsSubscribersList.cs:67-106 | the table and outcome are those of `AddEntry`; existing subscribers remain the same objects, and an updated one keeps its lane; handler attachments and the log are as described above; nothing is closed |
| Registry.SubscribersList.Remove | Source/Aerotur.WebSpiders.Blackboard/Subscribers/LocalEventsSubscribersList.cs:113-135 | the table is `RemoveEntry`'s; returns the removed subscriber iff the cookie was present, otherwise null; closes its channel iff that is health-aware; the remaining subscribers are the same objects |
| Registry.SubscribersList.RemovePresent | Source/Aerotur.WebSpiders.Blackboard/Subscribers/LocalEventsSubscribersList.cs:122-132 | a present cookie's subscriber is returned, its key alone is deleted, and its health-aware channel is closed |
| Registry.SubscribersList.Snapshot | Source/Aerotur.WebSpiders.Blackboard/Subscribers/LocalEventsSubscribersList.cs:40-47 | the copy holds the table's subscribers, each once, in an order (a ghost sequence of cookies, one per key) the model leaves open |
| Registry.SubscribersList.Dispatch | Source/Aerotur.WebSpiders.Blackboard/Subscribers/LocalEventsSubscribersList.cs:49-58 | the copy is walked in order; each subscriber reached whose filter passes the event gets it once (`Arrived`); the walk ends, throwing, at the first such subscriber whose enqueue is refused, and visits the whole copy otherwise; the others, and every filter and channel, are unchanged |
| Registry.SubscribersList.OnNewEvent | Source/Aerotur.WebSpiders.Blackboard/Subscribers/LocalEventsSubscribersList.cs:37-59 | the table is unchanged, and the lanes before and after are a `FanOut` of the event: a walk over every cookie once, stopped by the first refused enqueue of a recipient |
| Registry.SubscribersList.OnChannelStateChanged | Source/Aerotur.WebSpiders.Blackboard/Subscribers/LocalEventsSubscribersList.cs:158-177 | the table is `Evict`'s; kept subscribers are the same objects; nothing is closed, attached or logged |
| Board.ExecuteBlackboardCommand | Source/Aerotur.WebSpiders.Blackboard/Blackboard.cs:53-84 | a null command does nothing; the reserved commands succeed; any other is not supported; with a response channel the outcome is sent on it, with null data iff the command succeeded; without one it throws iff the command is not supported |
| Board.ApplyRequest | Source/Aerotur.WebSpiders.Blackboard/Blackboard.cs:147-165 | one subscribe-lane unit's effect on the table: an unsubscribe deletes exactly its cookie, a subscribe for another host changes nothing, and no unit touches another cookie's entry; `OtherRequestKeeps` and `RequestsPerCookie` build on it |
| Board.RequestsPerCookie | Source/Aerotur.WebSpiders.Blackboard/Blackboard.cs:194-212 | on the subscribe lane, the entry a cookie ends up with depends only on that cookie's requests, applied in the order they were queued |
| Board.Blackboard.constructor | Source/Aerotur.WebSpiders.Blackboard/Blackboard.cs:42-47 | an empty registry with nothing attached, closed or logged, empty sequencers and empty logs |
| Board.Blackboard.AddEventToQueue | Source/Aerotur.WebSpiders.Blackboard/Blackboard.cs:116-119 | the event is appended to the publish lane and the accepted history, and nothing else changes |
| Board.Blackboard.Store | Source/Aerotur.WebSpiders.Blackboard/Blackboard.cs:104-107 | the oldest queued event leaves the publish lane, and the store's log grows by exactly what `AddEvent` logs for it; the registry and the lanes are untouched |
| Board.Blackboard.StepPublish | Source/Aerotur.WebSpiders.Blackboard/Blackboard.cs:102-109 | the oldest queued event is stored, then the same event is fanned out (`FanOut`, with its exception); events are stored in the order accepted; the table is unchanged, and so is everything outside the publish lane, the store's side and the lanes |
| Board.Blackboard.LocalPublishEvent | Source/Aerotur.WebSpiders.Blackboard/Blackboard.cs:127-139 | the event is queued, or when the enqueue fails, one error is logged and the failure is rethrown |
| Board.Blackboard.RemotePublishEvent | Source/Aerotur.WebSpiders.Blackboard/Blackboard.cs:175-186 | the event is queued on the remote publish lane, or when the enqueue fails, one error is logged and nothing is thrown |
| Board.Blackboard.StepRemotePublish | Source/Aerotur.WebSpiders.Blackboard/Blackboard.cs:180 | the oldest remote publish runs as a local publish: it leaves the remote lane and joins the publish lane and the accepted history, or is logged as refused; nothing is stored, so the store still sees events in the order accepted; its failure stays inside the lane |
| Board.Blackboard.LocalSubscribe | Source/Aerotur.WebSpiders.Blackboard/Blackboard.cs:147-155 | `Add` runs iff the filter's host is this host, with all that `Add` promises: the table and outcome are `AddEntry`'s, existing subscribers stay the same objects with the same lanes, a new one is fresh with an empty lane, and the handlers and log grow as `Add` makes them grow; otherwise the registry is unchanged |
| Board.Blackboard.LocalUnsubscribe | Source/Aerotur.WebSpiders.Blackboard/Blackboard.cs:161-165 | exactly the registry's `Remove`: the table is `RemoveEntry`'s, the remaining subscribers are the same objects with the same lanes, a health-aware channel is closed, and nothing is attached or logged |
| Board.Blackboard.RemoteSubscribe | Source/Aerotur.WebSpiders.Blackboard/Blackboard.cs:194-201 | one subscribe request is queued on the subscribe lane; a null channel description gives a null channel, a filter-only update; when the enqueue is refused nothing is queued and the exception reaches the caller |
| Board.Blackboard.RemoteUnsubscribe | Source/Aerotur.WebSpiders.Blackboard/Blackboard.cs:207-212 | one unsubscribe request is queued on the same lane as subscribes; when the enqueue is refused nothing is queued and the exception reaches the caller |
| Board.Blackboard.Serve | Source/Aerotur.WebSpiders.Blackboard/Blackboard.cs:147-165 | one request run against the registry: the table becomes `ApplyRequest` of it; handlers, log and closed channels grow by what that subscribe or unsubscribe does; kept subscribers are the same objects with the same lanes, a new one is fresh with an empty lane |
| Board.Blackboard.StepSubscribe | Source/Aerotur.WebSpiders.Blackboard/Blackboard.cs:194-212 | the oldest request leaves the lane and is served as in `Serve`; with nothing queued nothing changes |

## Left out

- Threads, `lock` and the `ConsecutiveTask` implementation. Each lock region
  is one atomic method, and each sequencer is a queue drained by a step
  method, so interleavings inside a lock region are not modelled.
- Registry.SubscribersList.OnNewEvent: reads each subscriber's filter in the
  same atomic step as the copy. It does not model a filter replaced between
  taking the copy and testing it.
- Dictionary enumeration order. The snapshot's order is a ghost result that
  the model leaves open; `FanOut` is stated for any such order.
- The enumerators of `LocalEventsSubscribersList` (lines 183-195). They
  iterate the live dictionary without the lock.
- NLog output. The warnings and errors are entries in a `log` field; the
  texts, the debug lines and the `LOG_SUBSCRIBERS` lines are not modelled.
- `IEventFilter.IsPass`, `GetParamsAsXml` with the XML's `ToString`, and
  `ITransport.CreateSenderChannel` are uninterpreted functions.
- The host ID that `UnitySingleton` resolves is a constructor parameter.
- Whether an enqueue onto a sequencer throws is a parameter: `enqueueFails`
  for the blackboard's lanes and for one subscriber, and `refusing`, the set
  of subscribers whose enqueue throws, for a fan-out. Whether `SetData`
  throws is the `failed` parameter of `ProcessNext`.
- What a sequencer does with an exception that ends a unit (the fan-out's,
  or `Add`'s null reference) is not modelled; the unit's effects up to the
  exception are.
- Whether a channel is still connected is a parameter of the state-change
  handler.
- `SendResponseData` on a command's response channel is modelled as
  "response sent". Its own failures are not modelled.
- Registry.SubscribersList.Close: `Close()` on a removed subscriber's
  channel is a call into a channel object outside the core, modelled as
  never failing. If it threw, the exception would leave `Remove` after
  the key is already deleted; that path is not modelled.
- `OnUpdateEntityCommand` and `Close` have empty bodies and are not
  modelled separately.
- `ISrvcBlackboard.GetHostID` and `IExecutiveService.ExecuteCommand` are
  left out. They return the host ID unchanged and forward to
  `ExecuteBlackboardCommand`.
- Delivery.Arrive: does not model 32-bit wrap-around of
  `_activeEventsCount`, because that would need more than two billion
  pending sends for one subscriber.
- A null filter is not modelled. Neither is a null event: `AddEvent` would
  throw on its durability flag, and again from its own handler when it
  reads the event's type to log the error, so the publish unit would end
  before the fan-out.
- `BlackboardWrapper`, the `IEventList` interface, the event store factory
  and `AddToDBTask` are not part of this model. `AddToDBTask` is declared
  but never used.
- The test program (timers, console output, the payload type) is not part
  of this model.

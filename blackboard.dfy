/**
 * The blackboard façade (`Blackboard`): administrative command dispatch,
 * the local contract (publish, subscribe, unsubscribe) and the remote one,
 * which routes work onto sequencers.
 *
 * Three sequencers are FIFO queues of pending work, each drained one unit at
 * a time by a `Step` method (the fourth, each subscriber's own, is drained by
 * `Subscriber.ProcessNext`):
 *   - `publishQueue` (`_lastTask`): `AddEventToQueue`; each unit stores the
 *     event, then fans it out;
 *   - `remotePublishQueue` (`_publishEventTask`): a remote publish, which
 *     becomes a local publish when it runs;
 *   - `subscribeQueue` (`_subsribeTask`): remote subscribe and unsubscribe.
 * The host identity and the transport's channel factory are constructor
 * parameters; whether an enqueue throws is a parameter of the call.
 */
module Board {
  import opened Common
  import opened EventStore
  import opened Delivery
  import opened Registry

  /** The command IDs the blackboard knows, and every other one. */
  datatype CommandId = UpdateEntity | UpdateEntityCollection | CloseService | Other(code: nat)

  /** A command and its optional response channel. */
  datatype Command = Command(id: CommandId, responseChannel: Option<Channel>)

  /** The `ErrorResult` built around the `NotSupportedException` for an unknown command. */
  datatype ErrorResult = NotSupported(id: CommandId)

  /** What handling a command did: nothing, a response sent, or an exception thrown to the caller. */
  datatype CommandOutcome =
    | NoOp
    | Responded(channel: Channel, data: Option<ErrorResult>)
    | Thrown(error: ErrorResult)

  /** The reserved commands, whose handlers do nothing. */
  predicate Supported(id: CommandId)
  {
    !id.Other?
  }

  /**
   * `ExecuteBlackboardCommand`: a null command is ignored; a reserved one
   * succeeds; any other fails as not supported. With a response channel the
   * outcome is sent on it (null data on success); without one a failure is
   * thrown and a success is silent.
   */
  function ExecuteBlackboardCommand(command: Option<Command>): (r: CommandOutcome)
    ensures command.None? ==> r == NoOp
    ensures r.Thrown? <==> command.Some? && !Supported(command.value.id) && command.value.responseChannel.None?
    ensures r.Thrown? ==> r.error == NotSupported(command.value.id)
    ensures r.Responded? <==> command.Some? && command.value.responseChannel.Some?
    ensures r.Responded? ==>
              && r.channel == command.value.responseChannel.value
              && (r.data.None? <==> Supported(command.value.id))
              && (r.data.Some? ==> r.data.value == NotSupported(command.value.id))
  {
    match command
    case None => NoOp
    case Some(c) =>
      var error := if Supported(c.id) then None else Some(NotSupported(c.id));
      if c.responseChannel.Some? then Responded(c.responseChannel.value, error)
      else if error.Some? then Thrown(error.value)
      else NoOp
  }

  /** A unit of work on the subscribe lane. */
  datatype Request =
    | SubscribeRequest(filter: Filter, channel: Option<Channel>, cookie: Guid)
    | UnsubscribeRequest(cookie: Guid)

  /** The table after one subscribe-lane unit: a local subscribe's `Add`, or `Remove`. */
  function ApplyRequest(m: Entries, hostId: Guid, req: Request): (r: Entries)
    ensures req.UnsubscribeRequest? ==> r.Keys == m.Keys - {req.cookie}
    ensures req.SubscribeRequest? && req.filter.host != hostId ==> r == m
    ensures forall k :: k in r && k != req.cookie ==> k in m && r[k] == m[k]
  {
    match req
    case SubscribeRequest(f, ch, c) => if f.host == hostId then AddEntry(m, c, f, ch).0 else m
    case UnsubscribeRequest(c) => RemoveEntry(m, c).0
  }

  /** The table after the units, in queue order. */
  function ApplyRequests(m: Entries, hostId: Guid, reqs: seq<Request>): Entries
    decreases |reqs|
  {
    if reqs == [] then m
    else ApplyRequest(ApplyRequests(m, hostId, reqs[..|reqs| - 1]), hostId, reqs[|reqs| - 1])
  }

  /** The units about one cookie, in queue order. */
  function About(reqs: seq<Request>, cookie: Guid): (r: seq<Request>)
    ensures |r| <= |reqs|
    ensures forall i :: 0 <= i < |r| ==> r[i].cookie == cookie
  {
    if reqs == [] then []
    else
      var last := reqs[|reqs| - 1];
      About(reqs[..|reqs| - 1], cookie) + (if last.cookie == cookie then [last] else [])
  }

  /** Whether a unit is a subscribe for this host, the only kind that reaches `Add`. */
  predicate IsLocalSubscribe(hostId: Guid, req: Request)
  {
    req.SubscribeRequest? && req.filter.host == hostId
  }

  /** The `StateChanged` attachments one subscribe-lane unit makes on a table `m`. */
  function AttachedBy(m: Entries, hostId: Guid, req: Request): seq<Channel>
  {
    if IsLocalSubscribe(hostId, req) then Attached(req.cookie in m, req.channel) else []
  }

  /** The registry's log entries one subscribe-lane unit writes on a table `m`. */
  function LoggedBy(m: Entries, hostId: Guid, req: Request): seq<LogEntry>
  {
    if IsLocalSubscribe(hostId, req) && req.cookie !in m && req.channel.None? then [NullChannelOnAdd(req.cookie)] else []
  }

  /** The channels one subscribe-lane unit closes on a table `m`. */
  function ClosedBy(m: Entries, req: Request): seq<Channel>
  {
    if req.UnsubscribeRequest? && req.cookie in m && m[req.cookie].channel.HealthAware() then [m[req.cookie].channel] else []
  }

  /** What the table holds for a cookie. */
  function Lookup(m: Entries, cookie: Guid): Option<Entry>
  {
    if cookie in m then Some(m[cookie]) else None
  }

  /** A unit about another cookie does not touch this cookie's entry. */
  lemma OtherRequestKeeps(m: Entries, hostId: Guid, req: Request, cookie: Guid)
    requires req.cookie != cookie
    ensures Lookup(ApplyRequest(m, hostId, req), cookie) == Lookup(m, cookie)
  {
  }

  /**
   * Per-cookie ordering on the subscribe lane: what a cookie ends up with
   * depends only on the subscribes and unsubscribes for that cookie, taken
   * in the order they were queued; units for other cookies neither delay
   * nor reorder them.
   */
  lemma {:induction false} RequestsPerCookie(m: Entries, hostId: Guid, reqs: seq<Request>, cookie: Guid)
    ensures Lookup(ApplyRequests(m, hostId, reqs), cookie) == Lookup(ApplyRequests(m, hostId, About(reqs, cookie)), cookie)
    decreases |reqs|
  {
    if reqs != [] {
      var init := reqs[..|reqs| - 1];
      var last := reqs[|reqs| - 1];
      RequestsPerCookie(m, hostId, init, cookie);
      var mine := About(init, cookie);
      if last.cookie == cookie {
        assert About(reqs, cookie) == mine + [last];
        assert (mine + [last])[..|mine|] == mine;
        RequestsPerCookieStep(ApplyRequests(m, hostId, init), ApplyRequests(m, hostId, mine), hostId, last, cookie);
      } else {
        assert About(reqs, cookie) == mine;
        OtherRequestKeeps(ApplyRequests(m, hostId, init), hostId, last, cookie);
      }
    }
  }

  /** Two tables that agree on a cookie still agree on it after the same unit for that cookie. */
  lemma RequestsPerCookieStep(m1: Entries, m2: Entries, hostId: Guid, req: Request, cookie: Guid)
    requires req.cookie == cookie && Lookup(m1, cookie) == Lookup(m2, cookie)
    ensures Lookup(ApplyRequest(m1, hostId, req), cookie) == Lookup(ApplyRequest(m2, hostId, req), cookie)
  {
  }

  /** The wire description a remote subscriber sends for its channel. */
  type ChannelDescription = nat

  /** `Blackboard`. */
  class Blackboard {
    /** The host identity (`ITransport.HostID`). */
    const hostId: Guid
    /** The transport's `CreateSenderChannel`. */
    const createSenderChannel: ChannelDescription -> Channel
    /** The event's `GetParamsAsXml`, serialised. */
    const xmlOf: Event -> XmlParams
    const registry: SubscribersList

    var publishQueue: seq<Event>
    var remotePublishQueue: seq<Event>
    var subscribeQueue: seq<Request>
    /** What the "Blackboard" logger and the event store's logger received. */
    var log: seq<LogEntry>
    var storeLog: seq<LogEntry>

    /** Every event `AddEventToQueue` accepted, in call order. */
    ghost var published: seq<Event>
    /** The events handed to the event store, in order. */
    ghost var stored: seq<Event>

    /**
     * The publish lane's invariant: each accepted event is either still
     * queued or its unit has run, and the store saw the events in the order
     * they were accepted. A unit hands the fan-out the event it stored (see
     * `StepPublish`).
     */
    ghost predicate Valid()
      reads this, registry
    {
      && registry.Valid()
      && published == stored + publishQueue
    }

    constructor (hostId: Guid, createSenderChannel: ChannelDescription -> Channel, xmlOf: Event -> XmlParams)
      ensures Valid() && fresh(registry)
      ensures this.hostId == hostId && this.createSenderChannel == createSenderChannel && this.xmlOf == xmlOf
      ensures registry.subscribers == map[] && registry.Entries() == map[]
      ensures registry.handlers == [] && registry.closed == [] && registry.log == []
      ensures publishQueue == [] && remotePublishQueue == [] && subscribeQueue == []
      ensures log == [] && storeLog == [] && published == []
    {
      this.hostId := hostId;
      this.createSenderChannel := createSenderChannel;
      this.xmlOf := xmlOf;
      registry := new SubscribersList();
      publishQueue, remotePublishQueue, subscribeQueue := [], [], [];
      log, storeLog := [], [];
      published, stored := [], [];
    }

    /** `AddEventToQueue`: queue the event on the publish lane. */
    method AddEventToQueue(e: Event)
      requires Valid()
      modifies this`publishQueue, this`published
      ensures Valid()
      ensures publishQueue == old(publishQueue) + [e] && published == old(published) + [e]
      ensures stored == old(stored)
      ensures remotePublishQueue == old(remotePublishQueue) && subscribeQueue == old(subscribeQueue)
      ensures log == old(log) && storeLog == old(storeLog)
    {
      publishQueue := publishQueue + [e];
      published := published + [e];
    }

    /**
     * One unit of the publish lane: the oldest queued event is given to the
     * event store, then to the registry's fan-out, each exactly once. The
     * store neither fails nor changes the event the fan-out gets. A refused
     * enqueue in the fan-out (`refusing`, see `FanOut`) ends the unit
     * with an exception; what the sequencer does with it is not part of this
     * model. Nothing but the publish queue, the store's side and the
     * subscribers' lanes changes.
     */
    method StepPublish(refusing: set<Guid>) returns (thrown: bool, ghost order: seq<Guid>, ghost reached: nat)
      requires Valid()
      modifies this`publishQueue, this`storeLog, this`stored, registry.subscribers.Values
      ensures Valid()
      ensures old(publishQueue) == [] ==> unchanged(this) && unchanged(registry.subscribers.Values) && !thrown
      ensures old(publishQueue) != [] ==>
                var e := old(publishQueue[0]);
                && publishQueue == old(publishQueue[1..])
                && stored == old(stored) + [e]
                && storeLog == old(storeLog) + AddEvent(e, xmlOf).Logged()
                && FanOut(old(registry.Views()), registry.Views(), old(registry.Entries()), e, refusing, thrown, order, reached)
      ensures registry.Entries() == old(registry.Entries())
    {
      thrown, order, reached := false, [], 0;
      if publishQueue != [] {
        var e := Store();
        // the lanes are not this object
        ghost var lanes: set<object> := registry.subscribers.Values;
        assert this !in lanes;
        thrown, order, reached := registry.OnNewEvent(e, refusing);
      }
    }

    /**
     * The first half of a publish-lane unit: the oldest event leaves the
     * queue and is given to the event store; the fan-out follows. The
     * registry and the subscribers' lanes are left alone.
     */
    method Store() returns (e: Event)
      requires publishQueue != []
      requires published == stored + publishQueue
      modifies this`publishQueue, this`storeLog, this`stored
      ensures e == old(publishQueue[0]) && publishQueue == old(publishQueue[1..])
      ensures published == stored + publishQueue && stored == old(stored) + [e]
      ensures storeLog == old(storeLog) + AddEvent(e, xmlOf).Logged()
      ensures unchanged(registry) && unchanged(registry.subscribers.Values)
    {
      // the lanes are not this object
      ghost var lanes: set<object> := registry.subscribers.Values;
      assert this !in lanes;
      e := publishQueue[0];
      assert publishQueue == [e] + publishQueue[1..];
      assert stored + publishQueue == (stored + [e]) + publishQueue[1..];
      publishQueue := publishQueue[1..];
      storeLog := storeLog + AddEvent(e, xmlOf).Logged();
      stored := stored + [e];
    }

    /**
     * `IBlackboard.PublishEvent`: queue the event; `enqueueFails` says
     * whether the sequencer refused it, which is logged and rethrown.
     */
    method LocalPublishEvent(e: Event, enqueueFails: bool) returns (thrown: bool)
      requires Valid()
      modifies this`publishQueue, this`published, this`log
      ensures Valid()
      ensures thrown == enqueueFails
      ensures publishQueue == old(publishQueue) + (if enqueueFails then [] else [e])
      ensures published == old(published) + (if enqueueFails then [] else [e])
      ensures stored == old(stored)
      ensures log == old(log) + (if enqueueFails then [LocalPublishFailed(e)] else [])
      ensures remotePublishQueue == old(remotePublishQueue) && subscribeQueue == old(subscribeQueue)
      ensures storeLog == old(storeLog)
    {
      if enqueueFails {
        log := log + [LocalPublishFailed(e)];
        thrown := true;
      } else {
        AddEventToQueue(e);
        thrown := false;
      }
    }

    /**
     * `ISrvcBlackboard.PublishEvent`: queue a local publish on the remote
     * publish lane; a refused enqueue is logged and not rethrown.
     */
    method RemotePublishEvent(e: Event, enqueueFails: bool)
      requires Valid()
      modifies this`remotePublishQueue, this`log
      ensures Valid()
      ensures remotePublishQueue == old(remotePublishQueue) + (if enqueueFails then [] else [e])
      ensures log == old(log) + (if enqueueFails then [RemotePublishFailed(e)] else [])
      ensures publishQueue == old(publishQueue) && published == old(published) && stored == old(stored)
      ensures subscribeQueue == old(subscribeQueue) && storeLog == old(storeLog)
    {
      if enqueueFails {
        log := log + [RemotePublishFailed(e)];
      } else {
        remotePublishQueue := remotePublishQueue + [e];
      }
    }

    /**
     * One unit of the remote publish lane: the oldest event is published
     * locally; an exception from that stays inside the lane.
     */
    method StepRemotePublish(enqueueFails: bool)
      requires Valid()
      modifies this`remotePublishQueue, this`publishQueue, this`published, this`log
      ensures Valid()
      ensures old(remotePublishQueue) == [] ==> unchanged(this)
      ensures old(remotePublishQueue) != [] ==>
                var e := old(remotePublishQueue[0]);
                && remotePublishQueue == old(remotePublishQueue[1..])
                && publishQueue == old(publishQueue) + (if enqueueFails then [] else [e])
                && published == old(published) + (if enqueueFails then [] else [e])
                && log == old(log) + (if enqueueFails then [LocalPublishFailed(e)] else [])
      ensures subscribeQueue == old(subscribeQueue) && storeLog == old(storeLog) && stored == old(stored)
    {
      if remotePublishQueue != [] {
        var e := remotePublishQueue[0];
        remotePublishQueue := remotePublishQueue[1..];
        var _ := LocalPublishEvent(e, enqueueFails);
      }
    }

    /**
     * `IBlackboard.Subscribe`: only a filter for this host reaches the
     * registry's `Add`, with all that `Add` promises; any other leaves the
     * registry and its subscribers as they were.
     */
    method LocalSubscribe(filter: Filter, channel: Option<Channel>, cookie: Guid) returns (outcome: Option<AddOutcome>)
      requires Valid()
      modifies registry`subscribers, registry`handlers, registry`log
      modifies if filter.host == hostId && cookie in registry.subscribers then {registry.subscribers[cookie]} else {}
      ensures Valid()
      ensures registry.Entries() == ApplyRequest(old(registry.Entries()), hostId, SubscribeRequest(filter, channel, cookie))
      ensures outcome.Some? <==> filter.host == hostId
      ensures outcome.Some? ==> outcome.value == AddEntry(old(registry.Entries()), cookie, filter, channel).1
      ensures outcome.None? ==> unchanged(registry)
      ensures forall k :: k in old(registry.subscribers) ==>
                && k in registry.subscribers && registry.subscribers[k] == old(registry.subscribers[k])
                && registry.subscribers[k].View() == old(registry.subscribers[k].View())
      ensures forall k :: k in registry.subscribers && k !in old(registry.subscribers) ==>
                fresh(registry.subscribers[k]) && registry.subscribers[k].View() == EmptyLane
      ensures registry.handlers == old(registry.handlers) + AttachedBy(old(registry.Entries()), hostId, SubscribeRequest(filter, channel, cookie))
      ensures registry.log == old(registry.log) + LoggedBy(old(registry.Entries()), hostId, SubscribeRequest(filter, channel, cookie))
      ensures registry.closed == old(registry.closed)
    {
      if filter.host == hostId {
        var o := registry.Add(cookie, filter, channel);
        outcome := Some(o);
      } else {
        outcome := None;
      }
    }

    /**
     * `IBlackboard.Unsubscribe`: exactly the registry's `Remove`; the
     * subscribers left are the same objects with the same lanes.
     */
    method LocalUnsubscribe(cookie: Guid)
      requires Valid()
      modifies registry`subscribers, registry`closed
      ensures Valid()
      ensures registry.Entries() == RemoveEntry(old(registry.Entries()), cookie).0
      ensures forall k :: k in registry.subscribers ==>
                k in old(registry.subscribers) && registry.subscribers[k] == old(registry.subscribers[k])
      ensures forall k :: k in old(registry.subscribers) ==>
                old(registry.subscribers)[k].View() == old(registry.subscribers[k].View())
      ensures registry.closed == old(registry.closed) + ClosedBy(old(registry.Entries()), UnsubscribeRequest(cookie))
      ensures registry.handlers == old(registry.handlers) && registry.log == old(registry.log)
    {
      var _ := registry.Remove(cookie);
    }

    /**
     * `ISrvcBlackboard.Subscribe`: materialise the sender channel (none for a
     * null description, which makes the request a filter-only update) and
     * queue the subscribe on the subscribe lane. `enqueueFails` says whether
     * the sequencer refused the request: the channel has been made by then,
     * nothing is queued or logged, and the exception reaches the caller.
     */
    method RemoteSubscribe(filter: Filter, description: Option<ChannelDescription>, cookie: Guid, enqueueFails: bool)
      returns (thrown: bool)
      requires Valid()
      modifies this`subscribeQueue
      ensures Valid()
      ensures thrown == enqueueFails
      ensures subscribeQueue == old(subscribeQueue) + (if enqueueFails then [] else [SubscribeRequest(
                filter, if description.Some? then Some(createSenderChannel(description.value)) else None, cookie)])
      ensures publishQueue == old(publishQueue) && remotePublishQueue == old(remotePublishQueue)
      ensures log == old(log) && storeLog == old(storeLog) && published == old(published) && stored == old(stored)
    {
      var ch := if description.Some? then Some(createSenderChannel(description.value)) else None;
      if enqueueFails {
        thrown := true;
      } else {
        subscribeQueue := subscribeQueue + [SubscribeRequest(filter, ch, cookie)];
        thrown := false;
      }
    }

    /**
     * `ISrvcBlackboard.Unsubscribe`: queue the unsubscribe on the same lane
     * as subscribes; a refused enqueue queues nothing and reaches the caller.
     */
    method RemoteUnsubscribe(cookie: Guid, enqueueFails: bool) returns (thrown: bool)
      requires Valid()
      modifies this`subscribeQueue
      ensures Valid()
      ensures thrown == enqueueFails
      ensures subscribeQueue == old(subscribeQueue) + (if enqueueFails then [] else [UnsubscribeRequest(cookie)])
      ensures publishQueue == old(publishQueue) && remotePublishQueue == old(remotePublishQueue)
      ensures log == old(log) && storeLog == old(storeLog) && published == old(published) && stored == old(stored)
    {
      if enqueueFails {
        thrown := true;
      } else {
        subscribeQueue := subscribeQueue + [UnsubscribeRequest(cookie)];
        thrown := false;
      }
    }

    /**
     * One unit of the subscribe lane: the oldest request leaves the lane and
     * is applied to the registry; an exception from `Add` stays inside the
     * lane.
     */
    method StepSubscribe()
      requires Valid()
      modifies this`subscribeQueue, registry`subscribers, registry`handlers, registry`log, registry`closed
      modifies if subscribeQueue != [] && subscribeQueue[0].cookie in registry.subscribers
               then {registry.subscribers[subscribeQueue[0].cookie]} else {}
      ensures Valid()
      ensures old(subscribeQueue) == [] ==> unchanged(this) && unchanged(registry)
      ensures old(subscribeQueue) != [] ==>
                var req, m := old(subscribeQueue[0]), old(registry.Entries());
                && subscribeQueue == old(subscribeQueue[1..])
                && registry.Entries() == ApplyRequest(m, hostId, req)
                && registry.handlers == old(registry.handlers) + AttachedBy(m, hostId, req)
                && registry.log == old(registry.log) + LoggedBy(m, hostId, req)
                && registry.closed == old(registry.closed) + ClosedBy(m, req)
      ensures forall k :: k in old(registry.subscribers) ==>
                old(registry.subscribers)[k].View() == old(registry.subscribers[k].View())
      ensures forall k :: k in registry.subscribers ==>
                if k in old(registry.subscribers) then registry.subscribers[k] == old(registry.subscribers[k])
                else fresh(registry.subscribers[k]) && registry.subscribers[k].View() == EmptyLane
    {
      if subscribeQueue != [] {
        // one atomic unit: serving the head before dropping it has the same effect
        Serve(subscribeQueue[0]);
        subscribeQueue := subscribeQueue[1..];
      }
    }

    /** A subscribe-lane unit run against the registry: a local subscribe, or an unsubscribe. */
    method Serve(req: Request)
      requires Valid()
      modifies registry`subscribers, registry`handlers, registry`log, registry`closed
      modifies if req.cookie in registry.subscribers then {registry.subscribers[req.cookie]} else {}
      ensures Valid()
      ensures registry.Entries() == ApplyRequest(old(registry.Entries()), hostId, req)
      ensures registry.handlers == old(registry.handlers) + AttachedBy(old(registry.Entries()), hostId, req)
      ensures registry.log == old(registry.log) + LoggedBy(old(registry.Entries()), hostId, req)
      ensures registry.closed == old(registry.closed) + ClosedBy(old(registry.Entries()), req)
      ensures forall k :: k in old(registry.subscribers) ==>
                old(registry.subscribers)[k].View() == old(registry.subscribers[k].View())
      ensures forall k :: k in registry.subscribers ==>
                if k in old(registry.subscribers) then registry.subscribers[k] == old(registry.subscribers[k])
                else fresh(registry.subscribers[k]) && registry.subscribers[k].View() == EmptyLane
    {
      if req.SubscribeRequest? {
        var _ := LocalSubscribe(req.filter, req.channel, req.cookie);
      } else {
        LocalUnsubscribe(req.cookie);
      }
    }
  }
}

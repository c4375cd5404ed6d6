/**
 * The subscriber registry (`LocalEventsSubscribersList`): a table from
 * cookie to subscriber, guarded by one lock. Add upserts, Remove deletes and
 * closes the channel, the fan-out copies the subscribers under the lock and
 * hands the event to each one whose filter passes, and a health-aware
 * channel that reports a disconnection evicts every subscriber bound to its
 * ID.
 *
 * Each lock region is one atomic method. What a subscriber is, as far as the
 * table is concerned, is its filter and its channel (`Entry`); the functions
 * over `Entries` below specify the methods of the class.
 */
module Registry {
  import opened Common
  import opened Delivery

  /** A subscriber as the table sees it. */
  datatype Entry = Entry(filter: Filter, channel: Channel)

  type Entries = map<Guid, Entry>

  /**
   * How `Add` ended. `ArgumentNull` is the `ArgumentNullException` for a new
   * cookie without a channel; `NullReference` is the exception raised after
   * inserting a new cookie whose channel is not health-aware, when the
   * handler is attached through a null cast.
   */
  datatype AddOutcome = Inserted | Updated | ArgumentNull | NullReference

  /** `Add` on the table: insert a new cookie, or update an existing one in place. */
  function AddEntry(m: Entries, cookie: Guid, filter: Filter, channel: Option<Channel>): (r: (Entries, AddOutcome))
    ensures cookie !in m && channel.None? ==> r == (m, ArgumentNull)
    ensures cookie !in m && channel.Some? ==>
              && r.0 == m[cookie := Entry(filter, channel.value)]
              && |r.0| == |m| + 1
              && (r.1 == Inserted <==> channel.value.HealthAware())
              && (r.1 == NullReference <==> !channel.value.HealthAware())
    ensures cookie in m ==>
              && r.1 == Updated
              && r.0.Keys == m.Keys && |r.0| == |m|
              && r.0[cookie].filter == filter
              && r.0[cookie].channel == (if channel.Some? then channel.value else m[cookie].channel)
    ensures forall k :: k in m && k != cookie ==> k in r.0 && r.0[k] == m[k]
  {
    if cookie !in m then
      if channel.None? then (m, ArgumentNull)
      else (m[cookie := Entry(filter, channel.value)],
            if channel.value.HealthAware() then Inserted else NullReference)
    else
      var ch := if channel.Some? then channel.value else m[cookie].channel;
      (m[cookie := Entry(filter, ch)], Updated)
  }

  /** `Remove` on the table: delete the cookie and give back what it held. */
  function RemoveEntry(m: Entries, cookie: Guid): (r: (Entries, Option<Entry>))
    ensures r.1.Some? <==> cookie in m
    ensures r.1.Some? ==> r.1.value == m[cookie] && |r.0| == |m| - 1
    ensures r.0.Keys == m.Keys - {cookie}
    ensures forall k :: k in r.0 ==> r.0[k] == m[k]
  {
    if cookie in m then
      var rest := m - {cookie};
      assert m.Keys == rest.Keys + {cookie};
      (rest, Some(m[cookie]))
    else (m, None)
  }

  /** The cookies whose channel is health-aware and has the ID `id`. */
  function BoundTo(m: Entries, id: Guid): set<Guid>
  {
    set k | k in m && m[k].channel.commId == Some(id)
  }

  /** The state-change handler on the table: a disconnected channel evicts its subscribers. */
  function Evict(m: Entries, id: Guid, connected: bool): (r: Entries)
    ensures connected ==> r == m
    ensures !connected ==> r.Keys == m.Keys - BoundTo(m, id)
    ensures forall k :: k in r ==> k in m && r[k] == m[k]
  {
    if connected then m else map k | k in m && k !in BoundTo(m, id) :: m[k]
  }

  /** The cookies a fan-out hands `e` to: those whose filter passes it. */
  function Recipients(m: Entries, e: Event): set<Guid>
  {
    set k | k in m && m[k].filter.IsPass(e)
  }

  /**
   * What one fan-out of `e` over the table `m` did to the subscribers' lanes,
   * `before` and `after`: the subscribers were walked in `order`, the
   * dictionary's order, which the model leaves open, and each one the walk
   * reached whose filter passes `e` got it once (`Arrived`); no other lane
   * changed. The first such recipient among `refusing`, the subscribers
   * whose sequencer refuses the send, threw and ended the walk, so `reached`
   * subscribers were visited; without a refusing recipient the walk visited
   * everyone.
   */
  ghost predicate FanOut(before: map<Guid, Lane>, after: map<Guid, Lane>, m: Entries, e: Event,
                         refusing: set<Guid>, thrown: bool, order: seq<Guid>, reached: nat)
  {
    && before.Keys == m.Keys && after.Keys == m.Keys
    && |order| == |m|
    && (forall i :: 0 <= i < |order| ==> order[i] in m)
    && (forall i, j :: 0 <= i < j < |order| ==> order[i] != order[j])
    && reached <= |order| && (!thrown ==> reached == |order|)
    && (thrown ==> 0 < reached && order[reached - 1] in refusing && m[order[reached - 1]].filter.IsPass(e))
    && (forall i :: 0 <= i < |order| && (thrown ==> i < reached - 1) ==>
          !(order[i] in refusing && m[order[i]].filter.IsPass(e)))
    && (forall i :: 0 <= i < |order| ==>
          after[order[i]] == (if i < reached && m[order[i]].filter.IsPass(e)
                              then Arrived(before[order[i]], order[i], m[order[i]].filter, e, order[i] in refusing)
                              else before[order[i]]))
  }

  /**
   * A walk with no repeats, of as many keys as the table holds and only of
   * its keys, visits every key.
   */
  lemma {:induction false} DistinctCovers(order: seq<Guid>, keys: set<Guid>)
    requires |order| == |keys|
    requires forall i :: 0 <= i < |order| ==> order[i] in keys
    requires forall i, j :: 0 <= i < j < |order| ==> order[i] != order[j]
    ensures forall k :: k in keys ==> k in order
  {
    if order != [] {
      var x, rest := order[0], order[1..];
      forall i | 0 <= i < |rest|
        ensures rest[i] in keys - {x}
      {
        assert rest[i] == order[i + 1];
      }
      DistinctCovers(rest, keys - {x});
      forall k | k in keys
        ensures k in order
      {
        if k != x {
          assert k in keys - {x};
          var i :| 0 <= i < |rest| && rest[i] == k;
          assert order[i + 1] == k;
        }
      }
    }
  }

  /**
   * A fan-out throws exactly when some recipient refuses the send, and a
   * fan-out that does not throw hands the event to every recipient, in
   * whatever order, and to nobody else.
   */
  lemma FanOutDelivers(before: map<Guid, Lane>, after: map<Guid, Lane>, m: Entries, e: Event,
                       refusing: set<Guid>, thrown: bool, order: seq<Guid>, reached: nat)
    requires FanOut(before, after, m, e, refusing, thrown, order, reached)
    ensures thrown <==> exists k :: k in Recipients(m, e) && k in refusing
    ensures !thrown ==> forall k :: k in m ==>
              after[k] == (if k in Recipients(m, e) then Accept(before[k], k, m[k].filter, e) else before[k])
  {
    DistinctCovers(order, m.Keys);
    if thrown {
      assert order[reached - 1] in Recipients(m, e);
    } else {
      forall k | k in m
        ensures !(k in Recipients(m, e) && k in refusing)
        ensures after[k] == (if k in Recipients(m, e) then Accept(before[k], k, m[k].filter, e) else before[k])
      {
        var i :| 0 <= i < |order| && order[i] == k;
      }
    }
  }

  /**
   * The walk stops at the first refusal: at most one subscriber's enqueue
   * is refused in one fan-out, and the subscribers whose lane changed are
   * recipients.
   */
  lemma FanOutRefusesOnce(before: map<Guid, Lane>, after: map<Guid, Lane>, m: Entries, e: Event,
                          refusing: set<Guid>, thrown: bool, order: seq<Guid>, reached: nat)
    requires FanOut(before, after, m, e, refusing, thrown, order, reached)
    ensures forall k :: k in m && after[k] != before[k] ==> k in Recipients(m, e)
    ensures forall k1, k2 ::
              (&& k1 in m && k1 in refusing && after[k1] != before[k1]
               && k2 in m && k2 in refusing && after[k2] != before[k2]) ==> k1 == k2
  {
    DistinctCovers(order, m.Keys);
    forall k | k in m && after[k] != before[k]
      ensures k in Recipients(m, e)
      ensures k in refusing ==> k == order[reached - 1]
    {
      var i :| 0 <= i < |order| && order[i] == k;
    }
  }

  /** The `StateChanged` handlers one `Add` attaches, one entry per `+=`. */
  function Attached(present: bool, channel: Option<Channel>): seq<Channel>
  {
    if channel.None? || !channel.value.HealthAware() then []
    else if present then [channel.value]
    else [channel.value, channel.value]
  }

  /**
   * Unsubscribing twice: the second `Remove` finds nothing and changes
   * nothing.
   */
  lemma RemoveIsIdempotent(m: Entries, cookie: Guid)
    ensures RemoveEntry(RemoveEntry(m, cookie).0, cookie) == (RemoveEntry(m, cookie).0, None)
  {
  }

  /** Removing a cookie just added with a channel restores the table and returns the new entry. */
  lemma AddThenRemove(m: Entries, cookie: Guid, filter: Filter, channel: Channel)
    requires cookie !in m
    ensures RemoveEntry(AddEntry(m, cookie, filter, Some(channel)).0, cookie) == (m, Some(Entry(filter, channel)))
  {
    var added := AddEntry(m, cookie, filter, Some(channel)).0;
    assert RemoveEntry(added, cookie).0 == m;
  }

  /**
   * A filter-only update followed by a full update is the same as the full
   * update: the latest filter and the latest non-null channel win. For a
   * cookie not yet in the table the first call is refused and the second
   * inserts.
   */
  lemma UpdatesCompose(m: Entries, cookie: Guid, f1: Filter, f2: Filter, channel: Channel)
    ensures AddEntry(AddEntry(m, cookie, f1, None).0, cookie, f2, Some(channel))
            == AddEntry(m, cookie, f2, Some(channel))
  {
    if cookie in m {
      var once := AddEntry(m, cookie, f1, None).0;
      assert AddEntry(once, cookie, f2, Some(channel)).0 == m[cookie := Entry(f2, channel)];
    }
  }

  /**
   * The handler is attached twice for a new health-aware channel, so it may
   * run twice for one disconnection; the second run evicts nothing more.
   */
  lemma EvictIsIdempotent(m: Entries, id: Guid, connected: bool)
    ensures Evict(Evict(m, id, connected), id, connected) == Evict(m, id, connected)
  {
  }

  /** An eviction keeps a subscriber exactly when its channel is not the disconnected one. */
  lemma EvictKeeps(m: Entries, id: Guid, k: Guid)
    requires k in m
    ensures k in Evict(m, id, false) <==> m[k].channel.commId != Some(id)
  {
  }

  /** `LocalEventsSubscribersList`. */
  class SubscribersList {
    var subscribers: map<Guid, Subscriber>
    /** The channels this registry's `StateChanged` handler was attached to, one entry per attachment. */
    var handlers: seq<Channel>
    /** The channels `Remove` closed, in order. */
    var closed: seq<Channel>
    var log: seq<LogEntry>

    /** Every subscriber sits under its own ID; so distinct cookies hold distinct subscribers. */
    ghost predicate Valid()
      reads this`subscribers
    {
      forall k :: k in subscribers ==> subscribers[k].id == k
    }

    /** The table's contents. */
    ghost function Entries(): (r: Entries)
      reads this`subscribers, subscribers.Values`filter, subscribers.Values`channel
      ensures r.Keys == subscribers.Keys
    {
      map k | k in subscribers :: Entry(subscribers[k].filter, subscribers[k].channel)
    }

    /** Every subscriber's delivery lane. */
    ghost function Views(): (r: map<Guid, Lane>)
      reads this`subscribers, subscribers.Values
      ensures r.Keys == subscribers.Keys
    {
      map k | k in subscribers :: subscribers[k].View()
    }

    constructor ()
      ensures Valid() && subscribers == map[] && Entries() == map[]
      ensures handlers == [] && closed == [] && log == []
    {
      subscribers := map[];
      handlers, closed, log := [], [], [];
    }

    /** `Count`: the number of subscribers. */
    method Count() returns (n: nat)
      ensures n == |Entries()|
    {
      n := |subscribers|;
      assert subscribers.Keys == Entries().Keys;
    }

    /** `GetSubscriber`: the subscriber under `cookie`, if any. */
    method GetSubscriber(cookie: Guid) returns (r: Option<Subscriber>)
      ensures r.Some? <==> cookie in Entries()
      ensures r.Some? ==> r.value == subscribers[cookie]
      ensures r.Some? ==> Entry(r.value.filter, r.value.channel) == Entries()[cookie]
    {
      if cookie in subscribers {
        r := Some(subscribers[cookie]);
      } else {
        r := None;
      }
    }

    /** The new-cookie branch of `Add`: a fresh subscriber is put under `cookie`. */
    method Insert(cookie: Guid, filter: Filter, channel: Channel) returns (s: Subscriber)
      requires Valid() && cookie !in subscribers
      modifies this`subscribers
      ensures Valid() && fresh(s)
      ensures subscribers == old(subscribers)[cookie := s]
      ensures s.id == cookie && s.filter == filter && s.channel == channel && s.View() == EmptyLane
      ensures Entries() == old(Entries())[cookie := Entry(filter, channel)]
    {
      s := new Subscriber(cookie, filter, channel);
      subscribers := subscribers[cookie := s];
    }

    /** The existing-cookie branch of `Add`: the filter is replaced, the channel only by a non-null one. */
    method Update(cookie: Guid, filter: Filter, channel: Option<Channel>)
      requires Valid() && cookie in subscribers
      modifies subscribers[cookie]
      ensures subscribers[cookie].View() == old(subscribers[cookie].View())
      ensures Entries() == old(Entries())[cookie := Entry(filter, if channel.Some? then channel.value else old(Entries())[cookie].channel)]
    {
      var s := subscribers[cookie];
      s.filter := filter;
      if channel.Some? {
        s.channel := channel.value;
      }
    }

    /**
     * The handler attachment at the end of `Add`, reached unless the
     * new-cookie branch threw: `StateChanged += commChannel_StateChanged`
     * when the channel given is health-aware.
     */
    method AttachHandler(outcome: AddOutcome, channel: Option<Channel>)
      modifies this`handlers
      ensures handlers == old(handlers)
                          + (if outcome != NullReference && channel.Some? && channel.value.HealthAware()
                             then [channel.value] else [])
    {
      if outcome != NullReference && channel.Some? && channel.value.HealthAware() {
        Attach(channel.value);
      }
    }

    /** `StateChanged += commChannel_StateChanged` on a health-aware channel. */
    method Attach(channel: Channel)
      modifies this`handlers
      ensures handlers == old(handlers) + [channel]
    {
      handlers := handlers + [channel];
    }

    /**
     * `Add` of a new cookie: a null channel is refused; otherwise a fresh
     * subscriber is inserted and the handler attached, which fails for a
     * channel that is not health-aware and is attached a second time by the
     * common tail for one that is.
     */
    method AddNew(cookie: Guid, filter: Filter, channel: Option<Channel>) returns (outcome: AddOutcome)
      requires Valid() && cookie !in subscribers
      modifies this`subscribers, this`handlers, this`log
      ensures Valid()
      ensures (Entries(), outcome) == AddEntry(old(Entries()), cookie, filter, channel)
      ensures forall k :: k in old(subscribers) ==> k in subscribers && subscribers[k] == old(subscribers[k])
      ensures cookie in subscribers ==> fresh(subscribers[cookie]) && subscribers[cookie].View() == EmptyLane
      ensures handlers == old(handlers) + Attached(false, channel)
      ensures log == (if outcome == ArgumentNull then old(log) + [NullChannelOnAdd(cookie)] else old(log))
    {
      if channel.None? {
        log := log + [NullChannelOnAdd(cookie)];
        outcome := ArgumentNull;
      } else {
        var s := Insert(cookie, filter, channel.value);
        if !s.channel.HealthAware() {
          // the handler is attached through a null cast
          outcome := NullReference;
        } else {
          Attach(s.channel);
          outcome := Inserted;
        }
      }
      AttachHandler(outcome, channel);
    }

    /** `Add` of a cookie already in the table: an update in place, then the handler attachment. */
    method AddPresent(cookie: Guid, filter: Filter, channel: Option<Channel>) returns (outcome: AddOutcome)
      requires Valid() && cookie in subscribers
      modifies subscribers[cookie], this`handlers
      ensures outcome == Updated
      ensures Entries() == AddEntry(old(Entries()), cookie, filter, channel).0
      ensures subscribers == old(subscribers) && log == old(log) && closed == old(closed)
      ensures forall k :: k in subscribers ==> subscribers[k].View() == old(subscribers[k].View())
      ensures handlers == old(handlers) + Attached(true, channel)
    {
      Update(cookie, filter, channel);
      outcome := Updated;
      AttachHandler(outcome, channel);
      forall k | k in subscribers && k != cookie
        ensures subscribers[k].View() == old(subscribers[k].View())
      {
        // ids are keys, so another key's subscriber is another object
        assert subscribers[k].id != cookie;
      }
    }

    /**
     * `Add`: a new cookie gets a fresh subscriber with an empty lane; an
     * existing one keeps its subscriber, whose filter is replaced and whose
     * channel is replaced only by a non-null one.
     */
    method Add(cookie: Guid, filter: Filter, channel: Option<Channel>) returns (outcome: AddOutcome)
      requires Valid()
      modifies this`subscribers, this`handlers, this`log, if cookie in subscribers then {subscribers[cookie]} else {}
      ensures Valid()
      ensures Entries() == AddEntry(old(Entries()), cookie, filter, channel).0
      ensures outcome == AddEntry(old(Entries()), cookie, filter, channel).1
      ensures forall k :: k in old(subscribers) ==> k in subscribers && subscribers[k] == old(subscribers[k])
      ensures forall k :: k in old(subscribers) ==> subscribers[k].View() == old(subscribers[k].View())
      ensures cookie !in old(subscribers) && cookie in subscribers ==>
                fresh(subscribers[cookie]) && subscribers[cookie].View() == EmptyLane
      ensures handlers == old(handlers) + Attached(cookie in old(subscribers), channel)
      ensures log == (if outcome == ArgumentNull then old(log) + [NullChannelOnAdd(cookie)] else old(log))
      ensures closed == old(closed)
    {
      if cookie !in subscribers {
        outcome := AddNew(cookie, filter, channel);
      } else {
        outcome := AddPresent(cookie, filter, channel);
      }
    }

    /** `Remove`: delete the cookie, closing its channel when that is health-aware. */
    method Remove(cookie: Guid) returns (r: Option<Subscriber>)
      requires Valid()
      modifies this`subscribers, this`closed
      ensures Valid()
      ensures Entries() == RemoveEntry(old(Entries()), cookie).0
      ensures r.Some? <==> cookie in old(subscribers)
      ensures r.Some? ==> r.value == old(subscribers[cookie]) && Entry(r.value.filter, r.value.channel) == old(Entries())[cookie]
      ensures forall k :: k in subscribers ==> subscribers[k] == old(subscribers[k])
      ensures closed == old(closed) + (if r.Some? && r.value.channel.HealthAware() then [r.value.channel] else [])
      ensures handlers == old(handlers) && log == old(log)
    {
      if cookie in subscribers {
        var s := RemovePresent(cookie);
        r := Some(s);
      } else {
        assert RemoveEntry(Entries(), cookie).0 == Entries();
        r := None;
      }
    }

    /** `Remove` of a cookie that is in the table. */
    method RemovePresent(cookie: Guid) returns (s: Subscriber)
      requires Valid() && cookie in subscribers
      modifies this`subscribers, this`closed
      ensures Valid()
      ensures Entries() == RemoveEntry(old(Entries()), cookie).0
      ensures s == old(subscribers[cookie]) && Entry(s.filter, s.channel) == old(Entries())[cookie]
      ensures subscribers == old(subscribers) - {cookie}
      ensures closed == old(closed) + (if s.channel.HealthAware() then [s.channel] else [])
    {
      s := subscribers[cookie];
      Delete(cookie);
      if s.channel.HealthAware() {
        Close(s.channel);
      }
    }

    /** `Close()` on a health-aware channel. */
    method Close(channel: Channel)
      modifies this`closed
      ensures closed == old(closed) + [channel]
    {
      closed := closed + [channel];
    }

    /** The table update of `Remove`: the cookie's entry goes, nothing else changes. */
    method Delete(cookie: Guid)
      requires Valid() && cookie in subscribers
      modifies this`subscribers
      ensures Valid()
      ensures subscribers == old(subscribers) - {cookie}
      ensures Entries() == RemoveEntry(old(Entries()), cookie).0
    {
      subscribers := subscribers - {cookie};
    }

    /**
     * The copy taken under the lock by `OnNewEvent`: every subscriber once,
     * in the dictionary's order, which the model leaves open; `order` names
     * the cookies in that order.
     */
    method Snapshot() returns (copy: seq<Subscriber>, ghost order: seq<Guid>)
      requires Valid()
      ensures |copy| == |order| == |subscribers|
      ensures forall i :: 0 <= i < |order| ==> order[i] in subscribers && copy[i] == subscribers[order[i]]
      ensures forall i, j :: 0 <= i < j < |copy| ==> order[i] != order[j] && copy[i] != copy[j]
    {
      copy, order := [], [];
      var rest := subscribers.Keys;
      ghost var seen: set<Guid> := {};
      while rest != {}
        invariant seen !! rest && seen + rest == subscribers.Keys
        invariant |copy| == |order| == |seen|
        invariant forall i :: 0 <= i < |order| ==> order[i] in seen && copy[i] == subscribers[order[i]]
        invariant forall i, j :: 0 <= i < j < |order| ==> order[i] != order[j]
      {
        var k :| k in rest;
        copy, order := copy + [subscribers[k]], order + [k];
        rest, seen := rest - {k}, seen + {k};
      }
    }

    /**
     * The part of `OnNewEvent` outside the lock: the copy is walked in order
     * and each subscriber whose filter passes `e` gets `e` once; the others
     * are left alone. `refusing` names the subscribers whose sequencer
     * refuses the send: the first such recipient throws, and the exception ends the
     * walk, so `reached` counts the subscribers the walk got to. The
     * registry is not consulted, so changes to it after the copy was taken
     * do not affect this pass.
     */
    static method Dispatch(copy: seq<Subscriber>, ghost before: map<Guid, Lane>, e: Event, refusing: set<Guid>)
      returns (thrown: bool, reached: nat)
      requires forall i, j :: 0 <= i < j < |copy| ==> copy[i] != copy[j]
      requires forall i :: 0 <= i < |copy| ==> copy[i].id in before && copy[i].View() == before[copy[i].id]
      modifies set s | s in copy
      ensures reached <= |copy|
      ensures !thrown ==> reached == |copy| && forall i :: 0 <= i < |copy| ==> !(copy[i].id in refusing && copy[i].filter.IsPass(e))
      ensures thrown ==> 0 < reached && copy[reached - 1].id in refusing && copy[reached - 1].filter.IsPass(e)
      ensures forall i :: 0 <= i < reached - 1 ==> !(copy[i].id in refusing && copy[i].filter.IsPass(e))
      ensures forall i :: 0 <= i < |copy| ==>
                && copy[i].filter == old(copy[i].filter)
                && copy[i].channel == old(copy[i].channel)
                && copy[i].View() == (if i < reached && copy[i].filter.IsPass(e)
                                      then Arrived(before[copy[i].id], copy[i].id, copy[i].filter, e, copy[i].id in refusing)
                                      else before[copy[i].id])
    {
      var i := 0;
      thrown := false;
      while i < |copy| && !thrown
        invariant 0 <= i <= |copy|
        invariant thrown ==> 0 < i && copy[i - 1].id in refusing && copy[i - 1].filter.IsPass(e)
        invariant forall j :: 0 <= j < (if thrown then i - 1 else i) ==> !(copy[j].id in refusing && copy[j].filter.IsPass(e))
        invariant forall j :: 0 <= j < |copy| ==>
                    copy[j].filter == old(copy[j].filter) && copy[j].channel == old(copy[j].channel)
        invariant forall j :: 0 <= j < i ==>
                    copy[j].View() == (if copy[j].filter.IsPass(e)
                                       then Arrived(before[copy[j].id], copy[j].id, copy[j].filter, e, copy[j].id in refusing)
                                       else before[copy[j].id])
        invariant forall j :: i <= j < |copy| ==> copy[j].View() == before[copy[j].id]
      {
        var s := copy[i];
        if s.filter.IsPass(e) {
          thrown := s.OnNewEvent(e, s.id in refusing);
        }
        i := i + 1;
      }
      reached := i;
    }

    /**
     * `OnNewEvent`: the subscribers are copied under the lock, then the event
     * is handed to each one whose filter passes it, as `FanOut` states; the
     * exception of a refused enqueue reaches the caller. The table itself is
     * left as it was.
     */
    method OnNewEvent(e: Event, refusing: set<Guid>) returns (thrown: bool, ghost order: seq<Guid>, ghost reached: nat)
      requires Valid()
      modifies subscribers.Values
      ensures Entries() == old(Entries())
      ensures FanOut(old(Views()), Views(), Entries(), e, refusing, thrown, order, reached)
    {
      ghost var before := Views();
      var copy;
      copy, order := Snapshot();
      thrown, reached := Dispatch(copy, before, e, refusing);
      EntriesKept();
      WalkIsFanOut(copy, order, before, e, refusing, thrown, reached);
    }

    /**
     * The walk `Dispatch` makes over a `Snapshot` of the table is a `FanOut`
     * of the table, from the lanes the subscribers had before the walk.
     */
    lemma WalkIsFanOut(copy: seq<Subscriber>, order: seq<Guid>, before: map<Guid, Lane>, e: Event,
                       refusing: set<Guid>, thrown: bool, reached: nat)
      requires Valid() && before.Keys == subscribers.Keys
      requires |copy| == |order| == |subscribers|
      requires forall i :: 0 <= i < |order| ==> order[i] in subscribers && copy[i] == subscribers[order[i]]
      requires forall i, j :: 0 <= i < j < |copy| ==> order[i] != order[j]
      requires reached <= |copy|
      requires !thrown ==> reached == |copy| && forall i :: 0 <= i < |copy| ==> !(copy[i].id in refusing && copy[i].filter.IsPass(e))
      requires thrown ==> 0 < reached && copy[reached - 1].id in refusing && copy[reached - 1].filter.IsPass(e)
      requires forall i :: 0 <= i < reached - 1 ==> !(copy[i].id in refusing && copy[i].filter.IsPass(e))
      requires forall i :: 0 <= i < |copy| ==>
                 copy[i].View() == (if i < reached && copy[i].filter.IsPass(e)
                                    then Arrived(before[copy[i].id], copy[i].id, copy[i].filter, e, copy[i].id in refusing)
                                    else before[copy[i].id])
      ensures FanOut(before, Views(), Entries(), e, refusing, thrown, order, reached)
    {
    }

    /** A step that replaces no subscriber and changes no filter or channel leaves the table's contents as they were. */
    twostate lemma EntriesKept()
      requires old(subscribers) == subscribers
      requires forall k :: k in subscribers ==>
                 subscribers[k].filter == old(subscribers[k].filter) && subscribers[k].channel == old(subscribers[k].channel)
      ensures Entries() == old(Entries())
    {
    }

    /**
     * `commChannel_StateChanged`: when the channel `id` is no longer
     * connected, every subscriber bound to a health-aware channel with that
     * ID is removed. The evicted channels are not closed.
     */
    method OnChannelStateChanged(id: Guid, connected: bool)
      requires Valid()
      modifies this
      ensures Valid()
      ensures Entries() == Evict(old(Entries()), id, connected)
      ensures forall k :: k in subscribers ==> subscribers[k] == old(subscribers[k])
      ensures closed == old(closed) && handlers == old(handlers) && log == old(log)
    {
      if !connected {
        var toKill := set k | k in subscribers && subscribers[k].channel.commId == Some(id);
        ghost var all := toKill;
        assert all == BoundTo(old(Entries()), id);
        while toKill != {}
          invariant toKill <= all
          invariant subscribers == map k | k in old(subscribers) && k !in all - toKill :: old(subscribers)[k]
          invariant closed == old(closed) && handlers == old(handlers) && log == old(log)
        {
          var k :| k in toKill;
          subscribers := map j | j in subscribers && j != k :: subscribers[j];
          toKill := toKill - {k};
        }
      }
    }
  }
}

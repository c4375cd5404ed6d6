/**
 * The per-subscriber delivery record (`SubscriberLocalEvents`): an event
 * accepted for a subscriber bumps an in-flight counter, may log a backlog
 * warning, and queues one send on the subscriber's own sequencer; the
 * sequencer runs the sends one at a time, in order, each on the channel the
 * subscriber has at that moment, swallows a failing send and always
 * decrements the counter.
 *
 * The lock regions are atomic and the sequencer is the `queue` field, drained
 * by `ProcessNext`; a send leaves the queue and settles its counter in one
 * step, so the counter equals the queue's length.
 */
module Delivery {
  import opened Common

  /** The backlog change that triggers a warning (`PeriodEventsCount`). */
  const PeriodEventsCount: int := 40

  /** `_activeEventsCount` and `_prevEventsCount`, the count at the last warning. */
  datatype Counters = Counters(active: int, prev: int)

  /** Which backlog warning, if any, an arrival logs. */
  datatype Report = Quiet | Growing | Shrinking

  /**
   * The counter update made under the subscriber's lock when an event
   * arrives: a growth of at least `PeriodEventsCount` since the last warning,
   * or else a shrink of more than `PeriodEventsCount`, is reported and
   * becomes the new reference count.
   */
  function Arrive(c: Counters): (r: (Counters, Report))
    ensures r.0.active == c.active + 1
    ensures r.1 == Growing <==> r.0.active - c.prev >= PeriodEventsCount
    ensures r.1 == Shrinking <==> r.0.active - c.prev < PeriodEventsCount && c.prev - r.0.active > PeriodEventsCount
    ensures r.1 != Quiet ==> r.0.prev == r.0.active
    ensures r.1 == Quiet ==> r.0.prev == c.prev
    ensures -PeriodEventsCount <= r.0.active - r.0.prev < PeriodEventsCount
  {
    var active := c.active + 1;
    if active - c.prev >= PeriodEventsCount then (Counters(active, active), Growing)
    else if c.prev - active > PeriodEventsCount then (Counters(active, active), Shrinking)
    else (Counters(active, c.prev), Quiet)
  }

  /** The warning an arrival writes: it names the subscriber, the new count and the filter. */
  function Warnings(report: Report, id: Guid, active: int, filter: Filter): seq<LogEntry>
  {
    match report
    case Quiet => []
    case Growing => [BacklogGrowing(id, active, filter)]
    case Shrinking => [BacklogShrinking(id, active, filter)]
  }

  /** The observable state of one subscriber's delivery: counters, pending sends, sends made, its log. */
  datatype Lane = Lane(counters: Counters, queue: seq<Event>, sent: seq<Transmission>, log: seq<LogEntry>)

  /** A lane that no event has reached yet. */
  const EmptyLane: Lane := Lane(Counters(0, 0), [], [], [])

  /** `OnNewEvent`: update the counters, log any warning, queue exactly one send of `e`. */
  function Accept(l: Lane, id: Guid, filter: Filter, e: Event): (r: Lane)
    ensures r.queue == l.queue + [e] && r.sent == l.sent
    ensures r.counters.active == l.counters.active + 1
    ensures l.log <= r.log
  {
    var (c, report) := Arrive(l.counters);
    Lane(c, l.queue + [e], l.sent, l.log + Warnings(report, id, c.active, filter))
  }

  /**
   * `OnNewEvent` when the sequencer refuses the send: the counters and the
   * warning are updated as for `Accept`, nothing is queued, and the
   * exception leaves the lock. No send will ever decrement the counter
   * bumped for this event.
   */
  function Refuse(l: Lane, id: Guid, filter: Filter): (r: Lane)
    ensures r.queue == l.queue
    ensures forall e :: Accept(l, id, filter, e) == r.(queue := l.queue + [e])
  {
    var (c, report) := Arrive(l.counters);
    Lane(c, l.queue, l.sent, l.log + Warnings(report, id, c.active, filter))
  }

  /** What `OnNewEvent` does to the lane, depending on whether the enqueue is refused. */
  function Arrived(l: Lane, id: Guid, filter: Filter, e: Event, refused: bool): Lane
  {
    if refused then Refuse(l, id, filter) else Accept(l, id, filter, e)
  }

  /**
   * `ProcessNewEvent` for the oldest queued send: it goes to `channel`, the
   * subscriber's channel when the send runs; a failure is logged and goes no
   * further, and the counter drops by one either way. A lane with nothing
   * queued has no send to run.
   */
  function Send(l: Lane, channel: Channel, failed: bool): (r: Lane)
    ensures l.queue == [] ==> r == l
    ensures l.queue != [] ==>
              && r.sent == l.sent + [Transmission(channel, l.queue[0], failed)]
              && r.queue == l.queue[1..]
              && r.counters == Counters(l.counters.active - 1, l.counters.prev)
    ensures l.queue != [] ==> r.log == l.log + (if failed then [SendFailed(l.queue[0])] else [])
  {
    if l.queue == [] then l
    else
      var e := l.queue[0];
      Lane(Counters(l.counters.active - 1, l.counters.prev), l.queue[1..],
           l.sent + [Transmission(channel, e, failed)],
           l.log + (if failed then [SendFailed(e)] else []))
  }

  /**
   * One thing that happens to a subscriber: an event arrives and is queued,
   * an event arrives and its enqueue is refused, or the sequencer runs a send.
   */
  datatype Step =
    | Arrival(filter: Filter, event: Event)
    | Refusal(filter: Filter)
    | Completion(channel: Channel, failed: bool)

  function Apply(l: Lane, id: Guid, s: Step): Lane
  {
    match s
    case Arrival(f, e) => Accept(l, id, f, e)
    case Refusal(f) => Refuse(l, id, f)
    case Completion(ch, failed) => Send(l, ch, failed)
  }

  /** The lane after the steps, taken left to right. */
  function Run(l: Lane, id: Guid, steps: seq<Step>): Lane
    decreases |steps|
  {
    if steps == [] then l else Apply(Run(l, id, steps[..|steps| - 1]), id, steps[|steps| - 1])
  }

  /** The events that arrived and were queued during the steps, in arrival order. */
  function Arrivals(steps: seq<Step>): (es: seq<Event>)
    ensures |es| <= |steps|
  {
    if steps == [] then []
    else Arrivals(steps[..|steps| - 1]) + (if steps[|steps| - 1].Arrival? then [steps[|steps| - 1].event] else [])
  }

  /** The number of refused enqueues during the steps. */
  function Refusals(steps: seq<Step>): (n: nat)
    ensures n <= |steps|
  {
    if steps == [] then 0
    else Refusals(steps[..|steps| - 1]) + (if steps[|steps| - 1].Refusal? then 1 else 0)
  }

  /**
   * The lane's bookkeeping: the counter is the number of pending sends plus
   * `leaked`, the arrivals whose enqueue was refused.
   */
  ghost predicate Backlogged(l: Lane, leaked: nat)
  {
    l.counters.active == |l.queue| + leaked && 0 <= l.counters.prev
  }

  /**
   * First in, first out: whatever the interleaving of arrivals, refusals
   * and sends, the events delivered followed by those still pending are
   * exactly the events that arrived and were queued, in arrival order; an
   * event whose enqueue was refused is never sent.
   */
  lemma {:induction false} RunKeepsOrder(l: Lane, id: Guid, steps: seq<Step>)
    ensures Delivered(Run(l, id, steps).sent) + Run(l, id, steps).queue
            == Delivered(l.sent) + l.queue + Arrivals(steps)
    decreases |steps|
  {
    if steps != [] {
      var init, last := steps[..|steps| - 1], steps[|steps| - 1];
      var before := Run(l, id, init);
      var start := Delivered(l.sent) + l.queue;
      RunKeepsOrder(l, id, init);
      assert Run(l, id, steps) == Apply(before, id, last);
      if last.Arrival? {
        AcceptKeepsOrder(before, id, last.filter, last.event);
        assert Arrivals(steps) == Arrivals(init) + [last.event];
        assert (start + Arrivals(init)) + [last.event] == start + (Arrivals(init) + [last.event]);
      } else if last.Refusal? {
        assert Arrivals(steps) == Arrivals(init);
      } else {
        SendKeepsOrder(before, last.channel, last.failed);
        assert Arrivals(steps) == Arrivals(init);
      }
    }
  }

  /** An arrival appends its event to what is delivered or pending. */
  lemma AcceptKeepsOrder(l: Lane, id: Guid, f: Filter, e: Event)
    ensures Delivered(Accept(l, id, f, e).sent) + Accept(l, id, f, e).queue == Delivered(l.sent) + l.queue + [e]
  {
  }

  /** A send moves the head of the pending events to the end of the delivered ones. */
  lemma SendKeepsOrder(l: Lane, ch: Channel, failed: bool)
    ensures Delivered(Send(l, ch, failed).sent) + Send(l, ch, failed).queue == Delivered(l.sent) + l.queue
  {
  }

  /**
   * The counter drifts from the backlog only by refused enqueues: over every
   * interleaving, whether or not the sends fail, the in-flight count is the
   * number of pending sends plus every refused arrival so far, and the
   * reference count stays non-negative. Without refusals the counter is
   * exactly the backlog.
   */
  lemma {:induction false} RunKeepsBacklog(l: Lane, id: Guid, steps: seq<Step>, leaked: nat)
    requires Backlogged(l, leaked)
    ensures Backlogged(Run(l, id, steps), leaked + Refusals(steps))
    decreases |steps|
  {
    if steps != [] {
      RunKeepsBacklog(l, id, steps[..|steps| - 1], leaked);
    }
  }

  /**
   * On a fresh lane the i-th send made carries the i-th event that arrived:
   * nothing is reordered, and nothing is sent that did not arrive.
   */
  lemma {:induction false} DeliveredArrived(l: Lane, id: Guid, steps: seq<Step>, i: nat)
    requires |l.sent| == 0 && l.queue == []
    requires i < |Run(l, id, steps).sent|
    ensures i < |Arrivals(steps)| && Run(l, id, steps).sent[i].event == Arrivals(steps)[i]
  {
    RunKeepsOrder(l, id, steps);
    var r := Run(l, id, steps);
    assert Delivered(r.sent)[i] == (Delivered(r.sent) + r.queue)[i];
  }

  /**
   * `SubscriberLocalEvents`. `id` is set once by the constructor; the
   * registry replaces `filter` and `channel`; the remaining fields are the
   * delivery lane.
   */
  class Subscriber {
    const id: Guid
    var filter: Filter
    var channel: Channel
    var active: int
    var prev: int
    var queue: seq<Event>
    var sent: seq<Transmission>
    var log: seq<LogEntry>

    ghost function View(): Lane
      reads this
    {
      Lane(Counters(active, prev), queue, sent, log)
    }

    constructor (id: Guid, filter: Filter, channel: Channel)
      ensures this.id == id && this.filter == filter && this.channel == channel
      ensures View() == EmptyLane && Backlogged(View(), 0)
    {
      this.id := id;
      this.filter := filter;
      this.channel := channel;
      active, prev := 0, 0;
      queue, sent, log := [], [], [];
    }

    /**
     * `OnNewEvent`: the counter update and the enqueue happen under one lock;
     * `enqueueFails` says whether the sequencer refuses the send, in which
     * case the exception is thrown to the caller.
     */
    method OnNewEvent(e: Event, enqueueFails: bool) returns (thrown: bool)
      modifies this
      ensures thrown == enqueueFails
      ensures View() == Arrived(old(View()), id, filter, e, enqueueFails)
      ensures filter == old(filter) && channel == old(channel)
    {
      active := active + 1;
      if active - prev >= PeriodEventsCount {
        log := log + [BacklogGrowing(id, active, filter)];
        prev := active;
      } else if prev - active > PeriodEventsCount {
        log := log + [BacklogShrinking(id, active, filter)];
        prev := active;
      }
      if enqueueFails {
        thrown := true;
      } else {
        queue := queue + [e];
        thrown := false;
      }
    }

    /**
     * One step of the subscriber's sequencer: `SetData` on the current
     * channel for the oldest queued event; `failed` says whether it threw.
     */
    method ProcessNext(failed: bool)
      modifies this
      ensures View() == Send(old(View()), old(channel), failed)
      ensures filter == old(filter) && channel == old(channel)
    {
      if queue != [] {
        var e := queue[0];
        queue := queue[1..];
        sent := sent + [Transmission(channel, e, failed)];
        if failed {
          log := log + [SendFailed(e)];
        }
        active := active - 1;
      }
    }
  }
}

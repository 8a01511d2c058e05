/** The consumer's end of a subscription: receiving with lag reports, and asking to unsubscribe.

    The receiver and the drop counter are shared with the actor; they are the lane of the
    subscription, passed in and handed back by the calls that touch it. */
module Subscriber {
  import opened Wrappers
  import opened TopicMatcher
  import opened Delivery
  import opened Runs

  /** Outcome of one poll of `recv`; `Pending` means that the call goes on waiting. */
  datatype ReceiveEvent<M> = Received(message: M) | Lagged(missed: nat) | Ended | Pending

  datatype RequestError = RequestQueueFull | RequestQueueClosed

  // ----- Lag reports -----

  function Sum(counts: seq<nat>): nat {
    if counts == [] then 0 else Sum(counts[..|counts| - 1]) + counts[|counts| - 1]
  }

  lemma SumSnoc(counts: seq<nat>, n: nat)
    ensures Sum(counts + [n]) == Sum(counts) + n
  {
    assert (counts + [n])[..|counts|] == counts;
  }

  /** The counter value seen last; nothing was dropped before the first look. */
  function Watermark(observed: seq<nat>): nat {
    if observed == [] then 0 else observed[|observed| - 1]
  }

  /** The drop counter only goes up. */
  ghost predicate Ascending(observed: seq<nat>) {
    forall i, j :: 0 <= i < j < |observed| ==> observed[i] <= observed[j]
  }

  /** The lag reports made when the counter is seen to have these values, one after the other. */
  function Reports(observed: seq<nat>): seq<nat>
    requires Ascending(observed)
  {
    if observed == [] then []
    else
      var earlier, now := observed[..|observed| - 1], observed[|observed| - 1];
      WatermarkBelow(earlier, now, observed);
      Reports(earlier) + (if now > Watermark(earlier) then [now - Watermark(earlier)] else [])
  }

  lemma WatermarkBelow(earlier: seq<nat>, now: nat, observed: seq<nat>)
    requires observed == earlier + [now] && Ascending(observed)
    ensures Watermark(earlier) <= now && Ascending(earlier)
  {
    if earlier != [] {
      assert observed[|earlier| - 1] <= observed[|earlier|];
    }
    forall i, j | 0 <= i < j < |earlier| ensures earlier[i] <= earlier[j] {
      assert observed[i] <= observed[j];
    }
  }

  /** Whatever the consumer gets to see of the counter, the reports add up to what it saw last, so no
      drop is reported twice and none up to that point is missed. Each report is of some drop. */
  lemma {:induction false} ReportsAddUp(observed: seq<nat>)
    requires Ascending(observed)
    ensures Sum(Reports(observed)) == Watermark(observed)
    ensures forall i :: 0 <= i < |Reports(observed)| ==> Reports(observed)[i] > 0
  {
    hide Ascending, Reports, Sum;
    if observed == [] {
      NoReports();
    } else {
      var earlier, now := observed[..|observed| - 1], observed[|observed| - 1];
      WatermarkBelow(earlier, now, observed);
      ReportsAddUp(earlier);
      ReportsSnoc(earlier, now, observed);
      SumSnoc(Reports(earlier), now - Watermark(earlier));
    }
  }

  lemma NoReports()
    ensures Reports([]) == [] && Sum([]) == 0
  {
  }

  lemma ReportsSnoc(earlier: seq<nat>, now: nat, observed: seq<nat>)
    requires observed == earlier + [now] && Ascending(observed) && Ascending(earlier) && Watermark(earlier) <= now
    ensures Reports(observed) == if now > Watermark(earlier) then Reports(earlier) + [now - Watermark(earlier)] else Reports(earlier)
  {
    hide Ascending;
    assert observed[..|observed| - 1] == earlier;
  }

  /** A look at the counter that is as high as the last one extends the picture. */
  lemma ObserveMore(observed: seq<nat>, now: nat)
    requires Ascending(observed) && Watermark(observed) <= now
    ensures Ascending(observed + [now]) && Watermark(observed + [now]) == now
    ensures Reports(observed + [now]) == Reports(observed) + (if now > Watermark(observed) then [now - Watermark(observed)] else [])
  {
    hide Ascending;
    AscendingSnoc(observed, now);
    assert (observed + [now])[..|observed|] == observed;
  }

  lemma AscendingSnoc(observed: seq<nat>, now: nat)
    requires Ascending(observed) && Watermark(observed) <= now
    ensures Ascending(observed + [now])
  {
    var more := observed + [now];
    forall i, j | 0 <= i < j < |more| ensures more[i] <= more[j] {
      if j == |observed| && i < |observed| - 1 {
        assert observed[i] <= observed[|observed| - 1];
      }
    }
  }

  // ----- Lag reports over a run of the actor -----

  /** A consumer looks at the counter of `id` in these states of a run, up to the n-th. */
  ghost predicate Looks<D>(trace: seq<Snapshot<D>>, looks: seq<nat>, n: nat, id: SubscriptionId) {
    && n < |trace| && id in trace[n].hub.lanes
    && (forall k :: 0 <= k < |looks| ==> looks[k] <= n && id in trace[looks[k]].hub.lanes)
    && (forall j, k :: 0 <= j < k < |looks| ==> looks[j] <= looks[k])
  }

  /** The counter values that it sees. */
  ghost function Seen<D>(trace: seq<Snapshot<D>>, looks: seq<nat>, n: nat, id: SubscriptionId): (seen: seq<nat>)
    requires Looks(trace, looks, n, id)
    ensures |seen| == |looks| && forall k :: 0 <= k < |looks| ==> seen[k] == trace[looks[k]].hub.lanes[id].drops
  {
    seq(|looks|, k requires 0 <= k < |looks| => trace[looks[k]].hub.lanes[id].drops)
  }

  lemma CounterAscends<D>(events: seq<Event<D>>, trace: seq<Snapshot<D>>, outcomes: seq<Outcome>, i: nat, n: nat, id: SubscriptionId)
    requires IsRun(events, trace, outcomes) && i <= n < |trace| && id in trace[i].hub.lanes
    ensures id in trace[n].hub.lanes && trace[i].hub.lanes[id].drops <= trace[n].hub.lanes[id].drops
  {
    hide IsRun;
    RunGrows(events, trace, outcomes, i, n);
  }

  /** In a run the values seen ascend and never exceed the counter, so the subtraction in `TakeLag`
      cannot go below zero. */
  lemma LooksAscend<D>(events: seq<Event<D>>, trace: seq<Snapshot<D>>, outcomes: seq<Outcome>, looks: seq<nat>, n: nat, id: SubscriptionId)
    requires IsRun(events, trace, outcomes) && Looks(trace, looks, n, id)
    ensures Ascending(Seen(trace, looks, n, id)) && Watermark(Seen(trace, looks, n, id)) <= trace[n].hub.lanes[id].drops
  {
    hide IsRun;
    var seen := Seen(trace, looks, n, id);
    forall j, k | 0 <= j < k < |seen| ensures seen[j] <= seen[k] {
      CounterAscends(events, trace, outcomes, looks[j], looks[k], id);
    }
    if looks != [] {
      CounterAscends(events, trace, outcomes, looks[|looks| - 1], n, id);
    }
  }

  /** Lag reports, conservation and publishing together, over any run and any looks at the counter: the
      reports never exceed it, and every message published to a live subscription was received, was
      reported as missed, is dropped and still to be reported, or is on its way. */
  lemma NothingUnexplained<D>(events: seq<Event<D>>, trace: seq<Snapshot<D>>, outcomes: seq<Outcome>, looks: seq<nat>, n: nat, id: SubscriptionId)
    requires IsRun(events, trace, outcomes) && Looks(trace, looks, n, id) && id in trace[n].subs
    ensures Ascending(Seen(trace, looks, n, id))
    ensures var lane, a := trace[n].hub.lanes[id], trace[n].hub.Of(id);
            var reported := Sum(Reports(Seen(trace, looks, n, id)));
            var unreported := lane.drops - reported;
            && 0 <= unreported
            && |DispatchedTo(trace[0], id) + PublishedTo(events, trace, n, id)|
               == |lane.received| + reported + unreported + (|lane.buffer| + |a.inFlight| + |a.Waiting()|)
  {
    hide InFlight, TurnDone, Settled, PublishedTo;
    LooksAscend(events, trace, outcomes, looks, n, id);
    ReportsAddUp(Seen(trace, looks, n, id));
    RunDispatchesPublished(events, trace, outcomes, n, id);
    LiveSubscription(trace[n].hub, trace[n].entries, trace[n].nextId, id);
  }

  class Subscriber<M> {
    const id: SubscriptionId
    var lastSeenDrops: nat
    /** A call of `recv` is waiting for a message; it does not look at the counter again. */
    var waiting: bool
    /** Whether the sender for unsubscribe requests is still held. */
    var canRequest: bool
    /** Every value of the drop counter seen so far, and every lag report made. */
    ghost var observed: seq<nat>
    ghost var reports: seq<nat>
    /** Attempts to ask for unsubscribing, and the requests that reached the actor's queue. */
    ghost var attempts: nat
    ghost var requests: nat

    ghost predicate Valid()
      reads this
    {
      && Ascending(observed) && lastSeenDrops == Watermark(observed) && reports == Reports(observed)
      && requests <= 1 && (canRequest ==> requests == 0)
    }

    constructor (id: SubscriptionId)
      ensures Valid() && this.id == id && lastSeenDrops == 0 && !waiting && canRequest && requests == 0 && reports == [] && observed == []
    {
      this.id, lastSeenDrops, waiting, canRequest := id, 0, false, true;
      observed, reports, attempts, requests := [], [], 0, 0;
    }

    /** The drops not reported yet, if any; they count as reported from now on. */
    method TakeLag(drops: nat) returns (missed: Option<nat>)
      requires Valid() && lastSeenDrops <= drops
      modifies this`lastSeenDrops, this`observed, this`reports
      ensures Valid() && lastSeenDrops == drops && observed == old(observed) + [drops]
      ensures missed == if drops > old(lastSeenDrops) then Some(drops - old(lastSeenDrops)) else None
      ensures reports == old(reports) + (if missed.Some? then [missed.value] else [])
    {
      ObserveMore(observed, drops);
      observed := observed + [drops];
      var unseen := drops - lastSeenDrops;
      if unseen > 0 {
        lastSeenDrops := drops;
        reports := reports + [unseen];
        return Some(unseen);
      }
      assert reports + [] == reports;
      return None;
    }

    /** The looks of a run, one after the other: no look is below the one before, and the reports are
        those that the values call for. */
    method FollowRun<D>(drops: seq<nat>, ghost events: seq<Event<D>>, ghost trace: seq<Snapshot<D>>, ghost outcomes: seq<Outcome>,
                        ghost looks: seq<nat>, ghost n: nat)
      requires Valid() && observed == []
      requires IsRun(events, trace, outcomes) && Looks(trace, looks, n, id) && drops == Seen(trace, looks, n, id)
      modifies this`lastSeenDrops, this`observed, this`reports
      ensures Valid() && observed == drops
      ensures Sum(reports) == lastSeenDrops <= trace[n].hub.lanes[id].drops
    {
      hide IsRun, Looks, Seen, Reports, Sum;
      LooksAscend(events, trace, outcomes, looks, n, id);
      for k := 0 to |drops|
        invariant Valid() && observed == drops[..k]
      {
        assert lastSeenDrops <= drops[k];
        var missed := TakeLag(drops[k]);
        assert drops[..k + 1] == drops[..k] + [drops[k]];
      }
      assert drops[..|drops|] == drops;
      ReportsAddUp(observed);
    }

    /** A poll of the channel: the oldest buffered message, or the end of the stream when nothing is
        buffered and no sender is left; otherwise the call goes on waiting. */
    method PollChannel(lane: Lane<M>, hasSender: bool) returns (event: ReceiveEvent<M>, lane': Lane<M>)
      requires lane.open
      modifies this`waiting
      ensures ConsumerMoved(lane, lane') && lane'.open && !event.Lagged?
      ensures event.Received? <==> lane.buffer != []
      ensures if event.Received? then lane.buffer == [event.message] + lane'.buffer && lane'.received == lane.received + [event.message]
              else lane' == lane
      ensures event.Ended? <==> lane.buffer == [] && !hasSender
      ensures waiting <==> event.Pending?
    {
      waiting := false;
      if lane.buffer == [] {
        waiting := hasSender;
        return (if hasSender then Pending else Ended), lane;
      }
      var message := lane.buffer[0];
      lane' := lane.(buffer := lane.buffer[1..], received := lane.received + [message]);
      assert lane.received + lane.buffer == (lane.received + [message]) + lane.buffer[1..];
      return Received(message), lane';
    }

    /** A new call of `recv`: pending drops first, then what the channel has. */
    method Recv(lane: Lane<M>, hasSender: bool) returns (event: ReceiveEvent<M>, lane': Lane<M>)
      requires Valid() && lane.open && lastSeenDrops <= lane.drops
      modifies this`lastSeenDrops, this`observed, this`reports, this`waiting
      ensures Valid() && lastSeenDrops == lane.drops && ConsumerMoved(lane, lane') && lane'.open
      ensures event.Lagged? <==> old(lastSeenDrops) < lane.drops
      ensures event.Lagged? ==> event.missed == lane.drops - old(lastSeenDrops) && reports == old(reports) + [event.missed]
      ensures !event.Lagged? ==> reports == old(reports)
      ensures event.Received? <==> !event.Lagged? && lane.buffer != []
      ensures if event.Received? then lane.buffer == [event.message] + lane'.buffer && lane'.received == lane.received + [event.message]
              else lane' == lane
      ensures event.Ended? <==> !event.Lagged? && lane.buffer == [] && !hasSender
      ensures waiting <==> event.Pending?
    {
      var missed := TakeLag(lane.drops);
      if missed.Some? {
        waiting := false;
        return Lagged(missed.value), lane;
      }
      event, lane' := PollChannel(lane, hasSender);
    }

    /** A waiting call of `recv` goes on: what the channel has, whatever was dropped meanwhile. */
    method Resume(lane: Lane<M>, hasSender: bool) returns (event: ReceiveEvent<M>, lane': Lane<M>)
      requires Valid() && waiting && lane.open
      modifies this`waiting
      ensures Valid() && ConsumerMoved(lane, lane') && lane'.open && !event.Lagged?
      ensures event.Received? <==> lane.buffer != []
      ensures if event.Received? then lane.buffer == [event.message] + lane'.buffer && lane'.received == lane.received + [event.message]
              else lane' == lane
      ensures event.Ended? <==> lane.buffer == [] && !hasSender
      ensures waiting <==> event.Pending?
    {
      event, lane' := PollChannel(lane, hasSender);
    }

    /** Once no sender is left, receiving over and over, starting with the waiting call if there is one,
        yields exactly the buffered messages, in order, and then the end. By then every drop has been
        reported, unless a waiting call found nothing buffered: that one ends without another look. */
    method ReceiveRest(lane: Lane<M>) returns (messages: seq<M>, lane': Lane<M>)
      requires Valid() && lane.open && lastSeenDrops <= lane.drops
      modifies this`lastSeenDrops, this`observed, this`reports, this`waiting
      ensures Valid() && !waiting && messages == lane.buffer
      ensures lane' == lane.(buffer := [], received := lane.received + lane.buffer)
      ensures Sum(reports) == if old(waiting) && lane.buffer == [] then old(lastSeenDrops) else lane.drops
    {
      hide Ascending, Reports, Sum;
      messages, lane' := [], lane;
      var ended := false;
      if waiting {
        var event;
        event, lane' := Resume(lane, false);
        messages := if event.Received? then [event.message] else [];
        ended := event.Ended?;
      }
      assert lane.received + [] == lane.received;
      while !ended
        invariant Valid() && !waiting && lane'.open && lastSeenDrops <= lane'.drops
        invariant lane' == lane.(buffer := lane'.buffer, received := lane.received + messages)
        invariant lane.buffer == messages + lane'.buffer
        invariant ended ==> lane'.buffer == [] && lastSeenDrops == if old(waiting) && lane.buffer == [] then old(lastSeenDrops) else lane.drops
        invariant !ended ==> !(old(waiting) && lane.buffer == [])
        decreases !ended, lane'.drops - lastSeenDrops, |lane'.buffer|
      {
        var event;
        event, lane' := Recv(lane', false);
        if event.Received? {
          assert lane.received + messages + [event.message] == lane.received + (messages + [event.message]);
          messages := messages + [event.message];
        }
        ended := event.Ended?;
      }
      assert messages + [] == messages;
      ReportsAddUp(observed);
    }

    /** Asks the actor to unsubscribe, without waiting. When the queue does not take the request the
        sender is put back, so that the call can be repeated. */
    method UnsubscribeImmediate() returns (r: Result<(), RequestError>)
      requires Valid()
      modifies this`canRequest, this`attempts, this`requests
      ensures Valid()
      ensures r.Success? ==> !canRequest && requests == old(requests) + (if old(canRequest) then 1 else 0)
      ensures r.Failure? ==> old(canRequest) && canRequest && requests == old(requests)
      ensures attempts == old(attempts) + (if old(canRequest) then 1 else 0)
    {
      if !canRequest {
        return Success(());
      }
      canRequest := false;
      r := TryRequest();
      if r.Failure? {
        canRequest := true;
      }
    }

    /** Asks the actor to unsubscribe, waiting for room in the queue, and gives the subscriber up. */
    method Unsubscribe() returns (r: Result<(), RequestError>)
      requires Valid()
      modifies this`canRequest, this`attempts, this`requests
      ensures Valid() && !canRequest
      ensures r.Success? ==> requests == old(requests) + (if old(canRequest) then 1 else 0)
      ensures r.Failure? ==> old(canRequest) && r.error == RequestQueueClosed && requests == old(requests)
      ensures attempts == old(attempts) + (if old(canRequest) then 1 else 0)
    {
      r := Success(());
      if canRequest {
        canRequest := false;
        attempts := attempts + 1;
        var actorGone: bool := *;
        if actorGone {
          r := Failure(RequestQueueClosed);
        } else {
          requests := requests + 1;
        }
      }
      Drop();
    }

    /** The subscriber goes out of scope: a last attempt to ask, unless that was done already. */
    method Drop()
      requires Valid()
      modifies this`canRequest, this`attempts, this`requests
      ensures Valid() && !canRequest
      ensures attempts == old(attempts) + (if old(canRequest) then 1 else 0)
      ensures old(requests) <= requests <= old(requests) + (if old(canRequest) then 1 else 0)
    {
      if canRequest {
        canRequest := false;
        var r := TryRequest();
      }
    }

    /** Puts a request into the actor's queue, if it has room and is not closed. */
    method TryRequest() returns (r: Result<(), RequestError>)
      modifies this`attempts, this`requests
      ensures attempts == old(attempts) + 1 && requests == old(requests) + (if r.Success? then 1 else 0)
    {
      attempts := attempts + 1;
      r := *;
      if r.Success? {
        requests := requests + 1;
      }
    }
  }
}

/** What a subscriber gets for the channel capacity and the parking limit that it asked for. */
module Backpressure {
  import opened Wrappers
  import opened TopicMatch
  import opened TopicPatternPath
  import opened TopicMatcher
  import opened Router = TopicRouter
  import opened BrokerCoverage
  import opened Delivery
  import opened Turns
  import opened Dispatch
  import opened Runs

  /** The i-th event of a run subscribes, and the answer is `id`. */
  ghost predicate Opens<D>(events: seq<Event<D>>, outcomes: seq<Outcome>, i: nat, id: SubscriptionId) {
    && i < |events| && i < |outcomes| && events[i].SubscribeRequest?
    && outcomes[i].Answered? && outcomes[i].response == Subscribed(id)
  }

  lemma OpenedLane<D>(events: seq<Event<D>>, trace: seq<Snapshot<D>>, outcomes: seq<Outcome>, i: nat, id: SubscriptionId)
    requires IsRun(events, trace, outcomes) && Opens(events, outcomes, i, id)
    ensures i + 1 < |trace| && id in trace[i + 1].hub.lanes
    ensures AsRequested(trace[i + 1].hub.lanes[id], events[i].channelCapacity, events[i].maxParked, true)
    ensures trace[i + 1].hub.Of(id) == Account(trace[i + 1].hub.lanes[id], [], None)
  {
    hide Covers, Replay, Farewell, Lapses, NeedsSubscribe, Settled;
    TurnOfRun(events, trace, outcomes, i);
    NoneInFlight(trace[i].hub.sends, id);
  }

  /** The capacity and the parking limit stay those of the request. */
  lemma LimitsStay<D>(events: seq<Event<D>>, trace: seq<Snapshot<D>>, outcomes: seq<Outcome>, i: nat, n: nat, id: SubscriptionId)
    requires IsRun(events, trace, outcomes) && Opens(events, outcomes, i, id) && i < n < |trace|
    ensures id in trace[n].hub.lanes
    ensures trace[n].hub.lanes[id].capacity == events[i].channelCapacity && trace[n].hub.lanes[id].maxParked == events[i].maxParked
  {
    hide IsRun, Opens;
    OpenedLane(events, trace, outcomes, i, id);
    RunGrows(events, trace, outcomes, i + 1, n);
  }

  /** The backlog of a live subscription is bounded by what it asked for: the capacity of its channel, one
      send in flight, and its parking limit. */
  lemma BacklogAsRequested<D>(events: seq<Event<D>>, trace: seq<Snapshot<D>>, outcomes: seq<Outcome>, i: nat, n: nat, id: SubscriptionId)
    requires IsRun(events, trace, outcomes) && Opens(events, outcomes, i, id) && i < n < |trace| && id in trace[n].subs
    ensures id in trace[n].hub.lanes
    ensures var s := trace[n].hub;
            |s.lanes[id].buffer| + |InFlight(s.sends, id)| + |s.Of(id).Waiting()| <= events[i].channelCapacity + 1 + events[i].maxParked
  {
    hide Opens, InFlight, TurnDone, Settled;
    LimitsStay(events, trace, outcomes, i, n, id);
    assert Sane(trace[n]);
    assert SettledAt(trace[n].hub, trace[n].entries, {}, id);
    SettledBacklog(trace[n].hub.Of(id), EntryOf(trace[n].entries, id));
  }

  lemma SettledBacklog<M>(a: Account<M>, entry: Option<SubscriberEntry>)
    requires Settled(a, entry, false)
    ensures |a.lane.buffer| + |a.inFlight| + |a.Waiting()| <= a.lane.capacity + 1 + a.lane.maxParked
  {
  }

  // ----- A consumer that does nothing -----

  /** The consumer has taken nothing and is still there. */
  ghost predicate Untouched<M>(lane: Lane<M>) {
    lane.received == [] && lane.open
  }

  /** As long as they fit, all messages dispatched are in the channel and nothing else has happened; later
      the channel goes on holding the first ones. */
  ghost predicate HoldsFirst<M>(a: Account<M>) {
    if |a.lane.dispatched| <= a.lane.capacity
    then a.lane.buffer == a.lane.dispatched && a.inFlight == [] && a.queue.None? && a.lane.drops == 0 && a.lane.lost == 0
    else a.lane.buffer == a.lane.dispatched[..a.lane.capacity]
  }

  lemma MoveHoldsFirst<M>(a: Account<M>, b: Account<M>)
    requires AccountMoved(a, b) && Untouched(a.lane) && Untouched(b.lane) && HoldsFirst(a)
    ensures HoldsFirst(b)
  {
    NothingTaken(a.lane, b.lane);
  }

  /** With nothing received, equal parts behind the channel leave equal parts in it. */
  lemma SameBuffer<M>(a: Account<M>, b: Account<M>, more: seq<M>)
    requires a.lane.received == [] && b.lane.received == [] && b.Kept() == a.Kept() + more
    requires |b.lane.buffer| <= |a.lane.buffer|
    requires |a.lane.buffer| <= |b.lane.buffer| || |b.inFlight| + |b.Waiting()| <= |a.inFlight| + |a.Waiting()| + |more|
    ensures b.lane.buffer == a.lane.buffer
  {
    assert b.lane.buffer == b.Kept()[..|b.lane.buffer|];
    assert a.lane.buffer == (a.Kept() + more)[..|a.lane.buffer|];
  }

  lemma KeptUntouched<M>(a: Account<M>)
    requires Untouched(a.lane)
    ensures a.Kept() == a.lane.buffer + a.inFlight + a.Waiting()
    ensures a.inFlight == [] && a.queue.None? ==> a.Kept() == a.lane.buffer
  {
  }

  lemma DeliveredHoldsFirst<M>(a: Account<M>, b: Account<M>, entry: SubscriberEntry, message: M, verdict: Verdict)
    requires Settled(a, Some(entry), false) && Delivered(a, b, message, verdict)
    requires Untouched(a.lane) && Untouched(b.lane) && HoldsFirst(a)
    ensures HoldsFirst(b)
    ensures verdict.Buffered? <==> |a.lane.dispatched| < a.lane.capacity
    ensures |a.lane.dispatched| == a.lane.capacity ==> verdict.GraceStarted?
  {
    hide Subsequence, Account.Kept;
    KeptUntouched(a);
    KeptUntouched(b);
    match verdict {
      case Buffered =>
        assert b.lane.buffer == a.lane.buffer + [message];
      case Rejected => assert false;
      case Overflowed =>
        assert b.Kept() == a.Kept() + [];
        SameBuffer(a, b, []);
      case _ => SameBuffer(a, b, [message]);
    }
  }

  /** Time-outs are counted or the queue moves up, but there is no room for any of it. */
  lemma GraceHoldsFirst<M>(a: Account<M>, b: Account<M>, message: M, live: bool, result: SendResult, outcome: DrainOutcome)
    requires a.inFlight == [message] && |b.lane.buffer| <= b.lane.capacity
    requires GraceOver(a, b, message, live, result, outcome)
    requires Untouched(a.lane) && Untouched(b.lane) && HoldsFirst(a)
    ensures HoldsFirst(b)
  {
    hide Account.Kept;
    if !live {
      NothingTaken(if result.Sent? then a.lane.Buffer(message) else a.lane.RecordLoss(1), b.lane);
    } else if !result.ChannelClosed? {
      var sent := AfterSend(a, message, result);
      KeptUntouched(sent);
      KeptUntouched(b);
      assert b.Kept() == sent.Kept();
      assert b.lane.buffer == b.Kept()[..|b.lane.buffer|];
      assert a.lane.buffer == sent.Kept()[..|a.lane.buffer|];
    }
  }

  lemma {:induction false} InFlightAt<M>(sends: seq<SlowSend<M>>, k: nat)
    requires k < |sends|
    ensures sends[k].message in InFlight(sends, sends[k].id)
  {
    if k < |sends| - 1 {
      InFlightAt(sends[..|sends| - 1], k);
    }
  }

  /** One event, seen from a subscription whose consumer does nothing. */
  lemma TurnHoldsFirst<D>(event: Event<D>, before: Snapshot<D>, after: Snapshot<D>, outcome: Outcome, id: SubscriptionId)
    requires Sane(before) && Sane(after) && TurnDone(event, before, after, outcome) && id in before.hub.lanes && id in after.hub.lanes
    requires Untouched(before.hub.lanes[id]) && Untouched(after.hub.lanes[id]) && HoldsFirst(before.hub.Of(id))
    ensures HoldsFirst(after.hub.Of(id))
  {
    hide CompletionDone, PublishDone, SubscribeDone, UnsubscribeDone, Untouched, HoldsFirst, AccountMoved, Orderly, Covers, Replay, InFlight;
    match event {
      case ConsumersAct(steps) =>
        StepsAreMoves(before.hub.lanes, steps);
        MovedTogether(before.hub, after.hub, id);
        MoveHoldsFirst(before.hub.Of(id), after.hub.Of(id));
      case SlowSendReady(k, result) => CompletionHoldsFirst(k, result, before, after, outcome.ready, outcome.drain, id);
      case Publish(topic, data) => PublishHoldsFirst(topic, data, before, after, outcome.verdicts, id);
      case SubscribeRequest(topic, qos, channelCapacity, maxParked) =>
        SubscribeHoldsFirst(topic, qos, channelCapacity, maxParked, before, after, outcome.response, outcome.forgotten, id);
      case UnsubscribeRequest(j) => UnsubscribeHoldsFirst(j, before, after, outcome.forgotten, id);
      case _ =>
    }
  }

  lemma MovedTogether<M>(before: Hub<M>, after: Hub<M>, id: SubscriptionId)
    requires after == before.(lanes := after.lanes) && ConsumersMoved(before.lanes, after.lanes) && id in before.lanes
    ensures AccountMoved(before.Of(id), after.Of(id))
  {
    hide ConsumerMoved, InFlight;
  }

  lemma CompletionHoldsFirst<D>(k: nat, result: SendResult, before: Snapshot<D>, after: Snapshot<D>, ready: bool, drain: DrainOutcome, id: SubscriptionId)
    requires Sane(before) && Sane(after) && CompletionDone(k, result, before, after, ready, drain) && id in before.hub.lanes && id in after.hub.lanes
    requires Untouched(before.hub.lanes[id]) && Untouched(after.hub.lanes[id]) && HoldsFirst(before.hub.Of(id))
    ensures HoldsFirst(after.hub.Of(id))
  {
    hide Untouched, HoldsFirst, AccountMoved, Covers, Replay, InFlight, GraceOver, Settled, Told, Possible;
    if k < |before.hub.sends| {
      if !ready {
        MovedTogether(before.hub, after.hub, id);
        MoveHoldsFirst(before.hub.Of(id), after.hub.Of(id));
      } else if id != before.hub.sends[k].id {
        MoveHoldsFirst(before.hub.Of(id), after.hub.Of(id));
      } else {
        InFlightAt(before.hub.sends, k);
        InFlightIsOne(before, id, before.hub.sends[k].message);
        BufferFits(after, id);
        GraceHoldsFirst(before.hub.Of(id), after.hub.Of(id), before.hub.sends[k].message, id in before.subs.Keys, result, drain);
      }
    }
  }

  lemma InFlightIsOne<D>(s: Snapshot<D>, id: SubscriptionId, message: Message<D>)
    requires Sane(s) && id in s.hub.lanes && message in InFlight(s.hub.sends, id)
    ensures InFlight(s.hub.sends, id) == [message]
  {
    hide InFlight;
    assert SettledAt(s.hub, s.entries, {}, id);
  }

  lemma BufferFits<D>(s: Snapshot<D>, id: SubscriptionId)
    requires Sane(s) && id in s.hub.lanes
    ensures |s.hub.lanes[id].buffer| <= s.hub.lanes[id].capacity
  {
    hide InFlight;
    assert SettledAt(s.hub, s.entries, {}, id);
  }

  /** While the consumer does nothing, a message published to the subscription is buffered if it is among
      the first `capacity` ones, and the next one starts a grace send. */
  lemma PublishHoldsFirst<D>(topic: string, data: D, before: Snapshot<D>, after: Snapshot<D>, verdicts: map<SubscriptionId, Verdict>, id: SubscriptionId)
    requires Sane(before) && PublishDone(topic, data, before, after, verdicts) && id in before.hub.lanes && id in after.hub.lanes
    requires Untouched(before.hub.lanes[id]) && Untouched(after.hub.lanes[id]) && HoldsFirst(before.hub.Of(id))
    ensures HoldsFirst(after.hub.Of(id))
    ensures var lane := before.hub.lanes[id];
            id in verdicts ==>
              && (verdicts[id] == Buffered <==> |lane.dispatched| < lane.capacity)
              && (|lane.dispatched| == lane.capacity ==> verdicts[id] == GraceStarted)
  {
    hide Untouched, HoldsFirst, AccountMoved, Covers, Replay, InFlight, Settled, Told, Registration.Accepts, MessageFor, Delivered;
    if id in verdicts {
      SettledEntry(before.hub, before.entries, before.nextId, id);
      DeliveredHoldsFirst(before.hub.Of(id), after.hub.Of(id), before.entries[id],
                          MessageFor(before.subs[id].pattern, NewTopicPath(topic), data), verdicts[id]);
    } else {
      MoveHoldsFirst(before.hub.Of(id), after.hub.Of(id));
    }
  }

  lemma SubscribeHoldsFirst<D>(topic: Pattern, qos: QoS, channelCapacity: nat, maxParked: nat, before: Snapshot<D>, after: Snapshot<D>,
                               r: SubscribeResponse, forgotten: bool, id: SubscriptionId)
    requires SubscribeDone(topic, qos, channelCapacity, maxParked, before, after, r, forgotten) && id in before.hub.lanes
    ensures id in after.hub.lanes && after.hub.Of(id) == before.hub.Of(id)
  {
    hide InFlight, Covers, Replay, Lapses, NeedsSubscribe, Farewell, AsRequested;
  }

  lemma UnsubscribeHoldsFirst<D>(j: SubscriptionId, before: Snapshot<D>, after: Snapshot<D>, forgotten: bool, id: SubscriptionId)
    requires UnsubscribeDone(j, before, after, forgotten) && id in before.hub.lanes && id in after.hub.lanes
    requires HoldsFirst(before.hub.Of(id))
    ensures HoldsFirst(after.hub.Of(id))
  {
    hide InFlight, Farewell;
    UnparkedOf(before.hub, j, id);
  }

  /** As long as the consumer does nothing its channel holds the first messages dispatched to it, as many
      as it asked room for. */
  lemma {:induction false} FirstMessagesAreHeld<D>(events: seq<Event<D>>, trace: seq<Snapshot<D>>, outcomes: seq<Outcome>, i: nat, n: nat, id: SubscriptionId)
    requires IsRun(events, trace, outcomes) && Opens(events, outcomes, i, id) && i < n < |trace|
    requires id in trace[n].hub.lanes && Untouched(trace[n].hub.lanes[id])
    ensures HoldsFirst(trace[n].hub.Of(id))
    decreases n
  {
    hide Opens, Sane, TurnDone;
    if n == i + 1 {
      OpenedLane(events, trace, outcomes, i, id);
    } else {
      LimitsStay(events, trace, outcomes, i, n - 1, id);
      RunGrows(events, trace, outcomes, n - 1, n);
      FirstMessagesAreHeld(events, trace, outcomes, i, n - 1, id);
      TurnOfRun(events, trace, outcomes, n - 1);
      TurnHoldsFirst(events[n - 1], trace[n - 1], trace[n], outcomes[n - 1], id);
    }
  }

  lemma PublishTurn<D>(event: Event<D>, before: Snapshot<D>, after: Snapshot<D>, outcome: Outcome, id: SubscriptionId)
    requires event.Publish? && TurnDone(event, before, after, outcome)
    requires id in before.subs && before.subs[id].Accepts(NewTopicPath(event.topicName))
    ensures outcome.Published? && id in outcome.verdicts && PublishDone(event.topicName, event.data, before, after, outcome.verdicts)
  {
    hide Registration.Accepts, Dispatched, Told;
  }

  /** A subscription that asked for room for c messages gets exactly its first c messages into the channel
      if the consumer does nothing; they are all there, and the next one starts a grace send. */
  lemma FirstMessagesAreBuffered<D>(events: seq<Event<D>>, trace: seq<Snapshot<D>>, outcomes: seq<Outcome>, i: nat, n: nat, id: SubscriptionId)
    requires IsRun(events, trace, outcomes) && Opens(events, outcomes, i, id) && i < n < |outcomes|
    requires events[n].Publish? && id in trace[n].subs && trace[n].subs[id].Accepts(NewTopicPath(events[n].topicName))
    requires id in trace[n + 1].hub.lanes && Untouched(trace[n + 1].hub.lanes[id])
    ensures outcomes[n].Published? && id in outcomes[n].verdicts && id in trace[n].hub.lanes
    ensures var c, earlier := events[i].channelCapacity, |trace[n].hub.lanes[id].dispatched|;
            && (outcomes[n].verdicts[id] == Buffered <==> earlier < c)
            && (earlier == c ==> outcomes[n].verdicts[id] == GraceStarted)
            && trace[n].hub.lanes[id].buffer == trace[n].hub.lanes[id].dispatched[..if earlier <= c then earlier else c]
  {
    hide IsRun, Opens, Sane, TurnDone, PublishDone, Registration.Accepts, InFlight, TopicPath.WellFormed;
    RunShape(events, trace, outcomes);
    LimitsStay(events, trace, outcomes, i, n, id);
    RunGrows(events, trace, outcomes, n, n + 1);
    FirstMessagesAreHeld(events, trace, outcomes, i, n, id);
    TurnOfRun(events, trace, outcomes, n);
    PublishTurn(events[n], trace[n], trace[n + 1], outcomes[n], id);
    PublishHoldsFirst(events[n].topicName, events[n].data, trace[n], trace[n + 1], outcomes[n].verdicts, id);
  }
}

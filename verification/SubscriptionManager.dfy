/** The routing actor: it hands incoming messages to subscriptions and shields itself from slow
    consumers with bounded channels, one grace send per subscription, and bounded parked queues.

    Consumers run concurrently. Between any two channel operations of the actor they may take
    messages from their channels or drop them (`Interfere`). */
module SubscriptionManager {
  import opened Wrappers
  import opened TopicMatch
  import opened TopicPatternPath
  import opened PatternLaws
  import opened MatchCache
  import opened TopicMatcher
  import opened Router = TopicRouter
  import opened BrokerCoverage
  import opened Delivery
  import opened Turns
  import opened Dispatch
  import opened Runs

  class SubscriptionManagerActor<D> {
    const topicRouter: TopicRouter<SubscriberEntry>
    const cacheCapacity: nat
    var topicPathCache: map<string, TopicPath>
    var lanes: Lanes<Message<D>>
    var parked: map<SubscriptionId, seq<Message<D>>>
    var slowSends: seq<SlowSend<Message<D>>>
    /** Everything that passed between client and broker; `Replay` gives what the broker holds. */
    ghost var asked: seq<Exchange>
    /** Since the broker last had the full picture it has not lost its session, and no request has
        lowered the QoS of a wire pattern below that of a live subscription. */
    ghost var synced: bool

    ghost function Now(): Hub<Message<D>>
      reads this`lanes, this`parked, this`slowSends
    {
      Hub(lanes, parked, slowSends)
    }

    /** The whole state, the topic cache apart. */
    ghost function Snap(): Snapshot<D>
      reads this`lanes, this`parked, this`slowSends, this`asked, this`synced, topicRouter
    {
      Snapshot(Now(), topicRouter.subscriptions, topicRouter.payloads, topicRouter.nextId, asked, synced)
    }

    ghost predicate RouterFits()
      reads topicRouter, topicRouter.Repr
    {
      this !in topicRouter.Repr && topicRouter.Valid()
    }

    ghost predicate Informed()
      reads this`asked, this`synced, topicRouter
    {
      synced ==> Covers(Replay(asked), topicRouter.subscriptions)
    }

    ghost predicate CacheFits()
      reads this`topicPathCache
    {
      && 0 < cacheCapacity && |topicPathCache| <= cacheCapacity
      && forall s :: s in topicPathCache ==> topicPathCache[s] == NewTopicPath(s)
    }

    /** What holds between any two turns of a running actor. */
    ghost predicate Valid()
      reads this, topicRouter, topicRouter.Repr
    {
      && RouterFits()
      && Orderly(Now(), topicRouter.payloads, topicRouter.nextId, {})
      && Informed()
      && CacheFits()
    }

    constructor (cacheCapacity: nat)
      requires cacheCapacity > 0
      ensures Valid() && fresh(topicRouter.Repr)
      ensures lanes == map[] && slowSends == [] && parked == map[] && synced
    {
      hide TopicRouter.Valid, Orderly, Covers, InStep;
      NothingIsOrderly<Message<D>>();
      NothingToCover(Replay([]));
      this.cacheCapacity := cacheCapacity;
      topicRouter := new TopicRouter<SubscriberEntry>();
      topicPathCache, lanes, parked, slowSends := map[], map[], map[], [];
      asked, synced := [], true;
    }

    // ----- The environment -----

    /** Consumers take messages and drop receivers in any order, any number of times. */
    method Interfere()
      modifies this`lanes
      ensures ConsumersMoved(old(lanes), lanes)
    {
      var steps: seq<ConsumerStep> := *;
      StepsAreMoves(lanes, steps);
      lanes := AfterSteps(lanes, steps);
    }

    /** A subscribe request to the client; success means that the request is queued. */
    method ClientSubscribe(topic: string, qos: QoS) returns (ok: bool)
      modifies this`asked
      ensures asked == old(asked) + [SubscribeTo(topic, qos, ok)]
    {
      ok := *;
      asked := asked + [SubscribeTo(topic, qos, ok)];
    }

    method ClientUnsubscribe(topic: string) returns (ok: bool)
      modifies this`asked
      ensures asked == old(asked) + [UnsubscribeFrom(topic, ok)]
    {
      ok := *;
      asked := asked + [UnsubscribeFrom(topic, ok)];
    }

    // ----- Channels -----

    method TrySend(id: SubscriptionId, message: Message<D>) returns (r: TrySendResult)
      requires id in lanes
      modifies this`lanes
      ensures lanes.Keys == old(lanes).Keys
      ensures forall j :: j in lanes && j != id ==> ConsumerMoved(old(lanes)[j], lanes[j])
      ensures r.Accepted? ==> SentInto(old(lanes)[id], lanes[id], message)
      ensures r.Full? ==> ConsumerMoved(old(lanes)[id], lanes[id]) && lanes[id].open && |lanes[id].buffer| >= lanes[id].capacity
      ensures r.Closed? ==> ConsumerMoved(old(lanes)[id], lanes[id]) && !lanes[id].open
    {
      Interfere();
      if !lanes[id].open {
        return Closed;
      }
      if |lanes[id].buffer| >= lanes[id].capacity {
        return Full;
      }
      BufferAfterMove(old(lanes)[id], lanes[id], message);
      lanes := lanes[id := lanes[id].Buffer(message)];
      return Accepted;
    }

    /** Adds a send to the pending ones; a subscription has at most one. */
    method PushSlowSend(id: SubscriptionId, message: Message<D>)
      requires InFlight(slowSends, id) == []
      modifies this`slowSends
      ensures slowSends == old(slowSends) + [SlowSend(id, message)]
    {
      slowSends := slowSends + [SlowSend(id, message)];
    }

    // ----- Unsubscribing -----

    /** Drops what is parked, removes the subscription from the router, and tells the broker only when
        the router became empty. A send in flight stays in flight. An unknown id changes nothing. */
    method HandleUnsubscribe(id: SubscriptionId, ghost leaving: set<SubscriptionId>) returns (ghost accepted: bool)
      requires RouterFits() && Informed()
      requires Orderly(Now(), topicRouter.payloads, topicRouter.nextId, leaving)
      modifies this`lanes, this`parked, this`asked, topicRouter.Repr
      ensures RouterFits() && Informed() && topicRouter.Repr == old(topicRouter.Repr)
      ensures Orderly(Now(), topicRouter.payloads, topicRouter.nextId, leaving - {id})
      ensures Now() == Unparked(old(Now()), id) && id !in parked
      ensures forall j :: j in old(lanes) ==> j in lanes && lanes[j].drops == old(lanes)[j].drops && lanes[j].buffer == old(lanes)[j].buffer
      ensures topicRouter.subscriptions == old(topicRouter.subscriptions) - {id}
      ensures topicRouter.payloads == old(topicRouter.payloads) - {id}
      ensures topicRouter.nextId == old(topicRouter.nextId)
      ensures asked == old(asked) + Farewell(old(topicRouter.subscriptions), id, accepted)
    {
      hide TopicRouter.Valid, Orderly, Pattern.MqttPattern, Covers;
      UnparkedIsOrderly(Now(), topicRouter.payloads, topicRouter.nextId, leaving, id);
      Unpark(id);
      accepted := LeaveRouter(id);
    }

    method Unpark(id: SubscriptionId)
      requires Now().Closed()
      modifies this`lanes, this`parked
      ensures Now() == Unparked(old(Now()), id)
    {
      if id in parked {
        lanes := lanes[id := lanes[id].RecordLoss(|parked[id]|)];
        parked := parked - {id};
      }
    }

    method LeaveRouter(id: SubscriptionId) returns (ghost accepted: bool)
      requires RouterFits() && Informed()
      modifies this`asked, topicRouter.Repr
      ensures RouterFits() && Informed() && topicRouter.Repr == old(topicRouter.Repr)
      ensures topicRouter.subscriptions == old(topicRouter.subscriptions) - {id}
      ensures topicRouter.payloads == old(topicRouter.payloads) - {id}
      ensures topicRouter.nextId == old(topicRouter.nextId)
      ensures asked == old(asked) + Farewell(old(topicRouter.subscriptions), id, accepted)
    {
      hide TopicRouter.Valid, Pattern.MqttPattern, Covers, Replay, Farewell;
      ghost var subs := topicRouter.subscriptions;
      FewerAreInformed(synced, Replay(asked), subs, id);
      var removed := LeaveTables(id);
      accepted := TellIfEmpty(removed);
      FarewellFollows(subs, id, removed, accepted);
      FarewellKeepsCoverage(synced, old(asked), topicRouter.subscriptions, subs, id, accepted);
    }

    method LeaveTables(id: SubscriptionId) returns (removed: Result<(bool, Pattern), RouterError>)
      requires RouterFits()
      modifies topicRouter.Repr
      ensures RouterFits() && topicRouter.Repr == old(topicRouter.Repr)
      ensures topicRouter.subscriptions == old(topicRouter.subscriptions) - {id}
      ensures topicRouter.payloads == old(topicRouter.payloads) - {id}
      ensures topicRouter.nextId == old(topicRouter.nextId)
      ensures id !in old(topicRouter.subscriptions) ==> removed.Failure?
      ensures id in old(topicRouter.subscriptions) ==>
                removed == Success((topicRouter.subscriptions == map[], old(topicRouter.subscriptions)[id].pattern))
    {
      hide TopicRouter.Valid, AnswerStands;
      topicRouter.RegisteredFacts();
      MissingIdLeavesAll(topicRouter.subscriptions, topicRouter.payloads, id);
      removed := topicRouter.Unsubscribe(id);
    }

    /** The broker is told when the router says that it is empty. */
    method TellIfEmpty(removed: Result<(bool, Pattern), RouterError>) returns (accepted: bool)
      modifies this`asked
      ensures asked == old(asked) + (if removed.Success? && removed.value.0
                                     then [UnsubscribeFrom(removed.value.1.MqttPattern(), accepted)] else [])
    {
      accepted := false;
      if removed.Success? && removed.value.0 {
        accepted := ClientUnsubscribe(removed.value.1.MqttPattern());
      }
    }

    // ----- Incoming messages -----

    /** The parsed topic, from the cache or parsed anew; either way what parsing the string gives. */
    method LookUpTopicPath(topic: string) returns (path: TopicPath)
      requires CacheFits()
      modifies this`topicPathCache
      ensures CacheFits() && path == NewTopicPath(topic)
      ensures topic in topicPathCache && (topic in old(topicPathCache) ==> topicPathCache == old(topicPathCache))
    {
      if topic in topicPathCache {
        return topicPathCache[topic];
      }
      path := NewTopicPath(topic);
      topicPathCache := LruPut(topicPathCache, cacheCapacity, topic, path);
    }

    /** A subscription that the router selects also passes matching on its unbound segments, so the
        error arm for a failed match can never be taken. */
    method MatchSelected(pattern: Pattern, topic: TopicPath, data: D) returns (message: Message<D>)
      requires pattern.Valid() && topic.WellFormed() && Matches(pattern.Resolved(), topic.Levels())
      ensures message == MessageFor(pattern, topic, data) && Carries(message, pattern, topic.path, data)
    {
      hide Pattern.Valid, Matches, MatchOf, ExtractsBindings, Carries;
      var matched := TryMatchInternal(pattern.segments, topic);
      BindingNarrows(pattern, topic);
      assert matched.Success?;
      message := Message(matched.value, data);
      MessageCarries(pattern, topic, data);
    }

    /** Hands a message to one subscription: behind the send in flight if there is one, otherwise
        straight into the channel. When the channel is full the caller starts a grace send. */
    method Deliver(id: SubscriptionId, entry: SubscriberEntry, message: Message<D>) returns (verdict: Verdict)
      requires Now().Closed() && id in lanes
      requires Settled(Now().Of(id), Some(entry), false)
      modifies this`lanes, this`parked
      ensures OnlyTouches(old(Now()), Now(), id) && parked.Keys == old(parked.Keys)
      ensures id in parked ==> !verdict.GraceStarted?
      ensures Delivered(old(Now()).Of(id),
                        if verdict.GraceStarted? then Account(lanes[id], [message], Some([])) else Now().Of(id), message, verdict)
    {
      hide InFlight, ConsumerMoved, Settled, Delivered, OnlyTouches, SentInto;
      ghost var before := Now();
      lanes := lanes[id := lanes[id].RecordDispatch(message)];
      if id in parked {
        if |parked[id]| >= entry.maxParked {
          lanes := lanes[id := lanes[id].RecordDrop(1)];
          verdict := Overflowed;
        } else {
          parked := parked[id := parked[id] + [message]];
          verdict := Queued;
        }
        ParkedDelivery(before, Now(), id, entry, message, verdict);
        return;
      }
      var r := TrySend(id, message);
      match r {
        case Accepted =>
          verdict := Buffered;
        case Closed =>
          LossAfterMove(before.lanes[id].RecordDispatch(message), lanes[id]);
          lanes := lanes[id := lanes[id].RecordLoss(1)];
          verdict := Rejected;
        case Full =>
          verdict := GraceStarted;
      }
      ChannelDelivery(before, Now(), id, entry, message, r, verdict);
    }

    /** Hands the message to every selected subscription in turn. Grace sends are only planned here. */
    method DeliverAll(subscribers: seq<Subscriber<SubscriberEntry>>, topic: TopicPath, data: D, ghost entries: Entries, ghost nextId: nat)
      returns (newParks: seq<SlowSend<Message<D>>>, closed: seq<SubscriptionId>, ghost verdicts: map<SubscriptionId, Verdict>)
      requires Orderly(Now(), entries, nextId, {}) && topic.WellFormed()
      requires DistinctIds(subscribers)
      requires forall k :: 0 <= k < |subscribers| ==> Selectable(subscribers[k], entries, topic)
      modifies this`lanes, this`parked
      ensures slowSends == old(slowSends) && lanes.Keys == old(lanes.Keys) && Now().Closed()
      ensures Planned(slowSends, newParks, verdicts.Keys)
      ensures verdicts.Keys == ServedIds(subscribers, |subscribers|)
      ensures ListsRejected(closed, verdicts)
      ensures Processed(old(Now()), WithParks(Now(), newParks), subscribers, topic, data, verdicts)
    {
      hide Settled, Delivered, OnlyTouches, InFlight, Ids, Processed, Planned, ListsRejected, ServedIds, Orderly, Selectable, DistinctIds;
      newParks, closed, verdicts := [], [], map[];
      ghost var start := Now();
      assert verdicts.Keys == {};
      NothingProcessed(start, entries, nextId, subscribers, topic, data);
      for k := 0 to |subscribers|
        invariant slowSends == start.sends && lanes.Keys == start.lanes.Keys && Now().Closed()
        invariant Planned(slowSends, newParks, verdicts.Keys)
        invariant verdicts.Keys == ServedIds(subscribers, k)
        invariant ListsRejected(closed, verdicts)
        invariant Processed(start, WithParks(Now(), newParks), subscribers, topic, data, verdicts)
      {
        NotYetServed(start, entries, nextId, subscribers, topic, verdicts.Keys, k);
        newParks, closed, verdicts := DeliverTo(subscribers, k, topic, data, newParks, closed, verdicts, start);
      }
    }

    /** The turn of one subscriber. */
    method DeliverTo(subscribers: seq<Subscriber<SubscriberEntry>>, k: nat, topic: TopicPath, data: D,
                 newParks: seq<SlowSend<Message<D>>>, closed: seq<SubscriptionId>,
                 ghost verdicts: map<SubscriptionId, Verdict>, ghost start: Hub<Message<D>>)
      returns (newParks': seq<SlowSend<Message<D>>>, closed': seq<SubscriptionId>, ghost verdicts': map<SubscriptionId, Verdict>)
      requires k < |subscribers| && DistinctIds(subscribers) && topic.WellFormed()
      requires subscribers[k].registration.pattern.Valid() && subscribers[k].registration.Accepts(topic)
      requires slowSends == start.sends && lanes.Keys == start.lanes.Keys && Now().Closed()
      requires subscribers[k].id in start.lanes && subscribers[k].id !in verdicts
      requires Settled(start.Of(subscribers[k].id), Some(subscribers[k].payload), false)
      requires Planned(slowSends, newParks, verdicts.Keys) && ListsRejected(closed, verdicts)
      requires Processed(start, WithParks(Now(), newParks), subscribers, topic, data, verdicts)
      modifies this`lanes, this`parked
      ensures lanes.Keys == start.lanes.Keys && Now().Closed()
      ensures verdicts'.Keys == verdicts.Keys + {subscribers[k].id}
      ensures Planned(slowSends, newParks', verdicts'.Keys) && ListsRejected(closed', verdicts')
      ensures Processed(start, WithParks(Now(), newParks'), subscribers, topic, data, verdicts')
    {
      hide Settled, Delivered, OnlyTouches, InFlight, Ids, Processed, Planned, ListsRejected, DistinctIds, Pattern.Valid, Matches, MatchOf;
      var id, entry := subscribers[k].id, subscribers[k].payload;
      PlannedFacts(slowSends, newParks, verdicts.Keys);
      NotYetProcessed(start, Now(), newParks, subscribers, topic, data, verdicts, id, entry);
      var message := MatchSelected(subscribers[k].registration.pattern, topic, data);
      IdleOrParked(Now(), id, entry);
      ghost var before := Now();
      assert id in before.lanes && Ids(newParks) <= before.lanes.Keys by {
        ProcessedIds(start, WithParks(Now(), newParks), subscribers, topic, data, verdicts);
      }
      var verdict := Deliver(id, entry, message);
      newParks' := if verdict.GraceStarted? then newParks + [SlowSend(id, message)] else newParks;
      closed' := if verdict.Rejected? then closed + [id] else closed;
      verdicts' := verdicts[id := verdict];
      OnlyTouchesKeepsLanes(before, Now(), id);
      DeliveryStep(start, before, Now(), newParks, newParks', subscribers, topic, data, verdicts, k, verdict);
      PlanOneMore(slowSends, newParks, verdicts.Keys, SlowSend(id, message));
      RejectedGrows(closed, verdicts, id, verdict);
    }

    /** Starts the planned grace sends. */
    method StartGraceSends(newParks: seq<SlowSend<Message<D>>>, ghost served: set<SubscriptionId>)
      requires Planned(slowSends, newParks, served)
      modifies this`parked, this`slowSends
      ensures Now() == WithParks(old(Now()), newParks)
    {
      hide InFlight, Ids, WithParks;
      ghost var start := Now();
      WithNoParks(start);
      for k := 0 to |newParks|
        invariant newParks[..k] == [] ==> k == 0
        invariant Now() == WithParks(start, newParks[..k])
      {
        assert newParks[..k + 1] == newParks[..k] + [newParks[k]];
        WithOneMorePark(start, newParks[..k], newParks[k]);
        NotStartedYet(start, newParks, served, k);
        parked := parked[newParks[k].id := []];
        PushSlowSend(newParks[k].id, newParks[k].message);
      }
      assert newParks[..|newParks|] == newParks;
    }

    /** Unsubscribes those whose channel was found closed; they are idle, so nothing else changes. */
    method DropClosed(closed: seq<SubscriptionId>)
      requires RouterFits() && Informed()
      requires Orderly(Now(), topicRouter.payloads, topicRouter.nextId, Listed(closed))
      modifies this`lanes, this`parked, this`asked, topicRouter.Repr
      ensures RouterFits() && Informed() && topicRouter.Repr == old(topicRouter.Repr)
      ensures Orderly(Now(), topicRouter.payloads, topicRouter.nextId, {})
      ensures Now() == old(Now())
      ensures topicRouter.subscriptions == old(topicRouter.subscriptions) - Listed(closed)
      ensures topicRouter.nextId == old(topicRouter.nextId)
      ensures Told(old(asked), asked, old(topicRouter.subscriptions), topicRouter.subscriptions)
    {
      hide TopicRouter.Valid, Orderly, Covers, Unparked, Told, Pattern.MqttPattern, Farewell;
      ghost var start, subs := Now(), topicRouter.subscriptions;
      ListedFrom(closed, 0);
      ToldNothing(asked, subs);
      for k := 0 to |closed|
        invariant RouterFits() && Informed() && topicRouter.Repr == old(topicRouter.Repr)
        invariant Orderly(Now(), topicRouter.payloads, topicRouter.nextId, Listed(closed[k..]))
        invariant Now() == start
        invariant topicRouter.subscriptions == subs - Listed(closed[..k])
        invariant topicRouter.nextId == old(topicRouter.nextId)
        invariant Told(old(asked), asked, subs, topicRouter.subscriptions)
      {
        ListedFrom(closed, k);
        ghost var asked', subs' := asked, topicRouter.subscriptions;
        LeavingIsIdle(Now(), topicRouter.payloads, topicRouter.nextId, Listed(closed[k..]), closed[k]);
        ghost var accepted := HandleUnsubscribe(closed[k], Listed(closed[k..]));
        FewerLeaving(Now(), topicRouter.payloads, topicRouter.nextId, Listed(closed[k..]), Listed(closed[k + 1..]), closed[k]);
        ToldByOne(asked', asked, subs', topicRouter.subscriptions, closed[k], accepted);
        ToldTrans(old(asked), asked', asked, subs, subs', topicRouter.subscriptions);
      }
      assert closed[..|closed|] == closed && closed[|closed|..] == [];
    }

    /** Dispatches a published message. Exactly the live subscriptions whose bound pattern fits the
        topic get it, each once, with its own parameters, and as its verdict says; those found closed are removed; all others
        see no more than what their own consumers do. */
    method HandleSend(topic: string, data: D) returns (ghost verdicts: map<SubscriptionId, Verdict>)
      requires Valid()
      modifies this, topicRouter.Repr
      ensures Valid() && topicRouter.Repr == old(topicRouter.Repr) && synced == old(synced)
      ensures lanes.Keys == old(lanes.Keys) && topicRouter.nextId == old(topicRouter.nextId)
      ensures forall id :: id in verdicts <==> id in old(topicRouter.subscriptions) && old(topicRouter.subscriptions)[id].Accepts(NewTopicPath(topic))
      ensures Dispatched(old(Now()), Now(), old(topicRouter.subscriptions), NewTopicPath(topic), data, verdicts)
      ensures forall id :: id in verdicts && id in lanes ==>
                GotMessage(old(lanes)[id], lanes[id], old(topicRouter.subscriptions)[id].pattern, topic, data)
      ensures topicRouter.subscriptions == old(topicRouter.subscriptions) - RejectedIn(verdicts)
      ensures Told(old(asked), asked, old(topicRouter.subscriptions), topicRouter.subscriptions)
    {
      hide TopicRouter.Valid, Orderly, Covers, Pattern.Valid, GotMessage, Registration.Accepts, DistinctIds, ListsRejected, Dispatched, ServedIds, Selected,
        RejectedIn, Listed, Told;
      var path, subscribers := Route(topic);
      var closed;
      ghost var start, subs := Now(), topicRouter.subscriptions;
      closed, verdicts := FanOut(subscribers, path, data, subs, topicRouter.payloads, topicRouter.nextId);
      topicRouter.RegisteredFacts();
      DispatchedCarries(start, Now(), subs, topic, data, verdicts);
      DropClosed(closed);
    }

    /** The parsed topic and the subscriptions that fit it. */
    method Route(topic: string) returns (path: TopicPath, subscribers: seq<Subscriber<SubscriberEntry>>)
      requires RouterFits() && CacheFits()
      modifies this`topicPathCache
      ensures RouterFits() && CacheFits() && path == NewTopicPath(topic)
      ensures DistinctIds(subscribers) && Selected(subscribers, topicRouter.subscriptions, topicRouter.payloads, path)
      ensures forall id :: id in ServedIds(subscribers, |subscribers|) <==>
                id in topicRouter.subscriptions && topicRouter.subscriptions[id].Accepts(path)
    {
      hide TopicRouter.Valid, Registration.Accepts, DistinctIds, ListsId, Selected, ServedIds, Pattern.Valid;
      topicRouter.RegisteredFacts();
      path := LookUpTopicPath(topic);
      subscribers := topicRouter.GetSubscribers(path);
      AllSelected(subscribers, topicRouter.subscriptions, topicRouter.payloads, path);
    }

    /** All deliveries of one message, and then the grace sends that they call for. */
    method FanOut(subscribers: seq<Subscriber<SubscriberEntry>>, topic: TopicPath, data: D,
                  ghost subs: Registrations, ghost entries: Entries, ghost nextId: nat)
      returns (closed: seq<SubscriptionId>, ghost verdicts: map<SubscriptionId, Verdict>)
      requires Orderly(Now(), entries, nextId, {}) && topic.WellFormed()
      requires DistinctIds(subscribers) && Selected(subscribers, subs, entries, topic)
      modifies this`lanes, this`parked, this`slowSends
      ensures lanes.Keys == old(lanes.Keys)
      ensures verdicts.Keys == ServedIds(subscribers, |subscribers|)
      ensures Dispatched(old(Now()), Now(), subs, topic, data, verdicts)
      ensures Orderly(Now(), entries, nextId, Listed(closed)) && Listed(closed) == RejectedIn(verdicts)
    {
      hide Orderly, Processed, Planned, ListsRejected, DistinctIds, WithParks, Dispatched, ServedIds, Selected, Selectable;
      ghost var start := Now();
      SelectedIsSelectable(subscribers, subs, entries, topic);
      var newParks;
      newParks, closed, verdicts := DeliverAll(subscribers, topic, data, entries, nextId);
      PlannedFacts(slowSends, newParks, verdicts.Keys);
      ProcessedIds(start, WithParks(Now(), newParks), subscribers, topic, data, verdicts);
      StaysClosed(Now(), newParks);
      StartGraceSends(newParks, verdicts.Keys);
      ProcessedIsOrderly(start, Now(), subscribers, subs, entries, nextId, topic, data, verdicts, closed);
    }

    // ----- Grace sends -----

    /** The subscriptions that count as live; during shutdown none does. */
    ghost function Live(closing: bool): Entries
      reads topicRouter
    {
      if closing then map[] else topicRouter.payloads
    }

    /** Sends parked messages until the queue is empty or the channel accepts no more; in the latter
        case the next message goes into the one grace send and the rest stays queued. A channel
        found closed costs the rest of the queue, counted, and the subscription. */
    method DrainParked(id: SubscriptionId) returns (ghost outcome: DrainOutcome)
      requires RouterFits() && Informed() && id in lanes
      requires OrderlyBut(Now(), topicRouter.payloads, topicRouter.nextId, id)
      requires id in parked ==> id in topicRouter.payloads && ReadyToDrain(Now().Of(id), topicRouter.payloads[id])
      requires |lanes[id].buffer| <= lanes[id].capacity
      modifies this`lanes, this`parked, this`slowSends, this`asked, topicRouter.Repr
      ensures RouterFits() && Informed() && topicRouter.Repr == old(topicRouter.Repr) && topicRouter.nextId == old(topicRouter.nextId)
      ensures id !in old(parked) ==> Now() == old(Now()) && topicRouter.subscriptions == old(topicRouter.subscriptions)
      ensures id in old(parked) ==>
                && Orderly(Now(), topicRouter.payloads, topicRouter.nextId, {})
                && OnlyTouches(old(Now()), Now(), id) && Drained(old(Now()).Of(id), Now().Of(id), outcome)
                && topicRouter.subscriptions == if outcome.Gone? then old(topicRouter.subscriptions) - {id} else old(topicRouter.subscriptions)
      ensures Told(old(asked), asked, old(topicRouter.subscriptions), topicRouter.subscriptions)
    {
      hide TopicRouter.Valid, Orderly, OrderlyBut, OnlyTouches, Drained, Covers, Unparked, InFlight, Subsequence, Told, Farewell;
      outcome := CaughtUp;
      ghost var asked', subs := asked, topicRouter.subscriptions;
      ToldNothing(asked, subs);
      if id !in parked {
        return;
      }
      ghost var start, entries := Now(), topicRouter.payloads;
      var gone;
      OrderlyButIsClosed(start, entries, topicRouter.nextId, id);
      gone, outcome := SendQueued(id);
      DrainKeepsOrderly(start, Now(), entries, topicRouter.nextId, id, outcome);
      if gone {
        ghost var nobody: set<SubscriptionId> := {};
        ghost var accepted := HandleUnsubscribe(id, nobody);
        assert nobody - {id} == nobody;
        ToldByOne(asked', asked, subs, topicRouter.subscriptions, id, accepted);
      }
    }

    /** The loop of `DrainParked`: sends the queue, message by message. */
    method SendQueued(id: SubscriptionId) returns (gone: bool, ghost outcome: DrainOutcome)
      requires Now().Closed() && id in parked && InFlight(slowSends, id) == []
      requires |lanes[id].buffer| <= lanes[id].capacity
      modifies this`lanes, this`parked, this`slowSends
      ensures OnlyTouches(old(Now()), Now(), id) && Drained(old(Now()).Of(id), Now().Of(id), outcome)
      ensures gone <==> outcome.Gone?
    {
      hide InFlight, OnlyTouches, Drained, ConsumerMoved, Draining, SentInto;
      ghost var start := Now();
      var queue := parked[id];
      parked := parked - {id};
      DrainingStarts(start, id);
      while queue != []
        invariant parked == start.parked - {id} && slowSends == start.sends && lanes.Keys == start.lanes.Keys
        invariant forall j :: j in lanes && j != id ==> ConsumerMoved(start.lanes[j], lanes[j])
        invariant Draining(start.Of(id), lanes[id], queue)
        decreases |queue|
      {
        assert queue == [queue[0]] + queue[1..];
        var message := queue[0];
        queue := queue[1..];
        ghost var before := lanes;
        var r := TrySend(id, message);
        OthersMovedTrans(start.lanes, before, lanes, id);
        DrainingStep(start.Of(id), before[id], lanes[id], message, queue, r);
        match r {
          case Accepted =>
          case Full =>
            parked := parked[id := queue];
            PushSlowSend(id, message);
            Reparked(start, Now(), id, message, queue);
            return false, StillBehind;
          case Closed =>
            lanes := lanes[id := lanes[id].RecordDrop(1 + |queue|)];
            NoLongerParked(start, Now(), id);
            return true, Gone;
        }
      }
      DrainingEnds(start.Of(id), lanes[id]);
      NoLongerParked(start, Now(), id);
      return false, CaughtUp;
    }

    /** Handles the end of the grace send of `message`, which is no longer pending. For a subscription
        that is not parked any more this does nothing (the loss of a message that was not sent is
        history only). Otherwise a time-out is counted and the queue drained; a closed channel
        costs the message and the queue, both counted, and the subscription. */
    method HandleSlowSend(id: SubscriptionId, message: Message<D>, result: SendResult, ghost closing: bool) returns (ghost outcome: DrainOutcome)
      requires RouterFits() && Informed() && id in lanes
      requires OrderlyBut(Now(), Live(closing), topicRouter.nextId, id)
      requires GraceEnded(Now(), id, message, result, Live(closing))
      modifies this`lanes, this`parked, this`slowSends, this`asked, topicRouter.Repr
      ensures RouterFits() && Informed() && topicRouter.Repr == old(topicRouter.Repr) && topicRouter.nextId == old(topicRouter.nextId)
      ensures Orderly(Now(), Live(closing), topicRouter.nextId, {})
      ensures OnlyTouches(old(Now()), Now(), id)
      ensures id !in old(parked) ==>
                && parked == old(parked) && slowSends == old(slowSends)
                && Now().Of(id) == Forgotten(old(Now()).Of(id), result)
                && topicRouter.subscriptions == old(topicRouter.subscriptions)
      ensures id in old(parked) ==>
                && Resumed(old(Now()).Of(id), Now().Of(id), result, outcome)
                && topicRouter.subscriptions == if outcome.Gone? then old(topicRouter.subscriptions) - {id} else old(topicRouter.subscriptions)
      ensures Told(old(asked), asked, old(topicRouter.subscriptions), topicRouter.subscriptions)
    {
      hide TopicRouter.Valid, Orderly, OrderlyBut, OnlyTouches, Drained, Covers, Unparked, InFlight, Subsequence, GraceEnded,
        ReadyToDrain, Hub.Of, Told, Farewell;
      outcome := CaughtUp;
      ghost var start, live := Now(), Live(closing);
      ghost var asked', subs := asked, topicRouter.subscriptions;
      ToldNothing(asked, subs);
      OrderlyButIsClosed(start, live, topicRouter.nextId, id);
      if id !in parked {
        lanes := if result.Sent? then lanes else lanes[id := lanes[id].RecordLoss(1)];
        ForgottenIsOrderly(start, Now(), live, topicRouter.nextId, id, message, result);
        return;
      }
      ParkedIsLive(start, live, id, message, result);
      match result {
        case Sent =>
          outcome := DrainParked(id);
        case TimedOut =>
          lanes := lanes[id := lanes[id].RecordDrop(1)];
          DropCounted(start, Now(), live, topicRouter.nextId, id, message);
          ghost var counted := Now();
          outcome := DrainParked(id);
          OnlyTouchesTrans(start, counted, Now(), id);
        case ChannelClosed =>
          var queue := parked[id];
          parked := parked - {id};
          lanes := lanes[id := lanes[id].RecordDrop(1 + |queue|)];
          outcome := Gone;
          QueueCounted(start, Now(), live, topicRouter.nextId, id, message);
          ghost var nobody: set<SubscriptionId> := {};
          ghost var accepted := HandleUnsubscribe(id, nobody);
          assert nobody - {id} == nobody;
          ToldByOne(asked', asked, subs, topicRouter.subscriptions, id, accepted);
      }
    }

    /** Polls the k-th pending send. It completes as `wanted` if the channel allows that: a message is
        sent when there is room, also when the receiver went away after room was reserved; a closed
        channel is reported only for a dropped receiver; a time-out may strike at any moment. */
    method PollSlowSend(k: nat, wanted: SendResult) returns (ready: bool)
      requires Now().Closed() && k < |slowSends|
      modifies this`lanes, this`slowSends
      ensures slowSends == if ready then Without(old(slowSends), k) else old(slowSends)
      ensures lanes.Keys == old(lanes.Keys)
      ensures forall j :: j in lanes && j != old(slowSends)[k].id ==> ConsumerMoved(old(lanes)[j], lanes[j])
      ensures !ready ==> ConsumersMoved(old(lanes), lanes)
      ensures ready ==> Polled(old(lanes)[old(slowSends)[k].id], lanes[old(slowSends)[k].id], old(slowSends)[k].message, wanted)
      ensures !ready ==> !Possible(lanes[old(slowSends)[k].id], wanted)
    {
      Interfere();
      var SlowSend(id, message) := slowSends[k];
      ready := Possible(lanes[id], wanted);
      if ready {
        slowSends := Without(slowSends, k);
        PolledAfterMove(old(lanes)[id], lanes[id], message, wanted);
        if wanted.Sent? {
          lanes := lanes[id := lanes[id].Buffer(message)];
        }
      }
    }

    /** A pending send completes and is handled, if the channel allows the outcome. The subscription
        goes on as `GraceOver` says if it is live; nothing else is touched. */
    method NextSlowSend(k: nat, wanted: SendResult, ghost closing: bool) returns (ready: bool, ghost outcome: DrainOutcome)
      requires RouterFits() && Informed() && k < |slowSends|
      requires Orderly(Now(), Live(closing), topicRouter.nextId, {})
      modifies this`lanes, this`parked, this`slowSends, this`asked, topicRouter.Repr
      ensures RouterFits() && Informed() && topicRouter.Repr == old(topicRouter.Repr) && topicRouter.nextId == old(topicRouter.nextId)
      ensures Orderly(Now(), Live(closing), topicRouter.nextId, {})
      ensures OnlyTouches(old(Now()), Now(), old(slowSends)[k].id)
      ensures !ready ==> slowSends == old(slowSends) && parked == old(parked) && ConsumersMoved(old(lanes), lanes)
      ensures ready ==> GraceOver(old(Now()).Of(old(slowSends)[k].id), Now().Of(old(slowSends)[k].id), old(slowSends)[k].message,
                                  old(slowSends)[k].id in old(Live(closing)), wanted, outcome)
      ensures topicRouter.subscriptions == if ready && old(slowSends)[k].id in old(Live(closing)) && outcome.Gone?
                                           then old(topicRouter.subscriptions) - {old(slowSends)[k].id} else old(topicRouter.subscriptions)
      ensures !ready ==> !Possible(lanes[old(slowSends)[k].id], wanted)
      ensures closing ==> parked == old(parked)
      ensures closing && ready ==> slowSends == Without(old(slowSends), k)
      ensures Told(old(asked), asked, old(topicRouter.subscriptions), topicRouter.subscriptions)
    {
      hide TopicRouter.Valid, Orderly, OrderlyBut, OnlyTouches, Covers, InFlight, GraceEnded, Hub.Of, GraceOver, Resumed,
        ConsumersMoved, Polled, Told, Possible;
      outcome := CaughtUp;
      ToldNothing(asked, topicRouter.subscriptions);
      ghost var start, live, id, message := Now(), Live(closing), slowSends[k].id, slowSends[k].message;
      OrderlyIsClosed(start, live, topicRouter.nextId);
      var send := slowSends[k];
      ready := PollSlowSend(k, wanted);
      if !ready {
        ConsumersKeepOrderly(start, Now(), live, topicRouter.nextId, id);
        return;
      }
      ghost var polled := Now();
      PollEndsGrace(start, polled, live, topicRouter.nextId, k, wanted);
      outcome := HandleSlowSend(send.id, send.message, wanted, closing);
      OnlyTouchesTrans(start, polled, Now(), id);
      OnlyTouchesKeepsLanes(polled, Now(), id);
      if id in polled.parked {
        ResumedIsOver(start.Of(id), polled.Of(id), Now().Of(id), message, wanted, outcome);
      } else {
        ForgottenIsOver(start.Of(id), polled.Of(id), Now().Of(id), message, wanted, outcome);
      }
    }

    // ----- Subscribing -----

    /** Creates the channel and registers the subscription under a new id. */
    method Register(topic: Pattern, qos: QoS, channelCapacity: nat, maxParked: nat) returns (needsSubscribe: bool, id: SubscriptionId)
      requires RouterFits() && topic.Valid()
      requires Orderly(Now(), topicRouter.payloads, topicRouter.nextId, {})
      modifies this`lanes, topicRouter.Repr
      ensures RouterFits() && fresh(topicRouter.Repr - old(topicRouter.Repr))
      ensures Orderly(Now(), topicRouter.payloads, topicRouter.nextId, {})
      ensures id == old(topicRouter.nextId) && topicRouter.nextId == id + 1
      ensures id !in old(lanes) && id !in old(topicRouter.subscriptions)
      ensures lanes == old(lanes)[id := NewLane(channelCapacity, maxParked)]
      ensures topicRouter.subscriptions == old(topicRouter.subscriptions)[id := Registration(topic, qos)]
      ensures needsSubscribe <==> NeedsSubscribe(old(topicRouter.subscriptions), Registration(topic, qos))
    {
      hide TopicRouter.Valid, Orderly, Pattern.Valid, Registration.Home;
      NewLaneIsOrderly(Now(), topicRouter.payloads, topicRouter.nextId, channelCapacity, maxParked);
      needsSubscribe, id := topicRouter.AddSubscription(topic, qos, SubscriberEntry(maxParked));
      lanes := lanes[id := NewLane(channelCapacity, maxParked)];
    }

    /** Asks the broker if the router says so. Coverage survives unless the request fails, or lowers
        the QoS of a wire pattern that a live subscription relies on. */
    method AskBroker(needed: bool, id: SubscriptionId, topic: Pattern, qos: QoS, ghost subs: Registrations) returns (ok: bool)
      requires id !in subs && topic.Valid() && forall j :: j in subs ==> subs[j].pattern.Valid()
      requires needed <==> NeedsSubscribe(subs, Registration(topic, qos))
      requires synced ==> Covers(Replay(asked), subs)
      modifies this`asked, this`synced
      ensures ok && synced ==> Covers(Replay(asked), subs[id := Registration(topic, qos)])
      ensures old(synced) && !synced ==> !Covers(Replay(asked), subs)
      ensures synced <==> old(synced) && !(needed && ok && Demotes(subs, Registration(topic, qos)))
      ensures !ok ==> needed && Replay(asked) == Replay(old(asked))
      ensures asked == old(asked) + (if needed then [SubscribeTo(topic.MqttPattern(), qos, ok)] else [])
    {
      hide Pattern.Valid, NeedsSubscribe, Demotes, Covers, Pattern.MqttPattern, Replay;
      ghost var reg := Registration(topic, qos);
      if !needed {
        if synced {
          SilentSubscribeIsCovered(Replay(asked), subs, id, reg);
        }
        assert asked + [] == asked;
        return true;
      }
      ghost var before := asked;
      ok := ClientSubscribe(topic.MqttPattern(), qos);
      ReplaySnoc(before, SubscribeTo(topic.MqttPattern(), qos, ok));
      if synced {
        SubscribeCoverage(Replay(before), subs, id, reg);
      }
      if Demotes(subs, reg) {
        DemotionUncovers(Replay(before), subs, reg);
      }
      synced := synced && !(ok && Demotes(subs, reg));
    }

    /** The receiving end of a channel goes away. */
    method CloseLane(id: SubscriptionId)
      requires id in lanes && Orderly(Now(), topicRouter.payloads, topicRouter.nextId, {})
      modifies this`lanes
      ensures lanes == old(lanes)[id := old(lanes)[id].(open := false)]
      ensures Orderly(Now(), topicRouter.payloads, topicRouter.nextId, {})
    {
      hide Orderly;
      ghost var start := Now();
      lanes := lanes[id := lanes[id].(open := false)];
      ConsumersKeepOrderly(start, Now(), topicRouter.payloads, topicRouter.nextId, id);
    }

    /** Subscribes under an id that was never used before. When the broker request fails the
        registration is undone; when the requester is gone the subscription is removed again. Live
        subscriptions that were covered stay covered exactly if no accepted request demotes one. */
    method HandleSubscribe(topic: Pattern, qos: QoS, channelCapacity: nat, maxParked: nat) returns (r: SubscribeResponse, ghost forgotten: bool)
      requires Valid() && topic.Valid() && channelCapacity > 0
      modifies this`lanes, this`parked, this`asked, this`synced, topicRouter.Repr
      ensures Valid() && fresh(topicRouter.Repr - old(topicRouter.Repr))
      ensures SubscribeDone(topic, qos, channelCapacity, maxParked, old(Snap()), Snap(), r, forgotten)
    {
      hide TopicRouter.Valid, Orderly, Pattern.Valid, Covers, NeedsSubscribe, Demotes, Pattern.MqttPattern, Replay, SubscribeDone, Farewell;
      ghost var start := Snap();
      var ok, id := Enroll(topic, qos, channelCapacity, maxParked);
      ghost var enrolled := asked;
      r, forgotten := Answer(ok, id, start.subs);
      SubscribeConcluded(topic, qos, channelCapacity, maxParked, start, Snap(), enrolled, ok, r, forgotten);
    }

    /** Registers the subscription and asks the broker if need be. */
    method Enroll(topic: Pattern, qos: QoS, channelCapacity: nat, maxParked: nat) returns (ok: bool, id: SubscriptionId)
      requires RouterFits() && Informed() && topic.Valid()
      requires Orderly(Now(), topicRouter.payloads, topicRouter.nextId, {})
      modifies this`lanes, this`asked, this`synced, topicRouter.Repr
      ensures RouterFits() && fresh(topicRouter.Repr - old(topicRouter.Repr))
      ensures Orderly(Now(), topicRouter.payloads, topicRouter.nextId, {})
      ensures id == old(topicRouter.nextId) && topicRouter.nextId == id + 1
      ensures id !in old(lanes) && id !in old(topicRouter.subscriptions) && id !in parked && lanes == old(lanes)[id := NewLane(channelCapacity, maxParked)]
      ensures topicRouter.subscriptions == old(topicRouter.subscriptions)[id := Registration(topic, qos)]
      ensures topicRouter.subscriptions - {id} == old(topicRouter.subscriptions)
      ensures if ok then Informed() else synced ==> Covers(Replay(asked), old(topicRouter.subscriptions))
      ensures var subs, reg := old(topicRouter.subscriptions), Registration(topic, qos);
              && (synced <==> old(synced) && !(NeedsSubscribe(subs, reg) && ok && Demotes(subs, reg)))
              && (old(synced) && !synced ==> !Covers(Replay(asked), subs))
              && asked == old(asked) + (if NeedsSubscribe(subs, reg) then [SubscribeTo(topic.MqttPattern(), qos, ok)] else [])
              && (!ok ==> NeedsSubscribe(subs, reg))
    {
      hide TopicRouter.Valid, Orderly, Pattern.Valid, Covers, NeedsSubscribe, Demotes, Pattern.MqttPattern, Unparked, Replay;
      topicRouter.RegisteredFacts();
      ghost var subs := topicRouter.subscriptions;
      OrderlyIsClosed(Now(), topicRouter.payloads, topicRouter.nextId);
      var needed;
      needed, id := Register(topic, qos, channelCapacity, maxParked);
      ok := AskBroker(needed, id, topic, qos, subs);
      assert subs[id := Registration(topic, qos)] - {id} == subs;
    }

    /** Answers the requester, who may be gone by now. */
    method Answer(ok: bool, id: SubscriptionId, ghost subs: Registrations) returns (r: SubscribeResponse, ghost forgotten: bool)
      requires RouterFits() && Orderly(Now(), topicRouter.payloads, topicRouter.nextId, {})
      requires id in topicRouter.subscriptions && id in lanes && id !in parked && topicRouter.subscriptions - {id} == subs
      requires if ok then Informed() else synced ==> Covers(Replay(asked), subs)
      modifies this`lanes, this`parked, this`asked, topicRouter.Repr
      ensures RouterFits() && Informed() && topicRouter.Repr == old(topicRouter.Repr) && topicRouter.nextId == old(topicRouter.nextId)
      ensures Orderly(Now(), topicRouter.payloads, topicRouter.nextId, {})
      ensures lanes == old(lanes)[id := old(lanes)[id].(open := r.Subscribed? && old(lanes)[id].open)] && parked == old(parked)
      ensures topicRouter.subscriptions == if r.Subscribed? then old(topicRouter.subscriptions) else subs
      ensures r.SubscribeFailed? <==> !ok
      ensures r.Subscribed? ==> r.id == id
      ensures asked == old(asked) + (if r.ResponseLost? then Farewell(old(topicRouter.subscriptions), id, forgotten) else [])
    {
      hide TopicRouter.Valid, Orderly, Covers, Pattern.MqttPattern, Replay, Farewell;
      forgotten := false;
      assert asked + [] == asked;
      if !ok {
        UndoRegistration(id, subs);
        return SubscribeFailed, false;
      }
      var responseLost: bool := *;
      if responseLost {
        forgotten := Abandon(id);
        return ResponseLost, forgotten;
      }
      return Subscribed(id), false;
    }

    /** Nobody takes the new subscriber: its channel closes and it is unsubscribed. */
    method Abandon(id: SubscriptionId) returns (ghost accepted: bool)
      requires RouterFits() && Informed() && id in lanes && id !in parked
      requires Orderly(Now(), topicRouter.payloads, topicRouter.nextId, {})
      modifies this`lanes, this`parked, this`asked, topicRouter.Repr
      ensures RouterFits() && Informed() && topicRouter.Repr == old(topicRouter.Repr)
      ensures Orderly(Now(), topicRouter.payloads, topicRouter.nextId, {})
      ensures lanes == old(lanes)[id := old(lanes)[id].(open := false)] && parked == old(parked)
      ensures topicRouter.subscriptions == old(topicRouter.subscriptions) - {id} && topicRouter.nextId == old(topicRouter.nextId)
      ensures asked == old(asked) + Farewell(old(topicRouter.subscriptions), id, accepted)
    {
      hide TopicRouter.Valid, Orderly, Covers, Unparked, Farewell;
      CloseLane(id);
      NotParkedYet(Now(), topicRouter.payloads, topicRouter.nextId, parked, id);
      ghost var nobody: set<SubscriptionId> := {};
      accepted := HandleUnsubscribe(id, nobody);
      assert nobody - {id} == nobody;
    }

    /** Takes a registration back that the broker refused. */
    method UndoRegistration(id: SubscriptionId, ghost subs: Registrations)
      requires RouterFits() && Orderly(Now(), topicRouter.payloads, topicRouter.nextId, {})
      requires id in topicRouter.subscriptions && id in lanes && id !in parked && topicRouter.subscriptions - {id} == subs
      requires synced ==> Covers(Replay(asked), subs)
      modifies this`lanes, topicRouter.Repr
      ensures RouterFits() && Informed() && topicRouter.Repr == old(topicRouter.Repr)
      ensures Orderly(Now(), topicRouter.payloads, topicRouter.nextId, {})
      ensures lanes == old(lanes)[id := old(lanes)[id].(open := false)]
      ensures topicRouter.subscriptions == subs && topicRouter.nextId == old(topicRouter.nextId)
    {
      hide TopicRouter.Valid, Orderly, Covers, Unparked;
      CloseLane(id);
      NotParkedYet(Now(), topicRouter.payloads, topicRouter.nextId, parked, id);
      ghost var nobody: set<SubscriptionId> := {};
      UnparkedIsOrderly(Now(), topicRouter.payloads, topicRouter.nextId, nobody, id);
      assert nobody - {id} == nobody;
      var removed := topicRouter.Unsubscribe(id);
    }

    // ----- Reconnecting -----

    /** The broker reports a reconnect without a session: it has forgotten all subscriptions. */
    ghost method LoseSession()
      modifies this`asked, this`synced
      ensures asked == old(asked) + [SessionGone] && !synced
    {
      asked, synced := asked + [SessionGone], false;
    }

    /** Asks once for every wire pattern in use, at its highest QoS. If no request fails, every live
        subscription is covered again, whatever the broker knew before. */
    method HandleResubscribeAll() returns (complete: bool, ghost topics: map<string, QoS>, ghost answers: map<string, bool>)
      requires RouterFits() && Informed()
      modifies this`asked, this`synced
      ensures Informed()
      ensures synced == (old(synced) || complete)
      ensures IsMaxQosMap(topicRouter.subscriptions, topicRouter.subscriptions.Keys, topics)
      ensures forall w :: w in topics ==> HighestIs(topicRouter.subscriptions, w, topics[w])
      ensures answers.Keys == topics.Keys && AskedForAll(old(asked), asked, SubscribeRequests(topics, answers))
      ensures complete <==> forall w :: w in answers ==> answers[w]
    {
      hide TopicRouter.Valid, Covers, IsMaxQosMap, HighestIs, AskedForAll, SubscribeRequests, Replay, AnsweredSoFar;
      var wanted := topicRouter.GetTopicsForResubscribe();
      topics := wanted;
      var failed: set<string> := {};
      var rest := wanted.Keys;
      answers := map[];
      AskedNothing(asked);
      AnsweredNothing(wanted, Replay(asked));
      while rest != {}
        invariant AnsweredSoFar(wanted, rest, failed, answers, Replay(asked))
        invariant synced == old(synced) && (synced ==> Covers(Replay(asked), topicRouter.subscriptions))
        invariant AskedForAll(old(asked), asked, SubscribeRequests(wanted, answers))
        decreases rest
      {
        var topic :| topic in rest;
        ghost var before := asked;
        WantedOnly(wanted, rest, failed, answers, Replay(asked));
        var ok := ClientSubscribe(topic, wanted[topic]);
        AnswerOneMore(wanted, rest, failed, answers, Replay(before), topic, ok);
        ReplaySnoc(before, SubscribeTo(topic, wanted[topic], ok));
        SubscribeRequestsGrow(wanted, answers, topic, ok);
        AskOneMore(old(asked), before, SubscribeRequests(wanted, answers), SubscribeTo(topic, wanted[topic], ok));
        if synced {
          ResubscribeKeepsCoverage(Replay(before), topicRouter.subscriptions, wanted, topic);
        }
        if !ok {
          failed := failed + {topic};
        }
        rest, answers := rest - {topic}, answers[topic := ok];
      }
      AllAnswered(wanted, failed, answers, Replay(asked));
      complete := failed == {};
      if complete {
        ResubscribeRestoresCoverage(Replay(asked), topicRouter.subscriptions, wanted);
        synced := true;
      }
    }

    // ----- Shutting down -----

    /** Asks the broker once to forget each wire pattern in use; failures are ignored. */
    method UnsubscribeAll() returns (ghost answers: map<string, bool>)
      modifies this`asked, this`synced
      ensures !synced && answers.Keys == topicRouter.GetTopicsForUnsubscribe()
      ensures AskedForAll(old(asked), asked, UnsubscribeRequests(answers))
    {
      hide AskedForAll, UnsubscribeRequests;
      synced, answers := false, map[];
      var topics := topicRouter.GetTopicsForUnsubscribe();
      var rest := topics;
      AskedNothing(asked);
      while rest != {}
        invariant !synced && rest <= topics && answers.Keys == topics - rest
        invariant AskedForAll(old(asked), asked, UnsubscribeRequests(answers))
        decreases rest
      {
        var topic :| topic in rest;
        ghost var before := asked;
        var ok := ClientUnsubscribe(topic);
        UnsubscribeRequestsGrow(answers, topic, ok);
        AskOneMore(old(asked), before, UnsubscribeRequests(answers), UnsubscribeFrom(topic, ok));
        rest, answers := rest - {topic}, answers[topic := ok];
      }
    }

    /** Drops everything parked, so that no completed send starts another one. */
    method DropParked(ghost entries: Entries, ghost nextId: nat)
      requires Orderly(Now(), entries, nextId, {})
      modifies this`lanes, this`parked
      ensures parked == map[] && lanes.Keys == old(lanes.Keys)
      ensures Orderly(Now(), map[], nextId, {})
      ensures Outlived(old(Now()), Now())
    {
      hide Orderly, Outlived;
      ghost var start := Now();
      lanes := map id | id in lanes :: if id in parked then lanes[id].RecordLoss(|parked[id]|) else lanes[id];
      parked := map[];
      DroppedIsOrderly(start, Now(), entries, nextId);
    }

    /** Lets pending sends complete until none is left or the time for that is up. None of them starts
        another send, so their number only goes down. */
    method DrainPending() returns (timeUp: bool)
      requires RouterFits() && !synced && parked == map[]
      requires Orderly(Now(), map[], topicRouter.nextId, {})
      modifies this`lanes, this`parked, this`slowSends, this`asked, topicRouter.Repr
      ensures RouterFits() && topicRouter.Repr == old(topicRouter.Repr) && topicRouter.nextId == old(topicRouter.nextId)
      ensures parked == map[] && Orderly(Now(), map[], topicRouter.nextId, {})
      ensures Outlived(old(Now()), Now())
      ensures slowSends == [] || timeUp
      ensures topicRouter.subscriptions == old(topicRouter.subscriptions) && asked == old(asked)
    {
      hide TopicRouter.Valid, Orderly, Covers, OnlyTouches, GraceOver, Outlived, ConsumersMoved;
      ghost var start := Now();
      OrderlyIsClosed(start, map[], topicRouter.nextId);
      OutlivedRefl(start);
      timeUp := *;
      while slowSends != [] && !timeUp
        invariant RouterFits() && topicRouter.Repr == old(topicRouter.Repr) && topicRouter.nextId == old(topicRouter.nextId)
        invariant parked == map[] && Orderly(Now(), map[], topicRouter.nextId, {})
        invariant topicRouter.subscriptions == old(topicRouter.subscriptions) && asked == old(asked)
        invariant Outlived(start, Now())
        decreases |slowSends|
      {
        var k :| 0 <= k < |slowSends|;
        var wanted: SendResult := *;
        ghost var before := Now();
        OrderlyIsClosed(before, map[], topicRouter.nextId);
        var ready, outcome := NextSlowSend(k, wanted, true);
        OutlivedStep(start, before, Now(), k, wanted, ready, outcome);
        if !ready {
          ghost var polled := Now();
          OrderlyIsClosed(polled, map[], topicRouter.nextId);
          ready, outcome := NextSlowSend(k, TimedOut, true);
          OutlivedStep(start, polled, Now(), k, TimedOut, ready, outcome);
        }
        timeUp := *;
      }
    }

    /** The actor is dropped, and with it the sends that are still pending. */
    method DropPending(ghost nextId: nat)
      requires parked == map[] && Orderly(Now(), map[], nextId, {})
      modifies this`lanes, this`slowSends
      ensures slowSends == [] && Outlived(old(Now()), Now())
      ensures Orderly(Now(), map[], nextId, {})
    {
      hide Orderly, Outlived;
      ghost var start := Now();
      lanes := map id | id in lanes :: lanes[id].RecordLoss(|InFlight(slowSends, id)|);
      slowSends := [];
      PendingDropped(start, Now(), nextId);
    }

    /** Ends the actor. Afterwards nothing holds a sender of any channel any more: not the router, not
        a parked queue, not a pending send. What was delivered is in order, every message that was
        dispatched is received, buffered, counted or lost, and the counters did not change. */
    method CleanupActiveSubscriptions() returns (ghost answers: map<string, bool>)
      requires Valid()
      modifies this`lanes, this`parked, this`slowSends, this`asked, this`synced, topicRouter.Repr
      ensures topicRouter.Valid() && fresh(topicRouter.Repr - old(topicRouter.Repr))
      ensures forall id :: !HasSender(id)
      ensures Outlived(old(Now()), Now())
      ensures forall id :: id in lanes ==> Now().Of(id) == Account(lanes[id], [], None) && Now().Of(id).Sound()
      ensures answers.Keys == old(topicRouter.GetTopicsForUnsubscribe()) && AskedForAll(old(asked), asked, UnsubscribeRequests(answers))
    {
      hide TopicRouter.Valid, Orderly, Covers, Outlived, Account.Sound, AskedForAll, UnsubscribeRequests;
      ghost var start, nextId := Now(), topicRouter.nextId;
      topicRouter.RegisteredFacts();
      answers := UnsubscribeAll();
      DropParked(topicRouter.payloads, topicRouter.nextId);
      ghost var dropped := Now();
      var timeUp := DrainPending();
      ghost var drained := Now();
      OutlivedTrans(start, dropped, drained);
      topicRouter.Cleanup();
      DropPending(nextId);
      OutlivedTrans(start, drained, Now());
      AllSound(Now(), nextId);
    }

    /** Something in the actor can still send to the channel of `id`. */
    ghost predicate HasSender(id: SubscriptionId)
      reads this`parked, this`slowSends, topicRouter
    {
      id in topicRouter.payloads || id in parked || InFlight(slowSends, id) != []
    }

    // ----- The actor loop -----

    lemma ValidIsSane()
      requires Valid()
      ensures Sane(Snap())
    {
      hide TopicRouter.Valid, Orderly, Covers, Replay;
      topicRouter.RegisteredFacts();
    }

    method OnSlowSend(k: nat, result: SendResult) returns (ghost ready: bool, ghost drain: DrainOutcome)
      requires Valid()
      modifies this`lanes, this`parked, this`slowSends, this`asked, topicRouter.Repr
      ensures Valid() && topicRouter.Repr == old(topicRouter.Repr)
      ensures CompletionDone(k, result, old(Snap()), Snap(), ready, drain)
    {
      hide TopicRouter.Valid, Orderly, Covers, OnlyTouches, GraceOver, ConsumersMoved, Told, Possible, Replay, CompletionDone;
      ready, drain := false, CaughtUp;
      ghost var start := Snap();
      topicRouter.RegisteredFacts();
      OrderlyIsClosed(Now(), topicRouter.payloads, topicRouter.nextId);
      if k < |slowSends| {
        var completed;
        completed, drain := NextSlowSend(k, result, false);
        ready := completed;
        OnlyTouchesKeepsLanes(start.hub, Now(), start.hub.sends[k].id);
        CompletionConcluded(k, result, start, Snap(), ready, drain);
      } else {
        NothingCompleted(k, result, start);
      }
    }

    method OnPublish(topic: string, data: D) returns (ghost verdicts: map<SubscriptionId, Verdict>)
      requires Valid()
      modifies this, topicRouter.Repr
      ensures Valid() && topicRouter.Repr == old(topicRouter.Repr)
      ensures PublishDone(topic, data, old(Snap()), Snap(), verdicts)
    {
      hide TopicRouter.Valid, Orderly, Covers, Dispatched, GotMessage, Registration.Accepts, Told, Replay, RejectedIn;
      verdicts := HandleSend(topic, data);
    }

    method OnUnsubscribe(id: SubscriptionId) returns (ghost forgotten: bool)
      requires Valid()
      modifies this`lanes, this`parked, this`asked, topicRouter.Repr
      ensures Valid() && topicRouter.Repr == old(topicRouter.Repr)
      ensures UnsubscribeDone(id, old(Snap()), Snap(), forgotten)
    {
      hide TopicRouter.Valid, Orderly, Covers, Unparked, Farewell, Replay;
      ghost var nobody: set<SubscriptionId> := {};
      OrderlyIsClosed(Now(), topicRouter.payloads, topicRouter.nextId);
      forgotten := HandleUnsubscribe(id, nobody);
      assert nobody - {id} == nobody;
    }

    /** A turn of the consumers alone. */
    method ConsumersTurn(steps: seq<ConsumerStep>)
      requires Valid()
      modifies this`lanes
      ensures Valid() && lanes == AfterSteps(old(lanes), steps)
    {
      hide TopicRouter.Valid, Orderly, Covers, Replay, AfterSteps, ConsumersMoved;
      ghost var start := Now();
      StepsAreMoves(lanes, steps);
      lanes := AfterSteps(lanes, steps);
      ConsumersKeepOrderly(start, Now(), topicRouter.payloads, topicRouter.nextId, 0);
    }

    /** One turn of the actor or of the consumers, or a session lost by the broker: the event is done, as `TurnDone` says
        for each kind, and the invariant is kept. */
    method Turn(event: Event<D>) returns (stop: bool, ghost outcome: Outcome)
      requires Valid() && event.Wellformed()
      modifies this, topicRouter.Repr
      ensures Valid() && fresh(topicRouter.Repr - old(topicRouter.Repr))
      ensures TurnDone(event, old(Snap()), Snap(), outcome)
      ensures stop <==> event.ShutdownRequest?
    {
      hide TopicRouter.Valid, Orderly, Covers, Pattern.Valid, CompletionDone, PublishDone, SubscribeDone, UnsubscribeDone,
        IsMaxQosMap, HighestIs, AskedForAll, SubscribeRequests, Replay;
      stop, outcome := false, Nothing;
      match event {
        case ConsumersAct(steps) => ConsumersTurn(steps);
        case SlowSendReady(k, result) =>
          ghost var ready, drain;
          ready, drain := OnSlowSend(k, result);
          outcome := Completed(ready, drain);
        case Publish(topic, data) =>
          ghost var verdicts := OnPublish(topic, data);
          outcome := Published(verdicts);
        case SubscribeRequest(topic, qos, channelCapacity, maxParked) =>
          ghost var forgotten;
          var r;
          r, forgotten := HandleSubscribe(topic, qos, channelCapacity, maxParked);
          outcome := Answered(r, forgotten);
        case UnsubscribeRequest(id) =>
          ghost var forgotten := OnUnsubscribe(id);
          outcome := Removed(forgotten);
        case ResubscribeRequest =>
          ghost var topics, answers;
          var complete;
          complete, topics, answers := HandleResubscribeAll();
          outcome := Resubscribed(complete, topics, answers);
        case SessionLost => LoseSession();
        case ShutdownRequest => stop := true;
      }
    }

    /** Turns, until one is told to stop: a run in the sense of `IsRun`, with all its states and
        outcomes. The events are arbitrary and include what consumers do between turns, so every
        state that a running actor reaches between turns is the last of such a run. */
    method Serve(events: seq<Event<D>>) returns (handled: nat, ghost trace: seq<Snapshot<D>>, ghost outcomes: seq<Outcome>)
      requires Valid() && forall i :: 0 <= i < |events| ==> events[i].Wellformed()
      modifies this, topicRouter.Repr
      ensures Valid() && fresh(topicRouter.Repr - old(topicRouter.Repr))
      ensures handled <= |events| && (handled == |events| || (0 < handled && events[handled - 1].ShutdownRequest?))
      ensures IsRun(events, trace, outcomes) && |outcomes| == handled
      ensures trace[0] == old(Snap()) && trace[handled] == Snap()
      ensures Grew(old(Now()), Now())
      ensures forall id :: id in lanes ==> lanes[id].dispatched == DispatchedTo(trace[0], id) + PublishedTo(events, trace, handled, id)
      ensures Restored(events, trace, outcomes, handled) ==> Covers(Replay(asked), topicRouter.subscriptions)
      ensures (forall i :: 0 <= i < |events| ==> events[i].Plain()) && AllPlain(trace[0].subs) ==>
                (Restored(events, trace, outcomes, handled) <==> Reconnected(events, outcomes, handled, old(synced)))
    {
      hide TopicRouter.Valid, Orderly, Sane, TurnDone, Grew, CacheFits, Covers, Replay, AllPlain, Restored, Reconnected, PublishedTo,
        DispatchedTo, LeadsTo, IsRun;
      ghost var start := Snap();
      handled, trace, outcomes := HandleAll(events);
      Conclude(events, trace, outcomes, start);
    }

    /** The loop of the actor. */
    method HandleAll(events: seq<Event<D>>) returns (handled: nat, ghost trace: seq<Snapshot<D>>, ghost outcomes: seq<Outcome>)
      requires Valid() && forall i :: 0 <= i < |events| ==> events[i].Wellformed()
      modifies this, topicRouter.Repr
      ensures Valid() && fresh(topicRouter.Repr - old(topicRouter.Repr))
      ensures handled <= |events| && (handled == |events| || (0 < handled && events[handled - 1].ShutdownRequest?))
      ensures |outcomes| == handled && LeadsTo(events, trace, outcomes, old(Snap()), Snap())
    {
      hide TopicRouter.Valid, Orderly, Sane, TurnDone, CacheFits, Covers, Replay, LeadsTo, IsRun;
      ghost var start := Snap();
      trace, outcomes := [start], [];
      ValidIsSane();
      RunStarts(events, start);
      var stop := false;
      handled := 0;
      while handled < |events| && !stop
        invariant handled <= |events| && (stop ==> 0 < handled && events[handled - 1].ShutdownRequest?)
        invariant Valid() && fresh(topicRouter.Repr - old(topicRouter.Repr))
        invariant |outcomes| == handled && LeadsTo(events, trace, outcomes, start, Snap())
        decreases |events| - handled
      {
        ghost var before, outcome := Snap(), Nothing;
        stop, outcome := Turn(events[handled]);
        ValidIsSane();
        RunGoesOn(events, trace, outcomes, start, before, Snap(), outcome);
        trace, outcomes := trace + [Snap()], outcomes + [outcome];
        handled := handled + 1;
      }
    }

    /** What a run says of the state in which it ends. */
    lemma Conclude(events: seq<Event<D>>, trace: seq<Snapshot<D>>, outcomes: seq<Outcome>, start: Snapshot<D>)
      requires LeadsTo(events, trace, outcomes, start, Snap()) && forall i :: 0 <= i < |events| ==> events[i].Wellformed()
      ensures IsRun(events, trace, outcomes) && |trace| == |outcomes| + 1 && |outcomes| <= |events|
      ensures trace[0] == start && trace[|outcomes|] == Snap()
      ensures Grew(trace[0].hub, Now())
      ensures forall id :: id in lanes ==> lanes[id].dispatched == DispatchedTo(trace[0], id) + PublishedTo(events, trace, |outcomes|, id)
      ensures Restored(events, trace, outcomes, |outcomes|) ==> Covers(Replay(asked), topicRouter.subscriptions)
      ensures (forall i :: 0 <= i < |events| ==> events[i].Plain()) && AllPlain(trace[0].subs) ==>
                (Restored(events, trace, outcomes, |outcomes|) <==> Reconnected(events, outcomes, |outcomes|, trace[0].synced))
    {
      hide Sane, TurnDone, Grew, Covers, Replay, AllPlain;
      RunGrows(events, trace, outcomes, 0, |outcomes|);
      RunCovers(events, trace, outcomes, |outcomes|);
      forall id | id in lanes ensures lanes[id].dispatched == DispatchedTo(trace[0], id) + PublishedTo(events, trace, |outcomes|, id) {
        RunDispatchesPublished(events, trace, outcomes, |outcomes|, id);
      }
      if (forall i :: 0 <= i < |events| ==> events[i].Plain()) && AllPlain(trace[0].subs) {
        PlainRunCovers(events, trace, outcomes, |outcomes|);
      }
    }

    /** The life of the actor from any state it may be in: a run until it is told to stop or nothing
        more can arrive, then the shutdown. What a consumer has received or still finds in its
        channel was published to it, in that order; no sender is left. */
    method Run(events: seq<Event<D>>) returns (handled: nat, ghost trace: seq<Snapshot<D>>, ghost outcomes: seq<Outcome>, ghost answers: map<string, bool>)
      requires Valid() && forall i :: 0 <= i < |events| ==> events[i].Wellformed()
      modifies this, topicRouter.Repr
      ensures handled <= |events| && (handled == |events| || (0 < handled && events[handled - 1].ShutdownRequest?))
      ensures IsRun(events, trace, outcomes) && |outcomes| == handled && trace[0] == old(Snap())
      ensures forall id :: !HasSender(id)
      ensures EndsInOrder(events, trace, handled, lanes)
      ensures AskedForAll(trace[handled].asked, asked, UnsubscribeRequests(answers))
      ensures answers.Keys == set id | id in trace[handled].subs :: trace[handled].subs[id].pattern.MqttPattern()
    {
      hide TopicRouter.Valid, Orderly, Covers, Subsequence, IsRun, Replay, Restored, Reconnected, AllPlain, AskedForAll, UnsubscribeRequests,
        Pattern.MqttPattern, PublishedTo, EndsInOrder, Account.Sound, Outlived;
      handled, trace, outcomes := Serve(events);
      RunShape(events, trace, outcomes);
      answers := CleanupActiveSubscriptions();
      ShutdownEndsInOrder(events, trace, outcomes, Now());
    }
  }
}

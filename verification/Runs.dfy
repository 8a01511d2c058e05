/** Runs of the actor as values: what each event does to the whole state, and what follows over any
    number of events.

    A run is a list of events with the states before and after each of them. The loop of the actor
    is proved to produce such runs; the theorems here are about all of them. */
module Runs {
  import opened Wrappers
  import opened TopicMatch
  import opened TopicPatternPath
  import opened PatternLaws
  import opened TopicMatcher
  import opened Router = TopicRouter
  import opened BrokerCoverage
  import opened Delivery
  import opened Turns
  import opened Dispatch

  // ----- Events and states -----

  datatype SubscribeResponse = Subscribed(id: SubscriptionId) | SubscribeFailed | ResponseLost

  /** What can happen next: consumers act, a pending send completes, a command or an unsubscribe request
      arrives, the broker loses its session, or the actor is told to stop. */
  datatype Event<D> =
    | ConsumersAct(steps: seq<ConsumerStep>)
    | SlowSendReady(index: nat, result: SendResult)
    | Publish(topicName: string, data: D)
    | SubscribeRequest(pattern: Pattern, qos: QoS, channelCapacity: nat, maxParked: nat)
    | UnsubscribeRequest(id: SubscriptionId)
    | ResubscribeRequest
    | SessionLost
    | ShutdownRequest
  {
    ghost predicate Wellformed() { SubscribeRequest? ==> pattern.Valid() && channelCapacity > 0 }

    ghost predicate Plain() { SubscribeRequest? ==> PlainBindings(pattern) }
  }

  /** How an event came out, as far as the state before it does not say. */
  datatype Outcome =
    | Completed(ready: bool, drain: DrainOutcome)
    | Published(verdicts: map<SubscriptionId, Verdict>)
    | Answered(response: SubscribeResponse, forgotten: bool)
    | Removed(forgotten: bool)
    | Resubscribed(complete: bool, topics: map<string, QoS>, answers: map<string, bool>)
    | Nothing

  datatype Snapshot<D> = Snapshot(
    hub: Hub<Message<D>>,
    subs: Registrations,
    entries: Entries,
    nextId: nat,
    asked: seq<Exchange>,
    synced: bool)

  /** The invariant of the actor, as far as it concerns the state as a value. */
  ghost predicate Sane<D>(s: Snapshot<D>) {
    && Orderly(s.hub, s.entries, s.nextId, {})
    && s.entries.Keys == s.subs.Keys
    && (forall id :: id in s.subs ==> s.subs[id].pattern.Valid())
    && (s.synced ==> Covers(Replay(s.asked), s.subs))
  }

  // ----- One event -----

  ghost predicate CompletionDone<D>(k: nat, result: SendResult, before: Snapshot<D>, after: Snapshot<D>, ready: bool, drain: DrainOutcome) {
    if k < |before.hub.sends| then
      && CompletesSend(before.hub, after.hub, k, result, before.subs.Keys, ready, drain)
      && after.subs == (if ready && before.hub.sends[k].id in before.subs && drain.Gone?
                        then before.subs - {before.hub.sends[k].id} else before.subs)
      && Told(before.asked, after.asked, before.subs, after.subs)
      && after.nextId == before.nextId && after.synced == before.synced
    else after == before
  }

  ghost predicate PublishDone<D>(topic: string, data: D, before: Snapshot<D>, after: Snapshot<D>, verdicts: map<SubscriptionId, Verdict>) {
    && (forall id :: id in verdicts <==> id in before.subs && before.subs[id].Accepts(NewTopicPath(topic)))
    && Dispatched(before.hub, after.hub, before.subs, NewTopicPath(topic), data, verdicts)
    && after.subs == before.subs - RejectedIn(verdicts)
    && Told(before.asked, after.asked, before.subs, after.subs)
    && after.nextId == before.nextId && after.synced == before.synced
  }

  /** A channel with room for `channelCapacity` messages and a parking limit of `maxParked`, in which
      nothing has happened yet; its receiver exists if the requester was answered. */
  ghost predicate AsRequested<M>(lane: Lane<M>, channelCapacity: nat, maxParked: nat, answered: bool) {
    && lane.capacity == channelCapacity && lane.maxParked == maxParked && lane.open == answered
    && lane.buffer == [] && lane.received == [] && lane.dispatched == [] && lane.drops == 0 && lane.lost == 0
  }

  /** A new channel under a new id. The broker is asked exactly when the router says so; a refusal
      undoes the registration, a lost answer removes it again. What was covered stays covered
      exactly if no accepted request demotes a live subscription. */
  ghost predicate SubscribeDone<D>(topic: Pattern, qos: QoS, channelCapacity: nat, maxParked: nat,
                                   before: Snapshot<D>, after: Snapshot<D>, r: SubscribeResponse, forgotten: bool) {
    var id, reg := before.nextId, Registration(topic, qos);
    var needed := NeedsSubscribe(before.subs, reg);
    && id !in before.hub.lanes && id !in before.subs && after.nextId == id + 1
    && id in after.hub.lanes && after.hub == before.hub.(lanes := before.hub.lanes[id := after.hub.lanes[id]])
    && AsRequested(after.hub.lanes[id], channelCapacity, maxParked, r.Subscribed?)
    && after.subs == (if r.Subscribed? then before.subs[id := reg] else before.subs)
    && (r.Subscribed? ==> r.id == id)
    && (r.SubscribeFailed? ==> needed)
    && after.asked == before.asked + (if needed then [SubscribeTo(topic.MqttPattern(), qos, !r.SubscribeFailed?)] else [])
                                   + (if r.ResponseLost? then Farewell(before.subs[id := reg], id, forgotten) else [])
    && (after.synced <==> before.synced && !Lapses(before, reg, r))
    && (before.synced ==> (after.synced <==> Covers(Replay(after.asked), after.subs)))
  }

  /** The accepted request that goes with this answer demotes a live subscription. */
  ghost predicate Lapses<D>(s: Snapshot<D>, reg: Registration, r: SubscribeResponse) {
    NeedsSubscribe(s.subs, reg) && !r.SubscribeFailed? && Demotes(s.subs, reg)
  }

  ghost predicate UnsubscribeDone<D>(id: SubscriptionId, before: Snapshot<D>, after: Snapshot<D>, forgotten: bool) {
    && before.hub.Closed() && after.hub == Unparked(before.hub, id)
    && after.subs == before.subs - {id}
    && after.asked == before.asked + Farewell(before.subs, id, forgotten)
    && after.nextId == before.nextId && after.synced == before.synced
  }

  ghost predicate ResubscribeDone<D>(before: Snapshot<D>, after: Snapshot<D>, complete: bool, topics: map<string, QoS>, answers: map<string, bool>) {
    && after == before.(asked := after.asked, synced := before.synced || complete)
    && IsMaxQosMap(before.subs, before.subs.Keys, topics)
    && answers.Keys == topics.Keys && AskedForAll(before.asked, after.asked, SubscribeRequests(topics, answers))
    && (complete <==> forall w :: w in answers ==> answers[w])
  }

  ghost predicate TurnDone<D>(event: Event<D>, before: Snapshot<D>, after: Snapshot<D>, outcome: Outcome) {
    match event
    case ConsumersAct(steps) => outcome.Nothing? && after == before.(hub := before.hub.(lanes := AfterSteps(before.hub.lanes, steps)))
    case SlowSendReady(k, result) => outcome.Completed? && CompletionDone(k, result, before, after, outcome.ready, outcome.drain)
    case Publish(topic, data) => outcome.Published? && PublishDone(topic, data, before, after, outcome.verdicts)
    case SubscribeRequest(topic, qos, channelCapacity, maxParked) =>
      outcome.Answered? && SubscribeDone(topic, qos, channelCapacity, maxParked, before, after, outcome.response, outcome.forgotten)
    case UnsubscribeRequest(id) => outcome.Removed? && UnsubscribeDone(id, before, after, outcome.forgotten)
    case ResubscribeRequest => outcome.Resubscribed? && ResubscribeDone(before, after, outcome.complete, outcome.topics, outcome.answers)
    case SessionLost => outcome.Nothing? && after == before.(asked := before.asked + [SessionGone], synced := false)
    case ShutdownRequest => outcome.Nothing? && after == before
  }

  // ----- Runs -----

  /** The first events of `events`, one for each outcome, led from each state to the next. */
  ghost predicate IsRun<D>(events: seq<Event<D>>, trace: seq<Snapshot<D>>, outcomes: seq<Outcome>) {
    && |trace| == |outcomes| + 1 && |outcomes| <= |events|
    && (forall i :: 0 <= i < |trace| ==> Sane(trace[i]))
    && (forall i :: 0 <= i < |outcomes| ==> TurnDone(events[i], trace[i], trace[i + 1], outcomes[i]))
  }

  /** A run from one state to another. */
  ghost predicate LeadsTo<D>(events: seq<Event<D>>, trace: seq<Snapshot<D>>, outcomes: seq<Outcome>, from: Snapshot<D>, to: Snapshot<D>) {
    IsRun(events, trace, outcomes) && trace[0] == from && trace[|outcomes|] == to
  }

  lemma RunStarts<D>(events: seq<Event<D>>, s: Snapshot<D>)
    requires Sane(s)
    ensures LeadsTo(events, [s], [], s, s)
  {
  }

  lemma RunGoesOn<D>(events: seq<Event<D>>, trace: seq<Snapshot<D>>, outcomes: seq<Outcome>,
                     from: Snapshot<D>, to: Snapshot<D>, after: Snapshot<D>, outcome: Outcome)
    requires LeadsTo(events, trace, outcomes, from, to) && |outcomes| < |events|
    requires Sane(after) && TurnDone(events[|outcomes|], to, after, outcome)
    ensures LeadsTo(events, trace + [after], outcomes + [outcome], from, after)
  {
    hide Sane, TurnDone;
    var trace', outcomes' := trace + [after], outcomes + [outcome];
    forall i | 0 <= i < |outcomes'| ensures TurnDone(events[i], trace'[i], trace'[i + 1], outcomes'[i]) {
      assert trace'[i] == trace[i];
      if i < |outcomes| {
        assert trace'[i + 1] == trace[i + 1] && outcomes'[i] == outcomes[i];
      }
    }
  }

  lemma RunShape<D>(events: seq<Event<D>>, trace: seq<Snapshot<D>>, outcomes: seq<Outcome>)
    requires IsRun(events, trace, outcomes)
    ensures |trace| == |outcomes| + 1 && |outcomes| <= |events|
  {
  }

  lemma TurnOfRun<D>(events: seq<Event<D>>, trace: seq<Snapshot<D>>, outcomes: seq<Outcome>, i: nat)
    requires IsRun(events, trace, outcomes) && i < |outcomes|
    ensures Sane(trace[i]) && Sane(trace[i + 1]) && TurnDone(events[i], trace[i], trace[i + 1], outcomes[i])
  {
  }

  // ----- What is published is what is dispatched -----

  /** What one event adds to the messages dispatched to `id`: the message made for it, if the event
      publishes to a topic that its live registration accepts. */
  function Share<D>(event: Event<D>, subs: Registrations, id: SubscriptionId): seq<Message<D>> {
    if event.Publish? && id in subs && subs[id].Accepts(NewTopicPath(event.topicName))
    then [MessageFor(subs[id].pattern, NewTopicPath(event.topicName), event.data)]
    else []
  }

  /** The messages for `id` published in the first `n` events, in order. */
  function PublishedTo<D>(events: seq<Event<D>>, trace: seq<Snapshot<D>>, n: nat, id: SubscriptionId): seq<Message<D>>
    requires n <= |events| && n <= |trace|
  {
    if n == 0 then [] else PublishedTo(events, trace, n - 1, id) + Share(events[n - 1], trace[n - 1].subs, id)
  }

  function DispatchedTo<D>(s: Snapshot<D>, id: SubscriptionId): seq<Message<D>> {
    if id in s.hub.lanes then s.hub.lanes[id].dispatched else []
  }

  lemma NothingDispatched<D>(s: Snapshot<D>, id: SubscriptionId)
    ensures id !in s.hub.lanes ==> DispatchedTo(s, id) == []
  {
  }

  lemma CompletionKeepsDispatched<D>(k: nat, result: SendResult, before: Snapshot<D>, after: Snapshot<D>, ready: bool, drain: DrainOutcome)
    requires CompletionDone(k, result, before, after, ready, drain)
    ensures after.hub.lanes.Keys == before.hub.lanes.Keys
    ensures forall id :: id in before.hub.lanes ==> after.hub.lanes[id].dispatched == before.hub.lanes[id].dispatched
  {
    hide InFlight, Told;
    if k < |before.hub.sends| {
      var x := before.hub.sends[k].id;
      forall id | id in before.hub.lanes ensures after.hub.lanes[id].dispatched == before.hub.lanes[id].dispatched {
        if id != x || !ready {
          assert id != x ==> AccountMoved(before.hub.Of(id), after.hub.Of(id));
        }
      }
    }
  }

  lemma PublishAddsShare<D>(topic: string, data: D, before: Snapshot<D>, after: Snapshot<D>, verdicts: map<SubscriptionId, Verdict>)
    requires PublishDone(topic, data, before, after, verdicts)
    ensures after.hub.lanes.Keys == before.hub.lanes.Keys
    ensures forall id :: id in before.hub.lanes ==>
              after.hub.lanes[id].dispatched == before.hub.lanes[id].dispatched + Share(Publish(topic, data), before.subs, id)
  {
    hide InFlight, Told, MessageFor, Registration.Accepts;
    forall id | id in before.hub.lanes
      ensures after.hub.lanes[id].dispatched == before.hub.lanes[id].dispatched + Share(Publish(topic, data), before.subs, id)
    {
      if id in verdicts {
        assert Delivered(before.hub.Of(id), after.hub.Of(id), MessageFor(before.subs[id].pattern, NewTopicPath(topic), data), verdicts[id]);
      } else {
        assert AccountMoved(before.hub.Of(id), after.hub.Of(id));
        assert before.hub.lanes[id].dispatched + [] == before.hub.lanes[id].dispatched;
      }
    }
  }

  /** Every event dispatches to every subscription exactly its share; a new one starts with nothing. */
  lemma TurnAddsShare<D>(event: Event<D>, before: Snapshot<D>, after: Snapshot<D>, outcome: Outcome, id: SubscriptionId)
    requires TurnDone(event, before, after, outcome)
    ensures before.hub.lanes.Keys <= after.hub.lanes.Keys
    ensures id in before.hub.lanes ==> DispatchedTo(after, id) == DispatchedTo(before, id) + Share(event, before.subs, id)
    ensures id in after.hub.lanes && id !in before.hub.lanes ==> DispatchedTo(after, id) == []
  {
    hide CompletionDone, PublishDone, Registration.Accepts, MessageFor, IsMaxQosMap, AskedForAll, NeedsSubscribe, Demotes, Covers, Replay;
    assert DispatchedTo(before, id) + [] == DispatchedTo(before, id);
    match event {
      case ConsumersAct(steps) => StepsAreMoves(before.hub.lanes, steps);
      case SlowSendReady(k, result) => CompletionKeepsDispatched(k, result, before, after, outcome.ready, outcome.drain);
      case Publish(topic, data) => PublishAddsShare(topic, data, before, after, outcome.verdicts);
      case _ =>
    }
  }

  lemma NoShareWithoutLane<D>(event: Event<D>, s: Snapshot<D>, id: SubscriptionId)
    requires Sane(s) && id !in s.hub.lanes
    ensures Share(event, s.subs, id) == []
  {
    hide Settled;
  }

  /** After any run, the messages dispatched to a subscription are those dispatched before it followed
      by those published to it during the run, in order, no more and no less. */
  lemma {:induction false} RunDispatchesPublished<D>(events: seq<Event<D>>, trace: seq<Snapshot<D>>, outcomes: seq<Outcome>, n: nat, id: SubscriptionId)
    requires IsRun(events, trace, outcomes) && n < |trace|
    ensures id in trace[n].hub.lanes ==> DispatchedTo(trace[n], id) == DispatchedTo(trace[0], id) + PublishedTo(events, trace, n, id)
    ensures id !in trace[n].hub.lanes ==> id !in trace[0].hub.lanes && PublishedTo(events, trace, n, id) == []
  {
    hide Sane, TurnDone, Share, IsRun, DispatchedTo;
    RunShape(events, trace, outcomes);
    var start := DispatchedTo(trace[0], id);
    assert start + [] == start;
    if n == 0 {
      NothingDispatched(trace[0], id);
    } else {
      RunDispatchesPublished(events, trace, outcomes, n - 1, id);
      TurnOfRun(events, trace, outcomes, n - 1);
      TurnAddsShare(events[n - 1], trace[n - 1], trace[n], outcomes[n - 1], id);
      NothingDispatched(trace[0], id);
      var earlier, share := PublishedTo(events, trace, n - 1, id), Share(events[n - 1], trace[n - 1].subs, id);
      assert (start + earlier) + share == start + (earlier + share);
      if id !in trace[n - 1].hub.lanes {
        NoShareWithoutLane(events[n - 1], trace[n - 1], id);
      }
    }
  }

  /** End to end: what a consumer has received, what waits in its channel, what is in flight and what is
      parked was published to it, in that order. */
  lemma ConsumersSeeWhatIsPublished<D>(events: seq<Event<D>>, trace: seq<Snapshot<D>>, outcomes: seq<Outcome>, n: nat, id: SubscriptionId)
    requires IsRun(events, trace, outcomes) && n < |trace| && id in trace[n].hub.lanes
    ensures Subsequence(trace[n].hub.Of(id).Kept(), DispatchedTo(trace[0], id) + PublishedTo(events, trace, n, id))
  {
    hide Subsequence, InFlight, Settled, TurnDone, Account.Kept;
    RunDispatchesPublished(events, trace, outcomes, n, id);
    EverySubscription(trace[n].hub, trace[n].entries, trace[n].nextId, id);
  }

  // ----- What the messages say -----

  /** The event publishes to a topic that the live registration of `id` accepts. */
  ghost predicate Addresses<D>(event: Event<D>, s: Snapshot<D>, id: SubscriptionId) {
    event.Publish? && id in s.subs && s.subs[id].Accepts(NewTopicPath(event.topicName))
  }

  /** The message brings the data of the event, and the parameters that its topic has under the pattern of
      `id` at that time. */
  ghost predicate Brings<D>(message: Message<D>, event: Event<D>, s: Snapshot<D>, id: SubscriptionId) {
    Addresses(event, s, id) && Carries(message, s.subs[id].pattern, event.topicName, event.data)
  }

  lemma ShareBrings<D>(event: Event<D>, s: Snapshot<D>, id: SubscriptionId)
    requires Sane(s)
    ensures if Addresses(event, s, id) then |Share(event, s.subs, id)| == 1 && Brings(Share(event, s.subs, id)[0], event, s, id)
            else Share(event, s.subs, id) == []
  {
    hide MessageFor, Carries, Pattern.Valid, Matches, Orderly, Covers, TopicPath.WellFormed;
    if Addresses(event, s, id) {
      MessageCarries(s.subs[id].pattern, NewTopicPath(event.topicName), event.data);
    }
  }

  /** The messages come, one for one and in order, from events among the first `n` that address `id`. */
  ghost predicate ComeFrom<D>(at: seq<nat>, messages: seq<Message<D>>, events: seq<Event<D>>, trace: seq<Snapshot<D>>, n: nat, id: SubscriptionId)
    requires n <= |events| && n <= |trace|
  {
    && |at| == |messages|
    && (forall j, k :: 0 <= j < k < |at| ==> at[j] < at[k])
    && (forall k :: 0 <= k < |at| ==> at[k] < n && Brings(messages[k], events[at[k]], trace[at[k]], id))
  }

  /** The same, and no event that addresses `id` is left out. */
  ghost predicate AreSources<D>(at: seq<nat>, messages: seq<Message<D>>, events: seq<Event<D>>, trace: seq<Snapshot<D>>, n: nat, id: SubscriptionId)
    requires n <= |events| && n <= |trace|
  {
    && ComeFrom(at, messages, events, trace, n, id)
    && (forall i :: 0 <= i < n && Addresses(events[i], trace[i], id) ==> i in at)
  }

  lemma NoSources<D>(events: seq<Event<D>>, trace: seq<Snapshot<D>>, id: SubscriptionId)
    ensures AreSources([], [], events, trace, 0, id) && (|trace| > 0 ==> PublishedTo(events, trace, 0, id) == [])
  {
  }

  lemma SourcesSnoc<D>(at: seq<nat>, messages: seq<Message<D>>, share: seq<Message<D>>, events: seq<Event<D>>, trace: seq<Snapshot<D>>,
                       n: nat, id: SubscriptionId)
    requires n < |events| && n < |trace| && AreSources(at, messages, events, trace, n, id)
    requires if Addresses(events[n], trace[n], id) then |share| == 1 && Brings(share[0], events[n], trace[n], id) else share == []
    ensures AreSources(if share == [] then at else at + [n], messages + share, events, trace, n + 1, id)
  {
    hide Addresses, Brings, ComeFrom;
    if share == [] {
      assert messages + share == messages;
      ComeFromMore(at, messages, events, trace, n, id);
    } else {
      ComeFromSnoc(at, messages, share[0], events, trace, n, id);
      assert share == [share[0]];
      assert (at + [n])[|at|] == n;
    }
  }

  lemma ComeFromMore<D>(at: seq<nat>, messages: seq<Message<D>>, events: seq<Event<D>>, trace: seq<Snapshot<D>>, n: nat, id: SubscriptionId)
    requires n < |events| && n < |trace| && ComeFrom(at, messages, events, trace, n, id)
    ensures ComeFrom(at, messages, events, trace, n + 1, id)
  {
    hide Brings;
  }

  lemma ComeFromSnoc<D>(at: seq<nat>, messages: seq<Message<D>>, m: Message<D>, events: seq<Event<D>>, trace: seq<Snapshot<D>>, n: nat, id: SubscriptionId)
    requires n < |events| && n < |trace| && ComeFrom(at, messages, events, trace, n, id) && Brings(m, events[n], trace[n], id)
    ensures ComeFrom(at + [n], messages + [m], events, trace, n + 1, id)
  {
    hide Brings;
  }

  /** What is published to a subscription comes from exactly the events that address it. */
  lemma {:induction false} PublishedIsAddressed<D>(events: seq<Event<D>>, trace: seq<Snapshot<D>>, outcomes: seq<Outcome>, n: nat, id: SubscriptionId)
    returns (at: seq<nat>)
    requires IsRun(events, trace, outcomes) && n < |trace|
    ensures n <= |events| && AreSources(at, PublishedTo(events, trace, n, id), events, trace, n, id)
  {
    hide IsRun, Sane, TurnDone, Share, Addresses, Brings, AreSources;
    RunShape(events, trace, outcomes);
    if n == 0 {
      at := [];
      NoSources(events, trace, id);
    } else {
      var earlier := PublishedIsAddressed(events, trace, outcomes, n - 1, id);
      TurnOfRun(events, trace, outcomes, n - 1);
      var share := Share(events[n - 1], trace[n - 1].subs, id);
      ShareBrings(events[n - 1], trace[n - 1], id);
      SourcesSnoc(earlier, PublishedTo(events, trace, n - 1, id), share, events, trace, n - 1, id);
      at := if share == [] then earlier else earlier + [n - 1];
    }
  }

  /** End to end, event by event: what the consumer of a subscription made during the run has received or
      may still get comes from events that address it, in the order of these events, and each message
      brings the data and the parameters of its event. */
  lemma KeptIsAddressed<D>(events: seq<Event<D>>, trace: seq<Snapshot<D>>, outcomes: seq<Outcome>, n: nat, id: SubscriptionId)
    returns (at: seq<nat>)
    requires IsRun(events, trace, outcomes) && n < |trace| && id in trace[n].hub.lanes && id !in trace[0].hub.lanes
    ensures n <= |events| && ComeFrom(at, trace[n].hub.Of(id).Kept(), events, trace, n, id)
  {
    hide IsRun, Subsequence, Account.Kept, Hub.Of, PublishedTo, ComeFrom;
    RunShape(events, trace, outcomes);
    ConsumersSeeWhatIsPublished(events, trace, outcomes, n, id);
    var kept, published := trace[n].hub.Of(id).Kept(), PublishedTo(events, trace, n, id);
    assert [] + published == published;
    var chosen := SubsequenceSelects(kept, published);
    var sources := PublishedIsAddressed(events, trace, outcomes, n, id);
    at := ChosenSources(kept, published, chosen, sources, events, trace, n, id);
  }

  lemma ChosenSources<D>(some: seq<Message<D>>, all: seq<Message<D>>, chosen: seq<nat>, sources: seq<nat>,
                         events: seq<Event<D>>, trace: seq<Snapshot<D>>, n: nat, id: SubscriptionId)
    returns (at: seq<nat>)
    requires n <= |events| && n <= |trace| && Selects(some, all, chosen) && ComeFrom(sources, all, events, trace, n, id)
    ensures ComeFrom(at, some, events, trace, n, id)
  {
    hide Brings;
    at := seq(|some|, k requires 0 <= k < |some| => sources[chosen[k]]);
  }

  // ----- Histories only grow, and ids do not come back -----

  lemma TurnGrows<D>(event: Event<D>, before: Snapshot<D>, after: Snapshot<D>, outcome: Outcome)
    requires TurnDone(event, before, after, outcome)
    ensures Grew(before.hub, after.hub)
  {
    hide Grew, CompletesSend, Dispatched, Registration.Accepts, IsMaxQosMap, AskedForAll, NeedsSubscribe, Demotes, Covers, Replay, Told, Unparked;
    GrewRefl(before.hub);
    match event {
      case ConsumersAct(steps) =>
        StepsAreMoves(before.hub.lanes, steps);
        GrewByMoves(before.hub, after.hub);
      case SlowSendReady(k, result) =>
        if k < |before.hub.sends| {
          CompletionGrows(before.hub, after.hub, k, result, before.subs.Keys, outcome.ready, outcome.drain);
        }
      case Publish(topic, data) =>
        GrewByDispatch(before.hub, after.hub, before.subs, NewTopicPath(topic), data, outcome.verdicts);
      case SubscribeRequest(topic, qos, channelCapacity, maxParked) =>
        GrewByLane(before.hub, after.hub, before.nextId, channelCapacity, maxParked);
      case UnsubscribeRequest(id) =>
        GrewByUnpark(before.hub, id);
      case _ =>
    }
  }

  lemma CompletionGrows<M>(before: Hub<M>, after: Hub<M>, k: nat, result: SendResult, live: set<SubscriptionId>, ready: bool, drain: DrainOutcome)
    requires CompletesSend(before, after, k, result, live, ready, drain)
    ensures Grew(before, after)
  {
    hide Grew, GraceOver, OnlyTouches, ConsumerMoved, Possible;
    if ready {
      GrewByGrace(before, after, k, before.sends[k].id in live, result, ready, drain);
    } else {
      GrewByMoves(before, after);
    }
  }

  lemma TurnReturnsNone<D>(event: Event<D>, before: Snapshot<D>, after: Snapshot<D>, outcome: Outcome)
    requires TurnDone(event, before, after, outcome)
    ensures before.nextId <= after.nextId && NoneReturns(before.subs, before.nextId, after.subs)
  {
    hide CompletesSend, Dispatched, Registration.Accepts, IsMaxQosMap, AskedForAll, NeedsSubscribe, Demotes, Covers, Replay, Told, Unparked;
  }

  /** Between any two states of a run histories only grow, and what is registered later under an id
      issued earlier has been registered all along. */
  lemma {:induction false} RunGrows<D>(events: seq<Event<D>>, trace: seq<Snapshot<D>>, outcomes: seq<Outcome>, i: nat, n: nat)
    requires IsRun(events, trace, outcomes) && i <= n < |trace|
    ensures Grew(trace[i].hub, trace[n].hub)
    ensures trace[i].nextId <= trace[n].nextId && NoneReturns(trace[i].subs, trace[i].nextId, trace[n].subs)
    decreases n - i
  {
    hide Sane, TurnDone, Grew, NoneReturns;
    if n == i {
      GrewRefl(trace[i].hub);
      NoneReturnsRefl(trace[i].subs, trace[i].nextId);
    } else {
      RunGrows(events, trace, outcomes, i, n - 1);
      TurnOfRun(events, trace, outcomes, n - 1);
      TurnGrows(events[n - 1], trace[n - 1], trace[n], outcomes[n - 1]);
      TurnReturnsNone(events[n - 1], trace[n - 1], trace[n], outcomes[n - 1]);
      GrewTrans(trace[i].hub, trace[n - 1].hub, trace[n].hub);
      NoneReturnsTrans(trace[i].subs, trace[i].nextId, trace[n - 1].subs, trace[n - 1].nextId, trace[n].subs);
    }
  }

  /** An id that was issued and is not live in some state of a run is not live in any later one, and so
      nothing is dispatched to it any more: a send left in flight for it is harmless. */
  lemma RemovedStaysRemoved<D>(events: seq<Event<D>>, trace: seq<Snapshot<D>>, outcomes: seq<Outcome>, i: nat, n: nat, id: SubscriptionId)
    requires IsRun(events, trace, outcomes) && i <= n < |trace|
    requires id in trace[i].hub.lanes && id !in trace[i].subs
    ensures id !in trace[n].subs && id !in trace[n].hub.parked
    ensures DispatchedTo(trace[n], id) == DispatchedTo(trace[i], id)
    decreases n - i
  {
    hide Sane, TurnDone, Grew;
    RunGrows(events, trace, outcomes, i, n);
    StateFacts(trace[i], id);
    StateFacts(trace[n], id);
    if i < n {
      RemovedStaysRemoved(events, trace, outcomes, i, n - 1, id);
      RunGrows(events, trace, outcomes, i, n - 1);
      TurnOfRun(events, trace, outcomes, n - 1);
      TurnAddsShare(events[n - 1], trace[n - 1], trace[n], outcomes[n - 1], id);
      LanesStay(trace[i].hub, trace[n - 1].hub, id);
      assert DispatchedTo(trace[n - 1], id) + [] == DispatchedTo(trace[n - 1], id);
    }
  }

  lemma LanesStay<M>(before: Hub<M>, after: Hub<M>, id: SubscriptionId)
    requires Grew(before, after) && id in before.lanes
    ensures id in after.lanes && LaneGrew(before.lanes[id], after.lanes[id])
  {
  }

  /** Ids with a channel were issued, and only live ones are parked. */
  lemma StateFacts<D>(s: Snapshot<D>, id: SubscriptionId)
    requires Sane(s)
    ensures id in s.hub.lanes ==> id < s.nextId
    ensures id in s.subs ==> id in s.hub.lanes && id in s.entries
    ensures id in s.hub.parked ==> id in s.subs
  {
    hide InFlight, Account.Sound;
    assert id in s.hub.lanes ==> SettledAt(s.hub, s.entries, {}, id);
  }

  // ----- Removing a parked subscription -----

  /** An unsubscribe leaves "parked if and only if one send is in flight" true of the removed id exactly
      if it was not parked before. */
  lemma UnsubscribeLeavesSend<D>(id: SubscriptionId, before: Snapshot<D>, after: Snapshot<D>, forgotten: bool)
    requires Sane(before) && id in before.subs && UnsubscribeDone(id, before, after, forgotten)
    ensures (id in after.hub.parked <==> |InFlight(after.hub.sends, id)| == 1) <==> id !in before.hub.parked
  {
    hide InFlight, Unparked, Farewell;
    ParkedMeansInFlight(before.hub, before.entries, before.nextId, id);
  }

  // ----- Broker coverage over runs -----

  /** After the first `n` events the broker has the full picture: it had it at the start or got it by a
      complete resubscription, and since then no session was lost and no accepted request demoted a
      live subscription. */
  ghost predicate Restored<D>(events: seq<Event<D>>, trace: seq<Snapshot<D>>, outcomes: seq<Outcome>, n: nat)
    requires n <= |events| && n <= |outcomes| && n <= |trace| && |trace| > 0
  {
    if n == 0 then trace[0].synced
    else
      var earlier := Restored(events, trace, outcomes, n - 1);
      match events[n - 1]
      case SessionLost => false
      case ResubscribeRequest => earlier || (outcomes[n - 1].Resubscribed? && outcomes[n - 1].complete)
      case SubscribeRequest(topic, qos, _, _) =>
        earlier && !(outcomes[n - 1].Answered? && Lapses(trace[n - 1], Registration(topic, qos), outcomes[n - 1].response))
      case _ => earlier
  }

  /** The same, when bound values cannot demote anybody: only the events and the completeness of the
      resubscriptions matter. */
  predicate Reconnected<D>(events: seq<Event<D>>, outcomes: seq<Outcome>, n: nat, synced: bool)
    requires n <= |events| && n <= |outcomes|
  {
    if n == 0 then synced
    else
      var earlier := Reconnected(events, outcomes, n - 1, synced);
      match events[n - 1]
      case SessionLost => false
      case ResubscribeRequest => earlier || (outcomes[n - 1].Resubscribed? && outcomes[n - 1].complete)
      case _ => earlier
  }

  /** Coverage over whole runs, reconnects included: as long as the broker has the full picture every
      live subscription is covered. */
  lemma {:induction false} RunCovers<D>(events: seq<Event<D>>, trace: seq<Snapshot<D>>, outcomes: seq<Outcome>, n: nat)
    requires IsRun(events, trace, outcomes) && n < |trace|
    ensures trace[n].synced <==> Restored(events, trace, outcomes, n)
    ensures Restored(events, trace, outcomes, n) ==> Covers(Replay(trace[n].asked), trace[n].subs)
  {
    hide Covers, Replay, Orderly, CompletesSend, Dispatched, Registration.Accepts, IsMaxQosMap, AskedForAll, Lapses, Told, Unparked, Farewell, Pattern.Valid;
    if n > 0 {
      RunCovers(events, trace, outcomes, n - 1);
      TurnOfRun(events, trace, outcomes, n - 1);
    }
    assert Sane(trace[n]);
  }

  lemma TurnKeepsPlain<D>(event: Event<D>, before: Snapshot<D>, after: Snapshot<D>, outcome: Outcome)
    requires TurnDone(event, before, after, outcome) && event.Plain() && AllPlain(before.subs)
    ensures AllPlain(after.subs)
  {
    hide CompletesSend, Dispatched, Registration.Accepts, IsMaxQosMap, AskedForAll, NeedsSubscribe, Demotes, Covers, Replay, Told, Unparked, PlainBindings;
  }

  lemma PlainRequestsDoNotLapse<D>(s: Snapshot<D>, reg: Registration, r: SubscribeResponse)
    requires Sane(s) && AllPlain(s.subs) && reg.pattern.Valid() && PlainBindings(reg.pattern)
    ensures !Lapses(s, reg, r)
  {
    hide Orderly, Covers, Replay, Pattern.Valid, PlainBindings, NeedsSubscribe, Demotes, AllPlain;
    if NeedsSubscribe(s.subs, reg) {
      PlainNeverDemotes(s.subs, reg);
    }
  }

  /** With plain bindings, every live subscription is covered whenever no session was lost at all, or a
      resubscription was completed since the last loss. */
  lemma {:induction false} PlainRunCovers<D>(events: seq<Event<D>>, trace: seq<Snapshot<D>>, outcomes: seq<Outcome>, n: nat)
    requires IsRun(events, trace, outcomes) && n < |trace| && AllPlain(trace[0].subs)
    requires forall i :: 0 <= i < |events| ==> events[i].Wellformed() && events[i].Plain()
    ensures AllPlain(trace[n].subs)
    ensures Restored(events, trace, outcomes, n) <==> Reconnected(events, outcomes, n, trace[0].synced)
    ensures Reconnected(events, outcomes, n, trace[0].synced) ==> Covers(Replay(trace[n].asked), trace[n].subs)
  {
    hide Sane, TurnDone, Covers, Replay, Lapses, AllPlain, Pattern.Valid, PlainBindings;
    if n > 0 {
      PlainRunCovers(events, trace, outcomes, n - 1);
      TurnOfRun(events, trace, outcomes, n - 1);
      TurnKeepsPlain(events[n - 1], trace[n - 1], trace[n], outcomes[n - 1]);
      if events[n - 1].SubscribeRequest? && outcomes[n - 1].Answered? {
        PlainRequestsDoNotLapse(trace[n - 1], Registration(events[n - 1].pattern, events[n - 1].qos), outcomes[n - 1].response);
      }
    }
    RunCovers(events, trace, outcomes, n);
  }

  /** What coverage is for: under the same conditions the broker holds, for every live subscription and
      every topic that it accepts, a filter that the topic fits at a sufficient QoS. */
  lemma LiveTopicsReach<D>(events: seq<Event<D>>, trace: seq<Snapshot<D>>, outcomes: seq<Outcome>, n: nat, id: SubscriptionId, topic: TopicPath)
    requires IsRun(events, trace, outcomes) && n < |trace| && AllPlain(trace[0].subs)
    requires forall i :: 0 <= i < |events| ==> events[i].Wellformed() && events[i].Plain()
    requires Reconnected(events, outcomes, n, trace[0].synced)
    requires id in trace[n].subs && trace[n].subs[id].Accepts(topic)
    ensures Reaches(Replay(trace[n].asked), topic, trace[n].subs[id].qos)
  {
    hide TurnDone, Replay, Covered, Reaches, Registration.Accepts, Orderly, Pattern.Valid, PlainBindings;
    PlainRunCovers(events, trace, outcomes, n);
    assert Sane(trace[n]);
    CoveredTopicsReach(Replay(trace[n].asked), trace[n].subs[id], topic);
  }

  /** A lapse is real: after it some live subscription is not covered. */
  lemma LapseIsReal(subs: Registrations, subs': Registrations, asked: seq<Exchange>, asked': seq<Exchange>,
                    id: SubscriptionId, reg: Registration, forgotten: bool)
    requires !Covers(Replay(asked), subs) && id !in subs
    requires subs' == subs || subs' == subs[id := reg]
    requires asked' == asked || asked' == asked + Farewell(subs[id := reg], id, forgotten)
    ensures !Covers(Replay(asked'), subs')
  {
    hide Replay, Pattern.MqttPattern;
    assert subs[id := reg] - {id} == subs;
    assert subs != map[];
    assert asked + [] == asked;
    assert subs' - {id} == subs;
    if Covers(Replay(asked'), subs') {
      FewerAreCovered(Replay(asked'), subs', id);
    }
  }

  /** The parts of a subscribe turn, put together. */
  lemma SubscribeConcluded<D>(topic: Pattern, qos: QoS, channelCapacity: nat, maxParked: nat, before: Snapshot<D>, after: Snapshot<D>,
                              enrolled: seq<Exchange>, ok: bool, r: SubscribeResponse, forgotten: bool)
    requires before.nextId !in before.hub.lanes && before.nextId !in before.subs && after.nextId == before.nextId + 1
    requires after.hub == before.hub.(lanes := before.hub.lanes[before.nextId := NewLane(channelCapacity, maxParked).(open := r.Subscribed?)])
    requires after.subs == if r.Subscribed? then before.subs[before.nextId := Registration(topic, qos)] else before.subs
    requires (r.Subscribed? ==> r.id == before.nextId) && (r.SubscribeFailed? <==> !ok)
    requires var subs, reg := before.subs, Registration(topic, qos);
             && (after.synced <==> before.synced && !(NeedsSubscribe(subs, reg) && ok && Demotes(subs, reg)))
             && (before.synced && !after.synced ==> !Covers(Replay(enrolled), subs))
             && enrolled == before.asked + (if NeedsSubscribe(subs, reg) then [SubscribeTo(topic.MqttPattern(), qos, ok)] else [])
             && (!ok ==> NeedsSubscribe(subs, reg))
             && after.asked == enrolled + (if r.ResponseLost? then Farewell(subs[before.nextId := reg], before.nextId, forgotten) else [])
    requires after.synced ==> Covers(Replay(after.asked), after.subs)
    ensures SubscribeDone(topic, qos, channelCapacity, maxParked, before, after, r, forgotten)
  {
    hide NeedsSubscribe, Demotes, Covers, Replay, Farewell, Pattern.MqttPattern;
    assert enrolled + [] == enrolled;
    if before.synced && !after.synced {
      LapseIsReal(before.subs, after.subs, enrolled, after.asked, before.nextId, Registration(topic, qos), forgotten);
    }
  }

  lemma CompletionConcluded<D>(k: nat, result: SendResult, before: Snapshot<D>, after: Snapshot<D>, ready: bool, drain: DrainOutcome)
    requires k < |before.hub.sends| && CompletesSend(before.hub, after.hub, k, result, before.subs.Keys, ready, drain)
    requires after.subs == if ready && before.hub.sends[k].id in before.subs && drain.Gone?
                           then before.subs - {before.hub.sends[k].id} else before.subs
    requires Told(before.asked, after.asked, before.subs, after.subs)
    requires after.nextId == before.nextId && after.synced == before.synced
    ensures CompletionDone(k, result, before, after, ready, drain)
  {
  }

  lemma NothingCompleted<D>(k: nat, result: SendResult, s: Snapshot<D>)
    requires k >= |s.hub.sends|
    ensures CompletionDone(k, result, s, s, false, CaughtUp)
  {
  }

  // ----- After the shutdown -----

  /** How the lanes stand after a run of `n` events and the shutdown: dispatched is what was published,
      what consumers have or still find is in that order, and every message is accounted for. */
  ghost predicate EndsInOrder<D>(events: seq<Event<D>>, trace: seq<Snapshot<D>>, n: nat, lanes: Lanes<Message<D>>)
    requires n <= |events| && n < |trace|
  {
    && lanes.Keys == trace[n].hub.lanes.Keys
    && forall id :: id in lanes ==>
         && lanes[id].dispatched == DispatchedTo(trace[0], id) + PublishedTo(events, trace, n, id)
         && Subsequence(lanes[id].received + lanes[id].buffer, lanes[id].dispatched)
         && |lanes[id].dispatched| == |lanes[id].received| + |lanes[id].buffer| + lanes[id].drops + lanes[id].lost
         && lanes[id].drops == trace[n].hub.lanes[id].drops
         && trace[n].hub.lanes[id].received <= lanes[id].received
  }

  lemma ShutdownEndsInOrder<D>(events: seq<Event<D>>, trace: seq<Snapshot<D>>, outcomes: seq<Outcome>, after: Hub<Message<D>>)
    requires IsRun(events, trace, outcomes) && Outlived(trace[|outcomes|].hub, after)
    requires forall id :: id in after.lanes ==> after.Of(id) == Account(after.lanes[id], [], None) && after.Of(id).Sound()
    ensures EndsInOrder(events, trace, |outcomes|, after.lanes)
  {
    hide Sane, TurnDone, Subsequence, PublishedTo;
    forall id | id in after.lanes
      ensures after.lanes[id].dispatched == DispatchedTo(trace[0], id) + PublishedTo(events, trace, |outcomes|, id)
      ensures Subsequence(after.lanes[id].received + after.lanes[id].buffer, after.lanes[id].dispatched)
      ensures |after.lanes[id].dispatched| == |after.lanes[id].received| + |after.lanes[id].buffer| + after.lanes[id].drops + after.lanes[id].lost
    {
      RunDispatchesPublished(events, trace, outcomes, |outcomes|, id);
      assert after.Of(id).Kept() == after.lanes[id].received + after.lanes[id].buffer;
    }
  }
}

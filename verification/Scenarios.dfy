/** A concrete run in which a comment of the actor turns out not to hold. */
module Scenarios {
  import opened Segments
  import opened TopicPatternItem
  import opened TopicMatch
  import opened TopicPatternPath
  import opened TopicMatcher
  import opened Router = TopicRouter
  import opened BrokerCoverage
  import opened Delivery
  import opened Turns
  import opened Dispatch
  import opened Runs

  /** One publish in a state with a single subscription. */
  lemma PublishToOnly<D>(before: Snapshot<D>, after: Snapshot<D>, reg: Registration, entry: SubscriberEntry, topic: string, data: D, verdict: Verdict)
    requires Sane(before) && before.subs == map[0 := reg] && before.entries == map[0 := entry] && before.hub.lanes.Keys == {0}
    requires after == before.(hub := after.hub) && after.hub.lanes.Keys == {0} && after.hub.Closed()
    requires reg.Accepts(NewTopicPath(topic)) && !verdict.Rejected?
    requires Delivered(before.hub.Of(0), after.hub.Of(0), MessageFor(reg.pattern, NewTopicPath(topic), data), verdict)
    ensures PublishDone(topic, data, before, after, map[0 := verdict]) && Sane(after)
  {
    hide Settled, Delivered, Registration.Accepts, MessageFor, InFlight, Covers, Replay, Pattern.Valid;
    assert SettledAt(before.hub, before.entries, {}, 0);
    DeliveredKeepsSettled(before.hub.Of(0), after.hub.Of(0), entry, MessageFor(reg.pattern, NewTopicPath(topic), data), verdict);
    assert RejectedIn(map[0 := verdict]) == {};
    ToldNothing(before.asked, before.subs);
  }

  ghost function FirstState<D>(): Snapshot<D> {
    Snapshot(Hub(map[], map[], []), map[], map[], 0, [], true)
  }

  /** Topic "a/b" fits the pattern of the same name. */
  lemma FitsItself(p: Pattern)
    requires p.segments == [Str("a"), Str("b")] && p.bindings.None?
    ensures Registration(p, AtMostOnce).Accepts(NewTopicPath("a" + "/" + "b"))
  {
    var path := NewTopicPath("a" + "/" + "b");
    LevelsAreSplit(path);
    SplitJoin(["a", "b"]);
    assert p.Resolved() == p.segments;
  }

  /** A new subscription, alone in the router, with room for one message. */
  lemma SubscribeAlone(p: Pattern, capacity: nat, maxParked: nat) returns (s: Snapshot<int>)
    requires p.Valid()
    ensures s == Snapshot(Hub(map[0 := NewLane(capacity, maxParked)], map[], []), map[0 := Registration(p, AtMostOnce)],
                          map[0 := SubscriberEntry(maxParked)], 1, [SubscribeTo(p.MqttPattern(), AtMostOnce, true)], true)
    ensures SubscribeDone(p, AtMostOnce, capacity, maxParked, FirstState(), s, Subscribed(0), false) && Sane(s)
  {
    hide Pattern.Valid, Pattern.MqttPattern, InFlight;
    var start: Snapshot<int>, reg := FirstState(), Registration(p, AtMostOnce);
    s := Snapshot(Hub(map[0 := NewLane(capacity, maxParked)], map[], []), map[0 := reg],
                  map[0 := SubscriberEntry(maxParked)], 1, [SubscribeTo(p.MqttPattern(), AtMostOnce, true)], true);
    NothingIsOrderly<Message<int>>();
    NewLaneIsOrderly(start.hub, start.entries, 0, capacity, maxParked);
    assert s.hub == start.hub.(lanes := start.hub.lanes[0 := NewLane(capacity, maxParked)]);
    assert s.entries == start.entries[0 := SubscriberEntry(maxParked)];
    ReplaySnoc([], s.asked[0]);
    assert [] + [s.asked[0]] == s.asked;
    assert !Lapses(start, reg, Subscribed(0));
  }

  lemma BufferedThenParked<D>(a: Hub<Message<D>>, b: Hub<Message<D>>, c: Hub<Message<D>>, first: Message<D>, second: Message<D>)
    requires a == Hub(map[0 := NewLane(1, 2)], map[], [])
    requires b == Hub(map[0 := a.lanes[0].RecordDispatch(first).Buffer(first)], map[], [])
    requires c == Hub(map[0 := b.lanes[0].RecordDispatch(second)], map[0 := []], [SlowSend(0, second)])
    ensures a.Closed() && b.Closed() && c.Closed() && InFlight(c.sends, 0) == [second]
    ensures Delivered(a.Of(0), b.Of(0), first, Buffered) && Delivered(b.Of(0), c.Of(0), second, GraceStarted)
  {
    InFlightSnoc([], SlowSend(0, second), 0);
    assert [] + [SlowSend(0, second)] == [SlowSend(0, second)];
    assert b.Of(0).Kept() == a.Of(0).Kept() + [first];
    assert c.Of(0).Kept() == b.Of(0).Kept() + [second];
  }

  lemma RemoveOnly(before: Snapshot<int>, reg: Registration) returns (after: Snapshot<int>)
    requires Sane(before) && before.subs == map[0 := reg]
    ensures UnsubscribeDone(0, before, after, true) && Sane(after)
    ensures after.hub == Unparked(before.hub, 0) && after.hub.sends == before.hub.sends && 0 !in after.hub.parked
  {
    hide Settled, Covers, Replay, InFlight, Pattern.MqttPattern;
    var nobody: set<SubscriptionId> := {};
    UnparkedIsOrderly(before.hub, before.entries, before.nextId, nobody, 0);
    assert nobody - {0} == nobody;
    after := Snapshot(Unparked(before.hub, 0), before.subs - {0}, before.entries - {0}, before.nextId,
                      before.asked + Farewell(before.subs, 0, true), before.synced);
    assert after.subs == map[];
    NothingToCover(Replay(after.asked));
  }

  lemma FirstIsSane()
    ensures Sane<int>(FirstState())
  {
  }

  /** Four turns make a run. */
  lemma FourTurns<D>(events: seq<Event<D>>, trace: seq<Snapshot<D>>, outcomes: seq<Outcome>)
    requires |events| == 4 && |trace| == 5 && |outcomes| == 4
    requires Sane(trace[0]) && Sane(trace[1]) && Sane(trace[2]) && Sane(trace[3]) && Sane(trace[4])
    requires TurnDone(events[0], trace[0], trace[1], outcomes[0]) && TurnDone(events[1], trace[1], trace[2], outcomes[1])
    requires TurnDone(events[2], trace[2], trace[3], outcomes[2]) && TurnDone(events[3], trace[3], trace[4], outcomes[3])
    ensures IsRun(events, trace, outcomes)
  {
    hide Sane, TurnDone;
    forall i | 0 <= i < |outcomes| ensures TurnDone(events[i], trace[i], trace[i + 1], outcomes[i]) {
      assert i == 0 || i == 1 || i == 2 || i == 3;
    }
    forall i | 0 <= i < |trace| ensures Sane(trace[i]) {
      assert i == 0 || i == 1 || i == 2 || i == 3 || i == 4;
    }
  }

  /** "Parked if and only if one send is in flight" does fail: a channel for one message, two messages,
      and then an unsubscribe end with a send in flight for a subscription that is not parked. */
  lemma StaleSend() returns (events: seq<Event<int>>, trace: seq<Snapshot<int>>, outcomes: seq<Outcome>)
    ensures IsRun(events, trace, outcomes) && |outcomes| == 4 && trace[0] == FirstState()
    ensures 0 in trace[3].hub.parked
    ensures 0 !in trace[4].hub.parked && |InFlight(trace[4].hub.sends, 0)| == 1
  {
    hide Pattern.Valid, Sane, IsRun, PublishDone, SubscribeDone, UnsubscribeDone, MessageFor, Registration.Accepts, Pattern.MqttPattern, Delivered,
      Hub.Closed, Hub.Of, Unparked, InFlight;
    var p := Literal();
    FitsItself(p);
    var topic, reg, entry := "a" + "/" + "b", Registration(p, AtMostOnce), SubscriberEntry(2);
    var s1 := SubscribeAlone(p, 1, 2);
    var first, second := MessageFor(p, NewTopicPath(topic), 1), MessageFor(p, NewTopicPath(topic), 2);
    var s2 := s1.(hub := Hub(map[0 := s1.hub.lanes[0].RecordDispatch(first).Buffer(first)], map[], []));
    var s3 := s1.(hub := Hub(map[0 := s2.hub.lanes[0].RecordDispatch(second)], map[0 := []], [SlowSend(0, second)]));
    BufferedThenParked(s1.hub, s2.hub, s3.hub, first, second);
    PublishToOnly(s1, s2, reg, entry, topic, 1, Buffered);
    PublishToOnly(s2, s3, reg, entry, topic, 2, GraceStarted);
    var s4 := RemoveOnly(s3, reg);
    FirstIsSane();
    events := [SubscribeRequest(p, AtMostOnce, 1, 2), Publish(topic, 1), Publish(topic, 2), UnsubscribeRequest(0)];
    trace := [FirstState(), s1, s2, s3, s4];
    outcomes := [Answered(Subscribed(0), false), Published(map[0 := Buffered]), Published(map[0 := GraceStarted]), Removed(true)];
    FourTurns(events, trace, outcomes);
  }
}

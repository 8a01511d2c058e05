/** Dispatching one published message to all subscriptions that fit its topic: who gets it, in which
    way, and that nobody else is touched. */
module Dispatch {
  import opened Wrappers
  import opened TopicMatch
  import opened TopicPatternPath
  import opened PatternLaws
  import opened TopicMatcher
  import opened Router = TopicRouter
  import opened Delivery
  import opened Turns

  // ----- Messages and selected subscribers -----

  datatype Message<D> = Message(topicMatch: TopicMatch, data: D)

  /** The message that a subscription gets for `data` published on `topic`. */
  function MessageFor<D>(pattern: Pattern, topic: TopicPath, data: D): Message<D> {
    Message(MatchOf(pattern.segments, topic), data)
  }

  /** The message brings the published data, and for every wildcard of the pattern, bound or not, the text
      under it in the topic. */
  ghost predicate Carries<D>(message: Message<D>, pattern: Pattern, topic: string, data: D) {
    message.data == data && Extracts(message.topicMatch, pattern.segments, topic)
  }

  lemma MessageCarries<D>(pattern: Pattern, topic: TopicPath, data: D)
    requires pattern.Valid() && topic.WellFormed() && Matches(pattern.Resolved(), topic.Levels())
    ensures Carries(MessageFor(pattern, topic, data), pattern, topic.path, data)
  {
    hide Pattern.Valid, Matches, MatchOf, Extracts, ExtractsBindings;
    BindingNarrows(pattern, topic);
    MatchExtracts(pattern, topic);
  }

  /** The subscribers with their registrations and payloads, all of which fit the topic. */
  ghost predicate Selected(subscribers: seq<Subscriber<SubscriberEntry>>, subs: Registrations, entries: Entries, topic: TopicPath) {
    forall i :: 0 <= i < |subscribers| ==>
      && subscribers[i].id in subs && subscribers[i].id in entries
      && subscribers[i] == Subscriber(subscribers[i].id, subs[subscribers[i].id], entries[subscribers[i].id])
      && subscribers[i].registration.pattern.Valid() && subscribers[i].registration.Accepts(topic)
  }

  lemma AllSelected(subscribers: seq<Subscriber<SubscriberEntry>>, subs: Registrations, entries: Entries, topic: TopicPath)
    requires forall id :: id in subs ==> subs[id].pattern.Valid()
    requires forall i :: 0 <= i < |subscribers| ==>
               && subscribers[i].id in subs && subscribers[i].id in entries
               && subscribers[i] == Subscriber(subscribers[i].id, subs[subscribers[i].id], entries[subscribers[i].id])
    requires forall id :: id in subs ==> (ListsId(subscribers, id) <==> subs[id].Accepts(topic))
    ensures Selected(subscribers, subs, entries, topic)
    ensures forall id :: id in ServedIds(subscribers, |subscribers|) <==> id in subs && subs[id].Accepts(topic)
  {
    hide Pattern.Valid, Registration.Accepts;
    forall k | 0 <= k < |subscribers| ensures subscribers[k].registration.Accepts(topic) {
      assert ListsId(subscribers, subscribers[k].id);
    }
    forall id ensures id in ServedIds(subscribers, |subscribers|) <==> id in subs && subs[id].Accepts(topic) {
      assert id in subs ==> (ListsId(subscribers, id) <==> subs[id].Accepts(topic));
    }
  }

  /** One of the subscribers that the router returned for the topic. */
  ghost predicate Selectable(s: Subscriber<SubscriberEntry>, entries: Entries, topic: TopicPath) {
    && s.id in entries && entries[s.id] == s.payload
    && s.registration.pattern.Valid() && s.registration.Accepts(topic)
  }

  lemma SelectedIsSelectable(subscribers: seq<Subscriber<SubscriberEntry>>, subs: Registrations, entries: Entries, topic: TopicPath)
    requires Selected(subscribers, subs, entries, topic)
    ensures forall k :: 0 <= k < |subscribers| ==> Selectable(subscribers[k], entries, topic)
  {
    hide Pattern.Valid, Registration.Accepts;
  }

  ghost function ServedIds(subscribers: seq<Subscriber<SubscriberEntry>>, k: nat): set<SubscriptionId>
    requires k <= |subscribers|
  {
    set j | 0 <= j < k :: subscribers[j].id
  }

  lemma NotYetServed<D>(start: Hub<Message<D>>, entries: Entries, nextId: nat, subscribers: seq<Subscriber<SubscriberEntry>>,
                        topic: TopicPath, served: set<SubscriptionId>, k: nat)
    requires Orderly(start, entries, nextId, {}) && DistinctIds(subscribers) && k < |subscribers|
    requires forall j :: 0 <= j < |subscribers| ==> Selectable(subscribers[j], entries, topic)
    requires served == ServedIds(subscribers, k)
    ensures subscribers[k].id !in served && served + {subscribers[k].id} == ServedIds(subscribers, k + 1)
    ensures subscribers[k].registration.pattern.Valid() && subscribers[k].registration.Accepts(topic)
    ensures subscribers[k].id in start.lanes && Settled(start.Of(subscribers[k].id), Some(subscribers[k].payload), false)
  {
    hide Settled, Pattern.Valid, Registration.Accepts;
    SettledEntry(start, entries, nextId, subscribers[k].id);
  }

  // ----- Grace sends planned and subscribers rejected -----

  /** The grace sends planned so far: for distinct subscriptions already served, none with a send in
      flight. */
  ghost predicate Planned<M>(sends: seq<SlowSend<M>>, parks: seq<SlowSend<M>>, served: set<SubscriptionId>) {
    && Ids(parks) <= served
    && (forall k :: 0 <= k < |parks| ==> InFlight(sends, parks[k].id) == [])
    && (forall j, k :: 0 <= j < k < |parks| ==> parks[j].id != parks[k].id)
  }

  lemma PlannedFacts<M>(sends: seq<SlowSend<M>>, parks: seq<SlowSend<M>>, served: set<SubscriptionId>)
    requires Planned(sends, parks, served)
    ensures Ids(parks) <= served
  {
  }

  lemma PlanOneMore<M>(sends: seq<SlowSend<M>>, parks: seq<SlowSend<M>>, served: set<SubscriptionId>, park: SlowSend<M>)
    requires Planned(sends, parks, served) && park.id !in served
    ensures Planned(sends, parks, served + {park.id})
    ensures InFlight(sends, park.id) == [] ==> Planned(sends, parks + [park], served + {park.id})
  {
    hide InFlight;
    IdsSnoc(parks, park);
  }

  lemma NotStartedYet<M>(start: Hub<M>, parks: seq<SlowSend<M>>, served: set<SubscriptionId>, k: nat)
    requires Planned(start.sends, parks, served) && k < |parks|
    ensures InFlight(WithParks(start, parks[..k]).sends, parks[k].id) == []
  {
    hide InFlight;
    InFlightConcat(start.sends, parks[..k], parks[k].id);
    NoneInFlight(parks[..k], parks[k].id);
  }

  ghost predicate ListsRejected(closed: seq<SubscriptionId>, verdicts: map<SubscriptionId, Verdict>) {
    forall id :: id in closed <==> id in verdicts && verdicts[id].Rejected?
  }

  lemma RejectedGrows(closed: seq<SubscriptionId>, verdicts: map<SubscriptionId, Verdict>, id: SubscriptionId, verdict: Verdict)
    requires ListsRejected(closed, verdicts) && id !in verdicts
    ensures ListsRejected(if verdict.Rejected? then closed + [id] else closed, verdicts[id := verdict])
  {
  }

  /** The ids whose channel was found closed. */
  ghost function RejectedIn(verdicts: map<SubscriptionId, Verdict>): set<SubscriptionId> {
    set id | id in verdicts && verdicts[id].Rejected?
  }

  // ----- Deliveries so far -----

  /** Every subscriber in `verdicts` got the message made for it; everybody else was left alone. */
  ghost predicate Processed<D>(before: Hub<Message<D>>, after: Hub<Message<D>>, subscribers: seq<Subscriber<SubscriberEntry>>,
                               topic: TopicPath, data: D, verdicts: map<SubscriptionId, Verdict>) {
    && after.lanes.Keys == before.lanes.Keys && verdicts.Keys <= before.lanes.Keys
    && (forall k :: 0 <= k < |subscribers| && subscribers[k].id in verdicts ==>
          Delivered(before.Of(subscribers[k].id), after.Of(subscribers[k].id),
                    MessageFor(subscribers[k].registration.pattern, topic, data), verdicts[subscribers[k].id]))
    && (forall id :: id in before.lanes && id !in verdicts ==> AccountMoved(before.Of(id), after.Of(id)))
  }

  lemma NothingProcessed<D>(hub: Hub<Message<D>>, entries: Entries, nextId: nat, subscribers: seq<Subscriber<SubscriberEntry>>,
                            topic: TopicPath, data: D)
    requires Orderly(hub, entries, nextId, {})
    ensures hub.Closed()
    ensures Processed(hub, WithParks(hub, []), subscribers, topic, data, map[])
    ensures Planned(hub.sends, [], {}) && ListsRejected([], map[]) && ServedIds(subscribers, 0) == {}
  {
    hide InFlight;
    WithNoParks(hub);
    forall id | id in hub.lanes ensures AccountMoved(hub.Of(id), hub.Of(id)) {
      ConsumerStays(hub.lanes[id]);
    }
  }

  lemma ProcessedIds<D>(before: Hub<Message<D>>, after: Hub<Message<D>>, subscribers: seq<Subscriber<SubscriberEntry>>,
                        topic: TopicPath, data: D, verdicts: map<SubscriptionId, Verdict>)
    requires Processed(before, after, subscribers, topic, data, verdicts)
    ensures verdicts.Keys <= before.lanes.Keys
  {
  }

  /** A subscription whose turn has not come is still settled, and no grace send is planned for it. */
  lemma NotYetProcessed<D>(start: Hub<Message<D>>, hub: Hub<Message<D>>, parks: seq<SlowSend<Message<D>>>,
                           subscribers: seq<Subscriber<SubscriberEntry>>, topic: TopicPath, data: D,
                           verdicts: map<SubscriptionId, Verdict>, id: SubscriptionId, entry: SubscriberEntry)
    requires Processed(start, WithParks(hub, parks), subscribers, topic, data, verdicts)
    requires id in start.lanes && id !in verdicts && Ids(parks) <= verdicts.Keys
    requires Settled(start.Of(id), Some(entry), false)
    ensures id in hub.lanes && WithParks(hub, parks).Of(id) == hub.Of(id)
    ensures Settled(hub.Of(id), Some(entry), false)
  {
    hide Settled, InFlight, Ids;
    WithParksOf(hub, parks, id);
    NoneInFlight(parks, id);
    assert InFlight(hub.sends, id) + [] == InFlight(hub.sends, id);
    assert AccountMoved(start.Of(id), WithParks(hub, parks).Of(id));
    MoveKeepsSettled(start.Of(id), hub.Of(id), Some(entry), false);
  }

  /** One more subscriber served. */
  lemma DeliveryStep<D>(start: Hub<Message<D>>, before: Hub<Message<D>>, after: Hub<Message<D>>,
                        parks: seq<SlowSend<Message<D>>>, parks': seq<SlowSend<Message<D>>>,
                        subscribers: seq<Subscriber<SubscriberEntry>>, topic: TopicPath, data: D,
                        verdicts: map<SubscriptionId, Verdict>, k: nat, verdict: Verdict)
    requires k < |subscribers| && DistinctIds(subscribers)
    requires before.Closed() && after.sends == before.sends && Ids(parks) <= before.lanes.Keys
    requires var id := subscribers[k].id; id in before.lanes && id !in verdicts && id !in Ids(parks) && OnlyTouches(before, after, id)
    requires var id, message := subscribers[k].id, MessageFor(subscribers[k].registration.pattern, topic, data);
             && Delivered(before.Of(id), if verdict.GraceStarted? then Account(after.lanes[id], [message], Some([])) else after.Of(id),
                          message, verdict)
             && parks' == (if verdict.GraceStarted? then parks + [SlowSend(id, message)] else parks)
             && (verdict.GraceStarted? ==> InFlight(after.sends, id) == [])
    requires Processed(start, WithParks(before, parks), subscribers, topic, data, verdicts)
    requires WithParks(before, parks).Of(subscribers[k].id) == before.Of(subscribers[k].id)
    ensures Processed(start, WithParks(after, parks'), subscribers, topic, data, verdicts[subscribers[k].id := verdict])
  {
    hide InFlight, Delivered, Ids, Processed, ConsumerMoved;
    var id, message := subscribers[k].id, MessageFor(subscribers[k].registration.pattern, topic, data);
    var planned, planned' := WithParks(before, parks), WithParks(after, parks');
    PlannedParksCommute(before, after, parks, id);
    if verdict.GraceStarted? {
      NewParkTouchesOne(after, parks, SlowSend(id, message));
      OnlyTouchesTrans(planned, WithParks(after, parks), planned', id);
    } else {
      WithParksOf(after, parks, id);
      NoneInFlight(parks, id);
      assert InFlight(after.sends, id) + [] == InFlight(after.sends, id);
    }
    ProcessOneMore(start, planned, planned', subscribers, topic, data, verdicts, k, verdict);
  }

  lemma ProcessOneMore<D>(start: Hub<Message<D>>, before: Hub<Message<D>>, after: Hub<Message<D>>,
                          subscribers: seq<Subscriber<SubscriberEntry>>, topic: TopicPath, data: D,
                          verdicts: map<SubscriptionId, Verdict>, k: nat, verdict: Verdict)
    requires k < |subscribers| && DistinctIds(subscribers)
    requires Processed(start, before, subscribers, topic, data, verdicts)
    requires var id := subscribers[k].id; id in before.lanes && id !in verdicts && OnlyTouches(before, after, id)
    requires var id := subscribers[k].id;
             Delivered(before.Of(id), after.Of(id), MessageFor(subscribers[k].registration.pattern, topic, data), verdict)
    ensures Processed(start, after, subscribers, topic, data, verdicts[subscribers[k].id := verdict])
  {
    hide InFlight, Delivered, ConsumerMoved, MessageFor, Hub.Of;
    var x := subscribers[k].id;
    var verdicts' := verdicts[x := verdict];
    forall j | 0 <= j < |subscribers| && subscribers[j].id in verdicts'
      ensures subscribers[j].id in start.lanes
      ensures Delivered(start.Of(subscribers[j].id), after.Of(subscribers[j].id),
                        MessageFor(subscribers[j].registration.pattern, topic, data), verdicts'[subscribers[j].id])
    {
      var id, message := subscribers[j].id, MessageFor(subscribers[j].registration.pattern, topic, data);
      if id == x {
        assert j == k;
        MovedThenDelivered(start.Of(id), before.Of(id), after.Of(id), message, verdict);
      } else {
        assert AccountMoved(before.Of(id), after.Of(id));
        DeliveredThenMoved(start.Of(id), before.Of(id), after.Of(id), message, verdicts[id]);
      }
    }
    forall id | id in start.lanes && id !in verdicts' ensures AccountMoved(start.Of(id), after.Of(id)) {
      assert AccountMoved(start.Of(id), before.Of(id)) && AccountMoved(before.Of(id), after.Of(id));
      ConsumerMovedTrans(start.Of(id).lane, before.Of(id).lane, after.Of(id).lane);
    }
  }

  // ----- The whole dispatch -----

  /** Every subscription in `verdicts` got its message; everybody else was left alone. */
  ghost predicate Dispatched<D>(before: Hub<Message<D>>, after: Hub<Message<D>>, subs: Registrations,
                                topic: TopicPath, data: D, verdicts: map<SubscriptionId, Verdict>) {
    && after.lanes.Keys == before.lanes.Keys && verdicts.Keys <= before.lanes.Keys && verdicts.Keys <= subs.Keys
    && (forall id :: id in verdicts ==> Delivered(before.Of(id), after.Of(id), MessageFor(subs[id].pattern, topic, data), verdicts[id]))
    && (forall id :: id in before.lanes && id !in verdicts ==> AccountMoved(before.Of(id), after.Of(id)))
  }

  /** One message was dispatched to the lane, and it carries what was published. */
  ghost predicate GotMessage<D>(a: Lane<Message<D>>, b: Lane<Message<D>>, pattern: Pattern, topic: string, data: D) {
    && |b.dispatched| == |a.dispatched| + 1 && a.dispatched <= b.dispatched
    && Carries(b.dispatched[|a.dispatched|], pattern, topic, data)
  }

  lemma DispatchedCarries<D>(before: Hub<Message<D>>, after: Hub<Message<D>>, subs: Registrations, topic: string, data: D,
                             verdicts: map<SubscriptionId, Verdict>)
    requires Dispatched(before, after, subs, NewTopicPath(topic), data, verdicts)
    requires forall id :: id in verdicts ==> id in subs && subs[id].pattern.Valid() && subs[id].Accepts(NewTopicPath(topic))
    ensures forall id :: id in verdicts ==>
              id in before.lanes && id in after.lanes && GotMessage(before.lanes[id], after.lanes[id], subs[id].pattern, topic, data)
  {
    hide InFlight, MessageFor, Carries, Pattern.Valid, Matches, TopicPath.WellFormed;
    forall id | id in verdicts
      ensures id in before.lanes && id in after.lanes && GotMessage(before.lanes[id], after.lanes[id], subs[id].pattern, topic, data)
    {
      MessageCarries(subs[id].pattern, NewTopicPath(topic), data);
      assert Delivered(before.Of(id), after.Of(id), MessageFor(subs[id].pattern, NewTopicPath(topic), data), verdicts[id]);
    }
  }

  /** After the deliveries everybody is settled, up to those about to be dropped. */
  lemma ProcessedIsOrderly<D>(before: Hub<Message<D>>, after: Hub<Message<D>>, subscribers: seq<Subscriber<SubscriberEntry>>,
                              subs: Registrations, entries: Entries, nextId: nat, topic: TopicPath, data: D,
                              verdicts: map<SubscriptionId, Verdict>, closed: seq<SubscriptionId>)
    requires Orderly(before, entries, nextId, {}) && after.Closed()
    requires Selected(subscribers, subs, entries, topic)
    requires verdicts.Keys == ServedIds(subscribers, |subscribers|)
    requires ListsRejected(closed, verdicts)
    requires Processed(before, after, subscribers, topic, data, verdicts)
    ensures Dispatched(before, after, subs, topic, data, verdicts)
    ensures Orderly(after, entries, nextId, Listed(closed)) && Listed(closed) == RejectedIn(verdicts)
  {
    hide Delivered, Settled, AccountMoved, Hub.Of, MessageFor, Pattern.Valid, Registration.Accepts;
    forall id | id in verdicts
      ensures id in subs && id in entries && Delivered(before.Of(id), after.Of(id), MessageFor(subs[id].pattern, topic, data), verdicts[id])
    {
      var k :| 0 <= k < |subscribers| && subscribers[k].id == id;
    }
    forall id | id in after.lanes ensures SettledAt(after, entries, Listed(closed), id) {
      assert SettledAt(before, entries, {}, id);
      if id in verdicts {
        DeliveredKeepsSettled(before.Of(id), after.Of(id), entries[id], MessageFor(subs[id].pattern, topic, data), verdicts[id]);
      } else {
        MoveKeepsSettled(before.Of(id), after.Of(id), EntryOf(entries, id), false);
      }
    }
  }

  lemma GrewByDispatch<D>(before: Hub<Message<D>>, after: Hub<Message<D>>, subs: Registrations, topic: TopicPath, data: D,
                          verdicts: map<SubscriptionId, Verdict>)
    requires Dispatched(before, after, subs, topic, data, verdicts)
    ensures Grew(before, after)
  {
    hide InFlight, MessageFor;
    forall id | id in before.lanes ensures LaneGrew(before.lanes[id], after.lanes[id]) {
      if id in verdicts {
        assert Delivered(before.Of(id), after.Of(id), MessageFor(subs[id].pattern, topic, data), verdicts[id]);
      } else {
        assert AccountMoved(before.Of(id), after.Of(id));
      }
    }
  }
}

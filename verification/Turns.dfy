/** The effects of the actor's turns on the accounts of the subscriptions, one kind of turn after the
    other: what exactly changes, and that it keeps the invariant. */
module Turns {
  import opened Wrappers
  import opened TopicMatcher
  import opened Router = TopicRouter
  import opened Delivery

  // ----- Trying to send -----

  datatype TrySendResult = Accepted | Full | Closed

  /** The lane after a message was put into its channel, consumer steps before that included. */
  ghost predicate SentInto<M>(a: Lane<M>, b: Lane<M>, message: M) {
    a.open && |b.buffer| <= b.capacity && ConsumerMoved(a.Buffer(message), b)
  }

  lemma BufferAfterMove<M>(a: Lane<M>, b: Lane<M>, message: M)
    requires ConsumerMoved(a, b)
    ensures b.open && |b.buffer| < b.capacity ==> SentInto(a, b.Buffer(message), message)
  {
    assert a.received + (a.buffer + [message]) == (a.received + a.buffer) + [message];
    assert b.received + (b.buffer + [message]) == (b.received + b.buffer) + [message];
  }

  lemma LossAfterMove<M>(a: Lane<M>, b: Lane<M>)
    requires ConsumerMoved(a, b)
    ensures ConsumerMoved(a.RecordLoss(1), b.RecordLoss(1))
  {
  }

  ghost predicate AfterTrySend<M>(lane: Lane<M>, after: Lane<M>, message: M, r: TrySendResult) {
    match r
    case Accepted => SentInto(lane, after, message)
    case Full => ConsumerMoved(lane, after) && after.open && |after.buffer| >= lane.capacity
    case Closed => ConsumerMoved(lane.RecordLoss(1), after) && !after.open
  }

  // ----- Removing a subscription -----

  /** Removing a subscription forgets its parked queue, uncounted. */
  function Unparked<M>(hub: Hub<M>, id: SubscriptionId): Hub<M>
    requires hub.Closed()
  {
    if id in hub.parked
    then Hub(hub.lanes[id := hub.lanes[id].RecordLoss(|hub.parked[id]|)], hub.parked - {id}, hub.sends)
    else hub
  }

  lemma UnparkedFrame<M>(hub: Hub<M>, entries: Entries, nextId: nat, id: SubscriptionId)
    requires Frame(hub, entries, nextId)
    ensures hub.Closed()
    ensures Unparked(hub, id).lanes.Keys == hub.lanes.Keys
    ensures Frame(Unparked(hub, id), entries - {id}, nextId)
  {
  }

  lemma UnparkedOf<M>(hub: Hub<M>, id: SubscriptionId, j: SubscriptionId)
    requires hub.Closed() && j in hub.lanes && j in Unparked(hub, id).lanes
    ensures var a := hub.Of(j);
            Unparked(hub, id).Of(j) == if j == id then Account(a.lane.RecordLoss(|a.Waiting()|), a.inFlight, None) else a
  {
    hide InFlight;
  }

  /** Removing a subscription leaves every channel and every drop counter alone; only its queue is gone. */
  lemma UnparkedIsUncounted<M>(hub: Hub<M>, id: SubscriptionId, j: SubscriptionId)
    requires hub.Closed() && j in hub.lanes
    ensures id !in Unparked(hub, id).parked && Unparked(hub, id).sends == hub.sends && j in Unparked(hub, id).lanes
    ensures j != id ==> (j in Unparked(hub, id).parked <==> j in hub.parked) && Unparked(hub, id).Of(j) == hub.Of(j)
    ensures var a, b := hub.lanes[j], Unparked(hub, id).lanes[j];
            && b.drops == a.drops && b.buffer == a.buffer && b.open == a.open && b.capacity == a.capacity
            && b.received == a.received && b.dispatched == a.dispatched
            && b.lost == a.lost + (if j == id then |hub.Of(id).Waiting()| else 0)
  {
    hide InFlight;
    UnparkedOf(hub, id, j);
  }

  lemma UnparkedIsSettled<M>(a: Account<M>, entry: Option<SubscriberEntry>, leaving: bool)
    requires Settled(a, entry, leaving)
    ensures Settled(Account(a.lane.RecordLoss(|a.Waiting()|), a.inFlight, None), None, false)
  {
    CutKeepsSound(a, Account(a.lane.RecordLoss(|a.Waiting()|), a.inFlight, None));
  }

  lemma UnparkedIsOrderly<M>(hub: Hub<M>, entries: Entries, nextId: nat, leaving: set<SubscriptionId>, id: SubscriptionId)
    requires Orderly(hub, entries, nextId, leaving)
    ensures hub.Closed()
    ensures Orderly(Unparked(hub, id), entries - {id}, nextId, leaving - {id})
  {
    hide Settled, Unparked, Frame;
    UnparkedFrame(hub, entries, nextId, id);
    forall j | j in hub.lanes ensures SettledAt(Unparked(hub, id), entries - {id}, leaving - {id}, j) {
      assert SettledAt(hub, entries, leaving, j);
      UnparkedOf(hub, id, j);
      if j == id {
        UnparkedIsSettled(hub.Of(id), EntryOf(entries, id), id in leaving);
      }
    }
  }

  /** A lane that was just created has nothing parked. */
  lemma NotParkedYet<M>(hub: Hub<M>, entries: Entries, nextId: nat, parked: map<SubscriptionId, seq<M>>, id: SubscriptionId)
    requires Orderly(hub, entries, nextId, {}) && hub.parked == parked
    ensures hub.Closed() && (id !in parked ==> Unparked(hub, id) == hub)
  {
  }

  lemma LeavingIsIdle<M>(hub: Hub<M>, entries: Entries, nextId: nat, leaving: set<SubscriptionId>, id: SubscriptionId)
    requires Orderly(hub, entries, nextId, leaving) && id in leaving
    ensures hub.Closed() && Unparked(hub, id) == hub
    ensures id !in hub.parked
    ensures id in hub.lanes ==> InFlight(hub.sends, id) == []
  {
    hide InFlight;
    assert id in hub.lanes ==> SettledAt(hub, entries, leaving, id);
  }

  function Listed(ids: seq<SubscriptionId>): set<SubscriptionId> {
    set id | id in ids
  }

  lemma ListedFrom(ids: seq<SubscriptionId>, k: nat)
    requires k <= |ids|
    ensures ids[0..] == ids && Listed(ids[..0]) == {}
    ensures k < |ids| ==> Listed(ids[k..]) == {ids[k]} + Listed(ids[k + 1..])
    ensures k < |ids| ==> Listed(ids[..k + 1]) == Listed(ids[..k]) + {ids[k]}
  {
    if k < |ids| {
      assert ids[k..] == [ids[k]] + ids[k + 1..];
      assert ids[..k + 1] == ids[..k] + [ids[k]];
    }
  }

  /** An id that is no longer registered may be listed again without harm. */
  lemma FewerLeaving<M>(hub: Hub<M>, entries: Entries, nextId: nat, leaving: set<SubscriptionId>, rest: set<SubscriptionId>, id: SubscriptionId)
    requires Orderly(hub, entries, nextId, leaving - {id}) && leaving == {id} + rest && id !in entries
    requires id in hub.lanes ==> InFlight(hub.sends, id) == [] && id !in hub.parked
    ensures Orderly(hub, entries, nextId, rest)
  {
    hide InFlight;
    forall j | j in hub.lanes ensures SettledAt(hub, entries, rest, j) {
      assert SettledAt(hub, entries, leaving - {id}, j);
    }
  }

  /** "Parked if and only if one send is in flight" is true of a live subscription. Once that is removed
      it is still true exactly if the subscription was not parked before. */
  lemma ParkedMeansInFlight<M>(hub: Hub<M>, entries: Entries, nextId: nat, id: SubscriptionId)
    requires Orderly(hub, entries, nextId, {}) && id in entries
    ensures id in hub.parked <==> |InFlight(hub.sends, id)| == 1
    ensures var after := Unparked(hub, id);
            (id in after.parked <==> |InFlight(after.sends, id)| == 1) <==> id !in hub.parked
  {
    hide InFlight;
    assert SettledAt(hub, entries, {}, id);
  }

  // ----- Handing over one message -----

  lemma ParkedDelivery<M>(before: Hub<M>, after: Hub<M>, id: SubscriptionId, entry: SubscriberEntry, message: M, verdict: Verdict)
    requires before.Closed() && id in before.parked && Settled(before.Of(id), Some(entry), false)
    requires after.sends == before.sends
    requires var lane, full := before.lanes[id].RecordDispatch(message), |before.parked[id]| >= entry.maxParked;
             && verdict == (if full then Overflowed else Queued)
             && after.lanes == before.lanes[id := if full then lane.RecordDrop(1) else lane]
             && after.parked == if full then before.parked else before.parked[id := before.parked[id] + [message]]
    ensures OnlyTouches(before, after, id)
    ensures Delivered(before.Of(id), after.Of(id), message, verdict)
  {
    hide InFlight, Subsequence, Delivered, Account.Kept;
    ChangeAtOne(before, after, id);
    ParkedDeliveryAt(before.Of(id), entry, message);
  }

  lemma ParkedDeliveryAt<M>(a: Account<M>, entry: SubscriberEntry, message: M)
    requires a.queue.Some? && Settled(a, Some(entry), false)
    ensures var lane := a.lane.RecordDispatch(message);
            if |a.Waiting()| >= entry.maxParked then Delivered(a, a.(lane := lane.RecordDrop(1)), message, Overflowed)
            else Delivered(a, a.(lane := lane, queue := Some(a.Waiting() + [message])), message, Queued)
  {
    hide Subsequence;
    assert a.Kept() + [] == a.Kept();
    var front := a.lane.received + a.lane.buffer + a.inFlight;
    assert front + (a.Waiting() + [message]) == (front + a.Waiting()) + [message];
  }

  lemma ChannelDelivery<M>(before: Hub<M>, after: Hub<M>, id: SubscriptionId, entry: SubscriberEntry, message: M, r: TrySendResult, verdict: Verdict)
    requires before.Closed() && id in before.lanes && id !in before.parked && Settled(before.Of(id), Some(entry), false)
    requires after.parked == before.parked && after.sends == before.sends && after.lanes.Keys == before.lanes.Keys
    requires forall j :: j in before.lanes && j != id ==> ConsumerMoved(before.lanes[j], after.lanes[j])
    requires verdict == match r case Accepted => Buffered case Closed => Rejected case Full => GraceStarted
    requires AfterTrySend(before.lanes[id].RecordDispatch(message), after.lanes[id], message, r)
    ensures OnlyTouches(before, after, id)
    ensures Delivered(before.Of(id),
                      if verdict.GraceStarted? then Account(after.lanes[id], [message], Some([])) else after.Of(id), message, verdict)
  {
    hide InFlight, AfterTrySend, Delivered, ConsumerMoved;
    var a := before.Of(id);
    ChannelDeliveryAt(a, after.lanes[id], message, r);
  }

  /** The lane of an idle subscription after an attempt to send, and the account that results. */
  lemma ChannelDeliveryAt<M>(a: Account<M>, lane: Lane<M>, message: M, r: TrySendResult)
    requires a.queue.None? && a.inFlight == [] && |a.lane.buffer| <= a.lane.capacity
    requires AfterTrySend(a.lane.RecordDispatch(message), lane, message, r)
    ensures match r
            case Accepted => Delivered(a, Account(lane, [], None), message, Buffered)
            case Full => Delivered(a, Account(lane, [message], Some([])), message, GraceStarted)
            case Closed => Delivered(a, Account(lane, [], None), message, Rejected)
  {
    assert a.Kept() == a.lane.received + a.lane.buffer;
    match r {
      case Accepted => assert Account(lane, [], None).Kept() == a.Kept() + [message];
      case Full => assert Account(lane, [message], Some([])).Kept() == a.Kept() + [message];
      case Closed => assert Account(lane, [], None).Kept() == a.Kept() + [];
    }
  }

  // ----- Draining a parked queue -----

  /** In the middle of draining: `queue` is still to be sent, everything else is as it was or has
      moved on in order. */
  ghost predicate Draining<M>(a: Account<M>, lane: Lane<M>, queue: seq<M>) {
    && SameLane(a.lane, lane)
    && lane.dispatched == a.lane.dispatched && lane.lost == a.lane.lost && lane.drops == a.lane.drops
    && |queue| <= |a.Waiting()|
    && Account(lane, [], Some(queue)).Kept() == a.Kept()
  }

  lemma DrainingStarts<M>(hub: Hub<M>, id: SubscriptionId)
    requires hub.Closed() && id in hub.parked && InFlight(hub.sends, id) == []
    requires |hub.lanes[id].buffer| <= hub.lanes[id].capacity
    ensures Draining(hub.Of(id), hub.lanes[id], hub.parked[id])
    ensures forall j :: j in hub.lanes ==> ConsumerMoved(hub.lanes[j], hub.lanes[j])
  {
  }

  lemma OthersMovedTrans<M>(a: Lanes<M>, b: Lanes<M>, c: Lanes<M>, id: SubscriptionId)
    requires a.Keys == b.Keys == c.Keys
    requires forall j :: j in a && j != id ==> ConsumerMoved(a[j], b[j])
    requires forall j :: j in a && j != id ==> ConsumerMoved(b[j], c[j])
    ensures forall j :: j in a && j != id ==> ConsumerMoved(a[j], c[j])
  {
    hide ConsumerMoved;
    forall j | j in a && j != id ensures ConsumerMoved(a[j], c[j]) {
      ConsumerMovedTrans(a[j], b[j], c[j]);
    }
  }

  /** The head of the queue may be seen as in flight, or as buffered already, or cut off with the rest. */
  lemma HeadOfQueue<M>(lane: Lane<M>, message: M, rest: seq<M>)
    ensures Account(lane, [message], Some(rest)).Kept() == Account(lane, [], Some([message] + rest)).Kept()
    ensures Account(lane.Buffer(message), [], Some(rest)).Kept() == Account(lane, [], Some([message] + rest)).Kept()
    ensures Account(lane, [], None).Kept() + ([message] + rest) == Account(lane, [], Some([message] + rest)).Kept()
  {
    var front := lane.received + lane.buffer;
    assert front + [] + ([message] + rest) == front + [message] + rest;
    assert lane.received + (lane.buffer + [message]) + [] + rest == front + [message] + rest;
    assert front + [] + [] + ([message] + rest) == front + [message] + rest;
  }

  lemma MovedKeeps<M>(a: Lane<M>, b: Lane<M>, inFlight: seq<M>, queue: Option<seq<M>>)
    requires ConsumerMoved(a, b)
    ensures Account(b, inFlight, queue).Kept() == Account(a, inFlight, queue).Kept()
  {
  }

  /** One attempt to send, and what it makes of the rest of the queue. */
  lemma DrainingStep<M>(a: Account<M>, before: Lane<M>, after: Lane<M>, message: M, rest: seq<M>, r: TrySendResult)
    requires Draining(a, before, [message] + rest)
    requires match r
             case Accepted => SentInto(before, after, message)
             case Full => ConsumerMoved(before, after) && after.open && |after.buffer| >= after.capacity
             case Closed => ConsumerMoved(before, after) && !after.open
    ensures match r
            case Accepted => Draining(a, after, rest)
            case Full => Drained(a, Account(after, [message], Some(rest)), StillBehind)
            case Closed => Drained(a, Account(after.RecordDrop(1 + |rest|), [], None), Gone)
  {
    hide Account.Kept;
    HeadOfQueue(before, message, rest);
    match r {
      case Accepted =>
        MovedKeeps(before.Buffer(message), after, [], Some(rest));
      case Full =>
        MovedKeeps(before, after, [message], Some(rest));
      case Closed =>
        MovedKeeps(before, after, [], None);
        DropsDoNotMatter(after, 1 + |rest|);
    }
  }

  lemma DropsDoNotMatter<M>(lane: Lane<M>, count: nat)
    ensures Account(lane.RecordDrop(count), [], None).Kept() == Account(lane, [], None).Kept()
  {
  }

  lemma DrainingEnds<M>(a: Account<M>, lane: Lane<M>)
    requires Draining(a, lane, [])
    ensures Drained(a, Account(lane, [], None), CaughtUp)
  {
    assert Account(lane, [], None).Kept() == Account(lane, [], Some([])).Kept();
  }

  lemma NoLongerParked<M>(before: Hub<M>, after: Hub<M>, id: SubscriptionId)
    requires before.Closed() && id in before.lanes && InFlight(before.sends, id) == []
    requires after.parked == before.parked - {id} && after.sends == before.sends && after.lanes.Keys == before.lanes.Keys
    requires forall j :: j in before.lanes && j != id ==> ConsumerMoved(before.lanes[j], after.lanes[j])
    ensures OnlyTouches(before, after, id)
    ensures after.Of(id) == Account(after.lanes[id], [], None)
  {
    hide InFlight, ConsumerMoved;
  }

  lemma Reparked<M>(before: Hub<M>, after: Hub<M>, id: SubscriptionId, message: M, rest: seq<M>)
    requires before.Closed() && id in before.lanes && InFlight(before.sends, id) == []
    requires after.parked == (before.parked - {id})[id := rest] && after.sends == before.sends + [SlowSend(id, message)]
    requires after.lanes.Keys == before.lanes.Keys
    requires forall j :: j in before.lanes && j != id ==> ConsumerMoved(before.lanes[j], after.lanes[j])
    ensures OnlyTouches(before, after, id)
    ensures after.Of(id) == Account(after.lanes[id], [message], Some(rest))
  {
    hide InFlight, ConsumerMoved;
    InFlightSnoc(before.sends, SlowSend(id, message), id);
    forall j | j in before.lanes && j != id ensures AccountMoved(before.Of(j), after.Of(j)) {
      InFlightSnoc(before.sends, SlowSend(id, message), j);
    }
  }

  /** Draining a subscription settles it; one that is gone is idle, too. */
  lemma DrainKeepsOrderly<M>(before: Hub<M>, after: Hub<M>, entries: Entries, nextId: nat, id: SubscriptionId, outcome: DrainOutcome)
    requires OrderlyBut(before, entries, nextId, id) && id in before.lanes && id in entries
    requires ReadyToDrain(before.Of(id), entries[id])
    requires OnlyTouches(before, after, id) && Drained(before.Of(id), after.Of(id), outcome)
    ensures after.Closed() && Orderly(after, entries, nextId, {})
    ensures outcome.Gone? ==> Unparked(after, id) == after
  {
    hide InFlight, Settled, ReadyToDrain, Subsequence;
    DrainedIsSettled(before.Of(id), after.Of(id), entries[id], outcome);
    TurnKeepsOrderly(before, after, entries, entries, nextId, id);
  }

  // ----- The end of a grace send -----

  /** What a poll of a pending send may find. */
  predicate Possible<M>(lane: Lane<M>, result: SendResult) {
    match result
    case Sent => |lane.buffer| < lane.capacity
    case TimedOut => true
    case ChannelClosed => !lane.open
  }

  /** The lane after a poll with that result, consumer steps before it included. */
  ghost predicate Polled<M>(a: Lane<M>, b: Lane<M>, message: M, result: SendResult) {
    match result
    case Sent => ConsumerMoved(a.Buffer(message), b) && |b.buffer| <= b.capacity
    case TimedOut => ConsumerMoved(a, b)
    case ChannelClosed => ConsumerMoved(a, b) && !b.open
  }

  lemma PolledAfterMove<M>(a: Lane<M>, b: Lane<M>, message: M, result: SendResult)
    requires ConsumerMoved(a, b)
    requires result.Sent? ==> |b.buffer| < b.capacity
    requires result.ChannelClosed? ==> !b.open
    ensures Polled(a, if result.Sent? then b.Buffer(message) else b, message, result)
  {
    assert a.received + (a.buffer + [message]) == (a.received + a.buffer) + [message];
    assert b.received + (b.buffer + [message]) == (b.received + b.buffer) + [message];
  }

  /** The state when the send of `message` for `id` has just ended with `result`: the subscription
      is parked exactly when it is live, and it would be in order if an unsent message still counted
      as in flight. */
  ghost predicate GraceEnded<M>(hub: Hub<M>, id: SubscriptionId, message: M, result: SendResult, live: Entries)
    requires id in hub.lanes
  {
    && InFlight(hub.sends, id) == []
    && Account(hub.lanes[id], if result.Sent? then [] else [message], hub.Of(id).queue).Sound()
    && (id in hub.parked <==> id in live)
    && (id in live ==> hub.lanes[id].lost == 0 && live[id].maxParked == hub.lanes[id].maxParked)
    && (result.ChannelClosed? ==> !hub.lanes[id].open)
  }

  /** The end of a send for a subscription that was removed meanwhile. */
  function Forgotten<M>(a: Account<M>, result: SendResult): Account<M> {
    Account(if result.Sent? then a.lane else a.lane.RecordLoss(1), [], None)
  }

  /** How a parked subscription goes on when its grace send has ended. */
  ghost predicate Resumed<M>(a: Account<M>, b: Account<M>, result: SendResult, outcome: DrainOutcome) {
    match result
    case Sent => Drained(a, b, outcome)
    case TimedOut => Drained(a.(lane := a.lane.RecordDrop(1)), b, outcome)
    case ChannelClosed => outcome == Gone && b == Account(a.lane.RecordDrop(1 + |a.Waiting()|), [], None)
  }

  /** How a subscription goes on when its grace send is over, consumer steps included. A live one
      keeps a sent message, or has one that timed out counted, and then its queue is drained; on a
      closed channel the message and the queue are counted and it is gone. For a removed one a sent
      message is in the channel, any other is lost. */
  ghost predicate GraceOver<M>(a: Account<M>, b: Account<M>, message: M, live: bool, result: SendResult, outcome: DrainOutcome) {
    if !live then AccountMoved(Account(if result.Sent? then a.lane.Buffer(message) else a.lane.RecordLoss(1), [], None), b)
    else if result.ChannelClosed? then
      && outcome == Gone && !b.lane.open
      && AccountMoved(Account(a.lane.RecordDrop(1 + |a.Waiting()|), [], None), b)
    else Drained(AfterSend(a, message, result), b, outcome)
  }

  /** A pending send that was found complete is over for its subscription, and nobody else is touched;
      if it was not, the channel did not allow that result. */
  ghost predicate CompletesSend<M>(before: Hub<M>, after: Hub<M>, k: nat, result: SendResult, live: set<SubscriptionId>,
                                   ready: bool, outcome: DrainOutcome) {
    && before.Closed() && k < |before.sends| && OnlyTouches(before, after, before.sends[k].id)
    && var id := before.sends[k].id;
    && (!ready ==> after == before.(lanes := after.lanes) && ConsumersMoved(before.lanes, after.lanes) && !Possible(after.lanes[id], result))
    && (ready ==> GraceOver(before.Of(id), after.Of(id), before.sends[k].message, id in live, result, outcome))
  }

  /** The counters after the end of a grace send. A removed subscription counts nothing; a live one loses
      nothing uncounted, and counts a message that timed out, or, its channel being closed, that message
      and the whole queue. Unless it is gone, everything else is kept. */
  lemma GraceCounts<M>(a: Account<M>, b: Account<M>, message: M, live: bool, result: SendResult, outcome: DrainOutcome)
    requires GraceOver(a, b, message, live, result, outcome) && a.inFlight == [message]
    ensures !live ==> b.lane.drops == a.lane.drops && b.lane.lost == a.lane.lost + (if result.Sent? then 0 else 1)
    ensures live ==> b.lane.lost == a.lane.lost
    ensures live && result.ChannelClosed? ==> b.lane.drops == a.lane.drops + 1 + |a.Waiting()| && outcome.Gone?
    ensures live && result.Sent? && !outcome.Gone? ==> b.lane.drops == a.lane.drops && b.Kept() == a.Kept()
    ensures live && result.TimedOut? && !outcome.Gone? ==>
              b.lane.drops == a.lane.drops + 1 && b.Kept() == a.lane.received + a.lane.buffer + a.Waiting()
  {
    if result.Sent? {
      SentKeeps(a.lane, message, a.queue);
    }
  }

  /** What a pending send can be sure of: it may time out at any moment, it goes through if there is room,
      and a dropped receiver is noticed. */
  lemma SendsCanEnd<M>(before: Hub<M>, after: Hub<M>, k: nat, result: SendResult, live: set<SubscriptionId>, ready: bool, outcome: DrainOutcome)
    requires CompletesSend(before, after, k, result, live, ready, outcome)
    ensures before.sends[k].id in before.lanes
    ensures var lane := before.lanes[before.sends[k].id];
            || result == TimedOut
            || (result == Sent && |lane.buffer| < lane.capacity)
            || (result == ChannelClosed && !lane.open)
            ==> ready
  {
    hide InFlight, OnlyTouches, GraceOver;
    var id := before.sends[k].id;
    if !ready {
      assert ConsumerMoved(before.lanes[id], after.lanes[id]);
    }
  }

  lemma PollEndsGrace<M>(before: Hub<M>, after: Hub<M>, live: Entries, nextId: nat, k: nat, result: SendResult)
    requires Orderly(before, live, nextId, {}) && k < |before.sends| && before.sends[k].id in before.lanes
    requires after == Hub(after.lanes, before.parked, Without(before.sends, k)) && after.lanes.Keys == before.lanes.Keys
    requires forall j :: j in before.lanes && j != before.sends[k].id ==> ConsumerMoved(before.lanes[j], after.lanes[j])
    requires Polled(before.lanes[before.sends[k].id], after.lanes[before.sends[k].id], before.sends[k].message, result)
    ensures OnlyTouches(before, after, before.sends[k].id) && OrderlyBut(after, live, nextId, before.sends[k].id)
    ensures GraceEnded(after, before.sends[k].id, before.sends[k].message, result, live)
    ensures before.sends[k].id in after.parked <==> before.sends[k].id in live
    ensures var a, b := before.Of(before.sends[k].id), after.Of(before.sends[k].id);
            && b.queue == a.queue && b.inFlight == [] && a.inFlight == [before.sends[k].message]
            && Polled(a.lane, b.lane, before.sends[k].message, result)
  {
    hide InFlight, ConsumerMoved, Settled, Polled, Account.Sound;
    var id, message := before.sends[k].id, before.sends[k].message;
    assert SettledAt(before, live, {}, id);
    SettledSends(before.Of(id), EntryOf(live, id));
    forall j | j in before.lanes && j != id ensures AccountMoved(before.Of(j), after.Of(j)) {
      InFlightWithout(before.sends, k, j);
    }
    InFlightWithout(before.sends, k, id);
    PolledIsSound(before.Of(id), after.lanes[id], EntryOf(live, id), message, result);
    OrderlyIsOrderlyBut(before, live, nextId, id);
    TurnKeepsOrderly(before, after, live, live, nextId, id);
  }

  lemma PolledIsSound<M>(a: Account<M>, lane: Lane<M>, entry: Option<SubscriberEntry>, message: M, result: SendResult)
    requires Settled(a, entry, false) && a.inFlight == [message] && Polled(a.lane, lane, message, result)
    ensures Account(lane, if result.Sent? then [] else [message], a.queue).Sound()
    ensures entry.Some? <==> a.queue.Some?
    ensures entry.Some? ==> lane.lost == 0 && entry.value.maxParked == lane.maxParked
    ensures result.ChannelClosed? ==> !lane.open
  {
    hide Subsequence, Account.Kept;
    if result.Sent? {
      SentKeeps(a.lane, message, a.queue);
      MovedKeeps(a.lane.Buffer(message), lane, [], a.queue);
    } else {
      MovedKeeps(a.lane, lane, [message], a.queue);
    }
    MovedFits(a.lane, lane, message, result);
  }

  /** A message in flight may as well be in the channel. */
  lemma SentKeeps<M>(lane: Lane<M>, message: M, queue: Option<seq<M>>)
    ensures Account(lane.Buffer(message), [], queue).Kept() == Account(lane, [message], queue).Kept()
  {
    assert lane.received + (lane.buffer + [message]) == (lane.received + lane.buffer) + [message];
  }

  lemma MovedFits<M>(a: Lane<M>, b: Lane<M>, message: M, result: SendResult)
    requires Polled(a, b, message, result) && |a.buffer| <= a.capacity
    ensures |b.buffer| <= b.capacity
  {
  }

  lemma ForgottenIsOrderly<M>(before: Hub<M>, after: Hub<M>, live: Entries, nextId: nat, id: SubscriptionId, message: M, result: SendResult)
    requires OrderlyBut(before, live, nextId, id) && id in before.lanes && id !in before.parked
    requires GraceEnded(before, id, message, result, live)
    requires after == before.(lanes := if result.Sent? then before.lanes else before.lanes[id := before.lanes[id].RecordLoss(1)])
    ensures OnlyTouches(before, after, id)
    ensures after.Of(id) == Forgotten(before.Of(id), result)
    ensures Orderly(after, live, nextId, {})
  {
    hide InFlight, Subsequence, AccountMoved, Account.Sound, Account.Kept;
    ChangeAtOne(before, after, id);
    var held := Account(before.lanes[id], if result.Sent? then [] else [message], None);
    CutKeepsSound(held, after.Of(id));
    assert SettledAt(after, live, {}, id);
    TurnKeepsOrderly(before, after, live, live, nextId, id);
  }

  /** A change to one subscription touches only that one. */
  lemma ChangeAtOne<M>(before: Hub<M>, after: Hub<M>, id: SubscriptionId)
    requires before.Closed() && after.Closed() && id in before.lanes
    requires after.lanes.Keys == before.lanes.Keys && after.sends == before.sends
    requires forall j :: j in before.lanes && j != id ==> after.lanes[j] == before.lanes[j]
    requires forall j :: j != id ==> (j in after.parked <==> j in before.parked)
    requires forall j :: j != id && j in before.parked ==> after.parked[j] == before.parked[j]
    ensures OnlyTouches(before, after, id)
  {
    hide InFlight, ConsumerMoved;
    forall j | j in before.lanes && j != id ensures AccountMoved(before.Of(j), after.Of(j)) {
      ConsumerStays(before.lanes[j]);
    }
  }

  lemma ParkedIsLive<M>(hub: Hub<M>, live: Entries, id: SubscriptionId, message: M, result: SendResult)
    requires id in hub.lanes && id in hub.parked && GraceEnded(hub, id, message, result, live)
    ensures id in live && |hub.lanes[id].buffer| <= hub.lanes[id].capacity
    ensures result.Sent? ==> ReadyToDrain(hub.Of(id), live[id])
  {
  }

  lemma DropCounted<M>(before: Hub<M>, after: Hub<M>, live: Entries, nextId: nat, id: SubscriptionId, message: M)
    requires OrderlyBut(before, live, nextId, id) && id in before.parked && id in before.lanes && id in live
    requires GraceEnded(before, id, message, TimedOut, live)
    requires after == before.(lanes := before.lanes[id := before.lanes[id].RecordDrop(1)])
    ensures OnlyTouches(before, after, id) && OrderlyBut(after, live, nextId, id)
    ensures after.Of(id) == before.Of(id).(lane := before.Of(id).lane.RecordDrop(1))
    ensures ReadyToDrain(after.Of(id), live[id]) && |after.lanes[id].buffer| <= after.lanes[id].capacity
  {
    hide InFlight, Subsequence, Settled, AccountMoved;
    ChangeAtOne(before, after, id);
    AfterSendIsReady(Account(before.lanes[id], [message], before.Of(id).queue), message, TimedOut, live[id]);
    TurnKeepsOrderly(before, after, live, live, nextId, id);
  }

  lemma QueueCounted<M>(before: Hub<M>, after: Hub<M>, live: Entries, nextId: nat, id: SubscriptionId, message: M)
    requires OrderlyBut(before, live, nextId, id) && id in before.parked && id in before.lanes && id in live
    requires GraceEnded(before, id, message, ChannelClosed, live)
    requires after == Hub(before.lanes[id := before.lanes[id].RecordDrop(1 + |before.parked[id]|)], before.parked - {id}, before.sends)
    ensures OnlyTouches(before, after, id) && Orderly(after, live, nextId, {})
    ensures after.Of(id) == Account(before.Of(id).lane.RecordDrop(1 + |before.Of(id).Waiting()|), [], None)
    ensures after.Closed() && Unparked(after, id) == after
  {
    hide InFlight, Subsequence, Settled, AccountMoved, Account.Sound;
    ChangeAtOne(before, after, id);
    var held := Account(before.lanes[id], [message], before.Of(id).queue);
    EverythingCounted(held, live[id]);
    assert after.Of(id) == Account(held.lane.RecordDrop(1 + |held.Waiting()|), [], None);
    assert SettledAt(after, live, {}, id);
    TurnKeepsOrderly(before, after, live, live, nextId, id);
  }

  lemma EverythingCounted<M>(a: Account<M>, entry: SubscriberEntry)
    requires a.Sound() && |a.inFlight| == 1 && a.lane.lost == 0 && entry.maxParked == a.lane.maxParked
    ensures Settled(Account(a.lane.RecordDrop(1 + |a.Waiting()|), [], None), Some(entry), false)
  {
    CutKeepsSound(a, Account(a.lane.RecordDrop(1 + |a.Waiting()|), [], None));
  }

  lemma ResumedIsOver<M>(a: Account<M>, b: Account<M>, c: Account<M>, message: M, result: SendResult, outcome: DrainOutcome)
    requires b.queue == a.queue && b.inFlight == [] && Polled(a.lane, b.lane, message, result)
    requires Resumed(b, c, result, outcome)
    ensures GraceOver(a, c, message, true, result, outcome)
  {
    hide Drained;
    match result {
      case Sent =>
        MovedThenDrained(AfterSend(a, message, result), b, c, outcome);
      case TimedOut =>
        MovedThenDrained(AfterSend(a, message, result), b.(lane := b.lane.RecordDrop(1)), c, outcome);
      case ChannelClosed =>
    }
  }

  lemma ForgottenIsOver<M>(a: Account<M>, b: Account<M>, c: Account<M>, message: M, result: SendResult, outcome: DrainOutcome)
    requires b.queue == a.queue && b.inFlight == [] && Polled(a.lane, b.lane, message, result)
    requires c == Forgotten(b, result)
    ensures GraceOver(a, c, message, false, result, outcome)
  {
  }

  // ----- A new subscription -----

  lemma NewLaneIsOrderly<M>(hub: Hub<M>, entries: Entries, nextId: nat, channelCapacity: nat, maxParked: nat)
    requires Orderly(hub, entries, nextId, {})
    ensures nextId !in hub.lanes
    ensures Orderly(hub.(lanes := hub.lanes[nextId := NewLane(channelCapacity, maxParked)]),
                    entries[nextId := SubscriberEntry(maxParked)], nextId + 1, {})
  {
    hide InFlight, Settled;
    var after := hub.(lanes := hub.lanes[nextId := NewLane(channelCapacity, maxParked)]);
    var entries' := entries[nextId := SubscriberEntry(maxParked)];
    NoneInFlight(hub.sends, nextId);
    forall id | id in after.lanes ensures SettledAt(after, entries', {}, id) {
      if id != nextId {
        assert SettledAt(hub, entries, {}, id);
        assert after.Of(id) == hub.Of(id);
      } else {
        NewLaneIsSettled<M>(channelCapacity, maxParked);
      }
    }
  }

  lemma NewLaneIsSettled<M>(channelCapacity: nat, maxParked: nat)
    ensures Settled(Account(NewLane<M>(channelCapacity, maxParked), [], None), Some(SubscriberEntry(maxParked)), false)
  {
  }

  // ----- Shutting down -----

  /** During shutdown nothing is dispatched or counted; consumers keep what they received. */
  ghost predicate Outlived<M>(before: Hub<M>, after: Hub<M>) {
    after.lanes.Keys == before.lanes.Keys &&
    forall id :: id in before.lanes ==>
      var a, b := before.lanes[id], after.lanes[id];
      && b.dispatched == a.dispatched && b.drops == a.drops && b.capacity == a.capacity && a.received <= b.received && (!a.open ==> !b.open)
  }

  lemma OutlivedRefl<M>(hub: Hub<M>)
    ensures Outlived(hub, hub)
  {
  }

  lemma OutlivedTrans<M>(a: Hub<M>, b: Hub<M>, c: Hub<M>)
    requires Outlived(a, b) && Outlived(b, c)
    ensures Outlived(a, c)
  {
  }

  lemma OutlivedStep<M>(start: Hub<M>, before: Hub<M>, after: Hub<M>, k: nat, result: SendResult, ready: bool, outcome: DrainOutcome)
    requires Outlived(start, before) && before.Closed() && k < |before.sends|
    requires OnlyTouches(before, after, before.sends[k].id)
    requires !ready ==> ConsumersMoved(before.lanes, after.lanes)
    requires ready ==> GraceOver(before.Of(before.sends[k].id), after.Of(before.sends[k].id), before.sends[k].message, false, result, outcome)
    ensures Outlived(start, after) && after.Closed()
  {
    hide InFlight;
    forall id | id in before.lanes
      ensures var a, b := before.lanes[id], after.lanes[id];
              b.dispatched == a.dispatched && b.drops == a.drops && b.capacity == a.capacity && a.received <= b.received && (!a.open ==> !b.open)
    {
      if id != before.sends[k].id {
        assert AccountMoved(before.Of(id), after.Of(id));
      }
    }
    OutlivedTrans(start, before, after);
  }

  lemma DroppedIsOrderly<M>(before: Hub<M>, after: Hub<M>, entries: Entries, nextId: nat)
    requires Orderly(before, entries, nextId, {})
    requires after.lanes.Keys == before.lanes.Keys && after.parked == map[] && after.sends == before.sends
    requires forall id :: id in before.lanes ==>
               after.lanes[id] == if id in before.parked then before.lanes[id].RecordLoss(|before.parked[id]|) else before.lanes[id]
    ensures Orderly(after, map[], nextId, {}) && Outlived(before, after)
  {
    hide InFlight, Settled;
    forall id | id in after.lanes ensures SettledAt(after, map[], {}, id) {
      assert SettledAt(before, entries, {}, id);
      var a := before.Of(id);
      assert after.Of(id) == Account(a.lane.RecordLoss(|a.Waiting()|), a.inFlight, None);
      UnparkedIsSettled(a, EntryOf(entries, id), false);
    }
  }

  lemma PendingDropped<M>(before: Hub<M>, after: Hub<M>, nextId: nat)
    requires Orderly(before, map[], nextId, {}) && before.parked == map[]
    requires after.lanes.Keys == before.lanes.Keys && after.parked == map[] && after.sends == []
    requires forall id :: id in before.lanes ==> after.lanes[id] == before.lanes[id].RecordLoss(|InFlight(before.sends, id)|)
    ensures Orderly(after, map[], nextId, {}) && Outlived(before, after)
  {
    hide Settled;
    forall id | id in after.lanes ensures SettledAt(after, map[], {}, id) {
      assert SettledAt(before, map[], {}, id);
      AllForgotten(before.Of(id));
    }
  }

  lemma AllForgotten<M>(a: Account<M>)
    requires Settled(a, None, false)
    ensures Settled(Account(a.lane.RecordLoss(|a.inFlight|), [], None), None, false)
  {
    CutKeepsSound(a, Account(a.lane.RecordLoss(|a.inFlight|), [], None));
  }

  lemma AllSound<M>(hub: Hub<M>, nextId: nat)
    requires Orderly(hub, map[], nextId, {}) && hub.parked == map[] && hub.sends == []
    ensures forall id :: id in hub.lanes ==> hub.Of(id) == Account(hub.lanes[id], [], None) && hub.Of(id).Sound()
  {
    forall id | id in hub.lanes ensures hub.Of(id).Sound() {
      assert SettledAt(hub, map[], {}, id);
    }
  }

  // ----- Histories over many turns -----

  /** Histories only grow: nothing dispatched or received is forgotten, counters do not go down, and
      a dropped receiver stays dropped. */
  ghost predicate LaneGrew<M>(a: Lane<M>, b: Lane<M>) {
    && b.capacity == a.capacity && b.maxParked == a.maxParked
    && a.received <= b.received && a.dispatched <= b.dispatched
    && a.drops <= b.drops && a.lost <= b.lost
    && (!a.open ==> !b.open)
  }

  ghost predicate Grew<M>(before: Hub<M>, after: Hub<M>) {
    before.lanes.Keys <= after.lanes.Keys && forall id :: id in before.lanes ==> LaneGrew(before.lanes[id], after.lanes[id])
  }

  lemma GrewRefl<M>(hub: Hub<M>)
    ensures Grew(hub, hub)
  {
  }

  lemma GrewTrans<M>(a: Hub<M>, b: Hub<M>, c: Hub<M>)
    requires Grew(a, b) && Grew(b, c)
    ensures Grew(a, c)
  {
  }

  lemma GrewByGrace<M>(before: Hub<M>, after: Hub<M>, k: nat, live: bool, result: SendResult, ready: bool, outcome: DrainOutcome)
    requires before.Closed() && k < |before.sends| && OnlyTouches(before, after, before.sends[k].id)
    requires !ready ==> ConsumersMoved(before.lanes, after.lanes)
    requires ready ==> GraceOver(before.Of(before.sends[k].id), after.Of(before.sends[k].id), before.sends[k].message, live, result, outcome)
    ensures Grew(before, after)
  {
    hide InFlight;
    forall id | id in before.lanes ensures LaneGrew(before.lanes[id], after.lanes[id]) {
      if id != before.sends[k].id {
        assert AccountMoved(before.Of(id), after.Of(id));
      }
    }
  }

  lemma GrewByMoves<M>(before: Hub<M>, after: Hub<M>)
    requires ConsumersMoved(before.lanes, after.lanes)
    ensures Grew(before, after)
  {
  }

  lemma GrewByUnpark<M>(hub: Hub<M>, id: SubscriptionId)
    requires hub.Closed()
    ensures Grew(hub, Unparked(hub, id))
  {
  }

  lemma GrewByLane<M>(before: Hub<M>, after: Hub<M>, id: SubscriptionId, channelCapacity: nat, maxParked: nat)
    requires id !in before.lanes
    requires exists open: bool :: after.lanes == before.lanes[id := NewLane(channelCapacity, maxParked).(open := open)]
    ensures Grew(before, after)
  {
  }

  /** Ids are never used again: what is registered under an old id has been there all along. */
  ghost predicate NoneReturns(before: Registrations, nextId: nat, after: Registrations) {
    forall id :: id in after && id < nextId ==> id in before && after[id] == before[id]
  }

  lemma NoneReturnsRefl(subs: Registrations, nextId: nat)
    ensures NoneReturns(subs, nextId, subs)
  {
  }

  lemma NoneReturnsTrans(a: Registrations, nextA: nat, b: Registrations, nextB: nat, c: Registrations)
    requires NoneReturns(a, nextA, b) && NoneReturns(b, nextB, c) && nextA <= nextB
    ensures NoneReturns(a, nextA, c)
  {
  }
}

/** What becomes of the messages of each subscription.

    Every message dispatched to a subscription is in exactly one of these places: received by the
    consumer, buffered in the channel, in the one pending grace send, parked behind it, counted as
    dropped, or lost without being counted. This module holds the state of all subscriptions as a
    value, says what consumers may do at any moment, and proves the accounting of single steps. */
module Delivery {
  import opened Wrappers
  import opened TopicMatcher

  // ----- Subsequences -----

  /** `a` can be obtained from `b` by deleting elements: nothing is reordered or repeated. */
  ghost predicate Subsequence<M>(a: seq<M>, b: seq<M>)
    decreases |b|
  {
    a == [] ||
    (b != [] &&
     ((a[|a| - 1] == b[|b| - 1] && Subsequence(a[..|a| - 1], b[..|b| - 1])) || Subsequence(a, b[..|b| - 1])))
  }

  lemma SubsequenceSnoc<M>(a: seq<M>, b: seq<M>, x: M)
    requires Subsequence(a, b)
    ensures Subsequence(a + [x], b + [x])
    ensures Subsequence(a, b + [x])
  {
    assert (a + [x])[..|a|] == a;
    assert (b + [x])[..|b|] == b;
  }

  /** Deleting a stretch of a subsequence leaves a subsequence. */
  lemma {:induction false} SubsequenceCut<M>(p: seq<M>, m: seq<M>, q: seq<M>, b: seq<M>)
    requires Subsequence(p + m + q, b)
    ensures Subsequence(p + q, b)
    decreases |b|
  {
    var a := p + m + q;
    if p + q != [] && b != [] {
      var last, rest := |b| - 1, b[..|b| - 1];
      if Subsequence(a, rest) {
        SubsequenceCut(p, m, q, rest);
      } else if q != [] {
        assert a[..|a| - 1] == p + m + q[..|q| - 1];
        SubsequenceCut(p, m, q[..|q| - 1], rest);
        assert (p + q)[..|p + q| - 1] == p + q[..|q| - 1];
      } else if m != [] {
        assert a[..|a| - 1] == p + m[..|m| - 1] + [];
        SubsequenceCut(p, m[..|m| - 1], [], rest);
        assert p + q == p + [];
      } else {
        assert a == p + q;
      }
    }
  }

  /** The elements of `b` at the positions `at`, in ascending order, are those of `a`. */
  ghost predicate Selects<M>(a: seq<M>, b: seq<M>, at: seq<nat>) {
    && |at| == |a|
    && (forall k :: 0 <= k < |at| ==> at[k] < |b| && b[at[k]] == a[k])
    && (forall j, k :: 0 <= j < k < |at| ==> at[j] < at[k])
  }

  /** A subsequence is a selection of positions, each later than the one before. */
  lemma {:induction false} SubsequenceSelects<M>(a: seq<M>, b: seq<M>) returns (at: seq<nat>)
    requires Subsequence(a, b)
    ensures Selects(a, b, at)
    decreases |b|
  {
    if a == [] {
      at := [];
    } else {
      var n, rest := |b| - 1, b[..|b| - 1];
      if Subsequence(a, rest) {
        at := SubsequenceSelects(a, rest);
      } else {
        var front := SubsequenceSelects(a[..|a| - 1], rest);
        at := front + [n];
      }
    }
  }

  lemma {:induction false} SelectionIsSubsequence<M>(a: seq<M>, b: seq<M>, at: seq<nat>)
    requires Selects(a, b, at)
    ensures Subsequence(a, b)
    decreases |b|
  {
    if a != [] {
      var last, rest := at[|at| - 1], b[..|b| - 1];
      if last == |b| - 1 {
        SelectionIsSubsequence(a[..|a| - 1], rest, at[..|at| - 1]);
      } else {
        assert forall k :: 0 <= k < |at| ==> at[k] <= last;
        SelectionIsSubsequence(a, rest, at);
      }
    }
  }

  // ----- One subscription -----

  /** A delivery channel and its drop counter, addressed by the id of the subscription. `open` says
      that the receiving end still exists. The last three fields are the history of the lane; they
      serve the specification only. */
  datatype Lane<M> = Lane(
    capacity: nat,
    maxParked: nat,
    buffer: seq<M>,
    open: bool,
    drops: nat,
    received: seq<M>,
    dispatched: seq<M>,
    lost: nat)
  {
    function RecordDrop(count: nat): Lane<M> { this.(drops := drops + count) }

    function RecordLoss(count: nat): Lane<M> { this.(lost := lost + count) }

    function RecordDispatch(message: M): Lane<M> { this.(dispatched := dispatched + [message]) }

    function Buffer(message: M): Lane<M> { this.(buffer := buffer + [message]) }
  }

  function NewLane<M>(capacity: nat, maxParked: nat): Lane<M> {
    Lane(capacity, maxParked, [], true, 0, [], [], 0)
  }

  /** A lane together with the sends in flight for it and the queue parked behind them. */
  datatype Account<M> = Account(lane: Lane<M>, inFlight: seq<M>, queue: Option<seq<M>>)
  {
    function Waiting(): seq<M> {
      if queue.Some? then queue.value else []
    }

    /** Everything that was neither dropped nor lost, in the order in which the consumer gets it. */
    function Kept(): seq<M> {
      lane.received + lane.buffer + inFlight + Waiting()
    }

    /** Order is kept, every dispatched message is accounted for, and the backlog is bounded. */
    ghost predicate Sound() {
      && |lane.buffer| <= lane.capacity
      && |inFlight| <= 1
      && |Waiting()| <= lane.maxParked
      && Subsequence(Kept(), lane.dispatched)
      && |lane.dispatched| == |Kept()| + lane.drops + lane.lost
    }
  }

  /** What the router keeps for a subscription; the channel and counter are found under its id. */
  datatype SubscriberEntry = SubscriberEntry(maxParked: nat)

  /** The state of one subscription between two turns of the actor. A live one is parked exactly
      when a send is in flight and has lost nothing uncounted; one about to be removed because its
      channel was found closed is idle; a removed one is not parked. */
  ghost predicate Settled<M>(a: Account<M>, entry: Option<SubscriberEntry>, leaving: bool) {
    && a.Sound()
    && (entry.None? ==> a.queue.None?)
    && (entry.Some? ==> entry.value.maxParked == a.lane.maxParked)
    && (entry.Some? && !leaving ==> (a.queue.Some? <==> a.inFlight != []) && a.lane.lost == 0)
    && (leaving ==> a.queue.None? && a.inFlight == [])
  }

  // ----- What consumers do -----

  datatype ConsumerStep = Take(id: SubscriptionId) | Leave(id: SubscriptionId)

  type Lanes<M> = map<SubscriptionId, Lane<M>>

  /** A consumer takes the oldest message of its channel, or drops its receiver. */
  function AfterStep<M>(lanes: Lanes<M>, step: ConsumerStep): Lanes<M> {
    if step.id !in lanes || !lanes[step.id].open then lanes
    else
      var lane := lanes[step.id];
      match step
      case Take(id) =>
        if lane.buffer == [] then lanes
        else lanes[id := lane.(buffer := lane.buffer[1..], received := lane.received + [lane.buffer[0]])]
      case Leave(id) => lanes[id := lane.(open := false)]
  }

  function AfterSteps<M>(lanes: Lanes<M>, steps: seq<ConsumerStep>): Lanes<M> {
    if steps == [] then lanes else AfterStep(AfterSteps(lanes, steps[..|steps| - 1]), steps[|steps| - 1])
  }

  /** All that consumer steps can do to a lane. */
  ghost predicate ConsumerMoved<M>(a: Lane<M>, b: Lane<M>) {
    && b == a.(buffer := b.buffer, received := b.received, open := b.open)
    && a.received <= b.received
    && a.received + a.buffer == b.received + b.buffer
    && (!a.open ==> b == a)
  }

  ghost predicate ConsumersMoved<M>(before: Lanes<M>, after: Lanes<M>) {
    before.Keys == after.Keys && forall id :: id in before ==> ConsumerMoved(before[id], after[id])
  }

  lemma ConsumerMovedTrans<M>(a: Lane<M>, b: Lane<M>, c: Lane<M>)
    requires ConsumerMoved(a, b) && ConsumerMoved(b, c)
    ensures ConsumerMoved(a, c)
  {
  }

  lemma StepIsMove<M>(lanes: Lanes<M>, step: ConsumerStep)
    ensures ConsumersMoved(lanes, AfterStep(lanes, step))
  {
    if step.id in lanes && lanes[step.id].buffer != [] {
      var lane := lanes[step.id];
      assert lane.received + lane.buffer == lane.received + [lane.buffer[0]] + lane.buffer[1..];
    }
  }

  lemma {:induction false} StepsAreMoves<M>(lanes: Lanes<M>, steps: seq<ConsumerStep>)
    ensures ConsumersMoved(lanes, AfterSteps(lanes, steps))
  {
    hide ConsumerMoved;
    if steps != [] {
      var init := steps[..|steps| - 1];
      StepsAreMoves(lanes, init);
      StepIsMove(AfterSteps(lanes, init), steps[|steps| - 1]);
      ConsumersMovedTrans(lanes, AfterSteps(lanes, init), AfterSteps(lanes, steps));
    } else {
      ConsumersMovedRefl(lanes);
    }
  }

  /** Conversely, whatever is allowed to happen to a lane can be done by its consumer, step by step. */
  lemma {:induction false} MovesAreSteps<M>(lanes: Lanes<M>, id: SubscriptionId, moved: Lane<M>) returns (steps: seq<ConsumerStep>)
    requires id in lanes && ConsumerMoved(lanes[id], moved)
    ensures AfterSteps(lanes, steps) == lanes[id := moved]
    decreases |moved.received|, if moved.open then 0 else 1
  {
    var lane := lanes[id];
    if moved == lane {
      steps := [];
      assert lanes[id := moved] == lanes;
    } else if !moved.open {
      var still := moved.(open := true);
      var earlier := MovesAreSteps(lanes, id, still);
      steps := earlier + [Leave(id)];
      assert steps[..|steps| - 1] == earlier;
      assert lanes[id := still][id := moved] == lanes[id := moved];
    } else {
      var n := |moved.received|;
      LastWasTaken(lane, moved);
      var before := moved.(buffer := [moved.received[n - 1]] + moved.buffer, received := moved.received[..n - 1]);
      var earlier := MovesAreSteps(lanes, id, before);
      steps := earlier + [Take(id)];
      assert steps[..|steps| - 1] == earlier;
      assert before.buffer[1..] == moved.buffer && before.received + [before.buffer[0]] == moved.received;
      assert lanes[id := before][id := moved] == lanes[id := moved];
    }
  }

  /** If something was taken, the last message received came from the buffer. */
  lemma LastWasTaken<M>(a: Lane<M>, b: Lane<M>)
    requires ConsumerMoved(a, b) && b != a && b.open
    ensures b.received != []
    ensures var n := |b.received|;
            ConsumerMoved(a, b.(buffer := [b.received[n - 1]] + b.buffer, received := b.received[..n - 1]))
  {
    NothingTaken(a, b);
    var n := |b.received|;
    assert b.received == b.received[..n - 1] + [b.received[n - 1]];
    assert b.received[..n - 1] + ([b.received[n - 1]] + b.buffer) == b.received + b.buffer;
  }

  lemma NothingTaken<M>(a: Lane<M>, b: Lane<M>)
    requires ConsumerMoved(a, b)
    ensures |b.received| == |a.received| ==> b.received == a.received && b.buffer == a.buffer
  {
    if |b.received| == |a.received| {
      assert a.buffer == (a.received + a.buffer)[|a.received|..];
      assert b.buffer == (b.received + b.buffer)[|b.received|..];
    }
  }

  lemma ConsumersMovedRefl<M>(lanes: Lanes<M>)
    ensures ConsumersMoved(lanes, lanes)
  {
  }

  lemma ConsumersMovedTrans<M>(a: Lanes<M>, b: Lanes<M>, c: Lanes<M>)
    requires ConsumersMoved(a, b) && ConsumersMoved(b, c)
    ensures ConsumersMoved(a, c)
  {
    forall id | id in a ensures ConsumerMoved(a[id], c[id]) {
      ConsumerMovedTrans(a[id], b[id], c[id]);
    }
  }

  ghost predicate AccountMoved<M>(a: Account<M>, b: Account<M>) {
    b.inFlight == a.inFlight && b.queue == a.queue && ConsumerMoved(a.lane, b.lane)
  }

  /** Consumers cannot disturb the accounting. */
  lemma MoveKeepsSettled<M>(a: Account<M>, b: Account<M>, entry: Option<SubscriberEntry>, leaving: bool)
    requires Settled(a, entry, leaving) && AccountMoved(a, b)
    ensures Settled(b, entry, leaving)
  {
    assert b.Kept() == a.Kept();
  }

  // ----- All subscriptions -----

  datatype SlowSend<M> = SlowSend(id: SubscriptionId, message: M)

  /** The messages of the pending sends for one subscription. */
  function InFlight<M>(sends: seq<SlowSend<M>>, id: SubscriptionId): seq<M> {
    if sends == [] then []
    else
      var last := sends[|sends| - 1];
      InFlight(sends[..|sends| - 1], id) + (if last.id == id then [last.message] else [])
  }

  lemma InFlightSnoc<M>(sends: seq<SlowSend<M>>, send: SlowSend<M>, id: SubscriptionId)
    ensures InFlight(sends + [send], id) == InFlight(sends, id) + (if send.id == id then [send.message] else [])
  {
    assert (sends + [send])[..|sends|] == sends;
  }

  lemma {:induction false} InFlightConcat<M>(a: seq<SlowSend<M>>, b: seq<SlowSend<M>>, id: SubscriptionId)
    ensures InFlight(a + b, id) == InFlight(a, id) + InFlight(b, id)
  {
    if b == [] {
      assert a + b == a;
    } else {
      var init, last := b[..|b| - 1], b[|b| - 1];
      InFlightConcat(a, init, id);
      assert a + b == (a + init) + [last];
      InFlightSnoc(a + init, last, id);
    }
  }

  /** Taking a completed send out of the set. */
  function Without<M>(sends: seq<SlowSend<M>>, k: nat): seq<SlowSend<M>>
    requires k < |sends|
  {
    sends[..k] + sends[k + 1..]
  }

  lemma InFlightWithout<M>(sends: seq<SlowSend<M>>, k: nat, id: SubscriptionId)
    requires k < |sends|
    ensures id != sends[k].id ==> InFlight(Without(sends, k), id) == InFlight(sends, id)
    ensures id == sends[k].id && |InFlight(sends, id)| <= 1 ==>
              InFlight(Without(sends, k), id) == [] && InFlight(sends, id) == [sends[k].message]
  {
    hide InFlight;
    InFlightConcat(sends[..k], sends[k + 1..], id);
    InFlightSnoc(sends[..k], sends[k], id);
    InFlightConcat(sends[..k] + [sends[k]], sends[k + 1..], id);
    assert sends == sends[..k] + [sends[k]] + sends[k + 1..];
  }

  /** The lanes, the parked queues and the pending slow sends of the whole actor. */
  datatype Hub<M> = Hub(lanes: Lanes<M>, parked: map<SubscriptionId, seq<M>>, sends: seq<SlowSend<M>>)
  {
    ghost predicate Closed() {
      parked.Keys <= lanes.Keys && forall k :: 0 <= k < |sends| ==> sends[k].id in lanes
    }

    function Of(id: SubscriptionId): Account<M>
      requires id in lanes
    {
      Account(lanes[id], InFlight(sends, id), if id in parked then Some(parked[id]) else None)
    }
  }

  type Entries = map<SubscriptionId, SubscriberEntry>

  function EntryOf(entries: Entries, id: SubscriptionId): Option<SubscriberEntry> {
    if id in entries then Some(entries[id]) else None
  }

  ghost predicate SettledAt<M>(hub: Hub<M>, entries: Entries, leaving: set<SubscriptionId>, id: SubscriptionId)
    requires id in hub.lanes
  {
    Settled(hub.Of(id), EntryOf(entries, id), id in leaving)
  }

  ghost predicate Frame<M>(hub: Hub<M>, entries: Entries, nextId: nat) {
    && hub.Closed()
    && entries.Keys <= hub.lanes.Keys
    && forall id :: id in hub.lanes ==> id < nextId
  }

  /** The invariant of the actor: every subscription ever created is settled. */
  ghost predicate Orderly<M>(hub: Hub<M>, entries: Entries, nextId: nat, leaving: set<SubscriptionId>) {
    Frame(hub, entries, nextId) && forall id :: id in hub.lanes ==> SettledAt(hub, entries, leaving, id)
  }

  /** The same, with the subscription `x` in the middle of a turn. */
  ghost predicate OrderlyBut<M>(hub: Hub<M>, entries: Entries, nextId: nat, x: SubscriptionId) {
    Frame(hub, entries, nextId) && forall id :: id in hub.lanes && id != x ==> SettledAt(hub, entries, {}, id)
  }

  /** Apart from consumer steps, only `x` is touched. */
  ghost predicate OnlyTouches<M>(before: Hub<M>, after: Hub<M>, x: SubscriptionId) {
    && after.lanes.Keys == before.lanes.Keys
    && after.Closed()
    && forall id :: id in before.lanes && id != x ==> AccountMoved(before.Of(id), after.Of(id))
  }

  lemma OnlyTouchesTrans<M>(a: Hub<M>, b: Hub<M>, c: Hub<M>, x: SubscriptionId)
    requires OnlyTouches(a, b, x) && OnlyTouches(b, c, x)
    ensures OnlyTouches(a, c, x)
  {
    hide ConsumerMoved;
    forall id | id in a.lanes && id != x ensures AccountMoved(a.Of(id), c.Of(id)) {
      assert AccountMoved(a.Of(id), b.Of(id)) && AccountMoved(b.Of(id), c.Of(id));
      ConsumerMovedTrans(a.lanes[id], b.lanes[id], c.lanes[id]);
    }
  }

  /** A turn that leaves `x` settled, and touches nothing else, keeps the invariant. */
  lemma TurnKeepsOrderly<M>(before: Hub<M>, after: Hub<M>, entries: Entries, entries': Entries, nextId: nat, x: SubscriptionId)
    requires OrderlyBut(before, entries, nextId, x) && OnlyTouches(before, after, x)
    requires entries'.Keys <= entries.Keys
    requires forall id :: id != x ==> EntryOf(entries', id) == EntryOf(entries, id)
    ensures OrderlyBut(after, entries', nextId, x)
    ensures x in after.lanes && SettledAt(after, entries', {}, x) ==> Orderly(after, entries', nextId, {})
  {
    hide Settled, AccountMoved;
    forall id | id in after.lanes && id != x ensures SettledAt(after, entries', {}, id) {
      assert SettledAt(before, entries, {}, id);
      MoveKeepsSettled(before.Of(id), after.Of(id), EntryOf(entries, id), false);
    }
  }

  // ----- Reading the invariant -----

  lemma OrderlyIsClosed<M>(hub: Hub<M>, entries: Entries, nextId: nat)
    requires Orderly(hub, entries, nextId, {})
    ensures hub.Closed()
  {
  }

  lemma OrderlyButIsClosed<M>(hub: Hub<M>, entries: Entries, nextId: nat, id: SubscriptionId)
    requires OrderlyBut(hub, entries, nextId, id)
    ensures hub.Closed()
  {
  }

  lemma OrderlyIsOrderlyBut<M>(hub: Hub<M>, entries: Entries, nextId: nat, id: SubscriptionId)
    requires Orderly(hub, entries, nextId, {})
    ensures OrderlyBut(hub, entries, nextId, id)
  {
  }

  lemma ConsumersKeepOrderly<M>(before: Hub<M>, after: Hub<M>, entries: Entries, nextId: nat, id: SubscriptionId)
    requires Orderly(before, entries, nextId, {})
    requires after == before.(lanes := after.lanes) && ConsumersMoved(before.lanes, after.lanes)
    ensures Orderly(after, entries, nextId, {}) && OnlyTouches(before, after, id)
  {
    hide InFlight, ConsumerMoved, Settled;
    forall j | j in before.lanes ensures SettledAt(after, entries, {}, j) && AccountMoved(before.Of(j), after.Of(j)) {
      assert SettledAt(before, entries, {}, j);
      MoveKeepsSettled(before.Of(j), after.Of(j), EntryOf(entries, j), false);
    }
  }

  lemma NothingIsOrderly<M>()
    ensures Orderly(Hub<M>.Hub(map[], map[], []), map[], 0, {})
  {
  }

  lemma OnlyTouchesKeepsLanes<M>(before: Hub<M>, after: Hub<M>, id: SubscriptionId)
    requires OnlyTouches(before, after, id)
    ensures after.lanes.Keys == before.lanes.Keys && after.Closed()
  {
  }

  lemma SettledEntry<M>(hub: Hub<M>, entries: Entries, nextId: nat, id: SubscriptionId)
    requires Orderly(hub, entries, nextId, {}) && id in entries
    ensures hub.Closed() && id in hub.lanes && Settled(hub.Of(id), Some(entries[id]), false)
  {
    assert SettledAt(hub, entries, {}, id);
  }

  lemma IdleOrParked<M>(hub: Hub<M>, id: SubscriptionId, entry: SubscriberEntry)
    requires id in hub.lanes && Settled(hub.Of(id), Some(entry), false)
    ensures id in hub.parked || InFlight(hub.sends, id) == []
  {
  }

  lemma SettledSends<M>(a: Account<M>, entry: Option<SubscriberEntry>)
    requires Settled(a, entry, false)
    ensures |a.inFlight| <= 1
  {
  }

  // ----- One message handed to one subscription -----

  datatype Verdict = Buffered | Queued | Overflowed | GraceStarted | Rejected

  /** The lane as the consumers may have left it, apart from its log and counters. */
  ghost predicate SameLane<M>(a: Lane<M>, b: Lane<M>) {
    && b.capacity == a.capacity && b.maxParked == a.maxParked
    && a.received <= b.received
    && |b.buffer| <= b.capacity
    && (!a.open ==> !b.open)
  }

  /** What dispatching `message` does to a subscription, consumer steps before and after included.
      A parked subscription queues the message or, its queue being full, drops and counts it. One
      that is not parked gets it into its channel; or, the channel being full, a grace send is
      started; or, the channel being closed, the message is lost. */
  ghost predicate Delivered<M>(a: Account<M>, b: Account<M>, message: M, verdict: Verdict) {
    && SameLane(a.lane, b.lane)
    && b.lane.dispatched == a.lane.dispatched + [message]
    && b.lane.drops == a.lane.drops + (if verdict.Overflowed? then 1 else 0)
    && b.lane.lost == a.lane.lost + (if verdict.Rejected? then 1 else 0)
    && b.Kept() == a.Kept() + (if verdict.Overflowed? || verdict.Rejected? then [] else [message])
    && match verdict
       case Buffered => a.queue.None? && b.queue.None? && b.inFlight == a.inFlight && a.lane.open
       case Queued => a.queue.Some? && |a.Waiting()| < a.lane.maxParked && b.queue == Some(a.Waiting() + [message]) && b.inFlight == a.inFlight
       case Overflowed => a.queue.Some? && |a.Waiting()| >= a.lane.maxParked && b.queue == a.queue && b.inFlight == a.inFlight
       case GraceStarted => a.queue.None? && |a.lane.buffer| >= a.lane.capacity && b.queue == Some([]) && b.inFlight == [message] && a.lane.open
       case Rejected => a.queue.None? && !b.lane.open && b.queue.None? && b.inFlight == a.inFlight
  }

  lemma MovedThenDelivered<M>(a: Account<M>, b: Account<M>, c: Account<M>, message: M, verdict: Verdict)
    requires AccountMoved(a, b) && Delivered(b, c, message, verdict)
    ensures Delivered(a, c, message, verdict)
  {
    assert b.Kept() == a.Kept();
  }

  lemma DeliveredThenMoved<M>(a: Account<M>, b: Account<M>, c: Account<M>, message: M, verdict: Verdict)
    requires Delivered(a, b, message, verdict) && AccountMoved(b, c)
    ensures Delivered(a, c, message, verdict)
  {
    assert c.Kept() == b.Kept();
  }

  /** Dispatching keeps the accounting: order, conservation, bounds; only a rejected message is lost
      without being counted, and then the subscription is about to be removed. */
  lemma DeliveredKeepsSettled<M>(a: Account<M>, b: Account<M>, entry: SubscriberEntry, message: M, verdict: Verdict)
    requires Settled(a, Some(entry), false) && Delivered(a, b, message, verdict)
    ensures Settled(b, Some(entry), verdict.Rejected?)
  {
    hide Subsequence, Account.Kept;
    SubsequenceSnoc(a.Kept(), a.lane.dispatched, message);
    assert a.Kept() + [] == a.Kept();
    DeliveredBounds(a, b, entry, message, verdict);
  }

  lemma DeliveredBounds<M>(a: Account<M>, b: Account<M>, entry: SubscriberEntry, message: M, verdict: Verdict)
    requires Settled(a, Some(entry), false) && Delivered(a, b, message, verdict)
    ensures |b.inFlight| <= 1 && |b.Waiting()| <= b.lane.maxParked
    ensures !verdict.Rejected? ==> (b.queue.Some? <==> b.inFlight != [])
    ensures verdict.Rejected? ==> b.queue.None? && b.inFlight == []
  {
    hide Subsequence, Account.Kept;
  }

  // ----- A parked queue after its head is done -----

  datatype DrainOutcome = CaughtUp | StillBehind | Gone

  /** What draining does to a subscription whose grace send is over. Either everything went into the
      channel and the subscription is no longer parked; or the channel filled up, the next message
      is in flight and the rest still queued; or the channel was found closed, and the messages not
      yet sent are dropped and counted. */
  ghost predicate Drained<M>(a: Account<M>, b: Account<M>, outcome: DrainOutcome) {
    && SameLane(a.lane, b.lane)
    && b.lane.dispatched == a.lane.dispatched
    && b.lane.lost == a.lane.lost
    && match outcome
       case CaughtUp => b.queue.None? && b.inFlight == [] && b.Kept() == a.Kept() && b.lane.drops == a.lane.drops
       case StillBehind =>
         && b.queue.Some? && |b.inFlight| == 1 && |b.Waiting()| < |a.Waiting()|
         && |b.lane.buffer| == b.lane.capacity
         && b.Kept() == a.Kept() && b.lane.drops == a.lane.drops
       case Gone =>
         && b.queue.None? && b.inFlight == [] && !b.lane.open
         && b.Kept() <= a.Kept() && |a.Kept()| == |b.Kept()| + (b.lane.drops - a.lane.drops)
         && a.lane.drops < b.lane.drops <= a.lane.drops + |a.Waiting()|
  }

  /** The accounting of a subscription whose grace send has just ended. */
  ghost predicate ReadyToDrain<M>(a: Account<M>, entry: SubscriberEntry) {
    && a.queue.Some? && a.inFlight == []
    && |a.Waiting()| <= a.lane.maxParked
    && Subsequence(a.Kept(), a.lane.dispatched)
    && |a.lane.dispatched| == |a.Kept()| + a.lane.drops + a.lane.lost
    && a.lane.lost == 0 && entry.maxParked == a.lane.maxParked
  }

  lemma DrainedIsSettled<M>(a: Account<M>, b: Account<M>, entry: SubscriberEntry, outcome: DrainOutcome)
    requires ReadyToDrain(a, entry) && Drained(a, b, outcome)
    ensures Settled(b, Some(entry), false)
    ensures outcome.Gone? ==> Settled(b, None, false)
  {
    if outcome.Gone? {
      var tail := a.Kept()[|b.Kept()|..];
      assert a.Kept() == b.Kept() + tail + [];
      SubsequenceCut(b.Kept(), tail, [], a.lane.dispatched);
      assert b.Kept() + [] == b.Kept();
    }
  }

  // ----- A completed grace send -----

  datatype SendResult = Sent | TimedOut | ChannelClosed

  /** The account when a grace send for `message` has just ended: a sent message is in the channel,
      a message that timed out is dropped and counted. */
  function AfterSend<M>(a: Account<M>, message: M, result: SendResult): Account<M> {
    Account(if result.Sent? then a.lane.Buffer(message) else a.lane.RecordDrop(1), [], a.queue)
  }

  /** Ending the grace send of a parked subscription leaves an account that is ready to be drained. */
  lemma AfterSendIsReady<M>(a: Account<M>, message: M, result: SendResult, entry: SubscriberEntry)
    requires a.Sound() && a.queue.Some? && a.inFlight == [message]
    requires a.lane.lost == 0 && entry.maxParked == a.lane.maxParked
    ensures ReadyToDrain(AfterSend(a, message, result), entry)
  {
    var b := AfterSend(a, message, result);
    if result.Sent? {
      assert b.Kept() == a.Kept();
    } else {
      assert a.Kept() == (a.lane.received + a.lane.buffer) + [message] + a.Waiting();
      SubsequenceCut(a.lane.received + a.lane.buffer, [message], a.Waiting(), a.lane.dispatched);
      assert b.Kept() == a.lane.received + a.lane.buffer + a.Waiting();
    }
  }

  lemma MovedThenDrained<M>(a: Account<M>, b: Account<M>, c: Account<M>, outcome: DrainOutcome)
    requires AccountMoved(a, b) && Drained(b, c, outcome)
    ensures Drained(a, c, outcome)
  {
    assert b.Kept() == a.Kept();
  }

  /** Forgetting some kept messages, each of them counted or lost, keeps the accounting. */
  lemma CutKeepsSound<M>(a: Account<M>, b: Account<M>)
    requires a.Sound() && b.lane == a.lane.(drops := b.lane.drops, lost := b.lane.lost)
    requires b.inFlight == a.inFlight || b.inFlight == []
    requires b.Waiting() == a.Waiting() || b.Waiting() == []
    requires b.lane.drops + b.lane.lost - a.lane.drops - a.lane.lost == |a.inFlight| - |b.inFlight| + |a.Waiting()| - |b.Waiting()|
    ensures b.Sound()
  {
    var front := a.lane.received + a.lane.buffer;
    if b.Waiting() != a.Waiting() {
      assert a.Kept() == (front + a.inFlight) + a.Waiting() + [];
      SubsequenceCut(front + a.inFlight, a.Waiting(), [], a.lane.dispatched);
      assert front + a.inFlight + [] == front + a.inFlight;
    } else {
      assert a.Kept() == front + a.inFlight + a.Waiting();
    }
    if b.inFlight != a.inFlight {
      SubsequenceCut(front, a.inFlight, b.Waiting(), a.lane.dispatched);
      assert b.Kept() == front + b.Waiting();
    }
  }

  // ----- Parking several subscriptions at once -----

  function Ids<M>(sends: seq<SlowSend<M>>): (ids: set<SubscriptionId>)
    ensures forall k :: 0 <= k < |sends| ==> sends[k].id in ids
  {
    set k | 0 <= k < |sends| :: sends[k].id
  }

  /** The state once a grace send and an empty queue are set up for every entry of `parks`. */
  function WithParks<M>(hub: Hub<M>, parks: seq<SlowSend<M>>): Hub<M> {
    Hub(hub.lanes, hub.parked + (map id | id in Ids(parks) :: []), hub.sends + parks)
  }

  lemma WithParksOf<M>(hub: Hub<M>, parks: seq<SlowSend<M>>, id: SubscriptionId)
    requires id in hub.lanes
    ensures WithParks(hub, parks).Of(id) ==
            Account(hub.lanes[id], InFlight(hub.sends, id) + InFlight(parks, id), if id in Ids(parks) then Some([]) else hub.Of(id).queue)
  {
    InFlightConcat(hub.sends, parks, id);
  }

  lemma WithNoParks<M>(hub: Hub<M>)
    ensures WithParks(hub, []) == hub
  {
    assert hub.sends + [] == hub.sends;
  }

  lemma IdsSnoc<M>(sends: seq<SlowSend<M>>, send: SlowSend<M>)
    ensures Ids(sends + [send]) == Ids(sends) + {send.id}
  {
    var more := sends + [send];
    forall id ensures id in Ids(more) <==> id in Ids(sends) || id == send.id {
      if id in Ids(sends) {
        var k :| 0 <= k < |sends| && sends[k].id == id;
        assert more[k].id == id;
      }
      assert more[|sends|].id == send.id;
    }
  }

  lemma WithOneMorePark<M>(hub: Hub<M>, parks: seq<SlowSend<M>>, park: SlowSend<M>)
    ensures WithParks(hub, parks + [park]) == Hub(hub.lanes, WithParks(hub, parks).parked[park.id := []], WithParks(hub, parks).sends + [park])
  {
    hide Ids;
    IdsSnoc(parks, park);
    assert (hub.sends + parks) + [park] == hub.sends + (parks + [park]);
  }

  lemma {:induction false} NoneInFlight<M>(sends: seq<SlowSend<M>>, id: SubscriptionId)
    requires id !in Ids(sends)
    ensures InFlight(sends, id) == []
  {
    if sends != [] {
      var init, last := sends[..|sends| - 1], sends[|sends| - 1];
      assert sends == init + [last];
      forall j | j in Ids(init) ensures j in Ids(sends) {
        var k :| 0 <= k < |init| && init[k].id == j;
        assert sends[k].id == j;
      }
      NoneInFlight(init, id);
    }
  }

  /** Parks that are only planned do not matter to a step on another subscription. */
  lemma PlannedParksCommute<M>(before: Hub<M>, after: Hub<M>, parks: seq<SlowSend<M>>, x: SubscriptionId)
    requires OnlyTouches(before, after, x) && before.Closed() && Ids(parks) <= before.lanes.Keys
    ensures OnlyTouches(WithParks(before, parks), WithParks(after, parks), x)
    ensures WithParks(before, parks).Closed()
  {
    hide ConsumerMoved;
    forall id | id in before.lanes
      ensures id != x ==> AccountMoved(WithParks(before, parks).Of(id), WithParks(after, parks).Of(id))
    {
      WithParksOf(before, parks, id);
      WithParksOf(after, parks, id);
      assert id != x ==> AccountMoved(before.Of(id), after.Of(id));
    }
  }

  /** Planning one more park touches that subscription only. */
  lemma NewParkTouchesOne<M>(hub: Hub<M>, parks: seq<SlowSend<M>>, park: SlowSend<M>)
    requires hub.Closed() && Ids(parks) <= hub.lanes.Keys && park.id in hub.lanes
    requires park.id !in Ids(parks) && InFlight(hub.sends, park.id) == []
    ensures OnlyTouches(WithParks(hub, parks), WithParks(hub, parks + [park]), park.id)
    ensures WithParks(hub, parks + [park]).Of(park.id) == Account(hub.lanes[park.id], [park.message], Some([]))
  {
    hide InFlight, ConsumerMoved, Ids;
    IdsSnoc(parks, park);
    NoneInFlight(parks, park.id);
    InFlightSnoc(parks, park, park.id);
    forall id | id in hub.lanes
      ensures id != park.id ==> AccountMoved(WithParks(hub, parks).Of(id), WithParks(hub, parks + [park]).Of(id))
      ensures id == park.id ==> WithParks(hub, parks + [park]).Of(id) == Account(hub.lanes[id], [park.message], Some([]))
    {
      InFlightSnoc(parks, park, id);
      WithParksOf(hub, parks, id);
      WithParksOf(hub, parks + [park], id);
      ConsumerStays(hub.lanes[id]);
    }
    StaysClosed(hub, parks + [park]);
  }

  lemma ConsumerStays<M>(lane: Lane<M>)
    ensures ConsumerMoved(lane, lane)
  {
  }

  lemma StaysClosed<M>(hub: Hub<M>, parks: seq<SlowSend<M>>)
    requires hub.Closed() && Ids(parks) <= hub.lanes.Keys
    ensures WithParks(hub, parks).Closed()
  {
  }

  // ----- What the invariant says to a user -----

  /** For a live subscription: every dispatched message was received, is waiting somewhere, or is
      counted as dropped; nothing queued is stranded, because a send is in flight ahead of it; and the
      backlog never exceeds the channel capacity, one in-flight send, and the parking limit. */
  lemma LiveSubscription<M>(hub: Hub<M>, entries: Entries, nextId: nat, id: SubscriptionId)
    requires Orderly(hub, entries, nextId, {}) && id in entries
    ensures var lane, queued := hub.lanes[id], if id in hub.parked then |hub.parked[id]| else 0;
            && |lane.dispatched| == |lane.received| + |lane.buffer| + |InFlight(hub.sends, id)| + queued + lane.drops
            && |lane.buffer| + |InFlight(hub.sends, id)| + queued <= lane.capacity + 1 + entries[id].maxParked
            && (id in hub.parked <==> |InFlight(hub.sends, id)| == 1)
  {
    assert SettledAt(hub, entries, {}, id);
  }

  /** For every subscription there ever was: what the consumer got and may still get, the parked queue
      included, is in the order of dispatch, at most one send is in flight for it, and when it is not live no queue is left. */
  lemma EverySubscription<M>(hub: Hub<M>, entries: Entries, nextId: nat, id: SubscriptionId)
    requires Orderly(hub, entries, nextId, {}) && id in hub.lanes
    ensures Subsequence(hub.Of(id).Kept(), hub.lanes[id].dispatched)
    ensures Subsequence(hub.lanes[id].received + hub.lanes[id].buffer + InFlight(hub.sends, id), hub.lanes[id].dispatched)
    ensures |InFlight(hub.sends, id)| <= 1
    ensures InFlight(hub.sends, id) != [] && id !in hub.parked ==> id !in entries && id < nextId
  {
    assert SettledAt(hub, entries, {}, id);
    var a := hub.Of(id);
    var front := hub.lanes[id].received + hub.lanes[id].buffer + InFlight(hub.sends, id);
    assert a.Kept() == front + a.Waiting() + [];
    SubsequenceCut(front, a.Waiting(), [], hub.lanes[id].dispatched);
    assert front + [] == front;
  }
}

# Topic routing and delivery: a Dafny model

This project models two parts of the typed MQTT client and the seam between them.

**The topic engine** (`mqtt-topic-engine`). Topics are split into levels with offsets; patterns are
parsed, printed, bound, formatted and matched; a prefix tree with literal, `+` and `#` branches is grown
and pruned in place; a router keeps the tree in step with a flat table of subscriptions and says when
the broker must be told something.

**The routing actor** (`core/src/routing`). Each subscription has a bounded channel, at most one send
waiting out a grace period, a bounded queue parked behind it, and a drop counter. Consumers take
messages and disappear concurrently; sends complete, time out or fail; subscriptions are removed while
a send is still in flight.

The matching rules are those of sections 4.7.1.2 and 4.7.1.3 of MQTT 3.1.1. The `$` rule of section
4.7.2 is not implemented by the engine and is not modelled.

## How the model is built

| file | contents |
|---|---|
| `Segments.dfy` | splitting and joining on `/`, with offsets |
| `TopicPatternItem.dfy`, `TopicMatch.dfy`, `TopicPatternPath.dfy` | one segment; topics and match results; whole patterns, with a positional reference matcher `Matches` |
| `PatternLaws.dfy` | laws that relate several pattern operations |
| `MatchCache.dfy` | the cache in front of matching, with arbitrary eviction |
| `TopicMatcher.dfy` | the tree: heap nodes with a ghost picture of the whole tree as a value |
| `TrieLaws.dfy` | canonical trees: no empty table, no dead node |
| `TopicRouter.dfy` | the router, a class over the tree and the flat table |
| `BrokerCoverage.dfy` | what the broker was last asked for, and what that covers |
| `Delivery.dfy` | the account of one subscription's messages, and the invariant over all of them |
| `Turns.dfy`, `Dispatch.dfy` | the effect of each kind of turn on the accounts |
| `Runs.dfy` | runs of the actor as values, and the theorems about all runs |
| `Backpressure.dfy` | what a subscriber gets for the capacity and the limit it asked for |
| `Scenarios.dfy` | a concrete run that refutes a comment |
| `SubscriptionManager.dfy` | the actor, a class whose handlers update its fields in place |
| `Subscriber.dfy` | the consumer's end: lag reports and unsubscribe requests |

Every message dispatched to a subscription is in exactly one place: received, buffered, in flight,
parked, counted as dropped, or lost uncounted. `Delivery.Account` lists these places in the order in
which the consumer gets the messages, and `Delivery.Orderly` is the invariant: for every id ever
issued the kept messages are a subsequence of the dispatched ones, the counts add up, and the backlog
is bounded; live ids have lost nothing uncounted and are parked exactly when a send is in flight.

Consumers act between turns, as an event of their own, and during turns: `SubscriptionManagerActor.Interfere`
inserts an arbitrary sequence of their steps before every single channel operation, also inside the
loops of `HandleSend` and `DrainParked`.

A run (`Runs.IsRun`) is a list of events with the states before and after each and with its outcome:
`Runs.TurnDone` says for every kind of event exactly how the two states differ, and every state on the
way satisfies the invariant. `SubscriptionManagerActor.Turn` performs one arbitrary event as `TurnDone`
says, `Serve` yields such a run for any sequence of events, and `Run` adds the shutdown. The theorems
about runs are lemmas over these values, so they hold in every state reachable between turns.

Everything that passes between client and broker is logged in a ghost field: each request with whether
it was accepted, and each loss of the broker's session. `BrokerCoverage.Replay` folds the log into the
map from wire patterns to the QoS last requested; a successful request replaces an earlier one for the
same pattern (section 3.8.4 of MQTT 3.1.1), and success means that the request was queued.

## Where code and documentation differ

The model follows the code.

* `unsubscribe` answers "the whole router is empty", while its documentation says that no other
  subscription for the pattern remains. `BrokerCoverage.UnsubscribeAnswer` proves the sound direction
  and exactly when the two differ: others are live and none of them has the pattern. The pattern then
  stays requested (`BrokerCoverage.PatternStaysRequested`); `BrokerCoverage.UnusedPatternStaysRequested`
  is a case.
* "Parked if and only if one slow send is in flight" fails for removed subscriptions: `Scenarios.StaleSend`
  is a run that ends so. `Turns.ParkedMeansInFlight` shows that it is right for live subscriptions and
  stays right through an unsubscribe exactly if the subscription was not parked.
* Bound values are not validated. A value such as `a/b` gives two trie slots one wire pattern, so a
  request for the second slot can lower the QoS that a subscription in the first relies on
  (`BrokerCoverage.DirtyBindingDemotes`). Coverage survives a request exactly when it demotes nobody
  (`BrokerCoverage.SubscribeCoverage`), and always when every bound value is a single level other than
  `+` and `#`.
* Printing a pattern segment by segment and parsing it again loses a `+` wildcard whose name ends in
  `:#`; `PatternLaws.PatternRoundTrip` holds exactly when there is none. Such names do pass the parser:
  `{a:#}}` is accepted (`PatternLaws.AmbiguousPattern`) and prints like the `#` wildcard `{a:#}`.
* `try_match` and `format_topic` ignore parameter bindings; only the trie slot and the wire pattern
  apply them. `PatternLaws.BindingNarrows` relates the two readings.

## Model

| member | source | states |
|---|---|---|
| Segments.SplitJoin | mqtt-topic-engine/src/topic_match.rs:31-36 | Splitting the join of slash-free levels gives the levels back. |
| Segments.JoinSplit | mqtt-topic-engine/src/topic_match.rs:31-36 | Joining the levels of a topic gives the topic back. |
| TopicMatch.LevelsAreSplit | mqtt-topic-engine/src/topic_match.rs:31-36 | The offset-carrying levels of a parsed topic are the slash-separated pieces of its path, and joining them gives the path. |
| TopicMatch.SliceIsJoin | mqtt-topic-engine/src/topic_match.rs:124-141 | The offset arithmetic stays inside the path, and the slice from one level to a later one is the slash-join of the levels between. |
| TopicMatch.ParamIsJoinOfLevels | mqtt-topic-engine/src/topic_match.rs:124-161 | For ranges of length 0, 1 and more, the extracted text is the slash-join of the captured levels. |
| TopicPatternItem.ParsedIsFormed | mqtt-topic-engine/src/topic_pattern_item.rs:144-176 | Accepted literals hold no wildcard character; names are non-empty and lose their braces. |
| TopicPatternItem.ParseItemReads | mqtt-topic-engine/src/topic_pattern_item.rs:144-176 | The parser reads a segment as an item exactly if its characters say so: `+` or `#` alone, opening braces, a name, and closing marks, or text without a wildcard sign and without braces. |
| TopicPatternItem.ParseItemRefuses | mqtt-topic-engine/src/topic_pattern_item.rs:144-176 | A segment is refused exactly if it is braces without a name, or holds a wildcard sign inside other text; the error shows the segment. |
| TopicPatternItem.ItemRoundTrip | mqtt-topic-engine/src/topic_pattern_item.rs:104-176 | Printing a segment and parsing it gives it back if and only if it is not a `+` whose name ends in `:#`. |
| TopicPatternItem.AmbiguousNameParses | mqtt-topic-engine/src/topic_pattern_item.rs:144-176 | Names that end in `:#` come out of the parser, and they print like a `#` wildcard. |
| TopicPatternPath.NewFromString | mqtt-topic-engine/src/topic_pattern_path.rs:98-170 | Accepts exactly the non-blank templates whose segments all parse, with distinct names and `#` only last; every segment is read by its characters, the first one without meaning is reported, otherwise the first check that fails. |
| TopicPatternPath.ApplyBindingsToSegments | mqtt-topic-engine/src/topic_pattern_path.rs:264-284 | Replacing one binding at a time gives the pointwise resolution of all bindings. |
| TopicPatternPath.ResolveBoundSegments | mqtt-topic-engine/src/topic_pattern_path.rs:256-261 | The segments with every bound `+` wildcard replaced by its value. |
| TopicPatternPath.ToMqttSubscriptionPattern | mqtt-topic-engine/src/topic_pattern_path.rs:375-388 | The loop builds the slash-join of the wire forms. |
| TopicPatternPath.TryMatchInternal | mqtt-topic-engine/src/topic_pattern_path.rs:543-597 | Succeeds exactly when the topic fits under the positional reference matcher, with one range per wildcard in pattern order; otherwise the error is that of the first misfit, with the position, the text of the literal and the level of the topic. |
| TopicPatternPath.FirstMismatchDecides | mqtt-topic-engine/src/topic_pattern_path.rs:549-565 | If a literal differs from its level and everything before fits, the result is a mismatch at that position with these two texts. |
| TopicPatternPath.MatchesByHead | mqtt-topic-engine/src/topic_pattern_path.rs:543-597 | The reference matcher reads items one after the other: a literal takes an equal level, `+` any one level, a final `#` all that is left, be it nothing. |
| TopicPatternPath.FormatTopic | mqtt-topic-engine/src/topic_pattern_path.rs:338-373 | Fails on a wrong parameter count, then on `#`; otherwise the join of the levels with the k-th parameter for the k-th wildcard. |
| PatternLaws.AcceptedIsWellFormed | mqtt-topic-engine/src/topic_pattern_path.rs:98-170 | Every accepted pattern has `#` only last, distinct names, and slash-free, wildcard-free literals. |
| PatternLaws.GrammarDecides | mqtt-topic-engine/src/topic_pattern_path.rs:98-170 | Which templates are accepted, and with which segments, by their characters alone. |
| PatternLaws.PatternRoundTrip | mqtt-topic-engine/src/topic_pattern_path.rs:98-170 | Printing the segments with their names and parsing again gives the same segments if and only if no `+` name ends in `:#`. |
| PatternLaws.AmbiguousPattern | mqtt-topic-engine/src/topic_pattern_path.rs:98-170 | For every name there is an accepted template whose printed form is parsed as another pattern. |
| PatternLaws.FormatThenMatch | mqtt-topic-engine/src/topic_pattern_path.rs:338-373 | A formatted topic matches its `#`-free pattern if and only if the parameters are slash-free, and then the k-th extracted parameter is the k-th one given. |
| PatternLaws.MatchThenFormat | mqtt-topic-engine/src/topic_pattern_path.rs:543-597 | Any topic that matches a `#`-free pattern is the one formatted from its extracted parameters. |
| PatternLaws.HashCapturesRemainder | mqtt-topic-engine/src/topic_pattern_path.rs:543-597 | A final `#` captures the joined remainder of the topic, which is empty at the parent level. |
| PatternLaws.NamedParamIsText | mqtt-topic-engine/src/topic_match.rs:154-163 | A named `+` yields its level under its name, a named `#` the joined remainder, be it empty, one level or more. |
| PatternLaws.UnknownNameHasNoParam | mqtt-topic-engine/src/topic_match.rs:154-163 | A name that no wildcard bears yields nothing. |
| PatternLaws.MatchExtracts | mqtt-topic-engine/src/topic_pattern_path.rs:543-597 | A match of an accepted pattern extracts the text under every wildcard, once by position, in order, and by name if it has one, and nothing else. |
| PatternLaws.CheckPatternCompatibility | mqtt-topic-engine/src/topic_pattern_path.rs:410-429 | Accepts exactly the parsable patterns with the same wildcards in the same order; a mismatch names both templates. |
| PatternLaws.CompatiblePatternsTranslate | mqtt-topic-engine/src/topic_pattern_path.rs:406-429 | The parameters of a topic, put into a compatible pattern, give a topic of that pattern with the same parameters, for wildcards of the same kind and name. |
| PatternLaws.BindingNarrows | mqtt-topic-engine/src/topic_pattern_path.rs:256-284 | A topic fits the bound segments if and only if it fits the unbound ones and every bound parameter extracts to its value. |
| PatternLaws.SlotAndWireAgree | mqtt-topic-engine/src/topic_pattern_path.rs:241-284 | If bound values are single levels other than `+` and `#`, two patterns ask the broker for the same string if and only if they lead to the same slot of the trie. |
| PatternLaws.FilterReadsBack | mqtt-topic-engine/src/topic_pattern_path.rs:241-284 | If bound values are single levels other than `+` and `#`, the wire pattern read as a topic filter accepts exactly the topics that the bound pattern matches. |
| MatchCache.LruPut | mqtt-topic-engine/src/topic_pattern_path.rs:484-527 | A bounded cache: the new entry is in it, and at most one other entry, and only from a full cache, is evicted. |
| MatchCache.CachedPattern.TryMatch | mqtt-topic-engine/src/topic_pattern_path.rs:484-527 | The cached answer for a parsed topic is the uncached one, with the text under every wildcard, and the cache stays sound under any eviction. |
| MatchCache.CachedPattern.BindParameter | mqtt-topic-engine/src/topic_pattern_path.rs:444-475 | Succeeds exactly for the name of a `+` wildcard; then that name has the new value and all other names keep theirs; a failure changes nothing and names the parameter and the template. |
| MatchCache.CachedPattern.Clone | mqtt-topic-engine/src/topic_pattern_path.rs:78-94 | The clone has the same pattern and an empty, sound cache of the same capacity. |
| MatchCache.CachedPattern.WithCacheStrategy | mqtt-topic-engine/src/topic_pattern_path.rs:433-441 | Reparsing the template cannot fail and gives the same pattern and bindings with another cache. |
| TopicMatcher.SlotFitsIsMatches | mqtt-topic-engine/src/topic_matcher.rs:242-280 | The tree's reading of a pattern agrees with the positional matching rules. |
| TopicMatcher.TopicMatcherNode.GetOrCreateSubscriptionTable | mqtt-topic-engine/src/topic_matcher.rs:145-174 | Creates exactly the missing nodes on the way and the missing table, and nothing else. |
| TopicMatcher.TopicMatcherNode.UpdateNode | mqtt-topic-engine/src/topic_matcher.rs:177-239 | Fails, changing nothing, exactly when there is no table; otherwise updates that table only, prunes the dead nodes, and answers true exactly when the receiver holds nothing afterwards. |
| TopicMatcher.TopicMatcherNode.CollectMatchingSubscriptions | mqtt-topic-engine/src/topic_matcher.rs:242-280 | Appends exactly the tables of the fitting slots below the node, each slot once. |
| TopicMatcher.TopicMatcherNode.FindByPath | mqtt-topic-engine/src/topic_matcher.rs:283-291 | From the root: exactly the tables whose pattern fits the topic. |
| TopicMatcher.TopicMatcherNode.EmptyIsVacant | mqtt-topic-engine/src/topic_matcher.rs:135-143 | The emptiness test is true exactly when the node holds no subscription and has no child. |
| TopicMatcher.PruneOneMore | mqtt-topic-engine/src/topic_matcher.rs:196-235 | Pruning up to a node is pruning up to its child and then dropping the child if that is left dead. |
| TrieLaws.ContentsDetermineTrie | mqtt-topic-engine/src/topic_matcher.rs:135-239 | Two canonical trees with the same tables are the same tree. |
| TrieLaws.VacantRootIsEmptyTrie | mqtt-topic-engine/src/topic_matcher.rs:196-235 | The root of a canonical tree is dead exactly when the tree holds nothing at all. |
| TrieLaws.AddKeepsIndex | mqtt-topic-engine/src/topic_router.rs:134-167 | Storing a new id keeps the tree canonical and an index of exactly the live subscriptions. |
| TrieLaws.RemoveKeepsIndex | mqtt-topic-engine/src/topic_router.rs:175-199 | Removing an id with pruning keeps the tree canonical and in step; the root is dead exactly when no id is left. |
| TrieLaws.AddThenRemove | mqtt-topic-engine/src/topic_router.rs:157-195 | Subscribing and unsubscribing the same id gives the very same tree back. |
| TopicRouter.SubscriptionsDetermineTrie | mqtt-topic-engine/src/topic_router.rs:134-199 | The tree is a function of the live subscriptions, whatever the history. |
| TopicRouter.SearchIsScan | mqtt-topic-engine/src/topic_router.rs:206-222 | The tables found hold exactly the ids that a scan of the flat table selects, each in one table only. |
| TopicRouter.TopicRouter.AddSubscription | mqtt-topic-engine/src/topic_router.rs:134-167 | Registers under the next, unused id; the broker must be asked exactly when, at QoS 0, nobody is live in the slot, at QoS 1, all there are at QoS 0, at QoS 2, none there is at QoS 2; the missing-entry panic is unreachable. |
| TopicRouter.TopicRouter.Unsubscribe | mqtt-topic-engine/src/topic_router.rs:175-199 | Removes exactly this subscription and answers whether the router is now empty; an unknown id changes nothing; the tree update never fails. |
| TopicRouter.TopicRouter.GetSubscribers | mqtt-topic-engine/src/topic_router.rs:206-222 | Exactly the live subscriptions whose bound pattern fits the topic, each once, with its registration and payload; the lookup cannot miss. |
| TopicRouter.TopicRouter.GetTopicsForResubscribe | mqtt-topic-engine/src/topic_router.rs:272-298 | In any visiting order: the wire patterns in use, each with the highest QoS among its subscribers (2 if one of them has 2, 0 if all have 0, else 1); its keys are the topics to unsubscribe. |
| TopicRouter.TopicRouter.Cleanup | mqtt-topic-engine/src/topic_router.rs:302-308 | An empty, valid router that numbers afresh. |
| BrokerCoverage.SubscribeCoverage | core/src/routing/subscription_manager.rs:443-470 | A successful request keeps all live subscriptions covered if and only if it demotes none of them. |
| BrokerCoverage.ReplayIsLastWord | core/src/routing/subscription_manager.rs:443-470 | The broker holds a filter at a QoS exactly if it granted that and since then neither granted nor gave up the filter nor lost the session. |
| BrokerCoverage.CoveredTopicsReach | core/src/routing/subscription_manager.rs:443-470 | For every topic that a covered subscription accepts, the broker holds a filter that fits it at a sufficient QoS. |
| BrokerCoverage.DemotionUncovers | core/src/routing/subscription_manager.rs:443-470 | An accepted request that demotes a live subscription leaves it uncovered. |
| BrokerCoverage.SilentSubscribeIsCovered | mqtt-topic-engine/src/topic_router.rs:142-156 | A subscription for which the broker is not asked is covered already. |
| BrokerCoverage.PlainNeverDemotes | mqtt-topic-engine/src/topic_router.rs:142-156 | If bound values are single levels other than `+` and `#`, a request that the router asks for demotes nobody. |
| BrokerCoverage.DirtyBindingDemotes | mqtt-topic-engine/src/topic_pattern_path.rs:444-475 | A concrete bound value with a slash in it costs a live subscription its QoS. |
| BrokerCoverage.ResubscribeKeepsCoverage | core/src/routing/subscription_manager.rs:493-513 | Each single request of a resubscription keeps coverage. |
| BrokerCoverage.ResubscribeRestoresCoverage | core/src/routing/subscription_manager.rs:493-524 | Once every request went through, everything is covered, whatever the broker knew before. |
| BrokerCoverage.UnsubscribeAnswer | mqtt-topic-engine/src/topic_router.rs:169-199 | The answer that the tree computes is affirmative only if nobody else has the pattern, and differs from that documented answer exactly when other subscriptions are live and none of them has the pattern. |
| BrokerCoverage.PatternStaysRequested | core/src/routing/subscription_manager.rs:526-559 | The pattern of a removed subscription stays requested exactly when another subscription is live or the unsubscribe request failed. |
| BrokerCoverage.UnusedPatternStaysRequested | mqtt-topic-engine/src/topic_router.rs:169-199 | A concrete case: the pattern is unused, yet the broker keeps it, whatever the client answers. |
| Delivery.StepsAreMoves | core/src/routing/subscriber.rs:123-131 | Whatever consumers do, received plus buffered stays the same sequence, received only grows, and nothing else changes. |
| Delivery.MovesAreSteps | core/src/routing/subscriber.rs:123-131 | Conversely, every such change of a channel can be done by its consumer, taking messages and leaving. |
| Delivery.SubsequenceSelects | core/src/routing/subscription_manager.rs:277-368 | A subsequence is a selection of ascending positions, so order statements mean that nothing is reordered, repeated or made up. |
| Delivery.MoveKeepsSettled | core/src/routing/subscription_manager.rs:154-163 | Consumers cannot disturb order, conservation or bounds. |
| Delivery.DeliveredKeepsSettled | core/src/routing/subscription_manager.rs:610-636 | Dispatching keeps order, conservation and bounds; only a message rejected by a closed channel is lost uncounted. |
| Delivery.DrainedIsSettled | core/src/routing/subscription_manager.rs:319-347 | After draining, a subscription is parked exactly when a send is in flight, with everything accounted for. |
| Delivery.LiveSubscription | core/src/routing/subscription_manager.rs:148-163 | For a live subscription, dispatched = received + buffered + in flight + parked + dropped; the backlog is at most capacity + 1 + parking limit; it is parked exactly when one send is in flight. |
| Delivery.EverySubscription | core/src/routing/subscription_manager.rs:277-368 | For every id ever issued, received ++ buffered ++ in flight ++ parked is a subsequence of dispatched; at most one send is in flight; an in-flight send that is not parked belongs to a removed, old id. |
| Turns.ParkedMeansInFlight | core/src/routing/subscription_manager.rs:154-163 | "Parked if and only if one send is in flight" is true of a live subscription, and after its removal exactly if it was not parked before. |
| Turns.UnparkedIsUncounted | core/src/routing/subscription_manager.rs:526-537 | A removal changes no channel and no drop counter; only the queue of that subscription goes. |
| Turns.GraceCounts | core/src/routing/subscription_manager.rs:277-312 | A removed subscription counts nothing when its send ends; a live one counts a time-out as one, a closed channel as the message and the queue, and keeps the rest. |
| Turns.SendsCanEnd | core/src/routing/subscription_manager.rs:354-368 | A pending send can always time out, goes through if there is room, and notices a dropped receiver. |
| Scenarios.StaleSend | core/src/routing/subscription_manager.rs:526-537 | A run from the empty actor, a channel for one message, two messages and an unsubscribe, that ends with a send in flight for a subscription that is not parked. |
| Runs.TurnAddsShare | core/src/routing/subscription_manager.rs:220-264 | Every event dispatches to every subscription exactly its share: the message made for it if the event publishes to a topic that its live registration accepts, else nothing. |
| Runs.RunDispatchesPublished | core/src/routing/subscription_manager.rs:561-652 | After any run, dispatched is what was dispatched before followed by what was published to the subscription while it was live, in order, no more and no less. |
| Runs.ConsumersSeeWhatIsPublished | core/src/routing/subscription_manager.rs:277-368 | End to end: received ++ buffered ++ in flight ++ parked is a subsequence of what was published to the subscription. |
| Runs.PublishedIsAddressed | core/src/routing/subscription_manager.rs:561-652 | What is published to a subscription comes, one for one and in order, from exactly the events whose topic its live registration accepts; each message has the data of its event and the text under each wildcard of the unbound pattern. |
| Runs.KeptIsAddressed | core/src/routing/subscription_manager.rs:561-652 | The same for what the consumer of a new subscription has received or may still get: ascending events, and the data and parameters of each. |
| Runs.RunGrows | core/src/routing/subscription_manager.rs:220-264 | Between any two states of a run histories and counters only grow, dropped receivers stay dropped, and what is registered under an id issued earlier has been registered all along. |
| Runs.RemovedStaysRemoved | core/src/routing/subscription_manager.rs:277-284 | An issued id that is not live in some state of a run is never live, parked or dispatched to again, so a send left in flight for it is harmless. |
| Runs.UnsubscribeLeavesSend | core/src/routing/subscription_manager.rs:526-537 | An unsubscribe event leaves the comment about parking true of the removed id exactly if it was not parked before. |
| Runs.RunCovers | core/src/routing/subscription_manager.rs:430-524 | Every live subscription is covered as long as the broker has the full picture: had at the start or regained by a complete resubscription, with no session lost and no accepted demoting request since. |
| Runs.PlainRunCovers | core/src/client/async_client.rs:193-215 | With plain bindings, every live subscription is covered whenever no session was lost, or a resubscription was completed since the last loss. |
| Runs.LiveTopicsReach | core/src/client/async_client.rs:193-215 | Under the same conditions the broker holds, for every live subscription and every topic that it accepts, a filter that the topic fits at a sufficient QoS. |
| Runs.ShutdownEndsInOrder | core/src/routing/subscription_manager.rs:376-428 | After the shutdown dispatched is still exactly what was published, what consumers have or find is in that order, and every message is accounted for. |
| Backpressure.BacklogAsRequested | core/src/routing/subscription_manager.rs:430-442 | Over any run the backlog of a live subscription is at most the channel capacity that it asked for, plus one, plus its parking limit. |
| Backpressure.FirstMessagesAreHeld | core/src/routing/subscription_manager.rs:625-636 | As long as the consumer does nothing its channel holds exactly the first messages dispatched, up to the capacity asked for, and until it is full nothing is dropped, lost, parked or in flight. |
| Backpressure.FirstMessagesAreBuffered | core/src/routing/subscription_manager.rs:625-636 | With a consumer that does nothing a message is buffered exactly if fewer than the capacity came before it, and the first one beyond starts a grace send. |
| SubscriptionManager.SubscriptionManagerActor.TrySend | core/src/routing/subscription_manager.rs:625-636 | A bounded channel: full only at capacity, closed only when the receiver is gone, otherwise the message is appended; consumers may run first. |
| SubscriptionManager.SubscriptionManagerActor.LookUpTopicPath | core/src/routing/subscription_manager.rs:565-574 | The topic cache always returns what parsing the string gives. |
| SubscriptionManager.SubscriptionManagerActor.MatchSelected | core/src/routing/subscription_manager.rs:595-609 | A selected subscription always matches on its unbound segments: the "failed to match" arm is dead; the message carries the data and the text under each wildcard. |
| SubscriptionManager.SubscriptionManagerActor.Deliver | core/src/routing/subscription_manager.rs:610-636 | One subscriber: queued or overflowed if parked, else buffered, rejected, or handed back for a grace send when the channel is full. |
| SubscriptionManager.SubscriptionManagerActor.HandleSend | core/src/routing/subscription_manager.rs:561-652 | Exactly the live subscriptions whose bound pattern fits the topic get the message, each once with its verdict, carrying the data and the text under each of its wildcards; those found closed are removed; nobody else is touched. |
| SubscriptionManager.SubscriptionManagerActor.PushSlowSend | core/src/routing/subscription_manager.rs:354-368 | Adds a pending send for a subscription that has none. |
| SubscriptionManager.SubscriptionManagerActor.DrainParked | core/src/routing/subscription_manager.rs:319-347 | The queue goes into the channel in order; it stops only at a full channel, with the next message in flight, or at a closed one, with the rest counted and the subscription removed. |
| SubscriptionManager.SubscriptionManagerActor.HandleSlowSend | core/src/routing/subscription_manager.rs:277-312 | A completion for a removed id does nothing; a time-out is counted and the queue drained; a closed channel costs the message and the queue, counted, and the subscription. |
| SubscriptionManager.SubscriptionManagerActor.NextSlowSend | core/src/routing/subscription_manager.rs:226-228 | A send completes and is handled under any interleaving; nobody else is touched; during shutdown it only leaves the pending set. |
| SubscriptionManager.SubscriptionManagerActor.HandleUnsubscribe | core/src/routing/subscription_manager.rs:526-559 | Drops what is parked, uncounted, and the registration; leaves the channels, the drop counters and the send in flight alone; asks the broker once to forget the pattern exactly when the router became empty; coverage survives. |
| SubscriptionManager.SubscriptionManagerActor.HandleSubscribe | core/src/routing/subscription_manager.rs:430-491 | `Runs.SubscribeDone`: a never-used id with an empty channel of the capacity and parking limit asked for; the broker is asked exactly when needed; a refusal or a lost answer leaves the registrations as they were; what was covered stays covered exactly if no accepted request demotes a live subscription. |
| SubscriptionManager.SubscriptionManagerActor.HandleResubscribeAll | core/src/routing/subscription_manager.rs:493-524 | One request for each wire pattern in use, at its highest QoS; complete exactly if all are accepted, and then everything is covered; otherwise coverage is kept. |
| SubscriptionManager.SubscriptionManagerActor.DrainPending | core/src/routing/subscription_manager.rs:405-422 | The shutdown loop ends because pending sends only get fewer; unless the time is up none is left; nothing is dispatched or counted in it. |
| SubscriptionManager.SubscriptionManagerActor.CleanupActiveSubscriptions | core/src/routing/subscription_manager.rs:376-428 | Each wire pattern in use is unsubscribed once; afterwards no sender of any channel exists, and every account is in order. |
| SubscriptionManager.SubscriptionManagerActor.Turn | core/src/routing/subscription_manager.rs:220-264 | Performs any event as `Runs.TurnDone` says for its kind, handlers' promises included, and keeps the invariant. |
| SubscriptionManager.SubscriptionManagerActor.Serve | core/src/routing/subscription_manager.rs:220-264 | Any sequence of events yields a run with all its states; what is dispatched to each subscription is exactly what was published to it; every live subscription is covered whenever the broker has the full picture, reconnects included. |
| SubscriptionManager.SubscriptionManagerActor.Run | core/src/routing/subscription_manager.rs:220-269 | A run and the shutdown: no sender is left; what consumers have or still find was published to them in that order; every message published to them is received, buffered, counted or lost. |
| Subscriber.ReportsAddUp | core/src/routing/subscriber.rs:136-145 | Over any looks at the counter the lag reports add up to the last value seen, so no drop is reported twice. |
| Subscriber.LooksAscend | core/src/routing/subscriber.rs:133-145 | In any run the counter values that a consumer sees ascend and never exceed the counter, so the subtraction cannot go below zero. |
| Subscriber.NothingUnexplained | core/src/routing/subscriber.rs:123-145 | Over any run and any looks at the counter the reports never exceed it, and every message published to a live subscription was received, reported as missed, is dropped and still to be reported, or is on its way. |
| Subscriber.Subscriber.TakeLag | core/src/routing/subscriber.rs:136-145 | For a counter that is not below the watermark, which `LooksAscend` gives for every run: reports exactly the drops since the last report and moves the watermark to the counter. |
| Subscriber.Subscriber.FollowRun | core/src/routing/subscriber.rs:136-145 | Looking at the counter at any moments of a run: no look is below the one before, and the reports add up to the watermark. |
| Subscriber.Subscriber.Recv | core/src/routing/subscriber.rs:123-131 | A new call: lag first, then the oldest buffered message, and the end only when nothing is buffered and no sender is left; to the actor it is a consumer step. |
| Subscriber.Subscriber.Resume | core/src/routing/subscriber.rs:130 | A waiting call goes on with what the channel has, without another look at the counter. |
| Subscriber.Subscriber.ReceiveRest | core/src/routing/subscriber.rs:123-131 | After the shutdown a consumer, waiting or not, gets exactly its buffered messages in order and then the end; all drops are reported by then, unless a waiting call found nothing buffered. |
| Subscriber.Subscriber.UnsubscribeImmediate | core/src/routing/subscriber.rs:174-191 | At most one request ever reaches the actor; a refused one can be repeated. |
| Subscriber.Subscriber.Unsubscribe | core/src/routing/subscriber.rs:161-171 | Sends one request unless that was done before; dropping the subscriber then adds none. |
| Subscriber.Subscriber.Drop | core/src/routing/subscriber.rs:194-218 | A last attempt, made only if no request was sent before. |

## Left out

- Subscription ids and drop counters are unbounded; the wrap-around at 64 bits is not modelled.
- Offsets count characters instead of bytes; `/` is a single byte, so slices agree.
- Channels and drop counters are found under the id of their subscription instead of through shared handles, so aliasing of senders is not captured; the timeout of an entry is not kept.
- Time: a grace send may end as sent, timed out or closed at any moment at which the channel allows it, and the shutdown limit of 500 ms is an arbitrary early stop.
- Each registered pattern carries no cache object of its own; matching in the actor is uncached, and `MatchCache.CachedPattern` shows that the cached answer is the same.
- Which entry an LRU cache evicts is arbitrary; recency is not tracked.
- The order in which hash tables are visited is arbitrary.
- `MessageMeta`, payload decoding, serializers and the typed wrappers around the subscriber are not part of this model.
- The broker, sockets, reconnect backoff and connection state; a reconnect without a session is an event after which the broker holds nothing.
- Bounded command and unsubscribe queues, and with them liveness and deadlock freedom.
- Formatting errors of the standard library, which cannot occur when writing to a string.
- `collect_active_subscriptions`, `get_active_subscriptions` and `get_topic_by_id`: plain traversals and lookups.
- The generation of typed accessors by `macros/`.

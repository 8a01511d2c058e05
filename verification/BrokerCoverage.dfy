/** What the broker was last asked for, and whether that covers the live subscriptions.

    A repeated SUBSCRIBE for the same topic filter replaces the earlier one (section 3.8.4 of
    MQTT 3.1.1), so a request can also lower the QoS at which a filter is held. */
module BrokerCoverage {
  import opened Wrappers
  import opened Segments
  import opened TopicPatternItem
  import opened TopicMatch
  import opened TopicPatternPath
  import opened PatternLaws
  import opened TopicMatcher
  import opened TrieLaws
  import opened Router = TopicRouter

  /** The topic filters that the broker holds for this client, each with its QoS. */
  type BrokerState = map<string, QoS>

  /** What passes between client and broker: requests, accepted or not, and the loss of a session. */
  datatype Exchange =
    | SubscribeTo(topic: string, qos: QoS, accepted: bool)
    | UnsubscribeFrom(topic: string, accepted: bool)
    | SessionGone

  function Apply(broker: BrokerState, e: Exchange): BrokerState {
    match e
    case SubscribeTo(topic, qos, accepted) => if accepted then broker[topic := qos] else broker
    case UnsubscribeFrom(topic, accepted) => if accepted then broker - {topic} else broker
    case SessionGone => map[]
  }

  /** What the broker was last asked for, after all these exchanges. */
  function Replay(asked: seq<Exchange>): BrokerState {
    if asked == [] then map[] else Apply(Replay(asked[..|asked| - 1]), asked[|asked| - 1])
  }

  lemma ReplaySnoc(asked: seq<Exchange>, e: Exchange)
    ensures Replay(asked + [e]) == Apply(Replay(asked), e)
  {
    assert (asked + [e])[..|asked|] == asked;
  }

  /** The exchange says something about this filter: it was granted or given up, or everything was lost. */
  ghost predicate Concerns(e: Exchange, filter: string) {
    match e
    case SubscribeTo(topic, _, accepted) => accepted && topic == filter
    case UnsubscribeFrom(topic, accepted) => accepted && topic == filter
    case SessionGone => true
  }

  /** The i-th exchange granted the filter at this QoS, and nothing said since concerns it. */
  ghost predicate LastWord(asked: seq<Exchange>, filter: string, qos: QoS, i: nat) {
    i < |asked| && asked[i] == SubscribeTo(filter, qos, true) && forall k :: i < k < |asked| ==> !Concerns(asked[k], filter)
  }

  /** The broker holds a filter at a QoS exactly if that is the last word about it. */
  lemma {:induction false} ReplayIsLastWord(asked: seq<Exchange>, filter: string, qos: QoS)
    ensures filter in Replay(asked) && Replay(asked)[filter] == qos <==> exists i: nat :: LastWord(asked, filter, qos, i)
  {
    if asked != [] {
      var n, init := |asked| - 1, asked[..|asked| - 1];
      ReplayIsLastWord(init, filter, qos);
      if Concerns(asked[n], filter) {
        assert LastWord(asked, filter, qos, n) <==> asked[n] == SubscribeTo(filter, qos, true);
        assert forall i: nat :: i < n ==> !LastWord(asked, filter, qos, i);
      } else {
        assert forall i: nat :: LastWord(asked, filter, qos, i) ==> i < n && LastWord(init, filter, qos, i);
        assert forall i: nat :: LastWord(init, filter, qos, i) ==> LastWord(asked, filter, qos, i);
      }
    }
  }

  /** What the client is asked when `id` is removed: to give up its pattern, if nothing is left. */
  function Farewell(subs: Registrations, id: SubscriptionId, accepted: bool): seq<Exchange> {
    if id in subs && subs - {id} == map[] then [UnsubscribeFrom(subs[id].pattern.MqttPattern(), accepted)] else []
  }

  /** After removals the client was asked once, for the pattern of a removed subscription, if these
      removals left nothing; otherwise it was not asked. */
  ghost predicate Told(before: seq<Exchange>, after: seq<Exchange>, subs: Registrations, rest: Registrations) {
    if subs != map[] && rest == map[]
    then exists id, accepted :: id in subs && after == before + [UnsubscribeFrom(subs[id].pattern.MqttPattern(), accepted)]
    else after == before
  }

  lemma ToldNothing(asked: seq<Exchange>, subs: Registrations)
    ensures Told(asked, asked, subs, subs)
  {
  }

  lemma ToldByOne(before: seq<Exchange>, after: seq<Exchange>, subs: Registrations, rest: Registrations, id: SubscriptionId, accepted: bool)
    requires rest == subs - {id} && after == before + Farewell(subs, id, accepted)
    ensures Told(before, after, subs, rest)
  {
    hide Pattern.MqttPattern;
    if id !in subs {
      assert rest == subs;
    }
    assert before + [] == before;
  }

  lemma ToldTrans(a: seq<Exchange>, b: seq<Exchange>, c: seq<Exchange>, subsA: Registrations, subsB: Registrations, subsC: Registrations)
    requires Told(a, b, subsA, subsB) && Told(b, c, subsB, subsC)
    requires subsC.Keys <= subsB.Keys && subsB.Keys <= subsA.Keys && forall id :: id in subsB ==> subsA[id] == subsB[id]
    ensures Told(a, c, subsA, subsC)
  {
    hide Pattern.MqttPattern;
    if subsA == map[] {
      assert subsB == map[];
    }
    if subsB == map[] {
      assert subsC == map[];
    }
  }

  /** These exchanges, each once and in some order. */
  ghost predicate AskedForAll(before: seq<Exchange>, after: seq<Exchange>, exchanges: set<Exchange>) {
    && before <= after && |after| == |before| + |exchanges|
    && forall e :: e in after[|before|..] <==> e in exchanges
  }

  /** One subscribe request for each topic answered, at the QoS wanted for it. */
  function SubscribeRequests(topics: map<string, QoS>, answers: map<string, bool>): set<Exchange> {
    set w | w in answers && w in topics :: SubscribeTo(w, topics[w], answers[w])
  }

  lemma SubscribeRequestsGrow(topics: map<string, QoS>, answers: map<string, bool>, w: string, accepted: bool)
    requires w in topics && w !in answers
    ensures SubscribeTo(w, topics[w], accepted) !in SubscribeRequests(topics, answers)
    ensures SubscribeRequests(topics, answers[w := accepted]) == SubscribeRequests(topics, answers) + {SubscribeTo(w, topics[w], accepted)}
  {
  }

  /** One unsubscribe request for each topic answered. */
  function UnsubscribeRequests(answers: map<string, bool>): set<Exchange> {
    set w | w in answers :: UnsubscribeFrom(w, answers[w])
  }

  lemma UnsubscribeRequestsGrow(answers: map<string, bool>, w: string, accepted: bool)
    requires w !in answers
    ensures UnsubscribeFrom(w, accepted) !in UnsubscribeRequests(answers)
    ensures UnsubscribeRequests(answers[w := accepted]) == UnsubscribeRequests(answers) + {UnsubscribeFrom(w, accepted)}
  {
    var more := answers[w := accepted];
    forall e | e in UnsubscribeRequests(answers) ensures e in UnsubscribeRequests(more) {
      assert more[e.topic] == answers[e.topic];
    }
    assert UnsubscribeFrom(w, more[w]) in UnsubscribeRequests(more);
  }

  /** In the middle of a resubscription: the topics not in `rest` were answered, those in `failed`
      negatively; accepted requests stand. */
  ghost predicate AnsweredSoFar(topics: map<string, QoS>, rest: set<string>, failed: set<string>, answers: map<string, bool>, broker: BrokerState) {
    && rest <= topics.Keys && answers.Keys == topics.Keys - rest && failed <= answers.Keys
    && (forall w :: w in answers ==> (answers[w] <==> w !in failed))
    && (forall w :: w in answers && answers[w] ==> w in broker && broker[w] == topics[w])
  }

  lemma AnsweredNothing(topics: map<string, QoS>, broker: BrokerState)
    ensures AnsweredSoFar(topics, topics.Keys, {}, map[], broker)
  {
  }

  lemma WantedOnly(topics: map<string, QoS>, rest: set<string>, failed: set<string>, answers: map<string, bool>, broker: BrokerState)
    requires AnsweredSoFar(topics, rest, failed, answers, broker)
    ensures rest <= topics.Keys
  {
  }

  lemma AnswerOneMore(topics: map<string, QoS>, rest: set<string>, failed: set<string>, answers: map<string, bool>,
                      broker: BrokerState, w: string, accepted: bool)
    requires AnsweredSoFar(topics, rest, failed, answers, broker) && w in rest
    ensures w in topics && w !in answers
    ensures AnsweredSoFar(topics, rest - {w}, if accepted then failed else failed + {w}, answers[w := accepted],
                     Apply(broker, SubscribeTo(w, topics[w], accepted)))
  {
  }

  lemma AllAnswered(topics: map<string, QoS>, failed: set<string>, answers: map<string, bool>, broker: BrokerState)
    requires AnsweredSoFar(topics, {}, failed, answers, broker)
    ensures answers.Keys == topics.Keys
    ensures failed == {} <==> forall w :: w in answers ==> answers[w]
    ensures failed == {} ==> forall w :: w in topics ==> w in broker && broker[w] == topics[w]
  {
    if failed != {} {
      var w :| w in failed;
      assert !answers[w];
    }
  }

  lemma AskedNothing(asked: seq<Exchange>)
    ensures AskedForAll(asked, asked, {})
    ensures forall topics: map<string, QoS> :: SubscribeRequests(topics, map[]) == {}
    ensures UnsubscribeRequests(map[]) == {}
  {
    forall topics: map<string, QoS> ensures SubscribeRequests(topics, map[]) == {} {
      assert forall e :: e !in SubscribeRequests(topics, map[]);
    }
    assert forall e :: e !in UnsubscribeRequests(map[]);
  }

  lemma AskOneMore(before: seq<Exchange>, after: seq<Exchange>, exchanges: set<Exchange>, e: Exchange)
    requires AskedForAll(before, after, exchanges) && e !in exchanges
    ensures AskedForAll(before, after + [e], exchanges + {e})
  {
    assert (after + [e])[|before|..] == after[|before|..] + [e];
  }

  ghost predicate Covered(broker: BrokerState, reg: Registration) {
    reg.pattern.MqttPattern() in broker && !reg.qos.Above(broker[reg.pattern.MqttPattern()])
  }

  /** Every live subscription's wire pattern was requested, at a QoS no lower than its own. */
  ghost predicate Covers(broker: BrokerState, subs: Registrations) {
    forall id :: id in subs ==> Covered(broker, subs[id])
  }

  /** The broker holds a filter that the topic fits, at a QoS no lower than this. */
  ghost predicate Reaches(broker: BrokerState, topic: TopicPath, qos: QoS) {
    exists filter :: filter in broker && FilterAccepts(filter, topic) && !qos.Above(broker[filter])
  }

  /** A covered subscription gets every topic that it accepts: the broker holds a filter for it. */
  lemma CoveredTopicsReach(broker: BrokerState, reg: Registration, topic: TopicPath)
    requires reg.pattern.Valid() && PlainBindings(reg.pattern)
    requires Covered(broker, reg) && reg.Accepts(topic)
    ensures Reaches(broker, topic, reg.qos)
  {
    hide Pattern.Valid, PlainBindings, Pattern.MqttPattern;
    FilterReadsBack(reg.pattern, topic);
  }

  /** A live subscription asks for the same wire pattern at a higher QoS. */
  ghost predicate Demotes(subs: Registrations, reg: Registration) {
    exists j :: j in subs && subs[j].pattern.MqttPattern() == reg.pattern.MqttPattern() && subs[j].qos.Above(reg.qos)
  }

  /** The router's answer for a new subscription: no live one of the same slot is as high. */
  ghost predicate NeedsSubscribe(subs: Registrations, reg: Registration) {
    forall j :: j in subs && subs[j].Home() == reg.Home() ==> reg.qos.Above(subs[j].qos)
  }

  /** A successful subscribe request keeps the live subscriptions covered exactly when it demotes
      none of them. */
  lemma SubscribeCoverage(broker: BrokerState, subs: Registrations, id: SubscriptionId, reg: Registration)
    requires Covers(broker, subs) && id !in subs
    ensures Covers(broker[reg.pattern.MqttPattern() := reg.qos], subs[id := reg]) <==> !Demotes(subs, reg)
  {
    var w := reg.pattern.MqttPattern();
    var after, all := broker[w := reg.qos], subs[id := reg];
    if Demotes(subs, reg) {
      var j :| j in subs && subs[j].pattern.MqttPattern() == w && subs[j].qos.Above(reg.qos);
      assert j != id;
      assert !Covered(after, all[j]);
    } else {
      forall j | j in all ensures Covered(after, all[j]) {
        if j != id {
          assert Covered(broker, subs[j]);
        }
      }
    }
  }

  /** A successful request that demotes a live subscription leaves it uncovered. */
  lemma DemotionUncovers(broker: BrokerState, subs: Registrations, reg: Registration)
    requires Demotes(subs, reg)
    ensures !Covers(broker[reg.pattern.MqttPattern() := reg.qos], subs)
  {
    var j :| j in subs && subs[j].pattern.MqttPattern() == reg.pattern.MqttPattern() && subs[j].qos.Above(reg.qos);
    assert !Covered(broker[reg.pattern.MqttPattern() := reg.qos], subs[j]);
  }

  /** When the router sees no need to ask the broker, the new subscription is covered already. */
  lemma SilentSubscribeIsCovered(broker: BrokerState, subs: Registrations, id: SubscriptionId, reg: Registration)
    requires Covers(broker, subs) && !NeedsSubscribe(subs, reg)
    requires reg.pattern.Valid() && forall j :: j in subs ==> subs[j].pattern.Valid()
    ensures Covers(broker, subs[id := reg])
  {
    hide Pattern.Valid, Registration.Home;
    var j :| j in subs && subs[j].Home() == reg.Home() && !reg.qos.Above(subs[j].qos);
    HomeIsShape(subs[j], reg);
    MqttPatternIsWire(subs[j].pattern);
    MqttPatternIsWire(reg.pattern);
    SameShapeSameWire(subs[j].pattern.Resolved(), reg.pattern.Resolved());
    assert Covered(broker, subs[j]);
  }

  /** Two patterns share a slot exactly when their resolved segments agree up to wildcard names. */
  lemma HomeIsShape(a: Registration, b: Registration)
    requires a.pattern.Valid() && b.pattern.Valid()
    ensures a.Home() == b.Home() <==> SameShape(a.pattern.Resolved(), b.pattern.Resolved())
  {
    ResolvedHashLast(a.pattern);
    ResolvedHashLast(b.pattern);
    SlotIsShape(a.pattern.Resolved(), b.pattern.Resolved());
  }

  ghost predicate AllPlain(subs: Registrations) {
    forall id :: id in subs ==> PlainBindings(subs[id].pattern)
  }

  /** As long as bound values are single levels other than "+" and "#", a request that the router asks
      for demotes nobody. */
  lemma PlainNeverDemotes(subs: Registrations, reg: Registration)
    requires reg.pattern.Valid() && PlainBindings(reg.pattern)
    requires AllPlain(subs) && forall j :: j in subs ==> subs[j].pattern.Valid()
    requires NeedsSubscribe(subs, reg)
    ensures !Demotes(subs, reg)
  {
    hide Pattern.Valid, PlainBindings;
    forall j | j in subs && subs[j].pattern.MqttPattern() == reg.pattern.MqttPattern()
      ensures !subs[j].qos.Above(reg.qos)
    {
      SlotAndWireAgree(subs[j].pattern, reg.pattern);
    }
  }

  lemma FewerAreCovered(broker: BrokerState, subs: Registrations, id: SubscriptionId)
    requires Covers(broker, subs)
    ensures Covers(broker, subs - {id})
  {
    forall j | j in subs - {id} ensures Covered(broker, (subs - {id})[j]) {
      assert Covered(broker, subs[j]);
    }
  }

  /** Asking again for one wire pattern at the highest QoS among its subscribers keeps coverage. */
  lemma ResubscribeKeepsCoverage(broker: BrokerState, subs: Registrations, topics: map<string, QoS>, w: string)
    requires Covers(broker, subs) && IsMaxQosMap(subs, subs.Keys, topics) && w in topics
    ensures Covers(broker[w := topics[w]], subs)
  {
    forall id | id in subs ensures Covered(broker[w := topics[w]], subs[id]) {
      assert Covered(broker, subs[id]);
    }
  }

  /** Once all wire patterns have been asked for again, everything is covered, whatever the broker
      remembered before. */
  lemma ResubscribeRestoresCoverage(broker: BrokerState, subs: Registrations, topics: map<string, QoS>)
    requires IsMaxQosMap(subs, subs.Keys, topics)
    requires forall w :: w in topics ==> w in broker && broker[w] == topics[w]
    ensures Covers(broker, subs)
  {
  }

  lemma NothingToCover(broker: BrokerState)
    ensures Covers(broker, map[])
  {
  }

  lemma FewerAreInformed(synced: bool, broker: BrokerState, subs: Registrations, id: SubscriptionId)
    requires synced ==> Covers(broker, subs)
    ensures synced ==> Covers(broker, subs - {id})
  {
    if synced {
      FewerAreCovered(broker, subs, id);
    }
  }

  /** What the router's answer makes the actor ask. */
  lemma FarewellFollows(subs: Registrations, id: SubscriptionId, removed: Result<(bool, Pattern), RouterError>, accepted: bool)
    requires id !in subs ==> removed.Failure?
    requires id in subs ==> removed == Success((subs - {id} == map[], subs[id].pattern))
    ensures Farewell(subs, id, accepted) ==
            if removed.Success? && removed.value.0 then [UnsubscribeFrom(removed.value.1.MqttPattern(), accepted)] else []
  {
    hide Pattern.MqttPattern;
  }

  lemma FarewellKeepsCoverage(synced: bool, asked: seq<Exchange>, rest: Registrations, subs: Registrations, id: SubscriptionId, accepted: bool)
    requires rest == subs - {id} && (synced ==> Covers(Replay(asked), rest))
    ensures synced ==> Covers(Replay(asked + Farewell(subs, id, accepted)), rest)
  {
    hide Pattern.MqttPattern, Replay;
    assert asked + [] == asked;
    if rest == map[] {
      NothingToCover(Replay(asked + Farewell(subs, id, accepted)));
    }
  }

  lemma MissingIdLeavesAll<T>(subs: Registrations, entries: map<SubscriptionId, T>, id: SubscriptionId)
    ensures id !in subs ==> subs - {id} == subs
    ensures id !in entries ==> entries - {id} == entries
  {
  }

  // ----- Where coverage fails -----

  /** "a/b" as a plain pattern, and as a single level bound to the value "a/b". */
  lemma TwoSlotsOneWire() returns (plain: Pattern, bound: Pattern)
    ensures plain.Valid() && bound.Valid()
    ensures plain.MqttPattern() == bound.MqttPattern() == "a/b"
    ensures SlotOf(plain.Resolved()) != SlotOf(bound.Resolved())
    ensures PlainBindings(plain) && !PlainBindings(bound)
  {
    hide Pattern.Valid, SlotOf, Formed, ParseItem;
    plain := Literal();
    bound := Bound();
    assert plain.Resolved() == plain.segments;
    assert bound.Resolved() == [Str("a/b")];
    assert HashLast(plain.Resolved()) && HashLast(bound.Resolved());
    SlotOfByPosition(plain.Resolved());
    SlotOfByPosition(bound.Resolved());
    assert bound.Bindings()[0].1[1] == '/';
    assert WireTexts(bound.Resolved()) == ["a/b"];
  }

  lemma TwoLiteralsParse(s: string)
    requires s == "a" + "/" + "b"
    ensures ParseAll(Split(s)) == Success([Str("a"), Str("b")])
  {
    SplitAtFirstSlash("a", "b");
    SplitAtFirstSlash("b", "");
    assert Split(s) == ["a", "b"];
    assert ParseItem("a") == Success(Str("a")) && ParseItem("b") == Success(Str("b"));
    ParseAllOfParsed(["a", "b"], [Str("a"), Str("b")]);
  }

  lemma Literal() returns (p: Pattern)
    ensures p.Valid() && p.bindings.None? && p.segments == [Str("a"), Str("b")] && p.wire == "a/b"
    ensures p.MqttPattern() == "a/b"
  {
    hide ParseAll, Split;
    var s := "a" + "/" + "b";
    TwoLiteralsParse(s);
    assert !IsWhitespace(s[0]);
    p := Pattern(s, "a/b", [Str("a"), Str("b")], None);
    assert WireTexts(p.segments) == ["a", "b"];
    assert Wire(p.segments) == "a" + "/" + "b";
  }

  lemma NamedWildcardParses(n: string)
    requires Formed(Plus(Some(n))) && !AmbiguousName(Plus(Some(n))) && SlashFree(n)
    ensures ParseAll(Split("{" + n + "}")) == Success([Plus(Some(n))])
  {
    hide ParseItem, Formed, AmbiguousName, Split;
    var item := Plus(Some(n));
    var s := item.AsWildcard();
    assert SlashFree(s);
    SplitAtFirstSlash(s, "");
    ItemRoundTrip(item);
    ParseAllOfParsed([s], [item]);
  }

  /** The template that consists of a single named `+` wildcard. */
  lemma NamedWildcard(n: string) returns (p: Pattern)
    requires Formed(Plus(Some(n))) && !AmbiguousName(Plus(Some(n))) && SlashFree(n)
    ensures p.Valid() && p.segments == [Plus(Some(n))] && p.bindings == None && p.wire == "+"
  {
    hide ParseAll, Split, Blank, Formed, AmbiguousName;
    var template := "{" + n + "}";
    NamedWildcardParses(n);
    BraceIsVisible(template);
    p := Pattern(template, "+", [Plus(Some(n))], None);
    assert WireTexts(p.segments) == ["+"];
  }

  lemma BindOne(p: Pattern, n: string, value: string)
    requires p.Valid() && p.segments == [Plus(Some(n))]
    ensures p.(bindings := Some([(n, value)])).Valid()
  {
    hide Accepts, ParseAll, Split, Wire;
    assert IsPlusName(p.segments, n) by { assert p.segments[0] == Plus(Some(n)); }
  }

  lemma ShortName(n: string)
    requires |n| == 1 && n[0] != '{' && n[0] != '}' && n[0] != '/'
    ensures Formed(Plus(Some(n))) && !AmbiguousName(Plus(Some(n))) && SlashFree(n)
  {
    assert n[|n| - 1..][0] == n[0];
  }

  lemma Bound() returns (p: Pattern)
    ensures p.Valid() && p.segments == [Plus(Some("x"))] && p.bindings == Some([("x", "a/b")]) && p.wire == "+"
  {
    hide Pattern.Valid, Formed, AmbiguousName, SlashFree;
    ShortName("x");
    var open := NamedWildcard("x");
    BindOne(open, "x", "a/b");
    p := open.(bindings := Some([("x", "a/b")]));
  }

  /** Coverage does fail: a bound value with a slash in it makes the router ask for "a/b" anew at
      QoS 0 while a subscription to the plain pattern relies on QoS 2. */
  lemma DirtyBindingDemotes() returns (broker: BrokerState, subs: Registrations, id: SubscriptionId, reg: Registration)
    ensures id !in subs && reg.pattern.Valid() && forall j :: j in subs ==> subs[j].pattern.Valid()
    ensures Covers(broker, subs) && NeedsSubscribe(subs, reg)
    ensures !Covers(broker[reg.pattern.MqttPattern() := reg.qos], subs[id := reg])
  {
    hide Pattern.Valid, Pattern.MqttPattern, Pattern.Resolved, SlotOf, PlainBindings;
    var plain, bound := TwoSlotsOneWire();
    var first := Registration(plain, ExactlyOnce);
    reg := Registration(bound, AtMostOnce);
    subs := map[0 := first];
    broker := map["a/b" := ExactlyOnce];
    id := 1;
    assert Demotes(subs, reg) by { assert subs[0].qos.Above(reg.qos); }
    SubscribeCoverage(broker, subs, 1, reg);
  }

  // ----- The answer to an unsubscribe -----

  /** The router answers whether the root of its trie is vacant after the removal. An affirmative
      answer is never wrong: then no other live subscription has the pattern. It differs from that
      documented answer exactly when other subscriptions are live and none of them has the pattern. */
  lemma UnsubscribeAnswer<T>(shape: Shape<T>, subs: Registrations, payloads: map<SubscriptionId, T>, nextId: nat, id: SubscriptionId)
    requires InStep(shape, subs, payloads, nextId) && id in subs
    ensures Get(shape, subs[id].Home()).Some?
    ensures AnswerStands(Vacant(Updated(shape, subs[id].Home(), Removal(id), 0), []), subs, id)
  {
    hide InStep, Vacant, Updated, Registration.Home, AnswerStands;
    RemoveKeepsStep(shape, subs, payloads, nextId, id);
    EmptyAnswer(subs, id);
  }

  /** The pattern of a removed subscription stays requested exactly when another subscription is live,
      whether or not it needs the pattern, or the unsubscribe request failed. */
  lemma PatternStaysRequested(asked: seq<Exchange>, subs: Registrations, id: SubscriptionId, accepted: bool)
    requires id in subs && subs[id].pattern.MqttPattern() in Replay(asked)
    ensures subs[id].pattern.MqttPattern() in Replay(asked + Farewell(subs, id, accepted)) <==>
            (exists j :: j in subs && j != id) || !accepted
  {
    hide Pattern.MqttPattern;
    OthersRemain(subs, id);
    ReplaySnoc(asked, UnsubscribeFrom(subs[id].pattern.MqttPattern(), accepted));
    assert asked + [] == asked;
  }

  /** Two subscriptions to different patterns: removing one leaves its pattern unused, yet the broker
      keeps it, because the router is not empty and so the broker is not told. */
  lemma UnusedPatternStaysRequested(accepted: bool) returns (asked: seq<Exchange>, subs: Registrations, id: SubscriptionId)
    ensures forall j :: j in subs ==> subs[j].pattern.Valid()
    ensures id in subs && LastOfPattern(subs, id) && Covers(Replay(asked), subs)
    ensures subs[id].pattern.MqttPattern() in Replay(asked + Farewell(subs, id, accepted))
  {
    hide Pattern.Valid, Pattern.MqttPattern, Farewell;
    var plain := Literal();
    var open := Open();
    id := 0;
    subs := map[0 := Registration(plain, AtMostOnce), 1 := Registration(open, AtMostOnce)];
    asked := [SubscribeTo("a/b", AtMostOnce, true)] + [SubscribeTo("+", AtMostOnce, true)];
    ReplaySnoc([], SubscribeTo("a/b", AtMostOnce, true));
    assert [] + [SubscribeTo("a/b", AtMostOnce, true)] == [SubscribeTo("a/b", AtMostOnce, true)];
    ReplaySnoc([SubscribeTo("a/b", AtMostOnce, true)], SubscribeTo("+", AtMostOnce, true));
    assert 1 in subs;
    PatternStaysRequested(asked, subs, id, accepted);
  }

  lemma Open() returns (p: Pattern)
    ensures p.Valid() && p.MqttPattern() == "+"
  {
    hide Pattern.Valid, Formed, AmbiguousName, SlashFree;
    ShortName("x");
    p := NamedWildcard("x");
  }
}

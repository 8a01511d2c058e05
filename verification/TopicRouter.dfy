/** The subscription router: the topic trie kept in step with a flat table of subscriptions. */
module TopicRouter {
  import opened Wrappers
  import opened TopicPatternItem
  import opened TopicMatch
  import opened TopicPatternPath
  import opened TopicMatcher
  import opened TrieLaws

  datatype QoS = AtMostOnce | AtLeastOnce | ExactlyOnce
  {
    function Level(): nat {
      match this
      case AtMostOnce => 0
      case AtLeastOnce => 1
      case ExactlyOnce => 2
    }

    /** QoS 2 is above 1 and 0, and 1 is above 0. */
    predicate Above(other: QoS)
      ensures Above(other) <==> (ExactlyOnce? && !other.ExactlyOnce?) || (AtLeastOnce? && other.AtMostOnce?)
    {
      Level() > other.Level()
    }
  }

  datatype Registration = Registration(pattern: Pattern, qos: QoS)
  {
    /** Where the trie keeps this subscription. */
    function Home(): Slot { SlotOf(pattern.Resolved()) }

    /** The scan's view: the bound pattern fits the topic level by level. */
    predicate Accepts(topic: TopicPath) { Matches(pattern.Resolved(), topic.Levels()) }
  }

  type Registrations = map<SubscriptionId, Registration>

  function Homes(subs: Registrations): (homes: map<SubscriptionId, Slot>)
    ensures homes.Keys == subs.Keys
    ensures forall id :: id in subs ==> homes[id] == subs[id].Home()
  {
    map id | id in subs :: subs[id].Home()
  }

  /** The trie is canonical and holds exactly the live subscriptions, each in the table of its own
      slot; every id is below the next one. */
  ghost predicate InStep<T>(shape: Shape<T>, subs: Registrations, payloads: map<SubscriptionId, T>, nextId: nat) {
    && Canonical(shape)
    && Indexes(shape, Homes(subs), payloads)
    && forall id :: id in subs ==> id < nextId && subs[id].pattern.Valid()
  }

  /** Adding under the next id: the table opened for it lists the ids of the same slot, and storing
      the payload there keeps everything in step. */
  lemma AddKeepsStep<T>(shape: Shape<T>, subs: Registrations, payloads: map<SubscriptionId, T>, id: nat, reg: Registration, payload: T)
    requires InStep(shape, subs, payloads, id) && reg.pattern.Valid()
    ensures id !in subs
    ensures reg.Home().path in Grown(shape, reg.Home()) && Get(Grown(shape, reg.Home()), reg.Home()).Some?
    ensures forall j :: j in Get(Grown(shape, reg.Home()), reg.Home()).value <==> j in subs && subs[j].Home() == reg.Home()
    ensures InStep(Put(Grown(shape, reg.Home()), reg.Home(), Some(Get(Grown(shape, reg.Home()), reg.Home()).value[id := payload])),
                   subs[id := reg], payloads[id := payload], id + 1)
  {
    hide Canonical, Indexes, Put, Get, Grown, Registration.Home, Stored, Pattern.Valid;
    var slot := reg.Home();
    TableOfSlot(shape, Homes(subs), payloads, slot);
    StoredIsPut(shape, slot, id, payload);
    AddKeepsIndex(shape, Homes(subs), payloads, id, slot, payload);
    HomesOfMore(subs, id, reg);
  }

  /** Removing an id, pruning included, keeps everything in step; the trie's root is then vacant
      exactly when no subscription is left. */
  lemma RemoveKeepsStep<T>(shape: Shape<T>, subs: Registrations, payloads: map<SubscriptionId, T>, nextId: nat, id: SubscriptionId)
    requires InStep(shape, subs, payloads, nextId) && id in subs
    ensures Get(shape, subs[id].Home()).Some?
    ensures InStep(Updated(shape, subs[id].Home(), Removal(id), 0), subs - {id}, payloads - {id}, nextId)
    ensures Vacant(Updated(shape, subs[id].Home(), Removal(id), 0), []) <==> subs - {id} == map[]
  {
    hide Canonical, Indexes, Get, Registration.Home, Updated, Vacant, Removal, Pattern.Valid;
    RemoveKeepsIndex(shape, Homes(subs), payloads, id);
    HomesOfRest(subs, id);
    assert (subs - {id}).Keys == (Homes(subs) - {id}).Keys;
  }

  /** The trie is determined by the live subscriptions, whatever was added and removed on the way; in
      particular, adding a subscription and removing it again gives the very same trie back. */
  lemma SubscriptionsDetermineTrie<T>(a: Shape<T>, b: Shape<T>, subs: Registrations, payloads: map<SubscriptionId, T>, nextA: nat, nextB: nat)
    requires InStep(a, subs, payloads, nextA) && InStep(b, subs, payloads, nextB)
    ensures a == b
  {
    hide Canonical, Indexes;
    TrieDependsOnLiveSubscriptions(a, b, Homes(subs), payloads);
  }

  /** No other live subscription has the wire pattern of `id`. */
  ghost predicate LastOfPattern(subs: Registrations, id: SubscriptionId)
    requires id in subs
  {
    forall j :: j in subs && j != id ==> subs[j].pattern.MqttPattern() != subs[id].pattern.MqttPattern()
  }

  /** Something is left after a removal exactly when there is another subscription. */
  lemma OthersRemain(subs: Registrations, id: SubscriptionId)
    ensures subs - {id} != map[] <==> exists j :: j in subs && j != id
  {
    if forall j :: j in subs ==> j == id {
      assert subs - {id} == map[];
    } else {
      var j :| j in subs && j != id;
      assert j in subs - {id};
    }
  }

  /** How an answer to an unsubscribe stands to the documented one, that nobody else has the pattern:
      an affirmative answer is never wrong, and it differs exactly when other subscriptions are live
      and none of them has the pattern. */
  ghost predicate AnswerStands(answer: bool, subs: Registrations, id: SubscriptionId)
    requires id in subs
  {
    && (answer ==> LastOfPattern(subs, id))
    && (answer != LastOfPattern(subs, id) <==>
          (exists j :: j in subs && j != id) &&
          forall j :: j in subs && j != id ==> subs[j].pattern.MqttPattern() != subs[id].pattern.MqttPattern())
  }

  lemma EmptyAnswer(subs: Registrations, id: SubscriptionId)
    requires id in subs
    ensures AnswerStands(subs - {id} == map[], subs, id)
  {
    hide Pattern.MqttPattern;
    OthersRemain(subs, id);
  }

  /** Level by level: a subscription at QoS 0 raises its slot if nobody is there, one at QoS 1 if
      everybody there is at QoS 0, one at QoS 2 if nobody there is at QoS 2. */
  ghost predicate RaisesSlot(subs: Registrations, reg: Registration) {
    match reg.qos
    case AtMostOnce => forall j :: j in subs ==> subs[j].Home() != reg.Home()
    case AtLeastOnce => forall j :: j in subs && subs[j].Home() == reg.Home() ==> subs[j].qos == AtMostOnce
    case ExactlyOnce => forall j :: j in subs && subs[j].Home() == reg.Home() ==> subs[j].qos != ExactlyOnce
  }

  lemma RaisingByLevel(subs: Registrations, reg: Registration)
    ensures RaisesSlot(subs, reg) <==> forall j :: j in subs && subs[j].Home() == reg.Home() ==> reg.qos.Above(subs[j].qos)
  {
    hide Registration.Home;
  }

  datatype RouterError = SubscriptionNotFound(id: SubscriptionId)

  datatype Subscriber<T> = Subscriber(id: SubscriptionId, registration: Registration, payload: T)

  class TopicRouter<T> {
    var topicMatcher: TopicMatcherNode<T>
    var subscriptions: Registrations
    var nextId: nat
    /** The payload of each live subscription; the trie's tables hold the same values. */
    ghost var payloads: map<SubscriptionId, T>
    ghost var view: View<T>
    ghost var Repr: set<object>

    /** The ghost picture is true of the trie, whose nodes all belong to this router. */
    ghost predicate TrieValid()
      reads this, Repr
    {
      && this in Repr && view.nodes <= Repr
      && Mirrors(view) && topicMatcher.IsIn(view) && topicMatcher.path == []
    }

    /** The trie is canonical and holds exactly the registered subscriptions; ids are fresh. */
    ghost predicate Valid()
      reads this, Repr
    {
      && TrieValid()
      && InStep(view.shape, subscriptions, payloads, nextId)
    }

    lemma RegisteredFacts()
      requires Valid()
      ensures this in Repr && payloads.Keys == subscriptions.Keys
      ensures forall id :: id in subscriptions ==> id < nextId && subscriptions[id].pattern.Valid()
    {
      hide Mirrors, Canonical;
      assert payloads.Keys == Homes(subscriptions).Keys;
    }

    constructor ()
      ensures Valid() && fresh(Repr)
      ensures subscriptions == map[] && payloads == map[] && nextId == 0
    {
      topicMatcher := new TopicMatcherNode<T>([]);
      subscriptions := map[];
      nextId := 0;
      payloads := map[];
      new;
      view := RootView(topicMatcher);
      Repr := {this, topicMatcher};
      RootViewMirrors(topicMatcher);
    }

    /** The highest QoS among the subscribers in one table; every id listed is registered. */
    method MaxQos(table: Table<T>) returns (max: Option<QoS>)
      requires table.Keys <= subscriptions.Keys
      ensures max.None? <==> table == map[]
      ensures max.Some? ==> forall id :: id in table ==> !subscriptions[id].qos.Above(max.value)
      ensures max.Some? ==> exists id :: id in table && subscriptions[id].qos == max.value
    {
      max := None;
      var rest := table.Keys;
      while rest != {}
        invariant rest <= table.Keys
        invariant max.None? <==> rest == table.Keys
        invariant max.Some? ==> forall id :: id in table && id !in rest ==> !subscriptions[id].qos.Above(max.value)
        invariant max.Some? ==> exists id :: id in table && subscriptions[id].qos == max.value
        decreases rest
      {
        var id :| id in rest;
        if max.None? || !max.value.Above(subscriptions[id].qos) {
          max := Some(subscriptions[id].qos);
        }
        rest := rest - {id};
      }
    }

    method RaisesQos(table: Table<T>, qos: QoS) returns (raises: bool)
      requires table.Keys <= subscriptions.Keys
      ensures raises <==> forall id :: id in table ==> qos.Above(subscriptions[id].qos)
    {
      var max := MaxQos(table);
      raises := max.None? || qos.Above(max.value);
    }

    /** Registers a subscription under the next id. The broker must be told exactly when the new QoS
        is above that of every live subscription of the same slot. */
    method AddSubscription(topic: Pattern, qos: QoS, payload: T) returns (needsSubscribe: bool, id: SubscriptionId)
      requires Valid() && topic.Valid()
      modifies Repr
      ensures Valid() && fresh(Repr - old(Repr))
      ensures id == old(nextId) && nextId == id + 1 && id !in old(subscriptions)
      ensures subscriptions == old(subscriptions)[id := Registration(topic, qos)]
      ensures payloads == old(payloads)[id := payload]
      ensures needsSubscribe <==> forall j :: j in old(subscriptions) && old(subscriptions)[j].Home() == Registration(topic, qos).Home() ==>
                                    qos.Above(old(subscriptions)[j].qos)
      ensures needsSubscribe <==> RaisesSlot(old(subscriptions), Registration(topic, qos))
    {
      hide Mirrors, InStep, Pattern.Valid, Registration.Home, SlotOf, Put, Get, Grown, RaisesSlot;
      RaisingByLevel(subscriptions, Registration(topic, qos));
      AddKeepsStep(view.shape, subscriptions, payloads, nextId, Registration(topic, qos), payload);
      var node, multi, table := OpenHome(Registration(topic, qos));
      needsSubscribe := RaisesQos(table, qos);
      id := nextId;
      StoreTable(node, multi, table[id := payload]);
      Commit(id, Registration(topic, qos), payload);
    }

    method Commit(id: SubscriptionId, registration: Registration, payload: T)
      requires TrieValid()
      modifies this`subscriptions, this`payloads, this`nextId
      ensures TrieValid()
      ensures subscriptions == old(subscriptions)[id := registration]
      ensures payloads == old(payloads)[id := payload] && nextId == old(nextId) + 1
    {
      hide Mirrors;
      nextId, subscriptions, payloads := nextId + 1, subscriptions[id := registration], payloads[id := payload];
    }

    /** Finds or creates the table that a registration belongs to. */
    method OpenHome(reg: Registration) returns (node: TopicMatcherNode<T>, multi: bool, table: Table<T>)
      requires TrieValid() && reg.pattern.Valid()
      modifies view.nodes, this`view, this`Repr
      ensures TrieValid() && fresh(Repr - old(Repr))
      ensures view.shape == Grown(old(view.shape), reg.Home())
      ensures node.IsIn(view) && reg.Home() == Slot(node.path, multi)
      ensures Get(view.shape, reg.Home()) == Some(table)
    {
      hide Mirrors, Pattern.Valid, Registration.Home, SlotOf, Get, Grown;
      SlotOfHome(reg);
      var items := ResolveBoundSegments(reg.pattern);
      node, multi, table := OpenTable(items);
    }

    /** Finds or creates the table of a pattern. */
    method OpenTable(items: seq<Item>) returns (node: TopicMatcherNode<T>, multi: bool, table: Table<T>)
      requires TrieValid()
      modifies view.nodes, this`view, this`Repr
      ensures TrieValid() && fresh(Repr - old(Repr))
      ensures view.shape == Grown(old(view.shape), SlotOf(items))
      ensures node.IsIn(view) && SlotOf(items) == Slot(node.path, multi)
      ensures Get(view.shape, SlotOf(items)) == Some(table)
    {
      hide Mirrors, SlotOf, Get;
      ghost var grown;
      node, multi, grown := topicMatcher.GetOrCreateSubscriptionTable(items, view);
      node.TableInView(grown, multi);
      GrownHasTable(view.shape, SlotOf(items));
      table := (if multi then node.multiLevelWildcardData else node.exactMatchData).value;
      view := grown;
      Repr := Repr + view.nodes;
    }

    method StoreTable(node: TopicMatcherNode<T>, multi: bool, table: Table<T>)
      requires TrieValid() && node.IsIn(view)
      modifies node, this`view
      ensures TrieValid()
      ensures view.shape == Put(old(view.shape), Slot(node.path, multi), Some(table))
    {
      hide Mirrors, Put;
      node.DataInView(view);
      node.SetTable(multi, Some(table), view);
      view := view.(shape := Put(view.shape, Slot(node.path, multi), Some(table)));
    }

    /** Removes a subscription. The answer says whether the whole router is now empty. An unknown id
        changes nothing; the trie update never fails. */
    method Unsubscribe(id: SubscriptionId) returns (r: Result<(bool, Pattern), RouterError>)
      requires Valid()
      modifies Repr
      ensures Valid() && Repr == old(Repr) && nextId == old(nextId)
      ensures id !in old(subscriptions) ==> r == Failure(SubscriptionNotFound(id)) && subscriptions == old(subscriptions) && payloads == old(payloads)
      ensures id in old(subscriptions) ==>
                && subscriptions == old(subscriptions) - {id}
                && payloads == old(payloads) - {id}
                && r == Success((subscriptions == map[], old(subscriptions)[id].pattern))
      ensures id in old(subscriptions) ==> AnswerStands(r.value.0, old(subscriptions), id)
    {
      hide Mirrors, InStep, Pattern.Valid, Registration.Home, SlotOf, Vacant, Get, Updated, Removal, AnswerStands;
      if id !in subscriptions {
        return Failure(SubscriptionNotFound(id));
      }
      var pattern := subscriptions[id].pattern;
      SlotOfHome(subscriptions[id]);
      RemoveKeepsStep(view.shape, subscriptions, payloads, nextId, id);
      PatternOf(view.shape, subscriptions, payloads, nextId, id);
      subscriptions := subscriptions - {id};
      var items := ResolveBoundSegments(pattern);
      var nowEmpty := RemoveFromTrie(items, id);
      payloads := payloads - {id};
      EmptyAnswer(old(subscriptions), id);
      r := Success((nowEmpty, pattern));
    }

    /** Every live subscription whose bound pattern matches the topic, each exactly once, with its
        registration and payload. */
    method GetSubscribers(topic: TopicPath) returns (r: seq<Subscriber<T>>)
      requires Valid()
      ensures DistinctIds(r)
      ensures forall i :: 0 <= i < |r| ==>
                && r[i].id in subscriptions && r[i].id in payloads
                && r[i] == Subscriber(r[i].id, subscriptions[r[i].id], payloads[r[i].id])
      ensures forall id :: id in subscriptions ==> (ListsId(r, id) <==> subscriptions[id].Accepts(topic))
    {
      hide Mirrors, InStep, Collects, Registration.Accepts;
      var tables;
      ghost var slots;
      tables, slots := topicMatcher.FindByPath(topic, view);
      SearchIsScan(view.shape, subscriptions, payloads, nextId, topic, tables, slots);
      r := [];
      for k := 0 to |tables|
        invariant DistinctIds(r)
        invariant forall i :: 0 <= i < |r| ==>
                    && r[i].id in subscriptions && r[i].id in payloads
                    && r[i] == Subscriber(r[i].id, subscriptions[r[i].id], payloads[r[i].id])
        invariant forall id :: ListsId(r, id) <==> InSome(tables, k, id)
      {
        var entries := EntriesOf(tables[k]);
        ListedInConcat(r, entries);
        forall id | ListsId(entries, id) ensures !ListsId(r, id) {
          assert id in tables[k];
          assert forall j :: 0 <= j < k ==> id !in tables[j];
        }
        r := r + entries;
        forall id ensures InSome(tables, k + 1, id) <==> InSome(tables, k, id) || id in tables[k] {
          assert id in tables[k] ==> InSome(tables, k + 1, id);
        }
      }
    }

    /** The entries of one table, in whatever order the table yields them. */
    method EntriesOf(table: Table<T>) returns (r: seq<Subscriber<T>>)
      requires table.Keys <= subscriptions.Keys
      ensures DistinctIds(r)
      ensures forall id :: ListsId(r, id) <==> id in table
      ensures forall i :: 0 <= i < |r| ==>
                r[i].id in table && r[i] == Subscriber(r[i].id, subscriptions[r[i].id], table[r[i].id])
    {
      r := [];
      var rest := table.Keys;
      while rest != {}
        invariant rest <= table.Keys
        invariant DistinctIds(r)
        invariant forall id :: ListsId(r, id) <==> id in table && id !in rest
        invariant forall i :: 0 <= i < |r| ==>
                    r[i].id in table && r[i] == Subscriber(r[i].id, subscriptions[r[i].id], table[r[i].id])
        decreases rest
      {
        var id :| id in rest;
        var entry := Subscriber(id, subscriptions[id], table[id]);
        ListedInConcat(r, [entry]);
        assert [entry][0].id == id;
        assert !ListsId(r, id);
        r := r + [entry];
        rest := rest - {id};
      }
    }

    /** The distinct broker patterns of the live subscriptions. */
    function GetTopicsForUnsubscribe(): set<string>
      reads this
    {
      set id | id in subscriptions :: subscriptions[id].pattern.MqttPattern()
    }

    /** Every broker pattern in use, with the highest QoS among its subscribers, whatever the order in
        which the subscriptions are visited. */
    method GetTopicsForResubscribe() returns (r: map<string, QoS>)
      ensures r.Keys == GetTopicsForUnsubscribe()
      ensures IsMaxQosMap(subscriptions, subscriptions.Keys, r)
      ensures forall w :: w in r ==> HighestIs(subscriptions, w, r[w])
    {
      r := map[];
      var rest := subscriptions.Keys;
      ghost var done: set<SubscriptionId> := {};
      while rest != {}
        invariant done + rest == subscriptions.Keys
        invariant IsMaxQosMap(subscriptions, done, r)
        decreases rest
      {
        var id :| id in rest;
        var wire, qos := subscriptions[id].pattern.MqttPattern(), subscriptions[id].qos;
        MaxQosMapGrows(subscriptions, done, r, id);
        if wire in r {
          if qos.Above(r[wire]) {
            r := r[wire := qos];
          }
        } else {
          r := r[wire := qos];
        }
        rest, done := rest - {id}, done + {id};
      }
      MaxQosIsHighest(subscriptions, r);
    }

    /** Empties the router and starts numbering afresh; only done at shutdown. */
    method Cleanup()
      requires Valid()
      modifies this
      ensures Valid() && fresh(Repr - old(Repr))
      ensures subscriptions == map[] && payloads == map[] && nextId == 0
    {
      hide Mirrors, InStep, TopicMatcherNode.IsIn;
      var root := new TopicMatcherNode<T>([]);
      RootViewMirrors(root);
      topicMatcher, subscriptions, nextId := root, map[], 0;
      payloads, view, Repr := map[], RootView(root), {this, root};
    }

    method RemoveFromTrie(items: seq<Item>, id: SubscriptionId) returns (nowEmpty: bool)
      requires TrieValid() && Get(view.shape, SlotOf(items)).Some?
      modifies view.nodes, this`view
      ensures TrieValid()
      ensures view.shape == Updated(old(view.shape), SlotOf(items), Removal(id), 0)
      ensures nowEmpty <==> Vacant(view.shape, [])
    {
      hide Mirrors, Updated, Vacant, Get;
      assert SlotBelow([], items) == SlotOf(items);
      var answer;
      ghost var after;
      answer, after := topicMatcher.UpdateNode(items, Removal(id), view);
      view := after;
      nowEmpty := answer.value;
    }
  }

  lemma ListedInConcat<T>(a: seq<Subscriber<T>>, b: seq<Subscriber<T>>)
    ensures forall id :: ListsId(a + b, id) <==> ListsId(a, id) || ListsId(b, id)
    ensures DistinctIds(a) && DistinctIds(b) && (forall id :: ListsId(b, id) ==> !ListsId(a, id)) ==> DistinctIds(a + b)
  {
    forall id ensures ListsId(a + b, id) <==> ListsId(a, id) || ListsId(b, id) {
      if ListsId(a, id) {
        var i :| 0 <= i < |a| && a[i].id == id;
        assert (a + b)[i].id == id;
      }
      if ListsId(b, id) {
        var i :| 0 <= i < |b| && b[i].id == id;
        assert (a + b)[|a| + i].id == id;
      }
    }
    if DistinctIds(a) && DistinctIds(b) && forall id :: ListsId(b, id) ==> !ListsId(a, id) {
      forall i, j | 0 <= i < j < |a + b| ensures (a + b)[i].id != (a + b)[j].id {
        if i < |a| <= j {
          assert b[j - |a|] == (a + b)[j];
          assert ListsId(b, (a + b)[j].id);
        }
      }
    }
  }

  /** `r` maps exactly the wire patterns of `ids` to the highest QoS among their subscribers. */
  ghost predicate IsMaxQosMap(subs: Registrations, ids: set<SubscriptionId>, r: map<string, QoS>) {
    && ids <= subs.Keys
    && (forall id :: id in ids ==> subs[id].pattern.MqttPattern() in r && !subs[id].qos.Above(r[subs[id].pattern.MqttPattern()]))
    && (forall w :: w in r ==> exists id :: id in ids && subs[id].pattern.MqttPattern() == w && subs[id].qos == r[w])
  }

  ghost predicate Wants(reg: Registration, wire: string, qos: QoS) {
    reg.pattern.MqttPattern() == wire && reg.qos == qos
  }

  /** Level by level: QoS 2 if somebody wants the pattern at QoS 2, QoS 0 if nobody wants it at more, and
      QoS 1 otherwise. */
  ghost predicate HighestIs(subs: Registrations, wire: string, qos: QoS) {
    && (exists id :: id in subs && Wants(subs[id], wire, qos))
    && (qos == ExactlyOnce <==> exists id :: id in subs && Wants(subs[id], wire, ExactlyOnce))
    && (qos == AtMostOnce <==> forall id :: id in subs ==> !Wants(subs[id], wire, ExactlyOnce) && !Wants(subs[id], wire, AtLeastOnce))
  }

  lemma MaxQosIsHighest(subs: Registrations, r: map<string, QoS>)
    requires IsMaxQosMap(subs, subs.Keys, r)
    ensures forall w :: w in r ==> HighestIs(subs, w, r[w])
  {
    hide IsMaxQosMap, HighestIs;
    forall w | w in r ensures HighestIs(subs, w, r[w]) {
      MaxQosIsHighestFor(subs, r, w);
    }
  }

  lemma MaxQosIsHighestFor(subs: Registrations, r: map<string, QoS>, w: string)
    requires IsMaxQosMap(subs, subs.Keys, r) && w in r
    ensures HighestIs(subs, w, r[w])
  {
    hide Pattern.MqttPattern;
    var id :| id in subs && subs[id].pattern.MqttPattern() == w && subs[id].qos == r[w];
    assert Wants(subs[id], w, r[w]);
    assert forall j :: j in subs && subs[j].pattern.MqttPattern() == w ==> !subs[j].qos.Above(r[w]);
  }

  lemma MaxQosMapGrows(subs: Registrations, ids: set<SubscriptionId>, r: map<string, QoS>, id: SubscriptionId)
    requires IsMaxQosMap(subs, ids, r) && id in subs
    ensures var (w, q) := (subs[id].pattern.MqttPattern(), subs[id].qos);
            IsMaxQosMap(subs, ids + {id}, if w in r && !q.Above(r[w]) then r else r[w := q])
  {
    var w, q := subs[id].pattern.MqttPattern(), subs[id].qos;
    var r' := if w in r && !q.Above(r[w]) then r else r[w := q];
    forall x | x in r' ensures exists j :: j in ids + {id} && subs[j].pattern.MqttPattern() == x && subs[j].qos == r'[x] {
      if x == w && r' != r {
        assert id in ids + {id};
      } else {
        var j :| j in ids && subs[j].pattern.MqttPattern() == x && subs[j].qos == r[x];
        assert j in ids + {id};
      }
    }
  }

  lemma PatternOf<T>(shape: Shape<T>, subs: Registrations, payloads: map<SubscriptionId, T>, nextId: nat, id: SubscriptionId)
    requires InStep(shape, subs, payloads, nextId) && id in subs
    ensures subs[id].pattern.Valid()
  {
  }

  lemma SlotOfHome(reg: Registration)
    ensures SlotOf(reg.pattern.Resolved()) == reg.Home()
  {
  }

  lemma HomesOfRest(subs: Registrations, id: SubscriptionId)
    ensures Homes(subs - {id}) == Homes(subs) - {id}
  {
  }

  lemma HomesOfMore(subs: Registrations, id: SubscriptionId, reg: Registration)
    ensures Homes(subs[id := reg]) == Homes(subs)[id := reg.Home()]
  {
  }

  // ----- What a search finds -----

  ghost predicate ListsId<T>(entries: seq<Subscriber<T>>, id: SubscriptionId) {
    exists i :: 0 <= i < |entries| && entries[i].id == id
  }

  ghost predicate DistinctIds<T>(entries: seq<Subscriber<T>>) {
    forall i, j :: 0 <= i < j < |entries| ==> entries[i].id != entries[j].id
  }

  /** The tables a search returns hold exactly the subscriptions that a scan of the flat table would
      select, each in one table only. */
  lemma SearchIsScan<T>(shape: Shape<T>, subs: Registrations, payloads: map<SubscriptionId, T>, nextId: nat,
                        topic: TopicPath, tables: seq<Table<T>>, slots: seq<Slot>)
    requires InStep(shape, subs, payloads, nextId)
    requires Collects(shape, [], topic.Levels(), tables, slots)
    ensures forall k, id :: 0 <= k < |tables| && id in tables[k] ==> id in subs && id in payloads && tables[k][id] == payloads[id]
    ensures forall j, k, id :: 0 <= j < k < |tables| && id in tables[j] ==> id !in tables[k]
    ensures forall id :: id in subs ==> (subs[id].Accepts(topic) <==> InSome(tables, |tables|, id))
  {
    hide Registration.Home, Registration.Accepts, Pattern.Valid, Collects, Indexes;
    SearchFindsIds(shape, Homes(subs), payloads, topic.Levels(), tables, slots);
    forall id | id in subs ensures subs[id].Accepts(topic) <==> InSome(tables, |tables|, id) {
      HomeFits(subs[id], topic);
    }
  }

  lemma HomeFits(reg: Registration, topic: TopicPath)
    requires reg.pattern.Valid()
    ensures SlotFits(reg.Home().path, reg.Home().multi, topic.Levels()) <==> reg.Accepts(topic)
  {
    var items := reg.pattern.segments;
    forall i | 0 <= i < |items| - 1 ensures !reg.pattern.Resolved()[i].Hash? {
      assert !items[i].Hash?;
    }
    SlotFitsIsMatches(reg.pattern.Resolved(), topic.Levels());
  }

  ghost function RootView<T>(root: TopicMatcherNode<T>): View<T> {
    View(map[[] := root], map[[] := Branches(map[], null)], map[[] := Cell(None, None)], {root})
  }

  lemma RootViewMirrors<T>(root: TopicMatcherNode<T>)
    requires root.path == [] && root.Kids() == Branches(map[], null) && root.Data() == Cell(None, None)
    ensures Mirrors(RootView(root)) && root.IsIn(RootView(root))
    ensures InStep(RootView(root).shape, map[], map[], 0)
  {
    var v := RootView(root);
    assert forall k :: Down([], k) != [];
  }
}

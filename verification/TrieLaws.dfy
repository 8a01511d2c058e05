/** Canonical tries: no empty table and no dead node. Such a trie is determined by its contents. */
module TrieLaws {
  import opened Wrappers
  import opened TopicMatcher

  ghost predicate NoEmptyTable<T>(shape: Shape<T>) {
    forall slot :: Get(shape, slot) != Some(map[])
  }

  ghost predicate Canonical<T>(shape: Shape<T>) {
    CanonicalBut(shape, [])
  }

  /** Canonical except that the node at `q` may have become vacant. */
  ghost predicate CanonicalBut<T>(shape: Shape<T>, q: Path) {
    && PrefixClosed(shape.Keys)
    && NoEmptyTable(shape)
    && forall x :: x in shape && x != [] && x != q ==> !Vacant(shape, x)
  }

  // ----- Contents determine the trie -----

  lemma {:induction false} LongestPath(paths: set<Path>) returns (n: nat)
    ensures forall x :: x in paths ==> |x| <= n
  {
    if paths == {} {
      n := 0;
    } else {
      var x :| x in paths;
      var m := LongestPath(paths - {x});
      n := if |x| > m then |x| else m;
    }
  }

  /** Below every node other than the root some table is found. */
  lemma {:induction false} LeadsToTable<T>(shape: Shape<T>, q: Path, n: nat) returns (slot: Slot)
    requires Canonical(shape) && q in shape && q != []
    requires forall x :: x in shape ==> |x| <= n
    ensures q <= slot.path && Get(shape, slot).Some?
    decreases n - |q|
  {
    if shape[q].exact.Some? {
      slot := Slot(q, false);
    } else if shape[q].hash.Some? {
      slot := Slot(q, true);
    } else {
      assert !Vacant(shape, q);
      var k :| Down(q, k) in shape;
      slot := LeadsToTable(shape, Down(q, k), n);
    }
  }

  lemma SameNodes<T>(a: Shape<T>, b: Shape<T>)
    requires Canonical(a) && Canonical(b)
    requires forall slot :: Get(a, slot) == Get(b, slot)
    ensures a.Keys <= b.Keys
  {
    var n := LongestPath(a.Keys);
    forall q | q in a ensures q in b {
      if q != [] {
        var slot := LeadsToTable(a, q, n);
        assert Get(b, slot).Some?;
        PrefixIn(b.Keys, slot.path, |q|);
        assert slot.path[..|q|] == q;
      }
    }
  }

  /** Two canonical tries that hold the same tables at the same slots are the same trie. */
  lemma ContentsDetermineTrie<T>(a: Shape<T>, b: Shape<T>)
    requires Canonical(a) && Canonical(b)
    requires forall slot :: Get(a, slot) == Get(b, slot)
    ensures a == b
  {
    SameNodes(a, b);
    SameNodes(b, a);
    forall q | q in a ensures a[q] == b[q] {
      assert Get(a, Slot(q, false)) == Get(b, Slot(q, false));
      assert Get(a, Slot(q, true)) == Get(b, Slot(q, true));
    }
  }

  lemma TableBelowRoot<T>(shape: Shape<T>, slot: Slot)
    requires PrefixClosed(shape.Keys) && slot.path in shape && slot.path != []
    ensures HasChild(shape, [])
  {
    assert slot.path[..1] == Down([], slot.path[0]);
    PrefixIn(shape.Keys, slot.path, 1);
  }

  lemma ChildLeadsToTable<T>(shape: Shape<T>)
    requires Canonical(shape) && HasChild(shape, [])
    ensures exists slot :: Get(shape, slot).Some?
  {
    var k :| Down([], k) in shape;
    var n := LongestPath(shape.Keys);
    var slot := LeadsToTable(shape, Down([], k), n);
  }

  /** The root of a canonical trie is vacant exactly when the trie holds nothing at all. */
  lemma VacantRootIsEmptyTrie<T>(shape: Shape<T>)
    requires Canonical(shape)
    ensures Vacant(shape, []) <==> forall slot :: Get(shape, slot).None?
  {
    if Vacant(shape, []) {
      VacantHoldsNothing(shape, []);
      forall slot ensures Get(shape, slot).None? {
        assert slot == Slot(slot.path, slot.multi);
        if slot.path in shape && slot.path != [] {
          TableBelowRoot(shape, slot);
        }
      }
    } else if HasChild(shape, []) {
      ChildLeadsToTable(shape);
    } else {
      assert Get(shape, Slot([], false)).Some? || Get(shape, Slot([], true)).Some?;
    }
  }

  // ----- Growing keeps the trie canonical -----

  lemma GrownFacts<T>(shape: Shape<T>, slot: Slot)
    requires PrefixClosed(shape.Keys)
    ensures slot.path in Grown(shape, slot)
    ensures Get(Grown(shape, slot), slot) == if Get(shape, slot).Some? then Get(shape, slot) else Some(map[])
    ensures forall other :: other != slot ==> Get(Grown(shape, slot), other) == Get(shape, other)
    ensures PrefixClosed(Grown(shape, slot).Keys)
    ensures Grown(shape, slot).Keys == shape.Keys + Prefixes(slot.path)
  {
    var s := ExtendTo(shape, slot.path);
    InPrefixes(slot.path);
    assert s.Keys == shape.Keys + Prefixes(slot.path);
    forall q | q in s.Keys ensures Up(q) in s.Keys {
      if q in Prefixes(slot.path) {
        var i :| 0 <= i <= |slot.path| && q == slot.path[..i];
        assert Up(q) == slot.path[..if i == 0 then 0 else i - 1];
      }
    }
    assert slot.path[..0] == [];
    forall other | other != slot ensures Get(Grown(shape, slot), other) == Get(shape, other) { }
  }

  lemma PrefixHasChild<T>(shape: Shape<T>, path: Path, x: Path)
    requires Prefixes(path) <= shape.Keys && x in Prefixes(path) && x != path
    ensures HasChild(shape, x)
  {
    var i :| 0 <= i <= |path| && x == path[..i];
    assert Down(x, path[i]) == path[..i + 1];
    assert Down(x, path[i]) in shape;
  }

  /** Storing a non-empty table at a slot, with the way to it, keeps a trie canonical. */
  lemma StoreKeepsCanonical<T>(shape: Shape<T>, slot: Slot, table: Table<T>)
    requires Canonical(shape) && table != map[]
    requires slot.path in Grown(shape, slot)
    ensures Canonical(Put(Grown(shape, slot), slot, Some(table)))
    ensures forall other :: Get(Put(Grown(shape, slot), slot, Some(table)), other) == if other == slot then Some(table) else Get(shape, other)
  {
    hide Grown, Prefixes;
    GrownFacts(shape, slot);
    var grown := Grown(shape, slot);
    var s := Put(grown, slot, Some(table));
    assert s.Keys == grown.Keys;
    forall other ensures Get(s, other) == if other == slot then Some(table) else Get(shape, other) {
      assert Get(s, other) == if other == slot then Some(table) else Get(grown, other);
    }
    forall x | x in s && x != [] ensures !Vacant(s, x) {
      if x == slot.path {
        assert Get(s, slot) == Some(table);
      } else if x in Prefixes(slot.path) {
        PrefixHasChild(s, slot.path, x);
      } else {
        StillOccupied(shape, s, x);
      }
    }
  }

  lemma StillOccupied<T>(shape: Shape<T>, s: Shape<T>, x: Path)
    requires x in shape && x in s && !Vacant(shape, x)
    requires shape.Keys <= s.Keys
    requires !NoData(Get(shape, Slot(x, false))) ==> !NoData(Get(s, Slot(x, false)))
    requires !NoData(Get(shape, Slot(x, true))) ==> !NoData(Get(s, Slot(x, true)))
    ensures !Vacant(s, x)
  {
    if HasChild(shape, x) {
      var k :| Down(x, k) in shape;
      assert Down(x, k) in s;
    }
  }

  // ----- Pruning keeps the trie canonical -----

  lemma VacantHoldsNothing<T>(shape: Shape<T>, q: Path)
    requires NoEmptyTable(shape) && Vacant(shape, q)
    ensures Get(shape, Slot(q, false)).None? && Get(shape, Slot(q, true)).None?
  {
  }

  lemma DropVacant<T>(shape: Shape<T>, q: Path)
    requires CanonicalBut(shape, q) && q != [] && Vacant(shape, q)
    ensures CanonicalBut(shape - {q}, Up(q)) && Up(q) in shape - {q}
    ensures forall slot :: Get(shape - {q}, slot) == Get(shape, slot)
  {
    var s := shape - {q};
    VacantHoldsNothing(shape, q);
    assert forall k :: Down(q, k) !in shape.Keys;
    CutKeepsPrefixClosed(shape.Keys, q);
    assert s.Keys == shape.Keys - {q};
    forall slot ensures Get(s, slot) == Get(shape, slot) {
      if slot.path == q { assert slot == Slot(q, slot.multi); }
    }
    forall x | x in s && x != [] && x != Up(q) ensures !Vacant(s, x) {
      assert !Vacant(shape, x);
      if HasChild(shape, x) {
        var k :| Down(x, k) in shape;
        assert Up(Down(x, k)) == x;
        assert Down(x, k) in s;
      }
    }
  }

  lemma {:induction false} PruneKeepsCanonical<T>(shape: Shape<T>, q: Path)
    requires CanonicalBut(shape, q) && q in shape
    ensures Canonical(PruneUp(shape, q, 0))
    ensures forall slot :: Get(PruneUp(shape, q, 0), slot) == Get(shape, slot)
    decreases |q|
  {
    if |q| > 0 && Vacant(shape, q) {
      DropVacant(shape, q);
      PruneKeepsCanonical(shape - {q}, Up(q));
    }
  }

  /** Updating the table of a slot from the root changes that table only, drops it when it becomes
      empty, and leaves the trie canonical. */
  lemma UpdateKeepsCanonical<T>(shape: Shape<T>, slot: Slot, f: Table<T> -> Table<T>)
    requires Canonical(shape) && Get(shape, slot).Some?
    ensures Canonical(Updated(shape, slot, f, 0))
    ensures forall other :: Get(Updated(shape, slot, f, 0), other) ==
                            if other != slot then Get(shape, other)
                            else if f(Get(shape, slot).value) == map[] then None
                            else Some(f(Get(shape, slot).value))
  {
    var table := f(Get(shape, slot).value);
    var data := if table == map[] then None else Some(table);
    var s := Put(shape, slot, data);
    assert s.Keys == shape.Keys;
    assert forall other :: Get(s, other) == if other == slot then data else Get(shape, other);
    forall x | x in s && x != [] && x != slot.path ensures !Vacant(s, x) {
      StillOccupied(shape, s, x);
    }
    PruneKeepsCanonical(s, slot.path);
  }

  // ----- Canonical tries as indexes -----

  /** The trie holds exactly the given ids, each with its payload in the table of its own slot. */
  ghost predicate Indexes<T>(shape: Shape<T>, homes: map<SubscriptionId, Slot>, payloads: map<SubscriptionId, T>) {
    && payloads.Keys == homes.Keys
    && (forall id :: id in homes ==> Holds(shape, homes[id], id))
    && (forall slot, id :: Holds(shape, slot, id) ==>
          id in homes && homes[id] == slot && Get(shape, slot).value[id] == payloads[id])
  }

  ghost predicate Holds<T>(shape: Shape<T>, slot: Slot, id: SubscriptionId) {
    Get(shape, slot).Some? && id in Get(shape, slot).value
  }

  /** The trie after storing `payload` under `id` in the table of `slot`. */
  ghost function Stored<T>(shape: Shape<T>, slot: Slot, id: SubscriptionId, payload: T): Shape<T>
    requires PrefixClosed(shape.Keys)
  {
    GrownFacts(shape, slot);
    Put(Grown(shape, slot), slot, Some(Get(Grown(shape, slot), slot).value[id := payload]))
  }

  lemma StoredIsPut<T>(shape: Shape<T>, slot: Slot, id: SubscriptionId, payload: T)
    requires Canonical(shape)
    ensures slot.path in Grown(shape, slot) && Get(Grown(shape, slot), slot).Some?
    ensures PrefixClosed(shape.Keys)
    ensures Stored(shape, slot, id, payload) == Put(Grown(shape, slot), slot, Some(Get(Grown(shape, slot), slot).value[id := payload]))
  {
    GrownFacts(shape, slot);
  }

  /** Storing a new id in the table of its slot keeps the trie canonical and in step. */
  lemma AddKeepsIndex<T>(shape: Shape<T>, homes: map<SubscriptionId, Slot>, payloads: map<SubscriptionId, T>,
                         id: SubscriptionId, slot: Slot, payload: T)
    requires Canonical(shape) && Indexes(shape, homes, payloads) && id !in homes
    ensures Canonical(Stored(shape, slot, id, payload))
    ensures Indexes(Stored(shape, slot, id, payload), homes[id := slot], payloads[id := payload])
  {
    StoredIsCanonical(shape, slot, id, payload);
    StoredHolds(shape, slot, id, payload);
    IndexExtends(shape, Stored(shape, slot, id, payload), homes, payloads, id, slot, payload);
  }

  lemma IndexExtends<T>(a: Shape<T>, b: Shape<T>, homes: map<SubscriptionId, Slot>, payloads: map<SubscriptionId, T>,
                        id: SubscriptionId, slot: Slot, payload: T)
    requires Indexes(a, homes, payloads) && id !in homes
    requires forall other, j :: Holds(b, other, j) <==> Holds(a, other, j) || (other == slot && j == id)
    requires forall other, j :: Holds(b, other, j) ==>
               Get(b, other).value[j] == if other == slot && j == id then payload else Get(a, other).value[j]
    ensures Indexes(b, homes[id := slot], payloads[id := payload])
  {
    hide Get;
  }

  lemma StoredIsCanonical<T>(shape: Shape<T>, slot: Slot, id: SubscriptionId, payload: T)
    requires Canonical(shape)
    ensures Canonical(Stored(shape, slot, id, payload))
  {
    GrownFacts(shape, slot);
    var table := Get(Grown(shape, slot), slot).value[id := payload];
    assert id in table;
    StoreKeepsCanonical(shape, slot, table);
  }

  lemma StoredHolds<T>(shape: Shape<T>, slot: Slot, id: SubscriptionId, payload: T)
    requires PrefixClosed(shape.Keys)
    ensures var s := Stored(shape, slot, id, payload);
            forall other, j :: Holds(s, other, j) <==> Holds(shape, other, j) || (other == slot && j == id)
    ensures var s := Stored(shape, slot, id, payload);
            forall other, j :: Holds(s, other, j) ==>
              Get(s, other).value[j] == if other == slot && j == id then payload else Get(shape, other).value[j]
  {
    GrownFacts(shape, slot);
    var table := Get(Grown(shape, slot), slot).value;
    var s := Stored(shape, slot, id, payload);
    assert forall other :: Get(s, other) == if other == slot then Some(table[id := payload]) else Get(Grown(shape, slot), other);
  }

  /** The table found or created for a slot lists exactly the ids registered there. */
  lemma TableOfSlot<T>(shape: Shape<T>, homes: map<SubscriptionId, Slot>, payloads: map<SubscriptionId, T>, slot: Slot)
    requires Canonical(shape) && Indexes(shape, homes, payloads)
    ensures slot.path in Grown(shape, slot) && Get(Grown(shape, slot), slot).Some?
    ensures forall j :: j in Get(Grown(shape, slot), slot).value <==> j in homes && homes[j] == slot
  {
    GrownFacts(shape, slot);
    forall j ensures j in Get(Grown(shape, slot), slot).value <==> j in homes && homes[j] == slot {
      assert Holds(shape, slot, j) <==> j in Get(Grown(shape, slot), slot).value;
    }
  }

  /** The update that `unsubscribe` applies to a table. */
  function Removal<T>(id: SubscriptionId): Table<T> -> Table<T> {
    (table: Table<T>) => table - {id}
  }

  /** Removing an id from the table of its slot keeps the trie canonical and in step, and the root is
      vacant afterwards exactly when no id is left at all. */
  lemma RemoveKeepsIndex<T>(shape: Shape<T>, homes: map<SubscriptionId, Slot>, payloads: map<SubscriptionId, T>, id: SubscriptionId)
    requires Canonical(shape) && Indexes(shape, homes, payloads) && id in homes
    ensures Get(shape, homes[id]).Some?
    ensures var s := Updated(shape, homes[id], Removal(id), 0);
            && Canonical(s)
            && Indexes(s, homes - {id}, payloads - {id})
            && (Vacant(s, []) <==> homes - {id} == map[])
  {
    var slot := homes[id];
    assert Holds(shape, slot, id);
    var table := Get(shape, slot).value;
    UpdateKeepsCanonical(shape, slot, Removal(id));
    var s := Updated(shape, slot, Removal(id), 0);
    forall other, j
      ensures Holds(s, other, j) <==> Holds(shape, other, j) && j != id
    {
      assert Get(s, other) == if other != slot then Get(shape, other) else if table - {id} == map[] then None else Some(table - {id});
      if Holds(shape, other, j) && j != id && other == slot {
        assert j in table - {id};
      }
    }
    VacantRootIsEmptyTrie(s);
    IndexEmptiness(s, homes - {id}, payloads - {id});
  }

  lemma IndexEmptiness<T>(shape: Shape<T>, homes: map<SubscriptionId, Slot>, payloads: map<SubscriptionId, T>)
    requires NoEmptyTable(shape) && Indexes(shape, homes, payloads)
    ensures (forall slot :: Get(shape, slot).None?) <==> homes == map[]
  {
    if homes == map[] {
      forall slot ensures Get(shape, slot).None? {
        assert Get(shape, slot) != Some(map[]);
        if Get(shape, slot).Some? {
          var id :| id in Get(shape, slot).value;
          assert Holds(shape, slot, id);
        }
      }
    } else {
      var id :| id in homes;
      assert Holds(shape, homes[id], id);
    }
  }

  /** The trie is a function of the live subscriptions: whatever the order in which they came and
      whatever was added and removed in between, equal tables mean the very same trie. */
  lemma TrieDependsOnLiveSubscriptions<T>(a: Shape<T>, b: Shape<T>, homes: map<SubscriptionId, Slot>, payloads: map<SubscriptionId, T>)
    requires Canonical(a) && Indexes(a, homes, payloads)
    requires Canonical(b) && Indexes(b, homes, payloads)
    ensures a == b
  {
    forall slot ensures Get(a, slot) == Get(b, slot) {
      if Get(a, slot).Some? {
        SubTable(a, b, homes, payloads, slot);
      }
      if Get(b, slot).Some? {
        SubTable(b, a, homes, payloads, slot);
        assert Get(a, slot).value == Get(b, slot).value;
      }
    }
    ContentsDetermineTrie(a, b);
  }

  lemma SubTable<T>(a: Shape<T>, b: Shape<T>, homes: map<SubscriptionId, Slot>, payloads: map<SubscriptionId, T>, slot: Slot)
    requires NoEmptyTable(a) && Indexes(a, homes, payloads) && Indexes(b, homes, payloads)
    requires Get(a, slot).Some?
    ensures Get(b, slot).Some?
    ensures forall id :: id in Get(a, slot).value ==> id in Get(b, slot).value && Get(b, slot).value[id] == Get(a, slot).value[id]
  {
    assert Get(a, slot) != Some(map[]);
    forall id | id in Get(a, slot).value
      ensures Get(b, slot).Some? && id in Get(b, slot).value && Get(b, slot).value[id] == Get(a, slot).value[id]
    {
      assert Holds(a, slot, id);
      assert Holds(b, homes[id], id);
    }
    var some :| some in Get(a, slot).value;
  }

  /** Subscribing and then unsubscribing the same id gives the very same trie back. */
  lemma AddThenRemove<T>(shape: Shape<T>, homes: map<SubscriptionId, Slot>, payloads: map<SubscriptionId, T>,
                         id: SubscriptionId, slot: Slot, payload: T)
    requires Canonical(shape) && Indexes(shape, homes, payloads) && id !in homes
    ensures Get(Stored(shape, slot, id, payload), slot).Some?
    ensures Updated(Stored(shape, slot, id, payload), slot, Removal(id), 0) == shape
  {
    AddKeepsIndex(shape, homes, payloads, id, slot, payload);
    assert homes[id := slot] - {id} == homes;
    assert payloads[id := payload] - {id} == payloads;
    RemoveKeepsIndex(Stored(shape, slot, id, payload), homes[id := slot], payloads[id := payload], id);
    TrieDependsOnLiveSubscriptions(Updated(Stored(shape, slot, id, payload), slot, Removal(id), 0), shape, homes, payloads);
  }

  // ----- What a search finds -----

  ghost predicate InSome<T>(tables: seq<Table<T>>, k: nat, id: SubscriptionId)
    requires k <= |tables|
  {
    exists j :: 0 <= j < k && id in tables[j]
  }

  /** The tables found for a topic hold exactly the ids whose slot fits it, each in one table only. */
  lemma SearchFindsIds<T>(shape: Shape<T>, homes: map<SubscriptionId, Slot>, payloads: map<SubscriptionId, T>,
                          levels: seq<string>, tables: seq<Table<T>>, slots: seq<Slot>)
    requires Indexes(shape, homes, payloads) && Collects(shape, [], levels, tables, slots)
    ensures forall k, id :: 0 <= k < |tables| && id in tables[k] ==> id in homes && id in payloads && tables[k][id] == payloads[id]
    ensures forall j, k, id :: 0 <= j < k < |tables| && id in tables[j] ==> id !in tables[k]
    ensures forall id :: id in homes ==> (SlotFits(homes[id].path, homes[id].multi, levels) <==> InSome(tables, |tables|, id))
  {
    hide SlotFits;
    forall k, id | 0 <= k < |tables| && id in tables[k]
      ensures id in homes && homes[id] == slots[k] && tables[k][id] == payloads[id]
    {
      assert Holds(shape, slots[k], id);
    }
    forall j, k, id | 0 <= j < k < |tables| && id in tables[j] ensures id !in tables[k] {
      assert homes[id] == slots[j] && slots[j] != slots[k];
      if id in tables[k] {
        assert false;
      }
    }
    forall id | id in homes
      ensures SlotFits(homes[id].path, homes[id].multi, levels) <==> InSome(tables, |tables|, id)
    {
      var slot := homes[id];
      assert Holds(shape, slot, id);
      assert slot.path[0..] == slot.path;
      assert IsHit(shape, [], levels, slot) <==> SlotFits(slot.path, slot.multi, levels);
      if slot in slots {
        var k :| 0 <= k < |slots| && slots[k] == slot;
        assert id in tables[k];
      }
    }
  }
}

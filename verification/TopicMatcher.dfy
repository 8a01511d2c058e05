/** The topic trie: nodes with literal, `+` and `#` branches, grown and pruned in place.

    The nodes are heap objects. A ghost `View` pictures the whole trie: which node stands at which
    path from the root, its children, and, as a value of type `Shape`, the tables found there. */
module TopicMatcher {
  import opened Wrappers
  import opened TopicPatternItem
  import opened TopicMatch
  import opened TopicPatternPath

  type SubscriptionId = nat
  type Table<T> = map<SubscriptionId, T>

  // ----- Paths and slots -----

  /** One edge of the trie: a literal level or the `+` branch. */
  datatype Key = Lit(text: string) | Any

  type Path = seq<Key>

  /** One step down the trie, and back up. */
  function Down(p: Path, k: Key): (q: Path)
    ensures q != [] && Up(q) == p && Last(q) == k
  {
    p + [k]
  }

  function Up(q: Path): Path {
    if q == [] then [] else q[..|q| - 1]
  }

  function Last(q: Path): Key {
    if q == [] then Any else q[|q| - 1]
  }

  lemma DownUp(q: Path)
    requires q != []
    ensures Down(Up(q), Last(q)) == q
  {
  }

  /** Where a table lives: the node at `path`, in its exact or in its `#` field. */
  datatype Slot = Slot(path: Path, multi: bool)

  function KeyOf(item: Item): Key {
    if item.Str? then Lit(item.text) else Any
  }

  /** The slot a pattern leads to; everything after a `#` is ignored. */
  function SlotOf(items: seq<Item>): Slot {
    if items == [] then Slot([], false)
    else if items[0].Hash? then Slot([], true)
    else
      var rest := SlotOf(items[1..]);
      Slot([KeyOf(items[0])] + rest.path, rest.multi)
  }

  /** Walking one item further down leaves the rest of the pattern's slot to go. */
  lemma SlotOfStep(items: seq<Item>, i: nat, p: Path)
    requires i < |items| && !items[i].Hash?
    ensures SlotOf(items[i..]).multi == SlotOf(items[i + 1..]).multi
    ensures p + SlotOf(items[i..]).path == Down(p, KeyOf(items[i])) + SlotOf(items[i + 1..]).path
  {
    assert items[i..][1..] == items[i + 1..];
  }

  predicate KeyFits(key: Key, level: string) {
    key.Lit? ==> key.text == level
  }

  predicate SlotFits(path: Path, multi: bool, levels: seq<string>) {
    && (if multi then |path| <= |levels| else |path| == |levels|)
    && forall i :: 0 <= i < |path| ==> KeyFits(path[i], levels[i])
  }

  lemma {:induction false} SlotOfByPosition(items: seq<Item>)
    requires HashLast(items)
    ensures SlotOf(items).multi <==> items != [] && items[|items| - 1].Hash?
    ensures |SlotOf(items).path| == if SlotOf(items).multi then |items| - 1 else |items|
    ensures forall i :: 0 <= i < |SlotOf(items).path| ==> SlotOf(items).path[i] == KeyOf(items[i])
  {
    if items != [] && !items[0].Hash? {
      assert HashLast(items[1..]) by {
        forall i | 0 <= i < |items[1..]| - 1 ensures !items[1..][i].Hash? { assert items[1..][i] == items[i + 1]; }
      }
      SlotOfByPosition(items[1..]);
    }
  }

  /** The trie's reading of a pattern agrees with the level-by-level matching rules. */
  lemma SlotFitsIsMatches(items: seq<Item>, levels: seq<string>)
    requires HashLast(items)
    ensures SlotFits(SlotOf(items).path, SlotOf(items).multi, levels) <==> Matches(items, levels)
  {
    SlotOfByPosition(items);
    var slot := SlotOf(items);
    forall i | 0 <= i < |slot.path| && i < |levels| ensures KeyFits(slot.path[i], levels[i]) <==> LevelFits(items[i], levels[i]) {
      assert slot.path[i] == KeyOf(items[i]);
    }
  }

  // ----- The trie as a value -----

  datatype Cell<T> = Cell(exact: Option<Table<T>>, hash: Option<Table<T>>)

  type Shape<T> = map<Path, Cell<T>>

  function Get<T>(shape: Shape<T>, slot: Slot): Option<Table<T>> {
    if slot.path !in shape then None
    else if slot.multi then shape[slot.path].hash
    else shape[slot.path].exact
  }

  function Put<T>(shape: Shape<T>, slot: Slot, data: Option<Table<T>>): Shape<T>
    requires slot.path in shape
  {
    var cell := shape[slot.path];
    shape[slot.path := if slot.multi then cell.(hash := data) else cell.(exact := data)]
  }

  ghost predicate PrefixClosed(paths: set<Path>) {
    [] in paths && forall q {:trigger Up(q)} :: q in paths ==> Up(q) in paths
  }

  lemma {:induction false} PrefixIn(paths: set<Path>, q: Path, n: nat)
    requires PrefixClosed(paths) && q in paths && n <= |q|
    ensures q[..n] in paths
    decreases |q|
  {
    if n < |q| {
      PrefixIn(paths, Up(q), n);
      assert Up(q)[..n] == q[..n];
    } else {
      assert q[..n] == q;
    }
  }

  predicate NoData<T>(data: Option<Table<T>>) {
    data.None? || data.value == map[]
  }

  ghost predicate HasChild<T>(shape: Shape<T>, q: Path) {
    exists k :: Down(q, k) in shape
  }

  /** The node holds no subscription and has no children. */
  ghost predicate Vacant<T>(shape: Shape<T>, q: Path) {
    q in shape && NoData(shape[q].exact) && NoData(shape[q].hash) && !HasChild(shape, q)
  }

  function Prefixes(p: Path): set<Path> {
    set i | 0 <= i <= |p| :: p[..i]
  }

  lemma PrefixesDown(p: Path, k: Key)
    ensures Prefixes(Down(p, k)) == Prefixes(p) + {Down(p, k)}
  {
    assert forall i :: 0 <= i <= |p| ==> Down(p, k)[..i] == p[..i];
    assert Down(p, k)[..|p| + 1] == Down(p, k);
    forall x | x in Prefixes(p) ensures x in Prefixes(Down(p, k)) {
      var i :| 0 <= i <= |p| && x == p[..i];
      assert Down(p, k)[..i] == x;
    }
  }

  /** The shape with every node on the way to `p` present, new ones empty. */
  ghost function ExtendTo<T>(shape: Shape<T>, p: Path): Shape<T> {
    map q | q in shape.Keys + Prefixes(p) :: if q in shape then shape[q] else Cell(None, None)
  }

  lemma ExtendStep<T>(shape: Shape<T>, p: Path, k: Key)
    ensures var s, q := ExtendTo(shape, p), Down(p, k);
            ExtendTo(shape, q) == if q in s then s else s[q := Cell(None, None)]
  {
    PrefixesDown(p, k);
    var s, q := ExtendTo(shape, p), Down(p, k);
    assert forall x :: x in Prefixes(p) ==> |x| <= |p|;
    assert ExtendTo(shape, q).Keys == s.Keys + {q};
  }

  lemma ExtendToRoot<T>(shape: Shape<T>)
    requires [] in shape
    ensures ExtendTo(shape, []) == shape
  {
    assert forall x :: x in Prefixes([]) ==> x == [];
  }

  /** What looking up a table for `slot` leaves behind: the way to it, and a table if there was none. */
  ghost function Grown<T>(shape: Shape<T>, slot: Slot): Shape<T> {
    var s := ExtendTo(shape, slot.path);
    InPrefixes(slot.path);
    if Get(s, slot).None? then Put(s, slot, Some(map[])) else s
  }

  lemma InPrefixes(p: Path)
    ensures p in Prefixes(p)
  {
    assert p[..|p|] == p;
  }

  lemma GrownHasTable<T>(shape: Shape<T>, slot: Slot)
    ensures slot.path in Grown(shape, slot) && Get(Grown(shape, slot), slot).Some?
  {
    InPrefixes(slot.path);
  }

  /** Removes the node at `q`, then its parent and so on up to depth `base`, while they are vacant. */
  ghost function PruneUp<T>(shape: Shape<T>, q: Path, base: nat): (r: Shape<T>)
    requires base <= |q|
    ensures r.Keys <= shape.Keys && forall x :: x in r ==> r[x] == shape[x]
    decreases |q|
  {
    if |q| > base && Vacant(shape, q) then PruneUp(shape - {q}, Up(q), base) else shape
  }

  /** The table at `slot` after `f`; an emptied table is dropped and dead nodes below `base` go. */
  ghost function Updated<T>(shape: Shape<T>, slot: Slot, f: Table<T> -> Table<T>, base: nat): Shape<T>
    requires Get(shape, slot).Some? && base <= |slot.path|
  {
    var table := f(Get(shape, slot).value);
    PruneUp(Put(shape, slot, if table == map[] then None else Some(table)), slot.path, base)
  }

  lemma CutKeepsPrefixClosed(paths: set<Path>, q: Path)
    requires PrefixClosed(paths) && q != [] && forall k :: Down(q, k) !in paths
    ensures PrefixClosed(paths - {q})
  {
    forall x | x in paths - {q} ensures Up(x) in paths - {q} {
      if x != [] {
        DownUp(x);
      }
    }
  }

  lemma {:induction false} PruneOneMore<T>(shape: Shape<T>, q: Path, base: nat)
    requires base < |q| && q in shape && PrefixClosed(shape.Keys)
    ensures var r := PruneUp(shape, q, base + 1);
            && q[..base + 1] in r
            && PruneUp(shape, q, base) == if Vacant(r, q[..base + 1]) then r - {q[..base + 1]} else r
    decreases |q|
  {
    if |q| == base + 1 {
      assert q[..base + 1] == q;
      if Vacant(shape, q) {
        assert PruneUp(shape, q, base) == PruneUp(shape - {q}, Up(q), base) == shape - {q};
      }
    } else if Vacant(shape, q) {
      var smaller := shape - {q};
      assert forall k :: Down(q, k) !in shape.Keys;
      CutKeepsPrefixClosed(shape.Keys, q);
      assert smaller.Keys == shape.Keys - {q};
      PruneOneMore(smaller, Up(q), base);
      assert Up(q)[..base + 1] == q[..base + 1];
    } else {
      PrefixIn(shape.Keys, q, base + 1);
      PrefixIn(shape.Keys, q, base + 2);
      assert q[..base + 2] == Down(q[..base + 1], q[base + 1]);
      assert HasChild(shape, q[..base + 1]);
    }
  }

  // ----- Searching -----

  /** `slot` lies at or below `p`, holds a table, and its rest fits `levels`. */
  ghost predicate IsHit<T>(shape: Shape<T>, p: Path, levels: seq<string>, slot: Slot) {
    p <= slot.path && Get(shape, slot).Some? && SlotFits(slot.path[|p|..], slot.multi, levels)
  }

  /** Distinct slots, each with its table. */
  ghost predicate Lists<T>(shape: Shape<T>, tables: seq<Table<T>>, slots: seq<Slot>) {
    && |tables| == |slots|
    && (forall i, j :: 0 <= i < j < |slots| ==> slots[i] != slots[j])
    && (forall i :: 0 <= i < |slots| ==> Get(shape, slots[i]) == Some(tables[i]))
  }

  /** The tables found are exactly those of the fitting slots, each slot once. */
  ghost predicate Collects<T>(shape: Shape<T>, p: Path, levels: seq<string>, tables: seq<Table<T>>, slots: seq<Slot>) {
    && Lists(shape, tables, slots)
    && forall slot :: slot in slots <==> IsHit(shape, p, levels, slot)
  }

  lemma ListsConcat<T>(shape: Shape<T>, tables: seq<Table<T>>, slots: seq<Slot>, moreTables: seq<Table<T>>, moreSlots: seq<Slot>)
    requires Lists(shape, tables, slots) && Lists(shape, moreTables, moreSlots)
    requires forall slot :: slot in slots ==> slot !in moreSlots
    ensures Lists(shape, tables + moreTables, slots + moreSlots)
  {
    var all := slots + moreSlots;
    forall i, j | 0 <= i < j < |all| ensures all[i] != all[j] {
      if i < |slots| <= j {
        assert all[i] in slots && all[j] in moreSlots;
      }
    }
  }

  lemma HitAtEnd<T>(shape: Shape<T>, p: Path, slot: Slot)
    ensures IsHit(shape, p, [], slot) <==> slot.path == p && Get(shape, slot).Some?
  {
  }

  /** A fitting slot below `p` goes through the literal child, through the `+` child, or is the `#` here. */
  lemma HitSplit<T>(shape: Shape<T>, p: Path, levels: seq<string>, slot: Slot)
    requires levels != []
    ensures IsHit(shape, p, levels, slot) <==>
            || IsHit(shape, Down(p, Lit(levels[0])), levels[1..], slot)
            || IsHit(shape, Down(p, Any), levels[1..], slot)
            || (slot == Slot(p, true) && Get(shape, slot).Some?)
  {
    if p <= slot.path && |slot.path| > |p| {
      var rest, k := slot.path[|p|..], slot.path[|p|];
      assert Down(p, k) <= slot.path;
      assert slot.path[|p| + 1..] == rest[1..];
      assert forall j :: Down(p, j) <= slot.path <==> j == k by {
        forall j | Down(p, j) <= slot.path ensures j == k { assert Down(p, j)[|p|] == j; }
      }
      assert SlotFits(rest, slot.multi, levels) <==> KeyFits(k, levels[0]) && SlotFits(rest[1..], slot.multi, levels[1..]) by {
        if KeyFits(k, levels[0]) && SlotFits(rest[1..], slot.multi, levels[1..]) {
          forall i | 0 <= i < |rest| ensures KeyFits(rest[i], levels[i]) {
            assert i > 0 ==> KeyFits(rest[1..][i - 1], levels[1..][i - 1]);
          }
        }
        if SlotFits(rest, slot.multi, levels) {
          forall i | 0 <= i < |rest[1..]| ensures KeyFits(rest[1..][i], levels[1..][i]) {
            assert KeyFits(rest[i + 1], levels[i + 1]);
          }
        }
      }
    } else {
      forall j ensures Down(p, j) <= slot.path ==> p <= slot.path && |slot.path| > |p| {
        assert Down(p, j)[..|p|] == p;
      }
    }
  }

  /** Where there is no node there is nothing to find. */
  lemma NoNodeNoHit<T>(shape: Shape<T>, p: Path, levels: seq<string>)
    requires PrefixClosed(shape.Keys) && p !in shape
    ensures Collects(shape, p, levels, [], [])
  {
    forall slot ensures !IsHit(shape, p, levels, slot) {
      if IsHit(shape, p, levels, slot) {
        assert slot.path[..|p|] == p;
        PrefixIn(shape.Keys, slot.path, |p|);
      }
    }
  }

  /** What the two branches and the `#` field yield together is what the node yields. */
  lemma CollectsJoin<T>(shape: Shape<T>, p: Path, levels: seq<string>,
                        litTables: seq<Table<T>>, litSlots: seq<Slot>,
                        plusTables: seq<Table<T>>, plusSlots: seq<Slot>)
    requires levels != [] && p in shape
    requires Collects(shape, Down(p, Lit(levels[0])), levels[1..], litTables, litSlots)
    requires Collects(shape, Down(p, Any), levels[1..], plusTables, plusSlots)
    ensures var own := shape[p].hash;
            Collects(shape, p, levels,
                     litTables + plusTables + (if own.Some? then [own.value] else []),
                     litSlots + plusSlots + (if own.Some? then [Slot(p, true)] else []))
  {
    var ownTables := if shape[p].hash.Some? then [shape[p].hash.value] else [];
    var ownSlots := if shape[p].hash.Some? then [Slot(p, true)] else [];
    forall slot
      ensures slot in litSlots ==> Branch(slot, p) == Some(Lit(levels[0]))
      ensures slot in plusSlots ==> Branch(slot, p) == Some(Any)
    {
      if slot in litSlots { BranchOfHit(shape, p, Lit(levels[0]), levels[1..], slot); }
      if slot in plusSlots { BranchOfHit(shape, p, Any, levels[1..], slot); }
    }
    ListsConcat(shape, litTables, litSlots, plusTables, plusSlots);
    ListsConcat(shape, litTables + plusTables, litSlots + plusSlots, ownTables, ownSlots);
    forall slot
      ensures slot in litSlots + plusSlots + ownSlots <==> IsHit(shape, p, levels, slot)
    {
      HitSplit(shape, p, levels, slot);
    }
  }

  /** The edge a slot takes below `p`, if it goes on at all. */
  function Branch(slot: Slot, p: Path): Option<Key> {
    if |slot.path| > |p| then Some(slot.path[|p|]) else None
  }

  lemma BranchOfHit<T>(shape: Shape<T>, p: Path, k: Key, levels: seq<string>, slot: Slot)
    requires IsHit(shape, Down(p, k), levels, slot)
    ensures Branch(slot, p) == Some(k)
  {
    assert Down(p, k)[|p|] == k;
  }

  // ----- The trie on the heap -----

  datatype MatcherError = InvalidSegment(segment: string, position: nat)

  type Layout<T> = map<Path, TopicMatcherNode<T>>

  /** The two kinds of children of one node. */
  datatype Branches<T> = Branches(exact: map<string, TopicMatcherNode<T>>, plus: TopicMatcherNode?<T>)
  {
    predicate Has(k: Key) {
      if k.Lit? then k.text in exact else plus != null
    }

    function Kid(k: Key): TopicMatcherNode<T>
      requires Has(k)
    {
      if k.Lit? then exact[k.text] else plus
    }

    function With(k: Key, child: TopicMatcherNode<T>): (b: Branches<T>)
      ensures forall j :: b.Has(j) <==> j == k || Has(j)
      ensures forall j :: b.Has(j) ==> b.Kid(j) == if j == k then child else Kid(j)
    {
      if k.Lit? then Branches(exact[k.text := child], plus) else Branches(exact, child)
    }

    function Without(k: Key): (b: Branches<T>)
      ensures forall j :: b.Has(j) <==> j != k && Has(j)
      ensures forall j :: b.Has(j) ==> b.Kid(j) == Kid(j)
    {
      if k.Lit? then Branches(exact - {k.text}, plus) else Branches(exact, null)
    }

    lemma NoneMeansEmpty()
      ensures (forall k :: !Has(k)) <==> exact == map[] && plus == null
    {
      if forall k :: !Has(k) {
        assert !Has(Any);
        forall s ensures s !in exact { assert !Has(Lit(s)); }
      }
    }
  }

  type Links<T> = map<Path, Branches<T>>

  /** The layout lists exactly the nodes reachable from its root, each at one path. */
  ghost predicate Consistent<T>(at: Layout<T>, links: Links<T>) {
    && links.Keys == at.Keys
    && PrefixClosed(at.Keys)
    && (forall p {:trigger at[p]} :: p in at ==> at[p].path == p)
    && (forall p, k {:trigger Down(p, k)} :: p in at ==> (links[p].Has(k) <==> Down(p, k) in at))
    && (forall p, k {:trigger Down(p, k)} :: p in at && links[p].Has(k) ==> at[Down(p, k)] == links[p].Kid(k))
  }

  /** A ghost picture of the whole trie: its nodes by path, their children, and their tables. */
  datatype View<T> = View(at: Layout<T>, links: Links<T>, shape: Shape<T>, nodes: set<TopicMatcherNode<T>>)
  {
    ghost predicate Coherent() {
      && Consistent(at, links)
      && shape.Keys == at.Keys
      && forall p {:trigger at[p]} :: p in at ==> at[p] in nodes
    }
  }

  /** The picture is true of the heap. */
  ghost predicate Mirrors<T>(v: View<T>)
    reads v.nodes
  {
    && v.Coherent()
    && forall p {:trigger v.at[p]} :: p in v.at ==> v.at[p].Kids() == v.links[p] && v.at[p].Data() == v.shape[p]
  }

  lemma GraftKeepsPrefixClosed(paths: set<Path>, p: Path, k: Key)
    requires PrefixClosed(paths) && p in paths
    ensures PrefixClosed(paths + {Down(p, k)})
  {
  }

  lemma LeafHasNoChild(paths: set<Path>, leaf: Path)
    requires PrefixClosed(paths) && leaf !in paths
    ensures forall j :: Down(leaf, j) !in paths
  {
    forall j ensures Down(leaf, j) !in paths {
      assert Down(leaf, j) in paths ==> Up(Down(leaf, j)) in paths;
    }
  }

  /** Hanging a new leaf below `p` keeps the layout consistent. */
  lemma GraftKeepsConsistent<T>(at: Layout<T>, links: Links<T>, p: Path, k: Key, child: TopicMatcherNode<T>)
    requires Consistent(at, links) && p in at && Down(p, k) !in at
    requires child.path == Down(p, k)
    ensures Consistent(at[Down(p, k) := child], links[p := links[p].With(k, child)][Down(p, k) := Branches(map[], null)])
  {
    var leaf := Down(p, k);
    var at' := at[leaf := child];
    var links' := links[p := links[p].With(k, child)][leaf := Branches(map[], null)];
    LeafHasNoChild(at.Keys, leaf);
    assert at'.Keys == at.Keys + {leaf};
    GraftKeepsPrefixClosed(at.Keys, p, k);
    forall q, j | q in at'
      ensures links'[q].Has(j) <==> Down(q, j) in at'
      ensures links'[q].Has(j) ==> at'[Down(q, j)] == links'[q].Kid(j)
    {
      assert Up(Down(q, j)) == q && Last(Down(q, j)) == j;
    }
  }

  /** Cutting off a leaf keeps the layout consistent. */
  lemma CutKeepsConsistent<T>(at: Layout<T>, links: Links<T>, p: Path, k: Key)
    requires Consistent(at, links) && p in at && Down(p, k) in at
    requires forall j :: Down(Down(p, k), j) !in at
    ensures Consistent(at - {Down(p, k)}, (links - {Down(p, k)})[p := links[p].Without(k)])
  {
    var leaf := Down(p, k);
    var at' := at - {leaf};
    var links' := (links - {leaf})[p := links[p].Without(k)];
    CutKeepsPrefixClosed(at.Keys, leaf);
    assert at'.Keys == at.Keys - {leaf};
    forall q, j | q in at'
      ensures links'[q].Has(j) <==> Down(q, j) in at'
      ensures links'[q].Has(j) ==> at'[Down(q, j)] == links'[q].Kid(j)
    {
      assert Up(Down(q, j)) == q && Last(Down(q, j)) == j;
    }
  }

  class TopicMatcherNode<T> {
    var exactMatchData: Option<Table<T>>
    var exactChildren: map<string, TopicMatcherNode<T>>
    var singleLevelWildcardNode: TopicMatcherNode?<T>
    var multiLevelWildcardData: Option<Table<T>>

    /** The node's place in its trie; nodes never move. */
    ghost const path: Path

    constructor (ghost path: Path)
      ensures this.path == path
      ensures exactMatchData == None && multiLevelWildcardData == None
      ensures exactChildren == map[] && singleLevelWildcardNode == null
    {
      this.path := path;
      exactMatchData := None;
      exactChildren := map[];
      singleLevelWildcardNode := null;
      multiLevelWildcardData := None;
    }

    ghost function Kids(): Branches<T>
      reads this
    {
      Branches(exactChildren, singleLevelWildcardNode)
    }

    ghost function Data(): Cell<T>
      reads this
    {
      Cell(exactMatchData, multiLevelWildcardData)
    }

    ghost predicate IsIn(v: View<T>) {
      this in v.nodes && path in v.at && v.at[path] == this
    }

    predicate IsEmpty()
      reads this
    {
      && NoData(exactMatchData)
      && exactChildren == map[]
      && singleLevelWildcardNode == null
      && NoData(multiLevelWildcardData)
    }

    lemma EmptyIsVacant(v: View<T>)
      requires Mirrors(v) && IsIn(v)
      ensures IsEmpty() <==> Vacant(v.shape, path)
    {
      assert v.links[path] == Kids() && v.shape[path] == Data();
      assert forall k :: Down(path, k) in v.shape <==> Kids().Has(k);
      Kids().NoneMeansEmpty();
    }

    lemma ChildInView(v: View<T>, k: Key)
      requires Mirrors(v) && IsIn(v)
      ensures Kids().Has(k) <==> Down(path, k) in v.at
      ensures Down(path, k) in v.at <==> Down(path, k) in v.shape
      ensures Kids().Has(k) ==> Kids().Kid(k).IsIn(v) && Kids().Kid(k).path == Down(path, k)
    {
      assert v.links[path] == Kids();
    }

    method FindChild(k: Key) returns (child: TopicMatcherNode?<T>)
      ensures child == if Kids().Has(k) then Kids().Kid(k) else null
    {
      if k.Any? {
        child := singleLevelWildcardNode;
      } else if k.text in exactChildren {
        child := exactChildren[k.text];
      } else {
        child := null;
      }
    }

    method Hang(k: Key, child: TopicMatcherNode<T>)
      modifies this`exactChildren, this`singleLevelWildcardNode
      ensures Kids() == old(Kids()).With(k, child)
    {
      if k.Lit? {
        exactChildren := exactChildren[k.text := child];
      } else {
        singleLevelWildcardNode := child;
      }
    }

    method Unhang(k: Key)
      modifies this`exactChildren, this`singleLevelWildcardNode
      ensures Kids() == old(Kids()).Without(k)
    {
      if k.Lit? {
        exactChildren := exactChildren - {k.text};
      } else {
        singleLevelWildcardNode := null;
      }
    }

    /** Hangs a new, empty child below this node. */
    method AddChild(k: Key, ghost v: View<T>) returns (child: TopicMatcherNode<T>, ghost v': View<T>)
      requires Mirrors(v) && IsIn(v) && Down(path, k) !in v.at
      modifies this`exactChildren, this`singleLevelWildcardNode
      ensures Mirrors(v') && Extends(v, v') && fresh(v'.nodes - v.nodes)
      ensures child.IsIn(v') && child.path == Down(path, k)
      ensures v'.shape == v.shape[Down(path, k) := Cell(None, None)]
    {
      hide Consistent, Branches.With;
      PathsInView(v);
      child := new TopicMatcherNode<T>(Down(path, k));
      Hang(k, child);
      v' := Graft(v, path, k, child);
      forall q | q in v'.at ensures v'.at[q].Kids() == v'.links[q] && v'.at[q].Data() == v'.shape[q] {
        assert q != Down(path, k) ==> v'.at[q] == v.at[q] && v.at[q].path == q;
      }
      GraftKeepsConsistent(v.at, v.links, path, k, child);
    }

    /** Replaces one of this node's tables. */
    method SetTable(multi: bool, data: Option<Table<T>>, ghost v: View<T>)
      requires Mirrors(v) && IsIn(v)
      modifies this`exactMatchData, this`multiLevelWildcardData
      ensures Mirrors(v.(shape := Put(v.shape, Slot(path, multi), data)))
    {
      if multi {
        multiLevelWildcardData := data;
      } else {
        exactMatchData := data;
      }
      ghost var v' := v.(shape := Put(v.shape, Slot(path, multi), data));
      assert v'.shape.Keys == v.shape.Keys;
    }

    /** The child along `k`, created when missing. */
    method GetOrCreateChild(k: Key, ghost v: View<T>) returns (child: TopicMatcherNode<T>, ghost v': View<T>)
      requires Mirrors(v) && IsIn(v)
      modifies this`exactChildren, this`singleLevelWildcardNode
      ensures Mirrors(v') && Extends(v, v')
      ensures child.IsIn(v') && child.path == Down(path, k)
      ensures fresh(v'.nodes - v.nodes)
      ensures v'.shape == if Down(path, k) in v.shape then v.shape else v.shape[Down(path, k) := Cell(None, None)]
    {
      hide Mirrors, Consistent, View.Coherent;
      ChildInView(v, k);
      var existing := FindChild(k);
      if existing == null {
        child, v' := AddChild(k, v);
      } else {
        child, v' := existing, v;
      }
    }

    /** Walks down from the root along a pattern up to a `#`, creating the nodes that are missing. */
    method WalkTo(items: seq<Item>, ghost v: View<T>) returns (node: TopicMatcherNode<T>, multi: bool, ghost v': View<T>)
      requires Mirrors(v) && IsIn(v) && path == []
      modifies v.nodes
      ensures Mirrors(v') && IsIn(v') && v.nodes <= v'.nodes && fresh(v'.nodes - v.nodes)
      ensures v'.shape == ExtendTo(v.shape, SlotOf(items).path)
      ensures node.IsIn(v') && SlotOf(items) == Slot(node.path, multi)
    {
      hide Mirrors, Consistent, View.Coherent;
      RootInShape(v);
      node := this;
      v' := v;
      ghost var p: Path := [];
      var i := 0;
      ExtendToRoot(v.shape);
      while i < |items| && !items[i].Hash?
        invariant i <= |items|
        invariant SlotOf(items) == Slot(p + SlotOf(items[i..]).path, SlotOf(items[i..]).multi)
        invariant Mirrors(v') && IsIn(v') && v.nodes <= v'.nodes && fresh(v'.nodes - v.nodes)
        invariant node.IsIn(v') && node.path == p
        invariant v'.shape == ExtendTo(v.shape, p)
      {
        var k := KeyOf(items[i]);
        ExtendStep(v.shape, p, k);
        SlotOfStep(items, i, p);
        node, v' := node.GetOrCreateChild(k, v');
        p, i := Down(p, k), i + 1;
      }
      multi := i < |items|;
      assert p == SlotOf(items).path;
    }

    /** Finds the node and field that hold the table of a pattern, creating what is missing. */
    method GetOrCreateSubscriptionTable(items: seq<Item>, ghost v: View<T>) returns (node: TopicMatcherNode<T>, multi: bool, ghost v': View<T>)
      requires Mirrors(v) && IsIn(v) && path == []
      modifies v.nodes
      ensures Mirrors(v') && IsIn(v') && v.nodes <= v'.nodes && fresh(v'.nodes - v.nodes)
      ensures v'.shape == Grown(v.shape, SlotOf(items))
      ensures node.IsIn(v') && SlotOf(items) == Slot(node.path, multi)
    {
      node, multi, v' := WalkTo(items, v);
      if (if multi then node.multiLevelWildcardData else node.exactMatchData).None? {
        node.SetTable(multi, Some(map[]), v');
        v' := v'.(shape := Put(v'.shape, SlotOf(items), Some(map[])));
      }
    }

    /** Unhooks a child that has no children of its own. */
    method RemoveChild(k: Key, ghost v: View<T>) returns (ghost v': View<T>)
      requires Mirrors(v) && IsIn(v) && Down(path, k) in v.at
      requires forall j :: Down(Down(path, k), j) !in v.at
      modifies this`exactChildren, this`singleLevelWildcardNode
      ensures Mirrors(v') && IsIn(v') && v'.nodes == v.nodes && KeepsUpTo(v, v', |path|)
      ensures v'.shape == v.shape - {Down(path, k)}
    {
      hide Consistent, Branches.Without;
      PathsInView(v);
      Unhang(k);
      v' := Cut(v, path, k);
      forall q | q in v'.at ensures v'.at[q].Kids() == v'.links[q] && v'.at[q].Data() == v'.shape[q] {
        assert v'.at[q] == v.at[q] && v.at[q].path == q;
      }
      CutKeepsConsistent(v.at, v.links, path, k);
      assert Up(Down(path, k)) == path;
    }

    /** Applies `f` to the table of a pattern below this node, drops the table if that empties it, and
        prunes the nodes on the way that are left vacant. Answers whether this node is now vacant.
        Fails, changing nothing, exactly when there is no such table. */
    method UpdateNode(items: seq<Item>, f: Table<T> -> Table<T>, ghost v: View<T>) returns (r: Result<bool, MatcherError>, ghost v': View<T>)
      requires Mirrors(v) && IsIn(v)
      modifies v.nodes
      decreases |items|
      ensures Mirrors(v') && IsIn(v') && v'.nodes == v.nodes && KeepsUpTo(v, v', |path|)
      ensures Get(v.shape, SlotBelow(path, items)).None? ==> r.Failure? && v' == v
      ensures Get(v.shape, SlotBelow(path, items)).Some? ==>
                r == Success(Vacant(v'.shape, path)) && v'.shape == Updated(v.shape, SlotBelow(path, items), f, |path|)
    {
      hide Mirrors, Consistent, View.Coherent, Vacant, Updated;
      if items == [] || items[0].Hash? {
        assert SlotBelow(path, items) == Slot(path, items != []);
        r, v' := UpdateTable(items != [], f, v);
        return;
      }
      var k := KeyOf(items[0]);
      MirrorsIsCoherent(v);
      SlotBelowStep(path, items);
      ChildInView(v, k);
      var child := FindChild(k);
      if child == null {
        NoTableWithoutChild(v, path, items);
        return Failure(InvalidSegment(items[0].AsStr(), 0)), v;
      }
      r, v' := child.UpdateNode(items[1..], f, v);
      if r.Failure? {
        return;
      }
      PruneOneLevel(v, SlotBelow(path, items), f, path, k);
      var nowEmpty: bool;
      nowEmpty, v' := AfterChildUpdate(k, r.value, v');
      r := Success(nowEmpty);
    }

    /** Drops a child that an update left vacant. */
    method AfterChildUpdate(k: Key, childVacant: bool, ghost v: View<T>) returns (nowEmpty: bool, ghost v': View<T>)
      requires Mirrors(v) && IsIn(v) && Down(path, k) in v.shape
      requires childVacant <==> Vacant(v.shape, Down(path, k))
      modifies this`exactChildren, this`singleLevelWildcardNode
      ensures Mirrors(v') && IsIn(v') && v'.nodes == v.nodes && KeepsUpTo(v, v', |path|)
      ensures v'.shape == if childVacant then v.shape - {Down(path, k)} else v.shape
      ensures nowEmpty <==> Vacant(v'.shape, path)
    {
      if childVacant {
        NoChildInLayout(v, Down(path, k));
        v' := RemoveChild(k, v);
        EmptyIsVacant(v');
        return IsEmpty(), v';
      }
      ChildMeansNotVacant(v.shape, path, k);
      return false, v;
    }

    /** The last step of an update, at the node that holds the table. */
    method UpdateTable(multi: bool, f: Table<T> -> Table<T>, ghost v: View<T>) returns (r: Result<bool, MatcherError>, ghost v': View<T>)
      requires Mirrors(v) && IsIn(v)
      modifies this`exactMatchData, this`multiLevelWildcardData
      ensures Mirrors(v') && IsIn(v') && v'.nodes == v.nodes && KeepsUpTo(v, v', |path|)
      ensures Get(v.shape, Slot(path, multi)).None? ==> r.Failure? && v' == v
      ensures Get(v.shape, Slot(path, multi)).Some? ==>
                r == Success(Vacant(v'.shape, path)) && v'.shape == Updated(v.shape, Slot(path, multi), f, |path|)
    {
      var current := if multi then multiLevelWildcardData else exactMatchData;
      assert v.shape[path] == Data();
      if current.None? {
        return Failure(InvalidSegment(if multi then "#" else "no_data_for_empty_path", 0)), v;
      }
      var data := f(current.value);
      SetTable(multi, if data == map[] then None else Some(data), v);
      v' := v.(shape := Put(v.shape, Slot(path, multi), if data == map[] then None else Some(data)));
      EmptyIsVacant(v');
      return Success(IsEmpty()), v';
    }

    /** Appends the tables of all patterns below this node that match `topic`. */
    method CollectMatchingSubscriptions(topic: seq<string>, matching: seq<Table<T>>, ghost v: View<T>)
      returns (r: seq<Table<T>>, ghost slots: seq<Slot>)
      requires Mirrors(v) && IsIn(v)
      decreases |topic|, 0
      ensures matching <= r && Collects(v.shape, path, topic, r[|matching|..], slots)
    {
      hide Mirrors, Consistent, Collects;
      MirrorsIsCoherent(v);
      DataInView(v);
      r := matching;
      slots := [];
      if topic == [] {
        if exactMatchData.Some? {
          r, slots := r + [exactMatchData.value], slots + [Slot(path, false)];
        }
        if multiLevelWildcardData.Some? {
          r, slots := r + [multiLevelWildcardData.value], slots + [Slot(path, true)];
        }
        CollectsAtEnd(v.shape, path, r[|matching|..], slots);
        return;
      }
      ghost var litSlots, plusSlots;
      r, litSlots := CollectFromChild(Lit(topic[0]), topic[1..], r, v);
      ghost var litTables := r[|matching|..];
      r, plusSlots := CollectFromChild(Any, topic[1..], r, v);
      ghost var plusTables := r[|matching| + |litTables|..];
      CollectsJoin(v.shape, path, topic, litTables, litSlots, plusTables, plusSlots);
      ghost var own := if multiLevelWildcardData.Some? then [multiLevelWildcardData.value] else [];
      if multiLevelWildcardData.Some? {
        r := r + [multiLevelWildcardData.value];
      }
      slots := litSlots + plusSlots + (if multiLevelWildcardData.Some? then [Slot(path, true)] else []);
      assert r[|matching|..] == litTables + plusTables + own;
    }

    method CollectFromChild(k: Key, rest: seq<string>, matching: seq<Table<T>>, ghost v: View<T>)
      returns (r: seq<Table<T>>, ghost slots: seq<Slot>)
      requires Mirrors(v) && IsIn(v)
      decreases |rest|, 1
      ensures matching <= r && Collects(v.shape, Down(path, k), rest, r[|matching|..], slots)
    {
      MirrorsIsCoherent(v);
      ChildInView(v, k);
      var child := FindChild(k);
      if child == null {
        NoNodeNoHit(v.shape, Down(path, k), rest);
        return matching, [];
      }
      r, slots := child.CollectMatchingSubscriptions(rest, matching, v);
    }

    lemma DataInView(v: View<T>)
      requires Mirrors(v) && IsIn(v)
      ensures path in v.shape && v.shape[path] == Data()
    {
    }

    lemma TableInView(v: View<T>, multi: bool)
      requires Mirrors(v) && IsIn(v)
      ensures Get(v.shape, Slot(path, multi)) == if multi then multiLevelWildcardData else exactMatchData
    {
    }

    /** All tables whose pattern matches the topic; called on the root. */
    method FindByPath(topic: TopicPath, ghost v: View<T>) returns (r: seq<Table<T>>, ghost slots: seq<Slot>)
      requires Mirrors(v) && IsIn(v)
      ensures Collects(v.shape, path, topic.Levels(), r, slots)
    {
      r, slots := CollectMatchingSubscriptions(topic.Levels(), [], v);
    }
  }

  lemma CollectsAtEnd<T>(shape: Shape<T>, p: Path, tables: seq<Table<T>>, slots: seq<Slot>)
    requires p in shape
    requires tables == (if shape[p].exact.Some? then [shape[p].exact.value] else []) + (if shape[p].hash.Some? then [shape[p].hash.value] else [])
    requires slots == (if shape[p].exact.Some? then [Slot(p, false)] else []) + (if shape[p].hash.Some? then [Slot(p, true)] else [])
    ensures Collects(shape, p, [], tables, slots)
  {
    forall slot ensures IsHit(shape, p, [], slot) <==> slot.path == p && Get(shape, slot).Some? {
      HitAtEnd(shape, p, slot);
    }
    assert forall slot: Slot :: slot == Slot(slot.path, slot.multi);
  }

  /** The slot of a pattern read from the node at `p` on. */
  function SlotBelow(p: Path, items: seq<Item>): Slot {
    Slot(p + SlotOf(items).path, SlotOf(items).multi)
  }

  lemma SlotBelowStep(p: Path, items: seq<Item>)
    requires items != [] && !items[0].Hash?
    ensures SlotBelow(p, items) == SlotBelow(Down(p, KeyOf(items[0])), items[1..])
    ensures var slot := SlotBelow(p, items); |slot.path| > |p| && slot.path[..|p| + 1] == Down(p, KeyOf(items[0]))
  {
    assert p + SlotOf(items).path == Down(p, KeyOf(items[0])) + SlotOf(items[1..]).path;
  }

  lemma NoTableWithoutChild<T>(v: View<T>, p: Path, items: seq<Item>)
    requires v.Coherent() && items != [] && !items[0].Hash? && Down(p, KeyOf(items[0])) !in v.at
    ensures Get(v.shape, SlotBelow(p, items)).None?
  {
    SlotBelowStep(p, items);
    var slot := SlotBelow(p, items);
    if slot.path in v.shape {
      PrefixIn(v.shape.Keys, slot.path, |p| + 1);
    }
  }

  lemma ChildMeansNotVacant<T>(shape: Shape<T>, p: Path, k: Key)
    ensures Down(p, k) in shape ==> !Vacant(shape, p)
  {
  }

  /** Pruning up to `p` is pruning up to its child and then dropping the child if that is vacant. */
  lemma PruneOneLevel<T>(v: View<T>, slot: Slot, f: Table<T> -> Table<T>, p: Path, k: Key)
    requires v.Coherent() && Get(v.shape, slot).Some?
    requires |slot.path| > |p| && slot.path[..|p| + 1] == Down(p, k)
    ensures var r := Updated(v.shape, slot, f, |p| + 1);
            && Down(p, k) in r
            && Updated(v.shape, slot, f, |p|) == if Vacant(r, Down(p, k)) then r - {Down(p, k)} else r
  {
    var table := f(Get(v.shape, slot).value);
    var shape := Put(v.shape, slot, if table == map[] then None else Some(table));
    assert shape.Keys == v.shape.Keys;
    PruneOneMore(shape, slot.path, |p|);
  }

  /** Nodes down to depth `n` stay where they are. */
  ghost predicate KeepsUpTo<T>(v: View<T>, v': View<T>, n: nat) {
    forall q {:trigger v.at[q]} {:trigger v'.at[q]} :: q in v.at && |q| <= n ==> q in v'.at && v'.at[q] == v.at[q]
  }

  lemma MirrorsIsCoherent<T>(v: View<T>)
    requires Mirrors(v)
    ensures v.Coherent()
  {
  }

  lemma NoChildInLayout<T>(v: View<T>, p: Path)
    requires v.Coherent() && Vacant(v.shape, p)
    ensures p in v.at && forall j :: Down(p, j) !in v.at
  {
    assert forall j :: Down(p, j) !in v.shape;
  }

  lemma PathsInView<T>(v: View<T>)
    requires v.Coherent()
    ensures v.links.Keys == v.at.Keys && forall p {:trigger v.at[p]} :: p in v.at ==> v.at[p].path == p
  {
  }

  lemma RootInShape<T>(v: View<T>)
    requires Mirrors(v)
    ensures [] in v.shape
  {
  }

  ghost function Cut<T>(v: View<T>, p: Path, k: Key): View<T>
    requires p in v.links
  {
    var leaf := Down(p, k);
    View(v.at - {leaf}, (v.links - {leaf})[p := v.links[p].Without(k)], v.shape - {leaf}, v.nodes)
  }

  /** The second picture keeps every node of the first where it was. */
  ghost predicate Extends<T>(v: View<T>, v': View<T>) {
    v.nodes <= v'.nodes && forall p {:trigger v.at[p]} {:trigger v'.at[p]} :: p in v.at ==> p in v'.at && v'.at[p] == v.at[p]
  }

  ghost function Graft<T>(v: View<T>, p: Path, k: Key, child: TopicMatcherNode<T>): View<T>
    requires p in v.links
  {
    var leaf := Down(p, k);
    View(v.at[leaf := child], v.links[p := v.links[p].With(k, child)][leaf := Branches(map[], null)],
         v.shape[leaf := Cell(None, None)], v.nodes + {child})
  }
}

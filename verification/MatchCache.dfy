/** Least-recently-used caches, and the pattern object that keeps one in front of matching.

    Which entry an LRU cache evicts depends on the whole access history; here the victim is
    arbitrary, so what is proved holds for every eviction order. */
module MatchCache {
  import opened Wrappers
  import opened TopicPatternItem
  import opened TopicMatch
  import opened TopicPatternPath
  import opened PatternLaws

  datatype CacheStrategy = NoCache | Lru(capacity: nat)
  {
    ghost predicate Valid() { Lru? ==> capacity > 0 }
  }

  /** Stores `value` under `key`, evicting some entry when a new key meets a full cache. */
  method LruPut<K(==), V>(cache: map<K, V>, capacity: nat, key: K, value: V) returns (r: map<K, V>)
    requires capacity > 0 && |cache| <= capacity
    ensures |r| <= capacity
    ensures key in cache || |cache| < capacity ==> r == cache[key := value]
    ensures key !in cache && |cache| == capacity ==> exists victim :: victim in cache && r == (cache - {victim})[key := value]
  {
    if key !in cache && |cache| == capacity {
      assert |cache.Keys| > 0;
      var victim :| victim in cache;
      var rest := cache - {victim};
      assert rest.Keys == cache.Keys - {victim};
      assert |rest.Keys| == |cache.Keys| - 1;
      r := rest[key := value];
      assert r.Keys == rest.Keys + {key};
    } else {
      r := cache[key := value];
      assert r.Keys == cache.Keys + {key};
    }
  }

  /** A parsed pattern with its optional cache of successful matches, keyed by topic string. */
  class CachedPattern {
    var pattern: Pattern
    var matchCache: Option<map<string, TopicMatch>>
    const strategy: CacheStrategy

    /** Every cached entry is what matching the topic anew would give. */
    ghost predicate Valid()
      reads this
    {
      && pattern.Valid()
      && strategy.Valid()
      && (matchCache.Some? <==> strategy.Lru?)
      && (matchCache.Some? ==>
            && |matchCache.value| <= strategy.capacity
            && forall path :: path in matchCache.value ==>
                 IsMatchResult(pattern.segments, NewTopicPath(path), Success(matchCache.value[path])))
    }

    constructor (pattern: Pattern, strategy: CacheStrategy)
      requires pattern.Valid() && strategy.Valid()
      ensures Valid() && this.pattern == pattern && this.strategy == strategy
      ensures matchCache == if strategy.Lru? then Some(map[]) else None
    {
      this.pattern := pattern;
      this.strategy := strategy;
      this.matchCache := if strategy.Lru? then Some(map[]) else None;
    }

    /** A clone starts with an empty cache of the same capacity. */
    method Clone() returns (c: CachedPattern)
      requires Valid()
      ensures fresh(c) && c.Valid() && c.pattern == pattern && c.strategy == strategy
      ensures c.matchCache == if strategy.Lru? then Some(map[]) else None
    {
      c := new CachedPattern(pattern, strategy);
    }

    /** Reparses the template under another cache strategy; the parse cannot fail. */
    method WithCacheStrategy(newCache: CacheStrategy) returns (p: CachedPattern)
      requires Valid() && newCache.Valid()
      ensures fresh(p) && p.Valid() && p.pattern == pattern && p.strategy == newCache
      ensures p.matchCache == if newCache.Lru? then Some(map[]) else None
    {
      var parsed := NewFromString(pattern.template);
      p := new CachedPattern(parsed.value.(bindings := pattern.bindings), newCache);
    }

    /** Binds a named `+` wildcard, replacing an earlier value; an unknown name changes nothing. */
    method BindParameter(name: string, value: string) returns (r: Result<(), PatternError>)
      requires Valid()
      modifies this`pattern
      ensures Valid()
      ensures r.Success? <==> IsPlusName(pattern.segments, name)
      ensures r.Success? ==>
                && pattern == old(pattern).(bindings := pattern.bindings)
                && pattern.bindings.Some?
                && forall n :: BoundValue(pattern.Bindings(), n) == if n == name then Some(value) else BoundValue(old(pattern).Bindings(), n)
      ensures r.Failure? ==>
                pattern == old(pattern) && r.error == WildcardUsage("Parameter '" + name + "' not found in pattern '" + pattern.template + "'")
    {
      hide Pattern.Valid, BoundValue, IsMatchResult, IsPlusName, Rebind;
      var i := 0;
      while i < |pattern.segments| && pattern.segments[i] != Plus(Some(name))
        invariant i <= |pattern.segments|
        invariant forall k :: 0 <= k < i ==> pattern.segments[k] != Plus(Some(name))
      {
        i := i + 1;
      }
      SearchedForName(pattern.segments, name, i);
      if i == |pattern.segments| {
        return Failure(WildcardUsage("Parameter '" + name + "' not found in pattern '" + pattern.template + "'"));
      }
      RebindKeepsValid(pattern, name, value);
      RebindMeaning(pattern.Bindings(), name, value);
      pattern := pattern.(bindings := Some(Rebind(pattern.Bindings(), name, value)));
      return Success(());
    }

    /** Answers from the cache when the topic string is in it, otherwise matches and remembers a
        success. For topics built by `NewTopicPath` the answer is the uncached one and the cache
        stays sound. */
    method TryMatch(topic: TopicPath) returns (r: Result<TopicMatch, MatchError>)
      requires Valid()
      modifies this`matchCache
      ensures topic.WellFormed() ==> Valid() && IsMatchResult(pattern.segments, topic, r)
      ensures topic.WellFormed() && r.Success? ==> Extracts(r.value, pattern.segments, topic.path)
      ensures matchCache.Some? == old(matchCache).Some? && (r.Failure? ==> matchCache == old(matchCache))
      ensures matchCache.Some? && r.Success? ==> topic.path in matchCache.value
    {
      hide IsMatchResult, Pattern.Valid, TopicPath.WellFormed, Extracts;
      ParsedAgain(topic);
      if matchCache.None? {
        r := TryMatchInternal(pattern.segments, topic);
        ResultExtracts(pattern, topic, r);
        return;
      }
      if topic.path in matchCache.value {
        r := Success(matchCache.value[topic.path]);
        ResultExtracts(pattern, topic, r);
        return;
      }
      r := TryMatchInternal(pattern.segments, topic);
      ResultExtracts(pattern, topic, r);
      if r.Success? {
        var updated := LruPut(matchCache.value, strategy.capacity, topic.path, r.value);
        matchCache := Some(updated);
      }
    }
  }

  /** A search that stops at the first wildcard of that name, or at the end. */
  lemma SearchedForName(items: seq<Item>, name: string, i: nat)
    requires i <= |items| && (i < |items| ==> items[i] == Plus(Some(name)))
    requires forall k :: 0 <= k < i ==> items[k] != Plus(Some(name))
    ensures IsPlusName(items, name) <==> i < |items|
  {
  }

  lemma ResultExtracts(p: Pattern, topic: TopicPath, r: Result<TopicMatch, MatchError>)
    requires p.Valid()
    ensures topic.WellFormed() && IsMatchResult(p.segments, topic, r) && r.Success? ==> Extracts(r.value, p.segments, topic.path)
  {
    hide Pattern.Valid, Matches, Extracts;
    if topic.WellFormed() && IsMatchResult(p.segments, topic, r) && r.Success? {
      MatchExtracts(p, topic);
    }
  }

  lemma ParsedAgain(topic: TopicPath)
    ensures topic.WellFormed() ==> topic == NewTopicPath(topic.path)
  {
  }

  lemma {:induction false} FindNameInUpdate(bindings: seq<(string, string)>, pos: nat, entry: (string, string), name: string)
    requires pos < |bindings| && bindings[pos].0 == entry.0
    ensures FindName(bindings[pos := entry], name) == FindName(bindings, name)
  {
    if bindings[0].0 != name {
      if pos == 0 {
        assert bindings[pos := entry][1..] == bindings[1..];
      } else {
        assert bindings[pos := entry][1..] == bindings[1..][pos - 1 := entry];
        FindNameInUpdate(bindings[1..], pos - 1, entry, name);
      }
    }
  }

  /** Overwrites the value of `name`, or appends a new binding. */
  function Rebind(bindings: seq<(string, string)>, name: string, value: string): seq<(string, string)> {
    var pos := FindName(bindings, name);
    if pos < |bindings| then bindings[pos := (name, value)] else bindings + [(name, value)]
  }

  lemma RebindMeaning(bindings: seq<(string, string)>, name: string, value: string)
    ensures forall n :: BoundValue(Rebind(bindings, name, value), n) == if n == name then Some(value) else BoundValue(bindings, n)
  {
    var pos := FindName(bindings, name);
    forall n ensures BoundValue(Rebind(bindings, name, value), n) == if n == name then Some(value) else BoundValue(bindings, n) {
      if pos < |bindings| {
        FindNameInUpdate(bindings, pos, (name, value), n);
      } else {
        BoundValueSnoc(bindings, (name, value), n);
      }
    }
  }

  lemma RebindKeepsValid(p: Pattern, name: string, value: string)
    requires p.Valid() && IsPlusName(p.segments, name)
    ensures p.(bindings := Some(Rebind(p.Bindings(), name, value))).Valid()
  {
    hide Accepts, ParseAll, Wire, IsPlusName, FindName;
    var updated := Rebind(p.Bindings(), name, value);
    RebindKeepsKeys(p.Bindings(), name, value);
    forall k | 0 <= k < |updated| ensures IsPlusName(p.segments, updated[k].0) {
      assert k < |p.Bindings()| ==> updated[k].0 == p.Bindings()[k].0;
    }
  }

  /** Rebinding keeps the names in place; a new name comes last. */
  lemma RebindKeepsKeys(bindings: seq<(string, string)>, name: string, value: string)
    requires DistinctKeys(bindings)
    ensures var updated := Rebind(bindings, name, value);
            && |bindings| <= |updated| && DistinctKeys(updated)
            && (forall k :: 0 <= k < |bindings| ==> updated[k].0 == bindings[k].0)
            && (forall k :: |bindings| <= k < |updated| ==> updated[k].0 == name)
  {
    var pos := FindName(bindings, name);
  }
}

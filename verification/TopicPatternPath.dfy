/** Parsed topic patterns: parsing, binding parameters, wire form, formatting and matching. */
module TopicPatternPath {
  import opened Wrappers
  import opened Segments
  import opened TopicPatternItem
  import opened TopicMatch

  // ----- Patterns as lists of items -----

  ghost predicate HashLast(items: seq<Item>) {
    forall i :: 0 <= i < |items| - 1 ==> !items[i].Hash?
  }

  predicate NoHash(items: seq<Item>) {
    forall i :: 0 <= i < |items| ==> !items[i].Hash?
  }

  ghost predicate RepeatsName(items: seq<Item>, i: nat)
    requires i < |items|
  {
    items[i].ParamName().Some? && exists j :: 0 <= j < i && items[j].ParamName() == items[i].ParamName()
  }

  ghost predicate DistinctNames(items: seq<Item>) {
    forall i :: 0 <= i < |items| ==> !RepeatsName(items, i)
  }

  /** The text of each item on the wire. */
  function WireTexts(items: seq<Item>): (texts: seq<string>)
    ensures |texts| == |items|
  {
    seq(|items|, i requires 0 <= i < |items| => items[i].AsStr())
  }

  function TemplateTexts(items: seq<Item>): (texts: seq<string>)
    ensures |texts| == |items|
  {
    seq(|items|, i requires 0 <= i < |items| => items[i].AsWildcard())
  }

  function Wire(items: seq<Item>): string {
    Join(WireTexts(items))
  }

  // ----- Parsing -----

  datatype Pattern = Pattern(
    template: string,
    wire: string,
    segments: seq<Item>,
    bindings: Option<seq<(string, string)>>)
  {
    /** What every pattern built by parsing and binding satisfies. */
    ghost predicate Valid() {
      && Accepts(template)
      && segments == ParseAll(Split(template)).value
      && wire == Wire(segments)
      && (bindings.Some? ==> BindingsFit(segments, bindings.value))
    }

    function Bindings(): seq<(string, string)> {
      if bindings.Some? then bindings.value else []
    }

    /** The segments with every bound parameter replaced by its value. */
    function Resolved(): seq<Item> {
      Resolve(segments, Bindings())
    }

    /** The pattern requested from the broker. */
    function MqttPattern(): string {
      if bindings.Some? then Wire(Resolve(segments, bindings.value)) else wire
    }
  }

  predicate IsWhitespace(c: char) {
    || '\U{9}' <= c <= '\U{D}' || c == ' ' || c == '\U{85}' || c == '\U{A0}' || c == '\U{1680}'
    || '\U{2000}' <= c <= '\U{200A}' || c == '\U{2028}' || c == '\U{2029}' || c == '\U{202F}'
    || c == '\U{205F}' || c == '\U{3000}'
  }

  predicate Blank(s: string) {
    forall i :: 0 <= i < |s| ==> IsWhitespace(s[i])
  }

  /** Parses every piece; the first piece that is refused decides the error. */
  function ParseAll(parts: seq<string>): (r: Result<seq<Item>, PatternError>)
    ensures r.Success? ==> |r.value| == |parts| && forall i :: 0 <= i < |parts| ==> ParseItem(parts[i]) == Success(r.value[i])
    ensures r.Failure? ==> exists i :: 0 <= i < |parts| && ParseItem(parts[i]) == Failure(r.error) &&
                                       forall k :: 0 <= k < i ==> ParseItem(parts[k]).Success?
  {
    if parts == [] then Success([])
    else
      match ParseItem(parts[0])
      case Failure(e) => Failure(e)
      case Success(item) =>
        match ParseAll(parts[1..])
        case Failure(e) =>
          assert exists i :: 0 <= i < |parts| && ParseItem(parts[i]) == Failure(e) && forall k :: 0 <= k < i ==> ParseItem(parts[k]).Success? by {
            var j :| 0 <= j < |parts[1..]| && ParseItem(parts[1..][j]) == Failure(e) && forall k :: 0 <= k < j ==> ParseItem(parts[1..][k]).Success?;
            assert parts[j + 1] == parts[1..][j];
            forall k | 0 <= k < j + 1 ensures ParseItem(parts[k]).Success? {
              if k > 0 { assert parts[k] == parts[1..][k - 1]; }
            }
          }
          Failure(e)
        case Success(rest) => Success([item] + rest)
  }

  /** The patterns the parser accepts. */
  ghost predicate Accepts(s: string) {
    && !Blank(s)
    && ParseAll(Split(s)).Success?
    && DistinctNames(ParseAll(Split(s)).value)
    && HashLast(ParseAll(Split(s)).value)
  }

  /** Why a pattern is refused, in the order in which the parser checks. */
  ghost predicate Rejects(s: string, e: PatternError) {
    if Blank(s) then e == EmptyTopic
    else
      match ParseAll(Split(s))
      case Failure(first) => e == first
      case Success(items) =>
        if DistinctNames(items) then !HashLast(items) && e == HashPosition(s)
        else exists i :: 0 <= i < |items| && RepeatsName(items, i) && (forall k :: 0 <= k < i ==> !RepeatsName(items, k)) &&
                         e == WildcardUsage(items[i].AsStr())
  }

  /** The first piece that has no meaning. */
  ghost predicate FirstUnreadable(parts: seq<string>, i: nat) {
    i < |parts| && Unreadable(parts[i]) && forall k :: 0 <= k < i ==> !Unreadable(parts[k])
  }

  /** Parsing all pieces, by their characters. */
  lemma ParseAllReads(parts: seq<string>)
    ensures ParseAll(parts).Success? ==> forall i :: 0 <= i < |parts| ==> ReadsAs(parts[i], ParseAll(parts).value[i])
    ensures ParseAll(parts).Failure? <==> exists i :: 0 <= i < |parts| && Unreadable(parts[i])
    ensures ParseAll(parts).Failure? ==> exists i: nat :: FirstUnreadable(parts, i) && ParseAll(parts).error == WildcardUsage(parts[i])
  {
    hide ParseItem, ReadsAs, Unreadable, ParseAll;
    forall i | 0 <= i < |parts|
      ensures ParseItem(parts[i]).Failure? <==> Unreadable(parts[i])
      ensures Unreadable(parts[i]) ==> ParseItem(parts[i]) == Failure(WildcardUsage(parts[i]))
    {
      ParseItemRefuses(parts[i]);
    }
    match ParseAll(parts) {
      case Success(items) =>
        forall i | 0 <= i < |parts| ensures ReadsAs(parts[i], items[i]) {
          ParseItemReads(parts[i], items[i]);
        }
      case Failure(e) =>
        var i :| 0 <= i < |parts| && ParseItem(parts[i]) == Failure(e) && forall k :: 0 <= k < i ==> ParseItem(parts[k]).Success?;
        assert FirstUnreadable(parts, i);
    }
  }

  lemma BlankInAscii(s: string)
    ensures (forall i :: 0 <= i < |s| ==> s[i] == ' ' || s[i] == '\t' || s[i] == '\n' || s[i] == '\r') ==> Blank(s)
    ensures (exists i :: 0 <= i < |s| && '!' <= s[i] <= '~') ==> !Blank(s)
  {
    if i :| 0 <= i < |s| && '!' <= s[i] <= '~' {
      assert !IsWhitespace(s[i]);
    }
  }

  /** Parses a template. Pieces are read by their characters (`ReadsAs`), and the first one without
      meaning is reported. */
  method NewFromString(s: string) returns (r: Result<Pattern, PatternError>)
    ensures r.Success? <==> Accepts(s)
    ensures r.Success? ==> r.value == Pattern(s, Wire(ParseAll(Split(s)).value), ParseAll(Split(s)).value, None) && r.value.Valid()
    ensures r.Success? ==> |r.value.segments| == |Split(s)| && forall i :: 0 <= i < |Split(s)| ==> ReadsAs(Split(s)[i], r.value.segments[i])
    ensures r.Failure? ==> Rejects(s, r.error)
    ensures r == Failure(EmptyTopic) <==> Blank(s)
    ensures (forall i :: 0 <= i < |s| ==> s[i] == ' ' || s[i] == '\t' || s[i] == '\n' || s[i] == '\r') ==> r == Failure(EmptyTopic)
    ensures (exists i :: 0 <= i < |s| && '!' <= s[i] <= '~') ==> r != Failure(EmptyTopic)
    ensures !Blank(s) && (exists i :: 0 <= i < |Split(s)| && Unreadable(Split(s)[i])) ==>
              exists i: nat :: FirstUnreadable(Split(s), i) && r == Failure(WildcardUsage(Split(s)[i]))
  {
    hide Blank, ParseAll, Split, RepeatsName, Wire, ReadsAs, Unreadable, FirstUnreadable;
    BlankInAscii(s);
    ParseAllReads(Split(s));
    if Blank(s) {
      return Failure(EmptyTopic);
    }
    var parsed := ParseAll(Split(s));
    if parsed.Failure? {
      return Failure(parsed.error);
    }
    var items := parsed.value;
    var repeat := CheckNames(items);
    if repeat.Some? {
      return Failure(WildcardUsage(items[repeat.value].AsStr()));
    }
    var misplaced := HashIsMisplaced(items);
    if misplaced {
      return Failure(HashPosition(s));
    }
    var wire := ToMqttSubscriptionPattern(items);
    r := Success(Pattern(s, wire, items, None));
  }

  /** Looks for the first `#` and checks whether it stands before the last segment. */
  method HashIsMisplaced(items: seq<Item>) returns (misplaced: bool)
    ensures misplaced <==> !HashLast(items)
  {
    var hashPos := 0;
    while hashPos < |items| && !items[hashPos].Hash?
      invariant hashPos <= |items|
      invariant forall i :: 0 <= i < hashPos ==> !items[i].Hash?
    {
      hashPos := hashPos + 1;
    }
    misplaced := hashPos < |items| && hashPos != |items| - 1;
  }

  /** Looks for the first named wildcard whose name was seen before. */
  method CheckNames(items: seq<Item>) returns (r: Option<nat>)
    ensures r.None? <==> DistinctNames(items)
    ensures r.Some? ==> r.value < |items| && RepeatsName(items, r.value) && forall k :: 0 <= k < r.value ==> !RepeatsName(items, k)
  {
    var seen: set<string> := {};
    for i := 0 to |items|
      invariant forall n :: n in seen <==> exists j :: 0 <= j < i && items[j].ParamName() == Some(n)
      invariant forall k :: 0 <= k < i ==> !RepeatsName(items, k)
    {
      var name := items[i].ParamName();
      if name.Some? {
        if name.value in seen {
          assert RepeatsName(items, i);
          return Some(i);
        }
        seen := seen + {name.value};
      }
    }
    return None;
  }

  lemma {:induction false} JoinSnoc(parts: seq<string>, last: string)
    ensures Join(parts + [last]) == if parts == [] then last else Join(parts) + "/" + last
  {
    if parts == [] {
    } else {
      JoinSnoc(parts[1..], last);
      assert (parts + [last])[1..] == parts[1..] + [last];
      if |parts| == 1 {
        assert parts[1..] == [];
      } else {
        assert parts[0] + "/" + (Join(parts[1..]) + "/" + last) == (parts[0] + "/" + Join(parts[1..])) + "/" + last;
      }
    }
  }

  method ToMqttSubscriptionPattern(items: seq<Item>) returns (topic: string)
    ensures topic == Wire(items)
  {
    topic := "";
    var texts := WireTexts(items);
    for i := 0 to |items|
      invariant topic == Join(texts[..i])
    {
      JoinSnoc(texts[..i], texts[i]);
      assert texts[..i + 1] == texts[..i] + [texts[i]];
      if i > 0 {
        topic := topic + "/";
      }
      topic := topic + items[i].AsStr();
    }
    assert texts[..|items|] == texts;
  }

  // ----- Bindings -----

  ghost predicate IsPlusName(items: seq<Item>, name: string) {
    exists i :: 0 <= i < |items| && items[i] == Plus(Some(name))
  }

  ghost predicate DistinctKeys<V>(entries: seq<(string, V)>) {
    forall i, j :: 0 <= i < j < |entries| ==> entries[i].0 != entries[j].0
  }

  ghost predicate BindingsFit(items: seq<Item>, bindings: seq<(string, string)>) {
    DistinctKeys(bindings) && forall k :: 0 <= k < |bindings| ==> IsPlusName(items, bindings[k].0)
  }

  function BoundValue(bindings: seq<(string, string)>, name: string): Option<string> {
    var k := FindName(bindings, name);
    if k < |bindings| then Some(bindings[k].1) else None
  }

  function ResolveItem(item: Item, bindings: seq<(string, string)>): Item {
    if item.Plus? && item.name.Some? && BoundValue(bindings, item.name.value).Some?
    then Str(BoundValue(bindings, item.name.value).value)
    else item
  }

  function Resolve(items: seq<Item>, bindings: seq<(string, string)>): (r: seq<Item>)
    ensures |r| == |items|
    ensures forall i :: 0 <= i < |items| ==> r[i] == ResolveItem(items[i], bindings)
  {
    seq(|items|, i requires 0 <= i < |items| => ResolveItem(items[i], bindings))
  }

  lemma {:induction false} FindNameSnoc<V>(entries: seq<(string, V)>, extra: (string, V), name: string)
    ensures var k := FindName(entries, name);
            FindName(entries + [extra], name) ==
            if k < |entries| then k else if extra.0 == name then |entries| else |entries| + 1
  {
    if entries == [] {
      assert (entries + [extra])[1..] == [];
    } else {
      FindNameSnoc(entries[1..], extra, name);
      assert (entries + [extra])[1..] == entries[1..] + [extra];
    }
  }

  lemma BoundValueSnoc(bindings: seq<(string, string)>, extra: (string, string), name: string)
    ensures BoundValue(bindings + [extra], name) ==
            if BoundValue(bindings, name).Some? then BoundValue(bindings, name)
            else if extra.0 == name then Some(extra.1) else None
  {
    FindNameSnoc(bindings, extra, name);
  }

  /** One binding at a time, each replacing the first `+` wildcard of that name. */
  method ApplyBindingsToSegments(items: seq<Item>, bindings: seq<(string, string)>) returns (r: seq<Item>)
    requires DistinctNames(items) && DistinctKeys(bindings)
    ensures r == Resolve(items, bindings)
  {
    r := items;
    assert r == Resolve(items, bindings[..0]);
    for k := 0 to |bindings|
      invariant r == Resolve(items, bindings[..k])
    {
      var (name, value) := bindings[k];
      var pos := 0;
      while pos < |r| && r[pos] != Plus(Some(name))
        invariant pos <= |r| == |items|
        invariant forall i :: 0 <= i < pos ==> r[i] != Plus(Some(name))
      {
        pos := pos + 1;
      }
      assert bindings[..k + 1] == bindings[..k] + [bindings[k]];
      assert BoundValue(bindings[..k], name).None? by {
        assert forall j :: 0 <= j < k ==> bindings[..k][j].0 != bindings[k].0;
      }
      forall i | 0 <= i < |items|
        ensures ResolveItem(items[i], bindings[..k + 1]) == if i == pos then Str(value) else r[i]
      {
        if items[i].Plus? && items[i].name.Some? {
          BoundValueSnoc(bindings[..k], bindings[k], items[i].name.value);
        }
        if items[i] == Plus(Some(name)) {
          assert r[i] == items[i];
          assert pos <= i;
          assert items[pos] == r[pos];
          assert RepeatsName(items, i) <== pos < i && items[pos].ParamName() == items[i].ParamName();
        }
      }
      if pos < |r| {
        r := r[pos := Str(value)];
      }
      assert r == Resolve(items, bindings[..k + 1]);
    }
    assert bindings[..|bindings|] == bindings;
  }

  method ResolveBoundSegments(p: Pattern) returns (items: seq<Item>)
    requires p.Valid()
    ensures items == p.Resolved()
  {
    if p.bindings.None? {
      items := p.segments;
      assert p.segments == Resolve(p.segments, []);
    } else {
      items := ApplyBindingsToSegments(p.segments, p.bindings.value);
    }
  }

  // ----- Matching -----

  predicate LevelFits(item: Item, level: string) {
    match item
    case Str(s) => s == level
    case Plus(_) => true
    case Hash(_) => false
  }

  /** The matching rules of MQTT 3.1.1, sections 4.7.1.2 and 4.7.1.3, level by level: `+` takes exactly
      one level; a final `#` takes all remaining levels, including none (the parent level). */
  predicate Matches(items: seq<Item>, levels: seq<string>) {
    if items != [] && items[|items| - 1].Hash? then
      && |items| - 1 <= |levels|
      && forall i :: 0 <= i < |items| - 1 ==> LevelFits(items[i], levels[i])
    else
      && |items| == |levels|
      && forall i :: 0 <= i < |items| ==> LevelFits(items[i], levels[i])
  }

  /** The same rules, one item after the other: a literal takes an equal level, `+` any one level, `#` all
      that is left, and nothing may follow it. */
  lemma MatchesByHead(items: seq<Item>, levels: seq<string>)
    ensures items == [] ==> (Matches(items, levels) <==> levels == [])
    ensures items != [] && items[0].Hash? ==> (Matches(items, levels) <==> |items| == 1)
    ensures items != [] && !items[0].Hash? ==>
              (Matches(items, levels) <==>
               levels != [] && (items[0].Str? ==> levels[0] == items[0].text) && Matches(items[1..], levels[1..]))
  {
    if items != [] && !items[0].Hash? && levels != [] {
      var n := if items[|items| - 1].Hash? then |items| - 1 else |items|;
      TailsFit(items, levels, n);
      assert |items| > 1 ==> items[1..][|items| - 2] == items[|items| - 1];
    }
  }

  lemma TailsFit(items: seq<Item>, levels: seq<string>, n: nat)
    requires 0 < n <= |items| && levels != []
    ensures n <= |levels| ==> ((forall i :: 0 <= i < n ==> LevelFits(items[i], levels[i])) <==>
                               LevelFits(items[0], levels[0]) && forall i :: 0 <= i < n - 1 ==> LevelFits(items[1..][i], levels[1..][i]))
  {
    if n <= |levels| && LevelFits(items[0], levels[0]) && forall i :: 0 <= i < n - 1 ==> LevelFits(items[1..][i], levels[1..][i]) {
      forall i | 0 <= i < n ensures LevelFits(items[i], levels[i]) {
        assert i > 0 ==> items[i] == items[1..][i - 1] && levels[i] == levels[1..][i - 1];
      }
    }
  }

  /** The positions of the wildcards among the first `i` items, in pattern order. */
  function WildcardsBefore(items: seq<Item>, i: nat): (w: seq<nat>)
    requires i <= |items|
    ensures |w| <= i
    ensures forall k :: 0 <= k < |w| ==> w[k] < i && items[w[k]].IsWildcard()
  {
    if i == 0 then [] else
      WildcardsBefore(items, i - 1) + (if items[i - 1].IsWildcard() then [i - 1] else [])
  }

  function Wildcards(items: seq<Item>): (w: seq<nat>)
    ensures forall k :: 0 <= k < |w| ==> w[k] < |items| && items[w[k]].IsWildcard()
  {
    WildcardsBefore(items, |items|)
  }

  /** The levels taken by the wildcard at `pos` in a topic of `n` levels. */
  function Capture(item: Item, pos: nat, n: nat): Range {
    if item.Hash? then Range(pos, n) else Range(pos, pos + 1)
  }

  function CapturesBefore(items: seq<Item>, i: nat, n: nat): (c: seq<Range>)
    requires i <= |items|
    ensures |c| == |WildcardsBefore(items, i)|
    ensures forall k :: 0 <= k < |c| ==> c[k] == Capture(items[WildcardsBefore(items, i)[k]], WildcardsBefore(items, i)[k], n)
  {
    var w := WildcardsBefore(items, i);
    seq(|w|, k requires 0 <= k < |w| => Capture(items[w[k]], w[k], n))
  }

  function NamedBefore(items: seq<Item>, i: nat, n: nat): (c: seq<(string, Range)>)
    requires i <= |items|
    ensures forall k :: 0 <= k < |c| ==> exists j :: 0 <= j < i && items[j].ParamName() == Some(c[k].0) && c[k].1 == Capture(items[j], j, n)
  {
    if i == 0 then [] else
      NamedBefore(items, i - 1, n) +
      (if items[i - 1].ParamName().Some? then [(items[i - 1].ParamName().value, Capture(items[i - 1], i - 1, n))] else [])
  }

  /** The match a pattern yields on a topic it accepts. */
  function MatchOf(items: seq<Item>, topic: TopicPath): TopicMatch {
    var n := |topic.segments|;
    TopicMatch(topic, CapturesBefore(items, |items|, n), NamedBefore(items, |items|, n))
  }

  predicate AgreeUpTo(items: seq<Item>, levels: seq<string>, i: nat) {
    i <= |items| && i <= |levels| && forall k :: 0 <= k < i ==> LevelFits(items[k], levels[k])
  }

  function ErrorAt(items: seq<Item>, levels: seq<string>, i: nat): Option<MatchError>
    requires i < |items|
  {
    match items[i]
    case Str(s) =>
      if i >= |levels| then Some(UnexpectedEndOfTopic)
      else if levels[i] != s then Some(SegmentMismatch(s, levels[i], i))
      else None
    case Plus(_) => if i >= |levels| then Some(UnexpectedEndOfTopic) else None
    case Hash(_) => if i < |items| - 1 then Some(UnexpectedHashSegment) else None
  }

  /** The error reported when a topic does not match: that of the first item that does not fit. */
  ghost predicate FailsWith(items: seq<Item>, levels: seq<string>, e: MatchError) {
    || (e == UnexpectedEndOfPattern && AgreeUpTo(items, levels, |items|) && |items| < |levels|)
    || (exists i :: 0 <= i < |items| && AgreeUpTo(items, levels, i) && ErrorAt(items, levels, i) == Some(e))
  }

  /** A match, or the error of the first misfit. */
  ghost predicate IsMatchResult(items: seq<Item>, topic: TopicPath, r: Result<TopicMatch, MatchError>) {
    match r
    case Success(m) => Matches(items, topic.Levels()) && m == MatchOf(items, topic)
    case Failure(e) => !Matches(items, topic.Levels()) && FailsWith(items, topic.Levels(), e)
  }

  lemma FailsAt(items: seq<Item>, topic: TopicPath, i: nat)
    requires i < |items| && AgreeUpTo(items, topic.Levels(), i) && ErrorAt(items, topic.Levels(), i).Some?
    ensures IsMatchResult(items, topic, Failure(ErrorAt(items, topic.Levels(), i).value))
    ensures FailsWith(items, topic.Levels(), ErrorAt(items, topic.Levels(), i).value)
  {
  }

  lemma SucceedsAtHash(items: seq<Item>, topic: TopicPath, i: nat)
    requires i < |items| && i == |items| - 1 && items[i].Hash? && AgreeUpTo(items, topic.Levels(), i)
    ensures IsMatchResult(items, topic, Success(MatchOf(items, topic)))
  {
  }

  /** When every item has taken its level, only the lengths decide. */
  lemma DecidedByLength(items: seq<Item>, topic: TopicPath)
    requires AgreeUpTo(items, topic.Levels(), |items|)
    ensures |items| < |topic.Levels()| ==> IsMatchResult(items, topic, Failure(UnexpectedEndOfPattern))
    ensures |items| == |topic.Levels()| ==> IsMatchResult(items, topic, Success(MatchOf(items, topic)))
  {
    if items != [] {
      assert LevelFits(items[|items| - 1], topic.Levels()[|items| - 1]);
    }
  }

  lemma CaptureStep(items: seq<Item>, i: nat, n: nat)
    requires i < |items|
    ensures CapturesBefore(items, i + 1, n) ==
            CapturesBefore(items, i, n) + (if items[i].IsWildcard() then [Capture(items[i], i, n)] else [])
    ensures NamedBefore(items, i + 1, n) ==
            NamedBefore(items, i, n) +
            (if items[i].ParamName().Some? then [(items[i].ParamName().value, Capture(items[i], i, n))] else [])
  {
  }

  /** What one wildcard adds to the captures. */
  method CaptureAt(items: seq<Item>, i: nat, n: nat, params: seq<Range>, namedParams: seq<(string, Range)>)
    returns (params': seq<Range>, namedParams': seq<(string, Range)>)
    requires i < |items|
    requires params == CapturesBefore(items, i, n) && namedParams == NamedBefore(items, i, n)
    ensures params' == CapturesBefore(items, i + 1, n) && namedParams' == NamedBefore(items, i + 1, n)
  {
    hide CapturesBefore, NamedBefore;
    CaptureStep(items, i, n);
    params', namedParams' := params, namedParams;
    if items[i].IsWildcard() {
      var range := if items[i].Hash? then Range(i, n) else Range(i, i + 1);
      params' := params' + [range];
      if items[i].name.Some? {
        namedParams' := namedParams' + [(items[i].name.value, range)];
      }
    }
  }

  /** What an error tells of the items and levels. */
  lemma ErrorsAreMisfits(items: seq<Item>, levels: seq<string>, e: MatchError)
    requires FailsWith(items, levels, e)
    ensures e.SegmentMismatch? ==>
              && e.position < |items| && e.position < |levels| && AgreeUpTo(items, levels, e.position)
              && items[e.position] == Str(e.expected) && levels[e.position] == e.found && e.found != e.expected
    ensures e.UnexpectedEndOfTopic? ==> |levels| < |items| && AgreeUpTo(items, levels, |levels|) && !items[|levels|].Hash?
    ensures e.UnexpectedEndOfPattern? ==> |items| < |levels| && AgreeUpTo(items, levels, |items|)
    ensures e.UnexpectedHashSegment? ==> !HashLast(items)
  {
  }

  /** The first literal that differs from its level decides the result. */
  lemma FirstMismatchDecides(items: seq<Item>, topic: TopicPath, r: Result<TopicMatch, MatchError>, i: nat)
    requires IsMatchResult(items, topic, r)
    requires i < |items| && AgreeUpTo(items, topic.Levels(), i) && i < |topic.Levels()|
    requires items[i].Str? && items[i].text != topic.Levels()[i]
    ensures r == Failure(SegmentMismatch(items[i].text, topic.Levels()[i], i))
  {
    var levels := topic.Levels();
    assert !LevelFits(items[i], levels[i]);
    if r.Failure? {
      assert ErrorAt(items, levels, i) == Some(SegmentMismatch(items[i].text, levels[i], i));
    }
  }

  /** Matches a topic level by level. A mismatch names the first literal that differs from its level, with
      the text of both; the other errors say which of the two ended first. */
  method TryMatchInternal(items: seq<Item>, topic: TopicPath) returns (r: Result<TopicMatch, MatchError>)
    ensures IsMatchResult(items, topic, r)
    ensures r.Failure? && r.error.SegmentMismatch? ==>
              var i := r.error.position;
              && i < |items| && i < |topic.Levels()| && AgreeUpTo(items, topic.Levels(), i)
              && items[i] == Str(r.error.expected) && topic.Levels()[i] == r.error.found && r.error.found != r.error.expected
    ensures r == Failure(UnexpectedEndOfTopic) ==>
              var n := |topic.Levels()|; n < |items| && AgreeUpTo(items, topic.Levels(), n) && !items[n].Hash?
    ensures r == Failure(UnexpectedEndOfPattern) ==> |items| < |topic.Levels()| && AgreeUpTo(items, topic.Levels(), |items|)
    ensures r == Failure(UnexpectedHashSegment) ==> !HashLast(items)
  {
    hide IsMatchResult, Matches, FailsWith, CapturesBefore, NamedBefore, ErrorAt;
    var n := |topic.segments|;
    var topicIndex: nat := 0;
    var params: seq<Range> := [];
    var namedParams: seq<(string, Range)> := [];
    NoCapturesAtStart(items, n);
    for i := 0 to |items|
      invariant topicIndex == i && AgreeUpTo(items, topic.Levels(), i)
      invariant params == CapturesBefore(items, i, n)
      invariant namedParams == NamedBefore(items, i, n)
    {
      var e := StepError(items, topic, i);
      if e.Some? {
        FailsAt(items, topic, i);
        ErrorsAreMisfits(items, topic.Levels(), e.value);
        return Failure(e.value);
      }
      params, namedParams := CaptureAt(items, topicIndex, n, params, namedParams);
      NoErrorMeansFit(items, topic.Levels(), i);
      if items[i].Hash? {
        SucceedsAtHash(items, topic, i);
        return Success(TopicMatch(topic, params, namedParams));
      }
      topicIndex := topicIndex + 1;
    }
    DecidedByLength(items, topic);
    if topicIndex < n {
      return Failure(UnexpectedEndOfPattern);
    }
    return Success(TopicMatch(topic, params, namedParams));
  }

  lemma NoCapturesAtStart(items: seq<Item>, n: nat)
    ensures CapturesBefore(items, 0, n) == [] && NamedBefore(items, 0, n) == []
  {
  }

  lemma NoErrorMeansFit(items: seq<Item>, levels: seq<string>, i: nat)
    requires i < |items| && AgreeUpTo(items, levels, i) && ErrorAt(items, levels, i).None?
    ensures items[i].Hash? ==> i == |items| - 1
    ensures !items[i].Hash? ==> AgreeUpTo(items, levels, i + 1)
  {
  }

  /** The check made for the item at `i` before it takes a level. */
  method StepError(items: seq<Item>, topic: TopicPath, i: nat) returns (e: Option<MatchError>)
    requires i < |items|
    ensures e == ErrorAt(items, topic.Levels(), i)
  {
    match items[i] {
      case Str(expected) =>
        if i >= |topic.segments| {
          return Some(UnexpectedEndOfTopic);
        }
        if topic.segments[i].text != expected {
          return Some(SegmentMismatch(expected, topic.segments[i].text, i));
        }
      case Plus(_) =>
        if i >= |topic.segments| {
          return Some(UnexpectedEndOfTopic);
        }
      case Hash(_) =>
        if i < |items| - 1 {
          return Some(UnexpectedHashSegment);
        }
    }
    return None;
  }

  // ----- Formatting -----

  datatype FormatError = HashWildcardNotSupported | ParameterCountMismatch(expected: nat, provided: nat)

  /** The levels of the topic obtained by putting the k-th parameter in place of the k-th wildcard. */
  function Filled(items: seq<Item>, params: seq<string>): (levels: seq<string>)
    requires |params| == |Wildcards(items)|
    ensures |levels| == |items|
  {
    seq(|items|, i requires 0 <= i < |items| => FilledLevel(items, params, i))
  }

  function FilledLevel(items: seq<Item>, params: seq<string>, i: nat): string
    requires i < |items| && |params| == |Wildcards(items)|
  {
    if items[i].Str? then items[i].text
    else
      WildcardRank(items, i);
      params[|WildcardsBefore(items, i)|]
  }

  lemma {:induction false} WildcardsPrefix(items: seq<Item>, i: nat, j: nat)
    requires i <= j <= |items|
    ensures WildcardsBefore(items, i) <= WildcardsBefore(items, j)
    decreases j - i
  {
    if i < j {
      WildcardsPrefix(items, i, j - 1);
    }
  }

  /** The wildcard at `i` is the one numbered by the wildcards before it. */
  lemma WildcardRank(items: seq<Item>, i: nat)
    requires i < |items| && items[i].IsWildcard()
    ensures |WildcardsBefore(items, i)| < |Wildcards(items)|
    ensures Wildcards(items)[|WildcardsBefore(items, i)|] == i
  {
    WildcardsPrefix(items, i + 1, |items|);
  }

  lemma FilledStep(items: seq<Item>, params: seq<string>, i: nat)
    requires |params| == |Wildcards(items)| && i < |items|
    ensures var levels := Filled(items, params);
            Join(levels[..i + 1]) == Join(levels[..i]) + (if i > 0 then "/" else "") + FilledLevel(items, params, i)
  {
    hide Join, FilledLevel, Wildcards;
    var levels := Filled(items, params);
    JoinSnoc(levels[..i], levels[i]);
    assert levels[..i + 1] == levels[..i] + [levels[i]];
    if i == 0 {
      assert levels[..0] == [];
      EmptyJoin(levels);
      assert "" + "" + levels[0] == levels[0];
    } else {
      assert levels[..i] != [];
    }
  }

  method FormatTopic(items: seq<Item>, params: seq<string>) returns (r: Result<string, FormatError>)
    ensures |params| != |Wildcards(items)| ==> r == Failure(ParameterCountMismatch(|Wildcards(items)|, |params|))
    ensures |params| == |Wildcards(items)| && !NoHash(items) ==> r == Failure(HashWildcardNotSupported)
    ensures |params| == |Wildcards(items)| && NoHash(items) ==> r == Success(Join(Filled(items, params)))
  {
    hide Join, Wildcards, Filled;
    var wildcardCount := |Wildcards(items)|;
    if |params| != wildcardCount {
      return Failure(ParameterCountMismatch(wildcardCount, |params|));
    }
    var result := "";
    var paramIndex := 0;
    ghost var levels := Filled(items, params);
    EmptyJoin(levels);
    for i := 0 to |items|
      invariant paramIndex == |WildcardsBefore(items, i)|
      invariant result == Join(levels[..i])
      invariant forall k :: 0 <= k < i ==> !items[k].Hash?
    {
      FilledStep(items, params, i);
      if i > 0 {
        result := result + "/";
      }
      match items[i] {
        case Str(s) => result := result + s;
        case Plus(_) =>
          WildcardRank(items, i);
          result := result + params[paramIndex];
          paramIndex := paramIndex + 1;
        case Hash(_) => return Failure(HashWildcardNotSupported);
      }
    }
    assert levels[..|items|] == levels;
    return Success(result);
  }

  lemma EmptyJoin(parts: seq<string>)
    ensures Join(parts[..0]) == ""
  {
  }
}

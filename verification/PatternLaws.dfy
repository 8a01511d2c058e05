/** Laws of the pattern language that relate several of its operations. */
module PatternLaws {
  import opened Wrappers
  import opened Segments
  import opened TopicPatternItem
  import opened TopicMatch
  import opened TopicPatternPath
  import opened TopicMatcher

  // ----- What an accepted pattern looks like -----

  ghost predicate WellFormedItems(items: seq<Item>) {
    && items != []
    && HashLast(items)
    && DistinctNames(items)
    && forall i :: 0 <= i < |items| ==> Formed(items[i]) && ItemSlashFree(items[i])
  }

  /** Every accepted pattern has `#` only last, distinct names, and literals and names without
      slashes; its literals hold no wildcard character. */
  lemma AcceptedIsWellFormed(s: string)
    requires Accepts(s)
    ensures WellFormedItems(ParseAll(Split(s)).value)
  {
    var items := ParseAll(Split(s)).value;
    SplitPartsAreSlashFree(s);
    forall i | 0 <= i < |items| ensures Formed(items[i]) && ItemSlashFree(items[i]) {
      ParsedIsFormed(Split(s)[i]);
    }
  }

  /** Which templates are accepted, and with which segments, by their characters alone. */
  lemma GrammarDecides(s: string, items: seq<Item>)
    ensures Accepts(s) && ParseAll(Split(s)) == Success(items) <==>
            && !Blank(s) && |items| == |Split(s)| && (forall i :: 0 <= i < |items| ==> ReadsAs(Split(s)[i], items[i]))
            && DistinctNames(items) && HashLast(items)
  {
    hide Blank, Split, ReadsAs, DistinctNames, HashLast, ParseAll, ParseItem, Unreadable;
    var parts := Split(s);
    ParseAllReads(parts);
    if |items| == |parts| && forall i :: 0 <= i < |items| ==> ReadsAs(parts[i], items[i]) {
      forall i | 0 <= i < |parts| ensures ParseItem(parts[i]) == Success(items[i]) {
        ParseItemReads(parts[i], items[i]);
      }
      ParseAllOfParsed(parts, items);
    }
  }

  lemma ValidIsWellFormed(p: Pattern)
    requires p.Valid()
    ensures WellFormedItems(p.segments) && LiteralsSlashFree(p.segments)
  {
    AcceptedIsWellFormed(p.template);
  }

  // ----- Printing and parsing again -----

  ghost predicate Unambiguous(items: seq<Item>) {
    forall i :: 0 <= i < |items| ==> !AmbiguousName(items[i])
  }

  lemma {:induction false} ParseAllOfParsed(parts: seq<string>, items: seq<Item>)
    requires |parts| == |items|
    requires forall i :: 0 <= i < |parts| ==> ParseItem(parts[i]) == Success(items[i])
    ensures ParseAll(parts) == Success(items)
  {
    if parts != [] {
      ParseAllOfParsed(parts[1..], items[1..]);
      assert [items[0]] + items[1..] == items;
    }
  }

  /** An accepted pattern, printed segment by segment with its parameter names and parsed again,
      gives the same segments exactly when no `+` name ends in ":#". */
  lemma PatternRoundTrip(p: Pattern)
    requires p.Valid()
    ensures ParseAll(Split(Join(TemplateTexts(p.segments)))) == Success(p.segments) <==> Unambiguous(p.segments)
    ensures Unambiguous(p.segments) ==> Accepts(Join(TemplateTexts(p.segments)))
  {
    hide ParseAll, ParseItem, Formed, AmbiguousName, SlashFree, Blank, Join, Split;
    var items := p.segments;
    AcceptedIsWellFormed(p.template);
    var texts := TemplateTexts(items);
    forall i | 0 <= i < |items|
      ensures ParseItem(texts[i]) == Success(items[i]) <==> !AmbiguousName(items[i])
      ensures SlashFree(texts[i])
    {
      ItemRoundTrip(items[i]);
      PrintedIsSlashFree(items[i]);
    }
    SplitJoin(texts);
    if Unambiguous(items) {
      ParseAllOfParsed(texts, items);
      PrintedIsNotBlank(p);
    }
  }

  lemma PrintedIsSlashFree(item: Item)
    requires ItemSlashFree(item)
    ensures SlashFree(item.AsWildcard())
  {
  }

  /** The exception does occur: the template "{n:#}}" is accepted, and its printed form is parsed as a
      pattern with a multi-level wildcard. */
  lemma AmbiguousPattern(n: string) returns (p: Pattern)
    requires n != "" && n[0] != '{' && SlashFree(n)
    ensures p.Valid() && p.template == "{" + n + ":#}}" && p.segments == [Plus(Some(n + ":#"))]
    ensures !Unambiguous(p.segments) && ParseAll(Split(Join(TemplateTexts(p.segments)))) != Success(p.segments)
    ensures Join(TemplateTexts(p.segments)) == Join(TemplateTexts([Hash(Some(n))]))
  {
    hide ParseItem, ParseAll, Split, Blank, AmbiguousName;
    var template, item := "{" + n + ":#}}", Plus(Some(n + ":#"));
    AmbiguousNameParses(n);
    SplitAtFirstSlash(template, "");
    ParseAllOfParsed([template], [item]);
    BraceIsVisible(template);
    p := Pattern(template, "+", [item], None);
    assert WireTexts(p.segments) == ["+"];
    assert AmbiguousName(p.segments[0]);
    PatternRoundTrip(p);
    assert TemplateTexts(p.segments) == TemplateTexts([Hash(Some(n))]);
  }

  lemma BraceIsVisible(s: string)
    requires s != "" && s[0] == '{'
    ensures !Blank(s)
  {
    assert !IsWhitespace(s[0]);
  }

  lemma PrintedIsNotBlank(p: Pattern)
    requires p.Valid()
    ensures !Blank(Join(TemplateTexts(p.segments)))
  {
    var items := p.segments;
    var texts := TemplateTexts(items);
    if |items| == 1 {
      var i := items[0];
      assert Join(texts) == texts[0];
      if i.Str? {
        JoinSplit(p.template);
        ParsedIsFormed(Split(p.template)[0]);
        assert Split(p.template) == [i.text];
        assert Join(texts) == p.template;
      } else {
        assert !IsWhitespace(texts[0][0]);
      }
    } else {
      var s := Join(texts);
      assert s[|texts[0]|] == '/';
    }
  }

  // ----- Formatting and matching -----

  /** The literal levels of a topic built from a pattern contain no slash. */
  ghost predicate LiteralsSlashFree(items: seq<Item>) {
    forall i :: 0 <= i < |items| && items[i].Str? ==> SlashFree(items[i].text)
  }

  lemma {:induction false} SplitJoinLength(parts: seq<string>)
    requires parts != []
    ensures |Split(Join(parts))| >= |parts|
    ensures |Split(Join(parts))| == |parts| <==> AllSlashFree(parts)
  {
    var head := parts[0];
    PieceCount(head);
    if |parts| == 1 {
      assert Join(parts) == head;
    } else {
      var tail := parts[1..];
      SplitJoinLength(tail);
      SplitConcat(head, Join(tail));
      assert AllSlashFree(parts) <==> SlashFree(head) && AllSlashFree(tail) by {
        assert forall i :: 0 <= i < |tail| ==> tail[i] == parts[i + 1];
        assert forall i :: 1 <= i < |parts| ==> parts[i] == tail[i - 1];
      }
    }
  }

  lemma {:induction false} PieceCount(s: string)
    ensures |Split(s)| == 1 <==> SlashFree(s)
  {
    if s != "" {
      PieceCount(s[1..]);
      assert s == [s[0]] + s[1..];
    }
  }

  lemma {:induction false} SplitConcat(a: string, b: string)
    ensures |Split(a + "/" + b)| == |Split(a)| + |Split(b)|
  {
    if a == "" {
      assert (a + "/" + b)[1..] == b;
    } else {
      SplitConcat(a[1..], b);
      assert (a + "/" + b)[1..] == a[1..] + "/" + b;
    }
  }

  lemma WildcardIndexInjective(items: seq<Item>, k: nat)
    requires k < |Wildcards(items)|
    ensures |WildcardsBefore(items, Wildcards(items)[k])| == k
  {
    WildcardAscends(items, |items|, k);
  }

  lemma {:induction false} WildcardAscends(items: seq<Item>, i: nat, k: nat)
    requires i <= |items| && k < |WildcardsBefore(items, i)|
    ensures |WildcardsBefore(items, WildcardsBefore(items, i)[k])| == k
    decreases i
  {
    var before := WildcardsBefore(items, i - 1);
    if k < |before| {
      WildcardAscends(items, i - 1, k);
    }
  }

  /** A topic formatted from a `#`-free pattern matches that pattern exactly when no parameter
      contains a slash, and then the k-th captured parameter is the k-th one given. */
  lemma FormatThenMatch(p: Pattern, params: seq<string>)
    requires p.Valid() && NoHash(p.segments)
    requires |params| == |Wildcards(p.segments)|
    ensures var topic := NewTopicPath(Join(Filled(p.segments, params)));
            && (Matches(p.segments, topic.Levels()) <==> AllSlashFree(params))
            && (AllSlashFree(params) ==>
                  && MatchOf(p.segments, topic).Valid()
                  && |MatchOf(p.segments, topic).params| == |params|
                  && forall k :: 0 <= k < |params| ==> MatchOf(p.segments, topic).GetParam(k) == Some(params[k]))
  {
    hide Pattern.Valid, WellFormedItems, Matches, Filled;
    ValidIsWellFormed(p);
    NonEmpty(p);
    FormatMatches(p.segments, params);
    var topic := NewTopicPath(Join(Filled(p.segments, params)));
    if AllSlashFree(params) {
      HashLastOf(p);
      MatchIsValid(p.segments, topic);
      forall k | 0 <= k < |params| ensures MatchOf(p.segments, topic).GetParam(k) == Some(params[k]) {
        FormattedParam(p.segments, params, k);
      }
    }
  }

  lemma NonEmpty(p: Pattern)
    requires p.Valid()
    ensures p.segments != []
  {
  }

  lemma HashLastOf(p: Pattern)
    requires p.Valid()
    ensures HashLast(p.segments)
  {
  }

  lemma FormatMatches(items: seq<Item>, params: seq<string>)
    requires items != [] && NoHash(items) && LiteralsSlashFree(items) && |params| == |Wildcards(items)|
    ensures var topic := NewTopicPath(Join(Filled(items, params)));
            && (Matches(items, topic.Levels()) <==> AllSlashFree(params))
            && (AllSlashFree(params) ==> topic.Levels() == Filled(items, params))
  {
    var levels := Filled(items, params);
    LevelsAreSplit(NewTopicPath(Join(levels)));
    SplitJoinLength(levels);
    FilledSlashFree(items, params);
    if AllSlashFree(params) {
      SplitJoin(levels);
    }
  }

  lemma FormattedParam(items: seq<Item>, params: seq<string>, k: nat)
    requires NoHash(items) && |params| == |Wildcards(items)| && k < |params|
    requires var topic := NewTopicPath(Join(Filled(items, params)));
             topic.Levels() == Filled(items, params) && MatchOf(items, topic).Valid()
    ensures MatchOf(items, NewTopicPath(Join(Filled(items, params)))).GetParam(k) == Some(params[k])
  {
    var pos := Wildcards(items)[k];
    WildcardIndexInjective(items, k);
    assert !items[pos].Hash?;
    var m := MatchOf(items, NewTopicPath(Join(Filled(items, params))));
    assert m.params[k] == Range(pos, pos + 1);
    assert m.topic.Levels()[pos] == FilledLevel(items, params, pos);
  }

  lemma FilledSlashFree(items: seq<Item>, params: seq<string>)
    requires |params| == |Wildcards(items)| && LiteralsSlashFree(items)
    ensures AllSlashFree(Filled(items, params)) <==> AllSlashFree(params)
  {
    var levels := Filled(items, params);
    if AllSlashFree(levels) {
      forall k | 0 <= k < |params| ensures SlashFree(params[k]) {
        WildcardIndexInjective(items, k);
        assert levels[Wildcards(items)[k]] == params[k];
      }
    } else {
      var i :| 0 <= i < |levels| && !SlashFree(levels[i]);
      assert levels[i] == FilledLevel(items, params, i);
      WildcardRank(items, i);
    }
  }

  /** All captured parameters of a match, in order. */
  function Parameters(m: TopicMatch): (params: seq<string>)
    requires m.Valid()
    ensures |params| == |m.params|
  {
    seq(|m.params|, k requires 0 <= k < |m.params| => m.GetParamRange(m.params[k]))
  }

  lemma MatchIsValid(items: seq<Item>, topic: TopicPath)
    requires topic.WellFormed() && HashLast(items) && Matches(items, topic.Levels())
    ensures MatchOf(items, topic).Valid()
    ensures |MatchOf(items, topic).params| == |Wildcards(items)|
  {
    var m := MatchOf(items, topic);
    forall i | 0 <= i < |m.namedParams| ensures m.InBounds(m.namedParams[i].1) {
      var j :| 0 <= j < |items| && items[j].ParamName() == Some(m.namedParams[i].0) && m.namedParams[i].1 == Capture(items[j], j, |topic.segments|);
    }
  }

  /** Conversely, any topic that matches a `#`-free pattern is the one formatted from the
      parameters the match extracts. */
  lemma MatchThenFormat(p: Pattern, topic: TopicPath)
    requires p.Valid() && NoHash(p.segments) && topic.WellFormed()
    requires Matches(p.segments, topic.Levels())
    ensures MatchOf(p.segments, topic).Valid()
    ensures |Parameters(MatchOf(p.segments, topic))| == |Wildcards(p.segments)|
    ensures Join(Filled(p.segments, Parameters(MatchOf(p.segments, topic)))) == topic.path
  {
    hide Pattern.Valid, Matches, MatchOf, Parameters, Filled, Wildcards, Join;
    HashLastOf(p);
    MatchIsValid(p.segments, topic);
    LevelsAreSplit(topic);
    ParameterCount(p.segments, topic);
    RefilledIsTopic(p.segments, topic);
  }

  lemma ParameterCount(items: seq<Item>, topic: TopicPath)
    requires MatchOf(items, topic).Valid()
    ensures |Parameters(MatchOf(items, topic))| == |Wildcards(items)|
  {
  }

  lemma RefilledIsTopic(items: seq<Item>, topic: TopicPath)
    requires NoHash(items) && Matches(items, topic.Levels())
    requires MatchOf(items, topic).Valid() && |Parameters(MatchOf(items, topic))| == |Wildcards(items)|
    ensures Filled(items, Parameters(MatchOf(items, topic))) == topic.Levels()
  {
    hide Matches, MatchOf, Parameters, Wildcards;
    PlainMatch(items, topic.Levels());
    var params := Parameters(MatchOf(items, topic));
    forall i | 0 <= i < |items| ensures FilledLevel(items, params, i) == topic.Levels()[i] {
      if items[i].IsWildcard() {
        RefilledLevel(items, topic, i);
      }
    }
  }

  lemma PlainMatch(items: seq<Item>, levels: seq<string>)
    requires NoHash(items) && Matches(items, levels)
    ensures |items| == |levels| && forall i :: 0 <= i < |items| ==> LevelFits(items[i], levels[i])
  {
  }

  lemma RefilledLevel(items: seq<Item>, topic: TopicPath, i: nat)
    requires NoHash(items) && |items| == |topic.Levels()| && i < |items| && items[i].IsWildcard()
    requires MatchOf(items, topic).Valid() && |Parameters(MatchOf(items, topic))| == |Wildcards(items)|
    ensures |WildcardsBefore(items, i)| < |Wildcards(items)|
    ensures Parameters(MatchOf(items, topic))[|WildcardsBefore(items, i)|] == topic.Levels()[i]
  {
    WildcardRank(items, i);
    assert MatchOf(items, topic).params[|WildcardsBefore(items, i)|] == Range(i, i + 1);
  }

  /** In a pattern that ends in `#` the last parameter is the joined remainder of the topic, which
      is empty when the topic stops at the parent level. */
  lemma HashCapturesRemainder(p: Pattern, topic: TopicPath)
    requires p.Valid() && p.segments[|p.segments| - 1].Hash? && topic.WellFormed()
    requires Matches(p.segments, topic.Levels())
    ensures MatchOf(p.segments, topic).Valid() && Wildcards(p.segments) != []
    ensures MatchOf(p.segments, topic).GetParam(|Wildcards(p.segments)| - 1) == Some(Join(topic.Levels()[|p.segments| - 1..]))
  {
    hide Pattern.Valid, Matches, MatchOf, Wildcards, Join, TopicPath.Levels;
    HashLastOf(p);
    NonEmpty(p);
    MatchIsValid(p.segments, topic);
    var range := LastCapture(p.segments, topic);
    ParamIsJoinOfLevels(MatchOf(p.segments, topic), range);
    LevelCount(topic);
    assert topic.Levels()[range.start..range.end] == topic.Levels()[|p.segments| - 1..];
  }

  /** The capture of a final `#`: the last one, from its position to the end of the topic. */
  lemma LastCapture(items: seq<Item>, topic: TopicPath) returns (range: Range)
    requires items != [] && items[|items| - 1].Hash?
    ensures Wildcards(items) != [] && |MatchOf(items, topic).params| == |Wildcards(items)| && MatchOf(items, topic).topic == topic
    ensures range == Range(|items| - 1, |topic.segments|)
    ensures MatchOf(items, topic).params[|Wildcards(items)| - 1] == range
  {
    range := Range(|items| - 1, |topic.segments|);
  }

  lemma LevelCount(topic: TopicPath)
    ensures |topic.Levels()| == |topic.segments|
  {
  }

  // ----- Compatible patterns -----

  /** The wildcards of a pattern, names included, in order. */
  function WildcardItems(items: seq<Item>): seq<Item> {
    if items == [] then []
    else
      var last := items[|items| - 1];
      WildcardItems(items[..|items| - 1]) + (if last.IsWildcard() then [last] else [])
  }

  lemma {:induction false} WildcardItemsAt(items: seq<Item>, i: nat)
    requires i <= |items|
    ensures |WildcardItems(items[..i])| == |WildcardsBefore(items, i)|
    ensures forall k :: 0 <= k < |WildcardsBefore(items, i)| ==> WildcardItems(items[..i])[k] == items[WildcardsBefore(items, i)[k]]
  {
    if i > 0 {
      WildcardItemsAt(items, i - 1);
      assert items[..i][..i - 1] == items[..i - 1];
    }
  }

  /** Accepts a custom pattern whose literal segments may differ but whose wildcards are the same. */
  method CheckPatternCompatibility(p: Pattern, customTopic: string) returns (r: Result<Pattern, PatternError>)
    ensures r.Success? <==> Accepts(customTopic) && WildcardItems(ParseAll(Split(customTopic)).value) == WildcardItems(p.segments)
    ensures r.Success? ==> r.value.Valid() && r.value.template == customTopic
    ensures r.Failure? && Accepts(customTopic) ==> r.error == PatternStructureMismatch(p.template, customTopic)
    ensures r.Failure? && !Accepts(customTopic) ==> Rejects(customTopic, r.error)
  {
    r := NewFromString(customTopic);
    if r.Success? && WildcardItems(p.segments) != WildcardItems(r.value.segments) {
      r := Failure(PatternStructureMismatch(p.template, r.value.template));
    }
  }

  lemma SameWildcards(a: seq<Item>, b: seq<Item>)
    requires WildcardItems(a) == WildcardItems(b)
    ensures |Wildcards(a)| == |Wildcards(b)|
    ensures forall k :: 0 <= k < |Wildcards(a)| ==> b[Wildcards(b)[k]] == a[Wildcards(a)[k]]
    ensures NoHash(a) ==> NoHash(b)
  {
    WildcardItemsAt(a, |a|);
    WildcardItemsAt(b, |b|);
    assert a[..|a|] == a && b[..|b|] == b;
    if NoHash(a) {
      forall i | 0 <= i < |b| ensures !b[i].Hash? {
        if b[i].IsWildcard() {
          WildcardRank(b, i);
        }
      }
    }
  }

  /** A topic of one pattern carries over to any compatible pattern: formatting the extracted
      parameters with the other pattern gives a topic that the other pattern accepts and from which
      it extracts the same parameters, for wildcards of the same kind and name. */
  lemma CompatiblePatternsTranslate(p: Pattern, q: Pattern, topic: TopicPath)
    requires p.Valid() && q.Valid() && NoHash(p.segments) && topic.WellFormed()
    requires WildcardItems(p.segments) == WildcardItems(q.segments)
    requires Matches(p.segments, topic.Levels())
    ensures MatchOf(p.segments, topic).Valid() && |Wildcards(q.segments)| == |Parameters(MatchOf(p.segments, topic))|
    ensures var params := Parameters(MatchOf(p.segments, topic));
            var translated := NewTopicPath(Join(Filled(q.segments, params)));
            && Matches(q.segments, translated.Levels()) && MatchOf(q.segments, translated).Valid()
            && |MatchOf(q.segments, translated).params| == |params|
            && forall k :: 0 <= k < |params| ==>
                 && MatchOf(q.segments, translated).GetParam(k) == Some(params[k])
                 && q.segments[Wildcards(q.segments)[k]] == p.segments[Wildcards(p.segments)[k]]
  {
    hide Pattern.Valid, Matches, MatchOf, Filled, Parameters, WildcardItems, Wildcards, AllSlashFree, Join;
    MatchThenFormat(p, topic);
    var params := Parameters(MatchOf(p.segments, topic));
    SameWildcards(p.segments, q.segments);
    FormatThenMatch(p, params);
    FormatThenMatch(q, params);
  }

  // ----- Binding -----

  lemma NameIsFresh(items: seq<Item>, n: nat, j: nat)
    requires j < |items| && items[j].ParamName().Some? && !RepeatsName(items, j)
    ensures FindName(NamedBefore(items, j, n), items[j].ParamName().value) == |NamedBefore(items, j, n)|
  {
    var hit := FindName(NamedBefore(items, j, n), items[j].ParamName().value);
  }

  lemma {:induction false} NamedContains(items: seq<Item>, i: nat, n: nat, j: nat)
    requires j < i <= |items| && items[j].ParamName().Some?
    requires !RepeatsName(items, j)
    ensures var named := NamedBefore(items, i, n);
            var hit := FindName(named, items[j].ParamName().value);
            hit < |named| && named[hit].1 == Capture(items[j], j, n)
    decreases i
  {
    hide FindName, NamedBefore, Capture, RepeatsName;
    var before := NamedBefore(items, i - 1, n);
    var name := items[j].ParamName().value;
    CaptureStep(items, i - 1, n);
    if j < i - 1 {
      NamedContains(items, i - 1, n, j);
    } else {
      NameIsFresh(items, n, j);
    }
    if items[i - 1].ParamName().Some? {
      var extra := (items[i - 1].ParamName().value, Capture(items[i - 1], i - 1, n));
      FindNameSnoc(before, extra, name);
    } else {
      assert before + [] == before;
    }
  }

  // ----- What a match extracts -----

  /** `text` is what the wildcard at `j` takes of a topic: its own level, or all that is left. */
  ghost predicate Under(items: seq<Item>, levels: seq<string>, j: nat, text: string)
    requires j < |items|
  {
    if items[j].Hash? then j <= |levels| && text == Join(levels[j..]) else j < |levels| && text == levels[j]
  }

  ghost predicate IsNamed(item: Item, name: string) {
    item == Plus(Some(name)) || item == Hash(Some(name))
  }

  /** The match belongs to `topic` and has one parameter for each wildcard, in order: the text under it.
      Named wildcards are found under their names, and no other name is. */
  ghost predicate Extracts(m: TopicMatch, items: seq<Item>, topic: string) {
    && m.Valid() && m.topic.path == topic
    && |m.params| == |Wildcards(items)|
    && (forall k :: 0 <= k < |m.params| ==> m.GetParam(k).Some? && Under(items, Split(topic), Wildcards(items)[k], m.GetParam(k).value))
    && m.GetParam(|m.params|) == None
    && (forall j, n :: 0 <= j < |items| && IsNamed(items[j], n) ==>
          m.GetNamedParam(n).Some? && Under(items, Split(topic), j, m.GetNamedParam(n).value))
    && (forall n :: (forall j :: 0 <= j < |items| ==> !IsNamed(items[j], n)) ==> m.GetNamedParam(n) == None)
  }

  /** `Wildcards` lists the positions of all wildcards, in ascending order. */
  lemma WildcardsInOrder(items: seq<Item>)
    ensures forall i :: 0 <= i < |items| ==> (i in Wildcards(items) <==> !items[i].Str?)
    ensures forall j, k :: 0 <= j < k < |Wildcards(items)| ==> Wildcards(items)[j] < Wildcards(items)[k]
  {
    forall i | 0 <= i < |items| && !items[i].Str? ensures i in Wildcards(items) {
      WildcardRank(items, i);
    }
    forall j, k | 0 <= j < k < |Wildcards(items)| ensures Wildcards(items)[j] < Wildcards(items)[k] {
      WildcardIndexInjective(items, j);
      WildcardIndexInjective(items, k);
      if Wildcards(items)[k] <= Wildcards(items)[j] {
        WildcardsPrefix(items, Wildcards(items)[k], Wildcards(items)[j]);
      }
    }
  }

  lemma CaptureIsUnder(items: seq<Item>, topic: TopicPath, m: TopicMatch, j: nat)
    requires topic.WellFormed() && HashLast(items) && Matches(items, topic.Levels()) && m.topic == topic
    requires j < |items| && !items[j].Str?
    ensures m.InBounds(Capture(items[j], j, |topic.segments|))
    ensures Under(items, topic.Levels(), j, m.GetParamRange(Capture(items[j], j, |topic.segments|)))
  {
    var n := |topic.segments|;
    WildcardFits(items, topic.Levels(), j);
    var range := Capture(items[j], j, n);
    ParamIsJoinOfLevels(m, range);
    if items[j].Hash? {
      assert topic.Levels()[j..n] == topic.Levels()[j..];
    } else {
      assert topic.Levels()[j..j + 1] == [topic.Levels()[j]];
    }
  }

  lemma WildcardFits(items: seq<Item>, levels: seq<string>, j: nat)
    requires HashLast(items) && Matches(items, levels) && j < |items| && !items[j].Str?
    ensures if items[j].Hash? then j <= |levels| else j < |levels|
  {
  }

  lemma ParamIsText(items: seq<Item>, topic: TopicPath, k: nat)
    requires topic.WellFormed() && HashLast(items) && Matches(items, topic.Levels()) && k < |Wildcards(items)|
    ensures MatchOf(items, topic).Valid() && MatchOf(items, topic).GetParam(k).Some?
    ensures Under(items, topic.Levels(), Wildcards(items)[k], MatchOf(items, topic).GetParam(k).value)
  {
    hide Matches, HashLast, Under, TopicPath.WellFormed;
    MatchIsValid(items, topic);
    CaptureIsUnder(items, topic, MatchOf(items, topic), Wildcards(items)[k]);
  }

  lemma NamedParamIsText(items: seq<Item>, topic: TopicPath, j: nat, name: string)
    requires topic.WellFormed() && HashLast(items) && DistinctNames(items) && Matches(items, topic.Levels())
    requires j < |items| && IsNamed(items[j], name)
    ensures MatchOf(items, topic).Valid() && MatchOf(items, topic).GetNamedParam(name).Some?
    ensures Under(items, topic.Levels(), j, MatchOf(items, topic).GetNamedParam(name).value)
  {
    hide Matches, HashLast, Under, FindName, NamedBefore, CapturesBefore, TopicPath.WellFormed;
    MatchIsValid(items, topic);
    NamedContains(items, |items|, |topic.segments|, j);
    CaptureIsUnder(items, topic, MatchOf(items, topic), j);
  }

  lemma UnknownNameHasNoParam(items: seq<Item>, topic: TopicPath, name: string)
    requires MatchOf(items, topic).Valid() && forall j :: 0 <= j < |items| ==> !IsNamed(items[j], name)
    ensures MatchOf(items, topic).GetNamedParam(name) == None
  {
    var named := NamedBefore(items, |items|, |topic.segments|);
    forall k | 0 <= k < |named| ensures exists j :: 0 <= j < |items| && IsNamed(items[j], named[k].0) {
      var j :| 0 <= j < |items| && items[j].ParamName() == Some(named[k].0);
      assert IsNamed(items[j], named[k].0);
    }
    var hit := FindName(named, name);
  }

  /** A match of an accepted pattern extracts the text under every wildcard, by position and by name. */
  lemma MatchExtracts(p: Pattern, topic: TopicPath)
    requires p.Valid() && topic.WellFormed() && Matches(p.segments, topic.Levels())
    ensures Extracts(MatchOf(p.segments, topic), p.segments, topic.path)
  {
    hide Pattern.Valid, Matches, Wildcards, WellFormedItems, HashLast, DistinctNames, Under, IsNamed, TopicMatch.GetParam, TopicMatch.GetNamedParam,
      TopicPath.WellFormed, TopicPath.Levels, Split, CapturesBefore, NamedBefore, TopicMatch.Valid;
    WellFormedParts(p);
    var items, m := p.segments, MatchOf(p.segments, topic);
    MatchIsValid(items, topic);
    LevelsAreSplit(topic);
    forall k | 0 <= k < |m.params| ensures m.GetParam(k).Some? && Under(items, Split(topic.path), Wildcards(items)[k], m.GetParam(k).value) {
      ParamIsText(items, topic, k);
    }
    NoMoreParams(m);
    forall j, n | 0 <= j < |items| && IsNamed(items[j], n)
      ensures m.GetNamedParam(n).Some? && Under(items, Split(topic.path), j, m.GetNamedParam(n).value)
    {
      NamedParamIsText(items, topic, j, n);
    }
    forall n | forall j :: 0 <= j < |items| ==> !IsNamed(items[j], n) ensures m.GetNamedParam(n) == None {
      UnknownNameHasNoParam(items, topic, n);
    }
  }

  lemma NoMoreParams(m: TopicMatch)
    requires m.Valid()
    ensures m.GetParam(|m.params|) == None
  {
  }

  lemma WellFormedParts(p: Pattern)
    requires p.Valid()
    ensures HashLast(p.segments) && DistinctNames(p.segments)
  {
  }

  /** The value extracted for the `+` wildcard at `j` is the level at `j`. */
  lemma NamedParamIsLevel(items: seq<Item>, topic: TopicPath, j: nat)
    requires topic.WellFormed() && HashLast(items) && DistinctNames(items)
    requires Matches(items, topic.Levels())
    requires j < |items| && items[j].Plus? && items[j].name.Some?
    ensures MatchOf(items, topic).Valid() && j < |topic.segments|
    ensures MatchOf(items, topic).GetNamedParam(items[j].name.value) == Some(topic.Levels()[j])
  {
    hide Matches, HashLast, DistinctNames, MatchOf, TopicMatch.GetNamedParam, TopicPath.WellFormed;
    NamedParamIsText(items, topic, j, items[j].name.value);
  }

  ghost predicate ExtractsBindings(p: Pattern, topic: TopicPath)
    requires MatchOf(p.segments, topic).Valid()
  {
    forall k :: 0 <= k < |p.Bindings()| ==>
      MatchOf(p.segments, topic).GetNamedParam(p.Bindings()[k].0) == Some(p.Bindings()[k].1)
  }

  lemma BoundFitsUnbound(items: seq<Item>, bindings: seq<(string, string)>, levels: seq<string>)
    requires Matches(Resolve(items, bindings), levels)
    ensures Matches(items, levels)
  {
    var r := Resolve(items, bindings);
    assert items != [] ==> (r[|items| - 1].Hash? <==> items[|items| - 1].Hash?);
    forall j | 0 <= j < |items| && j < |levels| && LevelFits(r[j], levels[j])
      ensures LevelFits(items[j], levels[j])
    {
    }
  }

  /** In a match, the value extracted for the k-th binding is the level its wildcard stands on. */
  lemma BoundWildcard(p: Pattern, topic: TopicPath, k: nat) returns (j: nat)
    requires p.Valid() && topic.WellFormed() && k < |p.Bindings()|
    requires Matches(p.segments, topic.Levels())
    ensures j < |p.segments| && j < |topic.Levels()|
    ensures p.segments[j] == Plus(Some(p.Bindings()[k].0))
    ensures p.Resolved()[j] == Str(p.Bindings()[k].1)
    ensures MatchOf(p.segments, topic).Valid()
    ensures MatchOf(p.segments, topic).GetNamedParam(p.Bindings()[k].0) == Some(topic.Levels()[j])
  {
    assert IsPlusName(p.segments, p.Bindings()[k].0);
    j :| 0 <= j < |p.segments| && p.segments[j] == Plus(Some(p.Bindings()[k].0));
    NamedParamIsLevel(p.segments, topic, j);
    BoundValuesAreBindings(p.Bindings());
  }

  lemma ExtractionImpliesBound(item: Item, bindings: seq<(string, string)>, m: TopicMatch, level: string)
    requires m.Valid() && LevelFits(item, level)
    requires forall k :: 0 <= k < |bindings| ==> m.GetNamedParam(bindings[k].0) == Some(bindings[k].1)
    requires item.Plus? && item.name.Some? ==> m.GetNamedParam(item.name.value) == Some(level)
    ensures LevelFits(ResolveItem(item, bindings), level)
  {
    if item.Plus? && item.name.Some? {
      var k := FindName(bindings, item.name.value);
    }
  }

  lemma BoundMatchExtracts(p: Pattern, topic: TopicPath)
    requires p.Valid() && topic.WellFormed() && Matches(p.Resolved(), topic.Levels())
    ensures Matches(p.segments, topic.Levels()) && MatchOf(p.segments, topic).Valid() && ExtractsBindings(p, topic)
  {
    BoundFitsUnbound(p.segments, p.Bindings(), topic.Levels());
    MatchIsValid(p.segments, topic);
    forall k | 0 <= k < |p.Bindings()|
      ensures MatchOf(p.segments, topic).GetNamedParam(p.Bindings()[k].0) == Some(p.Bindings()[k].1)
    {
      var j := BoundWildcard(p, topic, k);
      BoundLevel(p.Resolved(), topic.Levels(), j);
    }
  }

  lemma BoundLevel(items: seq<Item>, levels: seq<string>, j: nat)
    requires Matches(items, levels) && j < |items| && j < |levels| && items[j].Str?
    ensures levels[j] == items[j].text
  {
    assert LevelFits(items[j], levels[j]);
  }

  lemma ExtractingMatchIsBound(p: Pattern, topic: TopicPath)
    requires p.Valid() && topic.WellFormed() && Matches(p.segments, topic.Levels())
    requires MatchOf(p.segments, topic).Valid() && ExtractsBindings(p, topic)
    ensures Matches(p.Resolved(), topic.Levels())
  {
    var items, bindings, levels := p.segments, p.Bindings(), topic.Levels();
    forall j | 0 <= j < |items| && j < |levels| && LevelFits(items[j], levels[j])
      ensures LevelFits(ResolveItem(items[j], bindings), levels[j])
    {
      if items[j].Plus? && items[j].name.Some? {
        NamedParamIsLevel(items, topic, j);
      }
      ExtractionImpliesBound(items[j], bindings, MatchOf(items, topic), levels[j]);
    }
    PointwiseMatch(items, Resolve(items, bindings), levels);
  }

  lemma PointwiseMatch(items: seq<Item>, other: seq<Item>, levels: seq<string>)
    requires |items| == |other| && Matches(items, levels)
    requires items != [] ==> (items[|items| - 1].Hash? <==> other[|items| - 1].Hash?)
    requires forall j :: 0 <= j < |items| && j < |levels| && LevelFits(items[j], levels[j]) ==> LevelFits(other[j], levels[j])
    ensures Matches(other, levels)
  {
  }

  /** Binding only narrows: a topic fits the bound pattern exactly when it fits the unbound segments
      and every bound parameter's extracted value equals its binding. */
  lemma BindingNarrows(p: Pattern, topic: TopicPath)
    requires p.Valid() && topic.WellFormed()
    ensures Matches(p.segments, topic.Levels()) ==> MatchOf(p.segments, topic).Valid()
    ensures Matches(p.Resolved(), topic.Levels()) <==> Matches(p.segments, topic.Levels()) && ExtractsBindings(p, topic)
  {
    if Matches(p.Resolved(), topic.Levels()) {
      BoundMatchExtracts(p, topic);
    } else if Matches(p.segments, topic.Levels()) {
      MatchIsValid(p.segments, topic);
      if ExtractsBindings(p, topic) {
        ExtractingMatchIsBound(p, topic);
      }
    }
  }

  lemma BoundValuesAreBindings(bindings: seq<(string, string)>)
    requires DistinctKeys(bindings)
    ensures forall k :: 0 <= k < |bindings| ==> BoundValue(bindings, bindings[k].0) == Some(bindings[k].1)
  {
  }

  // ----- Trie slots and wire strings -----

  /** A bound value that cannot be confused with several levels or with a wildcard. */
  predicate PlainValue(s: string) {
    '/' !in s && s != "+" && s != "#"
  }

  ghost predicate PlainBindings(p: Pattern) {
    forall k :: 0 <= k < |p.Bindings()| ==> PlainValue(p.Bindings()[k].1)
  }

  /** Equal up to wildcard names: the two item lists lead to the same place in the trie. */
  ghost predicate SameShape(a: seq<Item>, b: seq<Item>) {
    |a| == |b| && forall i :: 0 <= i < |a| ==> SameItem(a[i], b[i])
  }

  predicate SameItem(a: Item, b: Item) {
    if a.Str? then a == b else if a.Plus? then b.Plus? else b.Hash?
  }

  lemma SameShapeSameWire(a: seq<Item>, b: seq<Item>)
    requires SameShape(a, b)
    ensures Wire(a) == Wire(b)
  {
    assert WireTexts(a) == WireTexts(b);
  }

  /** A literal that resolution leaves or puts in is a single plain level. */
  lemma PlainLiteral(item: Item, bindings: seq<(string, string)>)
    requires Formed(item) && ItemSlashFree(item)
    requires forall k :: 0 <= k < |bindings| ==> PlainValue(bindings[k].1)
    ensures ResolveItem(item, bindings).Str? ==> PlainValue(ResolveItem(item, bindings).text)
  {
  }

  lemma PlainLiterals(p: Pattern)
    requires p.Valid() && PlainBindings(p)
    ensures p.Resolved() != []
    ensures forall i :: 0 <= i < |p.Resolved()| && p.Resolved()[i].Str? ==> PlainValue(p.Resolved()[i].text)
  {
    hide Pattern.Valid, Resolve, ResolveItem, Formed, ItemSlashFree, PlainValue, HashLast, DistinctNames;
    ValidIsWellFormed(p);
    forall i | 0 <= i < |p.segments| && p.Resolved()[i].Str? ensures PlainValue(p.Resolved()[i].text) {
      PlainLiteral(p.segments[i], p.Bindings());
    }
  }

  lemma ResolvedHashLast(p: Pattern)
    requires p.Valid()
    ensures HashLast(p.Resolved())
  {
    forall i | 0 <= i < |p.segments| - 1 ensures !p.Resolved()[i].Hash? {
      assert !p.segments[i].Hash?;
    }
  }

  /** Two patterns lead to the same slot exactly when they agree up to wildcard names. */
  lemma SlotIsShape(a: seq<Item>, b: seq<Item>)
    requires HashLast(a) && HashLast(b)
    ensures SlotOf(a) == SlotOf(b) <==> SameShape(a, b)
  {
    SlotOfByPosition(a);
    SlotOfByPosition(b);
    if SlotOf(a) == SlotOf(b) {
      assert |a| == |b|;
      forall i | 0 <= i < |a| ensures SameItem(a[i], b[i]) {
        if i < |SlotOf(a).path| {
          assert SlotOf(a).path[i] == KeyOf(a[i]) && SlotOf(b).path[i] == KeyOf(b[i]);
          assert !a[i].Hash? && !b[i].Hash?;
        }
      }
    }
    if SameShape(a, b) {
      assert a != [] ==> SameItem(a[|a| - 1], b[|a| - 1]);
      forall i | 0 <= i < |SlotOf(a).path| ensures SlotOf(a).path[i] == SlotOf(b).path[i] {
        assert SameItem(a[i], b[i]);
      }
      assert SlotOf(a).path == SlotOf(b).path;
    }
  }

  /** Two parsed patterns whose bound values are single levels other than "+" and "#" ask the broker
      for the same string exactly when they lead to the same slot of the trie. */
  lemma SlotAndWireAgree(p: Pattern, q: Pattern)
    requires p.Valid() && q.Valid() && PlainBindings(p) && PlainBindings(q)
    ensures p.MqttPattern() == q.MqttPattern() <==> SlotOf(p.Resolved()) == SlotOf(q.Resolved())
  {
    hide Pattern.Valid, PlainBindings, Resolve, Wire;
    MqttPatternIsWire(p);
    MqttPatternIsWire(q);
    PlainLiterals(p);
    PlainLiterals(q);
    WireDeterminesShape(p.Resolved(), q.Resolved());
    ResolvedHashLast(p);
    ResolvedHashLast(q);
    SlotIsShape(p.Resolved(), q.Resolved());
  }

  lemma WireDeterminesShape(a: seq<Item>, b: seq<Item>)
    requires a != [] && b != []
    requires forall i :: 0 <= i < |a| && a[i].Str? ==> PlainValue(a[i].text)
    requires forall i :: 0 <= i < |b| && b[i].Str? ==> PlainValue(b[i].text)
    ensures Wire(a) == Wire(b) <==> SameShape(a, b)
  {
    if SameShape(a, b) {
      SameShapeSameWire(a, b);
    }
    if Wire(a) == Wire(b) {
      JoinInjective(WireTexts(a), WireTexts(b));
      forall i | 0 <= i < |a| ensures SameItem(a[i], b[i]) {
        assert WireTexts(a)[i] == WireTexts(b)[i];
      }
    }
  }

  // ----- Wire strings as topic filters -----

  /** One level of a topic filter, as section 4.7.1 of MQTT 3.1.1 reads it. */
  function FilterItem(level: string): Item {
    if level == "+" then Plus(None) else if level == "#" then Hash(None) else Str(level)
  }

  function ReadFilter(filter: string): (items: seq<Item>)
    ensures |items| == |Split(filter)| && forall i :: 0 <= i < |items| ==> items[i] == FilterItem(Split(filter)[i])
  {
    var levels := Split(filter);
    seq(|levels|, i requires 0 <= i < |levels| => FilterItem(levels[i]))
  }

  /** The topic fits the filter. */
  predicate FilterAccepts(filter: string, topic: TopicPath) {
    Matches(ReadFilter(filter), topic.Levels())
  }

  lemma SameShapeMatches(a: seq<Item>, b: seq<Item>, levels: seq<string>)
    requires SameShape(a, b)
    ensures Matches(a, levels) <==> Matches(b, levels)
  {
    assert a != [] ==> SameItem(a[|a| - 1], b[|a| - 1]);
    assert forall i :: 0 <= i < |a| && i < |levels| ==> (LevelFits(a[i], levels[i]) <==> LevelFits(b[i], levels[i]));
  }

  lemma WireReadsBack(items: seq<Item>)
    requires items != [] && forall i :: 0 <= i < |items| && items[i].Str? ==> PlainValue(items[i].text)
    ensures SameShape(ReadFilter(Wire(items)), items)
  {
    hide Split, Join;
    var texts := WireTexts(items);
    assert AllSlashFree(texts);
    SplitJoin(texts);
    forall i | 0 <= i < |items| ensures SameItem(FilterItem(texts[i]), items[i]) { }
  }

  /** If bound values are single levels other than "+" and "#", a broker that reads the wire pattern as a
      topic filter accepts exactly the topics that the bound pattern matches. */
  lemma FilterReadsBack(p: Pattern, topic: TopicPath)
    requires p.Valid() && PlainBindings(p)
    ensures FilterAccepts(p.MqttPattern(), topic) <==> Matches(p.Resolved(), topic.Levels())
  {
    hide Pattern.Valid, PlainBindings, Wire, Resolve, Matches, ReadFilter, SameShape;
    MqttPatternIsWire(p);
    PlainLiterals(p);
    WireReadsBack(p.Resolved());
    SameShapeMatches(ReadFilter(Wire(p.Resolved())), p.Resolved(), topic.Levels());
  }

  /** With or without bindings, the wire string is the wire form of the resolved segments. */
  lemma MqttPatternIsWire(p: Pattern)
    requires p.Valid()
    ensures p.MqttPattern() == Wire(p.Resolved())
  {
    if p.bindings.None? {
      assert Resolve(p.segments, []) == p.segments;
    }
  }
}

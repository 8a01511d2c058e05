/** Concrete topics and the outcome of matching one against a pattern. */
module TopicMatch {
  import opened Wrappers
  import opened Segments

  /** A topic and its levels; each level remembers where in the topic it lies. */
  datatype TopicPath = TopicPath(path: string, segments: seq<Substr>)
  {
    /** Built by `NewTopicPath`: the levels really are the pieces of the path. */
    predicate WellFormed() { segments == Spans(path, 0, 0) }

    function Levels(): seq<string> { Texts(segments) }
  }

  function NewTopicPath(path: string): (topic: TopicPath)
    ensures topic.path == path && topic.WellFormed()
  {
    TopicPath(path, Spans(path, 0, 0))
  }

  lemma LevelsAreSplit(topic: TopicPath)
    requires topic.WellFormed()
    ensures topic.Levels() == Split(topic.path)
    ensures topic.Levels() != [] && AllSlashFree(topic.Levels())
    ensures Join(topic.Levels()) == topic.path
  {
    SpansAreSplit(topic.path, 0, 0);
    var parts := Split(topic.path);
    assert topic.path[0..] == topic.path;
    assert topic.path[0..0] + parts[0] == parts[0];
    SplitPartsAreSlashFree(topic.path);
    JoinSplit(topic.path);
  }

  /** A half-open range of level indices. */
  datatype Range = Range(start: nat, end: nat)

  datatype MatchError =
    | UnexpectedEndOfPattern
    | UnexpectedEndOfTopic
    | UnexpectedHashSegment
    | SegmentMismatch(expected: string, found: string, position: nat)

  datatype TopicMatch = TopicMatch(topic: TopicPath, params: seq<Range>, namedParams: seq<(string, Range)>)
  {
    ghost predicate InBounds(range: Range) {
      range.start <= range.end <= |topic.segments|
    }

    ghost predicate Valid() {
      && topic.WellFormed()
      && (forall i :: 0 <= i < |params| ==> InBounds(params[i]))
      && (forall i :: 0 <= i < |namedParams| ==> InBounds(namedParams[i].1))
    }

    /** The captured text: nothing, one level, or a slice of the path found by subtracting offsets. */
    function GetParamRange(range: Range): string
      requires topic.WellFormed() && InBounds(range)
    {
      if range.start >= range.end then topic.path[0..0]
      else if range.end - range.start == 1 then topic.segments[range.start].text
      else
        SpansTile(topic.path, 0, 0);
        SliceIsJoin(topic.path, topic.segments, range.start, range.end);
        topic.path[topic.segments[range.start].start..topic.segments[range.end - 1].End()]
    }

    function GetParam(index: nat): Option<string>
      requires Valid()
    {
      if index < |params| then Some(GetParamRange(params[index])) else None
    }

    function GetNamedParam(name: string): Option<string>
      requires Valid()
    {
      var hit := FindName(namedParams, name);
      if hit < |namedParams| then Some(GetParamRange(namedParams[hit].1)) else None
    }
  }

  /** Index of the first entry called `name`, or the length when there is none. */
  function FindName<V>(entries: seq<(string, V)>, name: string): (i: nat)
    ensures i <= |entries|
    ensures i < |entries| ==> entries[i].0 == name
    ensures forall j :: 0 <= j < i ==> entries[j].0 != name
  {
    if entries == [] || entries[0].0 == name then 0 else 1 + FindName(entries[1..], name)
  }

  /** Offset arithmetic is sound: the slice from the start of one level to the end of a later one
      lies inside the path and is the slash-join of the levels in between. */
  lemma {:induction false} SliceIsJoin(path: string, spans: seq<Substr>, lo: nat, hi: nat)
    requires spans != [] && Tiles(path, spans[0].start, spans)
    requires lo < hi <= |spans|
    ensures spans[lo].start <= spans[hi - 1].End() <= |path|
    ensures path[spans[lo].start..spans[hi - 1].End()] == Join(Texts(spans)[lo..hi])
    decreases hi - lo
  {
    var texts := Texts(spans)[lo..hi];
    if hi == lo + 1 {
      assert texts == [spans[lo].text] && IsSlice(path, spans[lo]);
    } else {
      SliceIsJoin(path, spans, lo + 1, hi);
      NextTo(path, spans[0].start, spans, lo);
      assert texts[0] == spans[lo].text && texts[1..] == Texts(spans)[lo + 1..hi];
      SliceWithNext(path, spans[lo].start, spans[lo].End(), spans[hi - 1].End());
    }
  }

  lemma NextTo(path: string, start: nat, spans: seq<Substr>, i: nat)
    requires Tiles(path, start, spans) && i + 1 < |spans|
    ensures IsSlice(path, spans[i]) && IsNext(path, spans[i].End(), spans[i + 1])
  {
    assert IsNext(path, spans[i + 1 - 1].End(), spans[i + 1]);
  }

  lemma SliceWithNext(path: string, start: nat, cut: nat, end: nat)
    requires start <= cut < end <= |path| && path[cut] == '/'
    ensures path[start..end] == path[start..cut] + "/" + path[cut + 1..end]
  {
  }

  /** For ranges of length 0, 1 and more, a parameter is the slash-join of the captured levels. */
  lemma ParamIsJoinOfLevels(m: TopicMatch, range: Range)
    requires m.topic.WellFormed() && m.InBounds(range)
    ensures m.GetParamRange(range) == Join(m.topic.Levels()[range.start..range.end])
  {
    if range.end == range.start + 1 {
      assert m.topic.Levels()[range.start..range.end] == [m.topic.segments[range.start].text];
    } else if range.start < range.end {
      SpansTile(m.topic.path, 0, 0);
      SliceIsJoin(m.topic.path, m.topic.segments, range.start, range.end);
    }
  }
}

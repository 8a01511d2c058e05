/** Splitting topics on '/' and joining levels back together.

    `Spans` scans a string the way the engine's splitter does and records where
    every piece starts; `Split` is the same list of pieces without positions. */
module Segments {

  /** A piece of a larger string, together with the offset at which it starts. */
  datatype Substr = Substr(text: string, start: nat)
  {
    function End(): nat { start + |text| }
  }

  predicate SlashFree(s: string) {
    '/' !in s
  }

  predicate AllSlashFree(parts: seq<string>) {
    forall i :: 0 <= i < |parts| ==> SlashFree(parts[i])
  }

  function Split(s: string): (parts: seq<string>)
    ensures |parts| > 0
  {
    if s == "" then [""]
    else
      var rest := Split(s[1..]);
      if s[0] == '/' then [""] + rest else [[s[0]] + rest[0]] + rest[1..]
  }

  function Join(parts: seq<string>): string {
    if parts == [] then ""
    else if |parts| == 1 then parts[0]
    else parts[0] + "/" + Join(parts[1..])
  }

  /** Scans `path` from `pos`, the current piece having begun at `start`. */
  function Spans(path: string, start: nat, pos: nat): (spans: seq<Substr>)
    requires start <= pos <= |path|
    ensures |spans| > 0
    decreases |path| - pos
  {
    if pos == |path| then [Substr(path[start..pos], start)]
    else if path[pos] == '/' then [Substr(path[start..pos], start)] + Spans(path, pos + 1, pos + 1)
    else Spans(path, start, pos + 1)
  }

  function Texts(spans: seq<Substr>): (texts: seq<string>)
    ensures |texts| == |spans|
    ensures forall i :: 0 <= i < |spans| ==> texts[i] == spans[i].text
  {
    seq(|spans|, i requires 0 <= i < |spans| => spans[i].text)
  }

  lemma {:induction false} JoinSplit(s: string)
    ensures Join(Split(s)) == s
  {
    if s == "" {
    } else {
      JoinSplit(s[1..]);
      var rest := Split(s[1..]);
      if s[0] == '/' {
        assert ([""] + rest)[1..] == rest;
      } else {
        assert ([[s[0]] + rest[0]] + rest[1..])[1..] == rest[1..];
      }
      assert s == [s[0]] + s[1..];
    }
  }

  lemma {:induction false} SplitPartsAreSlashFree(s: string)
    ensures AllSlashFree(Split(s))
  {
    if s != "" {
      SplitPartsAreSlashFree(s[1..]);
      var rest := Split(s[1..]);
      assert SlashFree(rest[0]);
    }
  }

  /** Splitting `head` followed by a slash and more text cuts exactly at that slash. */
  lemma {:induction false} SplitAtFirstSlash(head: string, tail: string)
    requires SlashFree(head)
    ensures Split(head) == [head]
    ensures Split(head + "/" + tail) == [head] + Split(tail)
  {
    if head == "" {
      assert head + "/" + tail == "/" + tail;
      assert ("/" + tail)[1..] == tail;
    } else {
      SplitAtFirstSlash(head[1..], tail);
      assert (head + "/" + tail)[1..] == head[1..] + "/" + tail;
      assert [head[0]] + head[1..] == head;
    }
  }

  lemma {:induction false} SplitJoin(parts: seq<string>)
    requires parts != []
    requires AllSlashFree(parts)
    ensures Split(Join(parts)) == parts
  {
    assert SlashFree(parts[0]);
    if |parts| == 1 {
      SplitAtFirstSlash(parts[0], "");
    } else {
      assert AllSlashFree(parts[1..]) by {
        forall i | 0 <= i < |parts[1..]| ensures SlashFree(parts[1..][i]) { assert parts[1..][i] == parts[i + 1]; }
      }
      SplitJoin(parts[1..]);
      SplitAtFirstSlash(parts[0], Join(parts[1..]));
    }
  }

  /** Two lists of slash-free levels that print alike are the same list. */
  lemma JoinInjective(a: seq<string>, b: seq<string>)
    requires a != [] && b != []
    requires AllSlashFree(a) && AllSlashFree(b)
    requires Join(a) == Join(b)
    ensures a == b
  {
    SplitJoin(a);
    SplitJoin(b);
  }

  /** The scanner with offsets finds the pieces that `Split` finds. */
  lemma {:induction false} SpansAreSplit(path: string, start: nat, pos: nat)
    requires start <= pos <= |path|
    ensures var parts := Split(path[pos..]);
            Texts(Spans(path, start, pos)) == [path[start..pos] + parts[0]] + parts[1..]
    decreases |path| - pos
  {
    hide Split, Texts;
    if pos == |path| {
      SplitEnd(path, start);
    } else {
      var rest := Split(path[pos + 1..]);
      SplitStep(path, pos);
      if path[pos] == '/' {
        SpansAreSplit(path, pos + 1, pos + 1);
        assert path[pos + 1..pos + 1] + rest[0] == rest[0];
        TextsCons(Substr(path[start..pos], start), Spans(path, pos + 1, pos + 1));
        assert path[start..pos] + "" == path[start..pos];
        assert [rest[0]] + rest[1..] == rest && ([""] + rest)[1..] == rest;
      } else {
        SpansAreSplit(path, start, pos + 1);
        assert path[start..pos + 1] + rest[0] == path[start..pos] + ([path[pos]] + rest[0]);
      }
    }
  }

  lemma SplitEnd(path: string, start: nat)
    requires start <= |path|
    ensures Split(path[|path|..]) == [""]
    ensures Texts([Substr(path[start..|path|], start)]) == [path[start..|path|] + ""]
  {
    assert path[start..|path|] + "" == path[start..|path|];
  }

  lemma TextsCons(head: Substr, rest: seq<Substr>)
    ensures Texts([head] + rest) == [head.text] + Texts(rest)
  {
  }

  lemma SplitStep(path: string, pos: nat)
    requires pos < |path|
    ensures var rest := Split(path[pos + 1..]);
            Split(path[pos..]) == if path[pos] == '/' then [""] + rest else [[path[pos]] + rest[0]] + rest[1..]
  {
    assert path[pos..][1..] == path[pos + 1..];
  }

  /** Every piece is the slice of the path at its recorded offset, pieces are exactly one slash
      apart, and together they reach from `start` to the end of the path. */
  ghost predicate Tiles(path: string, start: nat, spans: seq<Substr>) {
    && spans != []
    && spans[0].start == start
    && spans[|spans| - 1].End() == |path|
    && (forall i :: 0 <= i < |spans| ==> IsSlice(path, spans[i]))
    && (forall i :: 1 <= i < |spans| ==> IsNext(path, spans[i - 1].End(), spans[i]))
  }

  ghost predicate IsSlice(path: string, span: Substr) {
    span.End() <= |path| && path[span.start..span.End()] == span.text
  }

  /** The piece starts right after a slash at `end`. */
  ghost predicate IsNext(path: string, end: nat, span: Substr) {
    end < |path| && path[end] == '/' && span.start == end + 1
  }

  lemma TilesCons(path: string, start: nat, pos: nat, rest: seq<Substr>)
    requires start <= pos < |path| && path[pos] == '/'
    requires Tiles(path, pos + 1, rest)
    ensures Tiles(path, start, [Substr(path[start..pos], start)] + rest)
  {
    var head := Substr(path[start..pos], start);
    var spans := [head] + rest;
    assert head.End() == pos;
    forall i | 0 <= i < |spans| ensures IsSlice(path, spans[i]) {
      assert i > 0 ==> spans[i] == rest[i - 1];
    }
    forall i | 1 <= i < |spans| ensures IsNext(path, spans[i - 1].End(), spans[i]) {
      assert spans[i] == rest[i - 1];
      assert i > 1 ==> spans[i - 1] == rest[i - 2];
    }
    assert spans[|spans| - 1] == rest[|rest| - 1];
  }

  lemma {:induction false} SpansTile(path: string, start: nat, pos: nat)
    requires start <= pos <= |path|
    ensures Tiles(path, start, Spans(path, start, pos))
    decreases |path| - pos
  {
    if pos == |path| {
    } else if path[pos] == '/' {
      SpansTile(path, pos + 1, pos + 1);
      TilesCons(path, start, pos, Spans(path, pos + 1, pos + 1));
    } else {
      SpansTile(path, start, pos + 1);
    }
  }
}

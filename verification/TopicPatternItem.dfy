/** One segment of a topic pattern: parsing it from text and printing it back. */
module TopicPatternItem {
  import opened Wrappers
  import opened Segments

  datatype Item =
    | Str(text: string)
    | Plus(name: Option<string>)
    | Hash(name: Option<string>)
  {
    predicate IsWildcard() { Plus? || Hash? }

    /** The wire form of the segment: every wildcard loses its name. */
    function AsStr(): string {
      match this
      case Str(s) => s
      case Plus(_) => "+"
      case Hash(_) => "#"
    }

    /** The template form: named wildcards print with their name in braces. */
    function AsWildcard(): string {
      match this
      case Plus(None) => "+"
      case Hash(None) => "#"
      case Plus(Some(n)) => "{" + n + "}"
      case Hash(Some(n)) => "{" + n + ":#}"
      case Str(s) => s
    }

    function ParamName(): Option<string> {
      if Str? then None else name
    }
  }

  datatype PatternError =
    | HashPosition(pattern: string)
    | WildcardUsage(usage: string)
    | EmptyTopic
    | PatternStructureMismatch(original: string, custom: string)

  predicate EndsWith(s: string, suffix: string) {
    |suffix| <= |s| && s[|s| - |suffix|..] == suffix
  }

  /** Removes every leading `c`. */
  function TrimStart(s: string, c: char): (r: string)
    ensures r == "" || r[0] != c
    ensures forall x :: x in r ==> x in s
  {
    if s != "" && s[0] == c then TrimStart(s[1..], c) else s
  }

  /** Removes every trailing copy of `suffix`. */
  function TrimEnd(s: string, suffix: string): (r: string)
    requires suffix != ""
    ensures r <= s && !EndsWith(r, suffix)
    decreases |s|
  {
    if EndsWith(s, suffix) then TrimEnd(s[..|s| - |suffix|], suffix) else s
  }

  function ParseItem(segment: string): Result<Item, PatternError> {
    if segment == "+" then Success(Plus(None))
    else if segment == "#" then Success(Hash(None))
    else if segment != "" && segment[0] == '{' && EndsWith(segment, ":#}") then
      var inner := TrimEnd(TrimStart(segment, '{'), ":#}");
      if inner == "" then Failure(WildcardUsage(segment)) else Success(Hash(Some(inner)))
    else if segment != "" && segment[0] == '{' && EndsWith(segment, "}") then
      var inner := TrimEnd(TrimStart(segment, '{'), "}");
      if inner == "" then Failure(WildcardUsage(segment)) else Success(Plus(Some(inner)))
    else if '+' in segment || '#' in segment then Failure(WildcardUsage(segment))
    else Success(Str(segment))
  }

  /** What every item produced by the parser looks like. */
  ghost predicate Formed(item: Item) {
    match item
    case Str(s) => '+' !in s && '#' !in s && !(s != "" && s[0] == '{' && EndsWith(s, "}"))
    case Plus(None) => true
    case Hash(None) => true
    case Plus(Some(n)) => n != "" && n[0] != '{' && !EndsWith(n, "}")
    case Hash(Some(n)) => n != "" && n[0] != '{' && !EndsWith(n, ":#}")
  }

  /** The one shape of item whose template form reads back as something else. */
  predicate AmbiguousName(item: Item) {
    item.Plus? && item.name.Some? && EndsWith(item.name.value, ":#")
  }

  ghost predicate ItemSlashFree(item: Item) {
    match item
    case Str(s) => SlashFree(s)
    case Plus(n) => n.Some? ==> SlashFree(n.value)
    case Hash(n) => n.Some? ==> SlashFree(n.value)
  }

  /** Accepted segments give well-formed items: literals hold no wildcard character, and names
      are non-empty pieces of the segment without the braces. */
  lemma ParsedIsFormed(segment: string)
    requires ParseItem(segment).Success?
    ensures Formed(ParseItem(segment).value)
    ensures SlashFree(segment) ==> ItemSlashFree(ParseItem(segment).value)
    ensures ParseItem(segment).value.Str? ==> ParseItem(segment).value.text == segment
  {
    hide EndsWith, TrimStart, TrimEnd, SlashFree;
    HashSuffix(segment);
    var inner := TrimStart(segment, '{');
    TrimmedName(segment, inner, TrimEnd(inner, ":#}"));
    TrimmedName(segment, inner, TrimEnd(inner, "}"));
  }

  lemma TrimmedName(source: string, inner: string, name: string)
    requires name <= inner && (inner == "" || inner[0] != '{') && forall x :: x in inner ==> x in source
    ensures name != "" ==> name[0] != '{'
    ensures SlashFree(source) ==> SlashFree(name)
  {
    PrefixChars(name, inner, source);
  }

  lemma HashSuffix(s: string)
    ensures EndsWith(s, ":#}") ==> '#' in s && EndsWith(s, "}")
  {
    if EndsWith(s, ":#}") {
      var tail := s[|s| - 3..];
      assert tail[1] == '#' && tail[2] == '}';
      assert s[|s| - 1..] == "}";
    }
  }

  lemma PrefixChars(prefix: string, whole: string, source: string)
    requires prefix <= whole && forall x :: x in whole ==> x in source
    ensures SlashFree(source) ==> SlashFree(prefix)
  {
    if '/' in prefix {
      var i :| 0 <= i < |prefix| && prefix[i] == '/';
      assert whole[i] == '/';
    }
  }

  lemma TrimEndOfPadded(n: string, suffix: string)
    requires suffix != "" && !EndsWith(n, suffix)
    ensures EndsWith(n + suffix, suffix)
    ensures TrimEnd(n + suffix, suffix) == n
  {
    assert (n + suffix)[..|n|] == n;
    assert (n + suffix)[|n|..] == suffix;
  }

  /** Printing an item and parsing the result gives the item back, except exactly for a
      single-level wildcard whose name ends in ":#": that one prints like a `#` wildcard. */
  lemma ItemRoundTrip(item: Item)
    requires Formed(item)
    ensures ParseItem(item.AsWildcard()) == Success(item) <==> !AmbiguousName(item)
  {
    match item
    case Str(s) =>
      HashSuffix(s);
    case Plus(None) =>
    case Hash(None) =>
    case Hash(Some(n)) =>
      var s := item.AsWildcard();
      assert s == "{" + (n + ":#}");
      assert s[1..] == n + ":#}";
      assert TrimStart(s, '{') == n + ":#}";
      TrimEndOfPadded(n, ":#}");
      assert s[|s| - 3..] == ":#}";
    case Plus(Some(n)) =>
      var s := item.AsWildcard();
      assert s[1..] == n + "}";
      assert TrimStart(s, '{') == n + "}";
      TrimEndOfPadded(n, "}");
      assert s[|s| - 1..] == "}";
      BracedSuffix(n);
  }

  lemma BracedSuffix(n: string)
    requires n != "" && n[0] != '{'
    ensures EndsWith("{" + n + "}", ":#}") <==> EndsWith(n, ":#")
  {
    var s := "{" + n + "}";
    if |n| >= 2 {
      var tail := n[|n| - 2..];
      assert s[|s| - 3..] == tail + "}";
      assert (tail + "}")[..2] == tail && ":#}"[..2] == ":#";
      assert ":#" + "}" == ":#}";
    } else {
      assert s[|s| - 3..] == s;
      assert s[0] == '{';
    }
  }

  /** Names that end in ":#" do come out of the parser: the segment "{n:#}}" is a `+` wildcard called
      "n:#", whose printed form "{n:#}" is that of a `#` wildcard called "n". */
  lemma AmbiguousNameParses(n: string)
    requires n != "" && n[0] != '{'
    ensures ParseItem("{" + n + ":#}}") == Success(Plus(Some(n + ":#"))) && AmbiguousName(Plus(Some(n + ":#")))
    ensures Plus(Some(n + ":#")).AsWildcard() == Hash(Some(n)).AsWildcard()
  {
    hide EndsWith, TrimEnd;
    var s, name := "{" + n + ":#}}", n + ":#";
    assert s[1..] == (name + "}") + "}";
    assert TrimStart(s[1..], '{') == s[1..] && TrimStart(s, '{') == s[1..];
    LastChars(name, ":#");
    LastChars(s, "}");
    LastCharDiffers(name, "}");
    SecondLastDiffers(s);
    TrimTwo(name);
    assert Plus(Some(name)).AsWildcard() == "{" + n + ":#}";
  }

  lemma TrimTwo(m: string)
    requires !EndsWith(m, "}")
    ensures TrimEnd((m + "}") + "}", "}") == m
  {
    hide EndsWith;
    LastChars(m + "}", "}");
    LastChars((m + "}") + "}", "}");
    var once, twice := m + "}", (m + "}") + "}";
    assert twice[..|twice| - 1] == once && once[..|once| - 1] == m;
    assert TrimEnd(twice, "}") == TrimEnd(once, "}");
    assert TrimEnd(once, "}") == TrimEnd(m, "}");
  }

  lemma LastChars(s: string, suffix: string)
    requires |suffix| <= |s| && s[|s| - |suffix|..] == suffix
    ensures EndsWith(s, suffix)
  {
  }

  lemma LastCharDiffers(s: string, suffix: string)
    requires s != "" && |suffix| == 1 && s[|s| - 1] != suffix[0]
    ensures !EndsWith(s, suffix)
  {
    assert s[|s| - 1..][0] == s[|s| - 1];
  }

  lemma SecondLastDiffers(s: string)
    requires |s| >= 3 && s[|s| - 2] != '#'
    ensures !EndsWith(s, ":#}")
  {
    assert s[|s| - 3..][1] == s[|s| - 2];
  }

  // ----- The grammar of segments, character by character -----

  /** `count` copies of `unit`, one after the other. */
  function Repeat(unit: string, count: nat): string {
    if count == 0 then "" else unit + Repeat(unit, count - 1)
  }

  predicate InBraces(segment: string) {
    segment != "" && segment[0] == '{' && segment[|segment| - 1] == '}'
  }

  /** The last three characters are those that close a multi-level wildcard. */
  predicate ClosesHash(segment: string) {
    var n := |segment|;
    n >= 3 && segment[n - 3] == ':' && segment[n - 2] == '#' && segment[n - 1] == '}'
  }

  /** At least one opening brace, the name, and at least one closing mark. */
  ghost predicate Wraps(segment: string, name: string, closing: string) {
    exists a: nat, b: nat :: a > 0 && b > 0 && segment == Repeat("{", a) + (name + Repeat(closing, b))
  }

  /** What a segment says: a wildcard sign alone, a name in braces, or literal text. Braces around a
      name may be repeated; a name neither starts with an opening brace nor ends in its closing mark. */
  ghost predicate ReadsAs(segment: string, item: Item) {
    match item
    case Str(text) => segment == text && '+' !in segment && '#' !in segment && !InBraces(segment)
    case Plus(None) => segment == "+"
    case Hash(None) => segment == "#"
    case Plus(Some(n)) => !ClosesHash(segment) && Wraps(segment, n, "}") && n != "" && n[0] != '{' && n[|n| - 1] != '}'
    case Hash(Some(n)) => Wraps(segment, n, ":#}") && n != "" && n[0] != '{' && !ClosesHash(n)
  }

  /** A segment that says nothing: braces without a name, or a wildcard sign inside other text. */
  ghost predicate Unreadable(segment: string) {
    if InBraces(segment) then Wraps(segment, "", if ClosesHash(segment) then ":#}" else "}")
    else ('+' in segment || '#' in segment) && segment != "+" && segment != "#"
  }

  lemma {:induction false} TrimStartCounts(s: string) returns (a: nat)
    ensures s == Repeat("{", a) + TrimStart(s, '{')
    ensures s != "" && s[0] == '{' ==> a > 0
  {
    if s != "" && s[0] == '{' {
      var rest := TrimStartCounts(s[1..]);
      a := rest + 1;
      assert s == "{" + s[1..];
      assert "{" + (Repeat("{", rest) + TrimStart(s, '{')) == ("{" + Repeat("{", rest)) + TrimStart(s, '{');
    } else {
      a := 0;
      assert "" + s == s;
    }
  }

  lemma {:induction false} TrimStartOfPadded(a: nat, t: string)
    requires t == "" || t[0] != '{'
    ensures TrimStart(Repeat("{", a) + t, '{') == t
  {
    var s := Repeat("{", a) + t;
    if a == 0 {
      assert s == t;
    } else {
      TrimStartOfPadded(a - 1, t);
      assert s == "{" + (Repeat("{", a - 1) + t);
      assert s[1..] == Repeat("{", a - 1) + t;
    }
  }

  lemma {:induction false} RepeatSnoc(unit: string, count: nat)
    ensures Repeat(unit, count + 1) == Repeat(unit, count) + unit
  {
    if count == 0 {
      assert unit + "" == "" + unit;
    } else {
      RepeatSnoc(unit, count - 1);
      assert unit + (Repeat(unit, count - 1) + unit) == (unit + Repeat(unit, count - 1)) + unit;
    }
  }

  lemma {:induction false} TrimEndCounts(s: string, suffix: string) returns (b: nat)
    requires suffix != ""
    ensures s == TrimEnd(s, suffix) + Repeat(suffix, b)
    ensures EndsWith(s, suffix) ==> b > 0
    decreases |s|
  {
    hide EndsWith;
    if EndsWith(s, suffix) {
      var front := CutEnd(s, suffix);
      var rest := TrimEndCounts(front, suffix);
      b := rest + 1;
      RepeatSnoc(suffix, rest);
      assert (TrimEnd(s, suffix) + Repeat(suffix, rest)) + suffix == TrimEnd(s, suffix) + (Repeat(suffix, rest) + suffix);
    } else {
      b := 0;
      assert s + "" == s;
    }
  }

  lemma CutEnd(s: string, suffix: string) returns (front: string)
    requires suffix != "" && EndsWith(s, suffix)
    ensures s == front + suffix && |front| < |s| && TrimEnd(s, suffix) == TrimEnd(front, suffix)
  {
    front := s[..|s| - |suffix|];
  }

  lemma {:induction false} TrimEndOfMore(n: string, suffix: string, b: nat)
    requires suffix != "" && !EndsWith(n, suffix)
    ensures TrimEnd(n + Repeat(suffix, b), suffix) == n
    ensures b > 0 ==> EndsWith(n + Repeat(suffix, b), suffix)
  {
    hide EndsWith;
    if b == 0 {
      assert n + "" == n;
    } else {
      TrimEndOfMore(n, suffix, b - 1);
      RepeatSnoc(suffix, b - 1);
      var front := n + Repeat(suffix, b - 1);
      assert n + Repeat(suffix, b) == front + suffix;
      PaddedEnd(front, suffix);
    }
  }

  lemma PaddedEnd(front: string, suffix: string)
    requires suffix != ""
    ensures EndsWith(front + suffix, suffix) && TrimEnd(front + suffix, suffix) == TrimEnd(front, suffix)
  {
    assert (front + suffix)[..|front|] == front;
    assert (front + suffix)[|front|..] == suffix;
  }

  /** The two endings, by their characters. */
  lemma Endings(s: string)
    ensures EndsWith(s, "}") <==> s != "" && s[|s| - 1] == '}'
    ensures EndsWith(s, ":#}") <==> ClosesHash(s)
  {
    if s != "" {
      assert s[|s| - 1..][0] == s[|s| - 1];
    }
    if |s| >= 3 {
      var tail := s[|s| - 3..];
      assert tail[0] == s[|s| - 3] && tail[1] == s[|s| - 2] && tail[2] == s[|s| - 1];
      assert tail == [tail[0], tail[1], tail[2]];
    }
  }

  lemma {:induction false} OnlyBraces(a: nat)
    ensures |Repeat("{", a)| == a && forall i :: 0 <= i < a ==> Repeat("{", a)[i] == '{'
  {
    if a > 0 {
      OnlyBraces(a - 1);
    }
  }

  /** A closing mark at the end lies behind all the opening braces. */
  lemma EndsBehindBraces(a: nat, t: string, closing: string)
    requires closing == "}" || closing == ":#}"
    ensures EndsWith(Repeat("{", a) + t, closing) <==> EndsWith(t, closing)
  {
    hide EndsWith, Repeat;
    OnlyBraces(a);
    Endings(Repeat("{", a) + t);
    Endings(t);
    LastBehindBraces(Repeat("{", a), t);
  }

  lemma LastBehindBraces(braces: string, t: string)
    requires forall i :: 0 <= i < |braces| ==> braces[i] == '{'
    ensures ClosesHash(braces + t) <==> ClosesHash(t)
    ensures (braces + t != "" && (braces + t)[|braces + t| - 1] == '}') <==> (t != "" && t[|t| - 1] == '}')
  {
    forall k | 0 <= k < |braces + t| ensures (braces + t)[k] == if k < |braces| then '{' else t[k - |braces|] { }
  }

  lemma WrapsEnds(segment: string, name: string, closing: string)
    requires closing == "}" || closing == ":#}"
    requires Wraps(segment, name, closing) && !EndsWith(name, closing)
    ensures segment != "" && segment[0] == '{' && EndsWith(segment, closing)
  {
    hide EndsWith;
    var a: nat, b: nat :| a > 0 && b > 0 && segment == Repeat("{", a) + (name + Repeat(closing, b));
    TrimEndOfMore(name, closing, b);
    EndsBehindBraces(a, name + Repeat(closing, b), closing);
    OnlyBraces(a);
  }

  /** Trimming finds the name exactly if the segment wraps it. */
  lemma TrimmedIsWrapped(segment: string, name: string, closing: string)
    requires closing == "}" || closing == ":#}"
    requires segment != "" && segment[0] == '{' && EndsWith(segment, closing)
    ensures TrimEnd(TrimStart(segment, '{'), closing) == name <==>
            Wraps(segment, name, closing) && (name == "" || name[0] != '{') && !EndsWith(name, closing)
  {
    hide EndsWith, TrimEnd, TrimStart;
    if TrimEnd(TrimStart(segment, '{'), closing) == name {
      TrimmedWraps(segment, closing);
    }
    if Wraps(segment, name, closing) && (name == "" || name[0] != '{') && !EndsWith(name, closing) {
      var a: nat, b: nat :| a > 0 && b > 0 && segment == Repeat("{", a) + (name + Repeat(closing, b));
      FirstOfMore(name, closing, b);
      TrimStartOfPadded(a, name + Repeat(closing, b));
      TrimEndOfMore(name, closing, b);
    }
  }

  lemma FirstOfMore(name: string, closing: string, b: nat)
    requires (closing == "}" || closing == ":#}") && b > 0 && (name == "" || name[0] != '{')
    ensures name + Repeat(closing, b) != "" && (name + Repeat(closing, b))[0] != '{'
  {
    assert Repeat(closing, b)[0] == closing[0];
  }

  lemma TrimmedWraps(segment: string, closing: string)
    requires closing == "}" || closing == ":#}"
    requires segment != "" && segment[0] == '{' && EndsWith(segment, closing)
    ensures var name := TrimEnd(TrimStart(segment, '{'), closing);
            Wraps(segment, name, closing) && (name == "" || name[0] != '{') && !EndsWith(name, closing)
  {
    hide EndsWith, TrimEnd, TrimStart;
    var inner := TrimStart(segment, '{');
    var name := TrimEnd(inner, closing);
    var a := TrimStartCounts(segment);
    EndsBehindBraces(a, inner, closing);
    var b := TrimEndCounts(inner, closing);
    assert name != "" ==> name[0] == inner[0];
  }

  /** The parser reads a segment as the grammar says, and reads nothing else into it. */
  lemma ParseItemReads(segment: string, item: Item)
    ensures ParseItem(segment) == Success(item) <==> ReadsAs(segment, item)
  {
    hide EndsWith, TrimEnd, TrimStart, Wraps;
    Endings(segment);
    match item
    case Plus(Some(n)) => NamedReads(segment, n, "}");
    case Hash(Some(n)) => NamedReads(segment, n, ":#}");
    case _ =>
  }

  lemma NamedReads(segment: string, name: string, closing: string)
    requires closing == "}" || closing == ":#}"
    ensures ParseItem(segment) == Success(if closing == "}" then Plus(Some(name)) else Hash(Some(name))) <==>
            ReadsAs(segment, if closing == "}" then Plus(Some(name)) else Hash(Some(name)))
  {
    hide EndsWith, TrimEnd, TrimStart, Wraps;
    Endings(segment);
    Endings(name);
    if Wraps(segment, name, closing) && !EndsWith(name, closing) {
      WrapsEnds(segment, name, closing);
    }
    if segment != "" && segment[0] == '{' && EndsWith(segment, closing) {
      TrimmedIsWrapped(segment, name, closing);
    }
  }

  /** A segment is refused exactly if the grammar gives it no meaning, and then the error shows it. */
  lemma ParseItemRefuses(segment: string)
    ensures ParseItem(segment).Failure? <==> Unreadable(segment)
    ensures Unreadable(segment) ==> ParseItem(segment) == Failure(WildcardUsage(segment))
  {
    hide EndsWith, TrimEnd, TrimStart, Wraps;
    Endings(segment);
    if InBraces(segment) {
      var closing := if ClosesHash(segment) then ":#}" else "}";
      NothingEndsWith(closing);
      TrimmedIsWrapped(segment, "", closing);
    }
  }

  lemma NothingEndsWith(closing: string)
    requires closing != ""
    ensures !EndsWith("", closing)
  {
  }
}

// Documents as text, and documents that print alike.
module YamlDocuments {
  import opened Text
  import opened YamlSubset
  import opened YamlRoundTrip

  // ---- Lines and text ----

  /** Where `str.splitlines` cuts. */
  predicate IsBreak(c: char) {
    '\n' <= c <= '\r' || '\U{1c}' <= c <= '\U{1e}' || c == '\U{85}' || c == '\U{2028}' || c == '\U{2029}'
  }

  predicate IsOneLine(s: string) {
    forall i :: 0 <= i < |s| ==> !IsBreak(s[i])
  }

  function FindBreak(s: string): (n: nat)
    ensures n <= |s|
    ensures n < |s| ==> IsBreak(s[n])
    ensures IsOneLine(s[..n])
  {
    if s == "" || IsBreak(s[0]) then 0 else 1 + FindBreak(s[1..])
  }

  /** `text.splitlines()`. */
  function SplitLines(text: string): seq<string>
    decreases |text|
  {
    var n := FindBreak(text);
    if n == |text| then if text == "" then [] else [text]
    else
      var width := if text[n] == '\r' && n + 1 < |text| && text[n + 1] == '\n' then 2 else 1;
      [text[..n]] + SplitLines(text[n + width..])
  }

  /** Every line with its line feed. */
  function Unlines(lines: seq<string>): string {
    if lines == [] then "" else lines[0] + ("\n" + Unlines(lines[1..]))
  }

  /** `_load_yaml_subset`. */
  function LoadText(numbers: Numbers, text: string): Node {
    Load(numbers, SplitLines(text))
  }

  lemma {:induction false} FindBreakBy(s: string, i: nat)
    requires i < |s| && IsBreak(s[i])
    ensures FindBreak(s) <= i
  {
    if i > 0 {
      FindBreakBy(s[1..], i - 1);
    }
  }

  lemma FindBreakAfter(line: string, end: string, rest: string)
    requires IsOneLine(line) && end != "" && IsBreak(end[0])
    ensures var s := line + (end + rest);
      FindBreak(s) == |line| && s[..|line|] == line && s[|line|..] == end + rest && s[|line| + |end|..] == rest
  {
    var s := line + (end + rest);
    assert s[|line|] == end[0];
    assert forall i :: 0 <= i < |line| ==> s[i] == line[i];
    FindBreakBy(s, |line|);
    assert s[|line|..] == end + rest;
  }

  lemma {:induction false} SplitUnlines(lines: seq<string>)
    requires forall line :: line in lines ==> IsOneLine(line)
    ensures SplitLines(Unlines(lines)) == lines
  {
    hide IsOneLine, FindBreak;
    if lines == [] {
      assert FindBreak("") == 0;
    } else {
      SplitUnlines(lines[1..]);
      FindBreakAfter(lines[0], "\n", Unlines(lines[1..]));
    }
  }

  /** The ends of lines that `str.splitlines` knows, one by one. */
  const ENDS := ["\r\n", "\n", "\r", "\U{b}", "\U{c}", "\U{1c}", "\U{1d}", "\U{1e}", "\U{85}", "\U{2028}", "\U{2029}"]

  /** A text of lines with these ends, and a last one without. */
  function Ended(lines: seq<string>, ends: seq<string>, last: string): string
    requires |lines| == |ends|
  {
    if lines == [] then last else lines[0] + (ends[0] + Ended(lines[1..], ends[1..], last))
  }

  /** No line holds an end, and no two ends could be read as one. */
  predicate AreEnded(lines: seq<string>, ends: seq<string>, last: string) {
    && |lines| == |ends|
    && if lines == [] then forall c :: c in last ==> [c] !in ENDS
       else
         && (forall c :: c in lines[0] ==> [c] !in ENDS)
         && ends[0] in ENDS
         && AreEnded(lines[1..], ends[1..], last)
         && (ends[0] == "\r" ==> !StartsWith(Ended(lines[1..], ends[1..], last), "\n"))
  }

  lemma EndsAreBreaks(c: char)
    ensures [c] in ENDS <==> IsBreak(c)
  {
    assert [c] in ENDS ==> exists i :: 0 <= i < |ENDS| && ENDS[i][0] == c && |ENDS[i]| == 1;
    assert ENDS[1] == "\n" && ENDS[2] == "\r" && ENDS[3] == "\U{b}" && ENDS[4] == "\U{c}" && ENDS[5] == "\U{1c}";
    assert ENDS[6] == "\U{1d}" && ENDS[7] == "\U{1e}" && ENDS[8] == "\U{85}";
    assert ENDS[9] == "\U{2028}" && ENDS[10] == "\U{2029}";
  }

  /** However its lines end, a text is cut into them. */
  lemma {:induction false} LinesEndAnyhow(lines: seq<string>, ends: seq<string>, last: string)
    requires AreEnded(lines, ends, last)
    ensures SplitLines(Ended(lines, ends, last)) == lines + if last == "" then [] else [last]
  {
    hide IsOneLine, IsBreak, SplitLines, ENDS;
    if lines == [] {
      LastLine(last);
      assert lines + [last] == [last];
    } else {
      var rest := Ended(lines[1..], ends[1..], last);
      LinesEndAnyhow(lines[1..], ends[1..], last);
      NoEndsOneLine(lines[0]);
      CutOnce(lines[0], ends[0], rest);
      assert lines == [lines[0]] + lines[1..];
    }
  }

  lemma NoEndsOneLine(line: string)
    requires forall c :: c in line ==> [c] !in ENDS
    ensures IsOneLine(line)
  {
    hide IsBreak;
    forall i | 0 <= i < |line| ensures !IsBreak(line[i]) {
      EndsAreBreaks(line[i]);
    }
  }

  lemma LastLine(line: string)
    requires forall c :: c in line ==> [c] !in ENDS
    ensures SplitLines(line) == if line == "" then [] else [line]
  {
    NoEndsOneLine(line);
    hide ENDS;
  }

  lemma EndBegins(end: string)
    requires end in ENDS
    ensures end == "\r\n" || (|end| == 1 && IsBreak(end[0]))
  {
  }

  lemma CutOnce(line: string, end: string, rest: string)
    requires IsOneLine(line) && end in ENDS && (end == "\r" ==> !StartsWith(rest, "\n"))
    ensures SplitLines(line + (end + rest)) == [line] + SplitLines(rest)
  {
    hide IsOneLine, FindBreak, ENDS;
    EndBegins(end);
    FindBreakAfter(line, end, rest);
    var s := line + (end + rest);
    assert s[|line|] == end[0];
    if |end| == 1 && end[0] == '\r' {
      assert end == "\r";
      assert rest != "" ==> s[|line| + 1] == rest[0];
      assert rest != "" && rest[0] == '\n' ==> StartsWith(rest, "\n");
    }
  }

  /** Round trip on text. */
  lemma LoadTextInvertsPrint(numbers: Numbers, document: Entries)
    requires WellFormedEntries(document, {})
    requires forall line :: line in Print(document, 0) ==> IsOneLine(line)
    ensures LoadText(numbers, Unlines(Print(document, 0))) == Map(Pairs(numbers, document))
  {
    hide Load, Print, Pairs, WellFormedEntries;
    SplitUnlines(Print(document, 0));
    LoadInvertsPrint(numbers, document);
  }

  // ---- What two readings share ----

  /** An empty list prints like an empty map and is read back as one. */
  lemma EmptyListsAreReadAsMaps(numbers: Numbers, key: string)
    requires IsKey(key)
    ensures Load(numbers, Print(Entry(key, Items([]), End), 0)) == Map([(key, Map([]))])
  {
    hide Load;
    var twin := Entry(key, Branch(End), End);
    assert Print(twin, 0) == Print(Entry(key, Items([]), End), 0);
    LoadInvertsPrint(numbers, twin);
  }

  /** A list item with a colon in it, such as a URL, is read back as a map. */
  lemma ItemsWithColonsAreReadAsMaps(numbers: Numbers, key: string, name: string, text: string)
    requires IsKey(key) && IsKey(name) && IsPlain(text) && !EndsWith(text, ":")
    ensures Load(numbers, Print(Entry(key, Items([name + ": " + text]), End), 0))
            == Map([(key, List([Map([(name, Scalar(numbers, text))])]))])
  {
    hide Load, Scalar, IsKey, IsPlain, EndsWith;
    var rows := Row(name, text, End, NoRows);
    var twin := Entry(key, Records(rows), End);
    var item := name + ": " + text;
    assert [item][1..] == [];
    assert PrintItems([item], 2) == [Spaces(2) + ("- " + item)];
    assert PrintRows(rows, 2) == [Spaces(2) + ("- " + item)];
    assert Print(twin, 0) == Print(Entry(key, Items([item]), End), 0);
    assert WellFormedRows(NoRows) && WellFormedRows(rows) && WellFormed(Records(rows));
    LoadInvertsPrint(numbers, twin);
    assert Pairs(numbers, End) == [] && RowMaps(numbers, NoRows) == [];
    assert [(name, Scalar(numbers, text))] + [] == [(name, Scalar(numbers, text))];
    assert RowMaps(numbers, rows) == [Map([(name, Scalar(numbers, text))])];
  }

  /** A list below an entry that has a text takes the place of the text. */
  lemma ListsReplaceTheirText(numbers: Numbers, key: string, name: string, text: string, items: seq<string>)
    requires IsKey(key) && IsKey(name) && IsPlain(text) && !EndsWith(text, ":")
    requires items != [] && forall item :: item in items ==> IsPlain(item) && !HasColon(item)
    ensures Load(numbers, [key + ":"] + ([Spaces(2) + ("- " + (name + ": " + text))] + PrintItems(items, 4)))
            == Map([(key, List([Map([(name, List(Scalars(numbers, items)))])]))])
  {
    hide ParseFrom, IsKey, IsPlain, HasColon, EndsWith, PrintItems, Scalars, Spaces, Stops, StandsAt;
    var row, below := Spaces(2) + ("- " + (name + ": " + text)), PrintItems(items, 4);
    var lines := [key + ":"] + ([row] + below);
    var value := List(Scalars(numbers, items));
    assert lines[2..2 + |below|] == below && lines[1] == row && |lines| == 2 + |below|;
    SomeScalars(numbers, items);
    StandsIf(lines, 2, below);
    EndStops(lines);
    ReadItems(numbers, lines, 2, 4, Undecided, [], items);
    assert [] + Scalars(numbers, items) == Scalars(numbers, items);
    ReplacingStep(numbers, lines, name, text, value);
    BlockStops(numbers, lines, |lines|, 2, InList, [], [Map([(name, value)])]);
    NoSpaces(key + ":");
    assert key + ":" + "" == key + ":";
    NoKeys();
    BelowStep(numbers, lines, 0, 0, Undecided, [], key, List([Map([(name, value)])]), |lines|);
    BlockStops(numbers, lines, |lines|, 0, InBlock, [] + [(key, List([Map([(name, value)])]))], []);
  }

  /** A document that is a list counts as an empty one. */
  lemma ListsAreNoDocuments(numbers: Numbers, items: seq<string>)
    requires items != [] && forall item :: item in items ==> IsPlain(item) && !HasColon(item)
    ensures Load(numbers, PrintItems(items, 0)) == Map([])
  {
    hide ParseFrom, IsPlain, HasColon, PrintItems, Scalars, Stops, StandsAt;
    var lines := PrintItems(items, 0);
    assert lines[0..0 + |lines|] == lines;
    StandsIf(lines, 0, lines);
    EndStops(lines);
    ReadItems(numbers, lines, 0, 0, Undecided, [], items);
  }

  lemma SomeScalars(numbers: Numbers, items: seq<string>)
    requires items != []
    ensures Scalars(numbers, items) != [] && PrintItems(items, 4) != []
  {
  }

  lemma StandsIf(lines: seq<string>, i: nat, part: seq<string>)
    requires i + |part| <= |lines| && lines[i..i + |part|] == part
    ensures StandsAt(lines, i, part)
  {
  }

  lemma EndStops(lines: seq<string>)
    ensures forall n: nat :: Stops(lines, |lines|, n)
  {
  }

  lemma NoSpaces(line: string)
    ensures Spaces(0) + line == line
  {
  }

  lemma ReplacingStep(numbers: Numbers, lines: seq<string>, name: string, text: string, value: Node)
    requires |lines| > 2 && lines[1] == Spaces(2) + ("- " + (name + ": " + text))
    requires IsKey(name) && IsPlain(text) && !EndsWith(text, ":") && value.List? && value.items != []
    requires ParseFrom(numbers, lines, 2, 4, Undecided, [], []) == (value, |lines|)
    ensures ParseFrom(numbers, lines, 1, 2, Undecided, [], [])
            == ParseFrom(numbers, lines, |lines|, 2, InList, [], [Map([(name, value)])])
  {
    RowLine(name, text);
    ItemLine(2, name + ": " + text);
    hide IsContent, LeadingSpaces, Scalar, HasColon, Trim, KeyOf, RestOf, StartsWith, BlockEnd, JoinWords, EndsWith;
    assert [] + [Map([(name, value)])] == [Map([(name, value)])];
  }

  /** A line without a colon between two entries is passed over. */
  lemma ColonlessLinesArePassedOver(numbers: Numbers, key: string, text: string, line: string, rest: Entries)
    requires WellFormedEntries(Entry(key, Leaf(text), rest), {})
    requires IsPlain(line) && !HasColon(line) && !StartsWith(line, "- ") && !StartsWith(line, "#")
    ensures Load(numbers, [key + ": " + text] + ([line] + Print(rest, 0)))
            == Map([(key, Scalar(numbers, text))] + Pairs(numbers, rest))
  {
    hide ParseFrom, IsKey, IsPlain, HasColon, Print, Pairs, Scalar, Spaces, Stops, StandsAt, Keys;
    var lines := [key + ": " + text] + ([line] + Print(rest, 0));
    var done := [(key, Scalar(numbers, text))];
    NoSpaces(key + ": " + text);
    assert key + ":" + (" " + text) == key + ": " + text;
    NoKeys();
    LeafStep(numbers, lines, 0, 0, Undecided, [], key, text);
    assert [] + done == done;
    assert lines[1] == line;
    ColonlessStep(numbers, lines, done);
    assert lines[2..2 + |Print(rest, 0)|] == Print(rest, 0);
    StandsIf(lines, 2, Print(rest, 0));
    EndStops(lines);
    PutFresh([], key, Scalar(numbers, text));
    ReadEntries(numbers, lines, 2, 0, InBlock, done, rest);
  }

  /** After an entry with a text, an entry indented deeper is one of the same map. */
  lemma DeeperEntriesCount(numbers: Numbers, key: string, text: string, n: nat, name: string, other: string,
                           rest: Entries)
    requires WellFormedEntries(Entry(key, Leaf(text), Entry(name, Leaf(other), rest)), {})
    ensures Load(numbers, [key + ": " + text] + ([Spaces(n) + (name + ": " + other)] + Print(rest, 0)))
            == Map([(key, Scalar(numbers, text)), (name, Scalar(numbers, other))] + Pairs(numbers, rest))
  {
    hide ParseFrom, IsKey, IsPlain, HasColon, Print, Pairs, Scalar, Spaces, Stops, StandsAt, Keys;
    var row := Spaces(n) + (name + ": " + other);
    var lines := [key + ": " + text] + ([row] + Print(rest, 0));
    var first, both := [(key, Scalar(numbers, text))], [(key, Scalar(numbers, text)), (name, Scalar(numbers, other))];
    NoSpaces(key + ": " + text);
    assert key + ":" + (" " + text) == key + ": " + text;
    NoKeys();
    LeafStep(numbers, lines, 0, 0, Undecided, [], key, text);
    assert [] + first == first && lines[1] == row;
    assert WellFormedEntries(Entry(name, Leaf(other), rest), {} + {key}) && WellFormed(Leaf(other));
    assert name + ":" + (" " + other) == name + ": " + other;
    DeeperStep(numbers, lines, n, first, name, other);
    assert first + [(name, Scalar(numbers, other))] == both;
    assert {} + {key} + {name} == {key, name};
    assert lines[2..2 + |Print(rest, 0)|] == Print(rest, 0);
    StandsIf(lines, 2, Print(rest, 0));
    EndStops(lines);
    TwoKeys(key, Scalar(numbers, text), name, Scalar(numbers, other));
    ReadEntries(numbers, lines, 2, 0, InBlock, both, rest);
  }

  lemma TwoKeys(key: string, value: Node, name: string, other: Node)
    requires key != name
    ensures Put([(key, value)], name, other) == [(key, value)] + [(name, other)]
    ensures Keys([(key, value), (name, other)]) == {key, name}
  {
    assert [(key, value)][1..] == [];
  }

  lemma DeeperStep(numbers: Numbers, lines: seq<string>, n: nat, done: seq<(string, Node)>, name: string,
                   text: string)
    requires |lines| > 1 && lines[1] == Spaces(n) + (name + ":" + (" " + text))
    requires IsKey(name) && IsPlain(text) && text !in [">", ">-", "|", "|-"]
    ensures ParseFrom(numbers, lines, 1, 0, InBlock, done, [])
            == ParseFrom(numbers, lines, 2, 0, InBlock, Put(done, name, Scalar(numbers, text)), [])
  {
    EntryLine(n, name, " " + text, text);
    hide IsContent, LeadingSpaces, Scalar, HasColon, Trim, KeyOf, RestOf, Put, StartsWith, BlockEnd, JoinWords;
  }

  lemma ColonlessStep(numbers: Numbers, lines: seq<string>, done: seq<(string, Node)>)
    requires |lines| > 1 && IsPlain(lines[1])
    requires !HasColon(lines[1]) && !StartsWith(lines[1], "- ") && !StartsWith(lines[1], "#")
    ensures ParseFrom(numbers, lines, 1, 0, InBlock, done, []) == ParseFrom(numbers, lines, 2, 0, InBlock, done, [])
  {
    var line := lines[1];
    PlainEnds(line);
    hide IsSpace, TrimRight;
    assert Spaces(0) + line == line;
    TrimIndented(0, line);
    hide Scalar, HasColon, Trim, TrimLeft, KeyOf, RestOf, StartsWith, BlockEnd, JoinWords;
  }

  // ---- Keys that occur twice ----

  lemma PutAgain(key: string, was: Node, value: Node)
    ensures Put([(key, was)], key, value) == [(key, value)]
  {
    assert [(key, was)][1..] == [];
  }

  /** Of two entries of one key the later counts. */
  lemma LaterEntryCounts(numbers: Numbers, key: string, a: string, b: string)
    requires IsKey(key) && IsPlain(a) && IsPlain(b) && a !in BLOCK_MARKS && b !in BLOCK_MARKS
    ensures Load(numbers, [key + ": " + a, key + ": " + b]) == Map([(key, Scalar(numbers, b))])
  {
    hide ParseFrom, IsKey, IsPlain, Scalar, Spaces, Stops;
    var lines := [key + ": " + a, key + ": " + b];
    NoSpaces(key + ": " + a);
    NoSpaces(key + ": " + b);
    assert key + ":" + (" " + a) == key + ": " + a && key + ":" + (" " + b) == key + ": " + b;
    NoKeys();
    LeafStep(numbers, lines, 0, 0, Undecided, [], key, a);
    assert [] + [(key, Scalar(numbers, a))] == [(key, Scalar(numbers, a))];
    ReplacingEntry(numbers, lines, key, a, b);
    EndStops(lines);
    BlockStops(numbers, lines, 2, 0, InBlock, [(key, Scalar(numbers, b))], []);
  }

  lemma ReplacingEntry(numbers: Numbers, lines: seq<string>, key: string, a: string, b: string)
    requires |lines| == 2 && lines[1] == Spaces(0) + (key + ":" + (" " + b))
    requires IsKey(key) && IsPlain(b) && b !in BLOCK_MARKS
    ensures ParseFrom(numbers, lines, 1, 0, InBlock, [(key, Scalar(numbers, a))], [])
            == ParseFrom(numbers, lines, 2, 0, InBlock, [(key, Scalar(numbers, b))], [])
  {
    EntryLine(0, key, " " + b, b);
    PutAgain(key, Scalar(numbers, a), Scalar(numbers, b));
    hide IsContent, LeadingSpaces, Scalar, HasColon, Trim, KeyOf, RestOf, Put, StartsWith, BlockEnd, JoinWords;
  }
}

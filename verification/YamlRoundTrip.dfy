// Printing declarations the way the scaffold does, and reading them back.
module YamlRoundTrip {
  import opened Text
  import opened YamlSubset

  /** A document: scalars, texts on several lines, nested maps, lists of scalars, and lists of maps that begin with a
      scalar or have one entry with a block of its own. */
  datatype Tree =
    | Leaf(text: string)
    | Block(mark: string, body: seq<BlockLine>)
    | Branch(entries: Entries)
    | Items(items: seq<string>)
    | Records(rows: Rows)

  /** A line below a block mark: blank in whatever way, or a text further right than the key. */
  datatype BlockLine = Blank(space: string) | Words(further: nat, text: string)

  datatype Entries = End | Entry(key: string, value: Tree, rest: Entries)

  datatype Rows =
    | NoRows
    | Row(key: string, text: string, others: Entries, more: Rows)
    | Nest(key: string, value: Tree, more: Rows)

  function Spaces(n: nat): (s: string)
    ensures |s| == n
  {
    if n == 0 then "" else " " + Spaces(n - 1)
  }

  // ---- Printing ----

  function Print(entries: Entries, n: nat): seq<string>
    decreases entries
  {
    match entries
    case End => []
    case Entry(key, Leaf(text), rest) => [Spaces(n) + (key + ": " + text)] + Print(rest, n)
    case Entry(key, Block(mark, body), rest) =>
      [Spaces(n) + (key + ": " + mark)] + (PrintBlock(body, n) + Print(rest, n))
    case Entry(key, value, rest) => [Spaces(n) + (key + ":")] + (PrintBelow(value, n + 2) + Print(rest, n))
  }

  /** The lines below a key at this indentation. */
  function PrintBlock(body: seq<BlockLine>, n: nat): (lines: seq<string>)
    ensures |lines| == |body|
  {
    if body == [] then []
    else [match body[0] case Blank(space) => space case Words(further, text) => Spaces(n + 1 + further) + text]
         + PrintBlock(body[1..], n)
  }

  function PrintBelow(value: Tree, n: nat): seq<string>
    decreases value
  {
    match value
    case Leaf(_) => []
    case Block(_, _) => []
    case Branch(entries) => Print(entries, n)
    case Items(items) => PrintItems(items, n)
    case Records(rows) => PrintRows(rows, n)
  }

  function PrintItems(items: seq<string>, n: nat): seq<string> {
    if items == [] then [] else [Spaces(n) + ("- " + items[0])] + PrintItems(items[1..], n)
  }

  function PrintRows(rows: Rows, n: nat): seq<string>
    decreases rows
  {
    match rows
    case NoRows => []
    case Row(key, text, others, more) =>
      [Spaces(n) + ("- " + (key + ": " + text))] + (Print(others, n + 2) + PrintRows(more, n))
    case Nest(key, value, more) => [Spaces(n) + ("- " + (key + ":"))] + (PrintBelow(value, n + 2) + PrintRows(more, n))
  }

  // ---- What a document means ----

  function Meaning(numbers: Numbers, value: Tree): Node
    decreases value
  {
    match value
    case Leaf(text) => Scalar(numbers, text)
    case Block(_, body) => Word(Joined(Texts(body)))
    case Branch(entries) => Map(Pairs(numbers, entries))
    case Items(items) => List(Scalars(numbers, items))
    case Records(rows) => List(RowMaps(numbers, rows))
  }

  /** The texts of a block, without the blank lines. */
  function Texts(body: seq<BlockLine>): seq<string> {
    if body == [] then [] else (if body[0].Words? then [body[0].text] else []) + Texts(body[1..])
  }

  /** One after the other, with a space between two. */
  function Joined(texts: seq<string>): string {
    if texts == [] then "" else if |texts| == 1 then texts[0] else texts[0] + " " + Joined(texts[1..])
  }

  function Pairs(numbers: Numbers, entries: Entries): seq<(string, Node)>
    decreases entries
  {
    match entries
    case End => []
    case Entry(key, value, rest) => [(key, Meaning(numbers, value))] + Pairs(numbers, rest)
  }

  function Scalars(numbers: Numbers, items: seq<string>): seq<Node> {
    if items == [] then [] else [Scalar(numbers, items[0])] + Scalars(numbers, items[1..])
  }

  function RowMaps(numbers: Numbers, rows: Rows): seq<Node>
    decreases rows
  {
    match rows
    case NoRows => []
    case Row(key, text, others, more) =>
      [Map([(key, Scalar(numbers, text))] + Pairs(numbers, others))] + RowMaps(numbers, more)
    case Nest(key, value, more) => [Map([(key, Meaning(numbers, value))])] + RowMaps(numbers, more)
  }

  // ---- Which documents can be printed ----

  /** A key: no colon, no outer white space, and not readable as a comment or a list item. */
  predicate IsKey(key: string) {
    !HasColon(key) && Trim(key) == key && !StartsWith(key, "#") && !StartsWith(key, "- ")
  }

  /** A scalar: not empty and without outer white space. */
  predicate IsPlain(text: string) {
    text != "" && Trim(text) == text
  }

  predicate WellFormed(value: Tree)
    decreases value
  {
    match value
    case Leaf(text) => IsPlain(text) && text !in [">", ">-", "|", "|-"]
    case Block(mark, body) =>
      && mark in [">", ">-", "|", "|-"]
      && forall line :: line in body ==> if line.Blank? then Trim(line.space) == "" else IsPlain(line.text)
    case Branch(entries) => WellFormedEntries(entries, {})
    case Items(items) => items != [] && forall item :: item in items ==> IsPlain(item) && !HasColon(item)
    case Records(rows) => !rows.NoRows? && WellFormedRows(rows)
  }

  predicate WellFormedEntries(entries: Entries, used: set<string>)
    decreases entries
  {
    match entries
    case End => true
    case Entry(key, value, rest) =>
      IsKey(key) && key !in used && WellFormed(value) && WellFormedEntries(rest, used + {key})
  }

  predicate WellFormedRows(rows: Rows)
    decreases rows
  {
    match rows
    case NoRows => true
    case Row(key, text, others, more) =>
      && IsKey(key) && IsPlain(text) && !EndsWith(text, ":")
      && WellFormedEntries(others, {key}) && WellFormedRows(more)
    case Nest(key, value, more) =>
      IsKey(key) && !value.Leaf? && !value.Block? && WellFormed(value) && WellFormedRows(more)
  }

  // ---- One line ----

  lemma {:induction false} TrimShortens(s: string)
    ensures |TrimLeft(s)| <= |s| && |TrimRight(s)| <= |s|
  {
    if s != "" {
      TrimShortens(s[1..]);
      TrimShortens(s[..|s| - 1]);
    }
  }

  /** A text that stripping leaves alone has no white space at its ends. */
  lemma PlainEnds(s: string)
    requires IsPlain(s)
    ensures !IsSpace(s[0]) && !IsSpace(s[|s| - 1])
  {
    TrimShortens(s);
    TrimShortens(s[1..]);
    TrimShortens(s[..|s| - 1]);
    TrimShortens(TrimLeft(s));
  }

  lemma {:induction false} TrimIndented(n: nat, body: string)
    requires body != "" && !IsSpace(body[0]) && !IsSpace(body[|body| - 1])
    ensures Trim(Spaces(n) + body) == body
    ensures TrimLeft(Spaces(n) + body) == body
    ensures LeadingSpaces(Spaces(n) + body) == n
  {
    var line := Spaces(n) + body;
    if n == 0 {
      assert line == body;
    } else {
      TrimIndented(n - 1, body);
      assert line[1..] == Spaces(n - 1) + body;
    }
  }

  lemma {:induction false} ColonAfter(key: string, tail: string)
    requires !HasColon(key)
    ensures FindColon(key + ":" + tail) == |key|
  {
    var s := key + ":" + tail;
    if key != "" {
      ColonAfter(key[1..], tail);
      assert s[1..] == key[1..] + ":" + tail;
    }
  }

  /** What follows the colon of an entry: nothing, or a blank and the text. */
  predicate IsTail(tail: string, text: string) {
    (tail == "" && text == "") || (tail == " " + text && IsPlain(text))
  }

  lemma EntryEnds(key: string, tail: string, text: string)
    requires IsKey(key) && IsTail(tail, text)
    ensures var body := key + ":" + tail; !IsSpace(body[0]) && !IsSpace(body[|body| - 1])
  {
    var body := key + ":" + tail;
    if key != "" {
      PlainEnds(key);
      assert body[0] == key[0];
    }
    if tail == "" {
      assert body[|body| - 1] == ':';
    } else {
      PlainEnds(text);
      assert body[|body| - 1] == text[|text| - 1];
    }
  }

  lemma EntryParts(key: string, tail: string, text: string)
    requires IsKey(key) && IsTail(tail, text)
    ensures var body := key + ":" + tail; HasColon(body) && KeyOf(body) == key && RestOf(body) == text
  {
    var body := key + ":" + tail;
    ColonAfter(key, tail);
    assert body[..|key|] == key && body[|key| + 1..] == tail;
    if tail != "" {
      PlainEnds(text);
      hide IsSpace;
      TrimIndented(1, text);
      assert Spaces(0) == "" && Spaces(1) == " ";
      assert Spaces(1) + text == tail;
    }
  }

  lemma EntryStart(key: string, tail: string)
    requires IsKey(key)
    ensures var body := key + ":" + tail; !StartsWith(body, "- ") && !StartsWith(body, "#")
  {
    var body := key + ":" + tail;
    assert StartsWith(body, "#") <==> body[0] == '#';
    assert StartsWith(body, "- ") <==> |body| >= 2 && body[0] == '-' && body[1] == ' ';
    if key != "" {
      assert StartsWith(key, "#") <==> key[0] == '#';
      assert StartsWith(key, "- ") <==> |key| >= 2 && key[0] == '-' && key[1] == ' ';
      assert body[0] == key[0] && body[1] == if |key| >= 2 then key[1] else ':';
    }
  }

  /** How the parser reads the line of an entry whose value is on the line, or below it when `tail` is empty. */
  lemma EntryLine(n: nat, key: string, tail: string, text: string)
    requires IsKey(key) && IsTail(tail, text)
    ensures var line := Spaces(n) + (key + ":" + tail);
            && IsContent(line) && LeadingSpaces(line) == n
            && Trim(line) == key + ":" + tail && !StartsWith(Trim(line), "- ") && HasColon(Trim(line))
            && KeyOf(Trim(line)) == key && RestOf(Trim(line)) == text
  {
    EntryEnds(key, tail, text);
    EntryParts(key, tail, text);
    EntryStart(key, tail);
    hide IsSpace, HasColon, KeyOf, RestOf, StartsWith, Trim, TrimLeft;
    TrimIndented(n, key + ":" + tail);
  }

  /** How the parser reads the line of a list item. */
  lemma ItemLine(n: nat, value: string)
    requires IsPlain(value)
    ensures var line := Spaces(n) + ("- " + value);
            && value != "" && IsContent(line) && LeadingSpaces(line) == n
            && StartsWith(Trim(line), "- ") && Trim(line)[2..] == value
  {
    var body := "- " + value;
    PlainEnds(value);
    assert body[|body| - 1] == value[|value| - 1] && body[0] == '-';
    assert !IsSpace('-');
    hide IsSpace, Trim, TrimLeft;
    TrimIndented(n, body);
  }

  /** How the parser reads the first line of a record. */
  lemma RowLine(key: string, text: string)
    requires IsKey(key) && IsPlain(text) && !EndsWith(text, ":")
    ensures var value := key + ": " + text;
            && IsPlain(value) && HasColon(value) && !EndsWith(value, ":")
            && KeyOf(value) == key && RestOf(value) == text
  {
    var value := key + ": " + text;
    EntryEnds(key, " " + text, text);
    EntryParts(key, " " + text, text);
    assert key + ":" + (" " + text) == value;
    assert Spaces(0) == "" && Spaces(0) + value == value;
    assert value[|value| - 1] == text[|text| - 1];
    hide IsSpace, HasColon, KeyOf, RestOf, Trim, TrimLeft, IsKey;
    TrimIndented(0, value);
    LastCharacter(value, ':');
    LastCharacter(text, ':');
  }

  /** How the parser reads the first line of a map with a block of its own. */
  lemma NestLine(key: string)
    requires IsKey(key)
    ensures var value := key + ":";
            IsPlain(value) && HasColon(value) && EndsWith(value, ":") && Trim(value[..|value| - 1]) == key
  {
    var value := key + ":";
    EntryEnds(key, "", "");
    EntryParts(key, "", "");
    assert key + ":" + "" == value && value[..|value| - 1] == key;
    hide IsSpace, HasColon, KeyOf, RestOf, Trim, TrimLeft, IsKey;
    assert Spaces(0) == "" && Spaces(0) + value == value;
    TrimIndented(0, value);
    LastCharacter(value, ':');
  }

  lemma LastCharacter(s: string, c: char)
    requires s != ""
    ensures EndsWith(s, [c]) <==> s[|s| - 1] == c
  {
    assert s[|s| - 1..] == [s[|s| - 1]];
  }

  // ---- Dicts ----

  function Keys(entries: seq<(string, Node)>): set<string> {
    set e | e in entries :: e.0
  }

  lemma {:induction false} PutFresh(entries: seq<(string, Node)>, key: string, value: Node)
    requires key !in Keys(entries)
    ensures Put(entries, key, value) == entries + [(key, value)]
    ensures Keys(entries + [(key, value)]) == Keys(entries) + {key}
  {
    if entries != [] {
      assert entries[0] in entries;
      assert forall e :: e in entries[1..] ==> e in entries;
      PutFresh(entries[1..], key, value);
    }
  }

  lemma {:induction false} PutAllFresh(numbers: Numbers, entries: seq<(string, Node)>, others: Entries)
    requires WellFormedEntries(others, Keys(entries))
    ensures PutAll(entries, Pairs(numbers, others)) == entries + Pairs(numbers, others)
    decreases others
  {
    hide Meaning, WellFormed, IsKey, Keys, Put;
    match others
    case End =>
      assert entries + [] == entries;
    case Entry(key, value, rest) =>
      var v := Meaning(numbers, value);
      PutFresh(entries, key, v);
      PutAllFresh(numbers, entries + [(key, v)], rest);
      var more := Pairs(numbers, others);
      assert more == [(key, v)] + Pairs(numbers, rest);
      assert more[0] == (key, v) && more[1..] == Pairs(numbers, rest);
      assert PutAll(entries, more) == PutAll(entries + [(key, v)], Pairs(numbers, rest));
      assert entries + [(key, v)] + Pairs(numbers, rest) == entries + more;
  }

  lemma {:induction false} FewerUsedKeys(entries: Entries, used: set<string>, fewer: set<string>)
    requires WellFormedEntries(entries, used) && fewer <= used
    ensures WellFormedEntries(entries, fewer)
    decreases entries
  {
    match entries
    case End =>
    case Entry(key, value, rest) => FewerUsedKeys(rest, used + {key}, fewer + {key});
  }

  // ---- Reading back ----

  /** The block of indentation n ends here: end of file, or a content line further left. */
  predicate Stops(lines: seq<string>, i: nat, n: nat) {
    i == |lines| || (i < |lines| && IsContent(lines[i]) && LeadingSpaces(lines[i]) < n)
  }

  /** The given lines stand at position i. */
  predicate StandsAt(lines: seq<string>, i: nat, part: seq<string>) {
    i + |part| <= |lines| && lines[i..i + |part|] == part
  }

  lemma StandsSplit(lines: seq<string>, i: nat, a: seq<string>, b: seq<string>)
    requires StandsAt(lines, i, a + b)
    ensures StandsAt(lines, i, a) && StandsAt(lines, i + |a|, b)
  {
    assert lines[i..i + |a|] == (a + b)[..|a|];
    assert lines[i + |a|..i + |a + b|] == (a + b)[|a|..];
  }

  lemma HeadAt(lines: seq<string>, i: nat, part: seq<string>)
    requires StandsAt(lines, i, part) && part != []
    ensures i < |lines| && lines[i] == part[0]
  {
    assert lines[i] == lines[i..i + |part|][0];
  }

  lemma StopsAtEntries(lines: seq<string>, i: nat, n: nat, entries: Entries, used: set<string>)
    requires StandsAt(lines, i, Print(entries, n)) && WellFormedEntries(entries, used)
    requires Stops(lines, i + |Print(entries, n)|, n)
    ensures Stops(lines, i, n + 1)
  {
    if entries.Entry? {
      HeadAt(lines, i, Print(entries, n));
      hide StandsAt, Print, WellFormedEntries, IsContent, LeadingSpaces, KeyOf, RestOf, HasColon, Trim;
      FirstLine(entries, n, used);
      EntryLine(n, entries.key, TailOf(entries.value), TextOf(entries.value));
    }
  }

  /** What follows the key on its line. */
  function TextOf(value: Tree): string {
    match value
    case Leaf(text) => text
    case Block(mark, _) => mark
    case _ => ""
  }

  function TailOf(value: Tree): string {
    if TextOf(value) == "" then "" else " " + TextOf(value)
  }

  lemma FirstLine(entries: Entries, n: nat, used: set<string>)
    requires entries.Entry? && WellFormedEntries(entries, used)
    ensures IsKey(entries.key) && IsTail(TailOf(entries.value), TextOf(entries.value)) && Print(entries, n) != []
    ensures Print(entries, n)[0] == Spaces(n) + (entries.key + ":" + TailOf(entries.value))
  {
    hide IsKey, IsPlain, HasColon, IsTail, Trim, WellFormed, Spaces, PrintBlock, PrintBelow;
    TailFits(entries.value);
    OneLine(entries.key, TextOf(entries.value));
    var tail := TailOf(entries.value);
    assert tail == "" ==> entries.key + ":" + tail == entries.key + ":";
  }

  lemma OneLine(key: string, text: string)
    ensures key + ": " + text == key + ":" + (" " + text)
  {
  }

  lemma TailFits(value: Tree)
    requires WellFormed(value)
    ensures IsTail(TailOf(value), TextOf(value))
    ensures TextOf(value) == "" <==> !value.Leaf? && !value.Block?
  {
    MarksArePlain();
    hide Trim;
  }

  lemma MarksArePlain()
    ensures IsPlain(">") && IsPlain(">-") && IsPlain("|") && IsPlain("|-")
  {
  }

  lemma StopsFurtherRight(lines: seq<string>, i: nat, n: nat)
    requires Stops(lines, i, n + 1)
    ensures Stops(lines, i, n + 2)
  {
  }

  lemma StopsAtRows(lines: seq<string>, i: nat, n: nat, rows: Rows)
    requires StandsAt(lines, i, PrintRows(rows, n)) && WellFormedRows(rows)
    requires Stops(lines, i + |PrintRows(rows, n)|, n)
    ensures Stops(lines, i, n + 2)
  {
    hide IsContent, LeadingSpaces, KeyOf, RestOf, HasColon, Trim;
    match rows
    case NoRows =>
    case Row(key, text, others, more) =>
      HeadAt(lines, i, PrintRows(rows, n));
      hide StandsAt;
      RowLine(key, text);
      ItemLine(n, key + ": " + text);
      assert lines[i] == Spaces(n) + ("- " + (key + ": " + text));
    case Nest(key, value, more) =>
      HeadAt(lines, i, PrintRows(rows, n));
      hide StandsAt;
      NestLine(key);
      ItemLine(n, key + ":");
      assert lines[i] == Spaces(n) + ("- " + (key + ":"));
  }

  lemma {:induction false} ReadItems(numbers: Numbers, lines: seq<string>, i: nat, n: nat, mode: Mode,
                                     done: seq<Node>, items: seq<string>)
    requires StandsAt(lines, i, PrintItems(items, n)) && Stops(lines, i + |PrintItems(items, n)|, n)
    requires forall item :: item in items ==> IsPlain(item) && !HasColon(item)
    requires !mode.InBlock? && (items == [] ==> mode.InList?)
    ensures ParseFrom(numbers, lines, i, n, mode, [], done)
            == (List(done + Scalars(numbers, items)), i + |PrintItems(items, n)|)
    decreases |items|
  {
    hide IsContent, LeadingSpaces, Scalar, HasColon, IsPlain, Trim;
    if items == [] {
      assert done + Scalars(numbers, items) == done;
    } else {
      var item, rest := items[0], items[1..];
      HeadAt(lines, i, PrintItems(items, n));
      StandsSplit(lines, i, [Spaces(n) + ("- " + item)], PrintItems(rest, n));
      assert lines[i] == Spaces(n) + ("- " + item);
      ItemLine(n, item);
      ReadItems(numbers, lines, i + 1, n, InList, done + [Scalar(numbers, item)], rest);
      assert done + [Scalar(numbers, item)] + Scalars(numbers, rest) == done + Scalars(numbers, items);
    }
  }

  /** One turn of the parser's loop on an entry with its value on the line. */
  lemma LeafStep(numbers: Numbers, lines: seq<string>, i: nat, n: nat, mode: Mode, done: seq<(string, Node)>,
                 key: string, text: string)
    requires i < |lines| && lines[i] == Spaces(n) + (key + ":" + (" " + text))
    requires IsKey(key) && IsPlain(text) && text !in [">", ">-", "|", "|-"] && key !in Keys(done)
    ensures ParseFrom(numbers, lines, i, n, mode, done, [])
            == ParseFrom(numbers, lines, i + 1, n, InBlock, done + [(key, Scalar(numbers, text))], [])
  {
    EntryLine(n, key, " " + text, text);
    PutFresh(done, key, Scalar(numbers, text));
    hide IsContent, LeadingSpaces, Scalar, HasColon, Trim, KeyOf, RestOf, Put, Keys, StartsWith, BlockEnd, JoinWords;
  }

  /** The same for an entry whose value is the block below it. */
  lemma BelowStep(numbers: Numbers, lines: seq<string>, i: nat, n: nat, mode: Mode, done: seq<(string, Node)>,
                  key: string, value: Node, next: nat)
    requires i < |lines| && lines[i] == Spaces(n) + (key + ":" + "")
    requires IsKey(key) && key !in Keys(done) && i < next <= |lines|
    requires ParseFrom(numbers, lines, i + 1, n + 2, Undecided, [], []) == (value, next)
    ensures ParseFrom(numbers, lines, i, n, mode, done, [])
            == ParseFrom(numbers, lines, next, n, InBlock, done + [(key, value)], [])
  {
    EntryLine(n, key, "", "");
    PutFresh(done, key, value);
    hide IsContent, LeadingSpaces, Scalar, HasColon, Trim, KeyOf, RestOf, Put, Keys, StartsWith, BlockEnd, JoinWords;
  }

  /** The same for a record in a list. */
  lemma RowStep(numbers: Numbers, lines: seq<string>, i: nat, n: nat, mode: Mode, done: seq<Node>,
                key: string, text: string, others: Entries, next: nat)
    requires i < |lines| && lines[i] == Spaces(n) + ("- " + (key + ": " + text))
    requires IsKey(key) && IsPlain(text) && !EndsWith(text, ":") && WellFormedEntries(others, {key})
    requires !mode.InBlock? && i < next <= |lines|
    requires ParseFrom(numbers, lines, i + 1, n + 2, Undecided, [], []) == (Map([] + Pairs(numbers, others)), next)
    ensures ParseFrom(numbers, lines, i, n, mode, [], done)
            == ParseFrom(numbers, lines, next, n, InList, [],
                         done + [Map([(key, Scalar(numbers, text))] + Pairs(numbers, others))])
  {
    RowLine(key, text);
    ItemLine(n, key + ": " + text);
    RecordIsWhole(numbers, key, text, others);
    hide IsContent, LeadingSpaces, Scalar, HasColon, Trim, KeyOf, RestOf, Put, Keys, StartsWith, BlockEnd, JoinWords,
         ListItem, Pairs;
  }

  /** The same for a map with a block of its own. */
  lemma NestStep(numbers: Numbers, lines: seq<string>, i: nat, n: nat, mode: Mode, done: seq<Node>, key: string,
                 value: Node, next: nat)
    requires i < |lines| && lines[i] == Spaces(n) + ("- " + (key + ":")) && IsKey(key)
    requires !mode.InBlock? && i < next <= |lines|
    requires ParseFrom(numbers, lines, i + 1, n + 2, Undecided, [], []) == (value, next)
    ensures ParseFrom(numbers, lines, i, n, mode, [], done)
            == ParseFrom(numbers, lines, next, n, InList, [], done + [Map([(key, value)])])
  {
    NestLine(key);
    ItemLine(n, key + ":");
    hide IsContent, LeadingSpaces, Scalar, HasColon, Trim, KeyOf, RestOf, Put, StartsWith, BlockEnd, JoinWords,
         EndsWith;
  }

  lemma BlockStops(numbers: Numbers, lines: seq<string>, i: nat, n: nat, mode: Mode, done: seq<(string, Node)>,
                   items: seq<Node>)
    requires Stops(lines, i, n)
    ensures ParseFrom(numbers, lines, i, n, mode, done, items) == (Finish(mode, done, items), i)
  {
    hide IsContent, LeadingSpaces;
  }

  lemma NoKeys()
    ensures Keys([]) == {}
  {
  }

  lemma {:induction false} ReadEntries(numbers: Numbers, lines: seq<string>, i: nat, n: nat, mode: Mode,
                                       done: seq<(string, Node)>, entries: Entries)
    requires StandsAt(lines, i, Print(entries, n)) && Stops(lines, i + |Print(entries, n)|, n)
    requires WellFormedEntries(entries, Keys(done)) && !mode.InList?
    ensures ParseFrom(numbers, lines, i, n, mode, done, [])
            == (Map(done + Pairs(numbers, entries)), i + |Print(entries, n)|)
    decreases entries, 1
  {
    if entries.End? {
      BlockStops(numbers, lines, i, n, mode, done, []);
      hide Stops, StandsAt, ParseFrom;
      assert done + Pairs(numbers, entries) == done;
    } else if entries.value.Leaf? {
      ReadLeaf(numbers, lines, i, n, mode, done, entries);
    } else if entries.value.Block? {
      ReadBlock(numbers, lines, i, n, mode, done, entries);
    } else {
      ReadNested(numbers, lines, i, n, mode, done, entries);
    }
  }

  lemma {:induction false} SpacesThenText(n: nat, text: string)
    requires IsPlain(text)
    ensures Trim(Spaces(n) + text) == text && LeadingSpaces(Spaces(n) + text) == n
  {
    PlainEnds(text);
    TrimIndented(n, text);
  }

  lemma JoinFirst(line: string, text: string, rest: seq<string>, others: seq<string>)
    requires Trim(line) == text && text != "" && JoinWords(rest) == Joined(others)
    requires others == [] || others[0] != ""
    ensures JoinWords([line] + rest) == Joined([text] + others)
  {
    assert ([line] + rest)[1..] == rest && ([text] + others)[1..] == others;
  }

  lemma JoinBlank(line: string, rest: seq<string>)
    requires Trim(line) == ""
    ensures JoinWords([line] + rest) == JoinWords(rest)
  {
    assert ([line] + rest)[1..] == rest;
  }

  lemma BlockFirst(n: nat, body: seq<BlockLine>)
    requires body != []
    ensures var rest, printed := body[1..], PrintBlock(body[1..], n);
      match body[0]
      case Blank(space) => PrintBlock(body, n) == [space] + printed && Texts(body) == Texts(rest)
      case Words(further, text) =>
        PrintBlock(body, n) == [Spaces(n + 1 + further) + text] + printed && Texts(body) == [text] + Texts(rest)
  {
    hide Spaces;
  }

  lemma WellFormedBlock(mark: string, body: seq<BlockLine>)
    requires WellFormed(Block(mark, body)) && body != []
    ensures WellFormed(Block(mark, body[1..]))
    ensures if body[0].Blank? then Trim(body[0].space) == "" else IsPlain(body[0].text)
  {
    hide IsPlain, Trim;
    assert body[0] in body;
  }

  /** What the parser's inner loop makes of the lines below a block mark. */
  lemma {:induction false} BlockIsJoined(n: nat, mark: string, body: seq<BlockLine>)
    requires WellFormed(Block(mark, body))
    ensures JoinWords(PrintBlock(body, n)) == Joined(Texts(body))
    ensures Texts(body) == [] || Texts(body)[0] != ""
  {
    if body == [] {
      NothingJoins();
    } else {
      hide Trim, JoinWords, Joined, Spaces, PrintBlock, Texts, WellFormed;
      WellFormedBlock(mark, body);
      BlockIsJoined(n, mark, body[1..]);
      BlockFirst(n, body);
      var printed := PrintBlock(body[1..], n);
      match body[0]
      case Blank(space) => JoinBlank(space, printed);
      case Words(further, text) =>
        SpacesThenText(n + 1 + further, text);
        JoinFirst(Spaces(n + 1 + further) + text, text, printed, Texts(body[1..]));
    }
  }

  lemma NothingJoins()
    ensures JoinWords([]) == Joined([])
  {
  }

  /** And where it stops. */
  lemma {:induction false} BlockIsWhole(lines: seq<string>, i: nat, n: nat, mark: string, body: seq<BlockLine>)
    requires WellFormed(Block(mark, body)) && StandsAt(lines, i, PrintBlock(body, n))
    requires Stops(lines, i + |body|, n + 1)
    ensures BlockEnd(lines, i, n) == i + |body|
    decreases |body|
  {
    hide LeadingSpaces, Trim, Spaces, TrimLeft;
    if body != [] {
      var rest := body[1..];
      var printed := PrintBlock(body, n);
      HeadAt(lines, i, printed);
      StandsSplit(lines, i, [printed[0]], PrintBlock(rest, n));
      assert body[0] in body && forall line :: line in rest ==> line in body;
      BlockIsWhole(lines, i + 1, n, mark, rest);
      hide IsContent, Stops, StandsAt;
      if body[0].Words? {
        SpacesThenText(n + 1 + body[0].further, body[0].text);
      }
    }
  }

  /** One turn of the parser's loop on an entry with a block below it. */
  lemma BlockStep(numbers: Numbers, lines: seq<string>, i: nat, n: nat, mode: Mode, done: seq<(string, Node)>,
                  key: string, mark: string, next: nat)
    requires i < |lines| && lines[i] == Spaces(n) + (key + ":" + (" " + mark))
    requires IsKey(key) && mark in [">", ">-", "|", "|-"] && key !in Keys(done)
    requires BlockEnd(lines, i + 1, n) == next
    ensures i < next <= |lines|
    ensures ParseFrom(numbers, lines, i, n, mode, done, [])
            == ParseFrom(numbers, lines, next, n, InBlock, done + [(key, Word(JoinWords(lines[i + 1..next])))], [])
  {
    MarksArePlain();
    EntryLine(n, key, " " + mark, mark);
    PutFresh(done, key, Word(JoinWords(lines[i + 1..next])));
    hide IsContent, LeadingSpaces, Scalar, HasColon, Trim, KeyOf, RestOf, Put, Keys, StartsWith, BlockEnd, JoinWords;
  }

  lemma {:induction false} ReadBlock(numbers: Numbers, lines: seq<string>, i: nat, n: nat, mode: Mode,
                                     done: seq<(string, Node)>, entries: Entries)
    requires StandsAt(lines, i, Print(entries, n)) && Stops(lines, i + |Print(entries, n)|, n)
    requires WellFormedEntries(entries, Keys(done)) && !mode.InList?
    requires entries.Entry? && entries.value.Block?
    ensures ParseFrom(numbers, lines, i, n, mode, done, [])
            == (Map(done + Pairs(numbers, entries)), i + |Print(entries, n)|)
    decreases entries, 0
  {
    hide ParseFrom, StandsAt, Stops, Keys, IsKey, PrintBlock, JoinWords, Joined, Texts, BlockEnd, WellFormed, Scalar,
         Spaces;
    var key, mark, body, rest := entries.key, entries.value.mark, entries.value.body, entries.rest;
    var head, below := Spaces(n) + (key + ": " + mark), PrintBlock(body, n);
    assert Print(entries, n) == [head] + (below + Print(rest, n));
    HeadAt(lines, i, Print(entries, n));
    StandsSplit(lines, i, [head], below + Print(rest, n));
    StandsSplit(lines, i + 1, below, Print(rest, n));
    var next := i + 1 + |below|;
    StopsAtEntries(lines, next, n, rest, Keys(done) + {key});
    BlockIsWhole(lines, i + 1, n, mark, body);
    BlockIsJoined(n, mark, body);
    MarkIsOne(mark, body);
    assert key + ": " + mark == key + ":" + (" " + mark);
    BlockStep(numbers, lines, i, n, mode, done, key, mark, next);
    assert lines[i + 1..next] == below by { StandsThere(lines, i + 1, below); }
    var v := Word(Joined(Texts(body)));
    PutFresh(done, key, v);
    ReadEntries(numbers, lines, next, n, InBlock, done + [(key, v)], rest);
    assert done + [(key, v)] + Pairs(numbers, rest) == done + ([(key, v)] + Pairs(numbers, rest));
  }

  lemma MarkIsOne(mark: string, body: seq<BlockLine>)
    requires WellFormed(Block(mark, body))
    ensures mark in [">", ">-", "|", "|-"]
  {
  }

  lemma StandsThere(lines: seq<string>, i: nat, part: seq<string>)
    requires StandsAt(lines, i, part)
    ensures i + |part| <= |lines| && lines[i..i + |part|] == part
  {
  }

  lemma {:induction false} ReadLeaf(numbers: Numbers, lines: seq<string>, i: nat, n: nat, mode: Mode,
                                    done: seq<(string, Node)>, entries: Entries)
    requires StandsAt(lines, i, Print(entries, n)) && Stops(lines, i + |Print(entries, n)|, n)
    requires WellFormedEntries(entries, Keys(done)) && !mode.InList?
    requires entries.Entry? && entries.value.Leaf?
    ensures ParseFrom(numbers, lines, i, n, mode, done, [])
            == (Map(done + Pairs(numbers, entries)), i + |Print(entries, n)|)
    decreases entries, 0
  {
    hide ParseFrom, StandsAt, Stops, Scalar, Keys, IsKey, IsPlain;
    var key, text, rest := entries.key, entries.value.text, entries.rest;
    var v := Scalar(numbers, text);
    assert Print(entries, n) == [Spaces(n) + (key + ": " + text)] + Print(rest, n);
    HeadAt(lines, i, Print(entries, n));
    StandsSplit(lines, i, [Spaces(n) + (key + ": " + text)], Print(rest, n));
    assert key + ": " + text == key + ":" + (" " + text);
    LeafStep(numbers, lines, i, n, mode, done, key, text);
    PutFresh(done, key, v);
    ReadEntries(numbers, lines, i + 1, n, InBlock, done + [(key, v)], rest);
    assert done + [(key, v)] + Pairs(numbers, rest) == done + ([(key, v)] + Pairs(numbers, rest));
  }

  lemma {:induction false} ReadNested(numbers: Numbers, lines: seq<string>, i: nat, n: nat, mode: Mode,
                                      done: seq<(string, Node)>, entries: Entries)
    requires StandsAt(lines, i, Print(entries, n)) && Stops(lines, i + |Print(entries, n)|, n)
    requires WellFormedEntries(entries, Keys(done)) && !mode.InList?
    requires entries.Entry? && !entries.value.Leaf? && !entries.value.Block?
    ensures ParseFrom(numbers, lines, i, n, mode, done, [])
            == (Map(done + Pairs(numbers, entries)), i + |Print(entries, n)|)
    decreases entries, 0
  {
    hide ParseFrom, StandsAt, Stops, Keys, IsKey, Meaning, PrintBelow, WellFormed, Spaces;
    var key, value, rest := entries.key, entries.value, entries.rest;
    var v := Meaning(numbers, value);
    var below := PrintBelow(value, n + 2);
    assert Print(entries, n) == [Spaces(n) + (key + ":")] + (below + Print(rest, n));
    assert Pairs(numbers, entries) == [(key, v)] + Pairs(numbers, rest);
    assert WellFormedEntries(rest, Keys(done) + {key}) && WellFormed(value) && IsKey(key) && key !in Keys(done);
    hide Print, Pairs, WellFormedEntries;
    HeadAt(lines, i, Print(entries, n));
    StandsSplit(lines, i, [Spaces(n) + (key + ":")], below + Print(rest, n));
    StandsSplit(lines, i + 1, below, Print(rest, n));
    assert key + ":" + "" == key + ":";
    var next := i + 1 + |below|;
    StopsAtEntries(lines, next, n, rest, Keys(done) + {key});
    StopsFurtherRight(lines, next, n);
    ReadBelow(numbers, lines, i + 1, n + 2, value);
    assert next <= |lines| by { StandsWithin(lines, next, Print(rest, n)); }
    BelowStep(numbers, lines, i, n, mode, done, key, v, next);
    PutFresh(done, key, v);
    ReadEntries(numbers, lines, next, n, InBlock, done + [(key, v)], rest);
    assert done + [(key, v)] + Pairs(numbers, rest) == done + ([(key, v)] + Pairs(numbers, rest));
  }

  lemma StandsWithin(lines: seq<string>, i: nat, part: seq<string>)
    requires StandsAt(lines, i, part)
    ensures i <= |lines|
  {
  }

  lemma {:induction false} ReadBelow(numbers: Numbers, lines: seq<string>, i: nat, n: nat, value: Tree)
    requires !value.Leaf? && !value.Block? && WellFormed(value)
    requires StandsAt(lines, i, PrintBelow(value, n)) && Stops(lines, i + |PrintBelow(value, n)|, n)
    ensures ParseFrom(numbers, lines, i, n, Undecided, [], [])
            == (Meaning(numbers, value), i + |PrintBelow(value, n)|)
    decreases value
  {
    hide ParseFrom, StandsAt, Stops, IsPlain, HasColon, Print, PrintRows, PrintItems, Pairs, RowMaps, Scalars,
         WellFormedRows, WellFormedEntries;
    match value
    case Branch(entries) =>
      NoKeys();
      ReadEntries(numbers, lines, i, n, Undecided, [], entries);
      assert [] + Pairs(numbers, entries) == Pairs(numbers, entries);
    case Items(items) =>
      ReadItems(numbers, lines, i, n, Undecided, [], items);
      assert [] + Scalars(numbers, items) == Scalars(numbers, items);
    case Records(rows) =>
      ReadRows(numbers, lines, i, n, Undecided, [], rows);
      assert [] + RowMaps(numbers, rows) == RowMaps(numbers, rows);
  }

  lemma {:induction false} ReadRows(numbers: Numbers, lines: seq<string>, i: nat, n: nat, mode: Mode,
                                    done: seq<Node>, rows: Rows)
    requires StandsAt(lines, i, PrintRows(rows, n)) && Stops(lines, i + |PrintRows(rows, n)|, n)
    requires WellFormedRows(rows) && !mode.InBlock? && (rows.NoRows? ==> mode.InList?)
    ensures ParseFrom(numbers, lines, i, n, mode, [], done)
            == (List(done + RowMaps(numbers, rows)), i + |PrintRows(rows, n)|)
    decreases rows, 1
  {
    hide ParseFrom;
    match rows
    case NoRows =>
      BlockStops(numbers, lines, i, n, mode, [], done);
      assert done + RowMaps(numbers, rows) == done;
    case Row(_, _, _, _) => ReadRow(numbers, lines, i, n, mode, done, rows);
    case Nest(_, _, _) => ReadNest(numbers, lines, i, n, mode, done, rows);
  }

  lemma {:induction false} ReadRow(numbers: Numbers, lines: seq<string>, i: nat, n: nat, mode: Mode,
                                   done: seq<Node>, rows: Rows)
    requires StandsAt(lines, i, PrintRows(rows, n)) && Stops(lines, i + |PrintRows(rows, n)|, n)
    requires WellFormedRows(rows) && rows.Row? && !mode.InBlock?
    ensures ParseFrom(numbers, lines, i, n, mode, [], done)
            == (List(done + RowMaps(numbers, rows)), i + |PrintRows(rows, n)|)
    decreases rows, 0
  {
    hide ParseFrom, StandsAt, Stops, IsKey, IsPlain, EndsWith, Scalar, Print, Pairs, WellFormedEntries, Spaces;
    var key, text, others, more := rows.key, rows.text, rows.others, rows.more;
    var item := key + ": " + text;
    HeadAt(lines, i, PrintRows(rows, n));
    StandsSplit(lines, i, [Spaces(n) + ("- " + item)], Print(others, n + 2) + PrintRows(more, n));
    StandsSplit(lines, i + 1, Print(others, n + 2), PrintRows(more, n));
    var next := i + 1 + |Print(others, n + 2)|;
    StopsAtRows(lines, next, n, more);
    FewerUsedKeys(others, {key}, {});
    NoKeys();
    ReadEntries(numbers, lines, i + 1, n + 2, Undecided, [], others);
    assert next <= |lines| by { StandsWithin(lines, next, PrintRows(more, n)); }
    RowStep(numbers, lines, i, n, mode, done, key, text, others, next);
    var m := Map([(key, Scalar(numbers, text))] + Pairs(numbers, others));
    ReadRows(numbers, lines, next, n, InList, done + [m], more);
    assert done + [m] + RowMaps(numbers, more) == done + RowMaps(numbers, rows);
  }

  lemma {:induction false} ReadNest(numbers: Numbers, lines: seq<string>, i: nat, n: nat, mode: Mode,
                                    done: seq<Node>, rows: Rows)
    requires StandsAt(lines, i, PrintRows(rows, n)) && Stops(lines, i + |PrintRows(rows, n)|, n)
    requires WellFormedRows(rows) && rows.Nest? && !mode.InBlock?
    ensures ParseFrom(numbers, lines, i, n, mode, [], done)
            == (List(done + RowMaps(numbers, rows)), i + |PrintRows(rows, n)|)
    decreases rows, 0
  {
    hide ParseFrom, StandsAt, Stops, IsKey, Meaning, PrintBelow, WellFormed, Print, Pairs, Scalars, PrintItems, Spaces;
    var key, value, more := rows.key, rows.value, rows.more;
    var head, below := Spaces(n) + ("- " + (key + ":")), PrintBelow(value, n + 2);
    HeadAt(lines, i, PrintRows(rows, n));
    StandsSplit(lines, i, [head], below + PrintRows(more, n));
    StandsSplit(lines, i + 1, below, PrintRows(more, n));
    var next := i + 1 + |below|;
    StopsAtRows(lines, next, n, more);
    ReadBelow(numbers, lines, i + 1, n + 2, value);
    assert next <= |lines| by { StandsWithin(lines, next, PrintRows(more, n)); }
    NestStep(numbers, lines, i, n, mode, done, key, Meaning(numbers, value), next);
    var m := Map([(key, Meaning(numbers, value))]);
    ReadRows(numbers, lines, next, n, InList, done + [m], more);
    assert done + [m] + RowMaps(numbers, more) == done + RowMaps(numbers, rows);
  }

  lemma RecordIsWhole(numbers: Numbers, key: string, text: string, others: Entries)
    requires IsKey(key) && IsPlain(text) && !EndsWith(text, ":") && WellFormedEntries(others, {key})
    ensures ListItem(numbers, key + ": " + text, Map([] + Pairs(numbers, others)))
            == Map([(key, Scalar(numbers, text))] + Pairs(numbers, others))
  {
    RowLine(key, text);
    var first := [(key, Scalar(numbers, text))];
    assert Keys(first) == {key};
    PutAllFresh(numbers, first, others);
    hide Scalar, Keys, IsKey, IsPlain, HasColon, KeyOf, RestOf, Pairs, PutAll, WellFormedEntries;
    assert [] + Pairs(numbers, others) == Pairs(numbers, others);
  }

  /** Round trip: every document that can be printed is read back as what it means. */
  lemma LoadInvertsPrint(numbers: Numbers, document: Entries)
    requires WellFormedEntries(document, {})
    ensures Load(numbers, Print(document, 0)) == Map(Pairs(numbers, document))
  {
    var lines := Print(document, 0);
    assert lines[0..0 + |lines|] == lines;
    NoKeys();
    ReadEntries(numbers, lines, 0, 0, Undecided, [], document);
    assert [] + Pairs(numbers, document) == Pairs(numbers, document);
  }
}

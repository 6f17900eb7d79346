// The fallback parser for the YAML subset in which repositories declare themselves.
module YamlSubset {
  import opened Text

  /** A number keeps its text; which texts `int` or `float` accept is a parameter of the parser. */
  datatype Node =
    | Nothing
    | Flag(b: bool)
    | Number(text: string)
    | Word(s: string)
    | List(items: seq<Node>)
    | Map(entries: seq<(string, Node)>)

  type Numbers = string -> bool

  /** `result[key] = value` on a dict: an old key keeps its place. */
  function Put(entries: seq<(string, Node)>, key: string, value: Node): seq<(string, Node)> {
    if entries == [] then [(key, value)]
    else if entries[0].0 == key then [(key, value)] + entries[1..]
    else [entries[0]] + Put(entries[1..], key, value)
  }

  /** `item.update(nested)`. */
  function PutAll(entries: seq<(string, Node)>, more: seq<(string, Node)>): seq<(string, Node)>
    decreases |more|
  {
    if more == [] then entries else PutAll(Put(entries, more[0].0, more[0].1), more[1..])
  }

  // ---- Lines ----

  function LeadingSpaces(line: string): (n: nat)
    ensures n <= |line|
  {
    if line != "" && line[0] == ' ' then 1 + LeadingSpaces(line[1..]) else 0
  }

  /** A line that the parser looks at: neither blank nor a comment. */
  predicate IsContent(line: string) {
    Trim(line) != "" && !StartsWith(TrimLeft(line), "#")
  }

  function FindColon(s: string): (n: nat)
    ensures n <= |s|
    ensures n < |s| ==> s[n] == ':'
    ensures forall i :: 0 <= i < n ==> s[i] != ':'
  {
    if s == "" || s[0] == ':' then 0 else 1 + FindColon(s[1..])
  }

  predicate HasColon(s: string) {
    FindColon(s) < |s|
  }

  /** `key, _, rest = s.partition(":")`, both sides stripped. */
  function KeyOf(s: string): string {
    Trim(s[..FindColon(s)])
  }

  function RestOf(s: string): string {
    if HasColon(s) then Trim(s[FindColon(s) + 1..]) else ""
  }

  const BLOCK_MARKS := [">", ">-", "|", "|-"]

  /** `_yaml_scalar`. */
  function Scalar(numbers: Numbers, value: string): Node {
    var text := Trim(value);
    if text in ["null", "Null", "NULL"] then Nothing
    else if text in ["true", "True", "TRUE"] then Flag(true)
    else if text in ["false", "False", "FALSE"] then Flag(false)
    else if IsQuoted(text, '"') || IsQuoted(text, '\'') then Word(if |text| < 2 then "" else text[1..|text| - 1])
    else if numbers(text) then Number(text)
    else Word(text)
  }

  predicate IsQuoted(text: string, mark: char) {
    text != "" && text[0] == mark && text[|text| - 1] == mark
  }

  // ---- Block scalars ----

  /** Where a block scalar below a line of this indentation ends. */
  function BlockEnd(lines: seq<string>, index: nat, indent: nat): (r: nat)
    requires index <= |lines|
    ensures index <= r <= |lines|
    decreases |lines| - index
  {
    if index == |lines| then index
    else if Trim(lines[index]) != "" && LeadingSpaces(lines[index]) <= indent then index
    else BlockEnd(lines, index + 1, indent)
  }

  /** The stripped non-blank lines, joined by single spaces. */
  function JoinWords(lines: seq<string>): string {
    if lines == [] then ""
    else if Trim(lines[0]) == "" then JoinWords(lines[1..])
    else if JoinWords(lines[1..]) == "" then Trim(lines[0])
    else Trim(lines[0]) + " " + JoinWords(lines[1..])
  }

  // ---- The parser ----

  /** What the block turned out to be. */
  datatype Mode = Undecided | InList | InBlock

  function Finish(mode: Mode, entries: seq<(string, Node)>, items: seq<Node>): Node {
    if mode.InList? then List(items) else Map(entries)
  }

  /** The parser's loop from the line at `index` on: the value of the block and the first line after it. */
  function ParseFrom(numbers: Numbers, lines: seq<string>, index: nat, indent: nat, mode: Mode,
                     entries: seq<(string, Node)>, items: seq<Node>): (r: (Node, nat))
    requires index <= |lines|
    ensures index <= r.1 <= |lines|
    decreases |lines| - index
  {
    if index == |lines| then (Finish(mode, entries, items), index)
    else
      var raw := lines[index];
      if !IsContent(raw) then ParseFrom(numbers, lines, index + 1, indent, mode, entries, items)
      else
        var current := LeadingSpaces(raw);
        if current < indent || (current > indent && !mode.InBlock?) then (Finish(mode, entries, items), index)
        else
          var stripped := Trim(raw);
          if StartsWith(stripped, "- ") then
            var value := stripped[2..];
            if value != "" && !HasColon(value) then
              ParseFrom(numbers, lines, index + 1, indent, InList, entries, items + [Scalar(numbers, value)])
            else
              var nested := ParseFrom(numbers, lines, index + 1, current + 2, Undecided, [], []);
              ParseFrom(numbers, lines, nested.1, indent, InList, entries,
                        items + [ListItem(numbers, value, nested.0)])
          else if !HasColon(stripped) then ParseFrom(numbers, lines, index + 1, indent, InBlock, entries, items)
          else
            var key, rest := KeyOf(stripped), RestOf(stripped);
            if rest in BLOCK_MARKS then
              var end := BlockEnd(lines, index + 1, current);
              ParseFrom(numbers, lines, end, indent, InBlock, Put(entries, key, Word(JoinWords(lines[index + 1..end]))),
                        items)
            else if rest != "" then
              ParseFrom(numbers, lines, index + 1, indent, InBlock, Put(entries, key, Scalar(numbers, rest)), items)
            else
              var nested := ParseFrom(numbers, lines, index + 1, current + 2, Undecided, [], []);
              ParseFrom(numbers, lines, nested.1, indent, InBlock, Put(entries, key, nested.0), items)
  }

  /** A list item that continues on the lines below it. */
  function ListItem(numbers: Numbers, value: string, nested: Node): Node {
    if value == "" then nested
    else if EndsWith(value, ":") then Map([(Trim(value[..|value| - 1]), nested)])
    else
      var item := [(KeyOf(value), Scalar(numbers, RestOf(value)))];
      if nested.Map? then Map(PutAll(item, nested.entries))
      else if nested.List? && nested.items != [] then Map([(KeyOf(value), nested)])
      else Map(item)
  }

  function ParseBlock(numbers: Numbers, lines: seq<string>, start: nat, indent: nat): (r: (Node, nat))
    requires start <= |lines|
    ensures start <= r.1 <= |lines|
  {
    ParseFrom(numbers, lines, start, indent, Undecided, [], [])
  }

  /** `_load_yaml_subset` on the lines of a document: only a map counts. */
  function Load(numbers: Numbers, lines: seq<string>): Node {
    var value := ParseBlock(numbers, lines, 0, 0).0;
    if value.Map? then value else Map([])
  }

  // ---- The same parser as it runs ----

  method ReadBlockScalar(lines: seq<string>, start: nat, indent: nat) returns (text: string, index: nat)
    requires start <= |lines|
    ensures index == BlockEnd(lines, start, indent) && text == JoinWords(lines[start..index])
  {
    var parts: seq<string> := [];
    index := start;
    while index < |lines|
      invariant start <= index <= |lines|
      invariant BlockEnd(lines, index, indent) == BlockEnd(lines, start, indent)
      invariant parts == lines[start..index]
    {
      var next := lines[index];
      if Trim(next) != "" && LeadingSpaces(next) <= indent {
        break;
      }
      parts := parts + [next];
      index := index + 1;
    }
    text := JoinWords(parts);
  }

  method ParseYamlBlock(numbers: Numbers, lines: seq<string>, start: nat, indent: nat) returns (value: Node, index: nat)
    requires start <= |lines|
    ensures (value, index) == ParseBlock(numbers, lines, start, indent)
    ensures start <= index <= |lines|
    decreases |lines| - start
  {
    hide IsContent, LeadingSpaces, Scalar, KeyOf, RestOf, HasColon, ListItem, Put, BlockEnd, JoinWords;
    var entries: seq<(string, Node)>, items: seq<Node> := [], [];
    var mode := Undecided;
    index := start;
    while index < |lines|
      invariant start <= index <= |lines|
      invariant ParseFrom(numbers, lines, index, indent, mode, entries, items)
                == ParseBlock(numbers, lines, start, indent)
      decreases |lines| - index
    {
      var raw := lines[index];
      if !IsContent(raw) {
        index := index + 1;
        continue;
      }
      var current := LeadingSpaces(raw);
      if current < indent || (current > indent && !mode.InBlock?) {
        break;
      }
      var stripped := Trim(raw);
      index := index + 1;
      if StartsWith(stripped, "- ") {
        mode := InList;
        var item := stripped[2..];
        if item != "" && !HasColon(item) {
          items := items + [Scalar(numbers, item)];
        } else {
          var nested: Node;
          nested, index := ParseYamlBlock(numbers, lines, index, current + 2);
          items := items + [ListItem(numbers, item, nested)];
        }
        continue;
      }
      mode := InBlock;
      if !HasColon(stripped) {
        continue;
      }
      var key, rest := KeyOf(stripped), RestOf(stripped);
      if rest in BLOCK_MARKS {
        var text: string;
        text, index := ReadBlockScalar(lines, index, current);
        entries := Put(entries, key, Word(text));
      } else if rest != "" {
        entries := Put(entries, key, Scalar(numbers, rest));
      } else {
        var nested: Node;
        nested, index := ParseYamlBlock(numbers, lines, index, current + 2);
        entries := Put(entries, key, nested);
      }
    }
    value := Finish(mode, entries, items);
  }
}

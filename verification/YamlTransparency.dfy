// Blank lines and comments make no difference outside block scalars.
module YamlTransparency {
  import opened Text
  import opened YamlSubset

  /** The lines that the parser looks at. */
  function Content(lines: seq<string>): seq<string> {
    if lines == [] then []
    else (if IsContent(lines[0]) then [lines[0]] else []) + Content(lines[1..])
  }

  /** A key whose text stands on the lines below, where blank lines and '#' belong to the text. */
  predicate OpensBlock(line: string) {
    var stripped := Trim(line);
    !StartsWith(stripped, "- ") && HasColon(stripped) && RestOf(stripped) in BLOCK_MARKS
  }

  predicate HasNoBlocks(lines: seq<string>) {
    forall line :: line in lines && IsContent(line) ==> !OpensBlock(line)
  }

  lemma {:induction false} ContentIsContent(lines: seq<string>)
    ensures forall line :: line in Content(lines) <==> line in lines && IsContent(line)
  {
    hide IsContent;
    if lines != [] {
      ContentIsContent(lines[1..]);
      assert forall line :: line in lines <==> line == lines[0] || line in lines[1..];
    }
  }

  /** At lines[i] and at kept[j] the same lines are still to be read. */
  predicate InStep(lines: seq<string>, i: nat, kept: seq<string>, j: nat) {
    i <= |lines| && j <= |kept| && kept[j..] == Content(lines[i..])
  }

  predicate AllContent(kept: seq<string>) {
    forall line :: line in kept ==> IsContent(line)
  }

  lemma Advance(lines: seq<string>, i: nat, kept: seq<string>, j: nat)
    requires InStep(lines, i, kept, j) && i < |lines|
    ensures !IsContent(lines[i]) ==> InStep(lines, i + 1, kept, j)
    ensures IsContent(lines[i]) ==> j < |kept| && kept[j] == lines[i] && InStep(lines, i + 1, kept, j + 1)
  {
    hide IsContent;
    var rest := lines[i..];
    assert rest[1..] == lines[i + 1..];
    if IsContent(lines[i]) {
      assert Content(rest) == [lines[i]] + Content(rest[1..]);
      assert kept[j..][1..] == kept[j + 1..];
    }
  }

  /** The parser does the same on the document and on its content lines, at every level of nesting. */
  lemma {:induction false} ParseInStep(numbers: Numbers, lines: seq<string>, i: nat, kept: seq<string>, j: nat,
                                       indent: nat, mode: Mode, entries: seq<(string, Node)>, items: seq<Node>)
    requires InStep(lines, i, kept, j) && HasNoBlocks(lines) && AllContent(kept)
    ensures var (value, next) := ParseFrom(numbers, lines, i, indent, mode, entries, items);
      var (valueKept, nextKept) := ParseFrom(numbers, kept, j, indent, mode, entries, items);
      value == valueKept && InStep(lines, next, kept, nextKept)
    decreases |lines| - i
  {
    hide IsContent, LeadingSpaces, Scalar, KeyOf, RestOf, HasColon, ListItem, Put, BlockEnd, JoinWords, InStep, Content,
         Trim;
    AtEnd(lines, i, kept, j);
    if i < |lines| {
      Advance(lines, i, kept, j);
      var raw := lines[i];
      if !IsContent(raw) {
        ParseInStep(numbers, lines, i + 1, kept, j, indent, mode, entries, items);
      } else {
        assert raw in lines && kept[j] in kept;
        var current, stripped := LeadingSpaces(raw), Trim(raw);
        if current < indent || (current > indent && !mode.InBlock?) {
        } else if StartsWith(stripped, "- ") {
          var value := stripped[2..];
          if value != "" && !HasColon(value) {
            ParseInStep(numbers, lines, i + 1, kept, j + 1, indent, InList, entries, items + [Scalar(numbers, value)]);
          } else {
            ParseInStep(numbers, lines, i + 1, kept, j + 1, current + 2, Undecided, [], []);
            var nested := ParseFrom(numbers, lines, i + 1, current + 2, Undecided, [], []);
            var nestedKept := ParseFrom(numbers, kept, j + 1, current + 2, Undecided, [], []);
            ParseInStep(numbers, lines, nested.1, kept, nestedKept.1, indent, InList, entries,
                        items + [ListItem(numbers, value, nested.0)]);
          }
        } else if !HasColon(stripped) {
          ParseInStep(numbers, lines, i + 1, kept, j + 1, indent, InBlock, entries, items);
        } else {
          var key, rest := KeyOf(stripped), RestOf(stripped);
          if rest != "" {
            ParseInStep(numbers, lines, i + 1, kept, j + 1, indent, InBlock, Put(entries, key, Scalar(numbers, rest)),
                        items);
          } else {
            ParseInStep(numbers, lines, i + 1, kept, j + 1, current + 2, Undecided, [], []);
            var nested := ParseFrom(numbers, lines, i + 1, current + 2, Undecided, [], []);
            var nestedKept := ParseFrom(numbers, kept, j + 1, current + 2, Undecided, [], []);
            ParseInStep(numbers, lines, nested.1, kept, nestedKept.1, indent, InBlock, Put(entries, key, nested.0),
                        items);
          }
        }
      }
    }
  }

  lemma AtEnd(lines: seq<string>, i: nat, kept: seq<string>, j: nat)
    requires InStep(lines, i, kept, j)
    ensures i <= |lines| && j <= |kept|
    ensures i == |lines| ==> j == |kept|
  {
    assert i == |lines| ==> lines[i..] == [];
  }

  /** Two documents without block scalars that differ only in blank lines and comments have the same value. */
  lemma BlanksAndCommentsAreTransparent(numbers: Numbers, a: seq<string>, b: seq<string>)
    requires HasNoBlocks(a) && HasNoBlocks(b)
    requires Content(a) == Content(b)
    ensures Load(numbers, a) == Load(numbers, b)
  {
    hide ParseFrom, IsContent;
    var kept := Content(a);
    ContentIsContent(a);
    assert a[0..] == a && b[0..] == b && kept[0..] == kept;
    ParseInStep(numbers, a, 0, kept, 0, 0, Undecided, [], []);
    ParseInStep(numbers, b, 0, kept, 0, 0, Undecided, [], []);
  }

  /** A line of white space, or one whose first other character is a number sign. */
  predicate SaysNothing(line: string) {
    || (forall i :: 0 <= i < |line| ==> IsSpace(line[i]))
    || exists k :: 0 <= k < |line| && line[k] == '#' && forall i :: 0 <= i < k ==> IsSpace(line[i])
  }

  lemma NothingIsNoContent(line: string)
    ensures SaysNothing(line) <==> !IsContent(line)
  {
    hide IsSpace, Trim, TrimLeft;
    BlankIsTrimmedAway(line);
    TrimLeftStops(line);
    assert !IsSpace('#') by { NumberSign(); }
    var k := |line| - |TrimLeft(line)|;
    assert TrimLeft(line) == line[k..];
    if k == |line| {
      assert forall i :: 0 <= i < |line| ==> IsSpace(line[i]);
    } else {
      assert StartsWith(TrimLeft(line), "#") <==> line[k] == '#';
    }
  }

  lemma NumberSign()
    ensures !IsSpace('#')
  {
  }

  /** In particular a blank line or a comment can be put in, or taken out, anywhere. */
  lemma InsertedLineIsTransparent(numbers: Numbers, before: seq<string>, line: string, after: seq<string>)
    requires HasNoBlocks(before + after) && SaysNothing(line)
    ensures Load(numbers, before + [line] + after) == Load(numbers, before + after)
  {
    NothingIsNoContent(line);
    hide IsContent, OpensBlock;
    ContentAppend(before, [line] + after);
    ContentAppend(before, after);
    assert ([line] + after)[1..] == after;
    assert before + [line] + after == before + ([line] + after);
    assert HasNoBlocks(before + [line] + after) by {
      forall other | other in before + [line] + after && IsContent(other)
        ensures !OpensBlock(other)
      {
        assert other in before + after;
      }
    }
    BlanksAndCommentsAreTransparent(numbers, before + [line] + after, before + after);
  }

  lemma {:induction false} ContentAppend(a: seq<string>, b: seq<string>)
    ensures Content(a + b) == Content(a) + Content(b)
  {
    hide IsContent;
    if a == [] {
      assert a + b == b;
    } else {
      assert (a + b)[1..] == a[1..] + b;
      ContentAppend(a[1..], b);
    }
  }
}

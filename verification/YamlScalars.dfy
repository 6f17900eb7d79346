// What the parser makes of the text of a scalar: every value has a spelling that is read as that value.
module YamlScalars {
  import opened Text
  import opened YamlSubset

  const SPECIAL := ["null", "Null", "NULL", "true", "True", "TRUE", "false", "False", "FALSE"]

  /** A value as it is written on a line. */
  function Spell(value: Node): string {
    match value
    case Nothing => "null"
    case Flag(b) => if b then "true" else "false"
    case Number(text) => text
    case Word(s) => "\"" + s + "\""
    case _ => ""
  }

  /** Anything but lists and maps; a number's text has no white space around it, no quotes, and is none of the nine
      special words. */
  predicate IsScalar(numbers: Numbers, value: Node) {
    match value
    case Number(text) => numbers(text) && IsBare(text)
    case List(_) => false
    case Map(_) => false
    case _ => true
  }

  predicate IsBare(text: string) {
    Trim(text) == text && text !in SPECIAL && (text == "" || (text[0] != '"' && text[0] != '\''))
  }

  lemma QuotedTrims(s: string, mark: char)
    requires mark == '"' || mark == '\''
    ensures Trim([mark] + s + [mark]) == [mark] + s + [mark]
  {
    var text := [mark] + s + [mark];
    assert !IsSpace(mark) && text[0] == mark && text[|text| - 1] == mark;
    hide IsSpace;
  }

  lemma SpecialEnds(text: string)
    requires text in SPECIAL
    ensures text[0] != '"' && text[0] != '\''
  {
  }

  /** Between quotation marks of either kind every text stands for itself. */
  lemma QuotesAreDropped(numbers: Numbers, s: string, mark: char)
    requires mark == '"' || mark == '\''
    ensures Scalar(numbers, [mark] + s + [mark]) == Word(s)
  {
    var text := [mark] + s + [mark];
    QuotedTrims(s, mark);
    if text in SPECIAL {
      SpecialEnds(text);
    }
    hide Trim;
    assert text !in SPECIAL;
    assert text[1..|text| - 1] == s;
  }

  /** The nine special words, in the three ways of writing each. */
  lemma NullWords(numbers: Numbers)
    ensures Scalar(numbers, "null") == Scalar(numbers, "Null") == Scalar(numbers, "NULL") == Nothing
  {
  }

  lemma TrueWords(numbers: Numbers)
    ensures Scalar(numbers, "true") == Scalar(numbers, "True") == Scalar(numbers, "TRUE") == Flag(true)
  {
  }

  lemma FalseWords(numbers: Numbers)
    ensures Scalar(numbers, "false") == Scalar(numbers, "False") == Scalar(numbers, "FALSE") == Flag(false)
  {
  }

  /** Every other text without quotation marks is a number if `int` or `float` accepts it, and otherwise itself. */
  lemma BareTexts(numbers: Numbers, text: string)
    requires IsBare(text)
    ensures Scalar(numbers, text) == if numbers(text) then Number(text) else Word(text)
  {
    hide Trim;
  }

  /** White space around a scalar does not count. */
  lemma BlanksAreDropped(numbers: Numbers, before: string, text: string, after: string)
    requires IsBlank(before) && IsTight(text) && IsBlank(after)
    ensures Scalar(numbers, before + text + after) == Scalar(numbers, text)
  {
    TrimTakesTheBlanks(before, text, after);
    TrimTakesTheBlanks("", text, "");
    assert "" + text + "" == text;
  }

  /** A lone quotation mark is the empty text. */
  lemma LoneQuote(numbers: Numbers, mark: char)
    requires mark == '"' || mark == '\''
    ensures Scalar(numbers, [mark]) == Word("")
  {
    assert !IsSpace(mark);
    TrimTakesTheBlanks("", [mark], "");
    assert "" + [mark] + "" == [mark];
    if [mark] in SPECIAL {
      SpecialEnds([mark]);
    }
  }

  /** Nor does white space around the key of a list item. */
  lemma ItemKeysAreStripped(numbers: Numbers, before: string, key: string, after: string, nested: Node)
    requires IsBlank(before) && IsTight(key) && IsBlank(after)
    ensures ListItem(numbers, before + key + after + ":", nested) == Map([(key, nested)])
  {
    hide Trim, IsBlank, IsTight;
    var value := before + key + after + ":";
    assert value[..|value| - 1] == before + key + after;
    TrimTakesTheBlanks(before, key, after);
  }

  /** Round trip: every scalar is read back from its spelling. */
  lemma ScalarInvertsSpell(numbers: Numbers, value: Node)
    requires IsScalar(numbers, value)
    ensures Scalar(numbers, Spell(value)) == value
  {
    match value
    case Word(s) => QuotesAreDropped(numbers, s, '"');
    case Number(text) => BareTexts(numbers, text);
    case Nothing => NullWords(numbers);
    case Flag(b) =>
      TrueWords(numbers);
      FalseWords(numbers);
    case _ =>
  }
}

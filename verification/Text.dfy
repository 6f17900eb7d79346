// The string operations of the Python code that the models share.
module Text {

  /** Python's notion of white space, as `str.strip` removes it. */
  predicate IsSpace(c: char) {
    || '\t' <= c <= '\r' || '\U{1c}' <= c <= ' ' || c == '\U{85}' || c == '\U{a0}' || c == '\U{1680}'
    || '\U{2000}' <= c <= '\U{200a}' || c == '\U{2028}' || c == '\U{2029}' || c == '\U{202f}'
    || c == '\U{205f}' || c == '\U{3000}'
  }

  function LowerChar(c: char): char {
    if 'A' <= c <= 'Z' then c + 32 as char else c
  }

  /** `s.lower()` on the letters A to Z. */
  function Lower(s: string): (r: string)
    ensures |r| == |s|
  {
    seq(|s|, i requires 0 <= i < |s| => LowerChar(s[i]))
  }

  predicate StartsWith(s: string, prefix: string) {
    prefix <= s
  }

  predicate EndsWith(s: string, suffix: string) {
    |suffix| <= |s| && s[|s| - |suffix|..] == suffix
  }

  /** `needle in text`. */
  predicate Contains(text: string, needle: string) {
    exists i :: 0 <= i <= |text| && needle <= text[i..]
  }

  function TrimLeft(s: string): string {
    if s != "" && IsSpace(s[0]) then TrimLeft(s[1..]) else s
  }

  function TrimRight(s: string): string {
    if s != "" && IsSpace(s[|s| - 1]) then TrimRight(s[..|s| - 1]) else s
  }

  /** `s.strip()`. */
  function Trim(s: string): string {
    TrimRight(TrimLeft(s))
  }

  const SPACES :=
    "\t\n\U{b}\U{c}\r\U{1c}\U{1d}\U{1e}\U{1f} \U{85}\U{a0}\U{1680}\U{2000}\U{2001}\U{2002}\U{2003}\U{2004}\U{2005}"
    + "\U{2006}\U{2007}\U{2008}\U{2009}\U{200a}\U{2028}\U{2029}\U{202f}\U{205f}\U{3000}"

  const CAPITALS := "ABCDEFGHIJKLMNOPQRSTUVWXYZ"
  const SMALL_LETTERS := "abcdefghijklmnopqrstuvwxyz"

  /** The white space, character by character. */
  lemma SpacesAreKnown(c: char)
    ensures IsSpace(c) <==> c in SPACES
  {
  }

  /** Each capital becomes the small letter at its place in the alphabet; nothing else changes. */
  lemma CapitalsAreLowered(s: string, i: nat, k: nat)
    requires i < |s| && k < 26
    ensures s[i] == CAPITALS[k] ==> Lower(s)[i] == SMALL_LETTERS[k]
    ensures s[i] !in CAPITALS ==> Lower(s)[i] == s[i]
  {
    hide CAPITALS, SMALL_LETTERS;
    CapitalIsBetween(s[i]);
    LettersInOrder(k);
  }

  lemma CapitalIsBetween(c: char)
    ensures c in CAPITALS <==> 'A' <= c <= 'Z'
  {
    if 'A' <= c <= 'Z' {
      LettersInOrder(c as int - 'A' as int);
    }
  }

  lemma LettersInOrder(k: nat)
    requires k < 26
    ensures CAPITALS[k] == 'A' + k as char && SMALL_LETTERS[k] == 'a' + k as char
  {
  }

  lemma {:induction false} BlankTrims(s: string)
    ensures TrimLeft(s) == "" <==> forall i :: 0 <= i < |s| ==> IsSpace(s[i])
  {
    if s != "" && IsSpace(s[0]) {
      BlankTrims(s[1..]);
      assert forall i :: 1 <= i < |s| ==> s[i] == s[1..][i - 1];
    }
  }

  lemma {:induction false} TrimRightKeepsFirst(s: string)
    requires s != "" && !IsSpace(s[0])
    ensures TrimRight(s) != ""
  {
    if IsSpace(s[|s| - 1]) {
      TrimRightKeepsFirst(s[..|s| - 1]);
    }
  }

  /** Stripping on the left removes the white space before the first other character. */
  lemma {:induction false} TrimLeftStops(s: string)
    ensures var t := TrimLeft(s);
      && |t| <= |s| && t == s[|s| - |t|..] && (t != "" ==> !IsSpace(t[0]))
      && forall i :: 0 <= i < |s| - |t| ==> IsSpace(s[i])
  {
    if s != "" && IsSpace(s[0]) {
      TrimLeftStops(s[1..]);
      assert forall i :: 1 <= i < |s| ==> s[i] == s[1..][i - 1];
    }
  }

  /** Nothing is left exactly of a blank text. */
  lemma BlankIsTrimmedAway(s: string)
    ensures Trim(s) == "" <==> forall i :: 0 <= i < |s| ==> IsSpace(s[i])
  {
    hide IsSpace;
    BlankTrims(s);
    TrimLeftStops(s);
    if TrimLeft(s) != "" {
      TrimRightKeepsFirst(TrimLeft(s));
    }
  }

  predicate IsBlank(s: string) {
    forall i :: 0 <= i < |s| ==> IsSpace(s[i])
  }

  /** A text that neither begins nor ends with white space. */
  predicate IsTight(s: string) {
    s != "" ==> !IsSpace(s[0]) && !IsSpace(s[|s| - 1])
  }

  lemma {:induction false} TrimLeftAfter(before: string, s: string)
    requires IsBlank(before)
    ensures TrimLeft(before + s) == TrimLeft(s)
  {
    hide IsSpace;
    if before == "" {
      assert before + s == s;
    } else {
      assert (before + s)[0] == before[0] && (before + s)[1..] == before[1..] + s;
      TrimLeftAfter(before[1..], s);
    }
  }

  lemma {:induction false} TrimRightBefore(s: string, after: string)
    requires IsBlank(after)
    ensures TrimRight(s + after) == TrimRight(s)
  {
    hide IsSpace;
    if after == "" {
      assert s + after == s;
    } else {
      var n := |after| - 1;
      assert (s + after)[|s| + n] == after[n] && (s + after)[..|s| + n] == s + after[..n];
      TrimRightBefore(s, after[..n]);
    }
  }

  /** Stripping takes exactly the white space around a text. */
  lemma TrimTakesTheBlanks(before: string, s: string, after: string)
    requires IsBlank(before) && IsTight(s) && IsBlank(after)
    ensures Trim(before + s + after) == s
  {
    hide IsSpace;
    assert before + s + after == before + (s + after);
    TrimLeftAfter(before, s + after);
    if s == "" {
      assert s + after == after;
      BlankTrims(after);
    } else {
      assert (s + after)[0] == s[0];
      TrimRightBefore(s, after);
    }
  }

  /** The text has the other inside it. */
  ghost predicate Mentions(text: string, what: string) {
    exists before, after :: text == before + what + after
  }

  lemma MentionsIsContains(text: string, what: string)
    ensures Mentions(text, what) <==> Contains(text, what)
  {
    if Mentions(text, what) {
      var before, after :| text == before + what + after;
      assert text[|before|..] == what + after;
    }
    if Contains(text, what) {
      var i :| 0 <= i <= |text| && what <= text[i..];
      assert text == text[..i] + what + text[i..][|what|..];
    }
  }
}

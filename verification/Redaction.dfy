// Removing credentials before anything is written or shown.
module Redaction {
  import opened Json
  import opened Text

  const REDACTED := Str("<redacted>")

  predicate IsSensitive(key: string) {
    Contains(Lower(key), "token") || Contains(Lower(key), "authorization")
  }

  /** `_redact`. */
  function Redact(value: Json): Json
    decreases value, 1
  {
    match value
    case Obj(fields) => Obj(RedactMembers(value, fields))
    case Arr(items) => Arr(RedactItems(value, items))
    case _ => value
  }

  function RedactMembers(value: Json, fields: seq<(string, Json)>): (r: seq<(string, Json)>)
    requires value.Obj? && forall i :: 0 <= i < |fields| ==> fields[i] in value.fields
    ensures |r| == |fields|
    decreases value, 0, |fields|
  {
    if fields == [] then []
    else
      assert fields[0] in value.fields;
      [(fields[0].0, if IsSensitive(fields[0].0) then REDACTED else Redact(fields[0].1))]
      + RedactMembers(value, fields[1..])
  }

  function RedactItems(value: Json, items: seq<Json>): (r: seq<Json>)
    requires value.Arr? && forall i :: 0 <= i < |items| ==> items[i] in value.items
    ensures |r| == |items|
    decreases value, 0, |items|
  {
    if items == [] then [] else [Redact(items[0])] + RedactItems(value, items[1..])
  }

  const FORBIDDEN := ["token", "access_token", "refresh_token", "authorization"]

  function DropForbidden(fields: seq<(string, Json)>): seq<(string, Json)> {
    if fields == [] then []
    else (if Lower(fields[0].0) in FORBIDDEN then [] else [fields[0]]) + DropForbidden(fields[1..])
  }

  /** `_sanitize_state`. */
  function Sanitize(state: Json): Json
    requires state.Obj?
  {
    Obj(DropForbidden(Redact(state).fields))
  }

  /** No sensitive key, at any depth, has a value other than the placeholder. */
  ghost predicate IsClean(value: Json)
    decreases value
  {
    match value
    case Obj(fields) =>
      forall i :: 0 <= i < |fields| ==>
        if IsSensitive(fields[i].0) then fields[i].1 == REDACTED
        else assert fields[i] in fields; IsClean(fields[i].1)
    case Arr(items) => forall i :: 0 <= i < |items| ==> IsClean(items[i])
    case _ => true
  }

  lemma MembersByIndex(value: Json, fields: seq<(string, Json)>, i: nat)
    requires value.Obj? && forall k :: 0 <= k < |fields| ==> fields[k] in value.fields
    requires i < |fields|
    ensures RedactMembers(value, fields)[i] ==
            (fields[i].0, if IsSensitive(fields[i].0) then REDACTED else Redact(fields[i].1))
    decreases |fields|
  {
    if i > 0 {
      MembersByIndex(value, fields[1..], i - 1);
    }
  }

  lemma ItemsByIndex(value: Json, items: seq<Json>, i: nat)
    requires value.Arr? && forall k :: 0 <= k < |items| ==> items[k] in value.items
    requires i < |items|
    ensures RedactItems(value, items)[i] == Redact(items[i])
    decreases |items|
  {
    if i > 0 {
      ItemsByIndex(value, items[1..], i - 1);
    }
  }

  /** Whatever goes in, nothing secret comes out. */
  lemma {:induction false} RedactCleans(value: Json)
    ensures IsClean(Redact(value))
    decreases value
  {
    match value
    case Obj(fields) =>
      forall i | 0 <= i < |fields|
        ensures var r := Redact(value).fields;
                if IsSensitive(r[i].0) then r[i].1 == REDACTED else IsClean(r[i].1)
      {
        MembersByIndex(value, fields, i);
        assert fields[i] in fields;
        RedactCleans(fields[i].1);
      }
    case Arr(items) =>
      forall i | 0 <= i < |items| ensures IsClean(Redact(value).items[i]) {
        ItemsByIndex(value, items, i);
        RedactCleans(items[i]);
      }
    case _ =>
  }

  /** Redaction changes a value exactly when there is something to hide. */
  lemma {:induction false} RedactFixesClean(value: Json)
    ensures IsClean(value) <==> Redact(value) == value
    decreases value
  {
    match value
    case Obj(fields) =>
      var r := RedactMembers(value, fields);
      forall i | 0 <= i < |fields|
        ensures r[i] == fields[i] <==>
                if IsSensitive(fields[i].0) then fields[i].1 == REDACTED else IsClean(fields[i].1)
      {
        MembersByIndex(value, fields, i);
        assert fields[i] in fields;
        RedactFixesClean(fields[i].1);
      }
      assert r == fields <==> forall i :: 0 <= i < |fields| ==> r[i] == fields[i];
    case Arr(items) =>
      var r := RedactItems(value, items);
      forall i | 0 <= i < |items| ensures r[i] == items[i] <==> IsClean(items[i]) {
        ItemsByIndex(value, items, i);
        RedactFixesClean(items[i]);
      }
      assert r == items <==> forall i :: 0 <= i < |items| ==> r[i] == items[i];
    case _ =>
  }

  lemma {:induction false} DropKeepsMembers(fields: seq<(string, Json)>)
    ensures var r := DropForbidden(fields);
            forall m :: m in r <==> m in fields && Lower(m.0) !in FORBIDDEN
    ensures (forall m :: m in fields ==> Lower(m.0) !in FORBIDDEN) ==> DropForbidden(fields) == fields
  {
    if fields != [] {
      DropKeepsMembers(fields[1..]);
      assert forall m :: m in fields <==> m == fields[0] || m in fields[1..];
      assert fields == [fields[0]] + fields[1..];
    }
  }

  /** Sanitising twice is sanitising once, and the result is clean and free of forbidden keys. */
  lemma SanitizeIsIdempotent(state: Json)
    requires state.Obj?
    ensures Sanitize(Sanitize(state)) == Sanitize(state)
    ensures IsClean(Sanitize(state))
    ensures forall m :: m in Sanitize(state).fields
                        <==> m in Redact(state).fields
                             && Lower(m.0) !in ["token", "access_token", "refresh_token", "authorization"]
  {
    var fields := Redact(state).fields;
    var kept := DropForbidden(fields);
    RedactCleans(state);
    DropKeepsMembers(fields);
    assert IsClean(Sanitize(state)) by {
      forall i | 0 <= i < |kept|
        ensures if IsSensitive(kept[i].0) then kept[i].1 == REDACTED else IsClean(kept[i].1)
      {
        assert kept[i] in fields;
        var k :| 0 <= k < |fields| && fields[k] == kept[i];
      }
    }
    RedactFixesClean(Sanitize(state));
    DropKeepsMembers(kept);
  }

  /** What becomes of each member of an object: nothing but a mark is left under a key that has "token" or
      "authorization" in it, in whatever case, and what is under any other key is redacted in turn. */
  lemma MembersAreRedacted(fields: seq<(string, Json)>, i: nat)
    requires i < |fields|
    ensures var r, key := Redact(Obj(fields)), Lower(fields[i].0);
      && r.Obj? && |r.fields| == |fields|
      && r.fields[i] == (fields[i].0, if Mentions(key, "token") || Mentions(key, "authorization")
                                      then Str("<redacted>") else Redact(fields[i].1))
  {
    MembersByIndex(Obj(fields), fields, i);
    MentionsIsContains(Lower(fields[i].0), "token");
    MentionsIsContains(Lower(fields[i].0), "authorization");
    hide Mentions, Contains, Lower;
  }

  // ---- What sanitising leaves alone ----

  lemma ForbiddenIsSensitive(key: string)
    requires Lower(key) in FORBIDDEN
    ensures IsSensitive(key)
  {
    assert "token" <= "token"[0..] && "token" <= "access_token"[7..] && "token" <= "refresh_token"[8..]
           && "authorization" <= "authorization"[0..];
  }

  lemma {:induction false} LookupAfterDrop(fields: seq<(string, Json)>, key: string)
    requires !IsSensitive(key)
    ensures Lookup(DropForbidden(fields), key) == Lookup(fields, key)
  {
    if fields != [] {
      LookupAfterDrop(fields[1..], key);
      if Lower(fields[0].0) in FORBIDDEN {
        ForbiddenIsSensitive(fields[0].0);
        assert DropForbidden(fields) == DropForbidden(fields[1..]);
      } else {
        assert DropForbidden(fields)[1..] == DropForbidden(fields[1..]);
      }
    }
  }

  lemma {:induction false} LookupAfterRedact(value: Json, fields: seq<(string, Json)>, key: string)
    requires value.Obj? && forall i :: 0 <= i < |fields| ==> fields[i] in value.fields
    requires !IsSensitive(key)
    ensures Lookup(RedactMembers(value, fields), key) == Redact(Lookup(fields, key))
    decreases |fields|
  {
    hide IsSensitive;
    if fields != [] {
      assert fields[0] in value.fields;
      LookupAfterRedact(value, fields[1..], key);
      assert RedactMembers(value, fields)[1..] == RedactMembers(value, fields[1..]);
    }
  }

  /** Under every key that is not sensitive the record keeps its value, unless something inside it is hidden. */
  lemma SanitizeKeepsValues(state: Json, key: string)
    requires state.Obj? && !IsSensitive(key)
    ensures Get(Sanitize(state), key) == Redact(Get(state, key))
    ensures IsClean(Get(state, key)) <==> Get(Sanitize(state), key) == Get(state, key)
  {
    LookupAfterRedact(state, state.fields, key);
    LookupAfterDrop(Redact(state).fields, key);
    RedactFixesClean(Get(state, key));
  }

  lemma LetterRulesOut(text: string, word: string, c: char)
    requires c in word && c !in text
    ensures !Contains(text, word)
  {
    var k :| 0 <= k < |word| && word[k] == c;
    forall i | 0 <= i <= |text| && |word| <= |text| - i ensures !(word <= text[i..]) {
      assert text[i..][k] == text[i + k];
    }
  }

  /** A lower-case key without an o, or without both a k and a z, is not sensitive. */
  lemma PlainKey(key: string)
    requires forall c :: c in key ==> !('A' <= c <= 'Z')
    requires 'o' !in key || ('k' !in key && 'z' !in key)
    ensures !IsSensitive(key)
  {
    forall i | 0 <= i < |key| ensures LowerChar(key[i]) == key[i] {
      assert key[i] in key;
    }
    assert Lower(key) == key;
    LetterRulesOut(key, "token", if 'o' in key then 'k' else 'o');
    LetterRulesOut(key, "authorization", if 'o' in key then 'z' else 'o');
  }
}

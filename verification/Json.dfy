// JSON values as the client sees them after `response.json()`.
module Json {

  /** An object keeps its members in order; a lookup takes the first member of that name. */
  datatype Json =
    | Null
    | Bool(b: bool)
    | Num(n: int)
    | Str(s: string)
    | Arr(items: seq<Json>)
    | Obj(fields: seq<(string, Json)>)

  const EMPTY := Obj([])

  function Lookup(fields: seq<(string, Json)>, key: string): Json {
    if fields == [] then Null
    else if fields[0].0 == key then fields[0].1
    else Lookup(fields[1..], key)
  }

  /** `value.get(key)` on a dict, and null on everything else. */
  function Get(value: Json, key: string): Json {
    if value.Obj? then Lookup(value.fields, key) else Null
  }

  /** `value.get(key) if isinstance(value.get(key), dict) else {}`. */
  function Sub(value: Json, key: string): (r: Json)
    ensures r.Obj?
  {
    if Get(value, key).Obj? then Get(value, key) else EMPTY
  }

  /** The first value that is a non-empty string, or "". */
  function FirstString(values: seq<Json>): string {
    if values == [] then ""
    else if values[0].Str? && values[0].s != "" then values[0].s
    else FirstString(values[1..])
  }

  /** The first value that is a boolean, or false. */
  function FirstBool(values: seq<Json>): bool {
    if values == [] then false
    else if values[0].Bool? then values[0].b
    else FirstBool(values[1..])
  }

  /** A successful reply of the server: ok is true and the payload sits under "data". */
  function Unwrap(payload: Json): Json {
    if Get(payload, "ok") == Bool(true) && Get(payload, "data").Obj? then Get(payload, "data") else payload
  }

  function AsText(value: Json): string {
    if value.Str? then value.s else ""
  }

  /** Python's truth value of a JSON value. */
  predicate Truthy(value: Json) {
    match value
    case Null => false
    case Bool(b) => b
    case Num(n) => n != 0
    case Str(s) => s != ""
    case Arr(items) => items != []
    case Obj(fields) => fields != []
  }

  // ---- Values by their paths ----

  /** What stands at the end of a path of keys, or null. */
  function At(value: Json, path: seq<string>): Json
    decreases |path|
  {
    if path == [] then value else At(Get(value, path[0]), path[1..])
  }

  /** The text is the first non-empty one that stands at any of these paths, best first, and empty if there is none. */
  ghost predicate IsFirstText(value: Json, paths: seq<seq<string>>, text: string) {
    if text == "" then forall i :: 0 <= i < |paths| ==> AsText(At(value, paths[i])) == ""
    else
      exists i :: 0 <= i < |paths| && At(value, paths[i]) == Str(text)
                  && forall j :: 0 <= j < i ==> AsText(At(value, paths[j])) == ""
  }

  /** The same for flags; it is false if there is none. */
  ghost predicate IsFirstFlag(value: Json, paths: seq<seq<string>>, flag: bool) {
    || (!flag && forall i :: 0 <= i < |paths| ==> !At(value, paths[i]).Bool?)
    || exists i :: 0 <= i < |paths| && At(value, paths[i]) == Bool(flag)
                   && forall j :: 0 <= j < i ==> !At(value, paths[j]).Bool?
  }

  /** These values are what stands at these paths. */
  ghost predicate StandAt(value: Json, paths: seq<seq<string>>, values: seq<Json>) {
    |values| == |paths| && forall i :: 0 <= i < |paths| ==> values[i] == At(value, paths[i])
  }

  lemma {:induction false} FirstStringAt(values: seq<Json>)
    ensures var text := FirstString(values);
      if text == "" then forall i :: 0 <= i < |values| ==> AsText(values[i]) == ""
      else exists i :: 0 <= i < |values| && values[i] == Str(text) && forall j :: 0 <= j < i ==> AsText(values[j]) == ""
  {
    if values != [] {
      var rest := values[1..];
      FirstStringAt(rest);
      if FirstString(values) == "" {
        forall i | 0 <= i < |values| ensures AsText(values[i]) == "" {
          if i > 0 {
            assert values[i] == rest[i - 1];
          }
        }
      } else if AsText(values[0]) == "" {
        var i :| 0 <= i < |rest| && rest[i] == Str(FirstString(rest))
                 && forall j :: 0 <= j < i ==> AsText(rest[j]) == "";
        assert values[i + 1] == rest[i];
        forall j | 0 <= j < i + 1 ensures AsText(values[j]) == "" {
          if j > 0 {
            assert values[j] == rest[j - 1];
          }
        }
      } else {
        assert values[0] == Str(FirstString(values));
      }
    }
  }

  lemma {:induction false} FirstBoolAt(values: seq<Json>)
    ensures var flag := FirstBool(values);
      || (!flag && forall i :: 0 <= i < |values| ==> !values[i].Bool?)
      || exists i :: 0 <= i < |values| && values[i] == Bool(flag) && forall j :: 0 <= j < i ==> !values[j].Bool?
  {
    if values != [] {
      var rest := values[1..];
      FirstBoolAt(rest);
      var flag := FirstBool(values);
      if values[0].Bool? {
        assert values[0] == Bool(flag);
      } else if !flag && forall i :: 0 <= i < |rest| ==> !rest[i].Bool? {
        forall i | 0 <= i < |values| ensures !values[i].Bool? {
          if i > 0 {
            assert values[i] == rest[i - 1];
          }
        }
      } else {
        var i :| 0 <= i < |rest| && rest[i] == Bool(flag) && forall j :: 0 <= j < i ==> !rest[j].Bool?;
        assert values[i + 1] == rest[i];
        forall j | 0 <= j < i + 1 ensures !values[j].Bool? {
          if j > 0 {
            assert values[j] == rest[j - 1];
          }
        }
      }
    }
  }

  /** There is only one such text. */
  lemma FirstTextIsUnique(value: Json, paths: seq<seq<string>>, a: string, b: string)
    requires IsFirstText(value, paths, a) && IsFirstText(value, paths, b)
    ensures a == b
  {
    hide At;
    if a != "" {
      var i :| 0 <= i < |paths| && At(value, paths[i]) == Str(a)
               && forall j :: 0 <= j < i ==> AsText(At(value, paths[j])) == "";
      if b != "" {
        var k :| 0 <= k < |paths| && At(value, paths[k]) == Str(b)
                 && forall j :: 0 <= j < k ==> AsText(At(value, paths[j])) == "";
        assert i == k;
      }
    }
  }

  lemma TextIsFirst(value: Json, paths: seq<seq<string>>, values: seq<Json>)
    requires StandAt(value, paths, values)
    ensures IsFirstText(value, paths, FirstString(values))
  {
    hide At, FirstString;
    FirstStringAt(values);
    var text := FirstString(values);
    if text != "" {
      var i :| 0 <= i < |values| && values[i] == Str(text) && forall j :: 0 <= j < i ==> AsText(values[j]) == "";
      assert At(value, paths[i]) == Str(text);
    }
  }

  /** The same as IsFirstText, for a place of last resort that always holds a value. */
  ghost predicate IsFirstTextOr(value: Json, paths: seq<seq<string>>, otherwise: string, text: string) {
    if forall i :: 0 <= i < |paths| ==> AsText(At(value, paths[i])) == "" then text == otherwise
    else text != "" && IsFirstText(value, paths, text)
  }

  lemma {:induction false} DefaultIsLast(values: seq<Json>, otherwise: string)
    ensures FirstString(values + [Str(otherwise)])
            == if FirstString(values) != "" then FirstString(values) else otherwise
  {
    if values == [] {
      assert values + [Str(otherwise)] == [Str(otherwise)] && [Str(otherwise)][1..] == [];
    } else {
      DefaultIsLast(values[1..], otherwise);
      assert (values + [Str(otherwise)])[1..] == values[1..] + [Str(otherwise)];
    }
  }

  lemma TextOrDefault(value: Json, paths: seq<seq<string>>, values: seq<Json>, otherwise: string)
    requires StandAt(value, paths, values)
    ensures IsFirstTextOr(value, paths, otherwise, FirstString(values + [Str(otherwise)]))
  {
    hide At, FirstString;
    DefaultIsLast(values, otherwise);
    TextIsFirst(value, paths, values);
  }

  lemma FlagIsFirst(value: Json, paths: seq<seq<string>>, values: seq<Json>)
    requires StandAt(value, paths, values)
    ensures IsFirstFlag(value, paths, FirstBool(values))
  {
    hide At, FirstBool;
    FirstBoolAt(values);
    var flag := FirstBool(values);
    if flag || exists i :: 0 <= i < |values| && values[i].Bool? {
      var i :| 0 <= i < |values| && values[i] == Bool(flag) && forall j :: 0 <= j < i ==> !values[j].Bool?;
      assert At(value, paths[i]) == Bool(flag);
    }
  }

  /** An absent section reads like an empty one. */
  lemma SubReads(value: Json, key: string, below: string)
    ensures Get(Sub(value, key), below) == Get(Get(value, key), below)
  {
  }

  lemma AtOne(value: Json, a: string)
    ensures At(value, [a]) == Get(value, a)
  {
    assert [a][1..] == [];
  }

  lemma AtTwo(value: Json, a: string, b: string)
    ensures At(value, [a, b]) == Get(Sub(value, a), b)
  {
    hide Get;
    assert [a, b][1..] == [b];
    AtOne(Get(value, a), b);
    SubReads(value, a, b);
  }

  lemma AtThree(value: Json, a: string, b: string, c: string)
    ensures At(value, [a, b, c]) == Get(Sub(Sub(value, a), b), c)
  {
    hide Get;
    assert [a, b, c][1..] == [b, c];
    AtTwo(Get(value, a), b, c);
    SubReads(value, a, b);
  }

  /** Python finds exactly these values false. */
  lemma TruthyUnlessEmpty(value: Json)
    ensures Truthy(value) <==> value !in [Null, Bool(false), Num(0), Str(""), Arr([]), Obj([])]
  {
  }

  /** No value is found exactly when none is a non-empty string. */
  lemma {:induction false} FirstStringMisses(values: seq<Json>)
    ensures FirstString(values) == "" <==> forall value :: value in values ==> AsText(value) == ""
  {
    if values != [] {
      FirstStringMisses(values[1..]);
      assert values[0] in values && AsText(values[0]) != "" <==> values[0].Str? && values[0].s != "";
      assert forall value :: value in values <==> value == values[0] || value in values[1..];
      if AsText(values[0]) == "" {
        assert FirstString(values) == FirstString(values[1..]);
      }
    }
  }

  /** A key without an earlier namesake is found where it stands. */
  lemma {:induction false} LookupAt(fields: seq<(string, Json)>, k: nat)
    requires k < |fields| && forall i :: 0 <= i < k ==> fields[i].0 != fields[k].0
    ensures Lookup(fields, fields[k].0) == fields[k].1
  {
    if k > 0 {
      LookupAt(fields[1..], k - 1);
    }
  }

  lemma LookupFirst(key: string, value: Json, rest: seq<(string, Json)>)
    ensures Lookup([(key, value)] + rest, key) == value
    ensures forall other :: other != key ==> Lookup([(key, value)] + rest, other) == Lookup(rest, other)
  {
    assert ([(key, value)] + rest)[1..] == rest;
  }

  lemma {:induction false} MissingReads(fields: seq<(string, Json)>, key: string)
    requires forall i :: 0 <= i < |fields| ==> fields[i].0 != key
    ensures Lookup(fields, key) == Null
  {
    if fields != [] {
      MissingReads(fields[1..], key);
    }
  }
}

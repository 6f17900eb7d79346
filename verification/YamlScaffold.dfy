// The declarations that the scaffold writes, and what the parser makes of them.
module YamlScaffold {
  import opened Text
  import opened YamlDocuments
  import opened YamlRoundTrip
  import opened YamlSubset

  // ---- The documents ----

  const SCHEMA_VERSION := "v0.1"

  type Fields = seq<(string, string)>

  /** One line `key: text` for each field. */
  function FieldLines(n: nat, fields: Fields): seq<string> {
    if fields == [] then [] else [Spaces(n) + (fields[0].0 + ": " + fields[0].1)] + FieldLines(n, fields[1..])
  }

  function Quoted(s: string): string {
    "\"" + s + "\""
  }

  function KeyholeRepo(repo: string): Fields {
    [("name", repo), ("kind", "vertical"), ("owner", "Keyhole Solution Foundation"), ("visibility", "private")]
  }

  function KeyholeSdk(timestamp: string): Fields {
    [("initialized_by", "keyhole init vertical"), ("initialized_at", Quoted(timestamp)), ("template", "default")]
  }

  /** `_render_keyhole_yaml`, line by line. */
  function RenderKeyhole(repo: string, timestamp: string): seq<string> {
    FieldLines(0, [("schema_version", SCHEMA_VERSION)])
    + (["repo:"] + (FieldLines(2, KeyholeRepo(repo))
    + (["sdk:"] + (FieldLines(2, KeyholeSdk(timestamp))
    + (["context:"] + (FieldLines(2, [("mode", "explicit")])
    + (["proof:"] + FieldLines(2, [("enabled", "true")]))))))))
  }

  function ContractFields(repo: string): Fields {
    [("schema_version", SCHEMA_VERSION), ("repo", repo), ("parent_repo", "null"), ("produces", "[]"),
     ("required_tests", "[]"), ("local_invariants", "[]"), ("compatibility_contracts", "[]")]
  }

  /** `_render_governance_contract`. */
  function RenderContract(repo: string): seq<string> {
    FieldLines(0, ContractFields(repo))
  }

  function PassportFields(repo: string): Fields {
    [("schema_version", SCHEMA_VERSION), ("capabilities", "[]"), ("owner_repo", repo), ("visibility", "private"),
     ("proofs", "[]")]
  }

  function TrustFields(): Fields {
    [("sbom_digest", "null"), ("attestation_digest", "null"), ("transparency_ref", "null")]
  }

  /** `_render_capability_passport`. */
  function RenderPassport(repo: string): seq<string> {
    FieldLines(0, PassportFields(repo)) + (["trust:"] + FieldLines(2, TrustFields()))
  }

  function DependenciesFields(): Fields {
    [("schema_version", SCHEMA_VERSION), ("dependencies", "[]")]
  }

  /** `_render_dependencies`. */
  function RenderDependencies(): seq<string> {
    FieldLines(0, DependenciesFields())
  }

  // ---- Which texts can stand in them ----

  /** A repository name that stands as a scalar on its line. */
  predicate IsName(repo: string) {
    IsPlain(repo) && repo !in BLOCK_MARKS && IsOneLine(repo)
  }

  /** Neither `int` nor `float` accepts a text that begins with one of these. */
  ghost predicate RejectsWords(numbers: Numbers) {
    forall text: string :: text != "" && text[0] in "[Kdekpv" ==> !numbers(text)
  }

  /** Letters and underscores only. */
  predicate IsWord(s: string) {
    s != "" && forall i :: 0 <= i < |s| ==> 'a' <= s[i] <= 'z' || s[i] == '_'
  }

  lemma {:induction false} WordHasNoColon(s: string)
    requires forall i :: 0 <= i < |s| ==> s[i] != ':'
    ensures !HasColon(s)
  {
    if s != "" {
      WordHasNoColon(s[1..]);
    }
  }

  lemma EndsKept(s: string)
    requires s != "" && !IsSpace(s[0]) && !IsSpace(s[|s| - 1])
    ensures IsPlain(s)
  {
  }

  lemma WordIsKey(s: string)
    requires IsWord(s)
    ensures IsKey(s)
  {
    WordHasNoColon(s);
    EndsKept(s);
    assert s[0] != "#"[0] && s[0] != "- "[0];
  }

  lemma NotABlockMark(s: string)
    requires s != "" && s[0] != '>' && s[0] != '|'
    ensures s !in BLOCK_MARKS
  {
    assert forall mark :: mark in BLOCK_MARKS ==> mark[0] == '>' || mark[0] == '|';
  }

  /** On a line of its own this text is read as this value. */
  ghost predicate Stands(numbers: Numbers, text: string, value: Node) {
    WellFormed(Leaf(text)) && IsOneLine(text) && Scalar(numbers, text) == value
  }

  /** A text that `_yaml_scalar` leaves unchanged. */
  lemma PlainWord(numbers: Numbers, s: string)
    requires RejectsWords(numbers)
    requires s != "" && s[0] in "[Kdekpv" && !IsSpace(s[|s| - 1]) && IsOneLine(s)
    ensures Stands(numbers, s, Word(s))
  {
    assert s[0] !in ">|ntfNTF'\"";
    EndsKept(s);
    NotABlockMark(s);
    assert s !in ["null", "Null", "NULL"] && s !in ["true", "True", "TRUE"] && s !in ["false", "False", "FALSE"] by {
      assert "null"[0] == 'n' && "Null"[0] == 'N' && "NULL"[0] == 'N' && "true"[0] == 't' && "True"[0] == 'T'
             && "TRUE"[0] == 'T' && "false"[0] == 'f' && "False"[0] == 'F' && "FALSE"[0] == 'F';
    }
  }

  lemma NullAndTrue(numbers: Numbers)
    ensures Stands(numbers, "null", Nothing) && Stands(numbers, "true", Flag(true))
  {
    EndsKept("null");
    EndsKept("true");
    NotABlockMark("null");
    NotABlockMark("true");
    assert "true"[0] != "null"[0] && "true"[0] != "Null"[0] && "true"[0] != "NULL"[0];
  }

  /** A quoted text loses its quotes, whatever it holds. */
  lemma QuotedText(numbers: Numbers, s: string)
    requires IsOneLine(s)
    ensures Stands(numbers, Quoted(s), Word(s))
  {
    var quoted := Quoted(s);
    EndsKept(quoted);
    NotABlockMark(quoted);
    assert quoted[0] == '"' && quoted[|quoted| - 1] == '"';
    assert quoted[1..|quoted| - 1] == s;
    assert forall word :: word in ["null", "Null", "NULL", "true", "True", "TRUE", "false", "False", "FALSE"]
             ==> word[0] != '"';
  }

  lemma NameStands(numbers: Numbers, repo: string)
    requires IsName(repo)
    ensures Stands(numbers, repo, Scalar(numbers, repo))
  {
  }

  // ---- Building a document from its last line up ----

  /** These lines are the print of the entries, which may follow the keys in `used` and mean `pairs`. */
  ghost predicate Reads(numbers: Numbers, n: nat, used: set<string>, entries: Entries, lines: seq<string>,
                        pairs: seq<(string, Node)>) {
    Print(entries, n) == lines && WellFormedEntries(entries, used) && Pairs(numbers, entries) == pairs
  }

  /** Keys that are words and occur once, with texts that stand on their lines for these values. */
  ghost predicate FieldsStand(numbers: Numbers, fields: Fields, pairs: seq<(string, Node)>) {
    && |fields| == |pairs|
    && (forall i :: 0 <= i < |fields| ==> IsWord(fields[i].0) && pairs[i].0 == fields[i].0)
    && (forall i :: 0 <= i < |fields| ==> Stands(numbers, fields[i].1, pairs[i].1))
    && forall i, j :: 0 <= i < j < |fields| ==> fields[i].0 != fields[j].0
  }

  predicate Avoids(fields: Fields, used: set<string>) {
    forall i :: 0 <= i < |fields| ==> fields[i].0 !in used
  }

  function FieldKeys(fields: Fields): (r: set<string>)
    ensures forall key :: key in r <==> exists i :: 0 <= i < |fields| && fields[i].0 == key
  {
    set i | 0 <= i < |fields| :: fields[i].0
  }

  lemma NoFieldKeys(used: set<string>)
    ensures used + FieldKeys([]) == used
  {
  }

  lemma FirstKey(used: set<string>, fields: Fields)
    requires fields != []
    ensures used + FieldKeys(fields) == used + {fields[0].0} + FieldKeys(fields[1..])
  {
    assert FieldKeys(fields) == {fields[0].0} + FieldKeys(fields[1..]);
  }

  function Leaves(fields: Fields, rest: Entries): Entries {
    if fields == [] then rest else Entry(fields[0].0, Leaf(fields[0].1), Leaves(fields[1..], rest))
  }

  lemma {:induction false} LeavesRead(numbers: Numbers, n: nat, used: set<string>, fields: Fields,
                                      values: seq<(string, Node)>, rest: Entries, lines: seq<string>,
                                      pairs: seq<(string, Node)>)
    requires FieldsStand(numbers, fields, values) && Avoids(fields, used)
    requires Reads(numbers, n, used + FieldKeys(fields), rest, lines, pairs)
    ensures Reads(numbers, n, used, Leaves(fields, rest), FieldLines(n, fields) + lines, values + pairs)
    decreases |fields|
  {
    hide IsWord, IsKey, Scalar, Spaces, Reads, Stands, FieldKeys;
    if fields == [] {
      NoFieldKeys(used);
      assert FieldLines(n, fields) + lines == lines && values + pairs == pairs;
    } else {
      var key := fields[0].0;
      FirstKey(used, fields);
      LeavesRead(numbers, n, used + {key}, fields[1..], values[1..], rest, lines, pairs);
      FirstLeafReads(numbers, n, used, key, fields[0].1, values[0].1, Leaves(fields[1..], rest),
                     FieldLines(n, fields[1..]) + lines, values[1..] + pairs);
      FirstOnTop(Spaces(n) + (key + ": " + fields[0].1), FieldLines(n, fields[1..]), lines);
      FirstOnTop((key, values[0].1), values[1..], pairs);
      assert values == [(key, values[0].1)] + values[1..];
    }
  }

  lemma FirstOnTop<T>(first: T, middle: seq<T>, last: seq<T>)
    ensures [first] + middle + last == [first] + (middle + last)
  {
  }

  lemma FirstLeafReads(numbers: Numbers, n: nat, used: set<string>, key: string, text: string, value: Node,
                       rest: Entries, lines: seq<string>, pairs: seq<(string, Node)>)
    requires IsWord(key) && key !in used && Stands(numbers, text, value)
    requires Reads(numbers, n, used + {key}, rest, lines, pairs)
    ensures Reads(numbers, n, used, Entry(key, Leaf(text), rest), [Spaces(n) + (key + ": " + text)] + lines,
                  [(key, value)] + pairs)
  {
    hide IsWord, IsKey, Scalar, Spaces, IsPlain, IsOneLine;
    WordIsKey(key);
    var whole := Entry(key, Leaf(text), rest);
    assert Print(whole, n) == [Spaces(n) + (key + ": " + text)] + Print(rest, n);
    assert WellFormed(Leaf(text)) && Meaning(numbers, Leaf(text)) == value;
    assert WellFormedEntries(whole, used);
    assert Pairs(numbers, whole) == [(key, value)] + Pairs(numbers, rest);
  }

  lemma OnlyLeavesRead(numbers: Numbers, n: nat, fields: Fields, values: seq<(string, Node)>)
    requires FieldsStand(numbers, fields, values)
    ensures Reads(numbers, n, {}, Leaves(fields, End), FieldLines(n, fields), values)
  {
    hide Leaves, FieldLines, FieldsStand;
    assert Reads(numbers, n, {} + FieldKeys(fields), End, [], []);
    LeavesRead(numbers, n, {}, fields, values, End, [], []);
    assert FieldLines(n, fields) + [] == FieldLines(n, fields) && values + [] == values;
  }

  /** A key whose value stands below it. */
  lemma BranchReads(numbers: Numbers, used: set<string>, key: string, below: Fields, values: seq<(string, Node)>,
                    rest: Entries, lines: seq<string>, pairs: seq<(string, Node)>)
    requires IsWord(key) && key !in used && FieldsStand(numbers, below, values)
    requires Reads(numbers, 0, used + {key}, rest, lines, pairs)
    ensures Reads(numbers, 0, used, Entry(key, Branch(Leaves(below, End)), rest),
                  [key + ":"] + (FieldLines(2, below) + lines), [(key, Map(values))] + pairs)
  {
    hide IsWord, IsKey, FieldsStand, Leaves, FieldLines;
    WordIsKey(key);
    OnlyLeavesRead(numbers, 2, below, values);
    var value := Branch(Leaves(below, End));
    assert Spaces(0) + (key + ":") == key + ":";
    assert WellFormed(value) && Meaning(numbers, value) == Map(values);
    assert PrintBelow(value, 2) == FieldLines(2, below);
  }

  /** The document is read back if it stands on lines of its own. */
  lemma ReadsBack(numbers: Numbers, entries: Entries, lines: seq<string>, pairs: seq<(string, Node)>)
    requires Reads(numbers, 0, {}, entries, lines, pairs)
    requires forall line :: line in lines ==> IsOneLine(line)
    ensures LoadText(numbers, Unlines(lines)) == Map(pairs)
  {
    hide Print, WellFormedEntries, Pairs, LoadText, IsOneLine;
    LoadTextInvertsPrint(numbers, entries);
  }

  lemma {:induction false} FieldsFit(numbers: Numbers, n: nat, fields: Fields, values: seq<(string, Node)>)
    requires FieldsStand(numbers, fields, values)
    ensures forall line :: line in FieldLines(n, fields) ==> IsOneLine(line)
    decreases |fields|
  {
    hide Scalar, WellFormed;
    if fields != [] {
      FieldsFit(numbers, n, fields[1..], values[1..]);
      SpacesFit(n);
      assert IsWord(fields[0].0) && Stands(numbers, fields[0].1, values[0].1);
    }
  }

  lemma {:induction false} SpacesFit(n: nat)
    ensures IsOneLine(Spaces(n))
  {
    if n > 0 {
      SpacesFit(n - 1);
    }
  }

  lemma BlockReadsBack(numbers: Numbers, fields: Fields, values: seq<(string, Node)>)
    requires FieldsStand(numbers, fields, values)
    ensures LoadText(numbers, Unlines(FieldLines(0, fields))) == Map(values)
  {
    hide FieldsStand, Reads;
    OnlyLeavesRead(numbers, 0, fields, values);
    FieldsFit(numbers, 0, fields, values);
    ReadsBack(numbers, Leaves(fields, End), FieldLines(0, fields), values);
  }

  // ---- Main results ----

  lemma SharedTexts(numbers: Numbers)
    requires RejectsWords(numbers)
    ensures Stands(numbers, SCHEMA_VERSION, Word(SCHEMA_VERSION)) && Stands(numbers, "[]", Word("[]"))
    ensures Stands(numbers, "null", Nothing) && Stands(numbers, "true", Flag(true))
  {
    hide Stands, RejectsWords;
    PlainWord(numbers, SCHEMA_VERSION);
    PlainWord(numbers, "[]");
    NullAndTrue(numbers);
  }

  function DependenciesPairs(): seq<(string, Node)> {
    [("schema_version", Word("v0.1")), ("dependencies", Word("[]"))]
  }

  lemma DependenciesKeys()
    ensures IsWord("schema_version") && IsWord("dependencies")
  {
  }

  lemma DependenciesStand(numbers: Numbers)
    requires RejectsWords(numbers)
    ensures FieldsStand(numbers, DependenciesFields(), DependenciesPairs())
  {
    hide IsWord, Stands;
    DependenciesKeys();
    SharedTexts(numbers);
  }

  lemma DependenciesReadBack(numbers: Numbers)
    requires RejectsWords(numbers)
    ensures LoadText(numbers, Unlines(RenderDependencies())) == Map(DependenciesPairs())
  {
    hide FieldsStand, DependenciesFields, DependenciesPairs, FieldLines;
    DependenciesStand(numbers);
    BlockReadsBack(numbers, DependenciesFields(), DependenciesPairs());
  }

  function ContractPairs(numbers: Numbers, repo: string): seq<(string, Node)> {
    [("schema_version", Word("v0.1")), ("repo", Scalar(numbers, repo)), ("parent_repo", Nothing),
     ("produces", Word("[]")), ("required_tests", Word("[]")), ("local_invariants", Word("[]")),
     ("compatibility_contracts", Word("[]"))]
  }

  lemma ContractKeys()
    ensures IsWord("schema_version") && IsWord("repo") && IsWord("parent_repo") && IsWord("produces")
            && IsWord("required_tests") && IsWord("local_invariants") && IsWord("compatibility_contracts")
  {
  }

  lemma ContractStands(numbers: Numbers, repo: string)
    requires RejectsWords(numbers) && IsName(repo)
    ensures FieldsStand(numbers, ContractFields(repo), ContractPairs(numbers, repo))
  {
    hide IsWord, Stands, IsName, Scalar;
    ContractKeys();
    SharedTexts(numbers);
    NameStands(numbers, repo);
  }

  /** An empty list is read as the text "[]"; the repository's name is read as a scalar. */
  lemma ContractReadsBack(numbers: Numbers, repo: string)
    requires RejectsWords(numbers) && IsName(repo)
    ensures LoadText(numbers, Unlines(RenderContract(repo))) == Map(ContractPairs(numbers, repo))
  {
    hide FieldsStand, ContractFields, ContractPairs, FieldLines;
    ContractStands(numbers, repo);
    BlockReadsBack(numbers, ContractFields(repo), ContractPairs(numbers, repo));
  }

  // ---- The documents with nested maps ----

  /** Entries for the branches of a document, each a key and the fields below it. */
  datatype Branches = NoBranches | Below(key: string, fields: Fields, values: seq<(string, Node)>, more: Branches)

  function BranchLines(branches: Branches): seq<string> {
    match branches
    case NoBranches => []
    case Below(key, fields, _, more) => [key + ":"] + (FieldLines(2, fields) + BranchLines(more))
  }

  function BranchEntries(branches: Branches): Entries {
    match branches
    case NoBranches => End
    case Below(key, fields, _, more) => Entry(key, Branch(Leaves(fields, End)), BranchEntries(more))
  }

  function BranchPairs(branches: Branches): seq<(string, Node)> {
    match branches
    case NoBranches => []
    case Below(key, _, values, more) => [(key, Map(values))] + BranchPairs(more)
  }

  ghost predicate BranchesStand(numbers: Numbers, branches: Branches, used: set<string>) {
    match branches
    case NoBranches => true
    case Below(key, fields, values, more) =>
      && IsWord(key) && key !in used && FieldsStand(numbers, fields, values)
      && BranchesStand(numbers, more, used + {key})
  }

  lemma {:induction false} BranchesRead(numbers: Numbers, used: set<string>, branches: Branches)
    requires BranchesStand(numbers, branches, used)
    ensures Reads(numbers, 0, used, BranchEntries(branches), BranchLines(branches), BranchPairs(branches))
    ensures forall line :: line in BranchLines(branches) ==> IsOneLine(line)
    decreases branches
  {
    hide FieldsStand, FieldLines, Leaves;
    if branches.Below? {
      BranchesRead(numbers, used + {branches.key}, branches.more);
      hide Reads;
      BranchReads(numbers, used, branches.key, branches.fields, branches.values, BranchEntries(branches.more),
                  BranchLines(branches.more), BranchPairs(branches.more));
      FieldsFit(numbers, 2, branches.fields, branches.values);
      assert IsOneLine(branches.key + ":");
    }
  }

  /** A document of fields, and below them branches of fields. */
  lemma DocumentReadsBack(numbers: Numbers, fields: Fields, values: seq<(string, Node)>, branches: Branches)
    requires FieldsStand(numbers, fields, values) && BranchesStand(numbers, branches, FieldKeys(fields))
    ensures LoadText(numbers, Unlines(FieldLines(0, fields) + BranchLines(branches)))
            == Map(values + BranchPairs(branches))
  {
    hide FieldsStand, BranchesStand, Reads, FieldLines, BranchLines, Leaves, FieldKeys;
    assert {} + FieldKeys(fields) == FieldKeys(fields);
    BranchesRead(numbers, FieldKeys(fields), branches);
    LeavesRead(numbers, 0, {}, fields, values, BranchEntries(branches), BranchLines(branches), BranchPairs(branches));
    FieldsFit(numbers, 0, fields, values);
    ReadsBack(numbers, Leaves(fields, BranchEntries(branches)), FieldLines(0, fields) + BranchLines(branches),
              values + BranchPairs(branches));
  }

  function PassportPairs(numbers: Numbers, repo: string): seq<(string, Node)> {
    [("schema_version", Word("v0.1")), ("capabilities", Word("[]")), ("owner_repo", Scalar(numbers, repo)),
     ("visibility", Word("private")), ("proofs", Word("[]"))]
  }

  function TrustPairs(): seq<(string, Node)> {
    [("sbom_digest", Nothing), ("attestation_digest", Nothing), ("transparency_ref", Nothing)]
  }

  lemma PassportKeys()
    ensures IsWord("schema_version") && IsWord("capabilities") && IsWord("owner_repo") && IsWord("visibility")
            && IsWord("proofs") && IsWord("trust")
  {
  }

  lemma TrustKeys()
    ensures IsWord("sbom_digest") && IsWord("attestation_digest") && IsWord("transparency_ref")
  {
  }

  lemma TrustStands(numbers: Numbers)
    requires RejectsWords(numbers)
    ensures FieldsStand(numbers, TrustFields(), TrustPairs())
  {
    hide IsWord, Stands;
    TrustKeys();
    SharedTexts(numbers);
  }

  lemma PassportStands(numbers: Numbers, repo: string)
    requires RejectsWords(numbers) && IsName(repo)
    ensures FieldsStand(numbers, PassportFields(repo), PassportPairs(numbers, repo))
    ensures "trust" !in FieldKeys(PassportFields(repo))
  {
    hide IsWord, Stands, IsName, Scalar;
    PassportKeys();
    SharedTexts(numbers);
    PrivateStands(numbers);
    NameStands(numbers, repo);
  }

  lemma PrivateStands(numbers: Numbers)
    requires RejectsWords(numbers)
    ensures Stands(numbers, "private", Word("private"))
  {
    hide Stands, RejectsWords;
    PlainWord(numbers, "private");
  }

  lemma PassportReadsBack(numbers: Numbers, repo: string)
    requires RejectsWords(numbers) && IsName(repo)
    ensures LoadText(numbers, Unlines(RenderPassport(repo)))
            == Map(PassportPairs(numbers, repo) + [("trust", Map(TrustPairs()))])
  {
    hide FieldsStand, FieldKeys, PassportFields, TrustFields, PassportPairs, TrustPairs, FieldLines, IsWord;
    PassportKeys();
    TrustStands(numbers);
    PassportStands(numbers, repo);
    var branches := Below("trust", TrustFields(), TrustPairs(), NoBranches);
    DocumentReadsBack(numbers, PassportFields(repo), PassportPairs(numbers, repo), branches);
    assert BranchPairs(branches) == [("trust", Map(TrustPairs()))];
    assert BranchLines(branches) == ["trust:"] + FieldLines(2, TrustFields()) by {
      assert "trust" + ":" == "trust:";
      assert FieldLines(2, TrustFields()) + [] == FieldLines(2, TrustFields());
    }
  }

  function KeyholeRepoPairs(numbers: Numbers, repo: string): seq<(string, Node)> {
    [("name", Scalar(numbers, repo)), ("kind", Word("vertical")), ("owner", Word("Keyhole Solution Foundation")),
     ("visibility", Word("private"))]
  }

  function KeyholeSdkPairs(timestamp: string): seq<(string, Node)> {
    [("initialized_by", Word("keyhole init vertical")), ("initialized_at", Word(timestamp)),
     ("template", Word("default"))]
  }

  lemma KeyholeTexts(numbers: Numbers)
    requires RejectsWords(numbers)
    ensures Stands(numbers, "vertical", Word("vertical")) && Stands(numbers, "default", Word("default"))
    ensures Stands(numbers, "explicit", Word("explicit"))
  {
    hide Stands, RejectsWords;
    PlainWord(numbers, "vertical");
    PlainWord(numbers, "default");
    PlainWord(numbers, "explicit");
  }

  lemma OwnerStands(numbers: Numbers)
    requires RejectsWords(numbers)
    ensures Stands(numbers, "Keyhole Solution Foundation", Word("Keyhole Solution Foundation"))
  {
    hide Stands, RejectsWords;
    PlainWord(numbers, "Keyhole Solution Foundation");
  }

  lemma InitializerStands(numbers: Numbers)
    requires RejectsWords(numbers)
    ensures Stands(numbers, "keyhole init vertical", Word("keyhole init vertical"))
  {
    hide Stands, RejectsWords;
    PlainWord(numbers, "keyhole init vertical");
  }

  lemma KeyholeKeys()
    ensures IsWord("schema_version") && IsWord("repo") && IsWord("sdk") && IsWord("context") && IsWord("proof")
  {
  }

  lemma KeyholeRepoKeys()
    ensures IsWord("name") && IsWord("kind") && IsWord("owner") && IsWord("visibility")
  {
  }

  lemma KeyholeSdkKeys()
    ensures IsWord("initialized_by") && IsWord("initialized_at") && IsWord("template")
    ensures "initialized_by" != "initialized_at" && IsWord("mode") && IsWord("enabled")
  {
    assert "initialized_by"[12] != "initialized_at"[12];
  }

  lemma KeyholeRepoStands(numbers: Numbers, repo: string)
    requires RejectsWords(numbers) && IsName(repo)
    ensures FieldsStand(numbers, KeyholeRepo(repo), KeyholeRepoPairs(numbers, repo))
  {
    hide IsWord, Stands, IsName, Scalar;
    KeyholeRepoKeys();
    assert "name"[0] != "kind"[0];
    KeyholeTexts(numbers);
    OwnerStands(numbers);
    PrivateStands(numbers);
    NameStands(numbers, repo);
  }

  lemma KeyholeSdkStands(numbers: Numbers, timestamp: string)
    requires RejectsWords(numbers) && IsOneLine(timestamp)
    ensures FieldsStand(numbers, KeyholeSdk(timestamp), KeyholeSdkPairs(timestamp))
  {
    hide IsWord, Stands, IsOneLine, Quoted;
    KeyholeSdkKeys();
    KeyholeTexts(numbers);
    InitializerStands(numbers);
    QuotedText(numbers, timestamp);
  }

  lemma KeyholeSmallBlocks(numbers: Numbers)
    requires RejectsWords(numbers)
    ensures FieldsStand(numbers, [("schema_version", SCHEMA_VERSION)], [("schema_version", Word(SCHEMA_VERSION))])
    ensures FieldsStand(numbers, [("mode", "explicit")], [("mode", Word("explicit"))])
    ensures FieldsStand(numbers, [("enabled", "true")], [("enabled", Flag(true))])
    ensures FieldKeys([("schema_version", SCHEMA_VERSION)]) == {"schema_version"}
  {
    hide IsWord, Stands;
    KeyholeKeys();
    KeyholeSdkKeys();
    SharedTexts(numbers);
    KeyholeTexts(numbers);
    assert [("schema_version", SCHEMA_VERSION)][0].0 == "schema_version";
  }

  function KeyholeBranches(numbers: Numbers, repo: string, timestamp: string): Branches {
    Below("repo", KeyholeRepo(repo), KeyholeRepoPairs(numbers, repo),
    Below("sdk", KeyholeSdk(timestamp), KeyholeSdkPairs(timestamp),
    Below("context", [("mode", "explicit")], [("mode", Word("explicit"))],
    Below("proof", [("enabled", "true")], [("enabled", Flag(true))], NoBranches))))
  }

  lemma KeyholeBranchesStand(numbers: Numbers, repo: string, timestamp: string)
    requires RejectsWords(numbers) && IsName(repo) && IsOneLine(timestamp)
    ensures BranchesStand(numbers, KeyholeBranches(numbers, repo, timestamp), {"schema_version"})
  {
    hide IsWord, FieldsStand, IsName, IsOneLine, KeyholeRepo, KeyholeRepoPairs, KeyholeSdk, KeyholeSdkPairs;
    KeyholeKeys();
    KeyholeRepoStands(numbers, repo);
    KeyholeSdkStands(numbers, timestamp);
    KeyholeSmallBlocks(numbers);
    var all := KeyholeBranches(numbers, repo, timestamp);
    var u1 := {"schema_version"} + {"repo"};
    var u2 := u1 + {"sdk"};
    var u3 := u2 + {"context"};
    assert "repo" != "context" && "sdk" !in u1 && "context" !in u2 && "proof" !in u3;
    assert BranchesStand(numbers, NoBranches, u3 + {"proof"});
    assert BranchesStand(numbers, all.more.more.more, u3);
    assert BranchesStand(numbers, all.more.more, u2);
    assert BranchesStand(numbers, all.more, u1);
  }

  lemma KeyholeLines(numbers: Numbers, repo: string, timestamp: string)
    ensures RenderKeyhole(repo, timestamp)
            == FieldLines(0, [("schema_version", SCHEMA_VERSION)])
               + BranchLines(KeyholeBranches(numbers, repo, timestamp))
  {
    hide FieldLines, KeyholeRepo, KeyholeSdk;
    var all := KeyholeBranches(numbers, repo, timestamp);
    assert "repo" + ":" == "repo:" && "sdk" + ":" == "sdk:" && "context" + ":" == "context:";
    assert "proof" + ":" == "proof:";
    var b4 := all.more.more.more;
    var enabled := FieldLines(2, [("enabled", "true")]);
    assert BranchLines(b4) == ["proof:"] + enabled by {
      assert BranchLines(NoBranches) == [];
      assert enabled + [] == enabled;
    }
    assert BranchLines(all.more.more) == ["context:"] + (FieldLines(2, [("mode", "explicit")]) + BranchLines(b4));
    assert BranchLines(all.more) == ["sdk:"] + (FieldLines(2, KeyholeSdk(timestamp)) + BranchLines(all.more.more));
    assert BranchLines(all) == ["repo:"] + (FieldLines(2, KeyholeRepo(repo)) + BranchLines(all.more));
  }

  /** The timestamp loses its quotes and the flag is a boolean. */
  lemma KeyholeReadsBack(numbers: Numbers, repo: string, timestamp: string)
    requires RejectsWords(numbers) && IsName(repo) && IsOneLine(timestamp)
    ensures LoadText(numbers, Unlines(RenderKeyhole(repo, timestamp)))
            == Map([("schema_version", Word("v0.1")), ("repo", Map(KeyholeRepoPairs(numbers, repo))),
                    ("sdk", Map(KeyholeSdkPairs(timestamp))), ("context", Map([("mode", Word("explicit"))])),
                    ("proof", Map([("enabled", Flag(true))]))])
  {
    hide FieldsStand, FieldLines, FieldKeys, BranchesStand, BranchLines, KeyholeRepoPairs, KeyholeSdkPairs,
         RenderKeyhole;
    KeyholeSmallBlocks(numbers);
    KeyholeBranchesStand(numbers, repo, timestamp);
    KeyholeLines(numbers, repo, timestamp);
    var all := KeyholeBranches(numbers, repo, timestamp);
    DocumentReadsBack(numbers, [("schema_version", SCHEMA_VERSION)], [("schema_version", Word(SCHEMA_VERSION))], all);
    assert BranchPairs(all.more.more.more) == [("proof", Map([("enabled", Flag(true))]))];
    assert BranchPairs(all.more.more)
           == [("context", Map([("mode", Word("explicit"))]))] + BranchPairs(all.more.more.more);
    assert BranchPairs(all) == [("repo", Map(KeyholeRepoPairs(numbers, repo)))] + BranchPairs(all.more);
  }
}

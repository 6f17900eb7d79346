// The proxy's URL helpers, on Python's way of taking a URL apart.
module ProxyUrls {
  import opened Options
  import opened Text

  /** The parts that the proxy reads. */
  datatype Url = Url(scheme: string, netloc: string, path: string, query: string)

  // ---- urlparse ----

  function DropControls(s: string): string {
    if s != "" && s[0] <= ' ' then DropControls(s[1..]) else s
  }

  function DropBreaks(s: string): (r: string)
    ensures |r| <= |s|
  {
    if s == "" then ""
    else if s[0] == '\t' || s[0] == '\r' || s[0] == '\n' then DropBreaks(s[1..])
    else [s[0]] + DropBreaks(s[1..])
  }

  /** Leading controls and spaces go, and tabs and line breaks everywhere. */
  function Clean(s: string): string {
    DropBreaks(DropControls(s))
  }

  /** The first index that holds one of the marks, or the length. */
  function FindAny(s: string, marks: string): (n: nat)
    ensures n <= |s|
    ensures n < |s| ==> s[n] in marks
    ensures forall i :: 0 <= i < n ==> s[i] !in marks
  {
    if s == "" || s[0] in marks then 0 else 1 + FindAny(s[1..], marks)
  }

  function Before(s: string, mark: char): string {
    s[..FindAny(s, [mark])]
  }

  function After(s: string, mark: char): string {
    var n := FindAny(s, [mark]);
    if n == |s| then "" else s[n + 1..]
  }

  predicate IsLetter(c: char) {
    'a' <= c <= 'z' || 'A' <= c <= 'Z'
  }

  predicate IsSchemeChar(c: char) {
    IsLetter(c) || '0' <= c <= '9' || c == '+' || c == '-' || c == '.'
  }

  /** Where the colon after the scheme is, or 0. */
  function SchemeEnd(s: string): (n: nat)
    ensures n <= |s|
    ensures n > 0 ==> n < |s| && s[n] == ':'
  {
    var n := FindAny(s, ":");
    if 0 < n < |s| && IsLetter(s[0]) && forall i :: 0 <= i < n ==> IsSchemeChar(s[i]) then n else 0
  }

  function AfterScheme(s: string): string {
    if SchemeEnd(s) > 0 then s[SchemeEnd(s) + 1..] else s
  }

  function NetlocOf(s: string): string {
    if StartsWith(s, "//") then s[2..][..FindAny(s[2..], "/?#")] else ""
  }

  function AfterNetloc(s: string): string {
    if StartsWith(s, "//") then s[2..][FindAny(s[2..], "/?#")..] else s
  }

  const SCHEMES_WITH_PARAMS := [
    "", "ftp", "hdl", "prospero", "http", "imap", "https", "shttp", "rtsp", "rtsps", "rtspu", "sip", "sips", "mms",
    "sftp", "tel"]

  /** Where the last segment begins: at its slash, or at 0. */
  function LastSlash(s: string): (n: nat)
    ensures n <= |s|
    ensures (s == "" && n == 0) || (n < |s| && (s[n] == '/' || n == 0))
    ensures forall i :: n < i < |s| ==> s[i] != '/'
  {
    if s == "" then 0
    else if s[|s| - 1] == '/' then |s| - 1
    else
      var n := LastSlash(s[..|s| - 1]);
      assert forall i :: n < i < |s| - 1 ==> s[..|s| - 1][i] == s[i];
      n
  }

  function DropParams(path: string): string {
    var at := LastSlash(path);
    path[..at] + Before(path[at..], ';')
  }

  /** `urlparse`; the parameters and the fragment are read by no one. */
  function ParseUrl(text: string): Url {
    var url := Clean(text);
    var scheme := Lower(url[..SchemeEnd(url)]);
    var rest := AfterScheme(url);
    var local := Before(AfterNetloc(rest), '#');
    var path := Before(local, '?');
    Url(scheme, NetlocOf(rest), if scheme in SCHEMES_WITH_PARAMS then DropParams(path) else path, After(local, '?'))
  }

  // ---- The helpers ----

  function Origin(url: string): string {
    ParseUrl(url).scheme + "://" + ParseUrl(url).netloc
  }

  function DropSlashes(s: string): string {
    if s != "" && s[0] == '/' then DropSlashes(s[1..]) else s
  }

  /** `_resolve_upstream_message_url`. */
  function ResolveMessageUrl(upstream: string, endpoint: string): string {
    if StartsWith(endpoint, "http") then endpoint else Origin(upstream) + "/" + DropSlashes(endpoint)
  }

  /** `_local_path_for_endpoint`. */
  function LocalPath(endpoint: string): string {
    if !StartsWith(endpoint, "http") then endpoint
    else
      var url := ParseUrl(endpoint);
      url.path + if url.query != "" then "?" + url.query else ""
  }

  type Unquote = string -> string

  /** `parse_qs(query).get("sessionId")`, first value; percent decoding is a parameter. */
  function SessionIn(unquote: Unquote, query: string): Option<string>
    decreases |query|
  {
    var field := Before(query, '&');
    var name, value := Before(field, '='), After(field, '=');
    if value != "" && unquote(name) == "sessionId" then Some(unquote(value))
    else if FindAny(query, "&") == |query| then None
    else SessionIn(unquote, After(query, '&'))
  }

  /** `_extract_session_id`. */
  function SessionId(unquote: Unquote, url: string): Option<string> {
    SessionIn(unquote, ParseUrl(url).query)
  }

  // ---- Searching ----

  predicate Lacks(s: string, marks: string) {
    forall i :: 0 <= i < |s| ==> s[i] !in marks
  }

  lemma FindAnyAfter(prefix: string, s: string, marks: string)
    requires Lacks(prefix, marks)
    ensures FindAny(prefix + s, marks) == |prefix| + FindAny(s, marks)
  {
    var whole := prefix + s;
    var n, m := FindAny(whole, marks), FindAny(s, marks);
    assert forall i :: 0 <= i < |prefix| ==> whole[i] == prefix[i];
    assert forall i :: 0 <= i < |s| ==> whole[|prefix| + i] == s[i];
    assert n >= |prefix|;
    assert n == |whole| || s[n - |prefix|] in marks;
    assert m == |s| || whole[|prefix| + m] in marks;
  }

  lemma CutAfter(prefix: string, s: string, mark: char)
    requires Lacks(prefix, [mark])
    ensures Before(prefix + s, mark) == prefix + Before(s, mark)
    ensures After(prefix + s, mark) == After(s, mark)
  {
    FindAnyAfter(prefix, s, [mark]);
    var n := FindAny(s, [mark]);
    if n < |s| {
      assert (prefix + s)[|prefix| + n + 1..] == s[n + 1..];
    }
  }

  /** A string that lacks the mark is cut at its end. */
  lemma CutNowhere(s: string, mark: char)
    requires Lacks(s, [mark])
    ensures Before(s, mark) == s && After(s, mark) == ""
  {
    FindAnyAfter(s, "", [mark]);
    assert s + "" == s;
  }

  lemma {:induction false} DropControlsSplits(s: string) returns (dropped: string)
    ensures s == dropped + DropControls(s)
    ensures Lacks(dropped, "?#")
    ensures DropControls(s) == "" || DropControls(s)[0] > ' '
  {
    if s != "" && s[0] <= ' ' {
      var rest := DropControlsSplits(s[1..]);
      dropped := [s[0]] + rest;
      assert s == [s[0]] + s[1..];
    } else {
      dropped := "";
    }
  }

  predicate NoBreaks(s: string) {
    Lacks(s, "\t\r\n")
  }

  lemma {:induction false} DropBreaksClears(s: string)
    ensures NoBreaks(DropBreaks(s))
    ensures NoBreaks(s) ==> DropBreaks(s) == s
    ensures s != "" && s[0] > ' ' ==> DropBreaks(s) != "" && DropBreaks(s)[0] == s[0]
  {
    if s != "" {
      DropBreaksClears(s[1..]);
      assert s == [s[0]] + s[1..];
      assert NoBreaks(s) ==> s[0] !in "\t\r\n" && NoBreaks(s[1..]);
    }
  }

  lemma CleanIsClean(s: string)
    ensures NoBreaks(Clean(s))
    ensures Clean(s) == "" || Clean(s)[0] > ' '
    ensures NoBreaks(s) && (s == "" || s[0] > ' ') ==> Clean(s) == s
  {
    var dropped := DropControlsSplits(s);
    DropBreaksClears(DropControls(s));
  }

  // ---- The parts of a URL are pieces of it ----

  lemma SchemeChars(s: string)
    ensures forall i :: 0 <= i < SchemeEnd(s) ==> IsSchemeChar(s[i])
  {
  }

  lemma SchemeHasNoMarks(s: string)
    ensures s == s[..|s| - |AfterScheme(s)|] + AfterScheme(s)
    ensures Lacks(s[..|s| - |AfterScheme(s)|], "?#")
    ensures Lacks(s[..SchemeEnd(s)], "?#:/")
  {
    hide SchemeEnd;
    SchemeChars(s);
    var n := SchemeEnd(s);
    forall i | 0 <= i < n
      ensures s[i] !in "?#:/"
    {
      assert IsSchemeChar(s[i]);
    }
  }

  lemma NetlocHasNoMarks(s: string)
    ensures s == s[..|s| - |AfterNetloc(s)|] + AfterNetloc(s)
    ensures Lacks(s[..|s| - |AfterNetloc(s)|], "?#")
    ensures Lacks(NetlocOf(s), "/?#")
  {
    if StartsWith(s, "//") {
      var n := FindAny(s[2..], "/?#");
      assert AfterNetloc(s) == s[n + 2..];
      assert forall i :: 2 <= i < n + 2 ==> s[i] == s[2..][i - 2];
    }
  }

  /** What is left of a URL for its path and query. */
  function Rest(text: string): string {
    AfterNetloc(AfterScheme(Clean(text)))
  }

  lemma RestSplits(text: string) returns (prefix: string)
    ensures Clean(text) == prefix + Rest(text)
    ensures Lacks(prefix, "?#")
  {
    hide Clean, AfterScheme, AfterNetloc, SchemeEnd, NetlocOf;
    var url := Clean(text);
    var rest := AfterScheme(url);
    SchemeHasNoMarks(url);
    NetlocHasNoMarks(rest);
    var a, b := url[..|url| - |rest|], rest[..|rest| - |Rest(text)|];
    prefix := a + b;
    LacksJoin(a, b, "?#");
    Reassociate(a, b, Rest(text));
  }

  lemma LacksJoin(a: string, b: string, marks: string)
    requires Lacks(a, marks) && Lacks(b, marks)
    ensures Lacks(a + b, marks)
  {
  }

  lemma Reassociate(a: string, b: string, c: string)
    ensures a + (b + c) == (a + b) + c
  {
  }

  lemma LacksEach(s: string, marks: string, mark: char)
    requires Lacks(s, marks) && mark in marks
    ensures Lacks(s, [mark])
  {
  }

  /** The query is what follows the first question mark, wherever the host and path end. */
  lemma QueryIsAfterTheMark(text: string)
    ensures ParseUrl(text).query == After(Before(Clean(text), '#'), '?')
  {
    hide Clean, Before, After, AfterNetloc, AfterScheme, Lacks;
    var prefix := RestSplits(text);
    LacksEach(prefix, "?#", '?');
    LacksEach(prefix, "?#", '#');
    CutAfter(prefix, Rest(text), '#');
    CutAfter(prefix, Before(Rest(text), '#'), '?');
  }

  lemma PiecesLack(s: string, i: nat, j: nat, marks: string)
    requires Lacks(s, marks) && i <= j <= |s|
    ensures Lacks(s[i..j], marks)
  {
  }

  /** The path and the query of a URL hold no fragment mark and no line break, and the path no question mark. */
  lemma PartsAreClean(text: string)
    ensures var u := ParseUrl(text);
      && NoBreaks(u.path) && NoBreaks(u.query) && Lacks(u.path, "?#") && Lacks(u.query, "#")
      && |u.path| + (if u.query != "" then 1 + |u.query| else 0) <= |AfterScheme(Clean(text))|
  {
    hide Clean, AfterScheme, AfterNetloc, SchemeEnd, NetlocOf, Before, After, DropParams, Lower;
    CleanIsClean(text);
    var prefix := RestSplits(text);
    NetlocHasNoMarks(AfterScheme(Clean(text)));
    var rest := Rest(text);
    PiecesLack(Clean(text), |prefix|, |Clean(text)|, "\t\r\n");
    assert rest == Clean(text)[|prefix|..|Clean(text)|];
    CutParts(rest);
  }

  /** The same of what is left after the host. */
  lemma CutParts(rest: string)
    requires NoBreaks(rest)
    ensures var local := Before(rest, '#');
      var path, query := Before(local, '?'), After(local, '?');
      && NoBreaks(path) && NoBreaks(query) && Lacks(path, "?#") && Lacks(query, "#")
      && |path| + (if query != "" then 1 + |query| else 0) <= |rest|
      && NoBreaks(DropParams(path)) && Lacks(DropParams(path), "?#") && |DropParams(path)| <= |path|
  {
    var local := Before(rest, '#');
    assert NoBreaks(local) && Lacks(local, "#");
    var path := Before(local, '?');
    assert NoBreaks(path) && Lacks(path, "?#");
    DropParamsIsPrefix(path);
    var query := After(local, '?');
    assert forall i :: 0 <= i < |query| ==> query[i] == local[|local| - |query| + i];
  }

  lemma DropParamsIsPrefix(path: string)
    ensures var p := DropParams(path); |p| <= |path| && p == path[..|p|]
  {
  }

  /** The local path: a path and, if there is one, a query. */
  lemma LocalPathParts(endpoint: string) returns (path: string, query: string)
    requires StartsWith(endpoint, "http")
    ensures LocalPath(endpoint) == path + if query != "" then "?" + query else ""
    ensures NoBreaks(LocalPath(endpoint)) && Lacks(LocalPath(endpoint), "#")
    ensures Before(LocalPath(endpoint), '?') == path && After(LocalPath(endpoint), '?') == query
    ensures path == ParseUrl(endpoint).path && query == ParseUrl(endpoint).query
  {
    hide ParseUrl, Before, After, Lacks;
    PartsAreClean(endpoint);
    path, query := ParseUrl(endpoint).path, ParseUrl(endpoint).query;
    LacksEach(path, "?#", '?');
    LacksEach(path, "?#", '#');
    if query == "" {
      CutNowhere(path, '?');
      assert path + "" == path;
    } else {
      CutAfter(path, "?" + query, '?');
      MarkFirst(query);
      MarkIsClean();
      LacksJoin("?", query, "\t\r\n");
      LacksJoin("?", query, "#");
      LacksJoin(path, "?" + query, "\t\r\n");
      LacksJoin(path, "?" + query, "#");
    }
  }

  lemma MarkIsClean()
    ensures Lacks("?", "\t\r\n") && Lacks("?", "#")
  {
  }

  lemma MarkFirst(query: string)
    ensures Before("?" + query, '?') == "" && After("?" + query, '?') == query
  {
    assert ("?" + query)[1..] == query;
  }

  // ---- The session of a query ----

  /** The fields of a query. */
  function Fields(query: string): seq<string>
    decreases |query|
  {
    if FindAny(query, "&") == |query| then [query] else [Before(query, '&')] + Fields(After(query, '&'))
  }

  /** A field that gives the session a value. */
  predicate NamesSession(unquote: Unquote, field: string) {
    After(field, '=') != "" && unquote(Before(field, '=')) == "sessionId"
  }

  /** The index of the first such field, or the number of fields. */
  function FirstNaming(unquote: Unquote, fields: seq<string>): (n: nat)
    ensures n <= |fields|
  {
    if fields == [] || NamesSession(unquote, fields[0]) then 0 else 1 + FirstNaming(unquote, fields[1..])
  }

  lemma {:induction false} FirstNamingIsFirst(unquote: Unquote, fields: seq<string>)
    ensures var n := FirstNaming(unquote, fields);
      && (n < |fields| ==> NamesSession(unquote, fields[n]))
      && forall k :: 0 <= k < n ==> !NamesSession(unquote, fields[k])
  {
    hide NamesSession;
    if fields != [] && !NamesSession(unquote, fields[0]) {
      FirstNamingIsFirst(unquote, fields[1..]);
    }
  }

  lemma SessionStep(unquote: Unquote, query: string)
    ensures SessionIn(unquote, query)
            == var field := Before(query, '&');
               if NamesSession(unquote, field) then Some(unquote(After(field, '=')))
               else if FindAny(query, "&") == |query| then None
               else SessionIn(unquote, After(query, '&'))
  {
    hide Before, After, FindAny;
  }

  /** The session is the first value that the query gives it; empty values do not count. */
  lemma {:induction false} SessionIsTheFirst(unquote: Unquote, query: string)
    ensures var fields := Fields(query);
      var n := FirstNaming(unquote, fields);
      SessionIn(unquote, query) == if n < |fields| then Some(unquote(After(fields[n], '='))) else None
    decreases |query|
  {
    var fields := Fields(query);
    SessionStep(unquote, query);
    if FindAny(query, "&") == |query| {
      assert Before(query, '&') == query;
      hide NamesSession, Before, After, FindAny, SessionIn;
      assert fields == [query];
      assert FirstNaming(unquote, fields[1..]) == 0;
    } else {
      var rest := After(query, '&');
      SessionIsTheFirst(unquote, rest);
      hide NamesSession, Before, After, FindAny, SessionIn;
      assert fields[1..] == Fields(rest);
    }
  }

  // ---- Rewriting keeps the session ----

  /** The client's POST to the rewritten path names the session that the server announced. */
  lemma RewritingKeepsTheSession(unquote: Unquote, endpoint: string)
    ensures SessionId(unquote, LocalPath(endpoint)) == SessionId(unquote, endpoint)
  {
    hide ParseUrl, SessionIn;
    if StartsWith(endpoint, "http") {
      var local := LocalPath(endpoint);
      var path, query := LocalPathParts(endpoint);
      LocalPathQuery(local);
    }
  }

  /** Reading back a path that holds no break and no fragment. */
  lemma LocalPathQuery(local: string)
    requires NoBreaks(local) && Lacks(local, "#")
    ensures ParseUrl(local).query == After(local, '?')
  {
    hide ParseUrl, Before, After;
    QueryIsAfterTheMark(local);
    var dropped := DropControlsSplits(local);
    var kept := DropControls(local);
    assert NoBreaks(kept) && Lacks(kept, "#") by {
      assert forall i :: 0 <= i < |kept| ==> kept[i] == local[|dropped| + i];
    }
    DropBreaksClears(kept);
    CutNowhere(kept, '#');
    CutAfter(dropped, kept, '?');
  }

  // ---- Rewriting twice ----

  predicate HasParams(path: string) {
    ';' in path[LastSlash(path)..]
  }

  /** Rewriting the data once more, as a second proxy would, changes nothing. */
  predicate IsSettled(endpoint: string) {
    LocalPath(Trim(LocalPath(endpoint))) == LocalPath(endpoint)
  }

  /** The announced URL names a host. */
  predicate HasHost(endpoint: string) {
    StartsWith(AfterScheme(Clean(endpoint)), "//")
  }

  /** The query, or the path where there is no query, does not end in white space. */
  predicate EndsTight(u: Url) {
    if u.query != "" then !IsSpace(u.query[|u.query| - 1]) else u.path != "" ==> !IsSpace(u.path[|u.path| - 1])
  }

  /** The path is read as a URL, or as a path with parameters, if it stands alone. */
  predicate IsUrlAgain(path: string) {
    StartsWith(path, "http") && (SchemeEnd(path) > 0 || HasParams(path))
  }

  /**
   * What a caller can check on the announced text: it is relative; or there is no white space before its fragment or
   * its parameters and, should it name no host, its path neither begins with white space nor is a URL again.
   */
  predicate RewritesOnce(endpoint: string) {
    StartsWith(endpoint, "http") ==>
      var u := ParseUrl(endpoint);
      && EndsTight(u)
      && (!HasHost(endpoint) ==> !(u.path != "" && IsSpace(u.path[0])) && !IsUrlAgain(u.path))
  }

  /** The same of the rewritten path. */
  predicate StaysTheSame(local: string) {
    && Trim(local) == local
    && (StartsWith(local, "http") ==> SchemeEnd(local) == 0 && !HasParams(Before(local, '?')))
  }

  lemma DropParamsKeeps(path: string)
    ensures DropParams(path) == path <==> !HasParams(path)
  {
    var at := LastSlash(path);
    var last := path[at..];
    assert path == path[..at] + last;
    if HasParams(path) {
      assert |Before(last, ';')| < |last|;
    } else {
      CutNowhere(last, ';');
    }
  }

  lemma LocalPathShrinks(endpoint: string)
    requires StartsWith(endpoint, "http")
    ensures |LocalPath(endpoint)| <= |AfterScheme(Clean(endpoint))| <= |Clean(endpoint)| <= |endpoint|
    ensures SchemeEnd(Clean(endpoint)) > 0 ==> |LocalPath(endpoint)| < |Clean(endpoint)|
  {
    PartsAreClean(endpoint);
    var dropped := DropControlsSplits(endpoint);
  }

  /** A local path that begins with "http" is read as a path again exactly without a scheme and without parameters. */
  lemma LocalPathAgain(local: string, path: string, query: string)
    requires StartsWith(local, "http") && NoBreaks(local) && Lacks(local, "#")
    requires local == path + if query != "" then "?" + query else ""
    requires Before(local, '?') == path && After(local, '?') == query
    ensures LocalPath(local) == local <==> SchemeEnd(local) == 0 && !HasParams(path)
  {
    hide Before, After, HasParams, DropParams, LastSlash;
    CleanIsClean(local);
    if SchemeEnd(local) > 0 {
      LocalPathShrinks(local);
    } else {
      CutNowhere(local, '#');
      NoSchemeParts(local);
      DropParamsKeeps(path);
      DropParamsIsPrefix(path);
      assert LocalPath(local) == DropParams(path) + if query != "" then "?" + query else "";
    }
  }

  lemma NoSchemeParts(local: string)
    requires StartsWith(local, "http") && Clean(local) == local && SchemeEnd(local) == 0 && Before(local, '#') == local
    ensures ParseUrl(local).path == DropParams(Before(local, '?')) && ParseUrl(local).query == After(local, '?')
  {
    hide Before, After, DropParams, Clean, SchemeEnd;
    assert local[0] == 'h';
    assert !StartsWith(local, "//");
    assert Lower(local[..0]) == "";
  }

  lemma TrimShrinks(s: string)
    ensures |Trim(s)| <= |s| && (|Trim(s)| == |s| ==> Trim(s) == s)
  {
    TrimLeftShrinks(s);
    TrimRightShrinks(TrimLeft(s));
  }

  lemma {:induction false} TrimLeftShrinks(s: string)
    ensures |TrimLeft(s)| <= |s| && (|TrimLeft(s)| == |s| ==> TrimLeft(s) == s)
  {
    if s != "" && IsSpace(s[0]) {
      TrimLeftShrinks(s[1..]);
    }
  }

  lemma {:induction false} TrimRightShrinks(s: string)
    ensures |TrimRight(s)| <= |s| && (|TrimRight(s)| == |s| ==> TrimRight(s) == s)
  {
    if s != "" && IsSpace(s[|s| - 1]) {
      TrimRightShrinks(s[..|s| - 1]);
    }
  }

  lemma TrimFixes(s: string)
    ensures Trim(s) == s <==> s == "" || (!IsSpace(s[0]) && !IsSpace(s[|s| - 1]))
  {
    if s != "" {
      if IsSpace(s[0]) {
        TrimLeftShrinks(s[1..]);
        TrimRightShrinks(TrimLeft(s));
      } else if IsSpace(s[|s| - 1]) {
        TrimRightShrinks(s[..|s| - 1]);
      } else {
        TrimKeeps(s);
      }
    }
  }

  /** After a host the path is empty or begins with a slash. */
  lemma HostedPathIsRooted(endpoint: string)
    requires HasHost(endpoint)
    ensures var path := ParseUrl(endpoint).path; path != "" ==> path[0] == '/'
  {
    hide Clean, AfterScheme, Lower, SchemeEnd, DropParams;
    var rest := Rest(endpoint);
    var whole := AfterScheme(Clean(endpoint));
    assert rest == whole[2..][FindAny(whole[2..], "/?#")..];
    assert rest != "" ==> rest[0] in "/?#";
    var local := Before(rest, '#');
    var path := Before(local, '?');
    assert path != "" ==> path[0] == rest[0] && rest[0] == '/';
    DropParamsIsPrefix(path);
  }

  /** A path with a query or without is read like the path alone. */
  lemma SamePathAgain(path: string, query: string)
    requires Lacks(path, "?#")
    ensures var local := path + if query != "" then "?" + query else "";
      && (StartsWith(local, "http") <==> StartsWith(path, "http"))
      && SchemeEnd(local) == SchemeEnd(path)
  {
    var local := path + if query != "" then "?" + query else "";
    if query == "" {
      assert local == path;
    } else {
      SchemeBeforeQuery(path, query);
      assert forall i :: 0 <= i < |path| ==> local[i] == path[i];
      assert local[|path|] == '?';
      hide SchemeEnd;
      if StartsWith(local, "http") {
        assert forall i :: 0 <= i < 4 ==> local[i] == "http"[i] && local[i] != '?';
      }
    }
  }

  /** Outer white space of a path and its query. */
  lemma TightEnds(u: Url)
    ensures var local := u.path + if u.query != "" then "?" + u.query else "";
      local == Trim(local) <==> EndsTight(u) && !(u.path != "" && IsSpace(u.path[0]))
  {
    hide Trim;
    var local := u.path + if u.query != "" then "?" + u.query else "";
    TrimFixes(local);
  }

  /** The condition on the announced text is the condition on what is made of it. */
  lemma ConditionIsReadOff(endpoint: string)
    requires StartsWith(endpoint, "http")
    ensures RewritesOnce(endpoint) <==> StaysTheSame(LocalPath(endpoint))
  {
    hide Trim, ParseUrl, SchemeEnd, HasParams, Clean, LastSlash, Before, After, AfterScheme;
    var u := ParseUrl(endpoint);
    var path, query := LocalPathParts(endpoint);
    PartsAreClean(endpoint);
    TightEnds(u);
    SamePathAgain(u.path, u.query);
    if HasHost(endpoint) {
      HostedPathIsRooted(endpoint);
      assert StartsWith(path, "http") ==> path[0] == "http"[0];
    }
  }

  /** Rewriting is idempotent exactly on these data. */
  lemma RewritingSettles(endpoint: string)
    requires Trim(endpoint) == endpoint
    ensures IsSettled(endpoint) <==> RewritesOnce(endpoint)
  {
    if StartsWith(endpoint, "http") {
      hide Trim, ParseUrl, SchemeEnd, HasParams, Clean, LastSlash, RewritesOnce;
      ConditionIsReadOff(endpoint);
      var local := LocalPath(endpoint);
      var path, query := LocalPathParts(endpoint);
      TrimShrinks(local);
      if StartsWith(Trim(local), "http") {
        LocalPathShrinks(Trim(local));
        if Trim(local) == local {
          LocalPathAgain(local, path, query);
        }
      }
    } else {
      assert LocalPath(endpoint) == endpoint;
    }
  }

  lemma HttpScheme(tail: string)
    ensures SchemeEnd("http" + (":" + tail)) == 4 && AfterScheme("http" + (":" + tail)) == tail
  {
    var s := "http" + (":" + tail);
    FindAnyAfter("http", ":" + tail, ":");
    assert FindAny(":" + tail, ":") == 0;
    assert s[5..] == tail;
    assert forall i :: 0 <= i < 4 ==> s[i] == "http"[i];
  }

  lemma NoSemicolonNoParams(path: string)
    requires Lacks(path, "?#;")
    ensures !HasParams(path)
  {
  }

  /** A path without marks is read as it stands. */
  lemma HttpWithoutHost(path: string)
    requires NoBreaks(path) && Lacks(path, "?#;") && !StartsWith(path, "//")
    ensures LocalPath("http" + (":" + path)) == path
  {
    hide SchemeEnd, Clean, DropParams, Before, After, HasParams, AfterScheme;
    var s := "http" + (":" + path);
    HttpScheme(path);
    assert NoBreaks(s);
    CleanIsClean(s);
    assert s[..4] == "http" == Lower("http");
    LacksEach(path, "?#;", '#');
    LacksEach(path, "?#;", '?');
    CutNowhere(path, '#');
    CutNowhere(path, '?');
    DropParamsKeeps(path);
    NoSemicolonNoParams(path);
    assert path + "" == path;
  }

  lemma TrimKeeps(s: string)
    requires s != "" && !IsSpace(s[0]) && !IsSpace(s[|s| - 1])
    ensures Trim(s) == s
  {
  }

  /** Without a host, the rewritten URL may be a URL again, which a second rewriting would change. */
  lemma SomeUrlsAreNotSettled()
    ensures exists endpoint :: Trim(endpoint) == endpoint && !RewritesOnce(endpoint) && !IsSettled(endpoint)
  {
    hide Trim, LocalPath, IsSettled, SchemeEnd, HasParams, RewritesOnce, AfterScheme;
    var local := "http" + (":" + "a");
    var odd := "http" + (":" + local);
    assert local[0] == 'h' && local[0] != "//"[0];
    HttpWithoutHost(local);
    HttpScheme("a");
    TrimKeeps(odd);
    assert StartsWith(odd, "http") && StartsWith(local, "http");
    ConditionIsReadOff(odd);
    RewritingSettles(odd);
  }

  // ---- Where a POST goes ----

  /** A request's query does not change the origin of the URL it is added to. */
  lemma OriginIgnoresQuery(upstream: string, query: string)
    ensures Origin(upstream + "?" + query) == Origin(upstream)
  {
    var tail := "?" + query;
    assert upstream + "?" + query == upstream + tail;
    CleanAppend(upstream, query);
    var more: string :| Clean(upstream + tail) == Clean(upstream) + ("?" + more);
    SchemeBeforeQuery(Clean(upstream), more);
    NetlocBeforeQuery(AfterScheme(Clean(upstream)), more);
  }

  lemma {:induction false} DropControlsAppend(s: string, query: string)
    ensures DropControls(s + ("?" + query)) == DropControls(s) + ("?" + query)
  {
    var whole := s + ("?" + query);
    if s == "" {
      assert whole == "?" + query;
    } else if s[0] <= ' ' {
      assert whole[1..] == s[1..] + ("?" + query);
      DropControlsAppend(s[1..], query);
    }
  }

  lemma {:induction false} DropBreaksAppend(s: string, t: string)
    ensures DropBreaks(s + t) == DropBreaks(s) + DropBreaks(t)
  {
    if s == "" {
      assert s + t == t;
    } else {
      assert (s + t)[1..] == s[1..] + t;
      DropBreaksAppend(s[1..], t);
    }
  }

  lemma CleanAppend(s: string, query: string)
    ensures exists more :: Clean(s + ("?" + query)) == Clean(s) + ("?" + more)
  {
    DropControlsAppend(s, query);
    DropBreaksAppend(DropControls(s), "?" + query);
    DropBreaksAppend("?", query);
    assert DropBreaks("?") == "?" + DropBreaks("");
    assert Clean(s + ("?" + query)) == Clean(s) + ("?" + DropBreaks(query));
  }

  lemma FindAnyBefore(s: string, t: string, marks: string)
    ensures var n := FindAny(s, marks);
      n < |s| ==> FindAny(s + t, marks) == n
    ensures FindAny(s, marks) == |s| ==> FindAny(s + t, marks) == |s| + FindAny(t, marks)
  {
    var n := FindAny(s, marks);
    if n < |s| {
      var whole := s + t;
      assert forall i :: 0 <= i < |s| ==> whole[i] == s[i];
      var m := FindAny(whole, marks);
      assert m <= n;
      assert m < |s| ==> whole[m] in marks;
    } else {
      FindAnyAfter(s, t, marks);
    }
  }

  lemma SchemeBeforeQuery(s: string, query: string)
    ensures var whole := s + ("?" + query);
      && SchemeEnd(whole) == SchemeEnd(s) && whole[..SchemeEnd(s)] == s[..SchemeEnd(s)]
      && AfterScheme(whole) == AfterScheme(s) + ("?" + query)
  {
    var whole := s + ("?" + query);
    FindAnyBefore(s, "?" + query, ":");
    assert forall i :: 0 <= i < |s| ==> whole[i] == s[i];
    if FindAny(s, ":") == |s| {
      assert whole[|s|] == '?';
      assert SchemeEnd(whole) == 0;
    } else {
      assert SchemeEnd(whole) == SchemeEnd(s);
    }
    hide SchemeEnd;
    if SchemeEnd(s) > 0 {
      assert whole[SchemeEnd(s) + 1..] == s[SchemeEnd(s) + 1..] + ("?" + query);
    }
  }

  lemma NetlocBeforeQuery(s: string, query: string)
    ensures NetlocOf(s + ("?" + query)) == NetlocOf(s)
  {
    var whole := s + ("?" + query);
    if StartsWith(s, "//") {
      FindAnyBefore(s[2..], "?" + query, "/?#");
      assert whole[2..] == s[2..] + ("?" + query);
    } else {
      assert |s| < 2 ==> whole[|s|] == '?';
      assert whole[..|s|] == s;
      assert !StartsWith(whole, "//");
    }
  }

  /** The URL for a POST whose session is unknown. */
  function FallbackUrl(upstream: string, path: string): string {
    Origin(upstream) + path
  }

  lemma {:induction false} DropSlashesDrops(s: string)
    ensures |DropSlashes(s)| <= |s|
    ensures |DropSlashes(s)| == |s| <==> !StartsWith(s, "/")
    ensures !StartsWith(s, "/") ==> DropSlashes(s) == s
  {
    if s != "" && s[0] == '/' {
      DropSlashesDrops(s[1..]);
    }
  }

  /** The path of a request as Python's http.server hands it on: several leading slashes become one. */
  function ServedPath(target: string): string {
    if StartsWith(target, "//") then "/" + DropSlashes(target) else target
  }

  lemma {:induction false} DropSlashesSplits(s: string) returns (slashes: string)
    ensures s == slashes + DropSlashes(s) && forall i :: 0 <= i < |slashes| ==> slashes[i] == '/'
    ensures StartsWith(s, "/") ==> slashes != ""
  {
    if s != "" && s[0] == '/' {
      var rest := DropSlashesSplits(s[1..]);
      slashes := [s[0]] + rest;
      assert s == [s[0]] + s[1..];
    } else {
      slashes := "";
    }
  }

  /** Slashes in front of a text do not matter for its query. */
  lemma QueryAfterSlashes(slashes: string, rest: string)
    requires slashes != "" && forall i :: 0 <= i < |slashes| ==> slashes[i] == '/'
    ensures ParseUrl(slashes + rest).query == After(Before(DropBreaks(rest), '#'), '?')
  {
    hide ParseUrl, Before, After;
    QueryIsAfterTheMark(slashes + rest);
    assert (slashes + rest)[0] == '/';
    DropBreaksAppend(slashes, rest);
    DropBreaksClears(slashes);
    assert Clean(slashes + rest) == slashes + DropBreaks(rest);
    CutAfter(slashes, DropBreaks(rest), '#');
    CutAfter(slashes, Before(DropBreaks(rest), '#'), '?');
  }

  /** The session of a request is the one that its target names. */
  lemma ServingKeepsTheSession(unquote: Unquote, target: string)
    ensures SessionId(unquote, ServedPath(target)) == SessionId(unquote, target)
  {
    hide ParseUrl, SessionIn;
    if StartsWith(target, "//") {
      var slashes := DropSlashesSplits(target);
      QueryAfterSlashes(slashes, DropSlashes(target));
      QueryAfterSlashes("/", DropSlashes(target));
    }
  }

  /** For relative data the registered URL and the fallback agree exactly when the path begins with one slash; and as
      the request is served, exactly when it begins with a slash. */
  lemma RelativeRoutesAgree(upstream: string, endpoint: string)
    requires !StartsWith(endpoint, "http")
    ensures ResolveMessageUrl(upstream, endpoint) == FallbackUrl(upstream, LocalPath(endpoint))
            <==> StartsWith(endpoint, "/") && !StartsWith(endpoint, "//")
    ensures ResolveMessageUrl(upstream, endpoint) == FallbackUrl(upstream, ServedPath(LocalPath(endpoint)))
            <==> StartsWith(endpoint, "/")
  {
    hide Origin;
    var o := Origin(upstream);
    var rest := "/" + DropSlashes(endpoint);
    assert o + "/" + DropSlashes(endpoint) == o + rest;
    assert (o + rest)[|o|..] == rest && (o + endpoint)[|o|..] == endpoint;
    assert o + rest == o + endpoint <==> rest == endpoint;
    DropSlashesDrops(endpoint);
    if StartsWith(endpoint, "/") {
      assert endpoint == "/" + endpoint[1..];
      DropSlashesDrops(endpoint[1..]);
      assert StartsWith(endpoint, "//") <==> StartsWith(endpoint[1..], "/");
      assert rest == endpoint <==> DropSlashes(endpoint) == endpoint[1..];
    } else {
      assert rest[0] == '/';
    }
  }

  /** A path as servers announce it: rooted, without a fragment, without parameters, and without an empty query. */
  predicate IsPlainPath(path: string) {
    && StartsWith(path, "/") && NoBreaks(path) && Lacks(path, "#") && !HasParams(Before(path, '?'))
    && (After(path, '?') == "" ==> Lacks(path, "?"))
  }

  lemma PlainPathParts(path: string)
    requires IsPlainPath(path)
    ensures path == Before(path, '?') + if After(path, '?') != "" then "?" + After(path, '?') else ""
  {
    var n := FindAny(path, "?");
    if After(path, '?') != "" {
      assert path == path[..n] + (["?"[0]] + path[n + 1..]);
    } else {
      CutNowhere(path, '?');
    }
  }

  lemma SchemeParts(upstream: string)
    ensures var scheme := ParseUrl(upstream).scheme;
      && (scheme != "" ==> IsLetter(scheme[0]) && Lower(scheme) == scheme)
      && forall i :: 0 <= i < |scheme| ==> IsSchemeChar(scheme[i])
  {
    hide Clean, DropParams, Before, After, AfterNetloc, NetlocOf, AfterScheme;
    var url := Clean(upstream);
    SchemeChars(url);
    var n := SchemeEnd(url);
    var scheme := Lower(url[..n]);
    forall i | 0 <= i < n
      ensures IsSchemeChar(scheme[i]) && LowerChar(scheme[i]) == scheme[i]
    {
      assert IsSchemeChar(url[i]);
    }
    assert n > 0 ==> IsLetter(url[0]);
  }

  lemma NetlocParts(upstream: string)
    ensures var netloc := ParseUrl(upstream).netloc; Lacks(netloc, "/?#") && NoBreaks(netloc)
  {
    hide Clean, DropParams, Before, After, SchemeEnd, AfterScheme, Lower;
    var url := Clean(upstream);
    var rest := AfterScheme(url);
    CleanIsClean(upstream);
    SchemeHasNoMarks(url);
    NetlocHasNoMarks(rest);
    PiecesLack(url, |url| - |rest|, |url|, "\t\r\n");
    assert rest == url[|url| - |rest|..|url|];
    if StartsWith(rest, "//") {
      PiecesLack(rest, 2, 2 + |NetlocOf(rest)|, "\t\r\n");
      assert NetlocOf(rest) == rest[2..2 + |NetlocOf(rest)|];
    }
  }

  /** Reading back an origin and a rooted path. */
  lemma OriginReadsBack(scheme: string, netloc: string, path: string)
    requires scheme != "" && IsLetter(scheme[0]) && forall i :: 0 <= i < |scheme| ==> IsSchemeChar(scheme[i])
    requires Lacks(netloc, "/?#") && NoBreaks(netloc) && NoBreaks(path) && StartsWith(path, "/")
    ensures var url := scheme + "://" + netloc + path;
      Clean(url) == url && SchemeEnd(url) == |scheme| && Rest(url) == path && url[..|scheme|] == scheme
  {
    hide Clean, SchemeEnd, NetlocOf, AfterNetloc, Lacks, NoBreaks;
    var url := scheme + "://" + netloc + path;
    var tail := "://" + netloc + path;
    assert url == scheme + tail;
    SchemeReadsBack(scheme, tail);
    UrlHasNoBreaks(scheme, netloc, path);
    assert IsSchemeChar(url[0]);
    CleanIsClean(url);
    NetlocReadsBack(netloc, path);
    assert url[|scheme| + 1..] == "//" + netloc + path;
  }

  lemma UrlHasNoBreaks(scheme: string, netloc: string, path: string)
    requires forall i :: 0 <= i < |scheme| ==> IsSchemeChar(scheme[i])
    requires NoBreaks(netloc) && NoBreaks(path)
    ensures NoBreaks(scheme + "://" + netloc + path)
  {
    assert NoBreaks(scheme) && NoBreaks("://");
    LacksJoin(scheme, "://", "\t\r\n");
    LacksJoin(scheme + "://", netloc, "\t\r\n");
    LacksJoin(scheme + "://" + netloc, path, "\t\r\n");
  }

  lemma SchemeReadsBack(scheme: string, tail: string)
    requires scheme != "" && IsLetter(scheme[0]) && forall i :: 0 <= i < |scheme| ==> IsSchemeChar(scheme[i])
    requires StartsWith(tail, ":")
    ensures SchemeEnd(scheme + tail) == |scheme|
  {
    var s := scheme + tail;
    FindAnyAfter(scheme, tail, ":");
    assert FindAny(tail, ":") == 0;
    assert forall i :: 0 <= i < |scheme| ==> s[i] == scheme[i];
  }

  lemma NetlocReadsBack(netloc: string, path: string)
    requires Lacks(netloc, "/?#") && StartsWith(path, "/")
    ensures NetlocOf("//" + netloc + path) == netloc && AfterNetloc("//" + netloc + path) == path
  {
    var s := "//" + netloc + path;
    FindAnyAfter(netloc, path, "/?#");
    assert FindAny(path, "/?#") == 0;
    assert s[2..] == netloc + path;
  }

  lemma HttpNeedsScheme(scheme: string, rest: string)
    requires StartsWith(scheme + rest, "http") && StartsWith(rest, ":")
    ensures scheme != ""
  {
    var whole := scheme + rest;
    assert whole[0] == 'h' && rest[0] == ':';
  }

  /** For a URL of the server's own origin with a plain path, the registered URL and the fallback agree; as the
      request is served, exactly when the path begins with one slash. */
  lemma SameOriginRoutesAgree(upstream: string, path: string)
    requires IsPlainPath(path) && StartsWith(Origin(upstream) + path, "http")
    ensures var endpoint := Origin(upstream) + path;
      && LocalPath(endpoint) == path
      && ResolveMessageUrl(upstream, endpoint) == FallbackUrl(upstream, LocalPath(endpoint))
      && (ResolveMessageUrl(upstream, endpoint) == FallbackUrl(upstream, ServedPath(LocalPath(endpoint)))
          <==> !StartsWith(path, "//"))
  {
    hide ParseUrl, Before, After, HasParams, SchemeEnd, Clean;
    var u := ParseUrl(upstream);
    var endpoint := Origin(upstream) + path;
    SchemeParts(upstream);
    NetlocParts(upstream);
    assert endpoint == u.scheme + ("://" + u.netloc + path);
    HttpNeedsScheme(u.scheme, "://" + u.netloc + path);
    OriginReadsBack(u.scheme, u.netloc, path);
    RestReadsBack(endpoint, path);
    PlainPathParts(path);
    ServedFallback(Origin(upstream), path);
  }

  lemma ServedFallback(origin: string, path: string)
    requires StartsWith(path, "/")
    ensures origin + ServedPath(path) == origin + path <==> !StartsWith(path, "//")
  {
    var served := ServedPath(path);
    assert (origin + served)[|origin|..] == served && (origin + path)[|origin|..] == path;
    DropSlashesDrops(path[1..]);
    if StartsWith(path, "//") {
      assert path[1..] != "" && DropSlashes(path) == DropSlashes(path[1..]);
    }
  }

  /** An origin and a plain path that does not end in white space: rewriting it twice is rewriting it once. */
  lemma PlainUrlIsSettled(upstream: string, path: string)
    requires IsPlainPath(path) && StartsWith(Origin(upstream) + path, "http") && !IsSpace(path[|path| - 1])
    ensures IsSettled(Origin(upstream) + path) && LocalPath(Origin(upstream) + path) == path
  {
    SameOriginRoutesAgree(upstream, path);
    hide LocalPath, ParseUrl, IsPlainPath, Origin;
    assert path[0] == '/' by { PlainPathIsRooted(path); }
    TrimKeeps(path);
    RootedStays(path);
  }

  lemma PlainPathIsRooted(path: string)
    requires IsPlainPath(path)
    ensures path != "" && path[0] == '/'
  {
  }

  lemma RootedStays(path: string)
    requires path != "" && path[0] == '/'
    ensures LocalPath(path) == path
  {
    assert path[0] != "http"[0];
  }

  lemma RestReadsBack(url: string, path: string)
    requires Rest(url) == path && IsPlainPath(path)
    ensures ParseUrl(url).path == Before(path, '?') && ParseUrl(url).query == After(path, '?')
  {
    hide Clean, AfterScheme, AfterNetloc, SchemeEnd, HasParams, DropParams, Before, After, Lower;
    CutNowhere(path, '#');
    DropParamsKeeps(Before(path, '?'));
  }

  // ---- A URL put together from its parts ----

  /** Parts that cannot be mistaken for one another. */
  predicate AreParts(scheme: string, netloc: string, path: string, query: string, fragment: string) {
    && scheme != "" && (scheme[0] in CAPITALS || scheme[0] in SMALL_LETTERS)
    && (forall c :: c in scheme ==> c in CAPITALS || c in SMALL_LETTERS || c in "0123456789+-.")
    && Lacks(netloc, "/?#\t\r\n")
    && StartsWith(path, "/") && Lacks(path, "?#;\t\r\n")
    && query != "" && Lacks(query, "#\t\r\n")
    && Lacks(fragment, "\t\r\n")
  }

  function Assembled(scheme: string, netloc: string, path: string, query: string, fragment: string): string {
    scheme + "://" + netloc + (path + ("?" + (query + ("#" + fragment))))
  }

  lemma LacksFewer(s: string, marks: string, fewer: string)
    requires Lacks(s, marks) && forall c :: c in fewer ==> c in marks
    ensures Lacks(s, fewer)
  {
  }

  lemma SchemeIsRead(scheme: string)
    requires scheme != "" && (scheme[0] in CAPITALS || scheme[0] in SMALL_LETTERS)
    requires forall c :: c in scheme ==> c in CAPITALS || c in SMALL_LETTERS || c in "0123456789+-."
    ensures IsLetter(scheme[0]) && forall i :: 0 <= i < |scheme| ==> IsSchemeChar(scheme[i])
  {
    hide CAPITALS, SMALL_LETTERS;
    forall c ensures c in CAPITALS || c in SMALL_LETTERS ==> IsLetter(c) && IsSchemeChar(c) {
      LetterIsRead(c);
    }
    forall c ensures c in "0123456789+-." ==> IsSchemeChar(c) {
      MarkIsRead(c);
    }
    hide IsLetter, IsSchemeChar;
    forall i | 0 <= i < |scheme| ensures IsSchemeChar(scheme[i]) {
      assert scheme[i] in scheme;
    }
  }

  lemma LetterIsRead(c: char)
    ensures c in CAPITALS || c in SMALL_LETTERS ==> IsLetter(c) && IsSchemeChar(c)
  {
  }

  lemma MarkIsRead(c: char)
    ensures c in "0123456789+-." ==> IsSchemeChar(c)
  {
  }

  lemma TailHasNoBreaks(path: string, query: string, fragment: string)
    requires NoBreaks(path) && NoBreaks(query) && NoBreaks(fragment)
    ensures NoBreaks(path + ("?" + (query + ("#" + fragment))))
  {
    assert NoBreaks("?") && NoBreaks("#");
    LacksJoin("#", fragment, "\t\r\n");
    LacksJoin(query, "#" + fragment, "\t\r\n");
    LacksJoin("?", query + ("#" + fragment), "\t\r\n");
    LacksJoin(path, "?" + (query + ("#" + fragment)), "\t\r\n");
  }

  lemma TailIsCut(path: string, query: string, fragment: string)
    requires Lacks(path, "?#") && Lacks(query, "#")
    ensures var local := path + ("?" + (query + ("#" + fragment)));
      && Before(local, '#') == path + ("?" + query)
      && Before(path + ("?" + query), '?') == path && After(path + ("?" + query), '?') == query
  {
    var local := path + ("?" + (query + ("#" + fragment)));
    LacksFewer(path, "?#", "#");
    LacksFewer(path, "?#", "?");
    var head := path + ("?" + query);
    assert Lacks("?", "#");
    LacksJoin("?", query, "#");
    LacksJoin(path, "?" + query, "#");
    assert local == head + ("#" + fragment);
    CutAfter(head, "#" + fragment, '#');
    assert FindAny("#" + fragment, ['#']) == 0;
    CutAfter(path, "?" + query, '?');
    assert FindAny("?" + query, ['?']) == 0;
  }

  lemma NoSemicolon(path: string)
    requires Lacks(path, ";")
    ensures DropParams(path) == path
  {
    DropParamsKeeps(path);
    assert !HasParams(path) by {
      assert forall c :: c in path[LastSlash(path)..] ==> c in path;
    }
  }

  /** Round trip: what is put together from its parts is taken apart into them. */
  lemma PartsReadBack(scheme: string, netloc: string, path: string, query: string, fragment: string)
    requires AreParts(scheme, netloc, path, query, fragment)
    ensures ParseUrl(Assembled(scheme, netloc, path, query, fragment)) == Url(Lower(scheme), netloc, path, query)
  {
    var tail := path + ("?" + (query + ("#" + fragment)));
    var url := Assembled(scheme, netloc, path, query, fragment);
    SchemeIsRead(scheme);
    LacksFewer(netloc, "/?#\t\r\n", "/?#");
    LacksFewer(netloc, "/?#\t\r\n", "\t\r\n");
    LacksFewer(path, "?#;\t\r\n", "?#");
    LacksFewer(path, "?#;\t\r\n", ";");
    LacksFewer(path, "?#;\t\r\n", "\t\r\n");
    LacksFewer(query, "#\t\r\n", "#");
    LacksFewer(query, "#\t\r\n", "\t\r\n");
    hide Lacks, Clean, SchemeEnd, Before, After, DropParams, Lower, AfterNetloc, NetlocOf, AfterScheme;
    TailHasNoBreaks(path, query, fragment);
    assert StartsWith(tail, "/") by { assert tail[0] == path[0]; }
    OriginReadsBack(scheme, netloc, tail);
    NetlocIsRead(scheme, netloc, tail);
    TailIsCut(path, query, fragment);
    NoSemicolon(path);
  }

  lemma NetlocIsRead(scheme: string, netloc: string, tail: string)
    requires Lacks(netloc, "/?#") && StartsWith(tail, "/")
    requires var url := scheme + "://" + netloc + tail; scheme != "" && Clean(url) == url && SchemeEnd(url) == |scheme|
    ensures var url := scheme + "://" + netloc + tail; NetlocOf(AfterScheme(Clean(url))) == netloc
  {
    hide Clean, SchemeEnd, Lacks, NetlocOf;
    var url := scheme + "://" + netloc + tail;
    assert url[|scheme| + 1..] == "//" + netloc + tail;
    NetlocReadsBack(netloc, tail);
  }

  lemma RootedData(origin: string, data: string)
    requires StartsWith(data, "/") && !StartsWith(data, "//")
    ensures origin + "/" + DropSlashes(data) == origin + data && !StartsWith(data, "http")
  {
    var rest := data[1..];
    assert data == "/" + rest && data[0] == '/';
    DropSlashesDrops(rest);
    assert StartsWith(rest, "/") ==> StartsWith(data, "//");
    assert DropSlashes(data) == DropSlashes(rest) == rest;
    Reassociate(origin, "/", rest);
  }

  /** So the proxy rewrites such a URL to its path and query, and resolves relative data against its origin. */
  lemma PartsAreUsed(scheme: string, netloc: string, path: string, query: string, fragment: string, data: string)
    requires AreParts(scheme, netloc, path, query, fragment)
    ensures var url, origin := Assembled(scheme, netloc, path, query, fragment), Lower(scheme) + "://" + netloc;
      && Origin(url) == origin
      && (StartsWith(url, "http") ==> LocalPath(url) == path + "?" + query && ResolveMessageUrl(data, url) == url)
      && (StartsWith(data, "/") && !StartsWith(data, "//") ==> ResolveMessageUrl(url, data) == origin + data)
  {
    hide ParseUrl, AreParts, Assembled, DropSlashes;
    PartsReadBack(scheme, netloc, path, query, fragment);
    QueryIsSome(scheme, netloc, path, query, fragment);
    if StartsWith(data, "/") && !StartsWith(data, "//") {
      RootedData(Lower(scheme) + "://" + netloc, data);
    }
    Reassociate(path, "?", query);
  }

  lemma QueryIsSome(scheme: string, netloc: string, path: string, query: string, fragment: string)
    requires AreParts(scheme, netloc, path, query, fragment)
    ensures query != ""
  {
  }

  lemma FieldIsCut(name: string, value: string, more: string)
    requires Lacks(name, "&") && Lacks(name, "=") && Lacks(value, "&")
    ensures var query := name + ("=" + value) + ("&" + more);
      && Before(query, '&') == name + ("=" + value)
      && Before(name + ("=" + value), '=') == name && After(name + ("=" + value), '=') == value
  {
    var field := name + ("=" + value);
    assert Lacks("=", "&");
    LacksJoin("=", value, "&");
    LacksJoin(name, "=" + value, "&");
    CutAfter(field, "&" + more, '&');
    assert FindAny("&" + more, ['&']) == 0;
    CutAfter(name, "=" + value, '=');
    assert FindAny("=" + value, ['=']) == 0;
  }

  lemma SessionName()
    ensures Lacks("sessionId", "&") && Lacks("sessionId", "=")
  {
  }

  /** A query that begins with the session names that session. */
  lemma SessionIsRead(unquote: Unquote, url: string, id: string, more: string)
    requires id != "" && Lacks(id, "&") && unquote("sessionId") == "sessionId"
    requires ParseUrl(url).query == "sessionId" + ("=" + id) + ("&" + more)
    ensures SessionId(unquote, url) == Some(unquote(id))
  {
    hide ParseUrl, Before, After, FindAny, Lacks;
    SessionName();
    FieldIsCut("sessionId", id, more);
  }
}

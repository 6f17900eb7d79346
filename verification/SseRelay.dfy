// The relay of an event stream: it announces itself as the endpoint and remembers where each session really posts.
module SseRelay {
  import opened Options
  import opened ProxyUrls
  import opened SseLines
  import opened Text

  /** UTF-8 in both directions, percent decoding, and the upstream URL that the proxy was started with. */
  datatype Proxy = Proxy(decode: Bytes -> string, encode: string -> Bytes, unquote: Unquote, upstream: string)
  {
    ghost predicate RoundTrips() {
      forall text :: decode(encode(text)) == text
    }
  }

  type Registry = map<string, string>

  datatype RelayState = RelayState(event: Option<string>, urls: Registry)

  // ---- One line ----

  predicate IsEvent(text: string) {
    StartsWith(text, "event:")
  }

  predicate IsData(text: string) {
    StartsWith(text, "data:")
  }

  function DataOf(text: string): string
    requires IsData(text)
  {
    Trim(text[5..])
  }

  predicate OpensEndpoint(text: string) {
    IsEvent(text) && Trim(text[6..]) == "endpoint"
  }

  /** After such a line an endpoint event is no longer waiting for its data. */
  predicate Closes(text: string) {
    text == "" || IsEvent(text) || IsData(text)
  }

  function Remember(proxy: Proxy, stream: string, urls: Registry, data: string): Registry {
    match SessionId(proxy.unquote, data)
    case None => urls
    case Some(session) => if session == "" then urls else urls[session := ResolveMessageUrl(stream, data)]
  }

  function RelayLine(proxy: Proxy, stream: string, st: RelayState, raw: Bytes): (RelayState, Bytes) {
    var text := proxy.decode(raw);
    if StartsWith(text, "event:") then (st.(event := Some(Trim(text[6..]))), raw)
    else if StartsWith(text, "data:") && st.event == Some("endpoint") then
      var data := Trim(text[5..]);
      (RelayState(None, Remember(proxy, stream, st.urls, data)), proxy.encode("data: " + LocalPath(data)))
    else (if text == "" then st.(event := None) else st, raw)
  }

  /** The loop of `_handle_sse` on the lines of one stream. */
  function Relay(proxy: Proxy, stream: string, urls: Registry, lines: seq<Bytes>): (r: (RelayState, seq<Bytes>))
    ensures |r.1| == |lines|
  {
    if lines == [] then (RelayState(None, urls), [])
    else
      var (st, written) := Relay(proxy, stream, urls, lines[..|lines| - 1]);
      var (next, line) := RelayLine(proxy, stream, st, lines[|lines| - 1]);
      (next, written + [line])
  }

  // ---- Which lines announce an endpoint ----

  /** Line j opens an endpoint event, and no line between it and line k ends the wait for its data. */
  predicate OpenSince(proxy: Proxy, lines: seq<Bytes>, j: nat, k: nat)
    requires k <= |lines|
  {
    j < k && OpensEndpoint(proxy.decode(lines[j])) && forall i :: j < i < k ==> !Closes(proxy.decode(lines[i]))
  }

  /** An endpoint event before line k still waits for its data. */
  ghost predicate Waits(proxy: Proxy, lines: seq<Bytes>, k: nat)
    requires k <= |lines|
  {
    exists j :: OpenSince(proxy, lines, j, k)
  }

  /** Line k is the first data line of an endpoint event. */
  ghost predicate Announces(proxy: Proxy, lines: seq<Bytes>, k: nat)
    requires k < |lines|
  {
    IsData(proxy.decode(lines[k])) && Waits(proxy, lines, k)
  }

  ghost function Announced(proxy: Proxy, lines: seq<Bytes>): seq<string> {
    if lines == [] then []
    else
      var n := |lines| - 1;
      Announced(proxy, lines[..n]) + if Announces(proxy, lines, n) then [DataOf(proxy.decode(lines[n]))] else []
  }

  function RememberAll(proxy: Proxy, stream: string, urls: Registry, data: seq<string>): Registry {
    if data == [] then urls
    else Remember(proxy, stream, RememberAll(proxy, stream, urls, data[..|data| - 1]), data[|data| - 1])
  }

  lemma WaitsStep(proxy: Proxy, lines: seq<Bytes>, k: nat)
    requires k < |lines|
    ensures Waits(proxy, lines, k + 1)
            <==> var text := proxy.decode(lines[k]); OpensEndpoint(text) || (Waits(proxy, lines, k) && !Closes(text))
  {
    hide OpensEndpoint, Closes;
    var text := proxy.decode(lines[k]);
    if Waits(proxy, lines, k + 1) {
      var j: nat :| OpenSince(proxy, lines, j, k + 1);
      assert j < k ==> OpenSince(proxy, lines, j, k);
    }
    if OpensEndpoint(text) {
      assert OpenSince(proxy, lines, k, k + 1);
    } else if Waits(proxy, lines, k) && !Closes(text) {
      var j: nat :| OpenSince(proxy, lines, j, k);
      assert OpenSince(proxy, lines, j, k + 1);
    }
  }

  lemma WaitsInPrefix(proxy: Proxy, lines: seq<Bytes>, n: nat, k: nat)
    requires k <= n <= |lines|
    ensures Waits(proxy, lines[..n], k) <==> Waits(proxy, lines, k)
  {
    hide OpensEndpoint, Closes;
    var prefix := lines[..n];
    assert forall i :: 0 <= i < k ==> prefix[i] == lines[i];
    forall j: nat
      ensures OpenSince(proxy, prefix, j, k) <==> OpenSince(proxy, lines, j, k)
    {
    }
  }

  function Rewritten(proxy: Proxy, raw: Bytes): Bytes
    requires IsData(proxy.decode(raw))
  {
    proxy.encode("data: " + LocalPath(DataOf(proxy.decode(raw))))
  }

  lemma LineStep(proxy: Proxy, stream: string, st: RelayState, raw: Bytes)
    ensures var text := proxy.decode(raw);
      var (next, line) := RelayLine(proxy, stream, st, raw);
      var rewrites := IsData(text) && st.event == Some("endpoint");
      && line == (if rewrites then Rewritten(proxy, raw) else raw)
      && next.urls == (if rewrites then Remember(proxy, stream, st.urls, DataOf(text)) else st.urls)
      && (next.event == Some("endpoint")
          <==> OpensEndpoint(text) || (st.event == Some("endpoint") && !Closes(text)))
  {
    hide LocalPath, Remember, Trim;
    EventIsNotData(proxy.decode(raw));
  }

  lemma RememberNext(proxy: Proxy, stream: string, urls: Registry, said: seq<string>, data: string)
    ensures RememberAll(proxy, stream, urls, said + [data])
            == Remember(proxy, stream, RememberAll(proxy, stream, urls, said), data)
  {
    assert (said + [data])[..|said|] == said;
  }

  /**
   * The relay writes one line for each line it reads, in order. It rewrites the first data line of each endpoint
   * event and nothing else, and its registry holds what those lines announced.
   */
  lemma {:induction false} RelayChangesOnlyEndpoints(proxy: Proxy, stream: string, urls: Registry, lines: seq<Bytes>)
    ensures var (st, written) := Relay(proxy, stream, urls, lines);
      && |written| == |lines|
      && (forall k :: 0 <= k < |lines| ==>
            written[k] == if Announces(proxy, lines, k) then Rewritten(proxy, lines[k]) else lines[k])
      && st.urls == RememberAll(proxy, stream, urls, Announced(proxy, lines))
      && (st.event == Some("endpoint") <==> Waits(proxy, lines, |lines|))
  {
    hide RelayLine, Rewritten, Remember, Waits, IsData, DataOf, OpensEndpoint, Closes;
    if lines == [] {
      NothingWaits(proxy);
    } else {
      var n := |lines| - 1;
      var before, raw := lines[..n], lines[n];
      RelayChangesOnlyEndpoints(proxy, stream, urls, before);
      var (st, written) := Relay(proxy, stream, urls, before);
      forall k | 0 <= k <= n
        ensures Waits(proxy, before, k) <==> Waits(proxy, lines, k)
      {
        WaitsInPrefix(proxy, lines, n, k);
      }
      WaitsStep(proxy, lines, n);
      LineStep(proxy, stream, st, raw);
      var said := Announced(proxy, before);
      if Announces(proxy, lines, n) {
        RememberNext(proxy, stream, urls, said, DataOf(proxy.decode(raw)));
      } else {
        assert Announced(proxy, lines) == said;
      }
    }
  }

  lemma NothingWaits(proxy: Proxy)
    ensures !Waits(proxy, [], 0)
  {
  }

  lemma EventIsNotData(text: string)
    ensures !(IsEvent(text) && IsData(text))
    ensures IsEvent(text) || IsData(text) ==> text != ""
  {
    assert "event:"[0] != "data:"[0];
  }

  lemma EndpointTrims()
    ensures Trim(" endpoint") == "endpoint"
  {
    TrimLeadingSpace("endpoint");
    assert TrimLeft("endpoint") == "endpoint" && TrimRight("endpoint") == "endpoint";
  }

  lemma FirstOfTwo(proxy: Proxy, stream: string, urls: Registry, a: Bytes, b: Bytes)
    ensures var (st, first) := RelayLine(proxy, stream, RelayState(None, urls), a);
      var (next, second) := RelayLine(proxy, stream, st, b);
      Relay(proxy, stream, urls, [a, b]) == (next, [first, second])
  {
    hide RelayLine;
    assert [a, b][..1] == [a] && [a][..0] == [];
    var (st, first) := RelayLine(proxy, stream, RelayState(None, urls), a);
    assert Relay(proxy, stream, urls, []) == (RelayState(None, urls), []);
    assert Relay(proxy, stream, urls, [a]) == (st, [] + [first]) && [] + [first] == [first];
    var second := RelayLine(proxy, stream, st, b).1;
    assert [a, b][1] == b && [first] + [second] == [first, second];
    assert Relay(proxy, stream, urls, [a, b]).1 == [first] + [second];
  }

  /** An endpoint event as servers send it: its line of data becomes the path and query of the URL, and the session that
      the URL names is registered under the URL itself. */
  lemma EndpointEventIsRewritten(proxy: Proxy, stream: string, urls: Registry, event: Bytes, data: Bytes, url: string,
                                 path: string, query: string, session: string)
    requires proxy.decode(event) == "event: endpoint" && proxy.decode(data) == "data: " + url && Trim(url) == url
    requires StartsWith(url, "http") && ParseUrl(url).path == path && ParseUrl(url).query == query && query != ""
    requires SessionId(proxy.unquote, url) == Some(session) && session != ""
    ensures var (st, written) := Relay(proxy, stream, urls, [event, data]);
      && written == [event, proxy.encode("data: " + (path + ("?" + query)))]
      && st == RelayState(None, urls[session := url])
  {
    hide ParseUrl, SessionId, Relay, Trim;
    FirstOfTwo(proxy, stream, urls, event, data);
    EndpointTrims();
    TrimLeadingSpace(url);
    var text := "data: " + url;
    assert "event: endpoint"[6..] == " endpoint" && text[5..] == " " + url;
    assert text[0] != "event:"[0];
  }

  // ---- Relaying a relayed stream ----

  /** Every announced URL is one that a second relay would leave alone. */
  ghost predicate AllSettled(proxy: Proxy, lines: seq<Bytes>) {
    forall k :: 0 <= k < |lines| && Announces(proxy, lines, k) ==> RewritesOnce(DataOf(proxy.decode(lines[k])))
  }

  /** The kinds of lines, which decide what waits. */
  lemma SameKindsWait(proxy: Proxy, a: seq<Bytes>, b: seq<Bytes>, k: nat)
    requires |a| == |b| && k <= |a|
    requires forall i :: 0 <= i < |a| ==>
      && (OpensEndpoint(proxy.decode(a[i])) <==> OpensEndpoint(proxy.decode(b[i])))
      && (Closes(proxy.decode(a[i])) <==> Closes(proxy.decode(b[i])))
    ensures Waits(proxy, a, k) <==> Waits(proxy, b, k)
  {
    hide OpensEndpoint, Closes;
    forall j: nat
      ensures OpenSince(proxy, a, j, k) <==> OpenSince(proxy, b, j, k)
    {
    }
  }

  lemma TrimLeadingSpace(s: string)
    ensures Trim(" " + s) == Trim(s)
  {
    assert (" " + s)[1..] == s;
  }

  lemma RewrittenLine(proxy: Proxy, raw: Bytes)
    requires proxy.RoundTrips() && IsData(proxy.decode(raw))
    ensures var local := LocalPath(DataOf(proxy.decode(raw)));
      var text := proxy.decode(Rewritten(proxy, raw));
      text == "data: " + local && IsData(text) && DataOf(text) == Trim(local)
  {
    hide LocalPath, Trim;
    var local := LocalPath(DataOf(proxy.decode(raw)));
    var text := "data: " + local;
    assert text[5..] == " " + local;
    TrimLeadingSpace(local);
  }

  lemma {:induction false} TrimRightStays(s: string)
    ensures TrimRight(TrimRight(s)) == TrimRight(s)
    ensures s != "" && !IsSpace(s[0]) ==> TrimRight(s) != "" && TrimRight(s)[0] == s[0]
  {
    if s != "" && IsSpace(s[|s| - 1]) {
      TrimRightStays(s[..|s| - 1]);
    }
  }

  lemma {:induction false} TrimLeftStarts(s: string)
    ensures TrimLeft(s) == "" || !IsSpace(TrimLeft(s)[0])
  {
    if s != "" && IsSpace(s[0]) {
      TrimLeftStarts(s[1..]);
    }
  }

  lemma TrimIsIdempotent(s: string)
    ensures Trim(Trim(s)) == Trim(s)
  {
    TrimLeftStarts(s);
    TrimRightStays(TrimLeft(s));
  }

  /** Rewriting a rewritten line changes nothing exactly if its URL is settled. */
  lemma RewrittenTwice(proxy: Proxy, raw: Bytes)
    requires proxy.RoundTrips() && IsData(proxy.decode(raw))
    ensures IsData(proxy.decode(Rewritten(proxy, raw)))
    ensures Rewritten(proxy, Rewritten(proxy, raw)) == Rewritten(proxy, raw)
            <==> RewritesOnce(DataOf(proxy.decode(raw)))
  {
    hide LocalPath, Trim, RewritesOnce;
    var data := DataOf(proxy.decode(raw));
    var local := LocalPath(data);
    RewrittenLine(proxy, raw);
    TrimIsIdempotent(proxy.decode(raw)[5..]);
    RewritingSettles(data);
    var again := LocalPath(Trim(local));
    if proxy.encode("data: " + again) == proxy.encode("data: " + local) {
      assert proxy.decode(proxy.encode("data: " + again)) == "data: " + local;
      assert ("data: " + again)[6..] == again && ("data: " + local)[6..] == local;
    }
  }

  lemma RewritingKeepsKinds(proxy: Proxy, raw: Bytes)
    requires proxy.RoundTrips() && IsData(proxy.decode(raw))
    ensures var text, now := proxy.decode(raw), proxy.decode(Rewritten(proxy, raw));
      IsData(now) && !OpensEndpoint(text) && !OpensEndpoint(now) && Closes(text) && Closes(now)
  {
    hide Rewritten;
    RewrittenLine(proxy, raw);
    EventIsNotData(proxy.decode(raw));
    EventIsNotData(proxy.decode(Rewritten(proxy, raw)));
  }

  /** Relaying the relayed lines changes nothing exactly if every announced URL is settled. */
  lemma RelayIsIdempotent(proxy: Proxy, stream: string, urls: Registry, again: Registry, lines: seq<Bytes>)
    requires proxy.RoundTrips()
    ensures var written := Relay(proxy, stream, urls, lines).1;
      Relay(proxy, stream, again, written).1 == written <==> AllSettled(proxy, lines)
  {
    hide Relay, Rewritten, IsData, DataOf, OpensEndpoint, Closes, RewritesOnce;
    var written := Relay(proxy, stream, urls, lines).1;
    RelayChangesOnlyEndpoints(proxy, stream, urls, lines);
    RelayChangesOnlyEndpoints(proxy, stream, again, written);
    forall k | 0 <= k < |lines| && Announces(proxy, lines, k)
      ensures IsData(proxy.decode(written[k]))
      ensures Rewritten(proxy, written[k]) == written[k] <==> RewritesOnce(DataOf(proxy.decode(lines[k])))
      ensures !OpensEndpoint(proxy.decode(lines[k])) && !OpensEndpoint(proxy.decode(written[k]))
      ensures Closes(proxy.decode(lines[k])) && Closes(proxy.decode(written[k]))
    {
      RewrittenTwice(proxy, lines[k]);
      RewritingKeepsKinds(proxy, lines[k]);
    }
    forall k | 0 <= k < |lines|
      ensures Announces(proxy, written, k) <==> Announces(proxy, lines, k)
    {
      SameKindsWait(proxy, written, lines, k);
    }
    var twice := Relay(proxy, stream, again, written).1;
    assert forall k :: 0 <= k < |lines| && !Announces(proxy, lines, k) ==> twice[k] == written[k];
    if twice == written {
      forall k | 0 <= k < |lines| && Announces(proxy, lines, k)
        ensures RewritesOnce(DataOf(proxy.decode(lines[k])))
      {
        assert twice[k] == Rewritten(proxy, written[k]);
      }
    }
  }

  // ---- Where a POST goes ----

  /** The routing choice of `do_POST`. */
  function PostUrl(proxy: Proxy, urls: Registry, path: string): string {
    match SessionId(proxy.unquote, path)
    case None => FallbackUrl(proxy.upstream, path)
    case Some(session) =>
      if session != "" && session in urls && urls[session] != "" then urls[session]
      else FallbackUrl(proxy.upstream, path)
  }

  /** Entry k is the last one of this session. */
  predicate IsLatest(proxy: Proxy, said: seq<string>, k: nat, session: string) {
    && k < |said| && SessionId(proxy.unquote, said[k]) == Some(session)
    && forall i :: k < i < |said| ==> SessionId(proxy.unquote, said[i]) != Some(session)
  }

  lemma {:induction false} RegistryHoldsTheLatest(proxy: Proxy, stream: string, urls: Registry, said: seq<string>,
                                                  k: nat, session: string)
    requires IsLatest(proxy, said, k, session) && session != ""
    ensures var all := RememberAll(proxy, stream, urls, said);
      session in all && all[session] == ResolveMessageUrl(stream, said[k])
    decreases |said|
  {
    hide SessionId, ResolveMessageUrl;
    var n := |said| - 1;
    if k < n {
      assert IsLatest(proxy, said[..n], k, session);
      RegistryHoldsTheLatest(proxy, stream, urls, said[..n], k, session);
      assert SessionId(proxy.unquote, said[n]) != Some(session);
    }
  }

  lemma ResolvedIsNotEmpty(stream: string, data: string)
    ensures ResolveMessageUrl(stream, data) != ""
  {
  }

  /** A POST to any rewritten path of a session goes to the URL that the stream announced last for that session. */
  lemma PostFollowsTheLatest(proxy: Proxy, stream: string, urls: Registry, lines: seq<Bytes>, k: nat, endpoint: string,
                             session: string)
    requires session != "" && IsLatest(proxy, Announced(proxy, lines), k, session)
    requires SessionId(proxy.unquote, endpoint) == Some(session)
    ensures PostUrl(proxy, Relay(proxy, stream, urls, lines).0.urls, ServedPath(LocalPath(endpoint)))
            == ResolveMessageUrl(stream, Announced(proxy, lines)[k])
  {
    hide SessionId, ResolveMessageUrl, LocalPath, ServedPath, Relay, FallbackUrl;
    RelayChangesOnlyEndpoints(proxy, stream, urls, lines);
    RewritingKeepsTheSession(proxy.unquote, endpoint);
    ServingKeepsTheSession(proxy.unquote, LocalPath(endpoint));
    var said := Announced(proxy, lines);
    RegistryHoldsTheLatest(proxy, stream, urls, said, k, session);
    ResolvedIsNotEmpty(stream, said[k]);
  }

  /** The upstream URL of one stream: the proxy's own, with the query of the client's request. */
  function StreamUrl(upstream: string, query: Option<string>): string {
    match query
    case None => upstream
    case Some(q) => upstream + "?" + q
  }

  lemma StreamOrigin(upstream: string, query: Option<string>)
    ensures Origin(StreamUrl(upstream, query)) == Origin(upstream)
  {
    if query.Some? {
      OriginIgnoresQuery(upstream, query.value);
    }
  }

  /** A rooted relative path, or a URL of the server's own origin with a plain path that begins with one slash. */
  predicate IsRooted(upstream: string, endpoint: string) {
    if StartsWith(endpoint, "http") then
      && StartsWith(endpoint, Origin(upstream)) && IsPlainPath(endpoint[|Origin(upstream)|..])
      && !StartsWith(endpoint[|Origin(upstream)|..], "//")
    else StartsWith(endpoint, "/")
  }

  /** For such endpoints it makes no difference whether the session is still known. */
  lemma KnownAndUnknownSessionsAgree(proxy: Proxy, query: Option<string>, endpoint: string)
    requires IsRooted(proxy.upstream, endpoint)
    ensures ResolveMessageUrl(StreamUrl(proxy.upstream, query), endpoint)
            == PostUrl(proxy, map[], ServedPath(LocalPath(endpoint)))
  {
    hide Origin, SessionId, IsPlainPath, StreamUrl;
    StreamOrigin(proxy.upstream, query);
    if StartsWith(endpoint, "http") {
      var path := endpoint[|Origin(proxy.upstream)|..];
      assert endpoint == Origin(proxy.upstream) + path;
      SameOriginRoutesAgree(proxy.upstream, path);
    } else {
      RelativeRoutesAgree(proxy.upstream, endpoint);
    }
  }

  // ---- The proxy as it runs ----

  /** The map that all requests share. */
  class SessionRegistry {
    var urls: Registry

    constructor ()
      ensures urls == map[]
    {
      urls := map[];
    }

    /** The loop of `_handle_sse`: reads the upstream stream and writes to the client. */
    method HandleSse(proxy: Proxy, stream: string, chunks: seq<Bytes>) returns (written: Bytes)
      modifies this
      ensures var (st, lines) := Relay(proxy, stream, old(urls), StreamLines(Concat(chunks)));
        urls == st.urls && written == Terminated(lines)
    {
      hide ResolveMessageUrl, LocalPath, SessionId, StreamLines, Trim, Terminated;
      var lines, _ := IterSseLines(chunks);
      ghost var relayed: seq<Bytes> := [];
      var currentEvent: Option<string> := None;
      written := [];
      TerminatedNothing();
      for k := 0 to |lines|
        invariant (RelayState(currentEvent, urls), relayed) == Relay(proxy, stream, old(urls), lines[..k])
        invariant written == Terminated(relayed)
      {
        assert lines[..k + 1][..k] == lines[..k];
        var raw := lines[k];
        var text := proxy.decode(raw);
        var line := raw;
        if IsEvent(text) {
          currentEvent := Some(Trim(text[6..]));
        } else if IsData(text) && currentEvent == Some("endpoint") {
          var data := DataOf(text);
          var session := SessionId(proxy.unquote, data);
          if session.Some? && session.value != "" {
            urls := urls[session.value := ResolveMessageUrl(stream, data)];
          }
          line := proxy.encode("data: " + LocalPath(data));
          currentEvent := None;
        } else if text == "" {
          currentEvent := None;
        }
        TerminatedNext(relayed, line);
        written := written + line + [LF];
        relayed := relayed + [line];
      }
      assert lines[..|lines|] == lines;
    }

    /** Where `do_POST` sends the message. */
    method RoutePost(proxy: Proxy, path: string) returns (url: string)
      ensures url == PostUrl(proxy, urls, path)
    {
      url := "";
      var session := SessionId(proxy.unquote, path);
      if session.Some? && session.value != "" && session.value in urls {
        url := urls[session.value];
      }
      if url == "" {
        url := FallbackUrl(proxy.upstream, path);
      }
    }
  }

  lemma TerminatedNothing()
    ensures Terminated([]) == []
  {
  }

  lemma TerminatedNext(lines: seq<Bytes>, line: Bytes)
    ensures Terminated(lines + [line]) == Terminated(lines) + line + [LF]
  {
    TerminatedAppend(lines, [line]);
  }
}

// Several streams over one registry: what each client sees, and where a session posts, in every interleaving.
module SseStreams {
  import opened Options
  import opened ProxyUrls
  import opened SseLines
  import opened SseRelay

  /** A line that the handler of one stream reads while others are at work. */
  datatype Arrival = Arrival(stream: nat, raw: Bytes)

  /** What one handler keeps for itself. */
  datatype Client = Client(event: Option<string>, written: seq<Bytes>)

  type Upstreams = nat -> string

  function ClientOf(clients: map<nat, Client>, stream: nat): Client {
    if stream in clients then clients[stream] else Client(None, [])
  }

  /** Handlers take turns line by line; the registry is all that they share. */
  function RelayAll(proxy: Proxy, upstreams: Upstreams, urls: Registry, schedule: seq<Arrival>)
    : (Registry, map<nat, Client>)
  {
    if schedule == [] then (urls, map[])
    else
      var (now, clients) := RelayAll(proxy, upstreams, urls, schedule[..|schedule| - 1]);
      var last := schedule[|schedule| - 1];
      var c := ClientOf(clients, last.stream);
      var (next, line) := RelayLine(proxy, upstreams(last.stream), RelayState(c.event, now), last.raw);
      (next.urls, clients[last.stream := Client(next.event, c.written + [line])])
  }

  /** The lines of one stream. */
  function LinesOf(schedule: seq<Arrival>, stream: nat): seq<Bytes> {
    if schedule == [] then []
    else
      var last := schedule[|schedule| - 1];
      LinesOf(schedule[..|schedule| - 1], stream) + if last.stream == stream then [last.raw] else []
  }

  /** Neither the line that is written nor the wait for an endpoint depends on the registry. */
  lemma LineIgnoresRegistry(proxy: Proxy, stream: string, event: Option<string>, a: Registry, b: Registry, raw: Bytes)
    ensures var (first, line) := RelayLine(proxy, stream, RelayState(event, a), raw);
      var (second, same) := RelayLine(proxy, stream, RelayState(event, b), raw);
      first.event == second.event && line == same
  {
  }

  lemma RelayNext(proxy: Proxy, stream: string, urls: Registry, lines: seq<Bytes>, raw: Bytes)
    ensures var (st, written) := Relay(proxy, stream, urls, lines);
      var (next, line) := RelayLine(proxy, stream, st, raw);
      Relay(proxy, stream, urls, lines + [raw]) == (next, written + [line])
  {
    assert (lines + [raw])[..|lines|] == lines;
  }

  /** Whatever the other streams do, each client sees its own stream relayed as if it were alone. */
  lemma {:induction false} StreamsAreIsolated(proxy: Proxy, upstreams: Upstreams, urls: Registry,
                                              schedule: seq<Arrival>, stream: nat)
    ensures var c := ClientOf(RelayAll(proxy, upstreams, urls, schedule).1, stream);
      var (st, written) := Relay(proxy, upstreams(stream), urls, LinesOf(schedule, stream));
      c.written == written && c.event == st.event
  {
    hide RelayLine;
    if schedule != [] {
      var init, last := schedule[..|schedule| - 1], schedule[|schedule| - 1];
      StreamsAreIsolated(proxy, upstreams, urls, init, stream);
      if last.stream == stream {
        var lines := LinesOf(init, stream);
        RelayNext(proxy, upstreams(stream), urls, lines, last.raw);
        var (now, clients) := RelayAll(proxy, upstreams, urls, init);
        var st := Relay(proxy, upstreams(stream), urls, lines).0;
        LineIgnoresRegistry(proxy, upstreams(stream), st.event, now, st.urls, last.raw);
      } else {
        assert LinesOf(schedule, stream) == LinesOf(init, stream);
      }
    }
  }

  /** Line k of the schedule is the first data line of an endpoint event of its own stream. */
  ghost predicate AnnouncesAt(proxy: Proxy, schedule: seq<Arrival>, k: nat)
    requires k < |schedule|
  {
    && IsData(proxy.decode(schedule[k].raw))
    && var before := LinesOf(schedule[..k], schedule[k].stream);
       Waits(proxy, before, |before|)
  }

  /** Line k announces this session. */
  ghost predicate Names(proxy: Proxy, schedule: seq<Arrival>, k: nat, session: string)
    requires k < |schedule|
  {
    && AnnouncesAt(proxy, schedule, k)
    && SessionId(proxy.unquote, DataOf(proxy.decode(schedule[k].raw))) == Some(session)
  }

  /** The registry changes exactly with the lines that announce. */
  lemma RegistryStep(proxy: Proxy, upstreams: Upstreams, urls: Registry, schedule: seq<Arrival>)
    requires schedule != []
    ensures var init, last := schedule[..|schedule| - 1], schedule[|schedule| - 1];
      var before := RelayAll(proxy, upstreams, urls, init).0;
      RelayAll(proxy, upstreams, urls, schedule).0
      == if AnnouncesAt(proxy, schedule, |schedule| - 1)
         then Remember(proxy, upstreams(last.stream), before, DataOf(proxy.decode(last.raw))) else before
  {
    hide RelayLine, Remember, IsData, DataOf, Waits, Rewritten;
    var init, last := schedule[..|schedule| - 1], schedule[|schedule| - 1];
    var stream := upstreams(last.stream);
    var lines := LinesOf(init, last.stream);
    StreamsAreIsolated(proxy, upstreams, urls, init, last.stream);
    RelayChangesOnlyEndpoints(proxy, stream, urls, lines);
    var (now, clients) := RelayAll(proxy, upstreams, urls, init);
    LineStep(proxy, stream, RelayState(ClientOf(clients, last.stream).event, now), last.raw);
  }

  /** Wherever its stream is, a session posts to the URL that was announced for it last, in the order in which the
      handlers read their lines. */
  lemma {:induction false} SessionFollowsTheLatest(proxy: Proxy, upstreams: Upstreams, urls: Registry,
                                                   schedule: seq<Arrival>, k: nat, session: string)
    requires session != "" && k < |schedule| && Names(proxy, schedule, k, session)
    requires forall i :: k < i < |schedule| ==> !Names(proxy, schedule, i, session)
    ensures var now := RelayAll(proxy, upstreams, urls, schedule).0;
      && session in now
      && now[session] == ResolveMessageUrl(upstreams(schedule[k].stream), DataOf(proxy.decode(schedule[k].raw)))
    decreases |schedule|
  {
    hide SessionId, ResolveMessageUrl, IsData, DataOf, Waits;
    RegistryStep(proxy, upstreams, urls, schedule);
    var n := |schedule| - 1;
    var init := schedule[..n];
    if k < n {
      forall i | 0 <= i < n
        ensures Names(proxy, init, i, session) <==> Names(proxy, schedule, i, session)
      {
        assert init[..i] == schedule[..i];
      }
      SessionFollowsTheLatest(proxy, upstreams, urls, init, k, session);
      assert !Names(proxy, schedule, n, session);
    }
  }
}

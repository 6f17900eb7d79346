// Cutting an event stream into lines, whatever the chunks in which it arrives.
module SseLines {

  type Bytes = seq<bv8>

  const LF: bv8 := 10
  const CR: bv8 := 13

  function TrimCr(line: Bytes): Bytes {
    if line != [] && line[|line| - 1] == CR then TrimCr(line[..|line| - 1]) else line
  }

  function FindLf(s: Bytes): (n: nat)
    ensures n <= |s|
    ensures n < |s| ==> s[n] == LF
    ensures forall i :: 0 <= i < n ==> s[i] != LF
  {
    if s == [] || s[0] == LF then 0 else 1 + FindLf(s[1..])
  }

  predicate NoLf(line: Bytes) {
    forall i :: 0 <= i < |line| ==> line[i] != LF
  }

  /** The lines that are complete, without their LF. */
  function Complete(s: Bytes): seq<Bytes> {
    var n := FindLf(s);
    if n == |s| then [] else [s[..n]] + Complete(s[n + 1..])
  }

  /** What follows the last LF. */
  function Rest(s: Bytes): Bytes {
    var n := FindLf(s);
    if n == |s| then s else Rest(s[n + 1..])
  }

  function TrimAll(lines: seq<Bytes>): (r: seq<Bytes>)
    ensures |r| == |lines|
    ensures forall i :: 0 <= i < |r| ==> r[i] == TrimCr(lines[i])
  {
    if lines == [] then [] else [TrimCr(lines[0])] + TrimAll(lines[1..])
  }

  /** The lines of a stream: those that are complete, and the unterminated tail if there is one. */
  function StreamLines(s: Bytes): seq<Bytes> {
    TrimAll(Complete(s)) + if Rest(s) == [] then [] else [TrimCr(Rest(s))]
  }

  function Concat(chunks: seq<Bytes>): Bytes {
    if chunks == [] then [] else Concat(chunks[..|chunks| - 1]) + chunks[|chunks| - 1]
  }

  /** The stream that these lines came from. */
  function Terminated(lines: seq<Bytes>): Bytes {
    if lines == [] then [] else lines[0] + ([10] + Terminated(lines[1..]))
  }

  lemma FindLfIn(line: Bytes, below: Bytes)
    requires NoLf(line)
    ensures var s := line + ([LF] + below);
      FindLf(s) == |line| && s[..|line|] == line && s[|line| + 1..] == below
  {
    var s := line + ([LF] + below);
    assert s[|line|] == LF;
    assert forall i :: 0 <= i < |line| ==> s[i] == line[i];
    hide FindLf;
  }

  lemma NoLfAnywhere(s: Bytes)
    ensures NoLf(s) <==> FindLf(s) == |s|
  {
    hide FindLf;
  }

  lemma CutAtFirst(s: Bytes)
    requires FindLf(s) < |s|
    ensures s == s[..FindLf(s)] + ([LF] + s[FindLf(s) + 1..])
    ensures NoLf(s[..FindLf(s)])
  {
    hide FindLf, NoLf;
    SplitAt(s, FindLf(s));
    PrefixHasNoLf(s);
  }

  lemma SplitAt(s: Bytes, n: nat)
    requires n < |s|
    ensures s == s[..n] + ([s[n]] + s[n + 1..])
  {
  }

  lemma PrefixHasNoLf(s: Bytes)
    ensures NoLf(s[..FindLf(s)])
  {
    hide FindLf;
  }

  lemma Regroup(a: Bytes, b: Bytes, c: Bytes, d: Bytes)
    ensures a + (b + (c + d)) == (a + (b + c)) + d
  {
  }

  /** The cut is right: no line holds an LF, and putting the LFs back gives the stream. */
  lemma {:induction false} CutLosesNothing(s: Bytes)
    ensures s == Terminated(Complete(s)) + Rest(s)
    ensures NoLf(Rest(s))
    ensures forall i :: 0 <= i < |Complete(s)| ==> NoLf(Complete(s)[i])
  {
    hide FindLf, NoLf, TrimCr;
    var n := FindLf(s);
    if n == |s| {
      NoLfAnywhere(s);
    } else {
      CutAtFirst(s);
      var below := s[n + 1..];
      CutLosesNothing(below);
      var c := Complete(s);
      assert c == [s[..n]] + Complete(below);
      assert c[1..] == Complete(below);
      Regroup(s[..n], [LF], Terminated(Complete(below)), Rest(below));
    }
  }

  /** And it is the only one. */
  lemma {:induction false} CutIsUnique(lines: seq<Bytes>, tail: Bytes)
    requires NoLf(tail) && forall i :: 0 <= i < |lines| ==> NoLf(lines[i])
    ensures Complete(Terminated(lines) + tail) == lines
    ensures Rest(Terminated(lines) + tail) == tail
  {
    hide FindLf, NoLf;
    var s := Terminated(lines) + tail;
    if lines == [] {
      NoLfAnywhere(tail);
      assert s == tail;
    } else {
      CutIsUnique(lines[1..], tail);
      var below := Terminated(lines[1..]) + tail;
      Regroup(lines[0], [LF], Terminated(lines[1..]), tail);
      assert s == lines[0] + ([LF] + below);
      FindLfIn(lines[0], below);
      assert lines == [lines[0]] + lines[1..];
    }
  }

  /**
   * What a reader gets: if the stream is any lines without line feed (10), each followed by one, and then a tail
   * without line feed, these lines come out, and the tail if it is not empty, all without their trailing CRs.
   */
  lemma StreamIsCutAtLineFeeds(s: Bytes, lines: seq<Bytes>, tail: Bytes)
    requires forall i :: 0 <= i < |tail| ==> tail[i] != 10
    requires forall k :: 0 <= k < |lines| ==> forall i :: 0 <= i < |lines[k]| ==> lines[k][i] != 10
    requires s == Terminated(lines) + tail
    ensures var out := StreamLines(s);
      && |out| == |lines| + (if tail == [] then 0 else 1)
      && (forall k :: 0 <= k < |lines| ==> out[k] == TrimCr(lines[k]))
      && (tail != [] ==> out[|lines|] == TrimCr(tail))
  {
    hide TrimCr, Terminated, Complete, Rest;
    assert NoLf(tail) && forall k :: 0 <= k < |lines| ==> NoLf(lines[k]);
    CutIsUnique(lines, tail);
  }

  /** Only carriage returns (13) at the end are removed, and all of them. */
  lemma {:induction false} TrimCrIsExact(line: Bytes)
    ensures var t := TrimCr(line);
      && |t| <= |line| && t == line[..|t|]
      && (forall i :: |t| <= i < |line| ==> line[i] == 13)
      && (t != [] ==> t[|t| - 1] != 13)
  {
    if line != [] && line[|line| - 1] == CR {
      var shorter := line[..|line| - 1];
      TrimCrIsExact(shorter);
      forall i | |TrimCr(line)| <= i < |line|
        ensures line[i] == CR
      {
        assert i < |shorter| ==> shorter[i] == line[i];
      }
    }
  }

  lemma {:induction false} TerminatedAppend(a: seq<Bytes>, b: seq<Bytes>)
    ensures Terminated(a + b) == Terminated(a) + Terminated(b)
  {
    if a == [] {
      assert a + b == b;
    } else {
      assert (a + b)[1..] == a[1..] + b;
      TerminatedAppend(a[1..], b);
      Regroup(a[0], [LF], Terminated(a[1..]), Terminated(b));
    }
  }

  /** Cutting can stop anywhere and go on with what was left over. */
  lemma CutGoesOn(a: Bytes, b: Bytes)
    ensures Complete(a + b) == Complete(a) + Complete(Rest(a) + b)
    ensures Rest(a + b) == Rest(Rest(a) + b)
  {
    hide Complete, Rest, Terminated, NoLf;
    var first, second := Complete(a), Complete(Rest(a) + b);
    var tail := Rest(Rest(a) + b);
    CutLosesNothing(a);
    CutLosesNothing(Rest(a) + b);
    TerminatedAppend(first, second);
    forall i | 0 <= i < |first + second|
      ensures NoLf((first + second)[i])
    {
    }
    assert a + b == Terminated(first) + (Rest(a) + b);
    assert a + b == Terminated(first + second) + tail;
    CutIsUnique(first + second, tail);
  }

  lemma {:induction false} TrimAllAppend(a: seq<Bytes>, b: seq<Bytes>)
    ensures TrimAll(a + b) == TrimAll(a) + TrimAll(b)
  {
  }

  /** One complete line moves from the buffer to the output. */
  lemma TakeLine(buffer: Bytes)
    requires FindLf(buffer) < |buffer|
    ensures var n := FindLf(buffer);
      && TrimAll(Complete(buffer)) == [TrimCr(buffer[..n])] + TrimAll(Complete(buffer[n + 1..]))
      && Rest(buffer) == Rest(buffer[n + 1..])
  {
    hide FindLf, TrimCr;
    var n := FindLf(buffer);
    assert Complete(buffer)[1..] == Complete(buffer[n + 1..]);
  }

  /** The inner loop: every complete line of the buffer. */
  method TakeLines(buffer: Bytes) returns (lines: seq<Bytes>, rest: Bytes)
    ensures lines == TrimAll(Complete(buffer)) && rest == Rest(buffer)
  {
    hide TrimAll, Complete, Rest, TrimCr;
    lines, rest := [], buffer;
    while FindLf(rest) < |rest|
      invariant lines + TrimAll(Complete(rest)) == TrimAll(Complete(buffer))
      invariant Rest(rest) == Rest(buffer)
      decreases |rest|
    {
      var n := FindLf(rest);
      TakeLine(rest);
      lines := lines + [TrimCr(rest[..n])];
      rest := rest[n + 1..];
    }
    NothingToTake(rest);
  }

  lemma NothingToTake(buffer: Bytes)
    requires FindLf(buffer) == |buffer|
    ensures TrimAll(Complete(buffer)) == [] && Rest(buffer) == buffer
  {
  }

  lemma NextChunk(chunks: seq<Bytes>, k: nat)
    requires k < |chunks|
    ensures Concat(chunks[..k + 1]) == Concat(chunks[..k]) + chunks[k]
  {
    assert chunks[..k + 1][..k] == chunks[..k];
  }

  lemma NoChunks()
    ensures Concat([]) == []
  {
  }

  /** `_iter_sse_lines`; `soFar` says how many lines it has yielded when it asks for the next chunk. No line waits for
      more than its LF. */
  method IterSseLines(chunks: seq<Bytes>) returns (lines: seq<Bytes>, soFar: seq<nat>)
    ensures lines == StreamLines(Concat(chunks))
    ensures |soFar| == |chunks|
    ensures forall k :: 0 <= k < |chunks| ==>
              soFar[k] <= |lines| && lines[..soFar[k]] == TrimAll(Complete(Concat(chunks[..k + 1])))
  {
    hide Concat, TrimAll, Complete, Rest, TrimCr;
    lines, soFar := [], [];
    var buffer: Bytes := [];
    NothingToTake([]);
    NoChunks();
    for k := 0 to |chunks|
      invariant lines == TrimAll(Complete(Concat(chunks[..k])))
      invariant buffer == Rest(Concat(chunks[..k]))
      invariant |soFar| == k
      invariant forall i :: 0 <= i < k ==>
                  soFar[i] <= |lines| && lines[..soFar[i]] == TrimAll(Complete(Concat(chunks[..i + 1])))
    {
      NextChunk(chunks, k);
      CutGoesOn(Concat(chunks[..k]), chunks[k]);
      TrimAllAppend(Complete(Concat(chunks[..k])), Complete(buffer + chunks[k]));
      if chunks[k] != [] {
        buffer := buffer + chunks[k];
      } else {
        assert buffer + chunks[k] == buffer;
      }
      var complete: seq<Bytes>;
      complete, buffer := TakeLines(buffer);
      ghost var before := lines;
      lines := lines + complete;
      soFar := soFar + [|lines|];
      assert lines[..|lines|] == lines;
      assert forall i :: 0 <= i < k ==> lines[..soFar[i]] == before[..soFar[i]];
    }
    assert chunks[..|chunks|] == chunks;
    if buffer != [] {
      ghost var before := lines;
      lines := lines + [TrimCr(buffer)];
      assert forall i :: 0 <= i < |chunks| ==> lines[..soFar[i]] == before[..soFar[i]];
    }
  }
}

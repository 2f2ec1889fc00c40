/** The stdout line buffer of `SyncModal.startSync` (main.ts:192-205): every
    raw chunk is added to a residual string; once that string holds a newline
    it is split, the last fragment stays behind as the new residual and the
    complete lines before it become the displayed text. */
module LineBuffer {
  import opened Wrappers
  import opened Text

  /** What one chunk does to the buffer: the new residual, and the complete
      lines to display when the combined buffer was split (None when it held
      no newline and nothing is displayed). */
  datatype Fed = Fed(residual: string, lines: Option<seq<string>>)

  /** One `data` event of the stdout handler. `lines.pop() || ""` takes the
      last piece of the split; the `|| ""` changes nothing, since that piece
      is always a string and an empty one stays empty. */
  function Feed(residual: string, chunk: string): (r: Fed)
    ensures r.lines.None? <==> NL !in residual + chunk
    ensures r.lines.None? ==> r.residual == residual + chunk
    ensures NL !in r.residual
  {
    var combined := residual + chunk;
    if NL in combined then
      var pieces := Split(combined);
      Fed(pieces[|pieces| - 1], Some(pieces[..|pieces| - 1]))
    else
      Fed(combined, None)
  }

  /** The text a chunk moves out of the buffer: its complete lines, each
      followed by the newline that ended it. */
  function Consumed(f: Fed): string
  {
    match f.lines
    case None => ""
    case Some(ls) => Join(ls) + [NL]
  }

  /** Round trip of one split: the displayed lines joined with newlines, then a
      newline, then the new residual, are exactly the old residual followed by
      the chunk. The displayed lines are at least one and newline-free. */
  lemma FeedRoundTrip(residual: string, chunk: string)
    requires NL in residual + chunk
    ensures Feed(residual, chunk).lines.Some?
    ensures Join(Feed(residual, chunk).lines.value) + [NL] + Feed(residual, chunk).residual
            == residual + chunk
    ensures |Feed(residual, chunk).lines.value| >= 1
    ensures forall k :: 0 <= k < |Feed(residual, chunk).lines.value| ==>
              NL !in Feed(residual, chunk).lines.value[k]
  {
    var pieces := Split(residual + chunk);
    SplitNewline(residual + chunk);
    JoinSplit(residual + chunk);
    JoinSnoc(pieces[..|pieces| - 1], pieces[|pieces| - 1]);
    assert pieces[..|pieces| - 1] + [pieces[|pieces| - 1]] == pieces;
  }

  /** Joining with one more piece at the end adds a newline and that piece. */
  lemma {:induction false} JoinSnoc(front: seq<string>, last: string)
    requires |front| >= 1
    ensures Join(front + [last]) == Join(front) + [NL] + last
    decreases |front|
  {
    if |front| == 1 {
      assert front + [last] == [front[0], last];
      assert [front[0], last][1..] == [last];
    } else {
      JoinSnoc(front[1..], last);
      assert (front + [last])[1..] == front[1..] + [last];
    }
  }

  /** Nothing is lost or invented by one chunk: what it moves out plus the new
      residual is the old residual plus the chunk. */
  lemma FeedConserves(residual: string, chunk: string)
    ensures Consumed(Feed(residual, chunk)) + Feed(residual, chunk).residual == residual + chunk
  {
    if NL in residual + chunk {
      FeedRoundTrip(residual, chunk);
    }
  }

  /** All chunks of a stream, in order of arrival. */
  function Concat(chunks: seq<string>): string
  {
    if chunks == [] then "" else chunks[0] + Concat(chunks[1..])
  }

  /** The result of replaying a stream of chunks through the buffer: all text
      the buffer moved out (complete lines with their newlines) and the final
      residual. */
  datatype Replayed = Replayed(emitted: string, residual: string)

  function Replay(residual: string, chunks: seq<string>): Replayed
    decreases |chunks|
  {
    if chunks == [] then Replayed("", residual)
    else
      var f := Feed(residual, chunks[0]);
      var rest := Replay(f.residual, chunks[1..]);
      Replayed(Consumed(f) + rest.emitted, rest.residual)
  }

  /** A text that is empty or ends with a newline: made of complete lines. */
  predicate CompleteLines(s: string)
  {
    s == [] || s[|s| - 1] == NL
  }

  /** The round-trip law over a whole stream: the emitted lines followed by
      the residual reconstruct the starting residual plus every chunk, the
      emitted text consists of complete lines, and the residual is
      newline-free. */
  lemma {:induction false} ReplayReconstructs(residual: string, chunks: seq<string>)
    requires NL !in residual
    ensures Replay(residual, chunks).emitted + Replay(residual, chunks).residual
            == residual + Concat(chunks)
    ensures CompleteLines(Replay(residual, chunks).emitted)
    ensures NL !in Replay(residual, chunks).residual
    decreases |chunks|
  {
    if chunks != [] {
      var f := Feed(residual, chunks[0]);
      var rest := Replay(f.residual, chunks[1..]);
      assert Replay(residual, chunks) == Replayed(Consumed(f) + rest.emitted, rest.residual);
      assert Concat(chunks) == chunks[0] + Concat(chunks[1..]);
      FeedConserves(residual, chunks[0]);
      ReplayReconstructs(f.residual, chunks[1..]);
      AppendAssoc(Consumed(f), rest.emitted, rest.residual);
      AppendAssoc(residual, chunks[0], Concat(chunks[1..]));
      ConsumedComplete(f);
      CompleteLinesAppend(Consumed(f), rest.emitted);
    } else {
      assert residual + Concat(chunks) == residual;
      assert "" + residual == residual;
    }
  }

  lemma AppendAssoc(a: string, b: string, c: string)
    ensures a + b + c == a + (b + c)
  {
  }

  /** What a chunk moves out of the buffer is made of complete lines. */
  lemma ConsumedComplete(f: Fed)
    ensures CompleteLines(Consumed(f))
  {
  }

  /** Complete lines followed by complete lines are complete lines. */
  lemma CompleteLinesAppend(a: string, b: string)
    requires CompleteLines(a) && CompleteLines(b)
    ensures CompleteLines(a + b)
  {
  }

  /** A text has only one split into complete lines followed by a
      newline-free remainder. */
  lemma SplitAtLastNewlineUnique(e1: string, r1: string, e2: string, r2: string)
    requires e1 + r1 == e2 + r2
    requires CompleteLines(e1) && CompleteLines(e2)
    requires NL !in r1 && NL !in r2
    ensures e1 == e2 && r1 == r2
  {
    if |r1| < |r2| {
      NewlineInLongerRest(e1, r1, e2, r2);
    } else if |r2| < |r1| {
      NewlineInLongerRest(e2, r2, e1, r1);
    } else {
      assert e1 == (e1 + r1)[..|e1|] && e2 == (e2 + r2)[..|e2|];
      assert r1 == (e1 + r1)[|e1|..] && r2 == (e2 + r2)[|e2|..];
    }
  }

  /** Helper of the above: a shorter newline-free remainder would leave the
      newline ending `e1` inside the longer one. */
  lemma NewlineInLongerRest(e1: string, r1: string, e2: string, r2: string)
    requires e1 + r1 == e2 + r2
    requires CompleteLines(e1)
    requires |r1| < |r2|
    ensures NL in r2
  {
    var t := e1 + r1;
    var p := |e1| - 1;
    assert p >= |e2|;
    assert t[p] == NL;
    assert r2[p - |e2|] == t[p];
  }

  /** The chunk boundaries do not matter: two streams with the same total text
      emit the same lines and leave the same residual. */
  lemma ChunkBoundariesIrrelevant(chunks1: seq<string>, chunks2: seq<string>)
    requires Concat(chunks1) == Concat(chunks2)
    ensures Replay("", chunks1) == Replay("", chunks2)
  {
    ReplayReconstructs("", chunks1);
    ReplayReconstructs("", chunks2);
    var a, b := Replay("", chunks1), Replay("", chunks2);
    assert "" + Concat(chunks1) == Concat(chunks1);
    SplitAtLastNewlineUnique(a.emitted, a.residual, b.emitted, b.residual);
  }
}

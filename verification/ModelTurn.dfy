/** A whole streamed turn: normalise every chunk, accumulate every event, form the turn. */
module ModelTurn {
  import opened Basics
  import opened StreamEvents
  import opened ThinkTags
  import opened ModelStream
  import opened TurnAccumulator

  // The last finish reason of a stream, and the last usage report that counts something.
  function FinalReason(chunks: seq<Chunk>): string {
    if chunks == [] then ""
    else
      var reason := Reason(chunks[|chunks| - 1].choices);
      if reason != "" then reason else FinalReason(chunks[..|chunks| - 1])
  }

  function FinalUsage(chunks: seq<Chunk>): Option<Usage> {
    if chunks == [] then None
    else
      var reports := UsageReports(chunks[|chunks| - 1].usage);
      if reports != [] then Some(reports[0].usage) else FinalUsage(chunks[..|chunks| - 1])
  }

  lemma {:induction false} LastOfReports(es: seq<Event>)
    ensures LastUsage(es) == LastUsage(Reports(es)) && LastReason(es) == LastReason(Reports(es))
  {
    if es != [] {
      var n := |es| - 1;
      LastOfReports(es[..n]);
      ReportsConcat(es[..n], [es[n]]);
      assert es == es[..n] + [es[n]];
      assert Reports([es[n]]) == ReportIn(es[n]) + Reports([]) == ReportIn(es[n]);
      LastOfMore(Reports(es[..n]), ReportIn(es[n]));
    }
  }

  // The last of two lists of reports decides, where it says anything.
  lemma {:induction false} LastOfMore(a: seq<Event>, b: seq<Event>)
    ensures LastUsage(a + b) == if LastUsage(b).Some? then LastUsage(b) else LastUsage(a)
    ensures LastReason(a + b) == if LastReason(b) != "" then LastReason(b) else LastReason(a)
  {
    if b == [] {
      assert a + b == a;
    } else {
      LastOfMore(a, b[..|b| - 1]);
      assert (a + b)[..|a + b| - 1] == a + b[..|b| - 1];
    }
  }

  lemma {:induction false} StreamReportsFinal(chunks: seq<Chunk>)
    ensures LastReason(StreamReports(chunks)) == FinalReason(chunks)
    ensures LastUsage(StreamReports(chunks)) == FinalUsage(chunks)
  {
    if chunks != [] {
      var n := |chunks| - 1;
      StreamReportsFinal(chunks[..n]);
      LastOfMore(StreamReports(chunks[..n]), ChunkReports(chunks[n]));
      LastOfMore(UsageReports(chunks[n].usage), TurnEnd(Reason(chunks[n].choices)));
    }
  }

  // The result of a stream, given its rebuilt calls.
  ghost predicate IsTurnOf(turn: ModelTurnResult, chunks: seq<Chunk>, calls: seq<ToolCall>) {
    var p := ReadChunks(chunks);
    var out := StreamOut(chunks) + Tag(p.held, p.inside);
    && turn.toolCalls == calls && turn.usage == FinalUsage(chunks) && turn.finishReason == FinalReason(chunks)
    && turn.content == Channel(out, false) && turn.reasoning == Channel(out, true)
  }

  method StreamTurn(chunks: seq<Chunk>, requestId: string, decode: string -> Decoded)
    returns (r: Result<ModelTurnResult, StreamError>)
    ensures match CanonicalCalls(Calls(StreamFragments(chunks)), requestId, decode)
            case Err(e) => r == Err(e)
            case Ok(calls) => r.Ok? && IsTurnOf(r.value, chunks, calls)
    ensures AreCallsOf(StreamFragments(chunks), requestId, decode, CallsIn(r))
  {
    var events := NormalizeStream(chunks);
    r := AccumulateTurn(events, requestId, decode);
    LastOfReports(events);
    LastOfMore(StreamReports(chunks), if Ended(chunks) then [] else [TurnFinished("")]);
    StreamReportsFinal(chunks);
  }

  /** Whatever the chunk boundaries, the turn's visible answer is the visible part of a single split
      of all the content, and without reasoning fields its reasoning is the other part. */
  lemma TurnIsOneSplit(turn: ModelTurnResult, chunks: seq<Chunk>, calls: seq<ToolCall>)
    requires NoneStraddled(chunks) && IsTurnOf(turn, chunks, calls)
    ensures turn.content == Channel(Scan(THINK, AllContent(chunks), false), false)
    ensures AllTagged(chunks) ==> turn.reasoning == Channel(Scan(THINK, AllContent(chunks), false), true)
  {
    var p := ReadChunks(chunks);
    ChunkInvariance(chunks);
    StreamOutVisible(chunks);
    ChannelConcat(StreamOut(chunks), Tag(p.held, p.inside), false);
    ChannelConcat(p.out, Tag(p.held, p.inside), false);
  }

  method AccumulateTurn(events: seq<Event>, requestId: string, decode: string -> Decoded)
    returns (r: Result<ModelTurnResult, StreamError>)
    ensures r == TurnOf(events, requestId, decode) && AreCallsOf(Fragments(events), requestId, decode, CallsIn(r))
  {
    var accumulator := new ModelTurnAccumulator(requestId);
    for i := 0 to |events|
      invariant fresh(accumulator) && accumulator.requestId == requestId
      invariant accumulator.Holds(events[..i])
    {
      OneMoreEvent(events, i);
      accumulator.Add(events[i], events[..i]);
    }
    AllEvents(events);
    r := accumulator.Finish(decode, events);
  }

  lemma OneMoreEvent(es: seq<Event>, i: nat)
    requires i < |es|
    ensures es[..i + 1] == es[..i] + [es[i]]
  {
  }

  lemma AllEvents(es: seq<Event>)
    ensures es[..|es|] == es
  {
  }

  // One chunk of content, with a finish reason or without.
  function ContentChunk(text: string, reason: string): Chunk {
    Chunk([Choice(Some(Delta("", text, [])), reason)], None)
  }

  lemma ContentChunkCarries(text: string, reason: string)
    ensures Content(ContentChunk(text, reason).choices) == text
    ensures Reason(ContentChunk(text, reason).choices) == reason
  {
    var choices := ContentChunk(text, reason).choices;
    assert choices[..|choices| - 1] == [];
    assert Content(choices) == Content([]) + text;
    assert "" + text == text;
  }

  /** An instance of a marker cut by a finish reason: it is let through as text. */
  lemma LateContentReadApart(reason: string)
    requires reason != ""
    ensures var chunks := [ContentChunk("<", reason), ContentChunk("think>", "")];
            && AllContent(chunks) == "<think>"
            && Scan(THINK, AllContent(chunks), false) == []
            && Rendered(chunks) != []
  {
    var first, second := ContentChunk("<", reason), ContentChunk("think>", "");
    CutMarkerIsText(reason);
    ContentChunkCarries("think>", "");
    OneMore(first, second);
    OnlyMarker();
  }

  lemma CutMarkerIsText(reason: string)
    requires reason != ""
    ensures AllContent([ContentChunk("<", reason)]) == "<" && |ReadChunks([ContentChunk("<", reason)]).out| == 1
  {
    ContentChunkCarries("<", reason);
    OneChunk(ContentChunk("<", reason));
    StreamOfPartial(THINK, "<", false);
    assert "" + "<" == "<";
  }

  lemma OneMore(a: Chunk, b: Chunk)
    ensures AllContent([a, b]) == AllContent([a]) + Content(b.choices)
    ensures |Rendered([a, b])| >= |ReadChunks([a]).out|
  {
    assert [a, b][..1] == [a];
  }

  lemma OnlyMarker()
    ensures "<" + "think>" == "<think>" && Scan(THINK, "<think>", false) == []
  {
    assert "<think>"[7..] == "";
    assert Scan(THINK, "<think>", false) == Scan(THINK, "<think>"[7..], true);
  }

  lemma OneChunk(c: Chunk)
    ensures ReadChunks([c]) == ReadChunk(THINK, c, false, "") && AllContent([c]) == Content(c.choices)
  {
    assert [c][..0] == [];
    var p := ReadChunk(THINK, c, false, "");
    assert [] + p.out == p.out && "" + Content(c.choices) == Content(c.choices);
  }
}

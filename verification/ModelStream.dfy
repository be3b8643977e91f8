/** The stream normaliser: provider chunks in, reasoning, text and tool-call events out. */
module ModelStream {
  import opened Basics
  import opened StreamEvents
  import opened ThinkTags

  const THINK: Markers := MarkerPair("<think>", "</think>")

  // The marker's first position from a given one on, or -1 where there is none.
  ghost predicate IsFirst(s: string, marker: string, from: nat, k: int) {
    && -1 <= k <= |s| && (k >= 0 ==> from <= k && At(s, k, marker))
    && forall j | from <= j < (if k < 0 then |s| else k) :: !At(s, j, marker)
  }

  // Python's str.find.
  function Find(s: string, marker: string, from: nat := 0): (k: int)
    requires from <= |s| && marker != ""
    ensures IsFirst(s, marker, from, k)
    decreases |s| - from
  {
    if At(s, from, marker) then from
    else if from == |s| then -1
    else Find(s, marker, from + 1)
  }

  /** The longest tail of the content that may still become the marker. */
  method PossibleMarkerSuffixLength(content: string, marker: string) returns (length: nat)
    requires marker != ""
    ensures length <= |content| && IsLongestPartial(content, |content| - length, marker)
  {
    length := if |content| < |marker| - 1 then |content| else |marker| - 1;
    while length > 0
      invariant length <= |content| && length < |marker|
      invariant forall j | 0 <= j < |content| - length :: !PartialAt(content, j, marker)
    {
      if content[|content| - length..] <= marker {
        return;
      }
      assert !PartialAt(content, |content| - length, marker);
      length := length - 1;
    }
    assert content[|content|..] == "";
  }

  // The state a reader must be in after a text, starting in a mode with nothing held; a terminal
  // read lets the held suffix through.
  ghost predicate Fed(m: Markers, text: string, inside: bool, terminal: bool, after: Split) {
    var p := Stream(m, text, inside);
    after == if terminal then Split(p.out + Tag(p.held, p.inside), p.inside, "") else p
  }

  // With `emitted` let through and `buffer` still to read, the reader will end at `total`.
  ghost predicate Reached(m: Markers, buffer: string, inside: bool, total: Split, emitted: seq<Tagged>) {
    var rest := Stream(m, buffer, inside);
    total == Split(emitted + rest.out, rest.inside, rest.held)
  }

  lemma ReachedStart(m: Markers, buffer: string, inside: bool)
    ensures Reached(m, buffer, inside, Stream(m, buffer, inside), [])
  {
    assert [] + Stream(m, buffer, inside).out == Stream(m, buffer, inside).out;
  }

  lemma ReachedEnd(m: Markers, inside: bool, total: Split, emitted: seq<Tagged>)
    requires Reached(m, "", inside, total, emitted)
    ensures total == Split(emitted, inside, "") && emitted + Tag("", inside) == emitted
  {
    assert Stream(m, "", inside) == Split([], inside, "");
  }

  lemma EmittedBeforeMarker(m: Markers, buffer: string, k: nat, inside: bool, total: Split, emitted: seq<Tagged>)
    requires k <= |buffer| && At(buffer, k, Sought(m, inside)) && NoMarkerBefore(buffer, k, Sought(m, inside))
    requires Reached(m, buffer, inside, total, emitted)
    ensures k + |Sought(m, inside)| <= |buffer|
    ensures Reached(m, buffer[k + |Sought(m, inside)|..], !inside, total, emitted + Tag(buffer[..k], inside))
  {
    StreamOverMarker(m, buffer, k, inside);
    var rest := Stream(m, buffer[k + |Sought(m, inside)|..], !inside);
    Associate(emitted, Tag(buffer[..k], inside), rest.out);
  }

  lemma EmittedBeforeHeld(m: Markers, buffer: string, k: nat, inside: bool, total: Split, emitted: seq<Tagged>)
    requires NoMarkerBefore(buffer, |buffer|, Sought(m, inside))
    requires IsLongestPartial(buffer, k, Sought(m, inside))
    requires Reached(m, buffer, inside, total, emitted)
    ensures k == 0 ==> total == Split(emitted, inside, buffer)
    ensures Reached(m, buffer[k..], inside, total, emitted + Tag(buffer[..k], inside))
  {
    StreamWithoutMarker(m, buffer, k, inside);
    assert Stream(m, buffer[k..], inside) == Split([], inside, buffer[k..]);
  }

  lemma EmittedAll(m: Markers, buffer: string, inside: bool, total: Split, emitted: seq<Tagged>)
    requires NoMarkerBefore(buffer, |buffer|, Sought(m, inside))
    requires Reached(m, buffer, inside, total, emitted)
    ensures Split(emitted + Tag(buffer, inside), inside, "")
            == Split(total.out + Tag(total.held, total.inside), total.inside, "")
  {
    var rest := Stream(m, buffer, inside);
    StreamFlushed(m, buffer, inside);
    ScanWithoutMarker(m, buffer, inside);
    Associate(emitted, rest.out, Tag(rest.held, rest.inside));
  }

  function DeltaEvent(text: string, inside: bool): Event {
    if inside then ReasoningDelta(text) else TextDelta(text)
  }

  // The events with a delta appended, if there is text for one.
  function WithDelta(events: seq<Event>, text: string, inside: bool): seq<Event> {
    if text == "" then events else events + [DeltaEvent(text, inside)]
  }

  lemma CharactersAdded(events: seq<Event>, text: string, inside: bool)
    ensures Characters(events + [DeltaEvent(text, inside)]) == Characters(events) + Tag(text, inside)
    ensures text == "" ==> Characters(events) == Characters(events) + Tag(text, inside)
  {
    CharactersConcat(events, [DeltaEvent(text, inside)]);
    assert Characters([DeltaEvent(text, inside)]) == Tag(text, inside) + Characters([]);
  }

  ghost predicate TextOnly(events: seq<Event>) {
    forall e | e in events :: (e.ReasoningDelta? || e.TextDelta?) && e.text != ""
  }

  // The events so far, with the buffer still to read, lead to what a text asks for.
  ghost predicate Progress(m: Markers, events: seq<Event>, buffer: string, inside: bool, text: string, inside0: bool) {
    Reached(m, buffer, inside, Stream(m, text, inside0), Characters(events)) && TextOnly(events)
  }

  // The events and the buffer are those of a text that has been read.
  ghost predicate Done(m: Markers, events: seq<Event>, buffer: string, inside: bool, text: string, inside0: bool, terminal: bool) {
    && Fed(m, text, inside0, terminal, Split(Characters(events), inside, buffer))
    && TextOnly(events) && buffer < Sought(m, inside)
  }

  lemma Started(m: Markers, text: string, inside: bool)
    ensures Progress(m, [], text, inside, text, inside)
  {
    ReachedStart(m, text, inside);
  }

  lemma OneMoreText(events: seq<Event>, text: string, inside: bool)
    requires TextOnly(events) && text != ""
    ensures TextOnly(events + [DeltaEvent(text, inside)])
  {
  }

  lemma ToMarker(m: Markers, events: seq<Event>, buffer: string, k: int, inside: bool, text: string, inside0: bool)
    requires k >= 0 && IsFirst(buffer, Sought(m, inside), 0, k) && Progress(m, events, buffer, inside, text, inside0)
    ensures k + |Sought(m, inside)| <= |buffer|
    ensures Progress(m, WithDelta(events, buffer[..k], inside), buffer[k + |Sought(m, inside)|..], !inside, text, inside0)
  {
    EmittedBeforeMarker(m, buffer, k, inside, Stream(m, text, inside0), Characters(events));
    CharactersAdded(events, buffer[..k], inside);
    if buffer[..k] != "" { OneMoreText(events, buffer[..k], inside); }
  }

  lemma ToHeld(m: Markers, events: seq<Event>, buffer: string, k: nat, inside: bool, text: string, inside0: bool)
    requires IsFirst(buffer, Sought(m, inside), 0, -1) && IsLongestPartial(buffer, k, Sought(m, inside))
    requires Progress(m, events, buffer, inside, text, inside0)
    ensures k == 0 ==> Done(m, events, buffer, inside, text, inside0, false)
    ensures k > 0 ==> Progress(m, events + [DeltaEvent(buffer[..k], inside)], buffer[k..], inside, text, inside0)
  {
    EmittedBeforeHeld(m, buffer, k, inside, Stream(m, text, inside0), Characters(events));
    CharactersAdded(events, buffer[..k], inside);
    if k > 0 {
      OneMoreText(events, buffer[..k], inside);
    } else {
      assert buffer[0..] == buffer;
    }
  }

  lemma ToEnd(m: Markers, events: seq<Event>, buffer: string, inside: bool, text: string, inside0: bool)
    requires buffer != "" && IsFirst(buffer, Sought(m, inside), 0, -1) && Progress(m, events, buffer, inside, text, inside0)
    ensures Done(m, events + [DeltaEvent(buffer, inside)], "", inside, text, inside0, true)
  {
    EmittedAll(m, buffer, inside, Stream(m, text, inside0), Characters(events));
    CharactersAdded(events, buffer, inside);
    OneMoreText(events, buffer, inside);
  }

  lemma ToNothing(m: Markers, events: seq<Event>, inside: bool, text: string, inside0: bool, terminal: bool)
    requires Progress(m, events, "", inside, text, inside0)
    ensures Done(m, events, "", inside, text, inside0, terminal)
  {
    ReachedEnd(m, inside, Stream(m, text, inside0), Characters(events));
  }

  // The text a list of choices carries, its last finish reason and its tool-call fragments.
  function Content(choices: seq<Choice>): string {
    if choices == [] then ""
    else Content(choices[..|choices| - 1])
         + match choices[|choices| - 1].delta case None => "" case Some(d) => d.content
  }

  function Reason(choices: seq<Choice>): string {
    if choices == [] then ""
    else
      var last := choices[|choices| - 1];
      if last.finishReason != "" then last.finishReason else Reason(choices[..|choices| - 1])
  }

  function CallFragments(calls: seq<RawCall>): seq<ToolFragment> {
    if calls == [] then []
    else CallFragments(calls[..|calls| - 1]) + [ToolFragment(calls[|calls| - 1], |calls| - 1)]
  }

  function ChoiceFragments(choices: seq<Choice>): seq<ToolFragment> {
    if choices == [] then []
    else ChoiceFragments(choices[..|choices| - 1])
         + match choices[|choices| - 1].delta case None => [] case Some(d) => CallFragments(d.toolCalls)
  }

  // No choice reports reasoning in a field of its own.
  predicate OnlyTagged(choices: seq<Choice>) {
    forall c | c in choices :: c.delta.Some? ==> c.delta.value.reasoning == ""
  }

  // What reading more choices must have let through and kept.
  function ReadChoices(m: Markers, choices: seq<Choice>, inside: bool, held: string): Split {
    Stream(m, held + Content(choices), inside)
  }

  function ReadChunk(m: Markers, chunk: Chunk, inside: bool, held: string): Split {
    var p := ReadChoices(m, chunk.choices, inside, held);
    if Reason(chunk.choices) == "" then p else Split(p.out + Tag(p.held, p.inside), p.inside, "")
  }

  // The characters a delta, some choices and a chunk let through, reasoning fields included.
  function DeltaOut(m: Markers, d: Delta, inside: bool, held: string): seq<Tagged> {
    Tag(d.reasoning, true) + Stream(m, held + d.content, inside).out
  }

  function ChoicesOut(m: Markers, choices: seq<Choice>, inside: bool, held: string): seq<Tagged> {
    if choices == [] then []
    else
      var before, last := choices[..|choices| - 1], choices[|choices| - 1];
      var p := ReadChoices(m, before, inside, held);
      ChoicesOut(m, before, inside, held)
      + match last.delta case None => [] case Some(d) => DeltaOut(m, d, p.inside, p.held)
  }

  function ChunkOut(m: Markers, chunk: Chunk, inside: bool, held: string): seq<Tagged> {
    var p := ReadChoices(m, chunk.choices, inside, held);
    ChoicesOut(m, chunk.choices, inside, held) + if Reason(chunk.choices) == "" then [] else Tag(p.held, p.inside)
  }

  // A usage report that counts something, and the end of the turn.
  function UsageReports(usage: Option<RawUsage>): seq<Event> {
    if usage.Some? && Normalized(usage.value).Sum() > 0 then [UsageReport(Normalized(usage.value))] else []
  }

  function TurnEnd(reason: string): seq<Event> {
    if reason != "" then [TurnFinished(reason)] else []
  }

  function ChunkReports(chunk: Chunk): seq<Event> {
    UsageReports(chunk.usage) + TurnEnd(Reason(chunk.choices))
  }

  // What the events let through, the tool-call fragments and the reports in them.
  ghost predicate Shows(events: seq<Event>, out: seq<Tagged>, fragments: seq<ToolFragment>, reports: seq<Event>) {
    Characters(events) == out && Fragments(events) == fragments && Reports(events) == reports
  }

  lemma ShowsMore(events: seq<Event>, more: seq<Event>)
    ensures Shows(events + more, Characters(events) + Characters(more), Fragments(events) + Fragments(more),
                  Reports(events) + Reports(more))
  {
    CharactersConcat(events, more);
    FragmentsConcat(events, more);
    ReportsConcat(events, more);
  }

  // More events without fragments.
  lemma AlsoShown(events: seq<Event>, out: seq<Tagged>, fragments: seq<ToolFragment>, reports: seq<Event>,
                  more: seq<Event>, out2: seq<Tagged>, reports2: seq<Event>)
    requires Shows(events, out, fragments, reports) && Shows(more, out2, [], reports2)
    ensures Shows(events + more, out + out2, fragments, reports + reports2)
    ensures out2 == [] ==> out + out2 == out
    ensures reports == [] ==> reports + reports2 == reports2
  {
    ShowsMore(events, more);
    assert fragments + [] == fragments;
  }

  lemma UsageShown(events: seq<Event>, out: seq<Tagged>, fragments: seq<ToolFragment>, usage: Option<RawUsage>)
    requires Shows(events, out, fragments, [])
    ensures Shows(events + UsageReports(usage), out, fragments, UsageReports(usage))
  {
    ReportsShown(UsageReports(usage));
    AlsoShown(events, out, fragments, [], UsageReports(usage), [], UsageReports(usage));
  }

  // The events of a chunk, with the end of the turn or without.
  lemma {:induction false} EndShown(m: Markers, chunk: Chunk, inside: bool, held: string, events: seq<Event>, ended: seq<Event>)
    requires Reason(chunk.choices) != ""
    requires Shows(events, ChoicesOut(m, chunk.choices, inside, held), ChoiceFragments(chunk.choices), UsageReports(chunk.usage))
    requires var p := ReadChoices(m, chunk.choices, inside, held);
             Shows(ended, Tag(p.held, p.inside), [], [TurnFinished(Reason(chunk.choices))])
    ensures Shows(events + ended, ChunkOut(m, chunk, inside, held), ChoiceFragments(chunk.choices), ChunkReports(chunk))
  {
    var p := ReadChoices(m, chunk.choices, inside, held);
    AlsoShown(events, ChoicesOut(m, chunk.choices, inside, held), ChoiceFragments(chunk.choices), UsageReports(chunk.usage),
              ended, Tag(p.held, p.inside), [TurnFinished(Reason(chunk.choices))]);
  }

  lemma {:induction false} NoEndShown(m: Markers, chunk: Chunk, inside: bool, held: string, events: seq<Event>)
    requires Reason(chunk.choices) == ""
    requires Shows(events, ChoicesOut(m, chunk.choices, inside, held), ChoiceFragments(chunk.choices), UsageReports(chunk.usage))
    ensures Shows(events, ChunkOut(m, chunk, inside, held), ChoiceFragments(chunk.choices), ChunkReports(chunk))
  {
    NoFlush(ChoicesOut(m, chunk.choices, inside, held));
    NoReport(UsageReports(chunk.usage));
  }

  lemma NoReport(reports: seq<Event>)
    ensures reports + [] == reports
  {
  }

  lemma ReasoningShown(text: string)
    ensures Shows(if text == "" then [] else [ReasoningDelta(text)], Tag(text, true), [], [])
  {
    if text != "" {
      assert Characters([ReasoningDelta(text)]) == Tag(text, true) + Characters([]) == Tag(text, true);
      assert Reports([ReasoningDelta(text)]) == [] + Reports([]);
    }
  }

  lemma {:induction false} TextOnlyShown(events: seq<Event>)
    requires TextOnly(events)
    ensures Shows(events, Characters(events), [], [])
  {
    if events != [] {
      assert events[0] in events;
      TextOnlyShown(events[1..]);
    }
  }

  lemma {:induction false} ReportsShown(reports: seq<Event>)
    requires forall k | 0 <= k < |reports| :: reports[k].UsageReport? || reports[k].TurnFinished?
    ensures Shows(reports, [], [], reports)
  {
    if reports != [] {
      ReportsShown(reports[1..]);
    }
  }

  lemma OneFragmentShown(f: ToolFragment)
    ensures Shows([ToolCallDelta(f)], [], [f], [])
  {
    assert Fragments([ToolCallDelta(f)]) == [f] + Fragments([]);
    assert Reports([ToolCallDelta(f)]) == [] + Reports([]);
  }

  lemma CallFragmentsMore(calls: seq<RawCall>, n: nat)
    requires n < |calls|
    ensures CallFragments(calls[..n + 1]) == CallFragments(calls[..n]) + [ToolFragment(calls[n], n)]
  {
    assert calls[..n + 1][..n] == calls[..n];
  }

  // Reading one more piece of content after some choices.
  lemma ReadMore(m: Markers, held: string, text: string, more: string, inside: bool)
    ensures var p := Stream(m, held + text, inside);
            var q := Stream(m, p.held + more, p.inside);
            Stream(m, held + (text + more), inside) == Split(p.out + q.out, q.inside, q.held)
  {
    assert held + (text + more) == (held + text) + more;
    StreamAppend(m, held + text, more, inside);
  }

  function Clamped(n: int): nat {
    if n < 0 then 0 else n
  }

  // A normalised usage report: no count is negative, and a missing total is the sum of its parts.
  function Normalized(u: RawUsage): Usage {
    var prompt, completion := Clamped(u.prompt), Clamped(u.completion);
    Usage(prompt, completion, if u.total <= 0 then prompt + completion else u.total,
          match u.cached
          case None => None
          case Some(cached) => Some(Clamped(cached)),
          match u.durations
          case None => None
          case Some(d) =>
            Some(Durations(Clamped(d.total), Clamped(d.load), Clamped(d.promptEval), Clamped(d.eval))))
  }

  /** Each count stays in its place: what is negative becomes zero, and only a missing total is made up,
      from prompt and completion. */
  lemma NormalizedMeans(u: RawUsage)
    ensures var n := Normalized(u);
            && n.prompt == Clamped(u.prompt) && n.completion == Clamped(u.completion)
            && (u.total > 0 ==> n.total == u.total) && (u.total <= 0 ==> n.total == n.prompt + n.completion)
            && (u.cached.None? <==> n.cached.None?) && (u.cached.Some? ==> n.cached.value == Clamped(u.cached.value))
            && (u.durations.None? <==> n.durations.None?)
            && (u.durations.Some? ==>
                  var d, e := u.durations.value, n.durations.value;
                  e.total == Clamped(d.total) && e.load == Clamped(d.load) && e.promptEval == Clamped(d.promptEval) && e.eval == Clamped(d.eval))
    ensures forall n :: Clamped(n) >= 0 && (n >= 0 ==> Clamped(n) == n) && (n <= 0 ==> Clamped(n) == 0)
  {
  }

  // Something in the report is positive.
  predicate Counts(u: RawUsage) {
    || u.prompt > 0 || u.completion > 0 || u.total > 0 || (u.cached.Some? && u.cached.value > 0)
    || (u.durations.Some? && var d := u.durations.value; d.total > 0 || d.load > 0 || d.promptEval > 0 || d.eval > 0)
  }

  /** A usage report goes out exactly when something in it is positive, cached tokens and durations
      included. */
  lemma UsageReported(chunk: Chunk)
    ensures (exists usage :: UsageReport(usage) in ChunkReports(chunk)) <==> chunk.usage.Some? && Counts(chunk.usage.value)
  {
    var reports := ChunkReports(chunk);
    if chunk.usage.Some? && Counts(chunk.usage.value) {
      assert reports[0] == UsageReport(Normalized(chunk.usage.value));
    }
  }

  lemma ReadNothing(m: Markers, inside: bool, held: string)
    requires held < Sought(m, inside)
    ensures ReadChoices(m, [], inside, held) == Split([], inside, held)
  {
    StreamOfPartial(m, held, inside);
    assert held + "" == held;
  }

  lemma ChoicesMore(choices: seq<Choice>, n: nat)
    requires n < |choices|
    ensures var c := choices[n];
            && Content(choices[..n + 1])
               == Content(choices[..n]) + (match c.delta case None => "" case Some(d) => d.content)
            && Reason(choices[..n + 1])
               == (if c.finishReason != "" then c.finishReason else Reason(choices[..n]))
            && ChoiceFragments(choices[..n + 1])
               == ChoiceFragments(choices[..n]) + match c.delta case None => [] case Some(d) => CallFragments(d.toolCalls)
    ensures choices[n].delta.None? ==> Content(choices[..n + 1]) == Content(choices[..n])
                                       && ChoiceFragments(choices[..n + 1]) == ChoiceFragments(choices[..n])
  {
    assert choices[..n + 1][..n] == choices[..n];
  }

  lemma ChoicesOutMore(m: Markers, choices: seq<Choice>, n: nat, inside: bool, held: string)
    requires n < |choices|
    ensures var p := ReadChoices(m, choices[..n], inside, held);
            ChoicesOut(m, choices[..n + 1], inside, held)
            == ChoicesOut(m, choices[..n], inside, held)
               + match choices[n].delta case None => [] case Some(d) => DeltaOut(m, d, p.inside, p.held)
  {
    assert choices[..n + 1][..n] == choices[..n];
  }

  method ToolCallDeltas(calls: seq<RawCall>) returns (events: seq<Event>)
    ensures Shows(events, [], CallFragments(calls), [])
  {
    events := [];
    var position := 0;
    while position < |calls|
      invariant 0 <= position <= |calls|
      invariant Shows(events, [], CallFragments(calls[..position]), [])
    {
      CallFragmentsMore(calls, position);
      var f := ToolFragment(calls[position], position);
      OneFragmentShown(f);
      ShowsMore(events, [ToolCallDelta(f)]);
      events := events + [ToolCallDelta(f)];
      position := position + 1;
    }
    assert calls[..position] == calls;
  }

  lemma NoFlush(out: seq<Tagged>)
    ensures out + [] == out
  {
  }

  class ModelStreamNormalizer {
    const markers: Markers
    var insideReasoning: bool
    var contentBuffer: string
    var finished: bool

    predicate Valid()
      reads this
    {
      contentBuffer < Sought(markers, insideReasoning)
    }

    constructor ()
      ensures Valid()
      ensures markers == THINK && !insideReasoning && contentBuffer == "" && !finished
    {
      markers := THINK;
      insideReasoning, contentBuffer, finished := false, "", false;
    }

    method SplitTaggedContent(content: string, terminal: bool) returns (events: seq<Event>)
      requires Valid()
      modifies this`insideReasoning, this`contentBuffer
      ensures Valid()
      ensures Fed(markers, old(contentBuffer) + content, old(insideReasoning), terminal,
                  Split(Characters(events), insideReasoning, contentBuffer))
      ensures TextOnly(events)
    {
      contentBuffer := contentBuffer + content;
      ghost var text, inside0 := contentBuffer, insideReasoning;
      events := [];
      Started(markers, text, inside0);
      while contentBuffer != ""
        invariant Progress(markers, events, contentBuffer, insideReasoning, text, inside0)
        decreases |contentBuffer|
      {
        var markerIndex := Find(contentBuffer, Sought(markers, insideReasoning));
        if markerIndex >= 0 {
          events := TakeMarker(events, markerIndex, text, inside0);
        } else {
          var stop;
          events, stop := EmitUnmarked(events, terminal, text, inside0);
          if stop {
            return;
          }
        }
      }
      ToNothing(markers, events, insideReasoning, text, inside0, terminal);
    }

    // The loop's body for a buffer with the marker: emit what precedes it, and change the mode.
    method TakeMarker(before: seq<Event>, markerIndex: nat, ghost text: string, ghost inside0: bool) returns (events: seq<Event>)
      requires IsFirst(contentBuffer, Sought(markers, insideReasoning), 0, markerIndex)
      requires Progress(markers, before, contentBuffer, insideReasoning, text, inside0)
      modifies this`contentBuffer, this`insideReasoning
      ensures |contentBuffer| < |old(contentBuffer)|
      ensures Progress(markers, events, contentBuffer, insideReasoning, text, inside0)
    {
      var buffer, inside := contentBuffer, insideReasoning;
      ToMarker(markers, before, buffer, markerIndex, inside, text, inside0);
      events := WithDelta(before, buffer[..markerIndex], inside);
      contentBuffer := buffer[markerIndex + |Sought(markers, inside)|..];
      insideReasoning := !inside;
    }

    // The loop's body for a buffer without the marker.
    method EmitUnmarked(before: seq<Event>, terminal: bool, ghost text: string, ghost inside0: bool)
      returns (events: seq<Event>, stop: bool)
      requires contentBuffer != "" && IsFirst(contentBuffer, Sought(markers, insideReasoning), 0, -1)
      requires Progress(markers, before, contentBuffer, insideReasoning, text, inside0)
      modifies this`contentBuffer
      ensures stop ==> Done(markers, events, contentBuffer, insideReasoning, text, inside0, terminal)
      ensures !stop ==>
        |contentBuffer| < |old(contentBuffer)| && Progress(markers, events, contentBuffer, insideReasoning, text, inside0)
    {
      if terminal {
        ToEnd(markers, before, contentBuffer, insideReasoning, text, inside0);
        events := before + [DeltaEvent(contentBuffer, insideReasoning)];
        contentBuffer := "";
        return events, true;
      }
      var keep := PossibleMarkerSuffixLength(contentBuffer, Sought(markers, insideReasoning));
      var emitCount := |contentBuffer| - keep;
      ToHeld(markers, before, contentBuffer, emitCount, insideReasoning, text, inside0);
      if emitCount <= 0 {
        return before, true;
      }
      events := before + [DeltaEvent(contentBuffer[..emitCount], insideReasoning)];
      contentBuffer := contentBuffer[emitCount..];
      stop := false;
    }

    method FeedDelta(delta: Delta) returns (events: seq<Event>)
      requires Valid()
      modifies this`insideReasoning, this`contentBuffer
      ensures Valid()
      ensures var p := Stream(markers, old(contentBuffer) + delta.content, old(insideReasoning));
              insideReasoning == p.inside && contentBuffer == p.held
      ensures Shows(events, DeltaOut(markers, delta, old(insideReasoning), old(contentBuffer)), CallFragments(delta.toolCalls), [])
    {
      events := [];
      ReasoningShown(delta.reasoning);
      if delta.reasoning != "" {
        events := [ReasoningDelta(delta.reasoning)];
      }
      if delta.content != "" {
        var split := SplitTaggedContent(delta.content, false);
        TextOnlyShown(split);
        ShowsMore(events, split);
        events := events + split;
      } else {
        assert contentBuffer + "" == contentBuffer;
        StreamOfPartial(markers, contentBuffer, insideReasoning);
      }
      var tools := ToolCallDeltas(delta.toolCalls);
      ShowsMore(events, tools);
      events := events + tools;
    }

    // The loop over a chunk's choices.
    method FeedChoices(choices: seq<Choice>) returns (events: seq<Event>, finishReason: string)
      requires Valid()
      modifies this`insideReasoning, this`contentBuffer
      ensures Valid()
      ensures var p := ReadChoices(markers, choices, old(insideReasoning), old(contentBuffer));
              insideReasoning == p.inside && contentBuffer == p.held
      ensures Shows(events, ChoicesOut(markers, choices, old(insideReasoning), old(contentBuffer)), ChoiceFragments(choices), [])
      ensures finishReason == Reason(choices)
    {
      events, finishReason := [], "";
      ghost var inside0, held0 := insideReasoning, contentBuffer;
      ReadNothing(markers, insideReasoning, contentBuffer);
      for i := 0 to |choices|
        invariant Valid()
        invariant var p := ReadChoices(markers, choices[..i], inside0, held0); insideReasoning == p.inside && contentBuffer == p.held
        invariant Shows(events, ChoicesOut(markers, choices[..i], inside0, held0), ChoiceFragments(choices[..i]), [])
        invariant finishReason == Reason(choices[..i])
      {
        var choice := choices[i];
        ChoicesMore(choices, i);
        ChoicesOutMore(markers, choices, i, inside0, held0);
        if choice.finishReason != "" {
          finishReason := choice.finishReason;
        }
        if choice.delta.Some? {
          ReadMore(markers, held0, Content(choices[..i]), choice.delta.value.content, inside0);
          var more := FeedDelta(choice.delta.value);
          ShowsMore(events, more);
          NoReport([]);
          events := events + more;
        } else {
          NoFlush(ChoicesOut(markers, choices[..i], inside0, held0));
        }
      }
      assert choices[..|choices|] == choices;
    }

    // Let the held characters through.
    method Flush() returns (events: seq<Event>)
      requires Valid()
      modifies this`insideReasoning, this`contentBuffer
      ensures Valid() && contentBuffer == "" && insideReasoning == old(insideReasoning)
      ensures Shows(events, Tag(old(contentBuffer), insideReasoning), [], [])
    {
      StreamOfPartial(markers, contentBuffer, insideReasoning);
      assert contentBuffer + "" == contentBuffer;
      events := SplitTaggedContent("", true);
      TextOnlyShown(events);
    }

    // A finish reason lets the held characters through and ends the turn.
    method EndTurn(reason: string) returns (events: seq<Event>)
      requires Valid() && reason != ""
      modifies this
      ensures Valid() && contentBuffer == "" && insideReasoning == old(insideReasoning) && finished
      ensures Shows(events, Tag(old(contentBuffer), insideReasoning), [], [TurnFinished(reason)])
      ensures events != [] && events[|events| - 1] == TurnFinished(reason)
    {
      var flushed := Flush();
      ReportsShown([TurnFinished(reason)]);
      ShowsMore(flushed, [TurnFinished(reason)]);
      NoFlush(Characters(flushed));
      events := flushed + [TurnFinished(reason)];
      finished := true;
    }

    // The choices of a chunk, and its usage report.
    method FeedUsage(chunk: Chunk) returns (events: seq<Event>, finishReason: string)
      requires Valid()
      modifies this`insideReasoning, this`contentBuffer
      ensures Valid()
      ensures var p := ReadChoices(markers, chunk.choices, old(insideReasoning), old(contentBuffer));
              insideReasoning == p.inside && contentBuffer == p.held
      ensures Shows(events, ChoicesOut(markers, chunk.choices, old(insideReasoning), old(contentBuffer)),
                    ChoiceFragments(chunk.choices), UsageReports(chunk.usage))
      ensures finishReason == Reason(chunk.choices)
    {
      ghost var out := ChoicesOut(markers, chunk.choices, insideReasoning, contentBuffer);
      events, finishReason := FeedChoices(chunk.choices);
      UsageShown(events, out, ChoiceFragments(chunk.choices), chunk.usage);
      events := events + UsageReports(chunk.usage);
    }

    method Feed(chunk: Chunk) returns (events: seq<Event>)
      requires Valid()
      modifies this
      ensures Valid()
      ensures var p := ReadChunk(markers, chunk, old(insideReasoning), old(contentBuffer));
              insideReasoning == p.inside && contentBuffer == p.held
      ensures Shows(events, ChunkOut(markers, chunk, old(insideReasoning), old(contentBuffer)), ChoiceFragments(chunk.choices),
                    ChunkReports(chunk))
      ensures Reason(chunk.choices) != "" ==> events != [] && events[|events| - 1] == TurnFinished(Reason(chunk.choices))
      ensures finished == (old(finished) || Reason(chunk.choices) != "")
    {
      ghost var inside, held := insideReasoning, contentBuffer;
      var finishReason;
      events, finishReason := FeedUsage(chunk);
      events := EndChunk(chunk, finishReason, events, inside, held);
    }

    // The end of the turn, if a choice of the chunk has given a reason.
    method EndChunk(chunk: Chunk, finishReason: string, before: seq<Event>, ghost inside: bool, ghost held: string)
      returns (events: seq<Event>)
      requires Valid() && finishReason == Reason(chunk.choices)
      requires var p := ReadChoices(markers, chunk.choices, inside, held); insideReasoning == p.inside && contentBuffer == p.held
      requires Shows(before, ChoicesOut(markers, chunk.choices, inside, held), ChoiceFragments(chunk.choices), UsageReports(chunk.usage))
      modifies this
      ensures Valid()
      ensures var p := ReadChunk(markers, chunk, inside, held); insideReasoning == p.inside && contentBuffer == p.held
      ensures Shows(events, ChunkOut(markers, chunk, inside, held), ChoiceFragments(chunk.choices), ChunkReports(chunk))
      ensures finishReason != "" ==> events != [] && events[|events| - 1] == TurnFinished(finishReason)
      ensures finished == (old(finished) || finishReason != "")
    {
      if finishReason == "" {
        NoEndShown(markers, chunk, inside, held, before);
        return before;
      }
      var ended := EndTurn(finishReason);
      EndShown(markers, chunk, inside, held, before, ended);
      events := before + ended;
    }

    method Finish() returns (events: seq<Event>)
      requires Valid()
      modifies this
      ensures Valid() && contentBuffer == "" && finished && insideReasoning == old(insideReasoning)
      ensures Shows(events, Tag(old(contentBuffer), insideReasoning), [], if old(finished) then [] else [TurnFinished("")])
    {
      events := Flush();
      if !finished {
        ReportsShown([TurnFinished("")]);
        ShowsMore(events, [TurnFinished("")]);
        events := events + [TurnFinished("")];
        finished := true;
      }
    }
  }

  // A whole provider stream, chunk by chunk.
  function ReadChunks(chunks: seq<Chunk>): Split {
    if chunks == [] then Split([], false, "")
    else
      var before := ReadChunks(chunks[..|chunks| - 1]);
      var last := ReadChunk(THINK, chunks[|chunks| - 1], before.inside, before.held);
      last.(out := before.out + last.out)
  }

  function StreamFragments(chunks: seq<Chunk>): seq<ToolFragment> {
    if chunks == [] then []
    else StreamFragments(chunks[..|chunks| - 1]) + ChoiceFragments(chunks[|chunks| - 1].choices)
  }

  function Rendered(chunks: seq<Chunk>): seq<Tagged> {
    var p := ReadChunks(chunks);
    p.out + Tag(p.held, p.inside)
  }

  // All characters of a stream, reasoning fields included.
  function StreamOut(chunks: seq<Chunk>): seq<Tagged> {
    if chunks == [] then []
    else
      var before := ReadChunks(chunks[..|chunks| - 1]);
      StreamOut(chunks[..|chunks| - 1]) + ChunkOut(THINK, chunks[|chunks| - 1], before.inside, before.held)
  }

  function StreamReports(chunks: seq<Chunk>): seq<Event> {
    if chunks == [] then [] else StreamReports(chunks[..|chunks| - 1]) + ChunkReports(chunks[|chunks| - 1])
  }

  predicate Ended(chunks: seq<Chunk>) {
    chunks != [] && (Ended(chunks[..|chunks| - 1]) || Reason(chunks[|chunks| - 1].choices) != "")
  }

  ghost predicate AllTagged(chunks: seq<Chunk>) {
    forall c | c in chunks :: OnlyTagged(c.choices)
  }

  method NormalizeStream(chunks: seq<Chunk>) returns (events: seq<Event>)
    ensures var p := ReadChunks(chunks);
            Shows(events, StreamOut(chunks) + Tag(p.held, p.inside), StreamFragments(chunks),
                  StreamReports(chunks) + if Ended(chunks) then [] else [TurnFinished("")])
  {
    var normalizer := new ModelStreamNormalizer();
    events := [];
    for i := 0 to |chunks|
      invariant normalizer.Valid() && fresh(normalizer) && normalizer.finished == Ended(chunks[..i])
      invariant var p := ReadChunks(chunks[..i]); normalizer.insideReasoning == p.inside && normalizer.contentBuffer == p.held
      invariant Shows(events, StreamOut(chunks[..i]), StreamFragments(chunks[..i]), StreamReports(chunks[..i]))
    {
      assert chunks[..i + 1][..i] == chunks[..i];
      var more := normalizer.Feed(chunks[i]);
      ShowsMore(events, more);
      events := events + more;
    }
    assert chunks[..|chunks|] == chunks;
    var last := normalizer.Finish();
    ShowsMore(events, last);
    events := events + last;
  }

  // --- Reasoning fields beside the tagged content ---

  lemma FieldIsReasoning(text: string)
    ensures Channel(Tag(text, true), false) == ""
  {
    ChannelOfTag(text, true, false);
  }

  lemma {:induction false} ChoicesOutVisible(choices: seq<Choice>, inside: bool, held: string)
    requires held < Sought(THINK, inside)
    ensures Channel(ChoicesOut(THINK, choices, inside, held), false) == Channel(ReadChoices(THINK, choices, inside, held).out, false)
    ensures OnlyTagged(choices) ==> ChoicesOut(THINK, choices, inside, held) == ReadChoices(THINK, choices, inside, held).out
  {
    if choices == [] {
      ReadNothing(THINK, inside, held);
    } else {
      var n := |choices| - 1;
      ChoicesOutVisible(choices[..n], inside, held);
      if choices[n].delta.Some? {
        var d, p := choices[n].delta.value, ReadChoices(THINK, choices[..n], inside, held);
        var q := Stream(THINK, p.held + d.content, p.inside);
        ReadMore(THINK, held, Content(choices[..n]), d.content, inside);
        VisiblePart(ChoicesOut(THINK, choices[..n], inside, held), p.out, d.reasoning, q.out);
        NoField(q.out);
        assert OnlyTagged(choices) ==> choices[n] in choices;
      } else {
        ChoicesMore(choices, n);
        NoFlush(ChoicesOut(THINK, choices[..n], inside, held));
        assert choices[..n + 1] == choices;
      }
    }
  }

  // A reasoning field between two texts leaves the visible channel alone.
  lemma VisiblePart(full: seq<Tagged>, out: seq<Tagged>, field: string, more: seq<Tagged>)
    requires Channel(full, false) == Channel(out, false)
    ensures Channel(full + (Tag(field, true) + more), false) == Channel(out + more, false)
  {
    FieldIsReasoning(field);
    ChannelConcat(full, Tag(field, true) + more, false);
    ChannelConcat(Tag(field, true), more, false);
    ChannelConcat(out, more, false);
    EmptyBefore(Channel(more, false));
  }

  lemma EmptyBefore(s: string)
    ensures "" + s == s
  {
  }

  lemma NoField(more: seq<Tagged>)
    ensures Tag("", true) + more == more
  {
  }

  /** Reasoning that comes in a field of its own never reaches the visible answer; without it, the
      characters are exactly those of the tagged content. */
  lemma {:induction false} StreamOutVisible(chunks: seq<Chunk>)
    ensures Channel(StreamOut(chunks), false) == Channel(ReadChunks(chunks).out, false)
    ensures AllTagged(chunks) ==> StreamOut(chunks) == ReadChunks(chunks).out
  {
    if chunks != [] {
      var n := |chunks| - 1;
      var before, last := ReadChunks(chunks[..n]), chunks[n];
      StreamOutVisible(chunks[..n]);
      ChunksHoldPartial(chunks[..n]);
      ChoicesOutVisible(last.choices, before.inside, before.held);
      var p := ReadChoices(THINK, last.choices, before.inside, before.held);
      ChannelConcat(StreamOut(chunks[..n]), ChunkOut(THINK, last, before.inside, before.held), false);
      ChannelConcat(ChoicesOut(THINK, last.choices, before.inside, before.held), Tag(p.held, p.inside), false);
      ChannelConcat(p.out, Tag(p.held, p.inside), false);
      ChannelConcat(before.out, ReadChunk(THINK, last, before.inside, before.held).out, false);
      assert AllTagged(chunks) ==> last in chunks;
      NoFlush(ChoicesOut(THINK, last.choices, before.inside, before.held));
    }
  }

  lemma {:induction false} ChunksHoldPartial(chunks: seq<Chunk>)
    ensures var p := ReadChunks(chunks); p.held < Sought(THINK, p.inside)
  {
    if chunks != [] {
      var before := ReadChunks(chunks[..|chunks| - 1]);
      StreamHoldsPartial(THINK, before.held + Content(chunks[|chunks| - 1].choices), before.inside);
    }
  }

  function AllContent(chunks: seq<Chunk>): string {
    if chunks == [] then "" else AllContent(chunks[..|chunks| - 1]) + Content(chunks[|chunks| - 1].choices)
  }

  predicate Finishes(c: Chunk) {
    Reason(c.choices) != ""
  }

  ghost predicate NothingAfterFinish(chunks: seq<Chunk>) {
    forall i, j | 0 <= i < j < |chunks| :: Finishes(chunks[i]) ==> Content(chunks[j].choices) == ""
  }

  ghost predicate Unfinished(chunks: seq<Chunk>) {
    forall c | c in chunks :: !Finishes(c)
  }

  /** Between calls the normaliser is where a single read of everything so far would have left it. */
  lemma {:induction false} ReadChunksIsStream(chunks: seq<Chunk>)
    requires NothingAfterFinish(chunks)
    ensures Unfinished(chunks) ==> ReadChunks(chunks) == Stream(THINK, AllContent(chunks), false)
    ensures !Unfinished(chunks) ==>
      ReadChunks(chunks)
      == Split(Scan(THINK, AllContent(chunks), false), ModeAfter(THINK, AllContent(chunks), false), "")
  {
    if chunks == [] {
      assert Stream(THINK, "", false) == Split([], false, "");
    } else {
      var n := |chunks| - 1;
      var before, last := chunks[..n], chunks[n];
      assert chunks == before + [last];
      ReadChunksIsStream(before);
      StreamFlushed(THINK, AllContent(chunks), false);
      if Unfinished(before) {
        StreamAppend(THINK, AllContent(before), Content(last.choices), false);
        assert Unfinished(chunks) == !Finishes(last);
        var p, q := ReadChunks(before), ReadChoices(THINK, last.choices, ReadChunks(before).inside, ReadChunks(before).held);
        Associate(p.out, q.out, Tag(q.held, q.inside));
      } else {
        EmptyAfterFinish(before, last);
        EmptyChunkReadsNothing(before, last);
      }
    }
  }

  lemma EmptyAfterFinish(before: seq<Chunk>, last: Chunk)
    requires NothingAfterFinish(before + [last]) && !Unfinished(before)
    ensures Content(last.choices) == "" && !Unfinished(before + [last])
  {
    var c :| c in before && Finishes(c);
    var i :| 0 <= i < |before| && before[i] == c;
    var all := before + [last];
    assert Finishes(all[i]) ==> Content(all[|before|].choices) == "";
    assert all[i] in all;
  }

  lemma EmptyChunkReadsNothing(before: seq<Chunk>, last: Chunk)
    requires Content(last.choices) == "" && ReadChunks(before).held == ""
    ensures ReadChunks(before + [last]) == ReadChunks(before)
    ensures AllContent(before + [last]) == AllContent(before)
  {
    var p := ReadChunks(before);
    assert (before + [last])[..|before|] == before;
    ReadNothing(THINK, p.inside, "");
    assert ReadChunk(THINK, last, p.inside, "") == Split([], p.inside, "");
    assert p.out + [] == p.out;
    assert AllContent(before) + "" == AllContent(before);
  }

  // --- One text or several ---

  lemma ThinkIsDistinctive()
    ensures Distinctive(THINK)
  {
    assert "<think>"[1] == 't' && "</think>"[1] == '/';
    assert THINK.open[1] != THINK.close[1];
  }

  // A marker is cut in two by the finish reason of the i-th chunk.
  predicate Straddled(chunks: seq<Chunk>, i: nat)
    requires i < |chunks|
  {
    var p := ReadChunks(chunks[..i]);
    Finishes(chunks[i]) && Straddles(THINK, ReadChoices(THINK, chunks[i].choices, p.inside, p.held), AllContent(chunks[i + 1..]))
  }

  ghost predicate NoneStraddled(chunks: seq<Chunk>) {
    forall i | 0 <= i < |chunks| :: !Straddled(chunks, i)
  }

  // What would be let through if everything from the n-th chunk on were one text.
  function ReadAsOneFrom(chunks: seq<Chunk>, n: nat): seq<Tagged>
    requires n <= |chunks|
  {
    var p := ReadChunks(chunks[..n]);
    p.out + Scan(THINK, p.held + AllContent(chunks[n..]), p.inside)
  }

  lemma {:induction false} AllContentFirst(chunks: seq<Chunk>)
    requires chunks != []
    ensures AllContent(chunks) == Content(chunks[0].choices) + AllContent(chunks[1..])
  {
    var n := |chunks| - 1;
    if n > 0 {
      AllContentFirst(chunks[..n]);
      assert chunks[1..][..n - 1] == chunks[..n][1..];
      Associate(Content(chunks[0].choices), AllContent(chunks[..n][1..]), Content(chunks[n].choices));
    } else {
      assert chunks[..0] == [] && "" + Content(chunks[0].choices) == Content(chunks[0].choices) + "";
    }
  }

  lemma ContentFrom(chunks: seq<Chunk>, n: nat)
    requires n < |chunks|
    ensures AllContent(chunks[n..]) == Content(chunks[n].choices) + AllContent(chunks[n + 1..])
    ensures ReadChunks(chunks[..n + 1])
            == var p := ReadChunks(chunks[..n]);
               var q := ReadChunk(THINK, chunks[n], p.inside, p.held);
               Split(p.out + q.out, q.inside, q.held)
  {
    AllContentFirst(chunks[n..]);
    assert chunks[n..][1..] == chunks[n + 1..] && chunks[..n + 1][..n] == chunks[..n];
  }

  // One chunk: nothing changes, unless its finish reason cuts a marker.
  lemma ReadAsOneStep(chunks: seq<Chunk>, n: nat)
    requires n < |chunks|
    ensures ReadAsOneFrom(chunks, n) == ReadAsOneFrom(chunks, n + 1) <==> !Straddled(chunks, n)
  {
    var p, rest := ReadChunks(chunks[..n]), AllContent(chunks[n + 1..]);
    var text := p.held + Content(chunks[n].choices);
    var q := Stream(THINK, text, p.inside);
    ContentFrom(chunks, n);
    Associate(p.held, Content(chunks[n].choices), rest);
    if Finishes(chunks[n]) {
      ThinkIsDistinctive();
      StreamFlushed(THINK, text, p.inside);
      ReadApart(THINK, text, rest, p.inside);
      Associate(p.out, Scan(THINK, text, p.inside), Scan(THINK, rest, q.inside));
      Cancel(p.out, Scan(THINK, text, p.inside) + Scan(THINK, rest, q.inside), Scan(THINK, text + rest, p.inside));
      EmptyBefore(rest);
    } else {
      ScanAppend(THINK, text, rest, p.inside);
      Associate(p.out, q.out, Scan(THINK, q.held + rest, q.inside));
    }
  }

  lemma {:induction false} ReadAsOneSteps(chunks: seq<Chunk>, n: nat, k: nat)
    requires n <= k <= |chunks| && forall i | n <= i < k :: !Straddled(chunks, i)
    ensures ReadAsOneFrom(chunks, n) == ReadAsOneFrom(chunks, k)
    decreases k - n
  {
    if n < k {
      ReadAsOneStep(chunks, n);
      ReadAsOneSteps(chunks, n + 1, k);
    }
  }

  lemma ReadAsOneEnds(chunks: seq<Chunk>)
    ensures ReadAsOneFrom(chunks, 0) == Scan(THINK, AllContent(chunks), false)
    ensures ReadAsOneFrom(chunks, |chunks|) == Rendered(chunks)
  {
    AllOrNothing(chunks);
    EmptyBefore(AllContent(chunks));
    assert [] + Scan(THINK, AllContent(chunks), false) == Scan(THINK, AllContent(chunks), false);
    ChunksHoldPartial(chunks);
    HeldAtEnd(THINK, ReadChunks(chunks).held, ReadChunks(chunks).inside);
  }

  lemma AllOrNothing(chunks: seq<Chunk>)
    ensures chunks[..0] == [] && chunks[0..] == chunks && chunks[..|chunks|] == chunks && chunks[|chunks|..] == []
  {
  }

  lemma HeldAtEnd(m: Markers, held: string, inside: bool)
    requires held < Sought(m, inside)
    ensures Scan(m, held + "", inside) == Tag(held, inside)
  {
    assert held + "" == held;
    ScanPartial(m, held, inside);
  }

  /** Chunk invariance: as long as no finish reason cuts a marker in two, what a stream lets through is
      the one-shot split of its whole content, whatever the chunk boundaries. */
  lemma ChunkInvariance(chunks: seq<Chunk>)
    requires NoneStraddled(chunks)
    ensures Rendered(chunks) == Scan(THINK, AllContent(chunks), false)
  {
    ReadAsOneSteps(chunks, 0, |chunks|);
    ReadAsOneEnds(chunks);
  }

  function OutBefore(chunks: seq<Chunk>, n: nat): seq<Tagged>
    requires n <= |chunks|
  {
    ReadChunks(chunks[..n]).out
  }

  // A finish reason that cuts a marker: read from its chunk on, nothing gets shorter, and if nothing
  // gets longer, some character that has now gone out is another one than in one text.
  lemma CutApart(chunks: seq<Chunk>, n: nat) returns (k: nat)
    requires n < |chunks| && Straddled(chunks, n)
    ensures |ReadAsOneFrom(chunks, n)| <= |ReadAsOneFrom(chunks, n + 1)| && k < |OutBefore(chunks, n + 1)|
    ensures |ReadAsOneFrom(chunks, n)| == |ReadAsOneFrom(chunks, n + 1)| ==>
      k < |ReadAsOneFrom(chunks, n)| && ReadAsOneFrom(chunks, n)[k] != OutBefore(chunks, n + 1)[k]
  {
    var p, rest := ReadChunks(chunks[..n]), AllContent(chunks[n + 1..]);
    var text := p.held + Content(chunks[n].choices);
    var q := Stream(THINK, text, p.inside);
    ContentFrom(chunks, n);
    Associate(p.held, Content(chunks[n].choices), rest);
    ScanAppend(THINK, text, rest, p.inside);
    StreamHoldsPartial(THINK, text, p.inside);
    ThinkIsDistinctive();
    CutIsLonger(THINK, q.held, rest, q.inside);
    TagCons(q.held, q.inside);
    EmptyBefore(rest);
    k := |p.out + q.out|;
    FoundAfter(p.out, q.out, Scan(THINK, q.held + rest, q.inside));
    FoundAfter(p.out, q.out, Tag(q.held, q.inside));
  }

  lemma FoundAfter(a: seq<Tagged>, b: seq<Tagged>, c: seq<Tagged>)
    ensures |a + (b + c)| == |a| + |b| + |c|
    ensures c != [] ==> (a + (b + c))[|a + b|] == c[0]
  {
  }

  lemma ReadAsOneGrows(chunks: seq<Chunk>, n: nat)
    requires n < |chunks|
    ensures |ReadAsOneFrom(chunks, n)| <= |ReadAsOneFrom(chunks, n + 1)|
    ensures OutBefore(chunks, n) <= OutBefore(chunks, n + 1)
  {
    ContentFrom(chunks, n);
    if Straddled(chunks, n) {
      var k := CutApart(chunks, n);
    } else {
      ReadAsOneStep(chunks, n);
    }
  }

  lemma {:induction false} ReadAsOneOnlyGrows(chunks: seq<Chunk>, n: nat, k: nat)
    requires n <= k <= |chunks|
    ensures |ReadAsOneFrom(chunks, n)| <= |ReadAsOneFrom(chunks, k)|
    ensures OutBefore(chunks, n) <= OutBefore(chunks, k) <= ReadAsOneFrom(chunks, k)
    decreases k - n
  {
    if n < k {
      ReadAsOneGrows(chunks, n);
      ReadAsOneOnlyGrows(chunks, n + 1, k);
    }
  }

  lemma {:induction false} FirstStraddled(chunks: seq<Chunk>, i: nat) returns (f: nat)
    requires i < |chunks| && Straddled(chunks, i)
    ensures f < |chunks| && Straddled(chunks, f) && forall j | 0 <= j < f :: !Straddled(chunks, j)
    decreases i
  {
    f := i;
    if j: nat :| j < i && Straddled(chunks, j) {
      f := FirstStraddled(chunks, j);
    }
  }

  lemma Differs(one: seq<Tagged>, cut: seq<Tagged>, out: seq<Tagged>, all: seq<Tagged>, k: nat)
    requires |one| <= |cut| <= |all| && k < |out| && out <= all
    requires |one| == |cut| ==> k < |one| && one[k] != out[k]
    ensures one != all
  {
  }

  lemma CutReadDiffers(chunks: seq<Chunk>, f: nat)
    requires f < |chunks| && Straddled(chunks, f)
    ensures ReadAsOneFrom(chunks, f) != ReadAsOneFrom(chunks, |chunks|)
  {
    var k := CutApart(chunks, f);
    ReadAsOneOnlyGrows(chunks, f + 1, |chunks|);
    Differs(ReadAsOneFrom(chunks, f), ReadAsOneFrom(chunks, f + 1), OutBefore(chunks, f + 1),
            ReadAsOneFrom(chunks, |chunks|), k);
  }

  lemma AnyCutReadDiffers(chunks: seq<Chunk>, i: nat)
    requires i < |chunks| && Straddled(chunks, i)
    ensures Rendered(chunks) != Scan(THINK, AllContent(chunks), false)
  {
    var f := FirstStraddled(chunks, i);
    ReadAsOneSteps(chunks, 0, f);
    CutReadDiffers(chunks, f);
    ReadAsOneEnds(chunks);
  }

  /** A stream with any number of finish reasons is read as one text, whatever the chunk boundaries, if
      and only if no finish reason cuts a marker in two. */
  lemma ReadAsOneText(chunks: seq<Chunk>)
    ensures Rendered(chunks) == Scan(THINK, AllContent(chunks), false) <==> NoneStraddled(chunks)
  {
    if NoneStraddled(chunks) {
      ChunkInvariance(chunks);
    } else {
      var i :| 0 <= i < |chunks| && Straddled(chunks, i);
      AnyCutReadDiffers(chunks, i);
    }
  }

  /** A stream with nothing after a finish reason cuts no marker. */
  lemma NothingAfterIsUnstraddled(chunks: seq<Chunk>)
    requires NothingAfterFinish(chunks)
    ensures NoneStraddled(chunks)
  {
    forall i | 0 <= i < |chunks| ensures !Straddled(chunks, i) {
      var p := ReadChunks(chunks[..i]);
      StreamHoldsPartial(THINK, p.held + Content(chunks[i].choices), p.inside);
      if Finishes(chunks[i]) { NoContentAfter(chunks, i); }
    }
  }

  lemma {:induction false} NoContentAfter(chunks: seq<Chunk>, i: nat)
    requires i < |chunks| && forall j | i < j < |chunks| :: Content(chunks[j].choices) == ""
    ensures AllContent(chunks[i + 1..]) == ""
    decreases |chunks|
  {
    var n := |chunks| - 1;
    if i < n {
      NoContentAfter(chunks[..n], i);
      assert chunks[i + 1..][..n - i - 1] == chunks[..n][i + 1..];
    }
  }

  /** While no finish reason has arrived, the buffer is the longest tail of the text after the last
      consumed marker that is a proper prefix of the marker now sought. */
  lemma HeldBetweenChunks(chunks: seq<Chunk>) returns (done: nat, k: nat)
    requires Unfinished(chunks)
    ensures ConsumedTo(THINK, AllContent(chunks), false, done)
    ensures var tail := AllContent(chunks)[done..];
            var p := ReadChunks(chunks);
            IsLongestPartial(tail, k, Sought(THINK, p.inside)) && p.held == tail[k..]
  {
    forall i, j | 0 <= i < j < |chunks| ensures Finishes(chunks[i]) ==> Content(chunks[j].choices) == "" {
      assert chunks[i] in chunks;
    }
    ReadChunksIsStream(chunks);
    done, k := HeldIsLongest(THINK, AllContent(chunks), false);
  }
}

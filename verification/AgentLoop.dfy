/** The agent loop: prepare a request, ask the model, execute its tool calls, decide whether to go on. */
module AgentLoop {
  import opened Basics
  import opened Messages
  import opened Transcript
  import opened HistoryRepair
  import opened HistoryProjection
  import opened LoopGuards
  import Text

  // --- Preparing a turn's request ---

  // What the guardrails decide for one turn: a digest of a large document result that ends the
  // history, a system note, and presentation guidance for some tool results.
  datatype Preparation = Preparation(digest: Option<string>, note: Option<string>, guidance: map<nat, string>)

  function SystemNote(text: string): Message { Message(System, text, [], "") }

  function InsertSystemNote(h: seq<Message>, note: string): seq<Message> {
    if h != [] && h[|h| - 1].role == User then h[..|h| - 1] + [SystemNote(note), h[|h| - 1]]
    else h + [SystemNote(note)]
  }

  function WithDigest(h: seq<Message>, digest: Option<string>): seq<Message> {
    if digest.Some? && h != [] && h[|h| - 1].role == Tool
    then h[..|h| - 1] + [h[|h| - 1].(content := digest.value)]
    else h
  }

  function WithGuidance(h: seq<Message>, guidance: map<nat, string>): (r: seq<Message>)
    ensures |r| == |h|
  {
    seq(|h|, i requires 0 <= i < |h| =>
      if h[i].role == Tool && i in guidance then h[i].(content := guidance[i]) else h[i])
  }

  function Prepared(h: seq<Message>, p: Preparation): seq<Message> {
    var noted := WithDigest(h, p.digest);
    WithGuidance(if p.note.Some? then InsertSystemNote(noted, p.note.value) else noted, p.guidance)
  }

  // The message list sent to a provider. Most get system messages in front of the history; a local
  // provider gets one system message, and the other ones are folded into the latest user message.
  // Prompts and context parts may depend on the history.
  datatype Shape =
    | SystemFirst(prompts: seq<Message> -> seq<string>)
    | SingleSystem(prompt: string, parts: seq<Message> -> seq<string>)

  function SystemNotes(prompts: seq<string>): seq<Message> {
    if prompts == [] then [] else [SystemNote(prompts[0])] + SystemNotes(prompts[1..])
  }

  const CONTEXT_OPEN := "<fruitcake_turn_context>"
  const CONTEXT_CLOSE := "</fruitcake_turn_context>"

  function Envelope(context: string): string {
    CONTEXT_OPEN + "\n" + context + "\n" + CONTEXT_CLOSE
  }

  function Enveloped(content: string, context: string): string {
    var base := Text.RStrip(content);
    if base == "" then Envelope(context) else base + "\n\n" + Envelope(context)
  }

  function EnvelopeLatestUser(h: seq<Message>, context: string): seq<Message> {
    if h == [] || context == "" then h
    else
      var n := |h| - 1;
      if h[n].role == User then h[..n] + [h[n].(content := Enveloped(h[n].content, context))]
      else EnvelopeLatestUser(h[..n], context) + [h[n]]
  }

  function BuildMessages(h: seq<Message>, shape: Shape): seq<Message> {
    match shape
    case SystemFirst(prompts) => SystemNotes(prompts(h)) + h
    case SingleSystem(prompt, parts) =>
      var context := Text.Join("\n\n", Text.NonBlank(parts(h) + SystemContents(h)));
      [SystemNote(prompt)] + EnvelopeLatestUser(WithoutSystem(h), context)
  }

  // The note stands before a user message that ends the history, or at the end.
  function NotePlace(h: seq<Message>): nat {
    if h != [] && h[|h| - 1].role == User then |h| - 1 else |h|
  }

  // A note has been put into the history, and nothing else has changed.
  ghost predicate IsNoted(h: seq<Message>, note: string, r: seq<Message>) {
    var place := NotePlace(h);
    |r| == |h| + 1 && r[..place] == h[..place] && r[place] == Message(System, note, [], "") && r[place + 1..] == h[place..]
  }

  lemma NoteInserted(h: seq<Message>, note: string)
    ensures IsNoted(h, note, InsertSystemNote(h, note))
  {
  }

  // A digest stands for the last tool result, guidance for others, and nothing else has changed.
  ghost predicate IsEdited(h: seq<Message>, p: Preparation, r: seq<Message>) {
    && |r| == |h|
    && forall i | 0 <= i < |h| ::
      r[i] == h[i].(content := if h[i].role == Tool && i in p.guidance then p.guidance[i]
                               else if h[i].role == Tool && i == |h| - 1 && p.digest.Some? then p.digest.value
                               else h[i].content)
  }

  // The digest is put in before the note, and guidance after it.
  ghost predicate IsPrepared(h: seq<Message>, p: Preparation, r: seq<Message>) {
    if p.note.None? then IsEdited(h, p, r)
    else
      exists digested, noted ::
        && IsEdited(h, p.(guidance := map[]), digested) && IsNoted(digested, p.note.value, noted)
        && IsEdited(noted, p.(digest := None), r)
  }

  /** What the guardrails leave of a history: all of it, with a digest, a note and guidance in their
      places and no others. */
  lemma PreparedKeeps(h: seq<Message>, p: Preparation)
    ensures IsPrepared(h, p, Prepared(h, p))
  {
    var digested := WithDigest(h, p.digest);
    if p.note.Some? {
      NoteInserted(digested, p.note.value);
      assert IsEdited(h, p.(guidance := map[]), digested);
      assert IsEdited(InsertSystemNote(digested, p.note.value), p.(digest := None), Prepared(h, p));
    }
  }

  // No user message follows this one.
  ghost predicate IsLatestUser(h: seq<Message>, i: nat) {
    i < |h| && h[i].role == User && forall j | i < j < |h| :: h[j].role != User
  }

  // The content, but for whitespace at its end, and then the texts between the tags.
  ghost predicate HoldsContext(content: string, texts: seq<string>, r: string) {
    && Text.RStrip(content) <= r
    && Text.InOrder([CONTEXT_OPEN] + texts + [CONTEXT_CLOSE], r[|Text.RStrip(content)|..])
  }

  // The latest user message has got the texts, if there are any; nothing else has changed.
  ghost predicate HasContext(h: seq<Message>, texts: seq<string>, r: seq<Message>) {
    && SameShape(h, r)
    && forall i | 0 <= i < |h| ::
      if IsLatestUser(h, i) && texts != [] then HoldsContext(h[i].content, texts, r[i].content) else r[i] == h[i]
  }

  // The request carries the history: behind the system messages, or, where only one is allowed, with
  // every other text put into the latest user message.
  ghost predicate IsDressed(h: seq<Message>, shape: Shape, request: seq<Message>) {
    match shape
    case SystemFirst(prompts) =>
      var n := |prompts(h)|;
      && |request| == n + |h| && request[n..] == h
      && forall k | 0 <= k < n :: request[k] == Message(System, prompts(h)[k], [], "")
    case SingleSystem(prompt, parts) =>
      && request != [] && request[0] == Message(System, prompt, [], "")
      && HasContext(WithoutSystem(h), Text.NonBlank(parts(h) + SystemContents(h)), request[1..])
  }

  lemma {:induction false} SystemNotesAre(prompts: seq<string>)
    ensures |SystemNotes(prompts)| == |prompts|
    ensures forall k | 0 <= k < |prompts| :: SystemNotes(prompts)[k] == Message(System, prompts[k], [], "")
  {
    if prompts != [] { SystemNotesAre(prompts[1..]); }
  }

  lemma {:induction false} EnvelopeInOrder(texts: seq<string>, context: string)
    requires Text.InOrder(texts, context)
    ensures Text.InOrder([CONTEXT_OPEN] + texts + [CONTEXT_CLOSE], Envelope(context))
  {
    Text.InOrderOne(CONTEXT_OPEN);
    Text.InOrderOne(CONTEXT_CLOSE);
    Text.InOrderConcat([CONTEXT_OPEN], CONTEXT_OPEN, [], "\n");
    Text.InOrderConcat([CONTEXT_OPEN] + [], CONTEXT_OPEN + "\n", texts, context);
    Text.InOrderConcat([CONTEXT_OPEN] + [] + texts, CONTEXT_OPEN + "\n" + context, [], "\n");
    Text.InOrderConcat([CONTEXT_OPEN] + [] + texts + [], CONTEXT_OPEN + "\n" + context + "\n", [CONTEXT_CLOSE], CONTEXT_CLOSE);
    assert [CONTEXT_OPEN] + [] + texts + [] + [CONTEXT_CLOSE] == [CONTEXT_OPEN] + texts + [CONTEXT_CLOSE];
  }

  lemma {:induction false} EnvelopeHolds(content: string, texts: seq<string>)
    ensures HoldsContext(content, texts, Enveloped(content, Text.Join("\n\n", texts)))
  {
    var envelope := Envelope(Text.Join("\n\n", texts));
    Text.JoinInOrder("\n\n", texts);
    EnvelopeInOrder(texts, Text.Join("\n\n", texts));
    Behind(Text.RStrip(content), [CONTEXT_OPEN] + texts + [CONTEXT_CLOSE], envelope);
  }

  lemma {:induction false} Behind(base: string, texts: seq<string>, envelope: string)
    requires Text.InOrder(texts, envelope)
    ensures var r := if base == "" then envelope else base + "\n\n" + envelope; base <= r && Text.InOrder(texts, r[|base|..])
  {
    Text.InOrderConcat([], "\n\n", texts, envelope);
    assert [] + texts == texts && envelope[0..] == envelope;
    assert (base + "\n\n" + envelope)[|base|..] == "\n\n" + envelope;
  }

  lemma {:induction false} ContextAdded(h: seq<Message>, texts: seq<string>)
    requires texts != [] && Text.Join("\n\n", texts) != ""
    ensures HasContext(h, texts, EnvelopeLatestUser(h, Text.Join("\n\n", texts)))
  {
    EnvelopeKeepsShape(h, Text.Join("\n\n", texts));
    if h != [] {
      var n := |h| - 1;
      if h[n].role == User {
        EnvelopeHolds(h[n].content, texts);
      } else {
        ContextAdded(h[..n], texts);
        forall i: nat | i < n ensures IsLatestUser(h, i) <==> IsLatestUser(h[..n], i) {
          assert forall j | i < j < n :: h[..n][j] == h[j];
        }
      }
    }
  }

  lemma {:induction false} NoContextAdded(h: seq<Message>)
    ensures HasContext(h, [], EnvelopeLatestUser(h, ""))
  {
  }

  /** What a provider is sent holds the history, whole, behind the system messages it allows. */
  lemma {:induction false} BuiltCarriesHistory(h: seq<Message>, shape: Shape)
    ensures IsDressed(h, shape, BuildMessages(h, shape))
  {
    match shape
    case SystemFirst(prompts) =>
      SystemNotesAre(prompts(h));
    case SingleSystem(prompt, parts) =>
      var texts := Text.NonBlank(parts(h) + SystemContents(h));
      Text.NothingJoined("\n\n", parts(h) + SystemContents(h));
      if texts == [] { NoContextAdded(WithoutSystem(h)); } else { ContextAdded(WithoutSystem(h), texts); }
      assert BuildMessages(h, shape)[1..] == EnvelopeLatestUser(WithoutSystem(h), Text.Join("\n\n", texts));
  }

  lemma PreparedIsWhole(h: seq<Message>, p: Preparation)
    requires Whole(h)
    ensures Whole(Prepared(h, p))
  {
    DigestKeepsShape(h, p.digest);
    WholeByShape(h, WithDigest(h, p.digest));
    var noted := WithDigest(h, p.digest);
    if p.note.Some? {
      NotedIsWhole(noted, p.note.value);
      noted := InsertSystemNote(noted, p.note.value);
    }
    GuidanceKeepsShape(noted, p.guidance);
    WholeByShape(noted, WithGuidance(noted, p.guidance));
  }

  lemma DigestKeepsShape(h: seq<Message>, digest: Option<string>)
    ensures SameShape(h, WithDigest(h, digest))
  {
  }

  lemma GuidanceKeepsShape(h: seq<Message>, guidance: map<nat, string>)
    ensures SameShape(h, WithGuidance(h, guidance))
  {
  }

  lemma NotedIsWhole(h: seq<Message>, note: string)
    requires Whole(h)
    ensures Whole(InsertSystemNote(h, note))
  {
    WholePlain(SystemNote(note));
    if h != [] && h[|h| - 1].role == User {
      var n := |h| - 1;
      WholeSplit(h, n);
      WholeConcat(h[..n], [SystemNote(note)]);
      WholeConcat(h[..n] + [SystemNote(note)], h[n..]);
      assert h[..n] + [SystemNote(note)] + h[n..] == h[..n] + [SystemNote(note), h[n]];
    } else {
      WholeConcat(h, [SystemNote(note)]);
    }
  }

  lemma {:induction false} SystemNotesWhole(prompts: seq<string>)
    ensures Whole(SystemNotes(prompts))
  {
    if prompts != [] {
      SystemNotesWhole(prompts[1..]);
      WholePlain(SystemNote(prompts[0]));
      WholeConcat([SystemNote(prompts[0])], SystemNotes(prompts[1..]));
    }
  }

  lemma {:induction false} EnvelopeKeepsShape(h: seq<Message>, context: string)
    ensures SameShape(h, EnvelopeLatestUser(h, context))
  {
    if h != [] && context != "" && h[|h| - 1].role != User {
      EnvelopeKeepsShape(h[..|h| - 1], context);
    }
  }

  lemma BuiltIsWhole(h: seq<Message>, shape: Shape)
    requires Whole(h)
    ensures Whole(BuildMessages(h, shape))
  {
    match shape
    case SystemFirst(prompts) =>
      SystemNotesWhole(prompts(h));
      WholeConcat(SystemNotes(prompts(h)), h);
    case SingleSystem(prompt, parts) =>
      var context := Text.Join("\n\n", Text.NonBlank(parts(h) + SystemContents(h)));
      WholeWithoutSystem(h);
      EnvelopeKeepsShape(WithoutSystem(h), context);
      WholeByShape(WithoutSystem(h), EnvelopeLatestUser(WithoutSystem(h), context));
      WholePlain(SystemNote(prompt));
      WholeConcat([SystemNote(prompt)], EnvelopeLatestUser(WithoutSystem(h), context));
  }

  // A request is what projection, repair and dressing make of a history.
  ghost predicate IsRequest(h: seq<Message>, l: Limits, s: Settings, o: Oracles, shape: Shape, request: seq<Message>) {
    exists c, cut, recap, projected :: IsRequestVia(h, l, s, o, shape, request, c, cut, recap, projected)
  }

  ghost predicate IsRequestVia(
    h: seq<Message>, l: Limits, s: Settings, o: Oracles, shape: Shape, request: seq<Message>,
    c: seq<Message>, cut: nat, recap: Option<Message>, projected: seq<Message>)
  {
    && IsCompaction(h, c, s.toolRecentKeep, l, o) && IsCut(c, cut, l, s.recentMessagesKeep)
    && IsProjection(c, cut, recap, projected)
    && (recap.Some? ==> IsRecapOf(Collapsible(c[..cut]), recap.value, ToolNameLookup(h)))
    && request == BuildMessages(Sanitized(projected), shape) && IsDressed(Sanitized(projected), shape, request)
  }

  /** One model request: the prepared history, projected, repaired and dressed for its provider. On a
      transcript of whole chains the repair finds nothing, and the request is whole again. */
  method Request(h: seq<Message>, aggressive: bool, historyTokenLimit: Option<int>, s: Settings, o: Oracles, shape: Shape)
    returns (request: seq<Message>, repaired: nat)
    ensures IsRequest(h, EffectiveLimits(aggressive, historyTokenLimit, None, s), s, o, shape, request)
    ensures Whole(h) ==> repaired == 0
  {
    var projected, report, c, cut, recap;
    ghost var l := EffectiveLimits(aggressive, historyTokenLimit, None, s);
    projected, report, c, cut, recap := ProjectHistory(h, aggressive, historyTokenLimit, None, s, o);
    var sanitized;
    sanitized, repaired := SanitizeHistoryToolChains(projected);
    request := BuildMessages(sanitized, shape);
    BuiltCarriesHistory(sanitized, shape);
    assert IsRequestVia(h, l, s, o, shape, request, c, cut, recap, projected);
    if Whole(h) {
      ProjectionKeepsWhole(h, c, s.toolRecentKeep, l, o, cut, s.recentMessagesKeep, recap, projected);
      WholeNeedsNoRepair(projected);
    }
  }

  // A request of whole chains, and a projection of the history in which nothing had to be repaired.
  ghost predicate IsSound(h: seq<Message>, l: Limits, s: Settings, o: Oracles, shape: Shape, request: seq<Message>) {
    Whole(request) && exists c, cut, recap, projected :: IsUnrepairedVia(h, l, s, o, shape, request, c, cut, recap, projected)
  }

  ghost predicate IsUnrepairedVia(
    h: seq<Message>, l: Limits, s: Settings, o: Oracles, shape: Shape, request: seq<Message>,
    c: seq<Message>, cut: nat, recap: Option<Message>, projected: seq<Message>)
  {
    && IsRequestVia(h, l, s, o, shape, request, c, cut, recap, projected)
    && Repairs(projected) == 0 && request == BuildMessages(projected, shape) && IsDressed(projected, shape, request)
  }

  lemma RequestIsSound(h: seq<Message>, l: Limits, s: Settings, o: Oracles, shape: Shape, request: seq<Message>)
    requires Whole(h) && IsRequest(h, l, s, o, shape, request)
    ensures IsSound(h, l, s, o, shape, request)
  {
    var c, cut, recap, projected :| IsRequestVia(h, l, s, o, shape, request, c, cut, recap, projected);
    ProjectionKeepsWhole(h, c, s.toolRecentKeep, l, o, cut, s.recentMessagesKeep, recap, projected);
    WholeNeedsNoRepair(projected);
    BuiltIsWhole(projected, shape);
    assert IsUnrepairedVia(h, l, s, o, shape, request, c, cut, recap, projected);
  }

  // --- Executing tool calls ---

  function ResultsOf(calls: seq<Call>, execute: (nat, Call) -> string): (results: seq<Message>)
    ensures Answers(calls, results)
    ensures forall k | 0 <= k < |results| :: results[k].content == execute(k, calls[k])
  {
    seq(|calls|, k requires 0 <= k < |calls| => Message(Tool, execute(k, calls[k]), [], calls[k].id))
  }

  /** One result message per call, in order, carrying the call's id and what the tool said to it. */
  method DispatchToolCalls(calls: seq<Call>, execute: (nat, Call) -> string) returns (results: seq<Message>)
    ensures Answers(calls, results) && results == ResultsOf(calls, execute)
  {
    results := [];
    for k := 0 to |calls|
      invariant |results| == k
      invariant forall j | 0 <= j < k :: results[j] == Message(Tool, execute(j, calls[j]), [], calls[j].id)
    {
      results := results + [Message(Tool, execute(k, calls[k]), [], calls[k].id)];
    }
  }

  lemma ToolTurnIsWhole(h: seq<Message>, m: Message, results: seq<Message>)
    requires Whole(h) && m.role == Assistant && Answers(m.toolCalls, results)
    ensures Whole(h + [m] + results)
  {
    var chain := [m] + results;
    ChainIsWhole(m, results);
    WholeConcat(h, chain);
    Associate(h, [m], results);
  }

  lemma ChainIsWhole(m: Message, results: seq<Message>)
    requires m.role == Assistant && Answers(m.toolCalls, results)
    ensures Whole([m] + results)
  {
    var chain := [m] + results;
    assert chain[1..Span(m)] == results && chain[Span(m)..] == [];
  }

  // Tool names with the fingerprints of their results; never empty.
  function SignatureParts(calls: seq<Call>, results: seq<Message>, fingerprint: string -> string): seq<string> {
    if calls == [] || results == [] then []
    else [(if calls[0].name == "" then "unknown" else calls[0].name) + ":" + fingerprint(results[0].content)]
         + SignatureParts(calls[1..], results[1..], fingerprint)
  }

  /** The signature names each call's tool with the fingerprint of its own result, in order. */
  lemma {:induction false} SignatureTells(calls: seq<Call>, results: seq<Message>, fingerprint: string -> string)
    requires |results| == |calls|
    ensures |SignatureParts(calls, results, fingerprint)| == |calls|
    ensures forall k | 0 <= k < |calls| ::
      SignatureParts(calls, results, fingerprint)[k]
      == (if calls[k].name == "" then "unknown" else calls[k].name) + ":" + fingerprint(results[k].content)
    ensures Text.InOrder(SignatureParts(calls, results, fingerprint), ToolCallSignature(calls, results, fingerprint))
    ensures calls == [] ==> ToolCallSignature(calls, results, fingerprint) == "no_tool_signature"
  {
    Text.JoinInOrder("|", SignatureParts(calls, results, fingerprint));
    SignaturePartsAre(calls, results, fingerprint);
  }

  lemma {:induction false} SignaturePartsAre(calls: seq<Call>, results: seq<Message>, fingerprint: string -> string)
    requires |results| == |calls|
    ensures |SignatureParts(calls, results, fingerprint)| == |calls|
    ensures forall k | 0 <= k < |calls| ::
      SignatureParts(calls, results, fingerprint)[k]
      == (if calls[k].name == "" then "unknown" else calls[k].name) + ":" + fingerprint(results[k].content)
    ensures calls != [] ==> Text.Join("|", SignatureParts(calls, results, fingerprint)) != ""
  {
    if calls != [] { SignaturePartsAre(calls[1..], results[1..], fingerprint); }
  }

  function ToolCallSignature(calls: seq<Call>, results: seq<Message>, fingerprint: string -> string): (r: string)
    ensures r != ""
  {
    var combined := Text.Join("|", SignatureParts(calls, results, fingerprint));
    if combined == "" then "no_tool_signature" else combined
  }

  // --- The world of a run ---

  // A reply without calls is an answer.
  datatype Reply = Reply(content: string, calls: seq<Call>)

  // The ways in which a turn asks the model: a native stream, a completion, a completion without
  // tools after these have failed a local model, and the second pass that streams a plain answer.
  datatype Kind = Native | Completion | WithoutTools | SecondPass

  // What becomes of an attempt: a reply, or an exception. Of the exceptions one says that a local
  // model cannot call tools, and one breaks a native stream off after its first event.
  datatype Response = Replied(reply: Reply) | ToolError | Failed | BrokenOff

  // Everything outside the loop: the guardrails and budget of each turn, whether the provider
  // reports an overflow, the model, the rewriting of call arguments, the tools, and the facts the
  // guards read off an executed turn. `refreshes` and `withoutRefresh` read and clear one field of a
  // JSON text. Streamed narration before a tool call is not kept.
  datatype World = World(
    streaming: bool,
    nativeStreaming: bool,
    secondPass: bool,
    offersTools: nat -> bool,
    prepare: nat -> Preparation,
    historyTokenLimit: (nat, Kind) -> int,
    overflows: (nat, Kind) -> bool,
    respond: (nat, Kind, seq<Message>) -> Response,
    headlines: bool,
    contextArguments: (nat, nat, Call) -> string,
    refreshes: string -> bool,
    withoutRefresh: string -> string,
    execute: (nat, nat, Call) -> string,
    observe: (nat, seq<Message>) -> Turn)

  datatype Setup = Setup(messages: seq<Message>, s: Settings, o: Oracles, shape: Shape, w: World)

  // --- Rewriting calls before they are executed ---

  const FEED_TOOL := "list_recent_feed_items"
  const CONTEXT_TOOL := "web_context"

  function FeedCalls(calls: seq<Call>): nat {
    if calls == [] then 0
    else FeedCalls(calls[..|calls| - 1]) + if calls[|calls| - 1].name == FEED_TOOL then 1 else 0
  }

  // After the first feed call of a run no other one refreshes the feeds.
  function Downgraded(call: Call, prior: nat, w: World): Call {
    if call.name == FEED_TOOL && prior > 0 && w.refreshes(call.arguments)
    then call.(arguments := w.withoutRefresh(call.arguments))
    else call
  }

  function WithDowngrades(calls: seq<Call>, prior: nat, w: World): (r: seq<Call>)
    ensures |r| == |calls|
  {
    if calls == [] then []
    else
      var n := |calls| - 1;
      WithDowngrades(calls[..n], prior, w) + [Downgraded(calls[n], prior + FeedCalls(calls[..n]), w)]
  }

  function WithContext(turn: nat, calls: seq<Call>, w: World): (r: seq<Call>)
    ensures |r| == |calls|
  {
    seq(|calls|, k requires 0 <= k < |calls| =>
      if calls[k].name == CONTEXT_TOOL then calls[k].(arguments := w.contextArguments(turn, k, calls[k])) else calls[k])
  }

  function Rewritten(turn: nat, calls: seq<Call>, prior: nat, w: World): (r: seq<Call>)
    ensures |r| == |calls|
  {
    if w.headlines then WithDowngrades(WithContext(turn, calls, w), prior, w) else WithContext(turn, calls, w)
  }

  lemma FeedCallsMore(calls: seq<Call>, n: nat)
    requires n < |calls|
    ensures FeedCalls(calls[..n + 1]) == FeedCalls(calls[..n]) + if calls[n].name == FEED_TOOL then 1 else 0
  {
    assert calls[..n + 1][..n] == calls[..n];
  }

  // The loop that downgrades, and the count of feed calls for the next turn.
  method RewriteHeadlineCalls(calls: seq<Call>, prior: nat, w: World) returns (rewritten: seq<Call>, count: nat)
    ensures w.headlines ==> rewritten == WithDowngrades(calls, prior, w) && count == prior + FeedCalls(calls)
    ensures !w.headlines ==> rewritten == calls && count == prior
  {
    if !w.headlines {
      return calls, prior;
    }
    rewritten, count := [], prior;
    for k := 0 to |calls|
      invariant rewritten == WithDowngrades(calls[..k], prior, w) && count == prior + FeedCalls(calls[..k])
    {
      var call := calls[k];
      FeedCallsMore(calls, k);
      assert calls[..k + 1][..k] == calls[..k];
      if call.name != FEED_TOOL {
        rewritten := rewritten + [call];
        continue;
      }
      if count > 0 && w.refreshes(call.arguments) {
        rewritten := rewritten + [call.(arguments := w.withoutRefresh(call.arguments))];
      } else {
        rewritten := rewritten + [call];
      }
      count := count + 1;
    }
    assert calls[..|calls|] == calls;
  }

  // Rewriting touches arguments only.
  lemma {:induction false} DowngradesKeepNames(calls: seq<Call>, prior: nat, w: World, k: nat)
    requires k < |calls|
    ensures WithDowngrades(calls, prior, w)[k] == Downgraded(calls[k], prior + FeedCalls(calls[..k]), w)
    decreases |calls|
  {
    var n := |calls| - 1;
    if k < n {
      DowngradesKeepNames(calls[..n], prior, w, k);
      assert calls[..n][..k] == calls[..k];
    }
  }

  /** What rewriting does to each call: the arguments of a feed call lose their refresh if the run has
      made a feed call before and they ask for one, those of a web-context call are prepared; and
      nothing else changes. */
  lemma {:induction false} RewrittenAt(turn: nat, calls: seq<Call>, prior: nat, w: World, k: nat)
    requires k < |calls|
    ensures var r, before := Rewritten(turn, calls, prior, w)[k], prior > 0 || exists j :: 0 <= j < k && calls[j].name == FEED_TOOL;
            && r == calls[k].(arguments := r.arguments)
            && (calls[k].name == FEED_TOOL ==>
                  r.arguments == if w.headlines && before && w.refreshes(calls[k].arguments) then w.withoutRefresh(calls[k].arguments)
                                 else calls[k].arguments)
            && (calls[k].name == CONTEXT_TOOL ==> r.arguments == w.contextArguments(turn, k, calls[k]))
            && (calls[k].name !in {FEED_TOOL, CONTEXT_TOOL} ==> r == calls[k])
  {
    var contextual := WithContext(turn, calls, w);
    DowngradesKeepNames(contextual, prior, w, k);
    AnyFeedCall(contextual[..k]);
    assert forall j | 0 <= j < k :: contextual[..k][j].name == calls[j].name;
    if j :| 0 <= j < k && calls[j].name == FEED_TOOL { assert contextual[..k][j].name == FEED_TOOL; }
    ToolsDiffer();
  }

  lemma ToolsDiffer()
    ensures FEED_TOOL != CONTEXT_TOOL
  {
    assert FEED_TOOL[0] != CONTEXT_TOOL[0];
  }

  lemma {:induction false} AnyFeedCall(calls: seq<Call>)
    ensures FeedCalls(calls) > 0 <==> exists j :: 0 <= j < |calls| && calls[j].name == FEED_TOOL
  {
    if calls != [] {
      var n := |calls| - 1;
      AnyFeedCall(calls[..n]);
      if j :| 0 <= j < |calls| && calls[j].name == FEED_TOOL { assert j < n ==> calls[..n][j].name == FEED_TOOL; }
    }
  }

  lemma {:induction false} SameFeedCalls(a: seq<Call>, b: seq<Call>)
    requires |a| == |b| && forall k | 0 <= k < |a| :: a[k].name == b[k].name
    ensures FeedCalls(a) == FeedCalls(b)
  {
    if a != [] {
      SameFeedCalls(a[..|a| - 1], b[..|b| - 1]);
    }
  }

  lemma RewrittenFeedCalls(turn: nat, calls: seq<Call>, prior: nat, w: World)
    ensures FeedCalls(WithContext(turn, calls, w)) == FeedCalls(calls)
    ensures FeedCalls(Rewritten(turn, calls, prior, w)) == FeedCalls(calls)
  {
    var contextual := WithContext(turn, calls, w);
    SameFeedCalls(contextual, calls);
    forall k | 0 <= k < |contextual| ensures WithDowngrades(contextual, prior, w)[k].name == contextual[k].name {
      DowngradesKeepNames(contextual, prior, w, k);
    }
    SameFeedCalls(WithDowngrades(contextual, prior, w), contextual);
  }

  // --- Asking the model ---

  const EMPTY_ANSWER_NOTE := "The previous turn had no answer."
  const WITHOUT_TOOLS_NOTE := "Tool calling failed on this turn."

  // One attempt: its requests and what became of the last of them.
  datatype Attempt = Attempt(kind: Kind, requests: seq<seq<Message>>, response: Response)

  // The history an attempt shows the model.
  function HistoryFor(kind: Kind, turn: nat, history: seq<Message>, w: World): seq<Message> {
    match kind
    case WithoutTools => InsertSystemNote(history, WITHOUT_TOOLS_NOTE)
    case SecondPass => history
    case _ => Prepared(history, w.prepare(turn))
  }

  // The k-th request of an attempt is made with these limits: the second one is aggressive, with half
  // the tokens.
  function LimitsOf(limit: int, k: nat, s: Settings): Limits {
    EffectiveLimits(k > 0, Some(if k > 0 then Max(0, limit / 2) else limit), None, s)
  }

  // One request, and after an overflow a second.
  ghost predicate AreRequests(h: seq<Message>, limit: int, overflow: bool, u: Setup, requests: seq<seq<Message>>) {
    && |requests| == (if overflow then 2 else 1)
    && forall k | 0 <= k < |requests| :: IsRequest(h, LimitsOf(limit, k, u.s), u.s, u.o, u.shape, requests[k])
  }

  ghost predicate IsAttempt(a: Attempt, turn: nat, history: seq<Message>, u: Setup) {
    && AreRequests(HistoryFor(a.kind, turn, history, u.w), u.w.historyTokenLimit(turn, a.kind), u.w.overflows(turn, a.kind),
                   u, a.requests)
    && a.response == u.w.respond(turn, a.kind, a.requests[|a.requests| - 1])
  }

  method MakeAttempt(kind: Kind, turn: nat, history: seq<Message>, u: Setup) returns (a: Attempt)
    ensures a.kind == kind && IsAttempt(a, turn, history, u)
  {
    var h, limit := HistoryFor(kind, turn, history, u.w), u.w.historyTokenLimit(turn, kind);
    var first, repaired := Request(h, false, Some(limit), u.s, u.o, u.shape);
    var requests := [first];
    if u.w.overflows(turn, kind) {
      var second;
      second, repaired := Request(h, true, Some(Max(0, limit / 2)), u.s, u.o, u.shape);
      requests := requests + [second];
    }
    a := Attempt(kind, requests, u.w.respond(turn, kind, requests[|requests| - 1]));
  }

  // What a turn tries next after an attempt without a reply; with none the exception passes through.
  ghost function NextKind(a: Attempt, turn: nat, w: World): Option<Kind> {
    if a.response.Replied? then None
    else
      match a.kind
      case Native => if a.response.BrokenOff? then None else Some(Completion)
      case Completion => if a.response.ToolError? && w.offersTools(turn) then Some(WithoutTools) else None
      case _ => None
  }

  // All attempts of a turn before a second pass, beginning with a kind, each following from the one
  // before it.
  ghost predicate AreAttempts(attempts: seq<Attempt>, kind: Kind, turn: nat, history: seq<Message>, u: Setup) {
    && attempts != [] && attempts[0].kind == kind && IsAttempt(attempts[0], turn, history, u)
    && match NextKind(attempts[0], turn, u.w)
       case None => |attempts| == 1
       case Some(next) => AreAttempts(attempts[1..], next, turn, history, u)
  }

  ghost function FirstKind(w: World): Kind {
    if w.streaming && w.nativeStreaming then Native else Completion
  }

  lemma OneAttempt(a: Attempt, turn: nat, history: seq<Message>, u: Setup)
    requires IsAttempt(a, turn, history, u) && NextKind(a, turn, u.w).None?
    ensures AreAttempts([a], a.kind, turn, history, u)
  {
  }

  lemma AttemptBefore(a: Attempt, rest: seq<Attempt>, kind: Kind, turn: nat, history: seq<Message>, u: Setup)
    requires IsAttempt(a, turn, history, u) && NextKind(a, turn, u.w) == Some(kind) && AreAttempts(rest, kind, turn, history, u)
    ensures AreAttempts([a] + rest, a.kind, turn, history, u)
  {
    assert ([a] + rest)[1..] == rest;
  }

  method AttemptWithoutTools(turn: nat, history: seq<Message>, u: Setup) returns (attempts: seq<Attempt>)
    ensures AreAttempts(attempts, WithoutTools, turn, history, u)
  {
    var a := MakeAttempt(WithoutTools, turn, history, u);
    OneAttempt(a, turn, history, u);
    attempts := [a];
  }

  // A completion, and one without tools when that failed a local model.
  method CompletionAttempts(turn: nat, history: seq<Message>, u: Setup) returns (attempts: seq<Attempt>)
    ensures AreAttempts(attempts, Completion, turn, history, u)
  {
    var completion := MakeAttempt(Completion, turn, history, u);
    if completion.response != ToolError || !u.w.offersTools(turn) {
      OneAttempt(completion, turn, history, u);
      return [completion];
    }
    var rest := AttemptWithoutTools(turn, history, u);
    AttemptBefore(completion, rest, WithoutTools, turn, history, u);
    attempts := [completion] + rest;
  }

  /** Ask the model until it replies or an exception passes through: natively where that is enabled,
      then by a completion, then without tools. */
  method TurnAttempts(turn: nat, history: seq<Message>, u: Setup) returns (attempts: seq<Attempt>)
    ensures AreAttempts(attempts, FirstKind(u.w), turn, history, u)
  {
    if u.w.streaming && u.w.nativeStreaming {
      var native := MakeAttempt(Native, turn, history, u);
      if native.response.Replied? || native.response == BrokenOff {
        OneAttempt(native, turn, history, u);
        return [native];
      }
      var rest := CompletionAttempts(turn, history, u);
      AttemptBefore(native, rest, Completion, turn, history, u);
      return [native] + rest;
    }
    attempts := CompletionAttempts(turn, history, u);
  }

  function Rank(kind: Kind): nat {
    match kind case Native => 0 case Completion => 1 case WithoutTools => 2 case SecondPass => 3
  }

  // Each attempt follows from the one before it.
  ghost predicate Follow(attempts: seq<Attempt>, kind: Kind, turn: nat, w: World) {
    && attempts != [] && attempts[0].kind == kind
    && match NextKind(attempts[0], turn, w)
       case None => |attempts| == 1
       case Some(next) => Follow(attempts[1..], next, turn, w)
  }

  lemma {:induction false} AttemptsFollow(attempts: seq<Attempt>, kind: Kind, turn: nat, history: seq<Message>, u: Setup)
    requires AreAttempts(attempts, kind, turn, history, u)
    ensures Follow(attempts, kind, turn, u.w)
    decreases |attempts|
  {
    if |attempts| > 1 {
      RestFollows(attempts, kind, turn, history, u);
      AttemptsFollow(attempts[1..], NextKind(attempts[0], turn, u.w).value, turn, history, u);
    }
  }

  lemma RestFollows(attempts: seq<Attempt>, kind: Kind, turn: nat, history: seq<Message>, u: Setup)
    requires AreAttempts(attempts, kind, turn, history, u) && |attempts| > 1
    ensures NextKind(attempts[0], turn, u.w).Some?
    ensures AreAttempts(attempts[1..], NextKind(attempts[0], turn, u.w).value, turn, history, u)
  {
  }

  lemma {:induction false} FollowAscends(attempts: seq<Attempt>, kind: Kind, turn: nat, w: World, i: nat, j: nat)
    requires Follow(attempts, kind, turn, w) && kind != SecondPass && i < j < |attempts|
    ensures Rank(attempts[i].kind) < Rank(attempts[j].kind) <= 2 && !attempts[i].response.Replied?
    decreases j
  {
    var rest, next := attempts[1..], NextKind(attempts[0], turn, w).value;
    assert rest[j - 1] == attempts[j] && rest[0].kind == next;
    if i > 0 {
      FollowAscends(rest, next, turn, w, i - 1, j - 1);
    } else if j > 1 {
      FollowAscends(rest, next, turn, w, 0, j - 1);
    }
  }

  /** A turn tries each way of asking at most once, in order, and another one only when those before it
      gave no reply. */
  lemma AttemptsAscend(attempts: seq<Attempt>, turn: nat, history: seq<Message>, u: Setup, i: nat, j: nat)
    requires AreAttempts(attempts, FirstKind(u.w), turn, history, u) && i < j < |attempts|
    ensures Rank(attempts[i].kind) < Rank(attempts[j].kind) <= 2 && !attempts[i].response.Replied?
  {
    AttemptsFollow(attempts, FirstKind(u.w), turn, history, u);
    FollowAscends(attempts, FirstKind(u.w), turn, u.w, i, j);
  }

  // Another attempt of this kind follows, or none does.
  ghost predicate LeadsTo(a: Attempt, next: Option<Kind>, offersTools: bool) {
    match next
    case Some(Completion) => a.kind == Native && a.response in {ToolError, Failed}
    case Some(WithoutTools) => a.kind == Completion && a.response == ToolError && offersTools
    case Some(_) => false
    case None =>
      || a.response.Replied? || a.kind == WithoutTools
      || (a.kind == Native && a.response == BrokenOff)
      || (a.kind == Completion && (a.response != ToolError || !offersTools))
  }

  /** Why a turn asks again: a native stream that failed before its first event is followed by a
      completion, one that a local model could not call tools in by one without tools, and nothing
      else by anything. */
  lemma {:induction false} AttemptsMean(attempts: seq<Attempt>, turn: nat, history: seq<Message>, u: Setup, k: nat)
    requires AreAttempts(attempts, FirstKind(u.w), turn, history, u) && k < |attempts|
    ensures attempts[0].kind == if u.w.streaming && u.w.nativeStreaming then Native else Completion
    ensures LeadsTo(attempts[k], if k + 1 < |attempts| then Some(attempts[k + 1].kind) else None, u.w.offersTools(turn))
  {
    AttemptsFollow(attempts, FirstKind(u.w), turn, history, u);
    FollowMeans(attempts, FirstKind(u.w), turn, u.w, k);
  }

  lemma {:induction false} FollowMeans(attempts: seq<Attempt>, kind: Kind, turn: nat, w: World, k: nat)
    requires Follow(attempts, kind, turn, w) && kind != SecondPass && k < |attempts|
    ensures LeadsTo(attempts[k], if k + 1 < |attempts| then Some(attempts[k + 1].kind) else None, w.offersTools(turn))
    decreases k
  {
    if |attempts| > 1 {
      var rest, next := attempts[1..], NextKind(attempts[0], turn, w).value;
      assert rest[0].kind == next;
      if k > 0 { FollowMeans(rest, next, turn, w, k - 1); }
    }
  }

  // What an attempt shows of the history: all of it, as the guardrails prepare it; with a note after
  // tools have failed; and as it is in a second pass.
  ghost predicate IsShown(kind: Kind, p: Preparation, history: seq<Message>, shown: seq<Message>) {
    match kind
    case Native => IsPrepared(history, p, shown)
    case Completion => IsPrepared(history, p, shown)
    case WithoutTools => IsNoted(history, WITHOUT_TOOLS_NOTE, shown)
    case SecondPass => shown == history
  }

  // All requests of an attempt are sound.
  ghost predicate AsksSoundly(a: Attempt, turn: nat, history: seq<Message>, u: Setup) {
    && IsShown(a.kind, u.w.prepare(turn), history, HistoryFor(a.kind, turn, history, u.w))
    && forall k | 0 <= k < |a.requests| ::
      IsSound(HistoryFor(a.kind, turn, history, u.w), LimitsOf(u.w.historyTokenLimit(turn, a.kind), k, u.s),
              u.s, u.o, u.shape, a.requests[k])
  }

  lemma AttemptIsSound(a: Attempt, turn: nat, history: seq<Message>, u: Setup)
    requires Whole(history) && IsAttempt(a, turn, history, u)
    ensures AsksSoundly(a, turn, history, u)
  {
    var h, limit := HistoryFor(a.kind, turn, history, u.w), u.w.historyTokenLimit(turn, a.kind);
    HistoryForIsWhole(a.kind, turn, history, u.w);
    PreparedKeeps(history, u.w.prepare(turn));
    NoteInserted(history, WITHOUT_TOOLS_NOTE);
    forall k | 0 <= k < |a.requests| ensures IsSound(h, LimitsOf(limit, k, u.s), u.s, u.o, u.shape, a.requests[k]) {
      RequestIsSound(h, LimitsOf(limit, k, u.s), u.s, u.o, u.shape, a.requests[k]);
    }
  }

  lemma FirstIsAttempt(attempts: seq<Attempt>, kind: Kind, turn: nat, history: seq<Message>, u: Setup)
    requires AreAttempts(attempts, kind, turn, history, u)
    ensures IsAttempt(attempts[0], turn, history, u)
  {
  }

  lemma {:induction false} EachIsAttempt(attempts: seq<Attempt>, kind: Kind, turn: nat, history: seq<Message>, u: Setup, k: nat)
    requires AreAttempts(attempts, kind, turn, history, u) && k < |attempts|
    ensures IsAttempt(attempts[k], turn, history, u)
    decreases k
  {
    if k == 0 {
      FirstIsAttempt(attempts, kind, turn, history, u);
    } else {
      RestFollows(attempts, kind, turn, history, u);
      EachIsAttempt(attempts[1..], NextKind(attempts[0], turn, u.w).value, turn, history, u, k - 1);
    }
  }

  lemma HistoryForIsWhole(kind: Kind, turn: nat, history: seq<Message>, w: World)
    requires Whole(history)
    ensures Whole(HistoryFor(kind, turn, history, w))
  {
    match kind
    case WithoutTools => NotedIsWhole(history, WITHOUT_TOOLS_NOTE);
    case SecondPass =>
    case _ => PreparedIsWhole(history, w.prepare(turn));
  }

  // --- A turn of a run ---

  // The history it started from, its attempts, and the second pass that streams its answer.
  datatype Step = Step(history: seq<Message>, attempts: seq<Attempt>, second: Option<Attempt>)

  // The reply a turn acts on.
  function ReplyIn(attempts: seq<Attempt>): Option<Reply> {
    if attempts == [] || !attempts[|attempts| - 1].response.Replied? then None
    else Some(attempts[|attempts| - 1].response.reply)
  }

  function ReplyOf(step: Step): Option<Reply> {
    ReplyIn(step.attempts)
  }

  function CallsOf(step: Step): seq<Call> {
    if ReplyOf(step).Some? then ReplyOf(step).value.calls else []
  }

  function AnswerOf(step: Step): Option<string> {
    if ReplyOf(step).Some? && CallsOf(step) == [] then Some(Text.Strip(ReplyOf(step).value.content)) else None
  }

  /** What a turn acts on is what its last attempt came to: a reply's calls, or, if it has none, its text
      without whitespace around it; and nothing after an exception. */
  lemma LastAttemptDecides(step: Step)
    requires step.attempts != []
    ensures match step.attempts[|step.attempts| - 1].response
            case Replied(reply) =>
              && ReplyOf(step) == Some(reply) && CallsOf(step) == reply.calls
              && AnswerOf(step) == if reply.calls == [] then Some(Text.Strip(reply.content)) else None
            case _ => ReplyOf(step) == None && CallsOf(step) == [] && AnswerOf(step) == None
  {
  }

  // A plain answer is streamed by a second request when it did not come from a native stream.
  ghost predicate NeedsSecondPass(attempts: seq<Attempt>, w: World) {
    && ReplyIn(attempts).Some? && ReplyIn(attempts).value.calls == [] && Text.Strip(ReplyIn(attempts).value.content) != ""
    && !attempts[|attempts| - 1].kind.Native? && w.streaming && w.secondPass
  }

  // The second pass of the n-th turn, where it needs one.
  ghost predicate IsSecondPass(second: Option<Attempt>, attempts: seq<Attempt>, n: nat, history: seq<Message>, u: Setup) {
    && (second.Some? <==> NeedsSecondPass(attempts, u.w))
    && (second.Some? ==> second.value.kind == SecondPass && IsAttempt(second.value, n, history, u))
  }

  // The n-th turn, taken from a history.
  ghost predicate IsStep(step: Step, n: nat, history: seq<Message>, u: Setup) {
    && step.history == history && AreAttempts(step.attempts, FirstKind(u.w), n, history, u)
    && IsSecondPass(step.second, step.attempts, n, history, u)
  }

  // The assistant message that joins the history when a reply has calls.
  function CallMessage(turn: nat, step: Step, prior: nat, w: World): Message {
    Message(Assistant, if w.streaming || ReplyOf(step).None? then "" else ReplyOf(step).value.content,
            Rewritten(turn, CallsOf(step), prior, w), "")
  }

  function ResultsIn(turn: nat, step: Step, prior: nat, w: World): seq<Message> {
    ResultsOf(CallMessage(turn, step, prior, w).toolCalls, (k: nat, call: Call) => w.execute(turn, k, call))
  }

  // The history after a turn: with an assistant message and its results, or a note that the answer
  // was empty.
  function AfterStep(turn: nat, step: Step, prior: nat, w: World): seq<Message> {
    if CallsOf(step) == [] then step.history + [SystemNote(EMPTY_ANSWER_NOTE)]
    else step.history + [CallMessage(turn, step, prior, w)] + ResultsIn(turn, step, prior, w)
  }

  // What the guards are told of an executed turn.
  function TurnFacts(turn: nat, step: Step, prior: nat, o: Oracles, w: World): (t: Turn)
    requires CallsOf(step) != []
    ensures t.signature != ""
  {
    w.observe(turn, AfterStep(turn, step, prior, w)).(
      number := turn,
      signature := ToolCallSignature(CallMessage(turn, step, prior, w).toolCalls, ResultsIn(turn, step, prior, w), o.fingerprint))
  }

  /** Execute one turn's calls: the assistant message and its results join the history together. */
  method ToolTurn(turn: nat, step: Step, prior: nat, o: Oracles, w: World) returns (extended: seq<Message>, t: Turn, count: nat)
    requires CallsOf(step) != []
    ensures extended == AfterStep(turn, step, prior, w) && t == TurnFacts(turn, step, prior, o, w)
    ensures count == prior + if w.headlines then FeedCalls(CallsOf(step)) else 0
  {
    var reply := ReplyOf(step).value;
    RewrittenFeedCalls(turn, reply.calls, prior, w);
    var calls;
    calls, count := RewriteHeadlineCalls(WithContext(turn, reply.calls, w), prior, w);
    var message := Message(Assistant, if w.streaming then "" else reply.content, calls, "");
    var results := DispatchToolCalls(calls, (k: nat, call: Call) => w.execute(turn, k, call));
    extended := step.history + [message] + results;
    t := w.observe(turn, extended).(number := turn, signature := ToolCallSignature(calls, results, o.fingerprint));
  }

  /** What a turn with calls adds to the history: an assistant message with all of them, in order, and
      then for each what the tool said to its rewritten form. */
  lemma AfterStepCarries(turn: nat, step: Step, prior: nat, w: World)
    ensures CallsOf(step) == [] ==> AfterStep(turn, step, prior, w) == step.history + [Message(System, EMPTY_ANSWER_NOTE, [], "")]
    ensures CallsOf(step) != [] ==>
            var calls, n, after := CallsOf(step), |step.history|, AfterStep(turn, step, prior, w);
            && after[..n] == step.history && |after| == n + 1 + |calls|
            && after[n].role == Assistant && |after[n].toolCalls| == |calls|
            && after[n].content == (if w.streaming then "" else ReplyOf(step).value.content)
            && forall k | 0 <= k < |calls| ::
                 var call := after[n].toolCalls[k];
                 && call == Rewritten(turn, calls, prior, w)[k]
                 && after[n + 1 + k] == Message(Tool, w.execute(turn, k, call), [], call.id)
  {
    var after := AfterStep(turn, step, prior, w);
    var results := ResultsIn(turn, step, prior, w);
    forall k | 0 <= k < |CallsOf(step)| && CallsOf(step) != [] ensures after[|step.history| + 1 + k] == results[k] {
    }
  }

  lemma AfterStepIsWhole(turn: nat, step: Step, prior: nat, w: World)
    ensures step.history <= AfterStep(turn, step, prior, w)
    ensures Whole(step.history) ==> Whole(AfterStep(turn, step, prior, w))
  {
    if Whole(step.history) {
      if CallsOf(step) == [] {
        WholePlain(SystemNote(EMPTY_ANSWER_NOTE));
        WholeConcat(step.history, [SystemNote(EMPTY_ANSWER_NOTE)]);
      } else {
        ToolTurnIsWhole(step.history, CallMessage(turn, step, prior, w), ResultsIn(turn, step, prior, w));
      }
    }
  }

  // --- Runs ---

  datatype Outcome =
    | StoppedBy(reason: StopReason) | Answered(text: string) | Streamed(text: string) | NoUsableAnswer | OutOfTurns
    | ToolsRefused | Raised

  // The feed calls of a run, as far as they are counted.
  function FeedsSoFar(log: seq<Step>, w: World): nat {
    if log == [] || !w.headlines then 0
    else FeedsSoFar(log[..|log| - 1], w) + FeedCalls(CallsOf(log[|log| - 1]))
  }

  // The history after all steps, the last one included, have gone on.
  function HistoryAfter(log: seq<Step>, u: Setup): seq<Message> {
    if log == [] then u.messages
    else
      var n := |log| - 1;
      AfterStep(|log|, log[n], FeedsSoFar(log[..n], u.w), u.w)
  }

  ghost predicate IsLog(log: seq<Step>, u: Setup) {
    log == [] ||
    (var n := |log| - 1; IsLog(log[..n], u) && IsStep(log[n], n + 1, HistoryAfter(log[..n], u), u))
  }

  function TraceOf(log: seq<Step>, u: Setup): seq<Turn> {
    if log == [] then []
    else
      var n := |log| - 1;
      TraceOf(log[..n], u)
      + if CallsOf(log[n]) != [] then [TurnFacts(n + 1, log[n], FeedsSoFar(log[..n], u.w), u.o, u.w)] else []
  }

  predicate IsEmptyAnswer(step: Step) {
    AnswerOf(step) == Some("")
  }

  function EmptyAnswers(log: seq<Step>): nat {
    if log == [] then 0
    else EmptyAnswers(log[..|log| - 1]) + if IsEmptyAnswer(log[|log| - 1]) then 1 else 0
  }

  // After every step of the log the run went on: calls that gave no reason to stop, or the only
  // empty answer.
  ghost predicate WentOn(log: seq<Step>, u: Setup, c: Config) {
    && Continued(TraceOf(log, u), c) && EmptyAnswers(log) <= 1
    && |log| == |TraceOf(log, u)| + EmptyAnswers(log)
  }

  // How a run may end: `log` is everything that happened in it.
  ghost predicate EndsRightly(outcome: Outcome, log: seq<Step>, u: Setup, c: Config, allowTools: bool) {
    if outcome.OutOfTurns? then WentOn(log, u, c) && |log| == c.maxTurns
    else
      && log != [] && WentOn(log[..|log| - 1], u, c)
      && var last := log[|log| - 1];
         match outcome
         case StoppedBy(reason) => CallsOf(last) != [] && allowTools && Stop(TraceOf(log, u), c) == Some(reason)
         case ToolsRefused => CallsOf(last) != [] && !allowTools
         case Answered(text) => AnswerOf(last) == Some(text) && text != "" && last.second.None?
         case Streamed(text) => last.second.Some? && last.second.value.response.Replied?
                                && text == last.second.value.response.reply.content
         case NoUsableAnswer => IsEmptyAnswer(last) && EmptyAnswers(log) == 2
         case Raised => ReplyOf(last).None? || (last.second.Some? && !last.second.value.response.Replied?)
  }

  lemma LogMore(log: seq<Step>, u: Setup, step: Step)
    requires IsLog(log, u) && IsStep(step, |log| + 1, HistoryAfter(log, u), u)
    ensures IsLog(log + [step], u)
  {
    assert (log + [step])[..|log|] == log;
  }

  lemma StepCounted(log: seq<Step>, u: Setup, step: Step)
    ensures HistoryAfter(log + [step], u) == AfterStep(|log| + 1, step, FeedsSoFar(log, u.w), u.w)
    ensures CallsOf(step) != [] ==>
      TraceOf(log + [step], u) == TraceOf(log, u) + [TurnFacts(|log| + 1, step, FeedsSoFar(log, u.w), u.o, u.w)]
    ensures CallsOf(step) == [] ==> TraceOf(log + [step], u) == TraceOf(log, u)
    ensures EmptyAnswers(log + [step]) == EmptyAnswers(log) + if IsEmptyAnswer(step) then 1 else 0
    ensures FeedsSoFar(log + [step], u.w) == FeedsSoFar(log, u.w) + if u.w.headlines then FeedCalls(CallsOf(step)) else 0
  {
    assert (log + [step])[..|log|] == log;
  }

  lemma StepEnds(log: seq<Step>, step: Step)
    ensures log + [step] != [] && (log + [step])[..|log + [step]| - 1] == log && (log + [step])[|log + [step]| - 1] == step
  {
  }

  lemma ToolsWentOn(log: seq<Step>, u: Setup, step: Step, c: Config, t: Turn)
    requires WentOn(log, u, c) && Stop(TraceOf(log, u) + [t], c).None?
    requires TraceOf(log + [step], u) == TraceOf(log, u) + [t] && EmptyAnswers(log + [step]) == EmptyAnswers(log)
    ensures WentOn(log + [step], u, c)
  {
    ContinuedMore(TraceOf(log, u), t, c);
  }

  // The loop's variables, between two turns, are what the log so far amounts to.
  ghost predicate GoesOn(state: AgentLoopState, history: seq<Message>, log: seq<Step>, u: Setup, c: Config)
    reads state
  {
    && WentOn(log, u, c) && history == HistoryAfter(log, u)
    && state.Tracks(TraceOf(log, u), c) && state.emptyFinalRetries == EmptyAnswers(log)
    && state.priorRecentFeedFetches == FeedsSoFar(log, u.w)
  }

  // Stream a plain answer by a second pass where the provider needs one.
  method PassAgain(attempts: seq<Attempt>, turn: nat, history: seq<Message>, u: Setup) returns (second: Option<Attempt>)
    requires attempts != []
    ensures IsSecondPass(second, attempts, turn, history, u)
  {
    var last := attempts[|attempts| - 1];
    if !last.response.Replied? || last.response.reply.calls != [] || Text.Strip(last.response.reply.content) == "" {
      return None;
    }
    if last.kind == Native || !u.w.streaming || !u.w.secondPass {
      return None;
    }
    var again := MakeAttempt(SecondPass, turn, history, u);
    second := Some(again);
  }

  method AskModel(turn: nat, history: seq<Message>, u: Setup) returns (step: Step)
    ensures IsStep(step, turn, history, u)
  {
    var attempts := TurnAttempts(turn, history, u);
    var second := PassAgain(attempts, turn, history, u);
    step := Step(history, attempts, second);
  }

  // What a turn without calls comes to: an outcome, or none when an empty answer is asked for again.
  function AnswerOutcome(step: Step, retries: nat): Option<Outcome> {
    if AnswerOf(step).None? then Some(Raised)
    else if AnswerOf(step).value == "" then (if retries >= 1 then Some(NoUsableAnswer) else None)
    else if step.second.None? then Some(Answered(AnswerOf(step).value))
    else if step.second.value.response.Replied? then Some(Streamed(step.second.value.response.reply.content))
    else Some(Raised)
  }

  lemma AnswerEnds(step: Step, log: seq<Step>, u: Setup, c: Config, allowTools: bool)
    requires WentOn(log, u, c) && CallsOf(step) == []
    ensures var outcome := AnswerOutcome(step, EmptyAnswers(log));
            && (outcome.Some? ==> !outcome.value.OutOfTurns? && EndsRightly(outcome.value, log + [step], u, c, allowTools))
            && (outcome.None? ==> WentOn(log + [step], u, c) && IsEmptyAnswer(step) && EmptyAnswers(log) == 0)
  {
    StepCounted(log, u, step);
    StepEnds(log, step);
  }

  lemma CallsRefused(step: Step, log: seq<Step>, u: Setup, c: Config)
    requires WentOn(log, u, c) && CallsOf(step) != []
    ensures EndsRightly(ToolsRefused, log + [step], u, c, false)
  {
    StepEnds(log, step);
  }

  lemma CallsEnd(step: Step, t: Turn, log: seq<Step>, u: Setup, c: Config)
    requires WentOn(log, u, c) && CallsOf(step) != [] && t == TurnFacts(|log| + 1, step, FeedsSoFar(log, u.w), u.o, u.w)
    ensures match Stop(TraceOf(log, u) + [t], c)
            case Some(reason) => EndsRightly(StoppedBy(reason), log + [step], u, c, true)
            case None => WentOn(log + [step], u, c)
  {
    StepCounted(log, u, step);
    StepEnds(log, step);
    if Stop(TraceOf(log, u) + [t], c).None? { ToolsWentOn(log, u, step, c, t); }
  }

  method ExecuteTurn(turn: nat, step: Step, state: AgentLoopState, c: Config, u: Setup, ghost trace: seq<Turn>)
    returns (next: seq<Message>, t: Turn, stop: Option<StopReason>)
    requires CallsOf(step) != [] && state.Tracks(trace, c)
    modifies state
    ensures next == AfterStep(turn, step, old(state.priorRecentFeedFetches), u.w)
    ensures t == TurnFacts(turn, step, old(state.priorRecentFeedFetches), u.o, u.w)
    ensures stop == Stop(trace + [t], c) && (stop.None? ==> state.Tracks(trace + [t], c))
    ensures state.emptyFinalRetries == old(state.emptyFinalRetries)
    ensures state.priorRecentFeedFetches
            == old(state.priorRecentFeedFetches) + if u.w.headlines then FeedCalls(CallsOf(step)) else 0
  {
    var count;
    next, t, count := ToolTurn(turn, step, state.priorRecentFeedFetches, u.o, u.w);
    state.KeepFeedCount(count, c, trace);
    stop := state.ExecuteToolTurn(t, c, trace);
  }

  // Execute the calls of a turn, and decide whether to go on.
  method ActOnCalls(turn: nat, step: Step, state: AgentLoopState, c: Config, allowTools: bool, u: Setup, ghost log: seq<Step>)
    returns (next: seq<Message>, outcome: Option<Outcome>)
    requires GoesOn(state, step.history, log, u, c) && turn == |log| + 1 && CallsOf(step) != []
    modifies state
    ensures outcome.Some? ==> !outcome.value.OutOfTurns? && EndsRightly(outcome.value, log + [step], u, c, allowTools)
    ensures outcome.None? ==> GoesOn(state, next, log + [step], u, c)
  {
    if !allowTools {
      CallsRefused(step, log, u, c);
      return step.history, Some(ToolsRefused);
    }
    var t, stop;
    next, t, stop := ExecuteTurn(turn, step, state, c, u, TraceOf(log, u));
    CallsEnd(step, t, log, u, c);
    if stop.Some? {
      return next, Some(StoppedBy(stop.value));
    }
    AfterCalls(log, u, step);
    outcome := None;
  }

  lemma AfterCalls(log: seq<Step>, u: Setup, step: Step)
    requires CallsOf(step) != []
    ensures HistoryAfter(log + [step], u) == AfterStep(|log| + 1, step, FeedsSoFar(log, u.w), u.w)
    ensures FeedsSoFar(log + [step], u.w) == FeedsSoFar(log, u.w) + if u.w.headlines then FeedCalls(CallsOf(step)) else 0
    ensures EmptyAnswers(log + [step]) == EmptyAnswers(log)
    ensures TraceOf(log + [step], u) == TraceOf(log, u) + [TurnFacts(|log| + 1, step, FeedsSoFar(log, u.w), u.o, u.w)]
  {
    StepCounted(log, u, step);
  }

  // Judge the answer of a turn without calls, and decide whether to go on.
  method ActOnAnswer(step: Step, state: AgentLoopState, c: Config, allowTools: bool, u: Setup, ghost log: seq<Step>)
    returns (next: seq<Message>, outcome: Option<Outcome>)
    requires GoesOn(state, step.history, log, u, c) && CallsOf(step) == []
    modifies state
    ensures outcome.Some? ==> !outcome.value.OutOfTurns? && EndsRightly(outcome.value, log + [step], u, c, allowTools)
    ensures outcome.None? ==> GoesOn(state, next, log + [step], u, c)
  {
    next := step.history;
    AnswerEnds(step, log, u, c, allowTools);
    outcome := AnswerOutcome(step, state.emptyFinalRetries);
    if outcome.None? {
      StepCounted(log, u, step);
      state.CountEmptyAnswer(c, TraceOf(log, u));
      next := next + [SystemNote(EMPTY_ANSWER_NOTE)];
    }
  }

  /** One turn: ask the model, execute its calls or judge its answer, and decide whether to go on. */
  method RunTurn(turn: nat, history: seq<Message>, state: AgentLoopState, c: Config, allowTools: bool, u: Setup, ghost log: seq<Step>)
    returns (next: seq<Message>, outcome: Option<Outcome>, step: Step)
    requires IsLog(log, u) && GoesOn(state, history, log, u, c) && turn == |log| + 1
    modifies state
    ensures IsLog(log + [step], u)
    ensures outcome.Some? ==> !outcome.value.OutOfTurns? && EndsRightly(outcome.value, log + [step], u, c, allowTools)
    ensures outcome.None? ==> GoesOn(state, next, log + [step], u, c)
  {
    step := AskModel(turn, history, u);
    LogMore(log, u, step);
    if CallsOf(step) != [] {
      next, outcome := ActOnCalls(turn, step, state, c, allowTools, u, log);
    } else {
      next, outcome := ActOnAnswer(step, state, c, allowTools, u, log);
    }
  }

  /** The whole run: what happened in it is a log of turns, each starting from the history its
      predecessor left, and it goes on exactly as long as the trace gives no reason to stop, the model
      has answered nothing, at most one answer was empty, nothing was raised and turns are left. */
  method RunAgent(u: Setup, c: Config, allowTools: bool) returns (outcome: Outcome, turns: nat, ghost log: seq<Step>)
    requires c.maxTurns >= 0
    ensures turns <= c.maxTurns && (outcome.OutOfTurns? ==> turns == c.maxTurns) && (turns == 0 ==> outcome.OutOfTurns?)
    ensures IsLog(log, u) && EndsRightly(outcome, log, u, c, allowTools) && turns == |log|
  {
    var state := new AgentLoopState();
    var history := u.messages;
    turns, log := 0, [];
    while turns < c.maxTurns
      invariant fresh(state) && turns == |log| <= c.maxTurns && IsLog(log, u) && GoesOn(state, history, log, u, c)
    {
      turns := turns + 1;
      var ended, step;
      history, ended, step := RunTurn(turns, history, state, c, allowTools, u, log);
      log := log + [step];
      if ended.Some? {
        return ended.value, turns, log;
      }
    }
    outcome := OutOfTurns;
  }

  lemma {:induction false} HistoryStaysWhole(log: seq<Step>, u: Setup)
    requires IsLog(log, u) && Whole(u.messages)
    ensures Whole(HistoryAfter(log, u)) && u.messages <= HistoryAfter(log, u)
  {
    if log != [] {
      var n := |log| - 1;
      HistoryStaysWhole(log[..n], u);
      AfterStepIsWhole(|log|, log[n], FeedsSoFar(log[..n], u.w), u.w);
    }
  }

  // The n-th turn starts from whole chains, loses nothing of the conversation, and asks soundly.
  ghost predicate CarriesWhole(step: Step, n: nat, u: Setup) {
    && Whole(step.history) && u.messages <= step.history
    && (forall k | 0 <= k < |step.attempts| :: AsksSoundly(step.attempts[k], n, step.history, u))
    && (step.second.Some? ==> AsksSoundly(step.second.value, n, step.history, u))
  }

  lemma StepIsWhole(step: Step, n: nat, history: seq<Message>, u: Setup)
    requires IsStep(step, n, history, u) && Whole(history) && u.messages <= history
    ensures CarriesWhole(step, n, u)
  {
    forall k | 0 <= k < |step.attempts| ensures AsksSoundly(step.attempts[k], n, history, u) {
      EachIsAttempt(step.attempts, FirstKind(u.w), n, history, u, k);
      AttemptIsSound(step.attempts[k], n, history, u);
    }
    if step.second.Some? { AttemptIsSound(step.second.value, n, history, u); }
  }

  lemma {:induction false} StepStaysWhole(log: seq<Step>, u: Setup, i: nat)
    requires IsLog(log, u) && Whole(u.messages) && i < |log|
    ensures CarriesWhole(log[i], i + 1, u)
    decreases |log|
  {
    var n := |log| - 1;
    if i == n {
      HistoryStaysWhole(log[..n], u);
      StepIsWhole(log[n], n + 1, HistoryAfter(log[..n], u), u);
    } else {
      StepStaysWhole(log[..n], u, i);
    }
  }

  /** Every request of every run, retries and second passes included, is a projection in which nothing
      had to be repaired and carries whole chains, if the conversation it was started with does; and
      nothing of that conversation is ever lost from the history. */
  lemma RunStaysWhole(log: seq<Step>, u: Setup)
    requires IsLog(log, u) && Whole(u.messages)
    ensures forall i | 0 <= i < |log| :: CarriesWhole(log[i], i + 1, u)
  {
    forall i | 0 <= i < |log| ensures CarriesWhole(log[i], i + 1, u) {
      StepStaysWhole(log, u, i);
    }
  }

  // --- One refresh a run ---

  // All calls of a run as they are executed.
  function Executed(log: seq<Step>, w: World): seq<Call> {
    if log == [] then []
    else
      var n := |log| - 1;
      Executed(log[..n], w) + Rewritten(n + 1, CallsOf(log[n]), FeedsSoFar(log[..n], w), w)
  }

  // A feed call with another one before it does not refresh.
  ghost predicate OneRefresh(calls: seq<Call>, w: World) {
    forall j | 0 <= j < |calls| && calls[j].name == FEED_TOOL && FeedCalls(calls[..j]) > 0 :: !w.refreshes(calls[j].arguments)
  }

  // Clearing the field clears it.
  ghost predicate ClearsRefresh(w: World) {
    forall arguments :: !w.refreshes(w.withoutRefresh(arguments))
  }

  lemma {:induction false} FeedCallsConcat(a: seq<Call>, b: seq<Call>)
    ensures FeedCalls(a + b) == FeedCalls(a) + FeedCalls(b)
  {
    if b == [] {
      assert a + b == a;
    } else {
      var n := |b| - 1;
      FeedCallsConcat(a, b[..n]);
      assert (a + b)[..|a + b| - 1] == a + b[..n];
    }
  }

  lemma {:induction false} ExecutedFeedCalls(log: seq<Step>, w: World)
    requires w.headlines
    ensures FeedCalls(Executed(log, w)) == FeedsSoFar(log, w)
  {
    if log != [] {
      var n := |log| - 1;
      ExecutedFeedCalls(log[..n], w);
      RewrittenFeedCalls(n + 1, CallsOf(log[n]), FeedsSoFar(log[..n], w), w);
      FeedCallsConcat(Executed(log[..n], w), Rewritten(n + 1, CallsOf(log[n]), FeedsSoFar(log[..n], w), w));
    }
  }

  lemma OneRefreshMore(before: seq<Call>, calls: seq<Call>, w: World)
    requires ClearsRefresh(w) && OneRefresh(before, w)
    ensures OneRefresh(before + WithDowngrades(calls, FeedCalls(before), w), w)
  {
    var more := WithDowngrades(calls, FeedCalls(before), w);
    var all := before + more;
    forall j | 0 <= j < |all| && all[j].name == FEED_TOOL && FeedCalls(all[..j]) > 0 ensures !w.refreshes(all[j].arguments) {
      if j < |before| {
        assert all[..j] == before[..j];
      } else {
        var k := j - |before|;
        assert all[..j] == before + more[..k];
        FeedCallsConcat(before, more[..k]);
        DowngradesKeepNames(calls, FeedCalls(before), w, k);
        DowngradedPrefix(calls, FeedCalls(before), w, k);
      }
    }
  }

  lemma DowngradedPrefix(calls: seq<Call>, prior: nat, w: World, k: nat)
    requires k <= |calls|
    ensures FeedCalls(WithDowngrades(calls, prior, w)[..k]) == FeedCalls(calls[..k])
  {
    forall i | 0 <= i < k ensures WithDowngrades(calls, prior, w)[..k][i].name == calls[..k][i].name {
      DowngradesKeepNames(calls, prior, w, i);
    }
    SameFeedCalls(WithDowngrades(calls, prior, w)[..k], calls[..k]);
  }

  lemma {:induction false} RunHasOneRefresh(log: seq<Step>, w: World)
    requires w.headlines && ClearsRefresh(w)
    ensures OneRefresh(Executed(log, w), w)
  {
    if log != [] {
      var n := |log| - 1;
      RunHasOneRefresh(log[..n], w);
      ExecutedFeedCalls(log[..n], w);
      OneRefreshMore(Executed(log[..n], w), WithContext(n + 1, CallsOf(log[n]), w), w);
    }
  }

  lemma {:induction false} CountsFeedCall(calls: seq<Call>, i: nat)
    requires i < |calls| && calls[i].name == FEED_TOOL
    ensures FeedCalls(calls) > 0
  {
    if i < |calls| - 1 {
      CountsFeedCall(calls[..|calls| - 1], i);
    }
  }

  /** In a run for headlines at most one feed call keeps its refresh: of two, the later one never does. */
  lemma RefreshOnce(log: seq<Step>, w: World, i: nat, j: nat)
    requires w.headlines && ClearsRefresh(w) && i < j < |Executed(log, w)|
    requires Executed(log, w)[i].name == FEED_TOOL && Executed(log, w)[j].name == FEED_TOOL
    ensures !w.refreshes(Executed(log, w)[j].arguments)
  {
    RunHasOneRefresh(log, w);
    CountsFeedCall(Executed(log, w)[..j], i);
  }
}

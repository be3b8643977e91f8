/** Fitting a history into a request budget: old tool results are shortened, and when that is not
    enough everything before a cut is replaced by a recap. */
module HistoryProjection {
  import opened Basics
  import opened Messages
  import opened Transcript
  import RecapSelection
  import BoundaryText
  import Text

  datatype EvidenceClass =
    | Ordinary | SearchIndex | SourceDocument | ProviderContext | DocumentSummary | StructuredDataset

  function EvidenceClassFor(tool: string): EvidenceClass {
    if tool == "web_search" || tool == "image_search" then SearchIndex
    else if tool == "fetch_page" then SourceDocument
    else if tool == "web_context" then ProviderContext
    else if tool == "summarize_document" then DocumentSummary
    else if tool in ["search_library", "search_my_feeds", "search_my_feeds_timeline", "list_recent_feed_items"]
    then StructuredDataset
    else Ordinary
  }

  function PreferredChars(c: EvidenceClass): nat {
    match c
    case Ordinary => 8000
    case SearchIndex => 8000
    case SourceDocument => 20000
    case ProviderContext => 32000
    case DocumentSummary => 16000
    case StructuredDataset => 12000
  }

  function ClassName(c: EvidenceClass): string {
    match c
    case Ordinary => "ordinary"
    case SearchIndex => "search_index"
    case SourceDocument => "source_document"
    case ProviderContext => "provider_context"
    case DocumentSummary => "document_summary"
    case StructuredDataset => "structured_dataset"
  }

  function ToolResultCharBudget(tool: string, historyBudgetTokens: int, ordinaryMaxChars: int): int {
    var c := EvidenceClassFor(tool);
    if c.Ordinary? then Max(400, ordinaryMaxChars)
    else Max(400, Min(PreferredChars(c), Max(ordinaryMaxChars, Max(0, historyBudgetTokens))))
  }

  const MIDDLE_OMITTED := "\n\n[... middle evidence omitted by context budget ...]\n\n"

  // Python's text[-n:]; for n == 0 that is the whole text.
  function Last(text: string, n: nat): string {
    if n == 0 || |text| <= n then text else text[|text| - n..]
  }

  // Source framing and trailing citations survive, the middle goes.
  function CompactEvidenceText(content: string, maxChars: int): string {
    var text := Text.Strip(content);
    if |text| <= maxChars then text
    else
      var available := Max(0, maxChars - |MIDDLE_OMITTED|);
      CutAround(text, MIDDLE_OMITTED, HeadChars(available), available - HeadChars(available))
  }

  // Seven tenths, rounded down.
  function HeadChars(available: nat): (n: nat)
    ensures n <= available && 10 * n <= 7 * available < 10 * n + 10
  {
    available * 7 / 10
  }

  function CutAround(text: string, marker: string, head: nat, tail: nat): string {
    Text.RStrip(text[..Min(|text|, head)]) + marker + Text.LStrip(Last(text, tail))
  }

  /** The cut text meets its limit exactly when the limit leaves room beside the 55-character
      marker; below that, the empty tail slice brings the whole text back. */
  lemma EvidenceTextFits(content: string, maxChars: int)
    ensures |CompactEvidenceText(content, maxChars)| <= maxChars
            <==> |Text.Strip(content)| <= maxChars || maxChars > |MIDDLE_OMITTED|
    ensures |MIDDLE_OMITTED| == 55
  {
    var before, after := Text.StripSplits(content);
    Text.StripOfStripped(Text.Strip(content));
  }

  /** A text one character over a limit of 55 comes back whole, behind the marker. */
  lemma EvidenceTextTooLong(content: string)
    requires Text.Stripped(content) && |content| == 56
    ensures CompactEvidenceText(content, 55) == MIDDLE_OMITTED + content && |CompactEvidenceText(content, 55)| == 111
  {
    Text.StripOfStripped(content);
    assert content[..0] == "" && "" + MIDDLE_OMITTED == MIDDLE_OMITTED;
  }

  // What the outside world supplies: the two renderings of a JSON catalog, if the text is one, and
  // a content fingerprint.
  datatype CatalogView = NotACatalog | Catalog(full: string, identities: string)

  datatype Oracles = Oracles(catalog: string -> CatalogView, fingerprint: string -> string)

  function CompactCatalog(view: CatalogView, maxChars: int): Option<string> {
    if view.NotACatalog? then None
    else if |view.full| <= maxChars then Some(view.full)
    else if |view.identities| <= maxChars then Some(view.identities)
    else None
  }

  function Summary(content: string, c: EvidenceClass, maxChars: int, o: Oracles): string {
    match CompactCatalog(o.catalog(content), maxChars)
    case Some(catalog) => catalog
    case None => if c.Ordinary? then CompactText(content, maxChars) else CompactEvidenceText(content, maxChars)
  }

  /** Every summary of a compacted result fits a limit above the marker's length. */
  lemma SummaryFits(content: string, c: EvidenceClass, maxChars: int, o: Oracles)
    requires maxChars > 55
    ensures |Summary(content, c, maxChars, o)| <= maxChars
  {
    EvidenceTextFits(content, maxChars);
    CompactTextFits(content, maxChars);
  }

  type ToolNames = map<string, string>

  // The tool each call id belongs to; a later message's call wins.
  function ToolNameLookup(h: seq<Message>): ToolNames {
    if h == [] then map[] else AddNames(ToolNameLookup(h[..|h| - 1]), h[|h| - 1].toolCalls)
  }

  function AddNames(names: ToolNames, calls: seq<Call>): ToolNames {
    if calls == [] then names
    else
      var c := calls[|calls| - 1];
      var before := AddNames(names, calls[..|calls| - 1]);
      if c.id != "" && c.name != "" then before[c.id := c.name] else before
  }

  function ToolName(names: ToolNames, callId: string): string {
    if callId in names then names[callId] else "unknown_tool"
  }

  function CompactToolMessage(m: Message, names: ToolNames, maxChars: int, o: Oracles): Message {
    m.(content := Text.Join("\n", ToolSummaryLines(m, ToolName(names, m.callId), maxChars, o)))
  }

  function ToolSummaryLines(m: Message, tool: string, maxChars: int, o: Oracles): seq<string> {
    var c := EvidenceClassFor(tool);
    ["Compacted tool result.",
     "Tool: " + tool,
     "Evidence class: " + ClassName(c),
     "Tool call id: " + (if m.callId == "" then "unknown" else m.callId),
     "Fingerprint: " + o.fingerprint(m.content),
     "Original chars: " + Text.Digits(|m.content|),
     "Summary: " + Summary(m.content, c, maxChars, o)]
  }

  datatype Settings = Settings(
    historySoftTokenLimit: int,
    toolResultMaxChars: int,
    toolRecentKeep: int,
    recentMessagesKeep: int)

  datatype Limits = Limits(aggressive: bool, historyTokens: int, toolResultChars: int)

  function EffectiveLimits(aggressive: bool, historyTokenLimit: Option<int>, toolResultMaxChars: Option<int>, s: Settings): Limits {
    Limits(aggressive,
           if historyTokenLimit.Some? then Max(0, historyTokenLimit.value) else s.historySoftTokenLimit,
           if toolResultMaxChars.Some? then Max(400, toolResultMaxChars.value) else s.toolResultMaxChars)
  }

  function ToolPositions(h: seq<Message>): (ps: seq<nat>)
    ensures forall k | 0 <= k < |ps| :: ps[k] < |h| && h[ps[k]].role == Tool
    ensures forall i | 0 <= i < |h| && h[i].role == Tool :: i in ps
    ensures forall j, k | 0 <= j < k < |ps| :: ps[j] < ps[k]
  {
    if h == [] then [] else ToolPositions(h[..|h| - 1]) + if h[|h| - 1].role == Tool then [|h| - 1] else []
  }

  // The limit a result is compacted to, or none when it may stay as it is.
  function CompactionLimit(m: Message, recent: bool, names: ToolNames, l: Limits): Option<int> {
    var resultLimit :=
      if l.aggressive then l.toolResultChars
      else ToolResultCharBudget(ToolName(names, m.callId), l.historyTokens, l.toolResultChars);
    if l.aggressive || |m.content| > resultLimit then Some(resultLimit)
    else if !recent && |m.content| > Max(400, resultLimit / 2) then Some(Max(400, resultLimit / 2))
    else None
  }

  // A tool message after compaction: shorter, or untouched.
  function Compacted(m: Message, recent: bool, names: ToolNames, l: Limits, o: Oracles): Message {
    if m.role != Tool || m.content == "" then m
    else
      match CompactionLimit(m, recent, names, l)
      case None => m
      case Some(limit) =>
        var shorter := CompactToolMessage(m, names, limit, o);
        if |shorter.content| >= |m.content| then m else shorter
  }

  // The positions of the most recent tool results.
  function RecentTools(h: seq<Message>, keep: int): set<nat> {
    var ps := ToolPositions(h);
    if keep <= 0 then {} else RecapSelection.SetOf(RecapSelection.LastOf(ps, keep))
  }

  ghost predicate IsCompaction(h: seq<Message>, c: seq<Message>, keep: int, l: Limits, o: Oracles) {
    && |c| == |h|
    && forall i | 0 <= i < |h| :: c[i] == Compacted(h[i], i in RecentTools(h, keep), ToolNameLookup(h), l, o)
  }

  // The positions at which compaction changed something.
  function ChangedSlots(h: seq<Message>, c: seq<Message>): set<nat>
    requires |c| == |h|
  {
    set i | 0 <= i < |h| && c[i] != h[i]
  }

  lemma OneMoreSlot(h: seq<Message>, c: seq<Message>, index: nat, slot: Message)
    requires |c| == |h| && index < |h| && c[index] == h[index]
    ensures |ChangedSlots(h, c[index := slot])| == |ChangedSlots(h, c)| + if slot != h[index] then 1 else 0
  {
    var changed := ChangedSlots(h, c);
    assert ChangedSlots(h, c[index := slot]) == if slot != h[index] then changed + {index} else changed;
  }

  // One slot: compacted when it is over its limit and compaction makes it shorter.
  method CompactSlot(message: Message, recent: bool, names: ToolNames, l: Limits, o: Oracles) returns (slot: Message)
    requires message.role == Tool
    ensures slot == Compacted(message, recent, names, l, o)
  {
    slot := message;
    if message.content == "" {
      return;
    }
    var limit := CompactionLimit(message, recent, names, l);
    if limit.None? {
      return;
    }
    var compacted := CompactToolMessage(message, names, limit.value, o);
    if |compacted.content| >= |message.content| {
      return;
    }
    slot := compacted;
  }

  // The slots at some positions are compacted, the others are as they were.
  ghost predicate CompactedAt(h: seq<Message>, c: seq<Message>, done: seq<nat>, recent: set<nat>, names: ToolNames, l: Limits, o: Oracles) {
    && |c| == |h|
    && forall i | 0 <= i < |h| :: c[i] == if i in done then Compacted(h[i], i in recent, names, l, o) else h[i]
  }

  lemma CompactedAtMore(
    h: seq<Message>, c: seq<Message>, done: seq<nat>, index: nat, recent: set<nat>, names: ToolNames, l: Limits, o: Oracles)
    requires CompactedAt(h, c, done, recent, names, l, o) && index < |h| && index !in done
    ensures c[index] == h[index]
    ensures CompactedAt(h, c[index := Compacted(h[index], index in recent, names, l, o)], done + [index], recent, names, l, o)
  {
  }

  lemma CompactedAll(h: seq<Message>, c: seq<Message>, keep: int, l: Limits, o: Oracles)
    requires CompactedAt(h, c, ToolPositions(h), RecentTools(h, keep), ToolNameLookup(h), l, o)
    ensures IsCompaction(h, c, keep, l, o)
  {
  }

  lemma NextPosition(ps: seq<nat>, k: nat)
    requires k < |ps| && forall i, j | 0 <= i < j < |ps| :: ps[i] < ps[j]
    ensures ps[k] !in ps[..k] && ps[..k + 1] == ps[..k] + [ps[k]]
  {
  }

  method CompactToolResults(h: seq<Message>, keep: int, l: Limits, o: Oracles) returns (projected: seq<Message>, count: nat)
    ensures IsCompaction(h, projected, keep, l, o)
    ensures count == |ChangedSlots(h, projected)|
  {
    projected, count := h, 0;
    assert ChangedSlots(h, h) == {};
    var names := ToolNameLookup(h);
    var toolIndices := ToolPositions(h);
    var recent := RecentTools(h, keep);
    var k := 0;
    while k < |toolIndices|
      invariant k <= |toolIndices|
      invariant CompactedAt(h, projected, toolIndices[..k], recent, names, l, o)
      invariant count == |ChangedSlots(h, projected)|
    {
      var index := toolIndices[k];
      NextPosition(toolIndices, k);
      CompactedAtMore(h, projected, toolIndices[..k], index, recent, names, l, o);
      var slot := CompactSlot(projected[index], index in recent, names, l, o);
      OneMoreSlot(h, projected, index, slot);
      if slot != projected[index] {
        count := count + 1;
      }
      projected := projected[index := slot];
      k := k + 1;
    }
    assert toolIndices[..|toolIndices|] == toolIndices;
    CompactedAll(h, projected, keep, l, o);
  }

  /** The greatest position up to the given one that is no tool result, or the start; a position past
      the end stays. */
  method SnapCutToToolChain(h: seq<Message>, cutIndex: nat) returns (cut: nat)
    ensures cut <= cutIndex
    ensures 0 < cut < |h| ==> h[cut].role != Tool
    ensures forall j | cut < j <= cutIndex && j < |h| :: h[j].role == Tool
    ensures cutIndex >= |h| ==> cut == cutIndex
  {
    cut := cutIndex;
    while 0 < cut < |h| && h[cut].role == Tool
      invariant cut <= cutIndex
      invariant forall j | cut < j <= cutIndex && j < |h| :: h[j].role == Tool
      invariant cutIndex >= |h| ==> cut == cutIndex
      decreases cut
    {
      cut := cut - 1;
    }
  }

  predicate IsBoundary(m: Message) {
    m.role == System && BoundaryText.IsBoundaryText(m.content)
  }

  function Boundaries(h: seq<Message>): seq<Message> {
    if h == [] then [] else (if IsBoundary(h[0]) then [h[0]] else []) + Boundaries(h[1..])
  }

  function Collapsible(h: seq<Message>): seq<Message> {
    if h == [] then [] else (if IsBoundary(h[0]) then [] else [h[0]]) + Collapsible(h[1..])
  }

  // A role outside the four known ones is represented by the label it is shown under.
  function RoleLabel(r: Role): string {
    match r
    case User => "User"
    case Assistant => "Assistant"
    case System => "System"
    case Tool => "Tool"
    case Other(name) => if name == "" then "Unknown" else name
  }

  function CallNames(calls: seq<Call>): seq<string> {
    if calls == [] then []
    else [if calls[0].name == "" then "unknown_tool" else calls[0].name] + CallNames(calls[1..])
  }

  function SummaryLine(m: Message, names: ToolNames): (line: string)
    ensures line != ""
  {
    if m.role == Tool then "Tool " + ToolName(names, m.callId) + ": " + CompactText(m.content, 140)
    else if m.role == Assistant && m.toolCalls != []
    then "Assistant requested tools: " + Text.Join(", ", CallNames(m.toolCalls)[..Min(|CallNames(m.toolCalls)|, 5)])
    else
      var content := CompactText(m.content, 160);
      if content == "" then RoleLabel(m.role) + ":" else RoleLabel(m.role) + ": " + content
  }

  function SummaryLines(ms: seq<Message>, names: ToolNames): (lines: seq<string>)
    ensures |lines| == |ms|
  {
    if ms == [] then [] else SummaryLines(ms[..|ms| - 1], names) + [SummaryLine(ms[|ms| - 1], names)]
  }

  lemma SummaryLinesMore(ms: seq<Message>, i: nat, names: ToolNames)
    requires i < |ms|
    ensures SummaryLines(ms[..i + 1], names) == SummaryLines(ms[..i], names) + [SummaryLine(ms[i], names)]
  {
    assert ms[..i + 1][..i] == ms[..i];
  }

  function RecapMessage(lines: seq<string>): Message {
    Message(System,
            BoundaryText.Render(BoundaryText.Payload(BoundaryText.RuntimeMode, lines, [], BoundaryText.Continuity("", "", "", []), [])),
            [], "")
  }

  // The messages a recap names: the first three and the seven preferred ones of the rest.
  ghost predicate IsRecapSelection(prefix: seq<Message>, kept: set<nat>, selected: seq<Message>) {
    if |prefix| <= 10 then selected == prefix
    else
      && RecapSelection.Within(kept, |prefix| - 3) && |kept| == 7 && RecapSelection.Preferred(prefix[3..], kept)
      && selected == prefix[..3] + RecapSelection.Pick(prefix[3..], kept)
  }

  // A recap with one line for each of the selected messages.
  ghost predicate IsRecapOf(prefix: seq<Message>, m: Message, names: ToolNames) {
    exists kept, selected :: IsRecapSelection(prefix, kept, selected) && m == RecapMessage(SummaryLines(selected, names))
  }

  lemma RecapIsBoundary(lines: seq<string>)
    ensures IsBoundary(RecapMessage(lines)) && RecapMessage(lines).toolCalls == []
  {
    BoundaryText.RenderedIsRecognised(
      BoundaryText.Payload(BoundaryText.RuntimeMode, lines, [], BoundaryText.Continuity("", "", "", []), []));
  }

  lemma SelectionIsShort(prefix: seq<Message>, kept: set<nat>, selected: seq<Message>)
    requires IsRecapSelection(prefix, kept, selected)
    ensures |selected| <= 10
  {
    if |prefix| > 10 {
      RecapSelection.PickLength(prefix[3..], kept);
    }
  }

  // The line limit drops nothing from a short selection.
  method SummarizeAll(messages: seq<Message>, names: ToolNames) returns (summaries: seq<string>)
    requires |messages| <= 10
    ensures summaries == SummaryLines(messages, names)
  {
    summaries := [];
    var i := 0;
    while i < |messages| && |summaries| < 10
      invariant 0 <= i <= |messages| && summaries == SummaryLines(messages[..i], names)
    {
      SummaryLinesMore(messages, i, names);
      summaries := summaries + [SummaryLine(messages[i], names)];
      i := i + 1;
    }
    assert messages[..|messages|] == messages;
  }

  method RecapSummaries(prefix: seq<Message>, names: ToolNames)
    returns (summaries: seq<string>, selected: seq<Message>)
    ensures (exists kept :: IsRecapSelection(prefix, kept, selected)) && summaries == SummaryLines(selected, names)
  {
    ghost var kept;
    selected, kept := RecapSelection.SelectRecapMessages(prefix, 3, 7);
    assert IsRecapSelection(prefix, kept, selected);
    SelectionIsShort(prefix, kept, selected);
    summaries := SummarizeAll(selected, names);
  }

  method BuildCompactionBoundaryMessage(prefix: seq<Message>, names: ToolNames) returns (m: Message)
    ensures IsRecapOf(prefix, m, names) && IsBoundary(m) && m.toolCalls == []
  {
    var summaries, selected := RecapSummaries(prefix, names);
    RecapIsBoundary(summaries);
    m := RecapMessage(summaries);
  }

  // Boundaries before the cut, a recap of everything else there, and the rest.
  ghost predicate IsProjection(c: seq<Message>, cut: nat, recap: Option<Message>, projected: seq<Message>) {
    && cut <= |c|
    && (recap.Some? <==> Collapsible(c[..cut]) != [])
    && (recap.Some? ==> IsBoundary(recap.value) && recap.value.toolCalls == [])
    && projected == Boundaries(c[..cut]) + (if recap.Some? then [recap.value] else []) + c[cut..]
  }

  // Where the history is cut: not at all while it fits, else at the last position before the most
  // recent messages that does not separate results from their calls.
  ghost predicate IsCut(c: seq<Message>, cut: nat, l: Limits, recentKeep: int) {
    var keep := Max(1, recentKeep);
    var over := l.aggressive || HistoryTokens(c) > l.historyTokens;
    && (cut > 0 ==> over && cut + keep <= |c| && c[cut].role != Tool)
    && (over ==> forall j | cut < j <= |c| - keep :: c[j].role == Tool)
  }

  datatype Report = Report(
    tokensBefore: nat,
    tokensAfter: nat,
    toolResultsCompacted: nat,
    boundaryApplied: bool,
    collapsed: nat,
    preserved: nat)

  // The report counts what was done to a history that was compacted to `c` and cut.
  ghost predicate IsReport(r: Report, h: seq<Message>, c: seq<Message>, cut: nat, recap: Option<Message>, projected: seq<Message>) {
    && r.tokensBefore == HistoryTokens(h) && r.tokensAfter == HistoryTokens(projected)
    && |c| == |h| && r.toolResultsCompacted == |ChangedSlots(h, c)|
    && r.boundaryApplied == recap.Some? && r.collapsed + r.preserved == cut
    && |projected| == r.preserved + (if recap.Some? then 1 else 0) + |h| - cut
  }

  method CutHistory(c: seq<Message>, l: Limits, recentKeep: int, names: ToolNames)
    returns (projected: seq<Message>, cut: nat, recap: Option<Message>)
    ensures IsCut(c, cut, l, recentKeep) && IsProjection(c, cut, recap, projected)
    ensures recap.Some? ==> IsRecapOf(Collapsible(c[..cut]), recap.value, names)
  {
    projected, cut, recap := c, 0, None;
    assert c[..0] == [] && c[0..] == c;
    if c != [] && (l.aggressive || HistoryTokens(c) > l.historyTokens) {
      var keep := Max(1, recentKeep);
      cut := SnapCutToToolChain(c, Max(0, |c| - keep));
      if cut > 0 {
        projected, recap := CollapsePrefix(c, cut, names);
      }
    }
  }

  // Boundaries before the cut are pinned, and a recap stands for everything else there.
  method CollapsePrefix(c: seq<Message>, cut: nat, names: ToolNames) returns (projected: seq<Message>, recap: Option<Message>)
    requires cut <= |c|
    ensures IsProjection(c, cut, recap, projected)
    ensures recap.Some? ==> IsRecapOf(Collapsible(c[..cut]), recap.value, names)
  {
    var prefix, suffix := c[..cut], c[cut..];
    var pinned, collapsible := Boundaries(prefix), Collapsible(prefix);
    if collapsible != [] {
      var m := BuildCompactionBoundaryMessage(collapsible, names);
      return pinned + [m] + suffix, Some(m);
    }
    assert pinned + [] == pinned;
    projected, recap := pinned + suffix, None;
  }

  method ProjectHistory(
    h: seq<Message>, aggressive: bool, historyTokenLimit: Option<int>, toolResultMaxChars: Option<int>, s: Settings, o: Oracles)
    returns (projected: seq<Message>, report: Report, c: seq<Message>, cut: nat, recap: Option<Message>)
    ensures var l := EffectiveLimits(aggressive, historyTokenLimit, toolResultMaxChars, s);
            IsCompaction(h, c, s.toolRecentKeep, l, o) && IsCut(c, cut, l, s.recentMessagesKeep)
    ensures IsProjection(c, cut, recap, projected)
    ensures recap.Some? ==> IsRecapOf(Collapsible(c[..cut]), recap.value, ToolNameLookup(h))
    ensures IsReport(report, h, c, cut, recap, projected)
  {
    var l := EffectiveLimits(aggressive, historyTokenLimit, toolResultMaxChars, s);
    var count;
    c, count := CompactToolResults(h, s.toolRecentKeep, l, o);
    projected, cut, recap := CutHistory(c, l, s.recentMessagesKeep, ToolNameLookup(h));
    SplitByBoundary(c[..cut]);
    report := Report(HistoryTokens(h), HistoryTokens(projected), count, recap.Some?,
                     |Collapsible(c[..cut])|, |Boundaries(c[..cut])|);
  }

  lemma {:induction false} SplitByBoundary(h: seq<Message>)
    ensures |Boundaries(h)| + |Collapsible(h)| == |h|
  {
    if h != [] {
      SplitByBoundary(h[1..]);
    }
  }

  // Compaction changes nothing but the contents of tool messages, and never makes one longer.
  lemma CompactionKeepsShape(h: seq<Message>, c: seq<Message>, keep: int, l: Limits, o: Oracles)
    requires IsCompaction(h, c, keep, l, o)
    ensures SameShape(h, c)
    ensures forall i | 0 <= i < |h| :: |c[i].content| <= |h[i].content| && (h[i].role != Tool ==> c[i] == h[i])
  {
    var names := ToolNameLookup(h);
    forall i | 0 <= i < |h|
      ensures c[i].role == h[i].role && c[i].toolCalls == h[i].toolCalls && c[i].callId == h[i].callId
      ensures |c[i].content| <= |h[i].content| && (h[i].role != Tool ==> c[i] == h[i])
    {
      CompactedKeeps(h[i], i in RecentTools(h, keep), names, l, o);
    }
  }

  lemma CompactedKeeps(m: Message, recent: bool, names: ToolNames, l: Limits, o: Oracles)
    ensures var c := Compacted(m, recent, names, l, o);
            && c == m.(content := c.content) && |c.content| <= |m.content| && (m.role != Tool ==> c == m)
  {
  }

  /** A compacted result carries a summary within its limit, and that limit is at least 400 unless
      the request is aggressive and the configured limit is lower. */
  lemma CompactedFits(m: Message, recent: bool, names: ToolNames, l: Limits, o: Oracles)
    requires Compacted(m, recent, names, l, o) != m
    ensures exists limit ::
      && CompactionLimit(m, recent, names, l) == Some(limit) && limit >= Min(400, l.toolResultChars)
      && Compacted(m, recent, names, l, o) == CompactToolMessage(m, names, limit, o)
      && (limit > 55 ==> |Summary(m.content, EvidenceClassFor(ToolName(names, m.callId)), limit, o)| <= limit)
  {
    var limit := CompactionLimit(m, recent, names, l).value;
    if limit > 55 {
      SummaryFits(m.content, EvidenceClassFor(ToolName(names, m.callId)), limit, o);
    }
  }

  lemma {:induction false} BoundariesConcat(a: seq<Message>, b: seq<Message>)
    ensures Boundaries(a + b) == Boundaries(a) + Boundaries(b)
  {
    FirstOf(a, b);
    if a != [] {
      BoundariesConcat(a[1..], b);
      Associate(if IsBoundary(a[0]) then [a[0]] else [], Boundaries(a[1..]), Boundaries(b));
    }
  }

  lemma {:induction false} BoundariesTwice(h: seq<Message>)
    ensures Boundaries(Boundaries(h)) == Boundaries(h)
  {
    if h != [] {
      BoundariesTwice(h[1..]);
      if IsBoundary(h[0]) {
        assert Boundaries(h)[1..] == Boundaries(h[1..]);
      } else {
        assert Boundaries(h) == Boundaries(h[1..]);
      }
    }
  }

  lemma {:induction false} BoundariesUntouched(h: seq<Message>, c: seq<Message>)
    requires |c| == |h| && forall i | 0 <= i < |h| :: h[i].role == c[i].role && (h[i].role != Tool ==> c[i] == h[i])
    ensures Boundaries(c) == Boundaries(h)
  {
    if h != [] {
      BoundariesUntouched(h[1..], c[1..]);
    }
  }

  lemma CutKeepsBoundaries(c: seq<Message>, cut: nat, recap: Option<Message>, projected: seq<Message>)
    requires IsProjection(c, cut, recap, projected)
    ensures Boundaries(projected)
            == Boundaries(c[..cut]) + (if recap.Some? then [recap.value] else []) + Boundaries(c[cut..])
    ensures Boundaries(c) == Boundaries(c[..cut]) + Boundaries(c[cut..])
  {
    var added := if recap.Some? then [recap.value] else [];
    BoundariesConcat(c[..cut], c[cut..]);
    assert c == c[..cut] + c[cut..];
    BoundariesTwice(c[..cut]);
    BoundariesConcat(Boundaries(c[..cut]) + added, c[cut..]);
    BoundariesConcat(Boundaries(c[..cut]), added);
    assert Boundaries(added) == added by {
      if recap.Some? { assert Boundaries([recap.value]) == [recap.value] + Boundaries([]); }
    }
  }

  /** No boundary is ever lost: those of the output are those of the history, in order, with at most
      one new recap where the cut was made. */
  lemma ProjectionKeepsBoundaries(
    h: seq<Message>, c: seq<Message>, keep: int, l: Limits, o: Oracles, cut: nat, recap: Option<Message>, projected: seq<Message>)
    requires IsCompaction(h, c, keep, l, o) && IsProjection(c, cut, recap, projected)
    ensures Boundaries(projected)
            == Boundaries(h[..cut]) + (if recap.Some? then [recap.value] else []) + Boundaries(h[cut..])
    ensures Boundaries(h) == Boundaries(h[..cut]) + Boundaries(h[cut..])
  {
    CompactionKeepsShape(h, c, keep, l, o);
    BoundariesUntouched(h, c);
    BoundariesUntouched(h[..cut], c[..cut]);
    BoundariesUntouched(h[cut..], c[cut..]);
    CutKeepsBoundaries(c, cut, recap, projected);
  }

  /** Compacting a transcript of whole chains gives one. */
  lemma CompactionKeepsWhole(h: seq<Message>, c: seq<Message>, keep: int, l: Limits, o: Oracles)
    requires Whole(h) && IsCompaction(h, c, keep, l, o)
    ensures Whole(c)
  {
    CompactionKeepsShape(h, c, keep, l, o);
    WholeByShape(h, c);
  }

  /** So does cutting one and putting a recap in place of its beginning. */
  lemma CutKeepsWhole(c: seq<Message>, cut: nat, l: Limits, recent: int, recap: Option<Message>, projected: seq<Message>)
    requires Whole(c) && IsCut(c, cut, l, recent) && IsProjection(c, cut, recap, projected)
    ensures Whole(projected)
  {
    if cut == 0 { WholeStart(c); }
    WholeSplit(c, cut);
    WholeBoundaries(c[..cut]);
    var added := if recap.Some? then [recap.value] else [];
    assert Whole(added) by {
      if recap.Some? { WholePlain(recap.value); }
    }
    WholeConcat(Boundaries(c[..cut]), added);
    WholeConcat(Boundaries(c[..cut]) + added, c[cut..]);
  }

  lemma ProjectionKeepsWhole(
    h: seq<Message>, c: seq<Message>, keep: int, l: Limits, o: Oracles, cut: nat, recent: int,
    recap: Option<Message>, projected: seq<Message>)
    requires Whole(h) && IsCompaction(h, c, keep, l, o)
    requires IsCut(c, cut, l, recent) && IsProjection(c, cut, recap, projected)
    ensures Whole(projected)
  {
    CompactionKeepsWhole(h, c, keep, l, o);
    CutKeepsWhole(c, cut, l, recent, recap, projected);
  }

  lemma WholeStart(c: seq<Message>)
    requires Whole(c)
    ensures c != [] ==> c[0].role != Tool
  {
  }

  lemma WholePlain(m: Message)
    requires m.role != Tool && m.toolCalls == []
    ensures Whole([m])
  {
    assert [m][1..Span(m)] == [] && [m][Span(m)..] == [];
  }

  // A boundary is a message of its own, so picking the boundaries out of whole chains is safe.
  lemma {:induction false} WholeBoundaries(h: seq<Message>)
    requires Whole(h)
    ensures Whole(Boundaries(h))
    decreases |h|
  {
    if h != [] {
      var span := Span(h[0]);
      WholeBoundaries(h[span..]);
      BoundariesConcat(h[..span], h[span..]);
      assert h == h[..span] + h[span..];
      ChainBoundaries(h);
      WholeConcat(Boundaries(h[..span]), Boundaries(h[span..]));
    }
  }

  lemma ChainBoundaries(h: seq<Message>)
    requires LeadsChain(h)
    ensures Whole(Boundaries(h[..Span(h[0])]))
  {
    var chain := h[..Span(h[0])];
    if Span(h[0]) == 1 {
      assert chain == [h[0]];
      assert Boundaries(chain) == (if IsBoundary(h[0]) then [h[0]] else []) + Boundaries([]);
      WholePlain(h[0]);
    } else {
      forall k | 0 <= k < |chain| ensures chain[k].role != System {
        if k > 0 { ResultsFollow(h, k); }
      }
      NoBoundaries(chain);
    }
  }

  lemma {:induction false} NoBoundaries(h: seq<Message>)
    requires forall k | 0 <= k < |h| :: h[k].role != System
    ensures Boundaries(h) == []
  {
    if h != [] {
      NoBoundaries(h[1..]);
    }
  }
}

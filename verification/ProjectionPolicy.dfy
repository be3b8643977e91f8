/** What a projection does to each tool result, said by its place in the history, its size and its
    tool; and what the texts put in its place still tell. */
module ProjectionPolicy {
  import opened Basics
  import opened Messages
  import opened HistoryProjection
  import BoundaryText
  import RecapSelection
  import Text

  /** The limits a request works with: those it was given, none below its floor, else those configured. */
  lemma LimitsMean(aggressive: bool, tokens: Option<int>, chars: Option<int>, s: Settings)
    ensures var l := EffectiveLimits(aggressive, tokens, chars, s);
            && (l.aggressive <==> aggressive)
            && (tokens == None ==> l.historyTokens == s.historySoftTokenLimit)
            && (tokens.Some? ==> l.historyTokens >= 0 && (l.historyTokens == tokens.value || l.historyTokens == 0 > tokens.value))
            && (chars == None ==> l.toolResultChars == s.toolResultMaxChars)
            && (chars.Some? ==> l.toolResultChars >= 400 && (l.toolResultChars == chars.value || l.toolResultChars == 400 > chars.value))
  {
  }

  // --- Which results are shortened ---

  // How many tool results follow a position.
  function LaterTools(h: seq<Message>, i: nat): nat {
    |set j: nat | i < j < |h| && h[j].role == Tool|
  }

  lemma {:induction false} SetOfTail(ps: seq<nat>, p: nat, later: set<nat>)
    requires p < |ps| && forall j, k | 0 <= j < k < |ps| :: ps[j] < ps[k]
    requires forall j :: j in later <==> j in ps && ps[p] < j
    ensures |later| == |ps| - 1 - p
  {
    var tail := ps[p + 1..];
    forall j | j in later ensures j in tail {
      assert j in ps;
      var k :| 0 <= k < |ps| && ps[k] == j;
      assert tail[k - p - 1] == j;
    }
    TailSize(tail, later);
  }

  lemma {:induction false} TailSize(tail: seq<nat>, later: set<nat>)
    requires forall j, k | 0 <= j < k < |tail| :: tail[j] < tail[k]
    requires forall j :: j in later <==> j in tail
    ensures |later| == |tail|
  {
    if tail == [] {
      assert later == {};
    } else {
      var n := |tail| - 1;
      assert tail[n] in later && tail == tail[..n] + [tail[n]];
      forall j ensures j in later - {tail[n]} <==> j in tail[..n] {
        assert j in tail <==> j in tail[..n] || j == tail[n];
      }
      TailSize(tail[..n], later - {tail[n]});
    }
  }

  lemma {:induction false} InLastOf(ps: seq<nat>, p: nat, keep: nat)
    requires p < |ps| && keep > 0 && forall j, k | 0 <= j < k < |ps| :: ps[j] < ps[k]
    ensures ps[p] in RecapSelection.SetOf(RecapSelection.LastOf(ps, keep)) <==> |ps| - 1 - p < keep
  {
    var last := RecapSelection.LastOf(ps, keep);
    var cut := |ps| - |last|;
    assert last == ps[cut..];
    if p >= cut { assert last[p - cut] == ps[p]; }
  }

  /** The recent tool results are those followed by fewer others than are to be kept. */
  lemma {:induction false} RecentMeans(h: seq<Message>, keep: int, i: nat)
    requires i < |h| && h[i].role == Tool
    ensures i in RecentTools(h, keep) <==> LaterTools(h, i) < keep
  {
    var ps := ToolPositions(h);
    var p :| 0 <= p < |ps| && ps[p] == i;
    SetOfTail(ps, p, set j: nat | i < j < |h| && h[j].role == Tool);
    if keep > 0 { InLastOf(ps, p, keep); }
  }

  // A result has been replaced by its summary for a limit, unless that is no shorter.
  ghost predicate IsShortened(m: Message, c: Message, limit: int, names: ToolNames, o: Oracles) {
    var shorter := CompactToolMessage(m, names, limit, o);
    c == if |shorter.content| < |m.content| then shorter else m
  }

  /** Which results are shortened, and to what limit. Under aggressive limits all of them; otherwise
      any that is over the budget of its tool, and an older one already when it is over half of that. */
  lemma {:induction false} ShortenedByAge(h: seq<Message>, c: seq<Message>, keep: int, l: Limits, o: Oracles, i: nat)
    requires IsCompaction(h, c, keep, l, o) && i < |h| && h[i].role == Tool && h[i].content != ""
    ensures var names, size := ToolNameLookup(h), |h[i].content|;
            var budget := ToolResultCharBudget(ToolName(names, h[i].callId), l.historyTokens, l.toolResultChars);
            var half := Max(400, budget / 2);
            && (l.aggressive ==> IsShortened(h[i], c[i], l.toolResultChars, names, o))
            && (!l.aggressive && size > budget ==> IsShortened(h[i], c[i], budget, names, o))
            && (!l.aggressive && size <= budget && LaterTools(h, i) < keep ==> c[i] == h[i])
            && (!l.aggressive && size <= half && LaterTools(h, i) >= keep ==> c[i] == h[i])
            && (!l.aggressive && half < size <= budget && LaterTools(h, i) >= keep ==> IsShortened(h[i], c[i], half, names, o))
            && half <= budget
  {
    RecentMeans(h, keep, i);
    BudgetMeans(ToolName(ToolNameLookup(h), h[i].callId), l.historyTokens, l.toolResultChars, 400);
    assert c[i] == Compacted(h[i], i in RecentTools(h, keep), ToolNameLookup(h), l, o);
  }

  /** The class of each tool's results; those of any other tool are ordinary. */
  lemma ClassesAre(tool: string)
    ensures EvidenceClassFor(tool) == SearchIndex <==> tool in {"web_search", "image_search"}
    ensures EvidenceClassFor(tool) == SourceDocument <==> tool == "fetch_page"
    ensures EvidenceClassFor(tool) == ProviderContext <==> tool == "web_context"
    ensures EvidenceClassFor(tool) == DocumentSummary <==> tool == "summarize_document"
    ensures EvidenceClassFor(tool) == StructuredDataset
            <==> tool in {"search_library", "search_my_feeds", "search_my_feeds_timeline", "list_recent_feed_items"}
  {
    assert "web_search"[0] == 'w' && "fetch_page"[0] == 'f';
  }

  /** A result may be as long as 400 characters, whatever its tool; an ordinary one as long as is
      configured; evidence as long as its class prefers, if it is no longer than is configured or than
      the history's tokens are many. */
  lemma BudgetMeans(tool: string, historyTokens: int, ordinaryChars: int, n: nat)
    ensures n <= ToolResultCharBudget(tool, historyTokens, ordinaryChars)
            <==> || n <= 400
                 || (EvidenceClassFor(tool) == Ordinary && n <= ordinaryChars)
                 || (EvidenceClassFor(tool) != Ordinary && n <= PreferredChars(EvidenceClassFor(tool))
                     && (n <= ordinaryChars || n <= historyTokens))
  {
  }

  // --- Which tool a result belongs to ---

  // The k-th call of the i-th message names a tool for an id.
  ghost predicate NamedAt(h: seq<Message>, i: int, k: int, id: string) {
    0 <= i < |h| && Names(h[i].toolCalls, k, id)
  }

  ghost predicate Names(calls: seq<Call>, k: int, id: string) {
    0 <= k < |calls| && calls[k].id == id && calls[k].name != ""
  }

  lemma {:induction false} AddedNames(names: ToolNames, calls: seq<Call>, id: string)
    requires id != ""
    ensures var added := AddNames(names, calls);
            && ((forall k :: !Names(calls, k, id)) ==> (id in added <==> id in names) && (id in names ==> added[id] == names[id]))
            && (forall k | Names(calls, k, id) && (forall j | j > k :: !Names(calls, j, id)) ::
                  id in added && added[id] == calls[k].name)
  {
    if calls != [] {
      var n := |calls| - 1;
      AddedNames(names, calls[..n], id);
      forall k ensures Names(calls[..n], k, id) <==> k < n && Names(calls, k, id) {
      }
      if Names(calls, n, id) {
      }
    }
  }

  /** A result belongs to the tool that the latest call with its id names. */
  lemma {:induction false} NamedByLatest(h: seq<Message>, i: int, k: int, id: string)
    requires id != "" && NamedAt(h, i, k, id)
    requires forall j, m | NamedAt(h, j, m, id) :: j < i || (j == i && m <= k)
    ensures ToolName(ToolNameLookup(h), id) == h[i].toolCalls[k].name && id in ToolNameLookup(h)
  {
    var n := |h| - 1;
    AddedNames(ToolNameLookup(h[..n]), h[n].toolCalls, id);
    if i == n {
      forall j | j > k ensures !Names(h[n].toolCalls, j, id) {
        assert NamedAt(h, n, j, id) <==> Names(h[n].toolCalls, j, id);
      }
    } else {
      forall j ensures !Names(h[n].toolCalls, j, id) {
        assert NamedAt(h, n, j, id) <==> Names(h[n].toolCalls, j, id);
      }
      forall j, m | NamedAt(h[..n], j, m, id) ensures j < i || (j == i && m <= k) {
        assert NamedAt(h, j, m, id);
      }
      NamedByLatest(h[..n], i, k, id);
    }
  }

  lemma {:induction false} NotNamed(h: seq<Message>, id: string)
    requires forall i, k :: !NamedAt(h, i, k, id)
    ensures ToolName(ToolNameLookup(h), id) == "unknown_tool" || id == ""
    ensures id != "" ==> id !in ToolNameLookup(h)
  {
    if h != [] && id != "" {
      var n := |h| - 1;
      AddedNames(ToolNameLookup(h[..n]), h[n].toolCalls, id);
      forall j ensures !Names(h[n].toolCalls, j, id) {
        assert NamedAt(h, n, j, id) <==> Names(h[n].toolCalls, j, id);
      }
      forall j, m ensures !NamedAt(h[..n], j, m, id) {
        assert NamedAt(h[..n], j, m, id) ==> NamedAt(h, j, m, id);
      }
      NotNamed(h[..n], id);
    }
  }

  // --- What the shortened texts still tell ---

  /** Cut evidence is a beginning of the text, the marker and an end of it, seven tenths of the room
      before the marker and the rest behind it, but for whitespace at the cuts. */
  lemma EvidenceTextEnds(content: string, maxChars: int) returns (head: nat, tail: nat)
    requires maxChars > 55 && |Text.Strip(content)| > maxChars
    ensures head + tail == maxChars - 55 && 10 * head <= 7 * (maxChars - 55) < 10 * head + 10
    ensures IsCutAround(CompactEvidenceText(content, maxChars), Text.Strip(content), MIDDLE_OMITTED, head, tail)
  {
    head := HeadChars(maxChars - 55);
    tail := maxChars - 55 - head;
    EvidenceTextCut(content, maxChars);
    CutInTwo(Text.Strip(content), MIDDLE_OMITTED, head, tail);
  }

  // A beginning of the text, the marker, and an end of it.
  ghost predicate IsCutAround(r: string, text: string, marker: string, head: nat, tail: nat) {
    head + tail <= |text| && r == Text.RStrip(text[..head]) + marker + Text.LStrip(text[|text| - tail..])
  }

  lemma EvidenceTextCut(content: string, maxChars: int)
    requires maxChars > 55 && |Text.Strip(content)| > maxChars
    ensures var head := HeadChars(maxChars - 55);
            CompactEvidenceText(content, maxChars) == CutAround(Text.Strip(content), MIDDLE_OMITTED, head, maxChars - 55 - head)
  {
    EvidenceTextFits(content, maxChars);
  }

  lemma CutInTwo(text: string, marker: string, head: nat, tail: nat)
    requires head + tail <= |text| && tail > 0
    ensures IsCutAround(CutAround(text, marker, head, tail), text, marker, head, tail)
  {
    assert Last(text, tail) == text[|text| - tail..];
  }

  /** A catalog is shown in full if it fits, else by its identities if these do; only then is a text
      cut, an ordinary one to its first words. */
  lemma SummaryIs(content: string, c: EvidenceClass, maxChars: int, o: Oracles)
    ensures match o.catalog(content)
            case Catalog(full, identities) =>
              && (|full| <= maxChars ==> Summary(content, c, maxChars, o) == full)
              && (|identities| <= maxChars < |full| ==> Summary(content, c, maxChars, o) == identities)
            case NotACatalog => true
    ensures (match o.catalog(content) case Catalog(full, identities) => maxChars < |full| && maxChars < |identities| case NotACatalog => true)
            ==> Summary(content, c, maxChars, o)
                == if c == Ordinary then CompactText(content, maxChars) else CompactEvidenceText(content, maxChars)
  {
  }

  /** A shortened result names its tool, its class, its call, its fingerprint and its first length, and
      then gives the summary. */
  lemma {:induction false} ShortenedTells(m: Message, names: ToolNames, maxChars: int, o: Oracles)
    ensures var tool := ToolName(names, m.callId);
            var c := EvidenceClassFor(tool);
            var r := CompactToolMessage(m, names, maxChars, o);
            && r == m.(content := r.content)
            && Text.InOrder(["Compacted tool result.", "Tool: " + tool, "Evidence class: " + ClassName(c),
                             "Tool call id: " + (if m.callId == "" then "unknown" else m.callId),
                             "Fingerprint: " + o.fingerprint(m.content), "Original chars: " + Text.Digits(|m.content|),
                             "Summary: " + Summary(m.content, c, maxChars, o)], r.content)
  {
    Text.JoinInOrder("\n", ToolSummaryLines(m, ToolName(names, m.callId), maxChars, o));
  }

  /** A line of a recap names whose message it is and gives its beginning; for calls, the first five
      tools. */
  lemma {:induction false} LineTells(m: Message, names: ToolNames)
    ensures var line := SummaryLine(m, names);
            && (m.role == Tool ==> Text.InOrder(["Tool " + ToolName(names, m.callId), CompactText(m.content, 140)], line))
            && (m.role == Assistant && m.toolCalls != [] ==>
                  Text.InOrder(["Assistant requested tools: "] + CallNames(m.toolCalls)[..Min(|CallNames(m.toolCalls)|, 5)], line))
            && (m.role != Tool && (m.role == Assistant ==> m.toolCalls == []) ==>
                  Text.InOrder([RoleLabel(m.role), CompactText(m.content, 160)], line))
  {
    CallNamesAre(m.toolCalls);
    if m.role == Tool {
      TwoParts("Tool " + ToolName(names, m.callId), ": ", CompactText(m.content, 140));
    } else if m.role == Assistant && m.toolCalls != [] {
      var tools := CallNames(m.toolCalls)[..Min(|CallNames(m.toolCalls)|, 5)];
      Text.JoinInOrder(", ", tools);
      Text.InOrderOne("Assistant requested tools: ");
      Text.InOrderConcat(["Assistant requested tools: "], "Assistant requested tools: ", tools, Text.Join(", ", tools));
    } else {
      var content := CompactText(m.content, 160);
      TwoParts(RoleLabel(m.role), if content == "" then ":" else ": ", content);
    }
  }

  lemma {:induction false} TwoParts(a: string, separator: string, b: string)
    ensures Text.InOrder([a, b], a + separator + b)
    ensures b == "" ==> a + separator + b == a + separator
  {
    Text.InOrderOne(a);
    Text.InOrderOne(b);
    Text.InOrderConcat([a], a, [], separator);
    Text.InOrderConcat([a] + [], a + separator, [b], b);
    assert [a] + [] + [b] == [a, b];
  }

  lemma {:induction false} CallNamesAre(calls: seq<Call>)
    ensures |CallNames(calls)| == |calls|
    ensures forall k | 0 <= k < |calls| :: CallNames(calls)[k] == if calls[k].name == "" then "unknown_tool" else calls[k].name
  {
    if calls != [] { CallNamesAre(calls[1..]); }
  }

  /** A recap says what it is and then gives its lines. */
  lemma {:induction false} RecapTells(lines: seq<string>)
    ensures Text.InOrder([BoundaryText.RUNTIME_HEADER, BoundaryText.RUNTIME_INSTRUCTION]
                         + (if Text.NonBlank(lines) == [] then [BoundaryText.RUNTIME_EMPTY] else Text.NonBlank(lines)),
                         RecapMessage(lines).content)
    ensures RecapMessage(lines).role == System
  {
    BoundaryText.RenderedTells(RecapPayload(lines));
    ToldByRecap(lines);
  }

  function RecapPayload(lines: seq<string>): BoundaryText.Payload {
    BoundaryText.Payload(BoundaryText.RuntimeMode, lines, [], BoundaryText.Continuity("", "", "", []), [])
  }

  lemma {:induction false} ToldByRecap(lines: seq<string>)
    ensures BoundaryText.Told(RecapPayload(lines))
            == [BoundaryText.RUNTIME_HEADER, BoundaryText.RUNTIME_INSTRUCTION]
               + if Text.NonBlank(lines) == [] then [BoundaryText.RUNTIME_EMPTY] else Text.NonBlank(lines)
  {
    assert BoundaryText.Clean([]) == [];
    assert BoundaryText.ContinuityTold(BoundaryText.Continuity("", "", "", [])) == [];
  }

  /** Classes are told apart by their names, known roles by their labels, and no class prefers less than
      8000 characters. */
  lemma NamesTell(c: EvidenceClass, d: EvidenceClass, a: Role, b: Role)
    ensures ClassName(c) == ClassName(d) <==> c == d
    ensures a in {User, Assistant, System, Tool} && b in {User, Assistant, System, Tool} ==>
              (RoleLabel(a) == RoleLabel(b) <==> a == b)
    ensures a.Other? && a.name != "" ==> RoleLabel(a) == a.name
    ensures PreferredChars(c) >= 8000
  {
    assert RoleLabel(User)[0] == 'U' && RoleLabel(Assistant)[0] == 'A' && RoleLabel(System)[0] == 'S' && RoleLabel(Tool)[0] == 'T';
    assert ClassName(Ordinary)[0] == 'o' && ClassName(SearchIndex)[1] == 'e' && ClassName(SourceDocument)[1] == 'o';
    assert ClassName(ProviderContext)[0] == 'p' && ClassName(DocumentSummary)[0] == 'd' && ClassName(StructuredDataset)[1] == 't';
    assert ClassName(SearchIndex)[0] == ClassName(SourceDocument)[0] == ClassName(StructuredDataset)[0] == 's';
  }

  /** Boundaries and the other messages, each in order: a history can be read in two parts, and a
      single message is one or the other. */
  lemma {:induction false} BoundariesAndOthers(a: seq<Message>, b: seq<Message>, m: Message)
    ensures Boundaries(a + b) == Boundaries(a) + Boundaries(b) && Collapsible(a + b) == Collapsible(a) + Collapsible(b)
    ensures Boundaries([m]) == (if IsBoundary(m) then [m] else []) && Collapsible([m]) == if IsBoundary(m) then [] else [m]
  {
    BoundariesConcat(a, b);
    CollapsibleConcat(a, b);
    OneOrOther(m);
  }

  lemma {:induction false} CollapsibleConcat(a: seq<Message>, b: seq<Message>)
    ensures Collapsible(a + b) == Collapsible(a) + Collapsible(b)
  {
    FirstOf(a, b);
    if a != [] {
      CollapsibleConcat(a[1..], b);
      Associate(if IsBoundary(a[0]) then [] else [a[0]], Collapsible(a[1..]), Collapsible(b));
    }
  }

  lemma OneOrOther(m: Message)
    ensures Boundaries([m]) == (if IsBoundary(m) then [m] else []) + Boundaries([])
    ensures Collapsible([m]) == (if IsBoundary(m) then [] else [m]) + Collapsible([])
  {
  }

  // --- Tokens ---

  /** A token for every four characters, and one for any text that is not empty. */
  lemma EstimateMeans(text: string, n: nat)
    requires n >= 1
    ensures n <= EstimateTokens(text) <==> CHARS_PER_TOKEN * n <= |text| || (n == 1 && text != "")
  {
  }

  /** Tokens are counted message by message, and in a message by its content and its calls. */
  lemma {:induction false} TokensAddUp(a: seq<Message>, b: seq<Message>, m: Message, c: Call)
    ensures HistoryTokens(a + b) == HistoryTokens(a) + HistoryTokens(b)
    ensures m.toolCalls == [] ==> HistoryTokens([m]) == EstimateTokens(m.content)
    ensures HistoryTokens([m.(toolCalls := m.toolCalls + [c])])
            == HistoryTokens([m]) + EstimateTokens(c.name) + EstimateTokens(c.arguments)
  {
    FirstOf(a, b);
    CallsAddUp(m.toolCalls, c);
    if a != [] { TokensAddUp(a[1..], b, m, c); }
  }

  lemma {:induction false} CallsAddUp(calls: seq<Call>, c: Call)
    ensures CallTokens(calls + [c]) == CallTokens(calls) + EstimateTokens(c.name) + EstimateTokens(c.arguments)
  {
    FirstOf(calls, [c]);
    if calls == [] {
      assert [c][1..] == [];
    } else {
      CallsAddUp(calls[1..], c);
    }
  }

  /** Compaction never adds tokens. */
  lemma {:induction false} CompactionSavesTokens(h: seq<Message>, c: seq<Message>)
    requires |c| == |h| && forall i | 0 <= i < |h| :: c[i].toolCalls == h[i].toolCalls && |c[i].content| <= |h[i].content|
    ensures HistoryTokens(c) <= HistoryTokens(h)
  {
    if h != [] {
      CompactionSavesTokens(h[1..], c[1..]);
      assert EstimateTokens(c[0].content) <= EstimateTokens(h[0].content);
    }
  }

  /** A compacted history needs no more tokens than before. */
  lemma CompactedNeedsNoMore(h: seq<Message>, c: seq<Message>, keep: int, l: Limits, o: Oracles)
    requires IsCompaction(h, c, keep, l, o)
    ensures HistoryTokens(c) <= HistoryTokens(h)
  {
    CompactionKeepsShape(h, c, keep, l, o);
    CompactionSavesTokens(h, c);
  }
}

/** The text that stands in for a compacted stretch of history, and its parser. */
module BoundaryText {
  import opened Basics
  import opened Text
  import opened Messages
  import opened RecapSelection

  datatype Mode = ChatMode | RuntimeMode

  const RUNTIME_HEADER := "Earlier conversation was compacted " + "to stay within the context budget."
  const CHAT_HEADER := "Earlier chat history was compacted " + "to keep the live context focused."
  const RUNTIME_INSTRUCTION := "Preserve these compacted facts " + "unless later context contradicts them:"
  const CHAT_INSTRUCTION := "Use this as a compact recap " + "unless newer turns contradict it:"
  const RUNTIME_EMPTY := "Earlier tool and assistant " + "turns were compacted."
  const CHAT_EMPTY := "Earlier user and assistant " + "turns were compacted."

  function Header(mode: Mode): string {
    if mode.ChatMode? then CHAT_HEADER else RUNTIME_HEADER
  }

  function Instruction(mode: Mode): string {
    if mode.ChatMode? then CHAT_INSTRUCTION else RUNTIME_INSTRUCTION
  }

  function EmptyRecap(mode: Mode): string {
    if mode.ChatMode? then CHAT_EMPTY else RUNTIME_EMPTY
  }

  const CARRIED_TITLE := "Previously compacted (older context):"
  const RECENT_TITLE := "Recently compacted turns:"
  const CONTINUITY_TITLE := "Operational continuity:"
  const TOOL_STATE_TITLE := "Tool state:"

  datatype Continuity = Continuity(workspaceFile: string, document: string, objective: string, actions: seq<string>)

  datatype Payload = Payload(
    mode: Mode,
    recap: seq<string>,
    carried: seq<string>,
    continuity: Continuity,
    toolState: seq<string>)

  ghost predicate Items(items: seq<string>) {
    forall k | 0 <= k < |items| :: items[k] != "" && Stripped(items[k])
  }

  // The non-empty items, stripped.
  function Clean(items: seq<string>): (r: seq<string>)
    ensures Items(r)
  {
    NonBlankItems(items);
    NonBlank(items)
  }

  lemma {:induction false} NonBlankItems(items: seq<string>)
    ensures Items(NonBlank(items))
  {
    if items != [] {
      var before, after := StripSplits(items[0]);
      NonBlankItems(items[1..]);
    }
  }

  function Bullets(items: seq<string>): seq<string> {
    if items == [] then [] else ["- " + items[0]] + Bullets(items[1..])
  }

  function ContinuityLines(c: Continuity): seq<string> {
    (if Strip(c.workspaceFile) != "" then ["- Active workspace file: " + Strip(c.workspaceFile)] else [])
    + (if Strip(c.document) != "" then ["- Active document target: " + Strip(c.document)] else [])
    + (if Strip(c.objective) != "" then ["- Pending objective: " + Strip(c.objective)] else [])
    + ActionLines(c)
  }

  function ActionLines(c: Continuity): seq<string> {
    var actions := Clean(c.actions);
    if actions != [] then ["- Recent tool actions: " + Join(", ", actions[..Min(|actions|, 4)])] else []
  }

  // The recap a payload shows: its own, or the default line of its mode.
  function ShownRecap(p: Payload): seq<string> {
    if Clean(p.recap) == [] then [EmptyRecap(p.mode)] else Clean(p.recap)
  }

  function CarriedLines(p: Payload): seq<string> {
    if Clean(p.carried) == [] then [] else [CARRIED_TITLE] + Bullets(Clean(p.carried)) + [RECENT_TITLE]
  }

  function HeadLines(p: Payload): seq<string> {
    [Header(p.mode), Instruction(p.mode)] + CarriedLines(p) + Bullets(ShownRecap(p))
  }

  function TailLines(p: Payload): seq<string> {
    (if ContinuityLines(p.continuity) == [] then [] else [CONTINUITY_TITLE] + ContinuityLines(p.continuity))
    + (if Clean(p.toolState) == [] then [] else [TOOL_STATE_TITLE] + Bullets(Clean(p.toolState)))
  }

  function Render(p: Payload): string {
    Join("\n", HeadLines(p) + TailLines(p))
  }

  function StartsWith(s: string, prefix: string): bool { prefix <= s }

  // Some texts stand in some lines, in order.
  ghost predicate Hold(lines: seq<string>, texts: seq<string>) {
    InOrder(texts, Join("\n", lines))
  }

  lemma {:induction false} JoinTwo(a: seq<string>, b: seq<string>)
    requires a != [] && b != []
    ensures Join("\n", a + b) == Join("\n", a) + "\n" + Join("\n", b)
  {
    if |a| == 1 {
      assert (a + b)[1..] == b;
    } else {
      assert (a + b)[1..] == a[1..] + b;
      JoinTwo(a[1..], b);
      var rest := Join("\n", a[1..]);
      assert a[0] + "\n" + (rest + "\n" + Join("\n", b)) == a[0] + "\n" + rest + "\n" + Join("\n", b);
    }
  }

  lemma {:induction false} HoldTogether(a: seq<string>, texts: seq<string>, b: seq<string>, more: seq<string>)
    requires Hold(a, texts) && Hold(b, more)
    ensures Hold(a + b, texts + more)
  {
    InOrderConcat(texts, Join("\n", a), [], "\n");
    InOrderConcat(texts + [], Join("\n", a) + "\n", more, Join("\n", b));
    InOrderConcat(texts, Join("\n", a), more, Join("\n", b));
    assert texts + [] + more == texts + more;
    if a == [] {
      assert a + b == b && "" + Join("\n", b) == Join("\n", b);
    } else if b == [] {
      assert a + b == a && Join("\n", a) + "" == Join("\n", a);
    } else {
      JoinTwo(a, b);
    }
  }

  lemma {:induction false} HoldsOne(before: string, text: string)
    ensures Hold([before + text], [text]) && Hold([text], [text]) && Hold([text], [])
  {
    InOrderOne(text);
    InOrderConcat([], before, [text], text);
    assert [] + [text] == [text];
  }

  lemma {:induction false} BulletsHold(items: seq<string>)
    ensures Hold(Bullets(items), items)
  {
    if items != [] {
      HoldsOne("- ", items[0]);
      BulletsHold(items[1..]);
      HoldTogether(["- " + items[0]], [items[0]], Bullets(items[1..]), items[1..]);
      assert [items[0]] + items[1..] == items;
    }
  }

  function FirstFour(items: seq<string>): seq<string> {
    items[..Min(|items|, 4)]
  }

  // A field under its name, unless it is blank.
  function Field(name: string, text: string): seq<string> {
    if AllSpace(text) then [] else [name + Strip(text)]
  }

  function Under(title: string, items: seq<string>): seq<string> {
    if items == [] then [] else [title] + items
  }

  function ContinuityTold(c: Continuity): seq<string> {
    Field("- Active workspace file: ", c.workspaceFile) + Field("- Active document target: ", c.document)
    + Field("- Pending objective: ", c.objective) + Under("- Recent tool actions: ", FirstFour(Clean(c.actions)))
  }

  // What a boundary is to tell: how to read it, the items carried over, the recap, the state of the
  // work, and the state of tools.
  function Told(p: Payload): seq<string> {
    (if p.mode == ChatMode then [CHAT_HEADER, CHAT_INSTRUCTION] else [RUNTIME_HEADER, RUNTIME_INSTRUCTION])
    + (if Clean(p.carried) == [] then [] else [CARRIED_TITLE] + Clean(p.carried) + [RECENT_TITLE])
    + (if Clean(p.recap) != [] then Clean(p.recap) else if p.mode == ChatMode then [CHAT_EMPTY] else [RUNTIME_EMPTY])
    + Under(CONTINUITY_TITLE, ContinuityTold(p.continuity)) + Under(TOOL_STATE_TITLE, Clean(p.toolState))
  }

  lemma {:induction false} ContinuityHolds(c: Continuity)
    ensures Hold(ContinuityLines(c), ContinuityTold(c))
    ensures ContinuityLines(c) == [] <==> ContinuityTold(c) == []
  {
    var fields := Field("- Active workspace file: ", c.workspaceFile) + Field("- Active document target: ", c.document)
                  + Field("- Pending objective: ", c.objective);
    FieldsShown(c);
    JoinInOrder("\n", fields);
    ActionsHold(c);
    HoldTogether(fields, fields, ActionLines(c), Under("- Recent tool actions: ", FirstFour(Clean(c.actions))));
  }

  lemma {:induction false} FieldsShown(c: Continuity)
    ensures ContinuityLines(c)
            == Field("- Active workspace file: ", c.workspaceFile) + Field("- Active document target: ", c.document)
               + Field("- Pending objective: ", c.objective) + ActionLines(c)
  {
    BlankOrNot(c.workspaceFile);
    BlankOrNot(c.document);
    BlankOrNot(c.objective);
  }

  lemma {:induction false} ActionsHold(c: Continuity)
    ensures Hold(ActionLines(c), Under("- Recent tool actions: ", FirstFour(Clean(c.actions))))
  {
    var actions := FirstFour(Clean(c.actions));
    if Clean(c.actions) != [] {
      JoinInOrder(", ", actions);
      InOrderOne("- Recent tool actions: ");
      InOrderConcat(["- Recent tool actions: "], "- Recent tool actions: ", actions, Join(", ", actions));
    }
  }

  /** A rendered boundary tells all of its payload, in order. */
  lemma {:induction false} RenderedTells(p: Payload)
    ensures InOrder(Told(p), Render(p))
  {
    HeadHolds(p);
    TailHolds(p);
    var carried := if Clean(p.carried) == [] then [] else [CARRIED_TITLE] + Clean(p.carried) + [RECENT_TITLE];
    var head := [Header(p.mode), Instruction(p.mode)] + carried + ShownRecap(p);
    var continuity, tools := Under(CONTINUITY_TITLE, ContinuityTold(p.continuity)), Under(TOOL_STATE_TITLE, Clean(p.toolState));
    HoldTogether(HeadLines(p), head, TailLines(p), continuity + tools);
    Associate(head, continuity, tools);
    assert Told(p) == head + continuity + tools;
  }

  lemma {:induction false} HeadHolds(p: Payload)
    ensures var carried := if Clean(p.carried) == [] then [] else [CARRIED_TITLE] + Clean(p.carried) + [RECENT_TITLE];
            Hold(HeadLines(p), [Header(p.mode), Instruction(p.mode)] + carried + ShownRecap(p))
  {
    var first := [Header(p.mode), Instruction(p.mode)];
    var carried := if Clean(p.carried) == [] then [] else [CARRIED_TITLE] + Clean(p.carried) + [RECENT_TITLE];
    JoinInOrder("\n", first);
    CarriedHolds(p);
    BulletsHold(ShownRecap(p));
    HoldTogether(first, first, CarriedLines(p), carried);
    HoldTogether(first + CarriedLines(p), first + carried, Bullets(ShownRecap(p)), ShownRecap(p));
  }

  lemma {:induction false} CarriedHolds(p: Payload)
    ensures Hold(CarriedLines(p), if Clean(p.carried) == [] then [] else [CARRIED_TITLE] + Clean(p.carried) + [RECENT_TITLE])
  {
    var items := Clean(p.carried);
    if items != [] {
      HoldsOne("", CARRIED_TITLE);
      HoldsOne("", RECENT_TITLE);
      BulletsHold(items);
      HoldTogether([CARRIED_TITLE], [CARRIED_TITLE], Bullets(items), items);
      HoldTogether([CARRIED_TITLE] + Bullets(items), [CARRIED_TITLE] + items, [RECENT_TITLE], [RECENT_TITLE]);
    }
  }

  lemma {:induction false} TailHolds(p: Payload)
    ensures Hold(TailLines(p), Under(CONTINUITY_TITLE, ContinuityTold(p.continuity)) + Under(TOOL_STATE_TITLE, Clean(p.toolState)))
  {
    var lines, items := ContinuityLines(p.continuity), Clean(p.toolState);
    ContinuityHolds(p.continuity);
    BulletsHold(items);
    Titled(CONTINUITY_TITLE, lines, ContinuityTold(p.continuity));
    Titled(TOOL_STATE_TITLE, Bullets(items), items);
    HoldTogether(if lines == [] then [] else [CONTINUITY_TITLE] + lines, Under(CONTINUITY_TITLE, ContinuityTold(p.continuity)),
                 if items == [] then [] else [TOOL_STATE_TITLE] + Bullets(items), Under(TOOL_STATE_TITLE, items));
  }

  lemma {:induction false} Titled(title: string, lines: seq<string>, texts: seq<string>)
    requires Hold(lines, texts) && (lines == [] <==> texts == [])
    ensures Hold(if lines == [] then [] else [title] + lines, Under(title, texts))
  {
    HoldsOne("", title);
    HoldTogether([title], [title], lines, texts);
  }

  // The items a run of lines lists, up to the continuity section.
  function ListedItems(lines: seq<string>): seq<string> {
    if lines == [] then []
    else
      var line := Strip(lines[0]);
      if StartsWith(line, CONTINUITY_TITLE) then []
      else (if StartsWith(line, "- ") then [Strip(line[2..])] else []) + ListedItems(lines[1..])
  }

  function NonEmpty(items: seq<string>): seq<string> {
    if items == [] then [] else (if items[0] == "" then [] else [items[0]]) + NonEmpty(items[1..])
  }

  // The items found in the first i lines, and those still to be found.
  ghost predicate Listing(all: seq<string>, i: nat, lines: seq<string>) {
    i <= |all| && ListedItems(all) == lines + ListedItems(all[i..])
  }

  lemma {:induction false} ListingEnds(all: seq<string>, i: nat, lines: seq<string>)
    requires Listing(all, i, lines)
    ensures i == |all| || StartsWith(Strip(all[i]), CONTINUITY_TITLE) ==> ListedItems(all) == lines
  {
    if i < |all| { ListedStep(all, i); }
    assert lines + [] == lines;
  }

  lemma {:induction false} ListingMore(all: seq<string>, i: nat, lines: seq<string>)
    requires Listing(all, i, lines) && i < |all| && !StartsWith(Strip(all[i]), CONTINUITY_TITLE)
    ensures var line := Strip(all[i]);
            Listing(all, i + 1, if StartsWith(line, "- ") then lines + [Strip(line[2..])] else lines)
  {
    var line := Strip(all[i]);
    ListedStep(all, i);
    if StartsWith(line, "- ") { Associate(lines, [Strip(line[2..])], ListedItems(all[i + 1..])); }
  }

  /** Recover the recap of a marker, from its metadata when it has any, else from its text. */
  method RecapLinesFromMarker(recap: seq<string>, content: string) returns (r: seq<string>)
    ensures recap != [] ==> r == Clean(recap)
    ensures recap == [] ==> r == NonEmpty(ListedItems(SplitLines(content)))
  {
    if recap != [] {
      return Clean(recap);
    }
    var contentLines := SplitLines(content);
    var lines: seq<string> := [];
    var i := 0;
    assert contentLines[0..] == contentLines && [] + ListedItems(contentLines) == ListedItems(contentLines);
    while i < |contentLines|
      invariant 0 <= i <= |contentLines| && Listing(contentLines, i, lines)
    {
      var stripped := Strip(contentLines[i]);
      if StartsWith(stripped, CONTINUITY_TITLE) {
        ListingEnds(contentLines, i, lines);
        return NonEmpty(lines);
      }
      ListingMore(contentLines, i, lines);
      if StartsWith(stripped, "- ") {
        lines := lines + [Strip(stripped[2..])];
      }
      i := i + 1;
    }
    ListingEnds(contentLines, i, lines);
    r := NonEmpty(lines);
  }

  lemma ListedStep(lines: seq<string>, i: nat)
    requires i < |lines|
    ensures var line := Strip(lines[i]);
            ListedItems(lines[i..])
            == if StartsWith(line, CONTINUITY_TITLE) then []
               else if StartsWith(line, "- ") then [Strip(line[2..])] + ListedItems(lines[i + 1..])
               else ListedItems(lines[i + 1..])
  {
    assert lines[i..][0] == lines[i] && lines[i..][1..] == lines[i + 1..];
  }

  predicate IsBoundaryText(content: string) {
    StartsWith(LStrip(content), RUNTIME_HEADER) || StartsWith(LStrip(content), CHAT_HEADER)
  }

  /** A text is taken for a boundary exactly when, but for whitespace before it, it begins with one of the
      two headers. */
  lemma {:induction false} RecognisedMeans(content: string)
    ensures IsBoundaryText(content)
            <==> exists before, header, rest ::
                   content == before + header + rest && AllSpace(before) && header in {RUNTIME_HEADER, CHAT_HEADER}
  {
    if IsBoundaryText(content) {
      var before := LStripSplits(content);
      var header := if StartsWith(LStrip(content), RUNTIME_HEADER) then RUNTIME_HEADER else CHAT_HEADER;
      var rest := LStrip(content)[|header|..];
      assert LStrip(content) == header + rest;
      Associate(before, header, rest);
    }
    if before, header, rest :|
      content == before + header + rest && AllSpace(before) && header in {RUNTIME_HEADER, CHAT_HEADER}
    {
      ModeLinesPlain(RuntimeMode);
      ModeLinesPlain(ChatMode);
      Associate(before, header, rest);
      assert header[0] == (header + rest)[0];
      LStripPadded(before, header + rest);
    }
  }

  /** Every rendered boundary is recognised as one, whatever its payload. */
  lemma RenderedIsRecognised(p: Payload)
    ensures IsBoundaryText(Render(p))
  {
    HeaderFirst(p);
    ModeLinesPlain(p.mode);
    assert Render(p)[0] == Header(p.mode)[0];
    assert LStrip(Render(p)) == Render(p);
  }

  lemma HeaderFirst(p: Payload)
    ensures StartsWith(Render(p), Header(p.mode))
  {
    var lines := HeadLines(p) + TailLines(p);
    assert lines[0] == Header(p.mode);
    assert Render(p) == Header(p.mode) + "\n" + Join("\n", lines[1..]);
  }

  // A line without line breaks and blanks around it, that is no list item and does not open the
  // continuity section.
  ghost predicate Plain(line: string) {
    line != "" && SingleLine(line) && Stripped(line) && line[0] != '-' && line[0] != 'O'
  }

  lemma SingleLineConcat(a: string, b: string)
    requires SingleLine(a) && SingleLine(b)
    ensures SingleLine(a + b)
  {
  }

  // Two pieces of a line make a plain one.
  lemma PlainPieces(a: string, b: string)
    requires a != "" && b != "" && SingleLine(a) && SingleLine(b)
    requires !IsSpace(a[0]) && a[0] != '-' && a[0] != 'O' && !IsSpace(b[|b| - 1])
    ensures Plain(a + b)
  {
    SingleLineConcat(a, b);
    assert (a + b)[0] == a[0] && (a + b)[|a + b| - 1] == b[|b| - 1];
  }

  lemma RuntimeHeaderBegins()
    ensures SingleLine("Earlier conversation was compacted ")
  {
  }

  lemma RuntimeHeaderEnds()
    ensures SingleLine("to stay within the context budget.")
  {
  }

  lemma ChatHeaderBegins()
    ensures SingleLine("Earlier chat history was compacted ")
  {
  }

  lemma ChatHeaderEnds()
    ensures SingleLine("to keep the live context focused.")
  {
  }

  lemma RuntimeInstructionBegins()
    ensures SingleLine("Preserve these compacted facts ")
  {
  }

  lemma RuntimeInstructionEnds()
    ensures SingleLine("unless later context contradicts them:")
  {
  }

  lemma ChatInstructionBegins()
    ensures SingleLine("Use this as a compact recap ")
  {
  }

  lemma ChatInstructionEnds()
    ensures SingleLine("unless newer turns contradict it:")
  {
  }

  lemma RuntimeEmptyBegins()
    ensures SingleLine("Earlier tool and assistant ")
  {
  }

  lemma CompactedEnds()
    ensures SingleLine("turns were compacted.")
  {
  }

  lemma ChatEmptyBegins()
    ensures SingleLine("Earlier user and assistant ")
  {
  }

  lemma RuntimeHeaderPlain()
    ensures Plain(RUNTIME_HEADER)
  {
    RuntimeHeaderBegins();
    RuntimeHeaderEnds();
    PlainPieces("Earlier conversation was compacted ", "to stay within the context budget.");
  }

  lemma ChatHeaderPlain()
    ensures Plain(CHAT_HEADER)
  {
    ChatHeaderBegins();
    ChatHeaderEnds();
    PlainPieces("Earlier chat history was compacted ", "to keep the live context focused.");
  }

  lemma RuntimeInstructionPlain()
    ensures Plain(RUNTIME_INSTRUCTION)
  {
    RuntimeInstructionBegins();
    RuntimeInstructionEnds();
    PlainPieces("Preserve these compacted facts ", "unless later context contradicts them:");
  }

  lemma ChatInstructionPlain()
    ensures Plain(CHAT_INSTRUCTION)
  {
    ChatInstructionBegins();
    ChatInstructionEnds();
    PlainPieces("Use this as a compact recap ", "unless newer turns contradict it:");
  }

  lemma RuntimeEmptyPlain()
    ensures Plain(RUNTIME_EMPTY)
  {
    RuntimeEmptyBegins();
    CompactedEnds();
    PlainPieces("Earlier tool and assistant ", "turns were compacted.");
  }

  lemma ChatEmptyPlain()
    ensures Plain(CHAT_EMPTY)
  {
    ChatEmptyBegins();
    CompactedEnds();
    PlainPieces("Earlier user and assistant ", "turns were compacted.");
  }

  lemma CarriedTitlePlain()
    ensures Plain(CARRIED_TITLE)
  {
  }

  lemma RecentTitlePlain()
    ensures Plain(RECENT_TITLE)
  {
  }

  lemma ToolStateTitlePlain()
    ensures Plain(TOOL_STATE_TITLE)
  {
  }

  lemma ModeLinesPlain(mode: Mode)
    ensures Plain(Header(mode)) && Plain(Instruction(mode)) && Plain(EmptyRecap(mode))
  {
    RuntimeHeaderPlain();
    ChatHeaderPlain();
    RuntimeInstructionPlain();
    ChatInstructionPlain();
    RuntimeEmptyPlain();
    ChatEmptyPlain();
  }

  lemma PlainIsUnlisted(line: string)
    requires Plain(line)
    ensures Strip(line) == line && !StartsWith(line, CONTINUITY_TITLE) && !StartsWith(line, "- ")
  {
    StripOfStripped(line);
    assert CONTINUITY_TITLE[0] == 'O' && "- "[0] == '-';
  }

  ghost predicate AllSingleLine(items: seq<string>) {
    forall i | i in items :: SingleLine(i)
  }

  // Splitting at the first line break after a line that has none of its own.
  lemma {:induction false} SplitFirstLine(line: string, rest: string, current: string)
    requires SingleLine(line)
    ensures LinesFrom(line + "\n" + rest, current) == [current + line] + LinesFrom(rest, "")
    decreases |line|
  {
    var s := line + "\n" + rest;
    if line == "" {
      assert s == "\n" + rest && s[1..] == rest;
      assert current + "" == current;
    } else {
      assert s[0] == line[0] && s[1..] == line[1..] + "\n" + rest;
      assert current + [line[0]] + line[1..] == current + line;
      assert !IsLineBreak(s[0]) && s[0] != '\r';
      SplitFirstLine(line[1..], rest, current + [line[0]]);
    }
  }

  lemma {:induction false} SplitLastLine(line: string, current: string)
    requires SingleLine(line) && current + line != ""
    ensures LinesFrom(line, current) == [current + line]
    decreases |line|
  {
    if line == "" {
      assert current + "" == current;
    } else {
      assert current + [line[0]] + line[1..] == current + line;
      SplitLastLine(line[1..], current + [line[0]]);
    }
  }

  // Joining single lines and splitting them again is the identity, up to what follows them.
  lemma {:induction false} SplitJoined(lines: seq<string>, tail: seq<string>)
    requires AllSingleLine(lines) && tail != []
    ensures SplitLines(Join("\n", lines + tail)) == lines + SplitLines(Join("\n", tail))
    decreases |lines|
  {
    if lines == [] {
      assert lines + tail == tail;
    } else {
      var all := lines + tail;
      assert all[0] == lines[0] && all[1..] == lines[1..] + tail;
      SplitJoined(lines[1..], tail);
      SplitFirstLine(lines[0], Join("\n", all[1..]), "");
      assert "" + lines[0] == lines[0];
    }
  }

  lemma {:induction false} SplitAllJoined(lines: seq<string>)
    requires AllSingleLine(lines) && lines != [] && forall l | l in lines :: l != ""
    ensures SplitLines(Join("\n", lines)) == lines
  {
    var n := |lines| - 1;
    assert lines == lines[..n] + [lines[n]];
    SplitJoined(lines[..n], [lines[n]]);
    assert lines[n] in lines && "" + lines[n] == lines[n];
    SplitLastLine(lines[n], "");
  }

  lemma {:induction false} ListedConcat(a: seq<string>, b: seq<string>)
    requires forall l | l in a :: !StartsWith(Strip(l), CONTINUITY_TITLE)
    ensures ListedItems(a + b) == ListedItems(a) + ListedItems(b)
  {
    if a == [] {
      assert a + b == b;
    } else {
      var line := Strip(a[0]);
      var item := if StartsWith(line, "- ") then [Strip(line[2..])] else [];
      ListedConcat(a[1..], b);
      ListedHead(a, b);
      Associate(item, ListedItems(a[1..]), ListedItems(b));
    }
  }

  lemma ListedHead(a: seq<string>, b: seq<string>)
    requires a != [] && !StartsWith(Strip(a[0]), CONTINUITY_TITLE)
    ensures var line := Strip(a[0]);
            var item := if StartsWith(line, "- ") then [Strip(line[2..])] else [];
            ListedItems(a + b) == item + ListedItems(a[1..] + b) && ListedItems(a) == item + ListedItems(a[1..])
  {
    assert (a + b)[1..] == a[1..] + b;
  }

  // The list items of bullets are the bulleted items, and they survive the final filter.
  lemma {:induction false} ListedBullets(items: seq<string>)
    requires Items(items)
    ensures ListedItems(Bullets(items)) == items
    ensures forall l | l in Bullets(items) :: l != "" && !StartsWith(Strip(l), CONTINUITY_TITLE)
  {
    if items != [] {
      BulletLine(items[0]);
      ListedBullets(items[1..]);
    }
  }

  lemma BulletLine(item: string)
    requires item != "" && Stripped(item)
    ensures var line := "- " + item;
            && Strip(line) == line && StartsWith(line, "- ") && !StartsWith(line, CONTINUITY_TITLE)
            && Strip(line[2..]) == item
  {
    var line := "- " + item;
    StripOfStripped(line);
    StripOfStripped(item);
    assert line[2..] == item && line[0] == '-' && CONTINUITY_TITLE[0] == 'O';
  }

  lemma BulletsSingleLine(items: seq<string>)
    requires AllSingleLine(items)
    ensures AllSingleLine(Bullets(items))
  {
    if items != [] {
      var line := "- " + items[0];
      assert items[0] in items;
      forall k | 0 <= k < |line| ensures !IsLineBreak(line[k]) {
        if k >= 2 { assert line[k] == items[0][k - 2]; }
      }
      BulletsSingleLine(items[1..]);
    }
  }

  ghost predicate ParseableLine(l: string) {
    l != "" && SingleLine(l) && !StartsWith(Strip(l), CONTINUITY_TITLE)
  }

  ghost predicate Parseable(lines: seq<string>) {
    forall l | l in lines :: ParseableLine(l)
  }

  lemma BulletsParse(items: seq<string>)
    requires AllSingleLine(items) && Items(items)
    ensures Parseable(Bullets(items)) && ListedItems(Bullets(items)) == items
  {
    ListedBullets(items);
    BulletsSingleLine(items);
  }

  lemma PlainParses(line: string)
    requires Plain(line)
    ensures Parseable([line]) && ListedItems([line]) == []
  {
    PlainIsUnlisted(line);
  }

  lemma ParsesTogether(a: seq<string>, b: seq<string>)
    requires Parseable(a) && Parseable(b)
    ensures Parseable(a + b) && ListedItems(a + b) == ListedItems(a) + ListedItems(b)
    ensures ListedItems(a) == [] ==> ListedItems(a + b) == ListedItems(b)
  {
    forall l | l in a ensures !StartsWith(Strip(l), CONTINUITY_TITLE) {
      assert ParseableLine(l);
    }
    ListedConcat(a, b);
  }

  lemma HeadParses(p: Payload)
    requires AllSingleLine(Clean(p.recap)) && AllSingleLine(Clean(p.carried))
    ensures Parseable(HeadLines(p)) && ListedItems(HeadLines(p)) == Clean(p.carried) + ShownRecap(p)
  {
    OpeningParses(p.mode);
    CarriedParses(p);
    ShownRecapParses(p);
    ParsesAfter([Header(p.mode), Instruction(p.mode)], CarriedLines(p), Bullets(ShownRecap(p)));
  }

  lemma ParsesAfter(a: seq<string>, b: seq<string>, c: seq<string>)
    requires Parseable(a) && Parseable(b) && Parseable(c) && ListedItems(a) == []
    ensures Parseable(a + b + c) && ListedItems(a + b + c) == ListedItems(b) + ListedItems(c)
  {
    ParsesTogether(a, b);
    ParsesTogether(a + b, c);
  }

  lemma OpeningParses(mode: Mode)
    ensures Parseable([Header(mode), Instruction(mode)]) && ListedItems([Header(mode), Instruction(mode)]) == []
  {
    ModeLinesPlain(mode);
    PlainParses(Header(mode));
    PlainParses(Instruction(mode));
    ParsesTogether([Header(mode)], [Instruction(mode)]);
    assert [Header(mode)] + [Instruction(mode)] == [Header(mode), Instruction(mode)];
  }

  lemma ShownRecapParses(p: Payload)
    requires AllSingleLine(Clean(p.recap))
    ensures Parseable(Bullets(ShownRecap(p))) && ListedItems(Bullets(ShownRecap(p))) == ShownRecap(p)
    ensures Items(ShownRecap(p))
  {
    ModeLinesPlain(p.mode);
    BulletsParse(ShownRecap(p));
  }

  lemma CarriedParses(p: Payload)
    requires AllSingleLine(Clean(p.carried))
    ensures Parseable(CarriedLines(p)) && ListedItems(CarriedLines(p)) == Clean(p.carried)
  {
    CarriedTitlePlain();
    RecentTitlePlain();
    PlainParses(CARRIED_TITLE);
    PlainParses(RECENT_TITLE);
    BulletsParse(Clean(p.carried));
    ParsesTogether([CARRIED_TITLE], Bullets(Clean(p.carried)));
    ParsesTogether([CARRIED_TITLE] + Bullets(Clean(p.carried)), [RECENT_TITLE]);
  }

  /** Parsing a rendered boundary gives its carried items and its recap. The items of the tool-state
      section are taken for recap items too, unless a continuity section stands before them. */
  lemma ParseRendered(p: Payload)
    requires AllSingleLine(Clean(p.recap)) && AllSingleLine(Clean(p.carried))
    requires ContinuityLines(p.continuity) == [] ==> AllSingleLine(Clean(p.toolState))
    ensures NonEmpty(ListedItems(SplitLines(Render(p))))
            == Clean(p.carried) + ShownRecap(p)
               + if ContinuityLines(p.continuity) == [] then Clean(p.toolState) else []
  {
    HeadParses(p);
    if ContinuityLines(p.continuity) == [] {
      ToolStateParses(p);
      ParsesTogether(HeadLines(p), TailLines(p));
      SplitAllJoined(HeadLines(p) + TailLines(p));
    } else {
      ContinuityEndsList(p);
      SplitJoined(HeadLines(p), TailLines(p));
      ListedConcat(HeadLines(p), SplitLines(Join("\n", TailLines(p))));
    }
    ItemsSurvive(p);
  }

  // Nothing listed is empty, so the parser's final filter drops nothing.
  lemma {:induction false} ItemsSurvive(p: Payload)
    ensures var items := Clean(p.carried) + ShownRecap(p) + if ContinuityLines(p.continuity) == [] then Clean(p.toolState) else [];
            NonEmpty(items) == items
  {
    RecapNotEmpty(p);
    NothingEmpty(Clean(p.carried) + ShownRecap(p) + if ContinuityLines(p.continuity) == [] then Clean(p.toolState) else []);
  }

  lemma {:induction false} RecapNotEmpty(p: Payload)
    ensures forall k | 0 <= k < |ShownRecap(p)| :: ShownRecap(p)[k] != ""
  {
    ModeLinesPlain(p.mode);
  }

  lemma {:induction false} NothingEmpty(items: seq<string>)
    requires forall k | 0 <= k < |items| :: items[k] != ""
    ensures NonEmpty(items) == items
  {
    if items != [] {
      NothingEmpty(items[1..]);
    }
  }

  lemma ToolStateParses(p: Payload)
    requires ContinuityLines(p.continuity) == [] && AllSingleLine(Clean(p.toolState))
    ensures Parseable(TailLines(p)) && ListedItems(TailLines(p)) == Clean(p.toolState)
  {
    ToolStateTitlePlain();
    PlainParses(TOOL_STATE_TITLE);
    BulletsParse(Clean(p.toolState));
    ParsesTogether([TOOL_STATE_TITLE], Bullets(Clean(p.toolState)));
    assert TailLines(p) == if Clean(p.toolState) == [] then [] else [TOOL_STATE_TITLE] + Bullets(Clean(p.toolState));
  }

  lemma ContinuityEndsList(p: Payload)
    requires ContinuityLines(p.continuity) != []
    ensures TailLines(p) != [] && ListedItems(SplitLines(Join("\n", TailLines(p)))) == []
  {
    var tail := TailLines(p);
    assert tail[0] == CONTINUITY_TITLE && |tail| >= 2;
    FirstLineEndsList(Join("\n", tail[1..]));
  }

  lemma FirstLineEndsList(rest: string)
    ensures ListedItems(SplitLines(CONTINUITY_TITLE + "\n" + rest)) == []
  {
    SplitFirstLine(CONTINUITY_TITLE, rest, "");
    StripOfStripped(CONTINUITY_TITLE);
    assert "" + CONTINUITY_TITLE == CONTINUITY_TITLE;
  }
}

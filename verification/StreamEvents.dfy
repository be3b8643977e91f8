/** The events exchanged between a provider stream, its normaliser and the turn accumulator. */
module StreamEvents {
  import opened Basics

  // Tool arguments as a provider sends them. An argument object is opaque and stands for itself
  // by the compact JSON text it is later written back as.
  datatype Payload = NoPayload | Fragment(text: string) | Object(json: string)

  datatype RawCall = RawCall(index: Option<int>, id: string, name: string, arguments: Payload)

  datatype Delta = Delta(reasoning: string, content: string, toolCalls: seq<RawCall>)

  datatype Choice = Choice(delta: Option<Delta>, finishReason: string)

  datatype Durations<+T> = Durations(total: T, load: T, promptEval: T, eval: T)

  // A usage report as it arrives, with the durations a local provider sends in fields of its own.
  datatype RawUsage = RawUsage(prompt: int, completion: int, total: int, cached: Option<int>, durations: Option<Durations<int>>)

  datatype Usage = Usage(prompt: nat, completion: nat, total: nat, cached: Option<nat>, durations: Option<Durations<nat>>) {
    function Sum(): nat {
      prompt + completion + total + (if cached.Some? then cached.value else 0)
      + match durations
        case None => 0
        case Some(d) => d.total + d.load + d.promptEval + d.eval
    }
  }

  datatype Chunk = Chunk(choices: seq<Choice>, usage: Option<RawUsage>)

  // One fragment of a tool call: the raw call and its position in its delta.
  datatype ToolFragment = ToolFragment(call: RawCall, position: nat)

  datatype Event =
    | ReasoningDelta(text: string)
    | TextDelta(text: string)
    | ToolCallDelta(fragment: ToolFragment)
    | UsageReport(usage: Usage)
    | TurnFinished(reason: string)

  // One character the normaliser let through, with the channel it went to.
  datatype Tagged = Tagged(reasoning: bool, c: char)

  function Tag(s: string, reasoning: bool): (r: seq<Tagged>)
    ensures |r| == |s|
  {
    if s == "" then [] else [Tagged(reasoning, s[0])] + Tag(s[1..], reasoning)
  }

  lemma TagCons(s: string, reasoning: bool)
    requires s != ""
    ensures Tag(s, reasoning) == [Tagged(reasoning, s[0])] + Tag(s[1..], reasoning)
  {
  }

  // The characters of one channel, in order.
  function Channel(ts: seq<Tagged>, reasoning: bool): string {
    if ts == [] then ""
    else (if ts[0].reasoning == reasoning then [ts[0].c] else "") + Channel(ts[1..], reasoning)
  }

  function CharactersIn(e: Event): seq<Tagged> {
    match e
    case ReasoningDelta(t) => Tag(t, true)
    case TextDelta(t) => Tag(t, false)
    case _ => []
  }

  function FragmentIn(e: Event): seq<ToolFragment> {
    if e.ToolCallDelta? then [e.fragment] else []
  }

  function ReportIn(e: Event): seq<Event> {
    if e.UsageReport? || e.TurnFinished? then [e] else []
  }

  // What a list of events lets through, character by character.
  function Characters(es: seq<Event>): seq<Tagged> {
    if es == [] then [] else CharactersIn(es[0]) + Characters(es[1..])
  }

  function Fragments(es: seq<Event>): seq<ToolFragment> {
    if es == [] then [] else FragmentIn(es[0]) + Fragments(es[1..])
  }

  // Usage reports and turn ends, in order.
  function Reports(es: seq<Event>): seq<Event> {
    if es == [] then [] else ReportIn(es[0]) + Reports(es[1..])
  }

  lemma {:induction false} CharactersConcat(a: seq<Event>, b: seq<Event>)
    ensures Characters(a + b) == Characters(a) + Characters(b)
  {
    FirstOf(a, b);
    if a != [] {
      CharactersConcat(a[1..], b);
      Associate(CharactersIn(a[0]), Characters(a[1..]), Characters(b));
    }
  }

  lemma {:induction false} FragmentsConcat(a: seq<Event>, b: seq<Event>)
    ensures Fragments(a + b) == Fragments(a) + Fragments(b)
  {
    FirstOf(a, b);
    if a != [] {
      FragmentsConcat(a[1..], b);
      Associate(FragmentIn(a[0]), Fragments(a[1..]), Fragments(b));
    }
  }

  lemma {:induction false} ReportsConcat(a: seq<Event>, b: seq<Event>)
    ensures Reports(a + b) == Reports(a) + Reports(b)
  {
    FirstOf(a, b);
    if a != [] {
      ReportsConcat(a[1..], b);
      Associate(ReportIn(a[0]), Reports(a[1..]), Reports(b));
    }
  }

  lemma {:induction false} ChannelConcat(a: seq<Tagged>, b: seq<Tagged>, reasoning: bool)
    ensures Channel(a + b, reasoning) == Channel(a, reasoning) + Channel(b, reasoning)
  {
    if a == [] {
      assert a + b == b;
    } else {
      ChannelConcat(a[1..], b, reasoning);
      ChannelHead(a, b, reasoning);
      Associate(if a[0].reasoning == reasoning then [a[0].c] else "", Channel(a[1..], reasoning), Channel(b, reasoning));
    }
  }

  lemma ChannelHead(a: seq<Tagged>, b: seq<Tagged>, reasoning: bool)
    requires a != []
    ensures Channel(a + b, reasoning)
            == (if a[0].reasoning == reasoning then [a[0].c] else "") + Channel(a[1..] + b, reasoning)
  {
    assert (a + b)[1..] == a[1..] + b;
  }

  lemma {:induction false} ChannelOfTag(s: string, tag: bool, reasoning: bool)
    ensures Channel(Tag(s, tag), reasoning) == if tag == reasoning then s else ""
  {
    if s != "" {
      ChannelOfTag(s[1..], tag, reasoning);
    }
  }
}

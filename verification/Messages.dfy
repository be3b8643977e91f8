/** Chat messages as the agent's history holds them, and the token estimates made of them. */
module Messages {
  import Text

  datatype Role = User | Assistant | System | Tool | Other(name: string)

  // A tool call; an absent id is the empty string.
  datatype Call = Call(id: string, name: string, arguments: string)

  // toolCalls is used on assistant messages, callId on tool results.
  datatype Message = Message(role: Role, content: string, toolCalls: seq<Call>, callId: string)

  function Max(a: int, b: int): int { if a < b then b else a }

  function Min(a: int, b: int): int { if a < b then a else b }

  const CHARS_PER_TOKEN := 4

  function EstimateTokens(text: string): nat {
    if |text| == 0 then 0 else Max(1, |text| / CHARS_PER_TOKEN)
  }

  function CallTokens(calls: seq<Call>): nat {
    if calls == [] then 0
    else EstimateTokens(calls[0].name) + EstimateTokens(calls[0].arguments) + CallTokens(calls[1..])
  }

  function MessageTokens(m: Message): nat {
    EstimateTokens(m.content) + CallTokens(m.toolCalls)
  }

  function HistoryTokens(history: seq<Message>): nat {
    if history == [] then 0 else MessageTokens(history[0]) + HistoryTokens(history[1..])
  }

  // " ".join(value.split()), cut to a length and marked with an ellipsis when cut.
  function CompactText(value: string, maxChars: int): string {
    var text := Text.Collapse(value);
    if |text| <= maxChars then text
    else Text.RStrip(text[..Min(|text|, Max(0, maxChars - 1))]) + "\U{2026}"
  }

  /** The ellipsis makes the cut text overrun exactly the limits below one character. */
  lemma CompactTextFits(value: string, maxChars: int)
    ensures |CompactText(value, maxChars)| <= maxChars <==> |Text.Collapse(value)| <= maxChars || maxChars >= 1
  {
  }

  /** What is kept is the beginning of the text with single blanks, up to one character below the limit,
      but for whitespace at the cut. */
  lemma CompactTextStarts(value: string, maxChars: int) returns (after: string)
    requires maxChars >= 1 && |Text.Collapse(value)| > maxChars
    ensures Text.AllSpace(after) && |CompactText(value, maxChars)| > 0
    ensures var r := CompactText(value, maxChars);
            r[..|r| - 1] + after == Text.Collapse(value)[..maxChars - 1] && r[|r| - 1] == '\U{2026}'
  {
    after := Text.RStripSplits(Text.Collapse(value)[..maxChars - 1]);
  }
}

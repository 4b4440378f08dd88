/** The local token estimate that decides when to compact. */
module Tokens {
  import opened Common
  import opened Protocol

  const CHARS_PER_TOKEN := 4
  const MESSAGE_OVERHEAD_TOKENS := 4

  function CharsToTokens(chars: nat): nat { (chars + CHARS_PER_TOKEN - 1) / CHARS_PER_TOKEN }

  function JsonLength(value: Json): nat {
    match value
    case Null => 0
    case Undefined => 0
    case Str(text) => |text|
    case Other(compact, _) => |compact|
  }

  function AttachmentTokens(mediaType: string): nat {
    if StartsWith(mediaType, "image/") then 3000 else 10000
  }

  function PartTokens(p: Part): nat {
    match p
    case TextPart(text) => CharsToTokens(|text|)
    case ReasoningPart(text, _, signature) => CharsToTokens(|text| + if signature.Some? then |signature.value| else 0)
    case ToolCall(_, toolName, input) => CharsToTokens(|toolName| + JsonLength(input))
    case ToolResult(_, toolName, output, _, _) => CharsToTokens(|toolName| + JsonLength(output))
    case FilePart(_, mediaType, _, _) => AttachmentTokens(mediaType)
  }

  function PartsTokens(parts: seq<Part>): nat {
    if parts == [] then 0 else PartTokens(parts[0]) + PartsTokens(parts[1..])
  }

  function MessageTokens(m: Message): nat { MESSAGE_OVERHEAD_TOKENS + PartsTokens(m.parts) }

  /** The estimate of a history: the sum of the estimates of its messages. */
  function TokensOf(ms: seq<Message>): nat {
    if ms == [] then 0 else MessageTokens(ms[0]) + TokensOf(ms[1..])
  }

  /** The estimating loop. */
  method EstimateTokens(messages: seq<Message>) returns (total: nat)
    ensures total == TokensOf(messages)
  {
    total := 0;
    for i := 0 to |messages|
      invariant total + TokensOf(messages[i..]) == TokensOf(messages)
    {
      ghost var before := total;
      total := total + MESSAGE_OVERHEAD_TOKENS;
      var parts := messages[i].parts;
      for j := 0 to |parts|
        invariant total + PartsTokens(parts[j..]) == before + MessageTokens(messages[i])
      {
        assert parts[j..][1..] == parts[j + 1..];
        total := total + PartTokens(parts[j]);
      }
      assert messages[i..][1..] == messages[i + 1..];
    }
  }

  lemma {:induction false} TokensAppend(a: seq<Message>, b: seq<Message>)
    ensures TokensOf(a + b) == TokensOf(a) + TokensOf(b)
  {
    if a == [] {
      assert a + b == b;
    } else {
      assert (a + b)[1..] == a[1..] + b;
      TokensAppend(a[1..], b);
    }
  }

  /** Partitioning out the pinned messages changes the order, not the estimate. */
  lemma {:induction false} TokensOfPartition(ms: seq<Message>)
    ensures TokensOf(Select(ms, true) + Select(ms, false)) == TokensOf(ms)
  {
    TokensAppend(Select(ms, true), Select(ms, false));
    if ms != [] {
      TokensOfPartition(ms[1..]);
      TokensAppend(Select(ms[1..], true), Select(ms[1..], false));
      var first := [ms[0]];
      TokensAppend(first, Select(ms[1..], ms[0].pinned));
      assert [] + Select(ms[1..], !ms[0].pinned) == Select(ms[1..], !ms[0].pinned);
      assert TokensOf(first) == MessageTokens(ms[0]);
    }
  }

  // ----- What the estimate counts -----

  /** The characters of a value as it is sent. */
  function Written(value: Json): string {
    match value
    case Null => ""
    case Undefined => ""
    case Str(text) => text
    case Other(compact, _) => compact
  }

  /** The text that a part puts into a request; an attachment has none that is known here. */
  function VisibleText(p: Part): string {
    match p
    case TextPart(text) => text
    case ReasoningPart(text, _, signature) => text + if signature.Some? then signature.value else ""
    case ToolCall(_, toolName, input) => toolName + Written(input)
    case ToolResult(_, toolName, output, _, _) => toolName + Written(output)
    case FilePart(_, _, _, _) => ""
  }

  /** Characters, an image counting for twelve thousand and any other attachment for forty thousand. */
  function Weight(p: Part): nat {
    if p.FilePart? then (if |p.mediaType| >= 6 && p.mediaType[..6] == "image/" then 12000 else 40000)
    else |VisibleText(p)|
  }

  function WeightOfParts(parts: seq<Part>): nat {
    if parts == [] then 0 else Weight(parts[0]) + WeightOfParts(parts[1..])
  }

  function PartCount(ms: seq<Message>): nat { if ms == [] then 0 else |ms[0].parts| + PartCount(ms[1..]) }

  /** Every message adds the weight of its parts and sixteen characters for its role markers. */
  function WeightOf(ms: seq<Message>): nat {
    if ms == [] then 0 else 16 + WeightOfParts(ms[0].parts) + WeightOf(ms[1..])
  }

  lemma PartWeighs(p: Part)
    ensures Weight(p) <= 4 * PartTokens(p) <= Weight(p) + 3
  {
  }

  lemma {:induction false} PartsWeigh(parts: seq<Part>)
    ensures WeightOfParts(parts) <= 4 * PartsTokens(parts) <= WeightOfParts(parts) + 3 * |parts|
  {
    if parts != [] {
      PartWeighs(parts[0]);
      PartsWeigh(parts[1..]);
    }
  }

  /** The estimate is a quarter of the weight, rounded up part by part: never below it, and by less than a token a part above. */
  lemma {:induction false} EstimateFollowsWeight(ms: seq<Message>)
    ensures WeightOf(ms) <= 4 * TokensOf(ms) <= WeightOf(ms) + 3 * PartCount(ms)
  {
    if ms != [] {
      PartsWeigh(ms[0].parts);
      EstimateFollowsWeight(ms[1..]);
    }
  }
}

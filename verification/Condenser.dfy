/**
 * The condenser: pinned messages are set aside, large tool outputs become file
 * references, and only then the middle of the history is summarised.
 */
module Condenser {
  import opened Common
  import opened Protocol
  import opened Tokens
  import opened Text
  import Split

  datatype Options = Options(
    maxTokens: nat,
    keepRecent: nat,
    keepFirst: nat,
    elideOverChars: nat,
    persist: Option<(string, Json) -> string>,
    summarise: Option<seq<Message> -> string>)

  datatype Size = Size(messages: nat, tokens: nat)

  datatype CondenseResult = CondenseResult(messages: seq<Message>, compacted: bool, strategy: string, before: Size, after: Size)

  /** One call of the persist hook. */
  datatype Write = Write(path: string, callId: string, output: Json)

  // ----- The verbatim tail -----

  /** A cut at `b` puts no tool result first behind it and no tool call last before it. */
  predicate IsSafeCut(history: seq<Message>, b: nat)
    requires b <= |history|
  {
    && !(b < |history| && HasToolResult(history[b]))
    && !(b > 0 && HasToolCall(history[b - 1]))
  }

  function LastSafeCut(history: seq<Message>, b: nat): (r: nat)
    requires b <= |history|
    ensures r <= b && (r == 0 || IsSafeCut(history, r))
    ensures forall j :: r < j <= b ==> !IsSafeCut(history, j)
  {
    if b == 0 || IsSafeCut(history, b) then b else LastSafeCut(history, b - 1)
  }

  function Boundary(history: seq<Message>, keepRecent: nat): (r: nat)
    ensures r <= |history|
  {
    LastSafeCut(history, Max(0, |history| - keepRecent))
  }

  /** The loop: the start of the tail moves back until the cut is safe. */
  method RecentBoundary(history: seq<Message>, keepRecent: nat) returns (boundary: nat)
    ensures boundary <= Max(0, |history| - keepRecent)
    ensures boundary == 0 || IsSafeCut(history, boundary)
    ensures forall j :: boundary < j <= Max(0, |history| - keepRecent) ==> !IsSafeCut(history, j)
    ensures boundary == Boundary(history, keepRecent)
  {
    var start := Max(0, |history| - keepRecent);
    boundary := start;
    while boundary > 0
      invariant boundary <= start
      invariant forall j :: boundary < j <= start ==> !IsSafeCut(history, j)
      invariant LastSafeCut(history, start) == LastSafeCut(history, boundary)
    {
      if boundary < |history| && HasToolResult(history[boundary]) {
        boundary := boundary - 1;
        continue;
      }
      if HasToolCall(history[boundary - 1]) {
        boundary := boundary - 1;
        continue;
      }
      break;
    }
  }

  // ----- The lossless pass -----

  function SizeOf(value: Json): nat {
    match value
    case Str(text) => |text|
    case Null => 4
    case Undefined => 0
    case Other(compact, _) => |compact|
  }

  function Placeholder(size: nat, path: string): string {
    "[" + Decimal(size) + " characters elided to " + path + " \U{2014} read that file to see the full output]"
  }

  predicate ShouldElide(options: Options, p: Part) {
    p.ToolResult? && !Truthy(p.elidedTo) && SizeOf(p.output) > options.elideOverChars
  }

  function ElidePart(options: Options, p: Part): Part
    requires options.persist.Some?
  {
    if ShouldElide(options, p) then
      var path := options.persist.value(p.callId, p.output);
      p.(output := Str(Placeholder(SizeOf(p.output), path)), elidedTo := Some(path))
    else p
  }

  function ElideMessage(options: Options, m: Message): Message
    requires options.persist.Some?
  {
    m.(parts := MapSeq(p => ElidePart(options, p), m.parts))
  }

  function ElideMessages(options: Options, ms: seq<Message>): (r: seq<Message>)
    requires options.persist.Some?
    ensures |r| == |ms|
    ensures forall i :: 0 <= i < |ms| ==> r[i] == ElideMessage(options, ms[i])
  {
    MapSeq(m => ElideMessage(options, m), ms)
  }

  /** The history after the pass: everything before the verbatim tail elided. */
  function Elided(options: Options, history: seq<Message>): (r: seq<Message>)
    requires options.persist.Some?
    ensures |r| == |history|
  {
    var b := Boundary(history, options.keepRecent);
    ElideMessages(options, history[..b]) + history[b..]
  }

  function PartWrites(options: Options, parts: seq<Part>): seq<Write>
    requires options.persist.Some?
  {
    if parts == [] then []
    else
      var p := parts[0];
      (if ShouldElide(options, p) then [Write(options.persist.value(p.callId, p.output), p.callId, p.output)] else [])
      + PartWrites(options, parts[1..])
  }

  function MessageWrites(options: Options, ms: seq<Message>): seq<Write>
    requires options.persist.Some?
  {
    if ms == [] then [] else PartWrites(options, ms[0].parts) + MessageWrites(options, ms[1..])
  }

  /** What the pass persists, in the order in which it starts the calls. */
  function Writes(options: Options, history: seq<Message>): seq<Write>
    requires options.persist.Some?
  {
    MessageWrites(options, history[..Boundary(history, options.keepRecent)])
  }

  lemma NextWrites(options: Options, history: seq<Message>, i: nat, boundary: nat, before: seq<Write>)
    requires options.persist.Some? && i < boundary <= |history|
    ensures before + MessageWrites(options, history[i..boundary])
         == before + PartWrites(options, history[i].parts) + MessageWrites(options, history[i + 1..boundary])
  {
    assert history[i..boundary][1..] == history[i + 1..boundary];
  }

  method ElideToolOutputs(history: seq<Message>, options: Options) returns (messages: seq<Message>, writes: seq<Write>)
    requires options.persist.Some?
    ensures messages == Elided(options, history)
    ensures writes == Writes(options, history)
  {
    var boundary := RecentBoundary(history, options.keepRecent);
    messages, writes := [], [];
    for i := 0 to |history|
      invariant |messages| == i
      invariant forall k :: 0 <= k < i ==>
        messages[k] == if k < boundary then ElideMessage(options, history[k]) else history[k]
      invariant i <= boundary ==> writes + MessageWrites(options, history[i..boundary]) == Writes(options, history)
      invariant i >= boundary ==> writes == Writes(options, history)
    {
      if i >= boundary {
        messages := messages + [history[i]];
      } else {
        var parts, persisted := ElideParts(history[i].parts, options);
        messages := messages + [history[i].(parts := parts)];
        NextWrites(options, history, i, boundary, writes);
        writes := writes + persisted;
      }
    }
    assert history == history[..boundary] + history[boundary..];
  }

  lemma NextPartWrites(options: Options, parts: seq<Part>, i: nat, before: seq<Write>)
    requires options.persist.Some? && i < |parts|
    ensures before + PartWrites(options, parts[i..])
         == before + PartWrites(options, [parts[i]]) + PartWrites(options, parts[i + 1..])
  {
    assert parts[i..][1..] == parts[i + 1..];
    assert [parts[i]][1..] == [];
  }

  method ElideParts(parts: seq<Part>, options: Options) returns (out: seq<Part>, writes: seq<Write>)
    requires options.persist.Some?
    ensures out == MapSeq(p => ElidePart(options, p), parts)
    ensures writes == PartWrites(options, parts)
  {
    out, writes := [], [];
    for i := 0 to |parts|
      invariant |out| == i && forall k :: 0 <= k < i ==> out[k] == ElidePart(options, parts[k])
      invariant writes + PartWrites(options, parts[i..]) == PartWrites(options, parts)
    {
      var part := parts[i];
      NextPartWrites(options, parts, i, writes);
      if ShouldElide(options, part) {
        var path := options.persist.value(part.callId, part.output);
        writes := writes + [Write(path, part.callId, part.output)];
        out := out + [part.(output := Str(Placeholder(SizeOf(part.output), path)), elidedTo := Some(path))];
      } else {
        out := out + [part];
      }
    }
  }

  // ----- The lossy pass -----

  /** `Array.prototype.slice` for indices that may pass each other or the end. */
  function Slice<T>(s: seq<T>, from: nat, to: nat): seq<T> {
    var hi := Min(to, |s|);
    if from < hi then s[from..hi] else []
  }

  function SummaryMessage(boundary: nat, size: nat, summary: string): Message {
    Message("summary-" + Decimal(boundary) + "-" + Decimal(size), Assistant,
            [TextPart("[Earlier conversation summarised \U{2014} " + Decimal(size) + " messages]\n\n" + summary)], false)
  }

  /** The middle that would be summarised. */
  function Middle(options: Options, history: seq<Message>): seq<Message> {
    Slice(history, options.keepFirst, Boundary(history, options.keepRecent))
  }

  function Summarised(options: Options, history: seq<Message>): seq<Message>
    requires options.summarise.Some?
  {
    var boundary := Boundary(history, options.keepRecent);
    var middle := Middle(options, history);
    if |middle| < 2 then history
    else history[..options.keepFirst] + [SummaryMessage(boundary, |middle|, options.summarise.value(middle))] + history[boundary..]
  }

  method SummariseMiddle(history: seq<Message>, options: Options) returns (messages: seq<Message>, changed: bool)
    requires options.summarise.Some?
    ensures messages == Summarised(options, history)
    ensures changed == (|Middle(options, history)| >= 2)
  {
    var boundary := RecentBoundary(history, options.keepRecent);
    var head := Slice(history, 0, options.keepFirst);
    var middle := Slice(history, options.keepFirst, boundary);
    var tail := Slice(history, boundary, |history|);
    if |middle| < 2 { return history, false; }
    var summary := options.summarise.value(middle);
    messages := head + [SummaryMessage(boundary, |middle|, summary)] + tail;
    changed := true;
  }

  // ----- The whole condenser -----

  function SizeOfHistory(ms: seq<Message>): Size { Size(|ms|, TokensOf(ms)) }

  /** The compactable history after the lossless pass, and whether that pass did anything. */
  function AfterElision(options: Options, history: seq<Message>): (seq<Message>, bool) {
    if options.persist.Some? then (Elided(options, history), Writes(options, history) != []) else (history, false)
  }

  /** The compactable history after both passes, and whether the second one did anything. */
  function AfterSummary(options: Options, pinned: seq<Message>, elided: seq<Message>): (seq<Message>, bool) {
    if TokensOf(pinned + elided) > options.maxTokens && options.summarise.Some? && |Middle(options, elided)| >= 2
    then (Summarised(options, elided), true)
    else (elided, false)
  }

  function Condensed(options: Options, input: seq<Message>): CondenseResult {
    var before := SizeOfHistory(input);
    if before.tokens <= options.maxTokens then CondenseResult(input, false, "none", before, before)
    else
      var pinned := Select(input, true);
      var (elided, didElide) := AfterElision(options, Select(input, false));
      var (history, didSummarise) := AfterSummary(options, pinned, elided);
      var passes := (if didElide then ["elide-tool-outputs"] else []) + (if didSummarise then ["summarise-middle"] else []);
      var out := pinned + history;
      CondenseResult(out, passes != [], if passes == [] then "none" else Split.Join(passes, "+"), before, SizeOfHistory(out))
  }

  /** What one call of the condenser persists. */
  function CondenseWrites(options: Options, input: seq<Message>): seq<Write> {
    if TokensOf(input) > options.maxTokens && options.persist.Some? then Writes(options, Select(input, false)) else []
  }

  method Condense(input: seq<Message>, options: Options) returns (r: CondenseResult, writes: seq<Write>)
    ensures r == Condensed(options, input)
    ensures writes == CondenseWrites(options, input)
  {
    var tokens := EstimateTokens(input);
    var before := Size(|input|, tokens);
    writes := [];
    if tokens <= options.maxTokens {
      return CondenseResult(input, false, "none", before, before), writes;
    }
    var pinned := Select(input, true);
    var history := Select(input, false);
    var passes: seq<string> := [];
    if options.persist.Some? {
      var elided;
      elided, writes := ElideToolOutputs(history, options);
      if writes != [] {
        history := elided;
        passes := passes + ["elide-tool-outputs"];
      } else {
        NothingElided(options, history);
      }
    }
    var current := pinned + history;
    var currentTokens := EstimateTokens(current);
    if currentTokens > options.maxTokens && options.summarise.Some? {
      var summarised, changed := SummariseMiddle(history, options);
      if changed {
        history := summarised;
        passes := passes + ["summarise-middle"];
        current := pinned + history;
      }
    }
    var afterTokens := EstimateTokens(current);
    r := CondenseResult(current, |passes| > 0, if |passes| > 0 then Split.Join(passes, "+") else "none", before, Size(|current|, afterTokens));
  }

  lemma {:induction false} NoPartElided(options: Options, parts: seq<Part>)
    requires options.persist.Some? && PartWrites(options, parts) == []
    ensures MapSeq(p => ElidePart(options, p), parts) == parts
  {
    if parts != [] {
      NoPartElided(options, parts[1..]);
      assert !ShouldElide(options, parts[0]);
      forall i | 0 <= i < |parts| ensures ElidePart(options, parts[i]) == parts[i] {
        if i > 0 {
          assert parts[1..][i - 1] == parts[i];
        }
      }
    }
  }

  lemma {:induction false} NoMessageElided(options: Options, ms: seq<Message>)
    requires options.persist.Some? && MessageWrites(options, ms) == []
    ensures ElideMessages(options, ms) == ms
  {
    if ms != [] {
      NoPartElided(options, ms[0].parts);
      NoMessageElided(options, ms[1..]);
      assert ElideMessages(options, ms) == [ElideMessage(options, ms[0])] + ElideMessages(options, ms[1..]);
    }
  }

  /** Without a write, the lossless pass returns the history as it was. */
  lemma NothingElided(options: Options, history: seq<Message>)
    requires options.persist.Some? && Writes(options, history) == []
    ensures Elided(options, history) == history
  {
    var b := Boundary(history, options.keepRecent);
    NoMessageElided(options, history[..b]);
    assert history == history[..b] + history[b..];
  }
}

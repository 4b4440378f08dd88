/** Which pass of the condenser runs, and what each leaves of a history, message by message and part by part. */
module Passes {
  import opened Common
  import opened Protocol
  import opened Tokens
  import opened Condenser
  import opened Text
  import Split

  // ----- The partition -----

  /** Messages are taken out one by one, in order ... */
  lemma {:induction false} SelectsOneByOne(a: seq<Message>, b: seq<Message>, flag: bool)
    ensures Select(a + b, flag) == Select(a, flag) + Select(b, flag)
  {
    if a == [] {
      assert a + b == b;
    } else {
      assert (a + b)[1..] == a[1..] + b;
      SelectsOneByOne(a[1..], b, flag);
      Regroup(if a[0].pinned == flag then [a[0]] else [], Select(a[1..], flag), Select(b, flag));
    }
  }

  /** ... and each exactly when its pinned flag is `flag`. */
  lemma SelectsByFlag(m: Message, flag: bool)
    ensures Select([m], flag) == if m.pinned == flag then [m] else []
  {
    assert [m][1..] == [];
  }

  lemma Regroup<T>(a: seq<T>, b: seq<T>, c: seq<T>)
    ensures a + (b + c) == a + b + c
  {
  }

  // ----- The placeholder -----

  lemma {:induction false} SameNumeral(a: string, b: string, x: string, y: string)
    requires forall c :: c in a || c in b ==> IsDigit(c)
    requires |x| > 0 && |y| > 0 && !IsDigit(x[0]) && !IsDigit(y[0])
    requires a + x == b + y
    ensures a == b && x == y
  {
    assert (a != [] ==> a[0] in a) && (b != [] ==> b[0] in b);
    if a == [] || b == [] {
      assert (a + x)[0] == (b + y)[0];
      assert a + x == x && b + y == y;
    } else {
      assert (a + x)[0] == a[0] && (b + y)[0] == b[0];
      assert (a + x)[1..] == a[1..] + x && (b + y)[1..] == b[1..] + y;
      SameNumeral(a[1..], b[1..], x, y);
      assert a == [a[0]] + a[1..] && b == [b[0]] + b[1..];
    }
  }

  lemma SameMiddle(before: string, p: string, q: string, after: string)
    requires before + p + after == before + q + after
    ensures p == q
  {
    assert |p| == |q|;
    assert (before + p + after)[|before|..|before| + |p|] == p;
    assert (before + q + after)[|before|..|before| + |q|] == q;
  }

  /** The placeholder behind its number. */
  function PlaceholderTail(path: string): (r: string)
    ensures |r| > 0 && r[0] == ' '
  {
    " characters elided to " + path + " \U{2014} read that file to see the full output]"
  }

  lemma PlaceholderIs(size: nat, path: string)
    ensures Placeholder(size, path)[1..] == Decimal(size) + PlaceholderTail(path)
  {
    Behind('[', Decimal(size), " characters elided to ", path, " \U{2014} read that file to see the full output]");
  }

  lemma Behind(first: char, a: string, b: string, c: string, d: string)
    ensures ([first] + a + b + c + d)[1..] == a + (b + c + d)
  {
  }

  lemma SameTail(p: string, q: string)
    requires PlaceholderTail(p) == PlaceholderTail(q)
    ensures p == q
  {
    SameMiddle(" characters elided to ", p, q, " \U{2014} read that file to see the full output]");
  }

  /** A placeholder tells how much was taken out, and where it went. */
  lemma PlaceholderTells(size: nat, path: string, otherSize: nat, otherPath: string)
    ensures Placeholder(size, path) == Placeholder(otherSize, otherPath) <==> size == otherSize && path == otherPath
  {
    if Placeholder(size, path) == Placeholder(otherSize, otherPath) {
      PlaceholderIs(size, path);
      PlaceholderIs(otherSize, otherPath);
      SameNumeral(Decimal(size), Decimal(otherSize), PlaceholderTail(path), PlaceholderTail(otherPath));
      SameTail(path, otherPath);
      DecimalRoundTrip(size);
      DecimalRoundTrip(otherSize);
    }
  }

  // ----- The lossless pass -----

  /** A result that still carries an output whose JSON, or text, is longer than the threshold. */
  predicate IsBulky(options: Options, p: Part) {
    && p.ToolResult? && (p.elidedTo.None? || p.elidedTo == Some(""))
    && match p.output
       case Str(text) => |text| > options.elideOverChars
       case Other(compact, _) => |compact| > options.elideOverChars
       case Null => |"null"| > options.elideOverChars
       case Undefined => false
  }

  /** What stands for a bulky result: the same result, with its output on file. */
  predicate IsPlaceholderFor(options: Options, p: Part, q: Part)
    requires options.persist.Some? && p.ToolResult?
  {
    var path := options.persist.value(p.callId, p.output);
    && q.ToolResult? && q.callId == p.callId && q.toolName == p.toolName && q.isError == p.isError
    && q.elidedTo == Some(path) && q.output == Str(Placeholder(SizeOf(p.output), path))
  }

  /** Exactly the bulky results before the tail are replaced; everything else is as it was. */
  lemma ElidedPartByPart(options: Options, history: seq<Message>, i: nat, k: nat)
    requires options.persist.Some? && i < |history| && k < |history[i].parts|
    ensures var m, out := history[i], Elided(options, history)[i];
            && out.id == m.id && out.role == m.role && out.pinned == m.pinned && |out.parts| == |m.parts|
            && (if i < Boundary(history, options.keepRecent) && IsBulky(options, m.parts[k])
                then IsPlaceholderFor(options, m.parts[k], out.parts[k])
                else out.parts[k] == m.parts[k])
  {
    var b := Boundary(history, options.keepRecent);
    assert i < b ==> history[..b][i] == history[i];
  }

  lemma {:induction false} PartWritesAreBulky(options: Options, parts: seq<Part>)
    requires options.persist.Some?
    ensures |PartWrites(options, parts)| == CountParts(p => IsBulky(options, p), parts)
  {
    if parts != [] { PartWritesAreBulky(options, parts[1..]); }
  }

  /** One write for each of them. */
  lemma {:induction false} WritesAreBulky(options: Options, ms: seq<Message>)
    requires options.persist.Some?
    ensures |MessageWrites(options, ms)| == CountInHistory(p => IsBulky(options, p), ms)
  {
    if ms != [] {
      PartWritesAreBulky(options, ms[0].parts);
      WritesAreBulky(options, ms[1..]);
    }
  }

  // ----- Which pass runs -----

  /** The unpinned messages after the lossless pass, if there is one. */
  function AfterLossless(options: Options, input: seq<Message>): seq<Message> {
    if options.persist.Some? then Elided(options, Select(input, false)) else Select(input, false)
  }

  predicate DidElide(options: Options, input: seq<Message>) {
    options.persist.Some? && Writes(options, Select(input, false)) != []
  }

  /** Pinned messages and the rest after the lossless pass fit the budget. */
  predicate ElisionSuffices(options: Options, input: seq<Message>) {
    TokensOf(Select(input, true) + AfterLossless(options, input)) <= options.maxTokens
  }

  /** There is a summariser, and at least two messages between the head and the tail. */
  predicate CanSummarise(options: Options, history: seq<Message>) {
    options.summarise.Some? && options.keepFirst + 2 <= Boundary(history, options.keepRecent)
  }

  /** Fewer than two messages in the middle are not worth a summary: the lossy pass leaves the history alone. */
  lemma TooFewAreLeftAlone(options: Options, history: seq<Message>)
    requires options.summarise.Some? && !CanSummarise(options, history)
    ensures Summarised(options, history) == history
  {
  }

  /** A history within the budget is left alone. */
  lemma FittingIsUntouched(options: Options, input: seq<Message>)
    requires TokensOf(input) <= options.maxTokens
    ensures var r := Condensed(options, input);
            r.messages == input && !r.compacted && r.strategy == "none" && r.before == r.after
    ensures CondenseWrites(options, input) == []
  {
  }

  /** How the passes that ran are reported. */
  function Reported(elided: bool, summarised: bool): string {
    if elided && summarised then "elide-tool-outputs" + "+" + "summarise-middle"
    else if elided then "elide-tool-outputs"
    else if summarised then "summarise-middle"
    else "none"
  }

  lemma ReportedIs(elided: bool, summarised: bool)
    ensures var passes := (if elided then ["elide-tool-outputs"] else []) + (if summarised then ["summarise-middle"] else []);
            (passes != [] <==> elided || summarised)
            && (if passes == [] then "none" else Split.Join(passes, "+")) == Reported(elided, summarised)
  {
    if elided && summarised {
      assert ["elide-tool-outputs"] + ["summarise-middle"] == ["elide-tool-outputs", "summarise-middle"];
      assert ["elide-tool-outputs", "summarise-middle"][1..] == ["summarise-middle"];
    }
  }

  /** What leaves the condenser when the history is over budget, given what the lossy pass makes of it. */
  lemma PassesAreReported(options: Options, input: seq<Message>, history: seq<Message>, summarised: bool)
    requires TokensOf(input) > options.maxTokens
    requires AfterSummary(options, Select(input, true), AfterLossless(options, input)) == (history, summarised)
    ensures var r := Condensed(options, input);
            && r.messages == Select(input, true) + history
            && r.compacted == (DidElide(options, input) || summarised)
            && r.strategy == Reported(DidElide(options, input), summarised)
  {
    assert AfterElision(options, Select(input, false)) == (AfterLossless(options, input), DidElide(options, input));
    ReportedIs(DidElide(options, input), summarised);
  }

  lemma NothingToSummarise(options: Options, pinned: seq<Message>, history: seq<Message>)
    requires TokensOf(pinned + history) <= options.maxTokens || !CanSummarise(options, history)
    ensures AfterSummary(options, pinned, history) == (history, false)
  {
  }

  /** A history that the lossless pass brings within the budget, or that cannot be summarised, goes out with that pass alone. */
  lemma LosslessPassSuffices(options: Options, input: seq<Message>)
    requires TokensOf(input) > options.maxTokens
    requires ElisionSuffices(options, input) || !CanSummarise(options, AfterLossless(options, input))
    ensures var r := Condensed(options, input);
            && r.messages == Select(input, true) + AfterLossless(options, input)
            && r.compacted == DidElide(options, input)
            && r.strategy == if DidElide(options, input) then "elide-tool-outputs" else "none"
  {
    NothingToSummarise(options, Select(input, true), AfterLossless(options, input));
    PassesAreReported(options, input, AfterLossless(options, input), false);
  }

  /** Any other is summarised: pinned messages, head, one message for the middle, and the tail. */
  lemma LossyPassFollows(options: Options, input: seq<Message>)
    requires TokensOf(input) > options.maxTokens && !ElisionSuffices(options, input)
    requires CanSummarise(options, AfterLossless(options, input))
    ensures var r := Condensed(options, input);
            var h := AfterLossless(options, input);
            var b := Boundary(h, options.keepRecent);
            var middle := h[options.keepFirst..b];
            && (exists summary :: IsSummaryOf(summary, b, |middle|, options.summarise.value(middle))
                  && r.messages == Select(input, true) + (h[..options.keepFirst] + [summary] + h[b..]))
            && r.compacted && r.strategy == Reported(DidElide(options, input), true)
  {
    var h := AfterLossless(options, input);
    var b := Boundary(h, options.keepRecent);
    var middle := h[options.keepFirst..b];
    assert Middle(options, h) == middle;
    PassesAreReported(options, input, Summarised(options, h), true);
    var summary := SummaryMessage(b, |middle|, options.summarise.value(middle));
    assert IsSummaryOf(summary, b, |middle|, options.summarise.value(middle));
  }

  /** An unpinned assistant message that says how many messages it stands for and ends with their summary. */
  ghost predicate IsSummaryOf(m: Message, boundary: nat, size: nat, summary: string) {
    && m.role == Assistant && !m.pinned
    && m.id == "summary-" + Decimal(boundary) + "-" + Decimal(size)
    && |m.parts| == 1 && m.parts[0].TextPart?
    && m.parts[0].text == "[Earlier conversation summarised \U{2014} " + Decimal(size) + " messages]\n\n" + summary
  }

  /** The sizes reported are those of the messages before and after. */
  lemma SizesAreReported(options: Options, input: seq<Message>)
    ensures var r := Condensed(options, input);
            && r.before.messages == |input| && r.before.tokens == TokensOf(input)
            && r.after.messages == |r.messages| && r.after.tokens == TokensOf(r.messages)
  {
  }
}

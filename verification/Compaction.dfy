/** What compaction does to sizes: the token estimate, and a measure that every round lowers. */
module Compaction {
  import opened Common
  import opened Protocol
  import opened Tokens
  import opened Condenser
  import opened Text

  // ----- Termination -----

  predicate IsUnelided(p: Part) { p.ToolResult? && !Truthy(p.elidedTo) }

  /** Messages, plus tool results that still carry their output. */
  function Measure(ms: seq<Message>): nat { |ms| + CountInHistory(IsUnelided, ms) }

  /** The persist hook never answers with an empty path. */
  ghost predicate NamesFiles(options: Options) {
    options.persist.Some? ==> forall id, output :: options.persist.value(id, output) != ""
  }

  lemma {:induction false} ElidePartsCount(options: Options, parts: seq<Part>)
    requires options.persist.Some? && NamesFiles(options)
    ensures CountParts(IsUnelided, MapSeq(p => ElidePart(options, p), parts)) + |PartWrites(options, parts)|
         == CountParts(IsUnelided, parts)
  {
    if parts != [] {
      ElidePartsCount(options, parts[1..]);
      assert MapSeq(p => ElidePart(options, p), parts)[1..] == MapSeq(p => ElidePart(options, p), parts[1..]);
    }
  }

  lemma {:induction false} ElideMessagesCount(options: Options, ms: seq<Message>)
    requires options.persist.Some? && NamesFiles(options)
    ensures CountInHistory(IsUnelided, ElideMessages(options, ms)) + |MessageWrites(options, ms)|
         == CountInHistory(IsUnelided, ms)
  {
    if ms != [] {
      ElidePartsCount(options, ms[0].parts);
      ElideMessagesCount(options, ms[1..]);
      assert ElideMessages(options, ms)[1..] == ElideMessages(options, ms[1..]);
    }
  }

  /** The lossless pass lowers the measure by one for every write. */
  lemma ElidedMeasure(options: Options, history: seq<Message>)
    requires options.persist.Some? && NamesFiles(options)
    ensures Measure(Elided(options, history)) + |Writes(options, history)| == Measure(history)
  {
    var b := Boundary(history, options.keepRecent);
    ElideMessagesCount(options, history[..b]);
    CountAppend(IsUnelided, ElideMessages(options, history[..b]), history[b..]);
    CountAppend(IsUnelided, history[..b], history[b..]);
    assert history == history[..b] + history[b..];
  }

  /** A summary that replaces at least two messages lowers it too. */
  lemma SummarisedMeasure(options: Options, history: seq<Message>)
    requires options.summarise.Some? && |Middle(options, history)| >= 2
    ensures Measure(Summarised(options, history)) < Measure(history)
  {
    var b := Boundary(history, options.keepRecent);
    var middle := Middle(options, history);
    var head, tail := history[..options.keepFirst], history[b..];
    var summary := SummaryMessage(b, |middle|, options.summarise.value(middle));
    assert history == head + middle + tail;
    CountAppend(IsUnelided, head + middle, tail);
    CountAppend(IsUnelided, head, middle);
    CountAppend(IsUnelided, head + [summary], tail);
    CountAppend(IsUnelided, head, [summary]);
    assert summary.parts[1..] == [];
    assert CountParts(IsUnelided, summary.parts) == 0;
    assert [summary][1..] == [];
    assert CountInHistory(IsUnelided, [summary]) == 0;
  }

  /** Every round that reports a compaction strictly lowers the measure; no round raises it. */
  lemma CompactionProgresses(options: Options, input: seq<Message>)
    requires NamesFiles(options)
    ensures Condensed(options, input).compacted ==> Measure(Condensed(options, input).messages) < Measure(input)
    ensures !Condensed(options, input).compacted ==> Measure(Condensed(options, input).messages) == Measure(input)
  {
    if TokensOf(input) > options.maxTokens {
      var pinned, history := Select(input, true), Select(input, false);
      SelectCounts(IsUnelided, input);
      if options.persist.Some? {
        ElidedMeasure(options, history);
        if Writes(options, history) == [] {
          NothingElided(options, history);
        }
      }
      var elided := AfterElision(options, history).0;
      if AfterSummary(options, pinned, elided).1 {
        SummarisedMeasure(options, elided);
      }
      var out := AfterSummary(options, pinned, elided).0;
      CountAppend(IsUnelided, pinned, out);
    }
  }

  function Iterate(options: Options, input: seq<Message>, n: nat): seq<Message>
    decreases n
  {
    if n == 0 then input else Iterate(options, Condensed(options, input).messages, n - 1)
  }

  /** Condensing one's own output stops compacting within as many rounds as the measure says. */
  lemma {:induction false} CompactionTerminates(options: Options, input: seq<Message>) returns (n: nat)
    requires NamesFiles(options)
    ensures n <= Measure(input)
    ensures !Condensed(options, Iterate(options, input, n)).compacted
    decreases Measure(input)
  {
    n := 0;
    if Condensed(options, input).compacted {
      CompactionProgresses(options, input);
      var k := CompactionTerminates(options, Condensed(options, input).messages);
      n := k + 1;
    }
  }

  // ----- Token accounting -----

  lemma {:induction false} PlaceholderIsLong(size: nat, path: string)
    ensures |Placeholder(size, path)| > 4
  {
    assert |" characters elided to "| > 4;
  }

  lemma {:induction false} ElidePartsTokens(options: Options, parts: seq<Part>)
    requires options.persist.Some?
    requires forall w :: w in PartWrites(options, parts) ==> |Placeholder(SizeOf(w.output), w.path)| <= options.elideOverChars
    ensures PartsTokens(MapSeq(p => ElidePart(options, p), parts)) <= PartsTokens(parts)
  {
    if parts != [] {
      var p := parts[0];
      var own := if ShouldElide(options, p) then [Write(options.persist.value(p.callId, p.output), p.callId, p.output)] else [];
      assert PartWrites(options, parts) == own + PartWrites(options, parts[1..]);
      ElidePartsTokens(options, parts[1..]);
      assert MapSeq(p => ElidePart(options, p), parts)[1..] == MapSeq(p => ElidePart(options, p), parts[1..]);
      if ShouldElide(options, p) {
        assert own[0] in PartWrites(options, parts);
        PlaceholderIsLong(SizeOf(p.output), own[0].path);
      }
    }
  }

  lemma {:induction false} ElideMessagesTokens(options: Options, ms: seq<Message>)
    requires options.persist.Some?
    requires forall w :: w in MessageWrites(options, ms) ==> |Placeholder(SizeOf(w.output), w.path)| <= options.elideOverChars
    ensures TokensOf(ElideMessages(options, ms)) <= TokensOf(ms)
  {
    if ms != [] {
      ElidePartsTokens(options, ms[0].parts);
      ElideMessagesTokens(options, ms[1..]);
      assert ElideMessages(options, ms)[1..] == ElideMessages(options, ms[1..]);
    }
  }

  lemma FewerTokensBefore(fewer: seq<Message>, more: seq<Message>, tail: seq<Message>)
    requires TokensOf(fewer) <= TokensOf(more)
    ensures TokensOf(fewer + tail) <= TokensOf(more + tail)
  {
    TokensAppend(fewer, tail);
    TokensAppend(more, tail);
  }

  /** The lossless pass never raises the estimate when no placeholder is longer than the threshold. */
  lemma ElisionNeverRaises(options: Options, history: seq<Message>)
    requires options.persist.Some?
    requires forall w :: w in Writes(options, history) ==> |Placeholder(SizeOf(w.output), w.path)| <= options.elideOverChars
    ensures TokensOf(Elided(options, history)) <= TokensOf(history)
  {
    var b := Boundary(history, options.keepRecent);
    var before, tail := history[..b], history[b..];
    ElideMessagesTokens(options, before);
    FewerTokensBefore(ElideMessages(options, before), before, tail);
    assert history == before + tail;
  }

  /** After the lossy pass the estimate is that of the pinned part, the head, the summary and the tail. */
  lemma SummarisedTokens(options: Options, pinned: seq<Message>, history: seq<Message>)
    requires options.summarise.Some? && |Middle(options, history)| >= 2
    ensures var b := Boundary(history, options.keepRecent);
            var middle := history[options.keepFirst..b];
            var summary := SummaryMessage(b, |middle|, options.summarise.value(middle));
            && TokensOf(pinned + Summarised(options, history))
               == TokensOf(pinned) + TokensOf(history[..options.keepFirst]) + MessageTokens(summary) + TokensOf(history[b..])
            && TokensOf(history) == TokensOf(history[..options.keepFirst]) + TokensOf(middle) + TokensOf(history[b..])
  {
    var b := Boundary(history, options.keepRecent);
    var head, middle, tail := history[..options.keepFirst], history[options.keepFirst..b], history[b..];
    var summary := SummaryMessage(b, |middle|, options.summarise.value(middle));
    assert history == head + middle + tail;
    TokensAppend(head + middle, tail);
    TokensAppend(head, middle);
    TokensAppend(pinned, Summarised(options, history));
    TokensAppend(head + [summary], tail);
    TokensAppend(head, [summary]);
    assert [summary][1..] == [];
    assert TokensOf([summary]) == MessageTokens(summary) + TokensOf([]);
  }
}

/**
 * Recovery of elided outputs through the whole pipeline. Between two requests the
 * SDK's types carry the placeholder text and not the mark that it is one.
 */
module Recovery {
  import opened Common
  import opened Protocol
  import opened Adapter
  import opened Condenser
  import opened Elision
  import Artifacts
  import Pipeline
  import Tokens

  /** The text that stands for the output of a call. */
  function Stand(original: string -> Json, callId: string): string {
    Placeholder(SizeOf(original(callId)), PathFor(callId))
  }

  /** An output that is the original, or stands for it while the file of the call holds it. */
  predicate Recoverable(original: string -> Json, files: Files, callId: string, output: Json) {
    || output == original(callId)
    || (output == Str(Stand(original, callId)) && FileFor(callId) in files && files[FileFor(callId)] == Render(original(callId)))
  }

  /** Every tool result of the SDK's messages can be recovered. */
  ghost predicate AllRecoverable(original: string -> Json, files: Files, mm: seq<ModelMessage>) {
    forall x, a :: x in mm && x.ToolMessage? && a in x.tool && a.ToolAnswer? ==>
      Recoverable(original, files, a.callId, UnwrapOutput(a.output))
  }

  ghost predicate IsResult(p: Part, ms: seq<Message>) { p.ToolResult? && InHistory(p, ms) }

  /** The same of our own messages. */
  ghost predicate PartsRecoverable(original: string -> Json, files: Files, ms: seq<Message>) {
    forall p :: IsResult(p, ms) ==> Recoverable(original, files, p.callId, p.output)
  }

  /** Different calls have different files. */
  ghost predicate CallsHaveOwnFiles(ms: seq<Message>) {
    forall p, q :: IsResult(p, ms) && IsResult(q, ms) && FileFor(p.callId) == FileFor(q.callId) ==> p.callId == q.callId
  }

  /** The text that stands for an output is itself within the threshold, so it is never elided in turn. */
  predicate Fits(original: string -> Json, options: Options, callId: string) {
    |Stand(original, callId)| <= options.elideOverChars
  }

  /** Every placeholder that a pass looks at, and no other, is within the threshold. */
  ghost predicate PlaceholdersFit(original: string -> Json, options: Options, ms: seq<Message>) {
    forall p :: IsResult(p, ms[..Boundary(ms, options.keepRecent)]) && p.output != original(p.callId) ==>
      Fits(original, options, p.callId)
  }

  // ----- One pass -----

  lemma PrefixResult(p: Part, ms: seq<Message>, b: nat)
    requires b <= |ms| && IsResult(p, ms[..b])
    ensures IsResult(p, ms)
  {
    var m :| m in ms[..b] && p in m.parts;
    assert m in ms;
  }

  lemma WriteIsOriginal(original: string -> Json, options: Options, files: Files, ms: seq<Message>, w: Write) returns (p: Part)
    requires UsesWorkspace(options) && PartsRecoverable(original, files, ms) && PlaceholdersFit(original, options, ms)
    requires w in Writes(options, ms)
    ensures IsResult(p, ms) && p.callId == w.callId && w.path == PathFor(w.callId) && w.output == original(w.callId)
  {
    var before := ms[..Boundary(ms, options.keepRecent)];
    var m;
    m, p := WriteHasPart(options, before, w);
    assert IsResult(p, before);
    PrefixResult(p, ms, Boundary(ms, options.keepRecent));
  }

  /** A result that stood for its output still does, and one that is elided now does from now on. */
  lemma FileOfCall(original: string -> Json, options: Options, files: Files, ms: seq<Message>, order: seq<Write>, p: Part)
    requires UsesWorkspace(options) && PartsRecoverable(original, files, ms) && PlaceholdersFit(original, options, ms)
    requires CallsHaveOwnFiles(ms) && multiset(order) == multiset(Writes(options, ms)) && IsResult(p, ms)
    requires (exists w :: w in order && FileOf(w.path) == FileFor(p.callId))
          || (FileFor(p.callId) in files && files[FileFor(p.callId)] == Render(original(p.callId)))
    ensures FileFor(p.callId) in WriteAll(files, order)
    ensures WriteAll(files, order)[FileFor(p.callId)] == Render(original(p.callId))
  {
    forall w | w in order && FileOf(w.path) == FileFor(p.callId) ensures Render(w.output) == Render(original(p.callId)) {
      assert w in multiset(order);
      var q := WriteIsOriginal(original, options, files, ms, w);
      assert q.callId == p.callId;
    }
    WriteAllAt(files, order, FileFor(p.callId), Render(original(p.callId)));
  }

  lemma PartAfterPass(original: string -> Json, options: Options, files: Files, ms: seq<Message>, order: seq<Write>, i: nat, p: Part)
    requires UsesWorkspace(options) && PartsRecoverable(original, files, ms) && PlaceholdersFit(original, options, ms)
    requires CallsHaveOwnFiles(ms) && multiset(order) == multiset(Writes(options, ms))
    requires i < |ms| && p in ms[i].parts && p.ToolResult?
    ensures Recoverable(original, WriteAll(files, order), p.callId, p.output)
    ensures i < Boundary(ms, options.keepRecent) ==>
      Recoverable(original, WriteAll(files, order), p.callId, ElidePart(options, p).output)
  {
    assert ms[i] in ms && IsResult(p, ms);
    if p.output != original(p.callId) {
      FileOfCall(original, options, files, ms, order, p);
    }
    if i < Boundary(ms, options.keepRecent) && ShouldElide(options, p) {
      var w := OwnWrite(options, ms, i, p);
      assert w in multiset(order);
      FileOfCall(original, options, files, ms, order, p);
      assert IsResult(p, ms[..Boundary(ms, options.keepRecent)]) by {
        assert ms[..Boundary(ms, options.keepRecent)][i] in ms[..Boundary(ms, options.keepRecent)];
      }
    }
  }

  lemma OwnWrite(options: Options, ms: seq<Message>, i: nat, p: Part) returns (w: Write)
    requires UsesWorkspace(options) && i < Boundary(ms, options.keepRecent) && p in ms[i].parts && ShouldElide(options, p)
    ensures w == Write(PathFor(p.callId), p.callId, p.output) && w in Writes(options, ms)
  {
    var before := ms[..Boundary(ms, options.keepRecent)];
    MessageWritesAre(options, before);
    assert before[i] in before && p in before[i].parts;
    w := Write(PathFor(p.callId), p.callId, p.output);
  }

  /** A part of the elided history is a part of the history, or what elision makes of one before the boundary. */
  lemma ElidedFrom(options: Options, ms: seq<Message>, q: Part) returns (i: nat, p: Part)
    requires options.persist.Some? && InHistory(q, Elided(options, ms))
    ensures i < |ms| && p in ms[i].parts
    ensures q == p || (i < Boundary(ms, options.keepRecent) && q == ElidePart(options, p))
  {
    var out := Elided(options, ms);
    var m :| m in out && q in m.parts;
    i :| 0 <= i < |out| && out[i] == m;
    ElidedAt(options, ms, i);
    var k :| 0 <= k < |m.parts| && m.parts[k] == q;
    p := ms[i].parts[k];
  }

  lemma PassKeepsRecoverable(original: string -> Json, options: Options, files: Files, ms: seq<Message>, order: seq<Write>)
    requires UsesWorkspace(options) && PartsRecoverable(original, files, ms) && PlaceholdersFit(original, options, ms)
    requires CallsHaveOwnFiles(ms) && multiset(order) == multiset(Writes(options, ms))
    ensures PartsRecoverable(original, WriteAll(files, order), Elided(options, ms))
  {
    forall q | IsResult(q, Elided(options, ms)) ensures Recoverable(original, WriteAll(files, order), q.callId, q.output) {
      var i, p := ElidedFrom(options, ms, q);
      PartAfterPass(original, options, files, ms, order, i, p);
    }
  }

  /** No output is written like the placeholder of its own call. */
  ghost predicate NoOutputIsPlaceholder(original: string -> Json) {
    forall id, n: nat :: Render(original(id)) != Placeholder(n, PathFor(id))
  }

  /** Where files identify results, all writes to the file of a result persist that result. */
  lemma WritesToOwnFile(options: Options, ms: seq<Message>, p: Part, w: Write)
    requires UsesWorkspace(options) && FilesIdentifyResults(ms) && IsResult(p, ms)
    requires w in Writes(options, ms) && FileOf(w.path) == FileFor(p.callId)
    ensures w.output == p.output
  {
    var b := Boundary(ms, options.keepRecent);
    var m, q := WriteHasPart(options, ms[..b], w);
    assert IsResult(q, ms[..b]);
    PrefixResult(q, ms, b);
  }

  /** The file of a result that is elided holds its output as it was. */
  lemma FileOfElided(options: Options, files: Files, ms: seq<Message>, order: seq<Write>, i: nat, p: Part)
    requires UsesWorkspace(options) && FilesIdentifyResults(ms) && multiset(order) == multiset(Writes(options, ms))
    requires i < Boundary(ms, options.keepRecent) && p in ms[i].parts && ShouldElide(options, p)
    ensures FileFor(p.callId) in WriteAll(files, order) && WriteAll(files, order)[FileFor(p.callId)] == Render(p.output)
  {
    assert ms[i] in ms && IsResult(p, ms);
    var own := OwnWrite(options, ms, i, p);
    assert own in multiset(order);
    forall w | w in order && FileOf(w.path) == FileFor(p.callId) ensures Render(w.output) == Render(p.output) {
      assert w in multiset(order);
      WritesToOwnFile(options, ms, p, w);
    }
    WriteAllAt(files, order, FileFor(p.callId), Render(p.output));
  }

  /** A placeholder over the threshold is elided again: its text replaces the output in the file, and is lost in turn. */
  lemma LongPlaceholderLosesOutput(original: string -> Json, options: Options, files: Files, ms: seq<Message>, order: seq<Write>, i: nat, p: Part)
    requires UsesWorkspace(options) && PartsRecoverable(original, files, ms) && NoOutputIsPlaceholder(original)
    requires FilesIdentifyResults(ms) && Unelided(ms) && multiset(order) == multiset(Writes(options, ms))
    requires i < Boundary(ms, options.keepRecent) && p in ms[i].parts && p.ToolResult?
    requires p.output != original(p.callId) && !Fits(original, options, p.callId)
    ensures !Recoverable(original, WriteAll(files, order), p.callId, ElidePart(options, p).output)
  {
    assert ms[i] in ms && IsResult(p, ms);
    var stand := Stand(original, p.callId);
    assert p.output == Str(stand) && p.elidedTo == None;
    FileOfElided(options, files, ms, order, i, p);
    var text := Placeholder(|stand|, PathFor(p.callId));
    assert ElidePart(options, p).output == Str(text);
    NotAPlaceholder(original, p.callId, SizeOf(original(p.callId)));
    NotAPlaceholder(original, p.callId, |stand|);
  }

  lemma NotAPlaceholder(original: string -> Json, id: string, n: nat)
    requires NoOutputIsPlaceholder(original)
    ensures Render(original(id)) != Placeholder(n, PathFor(id)) && original(id) != Str(Placeholder(n, PathFor(id)))
  {
  }

  lemma MisfitIsLost(original: string -> Json, options: Options, files: Files, ms: seq<Message>, order: seq<Write>)
    requires UsesWorkspace(options) && PartsRecoverable(original, files, ms) && NoOutputIsPlaceholder(original)
    requires FilesIdentifyResults(ms) && Unelided(ms) && multiset(order) == multiset(Writes(options, ms))
    requires !PlaceholdersFit(original, options, ms)
    ensures !PartsRecoverable(original, WriteAll(files, order), Elided(options, ms))
  {
    var b := Boundary(ms, options.keepRecent);
    var p :| IsResult(p, ms[..b]) && p.output != original(p.callId) && !Fits(original, options, p.callId);
    var i := IndexOfResult(p, ms, b);
    LongPlaceholderLosesOutput(original, options, files, ms, order, i, p);
    ElidedHasPart(options, ms, i, p);
  }

  lemma SameFilesSameCalls(ms: seq<Message>)
    requires FilesIdentifyResults(ms)
    ensures CallsHaveOwnFiles(ms)
  {
  }

  /** A pass keeps everything recoverable exactly when every placeholder it looks at is within the threshold. */
  lemma PassKeepsRecoverableIff(original: string -> Json, options: Options, files: Files, ms: seq<Message>, order: seq<Write>)
    requires UsesWorkspace(options) && PartsRecoverable(original, files, ms) && NoOutputIsPlaceholder(original)
    requires FilesIdentifyResults(ms) && Unelided(ms) && multiset(order) == multiset(Writes(options, ms))
    ensures PartsRecoverable(original, WriteAll(files, order), Elided(options, ms)) <==> PlaceholdersFit(original, options, ms)
  {
    if PlaceholdersFit(original, options, ms) {
      SameFilesSameCalls(ms);
      PassKeepsRecoverable(original, options, files, ms, order);
    } else {
      MisfitIsLost(original, options, files, ms, order);
    }
  }

  lemma IndexOfResult(p: Part, ms: seq<Message>, b: nat) returns (i: nat)
    requires b <= |ms| && IsResult(p, ms[..b])
    ensures i < b && p in ms[i].parts
  {
    var m :| m in ms[..b] && p in m.parts;
    i :| 0 <= i < b && ms[..b][i] == m;
  }

  lemma ElidedHasPart(options: Options, ms: seq<Message>, i: nat, p: Part)
    requires options.persist.Some? && i < Boundary(ms, options.keepRecent) && p in ms[i].parts && p.ToolResult?
    ensures IsResult(ElidePart(options, p), Elided(options, ms))
  {
    var out := Elided(options, ms);
    assert out[i] == ElideMessage(options, ms[i]) && out[i] in out;
    var k :| 0 <= k < |ms[i].parts| && ms[i].parts[k] == p;
    assert out[i].parts[k] == ElidePart(options, p) && out[i].parts[k] in out[i].parts;
  }

  // ----- The other steps only drop results -----

  /** Every result of `out` is a result of `ms`. */
  ghost predicate ResultsFrom(out: seq<Message>, ms: seq<Message>) {
    forall p :: IsResult(p, out) ==> IsResult(p, ms)
  }

  lemma {:induction false} SelectMembers(ms: seq<Message>, flag: bool)
    ensures forall m :: m in Select(ms, flag) ==> m in ms
  {
    if ms != [] { SelectMembers(ms[1..], flag); }
  }

  lemma SummarisedResults(options: Options, ms: seq<Message>)
    requires options.summarise.Some?
    ensures ResultsFrom(Summarised(options, ms), ms)
  {
    var b := Boundary(ms, options.keepRecent);
    var middle := Middle(options, ms);
    if |middle| >= 2 {
      var summary := SummaryMessage(b, |middle|, options.summarise.value(middle));
      forall p | IsResult(p, Summarised(options, ms)) ensures IsResult(p, ms) {
        var m :| m in Summarised(options, ms) && p in m.parts;
        assert m != summary;
        assert m in ms[..options.keepFirst] || m in ms[b..];
        assert m in ms;
      }
    }
  }

  /** Whether the lossless pass runs. */
  predicate PassRuns(options: Options, ms: seq<Message>) { Tokens.TokensOf(ms) > options.maxTokens && options.persist.Some? }

  /** The history after the lossless pass, where that pass runs. */
  function Passed(options: Options, ms: seq<Message>): seq<Message> {
    if PassRuns(options, ms) then Elided(options, ms) else ms
  }

  lemma CondensedResults(options: Options, ms: seq<Message>)
    requires forall m :: m in ms ==> !m.pinned
    ensures ResultsFrom(Condensed(options, ms).messages, Passed(options, ms))
  {
    SelectAll(ms);
    if Tokens.TokensOf(ms) > options.maxTokens {
      var elided := AfterElision(options, ms).0;
      assert elided == Passed(options, ms);
      if options.summarise.Some? { SummarisedResults(options, elided); }
      assert [] + AfterSummary(options, [], elided).0 == AfterSummary(options, [], elided).0;
    }
  }

  lemma StrippedResults(lower: string -> string, vendor: string, ms: seq<Message>)
    ensures ResultsFrom(Artifacts.Stripped(lower, vendor, ms), ms)
  {
    var out := Artifacts.Stripped(lower, vendor, ms);
    forall p | IsResult(p, out) ensures IsResult(p, ms) {
      var m :| m in out && p in m.parts;
      var i :| 0 <= i < |out| && out[i] == m;
      Artifacts.KeptPartsMembers(lower, vendor, ms[i].parts);
      assert ms[i] in ms && p in ms[i].parts;
    }
  }

  // ----- To the SDK and back -----

  lemma ToolMessageParts(m: Message, x: ModelMessage)
    requires x in ToModel(m) && x.ToolMessage?
    ensures x.tool == ToToolParts(m.parts)
  {
  }

  /** An answer that is sent is a result of ours, with its output wrapped. */
  lemma SentAnswer(ms: seq<Message>, x: ModelMessage, a: ToolPart) returns (p: Part)
    requires x in ToModelAll(ms) && x.ToolMessage? && a in x.tool && a.ToolAnswer?
    ensures IsResult(p, ms) && p.callId == a.callId && p.output == UnwrapOutput(a.output)
  {
    FlatMapMember(ToModel, ms, x);
    var m :| m in ms && x in ToModel(m);
    ToolMessageParts(m, x);
    FlatMapMember(ToToolPart, m.parts, a);
    p :| p in m.parts && a in ToToolPart(p);
  }

  lemma SentRecoverable(original: string -> Json, files: Files, ms: seq<Message>)
    requires PartsRecoverable(original, files, ms)
    ensures AllRecoverable(original, files, ToModelAll(ms))
  {
    forall x, a | x in ToModelAll(ms) && x.ToolMessage? && a in x.tool && a.ToolAnswer?
      ensures Recoverable(original, files, a.callId, UnwrapOutput(a.output))
    {
      var p := SentAnswer(ms, x, a);
    }
  }

  /** A result that is read back is an answer of the SDK's, and carries no mark. */
  lemma ReadAnswer(mm: seq<ModelMessage>, p: Part) returns (x: ModelMessage, a: ToolPart)
    requires IsResult(p, FromModelAll(mm))
    ensures x in mm && x.ToolMessage? && a in x.tool && a.ToolAnswer?
    ensures p == ToolResult(a.callId, a.toolName, UnwrapOutput(a.output), false, None)
  {
    var ms := FromModelAll(mm);
    var m :| m in ms && p in m.parts;
    var i :| 0 <= i < |ms| && ms[i] == m;
    x := mm[i];
    a := AnswerOfPart(x, i, p);
  }

  lemma AnswerOfPart(x: ModelMessage, i: nat, p: Part) returns (a: ToolPart)
    requires p in FromModel(x, i).parts && p.ToolResult?
    ensures x.ToolMessage? && a in x.tool && a.ToolAnswer?
    ensures p == ToolResult(a.callId, a.toolName, UnwrapOutput(a.output), false, None)
  {
    match x
    case UserMessage(user) =>
      FlatMapMember(FromUserPart, user, p);
      a := ToolOther;
    case AssistantMessage(assistant) =>
      FlatMapMember(FromAssistantPart, assistant, p);
      a := ToolOther;
    case ToolMessage(tool) =>
      FlatMapMember(FromToolPart, tool, p);
      a :| a in tool && p in FromToolPart(a);
    case _ =>
      a := ToolOther;
  }

  lemma ReadRecoverable(original: string -> Json, files: Files, mm: seq<ModelMessage>)
    requires AllRecoverable(original, files, mm)
    ensures PartsRecoverable(original, files, FromModelAll(mm))
  {
    forall p | IsResult(p, FromModelAll(mm)) ensures Recoverable(original, files, p.callId, p.output) {
      var x, a := ReadAnswer(mm, p);
    }
  }

  // ----- Rounds -----

  datatype Exchange = Exchange(sent: seq<ModelMessage>, files: Files)

  /** The SDK appends what it received, and the next request is prepared; `order` is how the persist calls completed. */
  datatype Round = Round(appended: seq<ModelMessage>, options: Options, vendor: string, order: seq<Write>)

  function AfterRound(lower: string -> string, s: Exchange, r: Round): Exchange {
    Exchange(Pipeline.Prepared(lower, r.options, r.vendor, s.sent + r.appended), WriteAll(s.files, r.order))
  }

  function AfterRounds(lower: string -> string, s: Exchange, rounds: seq<Round>): Exchange
    decreases |rounds|
  {
    if rounds == [] then s else AfterRounds(lower, AfterRound(lower, s, rounds[0]), rounds[1..])
  }

  /** One more round is one more request, on what the rounds before have left. */
  lemma {:induction false} OneMoreRound(lower: string -> string, s: Exchange, rounds: seq<Round>, last: Round)
    ensures AfterRounds(lower, s, rounds + [last]) == AfterRound(lower, AfterRounds(lower, s, rounds), last)
    decreases |rounds|
  {
    if rounds == [] {
      assert rounds + [last] == [last] && [last][1..] == [];
      assert AfterRounds(lower, s, [last]) == AfterRounds(lower, AfterRound(lower, s, last), []);
    } else {
      assert (rounds + [last])[1..] == rounds[1..] + [last];
      OneMoreRound(lower, AfterRound(lower, s, rounds[0]), rounds[1..], last);
    }
  }

  /** What the SDK appends carries the outputs of its calls, different calls have different files, and the hook is the session's. */
  ghost predicate IsRound(original: string -> Json, s: Exchange, r: Round) {
    var ours := FromModelAll(s.sent + r.appended);
    && (r.options.persist.Some? ==> UsesWorkspace(r.options))
    && multiset(r.order) == multiset(CondenseWrites(r.options, ours))
    && CallsHaveOwnFiles(ours)
    && (forall x, a :: x in r.appended && x.ToolMessage? && a in x.tool && a.ToolAnswer? ==>
          UnwrapOutput(a.output) == original(a.callId))
  }

  /** If the lossless pass runs in this round, the placeholders it looks at are within its threshold. */
  ghost predicate RoundFits(original: string -> Json, s: Exchange, r: Round) {
    var ours := FromModelAll(s.sent + r.appended);
    PassRuns(r.options, ours) ==> PlaceholdersFit(original, r.options, ours)
  }

  ghost predicate AreRounds(lower: string -> string, original: string -> Json, s: Exchange, rounds: seq<Round>)
    decreases |rounds|
  {
    rounds == [] || (IsRound(original, s, rounds[0]) && AreRounds(lower, original, AfterRound(lower, s, rounds[0]), rounds[1..]))
  }

  ghost predicate RoundsFit(lower: string -> string, original: string -> Json, s: Exchange, rounds: seq<Round>)
    decreases |rounds|
  {
    rounds == [] || (RoundFits(original, s, rounds[0]) && RoundsFit(lower, original, AfterRound(lower, s, rounds[0]), rounds[1..]))
  }

  lemma ReadUnpinned(mm: seq<ModelMessage>)
    ensures forall m :: m in FromModelAll(mm) ==> !m.pinned
  {
  }

  lemma NoWritesNoOrder(order: seq<Write>)
    requires multiset(order) == multiset([])
    ensures order == []
  {
    assert |multiset(order)| == 0;
  }

  lemma PassedRecoverable(original: string -> Json, options: Options, files: Files, ms: seq<Message>, order: seq<Write>)
    requires options.persist.Some? ==> UsesWorkspace(options)
    requires PartsRecoverable(original, files, ms) && CallsHaveOwnFiles(ms) && forall m :: m in ms ==> !m.pinned
    requires PassRuns(options, ms) ==> PlaceholdersFit(original, options, ms)
    requires multiset(order) == multiset(CondenseWrites(options, ms))
    ensures PartsRecoverable(original, WriteAll(files, order), Passed(options, ms))
  {
    SelectAll(ms);
    if PassRuns(options, ms) {
      PassKeepsRecoverable(original, options, files, ms, order);
    } else {
      NoWritesNoOrder(order);
    }
  }

  lemma FewerRecoverable(original: string -> Json, files: Files, out: seq<Message>, ms: seq<Message>)
    requires ResultsFrom(out, ms) && PartsRecoverable(original, files, ms)
    ensures PartsRecoverable(original, files, out)
  {
  }

  /** The steps behind the lossless pass drop results and change none. */
  lemma SentFromPassed(lower: string -> string, original: string -> Json, options: Options, vendor: string, files: Files, mm: seq<ModelMessage>)
    requires PartsRecoverable(original, files, Passed(options, FromModelAll(mm)))
    ensures AllRecoverable(original, files, Pipeline.Prepared(lower, options, vendor, mm))
  {
    var ours := FromModelAll(mm);
    var condensed := Condensed(options, ours).messages;
    var stripped := Artifacts.Stripped(lower, vendor, condensed);
    ReadUnpinned(mm);
    CondensedResults(options, ours);
    FewerRecoverable(original, files, condensed, Passed(options, ours));
    StrippedResults(lower, vendor, condensed);
    FewerRecoverable(original, files, stripped, condensed);
    SentRecoverable(original, files, stripped);
  }

  /** One round, with any options: every result that is still sent stays recoverable. */
  lemma RoundKeepsRecoverable(lower: string -> string, original: string -> Json, s: Exchange, r: Round)
    requires AllRecoverable(original, s.files, s.sent) && IsRound(original, s, r) && RoundFits(original, s, r)
    ensures AllRecoverable(original, AfterRound(lower, s, r).files, AfterRound(lower, s, r).sent)
  {
    ReadRecoverable(original, s.files, s.sent + r.appended);
    ReadUnpinned(s.sent + r.appended);
    PassedRecoverable(original, r.options, s.files, FromModelAll(s.sent + r.appended), r.order);
    SentFromPassed(lower, original, r.options, r.vendor, WriteAll(s.files, r.order), s.sent + r.appended);
  }

  /**
   * Over any number of requests, each with options, a vendor and a write order of
   * its own: every result that is still sent is the output of its call, or a
   * placeholder whose file holds it.
   */
  lemma {:induction false} RoundsKeepRecoverable(lower: string -> string, original: string -> Json, s: Exchange, rounds: seq<Round>)
    requires AllRecoverable(original, s.files, s.sent) && AreRounds(lower, original, s, rounds)
    requires RoundsFit(lower, original, s, rounds)
    ensures var t := AfterRounds(lower, s, rounds); AllRecoverable(original, t.files, t.sent)
    decreases |rounds|
  {
    if rounds != [] {
      RoundKeepsRecoverable(lower, original, s, rounds[0]);
      RoundsKeepRecoverable(lower, original, AfterRound(lower, s, rounds[0]), rounds[1..]);
    }
  }

  // ----- The condition is exact -----

  lemma PassedRecoverableIff(original: string -> Json, options: Options, files: Files, ms: seq<Message>, order: seq<Write>)
    requires (options.persist.Some? ==> UsesWorkspace(options)) && NoOutputIsPlaceholder(original)
    requires PartsRecoverable(original, files, ms) && FilesIdentifyResults(ms) && Unelided(ms) && forall m :: m in ms ==> !m.pinned
    requires multiset(order) == multiset(CondenseWrites(options, ms))
    ensures PartsRecoverable(original, WriteAll(files, order), Passed(options, ms))
       <==> (PassRuns(options, ms) ==> PlaceholdersFit(original, options, ms))
  {
    SelectAll(ms);
    if PassRuns(options, ms) {
      PassKeepsRecoverableIff(original, options, files, ms, order);
    } else {
      NoWritesNoOrder(order);
    }
  }

  /** Results sit in tool messages. */
  ghost predicate ResultsInToolMessages(ms: seq<Message>) {
    forall m, p :: m in ms && p in m.parts && p.ToolResult? ==> m.role == Tool
  }

  lemma ReadInToolMessages(mm: seq<ModelMessage>)
    ensures ResultsInToolMessages(FromModelAll(mm)) && Unelided(FromModelAll(mm))
  {
    var ms := FromModelAll(mm);
    forall m, p | m in ms && p in m.parts && p.ToolResult? ensures m.role == Tool {
      var i :| 0 <= i < |ms| && ms[i] == m;
      var a := AnswerOfPart(mm[i], i, p);
    }
    forall p | InHistory(p, ms) && p.ToolResult? ensures p.elidedTo == None {
      var x, a := ReadAnswer(mm, p);
    }
  }

  lemma PassedInToolMessages(options: Options, ms: seq<Message>)
    requires ResultsInToolMessages(ms)
    ensures ResultsInToolMessages(Passed(options, ms))
  {
    if PassRuns(options, ms) {
      var out := Elided(options, ms);
      forall m, q | m in out && q in m.parts && q.ToolResult? ensures m.role == Tool {
        var i :| 0 <= i < |out| && out[i] == m;
        assert out[i] == if i < Boundary(ms, options.keepRecent) then ElideMessage(options, ms[i]) else ms[i];
        var k :| 0 <= k < |m.parts| && m.parts[k] == q;
        assert ms[i] in ms && ms[i].parts[k] in ms[i].parts && ms[i].parts[k].ToolResult?;
      }
    }
  }

  /** A result in a tool message is sent, whatever the filter drops beside it. */
  lemma ResultIsSent(lower: string -> string, vendor: string, ms: seq<Message>, p: Part) returns (x: ModelMessage, a: ToolPart)
    requires IsResult(p, ms) && ResultsInToolMessages(ms)
    ensures x in ToModelAll(Artifacts.Stripped(lower, vendor, ms)) && x.ToolMessage? && a in x.tool
    ensures a.ToolAnswer? && a.callId == p.callId && UnwrapOutput(a.output) == p.output
  {
    var m :| m in ms && p in m.parts;
    var i :| 0 <= i < |ms| && ms[i] == m;
    var stripped := Artifacts.Stripped(lower, vendor, ms);
    var n := stripped[i];
    Artifacts.KeptPartsMembers(lower, vendor, m.parts);
    x, a := ToolMessageHolds(n, p);
    Pipeline.FlatMapContains(ToModel, stripped, n);
  }

  lemma ToolMessageHolds(m: Message, p: Part) returns (x: ModelMessage, a: ToolPart)
    requires m.role == Tool && p in m.parts && p.ToolResult?
    ensures x in ToModel(m) && x.ToolMessage? && a in x.tool
    ensures a.ToolAnswer? && a.callId == p.callId && UnwrapOutput(a.output) == p.output
  {
    a := ToToolPart(p)[0];
    Pipeline.FlatMapContains(ToToolPart, m.parts, p);
    assert a in ToToolPart(p) && a in ToToolParts(m.parts);
    x := ToolMessage(ToToolParts(m.parts));
  }

  lemma SentFromPassedIff(lower: string -> string, original: string -> Json, options: Options, vendor: string, files: Files, mm: seq<ModelMessage>)
    requires options.summarise.None?
    ensures AllRecoverable(original, files, Pipeline.Prepared(lower, options, vendor, mm))
       <==> PartsRecoverable(original, files, Passed(options, FromModelAll(mm)))
  {
    var ours := FromModelAll(mm);
    var passed := Passed(options, ours);
    ReadUnpinned(mm);
    SelectAll(ours);
    assert Condensed(options, ours).messages == passed by {
      assert [] + passed == passed;
    }
    if PartsRecoverable(original, files, passed) {
      SentFromPassed(lower, original, options, vendor, files, mm);
    }
    if AllRecoverable(original, files, Pipeline.Prepared(lower, options, vendor, mm)) {
      ReadInToolMessages(mm);
      PassedInToolMessages(options, ours);
      forall p | IsResult(p, passed) ensures Recoverable(original, files, p.callId, p.output) {
        var x, a := ResultIsSent(lower, vendor, passed, p);
      }
    }
  }

  /** One round without the lossy pass keeps everything recoverable exactly when its placeholders fit. */
  lemma RoundKeepsRecoverableIff(lower: string -> string, original: string -> Json, s: Exchange, r: Round)
    requires AllRecoverable(original, s.files, s.sent) && IsRound(original, s, r) && r.options.summarise.None?
    requires NoOutputIsPlaceholder(original) && FilesIdentifyResults(FromModelAll(s.sent + r.appended))
    ensures AllRecoverable(original, AfterRound(lower, s, r).files, AfterRound(lower, s, r).sent) <==> RoundFits(original, s, r)
  {
    ReadRecoverable(original, s.files, s.sent + r.appended);
    ReadUnpinned(s.sent + r.appended);
    ReadInToolMessages(s.sent + r.appended);
    PassedRecoverableIff(original, r.options, s.files, FromModelAll(s.sent + r.appended), r.order);
    SentFromPassedIff(lower, original, r.options, r.vendor, WriteAll(s.files, r.order), s.sent + r.appended);
  }

  /** Rounds without the lossy pass, in which no call has two results. */
  ghost predicate AreLosslessRounds(lower: string -> string, original: string -> Json, s: Exchange, rounds: seq<Round>)
    decreases |rounds|
  {
    rounds == []
    || (&& IsRound(original, s, rounds[0]) && rounds[0].options.summarise.None?
        && FilesIdentifyResults(FromModelAll(s.sent + rounds[0].appended))
        && AreLosslessRounds(lower, original, AfterRound(lower, s, rounds[0]), rounds[1..]))
  }

  /** After every round, all that was sent is recoverable. */
  ghost predicate RecoverableThroughout(lower: string -> string, original: string -> Json, s: Exchange, rounds: seq<Round>)
    decreases |rounds|
  {
    && AllRecoverable(original, s.files, s.sent)
    && (rounds == [] || RecoverableThroughout(lower, original, AfterRound(lower, s, rounds[0]), rounds[1..]))
  }

  /** Without the lossy pass, the runs in which everything stays recoverable are exactly those whose placeholders fit. */
  lemma {:induction false} RoundsKeepRecoverableIff(lower: string -> string, original: string -> Json, s: Exchange, rounds: seq<Round>)
    requires AllRecoverable(original, s.files, s.sent) && AreLosslessRounds(lower, original, s, rounds)
    requires NoOutputIsPlaceholder(original)
    ensures RecoverableThroughout(lower, original, s, rounds) <==> RoundsFit(lower, original, s, rounds)
    decreases |rounds|
  {
    if rounds != [] {
      RoundKeepsRecoverableIff(lower, original, s, rounds[0]);
      if RoundFits(original, s, rounds[0]) {
        RoundsKeepRecoverableIff(lower, original, AfterRound(lower, s, rounds[0]), rounds[1..]);
      }
    }
  }

  // ----- One placeholder -----

  /** No other result has this file. */
  ghost predicate OnlyResult(ms: seq<Message>, q: Part)
    requires q.ToolResult?
  {
    forall p :: IsResult(p, ms) && FileFor(p.callId) == FileFor(q.callId) ==> p == q
  }

  /**
   * A placeholder that was read back and lies before the boundary, whatever the
   * rest of the history is: the pass leaves the output in its file exactly when
   * the placeholder is within the threshold.
   */
  lemma PlaceholderKeepsFileIff(
      original: string -> Json, options: Options, files: Files, ms: seq<Message>, order: seq<Write>, i: nat, q: Part)
    requires UsesWorkspace(options) && multiset(order) == multiset(Writes(options, ms))
    requires i < Boundary(ms, options.keepRecent) && q in ms[i].parts && q.ToolResult? && q.elidedTo == None && OnlyResult(ms, q)
    requires q.output == Str(Stand(original, q.callId)) && Stand(original, q.callId) != Render(original(q.callId))
    requires FileFor(q.callId) in files && files[FileFor(q.callId)] == Render(original(q.callId))
    ensures FileFor(q.callId) in WriteAll(files, order)
    ensures WriteAll(files, order)[FileFor(q.callId)] == Render(original(q.callId)) <==> Fits(original, options, q.callId)
  {
    var b, file := Boundary(ms, options.keepRecent), FileFor(q.callId);
    forall w | w in order && FileOf(w.path) == file ensures !Fits(original, options, q.callId) && w.output == q.output {
      assert w in multiset(order) && w in Writes(options, ms);
      var m, p := WriteHasPart(options, ms[..b], w);
      assert IsResult(p, ms[..b]);
      PrefixResult(p, ms, b);
    }
    if Fits(original, options, q.callId) {
      WriteAllAt(files, order, file, Render(original(q.callId)));
    } else {
      var own := OwnWrite(options, ms, i, q);
      assert own in multiset(order);
      WriteAllAt(files, order, file, Stand(original, q.callId));
    }
  }
}

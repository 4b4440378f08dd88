/**
 * Preparing one's own requests again and again: when compaction comes to an end
 * although the SDK's types forget which outputs are placeholders.
 */
module Settling {
  import opened Common
  import opened Protocol
  import opened Adapter
  import opened Condenser
  import opened Pipeline
  import opened Elision
  import AnsweredRequests
  import Artifacts
  import Recovery
  import Tokens

  /** A result that the lossless pass would elide. */
  function IsOver(options: Options): Part -> bool { (p: Part) => p.ToolResult? && SizeOf(p.output) > options.elideOverChars }

  /** The text that elision would put in its place. */
  function TextFor(options: Options, p: Part): string
    requires options.persist.Some? && p.ToolResult?
  {
    Placeholder(SizeOf(p.output), options.persist.value(p.callId, p.output))
  }

  /** Whatever elision can put in the place of a result is within its own threshold. */
  ghost predicate TextsFit(options: Options, ms: seq<Message>) {
    options.persist.Some? ==>
      forall p :: Recovery.IsResult(p, ms) && IsOver(options)(p) ==> |TextFor(options, p)| <= options.elideOverChars
  }

  // ----- The passes -----

  lemma {:induction false} NoneCounted(f: Part -> bool, parts: seq<Part>)
    requires forall p :: p in parts ==> !f(p)
    ensures CountParts(f, parts) == 0
  {
    if parts != [] {
      assert parts[0] in parts;
      NoneCounted(f, parts[1..]);
    }
  }

  predicate PartFits(options: Options, p: Part) {
    p.ToolResult? ==>
      p.elidedTo == None && (options.persist.Some? && IsOver(options)(p) ==> |TextFor(options, p)| <= options.elideOverChars)
  }

  lemma {:induction false} ElidedPartsOver(options: Options, parts: seq<Part>)
    requires options.persist.Some? && forall p :: p in parts ==> PartFits(options, p)
    ensures CountParts(IsOver(options), MapSeq(p => ElidePart(options, p), parts)) + |PartWrites(options, parts)|
         == CountParts(IsOver(options), parts)
  {
    if parts != [] {
      assert parts[0] in parts;
      ElidedPartsOver(options, parts[1..]);
      assert MapSeq(p => ElidePart(options, p), parts)[1..] == MapSeq(p => ElidePart(options, p), parts[1..]);
    }
  }

  ghost predicate AllFit(options: Options, ms: seq<Message>) { forall m, p :: m in ms && p in m.parts ==> PartFits(options, p) }

  lemma {:induction false} ElidedMessagesOver(options: Options, ms: seq<Message>)
    requires options.persist.Some? && AllFit(options, ms)
    ensures CountInHistory(IsOver(options), ElideMessages(options, ms)) + |MessageWrites(options, ms)|
         == CountInHistory(IsOver(options), ms)
  {
    if ms != [] {
      assert ms[0] in ms;
      ElidedPartsOver(options, ms[0].parts);
      ElidedMessagesOver(options, ms[1..]);
      assert ElideMessages(options, ms)[1..] == ElideMessages(options, ms[1..]);
    }
  }

  /** Every write leaves one result less to elide. */
  lemma ElidedOver(options: Options, ms: seq<Message>)
    requires options.persist.Some? && AllFit(options, ms)
    ensures CountInHistory(IsOver(options), Elided(options, ms)) + |Writes(options, ms)| == CountInHistory(IsOver(options), ms)
  {
    var b := Boundary(ms, options.keepRecent);
    ElidedMessagesOver(options, ms[..b]);
    CountAppend(IsOver(options), ElideMessages(options, ms[..b]), ms[b..]);
    CountAppend(IsOver(options), ms[..b], ms[b..]);
    assert ms == ms[..b] + ms[b..];
  }

  lemma SummaryIsNotOver(options: Options, boundary: nat, size: nat, summary: string)
    ensures CountInHistory(IsOver(options), [SummaryMessage(boundary, size, summary)]) == 0
  {
    var m := SummaryMessage(boundary, size, summary);
    assert m.parts[1..] == [] && CountParts(IsOver(options), m.parts) == 0;
    assert [m][1..] == [];
  }

  lemma SummarisedOver(options: Options, ms: seq<Message>)
    requires options.summarise.Some? && |Middle(options, ms)| >= 2
    ensures |Summarised(options, ms)| < |ms|
    ensures CountInHistory(IsOver(options), Summarised(options, ms)) <= CountInHistory(IsOver(options), ms)
  {
    var b, middle := Boundary(ms, options.keepRecent), Middle(options, ms);
    var head, tail := ms[..options.keepFirst], ms[b..];
    var summary := SummaryMessage(b, |middle|, options.summarise.value(middle));
    assert ms == head + middle + tail;
    CountAppend(IsOver(options), head + middle, tail);
    CountAppend(IsOver(options), head, middle);
    CountAppend(IsOver(options), head + [summary], tail);
    CountAppend(IsOver(options), head, [summary]);
    SummaryIsNotOver(options, b, |middle|, options.summarise.value(middle));
  }

  // ----- The filter and the conversions -----

  lemma {:induction false} KeptPartsOver(lower: string -> string, options: Options, vendor: string, parts: seq<Part>)
    ensures CountParts(IsOver(options), Artifacts.KeptParts(lower, vendor, parts)) == CountParts(IsOver(options), parts)
  {
    if parts != [] {
      KeptPartsOver(lower, options, vendor, parts[1..]);
      var rest := Artifacts.KeptParts(lower, vendor, parts[1..]);
      assert Artifacts.KeptParts(lower, vendor, parts) == if Artifacts.IsForeign(lower, vendor, parts[0]) then rest else [parts[0]] + rest;
      assert ([parts[0]] + rest)[1..] == rest;
    }
  }

  lemma {:induction false} StrippedOver(lower: string -> string, options: Options, vendor: string, ms: seq<Message>)
    ensures CountInHistory(IsOver(options), Artifacts.Stripped(lower, vendor, ms)) == CountInHistory(IsOver(options), ms)
  {
    if ms != [] {
      KeptPartsOver(lower, options, vendor, ms[0].parts);
      StrippedOver(lower, options, vendor, ms[1..]);
      assert Artifacts.Stripped(lower, vendor, ms)[1..] == Artifacts.Stripped(lower, vendor, ms[1..]);
    }
  }

  /** The results over the threshold in one of the SDK's messages. */
  function OverInOne(options: Options, x: ModelMessage): nat { CountParts(IsOver(options), FromModel(x, 0).parts) }

  function OverIn(options: Options, mm: seq<ModelMessage>): nat {
    if mm == [] then 0 else OverInOne(options, mm[0]) + OverIn(options, mm[1..])
  }

  lemma {:induction false} OverInIsRead(options: Options, mm: seq<ModelMessage>, from: nat)
    requires from <= |mm|
    ensures OverIn(options, mm[from..]) == CountInHistory(IsOver(options), FromModelAll(mm)[from..])
    decreases |mm| - from
  {
    if from < |mm| {
      OverInIsRead(options, mm, from + 1);
      assert mm[from..][1..] == mm[from + 1..];
      assert FromModelAll(mm)[from..][1..] == FromModelAll(mm)[from + 1..];
      assert FromModel(mm[from], from).parts == FromModel(mm[from], 0).parts;
    }
  }

  lemma {:induction false} ToolPartsOver(options: Options, parts: seq<Part>)
    ensures CountParts(IsOver(options), FlatMap(FromToolPart, ToToolParts(parts))) == CountParts(IsOver(options), parts)
  {
    if parts != [] {
      var rest := FlatMap(FromToolPart, ToToolParts(parts[1..]));
      ToolPartsOver(options, parts[1..]);
      FlatMapAppend(FromToolPart, ToToolPart(parts[0]), ToToolParts(parts[1..]));
      if parts[0].ToolResult? {
        OneToolPart(parts[0]);
        var back := FlatMap(FromToolPart, ToToolPart(parts[0]));
        assert (back + rest)[0] == back[0] && (back + rest)[1..] == rest;
      } else {
        assert FlatMap(FromToolPart, []) + rest == rest;
      }
    }
  }

  lemma OneToolPart(p: Part)
    requires p.ToolResult?
    ensures var back := FlatMap(FromToolPart, ToToolPart(p));
            |back| == 1 && back[0].ToolResult? && back[0].output == p.output
  {
    assert ToToolPart(p)[1..] == [];
    assert FlatMap(FromToolPart, ToToolPart(p)) == FromToolPart(ToToolPart(p)[0]) + FlatMap(FromToolPart, []);
  }

  lemma MessageOver(options: Options, m: Message)
    requires ToModel(m) != []
    ensures OverInOne(options, ToModel(m)[0]) <= CountParts(IsOver(options), m.parts)
  {
    var x := ToModel(m)[0];
    match x
    case ToolMessage(tool) => ToolPartsOver(options, m.parts);
    case AssistantMessage(assistant) =>
      AssistantShape(assistant);
      NoneCounted(IsOver(options), FromModel(x, 0).parts);
    case UserMessage(user) =>
      UserShape(user);
      NoneCounted(IsOver(options), FromModel(x, 0).parts);
    case UserString(_) => NoneCounted(IsOver(options), FromModel(x, 0).parts);
    case _ =>
  }

  lemma {:induction false} SentOver(options: Options, ms: seq<Message>)
    ensures |ToModelAll(ms)| <= |ms| && OverIn(options, ToModelAll(ms)) <= CountInHistory(IsOver(options), ms)
  {
    if ms != [] {
      var rest := ToModelAll(ms[1..]);
      SentOver(options, ms[1..]);
      if ToModel(ms[0]) == [] {
        assert ToModelAll(ms) == rest;
      } else {
        MessageOver(options, ms[0]);
        assert ToModelAll(ms) == [ToModel(ms[0])[0]] + rest && ([ToModel(ms[0])[0]] + rest)[1..] == rest;
      }
    }
  }

  // ----- One request -----

  /** Messages, and results that are still over the threshold. */
  function Measure(options: Options, mm: seq<ModelMessage>): nat { |mm| + OverIn(options, mm) }

  predicate Compacts(options: Options, mm: seq<ModelMessage>) { Condensed(options, FromModelAll(mm)).compacted }

  lemma ReadFits(options: Options, mm: seq<ModelMessage>)
    requires TextsFit(options, FromModelAll(mm))
    ensures AllFit(options, FromModelAll(mm))
  {
    var ms := FromModelAll(mm);
    Recovery.ReadInToolMessages(mm);
    forall m, p | m in ms && p in m.parts ensures PartFits(options, p) {
      if p.ToolResult? { assert InHistory(p, ms) && Recovery.IsResult(p, ms); }
    }
  }

  lemma CondensedOver(options: Options, ms: seq<Message>)
    requires AllFit(options, ms) && forall m :: m in ms ==> !m.pinned
    ensures var r := Condensed(options, ms);
            var before, after := |ms| + CountInHistory(IsOver(options), ms), |r.messages| + CountInHistory(IsOver(options), r.messages);
            after <= before && (r.compacted ==> after < before)
  {
    AnsweredRequests.CondensedOfUnpinned(options, ms);
    SelectAll(ms);
    if Tokens.TokensOf(ms) > options.maxTokens {
      var elided := AfterElision(options, ms).0;
      if options.persist.Some? { ElidedOver(options, ms); }
      if AfterSummary(options, [], elided).1 { SummarisedOver(options, elided); }
    }
  }

  /** A request that compacts lowers the measure, and no request raises it. */
  lemma RequestProgresses(lower: string -> string, options: Options, vendor: string, mm: seq<ModelMessage>)
    requires TextsFit(options, FromModelAll(mm))
    ensures Measure(options, Prepared(lower, options, vendor, mm)) <= Measure(options, mm)
    ensures Compacts(options, mm) ==> Measure(options, Prepared(lower, options, vendor, mm)) < Measure(options, mm)
  {
    var ours := FromModelAll(mm);
    var condensed := Condensed(options, ours).messages;
    ReadFits(options, mm);
    Recovery.ReadUnpinned(mm);
    CondensedOver(options, ours);
    OverInIsRead(options, mm, 0);
    assert mm[0..] == mm && ours[0..] == ours;
    StrippedOver(lower, options, vendor, condensed);
    SentOver(options, Artifacts.Stripped(lower, vendor, condensed));
  }

  /** The results of the next request are results of this one, or placeholders within the threshold. */
  lemma TextsFitAgain(lower: string -> string, options: Options, vendor: string, mm: seq<ModelMessage>)
    requires TextsFit(options, FromModelAll(mm))
    ensures TextsFit(options, FromModelAll(Prepared(lower, options, vendor, mm)))
  {
    var ours, sent := FromModelAll(mm), Prepared(lower, options, vendor, mm);
    if options.persist.Some? {
      forall q | Recovery.IsResult(q, FromModelAll(sent)) && IsOver(options)(q) ensures |TextFor(options, q)| <= options.elideOverChars {
        var p := ResultBefore(lower, options, vendor, mm, q);
        ReadFits(options, mm);
      }
    }
  }

  lemma ResultBefore(lower: string -> string, options: Options, vendor: string, mm: seq<ModelMessage>, q: Part) returns (p: Part)
    requires options.persist.Some? && TextsFit(options, FromModelAll(mm))
    requires Recovery.IsResult(q, FromModelAll(Prepared(lower, options, vendor, mm))) && IsOver(options)(q)
    ensures Recovery.IsResult(p, FromModelAll(mm)) && p.callId == q.callId && p.output == q.output
  {
    var ours := FromModelAll(mm);
    var condensed := Condensed(options, ours).messages;
    Recovery.ReadUnpinned(mm);
    ReadFits(options, mm);
    var x, a := Recovery.ReadAnswer(Prepared(lower, options, vendor, mm), q);
    var r := Recovery.SentAnswer(Artifacts.Stripped(lower, vendor, condensed), x, a);
    Recovery.StrippedResults(lower, vendor, condensed);
    Recovery.CondensedResults(options, ours);
    assert Recovery.IsResult(r, Recovery.Passed(options, ours));
    p := r;
    if Recovery.PassRuns(options, ours) {
      var i, o := Recovery.ElidedFrom(options, ours, r);
      assert ours[i] in ours && PartFits(options, o);
      p := o;
      assert Recovery.IsResult(p, ours);
    }
  }

  // ----- Many requests -----

  function Iterate<T>(next: T -> T, x: T, n: nat): T
    decreases n
  {
    if n == 0 then x else Iterate(next, next(x), n - 1)
  }

  function Request(lower: string -> string, options: Options, vendor: string): seq<ModelMessage> -> seq<ModelMessage> {
    mm => Prepared(lower, options, vendor, mm)
  }

  /** What the `n`th request sends when nothing is appended in between. */
  function Again(lower: string -> string, options: Options, vendor: string, mm: seq<ModelMessage>, n: nat): seq<ModelMessage> {
    Iterate(Request(lower, options, vendor), mm, n)
  }

  /** Compaction is over after at most `bound` requests. */
  ghost predicate SettlesWithin(lower: string -> string, options: Options, vendor: string, mm: seq<ModelMessage>, bound: nat) {
    exists n: nat :: n <= bound && !Compacts(options, Again(lower, options, vendor, mm, n))
  }

  lemma SettledNow(lower: string -> string, options: Options, vendor: string, mm: seq<ModelMessage>, bound: nat)
    requires !Compacts(options, mm)
    ensures SettlesWithin(lower, options, vendor, mm, bound)
  {
    assert Again(lower, options, vendor, mm, 0) == mm;
  }

  lemma SettledLater(lower: string -> string, options: Options, vendor: string, mm: seq<ModelMessage>, bound: nat)
    requires SettlesWithin(lower, options, vendor, Prepared(lower, options, vendor, mm), bound)
    ensures SettlesWithin(lower, options, vendor, mm, bound + 1)
  {
    var n: nat :| n <= bound && !Compacts(options, Again(lower, options, vendor, Prepared(lower, options, vendor, mm), n));
    assert Again(lower, options, vendor, mm, n + 1) == Again(lower, options, vendor, Prepared(lower, options, vendor, mm), n);
  }

  /** Preparing what was sent once more, compaction stops within as many requests as the measure says. */
  lemma {:induction false} RequestsSettle(lower: string -> string, options: Options, vendor: string, mm: seq<ModelMessage>, bound: nat)
    requires TextsFit(options, FromModelAll(mm)) && Measure(options, mm) <= bound
    ensures SettlesWithin(lower, options, vendor, mm, bound)
    decreases bound
  {
    if !Compacts(options, mm) {
      SettledNow(lower, options, vendor, mm, bound);
    } else {
      RequestProgresses(lower, options, vendor, mm);
      TextsFitAgain(lower, options, vendor, mm);
      RequestsSettle(lower, options, vendor, Prepared(lower, options, vendor, mm), bound - 1);
      SettledLater(lower, options, vendor, mm, bound - 1);
    }
  }

  // ----- Texts that do not fit -----

  const ELIDE_ALL := Options(0, 0, 0, 0, Some((id, output) => "/f"), None)

  function OneResult(text: string): seq<ModelMessage> { [ToolMessage([ToolAnswer("c", "read", Valued("text", Str(text)))])] }

  lemma OneResultRead(text: string)
    ensures FromModelAll(OneResult(text)) == [Message("sdk-" + Decimal(0), Tool, [ToolResult("c", "read", Str(text), false, None)], false)]
  {
    var a := ToolAnswer("c", "read", Valued("text", Str(text)));
    assert [a][1..] == [];
    assert FlatMap(FromToolPart, [a]) == FromToolPart(a) + FlatMap(FromToolPart, []);
    assert FlatMap(FromToolPart, [a]) == [ToolResult("c", "read", Str(text), false, None)];
    assert FromModelAll(OneResult(text))[0] == FromModel(ToolMessage([a]), 0);
  }

  /** One result over the threshold becomes one placeholder over the threshold. */
  lemma OneResultPrepared(lower: string -> string, vendor: string, text: string)
    requires text != ""
    ensures Compacts(ELIDE_ALL, OneResult(text))
    ensures Prepared(lower, ELIDE_ALL, vendor, OneResult(text)) == OneResult(Placeholder(|text|, "/f"))
  {
    OneResultRead(text);
    var ours := FromModelAll(OneResult(text));
    var m, p := ours[0], ours[0].parts[0];
    assert !HasToolCall(m);
    assert IsSafeCut(ours, 1) && Boundary(ours, 0) == 1;
    assert ours[..1] == ours && ours[1..] == [];
    OneWrite(m, p);
    var out := ElideMessage(ELIDE_ALL, m);
    assert Elided(ELIDE_ALL, ours) == [out];
    Recovery.ReadUnpinned(OneResult(text));
    AnsweredRequests.CondensedOfUnpinned(ELIDE_ALL, ours);
    SelectAll(ours);
    SentPlaceholder(lower, vendor, out, Placeholder(|text|, "/f"));
  }

  lemma OneWrite(m: Message, p: Part)
    requires m.parts == [p] && ShouldElide(ELIDE_ALL, p)
    ensures MessageWrites(ELIDE_ALL, [m]) != []
    ensures ElideMessage(ELIDE_ALL, m).parts == [ElidePart(ELIDE_ALL, p)]
  {
    assert m.parts[1..] == [] && [m][1..] == [];
    assert PartWrites(ELIDE_ALL, m.parts) == [Write("/f", p.callId, p.output)] + [];
  }

  lemma SentPlaceholder(lower: string -> string, vendor: string, m: Message, text: string)
    requires m.role == Tool && m.parts == [ToolResult("c", "read", Str(text), false, Some("/f"))]
    ensures ToModelAll(Artifacts.Stripped(lower, vendor, [m])) == OneResult(text)
  {
    var n := Artifacts.StrippedMessage(lower, vendor, m);
    assert m.parts[1..] == [] && n.parts == m.parts;
    assert Artifacts.Stripped(lower, vendor, [m]) == [n] && [n][1..] == [];
    assert FlatMap(ToToolPart, n.parts) == ToToolPart(n.parts[0]) + FlatMap(ToToolPart, []);
    assert ToToolParts(n.parts) == [ToolAnswer("c", "read", Valued("text", Str(text)))];
    assert FlatMap(ToModel, [n]) == ToModel(n) + FlatMap(ToModel, []);
  }

  lemma {:induction false} IteratesStay<T(!new)>(next: T -> T, stays: T -> bool, x: T, n: nat)
    requires stays(x) && forall y :: stays(y) ==> stays(next(y))
    ensures stays(Iterate(next, x, n))
    decreases n
  {
    if n > 0 { IteratesStay(next, stays, next(x), n - 1); }
  }

  ghost predicate IsOneResult(mm: seq<ModelMessage>) { exists text :: text != "" && mm == OneResult(text) }

  lemma OneResultStays(lower: string -> string, vendor: string, mm: seq<ModelMessage>)
    requires IsOneResult(mm)
    ensures Compacts(ELIDE_ALL, mm) && IsOneResult(Request(lower, ELIDE_ALL, vendor)(mm))
  {
    var text :| text != "" && mm == OneResult(text);
    OneResultPrepared(lower, vendor, text);
    assert Placeholder(|text|, "/f") != "";
  }

  /** A threshold below the length of every placeholder: each request compacts, for ever. */
  lemma NeverSettles(lower: string -> string, vendor: string, text: string, n: nat)
    requires text != ""
    ensures Compacts(ELIDE_ALL, Again(lower, ELIDE_ALL, vendor, OneResult(text), n))
  {
    var next := Request(lower, ELIDE_ALL, vendor);
    ghost var stays := (mm: seq<ModelMessage>) => IsOneResult(mm);
    forall mm | stays(mm) ensures stays(next(mm)) { OneResultStays(lower, vendor, mm); }
    IteratesStay(next, stays, OneResult(text), n);
    OneResultStays(lower, vendor, Iterate(next, OneResult(text), n));
  }
}

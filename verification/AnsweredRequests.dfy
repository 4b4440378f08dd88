/** Answered calls through the whole pipeline, over any number of requests. */
module AnsweredRequests {
  import opened Common
  import opened Protocol
  import opened Adapter
  import opened Condenser
  import opened Pairing
  import opened Answering
  import opened Pipeline
  import Artifacts

  /** Every call in the SDK's messages is answered, with only results in between. */
  ghost predicate AllAnsweredModel(mm: seq<ModelMessage>) {
    forall j, id :: 0 <= j < |mm| && id in ModelCalls(mm[j]) ==> exists i :: AnswersModel(mm, j, i, id)
  }

  lemma AnswersModelIff(mm: seq<ModelMessage>, j: int, i: int, id: string)
    ensures AnswersModel(mm, j, i, id) <==> Answers(FromModelAll(mm), j, i, id)
  {
    var ms := FromModelAll(mm);
    forall k | 0 <= k < |mm|
      ensures CallIds(ms[k]) == ModelCalls(mm[k]) && ResultIds(ms[k]) == ModelResults(mm[k])
      ensures HasToolResult(ms[k]) <==> ModelResults(mm[k]) != {}
    {
      FromModelShape(mm[k], k);
      ResultIdsMeansResult(ms[k]);
    }
  }

  lemma AnsweredModelIff(mm: seq<ModelMessage>)
    ensures AllAnsweredModel(mm) <==> AllAnswered(FromModelAll(mm))
  {
    var ms := FromModelAll(mm);
    forall j, i, id ensures AnswersModel(mm, j, i, id) <==> Answers(ms, j, i, id) {
      AnswersModelIff(mm, j, i, id);
    }
    forall j | 0 <= j < |mm| ensures CallIds(ms[j]) == ModelCalls(mm[j]) {
      FromModelShape(mm[j], j);
    }
    if AllAnsweredModel(mm) {
      forall j, id | 0 <= j < |ms| && id in CallIds(ms[j]) ensures IsAnswered(ms, j, id) {
        assert id in ModelCalls(mm[j]);
        var i :| AnswersModel(mm, j, i, id);
        assert Answers(ms, j, i, id);
      }
    }
    if AllAnswered(ms) {
      forall j, id | 0 <= j < |mm| && id in ModelCalls(mm[j]) ensures exists i :: AnswersModel(mm, j, i, id) {
        assert id in CallIds(ms[j]) && IsAnswered(ms, j, id);
        var i :| Answers(ms, j, i, id);
        assert AnswersModel(mm, j, i, id);
      }
    }
  }

  // ----- The scan, on SDK messages -----

  function ScanModel(mm: seq<ModelMessage>, owed: set<string>): Option<set<string>> {
    if mm == [] then Some(owed)
    else if ModelResults(mm[0]) != {} then ScanModel(mm[1..], owed - ModelResults(mm[0]) + ModelCalls(mm[0]))
    else if owed != {} then None
    else ScanModel(mm[1..], ModelCalls(mm[0]))
  }

  lemma {:induction false} ScanModelIsScan(mm: seq<ModelMessage>, from: nat, owed: set<string>)
    requires from <= |mm|
    ensures ScanModel(mm[from..], owed) == Scan(FromModelAll(mm)[from..], owed)
    decreases |mm| - from
  {
    if from < |mm| {
      var x, m := mm[from], FromModelAll(mm)[from];
      assert mm[from..][1..] == mm[from + 1..];
      assert FromModelAll(mm)[from..][1..] == FromModelAll(mm)[from + 1..];
      FromModelShape(x, from);
      ResultIdsMeansResult(m);
      ScanModelIsScan(mm, from + 1, if ModelResults(x) != {} then owed - ModelResults(x) + ModelCalls(x) else ModelCalls(x));
    }
  }

  lemma AnsweredIffScanModel(mm: seq<ModelMessage>)
    ensures AllAnsweredModel(mm) <==> ScanModel(mm, {}) == Some({})
  {
    AnsweredModelIff(mm);
    AnsweredIffScan(FromModelAll(mm));
    ScanModelIsScan(mm, 0, {});
    assert mm[0..] == mm && FromModelAll(mm)[0..] == FromModelAll(mm);
  }

  lemma {:induction false} ScanModelAppend(a: seq<ModelMessage>, b: seq<ModelMessage>, owed: set<string>)
    ensures ScanModel(a + b, owed) == if ScanModel(a, owed).None? then None else ScanModel(b, ScanModel(a, owed).value)
  {
    if a == [] {
      assert a + b == b;
    } else {
      assert (a + b)[1..] == a[1..] + b;
      if ModelResults(a[0]) != {} {
        ScanModelAppend(a[1..], b, owed - ModelResults(a[0]) + ModelCalls(a[0]));
      } else if owed == {} {
        ScanModelAppend(a[1..], b, ModelCalls(a[0]));
      }
    }
  }

  lemma AnsweredAppend(a: seq<ModelMessage>, b: seq<ModelMessage>)
    requires AllAnsweredModel(a) && AllAnsweredModel(b)
    ensures AllAnsweredModel(a + b)
  {
    AnsweredIffScanModel(a);
    AnsweredIffScanModel(b);
    ScanModelAppend(a, b, {});
    AnsweredIffScanModel(a + b);
  }

  /** Converting, which drops empty messages, leaves a scan that succeeds where it was. */
  lemma {:induction false} SentScan(ms: seq<Message>, owed: set<string>)
    requires (forall m :: m in ms ==> InPlace(m)) && Scan(ms, owed).Some?
    ensures ScanModel(ToModelAll(ms), owed) == Scan(ms, owed)
  {
    if ms != [] {
      var m, rest := ms[0], ToModelAll(ms[1..]);
      assert m in ms;
      ToModelShape(m);
      ResultIdsMeansResult(m);
      if ToModel(m) == [] {
        assert ToModelAll(ms) == rest;
        SentScan(ms[1..], {});
      } else {
        assert ToModelAll(ms) == [ToModel(m)[0]] + rest && ([ToModel(m)[0]] + rest)[1..] == rest;
        SentScan(ms[1..], if HasToolResult(m) then owed - ResultIds(m) + CallIds(m) else CallIds(m));
      }
    }
  }

  lemma {:induction false} ScanSameShape(a: seq<Message>, b: seq<Message>, owed: set<string>)
    requires |a| == |b| && forall i :: 0 <= i < |a| ==> SameShape(a[i], b[i])
    ensures Scan(a, owed) == Scan(b, owed)
  {
    if a != [] {
      ResultIdsMeansResult(a[0]);
      ResultIdsMeansResult(b[0]);
      if HasToolResult(a[0]) {
        ScanSameShape(a[1..], b[1..], owed - ResultIds(a[0]) + CallIds(a[0]));
      } else if owed == {} {
        ScanSameShape(a[1..], b[1..], CallIds(a[0]));
      }
    }
  }

  lemma StrippedSameShape(lower: string -> string, vendor: string, ms: seq<Message>)
    ensures forall i :: 0 <= i < |ms| ==> SameShape(ms[i], Artifacts.Stripped(lower, vendor, ms)[i])
  {
    forall i | 0 <= i < |ms| ensures SameShape(ms[i], Artifacts.Stripped(lower, vendor, ms)[i]) {
      StrippedShape(lower, vendor, ms[i]);
    }
  }

  lemma SameShapeInPlace(m: Message, n: Message)
    requires SameShape(m, n) && InPlace(m)
    ensures InPlace(n)
  {
    ResultIdsMeansResult(m);
    ResultIdsMeansResult(n);
  }

  // ----- One request -----

  /** What is sent for our messages, once they are condensed. */
  function Sent(lower: string -> string, vendor: string, ms: seq<Message>): seq<ModelMessage> {
    ToModelAll(Artifacts.Stripped(lower, vendor, ms))
  }

  lemma SentScanStripped(lower: string -> string, vendor: string, ms: seq<Message>, owed: set<string>)
    requires (forall m :: m in ms ==> InPlace(m)) && Scan(ms, owed).Some?
    ensures ScanModel(Sent(lower, vendor, ms), owed) == Scan(ms, owed)
  {
    var stripped := Artifacts.Stripped(lower, vendor, ms);
    StrippedSameShape(lower, vendor, ms);
    ScanSameShape(ms, stripped, owed);
    forall n | n in stripped ensures InPlace(n) {
      var i :| 0 <= i < |stripped| && stripped[i] == n;
      assert ms[i] in ms;
      SameShapeInPlace(ms[i], n);
    }
    SentScan(stripped, owed);
  }

  /** A summary is sent as a message without calls or results. */
  lemma SummaryIsSent(lower: string -> string, vendor: string, boundary: nat, size: nat, summary: string, tail: seq<Message>, owed: set<string>)
    requires owed != {}
    ensures ScanModel(Sent(lower, vendor, [SummaryMessage(boundary, size, summary)] + tail), owed) == None
  {
    var m := SummaryMessage(boundary, size, summary);
    var stripped := Artifacts.Stripped(lower, vendor, [m] + tail);
    var n := Artifacts.StrippedMessage(lower, vendor, m);
    assert m.parts[1..] == [] && n == m;
    assert stripped[0] == n && stripped == [n] + stripped[1..];
    var content := ToAssistantParts(m.parts);
    assert content == ToAssistantPart(m.parts[0]) + FlatMap(ToAssistantPart, []);
    assert ToModel(n) == [AssistantMessage(content)];
    assert ToModelAll(stripped) == [AssistantMessage(content)] + ToModelAll(stripped[1..]);
  }

  lemma SentAppend(lower: string -> string, vendor: string, a: seq<Message>, b: seq<Message>)
    ensures Sent(lower, vendor, a + b) == Sent(lower, vendor, a) + Sent(lower, vendor, b)
  {
    assert Artifacts.Stripped(lower, vendor, a + b) == Artifacts.Stripped(lower, vendor, a) + Artifacts.Stripped(lower, vendor, b);
    FlatMapAppend(ToModel, Artifacts.Stripped(lower, vendor, a), Artifacts.Stripped(lower, vendor, b));
  }

  /** Where the lossy pass runs, the head that it keeps answers its own calls. */
  ghost predicate HeadIsAnswered(options: Options, mm: seq<ModelMessage>) {
    var ours := FromModelAll(mm);
    Summarises(options, ours) ==> AllAnswered(ours[..Min(options.keepFirst, |ours|)])
  }

  lemma ReadInPlace(mm: seq<ModelMessage>)
    ensures forall m :: m in FromModelAll(mm) ==> InPlace(m) && !m.pinned
  {
    var ms := FromModelAll(mm);
    forall m | m in ms ensures InPlace(m) && !m.pinned {
      var i :| 0 <= i < |ms| && ms[i] == m;
      FromModelShape(mm[i], i);
    }
  }

  lemma ElidedInPlace(options: Options, ms: seq<Message>)
    requires options.persist.Some? && forall m :: m in ms ==> InPlace(m)
    ensures forall m :: m in Elided(options, ms) ==> InPlace(m)
  {
    var out := Elided(options, ms);
    ElidedShape(options, ms);
    forall m | m in out ensures InPlace(m) {
      var i :| 0 <= i < |out| && out[i] == m;
      assert ms[i] in ms;
      SameShapeInPlace(ms[i], m);
    }
  }

  lemma SummaryInPlace(boundary: nat, size: nat, summary: string)
    ensures InPlace(SummaryMessage(boundary, size, summary)) && IsPlain(SummaryMessage(boundary, size, summary))
  {
  }

  lemma SummarisedInPlace(options: Options, ms: seq<Message>)
    requires options.summarise.Some? && forall m :: m in ms ==> InPlace(m)
    ensures forall m :: m in Summarised(options, ms) ==> InPlace(m)
  {
    var b, middle := Boundary(ms, options.keepRecent), Middle(options, ms);
    if |middle| >= 2 {
      SummaryInPlace(b, |middle|, options.summarise.value(middle));
      forall m | m in Summarised(options, ms) ensures InPlace(m) {
        assert m in ms[..options.keepFirst] || m in ms[b..] || m == SummaryMessage(b, |middle|, options.summarise.value(middle));
      }
    }
  }

  /** Without pinned messages, the condenser's passes are all there is. */
  lemma CondensedOfUnpinned(options: Options, ms: seq<Message>)
    requires forall m :: m in ms ==> !m.pinned
    ensures Condensed(options, ms).messages
         == if TokensOfInput(ms) > options.maxTokens then AfterSummary(options, [], AfterElision(options, ms).0).0 else ms
    ensures Summarises(options, ms) <==> TokensOfInput(ms) > options.maxTokens && AfterSummary(options, [], AfterElision(options, ms).0).1
  {
    SelectAll(ms);
    var out := AfterSummary(options, [], AfterElision(options, ms).0).0;
    assert [] + out == out;
  }

  /** Condensing leaves calls and results in their places. */
  lemma CondensedInPlace(options: Options, ms: seq<Message>)
    requires forall m :: m in ms ==> InPlace(m) && !m.pinned
    ensures forall m :: m in Condensed(options, ms).messages ==> InPlace(m)
  {
    CondensedOfUnpinned(options, ms);
    if options.persist.Some? { ElidedInPlace(options, ms); }
    if options.summarise.Some? { SummarisedInPlace(options, AfterElision(options, ms).0); }
  }

  /** With an answered head, or without the lossy pass, all that is sent is answered. */
  lemma AnsweredIsSent(lower: string -> string, options: Options, vendor: string, mm: seq<ModelMessage>)
    requires AllAnsweredModel(mm) && HeadIsAnswered(options, mm)
    ensures AllAnsweredModel(Prepared(lower, options, vendor, mm))
  {
    var ours := FromModelAll(mm);
    var condensed := Condensed(options, ours).messages;
    AnsweredModelIff(mm);
    ReadInPlace(mm);
    SelectAll(ours);
    CondensedAnsweredIff(options, ours);
    CondensedInPlace(options, ours);
    AnsweredIffScan(condensed);
    SentScanStripped(lower, vendor, condensed, {});
    AnsweredIffScanModel(Sent(lower, vendor, condensed));
  }

  /** A head that owes a result goes out with the summary behind it, and nothing can pay any more. */
  lemma OwingHeadIsSent(lower: string -> string, vendor: string, head: seq<Message>, boundary: nat, size: nat, summary: string, tail: seq<Message>)
    requires (forall m :: m in head ==> InPlace(m)) && Scan(head, {}).Some? && Scan(head, {}).value != {}
    ensures !AllAnsweredModel(Sent(lower, vendor, head + [SummaryMessage(boundary, size, summary)] + tail))
  {
    var behind := [SummaryMessage(boundary, size, summary)] + tail;
    assert head + [SummaryMessage(boundary, size, summary)] + tail == head + behind;
    SentAppend(lower, vendor, head, behind);
    SentScanStripped(lower, vendor, head, {});
    SummaryIsSent(lower, vendor, boundary, size, summary, tail, Scan(head, {}).value);
    ScanModelAppend(Sent(lower, vendor, head), Sent(lower, vendor, behind), {});
    AnsweredIffScanModel(Sent(lower, vendor, head + behind));
  }

  lemma OwingSummaryIsSent(lower: string -> string, options: Options, vendor: string, ms: seq<Message>)
    requires options.summarise.Some? && |Middle(options, ms)| >= 2 && forall m :: m in ms ==> InPlace(m)
    requires AllAnswered(ms) && !AllAnswered(ms[..options.keepFirst])
    ensures !AllAnsweredModel(Sent(lower, vendor, Summarised(options, ms)))
  {
    var n, b, middle := options.keepFirst, Boundary(ms, options.keepRecent), Middle(options, ms);
    AnsweredIffScan(ms);
    AnsweredIffScan(ms[..n]);
    assert ms == ms[..n] + ms[n..];
    ScanAppend(ms[..n], ms[n..], {});
    OwingHeadIsSent(lower, vendor, ms[..n], b, |middle|, options.summarise.value(middle), ms[b..]);
  }

  lemma ElidedAnswered(options: Options, ms: seq<Message>)
    requires AllAnswered(ms) && forall m :: m in ms ==> InPlace(m)
    ensures var elided := AfterElision(options, ms).0;
            && |elided| == |ms| && AllAnswered(elided) && (forall m :: m in elided ==> InPlace(m))
            && forall n: nat | n <= |ms| :: AllAnswered(ms[..n]) <==> AllAnswered(elided[..n])
  {
    var elided := AfterElision(options, ms).0;
    if options.persist.Some? {
      ElidedShape(options, ms);
      AnsweredSameShape(ms, elided);
      ElidedInPlace(options, ms);
    }
    forall n: nat | n <= |ms| ensures AllAnswered(ms[..n]) <==> AllAnswered(elided[..n]) {
      HeadSameShape(ms, elided, n);
    }
  }

  lemma UnansweredHeadIsSent(lower: string -> string, options: Options, vendor: string, mm: seq<ModelMessage>)
    requires AllAnsweredModel(mm) && !HeadIsAnswered(options, mm)
    ensures !AllAnsweredModel(Prepared(lower, options, vendor, mm))
  {
    var ours := FromModelAll(mm);
    AnsweredModelIff(mm);
    ReadInPlace(mm);
    CondensedOfUnpinned(options, ours);
    ElidedAnswered(options, ours);
    OwingSummaryIsSent(lower, options, vendor, AfterElision(options, ours).0);
  }

  /** One request leaves every answered call answered exactly when the head it keeps is. */
  lemma PreparedAnsweredIff(lower: string -> string, options: Options, vendor: string, mm: seq<ModelMessage>)
    requires AllAnsweredModel(mm)
    ensures AllAnsweredModel(Prepared(lower, options, vendor, mm)) <==> HeadIsAnswered(options, mm)
  {
    if HeadIsAnswered(options, mm) {
      AnsweredIsSent(lower, options, vendor, mm);
    } else {
      UnansweredHeadIsSent(lower, options, vendor, mm);
    }
  }

  // ----- Many requests -----

  ghost predicate HeadsAreAnswered(lower: string -> string, mm: seq<ModelMessage>, rounds: seq<Round>)
    decreases |rounds|
  {
    rounds == []
    || (var r := rounds[0];
        HeadIsAnswered(r.options, mm + r.appended)
        && HeadsAreAnswered(lower, Prepared(lower, r.options, r.vendor, mm + r.appended), rounds[1..]))
  }

  ghost predicate AnsweredThroughout(lower: string -> string, mm: seq<ModelMessage>, rounds: seq<Round>)
    decreases |rounds|
  {
    && AllAnsweredModel(mm)
    && (rounds == []
        || AnsweredThroughout(lower, Prepared(lower, rounds[0].options, rounds[0].vendor, mm + rounds[0].appended), rounds[1..]))
  }

  /** The runs in which every request is answered throughout are exactly those whose kept heads are. */
  lemma {:induction false} RoundsAnsweredIff(lower: string -> string, mm: seq<ModelMessage>, rounds: seq<Round>)
    requires AllAnsweredModel(mm) && forall r :: r in rounds ==> AllAnsweredModel(r.appended)
    ensures AnsweredThroughout(lower, mm, rounds) <==> HeadsAreAnswered(lower, mm, rounds)
    decreases |rounds|
  {
    if rounds != [] {
      var r := rounds[0];
      assert r in rounds;
      AnsweredAppend(mm, r.appended);
      PreparedAnsweredIff(lower, r.options, r.vendor, mm + r.appended);
      if HeadIsAnswered(r.options, mm + r.appended) {
        RoundsAnsweredIff(lower, Prepared(lower, r.options, r.vendor, mm + r.appended), rounds[1..]);
      }
    }
  }
}

/** The other direction of pairing: when compaction leaves a call without its result. */
module Answering {
  import opened Common
  import opened Protocol
  import opened Condenser
  import opened Pairing

  ghost predicate IsAnswered(ms: seq<Message>, j: int, id: string) { exists i :: Answers(ms, j, i, id) }

  /** Every call is answered, with only results in between. */
  ghost predicate AllAnswered(ms: seq<Message>) {
    forall j, id :: 0 <= j < |ms| && id in CallIds(ms[j]) ==> IsAnswered(ms, j, id)
  }

  /** A message that takes no part in any call. */
  predicate IsPlain(m: Message) { !HasToolCall(m) && !HasToolResult(m) }

  lemma PlainIds(m: Message)
    requires IsPlain(m)
    ensures CallIds(m) == {} && ResultIds(m) == {}
  {
    ResultIdsMeansResult(m);
  }

  lemma AnswersInFront(a: seq<Message>, b: seq<Message>, j: int, i: int, id: string)
    requires i < |a|
    ensures Answers(a + b, j, i, id) <==> Answers(a, j, i, id)
  {
    if Answers(a + b, j, i, id) {
      forall k | j < k < i ensures HasToolResult(a[k]) { assert (a + b)[k] == a[k]; }
    }
  }

  lemma AnswersBehind(a: seq<Message>, b: seq<Message>, j: int, i: int, id: string)
    requires |a| <= j
    ensures Answers(a + b, j, i, id) <==> Answers(b, j - |a|, i - |a|, id)
  {
    if Answers(a + b, j, i, id) {
      forall k | j - |a| < k < i - |a| ensures HasToolResult(b[k]) { assert (a + b)[k + |a|] == b[k]; }
    }
  }

  /** No answer reaches across a plain message. */
  lemma AnswersDoNotCross(ms: seq<Message>, p: nat, j: int, i: int, id: string)
    requires p < |ms| && IsPlain(ms[p]) && Answers(ms, j, i, id)
    ensures i < p || p < j
  {
    PlainIds(ms[p]);
  }

  /** What is behind a cut is answered when the whole is. */
  lemma BehindIsAnswered(a: seq<Message>, b: seq<Message>)
    requires AllAnswered(a + b)
    ensures AllAnswered(b)
  {
    forall j, id | 0 <= j < |b| && id in CallIds(b[j]) ensures IsAnswered(b, j, id) {
      assert (a + b)[j + |a|] == b[j];
      assert IsAnswered(a + b, j + |a|, id);
      var i :| Answers(a + b, j + |a|, i, id);
      AnswersBehind(a, b, j + |a|, i, id);
      assert Answers(b, j, i - |a|, id);
    }
  }

  /** Around a plain message, the whole is answered exactly when both sides are. */
  lemma AnsweredAroundIff(a: seq<Message>, m: Message, b: seq<Message>)
    requires IsPlain(m)
    ensures AllAnswered(a + [m] + b) <==> AllAnswered(a) && AllAnswered(b)
  {
    var c := a + [m] + b;
    PlainIds(m);
    if AllAnswered(c) {
      BehindIsAnswered(a + [m], b);
      forall j, id | 0 <= j < |a| && id in CallIds(a[j]) ensures IsAnswered(a, j, id) {
        assert c[j] == a[j] && IsAnswered(c, j, id);
        var i :| Answers(c, j, i, id);
        AnswersDoNotCross(c, |a|, j, i, id);
        assert c == a + ([m] + b);
        AnswersInFront(a, [m] + b, j, i, id);
      }
    }
    if AllAnswered(a) && AllAnswered(b) {
      forall j, id | 0 <= j < |c| && id in CallIds(c[j]) ensures IsAnswered(c, j, id) {
        AnsweredFromASide(a, m, b, j, id);
      }
    }
  }

  lemma AnsweredFromASide(a: seq<Message>, m: Message, b: seq<Message>, j: int, id: string)
    requires IsPlain(m) && AllAnswered(a) && AllAnswered(b)
    requires 0 <= j < |a + [m] + b| && id in CallIds((a + [m] + b)[j])
    ensures IsAnswered(a + [m] + b, j, id)
  {
    var c := a + [m] + b;
    PlainIds(m);
    if j < |a| {
      assert IsAnswered(a, j, id);
      var i :| Answers(a, j, i, id);
      assert c == a + ([m] + b);
      AnswersInFront(a, [m] + b, j, i, id);
      assert Answers(c, j, i, id);
    } else {
      assert j != |a|;
      var front := a + [m];
      assert IsAnswered(b, j - |front|, id);
      var i :| Answers(b, j - |front|, i, id);
      AnswersBehind(front, b, j, i + |front|, id);
      assert Answers(c, j, i + |front|, id);
    }
  }

  /**
   * Replacing the middle by a summary leaves every call answered exactly when the
   * kept head answers its own calls: `keepFirst` must not cut behind a call.
   */
  lemma SummarisedAnsweredIff(options: Options, history: seq<Message>)
    requires options.summarise.Some? && AllAnswered(history) && |Middle(options, history)| >= 2
    ensures AllAnswered(Summarised(options, history)) <==> AllAnswered(history[..options.keepFirst])
  {
    var b := Boundary(history, options.keepRecent);
    var middle := Middle(options, history);
    var summary := SummaryMessage(b, |middle|, options.summarise.value(middle));
    assert history == history[..b] + history[b..];
    BehindIsAnswered(history[..b], history[b..]);
    AnsweredAroundIff(history[..options.keepFirst], summary, history[b..]);
  }

  lemma AnsweredSameShape(a: seq<Message>, b: seq<Message>)
    requires |a| == |b| && forall i :: 0 <= i < |a| ==> SameShape(a[i], b[i])
    ensures AllAnswered(a) ==> AllAnswered(b)
  {
    if AllAnswered(a) {
      forall j, id | 0 <= j < |b| && id in CallIds(b[j]) ensures IsAnswered(b, j, id) {
        assert IsAnswered(a, j, id);
        var i :| Answers(a, j, i, id);
        forall k | j < k < i ensures HasToolResult(b[k]) {
          ResultIdsMeansResult(a[k]);
          ResultIdsMeansResult(b[k]);
        }
        assert Answers(b, j, i, id);
      }
    }
  }

  lemma {:induction false} PlainInFront(front: seq<Message>, ms: seq<Message>)
    requires forall m :: m in front ==> IsPlain(m)
    ensures AllAnswered(front + ms) <==> AllAnswered(ms)
  {
    if front == [] {
      assert front + ms == ms;
    } else {
      assert front + ms == [] + [front[0]] + (front[1..] + ms);
      AnsweredAroundIff([], front[0], front[1..] + ms);
      PlainInFront(front[1..], ms);
    }
  }

  // ----- The same property as a left-to-right scan -----

  /** The calls still owed a result behind `ms`, when `owed` are before it; none when some call can no longer get one. */
  function Scan(ms: seq<Message>, owed: set<string>): Option<set<string>> {
    if ms == [] then Some(owed)
    else if HasToolResult(ms[0]) then Scan(ms[1..], owed - ResultIds(ms[0]) + CallIds(ms[0]))
    else if owed != {} then None
    else Scan(ms[1..], CallIds(ms[0]))
  }

  /** A result for `id` comes first, behind nothing but results. */
  ghost predicate IsServed(ms: seq<Message>, id: string) { exists i :: ServesAt(ms, i, id) }

  ghost predicate ServesAt(ms: seq<Message>, i: int, id: string) {
    0 <= i < |ms| && id in ResultIds(ms[i]) && forall k :: 0 <= k < i ==> HasToolResult(ms[k])
  }

  lemma ServedCons(ms: seq<Message>, id: string)
    requires ms != []
    ensures IsServed(ms, id) <==> id in ResultIds(ms[0]) || (HasToolResult(ms[0]) && IsServed(ms[1..], id))
  {
    if IsServed(ms, id) {
      var i :| ServesAt(ms, i, id);
      if i > 0 {
        var earlier := i - 1;
        assert ServesAt(ms[1..], earlier, id) by { assert forall k :: 0 <= k < earlier ==> ms[1..][k] == ms[k + 1]; }
      }
    }
    if id in ResultIds(ms[0]) {
      assert ServesAt(ms, 0, id);
    } else if HasToolResult(ms[0]) && IsServed(ms[1..], id) {
      var i :| ServesAt(ms[1..], i, id);
      var later := i + 1;
      assert ServesAt(ms, later, id) by { assert forall k :: 0 < k < later ==> ms[k] == ms[1..][k - 1]; }
    }
  }

  lemma AnsweredFirst(ms: seq<Message>, id: string)
    requires ms != [] && id in CallIds(ms[0])
    ensures IsAnswered(ms, 0, id) <==> IsServed(ms[1..], id)
  {
    if IsAnswered(ms, 0, id) {
      var i :| Answers(ms, 0, i, id);
      var earlier := i - 1;
      assert ServesAt(ms[1..], earlier, id) by { assert forall k :: 0 <= k < earlier ==> ms[1..][k] == ms[k + 1]; }
    }
    if IsServed(ms[1..], id) {
      var i :| ServesAt(ms[1..], i, id);
      var later := i + 1;
      assert Answers(ms, 0, later, id) by { assert forall k :: 0 < k < later ==> ms[k] == ms[1..][k - 1]; }
    }
  }

  /** Answered is: the calls of the first message are served, and the rest is answered. */
  lemma AnsweredCons(ms: seq<Message>)
    requires ms != []
    ensures AllAnswered(ms) <==> (forall id :: id in CallIds(ms[0]) ==> IsServed(ms[1..], id)) && AllAnswered(ms[1..])
  {
    if AllAnswered(ms) {
      assert ms == [ms[0]] + ms[1..];
      BehindIsAnswered([ms[0]], ms[1..]);
      forall id | id in CallIds(ms[0]) ensures IsServed(ms[1..], id) {
        assert IsAnswered(ms, 0, id);
        AnsweredFirst(ms, id);
      }
    }
    if (forall id :: id in CallIds(ms[0]) ==> IsServed(ms[1..], id)) && AllAnswered(ms[1..]) {
      forall j, id | 0 <= j < |ms| && id in CallIds(ms[j]) ensures IsAnswered(ms, j, id) {
        if j == 0 {
          AnsweredFirst(ms, id);
        } else {
          assert IsAnswered(ms[1..], j - 1, id);
          var i :| Answers(ms[1..], j - 1, i, id);
          AnswersShift(ms, j, i + 1, id);
          assert Answers(ms, j, i + 1, id);
        }
      }
    }
  }

  ghost predicate AllServed(ms: seq<Message>, owed: set<string>) { forall id :: id in owed ==> IsServed(ms, id) }

  /** What is owed in front of a message is served exactly when its rest is, behind results only. */
  lemma AllServedCons(ms: seq<Message>, owed: set<string>)
    requires ms != []
    ensures HasToolResult(ms[0]) ==> (AllServed(ms, owed) <==> AllServed(ms[1..], owed - ResultIds(ms[0])))
    ensures !HasToolResult(ms[0]) ==> (AllServed(ms, owed) <==> owed == {})
  {
    ResultIdsMeansResult(ms[0]);
    forall id ensures IsServed(ms, id) <==> id in ResultIds(ms[0]) || (HasToolResult(ms[0]) && IsServed(ms[1..], id)) {
      ServedCons(ms, id);
    }
  }

  lemma {:induction false} ScanIsAnswered(ms: seq<Message>, owed: set<string>)
    ensures Scan(ms, owed) == Some({}) <==> AllServed(ms, owed) && AllAnswered(ms)
  {
    if ms == [] {
      if owed != {} {
        var id :| id in owed;
        assert !IsServed(ms, id);
      }
    } else {
      var m, rest := ms[0], ms[1..];
      AllServedCons(ms, owed);
      AnsweredCons(ms);
      if HasToolResult(m) {
        ScanIsAnswered(rest, owed - ResultIds(m) + CallIds(m));
        assert AllServed(rest, owed - ResultIds(m) + CallIds(m)) <==> AllServed(rest, owed - ResultIds(m)) && AllServed(rest, CallIds(m));
      } else {
        ScanIsAnswered(rest, CallIds(m));
      }
    }
  }

  lemma AnsweredIffScan(ms: seq<Message>)
    ensures AllAnswered(ms) <==> Scan(ms, {}) == Some({})
  {
    ScanIsAnswered(ms, {});
  }

  lemma {:induction false} ScanAppend(a: seq<Message>, b: seq<Message>, owed: set<string>)
    ensures Scan(a + b, owed) == if Scan(a, owed).None? then None else Scan(b, Scan(a, owed).value)
  {
    if a == [] {
      assert a + b == b;
    } else {
      assert (a + b)[1..] == a[1..] + b;
      if HasToolResult(a[0]) {
        ScanAppend(a[1..], b, owed - ResultIds(a[0]) + CallIds(a[0]));
      } else if owed == {} {
        ScanAppend(a[1..], b, CallIds(a[0]));
      }
    }
  }

  /** Setting plain messages aside changes nothing for the calls. */
  lemma {:induction false} ScanWithoutPinned(ms: seq<Message>, owed: set<string>)
    requires Scan(ms, owed).Some? && forall m :: m in ms && m.pinned ==> IsPlain(m)
    ensures Scan(Select(ms, false), owed) == Scan(ms, owed)
  {
    if ms != [] {
      var m, rest := ms[0], ms[1..];
      assert m in ms;
      PlainOrNot(m);
      if m.pinned {
        ScanWithoutPinned(rest, {});
        assert Select(ms, false) == Select(rest, false);
      } else {
        var next := if HasToolResult(m) then owed - ResultIds(m) + CallIds(m) else CallIds(m);
        ScanWithoutPinned(rest, next);
        assert Select(ms, false) == [m] + Select(rest, false) && ([m] + Select(rest, false))[1..] == Select(rest, false);
      }
    }
  }

  lemma PlainOrNot(m: Message)
    ensures IsPlain(m) ==> CallIds(m) == {} && ResultIds(m) == {}
  {
    ResultIdsMeansResult(m);
  }

  lemma {:induction false} PinnedArePlain(ms: seq<Message>)
    requires forall m :: m in Select(ms, true) ==> IsPlain(m)
    ensures forall m :: m in ms && m.pinned ==> IsPlain(m)
  {
    if ms != [] {
      var more := Select(ms[1..], true);
      assert Select(ms, true) == if ms[0].pinned then [ms[0]] + more else more;
      PinnedArePlain(ms[1..]);
    }
  }

  lemma UnpinnedAnswered(input: seq<Message>)
    requires AllAnswered(input) && forall m :: m in Select(input, true) ==> IsPlain(m)
    ensures AllAnswered(Select(input, false))
  {
    PinnedArePlain(input);
    AnsweredIffScan(input);
    ScanWithoutPinned(input, {});
    AnsweredIffScan(Select(input, false));
  }

  // ----- The condenser -----

  /** Whether the lossy pass runs. */
  predicate Summarises(options: Options, input: seq<Message>) {
    && TokensOfInput(input) > options.maxTokens
    && AfterSummary(options, Select(input, true), AfterElision(options, Select(input, false)).0).1
  }

  /**
   * The whole condenser: answered calls stay answered exactly when the lossy pass
   * does not run, or the head it keeps answers its own calls.
   */
  lemma CondensedAnsweredIff(options: Options, input: seq<Message>)
    requires AllAnswered(input) && forall m :: m in Select(input, true) ==> IsPlain(m)
    ensures AllAnswered(Condensed(options, input).messages)
       <==> (Summarises(options, input) ==> AllAnswered(Select(input, false)[..Min(options.keepFirst, |Select(input, false)|)]))
  {
    if TokensOfInput(input) > options.maxTokens {
      var pinned, history := Select(input, true), Select(input, false);
      var elided := AfterElision(options, history).0;
      UnpinnedAnswered(input);
      if options.persist.Some? {
        ElidedShape(options, history);
        AnsweredSameShape(history, elided);
      }
      PlainInFront(pinned, AfterSummary(options, pinned, elided).0);
      if Summarises(options, input) {
        SummarisedAnsweredIff(options, elided);
        HeadSameShape(history, elided, options.keepFirst);
      }
    }
  }

  lemma HeadSameShape(a: seq<Message>, b: seq<Message>, n: nat)
    requires n <= |a| == |b| && (a == b || forall i :: 0 <= i < |a| ==> SameShape(a[i], b[i]))
    ensures AllAnswered(a[..n]) <==> AllAnswered(b[..n])
  {
    if a != b {
      AnsweredSameShape(a[..n], b[..n]);
      AnsweredSameShape(b[..n], a[..n]);
    }
  }

  /** A head that ends right behind a call: the call goes out, its result does not. */
  lemma HeadBehindCallLosesResult() returns (options: Options, history: seq<Message>)
    ensures options.summarise.Some? && |Middle(options, history)| >= 2
    ensures AllAnswered(history) && !AllAnswered(Summarised(options, history))
  {
    var call := Message("a", Assistant, [ToolCall("t1", "read", Null)], false);
    var result := Message("b", Tool, [ToolResult("t1", "read", Null, false, None)], false);
    var text := Message("c", Assistant, [TextPart("done")], false);
    history := [call, result, text];
    options := Options(0, 0, 1, 0, None, Some(ms => ""));
    assert call.parts[0] in call.parts && result.parts[0] in result.parts;
    assert CallIds(call) == {"t1"} && ResultIds(result) == {"t1"};
    PlainIds(text);
    assert Answers(history, 0, 1, "t1");
    assert CallIds(result) == {};
    forall j, id | 0 <= j < |history| && id in CallIds(history[j]) ensures IsAnswered(history, j, id) {
      assert j == 0 && id == "t1";
    }
    assert IsSafeCut(history, 3);
    assert Boundary(history, 0) == 3;
    SummarisedAnsweredIff(options, history);
    assert history[..1] == [call] && !IsAnswered([call], 0, "t1");
  }
}

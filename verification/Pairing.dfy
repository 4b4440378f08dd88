/**
 * Tool calls and their results: every result must follow its call with only
 * result messages in between, or the provider refuses the conversation.
 */
module Pairing {
  import opened Common
  import opened Protocol
  import opened Condenser

  /** Calls sit in assistant messages, results in tool messages, neither in pinned ones. */
  predicate InPlace(m: Message) {
    && (HasToolCall(m) ==> m.role == Assistant && !m.pinned)
    && (HasToolResult(m) ==> m.role == Tool && !m.pinned)
  }

  /** Message `j` makes the call `id` that a result in message `i` answers. */
  ghost predicate Answers(ms: seq<Message>, j: int, i: int, id: string) {
    && 0 <= j < i < |ms|
    && id in CallIds(ms[j]) && id in ResultIds(ms[i])
    && forall k :: j < k < i ==> HasToolResult(ms[k])
  }

  ghost predicate WellFormed(ms: seq<Message>) {
    && (forall m :: m in ms ==> InPlace(m))
    && (forall i, id :: 0 <= i < |ms| && id in ResultIds(ms[i]) ==> exists j :: Answers(ms, j, i, id))
  }

  // ----- The same property as a left-to-right scan -----

  /** The calls that a following result message may answer. */
  function OpenAfterOne(m: Message, open: set<string>): set<string> {
    if HasToolResult(m) then open else CallIds(m)
  }

  predicate Paired(ms: seq<Message>, open: set<string>) {
    ms == [] || (InPlace(ms[0]) && ResultIds(ms[0]) <= open && Paired(ms[1..], OpenAfterOne(ms[0], open)))
  }

  function OpenAfter(ms: seq<Message>, open: set<string>): set<string> {
    if ms == [] then open else OpenAfter(ms[1..], OpenAfterOne(ms[0], open))
  }

  /** `id` is open at `i` because `open` held it at the start and only results came since. */
  ghost predicate OpenFromStart(ms: seq<Message>, open: set<string>, i: int, id: string) {
    id in open && forall k :: 0 <= k < i <= |ms| ==> HasToolResult(ms[k])
  }

  ghost predicate PairedByIndex(ms: seq<Message>, open: set<string>) {
    && (forall m :: m in ms ==> InPlace(m))
    && (forall i, id :: 0 <= i < |ms| && id in ResultIds(ms[i]) ==>
          OpenFromStart(ms, open, i, id) || exists j :: Answers(ms, j, i, id))
  }

  lemma ResultIdsMeansResult(m: Message)
    ensures HasToolResult(m) <==> ResultIds(m) != {}
    ensures HasToolCall(m) <==> CallIds(m) != {}
  {
    if HasToolResult(m) {
      var p :| p in m.parts && p.ToolResult?;
      assert p.callId in ResultIds(m);
    }
    if HasToolCall(m) {
      var p :| p in m.parts && p.ToolCall?;
      assert p.callId in CallIds(m);
    }
  }

  lemma AnswersShift(ms: seq<Message>, j: int, i: int, id: string)
    requires ms != [] && j >= 1
    ensures Answers(ms, j, i, id) <==> Answers(ms[1..], j - 1, i - 1, id)
  {
    if Answers(ms[1..], j - 1, i - 1, id) {
      forall k | j < k < i ensures HasToolResult(ms[k]) {
        assert ms[1..][k - 1] == ms[k];
      }
    }
  }

  /** The first message answers a result exactly when its call is still open there. */
  lemma FirstAnswers(ms: seq<Message>, i: int, id: string)
    requires ms != [] && 1 <= i < |ms| && id in ResultIds(ms[i]) && id in CallIds(ms[0])
    ensures Answers(ms, 0, i, id) <==> OpenFromStart(ms[1..], CallIds(ms[0]), i - 1, id)
  {
    if OpenFromStart(ms[1..], CallIds(ms[0]), i - 1, id) {
      forall k | 0 < k < i ensures HasToolResult(ms[k]) {
        assert ms[1..][k - 1] == ms[k];
      }
    }
  }

  lemma {:induction false} ScanIsByIndex(ms: seq<Message>, open: set<string>)
    ensures Paired(ms, open) <==> PairedByIndex(ms, open)
  {
    if ms != [] {
      var rest, next := ms[1..], OpenAfterOne(ms[0], open);
      ScanIsByIndex(rest, next);
      if PairedByIndex(ms, open) {
        ByIndexOfRest(ms, open);
      }
      if Paired(ms, open) {
        ByIndexOfWhole(ms, open);
      }
    }
  }

  lemma ByIndexOfRest(ms: seq<Message>, open: set<string>)
    requires ms != [] && PairedByIndex(ms, open)
    ensures InPlace(ms[0]) && ResultIds(ms[0]) <= open
    ensures PairedByIndex(ms[1..], OpenAfterOne(ms[0], open))
  {
    var rest, next := ms[1..], OpenAfterOne(ms[0], open);
    forall id | id in ResultIds(ms[0]) ensures id in open {
      assert OpenFromStart(ms, open, 0, id) || exists j :: Answers(ms, j, 0, id);
    }
    forall i, id | 0 <= i < |rest| && id in ResultIds(rest[i])
      ensures OpenFromStart(rest, next, i, id) || exists j :: Answers(rest, j, i, id)
    {
      assert rest[i] == ms[i + 1];
      if OpenFromStart(ms, open, i + 1, id) {
        assert HasToolResult(ms[0]);
        assert OpenFromStart(rest, next, i, id);
      } else {
        var j :| Answers(ms, j, i + 1, id);
        if j == 0 {
          ResultIdsMeansResult(ms[0]);
          FirstAnswers(ms, i + 1, id);
          assert InPlace(ms[0]);
        } else {
          AnswersShift(ms, j, i + 1, id);
        }
      }
    }
  }

  lemma ByIndexOfWhole(ms: seq<Message>, open: set<string>)
    requires ms != [] && InPlace(ms[0]) && ResultIds(ms[0]) <= open
    requires PairedByIndex(ms[1..], OpenAfterOne(ms[0], open))
    ensures PairedByIndex(ms, open)
  {
    var rest, next := ms[1..], OpenAfterOne(ms[0], open);
    forall m | m in ms ensures InPlace(m) {
      assert m == ms[0] || m in rest;
    }
    forall i, id | 0 <= i < |ms| && id in ResultIds(ms[i])
      ensures OpenFromStart(ms, open, i, id) || exists j :: Answers(ms, j, i, id)
    {
      if i == 0 {
        assert OpenFromStart(ms, open, 0, id);
      } else {
        assert rest[i - 1] == ms[i];
        if OpenFromStart(rest, next, i - 1, id) {
          if HasToolResult(ms[0]) {
            forall k | 0 <= k < i ensures HasToolResult(ms[k]) {
              assert k > 0 ==> rest[k - 1] == ms[k];
            }
          } else {
            FirstAnswers(ms, i, id);
          }
        } else {
          var j :| Answers(rest, j, i - 1, id);
          AnswersShift(ms, j + 1, i, id);
        }
      }
    }
  }

  lemma WellFormedIffPaired(ms: seq<Message>)
    ensures WellFormed(ms) <==> Paired(ms, {})
  {
    ScanIsByIndex(ms, {});
  }

  // ----- Laws of the scan -----

  lemma {:induction false} PairedAppend(a: seq<Message>, b: seq<Message>, open: set<string>)
    ensures Paired(a + b, open) <==> Paired(a, open) && Paired(b, OpenAfter(a, open))
  {
    if a == [] {
      assert a + b == b;
    } else {
      assert (a + b)[1..] == a[1..] + b;
      PairedAppend(a[1..], b, OpenAfterOne(a[0], open));
    }
  }

  lemma {:induction false} PairedMono(ms: seq<Message>, open: set<string>, more: set<string>)
    requires open <= more && Paired(ms, open)
    ensures Paired(ms, more)
  {
    if ms != [] {
      PairedMono(ms[1..], OpenAfterOne(ms[0], open), OpenAfterOne(ms[0], more));
    }
  }

  /** A history whose first message holds no result does not depend on what was open before. */
  lemma PairedFresh(ms: seq<Message>, open: set<string>, other: set<string>)
    requires ms == [] || !HasToolResult(ms[0])
    requires Paired(ms, open)
    ensures Paired(ms, other)
  {
    if ms != [] {
      ResultIdsMeansResult(ms[0]);
    }
  }

  /** What the scan sees of a message. */
  predicate SameShape(m: Message, n: Message) {
    && m.role == n.role && m.pinned == n.pinned
    && CallIds(m) == CallIds(n) && ResultIds(m) == ResultIds(n)
  }

  lemma {:induction false} PairedSameShape(a: seq<Message>, b: seq<Message>, open: set<string>)
    requires |a| == |b| && forall i :: 0 <= i < |a| ==> SameShape(a[i], b[i])
    requires Paired(a, open)
    ensures Paired(b, open)
  {
    if a != [] {
      ResultIdsMeansResult(a[0]);
      ResultIdsMeansResult(b[0]);
      PairedSameShape(a[1..], b[1..], OpenAfterOne(a[0], open));
    }
  }

  // ----- The condenser -----

  /** Setting the pinned messages aside keeps the rest paired. */
  lemma {:induction false} UnpinnedPaired(ms: seq<Message>, open: set<string>, more: set<string>)
    requires open <= more && Paired(ms, open)
    ensures Paired(Select(ms, false), more)
  {
    if ms != [] {
      ResultIdsMeansResult(ms[0]);
      if ms[0].pinned {
        assert OpenAfterOne(ms[0], open) == {};
        UnpinnedPaired(ms[1..], {}, more);
        assert Select(ms, false) == Select(ms[1..], false);
      } else {
        UnpinnedPaired(ms[1..], OpenAfterOne(ms[0], open), OpenAfterOne(ms[0], more));
        assert Select(ms, false) == [ms[0]] + Select(ms[1..], false);
      }
    }
  }

  lemma {:induction false} PinnedPaired(ms: seq<Message>, open: set<string>)
    requires Paired(ms, open)
    ensures Paired(Select(ms, true), {}) && OpenAfter(Select(ms, true), {}) == {}
  {
    if ms != [] {
      ResultIdsMeansResult(ms[0]);
      PinnedPaired(ms[1..], OpenAfterOne(ms[0], open));
      var rest := Select(ms[1..], true);
      if ms[0].pinned {
        assert Select(ms, true) == [ms[0]] + rest && ([ms[0]] + rest)[1..] == rest;
      } else {
        assert Select(ms, true) == rest;
      }
    }
  }

  lemma ElidePartKeepsIds(options: Options, m: Message)
    requires options.persist.Some?
    ensures SameShape(m, ElideMessage(options, m))
  {
    var n := ElideMessage(options, m);
    assert forall i :: 0 <= i < |m.parts| ==> n.parts[i] == ElidePart(options, m.parts[i]);
    forall id | id in CallIds(m) ensures id in CallIds(n) {
      var i :| 0 <= i < |m.parts| && m.parts[i].ToolCall? && m.parts[i].callId == id;
      assert n.parts[i] in n.parts;
    }
    forall id | id in ResultIds(m) ensures id in ResultIds(n) {
      var i :| 0 <= i < |m.parts| && m.parts[i].ToolResult? && m.parts[i].callId == id;
      assert n.parts[i] in n.parts;
    }
    forall id | id in CallIds(n) ensures id in CallIds(m) {
      var i :| 0 <= i < |m.parts| && n.parts[i].ToolCall? && n.parts[i].callId == id;
      assert m.parts[i] in m.parts;
    }
    forall id | id in ResultIds(n) ensures id in ResultIds(m) {
      var i :| 0 <= i < |m.parts| && n.parts[i].ToolResult? && n.parts[i].callId == id;
      assert m.parts[i] in m.parts;
    }
  }

  lemma ElidedShape(options: Options, history: seq<Message>)
    requires options.persist.Some?
    ensures forall i :: 0 <= i < |history| ==> SameShape(history[i], Elided(options, history)[i])
  {
    var out := Elided(options, history);
    var b := Boundary(history, options.keepRecent);
    forall i | 0 <= i < |history| ensures SameShape(history[i], out[i]) {
      if i < b {
        assert out[i] == ElideMessage(options, history[i]);
        ElidePartKeepsIds(options, history[i]);
      } else {
        assert out[i] == history[i];
      }
    }
  }

  lemma ElidedPaired(options: Options, history: seq<Message>, open: set<string>)
    requires options.persist.Some? && Paired(history, open)
    ensures Paired(Elided(options, history), open)
  {
    ElidedShape(options, history);
    PairedSameShape(history, Elided(options, history), open);
  }

  /** A message without calls and results fits between any two paired histories. */
  lemma PairedAround(head: seq<Message>, m: Message, tail: seq<Message>)
    requires Paired(head, {}) && Paired(tail, {}) && CallIds(m) == {} && ResultIds(m) == {}
    ensures Paired(head + [m] + tail, {})
  {
    ResultIdsMeansResult(m);
    assert ([m] + tail)[1..] == tail;
    PairedAppend(head, [m] + tail, {});
    assert head + [m] + tail == head + ([m] + tail);
  }

  /** Replacing the middle by a summary keeps the rest paired, wherever the head ends. */
  lemma SummarisedPaired(options: Options, history: seq<Message>)
    requires options.summarise.Some? && Paired(history, {})
    ensures Paired(Summarised(options, history), {})
  {
    var b := Boundary(history, options.keepRecent);
    var middle := Middle(options, history);
    if |middle| >= 2 {
      var head, tail := history[..options.keepFirst], history[b..];
      var summary := SummaryMessage(b, |middle|, options.summarise.value(middle));
      assert history == head + history[options.keepFirst..] == history[..b] + tail;
      PairedAppend(head, history[options.keepFirst..], {});
      PairedAppend(history[..b], tail, {});
      PairedFresh(tail, OpenAfter(history[..b], {}), {});
      assert CallIds(summary) == {} && ResultIds(summary) == {};
      PairedAround(head, summary, tail);
    }
  }

  /** For any options, condensing keeps every result behind its call. */
  lemma CondensedWellFormed(options: Options, input: seq<Message>)
    requires WellFormed(input)
    ensures WellFormed(Condensed(options, input).messages)
  {
    WellFormedIffPaired(input);
    WellFormedIffPaired(Condensed(options, input).messages);
    if TokensOfInput(input) > options.maxTokens {
      var pinned, history := Select(input, true), Select(input, false);
      PinnedPaired(input, {});
      UnpinnedPaired(input, {}, {});
      if options.persist.Some? {
        ElidedPaired(options, history, {});
      }
      var elided := AfterElision(options, history).0;
      if options.summarise.Some? {
        SummarisedPaired(options, elided);
      }
      PairedAppend(pinned, AfterSummary(options, pinned, elided).0, {});
    }
  }

  function TokensOfInput(input: seq<Message>): nat { SizeOfHistory(input).tokens }

  // ----- The cut -----

  /** Cutting at the boundary leaves every call and its results on one side. */
  lemma BoundaryKeepsPairsTogether(history: seq<Message>, keepRecent: nat, j: int, i: int, id: string)
    requires Answers(history, j, i, id)
    ensures j < Boundary(history, keepRecent) <==> i < Boundary(history, keepRecent)
  {
    var b := Boundary(history, keepRecent);
    ResultIdsMeansResult(history[i]);
    ResultIdsMeansResult(history[j]);
    assert forall k :: j < k <= i ==> HasToolResult(history[k]);
  }

  /** The boundary has the messages `j` and `i` on one side. */
  predicate OnOneSide(history: seq<Message>, keepRecent: nat, j: int, i: int) {
    j < Boundary(history, keepRecent) <==> i < Boundary(history, keepRecent)
  }

  /** No cut between `j` and `i` is safe: each has a result behind it or a call before it. */
  predicate NoSafeCutBetween(history: seq<Message>, j: nat, i: nat)
    requires j < i < |history|
  {
    forall c :: j + 1 < c < i ==> HasToolResult(history[c]) || HasToolCall(history[c - 1])
  }

  /**
   * For a call and a result behind it, the boundary keeps the two together,
   * whatever is to be kept recent, exactly when no cut between them is safe.
   */
  lemma BoundaryNeverSeparatesIff(history: seq<Message>, j: nat, i: nat)
    requires j < i < |history| && HasToolCall(history[j]) && HasToolResult(history[i])
    ensures (forall keepRecent: nat :: OnOneSide(history, keepRecent, j, i)) <==> NoSafeCutBetween(history, j, i)
  {
    if NoSafeCutBetween(history, j, i) {
      forall keepRecent: nat ensures OnOneSide(history, keepRecent, j, i) {
        var b := Boundary(history, keepRecent);
        assert b == 0 || IsSafeCut(history, b);
      }
    } else {
      var c :| j + 1 < c < i && !(HasToolResult(history[c]) || HasToolCall(history[c - 1]));
      assert IsSafeCut(history, c);
      assert Boundary(history, |history| - c) == c;
      assert !OnOneSide(history, |history| - c, j, i);
    }
  }

  /**
   * A tool message without any result is no result message: with one between a
   * call and its second result, the boundary separates the two.
   */
  lemma EmptyToolMessageSeparates() returns (history: seq<Message>)
    ensures |history| == 4 && "t2" in CallIds(history[0]) && "t2" in ResultIds(history[3])
    ensures history[1].role == history[2].role == history[3].role == Tool
    ensures Boundary(history, 2) == 2
  {
    var call := Message("a", Assistant, [ToolCall("t1", "read", Null), ToolCall("t2", "read", Null)], false);
    var first := Message("b", Tool, [ToolResult("t1", "read", Null, false, None)], false);
    var empty := Message("c", Tool, [], false);
    var second := Message("d", Tool, [ToolResult("t2", "read", Null, false, None)], false);
    history := [call, first, empty, second];
    assert call.parts[1] in call.parts && second.parts[0] in second.parts;
    assert IsSafeCut(history, 2);
  }
}

/**
 * What happens to the conversation before every model request: read from the
 * SDK, condensed, stripped for the vendor, and converted back.
 */
module Pipeline {
  import opened Common
  import opened Protocol
  import opened Adapter
  import Artifacts
  import Condenser
  import Pairing
  import Tokens

  datatype StepError = BudgetExceeded | IntegrityError(error: Artifacts.IntegrityError)

  /** The messages that leave for the vendor. */
  function Prepared(lower: string -> string, options: Condenser.Options, vendor: string, mm: seq<ModelMessage>): seq<ModelMessage> {
    ToModelAll(Artifacts.Stripped(lower, vendor, Condenser.Condensed(options, FromModelAll(mm)).messages))
  }

  /** `canProceed` is the verdict of the budget guard, which comes first. */
  method PrepareStep(lower: string -> string, options: Condenser.Options, vendor: string, canProceed: bool, mm: seq<ModelMessage>)
    returns (r: Result<seq<ModelMessage>, StepError>, writes: seq<Condenser.Write>)
    ensures r == if canProceed then Ok(Prepared(lower, options, vendor, mm)) else Err(BudgetExceeded)
    ensures writes == if canProceed then Condenser.CondenseWrites(options, FromModelAll(mm)) else []
  {
    if !canProceed { return Err(BudgetExceeded), []; }
    var outbound := FromModelAll(mm);
    var condensed;
    condensed, writes := Condenser.Condense(outbound, options);
    var forProvider := Artifacts.PrepareForProvider(lower, condensed.messages, vendor);
    match forProvider {
      case Err(lost) =>
        r := Err(IntegrityError(lost));
      case Ok(messages) =>
        var out := ToModelMessages(messages);
        r := Ok(out);
    }
  }

  // ----- The shape of a request -----

  function ModelCalls(x: ModelMessage): set<string> {
    if x.AssistantMessage? then set p | p in x.assistant && p.AssistantCall? :: p.callId else {}
  }

  function ModelResults(x: ModelMessage): set<string> {
    if x.ToolMessage? then set p | p in x.tool && p.ToolAnswer? :: p.callId else {}
  }

  /** Message `j` makes the call that a result in message `i` answers, with only result messages between. */
  ghost predicate AnswersModel(mm: seq<ModelMessage>, j: int, i: int, id: string) {
    && 0 <= j < i < |mm|
    && id in ModelCalls(mm[j]) && id in ModelResults(mm[i])
    && forall k :: j < k < i ==> ModelResults(mm[k]) != {}
  }

  ghost predicate WellFormedModel(mm: seq<ModelMessage>) {
    forall i, id :: 0 <= i < |mm| && id in ModelResults(mm[i]) ==> exists j :: AnswersModel(mm, j, i, id)
  }

  lemma FromModelShape(x: ModelMessage, index: nat)
    ensures CallIds(FromModel(x, index)) == ModelCalls(x)
    ensures ResultIds(FromModel(x, index)) == ModelResults(x)
    ensures Pairing.InPlace(FromModel(x, index))
  {
    match x
    case AssistantMessage(assistant) => AssistantShape(assistant);
    case ToolMessage(tool) => ToolShape(tool);
    case UserMessage(user) => UserShape(user);
    case _ =>
  }

  lemma {:induction false} AssistantShape(assistant: seq<AssistantPart>)
    ensures forall p :: p in FlatMap(FromAssistantPart, assistant) ==> !p.ToolResult?
    ensures forall p :: p in FlatMap(FromAssistantPart, assistant) && p.ToolCall? ==>
      exists q :: q in assistant && q.AssistantCall? && q.callId == p.callId
    ensures forall q :: q in assistant && q.AssistantCall? ==>
      ToolCall(q.callId, q.toolName, q.input) in FlatMap(FromAssistantPart, assistant)
  {
    if assistant != [] { AssistantShape(assistant[1..]); }
  }

  lemma {:induction false} ToolShape(tool: seq<ToolPart>)
    ensures forall p :: p in FlatMap(FromToolPart, tool) ==> p.ToolResult?
    ensures forall p :: p in FlatMap(FromToolPart, tool) ==>
      exists q :: q in tool && q.ToolAnswer? && q.callId == p.callId
    ensures forall q :: q in tool && q.ToolAnswer? ==>
      ToolResult(q.callId, q.toolName, UnwrapOutput(q.output), false, None) in FlatMap(FromToolPart, tool)
  {
    if tool != [] { ToolShape(tool[1..]); }
  }

  lemma {:induction false} UserShape(user: seq<UserPart>)
    ensures forall p :: p in FlatMap(FromUserPart, user) ==> !p.ToolResult? && !p.ToolCall?
  {
    if user != [] { UserShape(user[1..]); }
  }

  /** The same shape, on either side of the conversion. */
  lemma WellFormedModelIff(mm: seq<ModelMessage>)
    ensures WellFormedModel(mm) <==> Pairing.WellFormed(FromModelAll(mm))
  {
    var ms := FromModelAll(mm);
    forall i | 0 <= i < |mm| ensures CallIds(ms[i]) == ModelCalls(mm[i]) && ResultIds(ms[i]) == ModelResults(mm[i])
      && Pairing.InPlace(ms[i]) && (HasToolResult(ms[i]) <==> ModelResults(mm[i]) != {})
    {
      FromModelShape(mm[i], i);
      Pairing.ResultIdsMeansResult(ms[i]);
    }
    forall i, j, id ensures AnswersModel(mm, j, i, id) <==> Pairing.Answers(ms, j, i, id) {
    }
  }

  /** The scan of Pairing, on SDK messages. */
  predicate PairedModel(mm: seq<ModelMessage>, open: set<string>) {
    mm == [] || (ModelResults(mm[0]) <= open && PairedModel(mm[1..], if ModelResults(mm[0]) != {} then open else ModelCalls(mm[0])))
  }

  lemma {:induction false} PairedModelIsPaired(mm: seq<ModelMessage>, from: nat, open: set<string>)
    requires from <= |mm|
    ensures PairedModel(mm[from..], open) <==> Pairing.Paired(FromModelAll(mm)[from..], open)
    decreases |mm| - from
  {
    if from < |mm| {
      var x, m := mm[from], FromModelAll(mm)[from];
      assert mm[from..][1..] == mm[from + 1..];
      assert FromModelAll(mm)[from..][1..] == FromModelAll(mm)[from + 1..];
      FromModelShape(x, from);
      Pairing.ResultIdsMeansResult(m);
      PairedModelIsPaired(mm, from + 1, if ModelResults(x) != {} then open else ModelCalls(x));
    }
  }

  /** A message becomes nothing only when it makes no calls and holds no results. */
  lemma ToModelShape(m: Message)
    requires Pairing.InPlace(m)
    ensures ToModel(m) == [] ==> CallIds(m) == {} && ResultIds(m) == {}
    ensures ToModel(m) != [] ==>
      |ToModel(m)| == 1 && ModelCalls(ToModel(m)[0]) == CallIds(m) && ModelResults(ToModel(m)[0]) == ResultIds(m)
  {
    Pairing.ResultIdsMeansResult(m);
    match m.role
    case Assistant => ToAssistantShape(m.parts);
    case Tool => ToToolShape(m.parts);
    case _ =>
  }

  lemma {:induction false} ToAssistantShape(parts: seq<Part>)
    ensures forall q :: q in ToAssistantParts(parts) && q.AssistantCall? ==>
      exists p :: p in parts && p.ToolCall? && p.callId == q.callId
    ensures forall p :: p in parts && p.ToolCall? ==>
      AssistantCall(p.callId, p.toolName, p.input) in ToAssistantParts(parts)
  {
    if parts != [] { ToAssistantShape(parts[1..]); }
  }

  lemma ToToolShape(parts: seq<Part>)
    ensures forall q :: q in ToToolParts(parts) ==>
      q.ToolAnswer? && exists p :: p in parts && p.ToolResult? && p.callId == q.callId
    ensures forall p :: p in parts && p.ToolResult? ==>
      exists q :: q in ToToolParts(parts) && q.ToolAnswer? && q.callId == p.callId
  {
    forall q | q in ToToolParts(parts)
      ensures q.ToolAnswer? && exists p :: p in parts && p.ToolResult? && p.callId == q.callId
    {
      FlatMapMember(ToToolPart, parts, q);
    }
    forall p | p in parts && p.ToolResult? ensures exists q :: q in ToToolParts(parts) && q.ToolAnswer? && q.callId == p.callId {
      FlatMapContains(ToToolPart, parts, p);
      assert ToToolPart(p)[0] in ToToolPart(p);
    }
  }

  /** Converting, which drops empty messages, keeps every result behind its call. */
  lemma {:induction false} SentPaired(ms: seq<Message>, open: set<string>, more: set<string>)
    requires open <= more && Pairing.Paired(ms, open)
    ensures PairedModel(ToModelAll(ms), more)
  {
    if ms != [] {
      var m, rest := ms[0], ToModelAll(ms[1..]);
      ToModelShape(m);
      Pairing.ResultIdsMeansResult(m);
      if ToModel(m) == [] {
        assert ToModelAll(ms) == rest;
        SentPaired(ms[1..], {}, more);
      } else {
        assert ToModelAll(ms) == [ToModel(m)[0]] + rest;
        SentPaired(ms[1..], Pairing.OpenAfterOne(m, open), Pairing.OpenAfterOne(m, more));
      }
    }
  }

  lemma StrippedShape(lower: string -> string, vendor: string, m: Message)
    ensures Pairing.SameShape(m, Artifacts.StrippedMessage(lower, vendor, m))
  {
    Artifacts.KeptPartsMembers(lower, vendor, m.parts);
  }

  /**
   * One request: whatever the options and the vendor, if every result in the
   * SDK's messages follows its call, so does every result that is sent.
   */
  lemma PreparedWellFormed(lower: string -> string, options: Condenser.Options, vendor: string, mm: seq<ModelMessage>)
    requires WellFormedModel(mm)
    ensures WellFormedModel(Prepared(lower, options, vendor, mm))
  {
    var condensed := Condenser.Condensed(options, FromModelAll(mm)).messages;
    var stripped := Artifacts.Stripped(lower, vendor, condensed);
    var out := ToModelAll(stripped);
    WellFormedModelIff(mm);
    Pairing.CondensedWellFormed(options, FromModelAll(mm));
    Pairing.WellFormedIffPaired(condensed);
    forall i | 0 <= i < |condensed| ensures Pairing.SameShape(condensed[i], stripped[i]) {
      StrippedShape(lower, vendor, condensed[i]);
    }
    Pairing.PairedSameShape(condensed, stripped, {});
    SentPaired(stripped, {}, {});
    PairedModelIsPaired(out, 0, {});
    assert out[0..] == out && FromModelAll(out)[0..] == FromModelAll(out);
    Pairing.WellFormedIffPaired(FromModelAll(out));
    WellFormedModelIff(out);
  }

  // ----- Many rounds -----

  /** The model answers, its messages are appended, and the next request is prepared. */
  datatype Round = Round(appended: seq<ModelMessage>, options: Condenser.Options, vendor: string)

  function AfterRounds(lower: string -> string, mm: seq<ModelMessage>, rounds: seq<Round>): seq<ModelMessage>
    decreases |rounds|
  {
    if rounds == [] then mm
    else AfterRounds(lower, Prepared(lower, rounds[0].options, rounds[0].vendor, mm + rounds[0].appended), rounds[1..])
  }

  lemma WellFormedAppend(a: seq<ModelMessage>, b: seq<ModelMessage>)
    requires WellFormedModel(a) && WellFormedModel(b)
    ensures WellFormedModel(a + b)
  {
    var c := a + b;
    forall i, id | 0 <= i < |c| && id in ModelResults(c[i]) ensures exists j :: AnswersModel(c, j, i, id) {
      if i < |a| {
        var j :| AnswersModel(a, j, i, id);
        assert AnswersModel(c, j, i, id);
      } else {
        var j :| AnswersModel(b, j, i - |a|, id);
        forall k | j + |a| < k < i ensures ModelResults(c[k]) != {} {
          assert c[k] == b[k - |a|];
        }
        assert AnswersModel(c, j + |a|, i, id);
      }
    }
  }

  /** One more round is one more request, on what the rounds before have sent and what has been appended since. */
  lemma {:induction false} OneMoreRound(lower: string -> string, mm: seq<ModelMessage>, rounds: seq<Round>, last: Round)
    ensures AfterRounds(lower, mm, rounds + [last])
         == Prepared(lower, last.options, last.vendor, AfterRounds(lower, mm, rounds) + last.appended)
    decreases |rounds|
  {
    if rounds == [] {
      assert rounds + [last] == [last] && [last][1..] == [];
      assert AfterRounds(lower, mm, [last]) == AfterRounds(lower, Prepared(lower, last.options, last.vendor, mm + last.appended), []);
    } else {
      assert (rounds + [last])[1..] == rounds[1..] + [last];
      OneMoreRound(lower, Prepared(lower, rounds[0].options, rounds[0].vendor, mm + rounds[0].appended), rounds[1..], last);
    }
  }

  /** Any number of rounds, each with options and a vendor of its own. */
  lemma {:induction false} RoundsWellFormed(lower: string -> string, mm: seq<ModelMessage>, rounds: seq<Round>)
    requires WellFormedModel(mm) && forall r :: r in rounds ==> WellFormedModel(r.appended)
    ensures WellFormedModel(AfterRounds(lower, mm, rounds))
    decreases |rounds|
  {
    if rounds != [] {
      var r := rounds[0];
      WellFormedAppend(mm, r.appended);
      PreparedWellFormed(lower, r.options, r.vendor, mm + r.appended);
      RoundsWellFormed(lower, Prepared(lower, r.options, r.vendor, mm + r.appended), rounds[1..]);
    }
  }

  // ----- When nothing changes -----

  predicate MessageHasReasoning(x: ModelMessage) { x.AssistantMessage? && exists p :: p in x.assistant && p.AssistantReasoning? }

  predicate HasReasoning(mm: seq<ModelMessage>) { exists x :: x in mm && MessageHasReasoning(x) }

  predicate MessageIsForeign(lower: string -> string, vendor: string, m: Message) {
    exists p :: p in m.parts && Artifacts.IsForeign(lower, vendor, p)
  }

  /** Reasoning read back from the SDK has lost its provider, so it is foreign to every real vendor. */
  lemma ReadReasoningIsForeign(lower: string -> string, vendor: string, mm: seq<ModelMessage>)
    ensures (exists m :: m in FromModelAll(mm) && MessageIsForeign(lower, vendor, m))
       <==> HasReasoning(mm) && !Artifacts.SameProvider(lower, "unknown", vendor)
  {
    var ms := FromModelAll(mm);
    forall i | 0 <= i < |mm| ensures MessageIsForeign(lower, vendor, ms[i])
       <==> MessageHasReasoning(mm[i]) && !Artifacts.SameProvider(lower, "unknown", vendor) {
      MessageForeignIff(lower, vendor, mm[i], i);
    }
    assert (exists m :: m in ms && MessageIsForeign(lower, vendor, m)) <==> exists i :: 0 <= i < |mm| && MessageIsForeign(lower, vendor, ms[i]);
    assert (exists x :: x in mm && MessageHasReasoning(x)) <==> exists i :: 0 <= i < |mm| && MessageHasReasoning(mm[i]);
  }

  lemma MessageForeignIff(lower: string -> string, vendor: string, x: ModelMessage, i: nat)
    ensures MessageIsForeign(lower, vendor, FromModel(x, i))
       <==> MessageHasReasoning(x) && !Artifacts.SameProvider(lower, "unknown", vendor)
  {
    var m := FromModel(x, i);
    if MessageIsForeign(lower, vendor, m) {
      var p :| p in m.parts && Artifacts.IsForeign(lower, vendor, p);
      OnlyReasoningReadBack(x, i, p);
    }
    if MessageHasReasoning(x) {
      var q :| q in x.assistant && q.AssistantReasoning?;
      FlatMapContains(FromAssistantPart, x.assistant, q);
      var p := ReasoningPart(q.text, "unknown", None);
      assert p in FromAssistantPart(q) && p in m.parts;
    }
  }

  lemma OnlyReasoningReadBack(x: ModelMessage, i: nat, p: Part)
    requires p in FromModel(x, i).parts && p.ReasoningPart?
    ensures x.AssistantMessage? && AssistantReasoning(p.text) in x.assistant && p.provider == "unknown"
  {
    match x
    case UserMessage(user) => FlatMapMember(FromUserPart, user, p);
    case AssistantMessage(assistant) => FlatMapMember(FromAssistantPart, assistant, p);
    case ToolMessage(tool) => FlatMapMember(FromToolPart, tool, p);
    case _ =>
  }

  lemma {:induction false} FlatMapContains<A, B>(f: A -> seq<B>, s: seq<A>, a: A)
    requires a in s
    ensures forall b :: b in f(a) ==> b in FlatMap(f, s)
  {
    if a != s[0] { FlatMapContains(f, s[1..], a); }
  }

  /**
   * A history that was already sent once and fits the budget goes out unchanged
   * exactly when it carries no reasoning (or the vendor is the placeholder that
   * reasoning gets when it is read back).
   */
  lemma FittingHistoryUnchangedIff(lower: string -> string, options: Condenser.Options, vendor: string, ms: seq<Message>)
    requires Tokens.TokensOf(FromModelAll(ToModelAll(ms))) <= options.maxTokens
    ensures Prepared(lower, options, vendor, ToModelAll(ms)) == ToModelAll(ms)
       <==> !HasReasoning(ToModelAll(ms)) || Artifacts.SameProvider(lower, "unknown", vendor)
  {
    var mm := ToModelAll(ms);
    var ours := FromModelAll(mm);
    var stripped := Artifacts.Stripped(lower, vendor, ours);
    assert Prepared(lower, options, vendor, mm) == ToModelAll(stripped);
    SendIsRetraction(ms);
    Artifacts.StrippedIsSameIff(lower, vendor, ours);
    ReadReasoningIsForeign(lower, vendor, mm);
    if HasReasoning(mm) && !Artifacts.SameProvider(lower, "unknown", vendor) {
      StrippedHasNoReasoning(lower, vendor, mm);
    }
  }

  lemma StrippedMessageHasNoReasoning(lower: string -> string, vendor: string, x: ModelMessage, i: nat)
    requires !Artifacts.SameProvider(lower, "unknown", vendor)
    ensures forall p :: p in Artifacts.StrippedMessage(lower, vendor, FromModel(x, i)).parts ==> !p.ReasoningPart?
  {
    var parts := FromModel(x, i).parts;
    Artifacts.KeptPartsMembers(lower, vendor, parts);
    forall p | p in parts && p.ReasoningPart? ensures Artifacts.IsForeign(lower, vendor, p) {
      OnlyReasoningReadBack(x, i, p);
    }
  }

  lemma SentWithoutReasoning(m: Message)
    requires forall p :: p in m.parts ==> !p.ReasoningPart?
    ensures !HasReasoning(ToModel(m))
  {
    forall p | p in ToAssistantParts(m.parts) ensures !p.AssistantReasoning? {
      FlatMapMember(ToAssistantPart, m.parts, p);
    }
  }

  lemma StrippedHasNoReasoning(lower: string -> string, vendor: string, mm: seq<ModelMessage>)
    requires !Artifacts.SameProvider(lower, "unknown", vendor)
    ensures !HasReasoning(ToModelAll(Artifacts.Stripped(lower, vendor, FromModelAll(mm))))
  {
    var stripped := Artifacts.Stripped(lower, vendor, FromModelAll(mm));
    forall x | x in ToModelAll(stripped) ensures !HasReasoning([x]) {
      FlatMapMember(ToModel, stripped, x);
      var m :| m in stripped && x in ToModel(m);
      var i :| 0 <= i < |stripped| && stripped[i] == m;
      StrippedMessageHasNoReasoning(lower, vendor, mm[i], i);
      SentWithoutReasoning(m);
    }
    assert forall x :: x in ToModelAll(stripped) ==> x in [x];
  }

  /**
   * What one request carries: of the condensed history, stripped for the vendor,
   * every message that has something to send arrives, in order, part by part.
   */
  lemma RequestCarries(lower: string -> string, options: Condenser.Options, vendor: string, mm: seq<ModelMessage>)
    ensures var condensed := Condenser.Condensed(options, FromModelAll(mm)).messages;
            var spoken := Speaking(Artifacts.Stripped(lower, vendor, condensed));
            var back := FromModelAll(Prepared(lower, options, vendor, mm));
            |back| == |spoken| && forall k :: 0 <= k < |back| ==> MessageArrived(spoken[k], back[k])
  {
    HistoryArrives(Artifacts.Stripped(lower, vendor, Condenser.Condensed(options, FromModelAll(mm)).messages));
  }
}

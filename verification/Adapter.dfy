/** Conversion between our messages and the message types of the model SDK. */
module Adapter {
  import opened Common
  import opened Protocol
  import opened Text

  // ----- The SDK's types, as far as the conversion looks into them -----

  /** Binary content: bytes, or a URL or base64 text that cannot be turned back into bytes here. */
  datatype Binary = Raw(bytes: Bytes) | Textual(text: string)

  datatype UserPart =
    | UserText(text: string)
    | UserImage(image: Binary, mediaType: Option<string>)
    | UserFile(file: Binary, fileType: string, filename: Option<string>)

  datatype AssistantPart =
    | AssistantText(text: string)
    | AssistantReasoning(text: string)
    | AssistantCall(callId: string, toolName: string, input: Json)
    | AssistantOther

  /** A wrapped tool output; `Bare` stands for the wrapper objects that have no `value`. */
  datatype Wrapped = Valued(kind: string, value: Json) | Bare(whole: Json)

  datatype ToolPart = ToolAnswer(callId: string, toolName: string, output: Wrapped) | ToolOther

  datatype ModelMessage =
    | SystemMessage(text: string)
    | UserString(text: string)
    | UserMessage(user: seq<UserPart>)
    | AssistantString(text: string)
    | AssistantMessage(assistant: seq<AssistantPart>)
    | ToolMessage(tool: seq<ToolPart>)

  // ----- Our messages to the SDK's -----

  function AttachmentNote(filename: Option<string>, path: Option<string>): string {
    "[attachment unavailable: "
    + (if filename.Some? then filename.value else if path.Some? then path.value else "undefined") + "]"
  }

  function ToUserPart(p: Part): seq<UserPart> {
    match p
    case TextPart(text) => if text != "" then [UserText(text)] else []
    case FilePart(path, mediaType, filename, data) =>
      if data.None? then [UserText(AttachmentNote(filename, path))]
      else if StartsWith(mediaType, "image/") then [UserImage(Raw(data.value), Some(mediaType))]
      else [UserFile(Raw(data.value), mediaType, OnlyTruthy(filename))]
    case _ => []
  }

  function ToAssistantPart(p: Part): seq<AssistantPart> {
    match p
    case TextPart(text) => if text != "" then [AssistantText(text)] else []
    case ReasoningPart(text, _, _) => if text != "" then [AssistantReasoning(text)] else []
    case ToolCall(callId, toolName, input) => [AssistantCall(callId, toolName, input)]
    case _ => []
  }

  function ToToolPart(p: Part): seq<ToolPart> {
    match p
    case ToolResult(callId, toolName, output, _, _) =>
      [ToolAnswer(callId, toolName, Valued(if output.Str? then "text" else "json", output))]
    case _ => []
  }

  /** Every part replaced by what `f` makes of it. */
  function FlatMap<A, B>(f: A -> seq<B>, s: seq<A>): seq<B> {
    if s == [] then [] else f(s[0]) + FlatMap(f, s[1..])
  }

  function ToUserParts(parts: seq<Part>): seq<UserPart> { FlatMap(ToUserPart, parts) }
  function ToAssistantParts(parts: seq<Part>): seq<AssistantPart> { FlatMap(ToAssistantPart, parts) }
  function ToToolParts(parts: seq<Part>): seq<ToolPart> { FlatMap(ToToolPart, parts) }

  /** What one message becomes: one SDK message, or none. */
  function ToModel(m: Message): seq<ModelMessage> {
    match m.role
    case System => []
    case User =>
      var content := ToUserParts(m.parts);
      if content == [] then []
      else if |content| == 1 && content[0].UserText? then [UserString(content[0].text)]
      else [UserMessage(content)]
    case Assistant =>
      var content := ToAssistantParts(m.parts);
      if content == [] then [] else [AssistantMessage(content)]
    case Tool =>
      var content := ToToolParts(m.parts);
      if content == [] then [] else [ToolMessage(content)]
  }

  function ToModelAll(ms: seq<Message>): seq<ModelMessage> { FlatMap(ToModel, ms) }

  // ----- The SDK's messages to ours -----

  function ToBytes(b: Binary): Option<Bytes> { if b.Raw? then Some(b.bytes) else None }

  function FromUserPart(p: UserPart): seq<Part> {
    match p
    case UserText(text) => [TextPart(text)]
    case UserImage(image, mediaType) =>
      [FilePart(None, if mediaType.Some? then mediaType.value else "image/png", None, ToBytes(image))]
    case UserFile(file, fileType, filename) => [FilePart(None, fileType, OnlyTruthy(filename), ToBytes(file))]
  }

  function FromAssistantPart(p: AssistantPart): seq<Part> {
    match p
    case AssistantText(text) => [TextPart(text)]
    case AssistantReasoning(text) => [ReasoningPart(text, "unknown", None)]
    case AssistantCall(callId, toolName, input) => [ToolCall(callId, toolName, input)]
    case AssistantOther => []
  }

  function UnwrapOutput(output: Wrapped): Json { if output.Valued? then output.value else output.whole }

  function FromToolPart(p: ToolPart): seq<Part> {
    match p
    case ToolAnswer(callId, toolName, output) => [ToolResult(callId, toolName, UnwrapOutput(output), false, None)]
    case ToolOther => []
  }

  function FromModel(m: ModelMessage, index: nat): Message {
    var id := "sdk-" + Decimal(index);
    match m
    case SystemMessage(text) => Message(id, System, [TextPart(text)], false)
    case UserString(text) => Message(id, User, [TextPart(text)], false)
    case UserMessage(user) => Message(id, User, FlatMap(FromUserPart, user), false)
    case AssistantString(text) => Message(id, Assistant, [TextPart(text)], false)
    case AssistantMessage(assistant) => Message(id, Assistant, FlatMap(FromAssistantPart, assistant), false)
    case ToolMessage(tool) => Message(id, Tool, FlatMap(FromToolPart, tool), false)
  }

  function FromModelAll(mm: seq<ModelMessage>): (r: seq<Message>)
    ensures |r| == |mm|
    ensures forall i :: 0 <= i < |mm| ==> r[i] == FromModel(mm[i], i)
  {
    seq(|mm|, i requires 0 <= i < |mm| => FromModel(mm[i], i))
  }

  // ----- The loops -----

  /** The loop of `userContent`, `assistantContent`, `toolContent` and of the parts in `fromModelMessages`. */
  method PushAll<A, B>(f: A -> seq<B>, s: seq<A>) returns (out: seq<B>)
    ensures out == FlatMap(f, s)
  {
    out := [];
    for i := 0 to |s|
      invariant out + FlatMap(f, s[i..]) == FlatMap(f, s)
    {
      assert s[i..][1..] == s[i + 1..];
      out := out + f(s[i]);
    }
  }

  method ToModelMessage(m: Message) returns (out: seq<ModelMessage>)
    ensures out == ToModel(m)
  {
    match m.role {
      case System => out := [];
      case User =>
        var content := PushAll(ToUserPart, m.parts);
        if |content| == 0 { return []; }
        var only := |content| == 1 && content[0].UserText?;
        out := [if only then UserString(content[0].text) else UserMessage(content)];
      case Assistant =>
        var content := PushAll(ToAssistantPart, m.parts);
        out := if |content| > 0 then [AssistantMessage(content)] else [];
      case Tool =>
        var content := PushAll(ToToolPart, m.parts);
        out := if |content| > 0 then [ToolMessage(content)] else [];
    }
  }

  method ToModelMessages(messages: seq<Message>) returns (out: seq<ModelMessage>)
    ensures out == ToModelAll(messages)
  {
    out := [];
    for i := 0 to |messages|
      invariant out + ToModelAll(messages[i..]) == ToModelAll(messages)
    {
      assert messages[i..][1..] == messages[i + 1..];
      var more := ToModelMessage(messages[i]);
      out := out + more;
    }
  }

  // ----- Retraction -----

  lemma {:induction false} FlatMapAppend<A, B>(f: A -> seq<B>, a: seq<A>, b: seq<A>)
    ensures FlatMap(f, a + b) == FlatMap(f, a) + FlatMap(f, b)
  {
    if a == [] {
      assert a + b == b;
    } else {
      assert (a + b)[1..] == a[1..] + b;
      FlatMapAppend(f, a[1..], b);
      assert f(a[0]) + (FlatMap(f, a[1..]) + FlatMap(f, b)) == f(a[0]) + FlatMap(f, a[1..]) + FlatMap(f, b);
    }
  }

  /** When `f` after `g` gives back every single element, it gives back the list. */
  lemma {:induction false} FlatMapRoundTrip<A, B>(g: B -> seq<A>, f: A -> seq<B>, s: seq<B>)
    requires forall x :: x in s ==> |g(x)| == 1 && f(g(x)[0]) == [x]
    ensures FlatMap(f, FlatMap(g, s)) == s
  {
    if s != [] {
      FlatMapRoundTrip(g, f, s[1..]);
      FlatMapAppend(f, g(s[0]), FlatMap(g, s[1..]));
      assert g(s[0]) == [g(s[0])[0]];
      assert FlatMap(f, g(s[0])) == f(g(s[0])[0]) + FlatMap(f, []);
      assert s == [s[0]] + s[1..];
    }
  }

  lemma {:induction false} FlatMapMember<A, B>(f: A -> seq<B>, s: seq<A>, x: B)
    requires x in FlatMap(f, s)
    ensures exists a :: a in s && x in f(a)
  {
    if x !in f(s[0]) {
      FlatMapMember(f, s[1..], x);
    }
  }

  lemma UserRetraction(parts: seq<Part>)
    ensures FlatMap(ToUserPart, FlatMap(FromUserPart, ToUserParts(parts))) == ToUserParts(parts)
    ensures forall u :: u in ToUserParts(parts) && u.UserText? ==> u.text != ""
  {
    var content := ToUserParts(parts);
    forall u | u in content ensures |FromUserPart(u)| == 1 && ToUserPart(FromUserPart(u)[0]) == [u] && (u.UserText? ==> u.text != "") {
      FlatMapMember(ToUserPart, parts, u);
    }
    FlatMapRoundTrip(FromUserPart, ToUserPart, content);
  }

  lemma AssistantRetraction(parts: seq<Part>)
    ensures FlatMap(ToAssistantPart, FlatMap(FromAssistantPart, ToAssistantParts(parts))) == ToAssistantParts(parts)
  {
    var content := ToAssistantParts(parts);
    forall a | a in content ensures |FromAssistantPart(a)| == 1 && ToAssistantPart(FromAssistantPart(a)[0]) == [a] {
      FlatMapMember(ToAssistantPart, parts, a);
    }
    FlatMapRoundTrip(FromAssistantPart, ToAssistantPart, content);
  }

  lemma ToolRetraction(parts: seq<Part>)
    ensures FlatMap(ToToolPart, FlatMap(FromToolPart, ToToolParts(parts))) == ToToolParts(parts)
  {
    var content := ToToolParts(parts);
    forall t | t in content ensures |FromToolPart(t)| == 1 && ToToolPart(FromToolPart(t)[0]) == [t] {
      FlatMapMember(ToToolPart, parts, t);
    }
    FlatMapRoundTrip(FromToolPart, ToToolPart, content);
  }

  /** Converting what one message became, and converting it back, changes nothing. */
  lemma ModelMessageRetraction(m: Message, index: nat)
    ensures forall x :: x in ToModel(m) ==> ToModel(FromModel(x, index)) == [x]
  {
    match m.role
    case System =>
    case User =>
      var content := ToUserParts(m.parts);
      UserRetraction(m.parts);
      if |content| == 1 && content[0].UserText? {
        TextOnly(content[0].text);
      }
    case Assistant => AssistantRetraction(m.parts);
    case Tool => ToolRetraction(m.parts);
  }

  lemma TextOnly(text: string)
    requires text != ""
    ensures ToUserParts([TextPart(text)]) == [UserText(text)]
  {
    var parts := [TextPart(text)];
    assert parts[1..] == [];
    assert FlatMap(ToUserPart, parts) == [UserText(text)] + FlatMap(ToUserPart, []);
  }

  lemma SentNext(mm: seq<ModelMessage>, from: nat)
    requires from < |mm|
    ensures ToModelAll(FromModelAll(mm)[from..]) == ToModel(FromModel(mm[from], from)) + ToModelAll(FromModelAll(mm)[from + 1..])
  {
    var ours := FromModelAll(mm)[from..];
    assert ours[0] == FromModel(mm[from], from) && ours[1..] == FromModelAll(mm)[from + 1..];
  }

  lemma OneInFront(mm: seq<ModelMessage>, from: nat, rest: seq<ModelMessage>)
    requires from < |mm| && rest == mm[from + 1..]
    ensures [mm[from]] + rest == mm[from..]
  {
  }

  /** Messages each of which survives the round trip survive it together. */
  lemma {:induction false} SentListRoundTrip(mm: seq<ModelMessage>, from: nat)
    requires from <= |mm|
    requires forall x, index :: x in mm ==> ToModel(FromModel(x, index)) == [x]
    ensures ToModelAll(FromModelAll(mm)[from..]) == mm[from..]
    decreases |mm| - from
  {
    if from < |mm| {
      SentListRoundTrip(mm, from + 1);
      assert mm[from] in mm;
      SentNext(mm, from);
      OneInFront(mm, from, ToModelAll(FromModelAll(mm)[from + 1..]));
    }
  }

  /** Sending, reading back what was sent, and sending again sends the same. */
  lemma SendIsRetraction(ms: seq<Message>)
    ensures ToModelAll(FromModelAll(ToModelAll(ms))) == ToModelAll(ms)
  {
    var mm := ToModelAll(ms);
    forall x, index | x in mm ensures ToModel(FromModel(x, index)) == [x] {
      FlatMapMember(ToModel, ms, x);
      var m :| m in ms && x in ToModel(m);
      ModelMessageRetraction(m, index);
    }
    SentListRoundTrip(mm, 0);
    assert FromModelAll(mm)[0..] == FromModelAll(mm) && mm[0..] == mm;
  }

  // ----- What arrives -----

  /** The parts that a message of this role has something to send for. */
  predicate IsSendable(role: Role, p: Part) {
    match role
    case System => false
    case User => (p.TextPart? && p.text != "") || p.FilePart?
    case Assistant => ((p.TextPart? || p.ReasoningPart?) && p.text != "") || p.ToolCall?
    case Tool => p.ToolResult?
  }

  function SendableParts(role: Role, parts: seq<Part>): seq<Part> {
    if parts == [] then []
    else (if IsSendable(role, parts[0]) then [parts[0]] else []) + SendableParts(role, parts[1..])
  }

  predicate IsImage(p: Part) { p.FilePart? && StartsWith(p.mediaType, "image/") }

  /** `q` carries what the vendor is to see of `p`. */
  predicate Arrives(p: Part, q: Part) {
    if p.TextPart? then q == p
    else if p.ReasoningPart? then q.ReasoningPart? && q.text == p.text
    else if p.ToolCall? then q == p
    else if p.ToolResult? then q.ToolResult? && q.callId == p.callId && q.toolName == p.toolName && q.output == p.output
    else if p.data.None? then
      && q.TextPart?
      && (p.filename.Some? ==> q.text == "[attachment unavailable: " + p.filename.value + "]")
      && (p.filename.None? && p.path.Some? ==> q.text == "[attachment unavailable: " + p.path.value + "]")
    else
      q.FilePart? && q.data == p.data && q.mediaType == p.mediaType
      && (!IsImage(p) && Truthy(p.filename) ==> q.filename == p.filename)
  }

  ghost predicate AllArrive(ps: seq<Part>, qs: seq<Part>) {
    |ps| == |qs| && forall k :: 0 <= k < |ps| ==> Arrives(ps[k], qs[k])
  }

  lemma {:induction false} PartsArrive<B>(role: Role, f: Part -> seq<B>, g: B -> seq<Part>, parts: seq<Part>)
    requires forall p :: !IsSendable(role, p) ==> f(p) == []
    requires forall p :: IsSendable(role, p) ==> |f(p)| == 1 && |g(f(p)[0])| == 1 && Arrives(p, g(f(p)[0])[0])
    ensures |FlatMap(f, parts)| == |SendableParts(role, parts)|
    ensures AllArrive(SendableParts(role, parts), FlatMap(g, FlatMap(f, parts)))
  {
    if parts != [] {
      var p := parts[0];
      PartsArrive(role, f, g, parts[1..]);
      FlatMapAppend(g, f(p), FlatMap(f, parts[1..]));
      if IsSendable(role, p) {
        assert f(p) == [f(p)[0]] && f(p)[1..] == [];
        assert FlatMap(g, f(p)) == g(f(p)[0]) + FlatMap(g, []);
        assert FlatMap(g, f(p)) == [g(f(p)[0])[0]];
      } else {
        assert FlatMap(g, f(p)) == [];
      }
    }
  }

  lemma {:induction false} NothingSendable(role: Role, parts: seq<Part>)
    ensures SendableParts(role, parts) == [] <==> forall p :: p in parts ==> !IsSendable(role, p)
  {
    if parts != [] {
      NothingSendable(role, parts[1..]);
      assert parts == [parts[0]] + parts[1..];
    }
  }

  lemma UserPartArrives(p: Part)
    ensures !IsSendable(User, p) ==> ToUserPart(p) == []
    ensures IsSendable(User, p) ==> |ToUserPart(p)| == 1 && |FromUserPart(ToUserPart(p)[0])| == 1
                                    && Arrives(p, FromUserPart(ToUserPart(p)[0])[0])
  {
  }

  /** Nothing is sent, or one message of this role in which all these parts have arrived. */
  ghost predicate AllSent(m: Message, index: nat) {
    && (ToModel(m) == [] <==> SendableParts(m.role, m.parts) == [])
    && (ToModel(m) != [] ==>
          var back := FromModel(ToModel(m)[0], index);
          && |ToModel(m)| == 1 && back.role == m.role && !back.pinned
          && AllArrive(SendableParts(m.role, m.parts), back.parts))
  }

  lemma UserMessageSent(m: Message, index: nat)
    requires m.role.User?
    ensures AllSent(m, index)
  {
    forall p { UserPartArrives(p); }
    PartsArrive(User, ToUserPart, FromUserPart, m.parts);
    var content := ToUserParts(m.parts);
    if |content| == 1 {
      assert content[1..] == [];
      assert FlatMap(FromUserPart, content) == FromUserPart(content[0]) + FlatMap(FromUserPart, []);
    }
  }

  lemma MessageSent(m: Message, index: nat)
    ensures AllSent(m, index)
  {
    match m.role
    case System => NothingSendable(System, m.parts);
    case User => UserMessageSent(m, index);
    case Assistant => PartsArrive(Assistant, ToAssistantPart, FromAssistantPart, m.parts);
    case Tool => PartsArrive(Tool, ToToolPart, FromToolPart, m.parts);
  }

  /**
   * What one message sends: nothing exactly when it has nothing to send, and
   * otherwise one SDK message of its role in which, read back, every such part
   * has arrived, in order.
   */
  lemma MessageArrives(m: Message, index: nat)
    ensures ToModel(m) == [] <==> forall p :: p in m.parts ==> !IsSendable(m.role, p)
    ensures ToModel(m) != [] ==>
              var back := FromModel(ToModel(m)[0], index);
              && |ToModel(m)| == 1 && back.role == m.role && !back.pinned
              && AllArrive(SendableParts(m.role, m.parts), back.parts)
  {
    NothingSendable(m.role, m.parts);
    MessageSent(m, index);
  }

  /** The messages with something to send. */
  function Speaking(ms: seq<Message>): seq<Message> {
    if ms == [] then []
    else (if SendableParts(ms[0].role, ms[0].parts) != [] then [ms[0]] else []) + Speaking(ms[1..])
  }

  ghost predicate MessageArrived(m: Message, back: Message) {
    back.role == m.role && AllArrive(SendableParts(m.role, m.parts), back.parts)
  }

  lemma {:induction false} SentInOrder(ms: seq<Message>)
    ensures |ToModelAll(ms)| == |Speaking(ms)|
    ensures forall k, index :: 0 <= k < |ToModelAll(ms)| ==> MessageArrived(Speaking(ms)[k], FromModel(ToModelAll(ms)[k], index))
  {
    if ms != [] {
      SentInOrder(ms[1..]);
      var m := ms[0];
      NothingSendable(m.role, m.parts);
      MessageArrives(m, 0);
      forall k, index | 0 <= k < |ToModelAll(ms)| ensures MessageArrived(Speaking(ms)[k], FromModel(ToModelAll(ms)[k], index)) {
        MessageArrives(m, index);
        var j := if ToModel(m) == [] then k else k - 1;
        if j >= 0 {
          assert ToModelAll(ms)[k] == ToModelAll(ms[1..])[j] && Speaking(ms)[k] == Speaking(ms[1..])[j];
        }
      }
    }
  }

  /** The whole history arrives: each message with something to send, in order, with all it has to send. */
  lemma HistoryArrives(ms: seq<Message>)
    ensures var back := FromModelAll(ToModelAll(ms));
            && |back| == |Speaking(ms)|
            && forall k :: 0 <= k < |back| ==> MessageArrived(Speaking(ms)[k], back[k])
  {
    SentInOrder(ms);
  }

  // ----- Which SDK messages survive being read and sent -----

  predicate IsCanonicalUser(p: UserPart) {
    match p
    case UserText(text) => text != ""
    case UserImage(image, mediaType) => image.Raw? && mediaType.Some? && StartsWith(mediaType.value, "image/")
    case UserFile(file, fileType, filename) => file.Raw? && !StartsWith(fileType, "image/") && filename != Some("")
  }

  predicate IsCanonicalAssistant(p: AssistantPart) {
    match p
    case AssistantText(text) => text != ""
    case AssistantReasoning(text) => text != ""
    case AssistantCall(_, _, _) => true
    case AssistantOther => false
  }

  /** An answer wrapped by the kind of its value. */
  predicate IsCanonicalTool(p: ToolPart) {
    p.ToolAnswer? && p.output.Valued? && p.output.kind == if p.output.value.Str? then "text" else "json"
  }

  /** An SDK message as this code would have sent it. */
  predicate IsCanonical(x: ModelMessage) {
    match x
    case SystemMessage(_) => false
    case UserString(text) => text != ""
    case UserMessage(user) => user != [] && (forall p :: p in user ==> IsCanonicalUser(p)) && !(|user| == 1 && user[0].UserText?)
    case AssistantString(_) => false
    case AssistantMessage(assistant) => assistant != [] && forall p :: p in assistant ==> IsCanonicalAssistant(p)
    case ToolMessage(tool) => tool != [] && forall p :: p in tool ==> IsCanonicalTool(p)
  }

  lemma ConcatIsIff<T>(first: seq<T>, rest: seq<T>, s: seq<T>)
    requires s != [] && |first| <= 1 && |rest| < |s|
    ensures first + rest == s <==> first == [s[0]] && rest == s[1..]
  {
    if first + rest == s {
      assert (first + rest)[1..] == rest;
    }
  }

  /** What a list of parts becomes, when each is read as one part or none and sent as one or none. */
  lemma {:induction false} SurvivesIffEachDoes<B>(g: B -> seq<Part>, f: Part -> seq<B>, s: seq<B>)
    requires forall x :: |FlatMap(f, g(x))| <= 1
    ensures |FlatMap(f, FlatMap(g, s))| <= |s|
    ensures FlatMap(f, FlatMap(g, s)) == s <==> forall x :: x in s ==> FlatMap(f, g(x)) == [x]
  {
    if s != [] {
      var rest := FlatMap(f, FlatMap(g, s[1..]));
      SurvivesIffEachDoes(g, f, s[1..]);
      FlatMapAppend(f, g(s[0]), FlatMap(g, s[1..]));
      ConcatIsIff(FlatMap(f, g(s[0])), rest, s);
      assert s == [s[0]] + s[1..];
    }
  }

  lemma SingletonFlatMap<A, B>(f: A -> seq<B>, s: seq<A>)
    requires |s| <= 1
    ensures FlatMap(f, s) == if s == [] then [] else f(s[0])
  {
    if s != [] {
      assert s[1..] == [];
      assert FlatMap(f, s) == f(s[0]) + FlatMap(f, []);
    }
  }

  lemma UserPartSurvivesIff(p: UserPart)
    ensures |FlatMap(ToUserPart, FromUserPart(p))| <= 1
    ensures FlatMap(ToUserPart, FromUserPart(p)) == [p] <==> IsCanonicalUser(p)
  {
    SingletonFlatMap(ToUserPart, FromUserPart(p));
  }

  lemma AssistantPartSurvivesIff(p: AssistantPart)
    ensures |FlatMap(ToAssistantPart, FromAssistantPart(p))| <= 1
    ensures FlatMap(ToAssistantPart, FromAssistantPart(p)) == [p] <==> IsCanonicalAssistant(p)
  {
    SingletonFlatMap(ToAssistantPart, FromAssistantPart(p));
  }

  lemma ToolPartSurvivesIff(p: ToolPart)
    ensures |FlatMap(ToToolPart, FromToolPart(p))| <= 1
    ensures FlatMap(ToToolPart, FromToolPart(p)) == [p] <==> IsCanonicalTool(p)
  {
    SingletonFlatMap(ToToolPart, FromToolPart(p));
  }

  lemma UserMessageSurvivesIff(user: seq<UserPart>, index: nat)
    ensures ToModel(FromModel(UserMessage(user), index)) == [UserMessage(user)] <==> IsCanonical(UserMessage(user))
  {
    forall p ensures |FlatMap(ToUserPart, FromUserPart(p))| <= 1 && (FlatMap(ToUserPart, FromUserPart(p)) == [p] <==> IsCanonicalUser(p)) {
      UserPartSurvivesIff(p);
    }
    SurvivesIffEachDoes(FromUserPart, ToUserPart, user);
  }

  /**
   * Reading an SDK message and sending it again gives the same message exactly
   * when it is one this code would send: no empty text, no content that cannot be
   * read, no answer wrapped as another kind, and a lone user text as a string.
   */
  lemma SurvivesIffCanonical(x: ModelMessage, index: nat)
    ensures ToModel(FromModel(x, index)) == [x] <==> IsCanonical(x)
  {
    match x
    case SystemMessage(_) =>
    case UserString(text) => SingletonFlatMap(ToUserPart, [TextPart(text)]);
    case UserMessage(user) => UserMessageSurvivesIff(user, index);
    case AssistantString(text) =>
    case AssistantMessage(assistant) =>
      forall p ensures |FlatMap(ToAssistantPart, FromAssistantPart(p))| <= 1 && (FlatMap(ToAssistantPart, FromAssistantPart(p)) == [p] <==> IsCanonicalAssistant(p)) {
        AssistantPartSurvivesIff(p);
      }
      SurvivesIffEachDoes(FromAssistantPart, ToAssistantPart, assistant);
    case ToolMessage(tool) =>
      forall p ensures |FlatMap(ToToolPart, FromToolPart(p))| <= 1 && (FlatMap(ToToolPart, FromToolPart(p)) == [p] <==> IsCanonicalTool(p)) {
        ToolPartSurvivesIff(p);
      }
      SurvivesIffEachDoes(FromToolPart, ToToolPart, tool);
  }

  /** Everything sent is of that form. */
  lemma SentIsCanonical(ms: seq<Message>, k: nat)
    requires k < |ToModelAll(ms)|
    ensures IsCanonical(ToModelAll(ms)[k])
  {
    FlatMapMember(ToModel, ms, ToModelAll(ms)[k]);
    var m :| m in ms && ToModelAll(ms)[k] in ToModel(m);
    ModelMessageRetraction(m, 0);
    SurvivesIffCanonical(ToModelAll(ms)[k], 0);
  }

  /** What the SDK writes in other forms is read all the same: strings as text, bare outputs as they are, unreadable content as missing, an image of no type as PNG. */
  lemma OtherFormsAreRead(text: string, callId: string, toolName: string, output: Json, mediaType: string, bytes: Bytes,
      index: nat)
    ensures FromModel(SystemMessage(text), index).parts == [TextPart(text)]
    ensures ToModel(FromModel(AssistantString(text), index)) == if text == "" then [] else [AssistantMessage([AssistantText(text)])]
    ensures ToModel(FromModel(ToolMessage([ToolAnswer(callId, toolName, Bare(output))]), index))
         == ToModel(FromModel(ToolMessage([ToolAnswer(callId, toolName, Valued("json", output))]), index))
    ensures ToModel(FromModel(UserMessage([UserFile(Textual(text), mediaType, None)]), index))
         == [UserString("[attachment unavailable: " + "undefined" + "]")]
    ensures ToModel(FromModel(UserMessage([UserImage(Raw(bytes), None)]), index)) == [UserMessage([UserImage(Raw(bytes), Some("image/png"))])]
  {
    SingletonFlatMap(ToAssistantPart, [TextPart(text)]);
    SingletonFlatMap(FromToolPart, [ToolAnswer(callId, toolName, Bare(output))]);
    SingletonFlatMap(FromToolPart, [ToolAnswer(callId, toolName, Valued("json", output))]);
    SingletonFlatMap(FromUserPart, [UserImage(Raw(bytes), None)]);
    SingletonFlatMap(ToUserPart, [FilePart(None, "image/png", None, Some(bytes))]);
    assert "image/" <= "image/png";
    var unread := FilePart(None, mediaType, None, None);
    SingletonFlatMap(FromUserPart, [UserFile(Textual(text), mediaType, None)]);
    SingletonFlatMap(ToUserPart, [unread]);
    assert ToUserPart(unread) == [UserText("[attachment unavailable: " + "undefined" + "]")];
  }
}

/** The conversation model: messages made of parts. */
module Protocol {
  import opened Common

  /**
   * A JSON value as far as the code looks into it. A container or scalar other
   * than a string is represented by its two serialisations, without and with
   * indentation.
   */
  datatype Json = Str(text: string) | Null | Undefined | Other(compact: string, pretty: string)

  type Bytes = seq<int>

  datatype Part =
    | TextPart(text: string)
    | ReasoningPart(text: string, provider: string, signature: Option<string>)
    | ToolCall(callId: string, toolName: string, input: Json)
    | ToolResult(callId: string, toolName: string, output: Json, isError: bool, elidedTo: Option<string>)
    | FilePart(path: Option<string>, mediaType: string, filename: Option<string>, data: Option<Bytes>)

  datatype Role = System | User | Assistant | Tool

  datatype Message = Message(id: string, role: Role, parts: seq<Part>, pinned: bool)

  predicate HasToolCall(m: Message) { exists p :: p in m.parts && p.ToolCall? }

  predicate HasToolResult(m: Message) { exists p :: p in m.parts && p.ToolResult? }

  function CallIds(m: Message): set<string> { set p | p in m.parts && p.ToolCall? :: p.callId }

  function ResultIds(m: Message): set<string> { set p | p in m.parts && p.ToolResult? :: p.callId }

  /** The messages whose `pinned` flag is `flag`, in order. */
  function Select(ms: seq<Message>, flag: bool): (r: seq<Message>)
    ensures |r| <= |ms|
  {
    if ms == [] then [] else (if ms[0].pinned == flag then [ms[0]] else []) + Select(ms[1..], flag)
  }

  lemma {:induction false} SelectAll(ms: seq<Message>)
    requires forall m :: m in ms ==> !m.pinned
    ensures Select(ms, false) == ms && Select(ms, true) == []
  {
    if ms != [] {
      assert ms[0] in ms;
      SelectAll(ms[1..]);
      assert ms == [ms[0]] + ms[1..];
    }
  }

  /** How many parts of the history are such that `f` holds. */
  function CountParts(f: Part -> bool, parts: seq<Part>): nat {
    if parts == [] then 0 else (if f(parts[0]) then 1 else 0) + CountParts(f, parts[1..])
  }

  function CountInHistory(f: Part -> bool, ms: seq<Message>): nat {
    if ms == [] then 0 else CountParts(f, ms[0].parts) + CountInHistory(f, ms[1..])
  }

  lemma {:induction false} CountAppend(f: Part -> bool, a: seq<Message>, b: seq<Message>)
    ensures CountInHistory(f, a + b) == CountInHistory(f, a) + CountInHistory(f, b)
  {
    if a == [] {
      assert a + b == b;
    } else {
      assert (a + b)[1..] == a[1..] + b;
      CountAppend(f, a[1..], b);
    }
  }

  lemma {:induction false} SelectCounts(f: Part -> bool, ms: seq<Message>)
    ensures |Select(ms, true)| + |Select(ms, false)| == |ms|
    ensures CountInHistory(f, Select(ms, true)) + CountInHistory(f, Select(ms, false)) == CountInHistory(f, ms)
  {
    if ms != [] {
      SelectCounts(f, ms[1..]);
      var rest := Select(ms[1..], ms[0].pinned);
      assert ([ms[0]] + rest)[1..] == rest;
      assert [] + Select(ms[1..], !ms[0].pinned) == Select(ms[1..], !ms[0].pinned);
    }
  }
}

/**
 * The lossless pass, with the session's persist hook: outputs go to files of
 * the workspace, and reading those files back gives the history back.
 */
module Elision {
  import opened Common
  import opened Protocol
  import opened Condenser
  import opened Text
  import Compaction
  import Paths
  import Split
  import Pairing

  type Files = map<string, string>

  /** The hook's file for a tool output. */
  function PathFor(callId: string): string { "/.elided/" + callId + ".json" }

  /** The hook's file contents: a string as it is, anything else as indented JSON. */
  function Render(output: Json): string {
    match output
    case Str(text) => text
    case Null => "null"
    case Undefined => ""
    case Other(_, pretty) => pretty
  }

  ghost predicate UsesWorkspace(options: Options) {
    options.persist.Some? && forall id, output :: options.persist.value(id, output) == PathFor(id)
  }

  /** The file that the workspace resolves a path to. */
  function FileOf(path: string): string { Paths.Normalise(path) }

  function FileFor(callId: string): string { FileOf(PathFor(callId)) }

  lemma PathForInjective(a: string, b: string)
    ensures PathFor(a) == PathFor(b) ==> a == b
  {
    assert |PathFor(a)| == |a| + |"/.elided/"| + |".json"|;
    assert |PathFor(b)| == |b| + |"/.elided/"| + |".json"|;
    assert PathFor(a)[|"/.elided/"|..|"/.elided/"| + |a|] == a;
    assert PathFor(b)[|"/.elided/"|..|"/.elided/"| + |b|] == b;
  }

  /** A call id without a slash has its file under its own name. */
  lemma PlainIdFile(id: string)
    requires '/' !in id
    ensures FileFor(id) == PathFor(id)
  {
    var name := id + ".json";
    var rest := ".elided" + "/" + name;
    assert PathFor(id) == "/" + rest && PathFor(id)[1..] == rest;
    Paths.FirstPiece(".elided", name);
    Paths.NoSlashNoSplit(name);
    assert |name| >= 5 && Split.Pieces(rest, Paths.SEP) == [".elided", name];
    Paths.NormalIffSegments(PathFor(id));
  }

  /** Such ids never share a file. */
  lemma PlainIdsHaveOwnFiles(a: string, b: string)
    requires '/' !in a && '/' !in b
    ensures FileFor(a) == FileFor(b) <==> a == b
  {
    PlainIdFile(a);
    PlainIdFile(b);
    PathForInjective(a, b);
  }

  /** With slashes they can: a dot segment names the same file. */
  lemma DottedIdSharesFile(id: string)
    ensures FileFor("./" + id) == FileFor(id) && "./" + id != id
  {
    var name := id + ".json";
    assert PathFor(id) == "/" + (".elided" + "/" + name);
    assert PathFor("./" + id) == "/" + (".elided" + "/" + ("." + "/" + name));
    Paths.LeadingSlash([], ".elided" + "/" + name);
    Paths.LeadingSlash([], ".elided" + "/" + ("." + "/" + name));
    Paths.FirstSegment([], ".elided", name);
    Paths.FirstSegment([], ".elided", "." + "/" + name);
    Paths.FirstSegment(Paths.Push([], ".elided"), ".", name);
    assert |"./" + id| == |id| + 2;
  }

  /** The files after the persist calls complete in the order `writes`. */
  function WriteAll(files: Files, writes: seq<Write>): Files
    decreases |writes|
  {
    if writes == [] then files else WriteAll(files[FileOf(writes[0].path) := Render(writes[0].output)], writes[1..])
  }

  /** Where all writes agree, and one happened or the file was right before, the order does not matter. */
  lemma {:induction false} WriteAllAt(files: Files, writes: seq<Write>, file: string, contents: string)
    requires forall w :: w in writes && FileOf(w.path) == file ==> Render(w.output) == contents
    requires (exists w :: w in writes && FileOf(w.path) == file) || (file in files && files[file] == contents)
    ensures file in WriteAll(files, writes) && WriteAll(files, writes)[file] == contents
    decreases |writes|
  {
    if writes != [] {
      var first := writes[0];
      assert first in writes;
      assert forall w :: w in writes ==> w == first || w in writes[1..];
      WriteAllAt(files[FileOf(first.path) := Render(first.output)], writes[1..], file, contents);
    }
  }

  // ----- Reading back -----

  function RestorePart(decode: string -> Json, files: Files, p: Part): Part {
    if p.ToolResult? && Truthy(p.elidedTo) && FileOf(p.elidedTo.value) in files
    then p.(output := decode(files[FileOf(p.elidedTo.value)]), elidedTo := None)
    else p
  }

  function RestoreMessage(decode: string -> Json, files: Files, m: Message): Message {
    m.(parts := MapSeq(p => RestorePart(decode, files, p), m.parts))
  }

  function Restore(decode: string -> Json, files: Files, ms: seq<Message>): (r: seq<Message>)
    ensures |r| == |ms|
    ensures forall i :: 0 <= i < |ms| ==> r[i] == RestoreMessage(decode, files, ms[i])
  {
    MapSeq(m => RestoreMessage(decode, files, m), ms)
  }

  // ----- What a compacted history stands for -----

  /** `p` is `original`, or its placeholder while the file holds its output. */
  predicate StandsFor(files: Files, p: Part, original: Part) {
    || p == original
    || (&& original.ToolResult? && p.ToolResult?
        && p == original.(output := p.output, elidedTo := Some(PathFor(original.callId)))
        && FileFor(original.callId) in files && files[FileFor(original.callId)] == Render(original.output))
  }

  predicate MessageStandsFor(files: Files, m: Message, original: Message) {
    && m == original.(parts := m.parts)
    && |m.parts| == |original.parts|
    && forall k :: 0 <= k < |m.parts| ==> StandsFor(files, m.parts[k], original.parts[k])
  }

  predicate HistoryStandsFor(files: Files, ms: seq<Message>, original: seq<Message>) {
    |ms| == |original| && forall i :: 0 <= i < |ms| ==> MessageStandsFor(files, ms[i], original[i])
  }

  ghost predicate InHistory(p: Part, ms: seq<Message>) {
    exists m :: m in ms && p in m.parts
  }

  /** Nothing is elided yet. */
  ghost predicate Unelided(ms: seq<Message>) {
    forall p :: InHistory(p, ms) && p.ToolResult? ==> p.elidedTo == None
  }

  /** The files of their calls tell results apart. */
  ghost predicate FilesIdentifyResults(ms: seq<Message>) {
    forall p, q :: InHistory(p, ms) && InHistory(q, ms) && p.ToolResult? && q.ToolResult? && FileFor(p.callId) == FileFor(q.callId) ==>
      p == q
  }

  /** Distinct call ids without slashes do. */
  lemma PlainIdsIdentifyResults(ms: seq<Message>)
    requires forall p :: InHistory(p, ms) && p.ToolResult? ==> '/' !in p.callId
    requires forall p, q :: InHistory(p, ms) && InHistory(q, ms) && p.ToolResult? && q.ToolResult? && p.callId == q.callId ==> p == q
    ensures FilesIdentifyResults(ms)
  {
    forall p, q | InHistory(p, ms) && InHistory(q, ms) && p.ToolResult? && q.ToolResult? && FileFor(p.callId) == FileFor(q.callId)
      ensures p == q
    {
      PlainIdsHaveOwnFiles(p.callId, q.callId);
    }
  }

  /** `decode` reads the outputs of these results back from their files. */
  ghost predicate Decodes(decode: string -> Json, ms: seq<Message>) {
    forall p :: InHistory(p, ms) && p.ToolResult? ==> decode(Render(p.output)) == p.output
  }

  lemma RestoreOfStandsFor(decode: string -> Json, files: Files, ms: seq<Message>, original: seq<Message>)
    requires HistoryStandsFor(files, ms, original) && Unelided(original) && Decodes(decode, original)
    ensures Restore(decode, files, ms) == original
  {
    forall i | 0 <= i < |ms| ensures RestoreMessage(decode, files, ms[i]) == original[i] {
      var m, o := ms[i], original[i];
      forall k | 0 <= k < |m.parts| ensures RestorePart(decode, files, m.parts[k]) == o.parts[k] {
        assert o in original && o.parts[k] in o.parts && InHistory(o.parts[k], original);
      }
      assert RestoreMessage(decode, files, m).parts == o.parts;
    }
  }

  // ----- One pass -----

  /** `w` persists the output of `p`. */
  predicate WriteOf(options: Options, w: Write, p: Part)
    requires options.persist.Some?
  {
    ShouldElide(options, p) && w == Write(options.persist.value(p.callId, p.output), p.callId, p.output)
  }

  lemma {:induction false} PartWritesAre(options: Options, parts: seq<Part>)
    requires options.persist.Some?
    ensures forall w :: w in PartWrites(options, parts) ==> exists p :: p in parts && WriteOf(options, w, p)
    ensures forall p :: p in parts && ShouldElide(options, p) ==>
      Write(options.persist.value(p.callId, p.output), p.callId, p.output) in PartWrites(options, parts)
  {
    if parts != [] {
      PartWritesAre(options, parts[1..]);
      var rest := PartWrites(options, parts[1..]);
      forall w | w in PartWrites(options, parts) ensures exists p :: p in parts && WriteOf(options, w, p) {
        if w in rest {
          var p :| p in parts[1..] && WriteOf(options, w, p);
          assert p in parts;
        } else {
          assert WriteOf(options, w, parts[0]) && parts[0] in parts;
        }
      }
    }
  }

  lemma {:induction false} MessageWritesAre(options: Options, ms: seq<Message>)
    requires options.persist.Some?
    ensures forall w :: w in MessageWrites(options, ms) ==> exists m, p :: m in ms && p in m.parts && WriteOf(options, w, p)
    ensures forall m, p :: m in ms && p in m.parts && ShouldElide(options, p) ==>
      Write(options.persist.value(p.callId, p.output), p.callId, p.output) in MessageWrites(options, ms)
  {
    if ms != [] {
      PartWritesAre(options, ms[0].parts);
      MessageWritesAre(options, ms[1..]);
    }
  }

  lemma WriteHasPart(options: Options, ms: seq<Message>, w: Write) returns (m: Message, p: Part)
    requires options.persist.Some? && w in MessageWrites(options, ms)
    ensures m in ms && p in m.parts && WriteOf(options, w, p)
  {
    MessageWritesAre(options, ms);
    m, p :| m in ms && p in m.parts && WriteOf(options, w, p);
  }

  /** Every write of a pass comes from a result that the history still carries in full. */
  lemma WriteComesFrom(options: Options, files: Files, ms: seq<Message>, original: seq<Message>, w: Write) returns (p: Part)
    requires UsesWorkspace(options) && HistoryStandsFor(files, ms, original)
    requires w in Writes(options, ms)
    ensures InHistory(p, original) && WriteOf(options, w, p)
  {
    var before := ms[..Boundary(ms, options.keepRecent)];
    var m;
    m, p := WriteHasPart(options, before, w);
    var i :| 0 <= i < |before| && before[i] == m;
    var k :| 0 <= k < |m.parts| && m.parts[k] == p;
    assert MessageStandsFor(files, ms[i], original[i]);
    assert original[i] in original && original[i].parts[k] in original[i].parts;
  }

  /** The file of a result, after a pass, whichever order the writes took. */
  lemma FileAfterPass(options: Options, files: Files, ms: seq<Message>, original: seq<Message>, order: seq<Write>, p: Part)
    requires UsesWorkspace(options) && HistoryStandsFor(files, ms, original) && FilesIdentifyResults(original)
    requires multiset(order) == multiset(Writes(options, ms))
    requires InHistory(p, original) && p.ToolResult?
    requires (exists w :: w in order && FileOf(w.path) == FileFor(p.callId))
          || (FileFor(p.callId) in files && files[FileFor(p.callId)] == Render(p.output))
    ensures FileFor(p.callId) in WriteAll(files, order) && WriteAll(files, order)[FileFor(p.callId)] == Render(p.output)
  {
    forall w | w in order && FileOf(w.path) == FileFor(p.callId) ensures Render(w.output) == Render(p.output) {
      assert w in multiset(order);
      var q := WriteComesFrom(options, files, ms, original, w);
    }
    WriteAllAt(files, order, FileFor(p.callId), Render(p.output));
  }

  lemma PartStandsAfterPass(
      options: Options, files: Files, ms: seq<Message>, original: seq<Message>, order: seq<Write>, i: nat, k: nat)
    requires UsesWorkspace(options) && HistoryStandsFor(files, ms, original) && FilesIdentifyResults(original)
    requires multiset(order) == multiset(Writes(options, ms))
    requires i < |ms| && k < |ms[i].parts|
    ensures var p, o := ms[i].parts[k], original[i].parts[k];
            StandsFor(WriteAll(files, order), if i < Boundary(ms, options.keepRecent) then ElidePart(options, p) else p, o)
  {
    var b := Boundary(ms, options.keepRecent);
    var p, o := ms[i].parts[k], original[i].parts[k];
    assert MessageStandsFor(files, ms[i], original[i]);
    assert original[i] in original && o in original[i].parts && InHistory(o, original);
    if i < b && ShouldElide(options, p) {
      MessageWritesAre(options, ms[..b]);
      assert ms[..b][i] in ms[..b] && p in ms[..b][i].parts;
      var w := Write(PathFor(p.callId), p.callId, p.output);
      assert w in multiset(order);
      FileAfterPass(options, files, ms, original, order, o);
    } else if p != o {
      FileAfterPass(options, files, ms, original, order, o);
    }
  }

  lemma ElidedAt(options: Options, ms: seq<Message>, i: nat)
    requires options.persist.Some? && i < |ms|
    ensures Elided(options, ms)[i] == if i < Boundary(ms, options.keepRecent) then ElideMessage(options, ms[i]) else ms[i]
  {
  }

  lemma MessageStandsAfterPass(options: Options, files: Files, ms: seq<Message>, original: seq<Message>, order: seq<Write>, i: nat)
    requires UsesWorkspace(options) && HistoryStandsFor(files, ms, original) && FilesIdentifyResults(original)
    requires multiset(order) == multiset(Writes(options, ms)) && i < |ms|
    ensures MessageStandsFor(WriteAll(files, order), Elided(options, ms)[i], original[i])
  {
    var after := WriteAll(files, order);
    assert MessageStandsFor(files, ms[i], original[i]);
    ElidedAt(options, ms, i);
    forall k | 0 <= k < |ms[i].parts| ensures StandsFor(after, Elided(options, ms)[i].parts[k], original[i].parts[k]) {
      PartStandsAfterPass(options, files, ms, original, order, i, k);
    }
  }

  /** A pass leaves a history that stands for the same original. */
  lemma PassStandsFor(options: Options, files: Files, ms: seq<Message>, original: seq<Message>, order: seq<Write>)
    requires UsesWorkspace(options) && HistoryStandsFor(files, ms, original) && FilesIdentifyResults(original)
    requires multiset(order) == multiset(Writes(options, ms))
    ensures HistoryStandsFor(WriteAll(files, order), Elided(options, ms), original)
  {
    forall i | 0 <= i < |ms| ensures MessageStandsFor(WriteAll(files, order), Elided(options, ms)[i], original[i]) {
      MessageStandsAfterPass(options, files, ms, original, order, i);
    }
  }

  // ----- Many passes -----

  /** Messages arrive, and then a pass runs whose writes complete in `order`. */
  datatype Pass = Pass(appended: seq<Message>, options: Options, order: seq<Write>)

  datatype State = State(messages: seq<Message>, files: Files)

  function AfterPass(s: State, pass: Pass): State
    requires pass.options.persist.Some?
  {
    State(Elided(pass.options, s.messages + pass.appended), WriteAll(s.files, pass.order))
  }

  ghost predicate IsPass(s: State, pass: Pass) {
    && UsesWorkspace(pass.options)
    && multiset(pass.order) == multiset(Writes(pass.options, s.messages + pass.appended))
  }

  ghost predicate IsPasses(s: State, passes: seq<Pass>)
    decreases |passes|
  {
    passes == [] ||
    (IsPass(s, passes[0]) && IsPasses(AfterPass(s, passes[0]), passes[1..]))
  }

  ghost function AfterPasses(s: State, passes: seq<Pass>): State
    requires IsPasses(s, passes)
    decreases |passes|
  {
    if passes == [] then s else AfterPasses(AfterPass(s, passes[0]), passes[1..])
  }

  function Appended(passes: seq<Pass>): seq<Message> {
    if passes == [] then [] else passes[0].appended + Appended(passes[1..])
  }

  lemma InHistoryMono(p: Part, ms: seq<Message>, more: seq<Message>)
    requires InHistory(p, ms)
    ensures InHistory(p, ms + more)
  {
    var m :| m in ms && p in m.parts;
    assert m in ms + more;
  }

  lemma IdentifiedInFront(ms: seq<Message>, more: seq<Message>)
    requires FilesIdentifyResults(ms + more)
    ensures FilesIdentifyResults(ms)
  {
    forall p, q | InHistory(p, ms) && InHistory(q, ms) && p.ToolResult? && q.ToolResult? && FileFor(p.callId) == FileFor(q.callId)
      ensures p == q
    {
      InHistoryMono(p, ms, more);
      InHistoryMono(q, ms, more);
    }
  }

  lemma AppendedStandsFor(s: State, pass: Pass, original: seq<Message>)
    requires HistoryStandsFor(s.files, s.messages, original)
    ensures HistoryStandsFor(s.files, s.messages + pass.appended, original + pass.appended)
  {
  }

  ghost predicate StateStandsFor(s: State, original: seq<Message>) { HistoryStandsFor(s.files, s.messages, original) }

  lemma OnePassStandsFor(s: State, pass: Pass, original: seq<Message>)
    requires IsPass(s, pass) && StateStandsFor(s, original) && FilesIdentifyResults(original + pass.appended)
    ensures StateStandsFor(AfterPass(s, pass), original + pass.appended)
  {
    AppendedStandsFor(s, pass, original);
    PassStandsFor(pass.options, s.files, s.messages + pass.appended, original + pass.appended, pass.order);
  }

  lemma AppendedNext(original: seq<Message>, passes: seq<Pass>)
    requires passes != []
    ensures original + Appended(passes) == original + passes[0].appended + Appended(passes[1..])
  {
  }

  lemma {:induction false} PassesStandFor(s: State, passes: seq<Pass>, original: seq<Message>)
    requires IsPasses(s, passes) && StateStandsFor(s, original)
    requires FilesIdentifyResults(original + Appended(passes))
    ensures StateStandsFor(AfterPasses(s, passes), original + Appended(passes))
    decreases |passes|
  {
    if passes == [] {
      assert original + Appended(passes) == original;
    } else {
      AppendedNext(original, passes);
      IdentifiedInFront(original + passes[0].appended, Appended(passes[1..]));
      OnePassStandsFor(s, passes[0], original);
      PassesStandFor(AfterPass(s, passes[0]), passes[1..], original + passes[0].appended);
    }
  }

  /**
   * However many passes ran, with whatever options, and in whatever order their
   * writes completed: reading the files back gives the whole history.
   */
  lemma ElisionIsLossless(decode: string -> Json, history: seq<Message>, files: Files, passes: seq<Pass>)
    requires IsPasses(State(history, files), passes)
    requires Unelided(history + Appended(passes)) && FilesIdentifyResults(history + Appended(passes))
    requires Decodes(decode, history + Appended(passes))
    ensures var t := AfterPasses(State(history, files), passes);
            Restore(decode, t.files, t.messages) == history + Appended(passes)
  {
    forall i | 0 <= i < |history| ensures MessageStandsFor(files, history[i], history[i]) {
    }
    PassesStandFor(State(history, files), passes, history);
    var t := AfterPasses(State(history, files), passes);
    RestoreOfStandsFor(decode, t.files, t.messages, history + Appended(passes));
  }

  // ----- When one pass is lossless -----

  /** Outputs persisted to one file are the same output. */
  ghost predicate WritesAgree(writes: seq<Write>) {
    forall v, w :: v in writes && w in writes && FileOf(v.path) == FileOf(w.path) ==> v.output == w.output
  }

  lemma ElidedPartFile(options: Options, files: Files, ms: seq<Message>, order: seq<Write>, p: Part)
    requires UsesWorkspace(options) && multiset(order) == multiset(Writes(options, ms)) && WritesAgree(Writes(options, ms))
    requires InHistory(p, ms[..Boundary(ms, options.keepRecent)]) && ShouldElide(options, p)
    ensures FileFor(p.callId) in WriteAll(files, order) && WriteAll(files, order)[FileFor(p.callId)] == Render(p.output)
  {
    var before := ms[..Boundary(ms, options.keepRecent)];
    MessageWritesAre(options, before);
    var own := Write(PathFor(p.callId), p.callId, p.output);
    assert own in Writes(options, ms) && own in multiset(order);
    forall w | w in order && FileOf(w.path) == FileFor(p.callId) ensures Render(w.output) == Render(p.output) {
      assert w in multiset(order) && w in Writes(options, ms);
    }
    WriteAllAt(files, order, FileFor(p.callId), Render(p.output));
  }

  lemma AgreeingPassRestoresMessage(
      decode: string -> Json, options: Options, files: Files, history: seq<Message>, order: seq<Write>, i: nat)
    requires UsesWorkspace(options) && Unelided(history) && Decodes(decode, history)
    requires multiset(order) == multiset(Writes(options, history)) && WritesAgree(Writes(options, history))
    requires i < Boundary(history, options.keepRecent)
    ensures RestoreMessage(decode, WriteAll(files, order), ElideMessage(options, history[i])) == history[i]
  {
    var before := history[..Boundary(history, options.keepRecent)];
    var m, out := history[i], ElideMessage(options, history[i]);
    assert before[i] in before && m in history;
    forall k | 0 <= k < |m.parts| ensures RestorePart(decode, WriteAll(files, order), out.parts[k]) == m.parts[k] {
      var p := m.parts[k];
      assert p in m.parts && InHistory(p, history) && InHistory(p, before);
      if ShouldElide(options, p) {
        ElidedPartFile(options, files, history, order, p);
      }
    }
    assert RestoreMessage(decode, WriteAll(files, order), out).parts == m.parts;
  }

  lemma AgreeingPassRestores(decode: string -> Json, options: Options, files: Files, history: seq<Message>, order: seq<Write>)
    requires UsesWorkspace(options) && Unelided(history) && Decodes(decode, history)
    requires multiset(order) == multiset(Writes(options, history)) && WritesAgree(Writes(options, history))
    ensures Restore(decode, WriteAll(files, order), Elided(options, history)) == history
  {
    var files', out := WriteAll(files, order), Elided(options, history);
    forall i | 0 <= i < |history| ensures RestoreMessage(decode, files', out[i]) == history[i] {
      ElidedAt(options, history, i);
      if i < Boundary(history, options.keepRecent) {
        AgreeingPassRestoresMessage(decode, options, files, history, order, i);
      } else {
        UntouchedRestores(decode, files', history, i);
      }
    }
  }

  lemma UntouchedRestores(decode: string -> Json, files: Files, history: seq<Message>, i: nat)
    requires Unelided(history) && i < |history|
    ensures RestoreMessage(decode, files, history[i]) == history[i]
  {
    var m := history[i];
    assert m in history;
    forall k | 0 <= k < |m.parts| ensures RestorePart(decode, files, m.parts[k]) == m.parts[k] {
      assert m.parts[k] in m.parts && InHistory(m.parts[k], history);
    }
    assert RestoreMessage(decode, files, m).parts == m.parts;
  }

  /** Where a restored pass gives the history back, the file of an elided result holds its own output. */
  lemma RestoredFile(decode: string -> Json, options: Options, files: Files, history: seq<Message>, p: Part)
    requires UsesWorkspace(options)
    requires Restore(decode, files, Elided(options, history)) == history
    requires InHistory(p, history[..Boundary(history, options.keepRecent)]) && ShouldElide(options, p)
    ensures FileFor(p.callId) in files ==> decode(files[FileFor(p.callId)]) == p.output
  {
    var before := history[..Boundary(history, options.keepRecent)];
    var m :| m in before && p in m.parts;
    var i :| 0 <= i < |before| && before[i] == m;
    var k :| 0 <= k < |m.parts| && m.parts[k] == p;
    var out := Elided(options, history);
    assert out[i] == ElideMessage(options, m);
    assert Restore(decode, files, out)[i].parts[k] == RestorePart(decode, files, ElidePart(options, p));
  }

  /**
   * A pass over a history with nothing elided is lossless, in any order of its
   * writes, exactly when results it elides to one file have one output.
   */
  lemma PassIsLosslessIff(decode: string -> Json, options: Options, files: Files, history: seq<Message>, order: seq<Write>)
    requires UsesWorkspace(options) && Unelided(history) && Decodes(decode, history)
    requires multiset(order) == multiset(Writes(options, history))
    ensures Restore(decode, WriteAll(files, order), Elided(options, history)) == history
       <==> WritesAgree(Writes(options, history))
  {
    var writes := Writes(options, history);
    var files' := WriteAll(files, order);
    if WritesAgree(writes) {
      AgreeingPassRestores(decode, options, files, history, order);
    }
    if Restore(decode, files', Elided(options, history)) == history {
      var before := history[..Boundary(history, options.keepRecent)];
      MessageWritesAre(options, before);
      forall v, w | v in writes && w in writes && FileOf(v.path) == FileOf(w.path) ensures v.output == w.output {
        var m, p :| m in before && p in m.parts && WriteOf(options, v, p);
        var n, q :| n in before && q in n.parts && WriteOf(options, w, q);
        WrittenFileExists(files, order, FileOf(v.path)) by { assert v in multiset(order); }
        RestoredFile(decode, options, files', history, p);
        RestoredFile(decode, options, files', history, q);
      }
    }
  }

  lemma {:induction false} WrittenFileExists(files: Files, writes: seq<Write>, file: string)
    requires file in files || exists w :: w in writes && FileOf(w.path) == file
    ensures file in WriteAll(files, writes)
    decreases |writes|
  {
    if writes != [] {
      assert forall w :: w in writes ==> w == writes[0] || w in writes[1..];
      WrittenFileExists(files[FileOf(writes[0].path) := Render(writes[0].output)], writes[1..], file);
    }
  }

  /** The file does not tell a string from the JSON value it spells: no decoder serves both. */
  lemma FileDoesNotShowKind(compact: string, pretty: string, decode: string -> Json)
    ensures Str(pretty) != Other(compact, pretty) && Render(Str(pretty)) == Render(Other(compact, pretty))
    ensures !(decode(Render(Str(pretty))) == Str(pretty) && decode(Render(Other(compact, pretty))) == Other(compact, pretty))
    ensures Render(Str("null")) == Render(Null)
  {
  }

  /** Outputs that are written alike are the same. */
  ghost predicate RenderingsTellApart(ms: seq<Message>) {
    forall p, q :: InHistory(p, ms) && InHistory(q, ms) && p.ToolResult? && q.ToolResult? && Render(p.output) == Render(q.output) ==>
      p.output == q.output
  }

  ghost predicate IsRendering(ms: seq<Message>, p: Part, text: string) {
    InHistory(p, ms) && p.ToolResult? && Render(p.output) == text
  }

  ghost function Decoder(ms: seq<Message>, text: string): Json {
    if exists p :: IsRendering(ms, p, text) then
      var p :| IsRendering(ms, p, text);
      p.output
    else Null
  }

  /** The outputs of a history can be read back from their files exactly when no two different ones are written alike. */
  lemma DecoderExistsIff(ms: seq<Message>)
    ensures (exists decode: string -> Json :: Decodes(decode, ms)) <==> RenderingsTellApart(ms)
  {
    if RenderingsTellApart(ms) {
      var decode: string -> Json := text => Decoder(ms, text);
      forall p | InHistory(p, ms) && p.ToolResult? ensures decode(Render(p.output)) == p.output {
        assert IsRendering(ms, p, Render(p.output));
      }
      assert Decodes(decode, ms);
    }
  }

  /** A string that spells what another output, no string, is written as. */
  ghost predicate StringSpellsOther(ms: seq<Message>) {
    exists p, q :: InHistory(p, ms) && InHistory(q, ms) && p.ToolResult? && q.ToolResult?
      && p.output.Str? && !q.output.Str? && p.output.text == Render(q.output)
  }

  /** As indented JSON is: values that are no strings are the same when they are written alike. */
  ghost predicate JsonTellsApart(ms: seq<Message>) {
    forall p, q :: InHistory(p, ms) && InHistory(q, ms) && p.ToolResult? && q.ToolResult?
      && !p.output.Str? && !q.output.Str? && Render(p.output) == Render(q.output)
      ==> p.output == q.output
  }

  /** The outputs of a history can be read back exactly when no string among them spells the JSON of another. */
  lemma DecoderExistsIffNoStringSpells(ms: seq<Message>)
    requires JsonTellsApart(ms)
    ensures (exists decode: string -> Json :: Decodes(decode, ms)) <==> !StringSpellsOther(ms)
  {
    DecoderExistsIff(ms);
    if !StringSpellsOther(ms) {
      forall p, q | InHistory(p, ms) && InHistory(q, ms) && p.ToolResult? && q.ToolResult? && Render(p.output) == Render(q.output)
        ensures p.output == q.output
      {
      }
    }
  }

  // ----- A second pass -----

  lemma {:induction false} LastSafeCutSame(a: seq<Message>, c: seq<Message>, n: nat)
    requires |a| == |c| && n <= |a| && forall i :: 0 <= i < |a| ==> Pairing.SameShape(a[i], c[i])
    ensures LastSafeCut(a, n) == LastSafeCut(c, n)
  {
    forall i | 0 <= i < |a| ensures (HasToolResult(a[i]) <==> HasToolResult(c[i])) && (HasToolCall(a[i]) <==> HasToolCall(c[i])) {
      Pairing.ResultIdsMeansResult(a[i]);
      Pairing.ResultIdsMeansResult(c[i]);
    }
    if n > 0 {
      LastSafeCutSame(a, c, n - 1);
    }
  }

  lemma {:induction false} NothingToWrite(options: Options, ms: seq<Message>)
    requires options.persist.Some? && forall m, p :: m in ms && p in m.parts ==> !ShouldElide(options, p)
    ensures MessageWrites(options, ms) == []
  {
    if ms != [] {
      NoPartToWrite(options, ms[0].parts);
      NothingToWrite(options, ms[1..]);
    }
  }

  lemma {:induction false} NoPartToWrite(options: Options, parts: seq<Part>)
    requires options.persist.Some? && forall p :: p in parts ==> !ShouldElide(options, p)
    ensures PartWrites(options, parts) == []
  {
    if parts != [] { NoPartToWrite(options, parts[1..]); }
  }

  /** Messages of the verbatim tail are untouched, and a second pass finds nothing to do. */
  lemma ElidingTwiceIsOnce(options: Options, history: seq<Message>)
    requires options.persist.Some? && Compaction.NamesFiles(options)
    ensures forall i :: Boundary(history, options.keepRecent) <= i < |history| ==> Elided(options, history)[i] == history[i]
    ensures Elided(options, Elided(options, history)) == Elided(options, history)
    ensures Writes(options, Elided(options, history)) == []
  {
    var out := Elided(options, history);
    var b := Boundary(history, options.keepRecent);
    Pairing.ElidedShape(options, history);
    LastSafeCutSame(history, out, Max(0, |history| - options.keepRecent));
    forall m, p | m in out[..b] && p in m.parts ensures !ShouldElide(options, p) {
      var i :| 0 <= i < b && out[i] == m;
      assert out[i] == ElideMessage(options, history[i]);
    }
    NothingToWrite(options, out[..b]);
    NothingElided(options, out);
  }
}

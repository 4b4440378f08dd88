/** Path confinement of the workspace, on POSIX paths. */
module Paths {
  import opened Common
  import opened Split
  import opened Text

  datatype PathError = NullByte | PathEscape

  const SEP := "/"

  // ----- Normalisation, as `path.posix.resolve` performs it -----

  /** One segment on top of the segments so far. */
  function Push(stack: seq<string>, segment: string): seq<string> {
    if segment == "" || segment == "." then stack
    else if segment == ".." then (if stack == [] then [] else stack[..|stack| - 1])
    else stack + [segment]
  }

  function PushAll(stack: seq<string>, segments: seq<string>): seq<string>
    decreases |segments|
  {
    if segments == [] then stack else PushAll(Push(stack, segments[0]), segments[1..])
  }

  function SegmentsOnto(stack: seq<string>, path: string): seq<string> { PushAll(stack, Pieces(path, SEP)) }

  /** The segments as text, each behind its slash. */
  function Slashed(segments: seq<string>): string {
    if segments == [] then "" else SEP + segments[0] + Slashed(segments[1..])
  }

  function Render(segments: seq<string>): string { if segments == [] then SEP else Slashed(segments) }

  function Normalise(path: string): string { Render(SegmentsOnto([], path)) }

  function Resolve(base: string, path: string): string {
    if StartsWith(path, SEP) then Normalise(path) else Normalise(base + SEP + path)
  }

  function CommonPrefix(a: seq<string>, b: seq<string>): nat {
    if a == [] || b == [] || a[0] != b[0] then 0 else 1 + CommonPrefix(a[1..], b[1..])
  }

  function Ups(n: nat): seq<string> { seq(n, _ => "..") }

  function Relative(from: string, to: string): string {
    var a, b := SegmentsOnto([], from), SegmentsOnto([], to);
    var k := Min(CommonPrefix(a, b), |b|);
    Join(Ups(|a| - Min(k, |a|)) + b[k..], SEP)
  }

  // ----- The code -----

  predicate IsInside(root: string, candidate: string) {
    || candidate == root
    || StartsWith(candidate, if root != "" && root[|root| - 1] == '/' then root else root + SEP)
  }

  function ResolveInRoot(root: string, input: string): Result<string, PathError> {
    if '\0' in input then Err(NullByte)
    else
      var normalizedRoot := Normalise(root);
      var resolved := Resolve(normalizedRoot, StripSlashes(input));
      if IsInside(normalizedRoot, resolved) then Ok(resolved) else Err(PathEscape)
  }

  function ToWorkspacePath(root: string, absolute: string): string { SEP + Relative(Normalise(root), absolute) }

  // ----- Text and segments -----

  predicate IsSegment(s: string) { s != "" && s != "." && s != ".." && '/' !in s }

  predicate AreSegments(ss: seq<string>) { forall s :: s in ss ==> IsSegment(s) }

  lemma {:induction false} PushAllSegments(stack: seq<string>, pieces: seq<string>)
    requires AreSegments(stack) && forall p :: p in pieces ==> '/' !in p
    ensures AreSegments(PushAll(stack, pieces))
    decreases |pieces|
  {
    if pieces != [] {
      assert pieces[0] in pieces;
      PushAllSegments(Push(stack, pieces[0]), pieces[1..]);
    }
  }

  lemma {:induction false} PiecesHaveNoSlash(path: string)
    ensures forall p :: p in Pieces(path, SEP) ==> '/' !in p
  {
    forall p, i | p in Pieces(path, SEP) && 0 <= i < |p| ensures p[i] != '/' {
      var k :| 0 <= k < |Pieces(path, SEP)| && Pieces(path, SEP)[k] == p;
      PieceHasNoSeparator(path, SEP, k, i);
      assert p[i..i + 1] == [p[i]];
    }
  }

  lemma NormalisedSegments(path: string)
    ensures AreSegments(SegmentsOnto([], path))
  {
    PiecesHaveNoSlash(path);
    PushAllSegments([], Pieces(path, SEP));
  }

  lemma FirstPiece(segment: string, rest: string)
    requires '/' !in segment
    ensures Pieces(segment + SEP + rest, SEP) == [segment] + Pieces(rest, SEP)
  {
    var text := segment + SEP + rest;
    forall j | 0 <= j < |segment| ensures !OccursAt(text, SEP, j) {
      assert text[j] == segment[j] && segment[j] in segment;
      assert text[j..j + 1] == [segment[j]];
    }
    PiecesCons(segment, rest, SEP);
  }

  /** The first segment of a path is read off and pushed. */
  lemma FirstSegment(stack: seq<string>, segment: string, rest: string)
    requires '/' !in segment
    ensures SegmentsOnto(stack, segment + SEP + rest) == SegmentsOnto(Push(stack, segment), rest)
  {
    FirstPiece(segment, rest);
  }

  lemma LeadingSlash(stack: seq<string>, rest: string)
    ensures SegmentsOnto(stack, SEP + rest) == SegmentsOnto(stack, rest)
  {
    assert "" + SEP + rest == SEP + rest;
    FirstSegment(stack, "", rest);
  }

  lemma StartsWithSlash(segments: seq<string>, rest: string)
    ensures var s := Slashed(segments) + SEP + rest; s != "" && s == SEP + s[1..]
  {
    var s := Slashed(segments) + SEP + rest;
    assert s[0] == '/';
  }

  lemma Reassociate(a: string, b: string, c: string, d: string, e: string)
    ensures a + b + c + d + e == a + (b + (c + d + e))
  {
  }

  lemma SlashedSplit(segments: seq<string>, rest: string)
    requires segments != []
    ensures var more := Slashed(segments[1..]) + SEP + rest;
            && more != "" && more == SEP + more[1..]
            && Slashed(segments) + SEP + rest == SEP + (segments[0] + SEP + more[1..])
  {
    StartsWithSlash(segments[1..], rest);
    Reassociate(SEP, segments[0], Slashed(segments[1..]), SEP, rest);
    var more := Slashed(segments[1..]) + SEP + rest;
    Shorter(segments[0], SEP, more[1..]);
  }

  lemma Shorter(a: string, b: string, c: string)
    ensures a + (b + c) == a + b + c
  {
  }

  lemma SlashedStep(stack: seq<string>, segments: seq<string>, rest: string)
    requires AreSegments(segments) && segments != []
    ensures SegmentsOnto(stack, Slashed(segments) + SEP + rest)
         == SegmentsOnto(stack + [segments[0]], Slashed(segments[1..]) + SEP + rest)
  {
    var first, more := segments[0], Slashed(segments[1..]) + SEP + rest;
    assert first in segments;
    SlashedSplit(segments, rest);
    LeadingSlash(stack, first + SEP + more[1..]);
    FirstSegment(stack, first, more[1..]);
    LeadingSlash(stack + [first], more[1..]);
  }

  lemma NothingSlashed(rest: string)
    ensures Slashed([]) + SEP + rest == SEP + rest
  {
  }

  lemma PushFirst(stack: seq<string>, segments: seq<string>)
    requires segments != []
    ensures stack + [segments[0]] + segments[1..] == stack + segments
  {
  }

  /** Rendered segments in front of a path go onto the stack as they are. */
  lemma {:induction false} SlashedOnto(stack: seq<string>, segments: seq<string>, rest: string)
    requires AreSegments(segments)
    ensures SegmentsOnto(stack, Slashed(segments) + SEP + rest) == SegmentsOnto(stack + segments, rest)
    decreases |segments|
  {
    if segments == [] {
      NothingSlashed(rest);
      LeadingSlash(stack, rest);
      assert stack + segments == stack;
    } else {
      SlashedStep(stack, segments, rest);
      SlashedOnto(stack + [segments[0]], segments[1..], rest);
      PushFirst(stack, segments);
    }
  }

  lemma {:induction false} SegmentsOntoEmpty(stack: seq<string>)
    ensures SegmentsOnto(stack, "") == stack
  {
    assert Pieces("", SEP) == [""];
    assert [""][1..] == [];
  }

  /** Rendering loses nothing. */
  lemma RenderRoundTrip(segments: seq<string>)
    requires AreSegments(segments)
    ensures SegmentsOnto([], Render(segments)) == segments
  {
    if segments == [] {
      LeadingSlash([], "");
      SegmentsOntoEmpty([]);
      assert SEP + "" == SEP;
    } else {
      var last := segments[|segments| - 1];
      SlashedOnto([], segments[..|segments| - 1], last);
      SlashedSnoc(segments[..|segments| - 1], last);
      assert last in segments && segments == segments[..|segments| - 1] + [last];
      OneSegment(segments[..|segments| - 1], last);
      assert [] + segments[..|segments| - 1] == segments[..|segments| - 1];
    }
  }

  lemma {:induction false} SlashedSnoc(segments: seq<string>, last: string)
    ensures Slashed(segments + [last]) == Slashed(segments) + SEP + last
  {
    if segments == [] {
      assert [] + [last] == [last] && [last][1..] == [];
      assert Slashed([last]) == SEP + last + "";
    } else {
      SlashedSnoc(segments[1..], last);
      assert (segments + [last])[1..] == segments[1..] + [last];
    }
  }

  lemma NoSlashNoSplit(s: string)
    requires '/' !in s
    ensures Pieces(s, SEP) == [s]
  {
    forall j ensures !OccursAt(s, SEP, j) {
      if 0 <= j < |s| {
        assert s[j] in s && s[j..j + 1] == [s[j]];
      }
    }
  }

  lemma OneSegment(stack: seq<string>, segment: string)
    requires IsSegment(segment)
    ensures SegmentsOnto(stack, segment) == stack + [segment]
  {
    NoSlashNoSplit(segment);
    assert [segment][1..] == [];
    assert PushAll(stack, [segment]) == PushAll(Push(stack, segment), []);
  }

  // ----- Containment -----

  lemma {:induction false} BeforeFirstSlash(segment: string, rest: string)
    requires '/' !in segment && (rest == "" || rest[0] == '/')
    ensures Common.Before(segment + rest, '/') == segment
  {
    if segment != "" {
      assert segment[0] in segment && (segment + rest)[1..] == segment[1..] + rest;
      BeforeFirstSlash(segment[1..], rest);
    } else {
      assert segment + rest == rest;
    }
  }

  /** `b` continues `a` at a segment border. */
  predicate Continues(a: string, b: string) { b == a || StartsWith(b, a + SEP) }

  lemma ContinuesAfterSegment(x: string, a: string, b: string)
    ensures Continues(SEP + x + a, SEP + x + b) <==> Continues(a, b)
  {
    var n := |x| + 1;
    assert (SEP + x + a)[n..] == a && (SEP + x + b)[n..] == b;
    assert SEP + x + a + SEP == SEP + x + (a + SEP);
    if StartsWith(b, a + SEP) {
      assert b == (a + SEP) + b[|a| + 1..];
      assert SEP + x + b == SEP + x + (a + SEP) + b[|a| + 1..];
    }
    if StartsWith(SEP + x + b, SEP + x + a + SEP) {
      assert b[..|a| + 1] == (SEP + x + b)[n..n + |a| + 1] == a + SEP;
    }
  }

  lemma SlashedStart(segments: seq<string>)
    ensures Slashed(segments) == "" || Slashed(segments)[0] == '/'
    ensures Slashed(segments) == "" <==> segments == []
  {
  }

  lemma {:induction false} ContinuesIffPrefix(r: seq<string>, c: seq<string>)
    requires AreSegments(r) && AreSegments(c)
    ensures Continues(Slashed(r), Slashed(c)) <==> r <= c
  {
    SlashedStart(c);
    if r == [] {
      assert "" + SEP == SEP;
      assert c != [] ==> Slashed(c)[..1] == SEP;
    } else if c != [] {
      var x, y, a, b := r[0], c[0], Slashed(r[1..]), Slashed(c[1..]);
      assert x in r && y in c;
      if x == y {
        ContinuesAfterSegment(x, a, b);
        ContinuesIffPrefix(r[1..], c[1..]);
        assert r == [x] + r[1..] && c == [x] + c[1..];
      } else {
        DifferentFirstSegments(x, y, a, b, r[1..], c[1..]);
      }
    }
  }

  /** What continues a path has the same first segment. */
  lemma FirstSegmentContinues(x: string, a: string, text: string)
    requires '/' !in x && (a == "" || a[0] == '/')
    ensures Continues(SEP + x + a, SEP + text) ==> Common.Before(text, '/') == x
  {
    var path := SEP + x + a;
    if SEP + text == path {
      assert text == path[1..] == x + a;
      BeforeFirstSlash(x, a);
    } else if StartsWith(SEP + text, path + SEP) {
      var tail := a + SEP + (SEP + text)[|path| + 1..];
      assert SEP + text == path + SEP + (SEP + text)[|path| + 1..];
      assert text == (SEP + text)[1..] == x + tail;
      BeforeFirstSlash(x, tail);
    }
  }

  lemma DifferentFirstSegments(x: string, y: string, a: string, b: string, r: seq<string>, c: seq<string>)
    requires x != y && '/' !in x && '/' !in y && a == Slashed(r) && b == Slashed(c)
    ensures !Continues(SEP + x + a, SEP + y + b)
  {
    SlashedStart(r);
    SlashedStart(c);
    BeforeFirstSlash(y, b);
    assert SEP + y + b == SEP + (y + b);
    FirstSegmentContinues(x, a, y + b);
  }

  lemma SlashedEnd(segments: seq<string>)
    requires AreSegments(segments) && segments != []
    ensures Slashed(segments)[|Slashed(segments)| - 1] != '/'
  {
    var last := segments[|segments| - 1];
    assert last in segments && segments == segments[..|segments| - 1] + [last];
    SlashedSnoc(segments[..|segments| - 1], last);
    assert last[|last| - 1] in last;
  }

  /** The string test agrees with the segments: inside means that the root's segments come first. */
  lemma InsideIffPrefix(r: seq<string>, c: seq<string>)
    requires AreSegments(r) && AreSegments(c)
    ensures IsInside(Render(r), Render(c)) <==> r <= c
  {
    ContinuesIffPrefix(r, c);
    SlashedStart(r);
    SlashedStart(c);
    if r == [] {
      assert Render(c)[..1] == SEP;
    } else {
      SlashedEnd(r);
      if c == [] {
        assert |Slashed(r)| > 1 by {
          assert r[0] in r;
        }
      }
    }
  }

  // ----- Resolution -----

  /** The segments a resolution arrives at. */
  function Target(root: string, input: string): seq<string> {
    SegmentsOnto(SegmentsOnto([], root), StripSlashes(input))
  }

  lemma {:induction false} StrippedHasNoSlash(input: string)
    ensures !StartsWith(StripSlashes(input), SEP)
  {
    if input != "" && input[0] == '/' {
      StrippedHasNoSlash(input[1..]);
    }
  }

  lemma TargetIsResolved(root: string, input: string)
    ensures AreSegments(Target(root, input))
    ensures Resolve(Normalise(root), StripSlashes(input)) == Render(Target(root, input))
  {
    var r, rel := SegmentsOnto([], root), StripSlashes(input);
    NormalisedSegments(root);
    PiecesHaveNoSlash(rel);
    PushAllSegments(r, Pieces(rel, SEP));
    StrippedHasNoSlash(input);
    if r == [] {
      assert Render(r) + SEP + rel == SEP + (SEP + rel);
      LeadingSlash([], SEP + rel);
      LeadingSlash([], rel);
    } else {
      SlashedOnto([], r, rel);
      assert [] + r == r;
    }
  }

  /**
   * An input is accepted exactly when it has no null byte and the segments it
   * resolves to begin with the root's; what is returned is inside the root.
   */
  lemma AcceptedIff(root: string, input: string)
    ensures var r := SegmentsOnto([], root);
            && (ResolveInRoot(root, input).Ok? <==> '\0' !in input && r <= Target(root, input))
            && (ResolveInRoot(root, input).Ok? ==>
                  ResolveInRoot(root, input).value == Render(Target(root, input)) && IsInside(Render(r), ResolveInRoot(root, input).value))
  {
    TargetIsResolved(root, input);
    NormalisedSegments(root);
    InsideIffPrefix(SegmentsOnto([], root), Target(root, input));
  }

  /** No `..` takes the path above where it started, `depth` segments down. */
  predicate NeverOutruns(pieces: seq<string>, depth: nat)
    decreases |pieces|
  {
    pieces == []
    || (if pieces[0] == ".." then depth > 0 && NeverOutruns(pieces[1..], depth - 1)
        else NeverOutruns(pieces[1..], depth + if pieces[0] == "" || pieces[0] == "." then 0 else 1))
  }

  lemma {:induction false} StaysAbove(root: seq<string>, stack: seq<string>, pieces: seq<string>)
    requires NeverOutruns(pieces, |stack|)
    ensures PushAll(root + stack, pieces) == root + PushAll(stack, pieces)
    decreases |pieces|
  {
    if pieces != [] {
      if pieces[0] == ".." {
        assert (root + stack)[..|root + stack| - 1] == root + stack[..|stack| - 1];
      } else {
        assert root + stack + [pieces[0]] == root + (stack + [pieces[0]]);
      }
      StaysAbove(root, Push(stack, pieces[0]), pieces[1..]);
    }
  }

  /** Such an input is always accepted, and lands at its own normal form below the root. */
  lemma ShallowDotsAccepted(root: string, input: string)
    requires '\0' !in input && NeverOutruns(Pieces(StripSlashes(input), SEP), 0)
    ensures ResolveInRoot(root, input)
         == Ok(Render(SegmentsOnto([], root) + SegmentsOnto([], StripSlashes(input))))
  {
    var r := SegmentsOnto([], root);
    StaysAbove(r, [], Pieces(StripSlashes(input), SEP));
    assert r + [] == r;
    AcceptedIff(root, input);
  }

  // ----- There and back -----

  lemma {:induction false} JoinedOnto(stack: seq<string>, segments: seq<string>)
    requires AreSegments(segments)
    ensures SegmentsOnto(stack, Join(segments, SEP)) == stack + segments
    decreases |segments|
  {
    if segments == [] {
      SegmentsOntoEmpty(stack);
      assert stack + [] == stack;
    } else {
      var first := segments[0];
      assert first in segments;
      if |segments| == 1 {
        OneSegment(stack, first);
        assert segments == [first];
      } else {
        FirstSegment(stack, first, Join(segments[1..], SEP));
        JoinedOnto(stack + [first], segments[1..]);
        assert stack + [first] + segments[1..] == stack + segments;
      }
    }
  }

  lemma {:induction false} RenderIsJoin(segments: seq<string>)
    requires segments != []
    ensures Render(segments) == SEP + Join(segments, SEP)
  {
    if |segments| > 1 {
      RenderIsJoin(segments[1..]);
      assert Slashed(segments) == SEP + segments[0] + (SEP + Join(segments[1..], SEP));
      assert SEP + segments[0] + (SEP + Join(segments[1..], SEP)) == SEP + (segments[0] + SEP + Join(segments[1..], SEP));
    } else {
      assert Slashed(segments[1..]) == "" && SEP + segments[0] + "" == SEP + segments[0];
    }
  }

  lemma {:induction false} PiecesOfJoin(segments: seq<string>)
    requires AreSegments(segments) && segments != []
    ensures Pieces(Join(segments, SEP), SEP) == segments
  {
    var first := segments[0];
    assert first in segments;
    if |segments| == 1 {
      NoSlashNoSplit(first);
      assert segments == [first];
    } else {
      var more := Join(segments[1..], SEP);
      PiecesOfJoin(segments[1..]);
      FirstPiece(first, more);
      assert segments == [first] + segments[1..];
    }
  }

  /** A longer absolute path is in normal form exactly when it is slashes and segments. */
  lemma NormalIffSegments(path: string)
    requires |path| > 1 && path[0] == '/'
    ensures Normalise(path) == path <==> AreSegments(Pieces(path[1..], SEP))
  {
    var rest := path[1..];
    assert path == SEP + rest;
    LeadingSlash([], rest);
    if AreSegments(Pieces(rest, SEP)) {
      JoinPieces(rest, SEP);
      JoinedOnto([], Pieces(rest, SEP));
      assert [] + Pieces(rest, SEP) == Pieces(rest, SEP);
      RenderIsJoin(Pieces(rest, SEP));
    }
    if Normalise(path) == path {
      var segments := SegmentsOnto([], path);
      NormalisedSegments(path);
      assert segments != [];
      RenderIsJoin(segments);
      assert rest == Join(segments, SEP);
      PiecesOfJoin(segments);
    }
  }

  /** Stepping into a segment and out again names the same file. */
  lemma DotDotIsAlias(segment: string, rest: string)
    requires IsSegment(segment)
    ensures Normalise(SEP + (segment + SEP + (".." + SEP + rest))) == Normalise(SEP + rest)
  {
    LeadingSlash([], segment + SEP + (".." + SEP + rest));
    FirstSegment([], segment, ".." + SEP + rest);
    assert Push([], segment) == [segment];
    FirstSegment([segment], "..", rest);
    assert Push([segment], "..") == [];
    LeadingSlash([], rest);
  }

  lemma {:induction false} CommonPrefixOfPrefix(r: seq<string>, s: seq<string>)
    ensures CommonPrefix(r, r + s) == |r|
  {
    if r != [] {
      CommonPrefixOfPrefix(r[1..], s);
      assert (r + s)[1..] == r[1..] + s;
    }
  }

  lemma JoinStart(segments: seq<string>)
    requires AreSegments(segments)
    ensures StripSlashes(SEP + Join(segments, SEP)) == Join(segments, SEP)
    ensures (forall s :: s in segments ==> '\0' !in s) ==> '\0' !in Join(segments, SEP)
  {
    var joined := Join(segments, SEP);
    assert (SEP + joined)[1..] == joined;
    if segments != [] {
      assert segments[0] in segments;
      assert joined[0] == segments[0][0] && segments[0][0] in segments[0];
    }
    JoinHasNoNull(segments);
  }

  lemma {:induction false} JoinHasNoNull(segments: seq<string>)
    ensures (forall s :: s in segments ==> '\0' !in s) ==> '\0' !in Join(segments, SEP)
  {
    if |segments| >= 1 {
      assert segments[0] in segments;
      JoinHasNoNull(segments[1..]);
    }
  }

  /** The path reported for a file inside the root resolves to that file again. */
  lemma WorkspacePathRoundTrip(root: string, below: seq<string>)
    requires AreSegments(below) && forall s :: s in below ==> '\0' !in s
    ensures var p := Render(SegmentsOnto([], root) + below);
            ResolveInRoot(root, ToWorkspacePath(root, p)) == Ok(p) && ToWorkspacePath(root, p) == Render(below)
  {
    var r := SegmentsOnto([], root);
    if below != [] { RenderIsJoin(below); }
    NormalisedSegments(root);
    RenderRoundTrip(r);
    RenderRoundTrip(r + below);
    CommonPrefixOfPrefix(r, below);
    assert (r + below)[|r|..] == below;
    assert Ups(0) + below == below;
    assert Relative(Normalise(root), Render(r + below)) == Join(below, SEP);
    JoinStart(below);
    JoinedOnto(r, below);
    AcceptedIff(root, SEP + Join(below, SEP));
  }

  /** Every normalised path inside the root is of that form. */
  lemma InsideIsBelow(root: string, c: seq<string>)
    requires AreSegments(c) && IsInside(Normalise(root), Render(c))
    ensures |SegmentsOnto([], root)| <= |c| && c == SegmentsOnto([], root) + c[|SegmentsOnto([], root)|..]
  {
    NormalisedSegments(root);
    InsideIffPrefix(SegmentsOnto([], root), c);
    PrefixSplits(SegmentsOnto([], root), c);
  }

  lemma PrefixSplits(r: seq<string>, c: seq<string>)
    requires r <= c
    ensures |r| <= |c| && c == r + c[|r|..]
  {
  }

  // ----- Relative paths -----

  lemma {:induction false} CommonPrefixIsShared(a: seq<string>, b: seq<string>)
    ensures CommonPrefix(a, b) <= |a| && CommonPrefix(a, b) <= |b|
    ensures a[..CommonPrefix(a, b)] == b[..CommonPrefix(a, b)]
  {
    if a != [] && b != [] && a[0] == b[0] {
      CommonPrefixIsShared(a[1..], b[1..]);
      var k := CommonPrefix(a[1..], b[1..]);
      assert a[..k + 1] == [a[0]] + a[1..][..k] && b[..k + 1] == [b[0]] + b[1..][..k];
    }
  }

  lemma {:induction false} PushAllAppend(stack: seq<string>, a: seq<string>, b: seq<string>)
    ensures PushAll(stack, a + b) == PushAll(PushAll(stack, a), b)
    decreases |a|
  {
    if a == [] {
      assert a + b == b;
    } else {
      assert (a + b)[1..] == a[1..] + b;
      PushAllAppend(Push(stack, a[0]), a[1..], b);
    }
  }

  lemma {:induction false} PushUps(stack: seq<string>, n: nat)
    requires n <= |stack|
    ensures PushAll(stack, Ups(n)) == stack[..|stack| - n]
    decreases n
  {
    if n == 0 {
      assert stack[..|stack|] == stack;
    } else {
      assert Ups(n)[1..] == Ups(n - 1);
      PushUps(stack[..|stack| - 1], n - 1);
    }
  }

  lemma {:induction false} PushAllOnto(stack: seq<string>, segments: seq<string>)
    requires AreSegments(segments)
    ensures PushAll(stack, segments) == stack + segments
    decreases |segments|
  {
    if segments != [] {
      assert segments[0] in segments;
      PushAllOnto(stack + [segments[0]], segments[1..]);
      PushFirst(stack, segments);
    }
  }

  /** Joined pieces are read as these pieces. */
  lemma {:induction false} JoinedPieces(stack: seq<string>, pieces: seq<string>)
    requires forall p :: p in pieces ==> '/' !in p
    ensures SegmentsOnto(stack, Join(pieces, SEP)) == PushAll(stack, pieces)
    decreases |pieces|
  {
    if pieces == [] {
      SegmentsOntoEmpty(stack);
    } else {
      var first := pieces[0];
      assert first in pieces;
      if |pieces| == 1 {
        NoSlashNoSplit(first);
        assert pieces == [first];
      } else {
        FirstSegment(stack, first, Join(pieces[1..], SEP));
        JoinedPieces(Push(stack, first), pieces[1..]);
      }
    }
  }

  lemma UpAndDown(a: seq<string>, b: seq<string>, k: nat)
    requires AreSegments(a) && AreSegments(b) && k <= |a| && k <= |b| && a[..k] == b[..k]
    ensures PushAll(a, Ups(|a| - k) + b[k..]) == b
  {
    var rest := b[k..];
    assert AreSegments(rest) by {
      forall s | s in rest ensures IsSegment(s) { assert s in b; }
    }
    PushAllAppend(a, Ups(|a| - k), rest);
    PushUps(a, |a| - k);
    PushAllOnto(a[..k], rest);
    assert b[..k] + rest == b;
  }

  lemma UpsAndSegments(n: nat, segments: seq<string>, k: nat)
    requires AreSegments(segments) && k <= |segments|
    ensures forall p :: p in Ups(n) + segments[k..] ==> '/' !in p
  {
    forall p | p in Ups(n) + segments[k..] ensures '/' !in p {
      assert p in segments[k..] ==> p in segments;
    }
  }

  lemma RelativeIs(from: string, to: string)
    ensures var a, b := SegmentsOnto([], from), SegmentsOnto([], to);
            var k := CommonPrefix(a, b);
            k <= |a| && k <= |b| && Relative(from, to) == Join(Ups(|a| - k) + b[k..], SEP)
  {
    CommonPrefixIsShared(SegmentsOnto([], from), SegmentsOnto([], to));
  }

  /** A relative path leads from where it starts to where it is to lead, whichever absolute paths these are. */
  lemma RelativeLeadsThere(from: string, to: string)
    ensures SegmentsOnto(SegmentsOnto([], from), Relative(from, to)) == SegmentsOnto([], to)
  {
    var a, b := SegmentsOnto([], from), SegmentsOnto([], to);
    var k := CommonPrefix(a, b);
    CommonPrefixIsShared(a, b);
    NormalisedSegments(from);
    NormalisedSegments(to);
    RelativeIs(from, to);
    var pieces := Ups(|a| - k) + b[k..];
    UpsAndSegments(|a| - k, b, k);
    JoinedPieces(a, pieces);
    UpAndDown(a, b, k);
  }

  /** An absolute path resolves to its own normal form, whatever the base: a normal path with the same segments. */
  lemma AbsoluteIgnoresBase(base: string, path: string)
    requires StartsWith(path, SEP)
    ensures SegmentsOnto([], Resolve(base, path)) == SegmentsOnto([], path)
    ensures Normalise(Resolve(base, path)) == Resolve(base, path)
  {
    NormalisedSegments(path);
    RenderRoundTrip(SegmentsOnto([], path));
  }
}

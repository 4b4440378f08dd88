/**
 * Leftmost splitting, as JavaScript's `String.prototype.split` does it with a
 * non-empty separator, and the laws that the stream readers and the text
 * editor rely on.
 */
module Split {
  import opened Common

  predicate OccursAt<T(==)>(s: seq<T>, sep: seq<T>, i: int) {
    0 <= i && i + |sep| <= |s| && s[i..i + |sep|] == sep
  }

  function IndexFrom<T(==)>(s: seq<T>, sep: seq<T>, from: nat): (r: Option<nat>)
    ensures r.Some? ==> OccursAt(s, sep, r.value) && forall j :: from <= j < r.value ==> !OccursAt(s, sep, j)
    ensures r.None? ==> forall j :: from <= j ==> !OccursAt(s, sep, j)
    decreases |s| - from
  {
    if from + |sep| > |s| then None
    else if s[from..from + |sep|] == sep then Some(from)
    else IndexFrom(s, sep, from + 1)
  }

  /** The leftmost occurrence. */
  function IndexOf<T(==)>(s: seq<T>, sep: seq<T>): (r: Option<nat>)
    ensures r.Some? ==> OccursAt(s, sep, r.value) && forall j :: 0 <= j < r.value ==> !OccursAt(s, sep, j)
    ensures r.None? ==> forall j :: !OccursAt(s, sep, j)
  {
    IndexFrom(s, sep, 0)
  }

  function Pieces<T(==)>(s: seq<T>, sep: seq<T>): (r: seq<seq<T>>)
    requires sep != []
    ensures |r| >= 1
    decreases |s|
  {
    match IndexOf(s, sep)
    case None => [s]
    case Some(i) => [s[..i]] + Pieces(s[i + |sep|..], sep)
  }

  function Join<T>(pieces: seq<seq<T>>, sep: seq<T>): seq<T> {
    if |pieces| == 0 then []
    else if |pieces| == 1 then pieces[0]
    else pieces[0] + sep + Join(pieces[1..], sep)
  }

  function Init<T>(s: seq<T>): seq<T>
    requires s != []
  {
    s[..|s| - 1]
  }

  function Last<T>(s: seq<T>): T
    requires s != []
  {
    s[|s| - 1]
  }

  /** Joining the pieces with the separator gives the text back. */
  lemma {:induction false} JoinPieces<T>(s: seq<T>, sep: seq<T>)
    requires sep != []
    ensures Join(Pieces(s, sep), sep) == s
    decreases |s|
  {
    match IndexOf(s, sep)
    case None =>
    case Some(i) =>
      var rest := s[i + |sep|..];
      var tail := Pieces(rest, sep);
      JoinPieces(rest, sep);
      assert ([s[..i]] + tail)[1..] == tail;
      assert Join([s[..i]] + tail, sep) == s[..i] + sep + rest;
      assert s[i..i + |sep|] == sep;
      assert s == s[..i] + sep + rest;
  }

  lemma OccursInPrefix<T>(a: seq<T>, b: seq<T>, sep: seq<T>, j: int)
    requires j + |sep| <= |a|
    ensures OccursAt(a + b, sep, j) <==> OccursAt(a, sep, j)
  {
    if 0 <= j {
      assert (a + b)[j..j + |sep|] == a[j..j + |sep|];
    }
  }

  /** No piece contains the separator. */
  lemma {:induction false} PieceHasNoSeparator<T>(s: seq<T>, sep: seq<T>, k: nat, i: int)
    requires sep != [] && k < |Pieces(s, sep)|
    ensures !OccursAt(Pieces(s, sep)[k], sep, i)
    decreases |s|
  {
    match IndexOf(s, sep)
    case None =>
    case Some(j) =>
      if k > 0 {
        PieceHasNoSeparator(s[j + |sep|..], sep, k - 1, i);
      } else if i + |sep| <= j {
        assert s == s[..j] + s[j..];
        OccursInPrefix(s[..j], s[j..], sep, i);
      }
  }

  /** The leftmost occurrence in `a` is the leftmost one in every extension of `a`. */
  lemma IndexOfExtend<T>(a: seq<T>, b: seq<T>, sep: seq<T>)
    requires sep != [] && IndexOf(a, sep).Some?
    ensures IndexOf(a + b, sep) == IndexOf(a, sep)
  {
    var i := IndexOf(a, sep).value;
    forall j | 0 <= j <= i ensures OccursAt(a + b, sep, j) <==> OccursAt(a, sep, j) {
      OccursInPrefix(a, b, sep, j);
    }
  }

  /** Unfolding `Pieces` at a known first occurrence. */
  lemma PiecesAt<T>(s: seq<T>, sep: seq<T>, i: nat, x: seq<T>, rest: seq<T>)
    requires sep != [] && IndexOf(s, sep) == Some(i)
    requires s[..i] == x && s[i + |sep|..] == rest
    ensures Pieces(s, sep) == [x] + Pieces(rest, sep)
  {
  }

  lemma RegroupInit<T>(x: T, tail: seq<T>, more: seq<T>)
    requires tail != []
    ensures [x] + (Init(tail) + more) == Init([x] + tail) + more && Last([x] + tail) == Last(tail)
  {
    assert Init([x] + tail) == [x] + Init(tail);
  }

  /**
   * Splitting in two steps: everything but the last piece of `a` is final, and
   * only the last piece can grow.
   */
  lemma {:induction false} PiecesConcat<T>(a: seq<T>, b: seq<T>, sep: seq<T>)
    requires sep != []
    ensures Pieces(a + b, sep) == Init(Pieces(a, sep)) + Pieces(Last(Pieces(a, sep)) + b, sep)
    decreases |a|
  {
    match IndexOf(a, sep)
    case None =>
    case Some(i) =>
      var x, rest := a[..i], a[i + |sep|..];
      IndexOfExtend(a, b, sep);
      PiecesAt(a, sep, i, x, rest);
      PiecesAt(a + b, sep, i, x, rest + b);
      PiecesConcat(rest, b, sep);
      var tail := Pieces(rest, sep);
      RegroupInit(x, tail, Pieces(Last(tail) + b, sep));
  }

  /** A piece without the separator, followed by one separator. */
  lemma PiecesCons<T>(p: seq<T>, rest: seq<T>, sep: seq<T>)
    requires sep != []
    requires forall j :: 0 <= j < |p| ==> !OccursAt(p + sep + rest, sep, j)
    ensures Pieces(p + sep + rest, sep) == [p] + Pieces(rest, sep)
  {
    var s := p + sep + rest;
    assert s[|p|..|p| + |sep|] == sep;
    assert OccursAt(s, sep, |p|);
    assert IndexOf(s, sep) == Some(|p|);
    assert s[..|p|] == p && s[|p| + |sep|..] == rest;
  }

  /** Whether `ps` lists pairwise disjoint occurrences of `sep` in `s`, left to right. */
  ghost predicate DisjointOccurrences<T>(s: seq<T>, sep: seq<T>, ps: seq<int>) {
    && (forall k :: 0 <= k < |ps| ==> OccursAt(s, sep, ps[k]))
    && (forall k, l :: 0 <= k < l < |ps| ==> ps[k] + |sep| <= ps[l])
  }

  lemma OccursAtShift<T>(s: seq<T>, sep: seq<T>, cut: nat, i: nat)
    requires cut <= |s|
    ensures OccursAt(s[cut..], sep, i) <==> OccursAt(s, sep, i + cut)
  {
    if i + cut + |sep| <= |s| {
      assert s[cut..][i..i + |sep|] == s[i + cut..i + cut + |sep|];
    }
  }

  /** Dropping the first of some disjoint occurrences, seen from the end of the leftmost one. */
  lemma ShiftOccurrences<T>(s: seq<T>, sep: seq<T>, ps: seq<int>, cut: nat) returns (qs: seq<int>)
    requires ps != [] && DisjointOccurrences(s, sep, ps) && cut <= |s| && cut <= ps[0] + |sep|
    ensures |qs| == |ps| - 1 && DisjointOccurrences(s[cut..], sep, qs)
  {
    qs := seq(|ps| - 1, k requires 0 <= k < |ps| - 1 => ps[k + 1] - cut);
    forall k | 0 <= k < |qs| ensures OccursAt(s[cut..], sep, qs[k]) {
      assert ps[0] + |sep| <= ps[k + 1];
      OccursAtShift(s, sep, cut, qs[k]);
    }
  }

  /** No family of disjoint occurrences is larger than what splitting counts. */
  lemma {:induction false} SplitCountIsUpperBound<T>(s: seq<T>, sep: seq<T>, ps: seq<int>)
    requires sep != [] && DisjointOccurrences(s, sep, ps)
    ensures |ps| <= |Pieces(s, sep)| - 1
    decreases |s|
  {
    if ps != [] {
      assert OccursAt(s, sep, ps[0]);
      var cut := IndexOf(s, sep).value + |sep|;
      var qs := ShiftOccurrences(s, sep, ps, cut);
      SplitCountIsUpperBound(s[cut..], sep, qs);
    }
  }

  function Shifted(qs: seq<int>, cut: nat): (r: seq<int>)
    ensures |r| == |qs| && forall k :: 0 <= k < |qs| ==> r[k] == qs[k] + cut
  {
    seq(|qs|, k requires 0 <= k < |qs| => qs[k] + cut)
  }

  /** Prepending the leftmost occurrence to disjoint occurrences behind it. */
  lemma UnshiftOccurrences<T>(s: seq<T>, sep: seq<T>, i: nat, qs: seq<int>) returns (ps: seq<int>)
    requires OccursAt(s, sep, i) && DisjointOccurrences(s[i + |sep|..], sep, qs)
    ensures |ps| == |qs| + 1 && DisjointOccurrences(s, sep, ps)
  {
    var cut := i + |sep|;
    ps := [i as int] + Shifted(qs, cut);
    forall k | 1 <= k < |ps| ensures OccursAt(s, sep, ps[k]) && ps[k] >= cut {
      assert OccursAt(s[cut..], sep, qs[k - 1]);
      OccursAtShift(s, sep, cut, qs[k - 1]);
    }
    forall k, l | 1 <= k < l < |ps| ensures ps[k] + |sep| <= ps[l] {
      assert qs[k - 1] + |sep| <= qs[l - 1];
    }
  }

  /** The bound is reached, by the occurrences that splitting removes. */
  lemma {:induction false} SplitCountIsReached<T>(s: seq<T>, sep: seq<T>) returns (ps: seq<int>)
    requires sep != []
    ensures DisjointOccurrences(s, sep, ps)
    ensures |ps| == |Pieces(s, sep)| - 1
    decreases |s|
  {
    match IndexOf(s, sep)
    case None => ps := [];
    case Some(i) =>
      var qs := SplitCountIsReached(s[i + |sep|..], sep);
      ps := UnshiftOccurrences(s, sep, i, qs);
  }
}

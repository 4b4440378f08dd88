/** Exact string replacement in a text, as the `editFile` tool performs it. */
module Edits {
  import opened Common
  import opened Split

  datatype EditError = Identical | NotFound | Ambiguous(occurrences: nat)

  function CountOccurrences(text: string, needle: string): nat {
    if needle == "" then 0 else |Pieces(text, needle)| - 1
  }

  /** The second characters of the replacement patterns (ECMA-262, section 22.1.3.19). */
  predicate IsPatternMark(c: char) { c == '$' || c == '&' || c == '`' || c == '\'' }

  /** A replacement template with its patterns filled in. */
  function Expand(template: string, prefix: string, matched: string, suffix: string): string {
    if |template| >= 2 && template[0] == '$' && IsPatternMark(template[1]) then
      var value :=
        if template[1] == '$' then "$"
        else if template[1] == '&' then matched
        else if template[1] == '`' then prefix
        else suffix;
      value + Expand(template[2..], prefix, matched, suffix)
    else if template == "" then ""
    else [template[0]] + Expand(template[1..], prefix, matched, suffix)
  }

  /** `text.replace(needle, template)` for string arguments: the leftmost occurrence only. */
  function ReplaceFirst(text: string, needle: string, template: string): string
    requires needle != ""
  {
    match IndexOf(text, needle)
    case None => text
    case Some(i) =>
      text[..i] + Expand(template, text[..i], needle, text[i + |needle|..]) + text[i + |needle|..]
  }

  function ReplaceAll(text: string, needle: string, replacement: string): string
    requires needle != ""
  {
    Join(Pieces(text, needle), replacement)
  }

  /** The text after an edit and the number of replacements, or why it is refused. */
  function EditText(before: string, oldString: string, newString: string, replaceAll: bool): Result<(string, nat), EditError> {
    if oldString == newString then Err(Identical)
    else
      var n := CountOccurrences(before, oldString);
      if n == 0 then Err(NotFound)
      else if n > 1 && !replaceAll then Err(Ambiguous(n))
      else if replaceAll then Ok((ReplaceAll(before, oldString, newString), n))
      else Ok((ReplaceFirst(before, oldString, newString), 1))
  }

  /** Counting by splitting is the size of the largest family of disjoint occurrences. */
  lemma CountIsGreatest(text: string, needle: string, n: nat)
    requires needle != ""
    ensures CountOccurrences(text, needle) == n
       <==> && (exists ps :: DisjointOccurrences(text, needle, ps) && |ps| == n)
            && (forall ps :: DisjointOccurrences(text, needle, ps) ==> |ps| <= n)
  {
    var best := SplitCountIsReached(text, needle);
    forall ps | DisjointOccurrences(text, needle, ps) ensures |ps| <= CountOccurrences(text, needle) {
      SplitCountIsUpperBound(text, needle, ps);
    }
  }

  /** Replacing everything by the needle itself is no change: splitting and joining loses nothing. */
  lemma ReplaceAllBySelf(text: string, needle: string)
    requires needle != ""
    ensures ReplaceAll(text, needle, needle) == text
  {
    JoinPieces(text, needle);
  }

  lemma OccursBehind(text: string, needle: string, i: nat)
    requires needle != "" && IndexOf(text, needle) == Some(i)
    ensures i + |needle| <= |text| && text == text[..i] + needle + text[i + |needle|..]
    ensures CountOccurrences(text, needle) == 1 + CountOccurrences(text[i + |needle|..], needle)
  {
    assert text[i..i + |needle|] == needle;
  }

  /** A text without the needle stays as it is. */
  lemma ReplaceAllWithout(text: string, needle: string, replacement: string)
    requires needle != "" && forall i :: !OccursAt(text, needle, i)
    ensures ReplaceAll(text, needle, replacement) == text && CountOccurrences(text, needle) == 0
    ensures ReplaceFirst(text, needle, replacement) == text
  {
    assert Pieces(text, needle) == [text];
  }

  /** The first occurrence is replaced, and what is behind it as if it stood alone. */
  lemma ReplaceAllAtFirst(a: string, b: string, needle: string, replacement: string)
    requires needle != "" && forall j :: 0 <= j < |a| ==> !OccursAt(a + needle + b, needle, j)
    ensures ReplaceAll(a + needle + b, needle, replacement) == a + replacement + ReplaceAll(b, needle, replacement)
    ensures CountOccurrences(a + needle + b, needle) == 1 + CountOccurrences(b, needle)
  {
    PiecesCons(a, b, needle);
    assert ([a] + Pieces(b, needle))[1..] == Pieces(b, needle);
  }

  lemma OneMore(n: int, d: int)
    ensures (1 + n) * d == d + n * d
  {
  }

  lemma NextReplacement(text: string, needle: string, replacement: string, i: nat)
    requires needle != "" && IndexOf(text, needle) == Some(i)
    ensures i + |needle| <= |text|
    ensures var b := text[i + |needle|..];
            && |ReplaceAll(text, needle, replacement)| == i + |replacement| + |ReplaceAll(b, needle, replacement)|
            && CountOccurrences(text, needle) == 1 + CountOccurrences(b, needle)
  {
    OccursBehind(text, needle, i);
    ReplaceAllAtFirst(text[..i], text[i + |needle|..], needle, replacement);
  }

  /** Every counted occurrence is replaced: the length changes by the same amount for each. */
  lemma {:induction false} ReplaceAllLength(text: string, needle: string, replacement: string)
    requires needle != ""
    ensures |ReplaceAll(text, needle, replacement)|
         == |text| + CountOccurrences(text, needle) * (|replacement| - |needle|)
    decreases |text|
  {
    match IndexOf(text, needle)
    case None => ReplaceAllWithout(text, needle, replacement);
    case Some(i) =>
      var b := text[i + |needle|..];
      ReplaceAllLength(b, needle, replacement);
      NextReplacement(text, needle, replacement, i);
      OneMore(CountOccurrences(b, needle), |replacement| - |needle|);
  }

  /** There is more than one occurrence to choose from. */
  ghost predicate IsAmbiguous(text: string, needle: string) {
    exists i, j :: OccursAt(text, needle, i) && OccursAt(text, needle, j) && i + |needle| <= j
  }

  lemma AmbiguousIffCounted(text: string, needle: string)
    requires needle != ""
    ensures CountOccurrences(text, needle) == 0 <==> forall i :: !OccursAt(text, needle, i)
    ensures CountOccurrences(text, needle) > 1 <==> IsAmbiguous(text, needle)
  {
    var ps := SplitCountIsReached(text, needle);
    if |ps| > 0 { assert OccursAt(text, needle, ps[0]); }
    if |ps| > 1 { assert OccursAt(text, needle, ps[1]) && ps[0] + |needle| <= ps[1]; }
    if i :| OccursAt(text, needle, i) {
      SplitCountIsUpperBound(text, needle, [i]);
    }
    if IsAmbiguous(text, needle) {
      var i, j :| OccursAt(text, needle, i) && OccursAt(text, needle, j) && i + |needle| <= j;
      SplitCountIsUpperBound(text, needle, [i, j]);
    }
  }

  /** Which edits are refused and why, in terms of where the old text occurs; and how many replacements the others report. */
  lemma EditIsRefusedIff(before: string, oldString: string, newString: string, replaceAll: bool)
    ensures var edit := EditText(before, oldString, newString, replaceAll);
            var missing := oldString == "" || forall i :: !OccursAt(before, oldString, i);
            && (edit == Err(Identical) <==> oldString == newString)
            && (edit == Err(NotFound) <==> oldString != newString && missing)
            && (edit.Err? && edit.error.Ambiguous?
                <==> oldString != newString && !missing && !replaceAll && IsAmbiguous(before, oldString))
            && (edit.Ok? ==> edit.value.1 == if replaceAll then CountOccurrences(before, oldString) else 1)
            && (edit.Ok? && replaceAll ==> edit.value.0 == ReplaceAll(before, oldString, newString))
  {
    if oldString != "" { AmbiguousIffCounted(before, oldString); }
  }

  // ----- Replacement patterns -----

  /** Everything in front of the first dollar sign is copied. */
  lemma {:induction false} ExpandCopies(literal: string, rest: string, prefix: string, matched: string, suffix: string)
    requires '$' !in literal
    ensures Expand(literal + rest, prefix, matched, suffix) == literal + Expand(rest, prefix, matched, suffix)
  {
    if literal == "" {
      assert literal + rest == rest;
    } else {
      var template := literal + rest;
      assert template[0] == literal[0] && template[1..] == literal[1..] + rest;
      ExpandCopies(literal[1..], rest, prefix, matched, suffix);
    }
  }

  lemma ExpandPattern(c: char, rest: string, prefix: string, matched: string, suffix: string)
    ensures var template := ['$', c] + rest;
            template[2..] == rest && template[1..] == [c] + rest
            && Expand(template, prefix, matched, suffix)
               == if c == '$' then "$" + Expand(rest, prefix, matched, suffix)
                  else if c == '&' then matched + Expand(rest, prefix, matched, suffix)
                  else if c == '`' then prefix + Expand(rest, prefix, matched, suffix)
                  else if c == '\'' then suffix + Expand(rest, prefix, matched, suffix)
                  else "$" + Expand([c] + rest, prefix, matched, suffix)
  {
    var template := ['$', c] + rest;
    assert template[2..] == rest && template[1..] == [c] + rest;
  }

  /** What stands for each of the four patterns, and that a dollar sign before anything else is itself. */
  lemma ExpandAtDollar(literal: string, c: char, rest: string, prefix: string, matched: string, suffix: string)
    requires '$' !in literal
    ensures var e := Expand(literal + (['$', c] + rest), prefix, matched, suffix);
            var after := Expand(rest, prefix, matched, suffix);
            && (c == '$' ==> e == literal + ("$" + after))
            && (c == '&' ==> e == literal + (matched + after))
            && (c == '`' ==> e == literal + (prefix + after))
            && (c == '\'' ==> e == literal + (suffix + after))
            && (c !in "$&`'" ==> e == literal + ("$" + Expand([c] + rest, prefix, matched, suffix)))
  {
    ExpandCopies(literal, ['$', c] + rest, prefix, matched, suffix);
    ExpandPattern(c, rest, prefix, matched, suffix);
  }

  predicate HasPattern(template: string) {
    exists i :: 0 <= i < |template| - 1 && template[i] == '$' && IsPatternMark(template[i + 1])
  }

  lemma {:induction false} ExpandWithoutPattern(template: string, prefix: string, matched: string, suffix: string)
    requires !HasPattern(template)
    ensures Expand(template, prefix, matched, suffix) == template
  {
    if template != "" {
      assert !HasPattern(template[1..]) by {
        forall i | 0 <= i < |template| - 2 ensures !(template[1..][i] == '$' && IsPatternMark(template[1..][i + 1])) {
          assert !(template[i + 1] == '$' && IsPatternMark(template[i + 2]));
        }
      }
      assert |template| >= 2 ==> !(template[0] == '$' && IsPatternMark(template[1]));
      ExpandWithoutPattern(template[1..], prefix, matched, suffix);
    }
  }

  /** With one-character pieces to fill in, every pattern makes the text shorter. */
  lemma {:induction false} ExpandShortens(template: string, matched: string)
    requires |matched| == 1
    ensures |Expand(template, "", matched, "")| <= |template|
    ensures HasPattern(template) ==> |Expand(template, "", matched, "")| < |template|
  {
    if |template| >= 2 && template[0] == '$' && IsPatternMark(template[1]) {
      ExpandShortens(template[2..], matched);
    } else if template != "" {
      ExpandShortens(template[1..], matched);
      if HasPattern(template) {
        var i :| 0 <= i < |template| - 1 && template[i] == '$' && IsPatternMark(template[i + 1]);
        assert i > 0;
        assert template[1..][i - 1] == '$' && IsPatternMark(template[1..][i]);
      }
    }
  }

  /** A single occurrence: what both ways of replacing it produce. */
  lemma SingleOccurrence(before: string, oldString: string, newString: string) returns (prefix: string, suffix: string)
    requires CountOccurrences(before, oldString) == 1
    ensures before == prefix + oldString + suffix
    ensures ReplaceAll(before, oldString, newString) == prefix + newString + suffix
    ensures ReplaceFirst(before, oldString, newString)
         == prefix + Expand(newString, prefix, oldString, suffix) + suffix
  {
    var i := IndexOf(before, oldString).value;
    prefix, suffix := before[..i], before[i + |oldString|..];
    assert Pieces(suffix, oldString) == [suffix];
    assert Pieces(before, oldString) == [prefix, suffix];
    assert Join([prefix, suffix], newString) == prefix + newString + suffix by {
      assert [prefix, suffix][1..] == [suffix];
    }
  }

  /** Edits of the text with a template that `replaceAll` and the single branch treat alike. */
  predicate BranchesAgree(before: string, oldString: string, newString: string) {
    EditText(before, oldString, newString, true) == EditText(before, oldString, newString, false)
  }

  /** A file in which a template with a pattern is not inserted as it is written. */
  lemma PatternIsExpanded(newString: string) returns (before: string)
    requires HasPattern(newString)
    ensures CountOccurrences(before, before) == 1
    ensures !BranchesAgree(before, before, newString)
  {
    before := "x";
    var prefix, suffix := SingleOccurrenceOfX(newString);
    ExpandShortens(newString, "x");
  }

  lemma SingleOccurrenceOfX(newString: string) returns (prefix: string, suffix: string)
    ensures prefix == "" && suffix == "" && CountOccurrences("x", "x") == 1
    ensures ReplaceAll("x", "x", newString) == newString
    ensures ReplaceFirst("x", "x", newString) == Expand(newString, "", "x", "")
  {
    assert "x"[0..1] == "x";
    assert OccursAt("x", "x", 0);
    assert IndexOf("x", "x") == Some(0);
    assert Pieces("x", "x") == ["", ""];
    prefix, suffix := SingleOccurrence("x", "x", newString);
    assert prefix == "" && suffix == "";
    assert "" + newString + "" == newString;
    var e := Expand(newString, "", "x", "");
    assert "" + e + "" == e;
  }

  /**
   * The new text is inserted literally, whatever the file and the single
   * occurrence to replace, exactly when it contains no replacement pattern.
   */
  lemma InsertedLiterallyIffNoPattern(newString: string)
    ensures !HasPattern(newString)
       <==> forall before, oldString :: CountOccurrences(before, oldString) == 1 ==> BranchesAgree(before, oldString, newString)
  {
    if HasPattern(newString) {
      var before := PatternIsExpanded(newString);
    } else {
      forall before, oldString | CountOccurrences(before, oldString) == 1
        ensures BranchesAgree(before, oldString, newString)
      {
        if oldString != newString {
          var prefix, suffix := SingleOccurrence(before, oldString, newString);
          ExpandWithoutPattern(newString, prefix, oldString, suffix);
        }
      }
    }
  }
}

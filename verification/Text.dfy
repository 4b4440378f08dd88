/** Strings and optional strings as JavaScript treats them. */
module Text {
  import opened Common

  /** Present and not the empty string, as JavaScript tests an optional string. */
  predicate Truthy(s: Option<string>) { s.Some? && s.value != "" }

  function OnlyTruthy(s: Option<string>): Option<string> { if Truthy(s) then s else None }

  /** `replace(/^\/+/, '')`. */
  function StripSlashes(path: string): string {
    if path != "" && path[0] == '/' then StripSlashes(path[1..]) else path
  }

  /** White space and line terminators, as `String.prototype.trim` strips them. */
  predicate IsSpace(c: char) {
    || '\t' <= c <= '\r' || c == ' ' || c == '\U{A0}' || c == '\U{1680}' || '\U{2000}' <= c <= '\U{200A}'
    || c == '\U{2028}' || c == '\U{2029}' || c == '\U{202F}' || c == '\U{205F}' || c == '\U{3000}'
    || c == '\U{FEFF}'
  }

  function TrimStart(s: string): string {
    if s != [] && IsSpace(s[0]) then TrimStart(s[1..]) else s
  }

  function TrimEnd(s: string): string {
    if s != [] && IsSpace(s[|s| - 1]) then TrimEnd(s[..|s| - 1]) else s
  }

  function Trim(s: string): string { TrimEnd(TrimStart(s)) }

  lemma TrimIsIdentity(s: string)
    requires s != "" && !IsSpace(s[0]) && !IsSpace(s[|s| - 1])
    ensures Trim(s) == s
  {
  }

  predicate IsBlank(s: string) { forall c :: c in s ==> IsSpace(c) }

  lemma {:induction false} TrimStartDropsBlank(a: string, s: string)
    requires IsBlank(a)
    ensures TrimStart(a + s) == TrimStart(s)
  {
    if a == "" {
      assert a + s == s;
    } else {
      assert a[0] in a && (a + s)[1..] == a[1..] + s;
      TrimStartDropsBlank(a[1..], s);
    }
  }

  lemma {:induction false} TrimEndDropsBlank(s: string, c: string)
    requires IsBlank(c)
    ensures TrimEnd(s + c) == TrimEnd(s)
  {
    if c == "" {
      assert s + c == s;
    } else {
      assert c[|c| - 1] in c && (s + c)[..|s + c| - 1] == s + c[..|c| - 1];
      TrimEndDropsBlank(s, c[..|c| - 1]);
    }
  }

  /** Trimming takes off all white space at the ends, and only that. */
  lemma TrimDropsPadding(a: string, s: string, c: string)
    requires IsBlank(a) && IsBlank(c) && s != "" && !IsSpace(s[0]) && !IsSpace(s[|s| - 1])
    ensures Trim(a + s + c) == s
  {
    assert a + s + c == a + (s + c);
    TrimStartDropsBlank(a, s + c);
    assert TrimStart(s + c) == s + c;
    TrimEndDropsBlank(s, c);
    TrimIsIdentity(s);
  }

  lemma TrimOfBlank(s: string)
    requires IsBlank(s)
    ensures Trim(s) == ""
  {
    assert s + "" == s;
    TrimStartDropsBlank(s, "");
  }
}

// The .NET string operations the node registry uses to build its lookup keys:
// string.IsNullOrWhiteSpace, ToLowerInvariant and Trim.

module Text {
  import opened Wrappers

  /** char.IsWhiteSpace: the Unicode White_Space characters. */
  predicate IsWhiteSpace(c: char)
  {
    c == ' ' || '\t' <= c <= '\r' || c == '\U{85}' || c == '\U{A0}' || c == '\U{1680}'
    || '\U{2000}' <= c <= '\U{200A}' || c == '\U{2028}' || c == '\U{2029}'
    || c == '\U{202F}' || c == '\U{205F}' || c == '\U{3000}'
  }

  predicate AllWhiteSpace(s: string)
  {
    forall i :: 0 <= i < |s| ==> IsWhiteSpace(s[i])
  }

  /** string.IsNullOrWhiteSpace; None stands for a null string. */
  predicate IsNullOrWhiteSpace(s: Option<string>)
  {
    s.None? || AllWhiteSpace(s.value)
  }

  /** string.IsNullOrEmpty. */
  predicate IsNullOrEmpty(s: Option<string>)
  {
    s.None? || s.value == ""
  }

  /** char.ToLowerInvariant on the Basic Latin and Latin-1 letters. */
  function LowerChar(c: char): char
  {
    if 'A' <= c <= 'Z' || ('\U{C0}' <= c <= '\U{DE}' && c != '\U{D7}') then
      (c as int + 32) as char
    else c
  }

  function ToLowerInvariant(s: string): (r: string)
    ensures |r| == |s|
    ensures forall i :: 0 <= i < |s| ==> r[i] == LowerChar(s[i])
  {
    seq(|s|, i requires 0 <= i < |s| => LowerChar(s[i]))
  }

  function TrimStart(s: string): string
  {
    if |s| > 0 && IsWhiteSpace(s[0]) then TrimStart(s[1..]) else s
  }

  function TrimEnd(s: string): string
  {
    if |s| > 0 && IsWhiteSpace(s[|s| - 1]) then TrimEnd(s[..|s| - 1]) else s
  }

  /** string.Trim. */
  function Trim(s: string): string
  {
    TrimEnd(TrimStart(s))
  }

  /** The registry's lookup key: `s.ToLowerInvariant().Trim()`. */
  function Key(s: string): string
  {
    Trim(ToLowerInvariant(s))
  }

  /** A string that is its own key: lower case, no surrounding white space. */
  predicate IsKey(k: string)
  {
    (forall i :: 0 <= i < |k| ==> LowerChar(k[i]) == k[i])
    && (|k| > 0 ==> !IsWhiteSpace(k[0]) && !IsWhiteSpace(k[|k| - 1]))
  }

  lemma LowerCharKeepsWhiteSpace(c: char)
    ensures IsWhiteSpace(LowerChar(c)) == IsWhiteSpace(c)
    ensures LowerChar(LowerChar(c)) == LowerChar(c)
  {
  }

  lemma {:induction false} TrimStartIsSuffix(s: string)
    ensures var r := TrimStart(s);
      |r| <= |s| && r == s[|s| - |r|..]
      && (|r| > 0 ==> !IsWhiteSpace(r[0]))
      && AllWhiteSpace(s[..|s| - |r|])
  {
    if |s| > 0 && IsWhiteSpace(s[0]) {
      TrimStartIsSuffix(s[1..]);
      var r := TrimStart(s[1..]);
      assert s[1..][|s| - 1 - |r|..] == s[|s| - |r|..];
      assert s[..|s| - |r|] == [s[0]] + s[1..][..|s| - 1 - |r|];
    }
  }

  lemma {:induction false} TrimEndIsPrefix(s: string)
    ensures var r := TrimEnd(s);
      |r| <= |s| && r == s[..|r|]
      && (|r| > 0 ==> !IsWhiteSpace(r[|r| - 1]))
      && AllWhiteSpace(s[|r|..])
  {
    if |s| > 0 && IsWhiteSpace(s[|s| - 1]) {
      var t := s[..|s| - 1];
      TrimEndIsPrefix(t);
      var r := TrimEnd(t);
      assert t[..|r|] == s[..|r|];
      assert s[|r|..] == t[|r|..] + [s[|s| - 1]];
    }
  }

  /** Trimming drops only white space, so the result is empty exactly when the input is blank. */
  lemma TrimEmptyIffBlank(s: string)
    ensures Trim(s) == "" <==> AllWhiteSpace(s)
    ensures |Trim(s)| > 0 ==> !IsWhiteSpace(Trim(s)[0]) && !IsWhiteSpace(Trim(s)[|Trim(s)| - 1])
  {
    TrimStartIsSuffix(s);
    var u := TrimStart(s);
    TrimEndIsPrefix(u);
    var r := TrimEnd(u);
    if r == "" {
      assert |u| == 0;
      assert s[..|s| - |u|] == s;
    } else {
      assert r[0] == u[0] == s[|s| - |u|];
    }
  }

  /** A blank string has the empty key and every other string a non-empty one. */
  lemma KeyEmptyIffBlank(s: string)
    ensures Key(s) == "" <==> AllWhiteSpace(s)
  {
    var l := ToLowerInvariant(s);
    TrimEmptyIffBlank(l);
    forall i | 0 <= i < |s|
      ensures IsWhiteSpace(l[i]) == IsWhiteSpace(s[i])
    {
      LowerCharKeepsWhiteSpace(s[i]);
    }
  }

  /** Every key is in normal form: lower case and trimmed. */
  lemma KeyIsKey(s: string)
    ensures IsKey(Key(s))
  {
    var l := ToLowerInvariant(s);
    TrimStartIsSuffix(l);
    var u := TrimStart(l);
    TrimEndIsPrefix(u);
    TrimEmptyIffBlank(l);
    var k := Key(s);
    forall i | 0 <= i < |k|
      ensures LowerChar(k[i]) == k[i]
    {
      assert k[i] == u[i];
      assert u[i] == l[|l| - |u| + i];
      LowerCharKeepsWhiteSpace(s[|l| - |u| + i]);
    }
  }

  /** A string already in normal form is its own key; with KeyIsKey, Key is idempotent. */
  lemma KeyOfKey(k: string)
    requires IsKey(k)
    ensures Key(k) == k
  {
    assert ToLowerInvariant(k) == k;
    if |k| > 0 {
      assert TrimStart(k) == k;
    }
    assert TrimEnd(k) == k;
  }

  lemma KeyIdempotent(s: string)
    ensures Key(Key(s)) == Key(s)
  {
    KeyIsKey(s);
    KeyOfKey(Key(s));
  }
}

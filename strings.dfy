/**
 * The parts of Go's `strings` package and string comparison that the label
 * source relies on, written over `seq<char>`.
 */
module Strings {

  /**
   * Go's `unicode.IsSpace`: the ASCII white space characters, NEL, NBSP and
   * the characters with the Unicode White_Space property.
   */
  predicate IsSpace(c: char)
  {
    || c == ' ' || c == '\t' || c == '\n' || c == '\U{0B}' || c == '\U{0C}' || c == '\r'
    || c == '\U{85}' || c == '\U{A0}' || c == '\U{1680}'
    || ('\U{2000}' <= c <= '\U{200A}')
    || c == '\U{2028}' || c == '\U{2029}' || c == '\U{202F}' || c == '\U{205F}' || c == '\U{3000}'
  }

  /** The string has no character outside white space (the empty string included). */
  predicate IsBlank(s: string)
  {
    forall i :: 0 <= i < |s| ==> IsSpace(s[i])
  }

  /** Drops leading white space: the result is the longest suffix of `s` that does not start with a space. */
  function TrimLeft(s: string): (r: string)
    ensures |r| <= |s| && r == s[|s| - |r|..]
    ensures forall i :: 0 <= i < |s| - |r| ==> IsSpace(s[i])
    ensures r != [] ==> !IsSpace(r[0])
  {
    if s != [] && IsSpace(s[0]) then TrimLeft(s[1..]) else s
  }

  /** Drops trailing white space: the result is the longest prefix of `s` that does not end with a space. */
  function TrimRight(s: string): (r: string)
    ensures |r| <= |s| && r == s[..|r|]
    ensures forall i :: |r| <= i < |s| ==> IsSpace(s[i])
    ensures r != [] ==> !IsSpace(r[|r| - 1])
  {
    if s != [] && IsSpace(s[|s| - 1]) then TrimRight(s[..|s| - 1]) else s
  }

  /** Go's `strings.TrimSpace`: the result neither starts nor ends with white space. */
  function TrimSpace(s: string): (r: string)
    ensures |r| <= |s|
    ensures r != [] ==> !IsSpace(r[0]) && !IsSpace(r[|r| - 1])
  {
    TrimRight(TrimLeft(s))
  }

  /** `s` is a white-space prefix, then `TrimSpace(s)`, then a white-space suffix. */
  lemma TrimSpaceCutsBlank(s: string) returns (i: nat)
    ensures i <= |s| && IsBlank(s[..i])
    ensures |TrimSpace(s)| <= |s| - i && TrimSpace(s) == s[i..][..|TrimSpace(s)|]
    ensures IsBlank(s[i..][|TrimSpace(s)|..])
  {
    var l := TrimLeft(s);
    var t := TrimRight(l);
    i := |s| - |l|;
    assert l == s[i..];
    assert IsBlank(s[..i]) by { assert forall j :: 0 <= j < i ==> s[..i][j] == s[j]; }
    assert t == l[..|t|];
    assert IsBlank(l[|t|..]);
  }

  /** `TrimSpace(s) == ""` holds exactly for the strings made only of white space. */
  lemma TrimSpaceEmptyIffBlank(s: string)
    ensures TrimSpace(s) == [] <==> IsBlank(s)
  {
    var l := TrimLeft(s);
    if l != [] {
      // the first character kept by TrimLeft is not white space
      assert l[0] == s[|s| - |l|];
    }
  }

  /** Go's `strings.HasPrefix`: a literal prefix test, with no notion of a separator. */
  predicate HasPrefix(s: string, prefix: string)
  {
    |prefix| <= |s| && s[..|prefix|] == prefix
  }

  /** Go's `strings.TrimPrefix`: removes one occurrence of `prefix` from the front, if it is there. */
  function TrimPrefix(s: string, prefix: string): (r: string)
    ensures HasPrefix(s, prefix) ==> prefix + r == s
    ensures !HasPrefix(s, prefix) ==> r == s
  {
    if HasPrefix(s, prefix) then s[|prefix|..] else s
  }

  /**
   * Go's `<` on strings: lexicographic order. Go compares UTF-8 bytes; for
   * well-formed text that order is the order of code points used here.
   */
  predicate Less(a: string, b: string)
  {
    if b == [] then false
    else if a == [] then true
    else if a[0] != b[0] then a[0] < b[0]
    else Less(a[1..], b[1..])
  }

  lemma {:induction false} LessIrreflexive(a: string)
    ensures !Less(a, a)
  {
    if a != [] {
      LessIrreflexive(a[1..]);
    }
  }

  lemma {:induction false} LessTransitive(a: string, b: string, c: string)
    requires Less(a, b) && Less(b, c)
    ensures Less(a, c)
  {
    if a != [] && a[0] == b[0] && b[0] == c[0] {
      LessTransitive(a[1..], b[1..], c[1..]);
    }
  }

  /** Two different strings are always ordered one way or the other. */
  lemma {:induction false} LessTotal(a: string, b: string)
    requires a != b
    ensures Less(a, b) || Less(b, a)
  {
    if a != [] && b != [] && a[0] == b[0] {
      assert a == [a[0]] + a[1..] && b == [b[0]] + b[1..];
      LessTotal(a[1..], b[1..]);
    }
  }
}

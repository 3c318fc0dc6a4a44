/** The C string operations the HALs lean on. */
module CText {
  type Byte = x: int | 0 <= x < 256

  // snprintf (dst, size, "%s", src): what fits in front of the terminator.
  function Clip(s: string, size: nat): (r: string)
    requires size > 0
    ensures |r| < size && r <= s
    ensures |s| < size ==> r == s
    ensures |s| >= size ==> |r| == size - 1
  {
    if |s| < size then s else s[..size - 1]
  }

  function ToLower(c: char): char {
    if 'A' <= c <= 'Z' then c - 'A' + 'a' else c
  }

  // strcasecmp (a, b) == 0 in the C locale.
  predicate EqualIgnoringCase(a: string, b: string) {
    && |a| == |b|
    && forall i :: 0 <= i < |a| ==> ToLower(a[i]) == ToLower(b[i])
  }

  const NUL := '\0'

  // The string a C reader sees in a buffer: everything before the first terminator.
  function CString(s: string): (r: string)
    ensures |r| <= |s| && r == s[..|r|] && NUL !in r
    ensures |r| < |s| ==> s[|r|] == NUL
  {
    if s == [] || s[0] == NUL then [] else [s[0]] + CString(s[1..])
  }

  lemma CStringEnds(s: string, k: nat)
    requires k <= |s| && NUL !in s[..k] && (k < |s| ==> s[k] == NUL)
    ensures CString(s) == s[..k]
  {
    var n := |CString(s)|;
    assert forall j :: 0 <= j < k ==> s[j] == s[..k][j] && s[j] != NUL;
    assert forall j :: 0 <= j < n ==> s[j] == CString(s)[j] && s[j] != NUL;
  }
}

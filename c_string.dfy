/** The C library's case-insensitive string comparison, over strings that
    are C strings (no NUL character inside). */
module CStrings {

  /** `tolower` in the C locale: only 'A'..'Z' change. */
  function LowerChar(c: char): (l: char)
    ensures 'A' <= c <= 'Z' ==> l as int == c as int + 32
    ensures !('A' <= c <= 'Z') ==> l == c
  {
    if 'A' <= c <= 'Z' then (c as int + 32) as char else c
  }

  /** A string with every letter lowered. */
  function Lower(s: string): (l: string)
    ensures |l| == |s|
    ensures forall i :: 0 <= i < |s| ==> l[i] == LowerChar(s[i])
  {
    seq(|s|, i requires 0 <= i < |s| => LowerChar(s[i]))
  }

  predicate IsCString(s: string)
  {
    forall i :: 0 <= i < |s| ==> s[i] != '\0'
  }

  /** The character `strcasecmp` reads at position i: the terminator past the end. */
  function CharAt(s: string, i: nat): char
  {
    if i < |s| then s[i] else '\0'
  }

  /** `strcasecmp`: walks both strings until the lowered characters differ
      or the terminator is reached, and returns the difference of the
      lowered characters there. */
  function StrCaseCmp(a: string, b: string): int
    decreases |a|
  {
    var ca := LowerChar(CharAt(a, 0)) as int;
    var cb := LowerChar(CharAt(b, 0)) as int;
    if ca != cb || ca == 0 || |a| == 0 || |b| == 0 then ca - cb
    else StrCaseCmp(a[1..], b[1..])
  }

  /** For C strings, `strcasecmp` answers zero exactly when the two strings
      are equal once lowered. */
  lemma {:induction false} StrCaseCmpZeroIff(a: string, b: string)
    requires IsCString(a) && IsCString(b)
    ensures StrCaseCmp(a, b) == 0 <==> Lower(a) == Lower(b)
    decreases |a|
  {
    var ca := LowerChar(CharAt(a, 0)) as int;
    var cb := LowerChar(CharAt(b, 0)) as int;
    if |a| == 0 || |b| == 0 {
      if |a| != 0 {
        assert ca != 0;
      } else if |b| != 0 {
        assert cb != 0;
      }
    } else if ca != cb {
      assert Lower(a)[0] != Lower(b)[0];
    } else {
      assert IsCString(a[1..]) && IsCString(b[1..]);
      StrCaseCmpZeroIff(a[1..], b[1..]);
      assert Lower(a) == [Lower(a)[0]] + Lower(a[1..]);
      assert Lower(b) == [Lower(b)[0]] + Lower(b[1..]);
    }
  }
}

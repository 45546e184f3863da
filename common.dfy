/** Vocabulary shared by every part of the marketplace: optional values,
    the user roles, and the ASCII case conversions that the routes apply to
    titles, country codes and search queries. */
module Common {

  datatype Option<+T> = None | Some(value: T)

  /** The role enum of the user table. */
  datatype Role = ADMIN | PROVIDER | CUSTOMER

  predicate IsUpperAscii(c: char) { 'A' <= c <= 'Z' }

  predicate IsLowerAscii(c: char) { 'a' <= c <= 'z' }

  predicate IsDigit(c: char) { '0' <= c <= '9' }

  /** `toLowerCase` restricted to ASCII letters. */
  function ToLowerChar(c: char): (d: char)
    ensures !IsUpperAscii(d)
    ensures IsLowerAscii(d) <==> IsLowerAscii(c) || IsUpperAscii(c)
  {
    if IsUpperAscii(c) then (c as int + 32) as char else c
  }

  /** `toUpperCase` restricted to ASCII letters. */
  function ToUpperChar(c: char): (d: char)
    ensures !IsLowerAscii(d)
    ensures IsUpperAscii(d) <==> IsLowerAscii(c) || IsUpperAscii(c)
  {
    if IsLowerAscii(c) then (c as int - 32) as char else c
  }

  function LowerStr(s: string): (r: string)
    ensures |r| == |s|
    ensures forall i :: 0 <= i < |s| ==> r[i] == ToLowerChar(s[i])
  {
    seq(|s|, i requires 0 <= i < |s| => ToLowerChar(s[i]))
  }

  function UpperStr(s: string): (r: string)
    ensures |r| == |s|
    ensures forall i :: 0 <= i < |s| ==> r[i] == ToUpperChar(s[i])
  {
    seq(|s|, i requires 0 <= i < |s| => ToUpperChar(s[i]))
  }

  /** Lower-casing forgets how a letter was written: both case
      conversions of a character lower-case to the same character. */
  lemma LowerForgetsCase(c: char)
    ensures ToLowerChar(ToUpperChar(c)) == ToLowerChar(c)
    ensures ToLowerChar(ToLowerChar(c)) == ToLowerChar(c)
  {
  }

  lemma LowerStrForgetsCase(s: string)
    ensures LowerStr(UpperStr(s)) == LowerStr(s)
    ensures LowerStr(LowerStr(s)) == LowerStr(s)
  {
    forall i | 0 <= i < |s|
      ensures LowerStr(UpperStr(s))[i] == LowerStr(s)[i]
      ensures LowerStr(LowerStr(s))[i] == LowerStr(s)[i]
    {
      LowerForgetsCase(s[i]);
    }
  }

  function StartsWith(s: string, prefix: string): (b: bool)
    ensures b ==> |prefix| <= |s| && forall i :: 0 <= i < |prefix| ==> s[i] == prefix[i]
  {
    |prefix| <= |s| && s[..|prefix|] == prefix
  }
}

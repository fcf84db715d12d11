/** Upper-casing of strings as `String.toUpperCase(Locale.US)` does it, restricted to the
    ASCII letters, and the case-insensitive comparison it induces. */
module AsciiCase {

  predicate IsLowerLetter(c: char) { 'a' <= c <= 'z' }

  predicate IsUpperLetter(c: char) { 'A' <= c <= 'Z' }

  /** Distance between a lower-case ASCII letter and its upper-case form. */
  const CaseOffset: int := 'a' as int - 'A' as int

  /** Case-insensitive equality of two characters, stated without any case mapping:
      the same character, or two letters that are each other's other case. */
  predicate SameIgnoringCase(c: char, d: char)
  {
    || c == d
    || (IsLowerLetter(c) && IsUpperLetter(d) && c as int - d as int == CaseOffset)
    || (IsUpperLetter(c) && IsLowerLetter(d) && d as int - c as int == CaseOffset)
  }

  /** Case-insensitive equality of two strings (what `equalsIgnoreCase` decides on ASCII). */
  predicate EqualsIgnoreCase(a: string, b: string)
  {
    |a| == |b| && forall i :: 0 <= i < |a| ==> SameIgnoringCase(a[i], b[i])
  }

  /** Upper case of one character: lower-case ASCII letters move to upper case, every
      other character is kept. */
  function ToUpperChar(c: char): (u: char)
    ensures !IsLowerLetter(u)
    ensures SameIgnoringCase(c, u)
    ensures !IsLowerLetter(c) ==> u == c
  {
    if IsLowerLetter(c) then (c as int - CaseOffset) as char else c
  }

  /** Two characters have the same upper case exactly when they are equal ignoring case. */
  lemma ToUpperCharEqualIff(c: char, d: char)
    ensures ToUpperChar(c) == ToUpperChar(d) <==> SameIgnoringCase(c, d)
  {
  }

  /** `s.toUpperCase(Locale.US)` on ASCII: the result has the input's length, holds no
      lower-case letter and equals the input ignoring case, which fixes it uniquely. */
  function ToUpperUs(s: string): (r: string)
    ensures |r| == |s|
    ensures forall i :: 0 <= i < |r| ==> !IsLowerLetter(r[i])
    ensures forall i :: 0 <= i < |r| ==> SameIgnoringCase(s[i], r[i])
  {
    if s == [] then [] else [ToUpperChar(s[0])] + ToUpperUs(s[1..])
  }

  /** The postconditions of ToUpperUs determine each character of its result. */
  lemma ToUpperUsAt(s: string, i: int)
    requires 0 <= i < |s|
    ensures ToUpperUs(s)[i] == ToUpperChar(s[i])
  {
    UpperCaseDetermined(s[i], ToUpperUs(s)[i]);
  }

  /** The only character that is not a lower-case letter and equals `c` ignoring case is
      the upper case of `c`. */
  lemma UpperCaseDetermined(c: char, u: char)
    requires SameIgnoringCase(c, u) && !IsLowerLetter(u)
    ensures u == ToUpperChar(c)
  {
    if IsLowerLetter(c) {
      assert u as int == c as int - CaseOffset;
    }
  }

  /** Upper-casing keeps a string empty or non-empty. */
  lemma ToUpperUsEmptyIff(s: string)
    ensures ToUpperUs(s) == [] <==> s == []
  {
    assert |ToUpperUs(s)| == |s|;
  }

  /** A string without lower-case letters is its own upper case. */
  lemma {:induction false} ToUpperUsFixesUpper(s: string)
    requires forall i :: 0 <= i < |s| ==> !IsLowerLetter(s[i])
    ensures ToUpperUs(s) == s
  {
    forall i | 0 <= i < |s|
      ensures ToUpperUs(s)[i] == s[i]
    {
      ToUpperUsAt(s, i);
    }
  }

  /** Upper-casing twice is upper-casing once. */
  lemma {:induction false} ToUpperUsIdempotent(s: string)
    ensures ToUpperUs(ToUpperUs(s)) == ToUpperUs(s)
  {
    ToUpperUsFixesUpper(ToUpperUs(s));
  }

  /** Two strings have the same upper case exactly when they are equal ignoring case:
      comparing upper-cased codes with `equals` is a case-insensitive comparison. */
  lemma {:induction false} ToUpperUsEqualIff(a: string, b: string)
    ensures ToUpperUs(a) == ToUpperUs(b) <==> EqualsIgnoreCase(a, b)
  {
    if ToUpperUs(a) == ToUpperUs(b) {
      forall i | 0 <= i < |a|
        ensures SameIgnoringCase(a[i], b[i])
      {
        ToUpperUsAt(a, i);
        ToUpperUsAt(b, i);
        ToUpperCharEqualIff(a[i], b[i]);
      }
    }
    if EqualsIgnoreCase(a, b) {
      forall i | 0 <= i < |a|
        ensures ToUpperUs(a)[i] == ToUpperUs(b)[i]
      {
        ToUpperUsAt(a, i);
        ToUpperUsAt(b, i);
        ToUpperCharEqualIff(a[i], b[i]);
      }
    }
  }
}

/** ASCII case handling for path strings.
    Lower-casing maps 'A'..'Z' to 'a'..'z' and leaves every other character as it is;
    full Unicode case folding is not part of this model. */
module AsciiCase {

  /** The distance between an upper-case ASCII letter and its lower-case form. */
  const CaseOffset: int := 'a' as int - 'A' as int

  predicate IsAsciiUpper(c: char) {
    'A' <= c <= 'Z'
  }

  /** Lower-cases one character. */
  function LowerChar(c: char): (r: char)
    ensures IsAsciiUpper(c) ==> r as int == c as int + CaseOffset
    ensures !IsAsciiUpper(c) ==> r == c
    ensures !IsAsciiUpper(r)
  {
    if IsAsciiUpper(c) then (c as int + CaseOffset) as char else c
  }

  /** Lower-cases a whole string, character by character. */
  function ToLower(s: string): (r: string)
    ensures |r| == |s|
    ensures forall i :: 0 <= i < |s| ==> r[i] == LowerChar(s[i])
  {
    if s == [] then [] else [LowerChar(s[0])] + ToLower(s[1..])
  }

  /** Two strings are equal up to ASCII case. */
  predicate EqualsIgnoringCase(a: string, b: string) {
    |a| == |b| && forall i :: 0 <= i < |a| ==> LowerChar(a[i]) == LowerChar(b[i])
  }

  /** A string without upper-case letters is its own lower-case form. */
  lemma ToLowerFixesLowercase(s: string)
    requires forall i :: 0 <= i < |s| ==> !IsAsciiUpper(s[i])
    ensures ToLower(s) == s
  {
  }

  /** Lower-casing commutes with taking a prefix. */
  lemma ToLowerTake(s: string, k: nat)
    requires k <= |s|
    ensures ToLower(s[..k]) == ToLower(s)[..k]
  {
  }

  /** Comparison ignoring case is comparison of the lower-case forms. */
  lemma EqualsIgnoringCaseIff(a: string, b: string)
    ensures EqualsIgnoringCase(a, b) <==> ToLower(a) == ToLower(b)
  {
    if ToLower(a) == ToLower(b) {
      assert forall i :: 0 <= i < |a| ==> LowerChar(a[i]) == ToLower(b)[i];
    }
  }

  /** Against a string with no upper-case letters, comparison ignoring case
      is equality with the lower-case form. */
  lemma EqualsIgnoringCaseLowercase(a: string, t: string)
    requires forall i :: 0 <= i < |t| ==> !IsAsciiUpper(t[i])
    ensures EqualsIgnoringCase(a, t) <==> ToLower(a) == t
  {
    EqualsIgnoringCaseIff(a, t);
    ToLowerFixesLowercase(t);
  }

  /** A prefix of the lower-case form of s is a lower-case prefix of s. */
  lemma LowerPrefixIff(s: string, t: string)
    requires forall i :: 0 <= i < |t| ==> !IsAsciiUpper(t[i])
    ensures t <= ToLower(s) <==> |t| <= |s| && EqualsIgnoringCase(s[..|t|], t)
  {
    if |t| <= |s| {
      ToLowerTake(s, |t|);
      EqualsIgnoringCaseLowercase(s[..|t|], t);
    }
  }
}

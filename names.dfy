/** State names are compared after upper-casing, so that names differing only
    in case denote the same state. Upper-casing is modelled on ASCII letters. */
module Names {

  /** True when `ch` is not a lower-case ASCII letter. */
  predicate IsUpperChar(ch: char) {
    !('a' <= ch <= 'z')
  }

  /** True when no character of `s` is a lower-case ASCII letter. */
  predicate IsUpper(s: string) {
    forall i :: 0 <= i < |s| ==> IsUpperChar(s[i])
  }

  /** Upper-cases one character; only `a`..`z` are changed. */
  function UpperChar(ch: char): (u: char)
    ensures IsUpperChar(u)
    ensures IsUpperChar(ch) ==> u == ch
    ensures 'a' <= ch <= 'z' ==> u as int == ch as int - 32
  {
    if 'a' <= ch <= 'z' then (ch as int - 32) as char else ch
  }

  /** Upper-cases a whole name, character by character. */
  function Upper(s: string): (r: string)
    ensures |r| == |s|
    ensures IsUpper(r)
  {
    seq(|s|, i requires 0 <= i < |s| => UpperChar(s[i]))
  }

  /** The names `Upper` leaves unchanged are exactly the upper-case ones. */
  lemma UpperFixesExactlyUpper(s: string)
    ensures Upper(s) == s <==> IsUpper(s)
  {
  }

  /** Upper-casing twice is the same as upper-casing once. */
  lemma UpperIdempotent(s: string)
    ensures Upper(Upper(s)) == Upper(s)
  {
  }

  /** Two characters that are equal, or are the lower- and upper-case forms
      of one ASCII letter. */
  predicate SameLetter(x: char, y: char) {
    || x == y
    || ('a' <= x <= 'z' && y as int == x as int - 32)
    || ('a' <= y <= 'z' && x as int == y as int - 32)
  }

  /** Two names that agree letter by letter up to case. */
  predicate EqualIgnoringCase(a: string, b: string) {
    |a| == |b| && forall i :: 0 <= i < |a| ==> SameLetter(a[i], b[i])
  }

  /** Two names denote the same state exactly when they differ only in case. */
  lemma SameStateIff(a: string, b: string)
    ensures Upper(a) == Upper(b) <==> EqualIgnoringCase(a, b)
  {
    if Upper(a) == Upper(b) {
      forall i | 0 <= i < |a| ensures SameLetter(a[i], b[i]) {
        assert Upper(a)[i] == Upper(b)[i];
      }
    }
    if EqualIgnoringCase(a, b) {
      forall i | 0 <= i < |a| ensures Upper(a)[i] == Upper(b)[i] {
        assert SameLetter(a[i], b[i]);
      }
    }
  }
}

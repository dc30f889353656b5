/** Character-level text operations used when normalising currency codes. */
module Text {

  predicate IsLower(c: char) {
    'a' <= c <= 'z'
  }

  /** Upper-cases one ASCII letter; every other character is returned as is. */
  function UpperChar(c: char): (u: char)
    ensures !IsLower(u)
    ensures IsLower(c) ==> u as int == c as int - 32
    ensures !IsLower(c) ==> u == c
  {
    if IsLower(c) then (c as int - 32) as char else c
  }

  /** No character of `s` is a lower-case ASCII letter. */
  predicate NoLower(s: string) {
    forall i :: 0 <= i < |s| ==> !IsLower(s[i])
  }

  /** Python's `str.upper()`, restricted to the ASCII letters that currency codes use. */
  function Upper(s: string): (r: string)
    ensures |r| == |s|
    ensures forall i :: 0 <= i < |s| ==> r[i] == UpperChar(s[i])
    ensures NoLower(r)
  {
    if s == [] then [] else [UpperChar(s[0])] + Upper(s[1..])
  }

  /** A string without lower-case letters is its own upper-case form. */
  lemma {:induction false} UpperOfNoLower(s: string)
    requires NoLower(s)
    ensures Upper(s) == s
  {
    if s != [] {
      assert NoLower(s[1..]) by {
        forall i | 0 <= i < |s[1..]| ensures !IsLower(s[1..][i]) {
          assert s[1..][i] == s[i + 1];
        }
      }
      UpperOfNoLower(s[1..]);
      assert s == [s[0]] + s[1..];
    }
  }

  /** Upper-casing twice is upper-casing once. */
  lemma UpperIdempotent(s: string)
    ensures Upper(Upper(s)) == Upper(s)
  {
    UpperOfNoLower(Upper(s));
  }
}

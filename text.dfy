/** Character-level helpers over `string` (= seq<char>): ASCII lower-casing,
    membership, prefix tests and the first index of a character. */
module Text {

  import opened Wrappers

  predicate IsUpper(c: char) {
    'A' <= c <= 'Z'
  }

  /** Lower-cases one ASCII letter and leaves every other character alone. */
  function LowerChar(c: char): (r: char)
    ensures !IsUpper(r)
    ensures IsUpper(c) ==> r as int == c as int + 32
    ensures !IsUpper(c) ==> r == c
  {
    if IsUpper(c) then (c as int + 32) as char else c
  }

  /** String.toLowerCase restricted to ASCII letters. */
  function ToLower(s: string): (r: string)
    ensures |r| == |s|
    ensures forall i :: 0 <= i < |s| ==> r[i] == LowerChar(s[i])
  {
    seq(|s|, i requires 0 <= i < |s| => LowerChar(s[i]))
  }

  predicate HasNoUpper(s: string) {
    forall i :: 0 <= i < |s| ==> !IsUpper(s[i])
  }

  lemma ToLowerIdempotent(s: string)
    ensures HasNoUpper(ToLower(s))
    ensures ToLower(ToLower(s)) == ToLower(s)
  {
  }

  /** Lower-casing changes only letters, so it keeps every non-letter where it was. */
  lemma ToLowerKeepsChar(s: string, c: char)
    requires !IsUpper(c) && !('a' <= c <= 'z')
    ensures (c in ToLower(s)) <==> (c in s)
  {
    if c in s {
      var i :| 0 <= i < |s| && s[i] == c;
      assert ToLower(s)[i] == c;
    }
    if c in ToLower(s) {
      var i :| 0 <= i < |s| && ToLower(s)[i] == c;
      assert s[i] == c;
    }
  }

  predicate StartsWith(s: string, prefix: string) {
    |prefix| <= |s| && s[..|prefix|] == prefix
  }

  /** String.indexOf(c): the position of the first `c`, if any. */
  function IndexOf(s: string, c: char): (r: Option<nat>)
    ensures r.None? <==> c !in s
    ensures r.Some? ==> r.value < |s| && s[r.value] == c && c !in s[..r.value]
  {
    if |s| == 0 then None
    else if s[0] == c then Some(0)
    else
      match IndexOf(s[1..], c)
      case None => None
      case Some(k) =>
        assert s[..k + 1] == [s[0]] + s[1..][..k];
        Some(k + 1)
  }
}

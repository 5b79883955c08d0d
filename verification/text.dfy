/** The few string operations the symbol formatter needs. Upper-casing
    covers ASCII letters only. */
module Text {

  function UpperChar(c: char): (u: char)
    ensures 'a' <= c <= 'z' ==> u as int == c as int - 32
    ensures !('a' <= c <= 'z') ==> u == c
    ensures !('a' <= u <= 'z')
  {
    if 'a' <= c <= 'z' then (c as int - 32) as char else c
  }

  function Upper(s: string): (r: string)
    ensures |r| == |s|
    ensures forall i :: 0 <= i < |s| ==> r[i] == UpperChar(s[i])
  {
    seq(|s|, i requires 0 <= i < |s| => UpperChar(s[i]))
  }

  /** No lower-case ASCII letter. */
  predicate IsUpper(s: string) {
    forall i :: 0 <= i < |s| ==> !('a' <= s[i] <= 'z')
  }

  lemma UpperMakesUpper(s: string)
    ensures IsUpper(Upper(s))
    ensures IsUpper(s) ==> Upper(s) == s
  {
  }

  lemma UpperIdempotent(s: string)
    ensures Upper(Upper(s)) == Upper(s)
  {
    UpperMakesUpper(s);
    UpperMakesUpper(Upper(s));
  }

  lemma UpperConcat(a: string, b: string)
    ensures Upper(a + b) == Upper(a) + Upper(b)
  {
  }

  predicate EndsWith(s: string, suffix: string) {
    |suffix| <= |s| && s[|s| - |suffix| ..] == suffix
  }

  predicate StartsWith(s: string, prefix: string) {
    |prefix| <= |s| && s[..|prefix|] == prefix
  }

  ghost predicate AppearsAt(s: string, sub: string, i: int) {
    0 <= i && i + |sub| <= |s| && s[i .. i + |sub|] == sub
  }

  /** `sub` occurs somewhere in `s`. */
  function Contains(s: string, sub: string): (b: bool)
    decreases |s|
    ensures b <==> exists i :: AppearsAt(s, sub, i)
  {
    if StartsWith(s, sub) then
      assert AppearsAt(s, sub, 0);
      true
    else if s == [] then false
    else
      var rest := Contains(s[1..], sub);
      AppearsShift(s, sub);
      rest
  }

  lemma AppearsShift(s: string, sub: string)
    requires s != [] && !AppearsAt(s, sub, 0)
    ensures (exists i :: AppearsAt(s, sub, i)) <==> (exists j :: AppearsAt(s[1..], sub, j))
  {
    if i :| AppearsAt(s, sub, i) {
      assert s[1..][i - 1 .. i - 1 + |sub|] == s[i .. i + |sub|];
      assert AppearsAt(s[1..], sub, i - 1);
    }
    if j :| AppearsAt(s[1..], sub, j) {
      assert s[1..][j .. j + |sub|] == s[j + 1 .. j + 1 + |sub|];
      assert AppearsAt(s, sub, j + 1);
    }
  }
}

/** String operations the core uses: `indexOf`/`lastIndexOf` of a character,
    JavaScript's `trim`, and the ordering of date keys. */
module Text {
  import opened Wrappers

  /** `s.indexOf(c)`: the position of the first `c`, if any. */
  function FirstIndex(s: string, c: char): (r: Option<nat>)
    ensures r.None? <==> c !in s
    ensures r.Some? ==> r.value < |s| && s[r.value] == c
    ensures r.Some? ==> forall k :: 0 <= k < r.value ==> s[k] != c
  {
    if |s| == 0 then None
    else if s[0] == c then Some(0)
    else match FirstIndex(s[1..], c)
      case None => None
      case Some(k) => Some(k + 1)
  }

  /** `s.lastIndexOf(c)`: the position of the last `c`, if any. */
  function LastIndex(s: string, c: char): (r: Option<nat>)
    ensures r.None? <==> c !in s
    ensures r.Some? ==> r.value < |s| && s[r.value] == c
    ensures r.Some? ==> forall k :: r.value < k < |s| ==> s[k] != c
  {
    if |s| == 0 then None
    else if s[|s| - 1] == c then Some(|s| - 1)
    else match LastIndex(s[..|s| - 1], c)
      case None =>
        assert s == s[..|s| - 1] + [s[|s| - 1]];
        None
      case Some(k) => Some(k)
  }

  /** `a` occurs in `s` as a contiguous piece. */
  ghost predicate IsInfix(a: string, s: string) {
    exists i :: 0 <= i <= |s| - |a| && OccursAt(a, s, i)
  }

  /** `a` occurs in `s` starting at position `i`. */
  ghost predicate OccursAt(a: string, s: string, i: nat)
    requires i + |a| <= |s|
  {
    s[i..i + |a|] == a
  }

  lemma InfixOfConcat(a: string, b: string, c: string)
    ensures IsInfix(b, a + b + c)
  {
    assert OccursAt(b, a + b + c, |a|);
  }

  /** The characters `String.prototype.trim` removes: ECMAScript's
      WhiteSpace and LineTerminator code points. */
  predicate IsJsSpace(c: char) {
    c == '\t' || c == '\n' || c == '\U{000B}' || c == '\U{000C}' || c == '\r' || c == ' '
    || c == '\U{00A0}' || c == '\U{1680}' || ('\U{2000}' <= c <= '\U{200A}')
    || c == '\U{2028}' || c == '\U{2029}' || c == '\U{202F}' || c == '\U{205F}'
    || c == '\U{3000}' || c == '\U{FEFF}'
  }

  ghost predicate AllSpace(s: string) {
    forall i :: 0 <= i < |s| ==> IsJsSpace(s[i])
  }

  /** `r` is what `s.trim()` yields: `s` with a whitespace-only prefix and
      suffix cut off, and neither end of `r` whitespace. */
  ghost predicate IsTrimOf(r: string, s: string) {
    && (exists a, b :: 0 <= a <= b <= |s| && r == s[a..b] && AllSpace(s[..a]) && AllSpace(s[b..]))
    && (r != [] ==> !IsJsSpace(r[0]) && !IsJsSpace(r[|r| - 1]))
  }

  function TrimStart(s: string): (r: string)
    ensures |r| <= |s| && r == s[|s| - |r|..]
    ensures AllSpace(s[..|s| - |r|])
    ensures r != [] ==> !IsJsSpace(r[0])
  {
    if |s| > 0 && IsJsSpace(s[0]) then
      var r := TrimStart(s[1..]);
      assert s[..|s| - |r|] == [s[0]] + s[1..][..|s| - 1 - |r|];
      r
    else s
  }

  function TrimEnd(s: string): (r: string)
    ensures |r| <= |s| && r == s[..|r|]
    ensures AllSpace(s[|r|..])
    ensures r != [] ==> !IsJsSpace(r[|r| - 1])
  {
    if |s| > 0 && IsJsSpace(s[|s| - 1]) then
      var r := TrimEnd(s[..|s| - 1]);
      assert s[|r|..] == s[..|s| - 1][|r|..] + [s[|s| - 1]];
      r
    else s
  }

  /** `s.trim()`. */
  function Trim(s: string): (r: string)
    ensures IsTrimOf(r, s)
  {
    var t := TrimStart(s);
    var r := TrimEnd(t);
    var a := |s| - |t|;
    assert r == s[a..a + |r|];
    assert s[a + |r|..] == t[|r|..];
    assert r != [] ==> r[0] == t[0];
    r
  }

  /** Lexicographic order on strings: `a` sorts strictly before `b`. */
  predicate LexLess(a: string, b: string) {
    if |a| == 0 then |b| > 0
    else if |b| == 0 then false
    else if a[0] == b[0] then LexLess(a[1..], b[1..])
    else a[0] < b[0]
  }

  lemma {:induction false} LexLessIrreflexive(a: string)
    ensures !LexLess(a, a)
  {
    if |a| > 0 { LexLessIrreflexive(a[1..]); }
  }

  lemma {:induction false} LexLessTotal(a: string, b: string)
    requires a != b
    ensures LexLess(a, b) || LexLess(b, a)
  {
    if |a| > 0 && |b| > 0 && a[0] == b[0] {
      assert a == [a[0]] + a[1..] && b == [b[0]] + b[1..];
      LexLessTotal(a[1..], b[1..]);
    }
  }

  lemma {:induction false} LexLessTransitive(a: string, b: string, c: string)
    requires LexLess(a, b) && LexLess(b, c)
    ensures LexLess(a, c)
  {
    if |a| > 0 && |b| > 0 && |c| > 0 && a[0] == b[0] && b[0] == c[0] {
      LexLessTransitive(a[1..], b[1..], c[1..]);
    }
  }
}

/** The two string primitives the module relies on: `strings.TrimSpace` and
    `strings.Compare`. Strings are sequences of Unicode code points; comparing
    code points lexicographically orders strings exactly as comparing their
    UTF-8 bytes does. */
module Text {

  /** `unicode.IsSpace`: the Latin-1 white space characters and the other
      characters of Unicode's White_Space property. */
  predicate IsSpace(c: char): (r: bool)
    ensures c as int < 0x80 ==> (r <==> c == ' ' || '\t' <= c <= '\r')
  {
    var n := c as int;
    n == 0x09 || n == 0x0A || n == 0x0B || n == 0x0C || n == 0x0D || n == 0x20
    || n == 0x85 || n == 0xA0 || n == 0x1680 || (0x2000 <= n <= 0x200A)
    || n == 0x2028 || n == 0x2029 || n == 0x202F || n == 0x205F || n == 0x3000
  }

  predicate AllSpace(s: string) {
    forall i :: 0 <= i < |s| ==> IsSpace(s[i])
  }

  /** Neither the first nor the last character is white space. */
  predicate Unpadded(s: string) {
    s == [] || (!IsSpace(s[0]) && !IsSpace(s[|s| - 1]))
  }

  /** `t` is `s` with a run of white space removed at each end. */
  ghost predicate TrimmedFrom(t: string, s: string) {
    exists i :: 0 <= i <= |s| - |t| && s[i..i + |t|] == t && AllSpace(s[..i]) && AllSpace(s[i + |t|..])
  }

  /** The first index at or after `i` that does not hold white space, or
      `|s|`: the scan `strings.TrimSpace` makes from the left. */
  function SkipSpaces(s: string, i: nat): (r: nat)
    requires i <= |s|
    decreases |s| - i
    ensures i <= r <= |s|
    ensures forall k :: i <= k < r ==> IsSpace(s[k])
    ensures r == |s| || !IsSpace(s[r])
  {
    if i < |s| && IsSpace(s[i]) then SkipSpaces(s, i + 1) else i
  }

  /** The scan from the right: the smallest `r <= j` such that `s[r..j]` is
      all white space. */
  function SkipSpacesBack(s: string, j: nat): (r: nat)
    requires j <= |s|
    ensures r <= j
    ensures forall k :: r <= k < j ==> IsSpace(s[k])
    ensures r == 0 || !IsSpace(s[r - 1])
  {
    if j > 0 && IsSpace(s[j - 1]) then SkipSpacesBack(s, j - 1) else j
  }

  /** The scans stop at the only place they can. */
  lemma SkipSpacesAt(s: string, i: nat, m: nat)
    requires i <= m <= |s| && (forall k :: i <= k < m ==> IsSpace(s[k]))
    requires m == |s| || !IsSpace(s[m])
    ensures SkipSpaces(s, i) == m
  {
  }

  lemma SkipSpacesBackAt(s: string, j: nat, m: nat)
    requires m <= j <= |s| && (forall k :: m <= k < j ==> IsSpace(s[k]))
    requires m == 0 || !IsSpace(s[m - 1])
    ensures SkipSpacesBack(s, j) == m
  {
  }

  /** `s` without its leading white space. */
  function TrimLeft(s: string): (r: string)
    ensures |r| <= |s| && r == s[|s| - |r|..]
    ensures AllSpace(s[..|s| - |r|])
    ensures r == [] || !IsSpace(r[0])
  {
    s[SkipSpaces(s, 0)..]
  }

  /** `s` without its trailing white space. */
  function TrimRight(s: string): (r: string)
    ensures |r| <= |s| && r == s[..|r|]
    ensures AllSpace(s[|r|..])
    ensures r == [] || !IsSpace(r[|r| - 1])
  {
    s[..SkipSpacesBack(s, |s|)]
  }

  /** `strings.TrimSpace`. */
  function TrimSpace(s: string): (r: string)
    ensures |r| <= |s|
    ensures Unpadded(r)
    ensures TrimmedFrom(r, s)
  {
    var l := TrimLeft(s);
    var r := TrimRight(l);
    TrimmedFromParts(s, l, r, |s| - |l|);
    assert r != [] ==> r[0] == l[0];
    r
  }

  /** A white-space prefix of `s` leaves `l`, and a white-space suffix of
      `l` leaves `r`: then `r` is trimmed from `s`. */
  lemma TrimmedFromParts(s: string, l: string, r: string, i: int)
    requires 0 <= i <= |s| && l == s[i..] && AllSpace(s[..i])
    requires |r| <= |l| && r == l[..|r|] && AllSpace(l[|r|..])
    ensures TrimmedFrom(r, s)
  {
    assert s[i..i + |r|] == r;
    assert s[i + |r|..] == l[|r|..];
  }

  /** `strings.TrimSpace(x) == ""`, the blankness test of every validator. */
  predicate Blank(s: string) {
    TrimSpace(s) == ""
  }

  lemma TrimLeftSkips(p: string, t: string)
    requires AllSpace(p) && (t == [] || !IsSpace(t[0]))
    ensures TrimLeft(p + t) == t
  {
    SkipSpacesAt(p + t, 0, |p|);
    assert (p + t)[|p|..] == t;
  }

  lemma TrimRightSkips(t: string, q: string)
    requires AllSpace(q) && (t == [] || !IsSpace(t[|t| - 1]))
    ensures TrimRight(t + q) == t
  {
    SkipSpacesBackAt(t + q, |t + q|, |t|);
    assert (t + q)[..|t|] == t;
  }

  /** TrimSpace is characterised by its result alone: stripping white-space
      runs `p` and `q` from around an unpadded `t` gives back exactly `t`. */
  lemma TrimSpaceUnique(p: string, t: string, q: string)
    requires AllSpace(p) && AllSpace(q) && Unpadded(t)
    ensures TrimSpace(p + t + q) == t
  {
    if t == [] {
      assert p + t + q == p + q;
      assert AllSpace(p + q);
      TrimLeftSkips(p + q, []);
      assert p + q + [] == p + q;
      TrimRightSkips([], []);
    } else {
      assert p + t + q == p + (t + q);
      TrimLeftSkips(p, t + q);
      TrimRightSkips(t, q);
    }
  }

  /** An unpadded string is its own trimming. */
  lemma TrimSpaceFixes(t: string)
    requires Unpadded(t)
    ensures TrimSpace(t) == t
  {
    assert [] + t == t && t + [] == t;
    TrimLeftSkips([], t);
    TrimRightSkips(t, []);
  }

  lemma TrimSpaceIdempotent(s: string)
    ensures TrimSpace(TrimSpace(s)) == TrimSpace(s)
  {
    TrimSpaceFixes(TrimSpace(s));
  }

  /** A string is blank exactly when it consists of white space only. */
  lemma BlankIffAllSpace(s: string)
    ensures Blank(s) <==> AllSpace(s)
  {
    if AllSpace(s) {
      assert s + [] + [] == s;
      TrimSpaceUnique(s, [], []);
    }
    if Blank(s) {
      var l := TrimLeft(s);
      var k := |s| - |l|;
      assert TrimRight(l) == [] && AllSpace(l[0..]);
      assert l[0..] == l;
      assert l == [];
      assert s[..k] == s;
    }
  }

  /** `strings.Compare`: -1, 0 or +1 as `a` sorts before, equal to or after `b`. */
  function Compare(a: string, b: string): (r: int)
    ensures -1 <= r <= 1
    ensures a < b ==> r == -1
  {
    if a == [] && b == [] then 0
    else if a == [] then -1
    else if b == [] then 1
    else if a[0] < b[0] then -1
    else if a[0] > b[0] then 1
    else Compare(a[1..], b[1..])
  }

  lemma {:induction false} CompareZeroIffEqual(a: string, b: string)
    ensures Compare(a, b) == 0 <==> a == b
  {
    if a != [] && b != [] && a[0] == b[0] {
      CompareZeroIffEqual(a[1..], b[1..]);
      assert a == [a[0]] + a[1..] && b == [b[0]] + b[1..];
    }
  }

  lemma {:induction false} CompareAntisymmetric(a: string, b: string)
    ensures Compare(a, b) == -Compare(b, a)
  {
    if a != [] && b != [] && a[0] == b[0] {
      CompareAntisymmetric(a[1..], b[1..]);
    }
  }

  lemma {:induction false} CompareTransitive(a: string, b: string, c: string)
    requires Compare(a, b) <= 0 && Compare(b, c) <= 0
    ensures Compare(a, c) <= 0
  {
    if a != [] && b != [] && c != [] && a[0] == b[0] && b[0] == c[0] {
      CompareTransitive(a[1..], b[1..], c[1..]);
    }
  }
}
